/** When the presence hooks announce a user, as rules over the stored connection count,
    and what those rules imply over a run of hooks. */
module Presence {

  /** `on_connect` announces when the stored count it read is exactly 0 (it increments afterwards). */
  predicate ConnectAnnounces(stored: int)
  {
    stored == 0
  }

  /** `on_disconnect` announces when the count is exactly 0 after its decrement. */
  predicate DisconnectAnnounces(stored: int)
  {
    stored - 1 == 0
  }

  /** One run of a presence hook for the same user. */
  datatype Hook = Connect | Disconnect

  /** The stored count after one hook. */
  function Apply(count: int, h: Hook): int
  {
    match h
    case Connect => count + 1
    case Disconnect => count - 1
  }

  /** Whether one hook run from `count` announces. */
  predicate Announces(count: int, h: Hook)
  {
    match h
    case Connect => ConnectAnnounces(count)
    case Disconnect => DisconnectAnnounces(count)
  }

  /** The stored count after running `hooks` one after another from `count`. */
  function Final(count: int, hooks: seq<Hook>): int
    decreases |hooks|
  {
    if hooks == [] then count else Final(Apply(count, hooks[0]), hooks[1..])
  }

  /** The announcements (`online.connect` for Connect, `online.disconnect` for Disconnect)
      that running `hooks` from `count` makes, in order. */
  function Announcements(count: int, hooks: seq<Hook>): seq<Hook>
    decreases |hooks|
  {
    if hooks == [] then []
    else
      (if Announces(count, hooks[0]) then [hooks[0]] else [])
      + Announcements(Apply(count, hooks[0]), hooks[1..])
  }

  /** No run of `hooks` from `count` takes the count below zero: every disconnect has its connect. */
  ghost predicate Matched(count: int, hooks: seq<Hook>)
    decreases |hooks|
  {
    hooks == [] || (Apply(count, hooks[0]) >= 0 && Matched(Apply(count, hooks[0]), hooks[1..]))
  }

  /** Two announcements in a row are never of the same kind. */
  ghost predicate Alternating(a: seq<Hook>)
  {
    forall i | 0 < i < |a| :: a[i] != a[i - 1]
  }

  function Connects(n: nat): (r: seq<Hook>)
    ensures |r| == n && forall i | 0 <= i < n :: r[i] == Connect
  {
    seq(n, _ => Connect)
  }

  function Disconnects(n: nat): (r: seq<Hook>)
    ensures |r| == n && forall i | 0 <= i < n :: r[i] == Disconnect
  {
    seq(n, _ => Disconnect)
  }

  /** `n` connects raise the count by `n` and announce once, exactly when they take the
      count from 0 or below to above 0. From 0, `n >= 1` connects announce exactly once. */
  lemma {:induction false} ConnectBurst(count: int, n: nat)
    ensures Final(count, Connects(n)) == count + n
    ensures Announcements(count, Connects(n)) == if count <= 0 < count + n then [Connect] else []
    decreases n
  {
    if n > 0 {
      assert Connects(n)[1..] == Connects(n - 1);
      ConnectBurst(count + 1, n - 1);
    }
  }

  /** `n` disconnects lower the count by `n` and announce once, exactly when one of them
      leaves the count at 0. From `n`, `n >= 1` disconnects announce exactly once and end at 0. */
  lemma {:induction false} DisconnectBurst(count: int, n: nat)
    ensures Final(count, Disconnects(n)) == count - n
    ensures Announcements(count, Disconnects(n)) == if 1 <= count <= n then [Disconnect] else []
    decreases n
  {
    if n > 0 {
      assert Disconnects(n)[1..] == Disconnects(n - 1);
      DisconnectBurst(count - 1, n - 1);
    }
  }

  /** Over any run in which every disconnect has its connect, announcements alternate, the
      first one is the one the starting count calls for, and the last one tells whether the
      user is online at the end. */
  lemma {:induction false} AnnouncementsTrackPresence(count: int, hooks: seq<Hook>)
    requires count >= 0
    requires Matched(count, hooks)
    ensures Final(count, hooks) >= 0
    ensures Alternating(Announcements(count, hooks))
    ensures var a := Announcements(count, hooks);
            a != [] ==> a[0] == (if count == 0 then Connect else Disconnect)
    ensures var a := Announcements(count, hooks);
            a != [] ==> (a[|a| - 1] == Connect <==> Final(count, hooks) > 0)
    ensures Announcements(count, hooks) == [] ==> (count > 0 <==> Final(count, hooks) > 0)
    decreases |hooks|
  {
    if hooks != [] {
      var h, next := hooks[0], Apply(count, hooks[0]);
      AnnouncementsTrackPresence(next, hooks[1..]);
      var head := if Announces(count, h) then [h] else [];
      var rest := Announcements(next, hooks[1..]);
      assert Announcements(count, hooks) == head + rest;
      if head != [] && rest != [] {
        assert rest[0] != h;
      }
    }
  }

  /** With no lower bound on the count, a disconnect without its connect makes the next
      connect silent although a connection is then open. */
  lemma UnmatchedDisconnectSilencesConnect()
    ensures Final(0, [Disconnect, Connect]) == 0
    ensures Announcements(0, [Disconnect, Connect]) == []
    ensures !Matched(0, [Disconnect, Connect])
  {
    assert [Disconnect, Connect][1..] == [Connect];
  }
}

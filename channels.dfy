/** The channel layer behind `send` and `group_send`: named groups of channels, and the
    events each channel has been handed so far. */
module Channels {
  import opened Wrappers
  import opened Events

  /** The name of one connection's channel. */
  type ChannelName = string

  /** One call of `group_send` or `send`, as it was made. */
  datatype Delivery = ToGroup(group: string, event: Event) | ToChannel(channel: ChannelName, event: Event)

  /** A character the channel layer allows in a group name: an ASCII letter or digit, a
      hyphen, an underscore or a period. */
  predicate GroupNameChar(ch: char)
  {
    ('a' <= ch <= 'z') || ('A' <= ch <= 'Z') || ('0' <= ch <= '9') || ch == '-' || ch == '_' || ch == '.'
  }

  /** The channel layer's test of a group name: 1 to 99 allowed characters. */
  predicate ValidGroupName(g: string)
  {
    0 < |g| < 100 && forall i | 0 <= i < |g| :: GroupNameChar(g[i])
  }

  /** Names with a space, an `@` or a letter outside ASCII are refused, as is the empty name. */
  lemma RefusedGroupNames()
    ensures !ValidGroupName("bob smith")
    ensures !ValidGroupName("a@b")
    ensures !ValidGroupName("jos\U{E9}")
    ensures !ValidGroupName("")
    ensures ValidGroupName("bob_smith.2")
  {
    assert "bob smith"[3] == ' ';
    assert "a@b"[1] == '@';
    assert "jos\U{E9}"[3] == '\U{E9}';
    var g := "bob_smith.2";
    assert forall i | 0 <= i < |g| :: GroupNameChar(g[i]);
  }

  /** The channels in group `g`; a group nobody joined is empty. */
  function Members(groups: map<string, set<ChannelName>>, g: string): set<ChannelName>
  {
    if g in groups then groups[g] else {}
  }

  /** The events handed to channel `c` so far. */
  function Inbox(outbox: map<ChannelName, seq<Event>>, c: ChannelName): seq<Event>
  {
    if c in outbox then outbox[c] else []
  }

  /** Hands `e` to every channel of `targets`, and to no other. */
  function Deliver(outbox: map<ChannelName, seq<Event>>, targets: set<ChannelName>, e: Event)
    : (r: map<ChannelName, seq<Event>>)
    ensures forall c :: c in targets ==> Inbox(r, c) == Inbox(outbox, c) + [e]
    ensures forall c :: c !in targets ==> Inbox(r, c) == Inbox(outbox, c)
  {
    map c | c in outbox.Keys + targets :: if c in targets then Inbox(outbox, c) + [e] else outbox[c]
  }

  /** The channels a delivery reaches under the memberships `groups`. */
  function Targets(groups: map<string, set<ChannelName>>, d: Delivery): set<ChannelName>
  {
    match d
    case ToGroup(g, _) => Members(groups, g)
    case ToChannel(c, _) => {c}
  }

  /** The outbox after making the deliveries `ds` in order, with the memberships fixed. */
  function Replay(outbox: map<ChannelName, seq<Event>>, groups: map<string, set<ChannelName>>, ds: seq<Delivery>)
    : map<ChannelName, seq<Event>>
    decreases |ds|
  {
    if ds == [] then outbox
    else
      var last := ds[|ds| - 1];
      Deliver(Replay(outbox, groups, ds[..|ds| - 1]), Targets(groups, last), last.event)
  }

  /** The events of `ds` that reach channel `c`, in order. */
  function Received(groups: map<string, set<ChannelName>>, ds: seq<Delivery>, c: ChannelName): seq<Event>
    decreases |ds|
  {
    if ds == [] then []
    else
      var last := ds[|ds| - 1];
      Received(groups, ds[..|ds| - 1], c) + (if c in Targets(groups, last) then [last.event] else [])
  }

  /** One more delivery is one more `Deliver`. */
  lemma ReplaySnoc(outbox: map<ChannelName, seq<Event>>, groups: map<string, set<ChannelName>>, ds: seq<Delivery>, d: Delivery)
    ensures Replay(outbox, groups, ds + [d]) == Deliver(Replay(outbox, groups, ds), Targets(groups, d), d.event)
  {
    assert (ds + [d])[..|ds|] == ds;
  }

  /** A single delivery is a single `Deliver`. */
  lemma ReplayOne(outbox: map<ChannelName, seq<Event>>, groups: map<string, set<ChannelName>>, d: Delivery)
    ensures Replay(outbox, groups, [d]) == Deliver(outbox, Targets(groups, d), d.event)
  {
    ReplaySnoc(outbox, groups, [], d);
    assert [] + [d] == [d];
  }

  /** Delivering `a` and then `b` is delivering `a + b`. */
  lemma {:induction false} ReplayConcat(outbox: map<ChannelName, seq<Event>>, groups: map<string, set<ChannelName>>,
                                        a: seq<Delivery>, b: seq<Delivery>)
    ensures Replay(Replay(outbox, groups, a), groups, b) == Replay(outbox, groups, a + b)
    decreases |b|
  {
    if b == [] {
      assert a + b == a;
    } else {
      var front, last := b[..|b| - 1], b[|b| - 1];
      assert b == front + [last];
      ReplayConcat(outbox, groups, a, front);
      assert a + b == (a + front) + [last];
      ReplaySnoc(outbox, groups, a + front, last);
    }
  }

  /** Logging three deliveries one at a time logs the three in order. */
  lemma LogThree(s: seq<Delivery>, d0: Delivery, d1: Delivery, d2: Delivery)
    ensures s + [d0] + [d1] + [d2] == s + [d0, d1, d2]
  {
  }

  /** Three deliveries made one after another are the replay of the three. */
  lemma ReplayThree(o0: map<ChannelName, seq<Event>>, o1: map<ChannelName, seq<Event>>,
                    o2: map<ChannelName, seq<Event>>, o3: map<ChannelName, seq<Event>>,
                    groups: map<string, set<ChannelName>>, d0: Delivery, d1: Delivery, d2: Delivery)
    requires o1 == Replay(o0, groups, [d0])
    requires o2 == Replay(o1, groups, [d1])
    requires o3 == Replay(o2, groups, [d2])
    ensures o3 == Replay(o0, groups, [d0, d1, d2])
  {
    ReplayOne(o0, groups, d0);
    ReplayOne(o1, groups, d1);
    ReplayOne(o2, groups, d2);
    ReplaySnoc(o0, groups, [d0], d1);
    assert [d0] + [d1] == [d0, d1];
    ReplaySnoc(o0, groups, [d0, d1], d2);
    assert [d0, d1] + [d2] == [d0, d1, d2];
  }

  /** After the deliveries `ds`, a channel holds what it held plus exactly the events of
      `ds` addressed to it, in order; no channel receives anything else. */
  lemma {:induction false} ReplayInbox(outbox: map<ChannelName, seq<Event>>, groups: map<string, set<ChannelName>>,
                                       ds: seq<Delivery>, c: ChannelName)
    ensures Inbox(Replay(outbox, groups, ds), c) == Inbox(outbox, c) + Received(groups, ds, c)
    decreases |ds|
  {
    if ds != [] {
      ReplayInbox(outbox, groups, ds[..|ds| - 1], c);
    }
  }

  /** The events that reach `c` from one delivery. */
  function ReceivedFrom(groups: map<string, set<ChannelName>>, d: Delivery, c: ChannelName): seq<Event>
  {
    if c in Targets(groups, d) then [d.event] else []
  }

  /** One more delivery adds what it brings to `c`. */
  lemma ReceivedSnoc(groups: map<string, set<ChannelName>>, ds: seq<Delivery>, d: Delivery, c: ChannelName)
    ensures Received(groups, ds + [d], c) == Received(groups, ds, c) + ReceivedFrom(groups, d, c)
  {
    assert (ds + [d])[..|ds|] == ds;
  }

  /** What a channel receives from three deliveries, one by one. */
  lemma ReceivedThree(groups: map<string, set<ChannelName>>, d0: Delivery, d1: Delivery, d2: Delivery, c: ChannelName)
    ensures Received(groups, [d0, d1, d2], c)
            == ReceivedFrom(groups, d0, c) + ReceivedFrom(groups, d1, c) + ReceivedFrom(groups, d2, c)
  {
    ReceivedSnoc(groups, [], d0, c);
    assert [] + [d0] == [d0];
    ReceivedSnoc(groups, [d0], d1, c);
    assert [d0] + [d1] == [d0, d1];
    ReceivedSnoc(groups, [d0, d1], d2, c);
    assert [d0, d1] + [d2] == [d0, d1, d2];
  }

  /** Three events sent straight to one channel reach that channel, in order, and no other. */
  lemma ReplayToChannel(outbox: map<ChannelName, seq<Event>>, groups: map<string, set<ChannelName>>,
                        channel: ChannelName, e0: Event, e1: Event, e2: Event, c: ChannelName)
    ensures Inbox(Replay(outbox, groups, [ToChannel(channel, e0), ToChannel(channel, e1), ToChannel(channel, e2)]), c)
            == Inbox(outbox, c) + (if c == channel then [e0, e1, e2] else [])
  {
    var d0, d1, d2 := ToChannel(channel, e0), ToChannel(channel, e1), ToChannel(channel, e2);
    ReplayInbox(outbox, groups, [d0, d1, d2], c);
    ReceivedThree(groups, d0, d1, d2, c);
  }

  /** `group_add`: `c` is a member of `g` afterwards, and no other membership changes. */
  function Joined(groups: map<string, set<ChannelName>>, g: string, c: ChannelName)
    : (r: map<string, set<ChannelName>>)
    ensures Members(r, g) == Members(groups, g) + {c}
    ensures forall h :: h != g ==> Members(r, h) == Members(groups, h)
  {
    groups[g := Members(groups, g) + {c}]
  }

  /** `group_discard`: `c` is not a member of `g` afterwards, and no other membership changes. */
  function Left(groups: map<string, set<ChannelName>>, g: string, c: ChannelName)
    : (r: map<string, set<ChannelName>>)
    ensures Members(r, g) == Members(groups, g) - {c}
    ensures forall h :: h != g ==> Members(r, h) == Members(groups, h)
  {
    groups[g := Members(groups, g) - {c}]
  }

  class ChannelLayer {
    /** Group name to member channels. */
    var groups: map<string, set<ChannelName>>
    /** Channel name to the events handed to it, oldest first. */
    var outbox: map<ChannelName, seq<Event>>
    /** Every `group_send` and `send` call, oldest first. */
    var sent: seq<Delivery>

    constructor ()
      ensures groups == map[] && outbox == map[] && sent == []
    {
      groups, outbox, sent := map[], map[], [];
    }

    method GroupAdd(g: string, c: ChannelName)
      modifies this
      ensures groups == Joined(old(groups), g, c)
      ensures outbox == old(outbox) && sent == old(sent)
    {
      groups := Joined(groups, g, c);
    }

    method GroupDiscard(g: string, c: ChannelName)
      modifies this
      ensures groups == Left(old(groups), g, c)
      ensures outbox == old(outbox) && sent == old(sent)
    {
      groups := Left(groups, g, c);
    }

    /** `group_send`: a refused group name raises and nothing is sent; otherwise every
        channel in the group when the call is made receives `e`. */
    method GroupSend(g: string, e: Event) returns (r: Outcome)
      modifies this
      ensures r == if ValidGroupName(g) then Pass else Fail(InvalidGroupName(g))
      ensures r.Pass? ==> sent == old(sent) + [ToGroup(g, e)]
      ensures r.Pass? ==> outbox == Deliver(old(outbox), Members(old(groups), g), e)
      ensures r.Fail? ==> sent == old(sent) && outbox == old(outbox)
      ensures groups == old(groups)
    {
      if !ValidGroupName(g) {
        return Fail(InvalidGroupName(g));
      }
      sent := sent + [ToGroup(g, e)];
      outbox := Deliver(outbox, Members(groups, g), e);
      r := Pass;
    }

    /** `send` on a consumer: its own channel receives `e`. */
    method Send(c: ChannelName, e: Event)
      modifies this
      ensures sent == old(sent) + [ToChannel(c, e)]
      ensures outbox == Deliver(old(outbox), {c}, e)
      ensures groups == old(groups)
    {
      sent := sent + [ToChannel(c, e)];
      outbox := Deliver(outbox, {c}, e);
    }
  }
}

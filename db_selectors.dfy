/** The read-only queries over the stored tables. Each is a function of the table it
    reads, so none of them can change anything. */
module DbSelectors {
  import opened Wrappers
  import opened Models

  /** `User.objects.filter(username=...).exists()`. */
  function UsernameTaken(users: seq<string>, username: string): (r: bool)
    ensures r <==> exists i | 0 <= i < |users| :: users[i] == username
  {
    if users == [] then false
    else users[|users| - 1] == username || UsernameTaken(users[..|users| - 1], username)
  }

  /** The positions of the presence rows that belong to `user`, in table order. */
  function Matching(rows: seq<ActiveUser>, user: string): (r: seq<nat>)
    ensures forall k | 0 <= k < |r| :: r[k] < |rows| && rows[r[k]].user == user
    ensures forall j | 0 <= j < |rows| && rows[j].user == user :: j in r
    ensures forall k, l | 0 <= k < l < |r| :: r[k] < r[l]
  {
    if rows == [] then []
    else
      var n := |rows| - 1;
      Matching(rows[..n], user) + (if rows[n].user == user then [n] else [])
  }

  /** `ActiveUser.objects.get(user=user)`: the position of the one row of the user, or the
      error Django raises when there is none or more than one. */
  function ActiveUserGet(rows: seq<ActiveUser>, user: string): (r: Result<nat>)
    ensures r.Success? ==> r.value < |rows| && rows[r.value].user == user
    ensures r.Success? ==> forall j | 0 <= j < |rows| && rows[j].user == user :: j == r.value
    ensures r == Failure(DoesNotExist) <==> forall j | 0 <= j < |rows| :: rows[j].user != user
    ensures r == Failure(MultipleObjectsReturned) <==>
      exists j, k | 0 <= j < k < |rows| :: rows[j].user == user && rows[k].user == user
    ensures r.Success? || r == Failure(DoesNotExist) || r == Failure(MultipleObjectsReturned)
  {
    var found := Matching(rows, user);
    if |found| == 0 then Failure(DoesNotExist)
    else if |found| > 1 then
      assert rows[found[0]].user == user && rows[found[1]].user == user && found[0] < found[1];
      Failure(MultipleObjectsReturned)
    else
      Success(found[0])
  }

  /** `ActiveUser.objects.filter(active_connections__gt=0)`: every row with a positive
      count, as many times as it is stored, and no other row. The query leaves the order
      of the rows to the database; this definition lists them in storage order. */
  function OnlineUsers(rows: seq<ActiveUser>): (r: seq<ActiveUser>)
    ensures forall x :: x in r <==> x in rows && x.activeConnections > 0
    ensures forall x :: multiset(r)[x] == if x.activeConnections > 0 then multiset(rows)[x] else 0
    ensures |r| <= |rows|
  {
    if rows == [] then []
    else
      var n := |rows| - 1;
      assert rows == rows[..n] + [rows[n]];
      OnlineUsers(rows[..n]) + (if rows[n].activeConnections > 0 then [rows[n]] else [])
  }

  /** Ascending by `sent`. */
  ghost predicate SortedBySent(s: seq<ChatMessage>)
  {
    forall i, j | 0 <= i < j < |s| :: s[i].sent <= s[j].sent
  }

  /** Strictly ascending by `sent`: no two messages share a timestamp. */
  ghost predicate StrictlyBySent(s: seq<ChatMessage>)
  {
    forall i, j | 0 <= i < j < |s| :: s[i].sent < s[j].sent
  }

  /** A message no later than the head of a sorted history may go in front of it. */
  lemma SortedCons(a: ChatMessage, t: seq<ChatMessage>)
    requires SortedBySent(t)
    requires t != [] ==> a.sent <= t[0].sent
    ensures SortedBySent([a] + t)
  {
    var s := [a] + t;
    forall i, j | 0 <= i < j < |s| ensures s[i].sent <= s[j].sent {
      if i == 0 && j > 1 {
        assert t[0].sent <= t[j - 1].sent;
      }
    }
  }

  /** Places `m` before the first message sent no earlier than it. */
  function InsertBySent(m: ChatMessage, s: seq<ChatMessage>): (r: seq<ChatMessage>)
    requires SortedBySent(s)
    ensures SortedBySent(r)
    ensures multiset(r) == multiset(s) + multiset{m}
    ensures |r| == |s| + 1
    ensures r[0] == m || (s != [] && r[0] == s[0])
  {
    if s == [] || m.sent <= s[0].sent then
      SortedCons(m, s);
      [m] + s
    else
      var rest := InsertBySent(m, s[1..]);
      assert s == [s[0]] + s[1..];
      SortedCons(s[0], rest);
      [s[0]] + rest
  }

  /** `ChatMessage.objects.order_by("sent")`: every stored message, ascending by `sent`.
      The query leaves the order of messages with equal `sent` to the database; this
      definition puts them in the order in which they were stored. */
  function ChatMessageAll(messages: seq<ChatMessage>): (r: seq<ChatMessage>)
    ensures SortedBySent(r)
    ensures multiset(r) == multiset(messages)
    ensures |r| == |messages|
  {
    if messages == [] then []
    else
      assert messages == [messages[0]] + messages[1..];
      InsertBySent(messages[0], ChatMessageAll(messages[1..]))
  }

  /** Dropping the head of a sequence drops one copy of it from its multiset. */
  lemma TailMultiset(s: seq<ChatMessage>)
    requires s != []
    ensures multiset(s[1..]) == multiset(s) - multiset{s[0]}
  {
    assert s == [s[0]] + s[1..];
  }

  /** A sorted and a strictly sorted sequence of the same messages start alike. */
  lemma SameHead(h: seq<ChatMessage>, messages: seq<ChatMessage>)
    requires SortedBySent(h)
    requires StrictlyBySent(messages)
    requires multiset(h) == multiset(messages)
    requires messages != []
    ensures h != [] && h[0] == messages[0]
  {
    assert messages[0] in multiset(h);
    var i :| 0 <= i < |h| && h[i] == messages[0];
    assert h[0] in multiset(messages);
    var j :| 0 <= j < |messages| && messages[j] == h[0];
    assert h[0].sent <= h[i].sent;
    assert j == 0;
  }

  /** A sorted sequence holding the same messages as a strictly sorted one is that one. */
  lemma {:induction false} SortedPermutationUnique(h: seq<ChatMessage>, messages: seq<ChatMessage>)
    requires SortedBySent(h)
    requires StrictlyBySent(messages)
    requires multiset(h) == multiset(messages)
    ensures h == messages
    decreases |messages|
  {
    if messages == [] {
      assert |multiset(h)| == 0;
    } else {
      SameHead(h, messages);
      TailMultiset(h);
      TailMultiset(messages);
      SortedPermutationUnique(h[1..], messages[1..]);
      assert h == [h[0]] + h[1..];
      assert messages == [messages[0]] + messages[1..];
    }
  }

  /** A history stored with strictly increasing `sent` is returned exactly as stored, by
      the contract of `ChatMessageAll` alone. */
  lemma HistoryOfSortedLog(messages: seq<ChatMessage>)
    requires StrictlyBySent(messages)
    ensures ChatMessageAll(messages) == messages
  {
    SortedPermutationUnique(ChatMessageAll(messages), messages);
  }

  /** No two messages share a `sent`, in whatever order they are stored. */
  ghost predicate DistinctSent(s: seq<ChatMessage>)
  {
    forall i, j | 0 <= i < j < |s| :: s[i].sent != s[j].sent
  }

  /** A message found at two positions is held at least twice. */
  lemma TwiceHeld(s: seq<ChatMessage>, i: nat, j: nat)
    requires i < j < |s| && s[i] == s[j]
    ensures multiset(s)[s[i]] >= 2
  {
    assert s == s[..j] + [s[j]] + s[j + 1..];
    assert s[i] in s[..j];
  }

  /** A message held at least twice is found at two positions. */
  lemma {:induction false} HeldTwice(s: seq<ChatMessage>, x: ChatMessage)
    requires multiset(s)[x] >= 2
    ensures exists i, j | 0 <= i < j < |s| :: s[i] == x && s[j] == x
  {
    assert s == [s[0]] + s[1..];
    if s[0] == x {
      assert x in multiset(s[1..]);
      var q :| 0 <= q < |s[1..]| && s[1..][q] == x;
      assert s[0] == x && s[q + 1] == x;
    } else {
      HeldTwice(s[1..], x);
      var i, j :| 0 <= i < j < |s[1..]| && s[1..][i] == x && s[1..][j] == x;
      assert s[i + 1] == x && s[j + 1] == x;
    }
  }

  /** Reordering messages keeps their timestamps distinct. */
  lemma DistinctSentPermutation(a: seq<ChatMessage>, b: seq<ChatMessage>)
    requires multiset(a) == multiset(b)
    requires DistinctSent(a)
    ensures DistinctSent(b)
  {
    forall i, j | 0 <= i < j < |b| ensures b[i].sent != b[j].sent {
      if b[i] == b[j] {
        TwiceHeld(b, i, j);
        HeldTwice(a, b[i]);
      } else {
        assert b[i] in multiset(a) && b[j] in multiset(a);
        var p :| 0 <= p < |a| && a[p] == b[i];
        var q :| 0 <= q < |a| && a[q] == b[j];
        assert a[p].sent != a[q].sent || p == q;
      }
    }
  }

  /** Reordering messages sent before `m` leaves them all sent before `m`. */
  lemma EarlierStaysEarlier(a: seq<ChatMessage>, b: seq<ChatMessage>, m: ChatMessage)
    requires multiset(a) == multiset(b)
    requires forall k | 0 <= k < |a| :: a[k].sent < m.sent
    ensures forall k | 0 <= k < |b| :: b[k].sent < m.sent
  {
    forall k | 0 <= k < |b| ensures b[k].sent < m.sent {
      assert b[k] in multiset(a);
      var p :| 0 <= p < |a| && a[p] == b[k];
    }
  }

  /** A sorted history without ties, followed by a later message, is strictly sorted. */
  lemma StrictSnoc(h: seq<ChatMessage>, m: ChatMessage)
    requires SortedBySent(h) && DistinctSent(h)
    requires forall k | 0 <= k < |h| :: h[k].sent < m.sent
    ensures StrictlyBySent(h + [m])
  {
    var t := h + [m];
    forall i, j | 0 <= i < j < |t| ensures t[i].sent < t[j].sent {
      assert t[i] == h[i];
      if j < |h| {
        assert t[j] == h[j];
        assert h[i].sent <= h[j].sent && h[i].sent != h[j].sent;
      }
    }
  }

  /** When no two messages share a `sent`, a message sent later than all of them ends the
      history, after the history of the others. Neither side has a tie whose order the
      database could pick, so this follows from the contract of `ChatMessageAll` alone. */
  lemma HistoryAppend(messages: seq<ChatMessage>, m: ChatMessage)
    requires DistinctSent(messages)
    requires forall k | 0 <= k < |messages| :: messages[k].sent < m.sent
    ensures ChatMessageAll(messages + [m]) == ChatMessageAll(messages) + [m]
  {
    var h := ChatMessageAll(messages);
    var t := h + [m];
    DistinctSentPermutation(messages, h);
    EarlierStaysEarlier(messages, h, m);
    StrictSnoc(h, m);
    assert multiset(messages + [m]) == multiset(messages) + multiset{m};
    SortedPermutationUnique(ChatMessageAll(messages + [m]), t);
  }
}

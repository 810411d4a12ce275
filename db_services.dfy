/** The writes to the stored tables. The database is one object whose tables are
    sequences of rows; each service reassigns the tables it writes. */
module DbServices {
  import opened Wrappers
  import opened Models
  import opened DbSelectors

  /** The presence rows with the count of row `i` moved by `delta`; every other row and
      every other column stays as it was. */
  function WithConnections(rows: seq<ActiveUser>, i: nat, delta: int): (r: seq<ActiveUser>)
    requires i < |rows|
    ensures |r| == |rows|
    ensures r[i].user == rows[i].user
    ensures r[i].activeConnections == rows[i].activeConnections + delta
    ensures forall j | 0 <= j < |rows| && j != i :: r[j] == rows[j]
  {
    rows[i := rows[i].(activeConnections := rows[i].activeConnections + delta)]
  }

  /** An increment followed by a decrement of the same row restores the table. */
  lemma IncrThenDecr(rows: seq<ActiveUser>, i: nat)
    requires i < |rows|
    ensures WithConnections(WithConnections(rows, i, 1), i, -1) == rows
  {
    var r := WithConnections(WithConnections(rows, i, 1), i, -1);
    assert forall j | 0 <= j < |rows| :: r[j] == rows[j];
  }

  /** A decrement followed by an increment of the same row restores the table. */
  lemma DecrThenIncr(rows: seq<ActiveUser>, i: nat)
    requires i < |rows|
    ensures WithConnections(WithConnections(rows, i, -1), i, 1) == rows
  {
    var r := WithConnections(WithConnections(rows, i, -1), i, 1);
    assert forall j | 0 <= j < |rows| :: r[j] == rows[j];
  }

  class Database {
    /** `normalize_username`, which `create_user` applies before it stores a name: Unicode
        NFKC normalization, given to the database as a function. */
    const normalize: string -> string
    /** `auth_user`, by username. */
    var users: seq<string>
    /** `ActiveUser` rows. */
    var activeUsers: seq<ActiveUser>
    /** `ChatMessage` rows, in the order they were stored. */
    var messages: seq<ChatMessage>

    /** Usernames are unique, and every foreign key names a stored user. */
    ghost predicate Valid()
      reads this
    {
      && (forall i, j | 0 <= i < j < |users| :: users[i] != users[j])
      && (forall k | 0 <= k < |activeUsers| :: activeUsers[k].user in users)
      && (forall k | 0 <= k < |messages| :: messages[k].author.Some? ==> messages[k].author.value in users)
    }

    constructor (normalize: string -> string)
      ensures Valid()
      ensures this.normalize == normalize
      ensures users == [] && activeUsers == [] && messages == []
    {
      this.normalize := normalize;
      users, activeUsers, messages := [], [], [];
    }

    /** `user_create`: a new user together with its presence row at count 0. `create_user`
        rejects an empty name first, then stores the normalized name; uniqueness is that of
        the stored column. */
    method UserCreate(username: string) returns (r: Result<string>)
      requires Valid()
      modifies this
      ensures Valid()
      ensures r.Success? <==> username != "" && !UsernameTaken(old(users), normalize(username))
      ensures username == "" ==> r == Failure(EmptyUsername)
      ensures username != "" && UsernameTaken(old(users), normalize(username)) ==> r == Failure(IntegrityError)
      ensures r.Failure? ==> users == old(users) && activeUsers == old(activeUsers)
      ensures r.Success? ==> r.value == normalize(username) && users == old(users) + [normalize(username)]
      ensures r.Success? ==> activeUsers == old(activeUsers) + [NewActiveUser(normalize(username))]
      ensures messages == old(messages)
    {
      if username == "" {
        return Failure(EmptyUsername);
      }
      var name := normalize(username);
      if UsernameTaken(users, name) {
        return Failure(IntegrityError);
      }
      users := users + [name];
      var _ := ActiveUserCreate(name);
      r := Success(name);
    }

    /** `active_user_create`: one more presence row for a stored user, at count 0. */
    method ActiveUserCreate(user: string) returns (r: ActiveUser)
      requires Valid()
      requires user in users
      modifies this
      ensures Valid()
      ensures r == NewActiveUser(user)
      ensures activeUsers == old(activeUsers) + [r]
      ensures users == old(users) && messages == old(messages)
    {
      r := NewActiveUser(user);
      activeUsers := activeUsers + [r];
    }

    /** `active_user_connections_incr` on row `i`. */
    method ActiveUserConnectionsIncr(i: nat)
      requires Valid()
      requires i < |activeUsers|
      modifies this
      ensures Valid()
      ensures activeUsers == WithConnections(old(activeUsers), i, 1)
      ensures users == old(users) && messages == old(messages)
    {
      activeUsers := activeUsers[i := activeUsers[i].(activeConnections := activeUsers[i].activeConnections + 1)];
    }

    /** `active_user_connections_decr` on row `i`. There is no lower bound: the count may become negative. */
    method ActiveUserConnectionsDecr(i: nat)
      requires Valid()
      requires i < |activeUsers|
      modifies this
      ensures Valid()
      ensures activeUsers == WithConnections(old(activeUsers), i, -1)
      ensures users == old(users) && messages == old(messages)
    {
      activeUsers := activeUsers[i := activeUsers[i].(activeConnections := activeUsers[i].activeConnections - 1)];
    }

    /** `chat_message_create`: store one message, stamped with the clock reading `now`. */
    method ChatMessageCreate(text: string, author: Option<string>, now: Timestamp, serviceMsg: bool := false)
      returns (m: ChatMessage)
      requires Valid()
      requires author.Some? ==> author.value in users
      modifies this
      ensures Valid()
      ensures m.text == text && m.author == author && m.sent == now && m.serviceMsg == serviceMsg
      ensures messages == old(messages) + [m]
      ensures users == old(users) && activeUsers == old(activeUsers)
    {
      m := ChatMessage(text, author, now, serviceMsg);
      messages := messages + [m];
    }
  }
}

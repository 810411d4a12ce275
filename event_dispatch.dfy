/** How `ReceiveManager` turns an event's `type` into the handler it calls. */
module EventDispatch {
  import opened Wrappers

  /** `str.lower` on one character; only the ASCII letters are mapped. */
  function LowerChar(ch: char): char
  {
    if 'A' <= ch <= 'Z' then (ch as int + 32) as char else ch
  }

  /** `str.lower`: each character lower-cased in place. */
  function Lower(s: string): (r: string)
    ensures |r| == |s|
    ensures forall i | 0 <= i < |s| :: r[i] == LowerChar(s[i])
  {
    if s == [] then [] else [LowerChar(s[0])] + Lower(s[1..])
  }

  /** `str.replace('.', '_')`: every dot becomes an underscore, nothing else moves. */
  function ReplaceDots(s: string): (r: string)
    ensures |r| == |s|
    ensures forall i | 0 <= i < |s| :: r[i] == if s[i] == '.' then '_' else s[i]
  {
    if s == [] then [] else [if s[0] == '.' then '_' else s[0]] + ReplaceDots(s[1..])
  }

  /** One character of a handler name. */
  function NameChar(ch: char): char
  {
    if LowerChar(ch) == '.' then '_' else LowerChar(ch)
  }

  /** `event['type'].lower().replace('.', '_')`, in one pass over the tag. */
  function HandlerName(tag: string): string
  {
    if tag == [] then [] else [NameChar(tag[0])] + HandlerName(tag[1..])
  }

  /** The one-pass name is the source's lower-casing followed by the dot replacement. */
  lemma {:induction false} HandlerNameIsLowerThenReplace(tag: string)
    ensures HandlerName(tag) == ReplaceDots(Lower(tag))
  {
    if tag != [] {
      HandlerNameIsLowerThenReplace(tag[1..]);
      var r := ReplaceDots(Lower(tag));
      assert r == [r[0]] + r[1..];
      assert Lower(tag)[1..] == Lower(tag[1..]);
      assert ReplaceDots(Lower(tag))[1..] == ReplaceDots(Lower(tag)[1..]);
    }
  }

  /** A handler name has the tag's length, no dot and no upper-case letter. */
  lemma {:induction false} HandlerNameShape(tag: string)
    ensures |HandlerName(tag)| == |tag|
    ensures forall i | 0 <= i < |tag| :: HandlerName(tag)[i] == NameChar(tag[i])
    ensures '.' !in HandlerName(tag)
    ensures forall i | 0 <= i < |tag| :: !('A' <= HandlerName(tag)[i] <= 'Z')
  {
    if tag != [] {
      HandlerNameShape(tag[1..]);
    }
  }

  /** Upper- and lower-case spellings of a type name the same handler. */
  lemma HandlerNameIgnoresCase(tag: string)
    ensures HandlerName(Lower(tag)) == HandlerName(tag)
  {
    HandlerNameShape(tag);
    HandlerNameShape(Lower(tag));
    var a, b := HandlerName(Lower(tag)), HandlerName(tag);
    forall i | 0 <= i < |tag| ensures a[i] == b[i] {
      assert Lower(tag)[i] == LowerChar(tag[i]);
    }
  }

  /** A handler name is its own handler name. */
  lemma HandlerNameIdempotent(tag: string)
    ensures HandlerName(HandlerName(tag)) == HandlerName(tag)
  {
    var n := HandlerName(tag);
    HandlerNameShape(tag);
    HandlerNameShape(n);
    var a := HandlerName(n);
    forall i | 0 <= i < |n| ensures a[i] == n[i] {
      assert n[i] != '.' by { assert n[i] in n; }
    }
  }

  /** The dispatchable handlers of `ReceiveManager`. */
  datatype Handler = UserMentionHandler | ServiceMessageHandler | ChatMessageHandler

  /** The method name of each handler. */
  function MethodName(h: Handler): string
  {
    match h
    case UserMentionHandler => "user_mention"
    case ServiceMessageHandler => "chat_servicemessage"
    case ChatMessageHandler => "chat_message"
  }

  /** No two handlers share a method name. */
  lemma MethodNamesDistinct(h: Handler, k: Handler)
    ensures MethodName(h) == MethodName(k) ==> h == k
  {
    assert MethodName(UserMentionHandler)[0] != MethodName(ChatMessageHandler)[0];
    assert |MethodName(ServiceMessageHandler)| != |MethodName(ChatMessageHandler)|;
    assert |MethodName(ServiceMessageHandler)| != |MethodName(UserMentionHandler)|;
  }

  /** `getattr(self, handler_name)`: the handler whose method name the tag derives, if any. */
  function Dispatch(tag: string): (r: Option<Handler>)
    ensures forall h :: r == Some(h) <==> HandlerName(tag) == MethodName(h)
  {
    var name := HandlerName(tag);
    var r := if name == MethodName(UserMentionHandler) then Some(UserMentionHandler)
      else if name == MethodName(ServiceMessageHandler) then Some(ServiceMessageHandler)
      else if name == MethodName(ChatMessageHandler) then Some(ChatMessageHandler)
      else None;
    assert forall h, k :: MethodName(h) == MethodName(k) ==> h == k by {
      forall h, k ensures MethodName(h) == MethodName(k) ==> h == k { MethodNamesDistinct(h, k); }
    }
    r
  }

  /** Dispatch does not depend on letter case. */
  lemma DispatchIgnoresCase(tag: string)
    ensures Dispatch(Lower(tag)) == Dispatch(tag)
  {
    HandlerNameIgnoresCase(tag);
  }

  /** A tag whose characters map one by one onto `name` has handler name `name`. */
  lemma HandlerNameFrom(tag: string, name: string)
    requires |tag| == |name|
    requires forall i | 0 <= i < |tag| :: NameChar(tag[i]) == name[i]
    ensures HandlerName(tag) == name
  {
    HandlerNameShape(tag);
  }

  /** A chat message is dispatched by its dotted tag... */
  lemma DispatchChatMessageTag()
    ensures Dispatch("chat.message") == Some(ChatMessageHandler)
  {
    HandlerNameFrom("chat.message", "chat_message");
  }

  /** ...in any letter case... */
  lemma DispatchMixedCaseTag()
    ensures Dispatch("Chat.Message") == Some(ChatMessageHandler)
  {
    HandlerNameFrom("Chat.Message", "chat_message");
  }

  /** ...and by the method name itself, since an underscore is left as it is. */
  lemma DispatchUnderscoreTag()
    ensures Dispatch("chat_message") == Some(ChatMessageHandler)
  {
    HandlerNameFrom("chat_message", "chat_message");
  }

  lemma DispatchUserMentionTag()
    ensures Dispatch("user.mention") == Some(UserMentionHandler)
  {
    HandlerNameFrom("user.mention", "user_mention");
  }

  /** The service-message tag reaches its handler, whose name has no underscore between
      `service` and `message`. */
  lemma DispatchServiceMessageTag()
    ensures Dispatch("chat.servicemessage") == Some(ServiceMessageHandler)
  {
    HandlerNameFrom("chat.servicemessage", "chat_servicemessage");
  }

  /** There is no `user_whoami` handler, so a `user.whoami` event reaches none. */
  lemma DispatchWhoamiUnknown()
    ensures Dispatch("user.whoami") == None
  {
    HandlerNameFrom("user.whoami", "user_whoami");
  }
}

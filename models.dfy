/** The two persisted records of the chat, and how a message displays itself. */
module Models {
  import opened Wrappers

  /** The `sent` column; only its order matters to the chat. */
  type Timestamp = int

  /** Number of characters of the text that the string form keeps. */
  const DisplayLength: nat := 16

  /** A stored chat message. `author` is None exactly for service messages. */
  datatype ChatMessage = ChatMessage(text: string, author: Option<string>, sent: Timestamp, serviceMsg: bool)

  /** A presence row: how many connections the user has open. */
  datatype ActiveUser = ActiveUser(user: string, activeConnections: int)

  /** A fresh presence row, with the column's default count. */
  function NewActiveUser(user: string): (r: ActiveUser)
    ensures r.user == user && r.activeConnections == 0
  {
    ActiveUser(user, 0)
  }

  /** The text as the string form shows it: cut to 16 characters and marked with "...". */
  function DisplayText(text: string): (r: string)
    ensures |text| <= DisplayLength ==> r == text
    ensures |text| > DisplayLength ==> |r| == DisplayLength + 3 && r[..DisplayLength] == text[..DisplayLength] && r[DisplayLength..] == "..."
    ensures |r| <= DisplayLength + 3
  {
    if |text| > DisplayLength then text[..DisplayLength] + "..." else text
  }

  /** Showing an already shown text changes nothing. */
  lemma DisplayTextIdempotent(text: string)
    ensures DisplayText(DisplayText(text)) == DisplayText(text)
  {
    if |text| > DisplayLength {
      var r := DisplayText(text);
      assert r == r[..DisplayLength] + r[DisplayLength..];
    }
  }

  /** `ChatMessage(<text>, <author>, <sent>)`; `sentText` is `str(self.sent)`.
      A message without an author has no string form: the source dereferences the author. */
  function Str(m: ChatMessage, sentText: string): (r: Result<string>)
    ensures r.Failure? <==> m.author.None?
    ensures r.Failure? ==> r.error == NoAuthor
    ensures r.Success? ==>
      var head := "ChatMessage(" + DisplayText(m.text) + ", ";
      var tail := ", " + sentText + ")";
      |r.value| == |head| + |m.author.value| + |tail|
      && r.value[..|head|] == head
      && r.value[|head|..|head| + |m.author.value|] == m.author.value
      && r.value[|head| + |m.author.value|..] == tail
  {
    match m.author
    case None => Failure(NoAuthor)
    case Some(name) => Success("ChatMessage(" + DisplayText(m.text) + ", " + name + ", " + sentText + ")")
  }

  /** `__repr__` is the string form. */
  function Repr(m: ChatMessage, sentText: string): (r: Result<string>)
    ensures r == Str(m, sentText)
  {
    Str(m, sentText)
  }
}

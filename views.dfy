/** What the page shows: which screen an id names, the chat header, and how the
    transcript is rendered, with each message classed as sent or received. */
module Views {
  import opened Records

  /** The id a screen has in the page (its element is `screen-<id>`). */
  function ScreenId(s: Screen): string {
    match s
    case Welcome => "welcome"
    case Account => "account"
    case Main => "main"
    case Created => "created"
    case Join => "join"
    case Chat => "chat"
  }

  /** The screen an id names, if any: `getElementById('screen-' + id)`. */
  function ScreenOf(id: string): (r: Option<Screen>)
    ensures r.Some? ==> ScreenId(r.value) == id
  {
    if id == "welcome" then Some(Welcome)
    else if id == "account" then Some(Account)
    else if id == "main" then Some(Main)
    else if id == "created" then Some(Created)
    else if id == "join" then Some(Join)
    else if id == "chat" then Some(Chat)
    else None
  }

  /** Every screen is found by its own id, so an id names a screen exactly when
      it is that screen's id. */
  lemma ScreenIdRoundTrip(s: Screen, id: string)
    ensures ScreenOf(ScreenId(s)) == Some(s)
    ensures ScreenOf(id) == Some(s) <==> id == ScreenId(s)
  {
  }

  /** The chat header: waiting for a partner, or chatting with a named one. */
  datatype Header = Awaiting | With(partner: string)

  /** The local account created this chat, so nobody has joined it yet from
      this side's point of view. */
  predicate IsOwnChat(s: Session) {
    s.myAccount == Some(s.creatorAccount)
  }

  /** The placeholder `openChat` puts in its `other` variable for an own chat. */
  const WaitingText: string := "Ожидание..."

  /** The header as `openChat` computes it: the partner's name is replaced by the
      placeholder for an own chat, and the header then tests the name against the
      placeholder, so a creator whose name is the placeholder reads as waiting. */
  function ChatHeaderAsWritten(s: Session): (h: Header)
    ensures !IsOwnChat(s) && s.creatorAccount != WaitingText ==> h == With(s.creatorAccount)
  {
    var other := if IsOwnChat(s) then WaitingText else s.creatorAccount;
    if other == WaitingText then Awaiting else With(other)
  }

  /** A joiner of a chat whose creator chose the placeholder as a name is shown
      the waiting header. */
  lemma PlaceholderCreatorReadsAsWaiting()
    ensures var s := Session("1", "ABCD2345", WaitingText, Some("bob"));
      !IsOwnChat(s) && ChatHeaderAsWritten(s) == Awaiting
  {
  }

  /** The header decided by whose chat it is, not by the partner's name. */
  function ChatHeader(s: Session): (h: Header)
    ensures h == Awaiting <==> IsOwnChat(s)
    ensures !IsOwnChat(s) ==> h == With(s.creatorAccount)
  {
    if IsOwnChat(s) then Awaiting else With(s.creatorAccount)
  }

  /** The two headers differ only for a creator named like the placeholder. */
  lemma HeadersAgreeExceptPlaceholder(s: Session)
    ensures ChatHeaderAsWritten(s) == ChatHeader(s) <==> IsOwnChat(s) || s.creatorAccount != WaitingText
  {
  }

  /** One rendered transcript entry: the content, whether it is shown as sent,
      and for a received message the sender label. */
  datatype RenderedMessage = RenderedMessage(content: string, sent: bool, senderLabel: Option<string>)

  /** The text a possibly-null sender shows as: `textContent = null` is empty. */
  function SenderText(sender: Option<string>): string {
    if sender.Some? then sender.value else ""
  }

  /** `renderMessage(m, m.sender === myAccount)`: strict equality, under which
      two nulls are equal, so a message without sender reads as sent when no
      account is stored. */
  function Classify(m: MessageRow, me: Option<string>): (r: RenderedMessage)
    ensures r.sent <==> m.sender == me
    ensures r.content == m.content
    ensures r.senderLabel.Some? <==> !r.sent
    ensures !r.sent ==> r.senderLabel == Some(SenderText(m.sender))
  {
    var isSent := m.sender == me;
    RenderedMessage(m.content, isSent, if isSent then None else Some(SenderText(m.sender)))
  }

  /** The `forEach` of `loadMessages`: one entry per row, in the rows' order. */
  method RenderRows(rows: seq<MessageRow>, me: Option<string>) returns (items: seq<RenderedMessage>)
    ensures |items| == |rows|
    ensures forall i :: 0 <= i < |rows| ==> items[i] == Classify(rows[i], me)
  {
    items := [];
    for i := 0 to |rows|
      invariant |items| == i
      invariant forall j :: 0 <= j < i ==> items[j] == Classify(rows[j], me)
    {
      items := items + [Classify(rows[i], me)];
    }
  }

  /** What the messages list shows. */
  datatype TranscriptView = NotLoaded | LoadFailed | NoMessages | Messages(items: seq<RenderedMessage>)

  /** The list `loadMessages` renders from a transcript outcome: the error
      notice for a failed fetch, the no-messages notice for an empty one, and
      otherwise one entry per row, in order, with its content and classed
      against the local account. */
  function ViewOf(loaded: FetchOutcome, me: Option<string>): (v: TranscriptView)
    ensures v != NotLoaded
    ensures v == LoadFailed <==> loaded == FetchFailed
    ensures v == NoMessages <==> loaded == Fetched([])
    ensures v.Messages? ==> loaded.Fetched? && |v.items| == |loaded.rows| > 0
    ensures v.Messages? ==> forall i :: 0 <= i < |v.items| ==>
      v.items[i].content == loaded.rows[i].content && (v.items[i].sent <==> loaded.rows[i].sender == me)
  {
    match loaded
    case FetchFailed => LoadFailed
    case Fetched(rows) =>
      if rows == [] then NoMessages
      else Messages(seq(|rows|, i requires 0 <= i < |rows| => Classify(rows[i], me)))
  }
}

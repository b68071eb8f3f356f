/** The values the chat client handles: the cached session, the message rows the
    backend returns, the screens, and the outcomes of the backend calls, which the
    model receives as parameters instead of performing them. */
module Records {

  /** A value that may be absent: JavaScript's `null` for a storage slot or a field. */
  datatype Option<+T> = None | Some(value: T)

  /** Identifier the backend assigns to a session row. */
  type SessionId = string

  /** The cached chat session: the record kept in the session storage slot and in
      the controller's current session. `myAccount` is whatever the account slot
      held when the session was made, which may be nothing. */
  datatype Session = Session(id: SessionId, key: string, creatorAccount: string, myAccount: Option<string>)

  /** The six screens of the page, one per `screen-<id>` element. */
  datatype Screen = Welcome | Account | Main | Created | Join | Chat

  /** A row of the messages collection as the transcript query returns it. The
      sender is the account slot of whoever sent it, so it may be null. */
  datatype MessageRow = MessageRow(id: string, sender: Option<string>, content: string, createdAt: string)

  /** The row a create-chat handler asks the backend to insert. */
  datatype NewSession = NewSession(key: string, creatorAccount: string)

  /** The lookup a join handler asks the backend for: a session with this key and creator. */
  datatype SessionQuery = SessionQuery(key: string, creatorAccount: string)

  /** The row a send handler asks the backend to insert. */
  datatype NewMessage = NewMessage(sessionId: SessionId, sender: Option<string>, content: string)

  /** Outcome of inserting a session row and selecting its id. */
  datatype InsertOutcome = Inserted(id: SessionId) | InsertFailed

  /** Outcome of the at-most-one-row lookup of a session by key and creator. */
  datatype LookupOutcome = Found(id: SessionId) | NotFound | LookupFailed

  /** Outcome of inserting a message row. */
  datatype SendOutcome = Sent | SendRejected

  /** Outcome of the transcript query: an error, or the rows in the backend's order. */
  datatype FetchOutcome = FetchFailed | Fetched(rows: seq<MessageRow>)

  /** The short notices (toasts) the handlers show; their wording is not modelled. */
  datatype Notice =
    | EnterName        // the trimmed name is empty
    | NameTooShort     // the trimmed name is shorter than two
    | CreateFailed     // the session insert failed
    | FillBothFields   // a join field is empty
    | ChatNotFound     // the lookup found no session
    | JoinFailed       // the lookup itself failed
    | SendFailed       // the message insert failed
}

/** The page controller: the cached account and session, the open chat, its live
    subscription, the active screen and the form inputs, with one method per
    event handler. Backend calls are not made: each handler receives the call's
    outcome as a parameter and returns the request it issued, `None` when it
    issued none. */
module Controller {
  import opened Records
  import opened Text
  import opened Keys
  import opened Forms
  import opened Views

  /** The number of open channels a subscription handle accounts for. */
  function ChannelsOf(sub: Option<SessionId>): nat {
    if sub.Some? then 1 else 0
  }

  /** JavaScript truthiness of a storage slot read as a string: present and non-empty. */
  predicate Truthy(slot: Option<string>) {
    slot.Some? && slot.value != ""
  }

  class ChatApp {
    /** The screen carrying the `active` class; none after an unknown id. */
    var screen: Option<Screen>
    /** Whether the "continue previous chat" block is displayed on the main screen. */
    var continueVisible: bool
    /** The account name shown on the main screen. */
    var accountLabel: string
    /** The two storage slots: the chosen account and the cached session. */
    var storedAccount: Option<string>
    var storedSession: Option<Session>
    /** The module-level `currentSession` and `messagesSubscription`. */
    var currentSession: Option<Session>
    var subscription: Option<SessionId>
    /** How many realtime channels the client holds open. */
    var channels: nat
    /** The form inputs. */
    var accountInput: string
    var joinAccountInput: string
    var joinKeyInput: string
    var messageInput: string
    /** The account and key shown on the created screen. */
    var shareAccount: string
    var shareKey: string
    /** The chat screen's header and messages list. */
    var header: Option<Header>
    var transcript: TranscriptView
    /** The last notice shown. */
    var notice: Option<Notice>

    /** No channel is leaked: one channel is open while a subscription handle
        is held and none otherwise, and a subscription exists only once a chat is
        current. On the main screen, the continue block is shown exactly when a
        session is cached. */
    ghost predicate Valid()
      reads this`channels, this`subscription, this`currentSession,
            this`screen, this`continueVisible, this`storedSession
    {
      ChannelsKept() && (screen == Some(Main) ==> continueVisible == storedSession.Some?)
    }

    ghost predicate ChannelsKept()
      reads this`channels, this`subscription, this`currentSession
    {
      && channels == ChannelsOf(subscription)
      && (subscription.Some? ==> currentSession.Some?)
    }

    /** `init`: start from what the storage slots hold from an earlier visit, on
        the main screen when an account is cached and on the welcome screen
        otherwise; the account form is prefilled with the cached account. */
    constructor Init(account: Option<string>, session: Option<Session>)
      ensures Valid()
      ensures storedAccount == account && storedSession == session
      ensures currentSession == None && subscription == None && channels == 0
      ensures screen == if Truthy(account) then Some(Main) else Some(Welcome)
      ensures continueVisible == (Truthy(account) && session.Some?)
      ensures accountLabel == accountInput == if Truthy(account) then account.value else ""
      ensures joinAccountInput == joinKeyInput == messageInput == shareAccount == shareKey == ""
      ensures header == None && transcript == NotLoaded && notice == None
    {
      storedAccount, storedSession := account, session;
      currentSession, subscription, channels := None, None, 0;
      accountInput := if Truthy(account) then account.value else "";
      joinAccountInput, joinKeyInput, messageInput := "", "", "";
      shareAccount, shareKey := "", "";
      header, transcript, notice := None, NotLoaded, None;
      accountLabel := if Truthy(account) then account.value else "";
      screen := if Truthy(account) then Some(Main) else Some(Welcome);
      continueVisible := Truthy(account) && session.Some?;
    }

    /** `showScreen(id)`: the screen `id` names becomes the only active one, and
        none is active when `id` names none; showing the main screen shows the
        continue block exactly when a session is cached. */
    method ShowScreen(id: string)
      requires ChannelsKept()
      modifies this`screen, this`continueVisible
      ensures Valid()
      ensures screen == ScreenOf(id)
      ensures continueVisible == if id == "main" then storedSession.Some? else old(continueVisible)
    {
      screen := ScreenOf(id);
      if id == "main" {
        continueVisible := storedSession.Some?;
      }
    }

    /** A back button: show its `data-back` target, if it has a non-empty one. */
    method Back(target: Option<string>)
      requires Valid()
      modifies this`screen, this`continueVisible
      ensures Valid()
      ensures !Truthy(target) ==> unchanged(this`screen, this`continueVisible)
      ensures Truthy(target) ==> screen == ScreenOf(target.value)
      ensures Truthy(target) ==>
        continueVisible == if target.value == "main" then storedSession.Some? else old(continueVisible)
    {
      if Truthy(target) {
        ShowScreen(target.value);
      }
    }

    /** The welcome screen's start button. */
    method Start()
      requires Valid()
      modifies this`screen, this`continueVisible
      ensures Valid()
      ensures screen == Some(Account) && unchanged(this`continueVisible)
    {
      ShowScreen("account");
    }

    /** The main screen's join button. */
    method OpenJoinForm()
      requires Valid()
      modifies this`screen, this`continueVisible
      ensures Valid()
      ensures screen == Some(Screen.Join) && unchanged(this`continueVisible)
    {
      ShowScreen("join");
    }

    /** The account form's continue button: a rejected name changes only the
        notice; an accepted one is stored trimmed and the main screen is shown. */
    method Continue()
      requires Valid()
      modifies this`notice, this`storedAccount, this`accountLabel, this`screen, this`continueVisible
      ensures Valid()
      ensures CheckName(old(accountInput)).Rejected? ==>
        && notice == Some(CheckName(old(accountInput)).notice)
        && unchanged(this`storedAccount, this`accountLabel, this`screen, this`continueVisible)
      ensures CheckName(old(accountInput)).Accepted? ==>
        && storedAccount == Some(Trim(old(accountInput)))
        && accountLabel == Trim(old(accountInput))
        && screen == Some(Main) && continueVisible == storedSession.Some?
        && unchanged(this`notice)
    {
      var verdict := CheckName(accountInput);
      match verdict
      case Rejected(n) =>
        notice := Some(n);
      case Accepted(name) =>
        storedAccount := Some(name);
        accountLabel := name;
        ShowScreen("main");
    }

    /** The logout button: both storage slots are emptied and the welcome screen
        is shown. The open chat and its subscription are left as they are. */
    method Logout()
      requires Valid()
      modifies this`storedAccount, this`storedSession, this`screen, this`continueVisible
      ensures Valid()
      ensures storedAccount == None && storedSession == None && screen == Some(Welcome)
      ensures unchanged(this`continueVisible)
      ensures unchanged(this`currentSession, this`subscription, this`channels)
    {
      storedAccount := None;
      storedSession := None;
      ShowScreen("welcome");
    }

    /** `createChat`: without a cached account, show the account screen and
        request nothing. Otherwise request a session row with a fresh key; if the
        insert fails, only the notice changes; if it succeeds, the new session,
        created and joined by the cached account, becomes the current and the
        cached session, and the created screen shows its account and key. */
    method CreateChat(picks: seq<nat>, outcome: InsertOutcome) returns (request: Option<NewSession>)
      requires Valid()
      requires ValidPicks(picks)
      modifies this`screen, this`continueVisible, this`notice, this`currentSession, this`storedSession,
               this`shareAccount, this`shareKey
      ensures Valid()
      ensures unchanged(this`continueVisible)
      ensures !Truthy(old(storedAccount)) ==>
        && request == None
        && screen == Some(Account)
        && unchanged(this`notice, this`currentSession, this`storedSession, this`shareAccount, this`shareKey)
      ensures Truthy(old(storedAccount)) ==>
        && request == Some(NewSession(KeyOf(picks), storedAccount.value))
        && IsKey(request.value.key)
      ensures Truthy(old(storedAccount)) && outcome == InsertFailed ==>
        && notice == Some(CreateFailed)
        && unchanged(this`screen, this`currentSession, this`storedSession, this`shareAccount, this`shareKey)
      ensures Truthy(old(storedAccount)) && outcome.Inserted? ==>
        var s := Session(outcome.id, KeyOf(picks), storedAccount.value, storedAccount);
        && IsOwnChat(s)
        && currentSession == storedSession == Some(s)
        && shareAccount == storedAccount.value && shareKey == s.key
        && screen == Some(Created)
        && unchanged(this`notice)
    {
      var account := storedAccount;
      if !Truthy(account) {
        request := None;
        ShowScreen("account");
        return;
      }
      var key := GenerateKey(picks);
      request := Some(NewSession(key, account.value));
      match outcome
      case InsertFailed =>
        notice := Some(CreateFailed);
      case Inserted(id) =>
        var s := Session(id, key, account.value, Some(account.value));
        currentSession := Some(s);
        storedSession := Some(s);
        shareAccount, shareKey := account.value, key;
        ShowScreen("created");
    }

    /** `subscribeMessages`: the previous channel, if any, is removed, and a new
        one is opened for the current session, if there is one. */
    method SubscribeMessages()
      requires ChannelsKept()
      modifies this`subscription, this`channels
      ensures ChannelsKept()
      ensures subscription == if currentSession.Some? then Some(currentSession.value.id) else None
      ensures channels == if currentSession.Some? then 1 else 0
    {
      if subscription.Some? {
        channels := channels - 1;
        subscription := None;
      }
      if currentSession.Some? {
        subscription := Some(currentSession.value.id);
        channels := channels + 1;
      }
    }

    /** `loadMessages`: without a current session, nothing is fetched; otherwise
        the current session's transcript is requested and rendered against the
        cached account. */
    method LoadMessages(loaded: FetchOutcome) returns (fetched: Option<SessionId>)
      requires ChannelsKept()
      modifies this`transcript
      ensures ChannelsKept()
      ensures currentSession.None? ==> fetched == None && unchanged(this`transcript)
      ensures currentSession.Some? ==>
        fetched == Some(currentSession.value.id) && transcript == ViewOf(loaded, storedAccount)
    {
      if currentSession.None? {
        fetched := None;
        return;
      }
      fetched := Some(currentSession.value.id);
      match loaded
      case FetchFailed =>
        transcript := LoadFailed;
      case Fetched(rows) =>
        if rows == [] {
          transcript := NoMessages;
        } else {
          var items := RenderRows(rows, storedAccount);
          assert items == ViewOf(loaded, storedAccount).items;
          transcript := Messages(items);
        }
    }

    /** `openChat(session)`: the session becomes current, the header is set, its
        transcript is loaded, the subscription is moved to it and the chat
        screen is shown. The header is the corrected one; it agrees with the
        header the page computes unless a joiner's creator is named like the
        placeholder. */
    method OpenChat(session: Session, loaded: FetchOutcome) returns (fetched: Option<SessionId>)
      requires ChannelsKept()
      modifies this`currentSession, this`header, this`transcript, this`subscription, this`channels,
               this`screen, this`continueVisible
      ensures Valid()
      ensures currentSession == Some(session) && header == Some(ChatHeader(session))
      ensures (IsOwnChat(session) || session.creatorAccount != WaitingText) ==>
        header == Some(ChatHeaderAsWritten(session))
      ensures fetched == Some(session.id) && transcript == ViewOf(loaded, storedAccount)
      ensures subscription == Some(session.id) && channels == 1
      ensures screen == Some(Chat) && unchanged(this`continueVisible)
    {
      currentSession := Some(session);
      header := Some(ChatHeader(session));
      HeadersAgreeExceptPlaceholder(session);
      fetched := LoadMessages(loaded);
      SubscribeMessages();
      ShowScreen("chat");
    }

    /** The continue-chat button: reopen the cached session, if there is one. */
    method ContinueChat(loaded: FetchOutcome) returns (fetched: Option<SessionId>)
      requires Valid()
      modifies this`currentSession, this`header, this`transcript, this`subscription, this`channels,
               this`screen, this`continueVisible
      ensures Valid()
      ensures storedSession.None? ==> fetched == None
      ensures storedSession.Some? ==> fetched == Some(storedSession.value.id)
      ensures storedSession.None? ==>
        unchanged(this`currentSession, this`header, this`transcript, this`subscription, this`channels,
                  this`screen, this`continueVisible)
      ensures storedSession.Some? ==>
        && currentSession == storedSession && header == Some(ChatHeader(storedSession.value))
        && transcript == ViewOf(loaded, storedAccount)
        && subscription == Some(storedSession.value.id) && channels == 1
        && screen == Some(Chat) && unchanged(this`continueVisible)
    {
      fetched := None;
      if storedSession.Some? {
        fetched := OpenChat(storedSession.value, loaded);
      }
    }

    /** The created screen's open button: open the current session. Without one,
        `openChat(null)` stops at its first field access and nothing changes. */
    method OpenCreatedChat(loaded: FetchOutcome) returns (fetched: Option<SessionId>)
      requires Valid()
      modifies this`currentSession, this`header, this`transcript, this`subscription, this`channels,
               this`screen, this`continueVisible
      ensures Valid()
      ensures old(currentSession).None? ==> fetched == None
      ensures old(currentSession).Some? ==> fetched == Some(old(currentSession).value.id)
      ensures old(currentSession).None? ==>
        unchanged(this`currentSession, this`header, this`transcript, this`subscription, this`channels,
                  this`screen, this`continueVisible)
      ensures old(currentSession).Some? ==>
        && currentSession == old(currentSession) && header == Some(ChatHeader(currentSession.value))
        && transcript == ViewOf(loaded, storedAccount)
        && subscription == Some(currentSession.value.id) && channels == 1
        && screen == Some(Chat) && unchanged(this`continueVisible)
    {
      fetched := None;
      if currentSession.Some? {
        fetched := OpenChat(currentSession.value, loaded);
      }
    }

    /** The join button: with an empty trimmed field, show a notice and request
        nothing. Otherwise look the session up by the trimmed creator and the
        trimmed, upper-cased key. A failed or empty lookup changes only the
        notice. A found session, joined by the cached account, becomes the
        current and the cached session, the two fields are cleared and the chat
        is opened. */
    method JoinChat(lookup: LookupOutcome, loaded: FetchOutcome)
      returns (query: Option<SessionQuery>, fetched: Option<SessionId>)
      requires Valid()
      modifies this`notice, this`storedSession, this`joinAccountInput, this`joinKeyInput,
               this`currentSession, this`header, this`transcript, this`subscription, this`channels,
               this`screen, this`continueVisible
      ensures Valid()
      ensures query == JoinQuery(old(joinAccountInput), old(joinKeyInput))
      ensures fetched == if query.Some? && lookup.Found? then Some(lookup.id) else None
      ensures query.None? || !lookup.Found? ==>
        && notice == Some(if query.None? then FillBothFields
                          else if lookup == NotFound then ChatNotFound else JoinFailed)
        && unchanged(this`storedSession, this`joinAccountInput, this`joinKeyInput,
                     this`currentSession, this`header, this`transcript, this`subscription, this`channels,
                     this`screen, this`continueVisible)
      ensures query.Some? && lookup.Found? ==>
        var s := Session(lookup.id, query.value.key, query.value.creatorAccount, storedAccount);
        && currentSession == storedSession == Some(s)
        && joinAccountInput == joinKeyInput == ""
        && header == Some(ChatHeader(s))
        && transcript == ViewOf(loaded, storedAccount)
        && subscription == Some(s.id) && channels == 1
        && screen == Some(Chat)
        && unchanged(this`notice, this`continueVisible)
    {
      query := JoinQuery(joinAccountInput, joinKeyInput);
      fetched := None;
      if query.None? {
        notice := Some(FillBothFields);
        return;
      }
      match lookup
      case LookupFailed =>
        notice := Some(JoinFailed);
      case NotFound =>
        notice := Some(ChatNotFound);
      case Found(id) =>
        var s := Session(id, query.value.key, query.value.creatorAccount, storedAccount);
        currentSession := Some(s);
        storedSession := Some(s);
        joinAccountInput, joinKeyInput := "", "";
        fetched := OpenChat(s, loaded);
    }

    /** `send`: nothing is requested when the trimmed message is empty or no chat
        is current. Otherwise the trimmed text is sent to the current session
        under the cached account; a failure shows a notice and keeps the input,
        a success clears it. */
    method Send(outcome: SendOutcome) returns (request: Option<NewMessage>)
      requires Valid()
      modifies this`notice, this`messageInput
      ensures Valid()
      ensures Trim(old(messageInput)) == [] || currentSession.None? ==>
        request == None && unchanged(this`notice, this`messageInput)
      ensures Trim(old(messageInput)) != [] && currentSession.Some? ==>
        && request == Some(NewMessage(currentSession.value.id, storedAccount, Trim(old(messageInput))))
        && (outcome == SendRejected ==> notice == Some(SendFailed) && unchanged(this`messageInput))
        && (outcome == Sent ==> messageInput == "" && unchanged(this`notice))
    {
      var text := Trim(messageInput);
      if text == [] || currentSession.None? {
        request := None;
        return;
      }
      request := Some(NewMessage(currentSession.value.id, storedAccount, text));
      if outcome == SendRejected {
        notice := Some(SendFailed);
      } else {
        messageInput := "";
      }
    }

    /** A change notification on an open channel reloads the current session's
        transcript; one on a channel that was removed is never delivered. */
    method Notify(channel: SessionId, loaded: FetchOutcome) returns (fetched: Option<SessionId>)
      requires Valid()
      modifies this`transcript
      ensures Valid()
      ensures Some(channel) != subscription ==> fetched == None && unchanged(this`transcript)
      ensures Some(channel) == subscription ==>
        && currentSession.Some?
        && fetched == Some(currentSession.value.id)
        && transcript == ViewOf(loaded, storedAccount)
    {
      if Some(channel) == subscription {
        fetched := LoadMessages(loaded);
      } else {
        fetched := None;
      }
    }
  }
}

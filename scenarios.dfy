/** Two clients driven through the handlers: alice creates a chat, bob joins it by
    typing her name and the key in lower case with spaces around it, alice sends a
    message and each client's notification renders it on its own side; bob then
    creates a chat of his own, and notifications on the old channel stop
    reaching him once that chat is opened. */
module Scenarios {
  import opened Records
  import opened Text
  import opened Keys
  import opened Forms
  import opened Views
  import opened Controller

  /** The draws that spell `ABCD2345`. */
  const AlicePicks: seq<nat> := [0, 1, 2, 3, 24, 25, 26, 27]
  /** The draws that spell `ZZZZ9999`. */
  const BobPicks: seq<nat> := [23, 23, 23, 23, 31, 31, 31, 31]

  lemma AlicePicksSpell()
    ensures ValidPicks(AlicePicks) && KeyOf(AlicePicks) == "ABCD2345"
  {
    var k := KeyOf(AlicePicks);
    forall i | 0 <= i < KeyLength ensures k[i] == "ABCD2345"[i] {
      assert k[i] == Alphabet[AlicePicks[i]];
    }
  }

  lemma BobPicksSpell()
    ensures ValidPicks(BobPicks) && KeyOf(BobPicks) == "ZZZZ9999"
  {
    var k := KeyOf(BobPicks);
    forall i | 0 <= i < KeyLength ensures k[i] == "ZZZZ9999"[i] {
      assert k[i] == Alphabet[BobPicks[i]];
    }
  }

  /** The join form's entry for the key, typed in lower case between two spaces,
      normalises to the key alice was shown. */
  lemma TypedKeyNormalises()
    ensures NormaliseKey(" abcd2345 ") == "ABCD2345"
  {
    AlicePicksSpell();
    assert " abcd2345 " == " " + "abcd2345" + " ";
    KeyEntryNormalises("ABCD2345", "abcd2345", " ", " ");
  }

  /** The lookup the join form asks for when alice's name is typed as is and the
      key in lower case between spaces. */
  lemma TypedJoinQuery()
    ensures JoinQuery("alice", " abcd2345 ") == Some(SessionQuery("ABCD2345", "alice"))
  {
    TrimOfTrimmed("alice");
    TypedKeyNormalises();
  }

  /** alice picks her name, creates a chat and opens it: she is shown the key and
      waits for a partner on the chat's channel. */
  method AliceOpensChat() returns (alice: ChatApp)
    ensures fresh(alice) && alice.Valid()
    ensures alice.storedAccount == Some("alice") && alice.shareKey == "ABCD2345"
    ensures alice.currentSession == Some(Session("s1", "ABCD2345", "alice", Some("alice")))
    ensures alice.subscription == Some("s1") && alice.header == Some(Awaiting)
  {
    AlicePicksSpell();
    alice := AliceSignsIn();
    var _ := alice.CreateChat(AlicePicks, Inserted("s1"));
    var _ := alice.OpenCreatedChat(Fetched([]));
  }

  /** A first visit: from the welcome screen, alice types her name and lands on
      the main screen with it stored. */
  method AliceSignsIn() returns (alice: ChatApp)
    ensures fresh(alice) && alice.Valid()
    ensures alice.storedAccount == Some("alice") && alice.screen == Some(Main)
  {
    TrimOfTrimmed("alice");
    AtLeastTwoUnits("alice");
    alice := new ChatApp.Init(None, None);
    alice.Start();
    alice.accountInput := "alice";
    alice.Continue();
  }

  /** bob, already named, joins alice's chat by typing entries that the join form
      turns into her name and her key. */
  method BobJoins(typedAccount: string, typedKey: string) returns (bob: ChatApp, query: Option<SessionQuery>)
    requires JoinQuery(typedAccount, typedKey) == Some(SessionQuery("ABCD2345", "alice"))
    ensures fresh(bob) && bob.Valid()
    ensures query == Some(SessionQuery("ABCD2345", "alice"))
    ensures bob.storedAccount == Some("bob")
    ensures bob.currentSession == Some(Session("s1", "ABCD2345", "alice", Some("bob")))
    ensures bob.subscription == Some("s1") && bob.header == Some(With("alice"))
  {
    bob := BobOnJoinForm();
    bob.joinAccountInput, bob.joinKeyInput := typedAccount, typedKey;
    var fetched;
    query, fetched := bob.JoinChat(Found("s1"), Fetched([]));
  }

  /** bob joins alice's chat with any entries the join form turns into her name
      and key (`TypedJoinQuery` gives one pair); alice's message then reaches both
      transcripts, classed by who reads it; bob's own new chat keeps the old
      channel live until he opens it. */
  method TwoClients(typedAccount: string, typedKey: string)
    returns (bobQuery: Option<SessionQuery>, sent: Option<NewMessage>,
             bobView: TranscriptView, aliceView: TranscriptView,
             staleFetch: Option<SessionId>, afterSwitch: Option<SessionId>)
    requires JoinQuery(typedAccount, typedKey) == Some(SessionQuery("ABCD2345", "alice"))
    ensures bobQuery == Some(SessionQuery("ABCD2345", "alice"))
    ensures sent == Some(NewMessage("s1", Some("alice"), "hi"))
    ensures bobView == Messages([RenderedMessage("hi", false, Some("alice"))])
    ensures aliceView == Messages([RenderedMessage("hi", true, None)])
    ensures staleFetch == Some("s2")
    ensures afterSwitch == None
  {
    var alice := AliceOpensChat();
    var bob;
    bob, bobQuery := BobJoins(typedAccount, typedKey);

    sent := AliceSays(alice);
    var rows := [MessageRow("m1", Some("alice"), "hi", "t1")];
    var _ := bob.Notify("s1", Fetched(rows));
    bobView := bob.transcript;
    var _ := alice.Notify("s1", Fetched(rows));
    aliceView := alice.transcript;

    staleFetch, afterSwitch := BobCreatesOwnChat(bob);
  }

  /** A return visit: bob's name is already stored, so the page opens on the
      main screen, from which he goes to the join form. */
  method BobOnJoinForm() returns (bob: ChatApp)
    ensures fresh(bob) && bob.Valid()
    ensures bob.storedAccount == Some("bob") && bob.screen == Some(Screen.Join)
  {
    bob := new ChatApp.Init(Some("bob"), None);
    bob.OpenJoinForm();
  }

  /** alice types "hi" in her open chat and the insert succeeds: the request
      carries her name and the text, and her input is cleared. */
  method AliceSays(alice: ChatApp) returns (sent: Option<NewMessage>)
    requires alice.Valid()
    requires alice.storedAccount == Some("alice")
    requires alice.currentSession.Some? && alice.currentSession.value.id == "s1"
    modifies alice`messageInput, alice`notice
    ensures alice.Valid()
    ensures sent == Some(NewMessage("s1", Some("alice"), "hi"))
    ensures alice.messageInput == ""
  {
    TrimOfTrimmed("hi");
    alice.messageInput := "hi";
    sent := alice.Send(Sent);
  }

  /** bob, chatting on channel `s1`, creates a chat of his own: until he opens it
      the old channel stays live, and a notification on it reloads the new chat's
      transcript; once it is open, the old channel delivers nothing. */
  method BobCreatesOwnChat(bob: ChatApp) returns (staleFetch: Option<SessionId>, afterSwitch: Option<SessionId>)
    requires bob.Valid()
    requires bob.storedAccount == Some("bob") && bob.subscription == Some("s1")
    modifies bob
    ensures staleFetch == Some("s2")
    ensures afterSwitch == None
    ensures bob.subscription == Some("s2") && bob.channels == 1
  {
    BobPicksSpell();
    var rows := [MessageRow("m2", Some("alice"), "still there?", "t2")];
    var _ := bob.CreateChat(BobPicks, Inserted("s2"));
    staleFetch := bob.Notify("s1", Fetched(rows));
    var _ := bob.OpenCreatedChat(Fetched([]));
    afterSwitch := bob.Notify("s1", Fetched(rows));
  }
}

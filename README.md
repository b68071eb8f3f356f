# Anonymous two-party chat client — verified model of the page controller

The client is a single page with six screens. There is no login: a visitor picks a
display name, kept in browser storage. From the main screen they either create a
chat or join one:

- **Create.** The backend stores a session row with a fresh 8-symbol key. The
  creator shares their name and the key out of band.
- **Join.** The other party types the creator's name and the key. The client looks
  the session up by both.

Each side then reads the chat's transcript and holds one live channel on it. Every
insert on that channel makes the client fetch the transcript again and render it.
Each message is classed as sent or received by comparing its sender with the
stored name.

The model covers the page controller in `app.js`. Its state is:

- the module-level current session and live subscription;
- the two storage slots (account and session);
- the active screen;
- the form inputs;
- what the screens show.

`Controller.ChatApp` holds that state as a class. Each event handler is a method of
it with field-level `modifies` clauses. Every method says what becomes of each
field it may write, and `Valid()` is kept throughout. `Valid()` says:

- one channel is open exactly while a subscription is held, so none is leaked;
- a subscription exists only once a chat is current;
- on the main screen, the "continue chat" block is shown exactly when a session is
  cached.

The backend (Supabase) is not called. Each handler receives the outcome of its call
as a parameter and returns the request it issued, or `None` when it issued none.
For the handlers that open a chat, and for a notification, that request is the
transcript fetch.
The outcomes are:

- a session insert: `Inserted(id)` or `InsertFailed`;
- a lookup: `Found(id)`, `NotFound` or `LookupFailed`;
- a message insert: `Sent` or `SendRejected`;
- a transcript fetch: `Fetched(rows)` or `FetchFailed`.

`Math.random` is replaced by eight injected indices below 32.

The modules are:

- `Records`: the values the client handles.
- `Text`: JavaScript's `trim`, `length` counted in UTF-16 code units, and `toUpperCase`.
- `Keys`: the key alphabet and `generateKey`.
- `Forms`: the name check and the join form's normalisation.
- `Views`: screen ids, the chat header, and the sent/received classing of messages.
- `Controller`: the handlers.
- `Scenarios`: two clients driven through the handlers end to end.

`Text.Trim` comes with an independent specification, `IsTrimOf`: the result is the
middle piece between two runs of white space, and it has no white space at either
end. `TrimIsTrimOf` and `TrimUnique` prove that `Trim` meets this specification and
is the only function that does. The facts about names and keys rest on this pair.

## Model

| member | source | states |
|---|---|---|
| Text.Trim | app.js:69 | `trim` never lengthens a string; what it returns is fixed by `TrimIsTrimOf` and `TrimUnique` below |
| Text.LeadingSpaceIsMaximal | app.js:69 | what `trim` cuts from the front is all white space, and the next character is not white space |
| Text.TrailingSpaceIsMaximal | app.js:69 | what `trim` cuts from the back is all white space, and the character before it is not white space |
| Text.TrimIsTrimOf | app.js:69 | `trim(s)` is a middle piece of `s` with only white space on either side, and has no white space at its ends |
| Text.TrimOfSplit | app.js:69 | white space + a piece with no white space at its ends + white space trims to that piece |
| Text.TrimUnique | app.js:69 | any piece meeting the specification of `trim` is `trim(s)`, so the specification determines the result |
| Text.TrimIdempotent | app.js:161 | trimming twice gives the same as trimming once |
| Text.TrimOfTrimmed | app.js:221 | a string with no white space at its ends is its own trim |
| Text.Utf16Length | app.js:74 | `length` counts UTF-16 code units: between one and two per character, two for a character outside the basic plane |
| Text.AtLeastTwoUnits | app.js:74 | `length >= 2` holds exactly for two or more characters, or for one character outside the basic plane |
| Text.ToUpper | app.js:162 | upper-casing keeps the length and maps each character through the ASCII case table |
| Text.ToUpperKeepsTrim | app.js:162 | upper-casing a trimmed string leaves it trimmed, and a second upper-casing changes nothing |
| Keys.AlphabetHalves | app.js:145 | the alphabet is 24 ascending letters A–Z followed by the ascending digits 2–9, 32 symbols in all |
| Keys.AlphabetDistinct | app.js:145 | the 32 symbols are pairwise distinct |
| Keys.AlphabetSymbols | app.js:145 | every symbol is an upper-case letter or a digit 2–9, and none is `0`, `O`, `1` or `I` |
| Keys.EachSymbolHasOneIndex | app.js:145-147 | each symbol is drawn by exactly one index, so uniform draws give every symbol the same chance |
| Keys.KeyOf | app.js:144-149 | the key that eight draws spell has exactly 8 symbols, all from the alphabet |
| Keys.GenerateKey | app.js:144-149 | the loop appends one symbol per draw: the result is a well-formed key whose i-th symbol is `Alphabet[picks[i]]` |
| Keys.SymbolIsUpperAndVisible | app.js:145 | every key symbol is its own upper case and is not white space |
| Keys.KeyEntryNormalises | app.js:162 | a key typed in any letter case with white space around it comes back unchanged from trim then upper-case |
| Forms.CheckName | app.js:69-77 | a name is accepted exactly when its trimmed length is at least 2 code units, and stored trimmed; an empty trim gives the "enter a name" notice and any other rejection the "too short" notice |
| Forms.AcceptedNameShape | app.js:69-77 | an accepted name has at least two characters, or one outside the basic plane, and no white space at either end |
| Forms.AcceptedNameIsStable | app.js:69-78 | re-entering a stored name is accepted and stores the same name |
| Forms.NormaliseKey | app.js:162 | the normalised key, upper-cased over ASCII only, is as long as the trimmed entry and has no lower-case ASCII letter |
| Forms.NormaliseKeyIdempotent | app.js:162 | a normalised key is trimmed, and normalising it again changes nothing |
| Forms.JoinQuery | app.js:161-167 | no lookup exactly when either trimmed field is empty; otherwise the lookup uses the trimmed account and the normalised key |
| Views.ScreenOf | app.js:38-41 | an id activates a screen only when it is that screen's id |
| Views.ScreenIdRoundTrip | app.js:38-41 | every screen is found by its own id, and an id names a screen exactly when it equals that screen's id |
| Views.ChatHeaderAsWritten | app.js:205-207 | the header as written: a partner not named like the placeholder is shown by name |
| Views.PlaceholderCreatorReadsAsWaiting | app.js:205-207 | a joiner whose creator is named like the placeholder is shown the waiting header |
| Views.ChatHeader | app.js:205-207 | the header reads "waiting" exactly when the local account created the chat, and otherwise names the creator |
| Views.HeadersAgreeExceptPlaceholder | app.js:205-207 | the written header and the corrected one differ exactly for a joiner whose creator is named like the placeholder |
| Views.Classify | app.js:269-271 | a message is sent exactly when its sender equals the stored account (two nulls are equal); only a received message carries a sender label |
| Views.RenderRows | app.js:270-272 | the loop renders one entry per row, in order, each classed by `Classify` |
| Views.ViewOf | app.js:256-272 | the list shows the error notice exactly for a failed fetch and the no-messages notice exactly for an empty one; otherwise it lists every row in order, with its content, classed as sent exactly when its sender equals the stored account |
| Controller.ChatApp.Init | app.js:28-34 | starts on the main screen when an account is stored, otherwise on the welcome screen; the account form is prefilled; no chat and no channel |
| Controller.ChatApp.ShowScreen | app.js:38-46 | exactly the named screen becomes active, or none; on `main` the continue block is shown exactly when a session is stored |
| Controller.ChatApp.Back | app.js:48-55 | a back button with a non-empty target shows it; one without changes nothing |
| Controller.ChatApp.Start | app.js:58-60 | the start button shows the account screen |
| Controller.ChatApp.OpenJoinForm | app.js:93 | the join button shows the join screen |
| Controller.ChatApp.Continue | app.js:68-81 | a rejected name only sets the notice, leaving storage and screen unchanged; an accepted one stores exactly the trimmed name and shows `main` |
| Controller.ChatApp.Logout | app.js:86-90 | both storage slots are emptied and the welcome screen shown; the current chat and its channel are untouched |
| Controller.ChatApp.CreateChat | app.js:108-142 | no stored account: the account screen, and nothing requested or written. A failed insert writes only the notice. On success, storage and the current chat hold the new session, created and joined by the stored account, and the created screen shows its account and key |
| Controller.ChatApp.SubscribeMessages | app.js:288-307 | the previous channel is removed; afterwards exactly one channel is open, on the current chat, or none without one |
| Controller.ChatApp.LoadMessages | app.js:247-275 | without a current chat nothing is fetched; otherwise the current chat's transcript is fetched and shown as `ViewOf` |
| Controller.ChatApp.OpenChat | app.js:203-214 | the session becomes current, its header is set (the page's header whenever the creator is not named like the placeholder), its transcript is fetched and shown, its channel alone is open, and the chat screen is active |
| Controller.ChatApp.ContinueChat | app.js:97-103 | reopens the stored session, fetching its transcript, if there is one, and otherwise fetches nothing and changes nothing |
| Controller.ChatApp.OpenCreatedChat | app.js:153-155 | opens the current chat, fetching its transcript, if there is one, and otherwise fetches nothing and changes nothing |
| Controller.ChatApp.JoinChat | app.js:160-199 | the lookup is `JoinQuery` of the typed fields. An empty field, a missing session or a failed lookup changes only the notice. A found session `{id, normalised key, typed creator, stored account}` becomes current and stored, both fields are cleared, and the chat is opened, fetching its transcript |
| Controller.ChatApp.Send | app.js:220-236 | no insert for an empty trimmed text or without a current chat; otherwise the trimmed text is sent under the stored account to the current chat; a failed insert keeps the input, a successful one clears it |
| Controller.ChatApp.Notify | app.js:296-306 | a notification on the open channel fetches the current chat's transcript again; one on a removed channel is not delivered and changes nothing |
| Scenarios.AlicePicksSpell | app.js:144-149 | the draws 0,1,2,3,24,25,26,27 spell `ABCD2345` |
| Scenarios.BobPicksSpell | app.js:144-149 | the draws 23×4, 31×4 spell `ZZZZ9999` |
| Scenarios.TypedKeyNormalises | app.js:162 | ` abcd2345 ` normalises to `ABCD2345` |
| Scenarios.TypedJoinQuery | app.js:161-167 | the entries `alice` and ` abcd2345 ` ask for the session with key `ABCD2345` created by `alice` |
| Scenarios.AliceSignsIn | app.js:58-81 | a first visit: from the welcome screen, a typed name is stored and the main screen shown |
| Scenarios.AliceOpensChat | app.js:108-155 | creating and opening a chat leaves the creator waiting on its channel, holding its key |
| Scenarios.BobOnJoinForm | app.js:28-34 | a return visit with a stored name opens on the main screen and reaches the join form |
| Scenarios.BobJoins | app.js:160-199 | entries that normalise to the creator's name and key join that chat: the header names the creator and the joiner's channel is on it |
| Scenarios.AliceSays | app.js:220-236 | a sent message carries the sender's name and the text, and the input is cleared |
| Scenarios.TwoClients | app.js:247-306 | a message from the creator is shown as sent on her side and as received from her on the joiner's side |
| Scenarios.BobCreatesOwnChat | app.js:108-142 | creating a chat does not move the channel: a notification on the old channel reloads the new chat's transcript until the new chat is opened, and after that the old channel delivers nothing |

## Left out

- The Supabase calls themselves are not modelled: the query engine, realtime delivery and the transcript's ordering (app.js:254). Each call's outcome is a parameter, and the rows arrive in the backend's order.
- `escapeHtml` (app.js:314-318) is left out: it relies on the browser's own HTML serialisation. Message text is modelled as plain content.
- The time label of a message (app.js:280) is left out: it is locale date formatting.
- Browser side effects are left out: toast wording and timers (app.js:321-332), the clipboard buttons (app.js:128-135), focus and scrolling (app.js:213, 309-312), and event binding. A toast is modelled only as which notice was shown.
- `JSON.parse` and `JSON.stringify` of the cached session (app.js:100, 123, 190) are left out: the stored session is a value.
- Async interleavings are left out. Each handler runs to completion with its call's outcome already known. Overlapping sends or fetches, and the await in `loadMessages` between reading the current chat and rendering, are not modelled.
- The configuration check and client creation in `init` (app.js:13-18) are left out: they are environment plumbing.
- Text.ToUpper: only ASCII letters are upper-cased, not the full Unicode case mapping of `toUpperCase`. Some non-ASCII letters upper-case to ASCII (`ſ` to `S`) or to longer text (`ß` to `SS`), so on such entries the page can look up a different key than the model does.
- Forms.NormaliseKey: inherits the ASCII-only upper-casing. For entries with such letters the page's key differs, and its length can differ from the trimmed entry's.
- Forms.JoinQuery: for the same entries, the model's lookup key differs from the page's.
- Controller.ChatApp.Init: the continue block's visibility before the main screen is first shown is taken as hidden; in the page it is whatever the HTML declares.
- Open realtime channels are modelled as a count plus the handle of the subscribed chat, not as backend objects.
- Logout (app.js:86-90) neither tears down the live channel nor clears the current chat. `Controller.ChatApp.Logout` states that both are unchanged. After logout the channel stays open, and a notification on it reloads the still-current chat (`Controller.ChatApp.Notify`).
- The client-side `created_at` timestamps of the session and message inserts (app.js:117, 228) are not modelled: they read the clock. The backend orders the transcript by the message timestamp, and that order is taken as given.
- Controller.ChatApp.OpenChat: shows the corrected header `Views.ChatHeader`, not the page's (see Findings). For a joiner whose creator is named `Ожидание...` the page shows the waiting header and the model names the creator. In every other case the two agree, and `OpenChat` states that agreement.
- Controller.ChatApp.ContinueChat: shows the corrected header, through `OpenChat`, with the same difference.
- Controller.ChatApp.OpenCreatedChat: shows the corrected header, through `OpenChat`, with the same difference.
- Controller.ChatApp.JoinChat: shows the corrected header, through `OpenChat`. A joined chat whose creator is named `Ожидание...` therefore names that creator, where the page shows the waiting header.
- Creating a chat (app.js:122) switches the current chat without resubscribing. `Scenarios.BobCreatesOwnChat` shows the old channel staying live until the new chat is opened.

## Findings

| source | as written | input that shows it | evidently intended | confidence | as-written member | corrected member |
|---|---|---|---|---|---|---|
| app.js:205-207 | the header decides "waiting" by comparing the partner's name with the placeholder text `Ожидание...` | a joiner of a chat whose creator chose the name `Ожидание...`: the joiner sees the waiting header and no partner name | "waiting" exactly when the local account created the chat | medium, not executed | Views.ChatHeaderAsWritten, Views.PlaceholderCreatorReadsAsWaiting | Views.ChatHeader |

# A verified model of the BDI chat client's session and connection logic

This project models, in Dafny, the logic of a browser chat client and of the
small server that tells it where its backend is.

The client is a single-page chat front end. It keeps a list of *projects*,
each a topic with example questions, and a history of *chats*. Both are held
in memory and mirrored in local storage. It talks to a backend over one
WebSocket, reconnecting with exponential back-off. The modelled parts are:

- **The session store** (`store.dfy`, over the values of `session.dfy`). It
  holds the project list, the chat history, the current chat id and current
  project, and what local storage holds. The page's handlers are methods of
  `Store.SessionStore`. Each one is proved against a pure function on the
  history (`WithMessage`, `Retitle`, `ReplayTitles`, `Without`, `Upsert`,
  `WithoutProject`). The lemmas of `session.dfy` prove what those functions
  promise.
- **The connection controller** (`connection.dfy`). It holds the socket's
  ready state, the failure count, the pending reconnection timers, the
  manual-disconnect flag, the "request pending" flag and the messages sent or
  waiting for their one-second retry. The browser's part (a socket opening,
  closing, a timer firing) is a method the environment calls.
- **The `onmessage` dispatch and `sendMessage`** (`client.dfy`). A parsed
  frame is a `Frame`, and `React` is the `switch` over it. `Received` gives
  the effect of one message on the history and on the pending flag,
  including the `catch` path that re-handles the raw text.
- **The pure helpers**:
  - `getTitle` (`titles.dfy`), with the JavaScript string primitives it
    uses (`text.dfy`);
  - `escapeHtml` (`html.dfy`);
  - the keyword-to-icon classifier of the project form (`icons.dfy`);
  - the send-button predicate and `findProject`.
- **The frontend server's `/config` answer** (`frontend_server.dfy`): it
  chooses the public or the configured backend addresses by the Host header,
  and gives the WebSocket URL a `ws://`/`wss://` scheme.

JavaScript's `TypeError` on `currentProject.id` when no project is current
is part of the model. A handler that can hit it returns `ok == false`, and
the changes it made before the throw are kept. Whether the throw comes
before or after the change matters:
- `saveChatMessage` fails before creating a chat, but after appending to an
  existing one;
- `updateChatHistoryTitle` fails after retitling.
In `onmessage` such a throw lands in the `catch`, which handles the raw frame
text as a plain reply.

Two behaviours of the code are kept as written:
- **`loadChat` replays into the wrong chat.** It replays the loaded messages
  through `displayBotMessage` before it sets `currentChatId`. So every
  assistant message retitles the chat that was current *before* the load, and
  the loaded chat keeps its title. `ReplayTitles` with `ReplayIsLastRetitle`
  and `ReplayKeepsOtherChats` states this, and `LoadChat` is proved against
  it.
- **A chat can be retitled until it holds three messages.**
  `updateChatHistoryTitle` retitles while the chat holds at most two
  messages. It runs from `displayBotMessage`, before the reply is saved. In
  the usual exchange (question, reply, question, reply) only the first reply
  retitles, because at the second reply the chat already holds three
  messages. A second reply still retitles when the first question got no
  stored reply, for instance after an error frame. From the third stored
  message on the title is fixed (`TitlesSettled`).

## Model

| member | source | states |
|---|---|---|
| Text.Trim | frontend/static/js/main.js:1367-1371 | `trim`: the result is a slice of the input with only white space before and after it; it is empty exactly when the input is all white space, and otherwise starts and ends with a non-space; only a tail of white space is cut when the input does not start with white space |
| Text.TrimStartShape | frontend/static/js/main.js:1367 | leading trim removes a prefix made only of white space, and the rest does not start with white space |
| Text.TrimEndShape | frontend/static/js/main.js:1367 | trailing trim removes a suffix made only of white space, and the rest does not end with white space |
| Text.Take | frontend/static/js/main.js:1370 | `substring(0, n)` is the prefix of length `min(n, length)` |
| Text.IndexOfFrom | frontend/static/js/main.js:1367 | the first-occurrence search the lazy reasoning-section pattern performs: the first occurrence at or after `from`, and none when there is none |
| Text.ContainsIff | frontend/static/js/main.js:537 | `includes` holds exactly when the pattern occurs somewhere |
| Titles.StripReasoning | frontend/static/js/main.js:1367 | removing the first reasoning section never lengthens the text and leaves text without a start marker as it is |
| Titles.StripRemovesFirstSpan | frontend/static/js/main.js:1367 | the lazy pattern cuts from the first start marker through the first end marker after it, and nothing else |
| Titles.StripKeepsUnclosedSection | frontend/static/js/main.js:1367 | with no end marker after the first start marker, nothing is removed |
| Titles.TrimmedTake | frontend/static/js/main.js:1370 | the first 20 characters of trimmed text, trimmed again, are a prefix of it of at most 20 characters, and empty only for empty text; only white space of those 20 characters is dropped after it |
| Titles.TitleShape | frontend/static/js/main.js:1365-1372 | `getTitle` answers `新对话` exactly when the cleaned content is blank; otherwise it is a non-blank prefix of the cleaned content of at most 20 characters plus `...` (4 to 23 characters), and only white space of the first 20 cleaned characters follows that prefix, so it is exactly those characters trimmed |
| Titles.GetTitle | frontend/static/js/main.js:1365-1372 | `getTitle` itself; it has no ensures of its own, because its contract is `Titles.TitleShape` |
| Html.ReplaceAll | frontend/static/js/main.js:1840-1845 | a global replacement whose replacement lacks the character leaves none of it |
| Html.ReplaceAllAppend | frontend/static/js/main.js:1840-1845 | a global replacement works character by character: it distributes over concatenation |
| Html.ReplaceAllAbsent | frontend/static/js/main.js:1840-1845 | replacing a character that does not occur changes nothing |
| Html.ReplaceAllKeepsAbsent | frontend/static/js/main.js:1840-1845 | a character absent from the text and from the replacement stays absent |
| Html.EscapeHtml | frontend/static/js/main.js:1839-1846 | the escaped text holds none of `<`, `>`, `"`, `'` |
| Html.PassesRemoveSpecials | frontend/static/js/main.js:1840-1845 | the remaining passes remove every special character after `&`, since no entity holds a later pass's character |
| Html.EntityHasNoLaterSpecial | frontend/static/js/main.js:1840-1845 | an entity written by one pass holds no character that a later pass replaces |
| Html.PassesKeepAbsent | frontend/static/js/main.js:1840-1845 | the passes leave text that holds none of their characters unchanged |
| Html.EscapeHtmlKeepsPlainText | frontend/static/js/main.js:1839-1846 | text without any of `& < > " '` is returned unchanged |
| Html.PassesAppend | frontend/static/js/main.js:1840-1845 | the five passes distribute over concatenation |
| Html.PassesOneChar | frontend/static/js/main.js:1840-1845 | on one character the passes write that character's entity, or keep it |
| Html.EntityIsEscape | frontend/static/js/main.js:1840-1845 | the entity table agrees with the per-character map |
| Html.EscapeHtmlIsPerCharacter | frontend/static/js/main.js:1839-1846 | with `&` replaced first, the five passes equal one left-to-right per-character entity map |
| Icons.FirstMatch | frontend/static/js/main.js:537-555 | the `if`/`else if` chain: the first group with a matching keyword, and none only when no group matches |
| Icons.ToLower | frontend/static/js/main.js:533 | `toLowerCase` on ASCII: the length is kept, no upper-case ASCII letter is left, each becomes its lower-case letter, and every other character stays in place |
| Icons.ExampleIcon | frontend/static/js/main.js:533-555 | the icon is `bi-chat` exactly when no group matches the lowered text; otherwise it is the icon of the first matching group |
| Icons.LowerKeepsOccurrences | frontend/static/js/main.js:533-537 | a keyword without ASCII letters occurs in the lowered text exactly where it occurs in the text |
| Icons.LowerKeepsContains | frontend/static/js/main.js:533-537 | lowering cannot change whether such a keyword is contained |
| Icons.KeywordsHaveNoAsciiLetters | frontend/static/js/main.js:537-553 | every keyword of every group is free of ASCII letters |
| Icons.SameMatches | frontend/static/js/main.js:537-555 | texts that match the same groups get the same first group |
| Icons.ExampleIconIgnoresCase | frontend/static/js/main.js:533-555 | the lower-casing is immaterial: the original text selects the same icon |
| Session.IndexOf | frontend/static/js/main.js:1338 | `findIndex` by id: the first position holding the id, or -1 exactly when none does |
| Session.FindChat | frontend/static/js/main.js:1454 | `chatHistory.find` by id; its contract is `Session.IndexOf` with the look-up lemmas `FindAfterUpdate`, `FindAfterAppend` and `FindChatCons` |
| Session.FindProject | frontend/static/js/main.js:448-450 | `findProject`; its contract is `Session.FindProjectIsFirst` |
| Session.IndexOfIsFirst | frontend/static/js/main.js:1338 | the first position holding an id is the one `findIndex` answers |
| Session.IndexOfAppend | frontend/static/js/main.js:1342 | appending keeps the position of every id already present; a new id is found at the end |
| Session.FindProjectIsFirst | frontend/static/js/main.js:448-450 | `findProject` answers the first project with the id, and nothing exactly when no project has it |
| Session.WithMessage | frontend/static/js/main.js:1336-1351 | saving a message grows the history by at most one chat |
| Session.SameIdsAfterUpdate | frontend/static/js/main.js:1350 | updating a chat in place keeps every id |
| Session.FindAfterUpdate | frontend/static/js/main.js:1350 | after an in-place update, the updated chat is found under its id and every other look-up is unchanged |
| Session.FindAfterAppend | frontend/static/js/main.js:1342 | after a new chat is appended, it is found under its id and every other look-up is unchanged |
| Session.WithMessageAppends | frontend/static/js/main.js:1336-1351 | the message is appended to the chat with the current id and only there; a missing chat is created at the end with the project's id, a title from `getTitle`, just that message and the time |
| Session.WithMessageKeepsUnique | frontend/static/js/main.js:1338-1351 | saving keeps chat ids unique |
| Session.Retitle | frontend/static/js/main.js:1375-1383 | retitling keeps the length and changes nothing unless the chat exists with at most two messages |
| Session.RetitleChangesOnlyTitle | frontend/static/js/main.js:1378-1382 | retitling changes only the title of the chat with that id, only when it has at most two messages, and sets it to `getTitle` of the message |
| Session.RetitleKeepsTranscripts | frontend/static/js/main.js:1378-1382 | retitling keeps every chat's messages |
| Session.RetitleTwice | frontend/static/js/main.js:1378-1382 | of two retitles only the last counts |
| Session.WithMessageKeepsSettledTitles | frontend/static/js/main.js:1336-1351 | saving a message never changes the title of a chat that holds more than two messages |
| Session.RetitleKeepsSettledTitles | frontend/static/js/main.js:1375-1383 | once a chat holds more than two messages, retitling never changes its title again |
| Session.ReplayTitles | frontend/static/js/main.js:1467-1473 | the replay loop of `loadChat` on the history; its contract is `Session.ReplayStep`, `Session.ReplayIsLastRetitle` and `Session.ReplayKeepsOtherChats` |
| Session.ReplayStep | frontend/static/js/main.js:1467-1473 | replaying one more message: an assistant message retitles the current chat, a user message does nothing |
| Session.LastReply | frontend/static/js/main.js:1467-1473 | the last assistant message, and none exactly when there is none |
| Session.FirstReply | frontend/static/js/main.js:1467-1473 | the first assistant message, and none exactly when there is none |
| Session.FirstReplyAt | frontend/static/js/main.js:1467-1473 | an assistant message with no assistant message before it is the first reply |
| Session.ReplayIsLastRetitle | frontend/static/js/main.js:1467-1476 | replaying a conversation leaves the title its last assistant message gives to the chat current during the replay, and no other trace |
| Session.ReplayKeepsOtherChats | frontend/static/js/main.js:1467-1476 | the replay leaves every other chat as it was, the loaded chat included |
| Session.Without | frontend/static/js/main.js:1818 | `filter` never lengthens the history |
| Session.WithoutMembers | frontend/static/js/main.js:1818 | the survivors of a filter are exactly the chats it does not match |
| Session.WithoutAppend | frontend/static/js/main.js:1818 | filtering keeps the survivors in their order |
| Session.FindChatCons | frontend/static/js/main.js:1811 | `find` on a history looks at its first chat, then at the rest |
| Session.WithoutChatKeepsOthers | frontend/static/js/main.js:1818 | deleting a chat leaves every other chat where a look-up finds it |
| Session.WithoutChatRemovesIt | frontend/static/js/main.js:1818 | after deleting a chat, no chat with its id remains |
| Session.WithoutKeepsUnique | frontend/static/js/main.js:1818 | deletion keeps chat ids unique |
| Session.Upsert | frontend/static/js/main.js:564-582 | the upsert keeps the length or adds one project |
| Session.UpsertThenFind | frontend/static/js/main.js:564-582 | after a save the project is found under its id with the form's fields, its example icons derived and its knowledge files kept; every other look-up is unchanged; a new id is appended with no knowledge files |
| Session.UpsertInPlace | frontend/static/js/main.js:564-582 | an existing id is replaced at its own index, keeping its knowledge files, with every other index and the length unchanged; a new id is appended with no knowledge files |
| Session.UpsertIdempotent | frontend/static/js/main.js:564-582 | saving the same form twice equals saving it once |
| Session.FormExamplesClassified | frontend/static/js/main.js:531-561 | each saved example keeps its text and gets the icon the classifier picks for it |
| Session.WithoutProject | frontend/static/js/main.js:608-621 | removing a missing id changes nothing; otherwise exactly one project goes |
| Session.WithoutProjectSplices | frontend/static/js/main.js:612-615 | deleting a present id splices out the first project holding it: those before it keep their places and those after it move down by one, so the survivors keep their order |
| Session.SpliceShape | frontend/static/js/main.js:614 | `splice(i, 1)` keeps every entry before `i` in place and moves every entry after it down by one |
| Session.FirstIndexOf | frontend/static/js/main.js:612 | the position `findIndex` answers for a present id holds it, and no earlier position does |
| Store.SaveOutcome | frontend/static/js/main.js:1336-1362 | `saveChatMessage` as a value, including where the missing current project throws; `Client.SaveWithProject` states it with a project and `Client.ReplyWithoutProject` without one |
| Store.RetitleOutcome | frontend/static/js/main.js:1375-1393 | `updateChatHistoryTitle` as a value; `Session.RetitleChangesOnlyTitle` states the history it gives |
| Session.IndexOfSplice | frontend/static/js/main.js:614 | splicing out another id's position moves a later first occurrence down by one |
| Session.FindProjectSplice | frontend/static/js/main.js:614 | splicing out a project with another id leaves that look-up |
| Session.WithoutProjectKeepsOthers | frontend/static/js/main.js:608-621 | deleting a project leaves every other project where `findProject` finds it |
| Store.SessionStore.constructor | frontend/static/js/main.js:155-192 | start-up: the stored projects or the defaults, which are then stored; the stored history or none; a fresh chat id; `hot-news` current if it exists |
| Store.SessionStore.DisplayProjectContent | frontend/static/js/main.js:417-421 | an existing project becomes current; nothing else changes |
| Store.SessionStore.StartNewChat | frontend/static/js/main.js:643-663 | the project is shown and a fresh chat id is taken; history and storage unchanged |
| Store.SessionStore.SaveChatMessage | frontend/static/js/main.js:1336-1362 | the history becomes `WithMessage` of the old one, and storage follows; without a current project creating fails with nothing changed and appending fails after the change |
| Store.SessionStore.UpdateChatHistoryTitle | frontend/static/js/main.js:1375-1393 | the history becomes `Retitle` of the old one, and storage follows; it fails only when it retitled without a current project |
| Store.SessionStore.LoadChat | frontend/static/js/main.js:1447-1496 | loading the current or an empty or unknown chat changes nothing; otherwise the history becomes the replay against the previous chat, the loaded id becomes current and its project too if it exists; without a current project the first replayed reply fails the load after retitling |
| Store.SessionStore.DeleteChat | frontend/static/js/main.js:1809-1836 | every chat with that id is removed and storage follows; deleting the current chat starts a new one in the current project |
| Store.SessionStore.ClearChatHistory | frontend/static/js/main.js:1056-1070 | the history is empty and its storage entry gone; a new chat starts when a project is current |
| Store.SessionStore.SaveProjectConfig | frontend/static/js/main.js:564-597 | the project list becomes the upsert and is stored; if the saved project is current, the saved version becomes current |
| Store.SessionStore.DeleteProject | frontend/static/js/main.js:608-640 | the first project with the id and every chat of that project are removed and stored; if it was current, the first remaining project becomes current |
| Connection.BackoffDelayExact | frontend/static/js/main.js:952 | for attempts 0 to 4 the delay is exactly `2000 * 1.5^n`: 2000, 3000, 4500, 6750, 10125 ms |
| Connection.BackoffGrowsByHalf | frontend/static/js/main.js:952 | each delay is one and a half times the one before |
| Connection.BackoffDelay | frontend/static/js/main.js:952 | `RECONNECT_DELAY * 1.5^attempts` in integers; its contract is `Connection.BackoffDelayExact` |
| Connection.ReconnectPlan | frontend/static/js/main.js:951-972 | an unforced close schedules a reconnection exactly while fewer than 5 attempts are used, and its delay is one of the five listed |
| Connection.PlanIsListed | frontend/static/js/main.js:951-972 | the delay after `n` failures is the `n`-th of the table, and nothing from the fifth on |
| Connection.CloseRun | frontend/static/js/main.js:951-963 | the delays scheduled by consecutive closes; its contract is `Connection.CloseRunIsBackoff` |
| Connection.CloseRunFollows | frontend/static/js/main.js:951-963 | consecutive closes schedule the delays of the table from the current attempt up to the fifth |
| Connection.CloseRunIsBackoff | frontend/static/js/main.js:951-972 | consecutive unforced closes schedule 2000, 3000, 4500, 6750 and 10125 ms, then nothing |
| Connection.Connection.constructor | frontend/static/js/main.js:48-55 | no socket, no failures, no timer, no manual disconnect, nothing pending |
| Connection.Connection.Connect | frontend/static/js/main.js:798-840 | nothing after a manual disconnect; otherwise the pending timer is cancelled and a new socket opens unless one is open or opening |
| Connection.Connection.OnOpen | frontend/static/js/main.js:842-844 | the failure count returns to 0; nothing else changes |
| Connection.Connection.OnClose | frontend/static/js/main.js:939-976 | after a manual disconnect nothing; otherwise a timer with the back-off delay is scheduled and the count rises while attempts remain, and once they are used up a pending request is abandoned |
| Connection.Connection.OnError | frontend/static/js/main.js:978-992 | a pending request is abandoned; nothing else changes |
| Connection.Connection.FireTimer | frontend/static/js/main.js:962 | a reconnection timer fires: it is gone, and `connectWebSocket` runs; after a manual disconnect nothing else changes, and no timer handle is taken in either case |
| Connection.Connection.Cleanup | frontend/static/js/main.js:1647-1665 | manual disconnect: the flag is set, the pending timer cancelled and a live socket starts closing |
| Connection.Connection.Advance | frontend/static/js/main.js:840 | the browser moves the socket along its ready states |
| Connection.Connection.Transmit | frontend/static/js/main.js:1090-1128 | the manual-disconnect flag is cleared; an open socket takes the message and the request is pending, otherwise a connection starts and the message waits for the retry |
| Connection.Connection.FireRetry | frontend/static/js/main.js:1107-1127 | the retry sends the oldest waiting message if the socket is open by now, and abandons the request otherwise |
| Client.React | frontend/static/js/main.js:864-918 | the `switch`: an error settles; a result with string content is final; an unknown type with string content other than `处理中...` is a reply; missing content on those and unparsable data throw; everything else only changes the page |
| Client.ReplyOutcome | frontend/static/js/main.js:1155-1196 | `displayBotMessage` then saving, as a value; its contract is `Client.ReplyWithProject` and `Client.ReplyWithoutProject` |
| Client.Fallback | frontend/static/js/main.js:919-936 | the `catch` of `onmessage` as a value; its contract is `Client.FallbackWithoutProject` and `Client.FallbackKeepsSettledTitles` |
| Client.Received | frontend/static/js/main.js:858-937 | `onmessage` as a value; its contract is `Client.ReceivedWithProject`, `Client.ReceivedWithoutProject`, `Client.NothingSavedKeepsHistory` and `Client.ReceivedKeepsSettledTitles` |
| Client.ReceivedWithProject | frontend/static/js/main.js:858-937 | with a current project, a frame appends at most one assistant message, to the current chat only (a result's or reply's content, or the raw text of a frame that throws, unless it is `处理中...`), and the request ends exactly when something is saved or an error comes in; a frame that saves nothing leaves the history exactly as it was |
| Client.NothingSavedKeepsHistory | frontend/static/js/main.js:864-918 | with or without a current project, a processing, reasoning, error or `处理中...` frame leaves the history exactly as it was, and only the error frame ends the request |
| Client.SaveWithProject | frontend/static/js/main.js:1336-1351 | with a current project, saving an assistant message gets through, appends it and leaves every other chat |
| Client.ReplyWithProject | frontend/static/js/main.js:1155-1196 | with a current project, a plain reply gets through, appends it and leaves every other chat |
| Client.ReceivedWithoutProject | frontend/static/js/main.js:858-937 | without a current project only an error frame ends the pending request |
| Client.ReplyWithoutProject | frontend/static/js/main.js:1155-1196 | without a current project a plain reply never gets through |
| Client.FallbackWithoutProject | frontend/static/js/main.js:919-936 | without a current project the `catch` never gets through |
| Client.ResultKeepsTitle | frontend/static/js/main.js:882-891 | a final result never retitles an existing chat |
| Client.TitlesSettledTrans | frontend/static/js/main.js:1378 | settled titles stay settled over several steps |
| Client.ReplyKeepsSettledTitles | frontend/static/js/main.js:1155-1196 | a plain reply keeps every settled title |
| Client.SaveKeepsSettledTitles | frontend/static/js/main.js:1336-1351 | saving keeps every settled title |
| Client.FallbackKeepsSettledTitles | frontend/static/js/main.js:919-936 | the `catch` keeps every settled title |
| Client.ReceivedKeepsSettledTitles | frontend/static/js/main.js:858-937 | no incoming message changes the title of a chat that holds more than two messages |
| Client.SendDisabled | frontend/static/js/main.js:1784-1794 | the send button is disabled exactly when the input is all white space or a request is pending |
| Client.ReceiveText | frontend/static/js/main.js:1155-1196 | `displayBotMessage` then saving: the history and result are those of `ReplyOutcome`, and the request ends when both get through |
| Client.Recover | frontend/static/js/main.js:919-936 | the `catch`: the raw text is handled as a reply unless it is `处理中...` |
| Client.OnMessage | frontend/static/js/main.js:858-937 | the history and the pending flag become those `Received` gives; projects, ids, socket and timers are unchanged |
| Client.SendMessage | frontend/static/js/main.js:1073-1135 | nothing at all changes while the button is disabled, and the connection is untouched when the save fails; otherwise the trimmed input is saved and sent at once on an open socket (the request is pending, socket and timers kept), or queued for the retry behind a new connection (pending timer cancelled, socket opening unless live); attempts and timer handles never change |
| FrontendServer.RemoveProtocol | frontend/frontend_server/frontend_server.py:73-74 | one leading `https://` or `http://` is removed; any other string is kept |
| FrontendServer.RemoveProtocolStripsOnce | frontend/frontend_server/frontend_server.py:73-74 | only one scheme is removed; the rest is kept as it is |
| FrontendServer.IsExternalAccess | frontend/frontend_server/frontend_server.py:77-80 | external exactly when the Host header contains `mdi.hkust-gz.edu.cn`; a missing header is internal |
| FrontendServer.GetConfig | frontend/frontend_server/frontend_server.py:84-119 | the public addresses exactly for external access and the configured ones otherwise; the WebSocket URL always has a `ws://` or `wss://` scheme, is kept when it has one, and otherwise gets `wss://` (external) or `ws://` (internal) after any `http(s)://` is removed |
| FrontendServer.ExternalConfigIsFixed | frontend/frontend_server/frontend_server.py:89-119 | from outside, the answer is the public pair whatever the configuration |
| FrontendServer.InternalDefaultConfig | frontend/frontend_server/frontend_server.py:11-44 | from inside, with the default settings, both defaults are passed on unchanged |

## Left out

- Rendering, styling, modals, the typing indicator, status banners and the reasoning sidebar are not modelled. They change only the page. `displayBotFinalResult` and the error display are reduced to whether they throw.
- `formatMessage` is not modelled, because it is an opaque Markdown-to-HTML routine. Only its failure on content that is not a string is kept. That failure, and `.match` on such content, is modelled as a throw.
- Local storage and `JSON.parse`/`stringify` are not modelled. Storage is a copy of the in-memory lists, and `None` stands for an entry that is absent. Unparseable stored projects are replaced by the defaults, as in the code. Unparseable stored history is modelled as absent. The code also starts from an empty history in that case, but it leaves the bad entry in storage.
- `loadServerConfig`, `checkServerVersion` and the rest of `fetch` are not modelled. Neither are the WebSocket URL chosen from the page's host (main.js lines 799-810) and the socket object itself. The socket is reduced to its ready state, which the environment advances.
- `generateId`, `Date` and `setTimeout` timing are parameters. Fresh ids and the current time are passed in. A timer is a pending entry that the environment fires.
- Connection.Connection.OnClose: which socket instance fires an event is not tracked. Every event is taken to come from the current socket.
- `Math.pow(1.5, n)` and `Math.round(delay / 1000)` are floating point and are not modelled. They are replaced by the exact integer delays for the five allowed attempts.
- Text.Take: strings are sequences of Unicode scalar values, not UTF-16 code units. So `substring(0, 20)` can differ from the code on text outside the Basic Multilingual Plane.
- Icons.ToLower: only ASCII letters are lowered. `Icons.ExampleIconIgnoresCase` shows that the choice cannot matter for the keyword groups.
- Store.SessionStore.DeleteProject: the two branches of `deleteProject`, for default and other projects, do the same thing. They are modelled as one.
- `init` is not modelled as one step. Its parts are the `SessionStore` constructor, `Connect` and `DisplayProjectContent`.
- FrontendServer.LoadSettings: the configured addresses are taken to be strings. In the code a value of another JSON type is accepted at start-up. A non-string `ws_url` then fails at `startswith` (frontend_server.py line 102) on every internal `/config` request, and a non-string `api_url` is passed on as it is.
- `get_config`'s branch for an API URL without a scheme (frontend_server.py lines 110-112) is not modelled, because it changes nothing. Also not modelled: the host and port settings, logging, and the `proxy_api` route.
- `code-editor.js`, the start scripts and `backend/web_server.py` are not part of this model. They are a browser code runner, process launchers and static file serving.

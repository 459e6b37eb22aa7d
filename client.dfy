/** The page's event handlers that tie the session store to the
    connection: the WebSocket `onmessage` dispatch with its plain-text
    fallback, and `sendMessage`. */
module Client {
  import opened Options
  import opened Text
  import opened Session
  import opened Store
  import opened Connection

  /** The text a server sends while it works on a request. */
  const ProcessingText := "处理中..."

  /** An incoming frame as the client sees it once `JSON.parse` has run: the
      `type` it names, with the `content` when that is a string (`None` when
      it is absent or not a string). `Unparsed` is data that is not JSON, or
      JSON whose `type` cannot be read. */
  datatype Frame =
    | Processing
    | ReasoningStart
    | ReasoningStep(step: Option<string>)
    | ReasoningEnd
    | Result(content: Option<string>)
    | Error(message: Option<string>)
    | Other(content: Option<string>)
    | Unparsed

  /** A WebSocket message: its raw text and how it parses. */
  datatype Inbound = Inbound(raw: string, frame: Frame)

  /** What the `switch` of `onmessage` does with a frame. */
  datatype Reaction =
    | Ignore          // only the page changes
    | Settle          // the request is over, nothing is saved
    | Final(text: string)   // a final result: shown and saved, no retitle
    | Reply(text: string)   // a plain reply: shown, retitles, saved
    | Fail            // the handler throws before touching the session

  /** The `switch` of `onmessage`. Showing a result or a reply that is not a
      string throws, as does parsing; a frame of unknown type carrying the
      working text only shows the typing indicator. */
  function React(f: Frame): (r: Reaction)
    ensures r.Settle? <==> f.Error?
    ensures r.Final? <==> f.Result? && f.content.Some?
    ensures r.Final? ==> r.text == f.content.value
    ensures r.Reply? <==> f.Other? && f.content.Some? && f.content.value != ProcessingText
    ensures r.Reply? ==> r.text == f.content.value
    ensures r.Fail? <==> f.Unparsed? || ((f.Result? || f.Other?) && f.content.None?)
  {
    match f
    case Processing => Ignore
    case ReasoningStart => Ignore
    case ReasoningStep(_) => Ignore
    case ReasoningEnd => Ignore
    case Result(content) => if content.Some? then Final(content.value) else Fail
    case Error(_) => Settle
    case Other(content) =>
      if content.None? then Fail
      else if content.value == ProcessingText then Ignore
      else Reply(content.value)
    case Unparsed => Fail
  }

  /** `displayBotMessage(m)` then `saveChatMessage('assistant', m)`: the
      history afterwards and whether both got through. */
  function ReplyOutcome(h: seq<Chat>, chatId: string, project: Option<Project>, m: string, now: string): (seq<Chat>, bool) {
    var (titled, ok) := RetitleOutcome(h, chatId, project, m);
    if ok then SaveOutcome(titled, chatId, project, Message(Assistant, m), now) else (titled, false)
  }

  /** The `catch` of `onmessage`: the raw text is handled as a plain reply
      unless it is the working text. */
  function Fallback(h: seq<Chat>, chatId: string, project: Option<Project>, raw: string, now: string): (seq<Chat>, bool) {
    if raw == ProcessingText then (h, false) else ReplyOutcome(h, chatId, project, raw, now)
  }

  /** `onmessage` as a value: the history afterwards, and whether the
      pending request is over. A throw inside the `switch` falls through to
      the `catch`, after whatever changes were already made. */
  function Received(h: seq<Chat>, chatId: string, project: Option<Project>, e: Inbound, now: string): (seq<Chat>, bool) {
    match React(e.frame)
    case Ignore => (h, false)
    case Settle => (h, true)
    case Final(c) =>
      var (saved, ok) := SaveOutcome(h, chatId, project, Message(Assistant, c), now);
      if ok then (saved, true) else Fallback(saved, chatId, project, e.raw, now)
    case Reply(c) =>
      var (replied, ok) := ReplyOutcome(h, chatId, project, c, now);
      if ok then (replied, true) else Fallback(replied, chatId, project, e.raw, now)
    case Fail => Fallback(h, chatId, project, e.raw, now)
  }

  /** The text a frame adds to the conversation when a project is current. */
  function SavedText(e: Inbound): Option<string> {
    match React(e.frame)
    case Final(c) => Some(c)
    case Reply(c) => Some(c)
    case Fail => if e.raw == ProcessingText then None else Some(e.raw)
    case Ignore => None
    case Settle => None
  }

  /** With a current project, a frame adds at most one assistant message,
      to the current chat only: the content of a result or reply, the raw
      text of a frame that cannot be handled, nothing otherwise. The request
      is over exactly when something was saved or an error came in. */
  lemma ReceivedWithProject(h: seq<Chat>, chatId: string, project: Option<Project>, e: Inbound, now: string)
    requires project.Some?
    ensures var (r, settled) := Received(h, chatId, project, e, now);
      && Transcript(r, chatId) == Transcript(h, chatId) +
           (if SavedText(e).Some? then [Message(Assistant, SavedText(e).value)] else [])
      && (settled <==> SavedText(e).Some? || e.frame.Error?)
      && (SavedText(e).None? ==> r == h)
      && forall x :: x != chatId ==> FindChat(r, x) == FindChat(h, x)
  {
    match React(e.frame)
    case Ignore =>
    case Settle =>
    case Final(c) =>
      SaveWithProject(h, chatId, project, c, now);
    case Reply(c) =>
      ReplyWithProject(h, chatId, project, c, now);
    case Fail =>
      if e.raw != ProcessingText {
        ReplyWithProject(h, chatId, project, e.raw, now);
      }
  }

  /** A frame that saves nothing leaves the history exactly as it was, with
      or without a current project; only an error frame ends the request. */
  lemma NothingSavedKeepsHistory(h: seq<Chat>, chatId: string, project: Option<Project>, e: Inbound, now: string)
    requires SavedText(e).None?
    ensures Received(h, chatId, project, e, now) == (h, e.frame.Error?)
  {
  }

  /** With a current project, saving an assistant message appends it to the
      current chat and leaves every other chat. */
  lemma SaveWithProject(h: seq<Chat>, chatId: string, project: Option<Project>, m: string, now: string)
    requires project.Some?
    ensures var (r, ok) := SaveOutcome(h, chatId, project, Message(Assistant, m), now);
      && ok
      && Transcript(r, chatId) == Transcript(h, chatId) + [Message(Assistant, m)]
      && forall x :: x != chatId ==> FindChat(r, x) == FindChat(h, x)
  {
    WithMessageAppends(h, chatId, project.value.id, Message(Assistant, m), now);
  }

  /** With a current project, a plain reply gets through: it is appended to
      the current chat, whose title may change, and every other chat is
      left. */
  lemma ReplyWithProject(h: seq<Chat>, chatId: string, project: Option<Project>, m: string, now: string)
    requires project.Some?
    ensures var (r, ok) := ReplyOutcome(h, chatId, project, m, now);
      && ok
      && Transcript(r, chatId) == Transcript(h, chatId) + [Message(Assistant, m)]
      && forall x :: x != chatId ==> FindChat(r, x) == FindChat(h, x)
  {
    var titled := Retitle(h, chatId, m);
    assert RetitleOutcome(h, chatId, project, m) == (titled, true);
    forall x ensures Transcript(titled, x) == Transcript(h, x)
      && (x != chatId ==> FindChat(titled, x) == FindChat(h, x))
    {
      RetitleKeepsTranscripts(h, chatId, m, x);
      RetitleChangesOnlyTitle(h, chatId, m, x);
    }
    SaveWithProject(titled, chatId, project, m, now);
  }

  /** Without a current project nothing a frame carries gets through, so
      only an error frame ends the pending request. */
  lemma ReceivedWithoutProject(h: seq<Chat>, chatId: string, e: Inbound, now: string)
    ensures Received(h, chatId, None, e, now).1 <==> e.frame.Error?
  {
    match React(e.frame)
    case Ignore =>
    case Settle =>
    case Final(c) =>
      var saved := SaveOutcome(h, chatId, None, Message(Assistant, c), now).0;
      FallbackWithoutProject(saved, chatId, e.raw, now);
    case Reply(c) =>
      var replied := ReplyOutcome(h, chatId, None, c, now).0;
      ReplyWithoutProject(h, chatId, c, now);
      FallbackWithoutProject(replied, chatId, e.raw, now);
    case Fail =>
      FallbackWithoutProject(h, chatId, e.raw, now);
  }

  /** Without a current project a plain reply never gets through. */
  lemma ReplyWithoutProject(h: seq<Chat>, chatId: string, m: string, now: string)
    ensures !ReplyOutcome(h, chatId, None, m, now).1
  {
    var (titled, ok) := RetitleOutcome(h, chatId, None, m);
    if ok {
      assert !SaveOutcome(titled, chatId, None, Message(Assistant, m), now).1;
    }
  }

  /** Without a current project the fallback never gets through. */
  lemma FallbackWithoutProject(h: seq<Chat>, chatId: string, raw: string, now: string)
    ensures !Fallback(h, chatId, None, raw, now).1
  {
    if raw != ProcessingText {
      ReplyWithoutProject(h, chatId, raw, now);
    }
  }

  /** A final result never retitles: an existing chat keeps its title. */
  lemma ResultKeepsTitle(h: seq<Chat>, chatId: string, project: Option<Project>, e: Inbound, now: string)
    requires project.Some? && React(e.frame).Final?
    requires FindChat(h, chatId).Some?
    ensures FindChat(Received(h, chatId, project, e, now).0, chatId).Some?
    ensures FindChat(Received(h, chatId, project, e, now).0, chatId).value.title == FindChat(h, chatId).value.title
  {
    WithMessageAppends(h, chatId, project.value.id, Message(Assistant, React(e.frame).text), now);
  }

  /** Settled titles are kept through any number of steps that keep them. */
  lemma TitlesSettledTrans(a: seq<Chat>, b: seq<Chat>, c: seq<Chat>)
    requires TitlesSettled(a, b) && TitlesSettled(b, c)
    ensures TitlesSettled(a, c)
  {
  }

  /** `ReplyOutcome` keeps settled titles. */
  lemma ReplyKeepsSettledTitles(h: seq<Chat>, chatId: string, project: Option<Project>, m: string, now: string)
    ensures TitlesSettled(h, ReplyOutcome(h, chatId, project, m, now).0)
  {
    var titled := Retitle(h, chatId, m);
    RetitleKeepsSettledTitles(h, chatId, m);
    WithMessageKeepsSettledTitles(titled, chatId, if project.Some? then project.value.id else "", Message(Assistant, m), now);
    TitlesSettledTrans(h, titled, ReplyOutcome(h, chatId, project, m, now).0);
  }

  /** `SaveOutcome` keeps settled titles. */
  lemma SaveKeepsSettledTitles(h: seq<Chat>, chatId: string, project: Option<Project>, msg: Message, now: string)
    ensures TitlesSettled(h, SaveOutcome(h, chatId, project, msg, now).0)
  {
    WithMessageKeepsSettledTitles(h, chatId, if project.Some? then project.value.id else "", msg, now);
  }

  /** `Fallback` keeps settled titles. */
  lemma FallbackKeepsSettledTitles(h: seq<Chat>, chatId: string, project: Option<Project>, raw: string, now: string)
    ensures TitlesSettled(h, Fallback(h, chatId, project, raw, now).0)
  {
    if raw != ProcessingText {
      ReplyKeepsSettledTitles(h, chatId, project, raw, now);
    }
  }

  /** No incoming frame changes the title of a chat that holds more than
      two messages. */
  lemma ReceivedKeepsSettledTitles(h: seq<Chat>, chatId: string, project: Option<Project>, e: Inbound, now: string)
    ensures TitlesSettled(h, Received(h, chatId, project, e, now).0)
  {
    var r := Received(h, chatId, project, e, now).0;
    match React(e.frame)
    case Ignore =>
    case Settle =>
    case Final(c) =>
      var (saved, ok) := SaveOutcome(h, chatId, project, Message(Assistant, c), now);
      SaveKeepsSettledTitles(h, chatId, project, Message(Assistant, c), now);
      FallbackKeepsSettledTitles(saved, chatId, project, e.raw, now);
      assert r == if ok then saved else Fallback(saved, chatId, project, e.raw, now).0;
      TitlesSettledTrans(h, saved, r);
    case Reply(c) =>
      var (replied, ok) := ReplyOutcome(h, chatId, project, c, now);
      ReplyKeepsSettledTitles(h, chatId, project, c, now);
      FallbackKeepsSettledTitles(replied, chatId, project, e.raw, now);
      assert r == if ok then replied else Fallback(replied, chatId, project, e.raw, now).0;
      TitlesSettledTrans(h, replied, r);
    case Fail =>
      FallbackKeepsSettledTitles(h, chatId, project, e.raw, now);
  }

  /** `updateSendButtonState`: the send button is disabled when the input
      is blank or a request is pending. */
  function SendDisabled(input: string, isProcessing: bool): (r: bool)
    ensures r <==> AllSpace(input) || isProcessing
  {
    Trim(input) == [] || isProcessing
  }

  /** `displayBotMessage` followed by `saveChatMessage('assistant', …)`
      and the end of the pending request; stops at the first throw. */
  method ReceiveText(store: SessionStore, conn: Connection, message: string, now: string) returns (ok: bool)
    requires store.Valid()
    modifies store, conn
    ensures store.Valid()
    ensures store.chatHistory ==
      ReplyOutcome(old(store.chatHistory), old(store.currentChatId), old(store.currentProject), message, now).0
    ensures ok == ReplyOutcome(old(store.chatHistory), old(store.currentChatId), old(store.currentProject), message, now).1
    ensures conn.isProcessing == if ok then false else old(conn.isProcessing)
    ensures store.projects == old(store.projects) && store.currentChatId == old(store.currentChatId)
    ensures store.currentProject == old(store.currentProject) && store.storedProjects == old(store.storedProjects)
    ensures conn.socket == old(conn.socket) && conn.reconnectAttempts == old(conn.reconnectAttempts)
    ensures conn.reconnectTimeout == old(conn.reconnectTimeout) && conn.timers == old(conn.timers)
    ensures conn.nextHandle == old(conn.nextHandle) && conn.forcedDisconnect == old(conn.forcedDisconnect)
    ensures conn.sent == old(conn.sent) && conn.retries == old(conn.retries)
  {
    ghost var h0, chatId, project := store.chatHistory, store.currentChatId, store.currentProject;
    ok := store.UpdateChatHistoryTitle(message);
    ghost var titled := store.chatHistory;
    assert (titled, ok) == RetitleOutcome(h0, chatId, project, message);
    if !ok {
      return;
    }
    ok := store.SaveChatMessage(Assistant, message, now);
    assert (store.chatHistory, ok) == SaveOutcome(titled, chatId, project, Message(Assistant, message), now);
    if ok {
      conn.isProcessing := false;
    }
  }

  /** The `catch` of `onmessage`: the raw text goes through `ReceiveText`
      unless it is the working text. */
  method Recover(store: SessionStore, conn: Connection, raw: string, now: string)
    requires store.Valid()
    modifies store, conn
    ensures store.Valid()
    ensures var (h, settled) := Fallback(old(store.chatHistory), old(store.currentChatId), old(store.currentProject), raw, now);
      && store.chatHistory == h
      && conn.isProcessing == if settled then false else old(conn.isProcessing)
    ensures store.projects == old(store.projects) && store.currentChatId == old(store.currentChatId)
    ensures store.currentProject == old(store.currentProject) && store.storedProjects == old(store.storedProjects)
    ensures conn.socket == old(conn.socket) && conn.reconnectAttempts == old(conn.reconnectAttempts)
    ensures conn.reconnectTimeout == old(conn.reconnectTimeout) && conn.timers == old(conn.timers)
    ensures conn.nextHandle == old(conn.nextHandle) && conn.forcedDisconnect == old(conn.forcedDisconnect)
    ensures conn.sent == old(conn.sent) && conn.retries == old(conn.retries)
  {
    if raw != ProcessingText {
      var _ := ReceiveText(store, conn, raw, now);
    }
  }

  /** `socket.onmessage`: the frame is dispatched; when handling it throws,
      the raw text is handled as a plain reply. */
  method OnMessage(store: SessionStore, conn: Connection, e: Inbound, now: string)
    requires store.Valid()
    modifies store, conn
    ensures store.Valid()
    ensures var (h, settled) := Received(old(store.chatHistory), old(store.currentChatId), old(store.currentProject), e, now);
      && store.chatHistory == h
      && conn.isProcessing == if settled then false else old(conn.isProcessing)
    ensures store.projects == old(store.projects) && store.currentChatId == old(store.currentChatId)
    ensures store.currentProject == old(store.currentProject) && store.storedProjects == old(store.storedProjects)
    ensures conn.socket == old(conn.socket) && conn.reconnectAttempts == old(conn.reconnectAttempts)
    ensures conn.reconnectTimeout == old(conn.reconnectTimeout) && conn.timers == old(conn.timers)
    ensures conn.nextHandle == old(conn.nextHandle) && conn.forcedDisconnect == old(conn.forcedDisconnect)
    ensures conn.sent == old(conn.sent) && conn.retries == old(conn.retries)
  {
    match React(e.frame)
    case Ignore =>
    case Settle =>
      conn.isProcessing := false;
    case Final(content) =>
      var ok := store.SaveChatMessage(Assistant, content, now);
      if ok {
        conn.isProcessing := false;
      } else {
        Recover(store, conn, e.raw, now);
      }
    case Reply(content) =>
      var ok := ReceiveText(store, conn, content, now);
      if !ok {
        Recover(store, conn, e.raw, now);
      }
    case Fail =>
      Recover(store, conn, e.raw, now);
  }

  /** `sendMessage`: nothing while the button is disabled. Otherwise the
      trimmed input is saved to the current chat and, if that got through,
      transmitted: at once on an open socket, or after a new connection is
      started, by the one-second retry. */
  method SendMessage(store: SessionStore, conn: Connection, input: string, now: string)
    requires store.Valid() && conn.Valid()
    modifies store, conn
    ensures store.Valid() && conn.Valid()
    ensures SendDisabled(input, old(conn.isProcessing)) ==> unchanged(store) && unchanged(conn)
    ensures !SendDisabled(input, old(conn.isProcessing)) ==>
      var (h, saved) :=
        SaveOutcome(old(store.chatHistory), old(store.currentChatId), old(store.currentProject), Message(User, Trim(input)), now);
      && store.chatHistory == h
      && (!saved ==> unchanged(conn))
      && (saved && old(conn.socket) == Some(Open) ==>
            && conn.sent == old(conn.sent) + [Trim(input)] && conn.retries == old(conn.retries)
            && conn.isProcessing && !conn.forcedDisconnect
            && conn.socket == old(conn.socket)
            && conn.reconnectTimeout == old(conn.reconnectTimeout) && conn.timers == old(conn.timers))
      && (saved && old(conn.socket) != Some(Open) ==>
            && conn.sent == old(conn.sent) && conn.retries == old(conn.retries) + [Trim(input)]
            && conn.isProcessing == old(conn.isProcessing) && !conn.forcedDisconnect
            && conn.socket == (if old(conn.Live()) then old(conn.socket) else Some(Connecting))
            && conn.reconnectTimeout.None?
            && conn.timers == (if old(conn.reconnectTimeout).Some?
                               then old(conn.timers) - {old(conn.reconnectTimeout).value} else old(conn.timers)))
    ensures conn.reconnectAttempts == old(conn.reconnectAttempts) && conn.nextHandle == old(conn.nextHandle)
    ensures store.projects == old(store.projects) && store.currentChatId == old(store.currentChatId)
    ensures store.currentProject == old(store.currentProject) && store.storedProjects == old(store.storedProjects)
  {
    var message := Trim(input);
    if message == [] || conn.isProcessing {
      return;
    }
    var saved := store.SaveChatMessage(User, message, now);
    if !saved {
      return;
    }
    conn.Transmit(message);
  }
}

/** The values the chat client keeps in memory and in local storage:
    projects, chats and their messages, and the pure updates the client
    applies to them. Look-ups follow `find`/`findIndex`: the first entry
    with the id wins. */
module Session {
  import opened Options
  import Titles
  import Icons

  datatype Role = User | Assistant

  datatype Message = Message(role: Role, content: string)

  /** A conversation: the project it was started in, its title, its
      messages in order and the ISO time of its first message. */
  datatype Chat = Chat(id: string, projectId: string, title: string, messages: seq<Message>, timestamp: string)

  /** An example question shown on a project's welcome screen. */
  datatype Example = Example(icon: string, text: string)

  datatype Project = Project(
    id: string, name: string, icon: string, welcome: string,
    examples: seq<Example>, api: string, knowledgeFiles: seq<string>)

  /** The fields of the project configuration form; example questions are
      plain text, their icons are derived when the form is saved. */
  datatype ProjectForm = ProjectForm(
    id: string, name: string, icon: string, welcome: string,
    questions: seq<string>, api: string)

  /** The project shown at start-up. */
  const HomeProjectId := "hot-news"

  /** The projects used when none are stored. */
  const DefaultProjects: seq<Project> := [
    Project("hot-news", "热点追踪", "bi-fire", "追踪实时热点新闻和事件，了解最新动态",
      [Example("bi-globe", "最近有哪些重要的国际新闻？"),
       Example("bi-cpu", "帮我梳理一下近期的科技行业动态"),
       Example("bi-people", "最近有哪些热门社会事件？"),
       Example("bi-cash-coin", "帮我总结一下近期的经济政策变化")],
      "", []),
    Project("market-analysis", "大盘分析", "bi-graph-up", "分析股市行情和市场趋势，助您做出更明智的投资决策",
      [Example("bi-currency-dollar", "请分析近期A股市场走势"),
       Example("bi-bank", "最近哪些行业表现较好？"),
       Example("bi-coin", "分析一下当前宏观经济对股市的影响"),
       Example("bi-graph-up-arrow", "帮我解读最新的央行货币政策")],
      "", []),
    Project("k-quant", "探索K-Quant", "bi-cpu", "了解K-Quant量化交易系统，探索AI在金融领域的应用",
      [Example("bi-robot", "K-Quant系统的核心功能有哪些？"),
       Example("bi-code-square", "如何使用K-Quant进行策略开发？"),
       Example("bi-gear", "多因子模型在K-Quant中如何实现？"),
       Example("bi-book", "有哪些常用的量化交易指标？")],
      "", [])
  ]

  // ---------------------------------------------------------------------
  // Look-up by id

  function ChatIds(h: seq<Chat>): (r: seq<string>)
    ensures |r| == |h| && forall k :: 0 <= k < |h| ==> r[k] == h[k].id
  {
    seq(|h|, k requires 0 <= k < |h| => h[k].id)
  }

  function ProjectIds(ps: seq<Project>): (r: seq<string>)
    ensures |r| == |ps| && forall k :: 0 <= k < |ps| ==> r[k] == ps[k].id
  {
    seq(|ps|, k requires 0 <= k < |ps| => ps[k].id)
  }

  /** `findIndex` by id: the first position holding `id`, or -1. */
  function IndexOf(ids: seq<string>, id: string): (r: int)
    ensures -1 <= r < |ids|
    ensures r == -1 <==> forall k :: 0 <= k < |ids| ==> ids[k] != id
    ensures r >= 0 ==> ids[r] == id && forall k :: 0 <= k < r ==> ids[k] != id
  {
    if ids == [] then -1
    else if ids[0] == id then 0
    else
      var r := IndexOf(ids[1..], id);
      if r < 0 then -1 else r + 1
  }

  /** The first position holding `id` is the one `IndexOf` answers. */
  lemma IndexOfIsFirst(ids: seq<string>, id: string, i: int)
    requires 0 <= i < |ids| && ids[i] == id
    requires forall k :: 0 <= k < i ==> ids[k] != id
    ensures IndexOf(ids, id) == i
  {
  }

  /** Appending an id leaves the position of every id already present. */
  lemma IndexOfAppend(ids: seq<string>, y: string, x: string)
    ensures IndexOf(ids + [y], x) ==
      if IndexOf(ids, x) >= 0 then IndexOf(ids, x) else if x == y then |ids| else -1
  {
    var i := IndexOf(ids, x);
    if i >= 0 {
      IndexOfIsFirst(ids + [y], x, i);
    } else if x == y {
      IndexOfIsFirst(ids + [y], x, |ids|);
    }
  }

  /** `chatHistory.find(c => c.id === id)`. */
  function FindChat(h: seq<Chat>, id: string): Option<Chat> {
    var i := IndexOf(ChatIds(h), id);
    if i < 0 then None else Some(h[i])
  }

  /** `projects.find(p => p.id === id)` (`findProject`). */
  function FindProject(ps: seq<Project>, id: string): Option<Project> {
    var i := IndexOf(ProjectIds(ps), id);
    if i < 0 then None else Some(ps[i])
  }

  /** `findProject` answers the first project with the id, and nothing only
      when no project has it. */
  lemma FindProjectIsFirst(ps: seq<Project>, id: string)
    ensures FindProject(ps, id).None? <==> forall k :: 0 <= k < |ps| ==> ps[k].id != id
    ensures FindProject(ps, id).Some? ==>
      exists i :: 0 <= i < |ps| && ps[i] == FindProject(ps, id).value && ps[i].id == id
                  && forall k :: 0 <= k < i ==> ps[k].id != id
  {
  }

  /** The messages of the chat with that id, or none if there is no such chat. */
  function Transcript(h: seq<Chat>, id: string): seq<Message> {
    match FindChat(h, id)
    case None => []
    case Some(c) => c.messages
  }

  /** No two chats share an id. */
  predicate UniqueChatIds(h: seq<Chat>) {
    forall i, j :: 0 <= i < j < |h| ==> h[i].id != h[j].id
  }

  // ---------------------------------------------------------------------
  // Chat history updates

  /** `saveChatMessage` on the history: the message is appended to the chat
      with that id, or a chat is created for it, titled after the message and
      stamped with `now`. */
  function WithMessage(h: seq<Chat>, chatId: string, projectId: string, msg: Message, now: string): (r: seq<Chat>)
    ensures |r| == |h| || |r| == |h| + 1
  {
    var i := IndexOf(ChatIds(h), chatId);
    if i < 0 then h + [Chat(chatId, projectId, Titles.GetTitle(msg.content), [msg], now)]
    else h[i := h[i].(messages := h[i].messages + [msg])]
  }

  /** Replacing a chat by one with the same id leaves every look-up position. */
  lemma SameIdsAfterUpdate(h: seq<Chat>, i: int, c: Chat)
    requires 0 <= i < |h| && c.id == h[i].id
    ensures ChatIds(h[i := c]) == ChatIds(h)
  {
  }

  /** Look-up after the chat found under `c.id` is replaced by `c`. */
  lemma FindAfterUpdate(h: seq<Chat>, c: Chat, x: string)
    requires IndexOf(ChatIds(h), c.id) >= 0
    ensures var i := IndexOf(ChatIds(h), c.id);
      FindChat(h[i := c], x) == if x == c.id then Some(c) else FindChat(h, x)
  {
    var i := IndexOf(ChatIds(h), c.id);
    SameIdsAfterUpdate(h, i, c);
  }

  /** Look-up after a chat with a new id is appended. */
  lemma FindAfterAppend(h: seq<Chat>, c: Chat, x: string)
    requires IndexOf(ChatIds(h), c.id) < 0
    ensures FindChat(h + [c], x) == if x == c.id then Some(c) else FindChat(h, x)
  {
    assert ChatIds(h + [c]) == ChatIds(h) + [c.id];
    IndexOfAppend(ChatIds(h), c.id, x);
  }

  /** The message lands in the chat with that id, and only there; a missing
      chat is created at the end of the history, holding just the message and
      titled after it. */
  lemma WithMessageAppends(h: seq<Chat>, chatId: string, projectId: string, msg: Message, now: string)
    ensures var r := WithMessage(h, chatId, projectId, msg, now);
      && Transcript(r, chatId) == Transcript(h, chatId) + [msg]
      && (FindChat(h, chatId).None? ==>
            r == h + [Chat(chatId, projectId, Titles.GetTitle(msg.content), [msg], now)])
      && (FindChat(h, chatId).Some? ==>
            FindChat(r, chatId) == Some(FindChat(h, chatId).value.(messages := Transcript(h, chatId) + [msg])))
      && forall x :: x != chatId ==> FindChat(r, x) == FindChat(h, x)
  {
    var i := IndexOf(ChatIds(h), chatId);
    if i < 0 {
      var c := Chat(chatId, projectId, Titles.GetTitle(msg.content), [msg], now);
      forall x ensures FindChat(h + [c], x) == if x == chatId then Some(c) else FindChat(h, x) {
        FindAfterAppend(h, c, x);
      }
    } else {
      var c := h[i].(messages := h[i].messages + [msg]);
      forall x ensures FindChat(h[i := c], x) == if x == chatId then Some(c) else FindChat(h, x) {
        FindAfterUpdate(h, c, x);
      }
    }
  }

  /** A new chat gets an id no chat has yet, so ids stay unique. */
  lemma WithMessageKeepsUnique(h: seq<Chat>, chatId: string, projectId: string, msg: Message, now: string)
    requires UniqueChatIds(h)
    ensures UniqueChatIds(WithMessage(h, chatId, projectId, msg, now))
  {
    var i := IndexOf(ChatIds(h), chatId);
    if i >= 0 {
      SameIdsAfterUpdate(h, i, h[i].(messages := h[i].messages + [msg]));
    }
  }

  /** The current chat may still be retitled: it exists and holds at most
      two messages. */
  predicate CanRetitle(h: seq<Chat>, chatId: string) {
    var i := IndexOf(ChatIds(h), chatId);
    i >= 0 && |h[i].messages| <= 2
  }

  /** `updateChatHistoryTitle` on the history: a chat with at most two
      messages is retitled after `content`; otherwise nothing changes. */
  function Retitle(h: seq<Chat>, chatId: string, content: string): (r: seq<Chat>)
    ensures |r| == |h|
    ensures !CanRetitle(h, chatId) ==> r == h
  {
    var i := IndexOf(ChatIds(h), chatId);
    if i >= 0 && |h[i].messages| <= 2 then h[i := h[i].(title := Titles.GetTitle(content))]
    else h
  }

  /** Retitling changes only the title of the chat with that id, and only
      while it holds at most two messages. */
  lemma RetitleChangesOnlyTitle(h: seq<Chat>, chatId: string, content: string, x: string)
    ensures ChatIds(Retitle(h, chatId, content)) == ChatIds(h)
    ensures FindChat(Retitle(h, chatId, content), x) ==
      if x == chatId && CanRetitle(h, chatId)
      then Some(FindChat(h, chatId).value.(title := Titles.GetTitle(content)))
      else FindChat(h, x)
  {
    var i := IndexOf(ChatIds(h), chatId);
    if i >= 0 && |h[i].messages| <= 2 {
      var c := h[i].(title := Titles.GetTitle(content));
      SameIdsAfterUpdate(h, i, c);
      FindAfterUpdate(h, c, x);
    }
  }

  /** Retitling keeps every transcript, and the chat stays retitleable. */
  lemma RetitleKeepsTranscripts(h: seq<Chat>, chatId: string, content: string, x: string)
    ensures Transcript(Retitle(h, chatId, content), x) == Transcript(h, x)
    ensures CanRetitle(Retitle(h, chatId, content), chatId) == CanRetitle(h, chatId)
  {
    RetitleChangesOnlyTitle(h, chatId, content, x);
  }

  /** Only the last retitle counts. */
  lemma RetitleTwice(h: seq<Chat>, chatId: string, a: string, b: string)
    ensures Retitle(Retitle(h, chatId, a), chatId, b) == Retitle(h, chatId, b)
  {
    RetitleChangesOnlyTitle(h, chatId, a, chatId);
  }

  /** Once a chat holds more than two messages its title no longer changes. */
  ghost predicate TitlesSettled(before: seq<Chat>, after: seq<Chat>) {
    forall x :: FindChat(before, x).Some? && |FindChat(before, x).value.messages| > 2 ==>
      && FindChat(after, x).Some?
      && FindChat(after, x).value.title == FindChat(before, x).value.title
      && |FindChat(after, x).value.messages| > 2
  }

  /** Adding a message never changes a settled title. */
  lemma WithMessageKeepsSettledTitles(h: seq<Chat>, chatId: string, projectId: string, msg: Message, now: string)
    ensures TitlesSettled(h, WithMessage(h, chatId, projectId, msg, now))
  {
    WithMessageAppends(h, chatId, projectId, msg, now);
  }

  /** Retitling never changes a settled title. */
  lemma RetitleKeepsSettledTitles(h: seq<Chat>, chatId: string, content: string)
    ensures TitlesSettled(h, Retitle(h, chatId, content))
  {
    forall x ensures FindChat(Retitle(h, chatId, content), x) ==
      if x == chatId && CanRetitle(h, chatId)
      then Some(FindChat(h, chatId).value.(title := Titles.GetTitle(content)))
      else FindChat(h, x)
    {
      RetitleChangesOnlyTitle(h, chatId, content, x);
    }
  }

  /** The history after the assistant messages of `msgs` are replayed one by
      one against the current chat, as `loadChat` does through
      `displayBotMessage`. */
  function ReplayTitles(h: seq<Chat>, chatId: string, msgs: seq<Message>): seq<Chat>
  {
    if msgs == [] then h
    else
      var prev := ReplayTitles(h, chatId, msgs[..|msgs| - 1]);
      var m := msgs[|msgs| - 1];
      if m.role == Assistant then Retitle(prev, chatId, m.content) else prev
  }

  /** One more message replayed: an assistant message retitles, a user
      message does nothing; a reply among the first `k + 1` messages is among
      the first `k` or is the last of them. */
  lemma ReplayStep(h: seq<Chat>, chatId: string, msgs: seq<Message>, k: nat)
    requires k < |msgs|
    ensures ReplayTitles(h, chatId, msgs[..k + 1]) ==
      if msgs[k].role == Assistant then Retitle(ReplayTitles(h, chatId, msgs[..k]), chatId, msgs[k].content)
      else ReplayTitles(h, chatId, msgs[..k])
    ensures HasReply(msgs[..k + 1]) <==> HasReply(msgs[..k]) || msgs[k].role == Assistant
  {
    assert msgs[..k + 1][..k] == msgs[..k];
    if HasReply(msgs[..k + 1]) {
      var j :| 0 <= j < k + 1 && msgs[..k + 1][j].role == Assistant;
      if j < k { assert msgs[..k][j].role == Assistant; }
    }
    if HasReply(msgs[..k]) {
      var j :| 0 <= j < k && msgs[..k][j].role == Assistant;
      assert msgs[..k + 1][j].role == Assistant;
    }
    if msgs[k].role == Assistant {
      assert msgs[..k + 1][k].role == Assistant;
    }
  }

  /** Some message of `msgs` is the assistant's. */
  predicate HasReply(msgs: seq<Message>) {
    exists j :: 0 <= j < |msgs| && msgs[j].role == Assistant
  }

  /** The content of the last assistant message. */
  function LastReply(msgs: seq<Message>): (r: Option<string>)
    ensures r.None? <==> !HasReply(msgs)
    ensures r.Some? ==> exists j :: 0 <= j < |msgs| && msgs[j] == Message(Assistant, r.value)
                                    && forall k :: j < k < |msgs| ==> msgs[k].role == User
  {
    if msgs == [] then None
    else if msgs[|msgs| - 1].role == Assistant then Some(msgs[|msgs| - 1].content)
    else
      var r := LastReply(msgs[..|msgs| - 1]);
      assert HasReply(msgs) ==> HasReply(msgs[..|msgs| - 1]) by {
        if HasReply(msgs) {
          var j :| 0 <= j < |msgs| && msgs[j].role == Assistant;
          assert msgs[..|msgs| - 1][j] == msgs[j];
        }
      }
      r
  }

  /** The content of the first assistant message. */
  function FirstReply(msgs: seq<Message>): (r: Option<string>)
    ensures r.None? <==> !HasReply(msgs)
    ensures r.Some? ==> exists j :: 0 <= j < |msgs| && msgs[j] == Message(Assistant, r.value)
                                    && forall k :: 0 <= k < j ==> msgs[k].role == User
  {
    if msgs == [] then None
    else if msgs[0].role == Assistant then Some(msgs[0].content)
    else
      var r := FirstReply(msgs[1..]);
      assert HasReply(msgs[1..]) ==> HasReply(msgs) by {
        if HasReply(msgs[1..]) {
          var j :| 0 <= j < |msgs| - 1 && msgs[1..][j].role == Assistant;
          assert msgs[j + 1].role == Assistant;
        }
      }
      r
  }

  /** The first assistant message is the one no earlier assistant message
      precedes. */
  lemma FirstReplyAt(msgs: seq<Message>, k: int)
    requires 0 <= k < |msgs| && msgs[k].role == Assistant
    requires !HasReply(msgs[..k])
    ensures FirstReply(msgs) == Some(msgs[k].content)
  {
    forall i | 0 <= i < k ensures msgs[i].role == User {
      assert msgs[..k][i] == msgs[i];
    }
    assert HasReply(msgs);
    var r := FirstReply(msgs);
    var j :| 0 <= j < |msgs| && msgs[j] == Message(Assistant, r.value)
             && forall i :: 0 <= i < j ==> msgs[i].role == User;
    assert j == k;
  }

  /** Replaying a conversation leaves the title its last assistant message
      gives, and no other trace. */
  lemma {:induction false} ReplayIsLastRetitle(h: seq<Chat>, chatId: string, msgs: seq<Message>)
    ensures ReplayTitles(h, chatId, msgs) ==
      match LastReply(msgs)
      case None => h
      case Some(c) => Retitle(h, chatId, c)
  {
    if msgs != [] {
      var init := msgs[..|msgs| - 1];
      ReplayIsLastRetitle(h, chatId, init);
      if msgs[|msgs| - 1].role == Assistant {
        match LastReply(init)
        case None =>
        case Some(c) => RetitleTwice(h, chatId, c, msgs[|msgs| - 1].content);
      }
    }
  }

  /** Replaying touches only the current chat's title: the loaded chat, under
      another id, keeps the title it had. */
  lemma ReplayKeepsOtherChats(h: seq<Chat>, chatId: string, msgs: seq<Message>, x: string)
    requires x != chatId
    ensures FindChat(ReplayTitles(h, chatId, msgs), x) == FindChat(h, x)
    ensures CanRetitle(ReplayTitles(h, chatId, msgs), chatId) == CanRetitle(h, chatId)
  {
    ReplayIsLastRetitle(h, chatId, msgs);
    match LastReply(msgs)
    case None =>
    case Some(c) =>
      RetitleChangesOnlyTitle(h, chatId, c, x);
      RetitleKeepsTranscripts(h, chatId, c, x);
  }

  /** What a deletion removes: one chat by id, or all chats of a project. */
  datatype Removal = ChatWithId(id: string) | ChatsOfProject(projectId: string)

  predicate Removes(d: Removal, c: Chat) {
    match d
    case ChatWithId(id) => c.id == id
    case ChatsOfProject(p) => c.projectId == p
  }

  /** `chatHistory.filter(...)`: the chats the removal does not match. */
  function Without(h: seq<Chat>, d: Removal): (r: seq<Chat>)
    ensures |r| <= |h|
  {
    if h == [] then []
    else (if Removes(d, h[0]) then [] else [h[0]]) + Without(h[1..], d)
  }

  /** The survivors are exactly the chats the removal does not match. */
  lemma {:induction false} WithoutMembers(h: seq<Chat>, d: Removal)
    ensures forall c :: c in Without(h, d) <==> c in h && !Removes(d, c)
  {
    if h != [] {
      WithoutMembers(h[1..], d);
      assert h == [h[0]] + h[1..];
    }
  }

  /** The head and tail of a concatenation with a non-empty front. */
  lemma ConsAppend<T>(a: seq<T>, b: seq<T>)
    requires a != []
    ensures a + b != [] && (a + b)[0] == a[0] && (a + b)[1..] == a[1..] + b
  {
  }

  /** Concatenation is associative. */
  lemma AppendAssoc<T>(x: seq<T>, y: seq<T>, z: seq<T>)
    ensures x + (y + z) == (x + y) + z
  {
  }

  /** Filtering keeps the survivors in their order. */
  lemma {:induction false} WithoutAppend(a: seq<Chat>, b: seq<Chat>, d: Removal)
    ensures Without(a + b, d) == Without(a, d) + Without(b, d)
  {
    if a == [] {
      assert a + b == b;
    } else {
      var head: seq<Chat> := if Removes(d, a[0]) then [] else [a[0]];
      ConsAppend(a, b);
      WithoutAppend(a[1..], b, d);
      assert Without(a + b, d) == head + Without(a[1..] + b, d);
      assert Without(a, d) == head + Without(a[1..], d);
      AppendAssoc(head, Without(a[1..], d), Without(b, d));
    }
  }

  /** Look-up on a non-empty history, one chat at a time. */
  lemma FindChatCons(h: seq<Chat>, x: string)
    requires h != []
    ensures FindChat(h, x) == if h[0].id == x then Some(h[0]) else FindChat(h[1..], x)
  {
    assert ChatIds(h)[1..] == ChatIds(h[1..]);
  }

  /** Removing one chat by id leaves every other look-up. */
  lemma {:induction false} WithoutChatKeepsOthers(h: seq<Chat>, id: string, x: string)
    requires x != id
    ensures FindChat(Without(h, ChatWithId(id)), x) == FindChat(h, x)
  {
    if h != [] {
      var r := Without(h, ChatWithId(id));
      var rest := Without(h[1..], ChatWithId(id));
      WithoutChatKeepsOthers(h[1..], id, x);
      FindChatCons(h, x);
      if h[0].id != id {
        assert r == [h[0]] + rest;
        FindChatCons(r, x);
        assert r[0] == h[0] && r[1..] == rest;
      } else {
        assert r == rest;
      }
    }
  }

  /** After removing a chat by id, no chat with that id remains. */
  lemma WithoutChatRemovesIt(h: seq<Chat>, id: string)
    ensures FindChat(Without(h, ChatWithId(id)), id).None?
  {
    var r := Without(h, ChatWithId(id));
    WithoutMembers(h, ChatWithId(id));
    forall k | 0 <= k < |r| ensures ChatIds(r)[k] != id {
      assert r[k] in r;
    }
  }

  /** Removal keeps ids unique. */
  lemma {:induction false} WithoutKeepsUnique(h: seq<Chat>, d: Removal)
    requires UniqueChatIds(h)
    ensures UniqueChatIds(Without(h, d))
  {
    if h != [] {
      var rest := Without(h[1..], d);
      WithoutKeepsUnique(h[1..], d);
      WithoutMembers(h[1..], d);
      if !Removes(d, h[0]) {
        forall j | 0 <= j < |rest| ensures rest[j].id != h[0].id {
          assert rest[j] in h[1..];
          var k :| 0 <= k < |h[1..]| && h[1..][k] == rest[j];
          assert h[k + 1] == rest[j];
        }
      }
    }
  }

  // ---------------------------------------------------------------------
  // Project list updates

  /** The examples of a saved form, each with the icon its text selects. */
  function FormExamples(questions: seq<string>): seq<Example> {
    seq(|questions|, k requires 0 <= k < |questions| => Example(Icons.ExampleIcon(questions[k]), questions[k]))
  }

  /** The project a form describes, given the knowledge files it keeps. */
  function FormProject(form: ProjectForm, files: seq<string>): Project {
    Project(form.id, form.name, form.icon, form.welcome, FormExamples(form.questions), form.api, files)
  }

  /** The knowledge files a save keeps: those of the project with that id,
      or none for a new project. */
  function KeptFiles(ps: seq<Project>, id: string): seq<string> {
    match FindProject(ps, id)
    case None => []
    case Some(p) => p.knowledgeFiles
  }

  /** `saveProjectConfig` on the project list: the first project with the
      form's id is replaced, or the project is appended. */
  function Upsert(ps: seq<Project>, form: ProjectForm): (r: seq<Project>)
    ensures |r| == |ps| || |r| == |ps| + 1
  {
    var i := IndexOf(ProjectIds(ps), form.id);
    var p := FormProject(form, KeptFiles(ps, form.id));
    if i >= 0 then ps[i := p] else ps + [p]
  }

  /** After a save the project is found under its id with the form's fields,
      its example icons derived from their texts and its knowledge files
      kept; every other project is found as before. */
  lemma UpsertThenFind(ps: seq<Project>, form: ProjectForm)
    ensures var r := Upsert(ps, form);
      && FindProject(r, form.id) == Some(FormProject(form, KeptFiles(ps, form.id)))
      && (forall x :: x != form.id ==> FindProject(r, x) == FindProject(ps, x))
      && (FindProject(ps, form.id).None? ==> r == ps + [FormProject(form, [])])
  {
    var r := Upsert(ps, form);
    var i := IndexOf(ProjectIds(ps), form.id);
    var p := FormProject(form, KeptFiles(ps, form.id));
    if i >= 0 {
      assert ProjectIds(r) == ProjectIds(ps);
    } else {
      assert ProjectIds(r) == ProjectIds(ps) + [form.id];
      IndexOfAppend(ProjectIds(ps), form.id, form.id);
      forall x | x != form.id ensures FindProject(r, x) == FindProject(ps, x) {
        IndexOfAppend(ProjectIds(ps), form.id, x);
      }
    }
  }

  /** An existing project is replaced at its own index, keeping its
      knowledge files, and every other index is untouched; a new project is
      appended with no knowledge files. */
  lemma UpsertInPlace(ps: seq<Project>, form: ProjectForm)
    ensures var r := Upsert(ps, form);
      var i := IndexOf(ProjectIds(ps), form.id);
      && (i >= 0 ==>
            && |r| == |ps|
            && r[i] == FormProject(form, ps[i].knowledgeFiles)
            && forall k :: 0 <= k < |ps| && k != i ==> r[k] == ps[k])
      && (i < 0 ==> r == ps + [FormProject(form, [])])
  {
  }

  /** Saving the same form twice is the same as saving it once. */
  lemma UpsertIdempotent(ps: seq<Project>, form: ProjectForm)
    ensures Upsert(Upsert(ps, form), form) == Upsert(ps, form)
  {
    var r := Upsert(ps, form);
    UpsertThenFind(ps, form);
    var i := IndexOf(ProjectIds(ps), form.id);
    if i >= 0 {
      assert ProjectIds(r) == ProjectIds(ps);
    } else {
      assert ProjectIds(r) == ProjectIds(ps) + [form.id];
      IndexOfAppend(ProjectIds(ps), form.id, form.id);
    }
  }

  /** Each saved example's icon is the one the classifier picks for its text. */
  lemma FormExamplesClassified(questions: seq<string>)
    ensures |FormExamples(questions)| == |questions|
    ensures forall k :: 0 <= k < |questions| ==>
      FormExamples(questions)[k].text == questions[k]
      && FormExamples(questions)[k].icon == Icons.ExampleIcon(questions[k])
  {
  }

  /** `deleteProject` on the project list: the first project with that id
      is spliced out. */
  function WithoutProject(ps: seq<Project>, id: string): (r: seq<Project>)
    ensures FindProject(ps, id).None? ==> r == ps
    ensures FindProject(ps, id).Some? ==> |r| == |ps| - 1
  {
    var i := IndexOf(ProjectIds(ps), id);
    if i >= 0 then ps[..i] + ps[i + 1..] else ps
  }

  /** `r` is `ps` with position `i` spliced out: the entries before `i`
      keep their places and those after it move down by one. */
  predicate SplicedAt(ps: seq<Project>, r: seq<Project>, i: nat) {
    && i < |ps| && |r| == |ps| - 1
    && forall k :: 0 <= k < |r| ==> r[k] == if k < i then ps[k] else ps[k + 1]
  }

  /** `i` is the first position holding a project with that id. */
  predicate FirstWithId(ps: seq<Project>, id: string, i: nat) {
    i < |ps| && ps[i].id == id && forall k :: 0 <= k < i ==> ps[k].id != id
  }

  /** Deleting a present id splices out the first project holding it, so
      the survivors keep their order. */
  lemma WithoutProjectSplices(ps: seq<Project>, id: string)
    ensures FindProject(ps, id).Some? ==>
      exists i: nat :: FirstWithId(ps, id, i) && SplicedAt(ps, WithoutProject(ps, id), i)
  {
    var i := IndexOf(ProjectIds(ps), id);
    if i >= 0 {
      SpliceShape(ps, i);
      FirstIndexOf(ps, id);
    }
  }

  /** The shape of a splice. */
  lemma SpliceShape(ps: seq<Project>, i: nat)
    requires i < |ps|
    ensures SplicedAt(ps, ps[..i] + ps[i + 1..], i)
  {
    forall k | 0 <= k < |ps| - 1 ensures (ps[..i] + ps[i + 1..])[k] == if k < i then ps[k] else ps[k + 1] {
      SpliceAt(ps, i, k);
    }
  }

  /** The position `IndexOf` answers for a present id is the first one
      holding it. */
  lemma FirstIndexOf(ps: seq<Project>, id: string)
    requires IndexOf(ProjectIds(ps), id) >= 0
    ensures FirstWithId(ps, id, IndexOf(ProjectIds(ps), id))
  {
    var i := IndexOf(ProjectIds(ps), id);
    forall k | 0 <= k < i ensures ps[k].id != id {
      assert ProjectIds(ps)[k] != id;
    }
  }

  /** Splicing out a position that holds another id moves the first
      occurrence of `x` down by one when it came after that position. */
  lemma IndexOfSplice(ids: seq<string>, i: nat, x: string)
    requires i < |ids| && ids[i] != x
    ensures var j := IndexOf(ids, x);
      IndexOf(ids[..i] + ids[i + 1..], x) == if j < 0 then -1 else if j < i then j else j - 1
  {
    var r := ids[..i] + ids[i + 1..];
    var j := IndexOf(ids, x);
    if j >= 0 {
      var j' := if j < i then j else j - 1;
      SpliceAt(ids, i, j');
      forall k | 0 <= k < j' ensures r[k] != x {
        SpliceAt(ids, i, k);
      }
      IndexOfIsFirst(r, x, j');
    } else {
      forall k | 0 <= k < |r| ensures r[k] != x {
        SpliceAt(ids, i, k);
      }
    }
  }

  /** An element of a spliced sequence, read in the original. */
  lemma SpliceAt<T>(s: seq<T>, i: nat, k: nat)
    requires i < |s| && k < |s| - 1
    ensures |s[..i] + s[i + 1..]| == |s| - 1
    ensures (s[..i] + s[i + 1..])[k] == if k < i then s[k] else s[k + 1]
  {
  }

  /** The ids of a spliced list are the spliced ids. */
  lemma ProjectIdsSplice(ps: seq<Project>, i: nat)
    requires i < |ps|
    ensures ProjectIds(ps[..i] + ps[i + 1..]) == ProjectIds(ps)[..i] + ProjectIds(ps)[i + 1..]
  {
  }

  /** Splicing out a project with another id leaves the look-up of `x`. */
  lemma FindProjectSplice(ps: seq<Project>, i: nat, x: string)
    requires i < |ps| && ps[i].id != x
    ensures FindProject(ps[..i] + ps[i + 1..], x) == FindProject(ps, x)
  {
    var ids := ProjectIds(ps);
    var r := ps[..i] + ps[i + 1..];
    IndexOfSplice(ids, i, x);
    ProjectIdsSplice(ps, i);
    var j := IndexOf(ids, x);
    if j >= 0 {
      var j' := if j < i then j else j - 1;
      assert r[j'] == ps[j];
    }
  }

  /** Deleting a project leaves every other project where a look-up finds it. */
  lemma WithoutProjectKeepsOthers(ps: seq<Project>, id: string, x: string)
    requires x != id
    ensures FindProject(WithoutProject(ps, id), x) == FindProject(ps, x)
  {
    var i := IndexOf(ProjectIds(ps), id);
    if i >= 0 {
      FindProjectSplice(ps, i, x);
    }
  }
}

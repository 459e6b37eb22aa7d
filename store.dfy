/** The client's session state: the project list, the chat history, the
    current chat and project, and what local storage holds. Each method is
    one handler of the page; a method that can hit the page's `TypeError`
    (reading the id of a missing current project) reports it with
    `ok == false`, keeping the changes made before the error. */
module Store {
  import opened Options
  import opened Session

  /** The id of a current project, if any; only read where the project is
      known to exist or the chat already exists. */
  function ProjectIdOf(p: Option<Project>): string {
    match p
    case Some(q) => q.id
    case None => ""
  }

  /** `saveChatMessage` as a value: the history afterwards, and whether the
      call got through. A missing chat is created under the current project;
      without one, creating fails before any change and appending fails after
      it. */
  function SaveOutcome(h: seq<Chat>, chatId: string, project: Option<Project>, msg: Message, now: string): (seq<Chat>, bool) {
    if project.Some? then (WithMessage(h, chatId, project.value.id, msg, now), true)
    else if FindChat(h, chatId).Some? then (WithMessage(h, chatId, "", msg, now), false)
    else (h, false)
  }

  /** `updateChatHistoryTitle` as a value: the history afterwards, and
      whether the call got through. A retitle fails, after the change, when
      there is no current project. */
  function RetitleOutcome(h: seq<Chat>, chatId: string, project: Option<Project>, message: string): (seq<Chat>, bool) {
    (Retitle(h, chatId, message), !(CanRetitle(h, chatId) && project.None?))
  }

  /** The chat can be opened: it exists and has messages. */
  predicate Loadable(h: seq<Chat>, chatId: string) {
    FindChat(h, chatId).Some? && |FindChat(h, chatId).value.messages| > 0
  }

  class SessionStore {
    var projects: seq<Project>
    var chatHistory: seq<Chat>
    var currentChatId: string
    var currentProject: Option<Project>
    /** The `projects` and `chatHistory` entries of local storage; `None`
        when the entry is absent. */
    var storedProjects: Option<seq<Project>>
    var storedHistory: Option<seq<Chat>>

    /** Storage holds what memory holds; an absent history entry stands for
        an empty history. */
    ghost predicate Valid()
      reads this
    {
      && storedProjects == Some(projects)
      && (storedHistory == Some(chatHistory) || (storedHistory.None? && chatHistory == []))
    }

    /** Start-up: the stored projects, or the default ones (stored back);
        the stored history, or none; a fresh chat id; and the home project
        shown if it exists. `None` stands for an entry that is absent or
        cannot be parsed. */
    constructor (savedProjects: Option<seq<Project>>, savedHistory: Option<seq<Chat>>, freshId: string)
      ensures Valid()
      ensures projects == if savedProjects.Some? then savedProjects.value else DefaultProjects
      ensures chatHistory == if savedHistory.Some? then savedHistory.value else []
      ensures currentChatId == freshId
      ensures currentProject == FindProject(projects, HomeProjectId)
    {
      projects := if savedProjects.Some? then savedProjects.value else DefaultProjects;
      storedProjects := Some(if savedProjects.Some? then savedProjects.value else DefaultProjects);
      chatHistory := if savedHistory.Some? then savedHistory.value else [];
      storedHistory := savedHistory;
      currentChatId := freshId;
      currentProject := FindProject(if savedProjects.Some? then savedProjects.value else DefaultProjects, HomeProjectId);
    }

    /** `displayProjectContent`: the project becomes current if it exists. */
    method DisplayProjectContent(projectId: string)
      modifies this
      ensures currentProject ==
        if FindProject(projects, projectId).Some? then FindProject(projects, projectId) else old(currentProject)
      ensures projects == old(projects) && chatHistory == old(chatHistory) && currentChatId == old(currentChatId)
      ensures storedProjects == old(storedProjects) && storedHistory == old(storedHistory)
    {
      var project := FindProject(projects, projectId);
      if project.Some? {
        currentProject := project;
      }
    }

    /** `startNewChat`: the project is shown and a fresh chat id is taken. */
    method StartNewChat(projectId: string, freshId: string)
      modifies this
      ensures currentProject ==
        if FindProject(projects, projectId).Some? then FindProject(projects, projectId) else old(currentProject)
      ensures currentChatId == freshId
      ensures projects == old(projects) && chatHistory == old(chatHistory)
      ensures storedProjects == old(storedProjects) && storedHistory == old(storedHistory)
    {
      DisplayProjectContent(projectId);
      currentChatId := freshId;
    }

    /** `saveChatMessage`: the message goes into the current chat, which is
        created under the current project if it does not exist yet. Without a
        current project, creating fails before anything changes and
        appending fails after the history is stored. */
    method SaveChatMessage(role: Role, content: string, now: string) returns (ok: bool)
      requires Valid()
      modifies this
      ensures Valid()
      ensures (chatHistory, ok) ==
        SaveOutcome(old(chatHistory), old(currentChatId), old(currentProject), Message(role, content), now)
      ensures projects == old(projects) && currentChatId == old(currentChatId) && currentProject == old(currentProject)
      ensures storedProjects == old(storedProjects)
    {
      var index := IndexOf(ChatIds(chatHistory), currentChatId);
      if index < 0 && currentProject.None? {
        return false;
      }
      chatHistory := WithMessage(chatHistory, currentChatId, ProjectIdOf(currentProject), Message(role, content), now);
      storedHistory := Some(chatHistory);
      ok := currentProject.Some?;
    }

    /** `updateChatHistoryTitle`: the current chat, while it holds at most
        two messages, is retitled after `message` and stored; the refresh
        that follows fails without a current project. */
    method UpdateChatHistoryTitle(message: string) returns (ok: bool)
      requires Valid()
      modifies this
      ensures Valid()
      ensures chatHistory == Retitle(old(chatHistory), currentChatId, message)
      ensures ok == !(CanRetitle(old(chatHistory), currentChatId) && currentProject.None?)
      ensures projects == old(projects) && currentChatId == old(currentChatId) && currentProject == old(currentProject)
      ensures storedProjects == old(storedProjects)
    {
      ok := true;
      if |chatHistory| == 0 {
        return;
      }
      if CanRetitle(chatHistory, currentChatId) {
        chatHistory := Retitle(chatHistory, currentChatId, message);
        storedHistory := Some(chatHistory);
        ok := currentProject.Some?;
      }
    }

    /** `loadChat`: a stored chat with messages becomes current. Its messages
        are replayed first, and every assistant message retitles the chat
        that is current during the replay — the previous one, not the one
        being loaded. Without a current project the first such retitle fails
        and the load stops there. The chat's project becomes current if it
        names one that exists. */
    method LoadChat(chatId: string) returns (ok: bool)
      requires Valid()
      modifies this
      ensures Valid()
      ensures projects == old(projects) && storedProjects == old(storedProjects)
      ensures chatId == old(currentChatId) || !Loadable(old(chatHistory), chatId) ==>
        && ok && chatHistory == old(chatHistory)
        && currentChatId == old(currentChatId) && currentProject == old(currentProject)
      ensures chatId != old(currentChatId) && Loadable(old(chatHistory), chatId) ==>
        var chat := FindChat(old(chatHistory), chatId).value;
        if old(currentProject).None? && CanRetitle(old(chatHistory), old(currentChatId)) && HasReply(chat.messages)
        then
          && !ok
          && chatHistory == Retitle(old(chatHistory), old(currentChatId), FirstReply(chat.messages).value)
          && currentChatId == old(currentChatId) && currentProject == old(currentProject)
        else
          && ok
          && chatHistory == ReplayTitles(old(chatHistory), old(currentChatId), chat.messages)
          && currentChatId == chatId
          && currentProject ==
               if chat.projectId != "" && FindProject(projects, chat.projectId).Some?
               then FindProject(projects, chat.projectId) else old(currentProject)
    {
      ok := true;
      if chatId == currentChatId {
        return;
      }
      var chat := FindChat(chatHistory, chatId);
      if chat.None? || |chat.value.messages| == 0 {
        return;
      }
      var msgs := chat.value.messages;
      ghost var h0 := chatHistory;
      var k := 0;
      while k < |msgs|
        invariant 0 <= k <= |msgs|
        invariant Valid()
        invariant chatHistory == ReplayTitles(h0, currentChatId, msgs[..k])
        invariant currentProject.None? && CanRetitle(h0, currentChatId) ==> !HasReply(msgs[..k])
        invariant projects == old(projects) && storedProjects == old(storedProjects)
        invariant currentChatId == old(currentChatId) && currentProject == old(currentProject)
      {
        ReplayStep(h0, currentChatId, msgs, k);
        ReplayKeepsOtherChats(h0, currentChatId, msgs[..k], chatId);
        if msgs[k].role == Assistant {
          var titled := UpdateChatHistoryTitle(msgs[k].content);
          if !titled {
            FirstReplyAt(msgs, k);
            ReplayIsLastRetitle(h0, currentChatId, msgs[..k]);
            return false;
          }
        }
        k := k + 1;
      }
      assert msgs[..k] == msgs;
      currentChatId := chatId;
      var projectId := chat.value.projectId;
      if projectId != "" {
        var project := FindProject(projects, projectId);
        if project.Some? {
          currentProject := project;
        }
      }
    }

    /** `deleteChat`: every chat with that id is removed and the rest stored;
        deleting the current chat starts a new one in the current project. */
    method DeleteChat(chatId: string, freshId: string)
      requires Valid()
      modifies this
      ensures Valid()
      ensures chatHistory == Without(old(chatHistory), ChatWithId(chatId))
      ensures projects == old(projects) && storedProjects == old(storedProjects)
      ensures chatId == old(currentChatId) && old(currentProject).Some? ==>
        && currentChatId == freshId
        && currentProject ==
             if FindProject(projects, old(currentProject).value.id).Some?
             then FindProject(projects, old(currentProject).value.id) else old(currentProject)
      ensures !(chatId == old(currentChatId) && old(currentProject).Some?) ==>
        currentChatId == old(currentChatId) && currentProject == old(currentProject)
    {
      chatHistory := Without(chatHistory, ChatWithId(chatId));
      storedHistory := Some(chatHistory);
      if chatId == currentChatId && currentProject.Some? {
        StartNewChat(currentProject.value.id, freshId);
      }
    }

    /** `clearChatHistory`: the history is emptied and its storage entry
        removed; a new chat starts in the current project, if any. */
    method ClearChatHistory(freshId: string)
      requires Valid()
      modifies this
      ensures Valid()
      ensures chatHistory == [] && storedHistory.None?
      ensures projects == old(projects) && storedProjects == old(storedProjects)
      ensures old(currentProject).Some? ==>
        && currentChatId == freshId
        && currentProject ==
             if FindProject(projects, old(currentProject).value.id).Some?
             then FindProject(projects, old(currentProject).value.id) else old(currentProject)
      ensures old(currentProject).None? ==>
        currentChatId == old(currentChatId) && currentProject == old(currentProject)
    {
      chatHistory := [];
      storedHistory := None;
      if currentProject.Some? {
        StartNewChat(currentProject.value.id, freshId);
      }
    }

    /** `saveProjectConfig`: the project is inserted or replaced and stored;
        if it is the current one, the saved version becomes current. */
    method SaveProjectConfig(form: ProjectForm)
      requires Valid()
      modifies this
      ensures Valid()
      ensures projects == Upsert(old(projects), form)
      ensures chatHistory == old(chatHistory) && currentChatId == old(currentChatId)
      ensures currentProject ==
        if old(currentProject).Some? && old(currentProject).value.id == form.id
        then Some(FormProject(form, KeptFiles(old(projects), form.id)))
        else old(currentProject)
    {
      projects := Upsert(projects, form);
      storedProjects := Some(projects);
      UpsertThenFind(old(projects), form);
      if currentProject.Some? && currentProject.value.id == form.id {
        DisplayProjectContent(form.id);
      }
    }

    /** `deleteProject`: the first project with that id is removed, and so
        is every chat of that project; both are stored. If it was the current
        project, the first remaining project, if any, becomes current. The
        current chat id is kept. */
    method DeleteProject(projectId: string)
      requires Valid()
      modifies this
      ensures Valid()
      ensures projects == WithoutProject(old(projects), projectId)
      ensures chatHistory == Without(old(chatHistory), ChatsOfProject(projectId))
      ensures currentChatId == old(currentChatId)
      ensures currentProject ==
        if old(currentProject).Some? && old(currentProject).value.id == projectId && |projects| > 0
        then Some(projects[0])
        else old(currentProject)
    {
      projects := WithoutProject(projects, projectId);
      storedProjects := Some(projects);
      chatHistory := Without(chatHistory, ChatsOfProject(projectId));
      storedHistory := Some(chatHistory);
      if currentProject.Some? && currentProject.value.id == projectId {
        if |projects| > 0 {
          assert IndexOf(ProjectIds(projects), projects[0].id) == 0;
          DisplayProjectContent(projects[0].id);
        }
      }
    }
  }
}

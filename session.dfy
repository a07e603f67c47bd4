/** The frontend session: the React state cells of the application component
    and the handlers and effects that update them.

    Every `await` splits a handler into steps, each a method of `AppState`:
    a Begin step runs up to the first request, a Settle step receives the
    network outcome (`None` for a failed fetch) and runs up to the next one.
    The handler's local variables (its captured closure) travel between the
    steps as a frame value. A request the code sends is returned as a
    `Request` value; no step waits for anything. */
module Session {
  import opened Wrappers
  import opened JsText

  /** Fixed user id the frontend sends with every exchange. */
  const UiUserId: string := "user_ui_1"
  /** Description sent for every project created from the sidebar. */
  const UiProjectDescription: string := "Created via UI"
  /** Longest chat title kept verbatim; longer ideas are cut and marked. */
  const TitleLimit: nat := 30
  const TruncationMarker: string := "..."

  /** `{project_id, name}` as the project list and creation endpoints return it. */
  datatype Project = Project(projectId: int, name: string)

  /** `{chat_id, title, idea}`; `title` may be null or absent. */
  datatype Chat = Chat(chatId: int, title: Option<string>, idea: string)

  /** A message of the list shown. Server messages carry a sequence number;
      the optimistic entry has none, a time-based id and a client timestamp. */
  datatype Message = Message(id: int, role: string, content: string, sequence: Option<int>, timestamp: string)

  /** The fields the frontend reads from the reply to `POST /chats/start`. */
  datatype StartReply = StartReply(chatId: int, title: Option<string>)

  /** The requests the frontend sends. */
  datatype Request =
    | ListProjects
    | CreateProject(name: string, description: string)
    | ListChats(projectId: int)
    | ListMessages(chatId: int)
    | StartChat(projectId: int, idea: string, userId: string, title: string)
    | PostMessage(chatId: int, content: string, userId: string)

  /** The locals of `handleSendMessage`: the captured text and the selection
      as it was when the handler was called. */
  datatype SendFrame = SendFrame(content: string, project: Option<Project>, chat: Option<Chat>)

  /** The locals of `handleCreateProject`: the name sent and the project list
      of the render the handler belongs to. */
  datatype CreateFrame = CreateFrame(name: string, projects: seq<Project>)

  /** The title sent when a chat is started: `content.substring(0, 30)`,
      followed by the marker when the content was longer. */
  function DeriveTitle(content: string): (t: string)
    ensures |t| <= TitleLimit + |TruncationMarker|
    ensures |content| <= TitleLimit ==> t == content
    ensures |content| > TitleLimit ==>
      |t| == TitleLimit + |TruncationMarker|
      && t[..TitleLimit] == content[..TitleLimit]
      && t[TitleLimit..] == TruncationMarker
  {
    var cut := if |content| < TitleLimit then |content| else TitleLimit;
    content[..cut] + (if |content| > TitleLimit then TruncationMarker else "")
  }

  /** Two ideas get the same title exactly when they are equal, both short,
      or both long with equal first 30 characters. */
  lemma DeriveTitleCollisions(a: string, b: string)
    ensures DeriveTitle(a) == DeriveTitle(b) <==>
      (|a| <= TitleLimit && |b| <= TitleLimit && a == b)
      || (|a| > TitleLimit && |b| > TitleLimit && a[..TitleLimit] == b[..TitleLimit])
  {
    var ta, tb := DeriveTitle(a), DeriveTitle(b);
    if |a| > TitleLimit && |b| > TitleLimit && ta == tb {
      assert ta[..TitleLimit] == tb[..TitleLimit];
    }
  }

  class AppState {
    var projects: seq<Project>
    var activeProject: Option<Project>
    var chats: seq<Chat>
    var activeChat: Option<Chat>
    var messages: seq<Message>
    var isLoading: bool
    var inputText: string
    var isCreatingProject: bool
    var newProjectName: string

    /** A chat is only ever selected inside a selected project: the chat list
        and the composer are shown only while a project is active, and no
        handler clears the active project. Every step preserves it; it is a
        documented invariant, and no contract derives anything from it. The
        steps the page offers only while a project is active (`SelectChat`,
        `NewSession`, `SettleStartChat`) state that as their own
        `activeProject.Some?` precondition, which `Valid()` does not imply. */
    ghost predicate Valid()
      reads this
    {
      activeChat.Some? ==> activeProject.Some?
    }

    /** The initial `useState` values. */
    constructor ()
      ensures Valid()
      ensures projects == [] && activeProject == None && chats == []
      ensures activeChat == None && messages == [] && !isLoading
      ensures inputText == "" && !isCreatingProject && newProjectName == ""
    {
      projects, activeProject, chats := [], None, [];
      activeChat, messages, isLoading := None, [], false;
      inputText, isCreatingProject, newProjectName := "", false, "";
    }

    /** The mount effect: `fetchProjects` is sent once, nothing changes yet. */
    method Mount() returns (req: Request)
      ensures req == ListProjects
    {
      req := ListProjects;
    }

    /** `fetchProjects` after its request settles: the list is replaced
        wholesale, or kept when the fetch failed. */
    method SettleFetchProjects(response: Option<seq<Project>>)
      requires Valid()
      modifies this`projects
      ensures Valid()
      ensures projects == if response.Some? then response.value else old(projects)
    {
      if response.Some? {
        projects := response.value;
      }
    }

    /** `fetchChats` after its request settles. Whatever project the request
        was for, a successful reply replaces the chat list. */
    method SettleFetchChats(response: Option<seq<Chat>>)
      requires Valid()
      modifies this`chats
      ensures Valid()
      ensures chats == if response.Some? then response.value else old(chats)
    {
      if response.Some? {
        chats := response.value;
      }
    }

    /** `fetchMessages(chatId)` up to its request: the busy flag goes up. */
    method BeginFetchMessages(chatId: int) returns (req: Request)
      requires Valid()
      modifies this`isLoading
      ensures Valid()
      ensures isLoading && req == ListMessages(chatId)
    {
      isLoading := true;
      req := ListMessages(chatId);
    }

    /** `fetchMessages` after its request settles: the list is replaced
        wholesale on success, kept on failure, and the `finally` lowers the
        busy flag either way. */
    method SettleFetchMessages(response: Option<seq<Message>>)
      requires Valid()
      modifies this`messages, this`isLoading
      ensures Valid()
      ensures !isLoading
      ensures messages == if response.Some? then response.value else old(messages)
    {
      if response.Some? {
        messages := response.value;
      }
      isLoading := false;
    }

    /** The project-change effect: for an active project it sends `fetchChats`
        and clears the chat selection and the message list; the chat-change
        effect it sets off does nothing for a null chat. */
    method ProjectChanged() returns (reqs: seq<Request>)
      requires Valid()
      modifies this`activeChat, this`messages
      ensures Valid()
      ensures activeProject.Some? ==>
        activeChat == None && messages == [] && reqs == [ListChats(activeProject.value.projectId)]
      ensures activeProject.None? ==>
        activeChat == old(activeChat) && messages == old(messages) && reqs == []
    {
      reqs := [];
      if activeProject.Some? {
        reqs := [ListChats(activeProject.value.projectId)];
        activeChat := None;
        messages := [];
      }
    }

    /** The chat-change effect: a non-null chat gets its messages fetched. */
    method ChatChanged() returns (reqs: seq<Request>)
      requires Valid()
      modifies this`isLoading
      ensures Valid()
      ensures activeChat.Some? ==> isLoading && reqs == [ListMessages(activeChat.value.chatId)]
      ensures activeChat.None? ==> isLoading == old(isLoading) && reqs == []
    {
      reqs := [];
      if activeChat.Some? {
        var req := BeginFetchMessages(activeChat.value.chatId);
        reqs := [req];
      }
    }

    /** Clicking a project in the sidebar. The project-change effect runs only
        when the selection actually changes. */
    method SelectProject(p: Project) returns (reqs: seq<Request>)
      requires Valid()
      modifies this`activeProject, this`activeChat, this`messages
      ensures Valid()
      ensures activeProject == Some(p)
      ensures old(activeProject) == Some(p) ==>
        activeChat == old(activeChat) && messages == old(messages) && reqs == []
      ensures old(activeProject) != Some(p) ==>
        activeChat == None && messages == [] && reqs == [ListChats(p.projectId)]
    {
      reqs := [];
      if activeProject != Some(p) {
        activeProject := Some(p);
        reqs := ProjectChanged();
      }
    }

    /** Clicking a chat of the active project's list. The chat-change effect
        runs only when the selection actually changes. */
    method SelectChat(c: Chat) returns (reqs: seq<Request>)
      requires Valid() && activeProject.Some?
      modifies this`activeChat, this`isLoading
      ensures Valid()
      ensures activeChat == Some(c)
      ensures old(activeChat) == Some(c) ==> isLoading == old(isLoading) && reqs == []
      ensures old(activeChat) != Some(c) ==> isLoading && reqs == [ListMessages(c.chatId)]
    {
      reqs := [];
      if activeChat != Some(c) {
        activeChat := Some(c);
        reqs := ChatChanged();
      }
    }

    /** The "New" button of an active project: clears the chat selection and
        the message list and sends nothing. */
    method NewSession()
      requires Valid() && activeProject.Some?
      modifies this`activeChat, this`messages
      ensures Valid()
      ensures activeChat == None && messages == []
    {
      activeChat := None;
      messages := [];
    }

    /** Typing in the composer. */
    method SetInputText(text: string)
      requires Valid()
      modifies this`inputText
      ensures Valid()
      ensures inputText == text
    {
      inputText := text;
    }

    /** The "+" button: opens or closes the project form. */
    method ToggleCreatingProject()
      requires Valid()
      modifies this`isCreatingProject
      ensures Valid()
      ensures isCreatingProject == !old(isCreatingProject)
    {
      isCreatingProject := !isCreatingProject;
    }

    /** Typing in the project form. */
    method SetNewProjectName(name: string)
      requires Valid()
      modifies this`newProjectName
      ensures Valid()
      ensures newProjectName == name
    {
      newProjectName := name;
    }

    /** The send button is enabled exactly when no request is marked busy and
        the composer holds a character other than whitespace. The Enter key
        calls the handler without this test. */
    function CanSend(): (enabled: bool)
      reads this
      ensures enabled <==>
        !isLoading && exists i :: 0 <= i < |inputText| && !IsWhitespace(inputText[i])
    {
      BlankIffAllWhitespace(inputText);
      !(isLoading || IsBlank(inputText))
    }

    /** `handleCreateProject` up to its request. A blank name sends nothing;
        otherwise the name is sent untrimmed. */
    method BeginCreateProject() returns (frame: Option<CreateFrame>, req: Option<Request>)
      requires Valid()
      ensures IsBlank(newProjectName) ==> frame == None && req == None
      ensures !IsBlank(newProjectName) ==>
        frame == Some(CreateFrame(newProjectName, projects))
        && req == Some(CreateProject(newProjectName, UiProjectDescription))
    {
      if IsBlank(newProjectName) {
        return None, None;
      }
      frame := Some(CreateFrame(newProjectName, projects));
      req := Some(CreateProject(newProjectName, UiProjectDescription));
    }

    /** `handleCreateProject` after its request settles. On success the new
        project is appended to the list the handler captured, the form is
        cleared and closed, and the new project is selected; being a new
        object, it always sets off the project-change effect. On failure
        nothing changes and the form stays open. */
    method SettleCreateProject(frame: CreateFrame, response: Option<Project>) returns (reqs: seq<Request>)
      requires Valid()
      modifies this`projects, this`newProjectName, this`isCreatingProject
      modifies this`activeProject, this`activeChat, this`messages
      ensures Valid()
      ensures response.None? ==>
        && projects == old(projects) && newProjectName == old(newProjectName)
        && isCreatingProject == old(isCreatingProject) && activeProject == old(activeProject)
        && activeChat == old(activeChat) && messages == old(messages) && reqs == []
      ensures response.Some? ==>
        && projects == frame.projects + [response.value]
        && newProjectName == "" && !isCreatingProject
        && activeProject == Some(response.value)
        && activeChat == None && messages == []
        && reqs == [ListChats(response.value.projectId)]
    {
      reqs := [];
      if response.Some? {
        projects := frame.projects + [response.value];
        newProjectName := "";
        isCreatingProject := false;
        activeProject := Some(response.value);
        reqs := ProjectChanged();
      }
    }

    /** `handleSendMessage` up to the path choice. Blank text changes nothing
        and sends nothing. Otherwise the text is captured, the composer is
        cleared and the busy flag goes up before any request. Nothing checks
        the busy flag here. */
    method BeginSendMessage() returns (frame: Option<SendFrame>)
      requires Valid()
      modifies this`inputText, this`isLoading
      ensures Valid()
      ensures IsBlank(old(inputText)) ==>
        frame == None && inputText == old(inputText) && isLoading == old(isLoading)
      ensures !IsBlank(old(inputText)) ==>
        && frame == Some(SendFrame(old(inputText), activeProject, activeChat))
        && inputText == "" && isLoading
    {
      if IsBlank(inputText) {
        return None;
      }
      frame := Some(SendFrame(inputText, activeProject, activeChat));
      inputText := "";
      isLoading := true;
    }

    /** The new-session path up to `POST /chats/start`. Without an active
        project the handler returns early and sends nothing; its `finally`
        (`FinishSendMessage`) still runs. */
    method StartNewChat(frame: SendFrame) returns (req: Option<Request>)
      requires frame.chat.None?
      ensures frame.project.None? ==> req == None
      ensures frame.project.Some? ==>
        req == Some(StartChat(frame.project.value.projectId, frame.content, UiUserId, DeriveTitle(frame.content)))
    {
      if frame.project.None? {
        return None;
      }
      req := Some(StartChat(frame.project.value.projectId, frame.content, UiUserId, DeriveTitle(frame.content)));
    }

    /** The new-session path after `POST /chats/start` settles. On success:
        `fetchChats` for the captured project is sent and not awaited, the new
        chat (the captured text as its idea) becomes active, the awaited
        `fetchMessages` is sent, and the chat-change effect sends a second
        `fetchMessages` for the same chat. On failure the `catch` changes no
        state. The awaited fetch settles through `SettleFetchMessages`. */
    method SettleStartChat(frame: SendFrame, reply: Option<StartReply>) returns (reqs: seq<Request>)
      requires Valid() && activeProject.Some?
      requires frame.chat.None? && frame.project.Some?
      modifies this`activeChat, this`isLoading
      ensures Valid()
      ensures reply.None? ==>
        activeChat == old(activeChat) && isLoading == old(isLoading) && reqs == []
      ensures reply.Some? ==>
        && activeChat == Some(Chat(reply.value.chatId, reply.value.title, frame.content))
        && isLoading
        && reqs == [ListChats(frame.project.value.projectId),
                    ListMessages(reply.value.chatId), ListMessages(reply.value.chatId)]
    {
      reqs := [];
      if reply.Some? {
        var created := Chat(reply.value.chatId, reply.value.title, frame.content);
        activeChat := Some(created);
        var awaited := BeginFetchMessages(created.chatId);
        var effect := ChatChanged();
        reqs := [ListChats(frame.project.value.projectId), awaited] + effect;
      }
    }

    /** The continuation path up to `POST /chats/{id}/message`: the optimistic
        user message is appended to the current list before the request. */
    method ContinueChat(frame: SendFrame, tempId: int, timestamp: string) returns (req: Request)
      requires Valid() && frame.chat.Some?
      modifies this`messages
      ensures Valid()
      ensures messages == old(messages) + [Message(tempId, "user", frame.content, None, timestamp)]
      ensures req == PostMessage(frame.chat.value.chatId, frame.content, UiUserId)
    {
      messages := messages + [Message(tempId, "user", frame.content, None, timestamp)];
      req := PostMessage(frame.chat.value.chatId, frame.content, UiUserId);
    }

    /** The continuation path after the POST settles. Whatever the reply says,
        a delivered request is followed by the awaited `fetchMessages` for the
        captured chat; a network failure goes to `catch` and leaves the
        optimistic entry in place. */
    method SettleContinueChat(frame: SendFrame, delivered: bool) returns (req: Option<Request>)
      requires Valid() && frame.chat.Some?
      modifies this`isLoading
      ensures Valid()
      ensures delivered ==> isLoading && req == Some(ListMessages(frame.chat.value.chatId))
      ensures !delivered ==> isLoading == old(isLoading) && req == None
    {
      req := None;
      if delivered {
        var r := BeginFetchMessages(frame.chat.value.chatId);
        req := Some(r);
      }
    }

    /** The `finally` of `handleSendMessage`, reached on success, error and
        the early return alike. */
    method FinishSendMessage()
      requires Valid()
      modifies this`isLoading
      ensures Valid()
      ensures !isLoading
    {
      isLoading := false;
    }
  }

  /** `handleSendMessage` run from start to finish with no other event in
      between, given the outcome of each network step it awaits. The second
      `fetchMessages` the chat-change effect sends on the new-session path is
      left outstanding. */
  method SendMessageUninterrupted(
    app: AppState, startReply: Option<StartReply>, delivered: bool,
    refetched: Option<seq<Message>>, tempId: int, timestamp: string)
    returns (reqs: seq<Request>)
    requires app.Valid()
    modifies app`inputText, app`isLoading, app`activeChat, app`messages
    ensures app.Valid()
    ensures IsBlank(old(app.inputText)) ==>
      && reqs == [] && app.inputText == old(app.inputText) && app.isLoading == old(app.isLoading)
      && app.activeChat == old(app.activeChat) && app.messages == old(app.messages)
    ensures !IsBlank(old(app.inputText)) ==> app.inputText == "" && !app.isLoading
    ensures !IsBlank(old(app.inputText)) && old(app.activeChat).None? && old(app.activeProject).None? ==>
      reqs == [] && app.activeChat == None && app.messages == old(app.messages)
    ensures !IsBlank(old(app.inputText)) && old(app.activeChat).None? && old(app.activeProject).Some? ==>
      |reqs| >= 1 && reqs[0].StartChat? && reqs[0].idea == old(app.inputText)
      && reqs[0].title == DeriveTitle(old(app.inputText))
      && (startReply.Some? ==>
            && app.activeChat == Some(Chat(startReply.value.chatId, startReply.value.title, old(app.inputText)))
            && app.messages == (if refetched.Some? then refetched.value else old(app.messages)))
      && (startReply.None? ==> reqs == reqs[..1] && app.activeChat == None && app.messages == old(app.messages))
    ensures !IsBlank(old(app.inputText)) && old(app.activeChat).Some? ==>
      && |reqs| >= 1
      && reqs[0] == PostMessage(old(app.activeChat).value.chatId, old(app.inputText), UiUserId)
      && app.activeChat == old(app.activeChat)
      && app.messages ==
           if delivered && refetched.Some? then refetched.value
           else old(app.messages) + [Message(tempId, "user", old(app.inputText), None, timestamp)]
  {
    reqs := [];
    var frame := app.BeginSendMessage();
    if frame.None? {
      return;
    }
    var f := frame.value;
    if f.chat.None? {
      var start := app.StartNewChat(f);
      if start.Some? {
        reqs := [start.value];
        var more := app.SettleStartChat(f, startReply);
        reqs := reqs + more;
        if startReply.Some? {
          app.SettleFetchMessages(refetched);
        }
      }
    } else {
      var post := app.ContinueChat(f, tempId, timestamp);
      reqs := [post];
      var refetch := app.SettleContinueChat(f, delivered);
      if refetch.Some? {
        reqs := reqs + [refetch.value];
        app.SettleFetchMessages(refetched);
      }
    }
    app.FinishSendMessage();
  }
}

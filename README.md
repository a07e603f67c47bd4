# Brainstormer: frontend session and agent pipeline

This project models two parts of the Brainstormer application in Dafny and proves properties of them.

**The frontend session** (`debate-frontend/src/App.jsx`). The React component's nine state cells are the fields of the class `Session.AppState`. Each handler and effect is a method of that class.
- An `async` handler is split at each `await`:
  - a Begin step runs up to the request;
  - a Settle step receives the network outcome as an `Option` (`None` is a failed fetch) and runs up to the next request.
- The handler's locals, i.e. its captured closure, are passed between steps as a frame value.
- A request the code sends is returned as a `Request` value.
- `Session.SendMessageUninterrupted` chains the steps of `handleSendMessage` for one uninterrupted run.
- Helpers:
  - the title expression (`Session.DeriveTitle`);
  - `getColors` and `getIcon` (module `Avatar`), over an exact model of JavaScript's `trim`, ASCII `toLowerCase` and `includes` (module `JsText`).

**The agent pipeline** (`backend/app/agents.py`, `run_agent_sequence`).
- `call_openai` is a function parameter `llm` from (system prompt, user prompt) to the reply.
- The message table is the class `Store.MessageStore`, whose only update is an append.
- `AgentRole` is a datatype whose member `Value()` is the enum's string.
- Each prompt-building f-string is a template of literal parts, idea placeholders and lookups of earlier outputs (`Agents.Piece`).
- The run is defined for any step table. Its properties are proved generically:
  - sequence numbers;
  - the rows appended;
  - the returned map.
- The six-agent table, `Agents.AgentSteps`, is shown to satisfy the generic lemmas' preconditions: its templates read only earlier steps, and no agent appears twice.

Behaviour of the code that the model keeps as it is:
- No handler rejects a stale response. There is no generation counter, and a late reply replaces the list whatever selection is now current (`SettleFetchChats`, `SettleFetchMessages`).
- `handleSendMessage` does not check `isLoading`. The only guard against a double submit is the disabled send button (`CanSend`), and the Enter key calls the handler without it.
- On the new-session path two `fetchMessages` requests go out for the new chat: the awaited one, and the one the chat-change effect sends.
- The handler reads `title` from the reply to `POST /chats/start`, but the backend's reply has no title. The model keeps it as an `Option`.

## Model

| member | source | states |
|---|---|---|
| JsText.TrimStart | debate-frontend/src/App.jsx:121 | the leading-whitespace trim returns a suffix of the input that does not start with whitespace, and every dropped character is whitespace |
| JsText.TrimEnd | debate-frontend/src/App.jsx:121 | the trailing-whitespace trim returns a prefix that does not end with whitespace, and every dropped character is whitespace |
| JsText.BlankIffAllWhitespace | debate-frontend/src/App.jsx:103 | `!s.trim()` holds exactly when every character of `s` is ECMAScript whitespace |
| JsText.LowerChar | debate-frontend/src/App.jsx:21 | `toLowerCase` on one character: A–Z move to a–z, every other character is kept |
| JsText.Lower | debate-frontend/src/App.jsx:21 | lower-casing keeps the length and lower-cases each position |
| JsText.LowerIdempotent | debate-frontend/src/App.jsx:21 | lower-casing twice gives the same as once |
| JsText.Trim | debate-frontend/src/App.jsx:121 | `s.trim()`: `TrimEnd` after `TrimStart`, whose contracts fix both ends |
| JsText.IsBlank | debate-frontend/src/App.jsx:103 | the test `!s.trim()`, characterised by `JsText.BlankIffAllWhitespace` (used at lines 103, 121 and 410) |
| JsText.Includes | debate-frontend/src/App.jsx:23-25 | `includes` as a left-to-right scan of start positions, characterised by `JsText.IncludesIff` |
| JsText.IncludesIff | debate-frontend/src/App.jsx:23-25 | the left-to-right scan `includes` is true exactly when some window of the string equals the substring |
| Avatar.GetColors | debate-frontend/src/App.jsx:20-27 | the rule chain of `getColors`, whose full table is stated by `Avatar.GetColorsRules` and `Avatar.GetColorsIgnoresCase` |
| Avatar.GetColorsRules | debate-frontend/src/App.jsx:20-27 | each colour scheme is chosen exactly when its rule matches the lower-cased role and no earlier rule does ("user", then "critic", then "planner"/"architect", then "coder"/"developer", then the default) |
| Avatar.GetColorsIgnoresCase | debate-frontend/src/App.jsx:21 | a role and its lower-cased form get the same scheme |
| Avatar.GetIcon | debate-frontend/src/App.jsx:29-33 | the person icon is chosen exactly when the colour rule picks the user scheme, i.e. the lower-cased role is "user" |
| Session.DeriveTitle | debate-frontend/src/App.jsx:140 | the title has at most 33 characters; content of at most 30 characters is used verbatim; longer content gives its first 30 characters followed by "..." |
| Session.DeriveTitleCollisions | debate-frontend/src/App.jsx:140 | two ideas get the same title exactly when both are short and equal, or both are long and agree on their first 30 characters |
| Session.AppState.constructor | debate-frontend/src/App.jsx:44-54 | the initial state: empty lists, nothing selected, not loading, empty composer and closed, empty project form |
| Session.AppState.Mount | debate-frontend/src/App.jsx:177-179 | mounting sends the project-list request |
| Session.AppState.SettleFetchProjects | debate-frontend/src/App.jsx:68-77 | a successful reply replaces the project list wholesale; a failed fetch leaves it unchanged |
| Session.AppState.SettleFetchChats | debate-frontend/src/App.jsx:79-87 | a successful reply replaces the chat list wholesale; a failure leaves it unchanged |
| Session.AppState.BeginFetchMessages | debate-frontend/src/App.jsx:89-92 | the busy flag goes up and the message-list request for the chat is sent |
| Session.AppState.SettleFetchMessages | debate-frontend/src/App.jsx:93-99 | success replaces the message list wholesale, failure keeps it, and the busy flag is down afterwards either way |
| Session.AppState.ProjectChanged | debate-frontend/src/App.jsx:182-188 | with an active project: the chat list of that project is requested and the chat selection and messages are cleared; with none, nothing happens |
| Session.AppState.ChatChanged | debate-frontend/src/App.jsx:191-195 | a non-null active chat gets its messages requested and the busy flag raised; a null chat sends nothing |
| Session.AppState.SelectProject | debate-frontend/src/App.jsx:243 | the clicked project becomes active; if that changes the selection, the chat selection and messages are cleared and its chats are requested, otherwise nothing else changes |
| Session.AppState.SelectChat | debate-frontend/src/App.jsx:285 | the clicked chat becomes active; if that changes the selection its messages are requested, otherwise nothing is sent |
| Session.AppState.NewSession | debate-frontend/src/App.jsx:268 | the chat selection and the message list are cleared, with no request |
| Session.AppState.SetInputText | debate-frontend/src/App.jsx:397 | the composer holds the typed text |
| Session.AppState.ToggleCreatingProject | debate-frontend/src/App.jsx:215 | the project form flips between open and closed |
| Session.AppState.SetNewProjectName | debate-frontend/src/App.jsx:230 | the project form holds the typed name |
| Session.AppState.CanSend | debate-frontend/src/App.jsx:410 | the send button is enabled exactly when nothing is loading and the composer has a non-whitespace character |
| Session.AppState.BeginCreateProject | debate-frontend/src/App.jsx:102-109 | a blank name sends nothing; otherwise the untrimmed name is sent with the fixed description, and the current project list is captured |
| Session.AppState.SettleCreateProject | debate-frontend/src/App.jsx:110-117 | on success the new project is appended to the captured list and selected, its chats are requested, the chat selection and messages are cleared, and the form is emptied and closed; on failure nothing changes |
| Session.AppState.BeginSendMessage | debate-frontend/src/App.jsx:120-124 | blank text changes nothing; otherwise the text and selection are captured, the composer is cleared and the busy flag goes up before any request |
| Session.AppState.StartNewChat | debate-frontend/src/App.jsx:130-142 | with no active project nothing is sent; otherwise the start request carries the project, the captured text as idea, the fixed user id and the derived title |
| Session.AppState.SettleStartChat | debate-frontend/src/App.jsx:143-146 | on success: the chats of the captured project are requested, the new chat with the returned id and the captured idea becomes active, and its messages are requested twice; on failure nothing changes |
| Session.AppState.ContinueChat | debate-frontend/src/App.jsx:150-165 | a user message with no sequence number and the captured text is appended after the unchanged earlier messages, and the POST carries the captured text and the fixed user id to the captured chat |
| Session.AppState.SettleContinueChat | debate-frontend/src/App.jsx:166-170 | a delivered request is followed by the message-list request for the captured chat, whatever the reply; a failure sends nothing more |
| Session.AppState.FinishSendMessage | debate-frontend/src/App.jsx:171-173 | the `finally` lowers the busy flag |
| Session.SendMessageUninterrupted | debate-frontend/src/App.jsx:120-174 | across a whole run: blank text is a no-op; otherwise the composer ends empty and the busy flag down on every path, including the early return with no project. The new-session path installs the new chat and the fetched list. The continuation path ends with the refetched list, or with the optimistic entry when the POST or the refetch failed |
| Models.AgentRole.Value | backend/app/models.py:8-15 | the enum member's string; `Models.RoleOfValue` and `Models.ValueInjective` show no two members share one |
| Models.RoleOf | backend/app/models.py:8-15 | looking up an enum member by its value finds the member with that value, or none when no member has it |
| Models.RoleOfValue | backend/app/models.py:8-15 | looking up a member's own value gives the member back |
| Models.ValueInjective | backend/app/models.py:8-15 | distinct members have distinct values, so output keys never collide |
| Store.MessageStore.AddMessage | backend/app/crud.py:31-35 | adding a message appends it and leaves every existing row unchanged |
| Store.SequencesOf | backend/app/agents.py:53 | the sequence numbers collected are exactly those of the chat's rows |
| Agents.ReadsFromLookups | backend/app/agents.py:62-90 | the keys collected from a template position onward are exactly the keys looked up from there on |
| Agents.Lookup | backend/app/agents.py:67 | a present key yields its stored output |
| Agents.Render | backend/app/agents.py:62-90 | the f-string of a template; `Agents.RenderReadsOnly` shows it depends only on the keys the template reads |
| Agents.RenderReadsOnly | backend/app/agents.py:62-90 | a prompt depends on the outputs only through the keys its template reads |
| Agents.Outputs | backend/app/agents.py:94-97 | the `outputs` dict after n iterations; its keys are stated by `Agents.OutputsKeys` and its entries by `Agents.OutputsHoldReplies` |
| Agents.OutputsKeys | backend/app/agents.py:56-97 | after n steps the outputs hold exactly the keys of those n steps |
| Agents.RunFindsKeys | backend/app/agents.py:95 | in a table whose templates read only earlier steps, every lookup a step makes finds its key, so `KeyError` cannot occur |
| Agents.PersistedRecords | backend/app/agents.py:94-99 | one row per step, row j being the one step j appends |
| Agents.MaxOr | backend/app/agents.py:54 | `max(xs, default=d)`: the default for an empty list, otherwise an element of the list no smaller than any other |
| Agents.StartSequence | backend/app/agents.py:53-54 | `max(existing sequences, default=0) + 1`, over `Store.SequencesOf` and `Agents.MaxOr`; `Agents.StartSequenceIsFresh` states what it guarantees |
| Agents.StartSequenceIsFresh | backend/app/agents.py:53-54 | the start number is above every sequence number the chat already has, and is 1 for a chat with no messages |
| Agents.PersistedRowsFresh | backend/app/agents.py:35-99 | the appended rows carry the chat id, the caller's user id and their step's agent; their numbers are consecutive from the start, strictly increasing, above every earlier number of the chat, and 1, 2, … in an empty chat |
| Agents.OutputsStep | backend/app/agents.py:95-97 | one iteration stores the step's reply under its agent's value |
| Agents.OutputsHoldReplies | backend/app/agents.py:97 | with no agent repeated, every step done so far has its own reply under its key; a later step never overwrites it |
| Agents.OutputsMatchPersisted | backend/app/agents.py:96-101 | the returned map holds, under each stored row's agent value, that row's content |
| Agents.AgentStepsInOrder | backend/app/agents.py:58-92 | the table has six steps, for optimist, pessimist, planner, critic, developer and mentor in that order, with no agent twice |
| Agents.AgentReads | backend/app/agents.py:62-90 | the optimist reads nothing, the pessimist the optimist, the planner both of them, and the critic, developer and mentor each the step before |
| Agents.AgentKeysBefore | backend/app/agents.py:58-97 | the keys already written when each step of the table runs |
| Agents.AgentReadsEarlier | backend/app/agents.py:58-95 | every template of the six-agent table reads only outputs of earlier steps |
| Agents.AgentOutputKeys | backend/app/agents.py:56-101 | the returned map has exactly the six agent values as keys |
| Agents.AgentRunRows | backend/app/agents.py:46-101 | a run appends six rows in agent order with consecutive numbers from the start number, each with the chat id and user id, and each row's content is the map's entry for its agent |
| Agents.PersistMessage | backend/app/agents.py:27-43 | one row is appended with the chat's id, the user id as sender, and the given role, content and sequence number |
| Agents.RunSteps | backend/app/agents.py:94-101 | the loop leaves the earlier rows unchanged, appends exactly the step rows numbered from the start number, and returns the outputs of all steps |
| Agents.RunAgentSequence | backend/app/agents.py:46-101 | `run_agent_sequence` is the run of the six-agent table, whose templates only read earlier steps |

## Left out
- JSX markup, layout, CSS class strings and icon components (debate-frontend/src/App.jsx:198-427). Colours and icons are enums.
- Scroll-to-bottom (debate-frontend/src/App.jsx:58-64). It is presentation only.
- Transport details are left out. `fetch` and `res.json()` become an `Option` outcome or a `delivered` flag. `alert` and `console.error` have no state effect.
- `res.ok` in `fetchProjects` is not modelled separately. A non-ok reply is one more way to get the `None` outcome.
- `Date.now()` and `toISOString()` become the parameters `tempId` and `timestamp`.
- Interleavings of async steps are not explored. Each step is a separate method; any call order can be composed, but only the uninterrupted send is proved as a whole (`Session.SendMessageUninterrupted`).
- The second `fetchMessages` of the new-session path is left outstanding in `SendMessageUninterrupted`.
- SelectProject, SelectChat: React compares the new selection with the old by object identity; the model compares values. A re-fetched object equal in value to the current selection would fire the effect in React but not here. The exception is the project created by `SettleCreateProject`, which the model always treats as a change.
- JsText.LowerChar: `toLowerCase` is modelled on ASCII letters only; non-ASCII case mappings are left out.
- Session.DeriveTitle: lengths count Dafny characters, where JavaScript counts UTF-16 code units. The two differ only for characters outside the Basic Multilingual Plane.
- Agents.RunSteps, Agents.RunAgentSequence: a failing model call is not modelled. `llm` is total, but `call_openai` can raise at backend/app/agents.py:96; the loop then stops after k < 6 iterations, with those k rows already committed by `add_message` (backend/app/crud.py:33). Concurrent runs are not modelled either. The start number is read with no lock (backend/app/agents.py:53-54), so two runs on one chat, for example from a double submit, can write the same sequence numbers. The promises of six rows and of numbers above every earlier one hold only for a run that completes and is alone on the store.
- `call_openai` (backend/app/agents.py:15-24) is the uninterpreted parameter `llm`. Its nondeterminism, the OpenAI client and the `.strip()` of the reply are not modelled.
- Agents.Lookup: a missing key yields the empty text, where Python raises `KeyError`. `Agents.RunFindsKeys` and `Agents.AgentReadsEarlier` show the six-agent run never looks one up.
- The database session, commit and refresh (backend/app/crud.py, backend/app/db.py) are not modelled; the store is a sequence that only grows.
- `message_id` and `created_at` are assigned by the database and the clock and are not fields of `MessageRecord`.
- `ChatSession.chat_id` is nullable in Python; the model assumes a persisted chat with an integer id.
- backend/app/main.py is not part of this model: routing, CORS, the request and reply shapes, and its user-message insert.

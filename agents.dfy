/** The agent pipeline: six model calls in a fixed order, each prompt built
    from the idea and the replies of earlier steps, each reply stored as a
    message with the next sequence number of the chat.

    The model call `call_openai` is the parameter `llm`, a function from
    (system prompt, user prompt) to the reply text. The prompt builders are
    f-strings; each is written here as a template, the list of its literal
    parts, idea placeholders and lookups of earlier outputs. The run is
    defined and proved for any step table whose templates look up only keys
    of earlier steps; the six-agent table is one such table. */
module Agents {
  import opened Wrappers
  import opened Models
  import opened Store

  type Llm = (string, string) -> string

  /** One part of a prompt template. */
  datatype Piece = Text(text: string) | IdeaText | OutputOf(key: string)

  /** One row of the step table: the agent, its system prompt and its prompt template. */
  datatype Step = Step(role: AgentRole, systemPrompt: string, prompt: seq<Piece>)

  /** The output keys a template looks up (`ReadsFromLookups` at position 0
      shows these are exactly the keys of its lookups). */
  function ReadsOf(t: seq<Piece>): set<string> {
    ReadsFrom(t, 0)
  }

  /** The output keys the lookups at positions `i` and later look up. */
  function ReadsFrom(t: seq<Piece>, i: nat): set<string>
    requires i <= |t|
    decreases |t| - i
  {
    if i == |t| then {}
    else (if t[i].OutputOf? then {t[i].key} else {}) + ReadsFrom(t, i + 1)
  }

  /** `ReadsFrom` collects exactly the keys of the lookups at `i` and later. */
  lemma {:induction false} ReadsFromLookups(t: seq<Piece>, i: nat)
    requires i <= |t|
    ensures forall j :: i <= j < |t| && t[j].OutputOf? ==> t[j].key in ReadsFrom(t, i)
    ensures forall key :: key in ReadsFrom(t, i) ==> exists j :: i <= j < |t| && t[j] == OutputOf(key)
    decreases |t| - i
  {
    if i < |t| {
      ReadsFromLookups(t, i + 1);
    }
  }

  /** The stored output under `key`, as `o[key]` reads it when the key is
      present. Python raises `KeyError` for a missing key; the empty text
      stands in for it, and `RunFindsKeys` shows a table
      whose templates read only earlier steps never reaches that case. */
  function Lookup(o: map<string, string>, key: string): (r: string)
    ensures key in o ==> r == o[key]
  {
    if key in o then o[key] else ""
  }

  /** The f-string: its parts in order, each lookup the stored output. */
  function Render(t: seq<Piece>, idea: string, o: map<string, string>): string {
    if t == [] then ""
    else
      var head := match t[0]
        case Text(s) => s
        case IdeaText => idea
        case OutputOf(key) => Lookup(o, key);
      head + Render(t[1..], idea, o)
  }

  /** A prompt depends on the outputs only through the keys its template reads. */
  lemma {:induction false} RenderReadsOnly(t: seq<Piece>, idea: string, o1: map<string, string>, o2: map<string, string>)
    requires forall key :: key in ReadsOf(t) ==> Lookup(o1, key) == Lookup(o2, key)
    ensures Render(t, idea, o1) == Render(t, idea, o2)
  {
    if t != [] {
      ReadsFromLookups(t, 0);
      ReadsFromLookups(t[1..], 0);
      assert forall i :: 1 <= i < |t| ==> t[1..][i - 1] == t[i];
      RenderReadsOnly(t[1..], idea, o1, o2);
    }
  }

  /** The output key a step writes: its agent's value. */
  function KeyOf(s: Step): string {
    s.role.Value()
  }

  /** The keys written by the first `k` steps of a table. */
  function KeysBefore(steps: seq<Step>, k: nat): set<string>
    requires k <= |steps|
  {
    if k == 0 then {} else KeysBefore(steps, k - 1) + {KeyOf(steps[k - 1])}
  }

  /** Every template looks up only keys of the steps before it, so running
      the table in order never looks up a missing key. */
  ghost predicate ReadsEarlier(steps: seq<Step>) {
    forall k {:trigger KeysBefore(steps, k)} :: 0 <= k < |steps| ==> ReadsOf(steps[k].prompt) <= KeysBefore(steps, k)
  }

  lemma ReadsEarlierAt(steps: seq<Step>, k: nat)
    requires ReadsEarlier(steps) && k < |steps|
    ensures ReadsOf(steps[k].prompt) <= KeysBefore(steps, k)
  {
  }

  /** In a run of a table whose templates read only earlier steps, every
      lookup finds its key: Python's `KeyError` cannot occur. */
  lemma RunFindsKeys(steps: seq<Step>, idea: string, llm: Llm, k: nat)
    requires ReadsEarlier(steps) && k < |steps|
    ensures forall key :: key in ReadsOf(steps[k].prompt) ==> key in Outputs(steps, idea, llm, k)
  {
    ReadsEarlierAt(steps, k);
    OutputsKeys(steps, idea, llm, k);
  }

  /** No agent appears twice in the table. */
  ghost predicate DistinctRoles(steps: seq<Step>) {
    forall i, j :: 0 <= i < j < |steps| ==> steps[i].role != steps[j].role
  }

  /** The reply of step `k` when the outputs so far are `o`: the model called
      with the step's system prompt and its template rendered on `o`. */
  function StepReply(steps: seq<Step>, idea: string, llm: Llm, k: nat, o: map<string, string>): string
    requires k < |steps|
  {
    llm(steps[k].systemPrompt, Render(steps[k].prompt, idea, o))
  }

  /** The outputs after the first `n` steps, each reply stored under its step's key. */
  function Outputs(steps: seq<Step>, idea: string, llm: Llm, n: nat): map<string, string>
    requires n <= |steps|
  {
    if n == 0 then map[]
    else
      var prev := Outputs(steps, idea, llm, n - 1);
      prev[KeyOf(steps[n - 1]) := StepReply(steps, idea, llm, n - 1, prev)]
  }

  /** After `n` steps the outputs hold exactly the keys of those steps. */
  lemma {:induction false} OutputsKeys(steps: seq<Step>, idea: string, llm: Llm, n: nat)
    requires n <= |steps|
    ensures Outputs(steps, idea, llm, n).Keys == KeysBefore(steps, n)
  {
    if n > 0 {
      OutputsKeys(steps, idea, llm, n - 1);
    }
  }

  /** The reply of step `k` within a run of the table. */
  function Reply(steps: seq<Step>, idea: string, llm: Llm, k: nat): string
    requires k < |steps|
  {
    StepReply(steps, idea, llm, k, Outputs(steps, idea, llm, k))
  }

  /** The row step `j` of a run appends, given the run's first sequence number. */
  function PersistedRecord(
    chat: ChatSession, userId: Option<int>, steps: seq<Step>, idea: string, llm: Llm, start: int, j: nat): MessageRecord
    requires j < |steps|
  {
    MessageRecord(chat.chatId, userId, steps[j].role, Reply(steps, idea, llm, j), start + j)
  }

  /** The rows one run of the table appends, in closed form: row `j` is the
      one step `j` appends. What the rows hold is stated by
      `PersistedRowsFresh`, `OutputsMatchPersisted` and `AgentRunRows`. */
  function PersistedRecords(
    chat: ChatSession, userId: Option<int>, steps: seq<Step>, idea: string, llm: Llm, start: int): (rs: seq<MessageRecord>)
    ensures |rs| == |steps|
    ensures forall j :: 0 <= j < |steps| ==> rs[j] == PersistedRecord(chat, userId, steps, idea, llm, start, j)
  {
    seq(|steps|, j requires 0 <= j < |steps| => PersistedRecord(chat, userId, steps, idea, llm, start, j))
  }

  /** Python's `max(xs, default=d)`: the default for an empty list, the
      largest element otherwise. */
  function MaxOr(xs: seq<int>, d: int): (m: int)
    ensures xs == [] ==> m == d
    ensures xs != [] ==> m in xs && forall x :: x in xs ==> x <= m
  {
    if xs == [] then d
    else if |xs| == 1 then xs[0]
    else
      var rest := MaxOr(xs[1..], d);
      assert forall x :: x in xs ==> x == xs[0] || x in xs[1..];
      if xs[0] >= rest then xs[0] else rest
  }

  /** The first sequence number of a run: one past the largest of the chat. */
  function StartSequence(records: seq<MessageRecord>, chatId: int): int {
    MaxOr(SequencesOf(records, chatId), 0) + 1
  }

  /** The first number is above every number already used in the chat, and
      is 1 in a chat with no messages. */
  lemma StartSequenceIsFresh(records: seq<MessageRecord>, chatId: int)
    ensures forall i :: 0 <= i < |records| && records[i].chatId == chatId ==>
      records[i].sequence < StartSequence(records, chatId)
    ensures (forall i :: 0 <= i < |records| ==> records[i].chatId != chatId) ==>
      StartSequence(records, chatId) == 1
  {
    var s := SequencesOf(records, chatId);
    if s != [] {
      var x := s[0];
      assert x in s;
    }
  }

  /** The rows of a run carry the chat's id, the caller's user id and their
      step's agent, and consecutive sequence numbers from the start number on:
      strictly increasing, each above every number the chat used before. */
  lemma PersistedRowsFresh(
    records: seq<MessageRecord>, chat: ChatSession, userId: Option<int>, steps: seq<Step>, idea: string, llm: Llm)
    ensures var start := StartSequence(records, chat.chatId);
      var rs := PersistedRecords(chat, userId, steps, idea, llm, start);
      && (forall j :: 0 <= j < |rs| ==>
            rs[j].chatId == chat.chatId && rs[j].senderId == userId && rs[j].agentRole == steps[j].role)
      && (forall j :: 0 <= j < |rs| ==> rs[j].sequence == start + j)
      && (forall i, j :: 0 <= i < j < |rs| ==> rs[i].sequence < rs[j].sequence)
      && (forall i, j :: 0 <= i < |records| && records[i].chatId == chat.chatId && 0 <= j < |rs| ==>
            records[i].sequence < rs[j].sequence)
      && ((forall i :: 0 <= i < |records| ==> records[i].chatId != chat.chatId) ==>
            forall j :: 0 <= j < |rs| ==> rs[j].sequence == j + 1)
  {
    StartSequenceIsFresh(records, chat.chatId);
  }

  /** One unfolding of `Outputs`: step `n - 1` writes its reply under its key. */
  lemma OutputsStep(steps: seq<Step>, idea: string, llm: Llm, n: nat)
    requires 0 < n <= |steps|
    ensures Outputs(steps, idea, llm, n) == Outputs(steps, idea, llm, n - 1)[KeyOf(steps[n - 1]) :=
      StepReply(steps, idea, llm, n - 1, Outputs(steps, idea, llm, n - 1))]
  {
  }

  /** After `n` steps of a table without repeated agents, the key of every
      step done so far maps to that step's reply. */
  lemma {:induction false} OutputsHoldReplies(steps: seq<Step>, idea: string, llm: Llm, n: nat, j: nat)
    requires DistinctRoles(steps) && j < n <= |steps|
    ensures KeyOf(steps[j]) in Outputs(steps, idea, llm, n)
    ensures Outputs(steps, idea, llm, n)[KeyOf(steps[j])] == Reply(steps, idea, llm, j)
  {
    OutputsStep(steps, idea, llm, n);
    var prev := Outputs(steps, idea, llm, n - 1);
    var key, newest := KeyOf(steps[j]), KeyOf(steps[n - 1]);
    if j < n - 1 {
      OutputsHoldReplies(steps, idea, llm, n - 1, j);
      ValueInjective(steps[j].role, steps[n - 1].role);
      assert key != newest;
    }
  }

  /** Each agent's entry in the returned map is the content stored for its step. */
  lemma OutputsMatchPersisted(
    chat: ChatSession, userId: Option<int>, steps: seq<Step>, idea: string, llm: Llm, start: int)
    requires DistinctRoles(steps)
    ensures var o := Outputs(steps, idea, llm, |steps|);
      var rs := PersistedRecords(chat, userId, steps, idea, llm, start);
      forall j :: 0 <= j < |rs| ==> rs[j].agentRole.Value() in o && o[rs[j].agentRole.Value()] == rs[j].content
  {
    forall j | 0 <= j < |steps|
      ensures KeyOf(steps[j]) in Outputs(steps, idea, llm, |steps|)
      ensures Outputs(steps, idea, llm, |steps|)[KeyOf(steps[j])] == Reply(steps, idea, llm, j)
    {
      OutputsHoldReplies(steps, idea, llm, |steps|, j);
    }
  }

  /** The six rows of the step table of `run_agent_sequence`. */
  const OptimistStep := Step(Optimist, "You are Optimist: highlight realistic upside and opportunities.",
    [Text("Idea: "), IdeaText, Text("\nList optimistic yet grounded strengths.")])
  const PessimistStep := Step(Pessimist, "You are Pessimist: surface risks, blockers, and failure modes.",
    [Text("Idea: "), IdeaText, Text("\nOptimist says:\n"), OutputOf("optimist"), Text("\nList risks.")])
  const PlannerStep := Step(Planner, "Planner: produce an execution plan informed by both viewpoints.",
    [Text("Idea: "), IdeaText, Text("\nOptimist:\n"), OutputOf("optimist"),
     Text("\nPessimist:\n"), OutputOf("pessimist"), Text("\nProvide a phased plan with mitigations.")])
  const CriticStep := Step(Critic, "Critic: stress-test the planner's proposal.",
    [Text("Planner output:\n"), OutputOf("planner"), Text("\nProvide critical analysis.")])
  const DeveloperStep := Step(Developer, "Developer: respond with concrete technical adjustments.",
    [Text("Critic notes:\n"), OutputOf("critic"), Text("\nOutline engineering responses.")])
  const MentorStep := Step(Mentor, "Mentor: summarize and offer coaching for next steps.",
    [Text("Developer output:\n"), OutputOf("developer"), Text("\nProvide mentorship guidance.")])

  /** The step table, in the order the steps run. */
  const AgentSteps: seq<Step> := [OptimistStep, PessimistStep, PlannerStep, CriticStep, DeveloperStep, MentorStep]

  /** Six steps, their agents in the order optimist, pessimist, planner,
      critic, developer, mentor, none twice. */
  lemma AgentStepsInOrder()
    ensures |AgentSteps| == 6
    ensures AgentSteps[0].role == Optimist && AgentSteps[1].role == Pessimist && AgentSteps[2].role == Planner
    ensures AgentSteps[3].role == Critic && AgentSteps[4].role == Developer && AgentSteps[5].role == Mentor
    ensures DistinctRoles(AgentSteps)
  {
  }

  /** The keys each template of the six-agent table reads: the pessimist the
      optimist, the planner both of them, and the critic, developer and
      mentor each the step right before. */
  lemma AgentReads()
    ensures ReadsOf(AgentSteps[0].prompt) == {}
    ensures ReadsOf(AgentSteps[1].prompt) == {"optimist"}
    ensures ReadsOf(AgentSteps[2].prompt) == {"optimist", "pessimist"}
    ensures ReadsOf(AgentSteps[3].prompt) == {"planner"}
    ensures ReadsOf(AgentSteps[4].prompt) == {"critic"}
    ensures ReadsOf(AgentSteps[5].prompt) == {"developer"}
  {
  }

  /** The keys each step of the six-agent table finds already written. */
  lemma AgentKeysBefore()
    ensures KeysBefore(AgentSteps, 1) == {"optimist"}
    ensures KeysBefore(AgentSteps, 2) == {"optimist", "pessimist"}
    ensures KeysBefore(AgentSteps, 3) == {"optimist", "pessimist", "planner"}
    ensures KeysBefore(AgentSteps, 4) == {"optimist", "pessimist", "planner", "critic"}
    ensures KeysBefore(AgentSteps, 5) == {"optimist", "pessimist", "planner", "critic", "developer"}
    ensures KeysBefore(AgentSteps, 6) == {"optimist", "pessimist", "planner", "critic", "developer", "mentor"}
  {
    AgentStepsInOrder();
    assert KeysBefore(AgentSteps, 1) == {"optimist"};
    assert KeysBefore(AgentSteps, 2) == {"optimist", "pessimist"};
    assert KeysBefore(AgentSteps, 3) == {"optimist", "pessimist", "planner"};
    assert KeysBefore(AgentSteps, 4) == {"optimist", "pessimist", "planner", "critic"};
    assert KeysBefore(AgentSteps, 5) == {"optimist", "pessimist", "planner", "critic", "developer"};
  }

  /** So in a run of the six-agent table every lookup finds its key. */
  lemma AgentReadsEarlier()
    ensures ReadsEarlier(AgentSteps)
  {
    AgentStepsInOrder();
    AgentReads();
    AgentKeysBefore();
  }

  /** The map a run of the six-agent table returns has exactly the six agent
      values as keys ("user" is not one). */
  lemma AgentOutputKeys(idea: string, llm: Llm)
    ensures ReadsEarlier(AgentSteps)
    ensures Outputs(AgentSteps, idea, llm, 6).Keys
      == {"optimist", "pessimist", "planner", "critic", "developer", "mentor"}
  {
    AgentReadsEarlier();
    AgentKeysBefore();
    OutputsKeys(AgentSteps, idea, llm, 6);
  }

  /** The rows one run of the six-agent table appends: six of them, for the
      optimist, pessimist, planner, critic, developer and mentor in that
      order, numbered from the start number on, each holding the content the
      returned map has under its agent's value. */
  lemma AgentRunRows(records: seq<MessageRecord>, chat: ChatSession, userId: Option<int>, idea: string, llm: Llm)
    ensures var start := StartSequence(records, chat.chatId);
      var rs := PersistedRecords(chat, userId, AgentSteps, idea, llm, start);
      var o := Outputs(AgentSteps, idea, llm, |AgentSteps|);
      && |rs| == 6
      && rs[0].agentRole == Optimist && rs[1].agentRole == Pessimist && rs[2].agentRole == Planner
      && rs[3].agentRole == Critic && rs[4].agentRole == Developer && rs[5].agentRole == Mentor
      && (forall j :: 0 <= j < 6 ==>
            rs[j].chatId == chat.chatId && rs[j].senderId == userId && rs[j].sequence == start + j)
      && (forall j :: 0 <= j < 6 ==> rs[j].agentRole.Value() in o && o[rs[j].agentRole.Value()] == rs[j].content)
  {
    AgentStepsInOrder();
    PersistedRowsFresh(records, chat, userId, AgentSteps, idea, llm);
    OutputsMatchPersisted(chat, userId, AgentSteps, idea, llm, StartSequence(records, chat.chatId));
  }

  lemma AppendNext<T>(before: seq<T>, s: seq<T>, k: nat, x: T)
    requires k < |s| && s[k] == x
    ensures before + s[..k] + [x] == before + s[..k + 1]
  {
    assert s[..k + 1] == s[..k] + [x];
  }

  /** `_persist_message`: one row for the chat, with the given role, content
      and sequence number, and the caller's user id as sender. */
  method PersistMessage(
    store: MessageStore, chat: ChatSession, role: AgentRole, content: string, sequence: int, userId: Option<int>)
    modifies store
    ensures store.records == old(store.records) + [MessageRecord(chat.chatId, userId, role, content, sequence)]
  {
    store.AddMessage(MessageRecord(chat.chatId, userId, role, content, sequence));
  }

  /** The body of `run_agent_sequence` for a given step table: the rows
      already in the store stay as they were, one row per step follows them,
      and the returned map is the outputs of all the steps. */
  method RunSteps(
    store: MessageStore, chat: ChatSession, steps: seq<Step>, idea: string, userId: Option<int>, llm: Llm)
    returns (outputs: map<string, string>)
    requires ReadsEarlier(steps)
    modifies store
    ensures store.records == old(store.records)
      + PersistedRecords(chat, userId, steps, idea, llm, StartSequence(old(store.records), chat.chatId))
    ensures outputs == Outputs(steps, idea, llm, |steps|)
  {
    var sequence := StartSequence(store.records, chat.chatId);
    ghost var start := sequence;
    ghost var before := store.records;
    ghost var rows := PersistedRecords(chat, userId, steps, idea, llm, start);
    outputs := map[];
    for k := 0 to |steps|
      invariant sequence == start + k
      invariant outputs == Outputs(steps, idea, llm, k)
      invariant store.records == before + rows[..k]
    {
      var step := steps[k];
      var userPrompt := Render(step.prompt, idea, outputs);
      var content := llm(step.systemPrompt, userPrompt);
      OutputsStep(steps, idea, llm, k + 1);
      outputs := outputs[step.role.Value() := content];
      ghost var row := MessageRecord(chat.chatId, userId, step.role, content, sequence);
      assert row == PersistedRecord(chat, userId, steps, idea, llm, start, k);
      PersistMessage(store, chat, step.role, content, sequence, userId);
      AppendNext(before, rows, k, row);
      sequence := sequence + 1;
    }
    assert rows[..|steps|] == rows;
  }

  /** `run_agent_sequence`: the run of the six-agent table. */
  method RunAgentSequence(store: MessageStore, chat: ChatSession, idea: string, userId: Option<int>, llm: Llm)
    returns (outputs: map<string, string>)
    modifies store
    ensures ReadsEarlier(AgentSteps)
    ensures store.records == old(store.records)
      + PersistedRecords(chat, userId, AgentSteps, idea, llm, StartSequence(old(store.records), chat.chatId))
    ensures outputs == Outputs(AgentSteps, idea, llm, |AgentSteps|)
  {
    AgentReadsEarlier();
    outputs := RunSteps(store, chat, AgentSteps, idea, userId, llm);
  }
}

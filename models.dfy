/** The records the agent pipeline reads and writes. */
module Models {
  import opened Wrappers

  /** The author of a stored message: the human user or one of six agents. */
  datatype AgentRole = User | Optimist | Pessimist | Planner | Critic | Developer | Mentor {

    /** The enum member's string value, as stored and as used for output keys. */
    function Value(): string {
      match this
      case User => "user"
      case Optimist => "optimist"
      case Pessimist => "pessimist"
      case Planner => "planner"
      case Critic => "critic"
      case Developer => "developer"
      case Mentor => "mentor"
    }
  }

  /** Enum lookup by value, `AgentRole(v)`: no value is shared by two members. */
  function RoleOf(v: string): (r: Option<AgentRole>)
    ensures r.Some? ==> r.value.Value() == v
    ensures r.None? ==> forall a: AgentRole :: a.Value() != v
  {
    if v == "user" then Some(User)
    else if v == "optimist" then Some(Optimist)
    else if v == "pessimist" then Some(Pessimist)
    else if v == "planner" then Some(Planner)
    else if v == "critic" then Some(Critic)
    else if v == "developer" then Some(Developer)
    else if v == "mentor" then Some(Mentor)
    else None
  }

  /** Looking a member up by its own value gives the member back. */
  lemma RoleOfValue(a: AgentRole)
    ensures RoleOf(a.Value()) == Some(a)
  {
  }

  /** Distinct members have distinct values. */
  lemma ValueInjective(a: AgentRole, b: AgentRole)
    ensures a.Value() == b.Value() ==> a == b
  {
    RoleOfValue(a);
    RoleOfValue(b);
  }

  /** A chat session row, with the id the database assigned on creation. */
  datatype ChatSession = ChatSession(chatId: int, projectId: Option<int>, idea: string, title: Option<string>)

  /** A message row; `message_id` and `created_at` are assigned by the
      database and the clock and are not part of this model. */
  datatype MessageRecord = MessageRecord(
    chatId: int, senderId: Option<int>, agentRole: AgentRole, content: string, sequence: int)
}

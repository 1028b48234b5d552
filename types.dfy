/** The records and enumerations shared by the services and views (types.ts). */
module Types {

  datatype AgentType = Red | Blue | Orchestrator | Mcp

  datatype AgentStatus = Idle | Planning | Executing | Analyzing | Mitigating | Waiting

  datatype Agent = Agent(
    id: string,
    name: string,
    role: string,
    team: AgentType,
    status: AgentStatus,
    currentTask: string,
    efficiency: int,
    logs: seq<string>)

  datatype LogLevel = Info | Warn | Critical | Success

  /** A session log entry; its `id` and `timestamp` come from the clock and are not modelled. */
  datatype LogEntry = LogEntry(source: string, level: LogLevel, message: string, team: AgentType)

  /**
   * A text-valued field read from a parsed JSON object: either absent
   * (`undefined` in JavaScript) or a string.
   */
  datatype Field = Undefined | Str(s: string)

  /** The field as a template literal prints it. */
  function Show(f: Field): string
  {
    match f
    case Undefined => "undefined"
    case Str(s) => s
  }

  /** An error thrown by the JavaScript runtime. */
  datatype JsError = TypeError(message: string)

  /** The error as `${error}` prints it. */
  function ShowError(e: JsError): string
  {
    "TypeError: " + e.message
  }

  /**
   * `agents.map(a => a.id === id ? { ...a, status, currentTask: task } : a)`:
   * the whole-list replacement the views hand to the agent-pool owner.
   */
  function SetActivity(agents: seq<Agent>, id: string, status: AgentStatus, task: string): (r: seq<Agent>)
    ensures |r| == |agents|
    ensures forall i :: 0 <= i < |r| && agents[i].id != id ==> r[i] == agents[i]
    ensures forall i :: 0 <= i < |r| && agents[i].id == id ==>
      r[i] == agents[i].(status := status, currentTask := task)
  {
    seq(|agents|, i requires 0 <= i < |agents| =>
      if agents[i].id == id then agents[i].(status := status, currentTask := task) else agents[i])
  }

  /**
   * Last write wins: a second update of the same agent overrides the first.
   * This is why a continuation that updates a stale snapshot of the pool
   * ends in the same pool as one that updates the current pool, as long as
   * nothing else touched the pool in between.
   */
  lemma SetActivityOverrides(agents: seq<Agent>, id: string, s1: AgentStatus, t1: string, s2: AgentStatus, t2: string)
    ensures SetActivity(SetActivity(agents, id, s1, t1), id, s2, t2) == SetActivity(agents, id, s2, t2)
  {
    var a := SetActivity(SetActivity(agents, id, s1, t1), id, s2, t2);
    var b := SetActivity(agents, id, s2, t2);
    assert |a| == |b|;
    forall i | 0 <= i < |a| ensures a[i] == b[i] {
    }
  }
}

/**
 * The manual attack console (views/RedTeamView.tsx). A launch is split at
 * its `await`: `BeginLaunch` runs up to the backend call and returns what
 * the rest of the handler captured, `FinishLaunch` runs from the reply on,
 * and each of the three timers it schedules is a method fed the captured
 * `PendingAttack`.
 */
module RedTeamView {
  import opened Wrappers
  import Types
  import AgentService
  import GeminiService
  import App

  type Attack = AgentService.AttackResult

  /** What the rest of a launch captured when it started. */
  datatype Launch = Launch(attackType: AgentService.AttackType, agent: Types.Agent, snapshot: seq<Types.Agent>)

  /** What the timers of a successful launch captured. */
  datatype PendingAttack = PendingAttack(result: Attack, agent: Types.Agent, snapshot: seq<Types.Agent>)

  ghost predicate AllForward(attacks: seq<Attack>)
  {
    forall i :: 0 <= i < |attacks| ==> attacks[i].status in AgentService.Forward
  }

  /** `prev.map(a => a.id === id ? progressAttack(a) : a)`, with the intended advance. */
  function ProgressById(attacks: seq<Attack>, id: string, clock: string): (r: seq<Attack>)
    ensures |r| == |attacks|
    ensures forall i :: 0 <= i < |r| ==>
      r[i] == (if attacks[i].id == id then AgentService.AdvanceAttack(attacks[i], clock) else attacks[i])
  {
    seq(|attacks|, i requires 0 <= i < |attacks| =>
      if attacks[i].id == id then AgentService.AdvanceAttack(attacks[i], clock) else attacks[i])
  }

  /**
   * On the console's own list every status is INITIATED, IN_PROGRESS or
   * DETECTED, so a progression keeps it so, and there the intended advance
   * and `progressAttack` as written make the same change.
   */
  lemma ProgressByIdOnForward(attacks: seq<Attack>, id: string, clock: string)
    requires AllForward(attacks)
    ensures var r := ProgressById(attacks, id, clock);
      && AllForward(r)
      && forall i :: 0 <= i < |r| && attacks[i].id == id ==> r[i] == AgentService.ProgressAttack(attacks[i], clock)
  {
    var r := ProgressById(attacks, id, clock);
    forall i | 0 <= i < |r| ensures r[i].status in AgentService.Forward {
      AgentService.AdvanceAgreesOnForward(attacks[i], clock);
    }
    forall i | 0 <= i < |r| && attacks[i].id == id ensures r[i] == AgentService.ProgressAttack(attacks[i], clock) {
      AgentService.AdvanceAgreesOnForward(attacks[i], clock);
    }
  }

  /** The parent hears IN_PROGRESS from the first timer and DETECTED from the second, each rebuilt from the launched record. */
  lemma NotificationsReachDetected(result: Attack, first: string, second: string)
    requires result.status == AgentService.Initiated
    ensures AgentService.AdvanceTimes(result, 1, first).status == AgentService.InProgress
    ensures AgentService.AdvanceTimes(result, 2, second).status == AgentService.Detected
    ensures |AgentService.AdvanceTimes(result, 2, second).logs| == |result.logs| + 2
  {
    AgentService.AdvanceTimesReachesDetected(result, 2, second);
  }

  function InitiatingLog(agent: Types.Agent, attackName: string): Types.LogEntry
  {
    Types.LogEntry(agent.name, Types.Warn, "Initiating " + attackName + " attack", Types.Red)
  }

  /** The log a launch ends with: the strategy on success, the error otherwise. */
  function LaunchLog(agent: Types.Agent, attackName: string, r: Result<Attack, Types.JsError>): (log: Types.LogEntry)
    ensures log.level == Types.Critical && log.source == agent.name && log.team == Types.Red
  {
    match r
    case Ok(result) => Types.LogEntry(agent.name, Types.Critical, attackName + ": " + Types.Show(result.strategy), Types.Red)
    case Err(e) => Types.LogEntry(agent.name, Types.Critical, "Attack failed: " + Types.ShowError(e), Types.Red)
  }

  class RedTeamView {
    const app: App.AppState
    var activeAttacks: seq<Attack>
    var selectedAgent: Option<Types.Agent>
    var executingAttack: Option<AgentService.AttackType>

    ghost predicate Valid()
      reads this, app
    {
      app.Valid() && AllForward(activeAttacks)
    }

    /** The first agent of the pool is selected, if there is one. */
    constructor(app: App.AppState)
      requires app.Valid()
      ensures this.app == app && Valid()
      ensures activeAttacks == [] && executingAttack == None
      ensures selectedAgent == if |app.redAgents| > 0 then Some(app.redAgents[0]) else None
    {
      this.app := app;
      activeAttacks := [];
      selectedAgent := if |app.redAgents| > 0 then Some(app.redAgents[0]) else None;
      executingAttack := None;
    }

    method SelectAgent(agent: Types.Agent)
      requires Valid()
      modifies this
      ensures Valid()
      ensures selectedAgent == Some(agent)
      ensures activeAttacks == old(activeAttacks) && executingAttack == old(executingAttack)
    {
      selectedAgent := Some(agent);
    }

    /**
     * `handleAttackLaunch` up to the backend call. It does nothing without a
     * selected agent or while another attack is executing; otherwise it marks
     * the attack as executing, sets the selected agent to EXECUTING and logs
     * the initiation.
     */
    method BeginLaunch(attackType: AgentService.AttackType) returns (launch: Option<Launch>)
      requires Valid()
      modifies this, app
      ensures Valid()
      ensures launch.Some? <==> old(selectedAgent).Some? && old(executingAttack).None?
      ensures launch.None? ==>
        executingAttack == old(executingAttack) && app.redAgents == old(app.redAgents) && app.logs == old(app.logs)
      ensures launch.Some? ==>
        var agent := old(selectedAgent).value;
        var name := AgentService.AttackName(attackType);
        && launch.value == Launch(attackType, agent, old(app.redAgents))
        && executingAttack == Some(attackType)
        && app.redAgents == Types.SetActivity(old(app.redAgents), agent.id, Types.Executing, "Executing " + name)
        && app.logs == App.AppendLog(old(app.logs), InitiatingLog(agent, name))
      ensures activeAttacks == old(activeAttacks) && selectedAgent == old(selectedAgent)
      ensures app.blueAgents == old(app.blueAgents) && app.metrics == old(app.metrics)
      ensures app.activeAttacks == old(app.activeAttacks)
    {
      if selectedAgent.None? || executingAttack.Some? {
        return None;
      }
      var l := StartLaunch(attackType, selectedAgent.value);
      launch := Some(l);
    }

    /** The effects of a launch that passed its guard. */
    method StartLaunch(attackType: AgentService.AttackType, agent: Types.Agent) returns (launch: Launch)
      requires Valid()
      modifies this, app
      ensures Valid()
      ensures var name := AgentService.AttackName(attackType);
        && launch == Launch(attackType, agent, old(app.redAgents))
        && executingAttack == Some(attackType)
        && app.redAgents == Types.SetActivity(old(app.redAgents), agent.id, Types.Executing, "Executing " + name)
        && app.logs == App.AppendLog(old(app.logs), InitiatingLog(agent, name))
      ensures activeAttacks == old(activeAttacks) && selectedAgent == old(selectedAgent)
      ensures app.blueAgents == old(app.blueAgents) && app.metrics == old(app.metrics)
      ensures app.activeAttacks == old(app.activeAttacks)
    {
      var name := AgentService.AttackName(attackType);
      executingAttack := Some(attackType);
      var pool := app.redAgents;
      app.SetRedAgents(Types.SetActivity(pool, agent.id, Types.Executing, "Executing " + name));
      app.HandleLogGenerated(InitiatingLog(agent, name));
      launch := Launch(attackType, agent, pool);
    }

    /**
     * `handleAttackLaunch` from the backend's reply on. A record is added
     * to the console, reported to the application and logged; a launch that
     * threw only logs the error. Either way the executing flag is cleared.
     */
    method FinishLaunch(launch: Launch, startMs: nat, endMs: nat, clock: string,
                        reply: GeminiService.Reply, parse: GeminiService.RedParser)
      returns (job: Option<PendingAttack>)
      requires Valid()
      modifies this, app
      ensures Valid()
      ensures executingAttack == None
      ensures var r := AgentService.ExecuteRedTeamAttack(launch.attackType, launch.agent, startMs, endMs, clock, reply, parse);
        var name := AgentService.AttackName(launch.attackType);
        && (job.Some? <==> r.Ok?)
        && (r.Ok? ==>
              && job.value == PendingAttack(r.value, launch.agent, launch.snapshot)
              && activeAttacks == old(activeAttacks) + [r.value]
              && app.activeAttacks == App.UpsertAttack(old(app.activeAttacks), r.value))
        && (r.Err? ==> activeAttacks == old(activeAttacks) && app.activeAttacks == old(app.activeAttacks))
        && app.logs == App.AppendLog(old(app.logs), LaunchLog(launch.agent, name, r))
      ensures selectedAgent == old(selectedAgent)
      ensures app.redAgents == old(app.redAgents) && app.blueAgents == old(app.blueAgents)
      ensures app.metrics == old(app.metrics)
    {
      var r := AgentService.ExecuteRedTeamAttack(launch.attackType, launch.agent, startMs, endMs, clock, reply, parse);
      job := Settle(launch, r);
    }

    /** What the launch handler does with the backend's outcome `r`, whichever it is. */
    method Settle(launch: Launch, r: Result<Attack, Types.JsError>) returns (job: Option<PendingAttack>)
      requires Valid() && (r.Ok? ==> r.value.status == AgentService.Initiated)
      modifies this, app
      ensures Valid()
      ensures executingAttack == None
      ensures job.Some? <==> r.Ok?
      ensures r.Ok? ==>
        && job.value == PendingAttack(r.value, launch.agent, launch.snapshot)
        && activeAttacks == old(activeAttacks) + [r.value]
        && app.activeAttacks == App.UpsertAttack(old(app.activeAttacks), r.value)
      ensures r.Err? ==> activeAttacks == old(activeAttacks) && app.activeAttacks == old(app.activeAttacks)
      ensures app.logs == App.AppendLog(old(app.logs), LaunchLog(launch.agent, AgentService.AttackName(launch.attackType), r))
      ensures selectedAgent == old(selectedAgent)
      ensures app.redAgents == old(app.redAgents) && app.blueAgents == old(app.blueAgents)
      ensures app.metrics == old(app.metrics)
    {
      if r.Ok? {
        RecordAttack(r.value);
        job := Some(PendingAttack(r.value, launch.agent, launch.snapshot));
      } else {
        job := None;
      }
      app.HandleLogGenerated(LaunchLog(launch.agent, AgentService.AttackName(launch.attackType), r));
      executingAttack := None;
    }

    /** A new attack joins the console's list and is reported to the application. */
    method RecordAttack(result: Attack)
      requires Valid() && result.status == AgentService.Initiated
      modifies this, app
      ensures Valid()
      ensures activeAttacks == old(activeAttacks) + [result]
      ensures app.activeAttacks == App.UpsertAttack(old(app.activeAttacks), result)
      ensures selectedAgent == old(selectedAgent) && executingAttack == old(executingAttack)
      ensures app.redAgents == old(app.redAgents) && app.blueAgents == old(app.blueAgents)
      ensures app.logs == old(app.logs) && app.metrics == old(app.metrics)
    {
      activeAttacks := activeAttacks + [result];
      app.HandleAttackLaunched(result);
    }

    /**
     * The first (`steps == 1`) or second (`steps == 2`) progression timer:
     * the console's entry advances once, and the application is told the
     * launched record advanced `steps` times.
     */
    method Progress(job: PendingAttack, steps: nat, clock: string)
      requires Valid()
      requires steps == 1 || steps == 2
      modifies this, app
      ensures Valid()
      ensures activeAttacks == ProgressById(old(activeAttacks), job.result.id, clock)
      ensures app.activeAttacks == App.UpsertAttack(old(app.activeAttacks), AgentService.AdvanceTimes(job.result, steps, clock))
      ensures selectedAgent == old(selectedAgent) && executingAttack == old(executingAttack)
      ensures app.redAgents == old(app.redAgents) && app.blueAgents == old(app.blueAgents)
      ensures app.logs == old(app.logs) && app.metrics == old(app.metrics)
    {
      ProgressByIdOnForward(activeAttacks, job.result.id, clock);
      activeAttacks := ProgressById(activeAttacks, job.result.id, clock);
      app.HandleAttackLaunched(AgentService.AdvanceTimes(job.result, steps, clock));
    }

    /** The last timer: the launching agent, in the captured pool, goes back to awaiting orders. */
    method ResetAgent(job: PendingAttack)
      requires Valid()
      modifies app
      ensures Valid()
      ensures app.redAgents == Types.SetActivity(job.snapshot, job.agent.id, Types.Idle, "Awaiting orders")
      ensures app.blueAgents == old(app.blueAgents) && app.logs == old(app.logs)
      ensures app.metrics == old(app.metrics) && app.activeAttacks == old(app.activeAttacks)
    {
      app.SetRedAgents(Types.SetActivity(job.snapshot, job.agent.id, Types.Idle, "Awaiting orders"));
    }
  }
}

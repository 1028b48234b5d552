/**
 * The automated defence (views/BlueTeamView.tsx). When the newest launched
 * attack reaches DETECTED, a responder from the blue pool analyses it and a
 * defence record is opened; two timers later move the defence to MITIGATING
 * and then to BLOCKED or FAILED. Each timer is a method of its own here, fed
 * the `PendingDefense` the handler returned: the values its closure captured.
 */
module BlueTeamView {
  import opened Wrappers
  import Types
  import AgentService
  import GeminiService
  import App

  type Defense = AgentService.DefenseResult

  // ---------------------------------------------------------------------------
  // Choosing the responder

  /** The index of the first idle agent, if there is one. */
  function FirstIdle(agents: seq<Types.Agent>): (r: Option<nat>)
    ensures r.Some? ==> r.value < |agents| && agents[r.value].status == Types.Idle
    ensures r.Some? ==> forall k :: 0 <= k < r.value ==> agents[k].status != Types.Idle
    ensures r.None? ==> forall k :: 0 <= k < |agents| ==> agents[k].status != Types.Idle
  {
    if |agents| == 0 then None
    else if agents[0].status == Types.Idle then Some(0)
    else
      match FirstIdle(agents[1..])
      case None => None
      case Some(i) => Some(i + 1)
  }

  /** The first idle agent, or the first agent when none is idle. */
  function Responder(agents: seq<Types.Agent>): (a: Types.Agent)
    requires |agents| > 0
    ensures a in agents
    ensures (exists i :: 0 <= i < |agents| && agents[i].status == Types.Idle) <==> a.status == Types.Idle
    ensures a.status != Types.Idle ==> a == agents[0]
  {
    match FirstIdle(agents)
    case Some(i) => agents[i]
    case None => agents[0]
  }

  // ---------------------------------------------------------------------------
  // The defence list

  predicate HasDefenseFor(defenses: seq<Defense>, attackId: string)
  {
    exists i :: 0 <= i < |defenses| && defenses[i].attackId == attackId
  }

  /** At most one defence per attack: the handler's dedup check keeps this. */
  ghost predicate DistinctAttackIds(defenses: seq<Defense>)
  {
    forall i, j :: 0 <= i < j < |defenses| ==> defenses[i].attackId != defenses[j].attackId
  }

  /** `prev.map(d => d.id === id ? progressDefense(d, success) : d)`. */
  function AdvanceDefense(defenses: seq<Defense>, id: string, success: bool): (r: seq<Defense>)
    ensures |r| == |defenses|
    ensures forall i :: 0 <= i < |r| ==>
      r[i] == (if defenses[i].id == id then AgentService.ProgressDefense(defenses[i], success) else defenses[i])
  {
    seq(|defenses|, i requires 0 <= i < |defenses| =>
      if defenses[i].id == id then AgentService.ProgressDefense(defenses[i], success) else defenses[i])
  }

  /** Advancing changes statuses only, so the attack each defence answers stays the same. */
  lemma AdvanceKeepsAttackIds(defenses: seq<Defense>, id: string, success: bool)
    requires DistinctAttackIds(defenses)
    ensures var r := AdvanceDefense(defenses, id, success);
      && DistinctAttackIds(r)
      && (forall i :: 0 <= i < |r| ==> r[i].attackId == defenses[i].attackId && r[i].id == defenses[i].id)
      && forall a :: HasDefenseFor(r, a) <==> HasDefenseFor(defenses, a)
  {
    var r := AdvanceDefense(defenses, id, success);
    forall i | 0 <= i < |r| ensures r[i].attackId == defenses[i].attackId && r[i].id == defenses[i].id {
      assert r[i] == defenses[i].(status := r[i].status);
    }
  }

  /**
   * The two timers resolve a freshly opened defence: after the first it is
   * MITIGATING, after the second BLOCKED exactly on success and FAILED
   * otherwise. The defences opened earlier, under other ids, are untouched.
   */
  lemma DefenseLifecycle(defenses: seq<Defense>, d: Defense, success: bool)
    requires d.status == AgentService.Analyzing
    requires forall i :: 0 <= i < |defenses| ==> defenses[i].id != d.id
    ensures var mid := AdvanceDefense(defenses + [d], d.id, true);
      var done := AdvanceDefense(mid, d.id, success);
      && mid[|defenses|].status == AgentService.Mitigating
      && done[|defenses|].status == (if success then AgentService.DefenseStatus.Blocked else AgentService.Failed)
      && done[..|defenses|] == defenses
  {
    var mid := AdvanceDefense(defenses + [d], d.id, true);
    var done := AdvanceDefense(mid, d.id, success);
    AgentService.DefenseTwoSteps(d, success);
    assert mid[|defenses|] == AgentService.ProgressDefense(d, true);
    forall i | 0 <= i < |defenses| ensures done[i] == defenses[i] {
      assert (defenses + [d])[i] == defenses[i];
    }
  }

  /** Opening a defence for an attack not yet defended keeps one defence per attack. */
  lemma OpeningKeepsDistinct(defenses: seq<Defense>, d: Defense)
    requires DistinctAttackIds(defenses) && !HasDefenseFor(defenses, d.attackId)
    ensures DistinctAttackIds(defenses + [d])
  {
  }

  // ---------------------------------------------------------------------------
  // The stats panel

  datatype Stats = Stats(totalAttacks: nat, blocked: nat, analyzing: nat, failed: nat)

  /** How many defences have a status in `wanted`. */
  function Count(defenses: seq<Defense>, wanted: set<AgentService.DefenseStatus>): (n: nat)
    ensures n <= |defenses|
  {
    if defenses == [] then 0
    else Count(defenses[..|defenses| - 1], wanted) + (if defenses[|defenses| - 1].status in wanted then 1 else 0)
  }

  /** Every defence is counted in exactly one of the three status groups. */
  lemma {:induction false} CountsPartition(defenses: seq<Defense>)
    ensures Count(defenses, {AgentService.DefenseStatus.Blocked})
      + Count(defenses, {AgentService.Analyzing, AgentService.Mitigating})
      + Count(defenses, {AgentService.Failed}) == |defenses|
  {
    if defenses != [] {
      var init := defenses[..|defenses| - 1];
      CountsPartition(init);
      var last := defenses[|defenses| - 1].status;
      assert last == AgentService.DefenseStatus.Blocked || last == AgentService.Analyzing
        || last == AgentService.Mitigating || last == AgentService.Failed;
    }
  }

  /** The panel: the total is the number of defences, and the three status panels split it. */
  function ComputeStats(defenses: seq<Defense>): (s: Stats)
    ensures s.totalAttacks == |defenses|
    ensures s.blocked + s.analyzing + s.failed == s.totalAttacks
  {
    CountsPartition(defenses);
    Stats(
      |defenses|,
      Count(defenses, {AgentService.DefenseStatus.Blocked}),
      Count(defenses, {AgentService.Analyzing, AgentService.Mitigating}),
      Count(defenses, {AgentService.Failed}))
  }

  /** A newly opened defence adds one to the total and one to the analysing panel. */
  lemma OpeningCountsAsAnalyzing(defenses: seq<Defense>, d: Defense)
    requires d.status == AgentService.Analyzing
    ensures var before, after := ComputeStats(defenses), ComputeStats(defenses + [d]);
      after == before.(totalAttacks := before.totalAttacks + 1, analyzing := before.analyzing + 1)
  {
    assert (defenses + [d])[..|defenses|] == defenses;
  }

  // ---------------------------------------------------------------------------
  // The view

  /** What the two timers of one handled attack captured. */
  datatype PendingDefense = PendingDefense(
    defenseId: string,
    responder: Types.Agent,
    attackName: string,
    mitigation: string,
    snapshot: seq<Types.Agent>)  // the blue pool as the handler saw it

  function DetectionLog(responder: Types.Agent, attackName: string): Types.LogEntry
  {
    Types.LogEntry(responder.name, Types.Warn, "Threat detected: " + attackName, Types.Blue)
  }

  function AnalysisLog(responder: Types.Agent, d: Defense): Types.LogEntry
  {
    Types.LogEntry(responder.name, Types.Info, "Analysis: " + Types.Show(d.analysis), Types.Blue)
  }

  /** The log the second timer writes. */
  function OutcomeLog(job: PendingDefense, success: bool): (log: Types.LogEntry)
    ensures log.source == job.responder.name && log.team == Types.Blue
    ensures log.level == Types.Success <==> success
    ensures log.level == Types.Critical <==> !success
  {
    if success then
      Types.LogEntry(job.responder.name, Types.Success, "✓ Attack blocked: " + job.mitigation, Types.Blue)
    else
      Types.LogEntry(job.responder.name, Types.Critical, "✗ Mitigation failed - Manual intervention required", Types.Blue)
  }

  /** The defence succeeds when the draw exceeds 0.2. */
  function Succeeds(draw: real): bool
  {
    draw > 0.2
  }

  /** What the rest of `handleIncomingAttack` captured before its `await`. */
  datatype Opening = Opening(
    attack: AgentService.AttackResult,
    responder: Types.Agent,
    attackName: string,
    snapshot: seq<Types.Agent>)  // the blue pool as the handler saw it

  class BlueTeamView {
    const app: App.AppState
    var defenses: seq<Defense>

    ghost predicate Valid()
      reads this, app
    {
      app.Valid()
    }

    constructor(app: App.AppState)
      requires app.Valid()
      ensures this.app == app && defenses == [] && Valid()
    {
      this.app := app;
      defenses := [];
    }

    /** The stats effect: recomputed from the defence list. */
    function CurrentStats(): Stats
      reads this
    {
      ComputeStats(defenses)
    }

    /**
     * `handleIncomingAttack` up to the backend call. An attack already
     * defended is ignored, and so is any attack while the pool is empty (the
     * handler throws on the missing responder before changing anything).
     * Otherwise the responder turns to analysis and the detection is logged.
     */
    method BeginDefense(attack: AgentService.AttackResult) returns (opening: Option<Opening>)
      requires Valid()
      modifies app
      ensures Valid()
      ensures opening.Some? <==> !HasDefenseFor(defenses, attack.id) && |old(app.blueAgents)| > 0
      ensures opening.None? ==> app.blueAgents == old(app.blueAgents) && app.logs == old(app.logs)
      ensures opening.Some? ==>
        var pool := old(app.blueAgents);
        var responder := Responder(pool);
        var name := AgentService.AttackName(attack.attackType);
        && opening.value == Opening(attack, responder, name, pool)
        && app.blueAgents == Types.SetActivity(pool, responder.id, Types.Analyzing, "Analyzing " + name)
        && app.logs == App.AppendLog(old(app.logs), DetectionLog(responder, name))
      ensures app.redAgents == old(app.redAgents) && app.metrics == old(app.metrics)
      ensures app.activeAttacks == old(app.activeAttacks)
    {
      if HasDefenseFor(defenses, attack.id) || |app.blueAgents| == 0 {
        return None;
      }
      var pool := app.blueAgents;
      var responder := Responder(pool);
      var name := AgentService.AttackName(attack.attackType);
      app.SetBlueAgents(Types.SetActivity(pool, responder.id, Types.Analyzing, "Analyzing " + name));
      app.HandleLogGenerated(DetectionLog(responder, name));
      opening := Some(Opening(attack, responder, name, pool));
    }

    /**
     * `handleIncomingAttack` from the backend's reply on: the defence is
     * appended without a second look at the list, and the analysis is
     * logged. One defence per attack survives only if no defence for the
     * attack was appended since the check.
     */
    method FinishDefense(opening: Opening, startMs: nat, endMs: nat,
                         reply: GeminiService.Reply, parse: GeminiService.BlueParser)
      returns (job: PendingDefense)
      requires Valid()
      modifies this, app
      ensures Valid()
      ensures var d := AgentService.ExecuteBlueTeamDefense(opening.attack, opening.responder, startMs, endMs, reply, parse);
        && job == PendingDefense(d.id, opening.responder, opening.attackName, Types.Show(d.mitigation), opening.snapshot)
        && defenses == old(defenses) + [d]
        && app.logs == App.AppendLog(old(app.logs), AnalysisLog(opening.responder, d))
      ensures DistinctAttackIds(old(defenses)) && !HasDefenseFor(old(defenses), opening.attack.id) ==>
        DistinctAttackIds(defenses)
      ensures app.blueAgents == old(app.blueAgents) && app.redAgents == old(app.redAgents)
      ensures app.metrics == old(app.metrics) && app.activeAttacks == old(app.activeAttacks)
    {
      var d := AgentService.ExecuteBlueTeamDefense(opening.attack, opening.responder, startMs, endMs, reply, parse);
      if DistinctAttackIds(defenses) && !HasDefenseFor(defenses, opening.attack.id) {
        OpeningKeepsDistinct(defenses, d);
      }
      defenses := defenses + [d];
      app.HandleLogGenerated(AnalysisLog(opening.responder, d));
      job := PendingDefense(d.id, opening.responder, opening.attackName, Types.Show(d.mitigation), opening.snapshot);
    }

    /**
     * `handleIncomingAttack` when nothing else runs between its two halves:
     * then the dedup check keeps one defence per attack.
     */
    method HandleIncomingAttack(attack: AgentService.AttackResult, startMs: nat, endMs: nat,
                                reply: GeminiService.Reply, parse: GeminiService.BlueParser)
      returns (job: Option<PendingDefense>)
      requires Valid()
      modifies this, app
      ensures Valid()
      ensures job.Some? <==> !HasDefenseFor(old(defenses), attack.id) && |old(app.blueAgents)| > 0
      ensures job.None? ==> defenses == old(defenses) && app.blueAgents == old(app.blueAgents) && app.logs == old(app.logs)
      ensures job.Some? ==>
        var pool := old(app.blueAgents);
        var responder := Responder(pool);
        var name := AgentService.AttackName(attack.attackType);
        var d := AgentService.ExecuteBlueTeamDefense(attack, responder, startMs, endMs, reply, parse);
        && job.value == PendingDefense(d.id, responder, name, Types.Show(d.mitigation), pool)
        && defenses == old(defenses) + [d]
        && app.blueAgents == Types.SetActivity(pool, responder.id, Types.Analyzing, "Analyzing " + name)
        && app.logs == App.AppendLog(App.AppendLog(old(app.logs), DetectionLog(responder, name)), AnalysisLog(responder, d))
      ensures DistinctAttackIds(old(defenses)) ==> DistinctAttackIds(defenses)
      ensures app.redAgents == old(app.redAgents) && app.metrics == old(app.metrics)
      ensures app.activeAttacks == old(app.activeAttacks)
    {
      var opening := BeginDefense(attack);
      if opening.None? {
        return None;
      }
      var pending := FinishDefense(opening.value, startMs, endMs, reply, parse);
      job := Some(pending);
    }

    /** The first timer: the defence moves on and the responder, in the captured pool, turns to mitigation. */
    method Mitigate(job: PendingDefense)
      requires Valid()
      modifies this, app
      ensures Valid()
      ensures defenses == AdvanceDefense(old(defenses), job.defenseId, true)
      ensures DistinctAttackIds(old(defenses)) ==> DistinctAttackIds(defenses)
      ensures app.blueAgents == Types.SetActivity(job.snapshot, job.responder.id, Types.Mitigating, "Mitigating " + job.attackName)
      ensures app.logs == old(app.logs) && app.redAgents == old(app.redAgents)
      ensures app.metrics == old(app.metrics) && app.activeAttacks == old(app.activeAttacks)
    {
      if DistinctAttackIds(defenses) {
        AdvanceKeepsAttackIds(defenses, job.defenseId, true);
      }
      defenses := AdvanceDefense(defenses, job.defenseId, true);
      app.SetBlueAgents(Types.SetActivity(job.snapshot, job.responder.id, Types.Mitigating, "Mitigating " + job.attackName));
    }

    /** The second timer: the outcome is drawn, logged, and the responder goes back to monitoring. */
    method Complete(job: PendingDefense, draw: real)
      requires Valid()
      modifies this, app
      ensures Valid()
      ensures defenses == AdvanceDefense(old(defenses), job.defenseId, Succeeds(draw))
      ensures DistinctAttackIds(old(defenses)) ==> DistinctAttackIds(defenses)
      ensures app.logs == App.AppendLog(old(app.logs), OutcomeLog(job, Succeeds(draw)))
      ensures app.blueAgents == Types.SetActivity(job.snapshot, job.responder.id, Types.Idle, "Monitoring for threats")
      ensures app.redAgents == old(app.redAgents)
      ensures app.metrics == old(app.metrics) && app.activeAttacks == old(app.activeAttacks)
    {
      var success := Succeeds(draw);
      if DistinctAttackIds(defenses) {
        AdvanceKeepsAttackIds(defenses, job.defenseId, success);
      }
      defenses := AdvanceDefense(defenses, job.defenseId, success);
      app.HandleLogGenerated(OutcomeLog(job, success));
      app.SetBlueAgents(Types.SetActivity(job.snapshot, job.responder.id, Types.Idle, "Monitoring for threats"));
    }

    /** The effect on the incoming-attack list: only its last entry is considered, and only when DETECTED. */
    method OnIncomingAttacks(incoming: seq<AgentService.AttackResult>, startMs: nat, endMs: nat,
                             reply: GeminiService.Reply, parse: GeminiService.BlueParser)
      returns (job: Option<PendingDefense>)
      requires Valid()
      modifies this, app
      ensures Valid()
      ensures job.Some? ==> |incoming| > 0 && incoming[|incoming| - 1].status == AgentService.Detected
      ensures (|incoming| == 0 || incoming[|incoming| - 1].status != AgentService.Detected) ==>
        defenses == old(defenses) && app.blueAgents == old(app.blueAgents) && app.logs == old(app.logs)
      ensures |incoming| > 0 && incoming[|incoming| - 1].status == AgentService.Detected ==>
        var attack := incoming[|incoming| - 1];
        && (job.Some? <==> !HasDefenseFor(old(defenses), attack.id) && |old(app.blueAgents)| > 0)
        && (job.None? ==> defenses == old(defenses) && app.blueAgents == old(app.blueAgents) && app.logs == old(app.logs))
      ensures job.Some? ==>
        var attack := incoming[|incoming| - 1];
        var pool := old(app.blueAgents);
        var responder := Responder(pool);
        var name := AgentService.AttackName(attack.attackType);
        var d := AgentService.ExecuteBlueTeamDefense(attack, responder, startMs, endMs, reply, parse);
        && job.value == PendingDefense(d.id, responder, name, Types.Show(d.mitigation), pool)
        && defenses == old(defenses) + [d]
        && app.blueAgents == Types.SetActivity(pool, responder.id, Types.Analyzing, "Analyzing " + name)
        && app.logs == App.AppendLog(App.AppendLog(old(app.logs), DetectionLog(responder, name)), AnalysisLog(responder, d))
      ensures DistinctAttackIds(old(defenses)) ==> DistinctAttackIds(defenses)
      ensures app.redAgents == old(app.redAgents) && app.metrics == old(app.metrics)
      ensures app.activeAttacks == old(app.activeAttacks)
    {
      if |incoming| > 0 && incoming[|incoming| - 1].status == AgentService.Detected {
        job := HandleIncomingAttack(incoming[|incoming| - 1], startMs, endMs, reply, parse);
      } else {
        job := None;
      }
    }
  }
}

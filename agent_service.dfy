/**
 * Attack and defence records and their state machines (services/agentService.ts).
 * Clock readings are parameters: `startMs` is `Date.now()` before the
 * backend is consulted, `endMs` after it, and `clock` is the
 * `toLocaleTimeString()` text stamped into log lines.
 */
module AgentService {
  import opened Wrappers
  import Types
  import Strings
  import GeminiService

  datatype AttackType =
    | SqlInjection | Xss | BruteForce | Phishing | Ransomware | DDoS | PrivilegeEscalation | DataExfiltration

  /** The enumeration's string values, which are what templates print. */
  function AttackName(t: AttackType): string
  {
    match t
    case SqlInjection => "SQL Injection"
    case Xss => "Cross-Site Scripting"
    case BruteForce => "Brute Force"
    case Phishing => "Phishing Campaign"
    case Ransomware => "Ransomware Simulation"
    case DDoS => "DDoS Attack"
    case PrivilegeEscalation => "Privilege Escalation"
    case DataExfiltration => "Data Exfiltration"
  }

  datatype AttackStatus = Initiated | InProgress | Detected | Blocked | Success

  function StatusName(s: AttackStatus): string
  {
    match s
    case Initiated => "INITIATED"
    case InProgress => "IN_PROGRESS"
    case Detected => "DETECTED"
    case Blocked => "BLOCKED"
    case Success => "SUCCESS"
  }

  datatype AttackResult = AttackResult(
    id: string,
    attackType: AttackType,
    agentId: string,
    timestamp: nat,
    strategy: Types.Field,
    payload: string,
    expectedImpact: Types.Field,
    status: AttackStatus,
    logs: seq<string>)

  datatype DefenseStatus = Analyzing | Mitigating | Blocked | Failed

  datatype DefenseResult = DefenseResult(
    id: string,
    attackId: string,
    agentId: string,
    timestamp: nat,
    analysis: Types.Field,
    mitigation: Types.Field,
    confidence: Option<int>,
    status: DefenseStatus)

  /** A log line stamped with the clock text. */
  function Stamp(clock: string, text: string): string
  {
    "[" + clock + "] " + text
  }

  // ---------------------------------------------------------------------------
  // Creating records

  /** The V8 error for `attackPlan.payload.substring(0, 50)` when the plan has no payload. */
  const MissingPayload: Types.JsError := Types.TypeError("Cannot read properties of undefined (reading 'substring')")

  /**
   * `executeRedTeamAttack`: the plan generated for the attack's name, made
   * into a record by `AttackFromPlan`.
   */
  function ExecuteRedTeamAttack(
    attackType: AttackType, agent: Types.Agent, startMs: nat, endMs: nat, clock: string,
    reply: GeminiService.Reply, parse: GeminiService.RedParser): (r: Result<AttackResult, Types.JsError>)
    ensures r.Ok? ==> r.value.status == Initiated && r.value.attackType == attackType && r.value.agentId == agent.id
  {
    AttackFromPlan(attackType, agent, startMs, endMs, clock,
      GeminiService.GenerateRedTeamAttack(AttackName(attackType), reply, parse))
  }

  /** The record built from a generated plan; a plan without a payload makes the third log line throw. */
  function AttackFromPlan(
    attackType: AttackType, agent: Types.Agent, startMs: nat, endMs: nat, clock: string,
    plan: GeminiService.RedPlan): (r: Result<AttackResult, Types.JsError>)
    ensures r.Err? <==> plan.payload.Undefined?
    ensures r.Err? ==> r.error == MissingPayload
    ensures r.Ok? ==>
      && r.value.id == "attack-" + Strings.NatToDecimal(startMs)
      && r.value.attackType == attackType && r.value.agentId == agent.id && r.value.timestamp == endMs
      && r.value.status == Initiated
      && r.value.strategy == plan.strategy && Types.Str(r.value.payload) == plan.payload
      && r.value.expectedImpact == plan.expectedImpact
      && r.value.logs == [
        Stamp(clock, "Attack initiated by " + agent.name),
        Stamp(clock, "Strategy: " + Types.Show(plan.strategy)),
        Stamp(clock, "Payload generated: " + Strings.Take(plan.payload.s, 50) + "...")]
  {
    match plan.payload
    case Undefined => Err(MissingPayload)
    case Str(payload) =>
      Ok(AttackResult(
        "attack-" + Strings.NatToDecimal(startMs), attackType, agent.id, endMs,
        plan.strategy, payload, plan.expectedImpact, Initiated,
        [ Stamp(clock, "Attack initiated by " + agent.name),
          Stamp(clock, "Strategy: " + Types.Show(plan.strategy)),
          Stamp(clock, "Payload generated: " + Strings.Take(payload, 50) + "...") ]))
  }

  /** The threat description handed to the blue-team backend. */
  function ThreatInfo(attack: AttackResult): string
  {
    AttackName(attack.attackType) + " attack detected. Strategy: " + Types.Show(attack.strategy)
      + ". Payload: " + attack.payload
  }

  /** `executeBlueTeamDefense`: a record in status ANALYZING bound to the attack and the responder. */
  function ExecuteBlueTeamDefense(
    attack: AttackResult, agent: Types.Agent, startMs: nat, endMs: nat,
    reply: GeminiService.Reply, parse: GeminiService.BlueParser): (d: DefenseResult)
    ensures d.status == Analyzing && d.attackId == attack.id && d.agentId == agent.id
    ensures d.id == "defense-" + Strings.NatToDecimal(startMs) && d.timestamp == endMs
    ensures var plan := GeminiService.GenerateBlueTeamResponse(AttackName(attack.attackType), ThreatInfo(attack), reply, parse);
      d.analysis == plan.analysis && d.mitigation == plan.mitigation && d.confidence == plan.confidence
  {
    var plan := GeminiService.GenerateBlueTeamResponse(AttackName(attack.attackType), ThreatInfo(attack), reply, parse);
    DefenseResult("defense-" + Strings.NatToDecimal(startMs), attack.id, agent.id, endMs,
      plan.analysis, plan.mitigation, plan.confidence, Analyzing)
  }

  /**
   * `createTrainedAgent`, with `r` the `Math.random()` draw: an idle agent
   * whose efficiency is 85 + floor(r * 15), which lies in 85..99.
   */
  function CreateTrainedAgent(
    id: string, name: string, role: string, team: Types.AgentType, specialization: seq<string>, r: real): (a: Types.Agent)
    requires 0.0 <= r < 1.0
    ensures a.id == id && a.name == name && a.role == role && a.team == team
    ensures a.status == Types.Idle && a.currentTask == "Awaiting orders"
    ensures 85 <= a.efficiency <= 99
    ensures a.logs == [
      "Agent " + name + " initialized",
      "Specialization: " + Strings.Join(specialization, ", "),
      "Training complete - Ready for deployment"]
  {
    Types.Agent(id, name, role, team, Types.Idle, "Awaiting orders", 85 + (r * 15.0).Floor,
      [ "Agent " + name + " initialized",
        "Specialization: " + Strings.Join(specialization, ", "),
        "Training complete - Ready for deployment" ])
  }

  // ---------------------------------------------------------------------------
  // progressAttack

  const Forward: seq<AttackStatus> := [Initiated, InProgress, Detected]

  /** `statuses.indexOf(status)`: the position in the forward order, or -1 for BLOCKED and SUCCESS. */
  function IndexOf(s: AttackStatus): (i: int)
    ensures -1 <= i < |Forward|
    ensures i >= 0 ==> Forward[i] == s
    ensures i == -1 <==> s !in Forward
  {
    match s
    case Initiated => 0
    case InProgress => 1
    case Detected => 2
    case _ => -1
  }

  /**
   * `progressAttack` as written: move to the next status of the forward
   * order and log it. A status outside that order has index -1, passes
   * the `currentIndex < 2` guard, and is sent back to INITIATED.
   */
  function ProgressAttack(a: AttackResult, clock: string): (r: AttackResult)
    ensures r.status in Forward
    ensures r.status == a.status <==> a.status == Detected
    ensures a.status == Detected ==> r == a
    ensures a.status != Detected ==>
      r == a.(status := r.status, logs := a.logs + [Stamp(clock, "Status: " + StatusName(r.status))])
    ensures a.status !in Forward ==> r.status == Initiated
  {
    var i := IndexOf(a.status);
    if i < |Forward| - 1 then
      var next := Forward[i + 1];
      a.(status := next, logs := a.logs + [Stamp(clock, "Status: " + StatusName(next))])
    else
      a
  }

  /** The status an advance moves to, along INITIATED, IN_PROGRESS, DETECTED. */
  function NextStatus(s: AttackStatus): AttackStatus
  {
    match s
    case Initiated => InProgress
    case InProgress => Detected
    case _ => s
  }

  /**
   * The advance as intended: along the forward order, with DETECTED and the
   * externally reached BLOCKED and SUCCESS left unchanged.
   */
  function AdvanceAttack(a: AttackResult, clock: string): (r: AttackResult)
    ensures a.status in {Detected, AttackStatus.Blocked, Success} ==> r == a
    ensures a.status in {Initiated, InProgress} ==>
      r == a.(status := NextStatus(a.status), logs := a.logs + [Stamp(clock, "Status: " + StatusName(NextStatus(a.status)))])
  {
    if a.status in {Initiated, InProgress} then
      var next := NextStatus(a.status);
      a.(status := next, logs := a.logs + [Stamp(clock, "Status: " + StatusName(next))])
    else
      a
  }

  /** `progressAttack` moves INITIATED to IN_PROGRESS and IN_PROGRESS to DETECTED, logging one line and changing nothing else. */
  lemma ProgressAttackForward(a: AttackResult, clock: string)
    requires a.status == Initiated || a.status == InProgress
    ensures var r := ProgressAttack(a, clock);
      && r.status == (if a.status == Initiated then InProgress else Detected)
      && r.logs == a.logs + [Stamp(clock, "Status: " + StatusName(r.status))]
      && r == a.(status := r.status, logs := r.logs)
  {
  }

  /** A DETECTED record is returned unchanged. */
  lemma ProgressAttackDetectedFixpoint(a: AttackResult, clock: string)
    requires a.status == Detected
    ensures ProgressAttack(a, clock) == a
  {
  }

  /** As written, BLOCKED and SUCCESS are reset to INITIATED with one more log line. */
  lemma ProgressAttackResetsTerminal(a: AttackResult, clock: string)
    requires a.status == AttackStatus.Blocked || a.status == Success
    ensures ProgressAttack(a, clock).status == Initiated
    ensures ProgressAttack(a, clock).logs == a.logs + [Stamp(clock, "Status: INITIATED")]
    ensures ProgressAttack(a, clock) != a
  {
    assert "Status: " + StatusName(Initiated) == "Status: INITIATED";
  }

  /** On every status of the forward order the intended advance and `progressAttack` agree. */
  lemma AdvanceAgreesOnForward(a: AttackResult, clock: string)
    requires a.status in Forward
    ensures AdvanceAttack(a, clock) == ProgressAttack(a, clock)
  {
  }

  /** Position in the lifecycle; the intended advance never lowers it. */
  function Rank(s: AttackStatus): nat
  {
    match s
    case Initiated => 0
    case InProgress => 1
    case Detected => 2
    case Blocked => 3
    case Success => 3
  }

  lemma AdvanceNeverGoesBack(a: AttackResult, clock: string)
    ensures Rank(AdvanceAttack(a, clock).status) >= Rank(a.status)
    ensures AdvanceAttack(a, clock).status == a.status <==> a.status !in {Initiated, InProgress}
  {
  }

  /** `n` successive advances with the same clock text. */
  function AdvanceTimes(a: AttackResult, n: nat, clock: string): AttackResult
    decreases n
  {
    if n == 0 then a else AdvanceTimes(AdvanceAttack(a, clock), n - 1, clock)
  }

  /** From INITIATED, two or more advances end at DETECTED with exactly two status lines added. */
  lemma {:induction false} AdvanceTimesReachesDetected(a: AttackResult, n: nat, clock: string)
    requires a.status == Initiated && n >= 2
    ensures AdvanceTimes(a, n, clock).status == Detected
    ensures |AdvanceTimes(a, n, clock).logs| == |a.logs| + 2
  {
    var b := AdvanceAttack(AdvanceAttack(a, clock), clock);
    assert AdvanceTimes(a, n, clock) == AdvanceTimes(b, n - 2, clock);
    DetectedStays(b, n - 2, clock);
  }

  lemma {:induction false} DetectedStays(a: AttackResult, n: nat, clock: string)
    requires a.status == Detected
    ensures AdvanceTimes(a, n, clock) == a
  {
    if n > 0 {
      DetectedStays(AdvanceAttack(a, clock), n - 1, clock);
    }
  }

  // ---------------------------------------------------------------------------
  // progressDefense

  /** `progressDefense`: ANALYZING to MITIGATING, then MITIGATING to BLOCKED or FAILED by the outcome. */
  function ProgressDefense(d: DefenseResult, success: bool): (r: DefenseResult)
    ensures r == d.(status := r.status)
  {
    if d.status == Analyzing then d.(status := Mitigating)
    else if d.status == Mitigating then d.(status := if success then DefenseStatus.Blocked else Failed)
    else d
  }

  /** ANALYZING goes to MITIGATING whatever the outcome. */
  lemma ProgressDefenseFromAnalyzing(d: DefenseResult, success: bool)
    requires d.status == Analyzing
    ensures ProgressDefense(d, success).status == Mitigating
    ensures ProgressDefense(d, success) == ProgressDefense(d, !success)
  {
  }

  /** MITIGATING goes to BLOCKED exactly when the outcome is a success, otherwise to FAILED. */
  lemma ProgressDefenseResolves(d: DefenseResult, success: bool)
    requires d.status == Mitigating
    ensures ProgressDefense(d, success).status == DefenseStatus.Blocked <==> success
    ensures ProgressDefense(d, success).status == Failed <==> !success
  {
  }

  /** BLOCKED and FAILED absorb further advances. */
  lemma ProgressDefenseTerminal(d: DefenseResult, success: bool)
    requires d.status == DefenseStatus.Blocked || d.status == Failed
    ensures ProgressDefense(d, success) == d
  {
  }

  /** The two scheduled advances take a fresh defence to BLOCKED on success and FAILED otherwise. */
  lemma DefenseTwoSteps(d: DefenseResult, success: bool)
    requires d.status == Analyzing
    ensures ProgressDefense(ProgressDefense(d, true), success).status == (if success then DefenseStatus.Blocked else Failed)
  {
  }
}

/**
 * The application's shared state (App.tsx): the two agent pools, the
 * session log, the metric window and the list of launched attacks. The
 * handlers the views call are the list transforms below; `AppState` holds
 * the state the React setters replace.
 */
module App {
  import Types
  import Strings
  import Lists
  import AgentService

  type Attack = AgentService.AttackResult

  // ---------------------------------------------------------------------------
  // handleAttackLaunched: upsert by id

  predicate HasId(attacks: seq<Attack>, id: string)
  {
    exists i :: 0 <= i < |attacks| && attacks[i].id == id
  }

  ghost predicate DistinctIds(attacks: seq<Attack>)
  {
    forall i, j :: 0 <= i < j < |attacks| ==> attacks[i].id != attacks[j].id
  }

  /** A launched attack replaces the entry with its id, in place, or joins the end of the list. */
  function UpsertAttack(prev: seq<Attack>, attack: Attack): (next: seq<Attack>)
    ensures HasId(prev, attack.id) ==> |next| == |prev|
    ensures HasId(prev, attack.id) ==>
      forall i :: 0 <= i < |prev| ==> next[i] == (if prev[i].id == attack.id then attack else prev[i])
    ensures !HasId(prev, attack.id) ==> next == prev + [attack]
  {
    if HasId(prev, attack.id) then
      seq(|prev|, i requires 0 <= i < |prev| => if prev[i].id == attack.id then attack else prev[i])
    else
      prev + [attack]
  }

  /** Upserting keeps ids distinct, adds exactly the attack's id, and leaves the attack as the entry under its id. */
  lemma UpsertKeepsIdsDistinct(prev: seq<Attack>, attack: Attack)
    requires DistinctIds(prev)
    ensures var next := UpsertAttack(prev, attack);
      && DistinctIds(next)
      && (forall id :: HasId(next, id) <==> HasId(prev, id) || id == attack.id)
      && (forall i :: 0 <= i < |next| && next[i].id == attack.id ==> next[i] == attack)
  {
    var next := UpsertAttack(prev, attack);
    if HasId(prev, attack.id) {
      var k :| 0 <= k < |prev| && prev[k].id == attack.id;
      assert next[k] == attack;
      forall id | HasId(prev, id) ensures HasId(next, id) {
        var j :| 0 <= j < |prev| && prev[j].id == id;
        assert next[j].id == id;
      }
    } else {
      assert next[|prev|] == attack;
      forall id | HasId(prev, id) ensures HasId(next, id) {
        var j :| 0 <= j < |prev| && prev[j].id == id;
        assert next[j].id == id;
      }
    }
  }

  /** Launching the same attack record twice is the same as launching it once. */
  lemma UpsertIdempotent(prev: seq<Attack>, attack: Attack)
    ensures UpsertAttack(UpsertAttack(prev, attack), attack) == UpsertAttack(prev, attack)
  {
    var next := UpsertAttack(prev, attack);
    if !HasId(prev, attack.id) {
      assert next[|prev|].id == attack.id;
    }
  }

  // ---------------------------------------------------------------------------
  // handleLogGenerated: a log of at most 100 entries

  /** The previous 99 newest entries, then the new one. */
  function AppendLog(prev: seq<Types.LogEntry>, log: Types.LogEntry): (next: seq<Types.LogEntry>)
    ensures |next| == Lists.Min(|prev|, 99) + 1 && |next| <= 100
    ensures next[|next| - 1] == log
    ensures next[..|next| - 1] == prev[|prev| - (|next| - 1)..]
  {
    Lists.KeepLast(prev, 99) + [log]
  }

  /** The session log is a bounded log of capacity 100. */
  lemma AppendLogIsBoundedPush(prev: seq<Types.LogEntry>, log: Types.LogEntry)
    ensures AppendLog(prev, log) == Lists.BoundedPush(prev, log, 100)
  {
    Lists.KeepLastAppend(prev, log, 99);
  }

  /** Logs arriving one after the other are bounded pushes of capacity 100. */
  lemma {:induction false} AppendLogsIsPushAll(prev: seq<Types.LogEntry>, logs: seq<Types.LogEntry>)
    ensures AppendLogs(prev, logs) == Lists.PushAll(prev, logs, 100)
    decreases |logs|
  {
    if logs != [] {
      AppendLogIsBoundedPush(prev, logs[0]);
      AppendLogsIsPushAll(AppendLog(prev, logs[0]), logs[1..]);
    }
  }

  /** However many logs arrive, the session log holds the newest 100 of them, in arrival order. */
  lemma LogKeepsNewest(prev: seq<Types.LogEntry>, logs: seq<Types.LogEntry>)
    requires |prev| <= 100
    ensures AppendLogs(prev, logs) == Lists.KeepLast(prev + logs, 100)
  {
    AppendLogsIsPushAll(prev, logs);
    Lists.PushAllKeepsNewest(prev, logs, 100);
  }

  /** The logs arriving one after the other. */
  function AppendLogs(prev: seq<Types.LogEntry>, logs: seq<Types.LogEntry>): seq<Types.LogEntry>
    decreases |logs|
  {
    if logs == [] then prev else AppendLogs(AppendLog(prev, logs[0]), logs[1..])
  }

  // ---------------------------------------------------------------------------
  // The metric window

  /** One point of the traffic chart. */
  datatype MetricData = MetricData(time: string, attacks: nat, blocked: nat, incidents: nat)

  /** The numbers `generateMockMetric` draws at random; they are supplied from outside. */
  datatype MetricSample = MetricSample(attacks: nat, blocked: nat, incidents: nat)

  function Stamp(time: string, sample: MetricSample): MetricData
  {
    MetricData(time, sample.attacks, sample.blocked, sample.incidents)
  }

  /** `text` is an hour label: decimal digits that read as `h`, then ":00". */
  ghost predicate IsHourLabel(text: string, h: nat)
  {
    && |text| >= 4 && text[|text| - 3..] == ":00"
    && Strings.AllDigits(text[..|text| - 3]) && Strings.DecimalValue(text[..|text| - 3]) == h
  }

  /** `${h}:00`. */
  function HourLabel(h: nat): (r: string)
    ensures IsHourLabel(r, h)
  {
    var d := Strings.NatToDecimal(h);
    Strings.DecimalRoundTrip(h);
    assert (d + ":00")[..|d|] == d;
    d + ":00"
  }

  /**
   * The window the application starts with: twenty points, the i-th
   * labelled with hour 10 + i and carrying the i-th draw.
   */
  function InitialWindow(draw: nat -> MetricSample): (w: seq<MetricData>)
    ensures |w| == 20
    ensures forall i :: 0 <= i < 20 ==>
      && IsHourLabel(w[i].time, 10 + i)
      && w[i].attacks == draw(i).attacks && w[i].blocked == draw(i).blocked
      && w[i].incidents == draw(i).incidents
  {
    PrefixPoints(draw, 20);
    WindowPrefix(draw, 20)
  }

  /** The first `n` points of the initial window, as the mount loop builds them. */
  function WindowPrefix(draw: nat -> MetricSample, n: nat): seq<MetricData>
  {
    seq(n, i requires 0 <= i < n => Stamp(HourLabel(10 + i), draw(i)))
  }

  /** Each point of a prefix carries its hour label and its draw. */
  lemma PrefixPoints(draw: nat -> MetricSample, n: nat)
    ensures |WindowPrefix(draw, n)| == n
    ensures forall i :: 0 <= i < n ==>
      var p := WindowPrefix(draw, n)[i];
      && IsHourLabel(p.time, 10 + i)
      && p.attacks == draw(i).attacks && p.blocked == draw(i).blocked && p.incidents == draw(i).incidents
  {
    var w := WindowPrefix(draw, n);
    forall i | 0 <= i < n
      ensures IsHourLabel(w[i].time, 10 + i)
      ensures w[i].attacks == draw(i).attacks && w[i].blocked == draw(i).blocked && w[i].incidents == draw(i).incidents
    {
      assert w[i] == Stamp(HourLabel(10 + i), draw(i));
    }
  }

  /** One more iteration appends the next point. */
  lemma WindowPrefixGrows(draw: nat -> MetricSample, n: nat)
    ensures WindowPrefix(draw, n + 1) == WindowPrefix(draw, n) + [Stamp(HourLabel(10 + n), draw(n))]
  {
  }

  /** Twenty iterations build the initial window. */
  lemma InitialWindowIsPrefix(draw: nat -> MetricSample)
    ensures InitialWindow(draw) == WindowPrefix(draw, 20)
  {
  }

  /** The initial labels run from "10:00" to "29:00" and are pairwise distinct. */
  lemma InitialWindowLabels(draw: nat -> MetricSample)
    ensures var w := InitialWindow(draw);
      && |w| == 20
      && w[0].time == "10:00" && w[19].time == "29:00"
      && forall i, j :: 0 <= i < j < 20 ==> w[i].time != w[j].time
  {
    var w := InitialWindow(draw);
    Strings.TwoDigitDecimal(10);
    Strings.TwoDigitDecimal(29);
    assert w[0].time == HourLabel(10) && w[19].time == HourLabel(29);
    forall i, j | 0 <= i < j < 20 ensures w[i].time != w[j].time {
      assert IsHourLabel(w[i].time, 10 + i) && IsHourLabel(w[j].time, 10 + j);
    }
  }

  /** `padStart(2, '0')` on a decimal number. */
  function Pad2(n: nat): (r: string)
    ensures n < 100 ==> |r| == 2
    ensures Strings.AllDigits(r) && Strings.DecimalValue(r) == n
  {
    Strings.DecimalRoundTrip(n);
    if n < 10 then
      var d := Strings.NatToDecimal(n);
      assert d == [Strings.Digit(n)];
      assert ("0" + d)[..1] == "0";
      "0" + d
    else
      Strings.NatToDecimal(n)
  }

  /** The tick's clock label `${h}:${mm}:${ss}`. */
  function TimeLabel(hours: nat, minutes: nat, seconds: nat): (r: string)
    ensures minutes < 100 && seconds < 100 ==>
      && |r| >= 7 && r[|r| - 6] == ':' && r[|r| - 3] == ':'
      && Strings.AllDigits(r[..|r| - 6]) && Strings.DecimalValue(r[..|r| - 6]) == hours
      && Strings.AllDigits(r[|r| - 5..|r| - 3]) && Strings.DecimalValue(r[|r| - 5..|r| - 3]) == minutes
      && Strings.AllDigits(r[|r| - 2..]) && Strings.DecimalValue(r[|r| - 2..]) == seconds
  {
    var h, m, sec := Strings.NatToDecimal(hours), Pad2(minutes), Pad2(seconds);
    Strings.DecimalRoundTrip(hours);
    if |m| == 2 && |sec| == 2 then ClockParts(h, m, sec); h + ":" + m + ":" + sec
    else h + ":" + m + ":" + sec
  }

  /** Where the three parts of `a:bb:cc` sit when the last two have two characters each. */
  lemma ClockParts(a: string, b: string, c: string)
    requires |b| == 2 && |c| == 2
    ensures var r := a + ":" + b + ":" + c;
      && |r| == |a| + 6 && r[|r| - 6] == ':' && r[|r| - 3] == ':'
      && r[..|r| - 6] == a && r[|r| - 5..|r| - 3] == b && r[|r| - 2..] == c
  {
    var r := a + ":" + b + ":" + c;
    assert r[..|a|] == a;
    assert r[|a| + 1..|a| + 3] == b;
    assert r[|a| + 4..] == c;
  }

  /** One tick of the simulation loop: drop the oldest point and append the new one. */
  function MetricTick(window: seq<MetricData>, m: MetricData): (next: seq<MetricData>)
    ensures |next| >= 1 && next[|next| - 1] == m
    ensures |window| > 0 ==> |next| == |window| && next[..|next| - 1] == window[1..]
  {
    if |window| == 0 then [m] else window[1..] + [m]
  }

  /** On a non-empty window a tick is a bounded push whose capacity is the window's length. */
  lemma MetricTickIsBoundedPush(window: seq<MetricData>, m: MetricData)
    requires |window| > 0
    ensures MetricTick(window, m) == Lists.BoundedPush(window, m, |window|)
  {
    assert (window + [m])[|window + [m]| - |window|..] == window[1..] + [m];
  }

  /** On a non-empty window, ticks are bounded pushes whose capacity is the window's length. */
  lemma {:induction false} TicksArePushAll(window: seq<MetricData>, ms: seq<MetricData>)
    requires |window| > 0
    ensures Ticks(window, ms) == Lists.PushAll(window, ms, |window|)
    decreases |ms|
  {
    if ms != [] {
      MetricTickIsBoundedPush(window, ms[0]);
      TicksArePushAll(MetricTick(window, ms[0]), ms[1..]);
    }
  }

  /** After any number of ticks a window of length n holds the newest n points. */
  lemma TicksKeepNewest(window: seq<MetricData>, ms: seq<MetricData>)
    requires |window| > 0
    ensures Ticks(window, ms) == Lists.KeepLast(window + ms, |window|)
  {
    TicksArePushAll(window, ms);
    Lists.PushAllKeepsNewest(window, ms, |window|);
  }

  /** The ticks arriving one after the other. */
  function Ticks(window: seq<MetricData>, ms: seq<MetricData>): seq<MetricData>
    decreases |ms|
  {
    if ms == [] then window else Ticks(MetricTick(window, ms[0]), ms[1..])
  }

  // ---------------------------------------------------------------------------
  // The state the setters replace

  class AppState {
    var redAgents: seq<Types.Agent>
    var blueAgents: seq<Types.Agent>
    var logs: seq<Types.LogEntry>
    var metrics: seq<MetricData>
    var activeAttacks: seq<Attack>

    ghost predicate Valid()
      reads this
    {
      |logs| <= 100 && DistinctIds(activeAttacks)
    }

    /** The initial state; the two starting pools are built elsewhere and passed in. */
    constructor(red: seq<Types.Agent>, blue: seq<Types.Agent>)
      ensures Valid()
      ensures redAgents == red && blueAgents == blue
      ensures logs == [] && metrics == [] && activeAttacks == []
    {
      redAgents := red;
      blueAgents := blue;
      logs := [];
      metrics := [];
      activeAttacks := [];
    }

    method HandleAttackLaunched(attack: Attack)
      requires Valid()
      modifies this
      ensures Valid()
      ensures activeAttacks == UpsertAttack(old(activeAttacks), attack)
      ensures redAgents == old(redAgents) && blueAgents == old(blueAgents)
      ensures logs == old(logs) && metrics == old(metrics)
    {
      UpsertKeepsIdsDistinct(activeAttacks, attack);
      activeAttacks := UpsertAttack(activeAttacks, attack);
    }

    method HandleLogGenerated(log: Types.LogEntry)
      requires Valid()
      modifies this
      ensures Valid()
      ensures logs == AppendLog(old(logs), log)
      ensures redAgents == old(redAgents) && blueAgents == old(blueAgents)
      ensures metrics == old(metrics) && activeAttacks == old(activeAttacks)
    {
      logs := AppendLog(logs, log);
    }

    /** `setRedAgents`, as the red-team view calls it. */
    method SetRedAgents(agents: seq<Types.Agent>)
      requires Valid()
      modifies this
      ensures Valid()
      ensures redAgents == agents && blueAgents == old(blueAgents)
      ensures logs == old(logs) && metrics == old(metrics) && activeAttacks == old(activeAttacks)
    {
      redAgents := agents;
    }

    /** `setBlueAgents`, as the blue-team view calls it. */
    method SetBlueAgents(agents: seq<Types.Agent>)
      requires Valid()
      modifies this
      ensures Valid()
      ensures blueAgents == agents && redAgents == old(redAgents)
      ensures logs == old(logs) && metrics == old(metrics) && activeAttacks == old(activeAttacks)
    {
      blueAgents := agents;
    }

    /** The mount effect: twenty points built one by one, the i-th from `draw(i)`. */
    method MountMetrics(draw: nat -> MetricSample)
      requires Valid()
      modifies this
      ensures Valid()
      ensures metrics == InitialWindow(draw)
      ensures redAgents == old(redAgents) && blueAgents == old(blueAgents)
      ensures logs == old(logs) && activeAttacks == old(activeAttacks)
    {
      var window: seq<MetricData> := [];
      var i := 0;
      while i < 20
        invariant 0 <= i <= 20
        invariant window == WindowPrefix(draw, i)
        invariant unchanged(this)
      {
        WindowPrefixGrows(draw, i);
        window := window + [Stamp(HourLabel(10 + i), draw(i))];
        i := i + 1;
      }
      InitialWindowIsPrefix(draw);
      metrics := window;
    }

    /** One firing of the two-second interval, at the given wall-clock time. */
    method Tick(hours: nat, minutes: nat, seconds: nat, sample: MetricSample)
      requires Valid()
      modifies this
      ensures Valid()
      ensures metrics == MetricTick(old(metrics), Stamp(TimeLabel(hours, minutes, seconds), sample))
      ensures redAgents == old(redAgents) && blueAgents == old(blueAgents)
      ensures logs == old(logs) && activeAttacks == old(activeAttacks)
    {
      metrics := MetricTick(metrics, Stamp(TimeLabel(hours, minutes, seconds), sample));
    }
  }
}

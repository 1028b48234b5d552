/**
 * The strategic orchestrator panel (views/OrchestratorView.tsx). A reasoning
 * round builds a context line from the agents' current tasks, asks the
 * backend for a decision, shows it, and files it at the front of a history
 * of at most five decisions. A round is split at its `await`:
 * `StartReasoning` runs up to the backend call, `FinishReasoning` from the
 * reply on.
 */
module OrchestratorView {
  import Types
  import Strings
  import Lists
  import GeminiService

  const HistoryCap: nat := 5

  /** `agents.map(a => a.currentTask)`. */
  function Tasks(agents: seq<Types.Agent>): (r: seq<string>)
    ensures |r| == |agents|
    ensures forall i :: 0 <= i < |r| ==> r[i] == agents[i].currentTask
  {
    seq(|agents|, i requires 0 <= i < |agents| => agents[i].currentTask)
  }

  /** The context line: each team's tasks joined by ", ", the red team's first. */
  function Context(red: seq<Types.Agent>, blue: seq<Types.Agent>): (r: string)
    ensures "Red Agents: " <= r
    ensures r[|r| - 1] == '.'
    ensures |r| == 28 + |Strings.Join(Tasks(red), ", ")| + |Strings.Join(Tasks(blue), ", ")|
  {
    "Red Agents: " + Strings.Join(Tasks(red), ", ") + ". Blue Agents: " + Strings.Join(Tasks(blue), ", ") + "."
  }

  /** With no agents on either side the context names no task. */
  lemma EmptyPoolsContext()
    ensures Context([], []) == "Red Agents: . Blue Agents: ."
  {
  }

  /** A team's tasks are listed in order: a lone task as it is, otherwise the first task, a comma, then the rest. */
  lemma TasksListedInOrder(a: Types.Agent, rest: seq<Types.Agent>)
    ensures Strings.Join(Tasks([a]), ", ") == a.currentTask
    ensures |rest| > 0 ==> Strings.Join(Tasks([a] + rest), ", ") == a.currentTask + ", " + Strings.Join(Tasks(rest), ", ")
  {
    assert Tasks([a]) == [a.currentTask];
    if |rest| > 0 {
      assert Tasks([a] + rest) == [a.currentTask] + Tasks(rest);
      Strings.JoinCons(a.currentTask, Tasks(rest), ", ");
    }
  }

  // ---------------------------------------------------------------------------
  // The decision history: `[decision, ...prev].slice(0, 5)`

  function PushNewest(history: seq<string>, decision: string): (r: seq<string>)
    ensures |r| == Lists.Min(HistoryCap, |history| + 1)
    ensures r[0] == decision
    ensures forall i :: 1 <= i < |r| ==> r[i] == history[i - 1]
  {
    ([decision] + history)[..Lists.Min(HistoryCap, |history| + 1)]
  }

  /** Pushing every decision of `ds` in turn, the first of them first. */
  function PushAllNewest(history: seq<string>, ds: seq<string>): seq<string>
    decreases |ds|
  {
    if ds == [] then history else PushAllNewest(PushNewest(history, ds[0]), ds[1..])
  }

  function Reversed(s: seq<string>): (r: seq<string>)
    ensures |r| == |s|
    ensures forall i :: 0 <= i < |s| ==> r[i] == s[|s| - 1 - i]
  {
    if s == [] then [] else Reversed(s[1..]) + [s[0]]
  }

  /**
   * After any number of rounds the history holds the newest five decisions
   * of everything ever filed, newest first.
   */
  lemma {:induction false} HistoryKeepsNewest(history: seq<string>, ds: seq<string>)
    requires |history| <= HistoryCap
    ensures PushAllNewest(history, ds) == (Reversed(ds) + history)[..Lists.Min(HistoryCap, |ds| + |history|)]
    decreases |ds|
  {
    if ds != [] {
      var h1 := PushNewest(history, ds[0]);
      HistoryKeepsNewest(h1, ds[1..]);
      var n := Lists.Min(HistoryCap, |ds| + |history|);
      var lhs := (Reversed(ds[1..]) + h1)[..Lists.Min(HistoryCap, |ds| - 1 + |h1|)];
      var rhs := (Reversed(ds) + history)[..n];
      assert Reversed(ds) == Reversed(ds[1..]) + [ds[0]];
      assert |lhs| == n;
      forall i | 0 <= i < n ensures lhs[i] == rhs[i] {
        var m := |ds| - 1;
        if i < m {
          assert lhs[i] == Reversed(ds[1..])[i];
        } else if i == m {
          assert lhs[i] == h1[0];
        } else {
          assert lhs[i] == h1[i - m];
          assert rhs[i] == history[i - m - 1];
        }
      }
    }
  }

  /** `history.slice(1)`: every stored decision but the current one. */
  function Displayed(history: seq<string>): (r: seq<string>)
    ensures |r| == if |history| == 0 then 0 else |history| - 1
    ensures forall i :: 0 <= i < |r| ==> r[i] == history[i + 1]
  {
    if |history| == 0 then [] else history[1..]
  }

  /** After a round the panel lists the previous decisions, newest first, four at most. */
  lemma DisplayedAfterPush(history: seq<string>, decision: string)
    ensures Displayed(PushNewest(history, decision)) == history[..Lists.Min(HistoryCap - 1, |history|)]
  {
    var r, q := Displayed(PushNewest(history, decision)), history[..Lists.Min(HistoryCap - 1, |history|)];
    assert |r| == |q|;
    forall i | 0 <= i < |r| ensures r[i] == q[i] {
    }
  }

  class OrchestratorView {
    var thought: string
    var isThinking: bool
    var history: seq<string>

    ghost predicate Valid()
      reads this
    {
      |history| <= HistoryCap
    }

    constructor()
      ensures Valid()
      ensures thought == "" && !isThinking && history == []
    {
      thought := "";
      isThinking := false;
      history := [];
    }

    /** `handleReasoning` up to the backend call: the panel starts thinking and the context line is built. */
    method StartReasoning(red: seq<Types.Agent>, blue: seq<Types.Agent>) returns (context: string)
      requires Valid()
      modifies this
      ensures Valid()
      ensures isThinking && context == Context(red, blue)
      ensures thought == old(thought) && history == old(history)
    {
      isThinking := true;
      context := "Red Agents: " + Strings.Join(Tasks(red), ", ") + ". Blue Agents: " + Strings.Join(Tasks(blue), ", ") + ".";
    }

    /** `handleReasoning` from the reply on: the decision is shown, filed first in the history, and thinking ends. */
    method FinishReasoning(context: string, reply: GeminiService.Reply)
      requires Valid()
      modifies this
      ensures Valid()
      ensures thought == GeminiService.GenerateStrategicDecision(context, reply)
      ensures history == PushNewest(old(history), thought)
      ensures !isThinking
    {
      var decision := GeminiService.GenerateStrategicDecision(context, reply);
      thought := decision;
      history := PushNewest(history, decision);
      isThinking := false;
    }
  }
}

/**
 * The pipeline editor (views/WorkflowView.tsx): six nodes on a canvas, a
 * scripted run that lights them up one step at a time, a reset, a run log of
 * at most 20 entries, and dragging nodes within the canvas.
 */
module WorkflowView {
  import opened Wrappers
  import Lists

  datatype NodeTeam = RedNode | BlueNode | DataNode
  datatype NodeStatus = Idle | Active | Succeeded | Errored

  /** A canvas node; coordinates are pixel values, possibly fractional. */
  datatype Node = Node(id: string, team: NodeTeam, title: string, x: real, y: real, status: NodeStatus)

  datatype Connection = Connection(from: string, to: string, active: bool)

  datatype LogType = InfoLog | SuccessLog | ErrorLog

  /** A run-log entry; its id and timestamp come from the clock and are not modelled. */
  datatype FlowLog = FlowLog(nodeId: string, message: string, kind: LogType)

  /** One scripted step: the node it lights up, the line it logs, and how long it lasts. */
  datatype Step = Step(nodeId: string, message: string, delay: nat)

  const InitialNodes: seq<Node> := [
    Node("data-1", DataNode, "Target System", 100.0, 200.0, Idle),
    Node("red-1", RedNode, "Recon Agent", 300.0, 100.0, Idle),
    Node("red-2", RedNode, "Exploit Agent", 300.0, 300.0, Idle),
    Node("blue-1", BlueNode, "Detection Agent", 550.0, 100.0, Idle),
    Node("blue-2", BlueNode, "Response Agent", 550.0, 300.0, Idle),
    Node("data-2", DataNode, "Security Logs", 800.0, 200.0, Idle)
  ]

  const Connections: seq<Connection> := [
    Connection("data-1", "red-1", false),
    Connection("data-1", "red-2", false),
    Connection("red-1", "blue-1", false),
    Connection("red-2", "blue-2", false),
    Connection("blue-1", "data-2", false),
    Connection("blue-2", "data-2", false)
  ]

  /** The run's script. */
  const Sequence: seq<Step> := [
    Step("red-1", "Scanning target system...", 1000),
    Step("red-1", "Ports 80, 443, 22 discovered", 1500),
    Step("blue-1", "Suspicious scan detected", 500),
    Step("red-2", "Attempting SQL injection...", 1000),
    Step("blue-2", "Malicious payload blocked", 800),
    Step("blue-2", "Firewall rules updated", 500),
    Step("data-2", "Incident logged", 500)
  ]

  const Completion: FlowLog := FlowLog("data-2", "Workflow completed successfully", SuccessLog)

  /** Every connection joins two of the initial nodes, and the script only names nodes on the canvas. */
  lemma ScriptNamesCanvasNodes()
    ensures forall c :: c in Connections ==> HasNode(InitialNodes, c.from) && HasNode(InitialNodes, c.to)
    ensures forall s :: s in Sequence ==> HasNode(InitialNodes, s.nodeId)
  {
    assert InitialNodes[0].id == "data-1" && InitialNodes[1].id == "red-1" && InitialNodes[2].id == "red-2";
    assert InitialNodes[3].id == "blue-1" && InitialNodes[4].id == "blue-2" && InitialNodes[5].id == "data-2";
  }

  // ---------------------------------------------------------------------------
  // Node and log updates

  predicate HasNode(nodes: seq<Node>, id: string)
  {
    exists i :: 0 <= i < |nodes| && nodes[i].id == id
  }

  /** `prev.map(n => n.id === id ? { ...n, status } : n)`. */
  function SetStatus(nodes: seq<Node>, id: string, status: NodeStatus): (r: seq<Node>)
    ensures |r| == |nodes|
    ensures forall i :: 0 <= i < |r| ==> r[i] == (if nodes[i].id == id then nodes[i].(status := status) else nodes[i])
  {
    seq(|nodes|, i requires 0 <= i < |nodes| => if nodes[i].id == id then nodes[i].(status := status) else nodes[i])
  }

  /** `addLog`: append, then keep the newest 20. */
  function AddLogEntry(logs: seq<FlowLog>, entry: FlowLog): (r: seq<FlowLog>)
    ensures r == Lists.KeepLast(logs + [entry], 20)
    ensures 1 <= |r| <= 20 && r[|r| - 1] == entry
  {
    Lists.BoundedPush(logs, entry, 20)
  }

  /** The nodes after the given steps ran to completion, each lighting its node and then marking it a success. */
  function ApplySteps(nodes: seq<Node>, steps: seq<Step>): seq<Node>
  {
    if steps == [] then nodes
    else SetStatus(ApplySteps(nodes, steps[..|steps| - 1]), steps[|steps| - 1].nodeId, Succeeded)
  }

  /** The log lines of the given steps. */
  function StepLogs(steps: seq<Step>): (r: seq<FlowLog>)
    ensures |r| == |steps|
    ensures forall k :: 0 <= k < |r| ==> r[k] == FlowLog(steps[k].nodeId, steps[k].message, InfoLog)
  {
    seq(|steps|, k requires 0 <= k < |steps| => FlowLog(steps[k].nodeId, steps[k].message, InfoLog))
  }

  /** A completed run marks exactly the scripted nodes as successful and leaves everything else about every node as it was. */
  lemma {:induction false} ApplyStepsEffect(nodes: seq<Node>, steps: seq<Step>)
    ensures var r := ApplySteps(nodes, steps);
      && |r| == |nodes|
      && forall i :: 0 <= i < |r| ==>
        r[i] == (if exists k :: 0 <= k < |steps| && steps[k].nodeId == nodes[i].id then nodes[i].(status := Succeeded) else nodes[i])
  {
    if steps != [] {
      var init := steps[..|steps| - 1];
      var last := steps[|steps| - 1];
      ApplyStepsEffect(nodes, init);
      var r := ApplySteps(nodes, steps);
      forall i | 0 <= i < |r|
        ensures r[i] == (if exists k :: 0 <= k < |steps| && steps[k].nodeId == nodes[i].id then nodes[i].(status := Succeeded) else nodes[i])
      {
        if exists k :: 0 <= k < |steps| && steps[k].nodeId == nodes[i].id {
          if last.nodeId != nodes[i].id {
            var k :| 0 <= k < |steps| && steps[k].nodeId == nodes[i].id;
            assert init[k].nodeId == nodes[i].id;
          }
        } else {
          forall k | 0 <= k < |init| ensures init[k].nodeId != nodes[i].id {
            assert init[k] == steps[k];
          }
        }
      }
    }
  }

  /** Two status updates of the same node: the second wins. */
  lemma SetStatusOverrides(nodes: seq<Node>, id: string, s1: NodeStatus, s2: NodeStatus)
    ensures SetStatus(SetStatus(nodes, id, s1), id, s2) == SetStatus(nodes, id, s2)
  {
    var a, b := SetStatus(SetStatus(nodes, id, s1), id, s2), SetStatus(nodes, id, s2);
    assert |a| == |b|;
    forall i | 0 <= i < |a| ensures a[i] == b[i] {
    }
  }

  /** The steps skip the first node and name every other one. */
  ghost predicate CoversAllButFirst(nodes: seq<Node>, steps: seq<Step>)
  {
    && |nodes| > 0
    && (forall k :: 0 <= k < |steps| ==> steps[k].nodeId != nodes[0].id)
    && (forall i :: 1 <= i < |nodes| ==> exists k :: 0 <= k < |steps| && steps[k].nodeId == nodes[i].id)
  }

  /** The script lights every node of the initial canvas except the first, "data-1". */
  lemma ScriptCoversAllButTarget()
    ensures CoversAllButFirst(InitialNodes, Sequence)
  {
    assert Sequence[0].nodeId == InitialNodes[1].id;
    assert Sequence[3].nodeId == InitialNodes[2].id;
    assert Sequence[2].nodeId == InitialNodes[3].id;
    assert Sequence[4].nodeId == InitialNodes[4].id;
    assert Sequence[6].nodeId == InitialNodes[5].id;
  }

  /** A run marks as successful the nodes the script names and no other. */
  lemma RunOnCanvas(nodes: seq<Node>, steps: seq<Step>)
    requires CoversAllButFirst(nodes, steps)
    ensures var r := ApplySteps(nodes, steps);
      && |r| == |nodes|
      && r[0] == nodes[0]
      && forall i :: 1 <= i < |nodes| ==> r[i] == nodes[i].(status := Succeeded)
  {
    ApplyStepsEffect(nodes, steps);
  }

  /** After a whole run of the script on the initial canvas every node but "data-1" has succeeded, and no node has moved. */
  lemma FullRunOnInitialCanvas()
    ensures var r := ApplySteps(InitialNodes, Sequence);
      && |r| == 6
      && r[0] == InitialNodes[0]
      && forall i :: 1 <= i < 6 ==> r[i] == InitialNodes[i].(status := Succeeded)
  {
    ScriptCoversAllButTarget();
    RunOnCanvas(InitialNodes, Sequence);
  }

  /** `resetWorkflow`'s node update: every node idle, nothing else changed. */
  function ResetAll(nodes: seq<Node>): (r: seq<Node>)
    ensures |r| == |nodes|
    ensures forall i :: 0 <= i < |r| ==> r[i] == nodes[i].(status := Idle)
  {
    seq(|nodes|, i requires 0 <= i < |nodes| => nodes[i].(status := Idle))
  }

  /** A reset after a whole run leaves the same canvas as a reset without it. */
  lemma ResetUndoesRun(nodes: seq<Node>)
    ensures ResetAll(ApplySteps(nodes, Sequence)) == ResetAll(nodes)
  {
    ApplyStepsEffect(nodes, Sequence);
    var r, q := ResetAll(ApplySteps(nodes, Sequence)), ResetAll(nodes);
    assert |r| == |q|;
    forall i | 0 <= i < |r| ensures r[i] == q[i] {
    }
  }

  // ---------------------------------------------------------------------------
  // Dragging

  /** `Math.max(0, Math.min(v, hi))`. */
  function Clamp(v: real, hi: real): (r: real)
    requires 0.0 <= hi
    ensures 0.0 <= r <= hi
    ensures 0.0 <= v <= hi ==> r == v
    ensures v < 0.0 ==> r == 0.0
    ensures v > hi ==> r == hi
  {
    if v < 0.0 then 0.0 else if v > hi then hi else v
  }

  /** The first node with the id, as `nodes.find` returns it. */
  function FindNode(nodes: seq<Node>, id: string): (r: Option<Node>)
    ensures r.Some? <==> HasNode(nodes, id)
    ensures r.Some? ==> r.value.id == id && r.value in nodes
  {
    if |nodes| == 0 then None
    else if nodes[0].id == id then Some(nodes[0])
    else
      var rest := FindNode(nodes[1..], id);
      assert HasNode(nodes, id) <==> HasNode(nodes[1..], id) by {
        if HasNode(nodes, id) {
          var i :| 0 <= i < |nodes| && nodes[i].id == id;
          assert nodes[1..][i - 1].id == id;
        }
        if HasNode(nodes[1..], id) {
          var i :| 0 <= i < |nodes[1..]| && nodes[1..][i].id == id;
          assert nodes[i + 1].id == id;
        }
      }
      rest
  }

  /** The position update of one mouse move: only the dragged node moves, and it stays on the canvas. */
  function MoveNode(nodes: seq<Node>, id: string, x: real, y: real): (r: seq<Node>)
    ensures |r| == |nodes|
    ensures forall i :: 0 <= i < |r| && nodes[i].id != id ==> r[i] == nodes[i]
    ensures forall i :: 0 <= i < |r| && nodes[i].id == id ==>
      r[i] == nodes[i].(x := Clamp(x, 900.0), y := Clamp(y, 500.0))
      && 0.0 <= r[i].x <= 900.0 && 0.0 <= r[i].y <= 500.0
  {
    seq(|nodes|, i requires 0 <= i < |nodes| =>
      if nodes[i].id == id then nodes[i].(x := Clamp(x, 900.0), y := Clamp(y, 500.0)) else nodes[i])
  }

  /** One more step of a script: its node is marked a success and its line is appended. */
  lemma StepSnoc(nodes: seq<Node>, logs: seq<FlowLog>, script: seq<Step>, i: nat)
    requires i < |script|
    ensures ApplySteps(nodes, script[..i + 1]) == SetStatus(ApplySteps(nodes, script[..i]), script[i].nodeId, Succeeded)
    ensures Lists.KeepLast(logs + StepLogs(script[..i + 1]), 20)
      == Lists.BoundedPush(Lists.KeepLast(logs + StepLogs(script[..i]), 20), FlowLog(script[i].nodeId, script[i].message, InfoLog), 20)
  {
    var entry := FlowLog(script[i].nodeId, script[i].message, InfoLog);
    assert script[..i + 1][..i] == script[..i];
    assert StepLogs(script[..i + 1]) == StepLogs(script[..i]) + [entry];
    assert logs + StepLogs(script[..i + 1]) == (logs + StepLogs(script[..i])) + [entry];
    Lists.KeepLastThenAppend(logs + StepLogs(script[..i]), [entry], 20);
  }

  /** The first entry of an emptied log is all it holds. */
  lemma AddToEmpty(logs: seq<FlowLog>, entry: FlowLog)
    requires logs == []
    ensures AddLogEntry(logs, entry) == [entry]
  {
  }

  // ---------------------------------------------------------------------------
  // The view

  class WorkflowView {
    var nodes: seq<Node>
    var logs: seq<FlowLog>
    var isRunning: bool
    var draggedNode: Option<string>
    var dragOffset: (real, real)

    ghost predicate Valid()
      reads this
    {
      |logs| <= 20
    }

    constructor()
      ensures Valid()
      ensures nodes == InitialNodes && logs == [] && !isRunning
      ensures draggedNode == None && dragOffset == (0.0, 0.0)
    {
      nodes := InitialNodes;
      logs := [];
      isRunning := false;
      draggedNode := None;
      dragOffset := (0.0, 0.0);
    }

    method AddLog(nodeId: string, message: string, kind: LogType)
      requires Valid()
      modifies this
      ensures Valid()
      ensures logs == AddLogEntry(old(logs), FlowLog(nodeId, message, kind))
      ensures nodes == old(nodes) && isRunning == old(isRunning)
      ensures draggedNode == old(draggedNode) && dragOffset == old(dragOffset)
    {
      logs := AddLogEntry(logs, FlowLog(nodeId, message, kind));
    }

    /**
     * The loop of `runWorkflow` over a script. Its guard reads the running
     * flag the handler's closure captured, passed here as `keepGoing`; the
     * loop stops before the first step when it is false. Each step lights its
     * node, logs its line and then marks the node a success.
     */
    method RunSteps(script: seq<Step>, keepGoing: bool)
      requires Valid()
      modifies this
      ensures Valid()
      ensures !keepGoing ==> nodes == old(nodes) && logs == old(logs)
      ensures keepGoing ==>
        nodes == ApplySteps(old(nodes), script)
        && logs == Lists.KeepLast(old(logs) + StepLogs(script), 20)
      ensures isRunning == old(isRunning) && draggedNode == old(draggedNode) && dragOffset == old(dragOffset)
    {
      ghost var start, startNodes := logs, nodes;
      var i := 0;
      while i < |script|
        invariant 0 <= i <= |script|
        invariant Valid()
        invariant !keepGoing ==> i == 0
        invariant nodes == ApplySteps(startNodes, script[..i])
        invariant logs == Lists.KeepLast(start + StepLogs(script[..i]), 20)
        invariant isRunning == old(isRunning) && draggedNode == old(draggedNode) && dragOffset == old(dragOffset)
      {
        if !keepGoing {
          break;
        }
        var step := script[i];
        StepSnoc(startNodes, start, script, i);
        SetStatusOverrides(nodes, step.nodeId, Active, Succeeded);
        nodes := SetStatus(nodes, step.nodeId, Active);
        AddLog(step.nodeId, step.message, InfoLog);
        nodes := SetStatus(nodes, step.nodeId, Succeeded);
        i := i + 1;
      }
      assert keepGoing ==> script[..|script|] == script;
    }

    /**
     * `runWorkflow` as written: the loop guard reads the captured `false`,
     * so a run logs only the completion line and no node changes.
     */
    method RunWorkflow()
      requires Valid()
      modifies this
      ensures Valid()
      ensures old(isRunning) ==> nodes == old(nodes) && logs == old(logs) && isRunning
      ensures !old(isRunning) ==> nodes == old(nodes) && logs == [Completion] && !isRunning
      ensures draggedNode == old(draggedNode) && dragOffset == old(dragOffset)
    {
      if isRunning {
        return;
      }
      var captured := isRunning;
      isRunning := true;
      logs := [];
      RunSteps(Sequence, captured);
      ghost var before := logs;
      AddLog(Completion.nodeId, Completion.message, Completion.kind);
      AddToEmpty(before, Completion);
      isRunning := false;
    }

    /** `runWorkflow` with the guard reading the live flag: every step runs, and the log holds the script and the completion line. */
    method RunWorkflowIntended()
      requires Valid()
      modifies this
      ensures Valid()
      ensures old(isRunning) ==> nodes == old(nodes) && logs == old(logs) && isRunning
      ensures !old(isRunning) ==>
        nodes == ApplySteps(old(nodes), Sequence)
        && logs == StepLogs(Sequence) + [Completion]
        && !isRunning
      ensures draggedNode == old(draggedNode) && dragOffset == old(dragOffset)
    {
      if isRunning {
        return;
      }
      isRunning := true;
      logs := [];
      RunSteps(Sequence, isRunning);
      assert logs == StepLogs(Sequence) by {
        assert [] + StepLogs(Sequence) == StepLogs(Sequence);
      }
      AddLog(Completion.nodeId, Completion.message, Completion.kind);
      isRunning := false;
    }

    method ResetWorkflow()
      requires Valid()
      modifies this
      ensures Valid()
      ensures nodes == ResetAll(old(nodes)) && logs == [] && !isRunning
      ensures draggedNode == old(draggedNode) && dragOffset == old(dragOffset)
    {
      nodes := ResetAll(nodes);
      logs := [];
      isRunning := false;
    }

    /**
     * Grabbing a node records it and the pointer's offset from it; an unknown
     * id is ignored. As written the offset is taken from the pointer's page
     * coordinates, without subtracting the canvas origin.
     */
    method HandleMouseDown(nodeId: string, clientX: real, clientY: real)
      requires Valid()
      modifies this
      ensures Valid()
      ensures !HasNode(nodes, nodeId) ==> draggedNode == old(draggedNode) && dragOffset == old(dragOffset)
      ensures HasNode(nodes, nodeId) ==>
        draggedNode == Some(nodeId) && dragOffset == GrabOffset(FindNode(nodes, nodeId).value, clientX, clientY, 0.0, 0.0)
      ensures nodes == old(nodes) && logs == old(logs) && isRunning == old(isRunning)
    {
      var node := FindNode(nodes, nodeId);
      if node.None? {
        return;
      }
      draggedNode := Some(nodeId);
      dragOffset := (clientX - node.value.x, clientY - node.value.y);
    }

    /** The grab with the offset measured in canvas coordinates, as the move handler reads it. */
    method HandleMouseDownIntended(nodeId: string, clientX: real, clientY: real, left: real, top: real)
      requires Valid()
      modifies this
      ensures Valid()
      ensures !HasNode(nodes, nodeId) ==> draggedNode == old(draggedNode) && dragOffset == old(dragOffset)
      ensures HasNode(nodes, nodeId) ==>
        draggedNode == Some(nodeId) && dragOffset == GrabOffset(FindNode(nodes, nodeId).value, clientX, clientY, left, top)
      ensures nodes == old(nodes) && logs == old(logs) && isRunning == old(isRunning)
    {
      var node := FindNode(nodes, nodeId);
      if node.None? {
        return;
      }
      draggedNode := Some(nodeId);
      dragOffset := (clientX - left - node.value.x, clientY - top - node.value.y);
    }

    /** A move drags the grabbed node, clamped to the canvas; without a grabbed node or a canvas it does nothing. */
    method HandleMouseMove(clientX: real, clientY: real, canvas: Option<(real, real)>)
      requires Valid()
      modifies this
      ensures Valid()
      ensures draggedNode.None? || canvas.None? ==> nodes == old(nodes)
      ensures draggedNode.Some? && canvas.Some? ==>
        nodes == MoveNode(old(nodes), draggedNode.value,
          clientX - canvas.value.0 - dragOffset.0, clientY - canvas.value.1 - dragOffset.1)
      ensures logs == old(logs) && isRunning == old(isRunning)
      ensures draggedNode == old(draggedNode) && dragOffset == old(dragOffset)
    {
      if draggedNode.None? || canvas.None? {
        return;
      }
      var (left, top) := canvas.value;
      nodes := MoveNode(nodes, draggedNode.value, clientX - left - dragOffset.0, clientY - top - dragOffset.1);
    }

    method HandleMouseUp()
      requires Valid()
      modifies this
      ensures Valid()
      ensures draggedNode == None
      ensures nodes == old(nodes) && logs == old(logs) && isRunning == old(isRunning) && dragOffset == old(dragOffset)
    {
      draggedNode := None;
    }
  }

  /** The pointer's offset from a node, for a canvas whose origin is at (`left`, `top`) on the page. */
  function GrabOffset(node: Node, clientX: real, clientY: real, left: real, top: real): (real, real)
  {
    (clientX - left - node.x, clientY - top - node.y)
  }

  /** Where a move to the pointer position puts the grabbed node, before clamping. */
  function DropPoint(offset: (real, real), clientX: real, clientY: real, left: real, top: real): (real, real)
  {
    (clientX - left - offset.0, clientY - top - offset.1)
  }

  ghost predicate DistinctNodeIds(nodes: seq<Node>)
  {
    forall i, j :: 0 <= i < j < |nodes| ==> nodes[i].id != nodes[j].id
  }

  /** With distinct ids, `nodes.find` returns the node at the id's position. */
  lemma FindDistinct(nodes: seq<Node>, k: nat)
    requires k < |nodes| && DistinctNodeIds(nodes)
    ensures FindNode(nodes, nodes[k].id) == Some(nodes[k])
  {
    var r := FindNode(nodes, nodes[k].id);
    var j :| 0 <= j < |nodes| && nodes[j] == r.value;
    assert j == k;
  }

  /**
   * Grabbing a node with the offset measured in canvas coordinates and
   * moving by nothing leaves every node where it was.
   */
  lemma DragWithoutMotionStays(nodes: seq<Node>, k: nat, clientX: real, clientY: real, left: real, top: real)
    requires k < |nodes| && DistinctNodeIds(nodes)
    requires 0.0 <= nodes[k].x <= 900.0 && 0.0 <= nodes[k].y <= 500.0
    ensures var p := DropPoint(GrabOffset(nodes[k], clientX, clientY, left, top), clientX, clientY, left, top);
      MoveNode(nodes, nodes[k].id, p.0, p.1) == nodes
  {
    var p := DropPoint(GrabOffset(nodes[k], clientX, clientY, left, top), clientX, clientY, left, top);
    assert p == (nodes[k].x, nodes[k].y);
    var r := MoveNode(nodes, nodes[k].id, p.0, p.1);
    forall i | 0 <= i < |nodes| ensures r[i] == nodes[i] {
      if i < k {
        assert nodes[i].id != nodes[k].id;
      } else if i > k {
        assert nodes[k].id != nodes[i].id;
      }
    }
  }

  /**
   * As written the grab measures the offset from the page origin while the
   * move measures from the canvas origin, so the first move, even by
   * nothing, shifts the node by the canvas origin: a node at x = 300 on a
   * canvas whose left edge is at 250 jumps to x = 50.
   */
  lemma DragWithoutMotionJumps(nodes: seq<Node>, k: nat, clientX: real, clientY: real, left: real, top: real)
    requires k < |nodes| && DistinctNodeIds(nodes)
    ensures var p := DropPoint(GrabOffset(nodes[k], clientX, clientY, 0.0, 0.0), clientX, clientY, left, top);
      var r := MoveNode(nodes, nodes[k].id, p.0, p.1);
      && r[k].x == Clamp(nodes[k].x - left, 900.0)
      && r[k].y == Clamp(nodes[k].y - top, 500.0)
      && (0.0 < left && 0.0 < nodes[k].x <= 900.0 ==> r[k].x != nodes[k].x)
  {
    var p := DropPoint(GrabOffset(nodes[k], clientX, clientY, 0.0, 0.0), clientX, clientY, left, top);
    assert p == (nodes[k].x - left, nodes[k].y - top);
  }

  /** The initial canvas has distinct ids. */
  lemma InitialNodesDistinct()
    ensures DistinctNodeIds(InitialNodes)
  {
  }
}

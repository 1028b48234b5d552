/**
 * One step of the agent pipeline (services/workflowEngine.ts). A step
 * reports what it does as an ordered trace of events and returns the text
 * handed to the next node. The reasoning backend is the `Response` value it
 * produced; the event callback is an `EventSink` the step appends to.
 */
module WorkflowEngine {
  import opened Wrappers
  import Types
  import Strings
  import McpMock

  datatype EventKind = Input | Output | Thought | ToolCall

  /** A pipeline event; its id and timestamp come from the clock and are not modelled. */
  datatype WorkflowEvent = WorkflowEvent(nodeId: string, kind: EventKind, content: string)

  datatype NodeKind = AgentNode | ToolNode | DataNode
  datatype NodeStatus = Idle | Running | Succeeded | Errored

  /** The fields of a pipeline node a step reads; its position is drawn by the editor. */
  datatype WorkflowNode = WorkflowNode(id: string, kind: NodeKind, title: string, subLabel: Types.Field, status: NodeStatus)

  /** A tool call the backend asks for. */
  datatype FunctionCall = FunctionCall(name: string, args: McpMock.Args)

  /** What the backend did with the step's prompt. */
  datatype Response =
    | Offline                                            // no API key, so there is no client
    | Responded(text: string, calls: seq<FunctionCall>)  // `response.text` ("" for none) and `response.functionCalls`
    | Rejected                                           // the request threw

  // ---------------------------------------------------------------------------
  // The tool declarations offered to the backend

  datatype FunctionDeclaration = FunctionDeclaration(name: string, description: string, parameters: seq<string>)

  /** `geminiTools`: one declaration per registered tool, in registry order. */
  function GeminiTools(): (decls: seq<FunctionDeclaration>)
    ensures |decls| == |McpMock.Registry|
    ensures forall i :: 0 <= i < |decls| ==>
      var tool := McpMock.Registry[i].1;
      decls[i] == FunctionDeclaration(tool.name, tool.description, tool.parameters)
  {
    seq(|McpMock.Registry|, i requires 0 <= i < |McpMock.Registry| =>
      var tool := McpMock.Registry[i].1;
      FunctionDeclaration(tool.name, tool.description, tool.parameters))
  }

  /** The declared names are exactly the names the dispatcher answers to. */
  lemma GeminiToolsMatchRegistry()
    ensures forall i :: 0 <= i < |GeminiTools()| ==> GeminiTools()[i].name == McpMock.ToolNames()[i]
  {
    McpMock.RegistryWellFormed();
  }

  // ---------------------------------------------------------------------------
  // Offline routing by label keyword

  /** A fallback route: a label keyword and the tool call it stands for. */
  datatype Route = Route(keyword: string, tool: string, args: McpMock.Args)

  /** The keywords in the order the offline fallback tests them. */
  const Routes: seq<Route> := [
    Route("Recon", "network_scan", [("target", McpMock.ArgStr("192.168.1.50"))]),
    Route("Exploit", "exploit_generator", [("cve", McpMock.ArgStr("CVE-2021-41773"))]),
    Route("Sensor", "log_analyzer", [("logs", McpMock.ArgStr("GET /cgi-bin/..."))]),
    Route("Response", "firewall_update", [("rule", McpMock.ArgStr("Block IP")), ("action", McpMock.ArgStr("DROP"))])
  ]

  /** The first route in `routes` whose keyword the label includes. */
  function FirstRoute(title: string, routes: seq<Route>): (r: Option<Route>)
    ensures r.Some? <==> exists i :: 0 <= i < |routes| && Strings.Includes(title, routes[i].keyword)
    ensures r.Some? ==> exists i ::
      && 0 <= i < |routes| && routes[i] == r.value && Strings.Includes(title, r.value.keyword)
      && forall k :: 0 <= k < i ==> !Strings.Includes(title, routes[k].keyword)
  {
    if |routes| == 0 then None
    else if Strings.Includes(title, routes[0].keyword) then Some(routes[0])
    else
      assert forall k :: 1 <= k < |routes| ==> routes[k] == routes[1..][k - 1];
      FirstRoute(title, routes[1..])
  }

  /** None of the fallback tools is the one that can throw. */
  lemma RoutesNeverThrow(r: Route)
    requires r in Routes
    ensures McpMock.ExecuteMcpTool(r.tool, r.args).Ok?
  {
  }

  // ---------------------------------------------------------------------------
  // The trace of one step

  datatype StepTrace = StepTrace(events: seq<WorkflowEvent>, output: string)

  const NoOutput: string := "No output generated."
  const ErrorMessage: string := "Error executing agent logic."
  const ErrorOutput: string := "Error"
  const NoMatchOutput: string := "Analysis complete."

  function Event(node: WorkflowNode, kind: EventKind, content: string): WorkflowEvent
  {
    WorkflowEvent(node.id, kind, content)
  }

  function InputEvent(node: WorkflowNode, previousOutput: string): WorkflowEvent
  {
    Event(node, Input, "Received input: " + Strings.Take(previousOutput, 100) + "...")
  }

  /** What the offline fallback returns for a node label. */
  function OfflineOutput(title: string): string
  {
    match FirstRoute(title, Routes)
    case None => NoMatchOutput
    case Some(r) => RoutesNeverThrow(r); McpMock.ExecuteMcpTool(r.tool, r.args).value
  }

  /** The THOUGHT the offline fallback emits. */
  function SimThought(node: WorkflowNode, previousOutput: string): WorkflowEvent
  {
    Event(node, Thought, "[SIM] Processing " + Strings.Take(previousOutput, 20) + "...")
  }

  /** The TOOL_CALL event announcing `call`. */
  function Announce(node: WorkflowNode, call: FunctionCall): WorkflowEvent
  {
    Event(node, ToolCall, "Calling MCP Tool: " + call.name + " with " + McpMock.RenderArgs(call.args))
  }

  /** The event that closes a tool call and the step's output, given what the tool did. */
  function ToolOutcome(node: WorkflowNode, result: Result<string, Types.JsError>): (r: (WorkflowEvent, string))
    ensures r.0.nodeId == node.id && r.0.kind == Output
  {
    match result
    case Ok(text) => (Event(node, Output, "Tool Result: " + text), text)
    case Err(_) => (Event(node, Output, ErrorMessage), ErrorOutput)
  }

  /**
   * `runAgentStep`: the events it emits, in order, and the string it
   * resolves to. Every step opens with the INPUT event, emits one or two
   * more, and tags every event with the node's id.
   */
  function AgentStep(node: WorkflowNode, previousOutput: string, response: Response): (t: StepTrace)
    ensures 2 <= |t.events| <= 3
    ensures t.events[0] == InputEvent(node, previousOutput)
    ensures forall i :: 0 <= i < |t.events| ==> t.events[i].nodeId == node.id && (i > 0 ==> t.events[i].kind != Input)
  {
    var rest := AfterInput(node, previousOutput, response);
    var events := [InputEvent(node, previousOutput)] + rest.events;
    assert forall i :: 1 <= i < |events| ==> events[i] == rest.events[i - 1];
    StepTrace(events, rest.output)
  }

  /** What `runAgentStep` emits after its INPUT event, and its result. */
  function AfterInput(node: WorkflowNode, previousOutput: string, response: Response): (t: StepTrace)
    ensures 1 <= |t.events| <= 2
    ensures forall i :: 0 <= i < |t.events| ==> t.events[i].nodeId == node.id && t.events[i].kind != Input
  {
    match response
    case Offline =>
      StepTrace([SimThought(node, previousOutput)], OfflineOutput(node.title))
    case Rejected =>
      StepTrace([Event(node, Output, ErrorMessage)], ErrorOutput)
    case Responded(text, calls) =>
      if |calls| > 0 then ToolStep(node, calls[0])
      else
        var said := if text == "" then NoOutput else text;
        StepTrace([Event(node, Thought, said)], said)
  }

  /** The announcement of the first requested call, then its outcome. */
  function ToolStep(node: WorkflowNode, call: FunctionCall): StepTrace
  {
    var outcome := ToolOutcome(node, McpMock.ExecuteMcpTool(call.name, call.args));
    StepTrace([Announce(node, call), outcome.0], outcome.1)
  }

  /** The `onLog` callback: it records every event in the order it arrives. */
  class EventSink {
    var events: seq<WorkflowEvent>

    constructor()
      ensures events == []
    {
      events := [];
    }

    method Log(e: WorkflowEvent)
      modifies this
      ensures events == old(events) + [e]
    {
      events := events + [e];
    }
  }

  /** `runAgentStep` as the pipeline runs it: it emits its trace into `sink` and returns its output. */
  method RunAgentStep(node: WorkflowNode, previousOutput: string, response: Response, sink: EventSink)
    returns (output: string)
    modifies sink
    ensures sink.events == old(sink.events) + AgentStep(node, previousOutput, response).events
    ensures output == AgentStep(node, previousOutput, response).output
  {
    sink.Log(InputEvent(node, previousOutput));
    output := RunAfterInput(node, previousOutput, response, sink);
    assert AgentStep(node, previousOutput, response).events
      == [InputEvent(node, previousOutput)] + AfterInput(node, previousOutput, response).events;
  }

  /** Everything after the INPUT event: the branch the backend's answer selects. */
  method RunAfterInput(node: WorkflowNode, previousOutput: string, response: Response, sink: EventSink)
    returns (output: string)
    modifies sink
    ensures sink.events == old(sink.events) + AfterInput(node, previousOutput, response).events
    ensures output == AfterInput(node, previousOutput, response).output
  {
    match response {
      case Offline =>
        sink.Log(SimThought(node, previousOutput));
        output := OfflineOutput(node.title);
      case Rejected =>
        sink.Log(Event(node, Output, ErrorMessage));
        output := ErrorOutput;
      case Responded(text, calls) =>
        if |calls| > 0 {
          output := RunToolCall(node, calls[0], sink);
        } else {
          output := if text == "" then NoOutput else text;
          sink.Log(Event(node, Thought, output));
        }
    }
  }

  /** The tool-call branch: announce the call, run the tool, and log what it returned or the error. */
  method RunToolCall(node: WorkflowNode, call: FunctionCall, sink: EventSink) returns (output: string)
    modifies sink
    ensures sink.events == old(sink.events) + ToolStep(node, call).events
    ensures output == ToolStep(node, call).output
  {
    sink.Log(Announce(node, call));
    var outcome := ToolOutcome(node, McpMock.ExecuteMcpTool(call.name, call.args));
    assert ToolStep(node, call) == StepTrace([Announce(node, call), outcome.0], outcome.1);
    sink.Log(outcome.0);
    output := outcome.1;
  }

  // ---------------------------------------------------------------------------
  // Properties of the trace

  /** Offline, exactly one THOUGHT follows the INPUT, and the output comes from the label's first route. */
  lemma OfflineTrace(node: WorkflowNode, previousOutput: string)
    ensures var t := AgentStep(node, previousOutput, Offline);
      && |t.events| == 2
      && t.events[1] == Event(node, Thought, "[SIM] Processing " + Strings.Take(previousOutput, 20) + "...")
      && t.output == OfflineOutput(node.title)
  {
    assert AfterInput(node, previousOutput, Offline).events == [SimThought(node, previousOutput)];
  }

  /** Offline, a label without a keyword answers "Analysis complete.", and one with a keyword gets its first route's tool result. */
  lemma OfflineAnswer(title: string)
    ensures FirstRoute(title, Routes).None? ==> OfflineOutput(title) == NoMatchOutput
    ensures FirstRoute(title, Routes).Some? ==>
      var route := FirstRoute(title, Routes).value;
      Ok(OfflineOutput(title)) == McpMock.ExecuteMcpTool(route.tool, route.args)
  {
    match FirstRoute(title, Routes)
    case None =>
    case Some(route) => RoutesNeverThrow(route);
  }

  /** Offline routing never reaches the unknown-tool answer. */
  lemma OfflineToolsAreRegistered(title: string)
    ensures OfflineOutput(title) != McpMock.NotFoundJson
  {
    match FirstRoute(title, Routes)
    case None =>
      assert NoMatchOutput[0] != McpMock.NotFoundJson[0];
    case Some(r) =>
      McpMock.RegistryWellFormed();
      McpMock.RegisteredToolsAnswer(r.tool, r.args);
  }

  /**
   * The keywords are tried in the order Recon, Exploit, Sensor, Response and
   * the first one the label includes decides, so a label naming both
   * "Exploit" and "Sensor" is routed to the exploit generator.
   */
  lemma RoutingOrder(title: string)
    ensures Strings.Includes(title, "Recon") ==> FirstRoute(title, Routes) == Some(Routes[0])
    ensures !Strings.Includes(title, "Recon") && Strings.Includes(title, "Exploit") ==>
      FirstRoute(title, Routes) == Some(Routes[1])
    ensures !Strings.Includes(title, "Recon") && !Strings.Includes(title, "Exploit") && Strings.Includes(title, "Sensor") ==>
      FirstRoute(title, Routes) == Some(Routes[2])
    ensures (&& !Strings.Includes(title, "Recon") && !Strings.Includes(title, "Exploit")
             && !Strings.Includes(title, "Sensor") && Strings.Includes(title, "Response")) ==>
      FirstRoute(title, Routes) == Some(Routes[3])
  {
    assert Routes[1..][1..][1..] == [Routes[3]];
  }

  /** "Detection Agent" contains none of the keywords, so the offline step answers "Analysis complete.". */
  lemma DetectionAgentMatchesNothing()
    ensures FirstRoute("Detection Agent", Routes) == None
    ensures OfflineOutput("Detection Agent") == "Analysis complete."
  {
    LacksKeywords("Detection Agent");
    NoKeywordNoRoute("Detection Agent");
  }

  /** A label without the letters 'R', 'E' and 'S' includes none of the keywords. */
  lemma LacksKeywords(title: string)
    requires forall k :: 0 <= k < |title| ==> title[k] != 'R' && title[k] != 'E' && title[k] != 'S'
    ensures !Strings.Includes(title, "Recon") && !Strings.Includes(title, "Exploit")
    ensures !Strings.Includes(title, "Sensor") && !Strings.Includes(title, "Response")
  {
    Strings.NotIncludedWithoutFirstChar(title, "Recon");
    Strings.NotIncludedWithoutFirstChar(title, "Exploit");
    Strings.NotIncludedWithoutFirstChar(title, "Sensor");
    Strings.NotIncludedWithoutFirstChar(title, "Response");
  }

  /** A label that includes none of the four keywords gets no route. */
  lemma NoKeywordNoRoute(title: string)
    requires !Strings.Includes(title, "Recon") && !Strings.Includes(title, "Exploit")
    requires !Strings.Includes(title, "Sensor") && !Strings.Includes(title, "Response")
    ensures FirstRoute(title, Routes) == None
  {
  }

  /** With tool calls, only the first is executed, the reply text is ignored, and a tool that answers has its result returned unchanged after TOOL_CALL and OUTPUT events. */
  lemma ToolCallTrace(node: WorkflowNode, previousOutput: string, text: string, calls: seq<FunctionCall>)
    requires |calls| > 0
    requires McpMock.ExecuteMcpTool(calls[0].name, calls[0].args).Ok?
    ensures AgentStep(node, previousOutput, Responded(text, calls)) == AgentStep(node, previousOutput, Responded("", [calls[0]]))
    ensures var t := AgentStep(node, previousOutput, Responded(text, calls));
      var result := McpMock.ExecuteMcpTool(calls[0].name, calls[0].args).value;
      && |t.events| == 3
      && t.events[1].kind == ToolCall
      && t.events[2] == Event(node, Output, "Tool Result: " + result)
      && t.output == result
  {
  }

  /** Without tool calls, one THOUGHT carries exactly the string returned, which is never empty. */
  lemma TextTrace(node: WorkflowNode, previousOutput: string, text: string)
    ensures var t := AgentStep(node, previousOutput, Responded(text, []));
      && |t.events| == 2
      && t.events[1] == Event(node, Thought, t.output)
      && t.output != ""
      && (text != "" ==> t.output == text)
  {
  }

  /** A rejected request or a tool that throws ends the trace with the error OUTPUT and resolves to "Error". */
  lemma ErrorsAreContained(node: WorkflowNode, previousOutput: string, response: Response)
    requires response.Rejected? ||
      (response.Responded? && |response.calls| > 0
       && response.calls[0].name == "cve_lookup" && !McpMock.ServiceIsString(response.calls[0].args))
    ensures var t := AgentStep(node, previousOutput, response);
      && t.events[|t.events| - 1] == Event(node, Output, ErrorMessage)
      && t.output == ErrorOutput
  {
  }
}

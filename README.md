# CyberSentinel simulation core in Dafny

CyberSentinel is a browser dashboard for a red-team/blue-team cyber-range
exercise. Red agents launch simulated attacks and blue agents detect and
mitigate them. A strategic orchestrator comments on the state of play, and a
pipeline editor chains agent steps that call a simulated MCP tool server. This
project models the simulation logic under the dashboard:

- `AgentService` (services/agentService.ts): attack and defence records and
  their state machines.
- `McpMock` (services/mcpMock.ts): the five-tool registry and the dispatcher
  from a tool name and arguments to a JSON payload.
- `WorkflowEngine` (services/workflowEngine.ts): one pipeline step, with the
  ordered trace of events it emits and the text it hands to the next node.
- `GeminiService` (services/geminiService.ts): the fallbacks and the
  post-processing of the reasoning backend's replies.
- `App` (App.tsx): the shared state. This covers the attack upsert, the log
  capped at 100 and the sliding metric window.
- `BlueTeamView`, `RedTeamView`, `WorkflowView` and `OrchestratorView`
  (views/*.tsx): the state each panel keeps and the handlers that update it.

Shared modules: `Wrappers` (Option, Result), `Types` (the records of
types.ts), `Strings` (prefix, substring search, join, decimal rendering) and
`Lists` (bounded logs).

How the model is built:

- The reasoning backend is not modelled. Each call receives the reply the
  backend gave as a value: no client, an answer text, or a failure with its
  message. A pipeline step instead receives no client, a response with text
  and function calls, or a rejection.
- `JSON.parse` is a function parameter.
- Clock readings (`Date.now()`, `toLocaleTimeString()`) are parameters.
- Random draws (`Math.random()`) are parameters.
- A React state setter becomes an assignment to a class field.
- An `async` handler is split at its `await` into two methods: one for the
  part before the `await`, one for the part after it. Where the dashboard
  runs both halves back to back, a third method composes them.
- Each `setTimeout` continuation is a method. It receives the values its
  closure captured, including stale snapshots of the agent pool.

## Model

| member | source | states |
|---|---|---|
| Types.SetActivity | views/RedTeamView.tsx:53-57 | Exactly the agents with the given id get the new status and task. Every other agent and the pool's length stay the same. |
| Types.SetActivityOverrides | views/BlueTeamView.tsx:113-118 | Two updates of the same agent: the second wins. A continuation that rewrites a stale snapshot ends where one that rewrites the current pool would, as long as nothing else touched the pool. |
| Strings.Take | services/geminiService.ts:94 | `substring(0, n)` is the prefix of length min(n, length). |
| Strings.Includes | services/mcpMock.ts:49 | `includes` holds exactly when the pattern occurs at some position. |
| GeminiService.BraceSpan | services/geminiService.ts:88 | The regular expression matches exactly when a '{' comes before a '}'. The match runs from the first '{' to the last '}'. |
| GeminiService.GenerateStrategicDecision | services/geminiService.ts:19-48 | No client gives the fixed not-configured message. An empty answer gives "Analysis incomplete.". Any other answer is returned as it is. A failure gives the API-error warning, then the error's message or, when that is missing or empty, "Failed to connect to Gemini API", then ". Check your API key and quota.". |
| GeminiService.GenerateRedTeamAttack | services/geminiService.ts:51-106 | No client gives the fixed triple. A failure, or a parse failure of the extracted span, gives the API-error triple. Otherwise the parsed plan is returned. Without a span, the strategy is the reply's first 200 characters. |
| GeminiService.GenerateBlueTeamResponse | services/geminiService.ts:109-166 | The same branches as the red wrapper. The fallback confidences are 0, 75 and 0. |
| GeminiService.NoClientFallbacks | services/geminiService.ts:14-123 | Without a client: the decision is the not-configured message, the red payload is "API key required", the red strategy names the attack type, and the blue confidence is 0. |
| GeminiService.RedTruncationFallback | services/geminiService.ts:86-97 | A reply without a brace span gives a strategy that is a prefix of the reply of length min(200, length), and the payload "Generated payload". |
| GeminiService.ParsedBluePlanPassesThrough | services/geminiService.ts:147-151 | A span that parses is returned unchanged, so a parsed confidence is not range-checked. |
| GeminiService.FallbackConfidenceInRange | services/geminiService.ts:117-165 | Every confidence the wrapper supplies itself lies in 0..100. |
| GeminiService.EmptyReplyIsParsed | services/geminiService.ts:147-148 | An empty reply is read as "{}". It therefore reaches the parser and never the truncation fallback. |
| AgentService.ExecuteRedTeamAttack | services/agentService.ts:40-68 | A record that is created has status INITIATED and the requested type and agent. |
| AgentService.AttackFromPlan | services/agentService.ts:51-65 | The record fails exactly when the plan has no payload, with V8's TypeError. Otherwise it carries the id "attack-" + start time, the end time, the plan's three fields, and exactly three stamped log lines. The third line holds the payload cut to 50 characters. |
| AgentService.ExecuteBlueTeamDefense | services/agentService.ts:71-94 | The record has status ANALYZING, is bound to the attack's id and the responder, and carries the plan generated for the threat description. |
| AgentService.CreateTrainedAgent | services/agentService.ts:132-153 | The agent is IDLE with task "Awaiting orders" and efficiency in 85..99. It has the three training log lines. |
| AgentService.IndexOf | services/agentService.ts:98-99 | `indexOf` is -1 exactly for BLOCKED and SUCCESS, and otherwise is the status's position in the forward order. |
| AgentService.ProgressAttack | services/agentService.ts:97-113 | As written: the result is always INITIATED, IN_PROGRESS or DETECTED. The status stays the same exactly on DETECTED, which is returned unchanged. Any other status moves with one log line naming the new status and no other change. BLOCKED and SUCCESS land on INITIATED. |
| AgentService.ProgressAttackForward | services/agentService.ts:97-110 | INITIATED goes to IN_PROGRESS and IN_PROGRESS to DETECTED. One log line naming the new status is appended, and no other field changes. |
| AgentService.ProgressAttackDetectedFixpoint | services/agentService.ts:101-112 | A DETECTED record is returned unchanged. |
| AgentService.ProgressAttackResetsTerminal | services/agentService.ts:97-113 | As written, BLOCKED and SUCCESS go back to INITIATED with one more log line. |
| AgentService.AdvanceAttack | services/agentService.ts:97-113 | The intended advance: it moves INITIATED and IN_PROGRESS forward with one log line and leaves DETECTED, BLOCKED and SUCCESS unchanged. |
| AgentService.AdvanceAgreesOnForward | services/agentService.ts:97-113 | On INITIATED, IN_PROGRESS and DETECTED the intended advance equals `progressAttack`. |
| AgentService.AdvanceNeverGoesBack | services/agentService.ts:97-113 | The intended advance never lowers a record's place in the lifecycle. It changes the status exactly on INITIATED and IN_PROGRESS. |
| AgentService.AdvanceTimesReachesDetected | services/agentService.ts:101-112 | Two or more advances from INITIATED end at DETECTED with exactly two log lines added. |
| AgentService.DetectedStays | services/agentService.ts:112 | Any number of advances leaves a DETECTED record unchanged. |
| AgentService.ProgressDefense | services/agentService.ts:116-129 | A defence step changes the status only. |
| AgentService.ProgressDefenseFromAnalyzing | services/agentService.ts:117-119 | ANALYZING goes to MITIGATING, whatever the outcome flag. |
| AgentService.ProgressDefenseResolves | services/agentService.ts:121-126 | MITIGATING goes to BLOCKED exactly on success and to FAILED exactly on failure. |
| AgentService.ProgressDefenseTerminal | services/agentService.ts:128 | BLOCKED and FAILED are returned unchanged. |
| AgentService.DefenseTwoSteps | views/BlueTeamView.tsx:79-98 | The two scheduled steps take a fresh defence to BLOCKED on success and to FAILED otherwise. |
| McpMock.Lookup | services/mcpMock.ts:44 | `args[key]` is undefined exactly when no entry has the key. Otherwise it is a value stored under the key. |
| McpMock.ToolNames | services/mcpMock.ts:6-32 | The registry's keys, in enumeration order. |
| McpMock.RegistryWellFormed | services/mcpMock.ts:6-32 | Five tools with distinct keys, each filed under its own name. |
| McpMock.ExecuteTool | services/mcpMock.ts:40-78 | Dispatch fails exactly for `cve_lookup` with a non-string service. The not-found payload is produced exactly for an unregistered name. |
| McpMock.EscapePlain | services/mcpMock.ts:42-47 | A string with no quote, backslash or control character is rendered verbatim inside a JSON string. |
| McpMock.Render | services/mcpMock.ts:41-77 | Every payload renders to a JSON object text. Its first key starts with 'e' exactly for the not-found payload. |
| McpMock.JsonObject | services/mcpMock.ts:42-75 | `JSON.stringify` of a payload opens with '{', a quote and its first key. |
| McpMock.ThreeFieldJson | services/mcpMock.ts:58-62 | An object of three string fields opens with its first key, as the exploit and firewall payloads do. |
| McpMock.RenderNotFoundIff | services/mcpMock.ts:76-77 | No payload but the not-found one renders to the not-found JSON text. |
| McpMock.ExecuteMcpTool | services/mcpMock.ts:34-79 | `executeMCPTool` throws exactly for `cve_lookup` with a non-string service. It answers `{"error":"Tool not found"}` exactly for an unregistered name. |
| McpMock.ScanEchoesTarget | services/mcpMock.ts:41-47 | `network_scan` echoes `args.target` as the host and always reports ports 80, 443, 22 and the fixed service map. |
| McpMock.CveLookupSeverity | services/mcpMock.ts:48-56 | For a string service, the result is the two Apache CVEs with CRITICAL exactly when the service contains "Apache". Otherwise it is no CVE with LOW. |
| McpMock.FixedToolsIgnoreArgs | services/mcpMock.ts:57-75 | The exploit, log-analysis and firewall tools always succeed and ignore their arguments. |
| McpMock.RegisteredToolsAnswer | services/mcpMock.ts:40-75 | A registered tool whose arguments it can read answers with a payload other than the not-found one. |
| McpMock.UnknownToolNotFound | services/mcpMock.ts:76-77 | An unknown name yields exactly `{"error":"Tool not found"}`. |
| WorkflowEngine.GeminiTools | services/workflowEngine.ts:12-18 | One declaration per registered tool, in registry order, with its name, description and parameters. |
| WorkflowEngine.GeminiToolsMatchRegistry | services/workflowEngine.ts:12-18 | The declared names are the names the dispatcher answers to. |
| WorkflowEngine.FirstRoute | services/workflowEngine.ts:41-44 | A route is found exactly when the label includes some keyword. The one found is the first whose keyword the label includes. |
| WorkflowEngine.RoutesNeverThrow | services/workflowEngine.ts:41-44 | None of the fallback calls throws. |
| WorkflowEngine.EventSink.Log | services/workflowEngine.ts:23 | The callback records each event after those already recorded. |
| WorkflowEngine.RunAgentStep | services/workflowEngine.ts:20-116 | The step appends exactly the trace of `AgentStep` to the sink and returns its output. The lemmas below give that trace's properties. |
| WorkflowEngine.RunAfterInput | services/workflowEngine.ts:34-115 | After the INPUT event, the step appends exactly the events of `AfterInput` and returns its output. |
| WorkflowEngine.AfterInput | services/workflowEngine.ts:34-115 | After the INPUT event each branch emits one or two more events. None of them is INPUT, and all carry the node's id. |
| WorkflowEngine.ToolOutcome | services/workflowEngine.ts:83-115 | A tool's answer and a thrown error both close the call with an OUTPUT event tagged with the node's id. |
| WorkflowEngine.RunToolCall | services/workflowEngine.ts:70-91 | The tool-call branch appends the TOOL_CALL announcement, then the tool's OUTPUT or the error OUTPUT, and returns the tool result or "Error". |
| WorkflowEngine.AgentStep | services/workflowEngine.ts:20-116 | Every step emits 2 or 3 events. The first is the INPUT event with the first 100 characters of the input, no later event is INPUT, and every event carries the node's id. |
| WorkflowEngine.OfflineTrace | services/workflowEngine.ts:34-38 | Without a client exactly one THOUGHT, "[SIM] Processing " + the first 20 characters + "...", follows the INPUT. |
| WorkflowEngine.OfflineAnswer | services/workflowEngine.ts:41-46 | Offline, a label with no keyword answers "Analysis complete.". A label with a keyword gets its first route's tool result. |
| WorkflowEngine.OfflineToolsAreRegistered | services/workflowEngine.ts:41-46 | Offline routing never yields the not-found payload. |
| WorkflowEngine.RoutingOrder | services/workflowEngine.ts:41-44 | The keywords are tried in the order Recon, Exploit, Sensor, Response, and the first one included decides. |
| WorkflowEngine.DetectionAgentMatchesNothing | services/workflowEngine.ts:46 | "Detection Agent" gets no route, so it answers "Analysis complete.". |
| WorkflowEngine.LacksKeywords | services/workflowEngine.ts:41-44 | A label without 'R', 'E' and 'S' includes none of the keywords. |
| WorkflowEngine.NoKeywordNoRoute | services/workflowEngine.ts:46 | A label including no keyword gets no route. |
| WorkflowEngine.ToolCallTrace | services/workflowEngine.ts:70-91 | Only the first call runs, and the reply text is ignored. TOOL_CALL and then OUTPUT with the result follow the INPUT, and the result is returned unchanged. |
| WorkflowEngine.TextTrace | services/workflowEngine.ts:92-103 | Without calls, one THOUGHT carries exactly the returned string. That string is the text, or "No output generated." when the text is empty, so it is never empty. |
| WorkflowEngine.ErrorsAreContained | services/workflowEngine.ts:105-115 | A rejected request or a throwing tool ends the trace with OUTPUT "Error executing agent logic." and resolves to "Error". |
| Lists.KeepLast | App.tsx:49 | `slice(-n)`: the last min(n, length) entries, in order. |
| Lists.KeepLastThenAppend | App.tsx:48-50 | Trimming before appending and then trimming again is the same as trimming once after appending. |
| Lists.KeepLastAppend | App.tsx:49 | Appending one entry after keeping the last n is keeping the last n + 1 of the extended list. |
| Lists.PushAllKeepsNewest | App.tsx:48-50 | Pushing a run of entries onto a bounded log leaves the newest `cap` entries of the log and the run together, in order. |
| App.UpsertAttack | App.tsx:38-46 | A known id is replaced in place, so the length and every other entry stay the same. A new id is appended at the end. |
| App.UpsertKeepsIdsDistinct | App.tsx:38-46 | Upserting keeps ids distinct and adds exactly the attack's id. The entry under that id is the attack. |
| App.UpsertIdempotent | App.tsx:38-46 | Reporting the same record twice is the same as reporting it once. |
| App.AppendLog | App.tsx:48-50 | At most 100 entries, with the new one last and the newest min(99, n) earlier ones before it in order. |
| App.AppendLogIsBoundedPush | App.tsx:49 | One log is a push onto a bounded log of capacity 100. |
| App.AppendLogsIsPushAll | App.tsx:48-50 | A run of logs is a run of bounded pushes. |
| App.LogKeepsNewest | App.tsx:48-50 | However many logs arrive, the session log holds the newest 100 of everything, in arrival order. |
| App.InitialWindow | App.tsx:53-59 | Twenty points. The i-th is labelled with an hour that reads back as 10 + i followed by ":00", and it carries the i-th draw's numbers. |
| App.PrefixPoints | App.tsx:55-56 | Each of the first n points the loop builds carries the label of hour 10 + i and the i-th draw. |
| App.WindowPrefixGrows | App.tsx:55-56 | One more iteration of the loop appends exactly the next point. |
| App.InitialWindowLabels | App.tsx:53-59 | The initial window has 20 points labelled "10:00" to "29:00", pairwise distinct. |
| App.HourLabel | App.tsx:56 | The label ends in ":00" and its digits read back as the hour, so distinct hours get distinct labels. |
| App.Pad2 | App.tsx:65 | `padStart(2, '0')` keeps the number's decimal value and has two characters below 100. |
| App.TimeLabel | App.tsx:65 | For minutes and seconds below 100, the label is hours, ':', two digits of minutes, ':', two digits of seconds. Each part reads back as its number. |
| App.MetricTick | App.tsx:68 | A tick on a non-empty window drops the oldest point and appends the new one, so the length is kept. |
| App.MetricTickIsBoundedPush | App.tsx:68 | A tick is a bounded push whose capacity is the window's length. |
| App.TicksArePushAll | App.tsx:62-73 | A run of ticks is a run of bounded pushes. |
| App.TicksKeepNewest | App.tsx:62-73 | After any number of ticks a window of length n holds the newest n points. |
| App.AppState.constructor | App.tsx:28-36 | The starting pools, an empty log, no metrics and no attacks. |
| App.AppState.HandleAttackLaunched | App.tsx:38-46 | The attack list becomes the upsert, ids stay distinct, and nothing else changes. |
| App.AppState.HandleLogGenerated | App.tsx:48-50 | The log becomes the capped append and stays within 100 entries. Nothing else changes. |
| App.AppState.SetRedAgents | App.tsx:89 | The red pool is replaced. Nothing else changes. |
| App.AppState.SetBlueAgents | App.tsx:99 | The blue pool is replaced. Nothing else changes. |
| App.AppState.MountMetrics | App.tsx:53-59 | The loop builds exactly the initial window. |
| App.AppState.Tick | App.tsx:62-73 | One firing slides the window by the point stamped with the wall-clock label. |
| BlueTeamView.FirstIdle | views/BlueTeamView.tsx:43 | `find` returns the first IDLE agent, or nothing when none is IDLE. |
| BlueTeamView.Responder | views/BlueTeamView.tsx:43 | The responder is in the pool. It is IDLE exactly when some agent is IDLE, and it is the first agent otherwise. |
| BlueTeamView.AdvanceDefense | views/BlueTeamView.tsx:80-82 | Only the defence with the matching id is advanced. |
| BlueTeamView.AdvanceKeepsAttackIds | views/BlueTeamView.tsx:79-98 | Advancing keeps every defence's id and attack id, and keeps one defence per attack. |
| BlueTeamView.DefenseLifecycle | views/BlueTeamView.tsx:79-98 | The two timers take a new defence to MITIGATING, then to BLOCKED on success or FAILED otherwise. Earlier defences are untouched. |
| BlueTeamView.OpeningKeepsDistinct | views/BlueTeamView.tsx:40-66 | The dedup check keeps one defence per attack. |
| BlueTeamView.Count | views/BlueTeamView.tsx:145-147 | A filtered count never exceeds the number of defences. |
| BlueTeamView.CountsPartition | views/BlueTeamView.tsx:145-147 | Every defence is counted in exactly one of the BLOCKED, ANALYZING-or-MITIGATING and FAILED groups. |
| BlueTeamView.ComputeStats | views/BlueTeamView.tsx:142-148 | The total is the number of defences, and blocked + analyzing + failed equals the total. |
| BlueTeamView.OpeningCountsAsAnalyzing | views/BlueTeamView.tsx:142-148 | A new defence adds one to the total and one to the analysing panel. |
| BlueTeamView.OutcomeLog | views/BlueTeamView.tsx:100-110 | The outcome log is SUCCESS exactly on success and CRITICAL exactly on failure. It comes from the responder. |
| BlueTeamView.BlueTeamView.constructor | views/BlueTeamView.tsx:28 | No defences. |
| BlueTeamView.BlueTeamView.BeginDefense | views/BlueTeamView.tsx:38-61 | Before the `await`: the handler goes on exactly when the attack is not yet defended and the pool is non-empty. It then sets only the responder to ANALYZING and logs the detection. Otherwise nothing changes. |
| BlueTeamView.BlueTeamView.FinishDefense | views/BlueTeamView.tsx:63-76 | After the `await`: the defence is appended without a second check and the analysis is logged. One defence per attack is kept only if no defence for the attack was appended in between. |
| BlueTeamView.BlueTeamView.HandleIncomingAttack | views/BlueTeamView.tsx:38-76 | Both halves back to back: the handler acts exactly when the attack is not yet defended and the pool is non-empty. It sets only the responder to ANALYZING, logs the detection and the analysis, and opens one ANALYZING defence, keeping one defence per attack. Otherwise nothing changes. |
| BlueTeamView.BlueTeamView.Mitigate | views/BlueTeamView.tsx:79-91 | The matching defence advances and one defence per attack is kept. The responder, in the captured pool, turns to MITIGATING. |
| BlueTeamView.BlueTeamView.Complete | views/BlueTeamView.tsx:94-119 | The matching defence resolves by the draw (`> 0.2`) and one defence per attack is kept. The outcome is logged and the responder goes back to "Monitoring for threats". |
| BlueTeamView.BlueTeamView.OnIncomingAttacks | views/BlueTeamView.tsx:134-139 | Only the last incoming attack is handled, and only when it is DETECTED. Then a defence is opened exactly when that attack is undefended and the pool is non-empty, with the same new defences, blue pool and logs as the handler gives for that attack. Otherwise nothing changes. One defence per attack is kept. |
| RedTeamView.ProgressById | views/RedTeamView.tsx:93-95 | Only the attack with the matching id advances. |
| RedTeamView.ProgressByIdOnForward | views/RedTeamView.tsx:92-110 | On the console's list the intended advance equals `progressAttack`, and statuses stay in the forward order. |
| RedTeamView.NotificationsReachDetected | views/RedTeamView.tsx:96-109 | The parent hears IN_PROGRESS and then DETECTED, with two log lines added. |
| RedTeamView.LaunchLog | views/RedTeamView.tsx:82-131 | The closing log of a launch is CRITICAL, red, and from the launching agent. |
| RedTeamView.RedTeamView.constructor | views/RedTeamView.tsx:43-45 | No attacks and nothing executing. The first agent is selected if there is one. |
| RedTeamView.RedTeamView.SelectAgent | views/RedTeamView.tsx:165 | The clicked agent becomes the selection. |
| RedTeamView.RedTeamView.BeginLaunch | views/RedTeamView.tsx:47-69 | A launch proceeds exactly when an agent is selected and nothing is executing. It then marks the attack executing, sets only that agent to EXECUTING and logs the initiation. |
| RedTeamView.RedTeamView.StartLaunch | views/RedTeamView.tsx:50-68 | The effects of a launch past its guard, and the snapshot the rest of the launch captures. |
| RedTeamView.RedTeamView.FinishLaunch | views/RedTeamView.tsx:70-134 | A created record joins both lists and is logged with its strategy. A failed launch adds no attack and logs one CRITICAL error. Either way the executing flag is cleared. |
| RedTeamView.RedTeamView.Settle | views/RedTeamView.tsx:70-134 | Given the backend's outcome: a record joins both lists and a job is returned exactly when the outcome is a record. The launch is logged and the executing flag is cleared. |
| RedTeamView.RedTeamView.RecordAttack | views/RedTeamView.tsx:74-79 | The record is appended to the console and upserted into the application's list. |
| RedTeamView.RedTeamView.Progress | views/RedTeamView.tsx:92-110 | The console advances the matching attack. The parent receives the launched record advanced once or twice. |
| RedTeamView.RedTeamView.ResetAgent | views/RedTeamView.tsx:113-120 | Only the launching agent, in the captured pool, goes back to IDLE with "Awaiting orders". |
| WorkflowView.ScriptNamesCanvasNodes | views/WorkflowView.tsx:28-75 | Every connection and every scripted step names a node on the canvas. |
| WorkflowView.SetStatus | views/WorkflowView.tsx:80-82 | Only the nodes with the id change, and only in status. |
| WorkflowView.AddLogEntry | views/WorkflowView.tsx:52-60 | The newest 20 of the old log plus the entry, with the entry last. |
| WorkflowView.StepLogs | views/WorkflowView.tsx:84 | One info line per step, in script order. |
| WorkflowView.ApplyStepsEffect | views/WorkflowView.tsx:77-91 | A completed run marks exactly the scripted nodes as successful and changes nothing else. |
| WorkflowView.SetStatusOverrides | views/WorkflowView.tsx:80-90 | 'active' followed by 'success' is the same as 'success'. |
| WorkflowView.ScriptCoversAllButTarget | views/WorkflowView.tsx:67-75 | The script names every node of the initial canvas except "data-1". |
| WorkflowView.RunOnCanvas | views/WorkflowView.tsx:77-91 | A run marks as successful exactly the nodes its script names. |
| WorkflowView.FullRunOnInitialCanvas | views/WorkflowView.tsx:62-95 | A whole run on the initial canvas succeeds every node but "data-1" and moves none. |
| WorkflowView.ResetAll | views/WorkflowView.tsx:98 | Every node is idle, and nothing else about it changes. |
| WorkflowView.ResetUndoesRun | views/WorkflowView.tsx:97-101 | A reset after a run gives the same canvas as a reset without it. |
| WorkflowView.Clamp | views/WorkflowView.tsx:122 | The value is clamped into 0..hi and unchanged inside it. |
| WorkflowView.FindNode | views/WorkflowView.tsx:104 | A node is found exactly when one has the id. |
| WorkflowView.MoveNode | views/WorkflowView.tsx:121-123 | Only the dragged node moves, and it stays within 0..900 by 0..500. |
| WorkflowView.FindDistinct | views/WorkflowView.tsx:104 | With distinct ids `find` returns the node at the id's position. |
| WorkflowView.DragWithoutMotionStays | views/WorkflowView.tsx:103-124 | With the grab offset measured in canvas coordinates, a move by nothing leaves every node in place. |
| WorkflowView.DragWithoutMotionJumps | views/WorkflowView.tsx:103-124 | As written, the first move shifts the node by the canvas origin: it lands at the clamped (x - left, y - top). |
| WorkflowView.InitialNodesDistinct | views/WorkflowView.tsx:28-35 | The initial node ids are distinct. |
| WorkflowView.WorkflowView.constructor | views/WorkflowView.tsx:28-49 | The initial canvas, an empty log, not running, and nothing dragged. |
| WorkflowView.WorkflowView.AddLog | views/WorkflowView.tsx:52-60 | The log becomes the capped append. Nothing else changes. |
| WorkflowView.WorkflowView.RunSteps | views/WorkflowView.tsx:77-91 | The loop either stops before the first step or runs every step. The nodes become the completed run and the log the capped script lines. |
| WorkflowView.WorkflowView.RunWorkflow | views/WorkflowView.tsx:62-95 | As written: a no-op while running. Otherwise it ends not running, with only the completion line logged and no node changed. |
| WorkflowView.WorkflowView.RunWorkflowIntended | views/WorkflowView.tsx:62-95 | With the live flag every step runs. The log holds the seven script lines and the completion line. |
| WorkflowView.WorkflowView.ResetWorkflow | views/WorkflowView.tsx:97-101 | All nodes idle, an empty log and not running. Positions are kept. |
| WorkflowView.WorkflowView.HandleMouseDown | views/WorkflowView.tsx:103-112 | An unknown id is ignored. Otherwise the node is grabbed with its offset from the pointer's page position. |
| WorkflowView.WorkflowView.HandleMouseDownIntended | views/WorkflowView.tsx:103-112 | The grab with the offset in canvas coordinates. |
| WorkflowView.WorkflowView.HandleMouseMove | views/WorkflowView.tsx:114-124 | With no grabbed node or no canvas nothing changes. Otherwise the grabbed node moves, clamped. |
| WorkflowView.WorkflowView.HandleMouseUp | views/WorkflowView.tsx:126-128 | The grab is released. Nothing else changes. |
| OrchestratorView.Tasks | views/OrchestratorView.tsx:19 | Each agent's current task, in pool order. |
| OrchestratorView.Context | views/OrchestratorView.tsx:19 | The context starts with "Red Agents: ", ends with '.', and is 28 characters longer than the two joined task lists. |
| OrchestratorView.TasksListedInOrder | views/OrchestratorView.tsx:19 | A team's tasks are listed first to last, separated by ", ". |
| OrchestratorView.PushNewest | views/OrchestratorView.tsx:23 | The decision is first, the previous ones follow in order, and at most 5 are kept. |
| OrchestratorView.HistoryKeepsNewest | views/OrchestratorView.tsx:23 | After any number of rounds the history holds the newest 5 decisions, newest first. |
| OrchestratorView.Displayed | views/OrchestratorView.tsx:85 | The panel lists the history without its first entry. |
| OrchestratorView.DisplayedAfterPush | views/OrchestratorView.tsx:85 | After a round the panel lists the previous decisions, newest first, 4 at most. |
| OrchestratorView.OrchestratorView.constructor | views/OrchestratorView.tsx:12-14 | No thought, not thinking, and an empty history. |
| OrchestratorView.OrchestratorView.StartReasoning | views/OrchestratorView.tsx:16-19 | Thinking starts and the context line is built. The thought and the history are unchanged. |
| OrchestratorView.OrchestratorView.FinishReasoning | views/OrchestratorView.tsx:21-24 | The decision is shown and filed first in the capped history, and thinking ends. |

## Left out

- The reasoning backend (Gemini SDK setup, prompts, model options) is not modelled. Its reply is an input value.
- `JSON.parse` is not modelled: it is a parameter. A parse failure is its message, handled by the wrappers' catch paths.
- Timers, latency and Promises are not modelled. Each continuation is a method called in the order the timers fire, one handler at a time, so interleavings are left out. Pending timers are never cancelled, and the model does not claim they are.
- Ids and timestamps from `Date.now()` and `toLocaleTimeString()` are not computed. They are parameters, or dropped from records that only display them.
- `generateMockMetric` (App.tsx:14-24) is left out because it is floating-point noise. Its numbers come in as a `MetricSample`.
- Random draws for defence success and agent efficiency are parameters.
- `executeMCPTool`'s latency and console output are left out. They do not affect the payload, which is a function of the name and arguments alone.
- Tool arguments are a list of keys with string or other scalar JSON values. Arrays, nested objects and key reordering by `JSON.stringify` are not modelled.
- String lengths and indices count Dafny characters, not UTF-16 code units, which matters only for text outside the Basic Multilingual Plane.
- Node coordinates are reals. JavaScript's floating-point rounding is not modelled.
- Rendering is not modelled: the JSX, `getNodeColor`, `getNodeBorder`, `getNodeIcon`, DashboardView, ReportingView, Layout, Terminal and AgentCard.
- The starting agent pools in constants.ts are not part of this model. They are passed to `App.AppState.constructor`.
- The seeded threats list in App.tsx is left out. No handler changes it.
- The blue handler's catch path (views/BlueTeamView.tsx:121-131) is left out because it is unreachable: `executeBlueTeamDefense` never throws.
- BlueTeamView.BlueTeamView.HandleIncomingAttack: with an empty blue pool, the source throws on the missing responder before any state changes. The model returns without a change.
- BlueTeamView.BlueTeamView.BeginDefense: the source's dedup check reads the defence list its effect captured at the last render. The model reads the current list, so two attacks handled within one render are not modelled.
- AgentService.AttackFromPlan: a parsed red plan's fields are taken to be absent or strings. `JSON.parse` can also give null, a number or an object. `{"payload": null}` would make `.substring` throw a TypeError with another message, and a number would throw because it has no `substring`. The model does not represent those values.
- GeminiService.GenerateBlueTeamResponse: a parsed blue plan's confidence is taken to be an integer or absent. A fraction such as 85.5, a string such as "85", or null passes through the source unchanged and is not represented.
- WorkflowEngine.RunToolCall: a function call's arguments are taken to be present. When the backend omits `args`, `network_scan` and `cve_lookup` throw on reading a field of `undefined`, and the step then resolves to "Error". The other tools ignore their arguments. That path is not modelled.
- Each agent pool is written by one handler at a time, with the snapshot its closure captured. Races between stale snapshots are left out.
- OrchestratorView.OrchestratorView.StartReasoning: the interval effect registers its handler once, so periodic rounds read the agent pools of the first render. The model takes the pools as arguments, and the caller supplies that snapshot.
- AgentService.ExecuteRedTeamAttack states only the status, type and agent of a created record. The rest of its contract is on AgentService.AttackFromPlan, which it calls.

## Findings

| source | as written | input that shows it | evidently intended | confidence | as-written member | corrected member |
|---|---|---|---|---|---|---|
| services/agentService.ts:97-113 | `indexOf` returns -1 for BLOCKED and SUCCESS, the `currentIndex < 2` guard passes, and the record is sent back to INITIATED with a new log line | a record with status BLOCKED | statuses outside INITIATED..DETECTED are left unchanged | not executed | AgentService.ProgressAttackResetsTerminal | AgentService.AdvanceNeverGoesBack |
| views/WorkflowView.tsx:62-95 | the loop guard reads the `isRunning` the handler's closure captured, which is `false` | clicking Run on an idle editor | the seven steps run, lighting the nodes and logging their lines | not executed | WorkflowView.WorkflowView.RunWorkflow | WorkflowView.WorkflowView.RunWorkflowIntended |
| views/WorkflowView.tsx:103-124 | the grab offset uses page coordinates, but the move subtracts the canvas origin | a node at x = 300 on a canvas whose left edge is at 250 jumps to x = 50 on the first move | the node stays under the pointer | not executed | WorkflowView.DragWithoutMotionJumps | WorkflowView.DragWithoutMotionStays |

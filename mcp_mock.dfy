/**
 * The simulated tool server (services/mcpMock.ts): a fixed registry of five
 * tools and a dispatcher from a tool name and its arguments to a canned
 * JSON payload. The simulated latency is not modelled; the payload is a
 * function of the name and the arguments alone.
 */
module McpMock {
  import opened Wrappers
  import opened Types
  import Strings

  /**
   * One argument value as the backend sends it: a string, or another
   * scalar JSON value (a number, a boolean or null), carried as its JSON
   * text. Arrays and nested objects are not modelled.
   */
  datatype ArgValue = ArgStr(s: string) | ArgOther(json: string)

  /**
   * A JSON object of arguments, keys in insertion order. An object has
   * unique keys (`JSON.parse` keeps the last of duplicates), so on the
   * lists the backend produces the first entry with a key is the only one.
   */
  type Args = seq<(string, ArgValue)>

  /** `args[key]`: the value of the entry with that key (the first, should a list repeat a key), or `undefined`. */
  function Lookup(args: Args, key: string): (r: Option<ArgValue>)
    ensures r.None? <==> forall i :: 0 <= i < |args| ==> args[i].0 != key
    ensures r.Some? ==> exists i :: 0 <= i < |args| && args[i] == (key, r.value)
  {
    if args == [] then None
    else if args[0].0 == key then Some(args[0].1)
    else
      var r := Lookup(args[1..], key);
      assert r.Some? ==> exists i :: 0 <= i < |args| - 1 && args[1..][i] == (key, r.value);
      r
  }

  /** A tool declaration; every parameter is declared with JSON type `string`. */
  datatype Tool = Tool(name: string, description: string, parameters: seq<string>)

  /** `MCP_TOOLS`, in the order `Object.values` enumerates it. */
  const Registry: seq<(string, Tool)> := [
    ("network_scan", Tool("network_scan", "Scans a target subnet for open ports and services.", ["target"])),
    ("cve_lookup", Tool("cve_lookup", "Searches the National Vulnerability Database for CVEs related to a service.", ["service", "version"])),
    ("exploit_generator", Tool("exploit_generator", "Simulates generating a payload for a specific vulnerability.", ["cve", "targetType"])),
    ("log_analyzer", Tool("log_analyzer", "Analyzes raw log lines for anomaly patterns.", ["logs"])),
    ("firewall_update", Tool("firewall_update", "Updates firewall rules to block specific IPs or patterns.", ["rule", "action"]))
  ]

  /** The registry's keys. */
  function ToolNames(): (names: seq<string>)
    ensures |names| == |Registry|
    ensures forall i :: 0 <= i < |names| ==> names[i] == Registry[i].0
  {
    seq(|Registry|, i requires 0 <= i < |Registry| => Registry[i].0)
  }

  /** The registry holds five tools with distinct keys, each filed under its own name. */
  lemma RegistryWellFormed()
    ensures |Registry| == 5
    ensures forall i :: 0 <= i < |Registry| ==> Registry[i].1.name == Registry[i].0
    ensures forall i, j :: 0 <= i < j < |Registry| ==> Registry[i].0 != Registry[j].0
    ensures ToolNames() == ["network_scan", "cve_lookup", "exploit_generator", "log_analyzer", "firewall_update"]
  {
  }

  /** The structured payloads the dispatcher returns, before `JSON.stringify`. */
  datatype Payload =
    | ScanReport(host: Option<ArgValue>, openPorts: seq<nat>, services: seq<(nat, string)>)
    | CveReport(cves: seq<string>, severity: string, description: Option<string>)
    | ExploitPayload(payloadType: string, payload: string, obfuscation: string)
    | Verdict(verdict: string, confidence: string, attackType: string, signatureMatch: string)
    | RuleApplied(status: string, ruleId: string, impact: string)
    | ToolNotFound

  const ScanPorts: seq<nat> := [80, 443, 22]

  /**
   * The scan's service map. Its keys are integer-like, so JavaScript
   * enumerates them in ascending numeric order, whatever order the literal
   * lists them in.
   */
  const ScanServices: seq<(nat, string)> := [(22, "OpenSSH_8.2p1"), (80, "Apache/2.4.41"), (443, "nginx/1.18.0")]

  const ApacheCves: seq<string> := ["CVE-2021-41773", "CVE-2021-42013"]

  /** `args.service` is a string, so `args.service.includes` does not throw. */
  predicate ServiceIsString(args: Args)
  {
    Lookup(args, "service").Some? && Lookup(args, "service").value.ArgStr?
  }

  /** The error V8 raises for `args.service.includes(...)` when the service is not a string. */
  function ServiceError(service: Option<ArgValue>): JsError
  {
    match service
    case None => TypeError("Cannot read properties of undefined (reading 'includes')")
    case Some(ArgOther(json)) =>
      if json == "null" then TypeError("Cannot read properties of null (reading 'includes')")
      else TypeError("args.service.includes is not a function")
    case Some(ArgStr(_)) => TypeError("")
  }

  /** The `switch` of `executeMCPTool`, on payloads. */
  function ExecuteTool(toolName: string, args: Args): (r: Result<Payload, JsError>)
    ensures r.Err? <==> toolName == "cve_lookup" && !ServiceIsString(args)
    ensures r.Ok? && r.value == ToolNotFound <==> toolName !in ToolNames()
  {
    RegistryWellFormed();
    match toolName
    case "network_scan" =>
      Ok(ScanReport(Lookup(args, "target"), ScanPorts, ScanServices))
    case "cve_lookup" =>
      var service := Lookup(args, "service");
      if service.Some? && service.value.ArgStr? then
        if Strings.Includes(service.value.s, "Apache") then
          Ok(CveReport(ApacheCves, "CRITICAL",
            Some("Path traversal vulnerability in Apache HTTP Server 2.4.49/2.4.50")))
        else
          Ok(CveReport([], "LOW", None))
      else
        Err(ServiceError(service))
    case "exploit_generator" =>
      Ok(ExploitPayload("Path Traversal", "GET /cgi-bin/.%2e/%2e%2e/%2e%2e/etc/passwd", "medium"))
    case "log_analyzer" =>
      Ok(Verdict("MALICIOUS", "0.98", "Path Traversal / LFI", "ET WEB_SERVER Apache Path Traversal"))
    case "firewall_update" =>
      Ok(RuleApplied("APPLIED", "BLOCK-9921", "Traffic from attacker blocked at perimeter."))
    case _ =>
      Ok(ToolNotFound)
  }

  // ---------------------------------------------------------------------------
  // JSON.stringify of the payloads

  function HexDigit(d: nat): char
    requires d < 16
  {
    "0123456789abcdef"[d]
  }

  /** One character inside a JSON string literal, escaped as `JSON.stringify` escapes it. */
  function EscapeChar(c: char): string
  {
    if c == '"' then "\\\""
    else if c == '\\' then "\\\\"
    else if c == '\U{8}' then "\\b"
    else if c == '\U{C}' then "\\f"
    else if c == '\n' then "\\n"
    else if c == '\r' then "\\r"
    else if c == '\t' then "\\t"
    else if c < ' ' then "\\u00" + [HexDigit(c as int / 16), HexDigit(c as int % 16)]
    else [c]
  }

  function Escape(s: string): string
  {
    if s == [] then "" else EscapeChar(s[0]) + Escape(s[1..])
  }

  /** A string as a JSON string literal. */
  function Quote(s: string): string
  {
    "\"" + Escape(s) + "\""
  }

  predicate PlainChar(c: char)
  {
    c != '"' && c != '\\' && c >= ' '
  }

  /** A string with no quote, backslash or control character is quoted verbatim. */
  lemma {:induction false} EscapePlain(s: string)
    requires forall i :: 0 <= i < |s| ==> PlainChar(s[i])
    ensures Escape(s) == s
    decreases |s|
  {
    if s != [] {
      EscapePlain(s[1..]);
      assert EscapeChar(s[0]) == [s[0]];
      assert [s[0]] + s[1..] == s;
    }
  }

  function RenderValue(v: ArgValue): string
  {
    match v
    case ArgStr(s) => Quote(s)
    case ArgOther(json) => json
  }

  function RenderStrings(xs: seq<string>): string
  {
    "[" + Strings.Join(seq(|xs|, i requires 0 <= i < |xs| => Quote(xs[i])), ",") + "]"
  }

  function RenderNats(xs: seq<nat>): string
  {
    "[" + Strings.Join(seq(|xs|, i requires 0 <= i < |xs| => Strings.NatToDecimal(xs[i])), ",") + "]"
  }

  function RenderServices(m: seq<(nat, string)>): string
  {
    "{" + Strings.Join(seq(|m|, i requires 0 <= i < |m| => Quote(Strings.NatToDecimal(m[i].0)) + ":" + Quote(m[i].1)), ",") + "}"
  }

  /**
   * A JSON object of arguments, keys in insertion order. An object has
   * unique keys (`JSON.parse` keeps the last of duplicates), so on the
   * lists the backend produces the first entry with a key is the only one.
   */
  function RenderArgs(args: Args): string
  {
    "{" + Strings.Join(seq(|args|, i requires 0 <= i < |args| => Quote(args[i].0) + ":" + RenderValue(args[i].1)), ",") + "}"
  }

  const NotFoundJson: string := "{\"error\":\"Tool not found\"}"

  /**
   * `JSON.stringify(payload)`; a field holding `undefined` is omitted. The
   * text is an object whose first key tells the payloads apart; only the
   * not-found payload's starts with 'e'.
   */
  function Render(p: Payload): (r: string)
    ensures |r| > 2 && r[0] == '{' && r[1] == '"'
    ensures r[2] == 'e' <==> p.ToolNotFound?
  {
    match p
    case ScanReport(host, ports, services) => ScanJson(host, ports, services)
    case CveReport(cves, severity, description) => CveJson(cves, severity, description)
    case ExploitPayload(payloadType, payload, obfuscation) =>
      ThreeFieldJson("payload_type", payloadType, "payload", payload, "obfuscation", obfuscation)
    case Verdict(verdict, confidence, attackType, signatureMatch) => VerdictJson(verdict, confidence, attackType, signatureMatch)
    case RuleApplied(status, ruleId, impact) =>
      ThreeFieldJson("status", status, "rule_id", ruleId, "impact", impact)
    case ToolNotFound => NotFoundJson
  }

  function ScanJson(host: Option<ArgValue>, ports: seq<nat>, services: seq<(nat, string)>): (r: string)
    ensures |r| > 2 && r[0] == '{' && r[1] == '"' && r[2] == 's'
  {
    JsonObject("status", "\"success\","
      + (if host.Some? then "\"host\":" + RenderValue(host.value) + "," else "")
      + "\"open_ports\":" + RenderNats(ports) + ",\"services\":" + RenderServices(services) + "}")
  }

  function CveJson(cves: seq<string>, severity: string, description: Option<string>): (r: string)
    ensures |r| > 2 && r[0] == '{' && r[1] == '"' && r[2] == 'c'
  {
    JsonObject("cves", RenderStrings(cves) + ",\"severity\":" + Quote(severity)
      + (if description.Some? then ",\"description\":" + Quote(description.value) else "") + "}")
  }

  function VerdictJson(verdict: string, confidence: string, attackType: string, signatureMatch: string): (r: string)
    ensures |r| > 2 && r[0] == '{' && r[1] == '"' && r[2] == 'v'
  {
    JsonObject("verdict", Quote(verdict) + ",\"confidence\":" + confidence
      + ",\"attack_type\":" + Quote(attackType) + ",\"signature_match\":" + Quote(signatureMatch) + "}")
  }

  /** An object of three string fields, in the order given. */
  function ThreeFieldJson(k1: string, v1: string, k2: string, v2: string, k3: string, v3: string): (r: string)
    ensures |r| > 2 && r[0] == '{' && r[1] == '"'
    ensures |k1| > 0 ==> r[2] == k1[0]
  {
    JsonObject(k1, Quote(v1) + ",\"" + k2 + "\":" + Quote(v2) + ",\"" + k3 + "\":" + Quote(v3) + "}")
  }

  /** An object text: its first key, then the first value and the rest of the members. */
  function JsonObject(firstKey: string, rest: string): (r: string)
    ensures |r| > 2 && r[0] == '{' && r[1] == '"'
    ensures |firstKey| > 0 ==> r[2] == firstKey[0]
  {
    var head := "{\"" + firstKey + "\":";
    var r := head + rest;
    assert r[..|head|] == head;
    r
  }

  /** The error payload's text is told apart from every other payload's text. */
  lemma RenderNotFoundIff(p: Payload)
    ensures Render(p) == NotFoundJson <==> p == ToolNotFound
  {
    var e := NotFoundJson;
    assert e[2] == 'e';
    if p != ToolNotFound {
      assert Render(p)[2] != e[2];
    }
  }

  /** `executeMCPTool`: the payload as JSON text, or the error it throws. */
  function ExecuteMcpTool(toolName: string, args: Args): (r: Result<string, JsError>)
    ensures r.Err? <==> toolName == "cve_lookup" && !ServiceIsString(args)
    ensures r == Ok(NotFoundJson) <==> toolName !in ToolNames()
  {
    match ExecuteTool(toolName, args)
    case Ok(p) => RenderNotFoundIff(p); Ok(Render(p))
    case Err(e) => Err(e)
  }

  // ---------------------------------------------------------------------------
  // Properties of the dispatcher

  /** A network scan echoes `args.target` as its host and always reports the same ports and services. */
  lemma ScanEchoesTarget(args: Args)
    ensures ExecuteTool("network_scan", args)
      == Ok(ScanReport(Lookup(args, "target"), [80, 443, 22], ScanServices))
  {
  }

  /** A CVE lookup on a string service reports the two Apache CVEs as CRITICAL exactly when the service mentions Apache, and nothing, as LOW, otherwise. */
  lemma CveLookupSeverity(args: Args, service: string)
    requires Lookup(args, "service") == Some(ArgStr(service))
    ensures (exists i :: Strings.OccursAt(service, "Apache", i)) ==>
      ExecuteTool("cve_lookup", args) == Ok(CveReport(["CVE-2021-41773", "CVE-2021-42013"], "CRITICAL",
        Some("Path traversal vulnerability in Apache HTTP Server 2.4.49/2.4.50")))
    ensures (forall i :: !Strings.OccursAt(service, "Apache", i)) ==>
      ExecuteTool("cve_lookup", args) == Ok(CveReport([], "LOW", None))
  {
    if Strings.Includes(service, "Apache") {
      assert ExecuteTool("cve_lookup", args).value.severity == "CRITICAL";
    }
  }

  /** The exploit, log-analysis and firewall tools ignore their arguments. */
  lemma FixedToolsIgnoreArgs(toolName: string, a1: Args, a2: Args)
    requires toolName in ["exploit_generator", "log_analyzer", "firewall_update"]
    ensures ExecuteTool(toolName, a1) == ExecuteTool(toolName, a2)
    ensures ExecuteTool(toolName, a1).Ok?
  {
  }

  /** Every registered tool has a case of its own; only an unregistered name yields the error payload. */
  lemma RegisteredToolsAnswer(toolName: string, args: Args)
    requires toolName in ToolNames()
    requires toolName == "cve_lookup" ==> ServiceIsString(args)
    ensures ExecuteMcpTool(toolName, args).Ok?
    ensures ExecuteMcpTool(toolName, args).value != NotFoundJson
  {
  }

  /** An unknown tool name yields exactly `{"error":"Tool not found"}`. */
  lemma UnknownToolNotFound(toolName: string, args: Args)
    requires toolName !in ToolNames()
    ensures ExecuteMcpTool(toolName, args) == Ok("{\"error\":\"Tool not found\"}")
  {
  }
}

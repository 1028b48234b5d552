/**
 * The reasoning-backend wrappers (services/geminiService.ts). The backend
 * itself is not modelled: each call receives the `Reply` the backend gave,
 * and `JSON.parse` is a parameter. What is modelled is every fallback and the
 * post-processing of the reply text.
 */
module GeminiService {
  import opened Wrappers
  import opened Types
  import Strings

  /** What the module's client handle produces for one request. */
  datatype Reply =
    | NoClient              // no API key was configured, so the handle is null
    | Answer(text: string)  // `response.text`; "" also stands for `undefined`
    | Fails(message: Field) // the request was rejected with `error.message`

  /** `isGeminiAvailable`: the handle is not null. */
  function IsGeminiAvailable(reply: Reply): bool
  {
    !reply.NoClient?
  }

  const Warning: string := "\U{26A0}\U{FE0F}"

  // ---------------------------------------------------------------------------
  // Extracting the JSON object from a reply: `text.match(/\{[\s\S]*\}/)`

  /** The first index at or after `from` holding `c`. */
  function FindFirst(s: string, c: char, from: nat): (r: Option<nat>)
    requires from <= |s|
    ensures r.Some? ==> from <= r.value < |s| && s[r.value] == c
    ensures r.Some? ==> forall k :: from <= k < r.value ==> s[k] != c
    ensures r.None? ==> forall k :: from <= k < |s| ==> s[k] != c
    decreases |s| - from
  {
    if from == |s| then None
    else if s[from] == c then Some(from)
    else FindFirst(s, c, from + 1)
  }

  /** The last index before `upto` holding `c`. */
  function FindLast(s: string, c: char, upto: nat): (r: Option<nat>)
    requires upto <= |s|
    ensures r.Some? ==> r.value < upto && s[r.value] == c
    ensures r.Some? ==> forall k :: r.value < k < upto ==> s[k] != c
    ensures r.None? ==> forall k :: 0 <= k < upto ==> s[k] != c
  {
    if upto == 0 then None
    else if s[upto - 1] == c then Some(upto - 1)
    else FindLast(s, c, upto - 1)
  }

  /**
   * The regular expression's match: the greedy `[\s\S]*` runs from the
   * first '{' to the last '}' after it. There is no match exactly when no
   * '{' comes before a '}'.
   */
  function BraceSpan(text: string): (r: Option<string>)
    ensures r.Some? <==> exists i, j :: 0 <= i < j < |text| && text[i] == '{' && text[j] == '}'
    ensures r.Some? ==> exists i, j ::
      && 0 <= i < j < |text| && text[i] == '{' && text[j] == '}'
      && r.value == text[i..j + 1]
      && (forall k :: 0 <= k < i ==> text[k] != '{')
      && (forall k :: j < k < |text| ==> text[k] != '}')
  {
    match FindFirst(text, '{', 0)
    case None => None
    case Some(i) =>
      match FindLast(text, '}', |text|)
      case None => None
      case Some(j) => if i < j then Some(text[i..j + 1]) else None
  }

  /** `response.text || '{}'`. */
  function ReplyText(text: string): string
  {
    if text == "" then "{}" else text
  }

  // ---------------------------------------------------------------------------
  // generateStrategicDecision

  const StrategicNotConfigured: string :=
    Warning + " Gemini API not configured. Please set VITE_GEMINI_API_KEY in .env.local to enable AI-powered strategic analysis."

  /** The orchestrator's analysis; the context only reaches the prompt. */
  function GenerateStrategicDecision(context: string, reply: Reply): (decision: string)
    ensures reply.NoClient? ==> decision == StrategicNotConfigured
    ensures reply.Answer? ==> decision == if reply.text == "" then "Analysis incomplete." else reply.text
    ensures reply.Fails? && reply.message.Str? && reply.message.s != "" ==>
      decision == Warning + " API Error: " + reply.message.s + ". Check your API key and quota."
    ensures reply.Fails? && !(reply.message.Str? && reply.message.s != "") ==>
      decision == Warning + " API Error: " + "Failed to connect to Gemini API" + ". Check your API key and quota."
  {
    match reply
    case NoClient => StrategicNotConfigured
    case Answer(text) => if text == "" then "Analysis incomplete." else text
    case Fails(message) =>
      var why := if message.Str? && message.s != "" then message.s else "Failed to connect to Gemini API";
      Warning + " API Error: " + why + ". Check your API key and quota."
  }

  // ---------------------------------------------------------------------------
  // generateRedTeamAttack

  /** The strategy triple; a field the parsed JSON lacks is `undefined`. */
  datatype RedPlan = RedPlan(strategy: Field, payload: Field, expectedImpact: Field)

  /** What the backend's `JSON.parse` makes of the extracted text, or its SyntaxError message. */
  type RedParser = string -> Result<RedPlan, string>

  function RedNoClient(attackType: string): RedPlan
  {
    RedPlan(
      Str(Warning + " Gemini API not configured. Set VITE_GEMINI_API_KEY in .env.local to enable AI-powered " + attackType + " attacks."),
      Str("API key required"),
      Str("Configure Gemini API to generate real attack strategies"))
  }

  function RedError(message: Field): RedPlan
  {
    RedPlan(Str(Warning + " API Error: " + Show(message)), Str("N/A"), Str("Check API key and quota"))
  }

  /** The red-team strategy for an attack kind; the target only reaches the prompt. */
  function GenerateRedTeamAttack(attackType: string, reply: Reply, parse: RedParser): (plan: RedPlan)
    ensures reply.NoClient? ==> plan == RedNoClient(attackType)
    ensures reply.Fails? ==> plan == RedError(reply.message)
    ensures reply.Answer? ==>
      var text := ReplyText(reply.text);
      match BraceSpan(text)
      case None => plan == RedPlan(Str(Strings.Take(text, 200)), Str("Generated payload"), Str("System analysis"))
      case Some(span) => plan == if parse(span).Ok? then parse(span).value else RedError(Str(parse(span).error))
  {
    match reply
    case NoClient => RedNoClient(attackType)
    case Fails(message) => RedError(message)
    case Answer(t) =>
      var text := ReplyText(t);
      match BraceSpan(text)
      case Some(span) =>
        (match parse(span)
         case Ok(plan) => plan
         case Err(message) => RedError(Str(message)))
      case None =>
        RedPlan(Str(Strings.Take(text, 200)), Str("Generated payload"), Str("System analysis"))
  }

  // ---------------------------------------------------------------------------
  // generateBlueTeamResponse

  /** The defence triple; `confidence` is `None` when the parsed JSON lacks it. */
  datatype BluePlan = BluePlan(analysis: Field, mitigation: Field, confidence: Option<int>)

  type BlueParser = string -> Result<BluePlan, string>

  const BlueNoClient: BluePlan := BluePlan(
    Str(Warning + " Gemini API not configured. Set VITE_GEMINI_API_KEY to enable AI-powered threat analysis."),
    Str("Configure API key to enable automated defense"),
    Some(0))

  function BlueError(message: Field): BluePlan
  {
    BluePlan(Str(Warning + " API Error: " + Show(message)), Str("Check API configuration"), Some(0))
  }

  /** The blue-team analysis of a threat; the threat text only reaches the prompt. */
  function GenerateBlueTeamResponse(threat: string, attackDetails: string, reply: Reply, parse: BlueParser): (plan: BluePlan)
    ensures reply.NoClient? ==> plan == BlueNoClient
    ensures reply.Fails? ==> plan == BlueError(reply.message)
    ensures reply.Answer? ==>
      var text := ReplyText(reply.text);
      match BraceSpan(text)
      case None => plan == BluePlan(Str(Strings.Take(text, 200)), Str("Defensive measures applied"), Some(75))
      case Some(span) => plan == if parse(span).Ok? then parse(span).value else BlueError(Str(parse(span).error))
  {
    match reply
    case NoClient => BlueNoClient
    case Fails(message) => BlueError(message)
    case Answer(t) =>
      var text := ReplyText(t);
      match BraceSpan(text)
      case Some(span) =>
        (match parse(span)
         case Ok(plan) => plan
         case Err(message) => BlueError(Str(message)))
      case None =>
        BluePlan(Str(Strings.Take(text, 200)), Str("Defensive measures applied"), Some(75))
  }

  // ---------------------------------------------------------------------------
  // Properties

  /** Without a client all three wrappers take their fixed fallbacks. */
  lemma NoClientFallbacks(context: string, attackType: string, reply: Reply, red: RedParser, blue: BlueParser)
    requires !IsGeminiAvailable(reply)
    ensures GenerateStrategicDecision(context, reply) == StrategicNotConfigured
    ensures GenerateRedTeamAttack(attackType, reply, red).payload == Str("API key required")
    ensures Strings.Includes(Show(GenerateRedTeamAttack(attackType, reply, red).strategy), attackType)
    ensures GenerateBlueTeamResponse(attackType, context, reply, blue).confidence == Some(0)
  {
    var strategy := Show(GenerateRedTeamAttack(attackType, reply, red).strategy);
    var before := Warning + " Gemini API not configured. Set VITE_GEMINI_API_KEY in .env.local to enable AI-powered ";
    assert strategy == before + attackType + " attacks.";
    assert strategy[|before|..|before| + |attackType|] == attackType;
    assert Strings.OccursAt(strategy, attackType, |before|);
  }

  /** Without a brace span the red strategy is the reply cut to its first 200 characters. */
  lemma RedTruncationFallback(attackType: string, text: string, parse: RedParser)
    requires text != ""
    requires forall i, j :: 0 <= i < j < |text| ==> !(text[i] == '{' && text[j] == '}')
    ensures var plan := GenerateRedTeamAttack(attackType, Answer(text), parse);
      && plan.strategy.Str?
      && |plan.strategy.s| == (if |text| < 200 then |text| else 200)
      && plan.strategy.s <= text
      && plan.payload == Str("Generated payload")
  {
    assert BraceSpan(text).None?;
  }

  /** Whatever the JSON span parses to is returned as it is: a parsed confidence is not range-checked. */
  lemma ParsedBluePlanPassesThrough(threat: string, details: string, text: string, parse: BlueParser)
    requires exists i, j :: 0 <= i < j < |text| && text[i] == '{' && text[j] == '}'
    requires parse(BraceSpan(text).value).Ok?
    ensures GenerateBlueTeamResponse(threat, details, Answer(text), parse) == parse(BraceSpan(text).value).value
  {
  }

  /** The confidences the wrapper supplies itself (0, 75 and 0) lie within 0..100. */
  lemma FallbackConfidenceInRange(threat: string, details: string, reply: Reply, parse: BlueParser)
    requires reply.Answer? ==> var span := BraceSpan(ReplyText(reply.text)); span.None? || parse(span.value).Err?
    ensures var c := GenerateBlueTeamResponse(threat, details, reply, parse).confidence;
      c.Some? && 0 <= c.value <= 100
  {
  }

  /**
   * An empty reply is read as `{}`, so both plan generators hand it to their
   * parser and never take the truncation fallback.
   */
  lemma EmptyReplyIsParsed(attackType: string, threat: string, details: string, red: RedParser, blue: BlueParser)
    ensures GenerateRedTeamAttack(attackType, Answer(""), red)
      == if red("{}").Ok? then red("{}").value else RedError(Str(red("{}").error))
    ensures GenerateBlueTeamResponse(threat, details, Answer(""), blue)
      == if blue("{}").Ok? then blue("{}").value else BlueError(Str(blue("{}").error))
  {
    var t := ReplyText("");
    assert t == "{}";
    assert t[0] == '{' && t[1] == '}';
    assert t[0..2] == t;
  }
}

/**
 * The `suggest-projects` edge function: it reads `skillLevel` and `interest`
 * from the request, asks the AI gateway for project ideas through a forced
 * call of the `suggest_projects` tool, and answers with the tool call's
 * arguments, or with a JSON error object.
 *
 * The environment, the gateway and the network are parameters: the API key
 * is an optional string, and what `fetch` gives back is a `FetchOutcome`.
 * The handler's result is the gateway request it issued, if any, together
 * with the response it returned.
 */
module SuggestProjects {
  import opened Json
  import opened Js

  // ------------------------------------------------------------------
  // Requests and responses
  // ------------------------------------------------------------------

  /** A header as a (name, value) pair. */
  type Header = (string, string)

  const AllowOrigin: Header := ("Access-Control-Allow-Origin", "*")
  const AllowHeaders: Header := ("Access-Control-Allow-Headers", "authorization, x-client-info, apikey, content-type")
  const CorsHeaders: seq<Header> := [AllowOrigin, AllowHeaders]

  /** The CORS headers followed by the JSON content type. */
  const JsonHeaders: seq<Header> := CorsHeaders + [("Content-Type", "application/json")]

  datatype Body = NoBody | Text(text: string)

  /** A response; `new Response(...)` without a status gives 200. */
  datatype Response = Response(status: int, headers: seq<Header>, body: Body)

  /** An incoming request: its HTTP method and the text of its body. */
  datatype Request = Request(verb: string, body: string)

  /** What a `catch` clause can receive: an `Error` with its message, or any other value. */
  datatype Thrown = ErrorObject(message: string) | NonError

  /** What `fetch` gives: a rejection, or a response with a status and the text of its body. */
  datatype FetchOutcome = Rejected(reason: Thrown) | Received(status: int, body: string)

  /** The request sent to the AI gateway; `payload` is the object that `JSON.stringify` writes as its body. */
  datatype GatewayRequest = GatewayRequest(url: string, verb: string, headers: seq<Header>, payload: Json)

  /** One run of the handler: the gateway request it issued, if any, and the response. */
  datatype Exchange = Exchange(call: Option<GatewayRequest>, response: Response)

  const GatewayUrl := "https://ai.gateway.lovable.dev/v1/chat/completions"
  const Model := "google/gemini-2.5-flash"

  const MissingKey := "LOVABLE_API_KEY is not configured"
  const RateLimited := "Rate limits exceeded, please try again later."
  const PaymentRequired := "Payment required, please add funds to your Lovable AI workspace."
  const GatewayError := "AI gateway error"
  const NoToolCall := "No tool call in response"
  const UnknownError := "Unknown error"

  /** The TypeError of destructuring `{ skillLevel, interest }` from `null`. */
  const NullDestructure := "Cannot destructure property 'skillLevel' of '(intermediate value)' as it is null."

  // ------------------------------------------------------------------
  // The prompts
  // ------------------------------------------------------------------

  const SystemPrompt := "You are a project idea generator for students and developers. Generate creative, practical, and trending project ideas based on user's skill level and interests. Each project should be realistic and achievable."

  const PromptLead := "Generate 5 project ideas for someone with "
  const PromptMid := " skill level interested in "
  const PromptTail := ". \n    \nFor each project, provide:\n- A catchy project title\n- A brief description (2-3 sentences)\n- Difficulty rating (Easy, Medium, Hard)\n- Key technologies/skills involved\n- Estimated time to complete\n\nFormat your response as a JSON array of projects."

  /** `s` occurs in `text` starting at index `i`. */
  predicate OccursAt(text: string, s: string, i: nat)
  {
    i + |s| <= |text| && text[i..i + |s|] == s
  }

  /** The user prompt's text around the two values, once they are converted to strings. */
  function PromptText(skill: string, interest: string): (r: string)
    ensures OccursAt(r, skill, |PromptLead|)
    ensures OccursAt(r, interest, |PromptLead| + |skill| + |PromptMid|)
    ensures |r| == |PromptLead| + |skill| + |PromptMid| + |interest| + |PromptTail|
  {
    Interpolate(PromptLead, skill, PromptMid, interest, PromptTail);
    PromptLead + skill + PromptMid + interest + PromptTail
  }

  /**
   * The user prompt, with both values interpolated as a template literal
   * converts them: an absent field reads "undefined", and an unprintable
   * value makes the template throw.
   */
  function UserPrompt(skill: Value, interest: Value): (r: Result<string>)
    ensures r.Err? <==> ToStringThrows(skill) || ToStringThrows(interest)
    ensures r.Err? ==> r.message == NoPrimitive
    ensures r.Ok? ==> r.value == PromptText(ToJsString(skill).value, ToJsString(interest).value)
  {
    var a :- ToJsString(skill);
    var b :- ToJsString(interest);
    Ok(PromptText(a, b))
  }

  /** Where the two values land in a text with two holes. */
  lemma Interpolate(lead: string, a: string, mid: string, b: string, tail: string)
    ensures var r := lead + a + mid + b + tail;
      OccursAt(r, a, |lead|) && OccursAt(r, b, |lead| + |a| + |mid|)
  {
    var r := lead + a + mid + b + tail;
    assert r[|lead|..|lead| + |a|] == a;
    assert r[|lead| + |a| + |mid|..|lead| + |a| + |mid| + |b|] == b;
  }

  // ------------------------------------------------------------------
  // The body sent to the gateway
  // ------------------------------------------------------------------

  function Message(role: string, content: string): Json
  {
    JObj([Field("role", JStr(role)), Field("content", JStr(content))])
  }

  function TypeOnly(t: string): Json
  {
    JObj([Field("type", JStr(t))])
  }

  /** The schema of an array whose elements follow `items`. */
  function ArrayOf(items: Json): Json
  {
    JObj([Field("type", JStr("array")), Field("items", items)])
  }

  /** The schema of an object with the given properties, the given required ones and no others. */
  function ObjectSchema(properties: seq<Field>, required: seq<Json>): Json
  {
    JObj([
      Field("type", JStr("object")),
      Field("properties", JObj(properties)),
      Field("required", JArr(required)),
      Field("additionalProperties", JBool(false))])
  }

  /** The three difficulties an idea may have. */
  const Difficulties: seq<Json> := [JStr("Easy"), JStr("Medium"), JStr("Hard")]

  function DifficultySchema(): Json
  {
    JObj([Field("type", JStr("string")), Field("enum", JArr(Difficulties))])
  }

  /** The properties of one project idea. */
  function IdeaProperties(): seq<Field>
  {
    [ Field("title", TypeOnly("string")),
      Field("description", TypeOnly("string")),
      Field("difficulty", DifficultySchema()),
      Field("technologies", ArrayOf(TypeOnly("string"))),
      Field("estimatedTime", TypeOnly("string")) ]
  }

  /** The properties an idea must have, as the schema lists them. */
  const IdeaRequired: seq<Json> := [JStr("title"), JStr("description"), JStr("difficulty"), JStr("technologies"), JStr("estimatedTime")]

  /** The JSON schema of one project idea. */
  function IdeaSchema(): Json
  {
    ObjectSchema(IdeaProperties(), IdeaRequired)
  }

  /** The JSON schema of the tool's arguments. */
  function ParametersSchema(): Json
  {
    ObjectSchema([Field("projects", ArrayOf(IdeaSchema()))], [JStr("projects")])
  }

  /** The one tool declared to the model. */
  function SuggestTool(): Json
  {
    JObj([
      Field("type", JStr("function")),
      Field("function", JObj([
        Field("name", JStr("suggest_projects")),
        Field("description", JStr("Return 5 actionable project suggestions.")),
        Field("parameters", ParametersSchema())]))])
  }

  function ToolChoice(): Json
  {
    JObj([Field("type", JStr("function")), Field("function", JObj([Field("name", JStr("suggest_projects"))]))])
  }

  /** The system message, then the user message. */
  function Conversation(system: string, user: string): Json
  {
    JArr([Message("system", system), Message("user", user)])
  }

  /** The request object around a list of messages. */
  function Chat(messages: Json): Json
  {
    JObj([
      Field("model", JStr(Model)),
      Field("messages", messages),
      Field("tools", JArr([SuggestTool()])),
      Field("tool_choice", ToolChoice())])
  }

  function ChatBody(user: string): Json
  {
    Chat(Conversation(SystemPrompt, user))
  }

  function Call(key: string, user: string): GatewayRequest
  {
    GatewayRequest(GatewayUrl, "POST",
      [("Authorization", "Bearer " + key), ("Content-Type", "application/json")],
      ChatBody(user))
  }

  /** The value at a path of property names, read with optional chaining. */
  function At(v: Json, path: seq<string>): Value
    decreases |path|
  {
    if path == [] then Val(v)
    else
      var x := Member(v, path[0]);
      if x.Undefined? then Undefined else At(x.json, path[1..])
  }

  // ------------------------------------------------------------------
  // The handler
  // ------------------------------------------------------------------

  /** `e instanceof Error ? e.message : "Unknown error"`. */
  function ErrorMessage(e: Thrown): (m: string)
    ensures e.ErrorObject? ==> m == e.message
    ensures e.NonError? ==> m == UnknownError
  {
    match e
    case ErrorObject(message) => message
    case NonError => UnknownError
  }

  /** A JSON response whose body is `{"error": message}`. */
  function ErrorResponse(status: int, message: string): Response
  {
    Response(status, JsonHeaders, Text(Stringify(JObj([Field("error", JStr(message))]))))
  }

  /** `const { skillLevel, interest } = await req.json()`. */
  function ReadInput(body: string): (r: Result<(Value, Value)>)
    ensures r.Ok? <==> Parse(body).Ok? && Parse(body).value != JNull
    ensures r.Ok? ==> r.value == (Member(Parse(body).value, "skillLevel"), Member(Parse(body).value, "interest"))
  {
    var v :- Parse(body);
    if v == JNull then Err(NullDestructure)
    else Ok((Member(v, "skillLevel"), Member(v, "interest")))
  }

  /** `!LOVABLE_API_KEY` fails for an unset key and for an empty one. */
  predicate KeyConfigured(key: Option<string>)
    ensures KeyConfigured(key) <==> Truthy(if key.None? then Undefined else Val(JStr(key.value)))
  {
    key.Some? && key.value != ""
  }

  /** An optional chain `x?.k1?.k2...`: undefined as soon as one link is null or undefined. */
  function OptWalk(x: Value, path: seq<string>): Value
    decreases |path|
  {
    if path == [] then x else OptWalk(OptGet(x, path[0]), path[1..])
  }

  /** `data.choices?.[0]?.message?.tool_calls?.[0]`; only the read of `choices` can throw. */
  function ToolCallOf(data: Value): (r: Result<Value>)
    ensures r.Err? <==> Nullish(data)
  {
    var choices :- Get(data, "choices");
    Ok(OptWalk(choices, ["0", "message", "tool_calls", "0"]))
  }

  /**
   * From the gateway's body to the parsed arguments of its first tool call,
   * or the message of what was thrown on the way: the parse error of a body
   * that is not JSON, and the TypeError of reading `choices` of `null`.
   * ToolArgumentsAt says what happens to any other body.
   */
  function ToolArguments(text: string): (r: Result<Json>)
    ensures Parse(text).Err? ==> r == Parse(text)
    ensures Parse(text) == Ok(JNull) ==> r == Err(ReadError(Val(JNull), "choices"))
  {
    var data :- Parse(text);
    var toolCall :- ToolCallOf(Val(data));
    if !Truthy(toolCall) then Err(NoToolCall)
    else
      var fn :- Get(toolCall, "function");
      var args :- Get(fn, "arguments");
      var argumentsText :- ToJsString(args);
      Parse(argumentsText)
  }

  /** `response.ok`: the status is in the range 200 to 299. */
  predicate Ok2xx(status: int)
    ensures Ok2xx(status) <==> status / 100 == 2
  {
    200 <= status <= 299
  }

  /** Everything after `fetch`, the `catch` included. */
  function Reply(upstream: FetchOutcome): (resp: Response)
    ensures upstream.Rejected? ==> resp == ErrorResponse(500, ErrorMessage(upstream.reason))
    ensures upstream.Received? && upstream.status == 429 ==> resp == ErrorResponse(429, RateLimited)
    ensures upstream.Received? && upstream.status == 402 ==> resp == ErrorResponse(402, PaymentRequired)
    ensures upstream.Received? && !Ok2xx(upstream.status) && upstream.status != 429 && upstream.status != 402
            ==> resp == ErrorResponse(500, GatewayError)
    ensures resp.status == 200 <==> upstream.Received? && Ok2xx(upstream.status) && ToolArguments(upstream.body).Ok?
    ensures resp.status == 200 ==> resp.body == Text(Stringify(ToolArguments(upstream.body).value))
    ensures upstream.Received? && Ok2xx(upstream.status) && ToolArguments(upstream.body).Err?
            ==> resp == ErrorResponse(500, ToolArguments(upstream.body).message)
    ensures resp.status in {200, 402, 429, 500} && resp.headers == JsonHeaders && resp.body.Text?
  {
    match upstream
    case Rejected(e) => ErrorResponse(500, ErrorMessage(e))
    case Received(status, text) =>
      if !Ok2xx(status) then
        if status == 429 then ErrorResponse(429, RateLimited)
        else if status == 402 then ErrorResponse(402, PaymentRequired)
        else ErrorResponse(500, GatewayError)
      else
        match ToolArguments(text)
        case Ok(projects) => Response(200, JsonHeaders, Text(Stringify(projects)))
        case Err(message) => ErrorResponse(500, message)
  }

  /** The whole handler: a preflight, or one attempt at a suggestion. */
  function Handle(req: Request, apiKey: Option<string>, upstream: FetchOutcome): (x: Exchange)
    ensures req.verb == "OPTIONS" ==> x == Exchange(None, Response(200, CorsHeaders, NoBody))
    ensures AllowOrigin in x.response.headers && AllowHeaders in x.response.headers
    ensures x.call.Some? <==> req.verb != "OPTIONS" && ReadInput(req.body).Ok? && KeyConfigured(apiKey)
                              && UserPrompt(ReadInput(req.body).value.0, ReadInput(req.body).value.1).Ok?
    ensures x.call.Some? ==>
      (x.call.value.url == GatewayUrl && x.call.value.verb == "POST"
       && ("Authorization", "Bearer " + apiKey.value) in x.call.value.headers
       && x.call.value.payload == ChatBody(UserPrompt(ReadInput(req.body).value.0, ReadInput(req.body).value.1).value)
       && x.response == Reply(upstream))
    ensures req.verb != "OPTIONS" && ReadInput(req.body).Err?
            ==> x.response == ErrorResponse(500, ReadInput(req.body).message)
    ensures req.verb != "OPTIONS" && ReadInput(req.body).Ok? && !KeyConfigured(apiKey)
            ==> x.response == ErrorResponse(500, MissingKey)
    ensures req.verb != "OPTIONS" && ReadInput(req.body).Ok? && KeyConfigured(apiKey)
            && UserPrompt(ReadInput(req.body).value.0, ReadInput(req.body).value.1).Err?
            ==> x.response == ErrorResponse(500, NoPrimitive)
  {
    if req.verb == "OPTIONS" then Exchange(None, Response(200, CorsHeaders, NoBody))
    else
      match ReadInput(req.body)
      case Err(message) => Exchange(None, ErrorResponse(500, message))
      case Ok(input) =>
        if !KeyConfigured(apiKey) then Exchange(None, ErrorResponse(500, MissingKey))
        else
          match UserPrompt(input.0, input.1)
          case Err(message) => Exchange(None, ErrorResponse(500, message))
          case Ok(user) => Exchange(Some(Call(apiKey.value, user)), Reply(upstream))
  }

  // ------------------------------------------------------------------
  // Properties
  // ------------------------------------------------------------------

  /** Every response carries one of four statuses, and only the preflight has no body. */
  lemma HandleStatuses(req: Request, apiKey: Option<string>, upstream: FetchOutcome)
    ensures var resp := Handle(req, apiKey, upstream).response;
      resp.status in {200, 402, 429, 500} && (resp.body.NoBody? <==> req.verb == "OPTIONS")
  {
  }

  /** Each error body decodes to an object whose only member is `error`, holding the message. */
  lemma ErrorBodyDecodes(status: int, message: string)
    ensures var resp := ErrorResponse(status, message);
      resp.body.Text? && Parse(resp.body.text) == Ok(JObj([Field("error", JStr(message))]))
  {
    ParseStringify(JObj([Field("error", JStr(message))]));
  }

  const ToolCallPath: seq<string> := ["choices", "0", "message", "tool_calls", "0"]

  /** Walking a path is walking its two halves in turn. */
  lemma {:induction false} AtConcat(v: Json, p: seq<string>, q: seq<string>)
    ensures At(v, p + q) == if At(v, p).Undefined? then Undefined else At(At(v, p).json, q)
    decreases |p|
  {
    if p != [] {
      assert (p + q)[1..] == p[1..] + q;
      var x := Member(v, p[0]);
      if x.Val? {
        AtConcat(x.json, p[1..], q);
      }
    } else {
      assert p + q == q;
    }
  }

  /** One step into an object with distinct keys. */
  lemma AtField(fields: seq<Field>, i: nat)
    requires DistinctKeys(fields) && i < |fields|
    ensures At(JObj(fields), [fields[i].key]) == Val(fields[i].value)
  {
    LookupDistinct(fields, i);
  }

  /** One step into an array. */
  lemma AtIndex(items: seq<Json>, i: nat)
    requires i < |items|
    ensures At(JArr(items), [NatToString(i)]) == Val(items[i])
  {
    MemberOfIndex(items, i);
  }

  /** Two steps, through a value that is there. */
  lemma AtThen(v: Json, p: seq<string>, w: Json, q: seq<string>)
    requires At(v, p) == Val(w)
    ensures At(v, p + q) == At(w, q)
  {
    AtConcat(v, p, q);
  }

  /** The optional chain reads what a plain walk along its path reads, once `data` is not null. */
  lemma {:induction false} OptWalkOfUndefined(path: seq<string>)
    ensures OptWalk(Undefined, path) == Undefined
    decreases |path|
  {
    if path != [] {
      OptWalkOfUndefined(path[1..]);
    }
  }

  /** An optional chain from a value that is there walks the same path as At. */
  lemma {:induction false} OptWalkIsAt(v: Json, path: seq<string>)
    requires path != []
    ensures OptWalk(Val(v), path) == At(v, path)
    decreases |path|
  {
    var x := Member(v, path[0]);
    assert OptGet(Val(v), path[0]) == (if v == JNull then Undefined else x);
    if x.Undefined? || v == JNull {
      OptWalkOfUndefined(path[1..]);
    } else if path[1..] != [] {
      OptWalkIsAt(x.json, path[1..]);
    }
  }

  lemma ToolCallOfIsAt(data: Json)
    requires data != JNull
    ensures ToolCallOf(Val(data)) == Ok(At(data, ToolCallPath))
  {
    var rest := ["0", "message", "tool_calls", "0"];
    assert ToolCallPath == ["choices"] + rest;
    assert ToolCallPath[1..] == rest;
    var c := Member(data, "choices");
    if c.Val? {
      OptWalkIsAt(c.json, rest);
    } else {
      OptWalkOfUndefined(rest);
    }
  }

  /** Where the arguments of the first tool call sit in the gateway's reply. */
  const ArgumentsPath: seq<string> := ToolCallPath + ["function", "arguments"]

  /**
   * For a reply that parses to anything but `null`, the outcome follows a
   * plain walk along the reply: without a truthy tool call it is refused;
   * with a tool call whose `function` is null or undefined, reading
   * `arguments` throws; otherwise what is found at ArgumentsPath is converted
   * to a string, which throws on an unprintable value, and parsed.
   */
  lemma ToolArgumentsAt(text: string, data: Json)
    requires Parse(text) == Ok(data) && data != JNull
    ensures !Truthy(At(data, ToolCallPath)) ==> ToolArguments(text) == Err(NoToolCall)
    ensures Truthy(At(data, ToolCallPath)) && Nullish(At(data, ToolCallPath + ["function"]))
            ==> ToolArguments(text) == Err(ReadError(At(data, ToolCallPath + ["function"]), "arguments"))
    ensures Truthy(At(data, ToolCallPath)) && !Nullish(At(data, ToolCallPath + ["function"]))
            && ToStringThrows(At(data, ArgumentsPath))
            ==> ToolArguments(text) == Err(NoPrimitive)
    ensures Truthy(At(data, ToolCallPath)) && !Nullish(At(data, ToolCallPath + ["function"]))
            && !ToStringThrows(At(data, ArgumentsPath))
            ==> ToolArguments(text) == Parse(ToJsString(At(data, ArgumentsPath)).value)
  {
    ToolCallOfIsAt(data);
    var call := At(data, ToolCallPath);
    if call.Val? {
      FunctionAt(data, call.json);
    }
  }

  /** Below the tool call, the walk reads `function`, then its `arguments`. */
  lemma FunctionAt(data: Json, call: Json)
    requires At(data, ToolCallPath) == Val(call)
    ensures At(data, ToolCallPath + ["function"]) == Member(call, "function")
    ensures Member(call, "function").Val?
            ==> At(data, ArgumentsPath) == Member(Member(call, "function").json, "arguments")
  {
    AtThen(data, ToolCallPath, call, ["function"]);
    AtThen(data, ToolCallPath, call, ["function", "arguments"]);
    AtConcat(call, ["function"], ["arguments"]);
    assert ["function"] + ["arguments"] == ["function", "arguments"];
  }

  /** A string at ArgumentsPath lies in a truthy tool call whose `function` is there. */
  lemma ArgumentsLocated(data: Json, arguments: string)
    requires At(data, ArgumentsPath) == Val(JStr(arguments))
    ensures data != JNull && Truthy(At(data, ToolCallPath)) && !Nullish(At(data, ToolCallPath + ["function"]))
  {
    assert ArgumentsPath[0] == "choices";
    AtConcat(data, ToolCallPath, ["function", "arguments"]);
    var call := At(data, ToolCallPath).json;
    AtConcat(call, ["function"], ["arguments"]);
    assert ["function"] + ["arguments"] == ["function", "arguments"];
    AtThen(data, ToolCallPath, call, ["function"]);
  }

  /** The arguments found at ArgumentsPath are what the extraction parses. */
  lemma ArgumentsExtracted(text: string, data: Json, arguments: string)
    requires Parse(text) == Ok(data) && At(data, ArgumentsPath) == Val(JStr(arguments))
    ensures ToolArguments(text) == Parse(arguments)
  {
    ArgumentsLocated(data, arguments);
    ToolArgumentsAt(text, data);
  }

  /**
   * Whatever else the gateway's reply holds, when the string at ArgumentsPath
   * is the text of a value, the function answers 200 with that value
   * serialised again, which the client decodes back to the value.
   */
  lemma ArgumentsEchoed(text: string, data: Json, arguments: string, v: Json, status: int)
    requires Ok2xx(status) && Parse(text) == Ok(data)
    requires At(data, ArgumentsPath) == Val(JStr(arguments)) && Parse(arguments) == Ok(v)
    ensures Reply(Received(status, text)) == Response(200, JsonHeaders, Text(Stringify(v)))
    ensures Parse(Stringify(v)) == Ok(v)
  {
    ArgumentsExtracted(text, data, arguments);
    ParseStringify(v);
  }

  /** A successful gateway reply without a tool call is answered 500 "No tool call in response". */
  lemma MissingToolCall(text: string, data: Json, status: int)
    requires Ok2xx(status) && Parse(text) == Ok(data) && data != JNull
    requires !Truthy(At(data, ToolCallPath))
    ensures Reply(Received(status, text)) == ErrorResponse(500, NoToolCall)
  {
    ToolArgumentsAt(text, data);
  }

  /**
   * A tool call that is a non-empty string passes the truthiness check, and
   * reading `function.arguments` of it throws, so the answer is 500 with
   * that TypeError's message.
   */
  lemma StringToolCallThrows(text: string, data: Json, call: string, status: int)
    requires Ok2xx(status) && Parse(text) == Ok(data) && data != JNull
    requires At(data, ToolCallPath) == Val(JStr(call)) && call != ""
    ensures Reply(Received(status, text))
            == ErrorResponse(500, ReadError(Undefined, "arguments"))
  {
    StringCallHasNoFunction(text, data, call);
  }

  lemma StringCallHasNoFunction(text: string, data: Json, call: string)
    requires Parse(text) == Ok(data) && data != JNull
    requires At(data, ToolCallPath) == Val(JStr(call)) && call != ""
    ensures ToolArguments(text) == Err(ReadError(Undefined, "arguments"))
  {
    NoFunctionOnString(data, call);
    ToolArgumentsAt(text, data);
  }

  /** A string has no `function` property. */
  lemma NoFunctionOnString(data: Json, call: string)
    requires At(data, ToolCallPath) == Val(JStr(call))
    ensures At(data, ToolCallPath + ["function"]) == Undefined
  {
    assert !IsDigit("function"[0]);
    assert Member(JStr(call), "function") == Undefined;
    AtThen(data, ToolCallPath, JStr(call), ["function"]);
  }

  lemma ToolName()
    ensures At(SuggestTool(), ["type"]) == Val(JStr("function"))
    ensures At(SuggestTool(), ["function", "name"]) == Val(JStr("suggest_projects"))
  {
    var fields := SuggestTool().fields;
    AtField(fields, 0);
    AtField(fields, 1);
    var fn := fields[1].value;
    AtField(fn.fields, 0);
    AtThen(SuggestTool(), ["function"], fn, ["name"]);
  }

  lemma ToolChoiceName()
    ensures At(ToolChoice(), ["function", "name"]) == Val(JStr("suggest_projects"))
  {
    var fields := ToolChoice().fields;
    AtField(fields, 1);
    var fn := fields[1].value;
    AtField(fn.fields, 0);
    AtThen(ToolChoice(), ["function"], fn, ["name"]);
  }

  lemma ChatMembers(messages: Json)
    ensures At(Chat(messages), ["messages"]) == Val(messages)
    ensures At(Chat(messages), ["tools"]) == Val(JArr([SuggestTool()]))
    ensures At(Chat(messages), ["tool_choice"]) == Val(ToolChoice())
  {
    var fields := Chat(messages).fields;
    AtField(fields, 1);
    AtField(fields, 2);
    AtField(fields, 3);
  }

  lemma ToolList()
    ensures At(JArr([SuggestTool()]), ["length"]) == Val(JNum(1))
    ensures At(JArr([SuggestTool()]), ["0", "type"]) == Val(JStr("function"))
    ensures At(JArr([SuggestTool()]), ["0", "function", "name"]) == Val(JStr("suggest_projects"))
  {
    var tools := JArr([SuggestTool()]);
    AtIndex(tools.items, 0);
    ToolName();
    AtThen(tools, ["0"], SuggestTool(), ["type"]);
    AtThen(tools, ["0"], SuggestTool(), ["function", "name"]);
    assert ["0"] + ["type"] == ["0", "type"];
    assert ["0"] + ["function", "name"] == ["0", "function", "name"];
  }

  lemma ChatTools(messages: Json)
    ensures var body := Chat(messages);
      At(body, ["tools", "length"]) == Val(JNum(1))
      && At(body, ["tools", "0", "type"]) == Val(JStr("function"))
      && At(body, ["tools", "0", "function", "name"]) == Val(JStr("suggest_projects"))
  {
    var body := Chat(messages);
    var tools := JArr([SuggestTool()]);
    ChatMembers(messages);
    ToolList();
    AtThen(body, ["tools"], tools, ["length"]);
    AtThen(body, ["tools"], tools, ["0", "type"]);
    AtThen(body, ["tools"], tools, ["0", "function", "name"]);
    assert ["tools"] + ["length"] == ["tools", "length"];
    assert ["tools"] + ["0", "type"] == ["tools", "0", "type"];
    assert ["tools"] + ["0", "function", "name"] == ["tools", "0", "function", "name"];
  }

  lemma ChatToolChoice(messages: Json)
    ensures At(Chat(messages), ["tool_choice", "function", "name"]) == Val(JStr("suggest_projects"))
  {
    ChatMembers(messages);
    ToolChoiceName();
    AtThen(Chat(messages), ["tool_choice"], ToolChoice(), ["function", "name"]);
    assert ["tool_choice"] + ["function", "name"] == ["tool_choice", "function", "name"];
  }

  /** Exactly one tool is declared, and `tool_choice` forces that same tool, whatever the messages. */
  lemma ToolChoiceForcesDeclaredTool(messages: Json)
    ensures var body := Chat(messages);
      At(body, ["tools", "length"]) == Val(JNum(1))
      && At(body, ["tools", "0", "type"]) == Val(JStr("function"))
      && At(body, ["tools", "0", "function", "name"]) == Val(JStr("suggest_projects"))
      && At(body, ["tool_choice", "function", "name"]) == At(body, ["tools", "0", "function", "name"])
  {
    ChatTools(messages);
    ChatToolChoice(messages);
  }

  lemma ObjectSchemaAt(properties: seq<Field>, required: seq<Json>)
    ensures var schema := ObjectSchema(properties, required);
      At(schema, ["type"]) == Val(JStr("object"))
      && At(schema, ["properties"]) == Val(JObj(properties))
      && At(schema, ["required"]) == Val(JArr(required))
      && At(schema, ["additionalProperties"]) == Val(JBool(false))
  {
    var fields := ObjectSchema(properties, required).fields;
    AtField(fields, 0);
    AtField(fields, 1);
    AtField(fields, 2);
    AtField(fields, 3);
  }

  lemma ArrayOfAt(items: Json)
    ensures At(ArrayOf(items), ["type"]) == Val(JStr("array")) && At(ArrayOf(items), ["items"]) == Val(items)
  {
    AtField(ArrayOf(items).fields, 0);
    AtField(ArrayOf(items).fields, 1);
  }

  /** The idea schema lists its properties and its required names, and closes the object. */
  lemma IdeaSchemaAt()
    ensures At(IdeaSchema(), ["properties"]) == Val(JObj(IdeaProperties()))
    ensures At(IdeaSchema(), ["required"]) == Val(JArr(IdeaRequired))
    ensures At(IdeaSchema(), ["additionalProperties"]) == Val(JBool(false))
  {
    ObjectSchemaAt(IdeaProperties(), IdeaRequired);
  }

  /** The required names are the declared properties, one for one and in order. */
  lemma IdeaRequiresEveryProperty()
    ensures |IdeaRequired| == |IdeaProperties()| == 5
    ensures forall i :: 0 <= i < |IdeaRequired| ==> IdeaRequired[i] == JStr(IdeaProperties()[i].key)
  {
    var properties := IdeaProperties();
    assert properties[0].key == "title" && properties[1].key == "description" && properties[2].key == "difficulty";
    assert properties[3].key == "technologies" && properties[4].key == "estimatedTime";
  }

  lemma DifficultyAt()
    ensures At(JObj(IdeaProperties()), ["difficulty", "enum"]) == Val(JArr(Difficulties))
  {
    AtField(IdeaProperties(), 2);
    AtField(DifficultySchema().fields, 1);
    AtThen(JObj(IdeaProperties()), ["difficulty"], DifficultySchema(), ["enum"]);
    assert ["difficulty"] + ["enum"] == ["difficulty", "enum"];
  }

  /** The difficulty of an idea is one of three words. */
  lemma DifficultyEnum()
    ensures At(IdeaSchema(), ["properties", "difficulty", "enum"]) == Val(JArr(Difficulties))
  {
    IdeaSchemaAt();
    DifficultyAt();
    AtThen(IdeaSchema(), ["properties"], JObj(IdeaProperties()), ["difficulty", "enum"]);
    assert ["properties"] + ["difficulty", "enum"] == ["properties", "difficulty", "enum"];
  }

  lemma ProjectsAt()
    ensures At(JObj([Field("projects", ArrayOf(IdeaSchema()))]), ["projects", "type"]) == Val(JStr("array"))
    ensures At(JObj([Field("projects", ArrayOf(IdeaSchema()))]), ["projects", "items"]) == Val(IdeaSchema())
  {
    var projects := ArrayOf(IdeaSchema());
    var properties := JObj([Field("projects", projects)]);
    AtField(properties.fields, 0);
    ArrayOfAt(IdeaSchema());
    AtThen(properties, ["projects"], projects, ["type"]);
    AtThen(properties, ["projects"], projects, ["items"]);
    assert ["projects"] + ["type"] == ["projects", "type"];
    assert ["projects"] + ["items"] == ["projects", "items"];
  }

  /** The arguments must be an object with a required `projects` member, and nothing else. */
  lemma ParametersRequireProjects()
    ensures At(ParametersSchema(), ["type"]) == Val(JStr("object"))
    ensures At(ParametersSchema(), ["required"]) == Val(JArr([JStr("projects")]))
    ensures At(ParametersSchema(), ["properties"]) == Val(JObj([Field("projects", ArrayOf(IdeaSchema()))]))
    ensures At(ParametersSchema(), ["additionalProperties"]) == Val(JBool(false))
  {
    ObjectSchemaAt([Field("projects", ArrayOf(IdeaSchema()))], [JStr("projects")]);
  }

  /** `projects` is an array of ideas. */
  lemma ProjectsAreIdeas()
    ensures At(ParametersSchema(), ["properties", "projects", "type"]) == Val(JStr("array"))
    ensures At(ParametersSchema(), ["properties", "projects", "items"]) == Val(IdeaSchema())
  {
    var properties := JObj([Field("projects", ArrayOf(IdeaSchema()))]);
    ParametersRequireProjects();
    ProjectsAt();
    AtThen(ParametersSchema(), ["properties"], properties, ["projects", "type"]);
    AtThen(ParametersSchema(), ["properties"], properties, ["projects", "items"]);
    assert ["properties"] + ["projects", "type"] == ["properties", "projects", "type"];
    assert ["properties"] + ["projects", "items"] == ["properties", "projects", "items"];
  }

  /** The tool's parameters are the schema above. */
  lemma ToolParameters()
    ensures At(SuggestTool(), ["function", "parameters"]) == Val(ParametersSchema())
  {
    var tool := SuggestTool().fields;
    AtField(tool, 1);
    var fn := tool[1].value;
    AtField(fn.fields, 2);
    AtThen(SuggestTool(), ["function"], fn, ["parameters"]);
    assert ["function"] + ["parameters"] == ["function", "parameters"];
  }

  lemma ConversationOrder(system: string, user: string)
    ensures var conversation := Conversation(system, user);
      At(conversation, ["0", "role"]) == Val(JStr("system"))
      && At(conversation, ["0", "content"]) == Val(JStr(system))
      && At(conversation, ["1", "role"]) == Val(JStr("user"))
      && At(conversation, ["1", "content"]) == Val(JStr(user))
      && At(conversation, ["length"]) == Val(JNum(2))
  {
    var conversation := Conversation(system, user);
    var first := conversation.items[0];
    var second := conversation.items[1];
    AtIndex(conversation.items, 0);
    AtIndex(conversation.items, 1);
    assert NatToString(1) == "1";
    AtField(first.fields, 0);
    AtField(first.fields, 1);
    AtField(second.fields, 0);
    AtField(second.fields, 1);
    AtThen(conversation, ["0"], first, ["role"]);
    AtThen(conversation, ["0"], first, ["content"]);
    AtThen(conversation, ["1"], second, ["role"]);
    AtThen(conversation, ["1"], second, ["content"]);
    assert ["0"] + ["role"] == ["0", "role"];
    assert ["0"] + ["content"] == ["0", "content"];
    assert ["1"] + ["role"] == ["1", "role"];
    assert ["1"] + ["content"] == ["1", "content"];
  }

  /**
   * The system prompt comes first, then the user prompt, which names the
   * skill level and the interest (see UserPrompt).
   */
  lemma PromptsInOrder(system: string, user: string)
    ensures var body := Chat(Conversation(system, user));
      At(body, ["messages", "0", "role"]) == Val(JStr("system"))
      && At(body, ["messages", "0", "content"]) == Val(JStr(system))
      && At(body, ["messages", "1", "role"]) == Val(JStr("user"))
      && At(body, ["messages", "1", "content"]) == Val(JStr(user))
      && At(body, ["messages", "length"]) == Val(JNum(2))
  {
    var conversation := Conversation(system, user);
    var body := Chat(conversation);
    AtField(body.fields, 1);
    ConversationOrder(system, user);
    AtThen(body, ["messages"], conversation, ["0", "role"]);
    AtThen(body, ["messages"], conversation, ["0", "content"]);
    AtThen(body, ["messages"], conversation, ["1", "role"]);
    AtThen(body, ["messages"], conversation, ["1", "content"]);
    AtThen(body, ["messages"], conversation, ["length"]);
    assert ["messages"] + ["0", "role"] == ["messages", "0", "role"];
    assert ["messages"] + ["0", "content"] == ["messages", "0", "content"];
    assert ["messages"] + ["1", "role"] == ["messages", "1", "role"];
    assert ["messages"] + ["1", "content"] == ["messages", "1", "content"];
    assert ["messages"] + ["length"] == ["messages", "length"];
  }

  /** An object with two members under distinct keys is canonical when its values are. */
  lemma CanonicalPair(k1: string, v1: Json, k2: string, v2: Json)
    requires k1 != k2 && Canonical(v1) && Canonical(v2)
    ensures Canonical(JObj([Field(k1, v1), Field(k2, v2)]))
  {
  }

  lemma CanonicalQuad(k1: string, v1: Json, k2: string, v2: Json, k3: string, v3: Json, k4: string, v4: Json)
    requires k1 != k2 && k1 != k3 && k1 != k4 && k2 != k3 && k2 != k4 && k3 != k4
    requires Canonical(v1) && Canonical(v2) && Canonical(v3) && Canonical(v4)
    ensures Canonical(JObj([Field(k1, v1), Field(k2, v2), Field(k3, v3), Field(k4, v4)]))
  {
    var fields := [Field(k1, v1), Field(k2, v2), Field(k3, v3), Field(k4, v4)];
    assert forall i :: 0 <= i < 4 ==> Canonical(fields[i].value);
  }

  lemma ObjectSchemaCanonical(properties: seq<Field>, required: seq<Json>)
    requires Canonical(JObj(properties)) && Canonical(JArr(required))
    ensures Canonical(ObjectSchema(properties, required))
  {
    CanonicalQuad("type", JStr("object"), "properties", JObj(properties),
      "required", JArr(required), "additionalProperties", JBool(false));
  }

  lemma ArrayOfCanonical(items: Json)
    requires Canonical(items)
    ensures Canonical(ArrayOf(items))
  {
    CanonicalPair("type", JStr("array"), "items", items);
  }

  lemma IdeaCanonical()
    ensures Canonical(IdeaSchema())
  {
    var fields := IdeaProperties();
    CanonicalPair("type", JStr("string"), "enum", JArr(Difficulties));
    ArrayOfCanonical(TypeOnly("string"));
    assert DistinctKeys(fields);
    assert forall i :: 0 <= i < 5 ==> Canonical(fields[i].value);
    ObjectSchemaCanonical(fields, IdeaRequired);
  }

  lemma ToolCanonical()
    ensures Canonical(SuggestTool())
  {
    IdeaCanonical();
    ArrayOfCanonical(IdeaSchema());
    ObjectSchemaCanonical([Field("projects", ArrayOf(IdeaSchema()))], [JStr("projects")]);
    var fn := SuggestTool().fields[1].value;
    assert Canonical(fn);
    CanonicalPair("type", JStr("function"), "function", fn);
  }

  lemma ChatCanonical(system: string, user: string)
    ensures Canonical(Chat(Conversation(system, user)))
  {
    CanonicalPair("role", JStr("system"), "content", JStr(system));
    CanonicalPair("role", JStr("user"), "content", JStr(user));
    assert Canonical(Conversation(system, user));
    ToolCanonical();
    assert Canonical(JArr([SuggestTool()]));
    CanonicalPair("type", JStr("function"), "function", JObj([Field("name", JStr("suggest_projects"))]));
    CanonicalQuad("model", JStr(Model), "messages", Conversation(system, user),
      "tools", JArr([SuggestTool()]), "tool_choice", ToolChoice());
  }

  /** The text sent to the gateway decodes to exactly the request object. */
  lemma ChatBodyDecodes(system: string, user: string)
    ensures Canonical(Chat(Conversation(system, user)))
    ensures Parse(Stringify(Chat(Conversation(system, user)))) == Ok(Chat(Conversation(system, user)))
  {
    ChatCanonical(system, user);
    ParseStringify(Chat(Conversation(system, user)));
  }
}

/**
 * The `/api/health` and `/api/generate` handlers: the API-key predicates, the
 * fixed order of checks in `generate` (validation, rate limit, API key, tool
 * name), the inputs each tool's prompt reads, and how the upstream reply
 * becomes the handler's response. The chat-completion call itself is a
 * parameter: a function from the prompt to what the call produced.
 */
module Server {
  import opened Json
  import opened Tools
  import RateLimit
  import Fences

  /** `/api/health` reports the key configured when it is longer than 20. */
  function KeyConfigured(key: string): (r: bool)
    ensures r <==> |key| > 20
    ensures r ==> !KeyRejected(key)
  {
    key != "" && |key| > 20
  }

  /** `generate` refuses the key when it is empty or shorter than 20. */
  function KeyRejected(key: string): (r: bool)
    ensures r <==> |key| < 20
  {
    key == "" || |key| < 20
  }

  /** A key of exactly 20 characters is used by `generate` while `/api/health`
      reports it as not configured. */
  lemma TwentyCharacterKey(key: string)
    requires |key| == 20
    ensures !KeyConfigured(key) && !KeyRejected(key)
  {
  }

  /** A request body that passed validation. */
  datatype GenerateRequest = GenerateRequest(tool: string, inputs: map<string, Json>, stream: bool)

  /** What the handler answers: the success body, or an HTTP error whose body
      is `{"detail": detail}`. */
  datatype Response =
    | Success(tool: string, data: Json, model: string)
    | Failure(status: int, detail: Json)

  /** The JSON body sent to the client. */
  function Body(r: Response): Json {
    match r
    case Success(tool, data, model) =>
      JObj(map["success" := JBool(true), "tool" := JStr(tool), "data" := data, "model" := JStr(model)])
    case Failure(_, detail) => JObj(map["detail" := detail])
  }

  /** The HTTP status of a response. */
  function Status(r: Response): int {
    if r.Success? then 200 else r.status
  }

  /** What the upstream chat-completion call produced: an exception before a
      reply, or a reply's status and the message content found in it (an
      error text when the body is not JSON or has no such content). */
  datatype Upstream =
    | Unreachable(error: string)
    | Replied(status: int, content: Result<string, string>)

  /** What the server sends upstream: the tool and the values its prompt
      interpolates, in the order of its table of keys. */
  datatype Prompt = Prompt(tool: Tool, args: seq<Json>)

  /** The input keys each tool's prompt reads, with the default used when the
      key is absent, corrected so that the essay grader reads the key
      "essayText" its form submits: the table differs from the handler's in
      that one key alone. */
  function PromptKeys(t: Tool): (r: seq<(string, Json)>)
    ensures t != EssayGrader ==> r == PromptKeysAsWritten(t)
    ensures t == EssayGrader ==> |r| == |PromptKeysAsWritten(t)| && r[0] == ("essayText", PromptKeysAsWritten(t)[0].1)
                                 && r[1..] == PromptKeysAsWritten(t)[1..]
  {
    if t == EssayGrader then
      [("essayText", JStr("")), ("maxScore", JNum(100)),
       ("rubric", JStr("content, organization, grammar, critical thinking"))]
    else PromptKeysAsWritten(t)
  }

  /** The input keys each tool's prompt reads as the handler has them, with
      the default used when the key is absent; the essay grader reads the key
      "essay". Each key is read once. */
  function PromptKeysAsWritten(t: Tool): (r: seq<(string, Json)>)
    ensures |r| >= 1
    ensures forall i, j :: 0 <= i < j < |r| ==> r[i].0 != r[j].0
    ensures t == EssayGrader ==> r[0] == ("essay", JStr(""))
  {
    match t
    case Mcq =>
      [("count", JNum(5)), ("topic", JStr("science")), ("gradeLevel", JStr("high school")),
       ("difficulty", JStr("medium"))]
    case Worksheet =>
      [("topic", JStr("science")), ("gradeLevel", JStr("middle school")), ("count", JNum(10))]
    case LessonPlan =>
      [("topic", JStr("science")), ("gradeLevel", JStr("grade 8")), ("duration", JNum(45)),
       ("objectives", JStr("general understanding"))]
    case Summarizer => [("bulletPoints", JNum(5)), ("text", JStr(""))]
    case Proofread => [("text", JStr(""))]
    case Ppt => [("topic", JStr("science")), ("slideCount", JNum(8)), ("audience", JStr("students"))]
    case ReportCard =>
      [("commentCount", JNum(3)), ("studentInfo", JStr("")), ("focus", JStr("overall performance"))]
    case EssayGrader =>
      [("essay", JStr("")), ("maxScore", JNum(100)),
       ("rubric", JStr("content, organization, grammar, critical thinking"))]
    case TextRewriter =>
      [("style", JStr("professional")), ("tone", JStr("neutral")), ("audience", JStr("general")),
       ("length", JStr("similar")), ("additionalInstructions", JStr("none")), ("text", JStr(""))]
  }

  /** `inputs.get(key, default)` for each key of a table. */
  function Lookups(keys: seq<(string, Json)>, inputs: map<string, Json>): (r: seq<Json>)
    ensures |r| == |keys|
    ensures forall i :: 0 <= i < |keys| && keys[i].0 in inputs ==> r[i] == inputs[keys[i].0]
    ensures forall i :: 0 <= i < |keys| && keys[i].0 !in inputs ==> r[i] == keys[i].1
  {
    seq(|keys|, i requires 0 <= i < |keys| =>
      if keys[i].0 in inputs then inputs[keys[i].0] else keys[i].1)
  }

  /** The prompt the handler builds for a known tool. */
  function PromptFor(t: Tool, inputs: map<string, Json>): (p: Prompt)
    ensures p.tool == t && |p.args| == |PromptKeysAsWritten(t)|
    ensures forall i :: 0 <= i < |p.args| ==>
              p.args[i] == (if PromptKeysAsWritten(t)[i].0 in inputs then inputs[PromptKeysAsWritten(t)[i].0]
                            else PromptKeysAsWritten(t)[i].1)
  {
    Prompt(t, Lookups(PromptKeysAsWritten(t), inputs))
  }

  /** The prompt built from the corrected table: it differs from the
      handler's only in the essay grader's first value. */
  function PromptForCorrected(t: Tool, inputs: map<string, Json>): (p: Prompt)
    ensures t != EssayGrader ==> p == PromptFor(t, inputs)
    ensures t == EssayGrader ==> p.tool == t && |p.args| == |PromptFor(t, inputs).args| && p.args[1..] == PromptFor(t, inputs).args[1..]
                                 && p.args[0] == (if "essayText" in inputs then inputs["essayText"] else JStr(""))
  {
    Prompt(t, Lookups(PromptKeys(t), inputs))
  }

  /** The response made from the upstream reply: the upstream status is passed
      on when it is not 200; otherwise the content loses its code fence and is
      parsed as JSON; every exception becomes a 500 carrying its text. */
  function Respond(t: Tool, reply: Upstream, parse: string -> Result<Json, string>, model: string): (r: Response)
    ensures reply.Replied? && reply.status != 200 ==> r == Failure(reply.status, JStr("OpenAI API error"))
    ensures r.Success? ==> r.tool == Name(t)
    ensures r.Success? ==> reply.Replied? && reply.status == 200 && reply.content.Ok?
  {
    match reply
    case Unreachable(e) => Failure(500, JStr(e))
    case Replied(status, content) =>
      if status != 200 then Failure(status, JStr("OpenAI API error"))
      else RespondToContent(t, content, parse, model)
  }

  /** The same as the handler has it: the error raised for a non-200 upstream
      status is itself caught by the handler's blanket `except` and re-raised
      as a 500 whose detail is the exception's text, "<status>: <detail>". */
  function RespondAsWritten(t: Tool, reply: Upstream, parse: string -> Result<Json, string>, model: string): (r: Response)
    ensures r.Failure? ==> r.status == 500
    ensures reply.Replied? && reply.status != 200 ==> r == Failure(500, JStr(Decimal(reply.status) + ": OpenAI API error"))
    ensures r.Success? ==> r.tool == Name(t)
    ensures r.Success? ==> reply.Replied? && reply.status == 200 && reply.content.Ok?
  {
    match reply
    case Unreachable(e) => Failure(500, JStr(e))
    case Replied(status, content) =>
      if status != 200 then Failure(500, JStr(Decimal(status) + ": OpenAI API error"))
      else RespondToContent(t, content, parse, model)
  }

  function RespondToContent(t: Tool, content: Result<string, string>, parse: string -> Result<Json, string>, model: string): Response {
    match content
    case Err(e) => Failure(500, JStr(e))
    case Ok(text) =>
      match parse(Fences.Unfenced(text))
      case Err(e) => Failure(500, JStr(e))
      case Ok(parsed) => Success(Name(t), parsed, model)
  }

  /** An upstream error status reaches the client as a 500 in the handler as
      written, and as itself once the status is passed on. */
  lemma UpstreamStatusSwallowed(t: Tool, status: int, content: Result<string, string>,
                                parse: string -> Result<Json, string>, model: string)
    requires status != 200 && status != 500
    ensures Status(RespondAsWritten(t, Replied(status, content), parse, model)) == 500
    ensures Status(Respond(t, Replied(status, content), parse, model)) == status
  {
  }

  /** A successful response carries the parse of the unfenced content. */
  lemma RespondData(t: Tool, reply: Upstream, parse: string -> Result<Json, string>, model: string)
    requires RespondAsWritten(t, reply, parse, model).Success?
    ensures reply.Replied? && reply.content.Ok?
    ensures parse(Fences.Unfenced(reply.content.value)) == Ok(RespondAsWritten(t, reply, parse, model).data)
  {
    var r := RespondAsWritten(t, reply, parse, model);
    assert reply.Replied? && reply.status == 200;
    assert r == RespondToContent(t, reply.content, parse, model);
    var text := reply.content.value;
    var parsed := parse(Fences.Unfenced(text));
    assert parsed.Ok? && r == Success(Name(t), parsed.value, model);
  }

  /** A fenced JSON reply is answered with the parse of its body. */
  lemma FencedReply(t: Tool, tag: string, body: string, parse: string -> Result<Json, string>, model: string)
    requires '\n' !in tag && parse(body).Ok?
    ensures RespondAsWritten(t, Replied(200, Ok(Fences.Fence + tag + "\n" + body + "\n" + Fences.Fence)), parse, model)
            == Success(Name(t), parse(body).value, model)
  {
    Fences.Unwrap(tag, body);
  }

  /** What the checks of `generate` decide before any upstream call: refuse
      with a response, or forward a prompt. */
  datatype Gate = Refuse(response: Response) | Forward(prompt: Prompt)

  /** The checks of `generate` once validation and the rate limiter have
      spoken, in the handler's order: validation, rate limit, API key, tool
      name. Only a request naming one of the nine tools is forwarded. */
  function Admit(validated: Result<GenerateRequest, string>, verdict: RateLimit.Verdict, key: string): (g: Gate)
    ensures validated.Err? ==> g == Refuse(Failure(400, JStr(validated.error)))
    ensures validated.Ok? && verdict == RateLimit.TooManyRequests ==> g == Refuse(Failure(429, RateLimit.Refusal))
    ensures validated.Ok? && verdict == RateLimit.Allowed && KeyRejected(key)
            ==> g == Refuse(Failure(500, JStr("API key not configured")))
    ensures validated.Ok? && verdict == RateLimit.Allowed && !KeyRejected(key) && validated.value.tool !in AllNames
            ==> g == Refuse(Failure(400, JStr("Unknown tool: " + validated.value.tool)))
    ensures g.Forward? <==> validated.Ok? && verdict == RateLimit.Allowed && !KeyRejected(key)
                            && validated.value.tool in AllNames
    ensures g.Forward? ==> Name(g.prompt.tool) == validated.value.tool
                           && g.prompt == PromptFor(g.prompt.tool, validated.value.inputs)
  {
    if validated.Err? then Refuse(Failure(400, JStr(validated.error)))
    else if !verdict.Allowed? then Refuse(Failure(429, RateLimit.Refusal))
    else if KeyRejected(key) then Refuse(Failure(500, JStr("API key not configured")))
    else
      var req := validated.value;
      match Parse(req.tool)
      case None => Refuse(Failure(400, JStr("Unknown tool: " + req.tool)))
      case Some(t) => Forward(PromptFor(t, req.inputs))
  }

  /** The response of `generate`: a refusal as decided, or the answer built
      from the upstream reply to the forwarded prompt, where every failure
      after forwarding is a 500. */
  function Answer(g: Gate, upstream: Prompt -> Upstream, parse: string -> Result<Json, string>, model: string): (r: Response)
    ensures g.Refuse? ==> r == g.response
    ensures g.Forward? && r.Failure? ==> r.status == 500
    ensures g.Forward? && r.Success? ==> r.tool == Name(g.prompt.tool)
  {
    match g
    case Refuse(r) => r
    case Forward(p) => RespondAsWritten(p.tool, upstream(p), parse, model)
  }

  /** The response of `generate` once the upstream status is passed on: it
      differs from the handler's only where the upstream answered with an
      error status. */
  function AnswerCorrected(g: Gate, upstream: Prompt -> Upstream, parse: string -> Result<Json, string>, model: string): (r: Response)
    ensures g.Forward? && upstream(g.prompt).Replied? && upstream(g.prompt).status != 200
            ==> r == Failure(upstream(g.prompt).status, JStr("OpenAI API error"))
    ensures !(g.Forward? && upstream(g.prompt).Replied? && upstream(g.prompt).status != 200)
            ==> r == Answer(g, upstream, parse, model)
  {
    match g
    case Refuse(r) => r
    case Forward(p) => Respond(p.tool, upstream(p), parse, model)
  }

  /** A successful response names the tool of the request, and only a request
      that passed every check gets one. */
  lemma SuccessWasAdmitted(validated: Result<GenerateRequest, string>, verdict: RateLimit.Verdict, key: string,
                           upstream: Prompt -> Upstream, parse: string -> Result<Json, string>, model: string)
    requires Answer(Admit(validated, verdict, key), upstream, parse, model).Success?
    ensures validated.Ok? && verdict == RateLimit.Allowed && !KeyRejected(key) && validated.value.tool in AllNames
    ensures Answer(Admit(validated, verdict, key), upstream, parse, model).tool == validated.value.tool
  {
    var g := Admit(validated, verdict, key);
    assert g.Forward?;
  }

  /** The `generate` handler over the server's rate-limit table. */
  method Generate(limiter: RateLimit.RateLimiter, validated: Result<GenerateRequest, string>,
                  ip: string, now: int, key: string, model: string,
                  upstream: Prompt -> Upstream, parse: string -> Result<Json, string>)
    returns (resp: Response)
    requires limiter.Valid()
    modifies limiter
    ensures limiter.Valid()
    ensures validated.Err? ==> limiter.store == old(limiter.store) && resp == Failure(400, JStr(validated.error))
    ensures validated.Ok? ==>
              var (store, verdict) := RateLimit.Call(old(limiter.store), ip, now);
              limiter.store == store && resp == Answer(Admit(validated, verdict, key), upstream, parse, model)
  {
    if validated.Err? {
      return Failure(400, JStr(validated.error));
    }
    var req := validated.value;
    var err := limiter.Check(ip, now);
    if err.Some? {
      return Failure(429, err.value);
    }
    if KeyRejected(key) {
      return Failure(500, JStr("API key not configured"));
    }
    var tool := Parse(req.tool);
    if tool.None? {
      return Failure(400, JStr("Unknown tool: " + req.tool));
    }
    var reply := upstream(PromptFor(tool.value, req.inputs));
    match reply {
      case Unreachable(e) =>
        resp := Failure(500, JStr(e));
      case Replied(status, content) =>
        if status != 200 {
          resp := Failure(500, JStr(Decimal(status) + ": OpenAI API error"));
        } else if content.Err? {
          resp := Failure(500, JStr(content.error));
        } else {
          var text := Fences.StripCodeFence(content.value);
          match parse(text) {
            case Err(e) => resp := Failure(500, JStr(e));
            case Ok(parsed) => resp := Success(req.tool, parsed, model);
          }
        }
    }
  }
}

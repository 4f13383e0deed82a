/**
 * The grading endpoint `/api/grade`: a chain of guards over the request and
 * the chat-completion reply. The outgoing call, the reply and `JSON.parse`
 * are inputs: the handler's answer is a function of them.
 */
module GradeApi {
  import opened Wrappers
  import opened Json

  /** A request: its HTTP method and its parsed body (`None` is `undefined`). */
  datatype Request = Request(verb: string, body: Option<Json>)

  /** The environment values the handler reads; `None` is an unset variable. */
  datatype Env = Env(endpoint: Option<string>, deployment: Option<string>, apiKey: Option<string>)

  /** One chat message of the upstream request. */
  datatype Message = Message(role: string, content: Json)

  /** The upstream call: URL, `api-key` header and messages (temperature 0.2). */
  datatype Call = Call(url: string, apiKey: string, messages: seq<Message>)

  /**
   * What the upstream call produced: a rejected `fetch`, or a reply with its
   * status and its body read by `json()` (`None` when that body is not JSON
   * and `json()` rejects).
   */
  datatype Upstream = Rejected | Replied(status: nat, body: Option<Json>)

  /** What the handler does: it ends with a status, sends a status and a JSON body, or throws. */
  datatype Reply = Ended(status: nat) | Sent(status: nat, body: Json) | Threw

  /** The call the handler makes, if any, and its reply. */
  datatype Outcome = Outcome(call: Option<Call>, reply: Reply)

  const ApiVersion: string := "2024-02-15-preview"

  /** The system prompt of line 27. */
  const AssessorPrompt: string :=
    "You are an interview assessor. Score the candidate\U{2019}s answer from 0-100 and give 1\U{2013}2 sentences of constructive feedback. Respond **only** in JSON: {\"score\":<int>,\"feedback\":\"<string>\"}"

  /** `${v}` in a template literal: an unset variable reads as `undefined`. */
  function Text(v: Option<string>): string {
    if v.Some? then v.value else "undefined"
  }

  /** The chat-completions URL (lines 16-21). */
  function GradeUrl(env: Env): string {
    Text(env.endpoint) + "/openai/deployments/" + Text(env.deployment) + "/chat/completions?api-version=" + ApiVersion
  }

  /** `{ error: message }`. */
  function Error(message: string): Json {
    JObj(map["error" := JStr(message)])
  }

  /** `v ?? d`: the default for `undefined` and `null`. */
  function Coalesce(v: Option<Json>, d: Json): (r: Json)
    ensures v.Some? && v.value != JNull ==> r == v.value
    ensures v.None? || v == Some(JNull) ==> r == d
  {
    if v.None? || v == Some(JNull) then d else v.value
  }

  /** `const { answer } = req.body ?? {}` (line 13). */
  function Answer(body: Option<Json>): Option<Json> {
    Prop(Some(Coalesce(body, EmptyObject)), "answer")
  }

  /** `raw.choices?.[0]?.message?.content` (line 47). */
  function Content(raw: Json): (c: Option<Json>)
    ensures c.Some? ==> raw.JObj? && "choices" in raw.fields
    ensures c.Some? ==> raw.fields["choices"].JArr? && |raw.fields["choices"].items| > 0
    ensures c.Some? ==> raw.fields["choices"].items[0].JObj? && "message" in raw.fields["choices"].items[0].fields
  {
    Prop(Prop(Index(Prop(Some(raw), "choices"), 0), "message"), "content")
  }

  /**
   * The handler (lines 7-58). `parse` is `JSON.parse` applied to the content
   * (`None` when it throws). The fetch is made only after both guards; a
   * rejected fetch, a body `json()` cannot read and a `null` reply, whose
   * `choices` cannot be read, throw out of the handler.
   */
  function Handler(req: Request, env: Env, upstream: Upstream, parse: Json -> Option<Json>): (o: Outcome)
    ensures o.reply.Ended? ==> o.reply.status == 405
    ensures o.reply.Sent? ==> o.reply.status in {400, 502, 500, 200}
    ensures o.call.None? <==> o.reply.Ended? || (o.reply.Sent? && o.reply.status == 400)
  {
    if req.verb != "POST" then Outcome(None, Ended(405))
    else
      var answer := Answer(req.body);
      if !TruthyOpt(answer) then Outcome(None, Sent(400, Error("Missing `answer`")))
      else
        var call := Call(GradeUrl(env), Text(env.apiKey),
          [Message("system", JStr(AssessorPrompt)), Message("user", answer.value)]);
        match upstream
        case Rejected => Outcome(Some(call), Threw)
        case Replied(status, body) =>
          if !(200 <= status <= 299) then Outcome(Some(call), Sent(502, Error("Grading failed")))
          else if body.None? || body.value == JNull then Outcome(Some(call), Threw)
          else
            var content := Coalesce(Content(body.value), JStr("{}"));
            match parse(content)
            case None => Outcome(Some(call), Sent(500, Error("Invalid grader response")))
            case Some(parsed) => Outcome(Some(call), Sent(200, parsed))
  }

  /** The answer is the body's `answer` property; `req.body ?? {}` changes nothing about it. */
  lemma AnswerIsProperty(body: Option<Json>)
    ensures Answer(body) == Prop(body, "answer")
  {
  }

  /** A request that is not a POST gets 405 whatever else holds, and no upstream call is made. */
  lemma NonPostRejected(req: Request, env: Env, upstream: Upstream, parse: Json -> Option<Json>)
    requires req.verb != "POST"
    ensures Handler(req, env, upstream, parse) == Outcome(None, Ended(405))
  {
  }

  /** A falsy or missing answer, the empty string included, gets 400 and no upstream call. */
  lemma MissingAnswer(req: Request, env: Env, upstream: Upstream, parse: Json -> Option<Json>)
    requires req.verb == "POST"
    requires req.body.None? || !req.body.value.JObj? || "answer" !in req.body.value.fields || !Truthy(req.body.value.fields["answer"])
    ensures Handler(req, env, upstream, parse) == Outcome(None, Sent(400, Error("Missing `answer`")))
  {
  }

  /** An empty answer string is missing. */
  lemma EmptyAnswer(env: Env, upstream: Upstream, parse: Json -> Option<Json>)
    ensures Handler(Request("POST", Some(JObj(map["answer" := JStr("")]))), env, upstream, parse).reply.status == 400
  {
  }

  /** Past both guards, exactly one call goes out, with the prompt and then the answer unchanged. */
  lemma CallCarriesAnswer(req: Request, env: Env, upstream: Upstream, parse: Json -> Option<Json>)
    requires req.verb == "POST" && TruthyOpt(Prop(req.body, "answer"))
    ensures var o := Handler(req, env, upstream, parse);
      && o.call.Some?
      && o.call.value.url == GradeUrl(env)
      && o.call.value.messages == [Message("system", JStr(AssessorPrompt)), Message("user", req.body.value.fields["answer"])]
  {
  }

  /** A non-success upstream status gets 502. */
  lemma UpstreamFailure(req: Request, env: Env, status: nat, body: Option<Json>, parse: Json -> Option<Json>)
    requires req.verb == "POST" && TruthyOpt(Prop(req.body, "answer"))
    requires !(200 <= status <= 299)
    ensures Handler(req, env, Replied(status, body), parse).reply == Sent(502, Error("Grading failed"))
  {
  }

  /** A reply without `choices[0].message.content` is read as `'{}'`, which gives 200 with an empty object. */
  lemma MissingContentIsEmpty(req: Request, env: Env, status: nat, raw: Json, parse: Json -> Option<Json>)
    requires req.verb == "POST" && TruthyOpt(Prop(req.body, "answer"))
    requires 200 <= status <= 299 && raw != JNull
    requires Content(raw).None? || Content(raw) == Some(JNull)
    requires parse(JStr("{}")) == Some(EmptyObject)
    ensures Handler(req, env, Replied(status, Some(raw)), parse).reply == Sent(200, EmptyObject)
  {
  }

  /** Content `JSON.parse` rejects gets 500. */
  lemma InvalidContent(req: Request, env: Env, status: nat, raw: Json, parse: Json -> Option<Json>)
    requires req.verb == "POST" && TruthyOpt(Prop(req.body, "answer"))
    requires 200 <= status <= 299 && raw != JNull
    requires parse(Coalesce(Content(raw), JStr("{}"))).None?
    ensures Handler(req, env, Replied(status, Some(raw)), parse).reply == Sent(500, Error("Invalid grader response"))
  {
  }

  /**
   * Parsed content is sent unchanged with 200: nothing checks that a score
   * is present or lies in 0-100.
   */
  lemma ParsedPassedThrough(req: Request, env: Env, status: nat, raw: Json, parse: Json -> Option<Json>, parsed: Json)
    requires req.verb == "POST" && TruthyOpt(Prop(req.body, "answer"))
    requires 200 <= status <= 299 && raw != JNull
    requires parse(Coalesce(Content(raw), JStr("{}"))) == Some(parsed)
    ensures Handler(req, env, Replied(status, Some(raw)), parse).reply == Sent(200, parsed)
  {
  }

  /** A `null` reply body cannot be read and the handler throws. */
  lemma NullReplyThrows(req: Request, env: Env, status: nat, parse: Json -> Option<Json>)
    requires req.verb == "POST" && TruthyOpt(Prop(req.body, "answer"))
    requires 200 <= status <= 299
    ensures Handler(req, env, Replied(status, Some(JNull)), parse).reply == Threw
  {
  }
}

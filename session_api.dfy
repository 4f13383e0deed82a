/**
 * The realtime-session endpoint `/api/realtime/session`: it refuses every
 * method but POST, builds the sessions URL from the configured endpoint,
 * relays an upstream failure with its status and returns the minted
 * session otherwise. The upstream call and `JSON.parse` are inputs.
 */
module SessionApi {
  import opened Wrappers
  import opened Json

  /** A request; only its HTTP method is read. */
  datatype Request = Request(verb: string)

  /** The environment values the handler reads; `None` is an unset variable. */
  datatype Env = Env(apiKey: Option<string>, endpoint: Option<string>, version: Option<string>,
                     deployment: Option<string>, voice: Option<string>)

  /** The upstream call: URL, `api-key` header and JSON body. */
  datatype Call = Call(url: string, apiKey: string, body: Json)

  /**
   * What the upstream call produced: a rejected `fetch` or `text()`, or a
   * reply with its status and its body text.
   */
  datatype Upstream = Rejected | Replied(status: nat, text: string)

  /** A response header with its values. */
  datatype Header = Header(name: string, values: seq<string>)

  /** What the handler does: it sends a status, headers and a JSON body, or throws. */
  datatype Reply = Sent(status: nat, headers: seq<Header>, body: Json) | Threw

  /** The call the handler makes, if any, and its reply. */
  datatype Outcome = Outcome(call: Option<Call>, reply: Reply)

  /** `${v}` in a template literal: an unset variable reads as `undefined`. */
  function Text(v: Option<string>): string {
    if v.Some? then v.value else "undefined"
  }

  /** `ENDPOINT.replace(/\/$/, '')`: one `/` at the very end is removed. */
  function StripTrailingSlash(s: string): (r: string)
    ensures s == r || s == r + "/"
    ensures s != [] && s[|s| - 1] == '/' <==> s == r + "/"
  {
    if s != [] && s[|s| - 1] == '/' then s[..|s| - 1] else s
  }

  const SessionsPath: string := "/openai/realtimeapi/sessions?api-version="

  /** The sessions URL (lines 17-18). */
  function SessionsUrl(endpoint: string, version: Option<string>): string {
    StripTrailingSlash(endpoint) + SessionsPath + Text(version)
  }

  /** `process.env.AZURE_OPENAI_VOICE || 'verse'`: unset and empty both mean `verse`. */
  function Voice(v: Option<string>): (r: string)
    ensures r != ""
    ensures v.Some? && v.value != "" ==> r == v.value
  {
    if v.Some? && v.value != "" then v.value else "verse"
  }

  /** The session settings of lines 29-47; `JSON.stringify` leaves out a `model` that is `undefined`. */
  function SessionBody(deployment: Option<string>, voice: string): (body: Json)
    ensures body.JObj? && "voice" in body.fields && body.fields["voice"] == JStr(voice)
    ensures "model" in body.fields <==> deployment.Some?
    ensures deployment.Some? ==> body.fields["model"] == JStr(deployment.value)
  {
    var settings := map[
      "voice" := JStr(voice),
      "output_audio_format" := JStr("pcm16"),
      "modalities" := JArr([JStr("audio"), JStr("text")]),
      "turn_detection" := JObj(map[
        "type" := JStr("server_vad"),
        "threshold" := JNum(0.5),
        "silence_duration_ms" := JNum(400.0),
        "prefix_padding_ms" := JNum(300.0),
        "create_response" := JBool(true),
        "interrupt_response" := JBool(true)
      ]),
      "temperature" := JNum(0.7)
    ];
    JObj(if deployment.Some? then settings["model" := JStr(deployment.value)] else settings)
  }

  function Error(message: string): Json {
    JObj(map["error" := JStr(message)])
  }

  const MethodNotAllowed: Reply := Sent(405, [Header("Allow", ["POST"])], Error("Method not allowed. Please use POST."))

  const InternalError: Reply := Sent(500, [], Error("Internal server error during session creation"))

  /**
   * The handler (lines 4-69). An unset endpoint makes `replace` throw before
   * the `try`; everything inside it that throws (the fetch, `JSON.parse`,
   * reading `payload.id` of `null`) becomes 500.
   */
  function Handler(req: Request, env: Env, upstream: Upstream, parse: string -> Option<Json>): (o: Outcome)
    ensures o.call.None? <==> req.verb != "POST" || env.endpoint.None?
    ensures o.reply.Sent? && o.reply.headers != [] ==> o.reply == MethodNotAllowed && o.call.None?
    ensures o.reply.Sent? && o.reply.status == 200 ==> o.reply.body != JNull
  {
    if req.verb != "POST" then Outcome(None, MethodNotAllowed)
    else if env.endpoint.None? then Outcome(None, Threw)
    else
      var call := Call(SessionsUrl(env.endpoint.value, env.version), Text(env.apiKey),
        SessionBody(env.deployment, Voice(env.voice)));
      match upstream
      case Rejected => Outcome(Some(call), InternalError)
      case Replied(status, text) =>
        if !(200 <= status <= 299) then Outcome(Some(call), Sent(status, [], Error(text)))
        else
          match parse(text)
          case None => Outcome(Some(call), InternalError)
          case Some(payload) =>
            if payload == JNull then Outcome(Some(call), InternalError)
            else Outcome(Some(call), Sent(200, [], payload))
  }

  /** A request that is not a POST gets 405 with `Allow: POST`, whatever else holds, and no upstream call. */
  lemma NonPostRejected(req: Request, env: Env, upstream: Upstream, parse: string -> Option<Json>)
    requires req.verb != "POST"
    ensures Handler(req, env, upstream, parse) == Outcome(None, MethodNotAllowed)
    ensures MethodNotAllowed.headers == [Header("Allow", ["POST"])]
  {
  }

  /** The URL is the endpoint with at most one trailing `/` removed, then the sessions path and the version. */
  lemma UrlShape(req: Request, env: Env, upstream: Upstream, parse: string -> Option<Json>)
    requires req.verb == "POST" && env.endpoint.Some?
    ensures var o := Handler(req, env, upstream, parse);
      && o.call.Some?
      && exists e :: (e == env.endpoint.value || e + "/" == env.endpoint.value) && o.call.value.url == e + SessionsPath + Text(env.version)
  {
    var e := StripTrailingSlash(env.endpoint.value);
    assert e == env.endpoint.value || e + "/" == env.endpoint.value;
  }

  /** Only one slash goes: an endpoint ending in `//` keeps one. */
  lemma OneSlashOnly(base: string)
    ensures StripTrailingSlash(base + "//") == base + "/"
  {
    assert (base + "//")[..|base| + 1] == base + "/";
  }

  /** An unset version reads as the text `undefined` in the URL. */
  lemma UnsetVersion(endpoint: string)
    requires endpoint == [] || endpoint[|endpoint| - 1] != '/'
    ensures SessionsUrl(endpoint, None) == endpoint + SessionsPath + "undefined"
  {
  }

  /** An upstream failure is relayed with its own status and its text as the error. */
  lemma StatusRelayed(req: Request, env: Env, status: nat, text: string, parse: string -> Option<Json>)
    requires req.verb == "POST" && env.endpoint.Some?
    requires !(200 <= status <= 299)
    ensures Handler(req, env, Replied(status, text), parse).reply == Sent(status, [], JObj(map["error" := JStr(text)]))
  {
  }

  /** A success reply is sent with 200 and the parsed payload unchanged. */
  lemma PayloadPassedThrough(req: Request, env: Env, status: nat, text: string, parse: string -> Option<Json>, payload: Json)
    requires req.verb == "POST" && env.endpoint.Some?
    requires 200 <= status <= 299 && parse(text) == Some(payload) && payload != JNull
    ensures Handler(req, env, Replied(status, text), parse).reply == Sent(200, [], payload)
  {
  }

  /** Everything thrown inside the `try` becomes 500. */
  lemma ThrownIsInternalError(req: Request, env: Env, upstream: Upstream, parse: string -> Option<Json>)
    requires req.verb == "POST" && env.endpoint.Some?
    requires upstream.Rejected? ||
      (200 <= upstream.status <= 299 && (parse(upstream.text).None? || parse(upstream.text) == Some(JNull)))
    ensures Handler(req, env, upstream, parse).reply == InternalError
  {
  }

  /** An unset endpoint throws before the `try`, so no call is made and no response is written. */
  lemma UnsetEndpointThrows(req: Request, env: Env, upstream: Upstream, parse: string -> Option<Json>)
    requires req.verb == "POST" && env.endpoint.None?
    ensures Handler(req, env, upstream, parse) == Outcome(None, Threw)
  {
  }

  /** The session request names the deployment as its model exactly when one is configured. */
  lemma ModelWhenConfigured(deployment: Option<string>, voice: string)
    ensures "model" in SessionBody(deployment, voice).fields <==> deployment.Some?
    ensures deployment.Some? ==> SessionBody(deployment, voice).fields["model"] == JStr(deployment.value)
    ensures SessionBody(deployment, voice).fields["voice"] == JStr(voice)
  {
  }
}

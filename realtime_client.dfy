/**
 * The real-time transcription client (Gpt4oRealtimeClient): configuration
 * resolution, the socket URL, classification of inbound frames, the audio
 * frames it sends, and the lifecycle of the socket, microphone stream, audio
 * context and worklet node that `start` acquires and `stop` releases.
 *
 * Browser objects are abstract: the outcome of `getUserMedia`, of `new URL`,
 * of registering the worklet and every socket event is an input of the method
 * that reacts to it, and callbacks and sent frames are recorded in order.
 */
module RealtimeClient {
  import opened Wrappers
  import opened Json
  import opened Query
  import opened Base64
  import opened Pcm16

  const ApiVersion: string := "2024-10-01-preview"
  const DefaultSampleRate: int := 24000
  const DefaultPrompt: string :=
    "You are a transcription assistant. Transcribe all speech in English only. Do not translate or interpret, just transcribe exactly what is said in English."

  // ---------------------------------------------------------------------------
  // Configuration

  /** The three settings `start` looks up, wherever they come from. */
  datatype Key = EndpointKey | DeploymentKey | ApiKeyKey

  /** `process.env` or `window.ENV` as far as the client reads it. */
  datatype Env = Env(endpoint: Option<string>, deployment: Option<string>, apiKey: Option<string>) {
    function Get(k: Key): Option<string> {
      match k
      case EndpointKey => endpoint
      case DeploymentKey => deployment
      case ApiKeyKey => apiKey
    }
  }

  /** Whether `window` exists and what its `ENV` object holds. */
  datatype Host = Host(hasWindow: bool, windowEnv: Option<Env>)

  /** The constructor options. */
  datatype Opts = Opts(
    wsUrl: Option<string>,
    deployment: Option<string>,
    apiKey: Option<string>,
    prompt: Option<string>,
    sampleRate: Option<int>)

  /** The configuration `start` goes on with once every value is present. */
  datatype Config = Config(endpoint: string, deployment: string, apiKey: string)

  /** The first missing value, in the order `start` checks them. */
  datatype ConfigError = MissingEndpoint | MissingDeployment | MissingApiKey

  datatype Resolution = Resolved(config: Config) | Missing(error: ConfigError)

  /** A value is usable when it is a non-empty string (JavaScript truthiness). */
  predicate Present(v: Option<string>) {
    v.Some? && v.value != ""
  }

  /** `typeof window !== 'undefined' && window.ENV?.<key>`; `false` and `undefined` are both `None`. */
  function WindowSetting(host: Host, k: Key): Option<string> {
    if host.hasWindow && host.windowEnv.Some? then host.windowEnv.value.Get(k) else None
  }

  /** `a || b || c`: the first truthy source. */
  function FirstTruthy(a: Option<string>, b: Option<string>, c: Option<string>): (r: Option<string>)
    ensures Present(r) <==> Present(a) || Present(b) || Present(c)
  {
    if Present(a) then a else if Present(b) then b else c
  }

  /** `a ?? b ?? c`: the first source that is defined at all, even if it is `""`. */
  function FirstDefined(a: Option<string>, b: Option<string>, c: Option<string>): Option<string> {
    if a.Some? then a else if b.Some? then b else c
  }

  function RawEndpoint(opts: Opts, env: Env, host: Host): Option<string> {
    FirstTruthy(opts.wsUrl, env.endpoint, WindowSetting(host, EndpointKey))
  }

  function DeploymentSetting(opts: Opts, env: Env, host: Host): Option<string> {
    FirstDefined(opts.deployment, env.deployment, WindowSetting(host, DeploymentKey))
  }

  function ApiKeySetting(opts: Opts, env: Env, host: Host): Option<string> {
    FirstDefined(opts.apiKey, env.apiKey, WindowSetting(host, ApiKeyKey))
  }

  /**
   * Configuration resolution (Gpt4oRealtimeClient.ts lines 41-79): the endpoint,
   * then the deployment, then the key; the first one that is not a non-empty
   * string is reported and nothing after it is looked at.
   */
  function Resolve(opts: Opts, env: Env, host: Host): (r: Resolution)
    ensures r == Missing(MissingEndpoint) <==>
      !Present(opts.wsUrl) && !Present(env.endpoint) && !Present(WindowSetting(host, EndpointKey))
    ensures r == Missing(MissingDeployment) <==>
      Present(RawEndpoint(opts, env, host)) && !Present(DeploymentSetting(opts, env, host))
    ensures r == Missing(MissingApiKey) <==>
      Present(RawEndpoint(opts, env, host)) && Present(DeploymentSetting(opts, env, host))
      && !Present(ApiKeySetting(opts, env, host))
    ensures r.Resolved? ==>
      && r.config.endpoint != "" && r.config.deployment != "" && r.config.apiKey != ""
      && Some(r.config.endpoint) == RawEndpoint(opts, env, host)
      && Some(r.config.deployment) == DeploymentSetting(opts, env, host)
      && Some(r.config.apiKey) == ApiKeySetting(opts, env, host)
  {
    var endpoint := RawEndpoint(opts, env, host);
    var deployment := DeploymentSetting(opts, env, host);
    var apiKey := ApiKeySetting(opts, env, host);
    if !Present(endpoint) then Missing(MissingEndpoint)
    else if !Present(deployment) then Missing(MissingDeployment)
    else if !Present(apiKey) then Missing(MissingApiKey)
    else Resolved(Config(endpoint.value, deployment.value, apiKey.value))
  }

  /**
   * With `??`, an empty deployment option is not replaced by the environment's
   * value: it is reported as missing even when the environment has one.
   */
  lemma EmptyDeploymentOptionIsMissing(opts: Opts, env: Env, host: Host)
    requires Present(RawEndpoint(opts, env, host))
    requires opts.deployment == Some("")
    ensures Resolve(opts, env, host) == Missing(MissingDeployment)
  {
  }

  /** The first line of the message `start` reports for a missing value. */
  function ConfigMessage(e: ConfigError): (m: string)
    ensures m != ""
  {
    match e
    case MissingEndpoint => "Azure OpenAI endpoint is missing. Please provide:"
    case MissingDeployment => "Deployment name is missing. Please provide:"
    case MissingApiKey => "API key is missing. Please provide:"
  }

  // ---------------------------------------------------------------------------
  // The socket URL

  predicate StartsWith(s: string, p: string) {
    |p| <= |s| && s[..|p|] == p
  }

  /** `endpoint.replace(/^https?:\/\//, 'wss://')`. */
  function ToWss(endpoint: string): (r: string)
    ensures StartsWith(endpoint, "https://") ==> r == "wss://" + endpoint[8..]
    ensures !StartsWith(endpoint, "https://") && StartsWith(endpoint, "http://") ==> r == "wss://" + endpoint[7..]
    ensures !StartsWith(endpoint, "https://") && !StartsWith(endpoint, "http://") ==> r == endpoint
  {
    if StartsWith(endpoint, "https://") then "wss://" + endpoint[8..]
    else if StartsWith(endpoint, "http://") then "wss://" + endpoint[7..]
    else endpoint
  }

  /** The URL before the key is added (lines 96-103): `wsUrl` verbatim when given, else built from the endpoint. */
  function BaseSocketUrl(opts: Opts, config: Config): string {
    if Present(opts.wsUrl) then opts.wsUrl.value
    else ToWss(config.endpoint) + "/openai/realtime?api-version=" + ApiVersion + "&deployment=" + config.deployment
  }

  /** The part of a URL before its first `?`. */
  function UrlBase(u: string): string {
    u[..IndexOf(u, '?')]
  }

  /** The parameters of a URL's query, the part after its first `?`. */
  function UrlParams(u: string): seq<Param> {
    var i := IndexOf(u, '?');
    Parse(if i < |u| then u[i + 1..] else "")
  }

  /**
   * Lines 106-109: `api-key` is set only when the URL does not already carry
   * it. The part before `?` never changes, and afterwards the URL always
   * carries an `api-key` (for a key that needs no percent-encoding).
   */
  function WithApiKey(u: string, key: string): (r: string)
    ensures UrlBase(r) == UrlBase(u)
    ensures '&' !in key ==> Has(UrlParams(r), "api-key")
  {
    var ps := UrlParams(u);
    if Has(ps, "api-key") then u
    else
      var extended := ps + [Param("api-key", key)];
      var r := UrlBase(u) + "?" + Serialize(extended);
      UrlParts(UrlBase(u), Serialize(extended));
      assert '&' !in key ==> Has(UrlParams(r), "api-key") by {
        if '&' !in key {
          ExtendedParams(u, key);
          assert extended[|ps|].name == "api-key";
        }
      }
      r
  }

  /** The URL the socket is opened with (lines 96-109). */
  function SocketUrl(opts: Opts, config: Config): (r: string)
    ensures Present(opts.wsUrl) ==> UrlBase(r) == UrlBase(opts.wsUrl.value)
    ensures '&' !in config.apiKey ==> Has(UrlParams(r), "api-key")
  {
    WithApiKey(BaseSocketUrl(opts, config), config.apiKey)
  }

  /** An `api-key` the URL already carries is kept, whatever its value. */
  lemma ExistingKeyKept(u: string, key: string)
    requires Has(UrlParams(u), "api-key")
    ensures WithApiKey(u, key) == u
  {
  }

  /** A URL put together from a base without `?` and a query splits back into the two. */
  lemma UrlParts(base: string, query: string)
    requires '?' !in base
    ensures UrlBase(base + "?" + query) == base
    ensures UrlParams(base + "?" + query) == Parse(query)
  {
    var r := base + "?" + query;
    assert r[..|base|] == base;
    assert r[|base|] == '?';
    assert IndexOf(r, '?') == |base|;
    assert r[|base| + 1..] == query;
  }

  /**
   * When the URL has no `api-key`, the key is appended after the existing
   * parameters, which keep their order, and the part before `?` is unchanged.
   * (A key containing `&` would need the percent-encoding that is not modelled.)
   */
  lemma KeyAppended(u: string, key: string)
    requires !Has(UrlParams(u), "api-key")
    requires '&' !in key
    ensures UrlBase(WithApiKey(u, key)) == UrlBase(u)
    ensures UrlParams(WithApiKey(u, key)) == UrlParams(u) + [Param("api-key", key)]
    ensures Has(UrlParams(WithApiKey(u, key)), "api-key")
  {
    var ps := UrlParams(u);
    var extended := ps + [Param("api-key", key)];
    var base := UrlBase(u);
    assert WithApiKey(u, key) == base + "?" + Serialize(extended);
    assert '?' !in base;
    UrlParts(base, Serialize(extended));
    ExtendedParams(u, key);
    assert extended[|ps|].name == "api-key";
  }

  /** The extended parameter list reads back as written. */
  lemma ExtendedParams(u: string, key: string)
    requires '&' !in key
    ensures Parse(Serialize(UrlParams(u) + [Param("api-key", key)])) == UrlParams(u) + [Param("api-key", key)]
  {
    var i := IndexOf(u, '?');
    ParseWellFormed(if i < |u| then u[i + 1..] else "");
    KeyParamWellFormed(key);
    AppendWellFormed(UrlParams(u), Param("api-key", key));
    ParseSerialize(UrlParams(u) + [Param("api-key", key)]);
  }

  lemma KeyParamWellFormed(key: string)
    requires '&' !in key
    ensures WellFormed(Param("api-key", key))
  {
  }

  lemma AppendWellFormed(ps: seq<Param>, p: Param)
    requires AllWellFormed(ps) && WellFormed(p)
    ensures AllWellFormed(ps + [p])
  {
  }

  /** Without `wsUrl`, an `https://` endpoint leads to a `wss://` URL on the realtime path. */
  lemma DefaultSocketUrl(opts: Opts, config: Config, host: string)
    requires !Present(opts.wsUrl)
    requires config.endpoint == "https://" + host
    ensures BaseSocketUrl(opts, config) ==
      "wss://" + host + "/openai/realtime?api-version=2024-10-01-preview&deployment=" + config.deployment
  {
    assert StartsWith(config.endpoint, "https://");
    assert config.endpoint[8..] == host;
  }

  // ---------------------------------------------------------------------------
  // Inbound frames

  /** An inbound message event: text that `JSON.parse` rejects, or the value it gives. */
  datatype Inbound = NotJson | Parsed(value: Json)

  /** What `onError` receives: a message string, a server-supplied value, or a socket event. */
  datatype ErrorArg = ErrText(text: string) | ErrValue(value: Json) | SocketError | SocketClosed(code: int, reason: string)

  /** A call of one of the client's callbacks. */
  datatype Callback = Partial(delta: Json) | Final(transcript: Json) | Error(arg: ErrorArg)

  /** The branches of the `switch (msg.type)` in `handleMessage`. */
  datatype FrameKind = PartialFrame | FinalFrame | ErrorFrame | Informational | Unhandled

  const InputDelta: string := "conversation.item.input_audio_transcription.delta"
  const InputCompleted: string := "conversation.item.input_audio_transcription.completed"
  const ResponseDelta: string := "response.audio_transcript.delta"
  const ResponseDone: string := "response.audio_transcript.done"

  /** The frame types that are only logged. */
  const InformationalTypes: set<string> := {
    "session.created", "session.updated", "input_audio_buffer.speech_started",
    "input_audio_buffer.speech_stopped", "response.audio.done", "response.created",
    "response.done", "conversation.item.created", "rate_limits.updated"
  }

  /** The `case` a `type` value selects; `switch` compares with `===`, so only strings match. */
  function KindOf(t: Option<Json>): (r: FrameKind)
    ensures r != Unhandled ==> t.Some? && t.value.JStr?
    ensures r == ErrorFrame <==> t == Some(JStr("error"))
    ensures r == Informational <==> t.Some? && t.value.JStr? && t.value.s in InformationalTypes
  {
    if t.None? || !t.value.JStr? then Unhandled
    else
      var s := t.value.s;
      if s == InputDelta || s == ResponseDelta then PartialFrame
      else if s == InputCompleted || s == ResponseDone then FinalFrame
      else if s == "error" then ErrorFrame
      else if s in InformationalTypes then Informational
      else Unhandled
  }

  /**
   * `handleMessage` (lines 292-376): the callback an inbound frame causes, if any.
   * A frame that is not JSON, or is JSON `null` (reading `.type` throws), causes none.
   */
  function Dispatch(frame: Inbound): (r: Option<Callback>)
    ensures frame.NotJson? || frame.value.JNull? ==> r.None?
    ensures r.Some? && r.value.Partial? ==> frame.Parsed? && Prop(Some(frame.value), "type") in {Some(JStr(InputDelta)), Some(JStr(ResponseDelta))}
    ensures r.Some? && r.value.Final? ==> frame.Parsed? && Prop(Some(frame.value), "type") in {Some(JStr(InputCompleted)), Some(JStr(ResponseDone))}
    ensures r.Some? && r.value.Error? ==> frame.Parsed? && Prop(Some(frame.value), "type") == Some(JStr("error"))
  {
    match frame
    case NotJson => None
    case Parsed(msg) =>
      if msg.JNull? then None
      else
        var m := Some(msg);
        match KindOf(Prop(m, "type"))
        case PartialFrame =>
          var d := Prop(m, "delta");
          if TruthyOpt(d) then Some(Partial(d.value)) else None
        case FinalFrame =>
          var t := Prop(m, "transcript");
          if TruthyOpt(t) then Some(Final(t.value)) else None
        case ErrorFrame =>
          var e := Prop(Prop(m, "error"), "message");
          Some(Error(if TruthyOpt(e) then ErrValue(e.value) else ErrText("Unknown server error")))
        case Informational => None
        case Unhandled => None
  }

  /**
   * A frame of either delta type calls `onPartial` with its `delta` exactly
   * when that property is truthy, whatever else the frame carries.
   */
  lemma DeltaIsPartial(fields: map<string, Json>)
    requires "type" in fields && (fields["type"] == JStr(InputDelta) || fields["type"] == JStr(ResponseDelta))
    ensures "delta" in fields && Truthy(fields["delta"]) ==> Dispatch(Parsed(JObj(fields))) == Some(Partial(fields["delta"]))
    ensures !("delta" in fields && Truthy(fields["delta"])) ==> Dispatch(Parsed(JObj(fields))).None?
  {
  }

  /**
   * A frame of either final type calls `onFinal` with its `transcript`
   * exactly when that property is truthy, whatever else the frame carries.
   */
  lemma TranscriptIsFinal(fields: map<string, Json>)
    requires "type" in fields && (fields["type"] == JStr(InputCompleted) || fields["type"] == JStr(ResponseDone))
    ensures "transcript" in fields && Truthy(fields["transcript"]) ==> Dispatch(Parsed(JObj(fields))) == Some(Final(fields["transcript"]))
    ensures !("transcript" in fields && Truthy(fields["transcript"])) ==> Dispatch(Parsed(JObj(fields))).None?
  {
  }

  /**
   * A frame object that is not an error frame and whose `delta` and
   * `transcript` are both missing or falsy calls no callback at all.
   */
  lemma EmptyTextIsIgnored(fields: map<string, Json>)
    requires !("type" in fields && fields["type"] == JStr("error"))
    requires !("delta" in fields && Truthy(fields["delta"]))
    requires !("transcript" in fields && Truthy(fields["transcript"]))
    ensures Dispatch(Parsed(JObj(fields))).None?
  {
  }

  /** An informational frame calls no callback, whatever else it carries. */
  lemma InformationalIsSilent(fields: map<string, Json>)
    requires "type" in fields && fields["type"].JStr? && fields["type"].s in InformationalTypes
    ensures Dispatch(Parsed(JObj(fields))).None?
  {
  }

  /** An `error` frame reports its `error.message`, or "Unknown server error" when it has none. */
  lemma ErrorFrameMessage(fields: map<string, Json>)
    requires "type" in fields && fields["type"] == JStr("error")
    ensures var e := Prop(Prop(Some(JObj(fields)), "error"), "message");
      Dispatch(Parsed(JObj(fields))) ==
        Some(Error(if TruthyOpt(e) then ErrValue(e.value) else ErrText("Unknown server error")))
    ensures "error" !in fields ==> Dispatch(Parsed(JObj(fields))) == Some(Error(ErrText("Unknown server error")))
  {
  }

  // ---------------------------------------------------------------------------
  // Outbound frames

  /** The `session.update` frame sent when the socket opens (lines 148-181). */
  datatype SessionConfig = SessionConfig(
    instructions: string,
    voice: string,
    inputAudioFormat: string,
    outputAudioFormat: string,
    transcriptionModel: string,
    language: string,
    turnDetection: string,
    vadThreshold: real,
    prefixPaddingMs: int,
    silenceDurationMs: int,
    temperature: real)

  function SessionConfigFor(deployment: string, prompt: string): (c: SessionConfig)
    ensures c.transcriptionModel == deployment && c.instructions == prompt
    ensures c.inputAudioFormat == "pcm16" && c.outputAudioFormat == "pcm16" && c.language == "en"
  {
    SessionConfig(prompt, "alloy", "pcm16", "pcm16", deployment, "en", "server_vad", 0.5, 300, 500, 0.1)
  }

  datatype OutFrame = SessionUpdate(session: SessionConfig) | AppendAudio(audio: string)

  datatype ReadyState = Connecting | Open | Closed

  datatype Socket = Socket(url: string, state: ReadyState)

  /** The microphone stream, requested mono at the sample rate. */
  datatype Capture = Capture(sampleRate: int)

  datatype AudioGraph = AudioGraph(sampleRate: int)

  /** How setting up the audio pipeline went. */
  datatype PipelineOutcome = WorkletReady | ModuleFailed | ContextFailed

  /** What `stop` calls on the resources it finds. */
  datatype Release = CloseSocket | DisconnectWorklet | StopTracks | CloseContext

  /** What `start` keeps for its socket's `open` listener. */
  datatype Session = Session(deployment: string, prompt: string, sampleRate: int)

  /** The releases `stop` performs on the given fields, in its order. */
  function ReleasesFor(ws: Option<Socket>, worklet: bool, stream: Option<Capture>, ctx: Option<AudioGraph>): seq<Release> {
    (if ws.Some? then [CloseSocket] else [])
    + (if worklet then [DisconnectWorklet] else [])
    + (if stream.Some? then [StopTracks] else [])
    + (if ctx.Some? then [CloseContext] else [])
  }

  /** The `input_audio_buffer.append` frame for one buffer of samples. */
  function AudioFrame(samples: seq<Float>): OutFrame {
    AppendAudio(Encode(FrameBytes(samples)))
  }

  /** The audio of a frame decodes to its PCM16 bytes, four characters for every started three bytes. */
  lemma AudioFrameRoundTrip(samples: seq<Float>)
    ensures Decode(AudioFrame(samples).audio) == Some(FrameBytes(samples))
    ensures |AudioFrame(samples).audio| == 4 * ((2 * |samples| + 2) / 3)
  {
    var bs := FrameBytes(samples);
    DecodeEncode(bs);
    EncodeLength(bs);
  }

  /** `arrayBufferToBase64` (lines 282-289): a binary string built byte by byte, then `btoa`. */
  method ArrayBufferToBase64(bytes: array<byte>) returns (s: string)
    ensures s == Encode(bytes[..])
  {
    var binary := "";
    for i := 0 to bytes.Length
      invariant binary == Latin1(bytes[..i])
    {
      binary := binary + [(bytes[i] as int) as char];
      assert bytes[..i + 1] == bytes[..i] + [bytes[i]];
    }
    assert bytes[..bytes.Length] == bytes[..];
    BtoaLatin1(bytes[..]);
    s := Btoa(binary).value;
  }

  /** The conversion both audio paths perform, up to the frame they send. */
  method EncodeSamples(samples: seq<Float>) returns (audio: string)
    ensures audio == AudioFrame(samples).audio
  {
    var channel := new Float[|samples|](i requires 0 <= i < |samples| => samples[i]);
    assert channel[..] == samples;
    var int16Data := ConvertSamples(channel);
    var view := LeBytes(int16Data[..]);
    var buffer := new byte[|view|](i requires 0 <= i < |view| => view[i]);
    assert buffer[..] == view;
    audio := ArrayBufferToBase64(buffer);
  }

  // ---------------------------------------------------------------------------
  // The client object

  class Client {
    const opts: Opts
    var ws: Option<Socket>
    var stream: Option<Capture>
    var audioCtx: Option<AudioGraph>
    var workletNode: bool
    /** The deployment, prompt and rate the current socket's listeners captured. */
    var session: Option<Session>
    /** Every callback call, in order. */
    var callbacks: seq<Callback>
    /** Every frame sent on the socket, in order. */
    var sent: seq<OutFrame>
    /** Every release `stop` performed, in order. */
    var released: seq<Release>

    constructor (opts: Opts)
      ensures this.opts == opts
      ensures ws.None? && stream.None? && audioCtx.None? && !workletNode && session.None?
      ensures callbacks == [] && sent == [] && released == []
    {
      this.opts := opts;
      ws, stream, audioCtx, workletNode, session := None, None, None, false, None;
      callbacks, sent, released := [], [], [];
    }

    /**
     * `start` (lines 38-133). A missing setting, a microphone failure
     * (`micError`) or a URL that `new URL` rejects (`urlError`) is reported
     * through `onError` and nothing further is opened; `start` never throws.
     */
    method Start(env: Env, host: Host, micError: Option<string>, urlError: Option<string>)
      modifies this`callbacks, this`ws, this`stream, this`session
      ensures match Resolve(opts, env, host)
        case Missing(e) =>
          && callbacks == old(callbacks) + [Error(ErrText(ConfigMessage(e)))]
          && ws == old(ws) && stream == old(stream) && session == old(session)
        case Resolved(config) => Opened(config, micError, urlError, old(callbacks), old(ws), old(stream), old(session))
    {
      var resolved := Resolve(opts, env, host);
      match resolved
      case Missing(e) =>
        callbacks := callbacks + [Error(ErrText(ConfigMessage(e)))];
      case Resolved(config) =>
        OpenWith(config, micError, urlError);
    }

    /**
     * What `start` leaves behind once the configuration resolved: the
     * microphone is captured unless it failed, and the socket and the
     * session are set up unless the microphone or the URL failed.
     */
    predicate Opened(config: Config, micError: Option<string>, urlError: Option<string>,
                           callbacks0: seq<Callback>, ws0: Option<Socket>, stream0: Option<Capture>, session0: Option<Session>)
      reads this
    {
      var rate := opts.sampleRate.GetOr(DefaultSampleRate);
      if micError.Some? then
        && callbacks == callbacks0 + [Error(ErrText(micError.value))]
        && ws == ws0 && stream == stream0 && session == session0
      else if urlError.Some? then
        && callbacks == callbacks0 + [Error(ErrText(urlError.value))]
        && ws == ws0 && stream == Some(Capture(rate)) && session == session0
      else
        && callbacks == callbacks0
        && stream == Some(Capture(rate))
        && ws == Some(Socket(SocketUrl(opts, config), Connecting))
        && session == Some(Session(config.deployment, opts.prompt.GetOr(DefaultPrompt), rate))
    }

    /** The part of `start` after the configuration resolved (lines 81-133). */
    method OpenWith(config: Config, micError: Option<string>, urlError: Option<string>)
      modifies this`callbacks, this`ws, this`stream, this`session
      ensures Opened(config, micError, urlError, old(callbacks), old(ws), old(stream), old(session))
    {
      var rate := opts.sampleRate.GetOr(DefaultSampleRate);
      var micFailed := micError.Some?;
      var urlFailed := urlError.Some?;
      if micFailed {
        callbacks := callbacks + [Error(ErrText(micError.value))];
      } else {
        stream := Some(Capture(rate));
        if urlFailed {
          callbacks := callbacks + [Error(ErrText(urlError.value))];
        } else {
          ws := Some(Socket(SocketUrl(opts, config), Connecting));
          session := Some(Session(config.deployment, opts.prompt.GetOr(DefaultPrompt), rate));
        }
      }
    }

    /**
     * The socket's `open` event (lines 113-117, 148-181, 184-279): the
     * configuration frame is sent while the socket is open, then the audio
     * pipeline is set up. A new context is created first (line 186); when
     * registering the worklet fails the legacy processor is used with that
     * context. When creating the context itself failed, the legacy path
     * reuses an existing context, and otherwise its own `new AudioContext`
     * (line 253) fails in the same way, so the context is left as it was.
     */
    method OnOpen(outcome: PipelineOutcome)
      requires session.Some?
      modifies this
      ensures session == old(session)
      ensures ws == (if old(ws).Some? then Some(old(ws).value.(state := Open)) else None)
      ensures sent == old(sent) + (if ws.Some? then [SessionUpdate(SessionConfigFor(session.value.deployment, session.value.prompt))] else [])
      ensures audioCtx == (if outcome == ContextFailed then old(audioCtx) else Some(AudioGraph(session.value.sampleRate)))
      ensures workletNode == (outcome == WorkletReady || old(workletNode))
      ensures stream == old(stream)
      ensures callbacks == old(callbacks) && released == old(released)
    {
      if ws.Some? {
        ws := Some(ws.value.(state := Open));
        sent := sent + [SessionUpdate(SessionConfigFor(session.value.deployment, session.value.prompt))];
      }
      var rate := session.value.sampleRate;
      if outcome != ContextFailed {
        audioCtx := Some(AudioGraph(rate));
      }
      if outcome == WorkletReady {
        workletNode := true;
      }
    }

    predicate SocketOpen()
      reads this
    {
      ws.Some? && ws.value.state == Open
    }

    /**
     * One buffer of microphone samples, from the worklet (lines 197-207,
     * 226-236) or from the legacy processor (lines 259-275): both convert the
     * samples the same way and send them only while the socket is open.
     */
    method AudioBuffer(samples: seq<Float>)
      modifies this`sent
      ensures sent == old(sent) + (if SocketOpen() then [AudioFrame(samples)] else [])
    {
      if !(ws.Some? && ws.value.state == Open) {
        return;
      }
      var audio := EncodeSamples(samples);
      sent := sent + [AppendAudio(audio)];
    }

    /** The socket's `message` event: the callback `handleMessage` chooses, if any. */
    method OnMessage(frame: Inbound)
      modifies this`callbacks
      ensures callbacks == old(callbacks) + (if Dispatch(frame).Some? then [Dispatch(frame).value] else [])
    {
      var cb := Dispatch(frame);
      if cb.Some? {
        callbacks := callbacks + [cb.value];
      }
    }

    /** The socket's `error` event is passed to `onError`. */
    method OnSocketError()
      modifies this`callbacks
      ensures callbacks == old(callbacks) + [Error(SocketError)]
    {
      callbacks := callbacks + [Error(SocketError)];
    }

    /** The socket's `close` event is passed to `onError` too, also after `stop`. */
    method OnSocketClose(code: int, reason: string)
      modifies this`callbacks, this`ws
      ensures callbacks == old(callbacks) + [Error(SocketClosed(code, reason))]
      ensures ws == (if old(ws).Some? then Some(old(ws).value.(state := Closed)) else None)
    {
      if ws.Some? {
        ws := Some(ws.value.(state := Closed));
      }
      callbacks := callbacks + [Error(SocketClosed(code, reason))];
    }

    /**
     * `stop` (lines 136-145): releases whatever of the socket, worklet node,
     * stream and context is present, in that order, and clears all four, so
     * that a second call releases nothing.
     */
    method Stop()
      modifies this`ws, this`workletNode, this`stream, this`audioCtx, this`released
      ensures ws.None? && !workletNode && stream.None? && audioCtx.None?
      ensures released == old(released) + ReleasesFor(old(ws), old(workletNode), old(stream), old(audioCtx))
    {
      released := released + ReleasesFor(ws, workletNode, stream, audioCtx);
      ws, workletNode, stream, audioCtx := None, false, None, None;
    }
  }

  /** Stopping twice releases each resource once: the second call is a no-op. */
  method StopTwice(c: Client)
    modifies c
    ensures c.released == old(c.released) + ReleasesFor(old(c.ws), old(c.workletNode), old(c.stream), old(c.audioCtx))
    ensures c.ws.None? && !c.workletNode && c.stream.None? && c.audioCtx.None?
  {
    c.Stop();
    var once := c.released;
    c.Stop();
    assert ReleasesFor(None, false, None, None) == [];
    assert c.released == once;
  }
}

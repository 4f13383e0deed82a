/**
 * The live interview room (LiveInterviewRoom): the call clock, the one-time
 * "closing remarks" instruction, the end of the call, live captions, the
 * grading feedback and the first-interaction audio unlock, as a state record
 * whose methods are the component's handlers and effects.
 *
 * The peer connection, data channel, audio element and audio context are
 * reduced to their states; each browser event is a method whose parameters
 * say what the browser reported. `log` records, in order, every outward call
 * the component makes.
 */
module LiveRoom {
  import opened Wrappers
  import opened Json
  import opened Base64
  import RealtimeClient

  // ---------------------------------------------------------------------------
  // The clock display

  function DigitChar(d: nat): (c: char)
    requires d < 10
    ensures '0' <= c <= '9'
  {
    ('0' as int + d) as char
  }

  /** `n.toString()` for a natural number: its decimal digits, no leading zeros. */
  function Decimal(n: nat): (s: string)
    ensures |s| >= 1 && forall i :: 0 <= i < |s| ==> '0' <= s[i] <= '9'
    ensures n < 10 <==> |s| == 1
    ensures 10 <= n < 100 ==> |s| == 2
    decreases n
  {
    if n < 10 then [DigitChar(n)] else Decimal(n / 10) + [DigitChar(n % 10)]
  }

  predicate AllDigits(s: string) {
    forall i :: 0 <= i < |s| ==> '0' <= s[i] <= '9'
  }

  /** The number a string of decimal digits denotes. */
  function DecimalValue(s: string): nat
    requires AllDigits(s)
  {
    if s == [] then 0 else DecimalValue(s[..|s| - 1]) * 10 + (s[|s| - 1] as int - '0' as int)
  }

  lemma {:induction false} DecimalValueOfDecimal(n: nat)
    ensures DecimalValue(Decimal(n)) == n
    decreases n
  {
    if n >= 10 {
      DecimalValueOfDecimal(n / 10);
      var s := Decimal(n);
      assert s[..|s| - 1] == Decimal(n / 10);
    }
  }

  /** `s.padStart(2, '0')`. */
  function Pad2(s: string): (r: string)
    ensures |s| >= 2 ==> r == s
    ensures |s| < 2 ==> |r| == 2 && r[2 - |s|..] == s && forall i :: 0 <= i < 2 - |s| ==> r[i] == '0'
  {
    if |s| == 0 then "00" else if |s| == 1 then "0" + s else s
  }

  /**
   * `formatTime` (LiveInterviewRoom.tsx lines 94-95): minutes and seconds, each
   * at least two digits; the display ends in `:` and exactly two digits.
   */
  function FormatTime(s: nat): (r: string)
    ensures |r| >= 5 && r[|r| - 3] == ':'
    ensures AllDigits(r[..|r| - 3]) && AllDigits(r[|r| - 2..])
  {
    PaddedValue(s / 60);
    PaddedValue(s % 60);
    DisplayParts(Pad2(Decimal(s / 60)), Pad2(Decimal(s % 60)));
    Pad2(Decimal(s / 60)) + ":" + Pad2(Decimal(s % 60))
  }

  /** A display of padded minutes, `:` and two digits splits back into its parts. */
  lemma DisplayParts(m: string, sec: string)
    requires |m| >= 2 && |sec| == 2
    ensures var t := m + ":" + sec;
      |t| >= 5 && t[|t| - 3] == ':' && t[..|t| - 3] == m && t[|t| - 2..] == sec
  {
  }

  /** Reading an `m:ss` display back: the digits before the last three characters are minutes. */
  function ReadTime(t: string): nat
    requires |t| >= 3 && AllDigits(t[..|t| - 3]) && AllDigits(t[|t| - 2..])
  {
    DecimalValue(t[..|t| - 3]) * 60 + DecimalValue(t[|t| - 2..])
  }

  lemma PaddedValue(n: nat)
    ensures AllDigits(Pad2(Decimal(n))) && DecimalValue(Pad2(Decimal(n))) == n
  {
    var d := Decimal(n);
    DecimalValueOfDecimal(n);
    if |d| == 1 {
      var p := Pad2(d);
      assert p == ['0', d[0]];
      assert p[..1] == ['0'] && [d[0]][..0] == [];
      assert DecimalValue(p[..1]) == 0;
      assert d[..0] == [];
    }
  }

  /**
   * The display always ends in `:` and two digits of the seconds, and reads
   * back as the number of seconds it was made from.
   */
  lemma FormatTimeRoundTrip(s: nat)
    ensures var t := FormatTime(s);
      |t| >= 5 && t[|t| - 3] == ':' && AllDigits(t[..|t| - 3]) && AllDigits(t[|t| - 2..])
      && ReadTime(t) == s
  {
    var m, sec := Pad2(Decimal(s / 60)), Pad2(Decimal(s % 60));
    PaddedValue(s / 60);
    PaddedValue(s % 60);
    ReadParts(m, sec);
    assert FormatTime(s) == m + ":" + sec;
  }

  /** Reading a display built from two digit strings gives back their values. */
  lemma ReadParts(m: string, sec: string)
    requires |m| >= 2 && |sec| == 2 && AllDigits(m) && AllDigits(sec)
    ensures var t := m + ":" + sec;
      |t| >= 5 && AllDigits(t[..|t| - 3]) && AllDigits(t[|t| - 2..])
      && ReadTime(t) == DecimalValue(m) * 60 + DecimalValue(sec)
  {
    DisplayParts(m, sec);
  }

  /** Below 100 minutes the display is always `mm:ss`, five characters. */
  lemma FormatTimeShort(s: nat)
    requires s < 6000
    ensures |FormatTime(s)| == 5
  {
    assert |Decimal(s / 60)| <= 2;
    assert |Decimal(s % 60)| <= 2;
  }

  // ---------------------------------------------------------------------------
  // The speaking test

  function Sum(bins: seq<byte>): (r: nat)
    ensures r <= 255 * |bins|
  {
    if bins == [] then 0 else Sum(bins[..|bins| - 1]) + bins[|bins| - 1] as int
  }

  /** The analyser size: `fftSize` 256 gives 128 frequency bins. */
  const FrequencyBins: nat := 128

  /**
   * `data.reduce(...) / data.length > 20` (lines 147-153): the mean bin
   * exceeds 20. For no bins the quotient is NaN, and the comparison is false.
   */
  predicate IsSpeaking(bins: seq<byte>): (r: bool)
    ensures r ==> |bins| > 0 && exists i :: 0 <= i < |bins| && bins[i] > 20
  {
    var speaking := |bins| > 0 && Sum(bins) as real / |bins| as real > 20.0;
    assert speaking ==> exists i :: 0 <= i < |bins| && bins[i] > 20 by {
      if speaking {
        MeanAbove(Sum(bins), |bins|);
        if forall i :: 0 <= i < |bins| ==> bins[i] <= 20 {
          SumAtMost(bins, 20);
        }
      }
    }
    speaking
  }

  /** A total of values that are each at most `c` is at most `c` per value. */
  lemma {:induction false} SumAtMost(bins: seq<byte>, c: nat)
    requires forall i :: 0 <= i < |bins| ==> bins[i] as int <= c
    ensures Sum(bins) <= c * |bins|
  {
    if bins != [] {
      SumAtMost(bins[..|bins| - 1], c);
    }
  }

  lemma QuotientAbove(t: real, m: real)
    requires m > 0.0
    ensures t / m > 20.0 <==> t > 20.0 * m
  {
    var q := t / m;
    assert t == q * m;
    assert t - 20.0 * m == (q - 20.0) * m;
  }

  /** A mean over `n` values exceeds 20 exactly when their total exceeds `20 * n`. */
  lemma MeanAbove(total: nat, n: nat)
    requires n > 0
    ensures total as real / n as real > 20.0 <==> total > 20 * n
  {
    QuotientAbove(total as real, n as real);
    assert (20 * n) as real == 20.0 * n as real;
  }

  /** The speaking test on integers: some bins, adding up to more than 20 per bin. */
  lemma SpeakingTotal(bins: seq<byte>)
    ensures IsSpeaking(bins) <==> |bins| > 0 && Sum(bins) > 20 * |bins|
  {
    if |bins| > 0 {
      MeanAbove(Sum(bins), |bins|);
    }
  }

  /** With the analyser's 128 bins, the AI counts as speaking exactly when the bins add up to more than 2560. */
  lemma SpeakingThreshold(bins: seq<byte>)
    requires |bins| == FrequencyBins
    ensures IsSpeaking(bins) <==> Sum(bins) > 2560
  {
    SpeakingTotal(bins);
  }

  /** The test depends only on the mean: raising any one bin never turns speaking off. */
  lemma {:induction false} SumMonotonic(bins: seq<byte>, i: nat, v: byte)
    requires i < |bins| && bins[i] <= v
    ensures Sum(bins) <= Sum(bins[i := v])
    decreases |bins|
  {
    var n := |bins| - 1;
    var other := bins[i := v];
    assert other[..n] == if i < n then bins[..n][i := v] else bins[..n];
    if i < n {
      SumMonotonic(bins[..n], i, v);
    }
  }

  lemma SpeakingMonotonic(bins: seq<byte>, i: nat, v: byte)
    requires i < |bins| && bins[i] <= v
    requires IsSpeaking(bins)
    ensures IsSpeaking(bins[i := v])
  {
    SumMonotonic(bins, i, v);
    SpeakingTotal(bins);
    SpeakingTotal(bins[i := v]);
  }

  // ---------------------------------------------------------------------------
  // The room

  /** The values of `status`; the code never sets `'closed'`. */
  datatype Status = Initializing | Connecting | Connected | Errored | Closed

  /** The state of `audioStatus`. */
  datatype AudioStatus = Waiting | NoSource | Playing | PlayFailed

  /** A peer connection, data channel, audio context or transcription client, as far as its ref shows. */
  datatype Link = Absent | Opening | Open | Shut

  /** A `useState<number | null>` value set from a reply field: `null`, `undefined`, or another value. */
  datatype Slot = NullSlot | Undefined | Holds(value: Json)

  /** The state a reply field is stored as (lines 224-225): a missing field is `undefined`, a JSON `null` is `null`. */
  function SlotOf(v: Option<Json>): (s: Slot)
    ensures v.None? <==> s == Undefined
    ensures v == Some(JNull) <==> s == NullSlot
    ensures s.Holds? ==> v == Some(s.value) && !s.value.JNull?
  {
    if v.None? then Undefined
    else if v.value.JNull? then NullSlot
    else Holds(v.value)
  }

  /** A message the component sends on the data channel. */
  datatype ChannelMsg =
    | Introduction(instructions: string)
    | AiStart
    | ClosingRemarks(instructions: string)

  /** Any other outward call of the component, in the order made. */
  datatype Action =
    | Play
    | ResumeContext
    | RequestGrade(answer: Json)
    | StartTranscriber
    | StopTranscriber
    | ClosePeer
    | CloseChannel
    | CloseContext
    | NotifyEnd

  const ClosingThreshold: int := 30
  const ClosingInstructions: string := "The interview is nearing its end. Please begin your closing remarks."

  /** The ICE states that end the call (lines 182-187). */
  const TerminalIceStates: set<string> := {"closed", "failed", "disconnected"}

  /** How many closing instructions were sent. */
  function ClosingSends(sent: seq<ChannelMsg>): (n: nat)
    ensures n <= |sent|
  {
    if sent == [] then 0 else ClosingSends(sent[..|sent| - 1]) + (if sent[|sent| - 1].ClosingRemarks? then 1 else 0)
  }

  lemma {:induction false} ClosingSendsAppend(a: seq<ChannelMsg>, b: seq<ChannelMsg>)
    ensures ClosingSends(a + b) == ClosingSends(a) + ClosingSends(b)
    decreases |b|
  {
    if b != [] {
      var n := |b| - 1;
      var ab := a + b;
      assert ab[..|ab| - 1] == a + b[..n];
      assert ab[|ab| - 1] == b[n];
      var last := if b[n].ClosingRemarks? then 1 else 0;
      assert ClosingSends(ab) == ClosingSends(a + b[..n]) + last;
      assert ClosingSends(b) == ClosingSends(b[..n]) + last;
      ClosingSendsAppend(a, b[..n]);
    } else {
      assert a + b == a;
    }
  }

  /** The transcription effect's calls when `status` goes from `before` to `after`. */
  function StatusActions(before: Status, after: Status): seq<Action> {
    if before == after then []
    else (if before == Connected then [StopTranscriber] else []) + (if after == Connected then [StartTranscriber] else [])
  }

  /** What the setup cleanup closes, in its order: the connection, the channel, the context. */
  function TeardownActions(peer: Link, channel: Link, ctx: Link): seq<Action> {
    (if peer != Absent then [ClosePeer] else [])
    + (if channel != Absent then [CloseChannel] else [])
    + (if ctx != Absent then [CloseContext] else [])
  }

  /** What `endCall` calls, in its order: the transcription client, the channel, the connection, the parent. */
  function EndCallActions(transcriber: Link, channel: Link, peer: Link): seq<Action> {
    (if transcriber != Absent then [StopTranscriber] else [])
    + (if channel != Absent then [CloseChannel] else [])
    + (if peer != Absent then [ClosePeer] else [])
    + [NotifyEnd]
  }

  /** A link after a `?.close()` call: closed when it existed. */
  function AfterClose(l: Link): (r: Link)
    ensures r == Absent <==> l == Absent
  {
    if l == Absent then Absent else Shut
  }

  /** A link after `ensureAudioCtx`: created when it did not exist. */
  function AfterEnsure(l: Link): (r: Link)
    ensures r != Absent && (l != Absent ==> r == l)
  {
    if l == Absent then Open else l
  }

  /** The calls the unlock makes: playback when the element has a source, then resuming the context. */
  function UnlockActions(hasSource: bool): seq<Action> {
    (if hasSource then [Play] else []) + [ResumeContext]
  }

  /** The condition under which the closing effect acts (lines 98-107). */
  predicate ClosingDue(status: Status, hasSentClosing: bool, timer: int, durationSec: int) {
    status == Connected && !hasSentClosing && timer >= durationSec - ClosingThreshold
  }

  class Room {
    const durationSec: int
    const introduction: string

    var status: Status
    var error: Option<string>
    var timer: nat
    var hasSentClosing: bool
    var isCallActive: bool
    var userInteracted: bool
    var audioStatus: AudioStatus
    var isAISpeaking: bool
    var partial: Json
    var finalT: Option<Json>
    var lastScore: Slot
    var lastFeedback: Slot

    /** Whether the audio element has a source stream, and whether it is muted. */
    var hasSource: bool
    var muted: bool
    var peer: Link
    var channel: Link
    var audioCtx: Link
    var transcriber: Link

    /** The effect-local flag of the current setup run, and what that run captured. */
    var autoStarted: bool
    var setupActive: bool
    var setupInteracted: bool
    /** Whether the speaking monitor keeps rescheduling itself, and whether the delayed interaction is pending. */
    var monitorRunning: bool
    var autoPending: bool

    /** Every message sent on the data channel, and every other outward call. */
    var sent: seq<ChannelMsg>
    var log: seq<Action>

    /**
     * The invariant every handler keeps: at most one closing instruction is
     * ever sent, and only once the flag that blocks a second one is set; a
     * running transcription client implies the room is connected.
     */
    predicate Valid()
      reads this
    {
      && ClosingSends(sent) <= 1
      && (ClosingSends(sent) == 1 ==> hasSentClosing)
      && (transcriber == Open ==> status == Connected)
    }

    constructor (durationSec: int, introduction: string)
      ensures Valid()
      ensures this.durationSec == durationSec && this.introduction == introduction
      ensures status == Initializing && error.None? && timer == 0 && !hasSentClosing
      ensures isCallActive && !userInteracted && audioStatus == Waiting && !isAISpeaking
      ensures partial == JStr("") && finalT.None? && lastScore == NullSlot && lastFeedback == NullSlot
      ensures !hasSource && !muted && peer == Absent && channel == Absent && audioCtx == Absent && transcriber == Absent
      ensures !monitorRunning && !autoPending && sent == [] && log == []
    {
      this.durationSec := durationSec;
      this.introduction := introduction;
      status, error, timer, hasSentClosing := Initializing, None, 0, false;
      isCallActive, userInteracted, audioStatus, isAISpeaking := true, false, Waiting, false;
      partial, finalT, lastScore, lastFeedback := JStr(""), None, NullSlot, NullSlot;
      hasSource, muted, peer, channel, audioCtx, transcriber := false, false, Absent, Absent, Absent, Absent;
      autoStarted, setupActive, setupInteracted, monitorRunning, autoPending := false, false, false, false, false;
      sent, log := [], [];
    }

    /**
     * Sets `status`, with the transcription effect (lines 198-214) that
     * follows a change: the client of the old status is stopped, and a new one
     * started when the new status is `'connected'`.
     */
    method SetStatus(s: Status)
      requires Valid()
      modifies this`status, this`transcriber, this`log
      ensures Valid()
      ensures status == s
      ensures log == old(log) + StatusActions(old(status), s)
      ensures transcriber == (if s == old(status) then old(transcriber)
                              else if s == Connected then Open
                              else if old(status) == Connected then Shut
                              else old(transcriber))
    {
      log := log + StatusActions(status, s);
      if s != status {
        if status == Connected {
          transcriber := Shut;
        }
        if s == Connected {
          transcriber := Open;
        }
        status := s;
      }
    }

    /** One tick of the call clock (lines 88-92): the interval exists only while the call is active and connected. */
    method Tick()
      modifies this`timer
      ensures timer == if isCallActive && status == Connected then old(timer) + 1 else old(timer)
    {
      if isCallActive && status == Connected {
        timer := timer + 1;
      }
    }

    /**
     * The closing heads-up (lines 98-107). When it is due, the instruction is
     * sent on an open channel and the flag is set; without a channel the flag
     * is set and nothing is sent; on a channel that is not open `send`
     * throws, so neither happens.
     */
    method ClosingEffect()
      requires Valid()
      modifies this`sent, this`hasSentClosing
      ensures Valid()
      ensures !ClosingDue(status, old(hasSentClosing), timer, durationSec) ==> sent == old(sent) && hasSentClosing == old(hasSentClosing)
      ensures ClosingDue(status, old(hasSentClosing), timer, durationSec) ==>
        && sent == old(sent) + (if channel == Open then [ClosingRemarks(ClosingInstructions)] else [])
        && hasSentClosing == (channel == Open || channel == Absent)
      ensures ClosingSends(sent) > ClosingSends(old(sent)) ==>
        old(!hasSentClosing) && timer >= durationSec - ClosingThreshold && status == Connected
    {
      if ClosingDue(status, hasSentClosing, timer, durationSec) {
        if channel == Open {
          ClosingSendsAppend(sent, [ClosingRemarks(ClosingInstructions)]);
          sent := sent + [ClosingRemarks(ClosingInstructions)];
          hasSentClosing := true;
        } else if channel == Absent {
          hasSentClosing := true;
        }
      }
    }

    /** One tick followed by the closing effect it triggers. */
    method TickAndCheck()
      requires Valid()
      modifies this`timer, this`sent, this`hasSentClosing
      ensures Valid()
      ensures timer == if isCallActive && status == Connected then old(timer) + 1 else old(timer)
      ensures ClosingSends(sent) <= 1
    {
      Tick();
      ClosingEffect();
    }

    /** The setup effect starts (lines 110-115): it captures `isCallActive` and `userInteracted`, and the room is connecting. */
    method StartSetup()
      requires Valid()
      modifies this`autoStarted, this`setupActive, this`setupInteracted, this`status, this`transcriber, this`log
      ensures Valid()
      ensures status == Connecting && !autoStarted
      ensures setupActive == isCallActive && setupInteracted == userInteracted
      ensures log == old(log) + StatusActions(old(status), Connecting)
      ensures transcriber == (if old(status) == Connected then Shut else old(transcriber))
    {
      autoStarted := false;
      setupActive := isCallActive;
      setupInteracted := userInteracted;
      SetStatus(Connecting);
    }

    /**
     * The peer connection is created and stored in its ref (lines 121-129),
     * before the microphone is requested (line 134): a setup that fails there
     * leaves the connection without a channel of its own.
     */
    method PeerCreated()
      modifies this`peer
      ensures peer == Open
    {
      peer := Open;
    }

    /** Once the microphone is granted, the data channel is created and stored in its ref (lines 162-163). */
    method ChannelCreated()
      modifies this`channel
      ensures channel == Opening
    {
      channel := Opening;
    }

    /** Any step of the setup throws (lines 189-192): the message is shown and the status is `'error'`. */
    method SetupFailed(message: string)
      requires Valid()
      modifies this`error, this`status, this`transcriber, this`log
      ensures Valid()
      ensures error == Some(message) && status == Errored
      ensures log == old(log) + StatusActions(old(status), Errored)
      ensures transcriber == (if old(status) == Connected then Shut else old(transcriber))
    {
      error := Some(message);
      SetStatus(Errored);
    }

    /** The data channel opens (lines 164-167): the introduction, then the request that the AI speak first. */
    method ChannelOpened()
      requires Valid()
      modifies this`channel, this`sent
      ensures Valid()
      ensures channel == Open
      ensures sent == old(sent) + [Introduction(introduction), AiStart]
    {
      channel := Open;
      ClosingSendsAppend(sent, [Introduction(introduction), AiStart]);
      assert ClosingSends([Introduction(introduction), AiStart]) == 0 by {
        assert [Introduction(introduction), AiStart][..1] == [Introduction(introduction)];
      }
      sent := sent + [Introduction(introduction), AiStart];
    }

    /** A data-channel message (lines 168-170): `ai.speaking` sets the speaking flag to its `value`. */
    method ChannelMessage(frame: RealtimeClient.Inbound)
      modifies this`isAISpeaking
      ensures frame.Parsed? && !frame.value.JNull? && Prop(Some(frame.value), "type") == Some(JStr("ai.speaking")) ==>
        isAISpeaking == TruthyOpt(Prop(Some(frame.value), "value"))
      ensures !(frame.Parsed? && !frame.value.JNull? && Prop(Some(frame.value), "type") == Some(JStr("ai.speaking"))) ==>
        isAISpeaking == old(isAISpeaking)
    {
      if frame.Parsed? && !frame.value.JNull? && Prop(Some(frame.value), "type") == Some(JStr("ai.speaking")) {
        isAISpeaking := TruthyOpt(Prop(Some(frame.value), "value"));
      }
    }

    /** `ensureAudioCtx` (lines 64-68): a context is created only when the ref holds none. */
    method EnsureAudioCtx()
      modifies this`audioCtx
      ensures audioCtx == if old(audioCtx) == Absent then Open else old(audioCtx)
    {
      if audioCtx == Absent {
        audioCtx := Open;
      }
    }

    /** `tryPlayAudio` (lines 70-77): without a source only the status changes; otherwise unmute and play. */
    method TryPlayAudio()
      requires Valid()
      modifies this`audioStatus, this`muted, this`log
      ensures Valid()
      ensures !hasSource ==> audioStatus == NoSource && muted == old(muted) && log == old(log)
      ensures hasSource ==> audioStatus == old(audioStatus) && !muted && log == old(log) + [Play]
    {
      if !hasSource {
        audioStatus := NoSource;
        return;
      }
      muted := false;
      log := log + [Play];
    }

    /** The promise `play()` returned settles. */
    method PlaySettled(played: bool)
      modifies this`audioStatus, this`muted
      ensures played ==> audioStatus == Playing && muted == old(muted)
      ensures !played ==> audioStatus == PlayFailed && muted
    {
      if played {
        audioStatus := Playing;
      } else {
        audioStatus := PlayFailed;
        muted := true;
      }
    }

    /** Plays and resumes the context: the work of the interaction handler. */
    method Unlock()
      requires Valid()
      modifies this`userInteracted, this`audioStatus, this`muted, this`log, this`audioCtx
      ensures Valid()
      ensures userInteracted
      ensures log == old(log) + UnlockActions(hasSource)
      ensures audioStatus == (if hasSource then old(audioStatus) else NoSource)
      ensures muted == (if hasSource then false else old(muted))
      ensures audioCtx == if old(audioCtx) == Absent then Open else old(audioCtx)
    {
      userInteracted := true;
      TryPlayAudio();
      EnsureAudioCtx();
      log := log + [ResumeContext];
      assert log == old(log) + UnlockActions(hasSource);
    }

    /**
     * `handleUserInteraction` (lines 79-85): only the first call does
     * anything, because `userInteracted` latches.
     */
    method HandleUserInteraction()
      requires Valid()
      modifies this`userInteracted, this`audioStatus, this`muted, this`log, this`audioCtx
      ensures Valid()
      ensures userInteracted
      ensures old(userInteracted) ==> log == old(log) && audioStatus == old(audioStatus) && muted == old(muted) && audioCtx == old(audioCtx)
      ensures !old(userInteracted) ==> log == old(log) + UnlockActions(hasSource)
    {
      if !userInteracted {
        Unlock();
      }
    }

    /**
     * The delayed interaction scheduled by the first audio track (line 158):
     * it runs the handler of the render that scheduled it, where
     * `userInteracted` was still false, so it unlocks the audio even if the
     * user has clicked in the meantime. Only when the flag was still false
     * does setting it change a dependency of the setup effect and restart the
     * call.
     */
    method AutoInteractionFired()
      requires Valid() && autoPending
      modifies this`userInteracted, this`audioStatus, this`muted, this`log, this`audioCtx, this`peer, this`channel, this`autoPending
      modifies this`autoStarted, this`setupActive, this`setupInteracted, this`status, this`transcriber
      ensures Valid()
      ensures userInteracted && !autoPending
      ensures audioStatus == (if hasSource then old(audioStatus) else NoSource) && muted == (if hasSource then false else old(muted))
      ensures old(userInteracted) ==> log == old(log) + UnlockActions(hasSource) && audioCtx == AfterEnsure(old(audioCtx))
      ensures old(userInteracted) ==>
        peer == old(peer) && channel == old(channel) && status == old(status) && transcriber == old(transcriber)
      ensures old(userInteracted) ==>
        autoStarted == old(autoStarted) && setupActive == old(setupActive) && setupInteracted == old(setupInteracted)
      ensures !old(userInteracted) ==>
        log == old(log) + UnlockActions(hasSource) + TeardownActions(old(peer), old(channel), AfterEnsure(old(audioCtx))) + StatusActions(old(status), Connecting)
      ensures !old(userInteracted) ==>
        peer == AfterClose(old(peer)) && channel == AfterClose(old(channel)) && audioCtx == Shut
      ensures !old(userInteracted) ==>
        status == Connecting && !autoStarted && setupActive == isCallActive && setupInteracted
      ensures !old(userInteracted) ==> transcriber == (if old(status) == Connected then Shut else old(transcriber))
    {
      autoPending := false;
      if userInteracted {
        Unlock();
      } else {
        FirstInteraction();
      }
    }

    /**
     * The synchronous part of the track handler that wires the audio (lines
     * 141 and 145-154): the stream becomes the element's source, a context
     * exists, and the monitor keeps running exactly when the `isCallActive`
     * its effect captured was true.
     */
    method AttachSource()
      modifies this`hasSource, this`audioCtx, this`monitorRunning
      ensures hasSource && audioCtx == (if old(audioCtx) == Absent then Open else old(audioCtx))
      ensures monitorRunning == setupActive
    {
      hasSource := true;
      EnsureAudioCtx();
      monitorRunning := setupActive;
    }

    /**
     * The end of the track handler (lines 157-158): after an interaction the
     * audio is played; otherwise the delayed interaction is scheduled, once
     * per setup run.
     */
    method PlayOrSchedule()
      requires Valid() && hasSource
      modifies this`audioStatus, this`muted, this`log, this`autoStarted, this`autoPending
      ensures Valid()
      ensures audioStatus == old(audioStatus)
      ensures muted == (if setupInteracted then false else old(muted))
      ensures autoStarted == (old(autoStarted) || !setupInteracted)
      ensures autoPending == (old(autoPending) || (!setupInteracted && !old(autoStarted)))
      ensures log == old(log) + (if setupInteracted then [Play] else [])
    {
      if setupInteracted {
        TryPlayAudio();
      } else if !autoStarted {
        autoStarted := true;
        autoPending := true;
      }
    }

    /**
     * A remote audio track arrives while the audio element is mounted (lines
     * 139-160); any other track changes nothing. The room is connected, the
     * audio is wired, and it is played or its unlock scheduled; the
     * transcription effect of the new status runs after the handler returns.
     */
    method AudioTrack()
      requires Valid()
      modifies this`hasSource, this`audioCtx, this`monitorRunning, this`autoStarted, this`autoPending
      modifies this`audioStatus, this`muted, this`status, this`transcriber, this`log
      ensures Valid()
      ensures hasSource && status == Connected && audioCtx != Absent && audioStatus == old(audioStatus)
      ensures monitorRunning == setupActive
      ensures autoStarted == (old(autoStarted) || !setupInteracted)
      ensures autoPending == (old(autoPending) || (!setupInteracted && !old(autoStarted)))
      ensures log == old(log) + (if setupInteracted then [Play] else []) + StatusActions(old(status), Connected)
    {
      AttachSource();
      PlayOrSchedule();
      SetStatus(Connected);
    }

    /**
     * One run of the speaking monitor (lines 150-155): while it runs, the flag
     * follows the mean of the frequency bins.
     */
    method MonitorFrame(bins: seq<byte>)
      modifies this`isAISpeaking
      ensures monitorRunning ==> isAISpeaking == IsSpeaking(bins)
      ensures !monitorRunning ==> isAISpeaking == old(isAISpeaking)
    {
      if monitorRunning {
        isAISpeaking := IsSpeaking(bins);
      }
    }

    /**
     * The ICE connection state changes (lines 182-187): a terminal state ends
     * the call and notifies the parent; neither `status` nor the
     * transcription client is touched.
     */
    method IceStateChanged(state: string)
      requires Valid()
      modifies this`isCallActive, this`log
      ensures Valid()
      ensures state in TerminalIceStates ==> !isCallActive && log == old(log) + [NotifyEnd]
      ensures state !in TerminalIceStates ==> isCallActive == old(isCallActive) && log == old(log)
    {
      if state in TerminalIceStates {
        isCallActive := false;
        log := log + [NotifyEnd];
      }
    }

    /** The setup effect's cleanup (line 194): the peer connection, channel and context are closed. */
    method TeardownSetup()
      requires Valid()
      modifies this`peer, this`channel, this`audioCtx, this`log
      ensures Valid()
      ensures log == old(log) + TeardownActions(old(peer), old(channel), old(audioCtx))
      ensures peer == (if old(peer) == Absent then Absent else Shut)
      ensures channel == (if old(channel) == Absent then Absent else Shut)
      ensures audioCtx == (if old(audioCtx) == Absent then Absent else Shut)
    {
      log := log + TeardownActions(peer, channel, audioCtx);
      if peer != Absent {
        peer := Shut;
      }
      if channel != Absent {
        channel := Shut;
      }
      if audioCtx != Absent {
        audioCtx := Shut;
      }
    }

    /**
     * `userInteracted` is a dependency of the setup effect (line 195): when it
     * changes, React runs the cleanup of the current setup (line 194) and then
     * the setup again (lines 110-115).
     */
    method Restart()
      requires Valid()
      modifies this`peer, this`channel, this`audioCtx, this`log
      modifies this`autoStarted, this`setupActive, this`setupInteracted, this`status, this`transcriber
      ensures Valid()
      ensures log == old(log) + TeardownActions(old(peer), old(channel), old(audioCtx)) + StatusActions(old(status), Connecting)
      ensures peer == AfterClose(old(peer)) && channel == AfterClose(old(channel)) && audioCtx == AfterClose(old(audioCtx))
      ensures status == Connecting && !autoStarted && setupActive == isCallActive && setupInteracted == userInteracted
      ensures transcriber == (if old(status) == Connected then Shut else old(transcriber))
    {
      TeardownSetup();
      StartSetup();
    }

    /**
     * The interaction handler run while `userInteracted` is false: the audio
     * is unlocked, and because the flag changes the call is torn down and set
     * up anew, closing the context the unlock made sure of.
     */
    method FirstInteraction()
      requires Valid()
      modifies this`userInteracted, this`audioStatus, this`muted, this`log, this`audioCtx, this`peer, this`channel
      modifies this`autoStarted, this`setupActive, this`setupInteracted, this`status, this`transcriber
      ensures Valid()
      ensures userInteracted && setupInteracted
      ensures log == old(log) + UnlockActions(hasSource) + TeardownActions(old(peer), old(channel), AfterEnsure(old(audioCtx))) + StatusActions(old(status), Connecting)
      ensures audioStatus == (if hasSource then old(audioStatus) else NoSource)
      ensures muted == (if hasSource then false else old(muted))
      ensures peer == AfterClose(old(peer)) && channel == AfterClose(old(channel)) && audioCtx == Shut
      ensures status == Connecting && !autoStarted && setupActive == isCallActive
      ensures transcriber == (if old(status) == Connected then Shut else old(transcriber))
    {
      Unlock();
      Restart();
    }

    /**
     * A user click runs `handleUserInteraction` (lines 79-85) of the current
     * render. A later click changes nothing; the first one unlocks the audio
     * and restarts the call.
     */
    method Click()
      requires Valid()
      modifies this`userInteracted, this`audioStatus, this`muted, this`log, this`audioCtx, this`peer, this`channel
      modifies this`autoStarted, this`setupActive, this`setupInteracted, this`status, this`transcriber
      ensures Valid()
      ensures userInteracted
      ensures old(userInteracted) ==> unchanged(this)
      ensures !old(userInteracted) ==>
        log == old(log) + UnlockActions(hasSource) + TeardownActions(old(peer), old(channel), AfterEnsure(old(audioCtx))) + StatusActions(old(status), Connecting)
      ensures !old(userInteracted) ==>
        audioStatus == (if hasSource then old(audioStatus) else NoSource) && muted == (if hasSource then false else old(muted))
      ensures !old(userInteracted) ==>
        peer == AfterClose(old(peer)) && channel == AfterClose(old(channel)) && audioCtx == Shut
      ensures !old(userInteracted) ==>
        status == Connecting && !autoStarted && setupActive == isCallActive && setupInteracted
      ensures !old(userInteracted) ==> transcriber == (if old(status) == Connected then Shut else old(transcriber))
    {
      if !userInteracted {
        FirstInteraction();
      }
    }

    /** A partial transcript (line 202): it replaces the caption's partial line. */
    method OnPartial(delta: Json)
      modifies this`partial
      ensures partial == delta
    {
      partial := delta;
    }

    /** A final transcript (lines 203-207): the partial line is cleared, the final one set, and grading requested. */
    method OnFinal(text: Json)
      requires Valid()
      modifies this`partial, this`finalT, this`log
      ensures Valid()
      ensures partial == JStr("") && finalT == Some(text)
      ensures log == old(log) + [RequestGrade(text)]
    {
      partial := JStr("");
      finalT := Some(text);
      log := log + [RequestGrade(text)];
    }

    /** A callback of the transcription client: captions and grading; errors are only logged to the console. */
    method OnTranscriberCallback(cb: RealtimeClient.Callback)
      requires Valid()
      modifies this`partial, this`finalT, this`log
      ensures Valid()
      ensures cb.Partial? ==> partial == cb.delta && finalT == old(finalT) && log == old(log)
      ensures cb.Final? ==> partial == JStr("") && finalT == Some(cb.transcript) && log == old(log) + [RequestGrade(cb.transcript)]
      ensures cb.Error? ==> partial == old(partial) && finalT == old(finalT) && log == old(log)
    {
      match cb
      case Partial(d) => OnPartial(d);
      case Final(t) => OnFinal(t);
      case Error(_) =>
    }

    /** Whether the caption box shows (line 238). */
    predicate CaptionsShown(): (r: bool)
      reads this
      ensures partial.JStr? && partial.s != "" ==> r
      ensures finalT.Some? && finalT.value.JStr? && finalT.value.s != "" ==> r
      ensures partial == JStr("") && (finalT.None? || finalT == Some(JStr(""))) ==> !r
    {
      Truthy(partial) || (finalT.Some? && Truthy(finalT.value))
    }

    /**
     * A grading reply (lines 217-227). `reply` is the body `res.json()` gave,
     * or `None` when the request or the parsing threw. Destructuring `null`
     * throws too; any other body sets both fields, to `undefined` when absent.
     */
    method GradingReply(reply: Option<Json>)
      modifies this`lastScore, this`lastFeedback
      ensures reply.None? || reply.value.JNull? ==> lastScore == old(lastScore) && lastFeedback == old(lastFeedback)
      ensures reply.Some? && !reply.value.JNull? ==>
        lastScore == SlotOf(Prop(reply, "score")) && lastFeedback == SlotOf(Prop(reply, "feedback"))
    {
      if reply.Some? && !reply.value.JNull? {
        lastScore := SlotOf(Prop(reply, "score"));
        lastFeedback := SlotOf(Prop(reply, "feedback"));
      }
    }

    /** Whether the feedback box shows (line 246): any value but `null`, `undefined` included. */
    predicate FeedbackShown(): (r: bool)
      reads this
      ensures lastScore == SlotOf(None) ==> r
      ensures lastScore == SlotOf(Some(JNull)) ==> !r
      ensures lastScore.Holds? ==> r
    {
      lastScore != NullSlot
    }

    /**
     * `endCall` (line 230): stops the transcription client the ref holds,
     * closes the channel and the peer connection, ends the call and notifies
     * the parent, each time it is called.
     */
    method EndCall()
      requires Valid()
      modifies this`transcriber, this`channel, this`peer, this`isCallActive, this`log
      ensures Valid()
      ensures !isCallActive && status == old(status)
      ensures log == old(log) + EndCallActions(old(transcriber), old(channel), old(peer))
      ensures transcriber == (if old(transcriber) == Absent then Absent else Shut)
      ensures channel == (if old(channel) == Absent then Absent else Shut)
      ensures peer == (if old(peer) == Absent then Absent else Shut)
    {
      log := log + EndCallActions(transcriber, channel, peer);
      if transcriber != Absent {
        transcriber := Shut;
      }
      if channel != Absent {
        channel := Shut;
      }
      if peer != Absent {
        peer := Shut;
      }
      isCallActive := false;
    }

    /**
     * A setup run whose microphone request is denied (line 134): the
     * connection it created stays in its ref, next to whatever channel an
     * earlier run left there.
     */
    method DeniedSetup(message: string)
      requires Valid()
      modifies this`autoStarted, this`setupActive, this`setupInteracted, this`status, this`transcriber, this`log
      modifies this`peer, this`error
      ensures Valid()
      ensures log == old(log) + StatusActions(old(status), Connecting)
      ensures transcriber == (if old(status) == Connected then Shut else old(transcriber))
      ensures peer == Open && error == Some(message) && status == Errored
    {
      StartSetup();
      PeerCreated();
      SetupFailed(message);
      assert StatusActions(Connecting, Errored) == [];
    }

    /**
     * A denied setup and a press of End: the connection the run created is
     * closed, and the only channel closed is one an earlier run left in the
     * ref.
     */
    method DeniedSetupThenEnd(message: string)
      requires Valid()
      modifies this`autoStarted, this`setupActive, this`setupInteracted, this`status, this`transcriber, this`log
      modifies this`peer, this`error, this`channel, this`isCallActive
      ensures Valid()
      ensures log == old(log) + StatusActions(old(status), Connecting)
        + EndCallActions(if old(status) == Connected then Shut else old(transcriber), old(channel), Open)
      ensures old(channel) == Absent ==> CloseChannel !in log[|old(log)|..] && ClosePeer in log[|old(log)|..]
      ensures error == Some(message) && status == Errored && !isCallActive
      ensures peer == Shut && channel == AfterClose(old(channel))
    {
      DeniedSetup(message);
      EndCall();
      ghost var t := if old(status) == Connected then Shut else old(transcriber);
      assert log[|old(log)|..] == StatusActions(old(status), Connecting) + EndCallActions(t, old(channel), Open);
      DeniedCalls(old(status), t, old(channel));
    }
  }

  /** The calls of a denied setup and End: the connection is always closed, a channel only if the ref held one. */
  lemma DeniedCalls(before: Status, t: Link, c: Link)
    ensures ClosePeer in StatusActions(before, Connecting) + EndCallActions(t, c, Open)
    ensures c == Absent ==> CloseChannel !in StatusActions(before, Connecting) + EndCallActions(t, c, Open)
  {
    var calls := StatusActions(before, Connecting) + EndCallActions(t, c, Open);
    assert ClosePeer in EndCallActions(t, c, Open);
  }

  /**
   * Ending the call twice repeats every call of `endCall`, the parent's
   * notification included: nothing in the room guards against it.
   */
  method EndCallTwice(r: Room)
    requires r.Valid()
    modifies r
    ensures r.log == old(r.log) + EndCallActions(old(r.transcriber), old(r.channel), old(r.peer))
      + EndCallActions(AfterClose(old(r.transcriber)), AfterClose(old(r.channel)), AfterClose(old(r.peer)))
    ensures multiset(r.log)[NotifyEnd] == multiset(old(r.log))[NotifyEnd] + 2
    ensures !r.isCallActive && r.status == old(r.status)
  {
    r.EndCall();
    r.EndCall();
  }
}

/** The AudioHelper class of drachtio-apps/app-1/audioHelper.js: a TTS
    availability flag set by a health probe, `speak` (TTS playback with a
    pre-recorded fallback), digit collection, and the tone and prompt
    wrappers around FreeSWITCH `execute`.

    The TTS service and the endpoint are replaced by their outcomes,
    passed in as parameters; what the helper asks of them is appended to
    `log`. */
module AudioHelper {
  import opened Common

  const DefaultVoice := "default"
  const Playback := "playback"
  const Ringback := "ringback"
  const RingbackTone := "${us-ring}"
  const ConnectionTone := "tone_stream://%(200,200,425);loops=1"
  const HoldMusic := "/usr/local/freeswitch/sounds/music/8000/default.wav"
  const WelcomeTone := "tone_stream://%(300,200,941,1336);loops=1"
  const WelcomeText := "Welcome to our voice service. Please listen carefully to the following options."
  const WelcomeAudio := "/usr/local/freeswitch/sounds/en/us/callie/ivr/8000/ivr-welcome.wav"
  const PleaseHoldAudio := "/usr/local/freeswitch/sounds/en/us/callie/ivr/8000/ivr-please_hold.wav"
  const TransferTone := "tone_stream://%(200,100,425);loops=2"
  const AgentTone := "tone_stream://%(300,200,350,440);loops=1"
  const AgentText := "An agent will be with you shortly. Thank you for your patience."
  const ThankYouAudio := "/usr/local/freeswitch/sounds/en/us/callie/ivr/8000/ivr-thank_you_for_calling.wav"
  const InvalidTone := "tone_stream://%(100,100,400);loops=3"
  const InvalidText := "Invalid option. Please try again."
  const InvalidAudio := "/usr/local/freeswitch/sounds/en/us/callie/ivr/8000/ivr-that_was_an_invalid_entry.wav"
  const GoodbyeText := "Thank you for calling. Goodbye."
  const GoodbyeTone := "tone_stream://%(200,200,350);loops=1"
  const ReadApp := "read"

  /** The answer of POST /tts: a failed request (error status, timeout,
      unreachable) or a response body with `success` and `file_path`
      (an absent file_path is the empty string; both are falsy). */
  datatype TtsResponse = TtsFailed | TtsReply(success: bool, filePath: string)

  /** Collaborator outcomes during one `speak`. */
  datatype SpeakIo = SpeakIo(response: TtsResponse, ttsPlayOk: bool, fallbackOk: bool)

  /** The `options` of `speak`; `speed` is a float and is left out. */
  datatype SpeakOptions = SpeakOptions(voice: string, fallbackAudio: Option<string>)

  /** The `options` of `collectDigits`; the timeout is taken to be a
      non-negative integer below 10^21, which a template literal renders
      as plain decimal digits. */
  datatype CollectOptions = CollectOptions(
    minDigits: nat, maxDigits: nat, timeout: nat, terminators: string, fallbackAudio: Option<string>)

  /** The defaults collectDigits destructures its options with. */
  const DefaultCollectOptions := CollectOptions(1, 1, 5000, "#", None)

  /** What the helper asks of its collaborators, with the outcome. */
  datatype Action =
    | HealthProbe(ok: bool)                     // GET /health
    | TtsPost(text: string, voice: string)      // POST /tts
    | Execute(app: string, arg: string, ok: bool)

  function WithFallback(audio: string): SpeakOptions {
    SpeakOptions(DefaultVoice, Some(audio))
  }

  /** JavaScript truthiness of an optional string. */
  predicate Truthy(s: Option<string>) {
    s.Some? && s.value != ""
  }

  /** How a template literal renders an optional string: null is "null". */
  function TemplateText(s: Option<string>): string {
    match s
    case None => "null"
    case Some(v) => v
  }

  // ---------------------------------------------------------------------
  // speak
  // ---------------------------------------------------------------------

  /** A TTS request was made and its response names a file to play. */
  predicate TtsUsable(enabled: bool, io: SpeakIo) {
    enabled && io.response.TtsReply? && io.response.success && io.response.filePath != ""
  }

  predicate TtsFilePlayed(enabled: bool, io: SpeakIo) {
    TtsUsable(enabled, io) && io.ttsPlayOk
  }

  /** The actions of one `speak`, in order. */
  function SpeakActions(enabled: bool, text: string, opts: SpeakOptions, io: SpeakIo): seq<Action> {
    (if enabled then [TtsPost(text, opts.voice)] else [])
    + (if TtsUsable(enabled, io) then [Execute(Playback, io.response.filePath, io.ttsPlayOk)] else [])
    + (if !TtsFilePlayed(enabled, io) && Truthy(opts.fallbackAudio)
       then [Execute(Playback, opts.fallbackAudio.value, io.fallbackOk)] else [])
  }

  /** The value `speak` resolves to. */
  predicate SpeakResult(enabled: bool, opts: SpeakOptions, io: SpeakIo) {
    TtsFilePlayed(enabled, io) || (Truthy(opts.fallbackAudio) && io.fallbackOk)
  }

  /** The files that played to completion, in order. */
  function Played(actions: seq<Action>): seq<string> {
    if actions == [] then []
    else (if actions[0].Execute? && actions[0].app == Playback && actions[0].ok then [actions[0].arg] else [])
         + Played(actions[1..])
  }

  lemma {:induction false} PlayedAppend(a: seq<Action>, b: seq<Action>)
    ensures Played(a + b) == Played(a) + Played(b)
    decreases |a|
  {
    if a != [] {
      var head := if a[0].Execute? && a[0].app == Playback && a[0].ok then [a[0].arg] else [];
      assert (a + b)[0] == a[0];
      assert (a + b)[1..] == a[1..] + b;
      PlayedAppend(a[1..], b);
      assert Played(a + b) == head + Played(a[1..] + b);
      assert Played(a) == head + Played(a[1..]);
    } else {
      assert a + b == b;
    }
  }

  /** `speak` plays at most one of the TTS file and the fallback file, and
      resolves to true exactly when one of them played. */
  lemma SpeakPlaysAtMostOne(enabled: bool, text: string, opts: SpeakOptions, io: SpeakIo)
    ensures |Played(SpeakActions(enabled, text, opts, io))| <= 1
    ensures SpeakResult(enabled, opts, io) <==> |Played(SpeakActions(enabled, text, opts, io))| == 1
    ensures Played(SpeakActions(enabled, text, opts, io)) ==
      if TtsFilePlayed(enabled, io) then [io.response.filePath]
      else if Truthy(opts.fallbackAudio) && io.fallbackOk then [opts.fallbackAudio.value]
      else []
  {
    var a := if enabled then [TtsPost(text, opts.voice)] else [];
    var b := if TtsUsable(enabled, io) then [Execute(Playback, io.response.filePath, io.ttsPlayOk)] else [];
    var c := if !TtsFilePlayed(enabled, io) && Truthy(opts.fallbackAudio)
             then [Execute(Playback, opts.fallbackAudio.value, io.fallbackOk)] else [];
    PlayedAppend(a + b, c);
    PlayedAppend(a, b);
    assert Played(a) == [] by {
      if enabled {
        assert Played(a) == [] + Played(a[1..]);
      }
    }
  }

  /** With TTS disabled no request is made and only the fallback counts. */
  lemma SpeakWithoutTts(text: string, opts: SpeakOptions, io: SpeakIo)
    ensures forall k :: 0 <= k < |SpeakActions(false, text, opts, io)| ==> !SpeakActions(false, text, opts, io)[k].TtsPost?
    ensures SpeakResult(false, opts, io) <==> Truthy(opts.fallbackAudio) && io.fallbackOk
  {
  }

  // ---------------------------------------------------------------------
  // collectDigits' argument string
  // ---------------------------------------------------------------------

  /** The argument string collectDigits passes to `read`. minDigits and
      maxDigits are not part of it: it always begins "0 1". */
  function ReadArgs(o: CollectOptions): string {
    "0 1 " + TemplateText(o.fallbackAudio) + " " + Decimal(o.timeout) + " " + o.terminators
  }

  /** The space-separated fields of a string. */
  function SplitSpaces(s: string): (fields: seq<string>)
    ensures |fields| >= 1
    decreases |s|
  {
    if s == [] then [""]
    else
      var rest := SplitSpaces(s[1..]);
      if s[0] == ' ' then [""] + rest else [[s[0]] + rest[0]] + rest[1..]
  }

  lemma {:induction false} SplitSpacesField(a: string, b: string)
    requires ' ' !in a
    ensures SplitSpaces(a + " " + b) == [a] + SplitSpaces(b)
    decreases |a|
  {
    if a == [] {
      assert (a + " " + b)[1..] == b;
    } else {
      assert (a + " " + b)[1..] == a[1..] + " " + b;
      SplitSpacesField(a[1..], b);
      assert [a[0]] + a[1..] == a;
    }
  }

  lemma {:induction false} SplitSpacesWhole(a: string)
    requires ' ' !in a
    ensures SplitSpaces(a) == [a]
    decreases |a|
  {
    if a != [] {
      SplitSpacesWhole(a[1..]);
      assert [a[0]] + a[1..] == a;
    }
  }

  lemma DecimalHasNoSpace(n: nat)
    ensures ' ' !in Decimal(n)
  {
  }

  /** The argument string has exactly five space-separated fields: "0",
      "1", the fallback file, the timeout's digits and the terminators,
      provided the file and the terminators contain no space; the fourth
      field reads back as the timeout. (FreeSWITCH's `read` expects six
      fields, with a variable name before the timeout; how it interprets
      this string is not part of the model.) */
  lemma ReadArgsFields(o: CollectOptions)
    requires ' ' !in TemplateText(o.fallbackAudio) && ' ' !in o.terminators
    ensures SplitSpaces(ReadArgs(o)) ==
      ["0", "1", TemplateText(o.fallbackAudio), Decimal(o.timeout), o.terminators]
    ensures AllDigits(SplitSpaces(ReadArgs(o))[3]) && DigitsValue(SplitSpaces(ReadArgs(o))[3]) == o.timeout
  {
    var f, t, m := TemplateText(o.fallbackAudio), Decimal(o.timeout), o.terminators;
    DecimalHasNoSpace(o.timeout);
    DecimalRoundTrip(o.timeout);
    var s3 := t + " " + m;
    var s2 := f + " " + s3;
    var s1 := "1" + " " + s2;
    var s0 := "0" + " " + s1;
    assert ReadArgs(o) == s0;
    SplitSpacesWhole(m);
    SplitSpacesField(t, m);
    SplitSpacesField(f, s3);
    SplitSpacesField("1", s2);
    SplitSpacesField("0", s1);
  }

  /** With the defaults the argument is "0 1 null 5000 #". */
  lemma DefaultReadArgs()
    ensures ReadArgs(DefaultCollectOptions) == "0 1 null 5000 #"
  {
    assert Decimal(5000) == "5000" by {
      assert Decimal(5) == "5";
      assert Decimal(50) == "50";
      assert Decimal(500) == "500";
    }
  }

  const TransferLead := "Transferring your call to "
  const TransferTail := ". Please wait."

  /** The words playTransferring speaks: the destination between a fixed
      lead and a fixed tail. */
  function TransferMessage(destination: string): string {
    TransferLead + destination + TransferTail
  }

  /** Different destinations are announced with different words. */
  lemma TransferMessageInjective(d1: string, d2: string)
    requires TransferMessage(d1) == TransferMessage(d2)
    ensures d1 == d2
  {
    var m1, m2 := TransferMessage(d1), TransferMessage(d2);
    assert |d1| == |d2|;
    assert d1 == m1[|TransferLead|..|m1| - |TransferTail|];
    assert d2 == m2[|TransferLead|..|m2| - |TransferTail|];
  }

  class Helper {
    var ttsEnabled: bool
    var log: seq<Action>

    /** The constructor sets the flag; the health probe it starts without
        awaiting is CheckTtsService. */
    constructor ()
      ensures ttsEnabled && log == []
    {
      ttsEnabled := true;
      log := [];
    }

    /** checkTTSService: the flag follows the outcome of the health probe. */
    method CheckTtsService(healthy: bool)
      modifies this
      ensures ttsEnabled == healthy
      ensures log == old(log) + [HealthProbe(healthy)]
    {
      log := log + [HealthProbe(healthy)];
      ttsEnabled := healthy;
    }

    /** speak: TTS first when enabled, then the fallback file, else nothing. */
    method Speak(text: string, opts: SpeakOptions, io: SpeakIo) returns (played: bool)
      modifies this`log
      ensures log == old(log) + SpeakActions(ttsEnabled, text, opts, io)
      ensures played == SpeakResult(ttsEnabled, opts, io)
    {
      if ttsEnabled {
        log := log + [TtsPost(text, opts.voice)];
        if io.response.TtsReply? && io.response.success && io.response.filePath != "" {
          log := log + [Execute(Playback, io.response.filePath, io.ttsPlayOk)];
          if io.ttsPlayOk {
            played := true;
            return;
          }
        }
      }
      if opts.fallbackAudio.Some? && opts.fallbackAudio.value != "" {
        log := log + [Execute(Playback, opts.fallbackAudio.value, io.fallbackOk)];
        if io.fallbackOk {
          played := true;
          return;
        }
      }
      played := false;
    }

    /** A FreeSWITCH execute wrapped in try/catch: true when it completes,
        false when it throws. */
    method ExecuteGuarded(app: string, arg: string, ok: bool) returns (completed: bool)
      modifies this`log
      ensures completed == ok
      ensures log == old(log) + [Execute(app, arg, ok)]
    {
      log := log + [Execute(app, arg, ok)];
      completed := ok;
    }

    method PlayRingingTone(ok: bool) returns (completed: bool)
      modifies this`log
      ensures completed == ok
      ensures log == old(log) + [Execute(Ringback, RingbackTone, ok)]
    {
      completed := ExecuteGuarded(Ringback, RingbackTone, ok);
    }

    method PlayConnectionSound(ok: bool) returns (completed: bool)
      modifies this`log
      ensures completed == ok
      ensures log == old(log) + [Execute(Playback, ConnectionTone, ok)]
    {
      completed := ExecuteGuarded(Playback, ConnectionTone, ok);
    }

    method PlayHoldMusic(ok: bool) returns (completed: bool)
      modifies this`log
      ensures completed == ok
      ensures log == old(log) + [Execute(Playback, HoldMusic, ok)]
    {
      completed := ExecuteGuarded(Playback, HoldMusic, ok);
    }

    /** A tone played outside any try/catch, then a prompt: a failing tone
        rejects the whole call (completed == false) before anything is
        spoken. */
    method ToneThenSpeak(tone: string, toneOk: bool, text: string, opts: SpeakOptions, io: SpeakIo)
      returns (completed: bool)
      modifies this`log
      ensures completed == toneOk
      ensures log == old(log) + [Execute(Playback, tone, toneOk)]
                              + (if toneOk then SpeakActions(ttsEnabled, text, opts, io) else [])
    {
      log := log + [Execute(Playback, tone, toneOk)];
      if !toneOk {
        return false;
      }
      var spoken := Speak(text, opts, io);
      completed := true;
    }

    method PlayWelcome(toneOk: bool, io: SpeakIo) returns (completed: bool)
      modifies this`log
      ensures completed == toneOk
      ensures log == old(log) + [Execute(Playback, WelcomeTone, toneOk)]
                              + (if toneOk then SpeakActions(ttsEnabled, WelcomeText, WithFallback(WelcomeAudio), io) else [])
    {
      completed := ToneThenSpeak(WelcomeTone, toneOk, WelcomeText, WithFallback(WelcomeAudio), io);
    }

    /** playMenu never rejects: it is one `speak`. */
    method PlayMenu(menuText: string, io: SpeakIo)
      modifies this`log
      ensures log == old(log) + SpeakActions(ttsEnabled, menuText, WithFallback(PleaseHoldAudio), io)
    {
      var spoken := Speak(menuText, WithFallback(PleaseHoldAudio), io);
    }

    /** playTransferring: the transfer tone, then the transfer message. */
    method PlayTransferring(destination: string, toneOk: bool, io: SpeakIo) returns (completed: bool)
      modifies this`log
      ensures completed == toneOk
      ensures log == old(log) + [Execute(Playback, TransferTone, toneOk)]
        + (if toneOk then SpeakActions(ttsEnabled, TransferMessage(destination), WithFallback(PleaseHoldAudio), io) else [])
    {
      completed := ToneThenSpeak(TransferTone, toneOk, TransferMessage(destination), WithFallback(PleaseHoldAudio), io);
    }

    method PlayAgentConnecting(toneOk: bool, io: SpeakIo) returns (completed: bool)
      modifies this`log
      ensures completed == toneOk
      ensures log == old(log) + [Execute(Playback, AgentTone, toneOk)]
                              + (if toneOk then SpeakActions(ttsEnabled, AgentText, WithFallback(ThankYouAudio), io) else [])
    {
      completed := ToneThenSpeak(AgentTone, toneOk, AgentText, WithFallback(ThankYouAudio), io);
    }

    method PlayInvalidOption(toneOk: bool, io: SpeakIo) returns (completed: bool)
      modifies this`log
      ensures completed == toneOk
      ensures log == old(log) + [Execute(Playback, InvalidTone, toneOk)]
                              + (if toneOk then SpeakActions(ttsEnabled, InvalidText, WithFallback(InvalidAudio), io) else [])
    {
      completed := ToneThenSpeak(InvalidTone, toneOk, InvalidText, WithFallback(InvalidAudio), io);
    }

    /** playGoodbye: the prompt first, then the final tone, whose failure
        rejects. */
    method PlayGoodbye(io: SpeakIo, toneOk: bool) returns (completed: bool)
      modifies this`log
      ensures completed == toneOk
      ensures log == old(log) + SpeakActions(ttsEnabled, GoodbyeText, WithFallback(ThankYouAudio), io)
                              + [Execute(Playback, GoodbyeTone, toneOk)]
    {
      var spoken := Speak(GoodbyeText, WithFallback(ThankYouAudio), io);
      log := log + [Execute(Playback, GoodbyeTone, toneOk)];
      completed := toneOk;
    }

    /** collectDigits: speak the prompt when it is non-empty, then run
        `read`; the digits it returns, or None (null) when it throws. */
    method CollectDigits(promptText: string, opts: CollectOptions, io: SpeakIo, readResult: Option<string>)
      returns (digits: Option<string>)
      modifies this`log
      ensures digits == readResult
      ensures log == old(log)
        + (if promptText != "" then SpeakActions(ttsEnabled, promptText, SpeakOptions(DefaultVoice, opts.fallbackAudio), io) else [])
        + [Execute(ReadApp, ReadArgs(opts), readResult.Some?)]
    {
      if promptText != "" {
        var spoken := Speak(promptText, SpeakOptions(DefaultVoice, opts.fallbackAudio), io);
      }
      log := log + [Execute(ReadApp, ReadArgs(opts), readResult.Some?)];
      digits := readResult;
    }
  }
}

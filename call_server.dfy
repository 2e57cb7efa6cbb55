/** The call handling of drachtio-apps/app-2/index.js: the INVITE router,
    the three call handlers, the `activeCalls` registry keyed by Call-ID,
    teardown on dialog destroy, and the IVR dialog engine (playTTS,
    playIVRMenu, handleDTMF).

    Every collaborator (media server, signalling stack, TTS service,
    LiveKit, Redis, Postgres) is replaced by the outcome it delivers,
    passed in as a parameter, and by the effect it has, appended to
    `trace`. Handlers run to completion; events of one call do not
    interleave. */
module CallServer {
  import opened Common
  import opened Routing

  const EntryMenu := "main"
  const HelloPrompt := "/usr/share/freeswitch/sounds/en/us/callie/ivr/8000/ivr-hello.wav"
  const FallbackTone := "tone_stream://%(200,0,800)"
  const InvalidSelection := "Invalid selection. Please try again."
  const TransferAnnouncement := "Transferring you to extension "
  const RoomEmptyTimeout := 300
  const RoomMaxParticipants := 10
  const RoomCacheTtl := 3600
  const CompletedStatus := "completed"

  /** A row of ivr_menu_options. */
  datatype MenuOption = MenuOption(actionType: string, actionValue: string)

  /** The database as the core reads it: ivr_menus by menu_id (to the
      welcome message), ivr_menu_options by (menu_id, digit); `up` is false
      when every query fails. */
  datatype Db = Db(up: bool, menus: map<string, string>, options: map<(string, string), MenuOption>)

  datatype CallKind = DirectCall | IvrCall | LiveKitCall

  /** An `activeCalls` entry; the dialog, endpoint and media-server handles
      are opaque and left out. */
  datatype Session = Session(kind: CallKind, from: string, to: string, currentMenu: Option<string>, roomName: Option<string>)

  /** The call_logs status each handler writes. */
  function Status(kind: CallKind): string {
    match kind
    case DirectCall => "answered"
    case IvrCall => "ivr"
    case LiveKitCall => "livekit"
  }

  /** Observable effects on the collaborators, in the order issued. */
  datatype Effect =
    | Reply(code: int, reason: string)        // res.send
    | MediaConnected                          // mrf.connect resolved
    | Answered                                // createUAS / connectCaller resolved (200 OK)
    | TtsRequest(text: string)                // POST /tts
    | Play(resource: string, ok: bool)        // a playback and whether it completed
    | RoomCreated(name: string, emptyTimeout: nat, maxParticipants: nat)
    | RoomCached(key: string, ttl: nat)       // Redis SET with EX
    | LogCall(callId: string, from: string, to: string, status: string, room: Option<string>)
    | FinalizeCall(callId: string, status: string)
    | EndpointDestroyed
    | MediaDisconnected

  /** The row logCall writes for a registered session. */
  function LogEntry(callId: string, s: Session): Effect {
    LogCall(callId, s.from, s.to, Status(s.kind), s.roomName)
  }

  /** What the collaborators do during one playTTS: the file the TTS
      service returned (None when the request failed), whether playing it
      succeeded, and whether the fallback tone succeeded. */
  datatype PlayOutcome = PlayOutcome(ttsFile: Option<string>, playOk: bool, toneOk: bool)

  /** Collaborator outcomes during one INVITE. */
  datatype InviteIo = InviteIo(
    mediaOk: bool,         // mrf.connect
    answerOk: bool,        // srf.createUAS / ms.connectCaller
    announceOk: bool,      // the direct-call hello playback
    roomOk: bool,          // LiveKit createRoom
    cacheOk: bool,         // Redis set
    uuid: string,          // uuidv4()
    menuPlay: PlayOutcome) // the first IVR menu prompt

  // ---------------------------------------------------------------------
  // playTTS
  // ---------------------------------------------------------------------

  predicate TtsPlayed(o: PlayOutcome) {
    o.ttsFile.Some? && o.playOk
  }

  /** playTTS completes without throwing. */
  predicate PromptOk(o: PlayOutcome) {
    TtsPlayed(o) || o.toneOk
  }

  /** The effects of one playTTS: the TTS request, the playback of the
      returned file, and the fallback tone when that did not play. */
  function PromptEffects(text: string, o: PlayOutcome): seq<Effect> {
    [TtsRequest(text)]
    + (if o.ttsFile.Some? then [Play(o.ttsFile.value, o.playOk)] else [])
    + (if TtsPlayed(o) then [] else [Play(FallbackTone, o.toneOk)])
  }

  /** The resources the caller actually heard, in order. */
  function Heard(es: seq<Effect>): seq<string> {
    if es == [] then []
    else (if es[0].Play? && es[0].ok then [es[0].resource] else []) + Heard(es[1..])
  }

  lemma {:induction false} HeardAppend(a: seq<Effect>, b: seq<Effect>)
    ensures Heard(a + b) == Heard(a) + Heard(b)
    decreases |a|
  {
    if a != [] {
      var head := if a[0].Play? && a[0].ok then [a[0].resource] else [];
      assert (a + b)[0] == a[0];
      assert (a + b)[1..] == a[1..] + b;
      HeardAppend(a[1..], b);
      assert Heard(a + b) == head + Heard(a[1..] + b);
      assert Heard(a) == head + Heard(a[1..]);
    } else {
      assert a + b == b;
    }
  }

  /** A prompt is heard at most once: the TTS file when it played, else the
      fallback tone when that played; playTTS completes exactly when the
      caller heard one of them. */
  lemma PromptHeard(text: string, o: PlayOutcome)
    ensures Heard(PromptEffects(text, o)) ==
      if TtsPlayed(o) then [o.ttsFile.value] else if o.toneOk then [FallbackTone] else []
    ensures PromptOk(o) <==> |Heard(PromptEffects(text, o))| == 1
  {
    var a := [TtsRequest(text)];
    var b := if o.ttsFile.Some? then [Play(o.ttsFile.value, o.playOk)] else [];
    var c := if TtsPlayed(o) then [] else [Play(FallbackTone, o.toneOk)];
    HeardAppend(a + b, c);
    HeardAppend(a, b);
  }

  // ---------------------------------------------------------------------
  // handleDTMF's option lookup
  // ---------------------------------------------------------------------

  datatype DtmfAction = InvalidDigit | EnterMenu(menuId: string) | Transfer(extension: string) | NoAction

  /** The ivr_menu_options row for the current menu and digit, read as an
      action. A call without a current menu (a non-IVR call) has no row. */
  function DtmfLookup(db: Db, current: Option<string>, digit: string): (a: DtmfAction)
    ensures a == InvalidDigit <==> current.None? || (current.value, digit) !in db.options
    ensures a.EnterMenu? ==> db.options[(current.value, digit)] == MenuOption("menu", a.menuId)
    ensures a.Transfer? ==> db.options[(current.value, digit)] == MenuOption("transfer", a.extension)
    ensures current.Some? && (current.value, digit) in db.options ==>
      var option := db.options[(current.value, digit)];
      && (option.actionType == "menu" ==> a == EnterMenu(option.actionValue))
      && (option.actionType == "transfer" ==> a == Transfer(option.actionValue))
      && (a == NoAction <==> option.actionType != "menu" && option.actionType != "transfer")
  {
    if current.None? || (current.value, digit) !in db.options then InvalidDigit
    else
      var option := db.options[(current.value, digit)];
      if option.actionType == "menu" then EnterMenu(option.actionValue)
      else if option.actionType == "transfer" then Transfer(option.actionValue)
      else NoAction
  }

  /** The route of an INVITE and whether its handler completes. */
  predicate HandlerSucceeds(route: Route, io: InviteIo) {
    match route
    case DirectRoute => io.mediaOk && io.answerOk && io.announceOk
    case IvrRoute => io.mediaOk && io.answerOk
    case LiveKitRoute => io.roomOk && io.cacheOk && io.mediaOk && io.answerOk
    case NotFound => false
  }

  function RoomName(uuid: string): string {
    "call-" + uuid
  }

  /** The registry entry a successful handler creates. */
  function NewSession(route: Route, from: string, to: string, io: InviteIo): Session {
    match route
    case DirectRoute => Session(DirectCall, from, to, None, None)
    case IvrRoute => Session(IvrCall, from, to, Some(EntryMenu), None)
    case LiveKitRoute => Session(LiveKitCall, from, to, None, Some(RoomName(io.uuid)))
    case NotFound => Session(DirectCall, from, to, None, None)
  }

  /** No Reply among the effects. */
  predicate NoReply(es: seq<Effect>) {
    forall k :: 0 <= k < |es| ==> !es[k].Reply?
  }

  /** What a dialog destroy releases before the registry entry goes. */
  function TeardownEffects(kind: CallKind): seq<Effect> {
    (if kind == IvrCall then [EndpointDestroyed] else []) + [MediaDisconnected]
  }

  class Server {
    const db: Db
    var activeCalls: map<string, Session>
    var trace: seq<Effect>

    /** An IVR session always has a current menu, and a current menu is the
        entry menu or one that exists; a room belongs to LiveKit calls only. */
    ghost predicate SessionOk(s: Session) {
      && (s.kind == IvrCall ==> s.currentMenu.Some?)
      && (s.currentMenu.Some? ==> s.currentMenu.value == EntryMenu || s.currentMenu.value in db.menus)
      && (s.kind == LiveKitCall <==> s.roomName.Some?)
    }

    ghost predicate SessionsOk()
      reads this
    {
      forall id :: id in activeCalls ==> SessionOk(activeCalls[id])
    }

    /** Every registered call has had its call_logs row written. */
    ghost predicate AllLogged()
      reads this
    {
      forall id :: id in activeCalls ==> LogEntry(id, activeCalls[id]) in trace
    }

    ghost predicate Valid()
      reads this
    {
      SessionsOk() && AllLogged()
    }

    /** The effects of playIVRMenu for `menuId`. */
    function MenuEffects(menuId: string, o: PlayOutcome): seq<Effect> {
      if db.up && menuId in db.menus then PromptEffects(db.menus[menuId], o) else []
    }

    /** playIVRMenu reaches the currentMenu update. */
    predicate MenuEntered(menuId: string, o: PlayOutcome) {
      db.up && menuId in db.menus && PromptOk(o)
    }

    constructor (db: Db)
      ensures this.db == db && activeCalls == map[] && trace == []
      ensures Valid()
    {
      this.db := db;
      activeCalls := map[];
      trace := [];
    }

    /** playTTS: synthesise and play; on any failure play the fallback tone,
        whose own failure is the exception playTTS throws (ok == false). */
    method PlayTts(text: string, o: PlayOutcome) returns (ok: bool)
      modifies this`trace
      ensures trace == old(trace) + PromptEffects(text, o)
      ensures ok == PromptOk(o)
    {
      trace := trace + [TtsRequest(text)];
      if o.ttsFile.Some? {
        trace := trace + [Play(o.ttsFile.value, o.playOk)];
        if o.playOk {
          ok := true;
          return;
        }
      }
      trace := trace + [Play(FallbackTone, o.toneOk)];
      ok := o.toneOk;
    }

    /** playIVRMenu: a menu without a row (or a failed query) plays nothing
        and changes nothing; otherwise its welcome message is played and,
        when playTTS did not throw, a registered call moves to the menu. */
    method PlayIvrMenu(callId: string, menuId: string, o: PlayOutcome)
      requires SessionsOk()
      modifies this`trace, this`activeCalls
      ensures SessionsOk()
      ensures trace == old(trace) + MenuEffects(menuId, o)
      ensures activeCalls ==
        if MenuEntered(menuId, o) && callId in old(activeCalls)
        then old(activeCalls)[callId := old(activeCalls)[callId].(currentMenu := Some(menuId))]
        else old(activeCalls)
    {
      if !db.up || menuId !in db.menus {
        return;
      }
      var ok := PlayTts(db.menus[menuId], o);
      if !ok {
        return;
      }
      if callId in activeCalls {
        activeCalls := activeCalls[callId := activeCalls[callId].(currentMenu := Some(menuId))];
      }
    }

    /** The 'dtmf' listener (an empty digit is ignored) and handleDTMF.
        `first` and `second` are the outcomes of the prompts it plays. */
    method HandleDtmf(callId: string, digit: string, first: PlayOutcome, second: PlayOutcome)
      requires Valid()
      modifies this`trace, this`activeCalls
      ensures Valid()
      ensures activeCalls.Keys == old(activeCalls).Keys
      ensures digit == "" || callId !in old(activeCalls) || !db.up ==>
        trace == old(trace) && activeCalls == old(activeCalls)
      ensures digit != "" && callId in old(activeCalls) && db.up ==>
        var current := old(activeCalls)[callId].currentMenu;
        match DtmfLookup(db, current, digit)
        case InvalidDigit =>
          && activeCalls == old(activeCalls)
          && trace == old(trace) + PromptEffects(InvalidSelection, first)
                     + (if PromptOk(first) && current.Some? then MenuEffects(current.value, second) else [])
        case EnterMenu(target) =>
          && trace == old(trace) + MenuEffects(target, first)
          && activeCalls ==
               if MenuEntered(target, first)
               then old(activeCalls)[callId := old(activeCalls)[callId].(currentMenu := Some(target))]
               else old(activeCalls)
        case Transfer(extension) =>
          && activeCalls == old(activeCalls)
          && trace == old(trace) + PromptEffects(TransferAnnouncement + extension, first)
        case NoAction =>
          activeCalls == old(activeCalls) && trace == old(trace)
    {
      if digit == "" || callId !in activeCalls || !db.up {
        return;
      }
      var current := activeCalls[callId].currentMenu;
      match DtmfLookup(db, current, digit)
      case InvalidDigit =>
        var ok := PlayTts(InvalidSelection, first);
        if ok && current.Some? {
          ghost var before := activeCalls;
          PlayIvrMenu(callId, current.value, second);
          assert before[callId].(currentMenu := Some(current.value)) == before[callId];
          assert activeCalls == before;
        }
      case EnterMenu(target) =>
        ghost var before := trace;
        PlayIvrMenu(callId, target, first);
        assert AllLogged() by {
          forall id | id in activeCalls ensures LogEntry(id, activeCalls[id]) in trace {
            assert LogEntry(id, activeCalls[id]) in before;
          }
        }
      case Transfer(extension) =>
        var announced := PlayTts(TransferAnnouncement + extension, first);
      case NoAction =>
    }

    /** handleDirectCall: connect the media server, answer, play the hello
        prompt, register, log 'answered'. Any collaborator failure throws
        (ok == false) with nothing registered. */
    method HandleDirectCall(callId: string, from: string, to: string, io: InviteIo) returns (ok: bool)
      requires Valid()
      modifies this`trace, this`activeCalls
      ensures Valid()
      ensures ok == HandlerSucceeds(DirectRoute, io)
      ensures ok ==> activeCalls == old(activeCalls)[callId := NewSession(DirectRoute, from, to, io)]
      ensures !ok ==> activeCalls == old(activeCalls)
      ensures !io.mediaOk ==> trace == old(trace)
      ensures io.mediaOk && !io.answerOk ==> trace == old(trace) + [MediaConnected]
      ensures io.mediaOk && io.answerOk && !io.announceOk ==>
        trace == old(trace) + [MediaConnected, Answered, Play(HelloPrompt, false)]
      ensures ok ==> (trace == old(trace) +
        [MediaConnected, Answered, Play(HelloPrompt, true), LogCall(callId, from, to, "answered", None)])
      ensures old(trace) <= trace && NoReply(trace[|old(trace)|..])
      ensures ok ==> Answered in trace[|old(trace)|..]
    {
      if !io.mediaOk {
        return false;
      }
      trace := trace + [MediaConnected];
      if !io.answerOk {
        return false;
      }
      trace := trace + [Answered, Play(HelloPrompt, io.announceOk)];
      if !io.announceOk {
        return false;
      }
      activeCalls := activeCalls[callId := Session(DirectCall, from, to, None, None)];
      trace := trace + [LogCall(callId, from, to, Status(DirectCall), None)];
      assert trace[|old(trace)|..][1] == Answered;
      ok := true;
    }

    /** handleIVRCall: connect the media server, connect the caller,
        register with currentMenu 'main', play the entry menu, log 'ivr'.
        A failed connectCaller disconnects the media server and throws. */
    method HandleIvrCall(callId: string, from: string, to: string, io: InviteIo) returns (ok: bool)
      requires Valid()
      modifies this`trace, this`activeCalls
      ensures Valid()
      ensures ok == HandlerSucceeds(IvrRoute, io)
      ensures ok ==> activeCalls == old(activeCalls)[callId := NewSession(IvrRoute, from, to, io)]
      ensures !ok ==> activeCalls == old(activeCalls)
      ensures !io.mediaOk ==> trace == old(trace)
      ensures io.mediaOk && !io.answerOk ==> trace == old(trace) + [MediaConnected, MediaDisconnected]
      ensures ok ==> trace == old(trace) + [MediaConnected, Answered] + MenuEffects(EntryMenu, io.menuPlay)
                              + [LogCall(callId, from, to, "ivr", None)]
      ensures old(trace) <= trace && NoReply(trace[|old(trace)|..])
      ensures ok ==> Answered in trace[|old(trace)|..]
    {
      if !io.mediaOk {
        return false;
      }
      trace := trace + [MediaConnected];
      if !io.answerOk {
        trace := trace + [MediaDisconnected];
        return false;
      }
      trace := trace + [Answered];
      ghost var before := trace;
      var session := Session(IvrCall, from, to, Some(EntryMenu), None);
      activeCalls := activeCalls[callId := session];
      PlayIvrMenu(callId, EntryMenu, io.menuPlay);
      // re-entering 'main' leaves the new entry as it was
      assert activeCalls == old(activeCalls)[callId := session];
      trace := trace + [LogCall(callId, from, to, Status(IvrCall), None)];
      assert AllLogged() by {
        forall id | id in activeCalls ensures LogEntry(id, activeCalls[id]) in trace {
          if id != callId {
            assert LogEntry(id, activeCalls[id]) in old(trace);
            assert old(trace) <= before <= trace;
          }
        }
      }
      assert trace[|old(trace)|..][1] == Answered;
      ok := true;
    }

    /** handleLiveKitCall: create the room, cache it in Redis, connect the
        media server, answer, register with the room, log 'livekit'. */
    method HandleLiveKitCall(callId: string, from: string, to: string, io: InviteIo) returns (ok: bool)
      requires Valid()
      modifies this`trace, this`activeCalls
      ensures Valid()
      ensures ok == HandlerSucceeds(LiveKitRoute, io)
      ensures ok ==> activeCalls == old(activeCalls)[callId := NewSession(LiveKitRoute, from, to, io)]
      ensures !ok ==> activeCalls == old(activeCalls)
      ensures old(trace) <= trace
      ensures !io.roomOk ==> trace == old(trace)
      ensures io.roomOk && !io.cacheOk ==>
        trace == old(trace) + [RoomCreated(RoomName(io.uuid), RoomEmptyTimeout, RoomMaxParticipants)]
      ensures io.roomOk && io.cacheOk && !io.mediaOk ==>
        trace == old(trace) + [RoomCreated(RoomName(io.uuid), RoomEmptyTimeout, RoomMaxParticipants),
                               RoomCached("room:" + callId, RoomCacheTtl)]
      ensures io.roomOk && io.cacheOk && io.mediaOk && !io.answerOk ==>
        trace == old(trace) + [RoomCreated(RoomName(io.uuid), RoomEmptyTimeout, RoomMaxParticipants),
                               RoomCached("room:" + callId, RoomCacheTtl), MediaConnected]
      ensures ok ==> (trace == old(trace) +
        [ RoomCreated(RoomName(io.uuid), RoomEmptyTimeout, RoomMaxParticipants),
          RoomCached("room:" + callId, RoomCacheTtl), MediaConnected, Answered,
          LogCall(callId, from, to, "livekit", Some(RoomName(io.uuid))) ])
      ensures NoReply(trace[|old(trace)|..]) && (ok ==> Answered in trace[|old(trace)|..])
    {
      if !io.roomOk {
        return false;
      }
      var room := RoomName(io.uuid);
      trace := trace + [RoomCreated(room, RoomEmptyTimeout, RoomMaxParticipants)];
      if !io.cacheOk {
        return false;
      }
      trace := trace + [RoomCached("room:" + callId, RoomCacheTtl)];
      if !io.mediaOk {
        return false;
      }
      trace := trace + [MediaConnected];
      if !io.answerOk {
        return false;
      }
      trace := trace + [Answered];
      activeCalls := activeCalls[callId := Session(LiveKitCall, from, to, None, Some(room))];
      trace := trace + [LogCall(callId, from, to, Status(LiveKitCall), Some(room))];
      ok := true;
    }

    /** The INVITE handler: route on the To URI's user part; an unmatched
        destination gets 404 and nothing else; a handler that throws gets
        500; a handler that completes has answered and registered the call. */
    method HandleInvite(callId: string, from: string, toUri: string, io: InviteIo)
      requires Valid()
      modifies this`trace, this`activeCalls
      ensures Valid()
      ensures old(trace) <= trace
      ensures RouteInvite(toUri) == NotFound ==>
        trace == old(trace) + [Reply(404, "Not Found")] && activeCalls == old(activeCalls)
      ensures RouteInvite(toUri) != NotFound && !HandlerSucceeds(RouteInvite(toUri), io) ==>
        && activeCalls == old(activeCalls)
        && |trace| > |old(trace)|
        && trace[|trace| - 1] == Reply(500, "Server Error")
        && NoReply(trace[|old(trace)|..|trace| - 1])
      ensures HandlerSucceeds(RouteInvite(toUri), io) ==>
        && activeCalls == old(activeCalls)[callId := NewSession(RouteInvite(toUri), from, toUri, io)]
        && NoReply(trace[|old(trace)|..])
        && Answered in trace[|old(trace)|..]
    {
      var route := RouteInvite(toUri);
      var ok: bool;
      match route {
        case NotFound =>
          trace := trace + [Reply(404, "Not Found")];
          return;
        case DirectRoute =>
          ok := HandleDirectCall(callId, from, toUri, io);
        case IvrRoute =>
          ok := HandleIvrCall(callId, from, toUri, io);
        case LiveKitRoute =>
          ok := HandleLiveKitCall(callId, from, toUri, io);
      }
      ghost var handled := trace;
      if !ok {
        trace := trace + [Reply(500, "Server Error")];
        assert trace[|old(trace)|..|trace| - 1] == handled[|old(trace)|..];
      }
    }

    /** The dialog 'destroy' listener every handler installs: release the
        media (and, for IVR, the endpoint), remove the Call-ID from
        activeCalls, then finalize the call_logs row as 'completed'. */
    method OnDestroy(callId: string)
      requires Valid() && callId in activeCalls
      modifies this`trace, this`activeCalls
      ensures Valid()
      ensures activeCalls == old(activeCalls) - {callId}
      ensures trace == old(trace) + TeardownEffects(old(activeCalls)[callId].kind)
                                  + [FinalizeCall(callId, CompletedStatus)]
    {
      if activeCalls[callId].kind == IvrCall {
        trace := trace + [EndpointDestroyed];
      }
      trace := trace + [MediaDisconnected];
      activeCalls := activeCalls - {callId};
      trace := trace + [FinalizeCall(callId, CompletedStatus)];
    }
  }
}

# Call routing and IVR core of the drachtio applications, in Dafny

This project models two parts of a SIP voice platform built on drachtio
(SIP signalling) and FreeSWITCH (media).

The first is the call server of `drachtio-apps/app-2/index.js`:

- the INVITE router takes the user part of the To URI with the pattern
  `sip:(\d+)@` and sends `6000` to the direct-call handler, `9999` to the IVR
  handler, anything that starts with `555` to the LiveKit handler, and
  answers everything else with `404 Not Found`;
- the three handlers connect the media server, answer, register the call
  in `activeCalls` (keyed by Call-ID) and write a `call_logs` row; a handler
  that throws makes the router answer `500 Server Error`;
- the dialog `destroy` listener releases the media, removes the call from
  `activeCalls` and marks the row `completed`;
- the IVR engine: `playTTS` (synthesise, play, fall back to a tone),
  `playIVRMenu` (play a menu's welcome message and make it the call's
  current menu) and `handleDTMF` (look the digit up in the current menu's
  options and move to a sub-menu, announce a transfer, or re-prompt).

The second is the `AudioHelper` class of `drachtio-apps/app-1/audioHelper.js`:
a TTS availability flag set by a health probe, `speak` (TTS first, then a
pre-recorded fallback file), `collectDigits` (an optional prompt, then the
FreeSWITCH `read` application with a positional argument string) and the
tone and prompt wrappers.

Every collaborator (media server, signalling stack, TTS service, LiveKit,
Redis, PostgreSQL) is replaced by the outcome it delivers, passed in as a
parameter, and by what the core asks of it, appended to an effect trace
(`CallServer.Server.trace`, `AudioHelper.Helper.log`). A failing
collaborator is an outcome flag; a handler that throws returns `false`.
The database is a value `Db` holding the `ivr_menus` and
`ivr_menu_options` rows and an `up` flag that makes every query fail.

Files:

- `common.dfy` (`Common`) holds optional values, decimal digit strings and
  the rendering of a number in a template literal.
- `routing.dfy` (`Routing`) holds the pattern match, the classification
  and the routing table.
- `call_server.dfy` (`CallServer`) holds the `Server` class with
  `activeCalls`, the handlers, teardown and the IVR engine.
- `audio_helper.dfy` (`AudioHelper`) holds the `Helper` class.
- `scenarios.dfy` (`Scenarios`) drives whole calls through the contracts
  alone: an unknown destination, a direct call and its teardown, an IVR
  call entering menu `main`, a transfer and an invalid digit, and `speak`
  with the TTS service down.

Some facts about the code that the model reproduces:

- the direct-call handler logs the status `answered`;
- the destroy listener deletes the registry entry before it finalizes
  the log row, and nothing guards against a second destroy;
- each call has one leg, answered with the media server's SDP;
- `speak` makes no TTS request at all while the flag is false;
- only the IVR handler disconnects the media server when answering
  fails; the direct and LiveKit handlers leave it connected;
- the direct handler answers before it plays the hello prompt, so a
  failed prompt leads to `500` after the call has been answered, with the
  call neither registered nor logged (`CallServer.Server.HandleDirectCall`
  and `CallServer.Server.HandleInvite` state this trace).

## Model

| member | source | states |
|---|---|---|
| Common.Decimal | drachtio-apps/app-1/audioHelper.js:216 | a non-negative integer below 10^21 rendered in a template literal is a non-empty digit string with no leading zero unless the number is 0 |
| Common.DecimalRoundTrip | drachtio-apps/app-1/audioHelper.js:216 | reading the rendered digits back gives the number |
| Common.DecimalInjective | drachtio-apps/app-1/audioHelper.js:216 | distinct timeouts render as distinct text |
| Routing.ExtractUser | drachtio-apps/app-2/index.js:100 | a captured user part is a non-empty run of digits |
| Routing.ExtractUserSound | drachtio-apps/app-2/index.js:100 | whatever is captured is the group of the leftmost match of `sip:(\d+)@` |
| Routing.ExtractUserComplete | drachtio-apps/app-2/index.js:100 | the group of the leftmost match is what is captured |
| Routing.ExtractUserNone | drachtio-apps/app-2/index.js:100 | nothing is captured exactly when the pattern matches nowhere in the URI |
| Routing.ExtractUserOfSipUri | drachtio-apps/app-2/index.js:100 | for `sip:<digits>@<host>` the capture is exactly the digits |
| Routing.Classify | drachtio-apps/app-2/index.js:105-115 | direct iff the user is `6000`, IVR iff `9999`, LiveKit iff the user starts with `555`, not found iff none of these or no user |
| Routing.RouteInvite | drachtio-apps/app-2/index.js:100-115 | a To URI in which the pattern matches nowhere is routed to not found |
| Routing.FirstMatch | drachtio-apps/app-2/index.js:105-115 | when no rule matches the route is not found; otherwise it is the route of a matching rule before which no rule matches |
| Routing.ClassifyIsFirstMatch | drachtio-apps/app-2/index.js:105-115 | the if/else chain equals first-match evaluation of the table exact 6000, exact 9999, prefix 555 |
| CallServer.PromptHeard | drachtio-apps/app-2/index.js:242-256 | a prompt is heard at most once: the TTS file when it played, else the fallback tone when it played; playTTS completes exactly when one was heard |
| CallServer.DtmfLookup | drachtio-apps/app-2/index.js:294-313 | a digit is invalid exactly when the current menu has no option row for it; a `menu` row enters its `action_value` and a `transfer` row announces its `action_value`, and conversely; any other action type does nothing |
| CallServer.Server.constructor | drachtio-apps/app-2/index.js:53 | `activeCalls` starts empty, with nothing issued |
| CallServer.Server.PlayTts | drachtio-apps/app-2/index.js:242-256 | the TTS request, the playback of the returned file, the fallback tone when that did not play; completes unless the tone fails too |
| CallServer.Server.PlayIvrMenu | drachtio-apps/app-2/index.js:259-284 | a missing menu row or failed query plays nothing and changes nothing; otherwise the welcome message plays and, unless playTTS threw, a registered call's current menu becomes the menu |
| CallServer.Server.HandleDtmf | drachtio-apps/app-2/index.js:287-317 | an empty digit, an unregistered call or a failed query does nothing; an invalid digit plays the error prompt then replays the current menu without changing it; a `menu` option enters the menu; a `transfer` option only announces; no digit ever removes or adds a call |
| CallServer.Server.HandleDirectCall | drachtio-apps/app-2/index.js:123-157 | completes exactly when media, answer and hello prompt succeed; then the call is registered and logged `answered` after being answered; otherwise nothing is registered |
| CallServer.Server.HandleIvrCall | drachtio-apps/app-2/index.js:160-226 | completes exactly when media and connectCaller succeed; the call is registered in menu `main`, the entry menu plays, and the row is logged `ivr`; a failed connectCaller disconnects the media server |
| CallServer.Server.HandleLiveKitCall | drachtio-apps/app-2/index.js:322-388 | the room `call-<uuid>` is created first (timeout 300, 10 participants), cached under `room:<Call-ID>` for 3600 s, then the call is answered, registered with its room and logged `livekit`; a failed room creation, Redis set, media connect or answer stops there with exactly the steps before it, nothing registered or logged and the media server not disconnected |
| CallServer.Server.HandleInvite | drachtio-apps/app-2/index.js:95-120 | an unrouted destination gets exactly one 404 and nothing else; a failed handler ends with one 500 and registers nothing; a completed handler registers the call and has answered it, with no reply sent |
| CallServer.Server.OnDestroy | drachtio-apps/app-2/index.js:147-152 | the `destroy` listeners of the direct (lines 147-152), IVR (206-212) and LiveKit (378-383) handlers: the media (and the IVR endpoint) are released, the Call-ID leaves `activeCalls`, and the row is finalized as `completed`; every remaining call stays logged |
| AudioHelper.Helper.constructor | drachtio-apps/app-1/audioHelper.js:12-15 | TTS starts enabled |
| AudioHelper.Helper.CheckTtsService | drachtio-apps/app-1/audioHelper.js:17-26 | the flag is the outcome of the health probe |
| AudioHelper.Helper.Speak | drachtio-apps/app-1/audioHelper.js:61-101 | TTS is requested only when enabled; the file plays when the reply names one; the fallback plays when TTS did not and a fallback is given; resolves true exactly when one played |
| AudioHelper.SpeakPlaysAtMostOne | drachtio-apps/app-1/audioHelper.js:61-101 | at most one file plays, and speak resolves true exactly when one did |
| AudioHelper.SpeakWithoutTts | drachtio-apps/app-1/audioHelper.js:65-100 | with TTS disabled no TTS request is made and the result is the fallback's outcome |
| AudioHelper.Helper.ExecuteGuarded | drachtio-apps/app-1/audioHelper.js:31-41 | a guarded execute resolves to whether it completed |
| AudioHelper.Helper.PlayRingingTone | drachtio-apps/app-1/audioHelper.js:31-41 | one `ringback ${us-ring}`; true exactly when it completed |
| AudioHelper.Helper.PlayConnectionSound | drachtio-apps/app-1/audioHelper.js:46-56 | one playback of the connection tone; true exactly when it completed |
| AudioHelper.Helper.PlayHoldMusic | drachtio-apps/app-1/audioHelper.js:158-167 | one playback of the hold music; true exactly when it completed |
| AudioHelper.Helper.PlayWelcome | drachtio-apps/app-1/audioHelper.js:106-116 | the welcome tone, then the welcome text with its fallback; a failed tone rejects before anything is spoken |
| AudioHelper.Helper.PlayMenu | drachtio-apps/app-1/audioHelper.js:121-125 | one speak of the menu text with the please-hold fallback |
| AudioHelper.TransferMessageInjective | drachtio-apps/app-1/audioHelper.js:131 | different destinations are announced differently |
| AudioHelper.Helper.PlayTransferring | drachtio-apps/app-1/audioHelper.js:130-139 | the transfer tone, then the transfer message; a failed tone rejects before anything is spoken |
| AudioHelper.Helper.PlayAgentConnecting | drachtio-apps/app-1/audioHelper.js:144-153 | the agent tone, then the agent text; a failed tone rejects |
| AudioHelper.Helper.PlayInvalidOption | drachtio-apps/app-1/audioHelper.js:172-181 | the error tone, then the invalid-option text; a failed tone rejects |
| AudioHelper.Helper.PlayGoodbye | drachtio-apps/app-1/audioHelper.js:186-195 | the goodbye text first, then the final tone, whose failure rejects |
| AudioHelper.ReadArgsFields | drachtio-apps/app-1/audioHelper.js:216 | the argument string has exactly five space-separated fields: `0`, `1`, the fallback file (`null` when absent), the timeout's digits and the terminators; the fourth field reads back as the timeout |
| AudioHelper.DefaultReadArgs | drachtio-apps/app-1/audioHelper.js:201-216 | with the defaults the argument is `0 1 null 5000 #` |
| AudioHelper.Helper.CollectDigits | drachtio-apps/app-1/audioHelper.js:200-222 | a non-empty prompt is spoken first, then `read` runs once; the result is what `read` returned, or none when it threw |

## Left out

- Connecting to drachtio and to PostgreSQL, Redis and LiveKit, the
  environment variables and the process shutdown are not modelled; they
  are configuration and I/O.
- The `From` and `To` headers are taken as already parsed. A header that
  fails to parse throws inside the router's try block and would get 500.
- The second comparison `toUser === 9999` is left out. The capture is a
  string or undefined, so it is never true.
- The access token (JWT) and the JSON value stored in Redis are left out.
  Only the key and its expiry are recorded.
- `uuidv4()` is an input. The room name is `call-` followed by it.
- `speed` (a floating-point number) and the request options `cache` and
  `timeout` are left out. The TTS request of app-2 is recorded by its text
  only, since the voice is always `default` there.
- `CallServer.Server.PlayIvrMenu`, `CallServer.Server.HandleDtmf`: a query
  that fails only some of the time is not modelled. `Db.up` makes every
  query of a call fail, or none.
- The `call_logs` writes are recorded as issued. Their own failures are
  caught in the source and change nothing else.
- Event interleaving is left out: handlers and listeners run to
  completion one at a time. A DTMF or destroy event that arrives while a
  handler is still awaiting is not modelled.
- `CallServer.Server.OnDestroy` requires the call to be registered. The
  source installs the listener only after registration, so this is the
  only way it runs. A repeated destroy is not modelled.
- The cleanup in the IVR handler's catch block is modelled only for a
  failed `connectCaller`. Every later step catches its own errors, so no
  later throw reaches it.
- `CallServer.Server.HandleInvite` states the registry and the reply but
  not the whole effect sequence of a completed handler. Each handler's own
  contract states that sequence.
- The transfer itself is not modelled. The source only announces it.
- `CallServer.Server.HandleDirectCall`, `CallServer.Server.HandleLiveKitCall`:
  the model takes a successful `srf.createUAS` to yield the dialog that the
  handler destructures, so that installing the `destroy` listener succeeds.
  The signalling library is not part of this model. If `createUAS`
  resolves to the dialog itself, as drachtio-srf documents, the
  destructured `dialog` is undefined. Then installing the listener throws
  after the call is registered and logged: the router sends 500 on an
  answered call, and the registry entry is never removed. The model does
  not capture that path.
- `CallServer.Server.HandleDirectCall`: the hello prompt is `ms.api`, a
  command sent to the media server rather than a playback on the call's
  endpoint. It is modelled only by whether it completes.
- `Common.Decimal`: the `collectDigits` timeout is a non-negative integer
  below 10^21. A template literal renders larger numbers in exponent form
  (`1e+21`), and negative or fractional numbers with a sign or a point,
  which the model does not cover.
- `AudioHelper.ReadArgsFields` speaks of the argument string only.
  FreeSWITCH's `read` expects `<min> <max> <sound file> <variable name>
  <timeout> <terminators>`. The string built at
  `drachtio-apps/app-1/audioHelper.js:216` has no variable-name field, so
  the timeout sits where `read` expects a variable name. How FreeSWITCH
  interprets it is not modelled.
- `AudioHelper.Helper.CollectDigits`: the value `read` resolves to is an
  input, modelled as optional digits. `minDigits` and `maxDigits` are
  accepted but unused, as in the source.
- The `AudioHelper` module exports a single instance. Its constructor
  starts the health probe without awaiting it. Here the probe is the
  separate call `AudioHelper.Helper.CheckTtsService`.
- Logging (including the 50-character excerpt of the spoken text) is
  left out.

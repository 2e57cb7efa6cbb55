/** Walk-throughs that use only the contracts of the model, in the manner
    of a client: each call scenario is driven through the server's methods
    and what the caller and the collaborators observe is asserted. */
module Scenarios {
  import opened Common
  import opened Routing
  import opened CallServer
  import opened AudioHelper

  /** An INVITE to 0000 is refused with 404; nothing is registered or logged. */
  method UnknownDestination(io: InviteIo)
  {
    var server := new Server(Db(true, map[], map[]));
    var uri := SipScheme + "0000" + "@" + "pbx.example";
    assert AllDigits("0000");
    ExtractUserOfSipUri("0000", "pbx.example");
    server.HandleInvite("call-1", "sip:100@pbx.example", uri, io);
    assert server.trace == [Reply(404, "Not Found")];
    assert server.activeCalls == map[];
  }

  /** An INVITE to 6000 is answered and registered; a destroy removes it
      and finalizes the log row. */
  method DirectCallTornDown()
  {
    var server := new Server(Db(true, map[], map[]));
    var uri := SipScheme + "6000" + "@" + "pbx.example";
    assert AllDigits("6000");
    ExtractUserOfSipUri("6000", "pbx.example");
    var io := InviteIo(true, true, true, false, false, "", PlayOutcome(None, false, false));
    server.HandleInvite("call-2", "sip:100@pbx.example", uri, io);
    assert server.activeCalls == map["call-2" := Session(DirectCall, "sip:100@pbx.example", uri, None, None)];
    ghost var before := server.trace;
    server.OnDestroy("call-2");
    assert server.activeCalls == map[];
    assert server.trace == before + [MediaDisconnected, FinalizeCall("call-2", "completed")];
  }

  /** An INVITE to 9999 is registered in menu "main". */
  method IvrCallStartsInMain(db: Db, tts: PlayOutcome)
  {
    var server := new Server(db);
    var uri := SipScheme + "9999" + "@" + "pbx.example";
    assert AllDigits("9999");
    ExtractUserOfSipUri("9999", "pbx.example");
    var io := InviteIo(true, true, true, true, true, "", tts);
    server.HandleInvite("call-3", "sip:100@pbx.example", uri, io);
    assert server.activeCalls["call-3"].currentMenu == Some("main");
  }

  /** In menu "main", digit 1 maps to a transfer to 201, which is only
      announced; an unknown digit re-prompts. Neither changes the registry. */
  method IvrTransferAnnounced(tts: PlayOutcome)
  {
    var db := Db(true, map["main" := "Press 1 for sales."], map[("main", "1") := MenuOption("transfer", "201")]);
    var server := new Server(db);
    var io := InviteIo(true, true, true, true, true, "", tts);
    var answered := server.HandleIvrCall("call-3", "sip:100@pbx.example", "sip:9999@pbx.example", io);
    ghost var registry := server.activeCalls;
    assert registry["call-3"].currentMenu == Some("main");

    ghost var before := server.trace;
    assert DtmfLookup(db, Some("main"), "1") == Transfer("201");
    server.HandleDtmf("call-3", "1", tts, tts);
    assert server.activeCalls == registry;
    assert TransferAnnouncement + "201" == "Transferring you to extension 201";
    assert server.trace == before + PromptEffects("Transferring you to extension 201", tts);

    before := server.trace;
    assert DtmfLookup(db, Some("main"), "7") == InvalidDigit;
    server.HandleDtmf("call-3", "7", tts, tts);
    assert server.activeCalls == registry;
    assert server.trace[..|before| + 1] == before + [TtsRequest("Invalid selection. Please try again.")];
  }

  /** With the TTS service down, speak goes straight to the fallback file. */
  method SpeakWhenTtsDown(io: SpeakIo)
  {
    var helper := new Helper();
    helper.CheckTtsService(false);
    var played := helper.Speak("Hello", WithFallback(PleaseHoldAudio), io);
    assert played == io.fallbackOk;
    assert helper.log == [HealthProbe(false), Execute(Playback, PleaseHoldAudio, io.fallbackOk)];
  }
}

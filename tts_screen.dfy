/**
 * The text-to-speech screen: the text typed in is sent to the server's
 * `tts` endpoint, the spoken reply it names is played and remembered, and
 * the remembered reply can be played again.
 *
 * The server's reply and whether the player starts are inputs of the
 * handlers.
 */
module TtsScreen {
  import opened Wrappers
  import opened Text
  import ServerUrl

  /**
   * The `tts` request as the handler sees it: a failure (network error,
   * status not OK, unreadable body) or the optional `tts_url` field of the
   * JSON body.
   */
  datatype TtsReply = TtsFailed | TtsReplied(ttsUrl: Option<string>)

  /** Whether a reply names audio to play: it succeeded and its `tts_url` is set and non-empty. */
  predicate Speaks(reply: TtsReply) {
    reply.TtsReplied? && Truthy(reply.ttsUrl)
  }

  /** The `tts` request: the URL it is posted to and the `text` field of its JSON body. */
  datatype TtsRequest = TtsRequest(url: string, text: string)

  class Screen {
    const serverUrl: Option<string>
    var textToSpeak: string
    var isProcessing: bool
    var isPlaying: bool
    var lastTtsUrl: Option<string>
    /** What the native player is playing, if anything. */
    var playerSource: Option<string>

    /** The state between handlers: no request under way, and the player busy exactly when flagged. */
    predicate Valid()
      reads this`isProcessing, this`isPlaying, this`playerSource
    {
      !isProcessing && isPlaying == playerSource.Some?
    }

    /** The screen as first rendered. */
    constructor (serverUrl: Option<string>)
      ensures Valid()
      ensures this.serverUrl == serverUrl && textToSpeak == "" && lastTtsUrl.None? && !isPlaying
    {
      this.serverUrl := serverUrl;
      textToSpeak := "";
      isProcessing, isPlaying := false, false;
      lastTtsUrl := None;
      playerSource := None;
    }

    /** Typing into the text field. */
    method EditText(text: string)
      requires Valid()
      modifies this`textToSpeak
      ensures Valid() && textToSpeak == text
    {
      textToSpeak := text;
    }

    /** The `stopPlayer` an earlier playback needs before a new one would be rejected. */
    predicate StopRejects(stopOk: bool)
      reads this`isPlaying
    {
      isPlaying && !stopOk
    }

    /**
     * `playTtsAudio`. Nothing happens for a missing URL. Otherwise a
     * playback in progress is stopped first, so two never overlap, and the
     * new one is started; when the player fails to start, nothing is playing.
     * That first stop is outside the `try`: when it is rejected the error
     * leaves the handler and the earlier playback goes on.
     */
    method PlayTtsAudio(url: Option<string>, stopOk: bool, startOk: bool)
      returns (stoppedFirst: bool, started: bool, stopFailed: bool)
      requires isPlaying == playerSource.Some?
      modifies this`isPlaying, this`playerSource
      ensures isPlaying == playerSource.Some?
      ensures !Truthy(url) ==> unchanged(this) && !stoppedFirst && !started
      ensures stopFailed <==> Truthy(url) && old(StopRejects(stopOk))
      ensures stopFailed ==> unchanged(this) && !started
      ensures Truthy(url) && !stopFailed ==> stoppedFirst == old(isPlaying) && started == startOk
      ensures Truthy(url) && !stopFailed ==> playerSource == (if startOk then url else None)
    {
      stoppedFirst, started, stopFailed := false, false, false;
      if !Truthy(url) {
        return;
      }
      if isPlaying {
        if !stopOk {
          stopFailed := true;
          return;
        }
        playerSource := None;
        isPlaying := false;
        stoppedFirst := true;
      }
      isPlaying := true;
      if startOk {
        playerSource := url;
        started := true;
      } else {
        isPlaying := false;
      }
    }

    /** `handleReplay`: play the remembered spoken reply, if there is one. */
    method HandleReplay(stopOk: bool, startOk: bool) returns (started: bool, stopFailed: bool)
      requires Valid()
      modifies this`isPlaying, this`playerSource
      ensures Valid()
      ensures !Truthy(lastTtsUrl) ==> unchanged(this) && !started
      ensures stopFailed <==> Truthy(lastTtsUrl) && old(StopRejects(stopOk))
      ensures stopFailed ==> unchanged(this) && !started
      ensures Truthy(lastTtsUrl) && !stopFailed ==> started == startOk
      ensures Truthy(lastTtsUrl) && !stopFailed ==> playerSource == (if startOk then lastTtsUrl else None)
    {
      started, stopFailed := false, false;
      if !Truthy(lastTtsUrl) {
        return;
      }
      var stoppedFirst;
      stoppedFirst, started, stopFailed := PlayTtsAudio(lastTtsUrl, stopOk, startOk);
    }

    /**
     * `handleSpeak`. Nothing happens without a server URL or with text that
     * is blank after trimming. Otherwise the processing flag is up for the
     * request, which posts the text to the port-qualified server URL with
     * `tts` glued on, and down again whatever the reply. A reply without a
     * `tts_url` is a failure that keeps the text and the remembered URL.
     * With one, the URL resolved against the server is remembered and
     * played, and the text is cleared even when the player does not start,
     * since playback failures are handled inside the player. A rejected stop
     * of an earlier playback is caught here as a failure: the URL stays
     * remembered, the text stays and the earlier playback goes on.
     */
    method HandleSpeak(reply: TtsReply, stopOk: bool, startOk: bool)
      returns (request: Option<TtsRequest>, busyDuringRequest: bool)
      requires Valid()
      modifies this`isProcessing, this`textToSpeak, this`lastTtsUrl, this`isPlaying, this`playerSource
      ensures Valid()
      ensures request.Some? <==> Truthy(serverUrl) && Trim(old(textToSpeak)) != ""
      ensures request.None? ==> unchanged(this) && !busyDuringRequest
      ensures request.Some? ==> busyDuringRequest
      ensures request.Some? ==>
        request.value == TtsRequest(ServerUrl.EndpointAsWritten(serverUrl.value, "tts"), old(textToSpeak))
      ensures request.Some? && Speaks(reply) ==>
        lastTtsUrl == Some(ServerUrl.ResolveTts(serverUrl.value, reply.ttsUrl.value))
      ensures request.Some? && Speaks(reply) && !old(StopRejects(stopOk)) ==>
        textToSpeak == "" && isPlaying == startOk && playerSource == (if startOk then lastTtsUrl else None)
      ensures !(request.Some? && Speaks(reply) && !old(StopRejects(stopOk))) ==>
        textToSpeak == old(textToSpeak) && isPlaying == old(isPlaying) && playerSource == old(playerSource)
      ensures !(request.Some? && Speaks(reply)) ==> lastTtsUrl == old(lastTtsUrl)
    {
      request, busyDuringRequest := None, false;
      if !Truthy(serverUrl) || Trim(textToSpeak) == "" {
        return;
      }
      isProcessing := true;
      busyDuringRequest := isProcessing;
      request := Some(TtsRequest(ServerUrl.EndpointAsWritten(serverUrl.value, "tts"), textToSpeak));
      if Speaks(reply) {
        var fullTtsUrl := ServerUrl.ResolveTts(serverUrl.value, reply.ttsUrl.value);
        ServerUrl.ResolveTtsShape(serverUrl.value, reply.ttsUrl.value);
        lastTtsUrl := Some(fullTtsUrl);
        var stoppedFirst, started, stopFailed := PlayTtsAudio(lastTtsUrl, stopOk, startOk);
        if !stopFailed {
          textToSpeak := "";
        }
      }
      isProcessing := false;
    }

    /** The playback listener seeing the end of the audio: the player is stopped. */
    method PlaybackFinished()
      requires Valid()
      modifies this`isPlaying, this`playerSource
      ensures Valid() && !isPlaying && playerSource.None?
    {
      playerSource := None;
      isPlaying := false;
    }
  }

  // ----- sessions of the screen -----

  /**
   * A spoken reply is remembered even when it cannot be played at once, and
   * the replay button then plays exactly the URL resolved against the server.
   * The text typed in is what is posted, to the server URL with `tts` glued on.
   */
  method SpeakThenReplay(url: string, text: string, ttsPath: string)
    returns (request: Option<TtsRequest>, cleared: bool, replayed: Option<string>)
    requires url != "" && Trim(text) != "" && ttsPath != ""
    ensures request == Some(TtsRequest(ServerUrl.EndpointAsWritten(url, "tts"), text)) && cleared
    ensures replayed == Some(ServerUrl.ResolveTts(url, ttsPath))
  {
    var screen := new Screen(Some(url));
    screen.EditText(text);
    var busy;
    request, busy := screen.HandleSpeak(TtsReplied(Some(ttsPath)), true, false);
    cleared := screen.textToSpeak == "";
    var started, stopFailed := screen.HandleReplay(true, true);
    replayed := screen.playerSource;
  }

  /**
   * While a first reply plays, a second speak whose stop of that playback is
   * rejected fails: the second reply is remembered, but its text stays in
   * the field and the first reply goes on playing.
   */
  method StopRejectedKeepsText(url: string, first: string, second: string, path1: string, path2: string)
    returns (kept: string, remembered: Option<string>, playing: Option<string>)
    requires url != "" && Trim(first) != "" && Trim(second) != "" && path1 != "" && path2 != ""
    ensures kept == second
    ensures remembered == Some(ServerUrl.ResolveTts(url, path2))
    ensures playing == Some(ServerUrl.ResolveTts(url, path1))
  {
    var screen := new Screen(Some(url));
    screen.EditText(first);
    var request, busy := screen.HandleSpeak(TtsReplied(Some(path1)), true, true);
    assert screen.isPlaying;
    screen.EditText(second);
    request, busy := screen.HandleSpeak(TtsReplied(Some(path2)), false, true);
    kept, remembered, playing := screen.textToSpeak, screen.lastTtsUrl, screen.playerSource;
  }

  /** Text that is blank after trimming is never sent, and stays in the field. */
  method BlankTextIsRefused(url: string, text: string, reply: TtsReply)
    returns (request: Option<TtsRequest>, kept: string)
    requires AllWhitespace(text)
    ensures request.None? && kept == text
  {
    var screen := new Screen(Some(url));
    screen.EditText(text);
    TrimEmptyIff(text);
    var busy;
    request, busy := screen.HandleSpeak(reply, true, true);
    kept := screen.textToSpeak;
  }

  /** A reply without a `tts_url` is a failure: the text is kept and there is nothing to replay. */
  method MissingTtsUrlKeepsText(url: string, text: string)
    returns (kept: string, replayStarted: bool)
    requires url != "" && Trim(text) != ""
    ensures kept == text && !replayStarted
  {
    var screen := new Screen(Some(url));
    screen.EditText(text);
    var request, busy := screen.HandleSpeak(TtsReplied(None), true, true);
    kept := screen.textToSpeak;
    var stopFailed;
    replayStarted, stopFailed := screen.HandleReplay(true, true);
  }
}

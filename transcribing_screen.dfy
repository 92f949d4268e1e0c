/**
 * The recording screen: a press-to-toggle and a hold-to-talk recording mode,
 * the level meter and timer shown while recording, the upload of a finished
 * recording for transcription, and playback of the recording and of the
 * spoken reply.
 *
 * The audio device, the server's reply and the clock are inputs of the
 * handlers: whether the recorder started or stopped, the path it returned,
 * the reply record, whether the player started, the elapsed seconds. Each
 * mirror ref of the source and the state it mirrors are one field here.
 */
module TranscribingScreen {
  import opened Wrappers
  import opened Text
  import ServerUrl
  import opened RecordingSession

  /** What awaiting `stopRecorder` gives: a failure, or the (possibly missing) path it reports. */
  datatype StopOutcome = StopFailed | Stopped(result: Option<string>)

  /**
   * The transcription request as the handler sees it: a failure (network
   * error, status not OK, unreadable body) or the `transcription` and
   * optional `tts_url` fields of the JSON body.
   */
  datatype TranscribeReply = TranscribeFailed | Transcribed(transcription: string, ttsUrl: Option<string>)

  /** The transcription request: the URL it is posted to and the recorded file's path in its `file` part. */
  datatype Upload = Upload(url: string, file: string)

  // ----- the transcription reply -----

  /**
   * The URL of the spoken reply a response leads to: its `tts_url` resolved
   * against the server when the reply has one and speaking is switched on.
   */
  function SpokenUrl(serverUrl: string, reply: TranscribeReply, speak: bool): (r: Option<string>)
    ensures r.Some? <==> reply.Transcribed? && Truthy(reply.ttsUrl) && speak
    ensures r.Some? ==> r.value == ServerUrl.ResolveTts(serverUrl, reply.ttsUrl.value) && r.value != ""
  {
    if reply.Transcribed? && Truthy(reply.ttsUrl) && speak then
      Some(ServerUrl.ResolveTts(serverUrl, reply.ttsUrl.value))
    else None
  }

  /** The text shown after a request: the transcription of a successful reply, else nothing. */
  function TextAfter(reply: TranscribeReply): string {
    if reply.Transcribed? then reply.transcription else ""
  }

  class Screen {
    const serverUrl: Option<string>
    const hasAudioPermission: bool
    var speakTranscribedText: bool
    /** The recording flags, the in-progress ref, the meter listener, the timer and the meter. */
    var session: Session
    var recordedFilePath: Option<string>
    var transcribedText: string
    var ttsAudioUrl: Option<string>
    var lastTtsUrl: Option<string>
    var isProcessing: bool
    var isPlaying: bool
    /** What the native player is playing, if anything. */
    var playerSource: Option<string>

    /** The player is busy exactly when the playing flag is up. */
    predicate PlayerValid()
      reads this`isPlaying, this`playerSource
    {
      isPlaying == playerSource.Some?
    }

    /** The state between handlers: a consistent session and player, and no request under way. */
    predicate Valid()
      reads this`session, this`isPlaying, this`playerSource, this`isProcessing
    {
      session.Valid(Truthy(serverUrl) && hasAudioPermission) && PlayerValid() && !isProcessing
    }

    /** The screen as first rendered: the initial values of its `useState` hooks and refs. */
    constructor (serverUrl: Option<string>, hasAudioPermission: bool)
      ensures Valid()
      ensures this.serverUrl == serverUrl && this.hasAudioPermission == hasAudioPermission
      ensures speakTranscribedText && session == Idle()
      ensures recordedFilePath.None? && transcribedText == "" && ttsAudioUrl.None? && lastTtsUrl.None?
      ensures !isPlaying
    {
      this.serverUrl := serverUrl;
      this.hasAudioPermission := hasAudioPermission;
      speakTranscribedText := true;
      session := Idle();
      recordedFilePath := None;
      transcribedText := "";
      ttsAudioUrl, lastTtsUrl := None, None;
      isProcessing := false;
      isPlaying := false;
      playerSource := None;
      IdleValid(Truthy(serverUrl) && hasAudioPermission);
    }

    /** Whether `startRecording` gets past its guards. */
    predicate StartAllowed()
      reads this`session
    {
      Truthy(serverUrl) && hasAudioPermission && !session.inProgress && !session.Recording()
    }

    /**
     * The part of `startRecording` before `startRecorder` is awaited: the
     * guards, then raising the in-progress flag. A start while another is
     * awaiting the recorder finds that flag raised and is ignored.
     */
    method BeginStart(mode: Mode) returns (accepted: bool)
      requires Valid()
      modifies this`session
      ensures Valid()
      ensures accepted == old(StartAllowed())
      ensures !accepted ==> session == old(session)
      ensures accepted ==> session == Idle().(inProgress := true, awaitingStart := Some(mode))
    {
      accepted := StartAllowed();
      if accepted {
        QuietIsIdle(session, Truthy(serverUrl) && hasAudioPermission);
        session := session.(inProgress := true, awaitingStart := Some(mode));
      }
    }

    /**
     * The rest of `startRecording`, once `startRecorder` has answered. On
     * success the timer restarts from 0, the meter listener is registered,
     * exactly the requested mode flag is raised and the previous recording,
     * text and spoken-reply URL are cleared. On failure the in-progress flag
     * is lowered and the cleanup leaves the session idle.
     */
    method CompleteStart(deviceOk: bool)
      requires Valid() && session.awaitingStart.Some?
      modifies this`session, this`recordedFilePath, this`transcribedText, this`ttsAudioUrl
      ensures Valid()
      ensures deviceOk ==> session == old(session).(awaitingStart := None, duration := 0,
        timerRunning := true, meterListening := true,
        isRecordingPress := old(session.awaitingStart) == Some(Press),
        isRecordingHold := old(session.awaitingStart) == Some(Hold))
      ensures deviceOk ==> recordedFilePath.None? && transcribedText == "" && ttsAudioUrl.None?
      ensures !deviceOk ==> session == Idle()
      ensures !deviceOk ==> recordedFilePath == old(recordedFilePath)
      ensures !deviceOk ==> transcribedText == old(transcribedText) && ttsAudioUrl == old(ttsAudioUrl)
    {
      var mode := session.awaitingStart.value;
      session := session.(awaitingStart := None);
      if deviceOk {
        session := session.(duration := 0, timerRunning := true, meterListening := true);
        if mode == Press {
          session := session.(isRecordingPress := true);
        } else {
          session := session.(isRecordingHold := true);
        }
        recordedFilePath := None;
        transcribedText := "";
        ttsAudioUrl := None;
      } else {
        session := session.(inProgress := false);
        Cleanup();
      }
    }

    /**
     * `cleanupRecording`: stop the timer, unregister the meter listener,
     * reset the timer to 0 and the meter to idle, lower the in-progress flag.
     */
    method Cleanup()
      modifies this`session
      ensures session == old(session).(timerRunning := false, meterListening := false, duration := 0,
        waveform := IdleWaveform(), inProgress := false)
    {
      session := session.(timerRunning := false, meterListening := false, duration := 0);
      session := session.(waveform := IdleWaveform(), inProgress := false);
    }

    /**
     * `startRecording` with no other handler running while the recorder is
     * awaited. A start that is refused or fails at the device leaves the
     * screen exactly as it was; one that succeeds records in the requested
     * mode only, with the meter idle and the timer at 0, and clears the
     * previous recording, text and spoken-reply URL.
     */
    method StartRecording(mode: Mode, deviceOk: bool) returns (started: bool)
      requires Valid()
      modifies this`session, this`recordedFilePath, this`transcribedText, this`ttsAudioUrl
      ensures Valid()
      ensures started == (old(StartAllowed()) && deviceOk)
      ensures !started ==> unchanged(this)
      ensures started ==> session == Fresh(mode)
      ensures started ==> recordedFilePath.None? && transcribedText == "" && ttsAudioUrl.None?
    {
      started := false;
      var accepted := BeginStart(mode);
      if accepted {
        CompleteStart(deviceOk);
        started := deviceOk;
      }
    }

    /** Whether `stopRecording(mode)` gets past its guard. */
    predicate StopAllowed(mode: Mode)
      reads this`session
    {
      session.inProgress && session.RecordingIn(mode)
    }

    /**
     * `stopRecording`. Only a stop for the mode that is recording does
     * anything. Whether the recorder stops or fails, recording ends and the
     * session is idle again. The recorder's path is kept only when it stopped
     * cleanly; a clean hold-mode stop with a path sends it for transcription
     * at once, and that is the only way this handler sends anything. The
     * reply to that request then sets the text and may play the spoken reply
     * exactly as `SendForTranscription` does.
     */
    method StopRecording(mode: Mode, outcome: StopOutcome, reply: TranscribeReply, stopOk: bool, playOk: bool)
      returns (request: Option<Upload>, busyDuringRequest: bool)
      requires Valid()
      modifies this`session, this`recordedFilePath
      modifies this`isProcessing, this`transcribedText, this`ttsAudioUrl, this`lastTtsUrl
      modifies this`isPlaying, this`playerSource
      ensures Valid()
      ensures !old(StopAllowed(mode)) ==> unchanged(this) && request.None?
      ensures old(StopAllowed(mode)) ==> session == Idle()
      ensures old(StopAllowed(mode)) ==>
        recordedFilePath == (if outcome.Stopped? then outcome.result else old(recordedFilePath))
      ensures request.Some? <==>
        old(StopAllowed(mode)) && mode == Hold && outcome.Stopped? && Truthy(outcome.result)
      ensures request.Some? ==>
        request.value == Upload(ServerUrl.EndpointAsWritten(serverUrl.value, "transcribe"), outcome.result.value)
      ensures busyDuringRequest == request.Some?
      ensures request.Some? ==> transcribedText == TextAfter(reply)
      ensures request.Some? ==> ttsAudioUrl == SpokenUrl(serverUrl.value, reply, speakTranscribedText)
      ensures request.Some? ==>
        lastTtsUrl == if ttsAudioUrl.Some? then ttsAudioUrl else old(lastTtsUrl)
      ensures request.Some? && ttsAudioUrl.Some? && !old(StopRejects(stopOk)) ==>
        isPlaying == playOk && playerSource == (if playOk then ttsAudioUrl else None)
      ensures request.Some? && (ttsAudioUrl.None? || old(StopRejects(stopOk))) ==>
        isPlaying == old(isPlaying) && playerSource == old(playerSource)
      ensures request.None? ==> transcribedText == old(transcribedText) && ttsAudioUrl == old(ttsAudioUrl)
      ensures request.None? ==> lastTtsUrl == old(lastTtsUrl)
      ensures request.None? ==> isPlaying == old(isPlaying) && playerSource == old(playerSource)
    {
      request, busyDuringRequest := None, false;
      if !StopAllowed(mode) {
        return;
      }
      session := session.(meterListening := false);
      Cleanup();
      if mode == Press {
        session := session.(isRecordingPress := false);
      } else {
        session := session.(isRecordingHold := false);
      }
      if outcome.Stopped? {
        recordedFilePath := outcome.result;
        if mode == Hold && Truthy(outcome.result) {
          request, busyDuringRequest := SendForTranscription(outcome.result, reply, stopOk, playOk);
        }
      }
    }

    /**
     * `sendForTranscription`. Nothing happens without a server URL or a
     * file. Otherwise the text and the spoken-reply URL are cleared and the
     * processing flag raised before the request, and the flag is lowered
     * again whatever the reply. The request posts the file to the
     * port-qualified server URL with `transcribe` glued on.
     */
    method SendForTranscription(filePath: Option<string>, reply: TranscribeReply, stopOk: bool, playOk: bool)
      returns (request: Option<Upload>, busyDuringRequest: bool)
      requires Valid()
      modifies this`isProcessing, this`transcribedText, this`ttsAudioUrl, this`lastTtsUrl
      modifies this`isPlaying, this`playerSource
      ensures Valid()
      ensures request.Some? <==> Truthy(serverUrl) && Truthy(filePath)
      ensures request.None? ==> unchanged(this) && !busyDuringRequest
      ensures request.Some? ==>
        request.value == Upload(ServerUrl.EndpointAsWritten(serverUrl.value, "transcribe"), filePath.value)
      ensures request.Some? ==> busyDuringRequest
      ensures request.Some? ==> transcribedText == TextAfter(reply)
      ensures request.Some? ==> ttsAudioUrl == SpokenUrl(serverUrl.value, reply, speakTranscribedText)
      ensures request.Some? ==>
        lastTtsUrl == if ttsAudioUrl.Some? then ttsAudioUrl else old(lastTtsUrl)
      ensures request.Some? && ttsAudioUrl.Some? && !old(StopRejects(stopOk)) ==>
        isPlaying == playOk && playerSource == (if playOk then ttsAudioUrl else None)
      ensures request.Some? && (ttsAudioUrl.None? || old(StopRejects(stopOk))) ==>
        isPlaying == old(isPlaying) && playerSource == old(playerSource)
    {
      request, busyDuringRequest := None, false;
      if !Truthy(serverUrl) || !Truthy(filePath) {
        return;
      }
      isProcessing := true;
      transcribedText := "";
      ttsAudioUrl := None;
      request := Some(Upload(ServerUrl.EndpointAsWritten(serverUrl.value, "transcribe"), filePath.value));
      busyDuringRequest := isProcessing;
      ReceiveTranscription(reply, stopOk, playOk);
    }

    /**
     * The rest of `sendForTranscription`, once the reply is in. Only a
     * successful reply sets the text, so after a failure it stays empty. A
     * spoken reply is remembered for replay and played only when the reply
     * has a `tts_url` and speaking is switched on. The playback is not
     * awaited, so a rejected stop of an earlier playback only leaves that
     * one playing. The processing flag is lowered on both paths.
     */
    method ReceiveTranscription(reply: TranscribeReply, stopOk: bool, playOk: bool)
      requires PlayerValid() && Truthy(serverUrl)
      requires transcribedText == "" && ttsAudioUrl.None?
      modifies this`isProcessing, this`transcribedText, this`ttsAudioUrl, this`lastTtsUrl
      modifies this`isPlaying, this`playerSource
      ensures PlayerValid() && !isProcessing
      ensures transcribedText == TextAfter(reply)
      ensures ttsAudioUrl == SpokenUrl(serverUrl.value, reply, speakTranscribedText)
      ensures lastTtsUrl == if ttsAudioUrl.Some? then ttsAudioUrl else old(lastTtsUrl)
      ensures ttsAudioUrl.Some? && !old(StopRejects(stopOk)) ==>
        isPlaying == playOk && playerSource == (if playOk then ttsAudioUrl else None)
      ensures ttsAudioUrl.None? || old(StopRejects(stopOk)) ==>
        isPlaying == old(isPlaying) && playerSource == old(playerSource)
    {
      if reply.Transcribed? {
        transcribedText := reply.transcription;
        var spoken := SpokenUrl(serverUrl.value, reply, speakTranscribedText);
        if spoken.Some? {
          ttsAudioUrl := spoken;
          lastTtsUrl := spoken;
          var stopped, started, stopFailed := PlayTtsAudio(spoken, stopOk, playOk);
        }
      }
      isProcessing := false;
    }

    /** The `stopPlayer` a playback in progress needs would be rejected. */
    predicate StopRejects(stopOk: bool)
      reads this`isPlaying
    {
      isPlaying && !stopOk
    }

    /**
     * `playTtsAudio`. Nothing happens for a missing URL. Otherwise a
     * playback in progress is stopped first, so two never overlap, and the
     * new one is started; when the player fails to start, nothing is playing.
     * That first stop is outside the `try`: when it is rejected the error
     * leaves the handler and the earlier playback goes on.
     */
    method PlayTtsAudio(url: Option<string>, stopOk: bool, startOk: bool)
      returns (stoppedFirst: bool, started: bool, stopFailed: bool)
      requires PlayerValid()
      modifies this`isPlaying, this`playerSource
      ensures PlayerValid()
      ensures !Truthy(url) ==> unchanged(this) && !stoppedFirst && !started
      ensures stopFailed <==> Truthy(url) && old(StopRejects(stopOk))
      ensures stopFailed ==> unchanged(this) && !started
      ensures Truthy(url) && !stopFailed ==> stoppedFirst == old(isPlaying) && started == startOk
      ensures Truthy(url) && !stopFailed ==> playerSource == (if startOk then url else None)
    {
      stoppedFirst, started, stopFailed := false, false, false;
      if !Truthy(url) {
        return;
      }
      if isPlaying {
        if !stopOk {
          stopFailed := true;
          return;
        }
        playerSource := None;
        isPlaying := false;
        stoppedFirst := true;
      }
      isPlaying := true;
      if startOk {
        playerSource := url;
        started := true;
      } else {
        isPlaying := false;
      }
    }

    /** `handleReplayTTS`: play the remembered spoken reply, if there is one. */
    method HandleReplayTts(stopOk: bool, startOk: bool) returns (stoppedFirst: bool, started: bool, stopFailed: bool)
      requires Valid()
      modifies this`isPlaying, this`playerSource
      ensures Valid()
      ensures !Truthy(lastTtsUrl) ==> unchanged(this) && !started
      ensures stopFailed <==> Truthy(lastTtsUrl) && old(StopRejects(stopOk))
      ensures stopFailed ==> unchanged(this) && !started
      ensures Truthy(lastTtsUrl) && !stopFailed ==> stoppedFirst == old(isPlaying) && started == startOk
      ensures Truthy(lastTtsUrl) && !stopFailed ==> playerSource == (if startOk then lastTtsUrl else None)
    {
      stoppedFirst, started, stopFailed := false, false, false;
      if !Truthy(lastTtsUrl) {
        return;
      }
      stoppedFirst, started, stopFailed := PlayTtsAudio(lastTtsUrl, stopOk, startOk);
    }

    /**
     * `playRecording`, a toggle: with no recording nothing happens; while
     * something plays it is stopped and nothing new starts; otherwise the
     * recording is played, and nothing plays if the player fails to start.
     * The stop is outside the `try`: when it is rejected the error leaves
     * the handler and the playback goes on.
     */
    method PlayRecording(stopOk: bool, startOk: bool) returns (stopped: bool, started: bool)
      requires Valid()
      modifies this`isPlaying, this`playerSource
      ensures Valid()
      ensures !Truthy(recordedFilePath) ==> unchanged(this) && !stopped && !started
      ensures Truthy(recordedFilePath) && old(StopRejects(stopOk)) ==> unchanged(this) && !stopped && !started
      ensures Truthy(recordedFilePath) && old(isPlaying) && stopOk ==>
        stopped && !started && !isPlaying && playerSource.None?
      ensures Truthy(recordedFilePath) && !old(isPlaying) ==>
        !stopped && started == startOk && playerSource == (if startOk then recordedFilePath else None)
    {
      stopped, started := false, false;
      if !Truthy(recordedFilePath) {
        return;
      }
      if isPlaying {
        if !stopOk {
          return;
        }
        playerSource := None;
        isPlaying := false;
        stopped := true;
        return;
      }
      isPlaying := true;
      if startOk {
        playerSource := recordedFilePath;
        started := true;
      } else {
        isPlaying := false;
      }
    }

    /** The playback listener seeing the end of the audio: the player is stopped. */
    method PlaybackFinished()
      requires Valid()
      modifies this`isPlaying, this`playerSource
      ensures Valid()
      ensures !isPlaying && playerSource.None?
    {
      playerSource := None;
      isPlaying := false;
    }

    /** The record-back listener: a metering event moves the meter only while it is registered. */
    method OnMetering(m: Option<real>)
      requires Valid()
      modifies this`session
      ensures Valid()
      ensures session == if old(session.meterListening)
        then old(session).(waveform := Metered(old(session.waveform), m)) else old(session)
    {
      if session.meterListening {
        MeteredKeepsShape(session.waveform, m);
        session := session.(waveform := Metered(session.waveform, m));
      }
    }

    /** The interval timer firing: the shown duration becomes the elapsed whole seconds. */
    method Tick(elapsedSeconds: nat)
      requires Valid()
      modifies this`session
      ensures Valid()
      ensures session == if old(session.timerRunning)
        then old(session).(duration := elapsedSeconds) else old(session)
    {
      if session.timerRunning {
        session := session.(duration := elapsedSeconds);
      }
    }

    /** `handleToggleTTS`: the switch that decides whether a spoken reply is played. */
    method SetSpeakTranscribedText(value: bool)
      requires Valid()
      modifies this`speakTranscribedText
      ensures Valid()
      ensures speakTranscribedText == value
    {
      speakTranscribedText := value;
    }
  }

  // ----- sessions of the screen -----

  /**
   * A hold-mode recording that stops cleanly with a path is sent for
   * transcription straight away: that path, posted to the server URL with
   * `transcribe` glued on.
   */
  method HoldRecordingIsSent(url: string, path: string, reply: TranscribeReply, playOk: bool)
    returns (request: Option<Upload>, busy: bool)
    requires url != "" && path != ""
    ensures request == Some(Upload(ServerUrl.EndpointAsWritten(url, "transcribe"), path)) && busy
  {
    var screen := new Screen(Some(url), true);
    var started := screen.StartRecording(Hold, true);
    request, busy := screen.StopRecording(Hold, Stopped(Some(path)), reply, true, playOk);
  }

  /**
   * A press-mode recording is never sent when it stops; its path is kept,
   * and the send button (`sendForTranscription(recordedFilePath)`) posts
   * exactly that path.
   */
  method PressRecordingIsKept(url: string, path: string, reply: TranscribeReply, playOk: bool)
    returns (request: Option<Upload>, kept: Option<string>, sent: Option<Upload>)
    requires url != "" && path != ""
    ensures request.None? && kept == Some(path)
    ensures sent == Some(Upload(ServerUrl.EndpointAsWritten(url, "transcribe"), path))
  {
    var screen := new Screen(Some(url), true);
    var started := screen.StartRecording(Press, true);
    var busy;
    request, busy := screen.StopRecording(Press, Stopped(Some(path)), reply, true, playOk);
    kept := screen.recordedFilePath;
    sent, busy := screen.SendForTranscription(screen.recordedFilePath, reply, true, playOk);
  }

  /**
   * While a press-mode start awaits the recorder, a second start (in either
   * mode) and a stop are ignored; once the recorder answers, only press mode
   * is recording.
   */
  method SecondStartIsIgnored(url: string, second: Mode) returns (firstAccepted: bool, secondAccepted: bool, press: bool, hold: bool)
    requires url != ""
    ensures firstAccepted && !secondAccepted && press && !hold
  {
    var screen := new Screen(Some(url), true);
    firstAccepted := screen.BeginStart(Press);
    secondAccepted := screen.BeginStart(second);
    var request, busy := screen.StopRecording(Press, StopFailed, TranscribeFailed, true, false);
    screen.CompleteStart(true);
    press, hold := screen.session.isRecordingPress, screen.session.isRecordingHold;
  }

  /** Stopping hold mode while press mode records changes nothing: press mode goes on recording. */
  method StopInOtherModeIsIgnored(url: string, path: string) returns (press: bool, kept: Option<string>)
    requires url != ""
    ensures press && kept.None?
  {
    var screen := new Screen(Some(url), true);
    var started := screen.StartRecording(Press, true);
    var request, busy := screen.StopRecording(Hold, Stopped(Some(path)), TranscribeFailed, true, false);
    press, kept := screen.session.isRecordingPress, screen.recordedFilePath;
  }
}

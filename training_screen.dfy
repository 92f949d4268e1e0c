/**
 * The training screen: the user reads the statement shown, records it,
 * uploads the recording for that statement's number and moves on to the
 * next statement. The current statement and the one after it are fetched
 * from the server.
 *
 * The server's statement table is an input (`statements/<n>` answers with
 * statement `n` when the table has it and fails otherwise), and so are the
 * recorder's success, the fresh file path and the upload's outcome.
 */
module TrainingScreen {
  import opened Wrappers
  import opened Text
  import ServerUrl

  /** The JSON body of `statements/<n>`: its `line_number` and `statement` fields. */
  datatype Statement = Statement(lineNumber: nat, text: string)

  /** The server's statements by number; a number it does not have makes the request fail. */
  type Statements = map<nat, string>

  /** What `statements/<n>` answers with. */
  function Lookup(server: Statements, n: nat): Option<Statement> {
    if n in server then Some(Statement(n, server[n])) else None
  }

  /**
   * The requests `fetchSentences(n)` makes under the server URL `u`:
   * statement `n`, then statement `n + 1` once `n` was answered. Each path
   * is glued onto the port-qualified URL.
   */
  function StatementRequests(u: string, n: nat, server: Statements): seq<string> {
    [ServerUrl.EndpointAsWritten(u, ServerUrl.StatementPath(n))]
      + (if n in server then [ServerUrl.EndpointAsWritten(u, ServerUrl.StatementPath(n + 1))] else [])
  }

  /** The training upload: the URL it is posted to and the recorded file's path in its `file` part. */
  datatype Upload = Upload(url: string, file: string)

  class Screen {
    const serverUrl: Option<string>
    var currentSentence: Option<Statement>
    var nextSentence: Option<Statement>
    var currentSentenceNumber: nat
    var isRecording: bool
    var isProcessing: bool
    var recordedFilePath: Option<string>
    var hasUploaded: bool

    /**
     * The state between handlers: no upload under way, and the next-sentence
     * button (shown once `hasUploaded`) is only offered for a recording.
     */
    predicate Valid()
      reads this`isProcessing, this`hasUploaded, this`recordedFilePath
    {
      !isProcessing && (hasUploaded ==> Truthy(recordedFilePath))
    }

    /** The statements shown and prefetched are the current number and the one after it. */
    predicate Aligned()
      reads this`currentSentence, this`nextSentence, this`currentSentenceNumber
    {
      (currentSentence.Some? ==> currentSentence.value.lineNumber == currentSentenceNumber)
      && (nextSentence.Some? ==> nextSentence.value.lineNumber == currentSentenceNumber + 1)
    }

    /** The screen as first rendered: statement 1, nothing fetched, recorded or uploaded. */
    constructor (serverUrl: Option<string>)
      ensures Valid() && Aligned()
      ensures this.serverUrl == serverUrl && currentSentenceNumber == 1
      ensures currentSentence.None? && nextSentence.None?
      ensures !isRecording && recordedFilePath.None? && !hasUploaded
    {
      this.serverUrl := serverUrl;
      currentSentence, nextSentence := None, None;
      currentSentenceNumber := 1;
      isRecording, isProcessing := false, false;
      recordedFilePath := None;
      hasUploaded := false;
    }

    /**
     * `fetchSentences(n)`. Without a server URL the port helper throws and
     * nothing is requested. Otherwise statement `n` is requested; when that
     * fails nothing changes. When it succeeds it becomes the current
     * statement and statement `n + 1` is requested, to become the next one
     * only if that request succeeds too.
     */
    method FetchSentences(n: nat, server: Statements) returns (requests: seq<string>)
      modifies this`currentSentence, this`nextSentence
      ensures serverUrl.None? ==> requests == [] && unchanged(this)
      ensures serverUrl.Some? ==> requests == StatementRequests(serverUrl.value, n, server)
      ensures currentSentence == if serverUrl.Some? && n in server then Lookup(server, n) else old(currentSentence)
      ensures nextSentence ==
        if serverUrl.Some? && n in server && n + 1 in server then Lookup(server, n + 1) else old(nextSentence)
    {
      requests := [];
      if serverUrl.None? {
        return;
      }
      requests := [ServerUrl.EndpointAsWritten(serverUrl.value, ServerUrl.StatementPath(n))];
      var reply := Lookup(server, n);
      if reply.None? {
        return;
      }
      currentSentence := reply;
      requests := requests + [ServerUrl.EndpointAsWritten(serverUrl.value, ServerUrl.StatementPath(n + 1))];
      var nextReply := Lookup(server, n + 1);
      if nextReply.Some? {
        nextSentence := nextReply;
      }
    }

    /** The mount effect: statements 1 and 2 are fetched once a server URL is set. */
    method Mount(server: Statements) returns (requests: seq<string>)
      requires currentSentenceNumber == 1 && Aligned()
      modifies this`currentSentence, this`nextSentence
      ensures Aligned()
      ensures !Truthy(serverUrl) ==> requests == [] && unchanged(this)
      ensures currentSentence == if Truthy(serverUrl) && 1 in server then Lookup(server, 1) else old(currentSentence)
      ensures nextSentence ==
        if Truthy(serverUrl) && 1 in server && 2 in server then Lookup(server, 2) else old(nextSentence)
    {
      requests := [];
      if Truthy(serverUrl) {
        requests := FetchSentences(1, server);
      }
    }

    /**
     * `startRecording`: only when the recorder starts does anything change;
     * then recording is on, the new file is the recording and it counts as
     * not uploaded.
     */
    method StartRecording(freshPath: string, deviceOk: bool)
      requires Valid()
      modifies this`isRecording, this`recordedFilePath, this`hasUploaded
      ensures Valid()
      ensures !deviceOk ==> unchanged(this)
      ensures deviceOk ==> isRecording && recordedFilePath == Some(freshPath) && !hasUploaded
    {
      if deviceOk {
        isRecording := true;
        recordedFilePath := Some(freshPath);
        hasUploaded := false;
      }
    }

    /** `stopRecording`: recording is off only when the recorder stops. */
    method StopRecording(deviceOk: bool)
      requires Valid()
      modifies this`isRecording
      ensures Valid()
      ensures isRecording == (old(isRecording) && !deviceOk)
    {
      if deviceOk {
        isRecording := false;
      }
    }

    /** The record button: it stops a recording under way and starts one otherwise. */
    method ToggleRecording(freshPath: string, deviceOk: bool)
      requires Valid()
      modifies this`isRecording, this`recordedFilePath, this`hasUploaded
      ensures Valid()
      ensures old(isRecording) ==>
        isRecording == !deviceOk && recordedFilePath == old(recordedFilePath) && hasUploaded == old(hasUploaded)
      ensures !old(isRecording) && deviceOk ==> isRecording && recordedFilePath == Some(freshPath) && !hasUploaded
      ensures !old(isRecording) && !deviceOk ==> unchanged(this)
    {
      if isRecording {
        StopRecording(deviceOk);
      } else {
        StartRecording(freshPath, deviceOk);
      }
    }

    /**
     * `uploadRecording`. Without a recording nothing happens. Otherwise the
     * processing flag is up for the request and down again whatever the
     * outcome; the recorded file is posted to `upload-statement-audio/<n>`
     * for the current number, glued onto the port-qualified URL, and it
     * counts as uploaded only when the server accepts it. Without a server
     * URL the port helper throws before any request.
     */
    method UploadRecording(uploadOk: bool) returns (request: Option<Upload>, busyDuringRequest: bool)
      requires Valid()
      modifies this`isProcessing, this`hasUploaded
      ensures Valid()
      ensures !Truthy(recordedFilePath) ==> unchanged(this) && request.None? && !busyDuringRequest
      ensures Truthy(recordedFilePath) ==> busyDuringRequest
      ensures request.Some? <==> Truthy(recordedFilePath) && serverUrl.Some?
      ensures request.Some? ==> (request.value ==
        Upload(ServerUrl.EndpointAsWritten(serverUrl.value, ServerUrl.UploadPath(currentSentenceNumber)),
          recordedFilePath.value))
      ensures hasUploaded == (old(hasUploaded) || (request.Some? && uploadOk))
    {
      request, busyDuringRequest := None, false;
      if !Truthy(recordedFilePath) {
        return;
      }
      isProcessing := true;
      busyDuringRequest := isProcessing;
      if serverUrl.Some? {
        request := Some(Upload(ServerUrl.EndpointAsWritten(serverUrl.value, ServerUrl.UploadPath(currentSentenceNumber)),
          recordedFilePath.value));
        if uploadOk {
          hasUploaded := true;
        }
      }
      isProcessing := false;
    }

    /**
     * `uploadRecording` as written: the `Platform` it reads is not imported,
     * so building the form data throws before the request, and every upload
     * ends in the error path.
     */
    method UploadRecordingAsWritten() returns (request: Option<Upload>, busyDuringRequest: bool)
      requires Valid()
      modifies this`isProcessing
      ensures Valid() && unchanged(this) && request.None?
      ensures busyDuringRequest == Truthy(recordedFilePath)
    {
      request, busyDuringRequest := None, false;
      if !Truthy(recordedFilePath) {
        return;
      }
      isProcessing := true;
      busyDuringRequest := isProcessing;
      isProcessing := false;
    }

    /** The part of `handleNextSentence` both versions share: refuse, or advance the number. */
    method Advance() returns (advanced: bool)
      requires Valid()
      modifies this`currentSentenceNumber, this`currentSentence, this`nextSentence
      modifies this`recordedFilePath, this`hasUploaded
      ensures Valid()
      ensures advanced == old(hasUploaded)
      ensures !advanced ==> unchanged(this)
      ensures advanced ==> currentSentenceNumber == old(currentSentenceNumber) + 1
      ensures advanced ==> currentSentence == old(nextSentence) && nextSentence.None?
      ensures advanced ==> recordedFilePath.None? && !hasUploaded
    {
      advanced := hasUploaded;
      if !advanced {
        return;
      }
      currentSentenceNumber := currentSentenceNumber + 1;
      currentSentence := nextSentence;
      nextSentence := None;
      recordedFilePath := None;
      hasUploaded := false;
    }

    /**
     * `handleNextSentence` as written: after advancing to number `k` it
     * fetches from `k + 1`, so the statement shown becomes `k + 1` whenever
     * the server has it, one ahead of the number the upload goes to. The
     * recording and the upload flag are cleared, the prefetched statement
     * is shown until the fetch answers, and only statement `k + 2` is
     * prefetched.
     */
    method HandleNextSentenceAsWritten(server: Statements) returns (advanced: bool, requests: seq<string>)
      requires Valid()
      modifies this`currentSentenceNumber, this`currentSentence, this`nextSentence
      modifies this`recordedFilePath, this`hasUploaded
      ensures Valid()
      ensures advanced == old(hasUploaded)
      ensures !advanced ==> unchanged(this) && requests == []
      ensures advanced ==> currentSentenceNumber == old(currentSentenceNumber) + 1
      ensures advanced ==> recordedFilePath.None? && !hasUploaded
      ensures advanced && serverUrl.Some? ==>
        requests == StatementRequests(serverUrl.value, currentSentenceNumber + 1, server)
      ensures advanced && serverUrl.None? ==> requests == []
      ensures advanced && serverUrl.Some? && currentSentenceNumber + 1 in server ==>
        currentSentence == Lookup(server, currentSentenceNumber + 1)
      ensures advanced && !(serverUrl.Some? && currentSentenceNumber + 1 in server) ==>
        currentSentence == old(nextSentence)
      ensures advanced ==> (nextSentence ==
        if serverUrl.Some? && currentSentenceNumber + 1 in server && currentSentenceNumber + 2 in server
        then Lookup(server, currentSentenceNumber + 2) else None)
    {
      requests := [];
      advanced := Advance();
      if advanced {
        requests := FetchSentences(currentSentenceNumber + 1, server);
      }
    }

    /**
     * `handleNextSentence` with the fetch starting from the new number: the
     * statement shown and the one prefetched stay the current number and the
     * one after it.
     */
    method HandleNextSentence(server: Statements) returns (advanced: bool, requests: seq<string>)
      requires Valid() && Aligned()
      modifies this`currentSentenceNumber, this`currentSentence, this`nextSentence
      modifies this`recordedFilePath, this`hasUploaded
      ensures Valid() && Aligned()
      ensures advanced == old(hasUploaded)
      ensures !advanced ==> unchanged(this) && requests == []
      ensures advanced ==> currentSentenceNumber == old(currentSentenceNumber) + 1
      ensures advanced ==> recordedFilePath.None? && !hasUploaded
      ensures advanced && serverUrl.Some? ==>
        requests == StatementRequests(serverUrl.value, currentSentenceNumber, server)
      ensures advanced && serverUrl.None? ==> requests == []
      ensures advanced && serverUrl.Some? && currentSentenceNumber in server ==>
        currentSentence == Lookup(server, currentSentenceNumber)
      ensures advanced && !(serverUrl.Some? && currentSentenceNumber in server) ==>
        currentSentence == old(nextSentence)
      ensures advanced ==> (nextSentence ==
        if serverUrl.Some? && currentSentenceNumber in server && currentSentenceNumber + 1 in server
        then Lookup(server, currentSentenceNumber + 1) else None)
    {
      requests := [];
      advanced := Advance();
      if advanced {
        requests := FetchSentences(currentSentenceNumber, server);
      }
    }
  }

  // ----- sessions of the screen -----

  /**
   * With statements 1 to 3 on the server, one record-upload-next round as
   * written shows statement 3 while the next upload goes to number 2: the
   * recording went to number 1 and the fetch asks for statements 3 and 4.
   */
  method NextSkipsAStatementAsWritten(url: string, server: Statements, path: string)
    returns (shown: Option<Statement>, number: nat, upload: Option<Upload>, requests: seq<string>)
    requires url != "" && path != "" && 1 in server && 2 in server && 3 in server
    ensures shown == Some(Statement(3, server[3])) && number == 2
    ensures upload == Some(Upload(ServerUrl.EndpointAsWritten(url, ServerUrl.UploadPath(1)), path))
    ensures requests == StatementRequests(url, 3, server)
  {
    var screen := new Screen(Some(url));
    var fetched := screen.Mount(server);
    screen.StartRecording(path, true);
    screen.StopRecording(true);
    assert screen.currentSentenceNumber == 1 && screen.recordedFilePath == Some(path);
    var busy;
    upload, busy := screen.UploadRecording(true);
    assert screen.hasUploaded && screen.currentSentenceNumber == 1;
    var advanced;
    advanced, requests := screen.HandleNextSentenceAsWritten(server);
    shown, number := screen.currentSentence, screen.currentSentenceNumber;
  }

  /**
   * The same round with the fetch starting from the new number shows
   * statement 2 and asks for statements 2 and 3.
   */
  method NextShowsTheNextStatement(url: string, server: Statements, path: string)
    returns (shown: Option<Statement>, number: nat, requests: seq<string>)
    requires url != "" && path != "" && 1 in server && 2 in server
    ensures shown == Some(Statement(2, server[2])) && number == 2
    ensures requests == StatementRequests(url, 2, server)
  {
    var screen := new Screen(Some(url));
    var fetched := screen.Mount(server);
    assert screen.Aligned() && screen.currentSentenceNumber == 1;
    screen.StartRecording(path, true);
    screen.StopRecording(true);
    assert screen.currentSentenceNumber == 1 && screen.recordedFilePath == Some(path) && screen.Aligned();
    var request, busy := screen.UploadRecording(true);
    assert screen.hasUploaded && screen.currentSentenceNumber == 1 && screen.Aligned();
    var advanced;
    advanced, requests := screen.HandleNextSentence(server);
    shown, number := screen.currentSentence, screen.currentSentenceNumber;
  }

  /** Without an accepted upload the screen stays on statement 1. */
  method NextNeedsAnUpload(url: string, server: Statements, path: string, uploadOk: bool)
    returns (advanced: bool, number: nat)
    requires path != ""
    ensures advanced == uploadOk && number == if uploadOk then 2 else 1
  {
    var screen := new Screen(Some(url));
    screen.StartRecording(path, true);
    assert screen.Aligned() && screen.currentSentenceNumber == 1 && screen.recordedFilePath == Some(path);
    var request, busy := screen.UploadRecording(uploadOk);
    assert screen.Aligned() && screen.currentSentenceNumber == 1 && screen.hasUploaded == uploadOk;
    var requests;
    advanced, requests := screen.HandleNextSentence(server);
    number := screen.currentSentenceNumber;
  }

  /** What the user does on the screen: the record button, the upload button or the next button. */
  datatype Action = Toggle(freshPath: string, deviceOk: bool) | PressUpload | PressNext

  /**
   * With the upload as written the screen never moves past statement 1:
   * after the mount, any run of record, upload and next presses, with any
   * recorder outcome, leaves nothing uploaded, so every next press is
   * refused.
   */
  method UploadAsWrittenNeverAdvances(url: string, server: Statements, actions: seq<Action>)
    returns (advances: nat, number: nat)
    ensures advances == 0 && number == 1
  {
    var screen := new Screen(Some(url));
    var fetched := screen.Mount(server);
    advances := 0;
    var i := 0;
    while i < |actions|
      invariant 0 <= i <= |actions|
      invariant screen.Valid() && !screen.hasUploaded
      invariant screen.currentSentenceNumber == 1 && advances == 0
    {
      match actions[i] {
        case Toggle(freshPath, deviceOk) =>
          screen.ToggleRecording(freshPath, deviceOk);
        case PressUpload =>
          var request, busy := screen.UploadRecordingAsWritten();
        case PressNext =>
          var advanced, requests := screen.HandleNextSentenceAsWritten(server);
          advances := advances + if advanced then 1 else 0;
      }
      i := i + 1;
    }
    number := screen.currentSentenceNumber;
  }
}

/** The recording controller `WisprVoiceRecorder`: a two-state machine over `isRecording`
    that picks a capture backend when it starts, tears the backend down when it stops, and
    afterwards runs the processing step that hands the captured audio to the transcription
    service. Everything the environment decides (capabilities, platform, library loading,
    the user's answer to the permission prompt, the file system, the network reply) is a
    parameter; the processing step the source schedules asynchronously is a method the caller
    invokes after `StopRecording` reports it as scheduled. */
module VoiceRecorder {
  import opened Wrappers
  import opened Config
  import opened Events
  import opened TempFiles
  import opened Transcription
  import opened RecorderErrors

  datatype Backend = WebCapture | NativeCapture

  /** The `mediaRecorder` field: none created yet, recording, or `state === 'inactive'`. */
  datatype MediaRecorderState = NoMediaRecorder | MediaRecording | MediaInactive

  /** The processing step a stop schedules: `processWebRecording` from the media recorder's
      `onstop` handler, or `processNativeRecording` from a 500 ms timer. */
  datatype Scheduled = NothingScheduled | WebProcessing | NativeProcessing

  /** What the environment decides when a recording starts:
      - `mediaDevices`: `navigator` is defined and has `mediaDevices`;
      - `userMedia`: `getUserMedia` resolves, or rejects with the rendered error;
      - `platform`: `os.platform()`;
      - `micLoads`, `wavLoads`: `require('mic')`, `require('wav')` succeed;
      - `tmpDir`, `now`: `os.tmpdir()` and `Date.now()`;
      - `permissionChoice`: the button chosen in the permission prompt, `None` when dismissed. */
  datatype StartEnv = StartEnv(
    mediaDevices: bool,
    userMedia: Outcome<string>,
    platform: string,
    micLoads: bool,
    wavLoads: bool,
    tmpDir: string,
    now: nat,
    permissionChoice: Option<string>)

  /** A temporary file written for transcription, with its size in bytes. */
  datatype TempFile = TempFile(path: string, size: nat)

  /** The buttons of the permission prompt. */
  const StartChoice := "Start Recording"
  const DontAskAgainChoice := "Don't ask again"
  const CancelChoice := "Cancel"

  /** The web backend is chosen exactly when media devices are available. */
  function SelectBackend(mediaDevices: bool): (b: Backend)
    ensures b == WebCapture <==> mediaDevices
    ensures b == NativeCapture <==> !mediaDevices
  {
    if mediaDevices then WebCapture else NativeCapture
  }

  /** The native path gets as far as the permission prompt: macOS, and both libraries load. */
  predicate NativeLibrariesReady(env: StartEnv)
  {
    env.platform == "darwin" && env.micLoads && env.wavLoads
  }

  /** The permission prompt is shown: native path, libraries loaded, prompt not disabled. */
  predicate Prompted(env: StartEnv, skipPermissionDialog: bool)
  {
    !env.mediaDevices && NativeLibrariesReady(env) && !skipPermissionDialog
  }

  /** 'Don't ask again' turns the prompt off for later recordings and proceeds. */
  predicate DisablesPrompt(env: StartEnv, skipPermissionDialog: bool)
  {
    Prompted(env, skipPermissionDialog) && env.permissionChoice == Some(DontAskAgainChoice)
  }

  /** The failure `startWebRecording` throws, if any: only a rejected `getUserMedia`. */
  function WebStartError(env: StartEnv): (err: Option<StartFailure>)
    ensures err.None? <==> env.userMedia.Pass?
    ensures err.Some? ==> err.value == MediaRejected(env.userMedia.error)
  {
    match env.userMedia
    case Pass => None
    case Fail(rendered) => Some(MediaRejected(rendered))
  }

  /** The failure `startNativeRecording` throws, if any. The platform check comes before its
      `try`; a missing library (`mic` is loaded before `wav`) and a cancelled prompt are caught
      there and rethrown as a setup failure. Only 'Cancel' aborts: 'Start Recording', 'Don't ask again' and a
      dismissed prompt go on. */
  function NativeStartError(env: StartEnv, skipPermissionDialog: bool): (err: Option<StartFailure>)
    ensures err.None? <==> NativeLibrariesReady(env) && !(!skipPermissionDialog && env.permissionChoice == Some(CancelChoice))
    ensures env.platform != "darwin" ==> err == Some(UnsupportedPlatform)
    ensures env.platform == "darwin" && err.Some? ==> err.value.SetupFailed?
    ensures env.platform == "darwin" && !env.micLoads ==> err == Some(SetupFailed(MicMissing))
    ensures env.platform == "darwin" && env.micLoads && !env.wavLoads ==> err == Some(SetupFailed(WavMissing))
    ensures NativeLibrariesReady(env) && !skipPermissionDialog && env.permissionChoice == Some(CancelChoice) ==>
              err == Some(SetupFailed(CancelledByUser))
  {
    if env.platform != "darwin" then Some(UnsupportedPlatform)
    else if !env.micLoads then Some(SetupFailed(MicMissing))
    else if !env.wavLoads then Some(SetupFailed(WavMissing))
    else if !skipPermissionDialog && env.permissionChoice == Some(CancelChoice) then Some(SetupFailed(CancelledByUser))
    else None
  }

  predicate ChunksPositive(chunks: seq<nat>)
  {
    forall i :: 0 <= i < |chunks| ==> chunks[i] > 0
  }

  /** The size of `new Blob(chunks)`: the sum of the chunk sizes. */
  function BlobSize(chunks: seq<nat>): (n: nat)
    ensures ChunksPositive(chunks) ==> n >= |chunks|
    ensures n == 0 <== chunks == []
  {
    if chunks == [] then 0 else chunks[0] + BlobSize(chunks[1..])
  }

  /** The event fired once transcription settles: the transcript unchanged, or the error
      the service threw. */
  function OutcomeEvent(r: Result<string, TranscribeError>): (e: Event)
    ensures e.TranscriptionResult? <==> r.Success?
    ensures r.Success? ==> e.text == r.value
    ensures r.Failure? ==> e == Error(TranscriptionFailed(r.error))
  {
    match r
    case Success(text) => TranscriptionResult(text)
    case Failure(err) => Error(TranscriptionFailed(err))
  }

  class WisprVoiceRecorder {
    const service: TranscriptionService
    var isRecording: bool
    var mediaRecorder: MediaRecorderState
    /** `audioChunks`, as the size of each chunk. */
    var chunks: seq<nat>
    /** `recordingStream`, `micInstance`, `audioWriteStream` are present. */
    var hasStream: bool
    var hasMic: bool
    var hasWriter: bool
    var recordingFilePath: Option<string>
    /** Everything the three emitters delivered, in order. */
    var events: seq<Event>
    /** The emitters have been disposed: later fires reach nobody. */
    var disposed: bool

    /** A web session holds a stream and a running media recorder and nothing native. */
    ghost predicate WebSession()
      reads this`hasStream, this`mediaRecorder, this`hasMic, this`hasWriter
    {
      hasStream && mediaRecorder == MediaRecording && !hasMic && !hasWriter
    }

    /** A native session holds a microphone and a WAV writer, and nothing web. */
    ghost predicate NativeSession()
      reads this`hasStream, this`mediaRecorder, this`hasMic, this`hasWriter
    {
      hasMic && hasWriter && !hasStream && mediaRecorder != MediaRecording
    }

    ghost predicate Valid()
      reads this
    {
      SessionValid() && LogValid()
    }

    /** The resources held match the recording flag, and every buffered chunk holds data. */
    ghost predicate SessionValid()
      reads this`chunks, this`isRecording, this`hasStream, this`mediaRecorder, this`hasMic, this`hasWriter
    {
      && ChunksPositive(chunks)
      && (!isRecording ==> !hasStream && !hasMic && !hasWriter && mediaRecorder != MediaRecording)
      && (isRecording ==> WebSession() || NativeSession())
    }

    /** The delivered state changes alternate, and the last one delivered is the current
        state for as long as the emitters live. */
    ghost predicate LogValid()
      reads this`events, this`isRecording, this`disposed
    {
      && Alternates(events)
      && (LastReported(events) <==> isRecording && !disposed)
    }

    /** What a fire of `es` adds to the log. */
    function Deliver(es: seq<Event>): seq<Event>
      reads this
    {
      if disposed then [] else es
    }

    constructor (service: TranscriptionService)
      ensures Valid() && this.service == service
      ensures !isRecording && events == [] && chunks == [] && !disposed
      ensures mediaRecorder == NoMediaRecorder && !hasStream && !hasMic && !hasWriter && recordingFilePath.None?
    {
      this.service := service;
      isRecording := false;
      mediaRecorder := NoMediaRecorder;
      chunks := [];
      hasStream, hasMic, hasWriter := false, false, false;
      recordingFilePath := None;
      events := [];
      disposed := false;
    }

    /** Fires `e` on its emitter; the log stays alternating when a state change reports the
        opposite of the last one. */
    method Emit(e: Event)
      requires Alternates(events)
      requires !disposed && e.StateChanged? ==> e.recording != LastReported(events)
      modifies this`events
      ensures events == old(events) + Deliver([e])
      ensures Alternates(events)
      ensures LastReported(events) == if !disposed && e.StateChanged? then e.recording else LastReported(old(events))
    {
      if !disposed {
        AppendEvent(events, e);
        events := events + [e];
      }
    }

    /** The effect of `startRecording`: a no-op while recording; otherwise either the chosen
        backend is running and one `StateChanged(true)` is fired, or the recorder stays idle
        and one start error is fired. */
    twostate predicate Started(config: Configuration, env: StartEnv, prompted: bool)
      reads this, config
    {
      if old(isRecording) then
        unchanged(this) && config.skipPermissionDialog == old(config.skipPermissionDialog) && !prompted
      else if SelectBackend(env.mediaDevices) == WebCapture then
        WebStarted(env) && config.skipPermissionDialog == old(config.skipPermissionDialog) && !prompted
      else
        NativeStarted(config, env, prompted)
    }

    /** The end of a start attempt that failed with `err`, or succeeded when it is `None`. */
    twostate predicate Reported(err: Option<StartFailure>)
      reads this
    {
      && isRecording == err.None?
      && events == old(events) + Deliver(if err.None? then [StateChanged(true)] else [Error(StartFailed(err.value))])
      && disposed == old(disposed)
    }

    /** A web start: the chunk buffer is emptied, and on success a stream and a running
        media recorder are held; nothing native changes. */
    twostate predicate WebStarted(env: StartEnv)
      reads this
    {
      var err := WebStartError(env);
      && Reported(err)
      && chunks == []
      && hasStream == (if err.None? then true else old(hasStream))
      && mediaRecorder == (if err.None? then MediaRecording else old(mediaRecorder))
      && hasMic == old(hasMic) && hasWriter == old(hasWriter) && recordingFilePath == old(recordingFilePath)
    }

    /** A native start: the file path is chosen once the libraries load, the prompt may be
        shown and may disable itself, and on success a microphone and a writer are held;
        nothing web changes. */
    twostate predicate NativeStarted(config: Configuration, env: StartEnv, prompted: bool)
      reads this, config
    {
      var skip := old(config.skipPermissionDialog).GetOr(false);
      var err := NativeStartError(env, skip);
      && Reported(err)
      && prompted == Prompted(env, skip)
      && config.skipPermissionDialog == (if DisablesPrompt(env, skip) then Some(true) else old(config.skipPermissionDialog))
      && recordingFilePath == (if NativeLibrariesReady(env) then Some(TempFilePath(env.tmpDir, env.now, "wav")) else old(recordingFilePath))
      && hasMic == (if err.None? then true else old(hasMic))
      && hasWriter == (if err.None? then true else old(hasWriter))
      && chunks == old(chunks) && hasStream == old(hasStream) && mediaRecorder == old(mediaRecorder)
    }

    /** The effect of `stopRecording`: a no-op while idle; otherwise the state flips to idle and
        `StateChanged(false)` is fired before the backend is torn down and processing scheduled. */
    twostate predicate Stopped(scheduled: Scheduled)
      reads this
    {
      if !old(isRecording) then
        unchanged(this) && scheduled == NothingScheduled
      else
        && !isRecording
        && events == old(events) + Deliver([StateChanged(false)])
        && !hasStream && !hasMic && !hasWriter
        && mediaRecorder == (if old(mediaRecorder) == MediaRecording then MediaInactive else old(mediaRecorder))
        && scheduled == (if old(mediaRecorder) == MediaRecording then WebProcessing
                         else if old(hasMic) then NativeProcessing else NothingScheduled)
        && chunks == old(chunks) && recordingFilePath == old(recordingFilePath) && disposed == old(disposed)
    }

    method ToggleRecording(config: Configuration, env: StartEnv) returns (prompted: bool, scheduled: Scheduled)
      requires Valid()
      modifies this, config`skipPermissionDialog
      ensures Valid()
      ensures old(isRecording) ==> Stopped(scheduled) && config.skipPermissionDialog == old(config.skipPermissionDialog) && !prompted
      ensures !old(isRecording) ==> Started(config, env, prompted) && scheduled == NothingScheduled
    {
      if isRecording {
        scheduled := StopRecording();
        prompted := false;
      } else {
        prompted := StartRecording(config, env);
        scheduled := NothingScheduled;
      }
    }

    method StartRecording(config: Configuration, env: StartEnv) returns (prompted: bool)
      requires Valid()
      modifies this, config`skipPermissionDialog
      ensures Valid()
      ensures Started(config, env, prompted)
    {
      if isRecording {
        return false;
      }
      match SelectBackend(env.mediaDevices) {
        case WebCapture =>
          StartWebSession(config, env);
          prompted := false;
        case NativeCapture =>
          prompted := StartNativeSession(config, env);
      }
    }

    /** `startRecording` from idle with media devices available. */
    method StartWebSession(config: Configuration, env: StartEnv)
      requires Valid() && !isRecording && env.mediaDevices
      modifies this`chunks, this`hasStream, this`mediaRecorder, this`isRecording, this`events
      ensures Valid()
      ensures WebStarted(env)
    {
      var err := StartWebRecording(env);
      ReportStart(err);
    }

    /** `startRecording` from idle without media devices. */
    method StartNativeSession(config: Configuration, env: StartEnv) returns (prompted: bool)
      requires Valid() && !isRecording && !env.mediaDevices
      modifies this, config`skipPermissionDialog
      ensures Valid()
      ensures NativeStarted(config, env, prompted)
    {
      var err;
      err, prompted := StartNativeRecording(config, env);
      ReportStart(err);
    }

    /** The end of `startRecording`: on success the state flips and `StateChanged(true)` is
        fired, on failure the caught error is fired with its prefix. */
    method ReportStart(err: Option<StartFailure>)
      requires !isRecording && Alternates(events) && !LastReported(events)
      modifies this`isRecording, this`events
      ensures Reported(err)
      ensures Alternates(events)
      ensures LastReported(events) <==> isRecording && !disposed
    {
      match err {
        case None =>
          isRecording := true;
          Emit(StateChanged(true));
        case Some(e) =>
          Emit(Error(StartFailed(e)));
      }
    }

    method StartWebRecording(env: StartEnv) returns (err: Option<StartFailure>)
      modifies this`chunks, this`hasStream, this`mediaRecorder
      ensures err == WebStartError(env)
      ensures chunks == []
      ensures hasStream == (if err.None? then true else old(hasStream))
      ensures mediaRecorder == (if err.None? then MediaRecording else old(mediaRecorder))
    {
      chunks := [];
      match env.userMedia {
        case Fail(rendered) =>
          return Some(MediaRejected(rendered));
        case Pass =>
      }
      hasStream := true;
      mediaRecorder := MediaRecording;
      return None;
    }

    method StartNativeRecording(config: Configuration, env: StartEnv) returns (err: Option<StartFailure>, prompted: bool)
      requires !env.mediaDevices
      modifies this`recordingFilePath, this`hasMic, this`hasWriter, config`skipPermissionDialog
      ensures var skip := old(config.skipPermissionDialog).GetOr(false);
              && err == NativeStartError(env, skip)
              && prompted == Prompted(env, skip)
              && config.skipPermissionDialog == (if DisablesPrompt(env, skip) then Some(true) else old(config.skipPermissionDialog))
              && recordingFilePath == (if NativeLibrariesReady(env) then Some(TempFilePath(env.tmpDir, env.now, "wav")) else old(recordingFilePath))
              && hasMic == (if err.None? then true else old(hasMic))
              && hasWriter == (if err.None? then true else old(hasWriter))
    {
      prompted := false;
      if env.platform != "darwin" {
        return Some(UnsupportedPlatform), false;
      }
      var cause: Option<SetupCause> := None;
      if !env.micLoads {
        cause := Some(MicMissing);
      } else if !env.wavLoads {
        cause := Some(WavMissing);
      } else {
        recordingFilePath := Some(TempFilePath(env.tmpDir, env.now, "wav"));
        var skipPermissionDialog := config.skipPermissionDialog.GetOr(false);
        if !skipPermissionDialog {
          prompted := true;
          if env.permissionChoice == Some(CancelChoice) {
            cause := Some(CancelledByUser);
          } else if env.permissionChoice == Some(DontAskAgainChoice) {
            config.skipPermissionDialog := Some(true);
          }
        }
        if cause.None? {
          hasMic, hasWriter := true, true;
        }
      }
      match cause {
        case None =>
          err := None;
        case Some(c) =>
          err := Some(SetupFailed(c));
      }
    }

    method StopRecording() returns (scheduled: Scheduled)
      requires Valid()
      modifies this
      ensures Valid()
      ensures Stopped(scheduled)
      ensures old(isRecording) ==> scheduled != NothingScheduled
    {
      if !isRecording {
        return NothingScheduled;
      }
      isRecording := false;
      Emit(StateChanged(false));
      assert LogValid();
      scheduled := NothingScheduled;
      if mediaRecorder == MediaRecording {
        mediaRecorder := MediaInactive;
        scheduled := WebProcessing;
      }
      if hasStream {
        hasStream := false;
      }
      if hasMic {
        hasMic := false;
        if hasWriter {
          hasWriter := false;
        }
        scheduled := NativeProcessing;
      }
    }

    /** The media recorder's `ondataavailable` handler: only chunks with data are kept. */
    method OnDataAvailable(size: nat)
      requires Valid()
      modifies this`chunks
      ensures Valid()
      ensures chunks == if size > 0 then old(chunks) + [size] else old(chunks)
    {
      if size > 0 {
        chunks := chunks + [size];
      }
    }

    /** `processWebRecording`: with no chunks, only the empty-capture error; otherwise the
        chunks are saved to a `webm` temporary file (`write` is the outcome of writing it),
        which is transcribed, reported as exactly one result or error, and then deleted.
        `saved` is that file; `unlinked` is the file whose deletion is attempted, whatever the
        outcome of the transcription (a failure to delete it is ignored). */
    method ProcessWebRecording(config: Configuration, tmpDir: string, now: nat, write: Outcome<string>, reply: Reply)
      returns (saved: Option<TempFile>, unlinked: Option<string>)
      requires Valid()
      modifies this`events, service
      ensures Valid()
      ensures unlinked == (if old(chunks) != [] && write.Pass? then Some(TempFilePath(tmpDir, now, "webm")) else None)
      ensures old(chunks) == [] ==>
                saved.None? && unchanged(service) && events == old(events) + Deliver([Error(NoAudioData)])
      ensures old(chunks) != [] && write.Fail? ==>
                saved.None? && unchanged(service) && events == old(events) + Deliver([Error(ProcessFailed(write.error))])
      ensures old(chunks) != [] && write.Pass? ==>
                && saved == Some(TempFile(TempFilePath(tmpDir, now, "webm"), BlobSize(old(chunks))))
                && saved.value.size > 0
                && events == old(events) + Deliver([OutcomeEvent(TranscribeOutcome(old(service.client), config.openaiApiKey, reply))])
                && service.client == (if old(service.client).Some? then old(service.client) else Initialized(None, config.openaiApiKey))
                && service.requests == old(service.requests) +
                     (if Ready(old(service.client), config.openaiApiKey) then [BuildRequest(saved.value.path, config.language)] else [])
    {
      if chunks == [] {
        Emit(Error(NoAudioData));
        saved, unlinked := None, None;
      } else if write.Fail? {
        Emit(Error(ProcessFailed(write.error)));
        saved, unlinked := None, None;
      } else {
        var tempFilePath := TempFilePath(tmpDir, now, "webm");
        var size := BlobSize(chunks);
        assert size >= |chunks| > 0;
        saved := Some(TempFile(tempFilePath, size));
        TranscribeAndReport(tempFilePath, config, reply);
        unlinked := Some(tempFilePath);
      }
    }

    /** The `withProgress` task both processing steps run: transcribe the file and fire
        exactly one of the result and the error. */
    method TranscribeAndReport(path: string, config: Configuration, reply: Reply)
      requires LogValid()
      modifies this`events, service
      ensures LogValid()
      ensures events == old(events) + Deliver([OutcomeEvent(TranscribeOutcome(old(service.client), config.openaiApiKey, reply))])
      ensures service.client == (if old(service.client).Some? then old(service.client) else Initialized(None, config.openaiApiKey))
      ensures service.requests == old(service.requests) +
                (if Ready(old(service.client), config.openaiApiKey) then [BuildRequest(path, config.language)] else [])
    {
      var r := service.TranscribeAudio(path, config, reply);
      Emit(OutcomeEvent(r));
    }

    /** `processNativeRecording`: without a recorded file (no path, or `fileExists` false) only
        the missing-file error; otherwise the file is transcribed, reported as exactly one
        result or error, and deleted. `unlinked` is the file whose deletion is attempted;
        `unlinkOk` is whether that succeeds, which decides only whether the path is forgotten. */
    method ProcessNativeRecording(config: Configuration, fileExists: bool, reply: Reply, unlinkOk: bool)
      returns (unlinked: Option<string>)
      requires Valid()
      modifies this`events, this`recordingFilePath, service
      ensures Valid()
      ensures old(recordingFilePath).None? || !fileExists ==>
                && unlinked.None? && unchanged(service) && recordingFilePath == old(recordingFilePath)
                && events == old(events) + Deliver([Error(NoAudioFile)])
      ensures old(recordingFilePath).Some? && fileExists ==>
                && unlinked == old(recordingFilePath)
                && recordingFilePath == (if unlinkOk then None else old(recordingFilePath))
                && events == old(events) + Deliver([OutcomeEvent(TranscribeOutcome(old(service.client), config.openaiApiKey, reply))])
                && service.client == (if old(service.client).Some? then old(service.client) else Initialized(None, config.openaiApiKey))
                && service.requests == old(service.requests) +
                     (if Ready(old(service.client), config.openaiApiKey) then [BuildRequest(unlinked.value, config.language)] else [])
    {
      if recordingFilePath.None? || !fileExists {
        Emit(Error(NoAudioFile));
        unlinked := None;
      } else {
        var path := recordingFilePath.value;
        TranscribeAndReport(path, config, reply);
        unlinked := Some(path);
        if unlinkOk {
          recordingFilePath := None;
        }
      }
    }

    /** `dispose`: stops a running recording (which still schedules its processing), then
        disposes the emitters, so nothing fired afterwards reaches a subscriber. */
    method Dispose() returns (scheduled: Scheduled)
      requires Valid()
      modifies this
      ensures Valid()
      ensures disposed && !isRecording && !hasStream && !hasMic && !hasWriter
      ensures mediaRecorder == (if old(isRecording) && old(mediaRecorder) == MediaRecording then MediaInactive else old(mediaRecorder))
      ensures events == old(events) + (if old(isRecording) && !old(disposed) then [StateChanged(false)] else [])
      ensures scheduled == (if !old(isRecording) then NothingScheduled
                            else if old(mediaRecorder) == MediaRecording then WebProcessing else NativeProcessing)
      ensures chunks == old(chunks) && recordingFilePath == old(recordingFilePath)
    {
      if isRecording {
        scheduled := StopRecording();
      } else {
        scheduled := NothingScheduled;
      }
      // The source then stops `micInstance` and ends `audioWriteStream` if present; by Valid()
      // neither is present once the recorder is idle.
      disposed := true;
    }
  }
}

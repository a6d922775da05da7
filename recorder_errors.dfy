/** The errors the recorder fires on `onError`, kept as values, and the exact text a
    subscriber receives for each (`ErrorMessage`). A message tells its kind by its prefix, and a
    transcription failure can be read back from its message. */
module RecorderErrors {
  import opened Wrappers
  import opened Js
  import opened Transcription

  const StartFailedPrefix := "Failed to start recording: "
  const UnsupportedPlatformMessage := "Native recording is currently only supported on macOS. Please use VSCode in a browser for other platforms."
  const MicMissingMessage := "Mic module not available. Please install mic."
  const WavMissingMessage := "WAV module not available. Please install wav."
  const CancelledMessage := "Recording cancelled by user"
  const NoAudioDataMessage := "No audio data recorded"
  const NoAudioFileMessage := "No audio file was created during recording"
  const ProcessFailedPrefix := "Failed to process recording: "
  const TranscriptionFailedPrefix := "Transcription failed: "
  const SetupFailedPrefix := "Native recording setup failed: "
  /** What a transcription failure starts with: the recorder's prefix, then the rendering of
      the service's `Error`. */
  const ParsePrefix := TranscriptionFailedPrefix + "Error: "

  /** The advice appended to a native setup failure. */
  const SetupAdvice :=
    ". \n\n"
    + "For macOS ARM recording, please ensure:\n"
    + "1. Grant microphone permissions to VSCode when prompted\n"
    + "2. If you see \"sox\" errors, install with: brew install sox\n"
    + "3. Ensure VSCode has necessary system permissions\n\n"
    + "Alternative: Use VSCode in a browser for automatic web-based recording."

  /** What goes wrong inside the setup block of a native start. */
  datatype SetupCause = MicMissing | WavMissing | CancelledByUser

  /** What a start attempt throws: the rejection of `getUserMedia` (as it renders), the
      platform check, or a setup failure rethrown with advice. */
  datatype StartFailure =
    | MediaRejected(rendered: string)
    | UnsupportedPlatform
    | SetupFailed(cause: SetupCause)

  /** An error fired on `onError`. */
  datatype RecorderError =
    | StartFailed(failure: StartFailure)
    | NoAudioData
    | NoAudioFile
    | ProcessFailed(detail: string)
    | TranscriptionFailed(error: TranscribeError)

  function CauseMessage(c: SetupCause): string
  {
    match c
    case MicMissing => MicMissingMessage
    case WavMissing => WavMissingMessage
    case CancelledByUser => CancelledMessage
  }

  /** The message `startNativeRecording` rethrows when its setup fails with `cause`. */
  function NativeSetupFailedMessage(cause: string): (m: string)
    ensures HasPrefix(m, SetupFailedPrefix)
  {
    var m := SetupFailedPrefix + (cause + SetupAdvice);
    assert m[..|SetupFailedPrefix|] == SetupFailedPrefix;
    m
  }

  /** `${error}` for what a start attempt throws. Both thrown `Error`s render with the
      `Error: ` prefix; a setup failure carries the rendering of its cause inside. */
  function StartFailureText(f: StartFailure): (s: string)
    ensures f == UnsupportedPlatform ==> s == ErrorText(UnsupportedPlatformMessage)
    ensures f.SetupFailed? ==>
              |s| >= 7 && HasPrefix(s[7..], SetupFailedPrefix)
              && s[7..] == NativeSetupFailedMessage(ErrorText(CauseMessage(f.cause)))
    ensures f.MediaRejected? ==> s == f.rendered
  {
    match f
    case MediaRejected(rendered) => rendered
    case UnsupportedPlatform => ErrorText(UnsupportedPlatformMessage)
    case SetupFailed(cause) => ErrorText(NativeSetupFailedMessage(ErrorText(CauseMessage(cause))))
  }

  /** The string a subscriber of `onError` receives: the start and processing failures carry
      their prefix and then the rendered cause; a transcription failure repeats the service's
      own `Transcription failed: ` inside `Error: ` when the service failed upstream. */
  function ErrorMessage(e: RecorderError): (m: string)
    ensures e.StartFailed? ==> HasPrefix(m, StartFailedPrefix) && m[|StartFailedPrefix|..] == StartFailureText(e.failure)
    ensures e == NoAudioData ==> m == NoAudioDataMessage
    ensures e == NoAudioFile ==> m == NoAudioFileMessage
    ensures e.ProcessFailed? ==> HasPrefix(m, ProcessFailedPrefix) && m[|ProcessFailedPrefix|..] == e.detail
    ensures e.TranscriptionFailed? ==> m == ParsePrefix + Message(e.error)
    ensures e.TranscriptionFailed? && e.error.Upstream? ==> m == ParsePrefix + TranscriptionFailedPrefix + e.error.detail
  {
    match e
    case StartFailed(f) => StartFailedPrefix + StartFailureText(f)
    case NoAudioData => NoAudioDataMessage
    case NoAudioFile => NoAudioFileMessage
    case ProcessFailed(detail) => ProcessFailedPrefix + detail
    case TranscriptionFailed(err) =>
      Associative(TranscriptionFailedPrefix, "Error: ", Message(err));
      var detail := if err.Upstream? then err.detail else "";
      Associative(ParsePrefix, TranscriptionFailedPrefix, detail);
      TranscriptionFailedPrefix + ErrorText(Message(err))
  }

  lemma Associative(a: string, b: string, c: string)
    ensures a + (b + c) == (a + b) + c
  {
  }

  datatype ErrorKind = StartKind | NoAudioDataKind | NoAudioFileKind | ProcessKind | TranscriptionKind

  function Kind(e: RecorderError): ErrorKind
  {
    match e
    case StartFailed(_) => StartKind
    case NoAudioData => NoAudioDataKind
    case NoAudioFile => NoAudioFileKind
    case ProcessFailed(_) => ProcessKind
    case TranscriptionFailed(_) => TranscriptionKind
  }

  /** Tells the kind of a message by its fixed text or its prefix. */
  function ClassifyMessage(m: string): Option<ErrorKind>
  {
    if m == NoAudioDataMessage then Some(NoAudioDataKind)
    else if m == NoAudioFileMessage then Some(NoAudioFileKind)
    else if HasPrefix(m, StartFailedPrefix) then Some(StartKind)
    else if HasPrefix(m, ProcessFailedPrefix) then Some(ProcessKind)
    else if HasPrefix(m, TranscriptionFailedPrefix) then Some(TranscriptionKind)
    else None
  }

  lemma PrefixOfAppend(p: string, rest: string)
    ensures HasPrefix(p + rest, p)
  {
    assert (p + rest)[..|p|] == p;
  }

  /** A string that differs from `p` at some position within both does not start with `p`. */
  lemma DiffersFrom(m: string, p: string, i: nat)
    requires i < |m| && i < |p| && m[i] != p[i]
    ensures !HasPrefix(m, p) && m != p
  {
    if |p| <= |m| {
      assert m[..|p|][i] == m[i];
    }
  }

  /** Messages of different kinds never coincide: the kind can be read back from the text. */
  lemma ClassifyErrorMessage(e: RecorderError)
    ensures ClassifyMessage(ErrorMessage(e)) == Some(Kind(e))
  {
    var m := ErrorMessage(e);
    match e {
      case StartFailed(f) =>
        PrefixOfAppend(StartFailedPrefix, StartFailureText(f));
        DiffersFrom(m, NoAudioDataMessage, 0);
        DiffersFrom(m, NoAudioFileMessage, 0);
      case NoAudioData =>
      case NoAudioFile =>
      case ProcessFailed(d) =>
        PrefixOfAppend(ProcessFailedPrefix, d);
        DiffersFrom(m, NoAudioDataMessage, 0);
        DiffersFrom(m, NoAudioFileMessage, 0);
        DiffersFrom(m, StartFailedPrefix, 10);
      case TranscriptionFailed(err) =>
        PrefixOfAppend(TranscriptionFailedPrefix, ErrorText(Message(err)));
        DiffersFrom(m, NoAudioDataMessage, 0);
        DiffersFrom(m, NoAudioFileMessage, 0);
        DiffersFrom(m, StartFailedPrefix, 0);
        DiffersFrom(m, ProcessFailedPrefix, 0);
    }
  }

  /** Reads the service error back from a transcription-failure message. */
  function ParseTranscriptionFailure(m: string): Option<TranscribeError>
  {
    if HasPrefix(m, ParsePrefix) then ParseMessage(m[|ParsePrefix|..]) else None
  }

  /** A transcription failure is read back to the error that caused it. */
  lemma ParseTranscriptionFailureOfMessage(err: TranscribeError)
    ensures ParseTranscriptionFailure(ErrorMessage(TranscriptionFailed(err))) == Some(err)
  {
    ParsePrefixed(Message(err));
    ParseMessageOfMessage(err);
  }

  /** Behind the two prefixes, the rest of the text is parsed as a service message. */
  lemma ParsePrefixed(msg: string)
    ensures ParseTranscriptionFailure(ParsePrefix + msg) == ParseMessage(msg)
  {
    PrefixOfAppend(ParsePrefix, msg);
    assert (ParsePrefix + msg)[|ParsePrefix|..] == msg;
  }

  /** No other error reads as a transcription failure. */
  lemma ParseTranscriptionFailureOfOthers(e: RecorderError)
    requires !e.TranscriptionFailed?
    ensures ParseTranscriptionFailure(ErrorMessage(e)) == None
  {
    var m := ErrorMessage(e);
    match e {
      case StartFailed(f) =>
        assert m[0] == StartFailedPrefix[0];
      case NoAudioData =>
      case NoAudioFile =>
      case ProcessFailed(d) =>
        assert m[0] == ProcessFailedPrefix[0];
    }
    DiffersFrom(m, ParsePrefix, 0);
  }
}

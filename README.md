# Wispr voice recorder — a Dafny model

Wispr is a VS Code extension that records speech from the microphone and turns it into
text through OpenAI's Whisper endpoint. This project models its core:

- **The recording controller `WisprVoiceRecorder`** (`voice_recorder.dfy`). It is a
  two-state machine over `isRecording`:
  - A start picks a capture backend: web capture (`getUserMedia` plus a media recorder that
    buffers chunks) when media devices exist, native capture otherwise.
  - The native backend runs only on macOS. It loads the `mic` and `wav` libraries, names a
    `wav` temporary file, and may ask for permission first. The answer "Don't ask again"
    turns that prompt off.
  - A stop tears the backend down and schedules the matching processing step.
  - Processing saves or locates the audio and hands it to the transcription service.
  - Every outcome is reported on three emitters: the state change, the transcript and the
    error text.
- **The error texts the recorder fires** (`recorder_errors.dfy`). They are kept as values
  together with the exact string each one renders to.
- **The merged event log** (`events.dfy`). Its key property is that the state changes
  alternate.
- **The temporary file names** (`temp_files.dfy`): `wispr-recording-<ms>.wav|webm`.
- **`TranscriptionService`** (`transcription.dfy`). It holds a lazily created client and
  refuses to transcribe without a truthy API key. It defaults the language to `en` and maps
  the upstream HTTP status to its own errors.
- **The pure decisions of the extension glue** (`extension.dfy`):
  - the setting toggles behind the commands;
  - the status-bar label;
  - what happens to a finished transcript: the clipboard, the buttons offered, and the
    action each button triggers.

Everything the environment decides is a parameter of the operation that consults it:
- the platform;
- whether the libraries load;
- the user's answer to the prompt;
- the clock and the temporary directory;
- whether a file exists or could be written;
- the endpoint's reply.

The settings store is the class `Config.Configuration`. Each of its fields is `None` when the
setting is undefined.

Decisions by module:

- **Transcription.** The OpenAI call is an oracle: the service records every request it
  sends, and the method returns what the given reply leads to.
- **Events.** The three emitters are one log of `Event`s. `Error(e)` in the log stands for
  delivering the string `RecorderErrors.ErrorMessage(e)`. Disposal is a flag: after it,
  nothing more reaches the log.
- **Scheduling.** `StopRecording` returns which processing step it scheduled: the media
  recorder's `onstop` for web capture, the 500 ms timer for native capture. The caller then
  invokes `ProcessWebRecording` or `ProcessNativeRecording`.
- **Status bar.** The extension's status bar is a small class, `StatusBarItem`. Its label is
  computed by `StatusBarLabel`.

`dispose` does not skip processing. It calls `stopRecording`, which still schedules it; the
events of that processing then reach no subscriber, and `Dispose` says so.

## Model

| member | source | states |
|---|---|---|
| TempFiles.Decimal | src/voiceRecorder.ts:164 | `${Date.now()}` is a non-empty run of decimal digits without a leading zero. |
| TempFiles.ParseDecimalOfDecimal | src/voiceRecorder.ts:164 | The decimal rendering of a timestamp reads back to the same timestamp. |
| TempFiles.DecimalInjective | src/voiceRecorder.ts:164 | Different timestamps render differently. |
| TempFiles.DigitRun | src/voiceRecorder.ts:164 | The leading digit run of a name is all digits and ends at the first non-digit. |
| TempFiles.DigitRunStopsAtDot | src/voiceRecorder.ts:164 | In `<digits>.<ext>` the digit run ends exactly at the dot. |
| TempFiles.Join | src/voiceRecorder.ts:163-164 | `path.join(dir, name)` is the directory, one separator, then the name, each recoverable. |
| TempFiles.TempFilePath | src/voiceRecorder.ts:163-164 | The temporary file of a recording: `wispr-recording-<ms>.<ext>` joined to the temporary directory, with `wav` for native capture (line 164) and `webm` for web capture (line 323). The path starts with the directory and one separator and ends with `.` and the extension. Its length is exactly that of the directory, the separator, `wispr-recording-`, the timestamp's digits, the dot and the extension. |
| TempFiles.TempFilePathParts | src/voiceRecorder.ts:163-164 | From a recording path one reads back the directory prefix, the timestamp and the extension. |
| TempFiles.TempFilePathInjective | src/voiceRecorder.ts:321-324 | Two temporary paths in one directory coincide only if their timestamps and extensions do. |
| TempFiles.WavAndWebmDiffer | src/voiceRecorder.ts:321-324 | A native `wav` file and a web `webm` file never share a path, whatever their timestamps. |
| Events.AppendEvent | src/voiceRecorder.ts:43-49 | Firing one event changes the last reported state only when it is a state change. The log keeps alternating exactly when that change is the opposite of the last one. |
| Events.AlternatesIffAlternating | src/voiceRecorder.ts:61-91 | The recursive alternation invariant equals the reference one: the state changes read true, false, true, … from the start. In such a log the last reported state is `true` exactly when the number of changes is odd. |
| Transcription.ParseMessageOfMessage | src/transcriptionService.ts:35-59 | Every error the service throws can be read back from its message. |
| Transcription.Message | src/transcriptionService.ts:35-59 | The message of each error `transcribeAudio` throws: the four fixed texts of lines 35, 53, 55 and 57, and `Transcription failed: ` followed by the detail (line 59). The detail is recovered after that prefix, and no fixed text starts with it. |
| Transcription.MessageInjective | src/transcriptionService.ts:51-61 | Distinct service errors have distinct messages. An upstream failure keeps its detail. |
| Transcription.ConfiguredKey | src/transcriptionService.ts:13-16 | A key is used exactly when the setting is truthy. A used key is the configured one and non-empty. |
| Transcription.Initialized | src/transcriptionService.ts:12-29 | A truthy key yields a client built with that key. Otherwise the current client is kept, including none. |
| Transcription.BuildRequest | src/transcriptionService.ts:40-48 | The request names the file, model `whisper-1` and text output. Its language is the configured one when truthy, `en` otherwise, and never empty. |
| Transcription.Detail | src/transcriptionService.ts:59 | The upstream detail is the error's message when truthy, and the error's rendering otherwise. |
| Transcription.ErrorForStatus | src/transcriptionService.ts:51-61 | Status 401, 429 and 402 each map to their own error, in both directions. Every other status, or none, is an upstream failure carrying the detail. A failure never reads as a missing key. |
| Transcription.TranscribeOutcome | src/transcriptionService.ts:31-62 | The result is the missing-key error exactly when no client exists or can be created. It is the transcript exactly when ready and the endpoint answers. Any other failure is mapped from its status. |
| Transcription.TranscriptionService.constructor | src/transcriptionService.ts:8-10 | A new service is initialised from the configured key and has sent nothing. |
| Transcription.TranscriptionService.InitializeOpenAI | src/transcriptionService.ts:12-29 | The client becomes `Initialized(old client, key)`. |
| Transcription.TranscriptionService.TranscribeAudio | src/transcriptionService.ts:31-62 | Returns `TranscribeOutcome`. Re-initialises only when there is no client. Sends exactly one request, built by `BuildRequest`, when ready, and none otherwise. |
| Transcription.TranscriptionService.ReconfigureAPI | src/transcriptionService.ts:64-66 | Re-reads the key exactly as initialisation does and sends nothing. |
| Transcription.InitializeNeverClears | src/transcriptionService.ts:16-26 | Once a client exists, no re-initialisation loses it, and the service stays ready whatever the key becomes. |
| RecorderErrors.NativeSetupFailedMessage | src/voiceRecorder.ts:237-247 | A rethrown native setup error starts with `Native recording setup failed: `. |
| RecorderErrors.StartFailureText | src/voiceRecorder.ts:151-248 | Renders a start failure. The platform error renders as `Error: <message>`. A setup failure is `Error: ` and then the setup prefix, the rendered cause and the advice. A rejected `getUserMedia` renders as it was thrown. |
| RecorderErrors.ErrorMessage | src/voiceRecorder.ts:79-302 | The text fired on `onError` for each error. A start failure (line 79) and a processing failure (line 282) are their prefix and then the rendered cause. The cause texts of a native start, in `CauseMessage`, are those of lines 17, 28 and 183. The two missing-audio texts (lines 253 and 288) are fixed. A transcription failure (lines 270 and 302) is `Transcription failed: Error: ` and then the service's message, so an upstream failure carries `Transcription failed: ` twice. |
| RecorderErrors.ClassifyErrorMessage | src/voiceRecorder.ts:250-303 | Errors of every kind have distinguishable texts: the kind is read back from the fixed text or the prefix. |
| RecorderErrors.ParseTranscriptionFailureOfMessage | src/voiceRecorder.ts:269-271 | The service error behind a `Transcription failed: ` message is read back from it. |
| RecorderErrors.ParseTranscriptionFailureOfOthers | src/voiceRecorder.ts:250-303 | No other recorder error reads as a transcription failure. |
| VoiceRecorder.SelectBackend | src/voiceRecorder.ts:66-73 | Web capture exactly when media devices exist, native capture exactly when they do not. |
| VoiceRecorder.WebStartError | src/voiceRecorder.ts:122-132 | A web start fails exactly when `getUserMedia` rejects, with that rejection. |
| VoiceRecorder.NativeStartError | src/voiceRecorder.ts:151-248 | A native start succeeds exactly on macOS with both libraries loaded and the prompt not cancelled. Other platforms get the platform error. On macOS every failure is a setup failure. A missing `mic` gives the mic cause. A loaded `mic` with a missing `wav` gives the wav cause. A cancelled prompt is the cancel cause. |
| VoiceRecorder.BlobSize | src/voiceRecorder.ts:258 | A blob of non-empty chunks holds at least one byte per chunk. No chunks make an empty blob. |
| VoiceRecorder.OutcomeEvent | src/voiceRecorder.ts:266-271 | The settled transcription fires the transcript unchanged, or the service's error as a transcription failure. |
| VoiceRecorder.WisprVoiceRecorder.constructor | src/voiceRecorder.ts:34-51 | A new recorder is idle, holds nothing, has fired nothing and keeps the invariant. |
| VoiceRecorder.WisprVoiceRecorder.Emit | src/voiceRecorder.ts:43-49 | A fire appends the event unless the emitters are disposed, and keeps the state changes alternating. |
| VoiceRecorder.WisprVoiceRecorder.ToggleRecording | src/voiceRecorder.ts:53-59 | Stops when recording and starts otherwise, with the effects of `Stopped` or `Started`, and keeps the invariant. |
| VoiceRecorder.WisprVoiceRecorder.StartRecording | src/voiceRecorder.ts:61-81 | No-op while recording. Otherwise the selected backend starts, and either the recorder is recording and `true` is fired, or it stays idle and exactly one start error is fired. Keeps the invariant: the last state fired is the current state. |
| VoiceRecorder.WisprVoiceRecorder.StartWebSession | src/voiceRecorder.ts:66-80 | A web start from idle has exactly the effects of `WebStarted` and keeps the invariant. |
| VoiceRecorder.WisprVoiceRecorder.StartNativeSession | src/voiceRecorder.ts:66-80 | A native start from idle has exactly the effects of `NativeStarted` and keeps the invariant. |
| VoiceRecorder.WisprVoiceRecorder.ReportStart | src/voiceRecorder.ts:75-79 | Success sets the state and fires `true`. Failure leaves the recorder idle and fires the prefixed error. The log keeps alternating. |
| VoiceRecorder.WisprVoiceRecorder.StartWebRecording | src/voiceRecorder.ts:122-149 | Empties the chunk buffer. On success it holds a stream and a running media recorder. It fails exactly as `WebStartError`. |
| VoiceRecorder.WisprVoiceRecorder.StartNativeRecording | src/voiceRecorder.ts:151-248 | Fails exactly as `NativeStartError`. Names the `wav` file once the libraries load. Prompts exactly when the setting allows. "Don't ask again" stores the setting. Holds a mic and a writer exactly on success. |
| VoiceRecorder.WisprVoiceRecorder.StopRecording | src/voiceRecorder.ts:83-115 | No-op while idle. Otherwise it becomes idle, fires `false`, releases stream, mic and writer, stops the media recorder, schedules web or native processing, and keeps the invariant. |
| VoiceRecorder.WisprVoiceRecorder.OnDataAvailable | src/voiceRecorder.ts:138-142 | A chunk is buffered exactly when it holds data. |
| VoiceRecorder.WisprVoiceRecorder.ProcessWebRecording | src/voiceRecorder.ts:251-284 | No chunks: only the no-audio error. A failed save: only the process error. Otherwise a `webm` file of the blob's (positive) size is transcribed and exactly one result or error is fired. The service keeps its client or creates one lazily. Deletion of that file is attempted exactly when it was saved, whatever the transcription's outcome. |
| VoiceRecorder.WisprVoiceRecorder.TranscribeAndReport | src/voiceRecorder.ts:261-279 | One transcription call fires exactly one event, `OutcomeEvent` of the service's outcome, and sends the service's request. The service's client is kept, or created lazily when there was none. |
| VoiceRecorder.WisprVoiceRecorder.ProcessNativeRecording | src/voiceRecorder.ts:286-319 | No path or no file: only the missing-file error. Otherwise the recorded file is transcribed, exactly one result or error is fired, and the service's client is kept or lazily created. Deletion of the file is attempted, and the path is forgotten exactly when it succeeds. |
| VoiceRecorder.WisprVoiceRecorder.Dispose | src/voiceRecorder.ts:335-351 | Ends idle with nothing held and the emitters disposed. A running recording is stopped: `false` is fired, a running media recorder becomes inactive, and its processing is still scheduled. |
| Extension.ToggledMode | src/extension.ts:88-90 | The new mode is always `api` or `local`. It is `local` exactly when the current mode, defaulting to `api`, is `api`. |
| Extension.ToggledModeTwice | src/extension.ts:86-102 | Toggling the mode twice restores it. |
| Extension.ToggledFlag | src/extension.ts:58-60 | A toggled setting differs from its current value, the default included. |
| Extension.ResetPermissionDialog | src/extension.ts:49-54 | The prompt setting is stored as shown-again, with the reset message. |
| Extension.TogglePermissionDialog | src/extension.ts:56-69 | The prompt setting is flipped (default: prompt shown). The message matches the new value. |
| Extension.ToggleAutoCopyClipboard | src/extension.ts:71-84 | The auto-copy setting is flipped (default: on). The message matches the new value. |
| Extension.ToggleTranscriptionMode | src/extension.ts:86-102 | Stores the toggled mode and redraws the bar as idle in that mode, as written. The message names the new mode. |
| Extension.ModeToggleWhileRecordingLooksIdle | src/extension.ts:229-231 | During a recording, the redraw of a mode toggle loses the recording text, colours and stop tooltip. |
| Extension.ToggleTranscriptionModeShowingState | src/extension.ts:86-102 | The corrected command: the bar keeps showing the recorder's real state after a mode toggle. |
| Extension.StatusBarLabel | src/extension.ts:204-227 | Recording: the red label, stop tooltip and warning colours. Idle: the microphone label and no colours. The house icon appears exactly when the mode is `local`, and the cloud icon otherwise. The start tooltip names "Local Whisper" exactly when local and "OpenAI API" exactly when not. |
| Extension.StatusBarLabelDistinguishes | src/extension.ts:210-224 | The recording label ignores the mode. Idle labels are equal exactly when both modes are local or both are not. A recording label never equals an idle one. |
| Extension.StatusBarItem.constructor | src/extension.ts:19-24 | The item starts as the plain microphone label with the start tooltip and no colours. |
| Extension.UpdateStatusBar | src/extension.ts:204-227 | The item shows exactly `StatusBarLabel` of the state and the configured mode. |
| Extension.PresentResult | src/extension.ts:234-252 | Auto-copy (default on) copies at once. The copy button is offered exactly when auto-copy is off. Insert and show are always offered. No other or repeated button appears. The message says whether the text was copied. |
| Extension.Dispatch | src/extension.ts:258-267 | Each button label triggers its own action, in both directions. Anything else, or a dismissed message, does nothing. |
| Extension.OfferedButtonsDispatchApart | src/extension.ts:250-267 | Every button offered triggers an action, and no two offered buttons trigger the same one. |
| Extension.ResultEffects | src/extension.ts:233-286 | The text reaches the clipboard exactly when auto-copy is on or "Copy" is chosen. It is inserted exactly when "Insert" is chosen with an editor open, and opened exactly when "Show" is chosen. The result message is always shown. |

## Left out

- The VS Code host is not modelled beyond its effects: notifications, progress windows,
  status-bar colours, output logging, `withProgress`.
- The install command for local Whisper is not modelled (`wispr.installLocalWhisper`, an
  external process). Neither is the `activate` wiring that registers commands and
  subscribes the status bar and message handlers to the recorder.
- The `onError` handler's display prefix `Wispr Error: ` is not modelled: the log holds the
  recorder's own error texts.
- The `deactivate` function is not modelled beyond `Dispose`.
- Microphone, WAV writer, `MediaRecorder` and `getUserMedia` are represented only by which
  of them are held. Their audio is not modelled, and the track loop is folded into one flag.
  So is the caching of the loaded `mic` and `wav` modules: each start decides afresh
  whether they load.
- Failures while constructing the media recorder or the native microphone and writer are not
  modelled. Neither are the asynchronous `Microphone error` and `File write error` stream
  handlers.
- The `Failed to stop recording` and `Failed to process native recording` catch blocks are
  not modelled: nothing in the modelled steps can throw there.
- Timing and concurrency are not modelled. The 500 ms timer and the media recorder's `onstop`
  become a `Scheduled` value, and the caller runs the processing step. Interleavings of
  several asynchronous steps are not modelled.
- The `Date.now()` clock, `os.tmpdir()`, `os.platform()`, `fs.existsSync`, `fs.writeFileSync`
  and, in native processing, the success of `fs.unlinkSync` are parameters. Web processing
  ignores that success, so it reports only the deletion it attempts. `path.join` is modelled as joining with one `/`,
  without normalisation.
- The OpenAI endpoint is an oracle. The audio stream it reads and `String(transcription)` are
  not modelled.
- The settings prompt `initializeOpenAI` shows when no key is set is not modelled.
- A failing `config.update` is not modelled; nor are the confirmation message shown after
  "Don't ask again" and the editor edit of "Insert at Cursor".
- Blob contents are not modelled; chunks are represented by their sizes.

## Findings

| source | as written | input that shows it | evidently intended | confidence | as-written member | corrected member |
|---|---|---|---|---|---|---|
| src/extension.ts:229-231 | `updateStatusBarWithMode` ignores the mode and always redraws the bar as idle | run `wispr.toggleTranscriptionMode` while a recording is in progress | the bar keeps showing the recording, which a later stop redraws with the new mode | medium; not executed | Extension.ModeToggleWhileRecordingLooksIdle | Extension.ToggleTranscriptionModeShowingState |

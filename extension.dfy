/** The decisions of the extension glue: the setting toggles behind the commands, the
    status-bar label chosen from the recording state and the mode, and what is done with a
    transcript (clipboard, buttons, the chosen action). Host calls (messages, clipboard,
    editor, documents) are returned as a list of effects instead of being performed. */
module Extension {
  import opened Wrappers
  import opened Config
  import Js

  const ApiMode := "api"
  const LocalMode := "local"

  /** `currentMode === 'api' ? 'local' : 'api'` on `config.get('transcriptionMode', 'api')`. */
  function ToggledMode(mode: Option<string>): (m: string)
    ensures m == LocalMode || m == ApiMode
    ensures m == LocalMode <==> mode.GetOr(ApiMode) == ApiMode
  {
    if mode.GetOr(ApiMode) == ApiMode then LocalMode else ApiMode
  }

  /** Toggling twice restores either valid mode. */
  lemma ToggledModeTwice(m: string)
    requires m == ApiMode || m == LocalMode
    ensures ToggledMode(Some(ToggledMode(Some(m)))) == m
  {
  }

  /** `!config.get(key, default)`: the value stored by a boolean toggle. */
  function ToggledFlag(current: Option<bool>, default: bool): (b: bool)
    ensures b != current.GetOr(default)
    ensures current.None? ==> b == !default
  {
    !current.GetOr(default)
  }

  const PermissionDisabledMessage := "Permission dialog disabled. Recording will start immediately when clicking the microphone."
  const PermissionEnabledMessage := "Permission dialog enabled. You will be prompted before each recording."
  const PermissionResetMessage := "Microphone permission dialog has been reset. You will be prompted again on next recording."
  const AutoCopyEnabledMessage := "Auto-copy to clipboard enabled. Transcribed text will be automatically copied."
  const AutoCopyDisabledMessage := "Auto-copy to clipboard disabled. You can manually copy text using the action button."
  const LocalModeMessage := "Switched to Local Whisper mode. Transcription will run offline."
  const ApiModeMessage := "Switched to API mode. Transcription will use OpenAI API."

  /** The `wispr.resetPermissionDialog` command: the prompt is shown again from now on. */
  method ResetPermissionDialog(config: Configuration) returns (message: string)
    modifies config`skipPermissionDialog
    ensures config.skipPermissionDialog == Some(false)
    ensures message == PermissionResetMessage
  {
    config.skipPermissionDialog := Some(false);
    message := PermissionResetMessage;
  }

  /** The `wispr.togglePermissionDialog` command (default: the prompt is shown). */
  method TogglePermissionDialog(config: Configuration) returns (message: string)
    modifies config`skipPermissionDialog
    ensures config.skipPermissionDialog == Some(ToggledFlag(old(config.skipPermissionDialog), false))
    ensures message == if config.skipPermissionDialog.value then PermissionDisabledMessage else PermissionEnabledMessage
  {
    var newValue := ToggledFlag(config.skipPermissionDialog, false);
    config.skipPermissionDialog := Some(newValue);
    message := if newValue then PermissionDisabledMessage else PermissionEnabledMessage;
  }

  /** The `wispr.toggleAutoCopyClipboard` command (default: copying is on). */
  method ToggleAutoCopyClipboard(config: Configuration) returns (message: string)
    modifies config`autoCopyToClipboard
    ensures config.autoCopyToClipboard == Some(ToggledFlag(old(config.autoCopyToClipboard), true))
    ensures message == if config.autoCopyToClipboard.value then AutoCopyEnabledMessage else AutoCopyDisabledMessage
  {
    var newValue := ToggledFlag(config.autoCopyToClipboard, true);
    config.autoCopyToClipboard := Some(newValue);
    message := if newValue then AutoCopyEnabledMessage else AutoCopyDisabledMessage;
  }

  /** What the status-bar item shows. `warning` stands for the warning background and
      foreground colours, which are cleared otherwise. */
  datatype Label = Label(text: string, tooltip: string, warning: bool)

  const RecordingText := "\U{1F534} Recording..."
  const StopTooltip := "Click to stop recording"
  const IdlePrefix := "\U{1F3A4} Wispr "
  const LocalIcon := "\U{1F3E0}"
  const CloudIcon := "\U{2601}\U{FE0F}"

  predicate IsLocal(mode: Option<string>)
  {
    mode.GetOr(ApiMode) == LocalMode
  }

  /** The idle tooltip, naming the transcription backend. */
  function StartTooltip(backend: string): string
  {
    "Click to start voice recording (" + backend + ")"
  }

  /** `updateStatusBar(isRecording)` with the configured mode. */
  function StatusBarLabel(isRecording: bool, mode: Option<string>): (l: Label)
    ensures l.warning == isRecording
    ensures isRecording ==> l.text == RecordingText && l.tooltip == StopTooltip
    ensures !isRecording ==> Js.HasPrefix(l.text, IdlePrefix)
    ensures !isRecording ==> (l.text == IdlePrefix + LocalIcon <==> mode == Some(LocalMode))
    ensures !isRecording ==> (l.text == IdlePrefix + CloudIcon <==> mode != Some(LocalMode))
    ensures !isRecording ==> (l.tooltip == StartTooltip("Local Whisper") <==> IsLocal(mode))
    ensures !isRecording ==> (l.tooltip == StartTooltip("OpenAI API") <==> !IsLocal(mode))
  {
    if isRecording then Label(RecordingText, StopTooltip, true)
    else
      var local := IsLocal(mode);
      Label(IdlePrefix + (if local then LocalIcon else CloudIcon),
            StartTooltip(if local then "Local Whisper" else "OpenAI API"),
            false)
  }

  /** While recording the label is the same whatever the mode; while idle it tells the two
      modes apart, and nothing else; and it never looks the same recording and idle. */
  lemma StatusBarLabelDistinguishes(m1: Option<string>, m2: Option<string>)
    ensures StatusBarLabel(true, m1) == StatusBarLabel(true, m2)
    ensures StatusBarLabel(false, m1) == StatusBarLabel(false, m2) <==> (IsLocal(m1) <==> IsLocal(m2))
    ensures StatusBarLabel(true, m1) != StatusBarLabel(false, m2)
  {
    var l1, l2 := StatusBarLabel(false, m1), StatusBarLabel(false, m2);
    if IsLocal(m1) != IsLocal(m2) {
      assert l1.text[|IdlePrefix|] != l2.text[|IdlePrefix|];
    }
  }

  class StatusBarItem {
    var text: string
    var tooltip: string
    var warning: bool

    /** The item as activation creates it. */
    constructor ()
      ensures text == "\U{1F3A4} Wispr" && tooltip == "Click to start voice recording" && !warning
    {
      text := "\U{1F3A4} Wispr";
      tooltip := "Click to start voice recording";
      warning := false;
    }

    function Shown(): Label
      reads this
    {
      Label(text, tooltip, warning)
    }
  }

  method UpdateStatusBar(item: StatusBarItem, isRecording: bool, config: Configuration)
    modifies item
    ensures item.Shown() == StatusBarLabel(isRecording, config.transcriptionMode)
  {
    var l := StatusBarLabel(isRecording, config.transcriptionMode);
    item.text, item.tooltip, item.warning := l.text, l.tooltip, l.warning;
  }

  /** The `wispr.toggleTranscriptionMode` command: stores the other mode and redraws the
      status bar as idle in that mode (`updateStatusBarWithMode` ignores its argument and
      passes `false`, whatever the recorder is doing). */
  method ToggleTranscriptionMode(config: Configuration, item: StatusBarItem) returns (message: string)
    modifies config`transcriptionMode, item
    ensures config.transcriptionMode == Some(ToggledMode(old(config.transcriptionMode)))
    ensures item.Shown() == StatusBarLabel(false, config.transcriptionMode)
    ensures message == if config.transcriptionMode.value == LocalMode then LocalModeMessage else ApiModeMessage
  {
    var newMode := ToggledMode(config.transcriptionMode);
    config.transcriptionMode := Some(newMode);
    UpdateStatusBar(item, false, config);
    message := if newMode == LocalMode then LocalModeMessage else ApiModeMessage;
  }

  /** The redraw as written, during a recording: the bar loses the recording text, its warning
      colours and its stop tooltip, although the recorder is still recording. */
  lemma ModeToggleWhileRecordingLooksIdle(mode: Option<string>)
    ensures var shown := StatusBarLabel(false, Some(ToggledMode(mode)));
            shown != StatusBarLabel(true, Some(ToggledMode(mode))) && !shown.warning && shown.tooltip != StopTooltip
  {
    var shown := StatusBarLabel(false, Some(ToggledMode(mode)));
    assert shown.tooltip[11] != StopTooltip[11];
  }

  /** `wispr.toggleTranscriptionMode` with the redraw it evidently intends: the new mode is
      stored and the bar keeps showing the recorder's actual state, with the new mode's icon
      while idle. */
  method ToggleTranscriptionModeShowingState(config: Configuration, item: StatusBarItem, isRecording: bool)
    returns (message: string)
    modifies config`transcriptionMode, item
    ensures config.transcriptionMode == Some(ToggledMode(old(config.transcriptionMode)))
    ensures item.Shown() == StatusBarLabel(isRecording, config.transcriptionMode)
    ensures item.Shown().warning == isRecording
    ensures message == if config.transcriptionMode.value == LocalMode then LocalModeMessage else ApiModeMessage
  {
    var newMode := ToggledMode(config.transcriptionMode);
    config.transcriptionMode := Some(newMode);
    UpdateStatusBar(item, isRecording, config);
    message := if newMode == LocalMode then LocalModeMessage else ApiModeMessage;
  }

  const InsertButton := "Insert at Cursor"
  const CopyButton := "Copy to Clipboard"
  const ShowButton := "Show Full Text"
  const CopiedMessage := "Transcription complete! Text copied to clipboard."
  const CompleteMessage := "Transcription complete!"

  /** What `showTranscriptionResult` decides from `autoCopyToClipboard` (default true):
      whether to copy at once, the message, and the buttons offered. */
  datatype Presentation = Presentation(copyNow: bool, message: string, buttons: seq<string>)

  function PresentResult(autoCopy: Option<bool>): (p: Presentation)
    ensures p.copyNow == autoCopy.GetOr(true)
    ensures CopyButton in p.buttons <==> !autoCopy.GetOr(true)
    ensures InsertButton in p.buttons && ShowButton in p.buttons
    ensures forall b :: b in p.buttons ==> b == CopyButton || b == InsertButton || b == ShowButton
    ensures forall i, j :: 0 <= i < j < |p.buttons| ==> p.buttons[i] != p.buttons[j]
    ensures p.message == (if p.copyNow then CopiedMessage else CompleteMessage)
  {
    if autoCopy.GetOr(true) then Presentation(true, CopiedMessage, [InsertButton, ShowButton])
    else Presentation(false, CompleteMessage, [CopyButton, InsertButton, ShowButton])
  }

  datatype Action = InsertAtCursor | CopyToClipboard | ShowFullText | NoAction

  /** The `.then` of the message: each button label has its own action; a dismissed message
      or any other value does nothing. */
  function Dispatch(selection: Option<string>): (a: Action)
    ensures a == InsertAtCursor <==> selection == Some(InsertButton)
    ensures a == CopyToClipboard <==> selection == Some(CopyButton)
    ensures a == ShowFullText <==> selection == Some(ShowButton)
  {
    if selection == Some(InsertButton) then InsertAtCursor
    else if selection == Some(CopyButton) then CopyToClipboard
    else if selection == Some(ShowButton) then ShowFullText
    else NoAction
  }

  /** Every button offered does something, and no two offered buttons do the same thing. */
  lemma OfferedButtonsDispatchApart(autoCopy: Option<bool>, i: nat, j: nat)
    requires i < |PresentResult(autoCopy).buttons| && j < |PresentResult(autoCopy).buttons|
    ensures Dispatch(Some(PresentResult(autoCopy).buttons[i])) != NoAction
    ensures i != j ==> Dispatch(Some(PresentResult(autoCopy).buttons[i])) != Dispatch(Some(PresentResult(autoCopy).buttons[j]))
  {
    var bs := PresentResult(autoCopy).buttons;
    assert bs[i] in bs && bs[j] in bs;
  }

  /** The host calls a transcript leads to. */
  datatype Effect =
    | WriteClipboard(text: string)
    | ShowMessage(message: string, buttons: seq<string>)
    | Notify(message: string)
    | InsertText(text: string)
    | OpenDocument(text: string)

  /** `showTranscriptionResult(text)` when the user answers with `selection`;
      `editorActive` says whether there is an editor to insert into. */
  function ResultEffects(text: string, autoCopy: Option<bool>, selection: Option<string>, editorActive: bool): (fx: seq<Effect>)
    ensures WriteClipboard(text) in fx <==> autoCopy.GetOr(true) || selection == Some(CopyButton)
    ensures InsertText(text) in fx <==> selection == Some(InsertButton) && editorActive
    ensures OpenDocument(text) in fx <==> selection == Some(ShowButton)
    ensures ShowMessage(PresentResult(autoCopy).message, PresentResult(autoCopy).buttons) in fx
  {
    var p := PresentResult(autoCopy);
    (if p.copyNow then [WriteClipboard(text)] else [])
    + [ShowMessage(p.message, p.buttons)]
    + match Dispatch(selection)
      case InsertAtCursor => if editorActive then [InsertText(text)] else []
      case CopyToClipboard => [WriteClipboard(text), Notify("Text copied to clipboard!")]
      case ShowFullText => [OpenDocument(text)]
      case NoAction => []
  }
}

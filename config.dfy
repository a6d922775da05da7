/** The `wispr` section of the workspace configuration, as the host stores it. */
module Config {
  import opened Wrappers

  /** One field per setting the core reads or writes. `None` is a key with no value, so that
      `config.get(key, default)` is `GetOr(default)` and `config.get(key)` is the Option itself.
      `config.update(key, v)` is an assignment of `Some(v)`. */
  class Configuration {
    var transcriptionMode: Option<string>
    var skipPermissionDialog: Option<bool>
    var autoCopyToClipboard: Option<bool>
    var openaiApiKey: Option<string>
    var language: Option<string>

    /** A configuration in which no setting has a value. */
    constructor ()
      ensures transcriptionMode.None? && skipPermissionDialog.None? && autoCopyToClipboard.None?
      ensures openaiApiKey.None? && language.None?
    {
      transcriptionMode, skipPermissionDialog, autoCopyToClipboard := None, None, None;
      openaiApiKey, language := None, None;
    }
  }
}

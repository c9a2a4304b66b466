/**
 * `Preferences`: the application's preferences as a plain record, and the values a fresh
 * object starts with.
 */
module AppPreferences {

  datatype Preferences = Preferences(
    defaultParallelInstances: int,
    defaultOutputFormat: string,
    defaultOutputPath: string,
    deleteSourceAfterConversion: bool,
    autoSaveSession: bool,
    autoSaveIntervalMinutes: int,
    showCompletionNotifications: bool,
    minimizeToTray: bool,
    autoStartConversions: bool,
    logVerbosity: int,
    maxLogLines: int,
    rememberWindowState: bool,
    supportedVideoExtensions: seq<string>)

  /** The extensions accepted for drag and drop by default. */
  const DefaultExtensions: seq<string> :=
    [".mp4", ".mkv", ".avi", ".mov", ".wmv", ".flv", ".webm", ".m4v", ".mpg", ".mpeg", ".3gp", ".ogv"]

  /** The property initialisers of `new Preferences()`. */
  const Defaults: Preferences :=
    Preferences(2, "mp4", "$(Folder)\\$(FileName)_converted.$(Ext)", false, true, 5, true, false, false,
                1, 1000, true, DefaultExtensions)
}

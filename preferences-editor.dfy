/**
 * `PreferencesViewModel`: the preferences window. It copies the preferences into its own
 * fields, shows the extension list as one comma-separated text, and on Save writes the
 * fields back into the preferences it was opened with, the text parsed back into a list.
 *
 * The optional save and cancel callbacks are recorded: `callbacks` lists the calls made to
 * them, in order.
 */
module PreferencesEditor {
  import opened Common
  import opened Text
  import opened AppPreferences

  // ---------------------------------------------------------------------------------------
  // The extension list as text

  /** How the list is shown in the text box: the entries joined by ", ". */
  function ExtensionsText(extensions: seq<string>): (r: string)
    ensures extensions == [] ==> r == ""
    ensures |extensions| == 1 ==> r == extensions[0]
  {
    Join(", ", extensions)
  }

  function TrimEach(xs: seq<string>): seq<string> {
    if xs == [] then [] else [Trim(xs[0])] + TrimEach(xs[1..])
  }

  /** An extension with a leading dot added when it has none. */
  function Dotted(e: string): string {
    if StartsWith(e, ".") then e else "." + e
  }

  function DottedEach(xs: seq<string>): seq<string> {
    if xs == [] then [] else [Dotted(xs[0])] + DottedEach(xs[1..])
  }

  /**
   * Save's parse of the text box: split at commas, trim each piece, drop the empty ones,
   * add a leading dot where missing, and keep the first occurrence of each.
   */
  function ParseExtensions(text: string): (r: seq<string>)
    ensures NoDup(r)
  {
    Distinct(DottedEach(NonEmpty(TrimEach(Split(text, {','})))))
  }

  /** What a parsed entry looks like: a leading dot, no comma, no surrounding white space. */
  predicate WellFormedExtension(e: string) {
    StartsWith(e, ".") && Lacks(e, ',') && IsTrimmed(e)
  }

  /** `Trim` returns a piece of its argument, so it adds no character. */
  lemma {:induction false} TrimLacks(s: string, c: char)
    requires Lacks(s, c)
    ensures Lacks(Trim(s), c)
  {
    var t := TrimStart(s);
    TrimStartParts(s);
    forall i | 0 <= i < |t| ensures t[i] != c {
      assert t[i] == s[|s| - |t| + i];
    }
    var u := TrimEnd(t);
    TrimEndParts(t);
    forall i | 0 <= i < |u| ensures u[i] != c {
      assert u[i] == t[i];
    }
  }

  /** A trimmed, comma-free, non-empty entry is well formed once dotted. */
  lemma {:induction false} DottedWellFormed(e: string)
    requires e != [] && Lacks(e, ',') && IsTrimmed(e)
    ensures WellFormedExtension(Dotted(e))
  {
    if !StartsWith(e, ".") {
      var d := "." + e;
      assert d[..1] == ".";
      forall i | 0 <= i < |d| ensures d[i] != ',' {
        if i > 0 { assert d[i] == e[i - 1]; }
      }
      assert d[|d| - 1] == e[|e| - 1];
    }
  }

  /** Trimmed comma-free pieces stay comma-free, and are trimmed. */
  lemma {:induction false} TrimEachShape(pieces: seq<string>)
    requires forall k :: 0 <= k < |pieces| ==> Lacks(pieces[k], ',')
    ensures forall e :: e in TrimEach(pieces) ==> Lacks(e, ',') && IsTrimmed(e)
  {
    if pieces != [] {
      TrimLacks(pieces[0], ',');
      TrimEachShape(pieces[1..]);
    }
  }

  /** Dotting trimmed, comma-free, non-empty entries makes them well formed. */
  lemma {:induction false} DottedEachShape(kept: seq<string>)
    requires forall k :: 0 <= k < |kept| ==> kept[k] != [] && Lacks(kept[k], ',') && IsTrimmed(kept[k])
    ensures forall e :: e in DottedEach(kept) ==> WellFormedExtension(e)
  {
    if kept != [] {
      DottedWellFormed(kept[0]);
      DottedEachShape(kept[1..]);
    }
  }

  /** Entries that already have their dot are left as they are. */
  lemma {:induction false} DottedEachKeeps(xs: seq<string>)
    requires forall k :: 0 <= k < |xs| ==> StartsWith(xs[k], ".")
    ensures DottedEach(xs) == xs
  {
    if xs != [] {
      DottedEachKeeps(xs[1..]);
    }
  }

  /** Whatever the text, the parsed list has no duplicate and every entry is well formed. */
  lemma {:induction false} ParseWellFormed(text: string)
    ensures NoDup(ParseExtensions(text))
    ensures forall e :: e in ParseExtensions(text) ==> WellFormedExtension(e)
  {
    var trimmed := TrimEach(Split(text, {','}));
    TrimEachShape(Split(text, {','}));
    var kept := NonEmpty(trimmed);
    NonEmptyMembers(trimmed);
    DottedEachShape(kept);
    DistinctSpec(DottedEach(kept));
  }

  lemma {:induction false} TrimEachCons(a: string, rest: seq<string>)
    ensures TrimEach([a] + rest) == [Trim(a)] + TrimEach(rest)
  {
  }

  /** The first entry of a joined list is split off at the comma that follows it. */
  lemma {:induction false} SplitJoinStep(p: string, xs: seq<string>)
    requires |xs| >= 2 && Lacks(p + xs[0], ',')
    ensures Split(p + Join(", ", xs), {','}) == [p + xs[0]] + Split(" " + Join(", ", xs[1..]), {','})
  {
    var tail := Join(", ", xs[1..]);
    assert p + Join(", ", xs) == (p + xs[0]) + [','] + (" " + tail);
    SplitAt(p + xs[0], ',', " " + tail, {','});
  }

  /** Each entry after a space: the pieces that follow the first one in a list joined by ", ". */
  function Spaced(ys: seq<string>): seq<string> {
    if ys == [] then [] else [" " + ys[0]] + Spaced(ys[1..])
  }

  /** Splitting `p + Join(", ", xs)` at commas cuts it into `p` and the first entry, then each later entry after its space. */
  lemma {:induction false} SplitJoin(p: string, xs: seq<string>)
    requires xs != [] && Lacks(p, ',')
    requires forall k :: 0 <= k < |xs| ==> Lacks(xs[k], ',')
    ensures Split(p + Join(", ", xs), {','}) == [p + xs[0]] + Spaced(xs[1..])
    decreases xs
  {
    LacksAppend(p, xs[0], ',');
    if |xs| == 1 {
      SplitNoSeparator(p + xs[0], {','});
    } else {
      SplitJoin(" ", xs[1..]);
      SplitJoinStep(p, xs);
    }
  }

  /** Trimming the spaced pieces gives the trimmed entries back. */
  lemma {:induction false} TrimSpaced(ys: seq<string>)
    requires forall k :: 0 <= k < |ys| ==> IsTrimmed(ys[k])
    ensures TrimEach(Spaced(ys)) == ys
  {
    if ys != [] {
      TrimSpaced(ys[1..]);
      TrimLeadingBlank(" ", ys[0]);
      TrimTrimmed(ys[0]);
      HeadTail(ys);
    }
  }

  /** Splitting a joined list of trimmed comma-free entries and trimming the pieces gives the entries back. */
  lemma {:induction false} TrimSplitJoin(xs: seq<string>)
    requires xs != []
    requires forall k :: 0 <= k < |xs| ==> Lacks(xs[k], ',') && IsTrimmed(xs[k])
    ensures TrimEach(Split(Join(", ", xs), {','})) == xs
  {
    var text := Join(", ", xs);
    var rest := Spaced(xs[1..]);
    assert Split(text, {','}) == [xs[0]] + rest by {
      SplitJoin("", xs);
      assert "" + text == text && "" + xs[0] == xs[0];
    }
    assert TrimEach(rest) == xs[1..] by { TrimSpaced(xs[1..]); }
    assert Trim(xs[0]) == xs[0] by { TrimTrimmed(xs[0]); }
    TrimEachCons(xs[0], rest);
    HeadTail(xs);
  }

  /**
   * Showing a list and parsing it back gives the list exactly when its entries are distinct
   * and well formed: the parse yields only such lists, and it leaves such a list as it is.
   */
  lemma {:induction false} ParseJoinRoundTrip(xs: seq<string>)
    ensures ParseExtensions(ExtensionsText(xs)) == xs <==>
            NoDup(xs) && forall k :: 0 <= k < |xs| ==> WellFormedExtension(xs[k])
  {
    ParseWellFormed(ExtensionsText(xs));
    if NoDup(xs) && forall k :: 0 <= k < |xs| ==> WellFormedExtension(xs[k]) {
      if xs == [] {
        assert Split("", {','}) == [""];
        assert NonEmpty(TrimEach([""])) == [];
      } else {
        TrimSplitJoin(xs);
        NonEmptyKeeps(xs);
        DottedEachKeeps(xs);
        DistinctFromKeeps(xs, {});
      }
    }
  }

  /** The default extensions are distinct and well formed. */
  lemma {:induction false} DefaultExtensionsWellFormed()
    ensures NoDup(DefaultExtensions)
    ensures forall k :: 0 <= k < |DefaultExtensions| ==> WellFormedExtension(DefaultExtensions[k])
  {
    var d := DefaultExtensions;
    forall k | 0 <= k < |d| ensures WellFormedExtension(d[k]) {
      assert d[k][..1] == ".";
    }
    DistinctNoDup(d);
  }

  // ---------------------------------------------------------------------------------------
  // The editor

  /** The view's fields: the twelve scalar preferences and the extension text box. */
  datatype View = View(
    defaultParallelInstances: int,
    defaultOutputFormat: string,
    defaultOutputPath: string,
    deleteSourceAfterConversion: bool,
    autoSaveSession: bool,
    autoSaveIntervalMinutes: int,
    showCompletionNotifications: bool,
    minimizeToTray: bool,
    autoStartConversions: bool,
    logVerbosity: int,
    maxLogLines: int,
    rememberWindowState: bool,
    supportedVideoExtensionsText: string)

  /** What the view shows for `p` (the constructor, and RestoreDefaults for the defaults). */
  function Opened(p: Preferences): (v: View)
    ensures v.supportedVideoExtensionsText == ExtensionsText(p.supportedVideoExtensions)
  {
    View(p.defaultParallelInstances, p.defaultOutputFormat, p.defaultOutputPath, p.deleteSourceAfterConversion,
         p.autoSaveSession, p.autoSaveIntervalMinutes, p.showCompletionNotifications, p.minimizeToTray,
         p.autoStartConversions, p.logVerbosity, p.maxLogLines, p.rememberWindowState,
         ExtensionsText(p.supportedVideoExtensions))
  }

  /** The preferences Save writes for the view `v`: the scalars copied, the text parsed. */
  function Saved(v: View): (p: Preferences)
    ensures NoDup(p.supportedVideoExtensions)
    ensures forall e :: e in p.supportedVideoExtensions ==> WellFormedExtension(e)
  {
    ParseWellFormed(v.supportedVideoExtensionsText);
    Preferences(v.defaultParallelInstances, v.defaultOutputFormat, v.defaultOutputPath, v.deleteSourceAfterConversion,
                v.autoSaveSession, v.autoSaveIntervalMinutes, v.showCompletionNotifications, v.minimizeToTray,
                v.autoStartConversions, v.logVerbosity, v.maxLogLines, v.rememberWindowState,
                ParseExtensions(v.supportedVideoExtensionsText))
  }

  /**
   * Opening the window on `p` and saving it unedited gives `p` back exactly when `p`'s
   * extensions are distinct and well formed.
   */
  lemma {:induction false} OpenSaveRoundTrip(p: Preferences)
    ensures Saved(Opened(p)) == p <==>
            NoDup(p.supportedVideoExtensions)
            && forall k :: 0 <= k < |p.supportedVideoExtensions| ==> WellFormedExtension(p.supportedVideoExtensions[k])
  {
    ParseJoinRoundTrip(p.supportedVideoExtensions);
  }

  /** Restoring the defaults and saving makes the preferences the defaults. */
  lemma {:induction false} RestoreSaveDefaults()
    ensures Saved(Opened(Defaults)) == Defaults
  {
    DefaultExtensionsWellFormed();
    OpenSaveRoundTrip(Defaults);
  }

  /** A call the editor made to one of its callbacks. */
  datatype Callback = OnSave(saved: Preferences) | OnCancel

  class PreferencesEditor {
    /** The preferences the window was opened with, as Save last wrote them. */
    var original: Preferences
    const hasOnSave: bool
    const hasOnCancel: bool
    var callbacks: seq<Callback>
    var view: View

    /** Opens the window on `preferences`, with or without each callback. */
    constructor(preferences: Preferences, onSave: bool, onCancel: bool)
      ensures original == preferences && hasOnSave == onSave && hasOnCancel == onCancel
      ensures callbacks == []
      ensures view == Opened(preferences)
    {
      original := preferences;
      hasOnSave := onSave;
      hasOnCancel := onCancel;
      callbacks := [];
      view := Opened(preferences);
    }

    /** Writes the view back into the preferences and passes them to the save callback, if any. */
    method Save()
      modifies this`original, this`callbacks
      ensures original == Saved(view)
      ensures callbacks == old(callbacks) + if hasOnSave then [OnSave(original)] else []
    {
      original := Saved(view);
      if hasOnSave {
        callbacks := callbacks + [OnSave(original)];
      }
    }

    /** Calls the cancel callback, if any; the preferences are not touched. */
    method Cancel()
      modifies this`callbacks
      ensures callbacks == old(callbacks) + if hasOnCancel then [OnCancel] else []
    {
      if hasOnCancel {
        callbacks := callbacks + [OnCancel];
      }
    }

    /** Shows the values of a fresh `Preferences`; the preferences themselves change only on Save. */
    method RestoreDefaults()
      modifies this`view
      ensures view == Opened(Defaults)
    {
      view := Opened(Defaults);
    }
  }
}

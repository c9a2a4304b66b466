/**
 * `HandBrakeSettingsViewModel`: the editor window for the HandBrake settings. It copies the
 * settings into its own fields, keeps an editable list of preset files and the list of
 * preset names offered for the default preset, and writes everything back on Save.
 *
 * The preset table that `HandbrakeCLIWrapper.GetAvailablePresetsAsync` returns for the
 * editor's current settings is a parameter of every operation that reloads the names:
 * `Some(table)`, or `None` when that call throws.
 */
module HandBrakeSettingsEditor {
  import opened Common
  import opened Text
  import opened HandBrakeOptions
  import opened HandBrakeCli

  // ---------------------------------------------------------------------------------------
  // The update-check flag

  /**
   * The view's fields as the constructor copies them (line 67): the slot `updateCheckEnabled`
   * of the result holds the view's `UpdateCheckDisabled` check box, and it receives the
   * setting's `UpdateCheckEnabled` unnegated.
   */
  function OpenedAsWritten(settings: HandBrakeValues): (shown: HandBrakeValues)
    ensures shown.updateCheckEnabled == settings.updateCheckEnabled
  {
    settings
  }

  /** The view's fields as intended: the check box shows the negation of the setting. */
  function Opened(settings: HandBrakeValues): (shown: HandBrakeValues)
    ensures shown.updateCheckEnabled == !settings.updateCheckEnabled
  {
    settings.(updateCheckEnabled := !settings.updateCheckEnabled)
  }

  /**
   * The values Save writes back (line 385 writes `UpdateCheckEnabled = !UpdateCheckDisabled`).
   * The check box and the setting are each other's negation in both directions, so writing
   * back is the same map as copying in, and each undoes the other.
   */
  function Saved(shown: HandBrakeValues): (settings: HandBrakeValues)
    ensures settings.updateCheckEnabled == !shown.updateCheckEnabled
  {
    Opened(shown)
  }

  /** As written, opening the editor and saving it unedited flips the update-check setting. */
  lemma {:induction false} OpenSaveFlipsAsWritten(settings: HandBrakeValues)
    ensures Saved(OpenedAsWritten(settings)).updateCheckEnabled == !settings.updateCheckEnabled
    ensures Saved(OpenedAsWritten(settings)) != settings
  {
  }

  /** With the negation, opening and saving unedited gives the settings back. */
  lemma {:induction false} OpenSaveRoundTrip(settings: HandBrakeValues)
    ensures Saved(Opened(settings)) == settings
  {
  }

  /** Reset shows the initialisers with the check box cleared, so saving afterwards enables the update check. */
  lemma {:induction false} ResetThenSave()
    ensures Saved(Defaults) == Defaults.(updateCheckEnabled := true)
    ensures Saved(Defaults) != Defaults
  {
  }

  // ---------------------------------------------------------------------------------------
  // The preset-file list

  /** Appending a file that is not blank and not yet listed (lines 75-78 and 335-339). */
  function WithFile(files: seq<string>, path: string): seq<string> {
    if !IsBlank(path) && path !in files then files + [path] else files
  }

  /** `RemovePresetFile`'s effect on the list: the first occurrence of a non-blank path removed. */
  function WithoutFile(files: seq<string>, path: string): seq<string> {
    if IsBlank(path) then files else RemoveFirst(files, path)
  }

  /** Adding keeps the old list as a prefix, adds exactly the new path, and keeps the list duplicate-free. */
  lemma {:induction false} WithFileSpec(files: seq<string>, path: string, f: string)
    ensures files <= WithFile(files, path)
    ensures f in WithFile(files, path) <==> f in files || (f == path && !IsBlank(path))
    ensures NoDup(files) ==> NoDup(WithFile(files, path))
    ensures |WithFile(files, path)| <= |files| + 1
  {
    if !IsBlank(path) && path !in files && NoDup(files) { NoDupAppend(files, path); }
  }

  /** Adding the same file twice adds it once. */
  lemma {:induction false} WithFileIdempotent(files: seq<string>, path: string)
    ensures WithFile(WithFile(files, path), path) == WithFile(files, path)
  {
  }

  /** Removing a file that was just added restores the list. */
  lemma {:induction false} RemoveAfterAdd(files: seq<string>, path: string)
    requires path !in files
    ensures WithoutFile(WithFile(files, path), path) == files
  {
    if !IsBlank(path) { RemoveLast(files, path); }
  }

  lemma {:induction false} RemoveLast(files: seq<string>, path: string)
    requires path !in files
    ensures RemoveFirst(files + [path], path) == files
  {
    if files != [] {
      assert (files + [path])[1..] == files[1..] + [path];
      RemoveLast(files[1..], path);
      RemoveFirstCons(files[0], files[1..] + [path], path);
      assert files + [path] == [files[0]] + (files[1..] + [path]);
      assert [files[0]] + files[1..] == files;
    } else {
      assert files + [path] == [path];
    }
  }

  /** In a duplicate-free list, removal drops exactly the given path and keeps the list duplicate-free. */
  lemma {:induction false} WithoutFileSpec(files: seq<string>, path: string, f: string)
    requires NoDup(files)
    ensures f in WithoutFile(files, path) <==> f in files && (f != path || IsBlank(path))
    ensures NoDup(WithoutFile(files, path))
  {
    RemoveFirstMembers(files, path, f);
    RemoveFirstNoDup(files, path);
  }

  // ---------------------------------------------------------------------------------------
  // The preset names offered

  /** The names offered when the presets cannot be loaded (lines 268-273). */
  const FallbackPresets: seq<string> :=
    ["Fast 1080p30", "Fast 720p30", "Fast 480p30", "HQ 1080p30 Surround", "HQ 720p30 Surround", "Super HQ 1080p30 Surround"]

  /** Every category's presets, the categories in table order. */
  function AllPresets(t: seq<Category>): seq<string> {
    if t == [] then [] else AllPresets(t[..|t| - 1]) + t[|t| - 1].presets
  }

  /** The offered names before the default preset is considered. */
  function BasePresets(catalogue: Option<seq<Category>>): seq<string> {
    match catalogue
    case Some(t) => AllPresets(t)
    case None => FallbackPresets
  }

  /** The names `LoadAvailablePresets` leaves: the base names, then the default preset if it is missing. */
  function AvailablePresets(catalogue: Option<seq<Category>>, defaultPreset: string): seq<string> {
    var base := BasePresets(catalogue);
    if defaultPreset != "" && defaultPreset !in base then base + [defaultPreset] else base
  }

  /** A name is offered from the table exactly when some category holds it. */
  lemma {:induction false} AllPresetsMembers(t: seq<Category>, p: string)
    ensures p in AllPresets(t) <==> exists i :: 0 <= i < |t| && p in t[i].presets
  {
    if t != [] {
      var init := t[..|t| - 1];
      AllPresetsMembers(init, p);
      if exists i :: 0 <= i < |init| && p in init[i].presets {
        var i :| 0 <= i < |init| && p in init[i].presets;
        assert t[i] == init[i];
      }
      if exists i :: 0 <= i < |t| && p in t[i].presets {
        var i :| 0 <= i < |t| && p in t[i].presets;
        if i < |init| { assert init[i] == t[i]; }
      }
    }
  }

  /**
   * The offered names are the base names in order, followed at most by the default preset;
   * a non-empty default preset is always offered, and nothing else is added.
   */
  lemma {:induction false} AvailablePresetsSpec(catalogue: Option<seq<Category>>, defaultPreset: string, p: string)
    ensures BasePresets(catalogue) <= AvailablePresets(catalogue, defaultPreset)
    ensures p in AvailablePresets(catalogue, defaultPreset) <==> p in BasePresets(catalogue) || (p == defaultPreset && p != "")
    ensures NoDup(BasePresets(catalogue)) ==> NoDup(AvailablePresets(catalogue, defaultPreset))
  {
    var base := BasePresets(catalogue);
    if defaultPreset != "" && defaultPreset !in base && NoDup(base) { NoDupAppend(base, defaultPreset); }
  }

  /** The fallback names are distinct and hold the default of a fresh settings object. */
  lemma {:induction false} FallbackHoldsDefault()
    ensures NoDup(FallbackPresets)
    ensures AvailablePresets(None, Defaults.defaultPreset) == FallbackPresets
  {
    assert Defaults.defaultPreset == FallbackPresets[0];
  }

  // ---------------------------------------------------------------------------------------
  // The editor

  class HandBrakeSettingsEditor {
    /** The settings object being edited (`_originalSettings`). */
    const original: HandBrakeSettings
    /** The view's eighteen fields; the slot `updateCheckEnabled` holds `UpdateCheckDisabled`. */
    var shown: HandBrakeValues
    var customPresetFiles: seq<string>
    var newPresetFilePath: string
    var availablePresets: seq<string>
    /** The result the window was closed with, if it was. */
    var closed: Option<bool>

    /** Fills `availablePresets`: every category's presets in order, then the default preset if missing. */
    method LoadAvailablePresets(catalogue: Option<seq<Category>>)
      modifies this`availablePresets
      ensures availablePresets == AvailablePresets(catalogue, shown.defaultPreset)
    {
      availablePresets := [];
      match catalogue {
        case None =>
          availablePresets := FallbackPresets;
        case Some(t) =>
          for i := 0 to |t|
            invariant availablePresets == AllPresets(t[..i])
          {
            for j := 0 to |t[i].presets|
              invariant availablePresets == AllPresets(t[..i]) + t[i].presets[..j]
            {
              availablePresets := availablePresets + [t[i].presets[j]];
            }
            assert t[..i + 1][..i] == t[..i];
            assert t[i].presets[..|t[i].presets|] == t[i].presets;
          }
          assert t[..|t|] == t;
      }
      if shown.defaultPreset != "" && shown.defaultPreset !in availablePresets {
        availablePresets := availablePresets + [shown.defaultPreset];
      }
    }

    /** The constructor: the settings' values, the migrated file list, and the offered names. */
    constructor(settings: HandBrakeSettings, catalogue: Option<seq<Category>>)
      ensures original == settings
      ensures shown == Opened(settings.Values())
      ensures customPresetFiles == WithFile(settings.customPresetFiles, settings.customPresetFile)
      ensures newPresetFilePath == ""
      ensures availablePresets == AvailablePresets(catalogue, settings.defaultPreset)
      ensures closed == None
    {
      original := settings;
      shown := Opened(settings.Values());
      customPresetFiles := settings.customPresetFiles;
      newPresetFilePath := "";
      closed := None;
      new;
      if !IsBlank(settings.customPresetFile) && settings.customPresetFile !in customPresetFiles {
        customPresetFiles := customPresetFiles + [settings.customPresetFile];
      }
      LoadAvailablePresets(catalogue);
    }

    /** Adds the typed path when it is not blank and not listed, then clears it and reloads. */
    method AddPresetFile(catalogue: Option<seq<Category>>)
      modifies this`customPresetFiles, this`newPresetFilePath, this`availablePresets
      ensures customPresetFiles == WithFile(old(customPresetFiles), old(newPresetFilePath))
      ensures if !IsBlank(old(newPresetFilePath)) && old(newPresetFilePath) !in old(customPresetFiles)
              then newPresetFilePath == "" && availablePresets == AvailablePresets(catalogue, shown.defaultPreset)
              else newPresetFilePath == old(newPresetFilePath) && availablePresets == old(availablePresets)
    {
      if !IsBlank(newPresetFilePath) {
        if newPresetFilePath !in customPresetFiles {
          customPresetFiles := customPresetFiles + [newPresetFilePath];
          newPresetFilePath := "";
          LoadAvailablePresets(catalogue);
        }
      }
    }

    /** Removes the first occurrence of a non-blank path and reloads; a blank path changes nothing. */
    method RemovePresetFile(path: string, catalogue: Option<seq<Category>>)
      modifies this`customPresetFiles, this`availablePresets
      ensures customPresetFiles == WithoutFile(old(customPresetFiles), path)
      ensures availablePresets == if IsBlank(path) then old(availablePresets) else AvailablePresets(catalogue, shown.defaultPreset)
    {
      if !IsBlank(path) {
        customPresetFiles := RemoveFirst(customPresetFiles, path);
        LoadAvailablePresets(catalogue);
      }
    }

    /** Empties the list and reloads. */
    method ClearPresetFiles(catalogue: Option<seq<Category>>)
      modifies this`customPresetFiles, this`availablePresets
      ensures customPresetFiles == []
      ensures availablePresets == AvailablePresets(catalogue, shown.defaultPreset)
    {
      customPresetFiles := [];
      LoadAvailablePresets(catalogue);
    }

    /** Writes every field back (the check box negated) with a copy of the list, and closes with true. */
    method Save()
      modifies this`closed, original
      ensures original.Values() == Saved(shown)
      ensures original.customPresetFiles == customPresetFiles
      ensures closed == Some(true)
    {
      original.Assign(Saved(shown), customPresetFiles);
      closed := Some(true);
    }

    /** Closes with false and writes nothing. */
    method Cancel()
      modifies this`closed
      ensures closed == Some(false)
    {
      closed := Some(false);
    }

    /** Shows the field initialisers with the check box cleared, empties the list, and reloads. */
    method ResetToDefaults(catalogue: Option<seq<Category>>)
      modifies this`shown, this`customPresetFiles, this`availablePresets
      ensures shown == Defaults
      ensures customPresetFiles == []
      ensures availablePresets == AvailablePresets(catalogue, Defaults.defaultPreset)
    {
      shown := HandBrakeValues("HandBrakeCLI", "Fast 1080p30", "mp4", 22, false, true, "x264", "av_aac", 160, "stereo",
                               true, true, false, "", 1, false, false, "");
      customPresetFiles := [];
      LoadAvailablePresets(catalogue);
    }
  }

  /**
   * Opening the editor on a settings object and saving it unedited leaves every value as it
   * was; the file list only gains the legacy preset file that the constructor migrates.
   */
  method OpenThenSave(settings: HandBrakeSettings, catalogue: Option<seq<Category>>)
    modifies settings
    ensures settings.Values() == old(settings.Values())
    ensures settings.customPresetFiles == WithFile(old(settings.customPresetFiles), old(settings.customPresetFile))
  {
    var editor := new HandBrakeSettingsEditor(settings, catalogue);
    editor.Save();
    OpenSaveRoundTrip(old(settings.Values()));
  }
}

/**
 * The main window's video queue (`MainWindowViewModel`): adding files, removing one
 * item, clearing completed items, stopping and pausing, renumbering, and the counts.
 */
module Queue {
  import opened Common
  import opened Text
  import opened Video
  import Paths

  /** The three placeholders of an output path template. */
  const FolderToken := "$(Folder)"
  const FileNameToken := "$(FileName)"
  const ExtToken := "$(Ext)"

  /** The output path template a new main window starts with. */
  const DefaultTemplate := FolderToken + "\\" + FileNameToken + "_conv." + ExtToken

  /** The extension of `file` without its leading dot. */
  function BareExtension(file: string): (e: string)
    ensures Paths.Extension(file) == [] ==> e == []
    ensures Paths.Extension(file) != [] ==> e == Paths.Extension(file)[1..]
  {
    var x := Paths.Extension(file);
    if x == [] then TrimStartChar(x, '.')
    else
      assert x[1..][0] != '.';
      assert TrimStartChar(x, '.') == TrimStartChar(x[1..], '.') == x[1..];
      TrimStartChar(x, '.')
  }

  /** The output path `AddNewFile` resolves: `$(Folder)`, then `$(FileName)`, then `$(Ext)` replaced in turn. */
  function ExpandTemplate(template: string, file: string): (r: string)
    ensures Lacks(template, '$') ==> r == template
  {
    PlainTemplate(template, Paths.DirectoryName(file), Paths.FileNameWithoutExtension(file), BareExtension(file));
    Replace(
      Replace(
        Replace(template, FolderToken, Paths.DirectoryName(file)),
        FileNameToken, Paths.FileNameWithoutExtension(file)),
      ExtToken, BareExtension(file))
  }

  /** A template without '$' holds no placeholder, so the three replacements leave it as it is. */
  lemma PlainTemplate(template: string, folder: string, stem: string, ext: string)
    ensures Lacks(template, '$') ==> Replace(Replace(Replace(template, FolderToken, folder), FileNameToken, stem), ExtToken, ext) == template
  {
    if Lacks(template, '$') {
      ReplaceLacking(template, FolderToken, folder);
      ReplaceLacking(template, FileNameToken, stem);
      ReplaceLacking(template, ExtToken, ext);
    }
  }

  /** A placeholder: '$' first and nowhere else. */
  predicate Token(t: string) {
    t != [] && t[0] == '$' && Lacks(t[1..], '$')
  }

  /** Neither placeholder is a prefix of the other. */
  predicate Apart(t: string, u: string) {
    !StartsWith(t, u) && !StartsWith(u, t)
  }

  /**
   * With the default template, a file whose path has no '$' goes next to itself, named
   * stem + "_conv." + its extension.
   */
  lemma {:induction false} DefaultTemplateExpansion(file: string)
    requires Lacks(file, '$')
    ensures ExpandTemplate(DefaultTemplate, file)
         == Paths.DirectoryName(file) + "\\" + Paths.FileNameWithoutExtension(file) + "_conv." + BareExtension(file)
  {
    PartsLackDollar(file);
    ExpandDefault(Paths.DirectoryName(file), Paths.FileNameWithoutExtension(file), BareExtension(file));
  }

  /** The default template with the placeholders replaced in turn by parts without '$'. */
  lemma {:induction false} ExpandDefault(d: string, stem: string, e: string)
    requires Lacks(d, '$') && Lacks(stem, '$')
    ensures Replace(Replace(Replace(DefaultTemplate, FolderToken, d), FileNameToken, stem), ExtToken, e)
         == d + "\\" + stem + "_conv." + e
  {
    PlaceholdersApart();
    ExpandInTurn(FolderToken, FileNameToken, ExtToken, "\\", "_conv.", d, stem, e);
  }

  /** The directory and the stem of a path without '$' have none either. */
  lemma {:induction false} PartsLackDollar(file: string)
    requires Lacks(file, '$')
    ensures Lacks(Paths.DirectoryName(file), '$') && Lacks(Paths.FileNameWithoutExtension(file), '$')
  {
    LacksPrefix(file, Paths.DirectoryName(file));
    LacksSuffix(file, Paths.FileName(file));
    LacksPrefix(Paths.FileName(file), Paths.FileNameWithoutExtension(file));
  }

  /** The three placeholders are placeholders, and none is a prefix of another. */
  lemma {:induction false} PlaceholdersApart()
    ensures Token(FolderToken) && Token(FileNameToken) && Token(ExtToken)
    ensures Apart(FolderToken, FileNameToken) && Apart(FolderToken, ExtToken) && Apart(FileNameToken, ExtToken)
  {
    assert FolderToken[2] == 'F' && FileNameToken[2] == 'F' && ExtToken[2] == 'E';
    assert FolderToken[3] == 'o' && FileNameToken[3] == 'i';
  }

  /** The three replacements of a template `f + s1 + n + s2 + x` in which each placeholder occurs once. */
  lemma {:induction false} ExpandInTurn(f: string, n: string, x: string, s1: string, s2: string, d: string, stem: string, e: string)
    requires Token(f) && Token(n) && Token(x) && Apart(f, n) && Apart(f, x) && Apart(n, x)
    requires Lacks(s1, '$') && Lacks(s2, '$') && Lacks(d, '$') && Lacks(stem, '$')
    ensures Replace(Replace(Replace(f + s1 + n + s2 + x, f, d), n, stem), x, e) == d + s1 + stem + s2 + e
  {
    ReplaceFirstToken(f, n, x, s1, s2, d);
    ReplaceSecondToken(n, x, s1, s2, d, stem);
    LacksAppend(d, s1, '$');
    LacksAppend(d + s1, stem, '$');
    LacksAppend(d + s1 + stem, s2, '$');
    ReplaceThirdToken(x, d + s1 + stem + s2, e);
  }

  lemma {:induction false} LacksPrefix(s: string, p: string)
    requires Lacks(s, '$') && StartsWith(s, p)
    ensures Lacks(p, '$')
  {
    assert forall i :: 0 <= i < |p| ==> p[i] == s[i];
  }

  lemma {:induction false} LacksSuffix(s: string, p: string)
    requires Lacks(s, '$') && EndsWith(s, p)
    ensures Lacks(p, '$')
  {
    assert forall i :: 0 <= i < |p| ==> p[i] == s[|s| - |p| + i];
  }

  lemma {:induction false} ReplaceFirstToken(f: string, n: string, x: string, s1: string, s2: string, d: string)
    requires Token(f) && Token(n) && Token(x) && Apart(f, n) && Apart(f, x)
    requires Lacks(s1, '$') && Lacks(s2, '$')
    ensures Replace(f + s1 + n + s2 + x, f, d) == d + s1 + n + s2 + x
  {
    ReplaceUntouched(x, f, d);
    calc {
      Replace(f + s1 + n + s2 + x, f, d);
      { assert f + s1 + n + s2 + x == f + (s1 + (n + (s2 + x))); }
      Replace(f + (s1 + (n + (s2 + x))), f, d);
      { ReplaceFront(f, s1 + (n + (s2 + x)), d); }
      d + Replace(s1 + (n + (s2 + x)), f, d);
      { ReplaceAfterLacking(s1, n + (s2 + x), f, d); }
      d + (s1 + Replace(n + (s2 + x), f, d));
      { ReplaceSkipsToken(n, s2 + x, f, d); }
      d + (s1 + (n + Replace(s2 + x, f, d)));
      { ReplaceAfterLacking(s2, x, f, d); }
      d + (s1 + (n + (s2 + x)));
      d + s1 + n + s2 + x;
    }
  }

  lemma {:induction false} ReplaceSecondToken(n: string, x: string, s1: string, s2: string, d: string, stem: string)
    requires Token(n) && Token(x) && Apart(n, x)
    requires Lacks(s1, '$') && Lacks(s2, '$') && Lacks(d, '$')
    ensures Replace(d + s1 + n + s2 + x, n, stem) == d + s1 + stem + s2 + x
  {
    LacksAppend(d, s1, '$');
    ReplaceUntouched(x, n, stem);
    calc {
      Replace(d + s1 + n + s2 + x, n, stem);
      { assert d + s1 + n + s2 + x == (d + s1) + (n + (s2 + x)); }
      Replace((d + s1) + (n + (s2 + x)), n, stem);
      { ReplaceAfterLacking(d + s1, n + (s2 + x), n, stem); }
      (d + s1) + Replace(n + (s2 + x), n, stem);
      { ReplaceFront(n, s2 + x, stem); }
      (d + s1) + (stem + Replace(s2 + x, n, stem));
      { ReplaceAfterLacking(s2, x, n, stem); }
      (d + s1) + (stem + (s2 + x));
      d + s1 + stem + s2 + x;
    }
  }

  /** A placeholder is left alone by another placeholder's replacement. */
  lemma {:induction false} ReplaceUntouched(x: string, pat: string, rep: string)
    requires Token(x) && Token(pat) && Apart(x, pat)
    ensures Replace(x, pat, rep) == x
  {
    ReplaceSkipsToken(x, [], pat, rep);
    assert x + [] == x;
  }

  lemma {:induction false} ReplaceThirdToken(x: string, a: string, e: string)
    requires Token(x) && Lacks(a, '$')
    ensures Replace(a + x, x, e) == a + e
  {
    ReplaceAfterLacking(a, x + [], x, e);
    ReplaceFront(x, [], e);
    assert x + [] == x;
  }

  /** The statuses of the items, in queue order. */
  function StatusesOf(q: seq<VideoItem>): (r: seq<Status>)
    reads q`status
    ensures |r| == |q|
    ensures forall i :: 0 <= i < |q| ==> r[i] == q[i].status
  {
    if q == [] then [] else [q[0].status] + StatusesOf(q[1..])
  }

  /** The number of `st` entries in `ss`. */
  function Count(ss: seq<Status>, st: Status): (n: nat)
    ensures n <= |ss|
  {
    if ss == [] then 0 else (if ss[0] == st then 1 else 0) + Count(ss[1..], st)
  }

  /** The count is zero exactly when the status is absent, and full exactly when every entry has it. */
  lemma {:induction false} CountExtremes(ss: seq<Status>, st: Status)
    ensures Count(ss, st) == 0 <==> st !in ss
    ensures Count(ss, st) == |ss| <==> forall i :: 0 <= i < |ss| ==> ss[i] == st
  {
    if ss != [] {
      CountExtremes(ss[1..], st);
      assert ss == [ss[0]] + ss[1..];
      if Count(ss, st) == |ss| {
        forall i | 0 <= i < |ss| ensures ss[i] == st {
          if i > 0 { assert ss[i] == ss[1..][i - 1]; }
        }
      }
    }
  }

  /** Every item has exactly one status, so the six counts add up to the queue length. */
  lemma {:induction false} CountsPartition(ss: seq<Status>)
    ensures Count(ss, NotStarted) + Count(ss, Queued) + Count(ss, InProgress)
          + Count(ss, Completed) + Count(ss, Failed) + Count(ss, Cancelled) == |ss|
  {
    if ss != [] { CountsPartition(ss[1..]); }
  }

  /** The status `Stop` leaves: InProgress becomes Cancelled, all others stay. */
  function StoppedStatus(s: Status): Status {
    if s == InProgress then Cancelled else s
  }

  function Stopped(ss: seq<Status>): (r: seq<Status>)
    ensures |r| == |ss|
    ensures forall i :: 0 <= i < |ss| ==> r[i] == StoppedStatus(ss[i])
  {
    if ss == [] then [] else [StoppedStatus(ss[0])] + Stopped(ss[1..])
  }

  /** After `Stop` nothing is in progress and the cancelled count grew by the old in-progress count. */
  lemma {:induction false} StoppedCounts(ss: seq<Status>)
    ensures Count(Stopped(ss), InProgress) == 0
    ensures Count(Stopped(ss), Cancelled) == Count(ss, Cancelled) + Count(ss, InProgress)
    ensures forall st :: st != InProgress && st != Cancelled ==> Count(Stopped(ss), st) == Count(ss, st)
  {
    if ss != [] {
      StoppedCounts(ss[1..]);
      assert Stopped(ss)[1..] == Stopped(ss[1..]);
    }
  }

  /** The statuses other than `st`, in order. */
  function Drop(ss: seq<Status>, st: Status): (r: seq<Status>)
    ensures st !in r
  {
    if ss == [] then [] else (if ss[0] == st then [] else [ss[0]]) + Drop(ss[1..], st)
  }

  /** Dropping a status removes exactly its entries and keeps the count of every other status. */
  lemma {:induction false} DropCounts(ss: seq<Status>, st: Status, other: Status)
    ensures |Drop(ss, st)| == |ss| - Count(ss, st)
    ensures other != st ==> Count(Drop(ss, st), other) == Count(ss, other)
  {
    if ss != [] {
      DropCounts(ss[1..], st, other);
      var r := Drop(ss, st);
      if ss[0] != st {
        assert r == [ss[0]] + Drop(ss[1..], st);
        assert r[0] == ss[0] && r[1..] == Drop(ss[1..], st);
      } else {
        assert r == Drop(ss[1..], st);
      }
    }
  }

  /** The items whose status is not `st`, in queue order. */
  function Rejected(q: seq<VideoItem>, st: Status): (r: seq<VideoItem>)
    reads q`status
    ensures |r| <= |q|
  {
    if q == [] then []
    else
      (if q[0].status == st then [] else [q[0]]) + Rejected(q[1..], st)
  }

  /** The items whose status is `st`, in queue order (`Where(...).ToList()`). */
  function Selected(q: seq<VideoItem>, st: Status): (r: seq<VideoItem>)
    reads q`status
    ensures forall i :: 0 <= i < |r| ==> r[i].status == st
  {
    if q == [] then []
    else
      (if q[0].status == st then [q[0]] else []) + Selected(q[1..], st)
  }

  /** Filtering the items filters their statuses. */
  lemma {:induction false} RejectedStatuses(q: seq<VideoItem>, st: Status)
    ensures StatusesOf(Rejected(q, st)) == Drop(StatusesOf(q), st)
    ensures |Selected(q, st)| == Count(StatusesOf(q), st)
  {
    if q != [] {
      RejectedStatuses(q[1..], st);
      assert StatusesOf(q)[1..] == StatusesOf(q[1..]);
      if q[0].status != st {
        var r := Rejected(q, st);
        assert r == [q[0]] + Rejected(q[1..], st);
        assert r[1..] == Rejected(q[1..], st);
      }
    }
  }

  /** Removing a set of items that is exactly the `st` items of `q` leaves `Rejected(q, st)`. */
  lemma {:induction false} WithoutIsRejected(q: seq<VideoItem>, drop: set<VideoItem>, st: Status)
    requires forall i :: 0 <= i < |q| ==> (q[i] in drop <==> q[i].status == st)
    ensures Without(q, drop) == Rejected(q, st)
  {
    if q != [] {
      assert q[0] in drop <==> q[0].status == st;
      WithoutIsRejected(q[1..], drop, st);
    }
  }

  /** The log line of a queue command at time of day `time` (already formatted "HH:mm:ss"). */
  function LogLine(time: string, message: string): string {
    "[" + time + "] " + message + "\n"
  }

  function ClearedMessage(n: int): string {
    "Cleared " + IntToString(n) + " completed videos from queue"
  }

  /** What `AddNewFile` did. */
  datatype AddOutcome = Added | Duplicate | LookupFailed(message: string)

  /** Some queued item has this input path (`FirstOrDefault` finds one, and `Contains` then holds). */
  predicate HasInput(q: seq<VideoItem>, file: string)
    reads q`inputFilePath
  {
    q != [] && (q[0].inputFilePath == Some(file) || HasInput(q[1..], file))
  }

  /** `HasInput` is the existence of a queued item with that input path. */
  lemma {:induction false} HasInputExactly(q: seq<VideoItem>, file: string)
    ensures HasInput(q, file) <==> exists i :: 0 <= i < |q| && q[i].inputFilePath == Some(file)
  {
    if q != [] {
      HasInputExactly(q[1..], file);
      if HasInput(q[1..], file) {
        var i :| 0 <= i < |q[1..]| && q[1..][i].inputFilePath == Some(file);
        assert q[i + 1] == q[1..][i];
      }
      if exists i :: 0 <= i < |q| && q[i].inputFilePath == Some(file) {
        var i :| 0 <= i < |q| && q[i].inputFilePath == Some(file);
        if i > 0 { assert q[1..][i - 1] == q[i]; }
      }
    }
  }

  /** `DefaultPreset ?? Presets.FirstOrDefault()`. */
  function ChosenPreset(defaultPreset: Option<string>, presets: seq<string>): (r: Option<string>)
    ensures r.Some? <==> defaultPreset.Some? || presets != []
    ensures defaultPreset.Some? ==> r == defaultPreset
    ensures defaultPreset.None? && presets != [] ==> r == Some(presets[0])
  {
    if defaultPreset.Some? then defaultPreset else if presets == [] then None else Some(presets[0])
  }

  /** The fields other than `Index` that `AddNewFile` gives a new item; the rest keep the item's defaults. */
  predicate NewItem(v: VideoItem, file: string, info: VideoInfo, preset: Option<string>,
                    presets: seq<string>, outputPath: string)
    reads v`inputFilePath, v`videoInfo, v`preset, v`presets, v`outputFilePath, v`outputFileName, v`clips
    reads v`status, v`progress, v`errorMessage, v`startTime, v`endTime, v`deleteSourceAfterConversion, v`outputFormat
  {
    v.inputFilePath == Some(file) && v.videoInfo == Some(info)
    && v.preset == preset && v.presets == presets && v.outputFilePath == Some(outputPath)
    && v.outputFileName == None && v.clips == None && v.status == NotStarted && v.progress == 0.0
    && v.errorMessage == None && v.startTime == None && v.endTime == None
    && !v.deleteSourceAfterConversion && v.outputFormat == Some("mp4")
  }

  /** The object initializer of `AddNewFile`: a new item with these fields set. */
  method NewVideo(index: int, file: string, info: VideoInfo, preset: Option<string>, presets: seq<string>,
                  outputPath: string) returns (v: VideoItem)
    ensures fresh(v) && v.index == index && NewItem(v, file, info, preset, presets, outputPath)
  {
    v := new VideoItem.Initialized(Some(file), Some(outputPath), Some(info), preset, presets, None, NotStarted,
                                   None, None, None);
    v.index := index;
  }

  /** `MainWindowViewModel`. */
  class MainWindow {
    var videoQueue: seq<VideoItem>
    var presets: seq<string>
    var parallelInstances: int
    var defaultPreset: Option<string>
    var defaultOutputPath: string
    var isConverting: bool
    var statusText: string
    var logOutput: string
    var deleteSourceAfterConversion: bool
    var defaultOutputFormat: string
    /** Whether `VideoQueue_CollectionChanged` is attached to the current collection. */
    var reindexOnChange: bool

    /** The queue holds distinct item objects. */
    predicate Valid()
      reads this
    {
      NoDup(videoQueue)
    }

    /** Every item's Index is its position. */
    predicate Indexed()
      reads this, videoQueue
    {
      forall i :: 0 <= i < |videoQueue| ==> videoQueue[i].index == i
    }

    /** The parameterless constructor: defaults, and the collection-changed handler attached. */
    constructor()
      ensures Valid() && videoQueue == [] && presets == [] && parallelInstances == 1
      ensures defaultPreset == None && defaultOutputPath == DefaultTemplate
      ensures !isConverting && statusText == "Ready" && logOutput == ""
      ensures !deleteSourceAfterConversion && defaultOutputFormat == "mp4"
      ensures reindexOnChange
    {
      videoQueue := [];
      presets := [];
      parallelInstances := 1;
      defaultPreset := None;
      defaultOutputPath := DefaultTemplate;
      isConverting := false;
      statusText := "Ready";
      logOutput := "";
      deleteSourceAfterConversion := false;
      defaultOutputFormat := "mp4";
      reindexOnChange := true;
    }

    /** The file-picker constructor: the same defaults, but no handler is attached. */
    constructor WithFilePicker()
      ensures Valid() && videoQueue == [] && presets == [] && parallelInstances == 1
      ensures defaultPreset == None && defaultOutputPath == DefaultTemplate
      ensures !isConverting && statusText == "Ready" && logOutput == ""
      ensures !deleteSourceAfterConversion && defaultOutputFormat == "mp4"
      ensures !reindexOnChange
    {
      videoQueue := [];
      presets := [];
      parallelInstances := 1;
      defaultPreset := None;
      defaultOutputPath := DefaultTemplate;
      isConverting := false;
      statusText := "Ready";
      logOutput := "";
      deleteSourceAfterConversion := false;
      defaultOutputFormat := "mp4";
      reindexOnChange := false;
    }

    /** `QueueCount`: every item has exactly one status, so it is the sum of the six status counts. */
    function QueueCount(): (n: nat)
      reads this, videoQueue
      ensures n == Count(StatusesOf(videoQueue), NotStarted) + Count(StatusesOf(videoQueue), Queued)
                 + Count(StatusesOf(videoQueue), InProgress) + Count(StatusesOf(videoQueue), Completed)
                 + Count(StatusesOf(videoQueue), Failed) + Count(StatusesOf(videoQueue), Cancelled)
    {
      CountsPartition(StatusesOf(videoQueue));
      |videoQueue|
    }

    function ProcessingCount(): (n: nat)
      reads this, videoQueue
      ensures n == 0 <==> forall i :: 0 <= i < |videoQueue| ==> videoQueue[i].status != InProgress
    {
      CountExtremes(StatusesOf(videoQueue), InProgress);
      Count(StatusesOf(videoQueue), InProgress)
    }

    function CompletedCount(): (n: nat)
      reads this, videoQueue
      ensures n == 0 <==> forall i :: 0 <= i < |videoQueue| ==> videoQueue[i].status != Completed
    {
      CountExtremes(StatusesOf(videoQueue), Completed);
      Count(StatusesOf(videoQueue), Completed)
    }

    /** `CanStartConversion`: not converting and the queue holds at least one item. */
    function CanStartConversion(): (r: bool)
      reads this, videoQueue
      ensures r <==> !isConverting && QueueCount() > 0
    {
      !isConverting && |videoQueue| > 0
    }

    /** The index loop of the `VideoQueue` setter, `RemoveVideo` and the collection-changed handler. */
    method Reindex()
      requires Valid()
      modifies videoQueue`index
      ensures Indexed()
    {
      NoDupDistinct(videoQueue);
      var i := 0;
      while i < |videoQueue|
        invariant 0 <= i <= |videoQueue|
        invariant forall j :: 0 <= j < i ==> videoQueue[j].index == j
      {
        videoQueue[i].index := i;
        i := i + 1;
      }
    }

    /** The `VideoQueue` setter: installs a new collection (without the handler) and numbers it. */
    method SetVideoQueue(q: seq<VideoItem>)
      requires NoDup(q)
      modifies this`videoQueue, this`reindexOnChange, q`index
      ensures videoQueue == q && Valid() && Indexed() && !reindexOnChange
    {
      videoQueue := q;
      reindexOnChange := false;
      Reindex();
    }

    /**
     * `AddNewFile(file)`, with `info` the result of the FFmpeg lookup for `file`:
     * nothing happens for a file already queued; a failed lookup throws and adds nothing;
     * otherwise one new item is appended.
     */
    method AddNewFile(file: string, info: Result<VideoInfo, string>) returns (outcome: AddOutcome)
      requires Valid()
      modifies this`videoQueue, videoQueue`index
      ensures Valid()
      ensures outcome == (if old(HasInput(videoQueue, file)) then Duplicate
                          else if info.Err? then LookupFailed(info.error) else Added)
      ensures outcome != Added ==> videoQueue == old(videoQueue) && unchanged(old(videoQueue))
      ensures outcome == Added ==> Appended(old(videoQueue), file, info.value, old(ExpandTemplate(defaultOutputPath, file)))
      ensures outcome == Added && reindexOnChange ==> Indexed()
      ensures outcome == Added && !reindexOnChange ==> unchanged(old(videoQueue))
      ensures QueueCount() == old(QueueCount()) + (if outcome == Added then 1 else 0)
      ensures outcome == Added ==> (CanStartConversion() <==> !isConverting)
    {
      if HasInput(videoQueue, file) {
        outcome := Duplicate;
      } else if info.Err? {
        outcome := LookupFailed(info.error);
      } else {
        var resolved := ExpandTemplate(defaultOutputPath, file);
        Enqueue(file, info.value, resolved);
        outcome := Added;
      }
    }

    /**
     * The queue is `q` followed by one new item for `file`, numbered `|q|`, with the chosen
     * preset, the presets list and output path `resolved`.
     */
    ghost predicate Appended(q: seq<VideoItem>, file: string, info: VideoInfo, resolved: string)
      reads this, videoQueue
    {
      |videoQueue| == |q| + 1 && videoQueue[..|q|] == q && videoQueue[|q|].index == |q|
      && NewItem(videoQueue[|q|], file, info, ChosenPreset(defaultPreset, presets), presets, resolved)
    }

    /** The part of `AddNewFile` after the output path is resolved: build the item and add it. */
    method Enqueue(file: string, info: VideoInfo, resolved: string)
      requires Valid()
      modifies this`videoQueue, videoQueue`index
      ensures Valid() && Appended(old(videoQueue), file, info, resolved) && fresh(videoQueue[|old(videoQueue)|])
      ensures reindexOnChange ==> Indexed()
      ensures !reindexOnChange ==> unchanged(old(videoQueue))
      ensures QueueCount() == old(QueueCount()) + 1 && (CanStartConversion() <==> !isConverting)
    {
      var video := NewVideo(|videoQueue|, file, info, ChosenPreset(defaultPreset, presets), presets, resolved);
      Add(video);
    }

    /** `VideoQueue.Add(video)`: appends the item, and the attached handler renumbers the queue. */
    method Add(video: VideoItem)
      requires Valid() && video !in videoQueue
      modifies this`videoQueue, videoQueue`index, video`index
      ensures videoQueue == old(videoQueue) + [video] && Valid()
      ensures reindexOnChange ==> Indexed()
      ensures !reindexOnChange ==> unchanged(old(videoQueue)) && unchanged(video)
    {
      NoDupAppend(videoQueue, video);
      videoQueue := videoQueue + [video];
      assert forall i :: 0 <= i < |videoQueue| ==> videoQueue[i] in old(videoQueue) || videoQueue[i] == video;
      if reindexOnChange {
        Reindex();
      }
    }

    /** `VideoQueue.Remove(video)`: drops the item, and the attached handler renumbers the rest. */
    method Remove(video: VideoItem)
      requires Valid()
      modifies this`videoQueue, videoQueue`index
      ensures videoQueue == RemoveFirst(old(videoQueue), video)
      ensures Valid() && video !in videoQueue
      ensures forall i :: 0 <= i < |videoQueue| ==> videoQueue[i] in old(videoQueue)
      ensures reindexOnChange ==> Indexed()
      ensures !reindexOnChange ==> unchanged(old(videoQueue))
    {
      RemoveFirstNoDup(videoQueue, video);
      RemoveFirstMembers(videoQueue, video, video);
      forall x | x in RemoveFirst(videoQueue, video) ensures x in videoQueue {
        RemoveFirstMembers(videoQueue, video, x);
      }
      videoQueue := RemoveFirst(videoQueue, video);
      assert forall i :: 0 <= i < |videoQueue| ==> videoQueue[i] in old(videoQueue);
      if reindexOnChange {
        Reindex();
      }
    }

    /** `RemoveVideo`: removes the item if it is queued, then numbers the queue 0..n-1. */
    method RemoveVideo(video: VideoItem)
      requires Valid()
      modifies this`videoQueue, videoQueue`index
      ensures videoQueue == RemoveFirst(old(videoQueue), video)
      ensures Valid() && Indexed() && video !in videoQueue
      ensures QueueCount() == old(QueueCount()) - (if video in old(videoQueue) then 1 else 0)
    {
      Remove(video);
      Reindex();
    }

    /**
     * The clear-completed command: removes each completed item, one at a time, and logs how
     * many were removed. Items are renumbered only when the handler is attached.
     */
    method ClearCompleted(time: string)
      requires Valid()
      modifies this`videoQueue, this`logOutput, videoQueue`index
      ensures videoQueue == old(Rejected(videoQueue, Completed))
      ensures Valid()
      ensures reindexOnChange && old(CompletedCount()) > 0 ==> Indexed()
      ensures !reindexOnChange || old(CompletedCount()) == 0 ==> unchanged(old(videoQueue))
      ensures logOutput == old(logOutput) + LogLine(time, ClearedMessage(old(CompletedCount())))
      ensures QueueCount() == old(QueueCount() - CompletedCount())
      ensures CanStartConversion() <==> !isConverting && old(QueueCount() > CompletedCount())
    {
      var removed := RemoveCompleted();
      logOutput := logOutput + LogLine(time, ClearedMessage(removed));
    }

    /** The first two statements of the command: select the completed items, then remove each. */
    method RemoveCompleted() returns (removed: nat)
      requires Valid()
      modifies this`videoQueue, videoQueue`index
      ensures removed == old(CompletedCount())
      ensures videoQueue == old(Rejected(videoQueue, Completed)) && Valid()
      ensures |videoQueue| == old(|videoQueue|) - removed
      ensures reindexOnChange && removed > 0 ==> Indexed()
      ensures !reindexOnChange || removed == 0 ==> unchanged(old(videoQueue))
    {
      var completed := Selected(videoQueue, Completed);
      RejectedStatuses(videoQueue, Completed);
      DropCounts(StatusesOf(videoQueue), Completed, Completed);
      assert |completed| == CompletedCount();
      ClearedIsRejected(videoQueue, Elements(completed));
      RemoveAll(completed);
      removed := |completed|;
    }

    /** `foreach (var video in items) VideoQueue.Remove(video)`. */
    method RemoveAll(items: seq<VideoItem>)
      requires Valid()
      modifies this`videoQueue, videoQueue`index
      ensures videoQueue == Without(old(videoQueue), Elements(items)) && Valid()
      ensures reindexOnChange && items != [] ==> Indexed()
      ensures !reindexOnChange || items == [] ==> unchanged(old(videoQueue))
    {
      var q0 := videoQueue;
      ghost var removed: set<VideoItem> := {};
      WithoutEmpty(q0);
      var k := 0;
      while k < |items|
        invariant 0 <= k <= |items|
        invariant removed == Elements(items[..k])
        invariant videoQueue == Without(q0, removed)
        invariant Valid()
        invariant forall i :: 0 <= i < |videoQueue| ==> videoQueue[i] in q0
        invariant !reindexOnChange || k == 0 ==> unchanged(q0)
        invariant reindexOnChange && k > 0 ==> Indexed()
      {
        WithoutStep(q0, removed, items[k]);
        Remove(items[k]);
        assert items[..k + 1][..k] == items[..k];
        removed := removed + {items[k]};
        k := k + 1;
      }
      assert items[..k] == items;
    }

    /** The stop command: not converting any more, and every in-progress item cancelled with progress 0. */
    method Stop(time: string)
      requires Valid()
      modifies this`isConverting, this`statusText, this`logOutput, videoQueue`status, videoQueue`progress
      ensures !isConverting && statusText == "Conversion stopped"
      ensures logOutput == old(logOutput) + LogLine(time, "Conversion stopped by user")
      ensures forall i :: 0 <= i < |videoQueue| ==>
                videoQueue[i].status == StoppedStatus(old(videoQueue[i].status))
                && videoQueue[i].progress == (if old(videoQueue[i].status) == InProgress then 0.0 else old(videoQueue[i].progress))
      ensures StatusesOf(videoQueue) == Stopped(old(StatusesOf(videoQueue)))
      ensures ProcessingCount() == 0
      ensures CanStartConversion() <==> QueueCount() > 0
    {
      isConverting := false;
      statusText := "Conversion stopped";
      logOutput := logOutput + LogLine(time, "Conversion stopped by user");
      CancelRunning();
      StoppedCounts(old(StatusesOf(videoQueue)));
    }

    /** The loop of the stop command: every in-progress item becomes Cancelled with progress 0. */
    method CancelRunning()
      requires Valid()
      modifies videoQueue`status, videoQueue`progress
      ensures forall i :: 0 <= i < |videoQueue| ==>
                videoQueue[i].status == StoppedStatus(old(videoQueue[i].status))
                && videoQueue[i].progress == (if old(videoQueue[i].status) == InProgress then 0.0 else old(videoQueue[i].progress))
      ensures StatusesOf(videoQueue) == Stopped(old(StatusesOf(videoQueue)))
    {
      NoDupDistinct(videoQueue);
      var i := 0;
      while i < |videoQueue|
        invariant 0 <= i <= |videoQueue|
        invariant forall j :: 0 <= j < i ==>
                    videoQueue[j].status == StoppedStatus(old(videoQueue[j].status))
                    && videoQueue[j].progress == (if old(videoQueue[j].status) == InProgress then 0.0 else old(videoQueue[j].progress))
        invariant forall j :: i <= j < |videoQueue| ==>
                    videoQueue[j].status == old(videoQueue[j].status) && videoQueue[j].progress == old(videoQueue[j].progress)
      {
        if videoQueue[i].status == InProgress {
          videoQueue[i].status := Cancelled;
          videoQueue[i].progress := 0.0;
        }
        i := i + 1;
      }
      assert StatusesOf(videoQueue) == Stopped(old(StatusesOf(videoQueue)));
    }

    /** The pause command: a status text and a log line; no item changes. */
    method Pause(time: string)
      modifies this`statusText, this`logOutput
      ensures statusText == "Conversion paused"
      ensures logOutput == old(logOutput) + LogLine(time, "Conversion paused by user")
    {
      statusText := "Conversion paused";
      logOutput := logOutput + LogLine(time, "Conversion paused by user");
    }
  }

  /** Removing every completed item leaves the items that are not completed. */
  lemma {:induction false} ClearedIsRejected(q: seq<VideoItem>, removed: set<VideoItem>)
    requires removed == Elements(Selected(q, Completed))
    ensures Without(q, removed) == Rejected(q, Completed)
  {
    forall i | 0 <= i < |q| ensures q[i] in removed <==> q[i].status == Completed {
      SelectedMembers(q, Completed, q[i]);
      ElementsExactly(Selected(q, Completed), q[i]);
    }
    WithoutIsRejected(q, removed, Completed);
  }

  /** `Selected` holds exactly the queued items with that status. */
  lemma {:induction false} SelectedMembers(q: seq<VideoItem>, st: Status, x: VideoItem)
    requires x in q
    ensures x in Selected(q, st) <==> x.status == st
  {
    if q[0] != x {
      SelectedMembers(q[1..], st, x);
    }
    assert q == [q[0]] + q[1..];
    if x.status == st {
    }
  }
}

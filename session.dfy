/**
 * Session persistence (`SessionManager`): the snapshot of the main window that is saved,
 * the way a loaded snapshot is applied back, and the error contracts of load, save and
 * clear. JSON serialisation is the identity, the session file is a `StoredFile` value and
 * the file system is the set of paths that exist. Times of day are opaque integers.
 */
module Session {
  import opened Common
  import opened Video
  import opened Queue

  /** `VideoSessionData`, with the clips the snapshot code stores in it. */
  datatype VideoEntry = VideoEntry(
    inputFilePath: Option<string>,
    outputFilePath: Option<string>,
    preset: Option<string>,
    status: Status,
    videoInfo: Option<VideoInfo>,
    errorMessage: Option<string>,
    startTime: Option<int>,
    endTime: Option<int>,
    clips: Option<seq<Clip>>)

  /** `SessionData`. */
  datatype SessionData = SessionData(
    videos: seq<VideoEntry>,
    defaultPreset: Option<string>,
    defaultOutputPath: string,
    defaultOutputFormat: string,
    parallelInstances: int,
    deleteSourceAfterConversion: bool,
    lastSaved: int)

  /** The entry saved for one item: its fields copied, the clip list copied into a new list of the same clips. */
  function EntryOf(v: VideoItem): VideoEntry
    reads v
  {
    VideoEntry(v.inputFilePath, v.outputFilePath, v.preset, v.status, v.videoInfo, v.errorMessage,
               v.startTime, v.endTime, v.clips)
  }

  /** The saved entries: one per item that is not in progress, in queue order. */
  function Entries(q: seq<VideoItem>): (r: seq<VideoEntry>)
    reads q
    ensures forall i :: 0 <= i < |r| ==> r[i].status != InProgress
  {
    if q == [] then []
    else (if q[0].status == InProgress then [] else [EntryOf(q[0])]) + Entries(q[1..])
  }

  /** The saved entries are the items `Rejected(q, InProgress)` keeps, each copied field by field. */
  lemma {:induction false} EntriesOfRejected(q: seq<VideoItem>)
    ensures |Entries(q)| == |Rejected(q, InProgress)|
    ensures forall i :: 0 <= i < |Entries(q)| ==> Entries(q)[i] == EntryOf(Rejected(q, InProgress)[i])
  {
    if q != [] {
      EntriesOfRejected(q[1..]);
      if q[0].status != InProgress {
        var e, r := Entries(q), Rejected(q, InProgress);
        assert e == [EntryOf(q[0])] + Entries(q[1..]);
        assert r == [q[0]] + Rejected(q[1..], InProgress);
        forall i | 0 <= i < |e| ensures e[i] == EntryOf(r[i]) {
          if i > 0 { assert e[i] == Entries(q[1..])[i - 1] && r[i] == Rejected(q[1..], InProgress)[i - 1]; }
        }
      }
    }
  }

  /** `CreateSessionDataFromViewModel`, with `now` for `DateTime.Now`. */
  function Snapshot(w: MainWindow, now: int): (d: SessionData)
    reads w, w.videoQueue
    ensures d.videos == Entries(w.videoQueue)
    ensures d.defaultPreset == w.defaultPreset && d.defaultOutputPath == w.defaultOutputPath
    ensures d.defaultOutputFormat == w.defaultOutputFormat && d.parallelInstances == w.parallelInstances
    ensures d.deleteSourceAfterConversion == w.deleteSourceAfterConversion && d.lastSaved == now
  {
    SessionData(Entries(w.videoQueue), w.defaultPreset, w.defaultOutputPath, w.defaultOutputFormat,
                w.parallelInstances, w.deleteSourceAfterConversion, now)
  }

  /** `File.Exists`: false for a null path. */
  predicate Exists(files: set<string>, path: Option<string>) {
    path.Some? && path.value in files
  }

  /** An entry that applying a session restores: not in progress, and its input file exists. */
  predicate Restorable(files: set<string>, e: VideoEntry) {
    e.status != InProgress && Exists(files, e.inputFilePath)
  }

  /** The entries applying a session restores, in snapshot order. */
  function RestoredEntries(es: seq<VideoEntry>, files: set<string>): (r: seq<VideoEntry>)
    ensures |r| <= |es|
    ensures forall i :: 0 <= i < |r| ==> Restorable(files, r[i])
  {
    if es == [] then []
    else RestoredEntries(es[..|es| - 1], files) + (if Restorable(files, es[|es| - 1]) then [es[|es| - 1]] else [])
  }

  /** Looking at one more entry restores it too, when it is restorable. */
  lemma {:induction false} RestoredEntriesStep(es: seq<VideoEntry>, k: int, files: set<string>)
    requires 0 <= k < |es|
    ensures RestoredEntries(es[..k + 1], files)
            == RestoredEntries(es[..k], files) + (if Restorable(files, es[k]) then [es[k]] else [])
  {
    assert es[..k + 1][..k] == es[..k];
  }

  /** Every entry is restorable exactly when none is dropped. */
  lemma {:induction false} RestoredEntriesAll(es: seq<VideoEntry>, files: set<string>)
    requires forall i :: 0 <= i < |es| ==> Restorable(files, es[i])
    ensures RestoredEntries(es, files) == es
  {
    if es != [] {
      RestoredEntriesAll(es[..|es| - 1], files);
      assert es == es[..|es| - 1] + [es[|es| - 1]];
    }
  }

  /** Every saved entry carries the input path of some item of the queue. */
  lemma {:induction false} EntriesInputsExist(q: seq<VideoItem>, files: set<string>)
    requires forall i :: 0 <= i < |q| ==> Exists(files, q[i].inputFilePath)
    ensures forall i :: 0 <= i < |Entries(q)| ==> Exists(files, Entries(q)[i].inputFilePath)
  {
    if q != [] {
      EntriesInputsExist(q[1..], files);
      var e := Entries(q);
      var head := if q[0].status == InProgress then [] else [EntryOf(q[0])];
      assert e == head + Entries(q[1..]);
      forall i | 0 <= i < |e| ensures Exists(files, e[i].inputFilePath) {
        if i >= |head| { assert e[i] == Entries(q[1..])[i - |head|]; }
      }
    }
  }

  /** A snapshot whose every input path exists is restored in full. */
  lemma {:induction false} SnapshotRestoredInFull(q: seq<VideoItem>, files: set<string>)
    requires forall i :: 0 <= i < |q| ==> Exists(files, q[i].inputFilePath)
    ensures RestoredEntries(Entries(q), files) == Entries(q)
  {
    EntriesInputsExist(q, files);
    RestoredEntriesAll(Entries(q), files);
  }

  /** The item applying a session builds from entry `e`; progress restarts at 0 and clips come back only when there are some. */
  predicate RestoredItem(v: VideoItem, e: VideoEntry, presets: seq<string>)
    reads v`inputFilePath, v`outputFilePath, v`preset, v`status, v`videoInfo, v`errorMessage
    reads v`startTime, v`endTime, v`presets, v`clips, v`progress, v`outputFormat, v`outputFileName
    reads v`deleteSourceAfterConversion
  {
    v.inputFilePath == e.inputFilePath && v.outputFilePath == e.outputFilePath && v.preset == e.preset
    && v.status == e.status && v.videoInfo == e.videoInfo && v.errorMessage == e.errorMessage
    && v.startTime == e.startTime && v.endTime == e.endTime && v.presets == presets
    && v.clips == (if e.clips.Some? && |e.clips.value| > 0 then e.clips else None)
    && v.progress == 0.0 && v.outputFormat == Some("mp4") && v.outputFileName == None
    && !v.deleteSourceAfterConversion
  }

  /** The object initializer of `ApplySessionToViewModelAsync` for one entry. */
  method RestoreItem(e: VideoEntry, presets: seq<string>) returns (v: VideoItem)
    ensures fresh(v) && v.index == 0
    ensures v.inputFilePath == e.inputFilePath && v.outputFilePath == e.outputFilePath && v.preset == e.preset
    ensures v.status == e.status && v.videoInfo == e.videoInfo && v.errorMessage == e.errorMessage
    ensures v.startTime == e.startTime && v.endTime == e.endTime && v.presets == presets
    ensures v.clips == (if e.clips.Some? && |e.clips.value| > 0 then e.clips else None)
    ensures v.progress == 0.0 && v.outputFormat == Some("mp4") && v.outputFileName == None
    ensures !v.deleteSourceAfterConversion
  {
    var clips := if e.clips.Some? && |e.clips.value| > 0 then e.clips else None;
    v := new VideoItem.Initialized(e.inputFilePath, e.outputFilePath, e.videoInfo, e.preset, presets, clips,
                                   e.status, e.errorMessage, e.startTime, e.endTime);
  }

  /**
   * `ApplySessionToViewModelAsync`: with no session nothing changes; otherwise the five
   * settings are written back and one new item per restorable entry is appended to the
   * queue, which is not cleared first.
   */
  method ApplySession(data: Option<SessionData>, w: MainWindow, files: set<string>)
    requires w.Valid()
    modifies w`defaultPreset, w`defaultOutputPath, w`defaultOutputFormat, w`parallelInstances
    modifies w`deleteSourceAfterConversion, w`videoQueue, w.videoQueue`index
    ensures data.None? ==> unchanged(w) && unchanged(old(w.videoQueue))
    ensures w.Valid()
    ensures data.Some? ==>
              w.defaultPreset == data.value.defaultPreset && w.defaultOutputPath == data.value.defaultOutputPath
              && w.defaultOutputFormat == data.value.defaultOutputFormat
              && w.parallelInstances == data.value.parallelInstances
              && w.deleteSourceAfterConversion == data.value.deleteSourceAfterConversion
    ensures data.Some? ==> Restored(w, old(w.videoQueue), RestoredEntries(data.value.videos, files))
    ensures !w.reindexOnChange ==> unchanged(old(w.videoQueue))
    ensures w.reindexOnChange && data.Some? && RestoredEntries(data.value.videos, files) != [] ==> w.Indexed()
  {
    if data.None? {
      return;
    }
    var d := data.value;
    w.defaultPreset := d.defaultPreset;
    w.defaultOutputPath := d.defaultOutputPath;
    w.defaultOutputFormat := d.defaultOutputFormat;
    w.parallelInstances := d.parallelInstances;
    w.deleteSourceAfterConversion := d.deleteSourceAfterConversion;
    RestoreQueue(w, d.videos, files);
  }

  /** The loop of `ApplySessionToViewModelAsync`: appends one new item per restorable entry, in order. */
  method RestoreQueue(w: MainWindow, videos: seq<VideoEntry>, files: set<string>)
    requires w.Valid()
    modifies w`videoQueue, w.videoQueue`index
    ensures w.Valid()
    ensures Restored(w, old(w.videoQueue), RestoredEntries(videos, files))
    ensures !w.reindexOnChange ==> unchanged(old(w.videoQueue))
    ensures w.reindexOnChange && RestoredEntries(videos, files) != [] ==> w.Indexed()
  {
    var q0, presets := w.videoQueue, w.presets;
    ghost var added: seq<VideoItem> := [];
    ghost var es: seq<VideoEntry> := [];
    var k := 0;
    while k < |videos|
      invariant 0 <= k <= |videos|
      invariant Appended(w, q0, added, es, presets)
      invariant forall i :: 0 <= i < |added| ==> fresh(added[i])
      invariant es == RestoredEntries(videos[..k], files)
      invariant !w.reindexOnChange ==> unchanged(q0)
      invariant w.reindexOnChange && added != [] ==> w.Indexed()
    {
      ghost var v;
      added, es, v := RestoreEntry(w, videos, k, files, presets, q0, added, es);
      k := k + 1;
    }
    assert videos[..k] == videos;
    RestoredOfAppended(w, q0, added, es);
  }

  /** A queue that is `q` followed by items built from `es` is `Restored` from `q`. */
  lemma RestoredOfAppended(w: MainWindow, q: seq<VideoItem>, added: seq<VideoItem>, es: seq<VideoEntry>)
    requires w.videoQueue == q + added && AllRestored(added, es, w.presets)
    ensures Restored(w, q, es)
  {
    assert w.videoQueue[..|q|] == q && w.videoQueue[|q|..] == added;
  }

  /** The queue is `q0` followed by `added`, whose items are built from `es` in order. */
  ghost predicate Appended(w: MainWindow, q0: seq<VideoItem>, added: seq<VideoItem>, es: seq<VideoEntry>, presets: seq<string>)
    reads w, added
  {
    w.Valid() && w.presets == presets && w.videoQueue == q0 + added && AllRestored(added, es, presets)
  }

  /** One iteration of that loop: a restorable entry adds a new item, any other changes nothing. */
  method RestoreEntry(w: MainWindow, videos: seq<VideoEntry>, k: nat, files: set<string>, presets: seq<string>,
                      ghost q0: seq<VideoItem>, ghost added: seq<VideoItem>, ghost es: seq<VideoEntry>)
    returns (ghost added': seq<VideoItem>, ghost es': seq<VideoEntry>, ghost v: VideoItem?)
    requires k < |videos| && es == RestoredEntries(videos[..k], files)
    requires Appended(w, q0, added, es, presets)
    requires w.reindexOnChange && added != [] ==> w.Indexed()
    modifies w`videoQueue, w.videoQueue`index
    ensures Appended(w, q0, added', es', presets)
    ensures es' == es + (if Restorable(files, videos[k]) then [videos[k]] else [])
    ensures es' == RestoredEntries(videos[..k + 1], files)
    ensures Restorable(files, videos[k]) ==> v != null && fresh(v) && added' == added + [v]
    ensures !Restorable(files, videos[k]) ==> added' == added
    ensures |added| <= |added'| && added'[..|added|] == added && forall i :: |added| <= i < |added'| ==> fresh(added'[i])
    ensures w.reindexOnChange && added' != [] ==> w.Indexed()
    ensures !w.reindexOnChange ==> unchanged(q0)
  {
    var e := videos[k];
    RestoredEntriesStep(videos, k, files);
    added', es', v := added, es, null;
    if e.status != InProgress && Exists(files, e.inputFilePath) {
      v := AppendRestored(w, e, presets, q0, added, es);
      added', es' := added + [v], es + [e];
    }
  }

  /** One iteration of that loop for a restorable entry: a new item built from `e`, added to the queue. */
  method AppendRestored(w: MainWindow, e: VideoEntry, presets: seq<string>, ghost q0: seq<VideoItem>,
                        ghost added: seq<VideoItem>, ghost es: seq<VideoEntry>) returns (ghost v: VideoItem)
    requires w.Valid() && w.videoQueue == q0 + added && AllRestored(added, es, presets)
    modifies w`videoQueue, w.videoQueue`index
    ensures fresh(v) && w.videoQueue == q0 + (added + [v]) && w.Valid()
    ensures AllRestored(added + [v], es + [e], presets)
    ensures w.reindexOnChange ==> w.Indexed()
    ensures !w.reindexOnChange ==> unchanged(q0)
  {
    var item := RestoreItem(e, presets);
    AllRestoredAppend(added, es, presets, item, e);
    w.Add(item);
    v := item;
    assert w.videoQueue == q0 + (added + [v]);
  }

  /** Item `i` of `items` is built from entry `i` of `es`, for every `i`. */
  predicate AllRestored(items: seq<VideoItem>, es: seq<VideoEntry>, presets: seq<string>)
    reads items`inputFilePath, items`outputFilePath, items`preset, items`status, items`videoInfo
    reads items`errorMessage, items`startTime, items`endTime, items`presets, items`clips, items`progress
    reads items`outputFormat, items`outputFileName, items`deleteSourceAfterConversion
  {
    |items| == |es| && forall i :: 0 <= i < |items| ==> RestoredItem(items[i], es[i], presets)
  }

  lemma {:induction false} AllRestoredAppend(items: seq<VideoItem>, es: seq<VideoEntry>, presets: seq<string>, v: VideoItem, e: VideoEntry)
    requires AllRestored(items, es, presets) && RestoredItem(v, e, presets)
    ensures AllRestored(items + [v], es + [e], presets)
  {
    forall i | 0 <= i < |items| + 1 ensures RestoredItem((items + [v])[i], (es + [e])[i], presets) {
      if i < |items| { assert (items + [v])[i] == items[i] && (es + [e])[i] == es[i]; }
    }
  }

  /**
   * The queue of `w` is `q` followed by one new item per entry of `es`, in order, each built
   * from its entry with the window's presets list.
   */
  ghost predicate Restored(w: MainWindow, q: seq<VideoItem>, es: seq<VideoEntry>)
    reads w, w.videoQueue
  {
    |q| <= |w.videoQueue| && w.videoQueue[..|q|] == q && AllRestored(w.videoQueue[|q|..], es, w.presets)
  }

  /**
   * Round trip: applying the snapshot of `q` to an empty queue, with every input path
   * existing, gives the items of `q` that are not in progress, in order, with the same
   * saved fields; only a list of clips that was empty comes back as no list.
   */
  lemma {:induction false} SnapshotRoundTrip(w: MainWindow, q: seq<VideoItem>, files: set<string>)
    requires forall i :: 0 <= i < |q| ==> Exists(files, q[i].inputFilePath)
    requires Restored(w, [], RestoredEntries(Entries(q), files))
    ensures |w.videoQueue| == |Rejected(q, InProgress)|
    ensures forall i :: 0 <= i < |w.videoQueue| ==>
              var v, u := w.videoQueue[i], Rejected(q, InProgress)[i];
              v.inputFilePath == u.inputFilePath && v.outputFilePath == u.outputFilePath
              && v.preset == u.preset && v.status == u.status && v.videoInfo == u.videoInfo
              && v.errorMessage == u.errorMessage && v.startTime == u.startTime && v.endTime == u.endTime
              && (u.HasSegments() ==> v.clips == u.clips) && (!u.HasSegments() ==> v.clips == None)
  {
    SnapshotRestoredInFull(q, files);
    EntriesOfRejected(q);
    assert w.videoQueue[0..] == w.videoQueue;
  }

  /** The session file: absent, present but unreadable or unparsable, or holding a snapshot. */
  datatype StoredFile = Missing | Unreadable | Stored(data: SessionData)

  /** `LoadSessionAsync`: "no session" for a missing file and for any read or parse failure. */
  function Load(f: StoredFile): (r: Option<SessionData>)
    ensures r.Some? <==> f.Stored?
    ensures f.Stored? ==> r == Some(f.data)
  {
    match f
    case Missing => None
    case Unreadable => None
    case Stored(d) => Some(d)
  }

  /** `SaveSessionAsync`: the snapshot replaces the file when the write succeeds; a failure is swallowed. */
  function Save(f: StoredFile, snapshot: SessionData, writeSucceeds: bool): (r: StoredFile)
    ensures writeSucceeds ==> r == Stored(snapshot)
    ensures !writeSucceeds ==> r == f
  {
    if writeSucceeds then Stored(snapshot) else f
  }

  /** `ClearSession`: deletes an existing file; a failing delete is swallowed. */
  function Clear(f: StoredFile, deleteSucceeds: bool): (r: StoredFile)
    ensures f == Missing || deleteSucceeds ==> r == Missing
    ensures r != Missing ==> r == f
  {
    if f == Missing then Missing else if deleteSucceeds then Missing else f
  }

  /** What a successful save wrote is what the next load returns. */
  lemma {:induction false} LoadAfterSave(f: StoredFile, snapshot: SessionData)
    ensures Load(Save(f, snapshot, true)) == Some(snapshot)
  {
  }

  /** After a successful clear there is no session to load. */
  lemma {:induction false} LoadAfterClear(f: StoredFile)
    ensures Load(Clear(f, true)) == None
  {
  }
}

/**
 * One queued video (`VideoModelViewModel`), its clips (`ClipModel`) and the conversion
 * status. Times of day are opaque integers; durations and clip bounds are whole seconds.
 */
module Video {
  import opened Common
  import opened Text
  import Paths

  /** `VideoConversionStatus`. */
  datatype Status = NotStarted | Queued | InProgress | Completed | Failed | Cancelled

  /** The enum's underlying value. */
  function Code(s: Status): (c: int)
    ensures 0 <= c <= 5
  {
    match s
    case NotStarted => 0
    case Queued => 1
    case InProgress => 2
    case Completed => 3
    case Failed => 4
    case Cancelled => 5
  }

  /** The member with underlying value `c`, if there is one. */
  function FromCode(c: int): (s: Option<Status>)
    ensures s.Some? <==> 0 <= c <= 5
  {
    if c == 0 then Some(NotStarted)
    else if c == 1 then Some(Queued)
    else if c == 2 then Some(InProgress)
    else if c == 3 then Some(Completed)
    else if c == 4 then Some(Failed)
    else if c == 5 then Some(Cancelled)
    else None
  }

  /** The codes are exactly 0..5, one per member. */
  lemma {:induction false} CodeRoundTrip(s: Status, c: int)
    ensures FromCode(Code(s)) == Some(s)
    ensures FromCode(c).Some? ==> Code(FromCode(c).value) == c
  {
  }

  /** A file size as the FFmpeg wrapper shows it: an amount and its unit. */
  datatype FileSize = FileSize(amount: real, unit: string)

  /**
   * `VideoInfoModel`, with the two size fields the FFmpeg wrapper fills in; the size text is
   * kept as the amount and unit it shows.
   */
  datatype VideoInfo = VideoInfo(
    fileName: Option<string>,
    duration: int,
    resolution: Option<string>,
    codec: Option<string>,
    fileSize: Option<FileSize>,
    fileSizeBytes: int)

  /** A `VideoInfoModel` as `new` creates it. */
  const EmptyInfo := VideoInfo(None, 0, None, None, None, 0)

  /** `ClipModel`: a span of the video, in seconds. */
  class Clip {
    var start: int
    var end: int

    constructor(start: int, end: int)
      ensures this.start == start && this.end == end
    {
      this.start := start;
      this.end := end;
    }
  }

  /**
   * `UpdateOutputFilePath` throws `ArgumentNullException` when the path is the root alone:
   * `GetDirectoryName` gives null for it, and `Path.Combine` refuses a null directory.
   */
  predicate UpdateThrows(path: Option<string>, format: Option<string>) {
    !IsNullOrEmpty(path) && !IsNullOrEmpty(format) && path.value == [Paths.Separator]
  }

  /**
   * The output path after `UpdateOutputFilePath`: with a path and a format both present
   * and non-empty, the file keeps its directory and stem and takes the format as its
   * extension; otherwise, or when the update throws, the path is left as it is.
   */
  function UpdatedOutputPath(path: Option<string>, format: Option<string>): (r: Option<string>)
    ensures IsNullOrEmpty(path) || IsNullOrEmpty(format) || UpdateThrows(path, format) ==> r == path
    ensures r.Some? <==> path.Some?
  {
    if IsNullOrEmpty(path) || IsNullOrEmpty(format) || UpdateThrows(path, format) then path
    else
      var p := path.value;
      Some(Paths.Combine(Paths.DirectoryName(p), Paths.FileNameWithoutExtension(p) + "." + format.value))
  }

  /** A format that can be an extension: no dot and no separator. */
  predicate PlainFormat(f: string) {
    f != [] && Lacks(f, '.') && Lacks(f, Paths.Separator)
  }

  /** The rewritten path has the old directory and stem, and the format as its extension. */
  lemma {:induction false} UpdatedOutputPathParts(p: string, f: string)
    requires p != [] && PlainFormat(f) && !UpdateThrows(Some(p), Some(f))
    ensures UpdatedOutputPath(Some(p), Some(f)).Some?
    ensures Paths.DirectoryName(UpdatedOutputPath(Some(p), Some(f)).value) == Paths.DirectoryName(p)
    ensures Paths.FileNameWithoutExtension(UpdatedOutputPath(Some(p), Some(f)).value) == Paths.FileNameWithoutExtension(p)
    ensures Paths.Extension(UpdatedOutputPath(Some(p), Some(f)).value) == "." + f
  {
    var d := Paths.DirectoryName(p);
    var stem := Paths.FileNameWithoutExtension(p);
    assert UpdatedOutputPath(Some(p), Some(f)) == Some(Paths.Combine(d, stem + "." + f));
    Paths.CombineParts(d, stem, f);
  }

  /** Setting the same plain format again leaves the path as the first setting made it. */
  lemma {:induction false} UpdatedOutputPathIdempotent(path: Option<string>, f: string)
    requires PlainFormat(f)
    ensures UpdatedOutputPath(UpdatedOutputPath(path, Some(f)), Some(f)) == UpdatedOutputPath(path, Some(f))
  {
    if !IsNullOrEmpty(path) {
      var p := path.value;
      var d := Paths.DirectoryName(p);
      var stem := Paths.FileNameWithoutExtension(p);
      Paths.CombineParts(d, stem, f);
      var r := Paths.Combine(d, stem + "." + f);
      if !UpdateThrows(path, Some(f)) {
        assert UpdatedOutputPath(path, Some(f)) == Some(r);
        assert r != [] by { assert EndsWith(r, stem + "." + f); }
        if r != [Paths.Separator] {
          assert UpdatedOutputPath(Some(r), Some(f))
            == Some(Paths.Combine(Paths.DirectoryName(r), Paths.FileNameWithoutExtension(r) + "." + f));
        }
      }
    }
  }

  /**
   * A dotted format is not idempotent: each setting keeps all but the last part of the old
   * extension, so setting "x.y" twice yields "stem.x.x.y".
   */
  lemma {:induction false} DottedFormatNotIdempotent(stem: string, e: string, x: string, y: string)
    requires stem != [] && Lacks(stem, Paths.Separator)
    requires Lacks(e, Paths.Separator) && Lacks(e, '.')
    requires Lacks(x, Paths.Separator) && Lacks(y, Paths.Separator) && Lacks(y, '.')
    ensures UpdatedOutputPath(Some(stem + "." + e), Some(x + "." + y)) == Some(stem + "." + (x + "." + y))
    ensures UpdatedOutputPath(Some(stem + "." + (x + "." + y)), Some(x + "." + y))
      == Some((stem + "." + x) + "." + (x + "." + y))
    ensures (stem + "." + x) + "." + (x + "." + y) != stem + "." + (x + "." + y)
  {
    var f := x + "." + y;
    var s2 := stem + "." + x;
    assert (stem + "." + f)[0] == stem[0];
    RenamePlain(stem, e, f);
    LacksAppend(stem, ".", Paths.Separator);
    LacksAppend(stem + ".", x, Paths.Separator);
    DotRegroup(stem, x, y);
    assert (s2 + "." + f)[0] == stem[0];
    RenamePlain(s2, y, f);
  }

  /** Regrouping a doubly dotted name. */
  lemma DotRegroup(a: string, b: string, c: string)
    ensures a + "." + (b + "." + c) == (a + "." + b) + "." + c
  {
  }

  lemma {:induction false} RenamePlain(stem: string, ext: string, f: string)
    requires Lacks(stem, Paths.Separator) && Lacks(ext, Paths.Separator) && Lacks(ext, '.')
    requires f != [] && !Paths.IsRooted(stem + "." + f)
    ensures UpdatedOutputPath(Some(stem + "." + ext), Some(f)) == Some(stem + "." + f)
  {
    var n := stem + "." + ext;
    StemOfPlainName(stem, ext);
    assert n[|stem|] == '.';
    UpdatedOutputPathOf(n, f);
    assert (stem + "." + f)[|stem|] == '.';
  }

  /** With a path that is neither empty nor the bare separator, the update combines directory, stem and format. */
  lemma UpdatedOutputPathOf(p: string, f: string)
    requires p != [] && p != [Paths.Separator] && f != []
    ensures UpdatedOutputPath(Some(p), Some(f))
      == Some(Paths.Combine(Paths.DirectoryName(p), Paths.FileNameWithoutExtension(p) + "." + f))
  {
  }

  /** A name without separators has no directory and drops its last extension as its stem. */
  lemma {:induction false} StemOfPlainName(stem: string, ext: string)
    requires Lacks(stem, Paths.Separator) && Lacks(ext, Paths.Separator) && Lacks(ext, '.')
    ensures Paths.DirectoryName(stem + "." + ext) == ""
    ensures Paths.FileNameWithoutExtension(stem + "." + ext) == stem
  {
    var n := stem + "." + ext;
    LacksAppend(stem, ".", Paths.Separator);
    LacksAppend(stem + ".", ext, Paths.Separator);
    Paths.FileNameOfName(n);
    Paths.LastIndexOfLacking(n, Paths.Separator);
    assert n == stem + ['.'] + ext;
    Paths.LastIndexOfAppend(stem, '.', ext);
    assert n[..|stem|] == stem;
  }

  /** `VideoModelViewModel`. */
  class VideoItem {
    var index: int
    var inputFilePath: Option<string>
    var videoInfo: Option<VideoInfo>
    var outputFilePath: Option<string>
    var outputFileName: Option<string>
    var preset: Option<string>
    var presets: seq<string>
    var clips: Option<seq<Clip>>
    var status: Status
    var progress: real
    var errorMessage: Option<string>
    var startTime: Option<int>
    var endTime: Option<int>
    var deleteSourceAfterConversion: bool
    var outputFormat: Option<string>

    /** A new item: index 0, not started, no progress, "mp4", no presets and no clips. */
    constructor()
      ensures index == 0 && inputFilePath == None && videoInfo == None
      ensures outputFilePath == None && outputFileName == None && preset == None
      ensures presets == [] && clips == None && status == NotStarted && progress == 0.0
      ensures errorMessage == None && startTime == None && endTime == None
      ensures !deleteSourceAfterConversion && outputFormat == Some("mp4")
    {
      index := 0;
      inputFilePath := None;
      videoInfo := None;
      outputFilePath := None;
      outputFileName := None;
      preset := None;
      presets := [];
      clips := None;
      status := NotStarted;
      progress := 0.0;
      errorMessage := None;
      startTime := None;
      endTime := None;
      deleteSourceAfterConversion := false;
      outputFormat := Some("mp4");
    }

    /**
     * A new item followed by an object initializer that sets these properties; their
     * setters only store the value, and every other field keeps its default.
     */
    constructor Initialized(inputFilePath: Option<string>, outputFilePath: Option<string>,
                            videoInfo: Option<VideoInfo>, preset: Option<string>, presets: seq<string>,
                            clips: Option<seq<Clip>>, status: Status, errorMessage: Option<string>,
                            startTime: Option<int>, endTime: Option<int>)
      ensures index == 0 && this.inputFilePath == inputFilePath && this.outputFilePath == outputFilePath
      ensures this.videoInfo == videoInfo && this.preset == preset && this.presets == presets
      ensures this.clips == clips && this.status == status && this.errorMessage == errorMessage
      ensures this.startTime == startTime && this.endTime == endTime
      ensures outputFileName == None && progress == 0.0 && !deleteSourceAfterConversion
      ensures outputFormat == Some("mp4")
    {
      index := 0;
      this.inputFilePath := inputFilePath;
      this.videoInfo := videoInfo;
      this.outputFilePath := outputFilePath;
      outputFileName := None;
      this.preset := preset;
      this.presets := presets;
      this.clips := clips;
      this.status := status;
      progress := 0.0;
      this.errorMessage := errorMessage;
      this.startTime := startTime;
      this.endTime := endTime;
      deleteSourceAfterConversion := false;
      outputFormat := Some("mp4");
    }

    /** `CanEditVideo`. */
    predicate CanEditVideo()
      reads this
    {
      status != InProgress
    }

    /** `HasSegments`. */
    predicate HasSegments()
      reads this
    {
      clips.Some? && |clips.value| > 0
    }

    /**
     * The `OutputFormat` setter: stores the format, then rewrites the output path's extension.
     * `thrown` reports the `ArgumentNullException` the rewrite raises for a root-only path;
     * the format is already stored by then and the path stays as it was.
     */
    method SetOutputFormat(format: Option<string>) returns (thrown: bool)
      modifies this`outputFormat, this`outputFilePath
      ensures outputFormat == format
      ensures thrown <==> UpdateThrows(old(outputFilePath), format)
      ensures outputFilePath == UpdatedOutputPath(old(outputFilePath), format)
    {
      outputFormat := format;
      thrown := false;
      if !IsNullOrEmpty(outputFilePath) && !IsNullOrEmpty(outputFormat) {
        var p := outputFilePath.value;
        if p == [Paths.Separator] {
          return true;
        }
        var directory := Paths.DirectoryName(p);
        var stem := Paths.FileNameWithoutExtension(p);
        outputFilePath := Some(Paths.Combine(directory, stem + "." + outputFormat.value));
      }
    }
  }

  /** `CanEditVideo` on a status value: every status but InProgress. */
  lemma {:induction false} CanEditExactly(v: VideoItem)
    ensures v.CanEditVideo() <==> v.status in {NotStarted, Queued, Completed, Failed, Cancelled}
  {
  }
}

/**
 * `FFmpegWrapper`: reading a video's details from what `ffmpeg -i <file>` prints on its
 * error stream. The process run is an input: its exit code and the captured text. The
 * resolution and codec matches are inputs too, and so is the file's length (`None` when
 * the file does not exist).
 */
module FFmpegWrapper {
  import opened Common
  import opened Text
  import opened Video
  import Paths

  // ---------------------------------------------------------------------------------------
  // File sizes

  /** The size units, in the order the loop steps through them. */
  const Units: seq<string> := ["B", "KB", "MB", "GB", "TB"]

  function Pow1024(k: nat): (p: nat)
    ensures p >= 1
  {
    if k == 0 then 1 else 1024 * Pow1024(k - 1)
  }

  /** The unit a size is shown in: the largest `k` up to 4 with `1024^k <= bytes`, or 0. */
  function UnitIndex(bytes: int): (k: nat)
    ensures k < |Units|
  {
    if bytes >= Pow1024(4) then 4
    else if bytes >= Pow1024(3) then 3
    else if bytes >= Pow1024(2) then 2
    else if bytes >= Pow1024(1) then 1
    else 0
  }

  /** `UnitIndex` is the largest unit whose threshold the size reaches, never beyond "TB". */
  lemma {:induction false} UnitIndexSpec(bytes: int, j: nat)
    ensures UnitIndex(bytes) == 0 || Pow1024(UnitIndex(bytes)) <= bytes
    ensures UnitIndex(bytes) < j < |Units| ==> bytes < Pow1024(j)
  {
    if UnitIndex(bytes) < j < |Units| {
      Pow1024Grows(UnitIndex(bytes) + 1, j);
    }
  }

  /** A size below `1024^j` is shown in a unit below `j`. */
  lemma {:induction false} UnitIndexBelow(bytes: int, j: nat)
    requires 0 < j < |Units| && bytes < Pow1024(j)
    ensures UnitIndex(bytes) < j
  {
    if j == 1 {
    } else if j == 2 {
    } else if j == 3 {
    } else {
    }
  }

  lemma {:induction false} Pow1024Grows(i: nat, j: nat)
    requires i <= j
    ensures Pow1024(i) <= Pow1024(j)
    decreases j
  {
    if i < j {
      Pow1024Grows(i, j - 1);
    }
  }

  /**
   * `FormatFileSize`: divides by 1024 while the amount reaches 1024 and a larger unit is left.
   * The amount is the byte count divided by the unit's power of 1024.
   */
  method FormatFileSize(bytes: int) returns (size: FileSize)
    ensures size.unit == Units[UnitIndex(bytes)]
    ensures size.amount * Pow1024(UnitIndex(bytes)) as real == bytes as real
  {
    var amount: real := bytes as real;
    var index := 0;
    ghost var unit: real := 1.0;
    while amount >= 1024.0 && index < |Units| - 1
      invariant 0 <= index <= UnitIndex(bytes)
      invariant unit == Pow1024(index) as real
      invariant Scaled(amount, unit, bytes)
    {
      ScaleDown(amount, unit, bytes);
      amount := amount / 1024.0;
      unit := 1024.0 * unit;
      index := index + 1;
    }
    if index < |Units| - 1 {
      BelowNext(amount, unit, bytes);
      UnitIndexBelow(bytes, index + 1);
    }
    assert index == UnitIndex(bytes);
    assert unit == Pow1024(UnitIndex(bytes)) as real;
    assert amount * unit == bytes as real;
    size := FileSize(amount, Units[index]);
  }

  /** `amount` units of `unit` bytes each make `bytes`. */
  ghost predicate Scaled(amount: real, unit: real, bytes: int) {
    amount * unit == bytes as real
  }

  /** One step of the loop: a 1024th of the amount in a unit 1024 times larger. */
  lemma ScaleDown(a: real, p: real, bytes: int)
    requires Scaled(a, p, bytes)
    ensures Scaled(a / 1024.0, 1024.0 * p, bytes)
  {
  }

  /** An amount below 1024 in some unit is less than one of the next unit. */
  lemma BelowNext(a: real, p: real, bytes: int)
    requires Scaled(a, p, bytes) && a < 1024.0 && p >= 1.0
    ensures bytes as real < 1024.0 * p
  {
  }

  /** The text of a whole amount: the `0.##` format prints no decimals for it. */
  function WholeText(size: FileSize): (t: Option<string>)
    ensures t.Some? <==> size.amount == size.amount.Floor as real
  {
    if size.amount == size.amount.Floor as real then Some(IntToString(size.amount.Floor) + " " + size.unit)
    else None
  }

  /** Below 1024 bytes the size is shown as the byte count followed by " B". */
  method SmallSize(bytes: nat) returns (size: FileSize)
    requires bytes < 1024
    ensures size == FileSize(bytes as real, "B")
    ensures WholeText(size) == Some(NatToString(bytes) + " B")
  {
    size := FormatFileSize(bytes);
    assert UnitIndex(bytes) == 0;
    assert size.amount == bytes as real && size.amount.Floor == bytes;
    assert IntToString(bytes) == NatToString(bytes);
    assert NatToString(bytes) + " " + "B" == NatToString(bytes) + " B";
  }

  // ---------------------------------------------------------------------------------------
  // The duration line

  /** The longest run of digits that `s` starts with. */
  function DigitRun(s: string): (d: string)
    ensures AllDigits(d) && StartsWith(s, d)
    ensures |d| < |s| ==> !IsDigit(s[|d|])
  {
    if s != [] && IsDigit(s[0]) then
      var r := DigitRun(s[1..]);
      assert s[1..][..|r|] == s[1..|r| + 1];
      [s[0]] + r
    else []
  }

  /** A run of digits followed by something else is the run. */
  lemma {:induction false} DigitRunOf(d: string, rest: string)
    requires AllDigits(d) && (rest == [] || !IsDigit(rest[0]))
    ensures DigitRun(d + rest) == d
  {
    if d != [] {
      assert (d + rest)[1..] == d[1..] + rest;
      DigitRunOf(d[1..], rest);
      HeadTail(d);
    } else {
      assert d + rest == rest;
    }
  }

  /** `(\d+)` followed by the character `sep`: the digits and what follows the separator. */
  function Group(s: string, sep: char): (r: Option<(string, string)>)
    ensures r.Some? ==> r.value.0 != [] && AllDigits(r.value.0)
  {
    var d := DigitRun(s);
    if d != [] && |d| < |s| && s[|d|] == sep then Some((d, s[|d| + 1..])) else None
  }

  /** The hours, minutes and seconds digits of a duration line. */
  datatype Clock = Clock(hours: string, minutes: string, seconds: string)

  /**
   * `Duration:\s(\d+):(\d+):(\d+)\.(\d+)` matched at the start of `s`: the digit runs cannot
   * give back a digit, since each must be followed by a ':' or a '.'.
   */
  function DurationAt(s: string): (r: Option<Clock>)
    ensures r.Some? ==> StartsWith(s, "Duration:")
    ensures r.Some? ==> AllDigits(r.value.hours) && AllDigits(r.value.minutes) && AllDigits(r.value.seconds)
  {
    if !(StartsWith(s, "Duration:") && |s| > 9 && IsWhiteSpace(s[9])) then None
    else
      match Group(s[10..], ':')
      case None => None
      case Some((h, s1)) =>
        match Group(s1, ':')
        case None => None
        case Some((m, s2)) =>
          match Group(s2, '.')
          case None => None
          case Some((sec, s3)) =>
            if s3 != [] && IsDigit(s3[0]) then Some(Clock(h, m, sec)) else None
  }

  /** `Regex.Match`: the leftmost place where the duration pattern matches. */
  function FindDuration(s: string): (r: Option<Clock>)
    ensures r.Some? ==> AllDigits(r.value.hours) && AllDigits(r.value.minutes) && AllDigits(r.value.seconds)
  {
    if s == [] then None
    else if DurationAt(s).Some? then DurationAt(s)
    else FindDuration(s[1..])
  }

  /** What `FindDuration` finds is the match at the first position where there is one. */
  lemma {:induction false} FindDurationLeftmost(s: string)
    ensures FindDuration(s).Some? ==>
              exists i :: 0 <= i < |s| && DurationAt(s[i..]) == FindDuration(s)
                          && forall j :: 0 <= j < i ==> DurationAt(s[j..]).None?
    ensures FindDuration(s).None? ==> forall i :: 0 <= i <= |s| ==> DurationAt(s[i..]).None?
  {
    if s != [] && DurationAt(s).None? {
      FindDurationLeftmost(s[1..]);
      if FindDuration(s).Some? {
        var i :| 0 <= i < |s[1..]| && DurationAt(s[1..][i..]) == FindDuration(s[1..])
                 && forall j :: 0 <= j < i ==> DurationAt(s[1..][j..]).None?;
        DropOfTail(s, i + 1);
        forall j | 0 <= j < i + 1 ensures DurationAt(s[j..]).None? {
          if j > 0 { DropOfTail(s, j); }
        }
      } else {
        forall i | 0 <= i <= |s| ensures DurationAt(s[i..]).None? {
          if i > 0 { DropOfTail(s, i); }
        }
      }
    } else if s != [] {
      assert s[0..] == s;
    }
  }

  /** `TimeSpan.MaxValue` in whole seconds: `new TimeSpan(h, m, s)` throws beyond it. */
  const TimeSpanMaxSeconds := 922337203685

  /** What can go wrong while reading the details. */
  datatype ProbeFailure =
    | ExitedWith(exitCode: int, output: string)  // the exception GetVideoInfo throws
    | NumberTooLarge                              // int.Parse overflows on a group
    | DurationTooLong                             // the TimeSpan constructor rejects the total

  /** The exception message for an unexpected exit code. */
  function FailureMessage(f: ProbeFailure): (m: string)
    requires f.ExitedWith?
    ensures StartsWith(m, "FFmpeg exited with code ")
  {
    AppendParts("FFmpeg exited with code ", IntToString(f.exitCode) + ". Output: " + f.output);
    assert "FFmpeg exited with code " + (IntToString(f.exitCode) + ". Output: " + f.output)
        == "FFmpeg exited with code " + IntToString(f.exitCode) + ". Output: " + f.output;
    "FFmpeg exited with code " + IntToString(f.exitCode) + ". Output: " + f.output
  }

  /** The duration in seconds: 0 without a match, the fraction ignored, or the exception thrown. */
  function Duration(output: string): (r: Result<int, ProbeFailure>)
    ensures FindDuration(output).None? ==> r == Ok(0)
    ensures r.Ok? ==> 0 <= r.value <= TimeSpanMaxSeconds
  {
    match FindDuration(output)
    case None => Ok(0)
    case Some(c) =>
      match (ParseInt(c.hours), ParseInt(c.minutes), ParseInt(c.seconds))
      case (Some(h), Some(m), Some(sec)) =>
        if h * 3600 + m * 60 + sec > TimeSpanMaxSeconds then Err(DurationTooLong)
        else Ok(h * 3600 + m * 60 + sec)
      case _ => Err(NumberTooLarge)
  }

  /** Without a "Duration:" anywhere in the text the duration stays 0. */
  lemma {:induction false} NoDurationLine(output: string)
    requires !Contains(output, "Duration:")
    ensures FindDuration(output).None?
    ensures Duration(output) == Ok(0)
  {
    if output != [] {
      NoDurationLine(output[1..]);
    }
  }

  /** The line ffmpeg prints: "Duration: H:M:S.F". */
  function DurationLine(h: nat, m: nat, sec: nat, frac: nat): string {
    "Duration: " + NatToString(h) + ":" + NatToString(m) + ":" + NatToString(sec) + "." + NatToString(frac)
  }

  /** A run of digits, its separator and the rest: the group is the run. */
  lemma {:induction false} GroupOf(d: string, sep: char, rest: string)
    requires d != [] && AllDigits(d) && !IsDigit(sep)
    ensures Group(d + [sep] + rest, sep) == Some((d, rest))
  {
    assert d + [sep] + rest == d + ([sep] + rest);
    DigitRunOf(d, [sep] + rest);
    assert (d + [sep] + rest)[|d|] == sep;
    assert (d + [sep] + rest)[|d| + 1..] == rest;
  }

  /** How a duration line and what follows it nest, group by group. */
  lemma {:induction false} LineShape(hs: string, ms: string, ss: string, fs: string, rest: string)
    ensures "Duration: " + hs + ":" + ms + ":" + ss + "." + fs + rest
            == "Duration: " + (hs + [':'] + (ms + [':'] + (ss + ['.'] + (fs + rest))))
  {
  }

  /** A duration line at the start of the text — whatever follows it — matches with its three numbers. */
  lemma {:induction false} DurationLineMatches(h: nat, m: nat, sec: nat, frac: nat, rest: string)
    ensures DurationAt(DurationLine(h, m, sec, frac) + rest)
            == Some(Clock(NatToString(h), NatToString(m), NatToString(sec)))
  {
    var hs, ms, ss, fs := NatToString(h), NatToString(m), NatToString(sec), NatToString(frac);
    var s3 := fs + rest;
    var s2 := ss + ['.'] + s3;
    var s1 := ms + [':'] + s2;
    var s0 := hs + [':'] + s1;
    var s := DurationLine(h, m, sec, frac) + rest;
    LineShape(hs, ms, ss, fs, rest);
    assert s[..9] == "Duration:" && s[9] == ' ' && s[10..] == s0;
    GroupOf(hs, ':', s1);
    GroupOf(ms, ':', s2);
    GroupOf(ss, '.', s3);
    assert s3[0] == fs[0];
  }

  /** A found clock of in-range numbers gives their total in seconds. */
  lemma {:induction false} DurationOfClock(s: string, h: nat, m: nat, sec: nat)
    requires FindDuration(s) == Some(Clock(NatToString(h), NatToString(m), NatToString(sec)))
    requires h <= Int32Max && m <= Int32Max && sec <= Int32Max
    requires h * 3600 + m * 60 + sec <= TimeSpanMaxSeconds
    ensures Duration(s) == Ok(h * 3600 + m * 60 + sec)
  {
    var c := FindDuration(s).value;
    NatToStringRoundTrip(h);
    NatToStringRoundTrip(m);
    NatToStringRoundTrip(sec);
    assert ParseInt(c.hours) == Some(h);
    assert ParseInt(c.minutes) == Some(m);
    assert ParseInt(c.seconds) == Some(sec);
  }

  /**
   * Text in which no 'D' comes before the duration line yields that line's duration, when
   * each number parses and the total fits a `TimeSpan`.
   */
  lemma {:induction false} DurationOfLine(before: string, h: nat, m: nat, sec: nat, frac: nat, rest: string)
    requires Lacks(before, 'D')
    requires h <= Int32Max && m <= Int32Max && sec <= Int32Max
    requires h * 3600 + m * 60 + sec <= TimeSpanMaxSeconds
    ensures Duration(before + DurationLine(h, m, sec, frac) + rest) == Ok(h * 3600 + m * 60 + sec)
  {
    var line := DurationLine(h, m, sec, frac) + rest;
    assert before + DurationLine(h, m, sec, frac) + rest == before + line;
    DurationLineMatches(h, m, sec, frac, rest);
    SkipToLine(before, line);
    DurationOfClock(before + line, h, m, sec);
  }

  /** No match starts inside text that has no 'D'. */
  lemma {:induction false} SkipToLine(before: string, line: string)
    requires Lacks(before, 'D') && DurationAt(line).Some?
    ensures FindDuration(before + line) == DurationAt(line)
  {
    if before == [] {
      assert before + line == line;
    } else {
      var s := before + line;
      assert s[0] == before[0];
      assert s[1..] == before[1..] + line;
      NoMatchWithoutD(s);
      SkipToLine(before[1..], line);
    }
  }

  /** A match starts with 'D'. */
  lemma {:induction false} NoMatchWithoutD(s: string)
    requires s != [] && s[0] != 'D'
    ensures DurationAt(s).None?
  {
    assert !StartsWith(s, "Duration:") by { assert "Duration:"[0] == 'D'; }
  }

  // ---------------------------------------------------------------------------------------
  // The video details

  /**
   * What parsing the output promises: an error exactly when the duration cannot be read; otherwise
   * the path's file name, the duration, the two matches, and the byte count and its display only
   * when the file exists.
   */
  predicate ParsedInfo(r: Result<VideoInfo, ProbeFailure>, output: string, filePath: string,
                       resolution: Option<string>, codec: Option<string>, fileLength: Option<int>)
  {
    && (r.Err? <==> Duration(output).Err?)
    && (r.Err? ==> r.error == Duration(output).error)
    && (r.Ok? ==> r.value.fileName == Some(Paths.FileName(filePath))
                  && r.value.duration == Duration(output).value
                  && r.value.resolution == resolution && r.value.codec == codec)
    && (r.Ok? && fileLength.None? ==> r.value.fileSize.None? && r.value.fileSizeBytes == 0)
    && (r.Ok? && fileLength.Some? ==>
          r.value.fileSizeBytes == fileLength.value && r.value.fileSize.Some?
          && r.value.fileSize.value.unit == Units[UnitIndex(fileLength.value)]
          && r.value.fileSize.value.amount * Pow1024(UnitIndex(fileLength.value)) as real == fileLength.value as real)
  }

  /** `ParseVideoInfo`: the file name, the duration, the two matches, and the size when the file exists. */
  method ParseVideoInfo(output: string, filePath: string, resolution: Option<string>, codec: Option<string>,
                        fileLength: Option<int>)
    returns (r: Result<VideoInfo, ProbeFailure>)
    ensures ParsedInfo(r, output, filePath, resolution, codec, fileLength)
  {
    var info := EmptyInfo.(fileName := Some(Paths.FileName(filePath)));
    match Duration(output) {
      case Err(e) =>
        return Err(e);
      case Ok(seconds) =>
        info := info.(duration := seconds);
    }
    info := info.(resolution := resolution, codec := codec);
    if fileLength.Some? {
      var size := FormatFileSize(fileLength.value);
      info := info.(fileSizeBytes := fileLength.value, fileSize := Some(size));
    }
    r := Ok(info);
  }

  /** `GetVideoInfo`: any exit code other than 0 or 1 throws; otherwise the output is parsed. */
  method GetVideoInfo(exitCode: int, output: string, filePath: string, resolution: Option<string>,
                      codec: Option<string>, fileLength: Option<int>)
    returns (r: Result<VideoInfo, ProbeFailure>)
    ensures exitCode != 0 && exitCode != 1 <==> r == Err(ExitedWith(exitCode, output))
    ensures (exitCode == 0 || exitCode == 1) ==> ParsedInfo(r, output, filePath, resolution, codec, fileLength)
  {
    if exitCode != 0 && exitCode != 1 {
      return Err(ExitedWith(exitCode, output));
    }
    r := ParseVideoInfo(output, filePath, resolution, codec, fileLength);
  }
}

/**
 * The segment editor dialog (`SegmentEditorViewModel`) and its rows (`SegmentViewModel`):
 * the time parser, the validated insertion kept in stable order of start time, the
 * 1-based renumbering, commit and cancel. Times are whole seconds.
 */
module SegmentEditor {
  import opened Common
  import opened Text
  import opened Video

  /** Seconds in a day: the `hh` custom format shows the hours within the day. */
  const DaySeconds := 86400

  // ---------------------------------------------------------------- the time parser

  /** The three patterns, tried in this order. */
  datatype Pattern = HoursMinutesSeconds | MinutesSeconds | SecondsOnly

  const Patterns: seq<Pattern> := [HoursMinutesSeconds, MinutesSeconds, SecondsOnly]

  /**
   * The text an anchored pattern must match in full: .NET's `$` also matches just
   * before a final newline, so that one newline does not take part in the match.
   */
  function Line(s: string): (r: string)
    ensures s == r || s == r + ['\n']
  {
    if s != [] && s[|s| - 1] == '\n' then s[..|s| - 1] else s
  }

  /**
   * The capture groups of `^(\d{1,2}):(\d{2}):(\d{2})$`, `^(\d{1,2}):(\d{2})$` or
   * `^(\d+)$` matched against the whole of `b`, when the match succeeds.
   */
  function Match(p: Pattern, b: string): (r: Option<seq<string>>)
    ensures r.Some? ==> forall k :: 0 <= k < |r.value| ==> r.value[k] != [] && AllDigits(r.value[k])
    ensures r.Some? ==> |r.value| == match p case HoursMinutesSeconds => 3 case MinutesSeconds => 2 case SecondsOnly => 1
  {
    match p
    case HoursMinutesSeconds =>
      if (|b| == 7 || |b| == 8) && b[|b| - 6] == ':' && b[|b| - 3] == ':'
         && AllDigits(b[..|b| - 6]) && AllDigits(b[|b| - 5..|b| - 3]) && AllDigits(b[|b| - 2..])
      then Some([b[..|b| - 6], b[|b| - 5..|b| - 3], b[|b| - 2..]])
      else None
    case MinutesSeconds =>
      if (|b| == 4 || |b| == 5) && b[|b| - 3] == ':' && AllDigits(b[..|b| - 3]) && AllDigits(b[|b| - 2..])
      then Some([b[..|b| - 3], b[|b| - 2..]])
      else None
    case SecondsOnly =>
      if b != [] && AllDigits(b) then Some([b]) else None
  }

  /** The groups of a match, joined by the colons between them, are the matched text. */
  lemma {:induction false} MatchJoin(p: Pattern, b: string)
    requires Match(p, b).Some?
    ensures Join(":", Match(p, b).value) == b
  {
    var g := Match(p, b).value;
    match p
    case HoursMinutesSeconds =>
      assert Join(":", g[2..]) == g[2];
      assert Join(":", g[1..]) == g[1] + ":" + g[2];
      assert b == g[0] + ":" + g[1] + ":" + g[2];
    case MinutesSeconds =>
      assert Join(":", g[1..]) == g[1];
      assert b == g[0] + ":" + g[1];
    case SecondsOnly =>
  }

  /**
   * The `try` block: parse every group, then build the `TimeSpan` of hours, minutes and
   * seconds (three groups), minutes and seconds (two) or seconds (one); none where a
   * parse throws.
   */
  function Convert(groups: seq<string>): (r: Option<int>)
    requires forall k :: 0 <= k < |groups| ==> AllDigits(groups[k])
    ensures r.Some? ==> r.value >= 0
  {
    if |groups| == 3 then
      match (ParseInt(groups[0]), ParseInt(groups[1]), ParseInt(groups[2]))
      case (Some(h), Some(m), Some(s)) => Some(h * 3600 + m * 60 + s)
      case _ => None
    else if |groups| == 2 then
      match (ParseInt(groups[0]), ParseInt(groups[1]))
      case (Some(m), Some(s)) => Some(m * 60 + s)
      case _ => None
    else if |groups| == 1 then
      ParseInt(groups[0])
    else None
  }

  /** The `foreach` over the patterns: the first one that matches and converts wins. */
  function FirstParse(ps: seq<Pattern>, b: string): (r: Option<int>)
    ensures r.Some? ==> r.value >= 0
  {
    if ps == [] then None
    else
      match Match(ps[0], b)
      case Some(groups) =>
        var t := Convert(groups);
        if t.Some? then t else FirstParse(ps[1..], b)
      case None => FirstParse(ps[1..], b)
  }

  /** `ParseTimeSpan`: none for blank text and for text no pattern accepts; the seconds otherwise. */
  function ParseTimeSpan(s: string): (r: Option<int>)
    ensures r.Some? ==> r.value >= 0 && !IsBlank(s)
  {
    if IsBlank(s) then None else FirstParse(Patterns, Line(s))
  }

  /**
   * The parser by shape: blank text gives none; otherwise the first of the three shapes
   * the line has decides, and only the digits-only shape can still fail, on overflow.
   */
  lemma {:induction false} ParseByShape(s: string)
    ensures ParseTimeSpan(s) ==
      if IsBlank(s) then None
      else if Match(HoursMinutesSeconds, Line(s)).Some? then Convert(Match(HoursMinutesSeconds, Line(s)).value)
      else if Match(MinutesSeconds, Line(s)).Some? then Convert(Match(MinutesSeconds, Line(s)).value)
      else if Match(SecondsOnly, Line(s)).Some? then ParseInt(Line(s))
      else None
    ensures Match(HoursMinutesSeconds, Line(s)).Some? ==> Convert(Match(HoursMinutesSeconds, Line(s)).value).Some?
    ensures Match(MinutesSeconds, Line(s)).Some? ==> Convert(Match(MinutesSeconds, Line(s)).value).Some?
  {
    var b := Line(s);
    assert Patterns[1..] == [MinutesSeconds, SecondsOnly];
    assert Patterns[2..] == [SecondsOnly];
    assert Patterns[3..] == [];
    var h := Match(HoursMinutesSeconds, b);
    if h.Some? {
      TwoDigitsBound(h.value[0]);
      TwoDigitsBound(h.value[1]);
      TwoDigitsBound(h.value[2]);
      assert Convert(h.value).Some?;
    }
    var m := Match(MinutesSeconds, b);
    if m.Some? {
      TwoDigitsBound(m.value[0]);
      TwoDigitsBound(m.value[1]);
      assert Convert(m.value).Some?;
    }
    var d := Match(SecondsOnly, b);
    if d.Some? {
      assert Convert(d.value) == ParseInt(b);
    }
    assert FirstParse(Patterns[2..], b) == if d.Some? then Convert(d.value) else None;
    assert FirstParse(Patterns[1..], b) == if m.Some? && Convert(m.value).Some? then Convert(m.value) else FirstParse(Patterns[2..], b);
  }

  /** A character other than white space makes the text non-blank. */
  lemma {:induction false} NotBlank(s: string, k: nat)
    requires k < |s| && !IsWhiteSpace(s[k])
    ensures !IsBlank(s)
  {
  }

  /** A run of at most two digits is below 100. */
  lemma TwoDigitsBound(g: string)
    requires AllDigits(g) && |g| <= 2
    ensures DigitsValue(g) < 100
  {
    if |g| == 2 {
      assert g[..1][..0] == [];
    } else if |g| == 1 {
      assert g[..0] == [];
    }
  }

  /** Text and text with one final newline parse alike, when the text itself is not blank and has no final newline. */
  lemma {:induction false} FinalNewline(s: string)
    requires !IsBlank(s) && s[|s| - 1] != '\n'
    ensures ParseTimeSpan(s + "\n") == ParseTimeSpan(s)
  {
    assert (s + "\n")[..|s|] == s;
    var k :| 0 <= k < |s| && !IsWhiteSpace(s[k]);
    NotBlank(s + "\n", k);
  }

  /** `H:MM:SS` and `HH:MM:SS` give hours, minutes and seconds; the fields are not range-checked. */
  lemma {:induction false} ParseClock(h: string, m: string, sec: string)
    requires 1 <= |h| <= 2 && |m| == 2 && |sec| == 2
    requires AllDigits(h) && AllDigits(m) && AllDigits(sec)
    ensures ParseTimeSpan(h + ":" + m + ":" + sec)
            == Some(DigitsValue(h) * 3600 + DigitsValue(m) * 60 + DigitsValue(sec))
  {
    var b := h + ":" + m + ":" + sec;
    ClockShape(h, m, sec);
    TwoDigitsBound(h);
    TwoDigitsBound(m);
    TwoDigitsBound(sec);
    ParseByShape(b);
    assert Convert([h, m, sec]) == Some(DigitsValue(h) * 3600 + DigitsValue(m) * 60 + DigitsValue(sec));
  }

  lemma {:induction false} ClockShape(h: string, m: string, sec: string)
    requires 1 <= |h| <= 2 && |m| == 2 && |sec| == 2
    requires AllDigits(h) && AllDigits(m) && AllDigits(sec)
    ensures var b := h + ":" + m + ":" + sec;
      !IsBlank(b) && Line(b) == b && Match(HoursMinutesSeconds, b) == Some([h, m, sec])
  {
    var b := h + ":" + m + ":" + sec;
    NotBlank(b, |h|);
    assert b[|b| - 1] == sec[1];
    assert b[..|b| - 6] == h && b[|b| - 5..|b| - 3] == m && b[|b| - 2..] == sec;
    assert b[|b| - 6] == ':' && b[|b| - 3] == ':';
  }

  /** `M:SS` and `MM:SS` give minutes and seconds. */
  lemma {:induction false} ParseMinutes(m: string, sec: string)
    requires 1 <= |m| <= 2 && |sec| == 2
    requires AllDigits(m) && AllDigits(sec)
    ensures ParseTimeSpan(m + ":" + sec) == Some(DigitsValue(m) * 60 + DigitsValue(sec))
  {
    var b := m + ":" + sec;
    MinutesShape(m, sec);
    TwoDigitsBound(m);
    TwoDigitsBound(sec);
    ParseByShape(b);
    assert Convert([m, sec]) == Some(DigitsValue(m) * 60 + DigitsValue(sec));
  }

  lemma {:induction false} MinutesShape(m: string, sec: string)
    requires 1 <= |m| <= 2 && |sec| == 2
    requires AllDigits(m) && AllDigits(sec)
    ensures var b := m + ":" + sec;
      !IsBlank(b) && Line(b) == b && Match(HoursMinutesSeconds, b).None? && Match(MinutesSeconds, b) == Some([m, sec])
  {
    var b := m + ":" + sec;
    NotBlank(b, |m|);
    assert b[|b| - 1] == sec[1];
    assert b[..|b| - 3] == m && b[|b| - 2..] == sec;
    assert b[|b| - 3] == ':';
  }

  /** Digits alone give seconds while they fit an `int`; beyond that `int.Parse` throws and the result is none. */
  lemma {:induction false} ParseSeconds(d: string)
    requires d != [] && AllDigits(d)
    ensures ParseTimeSpan(d) == if DigitsValue(d) <= Int32Max then Some(DigitsValue(d)) else None
  {
    assert IsDigit(d[0]);
    NotBlank(d, 0);
    assert Line(d) == d by { assert IsDigit(d[|d| - 1]); }
    assert Match(HoursMinutesSeconds, d).None? by {
      if |d| >= 6 { assert IsDigit(d[|d| - 6]); }
    }
    assert Match(MinutesSeconds, d).None? by {
      if |d| >= 3 { assert IsDigit(d[|d| - 3]); }
    }
    ParseByShape(d);
  }

  /** Minutes and seconds above 59 are accepted. */
  lemma {:induction false} UncheckedFields()
    ensures ParseTimeSpan("0:99:99") == Some(99 * 60 + 99)
  {
    assert "0:99:99" == "0" + ":" + "99" + ":" + "99";
    assert DigitsValue("0") == 0 by { assert "0"[..0] == ""; }
    assert DigitsValue("99") == 99 by { assert "99"[..1] == "9" && "9"[..0] == ""; }
    ParseClock("0", "99", "99");
  }

  // ---------------------------------------------------------------- the row's text

  /** Two decimal digits, with a leading zero below ten. */
  function TwoDigits(n: nat): (r: string)
    requires n < 100
    ensures |r| == 2 && AllDigits(r) && DigitsValue(r) == n
  {
    var r := [DigitChar(n / 10), DigitChar(n % 10)];
    assert r[..1] == [r[0]] && [r[0]][..0] == [];
    assert DigitsValue(r[..1]) == n / 10;
    assert DigitsValue(r) == n / 10 * 10 + n % 10;
    r
  }

  /**
   * `TimeSpan.ToString(@"hh\:mm\:ss")`: hours within the day, minutes and seconds, two
   * digits each; the days and the sign of a negative span are not shown.
   */
  function ClockText(t: int): (r: string)
    ensures |r| == 8 && r[2] == ':' && r[5] == ':'
  {
    var x := (if t < 0 then -t else t) % DaySeconds;
    TwoDigits(x / 3600) + ":" + TwoDigits(x % 3600 / 60) + ":" + TwoDigits(x % 60)
  }

  /**
   * Parsing the shown text gives the span back within a day, so a row whose text is set
   * to what it shows keeps its time exactly when that time is under 24 hours.
   */
  lemma {:induction false} ClockTextRoundTrip(t: int)
    ensures ParseTimeSpan(ClockText(t)) == Some((if t < 0 then -t else t) % DaySeconds)
  {
    var x := (if t < 0 then -t else t) % DaySeconds;
    ClockOf(x);
  }

  /** The text of a span within a day parses back to it. */
  lemma {:induction false} ClockOf(x: int)
    requires 0 <= x < DaySeconds
    ensures ParseTimeSpan(TwoDigits(x / 3600) + ":" + TwoDigits(x % 3600 / 60) + ":" + TwoDigits(x % 60)) == Some(x)
  {
    ClockFields(x);
    ClockOfFields(x / 3600, x % 3600 / 60, x % 60);
  }

  lemma {:induction false} ClockOfFields(h: nat, m: nat, sec: nat)
    requires h < 24 && m < 60 && sec < 60
    ensures ParseTimeSpan(TwoDigits(h) + ":" + TwoDigits(m) + ":" + TwoDigits(sec)) == Some(h * 3600 + m * 60 + sec)
  {
    ParseClock(TwoDigits(h), TwoDigits(m), TwoDigits(sec));
  }

  /** Hours, minutes and seconds of a span within a day add back up to it. */
  lemma {:induction false} ClockFields(x: int)
    requires 0 <= x < DaySeconds
    ensures x / 3600 < 24 && x % 3600 / 60 < 60
    ensures x == x / 3600 * 3600 + x % 3600 / 60 * 60 + x % 60
  {
    var r := x % 3600;
    assert x == x / 3600 * 3600 + r;
    assert r == r / 60 * 60 + r % 60;
    assert r % 60 == x % 60;
  }

  // ---------------------------------------------------------------- ordering by start

  /** An element together with the key `OrderBy` compares it by. */
  datatype Keyed<T> = Keyed(key: int, item: T)

  predicate SortedByKey<T>(s: seq<Keyed<T>>) {
    forall i, j :: 0 <= i < j < |s| ==> s[i].key <= s[j].key
  }

  /** The elements with key `k`, in order. */
  function WithKey<T>(s: seq<Keyed<T>>, k: int): (r: seq<Keyed<T>>)
    ensures |r| <= |s|
  {
    if s == [] then [] else (if s[0].key == k then [s[0]] else []) + WithKey(s[1..], k)
  }

  /** Puts `x` before the first element whose key is not smaller than its own. */
  function InsertByKey<T>(x: Keyed<T>, ys: seq<Keyed<T>>): (r: seq<Keyed<T>>)
    ensures multiset(r) == multiset(ys) + multiset{x}
  {
    if ys == [] || x.key <= ys[0].key then [x] + ys
    else
      assert ys == [ys[0]] + ys[1..];
      [ys[0]] + InsertByKey(x, ys[1..])
  }

  /** `OrderBy(key)`: a stable sort. */
  function SortByKey<T>(xs: seq<Keyed<T>>): (r: seq<Keyed<T>>)
    ensures multiset(r) == multiset(xs)
  {
    if xs == [] then []
    else
      assert xs == [xs[0]] + xs[1..];
      InsertByKey(xs[0], SortByKey(xs[1..]))
  }

  lemma {:induction false} InsertByKeySorted<T>(x: Keyed<T>, ys: seq<Keyed<T>>)
    requires SortedByKey(ys)
    ensures SortedByKey(InsertByKey(x, ys))
  {
    if ys != [] && x.key > ys[0].key {
      InsertByKeySorted(x, ys[1..]);
      var rest := InsertByKey(x, ys[1..]);
      forall k | 0 <= k < |rest| ensures ys[0].key <= rest[k].key {
        assert rest[k] in multiset(rest);
        assert rest[k] == x || rest[k] in multiset(ys[1..]);
      }
    }
  }

  /** The result is in order of key. */
  lemma {:induction false} SortByKeySorted<T>(xs: seq<Keyed<T>>)
    ensures SortedByKey(SortByKey(xs))
  {
    if xs != [] {
      SortByKeySorted(xs[1..]);
      InsertByKeySorted(xs[0], SortByKey(xs[1..]));
    }
  }

  lemma {:induction false} InsertByKeyWithKey<T>(x: Keyed<T>, ys: seq<Keyed<T>>, k: int)
    ensures WithKey(InsertByKey(x, ys), k) == (if x.key == k then [x] else []) + WithKey(ys, k)
  {
    if ys == [] || x.key <= ys[0].key {
      WithKeyCons(x, ys, k);
    } else {
      InsertByKeyWithKey(x, ys[1..], k);
      WithKeyCons(ys[0], InsertByKey(x, ys[1..]), k);
      WithKeyCons(ys[0], ys[1..], k);
      HeadTail(ys);
    }
  }

  lemma WithKeyCons<T>(h: Keyed<T>, t: seq<Keyed<T>>, k: int)
    ensures WithKey([h] + t, k) == (if h.key == k then [h] else []) + WithKey(t, k)
  {
    assert ([h] + t)[0] == h && ([h] + t)[1..] == t;
  }

  /** Stability: the elements of each key keep their relative order. */
  lemma {:induction false} SortByKeyStable<T>(xs: seq<Keyed<T>>, k: int)
    ensures WithKey(SortByKey(xs), k) == WithKey(xs, k)
  {
    if xs != [] {
      SortByKeyStable(xs[1..], k);
      InsertByKeyWithKey(xs[0], SortByKey(xs[1..]), k);
    }
  }

  // ---------------------------------------------------------------- the rows

  /** `SegmentViewModel`: one row, showing a clip it shares with the video. */
  class Segment {
    const clip: Clip
    var index: int

    constructor(clip: Clip)
      ensures this.clip == clip && index == 0
    {
      this.clip := clip;
      index := 0;
    }

    /** The `StartTimeText` getter. */
    function StartTimeText(): (r: string)
      reads clip
      ensures ParseTimeSpan(r) == Some((if clip.start < 0 then -clip.start else clip.start) % DaySeconds)
    {
      ClockTextRoundTrip(clip.start);
      ClockText(clip.start)
    }

    /** The `EndTimeText` getter. */
    function EndTimeText(): (r: string)
      reads clip
      ensures ParseTimeSpan(r) == Some((if clip.end < 0 then -clip.end else clip.end) % DaySeconds)
    {
      ClockTextRoundTrip(clip.end);
      ClockText(clip.end)
    }

    /** The `StartTimeText` setter: takes the time only when the text parses, with no check against the end. */
    method SetStartTimeText(value: string)
      modifies clip`start
      ensures clip.start == ParseTimeSpan(value).GetOr(old(clip.start))
    {
      var t := ParseTimeSpan(value);
      if t.Some? {
        clip.start := t.value;
      }
    }

    /** The `EndTimeText` setter: takes the time only when the text parses, with no check against the start. */
    method SetEndTimeText(value: string)
      modifies clip`end
      ensures clip.end == ParseTimeSpan(value).GetOr(old(clip.end))
    {
      var t := ParseTimeSpan(value);
      if t.Some? {
        clip.end := t.value;
      }
    }
  }

  /** The clips of some rows, in order. */
  function ClipsOf(rows: seq<Segment>): seq<Clip> {
    seq(|rows|, i requires 0 <= i < |rows| => rows[i].clip)
  }

  /** The rows, each keyed by its clip's start. */
  function ByStart(rows: seq<Segment>): (r: seq<Keyed<Segment>>)
    reads set k | 0 <= k < |rows| :: rows[k].clip
    ensures |r| == |rows| && forall k :: 0 <= k < |rows| ==> r[k] == Keyed(rows[k].clip.start, rows[k])
  {
    seq(|rows|, k requires 0 <= k < |rows| reads set j | 0 <= j < |rows| :: rows[j].clip => Keyed(rows[k].clip.start, rows[k]))
  }

  /** The elements of a keyed sequence. */
  function Items<T>(s: seq<Keyed<T>>): (r: seq<T>)
    ensures |r| == |s| && forall k :: 0 <= k < |s| ==> r[k] == s[k].item
  {
    seq(|s|, k requires 0 <= k < |s| => s[k].item)
  }

  lemma {:induction false} ByStartAppend(rows: seq<Segment>, row: Segment)
    ensures ByStart(rows + [row]) == ByStart(rows) + [Keyed(row.clip.start, row)]
  {
  }

  /** Keys follow the clips' starts alone: rows whose starts are as they were are keyed as they were. */
  twostate lemma ByStartFrame(rows: seq<Segment>)
    requires forall k :: 0 <= k < |rows| ==> rows[k].clip.start == old(rows[k].clip.start)
    ensures ByStart(rows) == old(ByStart(rows))
  {
  }

  /** Sorting keyed rows reorders distinct rows into distinct rows, each still keyed by its clip's start. */
  lemma {:induction false} SortedRows(rows: seq<Segment>, sorted: seq<Keyed<Segment>>)
    requires NoDup(rows) && sorted == SortByKey(ByStart(rows))
    ensures NoDup(Items(sorted)) && ByStart(Items(sorted)) == sorted
    ensures forall x :: x in Items(sorted) ==> x in rows
    ensures forall x :: x in rows ==> x in Items(sorted)
  {
    var keyed := ByStart(rows);
    NoDupDistinct(rows);
    DistinctNoDup(keyed);
    NoDupMultiset(keyed);
    NoDupMultiset(sorted);
    NoDupDistinct(sorted);
    SortedKeys(rows, sorted);
    DistinctNoDup(Items(sorted));
    SortedCovers(rows, sorted);
  }

  lemma {:induction false} SortedKeys(rows: seq<Segment>, sorted: seq<Keyed<Segment>>)
    requires multiset(sorted) == multiset(ByStart(rows))
    ensures forall k :: 0 <= k < |sorted| ==> sorted[k].key == sorted[k].item.clip.start && sorted[k].item in rows
  {
    var keyed := ByStart(rows);
    forall k | 0 <= k < |sorted| ensures sorted[k].key == sorted[k].item.clip.start && sorted[k].item in rows {
      assert sorted[k] in multiset(keyed);
      var j :| 0 <= j < |keyed| && keyed[j] == sorted[k];
    }
  }

  lemma {:induction false} SortedCovers(rows: seq<Segment>, sorted: seq<Keyed<Segment>>)
    requires multiset(sorted) == multiset(ByStart(rows))
    ensures forall x :: x in rows ==> x in Items(sorted)
  {
    var keyed := ByStart(rows);
    var items := Items(sorted);
    forall x | x in rows ensures x in items {
      var j :| 0 <= j < |rows| && rows[j] == x;
      assert keyed[j] in multiset(sorted);
      var k :| 0 <= k < |sorted| && sorted[k] == keyed[j];
      assert items[k] == x;
    }
  }

  /**
   * The rows with a new one, stably sorted by start: distinct, the old rows and the new one,
   * each keyed by its start in the sorted order, and so in order of start.
   */
  lemma {:induction false} InsertedRows(rows: seq<Segment>, row: Segment, placed: seq<Segment>)
    requires NoDup(rows) && row !in rows
    requires placed == Items(SortByKey(ByStart(rows) + [Keyed(row.clip.start, row)]))
    ensures NoDup(placed) && row in placed
    ensures forall x :: x in placed <==> x in rows || x == row
    ensures ByStart(placed) == SortByKey(ByStart(rows) + [Keyed(row.clip.start, row)])
    ensures SortedByKey(ByStart(placed))
  {
    NoDupAppend(rows, row);
    ByStartAppend(rows, row);
    SortByKeySorted(ByStart(rows + [row]));
    var sorted := SortByKey(ByStart(rows + [row]));
    SortedRows(rows + [row], sorted);
  }

  /** `AddSegment`'s checks: both times parse, the start is before the end, and the end is within the video. */
  predicate Accepts(start: Option<int>, end: Option<int>, duration: int) {
    start.Some? && end.Some? && start.value < end.value && end.value <= duration
  }

  /** Without video information the duration is zero, and nothing is accepted. */
  lemma {:induction false} NoDurationRejects(startText: string, endText: string)
    ensures !Accepts(ParseTimeSpan(startText), ParseTimeSpan(endText), 0)
  {
  }

  // ---------------------------------------------------------------- the dialog

  /** `SegmentEditorViewModel`. */
  class SegmentEditor {
    const video: VideoItem
    var segments: seq<Segment>
    var newSegmentStartTime: string
    var newSegmentEndTime: string
    /** The value last passed to `DialogResult`, if any. */
    var dialogResult: Option<bool>

    /** The rows, as a set of objects. */
    ghost function Rows(): set<Segment>
      reads this`segments
    {
      set r | r in segments
    }

    /** The rows are distinct objects numbered 1..n in order. */
    ghost predicate Valid()
      reads this`segments, Rows()
    {
      NoDup(segments) && forall i :: 0 <= i < |segments| ==> segments[i].index == i + 1
    }

    /** `VideoDuration`: zero without video information. */
    function VideoDuration(): (d: int)
      reads video
      ensures video.videoInfo.None? ==> d == 0
    {
      if video.videoInfo.Some? then video.videoInfo.value.duration else 0
    }

    /** A dialog showing one fresh row per clip of the video, in order. */
    constructor(videoModel: VideoItem)
      ensures video == videoModel && ClipsOf(segments) == videoModel.clips.GetOr([])
      ensures forall i :: 0 <= i < |segments| ==> fresh(segments[i])
      ensures Valid()
      ensures newSegmentStartTime == "" && newSegmentEndTime == "" && dialogResult == None
    {
      video := videoModel;
      segments := [];
      newSegmentStartTime := "";
      newSegmentEndTime := "";
      dialogResult := None;
      new;
      LoadSegmentsFromVideo();
    }

    /** `LoadSegmentsFromVideo`. */
    method LoadSegmentsFromVideo()
      modifies this`segments
      ensures ClipsOf(segments) == video.clips.GetOr([])
      ensures forall i :: 0 <= i < |segments| ==> fresh(segments[i])
      ensures Valid()
    {
      segments := [];
      if video.clips.Some? {
        var clips := video.clips.value;
        for i := 0 to |clips|
          invariant ClipsOf(segments) == clips[..i]
          invariant forall j :: 0 <= j < |segments| ==> fresh(segments[j])
          invariant NoDup(segments)
        {
          var row := new Segment(clips[i]);
          NoDupAppend(segments, row);
          segments := segments + [row];
        }
        assert clips[..|clips|] == clips;
      }
      UpdateSegmentIndexes();
    }

    /** `UpdateSegmentIndexes`: numbers the rows 1..n in order. */
    method UpdateSegmentIndexes()
      requires NoDup(segments)
      modifies Rows()`index
      ensures Valid()
      ensures ByStart(segments) == old(ByStart(segments))
    {
      NoDupDistinct(segments);
      for i := 0 to |segments|
        invariant forall j :: 0 <= j < i ==> segments[j].index == j + 1
      {
        segments[i].index := i + 1;
      }
    }

    /**
     * `AddSegment`: when the two texts pass the checks, a fresh row for a fresh clip
     * joins the rows, all of them are stably sorted by start, renumbered, and both texts
     * are cleared; otherwise nothing changes.
     */
    method AddSegment()
      requires Valid()
      modifies this`segments, this`newSegmentStartTime, this`newSegmentEndTime, Rows()`index
      ensures Valid()
      ensures !Accepts(ParseTimeSpan(old(newSegmentStartTime)), ParseTimeSpan(old(newSegmentEndTime)), VideoDuration()) ==>
        segments == old(segments) && newSegmentStartTime == old(newSegmentStartTime)
        && newSegmentEndTime == old(newSegmentEndTime)
      ensures Accepts(ParseTimeSpan(old(newSegmentStartTime)), ParseTimeSpan(old(newSegmentEndTime)), VideoDuration()) ==>
        newSegmentStartTime == "" && newSegmentEndTime == ""
        && exists row: Segment :: row in segments && fresh(row) && fresh(row.clip)
             && row.clip.start == ParseTimeSpan(old(newSegmentStartTime)).value
             && row.clip.end == ParseTimeSpan(old(newSegmentEndTime)).value
             && segments == Items(SortByKey(old(ByStart(segments)) + [Keyed(row.clip.start, row)]))
    {
      var startTime := ParseTimeSpan(newSegmentStartTime);
      var endTime := ParseTimeSpan(newSegmentEndTime);
      AddParsed(startTime, endTime);
    }

    /** `AddSegment` once both texts are parsed. */
    method AddParsed(startTime: Option<int>, endTime: Option<int>)
      requires Valid()
      modifies this`segments, this`newSegmentStartTime, this`newSegmentEndTime, Rows()`index
      ensures Valid()
      ensures !Accepts(startTime, endTime, VideoDuration()) ==>
        segments == old(segments) && newSegmentStartTime == old(newSegmentStartTime)
        && newSegmentEndTime == old(newSegmentEndTime)
      ensures Accepts(startTime, endTime, VideoDuration()) ==>
        newSegmentStartTime == "" && newSegmentEndTime == ""
        && exists row: Segment :: row in segments && fresh(row) && fresh(row.clip)
             && row.clip.start == startTime.value && row.clip.end == endTime.value
             && segments == Items(SortByKey(old(ByStart(segments)) + [Keyed(row.clip.start, row)]))
    {
      if startTime.None? || endTime.None? || startTime.value >= endTime.value || endTime.value > VideoDuration() {
        return;
      }
      var row := AddAccepted(startTime.value, endTime.value);
    }

    /** An accepted pair: the row goes in and both texts are cleared. */
    method AddAccepted(start: int, end: int) returns (row: Segment)
      requires Valid()
      modifies this`segments, this`newSegmentStartTime, this`newSegmentEndTime, Rows()`index
      ensures Valid()
      ensures newSegmentStartTime == "" && newSegmentEndTime == ""
      ensures row in segments && fresh(row) && fresh(row.clip)
      ensures row.clip.start == start && row.clip.end == end
      ensures segments == Items(SortByKey(old(ByStart(segments)) + [Keyed(start, row)]))
    {
      ghost var before := ByStart(segments);
      newSegmentStartTime := "";
      newSegmentEndTime := "";
      assert segments == old(segments) && ByStart(segments) == before;
      row := InsertSegment(start, end);
    }

    /** The accepted half of `AddSegment`: add the row, sort by start, renumber. */
    method InsertSegment(start: int, end: int) returns (row: Segment)
      requires Valid()
      modifies this`segments, Rows()`index
      ensures Valid()
      ensures row in segments && fresh(row) && fresh(row.clip)
      ensures row.clip.start == start && row.clip.end == end
      ensures segments == Items(SortByKey(old(ByStart(segments)) + [Keyed(start, row)]))
    {
      var clip := new Clip(start, end);
      row := new Segment(clip);
      ByStartFrame(segments);
      PlaceRow(row);
      UpdateSegmentIndexes();
    }

    /** The new row joins the distinct rows, which are then stably sorted by start. */
    method PlaceRow(row: Segment)
      requires NoDup(segments) && row !in segments
      modifies this`segments
      ensures NoDup(segments) && row in segments
      ensures forall x :: x in segments <==> x in old(segments) || x == row
      ensures segments == Items(SortByKey(old(ByStart(segments)) + [Keyed(row.clip.start, row)]))
    {
      var placed := Items(SortByKey(ByStart(segments) + [Keyed(row.clip.start, row)]));
      InsertedRows(segments, row, placed);
      segments := placed;
    }

    /** `RemoveSegment`: drops the first occurrence of the row, if any, and renumbers. */
    method RemoveSegment(segment: Segment)
      requires Valid()
      modifies this`segments, Rows()`index
      ensures segments == RemoveFirst(old(segments), segment)
      ensures Valid()
    {
      if segment in segments {
        RemoveFirstNoDup(segments, segment);
        forall x | x in RemoveFirst(segments, segment) ensures x in segments {
          RemoveFirstMembers(segments, segment, x);
        }
        segments := RemoveFirst(segments, segment);
        UpdateSegmentIndexes();
      }
    }

    /** `ClearAllSegments`. */
    method ClearAllSegments()
      modifies this`segments
      ensures segments == [] && Valid()
    {
      segments := [];
    }

    /**
     * `SaveAndClose`: the video's clips become the rows' clips in order (a new collection
     * when there was none, the old one cleared and refilled otherwise), and the dialog
     * closes with `true`.
     */
    method SaveAndClose()
      modifies video`clips, this`dialogResult
      ensures video.clips == Some(ClipsOf(segments))
      ensures dialogResult == Some(true)
    {
      video.clips := Some([]);
      assert ClipsOf(segments[..0]) == [];
      for i := 0 to |segments|
        invariant video.clips == Some(ClipsOf(segments[..i]))
      {
        assert ClipsOf(segments[..i + 1]) == ClipsOf(segments[..i]) + [segments[i].clip];
        video.clips := Some(video.clips.value + [segments[i].clip]);
      }
      assert segments[..|segments|] == segments;
      dialogResult := Some(true);
    }

    /** `Cancel`: the dialog closes with `false`; the video's clip list is not touched. */
    method Cancel()
      modifies this`dialogResult
      ensures dialogResult == Some(false)
    {
      dialogResult := Some(false);
    }
  }


  /**
   * The rows share their clips with the video, so an edit made through a row's text
   * reaches the video's clip at once and survives `Cancel`, which only leaves the list
   * of clips as it was.
   */
  method EditThenCancel(videoModel: VideoItem, value: string) returns (editor: SegmentEditor)
    requires videoModel.clips.Some? && |videoModel.clips.value| > 0
    requires ParseTimeSpan(value).Some?
    modifies videoModel.clips.value[0]
    ensures videoModel.clips == old(videoModel.clips)
    ensures videoModel.clips.value[0].start == ParseTimeSpan(value).value
    ensures editor.dialogResult == Some(false)
  {
    editor := new SegmentEditor(videoModel);
    assert editor.segments[0].clip == ClipsOf(editor.segments)[0];
    editor.segments[0].SetStartTimeText(value);
    editor.Cancel();
  }
}

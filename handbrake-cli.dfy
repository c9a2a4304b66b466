/**
 * `HandbrakeCLIWrapper`: reading the CLI's preset listing into a table of categories,
 * merging such tables, choosing the preset files to import, building the command line,
 * and turning a finished process into an outcome. Processes themselves are not modelled:
 * a run is given as its exit code and captured output.
 */
module HandBrakeCli {
  import opened Common
  import opened Text
  import opened HandBrakeOptions

  // ---------------------------------------------------------------------------------------
  // The preset table: a `Dictionary<string, List<string>>` in enumeration order.

  /** One dictionary entry: a category and its preset names. */
  datatype Category = Category(name: string, presets: seq<string>)

  /** The keys, in enumeration order. */
  function Names(t: seq<Category>): (r: seq<string>)
    ensures |r| == |t|
    ensures forall i :: 0 <= i < |t| ==> r[i] == t[i].name
  {
    if t == [] then [] else [t[0].name] + Names(t[1..])
  }

  /** `TryGetValue`. */
  function Lookup(t: seq<Category>, key: string): (r: Option<seq<string>>)
    ensures r.Some? <==> key in Names(t)
  {
    if t == [] then None else if t[0].name == key then Some(t[0].presets) else Lookup(t[1..], key)
  }

  /**
   * The indexer's setter: replaces the value of an existing key where it stands, or adds
   * a new key at the end.
   */
  function Store(t: seq<Category>, key: string, value: seq<string>): (r: seq<Category>)
    ensures Names(r) == if key in Names(t) then Names(t) else Names(t) + [key]
  {
    if t == [] then [Category(key, value)]
    else if t[0].name == key then [Category(key, value)] + t[1..]
    else
      assert Names(t) == [t[0].name] + Names(t[1..]);
      [t[0]] + Store(t[1..], key, value)
  }

  /** `t[key].Add(x)` for a key that is present. */
  function AddTo(t: seq<Category>, key: string, x: string): (r: seq<Category>)
    requires key in Names(t)
    ensures Names(r) == Names(t)
  {
    if t[0].name == key then [Category(key, t[0].presets + [x])] + t[1..]
    else
      assert Names(t) == [t[0].name] + Names(t[1..]);
      [t[0]] + AddTo(t[1..], key, x)
  }

  /** A stored value is read back, and no other key's value changes. */
  lemma {:induction false} LookupStore(t: seq<Category>, key: string, value: seq<string>, k: string)
    ensures Lookup(Store(t, key, value), k) == if k == key then Some(value) else Lookup(t, k)
  {
    if t != [] && t[0].name != key {
      LookupStore(t[1..], key, value, k);
    }
  }

  /** Adding to a key's list appends to that list and to no other. */
  lemma {:induction false} LookupAddTo(t: seq<Category>, key: string, x: string, k: string)
    requires key in Names(t)
    ensures Lookup(AddTo(t, key, x), k) == if k == key then Some(Lookup(t, key).value + [x]) else Lookup(t, k)
  {
    if t[0].name != key {
      assert Names(t) == [t[0].name] + Names(t[1..]);
      LookupAddTo(t[1..], key, x, k);
    }
  }

  /** Keys stay distinct under `Store`. */
  lemma {:induction false} StoreNoDup(t: seq<Category>, key: string, value: seq<string>)
    requires NoDup(Names(t))
    ensures NoDup(Names(Store(t, key, value)))
  {
    if key !in Names(t) { NoDupAppend(Names(t), key); }
  }

  // ---------------------------------------------------------------------------------------
  // ParsePresetOutput

  /** The loop's state: the table built so far and the current category (`null` at first). */
  datatype ParseState = ParseState(table: seq<Category>, current: Option<string>)

  /** A category header: the trimmed line ends with "/". */
  predicate IsHeader(line: string) {
    EndsWith(Trim(line), "/")
  }

  /** The category a header line names: the trimmed line without its trailing slashes. */
  function HeaderName(line: string): (name: string)
    ensures name == [] || name[|name| - 1] != '/'
  {
    TrimEndChar(Trim(line), '/')
  }

  /**
   * A preset line: a current category that is not empty, a trimmed text that starts with
   * neither "[" nor "HandBrake", and exactly three or four leading spaces on the raw line.
   */
  predicate IsPresetLine(line: string, current: Option<string>) {
    current.Some? && current.value != []
    && !StartsWith(Trim(line), "[") && !StartsWith(Trim(line), "HandBrake")
    && StartsWith(line, "   ") && !StartsWith(line, "     ")
  }

  /** What the loop does with one line. */
  function ParseLine(st: ParseState, line: string): ParseState
    requires st.current.Some? ==> st.current.value in Names(st.table)
  {
    if IsHeader(line) then
      ParseState(Store(st.table, HeaderName(line), []), Some(HeaderName(line)))
    else if IsPresetLine(line, st.current) then
      ParseState(AddTo(st.table, st.current.value, Trim(line)), st.current)
    else st
  }

  /** The state after the loop has seen `lines`. */
  function ParseLines(lines: seq<string>): (st: ParseState)
    ensures st.current.Some? ==> st.current.value in Names(st.table)
  {
    if lines == [] then ParseState([], None)
    else
      var prev := ParseLines(lines[..|lines| - 1]);
      var st := ParseLine(prev, lines[|lines| - 1]);
      assert IsHeader(lines[|lines| - 1]) ==> Names(st.table) == Names(Store(prev.table, HeaderName(lines[|lines| - 1]), []));
      st
  }

  /** The lines of the CLI's output: split at '\r' and '\n', empty lines dropped. */
  function OutputLines(output: string): seq<string> {
    SplitNonEmpty(output, {'\r', '\n'})
  }

  /** The table `ParsePresetOutput` returns for `output`. */
  function ParsePresets(output: string): (t: seq<Category>)
    ensures NoDup(Names(t))
  {
    ParseLinesFromLines(OutputLines(output));
    ParseLines(OutputLines(output)).table
  }

  /** `ParsePresetOutput`. */
  method ParsePresetOutput(output: string) returns (table: seq<Category>)
    ensures table == ParsePresets(output)
  {
    var lines := OutputLines(output);
    table := [];
    var current: Option<string> := None;
    for i := 0 to |lines|
      invariant ParseState(table, current) == ParseLines(lines[..i])
    {
      assert lines[..i + 1][..i] == lines[..i];
      ghost var next := ParseLine(ParseState(table, current), lines[i]);
      assert ParseLines(lines[..i + 1]) == next;
      var line := lines[i];
      var trimmed := Trim(line);
      if EndsWith(trimmed, "/") {
        current := Some(TrimEndChar(trimmed, '/'));
        table := Store(table, current.value, []);
      } else if IsPresetLine(line, current) {
        table := AddTo(table, current.value, trimmed);
      }
      assert ParseState(table, current) == next;
    }
    assert lines[..|lines|] == lines;
  }

  /** Every category is named by a header line of `lines`. */
  ghost predicate NamedByHeaders(t: seq<Category>, lines: seq<string>) {
    forall c :: c in t ==> exists j :: 0 <= j < |lines| && IsHeader(lines[j]) && HeaderName(lines[j]) == c.name
  }

  /** Every preset name is the trimmed text of a preset line read under its category. */
  ghost predicate PresetsFromLines(t: seq<Category>, lines: seq<string>) {
    forall c, p :: c in t && p in c.presets ==>
      exists j :: 0 <= j < |lines| && IsPresetLine(lines[j], Some(c.name)) && Trim(lines[j]) == p
  }

  /** One more line keeps the first property. */
  lemma {:induction false} NamedByHeadersStep(prev: ParseState, init: seq<string>, line: string)
    requires prev.current.Some? ==> prev.current.value in Names(prev.table)
    requires NamedByHeaders(prev.table, init)
    ensures NamedByHeaders(ParseLine(prev, line).table, init + [line])
  {
    var lines := init + [line];
    var t := ParseLine(prev, line).table;
    forall c | c in t
      ensures exists j :: 0 <= j < |lines| && IsHeader(lines[j]) && HeaderName(lines[j]) == c.name
    {
      if IsHeader(line) {
        StoreMembers(prev.table, HeaderName(line), [], c);
        if c == Category(HeaderName(line), []) {
          assert lines[|init|] == line;
        } else {
          var j :| 0 <= j < |init| && IsHeader(init[j]) && HeaderName(init[j]) == c.name;
          assert lines[j] == init[j];
        }
      } else if IsPresetLine(line, prev.current) {
        AddToMembers(prev.table, prev.current.value, Trim(line), c);
        var d :| d in prev.table && d.name == c.name;
        var j :| 0 <= j < |init| && IsHeader(init[j]) && HeaderName(init[j]) == d.name;
        assert lines[j] == init[j];
      } else {
        var j :| 0 <= j < |init| && IsHeader(init[j]) && HeaderName(init[j]) == c.name;
        assert lines[j] == init[j];
      }
    }
  }

  /** One more line keeps the second property. */
  lemma {:induction false} PresetsFromLinesStep(prev: ParseState, init: seq<string>, line: string)
    requires prev.current.Some? ==> prev.current.value in Names(prev.table)
    requires PresetsFromLines(prev.table, init)
    ensures PresetsFromLines(ParseLine(prev, line).table, init + [line])
  {
    var lines := init + [line];
    var t := ParseLine(prev, line).table;
    forall c, p | c in t && p in c.presets
      ensures exists j :: 0 <= j < |lines| && IsPresetLine(lines[j], Some(c.name)) && Trim(lines[j]) == p
    {
      if IsHeader(line) {
        StoreMembers(prev.table, HeaderName(line), [], c);
        var j :| 0 <= j < |init| && IsPresetLine(init[j], Some(c.name)) && Trim(init[j]) == p;
        assert lines[j] == init[j];
      } else if IsPresetLine(line, prev.current) {
        AddToMembers(prev.table, prev.current.value, Trim(line), c);
        var d :| d in prev.table && d.name == c.name
          && (d.presets == c.presets || (d.name == prev.current.value && c.presets == d.presets + [Trim(line)]));
        if p in d.presets {
          var j :| 0 <= j < |init| && IsPresetLine(init[j], Some(d.name)) && Trim(init[j]) == p;
          assert lines[j] == init[j];
        } else {
          assert lines[|init|] == line;
        }
      } else {
        var j :| 0 <= j < |init| && IsPresetLine(init[j], Some(c.name)) && Trim(init[j]) == p;
        assert lines[j] == init[j];
      }
    }
  }

  lemma {:induction false} ParseLinesFromLines(lines: seq<string>)
    ensures NoDup(Names(ParseLines(lines).table))
    ensures NamedByHeaders(ParseLines(lines).table, lines)
    ensures PresetsFromLines(ParseLines(lines).table, lines)
  {
    if lines != [] {
      var init, line := lines[..|lines| - 1], lines[|lines| - 1];
      assert lines == init + [line];
      var prev := ParseLines(init);
      ParseLinesFromLines(init);
      NamedByHeadersStep(prev, init, line);
      PresetsFromLinesStep(prev, init, line);
      if IsHeader(line) { StoreNoDup(prev.table, HeaderName(line), []); }
    }
  }

  /** The entries of `Store(t, key, value)`: the new one and old ones. */
  lemma {:induction false} StoreMembers(t: seq<Category>, key: string, value: seq<string>, c: Category)
    requires c in Store(t, key, value)
    ensures c == Category(key, value) || c in t
  {
    if t != [] && t[0].name != key && c != t[0] {
      StoreMembers(t[1..], key, value, c);
    } else if t != [] && t[0].name == key && c != Category(key, value) {
      assert c in t[1..];
    }
  }

  /** The entries of `AddTo(t, key, x)`: old entries, one of them with `x` added. */
  lemma {:induction false} AddToMembers(t: seq<Category>, key: string, x: string, c: Category)
    requires key in Names(t) && c in AddTo(t, key, x)
    ensures exists d :: d in t && d.name == c.name && (d.presets == c.presets || (d.name == key && c.presets == d.presets + [x]))
  {
    assert Names(t) == [t[0].name] + Names(t[1..]);
    if t[0].name == key {
      if c == Category(key, t[0].presets + [x]) { assert t[0] in t; } else { assert c in t[1..] && c in t; }
    } else if c == t[0] {
      assert t[0] in t;
    } else {
      AddToMembers(t[1..], key, x, c);
      var d :| d in t[1..] && d.name == c.name && (d.presets == c.presets || (d.name == key && c.presets == d.presets + [x]));
      assert d in t;
    }
  }

  /**
   * `ParsePresetOutput` returns distinct category names, none ending in "/"; every
   * category is named by a header line of the output, and every preset name is the
   * trimmed text of a preset line that was read while that category was current.
   */
  lemma {:induction false} ParsePresetsSound(output: string)
    ensures NoDup(Names(ParsePresets(output)))
    ensures forall c :: c in ParsePresets(output) ==> c.name == [] || c.name[|c.name| - 1] != '/'
    ensures forall c :: c in ParsePresets(output) ==>
      exists j :: 0 <= j < |OutputLines(output)| && IsHeader(OutputLines(output)[j]) && HeaderName(OutputLines(output)[j]) == c.name
    ensures forall c, p :: c in ParsePresets(output) && p in c.presets ==>
      exists j :: 0 <= j < |OutputLines(output)| && IsPresetLine(OutputLines(output)[j], Some(c.name)) && Trim(OutputLines(output)[j]) == p
  {
    ParseLinesFromLines(OutputLines(output));
    forall c | c in ParsePresets(output) ensures c.name == [] || c.name[|c.name| - 1] != '/' {
      var j :| 0 <= j < |OutputLines(output)| && IsHeader(OutputLines(output)[j]) && HeaderName(OutputLines(output)[j]) == c.name;
    }
  }

  /** A recorded preset is trimmed and starts with neither "[" nor "HandBrake". */
  lemma {:induction false} PresetLineText(line: string, current: Option<string>)
    requires IsPresetLine(line, current) && !IsHeader(line)
    ensures Trim(Trim(line)) == Trim(line)
    ensures !StartsWith(Trim(line), "[") && !StartsWith(Trim(line), "HandBrake") && !EndsWith(Trim(line), "/")
  {
    TrimTrimmed(Trim(line));
  }

  /** A line of three spaces under a category records the empty preset name. */
  lemma {:induction false} BlankPresetLine(st: ParseState, c: string)
    requires st.current == Some(c) && c != [] && c in Names(st.table)
    ensures ParseLine(st, "   ").table == AddTo(st.table, c, "")
  {
    assert Trim("   ") == "" by { assert IsBlank("   "); }
  }

  /** The header "/" names the empty category, under which no line is recorded. */
  lemma {:induction false} RootHeader(st: ParseState, line: string)
    requires st.current.Some? ==> st.current.value in Names(st.table)
    ensures ParseLine(st, "/").current == Some("")
    ensures !IsPresetLine(line, Some(""))
  {
    assert Trim("/") == "/" by { TrimTrimmed("/"); }
  }

  /** Lines with five leading spaces, the preset details, are never recorded. */
  lemma {:induction false} DetailLine(line: string, current: Option<string>)
    requires StartsWith(line, "     ")
    ensures !IsPresetLine(line, current)
  {
  }

  /** A header for a category seen before empties its list but keeps its position. */
  lemma {:induction false} RepeatedHeader(st: ParseState, line: string)
    requires st.current.Some? ==> st.current.value in Names(st.table)
    requires IsHeader(line) && HeaderName(line) in Names(st.table)
    ensures Names(ParseLine(st, line).table) == Names(st.table)
    ensures Lookup(ParseLine(st, line).table, HeaderName(line)) == Some([])
  {
    LookupStore(st.table, HeaderName(line), [], HeaderName(line));
  }

  // ---------------------------------------------------------------------------------------
  // Merging preset tables (the loops of GetAvailablePresetsAsync)

  /** `xs` with the elements of `ys` it lacks appended in order, each once. */
  function AddMissing(xs: seq<string>, ys: seq<string>): seq<string>
    decreases |ys|
  {
    if ys == [] then xs else AddMissing(if ys[0] in xs then xs else xs + [ys[0]], ys[1..])
  }

  /** The table after merging `presets` into the category `key`, creating it if absent. */
  function MergeCategory(t: seq<Category>, key: string, presets: seq<string>): seq<Category> {
    Store(t, key, AddMissing(Lookup(t, key).GetOr([]), presets))
  }

  /** The table after merging every category of `u`, in order, into `t`. */
  function MergeTables(t: seq<Category>, u: seq<Category>): (r: seq<Category>)
    ensures Names(t) <= Names(r)
    decreases |u|
  {
    if u == [] then t else MergeTables(MergeCategory(t, u[0].name, u[0].presets), u[1..])
  }

  /** The inner merge loop: adds to `key`'s list each preset it does not hold yet. */
  method MergeInto(table: seq<Category>, key: string, presets: seq<string>) returns (r: seq<Category>)
    ensures r == MergeCategory(table, key, presets)
  {
    ghost var start := Lookup(table, key).GetOr([]);
    r := table;
    if Lookup(r, key).None? {
      r := Store(r, key, []);
    } else {
      StoreLookup(table, key);
    }
    ghost var list := start;
    for j := 0 to |presets|
      invariant r == Store(table, key, list)
      invariant AddMissing(start, presets) == AddMissing(list, presets[j..])
    {
      assert presets[j..][1..] == presets[j + 1..];
      LookupStore(table, key, list, key);
      if presets[j] !in Lookup(r, key).value {
        StoreAddTo(table, key, list, presets[j]);
        r := AddTo(r, key, presets[j]);
        list := list + [presets[j]];
      }
    }
    assert presets[|presets|..] == [];
  }

  /** Storing a key's own value changes nothing. */
  lemma {:induction false} StoreLookup(t: seq<Category>, key: string)
    requires key in Names(t)
    ensures Store(t, key, Lookup(t, key).value) == t
  {
    if t[0].name != key {
      assert Names(t) == [t[0].name] + Names(t[1..]);
      StoreLookup(t[1..], key);
    }
  }

  /** Adding to a stored list is storing the longer list. */
  lemma {:induction false} StoreAddTo(t: seq<Category>, key: string, v: seq<string>, x: string)
    ensures AddTo(Store(t, key, v), key, x) == Store(t, key, v + [x])
  {
    if t != [] && t[0].name != key {
      StoreAddTo(t[1..], key, v, x);
    }
  }

  /** The loops at 193-207 and 247-261: every category of `incoming` merged, in order. */
  method Merge(table: seq<Category>, incoming: seq<Category>) returns (r: seq<Category>)
    ensures r == MergeTables(table, incoming)
  {
    r := table;
    for i := 0 to |incoming|
      invariant MergeTables(table, incoming) == MergeTables(r, incoming[i..])
    {
      assert incoming[i..][1..] == incoming[i + 1..];
      r := MergeInto(r, incoming[i].name, incoming[i].presets);
    }
    assert incoming[|incoming|..] == [];
  }

  /** `AddMissing` keeps `xs` as a prefix, holds exactly the elements of both, and adds no duplicate. */
  lemma {:induction false} AddMissingSpec(xs: seq<string>, ys: seq<string>, x: string)
    ensures xs <= AddMissing(xs, ys)
    ensures x in AddMissing(xs, ys) <==> x in xs || x in ys
    ensures NoDup(xs) ==> NoDup(AddMissing(xs, ys))
    decreases |ys|
  {
    if ys != [] {
      var next := if ys[0] in xs then xs else xs + [ys[0]];
      AddMissingSpec(next, ys[1..], x);
      if ys[0] !in xs && NoDup(xs) { NoDupAppend(xs, ys[0]); }
      assert ys == [ys[0]] + ys[1..];
    }
  }

  /** Nothing is added when every incoming element is already present. */
  lemma {:induction false} AddMissingPresent(xs: seq<string>, ys: seq<string>)
    requires forall y :: y in ys ==> y in xs
    ensures AddMissing(xs, ys) == xs
  {
    if ys != [] {
      assert ys[0] in ys;
      forall y | y in ys[1..] ensures y in xs { assert y in ys; }
      AddMissingPresent(xs, ys[1..]);
    }
  }

  /** Merging the same presets into a category a second time changes nothing. */
  lemma {:induction false} MergeCategoryIdempotent(t: seq<Category>, key: string, presets: seq<string>)
    ensures MergeCategory(MergeCategory(t, key, presets), key, presets) == MergeCategory(t, key, presets)
  {
    var once := MergeCategory(t, key, presets);
    var list := AddMissing(Lookup(t, key).GetOr([]), presets);
    LookupStore(t, key, list, key);
    forall y | y in presets ensures y in list { AddMissingSpec(Lookup(t, key).GetOr([]), presets, y); }
    AddMissingPresent(list, presets);
    StoreLookup(once, key);
  }

  /** Categories absent from `u` keep their lists. */
  lemma {:induction false} MergeTablesOthers(t: seq<Category>, u: seq<Category>, k: string)
    requires k !in Names(u)
    ensures Lookup(MergeTables(t, u), k) == Lookup(t, k)
    decreases |u|
  {
    if u != [] {
      assert Names(u) == [u[0].name] + Names(u[1..]);
      LookupStore(t, u[0].name, AddMissing(Lookup(t, u[0].name).GetOr([]), u[0].presets), k);
      MergeTablesOthers(MergeCategory(t, u[0].name, u[0].presets), u[1..], k);
    }
  }

  /** The old categories keep their order, and the incoming names are added after them. */
  lemma {:induction false} MergeTablesNames(t: seq<Category>, u: seq<Category>, k: string)
    ensures Names(t) <= Names(MergeTables(t, u))
    ensures k in Names(MergeTables(t, u)) <==> k in Names(t) || k in Names(u)
    decreases |u|
  {
    if u != [] {
      assert Names(u) == [u[0].name] + Names(u[1..]);
      MergeTablesNames(MergeCategory(t, u[0].name, u[0].presets), u[1..], k);
    }
  }

  /** Every list only grows at its end: the old presets keep their positions. */
  lemma {:induction false} MergeTablesPrefix(t: seq<Category>, u: seq<Category>, k: string)
    ensures Lookup(t, k).GetOr([]) <= Lookup(MergeTables(t, u), k).GetOr([])
    decreases |u|
  {
    if u != [] {
      var key := u[0].name;
      var list := AddMissing(Lookup(t, key).GetOr([]), u[0].presets);
      LookupStore(t, key, list, k);
      AddMissingSpec(Lookup(t, key).GetOr([]), u[0].presets, k);
      MergeTablesPrefix(Store(t, key, list), u[1..], k);
    }
  }

  /** A merged category holds exactly its old presets and those of every incoming category with its name. */
  lemma {:induction false} MergeTablesMembers(t: seq<Category>, u: seq<Category>, k: string, x: string)
    ensures x in Lookup(MergeTables(t, u), k).GetOr([])
        <==> x in Lookup(t, k).GetOr([]) || exists i :: 0 <= i < |u| && u[i].name == k && x in u[i].presets
    decreases |u|
  {
    if u != [] {
      var key := u[0].name;
      var next := MergeCategory(t, key, u[0].presets);
      LookupStore(t, key, AddMissing(Lookup(t, key).GetOr([]), u[0].presets), k);
      AddMissingSpec(Lookup(t, key).GetOr([]), u[0].presets, x);
      MergeTablesMembers(next, u[1..], k, x);
      if exists i :: 0 <= i < |u| && u[i].name == k && x in u[i].presets {
        var i :| 0 <= i < |u| && u[i].name == k && x in u[i].presets;
        if i > 0 { assert u[1..][i - 1] == u[i]; }
      }
      if exists i :: 0 <= i < |u[1..]| && u[1..][i].name == k && x in u[1..][i].presets {
        var i :| 0 <= i < |u[1..]| && u[1..][i].name == k && x in u[1..][i].presets;
        assert u[i + 1] == u[1..][i];
      }
    }
  }

  /** The lists of a table hold no duplicates. */
  ghost predicate ListsDistinct(t: seq<Category>) {
    forall k :: Lookup(t, k).Some? ==> NoDup(Lookup(t, k).value)
  }

  /** Merging keeps category names and every category's presets duplicate-free. */
  lemma {:induction false} MergeTablesDistinct(t: seq<Category>, u: seq<Category>)
    requires NoDup(Names(t)) && ListsDistinct(t)
    ensures NoDup(Names(MergeTables(t, u))) && ListsDistinct(MergeTables(t, u))
    decreases |u|
  {
    if u != [] {
      var key := u[0].name;
      var next := MergeCategory(t, key, u[0].presets);
      StoreNoDup(t, key, AddMissing(Lookup(t, key).GetOr([]), u[0].presets));
      forall k | Lookup(next, k).Some? ensures NoDup(Lookup(next, k).value) {
        LookupStore(t, key, AddMissing(Lookup(t, key).GetOr([]), u[0].presets), k);
        AddMissingSpec(Lookup(t, key).GetOr([]), u[0].presets, k);
      }
      MergeTablesDistinct(next, u[1..]);
    }
  }

  // ---------------------------------------------------------------------------------------
  // The preset files to import

  /** `CustomPresetFiles.Where(f => !IsNullOrWhiteSpace(f) && File.Exists(f))`. */
  function ExistingFiles(files: seq<string>, existing: set<string>): (r: seq<string>)
    ensures |r| <= |files|
  {
    if files == [] then []
    else (if !IsBlank(files[0]) && files[0] in existing then [files[0]] else []) + ExistingFiles(files[1..], existing)
  }

  /** The listed files that are usable, then the legacy single file when it is usable and not listed. */
  function ValidPresetFiles(files: seq<string>, legacy: string, existing: set<string>): seq<string> {
    var listed := ExistingFiles(files, existing);
    if !IsBlank(legacy) && legacy in existing && legacy !in listed then listed + [legacy] else listed
  }

  lemma {:induction false} ExistingFilesMembers(files: seq<string>, existing: set<string>, f: string)
    ensures f in ExistingFiles(files, existing) <==> f in files && !IsBlank(f) && f in existing
  {
    if files != [] {
      ExistingFilesMembers(files[1..], existing, f);
      assert files == [files[0]] + files[1..];
    }
  }

  lemma {:induction false} ExistingFilesNoDup(files: seq<string>, existing: set<string>)
    requires NoDup(files)
    ensures NoDup(ExistingFiles(files, existing))
  {
    if files != [] {
      ExistingFilesNoDup(files[1..], existing);
      ExistingFilesMembers(files[1..], existing, files[0]);
      var r := ExistingFiles(files, existing);
      if !IsBlank(files[0]) && files[0] in existing {
        assert r == [files[0]] + ExistingFiles(files[1..], existing);
        assert r[0] == files[0] && r[1..] == ExistingFiles(files[1..], existing);
      } else {
        assert r == ExistingFiles(files[1..], existing);
      }
    }
  }

  /**
   * A file is imported exactly when it is usable and either listed or the legacy file; the
   * usable listed files come first in their order; a duplicate-free list gives a
   * duplicate-free result.
   */
  lemma {:induction false} ValidPresetFilesSpec(files: seq<string>, legacy: string, existing: set<string>, f: string)
    ensures f in ValidPresetFiles(files, legacy, existing)
        <==> !IsBlank(f) && f in existing && (f in files || f == legacy)
    ensures ExistingFiles(files, existing) <= ValidPresetFiles(files, legacy, existing)
    ensures NoDup(files) ==> NoDup(ValidPresetFiles(files, legacy, existing))
  {
    ExistingFilesMembers(files, existing, f);
    ExistingFilesMembers(files, existing, legacy);
    if NoDup(files) {
      ExistingFilesNoDup(files, existing);
      if legacy !in ExistingFiles(files, existing) { NoDupAppend(ExistingFiles(files, existing), legacy); }
    }
  }

  // ---------------------------------------------------------------------------------------
  // BuildHandBrakeArguments and the clip suffix

  function Quoted(s: string): string {
    "\"" + s + "\""
  }

  /** The import option for one preset file. */
  function ImportFileArgument(f: string): string {
    "--preset-import-file " + Quoted(f) + " "
  }

  /** One import option per file, in order. */
  function ImportFileArguments(files: seq<string>): string {
    if files == [] then "" else ImportFileArgument(files[0]) + ImportFileArguments(files[1..])
  }

  const GuiImport := "--preset-import-gui "

  /** The import options: the files', or the GUI presets' when there is no file. */
  function ImportArguments(valid: seq<string>): string {
    if valid == [] then GuiImport else ImportFileArguments(valid)
  }

  /** The input and output options. */
  function IoArguments(input: string, output: string): string {
    " -i " + Quoted(input) + " -o " + Quoted(output)
  }

  /** The preset option, for a preset that is not blank. */
  function PresetArgument(preset: Option<string>): string {
    if IsNullOrWhiteSpace(preset) then "" else " -Z " + Quoted(preset.value)
  }

  /** Verbatim extra options, after a space, when they are not blank. */
  function ExtraArgument(extra: Option<string>): string {
    if IsNullOrWhiteSpace(extra) then "" else " " + extra.value
  }

  /** The command line for a conversion with the given settings, preset and extra options. */
  function BuildArguments(s: HandBrakeValues, files: seq<string>, existing: set<string>, input: string, output: string,
                          preset: Option<string>, options: Option<string>): string
  {
    ImportArguments(ValidPresetFiles(files, s.customPresetFile, existing)) + IoArguments(input, output)
    + PresetArgument(preset) + ExtraArgument(options) + ExtraArgument(Some(s.additionalArguments))
  }

  /** The import options of two lists are those of each, one after the other. */
  lemma {:induction false} ImportFileArgumentsAppend(a: seq<string>, b: seq<string>)
    ensures ImportFileArguments(a + b) == ImportFileArguments(a) + ImportFileArguments(b)
  {
    if a != [] {
      assert (a + b)[1..] == a[1..] + b;
      ImportFileArgumentsAppend(a[1..], b);
    } else {
      assert a + b == b;
    }
  }

  /** Each file's import option stands at its place among the others. */
  lemma {:induction false} ImportFileArgumentsAt(files: seq<string>, i: nat)
    requires i < |files|
    ensures ImportFileArguments(files)
         == ImportFileArguments(files[..i]) + ImportFileArgument(files[i]) + ImportFileArguments(files[i + 1..])
  {
    assert files == files[..i] + files[i..];
    ImportFileArgumentsAppend(files[..i], files[i..]);
    assert files[i..][1..] == files[i + 1..];
  }

  /** What follows the import options never changes whether the GUI presets are imported. */
  lemma {:induction false} ImportArgumentsGui(valid: seq<string>, rest: string)
    ensures StartsWith(ImportArguments(valid) + rest, GuiImport) <==> valid == []
    ensures valid != [] ==> StartsWith(ImportArguments(valid) + rest, ImportFileArgument(valid[0]))
  {
    if valid == [] {
      AppendParts(GuiImport, rest);
    } else {
      var head := ImportFileArgument(valid[0]);
      var tail := ImportFileArguments(valid[1..]) + rest;
      assert ImportArguments(valid) + rest == head + tail;
      AppendParts(head, tail);
      assert head[16] == 'f';
      assert GuiImport[16] == 'g';
      assert (head + tail)[16] == head[16];
    }
  }

  /**
   * The command line imports the GUI presets exactly when no preset file is usable, and
   * otherwise opens with the first usable file.
   */
  lemma {:induction false} BuildArgumentsImports(s: HandBrakeValues, files: seq<string>, existing: set<string>, input: string,
                              output: string, preset: Option<string>, options: Option<string>)
    ensures var valid := ValidPresetFiles(files, s.customPresetFile, existing);
            var r := BuildArguments(s, files, existing, input, output, preset, options);
            (StartsWith(r, GuiImport) <==> valid == [])
            && (valid != [] ==> StartsWith(r, ImportFileArgument(valid[0])))
  {
    var valid := ValidPresetFiles(files, s.customPresetFile, existing);
    var rest := IoArguments(input, output) + PresetArgument(preset) + ExtraArgument(options)
                + ExtraArgument(Some(s.additionalArguments));
    ConcatFront(ImportArguments(valid), IoArguments(input, output), PresetArgument(preset), ExtraArgument(options),
                ExtraArgument(Some(s.additionalArguments)));
    ImportArgumentsGui(valid, rest);
  }

  /** With no preset and no extra options, the command line is the imports followed by the quoted paths. */
  lemma {:induction false} BuildArgumentsPlain(s: HandBrakeValues, files: seq<string>, existing: set<string>, input: string, output: string)
    requires IsBlank(s.additionalArguments)
    ensures var r := BuildArguments(s, files, existing, input, output, None, None);
            r == ImportArguments(ValidPresetFiles(files, s.customPresetFile, existing)) + IoArguments(input, output)
            && EndsWith(r, " -o " + Quoted(output))
  {
    var head := ImportArguments(ValidPresetFiles(files, s.customPresetFile, existing)) + (" -i " + Quoted(input));
    assert ExtraArgument(Some(s.additionalArguments)) == "";
    assert ImportArguments(ValidPresetFiles(files, s.customPresetFile, existing)) + IoArguments(input, output)
        == head + (" -o " + Quoted(output));
    AppendParts(head, " -o " + Quoted(output));
  }

  /** Whatever comes last that is not blank ends the command line: settings' extras, then options, then the preset. */
  lemma {:induction false} BuildArgumentsEnding(s: HandBrakeValues, files: seq<string>, existing: set<string>, input: string,
                             output: string, preset: Option<string>, options: Option<string>)
    ensures var r := BuildArguments(s, files, existing, input, output, preset, options);
            (!IsBlank(s.additionalArguments) ==> EndsWith(r, " " + s.additionalArguments))
            && (IsBlank(s.additionalArguments) && !IsNullOrWhiteSpace(options) ==> EndsWith(r, " " + options.value))
            && (IsBlank(s.additionalArguments) && IsNullOrWhiteSpace(options) && !IsNullOrWhiteSpace(preset)
                ==> EndsWith(r, " -Z " + Quoted(preset.value)))
  {
    var a := ImportArguments(ValidPresetFiles(files, s.customPresetFile, existing)) + IoArguments(input, output);
    var b := a + PresetArgument(preset);
    var c := b + ExtraArgument(options);
    var last := ExtraArgument(Some(s.additionalArguments));
    AppendParts(c, last);
    if IsBlank(s.additionalArguments) {
      assert c + last == c;
      AppendParts(b, ExtraArgument(options));
      if IsNullOrWhiteSpace(options) {
        assert c == b;
        AppendParts(a, PresetArgument(preset));
      }
    }
  }

  /** The option that starts a clip. */
  function StartAt(start: int): string {
    " --start-at seconds:" + IntToString(start)
  }

  /** The option that bounds a clip's length. */
  function StopAt(duration: int): string {
    " --stop-at seconds:" + IntToString(duration)
  }

  /** `ConvertVideoClipAsync`'s suffix: the start, then the clip's length (both in whole seconds). */
  function ClipArguments(arguments: string, start: int, end: int): string {
    arguments + StartAt(start) + StopAt(end - start)
  }

  /** A non-negative stop value is written as its decimal digits. */
  lemma {:induction false} StopAtDigits(duration: nat)
    ensures EndsWith(StopAt(duration), NatToString(duration))
  {
    AppendParts(" --stop-at seconds:", NatToString(duration));
  }

  /**
   * For a clip that starts at or after zero and ends after it starts, the command line ends
   * with the decimal rendering of the duration (which reads back as the duration, by
   * `NatToStringRoundTrip`), not of the end time.
   */
  lemma {:induction false} ClipStopIsDuration(arguments: string, start: int, end: int)
    requires 0 <= start <= end
    ensures StartsWith(ClipArguments(arguments, start, end), arguments)
    ensures EndsWith(ClipArguments(arguments, start, end), StopAt(end - start))
    ensures EndsWith(ClipArguments(arguments, start, end), NatToString(end - start))
  {
    var stop := StopAt(end - start);
    ThreeParts(arguments, StartAt(start), stop);
    StopAtDigits(end - start);
    EndsWithTrans(ClipArguments(arguments, start, end), stop, NatToString(end - start));
  }

  // ---------------------------------------------------------------------------------------
  // GetAdditionalArgumentsFromSettings

  /** One flag the settings can contribute. */
  datatype CliFlag = Quality(q: int) | VideoEncoderFlag(encoder: string) | TwoPassFlag | TurboFlag
                   | AudioEncoderFlag(audio: string) | AudioBitrateFlag(bitrate: int)

  /** The flag's position in the emitted order. */
  function Rank(f: CliFlag): nat {
    match f
    case Quality(_) => 0
    case VideoEncoderFlag(_) => 1
    case TwoPassFlag => 2
    case TurboFlag => 3
    case AudioEncoderFlag(_) => 4
    case AudioBitrateFlag(_) => 5
  }

  function QualityFlags(s: HandBrakeValues): seq<CliFlag> {
    if s.qualityValue != 22 then [Quality(s.qualityValue)] else []
  }

  function EncoderFlags(s: HandBrakeValues): seq<CliFlag> {
    if s.videoEncoder != "" && s.videoEncoder != "x264" then [VideoEncoderFlag(s.videoEncoder)] else []
  }

  function PassFlags(s: HandBrakeValues): seq<CliFlag> {
    if s.twoPass then [TwoPassFlag] + (if s.turboFirstPass then [TurboFlag] else []) else []
  }

  function AudioEncoderFlags(s: HandBrakeValues): seq<CliFlag> {
    if s.audioEncoder != "" && s.audioEncoder != "av_aac" then [AudioEncoderFlag(s.audioEncoder)] else []
  }

  function BitrateFlags(s: HandBrakeValues): seq<CliFlag> {
    if s.audioBitrate != 160 then [AudioBitrateFlag(s.audioBitrate)] else []
  }

  /** The flags for the settings that differ from the preset-neutral defaults, in emission order. */
  function SettingFlags(s: HandBrakeValues): (r: seq<CliFlag>)
    ensures forall f :: f in r ==> Applies(s, f)
  {
    QualityFlags(s) + EncoderFlags(s) + PassFlags(s) + AudioEncoderFlags(s) + BitrateFlags(s)
  }

  /** The text one flag appends, with its leading space. */
  function FlagText(f: CliFlag): (r: string)
    ensures |r| >= 2 && r[0] == ' ' && r[1] == '-'
  {
    match f
    case Quality(q) => " -q " + IntToString(q)
    case VideoEncoderFlag(e) => " -e " + e
    case TwoPassFlag => " -2"
    case TurboFlag => " -T"
    case AudioEncoderFlag(a) => " -E " + a
    case AudioBitrateFlag(b) => " -B " + IntToString(b)
  }

  function FlagsText(fs: seq<CliFlag>): string {
    if fs == [] then "" else FlagText(fs[0]) + FlagsText(fs[1..])
  }

  /** The trimmed text of the flags. */
  function AdditionalArguments(s: HandBrakeValues): string {
    Trim(FlagsText(SettingFlags(s)))
  }

  /** Default settings contribute nothing. */
  lemma {:induction false} DefaultsNoFlags()
    ensures SettingFlags(Defaults) == [] && AdditionalArguments(Defaults) == ""
  {
  }

  /** The text is empty exactly when no flag applies, and otherwise opens with a flag's dash. */
  lemma {:induction false} AdditionalArgumentsEmpty(s: HandBrakeValues)
    ensures AdditionalArguments(s) == "" <==> SettingFlags(s) == []
    ensures SettingFlags(s) != [] ==> AdditionalArguments(s)[0] == '-'
  {
    var fs := SettingFlags(s);
    if fs != [] {
      var t := FlagText(fs[0]) + FlagsText(fs[1..]);
      assert t[0] == ' ' && t[1] == '-';
      var u := t[1..];
      HeadTail(t);
      TrimLeadingBlank([' '], u);
      TrimKeepsFirst(u);
    }
  }

  /** When a flag is called for: its setting holds that value and differs from the default. */
  predicate Applies(s: HandBrakeValues, f: CliFlag) {
    match f
    case Quality(q) => q == s.qualityValue && q != 22
    case VideoEncoderFlag(e) => e == s.videoEncoder && e != "" && e != "x264"
    case TwoPassFlag => s.twoPass
    case TurboFlag => s.twoPass && s.turboFirstPass
    case AudioEncoderFlag(a) => a == s.audioEncoder && a != "" && a != "av_aac"
    case AudioBitrateFlag(b) => b == s.audioBitrate && b != 160
  }

  /** Exactly the flags that apply are emitted. */
  lemma {:induction false} SettingFlagsApply(s: HandBrakeValues, f: CliFlag)
    ensures f in SettingFlags(s) <==> Applies(s, f)
  {
    match f
    case Quality(_) =>
      assert f in SettingFlags(s) <==> f in QualityFlags(s);
    case VideoEncoderFlag(_) =>
      assert f in SettingFlags(s) <==> f in EncoderFlags(s);
    case TwoPassFlag =>
      assert f in SettingFlags(s) <==> f in PassFlags(s);
    case TurboFlag =>
      assert f in SettingFlags(s) <==> f in PassFlags(s);
    case AudioEncoderFlag(_) =>
      assert f in SettingFlags(s) <==> f in AudioEncoderFlags(s);
    case AudioBitrateFlag(_) =>
      assert f in SettingFlags(s) <==> f in BitrateFlags(s);
  }

  /** Ranks strictly increase along `fs`, all within `lo..hi`. */
  predicate RankedWithin(fs: seq<CliFlag>, lo: nat, hi: nat) {
    (forall i, j :: 0 <= i < j < |fs| ==> Rank(fs[i]) < Rank(fs[j]))
    && (forall i :: 0 <= i < |fs| ==> lo <= Rank(fs[i]) < hi)
  }

  lemma {:induction false} AppendRanked(a: seq<CliFlag>, b: seq<CliFlag>, lo: nat, mid: nat, hi: nat)
    requires lo <= mid <= hi && RankedWithin(a, lo, mid) && RankedWithin(b, mid, hi)
    ensures RankedWithin(a + b, lo, hi)
  {
    var c := a + b;
    forall i, j | 0 <= i < j < |c| ensures Rank(c[i]) < Rank(c[j]) {
      if j < |a| { assert c[i] == a[i] && c[j] == a[j]; }
      else if i < |a| { assert c[i] == a[i] && c[j] == b[j - |a|]; }
      else { assert c[i] == b[i - |a|] && c[j] == b[j - |a|]; }
    }
    forall i | 0 <= i < |c| ensures lo <= Rank(c[i]) < hi {
      if i < |a| { assert c[i] == a[i]; } else { assert c[i] == b[i - |a|]; }
    }
  }

  /** The flags come in the fixed order -q, -e, -2, -T, -E, -B, each at most once. */
  lemma {:induction false} SettingFlagsOrdered(s: HandBrakeValues)
    ensures forall i, j :: 0 <= i < j < |SettingFlags(s)| ==> Rank(SettingFlags(s)[i]) < Rank(SettingFlags(s)[j])
  {
    assert RankedWithin(QualityFlags(s), 0, 1);
    assert RankedWithin(EncoderFlags(s), 1, 2);
    assert RankedWithin(PassFlags(s), 2, 4);
    assert RankedWithin(AudioEncoderFlags(s), 4, 5);
    assert RankedWithin(BitrateFlags(s), 5, 6);
    AppendRanked(QualityFlags(s), EncoderFlags(s), 0, 1, 2);
    AppendRanked(QualityFlags(s) + EncoderFlags(s), PassFlags(s), 0, 2, 4);
    AppendRanked(QualityFlags(s) + EncoderFlags(s) + PassFlags(s), AudioEncoderFlags(s), 0, 4, 5);
    AppendRanked(QualityFlags(s) + EncoderFlags(s) + PassFlags(s) + AudioEncoderFlags(s), BitrateFlags(s), 0, 5, 6);
  }

  /** -T is only ever emitted right after -2. */
  lemma {:induction false} TurboFollowsTwoPass(s: HandBrakeValues, i: nat)
    requires i < |SettingFlags(s)| && SettingFlags(s)[i] == TurboFlag
    ensures i > 0 && SettingFlags(s)[i - 1] == TwoPassFlag
  {
    var head := QualityFlags(s) + EncoderFlags(s);
    var fs := SettingFlags(s);
    var tail := AudioEncoderFlags(s) + BitrateFlags(s);
    assert fs == head + PassFlags(s) + tail;
    if i < |head| {
      assert false;
    } else if i >= |head| + |PassFlags(s)| {
      assert false;
    } else {
      assert fs[i] == PassFlags(s)[i - |head|];
      assert fs[i - 1] == PassFlags(s)[0];
    }
  }

  // ---------------------------------------------------------------------------------------
  // Outcomes of a finished process

  /**
   * A launched process: either it exited, with its code and the text captured from its two
   * streams, or starting or waiting for it threw (a cancellation during the wait included).
   */
  datatype ProcessRun = Exited(exitCode: int, stdout: string, stderr: string) | Failed(message: string)

  /** What `ConversionCompleted` reports and the returned `Task` yields. */
  datatype Completion = Completion(success: bool, errorMessage: Option<string>)

  const CancelledMessage := "Conversion was cancelled"

  /** `ExecuteConversionAsync` after the process: cancellation is checked first, then the exit code. */
  function ConversionOutcome(run: ProcessRun, cancelRequested: bool): (c: Completion)
    ensures c.success <==> run.Exited? && !cancelRequested && run.exitCode == 0
    ensures c.errorMessage.None? <==> c.success
    ensures run.Exited? && cancelRequested ==> c.errorMessage == Some(CancelledMessage)
    ensures run.Exited? && !cancelRequested && run.exitCode != 0 ==> c.errorMessage == Some(run.stderr)
    ensures run.Failed? ==> c.errorMessage == Some(run.message)
  {
    match run
    case Failed(m) => Completion(false, Some(m))
    case Exited(code, _, err) =>
      if cancelRequested then Completion(false, Some(CancelledMessage))
      else if code == 0 then Completion(true, None)
      else Completion(false, Some(err))
  }

  const ExitPrefix := "HandbrakeCLI exited with code "

  /** The message of the exception the command helper throws for a non-zero exit. */
  function ExitMessage(code: int, stderr: string): (m: string)
    ensures StartsWith(m, ExitPrefix) && EndsWith(m, ErrorSuffix(stderr))
  {
    ExitPrefix + IntToString(code) + ErrorSuffix(stderr)
  }

  function ErrorSuffix(stderr: string): string {
    ".\nError: " + stderr
  }

  /** `ExecuteHandbrakeCommandAsync`: both streams' text on a zero exit, otherwise the exception's message. */
  function CommandOutcome(run: ProcessRun): (r: Result<string, string>)
    ensures r.Ok? <==> run.Exited? && run.exitCode == 0
    ensures r.Ok? ==> r.value == run.stdout + run.stderr
  {
    match run
    case Failed(m) => Err(m)
    case Exited(code, out, err) => if code == 0 then Ok(out + err) else Err(ExitMessage(code, err))
  }

  /** `IsAvailableAsync`: `--version` succeeded and its output mentions HandBrake. */
  function IsAvailable(versionRun: ProcessRun): (b: bool)
    ensures b <==> versionRun.Exited? && versionRun.exitCode == 0 && Contains(versionRun.stdout + versionRun.stderr, "HandBrake")
  {
    match CommandOutcome(versionRun)
    case Ok(out) => Contains(out, "HandBrake")
    case Err(_) => false
  }

  /** A conversion succeeds exactly when, not cancelled, the same run would satisfy the command helper. */
  lemma {:induction false} ConversionAgreesWithCommand(run: ProcessRun, cancelRequested: bool)
    ensures ConversionOutcome(run, cancelRequested).success <==> !cancelRequested && CommandOutcome(run).Ok?
  {
  }

  /** The exception's message names the exit code: the digits after the fixed prefix read back as the code. */
  lemma {:induction false} ExitMessageNamesCode(code: nat, stderr: string)
    ensures var m := ExitMessage(code, stderr);
            var p := |ExitPrefix|;
            var d := NatToString(code);
            StartsWith(m, ExitPrefix) && p + |d| <= |m| && m[p..p + |d|] == d && DigitsValue(m[p..p + |d|]) == code
            && EndsWith(m, ErrorSuffix(stderr))
  {
    var m := ExitMessage(code, stderr);
    var d := NatToString(code);
    assert m == ExitPrefix + (d + ErrorSuffix(stderr));
    assert m[|ExitPrefix|..] == d + ErrorSuffix(stderr);
    NatToStringRoundTrip(code);
  }

  /** `GetSupportedFormats`. */
  function SupportedFormats(): (r: seq<string>)
    ensures NoDup(r) && Defaults.outputFormat in r
  {
    ["mp4", "mkv", "webm"]
  }
}

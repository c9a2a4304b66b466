/**
 * The `System.IO.Path` operations the application uses, on a file system with one
 * directory separator, `\`, and no drive or UNC roots.
 */
module Paths {
  import opened Text

  const Separator: char := '\\'

  /** `LastIndexOf(c)`: the last position of `c`, or -1. */
  function LastIndexOf(s: string, c: char): (k: int)
    ensures -1 <= k < |s|
    ensures k >= 0 ==> s[k] == c
    ensures forall i :: k < i < |s| ==> s[i] != c
  {
    if s == [] then -1 else if s[|s| - 1] == c then |s| - 1 else LastIndexOf(s[..|s| - 1], c)
  }

  lemma {:induction false} LastIndexOfAppend(a: string, c: char, b: string)
    requires Lacks(b, c)
    ensures LastIndexOf(a + [c] + b, c) == |a|
  {
    var s := a + [c] + b;
    if b != [] {
      assert s[|s| - 1] == b[|b| - 1];
      assert s[..|s| - 1] == a + [c] + b[..|b| - 1];
      LastIndexOfAppend(a, c, b[..|b| - 1]);
    }
  }

  lemma {:induction false} LastIndexOfLacking(s: string, c: char)
    requires Lacks(s, c)
    ensures LastIndexOf(s, c) == -1
  {
  }

  /**
   * `GetDirectoryName`: the text before the last separator, with the separators that
   * precede it trimmed as well, but never below the root: a rooted path keeps its leading
   * separator. "" when there is no separator.
   */
  function DirectoryName(p: string): (d: string)
    ensures |d| <= |p| && d == p[..|d|]
    ensures d == [] || d == [Separator] || d[|d| - 1] != Separator
    ensures IsRooted(p) && |p| > 1 ==> d != []
  {
    var k := LastIndexOf(p, Separator);
    if k < 0 then ""
    else
      var t := TrimEndChar(p[..k], Separator);
      if t == [] && IsRooted(p) && |p| > 1 then [Separator] else t
  }

  /** A name directly under the root has the root as its directory. */
  lemma {:induction false} DirectoryNameOfRooted(name: string)
    requires name != [] && Lacks(name, Separator)
    ensures DirectoryName([Separator] + name) == [Separator]
  {
    LastIndexOfAppend([], Separator, name);
  }

  /** `GetFileName`: the text after the last separator. */
  function FileName(p: string): (n: string)
    ensures Lacks(n, Separator)
    ensures EndsWith(p, n)
  {
    var k := LastIndexOf(p, Separator);
    assert |p[k + 1..]| == |p| - (k + 1);
    p[k + 1..]
  }

  /** `GetFileNameWithoutExtension`: the file name up to its last '.'. */
  function FileNameWithoutExtension(p: string): (stem: string)
    ensures Lacks(stem, Separator)
    ensures StartsWith(FileName(p), stem)
  {
    var n := FileName(p);
    var k := LastIndexOf(n, '.');
    if k < 0 then n else n[..k]
  }

  /** `GetExtension`: the file name from its last '.', or "" when there is none or it is the last character. */
  function Extension(p: string): (e: string)
    ensures e == [] || (|e| > 1 && e[0] == '.' && Lacks(e[1..], '.'))
    ensures EndsWith(FileName(p), e)
  {
    var n := FileName(p);
    var k := LastIndexOf(n, '.');
    if k < 0 || k == |n| - 1 then "" else n[k..]
  }

  /** A root in this model: a path starting with the separator. */
  predicate IsRooted(p: string) {
    p != [] && p[0] == Separator
  }

  /** `Combine(dir, name)`. */
  function Combine(dir: string, name: string): (r: string)
    ensures name != [] && !IsRooted(name) ==> EndsWith(r, name)
  {
    if name == [] then dir
    else if dir == [] || IsRooted(name) then name
    else if dir[|dir| - 1] == Separator then dir + name
    else dir + [Separator] + name
  }

  /** A file name combined onto a directory is the file name of the result. */
  lemma {:induction false} FileNameOfCombine(dir: string, name: string)
    requires name != [] && Lacks(name, Separator)
    ensures FileName(Combine(dir, name)) == name
  {
    var r := Combine(dir, name);
    if dir != [] && dir[|dir| - 1] == Separator {
      assert r == dir[..|dir| - 1] + [Separator] + name;
      LastIndexOfAppend(dir[..|dir| - 1], Separator, name);
    } else if dir != [] {
      LastIndexOfAppend(dir, Separator, name);
    }
  }

  /** A directory `DirectoryName` can return, the root included, is recovered from the combined path. */
  lemma {:induction false} DirectoryNameOfCombine(dir: string, name: string)
    requires name != [] && Lacks(name, Separator)
    requires dir == [] || dir == [Separator] || dir[|dir| - 1] != Separator
    ensures DirectoryName(Combine(dir, name)) == dir
  {
    if dir == [Separator] {
      assert Combine(dir, name) == [Separator] + name;
      DirectoryNameOfRooted(name);
    } else if dir != [] {
      LastIndexOfAppend(dir, Separator, name);
      assert (dir + [Separator] + name)[..|dir|] == dir;
    }
  }

  /** The stem and the extension of `stem + "." + ext`, for an extension without dots. */
  lemma {:induction false} StemAndExtension(stem: string, ext: string)
    requires Lacks(stem, Separator) && Lacks(ext, Separator) && Lacks(ext, '.') && ext != []
    ensures FileNameWithoutExtension(stem + "." + ext) == stem
    ensures Extension(stem + "." + ext) == "." + ext
  {
    var n := stem + "." + ext;
    LacksAppend(stem, ".", Separator);
    LacksAppend(stem + ".", ext, Separator);
    LastIndexOfLacking(n, Separator);
    assert FileName(n) == n;
    assert n == stem + ['.'] + ext;
    LastIndexOfAppend(stem, '.', ext);
    assert n[..|stem|] == stem;
    assert n[|stem|..] == "." + ext;
  }

  /** A file name is its own file name. */
  lemma {:induction false} FileNameOfName(n: string)
    requires Lacks(n, Separator)
    ensures FileName(n) == n
  {
    LastIndexOfLacking(n, Separator);
  }

  /** Stem and extension depend on the file name alone. */
  lemma {:induction false} PartsOfFileName(p: string)
    ensures FileNameWithoutExtension(FileName(p)) == FileNameWithoutExtension(p)
    ensures Extension(FileName(p)) == Extension(p)
  {
    FileNameOfName(FileName(p));
  }

  /** The parts of a path built from a directory, a stem and a dot-free extension. */
  lemma {:induction false} CombineParts(d: string, stem: string, ext: string)
    requires d == [] || d == [Separator] || d[|d| - 1] != Separator
    requires Lacks(stem, Separator) && Lacks(ext, Separator) && Lacks(ext, '.') && ext != []
    ensures DirectoryName(Combine(d, stem + "." + ext)) == d
    ensures FileNameWithoutExtension(Combine(d, stem + "." + ext)) == stem
    ensures Extension(Combine(d, stem + "." + ext)) == "." + ext
  {
    var n := stem + "." + ext;
    LacksAppend(stem, ".", Separator);
    LacksAppend(stem + ".", ext, Separator);
    var r := Combine(d, n);
    FileNameOfCombine(d, n);
    DirectoryNameOfCombine(d, n);
    StemAndExtension(stem, ext);
    PartsOfFileName(r);
  }

  /** The stem followed by the extension is the whole file name, unless the name ends with '.'. */
  lemma {:induction false} StemThenExtension(p: string)
    requires !EndsWith(FileName(p), ".")
    ensures FileNameWithoutExtension(p) + Extension(p) == FileName(p)
  {
    var n := FileName(p);
    var k := LastIndexOf(n, '.');
    if k >= 0 {
      assert n[|n| - 1..] == [n[|n| - 1]];
      assert n[..k] + n[k..] == n;
    }
  }
}

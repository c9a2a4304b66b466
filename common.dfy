/** Small value types and sequence helpers shared by every module of the model. */
module Common {

  /** A nullable reference of the source: `None` stands for `null`. */
  datatype Option<+T> = None | Some(value: T) {
    function GetOr(default: T): T {
      match this
      case Some(v) => v
      case None => default
    }
  }

  /** The outcome of an operation that throws in the source: `Err` carries the exception's message. */
  datatype Result<+T, +E> = Ok(value: T) | Err(error: E)

  /** No element occurs twice. */
  predicate NoDup<T(==)>(s: seq<T>) {
    s == [] || (s[0] !in s[1..] && NoDup(s[1..]))
  }

  /** A non-empty sequence is its head followed by its tail. */
  lemma {:induction false} HeadTail<T>(s: seq<T>)
    requires s != []
    ensures [s[0]] + s[1..] == s
  {
  }

  /** The tail of a concatenation with a non-empty front. */
  lemma {:induction false} TailOfAppend<T>(a: seq<T>, b: seq<T>)
    requires a != []
    ensures (a + b)[1..] == a[1..] + b
  {
  }

  /** Dropping from the tail is dropping one more from the whole. */
  lemma DropOfTail<T>(s: seq<T>, j: nat)
    requires 1 <= j <= |s|
    ensures s[1..][j - 1..] == s[j..]
  {
  }

  /** Five pieces put together: the first, then the other four. */
  lemma ConcatFront<T>(a: seq<T>, b: seq<T>, c: seq<T>, d: seq<T>, e: seq<T>)
    ensures a + b + c + d + e == a + (b + c + d + e)
  {
  }

  /** Distinct positions hold distinct elements. */
  lemma {:induction false} NoDupDistinct<T>(s: seq<T>)
    requires NoDup(s)
    ensures forall i, j :: 0 <= i < j < |s| ==> s[i] != s[j]
  {
    if s != [] {
      NoDupDistinct(s[1..]);
      forall i, j | 0 <= i < j < |s| ensures s[i] != s[j] {
        if i == 0 { assert s[j] == s[1..][j - 1]; } else { assert s[i] == s[1..][i - 1] && s[j] == s[1..][j - 1]; }
      }
    }
  }

  /** Elements that differ at distinct positions make no duplicate. */
  lemma {:induction false} DistinctNoDup<T>(s: seq<T>)
    requires forall i, j :: 0 <= i < j < |s| ==> s[i] != s[j]
    ensures NoDup(s)
  {
    if s != [] {
      DistinctNoDup(s[1..]);
      forall j | 0 <= j < |s[1..]| ensures s[1..][j] != s[0] {
        assert s[1..][j] == s[j + 1];
      }
    }
  }

  /** Having no duplicate is occurring at most once. */
  lemma {:induction false} NoDupMultiset<T>(s: seq<T>)
    ensures NoDup(s) <==> forall x :: multiset(s)[x] <= 1
  {
    if s != [] {
      NoDupMultiset(s[1..]);
      assert s == [s[0]] + s[1..];
      assert multiset(s) == multiset{s[0]} + multiset(s[1..]);
      if NoDup(s) {
        forall x ensures multiset(s)[x] <= 1 {
          if x == s[0] { assert multiset(s[1..])[x] == 0; }
        }
      } else if s[0] in s[1..] {
        assert multiset(s)[s[0]] >= 2;
      } else {
        var x :| multiset(s[1..])[x] > 1;
        assert multiset(s)[x] > 1;
      }
    }
  }

  /** Appending a new element keeps the elements distinct. */
  lemma {:induction false} NoDupAppend<T>(s: seq<T>, x: T)
    requires NoDup(s) && x !in s
    ensures NoDup(s + [x])
  {
    if s != [] {
      assert (s + [x])[1..] == s[1..] + [x];
      NoDupAppend(s[1..], x);
    }
  }

  /** The elements of `s`, as a set. */
  ghost function Elements<T>(s: seq<T>): (r: set<T>)
    ensures forall i :: 0 <= i < |s| ==> s[i] in r
  {
    if s == [] then {} else Elements(s[..|s| - 1]) + {s[|s| - 1]}
  }

  lemma {:induction false} ElementsExactly<T>(s: seq<T>, x: T)
    ensures x in Elements(s) <==> x in s
  {
    if s != [] {
      ElementsExactly(s[..|s| - 1], x);
      assert s == s[..|s| - 1] + [s[|s| - 1]];
    }
  }

  /** `List.Remove`: drops the first occurrence of `x`, if any. */
  function RemoveFirst<T(==)>(s: seq<T>, x: T): (r: seq<T>)
    ensures x !in s ==> r == s
    ensures |r| == if x in s then |s| - 1 else |s|
  {
    if s == [] then s
    else if s[0] == x then s[1..]
    else
      assert s == [s[0]] + s[1..];
      [s[0]] + RemoveFirst(s[1..], x)
  }

  lemma {:induction false} RemoveFirstCons<T>(h: T, t: seq<T>, x: T)
    ensures RemoveFirst([h] + t, x) == if h == x then t else [h] + RemoveFirst(t, x)
  {
    assert ([h] + t)[0] == h && ([h] + t)[1..] == t;
  }

  /** Removal keeps every element other than `x`, keeps `x` only if it occurred twice, and adds nothing. */
  lemma {:induction false} RemoveFirstMembers<T>(s: seq<T>, x: T, y: T)
    ensures y in RemoveFirst(s, x) ==> y in s
    ensures y in s && y != x ==> y in RemoveFirst(s, x)
    ensures NoDup(s) ==> x !in RemoveFirst(s, x)
  {
    if s != [] {
      RemoveFirstMembers(s[1..], x, y);
      RemoveFirstCons(s[0], s[1..], x);
      assert s == [s[0]] + s[1..];
    }
  }

  /** `List.Remove` drops exactly the first occurrence of `x` and keeps the order of the rest. */
  lemma {:induction false} RemoveFirstAt<T>(s: seq<T>, x: T, i: nat)
    requires i < |s| && s[i] == x && x !in s[..i]
    ensures RemoveFirst(s, x) == s[..i] + s[i + 1..]
  {
    if i > 0 {
      assert s[0] != x by { assert s[0] == s[..i][0]; }
      assert s[1..][..i - 1] == s[1..i];
      assert x !in s[1..][..i - 1];
      RemoveFirstAt(s[1..], x, i - 1);
      assert s[..i] == [s[0]] + s[1..i];
      assert s[1..][i..] == s[i + 1..];
    }
  }

  lemma {:induction false} RemoveFirstNoDup<T>(s: seq<T>, x: T)
    requires NoDup(s)
    ensures NoDup(RemoveFirst(s, x))
  {
    if s != [] {
      RemoveFirstNoDup(s[1..], x);
      RemoveFirstCons(s[0], s[1..], x);
      assert s == [s[0]] + s[1..];
      if s[0] != x {
        RemoveFirstMembers(s[1..], x, s[0]);
        var r := [s[0]] + RemoveFirst(s[1..], x);
        assert r[0] == s[0] && r[1..] == RemoveFirst(s[1..], x);
      }
    }
  }

  /** The elements of `s` that are not in `drop`, in order. */
  function Without<T(==)>(s: seq<T>, drop: set<T>): (r: seq<T>)
    ensures |r| <= |s|
  {
    if s == [] then [] else (if s[0] in drop then [] else [s[0]]) + Without(s[1..], drop)
  }

  lemma {:induction false} WithoutCons<T>(h: T, t: seq<T>, drop: set<T>)
    ensures Without([h] + t, drop) == (if h in drop then [] else [h]) + Without(t, drop)
  {
    assert ([h] + t)[0] == h && ([h] + t)[1..] == t;
  }

  /** `Without` keeps exactly the elements outside `drop`. */
  lemma {:induction false} WithoutMembers<T>(s: seq<T>, drop: set<T>, x: T)
    ensures x in Without(s, drop) <==> x in s && x !in drop
  {
    if s != [] {
      WithoutMembers(s[1..], drop, x);
      assert s == [s[0]] + s[1..];
    }
  }

  lemma {:induction false} WithoutNoDup<T>(s: seq<T>, drop: set<T>)
    requires NoDup(s)
    ensures NoDup(Without(s, drop))
  {
    if s != [] {
      WithoutNoDup(s[1..], drop);
      if s[0] !in drop {
        WithoutMembers(s[1..], drop, s[0]);
        var w := [s[0]] + Without(s[1..], drop);
        assert Without(s, drop) == w;
        assert w[0] == s[0] && w[1..] == Without(s[1..], drop);
      } else {
        assert Without(s, drop) == Without(s[1..], drop);
      }
    }
  }

  lemma {:induction false} WithoutEmpty<T>(s: seq<T>)
    ensures Without(s, {}) == s
  {
    if s != [] { WithoutEmpty(s[1..]); }
  }

  /** Removing the single occurrence of `x` from `Without(s, drop)` is `Without(s, drop + {x})`. */
  lemma {:induction false} WithoutStep<T>(s: seq<T>, drop: set<T>, x: T)
    requires NoDup(s)
    ensures RemoveFirst(Without(s, drop), x) == Without(s, drop + {x})
  {
    if s != [] {
      var h, t := s[0], s[1..];
      assert s == [h] + t;
      WithoutStep(t, drop, x);
      WithoutCons(h, t, drop);
      WithoutCons(h, t, drop + {x});
      if h !in drop {
        RemoveFirstCons(h, Without(t, drop), x);
        if h == x {
          WithoutMembers(t, drop, x);
          assert x !in Without(t, drop);
          assert RemoveFirst(Without(s, drop), x) == Without(t, drop);
          assert Without(s, drop + {x}) == Without(t, drop + {x});
          assert RemoveFirst(Without(t, drop), x) == Without(t, drop);
        } else {
          assert RemoveFirst(Without(s, drop), x) == [h] + RemoveFirst(Without(t, drop), x);
          assert Without(s, drop + {x}) == [h] + Without(t, drop + {x});
        }
      } else {
        assert h in drop + {x};
        assert Without(s, drop) == Without(t, drop);
        assert Without(s, drop + {x}) == Without(t, drop + {x});
      }
    }
  }

  /** LINQ `Distinct`: the first occurrence of each element, in order, skipping those in `seen`. */
  function DistinctFrom<T(==)>(xs: seq<T>, seen: set<T>): (r: seq<T>)
    ensures |r| <= |xs|
  {
    if xs == [] then []
    else if xs[0] in seen then DistinctFrom(xs[1..], seen)
    else [xs[0]] + DistinctFrom(xs[1..], seen + {xs[0]})
  }

  function Distinct<T(==)>(xs: seq<T>): (r: seq<T>)
    ensures NoDup(r) && |r| <= |xs|
  {
    DistinctFromSpec(xs, {});
    DistinctFrom(xs, {})
  }

  /** `DistinctFrom` keeps exactly the elements not yet seen, once each. */
  lemma {:induction false} DistinctFromSpec<T>(xs: seq<T>, seen: set<T>)
    ensures forall x :: x in DistinctFrom(xs, seen) <==> x in xs && x !in seen
    ensures NoDup(DistinctFrom(xs, seen))
  {
    if xs != [] {
      var h, t := xs[0], xs[1..];
      assert xs == [h] + t;
      if h in seen {
        DistinctFromSpec(t, seen);
      } else {
        DistinctFromSpec(t, seen + {h});
        var r := [h] + DistinctFrom(t, seen + {h});
        assert r[0] == h && r[1..] == DistinctFrom(t, seen + {h});
      }
    }
  }

  /** `Distinct` keeps each element of `xs` once and adds none. */
  lemma {:induction false} DistinctSpec<T>(xs: seq<T>)
    ensures forall x :: x in Distinct(xs) <==> x in xs
    ensures NoDup(Distinct(xs))
  {
    DistinctFromSpec(xs, {});
  }

  /**
   * The reference reading of `Distinct`: scanning left to right, keep `xs[k]` exactly when it
   * does not occur in `xs[..k]`.
   */
  function FirstOccurrences<T(==)>(xs: seq<T>): (r: seq<T>)
    ensures |r| <= |xs|
  {
    if xs == [] then []
    else
      var init := xs[..|xs| - 1];
      FirstOccurrences(init) + (if xs[|xs| - 1] in init then [] else [xs[|xs| - 1]])
  }

  /** One more element at the end is kept exactly when it was neither seen nor met before. */
  lemma {:induction false} DistinctFromSnoc<T>(a: seq<T>, x: T, seen: set<T>)
    ensures DistinctFrom(a + [x], seen) == DistinctFrom(a, seen) + (if x in seen || x in a then [] else [x])
  {
    if a == [] {
      assert [] + [x] == [x];
      assert [x][1..] == [];
    } else {
      var h, t := a[0], a[1..];
      assert (a + [x])[0] == h && (a + [x])[1..] == t + [x];
      assert a == [h] + t;
      if h in seen {
        DistinctFromSnoc(t, x, seen);
      } else {
        DistinctFromSnoc(t, x, seen + {h});
      }
    }
  }

  /** `Distinct` keeps the first occurrence of each element, in the order of the input. */
  lemma {:induction false} DistinctFirstOccurrences<T>(xs: seq<T>)
    ensures Distinct(xs) == FirstOccurrences(xs)
  {
    if xs != [] {
      var init := xs[..|xs| - 1];
      assert xs == init + [xs[|xs| - 1]];
      DistinctFirstOccurrences(init);
      DistinctFromSnoc(init, xs[|xs| - 1], {});
    }
  }

  /** For example, a later duplicate goes and the first one keeps its place. */
  lemma DistinctKeepsFirst()
    ensures Distinct([2, 1, 2]) == [2, 1]
  {
    DistinctFirstOccurrences([2, 1, 2]);
    assert [2, 1, 2][..2] == [2, 1];
    assert [2, 1][..1] == [2];
    assert [2][..0] == [];
  }

  /** On distinct elements not yet seen, `DistinctFrom` changes nothing. */
  lemma {:induction false} DistinctFromKeeps<T>(xs: seq<T>, seen: set<T>)
    requires NoDup(xs) && forall x :: x in xs ==> x !in seen
    ensures DistinctFrom(xs, seen) == xs
  {
    if xs != [] {
      assert xs == [xs[0]] + xs[1..];
      DistinctFromKeeps(xs[1..], seen + {xs[0]});
    }
  }
}

/**
 * Ordering helpers shared by the core: minimum and maximum of a finite set, the
 * ascending sequence of a set of integers (the order `Object.keys` gives integer
 * keys), first-occurrence de-duplication (`Array.from(new Set(xs))`), string order
 * (`Array.prototype.sort()` with no comparator, and SQLite's BINARY collation) and a
 * stable insertion sort under any total preorder (`Array.prototype.sort(cmp)`).
 */
module Sorting {

  /** A set that is not empty has a member (the solver needs the witness spelled out). */
  lemma {:induction false} NonEmptyHasMember(s: set<int>)
    requires s != {}
    ensures exists x :: x in s
  {
    if forall x :: x !in s {
      assert false;
    }
  }

  lemma {:induction false} MinExists(s: set<int>)
    requires s != {}
    ensures exists m :: m in s && forall x :: x in s ==> m <= x
    decreases |s|
  {
    NonEmptyHasMember(s);
    var y :| y in s;
    if s != {y} {
      var rest := s - {y};
      MinExists(rest);
      var m :| m in rest && forall x :: x in rest ==> m <= x;
      assert forall x :: x in s ==> x == y || x in rest;
      if y < m {
        assert forall x :: x in s ==> y <= x;
      } else {
        assert forall x :: x in s ==> m <= x;
      }
    } else {
      assert forall x :: x in s ==> y <= x;
    }
  }

  lemma {:induction false} MaxExists(s: set<int>)
    requires s != {}
    ensures exists m :: m in s && forall x :: x in s ==> x <= m
    decreases |s|
  {
    NonEmptyHasMember(s);
    var y :| y in s;
    if s != {y} {
      var rest := s - {y};
      MaxExists(rest);
      var m :| m in rest && forall x :: x in rest ==> x <= m;
      assert forall x :: x in s ==> x == y || x in rest;
      if y > m {
        assert forall x :: x in s ==> x <= y;
      } else {
        assert forall x :: x in s ==> x <= m;
      }
    } else {
      assert forall x :: x in s ==> x <= y;
    }
  }

  /** SQL `MIN` and JavaScript `Math.min` over a non-empty set of integers. */
  function SetMin(s: set<int>): (m: int)
    requires s != {}
    ensures m in s && forall x :: x in s ==> m <= x
  {
    MinExists(s);
    var m :| m in s && forall x :: x in s ==> m <= x; m
  }

  function SetMax(s: set<int>): (m: int)
    requires s != {}
    ensures m in s && forall x :: x in s ==> x <= m
  {
    MaxExists(s);
    var m :| m in s && forall x :: x in s ==> x <= m; m
  }

  predicate StrictlyIncreasing(s: seq<int>)
  {
    forall i, j :: 0 <= i < j < |s| ==> s[i] < s[j]
  }

  /** The members of `s` in ascending order. */
  function SortedInts(s: set<int>): (r: seq<int>)
    ensures StrictlyIncreasing(r)
    ensures |r| == |s|
    ensures forall x :: x in r <==> x in s
    decreases |s|
  {
    if s == {} then []
    else
      var m := SetMin(s);
      var rest := SortedInts(s - {m});
      assert forall x :: x in rest ==> m < x;
      [m] + rest
  }

  /** Every position of `SortedInts(s)` holds a member of `s`, for all positions at once. */
  lemma SortedIntsMembers(s: set<int>)
    ensures forall j :: 0 <= j < |SortedInts(s)| ==> SortedInts(s)[j] in s
  {
    forall j | 0 <= j < |SortedInts(s)| ensures SortedInts(s)[j] in s {
      SortedIntsAt(s, j);
    }
  }

  /** Every position of `SortedInts(s)` holds a member of `s`. */
  lemma SortedIntsAt(s: set<int>, j: nat)
    requires j < |SortedInts(s)|
    ensures SortedInts(s)[j] in s
  {
    assert SortedInts(s)[j] in SortedInts(s);
  }

  /** Where a member of `s` sits in `SortedInts(s)`. */
  function SortedIndex(s: set<int>, x: int): (i: nat)
    requires x in s
    ensures i < |SortedInts(s)| && SortedInts(s)[i] == x
  {
    IndexOf(SortedInts(s), x)
  }

  /** `Array.from(new Set(xs))`: each value once, at its first occurrence. */
  function Dedupe<T(==)>(xs: seq<T>): (r: seq<T>)
    ensures forall i :: 0 <= i < |xs| ==> xs[i] in r
    ensures forall i :: 0 <= i < |r| ==> r[i] in xs
    ensures forall i, j :: 0 <= i < j < |r| ==> r[i] != r[j]
    ensures |r| <= |xs|
  {
    if xs == [] then []
    else
      var prefix := Dedupe(xs[..|xs| - 1]);
      var last := xs[|xs| - 1];
      assert forall i :: 0 <= i < |xs| - 1 ==> xs[i] == xs[..|xs| - 1][i];
      if last in prefix then prefix else prefix + [last]
  }

  /** Code-point order on strings, shorter prefix first. */
  predicate StrLess(a: string, b: string)
  {
    if a == [] then b != []
    else if b == [] then false
    else if a[0] != b[0] then a[0] < b[0]
    else StrLess(a[1..], b[1..])
  }

  predicate StrLe(a: string, b: string)
  {
    a == b || StrLess(a, b)
  }

  lemma {:induction false} StrLessIrreflexive(a: string)
    ensures !StrLess(a, a)
  {
    if a != [] {
      StrLessIrreflexive(a[1..]);
    }
  }

  lemma {:induction false} StrLessTransitive(a: string, b: string, c: string)
    requires StrLess(a, b) && StrLess(b, c)
    ensures StrLess(a, c)
  {
    if a != [] && b != [] && c != [] && a[0] == b[0] && b[0] == c[0] {
      StrLessTransitive(a[1..], b[1..], c[1..]);
    }
  }

  lemma {:induction false} StrLessTotal(a: string, b: string)
    requires a != b
    ensures StrLess(a, b) || StrLess(b, a)
  {
    if a != [] && b != [] && a[0] == b[0] {
      assert a == [a[0]] + a[1..] && b == [b[0]] + b[1..];
      StrLessTotal(a[1..], b[1..]);
    }
  }

  /** `StrLe` is a total preorder, so sorting by it is sorting into code-point order. */
  lemma StrLeTotalPreorder()
    ensures TotalPreorder((a: string, b: string) => StrLe(a, b))
  {
    forall a: string, b: string ensures StrLe(a, b) || StrLe(b, a) {
      if a != b { StrLessTotal(a, b); }
    }
    forall a: string, b: string, c: string | StrLe(a, b) && StrLe(b, c) ensures StrLe(a, c) {
      if a != b && b != c { StrLessTransitive(a, b, c); }
    }
  }

  ghost predicate TotalPreorder<T(!new)>(le: (T, T) -> bool)
  {
    (forall a, b :: le(a, b) || le(b, a))
    && (forall a, b, c :: le(a, b) && le(b, c) ==> le(a, c))
  }

  predicate SortedWith<T>(s: seq<T>, le: (T, T) -> bool)
  {
    forall i, j :: 0 <= i < j < |s| ==> le(s[i], s[j])
  }

  /** Places `x` after every element that does not come after it, so equal elements keep their order. */
  function InsertWith<T(!new)>(x: T, s: seq<T>, le: (T, T) -> bool): (r: seq<T>)
    ensures multiset(r) == multiset(s) + multiset{x}
    ensures |r| == |s| + 1
  {
    if s == [] then [x]
    else if !le(s[0], x) then [x] + s
    else
      assert s == [s[0]] + s[1..];
      [s[0]] + InsertWith(x, s[1..], le)
  }

  /** Inserting into a sorted sequence keeps it sorted. */
  lemma {:induction false} InsertWithSorted<T(!new)>(x: T, s: seq<T>, le: (T, T) -> bool)
    requires TotalPreorder(le) && SortedWith(s, le)
    ensures SortedWith(InsertWith(x, s, le), le)
  {
    if s != [] && le(s[0], x) {
      var tail := s[1..];
      var rest := InsertWith(x, tail, le);
      InsertWithSorted(x, tail, le);
      forall i | 0 <= i < |rest| ensures le(s[0], rest[i]) {
        assert rest[i] in multiset(rest);
        if rest[i] != x {
          assert rest[i] in multiset(tail);
          var j := IndexOf(tail, rest[i]);
          assert tail[j] == s[j + 1];
        }
      }
      assert InsertWith(x, s, le) == [s[0]] + rest;
    }
  }

  /**
   * A stable insertion sort: the result is a permutation of `s`, and when `le` is a
   * total preorder it is ordered by `le`.
   */
  function SortWith<T(!new)>(s: seq<T>, le: (T, T) -> bool): (r: seq<T>)
    ensures multiset(r) == multiset(s)
    ensures |r| == |s|
    ensures TotalPreorder(le) ==> SortedWith(r, le)
  {
    if s == [] then []
    else
      assert s == s[..|s| - 1] + [s[|s| - 1]];
      var sorted := SortWith(s[..|s| - 1], le);
      assert TotalPreorder(le) ==> SortedWith(InsertWith(s[|s| - 1], sorted, le), le) by {
        if TotalPreorder(le) { InsertWithSorted(s[|s| - 1], sorted, le); }
      }
      InsertWith(s[|s| - 1], sorted, le)
  }

  /** `x` goes last when no element of `t` comes after it. */
  lemma {:induction false} InsertWithLastAppended<T(!new)>(x: T, t: seq<T>, le: (T, T) -> bool)
    requires forall i :: 0 <= i < |t| ==> le(t[i], x)
    ensures InsertWith(x, t, le)[|t|] == x
  {
    if t != [] {
      var tail := t[1..];
      assert forall i :: 0 <= i < |tail| ==> tail[i] == t[i + 1];
      InsertWithLastAppended(x, tail, le);
      assert InsertWith(x, t, le) == [t[0]] + InsertWith(x, tail, le);
    }
  }

  /** When some element of `t` comes after `x`, the last element of `t` stays last. */
  lemma {:induction false} InsertWithLastKept<T(!new)>(x: T, t: seq<T>, le: (T, T) -> bool, k: nat)
    requires k < |t| && !le(t[k], x)
    ensures InsertWith(x, t, le)[|t|] == t[|t| - 1]
  {
    if le(t[0], x) {
      var tail := t[1..];
      assert tail[k - 1] == t[k];
      InsertWithLastKept(x, tail, le, k - 1);
      assert InsertWith(x, t, le) == [t[0]] + InsertWith(x, tail, le);
    }
  }

  /**
   * Stability at the end: when elements are ordered by an integer key, the last element
   * of the sorted sequence is the last-listed of the elements with the greatest key.
   */
  lemma SortWithLast<T(!new)>(s: seq<T>, le: (T, T) -> bool, key: T -> int)
    requires forall a, b {:trigger le(a, b)} :: le(a, b) == (key(a) <= key(b))
    requires s != []
    ensures exists m :: 0 <= m < |s| && SortWith(s, le)[|s| - 1] == s[m] &&
              (forall j :: 0 <= j < |s| ==> key(s[j]) <= key(s[m])) &&
              (forall j :: m < j < |s| ==> key(s[j]) < key(s[m]))
  {
    var m := SortWithLastIndex(s, le, key);
  }

  /** `SortWithLast`, naming the index of the last element. */
  lemma {:induction false} SortWithLastIndex<T(!new)>(s: seq<T>, le: (T, T) -> bool, key: T -> int) returns (m: nat)
    requires forall a, b {:trigger le(a, b)} :: le(a, b) == (key(a) <= key(b))
    requires s != []
    ensures m < |s| && SortWith(s, le)[|s| - 1] == s[m]
    ensures forall j :: 0 <= j < |s| ==> key(s[j]) <= key(s[m])
    ensures forall j :: m < j < |s| ==> key(s[j]) < key(s[m])
  {
    var init := s[..|s| - 1];
    var x := s[|s| - 1];
    if forall i :: 0 <= i < |init| ==> le(SortWith(init, le)[i], x) {
      SortWithLastAppended(s, init, le, key);
      m := |s| - 1;
    } else {
      var i :| 0 <= i < |init| && !le(SortWith(init, le)[i], x);
      m := SortWithLastIndex(init, le, key);
      SortWithLastKept(s, init, le, key, i, m);
    }
  }

  /** The last element of `s` ends the sorted sequence when no earlier element comes after it. */
  lemma SortWithLastAppended<T(!new)>(s: seq<T>, init: seq<T>, le: (T, T) -> bool, key: T -> int)
    requires forall a, b {:trigger le(a, b)} :: le(a, b) == (key(a) <= key(b))
    requires s != [] && init == s[..|s| - 1]
    requires forall i :: 0 <= i < |init| ==> le(SortWith(init, le)[i], s[|s| - 1])
    ensures SortWith(s, le)[|s| - 1] == s[|s| - 1]
    ensures forall j :: 0 <= j < |s| ==> key(s[j]) <= key(s[|s| - 1])
  {
    var x := s[|s| - 1];
    var sorted := SortWith(init, le);
    assert SortWith(s, le) == InsertWith(x, sorted, le);
    InsertWithLastAppended(x, sorted, le);
    AllBelowPermutation(sorted, init, x, key);
    forall j | 0 <= j < |s| ensures key(s[j]) <= key(x) {
      if j < |s| - 1 { assert s[j] == init[j]; }
    }
  }

  /** The last-listed element with the greatest key in `init` still ends the sorted sequence when some element of `init` comes after the last element of `s`. */
  lemma SortWithLastKept<T(!new)>(s: seq<T>, init: seq<T>, le: (T, T) -> bool, key: T -> int, i: nat, m: nat)
    requires forall a, b {:trigger le(a, b)} :: le(a, b) == (key(a) <= key(b))
    requires s != [] && init == s[..|s| - 1]
    requires i < |init| && !le(SortWith(init, le)[i], s[|s| - 1])
    requires m < |init| && SortWith(init, le)[|init| - 1] == init[m]
    requires forall j :: 0 <= j < |init| ==> key(init[j]) <= key(init[m])
    requires forall j :: m < j < |init| ==> key(init[j]) < key(init[m])
    ensures SortWith(s, le)[|s| - 1] == s[m]
    ensures forall j :: 0 <= j < |s| ==> key(s[j]) <= key(s[m])
    ensures forall j :: m < j < |s| ==> key(s[j]) < key(s[m])
  {
    var x := s[|s| - 1];
    var sorted := SortWith(init, le);
    assert SortWith(s, le) == InsertWith(x, sorted, le);
    InsertWithLastKept(x, sorted, le, i);
    assert sorted[i] in multiset(init);
    var p := IndexOf(init, sorted[i]);
    assert key(init[p]) <= key(init[m]);
    LastGreatestExtends(s, init, key, m);
    assert |sorted| == |init| == |s| - 1;
    assert SortWith(s, le)[|s| - 1] == InsertWith(x, sorted, le)[|sorted|] == sorted[|init| - 1];
  }

  /** The last-listed element with the greatest key in `init` stays so when `x`, with a smaller key, is appended. */
  lemma LastGreatestExtends<T>(s: seq<T>, init: seq<T>, key: T -> int, m: nat)
    requires |s| == |init| + 1 && init == s[..|init|]
    requires m < |init| && key(s[|init|]) < key(init[m])
    requires forall j :: 0 <= j < |init| ==> key(init[j]) <= key(init[m])
    requires forall j :: m < j < |init| ==> key(init[j]) < key(init[m])
    ensures s[m] == init[m]
    ensures forall j :: 0 <= j < |s| ==> key(s[j]) <= key(s[m])
    ensures forall j :: m < j < |s| ==> key(s[j]) < key(s[m])
  {
    forall j | 0 <= j < |init| ensures s[j] == init[j] {
    }
  }

  /** Every element of a permutation of `a` has a key no greater than `x`'s when every element of `a` does. */
  lemma AllBelowPermutation<T>(a: seq<T>, b: seq<T>, x: T, key: T -> int)
    requires multiset(a) == multiset(b)
    requires forall i :: 0 <= i < |a| ==> key(a[i]) <= key(x)
    ensures forall j :: 0 <= j < |b| ==> key(b[j]) <= key(x)
  {
    forall j | 0 <= j < |b| ensures key(b[j]) <= key(x) {
      assert b[j] in multiset(a);
      var k := IndexOf(a, b[j]);
    }
  }

  /** Sorting by an integer key, as `xs.sort((a, b) => key(a) - key(b))` does. */
  function SortByKey<T(!new)>(s: seq<T>, key: T -> int): (r: seq<T>)
    ensures multiset(r) == multiset(s)
    ensures |r| == |s|
    ensures forall i, j :: 0 <= i < j < |r| ==> key(r[i]) <= key(r[j])
  {
    var le := (a: T, b: T) => key(a) <= key(b);
    var r := SortWith(s, le);
    assert TotalPreorder(le);
    assert forall i, j :: 0 <= i < j < |r| ==> le(r[i], r[j]);
    r
  }

  /** `Array.prototype.sort()` with no comparator, on strings. */
  function SortStrings(s: seq<string>): (r: seq<string>)
    ensures multiset(r) == multiset(s)
    ensures forall i, j :: 0 <= i < j < |r| ==> StrLe(r[i], r[j])
  {
    var le := (a: string, b: string) => StrLe(a, b);
    StrLeTotalPreorder();
    var r := SortWith(s, le);
    assert forall i, j :: 0 <= i < j < |r| ==> le(r[i], r[j]);
    r
  }

  ghost predicate Distinct<T>(s: seq<T>)
  {
    forall i, j :: 0 <= i < j < |s| ==> s[i] != s[j]
  }

  /** In a sequence without repeats every value occurs at most once. */
  lemma {:induction false} DistinctMultiplicity<T>(s: seq<T>, x: T)
    requires Distinct(s)
    ensures multiset(s)[x] <= 1
  {
    if s != [] {
      var init := s[..|s| - 1];
      assert s == init + [s[|s| - 1]];
      assert Distinct(init);
      DistinctMultiplicity(init, x);
      if s[|s| - 1] == x {
        assert x !in init;
      }
    }
  }

  /** A value at two positions occurs at least twice. */
  lemma {:induction false} RepeatMultiplicity<T>(s: seq<T>, i: int, j: int)
    requires 0 <= i < j < |s| && s[i] == s[j]
    ensures multiset(s)[s[i]] >= 2
  {
    assert s == s[..j] + [s[j]] + s[j + 1..];
    assert s[i] in s[..j];
  }

  /** A permutation of a sequence without repeats has none. */
  lemma {:induction false} PermutationDistinct<T>(s: seq<T>, r: seq<T>)
    requires Distinct(s) && multiset(r) == multiset(s)
    ensures Distinct(r)
  {
    forall i, j | 0 <= i < j < |r| ensures r[i] != r[j] {
      if r[i] == r[j] {
        RepeatMultiplicity(r, i, j);
        DistinctMultiplicity(s, r[i]);
      }
    }
  }

  /** `s.filter(p)`: the elements satisfying `p`, in order. */
  function Filter<T>(s: seq<T>, p: T -> bool): (r: seq<T>)
    ensures |r| <= |s|
    ensures forall i :: 0 <= i < |r| ==> p(r[i])
    ensures multiset(r) <= multiset(s)
  {
    if s == [] then []
    else
      var init := s[..|s| - 1];
      assert s == init + [s[|s| - 1]];
      var rest := Filter(init, p);
      if p(s[|s| - 1]) then rest + [s[|s| - 1]] else rest
  }

  /** Filtering distributes over concatenation. */
  lemma {:induction false} FilterConcat<T>(a: seq<T>, b: seq<T>, p: T -> bool)
    ensures Filter(a + b, p) == Filter(a, p) + Filter(b, p)
    decreases |b|
  {
    if b == [] {
      assert a + b == a;
    } else {
      var init := b[..|b| - 1];
      assert b == init + [b[|b| - 1]];
      assert a + b == (a + init) + [b[|b| - 1]];
      assert (a + b)[..|a + b| - 1] == a + init;
      FilterConcat(a, init, p);
    }
  }

  /** `s.filter(p)` read from the front: the first element if it passes, then the rest filtered. */
  lemma FilterFront<T>(s: seq<T>, p: T -> bool)
    requires s != []
    ensures Filter(s, p) == (if p(s[0]) then [s[0]] + Filter(s[1..], p) else Filter(s[1..], p))
  {
    assert s == [s[0]] + s[1..];
    FilterConcat([s[0]], s[1..], p);
    assert [s[0]][..0] == [];
  }

  /** The elements of `s.filter(p)` are exactly the elements of `s` satisfying `p`. */
  lemma {:induction false} FilterMembers<T>(s: seq<T>, p: T -> bool)
    ensures forall x :: x in Filter(s, p) <==> x in s && p(x)
  {
    if s != [] {
      var init := s[..|s| - 1];
      assert s == init + [s[|s| - 1]];
      FilterMembers(init, p);
    }
  }

  /** Filtering by a predicate and by its negation splits `s` between the two results. */
  lemma {:induction false} FilterSplit<T>(s: seq<T>, p: T -> bool, q: T -> bool)
    requires forall i :: 0 <= i < |s| ==> q(s[i]) == !p(s[i])
    ensures multiset(Filter(s, p)) + multiset(Filter(s, q)) == multiset(s)
  {
    if s != [] {
      var init := s[..|s| - 1];
      assert s == init + [s[|s| - 1]];
      FilterSplit(init, p, q);
    }
  }

  /** The elements of a permutation are those of the original. */
  lemma {:induction false} PermutationMembers<T>(s: seq<T>, r: seq<T>)
    requires multiset(r) == multiset(s)
    ensures forall i :: 0 <= i < |r| ==> r[i] in s
    ensures forall i :: 0 <= i < |s| ==> s[i] in r
  {
    forall i | 0 <= i < |r| ensures r[i] in s {
      assert r[i] in multiset(r);
    }
    forall i | 0 <= i < |s| ensures s[i] in r {
      assert s[i] in multiset(s);
    }
  }

  /** A property every element of `s` has, every element of a permutation of `s` has. */
  lemma {:induction false} PermutationKeeps<T>(s: seq<T>, r: seq<T>, p: T -> bool)
    requires multiset(r) == multiset(s)
    requires forall i :: 0 <= i < |s| ==> p(s[i])
    ensures forall i :: 0 <= i < |r| ==> p(r[i])
  {
    PermutationMembers(s, r);
    forall i | 0 <= i < |r| ensures p(r[i]) {
      var j := IndexOf(s, r[i]);
    }
  }

  /** The first position of `x` in `s`. */
  function IndexOf<T(==)>(s: seq<T>, x: T): (j: nat)
    requires x in s
    ensures j < |s| && s[j] == x && x !in s[..j]
  {
    if s[0] == x then 0 else 1 + IndexOf(s[1..], x)
  }

  /** Appending one element after a concatenation. */
  lemma AppendAssoc<T>(a: seq<T>, b: seq<T>, x: T)
    ensures (a + b) + [x] == a + (b + [x])
  {
  }

  /** Concatenation is associative. */
  lemma ConcatAssoc<T>(a: seq<T>, b: seq<T>, c: seq<T>)
    ensures (a + b) + c == a + (b + c)
  {
  }

  /** The concatenation of the first `j` blocks of `bs`, in order. */
  function FlattenUpTo<T>(bs: seq<seq<T>>, j: nat): (r: seq<T>)
    requires j <= |bs|
  {
    if j == 0 then [] else FlattenUpTo(bs, j - 1) + bs[j - 1]
  }

  /** An element of the flattening of the first `j` blocks is an element of one of them. */
  lemma {:induction false} FlattenMembers<T>(bs: seq<seq<T>>, j: nat)
    requires j <= |bs|
    ensures forall x :: x in FlattenUpTo(bs, j) <==> exists i :: 0 <= i < j && x in bs[i]
  {
    if j > 0 {
      FlattenMembers(bs, j - 1);
      assert FlattenUpTo(bs, j) == FlattenUpTo(bs, j - 1) + bs[j - 1];
    }
  }

  /** An element of one of the blocks is an element of the flattening of all of them. */
  lemma FlattenHas<T>(bs: seq<seq<T>>, v: nat, x: T)
    requires v < |bs| && x in bs[v]
    ensures x in FlattenUpTo(bs, |bs|)
  {
    FlattenMembers(bs, |bs|);
  }

  /** An element of the flattening of all the blocks is in block `v`, for some `v`. */
  lemma FlattenFind<T>(bs: seq<seq<T>>, x: T) returns (v: nat)
    requires x in FlattenUpTo(bs, |bs|)
    ensures v < |bs| && x in bs[v]
  {
    FlattenMembers(bs, |bs|);
    v :| 0 <= v < |bs| && x in bs[v];
  }

  /** The flattening of fewer blocks is a prefix of the flattening of more. */
  lemma {:induction false} FlattenPrefix<T>(bs: seq<seq<T>>, j: nat, m: nat)
    requires j <= m <= |bs|
    ensures |FlattenUpTo(bs, j)| <= |FlattenUpTo(bs, m)|
    ensures FlattenUpTo(bs, m)[..|FlattenUpTo(bs, j)|] == FlattenUpTo(bs, j)
  {
    if j < m {
      var a := FlattenUpTo(bs, m - 1);
      var c := FlattenUpTo(bs, j);
      FlattenPrefix(bs, j, m - 1);
      assert (a + bs[m - 1])[..|c|] == a[..|c|];
    }
  }

  /** Block `t` (`b`) sits in the flattening `all` right after the blocks before it, from `off` on. */
  lemma FlattenBlockAt<T>(bs: seq<seq<T>>, t: nat, off: nat, b: seq<T>, all: seq<T>)
    requires t < |bs| && b == bs[t] && off == |FlattenUpTo(bs, t)| && all == FlattenUpTo(bs, |bs|)
    ensures off + |b| <= |all| && all[off..off + |b|] == b
  {
    var before := FlattenUpTo(bs, t);
    FlattenPrefix(bs, t + 1, |bs|);
    assert FlattenUpTo(bs, t + 1) == before + b;
    assert all[..off + |b|] == before + b;
    assert all[off..off + |b|] == (before + b)[off..];
  }

  /** `[...new Set(xs)].sort()` on strings. */
  function SortedDistinct(xs: seq<string>): seq<string>
  {
    SortStrings(Dedupe(xs))
  }

  /** The sorted distinct values are the values of `xs`, each once, in increasing order. */
  lemma {:induction false} SortedDistinctMeaning(xs: seq<string>)
    ensures forall x :: x in SortedDistinct(xs) <==> x in xs
    ensures Distinct(SortedDistinct(xs))
    ensures forall i, j :: 0 <= i < j < |SortedDistinct(xs)| ==> StrLess(SortedDistinct(xs)[i], SortedDistinct(xs)[j])
  {
    var d := Dedupe(xs);
    var r := SortStrings(d);
    PermutationDistinct(d, r);
    forall x ensures x in r <==> x in xs {
      assert x in r <==> x in multiset(r);
      assert x in d <==> x in multiset(d);
      if x in xs {
        var i :| 0 <= i < |xs| && xs[i] == x;
      }
      if x in d {
        var i :| 0 <= i < |d| && d[i] == x;
      }
    }
  }

  /** `set.add(x)` on a set kept in insertion order. */
  function Add<T(==)>(s: seq<T>, x: T): seq<T>
  {
    if x in s then s else s + [x]
  }

  /** The values of `xs` whose presence in `db` is `inDb`, in order: `xs.filter(x => db.includes(x))` or its negation. */
  function Present<T(==)>(xs: seq<T>, db: seq<T>, inDb: bool): seq<T>
    decreases |xs|
  {
    if xs == [] then []
    else
      var x := xs[|xs| - 1];
      if (x in db) == inDb then Present(xs[..|xs| - 1], db, inDb) + [x]
      else Present(xs[..|xs| - 1], db, inDb)
  }

  /**
   * The values found in the database and the values missing from it split `xs`: each
   * value is in exactly one of the two lists, and their lengths add up.
   */
  lemma {:induction false} PresentPartition<T>(xs: seq<T>, db: seq<T>)
    ensures forall x :: x in Present(xs, db, true) <==> x in xs && x in db
    ensures forall x :: x in Present(xs, db, false) <==> x in xs && x !in db
    ensures |Present(xs, db, true)| + |Present(xs, db, false)| == |xs|
    decreases |xs|
  {
    if xs != [] {
      var init := xs[..|xs| - 1];
      PresentPartition(init, db);
      assert xs == init + [xs[|xs| - 1]];
    }
  }
}

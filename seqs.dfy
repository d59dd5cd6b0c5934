/** Sequence operations that the widgets and the server take from their
    languages' standard libraries: substring search (`in`, `includes`),
    `filter`, `find`, and the first-occurrence order of a JavaScript `Set`. */
module Seqs {
  import opened Common

  /** p occurs in s as a contiguous block starting at index i. */
  ghost predicate OccursAt<T>(s: seq<T>, p: seq<T>, i: int) {
    0 <= i && i + |p| <= |s| && s[i..i + |p|] == p
  }

  /** s begins with p (JavaScript `startsWith`). */
  predicate StartsWith<T(==)>(s: seq<T>, p: seq<T>) {
    |p| <= |s| && s[..|p|] == p
  }

  lemma SeqAssoc<T>(a: seq<T>, b: seq<T>, c: seq<T>)
    ensures (a + b) + c == a + (b + c)
  {
  }

  /** A log that is a prefix followed by s0 and then gains `more`, where
      s1 is s0 followed by `more`, is the prefix followed by s1. */
  lemma AppendStep<T>(log: seq<T>, prefix: seq<T>, s0: seq<T>, more: seq<T>, s1: seq<T>)
    requires log == prefix + s0 && s1 == s0 + more
    ensures log + more == prefix + s1
  {
  }

  /** Python `p in s` on bytes and strings, JavaScript `s.includes(p)`:
      checked at every start position from the left. */
  predicate Contains<T(==)>(s: seq<T>, p: seq<T>)
    decreases |s|
  {
    StartsWith(s, p) || (|s| > 0 && Contains(s[1..], p))
  }

  /** A block of the tail of s is the block of s one place further on. */
  lemma TailSlice<T>(s: seq<T>, i: int, n: int)
    requires 0 < i && 0 <= n && i + n <= |s|
    ensures s[1..][i - 1..i - 1 + n] == s[i..i + n]
  {
    var a, b := s[1..][i - 1..i - 1 + n], s[i..i + n];
    assert |a| == |b|;
    forall k | 0 <= k < n ensures a[k] == b[k] {
      assert a[k] == s[1..][i - 1 + k] == s[i + k];
    }
  }

  /** Contains agrees with the declarative reading "p occurs somewhere in s". */
  lemma {:induction false} ContainsIff<T>(s: seq<T>, p: seq<T>)
    ensures Contains(s, p) <==> exists i :: OccursAt(s, p, i)
    decreases |s|
  {
    if StartsWith(s, p) {
      assert OccursAt(s, p, 0);
    } else if |s| > 0 {
      ContainsIff(s[1..], p);
      if Contains(s[1..], p) {
        var i :| OccursAt(s[1..], p, i);
        TailSlice(s, i + 1, |p|);
        assert OccursAt(s, p, i + 1);
      } else {
        forall i | OccursAt(s, p, i) ensures false {
          if i > 0 {
            TailSlice(s, i, |p|);
            assert OccursAt(s[1..], p, i - 1);
          }
        }
      }
    } else {
      forall i | OccursAt(s, p, i) ensures false {
      }
    }
  }

  /** A block found at a given position witnesses Contains. */
  lemma ContainsAt<T>(s: seq<T>, p: seq<T>, i: int)
    requires OccursAt(s, p, i)
    ensures Contains(s, p)
  {
    ContainsIff(s, p);
  }

  /** A non-empty block that occurs in s has its first element in s. */
  lemma ContainsHead<T>(s: seq<T>, p: seq<T>)
    requires |p| > 0 && Contains(s, p)
    ensures p[0] in s
  {
    ContainsIff(s, p);
    var i :| OccursAt(s, p, i);
    assert s[i..i + |p|][0] == s[i];
  }

  /** The elements of xs that satisfy keep, in their original order
      (JavaScript `filter`, a Python list comprehension with a condition). */
  function Filter<T>(xs: seq<T>, keep: T -> bool): (r: seq<T>)
    ensures |r| <= |xs|
    ensures forall k :: 0 <= k < |r| ==> r[k] in xs && keep(r[k])
    ensures forall k :: 0 <= k < |xs| && keep(xs[k]) ==> xs[k] in r
    decreases |xs|
  {
    if xs == [] then []
    else if keep(xs[0]) then [xs[0]] + Filter(xs[1..], keep)
    else Filter(xs[1..], keep)
  }

  /** Filtering commutes with concatenation: the kept elements of a longer
      list are those of its parts, in the parts' order. */
  lemma {:induction false} FilterAppend<T>(xs: seq<T>, ys: seq<T>, keep: T -> bool)
    ensures Filter(xs + ys, keep) == Filter(xs, keep) + Filter(ys, keep)
    decreases |xs|
  {
    if xs == [] {
      assert xs + ys == ys;
    } else {
      assert (xs + ys)[0] == xs[0];
      assert (xs + ys)[1..] == xs[1..] + ys;
      FilterAppend(xs[1..], ys, keep);
    }
  }

  /** Each element of xs transformed by f (JavaScript `map`). */
  function Map<T, U>(xs: seq<T>, f: T -> U): (r: seq<U>)
    ensures |r| == |xs|
    ensures forall k :: 0 <= k < |xs| ==> r[k] == f(xs[k])
  {
    seq(|xs|, k requires 0 <= k < |xs| => f(xs[k]))
  }

  /** The index of the first element satisfying p (the element JavaScript
      `find` and Python `next` return), or None when there is none. */
  function FindIndex<T>(xs: seq<T>, p: T -> bool): (r: Option<nat>)
    ensures r.None? <==> forall k :: 0 <= k < |xs| ==> !p(xs[k])
    ensures r.Some? ==> r.value < |xs| && p(xs[r.value]) &&
                        forall k :: 0 <= k < r.value ==> !p(xs[k])
    decreases |xs|
  {
    if xs == [] then None
    else if p(xs[0]) then Some(0)
    else match FindIndex(xs[1..], p)
      case None => None
      case Some(i) => Some(i + 1)
  }

  /** JavaScript `find`: the first element satisfying p, if any. */
  function Find<T>(xs: seq<T>, p: T -> bool): Option<T> {
    match FindIndex(xs, p)
    case None => None
    case Some(i) => Some(xs[i])
  }

  /** Find returns an element that satisfies p and that no earlier element
      beats; it finds nothing exactly when no element satisfies p. */
  lemma FindSpec<T>(xs: seq<T>, p: T -> bool)
    ensures Find(xs, p).None? <==> forall x :: x in xs ==> !p(x)
    ensures Find(xs, p).Some? ==>
      exists i :: 0 <= i < |xs| && xs[i] == Find(xs, p).value && p(xs[i]) &&
                  forall k :: 0 <= k < i ==> !p(xs[k])
  {
    var r := FindIndex(xs, p);
    if r.None? {
      forall x | x in xs ensures !p(x) {
        var k :| 0 <= k < |xs| && xs[k] == x;
      }
    }
  }

  ghost predicate NoDuplicates<T>(xs: seq<T>) {
    forall i, j :: 0 <= i < j < |xs| ==> xs[i] != xs[j]
  }

  /** The distinct elements of xs in order of first occurrence: the iteration
      order of a JavaScript `Set` filled by inserting xs from left to right. */
  function Distinct<T(==)>(xs: seq<T>): seq<T>
    decreases |xs|
  {
    if xs == [] then []
    else
      var init := xs[..|xs| - 1];
      var last := xs[|xs| - 1];
      if last in init then Distinct(init) else Distinct(init) + [last]
  }

  /** JavaScript `Set.prototype.add` on a set held as its elements in
      insertion order: a new element goes to the end, a present one changes nothing. */
  function SetAdd<T(==)>(s: seq<T>, x: T): seq<T> {
    if x in s then s else s + [x]
  }

  /** Inserting one more element into the set: ignored when already present,
      appended at the end otherwise. */
  lemma DistinctSnoc<T>(xs: seq<T>, x: T)
    ensures Distinct(xs + [x]) == if x in xs then Distinct(xs) else Distinct(xs) + [x]
  {
    assert (xs + [x])[..|xs + [x]| - 1] == xs;
  }

  /** Distinct keeps every element exactly once and adds nothing. */
  lemma {:induction false} DistinctSpec<T>(xs: seq<T>)
    ensures forall k :: 0 <= k < |Distinct(xs)| ==> Distinct(xs)[k] in xs
    ensures forall k :: 0 <= k < |xs| ==> xs[k] in Distinct(xs)
    ensures NoDuplicates(Distinct(xs))
    ensures |Distinct(xs)| <= |xs|
    decreases |xs|
  {
    if xs != [] {
      var init := xs[..|xs| - 1];
      assert xs == init + [xs[|xs| - 1]];
      DistinctSpec(init);
    }
  }

  /** First-occurrence order: whenever a later element of Distinct(xs) occurs
      at position k of xs, every earlier element of Distinct(xs) already
      occurred before position k. */
  lemma {:induction false} DistinctOrder<T>(xs: seq<T>)
    ensures forall i, j, k :: 0 <= i < j < |Distinct(xs)| && 0 <= k < |xs| && xs[k] == Distinct(xs)[j]
                              ==> Distinct(xs)[i] in xs[..k]
    decreases |xs|
  {
    if xs != [] {
      var init := xs[..|xs| - 1];
      var x := xs[|xs| - 1];
      assert xs == init + [x];
      DistinctOrder(init);
      DistinctSpec(init);
      var d := Distinct(init);
      var r := Distinct(xs);
      assert r == if x in init then d else d + [x];
      forall i, j, k | 0 <= i < j < |r| && 0 <= k < |xs| && xs[k] == r[j]
        ensures r[i] in xs[..k]
      {
        assert i < |d| && r[i] == d[i];
        if k == |xs| - 1 {
          assert xs[..k] == init;
          assert r[i] in xs[..k];
        } else {
          assert xs[k] == init[k];
          assert xs[..k] == init[..k];
          if j < |d| {
            assert r[j] == d[j] && init[k] == d[j];
            assert d[i] in init[..k];
            assert r[i] in xs[..k];
          } else {
            assert false;
          }
        }
      }
    }
  }

  /** An element seen once is kept wherever the list is extended. */
  lemma DistinctOfNoDuplicates<T>(xs: seq<T>)
    requires NoDuplicates(xs)
    ensures Distinct(xs) == xs
    decreases |xs|
  {
    if xs != [] {
      var init := xs[..|xs| - 1];
      assert xs == init + [xs[|xs| - 1]];
      assert NoDuplicates(init);
      DistinctOfNoDuplicates(init);
      assert xs[|xs| - 1] !in init;
    }
  }
}

/** Sequence operations shared by the dashboard components: JavaScript's
    `Array.prototype.filter`, the include-toggle used for saved filings and
    filter selections, and the first-occurrence de-duplication
    `filter((x, i, self) => self.indexOf(x) === i)`. */
module Seqs {

  /** The elements of `xs` satisfying `p`, in their original order. */
  function Filter<T(!new)>(xs: seq<T>, p: T -> bool): (r: seq<T>)
    ensures |r| <= |xs|
    ensures forall x :: x in r <==> x in xs && p(x)
  {
    if xs == [] then [] else (if p(xs[0]) then [xs[0]] else []) + Filter(xs[1..], p)
  }

  /** `a` can be obtained from `b` by deleting elements (order is kept). */
  predicate IsSubsequence<T(==)>(a: seq<T>, b: seq<T>)
    decreases |b|
  {
    if a == [] then true
    else if b == [] then false
    else if a[0] == b[0] then IsSubsequence(a[1..], b[1..])
    else IsSubsequence(a, b[1..])
  }

  predicate NoDup<T(==)>(xs: seq<T>) {
    forall i, j :: 0 <= i < j < |xs| ==> xs[i] != xs[j]
  }

  function Elems<T>(xs: seq<T>): set<T> {
    set x | x in xs
  }

  lemma AppendAssoc<T>(x: seq<T>, y: seq<T>, z: seq<T>)
    ensures x + y + z == x + (y + z)
  {
  }

  lemma {:induction false} SubsequenceDropHead<T>(a: seq<T>, b: seq<T>)
    requires a != [] && IsSubsequence(a, b)
    ensures IsSubsequence(a[1..], b)
    decreases |b|, 0
  {
    if a[1..] != [] && b != [] {
      if a[0] == b[0] {
        SubsequenceCons(a[1..], b[1..], b[0]);
        assert [b[0]] + b[1..] == b;
      } else {
        SubsequenceDropHead(a, b[1..]);
        SubsequenceCons(a[1..], b[1..], b[0]);
        assert [b[0]] + b[1..] == b;
      }
    }
  }

  lemma {:induction false} SubsequenceCons<T>(a: seq<T>, b: seq<T>, x: T)
    requires IsSubsequence(a, b)
    ensures IsSubsequence(a, [x] + b)
    decreases |b|, 1
  {
    var xb := [x] + b;
    assert xb[1..] == b;
    if a != [] && a[0] == x {
      SubsequenceDropHead(a, b);
    }
  }

  /** Filtering keeps the survivors in their original relative order. */
  lemma {:induction false} FilterIsSubsequence<T(!new)>(xs: seq<T>, p: T -> bool)
    ensures IsSubsequence(Filter(xs, p), xs)
  {
    if xs != [] {
      FilterIsSubsequence(xs[1..], p);
      var rest := Filter(xs[1..], p);
      if p(xs[0]) {
        assert Filter(xs, p) == [xs[0]] + rest;
        assert ([xs[0]] + rest)[1..] == rest;
      } else {
        assert Filter(xs, p) == rest;
        SubsequenceCons(rest, xs[1..], xs[0]);
        assert [xs[0]] + xs[1..] == xs;
      }
    }
  }

  lemma {:induction false} SubsequenceTransitive<T>(a: seq<T>, b: seq<T>, c: seq<T>)
    requires IsSubsequence(a, b) && IsSubsequence(b, c)
    ensures IsSubsequence(a, c)
    decreases |c|
  {
    if a != [] && c != [] {
      assert b != [];
      if b[0] == c[0] {
        if a[0] == b[0] {
          SubsequenceTransitive(a[1..], b[1..], c[1..]);
        } else {
          SubsequenceTransitive(a, b[1..], c[1..]);
        }
      } else {
        SubsequenceTransitive(a, b, c[1..]);
        if a[0] == c[0] {
          SubsequenceDropHead(a, c[1..]);
        }
      }
    }
  }

  lemma {:induction false} FilterConcat<T(!new)>(xs: seq<T>, ys: seq<T>, p: T -> bool)
    ensures Filter(xs + ys, p) == Filter(xs, p) + Filter(ys, p)
  {
    if xs != [] {
      assert (xs + ys)[0] == xs[0];
      assert (xs + ys)[1..] == xs[1..] + ys;
      FilterConcat(xs[1..], ys, p);
    } else {
      assert xs + ys == ys;
    }
  }

  lemma {:induction false} FilterAllPass<T(!new)>(xs: seq<T>, p: T -> bool)
    requires forall x :: x in xs ==> p(x)
    ensures Filter(xs, p) == xs
  {
    if xs != [] {
      FilterAllPass(xs[1..], p);
      assert [xs[0]] + xs[1..] == xs;
    }
  }

  /** Filters that agree on every element give the same result. */
  lemma {:induction false} FilterExt<T(!new)>(xs: seq<T>, p: T -> bool, q: T -> bool)
    requires forall x :: p(x) == q(x)
    ensures Filter(xs, p) == Filter(xs, q)
  {
    if xs != [] {
      FilterExt(xs[1..], p, q);
    }
  }

  /** Two successive filters are one filter by the conjunction. */
  lemma {:induction false} FilterFilter<T(!new)>(xs: seq<T>, p: T -> bool, q: T -> bool, pq: T -> bool)
    requires forall x :: pq(x) == (p(x) && q(x))
    ensures Filter(Filter(xs, p), q) == Filter(xs, pq)
  {
    if xs != [] {
      FilterFilter(xs[1..], p, q, pq);
      var head := if p(xs[0]) then [xs[0]] else [];
      FilterConcat(head, Filter(xs[1..], p), q);
      if p(xs[0]) {
        assert Filter(head, q) == (if q(xs[0]) then [xs[0]] else []) by {
          assert head[1..] == [];
        }
      }
    }
  }

  /** Filtering twice by the same predicate is the same as filtering once. */
  lemma FilterIdempotent<T(!new)>(xs: seq<T>, p: T -> bool)
    ensures Filter(Filter(xs, p), p) == Filter(xs, p)
  {
    FilterFilter(xs, p, p, p);
  }

  /** `xs` with every occurrence of `v` removed: `xs.filter(x => x !== v)`. */
  function RemoveAll<T(==,!new)>(xs: seq<T>, v: T): (r: seq<T>)
    ensures v !in r
    ensures forall w :: w != v ==> (w in r <==> w in xs)
  {
    if xs == [] then []
    else (if xs[0] == v then [] else [xs[0]]) + RemoveAll(xs[1..], v)
  }

  lemma {:induction false} RemoveAllAbsent<T(!new)>(xs: seq<T>, v: T)
    requires v !in xs
    ensures RemoveAll(xs, v) == xs
  {
    if xs != [] {
      RemoveAllAbsent(xs[1..], v);
      assert [xs[0]] + xs[1..] == xs;
    }
  }

  /** Removing a value keeps the other elements in their order. */
  lemma {:induction false} RemoveAllIsSubsequence<T(!new)>(xs: seq<T>, v: T)
    ensures IsSubsequence(RemoveAll(xs, v), xs)
  {
    if xs != [] {
      RemoveAllIsSubsequence(xs[1..], v);
      var rest := RemoveAll(xs[1..], v);
      if xs[0] == v {
        assert RemoveAll(xs, v) == rest;
        SubsequenceCons(rest, xs[1..], xs[0]);
        assert [xs[0]] + xs[1..] == xs;
      } else {
        assert RemoveAll(xs, v) == [xs[0]] + rest;
        assert ([xs[0]] + rest)[1..] == rest;
      }
    }
  }

  lemma {:induction false} RemoveAllConcat<T(!new)>(xs: seq<T>, ys: seq<T>, v: T)
    ensures RemoveAll(xs + ys, v) == RemoveAll(xs, v) + RemoveAll(ys, v)
  {
    if xs != [] {
      assert (xs + ys)[0] == xs[0];
      assert (xs + ys)[1..] == xs[1..] + ys;
      RemoveAllConcat(xs[1..], ys, v);
    } else {
      assert xs + ys == ys;
    }
  }

  lemma {:induction false} RemoveAllNoDup<T(!new)>(xs: seq<T>, v: T)
    requires NoDup(xs)
    ensures NoDup(RemoveAll(xs, v))
  {
    if xs != [] {
      var rest := xs[1..];
      assert NoDup(rest) by {
        forall i, j | 0 <= i < j < |rest| ensures rest[i] != rest[j] {
          assert rest[i] == xs[i + 1] && rest[j] == xs[j + 1];
        }
      }
      RemoveAllNoDup(rest, v);
      assert xs[0] !in rest by {
        forall k | 0 <= k < |rest| ensures rest[k] != xs[0] {
          assert rest[k] == xs[k + 1];
        }
      }
      ConsNoDup(xs[0], RemoveAll(rest, v));
    }
  }

  lemma ConsNoDup<T>(x: T, xs: seq<T>)
    requires NoDup(xs) && x !in xs
    ensures NoDup([x] + xs)
  {
    var ys := [x] + xs;
    forall i, j | 0 <= i < j < |ys| ensures ys[i] != ys[j] {
      assert ys[j] == xs[j - 1];
      if i > 0 {
        assert ys[i] == xs[i - 1];
      }
    }
  }

  lemma SnocNoDup<T>(xs: seq<T>, x: T)
    requires NoDup(xs) && x !in xs
    ensures NoDup(xs + [x])
  {
    var ys := xs + [x];
    forall i, j | 0 <= i < j < |ys| ensures ys[i] != ys[j] {
      assert ys[i] == xs[i];
      if j < |xs| {
        assert ys[j] == xs[j];
      }
    }
  }

  /** The include-toggle of the dashboard, company page and filter panel:
      a present value is removed (every occurrence), an absent one appended. */
  function Toggle<T(==,!new)>(xs: seq<T>, v: T): (r: seq<T>)
    ensures v in r <==> v !in xs
    ensures forall w :: w != v ==> (w in r <==> w in xs)
    ensures v !in xs ==> r == xs + [v]
    ensures v in xs ==> IsSubsequence(r, xs)
  {
    if v in xs then
      RemoveAllIsSubsequence(xs, v);
      RemoveAll(xs, v)
    else xs + [v]
  }

  /** Toggling an absent value twice restores the original list. */
  lemma ToggleTwiceRestores<T(!new)>(xs: seq<T>, v: T)
    requires v !in xs
    ensures Toggle(Toggle(xs, v), v) == xs
  {
    RemoveAllConcat(xs, [v], v);
    RemoveAllAbsent(xs, v);
    assert RemoveAll([v], v) == [];
  }

  /** A duplicate-free selection stays duplicate-free under toggling. */
  lemma ToggleKeepsNoDup<T(!new)>(xs: seq<T>, v: T)
    requires NoDup(xs)
    ensures NoDup(Toggle(xs, v))
  {
    if v in xs {
      RemoveAllNoDup(xs, v);
    } else {
      SnocNoDup(xs, v);
    }
  }

  /** The first occurrence of each element of `xs` that is not in `seen`,
      in order. `DistinctFrom(xs, {})` is `xs.filter((x, i, self) => self.indexOf(x) === i)`. */
  function DistinctFrom<T(==,!new)>(xs: seq<T>, seen: set<T>): (r: seq<T>)
    ensures NoDup(r)
    ensures forall x :: x in r <==> x in xs && x !in seen
  {
    if xs == [] then []
    else if xs[0] in seen then DistinctFrom(xs[1..], seen)
    else
      var rest := DistinctFrom(xs[1..], seen + {xs[0]});
      ConsNoDup(xs[0], rest);
      [xs[0]] + rest
  }
}

/** Sequence operations behind the pandas one-liners: boolean-mask selection,
    keep-first de-duplication, and the minimum / maximum of a column. */
module SeqOps {
  import opened Wrappers

  // ---------------------------------------------------------------------------
  // Selection by a row predicate (`df[mask]`)
  // ---------------------------------------------------------------------------

  /** The elements of `s` that satisfy `p`, in their original order. */
  function Filter<T>(p: T -> bool, s: seq<T>): seq<T>
  {
    if s == [] then []
    else Filter(p, s[..|s| - 1]) + (if p(s[|s| - 1]) then [s[|s| - 1]] else [])
  }

  /** `a` can be obtained from `b` by deleting elements (order is preserved). */
  ghost predicate IsSubsequence<T>(a: seq<T>, b: seq<T>)
  {
    if a == [] then true
    else if b == [] then false
    else (a[|a| - 1] == b[|b| - 1] && IsSubsequence(a[..|a| - 1], b[..|b| - 1]))
         || IsSubsequence(a, b[..|b| - 1])
  }

  /** `out` is exactly the selection of `s` by `p`: an order-preserving subsequence
      holding every element that satisfies `p` as often as `s` does, and nothing else. */
  ghost predicate SelectedBy<T(!new)>(out: seq<T>, s: seq<T>, p: T -> bool)
  {
    && IsSubsequence(out, s)
    && (forall x :: multiset(out)[x] == if p(x) then multiset(s)[x] else 0)
  }

  function Both<T>(p: T -> bool, q: T -> bool): T -> bool
  {
    x => p(x) && q(x)
  }

  /** An element is selected iff it occurs in the input and satisfies the predicate. */
  lemma {:induction false} FilterMembers<T>(p: T -> bool, s: seq<T>)
    ensures forall x :: x in Filter(p, s) <==> x in s && p(x)
    ensures |Filter(p, s)| <= |s|
    decreases |s|
  {
    if s != [] {
      var init, last := s[..|s| - 1], s[|s| - 1];
      FilterMembers(p, init);
      assert s == init + [last];
    }
  }

  lemma {:induction false} FilterSubsequence<T>(p: T -> bool, s: seq<T>)
    ensures IsSubsequence(Filter(p, s), s)
    decreases |s|
  {
    if s != [] {
      var init, last := s[..|s| - 1], s[|s| - 1];
      FilterSubsequence(p, init);
      var f := Filter(p, init);
      if p(last) {
        var out := f + [last];
        assert out[..|out| - 1] == f;
        assert out[|out| - 1] == last;
      } else {
        assert Filter(p, s) == f;
        if f != [] {
          assert IsSubsequence(f, s[..|s| - 1]);
        }
      }
    }
  }

  lemma {:induction false} FilterCounts<T(!new)>(p: T -> bool, s: seq<T>)
    ensures forall x :: multiset(Filter(p, s))[x] == if p(x) then multiset(s)[x] else 0
    decreases |s|
  {
    if s != [] {
      var init, last := s[..|s| - 1], s[|s| - 1];
      FilterCounts(p, init);
      assert s == init + [last];
      assert multiset(s) == multiset(init) + multiset{last};
    }
  }

  /** Filter is exactly the selection by its predicate. */
  lemma FilterSelects<T(!new)>(p: T -> bool, s: seq<T>)
    ensures SelectedBy(Filter(p, s), s, p)
    ensures forall x :: x in Filter(p, s) <==> x in s && p(x)
    ensures |Filter(p, s)| <= |s|
  {
    FilterMembers(p, s);
    FilterSubsequence(p, s);
    FilterCounts(p, s);
  }

  lemma {:induction false} FilterConcat<T>(p: T -> bool, a: seq<T>, b: seq<T>)
    ensures Filter(p, a + b) == Filter(p, a) + Filter(p, b)
    decreases |b|
  {
    if b != [] {
      var ab := a + b;
      assert ab[..|ab| - 1] == a + b[..|b| - 1];
      assert ab[|ab| - 1] == b[|b| - 1];
      FilterConcat(p, a, b[..|b| - 1]);
    } else {
      assert a + b == a;
    }
  }

  /** Applying the same selection twice is the same as applying it once. */
  lemma {:induction false} FilterIdempotent<T>(p: T -> bool, s: seq<T>)
    ensures Filter(p, Filter(p, s)) == Filter(p, s)
    decreases |s|
  {
    if s != [] {
      var init, last := s[..|s| - 1], s[|s| - 1];
      FilterIdempotent(p, init);
      var tail := if p(last) then [last] else [];
      FilterConcat(p, Filter(p, init), tail);
      assert Filter(p, tail) == tail by {
        if p(last) {
          assert tail[..0] == [];
        }
      }
    }
  }

  /** Selecting by two predicates in turn is selecting by their conjunction. */
  lemma {:induction false} FilterFuse<T>(p: T -> bool, q: T -> bool, s: seq<T>)
    ensures Filter(q, Filter(p, s)) == Filter(Both(p, q), s)
    decreases |s|
  {
    if s != [] {
      var init, last := s[..|s| - 1], s[|s| - 1];
      FilterFuse(p, q, init);
      var tail := if p(last) then [last] else [];
      FilterConcat(q, Filter(p, init), tail);
      if p(last) {
        assert tail[..0] == [];
      }
    }
  }

  /** Selections by predicates that agree everywhere are equal. */
  lemma {:induction false} FilterCongruent<T>(p: T -> bool, q: T -> bool, s: seq<T>)
    requires forall x :: p(x) == q(x)
    ensures Filter(p, s) == Filter(q, s)
    decreases |s|
  {
    if s != [] {
      FilterCongruent(p, q, s[..|s| - 1]);
    }
  }

  /** Independent row filters may run in either order. */
  lemma FilterCommute<T>(p: T -> bool, q: T -> bool, s: seq<T>)
    ensures Filter(q, Filter(p, s)) == Filter(p, Filter(q, s))
  {
    FilterFuse(p, q, s);
    FilterFuse(q, p, s);
    FilterCongruent(Both(p, q), Both(q, p), s);
  }

  /** A selection that every element passes keeps the whole sequence. */
  lemma {:induction false} FilterKeepsAll<T>(p: T -> bool, s: seq<T>)
    requires forall i :: 0 <= i < |s| ==> p(s[i])
    ensures Filter(p, s) == s
    decreases |s|
  {
    if s != [] {
      FilterKeepsAll(p, s[..|s| - 1]);
    }
  }

  // ---------------------------------------------------------------------------
  // Keep-first de-duplication (`df.drop_duplicates()`)
  // ---------------------------------------------------------------------------

  predicate NoDuplicates<T(==)>(s: seq<T>)
  {
    forall i, j | 0 <= i < j < |s| :: s[i] != s[j]
  }

  /** Drops every element equal to an earlier one: element i survives iff
      it does not occur in s[..i]. */
  function Dedup<T(==)>(s: seq<T>): seq<T>
  {
    if s == [] then []
    else if s[|s| - 1] in s[..|s| - 1] then Dedup(s[..|s| - 1])
    else Dedup(s[..|s| - 1]) + [s[|s| - 1]]
  }

  /** The position of the first occurrence of `x` in `s`. */
  function FirstIndex<T(==)>(s: seq<T>, x: T): (k: nat)
    requires x in s
    ensures k < |s| && s[k] == x && x !in s[..k]
  {
    var init := s[..|s| - 1];
    if x in init then
      var k := FirstIndex(init, x);
      assert s[..k] == init[..k];
      k
    else
      |s| - 1
  }

  /** De-duplication keeps one copy of every element, no two equal elements,
      and preserves the order of the input. */
  lemma {:induction false} DedupUnique<T>(s: seq<T>)
    ensures NoDuplicates(Dedup(s))
    ensures forall x :: x in Dedup(s) <==> x in s
    ensures IsSubsequence(Dedup(s), s)
    ensures |Dedup(s)| <= |s|
    decreases |s|
  {
    if s != [] {
      var init, last := s[..|s| - 1], s[|s| - 1];
      DedupUnique(init);
      assert s == init + [last];
      var d := Dedup(init);
      if last in init {
        assert IsSubsequence(d, s) by {
          if d != [] {
            assert IsSubsequence(d, s[..|s| - 1]);
          }
        }
      } else {
        var out := d + [last];
        assert out[..|out| - 1] == d;
        assert IsSubsequence(out, s);
      }
    }
  }

  /** The survivors appear in the order of their first occurrences in the input:
      together with DedupUnique this pins Dedup down as keep-first. */
  lemma {:induction false} DedupKeepsFirst<T>(s: seq<T>)
    ensures forall x :: x in Dedup(s) ==> x in s
    ensures forall i, j :: 0 <= i < j < |Dedup(s)| ==>
              FirstIndex(s, Dedup(s)[i]) < FirstIndex(s, Dedup(s)[j])
    decreases |s|
  {
    DedupUnique(s);
    if s != [] {
      var init, last := s[..|s| - 1], s[|s| - 1];
      DedupKeepsFirst(init);
      DedupUnique(init);
      var d := Dedup(init);
      forall y | y in init
        ensures FirstIndex(s, y) == FirstIndex(init, y)
      {
      }
      if last !in init {
        assert FirstIndex(s, last) == |s| - 1;
      }
    }
  }

  /** A sequence without duplicates is left as it is; hence de-duplication is idempotent. */
  lemma {:induction false} DedupOfDistinct<T>(s: seq<T>)
    requires NoDuplicates(s)
    ensures Dedup(s) == s
    decreases |s|
  {
    if s != [] {
      var init := s[..|s| - 1];
      assert s[|s| - 1] !in init;
      DedupOfDistinct(init);
    }
  }

  lemma DedupIdempotent<T>(s: seq<T>)
    ensures Dedup(Dedup(s)) == Dedup(s)
  {
    DedupUnique(s);
    DedupOfDistinct(Dedup(s));
  }

  /** De-duplication commutes with any row filter: a filter removes either all
      copies of a record or none of them. */
  lemma {:induction false} DedupFilterCommute<T>(p: T -> bool, s: seq<T>)
    ensures Dedup(Filter(p, s)) == Filter(p, Dedup(s))
    decreases |s|
  {
    if s != [] {
      var init, last := s[..|s| - 1], s[|s| - 1];
      DedupFilterCommute(p, init);
      var f, d := Filter(p, init), Dedup(init);
      var dl := d + [last];
      assert dl[..|dl| - 1] == d && dl[|dl| - 1] == last;
      if p(last) {
        FilterMembers(p, init);
        var fl := f + [last];
        assert fl[..|fl| - 1] == f && fl[|fl| - 1] == last;
        assert last in f <==> last in init;
        assert Filter(p, s) == fl;
        assert Filter(p, dl) == Filter(p, d) + [last];
        if last in init {
          assert Dedup(fl) == Dedup(f);
        } else {
          assert Dedup(fl) == Dedup(f) + [last];
        }
      } else {
        assert Filter(p, s) == f;
        assert Filter(p, dl) == Filter(p, d);
      }
    }
  }

  // ---------------------------------------------------------------------------
  // Minimum and maximum of the present values of a column
  // ---------------------------------------------------------------------------

  /** `m` is the smallest of `xs`, absent exactly when `xs` is empty. */
  ghost predicate IsLeast(m: Option<int>, xs: seq<int>)
  {
    && (m.Some? <==> xs != [])
    && (m.Some? ==> m.value in xs && forall i :: 0 <= i < |xs| ==> m.value <= xs[i])
  }

  /** `m` is the largest of `xs`, absent exactly when `xs` is empty. */
  ghost predicate IsGreatest(m: Option<int>, xs: seq<int>)
  {
    && (m.Some? <==> xs != [])
    && (m.Some? ==> m.value in xs && forall i :: 0 <= i < |xs| ==> xs[i] <= m.value)
  }

  /** `min()` of a numeric column: absent (NaN) when there are no values. */
  function MinOf(xs: seq<int>): (m: Option<int>)
    ensures IsLeast(m, xs)
  {
    if xs == [] then None
    else
      var init := xs[..|xs| - 1];
      var last := xs[|xs| - 1];
      assert xs == init + [last];
      match MinOf(init)
      case None => Some(last)
      case Some(m) => Some(if last < m then last else m)
  }

  /** `max()` of a numeric column: absent (NaN) when there are no values. */
  function MaxOf(xs: seq<int>): (m: Option<int>)
    ensures IsGreatest(m, xs)
  {
    if xs == [] then None
    else
      var init := xs[..|xs| - 1];
      var last := xs[|xs| - 1];
      assert xs == init + [last];
      match MaxOf(init)
      case None => Some(last)
      case Some(m) => Some(if m < last then last else m)
  }
}

/** `groupby(keys).agg(count)`: rows with an absent key are dropped, the groups
    come out sorted by key, and `count` counts the rows of a group whose salary
    is present. Modelled as a fold that inserts each row into a sorted list of groups. */
module Grouping {
  import opened Wrappers
  import opened SeqOps
  import opened Table

  datatype Group<K> = Group(key: K, count: nat)

  ghost predicate StrictTotalOrder<K(!new)>(lt: (K, K) -> bool)
  {
    && (forall a :: !lt(a, a))
    && (forall a, b, c :: lt(a, b) && lt(b, c) ==> lt(a, c))
    && (forall a, b :: a != b ==> lt(a, b) || lt(b, a))
  }

  /** Keys strictly increase along the groups (so no key appears twice). */
  ghost predicate Sorted<K>(gs: seq<Group<K>>, lt: (K, K) -> bool)
  {
    forall i, j :: 0 <= i < j < |gs| ==> lt(gs[i].key, gs[j].key)
  }

  ghost predicate AllAbove<K>(x: K, gs: seq<Group<K>>, lt: (K, K) -> bool)
  {
    forall i :: 0 <= i < |gs| ==> lt(x, gs[i].key)
  }

  function KeySet<K>(gs: seq<Group<K>>): set<K>
  {
    if gs == [] then {} else {gs[0].key} + KeySet(gs[1..])
  }

  /** The count of the group with key `k`, 0 when there is none. */
  function CountOf<K(==)>(gs: seq<Group<K>>, k: K): nat
  {
    if gs == [] then 0
    else if gs[0].key == k then gs[0].count
    else CountOf(gs[1..], k)
  }

  function SumCounts<K>(gs: seq<Group<K>>): nat
  {
    if gs == [] then 0 else gs[0].count + SumCounts(gs[1..])
  }

  function Inc(n: nat, salary: Option<int>): nat
  {
    if salary.Some? then n + 1 else n
  }

  /** Adds one row with key `k` to sorted groups: bumps the group of `k` if
      there is one, otherwise inserts a new group at its place. */
  function AddRow<K(==)>(gs: seq<Group<K>>, k: K, salary: Option<int>, lt: (K, K) -> bool)
    : seq<Group<K>>
  {
    if gs == [] then [Group(k, Inc(0, salary))]
    else if gs[0].key == k then [Group(k, Inc(gs[0].count, salary))] + gs[1..]
    else if lt(k, gs[0].key) then [Group(k, Inc(0, salary))] + gs
    else [gs[0]] + AddRow(gs[1..], k, salary, lt)
  }

  lemma {:induction false} AddRowKeepsOrder<K(!new)>(
    gs: seq<Group<K>>, k: K, salary: Option<int>, lt: (K, K) -> bool)
    requires StrictTotalOrder(lt) && Sorted(gs, lt)
    ensures Sorted(AddRow(gs, k, salary, lt), lt)
    ensures forall x :: AllAbove(x, gs, lt) && lt(x, k) ==> AllAbove(x, AddRow(gs, k, salary, lt), lt)
    decreases |gs|
  {
    if gs != [] && gs[0].key != k && !lt(k, gs[0].key) {
      var rest := gs[1..];
      AddRowKeepsOrder(rest, k, salary, lt);
      assert AllAbove(gs[0].key, rest, lt);
      assert lt(gs[0].key, k);
    }
  }

  lemma {:induction false} AboveNotAKey<K(!new)>(x: K, gs: seq<Group<K>>, lt: (K, K) -> bool)
    requires StrictTotalOrder(lt) && AllAbove(x, gs, lt)
    ensures x !in KeySet(gs)
    decreases |gs|
  {
    if gs != [] {
      assert lt(x, gs[0].key);
      AboveNotAKey(x, gs[1..], lt);
    }
  }

  lemma {:induction false} CountOfAbsentKey<K>(gs: seq<Group<K>>, x: K)
    requires x !in KeySet(gs)
    ensures CountOf(gs, x) == 0
    decreases |gs|
  {
    if gs != [] {
      CountOfAbsentKey(gs[1..], x);
    }
  }

  lemma {:induction false} AddRowCounts<K(!new)>(
    gs: seq<Group<K>>, k: K, salary: Option<int>, lt: (K, K) -> bool)
    requires StrictTotalOrder(lt) && Sorted(gs, lt)
    ensures KeySet(AddRow(gs, k, salary, lt)) == KeySet(gs) + {k}
    ensures forall j :: CountOf(AddRow(gs, k, salary, lt), j)
                        == CountOf(gs, j) + (if j == k && salary.Some? then 1 else 0)
    ensures SumCounts(AddRow(gs, k, salary, lt)) == SumCounts(gs) + (if salary.Some? then 1 else 0)
    decreases |gs|
  {
    var out := AddRow(gs, k, salary, lt);
    if gs == [] {
    } else if gs[0].key == k {
      assert out[1..] == gs[1..];
    } else if lt(k, gs[0].key) {
      assert out[1..] == gs;
      assert AllAbove(k, gs, lt);
      AboveNotAKey(k, gs, lt);
      CountOfAbsentKey(gs, k);
    } else {
      AddRowCounts(gs[1..], k, salary, lt);
      assert out[1..] == AddRow(gs[1..], k, salary, lt);
    }
  }

  /** Sorted groups have one group per distinct key. */
  lemma {:induction false} SortedGroupsCardinality<K(!new)>(gs: seq<Group<K>>, lt: (K, K) -> bool)
    requires StrictTotalOrder(lt) && Sorted(gs, lt)
    ensures |gs| == |KeySet(gs)|
    decreases |gs|
  {
    if gs != [] {
      var rest := gs[1..];
      SortedGroupsCardinality(rest, lt);
      assert AllAbove(gs[0].key, rest, lt);
      AboveNotAKey(gs[0].key, rest, lt);
    }
  }

  lemma {:induction false} KeySetMembers<K>(gs: seq<Group<K>>)
    ensures forall i :: 0 <= i < |gs| ==> gs[i].key in KeySet(gs)
    ensures forall x :: x in KeySet(gs) ==> exists i :: 0 <= i < |gs| && gs[i].key == x
    decreases |gs|
  {
    if gs != [] {
      var rest := gs[1..];
      KeySetMembers(rest);
      assert KeySet(gs) == {gs[0].key} + KeySet(rest);
      forall i | 0 < i < |gs|
        ensures gs[i].key in KeySet(gs)
      {
        assert rest[i - 1] == gs[i];
      }
      forall x | x in KeySet(gs) && x != gs[0].key
        ensures exists i :: 0 <= i < |gs| && gs[i].key == x
      {
        assert x in KeySet(rest);
        var i :| 0 <= i < |rest| && rest[i].key == x;
        assert gs[i + 1].key == x;
      }
    }
  }

  /** In sorted groups, the count found for a group's key is that group's own. */
  lemma {:induction false} CountOfOwnKey<K(!new)>(gs: seq<Group<K>>, lt: (K, K) -> bool, i: nat)
    requires StrictTotalOrder(lt) && Sorted(gs, lt) && i < |gs|
    ensures CountOf(gs, gs[i].key) == gs[i].count
    decreases i
  {
    if i > 0 {
      assert lt(gs[0].key, gs[i].key);
      assert gs[1..][i - 1] == gs[i];
      CountOfOwnKey(gs[1..], lt, i - 1);
    }
  }

  // ---------------------------------------------------------------------------
  // Group-by over rows
  // ---------------------------------------------------------------------------

  /** Groups the rows by `key`, skipping rows whose key is absent. */
  function GroupBy<K(==)>(rows: seq<Record>, key: Record -> Option<K>, lt: (K, K) -> bool)
    : seq<Group<K>>
  {
    if rows == [] then []
    else
      var gs := GroupBy(rows[..|rows| - 1], key, lt);
      var last := rows[|rows| - 1];
      match key(last)
      case None => gs
      case Some(k) => AddRow(gs, k, last.salaryInUsd, lt)
  }

  /** The distinct present keys of the rows. */
  function PresentKeys<K>(rows: seq<Record>, key: Record -> Option<K>): set<K>
  {
    if rows == [] then {}
    else
      PresentKeys(rows[..|rows| - 1], key)
      + (match key(rows[|rows| - 1]) case None => {} case Some(k) => {k})
  }

  /** The present salaries of the rows whose key is `k`, in row order. */
  function Matching<K(==)>(rows: seq<Record>, key: Record -> Option<K>, k: K): seq<int>
  {
    if rows == [] then []
    else
      var last := rows[|rows| - 1];
      Matching(rows[..|rows| - 1], key, k)
      + (if key(last) == Some(k) && last.salaryInUsd.Some? then [last.salaryInUsd.value] else [])
  }

  /** Rows that have a key and a salary: the rows a group count counts. */
  predicate Counted<K>(r: Record, key: Record -> Option<K>)
  {
    key(r).Some? && r.salaryInUsd.Some?
  }

  function CountedBy<K>(key: Record -> Option<K>): Record -> bool
  {
    r => Counted(r, key)
  }

  /** The groups are sorted by key, there is one per distinct present key, each
      counts the rows of its key that have a salary, and the counts add up to
      the rows that have both a key and a salary: the groups partition them. */
  lemma {:induction false} GroupByCorrect<K(!new)>(
    rows: seq<Record>, key: Record -> Option<K>, lt: (K, K) -> bool)
    requires StrictTotalOrder(lt)
    ensures Sorted(GroupBy(rows, key, lt), lt)
    ensures KeySet(GroupBy(rows, key, lt)) == PresentKeys(rows, key)
    ensures forall k :: CountOf(GroupBy(rows, key, lt), k) == |Matching(rows, key, k)|
    ensures SumCounts(GroupBy(rows, key, lt)) == |Filter(CountedBy(key), rows)|
    decreases |rows|
  {
    if rows != [] {
      var init, last := rows[..|rows| - 1], rows[|rows| - 1];
      GroupByCorrect(init, key, lt);
      var gs := GroupBy(init, key, lt);
      match key(last)
      case None =>
      case Some(k) =>
        AddRowKeepsOrder(gs, k, last.salaryInUsd, lt);
        AddRowCounts(gs, k, last.salaryInUsd, lt);
    }
  }

  /** `gs` is the group-by of `rows` on `key`: keys strictly increasing, one group
      per distinct present key, each counting the salaried rows of its key, and
      the counts adding up to the rows that have both a key and a salary. */
  ghost predicate GroupCounts<K(!new)>(gs: seq<Group<K>>, rows: seq<Record>,
                                       key: Record -> Option<K>, lt: (K, K) -> bool)
  {
    && Sorted(gs, lt)
    && (forall k :: k in PresentKeys(rows, key) ==> exists i :: 0 <= i < |gs| && gs[i].key == k)
    && (forall i :: 0 <= i < |gs| ==> gs[i].key in PresentKeys(rows, key))
    && |gs| == |PresentKeys(rows, key)|
    && (forall i :: 0 <= i < |gs| ==> gs[i].count == |Matching(rows, key, gs[i].key)|)
    && SumCounts(gs) == |Filter(CountedBy(key), rows)|
  }

  lemma GroupByFacts<K(!new)>(rows: seq<Record>, key: Record -> Option<K>, lt: (K, K) -> bool)
    requires StrictTotalOrder(lt)
    ensures GroupCounts(GroupBy(rows, key, lt), rows, key, lt)
  {
    var gs := GroupBy(rows, key, lt);
    GroupByCorrect(rows, key, lt);
    SortedGroupsCardinality(gs, lt);
    KeySetMembers(gs);
    forall i | 0 <= i < |gs|
      ensures gs[i].count == |Matching(rows, key, gs[i].key)|
    {
      CountOfOwnKey(gs, lt, i);
    }
  }

  // ---------------------------------------------------------------------------
  // Key orders (pandas sorts group keys ascending)
  // ---------------------------------------------------------------------------

  function IntLess(a: int, b: int): bool
  {
    a < b
  }

  /** Python's string order: by code point, a proper prefix first. */
  function StrLess(a: string, b: string): bool
  {
    if a == [] then b != []
    else if b == [] then false
    else if a[0] < b[0] then true
    else if a[0] == b[0] then StrLess(a[1..], b[1..])
    else false
  }

  /** Tuple order on (work_year, label). */
  function PairLess(a: (int, string), b: (int, string)): bool
  {
    a.0 < b.0 || (a.0 == b.0 && StrLess(a.1, b.1))
  }

  lemma {:induction false} StrLessIrreflexive(a: string)
    ensures !StrLess(a, a)
    decreases |a|
  {
    if a != [] {
      StrLessIrreflexive(a[1..]);
    }
  }

  lemma {:induction false} StrLessTransitive(a: string, b: string, c: string)
    requires StrLess(a, b) && StrLess(b, c)
    ensures StrLess(a, c)
    decreases |a|
  {
    if a != [] && b != [] && c != [] && a[0] == b[0] == c[0] {
      StrLessTransitive(a[1..], b[1..], c[1..]);
    }
  }

  lemma {:induction false} StrLessTotal(a: string, b: string)
    requires a != b
    ensures StrLess(a, b) || StrLess(b, a)
    decreases |a|
  {
    if a != [] && b != [] && a[0] == b[0] {
      assert a == [a[0]] + a[1..] && b == [b[0]] + b[1..];
      StrLessTotal(a[1..], b[1..]);
    }
  }

  lemma IntLessIsOrder()
    ensures StrictTotalOrder(IntLess)
  {
  }

  lemma PairLessIsOrder()
    ensures StrictTotalOrder(PairLess)
  {
    forall a: (int, string)
      ensures !PairLess(a, a)
    {
      StrLessIrreflexive(a.1);
    }
    forall a: (int, string), b: (int, string), c: (int, string) | PairLess(a, b) && PairLess(b, c)
      ensures PairLess(a, c)
    {
      if a.0 == b.0 == c.0 {
        StrLessTransitive(a.1, b.1, c.1);
      }
    }
    forall a: (int, string), b: (int, string) | a != b
      ensures PairLess(a, b) || PairLess(b, a)
    {
      if a.0 == b.0 {
        StrLessTotal(a.1, b.1);
      }
    }
  }
}

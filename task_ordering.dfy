/** The ordering `fetchTasks` imposes on loaded task items: the comparator
    closure handed to `sorted`, what "sorted" means under it, and a sort that
    produces such an order. */
module TaskOrdering {
  import opened Results
  import opened TaskModel

  /** The comparator closure given to `sorted`: true when task1 must come
      before task2. Timestamped tasks compare by time; an untimestamped first
      task never comes first; a timestamped first task comes before an
      untimestamped second one. */
  predicate CreatedBefore(task1: TaskItem, task2: TaskItem)
  {
    if task1.createdAt.Some? && task2.createdAt.Some? then
      task1.createdAt.value < task2.createdAt.value
    else if task1.createdAt.None? then
      false
    else
      true
  }

  /** Neither task must come before the other. */
  predicate Incomparable(task1: TaskItem, task2: TaskItem)
  {
    !CreatedBefore(task1, task2) && !CreatedBefore(task2, task1)
  }

  // ---------------------------------------------------------------------------
  // A reference order: creation times ranked as (tier, time) pairs, compared
  // lexicographically. Tier 0 holds every present timestamp, tier 1 the
  // absent one.

  function Rank(createdAt: Option<Timestamp>): (int, int)
  {
    match createdAt
    case Some(t) => (0, t)
    case None => (1, 0)
  }

  predicate RankLess(r1: (int, int), r2: (int, int))
  {
    r1.0 < r2.0 || (r1.0 == r2.0 && r1.1 < r2.1)
  }

  /** Two creation times that are ranked alike are the same. */
  lemma RankInjective(k1: Option<Timestamp>, k2: Option<Timestamp>)
    requires Rank(k1) == Rank(k2)
    ensures k1 == k2
  {
  }

  /** The comparator is exactly "lower rank" on the creation times. */
  lemma CreatedBeforeIsRankLess(task1: TaskItem, task2: TaskItem)
    ensures CreatedBefore(task1, task2) <==> RankLess(Rank(task1.createdAt), Rank(task2.createdAt))
  {
  }

  /** Both timestamped: task1 comes first exactly when it is strictly earlier. */
  lemma BothTimestamped(task1: TaskItem, task2: TaskItem)
    requires task1.createdAt.Some? && task2.createdAt.Some?
    ensures CreatedBefore(task1, task2) <==> task1.createdAt.value < task2.createdAt.value
  {
  }

  /** A timestamped task comes before an untimestamped one. */
  lemma TimestampedBeforeUntimestamped(task1: TaskItem, task2: TaskItem)
    requires task1.createdAt.Some? && task2.createdAt.None?
    ensures CreatedBefore(task1, task2)
  {
  }

  /** An untimestamped task never comes before anything. */
  lemma UntimestampedNeverFirst(task1: TaskItem, task2: TaskItem)
    requires task1.createdAt.None?
    ensures !CreatedBefore(task1, task2)
  {
  }

  /** Two tasks are incomparable exactly when they carry the same creation
      time; in particular all untimestamped tasks form one class. */
  lemma IncomparableIffSameCreation(task1: TaskItem, task2: TaskItem)
    ensures Incomparable(task1, task2) <==> task1.createdAt == task2.createdAt
  {
    CreatedBeforeIsRankLess(task1, task2);
    CreatedBeforeIsRankLess(task2, task1);
    if Incomparable(task1, task2) {
      RankInjective(task1.createdAt, task2.createdAt);
    }
  }

  ghost predicate Irreflexive()
  {
    forall t: TaskItem :: !CreatedBefore(t, t)
  }

  ghost predicate Transitive()
  {
    forall t1: TaskItem, t2: TaskItem, t3: TaskItem ::
      CreatedBefore(t1, t2) && CreatedBefore(t2, t3) ==> CreatedBefore(t1, t3)
  }

  ghost predicate IncomparabilityTransitive()
  {
    forall t1: TaskItem, t2: TaskItem, t3: TaskItem ::
      Incomparable(t1, t2) && Incomparable(t2, t3) ==> Incomparable(t1, t3)
  }

  /** The comparator meets the requirements `sorted` places on its argument:
      it is a strict weak ordering. */
  lemma CreatedBeforeIsStrictWeakOrder()
    ensures Irreflexive() && Transitive() && IncomparabilityTransitive()
  {
    forall t1: TaskItem, t2: TaskItem, t3: TaskItem
      | Incomparable(t1, t2) && Incomparable(t2, t3)
      ensures Incomparable(t1, t3)
    {
      IncomparableIffSameCreation(t1, t2);
      IncomparableIffSameCreation(t2, t3);
      IncomparableIffSameCreation(t1, t3);
    }
  }

  // ---------------------------------------------------------------------------
  // Sortedness under the comparator.

  /** No task is preceded by one the comparator puts after it. */
  predicate Sorted(s: seq<TaskItem>)
  {
    forall i, j :: 0 <= i < j < |s| ==> !CreatedBefore(s[j], s[i])
  }

  /** `output` is a legitimate result of sorting `input` with the comparator. */
  predicate IsSortedPermutation(input: seq<TaskItem>, output: seq<TaskItem>)
  {
    multiset(output) == multiset(input) && Sorted(output)
  }

  /** No untimestamped task precedes a timestamped one. */
  predicate UntimestampedLast(s: seq<TaskItem>)
  {
    forall i, j :: 0 <= i < j < |s| && s[i].createdAt.None? ==> s[j].createdAt.None?
  }

  /** The timestamped tasks appear in non-decreasing time order. */
  predicate TimestampsNonDecreasing(s: seq<TaskItem>)
  {
    forall i, j :: 0 <= i < j < |s| && s[i].createdAt.Some? && s[j].createdAt.Some? ==>
      s[i].createdAt.value <= s[j].createdAt.value
  }

  /** Sorted under the comparator means exactly: timestamped tasks first, in
      non-decreasing time order, then the untimestamped ones. */
  lemma SortedShape(s: seq<TaskItem>)
    ensures Sorted(s) <==> UntimestampedLast(s) && TimestampsNonDecreasing(s)
  {
  }

  // ---------------------------------------------------------------------------
  // A sort. The library `sorted` is not specified beyond "a permutation in
  // comparator order"; insertion sort is one such algorithm.

  /** Puts `x` in front of the first element that is not before it. */
  function Insert(x: TaskItem, s: seq<TaskItem>): (r: seq<TaskItem>)
    ensures multiset(r) == multiset(s) + multiset{x}
    ensures Sorted(s) ==> Sorted(r)
    decreases |s|
  {
    if s == [] then
      [x]
    else if CreatedBefore(s[0], x) then
      var tail := Insert(x, s[1..]);
      assert s == [s[0]] + s[1..];
      assert Sorted(s) ==> forall y | y in multiset(tail) :: !CreatedBefore(y, s[0]) by {
        if Sorted(s) {
          forall y | y in multiset(tail) ensures !CreatedBefore(y, s[0]) {
            if y != x {
              assert y in s[1..];
              var k :| 0 <= k < |s[1..]| && s[1..][k] == y;
              assert s[k + 1] == y;
            }
          }
        }
      }
      [s[0]] + tail
    else
      [x] + s
  }

  /** The model of `tasks.sorted { ... }`: a sorted permutation of `s`. */
  function SortTasks(s: seq<TaskItem>): (r: seq<TaskItem>)
    ensures IsSortedPermutation(s, r)
    ensures |r| == |s|
  {
    if s == [] then
      []
    else
      assert s == [s[0]] + s[1..];
      Insert(s[0], SortTasks(s[1..]))
  }

  // ---------------------------------------------------------------------------
  // What every sorted permutation has in common: its sequence of creation
  // times. The sort may reorder tasks that carry the same creation time, and
  // nothing else.

  function CreationTimes(s: seq<TaskItem>): (r: seq<Option<Timestamp>>)
    ensures |r| == |s|
    ensures forall i :: 0 <= i < |s| ==> r[i] == s[i].createdAt
  {
    seq(|s|, i requires 0 <= i < |s| => s[i].createdAt)
  }

  predicate TimesSorted(ks: seq<Option<Timestamp>>)
  {
    forall i, j :: 0 <= i < j < |ks| ==> !RankLess(Rank(ks[j]), Rank(ks[i]))
  }

  lemma CreationTimesAppend(a: seq<TaskItem>, b: seq<TaskItem>)
    ensures CreationTimes(a + b) == CreationTimes(a) + CreationTimes(b)
  {
  }

  /** A task sequence is sorted exactly when its creation times are. */
  lemma SortedIffTimesSorted(s: seq<TaskItem>)
    ensures Sorted(s) <==> TimesSorted(CreationTimes(s))
  {
    forall i, j | 0 <= i < j < |s| {
      CreatedBeforeIsRankLess(s[j], s[i]);
    }
  }

  /** Removing the element at `k` removes one occurrence of it. */
  lemma MultisetRemoveAt<T>(s: seq<T>, k: nat)
    requires k < |s|
    ensures multiset(s[..k] + s[k + 1..]) == multiset(s) - multiset{s[k]}
  {
    assert s == s[..k] + [s[k]] + s[k + 1..];
  }

  /** The creation times of `s`, split around position `k`. */
  lemma CreationTimesSplit(s: seq<TaskItem>, k: nat)
    requires k < |s|
    ensures CreationTimes(s) == CreationTimes(s[..k]) + [s[k].createdAt] + CreationTimes(s[k + 1..])
    ensures CreationTimes(s[..k] + s[k + 1..]) == CreationTimes(s[..k]) + CreationTimes(s[k + 1..])
  {
    CreationTimesAppend(s[..k], s[k + 1..]);
  }

  /** Permuting tasks permutes their creation times. */
  lemma {:induction false} PermutationKeepsTimes(r: seq<TaskItem>, s: seq<TaskItem>)
    requires multiset(r) == multiset(s)
    ensures multiset(CreationTimes(r)) == multiset(CreationTimes(s))
    decreases |r|
  {
    if r == [] {
      assert |s| == |multiset(s)| == 0;
    } else {
      var x := r[0];
      assert x in multiset(s);
      var k :| 0 <= k < |s| && s[k] == x;
      var rest := s[..k] + s[k + 1..];
      MultisetRemoveAt(s, k);
      MultisetRemoveAt(r, 0);
      assert r[..0] + r[1..] == r[1..];
      PermutationKeepsTimes(r[1..], rest);
      CreationTimesSplit(s, k);
      CreationTimesSplit(r, 0);
      assert r[..0] == [];
    }
  }

  /** Two sorted sequences of the same creation times are equal. */
  lemma {:induction false} SortedTimesUnique(a: seq<Option<Timestamp>>, b: seq<Option<Timestamp>>)
    requires TimesSorted(a) && TimesSorted(b)
    requires multiset(a) == multiset(b)
    ensures a == b
    decreases |a|
  {
    if a == [] {
      assert |b| == |multiset(b)| == 0;
    } else {
      assert |b| == |multiset(b)| == |multiset(a)| == |a|;
      assert a == [a[0]] + a[1..];
      assert b == [b[0]] + b[1..];
      assert a[0] in multiset(a);
      assert a[0] in b;
      var k :| 0 <= k < |b| && b[k] == a[0];
      assert !RankLess(Rank(a[0]), Rank(b[0]));
      assert b[0] in multiset(b);
      assert b[0] in a;
      var m :| 0 <= m < |a| && a[m] == b[0];
      assert !RankLess(Rank(b[0]), Rank(a[0]));
      RankInjective(a[0], b[0]);
      assert multiset(a[1..]) == multiset(a) - multiset{a[0]} == multiset(b) - multiset{b[0]} == multiset(b[1..]);
      SortedTimesUnique(a[1..], b[1..]);
    }
  }

  /** Any two legitimate sorts of the same input agree on the creation time at
      every position. */
  lemma SortedPermutationsAgree(s: seq<TaskItem>, r1: seq<TaskItem>, r2: seq<TaskItem>)
    requires IsSortedPermutation(s, r1) && IsSortedPermutation(s, r2)
    ensures CreationTimes(r1) == CreationTimes(r2)
  {
    SortedIffTimesSorted(r1);
    SortedIffTimesSorted(r2);
    PermutationKeepsTimes(r1, r2);
    SortedTimesUnique(CreationTimes(r1), CreationTimes(r2));
  }

  /** Sorting an already-sorted sequence gives a sorted permutation of it that
      has the same creation time at every position. The first ensures only
      restates the hypotheses from the result's side; the content is the
      second. */
  lemma ResortingSortedInput(s: seq<TaskItem>, r: seq<TaskItem>)
    requires Sorted(s)
    requires IsSortedPermutation(s, r)
    ensures IsSortedPermutation(r, r) && IsSortedPermutation(r, s)
    ensures CreationTimes(r) == CreationTimes(s)
  {
    SortedPermutationsAgree(s, r, s);
  }

  /** Loaded items A (created at 10), B (no creation time) and C (created at
      5) can only be reported as C, A, B. */
  lemma ThreeTaskScenario(a: TaskItem, b: TaskItem, c: TaskItem, r: seq<TaskItem>)
    requires a.createdAt == Some(10) && b.createdAt == None && c.createdAt == Some(5)
    requires IsSortedPermutation([a, b, c], r)
    ensures r == [c, a, b]
  {
    assert IsSortedPermutation([a, b, c], [c, a, b]);
    SortedPermutationsAgree([a, b, c], r, [c, a, b]);
    assert |r| == |multiset(r)| == 3;
    assert CreationTimes(r) == [Some(5), Some(10), None];
    forall i | 0 <= i < 3 ensures r[i] in [a, b, c] {
      assert r[i] in multiset(r);
    }
  }
}

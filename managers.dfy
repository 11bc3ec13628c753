/**
 * The branch-and-bound driver `Manager` of lib/classes.py. States are
 * explored first-in first-out; a state's children add one contract whose
 * number exceeds every number already in the state, so each subset of
 * contracts is reached at most once. `upper` is the penalty of every contract
 * not in a state, `cost` the part of it below the state's largest number
 * (contracts that can no longer be added on that branch).
 */
module Managers {
  import opened Wrappers
  import opened Intervals
  import opened Contracts
  import opened States

  // ---------------------------------------------------------------------------
  // Manager.__init__: the contracts sorted by ascending number (a stable sort)

  predicate SortedByNumber(cs: seq<Contract>) {
    forall i, j :: 0 <= i < j < |cs| ==> cs[i].contractNumber <= cs[j].contractNumber
  }

  /** Insert `c` before the first contract whose number is not smaller. */
  function InsertByNumber(c: Contract, sorted: seq<Contract>): (r: seq<Contract>)
    ensures multiset(r) == multiset(sorted) + multiset{c}
  {
    if sorted == [] then [c]
    else if c.contractNumber <= sorted[0].contractNumber then [c] + sorted
    else
      assert sorted == [sorted[0]] + sorted[1..];
      [sorted[0]] + InsertByNumber(c, sorted[1..])
  }

  lemma {:induction false} InsertByNumberSorted(c: Contract, sorted: seq<Contract>)
    requires SortedByNumber(sorted)
    ensures SortedByNumber(InsertByNumber(c, sorted))
    ensures sorted != [] ==> InsertByNumber(c, sorted)[0] in {c, sorted[0]}
  {
    if sorted != [] && c.contractNumber > sorted[0].contractNumber {
      var tail := InsertByNumber(c, sorted[1..]);
      InsertByNumberSorted(c, sorted[1..]);
      assert sorted[0].contractNumber <= tail[0].contractNumber by {
        if sorted[1..] != [] {
          assert tail[0] in {c, sorted[1..][0]};
        }
      }
      var r := [sorted[0]] + tail;
      forall i, j | 0 <= i < j < |r| ensures r[i].contractNumber <= r[j].contractNumber {
        assert r[j] == tail[j - 1];
        if i > 0 {
          assert r[i] == tail[i - 1];
        } else {
          assert tail[0].contractNumber <= tail[j - 1].contractNumber;
        }
      }
    }
  }

  /** The list a Manager keeps: a permutation of its input, sorted by number. */
  function SortByNumber(cs: seq<Contract>): (r: seq<Contract>)
    ensures multiset(r) == multiset(cs)
    ensures SortedByNumber(r)
  {
    if cs == [] then []
    else
      assert cs == [cs[0]] + cs[1..];
      InsertByNumberSorted(cs[0], SortByNumber(cs[1..]));
      InsertByNumber(cs[0], SortByNumber(cs[1..]))
  }

  /** Contract numbers are the positions 0..n-1 of the list, as `run` assumes. */
  predicate DenseNumbers(list: seq<Contract>) {
    forall i :: 0 <= i < |list| ==> list[i].contractNumber == i
  }

  /** Sorting leaves an already sorted list as it is. */
  lemma {:induction false} SortKeepsSortedList(cs: seq<Contract>)
    requires SortedByNumber(cs)
    ensures SortByNumber(cs) == cs
  {
    if cs != [] {
      SortKeepsSortedList(cs[1..]);
      assert cs == [cs[0]] + cs[1..];
    }
  }

  /**
   * A list numbered by its positions (as the web layer builds it, numbering
   * the contracts in request order) comes out of the sort unchanged, so the
   * manager's list has dense numbers.
   */
  lemma DenseListIsKept(cs: seq<Contract>)
    requires DenseNumbers(cs)
    ensures SortByNumber(cs) == cs
    ensures DenseNumbers(SortByNumber(cs))
  {
    SortKeepsSortedList(cs);
  }

  /** A list every contract of which occupies a non-empty range for a non-negative price. */
  ghost predicate WellFormedList(list: seq<Contract>) {
    && DenseNumbers(list)
    && (forall i :: 0 <= i < |list| ==> list[i].durationRange.start < list[i].durationRange.end)
    && (forall i :: 0 <= i < |list| ==> list[i].penalty >= 0)
  }

  // ---------------------------------------------------------------------------
  // The bounds of a child (lines 200-211)

  /** `set(contract_indexes)`. */
  function ContractIndexes(n: int): (r: set<int>)
    ensures forall i :: i in r <==> 0 <= i < n
    decreases n
  {
    if n <= 0 then {} else ContractIndexes(n - 1) + {n - 1}
  }

  /** The penalties of the listed contracts among the first `k`. */
  function PenaltySumBelow(list: seq<Contract>, indexes: set<int>, k: int): int
    requires 0 <= k <= |list|
    decreases k
  {
    if k == 0 then 0
    else PenaltySumBelow(list, indexes, k - 1) + (if k - 1 in indexes then list[k - 1].penalty else 0)
  }

  /** `sum(c.penalty for c in map(contracts_list.__getitem__, indexes))`. */
  function SumOfPenalties(list: seq<Contract>, indexes: set<int>): int {
    PenaltySumBelow(list, indexes, |list|)
  }

  /** `ub_idx`: every index except `idx` and those already in `s`. */
  function UpperIndexes(n: int, s: State, idx: int): set<int> {
    ContractIndexes(n) - {idx} - s.GetAllContractNumbers()
  }

  /** `c_idx`: the indexes of `ub_idx` below `idx`. */
  function CostIndexes(n: int, s: State, idx: int): set<int> {
    set i | i in UpperIndexes(n, s, idx) && i < idx
  }

  /** The child of `s` that adds contract `idx`, if its range is free. */
  function Child(list: seq<Contract>, s: State, idx: int): Option<State>
    requires 0 <= idx < |list|
  {
    s.AddContract(list[idx],
                  SumOfPenalties(list, UpperIndexes(|list|, s, idx)),
                  SumOfPenalties(list, CostIndexes(|list|, s, idx)))
  }

  /** The first index `possible_idx` holds: 0 for the empty state, else one past the largest number. */
  function FirstEligible(s: State): (first: int)
    ensures first >= 0
  {
    match s.GetMaxContractNumber()
    case None => 0
    case Some(m) => Max(0, m + 1)
  }

  /**
   * `possible_idx` (lines 186-189): an index is eligible exactly when it
   * exceeds every number already in the state.
   */
  lemma FirstEligibleExact(s: State, i: int)
    requires 0 <= i
    ensures FirstEligible(s) <= i <==> forall k :: 0 <= k < |s.contracts| ==> s.contracts[k].contractNumber < i
  {
    if s.contracts != [] {
      var m := s.GetMaxContractNumber().value;
      var k :| 0 <= k < |s.contracts| && s.contracts[k].contractNumber == m;
    }
  }

  function OptionToSeq(o: Option<State>): seq<State> {
    if o.Some? then [o.value] else []
  }

  /** The children for the indexes lo..hi-1, in increasing order of index. */
  function Children(list: seq<Contract>, s: State, lo: int, hi: int): seq<State>
    requires 0 <= lo && hi <= |list|
    decreases hi - lo
  {
    if hi <= lo then []
    else Children(list, s, lo, hi - 1) + OptionToSeq(Child(list, s, hi - 1))
  }

  /** Everything one pass of the `for idx in possible_idx` loop enqueues. */
  function Spawn(list: seq<Contract>, s: State): seq<State> {
    Children(list, s, FirstEligible(s), |list|)
  }

  // ---------------------------------------------------------------------------
  // Termination: a state whose first eligible index is f stands for at most
  // 2^(n-f) states of the search tree (itself and its descendants).

  function Pow2(k: int): (p: int)
    ensures p >= 1
    decreases k
  {
    if k <= 0 then 1 else 2 * Pow2(k - 1)
  }

  function Weight(n: int, s: State): int {
    Pow2(n - FirstEligible(s))
  }

  /** The weights of the first `k` queued states. */
  function WeightBelow(n: int, queue: seq<State>, k: int): (w: int)
    requires 0 <= k <= |queue|
    ensures w >= 0
    decreases k
  {
    if k == 0 then 0 else WeightBelow(n, queue, k - 1) + Weight(n, queue[k - 1])
  }

  function QueueWeight(n: int, queue: seq<State>): (w: int)
    ensures w >= 0
  {
    WeightBelow(n, queue, |queue|)
  }

  lemma {:induction false} WeightBelowPrefix(n: int, a: seq<State>, b: seq<State>, k: int)
    requires 0 <= k <= |a|
    ensures WeightBelow(n, a + b, k) == WeightBelow(n, a, k)
    decreases k
  {
    if k > 0 {
      WeightBelowPrefix(n, a, b, k - 1);
      assert (a + b)[k - 1] == a[k - 1];
    }
  }

  lemma {:induction false} WeightBelowSuffix(n: int, a: seq<State>, b: seq<State>, k: int)
    requires 0 <= k <= |b|
    ensures WeightBelow(n, a + b, |a| + k) == QueueWeight(n, a) + WeightBelow(n, b, k)
    decreases k
  {
    if k == 0 {
      WeightBelowPrefix(n, a, b, |a|);
    } else {
      WeightBelowSuffix(n, a, b, k - 1);
      assert (a + b)[|a| + k - 1] == b[k - 1];
    }
  }

  lemma QueueWeightAppend(n: int, a: seq<State>, b: seq<State>)
    ensures QueueWeight(n, a + b) == QueueWeight(n, a) + QueueWeight(n, b)
  {
    WeightBelowSuffix(n, a, b, |b|);
  }

  /** A queue weighs its head's weight plus its tail's. */
  lemma QueueWeightLast(n: int, queue: seq<State>)
    requires queue != []
    ensures QueueWeight(n, queue) == QueueWeight(n, queue[..|queue| - 1]) + Weight(n, queue[|queue| - 1])
  {
    var p := queue[..|queue| - 1];
    assert queue == p + [queue[|queue| - 1]];
    WeightBelowPrefix(n, p, [queue[|queue| - 1]], |p|);
  }

  lemma QueueWeightTail(n: int, queue: seq<State>)
    requires queue != []
    ensures QueueWeight(n, queue) == Weight(n, queue[0]) + QueueWeight(n, queue[1..])
  {
    assert queue == [queue[0]] + queue[1..];
    QueueWeightAppend(n, [queue[0]], queue[1..]);
  }

  /** Appending a contract numbered above all others makes its number the maximum. */
  lemma MaxNumberAppend(cs: seq<Contract>, c: Contract)
    requires forall i :: 0 <= i < |cs| ==> cs[i].contractNumber < c.contractNumber
    ensures MaxNumber(cs + [c]) == c.contractNumber
  {
    if cs != [] {
      assert (cs + [c])[..|cs|] == cs;
    }
  }

  /** A child's first eligible index is one past the index it added. */
  lemma ChildFirstEligible(list: seq<Contract>, s: State, idx: int)
    requires DenseNumbers(list)
    requires FirstEligible(s) <= idx < |list|
    requires Child(list, s, idx).Some?
    ensures Child(list, s, idx).value.GetMaxContractNumber() == Some(idx)
    ensures FirstEligible(Child(list, s, idx).value) == idx + 1
  {
    var t := Child(list, s, idx).value;
    assert forall i :: 0 <= i < |s.contracts| ==> s.contracts[i].contractNumber in s.GetAllContractNumbers();
    MaxNumberAppend(s.contracts, list[idx]);
  }

  /** The child for `idx`, if any, has `idx + 1` as its first eligible index. */
  lemma ChildOptionEligible(list: seq<Contract>, s: State, idx: int)
    requires DenseNumbers(list)
    requires FirstEligible(s) <= idx < |list|
    ensures Child(list, s, idx).Some? ==> FirstEligible(Child(list, s, idx).value) == idx + 1
  {
    if Child(list, s, idx).Some? {
      ChildFirstEligible(list, s, idx);
    }
  }

  /** The states of `q` have strictly increasing first eligible indexes, all in (lo, hi]. */
  ghost predicate EligibleWithin(q: seq<State>, lo: int, hi: int) {
    && (forall k :: 0 <= k < |q| ==> lo < FirstEligible(q[k]) <= hi)
    && (forall j, k :: 0 <= j < k < |q| ==> FirstEligible(q[j]) < FirstEligible(q[k]))
  }

  lemma EligibleAppend(before: seq<State>, o: Option<State>, lo: int, hi: int)
    requires lo < hi
    requires EligibleWithin(before, lo, hi - 1)
    requires o.Some? ==> FirstEligible(o.value) == hi
    ensures EligibleWithin(before + OptionToSeq(o), lo, hi)
  {
    var q := before + OptionToSeq(o);
    forall k | 0 <= k < |q| ensures lo < FirstEligible(q[k]) <= hi {
      if k < |before| {
        assert q[k] == before[k];
      }
    }
    forall j, k | 0 <= j < k < |q| ensures FirstEligible(q[j]) < FirstEligible(q[k]) {
      assert q[j] == before[j];
      if k < |before| {
        assert q[k] == before[k];
      }
    }
  }

  /** Dropping the last state leaves the others below its index. */
  lemma EligibleInit(q: seq<State>, lo: int, hi: int)
    requires q != [] && EligibleWithin(q, lo, hi)
    ensures EligibleWithin(q[..|q| - 1], lo, FirstEligible(q[|q| - 1]) - 1)
  {
    var p := q[..|q| - 1];
    forall k | 0 <= k < |p| ensures lo < FirstEligible(p[k]) <= FirstEligible(q[|q| - 1]) - 1 {
      assert p[k] == q[k];
    }
    forall j, k | 0 <= j < k < |p| ensures FirstEligible(p[j]) < FirstEligible(p[k]) {
      assert p[j] == q[j] && p[k] == q[k];
    }
  }

  /** The children for the indexes lo..hi-1 are ordered by first eligible index, all in (lo, hi]. */
  lemma ChildrenEligible(list: seq<Contract>, s: State, lo: int, hi: int)
    requires DenseNumbers(list)
    requires FirstEligible(s) <= lo <= hi <= |list|
    ensures EligibleWithin(Children(list, s, lo, hi), lo, hi)
  {
    forall idx | lo <= idx < hi
      ensures Child(list, s, idx).Some? ==> FirstEligible(Child(list, s, idx).value) == idx + 1
    {
      ChildOptionEligible(list, s, idx);
    }
    ChildrenEligibleFrom(list, s, lo, hi);
  }

  lemma {:induction false} ChildrenEligibleFrom(list: seq<Contract>, s: State, lo: int, hi: int)
    requires 0 <= lo <= hi <= |list|
    requires forall idx :: lo <= idx < hi ==>
               Child(list, s, idx).Some? ==> FirstEligible(Child(list, s, idx).value) == idx + 1
    ensures EligibleWithin(Children(list, s, lo, hi), lo, hi)
    decreases hi - lo
  {
    if lo < hi {
      ChildrenEligibleFrom(list, s, lo, hi - 1);
      EligibleAppend(Children(list, s, lo, hi - 1), Child(list, s, hi - 1), lo, hi);
    }
  }

  lemma {:induction false} Pow2Monotone(a: int, b: int)
    requires a <= b
    ensures Pow2(a) <= Pow2(b)
    decreases b - a
  {
    if a < b {
      Pow2Monotone(a, b - 1);
    }
  }

  /**
   * A queue whose first eligible indexes increase strictly within (lo, hi]
   * weighs at most 2^(n-lo) - 2^(n-hi): a sum of distinct powers of two
   * below 2^(n-lo).
   */
  lemma {:induction false} WeightWithin(n: int, q: seq<State>, lo: int, hi: int)
    requires lo <= hi <= n
    requires EligibleWithin(q, lo, hi)
    ensures QueueWeight(n, q) + Pow2(n - hi) <= Pow2(n - lo)
    decreases |q|
  {
    if q == [] {
      Pow2Monotone(n - hi, n - lo);
    } else {
      var f := FirstEligible(q[|q| - 1]);
      EligibleInit(q, lo, hi);
      WeightWithin(n, q[..|q| - 1], lo, f - 1);
      QueueWeightLast(n, q);
      PowerBudget(n, QueueWeight(n, q[..|q| - 1]), lo, f, hi);
    }
  }

  /** Such a queue with hi = n weighs less than 2^(n-lo). */
  lemma WeightBelowFirst(n: int, q: seq<State>, lo: int)
    requires EligibleWithin(q, lo, n)
    ensures QueueWeight(n, q) < Pow2(n - lo)
  {
    if q == [] {
      assert QueueWeight(n, q) == 0;
    } else {
      assert lo < FirstEligible(q[0]) <= n;
      WeightWithin(n, q, lo, n);
      assert Pow2(n - n) == 1;
    }
  }

  /** Spending 2^(n-f) out of a budget that leaves 2^(n-f+1) still leaves 2^(n-hi) for f <= hi. */
  lemma PowerBudget(n: int, spent: int, lo: int, f: int, hi: int)
    requires lo < f <= hi <= n
    requires spent + Pow2(n - (f - 1)) <= Pow2(n - lo)
    ensures spent + Pow2(n - f) + Pow2(n - hi) <= Pow2(n - lo)
  {
    Pow2Step(n - f);
    assert n - (f - 1) == n - f + 1;
    Pow2Monotone(n - hi, n - f);
  }

  lemma Pow2Step(k: int)
    requires k >= 0
    ensures Pow2(k + 1) == 2 * Pow2(k)
  {
  }

  /** The children of a state enter the queue in increasing first eligible index, all above its own. */
  lemma SpawnEligible(list: seq<Contract>, s: State)
    requires DenseNumbers(list)
    ensures EligibleWithin(Spawn(list, s), FirstEligible(s), |list|)
  {
    if FirstEligible(s) <= |list| {
      ChildrenEligible(list, s, FirstEligible(s), |list|);
    } else {
      assert Spawn(list, s) == [];
    }
  }

  /** The children of a state weigh strictly less than the state itself. */
  lemma SpawnWeight(list: seq<Contract>, s: State)
    requires DenseNumbers(list)
    ensures QueueWeight(|list|, Spawn(list, s)) < Weight(|list|, s)
  {
    SpawnEligible(list, s);
    WeightBelowFirst(|list|, Spawn(list, s), FirstEligible(s));
  }

  // ---------------------------------------------------------------------------
  // Manager.run as a function: the reference the method is proved against

  /** The `while` loop of `run` from a given queue, bound and incumbent. */
  function RunLoop(list: seq<Contract>, queue: seq<State>, globalUpper: int, optimal: State): State
    requires DenseNumbers(list)
    decreases QueueWeight(|list|, queue)
  {
    if |queue| == 0 then optimal
    else
      var current := queue[0];
      QueueWeightTail(|list|, queue);
      if current.cost > globalUpper then RunLoop(list, queue[1..], globalUpper, optimal)
      else
        var improves := current.upper < globalUpper;
        SpawnWeight(list, current);
        QueueWeightAppend(|list|, queue[1..], Spawn(list, current));
        RunLoop(list, queue[1..] + Spawn(list, current),
                if improves then current.upper else globalUpper,
                if improves then current else optimal)
  }

  /** `run`: start from the empty state as the only queued state and the incumbent. */
  function RunSpec(list: seq<Contract>): State
    requires DenseNumbers(list)
  {
    RunLoop(list, [InitialState()], InitialState().upper, InitialState())
  }

  /**
   * The values the global upper bound of the loop of `run` is lowered to, in
   * order: one entry for every head of the queue that becomes the incumbent.
   */
  ghost function RunUppers(list: seq<Contract>, queue: seq<State>, globalUpper: int, optimal: State): seq<int>
    requires DenseNumbers(list)
    decreases QueueWeight(|list|, queue)
  {
    if |queue| == 0 then []
    else
      var current := queue[0];
      QueueWeightTail(|list|, queue);
      if current.cost > globalUpper then RunUppers(list, queue[1..], globalUpper, optimal)
      else
        var improves := current.upper < globalUpper;
        SpawnWeight(list, current);
        QueueWeightAppend(|list|, queue[1..], Spawn(list, current));
        var rest := RunUppers(list, queue[1..] + Spawn(list, current),
                              if improves then current.upper else globalUpper,
                              if improves then current else optimal);
        if improves then [current.upper] + rest else rest
  }

  /** From any queue the loop only lowers the global upper bound, strictly each time. */
  lemma {:induction false} RunUppersDecrease(list: seq<Contract>, queue: seq<State>, globalUpper: int, optimal: State)
    requires DenseNumbers(list)
    ensures var u := RunUppers(list, queue, globalUpper, optimal);
            && (forall i :: 0 <= i < |u| ==> u[i] < globalUpper)
            && StrictlyDecreasing(u)
    decreases QueueWeight(|list|, queue)
  {
    if |queue| > 0 {
      var current := queue[0];
      if current.cost > globalUpper {
        QueueWeightTail(|list|, queue);
        RunUppersPruned(list, queue, globalUpper, optimal);
        RunUppersDecrease(list, queue[1..], globalUpper, optimal);
      } else {
        var next := queue[1..] + Spawn(list, current);
        ExpandedWeight(list, queue, next);
        RunUppersExpanded(list, queue, globalUpper, optimal);
        if current.upper < globalUpper {
          RunUppersDecrease(list, next, current.upper, current);
          DecreasingPrepended(RunUppers(list, next, current.upper, current), current.upper);
        } else {
          RunUppersDecrease(list, next, globalUpper, optimal);
        }
      }
    }
  }

  /**
   * The loop returns its incumbent when it never lowers the bound, and
   * otherwise a state whose upper value is the last bound it set.
   */
  lemma {:induction false} RunUppersLast(list: seq<Contract>, queue: seq<State>, globalUpper: int, optimal: State)
    requires DenseNumbers(list)
    ensures var u := RunUppers(list, queue, globalUpper, optimal);
            && (u == [] ==> RunLoop(list, queue, globalUpper, optimal) == optimal)
            && (u != [] ==> RunLoop(list, queue, globalUpper, optimal).upper == u[|u| - 1])
    decreases QueueWeight(|list|, queue)
  {
    if |queue| > 0 {
      var current := queue[0];
      if current.cost > globalUpper {
        RunLoopPruned(list, queue, globalUpper, optimal);
        RunUppersPruned(list, queue, globalUpper, optimal);
        RunUppersLast(list, queue[1..], globalUpper, optimal);
      } else {
        var next := queue[1..] + Spawn(list, current);
        ExpandedWeight(list, queue, next);
        RunLoopExpanded(list, queue, globalUpper, optimal);
        RunUppersExpanded(list, queue, globalUpper, optimal);
        if current.upper < globalUpper {
          RunUppersLast(list, next, current.upper, current);
          LastOfPrepended(RunUppers(list, next, current.upper, current), current.upper);
        } else {
          RunUppersLast(list, next, globalUpper, optimal);
        }
      }
    }
  }

  lemma LastOfPrepended(g: seq<int>, x: int)
    ensures ([x] + g)[|g|] == if g == [] then x else g[|g| - 1]
  {
  }

  /** `run` lowers its bound from 2^128 - 1 strictly each time, and returns a state with the final bound as its upper value. */
  lemma RunSpecUppers(list: seq<Contract>)
    requires DenseNumbers(list)
    ensures var g := [Unbounded] + RunUppers(list, [InitialState()], Unbounded, InitialState());
            && StrictlyDecreasing(g)
            && RunSpec(list).upper == g[|g| - 1]
  {
    var u := RunUppers(list, [InitialState()], Unbounded, InitialState());
    RunUppersDecrease(list, [InitialState()], Unbounded, InitialState());
    RunUppersLast(list, [InitialState()], Unbounded, InitialState());
    DecreasingPrepended(u, Unbounded);
  }

  /** A value above every entry of a strictly decreasing sequence can head it. */
  lemma DecreasingPrepended(g: seq<int>, x: int)
    requires StrictlyDecreasing(g)
    requires forall i :: 0 <= i < |g| ==> g[i] < x
    ensures StrictlyDecreasing([x] + g)
  {
    forall i, j | 0 <= i < j < |g| + 1 ensures ([x] + g)[j] < ([x] + g)[i] {
      assert ([x] + g)[j] == g[j - 1];
      if i > 0 {
        assert ([x] + g)[i] == g[i - 1];
      }
    }
  }

  /** One pass of the loop on a state that is pruned. */
  lemma RunLoopPruned(list: seq<Contract>, queue: seq<State>, globalUpper: int, optimal: State)
    requires DenseNumbers(list)
    requires |queue| > 0 && queue[0].cost > globalUpper
    ensures RunLoop(list, queue, globalUpper, optimal) == RunLoop(list, queue[1..], globalUpper, optimal)
    ensures QueueWeight(|list|, queue[1..]) < QueueWeight(|list|, queue)
  {
    QueueWeightTail(|list|, queue);
  }

  /** One pass of the loop on a state that is expanded. */
  lemma RunLoopExpanded(list: seq<Contract>, queue: seq<State>, globalUpper: int, optimal: State)
    requires DenseNumbers(list)
    requires |queue| > 0 && queue[0].cost <= globalUpper
    ensures var current := queue[0];
            var improves := current.upper < globalUpper;
            RunLoop(list, queue, globalUpper, optimal)
              == RunLoop(list, queue[1..] + Spawn(list, current),
                         if improves then current.upper else globalUpper,
                         if improves then current else optimal)
  {
  }

  /** The bound history of a pass on a pruned head. */
  lemma RunUppersPruned(list: seq<Contract>, queue: seq<State>, globalUpper: int, optimal: State)
    requires DenseNumbers(list)
    requires |queue| > 0 && queue[0].cost > globalUpper
    ensures RunUppers(list, queue, globalUpper, optimal) == RunUppers(list, queue[1..], globalUpper, optimal)
  {
  }

  /** The bound history of a pass on an expanded head: its upper value first, when it improves. */
  lemma RunUppersExpanded(list: seq<Contract>, queue: seq<State>, globalUpper: int, optimal: State)
    requires DenseNumbers(list)
    requires |queue| > 0 && queue[0].cost <= globalUpper
    ensures var current := queue[0];
            var next := queue[1..] + Spawn(list, current);
            && (current.upper < globalUpper ==>
                  RunUppers(list, queue, globalUpper, optimal) == [current.upper] + RunUppers(list, next, current.upper, current))
            && (current.upper >= globalUpper ==>
                  RunUppers(list, queue, globalUpper, optimal) == RunUppers(list, next, globalUpper, optimal))
  {
  }

  /** One pass of the loop extends a recorded bound history `h` consistently with `RunUppers`. */
  lemma HistoryPass(list: seq<Contract>, h: seq<int>, queue: seq<State>, globalUpper: int, optimal: State)
    requires DenseNumbers(list)
    requires |queue| > 0
    ensures var current := queue[0];
            var next := queue[1..] + Spawn(list, current);
            var whole := h + RunUppers(list, queue, globalUpper, optimal);
            if current.cost > globalUpper then whole == h + RunUppers(list, queue[1..], globalUpper, optimal)
            else if current.upper < globalUpper then whole == (h + [current.upper]) + RunUppers(list, next, current.upper, current)
            else whole == h + RunUppers(list, next, globalUpper, optimal)
  {
    var current := queue[0];
    if current.cost > globalUpper {
      RunUppersPruned(list, queue, globalUpper, optimal);
    } else {
      var next := queue[1..] + Spawn(list, current);
      RunUppersExpanded(list, queue, globalUpper, optimal);
      if current.upper < globalUpper {
        AppendAssoc(h, [current.upper], RunUppers(list, next, current.upper, current));
      }
    }
  }

  /** Every later entry is strictly below every earlier one. */
  predicate StrictlyDecreasing(g: seq<int>) {
    forall i, j :: 0 <= i < j < |g| ==> g[j] < g[i]
  }

  /** Appending an empty queue changes nothing. */
  lemma AppendNothing<X>(a: seq<X>, b: seq<X>)
    requires b == []
    ensures a + b == a
  {
  }

  /** Concatenation is associative (stated once, generically, to keep element types out of the proof). */
  lemma AppendAssoc<X>(a: seq<X>, b: seq<X>, c: seq<X>)
    ensures (a + b) + c == a + (b + c)
  {
  }

  /** One more index extends the queue by that index's child, if any. */
  lemma ChildrenStep(list: seq<Contract>, s: State, lo: int, idx: int, queue: seq<State>, q: seq<State>)
    requires 0 <= lo <= idx < |list|
    requires q == queue + Children(list, s, lo, idx)
    ensures q + OptionToSeq(Child(list, s, idx)) == queue + Children(list, s, lo, idx + 1)
  {
    var before := Children(list, s, lo, idx);
    var next := OptionToSeq(Child(list, s, idx));
    assert Children(list, s, lo, idx + 1) == before + next;
    AppendAssoc(queue, before, next);
  }

  /** Expanding the head of the queue lowers the queue's weight. */
  lemma ExpandedWeight(list: seq<Contract>, queue: seq<State>, next: seq<State>)
    requires DenseNumbers(list)
    requires |queue| > 0 && next == queue[1..] + Spawn(list, queue[0])
    ensures QueueWeight(|list|, next) < QueueWeight(|list|, queue)
  {
    SpawnWeight(list, queue[0]);
    QueueWeightTail(|list|, queue);
    QueueWeightAppend(|list|, queue[1..], Spawn(list, queue[0]));
  }

  class Manager {
    const contractsList: seq<Contract>

    /** `Manager.__init__`: keep the contracts sorted by ascending number. */
    constructor (contracts: seq<Contract>)
      ensures contractsList == SortByNumber(contracts)
      ensures multiset(contractsList) == multiset(contracts)
      ensures SortedByNumber(contractsList)
    {
      contractsList := SortByNumber(contracts);
    }

    /**
     * The bounds one iteration of the `for idx in possible_idx` loop computes:
     * `current_upper` sums the penalties of every other contract not yet chosen,
     * `current_cost` those of them that come before `idx`.
     */
    method Bounds(currentState: State, idx: int, contractIndexes: set<int>) returns (currentUpper: int, currentCost: int)
      requires 0 <= idx < |contractsList|
      requires contractIndexes == ContractIndexes(|contractsList|)
      ensures currentUpper == SumOfPenalties(contractsList, UpperIndexes(|contractsList|, currentState, idx))
      ensures currentCost == SumOfPenalties(contractsList, CostIndexes(|contractsList|, currentState, idx))
    {
      var ubIdx := contractIndexes - {idx};
      ubIdx := ubIdx - currentState.GetAllContractNumbers();
      currentUpper := SumOfPenalties(contractsList, ubIdx);

      var cIdx := contractIndexes - {idx};
      cIdx := cIdx - currentState.GetAllContractNumbers();
      cIdx := set i | i in cIdx && i < idx;
      currentCost := SumOfPenalties(contractsList, cIdx);
      assert ubIdx == UpperIndexes(|contractsList|, currentState, idx);
      assert cIdx == CostIndexes(|contractsList|, currentState, idx);
    }

    /**
     * The `for idx in possible_idx` loop of `Manager.run`: try every contract
     * from index `first` on, with the bounds the source computes, and queue each
     * state `AddContract` accepts, in index order.
     */
    method SpawnStates(currentState: State, first: int, contractIndexes: set<int>, queue: seq<State>)
        returns (unprocessedStates: seq<State>)
      requires 0 <= first <= |contractsList|
      requires contractIndexes == ContractIndexes(|contractsList|)
      ensures unprocessedStates == queue + Children(contractsList, currentState, first, |contractsList|)
    {
      unprocessedStates := queue;
      var idx := first;
      while idx < |contractsList|
        invariant first <= idx <= |contractsList|
        invariant unprocessedStates == queue + Children(contractsList, currentState, first, idx)
      {
        var selectedContract := contractsList[idx];
        var currentUpper, currentCost := Bounds(currentState, idx, contractIndexes);
        var newState := currentState.AddContract(selectedContract, currentUpper, currentCost);
        ChildrenStep(contractsList, currentState, first, idx, queue, unprocessedStates);
        if newState.Some? {
          unprocessedStates := unprocessedStates + [newState.value];
        }
        idx := idx + 1;
      }
    }

    /**
     * The "spawning sub nodes" part of the loop body of `Manager.run`: the
     * indexes above the state's largest contract number, if any are left,
     * each tried in turn.
     */
    method SpawnSubNodes(currentState: State, contractIndexes: set<int>, queue: seq<State>)
        returns (unprocessedStates: seq<State>)
      requires contractIndexes == ContractIndexes(|contractsList|)
      ensures unprocessedStates == queue + Spawn(contractsList, currentState)
    {
      var currentContractNumber := currentState.GetMaxContractNumber();
      var first := if currentContractNumber.None? then 0 else Max(0, currentContractNumber.value + 1);
      assert first == FirstEligible(currentState);
      if first >= |contractsList| {
        AppendNothing(queue, Spawn(contractsList, currentState));
        return queue;
      }
      unprocessedStates := SpawnStates(currentState, first, contractIndexes, queue);
    }

    /** `Manager.run`. */
    method Run() returns (optimalState: State, ghost globalUppers: seq<int>)
      requires DenseNumbers(contractsList)
      ensures optimalState == RunSpec(contractsList)
      ensures globalUppers == [Unbounded] + RunUppers(contractsList, [InitialState()], Unbounded, InitialState())
      ensures StrictlyDecreasing(globalUppers)
      ensures optimalState.upper == globalUppers[|globalUppers| - 1]
    {
      var n := |contractsList|;
      var unprocessedStates: seq<State> := [];
      var contractIndexes := ContractIndexes(n);
      var initialState := InitialState();
      var globalUpper := initialState.upper;
      unprocessedStates := unprocessedStates + [initialState];
      var optimal := initialState;
      globalUppers := [globalUpper];
      assert unprocessedStates == [InitialState()];

      while |unprocessedStates| > 0
        invariant RunLoop(contractsList, unprocessedStates, globalUpper, optimal) == RunSpec(contractsList)
        invariant globalUppers + RunUppers(contractsList, unprocessedStates, globalUpper, optimal)
                    == [Unbounded] + RunUppers(contractsList, [InitialState()], Unbounded, InitialState())
        decreases QueueWeight(|contractsList|, unprocessedStates)
      {
        ghost var queue := unprocessedStates;
        var currentState := unprocessedStates[0];
        unprocessedStates := unprocessedStates[1..];

        if currentState.cost > globalUpper {
          RunLoopPruned(contractsList, queue, globalUpper, optimal);
          HistoryPass(contractsList, globalUppers, queue, globalUpper, optimal);
          continue;
        }
        RunLoopExpanded(contractsList, queue, globalUpper, optimal);
        HistoryPass(contractsList, globalUppers, queue, globalUpper, optimal);
        if currentState.upper < globalUpper {
          globalUpper := currentState.upper;
          optimal := currentState;
          globalUppers := globalUppers + [globalUpper];
        }

        unprocessedStates := SpawnSubNodes(currentState, contractIndexes, unprocessedStates);
        ExpandedWeight(contractsList, queue, unprocessedStates);
      }
      optimalState := optimal;
      RunSpecUppers(contractsList);
    }
  }
}

/**
 * What every state the search of `Manager.run` creates keeps true, and what
 * that says about the state `run` returns: its contracts are distinct entries
 * of the manager's list in increasing number order, their ranges do not
 * overlap, its occupied list is a sorted rearrangement of their ranges, and
 * (once a contract is chosen) `upper` is the penalty of every contract left
 * out, `cost` the part of it below the last chosen number, so that
 * `upper + income == total penalty` and `cost <= upper`.
 */
module Soundness {
  import opened Intervals
  import opened Contracts
  import opened States
  import opened Managers

  /** The numbers of the chosen contracts strictly increase. */
  predicate NumbersIncreasing(cs: seq<Contract>) {
    forall i, j :: 0 <= i < j < |cs| ==> cs[i].contractNumber < cs[j].contractNumber
  }

  /** Every chosen contract is the list's entry at its own number. */
  predicate Drawn(list: seq<Contract>, cs: seq<Contract>) {
    forall i :: 0 <= i < |cs| ==> 0 <= cs[i].contractNumber < |list| && list[cs[i].contractNumber] == cs[i]
  }

  /** The indexes of the contracts a state leaves out. */
  function Unchosen(list: seq<Contract>, s: State): set<int> {
    ContractIndexes(|list|) - s.GetAllContractNumbers()
  }

  /** The left-out contracts no descendant of the state can still add. */
  function Skipped(list: seq<Contract>, s: State): set<int> {
    set i | i in Unchosen(list, s) && i < FirstEligible(s)
  }

  /** The prices of the chosen contracts, summed. */
  function Income(cs: seq<Contract>): int {
    if cs == [] then 0 else Income(cs[..|cs| - 1]) + cs[|cs| - 1].penalty
  }

  /** The invariant of every state in the queue and of the incumbent. */
  ghost predicate Good(list: seq<Contract>, s: State) {
    && ValidOccupied(s.occupiedDurations)
    && multiset(s.occupiedDurations) == multiset(Ranges(s.contracts))
    && ContractsDisjoint(s.contracts)
    && NumbersIncreasing(s.contracts)
    && Drawn(list, s.contracts)
    && s.cost == SumOfPenalties(list, Skipped(list, s))
    && s.upper == (if s.contracts == [] then Unbounded else SumOfPenalties(list, Unchosen(list, s)))
  }

  ghost predicate AllGood(list: seq<Contract>, q: seq<State>) {
    forall k :: 0 <= k < |q| ==> Good(list, q[k])
  }

  // ---------------------------------------------------------------------------
  // Sums of penalties over sets of indexes

  lemma {:induction false} PenaltySumOutside(list: seq<Contract>, a: set<int>, k: int)
    requires 0 <= k <= |list|
    requires forall i :: i in a ==> i < 0 || i >= k
    ensures PenaltySumBelow(list, a, k) == 0
    decreases k
  {
    if k > 0 {
      PenaltySumOutside(list, a, k - 1);
    }
  }

  /** The sum over a union of disjoint sets is the sum of the sums. */
  lemma {:induction false} PenaltySumSplit(list: seq<Contract>, a: set<int>, b: set<int>, k: int)
    requires 0 <= k <= |list|
    requires a !! b
    ensures PenaltySumBelow(list, a + b, k) == PenaltySumBelow(list, a, k) + PenaltySumBelow(list, b, k)
    decreases k
  {
    if k > 0 {
      PenaltySumSplit(list, a, b, k - 1);
    }
  }

  /** With non-negative penalties a larger set sums to at least as much. */
  lemma {:induction false} PenaltySumMono(list: seq<Contract>, a: set<int>, b: set<int>, k: int)
    requires 0 <= k <= |list|
    requires a <= b
    requires forall i :: 0 <= i < |list| ==> list[i].penalty >= 0
    ensures PenaltySumBelow(list, a, k) <= PenaltySumBelow(list, b, k)
    decreases k
  {
    if k > 0 {
      PenaltySumMono(list, a, b, k - 1);
    }
  }

  lemma {:induction false} PenaltySumSingleton(list: seq<Contract>, x: int, k: int)
    requires 0 <= x < k <= |list|
    ensures PenaltySumBelow(list, {x}, k) == list[x].penalty
    decreases k
  {
    if x < k - 1 {
      PenaltySumSingleton(list, x, k - 1);
    } else {
      PenaltySumOutside(list, {x}, k - 1);
    }
  }

  // ---------------------------------------------------------------------------
  // Facts about one appended contract

  /** Appending a contract adds its number to the number set. */
  lemma NumbersAppend(s: State, t: State, c: Contract)
    requires t.contracts == s.contracts + [c]
    ensures t.GetAllContractNumbers() == s.GetAllContractNumbers() + {c.contractNumber}
  {
    var left := t.GetAllContractNumbers();
    var right := s.GetAllContractNumbers() + {c.contractNumber};
    forall x | x in left ensures x in right {
      var i :| 0 <= i < |t.contracts| && t.contracts[i].contractNumber == x;
      if i < |s.contracts| {
        assert t.contracts[i] == s.contracts[i];
      }
    }
    forall x | x in right ensures x in left {
      if x != c.contractNumber {
        var i :| 0 <= i < |s.contracts| && s.contracts[i].contractNumber == x;
        assert t.contracts[i] == s.contracts[i];
      } else {
        assert t.contracts[|s.contracts|] == c;
      }
    }
  }

  /** Every number already in a state lies below its first eligible index. */
  lemma BelowFirstEligible(s: State)
    ensures forall i :: 0 <= i < |s.contracts| ==> s.contracts[i].contractNumber < FirstEligible(s)
  {
  }

  /** The income of a state is the penalty sum over its number set. */
  lemma {:induction false} IncomeIsChosenPenalty(list: seq<Contract>, s: State)
    requires NumbersIncreasing(s.contracts) && Drawn(list, s.contracts)
    ensures Income(s.contracts) == SumOfPenalties(list, s.GetAllContractNumbers())
    decreases |s.contracts|
  {
    var cs := s.contracts;
    if cs == [] {
      PenaltySumOutside(list, s.GetAllContractNumbers(), |list|);
    } else {
      var c := cs[|cs| - 1];
      var p := State(cs[..|cs| - 1], [], 0, 0);
      assert cs == p.contracts + [c];
      assert forall i :: 0 <= i < |p.contracts| ==> p.contracts[i] == cs[i];
      IncomeIsChosenPenalty(list, p);
      NumbersAppend(p, s, c);
      assert c.contractNumber !in p.GetAllContractNumbers();
      PenaltySumSplit(list, p.GetAllContractNumbers(), {c.contractNumber}, |list|);
      PenaltySumSingleton(list, c.contractNumber, |list|);
    }
  }

  /** The chosen numbers and the left-out indexes split the whole list. */
  lemma UpperPlusIncome(list: seq<Contract>, s: State)
    requires Good(list, s) && s.contracts != []
    ensures s.upper + Income(s.contracts) == SumOfPenalties(list, ContractIndexes(|list|))
  {
    var nums := s.GetAllContractNumbers();
    assert nums <= ContractIndexes(|list|);
    assert ContractIndexes(|list|) == Unchosen(list, s) + nums;
    PenaltySumSplit(list, Unchosen(list, s), nums, |list|);
    IncomeIsChosenPenalty(list, s);
  }

  /** The lower bound of a state never exceeds its upper bound. */
  lemma CostAtMostUpper(list: seq<Contract>, s: State)
    requires WellFormedList(list) && Good(list, s)
    ensures s.cost <= s.upper
  {
    if s.contracts == [] {
      assert Skipped(list, s) == {};
      PenaltySumOutside(list, {}, |list|);
    } else {
      PenaltySumMono(list, Skipped(list, s), Unchosen(list, s), |list|);
    }
  }

  // ---------------------------------------------------------------------------
  // The invariant holds for the root and is passed on to every child

  lemma RootGood(list: seq<Contract>)
    ensures Good(list, InitialState())
  {
    var r := InitialState();
    assert Skipped(list, r) == {};
    PenaltySumOutside(list, {}, |list|);
  }

  /** The child's contracts are disjoint: the new range conflicts with no occupied one. */
  lemma ExtendedDisjoint(s: State, c: Contract, t: State)
    requires multiset(s.occupiedDurations) == multiset(Ranges(s.contracts))
    requires ContractsDisjoint(s.contracts)
    requires !Conflicts(s.occupiedDurations, c.durationRange)
    requires t.contracts == s.contracts + [c]
    ensures ContractsDisjoint(t.contracts)
  {
    forall i, j | 0 <= i < j < |t.contracts|
      ensures !IsOverlaps(t.contracts[i].durationRange, t.contracts[j].durationRange)
    {
      if j == |s.contracts| {
        var d := s.contracts[i].durationRange;
        assert Ranges(s.contracts)[i] == d;
        assert d in multiset(s.occupiedDurations);
        var k :| 0 <= k < |s.occupiedDurations| && s.occupiedDurations[k] == d;
      } else {
        assert t.contracts[i] == s.contracts[i] && t.contracts[j] == s.contracts[j];
      }
    }
  }

  /** The child's numbers still increase and its contracts come from the list. */
  lemma ExtendedNumbers(list: seq<Contract>, s: State, idx: int, t: State)
    requires DenseNumbers(list)
    requires NumbersIncreasing(s.contracts) && Drawn(list, s.contracts)
    requires FirstEligible(s) <= idx < |list|
    requires t.contracts == s.contracts + [list[idx]]
    ensures NumbersIncreasing(t.contracts) && Drawn(list, t.contracts)
  {
    BelowFirstEligible(s);
    assert forall i :: 0 <= i < |s.contracts| ==> t.contracts[i] == s.contracts[i];
  }

  /** The bounds `run` computes for a child are its left-out and skipped penalties. */
  lemma ExtendedBounds(list: seq<Contract>, s: State, idx: int, t: State)
    requires 0 <= idx < |list|
    requires t.contracts == s.contracts + [list[idx]] && list[idx].contractNumber == idx
    requires FirstEligible(t) == idx + 1
    requires t.upper == SumOfPenalties(list, UpperIndexes(|list|, s, idx))
    requires t.cost == SumOfPenalties(list, CostIndexes(|list|, s, idx))
    ensures t.upper == SumOfPenalties(list, Unchosen(list, t))
    ensures t.cost == SumOfPenalties(list, Skipped(list, t))
  {
    NumbersAppend(s, t, list[idx]);
    assert Unchosen(list, t) == UpperIndexes(|list|, s, idx);
    assert Skipped(list, t) == CostIndexes(|list|, s, idx);
  }

  lemma ChildGood(list: seq<Contract>, s: State, idx: int)
    requires WellFormedList(list) && Good(list, s)
    requires FirstEligible(s) <= idx < |list|
    requires Child(list, s, idx).Some?
    ensures Good(list, Child(list, s, idx).value)
  {
    var c := list[idx];
    var u := SumOfPenalties(list, UpperIndexes(|list|, s, idx));
    var k := SumOfPenalties(list, CostIndexes(|list|, s, idx));
    var t := s.AddContract(c, u, k).value;
    AddContractExact(s, c, u, k);
    AddContractOccupies(s, c, u, k);
    ExtendedDisjoint(s, c, t);
    ExtendedNumbers(list, s, idx, t);
    ChildFirstEligible(list, s, idx);
    ExtendedBounds(list, s, idx, t);
  }

  /** The child for one index, if any, as a queue of good states. */
  lemma ChildOptionGood(list: seq<Contract>, s: State, idx: int)
    requires WellFormedList(list) && Good(list, s)
    requires FirstEligible(s) <= idx < |list|
    ensures AllGood(list, OptionToSeq(Child(list, s, idx)))
  {
    if Child(list, s, idx).Some? {
      ChildGood(list, s, idx);
    }
  }

  lemma AllGoodAppend(list: seq<Contract>, a: seq<State>, b: seq<State>)
    requires AllGood(list, a) && AllGood(list, b)
    ensures AllGood(list, a + b)
  {
    forall k | 0 <= k < |a + b| ensures Good(list, (a + b)[k]) {
      if k < |a| {
        assert (a + b)[k] == a[k];
      } else {
        assert (a + b)[k] == b[k - |a|];
      }
    }
  }

  lemma AllGoodTail(list: seq<Contract>, q: seq<State>)
    requires AllGood(list, q) && q != []
    ensures Good(list, q[0]) && AllGood(list, q[1..])
  {
    forall k | 0 <= k < |q[1..]| ensures Good(list, q[1..][k]) {
      assert q[1..][k] == q[k + 1];
    }
  }

  /** The invariant holds for the children of a state it holds for. */
  lemma ChildrenGood(list: seq<Contract>, s: State, lo: int, hi: int)
    requires WellFormedList(list) && Good(list, s)
    requires FirstEligible(s) <= lo <= hi <= |list|
    ensures AllGood(list, Children(list, s, lo, hi))
  {
    forall idx | lo <= idx < hi ensures AllGood(list, OptionToSeq(Child(list, s, idx))) {
      ChildOptionGood(list, s, idx);
    }
    ChildrenAllGood(list, s, lo, hi);
  }

  /** Collecting children each of which is good gives a queue of good states. */
  lemma {:induction false} ChildrenAllGood(list: seq<Contract>, s: State, lo: int, hi: int)
    requires 0 <= lo <= hi <= |list|
    requires forall idx :: lo <= idx < hi ==> AllGood(list, OptionToSeq(Child(list, s, idx)))
    ensures AllGood(list, Children(list, s, lo, hi))
    decreases hi - lo
  {
    if lo < hi {
      ChildrenAllGood(list, s, lo, hi - 1);
      AllGoodAppend(list, Children(list, s, lo, hi - 1), OptionToSeq(Child(list, s, hi - 1)));
    }
  }

  lemma SpawnGood(list: seq<Contract>, s: State)
    requires WellFormedList(list) && Good(list, s)
    ensures AllGood(list, Spawn(list, s))
  {
    if FirstEligible(s) <= |list| {
      ChildrenGood(list, s, FirstEligible(s), |list|);
    }
  }

  // ---------------------------------------------------------------------------
  // The loop of `run` returns either its incumbent or a queued state with a
  // lower upper bound; either way a state the invariant holds for.

  lemma {:induction false} RunLoopSound(list: seq<Contract>, queue: seq<State>, globalUpper: int, optimal: State)
    requires WellFormedList(list)
    requires AllGood(list, queue) && Good(list, optimal)
    ensures var r := RunLoop(list, queue, globalUpper, optimal);
            Good(list, r) && (r == optimal || r.upper < globalUpper)
    decreases QueueWeight(|list|, queue)
  {
    if |queue| > 0 {
      var current := queue[0];
      AllGoodTail(list, queue);
      if current.cost > globalUpper {
        RunLoopPruned(list, queue, globalUpper, optimal);
        RunLoopSound(list, queue[1..], globalUpper, optimal);
      } else {
        var next := queue[1..] + Spawn(list, current);
        var improves := current.upper < globalUpper;
        RunLoopExpanded(list, queue, globalUpper, optimal);
        SpawnGood(list, current);
        AllGoodAppend(list, queue[1..], Spawn(list, current));
        ExpandedWeight(list, queue, next);
        RunLoopSound(list, next, if improves then current.upper else globalUpper, if improves then current else optimal);
      }
    }
  }

  /**
   * The state `run` returns: its contracts are entries of the list in
   * increasing number order with pairwise disjoint ranges, its occupied list
   * is their ranges sorted by start, its cost is at most its upper bound, and
   * unless it is the empty state its upper bound is the total penalty minus
   * its income.
   */
  lemma RunSpecSound(list: seq<Contract>)
    requires WellFormedList(list)
    ensures var r := RunSpec(list);
            && Good(list, r)
            && ContractsDisjoint(r.contracts)
            && r.cost <= r.upper
            && (r.contracts != [] ==> r.upper + Income(r.contracts) == SumOfPenalties(list, ContractIndexes(|list|)))
  {
    RootGood(list);
    RunLoopSound(list, [InitialState()], InitialState().upper, InitialState());
    var r := RunSpec(list);
    CostAtMostUpper(list, r);
    if r.contracts != [] {
      UpperPlusIncome(list, r);
    }
  }
}

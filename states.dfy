/**
 * The partial solution `State` of lib/classes.py: the contracts chosen so far
 * (in the order they were added), the hours they occupy (kept sorted by start
 * so that a conflict can be found by binary search), and the two bounds the
 * search prunes with. Python's deep copy becomes value semantics: every
 * operation builds a new State and leaves its receiver as it was.
 */
module States {
  import opened Wrappers
  import opened Intervals
  import opened Contracts

  /** The initial "no information" bound, 2^128 - 1 (the largest unsigned 128-bit value). */
  const Unbounded: int := 0xFFFF_FFFF_FFFF_FFFF_FFFF_FFFF_FFFF_FFFF

  // ---------------------------------------------------------------------------
  // Properties of the list of occupied ranges

  predicate SortedByStart(occ: seq<DurationRange>) {
    forall i, j :: 0 <= i < j < |occ| ==> occ[i].start <= occ[j].start
  }

  predicate PairwiseDisjoint(occ: seq<DurationRange>) {
    forall i, j :: 0 <= i < j < |occ| ==> !IsOverlaps(occ[i], occ[j])
  }

  predicate AllNonEmpty(occ: seq<DurationRange>) {
    forall i :: 0 <= i < |occ| ==> occ[i].start < occ[i].end
  }

  /** The invariant under which looking at two neighbours is enough. */
  predicate ValidOccupied(occ: seq<DurationRange>) {
    SortedByStart(occ) && PairwiseDisjoint(occ) && AllNonEmpty(occ)
  }

  /** Some occupied range overlaps `d`. */
  predicate Conflicts(occ: seq<DurationRange>, d: DurationRange) {
    exists i :: 0 <= i < |occ| && IsOverlaps(occ[i], d)
  }

  // ---------------------------------------------------------------------------
  // Binary search and sorted insertion on the start hour (`bisect.bisect` and
  // `bisect.insort` with `key=lambda x: x[0]`)

  /** `bisect_right` on [lo, hi): the first position whose start exceeds `x`. */
  function BisectRight(occ: seq<DurationRange>, x: int, lo: int, hi: int): (pos: int)
    requires 0 <= lo <= hi <= |occ|
    ensures lo <= pos <= hi
    decreases hi - lo
  {
    if lo == hi then lo
    else
      var mid := (lo + hi) / 2;
      if x < occ[mid].start then BisectRight(occ, x, lo, mid)
      else BisectRight(occ, x, mid + 1, hi)
  }

  function Bisect(occ: seq<DurationRange>, x: int): (pos: nat)
    ensures pos <= |occ|
  {
    BisectRight(occ, x, 0, |occ|)
  }

  /** On a sorted list, everything in [lo, pos) starts by `x`. */
  lemma {:induction false} BisectRightBefore(occ: seq<DurationRange>, x: int, lo: int, hi: int)
    requires 0 <= lo <= hi <= |occ|
    requires SortedByStart(occ)
    ensures forall i :: lo <= i < BisectRight(occ, x, lo, hi) ==> occ[i].start <= x
    decreases hi - lo
  {
    if lo < hi {
      var mid := (lo + hi) / 2;
      if x < occ[mid].start {
        BisectRightBefore(occ, x, lo, mid);
      } else {
        BisectRightBefore(occ, x, mid + 1, hi);
        forall i | lo <= i <= mid ensures occ[i].start <= x {
          assert occ[i].start <= occ[mid].start;
        }
      }
    }
  }

  /** On a sorted list, everything in [pos, hi) starts after `x`. */
  lemma {:induction false} BisectRightAfter(occ: seq<DurationRange>, x: int, lo: int, hi: int)
    requires 0 <= lo <= hi <= |occ|
    requires SortedByStart(occ)
    ensures forall i :: BisectRight(occ, x, lo, hi) <= i < hi ==> x < occ[i].start
    decreases hi - lo
  {
    if lo < hi {
      var mid := (lo + hi) / 2;
      if x < occ[mid].start {
        BisectRightAfter(occ, x, lo, mid);
        forall i | mid <= i < hi ensures x < occ[i].start {
          assert occ[mid].start <= occ[i].start;
        }
      } else {
        BisectRightAfter(occ, x, mid + 1, hi);
      }
    }
  }

  /** `bisect` splits a sorted list at `x`: starts up to `x` before, later starts after. */
  lemma BisectPartition(occ: seq<DurationRange>, x: int)
    requires SortedByStart(occ)
    ensures forall i :: 0 <= i < Bisect(occ, x) ==> occ[i].start <= x
    ensures forall i :: Bisect(occ, x) <= i < |occ| ==> x < occ[i].start
  {
    BisectRightBefore(occ, x, 0, |occ|);
    BisectRightAfter(occ, x, 0, |occ|);
  }

  /** `list.insert(pos, d)`: `d` at position `pos`, the later elements one place on. */
  function InsertAt(occ: seq<DurationRange>, pos: int, d: DurationRange): (r: seq<DurationRange>)
    requires 0 <= pos <= |occ|
    ensures |r| == |occ| + 1
  {
    seq(|occ| + 1, i requires 0 <= i <= |occ| => if i < pos then occ[i] else if i == pos then d else occ[i - 1])
  }

  /** `insort`: `d` goes in after every range that starts no later than it. */
  function Insort(occ: seq<DurationRange>, d: DurationRange): (r: seq<DurationRange>)
    ensures |r| == |occ| + 1
  {
    InsertAt(occ, Bisect(occ, d.start), d)
  }

  /** Where each element of `Insort(occ, d)` comes from. */
  lemma InsortAt(occ: seq<DurationRange>, d: DurationRange, i: int)
    requires 0 <= i <= |occ|
    ensures var pos := Bisect(occ, d.start);
            Insort(occ, d)[i] == if i < pos then occ[i] else if i == pos then d else occ[i - 1]
  {
  }

  /** Insertion adds `d` and keeps everything else: the result is a permutation of `occ + [d]`. */
  lemma InsortPermutes(occ: seq<DurationRange>, d: DurationRange)
    ensures multiset(Insort(occ, d)) == multiset(occ) + multiset{d}
  {
    var pos := Bisect(occ, d.start);
    var r := Insort(occ, d);
    forall i | 0 <= i < |r| ensures r[i] == (occ[..pos] + [d] + occ[pos..])[i] {
      InsortAt(occ, d, i);
    }
    assert r == occ[..pos] + [d] + occ[pos..];
    assert occ == occ[..pos] + occ[pos..];
  }

  /** Insertion in start order keeps the list sorted. */
  lemma InsortSorted(occ: seq<DurationRange>, d: DurationRange)
    requires SortedByStart(occ)
    ensures SortedByStart(Insort(occ, d))
  {
    var pos := Bisect(occ, d.start);
    var r := Insort(occ, d);
    BisectPartition(occ, d.start);
    forall i, j | 0 <= i < j < |r| ensures r[i].start <= r[j].start {
      InsortAt(occ, d, i);
      InsortAt(occ, d, j);
    }
  }

  /**
   * Inserting a non-empty range that conflicts with nothing keeps the list
   * sorted, pairwise disjoint and free of empty ranges.
   */
  lemma InsortValid(occ: seq<DurationRange>, d: DurationRange)
    requires ValidOccupied(occ)
    requires !Conflicts(occ, d) && d.start < d.end
    ensures ValidOccupied(Insort(occ, d))
  {
    InsortSorted(occ, d);
    var pos := Bisect(occ, d.start);
    var r := Insort(occ, d);
    BisectPartition(occ, d.start);
    forall i, j | 0 <= i < j < |r| ensures !IsOverlaps(r[i], r[j]) {
      InsortAt(occ, d, i);
      InsortAt(occ, d, j);
      if i == pos {
        OverlapsSymmetric(occ[j - 1], d);
      } else if j == pos {
        assert !IsOverlaps(occ[i], d);
      } else {
        var i' := if i < pos then i else i - 1;
        var j' := if j < pos then j else j - 1;
        assert i' < j';
        assert !IsOverlaps(occ[i'], occ[j']);
      }
    }
    forall i | 0 <= i < |r| ensures r[i].start < r[i].end {
      InsortAt(occ, d, i);
    }
  }

  // ---------------------------------------------------------------------------
  // Contract numbers

  /** Python's `max` over the contract numbers, scanning from the left. */
  function MaxNumber(cs: seq<Contract>): (m: int)
    requires |cs| > 0
    ensures exists i :: 0 <= i < |cs| && cs[i].contractNumber == m
    ensures forall i :: 0 <= i < |cs| ==> cs[i].contractNumber <= m
  {
    if |cs| == 1 then cs[0].contractNumber
    else
      var m := MaxNumber(cs[..|cs| - 1]);
      assert forall i :: 0 <= i < |cs| - 1 ==> cs[..|cs| - 1][i] == cs[i];
      Max(m, cs[|cs| - 1].contractNumber)
  }

  /** The occupied range of each contract, in the order of `cs`. */
  function Ranges(cs: seq<Contract>): (r: seq<DurationRange>)
    ensures |r| == |cs|
    ensures forall i :: 0 <= i < |cs| ==> r[i] == cs[i].durationRange
  {
    seq(|cs|, i requires 0 <= i < |cs| => cs[i].durationRange)
  }

  /** The ranges of the contracts are pairwise non-overlapping. */
  predicate ContractsDisjoint(cs: seq<Contract>) {
    forall i, j :: 0 <= i < j < |cs| ==> !IsOverlaps(cs[i].durationRange, cs[j].durationRange)
  }

  // ---------------------------------------------------------------------------
  // The State record and its operations

  datatype State = State(
    contracts: seq<Contract>,
    occupiedDurations: seq<DurationRange>,
    upper: int,
    cost: int)
  {
    /**
     * `no_overlapping_duration`: binary-search the start of `durationToCheck`
     * and test only the range just before that position and the one at it.
     */
    function NoOverlappingDuration(durationToCheck: DurationRange): (ok: bool)
      ensures |occupiedDurations| == 0 ==> ok
      ensures !ok ==> Conflicts(occupiedDurations, durationToCheck)
    {
      if |occupiedDurations| == 0 then true
      else
        var insertionPos := Bisect(occupiedDurations, durationToCheck.start);
        if insertionPos > 0 && IsOverlaps(occupiedDurations[insertionPos - 1], durationToCheck) then
          false
        else if insertionPos < |occupiedDurations| && IsOverlaps(durationToCheck, occupiedDurations[insertionPos]) then
          OverlapsSymmetric(durationToCheck, occupiedDurations[insertionPos]);
          false
        else
          true
    }

    /** `get_all_contract_numbers`. */
    function GetAllContractNumbers(): (nums: set<int>)
      ensures forall i :: 0 <= i < |contracts| ==> contracts[i].contractNumber in nums
    {
      set i | 0 <= i < |contracts| :: contracts[i].contractNumber
    }

    /** `get_max_contract_number`: none for the empty state, else the largest number. */
    function GetMaxContractNumber(): (m: Option<int>)
      ensures m.None? <==> |contracts| == 0
      ensures m.Some? ==> exists i :: 0 <= i < |contracts| && contracts[i].contractNumber == m.value
      ensures m.Some? ==> forall i :: 0 <= i < |contracts| ==> contracts[i].contractNumber <= m.value
    {
      if |contracts| == 0 then None else Some(MaxNumber(contracts))
    }

    /**
     * `add_contract`: refuse a contract whose range the neighbour check finds
     * in conflict; otherwise a new state with the contract appended, its
     * range inserted in start order and the given bounds. The receiver is a
     * value and stays as it was.
     */
    function AddContract(contract: Contract, upper: int, cost: int): (r: Option<State>)
      ensures r.None? ==> Conflicts(occupiedDurations, contract.durationRange)
      ensures r.Some? ==>
                && r.value.contracts == contracts + [contract]
                && |r.value.occupiedDurations| == |occupiedDurations| + 1
                && r.value.upper == upper
                && r.value.cost == cost
    {
      if !NoOverlappingDuration(contract.durationRange) then None
      else
        Some(State(contracts + [contract], Insort(occupiedDurations, contract.durationRange), upper, cost))
    }
  }

  /** `State()`: no contracts, no occupied hours, the unbounded upper value and no cost. */
  function InitialState(): (s: State)
    ensures s.contracts == [] && s.occupiedDurations == []
    ensures s.upper == Unbounded && s.cost == 0
  {
    State([], [], Unbounded, 0)
  }

  /**
   * Checking the two neighbours of the insertion point finds every conflict,
   * provided the occupied ranges are sorted by start, pairwise disjoint and
   * non-empty.
   */
  lemma NeighbourCheckComplete(s: State, d: DurationRange)
    requires ValidOccupied(s.occupiedDurations)
    ensures s.NoOverlappingDuration(d) <==> !Conflicts(s.occupiedDurations, d)
  {
    BisectPartition(s.occupiedDurations, d.start);
    // A range occ[j] before the predecessor starts no later than it and is
    // disjoint from it, so (both being non-empty) it ends by the predecessor's
    // start, which is at most d.start. A range occ[j] after the successor
    // starts no earlier than the successor, so if d reaches it, d also reaches
    // the successor, which starts after d.start.
  }

  /**
   * On a valid state `add_contract` refuses exactly the contracts whose range
   * overlaps an occupied one, and what it returns for a non-empty range is
   * valid again.
   */
  lemma AddContractExact(s: State, c: Contract, upper: int, cost: int)
    requires ValidOccupied(s.occupiedDurations)
    ensures s.AddContract(c, upper, cost).None? <==> Conflicts(s.occupiedDurations, c.durationRange)
    ensures c.durationRange.start < c.durationRange.end && s.AddContract(c, upper, cost).Some? ==>
              ValidOccupied(s.AddContract(c, upper, cost).value.occupiedDurations)
  {
    NeighbourCheckComplete(s, c.durationRange);
    if c.durationRange.start < c.durationRange.end && s.AddContract(c, upper, cost).Some? {
      InsortValid(s.occupiedDurations, c.durationRange);
    }
  }

  /**
   * The state `add_contract` returns occupies what the receiver occupies plus
   * the new contract's range, just as its contracts are the receiver's plus
   * the new contract.
   */
  lemma AddContractOccupies(s: State, c: Contract, upper: int, cost: int)
    requires s.AddContract(c, upper, cost).Some?
    ensures var t := s.AddContract(c, upper, cost).value;
            && multiset(t.occupiedDurations) == multiset(s.occupiedDurations) + multiset{c.durationRange}
            && multiset(Ranges(t.contracts)) == multiset(Ranges(s.contracts)) + multiset{c.durationRange}
  {
    InsortPermutes(s.occupiedDurations, c.durationRange);
    assert Ranges(s.contracts + [c]) == Ranges(s.contracts) + [c.durationRange];
  }

  /** The counterpart: with an empty range in the list the neighbour check can miss a conflict. */
  lemma NeighbourCheckNeedsNonEmptyRanges()
    ensures var s := State([], [DurationRange(0, 10), DurationRange(2, 2)], 0, 0);
            SortedByStart(s.occupiedDurations) && PairwiseDisjoint(s.occupiedDurations) &&
            s.NoOverlappingDuration(DurationRange(3, 5)) && Conflicts(s.occupiedDurations, DurationRange(3, 5))
  {
    var s := State([], [DurationRange(0, 10), DurationRange(2, 2)], 0, 0);
    assert Bisect(s.occupiedDurations, 3) == 2;
    assert IsOverlaps(s.occupiedDurations[0], DurationRange(3, 5));
  }

  /**
   * A contract of zero duration is accepted inside an occupied range, and
   * then hides that range from the neighbour check: a later contract
   * overlapping the first one is accepted too, and the resulting state holds
   * two overlapping contracts.
   */
  lemma ZeroDurationLetsOverlapThrough()
    ensures var first := NewContract(0, "a", 0, 10, 1);
            var empty := NewContract(1, "b", 2, 0, 1);
            var late := NewContract(2, "c", 3, 2, 1);
            var s := State([first], [first.durationRange], 0, 0);
            && s.AddContract(empty, 0, 0).Some?
            && s.AddContract(empty, 0, 0).value.AddContract(late, 0, 0).Some?
            && !ContractsDisjoint(s.AddContract(empty, 0, 0).value.AddContract(late, 0, 0).value.contracts)
  {
    var first := NewContract(0, "a", 0, 10, 1);
    var empty := NewContract(1, "b", 2, 0, 1);
    var late := NewContract(2, "c", 3, 2, 1);
    var s := State([first], [first.durationRange], 0, 0);
    assert Bisect(s.occupiedDurations, 2) == 1;
    var t := s.AddContract(empty, 0, 0).value;
    assert t.occupiedDurations == [DurationRange(0, 10), DurationRange(2, 2)];
    assert Bisect(t.occupiedDurations, 3) == 2;
    var u := t.AddContract(late, 0, 0).value;
    assert u.contracts[0] == first && u.contracts[2] == late;
    assert IsOverlaps(u.contracts[0].durationRange, u.contracts[2].durationRange);
  }

  /** The number set holds exactly the numbers of the state's contracts. */
  lemma AllContractNumbersExact(s: State, n: int)
    ensures n in s.GetAllContractNumbers() <==> exists i :: 0 <= i < |s.contracts| && s.contracts[i].contractNumber == n
  {
  }

  /** The two number queries agree: the maximum is the largest member of the set. */
  lemma MaxIsLargestNumber(s: State)
    requires |s.contracts| > 0
    ensures MaxNumber(s.contracts) in s.GetAllContractNumbers()
    ensures forall n :: n in s.GetAllContractNumbers() ==> n <= MaxNumber(s.contracts)
  {
  }
}

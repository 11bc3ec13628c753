/**
 * A search over a list holding a zero-duration contract: hours 0-10, an empty
 * booking at hour 2 and hours 3-5, each at price 1. The empty booking sits
 * between the other two in the occupied list and hides the first range from
 * the neighbour check, so `run` returns all three contracts although the
 * first and the last overlap.
 */
module ZeroDurationRun {
  import opened Wrappers
  import opened Intervals
  import opened Contracts
  import opened States
  import opened Managers
  import opened Example

  function Z0(): Contract { NewContract(0, "z0", 0, 10, 1) }
  function Z1(): Contract { NewContract(1, "z1", 2, 0, 1) }
  function Z2(): Contract { NewContract(2, "z2", 3, 2, 1) }

  function ZList(): seq<Contract> { [Z0(), Z1(), Z2()] }

  // The states the search creates, named by the contracts they hold.
  function T0(): State { State([Z0()], [DurationRange(0, 10)], 2, 0) }
  function T1(): State { State([Z1()], [DurationRange(2, 2)], 2, 1) }
  function T2(): State { State([Z2()], [DurationRange(3, 5)], 2, 2) }
  function T01(): State { State([Z0(), Z1()], [DurationRange(0, 10), DurationRange(2, 2)], 1, 0) }
  function T12(): State { State([Z1(), Z2()], [DurationRange(2, 2), DurationRange(3, 5)], 1, 1) }
  function T012(): State {
    State([Z0(), Z1(), Z2()], [DurationRange(0, 10), DurationRange(2, 2), DurationRange(3, 5)], 0, 0)
  }

  lemma ZListIsDense()
    ensures DenseNumbers(ZList())
  {
    var l := ZList();
    forall i | 0 <= i < |l| ensures l[i].contractNumber == i {
      assert i == 0 || i == 1 || i == 2;
    }
  }

  /** A penalty sum over a three-contract list, written out. */
  lemma SumOverThree(l: seq<Contract>, indexes: set<int>)
    requires |l| == 3
    ensures SumOfPenalties(l, indexes)
              == (if 0 in indexes then l[0].penalty else 0) + (if 1 in indexes then l[1].penalty else 0)
               + (if 2 in indexes then l[2].penalty else 0)
  {
    assert PenaltySumBelow(l, indexes, 1) == (if 0 in indexes then l[0].penalty else 0);
  }

  lemma ZEntries()
    ensures var l := ZList();
            && l[0] == Z0() && l[1] == Z1() && l[2] == Z2()
            && l[0].penalty == 1 && l[1].penalty == 1 && l[2].penalty == 1
            && Z0().durationRange == DurationRange(0, 10) && Z1().durationRange == DurationRange(2, 2)
            && Z2().durationRange == DurationRange(3, 5)
  {
  }

  lemma RootChildT0()
    ensures Child(ZList(), Root(), 0) == Some(T0())
  {
    var l := ZList();
    ZEntries();
    InsortIntoNothing(l[0].durationRange);
    assert Root().contracts + [l[0]] == [Z0()];
    assert Root().GetAllContractNumbers() == {};
    assert UpperIndexes(3, Root(), 0) == {1, 2};
    assert CostIndexes(3, Root(), 0) == {};
    SumOverThree(l, {1, 2});
    SumOverThree(l, {});
  }

  lemma RootChildT1()
    ensures Child(ZList(), Root(), 1) == Some(T1())
  {
    var l := ZList();
    ZEntries();
    InsortIntoNothing(l[1].durationRange);
    assert Root().contracts + [l[1]] == [Z1()];
    assert Root().GetAllContractNumbers() == {};
    assert UpperIndexes(3, Root(), 1) == {0, 2};
    assert CostIndexes(3, Root(), 1) == {0};
    SumOverThree(l, {0, 2});
    SumOverThree(l, {0});
  }

  lemma RootChildT2()
    ensures Child(ZList(), Root(), 2) == Some(T2())
  {
    var l := ZList();
    ZEntries();
    InsortIntoNothing(l[2].durationRange);
    assert Root().contracts + [l[2]] == [Z2()];
    assert Root().GetAllContractNumbers() == {};
    assert UpperIndexes(3, Root(), 2) == {0, 1};
    assert CostIndexes(3, Root(), 2) == {0, 1};
    SumOverThree(l, {0, 1});
  }

  lemma ZRootChildren()
    ensures Spawn(ZList(), Root()) == [T0(), T1(), T2()]
  {
    RootChildT0();
    RootChildT1();
    RootChildT2();
    assert FirstEligible(Root()) == 0;
    ChildrenOfThree(ZList(), Root(), 0, Some(T0()), Some(T1()), Some(T2()));
  }

  /** The empty booking fits inside hours 0-10: the check sees no overlap. */
  lemma T0ChildT01()
    ensures Child(ZList(), T0(), 1) == Some(T01())
  {
    var l := ZList();
    ZEntries();
    assert T0().GetAllContractNumbers() == {0};
    assert UpperIndexes(3, T0(), 1) == {2};
    assert CostIndexes(3, T0(), 1) == {};
    SumOverThree(l, {2});
    SumOverThree(l, {});
    assert Bisect(T0().occupiedDurations, 2) == 1;
    assert T0().NoOverlappingDuration(DurationRange(2, 2));
    assert Insort(T0().occupiedDurations, DurationRange(2, 2)) == T01().occupiedDurations;
    assert T0().contracts + [l[1]] == T01().contracts;
  }

  lemma T0Children()
    ensures Spawn(ZList(), T0()) == [T01()]
  {
    var l := ZList();
    ZEntries();
    T0ChildT01();
    assert Bisect(T0().occupiedDurations, 3) == 1;
    assert !T0().NoOverlappingDuration(DurationRange(3, 5));
    assert Child(l, T0(), 2) == None;
    assert FirstEligible(T0()) == 1;
    assert Children(l, T0(), 1, 2) == [T01()];
  }

  /** Hours 3-5 do not overlap the empty booking at hour 2. */
  lemma T1ChildT12()
    ensures Child(ZList(), T1(), 2) == Some(T12())
  {
    var l := ZList();
    ZEntries();
    assert T1().contracts[0].contractNumber == 1;
    assert T1().GetAllContractNumbers() == {1};
    assert UpperIndexes(3, T1(), 2) == {0};
    assert CostIndexes(3, T1(), 2) == {0};
    SumOverThree(l, {0});
    assert Bisect(T1().occupiedDurations, 3) == 1;
    assert T1().NoOverlappingDuration(DurationRange(3, 5));
    assert Insort(T1().occupiedDurations, DurationRange(3, 5)) == T12().occupiedDurations;
    assert T1().contracts + [l[2]] == T12().contracts;
  }

  lemma T1Children()
    ensures Spawn(ZList(), T1()) == [T12()]
  {
    T1ChildT12();
    assert FirstEligible(T1()) == 2;
    assert Children(ZList(), T1(), 2, 3) == [T12()];
  }

  /** Only the empty booking is checked against hours 3-5, and it does not overlap them. */
  lemma T01ChildT012()
    ensures Child(ZList(), T01(), 2) == Some(T012())
  {
    var l := ZList();
    ZEntries();
    assert T01().contracts[0].contractNumber == 0 && T01().contracts[1].contractNumber == 1;
    assert T01().GetAllContractNumbers() == {0, 1};
    assert UpperIndexes(3, T01(), 2) == {};
    assert CostIndexes(3, T01(), 2) == {};
    SumOverThree(l, {});
    assert Bisect(T01().occupiedDurations, 3) == 2;
    assert T01().NoOverlappingDuration(DurationRange(3, 5));
    assert Insort(T01().occupiedDurations, DurationRange(3, 5)) == T012().occupiedDurations;
    assert T01().contracts + [l[2]] == T012().contracts;
  }

  lemma T01Children()
    ensures Spawn(ZList(), T01()) == [T012()]
  {
    T01ChildT012();
    assert FirstEligible(T01()) == 2;
    assert Children(ZList(), T01(), 2, 3) == [T012()];
  }

  /** States holding the last contract have nothing left to add. */
  lemma LastHeldChildren(s: State)
    requires |s.contracts| > 0 && s.contracts[|s.contracts| - 1] == Z2()
    ensures Spawn(ZList(), s) == []
  {
    var m := s.GetMaxContractNumber().value;
    assert m >= 2;
  }

  // The passes of the loop.

  lemma ZPass1()
    ensures DenseNumbers(ZList())
    ensures RunSpec(ZList()) == RunLoop(ZList(), [T0(), T1(), T2()], Unbounded, Root())
  {
    ZListIsDense();
    RunLoopExpanded(ZList(), [Root()], Unbounded, Root());
    ZRootChildren();
    assert [Root()][1..] + Spawn(ZList(), Root()) == [T0(), T1(), T2()];
  }

  lemma ZPass2()
    ensures DenseNumbers(ZList())
    ensures RunLoop(ZList(), [T0(), T1(), T2()], Unbounded, Root())
         == RunLoop(ZList(), [T1(), T2(), T01()], 2, T0())
  {
    ZListIsDense();
    RunLoopExpanded(ZList(), [T0(), T1(), T2()], Unbounded, Root());
    T0Children();
    assert [T0(), T1(), T2()][1..] + Spawn(ZList(), T0()) == [T1(), T2(), T01()];
  }

  lemma ZPass3()
    ensures DenseNumbers(ZList())
    ensures RunLoop(ZList(), [T1(), T2(), T01()], 2, T0())
         == RunLoop(ZList(), [T2(), T01(), T12()], 2, T0())
  {
    ZListIsDense();
    RunLoopExpanded(ZList(), [T1(), T2(), T01()], 2, T0());
    T1Children();
    assert [T1(), T2(), T01()][1..] + Spawn(ZList(), T1()) == [T2(), T01(), T12()];
  }

  lemma ZPass4()
    ensures DenseNumbers(ZList())
    ensures RunLoop(ZList(), [T2(), T01(), T12()], 2, T0())
         == RunLoop(ZList(), [T01(), T12()], 2, T0())
  {
    ZListIsDense();
    RunLoopExpanded(ZList(), [T2(), T01(), T12()], 2, T0());
    LastHeldChildren(T2());
    assert [T2(), T01(), T12()][1..] + Spawn(ZList(), T2()) == [T01(), T12()];
  }

  lemma ZPass5()
    ensures DenseNumbers(ZList())
    ensures RunLoop(ZList(), [T01(), T12()], 2, T0())
         == RunLoop(ZList(), [T12(), T012()], 1, T01())
  {
    ZListIsDense();
    RunLoopExpanded(ZList(), [T01(), T12()], 2, T0());
    T01Children();
    assert [T01(), T12()][1..] + Spawn(ZList(), T01()) == [T12(), T012()];
  }

  lemma ZPass6()
    ensures DenseNumbers(ZList())
    ensures RunLoop(ZList(), [T12(), T012()], 1, T01())
         == RunLoop(ZList(), [T012()], 1, T01())
  {
    ZListIsDense();
    RunLoopExpanded(ZList(), [T12(), T012()], 1, T01());
    LastHeldChildren(T12());
    assert [T12(), T012()][1..] + Spawn(ZList(), T12()) == [T012()];
  }

  lemma ZPass7()
    ensures DenseNumbers(ZList())
    ensures RunLoop(ZList(), [T012()], 1, T01()) == T012()
  {
    ZListIsDense();
    RunLoopExpanded(ZList(), [T012()], 1, T01());
    LastHeldChildren(T012());
    assert [T012()][1..] + Spawn(ZList(), T012()) == [];
  }

  /**
   * `run` over the list returns all three contracts, and the first and the
   * last of them overlap: the search is unsound once a contract has zero
   * duration.
   */
  lemma ZeroDurationRunOverlaps()
    ensures DenseNumbers(ZList())
    ensures RunSpec(ZList()) == T012()
    ensures !ContractsDisjoint(RunSpec(ZList()).contracts)
    ensures IsOverlaps(RunSpec(ZList()).contracts[0].durationRange, RunSpec(ZList()).contracts[2].durationRange)
  {
    ZPass1();
    ZPass2();
    ZPass3();
    ZPass4();
    ZPass5();
    ZPass6();
    ZPass7();
    ZEntries();
    assert T012().contracts[0] == Z0() && T012().contracts[2] == Z2();
  }
}

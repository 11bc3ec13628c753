/**
 * The scenario at the end of lib/classes.py: four contracts, of which the
 * first and the third (hours 0-5 and 5-14, prices 10 and 8) are the plan
 * `run` returns.
 */
module Example {
  import opened Wrappers
  import opened Intervals
  import opened Contracts
  import opened States
  import opened Managers
  import opened Soundness

  function C0(): Contract { NewContract(0, "foo0", 0, 5, 10) }
  function C1(): Contract { NewContract(1, "foo1", 3, 7, 14) }
  function C2(): Contract { NewContract(2, "foo2", 5, 9, 8) }
  function C3(): Contract { NewContract(3, "foo3", 5, 9, 7) }

  function ExampleList(): seq<Contract> { [C0(), C1(), C2(), C3()] }

  // The states the search creates, named by the contracts they hold.
  function Root(): State { InitialState() }
  function S0(): State { State([C0()], [DurationRange(0, 5)], 29, 0) }
  function S1(): State { State([C1()], [DurationRange(3, 10)], 25, 10) }
  function S2(): State { State([C2()], [DurationRange(5, 14)], 31, 24) }
  function S3(): State { State([C3()], [DurationRange(5, 14)], 32, 32) }
  function S02(): State { State([C0(), C2()], [DurationRange(0, 5), DurationRange(5, 14)], 21, 14) }
  function S03(): State { State([C0(), C3()], [DurationRange(0, 5), DurationRange(5, 14)], 22, 22) }

  lemma ExampleListIsDense()
    ensures DenseNumbers(ExampleList()) && WellFormedList(ExampleList())
    ensures SortByNumber(ExampleList()) == ExampleList()
  {
    ExampleListWellFormed();
    DenseListIsKept(ExampleList());
  }

  lemma ExampleListWellFormed()
    ensures WellFormedList(ExampleList())
  {
    var l := ExampleList();
    forall i | 0 <= i < |l| ensures l[i].contractNumber == i && l[i].durationRange.start < l[i].durationRange.end && l[i].penalty >= 0 {
      assert i == 0 || i == 1 || i == 2 || i == 3;
    }
  }

  /** A penalty sum over a four-contract list, written out. */
  lemma SumOverFour(l: seq<Contract>, indexes: set<int>)
    requires |l| == 4
    ensures SumOfPenalties(l, indexes)
              == (if 0 in indexes then l[0].penalty else 0) + (if 1 in indexes then l[1].penalty else 0)
               + (if 2 in indexes then l[2].penalty else 0) + (if 3 in indexes then l[3].penalty else 0)
  {
    assert PenaltySumBelow(l, indexes, 2)
             == (if 0 in indexes then l[0].penalty else 0) + (if 1 in indexes then l[1].penalty else 0);
  }

  /** The entries of the list, with their hours and penalties written out. */
  lemma ExampleEntries()
    ensures var l := ExampleList();
            && l[0] == C0() && l[1] == C1() && l[2] == C2() && l[3] == C3()
            && l[0].penalty == 10 && l[1].penalty == 14 && l[2].penalty == 8 && l[3].penalty == 7
            && C0().durationRange == DurationRange(0, 5) && C1().durationRange == DurationRange(3, 10)
            && C2().durationRange == DurationRange(5, 14) && C3().durationRange == DurationRange(5, 14)
  {
  }

  lemma InsortIntoNothing(d: DurationRange)
    ensures Insort([], d) == [d]
  {
  }

  lemma RootChild0()
    ensures Child(ExampleList(), Root(), 0) == Some(S0())
  {
    var l := ExampleList();
    ExampleEntries();
    InsortIntoNothing(l[0].durationRange);
    assert Root().contracts + [l[0]] == [C0()];
    assert Root().GetAllContractNumbers() == {};
    assert UpperIndexes(4, Root(), 0) == {1, 2, 3};
    assert CostIndexes(4, Root(), 0) == {};
    SumOverFour(l, {1, 2, 3});
    SumOverFour(l, {});
  }

  lemma RootChild1()
    ensures Child(ExampleList(), Root(), 1) == Some(S1())
  {
    var l := ExampleList();
    ExampleEntries();
    InsortIntoNothing(l[1].durationRange);
    assert Root().contracts + [l[1]] == [C1()];
    assert Root().GetAllContractNumbers() == {};
    assert UpperIndexes(4, Root(), 1) == {0, 2, 3};
    assert CostIndexes(4, Root(), 1) == {0};
    SumOverFour(l, {0, 2, 3});
    SumOverFour(l, {0});
  }

  lemma RootChild2()
    ensures Child(ExampleList(), Root(), 2) == Some(S2())
  {
    var l := ExampleList();
    ExampleEntries();
    InsortIntoNothing(l[2].durationRange);
    assert Root().contracts + [l[2]] == [C2()];
    assert Root().GetAllContractNumbers() == {};
    assert UpperIndexes(4, Root(), 2) == {0, 1, 3};
    assert CostIndexes(4, Root(), 2) == {0, 1};
    SumOverFour(l, {0, 1, 3});
    SumOverFour(l, {0, 1});
  }

  lemma RootChild3()
    ensures Child(ExampleList(), Root(), 3) == Some(S3())
  {
    var l := ExampleList();
    ExampleEntries();
    InsortIntoNothing(l[3].durationRange);
    assert Root().contracts + [l[3]] == [C3()];
    assert Root().GetAllContractNumbers() == {};
    assert UpperIndexes(4, Root(), 3) == {0, 1, 2};
    assert CostIndexes(4, Root(), 3) == {0, 1, 2};
    SumOverFour(l, {0, 1, 2});
  }

  lemma RootChildren()
    ensures Spawn(ExampleList(), Root()) == [S0(), S1(), S2(), S3()]
  {
    var l := ExampleList();
    RootChild0();
    RootChild1();
    RootChild2();
    RootChild3();
    assert FirstEligible(Root()) == 0;
    assert Children(l, Root(), 0, 1) == [S0()];
    assert Children(l, Root(), 0, 2) == [S0(), S1()];
    assert Children(l, Root(), 0, 3) == [S0(), S1(), S2()];
    assert Children(l, Root(), 0, 4) == [S0(), S1(), S2(), S3()];
  }

  lemma S0Child1()
    ensures Child(ExampleList(), S0(), 1) == None
  {
    ExampleEntries();
    assert Bisect(S0().occupiedDurations, 3) == 1;
    assert !S0().NoOverlappingDuration(DurationRange(3, 10));
  }

  lemma S0Child2()
    ensures Child(ExampleList(), S0(), 2) == Some(S02())
  {
    var l := ExampleList();
    ExampleEntries();
    assert S0().GetAllContractNumbers() == {0};
    assert UpperIndexes(4, S0(), 2) == {1, 3};
    assert CostIndexes(4, S0(), 2) == {1};
    SumOverFour(l, {1, 3});
    SumOverFour(l, {1});
    assert Bisect(S0().occupiedDurations, 5) == 1;
    assert S0().NoOverlappingDuration(DurationRange(5, 14));
    assert Insort(S0().occupiedDurations, DurationRange(5, 14)) == S02().occupiedDurations;
    assert S0().contracts + [l[2]] == S02().contracts;
  }

  lemma S0Child3()
    ensures Child(ExampleList(), S0(), 3) == Some(S03())
  {
    var l := ExampleList();
    ExampleEntries();
    assert S0().GetAllContractNumbers() == {0};
    assert UpperIndexes(4, S0(), 3) == {1, 2};
    assert CostIndexes(4, S0(), 3) == {1, 2};
    SumOverFour(l, {1, 2});
    assert Bisect(S0().occupiedDurations, 5) == 1;
    assert S0().NoOverlappingDuration(DurationRange(5, 14));
    assert Insort(S0().occupiedDurations, DurationRange(5, 14)) == S03().occupiedDurations;
    assert S0().contracts + [l[3]] == S03().contracts;
  }

  /** The loop over three consecutive indexes queues the children it finds, in index order. */
  lemma ChildrenOfThree(list: seq<Contract>, s: State, lo: int, o0: Option<State>, o1: Option<State>, o2: Option<State>)
    requires 0 <= lo && lo + 3 <= |list|
    requires Child(list, s, lo) == o0 && Child(list, s, lo + 1) == o1 && Child(list, s, lo + 2) == o2
    ensures Children(list, s, lo, lo + 3) == OptionToSeq(o0) + OptionToSeq(o1) + OptionToSeq(o2)
  {
    assert Children(list, s, lo, lo + 1) == OptionToSeq(o0);
    assert Children(list, s, lo, lo + 2) == OptionToSeq(o0) + OptionToSeq(o1);
  }

  lemma S0Children()
    ensures Spawn(ExampleList(), S0()) == [S02(), S03()]
  {
    S0Child1();
    S0Child2();
    S0Child3();
    assert FirstEligible(S0()) == 1;
    ChildrenOfThree(ExampleList(), S0(), 1, None, Some(S02()), Some(S03()));
  }

  lemma S1Children()
    ensures Spawn(ExampleList(), S1()) == []
  {
    var l := ExampleList();
    ExampleEntries();
    assert FirstEligible(S1()) == 2;
    assert Bisect(S1().occupiedDurations, 5) == 1;
    assert !S1().NoOverlappingDuration(DurationRange(5, 14));
    assert Child(l, S1(), 2) == None && Child(l, S1(), 3) == None;
    assert Children(l, S1(), 2, 3) == [];
  }

  lemma S2Children()
    ensures Spawn(ExampleList(), S2()) == []
  {
    var l := ExampleList();
    ExampleEntries();
    assert FirstEligible(S2()) == 3;
    assert Bisect(S2().occupiedDurations, 5) == 1;
    assert !S2().NoOverlappingDuration(DurationRange(5, 14));
    assert Child(l, S2(), 3) == None;
    assert Children(l, S2(), 3, 4) == [];
  }

  lemma S02Children()
    ensures Spawn(ExampleList(), S02()) == []
  {
    var l := ExampleList();
    ExampleEntries();
    assert FirstEligible(S02()) == 3;
    assert Bisect(S02().occupiedDurations, 5) == 2;
    assert !S02().NoOverlappingDuration(DurationRange(5, 14));
    assert Child(l, S02(), 3) == None;
    assert Children(l, S02(), 3, 4) == [];
  }

  // The passes of the loop, one lemma each: the head of the queue is expanded
  // (and becomes the incumbent when its upper bound is lower) or pruned.

  lemma Pass1()
    ensures DenseNumbers(ExampleList())
    ensures RunSpec(ExampleList()) == RunLoop(ExampleList(), [S0(), S1(), S2(), S3()], Unbounded, Root())
  {
    var l := ExampleList();
    ExampleListIsDense();
    RunLoopExpanded(l, [Root()], Unbounded, Root());
    RootChildren();
    assert [Root()][1..] + Spawn(l, Root()) == [S0(), S1(), S2(), S3()];
  }

  lemma Pass2()
    ensures DenseNumbers(ExampleList())
    ensures RunLoop(ExampleList(), [S0(), S1(), S2(), S3()], Unbounded, Root())
         == RunLoop(ExampleList(), [S1(), S2(), S3(), S02(), S03()], 29, S0())
  {
    var l := ExampleList();
    ExampleListIsDense();
    RunLoopExpanded(l, [S0(), S1(), S2(), S3()], Unbounded, Root());
    QueueAfterS0();
  }

  lemma QueueAfterS0()
    ensures [S0(), S1(), S2(), S3()][1..] + Spawn(ExampleList(), S0()) == [S1(), S2(), S3(), S02(), S03()]
  {
    S0Children();
  }

  lemma Pass3()
    ensures DenseNumbers(ExampleList())
    ensures RunLoop(ExampleList(), [S1(), S2(), S3(), S02(), S03()], 29, S0())
         == RunLoop(ExampleList(), [S2(), S3(), S02(), S03()], 25, S1())
  {
    var l := ExampleList();
    ExampleListIsDense();
    RunLoopExpanded(l, [S1(), S2(), S3(), S02(), S03()], 29, S0());
    S1Children();
    assert [S1(), S2(), S3(), S02(), S03()][1..] + Spawn(l, S1()) == [S2(), S3(), S02(), S03()];
  }

  lemma Pass4()
    ensures DenseNumbers(ExampleList())
    ensures RunLoop(ExampleList(), [S2(), S3(), S02(), S03()], 25, S1())
         == RunLoop(ExampleList(), [S3(), S02(), S03()], 25, S1())
  {
    var l := ExampleList();
    ExampleListIsDense();
    RunLoopExpanded(l, [S2(), S3(), S02(), S03()], 25, S1());
    S2Children();
    assert [S2(), S3(), S02(), S03()][1..] + Spawn(l, S2()) == [S3(), S02(), S03()];
  }

  lemma Pass5()
    ensures DenseNumbers(ExampleList())
    ensures RunLoop(ExampleList(), [S3(), S02(), S03()], 25, S1())
         == RunLoop(ExampleList(), [S03()], 21, S02())
  {
    var l := ExampleList();
    ExampleListIsDense();
    RunLoopPruned(l, [S3(), S02(), S03()], 25, S1());
    assert [S3(), S02(), S03()][1..] == [S02(), S03()];
    RunLoopExpanded(l, [S02(), S03()], 25, S1());
    S02Children();
    assert [S02(), S03()][1..] + Spawn(l, S02()) == [S03()];
  }

  lemma Pass6()
    ensures DenseNumbers(ExampleList())
    ensures RunLoop(ExampleList(), [S03()], 21, S02()) == S02()
  {
    var l := ExampleList();
    ExampleListIsDense();
    RunLoopPruned(l, [S03()], 21, S02());
    assert [S03()][1..] == [];
  }

  /** The search returns the state holding the first and third contracts. */
  lemma ExampleRun()
    ensures DenseNumbers(ExampleList()) && RunSpec(ExampleList()) == S02()
  {
    Pass1();
    Pass2();
    Pass3();
    Pass4();
    Pass5();
    Pass6();
  }

  /** The plan earns the prices of the contracts taken, 10 + 8. */
  lemma ExampleIncome()
    ensures DenseNumbers(ExampleList()) && RunSpec(ExampleList()).contracts == [ExampleList()[0], ExampleList()[2]]
    ensures DenseNumbers(ExampleList()) && Income(RunSpec(ExampleList()).contracts) == 18
  {
    ExampleRun();
  }

  /** `[c.contract_name for c in cs]`. */
  function ContractNames(cs: seq<Contract>): (names: seq<string>)
    ensures |names| == |cs|
    ensures forall i :: 0 <= i < |cs| ==> names[i] == cs[i].contractName
  {
    if cs == [] then [] else ContractNames(cs[..|cs| - 1]) + [cs[|cs| - 1].contractName]
  }

  /** The names of the contracts in the state the search returns. */
  lemma ExampleNames()
    ensures DenseNumbers(ExampleList()) && ContractNames(RunSpec(ExampleList()).contracts) == ["foo0", "foo2"]
  {
    ExampleRun();
    assert S02().contracts == [C0(), C2()];
    var names := ContractNames(S02().contracts);
    assert names[0] == "foo0" && names[1] == "foo2";
  }

  /** Lines 227-236: build the manager over the four contracts, run it and list the names taken. */
  method ScheduleExample() returns (names: seq<string>)
    ensures names == ["foo0", "foo2"]
  {
    ExampleListIsDense();
    var manager := new Manager(ExampleList());
    assert manager.contractsList == ExampleList();
    var optimal, _ := manager.Run();
    ExampleNames();
    names := ContractNames(optimal.contracts);
  }
}

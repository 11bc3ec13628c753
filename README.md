# Spaceship rental scheduling: a verified model of the branch-and-bound core

The system takes rental contracts for a spaceship. Each contract has a
number, a name, a start hour, a duration and a price. The system picks a set
of contracts whose hours do not overlap. `lib/classes.py` does this with a
branch-and-bound search:

- `is_overlaps` tests two rental ranges `(start, end)`, read as half-open
  intervals of hours, for overlap.
- `Contract` derives a contract's range from its start and duration. Its
  penalty is its price: the income lost when the contract is not taken.
- `State` is a partial plan. It holds the contracts chosen so far, the hours
  they occupy (sorted by start, so a conflict is found by a binary search
  and a look at the two neighbours), and two bounds:
  - `upper`: the penalties of every contract the plan leaves out;
  - `cost`: those left-out penalties the plan's descendants can no longer
    avoid.
- `Manager.run` explores states first-in first-out from the empty state. It
  prunes a state whose `cost` exceeds the best `upper` seen so far (the
  global upper bound) and keeps the state with the lowest `upper` as the
  incumbent. A state is expanded only with contracts numbered above its
  largest number.

The Dafny project has these modules:

- `Intervals` (intervals.dfy): ranges and the overlap test.
- `Contracts` (contracts.dfy): the contract record and its constructor.
- `States` (states.dfy): the State record, and `bisect`/`insort` written
  out as a binary search and a sorted insertion.
- `Managers` (managers.dfy): the manager's sorted list, and the bounds and
  children of a state. It also holds `RunLoop`/`RunSpec`, a recursive
  function form of the search loop, and the class `Manager`. Its `Run`
  method is a `while` loop with an inner loop, proved equal to `RunSpec`.
  Termination uses a measure: a queued state whose first eligible index is
  `f` weighs `2^(n-f)`, and a state's children together weigh less than the
  state itself.
- `Soundness` (soundness.dfy): the invariant every queued state keeps, and
  what it says about the state `run` returns.
- `Example` (example.dfy): the four-contract scenario at the end of
  `lib/classes.py`, evaluated pass by pass.
- `ZeroDurationRun` (zero_duration.dfy): a three-contract search with a
  zero-duration contract, evaluated pass by pass, which returns two
  overlapping contracts.

`State` is a datatype, and Python's `copy.deepcopy` followed by in-place
appends becomes value semantics. `AddContract` returns a new State and the
receiver is left as it was. The deque of unprocessed states is a
`seq<State>`. `popleft` is `queue[1..]` and `append` is `+ [s]`.

## Model

| member | source | states |
|---|---|---|
| Intervals.OverlapsIffSharedHour | lib/classes.py:12-23 | `is_overlaps` holds exactly when the two half-open ranges share an hour |
| Intervals.OverlapsSymmetric | lib/classes.py:12-23 | the overlap test gives the same answer with its arguments swapped |
| Intervals.TouchingRangesDoNotOverlap | lib/classes.py:12-23 | a range ending at the hour another starts overlaps it in neither order |
| Intervals.EmptyRangeOverlapsNothing | lib/classes.py:12-23 | a range with end <= start overlaps no range |
| Intervals.IsOverlaps | lib/classes.py:12-23 | the later start lies strictly before the earlier end; characterised by `OverlapsIffSharedHour` and `OverlapsSymmetric` |
| Contracts.NewContract | lib/classes.py:34-46 | the contract has the given number and name, its range starts at `start_hour` and spans `duration` hours, and its penalty is the price |
| Contracts.BackToBackContracts | lib/classes.py:41-44 | contracts with positive durations occupy non-empty ranges, and one booked to start when the other ends does not overlap it |
| States.BisectRight | lib/classes.py:66-70 | the binary search of `bisect_right` on [lo, hi) returns a position within [lo, hi]; `BisectPartition` states which position |
| States.Bisect | lib/classes.py:66-70 | `bisect.bisect` over the whole list returns a position in 0..len; `BisectPartition` states it is the split point of the starts at `x` |
| States.Insort | lib/classes.py:112 | the list grows by one; `InsortPermutes`, `InsortSorted` and `InsortValid` state that it is the old list plus the range, inserted in start order |
| States.BisectPartition | lib/classes.py:66-70 | on a list sorted by start, every range before the bisect position starts at or before `x`, and every range from that position on starts after `x` |
| States.InsortPermutes | lib/classes.py:112 | the sorted insertion yields the old list plus the new range, as a multiset |
| States.InsortSorted | lib/classes.py:112 | inserting at the bisect position keeps the list sorted by start |
| States.InsortValid | lib/classes.py:112 | inserting a non-empty range that conflicts with nothing keeps the list sorted by start, pairwise disjoint and free of empty ranges |
| States.State.NoOverlappingDuration | lib/classes.py:60-88 | the check passes on an empty occupied list, and it fails only when some occupied range overlaps the given one |
| States.NeighbourCheckComplete | lib/classes.py:60-88 | when the occupied list is sorted by start, pairwise disjoint and made of non-empty ranges, the two-neighbour check passes exactly when no occupied range overlaps |
| States.NeighbourCheckNeedsNonEmptyRanges | lib/classes.py:66-88 | a sorted, pairwise disjoint list holding an empty range, for which the check passes although an occupied range overlaps |
| States.ZeroDurationLetsOverlapThrough | lib/classes.py:101-119 | from a state occupying hours 0-10, `add_contract` accepts a zero-duration contract at hour 2 and then a contract for hours 3-5, leaving two overlapping contracts in the state |
| States.MaxNumber | lib/classes.py:95 | `max` over a non-empty contract list is one of the numbers and at least every number |
| States.State.GetMaxContractNumber | lib/classes.py:90-95 | the result is None exactly when there are no contracts; otherwise it is a number in the state, at least every number in it |
| States.State.GetAllContractNumbers | lib/classes.py:97-98 | the set holds the number of every contract in the state |
| States.AllContractNumbersExact | lib/classes.py:97-98 | a number is in the set exactly when some contract of the state has it |
| States.MaxIsLargestNumber | lib/classes.py:90-98 | the maximum number is in the number set and is its largest element |
| States.State.AddContract | lib/classes.py:101-119 | None only when some occupied range conflicts with the contract's range; otherwise the contracts are the old ones plus the new contract, the occupied list grows by one, and `upper` and `cost` are the arguments |
| States.AddContractExact | lib/classes.py:101-119 | on a valid occupied list the result is None exactly on a conflict, for any range (zero-duration ones included); for a non-empty range a returned state's occupied list is valid again |
| States.AddContractOccupies | lib/classes.py:108-112 | the new state's occupied ranges are the old ones plus the new range (as a multiset), matching the ranges of its contracts |
| States.InitialState | lib/classes.py:49-58 | the empty state: no contracts, no occupied hours, `upper` equal to 2^128-1, `cost` 0 |
| Managers.Manager.constructor | lib/classes.py:123-128 | the stored list is `SortByNumber` of the input: a permutation of it, sorted by number |
| Managers.SortByNumber | lib/classes.py:126-127 | the sort returns a permutation of its input, sorted by contract number |
| Managers.InsertByNumberSorted | lib/classes.py:127 | inserting a contract before the first one with a number not below its own keeps the list sorted |
| Managers.SortKeepsSortedList | lib/classes.py:127 | sorting a list that is already sorted by number leaves it unchanged |
| Managers.DenseListIsKept | lib/classes.py:123-128 | a list numbered 0..n-1 by position is stored unchanged, so the manager's numbers are its indexes |
| Managers.ContractIndexes | lib/classes.py:154 | `set(contract_indexes)` holds exactly 0..n-1 |
| Managers.Manager.Bounds | lib/classes.py:200-211 | `current_upper` is the penalty sum over every index except `idx` and the chosen numbers; `current_cost` is the part of that sum below `idx` |
| Managers.SumOfPenalties | lib/classes.py:204-211 | the sum of the listed contracts' penalties; `PenaltySumSplit`, `PenaltySumMono` and `UpperPlusIncome` characterise it |
| Managers.UpperIndexes | lib/classes.py:201-203 | `ub_idx`: every index except `idx` and the chosen numbers; `ExtendedBounds` states it is the child's left-out set |
| Managers.CostIndexes | lib/classes.py:207-210 | `c_idx`: the indexes of `ub_idx` below `idx`; `ExtendedBounds` states it is the child's skipped set |
| Managers.Child | lib/classes.py:198-218 | the state `add_contract` returns for index `idx` with the bounds `run` computes; `ChildGood` and `ChildFirstEligible` characterise it |
| Managers.Children | lib/classes.py:194-221 | the children for the indexes lo..hi-1 in index order; `SpawnStates` computes it by the loop, and `ChildrenGood` and `ChildrenEligible` characterise it |
| Managers.Spawn | lib/classes.py:183-221 | everything one expansion enqueues; `SpawnSubNodes` computes it, and `SpawnGood` and `SpawnWeight` characterise it |
| Managers.FirstEligible | lib/classes.py:185-189 | the first index `possible_idx` holds is never negative; `FirstEligibleExact` states which index it is |
| Managers.FirstEligibleExact | lib/classes.py:185-189 | a non-negative index is at or above the first eligible one exactly when it exceeds every contract number in the state |
| Managers.ChildFirstEligible | lib/classes.py:185-221 | with dense numbers, a child created for index `idx` has `idx` as its largest number, so its own children start at `idx + 1` |
| Managers.ChildOptionEligible | lib/classes.py:185-221 | the child for `idx`, if one is created, has first eligible index `idx + 1` |
| Managers.ChildrenEligible | lib/classes.py:194-221 | the children of one expansion enter the queue in strictly increasing order of first eligible index, all within (lo, hi] |
| Managers.SpawnEligible | lib/classes.py:183-221 | all children of a state have first eligible indexes above the state's own, in increasing order |
| Managers.SpawnWeight | lib/classes.py:183-221 | the children of a state weigh less than the state itself, so the search terminates |
| Managers.WeightWithin | lib/classes.py:171-221 | a queue whose first eligible indexes increase strictly within (lo, hi] weighs at most 2^(n-lo) - 2^(n-hi) |
| Managers.ExpandedWeight | lib/classes.py:171-221 | popping a state and appending its children lowers the weight of the queue |
| Managers.QueueWeightTail | lib/classes.py:173 | `popleft` removes exactly the head's weight from the queue |
| Managers.RunLoopPruned | lib/classes.py:173-177 | a head whose cost exceeds the global upper bound is dropped, and nothing else changes |
| Managers.RunLoopExpanded | lib/classes.py:173-221 | any other head is expanded: its children join the queue's tail, and it becomes the incumbent if its upper bound is lower |
| Managers.Manager.SpawnStates | lib/classes.py:194-221 | the `for idx` loop appends to the queue, in index order, the child `AddContract` returns for each index from `first` on |
| Managers.Manager.SpawnSubNodes | lib/classes.py:183-221 | the queue gains the children for the indexes above the state's largest number, or nothing when none are left |
| Managers.Manager.Run | lib/classes.py:149-223 | the method returns what the reference search `RunSpec` returns; its record of the global upper bound is exactly 2^128-1 followed by `RunUppers` of the search, strictly decreasing, and the returned state's upper bound is its last entry |
| Managers.RunLoop | lib/classes.py:171-223 | the `while` loop from a given queue, bound and incumbent; `RunLoopSound` and `RunUppersLast` characterise what it returns |
| Managers.RunSpec | lib/classes.py:149-223 | `run` from the empty state; `RunSpecSound`, `RunSpecUppers` and `Example.ExampleRun` characterise it |
| Managers.RunUppers | lib/classes.py:176-181 | the values `global_upper` is lowered to, one per head that becomes the incumbent; `RunUppersDecrease` and `RunUppersLast` characterise it |
| Managers.RunUppersPruned | lib/classes.py:176-177 | a pruned head leaves the bound as it is |
| Managers.RunUppersExpanded | lib/classes.py:179-181 | an expanded head whose upper value is below the bound lowers the bound to it; any other leaves the bound as it is |
| Managers.RunUppersDecrease | lib/classes.py:171-223 | from any queue the loop lowers the bound strictly each time it changes it, always below the starting bound |
| Managers.RunUppersLast | lib/classes.py:171-223 | the loop returns its incumbent if it never lowers the bound, and otherwise a state whose upper value is the last bound it set |
| Managers.RunSpecUppers | lib/classes.py:149-223 | the bounds `run` goes through, from 2^128-1 on, strictly decrease, and the returned state's upper value is the last of them |
| Managers.DecreasingPrepended | lib/classes.py:179-180 | a value above every entry of a strictly decreasing history can head it |
| Soundness.PenaltySumSplit | lib/classes.py:204-211 | a penalty sum over a disjoint union is the sum of the two sums |
| Soundness.PenaltySumMono | lib/classes.py:204-211 | with non-negative penalties a larger index set sums to at least as much |
| Soundness.IncomeIsChosenPenalty | lib/classes.py:203-209 | the prices of a state's contracts add up to the penalty sum over its number set |
| Soundness.Income | src/main.py:47-49 | the sum of the prices of the chosen contracts; `IncomeIsChosenPenalty` and `UpperPlusIncome` characterise it |
| Soundness.NumbersAppend | lib/classes.py:97-111 | appending a contract adds its number to the number set |
| Soundness.RootGood | lib/classes.py:157-168 | the initial state satisfies the invariant |
| Soundness.ExtendedDisjoint | lib/classes.py:104-111 | a contract that conflicts with no occupied range keeps the chosen contracts pairwise non-overlapping |
| Soundness.ExtendedNumbers | lib/classes.py:185-211 | a child's contract numbers still strictly increase, and each is the list's entry at its own number |
| Soundness.ExtendedBounds | lib/classes.py:200-211 | a child's `upper` is the penalty of every contract it leaves out, its `cost` the penalty of those below its largest number |
| Soundness.ChildGood | lib/classes.py:194-221 | every child `run` creates from a state satisfying the invariant satisfies it too |
| Soundness.ChildrenGood | lib/classes.py:194-221 | all children of one expansion satisfy the invariant |
| Soundness.SpawnGood | lib/classes.py:183-221 | everything one expansion queues satisfies the invariant |
| Soundness.UpperPlusIncome | lib/classes.py:200-204 | for a non-empty state, `upper` plus the income of its contracts is the total penalty |
| Soundness.CostAtMostUpper | lib/classes.py:200-211 | every state the search creates has `cost <= upper` |
| Soundness.RunLoopSound | lib/classes.py:171-223 | the loop returns a state satisfying the invariant, either the incumbent it started with or one with a lower upper bound |
| Soundness.RunSpecSound | lib/classes.py:149-223 | the returned plan: its numbers strictly increase, it takes list entries whose ranges do not overlap, its occupied list is their ranges sorted, `cost <= upper`, and (when non-empty) `upper` plus its income is the total penalty |
| Example.ExampleListIsDense | lib/classes.py:227-234 | the four demo contracts are numbered by position and well formed, and the manager's sort keeps them as given |
| Example.ExampleRun | lib/classes.py:227-235 | the search over the four demo contracts returns the state holding contracts 0 and 2 |
| Example.ExampleIncome | unittests.py:38 | that plan takes the first and the third contract and earns 18 |
| Example.ExampleNames | lib/classes.py:236 | the names of the contracts in the returned plan are `foo0` and `foo2` |
| Example.ScheduleExample | lib/classes.py:227-236 | building the manager over the demo contracts and running it yields the names `foo0` and `foo2` |
| Example.ContractNames | lib/classes.py:236 | the list of names has one entry per contract, each that contract's name |
| ZeroDurationRun.ZListIsDense | src/main.py:22-25 | the three-contract list with a zero-duration booking is numbered by position, as the endpoint numbers its contracts, so `run` applies to it |
| ZeroDurationRun.ZeroDurationRunOverlaps | lib/classes.py:149-223 | on hours 0-10, an empty booking at hour 2 and hours 3-5, the search returns all three contracts, and the first and the last overlap |

## Left out

- src/main.py, the web endpoint, is not part of this model: request handling, response shaping and the Pydantic validation it relies on. The model states its assumptions about the input as `WellFormedList`, and each conjunct has its own origin. Numbers equal to positions come from `enumerate` in src/main.py:22-30 and survive the sort (`Managers.DenseListIsKept`). Non-negative penalties follow from a rule of non-negative prices. Non-empty ranges need every duration to be positive. No code shown here enforces that, and if only non-negative durations are required, `run` can return overlapping contracts (see Findings).
- unittests.py drives the endpoint over HTTP. Only its expected result for the demo contracts (income 18) is used, as a fact about `Example.ExampleIncome`.
- The `print` in the demo (lib/classes.py:236) is output; `Example.ScheduleExample` returns the names instead.
- Optimality of the returned plan is not proved. The guarantees proved are the soundness facts of `Soundness.RunSpecSound` and the concrete result of the demo.
- Managers.Manager.Run: requires that the manager's contract numbers are 0..n-1 by position (`DenseNumbers`), as do `Managers.RunLoop`, `Managers.RunSpec` and `Managers.RunUppers`. The requirement serves only the termination measure. `Managers.Child`, `Managers.FirstEligible`, `Managers.UpperIndexes`, `Managers.CostIndexes` and `Managers.Spawn` follow lines 185-221 for any numbering. What `run` does on a list numbered otherwise, where lines 189, 203 and 209 compare numbers with positions, is not modelled as a whole search.
- Managers.Manager.Run: `globalUppers` is a ghost record of the values the global upper bound takes, equal to 2^128-1 followed by `Managers.RunUppers`; the source keeps only the current value.
- Soundness.RunSpecSound: requires `WellFormedList`. With an empty range in the list the neighbour check can miss a conflict (see Findings), and with a negative penalty `cost <= upper` can fail.
- Managers.SortByNumber: it is a stable insertion sort, as Python's `list.sort` is, but no lemma states stability for inputs with repeated numbers. `Run` requires distinct numbers 0..n-1, so nothing depends on it.
- States.State.NoOverlappingDuration: its own contract gives only the "no false alarm" direction. The converse needs the occupied-list invariant and is `States.NeighbourCheckComplete`.
- States.State.AddContract: its own contract gives the occupied list's length only. The permutation, the sorted order and the exact None condition on a valid state are `States.AddContractOccupies`, `States.InsortValid` and `States.AddContractExact`.
- States.State.GetAllContractNumbers: its own contract gives one inclusion only. The converse is `States.AllContractNumbersExact`.
- States.Unbounded: the sentinel `2**128 - 1` is an unbounded `int` constant. No sum of penalties is assumed to stay below it. A state that is not the root carries a real penalty sum, and the root alone carries the sentinel.
- `collections.deque` is a sequence, `copy.deepcopy` is value semantics, and `bisect.bisect`/`bisect.insort` with `key=lambda x: x[0]` are the explicit `States.Bisect` and `States.Insort`. The model shares no state between the copies, and it does not model the cost of the copying.
- The commented-out fields of `Manager.__init__` (lib/classes.py:130-145) and the old `Contract` constructor (lines 29-32) are dead code and not modelled.

## Findings

| source | as written | input that shows it | evidently intended | confidence | as-written member | corrected member |
|---|---|---|---|---|---|---|
| lib/classes.py:60-223 | a zero-duration contract is accepted inside an occupied range and inserted into the occupied list. There it sits between that range and a later contract, so the neighbour check misses the overlap, and `run` can return overlapping contracts | on the list `[(0,10), (2,2), (3,5)]` at price 1 each, `run` reaches the state holding all three through root, 0, 0-1, 0-1-2; its upper bound is 0, so it is returned, yet `(0,10)` and `(3,5)` overlap (at the level of `add_contract`: from `[(0,10)]`, `(2,2)` and then `(3,5)` are accepted) | no returned plan holds two overlapping contracts; over a list of non-empty ranges (`WellFormedList`, which needs positive durations) the search returns non-overlapping contracts | not executed | ZeroDurationRun.ZeroDurationRunOverlaps | Soundness.RunSpecSound |

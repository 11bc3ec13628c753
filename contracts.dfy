/** The `Contract` record of lib/classes.py. */
module Contracts {
  import opened Intervals

  /**
   * A rental contract: its number (the position in the manager's sorted
   * list), a name used only for reporting, the hours it occupies and the
   * penalty, which is the price forgone when the contract is not taken.
   */
  datatype Contract = Contract(
    contractNumber: int,
    contractName: string,
    durationRange: DurationRange,
    penalty: int)

  /** `Contract.__init__`: the range is derived from the start and duration, the penalty is the price. */
  function NewContract(contractNumber: int, contractName: string, startHour: int, duration: int, price: int): (c: Contract)
    ensures c.contractNumber == contractNumber && c.contractName == contractName
    ensures c.durationRange.start == startHour
    ensures c.durationRange.end - c.durationRange.start == duration
    ensures c.penalty == price
  {
    Contract(contractNumber, contractName, DurationRange(startHour, startHour + duration), price)
  }

  /**
   * A contract booked for a positive duration occupies a non-empty range, and
   * two contracts of which one starts at the hour the other ends do not overlap.
   */
  lemma BackToBackContracts(a: Contract, b: Contract, n: int, m: int, start: int, d1: int, d2: int, p1: int, p2: int, x: string, y: string)
    requires a == NewContract(n, x, start, d1, p1)
    requires b == NewContract(m, y, start + d1, d2, p2)
    requires d1 > 0 && d2 > 0
    ensures a.durationRange.start < a.durationRange.end && b.durationRange.start < b.durationRange.end
    ensures !IsOverlaps(a.durationRange, b.durationRange)
  {
    TouchingRangesDoNotOverlap(a.durationRange, b.durationRange);
  }
}

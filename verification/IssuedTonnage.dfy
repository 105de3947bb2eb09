/** Issued tonnage over calendar ranges (domain/tonnage.js, get-issued-tonnage.js, date-formatter.js). */
module IssuedTonnage {
  import opened Wrappers
  import opened PrnModel

  type Day = int  // days since 1 January 1970, UTC

  const MS_PER_DAY := 86400000

  /** 00:00:00.000 of a calendar date. */
  function StartOfDay(day: Day): Instant {
    day * MS_PER_DAY
  }

  /** 23:59:59.999 of a calendar date. */
  function EndOfDay(day: Day): Instant {
    day * MS_PER_DAY + MS_PER_DAY - 1
  }

  /** Every instant lies in exactly one day: the days leave no gap and no overlap. */
  lemma EveryInstantHasOneDay(at: Instant, day: Day)
    ensures StartOfDay(day) <= at <= EndOfDay(day) <==> day == at / (24 * 60 * 60 * 1000)
  {}

  function IssuedAt(prn: Prn): Option<Instant> {
    if IssuedSlot in prn.status.slots then Some(prn.status.slots[IssuedSlot].at) else None
  }

  predicate IsInPeriod(at: Option<Instant>, start: Instant, end: Instant) {
    at.Some? && start <= at.value <= end
  }

  predicate IsCounted(prn: Prn, start: Instant, end: Instant) {
    IsInPeriod(IssuedAt(prn), start, end) && prn.status.current !in CANCELLED_PRN_STATUSES
  }

  function AggregateIssuedTonnage(prns: seq<Prn>, start: Instant, end: Instant): int {
    if prns == [] then 0
    else
      var prn := prns[|prns| - 1];
      AggregateIssuedTonnage(prns[..|prns| - 1], start, end) + (if IsCounted(prn, start, end) then prn.tonnage else 0)
  }

  /** findByAccreditation: the ledger's own documents that are not deleted. */
  function FindByAccreditation(prns: seq<Prn>, ledger: LedgerId): seq<Prn> {
    if prns == [] then []
    else
      var prn := prns[|prns| - 1];
      FindByAccreditation(prns[..|prns| - 1], ledger)
      + (if prn.ledger == ledger && prn.status.current != Deleted then [prn] else [])
  }

  /** Nothing for an operator without an accreditation. */
  function GetIssuedTonnage(prns: seq<Prn>, ledger: LedgerId, startDate: Day, endDate: Day): Option<int> {
    if ledger.accreditationId == "" then None
    else Some(AggregateIssuedTonnage(FindByAccreditation(prns, ledger), StartOfDay(startDate), EndOfDay(endDate)))
  }

  // ----- what is counted -----

  /** One PRN's contribution, by the day it was issued: cancelled, deleted and foreign PRNs weigh nothing anywhere. */
  function DayShare(prn: Prn, ledger: LedgerId, startDate: Day, endDate: Day): int {
    if prn.ledger == ledger
       && prn.status.current !in {AwaitingCancellation, Cancelled, Deleted}
       && IssuedSlot in prn.status.slots
       && startDate <= prn.status.slots[IssuedSlot].at / (24 * 60 * 60 * 1000) <= endDate
    then prn.tonnage else 0
  }

  function DayShares(prns: seq<Prn>, ledger: LedgerId, startDate: Day, endDate: Day): int {
    if prns == [] then 0
    else DayShares(prns[..|prns| - 1], ledger, startDate, endDate) + DayShare(prns[|prns| - 1], ledger, startDate, endDate)
  }

  lemma AggregateSnoc(prns: seq<Prn>, prn: Prn, start: Instant, end: Instant)
    ensures AggregateIssuedTonnage(prns + [prn], start, end)
         == AggregateIssuedTonnage(prns, start, end) + (if IsCounted(prn, start, end) then prn.tonnage else 0)
  {
    assert (prns + [prn])[..|prns|] == prns;
  }

  lemma InRangeByDay(at: Instant, startDate: Day, endDate: Day)
    ensures StartOfDay(startDate) <= at <= EndOfDay(endDate) <==> startDate <= at / MS_PER_DAY <= endDate
  {}

  function CountedShare(prn: Prn, ledger: LedgerId, start: Instant, end: Instant): int {
    if prn.ledger == ledger && prn.status.current != Deleted && IsCounted(prn, start, end) then prn.tonnage else 0
  }

  lemma CountedIsShared(prn: Prn, ledger: LedgerId, startDate: Day, endDate: Day)
    ensures CountedShare(prn, ledger, StartOfDay(startDate), EndOfDay(endDate)) == DayShare(prn, ledger, startDate, endDate)
  {
    if IssuedAt(prn).Some? {
      InRangeByDay(IssuedAt(prn).value, startDate, endDate);
    }
  }

  function CountedShares(prns: seq<Prn>, ledger: LedgerId, start: Instant, end: Instant): int {
    if prns == [] then 0
    else CountedShares(prns[..|prns| - 1], ledger, start, end) + CountedShare(prns[|prns| - 1], ledger, start, end)
  }

  lemma {:induction false} AggregateIsCountedShares(prns: seq<Prn>, ledger: LedgerId, start: Instant, end: Instant)
    ensures AggregateIssuedTonnage(FindByAccreditation(prns, ledger), start, end) == CountedShares(prns, ledger, start, end)
  {
    if prns != [] {
      var front, prn := prns[..|prns| - 1], prns[|prns| - 1];
      var found := FindByAccreditation(front, ledger);
      AggregateIsCountedShares(front, ledger, start, end);
      AggregateSnoc(found, prn, start, end);
      assert found + [] == found;
    }
  }

  lemma {:induction false} CountedSharesByDay(prns: seq<Prn>, ledger: LedgerId, startDate: Day, endDate: Day)
    ensures CountedShares(prns, ledger, StartOfDay(startDate), EndOfDay(endDate)) == DayShares(prns, ledger, startDate, endDate)
  {
    if prns != [] {
      CountedSharesByDay(prns[..|prns| - 1], ledger, startDate, endDate);
      CountedIsShared(prns[|prns| - 1], ledger, startDate, endDate);
    }
  }

  /** The figure is the tonnage of the accreditation's issued, uncancelled PRNs whose day of issue lies in the range. */
  lemma IssuedTonnageByDay(prns: seq<Prn>, ledger: LedgerId, startDate: Day, endDate: Day)
    ensures GetIssuedTonnage(prns, ledger, startDate, endDate)
         == if ledger.accreditationId == "" then None else Some(DayShares(prns, ledger, startDate, endDate))
  {
    AggregateIsCountedShares(prns, ledger, StartOfDay(startDate), EndOfDay(endDate));
    CountedSharesByDay(prns, ledger, startDate, endDate);
  }

  // ----- additivity -----

  lemma {:induction false} SharesSplit(prns: seq<Prn>, ledger: LedgerId, first: Day, middle: Day, last: Day)
    requires first <= middle <= last + 1
    ensures DayShares(prns, ledger, first, last) == DayShares(prns, ledger, first, middle - 1) + DayShares(prns, ledger, middle, last)
  {
    if prns != [] {
      SharesSplit(prns[..|prns| - 1], ledger, first, middle, last);
    }
  }

  lemma {:induction false} NoSharesInEmptyRange(prns: seq<Prn>, ledger: LedgerId, day: Day)
    ensures DayShares(prns, ledger, day, day - 1) == 0
  {
    if prns != [] {
      NoSharesInEmptyRange(prns[..|prns| - 1], ledger, day);
    }
  }

  /** The tonnage of each range between consecutive starts, added up. */
  function ChainTonnage(prns: seq<Prn>, ledger: LedgerId, starts: seq<Day>): int
    requires 1 <= |starts| && ledger.accreditationId != ""
  {
    if |starts| == 1 then 0
    else
      ChainTonnage(prns, ledger, starts[..|starts| - 1])
      + GetIssuedTonnage(prns, ledger, starts[|starts| - 2], starts[|starts| - 1] - 1).value
  }

  /** However a stretch of days is cut into adjacent ranges, their tonnages add up to the whole stretch's. */
  lemma {:induction false} AdjacentRangesAddUp(prns: seq<Prn>, ledger: LedgerId, starts: seq<Day>)
    requires 1 <= |starts| && ledger.accreditationId != ""
    requires forall i, j | 0 <= i < j < |starts| :: starts[i] <= starts[j]
    ensures GetIssuedTonnage(prns, ledger, starts[0], starts[|starts| - 1] - 1) == Some(ChainTonnage(prns, ledger, starts))
  {
    var first, last := starts[0], starts[|starts| - 1];
    IssuedTonnageByDay(prns, ledger, first, last - 1);
    if |starts| == 1 {
      NoSharesInEmptyRange(prns, ledger, first);
    } else {
      var middle := starts[|starts| - 2];
      AdjacentRangesAddUp(prns, ledger, starts[..|starts| - 1]);
      SharesSplit(prns, ledger, first, middle, last - 1);
      IssuedTonnageByDay(prns, ledger, first, middle - 1);
      IssuedTonnageByDay(prns, ledger, middle, last - 1);
    }
  }

  // ----- the calendar -----

  type Month = m: nat | 1 <= m <= 12 witness 1

  predicate IsLeapYear(year: nat) {
    year % 4 == 0 && (year % 100 != 0 || year % 400 == 0)
  }

  function MonthLength(year: nat, month: Month): (n: nat)
    ensures 28 <= n <= 31
  {
    if month in {4, 6, 9, 11} then 30
    else if month == 2 then (if IsLeapYear(year) then 29 else 28)
    else 31
  }

  /** Days of the year before the month. */
  function DaysBefore(year: nat, month: Month): nat {
    if month == 1 then 0 else DaysBefore(year, month - 1) + MonthLength(year, month - 1)
  }

  /** The months before March hold 59 days or 60, and a year 365 or 366. */
  lemma YearsHoldTheirDays(year: nat)
    ensures DaysBefore(year, 3) == if IsLeapYear(year) then 60 else 59
    ensures DaysBefore(year, 12) + MonthLength(year, 12) == if IsLeapYear(year) then 366 else 365
  {
    assert DaysBefore(year, 2) == 31;
    assert DaysBefore(year, 4) == DaysBefore(year, 3) + 31;
    assert DaysBefore(year, 6) == DaysBefore(year, 5) + 31 == DaysBefore(year, 4) + 61;
    assert DaysBefore(year, 8) == DaysBefore(year, 7) + 31 == DaysBefore(year, 6) + 61;
    assert DaysBefore(year, 10) == DaysBefore(year, 9) + 30 == DaysBefore(year, 8) + 61;
    assert DaysBefore(year, 12) == DaysBefore(year, 11) + 30 == DaysBefore(year, 10) + 61;
  }

  function MonthStart(yearStart: Day, year: nat, month: Month): Day {
    yearStart + DaysBefore(year, month)
  }

  function MonthEnd(yearStart: Day, year: nat, month: Month): Day {
    MonthStart(yearStart, year, month) + MonthLength(year, month) - 1
  }

  lemma MonthsAreAdjacent(yearStart: Day, year: nat, month: Month)
    requires month < 12
    ensures MonthEnd(yearStart, year, month) + 1 == MonthStart(yearStart, year, month + 1)
  {}

  /** The tonnages of a run of months of one year, month by month. */
  function MonthsTonnage(prns: seq<Prn>, ledger: LedgerId, yearStart: Day, year: nat, month: Month, count: nat): int
    requires ledger.accreditationId != "" && month + count <= 13
    decreases count
  {
    if count == 0 then 0
    else
      var m: Month := month + count - 1;
      MonthsTonnage(prns, ledger, yearStart, year, month, count - 1)
      + GetIssuedTonnage(prns, ledger, MonthStart(yearStart, year, m), MonthEnd(yearStart, year, m)).value
  }

  /** Any run of months adds up to the range it covers: three months to their quarter, twelve to the year. */
  lemma {:induction false} MonthsAddUp(prns: seq<Prn>, ledger: LedgerId, yearStart: Day, year: nat, month: Month, count: nat)
    requires ledger.accreditationId != "" && 1 <= count && month + count <= 13
    ensures var last: Month := month + count - 1;
      GetIssuedTonnage(prns, ledger, MonthStart(yearStart, year, month), MonthEnd(yearStart, year, last))
      == Some(MonthsTonnage(prns, ledger, yearStart, year, month, count))
    ensures var last: Month := month + count - 1; MonthStart(yearStart, year, month) <= MonthStart(yearStart, year, last)
    decreases count
  {
    if 1 < count {
      var before: Month := month + count - 2;
      var last: Month := month + count - 1;
      MonthsAddUp(prns, ledger, yearStart, year, month, count - 1);
      MonthsAreAdjacent(yearStart, year, before);
      var a, b, z := MonthStart(yearStart, year, month), MonthStart(yearStart, year, last), MonthEnd(yearStart, year, last);
      SharesSplit(prns, ledger, a, b, z);
      IssuedTonnageByDay(prns, ledger, a, b - 1);
      IssuedTonnageByDay(prns, ledger, b, z);
      IssuedTonnageByDay(prns, ledger, a, z);
    } else {
      assert MonthsTonnage(prns, ledger, yearStart, year, month, 0) == 0;
    }
  }

  lemma QuarterIsItsThreeMonths(prns: seq<Prn>, ledger: LedgerId, yearStart: Day, year: nat, quarter: nat)
    requires ledger.accreditationId != "" && 1 <= quarter <= 4
    ensures var m: Month := 3 * quarter - 2;
      GetIssuedTonnage(prns, ledger, MonthStart(yearStart, year, m), MonthEnd(yearStart, year, m + 2)).value
      == GetIssuedTonnage(prns, ledger, MonthStart(yearStart, year, m), MonthEnd(yearStart, year, m)).value
       + GetIssuedTonnage(prns, ledger, MonthStart(yearStart, year, m + 1), MonthEnd(yearStart, year, m + 1)).value
       + GetIssuedTonnage(prns, ledger, MonthStart(yearStart, year, m + 2), MonthEnd(yearStart, year, m + 2)).value
  {
    var m: Month := 3 * quarter - 2;
    MonthsAddUp(prns, ledger, yearStart, year, m, 3);
    assert MonthsTonnage(prns, ledger, yearStart, year, m, 2)
        == MonthsTonnage(prns, ledger, yearStart, year, m, 1)
         + GetIssuedTonnage(prns, ledger, MonthStart(yearStart, year, m + 1), MonthEnd(yearStart, year, m + 1)).value;
    assert MonthsTonnage(prns, ledger, yearStart, year, m, 0) == 0;
  }
}

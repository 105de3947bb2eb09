/** Reporting periods: which period a date falls in, how periods are keyed, and which were submitted (src/reports/domain). */
module ReportPeriods {
  import opened Decimals

  datatype Cadence = Monthly | Quarterly

  type Month = m: nat | 1 <= m <= 12 witness 1

  /** The part of an ISO calendar date that decides its period. */
  datatype CalendarDate = CalendarDate(year: nat, month: Month)

  datatype PeriodRef = PeriodRef(year: nat, cadence: Cadence, period: nat)

  function MonthsPerPeriod(cadence: Cadence): (n: nat)
    ensures n == 1 || n == 3
  {
    match cadence
    case Monthly => 1
    case Quarterly => 3
  }

  /** Math.ceil(month / months per period). */
  function PeriodForDate(date: CalendarDate, cadence: Cadence): PeriodRef {
    var n := MonthsPerPeriod(cadence);
    PeriodRef(date.year, cadence, (date.month + n - 1) / n)
  }

  /** Every month falls in exactly one period of its year, and a period covers the consecutive months up to its end. */
  lemma PeriodCoversItsMonths(date: CalendarDate, cadence: Cadence)
    ensures var p, n := PeriodForDate(date, cadence).period, MonthsPerPeriod(cadence);
      1 <= p <= 12 / n && (p - 1) * n < date.month <= p * n
  {}

  /** A month is its own monthly period and the quarter p holds the months 3p - 2 to 3p, in the date's own year. */
  lemma PeriodsOfAMonth(date: CalendarDate)
    ensures PeriodForDate(date, Monthly) == PeriodRef(date.year, Monthly, date.month)
    ensures forall p: nat :: PeriodForDate(date, Quarterly) == PeriodRef(date.year, Quarterly, p) <==> 3 * p - 2 <= date.month <= 3 * p
    ensures PeriodForDate(date, Quarterly).year == date.year && PeriodForDate(date, Quarterly).cadence == Quarterly
  {}

  // ----- keys -----

  function CadenceName(cadence: Cadence): string {
    match cadence
    case Monthly => "monthly"
    case Quarterly => "quarterly"
  }

  /** The identity string used across the reports domain. */
  function PeriodKey(ref: PeriodRef): string {
    Decimal(ref.year) + ":" + CadenceName(ref.cadence) + ":" + Decimal(ref.period)
  }

  /** The key of the submitted set, which holds the periods of one cadence. */
  function SubmittedKey(year: nat, period: nat): string {
    Decimal(year) + ":" + Decimal(period)
  }

  function FirstColon(s: string): nat {
    if s == "" || s[0] == ':' then 0 else 1 + FirstColon(s[1..])
  }

  lemma {:induction false} DigitsHoldNoColon(a: string, x: string)
    requires AllDigits(a)
    ensures FirstColon(a + ":" + x) == |a|
  {
    var s := a + ":" + x;
    if a != "" {
      DigitsHoldNoColon(a[1..], x);
      assert s[1..] == a[1..] + ":" + x;
    }
  }

  /** A run of digits before a colon can be read back. */
  lemma ColonEndsDigits(a: string, x: string, b: string, y: string)
    requires AllDigits(a) && AllDigits(b)
    requires a + ":" + x == b + ":" + y
    ensures a == b && x == y
  {
    var s := a + ":" + x;
    DigitsHoldNoColon(a, x);
    DigitsHoldNoColon(b, y);
    assert s[..|a|] == a && s[..|a|] == b;
    assert s[|a| + 1..] == x && s[|a| + 1..] == y;
  }

  lemma CadenceNameIsAPrefixCode(a: Cadence, x: string, b: Cadence, y: string)
    requires CadenceName(a) + x == CadenceName(b) + y
    ensures a == b && x == y
  {
    var s := CadenceName(a) + x;
    assert s[0] == CadenceName(a)[0] == CadenceName(b)[0];
    var n := |CadenceName(a)|;
    assert s[n..] == x && s[n..] == y;
  }

  lemma PeriodKeyParts(ref: PeriodRef)
    ensures PeriodKey(ref) == Decimal(ref.year) + ":" + (CadenceName(ref.cadence) + (":" + Decimal(ref.period)))
  {
    var start, name, end := Decimal(ref.year) + ":", CadenceName(ref.cadence), Decimal(ref.period);
    assert start + name + ":" + end == start + (name + (":" + end));
  }

  lemma PeriodKeyIsInjective(a: PeriodRef, b: PeriodRef)
    ensures PeriodKey(a) == PeriodKey(b) ==> a == b
  {
    if PeriodKey(a) == PeriodKey(b) {
      var p, q := ":" + Decimal(a.period), ":" + Decimal(b.period);
      PeriodKeyParts(a);
      PeriodKeyParts(b);
      ColonEndsDigits(Decimal(a.year), CadenceName(a.cadence) + p, Decimal(b.year), CadenceName(b.cadence) + q);
      CadenceNameIsAPrefixCode(a.cadence, p, b.cadence, q);
      assert p[1..] == Decimal(a.period) && q[1..] == Decimal(b.period);
      DecimalInjective(a.year, b.year);
      DecimalInjective(a.period, b.period);
    }
  }

  lemma SubmittedKeyIsInjective(y1: nat, p1: nat, y2: nat, p2: nat)
    ensures SubmittedKey(y1, p1) == SubmittedKey(y2, p2) ==> y1 == y2 && p1 == p2
  {
    if SubmittedKey(y1, p1) == SubmittedKey(y2, p2) {
      ColonEndsDigits(Decimal(y1), Decimal(p1), Decimal(y2), Decimal(p2));
      DecimalInjective(y1, y2);
      DecimalInjective(p1, p2);
    }
  }

  // ----- submitted periods -----

  datatype ReportSlot = ReportSlot(period: nat, currentIsSubmitted: bool, previousSubmissions: nat)

  /** The reports of one year; a cadence may have no slots at all. */
  datatype PeriodicReport = PeriodicReport(year: nat, reports: map<Cadence, seq<ReportSlot>>)

  predicate HasBeenSubmitted(slot: ReportSlot) {
    slot.currentIsSubmitted || 0 < slot.previousSubmissions
  }

  function SlotsOf(report: PeriodicReport, cadence: Cadence): seq<ReportSlot> {
    if cadence in report.reports then report.reports[cadence] else []
  }

  /** Some report of that year has a submitted slot for that period. */
  ghost predicate WasSubmitted(reports: seq<PeriodicReport>, ref: PeriodRef) {
    exists i, j | 0 <= i < |reports| && 0 <= j < |SlotsOf(reports[i], ref.cadence)| ::
      && reports[i].year == ref.year
      && SlotsOf(reports[i], ref.cadence)[j].period == ref.period
      && (SlotsOf(reports[i], ref.cadence)[j].currentIsSubmitted || 0 < SlotsOf(reports[i], ref.cadence)[j].previousSubmissions)
  }

  ghost function SubmittedKeys(reports: seq<PeriodicReport>, cadence: Cadence): set<string> {
    set i, j | 0 <= i < |reports| && 0 <= j < |SlotsOf(reports[i], cadence)| && HasBeenSubmitted(SlotsOf(reports[i], cadence)[j]) ::
      SubmittedKey(reports[i].year, SlotsOf(reports[i], cadence)[j].period)
  }

  ghost function SlotKeys(year: nat, slots: seq<ReportSlot>): set<string> {
    set k | 0 <= k < |slots| && HasBeenSubmitted(slots[k]) :: SubmittedKey(year, slots[k].period)
  }

  lemma SlotKeysSnoc(year: nat, slots: seq<ReportSlot>, slot: ReportSlot)
    ensures SlotKeys(year, slots + [slot])
         == SlotKeys(year, slots) + if HasBeenSubmitted(slot) then {SubmittedKey(year, slot.period)} else {}
  {
    var longer := slots + [slot];
    assert longer[|slots|] == slot;
    forall key | key in SlotKeys(year, slots) ensures key in SlotKeys(year, longer) {
      var k :| 0 <= k < |slots| && HasBeenSubmitted(slots[k]) && SubmittedKey(year, slots[k].period) == key;
      assert longer[k] == slots[k];
    }
  }

  lemma SubmittedKeysSnoc(reports: seq<PeriodicReport>, report: PeriodicReport, cadence: Cadence)
    ensures SubmittedKeys(reports + [report], cadence)
         == SubmittedKeys(reports, cadence) + SlotKeys(report.year, SlotsOf(report, cadence))
  {
    var longer := reports + [report];
    assert longer[|reports|] == report;
    forall key | key in SubmittedKeys(reports, cadence) ensures key in SubmittedKeys(longer, cadence) {
      var i, j :| 0 <= i < |reports| && 0 <= j < |SlotsOf(reports[i], cadence)| && HasBeenSubmitted(SlotsOf(reports[i], cadence)[j])
        && SubmittedKey(reports[i].year, SlotsOf(reports[i], cadence)[j].period) == key;
      assert longer[i] == reports[i];
    }
    forall key | key in SlotKeys(report.year, SlotsOf(report, cadence)) ensures key in SubmittedKeys(longer, cadence) {
      var j :| 0 <= j < |SlotsOf(report, cadence)| && HasBeenSubmitted(SlotsOf(report, cadence)[j])
        && SubmittedKey(report.year, SlotsOf(report, cadence)[j].period) == key;
      assert SlotsOf(longer[|reports|], cadence)[j] == SlotsOf(report, cadence)[j];
    }
  }

  method BuildSubmittedPeriods(reports: seq<PeriodicReport>, cadence: Cadence) returns (submitted: set<string>)
    ensures submitted == SubmittedKeys(reports, cadence)
  {
    submitted := {};
    for i := 0 to |reports|
      invariant submitted == SubmittedKeys(reports[..i], cadence)
    {
      var slots := SlotsOf(reports[i], cadence);
      ghost var before := submitted;
      for j := 0 to |slots|
        invariant submitted == before + SlotKeys(reports[i].year, slots[..j])
      {
        SlotKeysSnoc(reports[i].year, slots[..j], slots[j]);
        assert slots[..j + 1] == slots[..j] + [slots[j]];
        if HasBeenSubmitted(slots[j]) {
          submitted := submitted + {SubmittedKey(reports[i].year, slots[j].period)};
        }
      }
      assert slots[..|slots|] == slots;
      SubmittedKeysSnoc(reports[..i], reports[i], cadence);
      assert reports[..i + 1] == reports[..i] + [reports[i]];
    }
    assert reports[..|reports|] == reports;
  }

  predicate IsDateInSubmittedPeriod(submitted: set<string>, date: CalendarDate, cadence: Cadence) {
    var ref := PeriodForDate(date, cadence);
    SubmittedKey(ref.year, ref.period) in submitted
  }

  /** The keyed set answers exactly whether the date's own period was submitted; keys never collide. */
  lemma SubmittedSetIsExact(reports: seq<PeriodicReport>, date: CalendarDate, cadence: Cadence)
    ensures IsDateInSubmittedPeriod(SubmittedKeys(reports, cadence), date, cadence)
       <==> WasSubmitted(reports, PeriodForDate(date, cadence))
  {
    var ref := PeriodForDate(date, cadence);
    if IsDateInSubmittedPeriod(SubmittedKeys(reports, cadence), date, cadence) {
      var i, j :| 0 <= i < |reports| && 0 <= j < |SlotsOf(reports[i], cadence)| && HasBeenSubmitted(SlotsOf(reports[i], cadence)[j])
        && SubmittedKey(reports[i].year, SlotsOf(reports[i], cadence)[j].period) == SubmittedKey(ref.year, ref.period);
      SubmittedKeyIsInjective(reports[i].year, SlotsOf(reports[i], cadence)[j].period, ref.year, ref.period);
    }
  }
}

/** What the period classification promises its readers: conservation, agreement, additivity and order-independence. */
module PeriodResults {
  import opened Wrappers
  import opened Rounding
  import opened Sequences
  import opened OrderedMaps
  import opened ReportPeriods
  import opened RecordChanges
  import opened PeriodStatus

  // ----- tonnage is conserved -----

  /** The sum of the four balance-affecting totals. */
  function TotalTonnage(loads: Loads): real {
    loads.openPeriodLoads.added.balanceAffecting.tonnageDelta
    + loads.openPeriodLoads.adjusted.balanceAffecting.tonnageDelta
    + loads.closedPeriodLoads.added.balanceAffecting.tonnageDelta
    + loads.closedPeriodLoads.adjusted.balanceAffecting.tonnageDelta
  }

  /** Some reporting date of the row has a value. */
  predicate HasDate(data: RowData, schema: TableSchema) {
    exists i | 0 <= i < |schema.reportingDateFields| :: IsDated(data, schema.reportingDateFields[i])
  }

  /** What a row changes the balance by, whatever the periods: no submitted set appears here. */
  function NetChange(row: ValidatedWasteRecord, ctx: Context): real {
    if !TakesPart(row, ctx) then 0.0
    else
      var schema, key := ctx.schemas[row.tableName], RecordKey(row.record);
      var gained := if HasDate(row.record.data, schema) then NewAmount(row, ctx) else 0.0;
      if ctx.changes[key] == Added then gained
      else
        var lost := if key in ctx.states && HasDate(ctx.states[key].data, schema) then OldAmount(row, ctx) else 0.0;
        gained - lost
  }

  function NetChanges(rows: seq<ValidatedWasteRecord>, ctx: Context): real {
    SumBy(rows, row => NetChange(row, ctx))
  }

  /** Every amount the row brings into play already has at most two decimal places. */
  ghost predicate ExactRow(row: ValidatedWasteRecord, ctx: Context) {
    TwoPlaces(OldAmount(row, ctx)) && (row.tableName in ctx.schemas ==> TwoPlaces(NewAmount(row, ctx)))
  }

  /** The legs add up to the net, to half a hundredth a leg. */
  predicate Within(legs: seq<Leg>, net: real) {
    Abs(Delta(legs) - net) <= 0.005 * |legs| as real
  }

  lemma {:induction false} DeltaConcat(a: seq<Leg>, b: seq<Leg>)
    ensures Delta(a + b) == Delta(a) + Delta(b)
  {
    if b == [] {
      assert a + b == a;
    } else {
      assert (a + b)[..|a + b| - 1] == a + b[..|b| - 1];
      DeltaConcat(a, b[..|b| - 1]);
    }
  }

  ghost predicate TwoPlaceLegs(legs: seq<Leg>) {
    forall i | 0 <= i < |legs| :: TwoPlaces(legs[i].tonnageDelta)
  }

  lemma PeriodOfDatedData(data: RowData, schema: TableSchema, submitted: set<string>, cadence: Cadence)
    ensures ClassifyPeriodStatus(data, schema.reportingDateFields, submitted, cadence).Some? <==> HasDate(data, schema)
  {
    if i :| 0 <= i < |schema.reportingDateFields| && IsSubmittedDate(data, schema.reportingDateFields[i], submitted, cadence) {
      assert IsDated(data, schema.reportingDateFields[i]);
    }
  }

  lemma LegsAreRounded(oldPeriod: Option<Period>, newPeriod: Option<Period>, oldAmount: real, newAmount: real, identity: RowIdentity)
    ensures TwoPlaceLegs(AdjustedLegs(oldPeriod, newPeriod, oldAmount, newAmount, identity))
    ensures TwoPlaceLegs(AddedLegs(newPeriod, newAmount, identity))
  {
    RoundingIsNearest(-oldAmount);
    RoundingIsNearest(newAmount);
    RoundingIsNearest(newAmount - oldAmount);
  }

  /** One adjusted row: whether or not it crosses periods, its legs add up to the net change, to half a hundredth a leg. */
  lemma {:induction false} AdjustedLegsConserve(oldPeriod: Option<Period>, newPeriod: Option<Period>, oldAmount: real, newAmount: real, identity: RowIdentity)
    ensures var legs := AdjustedLegs(oldPeriod, newPeriod, oldAmount, newAmount, identity);
      var net := (if newPeriod.Some? then newAmount else 0.0) - (if oldPeriod.Some? then oldAmount else 0.0);
      && Within(legs, net)
      && (TwoPlaces(oldAmount) && TwoPlaces(newAmount) ==> Delta(legs) == net)
  {
    var legs := AdjustedLegs(oldPeriod, newPeriod, oldAmount, newAmount, identity);
    RoundingIsNearest(-oldAmount);
    RoundingIsNearest(newAmount);
    RoundingIsNearest(newAmount - oldAmount);
    if TwoPlaces(oldAmount) && TwoPlaces(newAmount) {
      TwoPlacesAreClosed(newAmount, oldAmount);
      TwoPlacesAreClosed(oldAmount, newAmount);
      TwoPlacesAreFixed(-oldAmount);
      TwoPlacesAreFixed(newAmount);
      TwoPlacesAreFixed(newAmount - oldAmount);
    }
    DeltaOfFew(legs);
  }

  lemma DeltaOfFew(legs: seq<Leg>)
    requires |legs| <= 2
    ensures |legs| == 0 ==> Delta(legs) == 0.0
    ensures |legs| == 1 ==> Delta(legs) == legs[0].tonnageDelta
    ensures |legs| == 2 ==> Delta(legs) == legs[0].tonnageDelta + legs[1].tonnageDelta
  {
    if |legs| == 2 {
      assert legs == [legs[0]] + [legs[1]];
      DeltaConcat([legs[0]], [legs[1]]);
      assert Delta([legs[0]]) == legs[0].tonnageDelta && Delta([legs[1]]) == legs[1].tonnageDelta;
    }
  }

  lemma {:induction false} AddedLegsConserve(period: Option<Period>, amount: real, identity: RowIdentity)
    ensures var legs := AddedLegs(period, amount, identity);
      var net := if period.Some? then amount else 0.0;
      && Within(legs, net)
      && (TwoPlaces(amount) ==> Delta(legs) == net)
      && TwoPlaceLegs(legs)
  {
    RoundingIsNearest(amount);
    if TwoPlaces(amount) {
      TwoPlacesAreFixed(amount);
    }
    DeltaOfFew(AddedLegs(period, amount, identity));
  }

  /** The net change of a row, in terms of the periods its data fall in. */
  lemma NetChangeByPeriods(row: ValidatedWasteRecord, ctx: Context)
    requires TakesPart(row, ctx)
    ensures NetChange(row, ctx)
         == (if NewPeriod(row, ctx).Some? then NewAmount(row, ctx) else 0.0)
          - (if ctx.changes[RecordKey(row.record)] != Added && OldPeriod(row, ctx).Some? then OldAmount(row, ctx) else 0.0)
  {
    var schema, key := ctx.schemas[row.tableName], RecordKey(row.record);
    PeriodOfDatedData(row.record.data, schema, ctx.submitted, ctx.cadence);
    if key in ctx.states {
      PeriodOfDatedData(ctx.states[key].data, schema, ctx.submitted, ctx.cadence);
    }
  }

  lemma {:induction false} RowConserves(row: ValidatedWasteRecord, ctx: Context)
    ensures Within(LegsOfRow(row, ctx), NetChange(row, ctx))
    ensures ExactRow(row, ctx) ==> Delta(LegsOfRow(row, ctx)) == NetChange(row, ctx)
    ensures TwoPlaceLegs(LegsOfRow(row, ctx))
  {
    if TakesPart(row, ctx) {
      NetChangeByPeriods(row, ctx);
      var identity := IdentityOf(row, ctx.schemas[row.tableName]);
      var before, newer, was, now := OldPeriod(row, ctx), NewPeriod(row, ctx), OldAmount(row, ctx), NewAmount(row, ctx);
      if ctx.changes[RecordKey(row.record)] == Added {
        AddedLegsConserve(newer, now, identity);
      } else {
        LegsAreRounded(before, newer, was, now, identity);
        AdjustedLegsConserve(before, newer, was, now, identity);
      }
    }
  }

  /** Two errors within their bounds add up within the sum of the bounds. */
  lemma ErrorsAdd(a: seq<Leg>, b: seq<Leg>, u: real, v: real)
    requires Within(a, u) && Within(b, v)
    ensures Within(a + b, u + v)
  {
    DeltaConcat(a, b);
  }

  /** Bounds row by row add up over the rows, whatever yields the legs and the nets. */
  lemma {:induction false} BoundsAddUp<A>(rows: seq<A>, legs: A -> seq<Leg>, net: A -> real)
    requires forall i | 0 <= i < |rows| :: Within(legs(rows[i]), net(rows[i]))
    ensures Within(FlatMap(rows, legs), SumBy(rows, net))
  {
    if rows != [] {
      var front, last := rows[..|rows| - 1], rows[|rows| - 1];
      BoundsAddUp(front, legs, net);
      ErrorsAdd(FlatMap(front, legs), legs(last), SumBy(front, net), net(last));
    }
  }

  lemma {:induction false} EqualitiesAddUp<A>(rows: seq<A>, legs: A -> seq<Leg>, net: A -> real)
    requires forall i | 0 <= i < |rows| :: Delta(legs(rows[i])) == net(rows[i])
    ensures Delta(FlatMap(rows, legs)) == SumBy(rows, net)
  {
    if rows != [] {
      EqualitiesAddUp(rows[..|rows| - 1], legs, net);
      DeltaConcat(FlatMap(rows[..|rows| - 1], legs), legs(rows[|rows| - 1]));
    }
  }

  lemma {:induction false} TwoPlacesAddUp<A>(rows: seq<A>, legs: A -> seq<Leg>)
    requires forall i | 0 <= i < |rows| :: TwoPlaceLegs(legs(rows[i])) && |legs(rows[i])| <= 2
    ensures TwoPlaceLegs(FlatMap(rows, legs)) && |FlatMap(rows, legs)| <= 2 * |rows|
  {
    if rows != [] {
      TwoPlacesAddUp(rows[..|rows| - 1], legs);
    }
  }

  lemma RowsConserveWithin(rows: seq<ValidatedWasteRecord>, ctx: Context)
    ensures Within(LegsOf(rows, ctx), NetChanges(rows, ctx))
  {
    forall i | 0 <= i < |rows|
      ensures Within(LegsOfRow(rows[i], ctx), NetChange(rows[i], ctx))
    {
      RowConserves(rows[i], ctx);
    }
    BoundsAddUp(rows, row => LegsOfRow(row, ctx), row => NetChange(row, ctx));
  }

  lemma ExactRowsConserve(rows: seq<ValidatedWasteRecord>, ctx: Context)
    requires forall i | 0 <= i < |rows| :: ExactRow(rows[i], ctx)
    ensures Delta(LegsOf(rows, ctx)) == NetChanges(rows, ctx)
  {
    forall i | 0 <= i < |rows| ensures Delta(LegsOfRow(rows[i], ctx)) == NetChange(rows[i], ctx) {
      RowConserves(rows[i], ctx);
    }
    EqualitiesAddUp(rows, row => LegsOfRow(row, ctx), row => NetChange(row, ctx));
  }

  lemma LegsHaveTwoPlaces(rows: seq<ValidatedWasteRecord>, ctx: Context)
    ensures TwoPlaceLegs(LegsOf(rows, ctx)) && |LegsOf(rows, ctx)| <= 2 * |rows|
  {
    forall i | 0 <= i < |rows| ensures TwoPlaceLegs(LegsOfRow(rows[i], ctx)) && |LegsOfRow(rows[i], ctx)| <= 2 {
      RowConserves(rows[i], ctx);
    }
    TwoPlacesAddUp(rows, row => LegsOfRow(row, ctx));
  }

  lemma {:induction false} SelectKeepsTwoPlaces(legs: seq<Leg>, period: Period, change: RecordChange, affecting: bool)
    requires TwoPlaceLegs(legs)
    ensures TwoPlaces(Delta(Select(legs, period, change, affecting)))
  {
    if legs == [] {
      assert 0.0 == OfHundredths(0);
    } else {
      var front, last := legs[..|legs| - 1], legs[|legs| - 1];
      SelectKeepsTwoPlaces(front, period, change, affecting);
      var chosen := Select(front, period, change, affecting);
      DeltaSnoc(chosen, last);
      TwoPlacesAreClosed(Delta(chosen), last.tonnageDelta);
      assert chosen + [] == chosen;
    }
  }

  /** The four buckets share out every leg that moves the balance, so their deltas add up to all of them. */
  lemma {:induction false} BucketsPartitionDelta(legs: seq<Leg>)
    requires forall i | 0 <= i < |legs| :: legs[i].change != Unchanged
    ensures Delta(legs)
         == Delta(Select(legs, Open, Added, true)) + Delta(Select(legs, Open, Adjusted, true))
          + Delta(Select(legs, Closed, Added, true)) + Delta(Select(legs, Closed, Adjusted, true))
  {
    if legs != [] {
      var front, last := legs[..|legs| - 1], legs[|legs| - 1];
      BucketsPartitionDelta(front);
      SelectedDelta(front, last, Open, Added);
      SelectedDelta(front, last, Open, Adjusted);
      SelectedDelta(front, last, Closed, Added);
      SelectedDelta(front, last, Closed, Adjusted);
      assert front + [last] == legs;
    }
  }

  lemma SelectedDelta(front: seq<Leg>, last: Leg, period: Period, change: RecordChange)
    ensures Delta(Select(front + [last], period, change, true))
         == Delta(Select(front, period, change, true))
          + (if last.period == period && last.change == change then last.tonnageDelta else 0.0)
  {
    assert (front + [last])[..|front|] == front;
    var chosen := Select(front, period, change, true);
    DeltaSnoc(chosen, last);
    assert chosen + [] == chosen;
  }

  /**
   * The four totals add up to the net change of the rows: what dated added rows bring, plus for adjusted rows the new
   * amount if the new row is dated less the old amount if the old one is. Exactly on two-decimal amounts, and within
   * half a hundredth a leg otherwise; which periods are submitted makes no difference.
   */
  lemma TonnageIsConserved(rows: seq<ValidatedWasteRecord>, ctx: Context)
    ensures Abs(TotalTonnage(LoadsOf(rows, ctx)) - NetChanges(rows, ctx)) <= 0.005 * |LegsOf(rows, ctx)| as real
    ensures |LegsOf(rows, ctx)| <= 2 * |rows|
    ensures (forall i | 0 <= i < |rows| :: ExactRow(rows[i], ctx)) ==> TotalTonnage(LoadsOf(rows, ctx)) == NetChanges(rows, ctx)
  {
    var legs := LegsOf(rows, ctx);
    RowsConserveWithin(rows, ctx);
    LegsHaveTwoPlaces(rows, ctx);
    if forall i | 0 <= i < |rows| :: ExactRow(rows[i], ctx) {
      ExactRowsConserve(rows, ctx);
    }
    LegsAreNeverUnchanged(rows, ctx);
    BucketsPartitionDelta(legs);
    TotalIsDelta(legs, Open, Added);
    TotalIsDelta(legs, Open, Adjusted);
    TotalIsDelta(legs, Closed, Added);
    TotalIsDelta(legs, Closed, Adjusted);
  }

  /** Rounding a bucket's total once more changes nothing. */
  lemma TotalIsDelta(legs: seq<Leg>, period: Period, change: RecordChange)
    requires TwoPlaceLegs(legs)
    ensures GroupOf(legs, period, change).balanceAffecting.tonnageDelta == Delta(Select(legs, period, change, true))
  {
    SelectKeepsTwoPlaces(legs, period, change, true);
    TwoPlacesAreFixed(Delta(Select(legs, period, change, true)));
  }

  // ----- what each period gains and loses -----

  predicate HasSubmittedDate(data: RowData, schema: TableSchema, ctx: Context) {
    exists i | 0 <= i < |schema.reportingDateFields| && schema.reportingDateFields[i] in data.dates ::
      IsDateInSubmittedPeriod(ctx.submitted, data.dates[schema.reportingDateFields[i]], ctx.cadence)
  }

  /** One submitted date closes a row's data; dated data with none is open; undated data falls in neither period. */
  predicate FallsIn(data: RowData, schema: TableSchema, ctx: Context, period: Period) {
    match period
    case Closed => HasSubmittedDate(data, schema, ctx)
    case Open => HasDate(data, schema) && !HasSubmittedDate(data, schema, ctx)
  }

  /** What a reading counts for: its amount if the row is included in the waste balance, nothing otherwise. */
  function Counted(c: Classification): real {
    if c.outcome == Included then c.transactionAmount else 0.0
  }

  function CountedNow(row: ValidatedWasteRecord, schema: TableSchema): real {
    match schema.classify
    case None => 0.0
    case Some(classify) => Counted(classify(row.record.data))
  }

  /** The row is not ignored, its change is this one, and its table is one the processing type has. */
  predicate IsChanged(row: ValidatedWasteRecord, ctx: Context, change: RecordChange) {
    && RecordKey(row.record) in ctx.changes && ctx.changes[RecordKey(row.record)] == change
    && row.outcome != Ignored
    && row.tableName in ctx.schemas
  }

  /** The data an adjusted row replaces falls in the period. */
  predicate LeavesPeriod(row: ValidatedWasteRecord, ctx: Context, schema: TableSchema, period: Period, change: RecordChange) {
    change == Adjusted && RecordKey(row.record) in ctx.states && FallsIn(ctx.states[RecordKey(row.record)].data, schema, ctx, period)
  }

  /** The row counts in the period: its new data falls there or, if it was adjusted, its old data did. */
  predicate CountsIn(row: ValidatedWasteRecord, ctx: Context, period: Period, change: RecordChange) {
    && IsChanged(row, ctx, change)
    && var schema := ctx.schemas[row.tableName];
      FallsIn(row.record.data, schema, ctx, period) || LeavesPeriod(row, ctx, schema, period, change)
  }

  /** The new amount if the new data falls in the period, less the old amount if the old data did, rounded once. */
  function ShareIn(row: ValidatedWasteRecord, ctx: Context, period: Period, change: RecordChange): real {
    if !CountsIn(row, ctx, period, change) then 0.0
    else
      var schema := ctx.schemas[row.tableName];
      var gained := if FallsIn(row.record.data, schema, ctx, period) then CountedNow(row, schema) else 0.0;
      var lost := if LeavesPeriod(row, ctx, schema, period, change)
        then Counted(ctx.states[RecordKey(row.record)].classification) else 0.0;
      RoundToTwoDecimalPlaces(gained - lost)
  }

  /** How the row is listed: by its own id, its table's record type and the reasons of its new reading. */
  function ListedAs(row: ValidatedWasteRecord, schema: TableSchema): RowIdentity {
    RowIdentity(row.record.rowId, schema.wasteRecordType,
                match schema.classify
                case None => [NOT_CONTRIBUTING]
                case Some(classify) => Distinct(classify(row.record.data).reasons))
  }

  /** The rows that count in a period with a change, in upload order, each with its share; those of no share apart. */
  function RowsIn(rows: seq<ValidatedWasteRecord>, ctx: Context, period: Period, change: RecordChange, affecting: bool): seq<RowDetail> {
    if rows == [] then []
    else
      var row := rows[|rows| - 1];
      var share := ShareIn(row, ctx, period, change);
      RowsIn(rows[..|rows| - 1], ctx, period, change, affecting)
      + (if CountsIn(row, ctx, period, change) && (share != 0.0) == affecting
         then [RowDetail(ListedAs(row, ctx.schemas[row.tableName]), share)] else [])
  }

  lemma PeriodMeansFallsIn(data: RowData, schema: TableSchema, ctx: Context, period: Period)
    ensures ClassifyPeriodStatus(data, schema.reportingDateFields, ctx.submitted, ctx.cadence) == Some(period)
       <==> FallsIn(data, schema, ctx, period)
  {
    PeriodOfDatedData(data, schema, ctx.submitted, ctx.cadence);
    assert HasSubmittedDate(data, schema, ctx)
      <==> exists i | 0 <= i < |schema.reportingDateFields| ::
             IsSubmittedDate(data, schema.reportingDateFields[i], ctx.submitted, ctx.cadence) by {
      if i :| 0 <= i < |schema.reportingDateFields| && IsSubmittedDate(data, schema.reportingDateFields[i], ctx.submitted, ctx.cadence) {
        assert schema.reportingDateFields[i] in data.dates;
      }
      if HasSubmittedDate(data, schema, ctx) {
        var i :| 0 <= i < |schema.reportingDateFields| && schema.reportingDateFields[i] in data.dates
          && IsDateInSubmittedPeriod(ctx.submitted, data.dates[schema.reportingDateFields[i]], ctx.cadence);
        assert IsSubmittedDate(data, schema.reportingDateFields[i], ctx.submitted, ctx.cadence);
      }
    }
  }

  function SelectOne(leg: Leg, period: Period, change: RecordChange, affecting: bool): seq<Leg> {
    if leg.period == period && leg.change == change && (leg.tonnageDelta != 0.0) == affecting then [leg] else []
  }

  lemma SelectOfOne(leg: Leg, period: Period, change: RecordChange, affecting: bool)
    ensures Select([leg], period, change, affecting) == SelectOne(leg, period, change, affecting)
  {
    assert [leg][..0] == [] && Select([], period, change, affecting) == [];
  }

  lemma {:induction false} SelectOfTwo(a: Leg, b: Leg, period: Period, change: RecordChange, affecting: bool)
    ensures Select([a, b], period, change, affecting) == SelectOne(a, period, change, affecting) + SelectOne(b, period, change, affecting)
  {
    assert [a, b] == [a] + [b];
    SelectConcat([a], [b], period, change, affecting);
    SelectOfOne(a, period, change, affecting);
    SelectOfOne(b, period, change, affecting);
  }

  /** An adjusted row has one leg in each period its old or new data fall in, worth what the period gains less what it loses. */
  lemma {:induction false} AdjustedLegsByPeriod(
    oldPeriod: Option<Period>, newPeriod: Option<Period>, oldAmount: real, newAmount: real, identity: RowIdentity,
    period: Period, affecting: bool)
    ensures var share := RoundToTwoDecimalPlaces((if newPeriod == Some(period) then newAmount else 0.0)
                                                 - (if oldPeriod == Some(period) then oldAmount else 0.0));
      Select(AdjustedLegs(oldPeriod, newPeriod, oldAmount, newAmount, identity), period, Adjusted, affecting)
      == if (newPeriod == Some(period) || oldPeriod == Some(period)) && (share != 0.0) == affecting
         then [Leg(period, Adjusted, share, identity)] else []
    ensures Select(AdjustedLegs(oldPeriod, newPeriod, oldAmount, newAmount, identity), period, Added, affecting) == []
  {
    var legs := AdjustedLegs(oldPeriod, newPeriod, oldAmount, newAmount, identity);
    assert newAmount - 0.0 == newAmount && 0.0 - oldAmount == -oldAmount;
    if |legs| == 1 {
      assert legs == [legs[0]];
      SelectOfOne(legs[0], period, Adjusted, affecting);
      SelectOfOne(legs[0], period, Added, affecting);
    } else if |legs| == 2 {
      assert legs == [legs[0], legs[1]];
      SelectOfTwo(legs[0], legs[1], period, Adjusted, affecting);
      SelectOfTwo(legs[0], legs[1], period, Added, affecting);
    }
  }

  lemma {:induction false} AddedLegsByPeriod(newPeriod: Option<Period>, amount: real, identity: RowIdentity, period: Period, affecting: bool)
    ensures var share := RoundToTwoDecimalPlaces(amount);
      Select(AddedLegs(newPeriod, amount, identity), period, Added, affecting)
      == if newPeriod == Some(period) && (share != 0.0) == affecting then [Leg(period, Added, share, identity)] else []
    ensures Select(AddedLegs(newPeriod, amount, identity), period, Adjusted, affecting) == []
  {
    if newPeriod.Some? {
      var leg := Leg(newPeriod.value, Added, RoundToTwoDecimalPlaces(amount), identity);
      SelectOfOne(leg, period, Added, affecting);
      SelectOfOne(leg, period, Adjusted, affecting);
    }
  }

  /** The old and new periods and amounts of a row that takes part, said of its data. */
  lemma RowPeriods(row: ValidatedWasteRecord, ctx: Context, period: Period)
    requires row.tableName in ctx.schemas
    ensures var schema, key := ctx.schemas[row.tableName], RecordKey(row.record);
      && (NewPeriod(row, ctx) == Some(period) <==> FallsIn(row.record.data, schema, ctx, period))
      && (OldPeriod(row, ctx) == Some(period) <==> key in ctx.states && FallsIn(ctx.states[key].data, schema, ctx, period))
      && NewAmount(row, ctx) == CountedNow(row, schema)
      && (key in ctx.states ==> OldAmount(row, ctx) == Counted(ctx.states[key].classification))
      && IdentityOf(row, schema) == ListedAs(row, schema)
  {
    var schema, key := ctx.schemas[row.tableName], RecordKey(row.record);
    PeriodMeansFallsIn(row.record.data, schema, ctx, period);
    if key in ctx.states {
      PeriodMeansFallsIn(ctx.states[key].data, schema, ctx, period);
    }
  }

  lemma {:induction false} AddedRowLegsByPeriod(row: ValidatedWasteRecord, ctx: Context, period: Period, change: RecordChange, affecting: bool)
    requires change != Unchanged && TakesPart(row, ctx) && ctx.changes[RecordKey(row.record)] == Added
    ensures var share := ShareIn(row, ctx, period, change);
      Select(LegsOfRow(row, ctx), period, change, affecting)
      == if CountsIn(row, ctx, period, change) && (share != 0.0) == affecting
         then [Leg(period, change, share, ListedAs(row, ctx.schemas[row.tableName]))] else []
  {
    RowPeriods(row, ctx, period);
    AddedLegsByPeriod(NewPeriod(row, ctx), NewAmount(row, ctx), IdentityOf(row, ctx.schemas[row.tableName]), period, affecting);
  }

  /** The legs an adjusted row has in a period, once it is known where its old and new data fall. */
  lemma {:induction false} AdjustedLegsMeanShare(
    row: ValidatedWasteRecord, ctx: Context, oldPeriod: Option<Period>, newPeriod: Option<Period>, oldAmount: real, newAmount: real,
    period: Period, affecting: bool)
    requires IsChanged(row, ctx, Adjusted)
    requires newPeriod == Some(period) <==> FallsIn(row.record.data, ctx.schemas[row.tableName], ctx, period)
    requires oldPeriod == Some(period) <==> LeavesPeriod(row, ctx, ctx.schemas[row.tableName], period, Adjusted)
    requires newPeriod == Some(period) ==> newAmount == CountedNow(row, ctx.schemas[row.tableName])
    requires oldPeriod == Some(period) ==> oldAmount == Counted(ctx.states[RecordKey(row.record)].classification)
    ensures var share, listed := ShareIn(row, ctx, period, Adjusted), ListedAs(row, ctx.schemas[row.tableName]);
      Select(AdjustedLegs(oldPeriod, newPeriod, oldAmount, newAmount, listed), period, Adjusted, affecting)
      == if CountsIn(row, ctx, period, Adjusted) && (share != 0.0) == affecting then [Leg(period, Adjusted, share, listed)] else []
  {
    AdjustedLegsByPeriod(oldPeriod, newPeriod, oldAmount, newAmount, ListedAs(row, ctx.schemas[row.tableName]), period, affecting);
  }

  lemma {:induction false} AdjustedRowLegsByPeriod(row: ValidatedWasteRecord, ctx: Context, period: Period, change: RecordChange, affecting: bool)
    requires change != Unchanged && TakesPart(row, ctx) && ctx.changes[RecordKey(row.record)] == Adjusted
    ensures var share := ShareIn(row, ctx, period, change);
      Select(LegsOfRow(row, ctx), period, change, affecting)
      == if CountsIn(row, ctx, period, change) && (share != 0.0) == affecting
         then [Leg(period, change, share, ListedAs(row, ctx.schemas[row.tableName]))] else []
  {
    RowPeriods(row, ctx, period);
    var oldPeriod, newPeriod, oldAmount, newAmount := OldPeriod(row, ctx), NewPeriod(row, ctx), OldAmount(row, ctx), NewAmount(row, ctx);
    if change == Adjusted {
      AdjustedLegsMeanShare(row, ctx, oldPeriod, newPeriod, oldAmount, newAmount, period, affecting);
    } else {
      AdjustedLegsByPeriod(oldPeriod, newPeriod, oldAmount, newAmount, IdentityOf(row, ctx.schemas[row.tableName]), period, affecting);
    }
  }

  /** One row: the legs it has in a period with a change, said of the row alone. */
  lemma {:induction false} RowLegsByPeriod(row: ValidatedWasteRecord, ctx: Context, period: Period, change: RecordChange, affecting: bool)
    requires change != Unchanged
    ensures var share := ShareIn(row, ctx, period, change);
      Select(LegsOfRow(row, ctx), period, change, affecting)
      == if CountsIn(row, ctx, period, change) && (share != 0.0) == affecting
         then [Leg(period, change, share, ListedAs(row, ctx.schemas[row.tableName]))] else []
  {
    if TakesPart(row, ctx) {
      if ctx.changes[RecordKey(row.record)] == Added {
        AddedRowLegsByPeriod(row, ctx, period, change, affecting);
      } else {
        AdjustedRowLegsByPeriod(row, ctx, period, change, affecting);
      }
    }
  }

  ghost predicate Details(legs: seq<Leg>, rows: seq<RowDetail>) {
    |legs| == |rows| && forall i | 0 <= i < |legs| :: Detail(legs[i]) == rows[i]
  }

  lemma {:induction false} LegsByPeriod(rows: seq<ValidatedWasteRecord>, ctx: Context, period: Period, change: RecordChange, affecting: bool)
    requires change != Unchanged
    ensures Details(Select(LegsOf(rows, ctx), period, change, affecting), RowsIn(rows, ctx, period, change, affecting))
  {
    if rows == [] {
      assert LegsOf(rows, ctx) == [];
    } else {
      var front, row := rows[..|rows| - 1], rows[|rows| - 1];
      LegsByPeriod(front, ctx, period, change, affecting);
      RowLegsByPeriod(row, ctx, period, change, affecting);
      SelectConcat(LegsOf(front, ctx), LegsOfRow(row, ctx), period, change, affecting);
    }
  }

  lemma {:induction false} RowShare(row: ValidatedWasteRecord, ctx: Context, period: Period, change: RecordChange)
    requires change != Unchanged
    ensures Delta(Select(LegsOfRow(row, ctx), period, change, true)) == ShareIn(row, ctx, period, change)
  {
    RowLegsByPeriod(row, ctx, period, change, true);
    DeltaOfFew(Select(LegsOfRow(row, ctx), period, change, true));
  }

  /** The deltas selected row by row add up to those selected from all of the legs. */
  lemma {:induction false} SelectedDeltasAddUp<A>(rows: seq<A>, legs: A -> seq<Leg>, share: A -> real, period: Period, change: RecordChange)
    requires forall i | 0 <= i < |rows| :: Delta(Select(legs(rows[i]), period, change, true)) == share(rows[i])
    ensures Delta(Select(FlatMap(rows, legs), period, change, true)) == SumBy(rows, share)
  {
    if rows != [] {
      var front, last := rows[..|rows| - 1], rows[|rows| - 1];
      SelectedDeltasAddUp(front, legs, share, period, change);
      SelectConcat(FlatMap(front, legs), legs(last), period, change, true);
      DeltaConcat(Select(FlatMap(front, legs), period, change, true), Select(legs(last), period, change, true));
    }
  }

  lemma SharesAddUp(rows: seq<ValidatedWasteRecord>, ctx: Context, period: Period, change: RecordChange)
    requires change != Unchanged
    ensures Delta(Select(LegsOf(rows, ctx), period, change, true)) == SumBy(rows, row => ShareIn(row, ctx, period, change))
  {
    forall i | 0 <= i < |rows|
      ensures Delta(Select(LegsOfRow(rows[i], ctx), period, change, true)) == ShareIn(rows[i], ctx, period, change)
    {
      RowShare(rows[i], ctx, period, change);
    }
    SelectedDeltasAddUp(rows, row => LegsOfRow(row, ctx), row => ShareIn(row, ctx, period, change), period, change);
  }

  /** The bucket pair of a period and a change, by its name in the result. */
  function GroupIn(loads: Loads, period: Period, change: RecordChange): Group {
    var byChange := if period == Open then loads.openPeriodLoads else loads.closedPeriodLoads;
    if change == Added then byChange.added else byChange.adjusted
  }

  function FirstHundred(rows: seq<RowDetail>): seq<RowDetail> {
    if |rows| <= 100 then rows else rows[..100]
  }

  lemma NamedGroup(rows: seq<ValidatedWasteRecord>, ctx: Context, period: Period, change: RecordChange)
    requires change != Unchanged
    ensures GroupIn(LoadsOf(rows, ctx), period, change) == GroupOf(LegsOf(rows, ctx), period, change)
  {}

  /** Each of the four balance-affecting totals is the sum, over the upload's rows, of what they add to that period. */
  lemma {:induction false} TotalsAreTheirShares(rows: seq<ValidatedWasteRecord>, ctx: Context, period: Period, change: RecordChange)
    requires change != Unchanged
    ensures GroupIn(LoadsOf(rows, ctx), period, change).balanceAffecting.tonnageDelta
         == SumBy(rows, row => ShareIn(row, ctx, period, change))
  {
    NamedGroup(rows, ctx, period, change);
    LegsHaveTwoPlaces(rows, ctx);
    TotalIsDelta(LegsOf(rows, ctx), period, change);
    SharesAddUp(rows, ctx, period, change);
  }

  lemma HoldingLists(affecting: seq<Leg>, others: seq<Leg>, a: seq<RowDetail>, o: seq<RowDetail>)
    requires Details(affecting, a) && Details(others, o)
    ensures var g := RoundedGroup(GroupHolding(affecting, others));
      && g.balanceAffecting.count == |a| && g.balanceAffecting.rows == FirstHundred(a)
      && g.nonBalanceAffecting.count == |o| && g.nonBalanceAffecting.rows == FirstHundred(o)
  {}

  /** A bucket counts every row that counts in its period, those without a share apart, and lists the first hundred. */
  lemma {:induction false} BucketsHoldTheirRows(rows: seq<ValidatedWasteRecord>, ctx: Context, period: Period, change: RecordChange)
    requires change != Unchanged
    ensures var g := GroupIn(LoadsOf(rows, ctx), period, change);
      var affecting, others := RowsIn(rows, ctx, period, change, true), RowsIn(rows, ctx, period, change, false);
      && g.balanceAffecting.count == |affecting| && g.balanceAffecting.rows == FirstHundred(affecting)
      && g.nonBalanceAffecting.count == |others| && g.nonBalanceAffecting.rows == FirstHundred(others)
  {
    NamedGroup(rows, ctx, period, change);
    LegsByPeriod(rows, ctx, period, change, true);
    LegsByPeriod(rows, ctx, period, change, false);
    HoldingLists(Select(LegsOf(rows, ctx), period, change, true), Select(LegsOf(rows, ctx), period, change, false),
                 RowsIn(rows, ctx, period, change, true), RowsIn(rows, ctx, period, change, false));
  }

  // ----- closed periods agree with closed legs -----

  lemma {:induction false} RefsForFields(data: RowData, fields: seq<string>, submitted: set<string>, cadence: Cadence, ref: PeriodRef)
    ensures ref in ClosedPeriodRefsFor(data, fields, submitted, cadence)
       <==> exists i | 0 <= i < |fields| ::
              IsSubmittedDate(data, fields[i], submitted, cadence) && PeriodForDate(data.dates[fields[i]], cadence) == ref
  {
    if fields != [] {
      RefsForFields(data, fields[..|fields| - 1], submitted, cadence, ref);
    }
  }

  lemma RefsForPair(a: RowData, b: RowData, fields: seq<string>, submitted: set<string>, cadence: Cadence)
    ensures ClosedPeriodRefsForAll([a], fields, submitted, cadence) == ClosedPeriodRefsFor(a, fields, submitted, cadence)
    ensures ClosedPeriodRefsForAll([a, b], fields, submitted, cadence)
         == ClosedPeriodRefsFor(a, fields, submitted, cadence) + ClosedPeriodRefsFor(b, fields, submitted, cadence)
  {
    assert [a, b][..1] == [a] && [a][..0] == [];
    assert ClosedPeriodRefsForAll([], fields, submitted, cadence) == [];
  }

  /** Some reporting date of the data falls in this period, and the period has been submitted. */
  predicate IsDatedIn(data: RowData, schema: TableSchema, ctx: Context, ref: PeriodRef) {
    exists i | 0 <= i < |schema.reportingDateFields| && schema.reportingDateFields[i] in data.dates ::
      && PeriodForDate(data.dates[schema.reportingDateFields[i]], ctx.cadence) == ref
      && IsDateInSubmittedPeriod(ctx.submitted, data.dates[schema.reportingDateFields[i]], ctx.cadence)
  }

  /** A changed row touches a submitted period by one of its dates, new or, if it was adjusted, old. */
  predicate Touches(row: ValidatedWasteRecord, ctx: Context, ref: PeriodRef) {
    && (IsChanged(row, ctx, Added) || IsChanged(row, ctx, Adjusted))
    && var schema, key := ctx.schemas[row.tableName], RecordKey(row.record);
      || IsDatedIn(row.record.data, schema, ctx, ref)
      || (IsChanged(row, ctx, Adjusted) && key in ctx.states && IsDatedIn(ctx.states[key].data, schema, ctx, ref))
  }

  lemma RefsMeanDatedIn(data: RowData, schema: TableSchema, ctx: Context, ref: PeriodRef)
    ensures ref in ClosedPeriodRefsFor(data, schema.reportingDateFields, ctx.submitted, ctx.cadence) <==> IsDatedIn(data, schema, ctx, ref)
  {
    var fields := schema.reportingDateFields;
    RefsForFields(data, fields, ctx.submitted, ctx.cadence, ref);
    if ref in ClosedPeriodRefsFor(data, fields, ctx.submitted, ctx.cadence) {
      var i :| 0 <= i < |fields| && IsSubmittedDate(data, fields[i], ctx.submitted, ctx.cadence)
        && PeriodForDate(data.dates[fields[i]], ctx.cadence) == ref;
      assert fields[i] in data.dates;
    }
    if IsDatedIn(data, schema, ctx, ref) {
      var i :| 0 <= i < |fields| && fields[i] in data.dates && PeriodForDate(data.dates[fields[i]], ctx.cadence) == ref
        && IsDateInSubmittedPeriod(ctx.submitted, data.dates[fields[i]], ctx.cadence);
      assert IsSubmittedDate(data, fields[i], ctx.submitted, ctx.cadence);
    }
  }

  lemma RefsOfRowExact(row: ValidatedWasteRecord, ctx: Context, ref: PeriodRef)
    ensures ref in RefsOfRow(row, ctx) <==> Touches(row, ctx, ref)
  {
    if TakesPart(row, ctx) {
      var schema := ctx.schemas[row.tableName];
      var datas := ChangedData(row.record, ctx.changes[RecordKey(row.record)], ctx.states);
      var last := datas[|datas| - 1];
      RefsMeanDatedIn(datas[0], schema, ctx, ref);
      RefsMeanDatedIn(last, schema, ctx, ref);
      RefsForPair(datas[0], last, schema.reportingDateFields, ctx.submitted, ctx.cadence);
      assert datas == [last] || datas == [datas[0], last];
    }
  }

  lemma {:induction false} RefsOfExact(rows: seq<ValidatedWasteRecord>, ctx: Context, ref: PeriodRef)
    ensures ref in RefsOf(rows, ctx) <==> exists i | 0 <= i < |rows| :: Touches(rows[i], ctx, ref)
  {
    if rows != [] {
      var front, last := rows[..|rows| - 1], rows[|rows| - 1];
      RefsOfExact(front, ctx, ref);
      RefsOfRowExact(last, ctx, ref);
      if i :| 0 <= i < |front| && Touches(front[i], ctx, ref) {
        assert Touches(rows[i], ctx, ref);
      }
      if Touches(last, ctx, ref) {
        assert Touches(rows[|rows| - 1], ctx, ref);
      }
    }
  }

  /** `closedPeriods` lists each submitted period some changed row touches, once, and no other. */
  lemma ClosedPeriodsAreExact(rows: seq<ValidatedWasteRecord>, ctx: Context)
    ensures var closed := LoadsOf(rows, ctx).closedPeriods;
      && (forall i, j | 0 <= i < j < |closed| :: closed[i] != closed[j])
      && (forall ref :: ref in closed <==> exists i | 0 <= i < |rows| :: Touches(rows[i], ctx, ref))
  {
    DistinctIsExact(RefsOf(rows, ctx));
    forall ref ensures ref in LoadsOf(rows, ctx).closedPeriods <==> exists i | 0 <= i < |rows| :: Touches(rows[i], ctx, ref) {
      DistinctKeepsMembers(RefsOf(rows, ctx), ref);
      RefsOfExact(rows, ctx, ref);
    }
  }

  predicate HasClosedLeg(legs: seq<Leg>) {
    exists i | 0 <= i < |legs| :: legs[i].period == Closed
  }

  lemma {:induction false} RefsMeanClosed(data: RowData, fields: seq<string>, submitted: set<string>, cadence: Cadence)
    ensures ClosedPeriodRefsFor(data, fields, submitted, cadence) != []
       <==> exists i | 0 <= i < |fields| :: IsSubmittedDate(data, fields[i], submitted, cadence)
    ensures ClosedPeriodRefsFor(data, fields, submitted, cadence) != []
       <==> ClassifyPeriodStatus(data, fields, submitted, cadence) == Some(Closed)
  {
    if fields != [] {
      RefsMeanClosed(data, fields[..|fields| - 1], submitted, cadence);
    }
  }

  /** Row by row, the two computations agree: a closed leg is counted exactly when a submitted period is noted. */
  lemma RowNotesClosedIffClosedLeg(row: ValidatedWasteRecord, ctx: Context)
    ensures RefsOfRow(row, ctx) != [] <==> HasClosedLeg(LegsOfRow(row, ctx))
  {
    if TakesPart(row, ctx) {
      var fields := ctx.schemas[row.tableName].reportingDateFields;
      var datas := ChangedData(row.record, ctx.changes[RecordKey(row.record)], ctx.states);
      var final := datas[|datas| - 1];
      RefsMeanClosed(datas[0], fields, ctx.submitted, ctx.cadence);
      RefsMeanClosed(final, fields, ctx.submitted, ctx.cadence);
      RefsForPair(datas[0], final, fields, ctx.submitted, ctx.cadence);
      assert datas == [final] || datas == [datas[0], final];
      var legs := LegsOfRow(row, ctx);
      assert HasClosedLeg(legs) <==> (0 < |legs| && legs[0].period == Closed) || (1 < |legs| && legs[1].period == Closed);
    }
  }

  lemma {:induction false} NotesClosedIffClosedLeg(rows: seq<ValidatedWasteRecord>, ctx: Context)
    ensures RefsOf(rows, ctx) != [] <==> HasClosedLeg(LegsOf(rows, ctx))
  {
    if rows != [] {
      var front, last := rows[..|rows| - 1], rows[|rows| - 1];
      NotesClosedIffClosedLeg(front, ctx);
      RowNotesClosedIffClosedLeg(last, ctx);
      var a, b := LegsOf(front, ctx), LegsOfRow(last, ctx);
      if HasClosedLeg(a) {
        var i :| 0 <= i < |a| && a[i].period == Closed;
        assert (a + b)[i].period == Closed;
      }
      if HasClosedLeg(b) {
        var i :| 0 <= i < |b| && b[i].period == Closed;
        assert (a + b)[|a| + i].period == Closed;
      }
    }
  }

  function CountIn(loads: ByChange): nat {
    loads.added.balanceAffecting.count + loads.added.nonBalanceAffecting.count
    + loads.adjusted.balanceAffecting.count + loads.adjusted.nonBalanceAffecting.count
  }

  lemma {:induction false} ClosedCountIsPositive(legs: seq<Leg>)
    requires forall i | 0 <= i < |legs| :: legs[i].change != Unchanged
    ensures 0 < CountIn(ByChangeOf(legs, Closed)) <==> HasClosedLeg(legs)
  {
    if legs != [] {
      var front, last := legs[..|legs| - 1], legs[|legs| - 1];
      ClosedCountIsPositive(front);
    }
  }

  /** There is a closed period to report if and only if some closed-period count is positive. */
  lemma ClosedPeriodsMatchCounts(rows: seq<ValidatedWasteRecord>, ctx: Context)
    ensures LoadsOf(rows, ctx).closedPeriods != [] <==> 0 < CountIn(LoadsOf(rows, ctx).closedPeriodLoads)
  {
    NotesClosedIffClosedLeg(rows, ctx);
    LegsAreNeverUnchanged(rows, ctx);
    ClosedCountIsPositive(LegsOf(rows, ctx));
    DistinctIsExact(RefsOf(rows, ctx));
  }

  // ----- uploads add up, in any order -----

  lemma LegsConcat(a: seq<ValidatedWasteRecord>, b: seq<ValidatedWasteRecord>, ctx: Context)
    ensures LegsOf(a + b, ctx) == LegsOf(a, ctx) + LegsOf(b, ctx)
    ensures RefsOf(a + b, ctx) == RefsOf(a, ctx) + RefsOf(b, ctx)
  {
    FlatMapConcat(a, b, row => LegsOfRow(row, ctx));
    FlatMapConcat(a, b, row => RefsOfRow(row, ctx));
  }

  lemma {:induction false} SelectConcat(a: seq<Leg>, b: seq<Leg>, period: Period, change: RecordChange, affecting: bool)
    ensures Select(a + b, period, change, affecting) == Select(a, period, change, affecting) + Select(b, period, change, affecting)
  {
    if b == [] {
      assert a + b == a;
    } else {
      assert (a + b)[..|a + b| - 1] == a + b[..|b| - 1];
      SelectConcat(a, b[..|b| - 1], period, change, affecting);
    }
  }

  /** A bucket of two uploads taken together, from the buckets of each. */
  function JoinGroups(g: Group, h: Group): Group {
    Group(BalanceBucket(g.balanceAffecting.count + h.balanceAffecting.count,
                        g.balanceAffecting.tonnageDelta + h.balanceAffecting.tonnageDelta,
                        JoinRows(g.balanceAffecting.rows, h.balanceAffecting.rows)),
          PlainBucket(g.nonBalanceAffecting.count + h.nonBalanceAffecting.count,
                      JoinRows(g.nonBalanceAffecting.rows, h.nonBalanceAffecting.rows)))
  }

  function JoinRows(a: seq<RowDetail>, b: seq<RowDetail>): seq<RowDetail> {
    if |a + b| <= MAX_ROWS_PER_BUCKET then a + b else (a + b)[..MAX_ROWS_PER_BUCKET]
  }

  lemma ListedRowsConcat(a: seq<Leg>, b: seq<Leg>)
    ensures ListedRows(a + b) == JoinRows(ListedRows(a), ListedRows(b))
  {}

  lemma GroupOfConcat(a: seq<Leg>, b: seq<Leg>, period: Period, change: RecordChange)
    requires TwoPlaceLegs(a) && TwoPlaceLegs(b)
    ensures GroupOf(a + b, period, change) == JoinGroups(GroupOf(a, period, change), GroupOf(b, period, change))
  {
    var x, y := Select(a, period, change, true), Select(b, period, change, true);
    SelectConcat(a, b, period, change, true);
    SelectConcat(a, b, period, change, false);
    DeltaConcat(x, y);
    ListedRowsConcat(x, y);
    ListedRowsConcat(Select(a, period, change, false), Select(b, period, change, false));
    TotalIsDelta(a, period, change);
    TotalIsDelta(b, period, change);
    TotalIsDelta(a + b, period, change);
  }

  lemma ClosedPeriodsMerge(a: seq<ValidatedWasteRecord>, b: seq<ValidatedWasteRecord>, ctx: Context, ref: PeriodRef)
    ensures ref in LoadsOf(a + b, ctx).closedPeriods <==> ref in LoadsOf(a, ctx).closedPeriods || ref in LoadsOf(b, ctx).closedPeriods
  {
    LegsConcat(a, b, ctx);
    DistinctKeepsMembers(RefsOf(a, ctx), ref);
    DistinctKeepsMembers(RefsOf(b, ctx), ref);
    DistinctKeepsMembers(RefsOf(a + b, ctx), ref);
  }

  /** Classifying two uploads together adds their counts and totals, joins their listed rows and merges their closed periods. */
  lemma ClassificationIsAdditive(a: seq<ValidatedWasteRecord>, b: seq<ValidatedWasteRecord>, ctx: Context)
    ensures var x, y, xy := LoadsOf(a, ctx), LoadsOf(b, ctx), LoadsOf(a + b, ctx);
      && xy.openPeriodLoads.added == JoinGroups(x.openPeriodLoads.added, y.openPeriodLoads.added)
      && xy.openPeriodLoads.adjusted == JoinGroups(x.openPeriodLoads.adjusted, y.openPeriodLoads.adjusted)
      && xy.closedPeriodLoads.added == JoinGroups(x.closedPeriodLoads.added, y.closedPeriodLoads.added)
      && xy.closedPeriodLoads.adjusted == JoinGroups(x.closedPeriodLoads.adjusted, y.closedPeriodLoads.adjusted)
      && forall ref :: ref in xy.closedPeriods <==> ref in x.closedPeriods || ref in y.closedPeriods
  {
    forall ref ensures ref in LoadsOf(a + b, ctx).closedPeriods
                  <==> ref in LoadsOf(a, ctx).closedPeriods || ref in LoadsOf(b, ctx).closedPeriods {
      ClosedPeriodsMerge(a, b, ctx, ref);
    }
    LegsConcat(a, b, ctx);
    LegsHaveTwoPlaces(a, ctx);
    LegsHaveTwoPlaces(b, ctx);
    GroupOfConcat(LegsOf(a, ctx), LegsOf(b, ctx), Open, Added);
    GroupOfConcat(LegsOf(a, ctx), LegsOf(b, ctx), Open, Adjusted);
    GroupOfConcat(LegsOf(a, ctx), LegsOf(b, ctx), Closed, Added);
    GroupOfConcat(LegsOf(a, ctx), LegsOf(b, ctx), Closed, Adjusted);
  }

  /** The parts of a bucket pair that do not depend on the order of the rows. */
  predicate SameTally(g: Group, h: Group) {
    && g.balanceAffecting.count == h.balanceAffecting.count
    && g.balanceAffecting.tonnageDelta == h.balanceAffecting.tonnageDelta
    && g.nonBalanceAffecting.count == h.nonBalanceAffecting.count
  }

  predicate SameTallies(x: Loads, y: Loads) {
    && SameTally(x.openPeriodLoads.added, y.openPeriodLoads.added)
    && SameTally(x.openPeriodLoads.adjusted, y.openPeriodLoads.adjusted)
    && SameTally(x.closedPeriodLoads.added, y.closedPeriodLoads.added)
    && SameTally(x.closedPeriodLoads.adjusted, y.closedPeriodLoads.adjusted)
  }

  datatype Tally = Tally(affecting: nat, total: real, others: nat)

  function TallyOf(rows: seq<ValidatedWasteRecord>, ctx: Context, period: Period, change: RecordChange): Tally {
    var legs := LegsOf(rows, ctx);
    Tally(|Select(legs, period, change, true)|, Delta(Select(legs, period, change, true)), |Select(legs, period, change, false)|)
  }

  function AddTallies(s: Tally, t: Tally): Tally {
    Tally(s.affecting + t.affecting, s.total + t.total, s.others + t.others)
  }

  lemma TallyConcat(a: seq<ValidatedWasteRecord>, b: seq<ValidatedWasteRecord>, ctx: Context, period: Period, change: RecordChange)
    ensures TallyOf(a + b, ctx, period, change) == AddTallies(TallyOf(a, ctx, period, change), TallyOf(b, ctx, period, change))
  {
    LegsConcat(a, b, ctx);
    SelectConcat(LegsOf(a, ctx), LegsOf(b, ctx), period, change, true);
    SelectConcat(LegsOf(a, ctx), LegsOf(b, ctx), period, change, false);
    DeltaConcat(Select(LegsOf(a, ctx), period, change, true), Select(LegsOf(b, ctx), period, change, true));
  }

  lemma TallyInsert(before: seq<ValidatedWasteRecord>, row: ValidatedWasteRecord, after: seq<ValidatedWasteRecord>, ctx: Context,
                    period: Period, change: RecordChange)
    ensures TallyOf(before + ([row] + after), ctx, period, change)
         == AddTallies(TallyOf(before + after, ctx, period, change), TallyOf([row], ctx, period, change))
  {
    TallyConcat(before, after, ctx, period, change);
    TallyConcat(before, [row] + after, ctx, period, change);
    TallyConcat([row], after, ctx, period, change);
  }

  lemma {:induction false} TallyIgnoresOrder(
    rows: seq<ValidatedWasteRecord>, rows': seq<ValidatedWasteRecord>, ctx: Context, period: Period, change: RecordChange)
    requires multiset(rows) == multiset(rows')
    ensures TallyOf(rows, ctx, period, change) == TallyOf(rows', ctx, period, change)
    decreases |rows|
  {
    if rows == [] {
      assert |multiset(rows')| == 0;
    } else {
      var front, last := rows[..|rows| - 1], rows[|rows| - 1];
      var before, after := PlaceOfLast(rows, rows');
      TallyIgnoresOrder(front, before + after, ctx, period, change);
      assert rows == front + ([last] + []);
      assert front == front + [];
      TallyInsert(front, last, [], ctx, period, change);
      TallyInsert(before, last, after, ctx, period, change);
    }
  }

  /** Counts and totals are the same whatever order the rows come in. */
  lemma {:induction false} TalliesIgnoreOrder(rows: seq<ValidatedWasteRecord>, rows': seq<ValidatedWasteRecord>, ctx: Context)
    requires multiset(rows) == multiset(rows')
    ensures SameTallies(LoadsOf(rows, ctx), LoadsOf(rows', ctx))
  {
    TallyIgnoresOrder(rows, rows', ctx, Open, Added);
    TallyIgnoresOrder(rows, rows', ctx, Open, Adjusted);
    TallyIgnoresOrder(rows, rows', ctx, Closed, Added);
    TallyIgnoresOrder(rows, rows', ctx, Closed, Adjusted);
  }

  /** So is the set of closed periods. */
  lemma ClosedPeriodsIgnoreOrder(rows: seq<ValidatedWasteRecord>, rows': seq<ValidatedWasteRecord>, ctx: Context)
    requires multiset(rows) == multiset(rows')
    ensures forall ref :: ref in LoadsOf(rows, ctx).closedPeriods <==> ref in LoadsOf(rows', ctx).closedPeriods
  {
    ClosedPeriodsAreExact(rows, ctx);
    ClosedPeriodsAreExact(rows', ctx);
    forall row ensures row in rows <==> row in rows' {
      assert row in multiset(rows) <==> row in multiset(rows');
    }
    forall ref ensures ref in LoadsOf(rows, ctx).closedPeriods <==> ref in LoadsOf(rows', ctx).closedPeriods {
      if ref in LoadsOf(rows, ctx).closedPeriods {
        var i :| 0 <= i < |rows| && Touches(rows[i], ctx, ref);
        assert rows[i] in rows';
      }
      if ref in LoadsOf(rows', ctx).closedPeriods {
        var i :| 0 <= i < |rows'| && Touches(rows'[i], ctx, ref);
        assert rows'[i] in rows;
      }
    }
  }

  // ----- what the buckets list -----

  lemma {:induction false} SelectChooses(legs: seq<Leg>, period: Period, change: RecordChange, affecting: bool)
    ensures forall leg | leg in Select(legs, period, change, affecting) ::
      leg in legs && leg.period == period && leg.change == change && (leg.tonnageDelta != 0.0 <==> affecting)
  {
    if legs != [] {
      SelectChooses(legs[..|legs| - 1], period, change, affecting);
    }
  }

  /** A bucket lists its first hundred rows and counts them all; rows without a net delta are listed only as not affecting. */
  lemma BucketsListTheirRows(legs: seq<Leg>, period: Period, change: RecordChange)
    ensures var g := GroupOf(legs, period, change);
      && |g.balanceAffecting.rows| == (if g.balanceAffecting.count < 100 then g.balanceAffecting.count else 100)
      && |g.nonBalanceAffecting.rows|
         == (if g.nonBalanceAffecting.count < 100 then g.nonBalanceAffecting.count else 100)
      && (forall row | row in g.balanceAffecting.rows :: row.tonnageDelta != 0.0)
      && (forall row | row in g.nonBalanceAffecting.rows :: row.tonnageDelta == 0.0)
  {
    SelectChooses(legs, period, change, true);
    SelectChooses(legs, period, change, false);
    forall i | 0 <= i < |Select(legs, period, change, true)| ensures Select(legs, period, change, true)[i].tonnageDelta != 0.0 {
      assert Select(legs, period, change, true)[i] in Select(legs, period, change, true);
    }
    forall i | 0 <= i < |Select(legs, period, change, false)| ensures Select(legs, period, change, false)[i].tonnageDelta == 0.0 {
      assert Select(legs, period, change, false)[i] in Select(legs, period, change, false);
    }
  }

  // ----- uploading the same rows again -----

  lemma {:induction false} NoPartNoLegs(rows: seq<ValidatedWasteRecord>, ctx: Context)
    requires forall i | 0 <= i < |rows| :: !TakesPart(rows[i], ctx)
    ensures LegsOf(rows, ctx) == [] && RefsOf(rows, ctx) == []
  {
    if rows != [] {
      NoPartNoLegs(rows[..|rows| - 1], ctx);
    }
  }

  /** Uploading again rows that project to exactly what was submitted yields an empty result, whatever periods are closed. */
  lemma {:induction false} ReuploadClassifiesNothing(rows: seq<ValidatedWasteRecord>, states: RowStates, changes: map<string, RecordChange>,
                                  project: WasteRecord -> WasteRecordState, ctx: Context)
    requires AreChangesOf(changes, rows, states, project) && ctx.changes == changes
    requires forall i | 0 <= i < |rows| :: Resubmits(rows[i].record, states, project)
    ensures LoadsOf(rows, ctx) == EMPTY_LOADS
  {
    ReuploadIsUnchanged(changes, rows, states, project);
    forall i | 0 <= i < |rows| ensures !TakesPart(rows[i], ctx) {
      assert RecordChangeFor(changes, rows[i].record) == Success(Unchanged);
    }
    NoPartNoLegs(rows, ctx);
    NoLegsNoLoads(Open);
    NoLegsNoLoads(Closed);
  }

  lemma NoLegsNoLoads(period: Period)
    ensures ByChangeOf([], period) == EMPTY_CHANGE
  {
    assert Delta([]) == 0.0;
    TwoPlacesAreFixed(OfHundredths(0));
    assert ListedRows([]) == [];
  }
}

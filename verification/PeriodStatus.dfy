/** Reporting-period classification of an upload (period-status.js). */
module PeriodStatus {
  import opened Wrappers
  import opened Rounding
  import opened Sequences
  import opened OrderedMaps
  import opened ReportPeriods
  import opened RecordChanges

  const MAX_ROWS_PER_BUCKET := 100
  const NOT_CONTRIBUTING := "TEMPLATE_SECTION_DOES_NOT_CONTRIBUTE_TO_WASTE_BALANCE"

  datatype Period = Open | Closed

  /** A table's schema; `classify` is its classifyForWasteBalance with the context fixed, or absent by design. */
  datatype TableSchema = TableSchema(
    wasteRecordType: string,
    reportingDateFields: seq<string>,
    classify: Option<RowData -> Classification>)

  /** What a whole upload is classified against. */
  datatype Context = Context(
    states: RowStates,
    changes: map<string, RecordChange>,
    submitted: set<string>,
    cadence: Cadence,
    schemas: map<string, TableSchema>)

  datatype RowIdentity = RowIdentity(rowId: string, wasteRecordType: string, exclusionReasons: seq<string>)

  /** One record's net contribution to one period. */
  datatype Leg = Leg(period: Period, change: RecordChange, tonnageDelta: real, identity: RowIdentity)

  datatype RowDetail = RowDetail(identity: RowIdentity, tonnageDelta: real)

  datatype BalanceBucket = BalanceBucket(count: nat, tonnageDelta: real, rows: seq<RowDetail>)
  datatype PlainBucket = PlainBucket(count: nat, rows: seq<RowDetail>)
  datatype Group = Group(balanceAffecting: BalanceBucket, nonBalanceAffecting: PlainBucket)
  datatype ByChange = ByChange(added: Group, adjusted: Group)
  datatype Loads = Loads(openPeriodLoads: ByChange, closedPeriodLoads: ByChange, closedPeriods: seq<PeriodRef>)

  const EMPTY_GROUP := Group(BalanceBucket(0, 0.0, []), PlainBucket(0, []))
  const EMPTY_CHANGE := ByChange(EMPTY_GROUP, EMPTY_GROUP)
  const EMPTY_LOADS := Loads(EMPTY_CHANGE, EMPTY_CHANGE, [])

  // ----- periods of a row -----

  predicate IsDated(data: RowData, field: string) {
    field in data.dates
  }

  /** A missing date is never in a submitted period. */
  predicate IsSubmittedDate(data: RowData, field: string, submitted: set<string>, cadence: Cadence) {
    field in data.dates && IsDateInSubmittedPeriod(submitted, data.dates[field], cadence)
  }

  /** Closed wins: one submitted date closes the record; a record without dates has no period. */
  function ClassifyPeriodStatus(data: RowData, fields: seq<string>, submitted: set<string>, cadence: Cadence): Option<Period> {
    if exists i | 0 <= i < |fields| :: IsSubmittedDate(data, fields[i], submitted, cadence) then Some(Closed)
    else if exists i | 0 <= i < |fields| :: IsDated(data, fields[i]) then Some(Open)
    else None
  }

  function ClosedPeriodRefsFor(data: RowData, fields: seq<string>, submitted: set<string>, cadence: Cadence): seq<PeriodRef> {
    if fields == [] then []
    else
      var field := fields[|fields| - 1];
      ClosedPeriodRefsFor(data, fields[..|fields| - 1], submitted, cadence)
      + (if IsSubmittedDate(data, field, submitted, cadence) then [PeriodForDate(data.dates[field], cadence)] else [])
  }

  /** The row's own data and, unless it was added, the data last submitted for its key. */
  function ChangedData(record: WasteRecord, change: RecordChange, states: RowStates): seq<RowData> {
    if change == Added || RecordKey(record) !in states then [record.data] else [record.data, states[RecordKey(record)].data]
  }

  function ClosedPeriodRefsForAll(datas: seq<RowData>, fields: seq<string>, submitted: set<string>, cadence: Cadence): seq<PeriodRef> {
    if datas == [] then []
    else
      ClosedPeriodRefsForAll(datas[..|datas| - 1], fields, submitted, cadence)
      + ClosedPeriodRefsFor(datas[|datas| - 1], fields, submitted, cadence)
  }

  // ----- legs of a row -----

  function TargetAmount(c: Classification): real {
    if c.outcome == Included then c.transactionAmount else 0.0
  }

  function ClassifyRowForWasteBalance(schema: TableSchema, data: RowData): (real, seq<string>) {
    match schema.classify
    case None => (0.0, [NOT_CONTRIBUTING])
    case Some(classify) => (TargetAmount(classify(data)), Distinct(classify(data).reasons))
  }

  function AddedLegs(period: Option<Period>, amount: real, identity: RowIdentity): seq<Leg> {
    match period
    case None => []
    case Some(p) => [Leg(p, Added, RoundToTwoDecimalPlaces(amount), identity)]
  }

  /** The old period gives back the old amount and the new one takes the new amount; one period takes the net. */
  function AdjustedLegs(oldPeriod: Option<Period>, newPeriod: Option<Period>, oldAmount: real, newAmount: real, identity: RowIdentity)
    : seq<Leg>
  {
    match (oldPeriod, newPeriod)
    case (None, None) => []
    case (Some(o), None) => [Leg(o, Adjusted, RoundToTwoDecimalPlaces(-oldAmount), identity)]
    case (None, Some(n)) => [Leg(n, Adjusted, RoundToTwoDecimalPlaces(newAmount), identity)]
    case (Some(o), Some(n)) =>
      if o == n then [Leg(o, Adjusted, RoundToTwoDecimalPlaces(newAmount - oldAmount), identity)]
      else [Leg(o, Adjusted, RoundToTwoDecimalPlaces(-oldAmount), identity),
            Leg(n, Adjusted, RoundToTwoDecimalPlaces(newAmount), identity)]
  }

  /** classifyAdjustedRecord: accumulates each period's net delta in a map that iterates in insertion order. */
  method ClassifyAdjustedRecord(oldPeriod: Option<Period>, newPeriod: Option<Period>, oldAmount: real, newAmount: real,
                                identity: RowIdentity)
    returns (result: seq<Leg>)
    ensures result == AdjustedLegs(oldPeriod, newPeriod, oldAmount, newAmount, identity)
    ensures forall leg | leg in result ::
      && leg.change == Adjusted && leg.identity == identity
      && (oldPeriod == Some(leg.period) || newPeriod == Some(leg.period))
      && leg.tonnageDelta == RoundToTwoDecimalPlaces((if newPeriod == Some(leg.period) then newAmount else 0.0)
                                                     - (if oldPeriod == Some(leg.period) then oldAmount else 0.0))
    ensures forall period: Period | oldPeriod == Some(period) || newPeriod == Some(period) ::
      exists i | 0 <= i < |result| :: result[i].period == period
    ensures forall i, j | 0 <= i < j < |result| :: result[i].period != result[j].period
  {
    var order: seq<Period> := [];
    var deltas: map<Period, real> := map[];
    if oldPeriod.Some? {
      order := order + [oldPeriod.value];
      deltas := deltas[oldPeriod.value := 0.0 - oldAmount];
    }
    if newPeriod.Some? {
      var soFar := if newPeriod.value in deltas then deltas[newPeriod.value] else 0.0;
      if newPeriod.value !in deltas {
        order := order + [newPeriod.value];
      }
      deltas := deltas[newPeriod.value := soFar + newAmount];
    }
    assert oldPeriod.Some? && newPeriod == oldPeriod ==> 0.0 - oldAmount + newAmount == newAmount - oldAmount;
    result := [];
    for i := 0 to |order|
      invariant forall j | 0 <= j < |order| :: order[j] in deltas
      invariant |result| == i
      invariant forall j | 0 <= j < i :: result[j] == Leg(order[j], Adjusted, RoundToTwoDecimalPlaces(deltas[order[j]]), identity)
    {
      result := result + [Leg(order[i], Adjusted, RoundToTwoDecimalPlaces(deltas[order[i]]), identity)];
    }
    assert oldPeriod.Some? ==> result[0].period == oldPeriod.value;
    assert newPeriod.Some? ==> result[|result| - 1].period == newPeriod.value;
  }

  /** A row takes part unless it is ignored, unchanged, or from a table the processing type does not have. */
  predicate TakesPart(row: ValidatedWasteRecord, ctx: Context) {
    && RecordKey(row.record) in ctx.changes
    && row.outcome != Ignored
    && ctx.changes[RecordKey(row.record)] != Unchanged
    && row.tableName in ctx.schemas
  }

  function IdentityOf(row: ValidatedWasteRecord, schema: TableSchema): RowIdentity {
    RowIdentity(row.record.rowId, schema.wasteRecordType, ClassifyRowForWasteBalance(schema, row.record.data).1)
  }

  function NewPeriod(row: ValidatedWasteRecord, ctx: Context): Option<Period>
    requires row.tableName in ctx.schemas
  {
    ClassifyPeriodStatus(row.record.data, ctx.schemas[row.tableName].reportingDateFields, ctx.submitted, ctx.cadence)
  }

  function OldPeriod(row: ValidatedWasteRecord, ctx: Context): Option<Period>
    requires row.tableName in ctx.schemas
  {
    if RecordKey(row.record) !in ctx.states then None
    else ClassifyPeriodStatus(ctx.states[RecordKey(row.record)].data, ctx.schemas[row.tableName].reportingDateFields,
                              ctx.submitted, ctx.cadence)
  }

  function NewAmount(row: ValidatedWasteRecord, ctx: Context): real
    requires row.tableName in ctx.schemas
  {
    ClassifyRowForWasteBalance(ctx.schemas[row.tableName], row.record.data).0
  }

  /** The amount stamped on the submitted state, not a re-derivation of it. */
  function OldAmount(row: ValidatedWasteRecord, ctx: Context): real {
    if RecordKey(row.record) in ctx.states then TargetAmount(ctx.states[RecordKey(row.record)].classification) else 0.0
  }

  function LegsOfRow(row: ValidatedWasteRecord, ctx: Context): seq<Leg> {
    if !TakesPart(row, ctx) then []
    else
      var identity := IdentityOf(row, ctx.schemas[row.tableName]);
      if ctx.changes[RecordKey(row.record)] == Added then AddedLegs(NewPeriod(row, ctx), NewAmount(row, ctx), identity)
      else AdjustedLegs(OldPeriod(row, ctx), NewPeriod(row, ctx), OldAmount(row, ctx), NewAmount(row, ctx), identity)
  }

  function LegsOf(rows: seq<ValidatedWasteRecord>, ctx: Context): seq<Leg> {
    FlatMap(rows, row => LegsOfRow(row, ctx))
  }

  function RefsOfRow(row: ValidatedWasteRecord, ctx: Context): seq<PeriodRef> {
    if !TakesPart(row, ctx) then []
    else ClosedPeriodRefsForAll(ChangedData(row.record, ctx.changes[RecordKey(row.record)], ctx.states),
                                ctx.schemas[row.tableName].reportingDateFields, ctx.submitted, ctx.cadence)
  }

  function RefsOf(rows: seq<ValidatedWasteRecord>, ctx: Context): seq<PeriodRef> {
    FlatMap(rows, row => RefsOfRow(row, ctx))
  }

  // ----- folding legs into buckets -----

  /** The legs of one bucket, in order. A leg affects the balance exactly when its rounded delta is not zero. */
  function Select(legs: seq<Leg>, period: Period, change: RecordChange, affecting: bool): seq<Leg> {
    if legs == [] then []
    else
      var leg := legs[|legs| - 1];
      Select(legs[..|legs| - 1], period, change, affecting)
      + (if leg.period == period && leg.change == change && (leg.tonnageDelta != 0.0) == affecting then [leg] else [])
  }

  function Delta(legs: seq<Leg>): real {
    if legs == [] then 0.0 else Delta(legs[..|legs| - 1]) + legs[|legs| - 1].tonnageDelta
  }

  function Detail(leg: Leg): RowDetail {
    RowDetail(leg.identity, leg.tonnageDelta)
  }

  /** The first hundred legs, as listed rows. */
  function ListedRows(legs: seq<Leg>): (rows: seq<RowDetail>)
    ensures |rows| == if |legs| < MAX_ROWS_PER_BUCKET then |legs| else MAX_ROWS_PER_BUCKET
    ensures forall i | 0 <= i < |rows| :: rows[i] == Detail(legs[i])
  {
    seq(if |legs| < MAX_ROWS_PER_BUCKET then |legs| else MAX_ROWS_PER_BUCKET, i requires 0 <= i < |legs| => Detail(legs[i]))
  }

  /** A bucket pair holding exactly these legs, its total not yet rounded. */
  function GroupHolding(affecting: seq<Leg>, others: seq<Leg>): Group {
    Group(BalanceBucket(|affecting|, Delta(affecting), ListedRows(affecting)), PlainBucket(|others|, ListedRows(others)))
  }

  function RoundedGroup(g: Group): Group {
    g.(balanceAffecting := g.balanceAffecting.(tonnageDelta := RoundToTwoDecimalPlaces(g.balanceAffecting.tonnageDelta)))
  }

  function RunningGroup(legs: seq<Leg>, period: Period, change: RecordChange): Group {
    GroupHolding(Select(legs, period, change, true), Select(legs, period, change, false))
  }

  function GroupOf(legs: seq<Leg>, period: Period, change: RecordChange): Group {
    RoundedGroup(RunningGroup(legs, period, change))
  }

  function ByChangeOf(legs: seq<Leg>, period: Period): ByChange {
    ByChange(GroupOf(legs, period, Added), GroupOf(legs, period, Adjusted))
  }

  function PushRow(rows: seq<RowDetail>, row: RowDetail): seq<RowDetail> {
    if |rows| < MAX_ROWS_PER_BUCKET then rows + [row] else rows
  }

  function AddLeg(group: Group, leg: Leg): Group {
    if leg.tonnageDelta == 0.0 then
      group.(nonBalanceAffecting := PlainBucket(
        group.nonBalanceAffecting.count + 1,
        PushRow(group.nonBalanceAffecting.rows, Detail(leg))))
    else
      group.(balanceAffecting := BalanceBucket(
        group.balanceAffecting.count + 1,
        group.balanceAffecting.tonnageDelta + leg.tonnageDelta,
        PushRow(group.balanceAffecting.rows, Detail(leg))))
  }

  lemma ListedRowsPush(legs: seq<Leg>, leg: Leg)
    ensures ListedRows(legs + [leg]) == PushRow(ListedRows(legs), Detail(leg))
  {}

  lemma DeltaSnoc(legs: seq<Leg>, leg: Leg)
    ensures Delta(legs + [leg]) == Delta(legs) + leg.tonnageDelta
  {
    assert (legs + [leg])[..|legs|] == legs;
  }

  lemma SelectSnoc(legs: seq<Leg>, leg: Leg, period: Period, change: RecordChange, affecting: bool)
    ensures Select(legs + [leg], period, change, affecting)
         == if leg.period == period && leg.change == change && (leg.tonnageDelta != 0.0) == affecting
            then Select(legs, period, change, affecting) + [leg] else Select(legs, period, change, affecting)
  {
    assert (legs + [leg])[..|legs|] == legs;
    assert Select(legs, period, change, affecting) + [] == Select(legs, period, change, affecting);
  }

  lemma GroupHoldingOneMore(affecting: seq<Leg>, others: seq<Leg>, leg: Leg)
    ensures AddLeg(GroupHolding(affecting, others), leg)
         == if leg.tonnageDelta != 0.0 then GroupHolding(affecting + [leg], others) else GroupHolding(affecting, others + [leg])
  {
    ListedRowsPush(affecting, leg);
    ListedRowsPush(others, leg);
    DeltaSnoc(affecting, leg);
  }

  /** Folding one more leg changes exactly the bucket the leg belongs to. */
  lemma RunningGroupSnoc(legs: seq<Leg>, leg: Leg, period: Period, change: RecordChange)
    ensures RunningGroup(legs + [leg], period, change)
         == if leg.period == period && leg.change == change then AddLeg(RunningGroup(legs, period, change), leg)
            else RunningGroup(legs, period, change)
  {
    SelectSnoc(legs, leg, period, change, true);
    SelectSnoc(legs, leg, period, change, false);
    GroupHoldingOneMore(Select(legs, period, change, true), Select(legs, period, change, false), leg);
  }

  /** reduceEntries: a mutable result filled leg by leg, then every total rounded once. */
  method ReduceEntries(legs: seq<Leg>) returns (result: Loads)
    requires forall i | 0 <= i < |legs| :: legs[i].change != Unchanged
    ensures result == Loads(ByChangeOf(legs, Open), ByChangeOf(legs, Closed), [])
  {
    result := EMPTY_LOADS;
    for i := 0 to |legs|
      invariant result.closedPeriods == []
      invariant result.openPeriodLoads == ByChange(RunningGroup(legs[..i], Open, Added), RunningGroup(legs[..i], Open, Adjusted))
      invariant result.closedPeriodLoads == ByChange(RunningGroup(legs[..i], Closed, Added), RunningGroup(legs[..i], Closed, Adjusted))
    {
      var leg := legs[i];
      assert legs[..i + 1] == legs[..i] + [leg];
      RunningGroupSnoc(legs[..i], leg, Open, Added);
      RunningGroupSnoc(legs[..i], leg, Open, Adjusted);
      RunningGroupSnoc(legs[..i], leg, Closed, Added);
      RunningGroupSnoc(legs[..i], leg, Closed, Adjusted);
      var loads := if leg.period == Open then result.openPeriodLoads else result.closedPeriodLoads;
      var group := AddLeg(if leg.change == Added then loads.added else loads.adjusted, leg);
      loads := if leg.change == Added then loads.(added := group) else loads.(adjusted := group);
      result := if leg.period == Open then result.(openPeriodLoads := loads) else result.(closedPeriodLoads := loads);
    }
    assert legs[..|legs|] == legs;
    result := Loads(
      ByChange(RoundedGroup(result.openPeriodLoads.added), RoundedGroup(result.openPeriodLoads.adjusted)),
      ByChange(RoundedGroup(result.closedPeriodLoads.added), RoundedGroup(result.closedPeriodLoads.adjusted)),
      result.closedPeriods);
  }

  // ----- the classification -----

  function LoadsOf(rows: seq<ValidatedWasteRecord>, ctx: Context): Loads {
    Loads(ByChangeOf(LegsOf(rows, ctx), Open), ByChangeOf(LegsOf(rows, ctx), Closed), Distinct(RefsOf(rows, ctx)))
  }

  lemma RowLegsAreNeverUnchanged(row: ValidatedWasteRecord, ctx: Context)
    ensures forall i | 0 <= i < |LegsOfRow(row, ctx)| :: LegsOfRow(row, ctx)[i].change != Unchanged
  {}

  lemma {:induction false} LegsAreNeverUnchanged(rows: seq<ValidatedWasteRecord>, ctx: Context)
    ensures forall i | 0 <= i < |LegsOf(rows, ctx)| :: LegsOf(rows, ctx)[i].change != Unchanged
  {
    if rows != [] {
      LegsAreNeverUnchanged(rows[..|rows| - 1], ctx);
      RowLegsAreNeverUnchanged(rows[|rows| - 1], ctx);
      var front, last := LegsOf(rows[..|rows| - 1], ctx), LegsOfRow(rows[|rows| - 1], ctx);
      assert LegsOf(rows, ctx) == front + last;
    }
  }

  lemma PeriodKeysAreInjective()
    ensures Injective(PeriodKey)
  {
    forall a: PeriodRef, b: PeriodRef ensures PeriodKey(a) == PeriodKey(b) ==> a == b {
      PeriodKeyIsInjective(a, b);
    }
  }

  /** The legs of one row that takes part, built as the source's branches build them. */
  method ClassifyRow(row: ValidatedWasteRecord, ctx: Context) returns (legs: seq<Leg>)
    requires TakesPart(row, ctx)
    ensures legs == LegsOfRow(row, ctx)
  {
    var schema := ctx.schemas[row.tableName];
    var newPeriod := NewPeriod(row, ctx);
    if ctx.changes[RecordKey(row.record)] == Added {
      if newPeriod.None? {
        return [];
      }
      var (amount, reasons) := ClassifyRowForWasteBalance(schema, row.record.data);
      return AddedLegs(newPeriod, amount, RowIdentity(row.record.rowId, schema.wasteRecordType, reasons));
    }
    var oldPeriod := OldPeriod(row, ctx);
    if newPeriod.None? && oldPeriod.None? {
      return [];
    }
    var (amount, reasons) := ClassifyRowForWasteBalance(schema, row.record.data);
    legs := ClassifyAdjustedRecord(oldPeriod, newPeriod, OldAmount(row, ctx), amount,
                                   RowIdentity(row.record.rowId, schema.wasteRecordType, reasons));
  }

  /** classifyByPeriodStatus: throws on a row whose change was never classified, and otherwise is `LoadsOf`. */
  method ClassifyByPeriodStatus(rows: seq<ValidatedWasteRecord>, states: RowStates, changes: map<string, RecordChange>,
                                reports: seq<PeriodicReport>, cadence: Cadence, schemas: map<string, TableSchema>)
    returns (r: Result<Loads, ChangeError>)
    ensures r.Failure? <==> exists i | 0 <= i < |rows| :: RecordKey(rows[i].record) !in changes
    ensures r.Success? ==> r.value == LoadsOf(rows, Context(states, changes, SubmittedKeys(reports, cadence), cadence, schemas))
  {
    var submitted := BuildSubmittedPeriods(reports, cadence);
    var ctx := Context(states, changes, submitted, cadence, schemas);
    var legs: seq<Leg> := [];
    var closed: OrderedMap<string, PeriodRef> := OrderedMap([], map[]);
    PeriodKeysAreInjective();
    for i := 0 to |rows|
      invariant forall j | 0 <= j < i :: RecordKey(rows[j].record) in changes
      invariant legs == LegsOf(rows[..i], ctx)
      invariant Holds(closed, PeriodKey, Distinct(RefsOf(rows[..i], ctx)))
    {
      assert rows[..i + 1][..i] == rows[..i];
      var row := rows[i];
      var change := RecordChangeFor(changes, row.record);
      if change.Failure? {
        return Failure(change.error);
      }
      if row.outcome == Ignored || change.value == Unchanged || row.tableName !in schemas {
        assert legs + [] == legs && RefsOf(rows[..i], ctx) + [] == RefsOf(rows[..i], ctx);
        continue;
      }
      closed := SetAll(closed, PeriodKey, RefsOf(rows[..i], ctx), RefsOfRow(row, ctx));
      var rowLegs := ClassifyRow(row, ctx);
      legs := legs + rowLegs;
    }
    assert rows[..|rows|] == rows;
    LegsAreNeverUnchanged(rows, ctx);
    var result := ReduceEntries(legs);
    var periods := Values(closed, PeriodKey, Distinct(RefsOf(rows, ctx)));
    r := Success(result.(closedPeriods := periods));
  }
}

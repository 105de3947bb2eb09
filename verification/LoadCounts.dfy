/** Load counts of an upload (load-counts.js), and the composition of the three classifications (classify-and-persist.js). */
module LoadCounts {
  import opened Wrappers
  import opened ReportPeriods
  import opened RecordChanges
  import PeriodStatus

  const MAX_ROW_IDS := 100

  datatype LoadCategory = LoadCategory(count: nat, rowIds: seq<string>)

  /** Two complementary categories: valid and invalid rows, or included and excluded ones. */
  datatype Split = Split(first: LoadCategory, second: LoadCategory)

  datatype Counts = Counts(added: Split, kept: Split, adjusted: Split)

  const EMPTY_CATEGORY := LoadCategory(0, [])
  const EMPTY_SPLIT := Split(EMPTY_CATEGORY, EMPTY_CATEGORY)
  const EMPTY_COUNTS := Counts(EMPTY_SPLIT, EMPTY_SPLIT, EMPTY_SPLIT)

  function AddToCategory(category: LoadCategory, rowId: string): LoadCategory {
    LoadCategory(category.count + 1, if |category.rowIds| < MAX_ROW_IDS then category.rowIds + [rowId] else category.rowIds)
  }

  function AddToSplit(split: Split, toFirst: bool, rowId: string): Split {
    if toFirst then split.(first := AddToCategory(split.first, rowId)) else split.(second := AddToCategory(split.second, rowId))
  }

  function AddToCounts(counts: Counts, change: RecordChange, toFirst: bool, rowId: string): Counts {
    match change
    case Added => counts.(added := AddToSplit(counts.added, toFirst, rowId))
    case Unchanged => counts.(kept := AddToSplit(counts.kept, toFirst, rowId))
    case Adjusted => counts.(adjusted := AddToSplit(counts.adjusted, toFirst, rowId))
  }

  /** Valid (first) and invalid rows by change; ignored rows are dropped before any lookup. */
  function CountByValidity(rows: seq<ValidatedWasteRecord>, changes: map<string, RecordChange>): Result<Counts, ChangeError> {
    if rows == [] then Success(EMPTY_COUNTS)
    else
      var row := rows[|rows| - 1];
      match CountByValidity(rows[..|rows| - 1], changes)
      case Failure(e) => Failure(e)
      case Success(counts) =>
        if row.outcome == Ignored then Success(counts)
        else
          match RecordChangeFor(changes, row.record)
          case Failure(e) => Failure(e)
          case Success(change) => Success(AddToCounts(counts, change, row.issues == 0, row.record.rowId))
  }

  /** Included (first) and excluded rows by change; an ignored row is skipped only when it is unchanged. */
  function CountByWasteBalanceInclusion(rows: seq<ValidatedWasteRecord>, changes: map<string, RecordChange>): Result<Counts, ChangeError> {
    if rows == [] then Success(EMPTY_COUNTS)
    else
      var row := rows[|rows| - 1];
      match CountByWasteBalanceInclusion(rows[..|rows| - 1], changes)
      case Failure(e) => Failure(e)
      case Success(counts) =>
        match RecordChangeFor(changes, row.record)
        case Failure(e) => Failure(e)
        case Success(change) =>
          if row.outcome == Ignored && change == Unchanged then Success(counts)
          else Success(AddToCounts(counts, change, row.outcome == Included, row.record.rowId))
  }

  datatype LoadValidity = LoadValidity(valid: LoadCategory, invalid: LoadCategory, included: LoadCategory, excluded: LoadCategory)

  datatype Loads = Loads(added: LoadValidity, kept: LoadValidity, adjusted: LoadValidity)

  function MergeSplits(validity: Split, inclusion: Split): LoadValidity {
    LoadValidity(validity.first, validity.second, inclusion.first, inclusion.second)
  }

  function MergeLoads(validity: Counts, inclusion: Counts): Loads {
    Loads(MergeSplits(validity.added, inclusion.added),
          MergeSplits(validity.kept, inclusion.kept),
          MergeSplits(validity.adjusted, inclusion.adjusted))
  }

  // ----- what the counts mean -----

  function SplitOf(counts: Counts, change: RecordChange): Split {
    match change
    case Added => counts.added
    case Unchanged => counts.kept
    case Adjusted => counts.adjusted
  }

  /** The ids of the rows a predicate chooses, in upload order. */
  function Chosen(rows: seq<ValidatedWasteRecord>, chooses: ValidatedWasteRecord -> bool): seq<string> {
    if rows == [] then []
    else
      Chosen(rows[..|rows| - 1], chooses) + (if chooses(rows[|rows| - 1]) then [rows[|rows| - 1].record.rowId] else [])
  }

  /** A category counts all of the ids and lists the first hundred. */
  predicate Lists(category: LoadCategory, ids: seq<string>) {
    category.count == |ids| && category.rowIds == if |ids| <= 100 then ids else ids[..100]
  }

  lemma ListsSnoc(category: LoadCategory, ids: seq<string>, id: string)
    requires Lists(category, ids)
    ensures Lists(AddToCategory(category, id), ids + [id])
  {}

  lemma AddedToOneSplit(counts: Counts, to: RecordChange, toFirst: bool, id: string, change: RecordChange)
    ensures SplitOf(AddToCounts(counts, to, toFirst, id), change)
         == if to == change then AddToSplit(SplitOf(counts, change), toFirst, id) else SplitOf(counts, change)
  {}

  predicate SplitLists(split: Split, first: seq<string>, second: seq<string>) {
    Lists(split.first, first) && Lists(split.second, second)
  }

  lemma SplitSnoc(split: Split, first: seq<string>, second: seq<string>, toFirst: bool, id: string)
    requires SplitLists(split, first, second)
    ensures SplitLists(AddToSplit(split, toFirst, id), if toFirst then first + [id] else first, if toFirst then second else second + [id])
  {
    ListsSnoc(split.first, first, id);
    ListsSnoc(split.second, second, id);
  }

  lemma ChosenSnoc(rows: seq<ValidatedWasteRecord>, chooses: ValidatedWasteRecord -> bool)
    requires rows != []
    ensures Chosen(rows, chooses)
         == if chooses(rows[|rows| - 1]) then Chosen(rows[..|rows| - 1], chooses) + [rows[|rows| - 1].record.rowId]
            else Chosen(rows[..|rows| - 1], chooses)
  {
    assert Chosen(rows[..|rows| - 1], chooses) + [] == Chosen(rows[..|rows| - 1], chooses);
  }

  function ValidityChooses(changes: map<string, RecordChange>, change: RecordChange, valid: bool): ValidatedWasteRecord -> bool {
    (row: ValidatedWasteRecord) =>
      && row.outcome != Ignored
      && RecordChangeFor(changes, row.record) == Success(change)
      && (row.issues == 0) == valid
  }

  function InclusionChooses(changes: map<string, RecordChange>, change: RecordChange, included: bool): ValidatedWasteRecord -> bool {
    (row: ValidatedWasteRecord) =>
      && RecordChangeFor(changes, row.record) == Success(change)
      && !(row.outcome == Ignored && change == Unchanged)
      && (row.outcome == Included) == included
  }

  predicate AllFound(rows: seq<ValidatedWasteRecord>, changes: map<string, RecordChange>) {
    forall i | 0 <= i < |rows| :: RecordChangeFor(changes, rows[i].record).Success?
  }

  /** The validity counts are exactly the non-ignored rows with each change, with and without issues. */
  lemma {:induction false} ValidityCountsAreExact(rows: seq<ValidatedWasteRecord>, changes: map<string, RecordChange>, change: RecordChange)
    requires AllFound(rows, changes)
    ensures CountByValidity(rows, changes).Success?
    ensures var split := SplitOf(CountByValidity(rows, changes).value, change);
      SplitLists(split, Chosen(rows, ValidityChooses(changes, change, true)), Chosen(rows, ValidityChooses(changes, change, false)))
  {
    if rows != [] {
      var front, row := rows[..|rows| - 1], rows[|rows| - 1];
      var first, second := ValidityChooses(changes, change, true), ValidityChooses(changes, change, false);
      var found := RecordChangeFor(changes, row.record).value;
      ValidityCountsAreExact(front, changes, change);
      ChosenSnoc(rows, first);
      ChosenSnoc(rows, second);
      var counts := CountByValidity(front, changes).value;
      AddedToOneSplit(counts, found, row.issues == 0, row.record.rowId, change);
      SplitSnoc(SplitOf(counts, change), Chosen(front, first), Chosen(front, second), row.issues == 0, row.record.rowId);
    }
  }

  /** The inclusion counts are exactly the rows with each change, included or not, less ignored unchanged ones. */
  lemma {:induction false} InclusionCountsAreExact(rows: seq<ValidatedWasteRecord>, changes: map<string, RecordChange>, change: RecordChange)
    requires AllFound(rows, changes)
    ensures CountByWasteBalanceInclusion(rows, changes).Success?
    ensures var split := SplitOf(CountByWasteBalanceInclusion(rows, changes).value, change);
      SplitLists(split, Chosen(rows, InclusionChooses(changes, change, true)), Chosen(rows, InclusionChooses(changes, change, false)))
  {
    if rows != [] {
      var front, row := rows[..|rows| - 1], rows[|rows| - 1];
      var first, second := InclusionChooses(changes, change, true), InclusionChooses(changes, change, false);
      var found := RecordChangeFor(changes, row.record).value;
      InclusionCountsAreExact(front, changes, change);
      ChosenSnoc(rows, first);
      ChosenSnoc(rows, second);
      var counts := CountByWasteBalanceInclusion(front, changes).value;
      AddedToOneSplit(counts, found, row.outcome == Included, row.record.rowId, change);
      SplitSnoc(SplitOf(counts, change), Chosen(front, first), Chosen(front, second), row.outcome == Included, row.record.rowId);
    }
  }

  // ----- the three classifications together -----

  /** The rows whose table takes part in the waste balance. */
  function FilterWasteBalanceRecords(rows: seq<ValidatedWasteRecord>, contributes: string -> bool): (r: seq<ValidatedWasteRecord>)
    ensures forall row | row in r :: row in rows && contributes(row.record.recordType)
    ensures forall row | row in rows && contributes(row.record.recordType) :: row in r
  {
    if rows == [] then []
    else
      var front := FilterWasteBalanceRecords(rows[..|rows| - 1], contributes);
      assert rows == rows[..|rows| - 1] + [rows[|rows| - 1]];
      if contributes(rows[|rows| - 1].record.recordType) then front + [rows[|rows| - 1]] else front
  }

  lemma EveryRowIsFound(all: seq<ValidatedWasteRecord>, some: seq<ValidatedWasteRecord>, states: RowStates,
                        changes: map<string, RecordChange>, project: WasteRecord -> WasteRecordState)
    requires AreChangesOf(changes, all, states, project)
    requires forall row | row in some :: row in all
    ensures AllFound(some, changes)
  {
    forall i | 0 <= i < |some| ensures RecordChangeFor(changes, some[i].record).Success? {
      assert some[i] in all;
      var j :| 0 <= j < |all| && all[j] == some[i];
      LookupNeverThrows(changes, all, states, project, j);
    }
  }

  /** The rows of contributing tables, with a change, included or not; an ignored unchanged row is no load. */
  function BalanceChooses(contributes: string -> bool, changes: map<string, RecordChange>, change: RecordChange, included: bool)
    : ValidatedWasteRecord -> bool
  {
    (row: ValidatedWasteRecord) => contributes(row.record.recordType) && InclusionChooses(changes, change, included)(row)
  }

  lemma {:induction false} ChosenOfFiltered(rows: seq<ValidatedWasteRecord>, contributes: string -> bool,
                                            changes: map<string, RecordChange>, change: RecordChange, included: bool)
    ensures Chosen(FilterWasteBalanceRecords(rows, contributes), InclusionChooses(changes, change, included))
         == Chosen(rows, BalanceChooses(contributes, changes, change, included))
  {
    if rows != [] {
      var front, row := rows[..|rows| - 1], rows[|rows| - 1];
      var balanceRows := FilterWasteBalanceRecords(front, contributes);
      ChosenOfFiltered(front, contributes, changes, change, included);
      assert (balanceRows + [row])[..|balanceRows|] == balanceRows;
      ChosenSnoc(rows, BalanceChooses(contributes, changes, change, included));
      ChosenSnoc(balanceRows + [row], InclusionChooses(changes, change, included));
    }
  }

  /** The four categories of one change, each counting and listing exactly its own rows of the upload. */
  predicate CountsRows(v: LoadValidity, rows: seq<ValidatedWasteRecord>, contributes: string -> bool,
                       changes: map<string, RecordChange>, change: RecordChange) {
    && Lists(v.valid, Chosen(rows, ValidityChooses(changes, change, true)))
    && Lists(v.invalid, Chosen(rows, ValidityChooses(changes, change, false)))
    && Lists(v.included, Chosen(rows, BalanceChooses(contributes, changes, change, true)))
    && Lists(v.excluded, Chosen(rows, BalanceChooses(contributes, changes, change, false)))
  }

  lemma {:induction false} MergedCategoriesAreExact(rows: seq<ValidatedWasteRecord>, contributes: string -> bool,
                                                    changes: map<string, RecordChange>, change: RecordChange)
    requires AllFound(rows, changes) && AllFound(FilterWasteBalanceRecords(rows, contributes), changes)
    ensures CountByValidity(rows, changes).Success?
    ensures CountByWasteBalanceInclusion(FilterWasteBalanceRecords(rows, contributes), changes).Success?
    ensures var validity := CountByValidity(rows, changes).value;
      var inclusion := CountByWasteBalanceInclusion(FilterWasteBalanceRecords(rows, contributes), changes).value;
      var loads := MergeLoads(validity, inclusion);
      CountsRows(match change case Added => loads.added case Unchanged => loads.kept case Adjusted => loads.adjusted,
                 rows, contributes, changes, change)
  {
    ValidityCountsAreExact(rows, changes, change);
    InclusionCountsAreExact(FilterWasteBalanceRecords(rows, contributes), changes, change);
    ChosenOfFiltered(rows, contributes, changes, change, true);
    ChosenOfFiltered(rows, contributes, changes, change, false);
  }

  /** What a validated upload is shown: load counts, and the period classification. */
  datatype Classified = Classified(loads: Loads, byPeriod: PeriodStatus.Loads)

  /** classifyLoads on a validated upload of a known registration: for any upload it returns, and no lookup throws. */
  method ClassifyLoads(rows: seq<ValidatedWasteRecord>, contributes: string -> bool, states: RowStates,
                       project: WasteRecord -> WasteRecordState, reports: seq<PeriodicReport>, cadence: Cadence,
                       schemas: map<string, PeriodStatus.TableSchema>)
    returns (r: Result<Classified, ChangeError>)
    ensures r.Success?
    ensures exists changes | AreChangesOf(changes, rows, states, project) ::
      && r.value.byPeriod == PeriodStatus.LoadsOf(rows, PeriodStatus.Context(states, changes, SubmittedKeys(reports, cadence), cadence, schemas))
      && CountByValidity(rows, changes).Success?
      && CountByWasteBalanceInclusion(FilterWasteBalanceRecords(rows, contributes), changes).Success?
      && r.value.loads == MergeLoads(CountByValidity(rows, changes).value,
                                     CountByWasteBalanceInclusion(FilterWasteBalanceRecords(rows, contributes), changes).value)
      && CountsRows(r.value.loads.added, rows, contributes, changes, Added)
      && CountsRows(r.value.loads.kept, rows, contributes, changes, Unchanged)
      && CountsRows(r.value.loads.adjusted, rows, contributes, changes, Adjusted)
  {
    var changes := ClassifyRecordChanges(rows, states, project);
    var balanceRows := FilterWasteBalanceRecords(rows, contributes);
    EveryRowIsFound(rows, rows, states, changes, project);
    EveryRowIsFound(rows, balanceRows, states, changes, project);
    MergedCategoriesAreExact(rows, contributes, changes, Added);
    MergedCategoriesAreExact(rows, contributes, changes, Unchanged);
    MergedCategoriesAreExact(rows, contributes, changes, Adjusted);
    var validity := CountByValidity(rows, changes);
    var inclusion := CountByWasteBalanceInclusion(balanceRows, changes);
    var byPeriod := PeriodStatus.ClassifyByPeriodStatus(rows, states, changes, reports, cadence, schemas);
    assert forall i | 0 <= i < |rows| :: RecordChangeFor(changes, rows[i].record).Success?;
    r := Success(Classified(MergeLoads(validity.value, inclusion.value), byPeriod.value));
  }

  lemma {:induction false} NothingChosen(rows: seq<ValidatedWasteRecord>, chooses: ValidatedWasteRecord -> bool)
    requires forall i | 0 <= i < |rows| :: !chooses(rows[i])
    ensures Chosen(rows, chooses) == []
  {
    if rows != [] {
      NothingChosen(rows[..|rows| - 1], chooses);
    }
  }

  const NO_LOADS := LoadValidity(EMPTY_CATEGORY, EMPTY_CATEGORY, EMPTY_CATEGORY, EMPTY_CATEGORY)

  lemma NoSplitWithoutRows(rows: seq<ValidatedWasteRecord>, changes: map<string, RecordChange>, change: RecordChange)
    requires AllFound(rows, changes)
    requires forall i | 0 <= i < |rows| :: RecordChangeFor(changes, rows[i].record) != Success(change)
    ensures CountByValidity(rows, changes).Success? && SplitOf(CountByValidity(rows, changes).value, change) == EMPTY_SPLIT
    ensures CountByWasteBalanceInclusion(rows, changes).Success?
    ensures SplitOf(CountByWasteBalanceInclusion(rows, changes).value, change) == EMPTY_SPLIT
  {
    ValidityCountsAreExact(rows, changes, change);
    InclusionCountsAreExact(rows, changes, change);
    NothingChosen(rows, ValidityChooses(changes, change, true));
    NothingChosen(rows, ValidityChooses(changes, change, false));
    NothingChosen(rows, InclusionChooses(changes, change, true));
    NothingChosen(rows, InclusionChooses(changes, change, false));
  }

  lemma UnchangedRowsCountAsKept(rows: seq<ValidatedWasteRecord>, changes: map<string, RecordChange>)
    requires forall i | 0 <= i < |rows| :: RecordChangeFor(changes, rows[i].record) == Success(Unchanged)
    ensures CountByValidity(rows, changes).Success? && CountByWasteBalanceInclusion(rows, changes).Success?
    ensures var validity, inclusion := CountByValidity(rows, changes).value, CountByWasteBalanceInclusion(rows, changes).value;
      validity.added == validity.adjusted == inclusion.added == inclusion.adjusted == EMPTY_SPLIT
  {
    NoSplitWithoutRows(rows, changes, Added);
    NoSplitWithoutRows(rows, changes, Adjusted);
  }

  lemma FilteredRowsAreRows(rows: seq<ValidatedWasteRecord>, contributes: string -> bool, changes: map<string, RecordChange>)
    requires forall i | 0 <= i < |rows| :: RecordChangeFor(changes, rows[i].record) == Success(Unchanged)
    ensures var balanceRows := FilterWasteBalanceRecords(rows, contributes);
      forall i | 0 <= i < |balanceRows| :: RecordChangeFor(changes, balanceRows[i].record) == Success(Unchanged)
  {
    var balanceRows := FilterWasteBalanceRecords(rows, contributes);
    forall i | 0 <= i < |balanceRows| ensures RecordChangeFor(changes, balanceRows[i].record) == Success(Unchanged) {
      assert balanceRows[i] in rows;
    }
  }

  /** Uploading the same rows again adds nothing and adjusts nothing. */
  lemma {:induction false} ReuploadCountsNothing(rows: seq<ValidatedWasteRecord>, contributes: string -> bool, states: RowStates,
                              changes: map<string, RecordChange>, project: WasteRecord -> WasteRecordState)
    requires AreChangesOf(changes, rows, states, project)
    requires forall i | 0 <= i < |rows| :: Resubmits(rows[i].record, states, project)
    ensures var balanceRows := FilterWasteBalanceRecords(rows, contributes);
      && CountByValidity(rows, changes).Success? && CountByWasteBalanceInclusion(balanceRows, changes).Success?
      && var loads := MergeLoads(CountByValidity(rows, changes).value, CountByWasteBalanceInclusion(balanceRows, changes).value);
        loads.added == NO_LOADS && loads.adjusted == NO_LOADS
  {
    ReuploadIsUnchanged(changes, rows, states, project);
    FilteredRowsAreRows(rows, contributes, changes);
    UnchangedRowsCountAsKept(rows, changes);
    UnchangedRowsCountAsKept(FilterWasteBalanceRecords(rows, contributes), changes);
  }
}

/** How each row of an upload changed against the latest submitted rows (classify-record-changes.js, record-change.js). */
module RecordChanges {
  import opened Wrappers
  import opened ReportPeriods

  /** A row's data: its date fields that have a value, and everything else. */
  datatype RowData = RowData(dates: map<string, CalendarDate>, content: string)

  datatype RowOutcome = Rejected | Excluded | Included | Ignored | NotApplicable

  datatype Classification = Classification(outcome: RowOutcome, transactionAmount: real, reasons: seq<string>)

  datatype WasteRecord = WasteRecord(recordType: string, rowId: string, data: RowData)

  datatype ValidatedWasteRecord = ValidatedWasteRecord(record: WasteRecord, outcome: RowOutcome, issues: nat, tableName: string)

  /** What was last submitted for a row. */
  datatype WasteRecordState = WasteRecordState(data: RowData, classification: Classification)

  type RowStates = map<string, WasteRecordState>

  datatype RecordChange = Added | Adjusted | Unchanged

  datatype ChangeError = NoRecordChange(key: string)

  function RecordKey(record: WasteRecord): string {
    record.recordType + ":" + record.rowId
  }

  /** Keys never collide: no record type contains a colon, whatever the row ids. */
  lemma RecordKeyIsInjective(a: WasteRecord, b: WasteRecord)
    requires ':' !in a.recordType && ':' !in b.recordType
    ensures RecordKey(a) == RecordKey(b) ==> a.recordType == b.recordType && a.rowId == b.rowId
  {
    var m, n, s, t := |a.recordType|, |b.recordType|, RecordKey(a), RecordKey(b);
    assert s[..m] == a.recordType && t[..n] == b.recordType;
    assert s[m] == ':' && t[n] == ':' && s[m + 1..] == a.rowId && t[n + 1..] == b.rowId;
    assert m < n ==> t[m] == b.recordType[m];
    assert n < m ==> s[n] == a.recordType[n];
  }

  /** The row projects to exactly what was submitted for its key: the same data and the same reading. */
  predicate Resubmits(record: WasteRecord, states: RowStates, project: WasteRecord -> WasteRecordState) {
    && RecordKey(record) in states
    && project(record).data == states[RecordKey(record)].data
    && project(record).classification == states[RecordKey(record)].classification
  }

  /**
   * The change a row must be given: added exactly when nothing was submitted for its key, unchanged exactly when it
   * projects to what was, adjusted exactly when it projects to something else. `project` is projectSummaryLogRowState
   * with its accreditation and sites fixed.
   */
  predicate IsChangeOf(change: RecordChange, record: WasteRecord, states: RowStates, project: WasteRecord -> WasteRecordState) {
    var key := RecordKey(record);
    && (change == Added <==> key !in states)
    && (change == Unchanged <==> key in states && project(record) == states[key])
    && (change == Adjusted <==> key in states && project(record) != states[key])
  }

  predicate HasKey(row: ValidatedWasteRecord, key: string) {
    RecordKey(row.record) == key
  }

  /** The last row of the upload with a key. */
  function LastOf(rows: seq<ValidatedWasteRecord>, key: string): (r: Option<ValidatedWasteRecord>)
    ensures r.None? <==> forall i | 0 <= i < |rows| :: !HasKey(rows[i], key)
    ensures r.Some? ==> exists i | 0 <= i < |rows| ::
      rows[i] == r.value && HasKey(rows[i], key) && forall j | i < j < |rows| :: !HasKey(rows[j], key)
  {
    if rows == [] then None
    else if HasKey(rows[|rows| - 1], key) then Some(rows[|rows| - 1])
    else
      var front := rows[..|rows| - 1];
      var r := LastOf(front, key);
      assert r.Some? ==> forall i | 0 <= i < |front| :: rows[i] == front[i];
      r
  }

  /** One change for every key of the upload and no other, taken from the last row with that key. */
  ghost predicate AreChangesOf(changes: map<string, RecordChange>, rows: seq<ValidatedWasteRecord>, states: RowStates,
                               project: WasteRecord -> WasteRecordState) {
    forall key: string ::
      && (key in changes <==> LastOf(rows, key).Some?)
      && (key in changes ==> IsChangeOf(changes[key], LastOf(rows, key).value.record, states, project))
  }

  method ClassifyRecordChanges(rows: seq<ValidatedWasteRecord>, states: RowStates, project: WasteRecord -> WasteRecordState)
    returns (changes: map<string, RecordChange>)
    ensures AreChangesOf(changes, rows, states, project)
  {
    changes := map[];
    for n := 0 to |rows|
      invariant AreChangesOf(changes, rows[..n], states, project)
    {
      assert rows[..n + 1][..n] == rows[..n];
      var record := rows[n].record;
      var key := RecordKey(record);
      if key !in states {
        changes := changes[key := Added];
        continue;
      }
      var projected := project(record);
      var submitted := states[key];
      var same := projected.data == submitted.data && projected.classification == submitted.classification;
      changes := changes[key := if same then Unchanged else Adjusted];
    }
    assert rows[..|rows|] == rows;
  }

  function RecordChangeFor(changes: map<string, RecordChange>, record: WasteRecord): Result<RecordChange, ChangeError> {
    var key := RecordKey(record);
    if key in changes then Success(changes[key]) else Failure(NoRecordChange(key))
  }

  /** For any upload at all, looking up any of its rows never throws, and finds the change of the last row with its key. */
  lemma LookupNeverThrows(changes: map<string, RecordChange>, rows: seq<ValidatedWasteRecord>, states: RowStates,
                          project: WasteRecord -> WasteRecordState, i: nat)
    requires AreChangesOf(changes, rows, states, project) && i < |rows|
    ensures var last := LastOf(rows, RecordKey(rows[i].record));
      var found := RecordChangeFor(changes, rows[i].record);
      last.Some? && found.Success? && IsChangeOf(found.value, last.value.record, states, project)
  {
    assert HasKey(rows[i], RecordKey(rows[i].record));
  }

  /** The changes are determined by the upload: two classifications of it are the same map. */
  lemma ChangesAreDetermined(a: map<string, RecordChange>, b: map<string, RecordChange>, rows: seq<ValidatedWasteRecord>,
                             states: RowStates, project: WasteRecord -> WasteRecordState)
    requires AreChangesOf(a, rows, states, project) && AreChangesOf(b, rows, states, project)
    ensures a == b
  {
    assert forall key :: key in a <==> key in b;
  }

  /** An upload is unchanged throughout if and only if the last row with each of its keys projects to what was submitted. */
  lemma ReuploadIsUnchanged(changes: map<string, RecordChange>, rows: seq<ValidatedWasteRecord>, states: RowStates,
                            project: WasteRecord -> WasteRecordState)
    requires AreChangesOf(changes, rows, states, project)
    ensures (forall i | 0 <= i < |rows| :: RecordChangeFor(changes, rows[i].record) == Success(Unchanged))
       <==> (forall i | 0 <= i < |rows| ::
               var last := LastOf(rows, RecordKey(rows[i].record)); last.Some? && Resubmits(last.value.record, states, project))
    ensures (forall i | 0 <= i < |rows| :: Resubmits(rows[i].record, states, project))
        ==> (forall i | 0 <= i < |rows| :: RecordChangeFor(changes, rows[i].record) == Success(Unchanged))
  {
    forall i | 0 <= i < |rows|
      ensures var last := LastOf(rows, RecordKey(rows[i].record));
        && last.Some? && last.value in rows
        && (RecordChangeFor(changes, rows[i].record) == Success(Unchanged) <==> Resubmits(last.value.record, states, project))
    {
      LookupNeverThrows(changes, rows, states, project, i);
    }
  }
}

/**
 * The MongoDB adapter (mongodb.js): its compare-and-set guards as aggregation expressions, its update objects,
 * and the proof that it refines the in-memory reference. The driver is modelled as an atomic find-and-update
 * on a map with a sparse unique index on the PRN number.
 */
module MongoStore {
  import opened Wrappers
  import opened PrnModel
  import opened PrnStore

  /** A stored document. Its version may be absent; `doc.version` is never read. */
  datatype MongoDoc = MongoDoc(version: Option<int>, doc: Prn)

  type Collection = map<PrnId, MongoDoc>

  /** The reference document a stored one stands for: an absent version counts as one. */
  function Abs(d: MongoDoc): Prn {
    d.doc.(version := d.version.GetOr(1))
  }

  function AbsStore(coll: Collection): Store {
    map id | id in coll :: Abs(coll[id])
  }

  // ----- aggregation expressions -----

  datatype Value = Null | Num(n: int)

  datatype Term =
    | Lit(value: Value)
    | VersionField
    | WatermarkField
    | IfNull(term: Term, default: Term)

  datatype Cond =
    | Eq(left: Term, right: Term)
    | Gte(left: Term, right: Term)
    | And(first: Cond, second: Cond)

  function EvalTerm(t: Term, d: MongoDoc): Value {
    match t
    case Lit(v) => v
    case VersionField => if d.version.Some? then Num(d.version.value) else Null
    case WatermarkField => if d.doc.watermark.Some? then Num(d.doc.watermark.value) else Null
    case IfNull(t, default) => var v := EvalTerm(t, d); if v.Null? then EvalTerm(default, d) else v
  }

  /** In the BSON comparison order null sorts before every number. */
  predicate ValueGte(a: Value, b: Value) {
    b.Null? || (a.Num? && b.n <= a.n)
  }

  predicate EvalCond(c: Cond, d: MongoDoc) {
    match c
    case Eq(a, b) => EvalTerm(a, d) == EvalTerm(b, d)
    case Gte(a, b) => ValueGte(EvalTerm(a, d), EvalTerm(b, d))
    case And(a, b) => EvalCond(a, d) && EvalCond(b, d)
  }

  function VersionMatches(version: int): Cond {
    Eq(IfNull(VersionField, Lit(Num(1))), Lit(Num(version)))
  }

  function WatermarkNotRegressing(incoming: Option<EventNumber>): Cond {
    match incoming
    case None => Eq(IfNull(WatermarkField, Lit(Null)), Lit(Null))
    case Some(n) => Gte(Lit(Num(n)), IfNull(WatermarkField, Lit(Num(n))))
  }

  function CasGuard(version: int, incoming: Option<EventNumber>): Cond {
    And(VersionMatches(version), WatermarkNotRegressing(incoming))
  }

  /** The guard expressions say, on every document, exactly what the in-memory guards say. */
  lemma GuardMeansReferenceChecks(d: MongoDoc, version: int, incoming: Option<EventNumber>)
    ensures EvalCond(VersionMatches(version), d) <==> Abs(d).version == version
    ensures EvalCond(WatermarkNotRegressing(incoming), d) <==> !IsWatermarkRegression(Abs(d).watermark, incoming)
    ensures EvalCond(CasGuard(version, incoming), d)
       <==> Abs(d).version == version && !IsWatermarkRegression(Abs(d).watermark, incoming)
  {
    assert EvalTerm(IfNull(VersionField, Lit(Num(1))), d) == Num(Abs(d).version);
    match incoming {
      case None =>
        assert EvalTerm(IfNull(WatermarkField, Lit(Null)), d) == EvalTerm(WatermarkField, d);
      case Some(n) =>
        assert EvalTerm(IfNull(WatermarkField, Lit(Num(n))), d)
            == if d.doc.watermark.Some? then Num(d.doc.watermark.value) else Num(n);
    }
  }

  // ----- update objects -----

  datatype Field =
    | CurrentStatusField
    | CurrentStatusAtField
    | UpdatedAtField
    | UpdatedByField
    | PrnNumberField
    | LastAppliedField
    | SlotField(slot: Slot)
    | DocVersionField

  datatype FieldValue =
    | StatusValue(status: Status)
    | InstantValue(at: Instant)
    | ActorValue(actor: Actor)
    | StringValue(s: string)
    | NumberValue(n: int)
    | OperationValue(op: BusinessOperation)

  type SetFields = map<Field, FieldValue>

  datatype Update = Update(sets: SetFields, unsets: set<Field>, push: HistoryItem)

  /** Every field is set to a value of its own type. */
  ghost predicate WellTyped(sets: SetFields) {
    forall f | f in sets ::
      match f
      case CurrentStatusField => sets[f].StatusValue?
      case CurrentStatusAtField => sets[f].InstantValue?
      case UpdatedAtField => sets[f].InstantValue?
      case UpdatedByField => sets[f].ActorValue?
      case PrnNumberField => sets[f].StringValue?
      case LastAppliedField => sets[f].NumberValue? && 1 <= sets[f].n
      case SlotField(_) => sets[f].OperationValue?
      case DocVersionField => sets[f].NumberValue?
  }

  function SlotsAfter(slots: map<Slot, BusinessOperation>, u: Update): map<Slot, BusinessOperation>
    requires WellTyped(u.sets)
  {
    map s: Slot | SlotField(s) in u.sets || (s in slots && SlotField(s) !in u.unsets) ::
      if SlotField(s) in u.sets then u.sets[SlotField(s)].op else slots[s]
  }

  /** $set, $unset and $push applied to one document. */
  function ApplyUpdate(d: MongoDoc, u: Update): MongoDoc
    requires WellTyped(u.sets)
  {
    var prn, sets := d.doc, u.sets;
    MongoDoc(
      if DocVersionField in sets then Some(sets[DocVersionField].n) else d.version,
      prn.(
        updatedAt := if UpdatedAtField in sets then sets[UpdatedAtField].at else prn.updatedAt,
        updatedBy := if UpdatedByField in sets then sets[UpdatedByField].actor else prn.updatedBy,
        prnNumber := if PrnNumberField in sets then Some(sets[PrnNumberField].s)
                     else if PrnNumberField in u.unsets then None else prn.prnNumber,
        watermark := if LastAppliedField in sets then Some(sets[LastAppliedField].n) else prn.watermark,
        status := StatusBlock(
          if CurrentStatusField in sets then sets[CurrentStatusField].status else prn.status.current,
          if CurrentStatusAtField in sets then sets[CurrentStatusAtField].at else prn.status.currentAt,
          SlotsAfter(prn.status.slots, u),
          prn.status.history + [u.push])))
  }

  // ----- the driver -----

  datatype FindResult = NoMatch | DuplicateKey | Found(after: MongoDoc)

  /** Whether writing `number` on document `id` would break the sparse unique index. */
  predicate IndexClash(coll: Collection, id: PrnId, number: Option<string>) {
    number.Some? && exists other | other in coll :: other != id && coll[other].doc.prnNumber == number
  }

  ghost predicate UniqueIndex(coll: Collection) {
    forall id | id in coll :: !IndexClash(coll, id, coll[id].doc.prnNumber)
  }

  function FindOneAndUpdate(coll: Collection, id: PrnId, guard: Cond, u: Update): FindResult
    requires WellTyped(u.sets)
  {
    if id !in coll || !EvalCond(guard, coll[id]) then NoMatch
    else
      var after := ApplyUpdate(coll[id], u);
      if IndexClash(coll, id, after.doc.prnNumber) then DuplicateKey else Found(after)
  }

  function FindOneAndReplace(coll: Collection, id: PrnId, guard: Cond, replacement: MongoDoc): FindResult {
    if id !in coll || !EvalCond(guard, coll[id]) then NoMatch
    else if IndexClash(coll, id, replacement.doc.prnNumber) then DuplicateKey
    else Found(replacement)
  }

  function AfterFind(coll: Collection, id: PrnId, r: FindResult): Collection {
    if r.Found? then coll[id := r.after] else coll
  }

  /** How the adapter reports a driver result; a miss is diagnosed by a second read of the collection `later`. */
  function Report(r: FindResult, later: Collection, id: PrnId, expectedVersion: int): WriteOutcome {
    match r
    case NoMatch => ResolveMissedUpdate(AbsStore(later), id, expectedVersion)
    case DuplicateKey => NumberConflict
    case Found(after) => Written(Abs(after))
  }

  // ----- the operations -----

  function StatusSets(status: Status, actor: Actor, at: Instant): (sets: SetFields)
    ensures WellTyped(sets)
  {
    map[CurrentStatusField := StatusValue(status),
        CurrentStatusAtField := InstantValue(at),
        UpdatedAtField := InstantValue(at),
        UpdatedByField := ActorValue(actor)]
  }

  function UpdateStatusSets(params: UpdateStatusParams): (sets: SetFields)
    ensures WellTyped(sets)
  {
    var base := StatusSets(params.status, params.updatedBy, params.updatedAt);
    var numbered := if Given(params.prnNumber) then base[PrnNumberField := StringValue(params.prnNumber.value)] else base;
    var marked := if params.watermark.Some? then numbered[LastAppliedField := NumberValue(params.watermark.value)] else numbered;
    var stamped := if params.operation.Some?
                   then marked[SlotField(params.operation.value.0) := OperationValue(params.operation.value.1)] else marked;
    stamped[DocVersionField := NumberValue(params.version + 1)]
  }

  function MongoUpdateStatus(coll: Collection, params: UpdateStatusParams): FindResult {
    FindOneAndUpdate(coll, params.id, CasGuard(params.version, params.watermark),
                     Update(UpdateStatusSets(params), {}, HistoryItem(params.status, params.updatedAt, params.updatedBy)))
  }

  function MongoPersist(coll: Collection, projection: Prn, expectedVersion: int): FindResult {
    FindOneAndReplace(coll, projection.id, CasGuard(expectedVersion, projection.watermark),
                      MongoDoc(Some(expectedVersion + 1), projection))
  }

  function RollbackSets(params: RollbackParams, options: RollbackOptions): (sets: SetFields)
    ensures WellTyped(sets)
  {
    var base := StatusSets(options.revertedStatus, params.updatedBy, params.updatedAt);
    var marked := if params.watermark.Some? then base[LastAppliedField := NumberValue(params.watermark.value)] else base;
    marked[DocVersionField := NumberValue(params.expectedVersion + 1)]
  }

  function RollbackUnsets(options: RollbackOptions): set<Field> {
    (set s | s in options.slotsToUnset :: SlotField(s)) + (if options.unsetPrnNumber then {PrnNumberField} else {})
  }

  function MongoRollback(coll: Collection, params: RollbackParams, options: RollbackOptions): FindResult {
    FindOneAndUpdate(coll, params.id, CasGuard(params.expectedVersion, params.watermark),
                     Update(RollbackSets(params, options), RollbackUnsets(options),
                            HistoryItem(options.revertedStatus, params.updatedAt, params.updatedBy)))
  }

  // ----- refinement -----

  lemma IndexClashIsNumberTaken(coll: Collection, id: PrnId, number: Option<string>)
    ensures IndexClash(coll, id, number) <==> number.Some? && NumberTaken(AbsStore(coll), id, number.value)
  {
    if IndexClash(coll, id, number) {
      var other :| other in coll && other != id && coll[other].doc.prnNumber == number;
      assert other in AbsStore(coll) && AbsStore(coll)[other].prnNumber == Some(number.value);
    }
    if number.Some? && NumberTaken(AbsStore(coll), id, number.value) {
      var other :| other in AbsStore(coll) && other != id && AbsStore(coll)[other].prnNumber == Some(number.value);
      assert other in coll && coll[other].doc.prnNumber == number;
    }
  }

  lemma AbsAfterFind(coll: Collection, id: PrnId, after: MongoDoc)
    requires after.doc.id == id
    ensures AbsStore(coll[id := after]) == AfterWrite(AbsStore(coll), Written(Abs(after)))
  {}

  /** updateStatus: same outcome in the same precedence, and the same documents afterwards. */
  lemma UpdateStatusRefines(coll: Collection, params: UpdateStatusParams)
    requires WellKeyed(AbsStore(coll)) && UniqueIndex(coll)
    ensures var r := MongoUpdateStatus(coll, params);
      && Report(r, coll, params.id, params.version) == UpdateStatusOutcome(AbsStore(coll), params)
      && AbsStore(AfterFind(coll, params.id, r)) == AfterWrite(AbsStore(coll), UpdateStatusOutcome(AbsStore(coll), params))
      && UniqueIndex(AfterFind(coll, params.id, r))
  {
    if params.id in coll {
      var d := coll[params.id];
      var r := MongoUpdateStatus(coll, params);
      assert AbsStore(coll)[params.id] == Abs(d);
      GuardMeansReferenceChecks(d, params.version, params.watermark);
      var u := Update(UpdateStatusSets(params), {}, HistoryItem(params.status, params.updatedAt, params.updatedBy));
      var after := ApplyUpdate(d, u);
      IndexClashIsNumberTaken(coll, params.id, after.doc.prnNumber);
      if Abs(d).version == params.version {
        UpdateStatusSlots(d.doc.status.slots, params);
        assert Abs(after) == UpdatedDoc(Abs(d), params);
      }
      if r.Found? {
        AbsAfterFind(coll, params.id, after);
        IndexKept(coll, params.id, after);
      }
    }
  }

  lemma UpdateStatusSlots(slots: map<Slot, BusinessOperation>, params: UpdateStatusParams)
    ensures SlotsAfter(slots, Update(UpdateStatusSets(params), {}, HistoryItem(params.status, params.updatedAt, params.updatedBy)))
         == if params.operation.Some? then slots[params.operation.value.0 := params.operation.value.1] else slots
  {
    var sets := UpdateStatusSets(params);
    assert forall s: Slot :: SlotField(s) in sets <==> params.operation.Some? && params.operation.value.0 == s;
  }

  lemma IndexKept(coll: Collection, id: PrnId, after: MongoDoc)
    requires UniqueIndex(coll) && !IndexClash(coll, id, after.doc.prnNumber)
    ensures UniqueIndex(coll[id := after])
  {}

  /** The one input the adapters disagree on: an empty number, which the reference skips and the index does not. */
  ghost predicate EmptyNumberClash(store: Store, projection: Prn, expectedVersion: int) {
    && PersistOutcome(store, projection, expectedVersion).Written?
    && projection.prnNumber == Some("")
    && NumberTaken(store, projection.id, "")
  }

  /** persistProjection: the adapters agree if and only if no second empty number is being written. */
  lemma PersistRefinesIffNoEmptyNumberClash(coll: Collection, projection: Prn, expectedVersion: int)
    requires WellKeyed(AbsStore(coll)) && UniqueIndex(coll)
    ensures var r := MongoPersist(coll, projection, expectedVersion);
      && (Report(r, coll, projection.id, expectedVersion) == PersistOutcome(AbsStore(coll), projection, expectedVersion)
          <==> !EmptyNumberClash(AbsStore(coll), projection, expectedVersion))
      && (EmptyNumberClash(AbsStore(coll), projection, expectedVersion) ==> r == DuplicateKey)
      && (!EmptyNumberClash(AbsStore(coll), projection, expectedVersion) ==>
          AbsStore(AfterFind(coll, projection.id, r))
          == AfterWrite(AbsStore(coll), PersistOutcome(AbsStore(coll), projection, expectedVersion)))
      && UniqueIndex(AfterFind(coll, projection.id, r))
  {
    if projection.id in coll {
      var d := coll[projection.id];
      assert AbsStore(coll)[projection.id] == Abs(d);
      GuardMeansReferenceChecks(d, expectedVersion, projection.watermark);
      IndexClashIsNumberTaken(coll, projection.id, projection.prnNumber);
      var after := MongoDoc(Some(expectedVersion + 1), projection);
      AbsAfterFind(coll, projection.id, after);
      if !IndexClash(coll, projection.id, projection.prnNumber) {
        IndexKept(coll, projection.id, after);
      }
    }
  }

  /** All three rollbacks agree, whatever the options. */
  lemma RollbackRefines(coll: Collection, params: RollbackParams, options: RollbackOptions)
    requires WellKeyed(AbsStore(coll)) && UniqueIndex(coll)
    ensures var r := MongoRollback(coll, params, options);
      && Report(r, coll, params.id, params.expectedVersion) == RollbackOutcome(AbsStore(coll), params, options)
      && AbsStore(AfterFind(coll, params.id, r)) == AfterWrite(AbsStore(coll), RollbackOutcome(AbsStore(coll), params, options))
      && UniqueIndex(AfterFind(coll, params.id, r))
  {
    if params.id in coll {
      var d := coll[params.id];
      assert AbsStore(coll)[params.id] == Abs(d);
      GuardMeansReferenceChecks(d, params.expectedVersion, params.watermark);
      var u := Update(RollbackSets(params, options), RollbackUnsets(options),
                      HistoryItem(options.revertedStatus, params.updatedAt, params.updatedBy));
      var after := ApplyUpdate(d, u);
      if Abs(d).version == params.expectedVersion {
        RollbackSlots(d.doc.status.slots, params, options);
        assert Abs(after) == RolledBackDoc(Abs(d), params, options);
      }
      assert after.doc.prnNumber.Some? ==> after.doc.prnNumber == d.doc.prnNumber;
      if MongoRollback(coll, params, options).Found? {
        AbsAfterFind(coll, params.id, after);
        IndexKept(coll, params.id, after);
      }
    }
  }

  lemma RollbackSlots(slots: map<Slot, BusinessOperation>, params: RollbackParams, options: RollbackOptions)
    ensures SlotsAfter(slots, Update(RollbackSets(params, options), RollbackUnsets(options),
                                     HistoryItem(options.revertedStatus, params.updatedAt, params.updatedBy)))
         == slots - options.slotsToUnset
  {
    var unsets := RollbackUnsets(options);
    assert forall s :: SlotField(s) in unsets <==> s in options.slotsToUnset;
  }

  // ----- the adapter -----

  /** The $set object, filled in field by field. */
  method BuildUpdateStatusSets(params: UpdateStatusParams) returns (setFields: SetFields)
    ensures setFields == UpdateStatusSets(params)
  {
    setFields := StatusSets(params.status, params.updatedBy, params.updatedAt);
    if Given(params.prnNumber) {
      setFields := setFields[PrnNumberField := StringValue(params.prnNumber.value)];
    }
    if params.watermark.Some? {
      setFields := setFields[LastAppliedField := NumberValue(params.watermark.value)];
    }
    if params.operation.Some? {
      setFields := setFields[SlotField(params.operation.value.0) := OperationValue(params.operation.value.1)];
    }
    setFields := setFields[DocVersionField := NumberValue(params.version + 1)];
  }

  /** The collection, written only through atomic find-and-update calls. */
  class MongoPrnRepository {
    var collection: Collection

    ghost predicate Valid()
      reads this
    {
      WellKeyed(AbsStore(collection)) && UniqueIndex(collection)
    }

    ghost function Documents(): Store
      reads this
    {
      AbsStore(collection)
    }

    constructor ()
      ensures Valid() && Documents() == map[]
    {
      collection := map[];
    }

    /** Behaves as the in-memory reference on the documents it holds. */
    method UpdateStatus(params: UpdateStatusParams) returns (outcome: WriteOutcome)
      requires Valid()
      modifies this
      ensures Valid()
      ensures outcome == UpdateStatusOutcome(old(Documents()), params)
      ensures Documents() == AfterWrite(old(Documents()), outcome)
    {
      UpdateStatusRefines(collection, params);
      var setFields := BuildUpdateStatusSets(params);
      var r := FindOneAndUpdate(collection, params.id, CasGuard(params.version, params.watermark),
                                Update(setFields, {}, HistoryItem(params.status, params.updatedAt, params.updatedBy)));
      collection := AfterFind(collection, params.id, r);
      outcome := Report(r, collection, params.id, params.version);
    }

    /** Behaves as the in-memory reference unless a second empty number is being written. */
    method PersistProjection(projection: Prn, expectedVersion: int) returns (outcome: WriteOutcome)
      requires Valid()
      modifies this
      ensures Valid()
      ensures EmptyNumberClash(old(Documents()), projection, expectedVersion) ==>
                outcome == NumberConflict && Documents() == old(Documents())
      ensures !EmptyNumberClash(old(Documents()), projection, expectedVersion) ==>
                && outcome == PersistOutcome(old(Documents()), projection, expectedVersion)
                && Documents() == AfterWrite(old(Documents()), outcome)
    {
      PersistRefinesIffNoEmptyNumberClash(collection, projection, expectedVersion);
      var replacement := MongoDoc(Some(expectedVersion + 1), projection);
      var r := FindOneAndReplace(collection, projection.id, CasGuard(expectedVersion, projection.watermark), replacement);
      collection := AfterFind(collection, projection.id, r);
      outcome := Report(r, collection, projection.id, expectedVersion);
    }

    method Rollback(params: RollbackParams, options: RollbackOptions) returns (outcome: WriteOutcome)
      requires Valid()
      modifies this
      ensures Valid()
      ensures outcome == RollbackOutcome(old(Documents()), params, options)
      ensures Documents() == AfterWrite(old(Documents()), outcome)
    {
      RollbackRefines(collection, params, options);
      var setFields := StatusSets(options.revertedStatus, params.updatedBy, params.updatedAt);
      if params.watermark.Some? {
        setFields := setFields[LastAppliedField := NumberValue(params.watermark.value)];
      }
      setFields := setFields[DocVersionField := NumberValue(params.expectedVersion + 1)];
      assert setFields == RollbackSets(params, options);
      var unsetFields := set s | s in options.slotsToUnset :: SlotField(s);
      if options.unsetPrnNumber {
        unsetFields := unsetFields + {PrnNumberField};
      }
      assert unsetFields == RollbackUnsets(options);
      var r := FindOneAndUpdate(collection, params.id, CasGuard(params.expectedVersion, params.watermark),
                                Update(setFields, unsetFields, HistoryItem(options.revertedStatus, params.updatedAt, params.updatedBy)));
      collection := AfterFind(collection, params.id, r);
      outcome := Report(r, collection, params.id, params.expectedVersion);
    }
  }
}

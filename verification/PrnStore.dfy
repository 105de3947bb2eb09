/** The PRN repository: its reference semantics, and the in-memory adapter that implements them (inmemory.plugin.js). */
module PrnStore {
  import opened Wrappers
  import opened PrnModel

  type Store = map<PrnId, Prn>

  /** How a guarded write ends. Only `Written` changes the store. */
  datatype WriteOutcome =
    | Missing
    | VersionConflict
    | WatermarkRegression
    | NumberConflict
    | Written(prn: Prn)

  function AfterWrite(store: Store, outcome: WriteOutcome): Store {
    match outcome
    case Written(prn) => store[prn.id := prn]
    case _ => store
  }

  /** JavaScript truthiness of an optional string. */
  predicate Given(s: Option<string>) {
    s.Some? && s.value != ""
  }

  predicate IsWatermarkRegression(stored: Option<EventNumber>, incoming: Option<EventNumber>) {
    stored.Some? && (incoming.None? || incoming.value < stored.value)
  }

  predicate NumberTaken(store: Store, id: PrnId, number: string) {
    exists other | other in store :: other != id && store[other].prnNumber == Some(number)
  }

  ghost predicate WellKeyed(store: Store) {
    forall id | id in store :: store[id].id == id
  }

  ghost predicate UniqueNumbers(store: Store) {
    forall a, b | a in store && b in store && a != b && store[a].prnNumber.Some? :: store[a].prnNumber != store[b].prnNumber
  }

  datatype UpdateStatusParams = UpdateStatusParams(
    id: PrnId,
    version: int,
    status: Status,
    updatedBy: Actor,
    updatedAt: Instant,
    prnNumber: Option<string>,
    operation: Option<(Slot, BusinessOperation)>,
    watermark: Option<EventNumber>)

  datatype RollbackParams = RollbackParams(
    id: PrnId,
    expectedVersion: int,
    updatedBy: Actor,
    updatedAt: Instant,
    watermark: Option<EventNumber>)

  datatype RollbackOptions = RollbackOptions(revertedStatus: Status, slotsToUnset: set<Slot>, unsetPrnNumber: bool)

  const ROLLBACK_ISSUANCE := RollbackOptions(AwaitingAuthorisation, {IssuedSlot}, true)
  const ROLLBACK_PENDING_CANCELLATION := RollbackOptions(AwaitingAuthorisation, {CancelledSlot, DeletedSlot}, false)
  const ROLLBACK_ISSUED_CANCELLATION := RollbackOptions(AwaitingCancellation, {CancelledSlot}, false)

  // ----- reference semantics -----

  function UpdateStatusOutcome(store: Store, params: UpdateStatusParams): WriteOutcome {
    if params.id !in store then Missing
    else
      var prn := store[params.id];
      if prn.version != params.version then VersionConflict
      else if IsWatermarkRegression(prn.watermark, params.watermark) then WatermarkRegression
      else if Given(params.prnNumber) && NumberTaken(store, params.id, params.prnNumber.value) then NumberConflict
      else Written(UpdatedDoc(prn, params))
  }

  function UpdatedDoc(prn: Prn, params: UpdateStatusParams): Prn {
    prn.(
      version := prn.version + 1,
      updatedBy := params.updatedBy,
      updatedAt := params.updatedAt,
      prnNumber := if Given(params.prnNumber) then params.prnNumber else prn.prnNumber,
      watermark := if params.watermark.Some? then params.watermark else prn.watermark,
      status := StatusBlock(
        params.status,
        params.updatedAt,
        if params.operation.Some? then prn.status.slots[params.operation.value.0 := params.operation.value.1] else prn.status.slots,
        prn.status.history + [HistoryItem(params.status, params.updatedAt, params.updatedBy)]))
  }

  function PersistOutcome(store: Store, projection: Prn, expectedVersion: int): WriteOutcome {
    if projection.id !in store then Missing
    else
      var existing := store[projection.id];
      if existing.version != expectedVersion then VersionConflict
      else if IsWatermarkRegression(existing.watermark, projection.watermark) then WatermarkRegression
      else if Given(projection.prnNumber) && NumberTaken(store, projection.id, projection.prnNumber.value) then NumberConflict
      else Written(projection.(version := expectedVersion + 1))
  }

  function RollbackOutcome(store: Store, params: RollbackParams, options: RollbackOptions): WriteOutcome {
    if params.id !in store then Missing
    else
      var prn := store[params.id];
      if prn.version != params.expectedVersion then VersionConflict
      else if IsWatermarkRegression(prn.watermark, params.watermark) then WatermarkRegression
      else Written(RolledBackDoc(prn, params, options))
  }

  function RolledBackDoc(prn: Prn, params: RollbackParams, options: RollbackOptions): Prn {
    prn.(
      version := prn.version + 1,
      updatedBy := params.updatedBy,
      updatedAt := params.updatedAt,
      prnNumber := if options.unsetPrnNumber then None else prn.prnNumber,
      watermark := if params.watermark.Some? then params.watermark else prn.watermark,
      status := StatusBlock(
        options.revertedStatus,
        params.updatedAt,
        prn.status.slots - options.slotsToUnset,
        prn.status.history + [HistoryItem(options.revertedStatus, params.updatedAt, params.updatedBy)]))
  }

  /** The separate read that diagnoses a missed compare-and-set (resolveMissedUpdate). */
  function ResolveMissedUpdate(store: Store, id: PrnId, expectedVersion: int): WriteOutcome {
    if id !in store then Missing
    else if store[id].version != expectedVersion then VersionConflict
    else WatermarkRegression
  }

  // ----- what every guarded write keeps -----

  /** A write that commits touches one document, moves its version on by one and never its watermark back. */
  lemma CommittedWriteAdvances(store: Store, projection: Prn, expectedVersion: int)
    requires WellKeyed(store)
    requires PersistOutcome(store, projection, expectedVersion).Written?
    ensures var store' := AfterWrite(store, PersistOutcome(store, projection, expectedVersion));
      && WellKeyed(store') && store'.Keys == store.Keys
      && store'[projection.id].version == store[projection.id].version + 1
      && Reach(store[projection.id].watermark) <= Reach(store'[projection.id].watermark)
      && forall id | id in store && id != projection.id :: store'[id] == store[id]
  {}

  /** Replacing one document keeps numbers unique exactly when its number, if it has one, is not taken. */
  lemma ReplacingKeepsNumbersUnique(store: Store, prn: Prn)
    requires UniqueNumbers(store)
    ensures UniqueNumbers(store[prn.id := prn]) <==> (prn.prnNumber.Some? ==> !NumberTaken(store, prn.id, prn.prnNumber.value))
  {
    var store' := store[prn.id := prn];
    if prn.prnNumber.Some? && NumberTaken(store, prn.id, prn.prnNumber.value) {
      var other :| other in store && other != prn.id && store[other].prnNumber == Some(prn.prnNumber.value);
      assert store'[other].prnNumber == store'[prn.id].prnNumber;
    } else {
      forall a, b | a in store' && b in store' && a != b && store'[a].prnNumber.Some?
        ensures store'[a].prnNumber != store'[b].prnNumber
      {
        if a == prn.id {
          assert !NumberTaken(store, a, store'[a].prnNumber.value);
        } else if b == prn.id && store'[b].prnNumber.Some? {
          assert !NumberTaken(store, b, store'[b].prnNumber.value);
        }
      }
    }
  }

  /** The number a document already has is taken by no other, so keeping it is safe. */
  lemma OwnNumberIsNotTaken(store: Store, id: PrnId)
    requires UniqueNumbers(store) && id in store && store[id].prnNumber.Some?
    ensures !NumberTaken(store, id, store[id].prnNumber.value)
  {}

  /** A status update keeps numbers unique: a given number is checked, any other is the document's own. */
  lemma {:induction false} UpdateStatusKeepsNumbersUnique(store: Store, params: UpdateStatusParams)
    requires WellKeyed(store) && UniqueNumbers(store)
    ensures UniqueNumbers(AfterWrite(store, UpdateStatusOutcome(store, params)))
  {
    var outcome := UpdateStatusOutcome(store, params);
    if outcome.Written? {
      if !Given(params.prnNumber) && store[params.id].prnNumber.Some? {
        OwnNumberIsNotTaken(store, params.id);
      }
      ReplacingKeepsNumbersUnique(store, outcome.prn);
    }
  }

  /** A persist keeps numbers unique unless it writes a second empty number, the one value its guard skips. */
  lemma {:induction false} PersistKeepsNumbersUnique(store: Store, projection: Prn, expectedVersion: int)
    requires UniqueNumbers(store)
    ensures UniqueNumbers(AfterWrite(store, PersistOutcome(store, projection, expectedVersion)))
       <==> !(PersistOutcome(store, projection, expectedVersion).Written?
              && projection.prnNumber == Some("") && NumberTaken(store, projection.id, ""))
  {
    var outcome := PersistOutcome(store, projection, expectedVersion);
    if outcome.Written? {
      ReplacingKeepsNumbersUnique(store, outcome.prn);
    }
  }

  const ROLLBACKS: set<RollbackOptions> := {ROLLBACK_ISSUANCE, ROLLBACK_PENDING_CANCELLATION, ROLLBACK_ISSUED_CANCELLATION}

  /**
   * Each of the three rollbacks undoes the status update it is for: status, slots and number are as before it, while the
   * version has moved on by two and the history records both the update and the way back.
   */
  lemma {:induction false} RollbackUndoesItsUpdate(prn: Prn, update: UpdateStatusParams, back: RollbackParams, options: RollbackOptions)
    requires options in ROLLBACKS && prn.status.current == options.revertedStatus
    requires update.operation.Some? && update.operation.value.0 in options.slotsToUnset
    requires prn.status.slots.Keys !! options.slotsToUnset
    requires if options.unsetPrnNumber then prn.prnNumber == None else !Given(update.prnNumber)
    ensures var restored := RolledBackDoc(UpdatedDoc(prn, update), back, options);
      && restored.status.current == prn.status.current
      && restored.status.slots == prn.status.slots
      && restored.prnNumber == prn.prnNumber
      && restored.version == prn.version + 2
      && restored.status.history == prn.status.history + [HistoryItem(update.status, update.updatedAt, update.updatedBy),
                                                          HistoryItem(prn.status.current, back.updatedAt, back.updatedBy)]
  {
    var slot := update.operation.value.0;
    assert prn.status.slots[slot := update.operation.value.1] - options.slotsToUnset == prn.status.slots;
  }

  // ----- the in-memory adapter -----

  /** PRN storage as a map that iterates in insertion order. */
  class InMemoryPrnRepository {
    var order: seq<PrnId>
    var storage: Store

    ghost predicate Valid()
      reads this
    {
      && WellKeyed(storage)
      && (forall i, j | 0 <= i < j < |order| :: order[i] != order[j])
      && (forall id :: id in order <==> id in storage)
    }

    constructor ()
      ensures Valid() && storage == map[] && order == []
    {
      order, storage := [], map[];
    }

    /** Stores a document under a fresh id; the id generator is a parameter. */
    method Create(prn: Prn, id: PrnId) returns (created: Prn)
      requires Valid() && id !in storage
      modifies this
      ensures Valid()
      ensures created == prn.(id := id)
      ensures storage == old(storage)[id := created] && order == old(order) + [id]
    {
      created := prn.(id := id);
      order := order + [id];
      storage := storage[id := created];
    }

    method FindById(id: PrnId) returns (prn: Option<Prn>)
      ensures prn == if id in storage then Some(storage[id]) else None
    {
      prn := if id in storage then Some(storage[id]) else None;
    }

    /** The first document in insertion order with this number. */
    method FindByPrnNumber(number: string) returns (prn: Option<Prn>)
      requires Valid()
      ensures prn.None? ==> forall id | id in storage :: storage[id].prnNumber != Some(number)
      ensures prn.Some? ==> prn.value.id in storage && prn.value == storage[prn.value.id] && prn.value.prnNumber == Some(number)
      ensures prn.Some? ==> exists k | 0 <= k < |order| ::
        order[k] == prn.value.id && forall i | 0 <= i < k :: order[i] in storage && storage[order[i]].prnNumber != Some(number)
    {
      for i := 0 to |order|
        invariant forall j | 0 <= j < i :: order[j] in storage && storage[order[j]].prnNumber != Some(number)
      {
        assert order[i] in order;
        if storage[order[i]].prnNumber == Some(number) {
          return Some(storage[order[i]]);
        }
      }
      prn := None;
    }

    /** The guard loop over every other document. */
    method FindNumberClash(id: PrnId, number: string) returns (clash: bool)
      requires Valid()
      ensures clash <==> NumberTaken(storage, id, number)
    {
      for i := 0 to |order|
        invariant forall j | 0 <= j < i :: order[j] in storage && (order[j] == id || storage[order[j]].prnNumber != Some(number))
      {
        assert order[i] in order;
        var existing := storage[order[i]];
        if existing.id != id && existing.prnNumber == Some(number) {
          return true;
        }
      }
      clash := false;
    }

    method UpdateStatus(params: UpdateStatusParams) returns (outcome: WriteOutcome)
      requires Valid()
      modifies this
      ensures Valid() && order == old(order)
      ensures outcome == UpdateStatusOutcome(old(storage), params)
      ensures storage == AfterWrite(old(storage), outcome)
    {
      if params.id !in storage {
        return Missing;
      }
      var prn := storage[params.id];
      if prn.version != params.version {
        return VersionConflict;
      }
      if IsWatermarkRegression(prn.watermark, params.watermark) {
        return WatermarkRegression;
      }
      if Given(params.prnNumber) {
        var clash := FindNumberClash(params.id, params.prnNumber.value);
        if clash {
          return NumberConflict;
        }
      }
      var status := prn.status.(
        current := params.status,
        currentAt := params.updatedAt,
        history := prn.status.history + [HistoryItem(params.status, params.updatedAt, params.updatedBy)]);
      if params.operation.Some? {
        status := status.(slots := status.slots[params.operation.value.0 := params.operation.value.1]);
      }
      var updated := prn.(version := prn.version + 1, updatedBy := params.updatedBy, updatedAt := params.updatedAt, status := status);
      if Given(params.prnNumber) {
        updated := updated.(prnNumber := params.prnNumber);
      }
      if params.watermark.Some? {
        updated := updated.(watermark := params.watermark);
      }
      storage := storage[params.id := updated];
      outcome := Written(updated);
    }

    method PersistProjection(projection: Prn, expectedVersion: int) returns (outcome: WriteOutcome)
      requires Valid()
      modifies this
      ensures Valid() && order == old(order)
      ensures outcome == PersistOutcome(old(storage), projection, expectedVersion)
      ensures storage == AfterWrite(old(storage), outcome)
    {
      var id := projection.id;
      if id !in storage {
        return Missing;
      }
      var existing := storage[id];
      if existing.version != expectedVersion {
        return VersionConflict;
      }
      if IsWatermarkRegression(existing.watermark, projection.watermark) {
        return WatermarkRegression;
      }
      if Given(projection.prnNumber) {
        var clash := FindNumberClash(id, projection.prnNumber.value);
        if clash {
          return NumberConflict;
        }
      }
      var persisted := projection.(version := expectedVersion + 1);
      storage := storage[id := persisted];
      outcome := Written(persisted);
    }

    method Rollback(params: RollbackParams, options: RollbackOptions) returns (outcome: WriteOutcome)
      requires Valid()
      modifies this
      ensures Valid() && order == old(order)
      ensures outcome == RollbackOutcome(old(storage), params, options)
      ensures storage == AfterWrite(old(storage), outcome)
    {
      if params.id !in storage {
        return Missing;
      }
      var prn := storage[params.id];
      if prn.version != params.expectedVersion {
        return VersionConflict;
      }
      if IsWatermarkRegression(prn.watermark, params.watermark) {
        return WatermarkRegression;
      }
      var updated := prn.(
        version := prn.version + 1,
        updatedBy := params.updatedBy,
        updatedAt := params.updatedAt,
        status := StatusBlock(
          options.revertedStatus,
          params.updatedAt,
          prn.status.slots - options.slotsToUnset,
          prn.status.history + [HistoryItem(options.revertedStatus, params.updatedAt, params.updatedBy)]));
      if options.unsetPrnNumber {
        updated := updated.(prnNumber := None);
      }
      if params.watermark.Some? {
        updated := updated.(watermark := params.watermark);
      }
      storage := storage[params.id := updated];
      outcome := Written(updated);
    }
  }
}

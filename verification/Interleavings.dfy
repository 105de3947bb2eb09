/** Safety over every interleaving of both routes, with crashes at every step boundary. */
module Interleavings {
  import opened Wrappers
  import opened PrnModel
  import opened Ledger
  import opened PrnFold
  import opened PrnStore
  import opened PrnNumber
  import opened PrnProtocol

  // ----- issued documents are numbered, numbers are unique -----

  /** A document in an issued status has a number, a numbered document has its issued slot, and its stamps mirror its history. */
  predicate Numbering(prn: Prn) {
    && Mirrors(prn)
    && (prn.status.current in ISSUED_STATUSES ==> prn.prnNumber.Some?)
    && (prn.prnNumber.Some? ==> prn.prnNumber.value != "" && IssuedSlot in prn.status.slots)
  }

  ghost predicate WriterNumbering(w: Writer) {
    match w
    case Fetched(prn, _) => Numbering(prn) && prn.prnNumber.Some?
    case Holding(prn, req) => Numbering(prn) && CanMove(prn.status.current, req.newStatus)
    case Decided(prn, req, event) =>
      && Numbering(prn) && event.body.PrnEvent?
      && CommandFor(prn.status.current, req.newStatus) == Some(event.body.kind)
    case Appended(_, req, projection, _) =>
      && projection.status.current == req.newStatus && Mirrors(projection)
      && if req.newStatus == AwaitingAcceptance then IssuedSlot in projection.status.slots else Numbering(projection)
    case _ => true
  }

  ghost predicate StoreNumbering(store: Store) {
    && WellKeyed(store)
    && UniqueNumbers(store)
    && (forall id | id in store :: Numbering(store[id]))
  }

  ghost predicate NumberingInv(s: State) {
    && StoreNumbering(s.store)
    && (forall w | w in s.writers :: WriterNumbering(s.writers[w]))
    && (forall i | 0 <= i < |s.notices| :: s.notices[i].issuedAt.Some?)
  }

  lemma CommandReachesItsStatus(from: Status, to: Status)
    requires CommandFor(from, to).Some?
    ensures StatusOfKind(CommandFor(from, to).value) == to
  {}

  /** Every command belongs to a permitted transition. */
  lemma CommandsFollowTheTable(from: Status, to: Status)
    ensures CommandFor(from, to).Some? <==> CanMove(from, to) && !(from == Draft && to == Discarded)
  {
    var ts := TransitionsFrom(from);
    assert |ts| <= 2;
    assert CanMove(from, to) <==> (0 < |ts| && ts[0].status == to) || (1 < |ts| && ts[1].status == to);
  }

  lemma SingleEventFold(prn: Prn, event: LedgerEvent)
    requires event.body.PrnEvent?
    ensures FoldPrnFromTailEvents(prn, [event]) == Success(ApplyPrnEvent(prn, event))
  {
    assert [event][..0] == [];
    assert FoldPrnFromTailEvents(prn, []) == Success(prn);
  }

  /** Appending keeps the promise: an issuance gains its slot, any other transition out of an issued status keeps its number. */
  lemma AppendKeepsNumbering(prn: Prn, req: Request, event: LedgerEvent)
    requires WriterNumbering(Decided(prn, req, event))
    ensures WriterNumbering(ProjectAppended(prn, req, event))
  {
    SingleEventFold(prn, event);
    CommandReachesItsStatus(prn.status.current, req.newStatus);
  }

  lemma CatchUpKeepsNumbering(prn: Prn, req: Request, events: Events)
    requires WriterNumbering(Fetched(prn, req))
    ensures WriterNumbering(Begin(ProjectFromTail(prn, events), req, Some(Producer)))
  {
    FoldFrame(prn, TailOf(prn, events));
    FoldKeepsSlots(prn, TailOf(prn, events));
    if TailOf(prn, events) != [] {
      FoldMirrorsLastEvent(prn, TailOf(prn, events));
    }
  }

  lemma PersistKeepsStoreNumbering(store: Store, attempted: Prn, expectedVersion: int)
    requires StoreNumbering(store) && Numbering(attempted)
    ensures StoreNumbering(AfterWrite(store, PersistOutcome(store, attempted, expectedVersion)))
  {
    PersistKeepsNumbersUnique(store, attempted, expectedVersion);
  }

  lemma DiscardKeepsStoreNumbering(store: Store, prn: Prn, req: Request)
    requires StoreNumbering(store) && IsDiscard(prn, req)
    ensures StoreNumbering(AfterWrite(store, UpdateStatusOutcome(store, DiscardParams(prn, req))))
  {
    var outcome := UpdateStatusOutcome(store, DiscardParams(prn, req));
    if outcome.Written? {
      var stored := store[prn.id];
      assert outcome.prn.prnNumber == stored.prnNumber && outcome.prn.status.slots == stored.status.slots;
      UpdateStatusKeepsNumbersUnique(store, DiscardParams(prn, req));
    }
  }

  lemma AttemptedNumbering(w: Writer, regulator: Regulator, draw: nat)
    requires WriterNumbering(w) && w.Appended? && w.attempts < MAX_ATTEMPTS && draw < RANDOM_SUFFIX_RANGE
    ensures Numbering(Attempted(w, regulator, draw))
    ensures Attempted(w, regulator, draw).status == w.projection.status
  {}

  /** A step that sets at most one writer, and adds at most one sound notice, keeps the invariant. */
  lemma NumberingInvStep(s: State, s': State, w: WriterId)
    requires NumberingInv(s) && StoreNumbering(s'.store)
    requires forall v | v in s'.writers && v != w :: v in s.writers && s'.writers[v] == s.writers[v]
    requires w in s'.writers ==> WriterNumbering(s'.writers[w])
    requires s'.notices == s.notices || (exists n: Notice :: s'.notices == s.notices + [n] && n.issuedAt.Some?)
    ensures NumberingInv(s')
  {}

  /** What a persist step leaves of the writer, the store and the notices, the persisted document kept abstract. */
  lemma AfterPersistNumbering(s: State, w: WriterId, regulator: Regulator, draw: nat, attempted: Prn)
    requires Enabled(s, Persist(w, regulator, draw)) && attempted == Attempted(s.writers[w], regulator, draw)
    requires WriterNumbering(s.writers[w]) && Numbering(attempted) && attempted.status == s.writers[w].projection.status
    ensures var s' := AfterPersist(s, w, regulator, draw);
      && s'.store == AfterWrite(s.store, PersistOutcome(s.store, attempted, s.writers[w].prn.version))
      && w in s'.writers && s'.writers == s.writers[w := s'.writers[w]] && WriterNumbering(s'.writers[w])
      && (s'.notices == s.notices || (exists n: Notice :: s'.notices == s.notices + [n] && n.issuedAt.Some?))
  {
    var writer, s' := s.writers[w], AfterPersist(s, w, regulator, draw);
    var outcome := PersistOutcome(s.store, attempted, writer.prn.version);
    if outcome.Written? {
      var notices := NoticesFor(writer.req.newStatus, outcome.prn);
      assert s'.notices == s.notices + notices;
      if notices != [] {
        assert notices == [notices[0]] && notices[0].issuedAt.Some?;
      }
    }
  }

  lemma {:induction false} PersistKeepsNumbering(s: State, w: WriterId, regulator: Regulator, draw: nat)
    requires NumberingInv(s) && Enabled(s, Persist(w, regulator, draw))
    ensures NumberingInv(AfterPersist(s, w, regulator, draw))
  {
    var writer := s.writers[w];
    assert WriterNumbering(writer);
    var attempted := Attempted(writer, regulator, draw);
    AttemptedNumbering(writer, regulator, draw);
    PersistKeepsStoreNumbering(s.store, attempted, writer.prn.version);
    AfterPersistNumbering(s, w, regulator, draw, attempted);
    NumberingInvStep(s, AfterPersist(s, w, regulator, draw), w);
  }

  lemma SetWriterKeepsNumbering(s: State, w: WriterId, writer: Writer)
    requires NumberingInv(s) && WriterNumbering(writer)
    ensures NumberingInv(With(s, w, writer))
  {}

  lemma AppendStepKeepsNumbering(s: State, w: WriterId)
    requires NumberingInv(s) && Enabled(s, Append(w))
    ensures NumberingInv(AfterAppend(s, w))
  {
    var Decided(prn, req, event) := s.writers[w];
    assert WriterNumbering(s.writers[w]);
    AppendKeepsNumbering(prn, req, event);
    NumberingInvStep(s, AfterAppend(s, w), w);
  }

  lemma AfterDiscardShape(s: State, w: WriterId)
    requires Enabled(s, Discard(w))
    ensures var s' := AfterDiscard(s, w);
      && s'.store == AfterWrite(s.store, UpdateStatusOutcome(s.store, DiscardParams(s.writers[w].prn, s.writers[w].req)))
      && w in s'.writers && s'.writers == s.writers[w := s'.writers[w]] && s'.notices == s.notices
      && (s'.writers[w].Finished? || s'.writers[w].Missed?)
      && s'.created == s.created && s'.drafts == s.drafts && s'.ledgers == s.ledgers
  {}

  lemma DiscardStepKeepsNumbering(s: State, w: WriterId)
    requires NumberingInv(s) && Enabled(s, Discard(w))
    ensures NumberingInv(AfterDiscard(s, w))
  {
    AfterDiscardShape(s, w);
    DiscardKeepsStoreNumbering(s.store, s.writers[w].prn, s.writers[w].req);
    NumberingInvStep(s, AfterDiscard(s, w), w);
  }

  lemma CreateKeepsNumbering(s: State, prn: Prn)
    requires NumberingInv(s) && Enabled(s, Create(prn))
    ensures NumberingInv(AfterCreate(s, prn))
  {
    NumberingInvStep(s, AfterCreate(s, prn), 0);
  }

  lemma {:induction false} StepKeepsNumbering(s: State, a: Action)
    requires NumberingInv(s) && Enabled(s, a)
    ensures NumberingInv(Next(s, a))
  {
    match a {
      case Create(prn) => CreateKeepsNumbering(s, prn);
      case ReadStored(w, id, req) =>
        SetWriterKeepsNumbering(s, w, Begin(s.store[id], req, InternalActor(s.store[id].status.current)));
      case FetchByNumber(w, id, req) =>
        SetWriterKeepsNumbering(s, w, Fetched(s.store[id], req.(ledger := s.store[id].ledger)));
      case CatchUp(w) =>
        assert WriterNumbering(s.writers[w]);
        var Fetched(prn, req) := s.writers[w];
        CatchUpKeepsNumbering(prn, req, EventsIn(s.ledgers, prn.ledger));
        SetWriterKeepsNumbering(s, w, Begin(ProjectFromTail(prn, EventsIn(s.ledgers, prn.ledger)), req, Some(Producer)));
      case DecideEvent(w, at, canIssue) =>
        assert WriterNumbering(s.writers[w]);
        var Holding(prn, req) := s.writers[w];
        SetWriterKeepsNumbering(s, w, DecideFor(prn, req, EventsIn(s.ledgers, req.ledger), at, canIssue));
      case Append(w) => AppendStepKeepsNumbering(s, w);
      case Persist(w, regulator, draw) => PersistKeepsNumbering(s, w, regulator, draw);
      case Diagnose(w) =>
        var Missed(id, expected) := s.writers[w];
        SetWriterKeepsNumbering(s, w, Finished(Diagnosis(ResolveMissedUpdate(s.store, id, expected))));
      case Discard(w) => DiscardStepKeepsNumbering(s, w);
      case SubmitSummaryLog(ledger, id, total, at, user) =>
        assert NumberingInv(AfterSubmit(s, ledger, DecideSummaryLog(EventsIn(s.ledgers, ledger), id, total, at, user)));
      case Crash(w) =>
        assert NumberingInv(s.(writers := s.writers - {w}));
    }
  }

  lemma {:induction false} RunKeepsNumbering(actions: seq<Action>, guard: (State, Action) -> bool)
    requires Exec(actions, guard).Some?
    ensures NumberingInv(Exec(actions, guard).value)
  {
    if actions != [] {
      var front := actions[..|actions| - 1];
      RunKeepsNumbering(front, guard);
      StepKeepsNumbering(Exec(front, guard).value, actions[|actions| - 1]);
    }
  }

  /**
   * In every interleaving, fresh appends or not and whichever registration the requests name: a stored document
   * in an issued status has a number and an issued slot, no two documents share a number, every stored document's
   * status, timestamps and updater mirror its last history entry, and every cancellation notice carries the issue date.
   */
  lemma {:induction false} IssuedDocumentsAreNumbered(actions: seq<Action>)
    requires Exec(actions, Anything).Some?
    ensures var s := Exec(actions, Anything).value;
      && (forall id | id in s.store && s.store[id].status.current in ISSUED_STATUSES ::
            s.store[id].prnNumber.Some? && IssuedSlot in s.store[id].status.slots)
      && (forall a, b | a in s.store && b in s.store && a != b && s.store[a].prnNumber.Some? ::
            s.store[a].prnNumber != s.store[b].prnNumber)
      && (forall id | id in s.store :: Mirrors(s.store[id]))
      && (forall i | 0 <= i < |s.notices| :: s.notices[i].issuedAt.Some?)
  {
    RunKeepsNumbering(actions, Anything);
  }

  // ----- held watermarks against stored ones, in every interleaving -----

  ghost predicate LedgersNumbered(ledgers: Ledgers) {
    forall l | l in ledgers :: Numbered(ledgers[l])
  }

  lemma CatchUpAdvances(prn: Prn, events: Events)
    requires Numbered(events)
    ensures var p := ProjectFromTail(prn, events);
      && p == prn.(watermark := p.watermark, status := p.status, updatedAt := p.updatedAt, updatedBy := p.updatedBy)
      && Reach(prn.watermark) <= Reach(p.watermark) <= Max(Reach(prn.watermark), |events|)
  {
    var tail := TailOf(prn, events);
    FoldFrame(prn, tail);
    EventsAfterAscending(events, prn.id, Reach(prn.watermark));
    if tail != [] {
      FoldMirrorsLastEvent(prn, tail);
      assert tail == EventsAfter(events, prn.id, Reach(prn.watermark));
      assert tail[|tail| - 1].number <= |events|;
    }
  }

  function Max(a: nat, b: nat): nat {
    if a < b then b else a
  }

  lemma NumberedSnoc(ledgers: Ledgers, l: LedgerId, event: LedgerEvent)
    requires LedgersNumbered(ledgers)
    requires event.number == Head(EventsIn(ledgers, l)) + 1
    ensures LedgersNumbered(ledgers[l := EventsIn(ledgers, l) + [event]])
    ensures event.number == |EventsIn(ledgers, l)| + 1
  {
    HeadIsLength(EventsIn(ledgers, l));
  }

  /** A held watermark against the stored one at the same version: equal, or ahead of it and behind the slot. */
  ghost predicate HeldSlot(store: Store, prn: Prn, slot: nat) {
    && prn.id in store
    && prn.version <= store[prn.id].version
    && (prn.version == store[prn.id].version ==>
          || Reach(store[prn.id].watermark) == Reach(prn.watermark)
          || Reach(store[prn.id].watermark) < Reach(prn.watermark) < slot)
  }

  ghost predicate WriterSlot(store: Store, ledgers: Ledgers, w: Writer) {
    match w
    case Fetched(prn, req) =>
      && prn.id in store && prn.version <= store[prn.id].version && req.ledger == prn.ledger
      && (prn.version == store[prn.id].version ==> Reach(prn.watermark) == Reach(store[prn.id].watermark))
    case Holding(prn, req) => HeldSlot(store, prn, |EventsIn(ledgers, req.ledger)| + 1)
    case Decided(prn, req, event) =>
      && event.body.PrnEvent? && event.number <= |EventsIn(ledgers, req.ledger)| + 1
      && HeldSlot(store, prn, event.number)
    case Appended(prn, _, projection, _) => projection.id == prn.id && HeldSlot(store, prn, Reach(projection.watermark))
    case Missed(id, expected) => id in store && expected <= store[id].version
    case Finished(result) => result != Lost && result != CommandFailed(SequenceError)
  }

  ghost predicate SlotInv(s: State) {
    && WellKeyed(s.store)
    && LedgersNumbered(s.ledgers)
    && (forall w | w in s.writers :: WriterSlot(s.store, s.ledgers, s.writers[w]))
  }

  /** Versions move on whenever a document changes, and ledgers only grow. */
  ghost predicate MovesOn(store: Store, ledgers: Ledgers, store': Store, ledgers': Ledgers) {
    && (forall id | id in store ::
          && id in store'
          && store[id].version <= store'[id].version
          && (store[id].version == store'[id].version ==> store[id] == store'[id]))
    && (forall l :: |EventsIn(ledgers, l)| <= |EventsIn(ledgers', l)|)
  }

  lemma MovingOnKeepsSlot(store: Store, ledgers: Ledgers, store': Store, ledgers': Ledgers, w: Writer)
    requires MovesOn(store, ledgers, store', ledgers') && WriterSlot(store, ledgers, w)
    ensures WriterSlot(store', ledgers', w)
  {}

  lemma SlotInvStep(s: State, s': State, w: WriterId)
    requires SlotInv(s) && MovesOn(s.store, s.ledgers, s'.store, s'.ledgers)
    requires WellKeyed(s'.store) && LedgersNumbered(s'.ledgers)
    requires forall v | v in s'.writers && v != w :: v in s.writers && s'.writers[v] == s.writers[v]
    requires w in s'.writers ==> WriterSlot(s'.store, s'.ledgers, s'.writers[w])
    ensures SlotInv(s')
  {
    forall v | v in s'.writers ensures WriterSlot(s'.store, s'.ledgers, s'.writers[v]) {
      if v != w {
        MovingOnKeepsSlot(s.store, s.ledgers, s'.store, s'.ledgers, s.writers[v]);
      }
    }
  }

  /** The guards on a persist, from what the writer holds: it regresses exactly when its slot is behind the held watermark. */
  lemma PersistBySlot(store: Store, writer: Writer, regulator: Regulator, draw: nat)
    requires writer.Appended? && writer.attempts < MAX_ATTEMPTS && draw < RANDOM_SUFFIX_RANGE
    requires writer.projection.id == writer.prn.id && HeldSlot(store, writer.prn, Reach(writer.projection.watermark))
    ensures var stored := store[writer.prn.id];
      var outcome := PersistOutcome(store, Attempted(writer, regulator, draw), writer.prn.version);
      && (outcome.WatermarkRegression? <==>
            stored.version == writer.prn.version && Reach(writer.projection.watermark) < Reach(writer.prn.watermark))
      && (outcome.VersionConflict? <==> writer.prn.version < stored.version)
      && !outcome.Missing?
      && (outcome.Written? ==> outcome.prn.id == writer.prn.id && outcome.prn.version == stored.version + 1)
  {
    assert Attempted(writer, regulator, draw).watermark == writer.projection.watermark;
  }

  /** What a persist step leaves, its document kept abstract. */
  lemma AfterPersistSlot(s: State, w: WriterId, regulator: Regulator, draw: nat)
    requires Enabled(s, Persist(w, regulator, draw)) && WellKeyed(s.store) && WriterSlot(s.store, s.ledgers, s.writers[w])
    ensures var s' := AfterPersist(s, w, regulator, draw);
      && MovesOn(s.store, s.ledgers, s'.store, s'.ledgers) && WellKeyed(s'.store) && s'.ledgers == s.ledgers
      && w in s'.writers && s'.writers == s.writers[w := s'.writers[w]]
      && WriterSlot(s'.store, s'.ledgers, s'.writers[w])
  {
    PersistBySlot(s.store, s.writers[w], regulator, draw);
  }

  lemma PersistKeepsSlots(s: State, w: WriterId, regulator: Regulator, draw: nat)
    requires SlotInv(s) && Enabled(s, Persist(w, regulator, draw))
    ensures SlotInv(AfterPersist(s, w, regulator, draw))
  {
    assert WriterSlot(s.store, s.ledgers, s.writers[w]);
    AfterPersistSlot(s, w, regulator, draw);
    SlotInvStep(s, AfterPersist(s, w, regulator, draw), w);
  }

  /** A discard carries the held watermark, which is never behind the stored one at the same version. */
  lemma DiscardBySlot(store: Store, prn: Prn, req: Request, slot: nat)
    requires WellKeyed(store) && HeldSlot(store, prn, slot)
    ensures var outcome := UpdateStatusOutcome(store, DiscardParams(prn, req));
      && (outcome.VersionConflict? <==> prn.version < store[prn.id].version)
      && (outcome.Written? || outcome.VersionConflict?)
      && (outcome.Written? ==> outcome.prn.id == prn.id && outcome.prn.version == store[prn.id].version + 1)
  {}

  lemma DiscardKeepsSlots(s: State, w: WriterId)
    requires SlotInv(s) && Enabled(s, Discard(w))
    ensures SlotInv(AfterDiscard(s, w))
  {
    var Holding(prn, req) := s.writers[w];
    assert WriterSlot(s.store, s.ledgers, s.writers[w]);
    DiscardBySlot(s.store, prn, req, |EventsIn(s.ledgers, req.ledger)| + 1);
    AfterDiscardShape(s, w);
    SlotInvStep(s, AfterDiscard(s, w), w);
  }

  lemma AppendedWriterSlot(s: State, w: WriterId)
    requires Enabled(s, Append(w)) && LedgersNumbered(s.ledgers) && WriterSlot(s.store, s.ledgers, s.writers[w])
    ensures var s' := AfterAppend(s, w);
      && s'.store == s.store && LedgersNumbered(s'.ledgers)
      && (forall l :: |EventsIn(s.ledgers, l)| <= |EventsIn(s'.ledgers, l)|)
      && w in s'.writers && s'.writers == s.writers[w := s'.writers[w]]
      && WriterSlot(s'.store, s'.ledgers, s'.writers[w])
  {
    var Decided(prn, req, event) := s.writers[w];
    if AppendEvent(EventsIn(s.ledgers, req.ledger), event).Success? {
      NumberedSnoc(s.ledgers, req.ledger, event);
      SingleEventFold(prn, event);
    } else {
      HeadIsLength(EventsIn(s.ledgers, req.ledger));
    }
  }

  lemma AppendKeepsSlots(s: State, w: WriterId)
    requires SlotInv(s) && Enabled(s, Append(w))
    ensures SlotInv(AfterAppend(s, w))
  {
    assert WriterSlot(s.store, s.ledgers, s.writers[w]);
    AppendedWriterSlot(s, w);
    SlotInvStep(s, AfterAppend(s, w), w);
  }

  lemma CaughtUpSlot(store: Store, ledgers: Ledgers, prn: Prn, req: Request)
    requires LedgersNumbered(ledgers) && WriterSlot(store, ledgers, Fetched(prn, req))
    ensures Begin(ProjectFromTail(prn, EventsIn(ledgers, prn.ledger)), req, Some(Producer)).Holding? ==>
      HeldSlot(store, ProjectFromTail(prn, EventsIn(ledgers, prn.ledger)), |EventsIn(ledgers, prn.ledger)| + 1)
  {
    CatchUpAdvances(prn, EventsIn(ledgers, prn.ledger));
  }

  lemma DecidedSlot(store: Store, ledgers: Ledgers, prn: Prn, req: Request, at: Instant, canIssue: bool)
    requires LedgersNumbered(ledgers) && WriterSlot(store, ledgers, Holding(prn, req))
    ensures WriterSlot(store, ledgers, DecideFor(prn, req, EventsIn(ledgers, req.ledger), at, canIssue))
  {
    HeadIsLength(EventsIn(ledgers, req.ledger));
  }

  /** Reads, decisions and diagnoses set one writer and nothing else. */
  lemma ReadingKeepsSlots(s: State, a: Action)
    requires SlotInv(s) && Enabled(s, a)
    requires a.ReadStored? || a.FetchByNumber? || a.CatchUp? || a.DecideEvent? || a.Diagnose?
    ensures SlotInv(Next(s, a))
  {
    if !a.ReadStored? && !a.FetchByNumber? {
      assert WriterSlot(s.store, s.ledgers, s.writers[a.w]);
    }
    if a.CatchUp? {
      CaughtUpSlot(s.store, s.ledgers, s.writers[a.w].prn, s.writers[a.w].req);
    } else if a.DecideEvent? {
      DecidedSlot(s.store, s.ledgers, s.writers[a.w].prn, s.writers[a.w].req, a.at, a.canIssue);
    }
    var s' := Next(s, a);
    assert s' == With(s, a.w, s'.writers[a.w]);
    SlotInvStep(s, s', a.w);
  }

  lemma CreateKeepsSlots(s: State, prn: Prn)
    requires SlotInv(s) && Enabled(s, Create(prn))
    ensures SlotInv(AfterCreate(s, prn))
  {
    forall w | w in s.writers ensures WriterSlot(AfterCreate(s, prn).store, s.ledgers, s.writers[w]) {
      MovingOnKeepsSlot(s.store, s.ledgers, AfterCreate(s, prn).store, s.ledgers, s.writers[w]);
    }
  }

  lemma SubmitKeepsSlots(s: State, l: LedgerId, e: LedgerEvent)
    requires SlotInv(s) && e.number == Head(EventsIn(s.ledgers, l)) + 1
    ensures SlotInv(AfterSubmit(s, l, e))
  {
    var s' := AfterSubmit(s, l, e);
    NumberedSnoc(s.ledgers, l, e);
    forall w | w in s.writers ensures WriterSlot(s'.store, s'.ledgers, s.writers[w]) {
      MovingOnKeepsSlot(s.store, s.ledgers, s'.store, s'.ledgers, s.writers[w]);
    }
  }

  lemma {:induction false} StepKeepsSlots(s: State, a: Action)
    requires SlotInv(s) && Enabled(s, a)
    ensures SlotInv(Next(s, a))
  {
    match a {
      case Create(prn) => CreateKeepsSlots(s, prn);
      case Append(w) => AppendKeepsSlots(s, w);
      case Persist(w, regulator, draw) => PersistKeepsSlots(s, w, regulator, draw);
      case Discard(w) => DiscardKeepsSlots(s, w);
      case SubmitSummaryLog(l, id, total, at, user) =>
        SubmitKeepsSlots(s, l, DecideSummaryLog(EventsIn(s.ledgers, l), id, total, at, user));
      case Crash(w) => assert SlotInv(s.(writers := s.writers - {w}));
      case _ => ReadingKeepsSlots(s, a);
    }
  }

  lemma {:induction false} RunKeepsSlots(actions: seq<Action>, guard: (State, Action) -> bool)
    requires Exec(actions, guard).Some?
    ensures SlotInv(Exec(actions, guard).value)
  {
    if actions != [] {
      var front := actions[..|actions| - 1];
      RunKeepsSlots(front, guard);
      StepKeepsSlots(Exec(front, guard).value, actions[|actions| - 1]);
    }
  }

  /**
   * In every interleaving, whatever registrations the requests name: a persist meets a watermark regression if and only
   * if the stored version still is the held one and the slot taken in the named ledger is behind the watermark the
   * writer held, which it can compare before it appends. A discard never meets one.
   */
  lemma {:induction false} PersistRegressesIffSlotBehind(actions: seq<Action>, w: WriterId, regulator: Regulator, draw: nat)
    requires Exec(actions, Anything).Some?
    requires Enabled(Exec(actions, Anything).value, Persist(w, regulator, draw))
    ensures var s := Exec(actions, Anything).value;
      var writer := s.writers[w];
      && writer.prn.id in s.store
      && (PersistOutcome(s.store, Attempted(writer, regulator, draw), writer.prn.version).WatermarkRegression? <==>
            && s.store[writer.prn.id].version == writer.prn.version
            && Reach(writer.projection.watermark) < Reach(writer.prn.watermark))
  {
    RunKeepsSlots(actions, Anything);
    var s := Exec(actions, Anything).value;
    assert WriterSlot(s.store, s.ledgers, s.writers[w]);
    PersistBySlot(s.store, s.writers[w], regulator, draw);
  }

  lemma {:induction false} DiscardNeverRegresses(actions: seq<Action>, w: WriterId)
    requires Exec(actions, Anything).Some? && Enabled(Exec(actions, Anything).value, Discard(w))
    ensures var s := Exec(actions, Anything).value;
      var outcome := UpdateStatusOutcome(s.store, DiscardParams(s.writers[w].prn, s.writers[w].req));
      outcome.Written? || outcome.VersionConflict?
  {
    RunKeepsSlots(actions, Anything);
    var s := Exec(actions, Anything).value;
    var Holding(prn, req) := s.writers[w];
    assert WriterSlot(s.store, s.ledgers, s.writers[w]);
    DiscardBySlot(s.store, prn, req, |EventsIn(s.ledgers, req.ledger)| + 1);
  }

  // ----- comparing the slot before appending is enough -----

  /** The check a writer can make: the slot it takes is ahead of the watermark it holds. */
  predicate SlotAhead(s: State, a: Action) {
    a.Append? && a.w in s.writers && s.writers[a.w].Decided?
      && AppendEvent(EventsIn(s.ledgers, s.writers[a.w].req.ledger), s.writers[a.w].event).Success?
    ==> Reach(s.writers[a.w].prn.watermark) < s.writers[a.w].event.number
  }

  ghost predicate WriterAhead(store: Store, w: Writer) {
    match w
    case Appended(prn, _, projection, _) => Reach(prn.watermark) < Reach(projection.watermark)
    case Missed(id, expected) => id in store && expected < store[id].version
    case Finished(result) => result != Regressed
    case _ => true
  }

  ghost predicate AheadInv(s: State) {
    && SlotInv(s)
    && (forall w | w in s.writers :: WriterAhead(s.store, s.writers[w]))
  }

  lemma AheadInvStep(s: State, s': State, w: WriterId)
    requires AheadInv(s) && SlotInv(s') && MovesOn(s.store, s.ledgers, s'.store, s'.ledgers)
    requires forall v | v in s'.writers && v != w :: v in s.writers && s'.writers[v] == s.writers[v]
    requires w in s'.writers ==> WriterAhead(s'.store, s'.writers[w])
    ensures AheadInv(s')
  {
    forall v | v in s'.writers ensures WriterAhead(s'.store, s'.writers[v]) {
      if v != w {
        assert WriterAhead(s.store, s.writers[v]);
      }
    }
  }

  lemma PersistKeepsAhead(s: State, w: WriterId, regulator: Regulator, draw: nat)
    requires AheadInv(s) && Enabled(s, Persist(w, regulator, draw))
    ensures AheadInv(AfterPersist(s, w, regulator, draw))
  {
    assert WriterSlot(s.store, s.ledgers, s.writers[w]) && WriterAhead(s.store, s.writers[w]);
    PersistKeepsSlots(s, w, regulator, draw);
    AfterPersistSlot(s, w, regulator, draw);
    AfterPersistAhead(s, w, regulator, draw);
    AheadInvStep(s, AfterPersist(s, w, regulator, draw), w);
  }

  lemma AfterPersistAhead(s: State, w: WriterId, regulator: Regulator, draw: nat)
    requires Enabled(s, Persist(w, regulator, draw))
    requires WriterSlot(s.store, s.ledgers, s.writers[w]) && WriterAhead(s.store, s.writers[w])
    ensures var s' := AfterPersist(s, w, regulator, draw); w in s'.writers && WriterAhead(s'.store, s'.writers[w])
  {
    PersistBySlot(s.store, s.writers[w], regulator, draw);
  }

  lemma DiscardKeepsAhead(s: State, w: WriterId)
    requires AheadInv(s) && Enabled(s, Discard(w))
    ensures AheadInv(AfterDiscard(s, w))
  {
    var Holding(prn, req) := s.writers[w];
    assert WriterSlot(s.store, s.ledgers, s.writers[w]);
    DiscardBySlot(s.store, prn, req, |EventsIn(s.ledgers, req.ledger)| + 1);
    DiscardKeepsSlots(s, w);
    AfterDiscardShape(s, w);
    AheadInvStep(s, AfterDiscard(s, w), w);
  }

  lemma AppendKeepsAhead(s: State, w: WriterId)
    requires AheadInv(s) && Enabled(s, Append(w)) && SlotAhead(s, Append(w))
    ensures AheadInv(AfterAppend(s, w))
  {
    assert WriterSlot(s.store, s.ledgers, s.writers[w]);
    AppendKeepsSlots(s, w);
    AppendedWriterSlot(s, w);
    SingleEventFold(s.writers[w].prn, s.writers[w].event);
    AheadInvStep(s, AfterAppend(s, w), w);
  }

  /** Every other step leaves stored documents and attended writers alone. */
  lemma OtherStepsKeepAhead(s: State, a: Action)
    requires AheadInv(s) && Enabled(s, a) && !a.Append? && !a.Persist? && !a.Discard?
    ensures AheadInv(Next(s, a))
  {
    StepKeepsSlots(s, a);
    var s' := Next(s, a);
    forall v | v in s'.writers ensures WriterAhead(s'.store, s'.writers[v]) {
      if v in s.writers {
        assert WriterAhead(s.store, s.writers[v]);
      }
    }
  }

  lemma {:induction false} RunStaysAhead(actions: seq<Action>)
    requires Exec(actions, SlotAhead).Some?
    ensures AheadInv(Exec(actions, SlotAhead).value)
  {
    if actions != [] {
      var front, a := actions[..|actions| - 1], actions[|actions| - 1];
      RunStaysAhead(front);
      var s := Exec(front, SlotAhead).value;
      match a {
        case Append(w) => AppendKeepsAhead(s, w);
        case Persist(w, regulator, draw) => PersistKeepsAhead(s, w, regulator, draw);
        case Discard(w) => DiscardKeepsAhead(s, w);
        case _ => OtherStepsKeepAhead(s, a);
      }
    }
  }

  /**
   * With that check alone, and any registrations, no writer ends with a regression, a missing document or a sequence
   * error, and every missed write is diagnosed as a version conflict.
   */
  lemma {:induction false} SlotCheckPreventsRegressions(actions: seq<Action>, w: WriterId)
    requires Exec(actions, SlotAhead).Some?
    ensures var s := Exec(actions, SlotAhead).value;
      && (w in s.writers && s.writers[w].Finished? ==>
            s.writers[w].result !in {Regressed, Lost, CommandFailed(SequenceError)})
      && (w in s.writers && s.writers[w].Missed? ==>
            ResolveMissedUpdate(s.store, s.writers[w].id, s.writers[w].expectedVersion) == VersionConflict)
  {
    RunStaysAhead(actions);
    var s := Exec(actions, SlotAhead).value;
    if w in s.writers {
      assert WriterAhead(s.store, s.writers[w]) && WriterSlot(s.store, s.ledgers, s.writers[w]);
    }
  }

  // ----- requests that name the PRN's own registration pass that check -----

  /** A document's watermark lies within its own ledger, and the document has not changed ledger. */
  ghost predicate Within(store: Store, ledgers: Ledgers, prn: Prn) {
    && prn.id in store && prn.ledger == store[prn.id].ledger
    && Reach(prn.watermark) <= |EventsIn(ledgers, prn.ledger)|
  }

  ghost predicate WriterWithin(store: Store, ledgers: Ledgers, w: Writer) {
    match w
    case Fetched(prn, req) => Within(store, ledgers, prn) && req.ledger == prn.ledger
    case Holding(prn, req) => Within(store, ledgers, prn) && req.ledger == prn.ledger
    case Decided(prn, req, event) =>
      && Within(store, ledgers, prn) && req.ledger == prn.ledger
      && event.body.PrnEvent? && Reach(prn.watermark) < event.number
    case Appended(_, _, projection, _) => Within(store, ledgers, projection)
    case _ => true
  }

  ghost predicate WithinInv(s: State) {
    && WellKeyed(s.store)
    && LedgersNumbered(s.ledgers)
    && (forall id | id in s.store :: Within(s.store, s.ledgers, s.store[id]))
    && (forall w | w in s.writers :: WriterWithin(s.store, s.ledgers, s.writers[w]))
  }

  /** A step that keeps documents in their ledgers, grows ledgers and sets at most one writer. */
  lemma WithinInvStep(s: State, s': State, w: WriterId)
    requires WithinInv(s) && WellKeyed(s'.store) && LedgersNumbered(s'.ledgers)
    requires forall id | id in s.store :: id in s'.store && s'.store[id].ledger == s.store[id].ledger
    requires forall l :: |EventsIn(s.ledgers, l)| <= |EventsIn(s'.ledgers, l)|
    requires forall id | id in s'.store :: Within(s'.store, s'.ledgers, s'.store[id])
    requires forall v | v in s'.writers && v != w :: v in s.writers && s'.writers[v] == s.writers[v]
    requires w in s'.writers ==> WriterWithin(s'.store, s'.ledgers, s'.writers[w])
    ensures WithinInv(s')
  {
    forall v | v in s'.writers ensures WriterWithin(s'.store, s'.ledgers, s'.writers[v]) {
      if v != w {
        assert WriterWithin(s.store, s.ledgers, s.writers[v]);
      }
    }
  }

  /** Reads, decisions and diagnoses set one writer and nothing else. */
  lemma ReadingKeepsWithin(s: State, a: Action)
    requires WithinInv(s) && Enabled(s, a) && OwnRegistration(s, a)
    requires a.ReadStored? || a.FetchByNumber? || a.CatchUp? || a.DecideEvent? || a.Diagnose?
    ensures WithinInv(Next(s, a))
  {
    if a.CatchUp? || a.DecideEvent? {
      assert WriterWithin(s.store, s.ledgers, s.writers[a.w]);
      var prn := s.writers[a.w].prn;
      CatchUpAdvances(prn, EventsIn(s.ledgers, prn.ledger));
      HeadIsLength(EventsIn(s.ledgers, prn.ledger));
    }
    var s' := Next(s, a);
    assert s' == With(s, a.w, s'.writers[a.w]);
    WithinInvStep(s, s', a.w);
  }

  lemma AppendKeepsWithin(s: State, w: WriterId)
    requires WithinInv(s) && Enabled(s, Append(w))
    ensures WithinInv(AfterAppend(s, w))
  {
    assert WriterWithin(s.store, s.ledgers, s.writers[w]);
    var Decided(prn, req, event) := s.writers[w];
    if AppendEvent(EventsIn(s.ledgers, req.ledger), event).Success? {
      NumberedSnoc(s.ledgers, req.ledger, event);
      SingleEventFold(prn, event);
    }
    WithinInvStep(s, AfterAppend(s, w), w);
  }

  /** What a persist step leaves, the document it tries to persist kept abstract. */
  lemma AfterPersistShape(s: State, w: WriterId, regulator: Regulator, draw: nat, attempted: Prn)
    requires Enabled(s, Persist(w, regulator, draw)) && attempted == Attempted(s.writers[w], regulator, draw)
    ensures var s', writer := AfterPersist(s, w, regulator, draw), s.writers[w];
      && s'.ledgers == s.ledgers && s'.store == AfterWrite(s.store, PersistOutcome(s.store, attempted, writer.prn.version))
      && w in s'.writers && s'.writers == s.writers[w := s'.writers[w]]
      && (s'.writers[w].Finished? || s'.writers[w].Missed? || s'.writers[w] == writer.(attempts := writer.attempts + 1))
  {}

  lemma PersistWithin(store: Store, ledgers: Ledgers, writer: Writer, regulator: Regulator, draw: nat)
    requires writer.Appended? && writer.attempts < MAX_ATTEMPTS && draw < RANDOM_SUFFIX_RANGE
    requires WellKeyed(store) && Within(store, ledgers, writer.projection)
    ensures var outcome := PersistOutcome(store, Attempted(writer, regulator, draw), writer.prn.version);
      outcome.Written? ==> Within(store, ledgers, outcome.prn)
  {
    assert Attempted(writer, regulator, draw).(prnNumber := None) == writer.projection.(prnNumber := None);
  }

  lemma PersistKeepsWithin(s: State, w: WriterId, regulator: Regulator, draw: nat)
    requires WithinInv(s) && Enabled(s, Persist(w, regulator, draw))
    ensures WithinInv(AfterPersist(s, w, regulator, draw))
  {
    assert WriterWithin(s.store, s.ledgers, s.writers[w]);
    PersistWithin(s.store, s.ledgers, s.writers[w], regulator, draw);
    AfterPersistShape(s, w, regulator, draw, Attempted(s.writers[w], regulator, draw));
    WithinInvStep(s, AfterPersist(s, w, regulator, draw), w);
  }

  lemma DiscardWithin(store: Store, ledgers: Ledgers, prn: Prn, req: Request)
    requires WellKeyed(store) && Within(store, ledgers, prn)
    requires forall id | id in store :: Within(store, ledgers, store[id])
    ensures var store' := AfterWrite(store, UpdateStatusOutcome(store, DiscardParams(prn, req)));
      && WellKeyed(store') && (forall id | id in store' :: Within(store', ledgers, store'[id]))
      && (forall id | id in store :: id in store' && store'[id].ledger == store[id].ledger)
  {}

  lemma DiscardKeepsWithin(s: State, w: WriterId)
    requires WithinInv(s) && Enabled(s, Discard(w))
    ensures WithinInv(AfterDiscard(s, w))
  {
    assert WriterWithin(s.store, s.ledgers, s.writers[w]);
    AfterDiscardShape(s, w);
    DiscardWithin(s.store, s.ledgers, s.writers[w].prn, s.writers[w].req);
    WithinInvStep(s, AfterDiscard(s, w), w);
  }

  /** Creating a PRN and submitting a summary log set no writer. */
  lemma OtherStepsKeepWithin(s: State, a: Action)
    requires WithinInv(s) && Enabled(s, a) && (a.Create? || a.SubmitSummaryLog? || a.Crash?)
    ensures WithinInv(Next(s, a))
  {
    if a.SubmitSummaryLog? {
      var e := DecideSummaryLog(EventsIn(s.ledgers, a.ledger), a.summaryLogId, a.creditTotal, a.at, a.user);
      NumberedSnoc(s.ledgers, a.ledger, e);
    }
    WithinInvStep(s, Next(s, a), if a.Crash? then a.w else 0);
  }

  lemma {:induction false} StepKeepsWithin(s: State, a: Action)
    requires WithinInv(s) && Enabled(s, a) && OwnRegistration(s, a)
    ensures WithinInv(Next(s, a)) && SlotAhead(s, a)
  {
    match a {
      case Append(w) =>
        assert WriterWithin(s.store, s.ledgers, s.writers[w]);
        AppendKeepsWithin(s, w);
      case Persist(w, regulator, draw) => PersistKeepsWithin(s, w, regulator, draw);
      case Discard(w) => DiscardKeepsWithin(s, w);
      case Create(_) => OtherStepsKeepWithin(s, a);
      case SubmitSummaryLog(_, _, _, _, _) => OtherStepsKeepWithin(s, a);
      case Crash(_) => OtherStepsKeepWithin(s, a);
      case _ => ReadingKeepsWithin(s, a);
    }
  }

  lemma {:induction false} OwnRegistrationStaysAhead(actions: seq<Action>)
    requires Exec(actions, OwnRegistration).Some?
    ensures WithinInv(Exec(actions, OwnRegistration).value)
    ensures Exec(actions, SlotAhead) == Exec(actions, OwnRegistration)
  {
    if actions != [] {
      var front := actions[..|actions| - 1];
      OwnRegistrationStaysAhead(front);
      StepKeepsWithin(Exec(front, OwnRegistration).value, actions[|actions| - 1]);
    }
  }

  /**
   * In every interleaving whose requests name the PRN's own registration, no writer ever ends with a watermark
   * regression, a missing document or a ledger sequence error: every missed write, diagnosed by a later and
   * separate read, is reported as a version conflict.
   */
  lemma {:induction false} NeverAWatermarkRegression(actions: seq<Action>, w: WriterId)
    requires Exec(actions, OwnRegistration).Some?
    ensures var s := Exec(actions, OwnRegistration).value;
      && (w in s.writers && s.writers[w].Finished? ==>
            s.writers[w].result !in {Regressed, Lost, CommandFailed(SequenceError)})
      && (w in s.writers && s.writers[w].Missed? ==>
            ResolveMissedUpdate(s.store, s.writers[w].id, s.writers[w].expectedVersion) == VersionConflict)
  {
    OwnRegistrationStaysAhead(actions);
    SlotCheckPreventsRegressions(actions, w);
  }

  /**
   * And a persist whose version still is the stored one strictly advances the watermark and is written or meets a taken
   * number; any other meets a newer version.
   */
  lemma {:induction false} EveryPersistAdvancesOrConflicts(actions: seq<Action>, w: WriterId, regulator: Regulator, draw: nat)
    requires Exec(actions, OwnRegistration).Some?
    requires Enabled(Exec(actions, OwnRegistration).value, Persist(w, regulator, draw))
    ensures var s := Exec(actions, OwnRegistration).value;
      var writer := s.writers[w];
      && writer.projection.id in s.store
      && var stored := s.store[writer.projection.id];
        var outcome := PersistOutcome(s.store, Attempted(writer, regulator, draw), writer.prn.version);
        if stored.version == writer.prn.version
        then Reach(stored.watermark) < Reach(writer.projection.watermark) && (outcome.Written? || outcome.NumberConflict?)
        else writer.prn.version < stored.version && outcome.VersionConflict?
  {
    OwnRegistrationStaysAhead(actions);
    RunStaysAhead(actions);
    var s := Exec(actions, OwnRegistration).value;
    assert WriterSlot(s.store, s.ledgers, s.writers[w]) && WriterAhead(s.store, s.writers[w]);
    PersistBySlot(s.store, s.writers[w], regulator, draw);
  }
}

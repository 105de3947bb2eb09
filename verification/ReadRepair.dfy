/**
 * How far read-side catch-up repairs a crash between append and persist. Projected reads recover at once, but over
 * fresh runs no write ever does: the internal route holds the stored document, and the external route's producer can
 * only move a document that is not behind.
 */
module ReadRepair {
  import opened Wrappers
  import opened PrnModel
  import opened Ledger
  import opened PrnFold
  import opened PrnStore
  import opened PrnNumber
  import opened PrnProtocol
  import opened Interleavings
  import opened FreshRuns

  // ----- where the document a writer holds came from -----

  /** No newer than the store, and never numbered while the store is not. */
  ghost predicate Sighted(store: Store, prn: Prn) {
    && prn.id in store
    && prn.version <= store[prn.id].version
    && (prn.version == store[prn.id].version ==> prn.prnNumber == store[prn.id].prnNumber)
    && (prn.prnNumber.Some? ==> store[prn.id].prnNumber.Some?)
  }

  /** Either no further on than the store, or a numbered document caught up to awaiting acceptance. */
  ghost predicate HeldDocument(store: Store, prn: Prn) {
    && Sighted(store, prn)
    && (Reach(prn.watermark) <= Reach(store[prn.id].watermark)
        || (prn.prnNumber.Some? && prn.status.current == AwaitingAcceptance))
  }

  ghost predicate WriterOrigin(store: Store, w: Writer) {
    match w
    case Fetched(prn, _) => Sighted(store, prn) && prn.prnNumber.Some?
    case Holding(prn, _) => HeldDocument(store, prn)
    case Decided(prn, _, _) => HeldDocument(store, prn)
    case Appended(prn, _, projection, _) =>
      Sighted(store, prn) && projection.id == prn.id && projection.prnNumber == prn.prnNumber
    case _ => true
  }

  ghost predicate OriginInv(store: Store, writers: map<WriterId, Writer>) {
    && WellKeyed(store)
    && (forall w | w in writers :: WriterOrigin(store, writers[w]))
  }

  /** A store step that forgets no number, moves versions on and never moves watermarks back. */
  ghost predicate Advances(store: Store, store': Store) {
    && WellKeyed(store')
    && (forall id | id in store ::
          && id in store'
          && store[id].version <= store'[id].version
          && (store[id].version == store'[id].version ==> store'[id] == store[id])
          && (store[id].prnNumber.Some? ==> store'[id].prnNumber.Some?)
          && Reach(store[id].watermark) <= Reach(store'[id].watermark))
  }

  lemma AdvancesKeepsOrigins(store: Store, store': Store, writers: map<WriterId, Writer>)
    requires OriginInv(store, writers) && Advances(store, store')
    ensures OriginInv(store', writers)
  {
    forall w | w in writers ensures WriterOrigin(store', writers[w]) {
      assert WriterOrigin(store, writers[w]);
    }
  }

  lemma PersistAdvances(store: Store, writer: Writer, regulator: Regulator, draw: nat)
    requires WellKeyed(store) && WriterOrigin(store, writer)
    requires writer.Appended? && writer.attempts < MAX_ATTEMPTS && draw < RANDOM_SUFFIX_RANGE
    ensures Advances(store, AfterWrite(store, PersistOutcome(store, Attempted(writer, regulator, draw), writer.prn.version)))
  {
    var attempted := Attempted(writer, regulator, draw);
    assert attempted.watermark == writer.projection.watermark;
  }

  /** The producer may move a document on only from awaiting acceptance. */
  lemma CaughtUpIsHeld(store: Store, prn: Prn, req: Request, events: Events)
    requires WriterOrigin(store, Fetched(prn, req))
    ensures Begin(ProjectFromTail(prn, events), req, Some(Producer)).Holding? ==> HeldDocument(store, ProjectFromTail(prn, events))
  {
    FoldFrame(prn, TailOf(prn, events));
    var p := ProjectFromTail(prn, events);
    if ValidateTransition(p.status.current, req.newStatus, Some(Producer)).Success? {
      assert ActorMayMove(p.status.current, req.newStatus, Some(Producer));
    }
  }

  lemma SetWriterKeepsOrigins(store: Store, writers: map<WriterId, Writer>, w: WriterId, writer: Writer)
    requires OriginInv(store, writers) && WriterOrigin(store, writer)
    ensures OriginInv(store, writers[w := writer])
  {}

  lemma NumberConflictOrigin(store: Store, writer: Writer)
    requires writer.Appended? && WriterOrigin(store, writer)
    ensures WriterOrigin(store, AfterNumberConflict(writer))
  {}

  lemma AfterPersistWriterOrigin(s: State, w: WriterId, regulator: Regulator, draw: nat)
    requires Enabled(s, Persist(w, regulator, draw)) && WriterOrigin(s.store, s.writers[w])
    ensures var s' := AfterPersist(s, w, regulator, draw);
      && s'.store == AfterWrite(s.store, PersistOutcome(s.store, Attempted(s.writers[w], regulator, draw), s.writers[w].prn.version))
      && w in s'.writers && s'.writers == s.writers[w := s'.writers[w]]
      && WriterOrigin(s'.store, s'.writers[w])
  {
    NumberConflictOrigin(s.store, s.writers[w]);
  }

  lemma {:induction false} PersistKeepsOrigins(s: State, w: WriterId, regulator: Regulator, draw: nat)
    requires OriginInv(s.store, s.writers) && Enabled(s, Persist(w, regulator, draw))
    ensures var s' := AfterPersist(s, w, regulator, draw); OriginInv(s'.store, s'.writers)
  {
    var s' := AfterPersist(s, w, regulator, draw);
    assert WriterOrigin(s.store, s.writers[w]);
    AfterPersistWriterOrigin(s, w, regulator, draw);
    PersistAdvances(s.store, s.writers[w], regulator, draw);
    AdvancesKeepsOrigins(s.store, s'.store, s.writers);
    SetWriterKeepsOrigins(s'.store, s.writers, w, s'.writers[w]);
  }

  lemma DiscardKeepsOrigins(s: State, w: WriterId)
    requires OriginInv(s.store, s.writers) && Enabled(s, Discard(w))
    ensures var s' := AfterDiscard(s, w); OriginInv(s'.store, s'.writers)
  {
    var s' := AfterDiscard(s, w);
    AdvancesKeepsOrigins(s.store, s'.store, s.writers);
    SetWriterKeepsOrigins(s'.store, s.writers, w, s'.writers[w]);
  }

  lemma AppendKeepsOrigins(s: State, w: WriterId)
    requires OriginInv(s.store, s.writers) && Enabled(s, Append(w))
    ensures var s' := AfterAppend(s, w); OriginInv(s'.store, s'.writers)
  {
    var Decided(prn, req, event) := s.writers[w];
    assert WriterOrigin(s.store, s.writers[w]);
    FoldThrowsIffUnmappable(prn, [event]);
    if event.body.PrnEvent? {
      SingleEventFold(prn, event);
    }
    SetWriterKeepsOrigins(s.store, s.writers, w, AfterAppend(s, w).writers[w]);
  }

  /** Reads, decisions and diagnoses set one writer and nothing else. */
  lemma ReadingKeepsOrigins(s: State, a: Action)
    requires OriginInv(s.store, s.writers) && Enabled(s, a)
    requires a.ReadStored? || a.FetchByNumber? || a.CatchUp? || a.DecideEvent? || a.Diagnose?
    ensures var s' := Next(s, a); OriginInv(s'.store, s'.writers)
  {
    var s' := Next(s, a);
    if a.CatchUp? {
      assert WriterOrigin(s.store, s.writers[a.w]);
      var Fetched(prn, req) := s.writers[a.w];
      CaughtUpIsHeld(s.store, prn, req, EventsIn(s.ledgers, prn.ledger));
    } else if a.DecideEvent? {
      assert WriterOrigin(s.store, s.writers[a.w]);
    }
    assert s' == With(s, a.w, s'.writers[a.w]);
    SetWriterKeepsOrigins(s.store, s.writers, a.w, s'.writers[a.w]);
  }

  lemma {:induction false} StepKeepsOrigins(s: State, a: Action)
    requires OriginInv(s.store, s.writers) && Enabled(s, a)
    ensures var s' := Next(s, a); OriginInv(s'.store, s'.writers)
  {
    match a {
      case Create(prn) => AdvancesKeepsOrigins(s.store, s.store[prn.id := prn], s.writers);
      case Append(w) => AppendKeepsOrigins(s, w);
      case Persist(w, regulator, draw) => PersistKeepsOrigins(s, w, regulator, draw);
      case Discard(w) => DiscardKeepsOrigins(s, w);
      case SubmitSummaryLog(_, _, _, _, _) =>
      case Crash(_) =>
      case _ => ReadingKeepsOrigins(s, a);
    }
  }

  // ----- a document behind its ledger -----

  /** The ledger has events of this PRN that its stored document has not absorbed. */
  predicate Lagging(s: State, id: PrnId)
    requires id in s.store
  {
    TailOf(s.store[id], OwnEvents(s, s.store[id])) != []
  }

  /** The writer has appended an event of this PRN to a document of the stored version, and not written it yet. */
  predicate Attends(store: Store, writer: Writer, id: PrnId)
    requires id in store
  {
    writer.Appended? && writer.projection.id == id && writer.prn.version == store[id].version
  }

  /** No writer that could still pass the version guard is on its way to persist a projection of this PRN. */
  predicate Unattended(s: State, id: PrnId)
    requires id in s.store
  {
    forall w | w in s.writers :: !Attends(s.store, s.writers[w], id)
  }

  lemma {:induction false} IssuedSlotMeansIssued(draft: Prn, events: Events)
    requires AllPrnEvents(events) && IssuedSlot !in draft.status.slots
    ensures IssuedSlot in Fold(draft, events).status.slots ==>
      exists i | 0 <= i < |events| :: StatusOfKind(events[i].body.kind) == AwaitingAcceptance
  {
    if events != [] {
      var front := events[..|events| - 1];
      IssuedSlotMeansIssued(draft, front);
      if i :| 0 <= i < |front| && StatusOfKind(front[i].body.kind) == AwaitingAcceptance {
        assert events[i] == front[i];
      }
    }
  }

  /** A numbered document behind its ledger is never shown awaiting acceptance: it was issued before it fell behind. */
  lemma NumberedAndBehindIsPastIssue(draft: Prn, stored: Prn, events: Events)
    requires Numbered(events) && DraftSound(draft, stored, events) && stored.status.current != Discarded
    requires IssuedSlot in stored.status.slots
    requires EventsAfter(events, draft.id, Reach(stored.watermark)) != []
    ensures Fold(draft, EventsOf(events, draft.id)).status.current != AwaitingAcceptance
  {
    var head, tail := EventsUpTo(events, draft.id, Reach(stored.watermark)), EventsAfter(events, draft.id, Reach(stored.watermark));
    assert Content(stored).status == stored.status;
    EventsSplit(events, draft.id, Reach(stored.watermark));
    IssuedSlotMeansIssued(draft, head);
    var i :| 0 <= i < |head| && StatusOfKind(head[i].body.kind) == AwaitingAcceptance;
    FoldHistory(draft, head + tail);
    FoldMirrorsLastEvent(draft, head + tail);
    var h := Fold(draft, head + tail).status.history;
    assert (head + tail)[i] == head[i];
    assert h[1 + i].status == AwaitingAcceptance && 1 + i < |h| - 1;
    LegalHistoryNeverRepeats(h);
  }

  /** No writer can make a fresh move on a document that is behind. */
  lemma NoFreshMoveWhenBehind(draft: Prn, stored: Prn, events: Events, store: Store, prn: Prn)
    requires Numbered(events) && DraftSound(draft, stored, events) && Numbering(stored)
    requires EventsAfter(events, draft.id, Reach(stored.watermark)) != []
    requires prn.id in store && store[prn.id] == stored && HeldDocument(store, prn)
    ensures Content(prn) != Content(ProjectFromTail(stored, events))
  {
    var all, tail := EventsOf(events, draft.id), EventsAfter(events, draft.id, Reach(stored.watermark));
    EventsSplit(events, draft.id, Reach(stored.watermark));
    EventsAfterAscending(events, draft.id, Reach(stored.watermark));
    assert all[|all| - 1] == tail[|tail| - 1];
    FoldMirrorsLastEvent(draft, all);
    SoundDraftReads(draft, stored, events);
    assert Content(prn).watermark == prn.watermark && Content(prn).status == prn.status;
    if prn.status.current == AwaitingAcceptance && prn.prnNumber.Some? {
      NumberedAndBehindIsPastIssue(draft, stored, events);
    }
  }

  /** A PRN whose document is behind, with nobody left to persist it. */
  ghost predicate Stranded(s: State, id: PrnId, doc: Prn, es: Events) {
    && id in s.store && s.store[id] == doc
    && EventsOf(OwnEvents(s, doc), id) == es
    && Lagging(s, id) && Unattended(s, id)
  }

  ghost predicate Known(s: State) {
    AgreementInv(s) && NumberingInv(s) && OriginInv(s.store, s.writers)
  }

  lemma StrandedRefusesMove(s: State, id: PrnId, doc: Prn, es: Events, prn: Prn)
    requires DocsAgree(s.drafts, s.store, s.ledgers) && StoreNumbering(s.store)
    requires Stranded(s, id, doc, es) && prn.id == id && HeldDocument(s.store, prn)
    ensures !HoldsProjected(s, prn)
  {
    if HoldsProjected(s, prn) {
      var draft, stored := s.drafts[id], s.store[id];
      assert DraftSound(draft, stored, EventsIn(s.ledgers, draft.ledger));
      DocStaysInLedger(draft, stored, EventsIn(s.ledgers, draft.ledger));
      NoFreshMoveWhenBehind(draft, stored, EventsIn(s.ledgers, draft.ledger), s.store, prn);
    }
  }

  /** An event about another PRN, appended by a writer that then projects that other PRN. */
  lemma GrowthKeepsStranded(s: State, s': State, w: WriterId, l: LedgerId, e: LedgerEvent, id: PrnId, doc: Prn, es: Events)
    requires Stranded(s, id, doc, es) && !IsAbout(e, id) && doc.id == id
    requires s'.store == s.store && s'.ledgers == s.ledgers[l := EventsIn(s.ledgers, l) + [e]]
    requires forall v | v in s'.writers && v != w :: v in s.writers && s'.writers[v] == s.writers[v]
    requires w in s'.writers && s'.writers[w].Appended? ==> s'.writers[w].projection.id != id
    ensures Stranded(s', id, doc, es)
  {
    EventsAfterSnoc(EventsIn(s.ledgers, l), e, id, 0);
    EventsAfterSnoc(EventsIn(s.ledgers, l), e, id, Reach(doc.watermark));
  }

  lemma AppendElsewhere(s: State, w: WriterId, id: PrnId, doc: Prn, es: Events)
    requires Enabled(s, Append(w)) && Stranded(s, id, doc, es) && doc.id == id
    requires var Decided(prn, req, e) := s.writers[w];
      AppendEvent(EventsIn(s.ledgers, req.ledger), e).Success? ==> prn.id != id && IsAbout(e, prn.id)
    ensures Stranded(AfterAppend(s, w), id, doc, es)
  {
    var Decided(prn, req, e) := s.writers[w];
    if AppendEvent(EventsIn(s.ledgers, req.ledger), e).Success? {
      SingleEventFold(prn, e);
      GrowthKeepsStranded(s, AfterAppend(s, w), w, req.ledger, e, id, doc, es);
    }
  }

  lemma {:induction false} AppendKeepsStranded(s: State, w: WriterId, id: PrnId, doc: Prn, es: Events)
    requires Known(s) && Enabled(s, Append(w)) && Fresh(s, Append(w)) && Stranded(s, id, doc, es)
    ensures Stranded(AfterAppend(s, w), id, doc, es)
  {
    var Decided(prn, req, e) := s.writers[w];
    assert WriterOrigin(s.store, s.writers[w]) && WriterAgrees(s.drafts, s.ledgers, s.writers[w]);
    if AppendEvent(EventsIn(s.ledgers, req.ledger), e).Success? && prn.id == id {
      StrandedRefusesMove(s, id, doc, es, prn);
    }
    AppendElsewhere(s, w, id, doc, es);
  }

  lemma SubmitKeepsStranded(s: State, l: LedgerId, e: LedgerEvent, id: PrnId, doc: Prn, es: Events)
    requires WellKeyed(s.store) && !e.body.PrnEvent? && Stranded(s, id, doc, es)
    ensures Stranded(AfterSubmit(s, l, e), id, doc, es)
  {
    EventsAfterSnoc(EventsIn(s.ledgers, l), e, id, 0);
    EventsAfterSnoc(EventsIn(s.ledgers, l), e, id, Reach(doc.watermark));
  }

  lemma PersistKeepsStranded(s: State, w: WriterId, regulator: Regulator, draw: nat, id: PrnId, doc: Prn, es: Events)
    requires Enabled(s, Persist(w, regulator, draw)) && Stranded(s, id, doc, es)
    ensures Stranded(AfterPersist(s, w, regulator, draw), id, doc, es)
  {
    AttemptedContent(s.writers[w], regulator, draw);
  }

  lemma DiscardElsewhere(s: State, w: WriterId, id: PrnId, doc: Prn, es: Events)
    requires Enabled(s, Discard(w)) && Stranded(s, id, doc, es) && WellKeyed(s.store)
    requires UpdateStatusOutcome(s.store, DiscardParams(s.writers[w].prn, s.writers[w].req)).Written? ==> s.writers[w].prn.id != id
    ensures Stranded(AfterDiscard(s, w), id, doc, es)
  {}

  lemma {:induction false} DiscardKeepsStranded(s: State, w: WriterId, id: PrnId, doc: Prn, es: Events)
    requires Known(s) && Enabled(s, Discard(w)) && Fresh(s, Discard(w)) && Stranded(s, id, doc, es)
    ensures Stranded(AfterDiscard(s, w), id, doc, es)
  {
    var Holding(prn, req) := s.writers[w];
    assert WriterOrigin(s.store, s.writers[w]);
    if prn.id == id {
      StrandedRefusesMove(s, id, doc, es, prn);
    }
    DiscardElsewhere(s, w, id, doc, es);
  }

  lemma ReadingKeepsStranded(s: State, a: Action, id: PrnId, doc: Prn, es: Events)
    requires Enabled(s, a) && Stranded(s, id, doc, es)
    requires !a.Append? && !a.Persist? && !a.Discard? && !a.SubmitSummaryLog?
    ensures Stranded(Next(s, a), id, doc, es)
  {}

  lemma {:induction false} StepKeepsStranded(s: State, a: Action, id: PrnId, doc: Prn, es: Events)
    requires Known(s) && Enabled(s, a) && Fresh(s, a) && Stranded(s, id, doc, es)
    ensures Stranded(Next(s, a), id, doc, es)
  {
    match a {
      case Append(w) => AppendKeepsStranded(s, w, id, doc, es);
      case Persist(w, regulator, draw) => PersistKeepsStranded(s, w, regulator, draw, id, doc, es);
      case Discard(w) => DiscardKeepsStranded(s, w, id, doc, es);
      case SubmitSummaryLog(l, log, total, at, user) =>
        SubmitKeepsStranded(s, l, DecideSummaryLog(EventsIn(s.ledgers, l), log, total, at, user), id, doc, es);
      case _ => ReadingKeepsStranded(s, a, id, doc, es);
    }
  }

  lemma {:induction false} RunKeepsOrigins(actions: seq<Action>, guard: (State, Action) -> bool)
    requires Exec(actions, guard).Some?
    ensures var s := Exec(actions, guard).value; OriginInv(s.store, s.writers)
  {
    if actions != [] {
      var front := actions[..|actions| - 1];
      RunKeepsOrigins(front, guard);
      StepKeepsOrigins(Exec(front, guard).value, actions[|actions| - 1]);
    }
  }

  lemma {:induction false} RunIsKnown(actions: seq<Action>)
    requires Exec(actions, Fresh).Some?
    ensures Known(Exec(actions, Fresh).value)
  {
    RunKeepsAgreement(actions);
    RunKeepsNumbering(actions, Fresh);
    RunKeepsOrigins(actions, Fresh);
  }

  lemma {:induction false} RunKeepsStranded(front: seq<Action>, rest: seq<Action>, id: PrnId, doc: Prn, es: Events)
    requires Exec(front, Fresh).Some? && Stranded(Exec(front, Fresh).value, id, doc, es)
    requires Exec(front + rest, Fresh).Some?
    ensures Stranded(Exec(front + rest, Fresh).value, id, doc, es)
  {
    if rest == [] {
      assert front + rest == front;
    } else {
      var n := |rest| - 1;
      assert (front + rest)[..|front + rest| - 1] == front + rest[..n];
      RunKeepsStranded(front, rest[..n], id, doc, es);
      RunIsKnown(front + rest[..n]);
      StepKeepsStranded(Exec(front + rest[..n], Fresh).value, rest[n], id, doc, es);
    }
  }

  /**
   * Once a stored document is behind its ledger and the writer that appended is gone, then however the fresh run goes
   * on the document is never written again and its PRN never gains another event: catch-up repairs what readers
   * see, and no route carries the repair into the store or the PRN any further.
   */
  lemma {:induction false} LaggingDocumentsStayBehind(front: seq<Action>, rest: seq<Action>, id: PrnId)
    requires Exec(front, Fresh).Some? && Exec(front + rest, Fresh).Some?
    requires var s := Exec(front, Fresh).value; id in s.store && Lagging(s, id) && Unattended(s, id)
    ensures var s, s' := Exec(front, Fresh).value, Exec(front + rest, Fresh).value;
      && id in s'.store && s'.store[id] == s.store[id]
      && EventsOf(OwnEvents(s', s'.store[id]), id) == EventsOf(OwnEvents(s, s.store[id]), id)
      && Lagging(s', id)
  {
    var s := Exec(front, Fresh).value;
    RunKeepsStranded(front, rest, id, s.store[id], EventsOf(OwnEvents(s, s.store[id]), id));
  }

  // ----- a document that is still attended -----

  /** A fresh append takes a slot ahead of the watermark its writer holds. */
  lemma {:induction false} FreshIsAhead(s: State, a: Action)
    requires AgreementInv(s) && Enabled(s, a) && Fresh(s, a)
    ensures SlotAhead(s, a)
  {
    if a.Append? && AppendEvent(EventsIn(s.ledgers, s.writers[a.w].req.ledger), s.writers[a.w].event).Success? {
      var prn := s.writers[a.w].prn;
      var stored, draft := s.store[prn.id], s.drafts[prn.id];
      assert DraftSound(draft, stored, EventsIn(s.ledgers, draft.ledger));
      DocStaysInLedger(draft, stored, EventsIn(s.ledgers, draft.ledger));
      CatchUpAdvances(stored, OwnEvents(s, stored));
      HeadIsLength(OwnEvents(s, stored));
      assert Content(prn).watermark == prn.watermark && Content(prn).ledger == prn.ledger;
    }
  }

  lemma {:induction false} FreshRunsStayAhead(actions: seq<Action>)
    requires Exec(actions, Fresh).Some?
    ensures Exec(actions, SlotAhead) == Exec(actions, Fresh)
    ensures AheadInv(Exec(actions, Fresh).value)
  {
    if actions != [] {
      var front := actions[..|actions| - 1];
      FreshRunsStayAhead(front);
      RunKeepsAgreement(front);
      FreshIsAhead(Exec(front, Fresh).value, actions[|actions| - 1]);
    }
    RunStaysAhead(actions);
  }

  /** An attended persist passes every guard but, for an issuance, the check of its candidate number. */
  lemma AttendedPersist(store: Store, ledgers: Ledgers, writer: Writer, id: PrnId, regulator: Regulator, draw: nat)
    requires WellKeyed(store) && UniqueNumbers(store) && id in store && Attends(store, writer, id)
    requires writer.attempts < MAX_ATTEMPTS && draw < RANDOM_SUFFIX_RANGE
    requires WriterSlot(store, ledgers, writer) && WriterAhead(store, writer) && WriterOrigin(store, writer)
    ensures var outcome := PersistOutcome(store, Attempted(writer, regulator, draw), writer.prn.version);
      var number := CandidateNumber(writer.prn, regulator, writer.attempts, draw);
      if writer.req.newStatus == AwaitingAcceptance && NumberTaken(store, id, number) then outcome.NumberConflict?
      else outcome == Written(Attempted(writer, regulator, draw).(version := writer.prn.version + 1))
    ensures Reach(store[id].watermark) < Reach(writer.projection.watermark)
  {
    PersistBySlot(store, writer, regulator, draw);
    if writer.req.newStatus != AwaitingAcceptance && store[id].prnNumber.Some? {
      OwnNumberIsNotTaken(store, id);
    }
  }

  /** The document has become the projection, one version on. */
  ghost predicate Lands(store: Store, store': Store, projection: Prn, id: PrnId) {
    && id in store && id in store'
    && Content(store'[id]) == Content(projection)
    && store'[id].version == store[id].version + 1
    && Reach(store[id].watermark) < Reach(store'[id].watermark)
  }

  ghost predicate LandsAfter(actions: seq<Action>, rest: seq<Action>, projection: Prn, id: PrnId) {
    && Exec(actions, Fresh).Some? && Exec(actions + rest, Fresh).Some?
    && Lands(Exec(actions, Fresh).value.store, Exec(actions + rest, Fresh).value.store, projection, id)
  }

  lemma {:induction false} AttendingWriter(actions: seq<Action>, w: WriterId)
    requires Exec(actions, Fresh).Some? && w in Exec(actions, Fresh).value.writers
    ensures var s := Exec(actions, Fresh).value;
      && WellKeyed(s.store) && UniqueNumbers(s.store)
      && WriterSlot(s.store, s.ledgers, s.writers[w]) && WriterAhead(s.store, s.writers[w]) && WriterOrigin(s.store, s.writers[w])
  {
    FreshRunsStayAhead(actions);
    RunIsKnown(actions);
  }

  predicate MeetsTakenNumber(store: Store, writer: Writer, id: PrnId, regulator: Regulator, attempt: nat, draw: nat)
    requires writer.Appended? && attempt < MAX_ATTEMPTS && draw < RANDOM_SUFFIX_RANGE
  {
    writer.req.newStatus == AwaitingAcceptance && NumberTaken(store, id, CandidateNumber(writer.prn, regulator, attempt, draw))
  }

  lemma AfterPersistLands(s: State, w: WriterId, id: PrnId, regulator: Regulator, draw: nat)
    requires Enabled(s, Persist(w, regulator, draw)) && id in s.store && Attends(s.store, s.writers[w], id)
    requires var writer := s.writers[w];
      PersistOutcome(s.store, Attempted(writer, regulator, draw), writer.prn.version)
      == Written(Attempted(writer, regulator, draw).(version := writer.prn.version + 1))
    requires Reach(s.store[id].watermark) < Reach(s.writers[w].projection.watermark)
    ensures Lands(s.store, AfterPersist(s, w, regulator, draw).store, s.writers[w].projection, id)
  {
    AttemptedContent(s.writers[w], regulator, draw);
  }

  /** One attempt lands, or meets a taken number and counts one attempt more. */
  lemma {:induction false} AttemptLands(actions: seq<Action>, w: WriterId, id: PrnId, regulator: Regulator, draw: nat)
    requires Exec(actions, Fresh).Some? && Enabled(Exec(actions, Fresh).value, Persist(w, regulator, draw))
    requires var s := Exec(actions, Fresh).value; id in s.store && Attends(s.store, s.writers[w], id)
    ensures var s, s' := Exec(actions, Fresh).value, AfterPersist(Exec(actions, Fresh).value, w, regulator, draw);
      var writer := s.writers[w];
      if MeetsTakenNumber(s.store, writer, id, regulator, writer.attempts, draw) then s' == With(s, w, AfterNumberConflict(writer))
      else Lands(s.store, s'.store, writer.projection, id)
  {
    var s := Exec(actions, Fresh).value;
    AttendingWriter(actions, w);
    AttendedPersist(s.store, s.ledgers, s.writers[w], id, regulator, draw);
    if !MeetsTakenNumber(s.store, s.writers[w], id, regulator, s.writers[w].attempts, draw) {
      AfterPersistLands(s, w, id, regulator, draw);
    }
  }

  /** The writer attends the document and still has this attempt, whose number, if it needs one, is free. */
  predicate MayLand(s: State, w: WriterId, id: PrnId, regulator: Regulator, attempt: nat, draw: nat) {
    && id in s.store && w in s.writers && Attends(s.store, s.writers[w], id)
    && s.writers[w].attempts <= attempt < MAX_ATTEMPTS && draw < RANDOM_SUFFIX_RANGE
    && !MeetsTakenNumber(s.store, s.writers[w], id, regulator, attempt, draw)
  }

  lemma RetryMayLand(s: State, w: WriterId, id: PrnId, regulator: Regulator, attempt: nat, draw: nat)
    requires MayLand(s, w, id, regulator, attempt, draw)
    requires MeetsTakenNumber(s.store, s.writers[w], id, regulator, s.writers[w].attempts, draw)
    ensures AfterNumberConflict(s.writers[w]) == s.writers[w].(attempts := s.writers[w].attempts + 1)
    ensures MayLand(With(s, w, AfterNumberConflict(s.writers[w])), w, id, regulator, attempt, draw)
  {}

  lemma LandsOneLater(actions: seq<Action>, a: Action, rest: seq<Action>, projection: Prn, id: PrnId)
    requires Exec(actions, Fresh).Some? && LandsAfter(actions + [a], rest, projection, id)
    requires Exec(actions + [a], Fresh).value.store == Exec(actions, Fresh).value.store
    ensures LandsAfter(actions, [a] + rest, projection, id)
  {
    assert actions + [a] + rest == actions + ([a] + rest);
  }

  /**
   * The other direction: from a fresh run, a document that a writer still attends at its stored version can be written,
   * by persists alone, for as long as the writer has an attempt left and, to issue, a candidate number that is free.
   */
  lemma {:induction false} AttendedDocumentsCanBeWritten(
    actions: seq<Action>, w: WriterId, id: PrnId, regulator: Regulator, attempt: nat, draw: nat)
    requires Exec(actions, Fresh).Some? && MayLand(Exec(actions, Fresh).value, w, id, regulator, attempt, draw)
    ensures exists rest :: LandsAfter(actions, rest, Exec(actions, Fresh).value.writers[w].projection, id)
    decreases attempt - Exec(actions, Fresh).value.writers[w].attempts
  {
    var s := Exec(actions, Fresh).value;
    var writer, persist := s.writers[w], Persist(w, regulator, draw);
    AttemptLands(actions, w, id, regulator, draw);
    assert (actions + [persist])[..|actions|] == actions;
    if MeetsTakenNumber(s.store, writer, id, regulator, writer.attempts, draw) {
      RetryMayLand(s, w, id, regulator, attempt, draw);
      AttendedDocumentsCanBeWritten(actions + [persist], w, id, regulator, attempt, draw);
      var rest :| LandsAfter(actions + [persist], rest, writer.projection, id);
      LandsOneLater(actions, persist, rest, writer.projection, id);
    } else {
      assert LandsAfter(actions, [persist], writer.projection, id);
    }
  }

  // ----- numbers as readers see them -----

  lemma {:induction false} OnceIssuedAlwaysIssued(history: seq<HistoryItem>, i: nat, j: nat)
    requires LegalHistory(history) && i <= j < |history|
    requires history[i].status in ISSUED_STATUSES
    ensures history[j].status in ISSUED_STATUSES
  {
    if i < j {
      OnceIssuedAlwaysIssued(history, i, j - 1);
      assert CanMove(history[j - 1].status, history[j].status);
      var ts := TransitionsFrom(history[j - 1].status);
      assert ts != [];
    }
  }

  lemma IssuedSlotMeansIssuedStatus(draft: Prn, stored: Prn, events: Events)
    requires Numbered(events) && DraftSound(draft, stored, events)
    requires IssuedSlot in stored.status.slots
    ensures stored.status.current in ISSUED_STATUSES
  {
    assert Content(stored).status == stored.status;
    if stored.status.current != Discarded {
      var head := EventsUpTo(events, draft.id, Reach(stored.watermark));
      IssuedSlotMeansIssued(draft, head);
      FoldHistory(draft, head);
      var i :| 0 <= i < |head| && StatusOfKind(head[i].body.kind) == AwaitingAcceptance;
      HistoryOfPrefixIsLegal(draft, events, Reach(stored.watermark));
      var h := Fold(draft, head).status.history;
      assert h[1 + i].status == AwaitingAcceptance;
      OnceIssuedAlwaysIssued(h, 1 + i, |h| - 1);
      FoldMirrorsLastEvent(draft, head);
    }
  }

  /**
   * Stored documents in an issued status always have a number; projected reads need not. In a fresh run a read shows an
   * issued status without a number if and only if the issuance was appended and its persist never landed.
   */
  lemma {:induction false} UnnumberedReadsAreUnpersistedIssuances(actions: seq<Action>, id: PrnId)
    requires Exec(actions, Fresh).Some? && id in Exec(actions, Fresh).value.store
    requires Projected(Exec(actions, Fresh).value, id).status.current in ISSUED_STATUSES
    ensures var s := Exec(actions, Fresh).value;
      Projected(s, id).prnNumber.None? <==> s.store[id].status.current !in ISSUED_STATUSES
  {
    RunIsKnown(actions);
    var s := Exec(actions, Fresh).value;
    var stored, events := s.store[id], OwnEvents(s, s.store[id]);
    var draft := s.drafts[id];
    assert DraftSound(draft, stored, EventsIn(s.ledgers, draft.ledger));
    DocStaysInLedger(draft, stored, EventsIn(s.ledgers, draft.ledger));
    FoldFrame(stored, TailOf(stored, events));
    assert Numbering(stored);
    if stored.prnNumber.Some? {
      IssuedSlotMeansIssuedStatus(draft, stored, events);
    }
  }
}

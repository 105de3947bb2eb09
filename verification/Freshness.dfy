/**
 * Freshness is exactly what agreement needs. Whatever the registrations and interleaving, documents agree with the
 * ledger at the end of a run if and only if every append that took its slot and every discard that was written was
 * fresh; and a disagreement, once there, is there for good.
 */
module Freshness {
  import opened Wrappers
  import opened PrnModel
  import opened Ledger
  import opened PrnFold
  import opened PrnStore
  import opened PrnNumber
  import opened PrnProtocol
  import opened Interleavings
  import opened FreshRuns

  // ----- drafts and discards, in every interleaving -----

  /** A document that never left draft has no number. */
  predicate UnnumberedDraft(prn: Prn) {
    prn.status.current in {Draft, Discarded} ==> prn.prnNumber.None?
  }

  /** A held document is not discarded, and at the stored version neither is the stored one, which is a draft if the held one is. */
  ghost predicate HeldStanding(store: Store, prn: Prn) {
    && prn.id in store
    && prn.version <= store[prn.id].version
    && prn.status.current != Discarded
    && (prn.version == store[prn.id].version ==>
          && store[prn.id].status.current != Discarded
          && (prn.status.current == Draft ==> store[prn.id].status.current == Draft))
  }

  ghost predicate WriterStanding(store: Store, w: Writer) {
    match w
    case Fetched(prn, _) => HeldStanding(store, prn)
    case Holding(prn, _) => HeldStanding(store, prn)
    case Decided(prn, _, _) => HeldStanding(store, prn)
    case Appended(prn, _, projection, _) =>
      HeldStanding(store, prn) && projection.id == prn.id && projection.status.current !in {Draft, Discarded}
    case _ => true
  }

  ghost predicate StoreStanding(drafts: map<PrnId, Prn>, store: Store) {
    && drafts.Keys == store.Keys
    && WellKeyed(store)
    && (forall id | id in store :: UnnumberedDraft(store[id]))
  }

  ghost predicate StandingInv(s: State) {
    && StoreStanding(s.drafts, s.store)
    && (forall w | w in s.writers :: WriterStanding(s.store, s.writers[w]))
  }

  /** How any step may change what writers rely on. */
  ghost predicate Replaces(store: Store, store': Store) {
    forall id | id in store ::
      && id in store'
      && store[id].version <= store'[id].version
      && (store[id].version == store'[id].version ==> store'[id] == store[id])
  }

  lemma ReplacingKeepsStanding(store: Store, store': Store, writers: map<WriterId, Writer>)
    requires Replaces(store, store') && forall w | w in writers :: WriterStanding(store, writers[w])
    ensures forall w | w in writers :: WriterStanding(store', writers[w])
  {
    forall w | w in writers ensures WriterStanding(store', writers[w]) {
      assert WriterStanding(store, writers[w]);
    }
  }

  lemma SetWriterKeepsStanding(s: State, s': State, w: WriterId)
    requires StandingInv(s) && s'.drafts == s.drafts && s'.store == s.store
    requires w in s'.writers && s'.writers == s.writers[w := s'.writers[w]] && WriterStanding(s.store, s'.writers[w])
    ensures StandingInv(s')
  {}

  lemma CaughtUpStanding(store: Store, prn: Prn, req: Request, events: Events)
    requires HeldStanding(store, prn)
    ensures Begin(ProjectFromTail(prn, events), req, Some(Producer)).Holding? ==> HeldStanding(store, ProjectFromTail(prn, events))
  {
    var tail := TailOf(prn, events);
    FoldFrame(prn, tail);
    if tail != [] {
      FoldMirrorsLastEvent(prn, tail);
    }
  }

  lemma ReadStanding(store: Store, id: PrnId, req: Request, actor: Option<PrnActor>)
    requires WellKeyed(store) && id in store
    ensures WriterStanding(store, Begin(store[id], req, actor))
  {}

  /** Reads, decisions and diagnoses set one writer and nothing else. */
  lemma ReadingKeepsStanding(s: State, a: Action)
    requires StandingInv(s) && Enabled(s, a)
    requires a.ReadStored? || a.FetchByNumber? || a.CatchUp? || a.DecideEvent? || a.Diagnose?
    ensures StandingInv(Next(s, a))
  {
    if !a.ReadStored? && !a.FetchByNumber? {
      assert WriterStanding(s.store, s.writers[a.w]);
    }
    if a.CatchUp? {
      CaughtUpStanding(s.store, s.writers[a.w].prn, s.writers[a.w].req, EventsIn(s.ledgers, s.writers[a.w].prn.ledger));
    } else if a.ReadStored? {
      ReadStanding(s.store, a.id, a.req, InternalActor(s.store[a.id].status.current));
    }
    SetWriterKeepsStanding(s, Next(s, a), a.w);
  }

  lemma AppendKeepsStanding(s: State, w: WriterId)
    requires StandingInv(s) && Enabled(s, Append(w))
    ensures StandingInv(AfterAppend(s, w))
  {
    assert WriterStanding(s.store, s.writers[w]);
    FoldThrowsIffUnmappable(s.writers[w].prn, [s.writers[w].event]);
    if s.writers[w].event.body.PrnEvent? {
      SingleEventFold(s.writers[w].prn, s.writers[w].event);
    }
    SetWriterKeepsStanding(s, AfterAppend(s, w), w);
  }

  /** A write replaces a document that is not discarded by a later one that is no numbered draft. */
  ghost predicate Stands(store: Store, outcome: WriteOutcome) {
    outcome.Written? ==>
      && outcome.prn.id in store
      && store[outcome.prn.id].version < outcome.prn.version
      && store[outcome.prn.id].status.current != Discarded
      && UnnumberedDraft(outcome.prn)
  }

  lemma PersistStands(store: Store, writer: Writer, regulator: Regulator, draw: nat)
    requires WellKeyed(store) && WriterStanding(store, writer)
    requires writer.Appended? && writer.attempts < MAX_ATTEMPTS && draw < RANDOM_SUFFIX_RANGE
    ensures Stands(store, PersistOutcome(store, Attempted(writer, regulator, draw), writer.prn.version))
  {
    assert Attempted(writer, regulator, draw).status == writer.projection.status;
  }

  lemma DiscardStands(store: Store, prn: Prn, req: Request)
    requires WellKeyed(store) && HeldStanding(store, prn) && IsDiscard(prn, req)
    requires forall id | id in store :: UnnumberedDraft(store[id])
    ensures Stands(store, UpdateStatusOutcome(store, DiscardParams(prn, req)))
  {}

  lemma WriteKeepsStanding(s: State, s': State, w: WriterId, outcome: WriteOutcome)
    requires StandingInv(s) && Stands(s.store, outcome)
    requires s'.drafts == s.drafts && s'.store == AfterWrite(s.store, outcome)
    requires w in s'.writers && s'.writers == s.writers[w := s'.writers[w]] && WriterStanding(s.store, s'.writers[w])
    ensures StandingInv(s')
  {
    var writers := s'.writers;
    assert forall v | v in writers :: WriterStanding(s.store, writers[v]);
    ReplacingKeepsStanding(s.store, s'.store, writers);
  }

  lemma NumberConflictStanding(store: Store, writer: Writer)
    requires writer.Appended? && WriterStanding(store, writer)
    ensures WriterStanding(store, AfterNumberConflict(writer))
  {}

  lemma AfterPersistStanding(s: State, w: WriterId, regulator: Regulator, draw: nat)
    requires Enabled(s, Persist(w, regulator, draw)) && WriterStanding(s.store, s.writers[w])
    ensures var s' := AfterPersist(s, w, regulator, draw);
      && s'.drafts == s.drafts
      && s'.store == AfterWrite(s.store, PersistOutcome(s.store, Attempted(s.writers[w], regulator, draw), s.writers[w].prn.version))
      && w in s'.writers && s'.writers == s.writers[w := s'.writers[w]] && WriterStanding(s.store, s'.writers[w])
  {
    NumberConflictStanding(s.store, s.writers[w]);
  }

  lemma {:induction false} PersistKeepsStanding(s: State, w: WriterId, regulator: Regulator, draw: nat)
    requires StandingInv(s) && Enabled(s, Persist(w, regulator, draw))
    ensures StandingInv(AfterPersist(s, w, regulator, draw))
  {
    var writer := s.writers[w];
    assert WriterStanding(s.store, writer);
    PersistStands(s.store, writer, regulator, draw);
    AfterPersistStanding(s, w, regulator, draw);
    WriteKeepsStanding(s, AfterPersist(s, w, regulator, draw), w,
                       PersistOutcome(s.store, Attempted(writer, regulator, draw), writer.prn.version));
  }

  lemma {:induction false} DiscardKeepsStanding(s: State, w: WriterId)
    requires StandingInv(s) && Enabled(s, Discard(w))
    ensures StandingInv(AfterDiscard(s, w))
  {
    var Holding(prn, req) := s.writers[w];
    assert WriterStanding(s.store, s.writers[w]);
    DiscardStands(s.store, prn, req);
    AfterDiscardShape(s, w);
    WriteKeepsStanding(s, AfterDiscard(s, w), w, UpdateStatusOutcome(s.store, DiscardParams(prn, req)));
  }

  lemma CreateKeepsStanding(s: State, prn: Prn)
    requires StandingInv(s) && Enabled(s, Create(prn))
    ensures StandingInv(AfterCreate(s, prn))
  {
    ReplacingKeepsStanding(s.store, AfterCreate(s, prn).store, s.writers);
  }

  lemma {:induction false} StepKeepsStanding(s: State, a: Action)
    requires StandingInv(s) && Enabled(s, a)
    ensures StandingInv(Next(s, a))
  {
    match a {
      case Create(prn) => CreateKeepsStanding(s, prn);
      case Append(w) => AppendKeepsStanding(s, w);
      case Persist(w, regulator, draw) => PersistKeepsStanding(s, w, regulator, draw);
      case Discard(w) => DiscardKeepsStanding(s, w);
      case SubmitSummaryLog(_, _, _, _, _) =>
      case Crash(_) =>
      case _ => ReadingKeepsStanding(s, a);
    }
  }

  lemma {:induction false} RunKeepsStanding(actions: seq<Action>, guard: (State, Action) -> bool)
    requires Exec(actions, guard).Some?
    ensures StandingInv(Exec(actions, guard).value)
  {
    if actions != [] {
      var front := actions[..|actions| - 1];
      RunKeepsStanding(front, guard);
      StepKeepsStanding(Exec(front, guard).value, actions[|actions| - 1]);
    }
  }

  // ----- what writers hold in fresh runs -----

  /** A held document has absorbed a prefix of its PRN's events. */
  ghost predicate HoldsPrefix(drafts: map<PrnId, Prn>, ledgers: Ledgers, prn: Prn) {
    && prn.id in drafts
    && prn.status.current != Discarded
    && DocAgrees(drafts[prn.id], prn, EventsIn(ledgers, drafts[prn.id].ledger))
  }

  ghost predicate WriterHolds(drafts: map<PrnId, Prn>, ledgers: Ledgers, w: Writer) {
    w.Fetched? || w.Holding? || w.Decided? ==> HoldsPrefix(drafts, ledgers, w.prn)
  }

  ghost predicate HeldInv(s: State) {
    forall w | w in s.writers :: WriterHolds(s.drafts, s.ledgers, s.writers[w])
  }

  /** Catching up absorbs everything. */
  lemma CaughtUpAgrees(draft: Prn, prn: Prn, events: Events)
    requires IsNewDraft(draft) && Numbered(events) && DocAgrees(draft, prn, events) && prn.status.current != Discarded
    requires LegalHistory(Fold(draft, EventsOf(events, draft.id)).status.history)
    ensures var p := ProjectFromTail(prn, events);
      p.id == draft.id && p.status.current != Discarded && DocAgrees(draft, p, events)
  {
    var p := ProjectFromTail(prn, events);
    ProjectedIsFoldOfAll(draft, prn, events);
    assert Content(p).watermark == p.watermark && Content(p).status == p.status && Content(p).id == p.id;
    EventsSplit(events, draft.id, |events|);
    assert EventsUpTo(events, draft.id, |events|) == EventsOf(events, draft.id);
    WatermarkOfPrefix(draft, events, |events|);
    FoldIsNotDiscarded(draft, EventsOf(events, draft.id));
    FoldFrame(draft, EventsOf(events, draft.id));
  }

  lemma StoredIsPrefix(drafts: map<PrnId, Prn>, store: Store, ledgers: Ledgers, id: PrnId)
    requires DocsAgree(drafts, store, ledgers) && id in store && store[id].status.current != Discarded
    ensures HoldsPrefix(drafts, ledgers, store[id])
  {
    assert DraftSound(drafts[id], store[id], EventsIn(ledgers, drafts[id].ledger));
    DocStaysInLedger(drafts[id], store[id], EventsIn(ledgers, drafts[id].ledger));
  }

  lemma CaughtUpIsPrefix(drafts: map<PrnId, Prn>, store: Store, ledgers: Ledgers, prn: Prn)
    requires DocsAgree(drafts, store, ledgers) && HoldsPrefix(drafts, ledgers, prn)
    ensures HoldsPrefix(drafts, ledgers, ProjectFromTail(prn, EventsIn(ledgers, prn.ledger)))
  {
    var draft := drafts[prn.id];
    assert DraftSound(draft, store[prn.id], EventsIn(ledgers, draft.ledger));
    DocStaysInLedger(draft, prn, EventsIn(ledgers, draft.ledger));
    CaughtUpAgrees(draft, prn, EventsIn(ledgers, draft.ledger));
  }

  lemma SetWriterKeepsHeld(s: State, s': State, w: WriterId)
    requires HeldInv(s) && s'.drafts == s.drafts && s'.ledgers == s.ledgers
    requires w in s'.writers && s'.writers == s.writers[w := s'.writers[w]] && WriterHolds(s.drafts, s.ledgers, s'.writers[w])
    ensures HeldInv(s')
  {}

  lemma ReadHolds(s: State, id: PrnId, req: Request)
    requires AgreementInv(s) && id in s.store
    ensures WriterHolds(s.drafts, s.ledgers, Begin(s.store[id], req, InternalActor(s.store[id].status.current)))
  {
    if s.store[id].status.current != Discarded {
      StoredIsPrefix(s.drafts, s.store, s.ledgers, id);
    } else {
      assert TransitionsFrom(Discarded) == [];
    }
  }

  lemma {:induction false} FirstReadKeepsHeld(s: State, a: Action)
    requires AgreementInv(s) && StandingInv(s) && HeldInv(s) && Enabled(s, a)
    requires a.ReadStored? || a.FetchByNumber?
    ensures HeldInv(Next(s, a))
  {
    if a.ReadStored? {
      ReadHolds(s, a.id, a.req);
    } else {
      StoredIsPrefix(s.drafts, s.store, s.ledgers, a.id);
    }
    SetWriterKeepsHeld(s, Next(s, a), a.w);
  }

  lemma {:induction false} CatchUpKeepsHeld(s: State, w: WriterId)
    requires AgreementInv(s) && HeldInv(s) && Enabled(s, CatchUp(w))
    ensures HeldInv(Next(s, CatchUp(w)))
  {
    assert WriterHolds(s.drafts, s.ledgers, s.writers[w]);
    CaughtUpIsPrefix(s.drafts, s.store, s.ledgers, s.writers[w].prn);
    SetWriterKeepsHeld(s, Next(s, CatchUp(w)), w);
  }

  /** Deciding keeps hold of the same document, and a diagnosis ends the writer. */
  lemma LaterStepKeepsHeld(s: State, a: Action)
    requires HeldInv(s) && Enabled(s, a) && (a.DecideEvent? || a.Diagnose?)
    ensures HeldInv(Next(s, a))
  {
    assert WriterHolds(s.drafts, s.ledgers, s.writers[a.w]);
    SetWriterKeepsHeld(s, Next(s, a), a.w);
  }

  /** A ledger that grows by one event leaves held prefixes as they are. */
  lemma GrowthKeepsPrefix(s: State, l: LedgerId, e: LedgerEvent, prn: Prn)
    requires AgreementInv(s) && HoldsPrefix(s.drafts, s.ledgers, prn) && e.number == |EventsIn(s.ledgers, l)| + 1
    ensures HoldsPrefix(s.drafts, s.ledgers[l := EventsIn(s.ledgers, l) + [e]], prn)
  {
    var draft := s.drafts[prn.id];
    assert DraftSound(draft, s.store[prn.id], EventsIn(s.ledgers, draft.ledger));
    if draft.ledger == l {
      AppendKeepsDoc(draft, prn, EventsIn(s.ledgers, l), e);
    }
  }

  lemma GrowthKeepsHeld(s: State, l: LedgerId, e: LedgerEvent)
    requires AgreementInv(s) && HeldInv(s) && e.number == Head(EventsIn(s.ledgers, l)) + 1
    ensures HeldInv(s.(ledgers := s.ledgers[l := EventsIn(s.ledgers, l) + [e]]))
  {
    HeadIsLength(EventsIn(s.ledgers, l));
    forall w | w in s.writers
      ensures WriterHolds(s.drafts, s.ledgers[l := EventsIn(s.ledgers, l) + [e]], s.writers[w])
    {
      assert WriterHolds(s.drafts, s.ledgers, s.writers[w]);
      if s.writers[w].Fetched? || s.writers[w].Holding? || s.writers[w].Decided? {
        GrowthKeepsPrefix(s, l, e, s.writers[w].prn);
      }
    }
  }

  /** What an append step leaves: a writer that no longer holds a document, and a ledger one event longer if it took its slot. */
  lemma AfterAppendShape(s: State, w: WriterId)
    requires Enabled(s, Append(w))
    ensures var s', req, e := AfterAppend(s, w), s.writers[w].req, s.writers[w].event;
      && s'.drafts == s.drafts && s'.store == s.store
      && s'.ledgers == (if AppendEvent(EventsIn(s.ledgers, req.ledger), e).Success?
                        then s.ledgers[req.ledger := EventsIn(s.ledgers, req.ledger) + [e]] else s.ledgers)
      && w in s'.writers && s'.writers == s.writers[w := s'.writers[w]]
      && (s'.writers[w].Finished? || s'.writers[w].Appended?)
  {}

  lemma {:induction false} AppendKeepsHeld(s: State, w: WriterId)
    requires AgreementInv(s) && HeldInv(s) && Enabled(s, Append(w))
    ensures HeldInv(AfterAppend(s, w))
  {
    var Decided(prn, req, e) := s.writers[w];
    AfterAppendShape(s, w);
    var grown := s;
    if AppendEvent(EventsIn(s.ledgers, req.ledger), e).Success? {
      GrowthKeepsHeld(s, req.ledger, e);
      grown := s.(ledgers := s.ledgers[req.ledger := EventsIn(s.ledgers, req.ledger) + [e]]);
    }
    SetWriterKeepsHeld(grown, AfterAppend(s, w), w);
  }

  lemma CreateKeepsHeld(s: State, prn: Prn)
    requires AgreementInv(s) && HeldInv(s) && Enabled(s, Create(prn))
    ensures HeldInv(AfterCreate(s, prn))
  {
    forall w | w in s.writers ensures WriterHolds(AfterCreate(s, prn).drafts, s.ledgers, s.writers[w]) {
      assert WriterHolds(s.drafts, s.ledgers, s.writers[w]);
    }
  }

  lemma PersistKeepsHeld(s: State, w: WriterId, regulator: Regulator, draw: nat)
    requires HeldInv(s) && Enabled(s, Persist(w, regulator, draw))
    ensures HeldInv(AfterPersist(s, w, regulator, draw))
  {
    SetWriterKeepsHeld(s, AfterPersist(s, w, regulator, draw), w);
  }

  lemma DiscardKeepsHeld(s: State, w: WriterId)
    requires HeldInv(s) && Enabled(s, Discard(w))
    ensures HeldInv(AfterDiscard(s, w))
  {
    AfterDiscardShape(s, w);
    SetWriterKeepsHeld(s, AfterDiscard(s, w), w);
  }

  lemma {:induction false} StepKeepsHeld(s: State, a: Action)
    requires AgreementInv(s) && StandingInv(s) && HeldInv(s) && Enabled(s, a)
    ensures HeldInv(Next(s, a))
  {
    match a {
      case Create(prn) => CreateKeepsHeld(s, prn);
      case Append(w) => AppendKeepsHeld(s, w);
      case Persist(w, regulator, draw) => PersistKeepsHeld(s, w, regulator, draw);
      case Discard(w) => DiscardKeepsHeld(s, w);
      case SubmitSummaryLog(l, id, total, at, user) =>
        GrowthKeepsHeld(s, l, DecideSummaryLog(EventsIn(s.ledgers, l), id, total, at, user));
      case Crash(_) =>
      case ReadStored(_, _, _) => FirstReadKeepsHeld(s, a);
      case FetchByNumber(_, _, _) => FirstReadKeepsHeld(s, a);
      case CatchUp(w) => CatchUpKeepsHeld(s, w);
      case _ => LaterStepKeepsHeld(s, a);
    }
  }

  ghost predicate FreshInv(s: State) {
    AgreementInv(s) && StandingInv(s) && HeldInv(s)
  }

  lemma {:induction false} RunKeepsFreshInv(actions: seq<Action>)
    requires Exec(actions, Fresh).Some?
    ensures FreshInv(Exec(actions, Fresh).value)
  {
    RunKeepsAgreement(actions);
    RunKeepsStanding(actions, Fresh);
    if actions != [] {
      var front := actions[..|actions| - 1];
      RunKeepsFreshInv(front);
      StepKeepsHeld(Exec(front, Fresh).value, actions[|actions| - 1]);
    }
  }

  /** In a fresh run whatever a writer holds before it appends is the fold of its draft over its events up to its watermark. */
  lemma {:induction false} WritersHoldPrefixes(actions: seq<Action>, w: WriterId)
    requires Exec(actions, Fresh).Some?
    requires var s := Exec(actions, Fresh).value;
      w in s.writers && (s.writers[w].Fetched? || s.writers[w].Holding? || s.writers[w].Decided?)
    ensures var s := Exec(actions, Fresh).value;
      var prn := s.writers[w].prn;
      && prn.id in s.drafts
      && Content(prn) == Fold(s.drafts[prn.id], EventsUpTo(OwnEvents(s, prn), prn.id, Reach(prn.watermark)))
  {
    RunKeepsFreshInv(actions);
    var s := Exec(actions, Fresh).value;
    assert WriterHolds(s.drafts, s.ledgers, s.writers[w]);
    var prn := s.writers[w].prn;
    assert DraftSound(s.drafts[prn.id], s.store[prn.id], EventsIn(s.ledgers, s.drafts[prn.id].ledger));
    DocStaysInLedger(s.drafts[prn.id], prn, EventsIn(s.ledgers, s.drafts[prn.id].ledger));
  }

  // ----- the exact condition for an append -----

  /** Every status is entered from one status only. */
  lemma OneWayIn(a: Status, b: Status, to: Status)
    requires CanMove(a, to) && CanMove(b, to)
    ensures a == b
  {
    var from, other := TransitionsFrom(a), TransitionsFrom(b);
    assert |from| <= 2 && |other| <= 2;
    assert (0 < |from| && from[0].status == to) || (1 < |from| && from[1].status == to);
    assert (0 < |other| && other[0].status == to) || (1 < |other| && other[1].status == to);
  }

  lemma StatusInHistory(draft: Prn, all: Events, k: nat)
    requires IsNewDraft(draft) && AllPrnEvents(all) && k <= |all|
    ensures var h := Fold(draft, all).status.history;
      k < |h| == |all| + 1 && h[k].status == Fold(draft, all[..k]).status.current
  {
    FoldHistory(draft, all);
    FoldIsNotDiscarded(draft, all[..k]);
    var h := Fold(draft, all).status.history;
    assert h[..1] == draft.status.history;
    if 0 < k {
      var i := k - 1;
      FoldMirrorsLastEvent(draft, all[..k]);
      assert h[1 + i].status == StatusOfKind(all[i].body.kind);
    } else {
      assert h[0] == h[..1][0];
    }
  }

  /**
   * An event that is permitted from some prefix of a legal stream extends the whole stream legally if and only if the
   * prefix is the whole stream: every status is entered from one status only, and none is entered twice.
   */
  lemma {:induction false} AppendStaysLegalIffComplete(draft: Prn, all: Events, k: nat, e: LedgerEvent)
    requires IsNewDraft(draft) && AllPrnEvents(all) && e.body.PrnEvent? && k <= |all|
    requires LegalHistory(Fold(draft, all).status.history)
    requires CanMove(Fold(draft, all[..k]).status.current, StatusOfKind(e.body.kind))
    ensures AllPrnEvents(all + [e])
    ensures LegalHistory(Fold(draft, all + [e]).status.history) <==> k == |all|
  {
    FoldSnoc(draft, all, e);
    StatusInHistory(draft, all, k);
    StatusInHistory(draft, all, |all|);
    assert all[..|all|] == all;
    if k == |all| {
      LegalStep(draft, all, e);
    } else if LegalHistory(Fold(draft, all + [e]).status.history) {
      var h, next := Fold(draft, all + [e]).status.history, |all| + 1;
      assert CanMove(h[next - 1].status, h[next].status);
      OneWayIn(h[k].status, h[|all|].status, StatusOfKind(e.body.kind));
      LegalHistoryNeverRepeats(Fold(draft, all).status.history);
      assert false;
    }
  }

  lemma HeldIsPrefixOfAll(draft: Prn, prn: Prn, events: Events)
    requires IsNewDraft(draft) && Numbered(events)
    ensures var up, all := EventsUpTo(events, draft.id, Reach(prn.watermark)), EventsOf(events, draft.id);
      |up| <= |all| && all[..|up|] == up
      && (|up| == |all| <==> EventsAfter(events, draft.id, Reach(prn.watermark)) == [])
  {
    EventsSplit(events, draft.id, Reach(prn.watermark));
  }

  /** An append to the PRN's own ledger leaves its document sound if and only if the writer held all its events and it is not discarded. */
  lemma {:induction false} OwnAppendSoundIffComplete(draft: Prn, stored: Prn, events: Events, prn: Prn, req: Request, e: LedgerEvent)
    requires Numbered(events) && e.number == |events| + 1
    requires DraftSound(draft, stored, events)
    requires prn.status.current != Discarded && DocAgrees(draft, prn, events)
    requires DecidedAt(events, prn, req, e)
    ensures DraftSound(draft, stored, events + [e]) <==>
      (EventsAfter(events, draft.id, Reach(prn.watermark)) == [] && stored.status.current != Discarded)
    ensures LegalHistory(Fold(draft, EventsOf(events + [e], draft.id)).status.history) <==>
      EventsAfter(events, draft.id, Reach(prn.watermark)) == []
  {
    var up, all := EventsUpTo(events, draft.id, Reach(prn.watermark)), EventsOf(events, draft.id);
    DocStaysInLedger(draft, prn, events);
    HeldIsPrefixOfAll(draft, prn, events);
    assert Content(prn).status == prn.status;
    CommandsFollowTheTable(prn.status.current, req.newStatus);
    CommandReachesItsStatus(prn.status.current, req.newStatus);
    EventsAfterSnoc(events, e, draft.id, 0);
    AppendStaysLegalIffComplete(draft, all, |up|, e);
    if |up| == |all| && stored.status.current != Discarded {
      LedgerGrowthKeepsDraft(draft, stored, events, e);
    }
  }

  /** Holding all the events of a PRN that is not discarded is holding what a projected read returns. */
  lemma {:induction false} ProjectedIffComplete(draft: Prn, stored: Prn, events: Events, prn: Prn)
    requires Numbered(events) && DraftSound(draft, stored, events)
    requires prn.status.current != Discarded && DocAgrees(draft, prn, events)
    ensures Content(prn) == Content(ProjectFromTail(stored, events)) <==>
      (EventsAfter(events, draft.id, Reach(prn.watermark)) == [] && stored.status.current != Discarded)
  {
    var up, all := EventsUpTo(events, draft.id, Reach(prn.watermark)), EventsOf(events, draft.id);
    HeldIsPrefixOfAll(draft, prn, events);
    ProjectedIsFoldOfAll(draft, stored, events);
    if stored.status.current == Discarded {
      assert Content(prn).status == prn.status && Content(stored).status == stored.status;
    } else if |up| == |all| {
      assert up == all;
    } else {
      FoldHistory(draft, up);
      FoldHistory(draft, all);
    }
  }

  /** So the append leaves its document sound if and only if the writer held what a projected read returns. */
  lemma {:induction false} OwnAppendSoundIffFresh(draft: Prn, stored: Prn, events: Events, prn: Prn, req: Request, e: LedgerEvent)
    requires Numbered(events) && e.number == |events| + 1
    requires DraftSound(draft, stored, events)
    requires prn.status.current != Discarded && DocAgrees(draft, prn, events)
    requires DecidedAt(events, prn, req, e)
    ensures DraftSound(draft, stored, events + [e]) <==> Content(prn) == Content(ProjectFromTail(stored, events))
  {
    OwnAppendSoundIffComplete(draft, stored, events, prn, req, e);
    ProjectedIffComplete(draft, stored, events, prn);
  }

  // ----- a step that is not fresh goes astray -----

  /** A ledger holds an event of a PRN that belongs to another ledger. */
  ghost predicate Misfiled(drafts: map<PrnId, Prn>, l: LedgerId, events: Events) {
    exists i | 0 <= i < |events| && events[i].body.PrnEvent? ::
      events[i].body.prnId in drafts && drafts[events[i].body.prnId].ledger != l
  }

  /** A PRN's events are no legal path, or it has events although it is discarded. */
  ghost predicate Spoilt(draft: Prn, stored: Prn, events: Events, id: PrnId) {
    || (draft.status.history != [] && !LegalHistory(Fold(draft, EventsOf(events, id)).status.history))
    || (stored.status.current == Discarded && EventsOf(events, id) != [])
  }

  ghost predicate HasSpoilt(s: State, id: PrnId) {
    id in s.drafts && id in s.store && Spoilt(s.drafts[id], s.store[id], EventsIn(s.ledgers, s.drafts[id].ledger), id)
  }

  ghost predicate Astray(s: State) {
    (exists l :: Misfiled(s.drafts, l, EventsIn(s.ledgers, l))) || (exists id :: HasSpoilt(s, id))
  }

  lemma AstrayDisagrees(s: State)
    requires Astray(s)
    ensures !DocsAgree(s.drafts, s.store, s.ledgers)
  {
    if l :| Misfiled(s.drafts, l, EventsIn(s.ledgers, l)) {
      assert !EventsBelong(s.drafts, l, EventsIn(s.ledgers, l));
    } else {
      var id :| HasSpoilt(s, id);
      assert s.drafts[id].id == id ==> !DraftSound(s.drafts[id], s.store[id], EventsIn(s.ledgers, s.drafts[id].ledger));
    }
  }

  /** What a writer about to write holds, and what it holds it against. */
  lemma HeldFacts(s: State, w: WriterId)
    requires AgreementInv(s) && HeldInv(s)
    requires w in s.writers && (s.writers[w].Holding? || s.writers[w].Decided?)
    ensures var prn := s.writers[w].prn;
      && prn.id in s.drafts && prn.id in s.store && s.drafts[prn.id].id == prn.id
      && prn.status.current != Discarded
      && prn.ledger == s.drafts[prn.id].ledger == s.store[prn.id].ledger
      && LedgersNumbered(s.ledgers)
      && DocAgrees(s.drafts[prn.id], prn, EventsIn(s.ledgers, prn.ledger))
      && DraftSound(s.drafts[prn.id], s.store[prn.id], EventsIn(s.ledgers, prn.ledger))
  {
    assert WriterHolds(s.drafts, s.ledgers, s.writers[w]);
    var prn := s.writers[w].prn;
    var draft := s.drafts[prn.id];
    assert DraftSound(draft, s.store[prn.id], EventsIn(s.ledgers, draft.ledger));
    DocStaysInLedger(draft, prn, EventsIn(s.ledgers, draft.ledger));
    DocStaysInLedger(draft, s.store[prn.id], EventsIn(s.ledgers, draft.ledger));
  }

  lemma OwnAppendSpoils(draft: Prn, stored: Prn, events: Events, prn: Prn, req: Request, e: LedgerEvent)
    requires Numbered(events) && e.number == |events| + 1
    requires DraftSound(draft, stored, events)
    requires prn.status.current != Discarded && DocAgrees(draft, prn, events)
    requires DecidedAt(events, prn, req, e)
    requires Content(prn) != Content(ProjectFromTail(stored, events))
    ensures Spoilt(draft, stored, events + [e], draft.id)
  {
    ProjectedIffComplete(draft, stored, events, prn);
    OwnAppendSoundIffComplete(draft, stored, events, prn, req, e);
    DocStaysInLedger(draft, prn, events);
    EventsAfterSnoc(events, e, draft.id, 0);
  }

  lemma MisdirectedAppendGoesAstray(s: State, l: LedgerId, events: Events, e: LedgerEvent)
    requires e.body.PrnEvent? && e.body.prnId in s.drafts && s.drafts[e.body.prnId].ledger != l
    requires EventsIn(s.ledgers, l) == events + [e]
    ensures Astray(s)
  {
    assert (events + [e])[|events|] == e;
    assert Misfiled(s.drafts, l, EventsIn(s.ledgers, l));
  }

  lemma {:induction false} StaleAppendGoesAstray(s: State, w: WriterId)
    requires FreshInv(s) && Enabled(s, Append(w)) && !Fresh(s, Append(w))
    ensures Astray(AfterAppend(s, w))
  {
    var Decided(prn, req, e) := s.writers[w];
    var events, s' := EventsIn(s.ledgers, req.ledger), AfterAppend(s, w);
    HeldFacts(s, w);
    assert WriterAgrees(s.drafts, s.ledgers, s.writers[w]);
    HeadIsLength(events);
    AfterAppendShape(s, w);
    if req.ledger == prn.ledger {
      OwnAppendSpoils(s.drafts[prn.id], s.store[prn.id], events, prn, req, e);
      assert HasSpoilt(s', prn.id);
    } else {
      MisdirectedAppendGoesAstray(s', req.ledger, events, e);
    }
  }

  /** A discard of a draft that has events spoils it; one of a draft without events was fresh. */
  lemma DiscardSpoilsIffAppended(draft: Prn, stored: Prn, events: Events, prn: Prn)
    requires Numbered(events) && DraftSound(draft, stored, events)
    requires prn.status.current == Draft && DocAgrees(draft, prn, events) && stored.status.current != Discarded
    ensures Content(prn) == Content(ProjectFromTail(stored, events)) <==> EventsOf(events, draft.id) == []
  {
    ProjectedIffComplete(draft, stored, events, prn);
    HeldIsPrefixOfAll(draft, prn, events);
    assert Content(prn).status == prn.status;
    FoldIsNotDiscarded(draft, EventsUpTo(events, draft.id, Reach(prn.watermark)));
  }

  /** What a discard that is written finds: the version it held, of a document not yet discarded. */
  lemma WrittenDiscard(s: State, w: WriterId)
    requires StandingInv(s) && Enabled(s, Discard(w))
    requires UpdateStatusOutcome(s.store, DiscardParams(s.writers[w].prn, s.writers[w].req)).Written?
    ensures var prn, s' := s.writers[w].prn, AfterDiscard(s, w);
      && prn.status.current == Draft && prn.id in s.store && s.store[prn.id].status.current != Discarded
      && s'.drafts == s.drafts && s'.ledgers == s.ledgers
      && prn.id in s'.store && s'.store[prn.id].status.current == Discarded
  {
    assert WriterStanding(s.store, s.writers[w]);
  }

  lemma {:induction false} StaleDiscardGoesAstray(s: State, w: WriterId)
    requires FreshInv(s) && Enabled(s, Discard(w)) && !Fresh(s, Discard(w))
    ensures Astray(AfterDiscard(s, w))
  {
    var prn := s.writers[w].prn;
    HeldFacts(s, w);
    WrittenDiscard(s, w);
    DiscardSpoilsIffAppended(s.drafts[prn.id], s.store[prn.id], EventsIn(s.ledgers, prn.ledger), prn);
    assert HasSpoilt(AfterDiscard(s, w), prn.id);
  }

  lemma {:induction false} StepAgreesOrGoesAstray(s: State, a: Action)
    requires FreshInv(s) && Enabled(s, a)
    ensures Fresh(s, a) ==> AgreementInv(Next(s, a))
    ensures !Fresh(s, a) ==> Astray(Next(s, a))
  {
    if Fresh(s, a) {
      StepKeepsAgreement(s, a);
    } else if a.Append? {
      StaleAppendGoesAstray(s, a.w);
    } else {
      StaleDiscardGoesAstray(s, a.w);
    }
  }

  // ----- once astray, a run stays astray -----

  /** Drafts stay, discarded documents stay discarded and ledgers only gain events. */
  ghost predicate CarriesOn(s: State, s': State) {
    && (forall id | id in s.drafts :: id in s'.drafts && s'.drafts[id] == s.drafts[id])
    && (forall id | id in s.store ::
          id in s'.store && (s.store[id].status.current == Discarded ==> s'.store[id].status.current == Discarded))
    && (forall l :: EventsIn(s.ledgers, l) <= EventsIn(s'.ledgers, l))
  }

  lemma PersistCarriesOn(s: State, w: WriterId, regulator: Regulator, draw: nat)
    requires StandingInv(s) && Enabled(s, Persist(w, regulator, draw))
    ensures CarriesOn(s, AfterPersist(s, w, regulator, draw))
  {
    assert WriterStanding(s.store, s.writers[w]);
    PersistStands(s.store, s.writers[w], regulator, draw);
    AfterPersistStanding(s, w, regulator, draw);
  }

  lemma DiscardCarriesOn(s: State, w: WriterId)
    requires StandingInv(s) && Enabled(s, Discard(w))
    ensures CarriesOn(s, AfterDiscard(s, w))
  {
    AfterDiscardShape(s, w);
  }

  lemma AppendCarriesOn(s: State, w: WriterId)
    requires Enabled(s, Append(w))
    ensures CarriesOn(s, AfterAppend(s, w))
  {
    AfterAppendShape(s, w);
  }

  lemma OtherStepsCarryOn(s: State, a: Action)
    requires s.drafts.Keys == s.store.Keys && Enabled(s, a) && !a.Append? && !a.Persist? && !a.Discard?
    ensures CarriesOn(s, Next(s, a))
  {}

  lemma {:induction false} StepCarriesOn(s: State, a: Action)
    requires StandingInv(s) && Enabled(s, a)
    ensures CarriesOn(s, Next(s, a))
  {
    match a {
      case Append(w) => AppendCarriesOn(s, w);
      case Persist(w, regulator, draw) => PersistCarriesOn(s, w, regulator, draw);
      case Discard(w) => DiscardCarriesOn(s, w);
      case _ => OtherStepsCarryOn(s, a);
    }
  }

  lemma {:induction false} EventsOfPrefix(events: Events, events': Events, id: PrnId)
    requires events <= events'
    ensures EventsOf(events, id) <= EventsOf(events', id)
  {
    if events' != events {
      var n := |events'| - 1;
      EventsOfPrefix(events, events'[..n], id);
    }
  }

  /** A stream that is no legal path stays so however it goes on. */
  lemma IllegalStaysIllegal(draft: Prn, es: Events, more: Events)
    requires AllPrnEvents(es) && AllPrnEvents(more)
    requires !LegalHistory(Fold(draft, es).status.history) && draft.status.history != []
    ensures AllPrnEvents(es + more) && !LegalHistory(Fold(draft, es + more).status.history)
  {
    FoldConcat(draft, es, more);
    FoldHistory(draft, es);
    FoldHistory(Fold(draft, es), more);
    var h, h' := Fold(draft, es).status.history, Fold(draft, es + more).status.history;
    assert h'[..|h|] == h;
    assert forall i | 0 <= i < |h| :: h'[i] == h'[..|h|][i];
  }

  lemma SpoiltStaysSpoilt(draft: Prn, stored: Prn, stored': Prn, events: Events, events': Events, id: PrnId)
    requires Spoilt(draft, stored, events, id) && events <= events'
    requires stored.status.current == Discarded ==> stored'.status.current == Discarded
    ensures Spoilt(draft, stored', events', id)
  {
    var es, es' := EventsOf(events, id), EventsOf(events', id);
    EventsOfPrefix(events, events', id);
    assert es + es'[|es|..] == es';
    if draft.status.history != [] && !LegalHistory(Fold(draft, es).status.history) {
      IllegalStaysIllegal(draft, es, es'[|es|..]);
    }
  }

  lemma {:induction false} AstrayStaysAstray(s: State, s': State)
    requires Astray(s) && CarriesOn(s, s')
    ensures Astray(s')
  {
    if l :| Misfiled(s.drafts, l, EventsIn(s.ledgers, l)) {
      assert Misfiled(s'.drafts, l, EventsIn(s'.ledgers, l));
    } else {
      var id :| HasSpoilt(s, id);
      SpoiltStaysSpoilt(s.drafts[id], s.store[id], s'.store[id], EventsIn(s.ledgers, s.drafts[id].ledger),
                        EventsIn(s'.ledgers, s.drafts[id].ledger), id);
      assert HasSpoilt(s', id);
    }
  }

  // ----- the exact theorems -----

  /** A run is fresh throughout, or astray. */
  lemma {:induction false} RunIsFreshOrAstray(actions: seq<Action>)
    requires Exec(actions, Anything).Some?
    ensures Exec(actions, Fresh).Some? ==> Exec(actions, Fresh) == Exec(actions, Anything)
    ensures Exec(actions, Fresh).None? ==> Astray(Exec(actions, Anything).value)
  {
    if actions != [] {
      var front, a := actions[..|actions| - 1], actions[|actions| - 1];
      RunIsFreshOrAstray(front);
      var s := Exec(front, Anything).value;
      RunKeepsStanding(front, Anything);
      if Exec(front, Fresh).Some? {
        RunKeepsFreshInv(front);
        StepAgreesOrGoesAstray(s, a);
      } else {
        StepCarriesOn(s, a);
        AstrayStaysAstray(s, Next(s, a));
      }
    }
  }

  /**
   * In every interleaving, with crashes anywhere and whatever registrations the requests name: documents agree with the
   * ledger at the end if and only if every append that took its slot and every discard that was written was fresh.
   */
  lemma {:induction false} RunAgreesIffFresh(actions: seq<Action>)
    requires Exec(actions, Anything).Some?
    ensures var s := Exec(actions, Anything).value;
      DocsAgree(s.drafts, s.store, s.ledgers) <==> Exec(actions, Fresh).Some?
  {
    RunIsFreshOrAstray(actions);
    if Exec(actions, Fresh).Some? {
      RunKeepsAgreement(actions);
    } else {
      AstrayDisagrees(Exec(actions, Anything).value);
    }
  }

  /** One step on: from a fresh run, documents still agree after any step if and only if that step is fresh. */
  lemma {:induction false} StepAgreesIffFresh(actions: seq<Action>, a: Action)
    requires Exec(actions, Fresh).Some? && Enabled(Exec(actions, Fresh).value, a)
    ensures var s, s' := Exec(actions, Fresh).value, Next(Exec(actions, Fresh).value, a);
      DocsAgree(s'.drafts, s'.store, s'.ledgers) <==> Fresh(s, a)
  {
    RunKeepsFreshInv(actions);
    var s := Exec(actions, Fresh).value;
    StepAgreesOrGoesAstray(s, a);
    if !Fresh(s, a) {
      AstrayDisagrees(Next(s, a));
    }
  }

  /**
   * What the writer would have to check: from a fresh run, documents agree after an append that takes its slot if and
   * only if the request names the PRN's own ledger, no event of the PRN follows the watermark the writer holds, and the
   * PRN has not been discarded.
   */
  lemma {:induction false} AppendAgreesIffNothingMissed(actions: seq<Action>, w: WriterId)
    requires Exec(actions, Fresh).Some?
    requires var s := Exec(actions, Fresh).value;
      Enabled(s, Append(w)) && AppendEvent(EventsIn(s.ledgers, s.writers[w].req.ledger), s.writers[w].event).Success?
    ensures var s, s' := Exec(actions, Fresh).value, AfterAppend(Exec(actions, Fresh).value, w);
      var prn, req := s.writers[w].prn, s.writers[w].req;
      && prn.id in s.store
      && (DocsAgree(s'.drafts, s'.store, s'.ledgers) <==>
            req.ledger == prn.ledger && TailOf(prn, OwnEvents(s, prn)) == [] && s.store[prn.id].status.current != Discarded)
  {
    RunKeepsFreshInv(actions);
    var s := Exec(actions, Fresh).value;
    StepAgreesIffFresh(actions, Append(w));
    HeldFacts(s, w);
    var prn := s.writers[w].prn;
    ProjectedIffComplete(s.drafts[prn.id], s.store[prn.id], EventsIn(s.ledgers, prn.ledger), prn);
  }

  /** And after a discard that is written if and only if the ledger has no event of the PRN, whatever ledger is named. */
  lemma {:induction false} DiscardAgreesIffNeverAppended(actions: seq<Action>, w: WriterId)
    requires Exec(actions, Fresh).Some?
    requires var s := Exec(actions, Fresh).value;
      Enabled(s, Discard(w)) && UpdateStatusOutcome(s.store, DiscardParams(s.writers[w].prn, s.writers[w].req)).Written?
    ensures var s, s' := Exec(actions, Fresh).value, AfterDiscard(Exec(actions, Fresh).value, w);
      var prn := s.writers[w].prn;
      DocsAgree(s'.drafts, s'.store, s'.ledgers) <==> EventsOf(OwnEvents(s, prn), prn.id) == []
  {
    RunKeepsFreshInv(actions);
    var s := Exec(actions, Fresh).value;
    StepAgreesIffFresh(actions, Discard(w));
    HeldFacts(s, w);
    WrittenDiscard(s, w);
    var prn := s.writers[w].prn;
    DiscardSpoilsIffAppended(s.drafts[prn.id], s.store[prn.id], EventsIn(s.ledgers, prn.ledger), prn);
  }
}

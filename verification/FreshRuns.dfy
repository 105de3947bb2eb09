/**
 * Log and document agreement over runs whose ledger appends and discards are fresh: when an append takes its slot, or a
 * discard is written, the PRN the writer holds is what a projected read would return, and an append goes to the PRN's
 * own ledger. `Freshness` shows that nothing less will do.
 */
module FreshRuns {
  import opened Wrappers
  import opened PrnModel
  import opened Ledger
  import opened PrnFold
  import opened PrnStore
  import opened PrnNumber
  import opened PrnProtocol
  import opened Interleavings

  /** The writer holds what a projected read of the PRN would return now. */
  predicate HoldsProjected(s: State, prn: Prn) {
    prn.id in s.store && Content(prn) == Content(Projected(s, prn.id))
  }

  predicate FreshSnapshot(s: State, prn: Prn, req: Request) {
    HoldsProjected(s, prn) && req.ledger == prn.ledger
  }

  /** The guard: only appends that take their slot, and discards that are written, need be fresh. */
  predicate Fresh(s: State, a: Action) {
    match a
    case Append(w) =>
      w in s.writers && s.writers[w].Decided?
        && AppendEvent(EventsIn(s.ledgers, s.writers[w].req.ledger), s.writers[w].event).Success?
      ==> FreshSnapshot(s, s.writers[w].prn, s.writers[w].req)
    case Discard(w) =>
      w in s.writers && s.writers[w].Holding?
        && UpdateStatusOutcome(s.store, DiscardParams(s.writers[w].prn, s.writers[w].req)).Written?
      ==> HoldsProjected(s, s.writers[w].prn)
    case _ => true
  }

  /** A draft discarded without ever reaching the ledger. */
  predicate IsDiscardOf(draft: Prn, prn: Prn) {
    && prn.watermark == None
    && prn.status.history == draft.status.history + [HistoryItem(Discarded, prn.updatedAt, prn.updatedBy)]
    && Content(prn) == draft.(
         updatedAt := prn.updatedAt,
         updatedBy := prn.updatedBy,
         status := StatusBlock(Discarded, prn.updatedAt, draft.status.slots, prn.status.history))
  }

  /** A stored document is the fold of its draft over its events up to its watermark, or a discarded draft without events. */
  ghost predicate DocAgrees(draft: Prn, prn: Prn, events: Events) {
    if prn.status.current == Discarded
    then EventsOf(events, draft.id) == [] && IsDiscardOf(draft, prn)
    else Content(prn) == Fold(draft, EventsUpTo(events, draft.id, Reach(prn.watermark)))
  }

  /** The event a writer decided is the one the ledger prefix below its slot calls for. */
  ghost predicate DecidedAt(events: Events, prn: Prn, req: Request, event: LedgerEvent) {
    var head := event.number - 1;
    && head <= |events|
    && CommandFor(prn.status.current, req.newStatus).Some?
    && var kind := CommandFor(prn.status.current, req.newStatus).value;
      && event.body == PrnEvent(kind, prn.id, prn.tonnage)
      && event.opening == CurrentBalance(events[..head])
      && event.closing == ClosingForPrn(event.opening, kind, prn.tonnage)
  }

  ghost predicate WriterAgrees(drafts: map<PrnId, Prn>, ledgers: Ledgers, w: Writer) {
    match w
    case Decided(prn, req, event) => DecidedAt(EventsIn(ledgers, req.ledger), prn, req, event)
    case Appended(_, _, projection, _) =>
      && projection.id in drafts
      && projection.status.current != Discarded && projection.watermark.Some?
      && DocAgrees(drafts[projection.id], projection, EventsIn(ledgers, drafts[projection.id].ledger))
    case _ => true
  }

  /** A PRN event belongs to its PRN's own ledger and carries its tonnage. */
  ghost predicate EventsBelong(drafts: map<PrnId, Prn>, l: LedgerId, events: Events) {
    forall i | 0 <= i < |events| && events[i].body.PrnEvent? ::
      && events[i].body.prnId in drafts
      && drafts[events[i].body.prnId].ledger == l
      && events[i].body.amount == drafts[events[i].body.prnId].tonnage
  }

  ghost predicate DraftSound(draft: Prn, stored: Prn, events: Events) {
    && IsNewDraft(draft)
    && LegalHistory(Fold(draft, EventsOf(events, draft.id)).status.history)
    && DocAgrees(draft, stored, events)
  }

  ghost predicate DocsAgree(drafts: map<PrnId, Prn>, store: Store, ledgers: Ledgers) {
    && drafts.Keys == store.Keys
    && LedgersNumbered(ledgers)
    && (forall l | l in ledgers :: EventsBelong(drafts, l, ledgers[l]))
    && (forall id | id in drafts :: drafts[id].id == id && DraftSound(drafts[id], store[id], EventsIn(ledgers, drafts[id].ledger)))
  }

  ghost predicate AgreementInv(s: State) {
    && DocsAgree(s.drafts, s.store, s.ledgers)
    && (forall w | w in s.writers :: WriterAgrees(s.drafts, s.ledgers, s.writers[w]))
  }

  // ----- what agreement gives a reader -----

  lemma DocStaysInLedger(draft: Prn, prn: Prn, events: Events)
    requires IsNewDraft(draft) && Numbered(events) && DocAgrees(draft, prn, events)
    ensures prn.id == draft.id && prn.ledger == draft.ledger && prn.tonnage == draft.tonnage
    ensures Reach(prn.watermark) <= |events|
  {
    FoldFrame(draft, EventsUpTo(events, draft.id, Reach(prn.watermark)));
    if prn.status.current != Discarded {
      assert prn.watermark == Content(prn).watermark;
      WatermarkOfPrefix(draft, events, Reach(prn.watermark));
    }
  }

  /** After deletion a legal stream has no further event, so the short-circuit of the projected read skips none. */
  lemma DeletedSkipsNothing(draft: Prn, prn: Prn, events: Events)
    requires IsNewDraft(draft) && Numbered(events)
    requires Content(prn) == Fold(draft, EventsUpTo(events, draft.id, Reach(prn.watermark)))
    requires LegalHistory(Fold(draft, EventsOf(events, draft.id)).status.history)
    requires prn.status.current == Deleted
    ensures EventsAfter(events, draft.id, Reach(prn.watermark)) == []
  {
    var head, tail := EventsUpTo(events, draft.id, Reach(prn.watermark)), EventsAfter(events, draft.id, Reach(prn.watermark));
    EventsSplit(events, draft.id, Reach(prn.watermark));
    FoldConcat(draft, head, tail);
    assert Content(prn).status == prn.status;
    FoldIsNotDiscarded(draft, head);
    FoldHistory(Fold(draft, head), tail);
    var n := |Fold(draft, head).status.history|;
    var h := Fold(draft, head + tail).status.history;
    assert h[n - 1] == Fold(draft, head).status.history[n - 1];
    DeletedEndsHistory(h, n - 1);
  }

  lemma DeletedEndsHistory(history: seq<HistoryItem>, i: nat)
    requires LegalHistory(history) && i < |history| && history[i].status == Deleted
    ensures i == |history| - 1
  {
    var next := i + 1;
    assert next < |history| ==> CanMove(history[next - 1].status, history[next].status);
  }

  /** A projected read of a document that agrees returns the fold of its draft over all its events. */
  lemma ProjectedIsFoldOfAll(draft: Prn, prn: Prn, events: Events)
    requires IsNewDraft(draft) && Numbered(events) && DocAgrees(draft, prn, events)
    requires LegalHistory(Fold(draft, EventsOf(events, draft.id)).status.history)
    ensures prn.status.current != Discarded ==>
      Content(ProjectFromTail(prn, events)) == Fold(draft, EventsOf(events, draft.id))
    ensures prn.status.current == Discarded ==> ProjectFromTail(prn, events) == prn
  {
    DocStaysInLedger(draft, prn, events);
    if prn.status.current != Discarded {
      var m := Reach(prn.watermark);
      FoldContent(prn, TailOf(prn, events));
      EventsSplit(events, draft.id, m);
      FoldConcat(draft, EventsUpTo(events, draft.id, m), EventsAfter(events, draft.id, m));
      if prn.status.current == Deleted {
        DeletedSkipsNothing(draft, prn, events);
        assert EventsUpTo(events, draft.id, m) == EventsOf(events, draft.id);
      }
    } else {
      EventsSplit(events, draft.id, 0);
    }
  }

  lemma HistoryOfPrefixIsLegal(draft: Prn, events: Events, n: nat)
    requires Numbered(events) && IsNewDraft(draft)
    requires LegalHistory(Fold(draft, EventsOf(events, draft.id)).status.history)
    ensures LegalHistory(Fold(draft, EventsUpTo(events, draft.id, n)).status.history)
  {
    var head, tail := EventsUpTo(events, draft.id, n), EventsAfter(events, draft.id, n);
    EventsSplit(events, draft.id, n);
    FoldConcat(draft, head, tail);
    FoldHistory(Fold(draft, head), tail);
    var h, whole := Fold(draft, head).status.history, Fold(draft, head + tail).status.history;
    FoldHistory(draft, head);
    assert forall i | 0 <= i < |h| :: h[i] == whole[i];
  }

  // ----- keeping agreement -----

  /** An event about another PRN, or one a document has not absorbed, leaves the document in agreement. */
  lemma AppendKeepsDoc(draft: Prn, prn: Prn, events: Events, e: LedgerEvent)
    requires IsNewDraft(draft) && Numbered(events) && e.number == |events| + 1
    requires DocAgrees(draft, prn, events)
    requires IsAbout(e, draft.id) ==> prn.status.current != Discarded
    ensures DocAgrees(draft, prn, events + [e])
  {
    DocStaysInLedger(draft, prn, events);
    EventsAfterSnoc(events, e, draft.id, Reach(prn.watermark));
    EventsAfterSnoc(events, e, draft.id, 0);
  }

  lemma AppendKeepsWriter(drafts: map<PrnId, Prn>, ledgers: Ledgers, l: LedgerId, e: LedgerEvent, w: Writer)
    requires LedgersNumbered(ledgers) && e.number == |EventsIn(ledgers, l)| + 1
    requires forall id | id in drafts :: drafts[id].id == id && IsNewDraft(drafts[id])
    requires WriterAgrees(drafts, ledgers, w)
    ensures WriterAgrees(drafts, ledgers[l := EventsIn(ledgers, l) + [e]], w)
  {
    var events := EventsIn(ledgers, l);
    if w.Appended? && drafts[w.projection.id].ledger == l {
      AppendKeepsDoc(drafts[w.projection.id], w.projection, events, e);
    }
    if w.Decided? && w.req.ledger == l {
      assert (events + [e])[..w.event.number - 1] == events[..w.event.number - 1];
    }
  }

  /** What a fresh writer with a ledger command holds is the fold of the draft over all its events. */
  lemma FreshSnapshotIsFoldOfAll(draft: Prn, stored: Prn, events: Events, prn: Prn)
    requires IsNewDraft(draft) && Numbered(events)
    requires DocAgrees(draft, stored, events)
    requires LegalHistory(Fold(draft, EventsOf(events, draft.id)).status.history)
    requires Content(prn) == Content(ProjectFromTail(stored, events))
    ensures prn.status.current == Discarded <==> stored.status.current == Discarded
    ensures prn.status.current != Discarded ==> Content(prn) == Fold(draft, EventsOf(events, draft.id))
    ensures prn.id == draft.id && prn.ledger == draft.ledger && prn.tonnage == draft.tonnage
  {
    var all := EventsOf(events, draft.id);
    ProjectedIsFoldOfAll(draft, stored, events);
    FoldFrame(draft, all);
    assert Content(prn).status == prn.status && Content(prn).id == prn.id
        && Content(prn).ledger == prn.ledger && Content(prn).tonnage == prn.tonnage;
    assert Content(ProjectFromTail(stored, events)).status == ProjectFromTail(stored, events).status;
    FoldIsNotDiscarded(draft, all);
  }

  lemma FoldIsNotDiscarded(draft: Prn, events: Events)
    requires IsNewDraft(draft) && AllPrnEvents(events)
    ensures Mirrors(Fold(draft, events))
    ensures Fold(draft, events).status.current != Discarded
    ensures Fold(draft, events).status.current == Draft <==> events == []
  {
    if events != [] {
      FoldMirrorsLastEvent(draft, events);
    }
  }

  /** The heart: a fresh append extends the legal stream by one event and leaves a projection that has absorbed it. */
  lemma FreshAppend(draft: Prn, stored: Prn, events: Events, prn: Prn, req: Request, e: LedgerEvent)
    requires IsNewDraft(draft) && Numbered(events) && e.number == |events| + 1
    requires DocAgrees(draft, stored, events)
    requires LegalHistory(Fold(draft, EventsOf(events, draft.id)).status.history)
    requires Content(prn) == Content(ProjectFromTail(stored, events))
    requires DecidedAt(events, prn, req, e)
    ensures prn.id == draft.id && IsAbout(e, draft.id) && e.body.amount == draft.tonnage && prn.ledger == draft.ledger
    ensures stored.status.current != Discarded
    ensures prn.status.current == Fold(draft, EventsOf(events, draft.id)).status.current
    ensures EventsOf(events + [e], draft.id) == EventsOf(events, draft.id) + [e]
    ensures LegalHistory(Fold(draft, EventsOf(events + [e], draft.id)).status.history)
    ensures DocAgrees(draft, ApplyPrnEvent(prn, e), events + [e])
  {
    var all := EventsOf(events, draft.id);
    CommandsFollowTheTable(prn.status.current, req.newStatus);
    CommandReachesItsStatus(prn.status.current, req.newStatus);
    FreshSnapshotIsFoldOfAll(draft, stored, events, prn);
    assert Content(prn).status == prn.status;
    EventsAfterSnoc(events, e, draft.id, 0);
    FoldSnoc(draft, all, e);
    LegalStep(draft, all, e);
    AppendedDocAgrees(draft, prn, events, e);
  }

  lemma AppendedDocAgrees(draft: Prn, prn: Prn, events: Events, e: LedgerEvent)
    requires IsNewDraft(draft) && Numbered(events) && e.number == |events| + 1 && IsAbout(e, draft.id)
    requires Content(prn) == Fold(draft, EventsOf(events, draft.id))
    ensures DocAgrees(draft, ApplyPrnEvent(prn, e), events + [e])
  {
    EventsAfterSnoc(events, e, draft.id, 0);
    EventsSplit(events + [e], draft.id, e.number);
    assert EventsUpTo(events + [e], draft.id, e.number) == EventsOf(events + [e], draft.id);
    FoldSnoc(draft, EventsOf(events, draft.id), e);
    assert Content(ApplyPrnEvent(prn, e)) == ApplyPrnEvent(Content(prn), e);
  }

  lemma LegalStep(draft: Prn, all: Events, e: LedgerEvent)
    requires IsNewDraft(draft) && AllPrnEvents(all) && e.body.PrnEvent?
    requires LegalHistory(Fold(draft, all).status.history)
    requires CanMove(Fold(draft, all).status.current, StatusOfKind(e.body.kind))
    ensures LegalHistory(ApplyPrnEvent(Fold(draft, all), e).status.history)
  {
    FoldIsNotDiscarded(draft, all);
  }

  lemma BelongingSnoc(drafts: map<PrnId, Prn>, l: LedgerId, events: Events, e: LedgerEvent)
    requires EventsBelong(drafts, l, events)
    requires e.body.PrnEvent? ==> e.body.prnId in drafts && drafts[e.body.prnId].ledger == l && e.body.amount == drafts[e.body.prnId].tonnage
    ensures EventsBelong(drafts, l, events + [e])
  {}

  /** What an append to one ledger must establish: everything about other PRNs and other ledgers follows. */
  ghost predicate GrowsAgreeably(drafts: map<PrnId, Prn>, store: Store, ledgers: Ledgers, l: LedgerId, e: LedgerEvent) {
    && e.number == |EventsIn(ledgers, l)| + 1
    && (e.body.PrnEvent? ==>
        var id := e.body.prnId;
        && id in drafts && id in store && drafts[id].ledger == l && e.body.amount == drafts[id].tonnage
        && store[id].status.current != Discarded
        && LegalHistory(Fold(drafts[id], EventsOf(EventsIn(ledgers, l) + [e], id)).status.history))
  }

  lemma LedgerGrowthKeepsDraft(draft: Prn, stored: Prn, events: Events, e: LedgerEvent)
    requires Numbered(events) && e.number == |events| + 1
    requires DraftSound(draft, stored, events)
    requires IsAbout(e, draft.id) ==>
      stored.status.current != Discarded && LegalHistory(Fold(draft, EventsOf(events + [e], draft.id)).status.history)
    ensures DraftSound(draft, stored, events + [e])
  {
    AppendKeepsDoc(draft, stored, events, e);
    EventsAfterSnoc(events, e, draft.id, 0);
  }

  lemma LedgerGrowthKeepsBelonging(drafts: map<PrnId, Prn>, ledgers: Ledgers, l: LedgerId, e: LedgerEvent)
    requires LedgersNumbered(ledgers) && (forall l | l in ledgers :: EventsBelong(drafts, l, ledgers[l]))
    requires e.number == |EventsIn(ledgers, l)| + 1
    requires e.body.PrnEvent? ==> e.body.prnId in drafts && drafts[e.body.prnId].ledger == l && e.body.amount == drafts[e.body.prnId].tonnage
    ensures var ledgers' := ledgers[l := EventsIn(ledgers, l) + [e]];
      LedgersNumbered(ledgers') && forall l | l in ledgers' :: EventsBelong(drafts, l, ledgers'[l])
  {
    BelongingSnoc(drafts, l, EventsIn(ledgers, l), e);
  }

  lemma {:induction false} LedgerGrowthKeepsDocs(drafts: map<PrnId, Prn>, store: Store, ledgers: Ledgers, l: LedgerId, e: LedgerEvent)
    requires DocsAgree(drafts, store, ledgers) && GrowsAgreeably(drafts, store, ledgers, l, e)
    ensures DocsAgree(drafts, store, ledgers[l := EventsIn(ledgers, l) + [e]])
  {
    var ledgers' := ledgers[l := EventsIn(ledgers, l) + [e]];
    LedgerGrowthKeepsBelonging(drafts, ledgers, l, e);
    forall id | id in drafts ensures DraftSound(drafts[id], store[id], EventsIn(ledgers', drafts[id].ledger)) {
      LedgerGrowthKeepsOneDraft(drafts, store, ledgers, l, e, id);
    }
  }

  lemma {:induction false} LedgerGrowthKeepsOneDraft(drafts: map<PrnId, Prn>, store: Store, ledgers: Ledgers, l: LedgerId, e: LedgerEvent, id: PrnId)
    requires DocsAgree(drafts, store, ledgers) && GrowsAgreeably(drafts, store, ledgers, l, e) && id in drafts
    ensures DraftSound(drafts[id], store[id], EventsIn(ledgers[l := EventsIn(ledgers, l) + [e]], drafts[id].ledger))
  {
    if drafts[id].ledger == l {
      LedgerGrowthKeepsDraft(drafts[id], store[id], EventsIn(ledgers, l), e);
    }
  }

  lemma {:induction false} LedgerGrowthKeepsAgreement(s: State, l: LedgerId, e: LedgerEvent)
    requires AgreementInv(s) && GrowsAgreeably(s.drafts, s.store, s.ledgers, l, e)
    ensures AgreementInv(s.(ledgers := s.ledgers[l := EventsIn(s.ledgers, l) + [e]]))
  {
    var ledgers' := s.ledgers[l := EventsIn(s.ledgers, l) + [e]];
    LedgerGrowthKeepsDocs(s.drafts, s.store, s.ledgers, l, e);
    forall w | w in s.writers ensures WriterAgrees(s.drafts, ledgers', s.writers[w]) {
      AppendKeepsWriter(s.drafts, s.ledgers, l, e, s.writers[w]);
    }
  }

  lemma SetWriterKeepsAgreement(s: State, w: WriterId, writer: Writer)
    requires AgreementInv(s) && WriterAgrees(s.drafts, s.ledgers, writer)
    ensures AgreementInv(With(s, w, writer))
  {}

  lemma {:induction false} AppendKeepsAgreement(s: State, w: WriterId)
    requires AgreementInv(s) && Enabled(s, Append(w)) && Fresh(s, Append(w))
    ensures AgreementInv(AfterAppend(s, w))
  {
    var Decided(prn, req, e) := s.writers[w];
    assert WriterAgrees(s.drafts, s.ledgers, s.writers[w]);
    var events := EventsIn(s.ledgers, req.ledger);
    match AppendEvent(events, e) {
      case Failure(err) => SetWriterKeepsAgreement(s, w, Finished(CommandFailed(err)));
      case Success(_) =>
        HeadIsLength(events);
        var draft, stored := s.drafts[prn.id], s.store[prn.id];
        assert DraftSound(draft, stored, EventsIn(s.ledgers, draft.ledger));
        DocStaysInLedger(draft, stored, EventsIn(s.ledgers, draft.ledger));
        FreshSnapshotIsFoldOfAll(draft, stored, EventsIn(s.ledgers, draft.ledger), prn);
        FreshAppend(draft, stored, events, prn, req, e);
        LedgerGrowthKeepsAgreement(s, req.ledger, e);
        SingleEventFold(prn, e);
        CommandReachesItsStatus(prn.status.current, req.newStatus);
        SetWriterKeepsAgreement(s.(ledgers := s.ledgers[req.ledger := events + [e]]), w, ProjectAppended(prn, req, e));
    }
  }

  lemma ReplaceStored(draft: Prn, stored: Prn, prn: Prn, events: Events)
    requires DraftSound(draft, stored, events) && DocAgrees(draft, prn, events)
    ensures DraftSound(draft, prn, events)
  {}

  lemma WriteKeepsDocs(drafts: map<PrnId, Prn>, store: Store, ledgers: Ledgers, prn: Prn)
    requires DocsAgree(drafts, store, ledgers) && prn.id in drafts
    requires DocAgrees(drafts[prn.id], prn, EventsIn(ledgers, drafts[prn.id].ledger))
    ensures DocsAgree(drafts, store[prn.id := prn], ledgers)
  {
    ReplaceStored(drafts[prn.id], store[prn.id], prn, EventsIn(ledgers, drafts[prn.id].ledger));
  }

  lemma SameContentAgrees(draft: Prn, a: Prn, b: Prn, events: Events)
    requires DocAgrees(draft, a, events) && Content(a) == Content(b) && a.status.current != Discarded
    ensures DocAgrees(draft, b, events)
  {
    assert Content(a).status == a.status && Content(b).status == b.status;
    assert Content(a).watermark == a.watermark && Content(b).watermark == b.watermark;
  }

  lemma AttemptedContent(w: Writer, regulator: Regulator, draw: nat)
    requires w.Appended? && w.attempts < MAX_ATTEMPTS && draw < RANDOM_SUFFIX_RANGE
    ensures Content(Attempted(w, regulator, draw)) == Content(w.projection)
    ensures Attempted(w, regulator, draw).id == w.projection.id
  {}

  /** Persisting any document with the content of an agreeing projection leaves the documents in agreement. */
  lemma PersistKeepsDocs(drafts: map<PrnId, Prn>, store: Store, ledgers: Ledgers, projection: Prn, attempted: Prn, expected: int)
    requires DocsAgree(drafts, store, ledgers)
    requires attempted.id in drafts && projection.status.current != Discarded
    requires Content(attempted) == Content(projection)
    requires DocAgrees(drafts[attempted.id], projection, EventsIn(ledgers, drafts[attempted.id].ledger))
    ensures DocsAgree(drafts, AfterWrite(store, PersistOutcome(store, attempted, expected)), ledgers)
  {
    var outcome := PersistOutcome(store, attempted, expected);
    if outcome.Written? {
      var draft := drafts[attempted.id];
      assert Content(outcome.prn) == Content(attempted);
      SameContentAgrees(draft, projection, outcome.prn, EventsIn(ledgers, draft.ledger));
      WriteKeepsDocs(drafts, store, ledgers, outcome.prn);
    }
  }

  /** A step that leaves drafts and ledgers alone and sets one writer. */
  lemma StoreStepKeepsAgreement(s: State, s': State, w: WriterId)
    requires AgreementInv(s)
    requires s'.drafts == s.drafts && s'.ledgers == s.ledgers
    requires DocsAgree(s.drafts, s'.store, s.ledgers)
    requires w in s'.writers && s'.writers == s.writers[w := s'.writers[w]]
    requires WriterAgrees(s.drafts, s.ledgers, s'.writers[w])
    ensures AgreementInv(s')
  {}

  lemma AfterPersistWriterAgrees(s: State, w: WriterId, regulator: Regulator, draw: nat)
    requires Enabled(s, Persist(w, regulator, draw))
    requires WriterAgrees(s.drafts, s.ledgers, s.writers[w])
    ensures var s' := AfterPersist(s, w, regulator, draw);
      && s'.drafts == s.drafts && s'.ledgers == s.ledgers
      && s'.store == AfterWrite(s.store, PersistOutcome(s.store, Attempted(s.writers[w], regulator, draw), s.writers[w].prn.version))
      && w in s'.writers && s'.writers == s.writers[w := s'.writers[w]]
      && WriterAgrees(s.drafts, s.ledgers, s'.writers[w])
  {
    var writer := s.writers[w];
    assert WriterAgrees(s.drafts, s.ledgers, AfterNumberConflict(writer));
  }

  lemma {:induction false} PersistKeepsAgreement(s: State, w: WriterId, regulator: Regulator, draw: nat)
    requires AgreementInv(s) && Enabled(s, Persist(w, regulator, draw))
    ensures AgreementInv(AfterPersist(s, w, regulator, draw))
  {
    var writer := s.writers[w];
    assert WriterAgrees(s.drafts, s.ledgers, writer);
    var attempted := Attempted(writer, regulator, draw);
    AttemptedContent(writer, regulator, draw);
    PersistKeepsDocs(s.drafts, s.store, s.ledgers, writer.projection, attempted, writer.prn.version);
    AfterPersistWriterAgrees(s, w, regulator, draw);
    StoreStepKeepsAgreement(s, AfterPersist(s, w, regulator, draw), w);
  }

  /** A fresh discard finds a draft without events and leaves a discarded draft without events. */
  lemma FreshDiscard(draft: Prn, stored: Prn, events: Events, prn: Prn, req: Request)
    requires Numbered(events)
    requires DraftSound(draft, stored, events)
    requires Content(prn) == Content(ProjectFromTail(stored, events))
    requires IsDiscard(prn, req)
    ensures stored.id == draft.id
    ensures DocAgrees(draft, UpdatedDoc(stored, DiscardParams(prn, req)), events)
  {
    FreshSnapshotIsFoldOfAll(draft, stored, events, prn);
    assert Content(prn).status == prn.status && Content(prn).watermark == prn.watermark;
    FoldIsNotDiscarded(draft, EventsOf(events, draft.id));
    EventsSplit(events, draft.id, Reach(stored.watermark));
    assert Content(stored) == draft;
    assert Content(stored).watermark == stored.watermark && Content(stored).status == stored.status;
  }

  lemma {:induction false} DiscardKeepsDocs(drafts: map<PrnId, Prn>, store: Store, ledgers: Ledgers, prn: Prn, req: Request)
    requires DocsAgree(drafts, store, ledgers) && IsDiscard(prn, req)
    requires UpdateStatusOutcome(store, DiscardParams(prn, req)).Written? ==>
      && prn.id in store
      && Content(prn) == Content(ProjectFromTail(store[prn.id], EventsIn(ledgers, store[prn.id].ledger)))
    ensures DocsAgree(drafts, AfterWrite(store, UpdateStatusOutcome(store, DiscardParams(prn, req))), ledgers)
  {
    var outcome := UpdateStatusOutcome(store, DiscardParams(prn, req));
    if outcome.Written? {
      var draft, stored := drafts[prn.id], store[prn.id];
      assert DraftSound(draft, stored, EventsIn(ledgers, draft.ledger));
      DocStaysInLedger(draft, stored, EventsIn(ledgers, draft.ledger));
      FreshDiscard(draft, stored, EventsIn(ledgers, draft.ledger), prn, req);
      WriteKeepsDocs(drafts, store, ledgers, outcome.prn);
    }
  }

  lemma {:induction false} DiscardKeepsAgreement(s: State, w: WriterId)
    requires AgreementInv(s) && Enabled(s, Discard(w)) && Fresh(s, Discard(w))
    ensures AgreementInv(AfterDiscard(s, w))
  {
    DiscardKeepsDocs(s.drafts, s.store, s.ledgers, s.writers[w].prn, s.writers[w].req);
    AfterDiscardShape(s, w);
    StoreStepKeepsAgreement(s, AfterDiscard(s, w), w);
  }

  lemma NoEventsBefore(drafts: map<PrnId, Prn>, l: LedgerId, events: Events, id: PrnId, n: nat)
    requires EventsBelong(drafts, l, events) && id !in drafts
    ensures EventsUpTo(events, id, n) == [] && EventsAfter(events, id, n) == []
  {
    if events != [] {
      NoEventsBefore(drafts, l, events[..|events| - 1], id, n);
    }
  }

  lemma NewDraftSound(drafts: map<PrnId, Prn>, l: LedgerId, events: Events, prn: Prn)
    requires EventsBelong(drafts, l, events) && IsNewDraft(prn) && prn.id !in drafts
    ensures DraftSound(prn, prn, events)
  {
    NoEventsBefore(drafts, l, events, prn.id, 0);
    assert Content(prn) == prn;
  }

  lemma CreateKeepsBelonging(drafts: map<PrnId, Prn>, l: LedgerId, events: Events, prn: Prn)
    requires EventsBelong(drafts, l, events) && prn.id !in drafts
    ensures EventsBelong(drafts[prn.id := prn], l, events)
  {}

  lemma CreateKeepsDocs(drafts: map<PrnId, Prn>, store: Store, ledgers: Ledgers, prn: Prn)
    requires DocsAgree(drafts, store, ledgers) && IsNewDraft(prn) && prn.id !in store
    ensures DocsAgree(drafts[prn.id := prn], store[prn.id := prn], ledgers)
  {
    var drafts', store' := drafts[prn.id := prn], store[prn.id := prn];
    forall l | l in ledgers ensures EventsBelong(drafts', l, ledgers[l]) {
      CreateKeepsBelonging(drafts, l, ledgers[l], prn);
    }
    forall id | id in drafts'
      ensures drafts'[id].id == id && DraftSound(drafts'[id], store'[id], EventsIn(ledgers, drafts'[id].ledger))
    {
      CreateKeepsOneDraft(drafts, store, ledgers, prn, id);
    }
  }

  lemma CreateKeepsOneDraft(drafts: map<PrnId, Prn>, store: Store, ledgers: Ledgers, prn: Prn, id: PrnId)
    requires DocsAgree(drafts, store, ledgers) && IsNewDraft(prn) && prn.id !in store
    requires id in drafts || id == prn.id
    ensures id == prn.id ==> DraftSound(prn, prn, EventsIn(ledgers, prn.ledger))
    ensures id != prn.id ==> drafts[id].id == id && id in store && DraftSound(drafts[id], store[id], EventsIn(ledgers, drafts[id].ledger))
  {
    if id == prn.id {
      NewDraftSound(drafts, prn.ledger, EventsIn(ledgers, prn.ledger), prn);
    }
  }

  lemma {:induction false} CreateKeepsAgreement(s: State, prn: Prn)
    requires AgreementInv(s) && Enabled(s, Create(prn))
    ensures AgreementInv(AfterCreate(s, prn))
  {
    CreateKeepsDocs(s.drafts, s.store, s.ledgers, prn);
    var drafts' := s.drafts[prn.id := prn];
    forall w | w in s.writers ensures WriterAgrees(drafts', s.ledgers, s.writers[w]) {
      assert WriterAgrees(s.drafts, s.ledgers, s.writers[w]);
    }
  }

  lemma DecideKeepsAgreement(drafts: map<PrnId, Prn>, ledgers: Ledgers, prn: Prn, req: Request, at: Instant, canIssue: bool)
    requires LedgersNumbered(ledgers)
    ensures WriterAgrees(drafts, ledgers, DecideFor(prn, req, EventsIn(ledgers, req.ledger), at, canIssue))
  {
    var events := EventsIn(ledgers, req.ledger);
    HeadIsLength(events);
    assert events[..|events|] == events;
  }

  lemma {:induction false} SubmitKeepsAgreement(s: State, ledger: LedgerId, e: LedgerEvent)
    requires AgreementInv(s) && !e.body.PrnEvent? && e.number == Head(EventsIn(s.ledgers, ledger)) + 1
    ensures AgreementInv(AfterSubmit(s, ledger, e))
  {
    HeadIsLength(EventsIn(s.ledgers, ledger));
    LedgerGrowthKeepsAgreement(s, ledger, e);
  }

  lemma {:induction false} DecideStepKeepsAgreement(s: State, w: WriterId, at: Instant, canIssue: bool)
    requires AgreementInv(s) && Enabled(s, DecideEvent(w, at, canIssue))
    ensures AgreementInv(Next(s, DecideEvent(w, at, canIssue)))
  {
    var Holding(prn, req) := s.writers[w];
    DecideKeepsAgreement(s.drafts, s.ledgers, prn, req, at, canIssue);
    SetWriterKeepsAgreement(s, w, DecideFor(prn, req, EventsIn(s.ledgers, req.ledger), at, canIssue));
  }

  /** Reads and diagnoses only set a writer that promises nothing. */
  lemma ReadingStepKeepsAgreement(s: State, a: Action)
    requires AgreementInv(s) && Enabled(s, a)
    requires a.ReadStored? || a.FetchByNumber? || a.CatchUp? || a.Diagnose?
    ensures AgreementInv(Next(s, a))
  {
    var s' := Next(s, a);
    assert s' == With(s, a.w, s'.writers[a.w]);
    SetWriterKeepsAgreement(s, a.w, s'.writers[a.w]);
  }

  lemma {:induction false} StepKeepsAgreement(s: State, a: Action)
    requires AgreementInv(s) && Enabled(s, a) && Fresh(s, a)
    ensures AgreementInv(Next(s, a))
  {
    match a {
      case Create(prn) => CreateKeepsAgreement(s, prn);
      case ReadStored(_, _, _) => ReadingStepKeepsAgreement(s, a);
      case FetchByNumber(_, _, _) => ReadingStepKeepsAgreement(s, a);
      case CatchUp(_) => ReadingStepKeepsAgreement(s, a);
      case Diagnose(_) => ReadingStepKeepsAgreement(s, a);
      case DecideEvent(w, at, canIssue) => DecideStepKeepsAgreement(s, w, at, canIssue);
      case Append(w) => AppendKeepsAgreement(s, w);
      case Persist(w, regulator, draw) => PersistKeepsAgreement(s, w, regulator, draw);
      case Discard(w) => DiscardKeepsAgreement(s, w);
      case SubmitSummaryLog(ledger, id, total, at, user) =>
        SubmitKeepsAgreement(s, ledger, DecideSummaryLog(EventsIn(s.ledgers, ledger), id, total, at, user));
      case Crash(_) =>
    }
  }

  lemma {:induction false} RunKeepsAgreement(actions: seq<Action>)
    requires Exec(actions, Fresh).Some?
    ensures AgreementInv(Exec(actions, Fresh).value)
  {
    if actions != [] {
      var front := actions[..|actions| - 1];
      RunKeepsAgreement(front);
      StepKeepsAgreement(Exec(front, Fresh).value, actions[|actions| - 1]);
    }
  }

  lemma SoundDraftReads(draft: Prn, prn: Prn, events: Events)
    requires Numbered(events) && DraftSound(draft, prn, events)
    ensures prn.ledger == draft.ledger
    ensures prn.status.current == Discarded ==> ProjectFromTail(prn, events) == prn
    ensures prn.status.current != Discarded ==>
      Content(ProjectFromTail(prn, events)) == Fold(draft, EventsOf(events, draft.id))
    ensures LegalHistory(prn.status.history) && LegalHistory(ProjectFromTail(prn, events).status.history)
  {
    DocStaysInLedger(draft, prn, events);
    ProjectedIsFoldOfAll(draft, prn, events);
    HistoryOfPrefixIsLegal(draft, events, Reach(prn.watermark));
    assert Content(prn).status == prn.status;
    assert Content(ProjectFromTail(prn, events)).status == ProjectFromTail(prn, events).status;
    assert TransitionsFrom(Draft)[1].status == Discarded;
  }

  /**
   * In every run whose appends and discards are fresh, crashes allowed anywhere, each stored PRN is either a
   * discarded draft the ledger never saw, or the fold of its draft over its own ledger events up to its watermark;
   * its projected read is then the fold over all of them, and both histories are legal paths.
   */
  lemma {:induction false} DocumentsAgreeWithTheLedger(actions: seq<Action>, id: PrnId)
    requires Exec(actions, Fresh).Some?
    requires id in Exec(actions, Fresh).value.store
    ensures var s := Exec(actions, Fresh).value;
      && id in s.drafts
      && var draft, prn, events := s.drafts[id], s.store[id], OwnEvents(s, s.store[id]);
        && (if prn.status.current == Discarded
            then EventsOf(events, id) == [] && IsDiscardOf(draft, prn) && Projected(s, id) == prn
            else
              && Content(prn) == Fold(draft, EventsUpTo(events, id, Reach(prn.watermark)))
              && Content(Projected(s, id)) == Fold(draft, EventsOf(events, id)))
        && LegalHistory(prn.status.history)
        && LegalHistory(Projected(s, id).status.history)
  {
    RunKeepsAgreement(actions);
    var s := Exec(actions, Fresh).value;
    var draft, prn := s.drafts[id], s.store[id];
    var events := EventsIn(s.ledgers, draft.ledger);
    assert DraftSound(draft, prn, events);
    SoundDraftReads(draft, prn, events);
  }

  // ----- what each step does to projected reads -----

  /** A discarded draft has no event, so no projection of it is ever waiting to be persisted. */
  lemma NothingToPersistOnADiscard(draft: Prn, stored: Prn, projection: Prn, events: Events)
    requires IsNewDraft(draft) && Numbered(events)
    requires DocAgrees(draft, stored, events) && DocAgrees(draft, projection, events)
    requires projection.status.current != Discarded && projection.watermark.Some?
    ensures stored.status.current != Discarded
  {
    EventsSplit(events, draft.id, Reach(projection.watermark));
    assert Content(projection).watermark == projection.watermark;
    assert EventsOf(events, draft.id) == [] ==> EventsUpTo(events, draft.id, Reach(projection.watermark)) == [];
  }

  lemma SameEventsSameRead(draft: Prn, stored: Prn, events: Events, stored': Prn, events': Events)
    requires Numbered(events) && Numbered(events')
    requires DraftSound(draft, stored, events) && DraftSound(draft, stored', events')
    requires EventsOf(events', draft.id) == EventsOf(events, draft.id)
    requires stored' == stored || (stored.status.current != Discarded && stored'.status.current != Discarded)
    ensures Content(ProjectFromTail(stored', events')) == Content(ProjectFromTail(stored, events))
  {
    SoundDraftReads(draft, stored, events);
    SoundDraftReads(draft, stored', events');
  }

  lemma PersistedDocReads(draft: Prn, stored: Prn, projection: Prn, stored': Prn, events: Events)
    requires Numbered(events)
    requires DraftSound(draft, stored, events) && DraftSound(draft, stored', events)
    requires projection.status.current != Discarded && projection.watermark.Some?
    requires DocAgrees(draft, projection, events) && Content(stored') == Content(projection)
    ensures Content(ProjectFromTail(stored', events)) == Content(ProjectFromTail(stored, events))
  {
    assert Content(stored').status == stored'.status && Content(projection).status == projection.status;
    NothingToPersistOnADiscard(draft, stored, projection, events);
    SameEventsSameRead(draft, stored, events, stored', events);
  }

  lemma PersistKeepsOneRead(draft: Prn, stored: Prn, projection: Prn, persisted: Prn, events: Events)
    requires Numbered(events) && DraftSound(draft, stored, events)
    requires projection.status.current != Discarded && projection.watermark.Some?
    requires DocAgrees(draft, projection, events) && Content(persisted) == Content(projection)
    ensures persisted.ledger == stored.ledger == draft.ledger
    ensures Content(ProjectFromTail(persisted, events)) == Content(ProjectFromTail(stored, events))
  {
    SameContentAgrees(draft, projection, persisted, events);
    ReplaceStored(draft, stored, persisted, events);
    DocStaysInLedger(draft, stored, events);
    DocStaysInLedger(draft, persisted, events);
    PersistedDocReads(draft, stored, projection, persisted, events);
  }

  lemma PersistKeepsReads(draft: Prn, store: Store, ledgers: Ledgers, projection: Prn, attempted: Prn, expected: int, id: PrnId)
    requires id in store && Numbered(EventsIn(ledgers, draft.ledger))
    requires projection.status.current != Discarded && projection.watermark.Some?
    requires Content(attempted) == Content(projection)
    requires attempted.id == id ==>
      && DraftSound(draft, store[id], EventsIn(ledgers, draft.ledger))
      && DocAgrees(draft, projection, EventsIn(ledgers, draft.ledger))
    ensures var store' := AfterWrite(store, PersistOutcome(store, attempted, expected));
      && id in store'
      && Content(ProjectFromTail(store'[id], EventsIn(ledgers, store'[id].ledger)))
         == Content(ProjectFromTail(store[id], EventsIn(ledgers, store[id].ledger)))
  {
    var outcome := PersistOutcome(store, attempted, expected);
    if outcome.Written? && id == attempted.id {
      assert Content(outcome.prn) == Content(attempted);
      PersistKeepsOneRead(draft, store[id], projection, outcome.prn, EventsIn(ledgers, draft.ledger));
    }
  }

  lemma {:induction false} PersistIsInvisible(s: State, w: WriterId, regulator: Regulator, draw: nat, id: PrnId)
    requires AgreementInv(s) && Enabled(s, Persist(w, regulator, draw)) && id in s.store
    ensures var s' := AfterPersist(s, w, regulator, draw);
      id in s'.store && Content(Projected(s', id)) == Content(Projected(s, id))
  {
    var writer := s.writers[w];
    assert WriterAgrees(s.drafts, s.ledgers, writer);
    assert DraftSound(s.drafts[id], s.store[id], EventsIn(s.ledgers, s.drafts[id].ledger));
    AfterPersistWriterAgrees(s, w, regulator, draw);
    AttemptedContent(writer, regulator, draw);
    PersistKeepsReads(s.drafts[id], s.store, s.ledgers, writer.projection, Attempted(writer, regulator, draw), writer.prn.version, id);
  }

  lemma SubmitIsInvisible(s: State, l: LedgerId, e: LedgerEvent, id: PrnId)
    requires !e.body.PrnEvent? && id in s.store
    ensures Content(Projected(AfterSubmit(s, l, e), id)) == Content(Projected(s, id))
  {
    EventsAfterSnoc(OwnEvents(s, s.store[id]), e, s.store[id].id, Reach(s.store[id].watermark));
  }

  lemma OtherStepsKeepDocs(s: State, a: Action, id: PrnId)
    requires Enabled(s, a) && id in s.store
    requires !a.Append? && !a.Discard? && !a.Persist? && !a.SubmitSummaryLog?
    ensures Next(s, a).ledgers == s.ledgers && id in Next(s, a).store && Next(s, a).store[id] == s.store[id]
  {}

  /**
   * In a fresh run only appends and discards change what projected reads return. A persist, whether it is written,
   * refused, retried or lost to a crash, is invisible to them: the event counted from the moment it was appended.
   */
  lemma OnlyAppendsMoveProjectedReads(actions: seq<Action>, a: Action, id: PrnId)
    requires Exec(actions, Fresh).Some?
    requires var s := Exec(actions, Fresh).value;
      Enabled(s, a) && Fresh(s, a) && !a.Append? && !a.Discard? && id in s.store
    ensures var s, s' := Exec(actions, Fresh).value, Next(Exec(actions, Fresh).value, a);
      id in s'.store && Content(Projected(s', id)) == Content(Projected(s, id))
  {
    RunKeepsAgreement(actions);
    var s := Exec(actions, Fresh).value;
    if a.Persist? {
      PersistIsInvisible(s, a.w, a.regulator, a.draw, id);
    } else if a.SubmitSummaryLog? {
      SubmitIsInvisible(s, a.ledger, DecideSummaryLog(EventsIn(s.ledgers, a.ledger), a.summaryLogId, a.creditTotal, a.at, a.user), id);
    } else {
      OtherStepsKeepDocs(s, a, id);
    }
  }

  lemma {:induction false} FreshAppendShows(drafts: map<PrnId, Prn>, store: Store, ledgers: Ledgers, prn: Prn, req: Request, e: LedgerEvent)
    requires DocsAgree(drafts, store, ledgers)
    requires prn.id in store && req.ledger == prn.ledger
    requires Content(prn) == Content(ProjectFromTail(store[prn.id], EventsIn(ledgers, store[prn.id].ledger)))
    requires DecidedAt(EventsIn(ledgers, req.ledger), prn, req, e)
    requires e.number == Head(EventsIn(ledgers, req.ledger)) + 1
    ensures e.body.PrnEvent? && req.ledger == store[prn.id].ledger
    ensures var events, stored := EventsIn(ledgers, req.ledger), store[prn.id];
      Content(ProjectFromTail(stored, events + [e])) == ApplyPrnEvent(Content(ProjectFromTail(stored, events)), e)
  {
    var draft, stored, events := drafts[prn.id], store[prn.id], EventsIn(ledgers, req.ledger);
    HeadIsLength(events);
    assert DraftSound(draft, stored, EventsIn(ledgers, draft.ledger));
    SoundDraftReads(draft, stored, EventsIn(ledgers, draft.ledger));
    FreshSnapshotIsFoldOfAll(draft, stored, EventsIn(ledgers, draft.ledger), prn);
    FreshAppend(draft, stored, events, prn, req, e);
    LedgerGrowthKeepsDraft(draft, stored, events, e);
    SoundDraftReads(draft, stored, events + [e]);
    FoldSnoc(draft, EventsOf(events, draft.id), e);
  }

  /** A fresh append is visible at once: the projected read becomes the old one with the event applied. */
  lemma {:induction false} AppendShowsAtOnce(actions: seq<Action>, w: WriterId)
    requires Exec(actions, Fresh).Some?
    requires var s := Exec(actions, Fresh).value;
      && Enabled(s, Append(w)) && Fresh(s, Append(w))
      && AppendEvent(EventsIn(s.ledgers, s.writers[w].req.ledger), s.writers[w].event).Success?
    ensures var s, s' := Exec(actions, Fresh).value, AfterAppend(Exec(actions, Fresh).value, w);
      var prn, event := s.writers[w].prn, s.writers[w].event;
      && prn.id in s'.store && event.body.PrnEvent?
      && Content(Projected(s', prn.id)) == ApplyPrnEvent(Content(Projected(s, prn.id)), event)
  {
    RunKeepsAgreement(actions);
    var s := Exec(actions, Fresh).value;
    AppendKeepsAgreement(s, w);
    var Decided(prn, req, e) := s.writers[w];
    FreshAppendShows(s.drafts, s.store, s.ledgers, prn, req, e);
  }
}

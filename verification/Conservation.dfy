/**
 * Tonnage conservation over fresh runs: what a ledger's balance has set aside or spent is always exactly the tonnage
 * of the PRNs whose ledger events say so (update-status-balance-effects.js, ledger-closing-balance.js).
 */
module Conservation {
  import opened Wrappers
  import opened PrnModel
  import opened Ledger
  import opened PrnFold
  import opened PrnStore
  import opened PrnProtocol
  import opened Interleavings
  import opened FreshRuns
  import opened Freshness

  // Tonnage set aside from the available balance, and tonnage spent from the total.
  const RESERVED: set<Status> := {AwaitingAuthorisation}
  const SPENT: set<Status> := {AwaitingAcceptance, Accepted, AwaitingCancellation}

  /** A PRN's status according to the ledger alone. */
  function View(events: Events, id: PrnId): Status {
    var es := EventsOf(events, id);
    if es == [] then Draft else StatusOfKind(es[|es| - 1].body.kind)
  }

  /** The tonnage one PRN contributes to a ledger's holdings. */
  function Share(draft: Prn, l: LedgerId, view: Status, statuses: set<Status>): int {
    if draft.ledger == l && view in statuses then draft.tonnage else 0
  }

  ghost predicate AllDrafted(ids: seq<PrnId>, drafts: map<PrnId, Prn>) {
    forall i | 0 <= i < |ids| :: ids[i] in drafts
  }

  ghost predicate NoRepeats(ids: seq<PrnId>) {
    forall i, j | 0 <= i < j < |ids| :: ids[i] != ids[j]
  }

  /** The tonnage of a ledger's PRNs that the ledger views in one of the statuses. */
  ghost function Held(ids: seq<PrnId>, drafts: map<PrnId, Prn>, l: LedgerId, events: Events, statuses: set<Status>): int
    requires AllDrafted(ids, drafts)
  {
    if ids == [] then 0
    else
      var id := ids[|ids| - 1];
      Held(ids[..|ids| - 1], drafts, l, events, statuses) + Share(drafts[id], l, View(events, id), statuses)
  }

  ghost predicate Balanced(ids: seq<PrnId>, drafts: map<PrnId, Prn>, l: LedgerId, events: Events) {
    && AllDrafted(ids, drafts)
    && CurrentBalance(events).amount - CurrentBalance(events).available == Held(ids, drafts, l, events, RESERVED)
    && CreditTotal(events) - CurrentBalance(events).amount == Held(ids, drafts, l, events, SPENT)
  }

  ghost predicate ConservationInv(created: seq<PrnId>, drafts: map<PrnId, Prn>, ledgers: Ledgers) {
    && NoRepeats(created)
    && (forall id :: id in created <==> id in drafts)
    && (forall l :: Balanced(created, drafts, l, EventsIn(ledgers, l)))
  }

  // ----- how holdings change -----

  /** Holdings depend only on the drafts and views of the PRNs counted. */
  lemma {:induction false} HeldFrame(
    ids: seq<PrnId>, drafts: map<PrnId, Prn>, drafts': map<PrnId, Prn>, l: LedgerId, events: Events, events': Events,
    statuses: set<Status>)
    requires AllDrafted(ids, drafts) && AllDrafted(ids, drafts')
    requires forall i | 0 <= i < |ids| :: drafts[ids[i]] == drafts'[ids[i]]
    requires forall i | 0 <= i < |ids| :: drafts[ids[i]].ledger == l ==> View(events, ids[i]) == View(events', ids[i])
    ensures Held(ids, drafts, l, events, statuses) == Held(ids, drafts', l, events', statuses)
  {
    if ids != [] {
      HeldFrame(ids[..|ids| - 1], drafts, drafts', l, events, events', statuses);
    }
  }

  /** When one PRN's view changes, holdings change by that PRN's share and nothing else. */
  lemma {:induction false} HeldMove(
    ids: seq<PrnId>, drafts: map<PrnId, Prn>, l: LedgerId, events: Events, events': Events, id: PrnId, statuses: set<Status>)
    requires AllDrafted(ids, drafts) && NoRepeats(ids) && id in ids && id in drafts
    requires forall other | other != id :: View(events, other) == View(events', other)
    ensures Held(ids, drafts, l, events', statuses) - Held(ids, drafts, l, events, statuses)
         == Share(drafts[id], l, View(events', id), statuses) - Share(drafts[id], l, View(events, id), statuses)
  {
    var front := ids[..|ids| - 1];
    if ids[|ids| - 1] == id {
      HeldFrame(front, drafts, drafts, l, events, events', statuses);
    } else {
      assert id in front;
      HeldMove(front, drafts, l, events, events', id, statuses);
    }
  }

  lemma ViewSnoc(events: Events, e: LedgerEvent, id: PrnId)
    ensures IsAbout(e, id) && 0 < e.number ==> View(events + [e], id) == StatusOfKind(e.body.kind)
    ensures !IsAbout(e, id) ==> View(events + [e], id) == View(events, id)
  {
    EventsAfterSnoc(events, e, id, 0);
  }

  lemma FoldReachesView(draft: Prn, events: Events)
    requires IsNewDraft(draft)
    ensures Fold(draft, EventsOf(events, draft.id)).status.current == View(events, draft.id)
  {
    if EventsOf(events, draft.id) != [] {
      FoldMirrorsLastEvent(draft, EventsOf(events, draft.id));
    }
  }

  // ----- every step conserves -----

  /** The heart: each command moves the balances by exactly the share its transition moves between holdings. */
  lemma CommandMovesItsShare(from: Status, to: Status, opening: Balance, draft: Prn)
    requires CommandFor(from, to).Some?
    ensures var kind := CommandFor(from, to).value;
      var closing := ClosingForPrn(opening, kind, draft.tonnage);
      && (closing.amount - closing.available) - (opening.amount - opening.available)
         == Share(draft, draft.ledger, StatusOfKind(kind), RESERVED) - Share(draft, draft.ledger, from, RESERVED)
      && opening.amount - closing.amount
         == Share(draft, draft.ledger, StatusOfKind(kind), SPENT) - Share(draft, draft.ledger, from, SPENT)
  {}

  /** What the command moves, from the status the writer held, is what the ledger's view of the PRN moves. */
  predicate SharesMatch(draft: Prn, l: LedgerId, from: Status, to: Status, view: Status) {
    && Share(draft, draft.ledger, to, RESERVED) - Share(draft, draft.ledger, from, RESERVED)
       == Share(draft, l, to, RESERVED) - Share(draft, l, view, RESERVED)
    && Share(draft, draft.ledger, to, SPENT) - Share(draft, draft.ledger, from, SPENT)
       == Share(draft, l, to, SPENT) - Share(draft, l, view, SPENT)
  }

  /** The exact condition for an append, stale or misdirected ones included, to leave a ledger balanced. */
  lemma {:induction false} AppendBalancesIffSharesMatch(
    ids: seq<PrnId>, drafts: map<PrnId, Prn>, l: LedgerId, events: Events, prn: Prn, req: Request, e: LedgerEvent)
    requires Balanced(ids, drafts, l, events) && NoRepeats(ids)
    requires prn.id in ids && prn.id in drafts && drafts[prn.id].tonnage == prn.tonnage
    requires e.number == |events| + 1 && DecidedAt(events, prn, req, e)
    ensures Balanced(ids, drafts, l, events + [e])
       <==> SharesMatch(drafts[prn.id], l, prn.status.current, req.newStatus, View(events, prn.id))
  {
    CommandReachesItsStatus(prn.status.current, req.newStatus);
    var events' := events + [e];
    assert events[..|events|] == events;
    CreditTotalSnoc(events, e);
    CommandMovesItsShare(prn.status.current, req.newStatus, e.opening, drafts[prn.id]);
    forall other ensures other != prn.id ==> View(events, other) == View(events', other) {
      ViewSnoc(events, e, other);
    }
    ViewSnoc(events, e, prn.id);
    HeldMove(ids, drafts, l, events, events', prn.id, RESERVED);
    HeldMove(ids, drafts, l, events, events', prn.id, SPENT);
  }

  lemma AppendKeepsBalanced(ids: seq<PrnId>, drafts: map<PrnId, Prn>, l: LedgerId, events: Events, prn: Prn, req: Request, e: LedgerEvent)
    requires Balanced(ids, drafts, l, events) && NoRepeats(ids)
    requires prn.id in ids && prn.id in drafts && drafts[prn.id].ledger == l && drafts[prn.id].tonnage == prn.tonnage
    requires e.number == |events| + 1 && DecidedAt(events, prn, req, e)
    requires prn.status.current == View(events, prn.id)
    ensures Balanced(ids, drafts, l, events + [e])
  {
    AppendBalancesIffSharesMatch(ids, drafts, l, events, prn, req, e);
  }

  lemma SubmitKeepsBalanced(ids: seq<PrnId>, drafts: map<PrnId, Prn>, l: LedgerId, events: Events,
                            summaryLogId: string, total: int, at: Instant, user: LedgerUser)
    requires Balanced(ids, drafts, l, events)
    ensures Balanced(ids, drafts, l, events + [DecideSummaryLog(events, summaryLogId, total, at, user)])
  {
    var e := DecideSummaryLog(events, summaryLogId, total, at, user);
    var events' := events + [e];
    CreditTotalSnoc(events, e);
    forall id ensures View(events, id) == View(events', id) {
      ViewSnoc(events, e, id);
    }
    HeldFrame(ids, drafts, drafts, l, events, events', RESERVED);
    HeldFrame(ids, drafts, drafts, l, events, events', SPENT);
  }

  lemma CreateKeepsBalanced(ids: seq<PrnId>, drafts: map<PrnId, Prn>, l: LedgerId, events: Events, prn: Prn)
    requires Balanced(ids, drafts, l, events) && prn.id !in drafts && EventsBelong(drafts, l, events)
    ensures Balanced(ids + [prn.id], drafts[prn.id := prn], l, events)
  {
    var ids', drafts' := ids + [prn.id], drafts[prn.id := prn];
    assert ids'[..|ids|] == ids;
    NoEventsBefore(drafts, l, events, prn.id, 0);
    HeldFrame(ids, drafts, drafts', l, events, events, RESERVED);
    HeldFrame(ids, drafts, drafts', l, events, events, SPENT);
  }

  lemma GrowthConserves(created: seq<PrnId>, drafts: map<PrnId, Prn>, ledgers: Ledgers, l: LedgerId, e: LedgerEvent)
    requires ConservationInv(created, drafts, ledgers)
    requires Balanced(created, drafts, l, EventsIn(ledgers, l) + [e])
    ensures ConservationInv(created, drafts, ledgers[l := EventsIn(ledgers, l) + [e]])
  {
    var ledgers' := ledgers[l := EventsIn(ledgers, l) + [e]];
    forall m ensures Balanced(created, drafts, m, EventsIn(ledgers', m)) {
      assert Balanced(created, drafts, m, EventsIn(ledgers, m));
    }
  }

  lemma {:induction false} AppendConserves(s: State, w: WriterId)
    requires AgreementInv(s) && Enabled(s, Append(w)) && Fresh(s, Append(w))
    requires ConservationInv(s.created, s.drafts, s.ledgers)
    ensures ConservationInv(s.created, s.drafts, AfterAppend(s, w).ledgers)
  {
    var Decided(prn, req, e) := s.writers[w];
    assert WriterAgrees(s.drafts, s.ledgers, s.writers[w]);
    var events := EventsIn(s.ledgers, req.ledger);
    if AppendEvent(events, e).Success? {
      HeadIsLength(events);
      FreshWriterViewsTheLedger(s.drafts, s.store, s.ledgers, prn, req, e);
      AppendKeepsBalanced(s.created, s.drafts, req.ledger, events, prn, req, e);
      GrowthConserves(s.created, s.drafts, s.ledgers, req.ledger, e);
    }
  }

  /** A fresh writer holds the status its ledger implies. */
  lemma FreshWriterViewsTheLedger(drafts: map<PrnId, Prn>, store: Store, ledgers: Ledgers, prn: Prn, req: Request, e: LedgerEvent)
    requires DocsAgree(drafts, store, ledgers)
    requires prn.id in store && req.ledger == prn.ledger
    requires Content(prn) == Content(ProjectFromTail(store[prn.id], EventsIn(ledgers, store[prn.id].ledger)))
    requires DecidedAt(EventsIn(ledgers, req.ledger), prn, req, e) && e.number == |EventsIn(ledgers, req.ledger)| + 1
    ensures prn.id in drafts && drafts[prn.id].ledger == req.ledger && drafts[prn.id].tonnage == prn.tonnage
    ensures prn.status.current == View(EventsIn(ledgers, req.ledger), prn.id)
  {
    var draft, stored := drafts[prn.id], store[prn.id];
    assert DraftSound(draft, stored, EventsIn(ledgers, draft.ledger));
    DocStaysInLedger(draft, stored, EventsIn(ledgers, draft.ledger));
    FreshSnapshotIsFoldOfAll(draft, stored, EventsIn(ledgers, draft.ledger), prn);
    FreshAppend(draft, stored, EventsIn(ledgers, draft.ledger), prn, req, e);
    FoldReachesView(draft, EventsIn(ledgers, draft.ledger));
  }

  lemma CreateConserves(s: State, prn: Prn)
    requires AgreementInv(s) && Enabled(s, Create(prn))
    requires ConservationInv(s.created, s.drafts, s.ledgers)
    ensures ConservationInv(s.created + [prn.id], s.drafts[prn.id := prn], s.ledgers)
  {
    forall l ensures Balanced(s.created + [prn.id], s.drafts[prn.id := prn], l, EventsIn(s.ledgers, l)) {
      assert Balanced(s.created, s.drafts, l, EventsIn(s.ledgers, l));
      assert EventsBelong(s.drafts, l, EventsIn(s.ledgers, l));
      CreateKeepsBalanced(s.created, s.drafts, l, EventsIn(s.ledgers, l), prn);
    }
  }

  lemma SubmitConserves(s: State, l: LedgerId, id: string, total: int, at: Instant, user: LedgerUser)
    requires ConservationInv(s.created, s.drafts, s.ledgers)
    ensures ConservationInv(s.created, s.drafts,
              AfterSubmit(s, l, DecideSummaryLog(EventsIn(s.ledgers, l), id, total, at, user)).ledgers)
  {
    SubmitKeepsBalanced(s.created, s.drafts, l, EventsIn(s.ledgers, l), id, total, at, user);
    GrowthConserves(s.created, s.drafts, s.ledgers, l, DecideSummaryLog(EventsIn(s.ledgers, l), id, total, at, user));
  }

  /** Every other step leaves drafts and ledgers alone. */
  lemma OtherStepsTouchNoLedger(s: State, a: Action)
    requires Enabled(s, a) && !a.Create? && !a.Append? && !a.SubmitSummaryLog?
    ensures Next(s, a).created == s.created && Next(s, a).drafts == s.drafts && Next(s, a).ledgers == s.ledgers
  {}

  lemma {:induction false} StepConserves(s: State, a: Action)
    requires AgreementInv(s) && Enabled(s, a) && Fresh(s, a)
    requires ConservationInv(s.created, s.drafts, s.ledgers)
    ensures var s' := Next(s, a); ConservationInv(s'.created, s'.drafts, s'.ledgers)
  {
    match a {
      case Create(prn) => CreateConserves(s, prn);
      case Append(w) => AppendConserves(s, w);
      case SubmitSummaryLog(l, id, total, at, user) => SubmitConserves(s, l, id, total, at, user);
      case _ => OtherStepsTouchNoLedger(s, a);
    }
  }

  lemma {:induction false} RunConserves(actions: seq<Action>)
    requires Exec(actions, Fresh).Some?
    ensures var s := Exec(actions, Fresh).value; ConservationInv(s.created, s.drafts, s.ledgers)
  {
    if actions != [] {
      var front := actions[..|actions| - 1];
      RunConserves(front);
      RunKeepsAgreement(front);
      StepConserves(Exec(front, Fresh).value, actions[|actions| - 1]);
    }
  }

  /**
   * From a fresh run, an append that takes its slot leaves its ledger balanced if and only if the tonnage the command
   * moves, judged by the status the writer held, is the tonnage that changes place in the ledger's own view of the PRN.
   */
  lemma {:induction false} AppendConservesIffSharesMatch(actions: seq<Action>, w: WriterId)
    requires Exec(actions, Fresh).Some?
    requires var s := Exec(actions, Fresh).value;
      Enabled(s, Append(w)) && AppendEvent(EventsIn(s.ledgers, s.writers[w].req.ledger), s.writers[w].event).Success?
    ensures var s, s' := Exec(actions, Fresh).value, AfterAppend(Exec(actions, Fresh).value, w);
      var Decided(prn, req, e) := s.writers[w];
      && prn.id in s.drafts
      && (Balanced(s'.created, s'.drafts, req.ledger, EventsIn(s'.ledgers, req.ledger)) <==>
            SharesMatch(s.drafts[prn.id], req.ledger, prn.status.current, req.newStatus,
                        View(EventsIn(s.ledgers, req.ledger), prn.id)))
  {
    RunKeepsFreshInv(actions);
    RunConserves(actions);
    var s := Exec(actions, Fresh).value;
    var Decided(prn, req, e) := s.writers[w];
    HeldFacts(s, w);
    assert WriterAgrees(s.drafts, s.ledgers, s.writers[w]);
    DocStaysInLedger(s.drafts[prn.id], prn, EventsIn(s.ledgers, prn.ledger));
    HeadIsLength(EventsIn(s.ledgers, req.ledger));
    AppendBalancesIffSharesMatch(s.created, s.drafts, req.ledger, EventsIn(s.ledgers, req.ledger), prn, req, e);
  }

  // ----- what a reader sees -----

  /** The tonnage of a ledger's PRNs that projected reads show in one of the statuses. */
  ghost function Shown(s: State, ids: seq<PrnId>, l: LedgerId, statuses: set<Status>): int
    requires forall i | 0 <= i < |ids| :: ids[i] in s.store
  {
    if ids == [] then 0
    else
      var id := ids[|ids| - 1];
      Shown(s, ids[..|ids| - 1], l, statuses) + Share(s.store[id], l, Projected(s, id).status.current, statuses)
  }

  lemma ProjectedShare(draft: Prn, stored: Prn, events: Events, l: LedgerId, statuses: set<Status>)
    requires Numbered(events) && DraftSound(draft, stored, events)
    requires Draft !in statuses && Discarded !in statuses
    ensures stored.ledger == draft.ledger
    ensures Share(stored, l, ProjectFromTail(stored, events).status.current, statuses)
         == Share(draft, l, View(events, draft.id), statuses)
  {
    SoundDraftReads(draft, stored, events);
    DocStaysInLedger(draft, stored, events);
    FoldReachesView(draft, events);
    var p := ProjectFromTail(stored, events);
    assert Content(p).status == p.status;
  }

  /** Readers are shown the share the ledger implies. */
  ghost predicate ShareAgrees(draft: Prn, stored: Prn, events: Events, l: LedgerId, statuses: set<Status>) {
    Share(stored, l, ProjectFromTail(stored, events).status.current, statuses) == Share(draft, l, View(events, draft.id), statuses)
  }

  lemma StoredShareAgrees(drafts: map<PrnId, Prn>, store: Store, ledgers: Ledgers, id: PrnId, l: LedgerId, statuses: set<Status>)
    requires DocsAgree(drafts, store, ledgers) && id in drafts
    requires Draft !in statuses && Discarded !in statuses
    ensures id in store && drafts[id].id == id && store[id].ledger == drafts[id].ledger
    ensures ShareAgrees(drafts[id], store[id], EventsIn(ledgers, drafts[id].ledger), l, statuses)
  {
    ProjectedShare(drafts[id], store[id], EventsIn(ledgers, drafts[id].ledger), l, statuses);
  }

  lemma {:induction false} ShownIsHeld(s: State, ids: seq<PrnId>, l: LedgerId, statuses: set<Status>)
    requires AllDrafted(ids, s.drafts)
    requires forall i | 0 <= i < |ids| ::
      && ids[i] in s.store && s.drafts[ids[i]].id == ids[i] && s.store[ids[i]].ledger == s.drafts[ids[i]].ledger
      && ShareAgrees(s.drafts[ids[i]], s.store[ids[i]], EventsIn(s.ledgers, s.drafts[ids[i]].ledger), l, statuses)
    ensures Shown(s, ids, l, statuses) == Held(ids, s.drafts, l, EventsIn(s.ledgers, l), statuses)
  {
    if ids != [] {
      ShownIsHeld(s, ids[..|ids| - 1], l, statuses);
    }
  }

  lemma {:induction false} AgreementShowsHoldings(s: State, ids: seq<PrnId>, l: LedgerId, statuses: set<Status>)
    requires DocsAgree(s.drafts, s.store, s.ledgers) && AllDrafted(ids, s.drafts)
    requires Draft !in statuses && Discarded !in statuses
    ensures forall i | 0 <= i < |ids| :: ids[i] in s.store
    ensures Shown(s, ids, l, statuses) == Held(ids, s.drafts, l, EventsIn(s.ledgers, l), statuses)
  {
    forall i | 0 <= i < |ids|
      ensures ids[i] in s.store && s.drafts[ids[i]].id == ids[i] && s.store[ids[i]].ledger == s.drafts[ids[i]].ledger
      ensures ShareAgrees(s.drafts[ids[i]], s.store[ids[i]], EventsIn(s.ledgers, s.drafts[ids[i]].ledger), l, statuses)
    {
      StoredShareAgrees(s.drafts, s.store, s.ledgers, ids[i], l, statuses);
    }
    ShownIsHeld(s, ids, l, statuses);
  }

  lemma {:induction false} ShownIsNotNegative(s: State, ids: seq<PrnId>, l: LedgerId, statuses: set<Status>)
    requires forall i | 0 <= i < |ids| :: ids[i] in s.store && 0 < s.store[ids[i]].tonnage
    ensures 0 <= Shown(s, ids, l, statuses)
    ensures (forall i | 0 <= i < |ids| :: s.store[ids[i]].ledger == l ==> Projected(s, ids[i]).status.current !in statuses)
            ==> Shown(s, ids, l, statuses) == 0
  {
    if ids != [] {
      ShownIsNotNegative(s, ids[..|ids| - 1], l, statuses);
    }
  }

  lemma StoredTonnageIsPositive(drafts: map<PrnId, Prn>, store: Store, ledgers: Ledgers, id: PrnId)
    requires DocsAgree(drafts, store, ledgers) && id in drafts
    ensures id in store && 0 < store[id].tonnage
  {
    assert DraftSound(drafts[id], store[id], EventsIn(ledgers, drafts[id].ledger));
    DocStaysInLedger(drafts[id], store[id], EventsIn(ledgers, drafts[id].ledger));
  }

  ghost predicate Weighed(store: Store, ids: seq<PrnId>) {
    forall i | 0 <= i < |ids| :: ids[i] in store && 0 < store[ids[i]].tonnage
  }

  lemma {:induction false} CreatedAreWeighed(s: State)
    requires AgreementInv(s) && ConservationInv(s.created, s.drafts, s.ledgers)
    ensures Weighed(s.store, s.created)
    ensures forall id :: id in s.created <==> id in s.store
  {
    forall i | 0 <= i < |s.created| ensures s.created[i] in s.store && 0 < s.store[s.created[i]].tonnage {
      StoredTonnageIsPositive(s.drafts, s.store, s.ledgers, s.created[i]);
    }
  }

  /** What the invariants say of one ledger, in terms of what readers are shown. */
  lemma LedgerShown(s: State, l: LedgerId)
    requires DocsAgree(s.drafts, s.store, s.ledgers) && Weighed(s.store, s.created)
    requires Balanced(s.created, s.drafts, l, EventsIn(s.ledgers, l))
    ensures var balance := CurrentBalance(EventsIn(s.ledgers, l));
      && balance.amount - balance.available == Shown(s, s.created, l, RESERVED)
      && CreditTotal(EventsIn(s.ledgers, l)) - balance.amount == Shown(s, s.created, l, SPENT)
    ensures 0 <= Shown(s, s.created, l, RESERVED) && 0 <= Shown(s, s.created, l, SPENT)
  {
    AgreementShowsHoldings(s, s.created, l, RESERVED);
    AgreementShowsHoldings(s, s.created, l, SPENT);
    ShownIsNotNegative(s, s.created, l, RESERVED);
    ShownIsNotNegative(s, s.created, l, SPENT);
  }

  /** What a run leaves in one ledger, in terms of what readers are shown. */
  lemma {:induction false} RunIsBalanced(actions: seq<Action>, l: LedgerId)
    requires Exec(actions, Fresh).Some?
    ensures var s := Exec(actions, Fresh).value;
      var balance := CurrentBalance(EventsIn(s.ledgers, l));
      && NoRepeats(s.created) && (forall id :: id in s.created <==> id in s.store)
      && Weighed(s.store, s.created)
      && balance.amount - balance.available == Shown(s, s.created, l, RESERVED)
      && CreditTotal(EventsIn(s.ledgers, l)) - balance.amount == Shown(s, s.created, l, SPENT)
      && 0 <= Shown(s, s.created, l, RESERVED) && 0 <= Shown(s, s.created, l, SPENT)
  {
    RunConserves(actions);
    RunKeepsAgreement(actions);
    CreatedAreWeighed(Exec(actions, Fresh).value);
    LedgerShown(Exec(actions, Fresh).value, l);
  }

  /**
   * In every fresh run, for every ledger: the total minus the available balance is the tonnage of the PRNs shown
   * awaiting authorisation, and the credits minus the total is the tonnage of those shown awaiting acceptance,
   * accepted or awaiting cancellation. The balances are therefore ordered.
   */
  lemma {:induction false} TonnageIsConserved(actions: seq<Action>, l: LedgerId)
    requires Exec(actions, Fresh).Some?
    ensures var s := Exec(actions, Fresh).value;
      var balance := CurrentBalance(EventsIn(s.ledgers, l));
      && NoRepeats(s.created) && (forall id :: id in s.created <==> id in s.store)
      && balance.amount - balance.available == Shown(s, s.created, l, RESERVED)
      && CreditTotal(EventsIn(s.ledgers, l)) - balance.amount == Shown(s, s.created, l, SPENT)
      && balance.available <= balance.amount <= CreditTotal(EventsIn(s.ledgers, l))
  {
    RunIsBalanced(actions, l);
  }

  /** Every PRN of the ledger is shown as one that never left draft or has come to an end without being spent. */
  ghost predicate AllSettled(s: State, l: LedgerId) {
    forall id | id in s.store && s.store[id].ledger == l ::
      Projected(s, id).status.current in {Draft, Deleted, Discarded, Cancelled}
  }

  lemma SettledLedgerWeighsNothing(s: State, l: LedgerId)
    requires Weighed(s.store, s.created) && AllSettled(s, l)
    ensures Shown(s, s.created, l, RESERVED) == 0 && Shown(s, s.created, l, SPENT) == 0
  {
    ShownIsNotNegative(s, s.created, l, RESERVED);
    ShownIsNotNegative(s, s.created, l, SPENT);
  }

  /** Deleted, discarded and cancelled PRNs net to zero: with no other PRN, both balances are the whole credit. */
  lemma SettledPrnsNetToZero(actions: seq<Action>, l: LedgerId)
    requires Exec(actions, Fresh).Some? && AllSettled(Exec(actions, Fresh).value, l)
    ensures var events := EventsIn(Exec(actions, Fresh).value.ledgers, l);
      CurrentBalance(events) == Balance(CreditTotal(events), CreditTotal(events))
  {
    RunIsBalanced(actions, l);
    SettledLedgerWeighsNothing(Exec(actions, Fresh).value, l);
  }
}

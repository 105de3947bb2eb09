/** No PRN command overdraws a ledger, in any interleaving: the slot guard makes sure the balance decided on still holds. */
module Solvency {
  import opened Wrappers
  import opened PrnModel
  import opened Ledger
  import opened PrnFold
  import opened PrnStore
  import opened PrnNumber
  import opened PrnProtocol
  import opened Interleavings

  /** A decided event leaves balances non-negative if they were at the head it was decided on. */
  ghost predicate DecidedWithinMeans(events: Events, e: LedgerEvent) {
    var head := e.number - 1;
    head <= |events| && (NonNegative(CurrentBalance(events[..head])) ==> NonNegative(e.closing))
  }

  ghost predicate WriterWithinMeans(ledgers: Ledgers, w: Writer) {
    w.Decided? ==> DecidedWithinMeans(EventsIn(ledgers, w.req.ledger), w.event)
  }

  ghost predicate MeansInv(ledgers: Ledgers, writers: map<WriterId, Writer>) {
    && LedgersNumbered(ledgers)
    && (forall w | w in writers :: WriterWithinMeans(ledgers, writers[w]))
  }

  lemma DecisionsAreWithinMeans(ledgers: Ledgers, prn: Prn, req: Request, at: Instant, canIssue: bool)
    requires LedgersNumbered(ledgers)
    ensures WriterWithinMeans(ledgers, DecideFor(prn, req, EventsIn(ledgers, req.ledger), at, canIssue))
  {
    var events := EventsIn(ledgers, req.ledger);
    HeadIsLength(events);
    assert events[..|events|] == events;
    if DecideFor(prn, req, events, at, canIssue).Decided? && NonNegative(CurrentBalance(events)) {
      var kind := CommandFor(prn.status.current, req.newStatus).value;
      CommandsNeverOverdraw(events, kind, prn.id, prn.tonnage, at, req.user);
    }
  }

  /** Growing a ledger leaves the prefix a writer decided on as it was. */
  lemma GrowthKeepsMeans(ledgers: Ledgers, writers: map<WriterId, Writer>, l: LedgerId, e: LedgerEvent)
    requires MeansInv(ledgers, writers) && e.number == Head(EventsIn(ledgers, l)) + 1
    ensures MeansInv(ledgers[l := EventsIn(ledgers, l) + [e]], writers)
  {
    var ledgers' := ledgers[l := EventsIn(ledgers, l) + [e]];
    NumberedSnoc(ledgers, l, e);
    forall w | w in writers ensures WriterWithinMeans(ledgers', writers[w]) {
      assert WriterWithinMeans(ledgers, writers[w]);
      if writers[w].Decided? && writers[w].req.ledger == l {
        var head := writers[w].event.number - 1;
        assert (EventsIn(ledgers, l) + [e])[..head] == EventsIn(ledgers, l)[..head];
      }
    }
  }

  lemma SetWriterKeepsMeans(ledgers: Ledgers, writers: map<WriterId, Writer>, w: WriterId, writer: Writer)
    requires MeansInv(ledgers, writers) && WriterWithinMeans(ledgers, writer)
    ensures MeansInv(ledgers, writers[w := writer])
  {}

  lemma AppendKeepsMeans(s: State, w: WriterId)
    requires MeansInv(s.ledgers, s.writers) && Enabled(s, Append(w))
    ensures MeansInv(AfterAppend(s, w).ledgers, AfterAppend(s, w).writers)
  {
    var Decided(prn, req, e) := s.writers[w];
    if AppendEvent(EventsIn(s.ledgers, req.ledger), e).Success? {
      GrowthKeepsMeans(s.ledgers, s.writers, req.ledger, e);
    }
    SetWriterKeepsMeans(AfterAppend(s, w).ledgers, s.writers, w, AfterAppend(s, w).writers[w]);
  }

  /** Any other step that sets a writer leaves ledgers alone and sets one that has decided nothing. */
  lemma OtherStepsKeepMeans(s: State, a: Action)
    requires MeansInv(s.ledgers, s.writers) && Enabled(s, a)
    requires !a.Append? && !a.DecideEvent? && !a.SubmitSummaryLog? && !a.Persist?
    ensures MeansInv(Next(s, a).ledgers, Next(s, a).writers)
  {}

  lemma PersistKeepsMeans(s: State, w: WriterId, regulator: Regulator, draw: nat)
    requires MeansInv(s.ledgers, s.writers) && Enabled(s, Persist(w, regulator, draw))
    ensures MeansInv(AfterPersist(s, w, regulator, draw).ledgers, AfterPersist(s, w, regulator, draw).writers)
  {
    AfterPersistShape(s, w, regulator, draw, Attempted(s.writers[w], regulator, draw));
    SetWriterKeepsMeans(s.ledgers, s.writers, w, AfterPersist(s, w, regulator, draw).writers[w]);
  }

  lemma {:induction false} StepKeepsMeans(s: State, a: Action)
    requires MeansInv(s.ledgers, s.writers) && Enabled(s, a)
    ensures MeansInv(Next(s, a).ledgers, Next(s, a).writers)
  {
    match a {
      case DecideEvent(w, at, canIssue) =>
        var Holding(prn, req) := s.writers[w];
        DecisionsAreWithinMeans(s.ledgers, prn, req, at, canIssue);
        SetWriterKeepsMeans(s.ledgers, s.writers, w, DecideFor(prn, req, EventsIn(s.ledgers, req.ledger), at, canIssue));
      case Append(w) => AppendKeepsMeans(s, w);
      case Persist(w, regulator, draw) => PersistKeepsMeans(s, w, regulator, draw);
      case SubmitSummaryLog(l, id, total, at, user) =>
        GrowthKeepsMeans(s.ledgers, s.writers, l, DecideSummaryLog(EventsIn(s.ledgers, l), id, total, at, user));
      case _ => OtherStepsKeepMeans(s, a);
    }
  }

  lemma {:induction false} RunKeepsMeans(actions: seq<Action>, guard: (State, Action) -> bool)
    requires Exec(actions, guard).Some?
    ensures var s := Exec(actions, guard).value; MeansInv(s.ledgers, s.writers)
  {
    if actions != [] {
      var front := actions[..|actions| - 1];
      RunKeepsMeans(front, guard);
      StepKeepsMeans(Exec(front, guard).value, actions[|actions| - 1]);
    }
  }

  ghost predicate Solvent(ledgers: Ledgers) {
    forall l :: NonNegative(CurrentBalance(EventsIn(ledgers, l)))
  }

  /** The guard: a summary log may not take back credit that has been reserved or spent. */
  predicate CreditStands(s: State, a: Action) {
    a.SubmitSummaryLog? ==>
      NonNegative(DecideSummaryLog(EventsIn(s.ledgers, a.ledger), a.summaryLogId, a.creditTotal, a.at, a.user).closing)
  }

  lemma GrowthStaysSolvent(ledgers: Ledgers, l: LedgerId, e: LedgerEvent)
    requires Solvent(ledgers)
    ensures Solvent(ledgers[l := EventsIn(ledgers, l) + [e]]) <==> NonNegative(e.closing)
  {
    var ledgers' := ledgers[l := EventsIn(ledgers, l) + [e]];
    assert CurrentBalance(EventsIn(ledgers', l)) == e.closing;
    forall m | m != l ensures EventsIn(ledgers', m) == EventsIn(ledgers, m) {}
  }

  lemma AppendStaysSolvent(s: State, w: WriterId)
    requires MeansInv(s.ledgers, s.writers) && Solvent(s.ledgers) && Enabled(s, Append(w))
    ensures Solvent(AfterAppend(s, w).ledgers)
  {
    var Decided(prn, req, e) := s.writers[w];
    var events := EventsIn(s.ledgers, req.ledger);
    assert WriterWithinMeans(s.ledgers, s.writers[w]);
    if AppendEvent(events, e).Success? {
      HeadIsLength(events);
      assert events[..|events|] == events;
      GrowthStaysSolvent(s.ledgers, req.ledger, e);
    }
  }

  /** From a solvent ledger only a summary log can overdraw, and it does exactly when it takes too much credit back. */
  lemma {:induction false} OnlySummaryLogsOverdraw(actions: seq<Action>, a: Action)
    requires Exec(actions, Anything).Some? && Enabled(Exec(actions, Anything).value, a)
    requires Solvent(Exec(actions, Anything).value.ledgers)
    ensures Solvent(Next(Exec(actions, Anything).value, a).ledgers) <==> CreditStands(Exec(actions, Anything).value, a)
  {
    RunKeepsMeans(actions, Anything);
    var s := Exec(actions, Anything).value;
    match a {
      case Append(w) => AppendStaysSolvent(s, w);
      case SubmitSummaryLog(l, id, total, at, user) =>
        GrowthStaysSolvent(s.ledgers, l, DecideSummaryLog(EventsIn(s.ledgers, l), id, total, at, user));
      case _ => OtherStepsKeepLedgers(s, a);
    }
  }

  lemma OtherStepsKeepLedgers(s: State, a: Action)
    requires Enabled(s, a) && !a.Append? && !a.SubmitSummaryLog?
    ensures Next(s, a).ledgers == s.ledgers
  {}

  lemma {:induction false} CreditRunIsARun(actions: seq<Action>)
    requires Exec(actions, CreditStands).Some?
    ensures Exec(actions, Anything) == Exec(actions, CreditStands)
  {
    if actions != [] {
      CreditRunIsARun(actions[..|actions| - 1]);
    }
  }

  /**
   * In every interleaving, stale or misdirected writes and crashes included, in which no summary log takes back credit
   * already reserved or spent, neither balance of any ledger is ever negative.
   */
  lemma {:induction false} NoLedgerIsOverdrawn(actions: seq<Action>)
    requires Exec(actions, CreditStands).Some?
    ensures Solvent(Exec(actions, CreditStands).value.ledgers)
  {
    if actions != [] {
      var front := actions[..|actions| - 1];
      NoLedgerIsOverdrawn(front);
      CreditRunIsARun(front);
      OnlySummaryLogsOverdraw(front, actions[|actions| - 1]);
    }
  }
}

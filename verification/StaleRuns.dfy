/**
 * Short concrete runs showing that the hypotheses of the run theorems are needed: without freshness a ledger can
 * count one PRN twice or hold tonnage for a discarded one, and a request that names another registration of the
 * same organisation and accreditation can end in a watermark regression, as can a rightly named one after it.
 */
module StaleRuns {
  import opened Wrappers
  import opened PrnModel
  import opened Ledger
  import opened PrnFold
  import opened PrnStore
  import opened PrnNumber
  import opened PrnProtocol
  import opened Interleavings
  import opened FreshRuns
  import opened Conservation
  import opened ReadRepair

  const HOME := LedgerId("org", "reg", "acc")
  const AWAY := LedgerId("org", "other-reg", "acc")
  const USER := LedgerUser("u", "User", None)
  const ACTOR := Actor("u", "User")

  const DRAFT := Prn(0, 1, None, None, HOME, 2026, 100, false, "",
                     StatusBlock(Draft, 0, map[], [HistoryItem(Draft, 0, ACTOR)]), 0, ACTOR)

  const SUBMITTED := LedgerEvent(1, SummaryLogSubmitted("log", 1000), ZERO_BALANCE, Balance(1000, 1000), 0, USER)
  const CREATED := LedgerEvent(2, PrnEvent(PrnCreated, 0, 100), Balance(1000, 1000), Balance(1000, 900), 0, USER)
  const CREATED_AGAIN := LedgerEvent(3, PrnEvent(PrnCreated, 0, 100), Balance(1000, 900), Balance(1000, 800), 0, USER)

  const SUBMIT := SubmitSummaryLog(HOME, "log", 1000, 0, USER)
  const TO_CREATE := Request(AwaitingAuthorisation, HOME, USER, 0)
  const TO_DISCARD := Request(Discarded, HOME, USER, 0)

  // ----- single steps of a run -----

  lemma ExecStep(actions: seq<Action>, guard: (State, Action) -> bool, s: State, a: Action)
    requires Exec(actions, guard) == Some(s) && Enabled(s, a) && guard(s, a)
    ensures Exec(actions + [a], guard) == Some(Next(s, a))
  {
    assert (actions + [a])[..|actions|] == actions;
  }

  lemma ReadStep(actions: seq<Action>, guard: (State, Action) -> bool, s: State, w: WriterId, prn: Prn, req: Request)
    requires Exec(actions, guard) == Some(s) && guard(s, ReadStored(w, prn.id, req))
    requires w !in s.writers && prn.id in s.store && s.store[prn.id] == prn
    requires Begin(prn, req, InternalActor(prn.status.current)) == Holding(prn, req)
    ensures Exec(actions + [ReadStored(w, prn.id, req)], guard) == Some(With(s, w, Holding(prn, req)))
  {
    ExecStep(actions, guard, s, ReadStored(w, prn.id, req));
  }

  lemma DecideStep(actions: seq<Action>, guard: (State, Action) -> bool, s: State, w: WriterId, prn: Prn, req: Request, e: LedgerEvent)
    requires Exec(actions, guard) == Some(s) && guard(s, DecideEvent(w, 0, true))
    requires w in s.writers && s.writers[w] == Holding(prn, req) && req.newStatus != Discarded
    requires DecideFor(prn, req, EventsIn(s.ledgers, req.ledger), 0, true) == Decided(prn, req, e)
    ensures Exec(actions + [DecideEvent(w, 0, true)], guard) == Some(With(s, w, Decided(prn, req, e)))
  {
    ExecStep(actions, guard, s, DecideEvent(w, 0, true));
  }

  lemma AppendStep(actions: seq<Action>, guard: (State, Action) -> bool, s: State, w: WriterId, prn: Prn, req: Request, e: LedgerEvent)
    requires Exec(actions, guard) == Some(s) && guard(s, Append(w))
    requires w in s.writers && s.writers[w] == Decided(prn, req, e) && e.body.PrnEvent?
    requires e.number == Head(EventsIn(s.ledgers, req.ledger)) + 1
    ensures Exec(actions + [Append(w)], guard)
         == Some(With(s, w, Appended(prn, req, ApplyPrnEvent(prn, e), 0)).(
                   ledgers := s.ledgers[req.ledger := EventsIn(s.ledgers, req.ledger) + [e]]))
  {
    ExecStep(actions, guard, s, Append(w));
    SingleEventFold(prn, e);
  }

  lemma SubmitStep(actions: seq<Action>, guard: (State, Action) -> bool, s: State, l: LedgerId, e: LedgerEvent)
    requires Exec(actions, guard) == Some(s) && guard(s, SubmitSummaryLog(l, "log", 1000, 0, USER))
    requires DecideSummaryLog(EventsIn(s.ledgers, l), "log", 1000, 0, USER) == e
    ensures Exec(actions + [SubmitSummaryLog(l, "log", 1000, 0, USER)], guard) == Some(AfterSubmit(s, l, e))
  {
    ExecStep(actions, guard, s, SubmitSummaryLog(l, "log", 1000, 0, USER));
  }

  lemma PersistStep(actions: seq<Action>, guard: (State, Action) -> bool, s: State, w: WriterId, s': State)
    requires Exec(actions, guard) == Some(s) && Enabled(s, Persist(w, EA, 0)) && guard(s, Persist(w, EA, 0))
    requires AfterPersist(s, w, EA, 0) == s'
    ensures Exec(actions + [Persist(w, EA, 0)], guard) == Some(s')
  {
    ExecStep(actions, guard, s, Persist(w, EA, 0));
  }

  /** The internal route's update of one PRN as far as its append. */
  function UpTo(w: WriterId, id: PrnId, req: Request): seq<Action> {
    [ReadStored(w, id, req), DecideEvent(w, 0, true), Append(w)]
  }

  lemma UpdateRuns(actions: seq<Action>, guard: (State, Action) -> bool, s: State, w: WriterId, prn: Prn, req: Request, e: LedgerEvent)
    requires Exec(actions, guard) == Some(s) && guard(s, ReadStored(w, prn.id, req))
    requires guard(With(s, w, Holding(prn, req)), DecideEvent(w, 0, true)) && guard(With(s, w, Decided(prn, req, e)), Append(w))
    requires w !in s.writers && prn.id in s.store && s.store[prn.id] == prn && req.newStatus != Discarded
    requires Begin(prn, req, InternalActor(prn.status.current)) == Holding(prn, req)
    requires DecideFor(prn, req, EventsIn(s.ledgers, req.ledger), 0, true) == Decided(prn, req, e)
    requires e.body.PrnEvent? && e.number == Head(EventsIn(s.ledgers, req.ledger)) + 1
    ensures Exec(actions + UpTo(w, prn.id, req), guard)
         == Some(With(s, w, Appended(prn, req, ApplyPrnEvent(prn, e), 0)).(
                   ledgers := s.ledgers[req.ledger := EventsIn(s.ledgers, req.ledger) + [e]]))
  {
    var read, decide := ReadStored(w, prn.id, req), DecideEvent(w, 0, true);
    ReadStep(actions, guard, s, w, prn, req);
    var s1, s2 := With(s, w, Holding(prn, req)), With(s, w, Decided(prn, req, e));
    DecideStep(actions + [read], guard, s1, w, prn, req, e);
    assert With(s1, w, Decided(prn, req, e)) == s2;
    AppendStep(actions + [read] + [decide], guard, s2, w, prn, req, e);
    var appended := Appended(prn, req, ApplyPrnEvent(prn, e), 0);
    assert With(s2, w, appended) == With(s, w, appended);
    assert actions + [read] + [decide] + [Append(w)] == actions + UpTo(w, prn.id, req);
  }

  // ----- the common start -----

  const START: seq<Action> := [Create(DRAFT), SUBMIT]
  const STARTED := State([0], map[0 := DRAFT], map[0 := DRAFT], map[HOME := [SUBMITTED]], map[], [])

  const CREATED_ONLY := State([0], map[0 := DRAFT], map[0 := DRAFT], map[], map[], [])

  lemma FirstSubmission()
    ensures DecideSummaryLog([], "log", 1000, 0, USER) == SUBMITTED
    ensures AfterSubmit(CREATED_ONLY, HOME, SUBMITTED) == STARTED
  {
    assert [] + [SUBMITTED] == [SUBMITTED];
  }

  lemma DraftCreated(guard: (State, Action) -> bool)
    requires guard(INITIAL, Create(DRAFT))
    ensures Exec([Create(DRAFT)], guard) == Some(CREATED_ONLY)
  {
    assert Exec([], guard) == Some(INITIAL);
    ExecStep([], guard, INITIAL, Create(DRAFT));
    assert AfterCreate(INITIAL, DRAFT) == CREATED_ONLY;
    assert [] + [Create(DRAFT)] == [Create(DRAFT)];
  }

  lemma DraftSubmitted(actions: seq<Action>, guard: (State, Action) -> bool)
    requires Exec(actions, guard) == Some(CREATED_ONLY) && guard(CREATED_ONLY, SUBMIT)
    ensures Exec(actions + [SUBMIT], guard) == Some(STARTED)
  {
    FirstSubmission();
    SubmitStep(actions, guard, CREATED_ONLY, HOME, SUBMITTED);
  }

  lemma Started(guard: (State, Action) -> bool)
    requires guard(INITIAL, Create(DRAFT)) && guard(CREATED_ONLY, SUBMIT)
    ensures Exec(START, guard) == Some(STARTED)
  {
    DraftCreated(guard);
    DraftSubmitted([Create(DRAFT)], guard);
    assert [Create(DRAFT)] + [SUBMIT] == START;
  }

  lemma EventsOfTwo()
    ensures EventsOf([SUBMITTED, CREATED], 0) == [CREATED]
    ensures EventsOf([SUBMITTED, CREATED, CREATED_AGAIN], 0) == [CREATED, CREATED_AGAIN]
  {
    assert EventsOf([], 0) == [];
    EventsAfterSnoc([], SUBMITTED, 0, 0);
    EventsAfterSnoc([SUBMITTED], CREATED, 0, 0);
    EventsAfterSnoc([SUBMITTED, CREATED], CREATED_AGAIN, 0, 0);
    assert [SUBMITTED] == [] + [SUBMITTED];
    assert [SUBMITTED, CREATED] == [SUBMITTED] + [CREATED];
    assert [SUBMITTED, CREATED, CREATED_AGAIN] == [SUBMITTED, CREATED] + [CREATED_AGAIN];
  }

  lemma DraftMayMove()
    ensures Begin(DRAFT, TO_CREATE, InternalActor(Draft)) == Holding(DRAFT, TO_CREATE)
    ensures Begin(DRAFT, TO_DISCARD, InternalActor(Draft)) == Holding(DRAFT, TO_DISCARD)
    ensures DecideFor(DRAFT, TO_CREATE, [SUBMITTED], 0, true) == Decided(DRAFT, TO_CREATE, CREATED)
  {
    assert TransitionsFrom(Draft)[0] == Transition(AwaitingAuthorisation, [ReprocessorExporter]);
    assert TransitionsFrom(Draft)[1] == Transition(Discarded, [ReprocessorExporter]);
  }

  // ----- a crash retried from the stored document -----

  function ReserveBy(w: WriterId): seq<Action> {
    UpTo(w, 0, TO_CREATE)
  }

  const RESERVED_STATE := With(STARTED, 1, Appended(DRAFT, TO_CREATE, ApplyPrnEvent(DRAFT, CREATED), 0)).(
                            ledgers := map[HOME := [SUBMITTED, CREATED]])

  lemma Reserved(guard: (State, Action) -> bool)
    requires Exec(START, guard) == Some(STARTED) && guard(STARTED, ReadStored(1, 0, TO_CREATE))
    requires guard(With(STARTED, 1, Holding(DRAFT, TO_CREATE)), DecideEvent(1, 0, true))
    requires guard(With(STARTED, 1, Decided(DRAFT, TO_CREATE, CREATED)), Append(1))
    ensures Exec(START + ReserveBy(1), guard) == Some(RESERVED_STATE)
  {
    DraftMayMove();
    assert [SUBMITTED] + [CREATED] == [SUBMITTED, CREATED];
    UpdateRuns(START, guard, STARTED, 1, DRAFT, TO_CREATE, CREATED);
    assert STARTED.ledgers[HOME := [SUBMITTED, CREATED]] == map[HOME := [SUBMITTED, CREATED]];
  }

  lemma DraftIsFresh()
    ensures FreshSnapshot(STARTED, DRAFT, TO_CREATE)
  {
    EventsAfterSnoc([], SUBMITTED, 0, 0);
    assert [] + [SUBMITTED] == [SUBMITTED];
    assert TailOf(DRAFT, [SUBMITTED]) == [];
  }

  lemma FreshGuards()
    ensures Fresh(STARTED, ReadStored(1, 0, TO_CREATE))
    ensures Fresh(With(STARTED, 1, Holding(DRAFT, TO_CREATE)), DecideEvent(1, 0, true))
    ensures Fresh(With(STARTED, 1, Decided(DRAFT, TO_CREATE, CREATED)), Append(1))
  {
    DraftIsFresh();
    assert FreshSnapshot(With(STARTED, 1, Decided(DRAFT, TO_CREATE, CREATED)), DRAFT, TO_CREATE);
  }

  lemma FreshlyReserved()
    ensures Exec(START + ReserveBy(1), Fresh) == Some(RESERVED_STATE)
  {
    Started(Fresh);
    FreshGuards();
    Reserved(Fresh);
  }

  lemma FreshCrash() returns (s: State)
    ensures Exec(START + ReserveBy(1) + [Crash(1)], Fresh) == Some(s)
    ensures s.store == map[0 := DRAFT] && s.writers == map[] && EventsIn(s.ledgers, HOME) == [SUBMITTED, CREATED]
  {
    FreshlyReserved();
    var s1 := RESERVED_STATE;
    ExecStep(START + ReserveBy(1), Fresh, s1, Crash(1));
    s := s1.(writers := s1.writers - {1});
  }

  /** A crash between append and persist, in a run that is fresh throughout, leaves a document behind its ledger for good. */
  lemma CrashLeavesDocumentBehind()
    ensures var crashed := START + ReserveBy(1) + [Crash(1)];
      && Exec(crashed, Fresh).Some?
      && var s := Exec(crashed, Fresh).value;
        && 0 in s.store && Lagging(s, 0) && Unattended(s, 0)
        && s.store[0].status.current == Draft && Projected(s, 0).status.current == AwaitingAuthorisation
  {
    var s := FreshCrash();
    EventsOfTwo();
    FoldMirrorsLastEvent(DRAFT, [CREATED]);
  }

  const RETRIED := START + ReserveBy(1) + [Crash(1)] + ReserveBy(2)

  lemma ReservedTwice() returns (s: State)
    ensures Exec(RETRIED, OwnRegistration) == Some(s)
    ensures s.created == [0] && s.store == map[0 := DRAFT]
    ensures EventsIn(s.ledgers, HOME) == [SUBMITTED, CREATED, CREATED_AGAIN]
  {
    Started(OwnRegistration);
    Reserved(OwnRegistration);
    var s1 := RESERVED_STATE;
    ExecStep(START + ReserveBy(1), OwnRegistration, s1, Crash(1));
    var s2 := s1.(writers := s1.writers - {1});
    assert [SUBMITTED, CREATED] + [CREATED_AGAIN] == [SUBMITTED, CREATED, CREATED_AGAIN];
    DraftMayMove();
    UpdateRuns(START + ReserveBy(1) + [Crash(1)], OwnRegistration, s2, 2, DRAFT, TO_CREATE, CREATED_AGAIN);
    s := Exec(RETRIED, OwnRegistration).value;
  }

  /**
   * A transition whose writer crashes between append and persist, retried through the route that reads the stored
   * document, is appended twice: the ledger sets aside twice the PRN's tonnage and its history is no legal path.
   */
  lemma RetryAfterCrashReservesTwice()
    ensures Exec(RETRIED, OwnRegistration).Some?
    ensures var s := Exec(RETRIED, OwnRegistration).value;
      var balance := CurrentBalance(EventsIn(s.ledgers, HOME));
      && s.created == [0] && 0 in s.store && s.store[0].tonnage == 100
      && balance.amount - balance.available == 200
      && !LegalHistory(Projected(s, 0).status.history)
  {
    var s := ReservedTwice();
    EventsOfTwo();
    TwoReservationsAreIllegal();
  }

  lemma TwoReservationsAreIllegal()
    ensures AllPrnEvents([CREATED, CREATED_AGAIN])
    ensures !LegalHistory(Fold(DRAFT, [CREATED, CREATED_AGAIN]).status.history)
  {
    FoldHistory(DRAFT, [CREATED, CREATED_AGAIN]);
    var h := Fold(DRAFT, [CREATED, CREATED_AGAIN]).status.history;
    assert h[1].status == AwaitingAuthorisation && h[2].status == AwaitingAuthorisation;
    assert !CanMove(h[1].status, h[2].status);
  }

  // ----- a discard racing an append -----

  const RACED := START + ReserveBy(1) + [ReadStored(2, 0, TO_DISCARD), Discard(2)]

  const DISCARDED := DRAFT.(version := 2, status := StatusBlock(Discarded, 0, map[],
                              [HistoryItem(Draft, 0, ACTOR), HistoryItem(Discarded, 0, ACTOR)]))

  lemma DiscardStep(actions: seq<Action>, s: State, w: WriterId)
    requires Exec(actions, OwnRegistration) == Some(s)
    requires 0 in s.store && s.store[0] == DRAFT && w in s.writers && s.writers[w] == Holding(DRAFT, TO_DISCARD)
    ensures Exec(actions + [Discard(w)], OwnRegistration)
         == Some(With(s, w, Finished(Committed(DISCARDED))).(store := s.store[0 := DISCARDED]))
  {
    ExecStep(actions, OwnRegistration, s, Discard(w));
    assert UpdateStatusOutcome(s.store, DiscardParams(DRAFT, TO_DISCARD)) == Written(DISCARDED);
  }

  lemma DiscardRaced() returns (s: State)
    ensures Exec(RACED, OwnRegistration) == Some(s)
    ensures 0 in s.store && s.store[0] == DISCARDED && EventsIn(s.ledgers, HOME) == [SUBMITTED, CREATED]
  {
    Started(OwnRegistration);
    Reserved(OwnRegistration);
    var s1 := RESERVED_STATE;
    DraftMayMove();
    ReadStep(START + ReserveBy(1), OwnRegistration, s1, 2, DRAFT, TO_DISCARD);
    var read := ReadStored(2, 0, TO_DISCARD);
    DiscardStep(START + ReserveBy(1) + [read], With(s1, 2, Holding(DRAFT, TO_DISCARD)), 2);
    assert START + ReserveBy(1) + [read] + [Discard(2)] == RACED;
    s := Exec(RACED, OwnRegistration).value;
  }

  /** A discard between another writer's append and persist succeeds: tonnage stays set aside for a discarded PRN. */
  lemma DiscardRacingAnAppend()
    ensures Exec(RACED, OwnRegistration).Some?
    ensures var s := Exec(RACED, OwnRegistration).value;
      var balance := CurrentBalance(EventsIn(s.ledgers, HOME));
      && 0 in s.store && s.store[0].status.current == Discarded
      && balance.amount - balance.available == 100
      && Projected(s, 0).status.current == AwaitingAuthorisation
      && !LegalHistory(Projected(s, 0).status.history)
  {
    var s := DiscardRaced();
    DiscardedProjectsIllegally();
  }

  lemma DiscardedProjectsIllegally()
    ensures ProjectFromTail(DISCARDED, [SUBMITTED, CREATED]) == ApplyPrnEvent(DISCARDED, CREATED)
    ensures !LegalHistory(ApplyPrnEvent(DISCARDED, CREATED).status.history)
  {
    EventsOfTwo();
    assert [CREATED][..0] == [];
    assert Fold(DISCARDED, []) == DISCARDED;
    var h := ApplyPrnEvent(DISCARDED, CREATED).status.history;
    assert !CanMove(h[1].status, h[2].status);
  }

  // ----- a request naming another registration -----

  const ISSUE_AWAY := Request(AwaitingAcceptance, AWAY, USER, 0)
  const SUBMIT_AWAY := SubmitSummaryLog(AWAY, "log", 1000, 0, USER)

  const HOMEWARD := START + [SUBMIT] + ReserveBy(1) + [Persist(1, EA, 0), SUBMIT_AWAY]
  const ASTRAY := UpTo(2, 0, ISSUE_AWAY) + [Persist(2, EA, 0), Diagnose(2)]

  const SUBMITTED_AGAIN := LedgerEvent(2, SummaryLogSubmitted("log", 1000), Balance(1000, 1000), Balance(1000, 1000), 0, USER)
  const RESERVED_LATE := LedgerEvent(3, PrnEvent(PrnCreated, 0, 100), Balance(1000, 1000), Balance(1000, 900), 0, USER)
  const ISSUED_AWAY := LedgerEvent(2, PrnEvent(PrnIssued, 0, 100), Balance(1000, 1000), Balance(900, 1000), 0, USER)
  const HELD := ApplyPrnEvent(DRAFT, RESERVED_LATE).(version := 2)

  lemma SubmittedTwice() returns (s: State)
    ensures Exec(START + [SUBMIT], OwnRegistration) == Some(s)
    ensures s.store == map[0 := DRAFT] && s.writers == map[]
    ensures EventsIn(s.ledgers, HOME) == [SUBMITTED, SUBMITTED_AGAIN] && EventsIn(s.ledgers, AWAY) == []
  {
    Started(OwnRegistration);
    CreditTotalSnoc([], SUBMITTED);
    assert [] + [SUBMITTED] == [SUBMITTED];
    SubmitStep(START, OwnRegistration, STARTED, HOME, SUBMITTED_AGAIN);
    s := AfterSubmit(STARTED, HOME, SUBMITTED_AGAIN);
  }

  lemma DraftMayMoveLate()
    ensures Begin(DRAFT, TO_CREATE, InternalActor(Draft)) == Holding(DRAFT, TO_CREATE)
    ensures DecideFor(DRAFT, TO_CREATE, [SUBMITTED, SUBMITTED_AGAIN], 0, true) == Decided(DRAFT, TO_CREATE, RESERVED_LATE)
  {
    assert TransitionsFrom(Draft)[0] == Transition(AwaitingAuthorisation, [ReprocessorExporter]);
  }

  lemma ReservedLate() returns (s: State)
    ensures Exec(START + [SUBMIT] + ReserveBy(1), OwnRegistration) == Some(s)
    ensures s.store == map[0 := DRAFT] && EventsIn(s.ledgers, AWAY) == []
    ensures s.writers == map[1 := Appended(DRAFT, TO_CREATE, ApplyPrnEvent(DRAFT, RESERVED_LATE), 0)]
  {
    var s1 := SubmittedTwice();
    DraftMayMoveLate();
    UpdateRuns(START + [SUBMIT], OwnRegistration, s1, 1, DRAFT, TO_CREATE, RESERVED_LATE);
    s := Exec(START + [SUBMIT] + ReserveBy(1), OwnRegistration).value;
  }

  lemma PersistsHeld(s: State, req: Request)
    requires s.store == map[0 := DRAFT] && req.newStatus == AwaitingAuthorisation
    requires s.writers == map[1 := Appended(DRAFT, req, ApplyPrnEvent(DRAFT, RESERVED_LATE), 0)]
    ensures AfterPersist(s, 1, EA, 0).store == map[0 := HELD]
    ensures AfterPersist(s, 1, EA, 0).ledgers == s.ledgers && 2 !in AfterPersist(s, 1, EA, 0).writers
  {
    assert PersistOutcome(s.store, ApplyPrnEvent(DRAFT, RESERVED_LATE), 1) == Written(HELD);
  }

  lemma Homeward() returns (s: State)
    ensures Exec(HOMEWARD, Anything) == Some(s)
    ensures s.store == map[0 := HELD] && EventsIn(s.ledgers, AWAY) == [SUBMITTED] && 2 !in s.writers
  {
    var front := START + [SUBMIT] + ReserveBy(1);
    var s1 := ReservedLate();
    PersistsHeld(s1, TO_CREATE);
    PersistStep(front, OwnRegistration, s1, 1, AfterPersist(s1, 1, EA, 0));
    assert [] + [SUBMITTED] == [SUBMITTED];
    SubmitStep(front + [Persist(1, EA, 0)], OwnRegistration, AfterPersist(s1, 1, EA, 0), AWAY, SUBMITTED);
    assert front + [Persist(1, EA, 0)] + [SUBMIT_AWAY] == HOMEWARD;
    AnythingAllows(HOMEWARD);
    s := Exec(HOMEWARD, Anything).value;
  }

  lemma {:induction false} AnythingAllows(actions: seq<Action>)
    requires Exec(actions, OwnRegistration).Some?
    ensures Exec(actions, Anything) == Exec(actions, OwnRegistration)
  {
    if actions != [] {
      AnythingAllows(actions[..|actions| - 1]);
    }
  }

  lemma HeldMayIssue(l: LedgerId)
    requires l == HOME || l == AWAY
    ensures var req := Request(AwaitingAcceptance, l, USER, 0);
      && Begin(HELD, req, InternalActor(HELD.status.current)) == Holding(HELD, req)
      && DecideFor(HELD, req, [SUBMITTED], 0, true) == Decided(HELD, req, ISSUED_AWAY)
  {
    assert TransitionsFrom(AwaitingAuthorisation)[0] == Transition(AwaitingAcceptance, [Signatory]);
  }

  lemma AstrayPersistMisses(s: State, req: Request)
    requires s.store == map[0 := HELD] && req.newStatus == AwaitingAcceptance
    requires 2 in s.writers && s.writers[2] == Appended(HELD, req, ApplyPrnEvent(HELD, ISSUED_AWAY), 0)
    ensures AfterPersist(s, 2, EA, 0) == With(s, 2, Missed(0, 2))
  {
    var attempted := Attempted(s.writers[2], EA, 0);
    assert attempted.watermark == Some(2) && HELD.watermark == Some(3);
    assert PersistOutcome(s.store, attempted, 2) == WatermarkRegression;
  }

  lemma MissesAndRegresses(front: seq<Action>, s: State, req: Request)
    requires Exec(front, Anything) == Some(s)
    requires s.store == map[0 := HELD] && req.newStatus == AwaitingAcceptance
    requires 2 in s.writers && s.writers[2] == Appended(HELD, req, ApplyPrnEvent(HELD, ISSUED_AWAY), 0)
    ensures Exec(front + [Persist(2, EA, 0)] + [Diagnose(2)], Anything) == Some(With(s, 2, Finished(Regressed)))
  {
    var missed := With(s, 2, Missed(0, 2));
    AstrayPersistMisses(s, req);
    PersistStep(front, Anything, s, 2, missed);
    ExecStep(front + [Persist(2, EA, 0)], Anything, missed, Diagnose(2));
    assert With(missed, 2, Finished(Regressed)) == With(s, 2, Finished(Regressed));
  }

  lemma IssuesAppended(actions: seq<Action>, s: State, l: LedgerId) returns (s3: State)
    requires Exec(actions, Anything) == Some(s) && (l == HOME || l == AWAY)
    requires s.store == map[0 := HELD] && EventsIn(s.ledgers, l) == [SUBMITTED] && 2 !in s.writers
    ensures var req := Request(AwaitingAcceptance, l, USER, 0);
      && Exec(actions + UpTo(2, 0, req), Anything) == Some(s3)
      && s3.store == map[0 := HELD]
      && 2 in s3.writers && s3.writers[2] == Appended(HELD, req, ApplyPrnEvent(HELD, ISSUED_AWAY), 0)
  {
    var req := Request(AwaitingAcceptance, l, USER, 0);
    HeldMayIssue(l);
    UpdateRuns(actions, Anything, s, 2, HELD, req, ISSUED_AWAY);
    s3 := Exec(actions + UpTo(2, 0, req), Anything).value;
  }

  /** An issuance from the held document takes the second slot of the ledger it names, and its persist misses. */
  lemma IssuesBehind(actions: seq<Action>, s: State, l: LedgerId) returns (end: State)
    requires Exec(actions, Anything) == Some(s) && (l == HOME || l == AWAY)
    requires s.store == map[0 := HELD] && EventsIn(s.ledgers, l) == [SUBMITTED] && 2 !in s.writers
    ensures var req := Request(AwaitingAcceptance, l, USER, 0);
      Exec(actions + (UpTo(2, 0, req) + [Persist(2, EA, 0), Diagnose(2)]), Anything) == Some(end)
    ensures 2 in end.writers && end.writers[2] == Finished(Regressed)
  {
    var req := Request(AwaitingAcceptance, l, USER, 0);
    var front := actions + UpTo(2, 0, req);
    var s3 := IssuesAppended(actions, s, l);
    MissesAndRegresses(front, s3, req);
    assert front + [Persist(2, EA, 0)] + [Diagnose(2)] == actions + (UpTo(2, 0, req) + [Persist(2, EA, 0), Diagnose(2)]);
    end := With(s3, 2, Finished(Regressed));
  }

  /** The registration is never checked, so an event can land in another ledger and regress the watermark. */
  lemma MisdirectedRequestRegresses()
    ensures Exec(HOMEWARD + ASTRAY, Anything).Some?
    ensures var s := Exec(HOMEWARD + ASTRAY, Anything).value; 2 in s.writers && s.writers[2] == Finished(Regressed)
  {
    var s := Homeward();
    var _ := IssuesBehind(HOMEWARD, s, AWAY);
  }

  // ----- a request naming the right registration, after one that did not -----

  const CREATE_AWAY := Request(AwaitingAuthorisation, AWAY, USER, 0)
  const ISSUE_HOME := Request(AwaitingAcceptance, HOME, USER, 0)

  const AWAYWARD := START + [SUBMIT_AWAY] + [SUBMIT_AWAY] + UpTo(1, 0, CREATE_AWAY) + [Persist(1, EA, 0)]
  const BACK := UpTo(2, 0, ISSUE_HOME) + [Persist(2, EA, 0), Diagnose(2)]

  lemma AwayOnce() returns (s: State)
    ensures Exec(START + [SUBMIT_AWAY], Anything) == Some(s)
    ensures s.store == map[0 := DRAFT] && s.writers == map[]
    ensures EventsIn(s.ledgers, HOME) == [SUBMITTED] && EventsIn(s.ledgers, AWAY) == [SUBMITTED]
  {
    Started(Anything);
    assert [] + [SUBMITTED] == [SUBMITTED];
    SubmitStep(START, Anything, STARTED, AWAY, SUBMITTED);
    s := AfterSubmit(STARTED, AWAY, SUBMITTED);
  }

  lemma AwayStarted() returns (s: State)
    ensures Exec(START + [SUBMIT_AWAY] + [SUBMIT_AWAY], Anything) == Some(s)
    ensures s.store == map[0 := DRAFT] && s.writers == map[]
    ensures EventsIn(s.ledgers, HOME) == [SUBMITTED] && EventsIn(s.ledgers, AWAY) == [SUBMITTED, SUBMITTED_AGAIN]
  {
    var s1 := AwayOnce();
    CreditTotalSnoc([], SUBMITTED);
    assert [] + [SUBMITTED] == [SUBMITTED];
    SubmitStep(START + [SUBMIT_AWAY], Anything, s1, AWAY, SUBMITTED_AGAIN);
    s := AfterSubmit(s1, AWAY, SUBMITTED_AGAIN);
  }

  lemma DraftMayMoveAway()
    ensures Begin(DRAFT, CREATE_AWAY, InternalActor(Draft)) == Holding(DRAFT, CREATE_AWAY)
    ensures DecideFor(DRAFT, CREATE_AWAY, [SUBMITTED, SUBMITTED_AGAIN], 0, true) == Decided(DRAFT, CREATE_AWAY, RESERVED_LATE)
  {
    assert TransitionsFrom(Draft)[0] == Transition(AwaitingAuthorisation, [ReprocessorExporter]);
  }

  lemma ReservedAway() returns (s: State)
    ensures Exec(START + [SUBMIT_AWAY] + [SUBMIT_AWAY] + UpTo(1, 0, CREATE_AWAY), Anything) == Some(s)
    ensures s.store == map[0 := DRAFT] && EventsIn(s.ledgers, HOME) == [SUBMITTED]
    ensures s.writers == map[1 := Appended(DRAFT, CREATE_AWAY, ApplyPrnEvent(DRAFT, RESERVED_LATE), 0)]
  {
    var front := START + [SUBMIT_AWAY] + [SUBMIT_AWAY];
    var s1 := AwayStarted();
    DraftMayMoveAway();
    UpdateRuns(front, Anything, s1, 1, DRAFT, CREATE_AWAY, RESERVED_LATE);
    s := Exec(front + UpTo(1, 0, CREATE_AWAY), Anything).value;
  }

  /** The misdirected creation is committed and leaves a watermark from the other ledger. */
  lemma Awayward() returns (s: State)
    ensures Exec(AWAYWARD, Anything) == Some(s)
    ensures s.store == map[0 := HELD] && EventsIn(s.ledgers, HOME) == [SUBMITTED] && 2 !in s.writers
  {
    var s1 := ReservedAway();
    PersistsHeld(s1, CREATE_AWAY);
    s := AfterPersist(s1, 1, EA, 0);
    PersistStep(START + [SUBMIT_AWAY] + [SUBMIT_AWAY] + UpTo(1, 0, CREATE_AWAY), Anything, s1, 1, s);
  }

  /** Once a misdirected event is committed, a request that names the PRN's own registration regresses too. */
  lemma RequestAfterMisdirectedOneRegresses()
    ensures Exec(AWAYWARD + BACK, Anything).Some?
    ensures Exec(AWAYWARD, Anything).Some? && OwnRegistration(Exec(AWAYWARD, Anything).value, ReadStored(2, 0, ISSUE_HOME))
    ensures var s := Exec(AWAYWARD + BACK, Anything).value; 2 in s.writers && s.writers[2] == Finished(Regressed)
  {
    var s := Awayward();
    var _ := IssuesBehind(AWAYWARD, s, HOME);
  }
}

/**
 * Updating a PRN's status (update-status.js): the imperative write paths over a repository and a ledger, what they
 * do when nobody interferes, and the proof that such an update is a run of the protocol's steps.
 */
module PrnUpdate {
  import opened Wrappers
  import opened PrnModel
  import opened Ledger
  import opened PrnFold
  import opened PrnStore
  import opened PrnNumber
  import opened PrnProtocol
  import opened Interleavings

  datatype UpdateError =
    | PrnNotFound
    | InvalidTransition(reason: TransitionError)
    | AccreditationCannotIssue
    | NoCommandForTransition
    | LedgerError(error: CommandError)
    | WriteRefused(outcome: WriteOutcome)
    | AllNumbersTaken

  // One random draw for every attempt the retry may make.
  type Draws = ds: seq<nat> | |ds| == MAX_ATTEMPTS && forall i | 0 <= i < |ds| :: ds[i] < RANDOM_SUFFIX_RANGE
    witness seq(27, _ => 0)

  /** What surrounds one update: the clock, the fetched accreditation and the random draws. */
  datatype Surroundings = Surroundings(actor: Option<PrnActor>, at: Instant, canIssue: bool, regulator: Regulator, draws: Draws)

  datatype Effect = Effect(result: Result<Prn, UpdateError>, store: Store, ledgers: Ledgers, notices: seq<Notice>)

  // ----- issuance numbers -----

  function Candidates(prn: Prn, regulator: Regulator, draws: Draws): (numbers: seq<string>)
    ensures |numbers| == MAX_ATTEMPTS
    ensures forall k | 0 <= k < |numbers| :: numbers[k] != ""
  {
    seq(MAX_ATTEMPTS, k requires 0 <= k < MAX_ATTEMPTS => CandidateNumber(prn, regulator, k, draws[k]))
  }

  /** The attempts from the k-th candidate on; the store never changes between them. */
  function IssueFrom(store: Store, projection: Prn, expectedVersion: int, candidates: seq<string>, k: nat): Result<Prn, UpdateError>
    requires k <= |candidates|
    decreases |candidates| - k
  {
    if k == |candidates| then Failure(AllNumbersTaken)
    else
      match PersistOutcome(store, projection.(prnNumber := Some(candidates[k])), expectedVersion)
      case NumberConflict => IssueFrom(store, projection, expectedVersion, candidates, k + 1)
      case Written(prn) => Success(prn)
      case refused => Failure(WriteRefused(refused))
  }

  /** One attempt: the guards refuse whatever the number, or the number is taken, or the projection is stored under it. */
  lemma AttemptByNumber(store: Store, projection: Prn, expectedVersion: int, number: string)
    requires number != ""
    ensures var unnumbered := PersistOutcome(store, projection.(prnNumber := None), expectedVersion);
      PersistOutcome(store, projection.(prnNumber := Some(number)), expectedVersion)
      == if !unnumbered.Written? then unnumbered
         else if NumberTaken(store, projection.id, number) then NumberConflict
         else Written(projection.(prnNumber := Some(number), version := expectedVersion + 1))
    ensures !PersistOutcome(store, projection.(prnNumber := None), expectedVersion).NumberConflict?
  {}

  /** The i-th candidate is the first free one from the k-th on. */
  predicate IsFirstFree(store: Store, id: PrnId, candidates: seq<string>, k: nat, i: nat) {
    && k <= i < |candidates|
    && !NumberTaken(store, id, candidates[i])
    && forall j | k <= j < i :: NumberTaken(store, id, candidates[j])
  }

  /**
   * Issuance ends in one of three ways: the guards refuse and no number is looked at; the projection, otherwise
   * unchanged, is stored under the first candidate no other document holds; or every candidate is taken.
   */
  lemma {:induction false} IssuanceTakesTheFirstFreeNumber(
    store: Store, projection: Prn, expectedVersion: int, candidates: seq<string>, k: nat)
    requires k <= |candidates| && forall i | 0 <= i < |candidates| :: candidates[i] != ""
    decreases |candidates| - k
    ensures var r := IssueFrom(store, projection, expectedVersion, candidates, k);
      var unnumbered := PersistOutcome(store, projection.(prnNumber := None), expectedVersion);
      if k < |candidates| && !unnumbered.Written? then r == Failure(WriteRefused(unnumbered))
      else if forall i | k <= i < |candidates| :: NumberTaken(store, projection.id, candidates[i]) then r == Failure(AllNumbersTaken)
      else exists i | k <= i < |candidates| ::
        && IsFirstFree(store, projection.id, candidates, k, i)
        && r == Success(projection.(prnNumber := Some(candidates[i]), version := expectedVersion + 1))
  {
    if k < |candidates| {
      AttemptByNumber(store, projection, expectedVersion, candidates[k]);
      if PersistOutcome(store, projection.(prnNumber := None), expectedVersion).Written? {
        if NumberTaken(store, projection.id, candidates[k]) {
          var next := k + 1;
          IssuanceTakesTheFirstFreeNumber(store, projection, expectedVersion, candidates, next);
          forall i: nat | IsFirstFree(store, projection.id, candidates, next, i)
            ensures IsFirstFree(store, projection.id, candidates, k, i)
          {}
        } else {
          assert IsFirstFree(store, projection.id, candidates, k, k);
        }
      }
    }
  }

  /** The agencies' letters, in the order England, Northern Ireland, Scotland, Wales. */
  function AgencyLetter(regulator: Regulator): char {
    if regulator.EA? then 'E' else if regulator.NIEA? then 'N' else if regulator.SEPA? then 'S' else 'W'
  }

  /** A number's parts are those of this PRN, the regulator, and one of the attempts. */
  ghost predicate NumberNames(number: string, prn: Prn, regulator: Regulator, draws: Draws) {
    exists attempt | 0 <= attempt < MAX_ATTEMPTS ::
      Decode(number) == Some(Parts(AgencyLetter(regulator), if prn.isExport then 'X' else 'R', YearSuffix(prn.accreditationYear),
                                   draws[attempt], SuffixOf(attempt)))
  }

  /** The number an issuance stores reads back as the regulator's agency, the PRN's own operator type and year, and one attempt's draw and suffix. */
  lemma {:induction false} IssuedNumberNamesThePrn(
    store: Store, prn: Prn, projection: Prn, expectedVersion: int, regulator: Regulator, draws: Draws)
    requires IssueFrom(store, projection, expectedVersion, Candidates(prn, regulator, draws), 0).Success?
    ensures var issued := IssueFrom(store, projection, expectedVersion, Candidates(prn, regulator, draws), 0).value;
      issued.prnNumber.Some? && NumberNames(issued.prnNumber.value, prn, regulator, draws)
  {
    var candidates := Candidates(prn, regulator, draws);
    IssuanceTakesTheFirstFreeNumber(store, projection, expectedVersion, candidates, 0);
    var i :| 0 <= i < |candidates| && IsFirstFree(store, projection.id, candidates, 0, i)
      && IssueFrom(store, projection, expectedVersion, candidates, 0)
         == Success(projection.(prnNumber := Some(candidates[i]), version := expectedVersion + 1));
    SuffixIsALetter(i);
    DecodeGenerated(regulator, prn.isExport, prn.accreditationYear, SuffixOf(i), draws[i]);
  }

  function StoreAfter(store: Store, r: Result<Prn, UpdateError>): Store {
    match r
    case Success(prn) => store[prn.id := prn]
    case Failure(_) => store
  }

  function WriteResultOf(outcome: WriteOutcome): Result<Prn, UpdateError> {
    match outcome
    case Written(prn) => Success(prn)
    case refused => Failure(WriteRefused(refused))
  }

  /** The retry loop: at most 27 attempts, stopping at the first that does not meet a number conflict. */
  method PersistProjectionWithIssuanceRetry(
    prns: InMemoryPrnRepository, prn: Prn, projection: Prn, expectedVersion: int, regulator: Regulator, draws: Draws)
    returns (r: Result<Prn, UpdateError>)
    requires prns.Valid()
    modifies prns
    ensures prns.Valid() && prns.order == old(prns.order)
    ensures r == IssueFrom(old(prns.storage), projection, expectedVersion, Candidates(prn, regulator, draws), 0)
    ensures prns.storage == StoreAfter(old(prns.storage), r)
  {
    ghost var candidates := Candidates(prn, regulator, draws);
    for attempt := 0 to MAX_ATTEMPTS
      invariant prns.Valid() && prns.order == old(prns.order) && prns.storage == old(prns.storage)
      invariant IssueFrom(prns.storage, projection, expectedVersion, candidates, attempt)
             == IssueFrom(prns.storage, projection, expectedVersion, candidates, 0)
    {
      var number := CandidateNumber(prn, regulator, attempt, draws[attempt]);
      assert candidates[attempt] == number;
      var outcome := prns.PersistProjection(projection.(prnNumber := Some(number)), expectedVersion);
      match outcome {
        case NumberConflict =>
        case Written(persisted) => return Success(persisted);
        case refused => return Failure(WriteRefused(refused));
      }
    }
    r := Failure(AllNumbersTaken);
  }

  // ----- the update, uncontended -----

  function PersistEffect(store: Store, prn: Prn, req: Request, projection: Prn, env: Surroundings): Result<Prn, UpdateError> {
    if req.newStatus == AwaitingAcceptance
    then IssueFrom(store, projection, prn.version, Candidates(prn, env.regulator, env.draws), 0)
    else WriteResultOf(PersistOutcome(store, projection, prn.version))
  }

  function NoticesAfter(req: Request, r: Result<Prn, UpdateError>): seq<Notice> {
    if r.Success? then NoticesFor(req.newStatus, r.value) else []
  }

  /** The event-first write: nothing happens unless the command commits, and a committed event is never taken back. */
  function StreamEffect(store: Store, ledgers: Ledgers, prn: Prn, req: Request, env: Surroundings): Effect {
    var events := EventsIn(ledgers, req.ledger);
    if req.newStatus == AwaitingAcceptance && !env.canIssue then Effect(Failure(AccreditationCannotIssue), store, ledgers, [])
    else
      match CommandFor(prn.status.current, req.newStatus)
      case None => Effect(Failure(NoCommandForTransition), store, ledgers, [])
      case Some(kind) =>
        match DecideCommand(events, kind, prn.id, prn.tonnage, env.at, req.user)
        case Failure(e) => Effect(Failure(LedgerError(e)), store, ledgers, [])
        case Success(event) =>
          var r := PersistEffect(store, prn, req, ApplyPrnEvent(prn, event), env);
          Effect(r, StoreAfter(store, r), ledgers[req.ledger := events + [event]], NoticesAfter(req, r))
  }

  function UpdateEffect(store: Store, ledgers: Ledgers, found: Option<Prn>, req: Request, env: Surroundings): Effect {
    if found.None? || !OwnedBy(found.value, req.ledger) then Effect(Failure(PrnNotFound), store, ledgers, [])
    else
      var prn := found.value;
      match ValidateTransition(prn.status.current, req.newStatus, env.actor)
      case Failure(e) => Effect(Failure(InvalidTransition(e)), store, ledgers, [])
      case Success(_) =>
        if IsDiscard(prn, req) then
          var r := WriteResultOf(UpdateStatusOutcome(store, DiscardParams(prn, req)));
          Effect(r, StoreAfter(store, r), ledgers, [])
        else StreamEffect(store, ledgers, prn, req, env)
  }

  /** The ledgers gained exactly this event, at the next slot of the request's ledger. */
  predicate Gained(ledgers: Ledgers, ledgers': Ledgers, ledger: LedgerId, event: LedgerEvent) {
    && event.number == Head(EventsIn(ledgers, ledger)) + 1
    && ledgers' == ledgers[ledger := EventsIn(ledgers, ledger) + [event]]
  }

  /** The document a committed event leaves: the event applied, one version on, numbered if it was issued. */
  predicate IsPersisted(prn: Prn, event: LedgerEvent, persisted: Prn)
    requires event.body.PrnEvent?
  {
    && Content(persisted) == Content(ApplyPrnEvent(prn, event))
    && persisted.version == prn.version + 1
    && (if persisted.status.current == AwaitingAcceptance then persisted.prnNumber.Some? else persisted.prnNumber == prn.prnNumber)
  }

  lemma PersistedDocument(store: Store, prn: Prn, req: Request, event: LedgerEvent, env: Surroundings)
    requires event.body.PrnEvent? && StatusOfKind(event.body.kind) == req.newStatus
    ensures var r := PersistEffect(store, prn, req, ApplyPrnEvent(prn, event), env);
      match r
      case Success(persisted) => IsPersisted(prn, event, persisted) && persisted.status.current == req.newStatus
      case Failure(error) => error.WriteRefused? || error.AllNumbersTaken?
  {
    IssuanceTakesTheFirstFreeNumber(store, ApplyPrnEvent(prn, event), prn.version, Candidates(prn, env.regulator, env.draws), 0);
  }

  /** The document is in the status, and its stamps and last history entry carry this time and this user's id and name. */
  predicate IsStamped(prn: Prn, status: Status, at: Instant, user: LedgerUser) {
    && prn.status.current == status
    && prn.updatedAt == at && prn.updatedBy.id == user.id && prn.updatedBy.name == user.name
    && prn.status.currentAt == at
    && prn.status.history != []
    && var last := prn.status.history[|prn.status.history| - 1];
      last.status == status && last.at == at && last.actor.id == user.id && last.actor.name == user.name
  }

  /** The slot of the operation the event records carries the event's time and author. */
  ghost predicate SlotStamped(prn: Prn, event: LedgerEvent)
    requires event.body.PrnEvent?
  {
    forall slot: Slot :: KindRecordedIn(slot) == event.body.kind ==>
      slot in prn.status.slots && StampedBy(prn.status.slots[slot].at, prn.status.slots[slot].actor, event)
  }

  lemma PersistedIsStamped(prn: Prn, event: LedgerEvent, persisted: Prn)
    requires event.body.PrnEvent? && IsPersisted(prn, event, persisted)
    ensures IsStamped(persisted, StatusOfKind(event.body.kind), event.createdAt, event.createdBy)
    ensures SlotStamped(persisted, event)
  {
    var applied := ApplyPrnEvent(prn, event);
    assert Content(persisted).status == persisted.status && Content(applied).status == applied.status;
    assert Content(persisted).updatedAt == persisted.updatedAt && Content(applied).updatedAt == applied.updatedAt;
    assert Content(persisted).updatedBy == persisted.updatedBy && Content(applied).updatedBy == applied.updatedBy;
  }

  /** A discard is stamped with the time the request gives; whoever asks for it is the one recorded. */
  lemma DiscardIsStamped(store: Store, prn: Prn, req: Request)
    requires UpdateStatusOutcome(store, DiscardParams(prn, req)).Written?
    ensures IsStamped(UpdateStatusOutcome(store, DiscardParams(prn, req)).prn, req.newStatus, req.at, req.user)
  {}

  /** The event a committed command adds: this PRN's, of its tonnage, at this time, by this user. */
  predicate IsCommandEvent(event: LedgerEvent, prn: Prn, req: Request, env: Surroundings) {
    && event.body.PrnEvent? && event.body.prnId == prn.id && event.body.amount == prn.tonnage
    && event.createdAt == env.at && event.createdBy == req.user
  }

  /**
   * What a successful update did: a discard touched no ledger, anything else appended one event and stored its effect.
   * The document is stamped by the request's user, with the time of the event or, for a discard, of the request.
   */
  lemma {:induction false} SuccessMeans(store: Store, ledgers: Ledgers, prn: Prn, req: Request, env: Surroundings)
    requires UpdateEffect(store, ledgers, Some(prn), req, env).result.Success?
    ensures var effect := UpdateEffect(store, ledgers, Some(prn), req, env);
      var persisted := effect.result.value;
      && OwnedBy(prn, req.ledger) && ActorMayMove(prn.status.current, req.newStatus, env.actor)
      && effect.store == store[persisted.id := persisted]
      && persisted.version == prn.version + 1
      && IsStamped(persisted, req.newStatus, if IsDiscard(prn, req) then req.at else env.at, req.user)
      && if IsDiscard(prn, req) then effect.ledgers == ledgers
         else exists event: LedgerEvent ::
           && IsCommandEvent(event, prn, req, env) && Gained(ledgers, effect.ledgers, req.ledger, event)
           && IsPersisted(prn, event, persisted) && SlotStamped(persisted, event)
  {
    if IsDiscard(prn, req) {
      DiscardIsStamped(store, prn, req);
    } else {
      var kind := CommandFor(prn.status.current, req.newStatus).value;
      var event := DecideCommand(EventsIn(ledgers, req.ledger), kind, prn.id, prn.tonnage, env.at, req.user).value;
      CommandReachesItsStatus(prn.status.current, req.newStatus);
      PersistedDocument(store, prn, req, event, env);
      PersistedIsStamped(prn, event, UpdateEffect(store, ledgers, Some(prn), req, env).result.value);
      assert Gained(ledgers, UpdateEffect(store, ledgers, Some(prn), req, env).ledgers, req.ledger, event);
    }
  }

  /** A successful update notifies of a cancellation requested or completed, once, and of nothing else. */
  lemma SuccessNotifies(store: Store, ledgers: Ledgers, prn: Prn, req: Request, env: Surroundings)
    requires UpdateEffect(store, ledgers, Some(prn), req, env).result.Success?
    ensures var effect := UpdateEffect(store, ledgers, Some(prn), req, env);
      var persisted := effect.result.value;
      && |effect.notices| == (if req.newStatus == AwaitingCancellation || req.newStatus == Cancelled then 1 else 0)
      && forall n | n in effect.notices ::
        && n.prnId == persisted.id
        && n.organisationId == persisted.ledger.organisationId && n.registrationId == persisted.ledger.registrationId
        && (IssuedSlot in persisted.status.slots ==> n.issuedAt == Some(persisted.status.slots[IssuedSlot].at))
  {}

  /**
   * Each refusal, exactly when it is given. The PRN must belong to the organisation and accreditation the request names
   * (which registration it names is not compared), the actor must be permitted the transition, an issuance needs an
   * accreditation that can issue, and the ledger must allow the command. The missing-command error is never given.
   */
  lemma {:induction false} RefusalsMean(store: Store, ledgers: Ledgers, prn: Prn, req: Request, env: Surroundings)
    ensures var r := UpdateEffect(store, ledgers, Some(prn), req, env).result;
      var from, to := prn.status.current, req.newStatus;
      var owned := prn.ledger.organisationId == req.ledger.organisationId && prn.ledger.accreditationId == req.ledger.accreditationId;
      var permitted := owned && ActorMayMove(from, to, env.actor);
      && (r == Failure(PrnNotFound) <==> !owned)
      && (r == Failure(InvalidTransition(StatusConflict)) <==> owned && !CanMove(from, to))
      && (r == Failure(InvalidTransition(UnauthorisedTransition)) <==> owned && CanMove(from, to) && !permitted)
      && (r == Failure(AccreditationCannotIssue) <==> permitted && to == AwaitingAcceptance && !env.canIssue)
      && (r.Failure? && r.error.LedgerError? <==>
            && permitted && (to == AwaitingAcceptance ==> env.canIssue)
            && CommandFor(from, to).Some?
            && !Commits(EventsIn(ledgers, req.ledger), CommandFor(from, to).value, prn.tonnage))
      && r != Failure(NoCommandForTransition)
    ensures UpdateEffect(store, ledgers, None, req, env) == Effect(Failure(PrnNotFound), store, ledgers, [])
  {
    var from, to := prn.status.current, req.newStatus;
    CommandsFollowTheTable(from, to);
    assert ActorMayMove(from, to, env.actor) ==> CanMove(from, to);
    if CommandFor(from, to).Some? {
      var events, kind := EventsIn(ledgers, req.ledger), CommandFor(from, to).value;
      var decided := DecideCommand(events, kind, prn.id, prn.tonnage, env.at, req.user);
      CommitsExactlyWhen(events, kind, prn.id, prn.tonnage, env.at, req.user);
      CommandReachesItsStatus(from, to);
      if decided.Success? {
        PersistedDocument(store, prn, req, decided.value, env);
      }
    }
  }

  /** The errors only a failed persist raises. */
  predicate FailedToPersist(prn: Prn, req: Request, error: UpdateError) {
    !IsDiscard(prn, req) && (error.WriteRefused? || error.AllNumbersTaken?)
  }

  /** What a failed update left: every document, and every ledger unless the persist failed after the append; nothing compensates. */
  lemma {:induction false} FailureMeans(store: Store, ledgers: Ledgers, prn: Prn, req: Request, env: Surroundings)
    requires UpdateEffect(store, ledgers, Some(prn), req, env).result.Failure?
    ensures var effect := UpdateEffect(store, ledgers, Some(prn), req, env);
      && effect.store == store && effect.notices == []
      && if FailedToPersist(prn, req, effect.result.error)
         then exists event: LedgerEvent :: Gained(ledgers, effect.ledgers, req.ledger, event)
         else effect.ledgers == ledgers
  {
    var effect := UpdateEffect(store, ledgers, Some(prn), req, env);
    if OwnedBy(prn, req.ledger) && !IsDiscard(prn, req) && CommandFor(prn.status.current, req.newStatus).Some? {
      var kind := CommandFor(prn.status.current, req.newStatus).value;
      var decided := DecideCommand(EventsIn(ledgers, req.ledger), kind, prn.id, prn.tonnage, env.at, req.user);
      CommandReachesItsStatus(prn.status.current, req.newStatus);
      if decided.Success? {
        PersistedDocument(store, prn, req, decided.value, env);
        assert effect.ledgers != ledgers ==> Gained(ledgers, effect.ledgers, req.ledger, decided.value);
      }
    }
  }

  /** The update gets as far as its guarded write: a discard straight away, anything else once its event is appended. */
  predicate ReachesItsWrite(ledgers: Ledgers, prn: Prn, req: Request, env: Surroundings) {
    && OwnedBy(prn, req.ledger)
    && ValidateTransition(prn.status.current, req.newStatus, env.actor).Success?
    && (IsDiscard(prn, req)
        || ((req.newStatus == AwaitingAcceptance ==> env.canIssue)
            && CommandFor(prn.status.current, req.newStatus).Some?
            && DecideCommand(EventsIn(ledgers, req.ledger), CommandFor(prn.status.current, req.newStatus).value,
                             prn.id, prn.tonnage, env.at, req.user).Success?))
  }

  /** The watermark an update's write carries: a discard's held one, or the slot it is about to take in the named ledger. */
  function CarriedReach(ledgers: Ledgers, prn: Prn, req: Request): nat {
    if IsDiscard(prn, req) then Reach(prn.watermark) else Head(EventsIn(ledgers, req.ledger)) + 1
  }

  lemma PersistRegressesIffBehind(store: Store, prn: Prn, req: Request, projection: Prn, env: Surroundings)
    requires projection.watermark.Some?
    ensures PersistEffect(store, prn, req, projection, env) == Failure(WriteRefused(WatermarkRegression)) <==>
      (projection.id in store && store[projection.id].version == prn.version
       && Reach(projection.watermark) < Reach(store[projection.id].watermark))
  {
    IssuanceTakesTheFirstFreeNumber(store, projection, prn.version, Candidates(prn, env.regulator, env.draws), 0);
    assert projection.(prnNumber := None).watermark == projection.watermark;
  }

  /**
   * Exactly when an uncontended update ends in a watermark regression: it reaches its write, the stored version is the
   * held one, and what it carries, for anything but a discard the next slot of the named ledger, is behind the stored watermark.
   */
  lemma {:induction false} UpdateRegressesIffSlotBehind(store: Store, ledgers: Ledgers, prn: Prn, req: Request, env: Surroundings)
    ensures UpdateEffect(store, ledgers, Some(prn), req, env).result == Failure(WriteRefused(WatermarkRegression)) <==>
      (ReachesItsWrite(ledgers, prn, req, env)
       && prn.id in store && store[prn.id].version == prn.version
       && CarriedReach(ledgers, prn, req) < Reach(store[prn.id].watermark))
  {
    if ReachesItsWrite(ledgers, prn, req, env) && !IsDiscard(prn, req) {
      var kind := CommandFor(prn.status.current, req.newStatus).value;
      var event := DecideCommand(EventsIn(ledgers, req.ledger), kind, prn.id, prn.tonnage, env.at, req.user).value;
      PersistRegressesIffBehind(store, prn, req, ApplyPrnEvent(prn, event), env);
    }
  }

  /** notifyPrnCancelled: one notice for a transition into a cancelled status, naming the PRN, its owner and its time of issue. */
  method NotifyPrnCancelled(newStatus: Status, prn: Prn) returns (notices: seq<Notice>)
    ensures notices == NoticesFor(newStatus, prn)
    ensures |notices| == if newStatus == AwaitingCancellation || newStatus == Cancelled then 1 else 0
    ensures forall n | n in notices ::
      && n.prnId == prn.id && n.organisationId == prn.ledger.organisationId && n.registrationId == prn.ledger.registrationId
      && (IssuedSlot in prn.status.slots ==> n.issuedAt == Some(prn.status.slots[IssuedSlot].at))
  {
    if newStatus !in CANCELLED_PRN_STATUSES {
      return [];
    }
    var issuedAt := if IssuedSlot in prn.status.slots then Some(prn.status.slots[IssuedSlot].at) else None;
    notices := [Notice(prn.ledger.organisationId, prn.ledger.registrationId, prn.id, issuedAt)];
  }

  method PerformDiscardWrite(prns: InMemoryPrnRepository, prn: Prn, req: Request) returns (r: Result<Prn, UpdateError>)
    requires prns.Valid()
    modifies prns
    ensures prns.Valid() && prns.order == old(prns.order)
    ensures r == WriteResultOf(UpdateStatusOutcome(old(prns.storage), DiscardParams(prn, req)))
    ensures prns.storage == StoreAfter(old(prns.storage), r)
  {
    var outcome := prns.UpdateStatus(DiscardParams(prn, req));
    r := WriteResultOf(outcome);
  }

  method PerformStreamWrite(prns: InMemoryPrnRepository, ledger: LedgerRepository, prn: Prn, req: Request, env: Surroundings)
    returns (r: Result<Prn, UpdateError>)
    requires prns.Valid()
    modifies prns, ledger
    ensures prns.Valid() && prns.order == old(prns.order)
    ensures var effect := StreamEffect(old(prns.storage), old(ledger.ledgers), prn, req, env);
      r == effect.result && prns.storage == effect.store && ledger.ledgers == effect.ledgers
  {
    if req.newStatus == AwaitingAcceptance && !env.canIssue {
      return Failure(AccreditationCannotIssue);
    }
    match CommandFor(prn.status.current, req.newStatus) {
      case None => r := Failure(NoCommandForTransition);
      case Some(kind) =>
        var appended := ledger.RunPrnCommand(req.ledger, kind, prn.id, prn.tonnage, env.at, req.user);
        if appended.Failure? {
          return Failure(LedgerError(appended.error));
        }
        var projection := ApplyPrnEvent(prn, appended.value);
        if req.newStatus == AwaitingAcceptance {
          r := PersistProjectionWithIssuanceRetry(prns, prn, projection, prn.version, env.regulator, env.draws);
        } else {
          var outcome := prns.PersistProjection(projection, prn.version);
          r := WriteResultOf(outcome);
        }
    }
  }

  /** updatePrnStatus: resolve, validate, write, notify. `provided` is the document the route already holds, if any. */
  method UpdatePrnStatus(prns: InMemoryPrnRepository, ledger: LedgerRepository, id: PrnId, provided: Option<Prn>,
                         req: Request, env: Surroundings)
    returns (r: Result<Prn, UpdateError>, notices: seq<Notice>)
    requires prns.Valid()
    modifies prns, ledger
    ensures prns.Valid() && prns.order == old(prns.order)
    ensures var found := if provided.Some? then provided
                         else if id in old(prns.storage) then Some(old(prns.storage)[id]) else None;
      Effect(r, prns.storage, ledger.ledgers, notices) == UpdateEffect(old(prns.storage), old(ledger.ledgers), found, req, env)
  {
    notices := [];
    var found := provided;
    if found.None? {
      found := prns.FindById(id);
    }
    if found.None? || !OwnedBy(found.value, req.ledger) {
      return Failure(PrnNotFound), [];
    }
    var prn := found.value;
    var validated := ValidateTransition(prn.status.current, req.newStatus, env.actor);
    if validated.Failure? {
      return Failure(InvalidTransition(validated.error)), [];
    }
    if IsDiscard(prn, req) {
      r := PerformDiscardWrite(prns, prn, req);
    } else {
      r := PerformStreamWrite(prns, ledger, prn, req, env);
    }
    if r.Success? {
      notices := NotifyPrnCancelled(req.newStatus, r.value);
    }
  }

  // ----- an uncontended update is a run of protocol steps -----

  /** Runs actions from any state. */
  function RunFrom(s: State, actions: seq<Action>): Option<State>
    decreases |actions|
  {
    if actions == [] then Some(s)
    else if Enabled(s, actions[0]) then RunFrom(Next(s, actions[0]), actions[1..])
    else None
  }

  lemma {:induction false} RunFromContinuesExec(front: seq<Action>, actions: seq<Action>)
    requires Exec(front, Anything).Some?
    ensures Exec(front + actions, Anything) == RunFrom(Exec(front, Anything).value, actions)
    decreases |actions|
  {
    if actions == [] {
      assert front + actions == front;
    } else {
      var s, a := Exec(front, Anything).value, actions[0];
      assert (front + [a])[..|front|] == front;
      assert front + actions == (front + [a]) + actions[1..];
      if Enabled(s, a) {
        RunFromContinuesExec(front + [a], actions[1..]);
      } else {
        ExecStaysStuck(front + [a], actions[1..]);
      }
    }
  }

  lemma {:induction false} ExecStaysStuck(front: seq<Action>, rest: seq<Action>)
    requires Exec(front, Anything) == None
    ensures Exec(front + rest, Anything) == None
  {
    if rest == [] {
      assert front + rest == front;
    } else {
      assert (front + rest)[..|front + rest| - 1] == front + rest[..|rest| - 1];
      ExecStaysStuck(front, rest[..|rest| - 1]);
    }
  }

  lemma RunFromCons(s: State, a: Action, rest: seq<Action>)
    requires Enabled(s, a)
    ensures RunFrom(s, [a] + rest) == RunFrom(Next(s, a), rest)
  {
    assert ([a] + rest)[1..] == rest;
  }

  /** The persist attempts a writer makes against a store nobody else writes. */
  function PersistSteps(store: Store, writer: Writer, w: WriterId, regulator: Regulator, draws: Draws): seq<Action>
    requires writer.Appended? && writer.attempts < MAX_ATTEMPTS
    decreases MAX_ATTEMPTS - writer.attempts
  {
    var attempt := Persist(w, regulator, draws[writer.attempts]);
    var outcome := PersistOutcome(store, Attempted(writer, regulator, draws[writer.attempts]), writer.prn.version);
    if outcome.NumberConflict? && AfterNumberConflict(writer).Appended?
    then [attempt] + PersistSteps(store, AfterNumberConflict(writer), w, regulator, draws)
    else [attempt]
  }

  /** The steps of one update after its transition has been validated. */
  function WriteSteps(s: State, w: WriterId, prn: Prn, req: Request, env: Surroundings): seq<Action> {
    if IsDiscard(prn, req) then [Discard(w)]
    else
      var decided := DecideFor(prn, req, EventsIn(s.ledgers, req.ledger), env.at, env.canIssue);
      [DecideEvent(w, env.at, env.canIssue)]
      + (if decided.Decided?
         then [Append(w)] + PersistSteps(s.store, Appended(prn, req, ApplyPrnEvent(prn, decided.event), 0), w, env.regulator, env.draws)
         else [])
  }

  /** How a writer that has run its course shows the error an update throws. */
  predicate ShowsError(writer: Writer, error: UpdateError) {
    match error
    case WriteRefused(outcome) => if outcome.NumberConflict? then writer == Finished(NumberClash) else writer.Missed?
    case AllNumbersTaken => writer == Finished(NumbersExhausted)
    case LedgerError(e) => writer == Finished(CommandFailed(e))
    case _ => writer == Finished(Refused)
  }

  predicate Reports(writer: Writer, r: Result<Prn, UpdateError>) {
    match r
    case Success(prn) => writer == Finished(Committed(prn))
    case Failure(error) => ShowsError(writer, error)
  }

  /** A state that differs from another only as one update's effect allows. */
  predicate Reached(s: State, s': Option<State>, w: WriterId, effect: Effect) {
    && s'.Some?
    && s'.value.store == effect.store
    && s'.value.ledgers == effect.ledgers
    && s'.value.notices == s.notices + effect.notices
    && s'.value.created == s.created && s'.value.drafts == s.drafts
    && w in s'.value.writers && Reports(s'.value.writers[w], effect.result)
    && s'.value.writers == s.writers[w := s'.value.writers[w]]
  }

  function RemainingPersist(store: Store, writer: Writer, regulator: Regulator, draws: Draws): Result<Prn, UpdateError>
    requires writer.Appended?
  {
    if writer.req.newStatus != AwaitingAcceptance then WriteResultOf(PersistOutcome(store, writer.projection, writer.prn.version))
    else if writer.attempts < MAX_ATTEMPTS
    then IssueFrom(store, writer.projection, writer.prn.version, Candidates(writer.prn, regulator, draws), writer.attempts)
    else Failure(AllNumbersTaken)
  }

  /** The k-th attempt decides what remains, unless it meets a number conflict it may retry. */
  lemma AttemptDecides(store: Store, writer: Writer, regulator: Regulator, draws: Draws)
    requires writer.Appended? && writer.attempts < MAX_ATTEMPTS
    ensures var outcome := PersistOutcome(store, Attempted(writer, regulator, draws[writer.attempts]), writer.prn.version);
      RemainingPersist(store, writer, regulator, draws)
      == if outcome.NumberConflict? && writer.req.newStatus == AwaitingAcceptance
         then RemainingPersist(store, writer.(attempts := writer.attempts + 1), regulator, draws)
         else WriteResultOf(outcome)
  {
    var k := writer.attempts;
    assert Candidates(writer.prn, regulator, draws)[k] == CandidateNumber(writer.prn, regulator, k, draws[k]);
    assert IssueFrom(store, writer.projection, writer.prn.version, Candidates(writer.prn, regulator, draws), MAX_ATTEMPTS)
        == Failure(AllNumbersTaken);
  }

  /** What remains of a persist, as the effect of a run from a state where the writer is about to attempt it. */
  function PersistRest(s: State, w: WriterId, regulator: Regulator, draws: Draws): Effect
    requires w in s.writers && s.writers[w].Appended?
  {
    var r := RemainingPersist(s.store, s.writers[w], regulator, draws);
    Effect(r, StoreAfter(s.store, r), s.ledgers, NoticesAfter(s.writers[w].req, r))
  }

  /** An attempt that meets a number conflict only counts one attempt more. */
  lemma RetriedAttempt(s: State, w: WriterId, regulator: Regulator, draws: Draws)
    requires w in s.writers && s.writers[w].Appended? && s.writers[w].attempts < MAX_ATTEMPTS
    requires var writer := s.writers[w];
      var outcome := PersistOutcome(s.store, Attempted(writer, regulator, draws[writer.attempts]), writer.prn.version);
      outcome.NumberConflict? && AfterNumberConflict(writer).Appended?
    ensures var next := AfterNumberConflict(s.writers[w]);
      && next.attempts == s.writers[w].attempts + 1 < MAX_ATTEMPTS
      && AfterPersist(s, w, regulator, draws[s.writers[w].attempts]) == With(s, w, next)
      && PersistRest(With(s, w, next), w, regulator, draws) == PersistRest(s, w, regulator, draws)
  {
    AttemptDecides(s.store, s.writers[w], regulator, draws);
  }

  /** Setting the writer first makes no difference to what is reached. */
  lemma ReachedThroughWriter(s: State, writer: Writer, end: Option<State>, w: WriterId, effect: Effect)
    requires Reached(With(s, w, writer), end, w, effect)
    ensures Reached(s, end, w, effect)
  {}

  lemma {:induction false} PersistStepsRun(s: State, w: WriterId, regulator: Regulator, draws: Draws)
    requires w in s.writers && s.writers[w].Appended? && s.writers[w].attempts < MAX_ATTEMPTS
    ensures Reached(s, RunFrom(s, PersistSteps(s.store, s.writers[w], w, regulator, draws)), w, PersistRest(s, w, regulator, draws))
    decreases MAX_ATTEMPTS - s.writers[w].attempts
  {
    var writer := s.writers[w];
    var attempt := Persist(w, regulator, draws[writer.attempts]);
    var outcome := PersistOutcome(s.store, Attempted(writer, regulator, draws[writer.attempts]), writer.prn.version);
    if outcome.NumberConflict? && AfterNumberConflict(writer).Appended? {
      var next := AfterNumberConflict(writer);
      var rest := PersistSteps(s.store, next, w, regulator, draws);
      RetriedAttempt(s, w, regulator, draws);
      PersistStepsRun(With(s, w, next), w, regulator, draws);
      RunFromCons(s, attempt, rest);
      ReachedThroughWriter(s, next, RunFrom(With(s, w, next), rest), w, PersistRest(s, w, regulator, draws));
    } else {
      AttemptDecides(s.store, writer, regulator, draws);
      RunFromCons(s, attempt, []);
      assert [attempt] + [] == [attempt];
    }
  }

  lemma DecideStepRuns(s: State, w: WriterId, prn: Prn, req: Request, env: Surroundings)
    requires w in s.writers && s.writers[w] == Holding(prn, req) && !IsDiscard(prn, req)
    ensures var decide := DecideEvent(w, env.at, env.canIssue);
      && Enabled(s, decide)
      && Next(s, decide) == With(s, w, DecideFor(prn, req, EventsIn(s.ledgers, req.ledger), env.at, env.canIssue))
  {}

  lemma DecidedSlotIsFree(events: Events, prn: Prn, req: Request, at: Instant, canIssue: bool)
    requires DecideFor(prn, req, events, at, canIssue).Decided?
    ensures var event := DecideFor(prn, req, events, at, canIssue).event;
      && event.body.PrnEvent?
      && AppendEvent(events, event) == Success(events + [event])
      && ProjectAppended(prn, req, event) == Appended(prn, req, ApplyPrnEvent(prn, event), 0)
  {
    SingleEventFold(prn, DecideFor(prn, req, events, at, canIssue).event);
  }

  /** Uncontended, the slot just decided is still free, so the append takes it and the persist attempts follow. */
  lemma CommittedStreamRuns(s: State, w: WriterId, prn: Prn, req: Request, env: Surroundings)
    requires w in s.writers && s.writers[w] == Holding(prn, req) && !IsDiscard(prn, req)
    requires DecideFor(prn, req, EventsIn(s.ledgers, req.ledger), env.at, env.canIssue).Decided?
    ensures Reached(s, RunFrom(s, WriteSteps(s, w, prn, req, env)), w, StreamEffect(s.store, s.ledgers, prn, req, env))
  {
    var decided := DecideFor(prn, req, EventsIn(s.ledgers, req.ledger), env.at, env.canIssue);
    DecideStepRuns(s, w, prn, req, env);
    AppendStepRuns(s, w, prn, req, env);
    var s1, s2 := With(s, w, decided), Appending(s, w, prn, req, decided.event);
    var persists := PersistSteps(s.store, s2.writers[w], w, env.regulator, env.draws);
    PersistStepsRun(s2, w, env.regulator, env.draws);
    RunFromCons(s1, Append(w), persists);
    RunFromCons(s, DecideEvent(w, env.at, env.canIssue), [Append(w)] + persists);
  }

  /** The state in which a writer has appended the event it decided. */
  function Appending(s: State, w: WriterId, prn: Prn, req: Request, event: LedgerEvent): State
    requires event.body.PrnEvent?
  {
    s.(writers := s.writers[w := Appended(prn, req, ApplyPrnEvent(prn, event), 0)],
       ledgers := s.ledgers[req.ledger := EventsIn(s.ledgers, req.ledger) + [event]])
  }

  lemma AppendStepRuns(s: State, w: WriterId, prn: Prn, req: Request, env: Surroundings)
    requires w in s.writers && DecideFor(prn, req, EventsIn(s.ledgers, req.ledger), env.at, env.canIssue).Decided?
    ensures var decided := DecideFor(prn, req, EventsIn(s.ledgers, req.ledger), env.at, env.canIssue);
      var s1 := With(s, w, decided);
      decided.event.body.PrnEvent? && Enabled(s1, Append(w)) && Next(s1, Append(w)) == Appending(s, w, prn, req, decided.event)
  {
    var events := EventsIn(s.ledgers, req.ledger);
    var decided := DecideFor(prn, req, events, env.at, env.canIssue);
    DecidedSlotIsFree(events, prn, req, env.at, env.canIssue);
    var s1 := With(s, w, decided);
    var appended := Appended(prn, req, ApplyPrnEvent(prn, decided.event), 0);
    assert AfterAppend(s1, w) == With(s1, w, appended).(ledgers := s.ledgers[req.ledger := events + [decided.event]]);
    assert s1.writers[w := appended] == s.writers[w := appended];
  }

  lemma RefusedStreamRuns(s: State, w: WriterId, prn: Prn, req: Request, env: Surroundings)
    requires w in s.writers && s.writers[w] == Holding(prn, req) && !IsDiscard(prn, req)
    requires !DecideFor(prn, req, EventsIn(s.ledgers, req.ledger), env.at, env.canIssue).Decided?
    ensures Reached(s, RunFrom(s, WriteSteps(s, w, prn, req, env)), w, StreamEffect(s.store, s.ledgers, prn, req, env))
  {
    DecideStepRuns(s, w, prn, req, env);
    RunFromCons(s, DecideEvent(w, env.at, env.canIssue), []);
    assert WriteSteps(s, w, prn, req, env) == [DecideEvent(w, env.at, env.canIssue)] + [];
  }

  lemma DiscardRuns(s: State, w: WriterId, prn: Prn, req: Request)
    requires w in s.writers && s.writers[w] == Holding(prn, req) && IsDiscard(prn, req)
    ensures var r := WriteResultOf(UpdateStatusOutcome(s.store, DiscardParams(prn, req)));
      Reached(s, RunFrom(s, [Discard(w)]), w, Effect(r, StoreAfter(s.store, r), s.ledgers, []))
  {
    RunFromCons(s, Discard(w), []);
    assert [Discard(w)] + [] == [Discard(w)];
  }

  lemma {:induction false} WriteStepsRun(s: State, w: WriterId, prn: Prn, req: Request, env: Surroundings)
    requires w in s.writers && s.writers[w] == Holding(prn, req)
    requires OwnedBy(prn, req.ledger) && ValidateTransition(prn.status.current, req.newStatus, env.actor).Success?
    ensures Reached(s, RunFrom(s, WriteSteps(s, w, prn, req, env)), w, UpdateEffect(s.store, s.ledgers, Some(prn), req, env))
  {
    if IsDiscard(prn, req) {
      DiscardRuns(s, w, prn, req);
    } else if DecideFor(prn, req, EventsIn(s.ledgers, req.ledger), env.at, env.canIssue).Decided? {
      CommittedStreamRuns(s, w, prn, req, env);
    } else {
      RefusedStreamRuns(s, w, prn, req, env);
    }
  }

  /** The steps after a route's reads: the writer either was refused or holds a document to update. */
  function StepsAfterReads(s: State, w: WriterId, env: Surroundings): seq<Action>
    requires w in s.writers
  {
    match s.writers[w]
    case Holding(prn, req) => WriteSteps(s, w, prn, req, env)
    case _ => []
  }

  lemma {:induction false} AfterReadsRun(s: State, w: WriterId, prn: Prn, req: Request, env: Surroundings)
    requires w in s.writers && s.writers[w] == Begin(prn, req, env.actor)
    ensures Reached(s, RunFrom(s, StepsAfterReads(s, w, env)), w, UpdateEffect(s.store, s.ledgers, Some(prn), req, env))
  {
    if s.writers[w].Holding? {
      WriteStepsRun(s, w, prn, req, env);
    }
  }

  function InternalSteps(s: State, w: WriterId, id: PrnId, req: Request, env: Surroundings): seq<Action>
    requires Enabled(s, ReadStored(w, id, req))
  {
    var read := ReadStored(w, id, req);
    [read] + StepsAfterReads(Next(s, read), w, env)
  }

  /** The internal route's uncontended update, from the stored document, is a run of the protocol's steps. */
  lemma InternalUpdateIsARun(s: State, w: WriterId, id: PrnId, req: Request, env: Surroundings)
    requires w !in s.writers && id in s.store && env.actor == InternalActor(s.store[id].status.current)
    ensures Reached(s, RunFrom(s, InternalSteps(s, w, id, req, env)), w,
                    UpdateEffect(s.store, s.ledgers, Some(s.store[id]), req, env))
  {
    var read := ReadStored(w, id, req);
    var s1 := With(s, w, Begin(s.store[id], req, env.actor));
    assert Next(s, read) == s1;
    AfterReadsRun(s1, w, s.store[id], req, env);
    RunFromCons(s, read, StepsAfterReads(s1, w, env));
  }

  function ExternalSteps(s: State, w: WriterId, id: PrnId, req: Request, env: Surroundings): seq<Action>
    requires Enabled(s, FetchByNumber(w, id, req))
  {
    var s1 := Next(s, FetchByNumber(w, id, req));
    [FetchByNumber(w, id, req)] + ([CatchUp(w)] + StepsAfterReads(Next(s1, CatchUp(w)), w, env))
  }

  lemma CaughtUpUpdateRuns(s: State, w: WriterId, stored: Prn, req: Request, env: Surroundings)
    requires w in s.writers && s.writers[w] == Fetched(stored, req) && env.actor == Some(Producer)
    ensures var prn := ProjectFromTail(stored, EventsIn(s.ledgers, stored.ledger));
      Reached(s, RunFrom(s, [CatchUp(w)] + StepsAfterReads(Next(s, CatchUp(w)), w, env)), w,
              UpdateEffect(s.store, s.ledgers, Some(prn), req, env))
  {
    var prn := ProjectFromTail(stored, EventsIn(s.ledgers, stored.ledger));
    var s' := With(s, w, Begin(prn, req, env.actor));
    assert Next(s, CatchUp(w)) == s';
    AfterReadsRun(s', w, prn, req, env);
    RunFromCons(s, CatchUp(w), StepsAfterReads(s', w, env));
  }

  /** The external route's uncontended update, from the projected document, is a run of the protocol's steps. */
  lemma {:induction false} ExternalUpdateIsARun(s: State, w: WriterId, id: PrnId, req: Request, env: Surroundings)
    requires w !in s.writers && id in s.store && s.store[id].prnNumber.Some? && env.actor == Some(Producer)
    ensures Reached(s, RunFrom(s, ExternalSteps(s, w, id, req, env)), w,
                    UpdateEffect(s.store, s.ledgers, Some(Projected(s, id)), req.(ledger := s.store[id].ledger), env))
  {
    var own := req.(ledger := s.store[id].ledger);
    var s1 := With(s, w, Fetched(s.store[id], own));
    assert Next(s, FetchByNumber(w, id, req)) == s1;
    CaughtUpUpdateRuns(s1, w, s.store[id], own, env);
    var rest := [CatchUp(w)] + StepsAfterReads(Next(s1, CatchUp(w)), w, env);
    RunFromCons(s, FetchByNumber(w, id, req), rest);
    ReachedThroughWriter(s, s1.writers[w], RunFrom(s1, rest), w,
                         UpdateEffect(s.store, s.ledgers, Some(Projected(s, id)), own, env));
  }

  /**
   * So what holds of every interleaving holds of the update as written: from any reachable state it leaves every
   * issued document numbered, every number unique, and every notice with its issue date.
   */
  lemma InternalUpdateKeepsNumbering(front: seq<Action>, w: WriterId, id: PrnId, req: Request, env: Surroundings)
    requires Exec(front, Anything).Some?
    requires var s := Exec(front, Anything).value;
      w !in s.writers && id in s.store && env.actor == InternalActor(s.store[id].status.current)
    ensures var s := Exec(front, Anything).value;
      var effect := UpdateEffect(s.store, s.ledgers, Some(s.store[id]), req, env);
      StoreNumbering(effect.store) && forall i | 0 <= i < |effect.notices| :: effect.notices[i].issuedAt.Some?
  {
    var s := Exec(front, Anything).value;
    var effect := UpdateEffect(s.store, s.ledgers, Some(s.store[id]), req, env);
    InternalUpdateIsARun(s, w, id, req, env);
    RunFromContinuesExec(front, InternalSteps(s, w, id, req, env));
    RunKeepsNumbering(front + InternalSteps(s, w, id, req, env), Anything);
    var s' := RunFrom(s, InternalSteps(s, w, id, req, env)).value;
    assert forall i | 0 <= i < |effect.notices| :: s'.notices[|s.notices| + i] == effect.notices[i];
  }
}

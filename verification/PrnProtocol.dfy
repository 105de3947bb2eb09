/**
 * The event-first write protocol as a step system over many PRNs, many writers and shared ledgers
 * (update-status.js, get-projected-prn.js and the two routes). Every await of the source is a step boundary:
 * other writers may act between any two steps of one, and any writer may crash at any of them.
 */
module PrnProtocol {
  import opened Wrappers
  import opened PrnModel
  import opened Ledger
  import opened PrnFold
  import opened PrnStore
  import opened PrnNumber

  type WriterId = nat

  /** What a route asks for. The ledger is the one the request names. */
  datatype Request = Request(newStatus: Status, ledger: LedgerId, user: LedgerUser, at: Instant)

  datatype WriteResult =
    | Refused                          // not found, not permitted, or an accreditation that cannot issue
    | CommandFailed(error: CommandError)
    | Committed(prn: Prn)
    | Conflicted                       // the missed write was diagnosed as a version conflict
    | Lost                             // the missed write was diagnosed as a missing document
    | Regressed                        // the missed write was diagnosed as a watermark regression
    | NumberClash                      // a write that assigns no number met a number conflict
    | NumbersExhausted

  datatype Writer =
    | Fetched(prn: Prn, req: Request)                                   // external route: tail not yet read
    | Holding(prn: Prn, req: Request)                                   // transition validated
    | Decided(prn: Prn, req: Request, event: LedgerEvent)               // command decided at some ledger head
    | Appended(prn: Prn, req: Request, projection: Prn, attempts: nat)  // event in the ledger, document not written
    | Missed(id: PrnId, expectedVersion: int)                           // compare-and-set missed, not yet diagnosed
    | Finished(result: WriteResult)

  /** The cancellation notice; `issuedAt` is absent where the source would read a property of undefined. */
  datatype Notice = Notice(organisationId: string, registrationId: string, prnId: PrnId, issuedAt: Option<Instant>)

  /** `created` and `drafts` record the documents as they were created, in order; the system itself never reads them. */
  datatype State = State(
    created: seq<PrnId>,
    drafts: map<PrnId, Prn>,
    store: Store,
    ledgers: Ledgers,
    writers: map<WriterId, Writer>,
    notices: seq<Notice>)

  const INITIAL := State([], map[], map[], map[], map[], [])

  datatype Action =
    | Create(prn: Prn)
    | ReadStored(w: WriterId, id: PrnId, req: Request)      // internal route: updates from the stored document
    | FetchByNumber(w: WriterId, id: PrnId, req: Request)   // external route: finds the document by its number
    | CatchUp(w: WriterId)                                  // external route: folds the tail onto it
    | DecideEvent(w: WriterId, at: Instant, canIssue: bool)
    | Append(w: WriterId)
    | Persist(w: WriterId, regulator: Regulator, draw: nat)
    | Diagnose(w: WriterId)
    | Discard(w: WriterId)
    | SubmitSummaryLog(ledger: LedgerId, summaryLogId: string, creditTotal: int, at: Instant, user: LedgerUser)
    | Crash(w: WriterId)

  // ----- the pieces of an update -----

  /** resolvePrnForUpdate checks organisation and accreditation; the registration goes unchecked. */
  predicate OwnedBy(prn: Prn, ledger: LedgerId) {
    prn.ledger.organisationId == ledger.organisationId && prn.ledger.accreditationId == ledger.accreditationId
  }

  function Begin(prn: Prn, req: Request, actor: Option<PrnActor>): Writer {
    if !OwnedBy(prn, req.ledger) then Finished(Refused)
    else if ValidateTransition(prn.status.current, req.newStatus, actor).Failure? then Finished(Refused)
    else Holding(prn, req)
  }

  predicate IsDiscard(prn: Prn, req: Request) {
    prn.status.current == Draft && req.newStatus == Discarded
  }

  function DiscardParams(prn: Prn, req: Request): UpdateStatusParams {
    UpdateStatusParams(prn.id, prn.version, req.newStatus, Actor(req.user.id, req.user.name), req.at, None, None, prn.watermark)
  }

  function DecideFor(prn: Prn, req: Request, events: Events, at: Instant, canIssue: bool): Writer {
    if req.newStatus == AwaitingAcceptance && !canIssue then Finished(Refused)
    else
      match CommandFor(prn.status.current, req.newStatus)
      case None => Finished(Refused)
      case Some(kind) =>
        match DecideCommand(events, kind, prn.id, prn.tonnage, at, req.user)
        case Failure(e) => Finished(CommandFailed(e))
        case Success(event) => Decided(prn, req, event)
  }

  function ProjectAppended(prn: Prn, req: Request, event: LedgerEvent): Writer {
    match FoldPrnFromTailEvents(prn, [event])
    case Failure(_) => Finished(Refused)
    case Success(projection) => Appended(prn, req, projection, 0)
  }

  function CandidateNumber(prn: Prn, regulator: Regulator, attempt: nat, draw: nat): string
    requires attempt < MAX_ATTEMPTS && draw < RANDOM_SUFFIX_RANGE
  {
    GeneratePrnNumber(regulator, prn.isExport, prn.accreditationYear, SuffixOf(attempt), draw)
  }

  /** The document an attempt tries to persist: issuance stamps a fresh candidate number on the projection. */
  function Attempted(w: Writer, regulator: Regulator, draw: nat): Prn
    requires w.Appended? && w.attempts < MAX_ATTEMPTS && draw < RANDOM_SUFFIX_RANGE
  {
    if w.req.newStatus == AwaitingAcceptance
    then w.projection.(prnNumber := Some(CandidateNumber(w.prn, regulator, w.attempts, draw)))
    else w.projection
  }

  function NoticesFor(newStatus: Status, prn: Prn): seq<Notice> {
    if newStatus !in CANCELLED_PRN_STATUSES then []
    else
      [Notice(prn.ledger.organisationId, prn.ledger.registrationId, prn.id,
              if IssuedSlot in prn.status.slots then Some(prn.status.slots[IssuedSlot].at) else None)]
  }

  /** What a number conflict leads to: issuance retries while suffixes remain. */
  function AfterNumberConflict(w: Writer): Writer
    requires w.Appended?
  {
    if w.req.newStatus != AwaitingAcceptance then Finished(NumberClash)
    else if w.attempts + 1 < MAX_ATTEMPTS then w.(attempts := w.attempts + 1)
    else Finished(NumbersExhausted)
  }

  function Diagnosis(outcome: WriteOutcome): WriteResult {
    match outcome
    case Missing => Lost
    case VersionConflict => Conflicted
    case _ => Regressed
  }

  // ----- steps -----

  predicate Enabled(s: State, a: Action) {
    match a
    case Create(prn) => IsNewDraft(prn) && prn.id !in s.store
    case ReadStored(w, id, _) => w !in s.writers && id in s.store
    case FetchByNumber(w, id, _) => w !in s.writers && id in s.store && s.store[id].prnNumber.Some?
    case CatchUp(w) => w in s.writers && s.writers[w].Fetched?
    case DecideEvent(w, _, _) => w in s.writers && s.writers[w].Holding? && !IsDiscard(s.writers[w].prn, s.writers[w].req)
    case Append(w) => w in s.writers && s.writers[w].Decided?
    case Persist(w, _, draw) =>
      w in s.writers && s.writers[w].Appended? && s.writers[w].attempts < MAX_ATTEMPTS && draw < RANDOM_SUFFIX_RANGE
    case Diagnose(w) => w in s.writers && s.writers[w].Missed?
    case Discard(w) => w in s.writers && s.writers[w].Holding? && IsDiscard(s.writers[w].prn, s.writers[w].req)
    case SubmitSummaryLog(_, _, _, _, _) => true
    case Crash(w) => w in s.writers
  }

  function With(s: State, w: WriterId, writer: Writer): State {
    s.(writers := s.writers[w := writer])
  }

  function AfterAppend(s: State, w: WriterId): State
    requires Enabled(s, Append(w))
  {
    var Decided(prn, req, event) := s.writers[w];
    match AppendEvent(EventsIn(s.ledgers, req.ledger), event)
    case Failure(e) => With(s, w, Finished(CommandFailed(e)))
    case Success(events) => With(s, w, ProjectAppended(prn, req, event)).(ledgers := s.ledgers[req.ledger := events])
  }

  function AfterPersist(s: State, w: WriterId, regulator: Regulator, draw: nat): State
    requires Enabled(s, Persist(w, regulator, draw))
  {
    var writer := s.writers[w];
    var outcome := PersistOutcome(s.store, Attempted(writer, regulator, draw), writer.prn.version);
    match outcome
    case Written(prn) =>
      With(s, w, Finished(Committed(prn))).(
        store := AfterWrite(s.store, outcome),
        notices := s.notices + NoticesFor(writer.req.newStatus, prn))
    case NumberConflict => With(s, w, AfterNumberConflict(writer))
    case _ => With(s, w, Missed(writer.projection.id, writer.prn.version))
  }

  function AfterDiscard(s: State, w: WriterId): State
    requires Enabled(s, Discard(w))
  {
    var writer := s.writers[w];
    var outcome := UpdateStatusOutcome(s.store, DiscardParams(writer.prn, writer.req));
    match outcome
    case Written(prn) => With(s, w, Finished(Committed(prn))).(store := AfterWrite(s.store, outcome))
    case _ => With(s, w, Missed(writer.prn.id, writer.prn.version))
  }

  function AfterCreate(s: State, prn: Prn): State {
    s.(created := s.created + [prn.id], drafts := s.drafts[prn.id := prn], store := s.store[prn.id := prn])
  }

  function AfterSubmit(s: State, ledger: LedgerId, event: LedgerEvent): State {
    s.(ledgers := s.ledgers[ledger := EventsIn(s.ledgers, ledger) + [event]])
  }

  function Next(s: State, a: Action): State
    requires Enabled(s, a)
  {
    match a
    case Create(prn) => AfterCreate(s, prn)
    case ReadStored(w, id, req) => With(s, w, Begin(s.store[id], req, InternalActor(s.store[id].status.current)))
    case FetchByNumber(w, id, req) => With(s, w, Fetched(s.store[id], req.(ledger := s.store[id].ledger)))
    case CatchUp(w) =>
      var Fetched(prn, req) := s.writers[w];
      With(s, w, Begin(ProjectFromTail(prn, EventsIn(s.ledgers, prn.ledger)), req, Some(Producer)))
    case DecideEvent(w, at, canIssue) =>
      var Holding(prn, req) := s.writers[w];
      With(s, w, DecideFor(prn, req, EventsIn(s.ledgers, req.ledger), at, canIssue))
    case Append(w) => AfterAppend(s, w)
    case Persist(w, regulator, draw) => AfterPersist(s, w, regulator, draw)
    case Diagnose(w) =>
      var Missed(id, expected) := s.writers[w];
      With(s, w, Finished(Diagnosis(ResolveMissedUpdate(s.store, id, expected))))
    case Discard(w) => AfterDiscard(s, w)
    case SubmitSummaryLog(ledger, id, total, at, user) =>
      AfterSubmit(s, ledger, DecideSummaryLog(EventsIn(s.ledgers, ledger), id, total, at, user))
    case Crash(w) => s.(writers := s.writers - {w})
  }

  // ----- runs -----

  /** The state a sequence of actions leads to, if each is enabled where it is taken and `guard` allows it there. */
  function Exec(actions: seq<Action>, guard: (State, Action) -> bool): Option<State> {
    if actions == [] then Some(INITIAL)
    else
      match Exec(actions[..|actions| - 1], guard)
      case None => None
      case Some(s) =>
        var a := actions[|actions| - 1];
        if Enabled(s, a) && guard(s, a) then Some(Next(s, a)) else None
  }

  predicate Anything(s: State, a: Action) {
    true
  }

  /** The request names the PRN's own registration, so its event goes to the PRN's own ledger. */
  predicate OwnRegistration(s: State, a: Action) {
    a.ReadStored? && a.id in s.store ==> a.req.ledger.registrationId == s.store[a.id].ledger.registrationId
  }

  // ----- reading a state -----

  /** The ledger events of a document's own ledger. */
  function OwnEvents(s: State, prn: Prn): Events {
    EventsIn(s.ledgers, prn.ledger)
  }

  /** What a projected read of the PRN would return now. */
  function Projected(s: State, id: PrnId): Prn
    requires id in s.store
  {
    ProjectFromTail(s.store[id], OwnEvents(s, s.store[id]))
  }
}

/** The PRN document and its actor-aware state machine (domain/model.js). */
module PrnModel {
  import opened Wrappers

  type PrnId = nat
  type Instant = int  // milliseconds, as a JavaScript Date holds them

  // Ledger events are numbered from one, and so are the watermarks that name them.
  type EventNumber = n: nat | 1 <= n witness 1

  datatype Status =
    | Draft
    | AwaitingAuthorisation
    | AwaitingAcceptance
    | Accepted
    | AwaitingCancellation
    | Cancelled
    | Deleted
    | Discarded

  datatype PrnActor = ReprocessorExporter | Signatory | Producer

  datatype Transition = Transition(status: Status, actors: seq<PrnActor>)

  /** The table of permitted transitions. */
  function TransitionsFrom(from: Status): seq<Transition> {
    match from
    case Draft => [Transition(AwaitingAuthorisation, [ReprocessorExporter]), Transition(Discarded, [ReprocessorExporter])]
    case AwaitingAuthorisation => [Transition(AwaitingAcceptance, [Signatory]), Transition(Deleted, [Signatory])]
    case AwaitingAcceptance => [Transition(Accepted, [Producer]), Transition(AwaitingCancellation, [Producer])]
    case Accepted => []
    case AwaitingCancellation => [Transition(Cancelled, [Signatory])]
    case Cancelled => []
    case Deleted => []
    case Discarded => []
  }

  predicate CanMove(from: Status, to: Status) {
    exists i | 0 <= i < |TransitionsFrom(from)| :: TransitionsFrom(from)[i].status == to
  }

  predicate ActorMayMove(from: Status, to: Status, actor: Option<PrnActor>) {
    && actor.Some?
    && exists i | 0 <= i < |TransitionsFrom(from)| ::
        && TransitionsFrom(from)[i].status == to
        && actor.value in TransitionsFrom(from)[i].actors
  }

  datatype TransitionError = StatusConflict | UnauthorisedTransition

  /** `actor` is absent when the internal route infers none from the current status. */
  function ValidateTransition(from: Status, to: Status, actor: Option<PrnActor>): Result<(), TransitionError> {
    if !CanMove(from, to) then Failure(StatusConflict)
    else if !ActorMayMove(from, to, actor) then Failure(UnauthorisedTransition)
    else Success(())
  }

  lemma AtMostTwoTransitions(from: Status)
    ensures var ts := TransitionsFrom(from);
      && |ts| <= 2
      && (forall i | 0 <= i < |ts| :: ts[i] in ts)
      && (forall t | t in ts :: t == ts[0] || t == ts[1])
      && (|ts| == 2 ==> ts[0].status != ts[1].status)
  {}

  /** A transition is permitted to exactly the actors the table lists; a forbidden one is refused as such before any actor is asked after. */
  lemma ValidationOrder(from: Status, to: Status, actor: Option<PrnActor>)
    ensures ValidateTransition(from, to, actor).Success? <==>
      exists t | t in TransitionsFrom(from) :: t.status == to && actor.Some? && actor.value in t.actors
    ensures ValidateTransition(from, to, actor) == Failure(StatusConflict) <==> forall t | t in TransitionsFrom(from) :: t.status != to
  {
    AtMostTwoTransitions(from);
  }

  /** The actor the internal route infers from the stored status (routes/status.js). */
  function InternalActor(status: Status): Option<PrnActor> {
    match status
    case Draft => Some(ReprocessorExporter)
    case AwaitingAuthorisation => Some(Signatory)
    case AwaitingCancellation => Some(Signatory)
    case _ => None
  }

  /** The two routes share out the table: every permitted transition is open to exactly one of them. */
  lemma RoutesDivideTheTransitions(from: Status, to: Status)
    ensures CanMove(from, to) ==> (ActorMayMove(from, to, InternalActor(from)) <==> !ActorMayMove(from, to, Some(Producer)))
    ensures !CanMove(from, to) ==> !ActorMayMove(from, to, InternalActor(from)) && !ActorMayMove(from, to, Some(Producer))
  {
    var ts := TransitionsFrom(from);
    assert |ts| <= 2;
    if 0 < |ts| {
      assert ts[0].actors == [ts[0].actors[0]];
    }
    if 1 < |ts| {
      assert ts[1].actors == [ts[1].actors[0]] && ts[0].status != ts[1].status;
    }
  }

  const CANCELLED_PRN_STATUSES: set<Status> := {AwaitingCancellation, Cancelled}

  // The statuses only an issued PRN can hold.
  const ISSUED_STATUSES: set<Status> := {AwaitingAcceptance, Accepted, AwaitingCancellation, Cancelled}

  datatype LedgerId = LedgerId(organisationId: string, registrationId: string, accreditationId: string)

  datatype Actor = Actor(id: string, name: string)

  datatype Slot = CreatedSlot | IssuedSlot | AcceptedSlot | RejectedSlot | DeletedSlot | CancelledSlot

  datatype BusinessOperation = BusinessOperation(at: Instant, actor: Actor)

  datatype HistoryItem = HistoryItem(status: Status, at: Instant, actor: Actor)

  datatype StatusBlock = StatusBlock(
    current: Status,
    currentAt: Instant,
    slots: map<Slot, BusinessOperation>,
    history: seq<HistoryItem>)

  /** A PRN document. `details` stands for the fields no operation here reads or writes. */
  datatype Prn = Prn(
    id: PrnId,
    version: int,
    watermark: Option<EventNumber>,
    prnNumber: Option<string>,
    ledger: LedgerId,
    accreditationYear: nat,
    tonnage: int,
    isExport: bool,
    details: string,
    status: StatusBlock,
    updatedAt: Instant,
    updatedBy: Actor)

  /** The number of the last event the document has absorbed; zero when it has none. */
  function Reach(watermark: Option<EventNumber>): nat {
    match watermark
    case Some(n) => n
    case None => 0
  }

  /** What the event fold determines of a document: all but its version and public number. */
  function Content(prn: Prn): Prn {
    prn.(version := 1, prnNumber := None)
  }

  /** A document as the create route builds it. */
  predicate IsNewDraft(prn: Prn) {
    && prn.version == 1
    && prn.watermark == None
    && prn.prnNumber == None
    && 0 < prn.tonnage
    && prn.status.current == Draft
    && prn.status.slots == map[]
    && |prn.status.history| == 1
    && prn.status.history[0].status == Draft
    && Mirrors(prn)
  }

  /** Current status, its timestamp and the update stamp repeat the last history entry. */
  predicate Mirrors(prn: Prn) {
    && prn.status.history != []
    && var last := prn.status.history[|prn.status.history| - 1];
      && prn.status.current == last.status
      && prn.status.currentAt == prn.updatedAt == last.at
      && prn.updatedBy == last.actor
  }

  /** A history is a legal path of the transition table that starts in draft. */
  ghost predicate LegalHistory(history: seq<HistoryItem>) {
    && 0 < |history|
    && history[0].status == Draft
    && forall i | 0 < i < |history| :: CanMove(history[i - 1].status, history[i].status)
  }

  // ----- the transition graph has no cycle -----

  function Rank(status: Status): nat {
    match status
    case Draft => 0
    case AwaitingAuthorisation => 1
    case Discarded => 1
    case AwaitingAcceptance => 2
    case Deleted => 2
    case Accepted => 3
    case AwaitingCancellation => 3
    case Cancelled => 4
  }

  lemma {:induction false} RankGrowsAlongHistory(history: seq<HistoryItem>, i: nat, j: nat)
    requires LegalHistory(history)
    requires i < j < |history|
    ensures Rank(history[i].status) + (j - i) <= Rank(history[j].status)
  {
    assert CanMove(history[j - 1].status, history[j].status);
    if i < j - 1 {
      RankGrowsAlongHistory(history, i, j - 1);
    }
  }

  /** No legal history visits a status twice, so no status slot is ever overwritten, and none is longer than five. */
  lemma LegalHistoryNeverRepeats(history: seq<HistoryItem>)
    requires LegalHistory(history)
    ensures forall i, j | 0 <= i < j < |history| :: history[i].status != history[j].status
    ensures |history| <= 5
  {
    forall i, j | 0 <= i < j < |history| ensures history[i].status != history[j].status {
      RankGrowsAlongHistory(history, i, j);
    }
    if 1 < |history| {
      RankGrowsAlongHistory(history, 0, |history| - 1);
    }
  }
}

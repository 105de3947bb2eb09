/** The waste-balance event ledger: its deciders, its append guard and its reads (src/waste-balances). */
module Ledger {
  import opened Wrappers
  import opened PrnModel

  datatype EventKind =
    | PrnCreated
    | PrnIssued
    | PrnCreationCancelled
    | PrnCancelledAfterIssue
    | PrnAccepted
    | PrnRejected

  // Amounts are whole hundredths of a tonne: the source adds and subtracts exact decimals.
  datatype Balance = Balance(amount: int, available: int)

  const ZERO_BALANCE := Balance(0, 0)

  datatype Body =
    | SummaryLogSubmitted(summaryLogId: string, creditTotal: int)
    | PrnEvent(kind: EventKind, prnId: PrnId, amount: int)

  datatype LedgerUser = LedgerUser(id: string, name: string, email: Option<string>)

  datatype LedgerEvent = LedgerEvent(
    number: EventNumber,
    body: Body,
    opening: Balance,
    closing: Balance,
    createdAt: Instant,
    createdBy: LedgerUser)

  type Events = seq<LedgerEvent>
  type Ledgers = map<LedgerId, Events>

  /** The events of one ledger, in order; a ledger nobody has written is empty. */
  function EventsIn(ledgers: Ledgers, id: LedgerId): Events {
    if id in ledgers then ledgers[id] else []
  }

  /** The state every append keeps: numbers are gap-free from one. */
  ghost predicate Numbered(events: Events) {
    forall i | 0 <= i < |events| :: events[i].number == i + 1
  }

  // ----- reads -----

  /** The number of the latest event, zero for an empty ledger. */
  function Head(events: Events): nat {
    if events == [] then 0 else events[|events| - 1].number
  }

  function CurrentBalance(events: Events): Balance {
    if events == [] then ZERO_BALANCE else events[|events| - 1].closing
  }

  /** The credit total of the latest summary log submitted, zero when there is none. */
  function CreditTotal(events: Events): int {
    if events == [] then 0
    else
      var last := events[|events| - 1];
      if last.body.SummaryLogSubmitted? then last.body.creditTotal else CreditTotal(events[..|events| - 1])
  }

  predicate IsAbout(event: LedgerEvent, id: PrnId) {
    event.body.PrnEvent? && event.body.prnId == id
  }

  predicate AllPrnEvents(events: Events) {
    forall i | 0 <= i < |events| :: events[i].body.PrnEvent?
  }

  /** findEventsByPrnIdAfter: the events of one PRN numbered above `after`, ascending. */
  function EventsAfter(events: Events, id: PrnId, after: nat): (es: Events)
    ensures AllPrnEvents(es)
  {
    if events == [] then []
    else
      var rest := EventsAfter(events[..|events| - 1], id, after);
      var last := events[|events| - 1];
      if IsAbout(last, id) && after < last.number then rest + [last] else rest
  }

  /** The events of one PRN numbered up to `upTo`: what a document with that watermark has absorbed. */
  function EventsUpTo(events: Events, id: PrnId, upTo: nat): (es: Events)
    ensures AllPrnEvents(es)
  {
    if events == [] then []
    else
      var rest := EventsUpTo(events[..|events| - 1], id, upTo);
      var last := events[|events| - 1];
      if IsAbout(last, id) && last.number <= upTo then rest + [last] else rest
  }

  /** Every event of one PRN. */
  function EventsOf(events: Events, id: PrnId): (es: Events)
    ensures AllPrnEvents(es)
  {
    EventsAfter(events, id, 0)
  }

  // ----- commands -----

  datatype Rejection = NoLedger | InsufficientAvailableBalance | InsufficientTotalBalance

  datatype CommandError =
    | NonPositiveAmount
    | Rejected(reason: Rejection)
    | SlotConflict
    | SequenceError

  /** The command a transition runs, named by the kind of event it commits (TRANSITION_TO_COMMAND). */
  function CommandFor(from: Status, to: Status): Option<EventKind> {
    match (from, to)
    case (Draft, AwaitingAuthorisation) => Some(PrnCreated)
    case (AwaitingAuthorisation, AwaitingAcceptance) => Some(PrnIssued)
    case (AwaitingAcceptance, Accepted) => Some(PrnAccepted)
    case (AwaitingAcceptance, AwaitingCancellation) => Some(PrnRejected)
    case (AwaitingAuthorisation, Deleted) => Some(PrnCreationCancelled)
    case (AwaitingCancellation, Cancelled) => Some(PrnCancelledAfterIssue)
    case _ => None
  }

  function ClosingForPrn(opening: Balance, kind: EventKind, amount: int): Balance {
    match kind
    case PrnCreated => opening.(available := opening.available - amount)
    case PrnIssued => opening.(amount := opening.amount - amount)
    case PrnCreationCancelled => opening.(available := opening.available + amount)
    case PrnCancelledAfterIssue => Balance(opening.amount + amount, opening.available + amount)
    case PrnAccepted => opening
    case PrnRejected => opening
  }

  function Decide(balance: Balance, kind: EventKind, amount: int): Option<Rejection> {
    match kind
    case PrnCreated => if balance.available < amount then Some(InsufficientAvailableBalance) else None
    case PrnIssued => if balance.amount < amount then Some(InsufficientTotalBalance) else None
    case _ => None
  }

  /** Fold the ledger and decide: the event to append at the next slot, or why there is none (runPrnCommand). */
  function DecideCommand(events: Events, kind: EventKind, id: PrnId, amount: int, at: Instant, user: LedgerUser)
    : Result<LedgerEvent, CommandError>
  {
    if amount <= 0 then Failure(NonPositiveAmount)
    else if events == [] then Failure(Rejected(NoLedger))
    else
      var opening := CurrentBalance(events);
      match Decide(opening, kind, amount)
      case Some(reason) => Failure(Rejected(reason))
      case None =>
        Success(LedgerEvent(Head(events) + 1, PrnEvent(kind, id, amount),
                            opening, ClosingForPrn(opening, kind, amount), at, user))
  }

  /** When a PRN command may commit: against an open ledger, a positive amount the right balance covers. */
  predicate Commits(events: Events, kind: EventKind, amount: int) {
    && events != [] && 0 < amount
    && (kind == PrnCreated ==> amount <= CurrentBalance(events).available)
    && (kind == PrnIssued ==> amount <= CurrentBalance(events).amount)
  }

  /**
   * A creation commits if and only if the available balance covers it, an issuance if and only if the total does, and the
   * other four whenever the ledger is open and the amount positive; every refusal names its own reason.
   */
  lemma CommitsExactlyWhen(events: Events, kind: EventKind, id: PrnId, amount: int, at: Instant, user: LedgerUser)
    ensures var r := DecideCommand(events, kind, id, amount, at, user);
      && (r.Success? <==> Commits(events, kind, amount))
      && (r == Failure(NonPositiveAmount) <==> amount <= 0)
      && (r == Failure(Rejected(NoLedger)) <==> 0 < amount && events == [])
      && (r == Failure(Rejected(InsufficientAvailableBalance)) <==>
            0 < amount && events != [] && kind == PrnCreated && CurrentBalance(events).available < amount)
      && (r == Failure(Rejected(InsufficientTotalBalance)) <==>
            0 < amount && events != [] && kind == PrnIssued && CurrentBalance(events).amount < amount)
      && (r.Success? ==>
            && r.value.number == Head(events) + 1 && r.value.body == PrnEvent(kind, id, amount)
            && r.value.opening == CurrentBalance(events) && r.value.createdAt == at && r.value.createdBy == user)
  {}

  predicate NonNegative(balance: Balance) {
    0 <= balance.amount && 0 <= balance.available
  }

  /** No PRN command takes a non-negative balance below zero. */
  lemma CommandsNeverOverdraw(events: Events, kind: EventKind, id: PrnId, amount: int, at: Instant, user: LedgerUser)
    requires DecideCommand(events, kind, id, amount, at, user).Success? && NonNegative(CurrentBalance(events))
    ensures var e := DecideCommand(events, kind, id, amount, at, user).value;
      CurrentBalance(events + [e]) == e.closing && NonNegative(e.closing)
  {}

  /** A summary-log submission moves both balances by the change in the credit total. */
  function DecideSummaryLog(events: Events, summaryLogId: string, creditTotal: int, at: Instant, user: LedgerUser): LedgerEvent {
    var opening := CurrentBalance(events);
    var delta := creditTotal - CreditTotal(events);
    LedgerEvent(Head(events) + 1, SummaryLogSubmitted(summaryLogId, creditTotal),
                opening, Balance(opening.amount + delta, opening.available + delta), at, user)
  }

  /** appendEvents for the single-event batches every command here produces: the slot is the concurrency guard. */
  function AppendEvent(events: Events, event: LedgerEvent): Result<Events, CommandError> {
    if event.number == Head(events) + 1 then Success(events + [event])
    else if event.number <= Head(events) then Failure(SlotConflict)
    else Failure(SequenceError)
  }

  /** appendEvents: a contiguous batch starting at the next slot applies as a whole; any other does not apply at all. */
  function AppendBatch(events: Events, batch: Events): Result<Events, CommandError> {
    if batch == [] then Success(events)
    else if batch[0].number != Head(events) + 1 then
      if exists i | 0 <= i < |events| :: events[i].number == batch[0].number then Failure(SlotConflict) else Failure(SequenceError)
    else if exists i | 1 <= i < |batch| :: batch[i].number != batch[0].number + i then Failure(SequenceError)
    else Success(events + batch)
  }

  /** A batch applies exactly when it leaves the ledger numbered without gaps. */
  lemma BatchAppliesIffGapFree(events: Events, batch: Events)
    requires Numbered(events)
    ensures AppendBatch(events, batch).Success? <==> Numbered(events + batch)
    ensures AppendBatch(events, batch).Success? ==> AppendBatch(events, batch).value == events + batch
  {
    HeadIsLength(events);
    if batch == [] {
      assert events + batch == events;
    } else {
      assert (events + batch)[|events|] == batch[0];
      if Numbered(events + batch) {
        assert forall i | 0 <= i < |batch| :: (events + batch)[|events| + i] == batch[i];
      } else if batch[0].number == Head(events) + 1 && forall i | 1 <= i < |batch| :: batch[i].number == batch[0].number + i {
        assert forall i | 0 <= i < |events| + |batch| ::
          (events + batch)[i] == if i < |events| then events[i] else batch[i - |events|];
      }
    }
  }

  /** On a numbered ledger the single-event append is the batch of one, with the same error. */
  lemma BatchOfOne(events: Events, event: LedgerEvent)
    requires Numbered(events)
    ensures AppendBatch(events, [event]) == AppendEvent(events, event)
  {
    HeadIsLength(events);
    if event.number <= |events| {
      assert events[event.number - 1].number == event.number;
    }
  }

  // ----- facts about the reads -----

  lemma HeadIsLength(events: Events)
    requires Numbered(events)
    ensures Head(events) == |events|
  {}

  /** Cutting a PRN's events at any number loses, repeats and reorders nothing. */
  lemma {:induction false} EventsSplit(events: Events, id: PrnId, n: nat)
    requires Numbered(events)
    ensures EventsUpTo(events, id, n) + EventsAfter(events, id, n) == EventsOf(events, id)
    ensures |events| <= n ==> EventsAfter(events, id, n) == []
  {
    if events != [] {
      var front, last := events[..|events| - 1], events[|events| - 1];
      EventsSplit(front, id, n);
      if n < last.number {
        assert EventsUpTo(events, id, n) == EventsUpTo(front, id, n);
      }
    }
  }

  /** The catch-up read returns exactly the PRN's later events, in ascending order. */
  lemma {:induction false} EventsAfterAscending(events: Events, id: PrnId, after: nat)
    requires Numbered(events)
    ensures var es := EventsAfter(events, id, after);
      && (forall i | 0 <= i < |es| :: IsAbout(es[i], id) && after < es[i].number <= |events|)
      && (forall i, j | 0 <= i < j < |es| :: es[i].number < es[j].number)
      && (forall k | after <= k < |events| && IsAbout(events[k], id) :: events[k] in es)
  {
    if events != [] {
      var front, last := events[..|events| - 1], events[|events| - 1];
      EventsAfterAscending(front, id, after);
      forall k | after <= k < |events| && IsAbout(events[k], id) ensures events[k] in EventsAfter(events, id, after) {
        if k < |front| {
          assert front[k] in EventsAfter(front, id, after);
        }
      }
    }
  }

  lemma EventsAfterSnoc(events: Events, event: LedgerEvent, id: PrnId, n: nat)
    ensures EventsAfter(events + [event], id, n)
         == EventsAfter(events, id, n) + (if IsAbout(event, id) && n < event.number then [event] else [])
    ensures EventsUpTo(events + [event], id, n)
         == EventsUpTo(events, id, n) + (if IsAbout(event, id) && event.number <= n then [event] else [])
  {
    assert (events + [event])[..|events|] == events;
  }

  lemma CreditTotalSnoc(events: Events, event: LedgerEvent)
    ensures CreditTotal(events + [event])
         == if event.body.SummaryLogSubmitted? then event.body.creditTotal else CreditTotal(events)
  {
    assert (events + [event])[..|events|] == events;
  }

  // ----- the in-memory repository -----

  /** Ledger storage with one event sequence per ledger id. */
  class LedgerRepository {
    var ledgers: Ledgers

    constructor (initial: Ledgers)
      ensures ledgers == initial
    {
      ledgers := initial;
    }

    /** Appends a whole batch to one ledger, or leaves every ledger as it was. */
    method AppendEvents(id: LedgerId, batch: Events) returns (r: Result<Events, CommandError>)
      modifies this
      ensures match AppendBatch(EventsIn(old(ledgers), id), batch)
        case Success(events) =>
          r == Success(batch) && EventsIn(ledgers, id) == events && forall l | l != id :: EventsIn(ledgers, l) == EventsIn(old(ledgers), l)
        case Failure(e) => r == Failure(e) && ledgers == old(ledgers)
      ensures batch != [] && r.Success? ==> ledgers == old(ledgers)[id := EventsIn(old(ledgers), id) + batch]
    {
      if |batch| == 0 {
        return Success([]);
      }
      var events := EventsIn(ledgers, id);
      if batch[0].number != Head(events) + 1 {
        for i := 0 to |events|
          invariant forall j | 0 <= j < i :: events[j].number != batch[0].number
        {
          if events[i].number == batch[0].number {
            return Failure(SlotConflict);
          }
        }
        return Failure(SequenceError);
      }
      for i := 1 to |batch|
        invariant forall j | 1 <= j < i :: batch[j].number == batch[0].number + j
      {
        if batch[i].number != batch[0].number + i {
          return Failure(SequenceError);
        }
      }
      ledgers := ledgers[id := events + batch];
      r := Success(batch);
    }

    /**
     * Runs one PRN command end to end. Uncontended, it either appends nothing and says why, or appends exactly
     * the decided event at the next slot; the slot guard never fires.
     */
    method RunPrnCommand(id: LedgerId, kind: EventKind, prnId: PrnId, amount: int, at: Instant, user: LedgerUser)
      returns (r: Result<LedgerEvent, CommandError>)
      modifies this
      ensures r == DecideCommand(EventsIn(old(ledgers), id), kind, prnId, amount, at, user)
      ensures r.Success? <==> Commits(EventsIn(old(ledgers), id), kind, amount)
      ensures r.Success? ==> r.value.body == PrnEvent(kind, prnId, amount) && r.value.createdAt == at && r.value.createdBy == user
      ensures r.Failure? ==> ledgers == old(ledgers)
      ensures r.Success? ==> ledgers == old(ledgers)[id := EventsIn(old(ledgers), id) + [r.value]]
    {
      var events := EventsIn(ledgers, id);
      r := DecideCommand(events, kind, prnId, amount, at, user);
      if r.Success? {
        var appended := AppendEvents(id, [r.value]);
        assert appended.Success?;
      }
    }
  }
}

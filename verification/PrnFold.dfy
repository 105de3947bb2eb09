/** Projecting ledger events onto a PRN document (fold-prn-from-tail-events.js, get-projected-prn.js). */
module PrnFold {
  import opened Wrappers
  import opened PrnModel
  import opened Ledger

  function StatusOfKind(kind: EventKind): Status {
    match kind
    case PrnCreated => AwaitingAuthorisation
    case PrnIssued => AwaitingAcceptance
    case PrnAccepted => Accepted
    case PrnRejected => AwaitingCancellation
    case PrnCreationCancelled => Deleted
    case PrnCancelledAfterIssue => Cancelled
  }

  function SlotOfKind(kind: EventKind): Slot {
    match kind
    case PrnCreated => CreatedSlot
    case PrnIssued => IssuedSlot
    case PrnAccepted => AcceptedSlot
    case PrnRejected => RejectedSlot
    case PrnCreationCancelled => DeletedSlot
    case PrnCancelledAfterIssue => CancelledSlot
  }

  datatype FoldError = UnmappableKind

  /** One event onto one document; the version is left to the repository. */
  function ApplyPrnEvent(prn: Prn, event: LedgerEvent): Prn
    requires event.body.PrnEvent?
  {
    var status := StatusOfKind(event.body.kind);
    var actor := Actor(event.createdBy.id, event.createdBy.name);
    prn.(
      updatedAt := event.createdAt,
      updatedBy := actor,
      watermark := Some(event.number),
      status := StatusBlock(
        status,
        event.createdAt,
        prn.status.slots[SlotOfKind(event.body.kind) := BusinessOperation(event.createdAt, actor)],
        prn.status.history + [HistoryItem(status, event.createdAt, actor)]))
  }

  function ApplyEvent(prn: Prn, event: LedgerEvent): Result<Prn, FoldError> {
    if event.body.PrnEvent? then Success(ApplyPrnEvent(prn, event)) else Failure(UnmappableKind)
  }

  /** The left fold, as the source runs it: it throws on an event that maps to no status. */
  function FoldPrnFromTailEvents(prn: Prn, events: Events): Result<Prn, FoldError> {
    if events == [] then Success(prn)
    else
      match FoldPrnFromTailEvents(prn, events[..|events| - 1])
      case Failure(e) => Failure(e)
      case Success(p) => ApplyEvent(p, events[|events| - 1])
  }

  /** The fold over events that all map to a status. */
  function Fold(prn: Prn, events: Events): Prn
    requires AllPrnEvents(events)
  {
    if events == [] then prn else ApplyPrnEvent(Fold(prn, events[..|events| - 1]), events[|events| - 1])
  }

  /** The source's fold throws exactly when an event is not a PRN event, and is otherwise `Fold`. */
  lemma {:induction false} FoldThrowsIffUnmappable(prn: Prn, events: Events)
    ensures FoldPrnFromTailEvents(prn, events).Success? <==> AllPrnEvents(events)
    ensures AllPrnEvents(events) ==> FoldPrnFromTailEvents(prn, events) == Success(Fold(prn, events))
  {
    if events != [] {
      var front := events[..|events| - 1];
      FoldThrowsIffUnmappable(prn, front);
      assert AllPrnEvents(events) <==> AllPrnEvents(front) && events[|events| - 1].body.PrnEvent?;
    }
  }

  lemma FoldSnoc(prn: Prn, events: Events, event: LedgerEvent)
    requires AllPrnEvents(events) && event.body.PrnEvent?
    ensures AllPrnEvents(events + [event])
    ensures Fold(prn, events + [event]) == ApplyPrnEvent(Fold(prn, events), event)
  {
    assert (events + [event])[..|events|] == events;
  }

  /** Folding is split-independent: a prefix first and the rest later gives the same document. */
  lemma {:induction false} FoldConcat(prn: Prn, a: Events, b: Events)
    requires AllPrnEvents(a) && AllPrnEvents(b)
    ensures AllPrnEvents(a + b)
    ensures Fold(prn, a + b) == Fold(Fold(prn, a), b)
  {
    if b == [] {
      assert a + b == a;
    } else {
      var front, last := b[..|b| - 1], b[|b| - 1];
      FoldConcat(prn, a, front);
      assert a + b == (a + front) + [last];
      FoldSnoc(prn, a + front, last);
    }
  }

  /** The fold keeps the document's identity, version and number, and every field no event touches. */
  lemma {:induction false} FoldFrame(prn: Prn, events: Events)
    requires AllPrnEvents(events)
    ensures Fold(prn, events) == prn.(
      watermark := Fold(prn, events).watermark,
      status := Fold(prn, events).status,
      updatedAt := Fold(prn, events).updatedAt,
      updatedBy := Fold(prn, events).updatedBy)
  {
    if events != [] {
      FoldFrame(prn, events[..|events| - 1]);
    }
  }

  /** The fold commutes with forgetting the version and the public number. */
  lemma {:induction false} FoldContent(prn: Prn, events: Events)
    requires AllPrnEvents(events)
    ensures Content(Fold(prn, events)) == Fold(Content(prn), events)
  {
    if events != [] {
      FoldContent(prn, events[..|events| - 1]);
    }
  }

  /** An operation carries the event's own time and its author's id and name; the author's email is left out. */
  predicate StampedBy(at: Instant, actor: Actor, event: LedgerEvent) {
    at == event.createdAt && actor.id == event.createdBy.id && actor.name == event.createdBy.name
  }

  /** What the fold writes, read off the last event and the history it appended. */
  lemma {:induction false} FoldMirrorsLastEvent(prn: Prn, events: Events)
    requires AllPrnEvents(events) && events != []
    ensures var p, last := Fold(prn, events), events[|events| - 1];
      && p.watermark == Some(last.number)
      && p.status.current == StatusOfKind(last.body.kind)
      && StampedBy(p.updatedAt, p.updatedBy, last) && p.status.currentAt == last.createdAt
      && Mirrors(p)
      && SlotOfKind(last.body.kind) in p.status.slots
      && p.status.slots[SlotOfKind(last.body.kind)] == BusinessOperation(p.updatedAt, p.updatedBy)
  {
    if 1 < |events| {
      FoldMirrorsLastEvent(prn, events[..|events| - 1]);
    }
  }

  lemma {:induction false} FoldHistory(prn: Prn, events: Events)
    requires AllPrnEvents(events)
    ensures var h, n := Fold(prn, events).status.history, |prn.status.history|;
      && |h| == n + |events|
      && h[..n] == prn.status.history
      && forall i | 0 <= i < |events| :: h[n + i].status == StatusOfKind(events[i].body.kind) && StampedBy(h[n + i].at, h[n + i].actor, events[i])
  {
    if events != [] {
      FoldHistory(prn, events[..|events| - 1]);
    }
  }

  /** The operation each slot records. */
  function KindRecordedIn(slot: Slot): EventKind {
    match slot
    case CreatedSlot => PrnCreated
    case IssuedSlot => PrnIssued
    case AcceptedSlot => PrnAccepted
    case RejectedSlot => PrnRejected
    case DeletedSlot => PrnCreationCancelled
    case CancelledSlot => PrnCancelledAfterIssue
  }

  /** `last` is the last event of its kind. */
  ghost predicate IsLastOfKind(events: Events, kind: EventKind, last: LedgerEvent)
    requires AllPrnEvents(events)
  {
    exists i | 0 <= i < |events| ::
      events[i] == last && events[i].body.kind == kind && forall j | i < j < |events| :: events[j].body.kind != kind
  }

  /** A slot holds the time and author of the last event of its kind, or what it held before when there is none. */
  ghost predicate SlotRecords(prn: Prn, events: Events, slots: map<Slot, BusinessOperation>, slot: Slot)
    requires AllPrnEvents(events)
  {
    || (&& slot in slots
        && exists last: LedgerEvent :: IsLastOfKind(events, KindRecordedIn(slot), last) && StampedBy(slots[slot].at, slots[slot].actor, last))
    || (&& (forall i | 0 <= i < |events| :: events[i].body.kind != KindRecordedIn(slot))
        && (slot in slots <==> slot in prn.status.slots)
        && (slot in slots ==> slots[slot] == prn.status.slots[slot]))
  }

  lemma SlotRecordsSnoc(prn: Prn, events: Events, event: LedgerEvent, slots: map<Slot, BusinessOperation>, slot: Slot)
    requires AllPrnEvents(events) && event.body.PrnEvent? && event.body.kind != KindRecordedIn(slot)
    requires SlotRecords(prn, events, slots, slot)
    ensures SlotRecords(prn, events + [event], slots, slot)
  {
    var all := events + [event];
    if last: LedgerEvent :| IsLastOfKind(events, KindRecordedIn(slot), last) && slot in slots && StampedBy(slots[slot].at, slots[slot].actor, last) {
      var i :| 0 <= i < |events| && events[i] == last && events[i].body.kind == KindRecordedIn(slot)
        && forall j | i < j < |events| :: events[j].body.kind != KindRecordedIn(slot);
      assert all[i] == last;
      assert IsLastOfKind(all, KindRecordedIn(slot), last);
    }
  }

  /** Every slot of a folded document records the last event of its own kind, and slots no event is about stay as they were. */
  lemma {:induction false} FoldRecordsSlots(prn: Prn, events: Events, slot: Slot)
    requires AllPrnEvents(events)
    ensures SlotRecords(prn, events, Fold(prn, events).status.slots, slot)
  {
    if events != [] {
      var front, last := events[..|events| - 1], events[|events| - 1];
      FoldRecordsSlots(prn, front, slot);
      assert events == front + [last];
      if last.body.kind == KindRecordedIn(slot) {
        assert IsLastOfKind(events, KindRecordedIn(slot), last);
      } else {
        assert SlotRecords(prn, front, Fold(prn, events).status.slots, slot);
        SlotRecordsSnoc(prn, front, last, Fold(prn, events).status.slots, slot);
      }
    }
  }

  /** The slots of a folded document only grow. */
  lemma {:induction false} FoldKeepsSlots(prn: Prn, events: Events)
    requires AllPrnEvents(events)
    ensures prn.status.slots.Keys <= Fold(prn, events).status.slots.Keys
  {
    if events != [] {
      FoldKeepsSlots(prn, events[..|events| - 1]);
    }
  }

  // ----- the projected read -----

  /** The PRN's events past the document's watermark. */
  function TailOf(prn: Prn, events: Events): (tail: Events)
    ensures AllPrnEvents(tail)
  {
    EventsAfter(events, prn.id, Reach(prn.watermark))
  }

  /** projectFromStreamTail: fold the tail, with a short-circuit for deleted documents. */
  function ProjectFromTail(prn: Prn, events: Events): Prn {
    if prn.status.current == Deleted then prn else Fold(prn, TailOf(prn, events))
  }

  /** A document that has absorbed any prefix of its events is caught up to the fold of them all. */
  lemma CatchUpIsSplitIndependent(draft: Prn, events: Events, n: nat)
    requires Numbered(events)
    requires draft.watermark == None
    ensures var p := Fold(draft, EventsUpTo(events, draft.id, n));
      Fold(p, TailOf(p, events)) == Fold(draft, EventsOf(events, draft.id))
  {
    var p := Fold(draft, EventsUpTo(events, draft.id, n));
    var m := Reach(p.watermark);
    WatermarkOfPrefix(draft, events, n);
    FoldFrame(draft, EventsUpTo(events, draft.id, n));
    EventsSplit(events, draft.id, m);
    FoldConcat(draft, EventsUpTo(events, draft.id, m), EventsAfter(events, draft.id, m));
  }

  /** The watermark of a folded prefix selects that same prefix again. */
  lemma {:induction false} WatermarkOfPrefix(draft: Prn, events: Events, n: nat)
    requires Numbered(events)
    requires draft.watermark == None
    ensures var m := Reach(Fold(draft, EventsUpTo(events, draft.id, n)).watermark);
      && m <= n && m <= |events|
      && EventsUpTo(events, draft.id, m) == EventsUpTo(events, draft.id, n)
  {
    if events != [] {
      var front, last := events[..|events| - 1], events[|events| - 1];
      WatermarkOfPrefix(draft, front, n);
      if IsAbout(last, draft.id) && last.number <= n {
        FoldSnoc(draft, EventsUpTo(front, draft.id, n), last);
        EventsUpToBeyondEnd(front, draft.id, n, last.number);
      }
    }
  }

  lemma {:induction false} EventsUpToBeyondEnd(events: Events, id: PrnId, m: nat, n: nat)
    requires Numbered(events)
    requires |events| <= m && |events| <= n
    ensures EventsUpTo(events, id, m) == EventsUpTo(events, id, n)
  {
    if events != [] {
      EventsUpToBeyondEnd(events[..|events| - 1], id, m, n);
    }
  }

  /**
   * Folding a new event onto the first `k` of a PRN's events gives the fold of all of them if and only if `k` covers
   * them all: a projection made from a stale document never equals the fold of its stream.
   */
  lemma OneMoreEventAgreesIffComplete(draft: Prn, es: Events, k: nat, e: LedgerEvent)
    requires AllPrnEvents(es) && e.body.PrnEvent? && k <= |es|
    ensures AllPrnEvents(es[..k]) && AllPrnEvents(es + [e])
    ensures ApplyPrnEvent(Fold(draft, es[..k]), e) == Fold(draft, es + [e]) <==> k == |es|
  {
    FoldSnoc(draft, es, e);
    if k == |es| {
      assert es[..k] == es;
    } else {
      FoldHistory(draft, es[..k]);
      FoldHistory(draft, es);
      var stale, whole := Fold(draft, es[..k]), Fold(draft, es);
      assert |ApplyPrnEvent(stale, e).status.history| < |ApplyPrnEvent(whole, e).status.history|;
    }
  }
}

/** Listing PRNs by status, page by page (findByStatus of both repository adapters). */
module Pagination {
  import opened Wrappers
  import opened PrnModel

  datatype Query = Query(
    statuses: seq<Status>,
    dateFrom: Option<Instant>,
    dateTo: Option<Instant>,
    cursor: Option<PrnId>,
    excludedOrganisations: seq<string>)

  datatype Page = Page(items: seq<Prn>, nextCursor: Option<PrnId>, hasMore: bool)

  datatype PageError = CursorOfEmptyPage

  predicate MatchesDateRange(at: Instant, dateFrom: Option<Instant>, dateTo: Option<Instant>) {
    if dateFrom.None? && dateTo.None? then true
    else if dateFrom.Some? && at < dateFrom.value then false
    else if dateTo.Some? && dateTo.value < at then false
    else true
  }

  /** The in-memory filter. */
  predicate Matches(q: Query, prn: Prn) {
    if prn.status.current !in q.statuses then false
    else if q.cursor.Some? && prn.id <= q.cursor.value then false
    else if !MatchesDateRange(prn.status.currentAt, q.dateFrom, q.dateTo) then false
    else prn.ledger.organisationId !in q.excludedOrganisations
  }

  // ----- the MongoDB filter document -----

  datatype Condition =
    | IdGreaterThan(id: PrnId)
    | StatusIn(statuses: seq<Status>)
    | StatusAtFrom(from: Instant)
    | StatusAtTo(to: Instant)
    | OrganisationNotIn(ids: seq<string>)

  predicate Satisfies(c: Condition, prn: Prn) {
    match c
    case IdGreaterThan(id) => id < prn.id
    case StatusIn(statuses) => prn.status.current in statuses
    case StatusAtFrom(from) => from <= prn.status.currentAt
    case StatusAtTo(to) => prn.status.currentAt <= to
    case OrganisationNotIn(ids) => prn.ledger.organisationId !in ids
  }

  function FilterDocument(q: Query): seq<Condition> {
    (if q.cursor.Some? then [IdGreaterThan(q.cursor.value)] else [])
    + [StatusIn(q.statuses)]
    + (if q.dateFrom.Some? then [StatusAtFrom(q.dateFrom.value)] else [])
    + (if q.dateTo.Some? then [StatusAtTo(q.dateTo.value)] else [])
    + (if q.excludedOrganisations != [] then [OrganisationNotIn(q.excludedOrganisations)] else [])
  }

  predicate SatisfiesAll(conditions: seq<Condition>, prn: Prn) {
    forall c | c in conditions :: Satisfies(c, prn)
  }

  /** The filter document selects exactly the documents the in-memory filter does. */
  lemma FilterDocumentMeansFilter(q: Query, prn: Prn)
    ensures SatisfiesAll(FilterDocument(q), prn) <==> Matches(q, prn)
  {
    var cs := FilterDocument(q);
    assert StatusIn(q.statuses) in cs;
    if q.cursor.Some? {
      assert IdGreaterThan(q.cursor.value) in cs;
    }
    if q.dateFrom.Some? {
      assert StatusAtFrom(q.dateFrom.value) in cs;
    }
    if q.dateTo.Some? {
      assert StatusAtTo(q.dateTo.value) in cs;
    }
    if q.excludedOrganisations != [] {
      assert OrganisationNotIn(q.excludedOrganisations) in cs;
    }
  }

  // ----- filter and sort -----

  function Filter(docs: seq<Prn>, keep: Prn -> bool): seq<Prn> {
    if docs == [] then [] else (if keep(docs[0]) then [docs[0]] else []) + Filter(docs[1..], keep)
  }

  function InsertById(prn: Prn, sorted: seq<Prn>): seq<Prn> {
    if sorted == [] || prn.id <= sorted[0].id then [prn] + sorted else [sorted[0]] + InsertById(prn, sorted[1..])
  }

  function SortById(docs: seq<Prn>): seq<Prn> {
    if docs == [] then [] else InsertById(docs[0], SortById(docs[1..]))
  }

  ghost predicate Ascending(docs: seq<Prn>) {
    forall i, j | 0 <= i < j < |docs| :: docs[i].id < docs[j].id
  }

  ghost predicate DistinctIds(docs: seq<Prn>) {
    forall i, j | 0 <= i < j < |docs| :: docs[i].id != docs[j].id
  }

  lemma {:induction false} InsertKeepsAll(prn: Prn, sorted: seq<Prn>)
    ensures multiset(InsertById(prn, sorted)) == multiset{prn} + multiset(sorted)
  {
    if sorted != [] && sorted[0].id < prn.id {
      InsertKeepsAll(prn, sorted[1..]);
      assert sorted == [sorted[0]] + sorted[1..];
    }
  }

  lemma {:induction false} SortKeepsAll(docs: seq<Prn>)
    ensures multiset(SortById(docs)) == multiset(docs)
  {
    if docs != [] {
      SortKeepsAll(docs[1..]);
      InsertKeepsAll(docs[0], SortById(docs[1..]));
      assert docs == [docs[0]] + docs[1..];
    }
  }

  lemma {:induction false} InsertKeepsAscending(prn: Prn, sorted: seq<Prn>)
    requires Ascending(sorted) && forall i | 0 <= i < |sorted| :: sorted[i].id != prn.id
    ensures Ascending(InsertById(prn, sorted))
  {
    if sorted != [] && sorted[0].id < prn.id {
      var rest := InsertById(prn, sorted[1..]);
      InsertKeepsAscending(prn, sorted[1..]);
      InsertKeepsAll(prn, sorted[1..]);
      forall i | 0 <= i < |rest| ensures sorted[0].id < rest[i].id {
        assert rest[i] in multiset(rest);
        assert rest[i] == prn || rest[i] in sorted[1..];
      }
    }
  }

  lemma {:induction false} SortIsAscending(docs: seq<Prn>)
    requires DistinctIds(docs)
    ensures Ascending(SortById(docs))
  {
    if docs != [] {
      SortIsAscending(docs[1..]);
      SortKeepsAll(docs[1..]);
      var sorted := SortById(docs[1..]);
      forall i | 0 <= i < |sorted| ensures sorted[i].id != docs[0].id {
        assert sorted[i] in multiset(sorted);
        assert sorted[i] in docs[1..];
      }
      InsertKeepsAscending(docs[0], sorted);
    }
  }

  lemma {:induction false} FilterInsert(prn: Prn, sorted: seq<Prn>, keep: Prn -> bool)
    requires Ascending(sorted)
    ensures Filter(InsertById(prn, sorted), keep)
         == if keep(prn) then InsertById(prn, Filter(sorted, keep)) else Filter(sorted, keep)
  {
    if sorted == [] || prn.id <= sorted[0].id {
      assert ([prn] + sorted)[1..] == sorted;
      FilterIsSubsequence(sorted, keep);
      var kept := Filter(sorted, keep);
      if kept != [] {
        assert kept[0] in sorted;
      }
    } else {
      var rest, kept := InsertById(prn, sorted[1..]), Filter(sorted[1..], keep);
      FilterInsert(prn, sorted[1..], keep);
      assert ([sorted[0]] + rest)[1..] == rest;
      assert ([sorted[0]] + kept)[1..] == kept && [] + kept == kept;
      assert [] + Filter(rest, keep) == Filter(rest, keep);
    }
  }

  lemma {:induction false} FilterIsSubsequence(docs: seq<Prn>, keep: Prn -> bool)
    ensures forall prn :: prn in Filter(docs, keep) <==> prn in docs && keep(prn)
    ensures Ascending(docs) ==> Ascending(Filter(docs, keep))
    ensures DistinctIds(docs) ==> DistinctIds(Filter(docs, keep))
  {
    FilterKeepsMatches(docs, keep);
    if docs != [] {
      FilterIsSubsequence(docs[1..], keep);
      var kept := Filter(docs[1..], keep);
      forall i | 0 <= i < |kept| ensures exists j | 1 <= j < |docs| :: docs[j] == kept[i] {
        assert kept[i] in docs[1..];
      }
    }
  }

  lemma {:induction false} FilterKeepsMatches(docs: seq<Prn>, keep: Prn -> bool)
    ensures forall prn :: prn in Filter(docs, keep) <==> prn in docs && keep(prn)
  {
    if docs != [] {
      FilterKeepsMatches(docs[1..], keep);
      assert docs == [docs[0]] + docs[1..];
    }
  }

  /** Sorting then filtering is filtering then sorting. */
  lemma {:induction false} FilterSortCommute(docs: seq<Prn>, keep: Prn -> bool)
    requires DistinctIds(docs)
    ensures Filter(SortById(docs), keep) == SortById(Filter(docs, keep))
  {
    if docs != [] {
      FilterSortCommute(docs[1..], keep);
      SortIsAscending(docs[1..]);
      FilterInsert(docs[0], SortById(docs[1..]), keep);
      var kept := Filter(docs[1..], keep);
      assert ([docs[0]] + kept)[1..] == kept;
      assert [] + kept == kept;
    }
  }

  // ----- pages -----

  function Take(docs: seq<Prn>, n: nat): seq<Prn> {
    if |docs| <= n then docs else docs[..n]
  }

  function LastId(items: seq<Prn>): Option<PrnId> {
    if items == [] then None else Some(items[|items| - 1].id)
  }

  function InMemoryFilter(q: Query): Prn -> bool {
    prn => Matches(q, prn)
  }

  function MongoFilter(q: Query): Prn -> bool {
    prn => SatisfiesAll(FilterDocument(q), prn)
  }

  function Matching(docs: seq<Prn>, q: Query): seq<Prn> {
    SortById(Filter(docs, InMemoryFilter(q)))
  }

  /** The in-memory adapter: filter everything, sort, slice. `docs` are the stored documents in insertion order. */
  function InMemoryPage(docs: seq<Prn>, q: Query, limit: nat): Page {
    var matching := Matching(docs, q);
    var hasMore := limit < |matching|;
    var items := Take(matching, limit);
    Page(items, if hasMore then LastId(items) else None, hasMore)
  }

  /** The MongoDB adapter: scan in id order, fetch one more than the limit; the cursor of an empty page throws. */
  function MongoPage(docs: seq<Prn>, q: Query, limit: nat): Result<Page, PageError> {
    var found := Take(Filter(SortById(docs), MongoFilter(q)), limit + 1);
    var hasMore := limit < |found|;
    var items := if hasMore then found[..limit] else found;
    if hasMore && items == [] then Failure(CursorOfEmptyPage)
    else Success(Page(items, if hasMore then LastId(items) else None, hasMore))
  }

  lemma {:induction false} FilterAgrees(docs: seq<Prn>, q: Query)
    ensures Filter(docs, MongoFilter(q)) == Filter(docs, InMemoryFilter(q))
  {
    if docs != [] {
      FilterDocumentMeansFilter(q, docs[0]);
      FilterAgrees(docs[1..], q);
    }
  }

  /** The adapters return the same page, unless the limit is zero and something matches: there only MongoDB throws. */
  lemma AdaptersReturnTheSamePages(docs: seq<Prn>, q: Query, limit: nat)
    requires DistinctIds(docs)
    ensures MongoPage(docs, q, limit) == Success(InMemoryPage(docs, q, limit)) <==> 1 <= limit || Matching(docs, q) == []
  {
    FilterAgrees(SortById(docs), q);
    FilterSortCommute(docs, InMemoryFilter(q));
    var found := Filter(SortById(docs), MongoFilter(q));
    assert found == Matching(docs, q);
    if limit < |found| {
      assert Take(found, limit + 1)[..limit] == found[..limit];
    }
  }

  // ----- following the cursor -----

  lemma {:induction false} FilterAfter(sorted: seq<Prn>, q: Query, n: nat)
    requires Ascending(sorted) && n < |sorted|
    requires forall i | 0 <= i < |sorted| :: Matches(q, sorted[i])
    ensures Filter(sorted, InMemoryFilter(q.(cursor := Some(sorted[n].id)))) == sorted[n + 1..]
  {
    var after := InMemoryFilter(q.(cursor := Some(sorted[n].id)));
    FilterNone(sorted[..n + 1], after);
    FilterEvery(sorted[n + 1..], after);
    FilterConcat(sorted[..n + 1], sorted[n + 1..], after);
    assert sorted == sorted[..n + 1] + sorted[n + 1..];
  }

  lemma {:induction false} FilterNone(docs: seq<Prn>, keep: Prn -> bool)
    requires forall i | 0 <= i < |docs| :: !keep(docs[i])
    ensures Filter(docs, keep) == []
  {
    if docs != [] {
      FilterNone(docs[1..], keep);
    }
  }

  lemma {:induction false} FilterEvery(docs: seq<Prn>, keep: Prn -> bool)
    requires forall i | 0 <= i < |docs| :: keep(docs[i])
    ensures Filter(docs, keep) == docs
  {
    if docs != [] {
      FilterEvery(docs[1..], keep);
    }
  }

  lemma {:induction false} FilterConcat(a: seq<Prn>, b: seq<Prn>, keep: Prn -> bool)
    ensures Filter(a + b, keep) == Filter(a, keep) + Filter(b, keep)
  {
    if a == [] {
      assert a + b == b;
    } else {
      FilterConcat(a[1..], b, keep);
      assert (a + b)[1..] == a[1..] + b;
    }
  }

  lemma {:induction false} FilterFilter(docs: seq<Prn>, weak: Prn -> bool, strong: Prn -> bool)
    requires forall prn | prn in docs && strong(prn) :: weak(prn)
    ensures Filter(Filter(docs, weak), strong) == Filter(docs, strong)
  {
    if docs != [] {
      FilterFilter(docs[1..], weak, strong);
      var kept := Filter(docs[1..], weak);
      assert ([docs[0]] + kept)[1..] == kept;
      assert [] + kept == kept;
    }
  }

  /** The matching documents, each once, in id order. */
  lemma MatchingIsExact(docs: seq<Prn>, q: Query)
    requires DistinctIds(docs)
    ensures Ascending(Matching(docs, q))
    ensures forall prn :: prn in Matching(docs, q) <==> prn in docs && Matches(q, prn)
  {
    var kept := Filter(docs, InMemoryFilter(q));
    FilterIsSubsequence(docs, InMemoryFilter(q));
    SortIsAscending(kept);
    SortKeepsAll(kept);
    forall prn ensures prn in Matching(docs, q) <==> prn in kept {
      assert prn in multiset(Matching(docs, q)) <==> prn in multiset(kept);
    }
  }

  /** Moving the cursor to a matching document leaves exactly the matches after it. */
  lemma CursorDropsTheRead(docs: seq<Prn>, q: Query, n: nat)
    requires DistinctIds(docs) && n < |Matching(docs, q)|
    ensures Matching(docs, q.(cursor := Some(Matching(docs, q)[n].id))) == Matching(docs, q)[n + 1..]
  {
    var matching := Matching(docs, q);
    var now, later := InMemoryFilter(q), InMemoryFilter(q.(cursor := Some(matching[n].id)));
    MatchingIsExact(docs, q);
    assert matching[n] in matching;
    FilterSortCommute(docs, now);
    FilterSortCommute(docs, later);
    FilterFilter(SortById(docs), now, later);
    FilterAfter(matching, q, n);
  }

  /** Everything read by following nextCursor until there is none. */
  function ReadAll(docs: seq<Prn>, q: Query, limit: nat, pages: nat): seq<Prn>
    decreases pages
  {
    if pages == 0 then []
    else
      var page := InMemoryPage(docs, q, limit);
      page.items + (if page.nextCursor.Some? then ReadAll(docs, q.(cursor := page.nextCursor), limit, pages - 1) else [])
  }

  /**
   * Following nextCursor with any limit of at least one reads every matching document exactly once, in id order, and
   * ends: as many pages as it takes to hold the matches are enough.
   */
  lemma {:induction false} CursorVisitsEachMatchOnce(docs: seq<Prn>, q: Query, limit: nat, pages: nat)
    requires DistinctIds(docs) && 1 <= limit
    requires 1 <= pages && |Matching(docs, q)| <= pages * limit
    ensures ReadAll(docs, q, limit, pages) == Matching(docs, q)
    decreases pages
  {
    var matching := Matching(docs, q);
    if limit < |matching| {
      CursorDropsTheRead(docs, q, limit - 1);
      var rest := q.(cursor := Some(matching[limit - 1].id));
      assert (pages - 1) * limit == pages * limit - limit;
      CursorVisitsEachMatchOnce(docs, rest, limit, pages - 1);
      assert matching == matching[..limit] + matching[limit..];
    }
  }
}

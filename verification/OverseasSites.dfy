/** Importing overseas sites: the spreadsheet row loop, and find-or-create against an insertion-ordered store (src/overseas-sites). */
module OverseasSites {
  import opened Wrappers
  import opened Decimals

  // ----- properties -----

  /** A stored optional text: absent, null or present. */
  datatype Nullable = Undefined | Null | Text(s: string)

  /** A stored optional date: a JavaScript Date may be invalid, and then equals nothing. */
  datatype NullableDate = NoDate | NullDate | At(time: int) | InvalidDate

  datatype Properties = Properties(
    name: string,
    country: string,
    line1: string,
    townOrCity: string,
    line2: Nullable,
    stateOrRegion: Nullable,
    postcode: Nullable,
    coordinates: Nullable,
    validFrom: NullableDate)

  predicate IsNil(v: Nullable) {
    v.Undefined? || v.Null?
  }

  predicate NullishEqual(a: Nullable, b: Nullable) {
    (IsNil(a) && IsNil(b)) || a == b
  }

  predicate DateIsNil(d: NullableDate) {
    d.NoDate? || d.NullDate?
  }

  predicate DateEqual(a: NullableDate, b: NullableDate) {
    if DateIsNil(a) && DateIsNil(b) then true
    else if DateIsNil(a) || DateIsNil(b) then false
    else a.At? && b.At? && a.time == b.time
  }

  predicate SiteMatchesProperties(site: Properties, properties: Properties) {
    && site.name == properties.name
    && site.country == properties.country
    && site.line1 == properties.line1 && site.townOrCity == properties.townOrCity
    && NullishEqual(site.line2, properties.line2)
    && NullishEqual(site.stateOrRegion, properties.stateOrRegion)
    && NullishEqual(site.postcode, properties.postcode)
    && NullishEqual(site.coordinates, properties.coordinates)
    && DateEqual(site.validFrom, properties.validFrom)
  }

  function Canonical(v: Nullable): Nullable {
    if IsNil(v) then Null else v
  }

  /** The representative of a property class: every nullish field null. */
  function ClassOf(p: Properties): Properties {
    p.(line2 := Canonical(p.line2), stateOrRegion := Canonical(p.stateOrRegion), postcode := Canonical(p.postcode),
       coordinates := Canonical(p.coordinates), validFrom := if DateIsNil(p.validFrom) then NullDate else p.validFrom)
  }

  /** Matching is sharing a class, except that an invalid date matches nothing, itself included. */
  lemma MatchingIsSharingAClass(a: Properties, b: Properties)
    ensures SiteMatchesProperties(a, b) <==> ClassOf(a) == ClassOf(b) && !a.validFrom.InvalidDate? && !b.validFrom.InvalidDate?
  {}

  predicate NonEmpty(v: Nullable) {
    v != Text("")
  }

  /** What the insert schema accepts: no empty text anywhere and no invalid date. */
  predicate Insertable(p: Properties) {
    && p.name != "" && p.country != "" && p.line1 != "" && p.townOrCity != ""
    && NonEmpty(p.line2) && NonEmpty(p.stateOrRegion) && NonEmpty(p.postcode) && NonEmpty(p.coordinates)
    && !p.validFrom.InvalidDate?
  }

  // ----- the store -----

  datatype StoredSite = StoredSite(id: nat, properties: Properties)

  datatype InsertError = BadData

  /** The first stored site, in insertion order, that matches. */
  function FirstMatch(sites: seq<StoredSite>, p: Properties): Option<StoredSite> {
    if sites == [] then None
    else
      var r := FirstMatch(sites[..|sites| - 1], p);
      if r.Some? then r
      else if SiteMatchesProperties(sites[|sites| - 1].properties, p) then Some(sites[|sites| - 1])
      else None
  }

  lemma {:induction false} FirstMatchIsFirst(sites: seq<StoredSite>, p: Properties)
    ensures match FirstMatch(sites, p)
      case None => forall i | 0 <= i < |sites| :: !SiteMatchesProperties(sites[i].properties, p)
      case Some(site) => exists i | 0 <= i < |sites| ::
        && sites[i] == site && SiteMatchesProperties(site.properties, p)
        && forall j | 0 <= j < i :: !SiteMatchesProperties(sites[j].properties, p)
  {
    if sites != [] {
      var n := |sites| - 1;
      FirstMatchIsFirst(sites[..n], p);
      if FirstMatch(sites[..n], p).Some? {
        var i :| 0 <= i < n && sites[..n][i] == FirstMatch(sites[..n], p).value
          && SiteMatchesProperties(sites[..n][i].properties, p)
          && forall j | 0 <= j < i :: !SiteMatchesProperties(sites[..n][j].properties, p);
        assert sites[i] == sites[..n][i];
        assert forall j | 0 <= j < i :: sites[j] == sites[..n][j];
      } else if FirstMatch(sites, p).Some? {
        assert forall j | 0 <= j < n :: sites[j] == sites[..n][j];
        assert sites[n] == FirstMatch(sites, p).value;
      }
    }
  }

  /** Site storage as a map that iterates in insertion order; ids are drawn from a generator that never repeats. */
  class OverseasSitesRepository {
    var sites: seq<StoredSite>
    var nextId: nat

    ghost predicate Valid()
      reads this
    {
      IdsBelow(sites, nextId)
    }

    constructor ()
      ensures Valid() && sites == []
    {
      sites, nextId := [], 0;
    }

    method FindByProperties(p: Properties) returns (r: Option<StoredSite>)
      ensures r == FirstMatch(sites, p)
    {
      for i := 0 to |sites|
        invariant FirstMatch(sites[..i], p) == None
      {
        assert sites[..i + 1][..i] == sites[..i];
        if SiteMatchesProperties(sites[i].properties, p) {
          FirstMatchStays(sites[..i + 1], sites[i + 1..], p);
          assert sites[..i + 1] + sites[i + 1..] == sites;
          return Some(sites[i]);
        }
      }
      assert sites[..|sites|] == sites;
      r := None;
    }

    method Create(p: Properties) returns (r: Result<StoredSite, InsertError>)
      requires Valid()
      modifies this
      ensures Valid()
      ensures if Insertable(p)
        then r == Success(StoredSite(old(nextId), p)) && sites == old(sites) + [r.value] && nextId == old(nextId) + 1
        else r == Failure(BadData) && sites == old(sites) && nextId == old(nextId)
    {
      if !Insertable(p) {
        return Failure(BadData);
      }
      var site := StoredSite(nextId, p);
      sites, nextId := sites + [site], nextId + 1;
      r := Success(site);
    }
  }

  ghost predicate IdsBelow(sites: seq<StoredSite>, n: nat) {
    && (forall i | 0 <= i < |sites| :: sites[i].id < n)
    && (forall i, j | 0 <= i < j < |sites| :: sites[i].id != sites[j].id)
  }

  lemma {:induction false} FirstMatchStays(front: seq<StoredSite>, rest: seq<StoredSite>, p: Properties)
    requires FirstMatch(front, p).Some?
    ensures FirstMatch(front + rest, p) == FirstMatch(front, p)
    decreases |rest|
  {
    if rest == [] {
      assert front + rest == front;
    } else {
      assert (front + rest)[..|front + rest| - 1] == front + rest[..|rest| - 1];
      FirstMatchStays(front, rest[..|rest| - 1], p);
    }
  }

  // ----- find or create -----

  datatype ParsedSite = ParsedSite(
    orsId: string,
    name: string,
    country: string,
    line1: string,
    townOrCity: string,
    line2: Option<string>,
    stateOrRegion: Option<string>,
    postcode: Option<string>,
    coordinates: Option<string>,
    validFrom: Option<string>)

  function TextOrNull(v: Option<string>): Nullable {
    match v
    case None => Null
    case Some(s) => Text(s)
  }

  /** `parseDate` is the Date constructor on the cell's text; it yields nothing where the Date is invalid. */
  function PropertiesOf(site: ParsedSite, parseDate: string -> Option<int>): Properties {
    Properties(
      site.name, site.country, site.line1, site.townOrCity,
      TextOrNull(site.line2), TextOrNull(site.stateOrRegion), TextOrNull(site.postcode),
      if site.coordinates.Some? then Text(site.coordinates.value) else Undefined,
      if site.validFrom.None? || site.validFrom.value == "" then NullDate
      else if parseDate(site.validFrom.value).Some? then At(parseDate(site.validFrom.value).value)
      else InvalidDate)
  }

  /** The import so far: the store, the next id, the map from overseas-site ids, and how many sites were created. */
  datatype Import = Import(sites: seq<StoredSite>, nextId: nat, mapping: map<string, nat>, created: nat)

  /** An entry per row, reduced to what find-or-create uses. */
  datatype Row = Row(orsId: string, properties: Properties)

  predicate Blocks(i: Import, row: Row) {
    FirstMatch(i.sites, row.properties).None? && !Insertable(row.properties)
  }

  function ImportRow(i: Import, row: Row): Import {
    match FirstMatch(i.sites, row.properties)
    case Some(site) => i.(mapping := i.mapping[row.orsId := site.id])
    case None =>
      if Insertable(row.properties) then
        Import(i.sites + [StoredSite(i.nextId, row.properties)], i.nextId + 1, i.mapping[row.orsId := i.nextId], i.created + 1)
      else i
  }

  function ImportRows(start: Import, rows: seq<Row>): Import {
    if rows == [] then start else ImportRow(ImportRows(start, rows[..|rows| - 1]), rows[|rows| - 1])
  }

  function RowsOf(sites: seq<ParsedSite>, parseDate: string -> Option<int>): (rows: seq<Row>)
    ensures |rows| == |sites|
    ensures forall i | 0 <= i < |sites| :: rows[i] == Row(sites[i].orsId, PropertiesOf(sites[i], parseDate))
  {
    seq(|sites|, i requires 0 <= i < |sites| => Row(sites[i].orsId, PropertiesOf(sites[i], parseDate)))
  }

  function NewImport(sites: seq<StoredSite>, nextId: nat): Import {
    Import(sites, nextId, map[], 0)
  }

  /** No row of the import could be neither found nor created. */
  predicate Unstopped(start: Import, rows: seq<Row>) {
    rows == []
    || var front := rows[..|rows| - 1];
      Unstopped(start, front) && !Blocks(ImportRows(start, front), rows[|rows| - 1])
  }

  /** The import runs over the first `k` rows, and the next one, if there is one, stops it. */
  predicate StopsAt(start: Import, rows: seq<Row>, k: nat) {
    && k <= |rows|
    && Unstopped(start, rows[..k])
    && (k < |rows| ==> Blocks(ImportRows(start, rows[..k]), rows[k]))
  }

  datatype ImportResult = ImportResult(mapping: map<string, nat>, created: nat)

  /** Finds or creates one site and maps its id to it; `ok` is false where the insert is rejected and throws. */
  method FindOrCreate(row: Row, repo: OverseasSitesRepository, mapping: map<string, nat>, created: nat)
    returns (ok: bool, mapping': map<string, nat>, created': nat)
    requires repo.Valid()
    modifies repo
    ensures repo.Valid()
    ensures var before := Import(old(repo.sites), old(repo.nextId), mapping, created);
      && ok == !Blocks(before, row)
      && Import(repo.sites, repo.nextId, mapping', created') == ImportRow(before, row)
  {
    ok, mapping', created' := true, mapping, created;
    var existing := repo.FindByProperties(row.properties);
    if existing.Some? {
      mapping' := mapping[row.orsId := existing.value.id];
    } else {
      var site := repo.Create(row.properties);
      if site.Failure? {
        return false, mapping, created;
      }
      mapping' := mapping[row.orsId := site.value.id];
      created' := created + 1;
    }
  }

  lemma {:induction false} ImportSnoc(start: Import, rows: seq<Row>, i: nat)
    requires i < |rows|
    ensures ImportRows(start, rows[..i + 1]) == ImportRow(ImportRows(start, rows[..i]), rows[i])
    ensures Unstopped(start, rows[..i + 1]) <==> Unstopped(start, rows[..i]) && !Blocks(ImportRows(start, rows[..i]), rows[i])
  {
    assert rows[..i + 1][..i] == rows[..i];
  }

  /** findOrCreateOverseasSites: a rejected insert throws, and what was created before it stays. */
  method FindOrCreateOverseasSites(sites: seq<ParsedSite>, parseDate: string -> Option<int>, repo: OverseasSitesRepository)
    returns (r: Result<ImportResult, InsertError>, ghost stopped: nat)
    requires repo.Valid()
    modifies repo
    ensures repo.Valid()
    ensures var start, rows := NewImport(old(repo.sites), old(repo.nextId)), RowsOf(sites, parseDate);
      && StopsAt(start, rows, stopped)
      && var end := ImportRows(start, rows[..stopped]);
        && repo.sites == end.sites && repo.nextId == end.nextId
        && r == if stopped == |rows| then Success(ImportResult(end.mapping, end.created)) else Failure(BadData)
  {
    ghost var start, rows := NewImport(repo.sites, repo.nextId), RowsOf(sites, parseDate);
    var mapping: map<string, nat> := map[];
    var created := 0;
    for i := 0 to |sites|
      invariant repo.Valid()
      invariant Import(repo.sites, repo.nextId, mapping, created) == ImportRows(start, rows[..i])
      invariant Unstopped(start, rows[..i])
    {
      ImportSnoc(start, rows, i);
      var ok;
      ok, mapping, created := FindOrCreate(Row(sites[i].orsId, PropertiesOf(sites[i], parseDate)), repo, mapping, created);
      if !ok {
        return Failure(BadData), i;
      }
    }
    stopped := |sites|;
    assert rows[..|rows|] == rows;
    r := Success(ImportResult(mapping, created));
  }

  // ----- what the import promises -----

  /** The classes of the stored sites that can be matched at all. */
  function ClassesOf(sites: seq<StoredSite>): set<Properties> {
    if sites == [] then {}
    else
      var p := sites[|sites| - 1].properties;
      ClassesOf(sites[..|sites| - 1]) + (if p.validFrom.InvalidDate? then {} else {ClassOf(p)})
  }

  function RowClasses(rows: seq<Row>): set<Properties> {
    if rows == [] then {} else RowClasses(rows[..|rows| - 1]) + {ClassOf(rows[|rows| - 1].properties)}
  }

  lemma {:induction false} MatchIffClassStored(sites: seq<StoredSite>, p: Properties)
    requires !p.validFrom.InvalidDate?
    ensures FirstMatch(sites, p).Some? <==> ClassOf(p) in ClassesOf(sites)
  {
    if sites != [] {
      MatchIffClassStored(sites[..|sites| - 1], p);
      MatchingIsSharingAClass(sites[|sites| - 1].properties, p);
    }
  }

  lemma ClassesSnoc(sites: seq<StoredSite>, site: StoredSite)
    requires !site.properties.validFrom.InvalidDate?
    ensures ClassesOf(sites + [site]) == ClassesOf(sites) + {ClassOf(site.properties)}
  {
    assert (sites + [site])[..|sites|] == sites;
  }

  /** A row that did not stop the import has a valid date. */
  lemma UnblockedHasValidDate(sites: seq<StoredSite>, p: Properties)
    requires FirstMatch(sites, p).Some? || Insertable(p)
    ensures !p.validFrom.InvalidDate?
  {
    FirstMatchIsFirst(sites, p);
    if FirstMatch(sites, p).Some? {
      MatchingIsSharingAClass(FirstMatch(sites, p).value.properties, p);
    }
  }

  /** What one unblocked row does: nothing to a store that has its class, one new site to a store that has not. */
  lemma RowAddsItsClass(i: Import, row: Row)
    requires !Blocks(i, row)
    ensures var i', c := ImportRow(i, row), ClassOf(row.properties);
      && ClassesOf(i'.sites) == ClassesOf(i.sites) + {c}
      && (c in ClassesOf(i.sites) ==> i'.sites == i.sites && i'.created == i.created)
      && (c !in ClassesOf(i.sites) ==> i'.sites == i.sites + [StoredSite(i.nextId, row.properties)] && i'.created == i.created + 1)
      && i.sites <= i'.sites
  {
    UnblockedHasValidDate(i.sites, row.properties);
    MatchIffClassStored(i.sites, row.properties);
    if FirstMatch(i.sites, row.properties).None? {
      ClassesSnoc(i.sites, StoredSite(i.nextId, row.properties));
    }
  }

  /** An import that was not stopped stores exactly the classes it had and the classes of its rows, one new site for each new class. */
  lemma {:induction false} CreatesOnePerNewClass(start: Import, rows: seq<Row>)
    requires Unstopped(start, rows) && start.created == 0
    ensures var end := ImportRows(start, rows);
      && ClassesOf(end.sites) == ClassesOf(start.sites) + RowClasses(rows)
      && end.created == |RowClasses(rows) - ClassesOf(start.sites)|
      && |end.sites| == |start.sites| + end.created
      && start.sites <= end.sites
  {
    if rows != [] {
      var front, row := rows[..|rows| - 1], rows[|rows| - 1];
      CreatesOnePerNewClass(start, front);
      RowAddsItsClass(ImportRows(start, front), row);
      NewClassesGrow(RowClasses(front), ClassesOf(start.sites), ClassOf(row.properties));
    }
  }

  lemma NewClassesGrow(a: set<Properties>, b: set<Properties>, c: Properties)
    ensures |(a + {c}) - b| == |a - b| + if c in b + a then 0 else 1
  {
    if c in a + b {
      assert (a + {c}) - b == a - b;
    } else {
      assert (a + {c}) - b == (a - b) + {c};
    }
  }

  /** The row just imported maps to the first stored site matching it. */
  lemma ImportedRowIsStored(i: Import, row: Row)
    requires !Blocks(i, row)
    ensures var i' := ImportRow(i, row);
      && FirstMatch(i'.sites, row.properties).Some?
      && i'.mapping == i.mapping[row.orsId := FirstMatch(i'.sites, row.properties).value.id]
  {
    if FirstMatch(i.sites, row.properties).None? {
      MatchingIsSharingAClass(row.properties, row.properties);
      assert (i.sites + [StoredSite(i.nextId, row.properties)])[..|i.sites|] == i.sites;
    }
  }

  lemma StoredRowStays(i: Import, row: Row, p: Properties)
    requires FirstMatch(i.sites, p).Some?
    ensures FirstMatch(ImportRow(i, row).sites, p) == FirstMatch(i.sites, p)
  {
    FirstMatchStays(i.sites, [StoredSite(i.nextId, row.properties)], p);
  }

  /** The properties of the last row with an id. */
  function LastFor(rows: seq<Row>, id: string): Option<Properties> {
    if rows == [] then None
    else if rows[|rows| - 1].orsId == id then Some(rows[|rows| - 1].properties)
    else LastFor(rows[..|rows| - 1], id)
  }

  /** An id maps to the first stored site matching these properties. */
  predicate MapsToMatch(i: Import, id: string, p: Properties) {
    FirstMatch(i.sites, p).Some? && id in i.mapping && i.mapping[id] == FirstMatch(i.sites, p).value.id
  }

  lemma ImportRowMaps(i: Import, row: Row)
    requires !Blocks(i, row)
    ensures MapsToMatch(ImportRow(i, row), row.orsId, row.properties)
    ensures ImportRow(i, row).mapping.Keys == i.mapping.Keys + {row.orsId}
  {
    ImportedRowIsStored(i, row);
  }

  lemma ImportRowKeepsOthers(i: Import, row: Row, id: string, p: Properties)
    requires MapsToMatch(i, id, p) && id != row.orsId
    ensures MapsToMatch(ImportRow(i, row), id, p)
  {
    StoredRowStays(i, row, p);
  }

  /** An id maps to the first stored site matching the last row with that id, and no other id is mapped. */
  lemma {:induction false} MappingNamesFirstMatches(start: Import, rows: seq<Row>, id: string)
    requires Unstopped(start, rows) && start.mapping == map[]
    ensures match LastFor(rows, id)
      case None => id !in ImportRows(start, rows).mapping
      case Some(p) => MapsToMatch(ImportRows(start, rows), id, p)
  {
    if rows != [] {
      var front, row := rows[..|rows| - 1], rows[|rows| - 1];
      MappingNamesFirstMatches(start, front, id);
      ImportRowMaps(ImportRows(start, front), row);
      if id != row.orsId && LastFor(front, id).Some? {
        ImportRowKeepsOthers(ImportRows(start, front), row, id, LastFor(front, id).value);
      }
    }
  }

  /** Importing keeps stored ids below the generator, and distinct. */
  lemma {:induction false} ImportKeepsIdsDistinct(start: Import, rows: seq<Row>)
    requires IdsBelow(start.sites, start.nextId)
    ensures IdsBelow(ImportRows(start, rows).sites, ImportRows(start, rows).nextId)
  {
    if rows != [] {
      ImportKeepsIdsDistinct(start, rows[..|rows| - 1]);
    }
  }

  lemma SameFirstMatchIffSameClass(sites: seq<StoredSite>, nextId: nat, p: Properties, q: Properties)
    requires IdsBelow(sites, nextId)
    requires FirstMatch(sites, p).Some? && FirstMatch(sites, q).Some?
    ensures FirstMatch(sites, p).value.id == FirstMatch(sites, q).value.id <==> ClassOf(p) == ClassOf(q)
  {
    FirstMatchIsFirst(sites, p);
    FirstMatchIsFirst(sites, q);
    var i :| 0 <= i < |sites| && sites[i] == FirstMatch(sites, p).value && SiteMatchesProperties(sites[i].properties, p);
    var j :| 0 <= j < |sites| && sites[j] == FirstMatch(sites, q).value && SiteMatchesProperties(sites[j].properties, q);
    MatchingIsSharingAClass(sites[i].properties, p);
    MatchingIsSharingAClass(sites[j].properties, q);
    if ClassOf(p) == ClassOf(q) {
      SameClassSameMatch(sites, p, q);
    }
  }

  lemma {:induction false} SameClassSameMatch(sites: seq<StoredSite>, p: Properties, q: Properties)
    requires ClassOf(p) == ClassOf(q)
    ensures FirstMatch(sites, p) == FirstMatch(sites, q)
  {
    if sites != [] {
      SameClassSameMatch(sites[..|sites| - 1], p, q);
      MatchingIsSharingAClass(sites[|sites| - 1].properties, p);
      MatchingIsSharingAClass(sites[|sites| - 1].properties, q);
    }
  }

  /** Two ids map to the same stored site if and only if their rows, the last with each id, share a class. */
  lemma {:induction false} MappedTogetherIffSameClass(start: Import, rows: seq<Row>, a: string, b: string)
    requires IdsBelow(start.sites, start.nextId) && start.mapping == map[] && Unstopped(start, rows)
    requires LastFor(rows, a).Some? && LastFor(rows, b).Some?
    ensures var mapping := ImportRows(start, rows).mapping;
      && a in mapping && b in mapping
      && (mapping[a] == mapping[b] <==> ClassOf(LastFor(rows, a).value) == ClassOf(LastFor(rows, b).value))
  {
    var end := ImportRows(start, rows);
    MappingNamesFirstMatches(start, rows, a);
    MappingNamesFirstMatches(start, rows, b);
    ImportKeepsIdsDistinct(start, rows);
    SameFirstMatchIffSameClass(end.sites, end.nextId, LastFor(rows, a).value, LastFor(rows, b).value);
  }

  /** A row found in a store the import has since extended maps to the same site there, and creates nothing. */
  lemma FollowRow(mid: Import, row: Row, later: Import)
    requires !Blocks(mid, row) && ImportRow(mid, row).sites <= later.sites
    ensures !Blocks(later, row)
    ensures later.mapping == mid.mapping ==> ImportRow(later, row) == later.(mapping := ImportRow(mid, row).mapping)
  {
    var end := ImportRow(mid, row);
    var rest := later.sites[|end.sites|..];
    ImportedRowIsStored(mid, row);
    FirstMatchStays(end.sites, rest, row.properties);
    assert end.sites + rest == later.sites;
  }

  /** A run of the same rows against any store that extends what the first run left follows it exactly and creates nothing. */
  lemma {:induction false} SecondRunFollows(start: Import, rows: seq<Row>, later: Import)
    requires Unstopped(start, rows) && ImportRows(start, rows).sites <= later.sites
    requires later.mapping == start.mapping
    ensures Unstopped(later, rows)
    ensures ImportRows(later, rows) == later.(mapping := ImportRows(start, rows).mapping)
  {
    if rows != [] {
      var front, row := rows[..|rows| - 1], rows[|rows| - 1];
      var mid := ImportRows(start, front);
      RowAddsItsClass(mid, row);
      SecondRunFollows(start, front, later);
      FollowRow(mid, row, ImportRows(later, front));
    }
  }

  /** Idempotence: importing the same rows again creates nothing and yields the same map. */
  lemma ImportIsIdempotent(sites: seq<StoredSite>, nextId: nat, rows: seq<Row>)
    requires Unstopped(NewImport(sites, nextId), rows)
    ensures var once := ImportRows(NewImport(sites, nextId), rows);
      var again := NewImport(once.sites, once.nextId);
      && Unstopped(again, rows)
      && ImportRows(again, rows) == Import(once.sites, once.nextId, once.mapping, 0)
  {
    var once := ImportRows(NewImport(sites, nextId), rows);
    SecondRunFollows(NewImport(sites, nextId), rows, NewImport(once.sites, once.nextId));
  }

  /** A stopped import run again stops at the same row and creates nothing: what the first run created is found. */
  lemma RetryStopsAtTheSameRow(sites: seq<StoredSite>, nextId: nat, rows: seq<Row>, k: nat)
    requires StopsAt(NewImport(sites, nextId), rows, k)
    ensures var once := ImportRows(NewImport(sites, nextId), rows[..k]);
      var again := NewImport(once.sites, once.nextId);
      && StopsAt(again, rows, k)
      && ImportRows(again, rows[..k]) == Import(once.sites, once.nextId, once.mapping, 0)
  {
    ImportIsIdempotent(sites, nextId, rows[..k]);
  }

  // ----- what a created site holds -----

  /** An optional cell is stored as its text, or as null when it is absent. */
  predicate HoldsCell(v: Nullable, cell: Option<string>) {
    if cell.Some? then v == Text(cell.value) else v == Null
  }

  /** The stored properties are the parsed site's, cell by cell: a missing coordinate is left out, a missing date is null. */
  predicate HoldsSite(p: Properties, site: ParsedSite, parseDate: string -> Option<int>) {
    && p.name == site.name && p.country == site.country
    && p.line1 == site.line1 && p.townOrCity == site.townOrCity
    && HoldsCell(p.line2, site.line2) && HoldsCell(p.stateOrRegion, site.stateOrRegion) && HoldsCell(p.postcode, site.postcode)
    && (if site.coordinates.Some? then p.coordinates == Text(site.coordinates.value) else p.coordinates == Undefined)
    && (if site.validFrom.Some? && site.validFrom.value != ""
        then p.validFrom.At? && parseDate(site.validFrom.value) == Some(p.validFrom.time)
        else p.validFrom == NullDate)
  }

  /** No text of the site is empty. */
  predicate HasNoEmptyText(p: Properties) {
    && p.name != "" && p.country != "" && p.line1 != "" && p.townOrCity != ""
    && Text("") !in [p.line2, p.stateOrRegion, p.postcode, p.coordinates]
  }

  ghost predicate CreatedFrom(site: StoredSite, rows: seq<Row>) {
    exists i | 0 <= i < |rows| :: site.properties == rows[i].properties && Insertable(rows[i].properties)
  }

  lemma {:induction false} CreatedSitesComeFromRows(start: Import, rows: seq<Row>)
    ensures start.sites <= ImportRows(start, rows).sites
    ensures forall k | |start.sites| <= k < |ImportRows(start, rows).sites| :: CreatedFrom(ImportRows(start, rows).sites[k], rows)
  {
    if rows != [] {
      var front, row := rows[..|rows| - 1], rows[|rows| - 1];
      CreatedSitesComeFromRows(start, front);
      var before, after := ImportRows(start, front), ImportRows(start, rows);
      forall k | |start.sites| <= k < |after.sites| ensures CreatedFrom(after.sites[k], rows) {
        if k < |before.sites| {
          assert after.sites[k] == before.sites[k] && CreatedFrom(before.sites[k], front);
          var i :| 0 <= i < |front| && before.sites[k].properties == front[i].properties && Insertable(front[i].properties);
          assert rows[i] == front[i];
        } else {
          assert after.sites[k].properties == rows[|rows| - 1].properties;
        }
      }
    }
  }

  lemma InsertableRowHoldsItsSite(site: ParsedSite, parseDate: string -> Option<int>)
    requires Insertable(PropertiesOf(site, parseDate))
    ensures HoldsSite(PropertiesOf(site, parseDate), site, parseDate) && HasNoEmptyText(PropertiesOf(site, parseDate))
  {}

  /** An import stores what it had, and after it only sites that hold one of its parsed sites, cell by cell, with no empty text. */
  lemma {:induction false} CreatedSitesHoldTheirRows(
    start: Import, sites: seq<ParsedSite>, parseDate: string -> Option<int>, rows: seq<Row>, k: nat)
    requires rows == RowsOf(sites, parseDate)
    requires |start.sites| <= k < |ImportRows(start, rows).sites|
    ensures start.sites <= ImportRows(start, rows).sites
    ensures var p := ImportRows(start, rows).sites[k].properties;
      HasNoEmptyText(p) && exists i | 0 <= i < |sites| :: HoldsSite(p, sites[i], parseDate)
  {
    CreatedSitesComeFromRows(start, rows);
    var site := ImportRows(start, rows).sites[k];
    var i :| 0 <= i < |rows| && site.properties == rows[i].properties && Insertable(rows[i].properties);
    InsertableRowHoldsItsSite(sites[i], parseDate);
  }

  function RowIds(rows: seq<Row>): set<string> {
    if rows == [] then {} else RowIds(rows[..|rows| - 1]) + {rows[|rows| - 1].orsId}
  }

  lemma {:induction false} RowIdsAreExact(rows: seq<Row>, id: string)
    ensures id in RowIds(rows) <==> exists i | 0 <= i < |rows| :: rows[i].orsId == id
  {
    if rows != [] {
      var n := |rows| - 1;
      RowIdsAreExact(rows[..n], id);
      if i :| 0 <= i < n && rows[..n][i].orsId == id {
        assert rows[i].orsId == id;
      }
      if i :| 0 <= i < |rows| && rows[i].orsId == id {
        assert i < n ==> rows[..n][i].orsId == id;
      }
    }
  }

  lemma {:induction false} DistinctRowIdsCount(rows: seq<Row>)
    requires forall i, j | 0 <= i < j < |rows| :: rows[i].orsId != rows[j].orsId
    ensures |RowIds(rows)| == |rows|
  {
    if rows != [] {
      var n := |rows| - 1;
      DistinctRowIdsCount(rows[..n]);
      RowIdsAreExact(rows[..n], rows[n].orsId);
    }
  }

  lemma {:induction false} MappedIdsAreRowIds(start: Import, rows: seq<Row>)
    requires Unstopped(start, rows) && start.mapping == map[]
    ensures ImportRows(start, rows).mapping.Keys == RowIds(rows)
  {
    if rows != [] {
      MappedIdsAreRowIds(start, rows[..|rows| - 1]);
    }
  }

  /** Rows with distinct ids get one map entry each. */
  lemma DistinctIdsMapOneToOne(start: Import, rows: seq<Row>)
    requires Unstopped(start, rows) && start.mapping == map[]
    requires forall i, j | 0 <= i < j < |rows| :: rows[i].orsId != rows[j].orsId
    ensures |ImportRows(start, rows).mapping| == |rows|
    ensures forall i | 0 <= i < |rows| :: rows[i].orsId in ImportRows(start, rows).mapping
  {
    MappedIdsAreRowIds(start, rows);
    DistinctRowIdsCount(rows);
    assert |ImportRows(start, rows).mapping.Keys| == |ImportRows(start, rows).mapping|;
    forall i | 0 <= i < |rows| ensures rows[i].orsId in ImportRows(start, rows).mapping {
      RowIdsAreExact(rows, rows[i].orsId);
    }
  }

  /** When no text is empty, an import is stopped exactly by its first invalid date. */
  lemma {:induction false} OnlyInvalidDatesStop(start: Import, rows: seq<Row>)
    requires forall i | 0 <= i < |rows| :: rows[i].properties.validFrom.InvalidDate? || Insertable(rows[i].properties)
    ensures Unstopped(start, rows) <==> forall i | 0 <= i < |rows| :: !rows[i].properties.validFrom.InvalidDate?
  {
    if rows != [] {
      var n := |rows| - 1;
      OnlyInvalidDatesStop(start, rows[..n]);
      var mid := ImportRows(start, rows[..n]);
      if !Blocks(mid, rows[n]) {
        UnblockedHasValidDate(mid.sites, rows[n].properties);
      }
    }
  }

  // ----- the spreadsheet's row loop -----

  type OrsId = n: nat | 1 <= n <= 999 witness 1

  /** A worksheet row: nothing beyond an id, content the schema rejects, or a site with its numeric id. */
  datatype SheetRow = Placeholder | Rejected(errors: seq<string>) | Accepted(orsId: OrsId, site: ParsedSite)

  /** The schema reports at least one error for every row it rejects. */
  predicate Reported(row: SheetRow) {
    row.Rejected? ==> row.errors != []
  }

  datatype RowError = InvalidField(row: nat, message: string) | DuplicateOrsId(row: nat, orsId: string)

  function ZeroPadOrsId(id: OrsId): string {
    PadStart(Decimal(id), 3)
  }

  lemma ZeroPadIsInjective(a: OrsId, b: OrsId)
    ensures |ZeroPadOrsId(a)| == 3
    ensures ZeroPadOrsId(a) == ZeroPadOrsId(b) ==> a == b
  {
    ValueOfDecimal(a);
    assert Pow10(2) == 100 by {
      assert Pow10(1) == 10;
    }
    ValueOfPadded(a, 3);
    ValueOfPadded(b, 3);
  }

  function PaddedIds(rows: seq<SheetRow>): set<string> {
    set j | 0 <= j < |rows| && rows[j].Accepted? :: ZeroPadOrsId(rows[j].orsId)
  }

  predicate SeenBefore(rows: seq<SheetRow>, i: int)
    requires 0 <= i < |rows| && rows[i].Accepted?
  {
    exists j | 0 <= j < i :: rows[j].Accepted? && rows[j].orsId == rows[i].orsId
  }

  /** A padded id has been seen exactly when the number itself has. */
  lemma PaddedIdSeenIffIdSeen(rows: seq<SheetRow>, i: nat)
    requires i < |rows| && rows[i].Accepted?
    ensures ZeroPadOrsId(rows[i].orsId) in PaddedIds(rows[..i]) <==> SeenBefore(rows, i)
  {
    var padded := ZeroPadOrsId(rows[i].orsId);
    if padded in PaddedIds(rows[..i]) {
      var j :| 0 <= j < |rows[..i]| && rows[..i][j].Accepted? && ZeroPadOrsId(rows[..i][j].orsId) == padded;
      ZeroPadIsInjective(rows[j].orsId, rows[i].orsId);
    }
    if SeenBefore(rows, i) {
      var j :| 0 <= j < i && rows[j].Accepted? && rows[j].orsId == rows[i].orsId;
      assert rows[..i][j] == rows[j];
    }
  }

  /** The sites a sheet yields: the first accepted row for each id, in order, under its padded id. */
  function SitesOf(rows: seq<SheetRow>): seq<ParsedSite> {
    if rows == [] then []
    else
      var n := |rows| - 1;
      SitesOf(rows[..n])
      + (if rows[n].Accepted? && !SeenBefore(rows, n) then [rows[n].site.(orsId := ZeroPadOrsId(rows[n].orsId))] else [])
  }

  predicate IsCleanRow(rows: seq<SheetRow>, i: nat)
    requires i < |rows|
  {
    match rows[i]
    case Placeholder => true
    case Rejected(_) => false
    case Accepted(_, _) => !SeenBefore(rows, i)
  }

  /** Among the first rows none is rejected and no id repeats. */
  predicate IsCleanTo(rows: seq<SheetRow>, n: nat)
    requires n <= |rows|
  {
    forall i | 0 <= i < n :: IsCleanRow(rows, i)
  }

  lemma PaddedIdsSnoc(rows: seq<SheetRow>)
    requires rows != []
    ensures PaddedIds(rows) == PaddedIds(rows[..|rows| - 1])
      + (if rows[|rows| - 1].Accepted? then {ZeroPadOrsId(rows[|rows| - 1].orsId)} else {})
  {
    var n := |rows| - 1;
    assert forall j | 0 <= j < n :: rows[..n][j] == rows[j];
  }

  /** The loop's state after one more row. */
  lemma SheetSnoc(rows: seq<SheetRow>, n: nat)
    requires n < |rows|
    ensures SitesOf(rows[..n + 1]) == SitesOf(rows[..n])
      + (if rows[n].Accepted? && !SeenBefore(rows, n) then [rows[n].site.(orsId := ZeroPadOrsId(rows[n].orsId))] else [])
    ensures PaddedIds(rows[..n + 1]) == PaddedIds(rows[..n]) + (if rows[n].Accepted? then {ZeroPadOrsId(rows[n].orsId)} else {})
    ensures IsCleanTo(rows, n + 1) <==> IsCleanTo(rows, n) && IsCleanRow(rows, n)
    ensures rows[n].Accepted? ==> (ZeroPadOrsId(rows[n].orsId) in PaddedIds(rows[..n]) <==> SeenBefore(rows, n))
  {
    var front := rows[..n + 1];
    assert front[..n] == rows[..n];
    PaddedIdsSnoc(front);
    if rows[n].Accepted? {
      PaddedIdSeenIffIdSeen(rows, n);
      assert SeenBefore(front, n) <==> SeenBefore(rows, n) by {
        assert forall j | 0 <= j < n :: front[j] == rows[j];
      }
    }
  }

  /** An error names its row, with a message the schema gave for it or the padded id it repeats. */
  predicate IsErrorOf(e: RowError, rows: seq<SheetRow>) {
    && e.row < |rows|
    && match e
      case InvalidField(i, message) => rows[i].Rejected? && message in rows[i].errors
      case DuplicateOrsId(i, orsId) => rows[i].Accepted? && SeenBefore(rows, i) && orsId == ZeroPadOrsId(rows[i].orsId)
  }

  method ParseRows(rows: seq<SheetRow>) returns (sites: seq<ParsedSite>, errors: seq<RowError>)
    requires forall i | 0 <= i < |rows| :: Reported(rows[i])
    ensures sites == SitesOf(rows)
    ensures errors == [] <==> IsCleanTo(rows, |rows|)
    ensures forall e | e in errors :: IsErrorOf(e, rows)
  {
    sites, errors := [], [];
    var seen: set<string> := {};
    for n := 0 to |rows|
      invariant sites == SitesOf(rows[..n])
      invariant seen == PaddedIds(rows[..n])
      invariant errors == [] <==> IsCleanTo(rows, n)
      invariant forall e | e in errors :: IsErrorOf(e, rows)
    {
      SheetSnoc(rows, n);
      match rows[n] {
        case Placeholder =>
        case Rejected(messages) =>
          assert Reported(rows[n]);
          errors := errors + seq(|messages|, k requires 0 <= k < |messages| => InvalidField(n, messages[k]));
        case Accepted(orsId, site) =>
          var padded := ZeroPadOrsId(orsId);
          if padded in seen {
            errors := errors + [DuplicateOrsId(n, padded)];
          } else {
            seen := seen + {padded};
            sites := sites + [site.(orsId := padded)];
          }
      }
    }
    assert rows[..|rows|] == rows;
  }

  /** Whatever the sheet, the parsed ids are distinct, and each is some accepted row's padded id. */
  lemma {:induction false} ParsedIdsAreDistinct(rows: seq<SheetRow>)
    ensures var sites := SitesOf(rows);
      && (forall i, j | 0 <= i < j < |sites| :: sites[i].orsId != sites[j].orsId)
      && (forall i | 0 <= i < |sites| :: sites[i].orsId in PaddedIds(rows))
  {
    if rows != [] {
      var n := |rows| - 1;
      ParsedIdsAreDistinct(rows[..n]);
      PaddedIdsSnoc(rows);
      if rows[n].Accepted? && !SeenBefore(rows, n) {
        PaddedIdSeenIffIdSeen(rows, n);
        assert SitesOf(rows) == SitesOf(rows[..n]) + [rows[n].site.(orsId := ZeroPadOrsId(rows[n].orsId))];
      } else {
        assert SitesOf(rows) == SitesOf(rows[..n]);
      }
    }
  }

  /** So a whole sheet imports into one map entry for each of its sites. */
  lemma {:induction false} SheetMapsOneToOne(rows: seq<SheetRow>, parseDate: string -> Option<int>, start: Import, imported: seq<Row>)
    requires imported == RowsOf(SitesOf(rows), parseDate)
    requires start.mapping == map[] && Unstopped(start, imported)
    ensures |ImportRows(start, imported).mapping| == |SitesOf(rows)|
  {
    ParsedIdsAreDistinct(rows);
    forall i, j | 0 <= i < j < |imported| ensures imported[i].orsId != imported[j].orsId {
      assert imported[i].orsId == SitesOf(rows)[i].orsId && imported[j].orsId == SitesOf(rows)[j].orsId;
    }
    DistinctIdsMapOneToOne(start, imported);
  }
}

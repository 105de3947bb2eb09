/** Linking registrations to accreditations within one organisation (link-form-submissions.js, submission-keys.js). */
module AccreditationLinker {
  import opened Wrappers

  // ----- the matching relation -----

  const REPROCESSOR := "reprocessor"
  const GLASS := "glass"

  /** The identity fields. `postcode` is the normalised site key; a reprocessor's site may lack one. */
  datatype Identity = Identity(
    wasteProcessingType: string,
    material: string,
    postcode: Option<string>,
    reprocessingType: Option<string>,
    glassRecyclingProcess: Option<seq<string>>)

  datatype KeyField = TypeField | MaterialField | PostcodeField | ReprocessingField | GlassField

  predicate HasReprocessing(item: Identity) {
    item.reprocessingType.Some? && item.reprocessingType.value != ""
  }

  predicate HasGlass(item: Identity) {
    item.material == GLASS && item.glassRecyclingProcess.Some? && |item.glassRecyclingProcess.value| == 1
  }

  /** The object the spreads build: an included field may still hold an undefined value. */
  function KeyValuePairs(item: Identity): map<KeyField, Option<string>> {
    var base: map<KeyField, Option<string>> := map[TypeField := Some(item.wasteProcessingType), MaterialField := Some(item.material)];
    var sited := if item.wasteProcessingType == REPROCESSOR then base[PostcodeField := item.postcode] else base;
    var typed := if HasReprocessing(item) then sited[ReprocessingField := item.reprocessingType] else sited;
    if HasGlass(item) then typed[GlassField := Some(item.glassRecyclingProcess.value[0])] else typed
  }

  function Lookup(fields: map<KeyField, Option<string>>, key: KeyField): Option<string> {
    if key in fields then fields[key] else None
  }

  /** Same number of fields, and every field of the accreditation defined and equal to the registration's. */
  predicate IsAccreditationForRegistration(accreditation: Identity, registration: Identity) {
    var accFields, regFields := KeyValuePairs(accreditation), KeyValuePairs(registration);
    && |accFields.Keys| == |regFields.Keys|
    && forall key | key in accFields :: accFields[key].Some? && accFields[key] == Lookup(regFields, key)
  }

  predicate AllDefined(fields: map<KeyField, Option<string>>) {
    forall key | key in fields :: fields[key].Some?
  }

  lemma SubsetOfEqualSize<T>(a: set<T>, b: set<T>)
    requires a <= b && |a| == |b|
    ensures a == b
  {
    var rest := b - a;
    assert b == a + rest && a !! rest;
    assert |b| == |a| + |rest|;
  }

  /** The counted comparison means the two items have the same fields with the same, defined, values. */
  lemma MatchMeansEqualFields(a: Identity, r: Identity)
    ensures IsAccreditationForRegistration(a, r) <==> KeyValuePairs(a) == KeyValuePairs(r) && AllDefined(KeyValuePairs(a))
  {
    if IsAccreditationForRegistration(a, r) {
      SubsetOfEqualSize(KeyValuePairs(a).Keys, KeyValuePairs(r).Keys);
    }
  }

  predicate IsBlank(text: Option<string>) {
    text.None? || text.value == ""
  }

  predicate HasOneProcess(item: Identity) {
    item.glassRecyclingProcess.Some? && |item.glassRecyclingProcess.value| == 1
  }

  /** What the comparison comes to, field by field of the two items. */
  predicate SameIdentity(a: Identity, r: Identity) {
    && a.wasteProcessingType == r.wasteProcessingType
    && a.material == r.material
    && (a.wasteProcessingType == REPROCESSOR ==> a.postcode.Some? && a.postcode == r.postcode)
    && (a.reprocessingType == r.reprocessingType || (IsBlank(a.reprocessingType) && IsBlank(r.reprocessingType)))
    && (a.material == GLASS ==>
          if HasOneProcess(a) then HasOneProcess(r) && a.glassRecyclingProcess.value[0] == r.glassRecyclingProcess.value[0]
          else !HasOneProcess(r))
  }

  /**
   * Two items match if and only if type and material are equal, reprocessors have equal postcodes, the reprocessing types
   * are equal or both blank, and glass has the same single process on both sides or a single process on neither.
   */
  lemma {:induction false} MatchMeansSameIdentity(a: Identity, r: Identity)
    ensures IsAccreditationForRegistration(a, r) <==> SameIdentity(a, r)
  {
    MatchMeansEqualFields(a, r);
    if SameIdentity(a, r) {
      SameIdentityHasEqualFields(a, r);
    }
    EqualFieldsMeanSameIdentity(a, r);
  }

  lemma {:induction false} SameIdentityHasEqualFields(a: Identity, r: Identity)
    requires SameIdentity(a, r)
    ensures KeyValuePairs(a) == KeyValuePairs(r) && AllDefined(KeyValuePairs(a))
  {
    var x, y := KeyValuePairs(a), KeyValuePairs(r);
    assert x.Keys == y.Keys;
    assert forall key | key in x :: x[key] == y[key];
  }

  lemma {:induction false} EqualFieldsMeanSameIdentity(a: Identity, r: Identity)
    ensures KeyValuePairs(a) == KeyValuePairs(r) && AllDefined(KeyValuePairs(a)) ==> SameIdentity(a, r)
  {
    var x, y := KeyValuePairs(a), KeyValuePairs(r);
    if x == y && AllDefined(x) {
      assert x[TypeField] == y[TypeField] && x[MaterialField] == y[MaterialField];
      assert PostcodeField in x <==> PostcodeField in y;
      assert ReprocessingField in x <==> ReprocessingField in y;
      assert GlassField in x <==> GlassField in y;
      assert PostcodeField in x ==> x[PostcodeField] == a.postcode && y[PostcodeField] == r.postcode;
      assert ReprocessingField in x ==> x[ReprocessingField] == a.reprocessingType && y[ReprocessingField] == r.reprocessingType;
      assert GlassField in x ==> x[GlassField].value == a.glassRecyclingProcess.value[0] && y[GlassField].value == r.glassRecyclingProcess.value[0];
    }
  }

  /** Matching is symmetric and transitive. */
  lemma MatchingIsAPartialEquivalence(a: Identity, b: Identity, c: Identity)
    ensures IsAccreditationForRegistration(a, b) ==> IsAccreditationForRegistration(b, a)
    ensures IsAccreditationForRegistration(a, b) && IsAccreditationForRegistration(b, c) ==> IsAccreditationForRegistration(a, c)
  {
    MatchMeansEqualFields(a, b);
    MatchMeansEqualFields(b, a);
    MatchMeansEqualFields(b, c);
    MatchMeansEqualFields(a, c);
  }

  /** An item matches itself unless it is a reprocessor's without a postcode, which matches nothing. */
  lemma MatchesItselfIffLocated(a: Identity, b: Identity)
    ensures IsAccreditationForRegistration(a, a) <==> (a.wasteProcessingType == REPROCESSOR ==> a.postcode.Some?)
    ensures !IsAccreditationForRegistration(a, a) ==> !IsAccreditationForRegistration(a, b) && !IsAccreditationForRegistration(b, a)
  {
    MatchMeansEqualFields(a, a);
    MatchMeansEqualFields(a, b);
    MatchMeansEqualFields(b, a);
    if a.wasteProcessingType == REPROCESSOR {
      assert PostcodeField in KeyValuePairs(a) && KeyValuePairs(a)[PostcodeField] == a.postcode;
    }
  }

  function FieldText(fields: map<KeyField, Option<string>>, key: KeyField): string {
    if key in fields then "::" + Lookup(fields, key).GetOr("") else ""
  }

  /** getRegAccKey: the values in field order, joined; an undefined value joins as nothing. */
  function RegAccKey(item: Identity): string {
    var fields := KeyValuePairs(item);
    item.wasteProcessingType + FieldText(fields, MaterialField) + FieldText(fields, PostcodeField)
    + FieldText(fields, ReprocessingField) + FieldText(fields, GlassField)
  }

  /** The documented format: type and material, a reprocessor's postcode, and the reprocessing type and glass process if given. */
  lemma KeyFormat(item: Identity)
    ensures RegAccKey(item)
         == item.wasteProcessingType + ("::" + item.material)
          + (if item.wasteProcessingType == REPROCESSOR then "::" + item.postcode.GetOr("") else "")
          + (if IsBlank(item.reprocessingType) then "" else "::" + item.reprocessingType.value)
          + (if item.material == GLASS && HasOneProcess(item) then "::" + item.glassRecyclingProcess.value[0] else "")
  {
    var fields := KeyValuePairs(item);
    assert FieldText(fields, MaterialField) == "::" + item.material;
    assert FieldText(fields, PostcodeField)
        == if item.wasteProcessingType == REPROCESSOR then "::" + item.postcode.GetOr("") else "";
    assert FieldText(fields, ReprocessingField) == if IsBlank(item.reprocessingType) then "" else "::" + item.reprocessingType.value;
  }

  /** Items that match have the same key. */
  lemma MatchImpliesEqualKeys(a: Identity, r: Identity)
    requires IsAccreditationForRegistration(a, r)
    ensures RegAccKey(a) == RegAccKey(r)
  {
    MatchMeansEqualFields(a, r);
    assert KeyValuePairs(a)[TypeField] == Some(a.wasteProcessingType);
    assert KeyValuePairs(r)[TypeField] == Some(r.wasteProcessingType);
  }

  // ----- one organisation -----

  datatype Accreditation = Accreditation(id: string, approved: bool, time: int, identity: Identity)

  type Link = Option<string>

  class Registration {
    const identity: Identity
    var accreditationId: Link

    constructor (identity: Identity, accreditationId: Link)
      ensures this.identity == identity && this.accreditationId == accreditationId
    {
      this.identity := identity;
      this.accreditationId := accreditationId;
    }
  }

  /** Unapproved, unclaimed and matching, in order. */
  function FindEligible(identity: Identity, accs: seq<Accreditation>, claimed: set<string>): seq<Accreditation> {
    if accs == [] then []
    else
      var acc := accs[|accs| - 1];
      FindEligible(identity, accs[..|accs| - 1], claimed)
      + (if IsEligible(identity, acc, claimed) then [acc] else [])
  }

  predicate IsEligible(identity: Identity, acc: Accreditation, claimed: set<string>) {
    !acc.approved && acc.id !in claimed && IsAccreditationForRegistration(acc.identity, identity)
  }

  /** What a registration may take: an unapproved accreditation nobody has claimed, of the registration's own identity. */
  lemma EligibleMeansTakeable(identity: Identity, acc: Accreditation, claimed: set<string>)
    ensures IsEligible(identity, acc, claimed) <==> !acc.approved && acc.id !in claimed && SameIdentity(acc.identity, identity)
  {
    MatchMeansSameIdentity(acc.identity, identity);
  }

  /** The head of a stable sort by time, latest first: the earliest listed of the latest. */
  function SelectLatest(accs: seq<Accreditation>): (best: Accreditation)
    requires accs != []
    ensures best in accs && forall acc | acc in accs :: acc.time <= best.time
  {
    if |accs| == 1 then accs[0]
    else
      var front, last := SelectLatest(accs[..|accs| - 1]), accs[|accs| - 1];
      assert accs == accs[..|accs| - 1] + [last];
      if front.time < last.time then last else front
  }

  lemma {:induction false} EligibleIsExact(identity: Identity, accs: seq<Accreditation>, claimed: set<string>)
    ensures forall acc :: acc in FindEligible(identity, accs, claimed) <==> acc in accs && IsEligible(identity, acc, claimed)
  {
    if accs != [] {
      EligibleIsExact(identity, accs[..|accs| - 1], claimed);
      assert accs == accs[..|accs| - 1] + [accs[|accs| - 1]];
    }
  }

  function Pick(identity: Identity, accs: seq<Accreditation>, claimed: set<string>): Option<Accreditation> {
    var eligible := FindEligible(identity, accs, claimed);
    if eligible == [] then None else Some(SelectLatest(eligible))
  }

  /** Picks an eligible accreditation no other eligible one is later than, unless there is none at all. */
  lemma PickIsLatestEligible(identity: Identity, accs: seq<Accreditation>, claimed: set<string>)
    ensures var p := Pick(identity, accs, claimed);
      && (p.None? <==> forall acc | acc in accs :: !IsEligible(identity, acc, claimed))
      && (p.Some? ==> p.value in accs && IsEligible(identity, p.value, claimed))
      && (p.Some? ==> forall acc | acc in accs && IsEligible(identity, acc, claimed) :: acc.time <= p.value.time)
  {
    EligibleIsExact(identity, accs, claimed);
    var eligible := FindEligible(identity, accs, claimed);
    if eligible != [] {
      assert eligible[0] in eligible;
    }
  }

  /** Listed before every other eligible one of its time. */
  predicate IsFirstOfItsTime(identity: Identity, accs: seq<Accreditation>, claimed: set<string>, i: nat)
    requires i < |accs|
  {
    forall j | 0 <= j < i && IsEligible(identity, accs[j], claimed) :: accs[j].time < accs[i].time
  }

  /** What one more accreditation changes: it is picked if it is eligible and later than the pick so far. */
  lemma PickSnoc(identity: Identity, accs: seq<Accreditation>, claimed: set<string>)
    requires accs != []
    ensures var front, last := Pick(identity, accs[..|accs| - 1], claimed), accs[|accs| - 1];
      Pick(identity, accs, claimed)
      == if IsEligible(identity, last, claimed) && (front.None? || front.value.time < last.time) then Some(last) else front
  {
    var eligible, last := FindEligible(identity, accs[..|accs| - 1], claimed), accs[|accs| - 1];
    assert (eligible + [last])[..|eligible|] == eligible && eligible + [] == eligible;
  }

  lemma EligibleBeforePick(identity: Identity, accs: seq<Accreditation>, claimed: set<string>, j: nat)
    requires j < |accs| && IsEligible(identity, accs[j], claimed)
    ensures Pick(identity, accs, claimed).Some? && accs[j].time <= Pick(identity, accs, claimed).value.time
  {
    PickIsLatestEligible(identity, accs, claimed);
    assert accs[j] in accs;
  }

  /** Among eligible accreditations of the same, latest, time the one listed first is picked: the sort is stable. */
  lemma {:induction false} PickIsFirstOfItsTime(identity: Identity, accs: seq<Accreditation>, claimed: set<string>)
    requires Pick(identity, accs, claimed).Some?
    ensures exists i | 0 <= i < |accs| ::
      accs[i] == Pick(identity, accs, claimed).value && IsFirstOfItsTime(identity, accs, claimed, i)
  {
    if accs != [] {
      var n := |accs| - 1;
      var front, picked := accs[..n], Pick(identity, accs[..n], claimed);
      PickSnoc(identity, accs, claimed);
      if Pick(identity, accs, claimed) == picked {
        PickIsFirstOfItsTime(identity, front, claimed);
        var i :| 0 <= i < n && front[i] == picked.value && IsFirstOfItsTime(identity, front, claimed, i);
        assert IsFirstOfItsTime(identity, accs, claimed, i) by {
          assert forall j | 0 <= j < i :: front[j] == accs[j];
        }
      } else {
        forall j | 0 <= j < n && IsEligible(identity, accs[j], claimed) ensures accs[j].time < accs[n].time {
          assert front[j] == accs[j];
          EligibleBeforePick(identity, front, claimed, j);
        }
        assert IsFirstOfItsTime(identity, accs, claimed, n);
      }
    }
  }

  /** The first accreditation with the linked id is approved. */
  predicate IsLinkedToApproved(link: Link, accs: seq<Accreditation>) {
    exists i | 0 <= i < |accs| ::
      link == Some(accs[i].id) && accs[i].approved && forall j | 0 <= j < i :: accs[j].id != accs[i].id
  }

  function ClaimedIds(links: seq<Link>): set<string> {
    set i | 0 <= i < |links| && links[i].Some? :: links[i].value
  }

  lemma ClaimedIdsSnoc(links: seq<Link>, link: Link)
    ensures ClaimedIds(links + [link]) == ClaimedIds(links) + (if link.Some? then {link.value} else {})
  {
    assert (links + [link])[|links|] == link;
    assert forall i | 0 <= i < |links| :: (links + [link])[i] == links[i];
  }

  /** Links and claimed ids as the pass goes along. */
  datatype Pass = Pass(links: seq<Link>, claimed: set<string>)

  /** One registration's turn. `link` is what it was linked to before the pass, which decides whether it is tried. */
  function PassStep(p: Pass, i: nat, identity: Identity, link: Link, accs: seq<Accreditation>): (q: Pass)
    requires i < |p.links|
    ensures |q.links| == |p.links|
  {
    if IsLinkedToApproved(link, accs) then p
    else
      match Pick(identity, accs, p.claimed)
      case None => p
      case Some(acc) => Pass(p.links[i := Some(acc.id)], p.claimed + {acc.id})
  }

  function PassAfter(identities: seq<Identity>, links: seq<Link>, accs: seq<Accreditation>, n: nat): (p: Pass)
    requires |identities| == |links| && n <= |links|
    ensures |p.links| == |links|
  {
    if n == 0 then Pass(links, ClaimedIds(links))
    else PassStep(PassAfter(identities, links, accs, n - 1), n - 1, identities[n - 1], links[n - 1], accs)
  }

  ghost function IdentitiesOf(regs: seq<Registration>): (ids: seq<Identity>)
    ensures |ids| == |regs|
  {
    seq(|regs|, i requires 0 <= i < |regs| => regs[i].identity)
  }

  ghost function LinksOf(regs: seq<Registration>): (links: seq<Link>)
    reads regs
    ensures |links| == |regs|
  {
    seq(|regs|, i requires 0 <= i < |regs| reads regs => regs[i].accreditationId)
  }

  /** Claims the latest eligible accreditation for one registration, if there is one. */
  method ClaimAccreditationForRegistration(reg: Registration, accs: seq<Accreditation>, claimed: set<string>) returns (claimed': set<string>)
    modifies reg
    ensures match Pick(reg.identity, accs, claimed)
      case None => reg.accreditationId == old(reg.accreditationId) && claimed' == claimed
      case Some(acc) => reg.accreditationId == Some(acc.id) && claimed' == claimed + {acc.id}
  {
    var eligible := FindEligible(reg.identity, accs, claimed);
    if |eligible| == 0 {
      return claimed;
    }
    var latest := SelectLatest(eligible);
    reg.accreditationId := Some(latest.id);
    claimed' := claimed + {latest.id};
  }

  /** Which registrations are tried: those not linked to an approved accreditation when the pass starts. */
  ghost function ToLink(links: seq<Link>, accs: seq<Accreditation>): (toLink: seq<bool>)
    ensures |toLink| == |links|
  {
    seq(|links|, i requires 0 <= i < |links| => !IsLinkedToApproved(links[i], accs))
  }

  method FindRegistrationsToLink(regs: seq<Registration>, accs: seq<Accreditation>) returns (toLink: seq<bool>)
    ensures toLink == ToLink(LinksOf(regs), accs)
  {
    toLink := [];
    for i := 0 to |regs|
      invariant |toLink| == i
      invariant forall j | 0 <= j < i :: toLink[j] == !IsLinkedToApproved(regs[j].accreditationId, accs)
    {
      toLink := toLink + [!IsLinkedToApproved(regs[i].accreditationId, accs)];
    }
  }

  method GetClaimedAccreditationIds(regs: seq<Registration>) returns (claimed: set<string>)
    ensures claimed == ClaimedIds(LinksOf(regs))
  {
    claimed := {};
    ghost var links := LinksOf(regs);
    for i := 0 to |regs|
      invariant claimed == ClaimedIds(links[..i])
    {
      ClaimedIdsSnoc(links[..i], links[i]);
      assert links[..i + 1] == links[..i] + [links[i]];
      if regs[i].accreditationId.Some? {
        claimed := claimed + {regs[i].accreditationId.value};
      }
    }
    assert links[..|links|] == links;
  }

  /** One registration's turn, when it is to be tried. */
  method LinkOne(regs: seq<Registration>, n: nat, accs: seq<Accreditation>, claimed: set<string>, ghost link: Link)
    returns (claimed': set<string>)
    requires n < |regs| && (forall i, j | 0 <= i < j < |regs| :: regs[i] != regs[j])
    requires !IsLinkedToApproved(link, accs)
    modifies regs[n]
    ensures Pass(LinksOf(regs), claimed') == PassStep(Pass(old(LinksOf(regs)), claimed), n, regs[n].identity, link, accs)
  {
    ghost var before := LinksOf(regs);
    claimed' := ClaimAccreditationForRegistration(regs[n], accs, claimed);
    assert LinksOf(regs) == before[n := regs[n].accreditationId];
  }

  /** linkAccreditationsForOrg: which registrations to try is settled before any of them is linked. */
  method LinkAccreditationsForOrg(regs: seq<Registration>, accs: seq<Accreditation>)
    requires forall i, j | 0 <= i < j < |regs| :: regs[i] != regs[j]
    modifies regs
    ensures LinksOf(regs) == PassAfter(IdentitiesOf(regs), old(LinksOf(regs)), accs, |regs|).links
  {
    ghost var identities, links := IdentitiesOf(regs), LinksOf(regs);
    var toLink := FindRegistrationsToLink(regs, accs);
    var claimed := GetClaimedAccreditationIds(regs);
    for n := 0 to |regs|
      invariant Pass(LinksOf(regs), claimed) == PassAfter(identities, links, accs, n)
    {
      if toLink[n] {
        assert !IsLinkedToApproved(links[n], accs);
        claimed := LinkOne(regs, n, accs, claimed, links[n]);
      }
    }
  }

  // ----- what linking promises -----

  /** No accreditation is linked to two registrations. */
  ghost predicate Injective(links: seq<Link>) {
    forall i, j | 0 <= i < j < |links| && links[i].Some? :: links[i] != links[j]
  }

  /** Every link, present or past, is claimed. */
  ghost predicate LinksAreClaimed(links: seq<Link>, claimed: set<string>) {
    forall i | 0 <= i < |links| && links[i].Some? :: links[i].value in claimed
  }

  ghost function AllAfter(identities: seq<Identity>, links: seq<Link>, accs: seq<Accreditation>): Pass
    requires |identities| == |links|
  {
    PassAfter(identities, links, accs, |links|)
  }

  lemma {:induction false} PassOnlyClaims(identities: seq<Identity>, links: seq<Link>, accs: seq<Accreditation>, m: nat, n: nat)
    requires |identities| == |links| && m <= n <= |links|
    ensures var p, q := PassAfter(identities, links, accs, m), PassAfter(identities, links, accs, n);
      && p.claimed <= q.claimed
      && (forall i | 0 <= i < m :: q.links[i] == p.links[i])
      && (forall i | n <= i < |links| :: q.links[i] == links[i])
  {
    if m < n {
      PassOnlyClaims(identities, links, accs, m, n - 1);
    } else if 0 < m {
      PassOnlyClaims(identities, links, accs, m - 1, m - 1);
    }
  }

  /** Links stay one to one. */
  lemma {:induction false} LinksStayInjective(identities: seq<Identity>, links: seq<Link>, accs: seq<Accreditation>, n: nat)
    requires |identities| == |links| && n <= |links|
    requires Injective(links)
    ensures Injective(PassAfter(identities, links, accs, n).links)
    ensures LinksAreClaimed(PassAfter(identities, links, accs, n).links, PassAfter(identities, links, accs, n).claimed)
  {
    if n != 0 {
      var p := PassAfter(identities, links, accs, n - 1);
      LinksStayInjective(identities, links, accs, n - 1);
      PickIsLatestEligible(identities[n - 1], accs, p.claimed);
    }
  }

  /**
   * A registration linked to an approved accreditation keeps its link. Any other either keeps what it had because nothing
   * eligible was unclaimed at its turn, or takes an unapproved, matching accreditation, unclaimed until then, that no
   * other such accreditation is later than.
   */
  lemma EachLinkIsKeptOrLatest(identities: seq<Identity>, links: seq<Link>, accs: seq<Accreditation>, i: nat)
    requires |identities| == |links| && i < |links|
    ensures var before, final := PassAfter(identities, links, accs, i), AllAfter(identities, links, accs);
      if IsLinkedToApproved(links[i], accs) then final.links[i] == links[i]
      else if forall acc | acc in accs :: !IsEligible(identities[i], acc, before.claimed) then final.links[i] == links[i]
      else exists acc | acc in accs ::
        && final.links[i] == Some(acc.id) && IsEligible(identities[i], acc, before.claimed) && acc.id !in ClaimedIds(links)
        && forall other | other in accs && IsEligible(identities[i], other, before.claimed) :: other.time <= acc.time
  {
    PassOnlyClaims(identities, links, accs, 0, i);
    PassOnlyClaims(identities, links, accs, i, i + 1);
    PassOnlyClaims(identities, links, accs, i + 1, |links|);
    PickIsLatestEligible(identities[i], accs, PassAfter(identities, links, accs, i).claimed);
  }

  /** Maximality: a registration tried and left as it was has no eligible accreditation that nobody has claimed by the end. */
  lemma TriedAndUnlinkedHasNothingLeft(identities: seq<Identity>, links: seq<Link>, accs: seq<Accreditation>, i: nat)
    requires |identities| == |links| && i < |links|
    requires !IsLinkedToApproved(links[i], accs)
    requires AllAfter(identities, links, accs).links[i] == links[i]
    ensures forall acc | acc in accs :: !IsEligible(identities[i], acc, AllAfter(identities, links, accs).claimed)
  {
    PassOnlyClaims(identities, links, accs, 0, i);
    PassOnlyClaims(identities, links, accs, i, |links|);
    EachLinkIsKeptOrLatest(identities, links, accs, i);
  }

  /** Moving a link that still is what it was forgets no claim, counting the links there were. */
  lemma MovedLinkStaysClaimed(links: seq<Link>, now: seq<Link>, i: nat, id: string)
    requires |now| == |links| && i < |links| && now[i] == links[i]
    ensures ClaimedIds(links) + ClaimedIds(now[i := Some(id)]) == ClaimedIds(links) + ClaimedIds(now) + {id}
  {
    var moved := now[i := Some(id)];
    assert moved[i] == Some(id);
    forall x | x in ClaimedIds(now) ensures x in ClaimedIds(links) + ClaimedIds(moved) {
      var j :| 0 <= j < |now| && now[j] == Some(x);
      assert if j == i then links[j] == Some(x) else moved[j] == Some(x);
    }
  }

  /** Claimed is every link there was and every link there is. */
  ghost predicate ClaimsOldAndNew(links: seq<Link>, p: Pass) {
    p.claimed == ClaimedIds(links) + ClaimedIds(p.links)
  }

  lemma StepClaimsOldAndNew(links: seq<Link>, p: Pass, i: nat, identity: Identity, accs: seq<Accreditation>)
    requires |p.links| == |links| && i < |links| && p.links[i] == links[i]
    requires ClaimsOldAndNew(links, p)
    ensures ClaimsOldAndNew(links, PassStep(p, i, identity, links[i], accs))
  {
    var pick := Pick(identity, accs, p.claimed);
    if pick.Some? {
      MovedLinkStaysClaimed(links, p.links, i, pick.value.id);
    }
  }

  lemma StartClaimsOldAndNew(links: seq<Link>)
    ensures ClaimsOldAndNew(links, Pass(links, ClaimedIds(links)))
  {}

  /** Before its turn a registration still has the link it had. */
  lemma LinkBeforeItsTurn(identities: seq<Identity>, links: seq<Link>, accs: seq<Accreditation>, n: nat)
    requires |identities| == |links| && n < |links|
    ensures PassAfter(identities, links, accs, n).links[n] == links[n]
  {
    PassOnlyClaims(identities, links, accs, 0, n);
  }

  lemma {:induction false} ClaimedIsOldAndNewLinks(identities: seq<Identity>, links: seq<Link>, accs: seq<Accreditation>, n: nat)
    requires |identities| == |links| && n <= |links|
    ensures ClaimsOldAndNew(links, PassAfter(identities, links, accs, n))
  {
    if n == 0 {
      StartClaimsOldAndNew(links);
    } else {
      ClaimedIsOldAndNewLinks(identities, links, accs, n - 1);
      LinkBeforeItsTurn(identities, links, accs, n - 1);
      StepClaimsOldAndNew(links, PassAfter(identities, links, accs, n - 1), n - 1, identities[n - 1], accs);
    }
  }

  /** An accreditation the pass released: linked before, to a registration that moved on, and to nobody now. */
  ghost predicate Released(identities: seq<Identity>, links: seq<Link>, accs: seq<Accreditation>, id: string)
    requires |identities| == |links|
  {
    id in ClaimedIds(links) && id !in ClaimedIds(AllAfter(identities, links, accs).links)
  }

  /**
   * Against the links that actually remain, a registration tried and left as it was misses out if and only if a matching
   * unapproved accreditation was released. Nothing is released when no tried registration was linked to begin with.
   */
  lemma MissesOutIffReleased(identities: seq<Identity>, links: seq<Link>, accs: seq<Accreditation>, i: nat)
    requires |identities| == |links| && i < |links|
    requires !IsLinkedToApproved(links[i], accs)
    requires AllAfter(identities, links, accs).links[i] == links[i]
    ensures (exists acc | acc in accs :: IsEligible(identities[i], acc, ClaimedIds(AllAfter(identities, links, accs).links)))
       <==> (exists acc | acc in accs :: IsEligible(identities[i], acc, {}) && Released(identities, links, accs, acc.id))
    ensures (forall j | 0 <= j < |links| && links[j].Some? :: IsLinkedToApproved(links[j], accs))
        ==> forall acc | acc in accs :: !IsEligible(identities[i], acc, ClaimedIds(AllAfter(identities, links, accs).links))
  {
    var final := AllAfter(identities, links, accs);
    TriedAndUnlinkedHasNothingLeft(identities, links, accs, i);
    ClaimedIsOldAndNewLinks(identities, links, accs, |links|);
    forall acc | acc in accs && IsEligible(identities[i], acc, ClaimedIds(final.links))
      ensures IsEligible(identities[i], acc, {}) && Released(identities, links, accs, acc.id)
    {
      assert acc.id in final.claimed;
    }
    if forall j | 0 <= j < |links| && links[j].Some? :: IsLinkedToApproved(links[j], accs) {
      forall id | id in ClaimedIds(links) ensures id in ClaimedIds(final.links) {
        var j :| 0 <= j < |links| && links[j] == Some(id);
        EachLinkIsKeptOrLatest(identities, links, accs, j);
        assert final.links[j] == Some(id);
      }
    }
  }

  lemma OneRegistrationPass(identity: Identity, link: Link, accs: seq<Accreditation>)
    requires !IsLinkedToApproved(link, accs)
    ensures var claimed := if link.Some? then {link.value} else {};
      AllAfter([identity], [link], accs).links
      == match Pick(identity, accs, claimed)
         case None => [link]
         case Some(acc) => [Some(acc.id)]
  {
    var claimed := if link.Some? then {link.value} else {};
    assert ClaimedIds([link]) == claimed by {
      assert [link][0] == link;
    }
    assert PassAfter([identity], [link], accs, 0) == Pass([link], claimed);
    if Pick(identity, accs, claimed).Some? {
      assert [link][0 := Some(Pick(identity, accs, claimed).value.id)] == [Some(Pick(identity, accs, claimed).value.id)];
    }
  }

  // ----- when a pass leaves the links alone -----

  /** Some accreditation nobody is linked to could be taken by this registration. */
  ghost predicate HasUnlinkedChoice(identity: Identity, links: seq<Link>, accs: seq<Accreditation>) {
    exists acc | acc in accs :: IsEligible(identity, acc, ClaimedIds(links))
  }

  /** No registration the pass tries has a choice among the accreditations nobody is linked to. */
  ghost predicate IsSettled(identities: seq<Identity>, links: seq<Link>, accs: seq<Accreditation>)
    requires |identities| == |links|
  {
    forall i | 0 <= i < |links| && !IsLinkedToApproved(links[i], accs) :: !HasUnlinkedChoice(identities[i], links, accs)
  }

  ghost predicate IdleTurn(identities: seq<Identity>, links: seq<Link>, accs: seq<Accreditation>, i: nat)
    requires |identities| == |links| && i < |links|
  {
    var p := Pass(links, ClaimedIds(links));
    PassStep(p, i, identities[i], links[i], accs) == p
  }

  lemma SettledTurnIsIdle(identities: seq<Identity>, links: seq<Link>, accs: seq<Accreditation>, i: nat)
    requires |identities| == |links| && i < |links| && IsSettled(identities, links, accs)
    ensures IdleTurn(identities, links, accs, i)
  {
    PickIsLatestEligible(identities[i], accs, ClaimedIds(links));
  }

  lemma {:induction false} IdleTurnsDoNothing(identities: seq<Identity>, links: seq<Link>, accs: seq<Accreditation>, n: nat)
    requires |identities| == |links| && n <= |links| && forall i | 0 <= i < n :: IdleTurn(identities, links, accs, i)
    ensures PassAfter(identities, links, accs, n) == Pass(links, ClaimedIds(links))
  {
    if n != 0 {
      IdleTurnsDoNothing(identities, links, accs, n - 1);
      assert IdleTurn(identities, links, accs, n - 1);
    }
  }

  lemma SettledPassDoesNothing(identities: seq<Identity>, links: seq<Link>, accs: seq<Accreditation>)
    requires |identities| == |links| && IsSettled(identities, links, accs)
    ensures AllAfter(identities, links, accs) == Pass(links, ClaimedIds(links))
  {
    forall i | 0 <= i < |links| ensures IdleTurn(identities, links, accs, i) {
      SettledTurnIsIdle(identities, links, accs, i);
    }
    IdleTurnsDoNothing(identities, links, accs, |links|);
  }

  /** A pass leaves the links as they are if and only if no registration it tries has an unlinked choice beforehand. */
  lemma {:induction false} PassIsStableIffSettled(identities: seq<Identity>, links: seq<Link>, accs: seq<Accreditation>)
    requires |identities| == |links|
    ensures AllAfter(identities, links, accs).links == links <==> IsSettled(identities, links, accs)
  {
    if IsSettled(identities, links, accs) {
      SettledPassDoesNothing(identities, links, accs);
    }
    if AllAfter(identities, links, accs).links == links {
      ClaimedIsOldAndNewLinks(identities, links, accs, |links|);
      assert ClaimedIds(links) + ClaimedIds(links) == ClaimedIds(links);
      forall i | 0 <= i < |links| && !IsLinkedToApproved(links[i], accs)
        ensures !HasUnlinkedChoice(identities[i], links, accs)
      {
        TriedAndUnlinkedHasNothingLeft(identities, links, accs, i);
      }
    }
  }

  // ----- counting within a match class -----

  ghost predicate DistinctAccreditations(accs: seq<Accreditation>) {
    forall i, j | 0 <= i < j < |accs| :: accs[i].id != accs[j].id
  }

  /** With distinct ids, linked to an approved accreditation means what it says. */
  lemma LinkedToApprovedMeans(link: Link, accs: seq<Accreditation>)
    requires DistinctAccreditations(accs)
    ensures IsLinkedToApproved(link, accs) <==> exists acc | acc in accs :: link == Some(acc.id) && acc.approved
  {
    if acc :| acc in accs && link == Some(acc.id) && acc.approved {
      var i :| 0 <= i < |accs| && accs[i] == acc;
      assert forall j | 0 <= j < i :: accs[j].id != accs[i].id;
    }
  }

  /** How many registrations before the n-th are tried and match this identity. */
  function TriedBefore(identities: seq<Identity>, links: seq<Link>, accs: seq<Accreditation>, n: nat, identity: Identity): nat
    requires |identities| == |links| && n <= |links|
  {
    if n == 0 then 0
    else
      TriedBefore(identities, links, accs, n - 1, identity)
      + (if !IsLinkedToApproved(links[n - 1], accs) && IsAccreditationForRegistration(identities[n - 1], identity) then 1 else 0)
  }

  /** The unapproved, matching accreditations nobody is linked to. */
  function Pool(identity: Identity, links: seq<Link>, accs: seq<Accreditation>): nat {
    |FindEligible(identity, accs, ClaimedIds(links))|
  }

  /** Read off the input alone: the registration is tried and its class's pool outlasts those tried before it. */
  predicate Moves(identities: seq<Identity>, links: seq<Link>, accs: seq<Accreditation>, j: nat)
    requires |identities| == |links| && j < |links|
  {
    !IsLinkedToApproved(links[j], accs) && TriedBefore(identities, links, accs, j, identities[j]) < Pool(identities[j], links, accs)
  }

  lemma {:induction false} SameClassSameEligible(a: Identity, b: Identity, accs: seq<Accreditation>, claimed: set<string>)
    requires IsAccreditationForRegistration(a, b)
    ensures FindEligible(a, accs, claimed) == FindEligible(b, accs, claimed)
  {
    if accs != [] {
      var acc := accs[|accs| - 1];
      SameClassSameEligible(a, b, accs[..|accs| - 1], claimed);
      MatchingIsAPartialEquivalence(a, b, a);
      MatchingIsAPartialEquivalence(acc.identity, a, b);
      MatchingIsAPartialEquivalence(acc.identity, b, a);
    }
  }

  /** Claiming an id nobody eligible has changes nothing. */
  lemma {:induction false} ClaimingAnotherKeepsEligible(identity: Identity, accs: seq<Accreditation>, claimed: set<string>, id: string)
    requires forall i | 0 <= i < |accs| && accs[i].id == id :: !IsEligible(identity, accs[i], claimed)
    ensures FindEligible(identity, accs, claimed + {id}) == FindEligible(identity, accs, claimed)
  {
    if accs != [] {
      ClaimingAnotherKeepsEligible(identity, accs[..|accs| - 1], claimed, id);
    }
  }

  /** Claiming an eligible accreditation takes exactly that one away. */
  lemma {:induction false} ClaimingTakesOne(identity: Identity, accs: seq<Accreditation>, claimed: set<string>, acc: Accreditation)
    requires DistinctAccreditations(accs) && acc in accs && IsEligible(identity, acc, claimed)
    ensures |FindEligible(identity, accs, claimed + {acc.id})| == |FindEligible(identity, accs, claimed)| - 1
  {
    var front, last := accs[..|accs| - 1], accs[|accs| - 1];
    if last == acc {
      ClaimingAnotherKeepsEligible(identity, front, claimed, acc.id);
    } else {
      assert acc in front;
      ClaimingTakesOne(identity, front, claimed, acc);
    }
  }

  /** One turn takes one accreditation from the class's pool if the registration is of the class and tried, and none otherwise. */
  lemma TurnTakesFromItsClass(p: Pass, i: nat, own: Identity, link: Link, accs: seq<Accreditation>, identity: Identity)
    requires i < |p.links| && DistinctAccreditations(accs)
    ensures var left, now := |FindEligible(identity, accs, p.claimed)|,
                             |FindEligible(identity, accs, PassStep(p, i, own, link, accs).claimed)|;
      now == if !IsLinkedToApproved(link, accs) && IsAccreditationForRegistration(own, identity) && 0 < left then left - 1 else left
  {
    PickIsLatestEligible(own, accs, p.claimed);
    var pick := Pick(own, accs, p.claimed);
    if IsAccreditationForRegistration(own, identity) {
      SameClassSameEligible(own, identity, accs, p.claimed);
      if !IsLinkedToApproved(link, accs) && pick.Some? {
        SameClassSameEligible(own, identity, accs, p.claimed + {pick.value.id});
        ClaimingTakesOne(own, accs, p.claimed, pick.value);
      }
    } else if !IsLinkedToApproved(link, accs) && pick.Some? {
      var acc := pick.value;
      MatchingIsAPartialEquivalence(acc.identity, own, acc.identity);
      MatchingIsAPartialEquivalence(own, acc.identity, identity);
      forall k | 0 <= k < |accs| && accs[k].id == acc.id ensures accs[k] == acc {
        var m :| 0 <= m < |accs| && accs[m] == acc;
      }
      ClaimingAnotherKeepsEligible(identity, accs, p.claimed, acc.id);
    }
  }

  /** After n turns a class's pool has lost one accreditation for each of its registrations tried, while it lasted. */
  lemma {:induction false} PoolAfter(identities: seq<Identity>, links: seq<Link>, accs: seq<Accreditation>, n: nat, identity: Identity)
    requires |identities| == |links| && n <= |links| && DistinctAccreditations(accs)
    ensures var taken, pool := TriedBefore(identities, links, accs, n, identity), Pool(identity, links, accs);
      |FindEligible(identity, accs, PassAfter(identities, links, accs, n).claimed)| == if taken < pool then pool - taken else 0
  {
    if n != 0 {
      PoolAfter(identities, links, accs, n - 1, identity);
      TurnTakesFromItsClass(PassAfter(identities, links, accs, n - 1), n - 1, identities[n - 1], links[n - 1], accs, identity);
    }
  }

  /** Which links change, from the input alone: a registration's does if and only if its class's pool reaches it. */
  lemma {:induction false} LinkChangesIffMoves(identities: seq<Identity>, links: seq<Link>, accs: seq<Accreditation>, j: nat)
    requires |identities| == |links| && j < |links| && DistinctAccreditations(accs)
    ensures AllAfter(identities, links, accs).links[j] != links[j] <==> Moves(identities, links, accs, j)
  {
    var before := PassAfter(identities, links, accs, j);
    PoolAfter(identities, links, accs, j, identities[j]);
    EligibleIsExact(identities[j], accs, before.claimed);
    EachLinkIsKeptOrLatest(identities, links, accs, j);
    var eligible := FindEligible(identities[j], accs, before.claimed);
    if eligible != [] {
      assert eligible[0] in eligible;
      if links[j].Some? {
        assert links[j].value in ClaimedIds(links);
      }
    }
  }

  /** Read off the input alone: somebody was linked to it, and everybody who was moves on. */
  ghost predicate IsFreed(identities: seq<Identity>, links: seq<Link>, accs: seq<Accreditation>, id: string)
    requires |identities| == |links|
  {
    id in ClaimedIds(links) && forall k | 0 <= k < |links| && links[k] == Some(id) :: Moves(identities, links, accs, k)
  }

  lemma {:induction false} ReleasedIffFreed(identities: seq<Identity>, links: seq<Link>, accs: seq<Accreditation>, id: string)
    requires |identities| == |links| && DistinctAccreditations(accs)
    ensures Released(identities, links, accs, id) <==> IsFreed(identities, links, accs, id)
  {
    var final := AllAfter(identities, links, accs).links;
    if id in ClaimedIds(links) {
      if Released(identities, links, accs, id) {
        forall k | 0 <= k < |links| && links[k] == Some(id) ensures Moves(identities, links, accs, k) {
          assert final[k] != Some(id);
          LinkChangesIffMoves(identities, links, accs, k);
        }
      } else {
        var k :| 0 <= k < |final| && final[k] == Some(id);
        LinkChangesIffMoves(identities, links, accs, k);
        EachLinkIsKeptOrLatest(identities, links, accs, k);
      }
    }
  }

  /**
   * A registration the pass tries and leaves as it was misses out on an accreditation nobody is linked to any more if and
   * only if, before the pass, some matching unapproved one had links and every registration linked to it moves.
   */
  lemma {:induction false} MissesOutIffFreed(identities: seq<Identity>, links: seq<Link>, accs: seq<Accreditation>, i: nat)
    requires |identities| == |links| && i < |links| && DistinctAccreditations(accs)
    requires !IsLinkedToApproved(links[i], accs) && !Moves(identities, links, accs, i)
    ensures AllAfter(identities, links, accs).links[i] == links[i]
    ensures HasUnlinkedChoice(identities[i], AllAfter(identities, links, accs).links, accs)
       <==> exists acc | acc in accs :: IsEligible(identities[i], acc, {}) && IsFreed(identities, links, accs, acc.id)
  {
    LinkChangesIffMoves(identities, links, accs, i);
    MissesOutIffReleased(identities, links, accs, i);
    forall acc | acc in accs
      ensures Released(identities, links, accs, acc.id) <==> IsFreed(identities, links, accs, acc.id)
    {
      ReleasedIffFreed(identities, links, accs, acc.id);
    }
  }

  // ----- passing twice -----

  /** With distinct ids a pass tries the same registrations when it is run again. */
  lemma {:induction false} TriedAgain(identities: seq<Identity>, links: seq<Link>, accs: seq<Accreditation>, i: nat)
    requires |identities| == |links| && i < |links| && DistinctAccreditations(accs)
    ensures IsLinkedToApproved(AllAfter(identities, links, accs).links[i], accs) <==> IsLinkedToApproved(links[i], accs)
  {
    EachLinkIsKeptOrLatest(identities, links, accs, i);
  }

  /** An accreditation is free at the end for a class if the pool outlasts all its tried registrations, or a link was freed. */
  lemma {:induction false} ChoiceLeftIffSpareOrFreed(identities: seq<Identity>, links: seq<Link>, accs: seq<Accreditation>, identity: Identity)
    requires |identities| == |links| && DistinctAccreditations(accs)
    ensures HasUnlinkedChoice(identity, AllAfter(identities, links, accs).links, accs)
       <==> (TriedBefore(identities, links, accs, |links|, identity) < Pool(identity, links, accs)
             || exists acc | acc in accs :: IsEligible(identity, acc, {}) && IsFreed(identities, links, accs, acc.id))
  {
    var final := AllAfter(identities, links, accs);
    PoolAfter(identities, links, accs, |links|, identity);
    EligibleIsExact(identity, accs, final.claimed);
    ClaimedIsOldAndNewLinks(identities, links, accs, |links|);
    var spare := FindEligible(identity, accs, final.claimed);
    assert spare != [] ==> spare[0] in spare;
    forall acc | acc in accs
      ensures IsEligible(identity, acc, ClaimedIds(final.links))
         <==> acc in spare || (IsEligible(identity, acc, {}) && IsFreed(identities, links, accs, acc.id))
    {
      ReleasedIffFreed(identities, links, accs, acc.id);
    }
  }

  /**
   * Linking twice is linking once if and only if, in the input of the first pass, no class with a tried registration has
   * more unapproved, unlinked accreditations than tried registrations or an accreditation the pass frees.
   */
  lemma {:induction false} LinkingIsIdempotentIff(identities: seq<Identity>, links: seq<Link>, accs: seq<Accreditation>)
    requires |identities| == |links| && DistinctAccreditations(accs)
    ensures var once := AllAfter(identities, links, accs).links;
      AllAfter(identities, once, accs).links == once
      <==> forall i | 0 <= i < |links| && !IsLinkedToApproved(links[i], accs) ::
             && Pool(identities[i], links, accs) <= TriedBefore(identities, links, accs, |links|, identities[i])
             && forall acc | acc in accs && IsEligible(identities[i], acc, {}) :: !IsFreed(identities, links, accs, acc.id)
  {
    var once := AllAfter(identities, links, accs).links;
    PassIsStableIffSettled(identities, once, accs);
    forall i | 0 <= i < |links|
      ensures IsLinkedToApproved(once[i], accs) <==> IsLinkedToApproved(links[i], accs)
      ensures HasUnlinkedChoice(identities[i], once, accs)
         <==> !(Pool(identities[i], links, accs) <= TriedBefore(identities, links, accs, |links|, identities[i])
                && forall acc | acc in accs && IsEligible(identities[i], acc, {}) :: !IsFreed(identities, links, accs, acc.id))
    {
      TriedAgain(identities, links, accs, i);
      ChoiceLeftIffSpareOrFreed(identities, links, accs, identities[i]);
    }
  }

  // ----- witnesses -----

  /** Linking is not idempotent: with two matching accreditations a second pass moves the link to the earlier one. */
  lemma {:induction false} LinkingIsNotIdempotent(identity: Identity, early: Accreditation, late: Accreditation)
    requires IsAccreditationForRegistration(early.identity, identity) && IsAccreditationForRegistration(late.identity, identity)
    requires !early.approved && !late.approved && early.id != late.id && early.time < late.time
    ensures var once := AllAfter([identity], [None], [early, late]).links;
      once == [Some(late.id)] && AllAfter([identity], once, [early, late]).links == [Some(early.id)]
  {
    var accs := [early, late];
    assert early in accs && late in accs;
    OneRegistrationPass(identity, None, accs);
    PickIsLatestEligible(identity, accs, {});
    assert IsEligible(identity, late, {});
    OneRegistrationPass(identity, Some(late.id), accs);
    PickIsLatestEligible(identity, accs, {late.id});
    assert IsEligible(identity, early, {late.id});
  }

  lemma OnlyTheLaterIsInThePool(identity: Identity, early: Accreditation, late: Accreditation)
    requires IsAccreditationForRegistration(late.identity, identity) && !late.approved && early.id != late.id
    ensures Pool(identity, [Some(early.id), None], [early, late]) == 1
    ensures ClaimedIds([Some(early.id), None]) == {early.id}
  {
    var links: seq<Link> := [Some(early.id), None];
    assert ClaimedIds(links) == {early.id} by {
      assert links[0] == Some(early.id);
    }
    assert [early, late][..1] == [early] && [early][..0] == [];
    assert FindEligible(identity, [], {early.id}) == [];
    assert FindEligible(identity, [early], {early.id}) == [];
  }

  /**
   * A registration misses out: two of one identity, the first linked to the earlier of two matching accreditations. The
   * first moves to the later, and the second is left without the earlier one, which nobody is linked to any more.
   */
  lemma {:induction false} SecondMissesOut(identity: Identity, early: Accreditation, late: Accreditation)
    requires IsAccreditationForRegistration(early.identity, identity) && IsAccreditationForRegistration(late.identity, identity)
    requires !early.approved && !late.approved && early.id != late.id
    ensures var final := AllAfter([identity, identity], [Some(early.id), None], [early, late]).links;
      final == [Some(late.id), None] && HasUnlinkedChoice(identity, final, [early, late])
  {
    var identities, links, accs := [identity, identity], [Some(early.id), None], [early, late];
    var final := AllAfter(identities, links, accs).links;
    OnlyTheLaterIsInThePool(identity, early, late);
    MatchingIsAPartialEquivalence(identity, early.identity, identity);
    MatchingIsAPartialEquivalence(early.identity, identity, identity);
    assert TriedBefore(identities, links, accs, 0, identity) == 0;
    LinkChangesIffMoves(identities, links, accs, 0);
    LinkChangesIffMoves(identities, links, accs, 1);
    EachLinkIsKeptOrLatest(identities, links, accs, 0);
    assert final == [Some(late.id), None];
    assert early in accs && early.id !in ClaimedIds(final);
  }
}

/** Person-level coverage: admitting confirmed facts, and deciding the state at an instant. */
module Coverage {
  import opened Outcomes
  import opened Ordering
  import opened Text

  // ---------- time, as 64-bit seconds ----------

  const I64_MIN: int := -0x8000_0000_0000_0000
  const I64_MAX: int := 0x7fff_ffff_ffff_ffff

  type Int64 = x: int | I64_MIN <= x <= I64_MAX

  const RENEWAL_RECOVERY_SECONDS: Int64 := 14 * 24 * 60 * 60
  const EXPORT_WINDOW_SECONDS: Int64 := 30 * 24 * 60 * 60

  function CheckedAdd(x: Int64, y: Int64): (r: Option<Int64>)
    ensures r.Some? <==> I64_MIN <= x + y <= I64_MAX
  {
    if I64_MIN <= x + y <= I64_MAX then Some(x + y) else None
  }

  // ---------- data ----------

  datatype Fact = Fact(
    coverageId: string,
    sourceId: string,
    startsAt: Int64,
    paidUntil: Int64,
    failedRenewalId: Option<string>)

  datatype PersonCoverage = PersonCoverage(beneficiaryId: string, paidIntervals: seq<Fact>)

  datatype CoverageState = Free | Paid | RenewalRecovery | ExportOnly | Expired

  datatype CoverageDecision = CoverageDecision(
    state: CoverageState,
    activeUntil: Option<Int64>,
    recoveryUntil: Option<Int64>,
    exportUntil: Option<Int64>)

  datatype InvalidCoverage =
    | EmptyBeneficiary
    | EmptyCoverageId
    | EmptySourceId
    | InvalidInterval
    | EmptyRenewalId
    | RecoveryDeadlineOverflow
    | ConflictingCoverage
    | ConflictingRenewal
    | ExportDeadlineOverflow

  datatype RenewalIdentity = RenewalIdentity(
    coverageId: string, sourceId: string, startsAt: Int64, paidUntil: Int64)

  function IdentityOf(f: Fact): RenewalIdentity {
    RenewalIdentity(f.coverageId, f.sourceId, f.startsAt, f.paidUntil)
  }

  // ---------- admitting facts: the specification ----------

  /** What one fact must satisfy on its own. */
  predicate WellFormed(f: Fact) {
    && !Blank(f.coverageId)
    && !Blank(f.sourceId)
    && f.startsAt < f.paidUntil
    && (f.failedRenewalId.Some? ==>
          !Blank(f.failedRenewalId.value) && f.paidUntil + RENEWAL_RECOVERY_SECONDS <= I64_MAX)
  }

  /** Two facts may stand together: sharing a coverage id or a renewal id means being the same. */
  predicate Agree(f: Fact, g: Fact) {
    && (f.coverageId == g.coverageId ==> f == g)
    && (f.failedRenewalId.Some? && f.failedRenewalId == g.failedRenewalId ==> f == g)
  }

  ghost predicate Admissible(facts: seq<Fact>) {
    && (forall f :: f in facts ==> WellFormed(f))
    && (forall f, g :: f in facts && g in facts ==> Agree(f, g))
  }

  predicate RenewalClash(prior: seq<Fact>, f: Fact) {
    exists p :: p in prior && p.failedRenewalId == f.failedRenewalId && IdentityOf(p) != IdentityOf(f)
  }

  predicate CoverageClash(prior: seq<Fact>, f: Fact) {
    exists p :: p in prior && p.coverageId == f.coverageId && p != f
  }

  /** The error the loop reports at `f` once the facts in `prior` have been accepted. */
  function FactError(prior: seq<Fact>, f: Fact): Option<InvalidCoverage> {
    if Blank(f.coverageId) then Some(EmptyCoverageId)
    else if Blank(f.sourceId) then Some(EmptySourceId)
    else if f.startsAt >= f.paidUntil then Some(InvalidInterval)
    else if f.failedRenewalId.Some? && Blank(f.failedRenewalId.value) then Some(EmptyRenewalId)
    else if f.failedRenewalId.Some? && RenewalClash(prior, f) then Some(ConflictingRenewal)
    else if f.failedRenewalId.Some? && CheckedAdd(f.paidUntil, RENEWAL_RECOVERY_SECONDS).None?
      then Some(RecoveryDeadlineOverflow)
    else if CoverageClash(prior, f) then Some(ConflictingCoverage)
    else None
  }

  function FirstError(facts: seq<Fact>): Option<InvalidCoverage> {
    if facts == [] then None
    else
      var earlier := FirstError(facts[..|facts| - 1]);
      if earlier.Some? then earlier else FactError(facts[..|facts| - 1], facts[|facts| - 1])
  }

  function FactKey(f: Fact): string { f.coverageId }

  /** The comparison the facts are sorted by: five fields in turn. */
  predicate FactLe(l: Fact, r: Fact) {
    if l.coverageId != r.coverageId then StrLe(l.coverageId, r.coverageId)
    else if l.sourceId != r.sourceId then StrLe(l.sourceId, r.sourceId)
    else if l.startsAt != r.startsAt then l.startsAt < r.startsAt
    else if l.paidUntil != r.paidUntil then l.paidUntil < r.paidUntil
    else if l.failedRenewalId.None? then true
    else r.failedRenewalId.Some? && StrLe(l.failedRenewalId.value, r.failedRenewalId.value)
  }

  /** The first fact of each coverage id, in input order. */
  function Distinct(facts: seq<Fact>): seq<Fact> {
    if facts == [] then []
    else
      var init, last := Distinct(facts[..|facts| - 1]), facts[|facts| - 1];
      if exists p :: p in init && p.coverageId == last.coverageId then init else init + [last]
  }

  function Canonical(facts: seq<Fact>): seq<Fact> {
    SortBy(FactLe, Distinct(facts))
  }

  function Normalise(beneficiaryId: string, facts: seq<Fact>): Result<seq<Fact>, InvalidCoverage> {
    if Blank(beneficiaryId) then Err(EmptyBeneficiary)
    else
      match FirstError(facts)
      case Some(e) => Err(e)
      case None => Ok(Canonical(facts))
  }

  // ---------- what admission promises ----------

  lemma FactLeOrder()
    ensures TotalPreorder(FactLe)
  {
    StrLeOrder();
  }

  lemma FactErrorNone(prior: seq<Fact>, f: Fact)
    ensures FactError(prior, f).None? <==>
              WellFormed(f) && forall p :: p in prior ==> Agree(p, f)
  {
  }

  lemma AdmissibleStep(init: seq<Fact>, last: Fact)
    ensures Admissible(init + [last]) <==>
              && Admissible(init)
              && WellFormed(last)
              && (forall p :: p in init ==> Agree(p, last))
  {
  }

  lemma {:induction false} FirstErrorNone(facts: seq<Fact>)
    ensures FirstError(facts).None? <==> Admissible(facts)
  {
    if facts != [] {
      var init, last := facts[..|facts| - 1], facts[|facts| - 1];
      assert facts == init + [last];
      FirstErrorNone(init);
      FactErrorNone(init, last);
      AdmissibleStep(init, last);
    }
  }

  /** What is wrong with a fact, those before it having been admitted. */
  ghost predicate BadFor(prior: seq<Fact>, f: Fact, e: InvalidCoverage) {
    match e
    case EmptyBeneficiary => false
    case EmptyCoverageId => Blank(f.coverageId)
    case EmptySourceId => !Blank(f.coverageId) && Blank(f.sourceId)
    case InvalidInterval => !Blank(f.coverageId) && !Blank(f.sourceId) && f.paidUntil <= f.startsAt
    case EmptyRenewalId => f.startsAt < f.paidUntil && f.failedRenewalId.Some? && Blank(f.failedRenewalId.value)
    case ConflictingRenewal =>
      f.startsAt < f.paidUntil && f.failedRenewalId.Some? &&
      exists p :: p in prior && p.failedRenewalId == f.failedRenewalId
                  && (p.coverageId != f.coverageId || p.sourceId != f.sourceId
                      || p.startsAt != f.startsAt || p.paidUntil != f.paidUntil)
    case RecoveryDeadlineOverflow =>
      f.startsAt < f.paidUntil && f.failedRenewalId.Some? && f.paidUntil + 1_209_600 > I64_MAX
    case ConflictingCoverage => WellFormed(f) && exists p :: p in prior && p.coverageId == f.coverageId && p != f
    case ExportDeadlineOverflow => false
  }

  lemma ErrorFits(prior: seq<Fact>, f: Fact)
    ensures FactError(prior, f).Some? ==> BadFor(prior, f, FactError(prior, f).value)
  {
  }

  /** Facts are refused for the first of them that cannot be admitted beside those before it. */
  lemma {:induction false} RefusedForFirst(facts: seq<Fact>)
    ensures FirstError(facts).Some? ==>
              exists k :: 0 <= k < |facts| && Admissible(facts[..k])
                          && BadFor(facts[..k], facts[k], FirstError(facts).value)
  {
    hide BadFor, Admissible;
    if facts != [] {
      var n := |facts| - 1;
      RefusedForFirst(facts[..n]);
      FirstErrorNone(facts[..n]);
      if FirstError(facts[..n]).None? {
        ErrorFits(facts[..n], facts[n]);
      } else if FirstError(facts).Some? {
        var k :| 0 <= k < n && Admissible(facts[..n][..k])
                 && BadFor(facts[..n][..k], facts[..n][k], FirstError(facts[..n]).value);
        assert facts[..n][..k] == facts[..k];
      }
    }
  }

  lemma {:induction false} DistinctElements(facts: seq<Fact>)
    requires Admissible(facts)
    ensures forall f :: f in Distinct(facts) <==> f in facts
    ensures DistinctKeys(FactKey, Distinct(facts))
  {
    if facts != [] {
      var init, last := facts[..|facts| - 1], facts[|facts| - 1];
      assert facts == init + [last];
      assert forall f :: f in init ==> f in facts;
      DistinctElements(init);
      assert last in facts;
      if exists p :: p in Distinct(init) && p.coverageId == last.coverageId {
        var p :| p in Distinct(init) && p.coverageId == last.coverageId;
        assert p in facts && Agree(p, last);
      }
    }
  }

  /** The distinct facts, however they are enumerated, sort to one ascending sequence. */
  lemma SortedFacts(facts: seq<Fact>, values: seq<Fact>)
    requires Admissible(facts) && DistinctKeys(FactKey, values)
    requires forall f :: f in values <==> f in facts
    ensures Ascending(FactKey, Canonical(facts))
    ensures forall f :: f in Canonical(facts) <==> f in facts
    ensures SortBy(FactLe, values) == Canonical(facts)
  {
    FactLeOrder();
    StrLeOrder();
    DistinctElements(facts);
    SortDistinctAscending(FactLe, FactKey, Distinct(facts));
    SortDistinctAscending(FactLe, FactKey, values);
    AscendingUnique(FactKey, SortBy(FactLe, values), Canonical(facts));
  }

  /** A batch is admitted exactly when every fact is well formed and all of them agree; what is
      admitted is every fact once, in ascending order of coverage id. */
  lemma NormaliseAdmits(b: string, facts: seq<Fact>)
    ensures Normalise(b, facts).Ok? <==> !Blank(b) && Admissible(facts)
    ensures Normalise(b, facts).Ok? ==>
              && Ascending(FactKey, Normalise(b, facts).value)
              && (forall f :: f in Normalise(b, facts).value <==> f in facts)
  {
    FirstErrorNone(facts);
    if Normalise(b, facts).Ok? {
      DistinctElements(facts);
      SortedFacts(facts, Distinct(facts));
    }
  }

  lemma AdmissibleSameFacts(facts: seq<Fact>, other: seq<Fact>)
    requires forall f :: f in facts <==> f in other
    ensures Admissible(facts) <==> Admissible(other)
  {
  }

  /** Order and repetition of the facts make no difference to what is admitted. */
  lemma NormaliseIgnoresOrder(b: string, facts: seq<Fact>, other: seq<Fact>)
    requires forall f :: f in facts <==> f in other
    ensures Normalise(b, facts).Ok? <==> Normalise(b, other).Ok?
    ensures Normalise(b, facts).Ok? ==> Normalise(b, facts) == Normalise(b, other)
  {
    AdmissibleSameFacts(facts, other);
    NormaliseAdmits(b, facts);
    NormaliseAdmits(b, other);
    if Normalise(b, facts).Ok? {
      AscendingUnique(FactKey, Normalise(b, facts).value, Normalise(b, other).value);
    }
  }

  /** An ascending admissible sequence is already normal. */
  lemma NormaliseFixedPoint(b: string, facts: seq<Fact>)
    requires !Blank(b) && Admissible(facts) && Ascending(FactKey, facts)
    ensures Normalise(b, facts) == Ok(facts)
  {
    NormaliseAdmits(b, facts);
    AscendingUnique(FactKey, Normalise(b, facts).value, facts);
  }

  lemma NormaliseIdempotent(b: string, facts: seq<Fact>)
    requires Normalise(b, facts).Ok?
    ensures Admissible(Normalise(b, facts).value)
    ensures Normalise(b, Normalise(b, facts).value) == Normalise(b, facts)
  {
    NormaliseAdmits(b, facts);
    AdmissibleSameFacts(facts, Normalise(b, facts).value);
    NormaliseFixedPoint(b, Normalise(b, facts).value);
  }

  // ---------- admitting facts: the loop ----------

  lemma FirstErrorStep(facts: seq<Fact>, k: nat)
    requires k < |facts|
    ensures FirstError(facts[..k + 1]) ==
            if FirstError(facts[..k]).Some? then FirstError(facts[..k])
            else FactError(facts[..k], facts[k])
  {
    assert facts[..k + 1][..k] == facts[..k];
  }

  lemma {:induction false} FirstErrorPersists(facts: seq<Fact>, k: nat)
    requires k <= |facts| && FirstError(facts[..k]).Some?
    ensures FirstError(facts) == FirstError(facts[..k])
    decreases |facts| - k
  {
    if k == |facts| {
      assert facts[..k] == facts;
    } else {
      FirstErrorStep(facts, k);
      FirstErrorPersists(facts, k + 1);
    }
  }

  /** The values of a map, in an order nobody chooses. */
  method IntoValues(m: map<string, Fact>) returns (values: seq<Fact>)
    requires forall k :: k in m ==> m[k].coverageId == k
    ensures forall f :: f in values <==> f.coverageId in m && m[f.coverageId] == f
    ensures DistinctKeys(FactKey, values)
  {
    values := [];
    var pending := m.Keys;
    while pending != {}
      invariant pending <= m.Keys
      invariant forall f :: f in values <==>
                  f.coverageId in m && f.coverageId !in pending && m[f.coverageId] == f
      invariant DistinctKeys(FactKey, values)
      decreases pending
    {
      var k :| k in pending;
      assert forall f :: f in values ==> f.coverageId != k;
      values := values + [m[k]];
      pending := pending - {k};
    }
  }

  /** What the two hash maps hold after the facts in `prior`. */
  ghost predicate Tracks(
    prior: seq<Fact>, unique: map<string, Fact>, renewals: map<string, RenewalIdentity>)
  {
    && (forall id :: id in unique ==> unique[id].coverageId == id && unique[id] in prior)
    && (forall f :: f in prior ==> f.coverageId in unique && unique[f.coverageId] == f)
    && (forall f :: f in prior && f.failedRenewalId.Some? ==>
          && f.failedRenewalId.value in renewals
          && renewals[f.failedRenewalId.value] == IdentityOf(f))
    && (forall id :: id in renewals ==> exists f :: f in prior && f.failedRenewalId == Some(id))
  }

  lemma TracksClashes(
    prior: seq<Fact>, unique: map<string, Fact>, renewals: map<string, RenewalIdentity>, f: Fact)
    requires Tracks(prior, unique, renewals)
    ensures CoverageClash(prior, f) <==> f.coverageId in unique && unique[f.coverageId] != f
    ensures f.failedRenewalId.Some? ==>
              (RenewalClash(prior, f) <==>
                 && f.failedRenewalId.value in renewals
                 && renewals[f.failedRenewalId.value] != IdentityOf(f))
  {
  }

  lemma TracksStep(
    prior: seq<Fact>, unique: map<string, Fact>, renewals: map<string, RenewalIdentity>, f: Fact)
    requires Tracks(prior, unique, renewals) && FactError(prior, f).None?
    ensures Tracks(
      prior + [f],
      unique[f.coverageId := f],
      if f.failedRenewalId.Some? then renewals[f.failedRenewalId.value := IdentityOf(f)] else renewals)
  {
    TracksClashes(prior, unique, renewals, f);
  }

  method NormaliseConfirmedIntervals(coverage: PersonCoverage)
    returns (r: Result<seq<Fact>, InvalidCoverage>)
    ensures r == Normalise(coverage.beneficiaryId, coverage.paidIntervals)
  {
    if Blank(coverage.beneficiaryId) {
      return Err(EmptyBeneficiary);
    }
    var facts := coverage.paidIntervals;
    var unique: map<string, Fact> := map[];
    var renewalIdentity: map<string, RenewalIdentity> := map[];
    for k := 0 to |facts|
      invariant FirstError(facts[..k]).None?
      invariant Tracks(facts[..k], unique, renewalIdentity)
    {
      var interval := facts[k];
      ghost var unique0 := unique;
      FirstErrorStep(facts, k);
      assert facts[..k + 1] == facts[..k] + [interval];
      TracksClashes(facts[..k], unique, renewalIdentity, interval);
      if FactError(facts[..k], interval).Some? {
        FirstErrorPersists(facts, k + 1);
      } else {
        TracksStep(facts[..k], unique, renewalIdentity, interval);
      }
      if Blank(interval.coverageId) {
        return Err(EmptyCoverageId);
      }
      if Blank(interval.sourceId) {
        return Err(EmptySourceId);
      }
      if interval.startsAt >= interval.paidUntil {
        return Err(InvalidInterval);
      }
      if interval.failedRenewalId.Some? {
        var renewalId := interval.failedRenewalId.value;
        if Blank(renewalId) {
          return Err(EmptyRenewalId);
        }
        var identity := IdentityOf(interval);
        if renewalId in renewalIdentity && renewalIdentity[renewalId] != identity {
          return Err(ConflictingRenewal);
        }
        renewalIdentity := renewalIdentity[renewalId := identity];
        if CheckedAdd(interval.paidUntil, RENEWAL_RECOVERY_SECONDS).None? {
          return Err(RecoveryDeadlineOverflow);
        }
      }
      if interval.coverageId in unique {
        if unique[interval.coverageId] != interval {
          return Err(ConflictingCoverage);
        }
        assert unique == unique0[interval.coverageId := interval];
      } else {
        unique := unique[interval.coverageId := interval];
      }
    }
    assert facts[..|facts|] == facts;
    var values := IntoValues(unique);
    FirstErrorNone(facts);
    SortedFacts(facts, values);
    r := Ok(SortBy(FactLe, values));
  }
}

/** Why a batch of observations is refused: for the first of them that does not fit beside those before
    it, with the reason that is its own. */
module CollectionRefusals {
  import opened Outcomes
  import opened Ordering
  import opened Text
  import opened Coverage
  import opened CoverageStore
  import opened Collection

  predicate SharesCoverage(f: Fact, facts: seq<Fact>) {
    exists g :: g in facts && g.coverageId == f.coverageId
  }

  predicate SharesRenewal(f: Fact, facts: seq<Fact>) {
    f.failedRenewalId.Some? && exists g :: g in facts && g.failedRenewalId == f.failedRenewalId
  }

  /** What is wrong with an observation, those before it having been accepted. */
  ghost predicate Unfit(
    b: string, expected: set<string>, before: seq<Observation>, o: Observation, e: ReconciliationError)
  {
    match e
    case SourceBatchMismatch =>
      || Blank(o.evidenceReference) || o.sourceId !in expected
      || exists p :: p in before && p.sourceId == o.sourceId
    case InvalidObservation(why) => o.Observed? && Normalise(b, o.paidIntervals) == Err(why)
    case SourceObservationConflict(which) =>
      && o.Observed?
      && exists f :: f in o.paidIntervals &&
           (match which
            case ForeignFact => f.sourceId != o.sourceId
            case SharedCoverageId => SharesCoverage(f, AllFacts(before))
            case SharedRenewalId => SharesRenewal(f, AllFacts(before)))
    case _ => false
  }

  /** A fact that clashes with what is noted, or with one before it. */
  predicate Clashing(acc: Collected, sourceId: string, facts: seq<Fact>, k: nat, which: ObservationConflict)
    requires k < |facts|
  {
    var f := facts[k];
    match which
    case ForeignFact => f.sourceId != sourceId
    case SharedCoverageId => f.coverageId in acc.factIds || SharesCoverage(f, facts[..k])
    case SharedRenewalId =>
      f.failedRenewalId.Some? && (f.failedRenewalId.value in acc.renewalIds || SharesRenewal(f, facts[..k]))
  }

  lemma {:induction false} FactsNoted(acc: Collected, sourceId: string, facts: seq<Fact>)
    ensures match CollectFacts(acc, sourceId, facts)
            case Ok(noted) =>
              && noted.factIds == acc.factIds + FactIds(facts)
              && noted.renewalIds == acc.renewalIds + RenewalIds(facts)
            case Err(e) =>
              && e.SourceObservationConflict?
              && exists k :: 0 <= k < |facts| && Clashing(acc, sourceId, facts, k, e.which)
  {
    if facts != [] {
      var n := |facts| - 1;
      FactsNoted(acc, sourceId, facts[..n]);
      match CollectFacts(acc, sourceId, facts[..n])
      case Err(e) =>
        var k :| 0 <= k < n && Clashing(acc, sourceId, facts[..n], k, e.which);
        assert facts[..n][..k] == facts[..k];
        assert Clashing(acc, sourceId, facts, k, e.which);
      case Ok(noted) =>
        assert facts == facts[..n] + [facts[n]];
        LastNoted(acc, noted, sourceId, facts[..n], facts[n]);
        if CollectFact(noted, sourceId, facts[n]).Err? {
          assert Clashing(acc, sourceId, facts, n, CollectFact(noted, sourceId, facts[n]).error.which);
        }
    }
  }

  lemma LastNoted(acc: Collected, noted: Collected, sourceId: string, init: seq<Fact>, f: Fact)
    requires noted.factIds == acc.factIds + FactIds(init) && noted.renewalIds == acc.renewalIds + RenewalIds(init)
    ensures match CollectFact(noted, sourceId, f)
            case Ok(next) =>
              && next.factIds == acc.factIds + FactIds(init + [f])
              && next.renewalIds == acc.renewalIds + RenewalIds(init + [f])
            case Err(e) =>
              && e.SourceObservationConflict?
              && match e.which
                 case ForeignFact => f.sourceId != sourceId
                 case SharedCoverageId => f.coverageId in acc.factIds || SharesCoverage(f, init)
                 case SharedRenewalId =>
                   f.failedRenewalId.Some? && (f.failedRenewalId.value in acc.renewalIds || SharesRenewal(f, init))
  {
    IdsConcat(init, [f]);
    assert FactIds([f]) == {f.coverageId};
    if f.failedRenewalId.Some? {
      assert RenewalIds([f]) == {f.failedRenewalId.value};
    } else {
      assert RenewalIds([f]) == {};
    }
  }

  /** Within normal facts nothing is shared, so a clash is with the facts before. */
  lemma ClashIsBefore(
    b: string, before: seq<Observation>, acc: Collected, sourceId: string, paid: seq<Fact>, k: nat,
    which: ObservationConflict)
    requires Normalise(b, paid).Ok? && k < |Normalise(b, paid).value|
    requires acc.factIds == FactIds(AllFacts(before)) && acc.renewalIds == RenewalIds(AllFacts(before))
    requires Clashing(acc, sourceId, Normalise(b, paid).value, k, which)
    ensures var f := Normalise(b, paid).value[k];
            && f in paid
            && match which
               case ForeignFact => f.sourceId != sourceId
               case SharedCoverageId => SharesCoverage(f, AllFacts(before))
               case SharedRenewalId => SharesRenewal(f, AllFacts(before))
  {
    hide Normalise, AllFacts;
    NormaliseAdmits(b, paid);
    var normal := Normalise(b, paid).value;
    var f := normal[k];
    assert f in normal;
    forall g | g in normal[..k] ensures g.coverageId != f.coverageId && Agree(g, f) {
      var j :| 0 <= j < k && normal[..k][j] == g;
      assert g in normal;
      assert StrLt(FactKey(normal[j]), FactKey(normal[k]));
    }
  }

  lemma ObservationUnfit(b: string, expected: set<string>, before: seq<Observation>, acc: Collected, o: Observation)
    requires Gathers(b, before, acc) && CollectOne(b, expected, acc, o).Err?
    ensures Unfit(b, expected, before, o, CollectOne(b, expected, acc, o).error)
  {
    hide Normalise, AllFacts, FactIds, RenewalIds;
    if !Blank(o.evidenceReference) && o.sourceId in expected && o.sourceId !in acc.seen && o.Observed?
       && Normalise(b, o.paidIntervals).Ok? {
      var normal := Normalise(b, o.paidIntervals).value;
      var seen := acc.(seen := acc.seen + {o.sourceId});
      FactsNoted(seen, o.sourceId, normal);
      var which := CollectOne(b, expected, acc, o).error.which;
      var k :| 0 <= k < |normal| && Clashing(seen, o.sourceId, normal, k, which);
      ClashIsBefore(b, before, seen, o.sourceId, o.paidIntervals, k, which);
    }
  }

  /** A batch whose observations cannot all be gathered is refused for the first that is unfit, what comes
      before it being an acceptable batch. */
  lemma {:induction false} RefusedForFirstObservation(b: string, expected: set<string>, obs: seq<Observation>)
    requires !Blank(b)
    ensures CollectAll(b, expected, obs).Err? ==>
              exists k :: 0 <= k < |obs| && Batch(expected, obs[..k])
                          && Unfit(b, expected, obs[..k], obs[k], CollectAll(b, expected, obs).error)
  {
    hide Unfit, Batch, CollectOne;
    if obs != [] {
      var n := |obs| - 1;
      RefusedForFirstObservation(b, expected, obs[..n]);
      CollectAllGathers(b, expected, obs[..n]);
      match CollectAll(b, expected, obs[..n])
      case Ok(acc) =>
        if CollectOne(b, expected, acc, obs[n]).Err? {
          ObservationUnfit(b, expected, obs[..n], acc, obs[n]);
        }
      case Err(e) =>
        var k :| 0 <= k < n && Batch(expected, obs[..n][..k]) && Unfit(b, expected, obs[..n][..k], obs[..n][k], e);
        assert obs[..n][..k] == obs[..k];
    }
  }

  /** A whole collection is refused for its number of observations or for the first unfit one, and for
      nothing else. */
  lemma CollectionRefused(b: string, bindings: seq<SourceBinding>, obs: seq<Observation>, evidence: string)
    requires !Blank(b) && CanonicalCollection(b, bindings, obs, evidence).Err?
    ensures var e := CanonicalCollection(b, bindings, obs, evidence).error;
            || (e == SourceBatchMismatch && |obs| != |bindings|)
            || (e == SourceBatchMismatch && |Seen(obs)| != |SourceIds(bindings)|)
            || exists k :: 0 <= k < |obs| && Batch(SourceIds(bindings), obs[..k])
                           && Unfit(b, SourceIds(bindings), obs[..k], obs[k], e)
  {
    hide Unfit, Batch, CollectAll;
    RefusedForFirstObservation(b, SourceIds(bindings), obs);
    CollectAllGathers(b, SourceIds(bindings), obs);
  }
}

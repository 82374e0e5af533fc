/** Combining one observation per registered source into a single projection, and reading the
    stored form of the result back. */
module Collection {
  import opened Outcomes
  import opened Ordering
  import opened Text
  import opened Coverage
  import opened CoverageStore
  import Json

  datatype SourceBinding = SourceBinding(
    beneficiaryId: string,
    sourceId: string,
    providerNamespace: string,
    externalAllocationReference: string,
    ownershipEvidenceReference: string)

  datatype Observation =
    | Observed(sourceId: string, evidenceReference: string, paidIntervals: seq<Fact>)
    | NotObserved(sourceId: string, evidenceReference: string, reason: UnavailableReason)

  datatype CorruptReason =
    | BindingShape
    | BindingOwnership
    | BindingSourceSet
    | CompletionReceipt
    | ResultShape
    | ResultEvidence
    | ResultCanonical

  datatype ObservationConflict = ForeignFact | SharedCoverageId | SharedRenewalId

  datatype ReconciliationError =
    | Store(cause: StoreError)
    | InvalidSource
    | InvalidIdentifier
    | EmptyOperationId
    | RegistrationConflict
    | BootstrapConflict
    | CorruptRegistration
    | SourceBindingConflict
    | EmptyAttemptId
    | NoSources
    | AttemptMissing
    | AttemptSuperseded
    | CollectionConflict
    | OperationConflict
    | CorruptAttempt(why: CorruptReason)
    | SourceBatchMismatch
    | SourceObservationConflict(which: ObservationConflict)
    | InvalidObservation(invalid: InvalidCoverage)
    | EpochOverflow
    | GenerationOverflow
    | DatabaseFailure

  // ---------- stored forms ----------

  function FactJson(f: Fact): Json.Value {
    Json.Object(map[
      "coverage_id" := Json.Text(f.coverageId),
      "source_id" := Json.Text(f.sourceId),
      "starts_at" := Json.Number(f.startsAt),
      "paid_until" := Json.Number(f.paidUntil),
      "failed_renewal_id" := if f.failedRenewalId.Some? then Json.Text(f.failedRenewalId.value) else Json.Null])
  }

  function FactsJson(facts: seq<Fact>): Json.Value {
    Json.Array(seq(|facts|, i requires 0 <= i < |facts| => FactJson(facts[i])))
  }

  function ObservedJson(sourceId: string, evidence: string, facts: seq<Fact>): Json.Value {
    Json.Object(map[
      "source_id" := Json.Text(sourceId),
      "evidence_reference" := Json.Text(evidence),
      "status" := Json.Text("complete"),
      "paid_intervals" := FactsJson(facts)])
  }

  function NotObservedJson(sourceId: string, evidence: string, reason: UnavailableReason): Json.Value {
    Json.Object(map[
      "source_id" := Json.Text(sourceId),
      "evidence_reference" := Json.Text(evidence),
      "status" := Json.Text("unavailable"),
      "reason" := Json.Text(ReasonText(reason))])
  }

  function ResultJson(evidence: string, sources: seq<Json.Value>): Json.Value {
    Json.Object(map[
      "aggregate_evidence_reference" := Json.Text(evidence),
      "sources" := Json.Array(sources)])
  }

  function JsonSource(v: Json.Value): string {
    match Json.AsStr(Json.At(v, "source_id"))
    case Some(s) => s
    case None => ""
  }

  predicate JsonSourceLe(l: Json.Value, r: Json.Value) {
    StrLe(JsonSource(l), JsonSource(r))
  }

  // ---------- combining observations: the specification ----------

  /** What the loop has gathered. The maps whose values are never read are kept as sets. */
  datatype Collected = Collected(
    seen: set<string>,
    canonical: seq<Json.Value>,
    facts: seq<Fact>,
    factIds: set<string>,
    renewalIds: set<string>,
    reason: Option<UnavailableReason>)

  const NOTHING := Collected({}, [], [], {}, {}, None)

  function CollectFact(acc: Collected, sourceId: string, f: Fact): Result<Collected, ReconciliationError> {
    if f.sourceId != sourceId then Err(SourceObservationConflict(ForeignFact))
    else if f.coverageId in acc.factIds then Err(SourceObservationConflict(SharedCoverageId))
    else
      var noted := acc.(factIds := acc.factIds + {f.coverageId});
      if f.failedRenewalId.None? then Ok(noted)
      else if f.failedRenewalId.value in acc.renewalIds
        then Err(SourceObservationConflict(SharedRenewalId))
      else Ok(noted.(renewalIds := acc.renewalIds + {f.failedRenewalId.value}))
  }

  function CollectFacts(acc: Collected, sourceId: string, facts: seq<Fact>)
    : Result<Collected, ReconciliationError>
  {
    if facts == [] then Ok(acc)
    else
      match CollectFacts(acc, sourceId, facts[..|facts| - 1])
      case Err(e) => Err(e)
      case Ok(noted) => CollectFact(noted, sourceId, facts[|facts| - 1])
  }

  function WorseReason(sofar: Option<UnavailableReason>, reason: UnavailableReason)
    : Option<UnavailableReason>
  {
    if reason == ConflictingEvidence then Some(ConflictingEvidence)
    else if sofar.None? then Some(NeedsReconciliation)
    else sofar
  }

  function CollectOne(b: string, expected: set<string>, acc: Collected, o: Observation)
    : Result<Collected, ReconciliationError>
  {
    if Blank(o.evidenceReference) || o.sourceId !in expected || o.sourceId in acc.seen
    then Err(SourceBatchMismatch)
    else
      var seen := acc.(seen := acc.seen + {o.sourceId});
      match o
      case Observed(sourceId, evidence, paid) =>
        (match Normalise(b, paid)
         case Err(e) => Err(InvalidObservation(e))
         case Ok(normal) =>
           match CollectFacts(seen, sourceId, normal)
           case Err(e) => Err(e)
           case Ok(noted) =>
             Ok(noted.(facts := acc.facts + normal,
                       canonical := acc.canonical + [ObservedJson(sourceId, evidence, normal)])))
      case NotObserved(sourceId, evidence, reason) =>
        Ok(seen.(reason := WorseReason(acc.reason, reason),
                 canonical := acc.canonical + [NotObservedJson(sourceId, evidence, reason)]))
  }

  function CollectAll(b: string, expected: set<string>, obs: seq<Observation>)
    : Result<Collected, ReconciliationError>
  {
    if obs == [] then Ok(NOTHING)
    else
      match CollectAll(b, expected, obs[..|obs| - 1])
      case Err(e) => Err(e)
      case Ok(acc) => CollectOne(b, expected, acc, obs[|obs| - 1])
  }

  function SourceIds(bindings: seq<SourceBinding>): set<string> {
    set x | x in bindings :: x.sourceId
  }

  function CanonicalCollection(
    b: string, bindings: seq<SourceBinding>, obs: seq<Observation>, evidence: string)
    : Result<(Json.Value, Projection), ReconciliationError>
  {
    if |obs| != |bindings| then Err(SourceBatchMismatch)
    else
      match CollectAll(b, SourceIds(bindings), obs)
      case Err(e) => Err(e)
      case Ok(acc) =>
        if |acc.seen| != |SourceIds(bindings)| then Err(SourceBatchMismatch)
        else
          Ok((ResultJson(evidence, SortBy(JsonSourceLe, acc.canonical)),
              match acc.reason
              case Some(reason) => Unavailable(reason)
              case None => Complete(SortBy(CoverageIdLe, acc.facts))))
  }

  // ---------- combining observations: the loop ----------

  lemma CollectAllStep(b: string, expected: set<string>, obs: seq<Observation>, k: nat)
    requires k < |obs| && CollectAll(b, expected, obs[..k]).Ok?
    ensures CollectAll(b, expected, obs[..k + 1]) ==
            CollectOne(b, expected, CollectAll(b, expected, obs[..k]).value, obs[k])
  {
    assert obs[..k + 1][..k] == obs[..k];
  }

  lemma {:induction false} CollectAllFails(b: string, expected: set<string>, obs: seq<Observation>, k: nat)
    requires k <= |obs| && CollectAll(b, expected, obs[..k]).Err?
    ensures CollectAll(b, expected, obs) == CollectAll(b, expected, obs[..k])
    decreases |obs| - k
  {
    if k == |obs| {
      assert obs[..k] == obs;
    } else {
      assert obs[..k + 1][..k] == obs[..k];
      CollectAllFails(b, expected, obs, k + 1);
    }
  }

  lemma CollectFactsStep(acc: Collected, sourceId: string, facts: seq<Fact>, k: nat)
    requires k < |facts| && CollectFacts(acc, sourceId, facts[..k]).Ok?
    ensures CollectFacts(acc, sourceId, facts[..k + 1]) ==
            CollectFact(CollectFacts(acc, sourceId, facts[..k]).value, sourceId, facts[k])
  {
    assert facts[..k + 1][..k] == facts[..k];
  }

  lemma {:induction false} CollectFactsFails(acc: Collected, sourceId: string, facts: seq<Fact>, k: nat)
    requires k <= |facts| && CollectFacts(acc, sourceId, facts[..k]).Err?
    ensures CollectFacts(acc, sourceId, facts) == CollectFacts(acc, sourceId, facts[..k])
    decreases |facts| - k
  {
    if k == |facts| {
      assert facts[..k] == facts;
    } else {
      assert facts[..k + 1][..k] == facts[..k];
      CollectFactsFails(acc, sourceId, facts, k + 1);
    }
  }

  /** Note the identifiers of one source's facts. */
  method NoteFacts(acc: Collected, sourceId: string, normal: seq<Fact>)
    returns (r: Result<Collected, ReconciliationError>)
    ensures r == CollectFacts(acc, sourceId, normal)
  {
    var factIds, renewalIds := acc.factIds, acc.renewalIds;
    for k := 0 to |normal|
      invariant CollectFacts(acc, sourceId, normal[..k]) ==
                Ok(acc.(factIds := factIds, renewalIds := renewalIds))
    {
      var interval := normal[k];
      CollectFactsStep(acc, sourceId, normal, k);
      if CollectFacts(acc, sourceId, normal[..k + 1]).Err? {
        CollectFactsFails(acc, sourceId, normal, k + 1);
      }
      if interval.sourceId != sourceId {
        return Err(SourceObservationConflict(ForeignFact));
      }
      if interval.coverageId in factIds {
        return Err(SourceObservationConflict(SharedCoverageId));
      }
      factIds := factIds + {interval.coverageId};
      if interval.failedRenewalId.Some? {
        if interval.failedRenewalId.value in renewalIds {
          return Err(SourceObservationConflict(SharedRenewalId));
        }
        renewalIds := renewalIds + {interval.failedRenewalId.value};
      }
    }
    assert normal[..|normal|] == normal;
    r := Ok(acc.(factIds := factIds, renewalIds := renewalIds));
  }

  method CombineObservations(
    b: string, bindings: seq<SourceBinding>, obs: seq<Observation>, evidence: string)
    returns (r: Result<(Json.Value, Projection), ReconciliationError>)
    ensures r == CanonicalCollection(b, bindings, obs, evidence)
  {
    if |obs| != |bindings| {
      return Err(SourceBatchMismatch);
    }
    var expected := SourceIds(bindings);
    var acc := NOTHING;
    for k := 0 to |obs|
      invariant CollectAll(b, expected, obs[..k]) == Ok(acc)
    {
      var o := obs[k];
      CollectAllStep(b, expected, obs, k);
      if CollectAll(b, expected, obs[..k + 1]).Err? {
        CollectAllFails(b, expected, obs, k + 1);
      }
      if Blank(o.evidenceReference) || o.sourceId !in expected || o.sourceId in acc.seen {
        return Err(SourceBatchMismatch);
      }
      var seen := acc.(seen := acc.seen + {o.sourceId});
      match o {
        case Observed(sourceId, evidenceReference, paid) =>
          var normal := NormaliseConfirmedIntervals(PersonCoverage(b, paid));
          if normal.Err? {
            return Err(InvalidObservation(normal.error));
          }
          var noted := NoteFacts(seen, sourceId, normal.value);
          if noted.Err? {
            return Err(noted.error);
          }
          acc := noted.value.(
            facts := acc.facts + normal.value,
            canonical := acc.canonical + [ObservedJson(sourceId, evidenceReference, normal.value)]);
        case NotObserved(sourceId, evidenceReference, reason) =>
          acc := seen.(
            reason := WorseReason(acc.reason, reason),
            canonical := acc.canonical + [NotObservedJson(sourceId, evidenceReference, reason)]);
      }
    }
    assert obs[..|obs|] == obs;
    if |acc.seen| != |expected| {
      return Err(SourceBatchMismatch);
    }
    var projection;
    match acc.reason {
      case Some(reason) => projection := Unavailable(reason);
      case None => projection := Complete(SortBy(CoverageIdLe, acc.facts));
    }
    r := Ok((ResultJson(evidence, SortBy(JsonSourceLe, acc.canonical)), projection));
  }

  // ---------- what a batch must satisfy ----------

  function ObservationKey(o: Observation): string { o.sourceId }

  function FactsOf(o: Observation): seq<Fact> {
    if o.Observed? then o.paidIntervals else []
  }

  /** Every fact of every observed source, together. */
  function AllFacts(obs: seq<Observation>): seq<Fact> {
    if obs == [] then [] else AllFacts(obs[..|obs| - 1]) + FactsOf(obs[|obs| - 1])
  }

  ghost predicate OwnFacts(o: Observation) {
    forall f :: f in FactsOf(o) ==> f.sourceId == o.sourceId
  }

  /** One observation each for expected sources, each speaking only of its own facts, and all facts
      of all sources admissible together. */
  ghost predicate Batch(expected: set<string>, obs: seq<Observation>) {
    && (forall o :: o in obs ==> !Blank(o.evidenceReference) && o.sourceId in expected && OwnFacts(o))
    && DistinctKeys(ObservationKey, obs)
    && Admissible(AllFacts(obs))
  }

  function CombinedReason(obs: seq<Observation>): Option<UnavailableReason> {
    if exists o :: o in obs && o.NotObserved? && o.reason == ConflictingEvidence
    then Some(ConflictingEvidence)
    else if exists o :: o in obs && o.NotObserved? then Some(NeedsReconciliation)
    else None
  }

  function ObservationJson(b: string, o: Observation): Json.Value {
    match o
    case Observed(sourceId, evidence, paid) =>
      ObservedJson(sourceId, evidence, if Normalise(b, paid).Ok? then Normalise(b, paid).value else [])
    case NotObserved(sourceId, evidence, reason) => NotObservedJson(sourceId, evidence, reason)
  }

  function ObservationsJson(b: string, obs: seq<Observation>): seq<Json.Value> {
    seq(|obs|, i requires 0 <= i < |obs| => ObservationJson(b, obs[i]))
  }

  function Seen(obs: seq<Observation>): set<string> {
    set o | o in obs :: o.sourceId
  }

  lemma PrefixSteps(b: string, init: seq<Observation>, last: Observation)
    ensures Seen(init + [last]) == Seen(init) + {last.sourceId}
    ensures AllFacts(init + [last]) == AllFacts(init) + FactsOf(last)
    ensures ObservationsJson(b, init + [last]) == ObservationsJson(b, init) + [ObservationJson(b, last)]
  {
  }

  /** What the accumulator holds after an acceptable batch. */
  ghost predicate Gathers(b: string, obs: seq<Observation>, acc: Collected) {
    && acc.seen == Seen(obs)
    && acc.canonical == ObservationsJson(b, obs)
    && (forall f :: f in acc.facts <==> f in AllFacts(obs))
    && DistinctKeys(FactKey, acc.facts)
    && acc.factIds == FactIds(AllFacts(obs))
    && acc.renewalIds == RenewalIds(AllFacts(obs))
    && acc.reason == CombinedReason(obs)
  }

  /** The facts of one source fit beside those already noted. */
  ghost predicate FitsBeside(acc: Collected, sourceId: string, facts: seq<Fact>) {
    forall f :: f in facts ==>
      && f.sourceId == sourceId
      && f.coverageId !in acc.factIds
      && (f.failedRenewalId.Some? ==> f.failedRenewalId.value !in acc.renewalIds)
  }

  function FactIds(facts: seq<Fact>): set<string> {
    set f | f in facts :: f.coverageId
  }

  function RenewalIds(facts: seq<Fact>): set<string> {
    set f | f in facts && f.failedRenewalId.Some? :: f.failedRenewalId.value
  }

  function Noted(acc: Collected, facts: seq<Fact>): Collected {
    acc.(factIds := acc.factIds + FactIds(facts), renewalIds := acc.renewalIds + RenewalIds(facts))
  }

  lemma NotedStep(acc: Collected, init: seq<Fact>, last: Fact)
    ensures var noted := Noted(acc, init).(factIds := Noted(acc, init).factIds + {last.coverageId});
            Noted(acc, init + [last]) ==
              if last.failedRenewalId.None? then noted
              else noted.(renewalIds := noted.renewalIds + {last.failedRenewalId.value})
  {
  }

  lemma {:induction false} CollectFactsFits(acc: Collected, sourceId: string, facts: seq<Fact>)
    requires Admissible(facts) && DistinctKeys(FactKey, facts)
    ensures CollectFacts(acc, sourceId, facts).Ok? <==> FitsBeside(acc, sourceId, facts)
    ensures FitsBeside(acc, sourceId, facts) ==>
              CollectFacts(acc, sourceId, facts) == Ok(Noted(acc, facts))
  {
    if facts == [] {
      assert facts == [];
      assert Noted(acc, facts) == acc by { NotedEmpty(acc); }
    } else {
      var init, last := facts[..|facts| - 1], facts[|facts| - 1];
      assert facts == init + [last];
      AdmissibleStep(init, last);
      CollectFactsFits(acc, sourceId, init);
      FitsStep(acc, sourceId, init, last);
      if FitsBeside(acc, sourceId, init) {
        LastFactFits(acc, Noted(acc, init), sourceId, init, last);
        NotedStep(acc, init, last);
      }
    }
  }

  lemma NotedEmpty(acc: Collected)
    ensures Noted(acc, []) == acc
  {
  }

  lemma FitsStep(acc: Collected, sourceId: string, init: seq<Fact>, last: Fact)
    ensures FitsBeside(acc, sourceId, init + [last]) <==>
              FitsBeside(acc, sourceId, init) && FitsBeside(acc, sourceId, [last])
  {
  }

  lemma LastFactFits(acc: Collected, noted: Collected, sourceId: string, init: seq<Fact>, last: Fact)
    requires noted == Noted(acc, init)
    requires DistinctKeys(FactKey, init + [last])
    requires forall f :: f in init ==> Agree(f, last)
    ensures CollectFact(noted, sourceId, last).Ok? <==> FitsBeside(acc, sourceId, [last])
  {
    forall f | f in init ensures f.coverageId != last.coverageId {
      var i :| 0 <= i < |init| && init[i] == f;
      assert FactKey((init + [last])[i]) != FactKey((init + [last])[|init|]);
    }
    assert last in [last];
  }

  lemma {:induction false} AllFactsMembers(obs: seq<Observation>)
    ensures forall f :: f in AllFacts(obs) <==> exists o :: o in obs && f in FactsOf(o)
  {
    if obs != [] {
      var init, last := obs[..|obs| - 1], obs[|obs| - 1];
      assert obs == init + [last];
      AllFactsMembers(init);
      forall f ensures f in AllFacts(obs) <==> exists o :: o in obs && f in FactsOf(o) {
        if f in AllFacts(init) {
          var o :| o in init && f in FactsOf(o);
          assert o in obs;
        }
        assert last in obs;
      }
    }
  }

  lemma AdmissibleConcat(a: seq<Fact>, c: seq<Fact>)
    ensures Admissible(a + c) <==>
              Admissible(a) && Admissible(c) && forall f, g :: f in a && g in c ==> Agree(f, g)
  {
  }

  lemma BatchStep(expected: set<string>, init: seq<Observation>, last: Observation)
    ensures Batch(expected, init + [last]) <==>
              && Batch(expected, init)
              && !Blank(last.evidenceReference) && last.sourceId in expected && OwnFacts(last)
              && (forall o :: o in init ==> o.sourceId != last.sourceId)
              && Admissible(FactsOf(last))
              && (forall f, g :: f in AllFacts(init) && g in FactsOf(last) ==> Agree(f, g))
  {
    var obs := init + [last];
    assert obs[..|obs| - 1] == init && obs[|obs| - 1] == last;
    AdmissibleConcat(AllFacts(init), FactsOf(last));
    DistinctStep(ObservationKey, init, last);
    assert forall o :: o in obs <==> o in init || o == last;
  }

  lemma DistinctStep<T>(key: T -> string, init: seq<T>, last: T)
    ensures DistinctKeys(key, init + [last]) <==>
              DistinctKeys(key, init) && forall o :: o in init ==> key(o) != key(last)
  {
    var s := init + [last];
    assert forall i :: 0 <= i < |init| ==> s[i] == init[i] && init[i] in init;
    assert s[|init|] == last;
  }

  /** Facts of a new source fit beside the noted ones exactly when they agree with them. */
  lemma FitsWhenAgreeing(expected: set<string>, init: seq<Observation>, acc: Collected, last: Observation)
    requires Batch(expected, init)
    requires acc.factIds == FactIds(AllFacts(init))
    requires acc.renewalIds == RenewalIds(AllFacts(init))
    requires forall o :: o in init ==> o.sourceId != last.sourceId
    ensures FitsBeside(acc, last.sourceId, FactsOf(last)) <==>
              OwnFacts(last) && forall f, g :: f in AllFacts(init) && g in FactsOf(last) ==> Agree(f, g)
  {
    AllFactsMembers(init);
    if OwnFacts(last) {
      forall f, g | f in AllFacts(init) && g in FactsOf(last) ensures f != g {
        assert f.sourceId != last.sourceId;
      }
      if forall f, g :: f in AllFacts(init) && g in FactsOf(last) ==> Agree(f, g) {
        forall g | g in FactsOf(last)
          ensures g.coverageId !in acc.factIds
          ensures g.failedRenewalId.Some? ==> g.failedRenewalId.value !in acc.renewalIds
        {
          assert forall f :: f in AllFacts(init) ==> Agree(f, g);
        }
      }
    }
  }

  lemma FitsSameFacts(acc: Collected, sourceId: string, facts: seq<Fact>, other: seq<Fact>)
    requires forall f :: f in facts <==> f in other
    ensures FitsBeside(acc, sourceId, facts) <==> FitsBeside(acc, sourceId, other)
    ensures FactIds(facts) == FactIds(other) && RenewalIds(facts) == RenewalIds(other)
  {
  }

  lemma AscendingDistinct<T>(key: T -> string, s: seq<T>)
    requires Ascending(key, s)
    ensures DistinctKeys(key, s)
  {
  }

  lemma CombinedReasonStep(init: seq<Observation>, last: Observation)
    ensures CombinedReason(init + [last]) ==
            if last.NotObserved? then WorseReason(CombinedReason(init), last.reason)
            else CombinedReason(init)
  {
  }

  lemma GathersStep(
    b: string, expected: set<string>, init: seq<Observation>, acc: Collected, last: Observation)
    requires !Blank(b) && Batch(expected, init) && Gathers(b, init, acc)
    ensures CollectOne(b, expected, acc, last).Ok? <==> Batch(expected, init + [last])
    ensures Batch(expected, init + [last]) ==>
              Gathers(b, init + [last], CollectOne(b, expected, acc, last).value)
  {
    BatchStep(expected, init, last);
    NormaliseAdmits(b, FactsOf(last));
    if !Blank(last.evidenceReference) && last.sourceId in expected && last.sourceId !in acc.seen {
      FitsWhenAgreeing(expected, init, acc, last);
      if last.Observed? && Normalise(b, last.paidIntervals).Ok? {
        ObservedStep(b, expected, init, acc, last);
      }
      if last.NotObserved? {
        NotObservedGathers(b, init, acc, last, CollectOne(b, expected, acc, last).value);
      }
    }
  }

  lemma NotObservedGathers(
    b: string, init: seq<Observation>, acc: Collected, last: Observation, next: Collected)
    requires Gathers(b, init, acc) && last.NotObserved?
    requires next == acc.(seen := acc.seen + {last.sourceId},
                          reason := WorseReason(acc.reason, last.reason),
                          canonical := acc.canonical + [ObservationJson(b, last)])
    ensures Gathers(b, init + [last], next)
  {
    CombinedReasonStep(init, last);
    PrefixSteps(b, init, last);
    assert AllFacts(init) + [] == AllFacts(init);
  }

  lemma ObservedStep(
    b: string, expected: set<string>, init: seq<Observation>, acc: Collected, last: Observation)
    requires Gathers(b, init, acc) && last.Observed? && Normalise(b, last.paidIntervals).Ok?
    requires !Blank(last.evidenceReference) && last.sourceId in expected && last.sourceId !in acc.seen
    ensures CollectOne(b, expected, acc, last).Ok? <==> FitsBeside(acc, last.sourceId, FactsOf(last))
    ensures FitsBeside(acc, last.sourceId, FactsOf(last)) ==>
              Gathers(b, init + [last], CollectOne(b, expected, acc, last).value)
  {
    var normal := Normalise(b, last.paidIntervals).value;
    var seen := acc.(seen := acc.seen + {last.sourceId});
    NormaliseAdmits(b, last.paidIntervals);
    NormaliseIdempotent(b, last.paidIntervals);
    AscendingDistinct(FactKey, normal);
    CollectFactsFits(seen, last.sourceId, normal);
    FitsSameFacts(seen, last.sourceId, normal, last.paidIntervals);
    assert FitsBeside(seen, last.sourceId, FactsOf(last)) <==> FitsBeside(acc, last.sourceId, FactsOf(last));
    if FitsBeside(acc, last.sourceId, FactsOf(last)) {
      var next := CollectOne(b, expected, acc, last).value;
      assert next == Noted(seen, last.paidIntervals).(
                       facts := acc.facts + normal,
                       canonical := acc.canonical + [ObservationJson(b, last)]);
      FitsSameFacts(acc, last.sourceId, normal, last.paidIntervals);
      ObservedGathers(b, init, acc, last, normal, next);
    }
  }

  lemma ObservedGathers(
    b: string, init: seq<Observation>, acc: Collected, last: Observation,
    normal: seq<Fact>, next: Collected)
    requires Gathers(b, init, acc) && last.Observed?
    requires forall f :: f in normal <==> f in last.paidIntervals
    requires DistinctKeys(FactKey, normal) && FitsBeside(acc, last.sourceId, normal)
    requires next == Noted(acc.(seen := acc.seen + {last.sourceId}), last.paidIntervals).(
                       facts := acc.facts + normal,
                       canonical := acc.canonical + [ObservationJson(b, last)])
    ensures Gathers(b, init + [last], next)
  {
    CombinedReasonStep(init, last);
    PrefixSteps(b, init, last);
    DistinctConcat(acc, normal);
    IdsConcat(AllFacts(init), last.paidIntervals);
    assert forall f :: f in next.facts <==> f in acc.facts || f in normal;
  }

  lemma IdsConcat(a: seq<Fact>, c: seq<Fact>)
    ensures FactIds(a + c) == FactIds(a) + FactIds(c)
    ensures RenewalIds(a + c) == RenewalIds(a) + RenewalIds(c)
    ensures forall f :: f in a + c <==> f in a || f in c
  {
  }

  lemma DistinctConcat(acc: Collected, normal: seq<Fact>)
    requires DistinctKeys(FactKey, acc.facts) && DistinctKeys(FactKey, normal)
    requires forall f :: f in acc.facts ==> f.coverageId in acc.factIds
    requires forall f :: f in normal ==> f.coverageId !in acc.factIds
    ensures DistinctKeys(FactKey, acc.facts + normal)
  {
  }

  lemma {:induction false} CollectAllGathers(b: string, expected: set<string>, obs: seq<Observation>)
    requires !Blank(b)
    ensures CollectAll(b, expected, obs).Ok? <==> Batch(expected, obs)
    ensures Batch(expected, obs) ==> Gathers(b, obs, CollectAll(b, expected, obs).value)
  {
    if obs != [] {
      var init, last := obs[..|obs| - 1], obs[|obs| - 1];
      assert obs == init + [last];
      CollectAllGathers(b, expected, init);
      if Batch(expected, init) {
        GathersStep(b, expected, init, CollectAll(b, expected, init).value, last);
      } else {
        BatchStep(expected, init, last);
      }
    }
  }

  // ---------- which batches are accepted, and what they become ----------

  /** A batch is accepted exactly when it holds one observation for every registered source, each
      speaking of its own facts, and all their facts are admissible together. */
  lemma CollectionAccepts(
    b: string, bindings: seq<SourceBinding>, obs: seq<Observation>, evidence: string)
    requires !Blank(b)
    ensures CanonicalCollection(b, bindings, obs, evidence).Ok? <==>
              && |obs| == |bindings|
              && Seen(obs) == SourceIds(bindings)
              && Batch(SourceIds(bindings), obs)
  {
    var expected := SourceIds(bindings);
    CollectAllGathers(b, expected, obs);
    if Batch(expected, obs) {
      var acc := CollectAll(b, expected, obs).value;
      assert acc.seen <= expected;
      if |acc.seen| == |expected| {
        SubsetOfSameSize(acc.seen, expected);
      }
    }
  }

  lemma {:induction false} SubsetOfSameSize<T>(a: set<T>, c: set<T>)
    requires a <= c && |a| == |c|
    ensures a == c
  {
    if a != c {
      var x :| x in c && x !in a;
      assert a <= c - {x};
      SubsetSize(a, c - {x});
    }
  }

  lemma {:induction false} SubsetSize<T>(a: set<T>, c: set<T>)
    requires a <= c
    ensures |a| <= |c|
  {
    if a != {} {
      var x :| x in a;
      SubsetSize(a - {x}, c - {x});
    }
  }

  lemma JsonSourceOf(b: string, o: Observation)
    ensures JsonSource(ObservationJson(b, o)) == o.sourceId
  {
  }

  /** The field names are all different. */
  lemma FieldNames()
    ensures |"source_id"| == 9 && |"evidence_reference"| == 18 && |"status"| == 6
    ensures |"paid_intervals"| == 14 && |"reason"| == 6 && "reason"[0] != "status"[0]
    ensures |"coverage_id"| == 11 && |"starts_at"| == 9 && "starts_at"[1] != "source_id"[1]
    ensures |"paid_until"| == 10 && |"failed_renewal_id"| == 17
    ensures |"aggregate_evidence_reference"| == 28 && |"sources"| == 7
    ensures |"beneficiary_id"| == 14 && |"provider_namespace"| == 18
    ensures |"external_allocation_reference"| == 29 && |"ownership_evidence_reference"| == 28
    ensures |"complete"| == 8 && |"unavailable"| == 11
  {
  }

  /** The stored sources: one entry per observation, ascending by source. */
  ghost predicate CanonicalSources(b: string, obs: seq<Observation>, sources: seq<Json.Value>) {
    && Ascending(JsonSource, sources)
    && forall v :: v in sources <==> exists o :: o in obs && v == ObservationJson(b, o)
  }

  lemma SortedSources(b: string, obs: seq<Observation>)
    requires DistinctKeys(ObservationKey, obs)
    ensures CanonicalSources(b, obs, SortBy(JsonSourceLe, ObservationsJson(b, obs)))
  {
    var vs := ObservationsJson(b, obs);
    StrLeOrder();
    forall i, j | 0 <= i < j < |vs| ensures JsonSource(vs[i]) != JsonSource(vs[j]) {
      JsonSourceOf(b, obs[i]);
      JsonSourceOf(b, obs[j]);
      assert ObservationKey(obs[i]) != ObservationKey(obs[j]);
    }
    SortDistinctAscending(JsonSourceLe, JsonSource, vs);
    forall v ensures v in vs <==> exists o :: o in obs && v == ObservationJson(b, o) {
      if exists o :: o in obs && v == ObservationJson(b, o) {
        var o :| o in obs && v == ObservationJson(b, o);
        var i :| 0 <= i < |obs| && obs[i] == o;
        assert vs[i] == v;
      }
    }
  }

  ghost predicate Combines(
    b: string, obs: seq<Observation>, evidence: string, result: Json.Value, projection: Projection)
  {
    && Normalise(b, AllFacts(obs)).Ok?
    && projection == (match CombinedReason(obs)
                      case Some(reason) => Unavailable(reason)
                      case None => Complete(Normalise(b, AllFacts(obs)).value))
    && exists sources :: CanonicalSources(b, obs, sources) && result == ResultJson(evidence, sources)
  }

  /** The combined projection: unavailable when any source is, with conflicting evidence winning;
      otherwise exactly the union of all facts, in the normal form publishing expects. */
  lemma CollectionCombines(
    b: string, bindings: seq<SourceBinding>, obs: seq<Observation>, evidence: string)
    requires !Blank(b) && CanonicalCollection(b, bindings, obs, evidence).Ok?
    ensures var (result, projection) := CanonicalCollection(b, bindings, obs, evidence).value;
            && Combines(b, obs, evidence, result, projection)
            && (CombinedReason(obs).None? ==>
                  Normalise(b, projection.paidIntervals) == Ok(projection.paidIntervals))
  {
    CollectionAccepts(b, bindings, obs, evidence);
    CollectAllGathers(b, SourceIds(bindings), obs);
    var acc := CollectAll(b, SourceIds(bindings), obs).value;
    NormaliseAdmits(b, AllFacts(obs));
    NormaliseIdempotent(b, AllFacts(obs));
    CoverageIdLeOrder();
    StrLeOrder();
    SortDistinctAscending(CoverageIdLe, FactKey, acc.facts);
    AscendingUnique(FactKey, SortBy(CoverageIdLe, acc.facts), Normalise(b, AllFacts(obs)).value);
    SortedSources(b, obs);
  }

  // ---------- order and repetition make no difference ----------

  ghost predicate SameObservation(o: Observation, p: Observation) {
    && o.sourceId == p.sourceId
    && o.evidenceReference == p.evidenceReference
    && (o.Observed? <==> p.Observed?)
    && (o.NotObserved? ==> o.reason == p.reason)
    && (forall f :: f in FactsOf(o) <==> f in FactsOf(p))
  }

  ghost predicate HasMatch(o: Observation, others: seq<Observation>) {
    others != [] && (SameObservation(o, others[0]) || HasMatch(o, others[1..]))
  }

  ghost predicate AllMatched(obs: seq<Observation>, others: seq<Observation>) {
    obs == [] || (HasMatch(obs[0], others) && AllMatched(obs[1..], others))
  }

  /** The same observations in any order, each with its facts in any order and repetition. */
  ghost predicate SameBatch(obs: seq<Observation>, other: seq<Observation>) {
    |obs| == |other| && AllMatched(obs, other) && AllMatched(other, obs)
  }

  lemma {:induction false} MatchOf(o: Observation, others: seq<Observation>) returns (p: Observation)
    requires HasMatch(o, others)
    ensures p in others && SameObservation(o, p)
  {
    if SameObservation(o, others[0]) {
      p := others[0];
    } else {
      p := MatchOf(o, others[1..]);
    }
  }

  lemma {:induction false} MatchFound(o: Observation, others: seq<Observation>, p: Observation)
    requires p in others && SameObservation(o, p)
    ensures HasMatch(o, others)
  {
    if !SameObservation(o, others[0]) {
      MatchFound(o, others[1..], p);
    }
  }

  lemma {:induction false} MatchedMember(obs: seq<Observation>, others: seq<Observation>, o: Observation)
    requires AllMatched(obs, others) && o in obs
    ensures HasMatch(o, others)
  {
    if o != obs[0] {
      MatchedMember(obs[1..], others, o);
    }
  }

  lemma {:induction false} AllMatchedIntro(obs: seq<Observation>, others: seq<Observation>)
    requires forall o :: o in obs ==> HasMatch(o, others)
    ensures AllMatched(obs, others)
  {
    if obs != [] {
      assert obs[0] in obs;
      assert forall o :: o in obs[1..] ==> o in obs;
      AllMatchedIntro(obs[1..], others);
    }
  }

  lemma MatchedContents(obs: seq<Observation>, others: seq<Observation>)
    requires AllMatched(obs, others)
    ensures Seen(obs) <= Seen(others)
    ensures forall f :: f in AllFacts(obs) ==> f in AllFacts(others)
    ensures (exists o :: o in obs && o.NotObserved? && o.reason == ConflictingEvidence) ==>
              exists o :: o in others && o.NotObserved? && o.reason == ConflictingEvidence
    ensures (exists o :: o in obs && o.NotObserved?) ==> exists o :: o in others && o.NotObserved?
  {
    AllFactsMembers(obs);
    AllFactsMembers(others);
    forall o | o in obs
      ensures o.sourceId in Seen(others)
      ensures forall f :: f in FactsOf(o) ==> f in AllFacts(others)
      ensures o.NotObserved? ==> exists p :: p in others && p.NotObserved? && p.reason == o.reason
    {
      MatchedMember(obs, others, o);
      var p := MatchOf(o, others);
    }
  }

  lemma SameBatchContents(obs: seq<Observation>, other: seq<Observation>)
    requires SameBatch(obs, other)
    ensures Seen(obs) == Seen(other)
    ensures forall f :: f in AllFacts(obs) <==> f in AllFacts(other)
    ensures CombinedReason(obs) == CombinedReason(other)
  {
    MatchedContents(obs, other);
    MatchedContents(other, obs);
  }

  ghost function KeysOf<T>(key: T -> string, s: seq<T>): set<string> {
    set x | x in s :: key(x)
  }

  /** Keys are distinct exactly when there are as many keys as elements. */
  lemma {:induction false} DistinctByCount<T>(key: T -> string, s: seq<T>)
    ensures |KeysOf(key, s)| <= |s|
    ensures DistinctKeys(key, s) <==> |KeysOf(key, s)| == |s|
  {
    if s != [] {
      var init, last := s[..|s| - 1], s[|s| - 1];
      assert s == init + [last];
      DistinctByCount(key, init);
      DistinctStep(key, init, last);
      assert KeysOf(key, s) == KeysOf(key, init) + {key(last)};
    } else {
      assert KeysOf(key, s) == {};
    }
  }

  lemma SameBatchAccepted(expected: set<string>, obs: seq<Observation>, other: seq<Observation>)
    requires SameBatch(obs, other) && Batch(expected, obs)
    ensures Batch(expected, other)
  {
    SameBatchContents(obs, other);
    DistinctByCount(ObservationKey, obs);
    DistinctByCount(ObservationKey, other);
    assert KeysOf(ObservationKey, obs) == Seen(obs) && KeysOf(ObservationKey, other) == Seen(other);
    AdmissibleSameFacts(AllFacts(obs), AllFacts(other));
    forall p | p in other
      ensures !Blank(p.evidenceReference) && p.sourceId in expected && OwnFacts(p)
    {
      MatchedMember(other, obs, p);
      var o := MatchOf(p, obs);
    }
  }

  lemma MatchedJson(b: string, obs: seq<Observation>, others: seq<Observation>, o: Observation)
    requires AllMatched(obs, others) && o in obs
    ensures exists p :: p in others && ObservationJson(b, o) == ObservationJson(b, p)
  {
    MatchedMember(obs, others, o);
    var p := MatchOf(o, others);
    SameObservationJson(b, o, p);
  }

  lemma SameBatchSources(
    b: string, obs: seq<Observation>, other: seq<Observation>, sources: seq<Json.Value>)
    requires SameBatch(obs, other) && CanonicalSources(b, obs, sources)
    ensures CanonicalSources(b, other, sources)
  {
    forall o | o in obs ensures exists p :: p in other && ObservationJson(b, o) == ObservationJson(b, p) {
      MatchedJson(b, obs, other, o);
    }
    forall p | p in other ensures exists o :: o in obs && ObservationJson(b, p) == ObservationJson(b, o) {
      MatchedJson(b, other, obs, p);
    }
  }

  lemma SameObservationJson(b: string, o: Observation, p: Observation)
    requires SameObservation(o, p)
    ensures ObservationJson(b, o) == ObservationJson(b, p)
  {
    if o.Observed? {
      assert FactsOf(o) == o.paidIntervals && FactsOf(p) == p.paidIntervals;
      NormaliseIgnoresOrder(b, o.paidIntervals, p.paidIntervals);
    }
  }

  /** The stored result and the projection do not depend on the order of the observations, nor on
      the order or repetition of the facts within one. */
  lemma CollectionIgnoresOrder(
    b: string, bindings: seq<SourceBinding>, obs: seq<Observation>, other: seq<Observation>,
    evidence: string)
    requires !Blank(b) && SameBatch(obs, other)
    ensures CanonicalCollection(b, bindings, obs, evidence).Ok? <==>
              CanonicalCollection(b, bindings, other, evidence).Ok?
    ensures CanonicalCollection(b, bindings, obs, evidence).Ok? ==>
              CanonicalCollection(b, bindings, obs, evidence) ==
              CanonicalCollection(b, bindings, other, evidence)
  {
    CollectionAccepts(b, bindings, obs, evidence);
    CollectionAccepts(b, bindings, other, evidence);
    SameBatchContents(obs, other);
    if Batch(SourceIds(bindings), obs) {
      SameBatchAccepted(SourceIds(bindings), obs, other);
    }
    if Batch(SourceIds(bindings), other) {
      SameBatchAccepted(SourceIds(bindings), other, obs);
    }
    if CanonicalCollection(b, bindings, obs, evidence).Ok? {
      CollectionCombines(b, bindings, obs, evidence);
      CollectionCombines(b, bindings, other, evidence);
      NormaliseIgnoresOrder(b, AllFacts(obs), AllFacts(other));
      var (r1, p1) := CanonicalCollection(b, bindings, obs, evidence).value;
      var (r2, p2) := CanonicalCollection(b, bindings, other, evidence).value;
      var s1 :| CanonicalSources(b, obs, s1) && r1 == ResultJson(evidence, s1);
      var s2 :| CanonicalSources(b, other, s2) && r2 == ResultJson(evidence, s2);
      SameBatchSources(b, obs, other, s1);
      AscendingUnique(JsonSource, s1, s2);
    }
  }
}

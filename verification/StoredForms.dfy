/** Reading stored bindings and results back, and that what was stored is never called corrupt. */
module StoredForms {
  import opened Outcomes
  import opened Ordering
  import opened Text
  import opened Coverage
  import opened CoverageStore
  import opened Collection
  import Json

  type Parsed<T> = Result<T, ReconciliationError>

  function Corrupt<T>(why: CorruptReason): Parsed<T> {
    Err(CorruptAttempt(why))
  }

  function StoredString(fields: map<string, Json.Value>, field: string, why: CorruptReason)
    : Parsed<string>
  {
    if field in fields && fields[field].Text? then Ok(fields[field].s) else Corrupt(why)
  }

  function StoredInt64(fields: map<string, Json.Value>, field: string): Parsed<Int64> {
    if field in fields && Json.AsInt64(fields[field]).Some?
    then Ok(Json.AsInt64(fields[field]).value) else Corrupt(ResultShape)
  }

  function ParseInterval(v: Json.Value): Parsed<Fact> {
    if !v.Object? then Corrupt(ResultShape)
    else
      var o := v.fields;
      if |o| != 5
         || "coverage_id" !in o || "source_id" !in o || "starts_at" !in o
         || "paid_until" !in o || "failed_renewal_id" !in o
      then Corrupt(ResultShape)
      else
        var renewal := o["failed_renewal_id"];
        if !renewal.Null? && !renewal.Text? then Corrupt(ResultShape)
        else
          match (StoredString(o, "coverage_id", ResultShape), StoredString(o, "source_id", ResultShape),
                 StoredInt64(o, "starts_at"), StoredInt64(o, "paid_until"))
          case (Ok(coverageId), Ok(sourceId), Ok(startsAt), Ok(paidUntil)) =>
            Ok(Fact(coverageId, sourceId, startsAt, paidUntil,
                    if renewal.Text? then Some(renewal.s) else None))
          case _ => Corrupt(ResultShape)
  }

  /** Parse every item, stopping at the first failure. */
  function ParseEach<T>(parse: Json.Value -> Parsed<T>, items: seq<Json.Value>): Parsed<seq<T>> {
    if items == [] then Ok([])
    else
      match parse(items[0])
      case Err(e) => Err(e)
      case Ok(x) =>
        match ParseEach(parse, items[1..])
        case Err(e) => Err(e)
        case Ok(rest) => Ok([x] + rest)
  }

  function ParseObservation(v: Json.Value): Parsed<Observation> {
    if !v.Object? then Corrupt(ResultShape)
    else
      var o := v.fields;
      match (StoredString(o, "status", ResultShape), StoredString(o, "source_id", ResultShape),
             StoredString(o, "evidence_reference", ResultShape))
      case (Ok(status), Ok(sourceId), Ok(evidence)) =>
        if status == "complete" then
          if |o| != 4 || "paid_intervals" !in o || !o["paid_intervals"].Array? then Corrupt(ResultShape)
          else
            (match ParseEach(ParseInterval, o["paid_intervals"].items)
             case Err(e) => Err(e)
             case Ok(facts) => Ok(Observed(sourceId, evidence, facts)))
        else if status == "unavailable" then
          if |o| != 4 || "reason" !in o then Corrupt(ResultShape)
          else
            (match StoredString(o, "reason", ResultShape)
             case Err(e) => Err(e)
             case Ok(text) =>
               match ParseReason(text)
               case None => Corrupt(ResultShape)
               case Some(reason) => Ok(NotObserved(sourceId, evidence, reason)))
        else Corrupt(ResultShape)
      case _ => Corrupt(ResultShape)
  }

  function ValidateStoredResult(
    b: string, bindings: seq<SourceBinding>, evidence: string, stored: Json.Value): Parsed<Json.Value>
  {
    if Blank(evidence) then Corrupt(ResultEvidence)
    else if !stored.Object? then Corrupt(ResultShape)
    else
      var o := stored.fields;
      if |o| != 2 || "aggregate_evidence_reference" !in o || "sources" !in o then Corrupt(ResultShape)
      else
        match StoredString(o, "aggregate_evidence_reference", ResultShape)
        case Err(e) => Err(e)
        case Ok(storedEvidence) =>
          if storedEvidence != evidence || Blank(storedEvidence) then Corrupt(ResultEvidence)
          else if !o["sources"].Array? then Corrupt(ResultShape)
          else
            match ParseEach(ParseObservation, o["sources"].items)
            case Err(e) => Err(e)
            case Ok(obs) =>
              match CanonicalCollection(b, bindings, obs, evidence)
              case Err(_) => Corrupt(ResultCanonical)
              case Ok((canonical, _)) =>
                if stored != canonical then Corrupt(ResultCanonical) else Ok(canonical)
  }

  // ---------- bindings ----------

  function ValidateBinding(x: SourceBinding): Parsed<()> {
    if Blank(x.beneficiaryId) || Blank(x.sourceId) || Blank(x.providerNamespace)
       || Blank(x.externalAllocationReference) || Blank(x.ownershipEvidenceReference)
    then Err(InvalidSource) else Ok(())
  }

  function BindingJson(x: SourceBinding): Json.Value {
    Json.Object(map[
      "beneficiary_id" := Json.Text(x.beneficiaryId),
      "source_id" := Json.Text(x.sourceId),
      "provider_namespace" := Json.Text(x.providerNamespace),
      "external_allocation_reference" := Json.Text(x.externalAllocationReference),
      "ownership_evidence_reference" := Json.Text(x.ownershipEvidenceReference)])
  }

  function BindingsJson(bindings: seq<SourceBinding>): Json.Value {
    Json.Array(seq(|bindings|, i requires 0 <= i < |bindings| => BindingJson(bindings[i])))
  }

  function ParseBinding(v: Json.Value, b: string): Parsed<SourceBinding> {
    if !v.Object? then Corrupt(BindingShape)
    else
      var o := v.fields;
      if |o| != 5
         || "beneficiary_id" !in o || "source_id" !in o || "provider_namespace" !in o
         || "external_allocation_reference" !in o || "ownership_evidence_reference" !in o
      then Corrupt(BindingShape)
      else
        match (StoredString(o, "beneficiary_id", BindingShape), StoredString(o, "source_id", BindingShape),
               StoredString(o, "provider_namespace", BindingShape),
               StoredString(o, "external_allocation_reference", BindingShape),
               StoredString(o, "ownership_evidence_reference", BindingShape))
        case (Ok(beneficiaryId), Ok(sourceId), Ok(provider), Ok(external), Ok(ownership)) =>
          var binding := SourceBinding(beneficiaryId, sourceId, provider, external, ownership);
          if beneficiaryId != b then Corrupt(BindingOwnership)
          else if ValidateBinding(binding).Err? then Corrupt(BindingShape)
          else Ok(binding)
        case _ => Corrupt(BindingShape)
  }

  function BindingKey(x: SourceBinding): string { x.sourceId }

  function ParseStoredBindings(v: Json.Value, b: string): Parsed<seq<SourceBinding>> {
    if !v.Array? || v.items == [] then Corrupt(BindingShape)
    else
      match ParseEach((item: Json.Value) => ParseBinding(item, b), v.items)
      case Err(e) => Err(e)
      case Ok(bindings) =>
        if exists i :: 0 <= i < |bindings| - 1 && !StrLt(bindings[i].sourceId, bindings[i + 1].sourceId)
        then Corrupt(BindingShape) else Ok(bindings)
  }

  // ---------- what was stored reads back ----------

  lemma FactRoundTrip(f: Fact)
    ensures ParseInterval(FactJson(f)) == Ok(f)
  {
  }

  lemma {:induction false} ParseEachOk<T>(parse: Json.Value -> Parsed<T>, items: seq<Json.Value>, xs: seq<T>)
    requires |items| == |xs|
    requires forall i :: 0 <= i < |items| ==> parse(items[i]) == Ok(xs[i])
    ensures ParseEach(parse, items) == Ok(xs)
  {
    if items != [] {
      ParseEachOk(parse, items[1..], xs[1..]);
      assert xs == [xs[0]] + xs[1..];
    }
  }

  lemma FactsRoundTrip(facts: seq<Fact>)
    ensures ParseEach(ParseInterval, FactsJson(facts).items) == Ok(facts)
  {
    var items := FactsJson(facts).items;
    forall i | 0 <= i < |items| ensures ParseInterval(items[i]) == Ok(facts[i]) {
      FactRoundTrip(facts[i]);
    }
    ParseEachOk(ParseInterval, items, facts);
  }

  /** The observation the stored entry stands for: its facts in normal form. */
  function Normalised(b: string, o: Observation): Observation {
    if o.Observed? && Normalise(b, o.paidIntervals).Ok?
    then o.(paidIntervals := Normalise(b, o.paidIntervals).value) else o
  }

  lemma ObservedRoundTrip(sourceId: string, evidence: string, facts: seq<Fact>)
    ensures ParseObservation(ObservedJson(sourceId, evidence, facts)) == Ok(Observed(sourceId, evidence, facts))
  {
    FieldNames();
    FactsRoundTrip(facts);
    var o := ObservedJson(sourceId, evidence, facts).fields;
    assert o.Keys == {"source_id", "evidence_reference", "status", "paid_intervals"};
  }

  lemma NotObservedRoundTrip(sourceId: string, evidence: string, reason: UnavailableReason)
    ensures ParseObservation(NotObservedJson(sourceId, evidence, reason)) ==
            Ok(NotObserved(sourceId, evidence, reason))
  {
  }

  lemma ObservationRoundTrip(b: string, o: Observation)
    requires o.Observed? ==> Normalise(b, o.paidIntervals).Ok?
    ensures ParseObservation(ObservationJson(b, o)) == Ok(Normalised(b, o))
    ensures SameObservation(o, Normalised(b, o)) && SameObservation(Normalised(b, o), o)
  {
    match o
    case Observed(sourceId, evidence, paid) =>
      NormaliseAdmits(b, paid);
      assert FactsOf(o) == paid && FactsOf(Normalised(b, o)) == Normalise(b, paid).value;
      ObservedRoundTrip(sourceId, evidence, Normalise(b, paid).value);
    case NotObserved(sourceId, evidence, reason) =>
      NotObservedRoundTrip(sourceId, evidence, reason);
  }

  /** Parsing the stored sources gives the batch back, in source order and normal form. */
  lemma {:induction false} SourcesRoundTrip(b: string, obs: seq<Observation>, items: seq<Json.Value>)
    requires forall o :: o in obs && o.Observed? ==> Normalise(b, o.paidIntervals).Ok?
    requires forall v :: v in items ==> exists o :: o in obs && v == ObservationJson(b, o)
    ensures ParseEach(ParseObservation, items).Ok?
    ensures |ParseEach(ParseObservation, items).value| == |items|
    ensures AllMatched(ParseEach(ParseObservation, items).value, obs)
    ensures forall o :: o in obs && ObservationJson(b, o) in items ==>
              HasMatch(o, ParseEach(ParseObservation, items).value)
  {
    if items != [] {
      assert items[0] in items;
      var first :| first in obs && items[0] == ObservationJson(b, first);
      ObservationRoundTrip(b, first);
      MatchFound(Normalised(b, first), obs, first);
      assert forall v :: v in items[1..] ==> v in items;
      SourcesRoundTrip(b, obs, items[1..]);
      var parsed := ParseEach(ParseObservation, items).value;
      assert parsed[0] == Normalised(b, first) && parsed[1..] == ParseEach(ParseObservation, items[1..]).value;
      forall o | o in obs && ObservationJson(b, o) in items ensures HasMatch(o, parsed) {
        if ObservationJson(b, o) == items[0] {
          ObservationRoundTrip(b, o);
        } else {
          assert ObservationJson(b, o) in items[1..];
        }
      }
    }
  }

  lemma ParsedResultValidates(
    b: string, bindings: seq<SourceBinding>, evidence: string,
    sources: seq<Json.Value>, parsed: seq<Observation>)
    requires !Blank(evidence) && ParseEach(ParseObservation, sources) == Ok(parsed)
    requires CanonicalCollection(b, bindings, parsed, evidence).Ok?
    requires CanonicalCollection(b, bindings, parsed, evidence).value.0 == ResultJson(evidence, sources)
    ensures ValidateStoredResult(b, bindings, evidence, ResultJson(evidence, sources)) ==
            Ok(ResultJson(evidence, sources))
  {
    FieldNames();
    var o := ResultJson(evidence, sources).fields;
    assert o.Keys == {"aggregate_evidence_reference", "sources"};
  }

  /** The stored sources of an accepted batch parse to the same batch. */
  lemma StoredSourcesParse(b: string, obs: seq<Observation>, sources: seq<Json.Value>)
    requires !Blank(b) && Admissible(AllFacts(obs))
    requires CanonicalSources(b, obs, sources) && |sources| == |obs|
    ensures ParseEach(ParseObservation, sources).Ok?
    ensures SameBatch(obs, ParseEach(ParseObservation, sources).value)
  {
    EachNormalises(b, obs);
    SourcesRoundTrip(b, obs, sources);
    var parsed := ParseEach(ParseObservation, sources).value;
    forall o | o in obs ensures HasMatch(o, parsed) {
      assert ObservationJson(b, o) in sources;
    }
    AllMatchedIntro(obs, parsed);
  }

  /** A result stored for an accepted batch validates as itself. */
  lemma StoredResultValidates(
    b: string, bindings: seq<SourceBinding>, obs: seq<Observation>, evidence: string)
    requires !Blank(b) && !Blank(evidence)
    requires CanonicalCollection(b, bindings, obs, evidence).Ok?
    ensures var (result, _) := CanonicalCollection(b, bindings, obs, evidence).value;
            ValidateStoredResult(b, bindings, evidence, result) == Ok(result)
  {
    CollectionAccepts(b, bindings, obs, evidence);
    CollectionSources(b, bindings, obs, evidence);
    var sources := SortBy(JsonSourceLe, ObservationsJson(b, obs));
    SortedSources(b, obs);
    SameElements(sources, ObservationsJson(b, obs));
    StoredSourcesParse(b, obs, sources);
    var parsed := ParseEach(ParseObservation, sources).value;
    CollectionIgnoresOrder(b, bindings, obs, parsed, evidence);
    ParsedResultValidates(b, bindings, evidence, sources, parsed);
  }

  lemma CollectionSources(
    b: string, bindings: seq<SourceBinding>, obs: seq<Observation>, evidence: string)
    requires !Blank(b) && CanonicalCollection(b, bindings, obs, evidence).Ok?
    ensures CanonicalCollection(b, bindings, obs, evidence).value.0 ==
            ResultJson(evidence, SortBy(JsonSourceLe, ObservationsJson(b, obs)))
  {
    CollectionAccepts(b, bindings, obs, evidence);
    CollectAllGathers(b, SourceIds(bindings), obs);
  }

  lemma {:induction false} EachNormalises(b: string, obs: seq<Observation>)
    requires !Blank(b) && Admissible(AllFacts(obs))
    ensures forall o :: o in obs && o.Observed? ==> Normalise(b, o.paidIntervals).Ok?
  {
    AllFactsMembers(obs);
    forall o | o in obs && o.Observed? ensures Normalise(b, o.paidIntervals).Ok? {
      assert FactsOf(o) == o.paidIntervals;
      assert forall f :: f in o.paidIntervals ==> f in AllFacts(obs);
      NormaliseAdmits(b, o.paidIntervals);
    }
  }

  lemma BindingRoundTrip(x: SourceBinding)
    requires ValidateBinding(x).Ok?
    ensures ParseBinding(BindingJson(x), x.beneficiaryId) == Ok(x)
  {
  }

  /** Bindings stored for a beneficiary parse back as themselves. */
  lemma BindingsRoundTrip(bindings: seq<SourceBinding>, b: string)
    requires bindings != [] && Ascending(BindingKey, bindings)
    requires forall x :: x in bindings ==> ValidateBinding(x).Ok? && x.beneficiaryId == b
    ensures ParseStoredBindings(BindingsJson(bindings), b) == Ok(bindings)
  {
    var parse := (item: Json.Value) => ParseBinding(item, b);
    var items := BindingsJson(bindings).items;
    forall i | 0 <= i < |items| ensures parse(items[i]) == Ok(bindings[i]) {
      BindingRoundTrip(bindings[i]);
    }
    ParseEachOk(parse, items, bindings);
    forall i | 0 <= i < |bindings| - 1
      ensures StrLt(bindings[i].sourceId, bindings[i + 1].sourceId)
    {
      assert StrLt(BindingKey(bindings[i]), BindingKey(bindings[i + 1]));
    }
  }
}

/** Nothing is read back but what could have been written: each stored form that parses is the form of
    what it parses to, and a stored result validates only if some batch combines to it. */
module StoredInverse {
  import opened Outcomes
  import opened Ordering
  import opened Text
  import opened Coverage
  import opened CoverageStore
  import opened Collection
  import opened StoredForms
  import Json

  lemma SubsetSize(a: set<string>, b: set<string>)
    requires a <= b && |a| == |b|
    ensures a == b
  {
    assert |b - a| == |b| - |a|;
  }

  /** An object with all of another's fields and no more of them is that other. */
  lemma SameFields(o: map<string, Json.Value>, p: map<string, Json.Value>)
    requires |o| == |p| && forall k :: k in p ==> k in o && o[k] == p[k]
    ensures o == p
  {
    assert |o.Keys| == |o| && |p.Keys| == |p|;
    SubsetSize(p.Keys, o.Keys);
  }

  lemma FieldNamesApart()
    ensures |{"coverage_id", "source_id", "starts_at", "paid_until", "failed_renewal_id"}| == 5
    ensures |{"source_id", "evidence_reference", "status", "paid_intervals"}| == 4
    ensures |{"source_id", "evidence_reference", "status", "reason"}| == 4
    ensures |{"beneficiary_id", "source_id", "provider_namespace", "external_allocation_reference",
              "ownership_evidence_reference"}| == 5
  {
    assert "coverage_id"[0] == 'c' && "source_id"[0] == 's' && "starts_at"[0] == 's' && "paid_until"[0] == 'p';
    assert "failed_renewal_id"[0] == 'f' && "source_id"[1] == 'o' && "starts_at"[1] == 't';
    assert "evidence_reference"[0] == 'e' && "status"[1] == 't' && "paid_intervals"[0] == 'p' && "reason"[0] == 'r';
    assert "beneficiary_id"[0] == 'b' && "provider_namespace"[0] == 'p';
    assert "external_allocation_reference"[0] == 'e' && "ownership_evidence_reference"[0] == 'o';
  }

  // ---------- facts ----------

  lemma IntervalFields(v: Json.Value)
    ensures ParseInterval(v).Ok? ==>
              && v.Object? && |v.fields| == 5
              && forall k :: k in FactJson(ParseInterval(v).value).fields ==>
                   k in v.fields && v.fields[k] == FactJson(ParseInterval(v).value).fields[k]
  {
  }

  lemma FactSize(f: Fact)
    ensures |FactJson(f).fields| == 5
  {
    FieldNamesApart();
    var o := FactJson(f).fields;
    assert o.Keys == {"coverage_id", "source_id", "starts_at", "paid_until", "failed_renewal_id"};
    assert |o| == |o.Keys|;
  }

  lemma IntervalReadsBack(v: Json.Value)
    ensures ParseInterval(v).Ok? ==> v == FactJson(ParseInterval(v).value)
  {
    hide ParseInterval;
    IntervalFields(v);
    if ParseInterval(v).Ok? {
      FactSize(ParseInterval(v).value);
      hide FactJson;
      SameFields(v.fields, FactJson(ParseInterval(v).value).fields);
    }
  }

  lemma {:induction false} EachReadsBack<T>(parse: Json.Value -> Parsed<T>, form: T -> Json.Value, items: seq<Json.Value>)
    requires forall v :: parse(v).Ok? ==> v == form(parse(v).value)
    ensures ParseEach(parse, items).Ok? ==>
              var xs := ParseEach(parse, items).value;
              |xs| == |items| && forall i :: 0 <= i < |items| ==> items[i] == form(xs[i]) && parse(items[i]) == Ok(xs[i])
  {
    if items != [] {
      EachReadsBack(parse, form, items[1..]);
    }
  }

  lemma FactsReadBack(items: seq<Json.Value>)
    ensures ParseEach(ParseInterval, items).Ok? ==>
              Json.Array(items) == FactsJson(ParseEach(ParseInterval, items).value)
  {
    hide ParseInterval, FactJson;
    forall v ensures ParseInterval(v).Ok? ==> v == FactJson(ParseInterval(v).value) {
      IntervalReadsBack(v);
    }
    EachReadsBack(ParseInterval, FactJson, items);
    if ParseEach(ParseInterval, items).Ok? {
      assert items == FactsJson(ParseEach(ParseInterval, items).value).items;
    }
  }

  // ---------- bindings ----------

  lemma BindingFields(v: Json.Value, b: string)
    ensures ParseBinding(v, b).Ok? ==>
              var x := ParseBinding(v, b).value;
              && ValidateBinding(x).Ok? && x.beneficiaryId == b
              && v.Object? && |v.fields| == 5
              && forall k :: k in BindingJson(x).fields ==> k in v.fields && v.fields[k] == BindingJson(x).fields[k]
  {
  }

  lemma BindingSize(x: SourceBinding)
    ensures |BindingJson(x).fields| == 5
  {
    FieldNamesApart();
    var o := BindingJson(x).fields;
    assert o.Keys == {"beneficiary_id", "source_id", "provider_namespace", "external_allocation_reference",
                      "ownership_evidence_reference"};
    assert |o| == |o.Keys|;
  }

  lemma BindingReadsBack(v: Json.Value, b: string)
    ensures ParseBinding(v, b).Ok? ==>
              var x := ParseBinding(v, b).value;
              v == BindingJson(x) && ValidateBinding(x).Ok? && x.beneficiaryId == b
  {
    hide ParseBinding, ValidateBinding;
    BindingFields(v, b);
    if ParseBinding(v, b).Ok? {
      BindingSize(ParseBinding(v, b).value);
      hide BindingJson;
      SameFields(v.fields, BindingJson(ParseBinding(v, b).value).fields);
    }
  }

  lemma {:induction false} NeighboursAscend(xs: seq<SourceBinding>, i: nat, j: nat)
    requires forall k :: 0 <= k < |xs| - 1 ==> StrLt(xs[k].sourceId, xs[k + 1].sourceId)
    requires i < j < |xs|
    ensures StrLt(xs[i].sourceId, xs[j].sourceId)
  {
    if i + 1 < j {
      NeighboursAscend(xs, i, j - 1);
      assert StrLt(xs[j - 1].sourceId, xs[j - 1 + 1].sourceId);
      StrLeTransitive(xs[i].sourceId, xs[j - 1].sourceId, xs[j].sourceId);
      if xs[i].sourceId == xs[j].sourceId {
        StrLeAntisymmetric(xs[i].sourceId, xs[j - 1].sourceId);
      }
    } else {
      assert StrLt(xs[i].sourceId, xs[i + 1].sourceId);
    }
  }

  /** Stored bindings parse exactly when they are the form of some valid bindings of the beneficiary, at
      least one, ascending by source; and then to those. */
  lemma BindingsParseWhen(v: Json.Value, b: string)
    ensures ParseStoredBindings(v, b).Ok? <==> exists xs :: StoresBindings(v, b, xs)
    ensures ParseStoredBindings(v, b).Ok? ==> StoresBindings(v, b, ParseStoredBindings(v, b).value)
  {
    hide ParseBinding, ValidateBinding, BindingJson, StrLt;
    if ParseStoredBindings(v, b).Ok? {
      var parse := (item: Json.Value) => ParseBinding(item, b);
      forall item
        ensures parse(item).Ok? ==> item == BindingJson(parse(item).value)
        ensures parse(item).Ok? ==> ValidateBinding(parse(item).value).Ok? && parse(item).value.beneficiaryId == b
      {
        BindingReadsBack(item, b);
      }
      EachReadsBack(parse, BindingJson, v.items);
      var xs := ParseStoredBindings(v, b).value;
      assert v.items == BindingsJson(xs).items;
      forall i, j | 0 <= i < j < |xs| ensures StrLt(xs[i].sourceId, xs[j].sourceId) {
        NeighboursAscend(xs, i, j);
      }
      assert StoresBindings(v, b, xs);
    }
    if xs :| StoresBindings(v, b, xs) {
      BindingsRoundTrip(xs, b);
    }
  }

  ghost predicate StoresBindings(v: Json.Value, b: string, xs: seq<SourceBinding>) {
    && v == BindingsJson(xs) && xs != []
    && (forall x :: x in xs ==> ValidateBinding(x).Ok? && x.beneficiaryId == b)
    && (forall i, j :: 0 <= i < j < |xs| ==> StrLt(xs[i].sourceId, xs[j].sourceId))
  }

  // ---------- observations and results ----------

  lemma ObservedFields(v: Json.Value)
    requires ParseObservation(v).Ok? && ParseObservation(v).value.Observed?
    ensures var o := ParseObservation(v).value;
            && v.Object? && |v.fields| == 4 && "paid_intervals" in v.fields && v.fields["paid_intervals"].Array?
            && ParseEach(ParseInterval, v.fields["paid_intervals"].items) == Ok(o.paidIntervals)
            && "source_id" in v.fields && v.fields["source_id"] == Json.Text(o.sourceId)
            && "evidence_reference" in v.fields && v.fields["evidence_reference"] == Json.Text(o.evidenceReference)
            && "status" in v.fields && v.fields["status"] == Json.Text("complete")
  {
    hide ParseInterval, ParseReason, ParseEach;
  }

  lemma NotObservedFields(v: Json.Value)
    requires ParseObservation(v).Ok? && ParseObservation(v).value.NotObserved?
    ensures var o := ParseObservation(v).value;
            && v.Object? && |v.fields| == 4
            && "reason" in v.fields && v.fields["reason"] == Json.Text(ReasonText(o.reason))
            && "source_id" in v.fields && v.fields["source_id"] == Json.Text(o.sourceId)
            && "evidence_reference" in v.fields && v.fields["evidence_reference"] == Json.Text(o.evidenceReference)
            && "status" in v.fields && v.fields["status"] == Json.Text("unavailable")
  {
    hide ParseInterval, ParseEach;
  }

  /** A stored observation that parses is the form of what it parses to. */
  lemma ObservationReadsBack(v: Json.Value)
    requires ParseObservation(v).Ok?
    ensures match ParseObservation(v).value
            case Observed(sourceId, evidence, paid) => v == ObservedJson(sourceId, evidence, paid)
            case NotObserved(sourceId, evidence, reason) => v == NotObservedJson(sourceId, evidence, reason)
  {
    hide ParseObservation, ParseInterval, FactsJson, ReasonText;
    FieldNamesApart();
    match ParseObservation(v).value
    case Observed(sourceId, evidence, paid) =>
      ObservedFields(v);
      FactsReadBack(v.fields["paid_intervals"].items);
      var p := ObservedJson(sourceId, evidence, paid).fields;
      assert p.Keys == {"source_id", "evidence_reference", "status", "paid_intervals"};
      assert |p| == |p.Keys|;
      SameFields(v.fields, p);
    case NotObserved(sourceId, evidence, reason) =>
      NotObservedFields(v);
      var p := NotObservedJson(sourceId, evidence, reason).fields;
      assert p.Keys == {"source_id", "evidence_reference", "status", "reason"};
      assert |p| == |p.Keys|;
      SameFields(v.fields, p);
  }

  /** A stored result validates exactly when its evidence is named and some batch of the bindings combines
      to it under that evidence; and then to itself. */
  lemma ResultValidatesWhen(b: string, bindings: seq<SourceBinding>, evidence: string, stored: Json.Value)
    requires !Blank(b)
    ensures ValidateStoredResult(b, bindings, evidence, stored).Ok? <==>
              !Blank(evidence) && exists obs :: CombinesTo(b, bindings, obs, evidence, stored)
    ensures ValidateStoredResult(b, bindings, evidence, stored).Ok? ==>
              ValidateStoredResult(b, bindings, evidence, stored) == Ok(stored)
  {
    hide CanonicalCollection, ParseObservation;
    if ValidateStoredResult(b, bindings, evidence, stored).Ok? {
      var obs := ParseEach(ParseObservation, stored.fields["sources"].items).value;
      assert CombinesTo(b, bindings, obs, evidence, stored);
    }
    if !Blank(evidence) {
      if obs :| CombinesTo(b, bindings, obs, evidence, stored) {
        StoredResultValidates(b, bindings, obs, evidence);
      }
    }
  }

  ghost predicate CombinesTo(
    b: string, bindings: seq<SourceBinding>, obs: seq<Observation>, evidence: string, stored: Json.Value)
  {
    var r := CanonicalCollection(b, bindings, obs, evidence);
    r.Ok? && r.value.0 == stored
  }
}

/** Two events of one subscription created at the same time. */
module BillingTies {
  import opened Billing
  import opened BillingRuns
  import opened Ordering
  import opened Outcomes

  /** The tier the provider's answer stands for. */
  function TierSeen(seen: Observation): Tier {
    match seen
    case Current(_, status) => TierFor(status)
    case Missing => Free
  }

  function LinkSeen(seen: Observation): Option<string> {
    match seen
    case Current(id, _) => Some(id)
    case Missing => None
  }

  /** A reconciled delivery gives the organisation it names what the provider says, whatever the event
      says, and touches no other. */
  lemma ReconcileFollowsProvider(t: Tables, d: Delivery, org: string)
    requires TakesEffect(t, d) && Decided(t, d) == Reconcile
    requires OrgHint(d.event) == Some(org) && org in t.orgs && t.orgs[org].active
    ensures d.seen.Some?
    ensures Next(t, d).orgs ==
            t.orgs[org := t.orgs[org].(tier := TierSeen(d.seen.value), subscription := LinkSeen(d.seen.value))]
  {
    hide DispositionOf, Clashes, Decided, TakesEffect, Next;
    ReconcilesOwn(t, d);
    OrgsStep(t, d);
  }

  /** An event neither seen before nor behind the watermark. */
  predicate Unseen(t: Tables, e: Event, s: string) {
    && SubscriptionOf(e) == Some(s) && VersionAccepted(e.apiVersion) && e.created >= 0
    && e.id !in t.receipts
    && (s in t.watermarks ==> t.watermarks[s].created < e.created)
  }

  lemma FirstApplies(t: Tables, d: Delivery, s: string)
    requires Unseen(t, d.event, s)
    ensures Decided(t, d) == Apply
  {
  }

  lemma FirstApplied(t: Tables, d: Delivery, s: string)
    requires Unseen(t, d.event, s) && Answer(t, d) == Acknowledged
    ensures TakesEffect(t, d) && MarkOf(Next(t, d), s) == Some(Mark(d.event))
    ensures forall id :: id in Next(t, d).receipts ==> id in t.receipts || id == d.event.id
  {
    hide ChangeOf;
    FirstApplies(t, d, s);
    WatermarkStep(t, d, s);
  }

  /** After one of two events of one time, the other is reconciled if its id is the greater, and passed
      over if it is the lesser. */
  lemma SecondDecided(t: Tables, d: Delivery, s: string, first: Event)
    requires SubscriptionOf(d.event) == Some(s) && d.event.id !in t.receipts
    requires MarkOf(t, s) == Some(Mark(first)) && first.created == d.event.created
    ensures StrLt(first.id, d.event.id) ==> Decided(t, d) == Reconcile
    ensures StrLt(d.event.id, first.id) ==> Decided(t, d) == Ignore
  {
    if StrLe(d.event.id, first.id) && StrLe(first.id, d.event.id) {
      StrLeAntisymmetric(d.event.id, first.id);
    }
  }

  lemma AckedEffect(t: Tables, d: Delivery)
    requires Answer(t, d) == Acknowledged
    ensures TakesEffect(t, d) <==> Decided(t, d) != Ignore
  {
  }

  /** The lesser id first ends in the provider's tier; the greater id first ends in that event's own. So
      the order of arrival makes no difference exactly when the provider agrees with the greater id. */
  lemma TieOutcomes(t: Tables, lesser: Delivery, greater: Delivery, s: string, org: string, tier: Tier)
    requires ActiveWith(t, org, tier)
    requires Concerns(lesser.event, s, org) && Concerns(greater.event, s, org)
    requires Unseen(t, lesser.event, s) && Unseen(t, greater.event, s)
    requires lesser.event.created == greater.event.created && StrLt(lesser.event.id, greater.event.id)
    requires Answer(t, lesser) == Acknowledged && Answer(Next(t, lesser), greater) == Acknowledged
    requires Answer(t, greater) == Acknowledged && Answer(Next(t, greater), lesser) == Acknowledged
    ensures greater.seen.Some?
    ensures ActiveWith(Next(Next(t, lesser), greater), org, TierSeen(greater.seen.value))
    ensures ActiveWith(Next(Next(t, greater), lesser), org, TierOf(greater.event))
    ensures Next(Next(t, lesser), greater).orgs[org].tier == Next(Next(t, greater), lesser).orgs[org].tier <==>
            TierSeen(greater.seen.value) == TierOf(greater.event)
  {
    hide Next, Answer, TakesEffect, Decided, StrLt, TierOf, SubscriptionOf;
    FirstApplied(t, lesser, s);
    FirstApplied(t, greater, s);
    FirstApplies(t, lesser, s);
    FirstApplies(t, greater, s);
    EffectSetsTier(t, lesser, s, org, tier);
    EffectSetsTier(t, greater, s, org, tier);
    var a, b := Next(t, lesser), Next(t, greater);
    IdsApart(lesser.event.id, greater.event.id);
    SecondDecided(a, greater, s, lesser.event);
    SecondDecided(b, lesser, s, greater.event);
    AckedEffect(a, greater);
    AckedEffect(b, lesser);
    ReconcileFollowsProvider(a, greater, org);
    EffectSetsTier(b, lesser, s, org, TierOf(greater.event));
  }

  lemma IdsApart(a: string, b: string)
    requires StrLt(a, b)
    ensures a != b
  {
  }

  // ---------- runs with ties ----------

  /** The tier a delivery that takes effect leaves: its event's, or the provider's. */
  ghost function TierBy(t: Tables, d: Delivery): Tier {
    if Decided(t, d) == Reconcile && d.seen.Some? then TierSeen(d.seen.value) else TierOf(d.event)
  }

  lemma EffectGivesTier(t: Tables, d: Delivery, s: string, org: string, tier: Tier)
    requires ActiveWith(t, org, tier) && Concerns(d.event, s, org)
    ensures ActiveWith(Next(t, d), org, if TakesEffect(t, d) then TierBy(t, d) else tier)
  {
    hide Next, Decided, TakesEffect, TierSeen, TierOf;
    if Decided(t, d) != Reconcile {
      EffectSetsTier(t, d, s, org, tier);
    } else {
      ReconcilesOwn(t, d);
      OrgsStep(t, d);
      if TakesEffect(t, d) {
        ReconcileFollowsProvider(t, d, org);
      }
    }
  }

  /** Of the first `n` deliveries, the last of the subscription's to take effect. */
  ghost predicate LastEffect(t: Tables, ds: seq<Delivery>, n: nat, k: nat, s: string)
    requires n <= |ds|
  {
    k < n && Effective(t, ds, k, s) && forall j :: k < j < n ==> !Effective(t, ds, j, s)
  }

  lemma LastEffectStep(t: Tables, ds: seq<Delivery>, n: nat, k: nat, s: string)
    requires n < |ds|
    ensures LastEffect(t, ds, n + 1, k, s) <==>
            if Effective(t, ds, n, s) then k == n else LastEffect(t, ds, n, k, s)
    ensures LastEffect(t, ds, n, k, s) ==> k < n
  {
    hide Effective;
  }

  /** Whatever the times of the events, an organisation is left on the tier its subscription's last
      effective delivery gave it. */
  lemma {:induction false} LastEffectDecides(t: Tables, ds: seq<Delivery>, n: nat, s: string, org: string, tier: Tier)
    requires ActiveWith(t, org, tier) && n <= |ds|
    requires forall k :: 0 <= k < |ds| ==> Concerns(ds[k].event, s, org) || Elsewhere(ds[k].event, s, org)
    ensures exists now :: ActiveWith(After(t, ds[..n]), org, now)
    ensures (forall k :: 0 <= k < n ==> !Effective(t, ds, k, s)) ==> ActiveWith(After(t, ds[..n]), org, tier)
    ensures forall k :: 0 <= k < n && LastEffect(t, ds, n, k, s) ==>
              ActiveWith(After(t, ds[..n]), org, TierBy(After(t, ds[..k]), ds[k]))
  {
    hide Next, TakesEffect, TierBy, Concerns, Elsewhere, SubscriptionOf, LastEffect;
    if n > 0 {
      var before, d := After(t, ds[..n - 1]), ds[n - 1];
      LastEffectDecides(t, ds, n - 1, s, org, tier);
      AfterStep(t, ds, n - 1);
      var was :| ActiveWith(before, org, was);
      if Concerns(d.event, s, org) {
        ConcernsOwn(d.event, s, org);
        EffectGivesTier(before, d, s, org, was);
      } else {
        ElsewhereOther(d.event, s, org);
        ElsewhereKeepsTier(before, d, s, org, was);
      }
      assert Effective(t, ds, n - 1, s) <==> TakesEffect(before, d) && SubscriptionOf(d.event) == Some(s);
      forall k | 0 <= k < n && LastEffect(t, ds, n, k, s)
        ensures ActiveWith(After(t, ds[..n]), org, TierBy(After(t, ds[..k]), ds[k]))
      {
        LastEffectStep(t, ds, n - 1, k, s);
      }
    } else {
      assert ds[..0] == [] && ActiveWith(After(t, ds[..0]), org, tier);
    }
  }

  lemma NoEffectYet(t: Tables, ds: seq<Delivery>, k: nat, s: string)
    ensures !LastEffect(t, ds, 0, k, s)
  {
  }

  /** The watermark is the event that took effect last. */
  lemma {:induction false} WatermarkIsLastEffect(t: Tables, ds: seq<Delivery>, n: nat, s: string)
    requires s !in t.watermarks && n <= |ds|
    ensures MarkOf(After(t, ds[..n]), s).Some? <==> exists k: nat :: LastEffect(t, ds, n, k, s)
    ensures forall k :: 0 <= k < n && LastEffect(t, ds, n, k, s) ==>
              MarkOf(After(t, ds[..n]), s) == Some(Mark(ds[k].event))
  {
    hide Next, TakesEffect, SubscriptionOf, LastEffect;
    if n > 0 {
      WatermarkIsLastEffect(t, ds, n - 1, s);
      AfterStep(t, ds, n - 1);
      WatermarkStep(After(t, ds[..n - 1]), ds[n - 1], s);
      forall k: nat
        ensures LastEffect(t, ds, n, k, s) <==>
                if Effective(t, ds, n - 1, s) then k == n - 1 else LastEffect(t, ds, n - 1, k, s)
        ensures LastEffect(t, ds, n - 1, k, s) ==> k < n - 1
      {
        LastEffectStep(t, ds, n - 1, k, s);
      }
      if Effective(t, ds, n - 1, s) {
        assert LastEffect(t, ds, n, n - 1, s);
      } else if MarkOf(After(t, ds[..n]), s).Some? {
        var m: nat := n - 1;
        var k: nat :| LastEffect(t, ds, m, k, s);
        assert LastEffect(t, ds, n, k, s);
      }
    } else {
      assert ds[..0] == [];
      forall k: nat ensures !LastEffect(t, ds, 0, k, s) {
        NoEffectYet(t, ds, k, s);
      }
    }
  }

  /** An event of the subscription created at the same time has taken effect before. */
  ghost predicate TieBefore(t: Tables, ds: seq<Delivery>, k: nat, s: string)
    requires k < |ds|
  {
    exists j :: 0 <= j < k && Effective(t, ds, j, s) && ds[j].event.created == ds[k].event.created
  }

  lemma ReconcilesAtWatermark(t: Tables, d: Delivery, s: string)
    requires TakesEffect(t, d) && SubscriptionOf(d.event) == Some(s)
    ensures Decided(t, d) == Reconcile <==> MarkOf(t, s).Some? && MarkOf(t, s).value.created == d.event.created
    ensures MarkOf(t, s).Some? ==> MarkOf(t, s).value.created <= d.event.created
  {
  }

  /** An effective delivery asks the provider exactly when one of the same time took effect before it. */
  lemma ReconciledOnTies(t: Tables, ds: seq<Delivery>, k: nat, s: string)
    requires s !in t.watermarks && k < |ds| && Effective(t, ds, k, s)
    ensures Decided(After(t, ds[..k]), ds[k]) == Reconcile <==> TieBefore(t, ds, k, s)
  {
    hide Decided, After, TakesEffect;
    var before := After(t, ds[..k]);
    WatermarkIsLastEffect(t, ds, k, s);
    ReconcilesAtWatermark(before, ds[k], s);
    if MarkOf(before, s).Some? {
      var last: nat :| LastEffect(t, ds, k, last, s);
      assert Effective(t, ds, last, s);
    }
    forall j | 0 <= j < k && Effective(t, ds, j, s)
      ensures MarkOf(before, s).Some? && ds[j].event.created <= MarkOf(before, s).value.created
    {
      StaysBeyond(t, ds, j, k, s);
    }
  }

  /** With ties: the greatest event acknowledged decides, by what it says, or by what the provider said at
      its delivery when another of its time had taken effect first. */
  lemma GreatestDecidesTier(t: Tables, ds: seq<Delivery>, s: string, org: string, tier: Tier, greatest: nat)
    requires Fresh(t) && ActiveWith(t, org, tier) && IdsConsistent(ds)
    requires forall k :: 0 <= k < |ds| ==> Concerns(ds[k].event, s, org) || Elsewhere(ds[k].event, s, org)
    requires greatest < |ds| && AckedFor(t, ds, greatest, s)
    requires forall k :: 0 <= k < |ds| && AckedFor(t, ds, k, s) ==> MarkLe(Mark(ds[k].event), Mark(ds[greatest].event))
    ensures exists k: nat :: LastEffect(t, ds, |ds|, k, s) && DecidesTier(t, ds, k, s, org)
                             && Mark(ds[k].event) == Mark(ds[greatest].event)
  {
    hide Next, Answer, IdsConsistent, Concerns, Elsewhere, SubscriptionOf, TierOf, TierSeen, After, MarkLe, Fresh;
    hide Effective, ActiveWith, Decided, TieBefore;
    assert ds[..|ds|] == ds;
    WatermarkIsNewest(t, ds, |ds|, s);
    FreshNoMark(t, s);
    var w := After(t, ds).watermarks[s];
    var newest :| 0 <= newest < |ds| && AckedFor(t, ds, newest, s) && w == Mark(ds[newest].event);
    MarkOrder(w, Mark(ds[greatest].event), w);
    WatermarkIsLastEffect(t, ds, |ds|, s);
    var k: nat :| LastEffect(t, ds, |ds|, k, s);
    LastEffectDecides(t, ds, |ds|, s, org, tier);
    DecidesBy(t, ds, k, s, org);
  }

  /** The organisation ends on the tier of the event of delivery `k`, or of the provider's answer to it. */
  ghost predicate DecidesTier(t: Tables, ds: seq<Delivery>, k: nat, s: string, org: string)
    requires k < |ds|
  {
    if TieBefore(t, ds, k, s)
    then ds[k].seen.Some? && ActiveWith(After(t, ds), org, TierSeen(ds[k].seen.value))
    else ActiveWith(After(t, ds), org, TierOf(ds[k].event))
  }

  lemma DecidesBy(t: Tables, ds: seq<Delivery>, k: nat, s: string, org: string)
    requires s !in t.watermarks && LastEffect(t, ds, |ds|, k, s)
    requires ActiveWith(After(t, ds), org, TierBy(After(t, ds[..k]), ds[k]))
    ensures DecidesTier(t, ds, k, s, org)
  {
    hide After, Decided, TieBefore, TierOf, TierSeen, ActiveWith, Answer;
    var before := After(t, ds[..k]);
    ReconciledOnTies(t, ds, k, s);
    ReconcilesOwn(before, ds[k]);
    OrgsStep(before, ds[k]);
  }

  lemma FreshNoMark(t: Tables, s: string)
    requires Fresh(t)
    ensures s !in t.watermarks
  {
  }

  // ---------- an order that matters ----------

  function StatusEvent(id: string, status: string): Event {
    Event(id, 100, Some("2026-07-29.dahlia"), UPDATED, Payload(Some("sub"), None, None, None, Some(status), Some("org")))
  }

  const BEFORE := Tables(map[], map[], map["org" := Org(true, Free, None, Some("sub"))])
  const PROVIDER := Some(Current("sub", Active))
  const RESUMED := Delivery(StatusEvent("evt_1", "active"), {}, PROVIDER)
  const ENDED := Delivery(StatusEvent("evt_2", "unpaid"), {}, PROVIDER)

  lemma LoneChange(orgs: Orgs, e: Event, decided: Disposition, seen: Option<Observation>, org: string)
    requires orgs.Keys == {org} && seen.Some? && (decided == Reconcile ==> SubscriptionOf(e).Some?)
    ensures ChangeOf(orgs, e, decided, seen).Some? && ChangeOf(orgs, e, decided, seen).value.Keys == {org}
  {
    hide ParseStatus, LinkedOrg;
    assert forall id, row :: id in orgs ==> !Clashes(orgs, id, row);
  }

  /** With one organisation nothing clashes, so every delivery is acknowledged. */
  lemma LoneOrg(t: Tables, d: Delivery, org: string)
    requires t.orgs.Keys == {org} && d.seen.Some?
    requires VersionAccepted(d.event.apiVersion) && d.event.created >= 0
    ensures Answer(t, d) == Acknowledged && Next(t, d).orgs.Keys == {org}
  {
    hide DispositionOf, ChangeOf;
    ReconcilesOwn(t, d);
    LoneChange(t.orgs, d.event, Decided(t, d), d.seen, org);
    OrgsStep(t, d);
  }

  lemma Example()
    ensures BEFORE.orgs.Keys == {"org"} && ActiveWith(BEFORE, "org", Free)
    ensures Unseen(BEFORE, RESUMED.event, "sub") && Unseen(BEFORE, ENDED.event, "sub")
    ensures Concerns(RESUMED.event, "sub", "org") && Concerns(ENDED.event, "sub", "org")
    ensures TierSeen(PROVIDER.value) == Team && TierOf(ENDED.event) == Free
    ensures RESUMED.event.created == ENDED.event.created == 100
    ensures RESUMED.event.id == "evt_1" && ENDED.event.id == "evt_2"
    ensures RESUMED.seen == ENDED.seen == PROVIDER
    ensures VersionAccepted(RESUMED.event.apiVersion) && VersionAccepted(ENDED.event.apiVersion)
  {
    StatusNames();
    KindNames();
  }

  lemma StatusNames()
    ensures ParseStatus("active") == Active && ParseStatus("unpaid") == Unpaid
  {
    var s := "unpaid";
    assert s[0] == 'u';
  }

  lemma KindNames()
    ensures UPDATED != CHECKOUT && UPDATED != DELETED
  {
    assert UPDATED[1] != CHECKOUT[1];
    assert UPDATED[22] != DELETED[22];
  }

  /** Two events of one time, the subscription active at the provider: one order of arrival leaves the
      organisation on the team tier, the other on the free tier. */
  lemma ArrivalDecides()
    ensures ActiveWith(Next(Next(BEFORE, RESUMED), ENDED), "org", Team)
    ensures ActiveWith(Next(Next(BEFORE, ENDED), RESUMED), "org", Free)
  {
    IdOrder();
    Example();
    ArrivalDecidesFor(BEFORE, RESUMED, ENDED);
  }

  lemma ArrivalDecidesFor(t: Tables, lesser: Delivery, greater: Delivery)
    requires t.orgs.Keys == {"org"} && ActiveWith(t, "org", Free)
    requires Unseen(t, lesser.event, "sub") && Unseen(t, greater.event, "sub")
    requires Concerns(lesser.event, "sub", "org") && Concerns(greater.event, "sub", "org")
    requires lesser.seen.Some? && greater.seen.Some?
    requires TierSeen(greater.seen.value) == Team && TierOf(greater.event) == Free
    requires lesser.event.created == greater.event.created >= 0 && StrLt(lesser.event.id, greater.event.id)
    requires VersionAccepted(lesser.event.apiVersion) && VersionAccepted(greater.event.apiVersion)
    ensures ActiveWith(Next(Next(t, lesser), greater), "org", Team)
    ensures ActiveWith(Next(Next(t, greater), lesser), "org", Free)
  {
    hide *;
    LoneOrg(t, lesser, "org");
    LoneOrg(t, greater, "org");
    LoneOrg(Next(t, lesser), greater, "org");
    LoneOrg(Next(t, greater), lesser, "org");
    TieOutcomes(t, lesser, greater, "sub", "org", Free);
  }

  lemma IdOrder()
    ensures StrLt("evt_1", "evt_2")
  {
    var a, b := "evt_1", "evt_2";
    assert a[1..] == "vt_1" && b[1..] == "vt_2" && a[1..][1..] == "t_1" && b[1..][1..] == "t_2";
    assert a[1..][1..][1..] == "_1" && b[1..][1..][1..] == "_2";
    assert a[1..][1..][1..][1..] == "1" && b[1..][1..][1..][1..] == "2";
  }
}

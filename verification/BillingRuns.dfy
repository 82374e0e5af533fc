/** Webhooks over whole runs: delivered in any order, more than once, and after their receipts are
    pruned. */
module BillingRuns {
  import opened Billing
  import opened Ordering
  import opened Outcomes

  /** A delivery, with what it meets: the receipts expired by then, and the provider's answer. */
  datatype Delivery = Delivery(event: Event, expired: set<string>, seen: Option<Observation>)

  ghost function After(t: Tables, ds: seq<Delivery>): Tables {
    if ds == [] then t else Next(After(t, ds[..|ds| - 1]), ds[|ds| - 1])
  }

  ghost function Next(t: Tables, d: Delivery): Tables {
    Delivered(t, d.event, d.expired, d.seen).0
  }

  ghost function Answer(t: Tables, d: Delivery): Reply {
    Delivered(t, d.event, d.expired, d.seen).1
  }

  // ---------- the order of a subscription's events ----------

  function Mark(e: Event): Watermark {
    Watermark(e.created, e.id)
  }

  predicate MarkLe(a: Watermark, b: Watermark) {
    a.created < b.created || (a.created == b.created && StrLe(a.eventId, b.eventId))
  }

  predicate MarkLt(a: Watermark, b: Watermark) {
    a != b && MarkLe(a, b)
  }

  lemma MarkOrder(a: Watermark, b: Watermark, c: Watermark)
    ensures MarkLe(a, a)
    ensures MarkLe(a, b) || MarkLe(b, a)
    ensures MarkLe(a, b) && MarkLe(b, a) ==> a == b
    ensures MarkLe(a, b) && MarkLe(b, c) ==> MarkLe(a, c)
  {
    StrLeReflexive(a.eventId);
    StrLeTotal(a.eventId, b.eventId);
    if StrLe(a.eventId, b.eventId) && StrLe(b.eventId, a.eventId) {
      StrLeAntisymmetric(a.eventId, b.eventId);
    }
    if StrLe(a.eventId, b.eventId) && StrLe(b.eventId, c.eventId) {
      StrLeTransitive(a.eventId, b.eventId, c.eventId);
    }
  }

  lemma NewerIsLater(e: Event, w: Watermark)
    ensures Newer(e.created, e.id, w) <==> MarkLt(w, Mark(e))
    ensures e.created < w.created || (e.created == w.created && StrLe(e.id, w.eventId)) <==> MarkLe(Mark(e), w)
  {
  }

  // ---------- what one delivery does ----------

  /** What the delivery decides for its event. */
  ghost function Decided(t: Tables, d: Delivery): Disposition {
    var pruned := Pruned(t, d.expired);
    DispositionOf(Recorded(pruned, d.event, SubscriptionOf(d.event)), d.event, d.event.id !in pruned.receipts)
  }

  /** The delivery was answered well and did not pass the event over. */
  ghost predicate TakesEffect(t: Tables, d: Delivery) {
    Answer(t, d) == Acknowledged && Decided(t, d) != Ignore
  }

  /** The watermark of one subscription. */
  function MarkOf(t: Tables, s: string): Option<Watermark> {
    if s in t.watermarks then Some(t.watermarks[s]) else None
  }

  /** The watermark moves only for an event of its own that takes effect, which must come after it, and
      becomes that event. */
  lemma WatermarkStep(t: Tables, d: Delivery, s: string)
    ensures TakesEffect(t, d) && SubscriptionOf(d.event) == Some(s) ==>
              && MarkOf(Next(t, d), s) == Some(Mark(d.event))
              && (s in t.watermarks ==> MarkLt(t.watermarks[s], Mark(d.event)))
    ensures !(TakesEffect(t, d) && SubscriptionOf(d.event) == Some(s)) ==> MarkOf(Next(t, d), s) == MarkOf(t, s)
  {
    hide ChangeOf, VersionAccepted, Handled, Reconciled;
    if s in t.watermarks {
      NewerIsLater(d.event, t.watermarks[s]);
      MarkOrder(t.watermarks[s], Mark(d.event), t.watermarks[s]);
    }
  }

  /** An event passed over as already done, or one that does not come after the watermark. */
  lemma PassedOver(t: Tables, d: Delivery, s: string)
    requires Answer(t, d) == Acknowledged && !TakesEffect(t, d) && SubscriptionOf(d.event) == Some(s)
    ensures || (d.event.id in t.receipts && t.receipts[d.event.id].processed)
            || (s in t.watermarks && MarkLe(Mark(d.event), t.watermarks[s]))
  {
  }

  /** A receipt is done only if it was, or if its event has just been acknowledged. */
  lemma ReceiptStep(t: Tables, d: Delivery, id: string)
    requires id in Next(t, d).receipts && Next(t, d).receipts[id].processed
    ensures (id in t.receipts && t.receipts[id].processed) || (id == d.event.id && Answer(t, d) == Acknowledged)
  {
    hide ChangeOf, DispositionOf, VersionAccepted;
  }

  // ---------- effects over a run ----------

  ghost predicate Effective(t: Tables, ds: seq<Delivery>, k: nat, s: string)
    requires k < |ds|
  {
    TakesEffect(After(t, ds[..k]), ds[k]) && SubscriptionOf(ds[k].event) == Some(s)
  }

  lemma AfterStep(t: Tables, ds: seq<Delivery>, k: nat)
    requires k < |ds|
    ensures After(t, ds[..k + 1]) == Next(After(t, ds[..k]), ds[k])
  {
    assert ds[..k + 1][..k] == ds[..k];
  }

  /** Once an event has taken effect the subscription's watermark stays at it or beyond. */
  lemma {:induction false} StaysBeyond(t: Tables, ds: seq<Delivery>, i: nat, j: nat, s: string)
    requires i < j <= |ds| && Effective(t, ds, i, s)
    ensures s in After(t, ds[..j]).watermarks
    ensures MarkLe(Mark(ds[i].event), After(t, ds[..j]).watermarks[s])
  {
    hide TakesEffect, Next;
    var before := After(t, ds[..j - 1]);
    AfterStep(t, ds, j - 1);
    WatermarkStep(before, ds[j - 1], s);
    MarkOrder(Mark(ds[i].event), Mark(ds[i].event), Mark(ds[i].event));
    if i < j - 1 {
      StaysBeyond(t, ds, i, j - 1, s);
      MarkOrder(Mark(ds[i].event), before.watermarks[s], Mark(ds[j - 1].event));
    }
  }

  /** The events of a subscription that take effect do so in their own order, whatever the order and
      number of deliveries and whatever receipts have been pruned; so none takes effect twice. */
  lemma EffectsAscend(t: Tables, ds: seq<Delivery>, i: nat, j: nat, s: string)
    requires i < j < |ds| && Effective(t, ds, i, s) && Effective(t, ds, j, s)
    ensures MarkLt(Mark(ds[i].event), Mark(ds[j].event))
    ensures ds[i].event.id != ds[j].event.id || ds[i].event.created != ds[j].event.created
  {
    hide TakesEffect, Next, After;
    StaysBeyond(t, ds, i, j, s);
    var before := After(t, ds[..j]);
    WatermarkStep(before, ds[j], s);
    var a, w, c := Mark(ds[i].event), before.watermarks[s], Mark(ds[j].event);
    MarkOrder(a, w, c);
    MarkOrder(c, a, w);
    MarkOrder(w, c, w);
  }

  // ---------- the watermark is the newest event ----------

  /** The provider's ids are its own: two deliveries with one id carry one event, up to the version it
      is rendered at. */
  ghost predicate IdsConsistent(ds: seq<Delivery>) {
    forall j, k :: 0 <= j < |ds| && 0 <= k < |ds| && ds[j].event.id == ds[k].event.id ==>
      ds[j].event == ds[k].event.(apiVersion := ds[j].event.apiVersion)
  }

  ghost predicate Acked(t: Tables, ds: seq<Delivery>, k: nat)
    requires k < |ds|
  {
    Answer(After(t, ds[..k]), ds[k]) == Acknowledged
  }

  ghost predicate AckedFor(t: Tables, ds: seq<Delivery>, k: nat, s: string)
    requires k < |ds|
  {
    Acked(t, ds, k) && SubscriptionOf(ds[k].event) == Some(s)
  }

  predicate Fresh(t: Tables) {
    t.receipts == map[] && t.watermarks == map[]
  }

  lemma {:induction false} DoneWasAcked(t: Tables, ds: seq<Delivery>, n: nat, id: string)
    requires Fresh(t) && n <= |ds|
    requires id in After(t, ds[..n]).receipts && After(t, ds[..n]).receipts[id].processed
    ensures exists k :: 0 <= k < n && ds[k].event.id == id && Acked(t, ds, k)
  {
    hide Next, Answer;
    if n > 0 {
      AfterStep(t, ds, n - 1);
      var before := After(t, ds[..n - 1]);
      ReceiptStep(before, ds[n - 1], id);
      if id in before.receipts && before.receipts[id].processed {
        DoneWasAcked(t, ds, n - 1, id);
      }
    }
  }

  /** Every acknowledged event of the subscription is at its watermark or before it. */
  ghost predicate AllBehind(t: Tables, ds: seq<Delivery>, n: nat, s: string)
    requires n <= |ds|
  {
    forall k :: 0 <= k < n && AckedFor(t, ds, k, s) ==>
      s in After(t, ds[..n]).watermarks && MarkLe(Mark(ds[k].event), After(t, ds[..n]).watermarks[s])
  }

  /** The watermark is an acknowledged event of the subscription. */
  ghost predicate MarkIsOneOf(t: Tables, ds: seq<Delivery>, n: nat, s: string)
    requires n <= |ds|
  {
    s in After(t, ds[..n]).watermarks ==>
      exists k :: 0 <= k < n && AckedFor(t, ds, k, s) && After(t, ds[..n]).watermarks[s] == Mark(ds[k].event)
  }

  /** A run that began with no receipts: every acknowledged event is at the watermark or before it, and
      the watermark is one of them. It is the last, in their order, of the events delivered. */
  lemma {:induction false} WatermarkIsNewest(t: Tables, ds: seq<Delivery>, n: nat, s: string)
    requires Fresh(t) && IdsConsistent(ds) && n <= |ds|
    ensures AllBehind(t, ds, n, s) && MarkIsOneOf(t, ds, n, s)
  {
    hide *;
    if n > 0 {
      WatermarkIsNewest(t, ds, n - 1, s);
      NewestStep(t, ds, n - 1, s);
    } else {
      FreshHasNone(t, ds, s);
    }
  }

  lemma FreshHasNone(t: Tables, ds: seq<Delivery>, s: string)
    requires Fresh(t)
    ensures AllBehind(t, ds, 0, s) && MarkIsOneOf(t, ds, 0, s)
  {
  }

  lemma NewestStep(t: Tables, ds: seq<Delivery>, n: nat, s: string)
    requires Fresh(t) && IdsConsistent(ds) && n < |ds|
    requires AllBehind(t, ds, n, s) && MarkIsOneOf(t, ds, n, s)
    ensures AllBehind(t, ds, n + 1, s) && MarkIsOneOf(t, ds, n + 1, s)
  {
    hide Next, Answer, TakesEffect, IdsConsistent, MarkLe, MarkLt, Fresh, After;
    var before, d := After(t, ds[..n]), ds[n];
    AfterStep(t, ds, n);
    WatermarkStep(before, d, s);
    if TakesEffect(before, d) && SubscriptionOf(d.event) == Some(s) {
      EffectIsAcked(before, d);
      assert AckedFor(t, ds, n, s);
      forall k | 0 <= k < n + 1 && AckedFor(t, ds, k, s)
        ensures MarkLe(Mark(ds[k].event), Mark(d.event))
      {
        LaterStill(Mark(ds[k].event), MarkOf(before, s), Mark(d.event));
      }
    } else if AckedFor(t, ds, n, s) {
      PassedOverIsBehind(t, ds, n, s);
    }
  }

  lemma EffectIsAcked(t: Tables, d: Delivery)
    requires TakesEffect(t, d)
    ensures Answer(t, d) == Acknowledged
  {
  }

  lemma LaterStill(a: Watermark, w: Option<Watermark>, c: Watermark)
    ensures MarkLe(c, c)
    ensures w.Some? && MarkLe(a, w.value) && MarkLt(w.value, c) ==> MarkLe(a, c)
  {
    MarkOrder(c, c, c);
    if w.Some? {
      MarkOrder(a, w.value, c);
    }
  }

  /** An event that is passed over does not come after the watermark. */
  lemma PassedOverIsBehind(t: Tables, ds: seq<Delivery>, k: nat, s: string)
    requires Fresh(t) && IdsConsistent(ds) && k < |ds|
    requires AckedFor(t, ds, k, s) && !TakesEffect(After(t, ds[..k]), ds[k])
    requires AllBehind(t, ds, k, s)
    ensures s in After(t, ds[..k]).watermarks && MarkLe(Mark(ds[k].event), After(t, ds[..k]).watermarks[s])
  {
    hide Next, Answer, TakesEffect, MarkLe, MarkLt;
    var before, d := After(t, ds[..k]), ds[k];
    PassedOver(before, d, s);
    if d.event.id in before.receipts && before.receipts[d.event.id].processed {
      DoneWasAcked(t, ds, k, d.event.id);
      var j :| 0 <= j < k && ds[j].event.id == d.event.id && Acked(t, ds, j);
      SameEvent(ds, j, k);
      assert AckedFor(t, ds, j, s);
    }
  }

  lemma SameEvent(ds: seq<Delivery>, j: nat, k: nat)
    requires IdsConsistent(ds) && j < |ds| && k < |ds| && ds[j].event.id == ds[k].event.id
    ensures ds[j].event == ds[k].event.(apiVersion := ds[j].event.apiVersion)
    ensures SubscriptionOf(ds[j].event) == SubscriptionOf(ds[k].event) && Mark(ds[j].event) == Mark(ds[k].event)
    ensures TierOf(ds[j].event) == TierOf(ds[k].event)
  {
  }

  // ---------- the tier follows the newest event ----------

  /** The tier an event stands for. */
  function TierOf(e: Event): Tier {
    if e.kind == CHECKOUT then Team
    else if e.kind == UPDATED && e.data.status.Some? then TierFor(ParseStatus(e.data.status.value))
    else Free
  }

  /** An event of the subscription, naming the organisation, with a status that is recognised. */
  predicate Concerns(e: Event, s: string, org: string) {
    && SubscriptionOf(e) == Some(s)
    && OrgHint(e) == Some(org)
    && (e.kind == UPDATED ==> e.data.status.Some? && !ParseStatus(e.data.status.value).Unknown?)
  }

  /** An event of some other subscription that names some other organisation, or of a kind that changes
      nothing. */
  predicate Elsewhere(e: Event, s: string, org: string) {
    && SubscriptionOf(e) != Some(s)
    && ((OrgHint(e).Some? && OrgHint(e) != Some(org)) || (e.kind != CHECKOUT && e.kind != UPDATED && e.kind != DELETED))
  }

  predicate SameTime(a: Event, b: Event, s: string) {
    SubscriptionOf(a) == Some(s) && SubscriptionOf(b) == Some(s) && a.created == b.created
  }

  /** Different events of the subscription were created at different times. */
  ghost predicate TimesDistinct(ds: seq<Delivery>, s: string) {
    forall j, k :: 0 <= j < |ds| && 0 <= k < |ds| && SameTime(ds[j].event, ds[k].event, s) ==>
      ds[j].event.id == ds[k].event.id
  }

  ghost predicate ActiveWith(t: Tables, org: string, tier: Tier) {
    org in t.orgs && t.orgs[org].active && t.orgs[org].tier == tier
  }

  lemma ReconcilesOwn(t: Tables, d: Delivery)
    ensures Decided(t, d) == Reconcile ==> SubscriptionOf(d.event).Some?
  {
  }

  /** The organisations change only by what the event is let do. */
  lemma OrgsStep(t: Tables, d: Delivery)
    requires Decided(t, d) == Reconcile ==> SubscriptionOf(d.event).Some?
    ensures TakesEffect(t, d) ==>
              && ChangeOf(t.orgs, d.event, Decided(t, d), d.seen).Some?
              && Next(t, d).orgs == ChangeOf(t.orgs, d.event, Decided(t, d), d.seen).value
    ensures !TakesEffect(t, d) ==> Next(t, d).orgs == t.orgs
  {
    hide ChangeOf, DispositionOf;
  }

  lemma ChangeOwn(orgs: Orgs, e: Event, s: string, org: string)
    requires Concerns(e, s, org) && org in orgs && orgs[org].active && Handled(orgs, e).Some?
    ensures var now := Handled(orgs, e).value;
            org in now && now[org].active && now[org].tier == TierOf(e)
  {
  }

  lemma ChangeElsewhere(orgs: Orgs, e: Event, decided: Disposition, seen: Option<Observation>, s: string, org: string)
    requires Elsewhere(e, s, org) && org in orgs
    requires decided == Reconcile ==> SubscriptionOf(e).Some?
    requires ChangeOf(orgs, e, decided, seen).Some?
    ensures var now := ChangeOf(orgs, e, decided, seen).value; org in now && now[org] == orgs[org]
  {
  }

  lemma EffectSetsTier(t: Tables, d: Delivery, s: string, org: string, tier: Tier)
    requires ActiveWith(t, org, tier) && Concerns(d.event, s, org)
    requires Decided(t, d) != Reconcile
    ensures ActiveWith(Next(t, d), org, if TakesEffect(t, d) then TierOf(d.event) else tier)
  {
    hide Next, Decided, Concerns, Handled, Answer;
    OrgsStep(t, d);
    if TakesEffect(t, d) {
      ChangeOwn(t.orgs, d.event, s, org);
    }
  }

  lemma ElsewhereKeepsTier(t: Tables, d: Delivery, s: string, org: string, tier: Tier)
    requires ActiveWith(t, org, tier) && Elsewhere(d.event, s, org)
    ensures ActiveWith(Next(t, d), org, tier)
  {
    hide Next, Decided, Elsewhere, ChangeOf, Answer;
    ReconcilesOwn(t, d);
    OrgsStep(t, d);
    if TakesEffect(t, d) {
      ChangeElsewhere(t.orgs, d.event, Decided(t, d), d.seen, s, org);
    }
  }

  lemma NotReconciled(t: Tables, d: Delivery, s: string)
    requires SubscriptionOf(d.event) == Some(s)
    requires s in t.watermarks && t.watermarks[s].created == d.event.created ==> t.watermarks[s].eventId == d.event.id
    ensures Decided(t, d) != Reconcile
  {
    StrLeReflexive(d.event.id);
  }

  /** For one subscription on an active organisation that its events name, created at distinct times and
      with recognised statuses, every order and every duplication of deliveries, with other
      subscriptions' deliveries between them, ends in the tier of the newest event acknowledged. */
  lemma {:induction false} TierFollowsWatermark(t: Tables, ds: seq<Delivery>, n: nat, s: string, org: string, tier: Tier)
    requires Fresh(t) && ActiveWith(t, org, tier) && n <= |ds|
    requires IdsConsistent(ds) && TimesDistinct(ds, s)
    requires forall k :: 0 <= k < |ds| ==> Concerns(ds[k].event, s, org) || Elsewhere(ds[k].event, s, org)
    ensures s !in After(t, ds[..n]).watermarks ==> ActiveWith(After(t, ds[..n]), org, tier)
    ensures forall k :: 0 <= k < |ds| && SubscriptionOf(ds[k].event) == Some(s) &&
                        MarkOf(After(t, ds[..n]), s) == Some(Mark(ds[k].event)) ==>
              ActiveWith(After(t, ds[..n]), org, TierOf(ds[k].event))
    ensures exists now :: ActiveWith(After(t, ds[..n]), org, now)
  {
    hide Next, Answer, TakesEffect, IdsConsistent, Concerns, Elsewhere, SubscriptionOf, TierOf, MarkLt, TimesDistinct;
    if n > 0 {
      var before, d := After(t, ds[..n - 1]), ds[n - 1];
      TierFollowsWatermark(t, ds, n - 1, s, org, tier);
      AfterStep(t, ds, n - 1);
      var was :| ActiveWith(before, org, was);
      WatermarkStep(before, d, s);
      if Concerns(d.event, s, org) {
        ConcernsOwn(d.event, s, org);
        if s in before.watermarks {
          WatermarkIsNewest(t, ds, n - 1, s);
          TimeTies(t, ds, n - 1, s);
        }
        NotReconciled(before, d, s);
        EffectSetsTier(before, d, s, org, was);
      } else {
        ElsewhereOther(d.event, s, org);
        ElsewhereKeepsTier(before, d, s, org, was);
      }
      forall k | 0 <= k < |ds| && SubscriptionOf(ds[k].event) == Some(s) &&
                 MarkOf(After(t, ds[..n]), s) == Some(Mark(ds[k].event))
        ensures ActiveWith(After(t, ds[..n]), org, TierOf(ds[k].event))
      {
        if TakesEffect(before, d) && SubscriptionOf(d.event) == Some(s) {
          SameEvent(ds, n - 1, k);
        }
      }
    } else {
      assert ds[..0] == [];
    }
  }

  lemma ConcernsOwn(e: Event, s: string, org: string)
    requires Concerns(e, s, org)
    ensures SubscriptionOf(e) == Some(s)
  {
  }

  lemma ElsewhereOther(e: Event, s: string, org: string)
    requires Elsewhere(e, s, org)
    ensures SubscriptionOf(e) != Some(s)
  {
  }

  /** A watermark of the time of a later delivery of its subscription is that delivery's own event. */
  lemma TimeTies(t: Tables, ds: seq<Delivery>, k: nat, s: string)
    requires k < |ds| && TimesDistinct(ds, s) && SubscriptionOf(ds[k].event) == Some(s)
    requires s in After(t, ds[..k]).watermarks
    requires MarkIsOneOf(t, ds, k, s)
    ensures After(t, ds[..k]).watermarks[s].created == ds[k].event.created ==>
              After(t, ds[..k]).watermarks[s].eventId == ds[k].event.id
  {
  }

  lemma NewestDecidesTier(t: Tables, ds: seq<Delivery>, s: string, org: string, tier: Tier, newest: nat)
    requires Fresh(t) && ActiveWith(t, org, tier)
    requires IdsConsistent(ds) && TimesDistinct(ds, s)
    requires forall k :: 0 <= k < |ds| ==> Concerns(ds[k].event, s, org) || Elsewhere(ds[k].event, s, org)
    requires newest < |ds| && AckedFor(t, ds, newest, s)
    requires forall k :: 0 <= k < |ds| && AckedFor(t, ds, k, s) ==> ds[k].event.created <= ds[newest].event.created
    ensures ActiveWith(After(t, ds), org, TierOf(ds[newest].event))
  {
    hide Next, Answer, IdsConsistent, Concerns, Elsewhere, SubscriptionOf, TierOf, After, Fresh;
    assert ds[..|ds|] == ds;
    WatermarkIsNewest(t, ds, |ds|, s);
    var k :| 0 <= k < |ds| && AckedFor(t, ds, k, s) && After(t, ds[..|ds|]).watermarks[s] == Mark(ds[k].event);
    assert ds[k].event.id == ds[newest].event.id;
    SameEvent(ds, k, newest);
    TierFollowsWatermark(t, ds, |ds|, s, org, tier);
  }

  // ---------- what every delivery keeps ----------

  /** The receipt of every watermark's event is there. */
  ghost predicate WatermarksBacked(t: Tables) {
    forall s :: s in t.watermarks ==> t.watermarks[s].eventId in t.receipts
  }

  lemma AssignKeepsLinks(orgs: Orgs, id: string, change: Org -> Org)
    requires LinksUnique(orgs)
    ensures AssignActive(orgs, id, change).Some? ==> LinksUnique(AssignActive(orgs, id, change).value)
  {
  }

  lemma ChangeKeepsLinks(orgs: Orgs, e: Event, decided: Disposition, seen: Option<Observation>)
    requires LinksUnique(orgs) && (decided == Reconcile ==> SubscriptionOf(e).Some?)
    ensures ChangeOf(orgs, e, decided, seen).Some? ==> LinksUnique(ChangeOf(orgs, e, decided, seen).value)
  {
    hide LinksUnique, AssignActive, ParseStatus, LinkedOrg;
    forall id: string, change: Org -> Org
      ensures AssignActive(orgs, id, change).Some? ==> LinksUnique(AssignActive(orgs, id, change).value)
    {
      AssignKeepsLinks(orgs, id, change);
    }
  }

  lemma KeptByDelivery(t: Tables, d: Delivery)
    requires WatermarksBacked(t) && LinksUnique(t.orgs)
    ensures WatermarksBacked(Next(t, d)) && LinksUnique(Next(t, d).orgs)
  {
    hide ChangeOf, DispositionOf, LinksUnique, Handled, Reconciled, Clashes, VersionAccepted;
    ReconcilesOwn(t, d);
    OrgsStep(t, d);
    if TakesEffect(t, d) {
      ChangeKeepsLinks(t.orgs, d.event, Decided(t, d), d.seen);
    }
  }

  /** No pruning ever takes the receipt a watermark stands on, and no two organisations ever share a
      subscription. */
  lemma {:induction false} KeptByRun(t: Tables, ds: seq<Delivery>)
    requires WatermarksBacked(t) && LinksUnique(t.orgs)
    ensures WatermarksBacked(After(t, ds)) && LinksUnique(After(t, ds).orgs)
  {
    hide Next, WatermarksBacked, LinksUnique;
    if ds != [] {
      KeptByRun(t, ds[..|ds| - 1]);
      KeptByDelivery(After(t, ds[..|ds| - 1]), ds[|ds| - 1]);
    }
  }

  /** Refusing an event for its version takes nothing from it: delivered again at a version that is
      accepted, it may do what it could have done at first. */
  lemma RefusalCostsNothing(t: Tables, e: Event, version: Option<string>, seen: Option<Observation>)
    requires !VersionAccepted(e.apiVersion) && e.created >= 0
    ensures Answer(t, Delivery(e, {}, seen)) == Refused
    ensures var t2 := Next(t, Delivery(e, {}, seen));
            var again := Delivery(e.(apiVersion := version), {}, seen);
            && t2.orgs == t.orgs && t2.watermarks == t.watermarks
            && Decided(t2, again) == Decided(t, again)
            && (VersionAccepted(version) ==> TakesEffect(t2, again) == TakesEffect(t, again))
  {
    hide ChangeOf, VersionAccepted;
    assert SubscriptionOf(e.(apiVersion := version)) == SubscriptionOf(e);
  }
}

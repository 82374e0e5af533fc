/** The customer and subscription a checkout writes, and how later events find the organisation by them;
    what statuses mean; what receipts hold. */
module BillingLinks {
  import opened Billing
  import opened BillingRuns
  import opened BillingTies
  import opened Outcomes

  predicate SameCustomer(a: Org, b: Org) {
    a.customer.Some? && a.customer == b.customer
  }

  ghost predicate CustomersUnique(orgs: Orgs) {
    forall a, b :: a in orgs && b in orgs && SameCustomer(orgs[a], orgs[b]) ==> a == b
  }

  lemma AssignKeepsCustomers(orgs: Orgs, id: string, change: Org -> Org)
    requires CustomersUnique(orgs)
    ensures AssignActive(orgs, id, change).Some? ==> CustomersUnique(AssignActive(orgs, id, change).value)
  {
  }

  lemma ChangeKeepsCustomers(orgs: Orgs, e: Event, decided: Disposition, seen: Option<Observation>)
    requires CustomersUnique(orgs) && (decided == Reconcile ==> SubscriptionOf(e).Some?)
    ensures ChangeOf(orgs, e, decided, seen).Some? ==> CustomersUnique(ChangeOf(orgs, e, decided, seen).value)
  {
    hide CustomersUnique, AssignActive, ParseStatus, LinkedOrg;
    forall id: string, change: Org -> Org
      ensures AssignActive(orgs, id, change).Some? ==> CustomersUnique(AssignActive(orgs, id, change).value)
    {
      AssignKeepsCustomers(orgs, id, change);
    }
  }

  /** No run ever lets two organisations share a customer. */
  lemma {:induction false} CustomersStayUnique(t: Tables, ds: seq<Delivery>)
    requires CustomersUnique(t.orgs)
    ensures CustomersUnique(After(t, ds).orgs)
  {
    hide Next, CustomersUnique, ChangeOf, TakesEffect, Decided;
    if ds != [] {
      var before, d := After(t, ds[..|ds| - 1]), ds[|ds| - 1];
      CustomersStayUnique(t, ds[..|ds| - 1]);
      ReconcilesOwn(before, d);
      OrgsStep(before, d);
      if TakesEffect(before, d) {
        ChangeKeepsCustomers(before.orgs, d.event, Decided(before, d), d.seen);
      }
    }
  }

  // ---------- a checkout links its organisation ----------

  predicate IsCheckout(e: Event, org: string) {
    e.kind == "checkout.session.completed" && e.data.clientReference == Some(org)
  }

  /** A checkout that applies puts the active organisation it names on the team tier, with the customer
      and the subscription of the session, and touches no other. */
  lemma CheckoutLinks(t: Tables, d: Delivery, org: string)
    requires IsCheckout(d.event, org) && org in t.orgs && t.orgs[org].active
    requires TakesEffect(t, d) && Decided(t, d) == Apply
    ensures var now := Next(t, d).orgs;
            && now.Keys == t.orgs.Keys
            && now[org].active && now[org].tier == Team
            && now[org].customer == d.event.data.customer
            && now[org].subscription == d.event.data.subscription
            && forall other :: other in t.orgs && other != org ==> now[other] == t.orgs[other]
  {
    hide Next, TakesEffect, Decided, Clashes;
    OrgsStep(t, d);
  }

  /** A checkout that names no organisation, or none that is active, changes none. */
  lemma CheckoutOfNone(t: Tables, d: Delivery)
    requires d.event.kind == "checkout.session.completed" && Decided(t, d) == Apply
    requires match d.event.data.clientReference
             case None => true
             case Some(org) => org !in t.orgs || !t.orgs[org].active
    ensures Next(t, d).orgs == t.orgs
  {
    hide Next, TakesEffect, Decided, Clashes;
    OrgsStep(t, d);
  }

  lemma LinkFinds(orgs: Orgs, s: string, org: string)
    requires LinksUnique(orgs) && org in orgs && orgs[org].subscription == Some(s)
    ensures LinkedOrg(orgs, s) == Some(org)
  {
    assert Linked(orgs, s, org);
    var found := LinkedOrg(orgs, s).value;
    assert SameLink(orgs[found], orgs[org]);
  }

  /** An event of the subscription that names no organisation. */
  predicate Unnamed(e: Event, kind: string, s: string) {
    e.kind == kind && e.data.id == Some(s) && e.data.metadataOrg.None?
  }

  /** The deletion of a linked subscription frees its organisation, found by the link alone. */
  lemma DeletionFrees(t: Tables, d: Delivery, s: string, org: string)
    requires LinksUnique(t.orgs) && CustomersUnique(t.orgs)
    requires org in t.orgs && t.orgs[org].active && t.orgs[org].subscription == Some(s)
    requires Unnamed(d.event, "customer.subscription.deleted", s) && Unseen(t, d.event, s)
    ensures OrgForSubscription(t.orgs, d.event.data) == Some(org)
    ensures Answer(t, d) == Acknowledged
    ensures var now := Next(t, d).orgs;
            && now.Keys == t.orgs.Keys
            && now[org].active && now[org].tier == Free && now[org].subscription == None
            && now[org].customer == t.orgs[org].customer
            && forall other :: other in t.orgs && other != org ==> now[other] == t.orgs[other]
  {
    hide Next, Decided, DispositionOf, CustomersUnique, LinksUnique, LinkedOrg, Clashes;
    LinkFinds(t.orgs, s, org);
    FirstApplies(t, d, s);
    NoClash(t.orgs, org);
    ActsWell(t, d);
    OrgsStep(t, d);
  }

  /** Freeing an organisation clashes with no other. */
  lemma NoClash(orgs: Orgs, org: string)
    requires CustomersUnique(orgs) && org in orgs
    ensures !Clashes(orgs, org, orgs[org].(tier := Free, subscription := None))
  {
    forall other | other in orgs && other != org
      ensures !(orgs[org].customer.Some? && orgs[other].customer == orgs[org].customer)
    {
      assert !SameCustomer(orgs[org], orgs[other]);
    }
  }

  /** A delivery whose change goes through is acknowledged. */
  lemma ActsWell(t: Tables, d: Delivery)
    requires VersionAccepted(d.event.apiVersion) && d.event.created >= 0 && Decided(t, d) == Apply
    ensures Answer(t, d) == Acknowledged <==> Handled(t.orgs, d.event).Some?
    ensures Answer(t, d) == Acknowledged ==> TakesEffect(t, d)
  {
    hide DispositionOf, Handled, VersionAccepted;
  }

  /** Across the two handlers: once a checkout has been acknowledged, an event of its subscription that
      names no organisation finds that organisation, and the subscription's deletion frees it. */
  lemma CheckoutThenDeletion(t: Tables, d: Delivery, gone: Delivery, s: string, org: string)
    requires LinksUnique(t.orgs) && CustomersUnique(t.orgs)
    requires IsCheckout(d.event, org) && org in t.orgs && t.orgs[org].active
    requires Unseen(t, d.event, s) && Answer(t, d) == Acknowledged
    requires Unnamed(gone.event, "customer.subscription.deleted", s) && VersionAccepted(gone.event.apiVersion)
    requires gone.event.created > d.event.created
    requires gone.event.id !in t.receipts && gone.event.id != d.event.id
    ensures OrgForSubscription(Next(t, d).orgs, gone.event.data) == Some(org)
    ensures Answer(Next(t, d), gone) == Acknowledged
    ensures var now := Next(Next(t, d), gone).orgs;
            && now.Keys == t.orgs.Keys
            && now[org].tier == Free && now[org].subscription == None
            && now[org].customer == d.event.data.customer
            && forall other :: other in t.orgs && other != org ==> now[other] == t.orgs[other]
  {
    hide Next, Answer, TakesEffect, Decided, LinksUnique, CustomersUnique, VersionAccepted, OrgForSubscription;
    FirstApplies(t, d, s);
    FirstApplied(t, d, s);
    CheckoutLinks(t, d, org);
    UniqueNext(t, d);
    DeletionFrees(Next(t, d), gone, s, org);
  }

  lemma UniqueNext(t: Tables, d: Delivery)
    requires LinksUnique(t.orgs) && CustomersUnique(t.orgs)
    ensures LinksUnique(Next(t, d).orgs) && CustomersUnique(Next(t, d).orgs)
  {
    hide Next, LinksUnique, CustomersUnique, ChangeOf, TakesEffect, Decided;
    ReconcilesOwn(t, d);
    OrgsStep(t, d);
    if TakesEffect(t, d) {
      ChangeKeepsLinks(t.orgs, d.event, Decided(t, d), d.seen);
      ChangeKeepsCustomers(t.orgs, d.event, Decided(t, d), d.seen);
    }
  }

  // ---------- how a delivery is answered ----------

  /** An event is refused exactly when its version is none of the three accepted; one created before the
      epoch fails, and so does one whose lookup at the provider fails; one that is passed over is
      acknowledged. */
  lemma AnswersWhen(t: Tables, d: Delivery)
    ensures d.event.created < 0 ==> Answer(t, d) == Failed
    ensures Answer(t, d) == Refused <==>
              && d.event.created >= 0
              && d.event.apiVersion != Some("2026-06-24.dahlia") && d.event.apiVersion != Some("2026-07-29.dahlia")
              && d.event.apiVersion != Some("2026-08-26.dahlia")
    ensures d.event.created >= 0 && Answer(t, d) != Refused ==>
              && (Decided(t, d) == Ignore ==> Answer(t, d) == Acknowledged)
              && (Decided(t, d) == Reconcile && d.seen.None? ==> Answer(t, d) == Failed)
  {
    hide DispositionOf, Handled, Reconciled;
  }

  /** A row of another organisation has the customer or the subscription of the session. */
  ghost predicate TakenByOther(orgs: Orgs, data: Payload, org: string, other: string) {
    && other in orgs && other != org
    && ((data.customer.Some? && orgs[other].customer == data.customer)
        || (data.subscription.Some? && orgs[other].subscription == data.subscription))
  }

  /** A checkout of an active organisation fails exactly when another already has its customer or its
      subscription, unless the organisation's row says all of it already. */
  lemma CheckoutFailsWhen(t: Tables, d: Delivery, org: string)
    requires IsCheckout(d.event, org) && org in t.orgs && t.orgs[org].active
    requires VersionAccepted(d.event.apiVersion) && d.event.created >= 0 && Decided(t, d) == Apply
    ensures Answer(t, d) == Failed <==>
            && !(t.orgs[org].tier == Team && t.orgs[org].customer == d.event.data.customer
                 && t.orgs[org].subscription == d.event.data.subscription)
            && exists other :: TakenByOther(t.orgs, d.event.data, org, other)
  {
    hide Decided, VersionAccepted;
    ActsWell(t, d);
    NotRefused(t, d);
    var row := t.orgs[org].(tier := Team, customer := d.event.data.customer, subscription := d.event.data.subscription);
    ClashIsTaken(t.orgs, d.event.data, org, row);
  }

  lemma NotRefused(t: Tables, d: Delivery)
    requires VersionAccepted(d.event.apiVersion)
    ensures Answer(t, d) != Refused
  {
  }

  lemma ClashIsTaken(orgs: Orgs, data: Payload, org: string, row: Org)
    requires row.customer == data.customer && row.subscription == data.subscription
    ensures Clashes(orgs, org, row) <==> exists other :: TakenByOther(orgs, data, org, other)
  {
    if Clashes(orgs, org, row) {
      var other :| other in orgs && other != org &&
                   ((row.customer.Some? && orgs[other].customer == row.customer)
                    || (row.subscription.Some? && orgs[other].subscription == row.subscription));
      assert TakenByOther(orgs, data, org, other);
    }
    if other :| TakenByOther(orgs, data, org, other) {
      assert other in orgs;
    }
  }

  // ---------- what a status means ----------

  /** An update that applies to an active organisation, named or linked: three statuses put it on the team
      tier, five on the free one, any other changes nothing; and nothing but its tier ever changes. */
  lemma StatusSetsTier(t: Tables, d: Delivery, org: string, status: string)
    requires d.event.kind == "customer.subscription.updated" && d.event.data.status == Some(status)
    requires OrgForSubscription(t.orgs, d.event.data) == Some(org) && org in t.orgs && t.orgs[org].active
    requires TakesEffect(t, d) && Decided(t, d) == Apply
    ensures Next(t, d).orgs.Keys == t.orgs.Keys
    ensures Next(t, d).orgs[org] ==
            t.orgs[org].(tier :=
              if status == "active" || status == "trialing" || status == "past_due" then Team
              else if status == "incomplete" || status == "paused" || status == "unpaid" || status == "canceled"
                      || status == "incomplete_expired" then Free
              else t.orgs[org].tier)
    ensures forall other :: other in t.orgs && other != org ==> Next(t, d).orgs[other] == t.orgs[other]
  {
    hide Next, TakesEffect, Decided, Clashes, OrgForSubscription;
    OrgsStep(t, d);
    KindNames();
    UpdateIsNoCheckout();
  }

  lemma UpdateIsNoCheckout()
    ensures "customer.subscription.updated" != "checkout.session.completed"
  {
    assert "customer.subscription.updated"[1] != "checkout.session.completed"[1];
  }

  // ---------- receipts ----------

  /** The receipt a delivery records when its event had none: what the event says of itself, done exactly
      when it was acknowledged. */
  lemma ReceiptOf(t: Tables, d: Delivery)
    requires Answer(t, d) != Failed && d.event.id !in t.receipts
    ensures d.event.id in Next(t, d).receipts
    ensures var receipt := Next(t, d).receipts[d.event.id];
            && receipt.kind == d.event.kind && receipt.created == d.event.created
            && receipt.apiVersion == (if d.event.apiVersion.Some? then d.event.apiVersion.value else "missing")
            && receipt.subscription == (if Answer(t, d) == Refused then None else SubscriptionOf(d.event))
            && (receipt.processed <==> Answer(t, d) == Acknowledged)
  {
    hide ChangeOf, DispositionOf, VersionAccepted;
  }

  lemma FailureChangesNothing(t: Tables, d: Delivery)
    requires Answer(t, d) == Failed
    ensures Next(t, d) == t
  {
    hide ChangeOf, DispositionOf, Pruned, Recorded, Processed, Settled, VersionAccepted;
  }

  /** Of the other receipts, exactly the expired ones that no watermark refers to go, and none changes. */
  lemma OtherReceipts(t: Tables, d: Delivery, id: string)
    requires id != d.event.id && Answer(t, d) != Failed
    ensures id in Next(t, d).receipts <==>
            id in t.receipts && (id in d.expired ==> exists s :: s in t.watermarks && t.watermarks[s].eventId == id)
    ensures id in Next(t, d).receipts ==> Next(t, d).receipts[id] == t.receipts[id]
  {
    hide ChangeOf, DispositionOf, VersionAccepted, SubscriptionOf, Newer;
  }
}

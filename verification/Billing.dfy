/** Stripe webhooks: receipts, one watermark per subscription, and the organisations they pay for. */
module Billing {
  import opened Ordering
  import opened Outcomes

  // ---------- events ----------

  /** The text fields of an event that are read; a missing one, or one that is no text, is
      absent. */
  datatype Payload = Payload(
    id: Option<string>, subscription: Option<string>, clientReference: Option<string>,
    customer: Option<string>, status: Option<string>, metadataOrg: Option<string>)

  datatype Event = Event(id: string, created: int, apiVersion: Option<string>, kind: string, data: Payload)

  const CHECKOUT := "checkout.session.completed"
  const UPDATED := "customer.subscription.updated"
  const DELETED := "customer.subscription.deleted"

  predicate VersionAccepted(version: Option<string>) {
    || version == Some("2026-06-24.dahlia")
    || version == Some("2026-07-29.dahlia")
    || version == Some("2026-08-26.dahlia")
  }

  function SubscriptionOf(e: Event): Option<string> {
    if e.kind == CHECKOUT then e.data.subscription
    else if e.kind == UPDATED || e.kind == DELETED then e.data.id
    else None
  }

  function OrgHint(e: Event): Option<string> {
    if e.kind == CHECKOUT then e.data.clientReference
    else if e.kind == UPDATED || e.kind == DELETED then e.data.metadataOrg
    else None
  }

  datatype Tier = Team | Free

  datatype SubscriptionStatus =
    | Active | Trialing | PastDue | Incomplete | Paused | Unpaid | Canceled | IncompleteExpired
    | Unknown(text: string)

  function ParseStatus(s: string): SubscriptionStatus {
    if s == "active" then Active
    else if s == "trialing" then Trialing
    else if s == "past_due" then PastDue
    else if s == "incomplete" then Incomplete
    else if s == "paused" then Paused
    else if s == "unpaid" then Unpaid
    else if s == "canceled" then Canceled
    else if s == "incomplete_expired" then IncompleteExpired
    else Unknown(s)
  }

  function TierFor(status: SubscriptionStatus): Tier {
    if status.Active? || status.Trialing? || status.PastDue? then Team else Free
  }

  datatype Observation = Current(id: string, status: SubscriptionStatus) | Missing

  // ---------- tables ----------

  datatype Receipt = Receipt(kind: string, apiVersion: string, created: int, subscription: Option<string>,
                             processed: bool)
  datatype Watermark = Watermark(created: int, eventId: string)
  datatype Org = Org(active: bool, tier: Tier, customer: Option<string>, subscription: Option<string>)

  type Orgs = map<string, Org>
  datatype Tables = Tables(receipts: map<string, Receipt>, watermarks: map<string, Watermark>, orgs: Orgs)

  datatype Disposition = Apply | Reconcile | Ignore
  datatype Reply = Acknowledged | Refused | Failed

  /** The order of events of one subscription: creation time, then id. The program compares ids as
      bytes and the database by its collation; one order stands for both. */
  predicate Newer(created: int, id: string, w: Watermark) {
    created > w.created || (created == w.created && StrLt(w.eventId, id))
  }

  // ---------- statements ----------

  /** Expired receipts go, unless a watermark refers to them. */
  function Pruned(t: Tables, expired: set<string>): Tables {
    t.(receipts := map id | id in t.receipts &&
                            (id !in expired || exists s | s in t.watermarks :: t.watermarks[s].eventId == id)
                       :: t.receipts[id])
  }

  function Recorded(t: Tables, e: Event, subscription: Option<string>): Tables {
    if e.id in t.receipts then t
    else
      var version := if e.apiVersion.Some? then e.apiVersion.value else "missing";
      t.(receipts := t.receipts[e.id := Receipt(e.kind, version, e.created, subscription, false)])
  }

  function Processed(t: Tables, id: string): Tables {
    if id in t.receipts then t.(receipts := t.receipts[id := t.receipts[id].(processed := true)]) else t
  }

  function Watermarked(t: Tables, e: Event, s: string): Tables {
    if s !in t.watermarks || Newer(e.created, e.id, t.watermarks[s])
    then t.(watermarks := t.watermarks[s := Watermark(e.created, e.id)])
    else t
  }

  /** What an event may do, given the tables after its receipt was recorded and whether that was new. */
  function DispositionOf(t: Tables, e: Event, isNew: bool): Disposition {
    if !isNew && e.id in t.receipts && t.receipts[e.id].processed then Ignore
    else
      match SubscriptionOf(e)
      case None => Apply
      case Some(s) =>
        if s !in t.watermarks then Apply
        else
          var w := t.watermarks[s];
          if e.created < w.created || (e.created == w.created && StrLe(e.id, w.eventId)) then Ignore
          else if e.created == w.created then Reconcile
          else Apply
  }

  /** An organisation's row with new values; two organisations share no customer and no subscription. */
  predicate Clashes(orgs: Orgs, id: string, org: Org) {
    exists other | other in orgs && other != id ::
      || (org.customer.Some? && orgs[other].customer == org.customer)
      || (org.subscription.Some? && orgs[other].subscription == org.subscription)
  }

  function Assign(orgs: Orgs, id: string, org: Org): Option<Orgs>
    requires id in orgs
  {
    if org == orgs[id] then Some(orgs)
    else if Clashes(orgs, id, org) then None
    else Some(orgs[id := org])
  }

  /** The statements touch active organisations only. */
  function AssignActive(orgs: Orgs, id: string, change: Org -> Org): Option<Orgs> {
    if id in orgs && orgs[id].active then Assign(orgs, id, change(orgs[id])) else Some(orgs)
  }

  predicate SameLink(a: Org, b: Org) {
    a.subscription.Some? && a.subscription == b.subscription
  }

  ghost predicate LinksUnique(orgs: Orgs) {
    forall a, b :: a in orgs && b in orgs && SameLink(orgs[a], orgs[b]) ==> a == b
  }

  ghost predicate Linked(orgs: Orgs, s: string, id: string) {
    id in orgs && orgs[id].subscription == Some(s)
  }

  ghost function LinkedOrg(orgs: Orgs, s: string): Option<string> {
    if id :| Linked(orgs, s, id) then Some(id) else None
  }

  ghost function OrgForSubscription(orgs: Orgs, data: Payload): Option<string> {
    if data.metadataOrg.Some? then data.metadataOrg
    else if data.id.None? then None
    else LinkedOrg(orgs, data.id.value)
  }

  function Subscribed(data: Payload): Org -> Org {
    (org: Org) => org.(tier := Team, customer := data.customer, subscription := data.subscription)
  }

  function Retiered(tier: Tier): Org -> Org {
    (org: Org) => org.(tier := tier)
  }

  function Relinked(tier: Tier, subscription: Option<string>): Org -> Org {
    (org: Org) => org.(tier := tier, subscription := subscription)
  }

  ghost function CheckedOut(orgs: Orgs, data: Payload): Option<Orgs> {
    if data.clientReference.None? then Some(orgs)
    else AssignActive(orgs, data.clientReference.value, Subscribed(data))
  }

  ghost function Updated(orgs: Orgs, data: Payload): Option<Orgs> {
    var org := OrgForSubscription(orgs, data);
    if org.None? || data.status.None? || ParseStatus(data.status.value).Unknown? then Some(orgs)
    else AssignActive(orgs, org.value, Retiered(TierFor(ParseStatus(data.status.value))))
  }

  ghost function Ended(orgs: Orgs, data: Payload): Option<Orgs> {
    var org := OrgForSubscription(orgs, data);
    if org.None? then Some(orgs) else AssignActive(orgs, org.value, Relinked(Free, None))
  }

  ghost function Handled(orgs: Orgs, e: Event): Option<Orgs> {
    if e.kind == CHECKOUT then CheckedOut(orgs, e.data)
    else if e.kind == UPDATED then Updated(orgs, e.data)
    else if e.kind == DELETED then Ended(orgs, e.data)
    else Some(orgs)
  }

  ghost function Reconciled(orgs: Orgs, seen: Observation, s: string, hint: Option<string>): Option<Orgs> {
    var org := if hint.Some? then hint else LinkedOrg(orgs, s);
    if org.None? then Some(orgs)
    else
      match seen
      case Current(id, status) => AssignActive(orgs, org.value, Relinked(TierFor(status), Some(id)))
      case Missing => AssignActive(orgs, org.value, Relinked(Free, None))
  }

  // ---------- one delivery ----------

  /** The event took effect: its change to the organisations, its watermark, its receipt done. */
  function Settled(t: Tables, e: Event, orgs: Orgs): Tables {
    var marked := match SubscriptionOf(e)
      case None => t.(orgs := orgs)
      case Some(s) => Watermarked(t.(orgs := orgs), e, s);
    Processed(marked, e.id)
  }

  /** The change of an event that may act; nothing when a lookup or a statement fails. */
  ghost function ChangeOf(orgs: Orgs, e: Event, d: Disposition, seen: Option<Observation>): Option<Orgs>
    requires d == Reconcile ==> SubscriptionOf(e).Some?
  {
    if d == Apply then Handled(orgs, e)
    else if d == Reconcile then
      (if seen.None? then None else Reconciled(orgs, seen.value, SubscriptionOf(e).value, OrgHint(e)))
    else Some(orgs)
  }

  /** The tables after a delivery is answered, and the answer. `expired` are the receipts old enough to
      go, `seen` what the provider would say of the subscription (nothing if the lookup fails). */
  ghost function Delivered(t: Tables, e: Event, expired: set<string>, seen: Option<Observation>): (Tables, Reply) {
    if e.created < 0 then (t, Failed)
    else if !VersionAccepted(e.apiVersion) then (Recorded(Pruned(t, expired), e, None), Refused)
    else
      var pruned := Pruned(t, expired);
      var recorded := Recorded(pruned, e, SubscriptionOf(e));
      var isNew := e.id !in pruned.receipts;
      var d := DispositionOf(recorded, e, isNew);
      if d == Ignore then (Processed(recorded, e.id), Acknowledged)
      else
        match ChangeOf(recorded.orgs, e, d, seen)
        case None => (t, Failed)
        case Some(orgs) => (Settled(recorded, e, orgs), Acknowledged)
  }

  // ---------- the server ----------

  class Server {
    var receipts: map<string, Receipt>
    var watermarks: map<string, Watermark>
    var orgs: Orgs

    ghost function View(): Tables
      reads this
    {
      Tables(receipts, watermarks, orgs)
    }

    constructor (orgs: Orgs)
      ensures View() == Tables(map[], map[], orgs)
    {
      receipts, watermarks, this.orgs := map[], map[], orgs;
    }

    method PruneWebhookEvents(expired: set<string>)
      modifies this`receipts
      ensures View() == Pruned(old(View()), expired)
    {
      receipts := map id | id in receipts &&
                           (id !in expired || exists s | s in watermarks :: watermarks[s].eventId == id)
                      :: receipts[id];
    }

    /** A receipt's creation time must not be negative. */
    method RecordWebhookReceipt(e: Event, subscription: Option<string>) returns (inserted: Option<bool>)
      modifies this`receipts
      ensures inserted.None? <==> e.created < 0
      ensures inserted.None? ==> View() == old(View())
      ensures inserted.Some? ==> View() == Recorded(old(View()), e, subscription)
      ensures inserted.Some? ==> (inserted.value <==> e.id !in old(View()).receipts)
    {
      if e.created < 0 {
        return None;
      }
      if e.id in receipts {
        return Some(false);
      }
      var version := if e.apiVersion.Some? then e.apiVersion.value else "missing";
      receipts := receipts[e.id := Receipt(e.kind, version, e.created, subscription, false)];
      inserted := Some(true);
    }

    method MarkProcessed(id: string)
      modifies this`receipts
      ensures View() == Processed(old(View()), id)
    {
      if id in receipts {
        receipts := receipts[id := receipts[id].(processed := true)];
      }
    }

    method UpdateWatermark(e: Event, s: string)
      modifies this`watermarks
      ensures View() == Watermarked(old(View()), e, s)
    {
      if s !in watermarks || Newer(e.created, e.id, watermarks[s]) {
        watermarks := watermarks[s := Watermark(e.created, e.id)];
      }
    }

    method RecordWebhookEvent(e: Event) returns (d: Option<Disposition>)
      modifies this`receipts
      ensures d.None? <==> e.created < 0
      ensures d.None? ==> View() == old(View())
      ensures d.Some? ==>
                var recorded := Recorded(old(View()), e, SubscriptionOf(e));
                && d.value == DispositionOf(recorded, e, e.id !in old(View()).receipts)
                && View() == if d.value == Ignore then Processed(recorded, e.id) else recorded
    {
      var subscription := SubscriptionOf(e);
      var inserted := RecordWebhookReceipt(e, subscription);
      if inserted.None? {
        return None;
      }
      if !inserted.value {
        if receipts[e.id].processed {
          return Some(Ignore);
        }
      }
      if subscription.None? {
        return Some(Apply);
      }
      var s := subscription.value;
      if s !in watermarks {
        return Some(Apply);
      }
      var w := watermarks[s];
      if e.created < w.created {
        MarkProcessed(e.id);
        return Some(Ignore);
      }
      if e.created == w.created && StrLe(e.id, w.eventId) {
        MarkProcessed(e.id);
        return Some(Ignore);
      }
      d := Some(if e.created == w.created then Reconcile else Apply);
    }

    /** Changes an active organisation, unless another has its customer or subscription. */
    method ChangeOrg(id: string, change: Org -> Org) returns (ok: bool)
      modifies this`orgs
      ensures ok <==> AssignActive(old(orgs), id, change).Some?
      ensures ok ==> orgs == AssignActive(old(orgs), id, change).value
      ensures !ok ==> orgs == old(orgs)
    {
      if id !in orgs || !orgs[id].active {
        return true;
      }
      var org := change(orgs[id]);
      if org != orgs[id] {
        if exists other | other in orgs && other != id ::
             || (org.customer.Some? && orgs[other].customer == org.customer)
             || (org.subscription.Some? && orgs[other].subscription == org.subscription) {
          return false;
        }
        orgs := orgs[id := org];
      }
      ok := true;
    }

    method FindLinked(s: string) returns (r: Option<string>)
      requires LinksUnique(orgs)
      ensures r == LinkedOrg(orgs, s)
    {
      var pending := orgs.Keys;
      while pending != {}
        invariant pending <= orgs.Keys
        invariant forall id :: id in orgs && id !in pending ==> !Linked(orgs, s, id)
        decreases pending
      {
        var id :| id in pending;
        if orgs[id].subscription == Some(s) {
          assert Linked(orgs, s, id);
          return Some(id);
        }
        pending := pending - {id};
      }
      r := None;
    }

    method FindOrg(data: Payload) returns (r: Option<string>)
      requires LinksUnique(orgs)
      ensures r == OrgForSubscription(orgs, data)
    {
      if data.metadataOrg.Some? {
        return data.metadataOrg;
      }
      if data.id.None? {
        return None;
      }
      r := FindLinked(data.id.value);
    }

    method CheckoutCompleted(data: Payload) returns (ok: bool)
      modifies this`orgs
      ensures ok <==> CheckedOut(old(orgs), data).Some?
      ensures orgs == if ok then CheckedOut(old(orgs), data).value else old(orgs)
    {
      if data.clientReference.None? {
        return true;
      }
      ok := ChangeOrg(data.clientReference.value, Subscribed(data));
    }

    method SubscriptionUpdated(data: Payload) returns (ok: bool)
      requires LinksUnique(orgs)
      modifies this`orgs
      ensures ok <==> Updated(old(orgs), data).Some?
      ensures orgs == if ok then Updated(old(orgs), data).value else old(orgs)
    {
      var org := FindOrg(data);
      if org.None? || data.status.None? {
        return true;
      }
      var status := ParseStatus(data.status.value);
      if status.Unknown? {
        return true;
      }
      ok := ChangeOrg(org.value, Retiered(TierFor(status)));
    }

    method SubscriptionDeleted(data: Payload) returns (ok: bool)
      requires LinksUnique(orgs)
      modifies this`orgs
      ensures ok <==> Ended(old(orgs), data).Some?
      ensures orgs == if ok then Ended(old(orgs), data).value else old(orgs)
    {
      var org := FindOrg(data);
      if org.None? {
        return true;
      }
      ok := ChangeOrg(org.value, Relinked(Free, None));
    }

    method ReconcileSubscription(seen: Observation, s: string, hint: Option<string>) returns (ok: bool)
      requires LinksUnique(orgs)
      modifies this`orgs
      ensures ok <==> Reconciled(old(orgs), seen, s, hint).Some?
      ensures orgs == if ok then Reconciled(old(orgs), seen, s, hint).value else old(orgs)
    {
      var org := hint;
      if org.None? {
        org := FindLinked(s);
      }
      if org.None? {
        return true;
      }
      match seen
      case Current(id, status) => ok := ChangeOrg(org.value, Relinked(TierFor(status), Some(id)));
      case Missing => ok := ChangeOrg(org.value, Relinked(Free, None));
    }

    /** The handlers, and reconciliation, for an event that may act. */
    method Act(e: Event, d: Disposition, seen: Option<Observation>) returns (ok: bool)
      requires LinksUnique(orgs) && d != Ignore && (d == Reconcile ==> SubscriptionOf(e).Some?)
      modifies this`orgs
      ensures ok <==> ChangeOf(old(orgs), e, d, seen).Some?
      ensures orgs == if ok then ChangeOf(old(orgs), e, d, seen).value else old(orgs)
    {
      if d == Reconcile {
        if seen.None? {
          return false;
        }
        ok := ReconcileSubscription(seen.value, SubscriptionOf(e).value, OrgHint(e));
      } else if e.kind == CHECKOUT {
        ok := CheckoutCompleted(e.data);
      } else if e.kind == UPDATED {
        ok := SubscriptionUpdated(e.data);
      } else if e.kind == DELETED {
        ok := SubscriptionDeleted(e.data);
      } else {
        ok := true;
      }
    }

    /** One delivery, its transaction rolled back when it fails. */
    method Webhook(e: Event, expired: set<string>, seen: Option<Observation>) returns (reply: Reply)
      requires LinksUnique(orgs)
      modifies this
      ensures (View(), reply) == Delivered(old(View()), e, expired, seen)
    {
      hide LinksUnique, Pruned, Recorded, Processed, Watermarked, ChangeOf;
      var oldReceipts, oldWatermarks, oldOrgs := receipts, watermarks, orgs;
      PruneWebhookEvents(expired);
      if !VersionAccepted(e.apiVersion) {
        var recorded := RecordWebhookReceipt(e, None);
        if recorded.None? {
          receipts := oldReceipts;
          return Failed;
        }
        return Refused;
      }
      var d := RecordWebhookEvent(e);
      if d.None? {
        receipts := oldReceipts;
        return Failed;
      }
      if d.value == Ignore {
        return Acknowledged;
      }
      var ok := Act(e, d.value, seen);
      if !ok {
        receipts, watermarks, orgs := oldReceipts, oldWatermarks, oldOrgs;
        return Failed;
      }
      if SubscriptionOf(e).Some? {
        UpdateWatermark(e, SubscriptionOf(e).value);
      }
      MarkProcessed(e.id);
      reply := Acknowledged;
    }
  }
}

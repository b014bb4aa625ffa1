/**
 Billing webhooks and subscriptions: two webhook paths that register an event id and apply it
 in one transaction, and the administrator's cancel and resume.  A subscription row is found by
 its index in `subs`, checkouts are in creation order, times are abstract instants, and
 "one month later" is Go's on some paths and the database's on another.
 */
module Billing {
  import opened Options
  import opened Subscriptions
  import opened EventInbox

  datatype InvoiceStatus = PENDING | PAID | FAILED | VOID | REFUNDED
  datatype CheckoutStatus = OPEN | COMPLETED | EXPIRED

  datatype Invoice = Invoice(
    tenant: string, number: string, status: InvoiceStatus, currency: string,
    subtotal: int, tax: int, total: int, periodStart: Option<int>, periodEnd: Option<int>,
    dueAt: Option<int>, paidAt: Option<int>)

  datatype Checkout = Checkout(tenant: string, plan: string, session: string, reference: string, status: CheckoutStatus)

  /** A row of `billing_subscription_events`. */
  datatype Change = Change(tenant: string, eventType: string, from: Status, to: Status, plan: string)

  /** The rows that foreign keys of the other tables point to: plan keys and tenant ids. */
  datatype Referred = Referred(plans: set<string>, tenants: set<string>)

  /** The tables an event may change; invoices are keyed by provider and provider invoice id. */
  datatype Db = Db(
    subs: seq<Subscription>, invoices: map<Key, Invoice>, checkouts: seq<Checkout>, changes: seq<Change>,
    referred: Referred)

  /** One month later: Go's `AddDate(0, 1, 0)` and the database's `INTERVAL '1 month'` differ at month ends. */
  datatype Calendar = Calendar(goMonth: int -> int, sqlMonth: int -> int)

  // ---------- deliveries ----------

  datatype InvoicePayload = InvoicePayload(
    id: string, number: string, currency: string, subtotal: int, tax: int, total: int,
    periodStart: Option<int>, periodEnd: Option<int>, dueAt: Option<int>, paidAt: Option<int>)

  datatype Payload = Payload(
    id: string, eventType: string, tenant: string, plan: string, customer: string, billingId: string,
    periodStart: Option<int>, periodEnd: Option<int>, invoice: Option<InvoicePayload>)

  datatype XenditEvent =
    | SessionCompleted | SessionExpired | PlanActivated | PlanInactivated
    | CycleCreated | CycleRetrying | CycleSucceeded | CycleFailed | CycleForceAttemptFailed
    | Other(name: string)

  function EventName(event: XenditEvent): string {
    match event
    case SessionCompleted => "payment_session.completed"
    case SessionExpired => "payment_session.expired"
    case PlanActivated => "recurring.plan.activated"
    case PlanInactivated => "recurring.plan.inactivated"
    case CycleCreated => "recurring.cycle.created"
    case CycleRetrying => "recurring.cycle.retrying"
    case CycleSucceeded => "recurring.cycle.succeeded"
    case CycleFailed => "recurring.cycle.failed"
    case CycleForceAttemptFailed => "recurring.cycle.force_attempt_failed"
    case Other(name) => name
  }

  datatype XenditPayload = XenditPayload(
    event: XenditEvent, created: string, id: string, reference: string, planId: string, customer: string,
    session: string, currency: string, amount: int, scheduled: Option<int>)

  /** `hash` is the SHA-256 of the body; any database error rolls the transaction back. */
  datatype Delivery =
    | Generic(provider: string, payload: Payload, hash: string, now: int, outcome: CommitOutcome)
    | Xendit(xendit: XenditPayload, hash: string, now: int, outcome: CommitOutcome)

  // ---------- the generic path ----------

  /** Subscription and invoice status an event type stands for. */
  function StatusOf(eventType: string): Option<(Option<Status>, Option<InvoiceStatus>)> {
    if eventType == "subscription.activated" || eventType == "subscription.renewed" then Some((Some(ACTIVE), None))
    else if eventType == "subscription.past_due" then Some((Some(PAST_DUE), None))
    else if eventType == "subscription.canceled" then Some((Some(CANCELED), None))
    else if eventType == "subscription.suspended" then Some((Some(SUSPENDED), None))
    else if eventType == "invoice.pending" then Some((None, Some(PENDING)))
    else if eventType == "invoice.paid" then Some((Some(ACTIVE), Some(PAID)))
    else if eventType == "invoice.payment_failed" then Some((Some(PAST_DUE), Some(FAILED)))
    else if eventType == "invoice.voided" then Some((None, Some(VOID)))
    else if eventType == "invoice.refunded" then Some((None, Some(REFUNDED)))
    else None
  }

  function Validate(p: Payload): Option<(Option<Status>, Option<InvoiceStatus>)> {
    if p.id == "" || |p.id| > 200 || p.tenant == "" then None
    else
      match StatusOf(p.eventType)
      case None => None
      case Some((status, invoiceStatus)) =>
        if status.Some? && p.plan == "" then None
        else if invoiceStatus.Some? && (p.invoice.None? || p.invoice.value.id == "") then None
        else if p.invoice.Some? && (|p.invoice.value.currency| != 3 || p.invoice.value.subtotal < 0 ||
                                    p.invoice.value.tax < 0 || p.invoice.value.total < 0) then None
        else Some((status, invoiceStatus))
  }

  function FindTenant(subs: seq<Subscription>, tenant: string): (i: nat)
    ensures i <= |subs|
    ensures i < |subs| ==> subs[i].tenant == tenant
  {
    if subs == [] then 0 else if subs[0].tenant == tenant then 0 else FindTenant(subs[1..], tenant) + 1
  }

  function FindBilling(subs: seq<Subscription>, billingId: string): (i: nat)
    ensures i <= |subs|
    ensures i < |subs| ==> subs[i].billingId == Some(billingId)
  {
    if subs == [] then 0 else if subs[0].billingId == Some(billingId) then 0 else FindBilling(subs[1..], billingId) + 1
  }

  /** `billing_subscription_id` is unique: an update that would repeat one fails. */
  predicate BillingIdFree(subs: seq<Subscription>, i: nat, billingId: Option<string>) {
    billingId.Some? ==> forall k | 0 <= k < |subs| :: k != i ==> subs[k].billingId != billingId
  }

  /** So is `billing_customer_id`. */
  predicate CustomerFree(subs: seq<Subscription>, i: nat, customer: Option<string>) {
    customer.Some? ==> forall k | 0 <= k < |subs| :: k != i ==> subs[k].customer != customer
  }

  /** The constraints of `tenant_subscriptions` on an update of row `i`. */
  predicate RowAllowed(db: Db, i: nat, sub: Subscription) {
    BillingIdFree(db.subs, i, sub.billingId) && CustomerFree(db.subs, i, sub.customer) && sub.plan in db.referred.plans
  }

  /** The check `^[A-Z]{3}$` of the invoice table. */
  predicate IsCurrency(s: string) {
    |s| == 3 && forall c <- s :: 'A' <= c <= 'Z'
  }

  function Keep<T>(given: Option<T>, current: Option<T>): Option<T> {
    if given.Some? then given else current
  }

  function NonEmpty(s: string): Option<string> {
    if s == "" then None else Some(s)
  }

  /** Sets row `i` and records the change; fails on a repeated billing id or customer and on an unknown plan. */
  function Record(db: Db, i: nat, sub: Subscription, eventType: string): Option<Db>
    requires i < |db.subs|
  {
    if !RowAllowed(db, i, sub) then None
    else Some(db.(subs := db.subs[i := sub],
                  changes := db.changes + [Change(sub.tenant, eventType, db.subs[i].status, sub.status, sub.plan)]))
  }

  function ApplyStatus(db: Db, p: Payload, status: Status): Option<Db> {
    var i := FindTenant(db.subs, p.tenant);
    if i == |db.subs| then None
    else
      var sub := db.subs[i];
      Record(db, i,
             sub.(plan := p.plan, status := status, periodStart := Keep(p.periodStart, sub.periodStart),
                  periodEnd := Keep(p.periodEnd, sub.periodEnd), cancelAtEnd := status != CANCELED && sub.cancelAtEnd,
                  customer := Keep(NonEmpty(p.customer), sub.customer),
                  billingId := Keep(NonEmpty(p.billingId), sub.billingId)),
             p.eventType)
  }

  function UpsertInvoice(db: Db, provider: string, p: Payload, status: Option<InvoiceStatus>): Option<Db>
    requires p.invoice.Some?
  {
    var v := p.invoice.value;
    // an empty status violates the column's check
    if status.None? || p.tenant !in db.referred.tenants || !IsCurrency(v.currency) ||
        v.subtotal < 0 || v.tax < 0 || v.total < 0 then None
    else Some(db.(invoices := db.invoices[Key(provider, v.id) :=
      Invoice(p.tenant, v.number, status.value, v.currency, v.subtotal, v.tax, v.total, v.periodStart, v.periodEnd,
          v.dueAt, v.paidAt)]))
  }

  function ApplyGeneric(db: Db, provider: string, p: Payload, status: Option<Status>,
      invoiceStatus: Option<InvoiceStatus>): Option<Db> {
    var db1 := if status.Some? then ApplyStatus(db, p, status.value) else Some(db);
    if db1.None? then None
    else if p.invoice.Some? then UpsertInvoice(db1.value, provider, p, invoiceStatus)
    else db1
  }

  // ---------- the Xendit path ----------

  function ResourceId(x: XenditPayload): string {
    if x.id != "" then x.id else if x.session != "" then x.session else x.reference
  }

  function NewestCheckout(checkouts: seq<Checkout>, session: string, reference: string): (i: nat)
    ensures i <= |checkouts|
  {
    if checkouts == [] then 0
    else
      var last := |checkouts| - 1;
      if (session != "" && checkouts[last].session == session)
          || (reference != "" && checkouts[last].reference == reference)
      then last
      else
        var i := NewestCheckout(checkouts[..last], session, reference);
        if i == last then |checkouts| else i
  }

  function SetSession(checkouts: seq<Checkout>, session: string, status: CheckoutStatus): seq<Checkout> {
    seq(|checkouts|, i requires 0 <= i < |checkouts| =>
      if checkouts[i].session == session then checkouts[i].(status := status) else checkouts[i])
  }

  function SessionEvent(db: Db, session: string, status: CheckoutStatus): Option<Db> {
    if exists i | 0 <= i < |db.checkouts| :: db.checkouts[i].session == session
    then Some(db.(checkouts := SetSession(db.checkouts, session, status))) else None
  }

  function ActivatePlan(db: Db, x: XenditPayload, now: int, cal: Calendar): Option<Db> {
    var c := NewestCheckout(db.checkouts, x.session, x.reference);
    if c == |db.checkouts| then None
    else
      var i := FindTenant(db.subs, db.checkouts[c].tenant);
      if i == |db.subs| then None
      else
        Record(db, i,
               db.subs[i].(plan := db.checkouts[c].plan, status := ACTIVE, periodStart := Some(now),
                           periodEnd := Some((cal.sqlMonth)(now)), cancelAtEnd := false,
                           customer := Keep(NonEmpty(x.customer), db.subs[i].customer), billingId := Some(x.id)),
               EventName(x.event))
  }

  /** An inactivated plan keeps a scheduled cancellation usable until its paid period ends. */
  function InactivatedStatus(sub: Subscription, now: int): Status {
    if sub.cancelAtEnd && sub.periodEnd.Some? && sub.periodEnd.value > now then ACTIVE else CANCELED
  }

  function Inactivate(sub: Subscription, now: int): Subscription {
    var status := InactivatedStatus(sub, now);
    sub.(status := status, cancelAtEnd := status != CANCELED && sub.cancelAtEnd)
  }

  function InactivatePlan(db: Db, x: XenditPayload, now: int): Option<Db> {
    var i := FindBilling(db.subs, x.id);
    if i == |db.subs| then None else Record(db, i, Inactivate(db.subs[i], now), EventName(x.event))
  }

  function CycleStatus(db: Db, x: XenditPayload, status: Status, now: int, cal: Calendar): Option<Db> {
    var i := FindBilling(db.subs, if x.planId == "" then x.id else x.planId);
    if i == |db.subs| then None
    else
      var sub := db.subs[i];
      var end := (cal.goMonth)(if x.scheduled.Some? then x.scheduled.value else now);
      Record(db, i,
             if status == ACTIVE then sub.(status := status, periodStart := Some(now), periodEnd := Some(end))
             else sub.(status := status, cancelAtEnd := status != CANCELED && sub.cancelAtEnd),
             EventName(x.event))
  }

  function UpsertCycle(db: Db, x: XenditPayload, status: InvoiceStatus, now: int, cal: Calendar): Option<Db> {
    var i := FindBilling(db.subs, x.planId);
    if i == |db.subs| then None
    else
      var key := Key("xendit", x.id);
      var end := if x.scheduled.Some? then Some((cal.goMonth)(x.scheduled.value)) else None;
      var currency := if x.currency == "" then "IDR" else x.currency;
      var paid := if status == PAID then Some(now) else None;
      var row := if key in db.invoices
                 then db.invoices[key].(status := status, currency := currency, subtotal := x.amount, total := x.amount,
                                        periodStart := x.scheduled, periodEnd := end, dueAt := x.scheduled,
                                        paidAt := Keep(paid, db.invoices[key].paidAt))
                 else Invoice(db.subs[i].tenant, "XENDIT-" + x.id, status, currency, x.amount, 0, x.amount,
                              x.scheduled, end, x.scheduled, paid);
      if !IsCurrency(currency) || x.amount < 0 then None
      else Some(db.(invoices := db.invoices[key := row]))
  }

  /** The cycle's invoice first, then the subscription; both or neither. */
  function PaidCycle(db: Db, x: XenditPayload, invoiceStatus: InvoiceStatus, status: Status, now: int,
      cal: Calendar): Option<Db> {
    var db1 := UpsertCycle(db, x, invoiceStatus, now, cal);
    if db1.None? then None else CycleStatus(db1.value, x, status, now, cal)
  }

  function ApplyXendit(db: Db, x: XenditPayload, now: int, cal: Calendar): Option<Db> {
    match x.event
    case SessionCompleted => SessionEvent(db, x.session, COMPLETED)
    case SessionExpired => SessionEvent(db, x.session, EXPIRED)
    case PlanActivated => ActivatePlan(db, x, now, cal)
    case PlanInactivated => InactivatePlan(db, x, now)
    case CycleCreated => UpsertCycle(db, x, PENDING, now, cal)
    case CycleRetrying => UpsertCycle(db, x, PENDING, now, cal)
    case CycleSucceeded => PaidCycle(db, x, PAID, ACTIVE, now, cal)
    case CycleFailed => PaidCycle(db, x, FAILED, PAST_DUE, now, cal)
    case CycleForceAttemptFailed => PaidCycle(db, x, FAILED, PAST_DUE, now, cal)
    case Other(_) => None
  }

  // ---------- one delivery ----------

  function EventKey(d: Delivery): Key {
    match d
    case Generic(provider, p, _, _, _) => Key(provider, p.id)
    case Xendit(x, _, _, _) => Key("xendit", EventName(x.event) + ":" + ResourceId(x) + ":" + x.created)
  }

  predicate Acceptable(d: Delivery) {
    match d
    case Generic(_, p, _, _, _) => Validate(p).Some?
    case Xendit(x, _, _, _) => x.created != "" && ResourceId(x) != "" && !x.event.Other?
  }

  function ApplyDelivery(db: Db, d: Delivery, cal: Calendar): Option<Db> {
    match d
    case Generic(provider, p, _, _, _) =>
      (match Validate(p)
       case None => None
       case Some((status, invoiceStatus)) => ApplyGeneric(db, provider, p, status, invoiceStatus))
    case Xendit(x, _, now, _) => ApplyXendit(db, x, now, cal)
  }

  function AsMessage(d: Delivery): Message<Delivery> {
    Message(EventKey(d), d.hash, Acceptable(d), d.outcome, d)
  }

  function Applier(cal: Calendar): Apply<Db, Delivery> {
    (db: Db, d: Delivery) => ApplyDelivery(db, d, cal)
  }

  /** The administrator's cancel and resume; Xendit plans are recognised by their id. */
  function Cancel(db: Db, tenant: string, cancel: bool, providerOk: bool, write: CommitOutcome): (Db, nat) {
    var i := FindTenant(db.subs, tenant);
    if i == |db.subs| then (db, 500)
    else
      var sub := db.subs[i];
      var xendit := sub.billingId.Some? && "repl_" <= sub.billingId.value;
      if xendit && !cancel then (db, 409)
      else if xendit && !providerOk then (db, 502)
      else if sub.status == CANCELED || sub.status == SUSPENDED then (db, if write.Committed? then 409 else 500)
      else (if write.RolledBack? then db else db.(subs := db.subs[i := sub.(cancelAtEnd := cancel)]),
            if write.Committed? then 200 else 500)
  }

  datatype Op =
    | Webhook(delivery: Delivery)
    | Cancellation(tenant: string, cancel: bool, providerOk: bool, write: CommitOutcome)

  function Step(box: Inbox<Db>, op: Op, cal: Calendar): Inbox<Db> {
    match op
    case Webhook(d) => Deliver(box, AsMessage(d), Applier(cal)).0
    case Cancellation(tenant, cancel, providerOk, write) =>
      box.(state := Cancel(box.state, tenant, cancel, providerOk, write).0)
  }

  function Run(box: Inbox<Db>, ops: seq<Op>, cal: Calendar): Inbox<Db> {
    if ops == [] then box else Step(Run(box, ops[..|ops| - 1], cal), ops[|ops| - 1], cal)
  }

  // ---------- when a generic event applies ----------

  predicate HasSubscription(subs: seq<Subscription>, tenant: string) {
    exists k :: 0 <= k < |subs| && subs[k].tenant == tenant
  }

  predicate UsedByOther(subs: seq<Subscription>, billingId: string, tenant: string) {
    exists k :: 0 <= k < |subs| && subs[k].billingId == Some(billingId) && subs[k].tenant != tenant
  }

  predicate CustomerOfOther(subs: seq<Subscription>, customer: string, tenant: string) {
    exists k :: 0 <= k < |subs| && subs[k].customer == Some(customer) && subs[k].tenant != tenant
  }

  /**
   A valid event applies exactly if a status finds the tenant's subscription, names a known plan and
   brings neither a billing id nor a customer of another tenant, and an invoice is for a known
   tenant, in three capital letters of currency, and comes with an event type that gives it a status.
   */
  lemma GenericApplies(db: Db, provider: string, p: Payload)
    requires Validate(p).Some? && Constrained(db)
    ensures var (status, invoiceStatus) := Validate(p).value;
      ApplyGeneric(db, provider, p, status, invoiceStatus).Some? <==>
        && (status.Some? ==>
              && HasSubscription(db.subs, p.tenant) && p.plan in db.referred.plans
              && (p.billingId != "" ==> !UsedByOther(db.subs, p.billingId, p.tenant))
              && (p.customer != "" ==> !CustomerOfOther(db.subs, p.customer, p.tenant)))
        && (p.invoice.Some? ==>
              invoiceStatus.Some? && p.tenant in db.referred.tenants && IsCurrency(p.invoice.value.currency))
  {
    var (status, invoiceStatus) := Validate(p).value;
    if status.Some? { StatusApplies(db, p, status.value); }
  }

  lemma {:induction false} FindsTenant(subs: seq<Subscription>, tenant: string)
    ensures FindTenant(subs, tenant) < |subs| <==> HasSubscription(subs, tenant)
  {
    if subs != [] && subs[0].tenant != tenant {
      FindsTenant(subs[1..], tenant);
      if HasSubscription(subs, tenant) {
        var k :| 0 <= k < |subs| && subs[k].tenant == tenant;
        assert subs[1..][k - 1].tenant == tenant;
      }
    }
  }

  lemma StatusApplies(db: Db, p: Payload, status: Status)
    requires Constrained(db)
    ensures ApplyStatus(db, p, status).Some? <==>
      && HasSubscription(db.subs, p.tenant) && p.plan in db.referred.plans
      && (p.billingId != "" ==> !UsedByOther(db.subs, p.billingId, p.tenant))
      && (p.customer != "" ==> !CustomerOfOther(db.subs, p.customer, p.tenant))
  {
    FindsTenant(db.subs, p.tenant);
    var i := FindTenant(db.subs, p.tenant);
    if i < |db.subs| {
      assert forall k | 0 <= k < |db.subs| && k != i :: db.subs[k].tenant != p.tenant;
      assert p.billingId == "" ==> BillingIdFree(db.subs, i, db.subs[i].billingId);
      assert p.customer == "" ==> CustomerFree(db.subs, i, db.subs[i].customer);
    }
  }

  /** A delivery whose event does not apply changes nothing and is answered as failed. */
  lemma RefusedChangesNothing(box: Inbox<Db>, provider: string, p: Payload, hash: string, now: int, cal: Calendar)
    requires Validate(p).Some? && Key(provider, p.id) !in box.seen
    requires ApplyGeneric(box.state, provider, p, Validate(p).value.0, Validate(p).value.1).None?
    ensures Deliver(box, AsMessage(Generic(provider, p, hash, now, Committed)), Applier(cal)) == (box, Failed)
  {
  }

  /** An activation for a customer. */
  function ActivationFor(tenant: string, plan: string, customer: string): Payload {
    Payload("event", "subscription.activated", tenant, plan, customer, "", None, None, None)
  }

  /** It passes validation and is refused when another tenant has that customer. */
  lemma OthersCustomerFails(box: Inbox<Db>, provider: string, tenant: string, plan: string, customer: string,
      hash: string, now: int, cal: Calendar)
    requires Constrained(box.state) && Key(provider, "event") !in box.seen
    requires tenant != "" && plan != "" && customer != "" && CustomerOfOther(box.state.subs, customer, tenant)
    ensures Validate(ActivationFor(tenant, plan, customer)).Some?
    ensures var d := Generic(provider, ActivationFor(tenant, plan, customer), hash, now, Committed);
      Deliver(box, AsMessage(d), Applier(cal)) == (box, Failed)
  {
    var p := ActivationFor(tenant, plan, customer);
    assert Validate(p) == Some((Some(ACTIVE), None));
    GenericApplies(box.state, provider, p);
    RefusedChangesNothing(box, provider, p, hash, now, cal);
  }

  /** A paid invoice in a currency of three characters that are not all letters. */
  function PaidInOddCurrency(tenant: string, plan: string): Payload {
    Payload("event", "invoice.paid", tenant, plan, "", "", None, None,
            Some(InvoicePayload("invoice", "1", "12A", 100, 0, 100, None, None, None, None)))
  }

  /** It passes validation and is refused by every database: the currency violates the column's check. */
  lemma OddCurrencyFails(box: Inbox<Db>, provider: string, tenant: string, plan: string, hash: string, now: int,
      cal: Calendar)
    requires Constrained(box.state) && Key(provider, "event") !in box.seen && tenant != "" && plan != ""
    ensures Validate(PaidInOddCurrency(tenant, plan)).Some?
    ensures var d := Generic(provider, PaidInOddCurrency(tenant, plan), hash, now, Committed);
      Deliver(box, AsMessage(d), Applier(cal)) == (box, Failed)
  {
    var p := PaidInOddCurrency(tenant, plan);
    assert Validate(p) == Some((Some(ACTIVE), Some(PAID)));
    assert !IsCurrency("12A") by { assert "12A"[0] == '1' && '1' in "12A"; }
    GenericApplies(box.state, provider, p);
    RefusedChangesNothing(box, provider, p, hash, now, cal);
  }

  /** A renewal that carries its invoice. */
  function RenewalWithInvoice(tenant: string, plan: string): Payload {
    Payload("event", "subscription.renewed", tenant, plan, "", "", None, None,
            Some(InvoicePayload("invoice", "1", "USD", 100, 0, 100, None, None, None, None)))
  }

  /** It passes validation and is refused by every database: the invoice has no status to be stored with. */
  lemma RenewalWithInvoiceFails(box: Inbox<Db>, provider: string, tenant: string, plan: string, hash: string, now: int,
      cal: Calendar)
    requires tenant != "" && plan != "" && Key(provider, "event") !in box.seen
    ensures Validate(RenewalWithInvoice(tenant, plan)).Some?
    ensures var d := Generic(provider, RenewalWithInvoice(tenant, plan), hash, now, Committed);
      Deliver(box, AsMessage(d), Applier(cal)) == (box, Failed)
  {
    var p := RenewalWithInvoice(tenant, plan);
    assert StatusOf(p.eventType) == Some((Some(ACTIVE), None));
    assert Validate(p) == Some((Some(ACTIVE), None));
  }

  // ---------- the subscription log ----------

  /** Follows a tenant's changes from `status`; `None` where the chain is broken. */
  function Replay(changes: seq<Change>, tenant: string, status: Status): Option<Status> {
    if changes == [] then Some(status)
    else
      var c := changes[|changes| - 1];
      var before := Replay(changes[..|changes| - 1], tenant, status);
      if c.tenant != tenant then before
      else if before == Some(c.from) then Some(c.to)
      else None
  }

  lemma ReplaySnoc(changes: seq<Change>, c: Change, tenant: string, status: Status)
    ensures Replay(changes + [c], tenant, status) ==
            var before := Replay(changes, tenant, status);
            if c.tenant != tenant then before else if before == Some(c.from) then Some(c.to) else None
  {
    assert (changes + [c])[..|changes|] == changes;
  }

  ghost predicate OneRowPerTenant(subs: seq<Subscription>) {
    forall i, j | 0 <= i < j < |subs| :: subs[i].tenant != subs[j].tenant
  }

  ghost predicate OneRowPerBillingId(subs: seq<Subscription>) {
    forall i, j | 0 <= i < j < |subs| && subs[i].billingId.Some? :: subs[i].billingId != subs[j].billingId
  }

  ghost predicate OneRowPerCustomer(subs: seq<Subscription>) {
    forall i, j | 0 <= i < j < |subs| && subs[i].customer.Some? :: subs[i].customer != subs[j].customer
  }

  /** The constraints of `tenant_subscriptions`: its keys are unique and its references known. */
  ghost predicate Constrained(db: Db) {
    && OneRowPerTenant(db.subs) && OneRowPerBillingId(db.subs) && OneRowPerCustomer(db.subs)
    && forall sub <- db.subs :: sub.tenant in db.referred.tenants && sub.plan in db.referred.plans
  }

  predicate FlagOk(sub: Subscription) {
    sub.status == CANCELED ==> !sub.cancelAtEnd
  }

  /** How an event may change the subscriptions: not at all, or one row with its log entry. */
  ghost predicate Logged(db: Db, db': Db) {
    db'.referred == db.referred &&
    ((db'.subs == db.subs && db'.changes == db.changes) ||
     exists i: nat, sub, eventType :: LoggedAt(db, db', i, sub, eventType))
  }

  ghost predicate LoggedAt(db: Db, db': Db, i: nat, sub: Subscription, eventType: string) {
    && i < |db.subs| && sub.tenant == db.subs[i].tenant
    && (FlagOk(db.subs[i]) ==> FlagOk(sub)) && RowAllowed(db, i, sub)
    && db'.subs == db.subs[i := sub]
    && db'.changes == db.changes + [Change(sub.tenant, eventType, db.subs[i].status, sub.status, sub.plan)]
  }

  lemma GenericLogs(db: Db, provider: string, p: Payload, status: Option<Status>, invoiceStatus: Option<InvoiceStatus>)
    ensures var r := ApplyGeneric(db, provider, p, status, invoiceStatus); r.Some? ==> Logged(db, r.value)
  {
    var r := ApplyGeneric(db, provider, p, status, invoiceStatus);
    if status.Some? && r.Some? {
      var i := FindTenant(db.subs, p.tenant);
      var db1 := ApplyStatus(db, p, status.value).value;
      assert LoggedAt(db, db1, i, db1.subs[i], p.eventType);
      assert LoggedAt(db, r.value, i, db1.subs[i], p.eventType);
    }
  }

  lemma ActivateLogs(db: Db, x: XenditPayload, now: int, cal: Calendar)
    ensures var r := ActivatePlan(db, x, now, cal); r.Some? ==> Logged(db, r.value)
  {
    var r := ActivatePlan(db, x, now, cal);
    if r.Some? {
      var i := FindTenant(db.subs, db.checkouts[NewestCheckout(db.checkouts, x.session, x.reference)].tenant);
      assert LoggedAt(db, r.value, i, r.value.subs[i], EventName(x.event));
    }
  }

  lemma InactivateLogs(db: Db, x: XenditPayload, now: int)
    ensures var r := InactivatePlan(db, x, now); r.Some? ==> Logged(db, r.value)
  {
    var r := InactivatePlan(db, x, now);
    if r.Some? {
      var i := FindBilling(db.subs, x.id);
      assert LoggedAt(db, r.value, i, r.value.subs[i], EventName(x.event));
    }
  }

  lemma CycleLogs(db: Db, x: XenditPayload, invoiceStatus: InvoiceStatus, status: Status, now: int,
      cal: Calendar)
    requires status == ACTIVE || status == PAST_DUE
    ensures var r := PaidCycle(db, x, invoiceStatus, status, now, cal);
            r.Some? ==> Logged(db, r.value)
  {
    var u := UpsertCycle(db, x, invoiceStatus, now, cal);
    if u.Some? && CycleStatus(u.value, x, status, now, cal).Some? {
      var r := CycleStatus(u.value, x, status, now, cal).value;
      var i := FindBilling(db.subs, if x.planId == "" then x.id else x.planId);
      assert u.value.subs == db.subs && u.value.changes == db.changes;
      assert LoggedAt(db, r, i, r.subs[i], EventName(x.event));
    }
  }

  lemma XenditLogs(db: Db, x: XenditPayload, now: int, cal: Calendar)
    ensures var r := ApplyXendit(db, x, now, cal); r.Some? ==> Logged(db, r.value)
  {
    match x.event
    case SessionCompleted =>
    case SessionExpired =>
    case PlanActivated => ActivateLogs(db, x, now, cal);
    case PlanInactivated => InactivateLogs(db, x, now);
    case CycleCreated =>
    case CycleRetrying =>
    case CycleSucceeded => CycleLogs(db, x, PAID, ACTIVE, now, cal);
    case CycleFailed => CycleLogs(db, x, FAILED, PAST_DUE, now, cal);
    case CycleForceAttemptFailed => CycleLogs(db, x, FAILED, PAST_DUE, now, cal);
    case Other(_) =>
  }

  ghost predicate LogOk(start: Db, db: Db) {
    && |db.subs| == |start.subs| && Constrained(db)
    && forall i | 0 <= i < |db.subs| ::
         && db.subs[i].tenant == start.subs[i].tenant
         && Replay(db.changes, db.subs[i].tenant, start.subs[i].status) == Some(db.subs[i].status)
         && FlagOk(db.subs[i])
  }

  /** Tables that meet their constraints, before the first change is logged. */
  ghost predicate Consistent(db: Db) {
    && Constrained(db) && db.changes == []
    && forall i | 0 <= i < |db.subs| :: FlagOk(db.subs[i])
  }

  lemma LoggedKeepsConstraints(db: Db, db': Db, i: nat, sub: Subscription, eventType: string)
    requires Constrained(db) && LoggedAt(db, db', i, sub, eventType) && db'.referred == db.referred
    ensures Constrained(db')
  {
    assert db.subs[i] in db.subs;
    forall k | 0 <= k < |db'.subs| && k != i
      ensures db'.subs[k] in db.subs
    {
      assert db'.subs[k] == db.subs[k];
    }
  }

  lemma LoggedKeepsLog(start: Db, db: Db, db': Db)
    requires LogOk(start, db) && Logged(db, db')
    ensures LogOk(start, db')
  {
    if db'.subs == db.subs && db'.changes == db.changes {
    } else {
      var i: nat, sub, eventType :| LoggedAt(db, db', i, sub, eventType);
      LoggedKeepsConstraints(db, db', i, sub, eventType);
      var c := Change(sub.tenant, eventType, db.subs[i].status, sub.status, sub.plan);
      forall k | 0 <= k < |db.subs|
        ensures db'.subs[k].tenant == start.subs[k].tenant && FlagOk(db'.subs[k])
        ensures Replay(db'.changes, db'.subs[k].tenant, start.subs[k].status) == Some(db'.subs[k].status)
      {
        assert db'.subs[k].tenant == sub.tenant <==> k == i;
        ReplaySnoc(db.changes, c, start.subs[k].tenant, start.subs[k].status);
      }
    }
  }

  lemma DeliveryLogs(db: Db, d: Delivery, cal: Calendar)
    ensures var r := ApplyDelivery(db, d, cal); r.Some? ==> Logged(db, r.value)
  {
    match d
    case Xendit(x, _, now, _) => XenditLogs(db, x, now, cal);
    case Generic(provider, p, _, _, _) =>
      if Validate(p).Some? {
        GenericLogs(db, provider, p, Validate(p).value.0, Validate(p).value.1);
      }
  }

  lemma CancelKeepsLog(start: Db, db: Db, tenant: string, cancel: bool, providerOk: bool, write: CommitOutcome)
    requires LogOk(start, db)
    ensures LogOk(start, Cancel(db, tenant, cancel, providerOk, write).0)
  {
    var db' := Cancel(db, tenant, cancel, providerOk, write).0;
    if db' != db {
      var i := FindTenant(db.subs, tenant);
      assert db.subs[i] in db.subs;
      forall k | 0 <= k < |db'.subs| && k != i
        ensures db'.subs[k] in db.subs
      {
        assert db'.subs[k] == db.subs[k];
      }
    }
  }

  lemma StepKeepsLog(start: Db, box: Inbox<Db>, op: Op, cal: Calendar)
    requires LogOk(start, box.state)
    ensures LogOk(start, Step(box, op, cal).state)
  {
    match op
    case Cancellation(tenant, cancel, providerOk, write) =>
      CancelKeepsLog(start, box.state, tenant, cancel, providerOk, write);
    case Webhook(d) =>
      DeliveryLogs(box.state, d, cal);
      var r := ApplyDelivery(box.state, d, cal);
      if r.Some? {
        LoggedKeepsLog(start, box.state, r.value);
      }
  }

  /**
   Over any mixture of webhooks and administrator actions, each tenant's log is an unbroken chain
   from its first status to its current one, and a CANCELED row has no scheduled cancellation.
   */
  lemma {:induction false} LogIsUnbroken(box: Inbox<Db>, ops: seq<Op>, cal: Calendar)
    requires Consistent(box.state)
    ensures LogOk(box.state, Run(box, ops, cal).state)
  {
    if ops != [] {
      LogIsUnbroken(box, ops[..|ops| - 1], cal);
      StepKeepsLog(box.state, Run(box, ops[..|ops| - 1], cal), ops[|ops| - 1], cal);
    }
  }

  // ---------- exactly once ----------

  function Messages(ds: seq<Delivery>): seq<Message<Delivery>> {
    seq(|ds|, i requires 0 <= i < |ds| => AsMessage(ds[i]))
  }

  /** Both webhook paths share one inbox: what it promises holds for billing as it stands. */
  lemma BillingIsExactlyOnce(box: Inbox<Db>, ds: seq<Delivery>, cal: Calendar)
    ensures var kept := Kept(box, Messages(ds), Applier(cal));
            && DeliverAll(box, kept, Applier(cal)) == DeliverAll(box, Messages(ds), Applier(cal))
            && |Keys(kept)| == |kept|
            && DeliverAll(box, Messages(ds), Applier(cal)).seen.Keys == box.seen.Keys + Keys(kept)
  {
    OnlyKeptMatter(box, Messages(ds), Applier(cal));
    SeenAreKept(box, Messages(ds), Applier(cal));
  }

  // ---------- entitlement ----------

  predicate Inactivation(op: Op) {
    op.Webhook? && op.delivery.Xendit? && op.delivery.xendit.event == PlanInactivated
  }

  /** A scheduled cancellation while it runs, or after an inactivation at or past its end `e`. */
  ghost predicate RunningOut(sub: Subscription, e: int, t: int) {
    || (sub.status == ACTIVE && sub.cancelAtEnd && sub.periodEnd == Some(e))
    || (sub.status == CANCELED && !sub.cancelAtEnd && e <= t)
  }

  lemma InactivationStep(box: Inbox<Db>, op: Op, cal: Calendar, i: nat, e: int, t: int)
    requires Inactivation(op) && op.delivery.now <= t
    requires i < |box.state.subs| && RunningOut(box.state.subs[i], e, t)
    ensures var box' := Step(box, op, cal); i < |box'.state.subs| && RunningOut(box'.state.subs[i], e, t)
  {
    assert ApplyDelivery(box.state, op.delivery, cal) ==
        InactivatePlan(box.state, op.delivery.xendit, op.delivery.now);
  }

  /**
   A cancellation scheduled on an ACTIVE subscription leaves it entitled exactly until its period
   ends at `e`, whether and whenever the provider's inactivation webhooks arrive before `t`.
   */
  lemma {:induction false} CancellationRunsOutAtPeriodEnd(box: Inbox<Db>, ops: seq<Op>, cal: Calendar, i: nat,
      e: int, t: int)
    requires i < |box.state.subs|
    requires var sub := box.state.subs[i]; sub.status == ACTIVE && sub.cancelAtEnd && sub.periodEnd == Some(e)
    requires forall op <- ops :: Inactivation(op) && op.delivery.now <= t
    ensures var box' := Run(box, ops, cal);
            i < |box'.state.subs| && RunningOut(box'.state.subs[i], e, t)
            && (Entitled(box'.state.subs[i], t) <==> t < e)
  {
    if ops != [] {
      CancellationRunsOutAtPeriodEnd(box, ops[..|ops| - 1], cal, i, e, t);
      InactivationStep(Run(box, ops[..|ops| - 1], cal), ops[|ops| - 1], cal, i, e, t);
    }
  }

  /**
   For other statuses an inactivation is not neutral: it entitles a subscription that was not
   entitled exactly if a cancellation is scheduled past now on a row that is not ACTIVE.
   */
  lemma InactivationCanEntitle(sub: Subscription, now: int)
    ensures Entitled(Inactivate(sub, now), now) && !Entitled(sub, now) <==>
              && sub.cancelAtEnd && sub.periodEnd.Some? && now < sub.periodEnd.value
              && sub.status != ACTIVE && !(sub.status == TRIALING && sub.trialEnd.Some? && now < sub.trialEnd.value)
  {
  }

  const NO_INVOICES: map<Key, Invoice> := map[]

  const CANCEL: Op := Cancellation("tenant", true, true, Committed)

  /** An ACTIVE subscription of a Xendit plan with period end `e`, and nothing else. */
  function OneSubscription(e: int): Inbox<Db> {
    Inbox(map[], Db([Subscription("tenant", "pro", ACTIVE, None, None, Some(e), false, None, Some("repl_1"))],
        NO_INVOICES, [], [], Referred({"pro"}, {"tenant"})))
  }

  function FailedCycle(now: int): Delivery {
    Xendit(XenditPayload(CycleFailed, "2", "cycle", "", "repl_1", "", "", "", 0, None), "h2", now, Committed)
  }

  function Inactivated(now: int): Delivery {
    Xendit(XenditPayload(PlanInactivated, "3", "repl_1", "", "", "", "", "", 0, None), "h3", now, Committed)
  }

  lemma CycleIsApplied(box: Inbox<Db>, now: int, cal: Calendar)
    requires box.seen == map[] && |box.state.subs| == 1 && box.state.subs[0].billingId == Some("repl_1")
    requires box.state.subs[0].plan in box.state.referred.plans
    ensures var after := Step(box, Webhook(FailedCycle(now)), cal);
      && after.state.subs == [box.state.subs[0].(status := PAST_DUE)]
      && after.state.referred == box.state.referred && after.seen.Keys == {EventKey(FailedCycle(now))}
  {
    var x := FailedCycle(now).xendit;
    var db1 := UpsertCycle(box.state, x, FAILED, now, cal);
    assert FindBilling(box.state.subs, "repl_1") == 0;
    assert IsCurrency("IDR");
    assert ApplyXendit(box.state, x, now, cal) == CycleStatus(db1.value, x, PAST_DUE, now, cal);
  }

  lemma CancelIsApplied(e: int, cal: Calendar)
    ensures var box := OneSubscription(e);
      Step(box, CANCEL, cal) ==
        box.(state := box.state.(subs := [box.state.subs[0].(cancelAtEnd := true)]))
  {
    var db := OneSubscription(e).state;
    assert FindTenant(db.subs, "tenant") == 0;
    assert "repl_" <= "repl_1" by { assert "repl_1"[..5] == "repl_"; }
    assert db.subs[0 := db.subs[0].(cancelAtEnd := true)] == [db.subs[0].(cancelAtEnd := true)];
  }

  lemma InactivationIsApplied(box: Inbox<Db>, now: int, cal: Calendar)
    requires |box.state.subs| == 1 && box.state.subs[0].billingId == Some("repl_1")
        && EventKey(Inactivated(now)) !in box.seen && box.state.subs[0].plan in box.state.referred.plans
    ensures Step(box, Webhook(Inactivated(now)), cal).state.subs == [Inactivate(box.state.subs[0], now)]
  {
    var x := Inactivated(now).xendit;
    assert FindBilling(box.state.subs, "repl_1") == 0;
    assert ApplyXendit(box.state, x, now, cal) == InactivatePlan(box.state, x, now);
  }

  lemma RunOfThree(box: Inbox<Db>, a: Op, b: Op, c: Op, cal: Calendar)
    ensures Run(box, [a, b], cal) == Step(Step(box, a, cal), b, cal)
    ensures Run(box, [a, b, c], cal) == Step(Run(box, [a, b], cal), c, cal)
  {
    assert [a, b, c][..2] == [a, b] && [a, b][..1] == [a] && [a][..0] == [];
    assert Run(box, [a], cal) == Step(Run(box, [a][..0], cal), a, cal);
  }

  /**
   It happens in a run: an administrator cancels, a payment fails and the subscription is no longer
   entitled, the provider inactivates the plan, and the subscription is entitled again.
   */
  lemma InactivationEntitlesAgain(e: int, now: int, cal: Calendar)
    requires now < e
    ensures
      var cancel, fail, end := CANCEL, Webhook(FailedCycle(now)), Webhook(Inactivated(now));
      var before := Run(OneSubscription(e), [cancel, fail], cal).state;
      var after := Run(OneSubscription(e), [cancel, fail, end], cal).state;
      && Consistent(OneSubscription(e).state)
      && |before.subs| == 1 && before.subs[0].status == PAST_DUE && !Entitled(before.subs[0], now)
      && |after.subs| == 1 && after.subs[0].status == ACTIVE && Entitled(after.subs[0], now)
  {
    var cancel, fail, end := CANCEL, Webhook(FailedCycle(now)), Webhook(Inactivated(now));
    RunOfThree(OneSubscription(e), cancel, fail, end, cal);
    CancelIsApplied(e, cal);
    CycleIsApplied(Step(OneSubscription(e), cancel, cal), now, cal);
    InactivationIsApplied(Run(OneSubscription(e), [cancel, fail], cal), now, cal);
  }

  // ---------- the handlers ----------

  class BillingService {
    const cal: Calendar
    const referred: Referred
    var seen: map<Key, string>
    var subs: seq<Subscription>
    var invoices: map<Key, Invoice>
    var checkouts: seq<Checkout>
    var changes: seq<Change>
    ghost const start: Db

    constructor (subs: seq<Subscription>, checkouts: seq<Checkout>, referred: Referred, cal: Calendar)
      requires Consistent(Db(subs, map[], checkouts, [], referred))
      ensures Valid() && start == Tables()
      ensures Box() == Inbox(map[], Db(subs, map[], checkouts, [], referred)) && this.cal == cal
    {
      this.cal, this.referred := cal, referred;
      start := Db(subs, map[], checkouts, [], referred);
      this.subs, this.checkouts := subs, checkouts;
      seen, invoices, changes := map[], map[], [];
    }

    function Tables(): Db
      reads this
    {
      Db(subs, invoices, checkouts, changes, referred)
    }

    function Box(): Inbox<Db>
      reads this
    {
      Inbox(seen, Tables())
    }

    /** Each tenant's log leads from the first tables to the current ones. */
    ghost predicate Valid()
      reads this
    {
      LogOk(start, Tables())
    }

    /** Both webhook handlers: the event id is registered first, and a rollback takes it back. */
    method Webhook(d: Delivery) returns (response: Response)
      requires Valid()
      modifies this
      ensures Valid()
      ensures (Box(), response) == Deliver(old(Box()), AsMessage(d), Applier(cal))
    {
      StepKeepsLog(start, Box(), Op.Webhook(d), cal);
      if !Acceptable(d) { return Invalid; }
      var key := EventKey(d);
      if key in seen {
        if seen[key] != d.hash { return Reused; }
        return Duplicate;
      }
      var seen0, subs0, invoices0, checkouts0, changes0 := seen, subs, invoices, checkouts, changes;
      seen := seen[key := d.hash];
      var ok;
      match d {
        case Generic(provider, payload, _, _, _) => ok := ApplyGenericEvent(provider, payload);
        case Xendit(x, _, now, _) => ok := ApplyXenditEvent(x, now);
      }
      if !ok || d.outcome.RolledBack? {
        seen, subs, invoices, checkouts, changes := seen0, subs0, invoices0, checkouts0, changes0;
        return Failed;
      }
      response := if d.outcome.Committed? then Processed else Failed;
    }

    method ApplyGenericEvent(provider: string, p: Payload) returns (ok: bool)
      requires Validate(p).Some?
      modifies this`subs, this`changes, this`invoices
      ensures var r := ApplyGeneric(old(Tables()), provider, p, Validate(p).value.0, Validate(p).value.1);
              ok == r.Some? && (ok ==> Tables() == r.value)
    {
      var (status, invoiceStatus) := Validate(p).value;
      if status.Some? {
        var i := FindTenant(subs, p.tenant);
        if i == |subs| { return false; }
        var sub := subs[i];
        ok := UpdateSubscription(i,
          sub.(plan := p.plan, status := status.value, periodStart := Keep(p.periodStart, sub.periodStart),
               periodEnd := Keep(p.periodEnd, sub.periodEnd),
               cancelAtEnd := if status.value == CANCELED then false else sub.cancelAtEnd,
               customer := Keep(NonEmpty(p.customer), sub.customer),
               billingId := Keep(NonEmpty(p.billingId), sub.billingId)),
          p.eventType);
        if !ok { return; }
      }
      if p.invoice.Some? {
        var v := p.invoice.value;
        if invoiceStatus.None? || p.tenant !in referred.tenants || !IsCurrency(v.currency) { return false; }
        invoices := invoices[Key(provider, v.id) :=
          Invoice(p.tenant, v.number, invoiceStatus.value, v.currency, v.subtotal, v.tax, v.total,
                  v.periodStart, v.periodEnd, v.dueAt, v.paidAt)];
      }
      ok := true;
    }

    /** The update of one row and the insert of its change. */
    method UpdateSubscription(i: nat, sub: Subscription, eventType: string) returns (ok: bool)
      requires i < |subs|
      modifies this`subs, this`changes
      ensures var r := Record(old(Tables()), i, sub, eventType);
              ok == r.Some? && Tables() == if ok then r.value else old(Tables())
    {
      if !RowAllowed(Tables(), i, sub) { return false; }
      var previous := subs[i].status;
      subs := subs[i := sub];
      changes := changes + [Change(sub.tenant, eventType, previous, sub.status, sub.plan)];
      ok := true;
    }

    method ApplyXenditEvent(x: XenditPayload, now: int) returns (ok: bool)
      modifies this`subs, this`changes, this`invoices, this`checkouts
      ensures var r := ApplyXendit(old(Tables()), x, now, cal);
              ok == r.Some? && (ok ==> Tables() == r.value)
    {
      match x.event {
        case SessionCompleted => ok := UpdateSession(x.session, COMPLETED);
        case SessionExpired => ok := UpdateSession(x.session, EXPIRED);
        case PlanActivated => ok := ActivateXenditPlan(x, now);
        case PlanInactivated => ok := InactivateXenditPlan(x, now);
        case CycleCreated => ok := UpsertXenditCycle(x, PENDING, now);
        case CycleRetrying => ok := UpsertXenditCycle(x, PENDING, now);
        case CycleSucceeded =>
          ok := UpsertXenditCycle(x, PAID, now);
          if ok { ok := UpdateXenditStatus(x, ACTIVE, now); }
        case CycleFailed =>
          ok := UpsertXenditCycle(x, FAILED, now);
          if ok { ok := UpdateXenditStatus(x, PAST_DUE, now); }
        case CycleForceAttemptFailed =>
          ok := UpsertXenditCycle(x, FAILED, now);
          if ok { ok := UpdateXenditStatus(x, PAST_DUE, now); }
        case Other(_) => ok := false;
      }
    }

    method UpdateSession(session: string, status: CheckoutStatus) returns (ok: bool)
      modifies this`checkouts
      ensures var r := SessionEvent(old(Tables()), session, status);
              ok == r.Some? && Tables() == if ok then r.value else old(Tables())
    {
      ok := false;
      var before := checkouts;
      for k := 0 to |before|
        invariant |checkouts| == |before|
        invariant forall j | 0 <= j < |before| ::
            checkouts[j] == if j < k && before[j].session == session then before[j].(status := status) else before[j]
        invariant ok <==> exists j | 0 <= j < k :: before[j].session == session
      {
        if before[k].session == session {
          checkouts := checkouts[k := before[k].(status := status)];
          ok := true;
        }
      }
      if ok {
        assert checkouts == SetSession(before, session, status);
      } else {
        assert checkouts == before;
      }
    }

    method ActivateXenditPlan(x: XenditPayload, now: int) returns (ok: bool)
      modifies this`subs, this`changes
      ensures var r := ActivatePlan(old(Tables()), x, now, cal);
              ok == r.Some? && (ok ==> Tables() == r.value)
    {
      var c := NewestCheckout(checkouts, x.session, x.reference);
      if c == |checkouts| { return false; }
      var i := FindTenant(subs, checkouts[c].tenant);
      if i == |subs| { return false; }
      ok := UpdateSubscription(i,
        subs[i].(
          plan := checkouts[c].plan, status := ACTIVE, periodStart := Some(now), periodEnd := Some((cal.sqlMonth)(now)),
          cancelAtEnd := false, customer := Keep(NonEmpty(x.customer), subs[i].customer), billingId := Some(x.id)),
        EventName(x.event));
    }

    method InactivateXenditPlan(x: XenditPayload, now: int) returns (ok: bool)
      modifies this`subs, this`changes
      ensures var r := InactivatePlan(old(Tables()), x, now);
              ok == r.Some? && (ok ==> Tables() == r.value)
    {
      var i := FindBilling(subs, x.id);
      if i == |subs| { return false; }
      var sub := subs[i];
      var status := CANCELED;
      if sub.cancelAtEnd && sub.periodEnd.Some? && sub.periodEnd.value > now {
        status := ACTIVE;
      }
      ok := UpdateSubscription(
        i, sub.(status := status, cancelAtEnd := if status == CANCELED then false else sub.cancelAtEnd),
        EventName(x.event));
    }

    method UpsertXenditCycle(x: XenditPayload, status: InvoiceStatus, now: int) returns (ok: bool)
      modifies this`invoices
      ensures var r := UpsertCycle(old(Tables()), x, status, now, cal);
              ok == r.Some? && Tables() == if ok then r.value else old(Tables())
    {
      var i := FindBilling(subs, x.planId);
      if i == |subs| { return false; }
      var end, paidAt: Option<int> := None, None;
      if x.scheduled.Some? { end := Some((cal.goMonth)(x.scheduled.value)); }
      if status == PAID { paidAt := Some(now); }
      var currency := x.currency;
      if currency == "" { currency := "IDR"; }
      if !IsCurrency(currency) || x.amount < 0 { return false; }
      var key := Key("xendit", x.id);
      if key in invoices {
        invoices := invoices[key := invoices[key].(status := status, currency := currency, subtotal := x.amount,
          total := x.amount, periodStart := x.scheduled, periodEnd := end, dueAt := x.scheduled,
          paidAt := Keep(paidAt, invoices[key].paidAt))];
      } else {
        invoices := invoices[key := Invoice(subs[i].tenant, "XENDIT-" + x.id, status, currency, x.amount, 0, x.amount,
                                            x.scheduled, end, x.scheduled, paidAt)];
      }
      ok := true;
    }

    method UpdateXenditStatus(x: XenditPayload, status: Status, now: int) returns (ok: bool)
      modifies this`subs, this`changes
      ensures var r := CycleStatus(old(Tables()), x, status, now, cal);
              ok == r.Some? && (ok ==> Tables() == r.value)
    {
      var planId := if x.planId == "" then x.id else x.planId;
      var i := FindBilling(subs, planId);
      if i == |subs| { return false; }
      var periodEnd := if x.scheduled.Some? then (cal.goMonth)(x.scheduled.value) else (cal.goMonth)(now);
      var sub := subs[i].(status := status);
      if status == ACTIVE {
        sub := sub.(periodStart := Some(now), periodEnd := Some(periodEnd));
      } else if status == CANCELED {
        sub := sub.(cancelAtEnd := false);
      }
      ok := UpdateSubscription(i, sub, EventName(x.event));
    }

    method AdminCancellation(tenant: string, cancel: bool, providerOk: bool, write: CommitOutcome) returns (code: nat)
      requires Valid()
      modifies this`subs
      ensures Valid()
      ensures (Tables(), code) == Cancel(old(Tables()), tenant, cancel, providerOk, write)
      ensures seen == old(seen)
    {
      CancelKeepsLog(start, Tables(), tenant, cancel, providerOk, write);
      var i := FindTenant(subs, tenant);
      if i == |subs| { return 500; }
      if subs[i].billingId.Some? && "repl_" <= subs[i].billingId.value {
        if !cancel { return 409; }
        if !providerOk { return 502; }
      }
      var current := subs[i].status == TRIALING || subs[i].status == ACTIVE || subs[i].status == PAST_DUE;
      if current && !write.RolledBack? {
        subs := subs[i := subs[i].(cancelAtEnd := cancel)];
      }
      if !write.Committed? { return 500; }
      code := if current then 200 else 409;
    }
  }
}

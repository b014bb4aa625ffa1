/** The subscription row that billing writes and the quota checks read. */
module Subscriptions {
  import opened Options

  datatype Status = TRIALING | ACTIVE | PAST_DUE | CANCELED | SUSPENDED

  datatype Subscription = Subscription(
    tenant: string, plan: string, status: Status, trialEnd: Option<int>,
    periodStart: Option<int>, periodEnd: Option<int>, cancelAtEnd: bool,
    customer: Option<string>, billingId: Option<string>)

  /** What the quota checks take for a current subscription at time `now`. */
  predicate Entitled(sub: Subscription, now: int) {
    || (sub.status == ACTIVE && (sub.periodEnd.None? || sub.periodEnd.value > now))
    || (sub.status == TRIALING && sub.trialEnd.Some? && sub.trialEnd.value > now)
  }
}

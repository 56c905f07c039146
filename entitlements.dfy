/**
 * Plan resolution and the entitlement check: may a user who already holds
 * `currentUsage` units of a resource use one more under their plan?
 */
module Entitlements {
  import opened Wrappers
  import opened Strings
  import opened Manifest

  /** A billing subscription; the current plan resolution ignores it. */
  datatype Subscription = Subscription(status: Option<string>, variantId: Option<string>)

  /** The outcome of a check; `limit` is the limit that was applied. */
  datatype Entitlement = Entitlement(allowed: bool, reason: Option<string>, currentUsage: int, limit: Limit)

  /** Every account is on the free plan, whatever its subscription. */
  function ResolvePlan(subscription: Option<Subscription>): (plan: string)
    ensures plan == "free"
    ensures plan in PLANS
  {
    "free"
  }

  /** The plan's limits; a plan missing from the table gets the free plan's. */
  function PlanLimits(plan: string): (limits: map<string, Limit>)
    ensures plan in PLANS ==> limits == PLANS[plan]
    ensures plan !in PLANS ==> limits == PLANS["free"]
  {
    if plan in PLANS then PLANS[plan] else PLANS["free"]
  }

  /** The limit on `resource` under `plan`; a resource the plan does not list is bounded at 0. */
  function ResourceLimit(plan: string, resource: string): (l: Limit)
    ensures resource !in PlanLimits(plan) ==> l == Bounded(0)
  {
    var limits := PlanLimits(plan);
    if resource in limits then limits[resource] else Bounded(0)
  }

  /** The refusal message: names the plan, the limit and the resource with `_` read as spaces. */
  function LimitReason(plan: string, limit: int, resource: string): (reason: string)
    ensures OccursAt(reason, plan, 19)
    ensures OccursAt(reason, IntToString(limit), 19 + |plan| + 15)
    ensures Contains(reason, ReplaceAll(resource, '_', ' '))
  {
    var opening, middle := "You've reached the ", " plan limit of ";
    var number, spaced := IntToString(limit), ReplaceAll(resource, '_', ' ');
    ReasonParts(opening, plan, middle, number, spaced, ". Upgrade to Pro for unlimited access.");
    opening + plan + middle + number + " " + spaced + ". Upgrade to Pro for unlimited access."
  }

  /** Where the plan, the number and the resource sit in the assembled message. */
  lemma ReasonParts(opening: string, plan: string, middle: string, number: string, spaced: string, closing: string)
    ensures var reason := opening + plan + middle + number + " " + spaced + closing;
      && OccursAt(reason, plan, |opening|)
      && OccursAt(reason, number, |opening| + |plan| + |middle|)
      && OccursAt(reason, spaced, |opening| + |plan| + |middle| + |number| + 1)
  {
    var reason := opening + plan + middle + number + " " + spaced + closing;
    assert reason == opening + plan + (middle + number + " " + spaced + closing);
    ConcatSlices(opening, plan, middle + number + " " + spaced + closing);
    assert reason == (opening + plan + middle) + number + (" " + spaced + closing);
    ConcatSlices(opening + plan + middle, number, " " + spaced + closing);
    ConcatSlices(opening + plan + middle + number + " ", spaced, closing);
  }

  /**
   * `checkEntitlement`: an absent plan resolves to the free plan; an
   * unlimited resource is always allowed; a bounded one is allowed exactly
   * while usage is below the bound, and a refusal carries a reason.
   */
  function CheckEntitlement(userId: string, resource: string, currentUsage: int, plan: Option<string>): (e: Entitlement)
    ensures e.currentUsage == currentUsage
    ensures e.reason.Some? <==> !e.allowed
    ensures e.limit == ResourceLimit(plan.GetOr(ResolvePlan(None)), resource)
    ensures e.allowed <==> e.limit.Unlimited? || currentUsage < e.limit.n
    ensures !e.allowed ==> e.reason == Some(LimitReason(plan.GetOr(ResolvePlan(None)), e.limit.n, resource))
  {
    var resolvedPlan := plan.GetOr(ResolvePlan(None));
    match ResourceLimit(resolvedPlan, resource)
    case Unlimited => Entitlement(true, None, currentUsage, Unlimited)
    case Bounded(n) =>
      if currentUsage >= n then
        Entitlement(false, Some(LimitReason(resolvedPlan, n, resource)), currentUsage, Bounded(n))
      else
        Entitlement(true, None, currentUsage, Bounded(n))
  }

  /** The result as the source shapes it, with the limit as an integer (-1 for unlimited). */
  datatype SentinelEntitlement = SentinelEntitlement(allowed: bool, reason: Option<string>, currentUsage: int, limit: int)

  /** The check written over the manifest's integer table, with -1 meaning unlimited. */
  function CheckEntitlementSentinel(userId: string, resource: string, currentUsage: int, plan: Option<string>): SentinelEntitlement
  {
    var resolvedPlan := plan.GetOr(ResolvePlan(None));
    var limits := if resolvedPlan in PLAN_SENTINELS then PLAN_SENTINELS[resolvedPlan] else PLAN_SENTINELS["free"];
    var limit := if resource in limits then limits[resource] else 0;
    if limit == -1 then SentinelEntitlement(true, None, currentUsage, -1)
    else if currentUsage >= limit then
      SentinelEntitlement(false, Some(LimitReason(resolvedPlan, limit, resource)), currentUsage, limit)
    else SentinelEntitlement(true, None, currentUsage, limit)
  }

  /** The tagged check and the sentinel check give the same answer on every input. */
  lemma TaggedMatchesSentinel(userId: string, resource: string, currentUsage: int, plan: Option<string>)
    ensures var e := CheckEntitlement(userId, resource, currentUsage, plan);
      CheckEntitlementSentinel(userId, resource, currentUsage, plan)
        == SentinelEntitlement(e.allowed, e.reason, e.currentUsage, ToSentinel(e.limit))
  {
    PlanTable();
    SentinelTable();
  }

  /** A plan name the table does not know is checked against the free plan's limits. */
  lemma UnknownPlanIsFree(userId: string, resource: string, currentUsage: int, plan: string)
    requires plan !in PLANS
    ensures CheckEntitlement(userId, resource, currentUsage, Some(plan)).allowed
        == CheckEntitlement(userId, resource, currentUsage, None).allowed
    ensures CheckEntitlement(userId, resource, currentUsage, Some(plan)).limit
        == CheckEntitlement(userId, resource, currentUsage, None).limit
  {
  }

  /** A resource no plan lists is bounded at 0, so any non-negative usage is refused. */
  lemma UnlistedResourceDenied(userId: string, resource: string, currentUsage: int, plan: Option<string>)
    requires resource !in ResourceKeys()
    requires currentUsage >= 0
    ensures !CheckEntitlement(userId, resource, currentUsage, plan).allowed
    ensures CheckEntitlement(userId, resource, currentUsage, plan).limit == Bounded(0)
  {
    PlanTable();
  }

  /** On the pro plan every listed resource is allowed at any usage. */
  lemma ProUnlimited(userId: string, resource: string, currentUsage: int)
    requires resource in ResourceKeys()
    ensures CheckEntitlement(userId, resource, currentUsage, Some("pro")) == Entitlement(true, None, currentUsage, Unlimited)
  {
    PlanTable();
  }

  /** On the free plan five compose configurations may be saved: usage 0 to 4 is allowed, 5 and more refused. */
  lemma FreeComposeConfigs(userId: string, currentUsage: int)
    ensures CheckEntitlement(userId, "compose_configs", currentUsage, None).allowed <==> currentUsage < 5
    ensures CheckEntitlement(userId, "compose_configs", currentUsage, Some("free")).allowed <==> currentUsage < 5
  {
    PlanTable();
  }
}

/** The monthly quota check (`checkSubscriptionLimit`): a plan-to-limit
    table in which -1 means unlimited, and a request is allowed while this
    month's usage is below the plan's limit. Every failure denies. */
module SubscriptionLimits {
  import opened Common

  datatype UsageType = SeoScans | HeatMaps | Citations

  function TypeName(t: UsageType): string
  {
    match t
    case SeoScans => "seoScans"
    case HeatMaps => "heatMaps"
    case Citations => "citations"
  }

  /** The three plans of `PLAN_LIMITS` (lines 7-23). */
  predicate IsPlan(plan: string)
  {
    plan == "free" || plan == "basic" || plan == "pro"
  }

  /** `PLAN_LIMITS[plan][type]`: the same limit for all three usage types. */
  function Limit(plan: string, t: UsageType): (n: int)
    requires IsPlan(plan)
    ensures n == -1 <==> plan == "pro"
    ensures n != -1 ==> n > 0
  {
    if plan == "free" then 5 else if plan == "basic" then 50 else -1
  }

  /** The names every JavaScript object inherits from `Object.prototype`:
      indexing `PLAN_LIMITS` with one of them yields a function or object,
      not a limit row. */
  predicate Inherited(plan: string)
  {
    plan in {"constructor", "hasOwnProperty", "isPrototypeOf", "propertyIsEnumerable",
             "toLocaleString", "toString", "valueOf", "__proto__",
             "__defineGetter__", "__defineSetter__", "__lookupGetter__", "__lookupSetter__"}
  }

  /** What the user lookup returned: the subscription's plan, no user or no
      subscription, or a thrown error. */
  datatype UserLookup = HasPlan(plan: string) | NoSubscription | LookupFailed

  datatype Decision = Decision(allowed: bool, message: Option<string>)

  const Allow := Decision(true, None)
  const NoActive := Decision(false, Some("No active subscription found"))
  const CheckFailed := Decision(false, Some("Failed to check subscription limit"))

  function LimitReached(t: UsageType): Decision
  {
    Decision(false, Some("Monthly limit reached for " + TypeName(t) + ". Please upgrade your plan."))
  }

  /** The check as the source has it. `count` is this month's usage of the
      type, or `None` when the count query throws. A plan that is one of the
      inherited names gets an undefined limit; `count >= undefined` is
      false, so such a request is allowed. */
  function CheckAsWritten(user: UserLookup, t: UsageType, count: Option<nat>): (d: Decision)
    ensures user.HasPlan? && Inherited(user.plan) && count.Some? ==> d.allowed
  {
    match user
    case LookupFailed => CheckFailed
    case NoSubscription => NoActive
    case HasPlan(plan) =>
      if Inherited(plan) then
        (if count.None? then CheckFailed else Allow)
      else if !IsPlan(plan) then CheckFailed
      else if Limit(plan, t) == -1 then Allow
      else if count.None? then CheckFailed
      else if count.value >= Limit(plan, t) then LimitReached(t)
      else Allow
  }

  /** The check with only the three own plans accepted: any other plan,
      inherited names included, fails closed. */
  function Check(user: UserLookup, t: UsageType, count: Option<nat>): (d: Decision)
    ensures d.allowed ==> user.HasPlan? && IsPlan(user.plan)
    ensures d.allowed <==> d.message.None?
    ensures user.NoSubscription? ==> d == NoActive
    ensures user.LookupFailed? ==> d == CheckFailed
    ensures user.HasPlan? && !IsPlan(user.plan) ==> d == CheckFailed
    ensures user.HasPlan? && user.plan == "pro" ==> d.allowed
    ensures user.HasPlan? && IsPlan(user.plan) && user.plan != "pro" && count.Some? ==>
      (d.allowed <==> count.value < Limit(user.plan, t))
      && (!d.allowed ==> d == LimitReached(t))
    ensures user.HasPlan? && IsPlan(user.plan) && user.plan != "pro" && count.None? ==> d == CheckFailed
  {
    match user
    case LookupFailed => CheckFailed
    case NoSubscription => NoActive
    case HasPlan(plan) =>
      if !IsPlan(plan) then CheckFailed
      else if Limit(plan, t) == -1 then Allow
      else if count.None? then CheckFailed
      else if count.value >= Limit(plan, t) then LimitReached(t)
      else Allow
  }

  /** The two agree on every plan that is not an inherited name. */
  lemma CheckAgrees(user: UserLookup, t: UsageType, count: Option<nat>)
    requires !(user.HasPlan? && Inherited(user.plan))
    ensures Check(user, t, count) == CheckAsWritten(user, t, count)
  {
  }

  /** A plan named `toString` passes any usage in the source, and is denied
      by the corrected check. */
  lemma InheritedPlanPasses(t: UsageType, c: nat)
    ensures CheckAsWritten(HasPlan("toString"), t, Some(c)).allowed
    ensures !Check(HasPlan("toString"), t, Some(c)).allowed
  {
    assert Inherited("toString");
    assert !IsPlan("toString");
  }

  /** Allowed is downward closed in the usage count. */
  lemma AllowedMonotone(user: UserLookup, t: UsageType, c: nat, c': nat)
    requires c' <= c
    requires Check(user, t, Some(c)).allowed
    ensures Check(user, t, Some(c')).allowed
  {
  }

  /** The free plan allows the first five uses of a month and denies the
      sixth; basic allows fifty. */
  lemma FreeAndBasicQuota(t: UsageType, c: nat)
    ensures Check(HasPlan("free"), t, Some(c)).allowed <==> c <= 4
    ensures Check(HasPlan("basic"), t, Some(c)).allowed <==> c <= 49
  {
  }

  /** Unlimited: a pro plan is allowed without consulting the count. */
  lemma ProUnlimited(t: UsageType, count: Option<nat>)
    ensures Check(HasPlan("pro"), t, count) == Allow
  {
  }
}

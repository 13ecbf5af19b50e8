/** Subscription tiers and the fixed limits attached to each. */
module Plan {
  import opened Options

  datatype PlanTier = Free | Pro

  datatype PlanLimits = PlanLimits(maxActiveTasks: nat, maxJoinedChallenges: nat)

  /** The limits table: free 50 tasks / 2 challenges, pro 10000 / 1000. */
  function Limits(t: PlanTier): PlanLimits {
    match t
    case Free => PlanLimits(50, 2)
    case Pro => PlanLimits(10000, 1000)
  }

  /** A tier is one of the two strings 'free' and 'pro'. */
  function TierName(t: PlanTier): (s: string)
    ensures GetPlanTier(Some(s)) == t
  {
    match t
    case Free => "free"
    case Pro => "pro"
  }

  /**
   * The tier a profile's plan column stands for. `None` covers both a null and
   * an absent column; only the exact string "pro" is the paid tier.
   */
  function GetPlanTier(plan: Option<string>): (t: PlanTier)
    ensures t == Pro <==> plan == Some("pro")
    ensures t == Free <==> (plan == None || (plan.Some? && plan.value != "pro"))
  {
    if plan == Some("pro") then Pro else Free
  }

  /** Reading a tier's own name back gives the same tier. */
  lemma GetPlanTierIdempotent(plan: Option<string>)
    ensures GetPlanTier(Some(TierName(GetPlanTier(plan)))) == GetPlanTier(plan)
  {
  }

  /** The table's values, and no pro limit is below the free one. */
  lemma ProLimitsDominate(t: PlanTier)
    ensures Limits(Free) == PlanLimits(50, 2) && Limits(Pro) == PlanLimits(10000, 1000)
    ensures Limits(t).maxActiveTasks <= Limits(Pro).maxActiveTasks
    ensures Limits(t).maxJoinedChallenges <= Limits(Pro).maxJoinedChallenges
    ensures Limits(Free).maxActiveTasks <= Limits(t).maxActiveTasks
    ensures Limits(Free).maxJoinedChallenges <= Limits(t).maxJoinedChallenges
  {
  }
}

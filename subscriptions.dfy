/**
 * The shared subscription constants: the entitlement identifier, the per-tier
 * usage limits and feature flags, and the two lookups over that table.
 * JavaScript's `Infinity` is the `Unlimited` limit.
 */
module Subscriptions {

  /** The RevenueCat entitlement that stands for the pro subscription. */
  const ENTITLEMENT_PRO: string := "BetweenUs Pro"

  /** The feature key that `HasFeatureAccess` looks up in the table. */
  const SUGGESTED_REPLIES: string := "suggestedReplies"

  datatype Tier = Free | Pro

  /** The metered features (the source's `FeatureType`). */
  datatype Feature = Decoder | Coach | Insights

  /** A daily usage limit: a finite count or `Infinity`. */
  datatype Limit = Finite(count: nat) | Unlimited

  /** `a <= b` with `Unlimited` as the top value. */
  predicate AtMost(a: Limit, b: Limit)
  {
    match b
    case Unlimited => true
    case Finite(m) => a.Finite? && a.count <= m
  }

  /** One row of the limits table. */
  datatype TierLimits = TierLimits(
    decoder: Limit,
    coach: Limit,
    insights: Limit,
    historyRetention: nat,   // days
    suggestedReplies: bool)

  /** The `SUBSCRIPTION_LIMITS` table. */
  function SubscriptionLimits(tier: Tier): (row: TierLimits)
    ensures row.insights == Unlimited
    ensures row.suggestedReplies <==> tier == Pro
    ensures tier == Free ==> row.decoder.Finite? && row.coach.Finite? && row.historyRetention == 7
    ensures tier == Pro ==> row.decoder == Unlimited && row.coach == Unlimited && row.historyRetention == 365
  {
    match tier
    case Free => TierLimits(Finite(3), Finite(5), Unlimited, 7, false)
    case Pro => TierLimits(Unlimited, Unlimited, Unlimited, 365, true)
  }

  /** `getUsageLimit`: the table entry of `feature` in the row of `tier`. */
  function GetUsageLimit(tier: Tier, feature: Feature): (limit: Limit)
    ensures tier == Pro || feature == Insights ==> limit == Unlimited
    ensures tier == Free && feature == Decoder ==> limit == Finite(3)
    ensures tier == Free && feature == Coach ==> limit == Finite(5)
  {
    var row := SubscriptionLimits(tier);
    match feature
    case Decoder => row.decoder
    case Coach => row.coach
    case Insights => row.insights
  }

  /**
   * `hasFeatureAccess`: the `suggestedReplies` flag of the tier for that key,
   * and access for every other key.
   */
  function HasFeatureAccess(tier: Tier, feature: string): (granted: bool)
    ensures granted <==> feature != SUGGESTED_REPLIES || tier == Pro
  {
    if feature == SUGGESTED_REPLIES then SubscriptionLimits(tier).suggestedReplies else true
  }

  lemma FreeTierLimits()
    ensures GetUsageLimit(Free, Decoder) == Finite(3)
    ensures GetUsageLimit(Free, Coach) == Finite(5)
    ensures GetUsageLimit(Free, Insights) == Unlimited
  {
  }

  lemma ProTierUnlimited(feature: Feature)
    ensures GetUsageLimit(Pro, feature) == Unlimited
  {
  }

  /** Upgrading never lowers a limit. */
  lemma ProDominatesFree(feature: Feature)
    ensures AtMost(GetUsageLimit(Free, feature), GetUsageLimit(Pro, feature))
  {
  }

  lemma HistoryRetentionDays()
    ensures SubscriptionLimits(Free).historyRetention == 7
    ensures SubscriptionLimits(Pro).historyRetention == 365
    ensures SubscriptionLimits(Free).historyRetention <= SubscriptionLimits(Pro).historyRetention
  {
  }

  lemma SuggestedRepliesOnlyForPro(tier: Tier)
    ensures HasFeatureAccess(tier, SUGGESTED_REPLIES) <==> tier == Pro
  {
  }

  lemma OtherFeaturesForEveryTier(tier: Tier, feature: string)
    requires feature != SUGGESTED_REPLIES
    ensures HasFeatureAccess(tier, feature)
  {
  }

  /** Every feature flag the free tier has, the pro tier has too. */
  lemma ProAccessIncludesFree(feature: string)
    ensures HasFeatureAccess(Free, feature) ==> HasFeatureAccess(Pro, feature)
  {
  }
}

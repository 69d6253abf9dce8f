/**
 * The loyalty badge: the display settings for each loyalty tier.
 */
module LoyaltyBadge {
  import opened Js

  /** The colour scheme of the badge. */
  datatype Look = Dark | GoldGradient | SilverGradient | Plain

  datatype TierConfig = TierConfig(title: string, subtitle: string, look: Look, icon: string)

  const PLATINUM_CONFIG := TierConfig("Platinum", "Client VIP", Dark, "diamond")
  const GOLD_CONFIG := TierConfig("Gold", "Client premium", GoldGradient, "military_tech")
  const SILVER_CONFIG := TierConfig("Silver", "Client fidèle", SilverGradient, "workspace_premium")
  const BASIC_CONFIG := TierConfig("Basic", "Nouveau client", Plain, "person")

  /** `getTierConfig`: an exact, case-sensitive match on the three named
      tiers; `BASIC`, any other value and a missing tier share the basic
      settings. */
  function GetTierConfig(tier: Option<string>): (c: TierConfig)
    ensures c == PLATINUM_CONFIG <==> tier == Some("PLATINUM")
    ensures c == GOLD_CONFIG <==> tier == Some("GOLD")
    ensures c == SILVER_CONFIG <==> tier == Some("SILVER")
    ensures c == BASIC_CONFIG <==> tier !in {Some("PLATINUM"), Some("GOLD"), Some("SILVER")}
    ensures c.subtitle != []
  {
    match tier
    case Some("PLATINUM") => PLATINUM_CONFIG
    case Some("GOLD") => GOLD_CONFIG
    case Some("SILVER") => SILVER_CONFIG
    case _ => BASIC_CONFIG
  }

  /** Lower-case spellings are not recognised. */
  lemma MatchingIsCaseSensitive()
    ensures GetTierConfig(Some("gold")) == BASIC_CONFIG
    ensures GetTierConfig(Some("platinum")) == BASIC_CONFIG
    ensures GetTierConfig(None) == GetTierConfig(Some("BASIC"))
  {
  }
}

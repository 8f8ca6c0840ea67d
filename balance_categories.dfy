/** The balance labeller (src/lib/utils/balanceCategories.ts). */
module BalanceCategories {

  import opened BracketTargeting

  const NO_BALANCE := "No Balance"
  const SHRIMP_LABEL := "Shrimp (0-0.1 ETH)"
  const CRAB_LABEL := "Crab (0.1-1 ETH)"
  const FISH_LABEL := "Fish (1-10 ETH)"
  const DOLPHIN_LABEL := "Dolphin (10-32 ETH)"
  const WHALE_LABEL := "Whale (32+ ETH)"
  const UNKNOWN := "Unknown"

  /** The tier labels in the order of `TIER_TAGS`. */
  const TIER_LABELS: seq<string> := [SHRIMP_LABEL, CRAB_LABEL, FISH_LABEL, DOLPHIN_LABEL, WHALE_LABEL]

  /** `getBalanceCategory`: 'No Balance' at exactly 0, 'Unknown' below it, and
      for b > 0 the label of the one tier whose bracket predicate (the switch of
      the count endpoint) holds. */
  function GetBalanceCategory(balance: real): (category: string)
    ensures category == NO_BALANCE <==> balance == 0.0
    ensures category == UNKNOWN <==> balance < 0.0
    ensures balance > 0.0 ==> category in TIER_LABELS
    ensures forall i :: 0 <= i < 5 ==> (category == TIER_LABELS[i] <==> TagHolds(balance, TIER_TAGS[i]))
  {
    if balance == 0.0 then NO_BALANCE
    else if balance > 0.0 && balance <= 0.1 then SHRIMP_LABEL
    else if balance > 0.1 && balance <= 1.0 then CRAB_LABEL
    else if balance > 1.0 && balance <= 10.0 then FISH_LABEL
    else if balance > 10.0 && balance <= 32.0 then DOLPHIN_LABEL
    else if balance > 32.0 then WHALE_LABEL
    else UNKNOWN
  }

  /** Each boundary falls in the lower tier (upper-inclusive). */
  lemma CategoryBoundaries()
    ensures GetBalanceCategory(0.0) == NO_BALANCE
    ensures GetBalanceCategory(0.1) == SHRIMP_LABEL
    ensures GetBalanceCategory(1.0) == CRAB_LABEL
    ensures GetBalanceCategory(10.0) == FISH_LABEL
    ensures GetBalanceCategory(32.0) == DOLPHIN_LABEL
  {
  }

  /** Every positive balance gets exactly one tier label, never 'No Balance' or
      'Unknown'. */
  lemma PositiveGetsOneTier(balance: real)
    requires balance > 0.0
    ensures exists i :: 0 <= i < 5 && GetBalanceCategory(balance) == TIER_LABELS[i]
    ensures forall i, j ::
              (0 <= i < 5 && 0 <= j < 5 && GetBalanceCategory(balance) == TIER_LABELS[i]
               && GetBalanceCategory(balance) == TIER_LABELS[j]) ==> i == j
    ensures GetBalanceCategory(balance) != NO_BALANCE && GetBalanceCategory(balance) != UNKNOWN
  {
    var category := GetBalanceCategory(balance);
    var i :| 0 <= i < 5 && category == TIER_LABELS[i];
  }
}

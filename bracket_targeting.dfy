/** The per-tag bracket switch. The count endpoint, the `useSurveys` hook and the
    survey GET route each carry a textual copy of the same `switch (bracket)`;
    it is stated once here. What differs between the three copies (how an empty
    list and the targeting value are treated) lives in each module. */
module BracketTargeting {

  import opened Types

  const NON_ZERO_TAG := "non_zero"
  const SHRIMP_TAG := "shrimp"
  const CRAB_TAG := "crab"
  const FISH_TAG := "fish"
  const DOLPHIN_TAG := "dolphin"
  const WHALE_TAG := "whale"

  /** The five size tiers, smallest first. */
  const TIER_TAGS: seq<string> := [SHRIMP_TAG, CRAB_TAG, FISH_TAG, DOLPHIN_TAG, WHALE_TAG]

  /** One case of the switch: an unrecognised tag (including 'all') is false. */
  predicate TagHolds(balance: real, tag: string)
    ensures TagHolds(balance, tag) ==> balance > 0.0
    ensures tag != NON_ZERO_TAG && tag !in TIER_TAGS ==> !TagHolds(balance, tag)
  {
    if tag == NON_ZERO_TAG then balance > 0.0
    else if tag == SHRIMP_TAG then balance > 0.0 && balance <= 0.1
    else if tag == CRAB_TAG then balance > 0.1 && balance <= 1.0
    else if tag == FISH_TAG then balance > 1.0 && balance <= 10.0
    else if tag == DOLPHIN_TAG then balance > 10.0 && balance <= 32.0
    else if tag == WHALE_TAG then balance > 32.0
    else false
  }

  /** `tags.some(tag => TagHolds(balance, tag))`; false on []. */
  predicate AnyTagHolds(balance: real, tags: seq<string>)
    decreases |tags|
  {
    |tags| > 0 && (TagHolds(balance, tags[0]) || AnyTagHolds(balance, tags[1..]))
  }

  /** `some` is true exactly when one of the listed tags holds. */
  lemma {:induction false} AnyTagHoldsIff(balance: real, tags: seq<string>)
    ensures AnyTagHolds(balance, tags) <==> exists i :: 0 <= i < |tags| && TagHolds(balance, tags[i])
    decreases |tags|
  {
    if |tags| > 0 {
      AnyTagHoldsIff(balance, tags[1..]);
      if AnyTagHolds(balance, tags[1..]) {
        var i :| 0 <= i < |tags[1..]| && TagHolds(balance, tags[1..][i]);
        assert TagHolds(balance, tags[i + 1]);
      }
      if exists i :: 0 <= i < |tags| && TagHolds(balance, tags[i]) {
        var i :| 0 <= i < |tags| && TagHolds(balance, tags[i]);
        if i > 0 {
          assert TagHolds(balance, tags[1..][i - 1]);
        }
      }
    }
  }

  /** Membership form of `AnyTagHoldsIff`: the order and repetition of tags do
      not matter. */
  lemma AnyTagHoldsMembers(balance: real, tags: seq<string>)
    ensures AnyTagHolds(balance, tags) <==> exists t :: t in tags && TagHolds(balance, t)
  {
    AnyTagHoldsIff(balance, tags);
    if exists t :: t in tags && TagHolds(balance, t) {
      var t :| t in tags && TagHolds(balance, t);
      var i :| 0 <= i < |tags| && tags[i] == t;
    }
  }

  /** A tag outside the six known ones never holds; 'all' is one of them. */
  lemma UnknownTagFails(balance: real, tag: string)
    requires tag !in TIER_TAGS && tag != NON_ZERO_TAG
    ensures !TagHolds(balance, tag)
  {
  }

  /** 'non_zero' is exactly the positive balances. */
  lemma NonZeroTagIsPositive(balance: real)
    ensures TagHolds(balance, NON_ZERO_TAG) <==> balance > 0.0
  {
  }

  /** For b > 0 exactly one of the five tiers holds, and for b <= 0 none:
      the tiers partition (0, infinity), with each boundary in the lower tier. */
  lemma TiersPartitionPositive(balance: real)
    ensures balance > 0.0 ==> exists i :: 0 <= i < 5 && TagHolds(balance, TIER_TAGS[i])
    ensures forall i, j :: 0 <= i < 5 && 0 <= j < 5 && TagHolds(balance, TIER_TAGS[i]) && TagHolds(balance, TIER_TAGS[j]) ==> i == j
    ensures balance <= 0.0 ==> forall i :: 0 <= i < 5 ==> !TagHolds(balance, TIER_TAGS[i])
  {
    if balance > 0.0 {
      if balance <= 0.1 { assert TagHolds(balance, TIER_TAGS[0]); }
      else if balance <= 1.0 { assert TagHolds(balance, TIER_TAGS[1]); }
      else if balance <= 10.0 { assert TagHolds(balance, TIER_TAGS[2]); }
      else if balance <= 32.0 { assert TagHolds(balance, TIER_TAGS[3]); }
      else { assert TagHolds(balance, TIER_TAGS[4]); }
    }
  }

  /** Every tier is contained in 'non_zero'. */
  lemma TierImpliesNonZero(balance: real, tag: string)
    requires tag in TIER_TAGS && TagHolds(balance, tag)
    ensures TagHolds(balance, NON_ZERO_TAG)
  {
  }

  /** The upper boundaries belong to the lower tier: 0.1 is shrimp, 1 crab,
      10 fish, 32 dolphin, and nothing holds at 0. */
  lemma TierBoundaries()
    ensures TagHolds(0.1, SHRIMP_TAG) && !TagHolds(0.1, CRAB_TAG)
    ensures TagHolds(1.0, CRAB_TAG) && !TagHolds(1.0, FISH_TAG)
    ensures TagHolds(10.0, FISH_TAG) && !TagHolds(10.0, DOLPHIN_TAG)
    ensures TagHolds(32.0, DOLPHIN_TAG) && !TagHolds(32.0, WHALE_TAG)
    ensures forall t :: !TagHolds(0.0, t)
  {
  }

  /** The bracket-related fields of a stored survey document, as the `useSurveys`
      hook and the survey GET route read them. `selectedBalanceBrackets` may be
      missing from a document (`.some` on it then throws); `id` is present only
      if the writer stored one. */
  datatype SurveyRecord = SurveyRecord(
    id: Option<string>,
    title: string,
    description: string,
    balanceTargeting: string,
    selectedBalanceBrackets: Option<seq<string>>)

  /** A query result entry: the document id and the stored record. */
  datatype SurveyDoc = SurveyDoc(docId: string, data: SurveyRecord)

  /** What a filter callback does with one survey: keep it, drop it, or throw
      (a `TypeError` from `.some` on a missing bracket list). */
  datatype Verdict = Keep | Drop | Throws
}

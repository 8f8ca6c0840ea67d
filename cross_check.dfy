/** Where the copies of one rule in different files agree and where they
    part: the bracket test of the count endpoint, of `useSurveys` and of the
    survey GET route; the tier boundaries of the labeller and of the chart;
    the id of a listed survey; the reach estimate of the create-survey page
    against what users are later shown; and the dashboard's "rewards left"
    against the capacity check of `submitSurvey`. */
module CrossCheck {

  import opened Types
  import opened BracketTargeting
  import EligibleUsersCount
  import UseSurveys
  import SurveysRoute
  import BalanceCategories
  import WalletBalanceChart
  import CreateSurvey
  import Api
  import Dashboard

  /** The criteria the count endpoint receives for a stored bracket setting. */
  function CriteriaFor(targeting: string, brackets: seq<string>): (c: EligibleUsersCount.CountCriteria)
    ensures c.balanceTargeting == targeting && c.selectedBalanceBrackets == brackets
    ensures !EligibleUsersCount.CountryFilterApplies(c)
  {
    EligibleUsersCount.CountCriteria("all", [], targeting, brackets)
  }

  /** On 'balance' with a non-empty list, the three copies of the bracket test
      give the same answer for every balance. */
  lemma BracketCopiesAgree(balance: real, brackets: seq<string>, s: SurveyRecord)
    requires |brackets| > 0
    requires s.balanceTargeting == "balance" && s.selectedBalanceBrackets == Some(brackets)
    ensures var counted := EligibleUsersCount.PassesBalance(CriteriaFor("balance", brackets),
                                                            EligibleUsersCount.UserDoc(None, Some(balance)));
            (counted <==> UseSurveys.IsUserEligibleForSurvey(balance, s) == Keep)
            && (counted <==> SurveysRoute.GetVerdict(balance, s) == Keep)
            && UseSurveys.IsUserEligibleForSurvey(balance, s) == SurveysRoute.GetVerdict(balance, s)
  {
    AnyTagHoldsMembers(balance, brackets);
  }

  /** An empty list on 'balance' splits them: the count endpoint counts every
      balance, while the filter callbacks of the hook and of the GET route
      drop the survey for every balance. */
  lemma EmptyBracketsSplit(balance: real, s: SurveyRecord)
    requires s.balanceTargeting == "balance" && s.selectedBalanceBrackets == Some([])
    ensures EligibleUsersCount.PassesBalance(CriteriaFor("balance", []), EligibleUsersCount.UserDoc(None, Some(balance)))
    ensures UseSurveys.IsUserEligibleForSurvey(balance, s) == Drop
    ensures SurveysRoute.GetVerdict(balance, s) == Drop
  {
  }

  /** A targeting value other than 'all' and 'balance' splits them too: the
      count endpoint and the hook apply the brackets, the GET route drops the
      survey. */
  lemma OtherTargetingSplit(s: SurveyRecord)
    requires s.balanceTargeting == "non-zero" && s.selectedBalanceBrackets == Some([NON_ZERO_TAG])
    ensures EligibleUsersCount.PassesBalance(CriteriaFor("non-zero", [NON_ZERO_TAG]), EligibleUsersCount.UserDoc(None, Some(1.0)))
    ensures UseSurveys.IsUserEligibleForSurvey(1.0, s) == Keep
    ensures SurveysRoute.GetVerdict(1.0, s) == Drop
  {
    assert AnyTagHolds(1.0, [NON_ZERO_TAG]);
  }

  /** The labeller puts each tier's upper end in that tier, the chart puts it
      in the next bin: 0.1 is 'Shrimp' for one and 'Crab' for the other, and
      0 is 'No Balance' for the labeller but in the chart's shrimp bin. */
  lemma TierBoundaryConventions()
    ensures BalanceCategories.GetBalanceCategory(0.1) == BalanceCategories.SHRIMP_LABEL
    ensures WalletBalanceChart.InBin(0.1, WalletBalanceChart.BALANCE_BRACKETS[3])
    ensures !WalletBalanceChart.InBin(0.1, WalletBalanceChart.BALANCE_BRACKETS[2])
    ensures BalanceCategories.GetBalanceCategory(0.0) == BalanceCategories.NO_BALANCE
    ensures WalletBalanceChart.InBin(0.0, WalletBalanceChart.BALANCE_BRACKETS[2])
  {
  }

  /** Away from the boundaries the two agree: a balance strictly inside a
      tier is in the bin with that tier's range. */
  lemma TierInteriorsAgree(balance: real, i: int)
    requires 0 <= i < 5
    requires TagHolds(balance, TIER_TAGS[i])
    requires i < 4 ==> balance < [0.1, 1.0, 10.0, 32.0][i]
    ensures BalanceCategories.GetBalanceCategory(balance) == BalanceCategories.TIER_LABELS[i]
    ensures WalletBalanceChart.InBin(balance, WalletBalanceChart.BALANCE_BRACKETS[i + 2])
  {
  }

  /** The hook stamps the document id over a stored `id`; the GET route keeps
      the stored one. */
  lemma IdOverrideDiffers(d: SurveyDoc)
    requires d.data.id.Some? && d.data.id.value != d.docId
    ensures UseSurveys.Stamp(d).id == Some(d.docId)
    ensures SurveysRoute.WithDocId(d).id == d.data.id
    ensures UseSurveys.Stamp(d) != SurveysRoute.WithDocId(d)
  {
  }

  /** The record the filter callbacks of the hook and of the GET route see
      for a document holding a submitted draft. */
  function StoredRecord(payload: CreateSurvey.SurveyData): (s: SurveyRecord)
    ensures s.balanceTargeting == payload.balanceTargeting
    ensures s.selectedBalanceBrackets == Some(payload.selectedBalanceBrackets)
  {
    SurveyRecord(None, payload.title, payload.description, payload.balanceTargeting,
                 Some(payload.selectedBalanceBrackets))
  }

  /** Choosing 'balance' on the create page and picking no bracket: the
      estimate counts every user the country filter lets through, whatever
      their balance, while the filter callbacks of the hook and of the GET
      route drop the stored record for every balance. */
  lemma EstimateCountsWhoNeverSeeIt(st: CreateSurvey.PageState, u: EligibleUsersCount.UserDoc, balance: real)
    requires st.balanceTargeting == "balance" && st.selectedBalanceBrackets == []
    ensures EligibleUsersCount.PassesBalance(CreateSurvey.CountCriteriaOf(st), u)
    ensures UseSurveys.IsUserEligibleForSurvey(balance, StoredRecord(CreateSurvey.SubmitPayload(st))) == Drop
    ensures SurveysRoute.GetVerdict(balance, StoredRecord(CreateSurvey.SubmitPayload(st))) == Drop
  {
  }

  /** With at least one bracket picked on 'balance', the estimate counts a
      user of a given balance exactly when the hook's and the GET route's
      filter callbacks keep the stored record. Which queries return the
      document is a separate matter: only the GET route's does. */
  lemma EstimateMatchesListing(st: CreateSurvey.PageState, balance: real)
    requires st.balanceTargeting == "balance" && |st.selectedBalanceBrackets| > 0
    ensures var counted := EligibleUsersCount.PassesBalance(CreateSurvey.CountCriteriaOf(st),
                                                            EligibleUsersCount.UserDoc(None, Some(balance)));
            var s := StoredRecord(CreateSurvey.SubmitPayload(st));
            (counted <==> UseSurveys.IsUserEligibleForSurvey(balance, s) == Keep)
            && (counted <==> SurveysRoute.GetVerdict(balance, s) == Keep)
  {
    AnyTagHoldsMembers(balance, st.selectedBalanceBrackets);
  }

  /** A prize survey without `maxUsers` whose prizes are all claimed shows
      0 rewards left on the dashboard, yet `submitSurvey` still accepts it. */
  lemma PrizeShowsNoneLeftButAccepts(s: AdminSurvey)
    requires s.SurveyReward().Prize? && s.SurveyReward().maxUsers.None?
    requires s.Claimed() >= s.SurveyReward().numberOfPrizes
    ensures Dashboard.FormatRewardsLeft(s) == Dashboard.Left(0)
    ensures Api.ClaimCheck(s) == Api.Accepted
  {
  }

  /** A pool without `maxUsers` and a points survey agree: some reward is
      shown left exactly when a submission is accepted. */
  lemma RewardsLeftMatchesAcceptance(s: AdminSurvey)
    requires (s.SurveyReward().Pool? && s.SurveyReward().maxUsers.None?) || s.SurveyReward().Points?
    ensures Dashboard.FormatRewardsLeft(s).Unlimited? ==> Api.ClaimCheck(s) == Api.Accepted
    ensures Dashboard.FormatRewardsLeft(s).Left? ==>
              (Dashboard.FormatRewardsLeft(s).count > 0 <==> Api.ClaimCheck(s) == Api.Accepted)
  {
  }

  /** A pool whose `maxUsers` is below its supply: the dashboard counts from
      the supply and shows rewards left that `submitSurvey` refuses. */
  lemma PoolCapHiddenFromDashboard(s: AdminSurvey)
    requires s.SurveyReward().Pool? && s.SurveyReward().maxUsers.Some?
    requires s.SurveyReward().maxUsers.value <= s.Claimed() < s.SurveyReward().supply
    ensures Dashboard.FormatRewardsLeft(s).Left? && Dashboard.FormatRewardsLeft(s).count > 0
    ensures Api.ClaimCheck(s) == Api.Rejected(Api.MaxParticipantsReached)
  {
  }
}

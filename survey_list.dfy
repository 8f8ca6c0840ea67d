/** The user-facing survey list (src/app/components/SurveyList.tsx): a filter
    over `walletBalanceTarget` and the survey's closed [min, max] range. */
module SurveyList {

  import opened Types
  import opened Seqs
  import SurveysRoute

  /** The filter callback. */
  predicate Shows(balance: real, survey: Survey)
    ensures survey.walletBalanceTarget == AllBalances ==> Shows(balance, survey)
    ensures survey.walletBalanceTarget == NonZero ==> (Shows(balance, survey) <==> balance > 0.0)
    ensures survey.walletBalanceTarget !in {AllBalances, NonZero} && Shows(balance, survey) ==>
              survey.minWalletBalance <= balance
  {
    match survey.walletBalanceTarget
    case AllBalances => true
    case NonZero => balance > 0.0
    case _ => survey.minWalletBalance <= balance && survey.maxWalletBalance.Admits(balance)
  }

  /** `surveys.filter(...)`. */
  function EligibleSurveys(balance: real, surveys: seq<Survey>): (r: seq<Survey>)
    ensures |r| <= |surveys|
    ensures forall s :: s in r ==> Shows(balance, s)
    decreases |surveys|
  {
    if |surveys| == 0 then []
    else
      var init := EligibleSurveys(balance, surveys[..|surveys| - 1]);
      var last := surveys[|surveys| - 1];
      if Shows(balance, last) then init + [last] else init
  }

  /** The output is an order-preserving subsequence of the input, and it keeps
      exactly the surveys the callback accepts. */
  lemma {:induction false} EligibleSurveysIsFilter(balance: real, surveys: seq<Survey>)
    ensures IsSubsequence(EligibleSurveys(balance, surveys), surveys)
    ensures forall s :: s in surveys ==> (s in EligibleSurveys(balance, surveys) <==> Shows(balance, s))
    decreases |surveys|
  {
    if |surveys| > 0 {
      var init := surveys[..|surveys| - 1];
      var last := surveys[|surveys| - 1];
      EligibleSurveysIsFilter(balance, init);
      var r := EligibleSurveys(balance, surveys);
      assert surveys == init + [last];
      if Shows(balance, last) {
        assert r[..|r| - 1] == EligibleSurveys(balance, init);
      }
    }
  }

  /** 'all' surveys are always shown, 'non-zero' ones exactly for a positive
      balance, and any other target by the closed range. */
  lemma ShowsByTarget(balance: real, survey: Survey)
    ensures survey.walletBalanceTarget == AllBalances ==> Shows(balance, survey)
    ensures survey.walletBalanceTarget == NonZero ==> (Shows(balance, survey) <==> balance > 0.0)
    ensures survey.walletBalanceTarget in {Low, Medium, High} ==>
              (Shows(balance, survey) <==> survey.minWalletBalance <= balance && survey.maxWalletBalance.Admits(balance))
  {
  }

  /** A survey whose range was set by the `POST` switch for `target`. */
  function SurveyWithTarget(base: Survey, target: WalletBalanceTarget): (s: Survey)
    ensures s.walletBalanceTarget == target
    ensures (s.minWalletBalance, s.maxWalletBalance) == SurveysRoute.TargetRange(target.Name())
  {
    var range := SurveysRoute.TargetRange(target.Name());
    base.(walletBalanceTarget := target, minWalletBalance := range.0, maxWalletBalance := range.1)
  }

  /** Closed ranges overlap: a balance of exactly 1 is shown both 'low' and
      'medium' surveys, and exactly 10 both 'medium' and 'high'. */
  lemma RangesOverlapAtBoundaries(base: Survey)
    ensures Shows(1.0, SurveyWithTarget(base, Low)) && Shows(1.0, SurveyWithTarget(base, Medium))
    ensures Shows(10.0, SurveyWithTarget(base, Medium)) && Shows(10.0, SurveyWithTarget(base, High))
  {
  }

  /** Every non-negative balance is shown at least one of the low/medium/high
      surveys; a 'non-zero' survey ignores its stored [1e-18, inf) range and is
      shown exactly for a positive balance. */
  lemma RangesCoverNonNegative(base: Survey, balance: real)
    requires balance >= 0.0
    ensures Shows(balance, SurveyWithTarget(base, Low)) || Shows(balance, SurveyWithTarget(base, Medium))
            || Shows(balance, SurveyWithTarget(base, High))
    ensures Shows(balance, SurveyWithTarget(base, NonZero)) <==> balance > 0.0
  {
  }
}

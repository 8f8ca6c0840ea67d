/** The survey store operations (src/lib/api.ts): the reward-capacity check and
    increment done on submission, survey creation, update and deletion, and the
    country filter applied when listing surveys for a user. */
module Api {

  import opened Types
  import opened Seqs

  datatype SubmitError = SurveyNotFound | AllRewardsClaimed | MaxParticipantsReached

  datatype SubmitResult = Accepted | Rejected(error: SubmitError)

  /** The message each rejection throws with. */
  function ErrorMessage(e: SubmitError): string {
    match e
    case SurveyNotFound => "Survey not found"
    case AllRewardsClaimed => "All rewards have been claimed for this survey"
    case MaxParticipantsReached => "Maximum number of participants reached for this survey"
  }

  /** The claim limit the two checks enforce together: a pool is limited by its
      supply and by `maxUsers` when set; points and prizes only by `maxUsers`
      (`numberOfPrizes` plays no part). None means unlimited. */
  function ClaimLimit(r: Reward): (limit: Option<int>)
    ensures r.Pool? ==> limit.Some? && limit.value <= r.supply
    ensures r.maxUsers.Some? ==> limit.Some? && limit.value <= r.maxUsers.value
    ensures limit.Some? ==> (r.maxUsers.Some? && limit.value == r.maxUsers.value) || (r.Pool? && limit.value == r.supply)
  {
    match r
    case Pool(supply, _, _, _, maxUsers) =>
      if maxUsers.Some? && maxUsers.value < supply then maxUsers else Some(supply)
    case _ => r.maxUsers
  }

  /** The survey is still open for claims. */
  predicate HasCapacity(s: AdminSurvey) {
    var limit := ClaimLimit(s.SurveyReward());
    limit.None? || s.Claimed() < limit.value
  }

  /** The two checks of `submitSurvey` on a stored survey, in source order:
      the pool check first, then the `maxUsers` check. */
  function ClaimCheck(s: AdminSurvey): (r: SubmitResult)
    ensures r == Accepted <==> HasCapacity(s)
    ensures r != Rejected(SurveyNotFound)
    ensures r == Rejected(AllRewardsClaimed) ==> s.SurveyReward().Pool? && s.Claimed() >= s.SurveyReward().supply
    ensures r == Rejected(MaxParticipantsReached) ==>
              s.SurveyReward().maxUsers.Some? && s.Claimed() >= s.SurveyReward().maxUsers.value
  {
    var reward := s.SurveyReward();
    if reward.Pool? && s.Claimed() >= reward.supply then Rejected(AllRewardsClaimed)
    else if reward.maxUsers.Some? && s.Claimed() >= reward.maxUsers.value then Rejected(MaxParticipantsReached)
    else Accepted
  }

  /** `rewardsClaimed: survey.rewardsClaimed + 1`, nothing else changed. */
  function Incremented(s: AdminSurvey): (t: AdminSurvey)
    ensures t.Claimed() == s.Claimed() + 1
    ensures t.(base := t.base.(rewardsClaimed := s.Claimed())) == s
  {
    s.(base := s.base.(rewardsClaimed := s.Claimed() + 1))
  }

  /** The stored survey after one submission attempt. */
  function AfterSubmit(s: AdminSurvey): AdminSurvey {
    if ClaimCheck(s) == Accepted then Incremented(s) else s
  }

  /** A stored survey whose claims are within its limit. */
  predicate WithinLimit(s: AdminSurvey) {
    var limit := ClaimLimit(s.SurveyReward());
    limit.None? || s.Claimed() <= limit.value
  }

  /** A submission keeps claims within the limit, never lowers the counter and
      raises it by at most one. */
  lemma SubmitKeepsLimit(s: AdminSurvey)
    requires WithinLimit(s)
    ensures WithinLimit(AfterSubmit(s))
    ensures s.Claimed() <= AfterSubmit(s).Claimed() <= s.Claimed() + 1
  {
  }

  /** A prize survey with no `maxUsers` is never rejected, whatever its
      `numberOfPrizes`. */
  lemma UncappedPrizeNeverRejected(s: AdminSurvey)
    requires s.SurveyReward().Prize? && s.SurveyReward().maxUsers.None?
    ensures ClaimCheck(s) == Accepted
  {
  }

  /** `n` submissions one after another: their results and the final survey. */
  function SubmitRun(s: AdminSurvey, n: nat): (run: (seq<SubmitResult>, AdminSurvey))
    ensures |run.0| == n
    decreases n
  {
    if n == 0 then ([], s)
    else
      var rest := SubmitRun(AfterSubmit(s), n - 1);
      ([ClaimCheck(s)] + rest.0, rest.1)
  }

  function Min(a: int, b: int): int { if a <= b then a else b }

  /** Sequential submissions accept exactly while capacity remains: from
      `claimed <= limit`, `n` attempts leave the counter at
      `claimed + min(n, limit - claimed)`; without a limit every attempt is
      accepted. */
  lemma {:induction false} SubmitRunFinal(s: AdminSurvey, n: nat)
    requires WithinLimit(s)
    ensures var limit := ClaimLimit(s.SurveyReward());
            SubmitRun(s, n).1.Claimed()
            == s.Claimed() + (if limit.None? then n else Min(n, limit.value - s.Claimed()))
    decreases n
  {
    if n > 0 {
      SubmitKeepsLimit(s);
      SubmitRunFinal(AfterSubmit(s), n - 1);
    }
  }

  /** Attempt `k` of a run is accepted exactly when the survey has no limit
      or the `k` earlier attempts left the counter below it. */
  lemma {:induction false} SubmitRunAccepts(s: AdminSurvey, n: nat)
    requires WithinLimit(s)
    ensures var limit := ClaimLimit(s.SurveyReward());
            forall k :: 0 <= k < n ==>
              (SubmitRun(s, n).0[k] == Accepted <==> limit.None? || s.Claimed() + k < limit.value)
    decreases n
  {
    if n > 0 {
      var limit := ClaimLimit(s.SurveyReward());
      var t := AfterSubmit(s);
      SubmitKeepsLimit(s);
      SubmitRunAccepts(t, n - 1);
      assert t.SurveyReward() == s.SurveyReward();
      forall k | 0 <= k < n
        ensures SubmitRun(s, n).0[k] == Accepted <==> limit.None? || s.Claimed() + k < limit.value
      {
        if k > 0 {
          assert SubmitRun(s, n).0[k] == SubmitRun(t, n - 1).0[k - 1];
          if ClaimCheck(s) != Accepted {
            assert t == s;
          }
        }
      }
    }
  }

  /** Four submissions against `maxUsers = 3` from 0: accept, accept, accept,
      reject, and the counter ends at 3. */
  lemma ThreeOfFour(s: AdminSurvey)
    requires s.Claimed() == 0 && s.SurveyReward().Points? && s.SurveyReward().maxUsers == Some(3)
    ensures SubmitRun(s, 4).0 == [Accepted, Accepted, Accepted, Rejected(MaxParticipantsReached)]
    ensures SubmitRun(s, 4).1.Claimed() == 3
  {
    var s1 := AfterSubmit(s);
    var s2 := AfterSubmit(s1);
    var s3 := AfterSubmit(s2);
    assert s3.Claimed() == 3;
    assert SubmitRun(s3, 1).0 == [Rejected(MaxParticipantsReached)];
  }

  /** Every stored survey is keyed by its own id. */
  ghost predicate Keyed(m: map<string, AdminSurvey>) {
    forall id :: id in m ==> m[id].Id() == id
  }

  function WithId(s: AdminSurvey, id: string): (t: AdminSurvey)
    ensures t.Id() == id
  {
    s.(base := s.base.(id := id))
  }

  /** The `surveys` collection. */
  class SurveyStore {
    var surveys: map<string, AdminSurvey>

    ghost predicate Valid()
      reads this
    {
      Keyed(surveys)
    }

    constructor ()
      ensures Valid() && surveys == map[]
    {
      surveys := map[];
    }

    /** `submitSurvey`: a missing survey fails with 'Survey not found'; a
        survey failing a capacity check is rejected; otherwise exactly its
        `rewardsClaimed` goes up by one. A rejection writes nothing. */
    method SubmitSurvey(id: string) returns (r: SubmitResult)
      requires Valid()
      modifies this
      ensures Valid()
      ensures id !in old(surveys) ==> r == Rejected(SurveyNotFound)
      ensures id in old(surveys) ==> r == ClaimCheck(old(surveys)[id])
      ensures r == Accepted ==> surveys == old(surveys)[id := Incremented(old(surveys)[id])]
      ensures r != Accepted ==> surveys == old(surveys)
    {
      if id !in surveys {
        return Rejected(SurveyNotFound);
      }
      var survey := surveys[id];
      var reward := survey.SurveyReward();
      if reward.Pool? && survey.Claimed() >= reward.supply {
        return Rejected(AllRewardsClaimed);
      }
      if reward.maxUsers.Some? && survey.Claimed() >= reward.maxUsers.value {
        return Rejected(MaxParticipantsReached);
      }
      surveys := surveys[id := Incremented(survey)];
      r := Accepted;
    }

    /** `createSurvey`: stores the survey under a new id with `rewardsClaimed`
        forced to 0; the object returned is the input with the new id, so it
        keeps the input's `rewardsClaimed`. */
    method CreateSurvey(newId: string, survey: AdminSurvey) returns (created: AdminSurvey)
      requires Valid() && newId !in surveys
      modifies this
      ensures Valid()
      ensures created == WithId(survey, newId)
      ensures surveys == old(surveys)[newId := created.(base := created.base.(rewardsClaimed := 0))]
    {
      created := WithId(survey, newId);
      surveys := surveys[newId := created.(base := created.base.(rewardsClaimed := 0))];
    }

    /** `updateSurvey`: overwrites every field of the stored survey with the
        given one; updating a survey that is not stored fails and writes
        nothing. */
    method UpdateSurvey(survey: AdminSurvey) returns (ok: bool)
      requires Valid()
      modifies this
      ensures Valid()
      ensures ok <==> survey.Id() in old(surveys)
      ensures ok ==> surveys == old(surveys)[survey.Id() := survey]
      ensures !ok ==> surveys == old(surveys)
    {
      ok := survey.Id() in surveys;
      if ok {
        surveys := surveys[survey.Id() := survey];
      }
    }

    /** `deleteSurvey`: removes the survey; a missing one is not an error. */
    method DeleteSurvey(id: string)
      requires Valid()
      modifies this
      ensures Valid()
      ensures surveys == old(surveys) - {id}
    {
      surveys := surveys - {id};
    }
  }

  /** The targeting test of `fetchSurveysForUser`. */
  predicate TargetsCountry(s: AdminSurvey, userCountry: string) {
    match s.targeting
    case TargetAll => true
    case TargetCountries(countries) => userCountry in countries
  }

  /** `fetchSurveysForUser` over the active surveys the query returned. */
  function FetchSurveysForUser(userCountry: string, active: seq<AdminSurvey>): (r: seq<AdminSurvey>)
    ensures |r| <= |active|
    ensures forall s :: s in r ==> s in active && TargetsCountry(s, userCountry)
    decreases |active|
  {
    if |active| == 0 then []
    else
      var init := FetchSurveysForUser(userCountry, active[..|active| - 1]);
      var last := active[|active| - 1];
      if TargetsCountry(last, userCountry) then init + [last] else init
  }

  /** The result keeps query order and contains exactly the 'all' surveys and
      the 'countries' surveys listing the user's country; an empty country list
      therefore excludes the survey. */
  lemma {:induction false} FetchSurveysForUserIsFilter(userCountry: string, active: seq<AdminSurvey>)
    ensures IsSubsequence(FetchSurveysForUser(userCountry, active), active)
    ensures forall s :: s in active ==>
              (s in FetchSurveysForUser(userCountry, active) <==>
                 s.targeting.TargetAll? || (s.targeting.TargetCountries? && userCountry in s.targeting.countries))
    decreases |active|
  {
    if |active| > 0 {
      var init := active[..|active| - 1];
      var last := active[|active| - 1];
      FetchSurveysForUserIsFilter(userCountry, init);
      var r := FetchSurveysForUser(userCountry, active);
      assert active == init + [last];
      if TargetsCountry(last, userCountry) {
        assert r[..|r| - 1] == FetchSurveysForUser(userCountry, init);
      }
      forall s | s in active
        ensures s in r <==> TargetsCountry(s, userCountry)
      {
        if s != last {
          assert s in init;
        }
      }
    }
  }
}

/** The admin dashboard (src/app/admin/dashboard/page.tsx): the "rewards left"
    figure and the list updates after toggling or deleting a survey. */
module Dashboard {

  import opened Types
  import opened Seqs

  /** What `formatRewardsLeft` reports: 'Unlimited rewards available' or a
      remaining count. */
  datatype RewardsLeft = Unlimited | Left(count: int)

  function Max0(x: int): int { if x < 0 then 0 else x }

  /** `formatRewardsLeft`: points use `maxUsers` (null is unlimited), a pool
      its `supply`, a prize its `numberOfPrizes`; the last two ignore
      `maxUsers`. */
  function FormatRewardsLeft(s: AdminSurvey): (r: RewardsLeft)
    ensures r.Unlimited? <==> s.SurveyReward().Points? && s.SurveyReward().maxUsers.None?
    ensures r.Left? ==> r.count >= 0
    ensures r.Left? && s.SurveyReward().Points? ==> r.count == Max0(s.SurveyReward().maxUsers.value - s.Claimed())
    ensures s.SurveyReward().Pool? ==> r == Left(Max0(s.SurveyReward().supply - s.Claimed()))
    ensures s.SurveyReward().Prize? ==> r == Left(Max0(s.SurveyReward().numberOfPrizes - s.Claimed()))
  {
    var reward := s.SurveyReward();
    match reward
    case Points(_, maxUsers) =>
      if maxUsers.None? then Unlimited else Left(Max0(maxUsers.value - s.Claimed()))
    case Pool(supply, _, _, _, _) => Left(Max0(supply - s.Claimed()))
    case Prize(numberOfPrizes, _, _, _) => Left(Max0(numberOfPrizes - s.Claimed()))
  }

  function WithClaimed(s: AdminSurvey, claimed: int): (t: AdminSurvey)
    ensures t.Claimed() == claimed && t.SurveyReward() == s.SurveyReward()
  {
    s.(base := s.base.(rewardsClaimed := claimed))
  }

  /** The remaining count never grows as claims grow, and each further claim
      lowers a positive count by exactly one. */
  lemma RewardsLeftNonIncreasing(s: AdminSurvey, more: int)
    requires more >= s.Claimed()
    ensures FormatRewardsLeft(s).Left? <==> FormatRewardsLeft(WithClaimed(s, more)).Left?
    ensures FormatRewardsLeft(s).Left? ==>
              FormatRewardsLeft(WithClaimed(s, more)).count <= FormatRewardsLeft(s).count
    ensures FormatRewardsLeft(s).Left? && FormatRewardsLeft(s).count > 0 ==>
              FormatRewardsLeft(WithClaimed(s, s.Claimed() + 1)).count == FormatRewardsLeft(s).count - 1
  {
  }

  /** The page's `surveys` and `error` state. */
  datatype PageState = PageState(surveys: seq<AdminSurvey>, error: Option<string>)

  const UPDATE_ERROR := "Failed to update survey. Please try again."
  const DELETE_ERROR := "Failed to delete survey. Please try again."

  /** `{ ...survey, isActive: !survey.isActive }` */
  function Toggled(s: AdminSurvey): (t: AdminSurvey)
    ensures t.isActive == !s.isActive && t.(isActive := s.isActive) == s
  {
    s.(isActive := !s.isActive)
  }

  /** `surveys.map(s => s.id === survey.id ? updated : s)` */
  function ReplaceById(surveys: seq<AdminSurvey>, id: string, updated: AdminSurvey): seq<AdminSurvey>
    decreases |surveys|
  {
    if |surveys| == 0 then []
    else
      ReplaceById(surveys[..|surveys| - 1], id, updated)
      + [if surveys[|surveys| - 1].Id() == id then updated else surveys[|surveys| - 1]]
  }

  /** The map keeps the length and the position of every survey: those with
      the id become `updated`, every other survey is unchanged. */
  lemma {:induction false} ReplaceByIdPointwise(surveys: seq<AdminSurvey>, id: string, updated: AdminSurvey)
    ensures |ReplaceById(surveys, id, updated)| == |surveys|
    ensures forall i :: 0 <= i < |surveys| ==>
              ReplaceById(surveys, id, updated)[i] == if surveys[i].Id() == id then updated else surveys[i]
    decreases |surveys|
  {
    if |surveys| > 0 {
      ReplaceByIdPointwise(surveys[..|surveys| - 1], id, updated);
    }
  }

  /** `handleToggleActive`: when the write succeeds, every listed survey with
      the id is replaced by the toggled copy of the argument; when it fails the
      list is kept and the error is set. */
  function HandleToggleActive(st: PageState, survey: AdminSurvey, writeOk: bool): (next: PageState)
    ensures !writeOk ==> next == st.(error := Some(UPDATE_ERROR))
    ensures writeOk ==> next.error == st.error
  {
    if writeOk then st.(surveys := ReplaceById(st.surveys, survey.Id(), Toggled(survey)))
    else st.(error := Some(UPDATE_ERROR))
  }

  /** After a successful toggle of a listed survey, its `isActive` is flipped,
      every survey sharing its id becomes that same toggled survey, and every
      survey with another id is where it was. */
  lemma ToggleFlipsOnlyMatching(st: PageState, i: int)
    requires 0 <= i < |st.surveys|
    ensures var next := HandleToggleActive(st, st.surveys[i], true);
            |next.surveys| == |st.surveys|
            && next.surveys[i] == Toggled(st.surveys[i])
            && next.surveys[i].isActive == !st.surveys[i].isActive
            && (forall j :: 0 <= j < |st.surveys| && st.surveys[j].Id() == st.surveys[i].Id() ==>
                 next.surveys[j] == Toggled(st.surveys[i]))
            && forall j :: 0 <= j < |st.surveys| && st.surveys[j].Id() != st.surveys[i].Id() ==>
                 next.surveys[j] == st.surveys[j]
  {
    ReplaceByIdPointwise(st.surveys, st.surveys[i].Id(), Toggled(st.surveys[i]));
  }

  /** `surveys.filter(s => s.id !== id)` */
  function RemoveById(surveys: seq<AdminSurvey>, id: string): (r: seq<AdminSurvey>)
    ensures |r| <= |surveys|
    ensures forall s :: s in r ==> s in surveys && s.Id() != id
    decreases |surveys|
  {
    if |surveys| == 0 then []
    else
      var init := RemoveById(surveys[..|surveys| - 1], id);
      var last := surveys[|surveys| - 1];
      if last.Id() != id then init + [last] else init
  }

  /** The filter keeps order and keeps exactly the surveys with another id. */
  lemma {:induction false} RemoveByIdIsFilter(surveys: seq<AdminSurvey>, id: string)
    ensures IsSubsequence(RemoveById(surveys, id), surveys)
    ensures forall s :: s in surveys ==> (s in RemoveById(surveys, id) <==> s.Id() != id)
    decreases |surveys|
  {
    if |surveys| > 0 {
      var init := surveys[..|surveys| - 1];
      var last := surveys[|surveys| - 1];
      RemoveByIdIsFilter(init, id);
      var r := RemoveById(surveys, id);
      assert surveys == init + [last];
      if last.Id() != id {
        assert r[..|r| - 1] == RemoveById(init, id);
      }
    }
  }

  /** `handleDelete`: a successful delete drops every survey with the id; a
      failed one keeps the list and sets the error. */
  function HandleDelete(st: PageState, id: string, deleteOk: bool): (next: PageState)
    ensures !deleteOk ==> next == st.(error := Some(DELETE_ERROR))
    ensures deleteOk ==> next.error == st.error && IsSubsequence(next.surveys, st.surveys)
    ensures deleteOk ==> forall s :: s in st.surveys ==> (s in next.surveys <==> s.Id() != id)
  {
    RemoveByIdIsFilter(st.surveys, id);
    if deleteOk then st.(surveys := RemoveById(st.surveys, id))
    else st.(error := Some(DELETE_ERROR))
  }
}

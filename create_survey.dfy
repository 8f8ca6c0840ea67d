/** The create-survey page (src/app/admin/create-survey/page.tsx): every
    handler is a prev -> next updater on the page's draft, plus the separate
    balance-targeting state that the reach estimate and the submitted payload
    are built from. */
module CreateSurvey {

  import opened Types
  import opened Text
  import opened Seqs
  import EligibleUsersCount

  datatype PageRewardType = CoinlensPoints | RewardsPool | MajorPrize

  datatype PageQuestionType =
    | MultipleChoiceQuestion | OpenEndedQuestion | CountryQuestion
    | EmailQuestion | CheckboxQuestion | ShortAnswerQuestion

  datatype DraftQuestion = DraftQuestion(
    id: string,
    text: string,
    qtype: PageQuestionType,
    options: Option<seq<string>>,
    required: bool)

  datatype PoolDetails = PoolDetails(supply: real, amountPerUser: real, tokenType: string, totalValue: real)

  datatype PrizeDetails = PrizeDetails(numberOfPrizes: real, description: string, totalValue: real)

  /** `rewardDetails`: each variant's fields are optional. */
  datatype RewardDetails = RewardDetails(
    coinlensPoints: Option<real>,
    rewardsPool: Option<PoolDetails>,
    majorPrize: Option<PrizeDetails>)

  datatype CountryOption = AllCountries | SpecificCountries {
    function Name(): string {
      match this
      case AllCountries => "all"
      case SpecificCountries => "specific"
    }
  }

  /** `SurveyData`. */
  datatype SurveyData = SurveyData(
    title: string,
    description: string,
    rewardType: PageRewardType,
    rewardDetails: RewardDetails,
    maxUsers: Option<real>,
    expirationDate: string,
    targetCountryOption: CountryOption,
    targetCountries: seq<string>,
    balanceTargeting: string,
    selectedBalanceBrackets: seq<string>,
    questions: seq<DraftQuestion>)

  /** The draft plus the page's own `balanceTargeting` and
      `selectedBalanceBrackets` state, which shadow the draft's fields of the
      same names. */
  datatype PageState = PageState(
    surveyData: SurveyData,
    balanceTargeting: string,
    selectedBalanceBrackets: seq<string>)

  /** The draft the page starts from and resets to after a submission. */
  const INITIAL_DATA := SurveyData("", "", CoinlensPoints, RewardDetails(Some(0.0), None, None), None, "",
                                   AllCountries, [], "all", [], [])

  const INITIAL_STATE := PageState(INITIAL_DATA, "all", [])

  /** `handleRewardTypeChange`: only the chosen variant's details exist, all
      zero or empty; `maxUsers` is 0 for a pool and null otherwise. */
  function HandleRewardTypeChange(d: SurveyData, rewardType: PageRewardType): (e: SurveyData)
    ensures e == d.(rewardType := rewardType, rewardDetails := e.rewardDetails, maxUsers := e.maxUsers)
    ensures e.rewardDetails.coinlensPoints == if rewardType == CoinlensPoints then Some(0.0) else None
    ensures e.rewardDetails.rewardsPool == if rewardType == RewardsPool then Some(PoolDetails(0.0, 0.0, "", 0.0)) else None
    ensures e.rewardDetails.majorPrize == if rewardType == MajorPrize then Some(PrizeDetails(0.0, "", 0.0)) else None
    ensures e.maxUsers == if rewardType == RewardsPool then Some(0.0) else None
  {
    d.(rewardType := rewardType,
       rewardDetails := RewardDetails(
         if rewardType == CoinlensPoints then Some(0.0) else None,
         if rewardType == RewardsPool then Some(PoolDetails(0.0, 0.0, "", 0.0)) else None,
         if rewardType == MajorPrize then Some(PrizeDetails(0.0, "", 0.0)) else None),
       maxUsers := if rewardType == RewardsPool then Some(0.0) else None)
  }

  /** `{ ...pool, [name]: name === 'tokenType' ? value : Number(value) }` on
      the pool's own fields; `numeric` is `Number(value)`. */
  function EditPool(p: PoolDetails, name: string, value: string, numeric: real): PoolDetails {
    if name == "tokenType" then p.(tokenType := value)
    else if name == "supply" then p.(supply := numeric)
    else if name == "amountPerUser" then p.(amountPerUser := numeric)
    else if name == "totalValue" then p.(totalValue := numeric)
    else p
  }

  /** The same for a prize, where 'description' keeps the string. */
  function EditPrize(p: PrizeDetails, name: string, value: string, numeric: real): PrizeDetails {
    if name == "description" then p.(description := value)
    else if name == "numberOfPrizes" then p.(numberOfPrizes := numeric)
    else if name == "totalValue" then p.(totalValue := numeric)
    else p
  }

  /** `handleRewardDetailsChange`: edits only the details of the active
      reward type (points take `Number(value)` whatever the field name); a
      pool or prize without details is left alone. Nothing else changes. */
  function HandleRewardDetailsChange(d: SurveyData, name: string, value: string, numeric: real): (e: SurveyData)
    ensures e == d.(rewardDetails := e.rewardDetails)
    ensures d.rewardType == CoinlensPoints ==>
              e.rewardDetails == d.rewardDetails.(coinlensPoints := Some(numeric))
    ensures d.rewardType == RewardsPool ==>
              e.rewardDetails.coinlensPoints == d.rewardDetails.coinlensPoints
              && e.rewardDetails.majorPrize == d.rewardDetails.majorPrize
              && e.rewardDetails.rewardsPool.Some? == d.rewardDetails.rewardsPool.Some?
    ensures d.rewardType == MajorPrize ==>
              e.rewardDetails.coinlensPoints == d.rewardDetails.coinlensPoints
              && e.rewardDetails.rewardsPool == d.rewardDetails.rewardsPool
              && e.rewardDetails.majorPrize.Some? == d.rewardDetails.majorPrize.Some?
    ensures d.rewardType == RewardsPool && d.rewardDetails.rewardsPool.Some? ==>
              e.rewardDetails.rewardsPool == Some(EditPool(d.rewardDetails.rewardsPool.value, name, value, numeric))
    ensures d.rewardType == MajorPrize && d.rewardDetails.majorPrize.Some? ==>
              e.rewardDetails.majorPrize == Some(EditPrize(d.rewardDetails.majorPrize.value, name, value, numeric))
    ensures d.rewardType == RewardsPool && d.rewardDetails.rewardsPool.Some? && name == "tokenType" ==>
              e.rewardDetails.rewardsPool.value == d.rewardDetails.rewardsPool.value.(tokenType := value)
    ensures d.rewardType == MajorPrize && d.rewardDetails.majorPrize.Some? && name == "description" ==>
              e.rewardDetails.majorPrize.value == d.rewardDetails.majorPrize.value.(description := value)
  {
    var details := d.rewardDetails;
    if d.rewardType == CoinlensPoints then d.(rewardDetails := details.(coinlensPoints := Some(numeric)))
    else if d.rewardType == RewardsPool && details.rewardsPool.Some? then
      d.(rewardDetails := details.(rewardsPool := Some(EditPool(details.rewardsPool.value, name, value, numeric))))
    else if d.rewardType == MajorPrize && details.majorPrize.Some? then
      d.(rewardDetails := details.(majorPrize := Some(EditPrize(details.majorPrize.value, name, value, numeric))))
    else d
  }

  /** A numeric field edit sets that field and keeps the other three. */
  lemma PoolFieldEdits(p: PoolDetails, value: string, numeric: real)
    ensures EditPool(p, "supply", value, numeric) == PoolDetails(numeric, p.amountPerUser, p.tokenType, p.totalValue)
    ensures EditPool(p, "amountPerUser", value, numeric) == PoolDetails(p.supply, numeric, p.tokenType, p.totalValue)
    ensures EditPool(p, "totalValue", value, numeric) == PoolDetails(p.supply, p.amountPerUser, p.tokenType, numeric)
  {
    assert "supply" != "tokenType";
    assert "amountPerUser" != "tokenType" && "amountPerUser" != "supply";
    assert "totalValue" != "tokenType" && "totalValue" != "supply" && "totalValue" != "amountPerUser";
  }

  /** A numeric prize edit sets that field and keeps the other two; any
      other field name leaves the prize as it is. */
  lemma PrizeFieldEdits(p: PrizeDetails, value: string, numeric: real, other: string)
    requires other !in {"description", "numberOfPrizes", "totalValue"}
    ensures EditPrize(p, "numberOfPrizes", value, numeric) == PrizeDetails(numeric, p.description, p.totalValue)
    ensures EditPrize(p, "totalValue", value, numeric) == PrizeDetails(p.numberOfPrizes, p.description, numeric)
    ensures EditPrize(p, other, value, numeric) == p
  {
    assert "numberOfPrizes" != "description";
    assert "totalValue" != "description" && "totalValue" != "numberOfPrizes";
  }

  /** The pool `useEffect`: for a pool with details, `totalValue` becomes
      `supply * amountPerUser` and `maxUsers` becomes `supply`. */
  function PoolEffect(d: SurveyData): SurveyData {
    if d.rewardType == RewardsPool && d.rewardDetails.rewardsPool.Some? then
      var p := d.rewardDetails.rewardsPool.value;
      d.(rewardDetails := d.rewardDetails.(rewardsPool := Some(p.(totalValue := p.supply * p.amountPerUser))),
         maxUsers := Some(p.supply))
    else d
  }

  predicate PoolConsistent(d: SurveyData) {
    d.rewardType == RewardsPool && d.rewardDetails.rewardsPool.Some? ==>
      var p := d.rewardDetails.rewardsPool.value;
      p.totalValue == p.supply * p.amountPerUser && d.maxUsers == Some(p.supply)
  }

  /** After the effect the draft is consistent: `totalValue` is `supply *
      amountPerUser` and `maxUsers` is `supply`. */
  lemma PoolEffectConsistent(d: SurveyData)
    ensures PoolConsistent(PoolEffect(d))
  {
  }

  /** On a pool with details the effect rewrites only the pool's details
      and `maxUsers`. */
  lemma PoolEffectFrame(d: SurveyData)
    requires d.rewardType == RewardsPool && d.rewardDetails.rewardsPool.Some?
    ensures PoolEffect(d) == d.(rewardDetails := d.rewardDetails.(rewardsPool := PoolEffect(d).rewardDetails.rewardsPool),
                                maxUsers := Some(d.rewardDetails.rewardsPool.value.supply))
  {
  }

  /** A consistent pool's details are left as they are. */
  lemma PoolEffectKeepsConsistentPool(d: SurveyData)
    requires d.rewardType == RewardsPool && d.rewardDetails.rewardsPool.Some? && PoolConsistent(d)
    ensures PoolEffect(d).rewardDetails.rewardsPool == d.rewardDetails.rewardsPool
  {
  }

  /** A consistent draft is a fixed point of the effect. */
  lemma PoolEffectFixesConsistent(d: SurveyData)
    requires PoolConsistent(d)
    ensures PoolEffect(d) == d
  {
    if d.rewardType == RewardsPool && d.rewardDetails.rewardsPool.Some? {
      PoolEffectFrame(d);
      PoolEffectKeepsConsistentPool(d);
      assert d.rewardDetails.(rewardsPool := d.rewardDetails.rewardsPool) == d.rewardDetails;
    }
  }

  /** After the effect the draft is consistent, only the pool's `totalValue`
      and `maxUsers` changed, and running it again changes nothing. */
  lemma PoolEffectMeaning(d: SurveyData)
    ensures PoolConsistent(PoolEffect(d))
    ensures PoolEffect(PoolEffect(d)) == PoolEffect(d)
    ensures PoolConsistent(d) ==> PoolEffect(d) == d
    ensures PoolEffect(d) == d.(rewardDetails := PoolEffect(d).rewardDetails, maxUsers := PoolEffect(d).maxUsers)
    ensures PoolEffect(d).rewardDetails.rewardsPool.Some? ==>
              var p := d.rewardDetails.rewardsPool.value;
              PoolEffect(d).rewardDetails.rewardsPool.value == PoolDetails(p.supply, p.amountPerUser, p.tokenType, PoolEffect(d).rewardDetails.rewardsPool.value.totalValue)
  {
    PoolEffectConsistent(d);
    PoolEffectFixesConsistent(PoolEffect(d));
    if PoolConsistent(d) {
      PoolEffectFixesConsistent(d);
    }
  }

  /** `addQuestion`: the new id is `Date.now().toString()`, with the time
      given as `now`. */
  function AddQuestion(d: SurveyData, now: nat): (e: SurveyData)
    ensures e == d.(questions := d.questions + [DraftQuestion(NatToString(now), "", MultipleChoiceQuestion, Some([""]), false)])
  {
    d.(questions := d.questions + [DraftQuestion(NatToString(now), "", MultipleChoiceQuestion, Some([""]), false)])
  }

  /** One `updateQuestion(id, field, value)` call, for the fields the form
      edits. */
  datatype QuestionEdit = SetText(text: string) | SetType(qtype: PageQuestionType) | SetRequired(required: bool)

  /** The per-question changes the three `map` updaters make. */
  datatype QuestionChange =
    | Update(edit: QuestionEdit)                    // updateQuestion
    | AppendOption                                  // addOption
    | ReplaceOption(index: int, value: string)      // updateOption

  /** `o.map((opt, i) => i === index ? value : opt)` */
  function ReplaceAt(o: seq<string>, index: int, value: string): (r: seq<string>)
    ensures |r| == |o|
    ensures forall i :: 0 <= i < |o| ==> r[i] == if i == index then value else o[i]
  {
    if 0 <= index < |o| then o[index := value] else o
  }

  function ApplyChange(q: DraftQuestion, ch: QuestionChange): DraftQuestion {
    match ch
    case Update(SetText(t)) => q.(text := t)
    case Update(SetType(t)) => q.(qtype := t)
    case Update(SetRequired(r)) => q.(required := r)
    case AppendOption => q.(options := Some(match q.options case Some(o) => o + [""] case None => [""]))
    case ReplaceOption(index, value) =>
      q.(options := match q.options case Some(o) => Some(ReplaceAt(o, index, value)) case None => None)
  }

  /** `questions.map(q => q.id === id ? change(q) : q)` */
  function MapById(qs: seq<DraftQuestion>, id: string, ch: QuestionChange): seq<DraftQuestion>
    decreases |qs|
  {
    if |qs| == 0 then []
    else
      MapById(qs[..|qs| - 1], id, ch)
      + [if qs[|qs| - 1].id == id then ApplyChange(qs[|qs| - 1], ch) else qs[|qs| - 1]]
  }

  /** The map keeps length and order: questions with the id are changed, all
      others are untouched. */
  lemma {:induction false} MapByIdPointwise(qs: seq<DraftQuestion>, id: string, ch: QuestionChange)
    ensures |MapById(qs, id, ch)| == |qs|
    ensures forall i :: 0 <= i < |qs| ==>
              MapById(qs, id, ch)[i] == if qs[i].id == id then ApplyChange(qs[i], ch) else qs[i]
    decreases |qs|
  {
    if |qs| > 0 {
      MapByIdPointwise(qs[..|qs| - 1], id, ch);
    }
  }

  /** `updateQuestion`, `addOption` and `updateOption`. */
  function UpdateQuestions(d: SurveyData, id: string, ch: QuestionChange): (e: SurveyData)
    ensures e == d.(questions := e.questions)
    ensures |e.questions| == |d.questions|
    ensures forall i :: 0 <= i < |d.questions| ==>
              e.questions[i] == if d.questions[i].id == id then ApplyChange(d.questions[i], ch) else d.questions[i]
  {
    MapByIdPointwise(d.questions, id, ch);
    d.(questions := MapById(d.questions, id, ch))
  }

  /** `updateOption` replaces only option `index`, keeps the number of
      options, and leaves a question without options without them. */
  lemma UpdateOptionKeepsLength(q: DraftQuestion, index: int, value: string)
    ensures ApplyChange(q, ReplaceOption(index, value)).options.Some? == q.options.Some?
    ensures q.options.Some? ==>
              var o := ApplyChange(q, ReplaceOption(index, value)).options.value;
              |o| == |q.options.value|
              && (0 <= index < |o| ==> o[index] == value)
              && forall i :: 0 <= i < |o| && i != index ==> o[i] == q.options.value[i]
    ensures ApplyChange(q, ReplaceOption(index, value)) == q.(options := ApplyChange(q, ReplaceOption(index, value)).options)
  {
  }

  /** `questions.filter(q => q.id !== id)` */
  function DeleteById(qs: seq<DraftQuestion>, id: string): (r: seq<DraftQuestion>)
    ensures forall q :: q in r ==> q in qs && q.id != id
    decreases |qs|
  {
    if |qs| == 0 then []
    else
      var init := DeleteById(qs[..|qs| - 1], id);
      var last := qs[|qs| - 1];
      if last.id != id then init + [last] else init
  }

  /** `deleteQuestion` removes every question with the id and keeps the
      others in order. */
  lemma {:induction false} DeleteByIdIsFilter(qs: seq<DraftQuestion>, id: string)
    ensures IsSubsequence(DeleteById(qs, id), qs)
    ensures forall q :: q in qs ==> (q in DeleteById(qs, id) <==> q.id != id)
    decreases |qs|
  {
    if |qs| > 0 {
      var init := qs[..|qs| - 1];
      var last := qs[|qs| - 1];
      DeleteByIdIsFilter(init, id);
      var r := DeleteById(qs, id);
      assert qs == init + [last];
      if last.id != id {
        assert r[..|r| - 1] == DeleteById(init, id);
      }
    }
  }

  function DeleteQuestion(d: SurveyData, id: string): (e: SurveyData)
    ensures e == d.(questions := e.questions)
    ensures IsSubsequence(e.questions, d.questions)
    ensures forall q :: q in d.questions ==> (q in e.questions <==> q.id != id)
  {
    DeleteByIdIsFilter(d.questions, id);
    d.(questions := DeleteById(d.questions, id))
  }

  /** Deleting by an id no question carries changes nothing. */
  lemma {:induction false} DeleteByIdAbsent(qs: seq<DraftQuestion>, id: string)
    requires forall q :: q in qs ==> q.id != id
    ensures DeleteById(qs, id) == qs
    decreases |qs|
  {
    if |qs| > 0 {
      assert qs[|qs| - 1] in qs;
      assert forall q :: q in qs[..|qs| - 1] ==> q in qs;
      DeleteByIdAbsent(qs[..|qs| - 1], id);
    }
  }

  /** `deleteQuestion` on the id `addQuestion` just used undoes it, as long as
      no earlier question had that id. */
  lemma AddThenDeleteRestores(d: SurveyData, now: nat)
    requires forall q :: q in d.questions ==> q.id != NatToString(now)
    ensures |AddQuestion(d, now).questions| == |d.questions| + 1
    ensures DeleteQuestion(AddQuestion(d, now), NatToString(now)) == d
  {
    var qs := AddQuestion(d, now).questions;
    assert qs[..|qs| - 1] == d.questions;
    DeleteByIdAbsent(d.questions, NatToString(now));
  }

  /** `handleTargetCountryOptionChange`: 'all' clears the country list,
      'specific' keeps it. */
  function HandleTargetCountryOptionChange(d: SurveyData, option: CountryOption): (e: SurveyData)
    ensures e == d.(targetCountryOption := option, targetCountries := e.targetCountries)
    ensures option == AllCountries ==> e.targetCountries == []
    ensures option == SpecificCountries ==> e.targetCountries == d.targetCountries
  {
    d.(targetCountryOption := option, targetCountries := if option == AllCountries then [] else d.targetCountries)
  }

  /** `handleTargetCountriesChange`: the selected values replace the list. */
  function HandleTargetCountriesChange(d: SurveyData, selected: seq<string>): (e: SurveyData)
    ensures e == d.(targetCountries := selected)
  {
    d.(targetCountries := selected)
  }

  /** `handleBalanceTargetingChange`: 'all' also clears the brackets; any
      other value keeps them. The draft is not touched. */
  function HandleBalanceTargetingChange(st: PageState, value: string): (next: PageState)
    ensures next.surveyData == st.surveyData && next.balanceTargeting == value
    ensures value == "all" ==> next.selectedBalanceBrackets == []
    ensures value != "all" ==> next.selectedBalanceBrackets == st.selectedBalanceBrackets
  {
    st.(balanceTargeting := value,
        selectedBalanceBrackets := if value == "all" then [] else st.selectedBalanceBrackets)
  }

  /** `handleBalanceBracketsChange`: the selected values replace the list. */
  function HandleBalanceBracketsChange(st: PageState, selected: seq<string>): (next: PageState)
    ensures next == st.(selectedBalanceBrackets := selected)
  {
    st.(selectedBalanceBrackets := selected)
  }

  /** Only the last selection counts, and with 'balance' targeting it is the
      list both the estimate and the submitted survey use. */
  lemma BracketSelectionReachesPayload(st: PageState, first: seq<string>, selected: seq<string>)
    ensures HandleBalanceBracketsChange(HandleBalanceBracketsChange(st, first), selected)
            == HandleBalanceBracketsChange(st, selected)
    ensures CountCriteriaOf(HandleBalanceBracketsChange(st, selected)).selectedBalanceBrackets == selected
    ensures st.balanceTargeting == "balance" ==>
              SubmitPayload(HandleBalanceBracketsChange(st, selected)).selectedBalanceBrackets == selected
  {
  }

  /** Only the last country selection counts, and it is the list the estimate
      filters on. */
  lemma CountrySelectionReachesEstimate(st: PageState, first: seq<string>, selected: seq<string>)
    ensures HandleTargetCountriesChange(HandleTargetCountriesChange(st.surveyData, first), selected)
            == HandleTargetCountriesChange(st.surveyData, selected)
    ensures CountCriteriaOf(st.(surveyData := HandleTargetCountriesChange(st.surveyData, selected))).targetCountries == selected
  {
  }

  /** `surveyDataToSubmit`: the page's targeting overrides the draft's, and
      brackets are sent only with 'balance' targeting. */
  function SubmitPayload(st: PageState): (payload: SurveyData)
    ensures payload == st.surveyData.(balanceTargeting := st.balanceTargeting,
                                      selectedBalanceBrackets := payload.selectedBalanceBrackets)
    ensures st.balanceTargeting == "balance" ==> payload.selectedBalanceBrackets == st.selectedBalanceBrackets
    ensures st.balanceTargeting != "balance" ==> payload.selectedBalanceBrackets == []
  {
    st.surveyData.(balanceTargeting := st.balanceTargeting,
                   selectedBalanceBrackets := if st.balanceTargeting == "balance" then st.selectedBalanceBrackets else [])
  }

  /** `handleSubmit`: a successful write sends the payload and resets the
      page; a failed one keeps the page as it was. */
  function HandleSubmit(st: PageState, writeOk: bool): (r: (Option<SurveyData>, PageState))
    ensures writeOk ==> r == (Some(SubmitPayload(st)), INITIAL_STATE)
    ensures !writeOk ==> r == (None, st)
  {
    if writeOk then (Some(SubmitPayload(st)), INITIAL_STATE) else (None, st)
  }

  /** The body posted for the reach estimate: the draft's country targeting
      with the page's balance state, brackets unfiltered. */
  function CountCriteriaOf(st: PageState): (c: EligibleUsersCount.CountCriteria)
    ensures c.targetCountryOption == st.surveyData.targetCountryOption.Name()
    ensures c.targetCountries == st.surveyData.targetCountries
    ensures c.balanceTargeting == st.balanceTargeting
    ensures c.selectedBalanceBrackets == st.selectedBalanceBrackets
  {
    EligibleUsersCount.CountCriteria(st.surveyData.targetCountryOption.Name(), st.surveyData.targetCountries,
                                     st.balanceTargeting, st.selectedBalanceBrackets)
  }

  /** The estimate and the stored survey see the same brackets unless
      brackets were picked while targeting is not 'balance'; switching to
      'all' always makes them agree. */
  lemma EstimateMatchesPayload(st: PageState)
    ensures (st.balanceTargeting == "balance" || st.selectedBalanceBrackets == []) ==>
              CountCriteriaOf(st).selectedBalanceBrackets == SubmitPayload(st).selectedBalanceBrackets
    ensures var next := HandleBalanceTargetingChange(st, "all");
            CountCriteriaOf(next).selectedBalanceBrackets == SubmitPayload(next).selectedBalanceBrackets == []
  {
  }
}

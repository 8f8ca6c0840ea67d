/** The survey editor (src/components/SurveyForm.tsx): question and option
    edits, reward edits and defaults, the pool effect and the targeting
    selectors. The updaters that build new values are functions; the three
    option handlers that assign into the copied question list are methods of
    `SurveyFormState`. */
module SurveyForm {

  import opened Types
  import opened Seqs
  import opened Text

  function Questions(s: AdminSurvey): seq<Question> { s.base.questions }

  function WithQuestions(s: AdminSurvey, qs: seq<Question>): (t: AdminSurvey)
    ensures Questions(t) == qs
    ensures t.(base := t.base.(questions := Questions(s))) == s
  {
    s.(base := s.base.(questions := qs))
  }

  const EMAIL_PROMPT := "What is your email address?"
  const COUNTRY_PROMPT := "What is your country of residence?"

  /** The question `addQuestion` creates as question number `count`. */
  function NewQuestion(count: nat): (q: Question)
    ensures q.id == "q" + NatToString(count)
    ensures count % 3 == 1 ==> q == Question(q.id, EMAIL_PROMPT, Email, None, true)
    ensures count % 3 == 2 ==> q == Question(q.id, COUNTRY_PROMPT, Country, None, true)
    ensures count % 3 == 0 ==> q == Question(q.id, "", MultipleChoice, Some([""]), false)
  {
    var id := "q" + NatToString(count);
    if count % 3 == 1 then Question(id, EMAIL_PROMPT, Email, None, true)
    else if count % 3 == 2 then Question(id, COUNTRY_PROMPT, Country, None, true)
    else Question(id, "", MultipleChoice, Some([""]), false)
  }

  /** `addQuestion`: appends question number `n + 1` to `n` questions. */
  function AddQuestion(s: AdminSurvey): (t: AdminSurvey)
    ensures Questions(t) == Questions(s) + [NewQuestion(|Questions(s)| + 1)]
    ensures t == WithQuestions(s, Questions(t))
  {
    WithQuestions(s, Questions(s) + [NewQuestion(|Questions(s)| + 1)])
  }

  /** `removeQuestion`: `filter((_, i) => i !== index)`. */
  function RemoveQuestion(s: AdminSurvey, index: int): (t: AdminSurvey)
    ensures t == WithQuestions(s, Questions(t))
    ensures 0 <= index < |Questions(s)| ==>
              Questions(t) == Questions(s)[..index] + Questions(s)[index + 1..]
    ensures !(0 <= index < |Questions(s)|) ==> t == s
  {
    WithoutIndexSplice(Questions(s), index);
    WithQuestions(s, WithoutIndex(Questions(s), index))
  }

  /** `removeQuestion` on the index `addQuestion` just filled undoes it. */
  lemma AddThenRemoveRestores(s: AdminSurvey)
    ensures RemoveQuestion(AddQuestion(s), |Questions(s)|) == s
  {
    var qs := Questions(AddQuestion(s));
    assert qs[..|Questions(s)|] + qs[|Questions(s)| + 1..] == Questions(s);
  }

  /** Ids are numbered from the current length, so removing a question other
      than the last and then adding one repeats the id of the last question. */
  lemma RemoveThenAddRepeatsId(s: AdminSurvey, index: int)
    requires 0 <= index < |Questions(s)| - 1
    requires Questions(s)[|Questions(s)| - 1].id == "q" + NatToString(|Questions(s)|)
    ensures var qs := Questions(AddQuestion(RemoveQuestion(s, index)));
            |qs| == |Questions(s)| && qs[|qs| - 2].id == qs[|qs| - 1].id
  {
  }

  /** `options || []` */
  function OptionsOrEmpty(q: Question): seq<string> {
    match q.options
    case Some(o) => o
    case None => []
  }

  /** The draft with its option handlers. `[...prev.questions]` copies only
      the list, and the handlers then assign into the copied question; the
      model updates `survey` with the edited question in place. */
  class SurveyFormState {
    var survey: AdminSurvey

    constructor (initial: AdminSurvey)
      ensures survey == initial
    {
      survey := initial;
    }

    /** `handleOptionChange`: option `optionIndex` of question
        `questionIndex` becomes `value` (missing options count as []); an
        index one past the end appends. Nothing else changes. */
    method HandleOptionChange(questionIndex: nat, optionIndex: nat, value: string)
      requires questionIndex < |Questions(survey)|
      requires optionIndex <= |OptionsOrEmpty(Questions(survey)[questionIndex])|
      modifies this
      ensures survey == WithQuestions(old(survey), Questions(survey))
      ensures |Questions(survey)| == |Questions(old(survey))|
      ensures forall k :: 0 <= k < |Questions(survey)| && k != questionIndex ==>
                Questions(survey)[k] == Questions(old(survey))[k]
      ensures var before := Questions(old(survey))[questionIndex];
              var after := Questions(survey)[questionIndex];
              after.options.Some?
              && after == before.(options := after.options)
              && |after.options.value| == (if optionIndex < |OptionsOrEmpty(before)| then |OptionsOrEmpty(before)| else optionIndex + 1)
              && after.options.value[optionIndex] == value
              && forall i :: 0 <= i < |OptionsOrEmpty(before)| && i != optionIndex ==>
                   after.options.value[i] == OptionsOrEmpty(before)[i]
    {
      var newQuestions := Questions(survey);
      var options := OptionsOrEmpty(newQuestions[questionIndex]);
      if optionIndex < |options| {
        options := options[optionIndex := value];
      } else {
        options := options + [value];
      }
      newQuestions := newQuestions[questionIndex := newQuestions[questionIndex].(options := Some(options))];
      survey := WithQuestions(survey, newQuestions);
    }

    /** `addOption`: appends '' to the question's options (missing options
        count as []). Nothing else changes. */
    method AddOption(questionIndex: nat)
      requires questionIndex < |Questions(survey)|
      modifies this
      ensures survey == WithQuestions(old(survey), Questions(survey))
      ensures var before := Questions(old(survey))[questionIndex];
              Questions(survey) == Questions(old(survey))[questionIndex := before.(options := Some(OptionsOrEmpty(before) + [""]))]
    {
      var newQuestions := Questions(survey);
      newQuestions := newQuestions[questionIndex := newQuestions[questionIndex].(options := Some(OptionsOrEmpty(newQuestions[questionIndex]) + [""]))];
      survey := WithQuestions(survey, newQuestions);
    }

    /** `removeOption`: drops option `optionIndex` and keeps the rest in
        order; an index outside the list removes nothing, and a question
        without options keeps none. Nothing else changes. */
    method RemoveOption(questionIndex: nat, optionIndex: int)
      requires questionIndex < |Questions(survey)|
      modifies this
      ensures survey == WithQuestions(old(survey), Questions(survey))
      ensures |Questions(survey)| == |Questions(old(survey))|
      ensures forall k :: 0 <= k < |Questions(survey)| && k != questionIndex ==>
                Questions(survey)[k] == Questions(old(survey))[k]
      ensures var before := Questions(old(survey))[questionIndex];
              var after := Questions(survey)[questionIndex];
              after == before.(options := after.options)
              && (before.options.None? ==> after.options.None?)
              && (before.options.Some? ==>
                    after.options.Some?
                    && (0 <= optionIndex < |before.options.value| ==>
                          after.options.value == before.options.value[..optionIndex] + before.options.value[optionIndex + 1..])
                    && (!(0 <= optionIndex < |before.options.value|) ==> after.options == before.options))
    {
      var newQuestions := Questions(survey);
      var q := newQuestions[questionIndex];
      if q.options.Some? {
        WithoutIndexSplice(q.options.value, optionIndex);
        newQuestions := newQuestions[questionIndex := q.(options := Some(WithoutIndex(q.options.value, optionIndex)))];
      }
      survey := WithQuestions(survey, newQuestions);
    }
  }

  /** One `handleRewardChange(field, value)` call, for the fields the form
      edits. */
  datatype RewardEdit =
    | SetPoints(points: int)
    | SetSupply(supply: int)
    | SetAmountPerUser(amountPerUser: real)
    | SetTokenType(tokenType: string)
    | SetNumberOfPrizes(numberOfPrizes: int)
    | SetDescription(description: string)
    | SetTotalValue(totalValue: real)
    | SetMaxUsers(maxUsers: Option<int>)

  /** `{ ...reward, [field]: value }` on a field the variant has; a field of
      another variant leaves the reward as it is. */
  function ApplyRewardEdit(r: Reward, e: RewardEdit): (t: Reward)
    ensures t.Points? == r.Points? && t.Pool? == r.Pool? && t.Prize? == r.Prize?
    ensures e.SetMaxUsers? ==> t.maxUsers == e.maxUsers
    ensures !e.SetMaxUsers? ==> t.maxUsers == r.maxUsers
    ensures t.Points? ==> t.points == if e.SetPoints? then e.points else r.points
    ensures t.Pool? ==> t.supply == (if e.SetSupply? then e.supply else r.supply)
                        && t.amountPerUser == (if e.SetAmountPerUser? then e.amountPerUser else r.amountPerUser)
                        && t.tokenType == (if e.SetTokenType? then e.tokenType else r.tokenType)
                        && t.totalValue == (if e.SetTotalValue? then e.totalValue else r.totalValue)
    ensures t.Prize? ==> t.numberOfPrizes == (if e.SetNumberOfPrizes? then e.numberOfPrizes else r.numberOfPrizes)
                         && t.description == (if e.SetDescription? then e.description else r.description)
                         && t.totalValue == (if e.SetTotalValue? then e.totalValue else r.totalValue)
  {
    match r
    case Points(points, maxUsers) =>
      (match e
       case SetPoints(v) => Points(v, maxUsers)
       case SetMaxUsers(v) => Points(points, v)
       case _ => r)
    case Pool(supply, amountPerUser, tokenType, totalValue, maxUsers) =>
      (match e
       case SetSupply(v) => Pool(v, amountPerUser, tokenType, totalValue, maxUsers)
       case SetAmountPerUser(v) => Pool(supply, v, tokenType, totalValue, maxUsers)
       case SetTokenType(v) => Pool(supply, amountPerUser, v, totalValue, maxUsers)
       case SetTotalValue(v) => Pool(supply, amountPerUser, tokenType, v, maxUsers)
       case SetMaxUsers(v) => Pool(supply, amountPerUser, tokenType, totalValue, v)
       case _ => r)
    case Prize(numberOfPrizes, description, totalValue, maxUsers) =>
      (match e
       case SetNumberOfPrizes(v) => Prize(v, description, totalValue, maxUsers)
       case SetDescription(v) => Prize(numberOfPrizes, v, totalValue, maxUsers)
       case SetTotalValue(v) => Prize(numberOfPrizes, description, v, maxUsers)
       case SetMaxUsers(v) => Prize(numberOfPrizes, description, totalValue, v)
       case _ => r)
  }

  function WithReward(s: AdminSurvey, r: Reward): (t: AdminSurvey)
    ensures t.SurveyReward() == r
    ensures t.(base := t.base.(reward := s.SurveyReward())) == s
  {
    s.(base := s.base.(reward := r))
  }

  /** `handleRewardChange`: only the reward changes. */
  function HandleRewardChange(s: AdminSurvey, e: RewardEdit): (t: AdminSurvey)
    ensures t == WithReward(s, ApplyRewardEdit(s.SurveyReward(), e))
  {
    WithReward(s, ApplyRewardEdit(s.SurveyReward(), e))
  }

  /** Two edits of the same field in a row leave only the second one's
      value. */
  lemma RewardEditChangesOnlyItsField(r: Reward, e: RewardEdit, e2: RewardEdit)
    requires e2.SetPoints? == e.SetPoints? && e2.SetSupply? == e.SetSupply?
    requires e2.SetAmountPerUser? == e.SetAmountPerUser? && e2.SetTokenType? == e.SetTokenType?
    requires e2.SetNumberOfPrizes? == e.SetNumberOfPrizes? && e2.SetDescription? == e.SetDescription?
    requires e2.SetTotalValue? == e.SetTotalValue? && e2.SetMaxUsers? == e.SetMaxUsers?
    ensures ApplyRewardEdit(ApplyRewardEdit(r, e), e2) == ApplyRewardEdit(r, e2)
  {
  }

  /** The defaults `handleRewardTypeChange` installs. */
  function DefaultReward(rt: RewardType): (r: Reward)
    ensures rt == PointsType ==> r == Points(0, None)
    ensures rt == PoolType ==> r == Pool(0, 0.0, "", 0.0, Some(0))
    ensures rt == PrizeType ==> r == Prize(0, "", 0.0, None)
  {
    match rt
    case PointsType => Points(0, None)
    case PoolType => Pool(0, 0.0, "", 0.0, Some(0))
    case PrizeType => Prize(0, "", 0.0, None)
  }

  /** `handleRewardTypeChange`: the reward is replaced by the defaults of the
      chosen type, whatever it held before. */
  function HandleRewardTypeChange(s: AdminSurvey, rt: RewardType): (t: AdminSurvey)
    ensures t == WithReward(s, DefaultReward(rt))
  {
    WithReward(s, DefaultReward(rt))
  }

  /** Changing the type discards every earlier reward edit. */
  lemma RewardTypeChangeForgetsEdits(s: AdminSurvey, e: RewardEdit, rt: RewardType)
    ensures HandleRewardTypeChange(HandleRewardChange(s, e), rt) == HandleRewardTypeChange(s, rt)
    ensures HandleRewardTypeChange(s, rt).SurveyReward() == DefaultReward(rt)
  {
  }

  /** The pool `useEffect`: two `handleRewardChange` calls, setting
      `totalValue` and then `maxUsers` from `supply`. */
  function PoolEffect(s: AdminSurvey): AdminSurvey {
    var r := s.SurveyReward();
    if r.Pool? then
      var withTotal := HandleRewardChange(s, SetTotalValue(r.supply as real * r.amountPerUser));
      HandleRewardChange(withTotal, SetMaxUsers(Some(r.supply)))
    else s
  }

  /** A pool whose derived fields agree with its supply and amount. */
  predicate PoolConsistent(r: Reward) {
    r.Pool? ==> r.totalValue == r.supply as real * r.amountPerUser && r.maxUsers == Some(r.supply)
  }

  /** After the effect the pool is consistent, only `totalValue` and
      `maxUsers` changed, and a second run changes nothing. */
  lemma PoolEffectMeaning(s: AdminSurvey)
    ensures PoolConsistent(PoolEffect(s).SurveyReward())
    ensures !s.SurveyReward().Pool? ==> PoolEffect(s) == s
    ensures s.SurveyReward().Pool? ==>
              var r := s.SurveyReward();
              PoolEffect(s) == WithReward(s, Pool(r.supply, r.amountPerUser, r.tokenType,
                                                  r.supply as real * r.amountPerUser, Some(r.supply)))
    ensures PoolEffect(PoolEffect(s)) == PoolEffect(s)
  {
  }

  /** The effect leaves a consistent survey as it is. */
  lemma PoolEffectFixesConsistent(s: AdminSurvey)
    requires PoolConsistent(s.SurveyReward())
    ensures PoolEffect(s) == s
  {
    if s.SurveyReward().Pool? {
      var r := s.SurveyReward();
      assert PoolEffect(s).SurveyReward() == r;
    }
  }

  /** `handleTargetingChange`: 'all' selects everyone, any other value starts
      a country list with no countries. */
  function HandleTargetingChange(s: AdminSurvey, targetingType: string): (t: AdminSurvey)
    ensures t == s.(targeting := t.targeting)
    ensures targetingType == "all" <==> t.targeting == TargetAll
    ensures targetingType != "all" <==> t.targeting == TargetCountries([])
  {
    s.(targeting := if targetingType == "all" then TargetAll else TargetCountries([]))
  }

  /** `handleCountrySelection`: the selected countries replace the list. */
  function HandleCountrySelection(s: AdminSurvey, selectedCountries: seq<string>): (t: AdminSurvey)
    ensures t == s.(targeting := TargetCountries(selectedCountries))
  {
    s.(targeting := TargetCountries(selectedCountries))
  }

  /** A country selection after choosing specific targeting is the list
      stored; only the last selection counts. */
  lemma CountrySelectionLastWins(s: AdminSurvey, first: seq<string>, selected: seq<string>)
    ensures HandleCountrySelection(HandleTargetingChange(s, "specific"), selected).targeting == TargetCountries(selected)
    ensures HandleCountrySelection(HandleCountrySelection(s, first), selected) == HandleCountrySelection(s, selected)
  {
  }
}

/** The survey-browsing hook (src/lib/hooks/useSurveys.ts): fetch the active
    surveys and keep those whose bracket targeting admits the user's balance. */
module UseSurveys {

  import opened Types
  import opened BracketTargeting
  import opened Seqs

  /** The signed-in user as the hook sees it. */
  datatype AuthUser = AuthUser(ethBalance: real)

  /** The hook's three pieces of React state. */
  datatype HookState = HookState(surveys: seq<SurveyRecord>, loading: bool, error: Option<string>)

  const FETCH_ERROR := "Failed to fetch surveys"

  /** The state before the first run: no surveys, loading, no error. */
  const INITIAL_STATE := HookState([], true, None)

  /** `isUserEligibleForSurvey`: 'all' admits every balance; any other
      targeting value, 'balance' or not, is decided by `some` over the bracket
      list, so an empty list admits nobody. A missing list throws. */
  function IsUserEligibleForSurvey(userBalance: real, survey: SurveyRecord): (v: Verdict)
    ensures survey.balanceTargeting == "all" ==> v == Keep
    ensures survey.balanceTargeting != "all" && survey.selectedBalanceBrackets.None? ==> v == Throws
    ensures survey.balanceTargeting != "all" && survey.selectedBalanceBrackets.Some? ==>
              (v == Keep <==> exists t :: t in survey.selectedBalanceBrackets.value && TagHolds(userBalance, t))
    ensures survey.selectedBalanceBrackets.Some? ==> v != Throws
  {
    if survey.balanceTargeting == "all" then Keep
    else match survey.selectedBalanceBrackets
      case None => Throws
      case Some(brackets) =>
        AnyTagHoldsMembers(userBalance, brackets);
        if AnyTagHolds(userBalance, brackets) then Keep else Drop
  }

  /** `{ ...surveyData, id: doc.id }`: the document id overrides a stored id. */
  function Stamp(d: SurveyDoc): (r: SurveyRecord)
    ensures r.id == Some(d.docId)
    ensures r.(id := d.data.id) == d.data
  {
    d.data.(id := Some(d.docId))
  }

  function StampAll(docs: seq<SurveyDoc>): (r: seq<SurveyRecord>)
    ensures |r| == |docs|
    ensures forall i :: 0 <= i < |docs| ==> r[i] == Stamp(docs[i])
    decreases |docs|
  {
    if |docs| == 0 then [] else StampAll(docs[..|docs| - 1]) + [Stamp(docs[|docs| - 1])]
  }

  /** What the `forEach` loop collects from `docs`, or None when a callback
      throws (the state's `surveys` is then never set). */
  function Collected(userBalance: real, docs: seq<SurveyDoc>): (r: Option<seq<SurveyRecord>>)
    ensures r.Some? ==> |r.value| <= |docs|
    decreases |docs|
  {
    if |docs| == 0 then Some([])
    else
      match Collected(userBalance, docs[..|docs| - 1])
      case None => None
      case Some(init) =>
        match IsUserEligibleForSurvey(userBalance, docs[|docs| - 1].data)
        case Keep => Some(init + [Stamp(docs[|docs| - 1])])
        case Drop => Some(init)
        case Throws => None
  }

  /** One run of `fetchSurveys` from the state `prev` the earlier runs left
      (INITIAL_STATE on the first run); `loading` is only ever cleared. With
      no user only `loading` changes; a failed query or a throwing callback
      sets the error and keeps the earlier surveys; otherwise `surveys` is
      what the loop collected and an earlier error stays. */
  method FetchSurveys(prev: HookState, user: Option<AuthUser>, snapshot: Option<seq<SurveyDoc>>) returns (st: HookState)
    ensures !st.loading
    ensures user.None? ==> st == prev.(loading := false)
    ensures user.Some? && snapshot.None? ==> st == prev.(error := Some(FETCH_ERROR), loading := false)
    ensures user.Some? && snapshot.Some? ==>
              match Collected(user.value.ethBalance, snapshot.value)
              case Some(r) => st == prev.(surveys := r, loading := false)
              case None => st == prev.(error := Some(FETCH_ERROR), loading := false)
  {
    st := prev;
    if user.None? {
      return st.(loading := false);
    }
    if snapshot.None? {
      return st.(error := Some(FETCH_ERROR), loading := false);
    }
    var docs := snapshot.value;
    var balance := user.value.ethBalance;
    var fetchedSurveys: seq<SurveyRecord> := [];
    var i := 0;
    while i < |docs|
      invariant 0 <= i <= |docs|
      invariant Collected(balance, docs[..i]) == Some(fetchedSurveys)
    {
      assert docs[..i + 1][..i] == docs[..i];
      var verdict := IsUserEligibleForSurvey(balance, docs[i].data);
      if verdict == Throws {
        assert Collected(balance, docs[..i + 1]) == None;
        CollectedNoneSticks(balance, docs, i + 1);
        assert docs[..|docs|] == docs;
        return st.(error := Some(FETCH_ERROR), loading := false);
      }
      if verdict == Keep {
        fetchedSurveys := fetchedSurveys + [Stamp(docs[i])];
      }
      i := i + 1;
    }
    assert docs[..i] == docs;
    st := st.(surveys := fetchedSurveys, loading := false);
  }

  /** Once a callback has thrown, the loop's outcome stays a failure. */
  lemma {:induction false} CollectedNoneSticks(b: real, docs: seq<SurveyDoc>, k: nat)
    requires k <= |docs| && Collected(b, docs[..k]) == None
    ensures Collected(b, docs) == None
    decreases |docs| - k
  {
    if k < |docs| {
      assert docs[..k + 1][..k] == docs[..k];
      CollectedNoneSticks(b, docs, k + 1);
    } else {
      assert docs[..k] == docs;
    }
  }

  /** Every document the user is eligible for is collected: with
      `CollectedOnlyKeeps`, the collection is exactly the eligible documents. */
  lemma {:induction false} CollectedComplete(b: real, docs: seq<SurveyDoc>)
    ensures Collected(b, docs).Some? ==>
              forall i :: 0 <= i < |docs| && IsUserEligibleForSurvey(b, docs[i].data) == Keep ==>
                Stamp(docs[i]) in Collected(b, docs).value
    decreases |docs|
  {
    if |docs| > 0 && Collected(b, docs).Some? {
      var init := docs[..|docs| - 1];
      CollectedComplete(b, init);
      var r0 := Collected(b, init).value;
      var r := Collected(b, docs).value;
      assert forall x :: x in r0 ==> x in r;
      forall i | 0 <= i < |docs| && IsUserEligibleForSurvey(b, docs[i].data) == Keep
        ensures Stamp(docs[i]) in r
      {
        if i < |init| {
          assert init[i] == docs[i];
        }
      }
    }
  }

  /** The collected list keeps query order: it is a subsequence of the
      stamped query result. */
  lemma {:induction false} CollectedKeepsOrder(b: real, docs: seq<SurveyDoc>, r: seq<SurveyRecord>)
    requires Collected(b, docs) == Some(r)
    ensures IsSubsequence(r, StampAll(docs))
    decreases |docs|
  {
    if |docs| > 0 {
      var init := docs[..|docs| - 1];
      var last := docs[|docs| - 1];
      var r0 := Collected(b, init).value;
      CollectedKeepsOrder(b, init, r0);
      assert StampAll(docs)[..|docs| - 1] == StampAll(init);
      if IsUserEligibleForSurvey(b, last.data) == Keep {
        assert r[..|r| - 1] == r0;
      }
    }
  }

  /** Every collected survey carries the id of a queried document. */
  lemma CollectedCarryDocIds(b: real, docs: seq<SurveyDoc>, r: seq<SurveyRecord>)
    requires Collected(b, docs) == Some(r)
    ensures forall x :: x in r ==> exists d :: d in docs && x.id == Some(d.docId)
  {
    CollectedKeepsOrder(b, docs, r);
    forall x | x in r
      ensures exists d :: d in docs && x.id == Some(d.docId)
    {
      SubsequenceMembers(r, StampAll(docs), x);
      var i :| 0 <= i < |docs| && StampAll(docs)[i] == x;
      assert docs[i] in docs;
    }
  }

  /** Every collected survey is one the user is eligible for. */
  lemma {:induction false} CollectedOnlyKeeps(b: real, docs: seq<SurveyDoc>, r: seq<SurveyRecord>)
    requires Collected(b, docs) == Some(r)
    ensures forall x :: x in r ==> IsUserEligibleForSurvey(b, x) == Keep
    decreases |docs|
  {
    if |docs| > 0 {
      var init := docs[..|docs| - 1];
      var last := docs[|docs| - 1];
      var r0 := Collected(b, init).value;
      CollectedOnlyKeeps(b, init, r0);
      if IsUserEligibleForSurvey(b, last.data) == Keep {
        assert IsUserEligibleForSurvey(b, Stamp(last)) == Keep;
      }
    }
  }

  /** The loop fails exactly when some document's callback throws. */
  lemma {:induction false} CollectedFailsIffSomeThrows(b: real, docs: seq<SurveyDoc>)
    ensures Collected(b, docs).None? <==> exists i :: 0 <= i < |docs| && IsUserEligibleForSurvey(b, docs[i].data) == Throws
    decreases |docs|
  {
    if |docs| > 0 {
      var init := docs[..|docs| - 1];
      CollectedFailsIffSomeThrows(b, init);
      if exists i :: 0 <= i < |init| && IsUserEligibleForSurvey(b, init[i].data) == Throws {
        var i :| 0 <= i < |init| && IsUserEligibleForSurvey(b, init[i].data) == Throws;
        assert docs[i] == init[i];
      }
      if exists i :: 0 <= i < |docs| && IsUserEligibleForSurvey(b, docs[i].data) == Throws {
        var i :| 0 <= i < |docs| && IsUserEligibleForSurvey(b, docs[i].data) == Throws;
        if i < |init| {
          assert init[i] == docs[i];
        }
      }
    }
  }

  /** A zero balance matches no bracket: a zero-balance user is shown only
      'all' surveys. */
  lemma ZeroBalanceSeesOnlyAll(survey: SurveyRecord)
    requires IsUserEligibleForSurvey(0.0, survey) == Keep
    ensures survey.balanceTargeting == "all"
  {
    TierBoundaries();
  }

  /** An empty bracket list admits nobody unless the targeting is 'all'. */
  lemma EmptyBracketsAdmitNobody(balance: real, survey: SurveyRecord)
    requires survey.balanceTargeting != "all" && survey.selectedBalanceBrackets == Some([])
    ensures IsUserEligibleForSurvey(balance, survey) == Drop
  {
  }
}

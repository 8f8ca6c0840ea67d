/** The survey API route (src/app/api/surveys/route.ts): `GET` filters the
    surveys by bracket targeting for a balance given in the query string;
    `POST` turns a wallet-balance target into a closed [min, max] range. */
module SurveysRoute {

  import opened Types
  import opened BracketTargeting
  import opened Seqs

  /** The two query-string parameters; `balance` is the value `parseFloat`
      read, None when the parameter is missing or empty. */
  datatype GetParams = GetParams(walletAddress: Option<string>, balance: Option<real>)

  datatype GetResponse =
    | Surveys(surveys: seq<SurveyRecord>)
    | BadRequest(error: string)       // status 400
    | ServerError(error: string)      // status 500

  const ADDRESS_REQUIRED := "Wallet address is required"
  const FETCH_ERROR := "Failed to fetch surveys"

  /** `parseFloat(searchParams.get('balance') || '0')`. */
  function RequestBalance(p: GetParams): real {
    match p.balance
    case Some(b) => b
    case None => 0.0
  }

  /** The filter callback: 'all' is kept, 'balance' is kept iff some bracket
      matches (an empty list keeps nothing, a missing one throws), any other
      targeting value is dropped. */
  function GetVerdict(balance: real, data: SurveyRecord): (v: Verdict)
    ensures data.balanceTargeting == "all" ==> v == Keep
    ensures data.balanceTargeting != "all" && data.balanceTargeting != "balance" ==> v == Drop
    ensures data.balanceTargeting == "balance" && data.selectedBalanceBrackets.None? ==> v == Throws
    ensures data.balanceTargeting == "balance" && data.selectedBalanceBrackets.Some? ==>
              (v == Keep <==> exists t :: t in data.selectedBalanceBrackets.value && TagHolds(balance, t))
    ensures data.selectedBalanceBrackets.Some? ==> v != Throws
  {
    if data.balanceTargeting == "all" then Keep
    else if data.balanceTargeting == "balance" then
      match data.selectedBalanceBrackets
      case None => Throws
      case Some(brackets) =>
        AnyTagHoldsMembers(balance, brackets);
        if AnyTagHolds(balance, brackets) then Keep else Drop
    else Drop
  }

  /** `{ id: doc.id, ...doc.data() }`: a stored `id` overrides the document id. */
  function WithDocId(d: SurveyDoc): (r: SurveyRecord)
    ensures d.data.id.Some? ==> r == d.data
    ensures d.data.id.None? ==> r == d.data.(id := Some(d.docId))
  {
    if d.data.id.Some? then d.data else d.data.(id := Some(d.docId))
  }

  function WithDocIds(docs: seq<SurveyDoc>): (r: seq<SurveyRecord>)
    ensures |r| == |docs|
    ensures forall i :: 0 <= i < |docs| ==> r[i] == WithDocId(docs[i])
    decreases |docs|
  {
    if |docs| == 0 then [] else WithDocIds(docs[..|docs| - 1]) + [WithDocId(docs[|docs| - 1])]
  }

  /** `docs.filter(...).map(...)`, or None when the callback throws. */
  function Eligible(balance: real, docs: seq<SurveyDoc>): (r: Option<seq<SurveyRecord>>)
    ensures r.Some? ==> |r.value| <= |docs|
    decreases |docs|
  {
    if |docs| == 0 then Some([])
    else
      match Eligible(balance, docs[..|docs| - 1])
      case None => None
      case Some(init) =>
        match GetVerdict(balance, docs[|docs| - 1].data)
        case Keep => Some(init + [WithDocId(docs[|docs| - 1])])
        case Drop => Some(init)
        case Throws => None
  }

  /** `GET`: a missing or empty wallet address is a 400 with no surveys; a
      failed query or a throwing callback is a 500; otherwise the filtered
      list. */
  function Get(p: GetParams, snapshot: Option<seq<SurveyDoc>>): (resp: GetResponse)
    ensures (p.walletAddress.None? || p.walletAddress == Some("")) ==> resp == BadRequest(ADDRESS_REQUIRED)
    ensures p.walletAddress.Some? && p.walletAddress != Some("") && snapshot.None? ==> resp == ServerError(FETCH_ERROR)
    ensures p.walletAddress.Some? && p.walletAddress != Some("") && snapshot.Some? ==>
              resp == match Eligible(RequestBalance(p), snapshot.value)
                      case Some(r) => Surveys(r)
                      case None => ServerError(FETCH_ERROR)
  {
    if p.walletAddress.None? || p.walletAddress == Some("") then BadRequest(ADDRESS_REQUIRED)
    else if snapshot.None? then ServerError(FETCH_ERROR)
    else
      match Eligible(RequestBalance(p), snapshot.value)
      case Some(r) => Surveys(r)
      case None => ServerError(FETCH_ERROR)
  }

  /** The result is an order-preserving subsequence of the fetched surveys. */
  lemma {:induction false} EligibleKeepsOrder(b: real, docs: seq<SurveyDoc>, r: seq<SurveyRecord>)
    requires Eligible(b, docs) == Some(r)
    ensures IsSubsequence(r, WithDocIds(docs))
    decreases |docs|
  {
    if |docs| > 0 {
      var init := docs[..|docs| - 1];
      var r0 := Eligible(b, init).value;
      EligibleKeepsOrder(b, init, r0);
      assert WithDocIds(docs)[..|docs| - 1] == WithDocIds(init);
      if GetVerdict(b, docs[|docs| - 1].data) == Keep {
        assert r[..|r| - 1] == r0;
      }
    }
  }

  /** Every returned survey passed the callback; an 'all' survey is never
      dropped. */
  lemma {:induction false} EligibleMembersAndAll(b: real, docs: seq<SurveyDoc>, r: seq<SurveyRecord>)
    requires Eligible(b, docs) == Some(r)
    ensures forall x :: x in r ==> GetVerdict(b, x) == Keep
    ensures forall d :: d in docs && d.data.balanceTargeting == "all" ==> WithDocId(d) in r
    decreases |docs|
  {
    if |docs| > 0 {
      var init := docs[..|docs| - 1];
      var last := docs[|docs| - 1];
      var r0 := Eligible(b, init).value;
      EligibleMembersAndAll(b, init, r0);
      assert docs == init + [last];
      if GetVerdict(b, last.data) == Keep {
        assert GetVerdict(b, WithDocId(last)) == Keep;
      }
    }
  }

  /** Every document the callback keeps is returned: with
      `EligibleMembersAndAll`, a document is in the answer exactly when the
      callback keeps it. */
  lemma {:induction false} EligibleComplete(b: real, docs: seq<SurveyDoc>, r: seq<SurveyRecord>)
    requires Eligible(b, docs) == Some(r)
    ensures forall d :: d in docs && GetVerdict(b, d.data) == Keep ==> WithDocId(d) in r
    decreases |docs|
  {
    if |docs| > 0 {
      var init := docs[..|docs| - 1];
      var last := docs[|docs| - 1];
      var r0 := Eligible(b, init).value;
      EligibleComplete(b, init, r0);
      assert docs == init + [last];
      assert forall x :: x in r0 ==> x in r;
    }
  }

  /** Without a balance parameter the filter runs with balance 0, so only 'all'
      surveys come back. */
  lemma MissingBalanceSeesOnlyAll(p: GetParams, data: SurveyRecord)
    requires p.balance.None? && GetVerdict(RequestBalance(p), data) == Keep
    ensures data.balanceTargeting == "all"
  {
    TierBoundaries();
  }

  /** The `POST` switch as a table: all -> [0, inf), non-zero -> [1e-18, inf),
      low -> [0, 1], medium -> [1, 10], high -> [10, inf); any other value keeps
      the defaults [0, inf). */
  function TargetRange(walletBalanceTarget: string): (range: (real, Bound))
  {
    if walletBalanceTarget == "non-zero" then (0.000000000000000001, Infinity)
    else if walletBalanceTarget == "low" then (0.0, Finite(1.0))
    else if walletBalanceTarget == "medium" then (1.0, Finite(10.0))
    else if walletBalanceTarget == "high" then (10.0, Infinity)
    else (0.0, Infinity)
  }

  /** The `POST` handler's `let` reassignments inside the `switch`. */
  method PostRange(walletBalanceTarget: string) returns (minWalletBalance: real, maxWalletBalance: Bound)
    ensures (minWalletBalance, maxWalletBalance) == TargetRange(walletBalanceTarget)
    ensures 0.0 <= minWalletBalance && maxWalletBalance.Admits(minWalletBalance)
  {
    minWalletBalance := 0.0;
    maxWalletBalance := Infinity;
    if walletBalanceTarget == "all" {
      // keep the defaults
    } else if walletBalanceTarget == "non-zero" {
      minWalletBalance := 0.000000000000000001;
    } else if walletBalanceTarget == "low" {
      minWalletBalance := 0.0;
      maxWalletBalance := Finite(1.0);
    } else if walletBalanceTarget == "medium" {
      minWalletBalance := 1.0;
      maxWalletBalance := Finite(10.0);
    } else if walletBalanceTarget == "high" {
      minWalletBalance := 10.0;
    }
  }

  /** The ranges of the five named targets, and the default for any other. */
  lemma TargetRangeTable(other: string)
    requires other !in {"all", "non-zero", "low", "medium", "high"}
    ensures TargetRange(AllBalances.Name()) == (0.0, Infinity)
    ensures TargetRange(NonZero.Name()) == (0.000000000000000001, Infinity)
    ensures TargetRange(Low.Name()) == (0.0, Finite(1.0))
    ensures TargetRange(Medium.Name()) == (1.0, Finite(10.0))
    ensures TargetRange(High.Name()) == (10.0, Infinity)
    ensures TargetRange(other) == TargetRange("all")
  {
  }
}

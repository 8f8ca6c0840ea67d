/** The admin reach estimate (src/app/api/eligible-users-count/route.ts): a
    country pre-filter done by the user query, then a loop that counts the users
    whose balance passes the selected brackets. */
module EligibleUsersCount {

  import opened Types
  import opened BracketTargeting

  /** The JSON body the create-survey page posts. */
  datatype CountCriteria = CountCriteria(
    targetCountryOption: string,
    targetCountries: seq<string>,
    balanceTargeting: string,
    selectedBalanceBrackets: seq<string>)

  /** A user document: `country` may be absent, `ethBalance` may be absent. */
  datatype UserDoc = UserDoc(country: Option<string>, ethBalance: Option<real>)

  datatype CountResponse = Count(count: nat) | ServerError(error: string)

  const COUNT_ERROR := "Failed to calculate eligible user count"

  /** `isEligibleBalance`: an empty list passes every balance; otherwise some
      listed tag must hold. */
  predicate IsEligibleBalance(balance: real, selectedBrackets: seq<string>) {
    |selectedBrackets| == 0 || AnyTagHolds(balance, selectedBrackets)
  }

  /** The `where('country', 'in', ...)` filter is added only for 'specific'
      with a non-empty list. */
  predicate CountryFilterApplies(c: CountCriteria) {
    c.targetCountryOption == "specific" && |c.targetCountries| > 0
  }

  /** A user the query returns; a user without a country fails an `in` filter. */
  predicate InQuery(c: CountCriteria, u: UserDoc) {
    !CountryFilterApplies(c) || (u.country.Some? && u.country.value in c.targetCountries)
  }

  /** `userData.ethBalance || 0`: a missing (or zero) balance reads as 0. */
  function UserBalance(u: UserDoc): real {
    match u.ethBalance
    case Some(b) => b
    case None => 0.0
  }

  /** The test inside the loop. */
  predicate PassesBalance(c: CountCriteria, u: UserDoc)
    ensures c.balanceTargeting == "all" || c.selectedBalanceBrackets == [] ==> PassesBalance(c, u)
  {
    c.balanceTargeting == "all" || IsEligibleBalance(UserBalance(u), c.selectedBalanceBrackets)
  }

  /** The whole eligibility rule of the endpoint for one user. */
  predicate Counted(c: CountCriteria, u: UserDoc) {
    InQuery(c, u) && PassesBalance(c, u)
  }

  /** The documents `getDocs(userQuery)` returns, in store order. */
  function QueryUsers(c: CountCriteria, users: seq<UserDoc>): (docs: seq<UserDoc>)
    ensures |docs| <= |users|
    ensures forall u :: u in docs ==> u in users && InQuery(c, u)
    decreases |users|
  {
    if |users| == 0 then []
    else
      var init := QueryUsers(c, users[..|users| - 1]);
      assert forall u :: u in users[..|users| - 1] ==> u in users;
      var last := users[|users| - 1];
      if InQuery(c, last) then init + [last] else init
  }

  /** Number of documents that pass the loop's balance test. */
  function NumPassing(c: CountCriteria, docs: seq<UserDoc>): (n: nat)
    ensures n <= |docs|
    decreases |docs|
  {
    if |docs| == 0 then 0
    else NumPassing(c, docs[..|docs| - 1]) + (if PassesBalance(c, docs[|docs| - 1]) then 1 else 0)
  }

  /** Number of users satisfying the endpoint's whole rule. */
  function NumCounted(c: CountCriteria, users: seq<UserDoc>): (n: nat)
    ensures n <= |users|
    decreases |users|
  {
    if |users| == 0 then 0
    else NumCounted(c, users[..|users| - 1]) + (if Counted(c, users[|users| - 1]) then 1 else 0)
  }

  /** `POST`: a store failure answers 500; otherwise the loop counts the
      queried users that pass the balance test, which is the number of users
      satisfying `Counted`. */
  method Post(c: CountCriteria, population: Option<seq<UserDoc>>) returns (resp: CountResponse)
    ensures population.None? ==> resp == ServerError(COUNT_ERROR)
    ensures population.Some? ==> resp == Count(NumCounted(c, population.value))
  {
    if population.None? {
      return ServerError(COUNT_ERROR);
    }
    var docs := QueryUsers(c, population.value);
    var eligibleCount := 0;
    var i := 0;
    while i < |docs|
      invariant 0 <= i <= |docs|
      invariant eligibleCount == NumPassing(c, docs[..i])
    {
      var userBalance := UserBalance(docs[i]);
      if c.balanceTargeting == "all" || IsEligibleBalance(userBalance, c.selectedBalanceBrackets) {
        eligibleCount := eligibleCount + 1;
      }
      assert docs[..i + 1][..i] == docs[..i];
      i := i + 1;
    }
    assert docs[..i] == docs;
    QueryThenCountIsCounted(c, population.value);
    resp := Count(eligibleCount);
  }

  /** Counting the queried documents equals counting the users that satisfy the
      whole rule. */
  lemma {:induction false} QueryThenCountIsCounted(c: CountCriteria, users: seq<UserDoc>)
    ensures NumPassing(c, QueryUsers(c, users)) == NumCounted(c, users)
    decreases |users|
  {
    if |users| > 0 {
      var init := users[..|users| - 1];
      var last := users[|users| - 1];
      QueryThenCountIsCounted(c, init);
      var q := QueryUsers(c, init);
      if InQuery(c, last) {
        assert (q + [last])[..|q + [last]| - 1] == q;
      }
    }
  }

  /** An empty bracket list passes every balance, 0 included. */
  lemma EmptyBracketsPassAll(balance: real)
    ensures IsEligibleBalance(balance, [])
  {
  }

  /** For a non-empty list the test is exactly "some listed tag holds". */
  lemma NonEmptyBracketsNeedAMatch(balance: real, brackets: seq<string>)
    requires |brackets| > 0
    ensures IsEligibleBalance(balance, brackets) <==> exists i :: 0 <= i < |brackets| && TagHolds(balance, brackets[i])
  {
    AnyTagHoldsIff(balance, brackets);
  }

  /** A missing balance reads as 0: it fails every non-empty list but passes an
      empty one. */
  lemma MissingBalanceIsZero(c: CountCriteria, u: UserDoc)
    requires u.ethBalance.None? && c.balanceTargeting != "all"
    ensures PassesBalance(c, u) <==> |c.selectedBalanceBrackets| == 0
  {
    if |c.selectedBalanceBrackets| > 0 {
      AnyTagHoldsIff(0.0, c.selectedBalanceBrackets);
    }
  }

  /** The number of users passing a rule that every user passes. */
  lemma {:induction false} AllCountedIsPopulation(c: CountCriteria, users: seq<UserDoc>)
    requires forall u :: u in users ==> Counted(c, u)
    ensures NumCounted(c, users) == |users|
    decreases |users|
  {
    if |users| > 0 {
      assert forall u :: u in users[..|users| - 1] ==> u in users;
      AllCountedIsPopulation(c, users[..|users| - 1]);
    }
  }

  /** With balance targeting 'all' and no country filter, the count is the
      population size. */
  lemma NoFilterCountsEveryone(c: CountCriteria, users: seq<UserDoc>)
    requires c.balanceTargeting == "all" && !CountryFilterApplies(c)
    ensures NumCounted(c, users) == |users|
  {
    AllCountedIsPopulation(c, users);
  }

  /** With the same balance settings only the query can differ: 'specific' with
      an empty country list counts the same users as 'all'. */
  lemma {:induction false} SpecificEmptyIsLikeAll(c: CountCriteria, users: seq<UserDoc>)
    requires c.targetCountryOption == "specific" && c.targetCountries == []
    ensures NumCounted(c, users) == NumCounted(c.(targetCountryOption := "all"), users)
    decreases |users|
  {
    if |users| > 0 {
      SpecificEmptyIsLikeAll(c, users[..|users| - 1]);
    }
  }
}

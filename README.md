# CoinLens survey rules in Dafny

This project is a model of the targeting, eligibility and reward rules of the
CoinLens survey app (Next.js, Firebase, ethers), with proofs about it. The app
states several of these rules more than once, in different files, and the
copies do not agree. Each copy is modelled as its source writes it. The
`CrossCheck` module then proves where the copies agree and where they part.

One Dafny module per source file:

- `Types`: the shared records. A `Reward` is one of points, pool or prize,
  and each carries `maxUsers`. `TargetingCriteria`, `WalletBalanceTarget`,
  `Survey` and `AdminSurvey` are modelled the same way.
- `BracketTargeting`: the per-tag bracket switch. It is written out
  identically three times: by the reach-count endpoint, by the `useSurveys`
  hook and by the survey `GET` route. The model states it once.
- `BalanceCategories`: the balance labeller.
- `EligibleUsersCount`: the reach-count endpoint.
- `UseSurveys`: the survey-browsing hook.
- `SurveysRoute`: the survey `GET` filter and the `POST` range switch.
- `SurveyList`: the range filter of the user-facing list.
- `WalletBalanceChart`: the admin histogram.
- `Api`: the survey store, with the capacity check of `submitSurvey`.
- `Dashboard`: the admin dashboard's "rewards left" count and its list
  updates.
- `SurveyForm` and `CreateSurvey`: the two admin editors.
- `WalletUtils`: wallet valuation with a five-minute cache.
- `SurveyQuestion`: the checkbox toggle.
- `Seqs` and `Text`: helpers for order-preserving subsequences and for
  decimal rendering.

How the model represents the source:

- Reads from Firestore, the chain RPC and the price feed are inputs.
  - A value that can fail is an `Option`.
  - A write that can fail is a `bool` argument.
- The current time is an integer argument.
- Amounts and balances are `real`.
- Counts are `int`.
- An infinite upper bound is `Bound.Infinity`.
- The survey store and the balance cache are classes with a `map` field that
  their methods update. Both are backed by Firestore in the source.
- The hook's `forEach`, the count endpoint's `for` loop and the `map` that
  prices token lines are loops in the source, so they are methods with loop
  invariants. Each is proved against a recursive function on the same inputs.
- The React state updaters are functions from the previous state to the next.
- The three option handlers of `SurveyForm` assign into a copied question
  list, so they are methods of a `SurveyFormState` class.

Where the app's labels, comments and messages promise one thing and the code
does another, the model follows the code:

- A failed ETH price read makes `fetchWalletBalance` return the degraded
  zero result, as every other failure does. It does not raise an error.
- An empty bracket list is counted as "everyone" by the reach estimate. The
  same list makes the filter callbacks of `useSurveys` and of the `GET` route
  drop the survey for every balance.
- The create page's surveys never reach the `useSurveys` hook or
  `fetchSurveysForUser`. The hook queries `active == true`, while `api.ts`
  and the dashboard use `isActive`, and the create page's `addDoc` payload
  writes neither field. Only the `GET` route's query, on `expirationDate`,
  can list them. The page's documents also lack `reward`, `rewardsClaimed`
  and `targeting`. The cross-file lemmas about created surveys therefore
  compare the filter callbacks on the stored record, not what a user is
  shown.
- `submitSurvey` never looks at a prize's `numberOfPrizes`. The dashboard
  counts down from it.
- A balance of exactly 0.1 is labelled Shrimp by the category chain, whose
  tiers are upper-inclusive, while the chart's half-open bins count it under
  Crab. Both labels, "Shrimp (0-0.1 ETH)" and "Crab (0.1-1 ETH)", name 0.1.
- 'specific' country targeting with an empty country list adds no country
  filter, so the reach estimate counts every user.
- A balance target other than 'all' with an empty bracket list also counts
  every user in the reach estimate.

## Model

| member | source | states |
|---|---|---|
| BracketTargeting.TagHolds | src/app/api/eligible-users-count/route.ts:40-55 | one case of the bracket switch: any tag that holds implies a positive balance, and a tag other than the six known ones never holds |
| BracketTargeting.AnyTagHoldsIff | src/app/api/eligible-users-count/route.ts:39-56 | `some` over the switch is true exactly when some listed tag's case holds, and false on an empty list |
| BracketTargeting.AnyTagHoldsMembers | src/lib/hooks/useSurveys.ts:62-79 | the bracket test depends only on which tags are listed, not on their order or repetition |
| BracketTargeting.UnknownTagFails | src/app/api/eligible-users-count/route.ts:53-54 | a tag outside the six known ones (such as 'all') never holds |
| BracketTargeting.NonZeroTagIsPositive | src/app/api/eligible-users-count/route.ts:41-42 | 'non_zero' holds exactly for a positive balance |
| BracketTargeting.TiersPartitionPositive | src/app/api/eligible-users-count/route.ts:43-52 | for a positive balance exactly one of the five tier tags holds; for zero or less none does |
| BracketTargeting.TierImpliesNonZero | src/app/api/eligible-users-count/route.ts:41-52 | any balance in a tier also passes 'non_zero' |
| BracketTargeting.TierBoundaries | src/app/api/eligible-users-count/route.ts:43-50 | the tiers are upper-inclusive: 0.1, 1, 10 and 32 belong to the lower tier, and no tag holds at 0 |
| BalanceCategories.GetBalanceCategory | src/lib/utils/balanceCategories.ts:1-9 | 'No Balance' exactly at 0 and 'Unknown' exactly below 0; a tier label exactly when that tier's bracket predicate holds |
| BalanceCategories.CategoryBoundaries | src/lib/utils/balanceCategories.ts:2-6 | 0 is 'No Balance'; 0.1, 1, 10 and 32 get the lower tier's label |
| BalanceCategories.PositiveGetsOneTier | src/lib/utils/balanceCategories.ts:3-7 | a positive balance gets exactly one of the five tier labels, never 'No Balance' or 'Unknown' |
| EligibleUsersCount.QueryUsers | src/app/api/eligible-users-count/route.ts:13-17 | the queried users are users of the population that pass the country filter |
| EligibleUsersCount.PassesBalance | src/app/api/eligible-users-count/route.ts:22-24 | the loop's test: 'all' targeting or an empty bracket list passes every user |
| EligibleUsersCount.NumPassing | src/app/api/eligible-users-count/route.ts:18-27 | the loop's count never exceeds the number of documents |
| EligibleUsersCount.NumCounted | src/app/api/eligible-users-count/route.ts:18-27 | the number of eligible users never exceeds the population |
| EligibleUsersCount.Post | src/app/api/eligible-users-count/route.ts:5-34 | a store failure answers the 500 message; otherwise the loop's count is the number of users satisfying the endpoint's whole rule |
| EligibleUsersCount.QueryThenCountIsCounted | src/app/api/eligible-users-count/route.ts:13-27 | counting the balance test over the queried users equals counting the users who pass both the country filter and the balance test |
| EligibleUsersCount.EmptyBracketsPassAll | src/app/api/eligible-users-count/route.ts:37 | an empty bracket list passes every balance |
| EligibleUsersCount.NonEmptyBracketsNeedAMatch | src/app/api/eligible-users-count/route.ts:39-56 | a non-empty list passes exactly when one of its tags holds |
| EligibleUsersCount.MissingBalanceIsZero | src/app/api/eligible-users-count/route.ts:22-24 | a user with no balance is read as 0: fails every non-empty list, passes an empty one |
| EligibleUsersCount.AllCountedIsPopulation | src/app/api/eligible-users-count/route.ts:18-27 | when every user satisfies the rule, the count is the population size |
| EligibleUsersCount.NoFilterCountsEveryone | src/app/api/eligible-users-count/route.ts:13-24 | 'all' balance targeting with no country filter counts the whole population |
| EligibleUsersCount.SpecificEmptyIsLikeAll | src/app/api/eligible-users-count/route.ts:13-15 | 'specific' with an empty country list counts the same users as 'all' |
| UseSurveys.IsUserEligibleForSurvey | src/lib/hooks/useSurveys.ts:57-80 | 'all' keeps the survey; any other value keeps it exactly when some bracket holds; it throws exactly when the bracket list is missing on a non-'all' survey |
| UseSurveys.Stamp | src/lib/hooks/useSurveys.ts:41 | the document id replaces any stored id; the other fields are kept |
| UseSurveys.StampAll | src/lib/hooks/useSurveys.ts:37-43 | stamping keeps the length and stamps each document in place |
| UseSurveys.Collected | src/lib/hooks/useSurveys.ts:37-43 | the `forEach` loop's specification: it never collects more surveys than the query returned; `CollectedOnlyKeeps` and `CollectedComplete` state which ones |
| UseSurveys.FetchSurveys | src/lib/hooks/useSurveys.ts:20-52 | from the state the earlier runs left, `loading` is cleared and never set again; no user: nothing else changes; a failed query or a throwing callback: the error is set and the earlier surveys stay; otherwise `surveys` becomes exactly what `Collected` gives and an earlier error stays |
| UseSurveys.CollectedNoneSticks | src/lib/hooks/useSurveys.ts:37-47 | once a callback has thrown, the whole fetch fails |
| UseSurveys.CollectedKeepsOrder | src/lib/hooks/useSurveys.ts:37-43 | the collected list is an order-preserving subsequence of the stamped query result |
| UseSurveys.CollectedCarryDocIds | src/lib/hooks/useSurveys.ts:41 | every collected survey carries the id of a queried document |
| UseSurveys.CollectedOnlyKeeps | src/lib/hooks/useSurveys.ts:39-42 | every collected survey is one the user is eligible for |
| UseSurveys.CollectedComplete | src/lib/hooks/useSurveys.ts:38-42 | every document the user is eligible for is collected, stamped with its document id; with `CollectedOnlyKeeps`, one is collected exactly when the user is eligible |
| UseSurveys.CollectedFailsIffSomeThrows | src/lib/hooks/useSurveys.ts:37-47 | the fetch fails exactly when some document's callback throws |
| UseSurveys.ZeroBalanceSeesOnlyAll | src/lib/hooks/useSurveys.ts:62-79 | a zero-balance user is shown only 'all' surveys |
| UseSurveys.EmptyBracketsAdmitNobody | src/lib/hooks/useSurveys.ts:62 | an empty bracket list admits nobody unless the targeting is 'all' |
| SurveysRoute.GetVerdict | src/app/api/surveys/route.ts:19-46 | 'all' is kept; 'balance' is kept exactly when a bracket holds; any other value is dropped; it throws exactly when the list is missing on 'balance' |
| SurveysRoute.WithDocId | src/app/api/surveys/route.ts:47-50 | a stored id overrides the document id; the document id is used only when none is stored |
| SurveysRoute.WithDocIds | src/app/api/surveys/route.ts:47-50 | the map keeps the length and transforms each document in place |
| SurveysRoute.Eligible | src/app/api/surveys/route.ts:19-50 | the `filter` then `map` as one recursive pass: never longer than the fetched list; `EligibleMembersAndAll` and `EligibleComplete` state which surveys it keeps |
| SurveysRoute.Get | src/app/api/surveys/route.ts:5-57 | a missing or empty address is a 400; with an address, a store failure or a throwing callback is a 500, and otherwise the answer is exactly the list `Eligible` gives |
| SurveysRoute.EligibleKeepsOrder | src/app/api/surveys/route.ts:19-50 | the result is an order-preserving subsequence of the fetched surveys |
| SurveysRoute.EligibleMembersAndAll | src/app/api/surveys/route.ts:21-46 | every returned survey passed the callback, and no 'all' survey is dropped |
| SurveysRoute.EligibleComplete | src/app/api/surveys/route.ts:21-50 | every fetched survey the callback keeps is returned, with its id added; with `EligibleMembersAndAll`, a 'balance' survey is returned exactly when one of its brackets holds |
| SurveysRoute.MissingBalanceSeesOnlyAll | src/app/api/surveys/route.ts:8 | without a balance parameter only 'all' surveys come back |
| SurveysRoute.PostRange | src/app/api/surveys/route.ts:62-83 | the switch's reassignments produce the range of the target table; the minimum is non-negative and within the maximum |
| SurveysRoute.TargetRangeTable | src/app/api/surveys/route.ts:62-83 | the five named targets map to [0,inf), [1e-18,inf), [0,1], [1,10] and [10,inf); any other value keeps [0,inf) |
| SurveyList.EligibleSurveys | src/app/components/SurveyList.tsx:10-18 | the shown surveys are no more than the input, and each passes the callback |
| SurveyList.EligibleSurveysIsFilter | src/app/components/SurveyList.tsx:10-18 | the output keeps input order and contains exactly the surveys the callback accepts |
| SurveyList.Shows | src/app/components/SurveyList.tsx:11-17 | the `filter` callback: 'all' always shows, 'non-zero' shows exactly for a positive balance, and any other target needs at least the minimum |
| SurveyList.ShowsByTarget | src/app/components/SurveyList.tsx:11-16 | 'all' is always shown; 'non-zero' exactly for a positive balance; any other target by the closed range |
| SurveyList.SurveyWithTarget | src/app/api/surveys/route.ts:62-83 | a survey with the target and the range the POST switch stores for it |
| SurveyList.RangesOverlapAtBoundaries | src/app/components/SurveyList.tsx:16 | a balance of exactly 1 sees both 'low' and 'medium', and exactly 10 sees both 'medium' and 'high' |
| SurveyList.RangesCoverNonNegative | src/app/components/SurveyList.tsx:13-16 | every non-negative balance sees one of low, medium and high; 'non-zero' ignores its stored range |
| WalletBalanceChart.CountInBin | src/app/components/WalletBalanceChart.tsx:25-26 | a bin's count never exceeds the number of wallets |
| WalletBalanceChart.CountPositive | src/app/components/WalletBalanceChart.tsx:23-24 | the non-zero count never exceeds the number of wallets |
| WalletBalanceChart.CountNonNegative | src/app/components/WalletBalanceChart.tsx:25-26 | the count of non-negative balances never exceeds the number of wallets |
| WalletBalanceChart.BinCount | src/app/components/WalletBalanceChart.tsx:20-28 | one bin's count: never more than the population, and the whole population for 'All Users' |
| WalletBalanceChart.CountsFor | src/app/components/WalletBalanceChart.tsx:20-28 | one count per bin, in bin order |
| WalletBalanceChart.BracketCounts | src/app/components/WalletBalanceChart.tsx:20-28 | exactly seven counts |
| WalletBalanceChart.BracketCountsMeaning | src/app/components/WalletBalanceChart.tsx:20-28 | in label order: all wallets, the positive ones, then each half-open tier bin |
| WalletBalanceChart.TierLabelsAreOther | src/app/components/WalletBalanceChart.tsx:10-24 | only the first two bins are selected by their label |
| WalletBalanceChart.BinBoundaries | src/app/components/WalletBalanceChart.tsx:13-17 | bins are lower-inclusive: 0 is in Shrimp, and 0.1, 1, 10 and 32 are in the next bin up |
| WalletBalanceChart.TierBinsPartition | src/app/components/WalletBalanceChart.tsx:13-17 | the five tier bins are disjoint, cover [0,inf) and miss negative balances |
| WalletBalanceChart.TierCountsSum | src/app/components/WalletBalanceChart.tsx:13-26 | the five tier counts add up to the number of wallets with a balance of at least 0 |
| WalletBalanceChart.NonNegativeIsAll | src/app/components/WalletBalanceChart.tsx:21-26 | with no negative balance, that number is the 'All Users' count |
| Api.ClaimLimit | src/lib/api.ts:29-34 | the claim limit is at most the pool's supply and at most `maxUsers`, and is one of the two |
| Api.ClaimCheck | src/lib/api.ts:29-34 | accepted exactly when capacity remains; the pool check comes first, and each rejection names the limit that was reached |
| Api.Incremented | src/lib/api.ts:37-39 | `rewardsClaimed` goes up by exactly one and nothing else changes |
| Api.SubmitKeepsLimit | src/lib/api.ts:29-39 | a submission keeps claims within the limit and raises the counter by at most one |
| Api.UncappedPrizeNeverRejected | src/lib/api.ts:29-34 | a prize with no `maxUsers` is always accepted, whatever `numberOfPrizes` is |
| Api.SubmitRun | src/lib/api.ts:19-42 | n submissions in a row give n results |
| Api.SubmitRunFinal | src/lib/api.ts:29-39 | after n submissions in a row the counter ends at the smaller of start + n and the limit, or at start + n without a limit |
| Api.SubmitRunAccepts | src/lib/api.ts:29-39 | in a run from a survey within its limit, attempt k is accepted exactly when there is no limit or start + k is below it |
| Api.ThreeOfFour | src/lib/api.ts:32-39 | from 0 with `maxUsers` 3: accept, accept, accept, reject, with the counter ending at 3 |
| Api.WithId | src/lib/api.ts:75 | the returned survey carries the new id |
| Api.SurveyStore.constructor | src/lib/api.ts:69-86 | the store starts empty |
| Api.SurveyStore.SubmitSurvey | src/lib/api.ts:19-42 | a missing survey is rejected with 'Survey not found'; a rejection writes nothing; an acceptance stores the incremented survey |
| Api.SurveyStore.CreateSurvey | src/lib/api.ts:69-76 | stores the survey under a new id with `rewardsClaimed` 0, and returns it with that id and its own counter |
| Api.SurveyStore.UpdateSurvey | src/lib/api.ts:78-82 | an existing survey is overwritten field for field under its id; a missing one is an error that writes nothing |
| Api.SurveyStore.DeleteSurvey | src/lib/api.ts:84-86 | the id is removed; a missing id is not an error |
| Api.FetchSurveysForUser | src/lib/api.ts:88-97 | every returned survey is an active one targeted at everyone or at the user's country |
| Api.FetchSurveysForUserIsFilter | src/lib/api.ts:93-96 | order is kept, and a survey is returned exactly when it targets 'all' or lists the country; an empty list excludes everyone |
| Dashboard.FormatRewardsLeft | src/app/admin/dashboard/page.tsx:72-84 | unlimited exactly for points without `maxUsers`; otherwise max(0, limit - claimed), where a pool counts from its supply and a prize from its `numberOfPrizes` |
| Dashboard.WithClaimed | src/app/admin/dashboard/page.tsx:72-84 | the same survey with another claim count |
| Dashboard.RewardsLeftNonIncreasing | src/app/admin/dashboard/page.tsx:78-82 | the count never grows as claims grow |
| Dashboard.Toggled | src/app/admin/dashboard/page.tsx:42 | `isActive` flips and nothing else changes |
| Dashboard.ReplaceByIdPointwise | src/app/admin/dashboard/page.tsx:44 | the map keeps the length and each position: surveys with the id are replaced, all others kept |
| Dashboard.HandleToggleActive | src/app/admin/dashboard/page.tsx:40-49 | a failed write sets the update error and keeps the list; a successful one keeps the error state |
| Dashboard.ToggleFlipsOnlyMatching | src/app/admin/dashboard/page.tsx:42-44 | after a toggle, the survey at `i` has `isActive` flipped, every survey sharing its id becomes that toggled survey, and every survey with another id is unchanged |
| Dashboard.RemoveById | src/app/admin/dashboard/page.tsx:54 | the result holds only listed surveys with another id |
| Dashboard.RemoveByIdIsFilter | src/app/admin/dashboard/page.tsx:54 | order is kept and exactly the surveys with another id remain |
| Dashboard.HandleDelete | src/app/admin/dashboard/page.tsx:51-59 | a failed delete sets the delete error; a successful one removes every survey with the id and keeps the rest in order |
| SurveyForm.WithQuestions | src/components/SurveyForm.tsx:37-81 | sets the question list and nothing else |
| SurveyForm.NewQuestion | src/components/SurveyForm.tsx:39-67 | id 'q' + n; by n mod 3: email (required), country (required), or multiple choice with [''] (not required) |
| SurveyForm.AddQuestion | src/components/SurveyForm.tsx:37-74 | appends question number n + 1 to n questions and changes nothing else |
| SurveyForm.RemoveQuestion | src/components/SurveyForm.tsx:76-81 | removes only index i and keeps the rest in order; an index out of range changes nothing |
| SurveyForm.AddThenRemoveRestores | src/components/SurveyForm.tsx:37-81 | removing the question just added restores the survey |
| SurveyForm.RemoveThenAddRepeatsId | src/components/SurveyForm.tsx:39-79 | ids come from the list length, so removing a question and then adding one repeats the last question's id |
| SurveyForm.SurveyFormState.constructor | src/components/SurveyForm.tsx:11 | the editor starts from the given survey |
| SurveyForm.SurveyFormState.HandleOptionChange | src/components/SurveyForm.tsx:83-91 | sets option j of question i (missing options count as []), appending at one past the end; the other options and questions are unchanged |
| SurveyForm.SurveyFormState.AddOption | src/components/SurveyForm.tsx:93-99 | appends '' to question i's options (missing options count as []); nothing else changes |
| SurveyForm.SurveyFormState.RemoveOption | src/components/SurveyForm.tsx:101-107 | removes only option j and keeps the rest in order; the other questions are unchanged |
| SurveyForm.ApplyRewardEdit | src/components/SurveyForm.tsx:109-114 | the variant is kept, the named field gets the value, and every other field is kept |
| SurveyForm.WithReward | src/components/SurveyForm.tsx:109-130 | sets the reward and nothing else |
| SurveyForm.HandleRewardChange | src/components/SurveyForm.tsx:109-114 | only the reward changes, by one field edit (stated with ApplyRewardEdit) |
| SurveyForm.RewardEditChangesOnlyItsField | src/components/SurveyForm.tsx:109-114 | two edits of the same field leave only the second value |
| SurveyForm.DefaultReward | src/components/SurveyForm.tsx:116-130 | points {0, null}, pool {0, 0, '', 0, maxUsers 0}, prize {0, '', 0, null} |
| SurveyForm.HandleRewardTypeChange | src/components/SurveyForm.tsx:116-130 | the reward becomes the chosen type's defaults |
| SurveyForm.RewardTypeChangeForgetsEdits | src/components/SurveyForm.tsx:116-130 | a type change discards any earlier reward edit |
| SurveyForm.PoolEffect | src/components/SurveyForm.tsx:132-138 | the effect's two `handleRewardChange` calls as one function; `PoolEffectMeaning` states what it does |
| SurveyForm.PoolEffectMeaning | src/components/SurveyForm.tsx:132-138 | after the effect a pool has `totalValue = supply * amountPerUser` and `maxUsers = supply`, nothing else changed, and a second run changes nothing |
| SurveyForm.PoolEffectFixesConsistent | src/components/SurveyForm.tsx:132-138 | the effect leaves a consistent survey alone |
| SurveyForm.HandleTargetingChange | src/components/SurveyForm.tsx:188-193 | 'all' selects everyone; anything else starts an empty country list; nothing else changes |
| SurveyForm.HandleCountrySelection | src/components/SurveyForm.tsx:195-200 | the selection becomes the country list |
| SurveyForm.CountrySelectionLastWins | src/components/SurveyForm.tsx:188-200 | after choosing countries, the last selection is the stored list |
| CreateSurvey.HandleRewardTypeChange | src/app/admin/create-survey/page.tsx:143-155 | only the chosen variant's details exist, zero or empty; `maxUsers` is 0 for a pool and null otherwise; nothing else changes |
| CreateSurvey.HandleRewardDetailsChange | src/app/admin/create-survey/page.tsx:157-181 | edits only the active variant's details; points take the number; a pool or prize with details gets the field edit `EditPool` or `EditPrize` makes; `tokenType` and `description` keep the string |
| CreateSurvey.PoolFieldEdits | src/app/admin/create-survey/page.tsx:162-174 | a numeric pool field edit sets that field and keeps the other three |
| CreateSurvey.PrizeFieldEdits | src/app/admin/create-survey/page.tsx:169-173 | a `numberOfPrizes` or `totalValue` edit sets that field to the number and keeps the other two; other names leave the prize alone |
| CreateSurvey.PoolEffect | src/app/admin/create-survey/page.tsx:120-136 | the effect as a function of the draft; `PoolEffectMeaning` states what it does |
| CreateSurvey.PoolEffectConsistent | src/app/admin/create-survey/page.tsx:120-136 | after the effect a pool with details has `totalValue = supply * amountPerUser` and `maxUsers = supply` |
| CreateSurvey.PoolEffectFrame | src/app/admin/create-survey/page.tsx:120-136 | on a pool with details the effect changes only the pool's details and `maxUsers` |
| CreateSurvey.PoolEffectKeepsConsistentPool | src/app/admin/create-survey/page.tsx:120-136 | a consistent pool's details are left as they are |
| CreateSurvey.PoolEffectFixesConsistent | src/app/admin/create-survey/page.tsx:120-136 | a consistent draft is a fixed point of the effect |
| CreateSurvey.PoolEffectMeaning | src/app/admin/create-survey/page.tsx:120-136 | after the effect `totalValue = supply * amountPerUser` and `maxUsers = supply`; only those changed; the effect is idempotent |
| CreateSurvey.AddQuestion | src/app/admin/create-survey/page.tsx:183-192 | appends a multiple-choice question with options [''], not required, with the time as its id |
| CreateSurvey.AddThenDeleteRestores | src/app/admin/create-survey/page.tsx:183-229 | `deleteQuestion` on the id just added restores the draft when that id was new |
| CreateSurvey.ReplaceAt | src/app/admin/create-survey/page.tsx:212-222 | the option list keeps its length and only the index gets the value |
| CreateSurvey.MapByIdPointwise | src/app/admin/create-survey/page.tsx:194-222 | the map keeps length and order, changing exactly the questions with the id |
| CreateSurvey.UpdateQuestions | src/app/admin/create-survey/page.tsx:194-222 | `updateQuestion`, `addOption` and `updateOption` change only matching questions and keep length and order |
| CreateSurvey.UpdateOptionKeepsLength | src/app/admin/create-survey/page.tsx:212-222 | `updateOption` keeps the number of options and changes only the index |
| CreateSurvey.DeleteById | src/app/admin/create-survey/page.tsx:227 | every remaining question comes from the list and has another id |
| CreateSurvey.DeleteByIdIsFilter | src/app/admin/create-survey/page.tsx:227 | order is kept, and exactly the questions with another id remain |
| CreateSurvey.DeleteByIdAbsent | src/app/admin/create-survey/page.tsx:227 | deleting an id no question carries changes nothing |
| CreateSurvey.DeleteQuestion | src/app/admin/create-survey/page.tsx:224-229 | removes every question with the id, keeps the rest in order, and changes nothing else |
| CreateSurvey.HandleTargetCountryOptionChange | src/app/admin/create-survey/page.tsx:231-238 | 'all' clears the countries; 'specific' keeps them |
| CreateSurvey.HandleTargetCountriesChange | src/app/admin/create-survey/page.tsx:240-245 | the selection replaces the country list |
| CreateSurvey.CountrySelectionReachesEstimate | src/app/admin/create-survey/page.tsx:110-118 | only the last country selection counts, and it is the list the estimate filters on |
| CreateSurvey.HandleBalanceTargetingChange | src/app/admin/create-survey/page.tsx:247-252 | 'all' also clears the brackets; other values keep them; the draft is untouched |
| CreateSurvey.HandleBalanceBracketsChange | src/app/admin/create-survey/page.tsx:254-256 | the selection replaces the bracket list |
| CreateSurvey.BracketSelectionReachesPayload | src/app/admin/create-survey/page.tsx:254-266 | only the last selection counts; with 'balance' it reaches both the estimate and the payload |
| CreateSurvey.SubmitPayload | src/app/admin/create-survey/page.tsx:262-266 | the page's targeting overrides the draft's; brackets are sent only with 'balance' and [] otherwise |
| CreateSurvey.HandleSubmit | src/app/admin/create-survey/page.tsx:258-293 | a successful write sends the payload and resets the page; a failed one keeps the page |
| CreateSurvey.CountCriteriaOf | src/app/admin/create-survey/page.tsx:110-118 | the estimate posts the draft's country targeting with the page's unfiltered bracket state |
| CreateSurvey.EstimateMatchesPayload | src/app/admin/create-survey/page.tsx:110-118 | the estimate and the payload see the same brackets unless brackets were picked without 'balance'; switching to 'all' makes them agree |
| WalletUtils.IsFresh | src/lib/walletUtils.ts:215 | a cache entry is fresh exactly while `now` is below its `lastUpdated` plus 300000 ms |
| WalletUtils.FreshnessBoundary | src/lib/walletUtils.ts:7 | a cache entry is fresh for strictly less than 300000 ms |
| WalletUtils.Fetched | src/lib/walletUtils.ts:169-190 | one line per token in token order; a failed read gives balance 0 |
| WalletUtils.PositiveOnly | src/lib/walletUtils.ts:196-202 | the filter never lengthens the list |
| WalletUtils.PositiveOnlyIsFilter | src/lib/walletUtils.ts:196-202 | order is kept, and exactly the positive balances remain |
| WalletUtils.PositiveOnlyOfPositive | src/lib/walletUtils.ts:196-202 | an all-positive list passes unchanged |
| WalletUtils.FetchTokenBalances | src/lib/walletUtils.ts:168-207 | at most one line per token |
| WalletUtils.FetchTokenBalancesMeaning | src/lib/walletUtils.ts:168-207 | the lines are exactly the positive reads, in token order, each with USD value 0 |
| WalletUtils.GetEthPrice | src/lib/walletUtils.ts:244-248 | the price is the feed's answer divided by 10^8 |
| WalletUtils.PriceLine | src/lib/walletUtils.ts:278-280 | the line's USD value is its balance times the price |
| WalletUtils.Priced | src/lib/walletUtils.ts:277-281 | pricing keeps the length and prices each line in place |
| WalletUtils.SumUsdPriced | src/lib/walletUtils.ts:276-281 | the USD values of the priced lines add up to each balance times the price, summed |
| WalletUtils.SumPricedFactor | src/lib/walletUtils.ts:276-281 | that sum is the price times the sum of the balances |
| WalletUtils.ResultSum | src/lib/walletUtils.ts:169-202 | what successful reads contribute is never negative |
| WalletUtils.FetchedSum | src/lib/walletUtils.ts:168-207 | the token lines' balances add up to the positive reads |
| WalletUtils.ResultSumPrefix | src/lib/walletUtils.ts:169-202 | more reads never lower the sum |
| WalletUtils.SharedContractCountsTwice | src/lib/walletUtils.ts:45-46 | ETH and WETH read the same contract, and a positive amount there is counted twice |
| WalletUtils.Degraded | src/lib/walletUtils.ts:301-304 | the catch result: total 0, no tokens, the current time |
| WalletUtils.Aggregate | src/lib/walletUtils.ts:276-294 | the refreshed balance is stamped with the current time |
| WalletUtils.Distribute | src/lib/walletUtils.ts:286-287 | the price distributes over the native balance plus the tokens |
| WalletUtils.PricedPositive | src/lib/walletUtils.ts:277-281 | priced lines of a positive list stay positive |
| WalletUtils.PricedTotal | src/lib/walletUtils.ts:276-287 | the token lines' USD values plus the native value is the price times the native plus token balances |
| WalletUtils.AggregateTotal | src/lib/walletUtils.ts:276-291 | the stored total is the price times (native balance + token balances) |
| WalletUtils.AggregateLines | src/lib/walletUtils.ts:288-292 | the ETH line comes first exactly when the native balance is positive, followed by the priced token lines |
| WalletUtils.PositiveDropsFirst | src/lib/walletUtils.ts:288-292 | from an otherwise positive list the filter drops only a non-positive first line |
| WalletUtils.PriceTokens | src/lib/walletUtils.ts:276-281 | the loop returns the priced lines and the sum of their USD values, which is the sum of balance times price and so the price times the token balances |
| WalletUtils.WalletCache.constructor | src/lib/walletUtils.ts:209-225 | the cache starts empty |
| WalletUtils.WalletCache.GetCachedBalance | src/lib/walletUtils.ts:209-220 | a hit exactly when an entry is stored and fresh, returned unchanged |
| WalletUtils.WalletCache.FetchWalletBalance | src/lib/walletUtils.ts:250-305 | no key, no address or a failed call gives the degraded result and writes nothing; a cache hit is returned unchanged; otherwise the aggregate is stored under the address and returned |
| SurveyQuestion.Without | src/components/SurveyQuestion.tsx:22 | the filter never lengthens the list and removes the value |
| SurveyQuestion.WithoutIsFilter | src/components/SurveyQuestion.tsx:22 | order and multiplicity of the other choices are kept; every copy of the value is gone |
| SurveyQuestion.WithoutAbsent | src/components/SurveyQuestion.tsx:22 | removing an absent choice changes nothing |
| SurveyQuestion.HandleMultipleChoice | src/components/SurveyQuestion.tsx:18-29 | the toggled list is both stored and reported |
| SurveyQuestion.HandleChange | src/components/SurveyQuestion.tsx:12-16 | the input's value is both stored and reported |
| SurveyQuestion.Toggle | src/components/SurveyQuestion.tsx:20-25 | the new answer lists the value exactly when the old answer was not a list holding it |
| SurveyQuestion.ToggleMembership | src/components/SurveyQuestion.tsx:20-25 | a toggle flips the value's membership and no other; a text answer becomes [value] |
| SurveyQuestion.ToggleShape | src/components/SurveyQuestion.tsx:21-23 | a present value is dropped with the rest kept in order; an absent one is appended |
| SurveyQuestion.ToggleTwiceRestores | src/components/SurveyQuestion.tsx:21-23 | checking then unchecking an unchecked box restores the answer |
| SurveyQuestion.ToggleTwiceMovesToEnd | src/components/SurveyQuestion.tsx:21-23 | unchecking then checking a checked box moves it to the end |
| SurveyQuestion.ToggleKeepsDistinct | src/components/SurveyQuestion.tsx:20-25 | toggling never creates a duplicate choice |
| CrossCheck.CriteriaFor | src/app/api/eligible-users-count/route.ts:7-15 | a count request with the given bracket settings and no country filter |
| CrossCheck.BracketCopiesAgree | src/lib/hooks/useSurveys.ts:62-79 | with 'balance' and a non-empty list, the endpoint, the hook and the GET route answer the same for every balance |
| CrossCheck.EmptyBracketsSplit | src/app/api/eligible-users-count/route.ts:37 | with 'balance' and an empty list, the endpoint counts everyone, while the hook and the GET route drop the survey |
| CrossCheck.OtherTargetingSplit | src/app/api/surveys/route.ts:46 | a value other than 'all' and 'balance': the endpoint and the hook apply the brackets, and the GET route drops the survey |
| CrossCheck.TierBoundaryConventions | src/app/components/WalletBalanceChart.tsx:13-26 | 0.1 is Shrimp for the labeller but in the chart's Crab bin; 0 is 'No Balance' for the labeller but in the chart's Shrimp bin |
| CrossCheck.TierInteriorsAgree | src/lib/utils/balanceCategories.ts:3-7 | strictly inside a tier, the labeller and the chart agree |
| CrossCheck.IdOverrideDiffers | src/app/api/surveys/route.ts:47-50 | with a stored id that differs, the hook shows the document id and the GET route the stored one |
| CrossCheck.StoredRecord | src/app/admin/create-survey/page.tsx:262-267 | the record the filter callbacks of the hook and the GET route see for a submitted payload: its targeting and its bracket list |
| CrossCheck.EstimateCountsWhoNeverSeeIt | src/app/admin/create-survey/page.tsx:110-118 | 'balance' with no bracket picked: the estimate counts every user, but the hook's and the GET route's filter callbacks drop the stored record for every balance |
| CrossCheck.EstimateMatchesListing | src/app/admin/create-survey/page.tsx:110-118 | 'balance' with brackets picked: the estimate counts a user exactly when the hook's and the GET route's filter callbacks keep the stored record |
| CrossCheck.PrizeShowsNoneLeftButAccepts | src/app/admin/dashboard/page.tsx:82 | a fully claimed prize without `maxUsers` shows 0 left yet `submitSurvey` accepts it |
| CrossCheck.RewardsLeftMatchesAcceptance | src/app/admin/dashboard/page.tsx:76-80 | for points, and for a pool without `maxUsers`, rewards are shown left exactly when a submission is accepted |
| CrossCheck.PoolCapHiddenFromDashboard | src/app/admin/dashboard/page.tsx:80 | a pool whose `maxUsers` is below its supply shows rewards left that `submitSurvey` refuses |
| Seqs.WithoutIndex | src/components/SurveyForm.tsx:79 | dropping an index in range shortens the list by one; otherwise nothing changes |
| Seqs.WithoutIndexSplice | src/components/SurveyForm.tsx:79 | filtering by index is the splice around it |
| Text.NatToString | src/app/admin/create-survey/page.tsx:185 | decimal digits only, non-empty, with no leading zero, and read back as a number the digits denote `n` |
| Text.NatToStringInjective | src/app/admin/create-survey/page.tsx:185 | distinct numbers give distinct strings, so timestamp ids of distinct times differ |

## Left out

- Firestore, the chain RPC, the price feed and React rendering are left out.
  Their results are inputs to the model: `Option` for a read that can fail,
  `bool` for a write that can fail. `Date.now()` is an argument.
- Concurrency is not modelled. Two simultaneous `submitSurvey` calls can both
  pass the check before either increments the counter. The model runs
  submissions one after another.
- Floating point is not modelled. Amounts are exact `real`s, so `parseFloat`,
  `formatUnits` and `Number(...)` are exact. `GetEthPrice` is exact division
  by 10^8.
- The 1e-18 minimum of 'non-zero' is an exact real. In the source it is a
  binary double.
- The pool `useEffect` of both forms re-runs and sets state on a new object
  every time, which loops in React. The model has one run of the effect, and
  proves that a second run changes nothing.
- The reach estimate's debounce is left out, because it is timing.
- Fetching the count is left out too. The model states what is posted
  (`CountCriteriaOf`) and what the endpoint answers.
- The form handlers for plain fields are left out. These are `handleChange`
  and `handleQuestionChange` of `SurveyForm` and `handleChange` of the
  create-survey page. They are untyped field-name writes.
- `SurveyForm.SurveyFormState.HandleOptionChange` requires
  `optionIndex <= |options|`. A larger index would leave holes in a
  JavaScript array, and the model has none. The form never passes one.
- The `SurveyForm` option handlers require a valid question index. The source
  throws a `TypeError` on a missing question.
- The `SurveyForm` option handlers assign into a question object that the
  previous state still shares. The model has no aliasing: it replaces the
  question with the edited one.
- `SurveyForm.ApplyRewardEdit` covers only the fields the form edits. A field
  name that the variant lacks adds a stray property in the source; the model
  leaves the reward as it is.
- `CreateSurvey.HandleRewardDetailsChange` has the same limit. A pool or
  prize field name the variant lacks is ignored instead of being added.
- `maxUsers` arriving as a string from an input is not modelled.
- The survey list and form start states that come from props are not
  modelled.
- The Firestore limit on the number of values in an `in` query is not
  modelled.
- `Api.SurveyStore.CreateSurvey` does not store the `createdAt` timestamp.
  The draft's `expirationDate` is carried, but nothing is proved about it.
- The following are outside the modelled core, so they are not modelled:
  `fetchSurvey`, `fetchAdminSurveys`, `fetchUserData`, `updateUserCountry`,
  `createUserIfNotExists`, `updateUserWalletBalance`, and the wallet
  detection, connection and signature plumbing of `src/lib/walletUtils.ts`
  and the auth routes.
- `formatReward` and the other display strings are left out. They are
  presentation.
- The survey store's writes are assumed to succeed. A failing `updateDoc`,
  `addDoc` or `deleteDoc` throws in `submitSurvey`, `createSurvey`,
  `updateSurvey` or `deleteSurvey`; the methods of `Api.SurveyStore` do not
  model that error path.
- The count endpoint's request body is assumed to carry every field. A
  missing `targetCountries` or `selectedBalanceBrackets` makes the source
  throw on `.length`, which its catch turns into the 500 answer; the model's
  `CountCriteria` always has both fields.
- A user's `ethBalance` in the hook comes from `parseFloat`, which can give
  NaN. The model's balances are reals, so NaN, which fails every bracket
  comparison, is not modelled.
- `WalletUtils.WalletCache.FetchWalletBalance` states its stored total
  through `Aggregate`, not as a formula in its own `ensures`. The formula is
  the conjunction of `WalletUtils.AggregateTotal` and `WalletUtils.FetchedSum`:
  total = price * (native balance + sum of the positive token reads).

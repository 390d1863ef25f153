# Fundraising store: a Dafny model of `server.js`

`server.js` is an Express API for a student fundraising app. Below the HTTP
plumbing it keeps an in-memory store of two arrays. `users` holds each
fundraiser with running aggregates (`totalRaised`, `donationCount`). `donations`
is an append-only ledger. Beside them sits a fixed catalog of reward tiers.
This project models that store and the route bodies that read or change it,
and proves what they guarantee.

Modules, following the structure of the program:

- `Ranking` is the stable sort, largest key first, that `Array.prototype.sort`
  performs with the comparator `b.totalRaised - a.totalRaised`. It comes with
  its permutation, order, stability, idempotence and projection properties.
- `Records` holds the user, public-user, donation and error records.
  - It also has `findIndex` by id.
  - It has the state invariants: user ids are `1..|users|` without repetition,
    e-mails are distinct, and donation ids are `1..|donations|`.
  - Its lemmas show that these invariants survive a reordering or a replacement.
- `Rewards` is the reward catalog and `getUserRewards`.
- `Referral` is `generateReferralCode`.
- `Views` holds the read-only routes as functions of the two arrays.
  - The routes are: the per-user ledger filter, the last-five slice, the
    donor-name join, both leaderboards (which sort a copy), per-user rewards
    and the analytics overview.
  - It also holds lemmas on how a donation or a re-sort affects the sums and
    the aggregates.
- `Store` is the class `FundraisingStore`, with `seq` fields `users` and
  `donations`, the seed data, and one method per route that changes the
  arrays.
  - Signup and donation append to the arrays.
  - GET `/api/users/:id` and GET `/api/users/:id/stats` call `calculateRank`,
    which sorts `users` in place.

How ties are broken. The comparator sorts stably, and `calculateRank` sorts the
global array in place. So users with equal totals are ordered by where they
stood in the array before the sort, which is the previous ranking once any
rank has been asked for. This is not always signup order. The model follows
the code here, not the "insertion order" a reader might expect.
`Views.TieKeepsPreviousOrder` gives an instance: a user who signed up later,
overtook an earlier user and was then caught up with stays in front.

Integers stand for money, because the model uses integer amounts.
A missing or falsy request field is written as `""` for a string and `0` for
a number, so the truthiness checks of the routes become comparisons with
those values. `parseInt` results reach the model already parsed. The one
exception is the limit of the top-N leaderboard, whose `NaN` case is `None`.

## Model

| member | source | states |
|---|---|---|
| Ranking.Map | server.js:224 | `map` keeps the length and applies the function at every position |
| Ranking.Insert | server.js:93 | inserting keeps every element and adds exactly the new one (multiset) |
| Ranking.SortDesc | server.js:93 | the sort returns a permutation of its input whose keys never increase |
| Ranking.SortDescStable | server.js:93 | for every key, the elements with that key keep their relative order from before the sort |
| Ranking.SortDescOfSorted | server.js:93 | an array that is already in order is left as it is |
| Ranking.SortDescIdempotent | server.js:93 | sorting twice gives the same array as sorting once, so a rank is reproducible |
| Ranking.SortDescPair | server.js:93 | two elements: the larger key comes first, and the first one stays first on a tie |
| Ranking.SortDescMap | server.js:223-225 | removing a field that the key does not depend on commutes with the sort |
| Ranking.SortDescKeepsDistinct | server.js:93 | sorting never makes two elements share an id or an e-mail |
| Records.IndexOfId | server.js:94 | `findIndex`: -1 exactly when no user has the id, otherwise the first position with it |
| Records.IndexOfDistinct | server.js:94 | with distinct ids, `findIndex` of a user's id is that user's position |
| Records.SortKeepsUserInvariants | server.js:93 | the in-place sort keeps ids between 1 and the number of users, and ids and e-mails distinct |
| Records.PermutationHasUser | server.js:93-94 | a reordered array finds exactly the same ids |
| Records.PermutationFindsSameUser | server.js:93-94 | with distinct ids, a reordered array finds the very same record under an id |
| Records.AppendKeepsUserInvariants | server.js:138-154 | appending the next id with an unused e-mail keeps the user invariants |
| Records.ReplaceKeepsUserInvariants | server.js:291-292 | changing a record in place without touching its id or e-mail keeps the invariants |
| Rewards.Evaluate | server.js:98-101 | one entry per tier, in catalog order, unlocked exactly when the total reaches the threshold |
| Rewards.UserRewards | server.js:97-102 | `getUserRewards` has one entry per catalog tier |
| Rewards.CountReached | server.js:100 | the number of tiers reached is at most the number of tiers |
| Rewards.CatalogAscending | server.js:78-85 | catalog thresholds ascend |
| Rewards.CatalogThresholds | server.js:79-84 | the six thresholds are 1, 500, 1000, 2500, 5000 and 10000 |
| Rewards.UnlockedArePrefix | server.js:97-102 | with ascending thresholds, exactly the first `CountReached` tiers are unlocked |
| Rewards.CatalogUnlockedArePrefix | server.js:78-102 | an unlocked catalog tier implies every earlier tier is unlocked |
| Rewards.UnlockedMonotone | server.js:100 | raising the total never locks a tier that was unlocked |
| Rewards.FiveHundredUnlocksTwo | server.js:78-102 | a total of 500 unlocks exactly the first two tiers |
| Referral.UpperChar | server.js:89 | `toUpperCase` on ASCII: a-z shift down by 32, every other character is kept |
| Referral.ToUpper | server.js:89 | upper-casing keeps the length and works character by character |
| Referral.FirstWord | server.js:89 | `split(' ')[0]` is a prefix of the name, contains no space, and is followed by a space when shorter |
| Referral.GenerateReferralCode | server.js:88-90 | the code is as long as the first word plus four and ends in "2025" |
| Referral.FirstWordOf | server.js:89 | the first word of `w + rest` is `w` when `rest` is empty or starts with a space |
| Referral.CodeOfSingleWord | server.js:88-90 | a name without a space is used whole, upper-cased, followed by "2025" |
| Referral.CodeOfFirstWord | server.js:88-90 | only the text before the first space enters the code |
| Referral.SeedCodeMatches | server.js:13-22 | the seeded code "ALEX2025" is the one the generator gives "Alex Johnson" |
| Views.ResolveIndex | server.js:200 | a `slice` index resolves to a position within the array |
| Views.DonationsOf | server.js:192 | the filter keeps exactly the ledger entries of that user, and is empty for an id no entry names |
| Views.DonationsOfAppend | server.js:288 | appending to the ledger appends to that user's filtered list and leaves every other list alone |
| Views.RecentDonations | server.js:200 | `slice(-5)` is the suffix of length `min(5, k)` of the user's list |
| Views.AllDonations | server.js:249-259 | every ledger entry, in order, is joined with the name of the first user with its user id, or "Unknown" when there is none |
| Views.Leaderboard | server.js:222-232 | every user appears exactly once without a password, totals never increase, and rank is position plus one |
| Views.LeaderboardKeepsTieOrder | server.js:223-225 | users with equal totals appear in their order in `users` |
| Views.LimitOrDefault | server.js:235 | the `10` fallback of the limit: any nonzero number is kept, while `NaN` and 0 become 10 |
| Views.TopLeaderboard | server.js:234-246 | the top list is a prefix of the full leaderboard, as long as the smaller of the limit and the number of users for a positive limit, with `slice`'s negative-end rule otherwise |
| Views.TopDefaultIsTen | server.js:235 | no number and 0 both list the top ten |
| Views.LeaderboardAgreesWithRank | server.js:222-229 | the rank a leaderboard shows equals the rank `calculateRank` computes on the same array |
| Views.LeaderboardIgnoresRankQueries | server.js:222-232 | the in-place sort of a rank query does not change the leaderboard |
| Views.TieKeepsPreviousOrder | server.js:93 | ties follow the previous ranking: a later user who overtook an earlier one and was then caught up with stays in front |
| Views.UserRewardsRoute | server.js:209-219 | 404 exactly for an unknown id, otherwise the user's rewards tier by tier |
| Views.SumTotalsAppend | server.js:308 | the sum of totals over two arrays joined is the sum of the two |
| Views.SumTotalsCons | server.js:308 | the sum of totals with a user in front adds that user's total |
| Views.SumTotalsInsert | server.js:308 | inserting a user into an array adds that user's total to the sum |
| Views.SumTotalsSort | server.js:308 | sorting does not change the sum of totals |
| Views.SumTotalsCredit | server.js:291 | crediting one user raises the sum of totals by exactly the amount |
| Views.CreditKeepsUserInvariants | server.js:291-292 | crediting a user keeps the id and e-mail invariants |
| Views.CreditSortFrame | server.js:291-293 | after a credit and a re-sort, every other user's record is still there, unchanged, and nothing else is |
| Views.DonationUsersOutcome | server.js:288-300 | after a donation and the re-sort, the credited record is found under its id, others are kept, and the sum rises by the amount |
| Views.DonationLedgerOutcome | server.js:288-292 | the ledger append changes only the donor user's filtered list, and aggregates that matched the ledger still match |
| Views.AveragePerUser | server.js:310-316 | no value for zero users, otherwise a whole number of cents within half a cent of the exact average |
| Views.AnalyticsOverview | server.js:306-317 | the overview reports the number of users, the sum of their totals, the number of ledger entries and the rounded average of the sum over the users |
| Views.OverviewAfterDonation | server.js:306-310 | a donation raises the overview's total raised by the amount and its donation count by one, and keeps the user count |
| Views.SumAmountsAppend | server.js:288 | a new ledger entry adds its amount to the ledger sum |
| Views.DonationKeepsAggregates | server.js:288-292 | a donation keeps every user's aggregates in step with the ledger |
| Views.SortKeepsAggregates | server.js:93 | reordering keeps every user's aggregates in step with the ledger |
| Views.SignupKeepsAggregates | server.js:142-154 | a new user with zero aggregates keeps the aggregates in step with the ledger |
| Store.SeedAggregatesDoNotMatch | server.js:13-76 | the seed data's aggregates disagree with its ledger (user 1 counts 42 donations but has two entries) |
| Store.FundraisingStore.constructor | server.js:13-76 | the store starts with the seeded users and donations, and they satisfy the invariants |
| Store.FundraisingStore.CalculateRank | server.js:92-95 | `users` becomes its stable sort; the rank is position plus one, 0 exactly for an unknown id, and finds the same record |
| Store.FundraisingStore.GetUser | server.js:167-182 | 404 with no change for an unknown id, otherwise the password-free record and its rank after the in-place sort |
| Store.FundraisingStore.UserStats | server.js:184-202 | 404 with no change for an unknown id, otherwise aggregates, rank after the sort, referral code and the last five of the user's donations |
| Store.FundraisingStore.Signup | server.js:130-164 | 400 for a missing field and 409 for a known e-mail, both with no change; otherwise exactly one user is appended with the next id, zero aggregates and the generated code; invariants and ledger agreement are kept |
| Store.FundraisingStore.SubmitDonation | server.js:268-303 | 400 for a falsy field and 404 for an unknown user, both with no change; otherwise one donation with the next id is appended, that user is credited and the array re-sorted |
| Store.FundraisingStore.Record | server.js:280-302 | the next donation is appended; that user's total rises by the amount and count by one; no other user changes; the sum rises by the amount; only that user's ledger list grows; the rank is computed on the new state |

Some members are plain definitions with no contract of their own, so the
table has no row for them. Each is specified by the rows of the members that
use it:

- `Views.SumTotals` is the `reduce` of server.js:308.
- `Views.Credit` is the two in-place updates of server.js:291-292.
- `Views.JsSlice` is `slice` (server.js:200, 239).
- `Views.InternName` is the `find` and fallback of server.js:251-254.
- `Store.NewUser` is the new-user literal of server.js:142-152.
- `Records.Strip` is the password removal.
- `Views.Number` is the rank-numbering `map` of server.js:226-229, 240-243.
- `Views.Standings` is the strip-then-sort pipeline of server.js:223-225, 236-238.
- `Records.HasUser` is `users.find(u => u.id === id)` tested for truthiness
  (server.js:169-171, 186-188, 211-213, 275-276).
- `Records.EmailTaken` is `users.find(u => u.email === email)` of server.js:138.

## Left out

- Express setup, CORS, static files, `app.listen`, logging, the health check
  and the error and 404 middleware are framework plumbing and I/O.
- The login route and its `fake-jwt-token-…` are not modelled, because
  authentication is a black box. For the same reason the signup answer's
  `token` and `success` fields (server.js:159-163) are not part of
  `Store.FundraisingStore.Signup`'s result, which is the password-free user.
  The 201 status code is not modelled either. Likewise POST `/api/donations`
  answers with status 201 and `success: true` (server.js:294-295); its
  `Store.Receipt` holds only the donation and the new stats. Removing the
  password is modelled only as the `PublicUser` view (`Records.Strip`).
- `parseInt` and `parseFloat` are not modelled. Ids, amounts and limits arrive
  as integers; the top-N limit alone carries `NaN` as `None`.
- Amounts are integers, so `parseFloat`'s fractional amounts and floating-point
  sums are not modelled. Negative amounts are accepted, as in the source.
- JSON bodies whose fields have other types (a number for `name`, say) are not
  modelled. `!x` is taken as `x == ""` or `x == 0`.
- Timestamps (`createdAt`, `date`) are not modelled, because they come from the
  clock.
- GET `/api/rewards` returns the constant `Rewards.Catalog` and needs no member
  of its own. GET `/api/users/:id/donations` is `Views.DonationsOf`.
- Referral.UpperChar: upper-casing covers ASCII letters only, not the rest of
  Unicode's case mapping.
- Views.AveragePerUser: computed on exact rationals, so binary floating-point
  rounding is not modelled. Zero users give `None`, where JavaScript gives
  `NaN`, which is serialised as `null`.
- Concurrency is not modelled. Each handler runs to completion with no
  suspension point, so a sequential model is faithful.
- The class invariant `Valid` does not require the aggregates to agree with
  the ledger, because the seed data breaks that. The lemmas about
  `AggregatesMatchLedger` show that every operation preserves the agreement
  where it holds.

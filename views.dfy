/**
 * The read-only routes that do not reorder `users`, as functions of the two
 * arrays: the per-user ledger filter, the last-five slice, the donor-name join,
 * the leaderboards (which sort a fresh copy), the rewards of one user and the
 * analytics overview. Also the running aggregates and how a donation or a
 * reordering affects them.
 */
module Views {
  import opened Ranking
  import opened Records
  import opened Rewards

  function Min(a: int, b: int): int { if a <= b then a else b }
  function Max(a: int, b: int): int { if a >= b then a else b }

  /** How `Array.prototype.slice` turns a possibly negative index into a position. */
  function ResolveIndex(i: int, len: nat): (k: nat)
    ensures k <= len
  {
    if i < 0 then (if len + i < 0 then 0 else len + i)
    else if i > len then len
    else i
  }

  /** `s.slice(start, end)`. */
  function JsSlice<T>(s: seq<T>, start: int, end: int): seq<T> {
    var from, to := ResolveIndex(start, |s|), ResolveIndex(end, |s|);
    if from < to then s[from..to] else []
  }

  // ---------------------------------------------------------------- donations

  /** `donations.filter(d => d.userId === userId)`. */
  function DonationsOf(donations: seq<Donation>, userId: int): (r: seq<Donation>)
    ensures |r| <= |donations|
    ensures forall d :: d in r <==> d in donations && d.userId == userId
    ensures (forall i :: 0 <= i < |donations| ==> donations[i].userId != userId) ==> r == []
  {
    if donations == [] then []
    else
      assert donations == [donations[0]] + donations[1..];
      (if donations[0].userId == userId then [donations[0]] else []) + DonationsOf(donations[1..], userId)
  }

  /** Appending to the ledger appends to the filtered view of its user and no other. */
  lemma {:induction false} DonationsOfAppend(donations: seq<Donation>, d: Donation, userId: int)
    ensures DonationsOf(donations + [d], userId)
         == DonationsOf(donations, userId) + (if d.userId == userId then [d] else [])
  {
    var whole := donations + [d];
    if donations == [] {
      assert whole == [d] && whole[1..] == [];
    } else {
      assert whole[0] == donations[0];
      assert whole[1..] == donations[1..] + [d];
      DonationsOfAppend(donations[1..], d, userId);
      var head := if donations[0].userId == userId then [donations[0]] else [];
      assert DonationsOf(whole, userId) == head + DonationsOf(whole[1..], userId);
      assert DonationsOf(donations, userId) == head + DonationsOf(donations[1..], userId);
    }
  }

  /** `userDonations.slice(-5)`: the last five entries, or all of them when fewer. */
  function RecentDonations(donations: seq<Donation>): (r: seq<Donation>)
    ensures |r| == Min(5, |donations|)
    ensures r == donations[|donations| - |r|..]
  {
    JsSlice(donations, -5, |donations|)
  }

  /** The donations list entry: the donation plus the name of the user it credits. */
  datatype DonationEntry = DonationEntry(donation: Donation, internName: string)

  /** `user ? user.name : 'Unknown'` for the first user with that id. */
  function InternName(users: seq<User>, userId: int): string {
    var k := IndexOfId(users, userId);
    if k < 0 then "Unknown" else users[k].name
  }

  /** GET /api/donations: every ledger entry, in order, joined with a user name. */
  function AllDonations(users: seq<User>, donations: seq<Donation>): (r: seq<DonationEntry>)
    ensures |r| == |donations|
    ensures forall i :: 0 <= i < |r| ==> r[i].donation == donations[i]
    ensures forall i :: 0 <= i < |r| && HasUser(users, donations[i].userId) ==>
      r[i].internName == users[IndexOfId(users, donations[i].userId)].name
    ensures forall i :: 0 <= i < |r| && !HasUser(users, donations[i].userId) ==> r[i].internName == "Unknown"
  {
    if donations == [] then []
    else [DonationEntry(donations[0], InternName(users, donations[0].userId))] + AllDonations(users, donations[1..])
  }

  // ------------------------------------------------------------- leaderboards

  /** A leaderboard row: the public view of a user and its 1-based rank. */
  datatype Ranked = Ranked(user: PublicUser, rank: int)

  /** The users without passwords, sorted by total raised, largest first. */
  function Standings(users: seq<User>): seq<PublicUser> {
    SortDesc(Map(Strip, users), ViewTotal)
  }

  /** `.map((user, index) => ({ ...user, rank: index + 1 }))`. */
  function Number(s: seq<PublicUser>): seq<Ranked> {
    seq(|s|, i requires 0 <= i < |s| => Ranked(s[i], i + 1))
  }

  /** The users listed by a leaderboard, in its order. */
  function Entries(r: seq<Ranked>): seq<PublicUser> {
    seq(|r|, i requires 0 <= i < |r| => r[i].user)
  }

  /** GET /api/leaderboard. */
  function Leaderboard(users: seq<User>): (r: seq<Ranked>)
    ensures |r| == |users|
    ensures forall i :: 0 <= i < |r| ==> r[i].rank == i + 1
    ensures forall i, j :: 0 <= i < j < |r| ==> r[i].user.totalRaised >= r[j].user.totalRaised
    ensures multiset(Entries(r)) == multiset(Map(Strip, users))
  {
    var s := Standings(users);
    assert Entries(Number(s)) == s;
    Number(s)
  }

  /** Users with equal totals keep the order they have in `users`. */
  lemma LeaderboardKeepsTieOrder(users: seq<User>, total: int)
    ensures WithKey(Entries(Leaderboard(users)), ViewTotal, total) == WithKey(Map(Strip, users), ViewTotal, total)
  {
    assert Entries(Leaderboard(users)) == Standings(users);
    SortDescStable(Map(Strip, users), ViewTotal, total);
  }

  /** `parseInt(req.params.limit) || 10`: a missing number (NaN) or 0 means 10. */
  function LimitOrDefault(limit: Option<int>): (n: int)
    ensures n != 0
    ensures limit.Some? && limit.value != 0 ==> n == limit.value
    ensures limit.None? || limit.value == 0 ==> n == 10
  {
    if limit.None? || limit.value == 0 then 10 else limit.value
  }

  /** GET /api/leaderboard/top/:limit: a prefix of the full leaderboard. */
  function TopLeaderboard(users: seq<User>, limit: Option<int>): (r: seq<Ranked>)
    ensures |r| <= |users|
    ensures r == Leaderboard(users)[..|r|]
    ensures LimitOrDefault(limit) > 0 ==> |r| == Min(LimitOrDefault(limit), |users|)
    ensures LimitOrDefault(limit) < 0 ==> |r| == Max(|users| + LimitOrDefault(limit), 0)
  {
    var s := Standings(users);
    var top := JsSlice(s, 0, LimitOrDefault(limit));
    assert top == s[..|top|];
    Number(top)
  }

  /** The default limit: no number, or 0, lists the top ten. */
  lemma TopDefaultIsTen(users: seq<User>)
    ensures TopLeaderboard(users, None) == TopLeaderboard(users, Some(0)) == TopLeaderboard(users, Some(10))
    ensures |TopLeaderboard(users, None)| == Min(10, |users|)
  {
  }

  /**
   * The rank a leaderboard shows for a user is the rank `calculateRank` computes
   * on the same array: one plus the user's position once `users` is sorted.
   */
  lemma {:induction false} LeaderboardAgreesWithRank(users: seq<User>, i: int)
    requires Distinct(users, IdOf)
    requires 0 <= i < |users|
    ensures Leaderboard(users)[i].rank == IndexOfId(SortDesc(users, UserTotal), Leaderboard(users)[i].user.id) + 1
  {
    var sorted := SortDesc(users, UserTotal);
    SortDescMap(Strip, users, UserTotal, ViewTotal);
    assert Leaderboard(users)[i].user == Strip(sorted[i]);
    SortDescKeepsDistinct(users, UserTotal, IdOf);
    IndexOfDistinct(sorted, i);
  }

  /**
   * A rank query sorts `users` in place; the leaderboard of the sorted array is the
   * same as that of the array before, so rank queries do not disturb leaderboards.
   */
  lemma LeaderboardIgnoresRankQueries(users: seq<User>)
    ensures Leaderboard(SortDesc(users, UserTotal)) == Leaderboard(users)
  {
    SortDescMap(Strip, users, UserTotal, ViewTotal);
    SortDescIdempotent(Map(Strip, users), ViewTotal);
  }

  /**
   * Ties are broken by the order `users` had before the sort, which after a rank
   * query is the previous ranking, not the order of signup: `b` signed up after `a`
   * and overtook it; once `a` draws level, `b` stays in front.
   */
  lemma TieKeepsPreviousOrder(a: User, b: User, amount: int)
    requires a.totalRaised < b.totalRaised == a.totalRaised + amount
    ensures SortDesc([a, b], UserTotal) == [b, a]
    ensures SortDesc(SortDesc([a, b], UserTotal)[1 := Credit(a, amount)], UserTotal) == [b, Credit(a, amount)]
  {
    SortDescPair(a, b, UserTotal);
    assert [b, a][1 := Credit(a, amount)] == [b, Credit(a, amount)];
    SortDescPair(b, Credit(a, amount), UserTotal);
  }

  // ------------------------------------------------------------------ rewards

  /** GET /api/users/:id/rewards. */
  function UserRewardsRoute(users: seq<User>, userId: int): (r: Result<seq<RewardStatus>>)
    ensures r.Err? <==> !HasUser(users, userId)
    ensures r.Err? ==> r.error == NotFound(UserNotFound)
    ensures r.Ok? ==> |r.value| == |Catalog| && forall i :: 0 <= i < |Catalog| ==>
      r.value[i].tier == Catalog[i] &&
      (r.value[i].unlocked <==> users[IndexOfId(users, userId)].totalRaised >= Catalog[i].threshold)
  {
    var k := IndexOfId(users, userId);
    if k < 0 then Err(NotFound(UserNotFound)) else Ok(UserRewards(users[k].totalRaised))
  }

  // ---------------------------------------------------------------- analytics

  /** `users.reduce((sum, user) => sum + user.totalRaised, 0)`. */
  function SumTotals(users: seq<User>): int {
    if users == [] then 0 else SumTotals(users[..|users| - 1]) + users[|users| - 1].totalRaised
  }

  /** The sum of the amounts of some ledger entries, in the same left-to-right way. */
  function SumAmounts(donations: seq<Donation>): int {
    if donations == [] then 0 else SumAmounts(donations[..|donations| - 1]) + donations[|donations| - 1].amount
  }

  lemma {:induction false} SumTotalsAppend(a: seq<User>, b: seq<User>)
    ensures SumTotals(a + b) == SumTotals(a) + SumTotals(b)
  {
    if b == [] {
      assert a + b == a;
    } else {
      assert (a + b)[..|a + b| - 1] == a + b[..|b| - 1];
      SumTotalsAppend(a, b[..|b| - 1]);
    }
  }

  lemma SumTotalsCons(x: User, s: seq<User>)
    ensures SumTotals([x] + s) == x.totalRaised + SumTotals(s)
  {
    SumTotalsAppend([x], s);
    assert [x][..0] == [];
  }

  lemma {:induction false} SumTotalsInsert(x: User, s: seq<User>)
    ensures SumTotals(Insert(x, s, UserTotal)) == x.totalRaised + SumTotals(s)
  {
    if s == [] || x.totalRaised >= s[0].totalRaised {
      SumTotalsCons(x, s);
    } else {
      var rest := Insert(x, s[1..], UserTotal);
      assert Insert(x, s, UserTotal) == [s[0]] + rest;
      SumTotalsInsert(x, s[1..]);
      SumTotalsCons(s[0], rest);
      SumTotalsCons(s[0], s[1..]);
      assert s == [s[0]] + s[1..];
    }
  }

  /** Sorting the users does not change what they raised in total. */
  lemma {:induction false} SumTotalsSort(users: seq<User>)
    ensures SumTotals(SortDesc(users, UserTotal)) == SumTotals(users)
  {
    if users != [] {
      var rest := SortDesc(users[1..], UserTotal);
      assert SortDesc(users, UserTotal) == Insert(users[0], rest, UserTotal);
      SumTotalsSort(users[1..]);
      SumTotalsInsert(users[0], rest);
      SumTotalsCons(users[0], users[1..]);
      assert users == [users[0]] + users[1..];
    }
  }

  /** A user after a donation of `amount`: the two in-place updates of server.js:291-292. */
  function Credit(u: User, amount: int): User {
    u.(totalRaised := u.totalRaised + amount, donationCount := u.donationCount + 1)
  }

  /** Crediting one user raises the sum of all totals by exactly the amount. */
  lemma {:induction false} SumTotalsCredit(users: seq<User>, k: int, amount: int)
    requires 0 <= k < |users|
    ensures SumTotals(users[k := Credit(users[k], amount)]) == SumTotals(users) + amount
  {
    var n := |users|;
    var credited := users[k := Credit(users[k], amount)];
    if k < n - 1 {
      assert credited[..n - 1] == users[..n - 1][k := Credit(users[k], amount)];
      SumTotalsCredit(users[..n - 1], k, amount);
    } else {
      assert credited[..n - 1] == users[..n - 1];
    }
  }

  lemma CreditKeepsUserInvariants(users: seq<User>, k: int, amount: int)
    requires UserIdsValid(users) && Distinct(users, EmailOf)
    requires 0 <= k < |users|
    ensures UserIdsValid(users[k := Credit(users[k], amount)]) && Distinct(users[k := Credit(users[k], amount)], EmailOf)
  {
    ReplaceKeepsUserInvariants(users, k, Credit(users[k], amount));
  }


  /**
   * Crediting one user and re-sorting leaves every other user's record as it was:
   * the same records, possibly at other positions.
   */
  lemma CreditSortFrame(users: seq<User>, k: int, u: User)
    requires 0 <= k < |users| && u.id == users[k].id
    ensures forall v :: v in users && v.id != u.id ==> v in SortDesc(users[k := u], UserTotal)
    ensures forall v :: v in SortDesc(users[k := u], UserTotal) && v.id != u.id ==> v in users
  {
    var updated := users[k := u];
    var sorted := SortDesc(updated, UserTotal);
    forall v | v in users && v.id != u.id ensures v in sorted {
      var j :| 0 <= j < |users| && users[j] == v;
      assert updated[j] == v;
      assert v in multiset(updated);
    }
    forall v | v in sorted && v.id != u.id ensures v in users {
      assert v in multiset(updated);
      var j :| 0 <= j < |updated| && updated[j] == v;
      assert j != k;
    }
  }

  /**
   * What a donation of `amount` to the user at position `k` does to the user array
   * once it is re-sorted: the credited record is found under its id, every other
   * record is kept, and the sum of all totals rises by the amount.
   */
  lemma DonationUsersOutcome(users: seq<User>, k: int, amount: int)
    requires Distinct(users, IdOf)
    requires 0 <= k < |users|
    ensures var after := SortDesc(users[k := Credit(users[k], amount)], UserTotal);
      && HasUser(after, users[k].id)
      && after[IndexOfId(after, users[k].id)] == Credit(users[k], amount)
      && (forall v :: v in users && v.id != users[k].id ==> v in after)
      && (forall v :: v in after && v.id != users[k].id ==> v in users)
      && SumTotals(after) == SumTotals(users) + amount
  {
    var credited := Credit(users[k], amount);
    var updated := users[k := credited];
    assert forall i :: 0 <= i < |updated| ==> IdOf(updated[i]) == IdOf(users[i]);
    SortDescKeepsDistinct(updated, UserTotal, IdOf);
    IndexOfDistinct(updated, k);
    PermutationFindsSameUser(updated, SortDesc(updated, UserTotal), credited.id);
    CreditSortFrame(users, k, credited);
    SumTotalsCredit(users, k, amount);
    SumTotalsSort(updated);
  }

  /**
   * What appending a donation for the user at position `k` does to the ledger views:
   * that user's filtered list gains the donation at its end, no other list changes,
   * and aggregates that agreed with the ledger still agree after the credit and re-sort.
   */
  lemma DonationLedgerOutcome(users: seq<User>, donations: seq<Donation>, k: int, d: Donation)
    requires Distinct(users, IdOf)
    requires 0 <= k < |users| && d.userId == users[k].id
    ensures forall id :: DonationsOf(donations + [d], id)
                      == DonationsOf(donations, id) + (if id == d.userId then [d] else [])
    ensures AggregatesMatchLedger(users, donations) ==>
      AggregatesMatchLedger(SortDesc(users[k := Credit(users[k], d.amount)], UserTotal), donations + [d])
  {
    forall id ensures DonationsOf(donations + [d], id)
                   == DonationsOf(donations, id) + (if id == d.userId then [d] else []) {
      DonationsOfAppend(donations, d, id);
    }
    if AggregatesMatchLedger(users, donations) {
      DonationKeepsAggregates(users, donations, k, d);
      SortKeepsAggregates(users[k := Credit(users[k], d.amount)], donations + [d]);
    }
  }

  datatype Overview = Overview(totalUsers: int, totalRaised: int, totalDonations: int, averagePerUser: Option<real>)

  /**
   * `Math.round(total / count * 100) / 100`, with exact rationals; no value (JSON
   * null, from NaN) when there are no users.
   */
  function AveragePerUser(total: int, count: nat): (avg: Option<real>)
    ensures avg.None? <==> count == 0
    ensures avg.Some? ==> -1.0 / 200.0 < avg.value - total as real / count as real <= 1.0 / 200.0
    ensures avg.Some? ==> (avg.value * 100.0).Floor as real == avg.value * 100.0
  {
    if count == 0 then None
    else
      var x := total as real / count as real;
      Some((x * 100.0 + 0.5).Floor as real / 100.0)
  }

  /** GET /api/analytics/overview. */
  function AnalyticsOverview(users: seq<User>, donations: seq<Donation>): (r: Overview)
    ensures r.totalUsers == |users| && r.totalRaised == SumTotals(users) && r.totalDonations == |donations|
    ensures r.averagePerUser == AveragePerUser(SumTotals(users), |users|)
  {
    var total := SumTotals(users);
    Overview(|users|, total, |donations|, AveragePerUser(total, |users|))
  }

  /**
   * A successful donation (credit the user, append to the ledger, sort for the rank)
   * raises the overview's total by the amount and its donation count by one.
   */
  lemma OverviewAfterDonation(users: seq<User>, donations: seq<Donation>, k: int, d: Donation)
    requires 0 <= k < |users|
    ensures var after := AnalyticsOverview(SortDesc(users[k := Credit(users[k], d.amount)], UserTotal), donations + [d]);
      && after.totalUsers == AnalyticsOverview(users, donations).totalUsers
      && after.totalRaised == AnalyticsOverview(users, donations).totalRaised + d.amount
      && after.totalDonations == AnalyticsOverview(users, donations).totalDonations + 1
  {
    SumTotalsCredit(users, k, d.amount);
    SumTotalsSort(users[k := Credit(users[k], d.amount)]);
  }

  // --------------------------------------------- aggregates against the ledger

  /**
   * Each user's aggregates agree with the ledger: the count of entries that credit
   * the user and the sum of their amounts. The seeded data does not satisfy this.
   */
  ghost predicate AggregatesMatchLedger(users: seq<User>, donations: seq<Donation>) {
    forall i :: 0 <= i < |users| ==>
      && users[i].donationCount == |DonationsOf(donations, users[i].id)|
      && users[i].totalRaised == SumAmounts(DonationsOf(donations, users[i].id))
  }

  lemma SumAmountsAppend(donations: seq<Donation>, d: Donation)
    ensures SumAmounts(donations + [d]) == SumAmounts(donations) + d.amount
  {
    assert (donations + [d])[..|donations|] == donations;
  }

  /** A donation keeps the aggregates in step with the ledger. */
  lemma DonationKeepsAggregates(users: seq<User>, donations: seq<Donation>, k: int, d: Donation)
    requires AggregatesMatchLedger(users, donations)
    requires Distinct(users, IdOf)
    requires 0 <= k < |users| && d.userId == users[k].id
    ensures AggregatesMatchLedger(users[k := Credit(users[k], d.amount)], donations + [d])
  {
    var credited := users[k := Credit(users[k], d.amount)];
    forall i | 0 <= i < |credited|
      ensures credited[i].donationCount == |DonationsOf(donations + [d], credited[i].id)|
      ensures credited[i].totalRaised == SumAmounts(DonationsOf(donations + [d], credited[i].id))
    {
      DonationsOfAppend(donations, d, credited[i].id);
      if i == k {
        SumAmountsAppend(DonationsOf(donations, d.userId), d);
      } else {
        assert IdOf(users[i]) != IdOf(users[k]);
        assert DonationsOf(donations, users[i].id) + [] == DonationsOf(donations, users[i].id);
      }
    }
  }

  /** Reordering the users keeps the aggregates in step with the ledger. */
  lemma SortKeepsAggregates(users: seq<User>, donations: seq<Donation>)
    requires AggregatesMatchLedger(users, donations)
    ensures AggregatesMatchLedger(SortDesc(users, UserTotal), donations)
  {
    var sorted := SortDesc(users, UserTotal);
    forall i | 0 <= i < |sorted|
      ensures sorted[i].donationCount == |DonationsOf(donations, sorted[i].id)|
      ensures sorted[i].totalRaised == SumAmounts(DonationsOf(donations, sorted[i].id))
    {
      assert sorted[i] in multiset(users);
    }
  }

  /** A new user with zero aggregates and an id no donation names keeps them in step. */
  lemma SignupKeepsAggregates(users: seq<User>, donations: seq<Donation>, u: User)
    requires AggregatesMatchLedger(users, donations)
    requires u.totalRaised == 0 && u.donationCount == 0
    requires forall i :: 0 <= i < |donations| ==> donations[i].userId != u.id
    ensures AggregatesMatchLedger(users + [u], donations)
  {
    assert DonationsOf(donations, u.id) == [];
  }
}

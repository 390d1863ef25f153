/**
 * The in-memory store of server.js (the `users` and `donations` arrays,
 * server.js:13-76) and the routes that change it: signup, the donation
 * processor, and the two user routes whose `calculateRank` sorts `users` in place.
 */
module Store {
  import opened Ranking
  import opened Records
  import opened Views
  import opened Referral

  const SeedUsers: seq<User> := [
    User(1, "Alex Johnson", "alex@email.com", "password123", "Stanford University", "ALEX2025", 5250, 42),
    User(2, "Sarah Chen", "sarah@email.com", "password123", "MIT", "SARAH2025", 4800, 38),
    User(3, "Mike Rodriguez", "mike@email.com", "password123", "UC Berkeley", "MIKE2025", 4200, 35),
    User(4, "Emma Davis", "emma@email.com", "password123", "Harvard", "EMMA2025", 3950, 31),
    User(5, "David Park", "david@email.com", "password123", "UCLA", "DAVID2025", 3600, 28)
  ]

  const SeedDonations: seq<Donation> := [
    Donation(1, 1, 150, "John Smith"),
    Donation(2, 1, 200, "Jane Doe"),
    Donation(3, 2, 175, "Bob Wilson"),
    Donation(4, 3, 300, "Lisa Brown")
  ]

  /** The seed's aggregates are not those of its ledger: user 1 counts 42 donations but has two. */
  lemma SeedAggregatesDoNotMatch()
    ensures !AggregatesMatchLedger(SeedUsers, SeedDonations)
  {
    assert DonationsOf(SeedDonations[3..], 1) == [];
    assert DonationsOf(SeedDonations[2..], 1) == [];
    assert DonationsOf(SeedDonations[1..], 1) == [SeedDonations[1]];
    assert |DonationsOf(SeedDonations, 1)| == 2;
    assert SeedUsers[0].donationCount == 42;
  }

  /** The `newStats` answer of a donation, with the donation it recorded. */
  datatype Receipt = Receipt(donation: Donation, totalRaised: int, donationCount: int, rank: int)

  /** The answer of GET /api/users/:id/stats. */
  datatype Stats = Stats(totalRaised: int, donationCount: int, rank: int, referralCode: string, recentDonations: seq<Donation>)

  /** The user signup creates: the next id, the generated referral code, zero aggregates. */
  function NewUser(id: int, name: string, email: string, password: string, school: string): User {
    User(id, name, email, password, school, GenerateReferralCode(name), 0, 0)
  }

  class FundraisingStore {
    var users: seq<User>
    var donations: seq<Donation>

    /**
     * User ids are 1..|users| without repetition, e-mails are pairwise distinct,
     * donation ids are 1..|donations| in ledger order, and every donation names a
     * user id already handed out.
     */
    ghost predicate Valid()
      reads this
    {
      && UserIdsValid(users)
      && Distinct(users, EmailOf)
      && LedgerIdsValid(donations)
      && LedgerReferencesUsers(donations, |users|)
    }

    /** The store as the server starts: the seeded users and donations. */
    constructor ()
      ensures Valid()
      ensures users == SeedUsers && donations == SeedDonations
    {
      users := SeedUsers;
      donations := SeedDonations;
    }

    /** `calculateRank(userId)`: sort `users` in place, then one plus the user's position. */
    method CalculateRank(userId: int) returns (rank: int)
      requires Valid()
      modifies this
      ensures Valid()
      ensures users == SortDesc(old(users), UserTotal) && donations == old(donations)
      ensures rank == IndexOfId(users, userId) + 1
      ensures 0 <= rank <= |users|
      ensures rank == 0 <==> !HasUser(old(users), userId)
      ensures rank > 0 ==> users[rank - 1] == old(users)[IndexOfId(old(users), userId)]
    {
      SortKeepsUserInvariants(users);
      PermutationHasUser(users, SortDesc(users, UserTotal), userId);
      if HasUser(users, userId) {
        PermutationFindsSameUser(users, SortDesc(users, UserTotal), userId);
      }
      users := SortDesc(users, UserTotal);
      rank := IndexOfId(users, userId) + 1;
    }

    /** GET /api/users/:id: the public view of the user and its rank. */
    method GetUser(userId: int) returns (r: Result<Ranked>)
      requires Valid()
      modifies this
      ensures Valid() && donations == old(donations)
      ensures r.Err? <==> !HasUser(old(users), userId)
      ensures r.Err? ==> r.error == NotFound(UserNotFound) && users == old(users)
      ensures r.Ok? ==>
        && users == SortDesc(old(users), UserTotal)
        && r.value.user == Strip(old(users)[IndexOfId(old(users), userId)])
        && HasUser(users, userId)
        && r.value.rank == IndexOfId(users, userId) + 1
        && users[r.value.rank - 1] == old(users)[IndexOfId(old(users), userId)]
    {
      var k := IndexOfId(users, userId);
      if k < 0 {
        return Err(NotFound(UserNotFound));
      }
      var view := Strip(users[k]);
      var rank := CalculateRank(userId);
      r := Ok(Ranked(view, rank));
    }

    /** GET /api/users/:id/stats: aggregates, rank, referral code and the last five donations. */
    method UserStats(userId: int) returns (r: Result<Stats>)
      requires Valid()
      modifies this
      ensures Valid() && donations == old(donations)
      ensures r.Err? <==> !HasUser(old(users), userId)
      ensures r.Err? ==> r.error == NotFound(UserNotFound) && users == old(users)
      ensures r.Ok? ==>
        var u := old(users)[IndexOfId(old(users), userId)];
        && users == SortDesc(old(users), UserTotal)
        && HasUser(users, userId)
        && r.value == Stats(u.totalRaised, u.donationCount, IndexOfId(users, userId) + 1,
                            u.referralCode, RecentDonations(DonationsOf(donations, userId)))
        && users[r.value.rank - 1] == u
    {
      var k := IndexOfId(users, userId);
      if k < 0 {
        return Err(NotFound(UserNotFound));
      }
      var user := users[k];
      var mine := DonationsOf(donations, userId);
      var rank := CalculateRank(userId);
      r := Ok(Stats(user.totalRaised, user.donationCount, rank, user.referralCode, RecentDonations(mine)));
    }

    /** POST /api/auth/signup. */
    method Signup(name: string, email: string, password: string, school: string) returns (r: Result<PublicUser>)
      requires Valid()
      modifies this
      ensures Valid() && donations == old(donations)
      ensures name == "" || email == "" || password == "" || school == "" ==>
        r == Err(BadRequest(AllFieldsRequired)) && users == old(users)
      ensures name != "" && email != "" && password != "" && school != "" && EmailTaken(old(users), email) ==>
        r == Err(Conflict(UserExists)) && users == old(users)
      ensures name != "" && email != "" && password != "" && school != "" && !EmailTaken(old(users), email) ==>
        && users == old(users) + [NewUser(|old(users)| + 1, name, email, password, school)]
        && r == Ok(Strip(users[|old(users)|]))
      ensures AggregatesMatchLedger(old(users), donations) ==> AggregatesMatchLedger(users, donations)
    {
      if name == "" || email == "" || password == "" || school == "" {
        return Err(BadRequest(AllFieldsRequired));
      }
      if EmailTaken(users, email) {
        return Err(Conflict(UserExists));
      }
      var user := NewUser(|users| + 1, name, email, password, school);
      if AggregatesMatchLedger(users, donations) {
        SignupKeepsAggregates(users, donations, user);
      }
      AppendKeepsUserInvariants(users, user);
      users := users + [user];
      assert LedgerReferencesUsers(donations, |users|);
      r := Ok(Strip(user));
    }

    /** POST /api/donations: validation, then `Record`. */
    method SubmitDonation(userId: int, amount: int, donorName: string) returns (r: Result<Receipt>)
      requires Valid()
      modifies this
      ensures Valid()
      ensures userId == 0 || amount == 0 || donorName == "" ==>
        r == Err(BadRequest(DonationFieldsRequired)) && users == old(users) && donations == old(donations)
      ensures userId != 0 && amount != 0 && donorName != "" && !HasUser(old(users), userId) ==>
        r == Err(NotFound(UserNotFound)) && users == old(users) && donations == old(donations)
      ensures userId != 0 && amount != 0 && donorName != "" && HasUser(old(users), userId) ==>
        var k := IndexOfId(old(users), userId);
        var u := Credit(old(users)[k], amount);
        && donations == old(donations) + [Donation(|old(donations)| + 1, userId, amount, donorName)]
        && users == SortDesc(old(users)[k := u], UserTotal)
        && HasUser(users, userId)
        && r == Ok(Receipt(donations[|old(donations)|], u.totalRaised, u.donationCount, IndexOfId(users, userId) + 1))
    {
      if userId == 0 || amount == 0 || donorName == "" {
        return Err(BadRequest(DonationFieldsRequired));
      }
      var k := IndexOfId(users, userId);
      if k < 0 {
        return Err(NotFound(UserNotFound));
      }
      var receipt := Record(k, amount, donorName);
      r := Ok(receipt);
    }

    /**
     * The success path of POST /api/donations for the user at position `k`: append the
     * donation, update that user's aggregates in place, then rank on the new state.
     */
    method Record(k: int, amount: int, donorName: string) returns (receipt: Receipt)
      requires Valid()
      requires 0 <= k < |users|
      modifies this
      ensures Valid()
      ensures var userId := old(users)[k].id;
        var u := Credit(old(users)[k], amount);
        && donations == old(donations) + [Donation(|old(donations)| + 1, userId, amount, donorName)]
        && users == SortDesc(old(users)[k := u], UserTotal)
        && u.totalRaised == old(users)[k].totalRaised + amount
        && u.donationCount == old(users)[k].donationCount + 1
        && HasUser(users, userId)
        && receipt == Receipt(donations[|old(donations)|], u.totalRaised, u.donationCount, IndexOfId(users, userId) + 1)
        && users[receipt.rank - 1] == u
        && (forall v :: v in old(users) && v.id != userId ==> v in users)
        && (forall v :: v in users && v.id != userId ==> v in old(users))
        && SumTotals(users) == old(SumTotals(users)) + amount
        && |DonationsOf(donations, userId)| == |DonationsOf(old(donations), userId)| + 1
        && (forall id :: id != userId ==> DonationsOf(donations, id) == DonationsOf(old(donations), id))
      ensures AggregatesMatchLedger(old(users), old(donations)) ==> AggregatesMatchLedger(users, donations)
    {
      var userId := users[k].id;
      var donation := Donation(|donations| + 1, userId, amount, donorName);
      var credited := Credit(users[k], amount);
      CreditKeepsUserInvariants(users, k, amount);
      donations := donations + [donation];
      assert LedgerIdsValid(donations);
      assert LedgerReferencesUsers(donations, |users|);
      users := users[k := credited];
      assert Valid();
      var rank := CalculateRank(userId);
      DonationUsersOutcome(old(users), k, amount);
      DonationLedgerOutcome(old(users), old(donations), k, donation);
      receipt := Receipt(donation, credited.totalRaised, credited.donationCount, rank);
    }
  }
}

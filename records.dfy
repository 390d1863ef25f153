/**
 * The records the fundraising store keeps (server.js:13-76): users with their
 * running aggregates and the donation ledger, the public view of a user that
 * carries no password, and the typed failures the routes answer with.
 * Timestamps (`createdAt`, `date`) are not part of this model.
 */
module Records {
  import opened Ranking

  datatype User = User(
    id: int,
    name: string,
    email: string,
    password: string,
    school: string,
    referralCode: string,
    totalRaised: int,
    donationCount: int)

  /** A user as the routes return it: every field except the password. */
  datatype PublicUser = PublicUser(
    id: int,
    name: string,
    email: string,
    school: string,
    referralCode: string,
    totalRaised: int,
    donationCount: int)

  datatype Donation = Donation(id: int, userId: int, amount: int, donorName: string)

  /** The three failure answers: 400, 404 and 409, each with its message. */
  datatype Error = BadRequest(message: string) | NotFound(message: string) | Conflict(message: string)

  datatype Result<T> = Ok(value: T) | Err(error: Error)

  datatype Option<T> = None | Some(value: T)

  const AllFieldsRequired := "All fields are required"
  const UserExists := "User already exists"
  const UserNotFound := "User not found"
  const DonationFieldsRequired := "userId, amount, and donorName are required"

  /** The object spread `const { password, ...user } = u`. */
  function Strip(u: User): PublicUser {
    PublicUser(u.id, u.name, u.email, u.school, u.referralCode, u.totalRaised, u.donationCount)
  }

  function IdOf(u: User): int { u.id }
  function EmailOf(u: User): string { u.email }
  function UserTotal(u: User): int { u.totalRaised }
  function ViewTotal(p: PublicUser): int { p.totalRaised }

  /**
   * `users.findIndex(u => u.id === id)`: the position of the first user with that id,
   * or -1 when there is none.
   */
  function IndexOfId(users: seq<User>, id: int): (k: int)
    ensures -1 <= k < |users|
    ensures k == -1 <==> forall i :: 0 <= i < |users| ==> users[i].id != id
    ensures k >= 0 ==> users[k].id == id && forall i :: 0 <= i < k ==> users[i].id != id
  {
    if users == [] then -1
    else if users[0].id == id then 0
    else
      var k := IndexOfId(users[1..], id);
      if k < 0 then -1 else k + 1
  }

  /** `users.find(u => u.id === id)` finds a user. */
  predicate HasUser(users: seq<User>, id: int) {
    IndexOfId(users, id) >= 0
  }

  /** `users.find(u => u.email === email)` finds a user. */
  predicate EmailTaken(users: seq<User>, email: string) {
    exists i | 0 <= i < |users| :: users[i].email == email
  }

  /** When ids are distinct, the first user with an id is the only one. */
  lemma IndexOfDistinct(users: seq<User>, j: int)
    requires Distinct(users, IdOf)
    requires 0 <= j < |users|
    ensures IndexOfId(users, users[j].id) == j
  {
    var k := IndexOfId(users, users[j].id);
    assert k <= j;
    assert forall i :: 0 <= i < j ==> IdOf(users[i]) != IdOf(users[j]);
  }

  /** User ids are exactly 1..|users|: each one lies in that range and none repeats. */
  ghost predicate UserIdsValid(users: seq<User>) {
    && (forall i :: 0 <= i < |users| ==> 1 <= users[i].id <= |users|)
    && Distinct(users, IdOf)
  }

  /** Donation ids are exactly 1..|donations|, in ledger order. */
  ghost predicate LedgerIdsValid(donations: seq<Donation>) {
    forall i :: 0 <= i < |donations| ==> donations[i].id == i + 1
  }

  /** Every donation names a user id that has been handed out. */
  ghost predicate LedgerReferencesUsers(donations: seq<Donation>, userCount: int) {
    forall i :: 0 <= i < |donations| ==> 1 <= donations[i].userId <= userCount
  }

  /** A reordering of the users keeps ids in range and ids and e-mails distinct. */
  lemma SortKeepsUserInvariants(users: seq<User>)
    requires UserIdsValid(users) && Distinct(users, EmailOf)
    ensures UserIdsValid(SortDesc(users, UserTotal)) && Distinct(SortDesc(users, UserTotal), EmailOf)
  {
    var sorted := SortDesc(users, UserTotal);
    SortDescKeepsDistinct(users, UserTotal, IdOf);
    SortDescKeepsDistinct(users, UserTotal, EmailOf);
    forall i | 0 <= i < |sorted| ensures 1 <= sorted[i].id <= |sorted| {
      assert sorted[i] in multiset(users);
    }
  }

  /** A reordering of the users finds the same ids. */
  lemma PermutationHasUser(users: seq<User>, reordered: seq<User>, id: int)
    requires multiset(reordered) == multiset(users)
    ensures HasUser(reordered, id) <==> HasUser(users, id)
  {
    if HasUser(users, id) {
      assert users[IndexOfId(users, id)] in multiset(reordered);
    }
    if HasUser(reordered, id) {
      assert reordered[IndexOfId(reordered, id)] in multiset(users);
    }
  }

  /** With distinct ids, a reordering finds the very same record for an id. */
  lemma PermutationFindsSameUser(users: seq<User>, reordered: seq<User>, id: int)
    requires multiset(reordered) == multiset(users)
    requires Distinct(reordered, IdOf)
    requires HasUser(users, id)
    ensures HasUser(reordered, id)
    ensures reordered[IndexOfId(reordered, id)] == users[IndexOfId(users, id)]
  {
    var u := users[IndexOfId(users, id)];
    assert u in multiset(reordered);
    var j :| 0 <= j < |reordered| && reordered[j] == u;
    IndexOfDistinct(reordered, j);
  }

  /** Appending a user with the next id and an unused e-mail keeps the invariants. */
  lemma AppendKeepsUserInvariants(users: seq<User>, u: User)
    requires UserIdsValid(users) && Distinct(users, EmailOf)
    requires u.id == |users| + 1 && !EmailTaken(users, u.email)
    ensures UserIdsValid(users + [u]) && Distinct(users + [u], EmailOf)
  {
    var after := users + [u];
    assert forall i :: 0 <= i < |users| ==> after[i] == users[i];
    assert after[|users|] == u;
  }

  /** Replacing one user by a record with the same id and e-mail keeps the invariants. */
  lemma ReplaceKeepsUserInvariants(users: seq<User>, k: int, u: User)
    requires UserIdsValid(users) && Distinct(users, EmailOf)
    requires 0 <= k < |users| && u.id == users[k].id && u.email == users[k].email
    ensures UserIdsValid(users[k := u]) && Distinct(users[k := u], EmailOf)
  {
    var after := users[k := u];
    assert forall i :: 0 <= i < |after| ==> IdOf(after[i]) == IdOf(users[i]) && EmailOf(after[i]) == EmailOf(users[i]);
  }
}

/**
 * The local user registry of utils/mock-auth.ts: a list of users kept under
 * one storage entry, extended only with users whose email is new, and
 * searched for the first user whose credentials match.
 */
module MockAuth {
  import opened Wrappers

  datatype UserStats = UserStats(quizzesCompleted: int, totalPoints: int, streak: int)

  /** types/user.ts */
  datatype User = User(fullName: string, email: string, password: string, stats: Option<UserStats>)

  const EmailExists: string := "Email already exists"

  /** `users.some((u) => u.email === email)` */
  predicate EmailTaken(users: seq<User>, email: string) {
    exists i :: 0 <= i < |users| && users[i].email == email
  }

  /** No two stored users share an email. */
  predicate DistinctEmails(users: seq<User>) {
    forall i, j :: 0 <= i < j < |users| ==> users[i].email != users[j].email
  }

  predicate Matches(u: User, email: string, password: string) {
    u.email == email && u.password == password
  }

  /**
   * Position of the first user matching both credentials, or `|users|` when
   * there is none: the search that `users.find` performs.
   */
  function FirstMatch(users: seq<User>, email: string, password: string): (k: nat)
    ensures k <= |users|
    ensures k < |users| ==> Matches(users[k], email, password)
    ensures forall i :: 0 <= i < k ==> !Matches(users[i], email, password)
  {
    if users == [] then 0
    else if Matches(users[0], email, password) then 0
    else 1 + FirstMatch(users[1..], email, password)
  }

  /** Appending a user with a new email keeps emails distinct. */
  lemma AppendKeepsDistinct(users: seq<User>, newUser: User)
    requires DistinctEmails(users)
    requires !EmailTaken(users, newUser.email)
    ensures DistinctEmails(users + [newUser])
  {
    var all := users + [newUser];
    forall i, j | 0 <= i < j < |all|
      ensures all[i].email != all[j].email
    {
      if j == |users| {
        assert all[i] == users[i];
      }
    }
  }

  /** The `"users"` entry of localStorage. */
  class UserRegistry {
    /** The decoded entry, or None when nothing is stored. */
    var stored: Option<seq<User>>

    /** The stored list, written only by `saveUser`, never holds an email twice. */
    ghost predicate Valid()
      reads this
    {
      DistinctEmails(stored.GetOr([]))
    }

    constructor ()
      ensures Valid() && stored == None
    {
      stored := None;
    }

    /** `getUsers`: nothing stored reads as the empty list. */
    function GetUsers(): (users: seq<User>)
      reads this
      requires Valid()
      ensures DistinctEmails(users)
      ensures stored == None ==> users == []
      ensures stored.Some? ==> users == stored.value
    {
      stored.GetOr([])
    }

    /**
     * `saveUser`: refuses a user whose email is present, leaving the entry
     * as it was; otherwise writes the list with the user appended.
     */
    method SaveUser(newUser: User) returns (result: Outcome<string>)
      requires Valid()
      modifies this
      ensures Valid()
      ensures EmailTaken(old(GetUsers()), newUser.email) ==>
        result == Fail(EmailExists) && stored == old(stored)
      ensures !EmailTaken(old(GetUsers()), newUser.email) ==>
        result == Pass && stored == Some(old(GetUsers()) + [newUser])
    {
      var users := GetUsers();
      if EmailTaken(users, newUser.email) {
        return Fail(EmailExists);
      }
      AppendKeepsDistinct(users, newUser);
      users := users + [newUser];
      stored := Some(users);
      result := Pass;
    }

    /**
     * `loginUser`: the first stored user with this email and password, or
     * None when no stored user has both.
     */
    function LoginUser(email: string, password: string): (user: Option<User>)
      reads this
      requires Valid()
      ensures user.Some? ==> user.value in GetUsers() && Matches(user.value, email, password)
      ensures user.None? <==> forall u :: u in GetUsers() ==> !Matches(u, email, password)
      ensures user.Some? ==>
        exists k :: && 0 <= k < |GetUsers()| && GetUsers()[k] == user.value
                    && (forall i :: 0 <= i < k ==> !Matches(GetUsers()[i], email, password))
    {
      var users := GetUsers();
      var k := FirstMatch(users, email, password);
      if k < |users| then Some(users[k]) else None
    }
  }
}

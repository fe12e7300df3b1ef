/**
 * The user store: records appended by signup and looked up by login. Password
 * hashing and comparison belong to a library outside this model; the store
 * only keeps the hash it is given.
 */
module Accounts {
  import opened Js

  type Hash = string

  datatype User = User(userId: UserId, username: Value, email: Value, passwordHash: Hash)

  /** `user.username === username || user.email === email`: the signup conflict test of server.js:21. */
  predicate Clashes(u: User, username: Value, email: Value) {
    StrictEq(u.username, username) || StrictEq(u.email, email)
  }

  /** `users.some(...)` with the conflict test (server.js:21). */
  predicate Taken(users: seq<User>, username: Value, email: Value) {
    exists i :: 0 <= i < |users| && Clashes(users[i], username, email)
  }

  /**
   * What signup keeps true of the store: no two users have strictly equal
   * usernames or strictly equal emails, and every user id is distinct.
   */
  predicate Registry(users: seq<User>) {
    forall i, j :: 0 <= i < j < |users| ==>
      !StrictEq(users[i].username, users[j].username) &&
      !StrictEq(users[i].email, users[j].email) &&
      users[i].userId != users[j].userId
  }

  /** `users.find(u => u.username === username)` (server.js:33), as the index of the first match. */
  function FindByUsername(users: seq<User>, username: Value): (r: Option<nat>)
    ensures r.Some? ==> r.value < |users| && StrictEq(users[r.value].username, username)
    ensures r.Some? ==> forall j :: 0 <= j < r.value ==> !StrictEq(users[j].username, username)
    ensures r.None? ==> forall j :: 0 <= j < |users| ==> !StrictEq(users[j].username, username)
  {
    if users == [] then None
    else if StrictEq(users[0].username, username) then Some(0)
    else match FindByUsername(users[1..], username)
      case None => None
      case Some(k) => Some(k + 1)
  }

  /** A signup that passed the conflict test, with a fresh id, keeps the registry. */
  lemma SignupKeepsRegistry(users: seq<User>, u: User)
    requires Registry(users)
    requires !Taken(users, u.username, u.email)
    requires forall i :: 0 <= i < |users| ==> users[i].userId != u.userId
    ensures Registry(users + [u])
  {
    var users' := users + [u];
    forall i, j | 0 <= i < j < |users'|
      ensures !StrictEq(users'[i].username, users'[j].username)
      ensures !StrictEq(users'[i].email, users'[j].email)
      ensures users'[i].userId != users'[j].userId
    {
      if j == |users| {
        assert !Clashes(users[i], u.username, u.email);
      }
    }
  }

  /**
   * In a registry, login finds exactly the user who signed up with that
   * username, provided the username is a primitive value (an object username
   * can never be found again, because `===` compares objects by reference).
   */
  lemma FindRegistered(users: seq<User>, k: nat)
    requires Registry(users)
    requires k < |users| && IsPrimitive(users[k].username)
    ensures FindByUsername(users, users[k].username) == Some(k)
  {
    assert StrictEq(users[k].username, users[k].username);
  }

  /** The user a signup appended is the one a later login with the same username finds. */
  lemma FindAfterSignup(users: seq<User>, u: User)
    requires Registry(users)
    requires !Taken(users, u.username, u.email)
    requires forall i :: 0 <= i < |users| ==> users[i].userId != u.userId
    requires IsPrimitive(u.username)
    ensures FindByUsername(users + [u], u.username) == Some(|users|)
  {
    SignupKeepsRegistry(users, u);
    FindRegistered(users + [u], |users|);
  }
}

/**
 * The durable account store (`localStorage` key `nl_users`): the records it
 * holds, the lookups `submitAuth` runs over them, and the invariant that
 * signing up keeps.
 */
module Accounts {
  import opened Common

  /** A stored account. `passHash` is the password digest; `createdAt` a timestamp. */
  datatype User = User(id: string, email: string, username: string, passHash: string, createdAt: string)

  /** The `find` predicate of `submitAuth`: the identifier is the account's email or its username. */
  predicate Matches(u: User, identifier: string) {
    u.email == identifier || u.username == identifier
  }

  /**
   * `users.find(u => u.email === identifier || u.username === identifier)`,
   * as the position of the first account that matches.
   */
  function FirstMatch(users: seq<User>, identifier: string): (r: Option<nat>)
    ensures r == None <==> forall j :: 0 <= j < |users| ==> !Matches(users[j], identifier)
    ensures r.Some? ==> r.value < |users| && Matches(users[r.value], identifier)
    ensures r.Some? ==> forall j :: 0 <= j < r.value ==> !Matches(users[j], identifier)
  {
    if users == [] then None
    else if Matches(users[0], identifier) then Some(0)
    else match FirstMatch(users[1..], identifier)
      case None => None
      case Some(k) => Some(k + 1)
  }

  /** `users.some(u => u.email === email)`. */
  predicate EmailTaken(users: seq<User>, email: string) {
    exists u :: u in users && u.email == email
  }

  /** `users.some(u => u.username === username)`. */
  predicate UsernameTaken(users: seq<User>, username: string) {
    exists u :: u in users && u.username == username
  }

  /**
   * Signup's classification: an identifier that contains "@" is an email,
   * anything else a username; the other field is left empty.
   * Returns the pair (email, username).
   */
  function Classify(identifier: string): (r: (string, string))
    ensures '@' in identifier ==> r == (identifier, "")
    ensures '@' !in identifier ==> r == ("", identifier)
    ensures identifier != [] ==> (r.0 == []) != (r.1 == [])
  {
    if '@' in identifier then (identifier, "") else ("", identifier)
  }

  /** An account as signup creates it: exactly one handle, and only an email holds "@". */
  predicate WellFormedUser(u: User) {
    && (u.email == []) != (u.username == [])
    && (u.email != [] ==> '@' in u.email)
    && '@' !in u.username
  }

  /**
   * The account store invariant: every account well formed, and no non-empty
   * email or username held by two accounts.
   */
  ghost predicate WellFormedUsers(users: seq<User>) {
    && (forall i :: 0 <= i < |users| ==> WellFormedUser(users[i]))
    && (forall i, j :: 0 <= i < j < |users| && users[i].email != [] ==> users[i].email != users[j].email)
    && (forall i, j :: 0 <= i < j < |users| && users[i].username != [] ==> users[i].username != users[j].username)
  }

  /**
   * Prepending the account a successful signup builds keeps the store well
   * formed: the identifier is non-empty and its handle is not yet taken.
   */
  lemma SignupKeepsWellFormed(users: seq<User>, identifier: string, id: string, passHash: string, now: string)
    requires WellFormedUsers(users)
    requires identifier != []
    requires Classify(identifier).0 != [] ==> !EmailTaken(users, Classify(identifier).0)
    requires Classify(identifier).1 != [] ==> !UsernameTaken(users, Classify(identifier).1)
    ensures WellFormedUsers([User(id, Classify(identifier).0, Classify(identifier).1, passHash, now)] + users)
  {
    var u := User(id, Classify(identifier).0, Classify(identifier).1, passHash, now);
    var us := [u] + users;
    forall i, j | 0 <= i < j < |us| && us[i].email != []
      ensures us[i].email != us[j].email
    {
      if i == 0 {
        assert us[j] in users;
      } else {
        assert us[i] == users[i - 1] && us[j] == users[j - 1];
      }
    }
    forall i, j | 0 <= i < j < |us| && us[i].username != []
      ensures us[i].username != us[j].username
    {
      if i == 0 {
        assert us[j] in users;
      } else {
        assert us[i] == users[i - 1] && us[j] == users[j - 1];
      }
    }
  }

  /**
   * In a well-formed store an identifier matches at most one account, so the
   * `find` of `submitAuth` returns that account whichever order the store has.
   */
  lemma MatchIsUnique(users: seq<User>, identifier: string, i: nat)
    requires WellFormedUsers(users)
    requires identifier != []
    requires i < |users| && Matches(users[i], identifier)
    ensures FirstMatch(users, identifier) == Some(i)
  {
    forall j | 0 <= j < |users| && j != i
      ensures !Matches(users[j], identifier)
    {
      assert WellFormedUser(users[i]) && WellFormedUser(users[j]);
    }
  }
}

/** The local user directory (lib/user.ts). */
module Users {
  import opened Wrappers
  import opened Sdk
  import opened Db

  /** A user as the application sees it: the row with its id. */
  datatype User = User(id: int, faroeId: string, email: string, username: string, emailVerified: bool)

  function UserFromRow(id: int, row: UserRow): User {
    User(id, row.faroeId, row.email, row.username, row.emailVerified)
  }

  /** The lookup by email address the login and forgot-password flows use;
      its implementation is not part of this model. */
  type UserLookup = string -> Option<User>

  /** `verifyUsernameInput`: 4 to 31 characters, and no whitespace the trim
      would remove. */
  predicate VerifyUsernameInput(username: string) {
    |username| > 3 && |username| < 32 && Trim(username) == username
  }

  lemma VerifyUsernameInputCharacterised(username: string)
    ensures VerifyUsernameInput(username) <==>
      && 3 < |username| < 32
      && !IsJsWhitespace(username[0]) && !IsJsWhitespace(username[|username| - 1])
  {
    if |username| > 0 {
      TrimIdentity(username);
    }
  }

  // ---------------------------------------------------------------------
  // The table after each UPDATE
  // ---------------------------------------------------------------------

  /** `UPDATE user SET email_verified = 1 WHERE id = ?`. */
  function WithEmailVerified(users: map<int, UserRow>, id: int): (r: map<int, UserRow>)
    ensures r.Keys == users.Keys
    ensures id in users ==> r[id] == users[id].(emailVerified := true)
    ensures forall other :: other in users && other != id ==> r[other] == users[other]
  {
    if id in users then users[id := users[id].(emailVerified := true)] else users
  }

  /** `UPDATE user SET email = ?, email_verified = 1 WHERE id = ?`. */
  function WithEmailAndVerified(users: map<int, UserRow>, id: int, email: string): (r: map<int, UserRow>)
    ensures r.Keys == users.Keys
    ensures id in users ==> r[id] == users[id].(email := email, emailVerified := true)
    ensures forall other :: other in users && other != id ==> r[other] == users[other]
  {
    if id in users then users[id := users[id].(email := email, emailVerified := true)] else users
  }

  /** No user disappears and no verified flag is cleared. */
  predicate VerifiedFlagsKept(before: map<int, UserRow>, after: map<int, UserRow>) {
    forall id :: id in before ==> id in after && (before[id].emailVerified ==> after[id].emailVerified)
  }

  lemma VerifiedFlagsKeptTransitive(a: map<int, UserRow>, b: map<int, UserRow>, c: map<int, UserRow>)
    requires VerifiedFlagsKept(a, b) && VerifiedFlagsKept(b, c)
    ensures VerifiedFlagsKept(a, c)
  {
  }

  /** Both UPDATEs only ever set the flag. */
  lemma UpdatesKeepVerifiedFlags(users: map<int, UserRow>, id: int, email: string)
    ensures VerifiedFlagsKept(users, WithEmailVerified(users, id))
    ensures VerifiedFlagsKept(users, WithEmailAndVerified(users, id, email))
  {
  }

  /** Setting the flag twice is setting it once. */
  lemma WithEmailVerifiedIdempotent(users: map<int, UserRow>, id: int)
    ensures WithEmailVerified(WithEmailVerified(users, id), id) == WithEmailVerified(users, id)
  {
  }

  // ---------------------------------------------------------------------
  // The operations on the table
  // ---------------------------------------------------------------------

  /** `createUser`: inserts an unverified user under the next id, or fails
      when the database refuses the insert (`inserted` is false; the table's
      constraints are not part of this model). */
  method CreateUser(db: Database, faroeId: string, email: string, username: string, inserted: bool)
    returns (r: Result<User, string>)
    requires db.Valid()
    modifies db`users, db`nextUserId
    ensures db.Valid()
    ensures r.Success? <==> inserted
    ensures r.Success? ==>
      && r.value == User(old(db.nextUserId), faroeId, email, username, false)
      && r.value.id !in old(db.users)
      && db.users == old(db.users)[r.value.id := UserRow(faroeId, email, username, false)]
    ensures r.Failure? ==> r.error == "Unexpected error" && db.users == old(db.users) && db.nextUserId == old(db.nextUserId)
  {
    if !inserted {
      return Failure("Unexpected error");
    }
    var id := db.nextUserId;
    db.users := db.users[id := UserRow(faroeId, email, username, false)];
    db.nextUserId := id + 1;
    r := Success(User(id, faroeId, email, username, false));
  }

  method UpdateUserEmailAndSetEmailAsVerified(db: Database, userId: int, email: string)
    modifies db`users
    ensures db.users == WithEmailAndVerified(old(db.users), userId, email)
  {
    if userId in db.users {
      db.users := db.users[userId := db.users[userId].(email := email, emailVerified := true)];
    }
  }

  /** `getUserFromFaroeId`: a user whose provider id matches, or `None`
      exactly when there is none. */
  method GetUserFromFaroeId(db: Database, faroeId: string) returns (user: Option<User>)
    ensures user.None? <==> forall id :: id in db.users ==> db.users[id].faroeId != faroeId
    ensures user.Some? ==>
      && user.value.id in db.users
      && user.value == UserFromRow(user.value.id, db.users[user.value.id])
      && user.value.faroeId == faroeId
  {
    if id :| id in db.users && db.users[id].faroeId == faroeId {
      user := Some(UserFromRow(id, db.users[id]));
    } else {
      user := None;
    }
  }

  method SetUserAsEmailVerified(db: Database, userId: int)
    modifies db`users
    ensures db.users == WithEmailVerified(old(db.users), userId)
  {
    if userId in db.users {
      db.users := db.users[userId := db.users[userId].(emailVerified := true)];
    }
  }
}

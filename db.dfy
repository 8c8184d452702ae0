/** The application's three tables. Each is a map from its primary key to
    the remaining columns; expiry columns hold whole seconds since the epoch,
    as the SQL statements store them. The SQL itself is replaced by map
    operations in the modules that issue it. */
module Db {
  import opened Wrappers

  /** A row of `user`; its key is the integer `id`. */
  datatype UserRow = UserRow(faroeId: string, email: string, username: string, emailVerified: bool)

  /** A row of `session`; its key is the session id. */
  datatype SessionRow = SessionRow(userId: int, expiresAt: int, faroeEmailUpdateRequestId: Option<string>)

  /** A row of `password_reset_session`; its key is the session id. */
  datatype PasswordResetSessionRow =
    PasswordResetSessionRow(faroeRequestId: string, userId: int, expiresAt: int, emailVerified: bool)

  class Database {
    var users: map<int, UserRow>
    /** The id the next `INSERT INTO user` is given. */
    var nextUserId: int
    var sessions: map<string, SessionRow>
    var passwordResetSessions: map<string, PasswordResetSessionRow>

    /** Every existing user id was handed out before `nextUserId`. */
    ghost predicate Valid()
      reads this
    {
      forall id :: id in users ==> id < nextUserId
    }

    constructor ()
      ensures Valid()
      ensures users == map[] && sessions == map[] && passwordResetSessions == map[]
      ensures nextUserId == 1
    {
      users := map[];
      nextUserId := 1;
      sessions := map[];
      passwordResetSessions := map[];
    }
  }
}

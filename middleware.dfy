/** The request middleware (src/middleware.ts): it binds the session cookie
    to the request's locals before any handler runs. */
module Middleware {
  import opened Wrappers
  import opened Encoding
  import opened Db
  import opened Users
  import opened Astro
  import opened Sessions

  /** `context.locals`: the current session and user, `None` for null. */
  class Locals {
    var session: Option<Session>
    var user: Option<User>

    constructor ()
      ensures session == None && user == None
    {
      session := None;
      user := None;
    }

    /** Both are null or neither is, and the session belongs to the user. */
    predicate Consistent()
      reads this
    {
      && (session.None? <==> user.None?)
      && (session.Some? ==> session.value.userId == user.value.id)
    }
  }

  /** `onRequest`, up to the call of the next handler. */
  method OnRequest(db: Database, cookies: Cookies, locals: Locals, sha256: Sha256, now: int)
    modifies db`sessions, cookies`outgoing, locals
    ensures locals.Consistent()
    ensures locals.session.Some? ==> locals.session.value.expiresAt > now
    ensures SESSION_COOKIE !in cookies.incoming ==>
      && locals.session == None && locals.user == None
      && db.sessions == old(db.sessions)
      && cookies.outgoing == old(cookies.outgoing)
    ensures SESSION_COOKIE in cookies.incoming ==>
      var token := cookies.incoming[SESSION_COOKIE];
      var (result, after) := ValidateSession(old(db.sessions), db.users, SessionIdOf(sha256, token), now);
      && db.sessions == after
      && (result.SessionAndUser? ==>
            && locals.session == Some(result.session) && locals.user == Some(result.user)
            && cookies.outgoing == old(cookies.outgoing)[SESSION_COOKIE := SessionTokenCookie(token, result.session.expiresAt)])
      && (result.NoSession? ==>
            && locals.session == None && locals.user == None
            && cookies.outgoing == old(cookies.outgoing)[SESSION_COOKIE := CLEARED_COOKIE])
  {
    var token := cookies.Get(SESSION_COOKIE);
    if token.None? {
      locals.user := None;
      locals.session := None;
      return;
    }
    ghost var sessionsBefore := db.sessions;
    var result := ValidateSessionToken(db, sha256, token.value, now);
    if result.SessionAndUser? {
      ValidateSessionFound(sessionsBefore, db.users, SessionIdOf(sha256, token.value), now);
      SetSessionTokenCookie(cookies, token.value, result.session.expiresAt);
      locals.session := Some(result.session);
      locals.user := Some(result.user);
    } else {
      DeleteSessionTokenCookie(cookies);
      locals.session := None;
      locals.user := None;
    }
  }
}

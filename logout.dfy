/** `POST /api/logout` (src/pages/api/logout.ts). */
module Logout {
  import opened Wrappers
  import opened Db
  import opened Astro
  import opened Sessions
  import opened Middleware

  /** Ends the current session: 401 without one; otherwise exactly that
      row is deleted, the cookie is cleared and the answer is 204. */
  method Post(db: Database, cookies: Cookies, locals: Locals) returns (status: int)
    modifies db`sessions, cookies`outgoing
    ensures locals.session.None? ==>
      && status == 401
      && db.sessions == old(db.sessions)
      && cookies.outgoing == old(cookies.outgoing)
    ensures locals.session.Some? ==>
      && status == 204
      && db.sessions == WithoutSession(old(db.sessions), locals.session.value.id)
      && cookies.outgoing == old(cookies.outgoing)[SESSION_COOKIE := CLEARED_COOKIE]
  {
    if locals.session.None? {
      return 401;
    }
    InvalidateSession(db, locals.session.value.id);
    DeleteSessionTokenCookie(cookies);
    return 204;
  }
}

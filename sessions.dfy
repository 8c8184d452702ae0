/** Ordinary sessions (lib/session.ts): a session is known to the client by
    a random token and stored under the hexadecimal SHA-256 digest of that
    token; it lives 30 days and is renewed to a fresh 30 days whenever it is
    used in its last 15. */
module Sessions {
  import opened Wrappers
  import opened Encoding
  import opened Db
  import opened Users
  import opened Astro

  const DAY_MS: int := 1000 * 60 * 60 * 24
  const SESSION_LIFETIME_MS: int := 30 * DAY_MS
  const RENEWAL_WINDOW_MS: int := 15 * DAY_MS

  const SESSION_COOKIE: string := "session"

  /** What the database reports when an INSERT reuses a primary key. */
  const DUPLICATE_KEY: string := "UNIQUE constraint failed"

  /** A session as the application sees it; `expiresAt` is in milliseconds. */
  datatype Session = Session(id: string, userId: int, expiresAt: int, faroeEmailUpdateRequestId: Option<string>)

  /** Either a live session with its user, or the pair of nulls. */
  datatype SessionValidationResult = SessionAndUser(session: Session, user: User) | NoSession

  // ---------------------------------------------------------------------
  // Identifiers, tokens and timestamps
  // ---------------------------------------------------------------------

  /** The id stored for a token: lower-case hex of SHA-256 over its UTF-8
      bytes. */
  function SessionIdOf(sha256: Sha256, token: string): string {
    EncodeHexLowerCase(sha256(Utf8Encode(token)))
  }

  /** Every id is 64 lower-case hexadecimal symbols. */
  lemma SessionIdShape(sha256: Sha256, token: string)
    ensures |SessionIdOf(sha256, token)| == 64
    ensures forall i :: 0 <= i < 64 ==> IsLowerHexChar(SessionIdOf(sha256, token)[i])
  {
  }

  /** Two tokens share an id only if their digests coincide. */
  lemma SessionIdsDistinguishDigests(sha256: Sha256, a: string, b: string)
    requires SessionIdOf(sha256, a) == SessionIdOf(sha256, b)
    ensures sha256(Utf8Encode(a)) == sha256(Utf8Encode(b))
  {
    HexInjective(sha256(Utf8Encode(a)), sha256(Utf8Encode(b)));
  }

  /** `generateSessionToken`, given the 20 bytes `crypto.getRandomValues`
      filled in: 32 symbols of the lower-case base32 alphabet. */
  function GenerateSessionToken(randomBytes: seq<byte>): (token: string)
    requires |randomBytes| == 20
    ensures |token| == 32
    ensures forall i :: 0 <= i < |token| ==> IsBase32LowerChar(token[i])
    ensures token == EncodeBase32LowerCaseNoPadding(randomBytes)
  {
    LowerCaseBase32Unchanged(randomBytes);
    ToLowerAscii(EncodeBase32LowerCaseNoPadding(randomBytes))
  }

  /** `Math.floor(ms / 1000)`, the seconds an expiry is stored as. */
  function ToStoredSeconds(ms: int): int {
    ms / 1000
  }

  /** `new Date(seconds * 1000)`, the expiry read back from a row. */
  function FromStoredSeconds(seconds: int): int {
    seconds * 1000
  }

  /** Storing an expiry rounds it down by less than a second. */
  lemma StoredExpiryRounding(ms: int)
    ensures ms - 1000 < FromStoredSeconds(ToStoredSeconds(ms)) <= ms
  {
  }

  function SessionFromRow(id: string, row: SessionRow): Session {
    Session(id, row.userId, FromStoredSeconds(row.expiresAt), row.faroeEmailUpdateRequestId)
  }

  // ---------------------------------------------------------------------
  // The table after each statement
  // ---------------------------------------------------------------------

  /** `DELETE FROM session WHERE id = ?`. */
  function WithoutSession(sessions: map<string, SessionRow>, id: string): (r: map<string, SessionRow>)
    ensures r.Keys == sessions.Keys - {id}
    ensures forall k :: k in r ==> r[k] == sessions[k]
  {
    sessions - {id}
  }

  /** `DELETE FROM session WHERE user_id = ?`. */
  function WithoutUserSessions(sessions: map<string, SessionRow>, userId: int): (r: map<string, SessionRow>)
    ensures forall k :: k in r <==> k in sessions && sessions[k].userId != userId
    ensures forall k :: k in r ==> r[k] == sessions[k]
  {
    map k | k in sessions && sessions[k].userId != userId :: sessions[k]
  }

  /** `UPDATE session SET faroe_email_update_request_id = ? WHERE id = ?`. */
  function WithEmailUpdateRequestId(sessions: map<string, SessionRow>, id: string, requestId: Option<string>)
    : (r: map<string, SessionRow>)
    ensures r.Keys == sessions.Keys
    ensures id in sessions ==> r[id] == sessions[id].(faroeEmailUpdateRequestId := requestId)
    ensures forall k :: k in sessions && k != id ==> r[k] == sessions[k]
  {
    if id in sessions then sessions[id := sessions[id].(faroeEmailUpdateRequestId := requestId)] else sessions
  }

  /** The row `createSession` inserts at time `now`. */
  function NewSessionRow(userId: int, faroeEmailUpdateRequestId: Option<string>, now: int): SessionRow {
    SessionRow(userId, ToStoredSeconds(now + SESSION_LIFETIME_MS), faroeEmailUpdateRequestId)
  }

  /** What `validateSessionToken` answers for the session id `id` at time
      `now`, and the table it leaves behind. */
  function ValidateSession(sessions: map<string, SessionRow>, users: map<int, UserRow>, id: string, now: int)
    : (SessionValidationResult, map<string, SessionRow>)
  {
    if id !in sessions || sessions[id].userId !in users then (NoSession, sessions)
    else
      var row := sessions[id];
      var session := SessionFromRow(id, row);
      var user := UserFromRow(row.userId, users[row.userId]);
      if now >= session.expiresAt then (NoSession, sessions - {id})
      else if now >= session.expiresAt - RENEWAL_WINDOW_MS then
        var renewed := now + SESSION_LIFETIME_MS;
        (SessionAndUser(session.(expiresAt := renewed), user), sessions[id := row.(expiresAt := ToStoredSeconds(renewed))])
      else (SessionAndUser(session, user), sessions)
  }

  // ---------------------------------------------------------------------
  // Properties of validation
  // ---------------------------------------------------------------------

  /** An id with no row, or whose row has no user (the lookup is an inner
      join), gives the null pair and leaves the table as it was. */
  lemma ValidateSessionUnknown(sessions: map<string, SessionRow>, users: map<int, UserRow>, id: string, now: int)
    requires id !in sessions || sessions[id].userId !in users
    ensures ValidateSession(sessions, users, id, now) == (NoSession, sessions)
  {
  }

  /** Fail-closed expiry: once `now` reaches the expiry the answer is the
      null pair, and the row is gone when the join found its user (a row
      whose user is missing is never reached by the DELETE). */
  lemma ValidateSessionFailClosed(sessions: map<string, SessionRow>, users: map<int, UserRow>, id: string, now: int)
    requires id in sessions && now >= FromStoredSeconds(sessions[id].expiresAt)
    ensures ValidateSession(sessions, users, id, now).0 == NoSession
    ensures ValidateSession(sessions, users, id, now).1 ==
      if sessions[id].userId in users then sessions - {id} else sessions
  {
  }

  /** A live answer is the row under `id`, joined to its own user, and it
      expires after `now`. */
  lemma ValidateSessionFound(sessions: map<string, SessionRow>, users: map<int, UserRow>, id: string, now: int)
    requires ValidateSession(sessions, users, id, now).0.SessionAndUser?
    ensures var r := ValidateSession(sessions, users, id, now).0;
      && id in sessions && sessions[id].userId in users
      && now < FromStoredSeconds(sessions[id].expiresAt)
      && r.session.id == id
      && r.session.userId == r.user.id == sessions[id].userId
      && r.user == UserFromRow(r.user.id, users[r.user.id])
      && r.session.faroeEmailUpdateRequestId == sessions[id].faroeEmailUpdateRequestId
      && r.session.expiresAt > now
  {
  }

  /** Sliding renewal: a live session used within its last 15 days is
      extended to 30 days from `now`; otherwise nothing changes. */
  lemma ValidateSessionRenewal(sessions: map<string, SessionRow>, users: map<int, UserRow>, id: string, now: int)
    requires id in sessions && sessions[id].userId in users
    requires now < FromStoredSeconds(sessions[id].expiresAt)
    ensures var (r, after) := ValidateSession(sessions, users, id, now);
      if now >= FromStoredSeconds(sessions[id].expiresAt) - RENEWAL_WINDOW_MS then
        && r.session.expiresAt == now + SESSION_LIFETIME_MS
        && after == sessions[id := sessions[id].(expiresAt := ToStoredSeconds(now + SESSION_LIFETIME_MS))]
      else
        && r.session.expiresAt == FromStoredSeconds(sessions[id].expiresAt)
        && after == sessions
  {
  }

  /** Validation never lengthens the table and never shortens a session:
      every row it keeps expires no earlier than before, and every row but
      `id` is untouched. */
  lemma ValidateSessionNeverShortens(sessions: map<string, SessionRow>, users: map<int, UserRow>, id: string, now: int)
    ensures var after := ValidateSession(sessions, users, id, now).1;
      && after.Keys <= sessions.Keys
      && (forall k :: k in after ==> after[k].expiresAt >= sessions[k].expiresAt)
      && (forall k :: k in after && k != id ==> after[k] == sessions[k])
  {
    var after := ValidateSession(sessions, users, id, now).1;
    if id in sessions && sessions[id].userId in users {
      var s := sessions[id].expiresAt;
      if now < s * 1000 && now >= s * 1000 - RENEWAL_WINDOW_MS {
        var renewed := now + SESSION_LIFETIME_MS;
        assert renewed >= s * 1000 + 1000;
        assert ToStoredSeconds(renewed) >= s + 1;
        assert after[id].expiresAt == ToStoredSeconds(renewed);
      }
    }
  }

  /** Validating twice at the same instant leaves the table the first
      validation left, and gives the same kind of answer; a renewed expiry
      reads back rounded down to whole seconds. */
  lemma ValidateSessionTwice(sessions: map<string, SessionRow>, users: map<int, UserRow>, id: string, now: int)
    ensures var (first, after) := ValidateSession(sessions, users, id, now);
      var (second, final) := ValidateSession(after, users, id, now);
      && final == after
      && (first.NoSession? <==> second.NoSession?)
      && (first.SessionAndUser? ==>
            && second.session == first.session.(expiresAt := second.session.expiresAt)
            && second.user == first.user
            && first.session.expiresAt - 1000 < second.session.expiresAt <= first.session.expiresAt)
  {
    var (first, after) := ValidateSession(sessions, users, id, now);
    if first.SessionAndUser? {
      var s := sessions[id].expiresAt;
      if now >= s * 1000 - RENEWAL_WINDOW_MS {
        var stored := ToStoredSeconds(now + SESSION_LIFETIME_MS);
        StoredExpiryRounding(now + SESSION_LIFETIME_MS);
        assert after[id].expiresAt == stored;
        assert now < FromStoredSeconds(stored) - RENEWAL_WINDOW_MS;
      }
    }
  }

  /** The token just given to `createSession` at `created` validates to that
      very session throughout its first 15 days, without renewal. */
  lemma CreatedSessionValidates(
    sessions: map<string, SessionRow>, users: map<int, UserRow>, id: string,
    userId: int, faroeEmailUpdateRequestId: Option<string>, created: int, now: int)
    requires userId in users
    requires created <= now && now + RENEWAL_WINDOW_MS + 1000 <= created + SESSION_LIFETIME_MS
    ensures var table := sessions[id := NewSessionRow(userId, faroeEmailUpdateRequestId, created)];
      ValidateSession(table, users, id, now) ==
        (SessionAndUser(SessionFromRow(id, table[id]), UserFromRow(userId, users[userId])), table)
  {
    StoredExpiryRounding(created + SESSION_LIFETIME_MS);
  }

  /** The same session is refused, and removed, from 30 days on. */
  lemma CreatedSessionExpires(
    sessions: map<string, SessionRow>, users: map<int, UserRow>, id: string,
    userId: int, faroeEmailUpdateRequestId: Option<string>, created: int, now: int)
    requires userId in users
    requires now >= created + SESSION_LIFETIME_MS
    ensures var table := sessions[id := NewSessionRow(userId, faroeEmailUpdateRequestId, created)];
      ValidateSession(table, users, id, now).0 == NoSession && id !in ValidateSession(table, users, id, now).1
  {
    StoredExpiryRounding(created + SESSION_LIFETIME_MS);
  }

  /** A session used in its second half is carried forward: validated again
      at any later instant less than 30 days (minus the rounding second)
      after that use, it is still live. */
  lemma RenewedSessionOutlivesOriginal(
    sessions: map<string, SessionRow>, users: map<int, UserRow>, id: string, now: int, later: int)
    requires id in sessions && sessions[id].userId in users
    requires FromStoredSeconds(sessions[id].expiresAt) - RENEWAL_WINDOW_MS <= now < FromStoredSeconds(sessions[id].expiresAt)
    requires now <= later && later + 1000 <= now + SESSION_LIFETIME_MS
    ensures ValidateSession(ValidateSession(sessions, users, id, now).1, users, id, later).0.SessionAndUser?
  {
    StoredExpiryRounding(now + SESSION_LIFETIME_MS);
  }

  /** After `invalidateUserSessions(u)` no session of `u` validates, and
      validation of them changes nothing; every other user's rows are kept. */
  lemma InvalidatedUserSessionsRejected(
    sessions: map<string, SessionRow>, users: map<int, UserRow>, userId: int, id: string, now: int)
    requires id in sessions && sessions[id].userId == userId
    ensures var table := WithoutUserSessions(sessions, userId);
      ValidateSession(table, users, id, now) == (NoSession, table)
  {
    assert id !in WithoutUserSessions(sessions, userId);
  }

  /** The email-update request id recorded on a row is what the next
      validation of that row carries: setting or clearing it changes that
      one field of the answer, and neither the kind of answer nor the user. */
  lemma ValidationSeesEmailUpdateRequestId(
    sessions: map<string, SessionRow>, users: map<int, UserRow>, id: string, requestId: Option<string>, now: int)
    ensures var before := ValidateSession(sessions, users, id, now).0;
      var after := ValidateSession(WithEmailUpdateRequestId(sessions, id, requestId), users, id, now).0;
      && (before.SessionAndUser? <==> after.SessionAndUser?)
      && (after.SessionAndUser? ==>
            && after.session == before.session.(faroeEmailUpdateRequestId := requestId)
            && after.user == before.user)
  {
  }

  // ---------------------------------------------------------------------
  // The operations
  // ---------------------------------------------------------------------

  /** `validateSessionToken`. */
  method ValidateSessionToken(db: Database, sha256: Sha256, token: string, now: int)
    returns (result: SessionValidationResult)
    modifies db`sessions
    ensures (result, db.sessions) == ValidateSession(old(db.sessions), db.users, SessionIdOf(sha256, token), now)
  {
    var sessionId := SessionIdOf(sha256, token);
    if sessionId !in db.sessions || db.sessions[sessionId].userId !in db.users {
      return NoSession;
    }
    var row := db.sessions[sessionId];
    var session := Session(sessionId, row.userId, FromStoredSeconds(row.expiresAt), row.faroeEmailUpdateRequestId);
    var user := UserFromRow(row.userId, db.users[row.userId]);
    if now >= session.expiresAt {
      db.sessions := db.sessions - {session.id};
      return NoSession;
    }
    if now >= session.expiresAt - RENEWAL_WINDOW_MS {
      session := session.(expiresAt := now + SESSION_LIFETIME_MS);
      db.sessions := db.sessions[session.id := db.sessions[session.id].(expiresAt := ToStoredSeconds(session.expiresAt))];
    }
    return SessionAndUser(session, user);
  }

  method InvalidateSession(db: Database, sessionId: string)
    modifies db`sessions
    ensures db.sessions == WithoutSession(old(db.sessions), sessionId)
  {
    db.sessions := db.sessions - {sessionId};
  }

  method InvalidateUserSessions(db: Database, userId: int)
    modifies db`sessions
    ensures db.sessions == WithoutUserSessions(old(db.sessions), userId)
  {
    db.sessions := map k | k in db.sessions && db.sessions[k].userId != userId :: db.sessions[k];
  }

  /** `createSession`: a row expiring 30 days from `now`, or the
      primary-key failure when a row with that id already exists. */
  method CreateSession(
    db: Database, sha256: Sha256, token: string, userId: int, faroeEmailUpdateRequestId: Option<string>, now: int)
    returns (r: Result<Session, string>)
    modifies db`sessions
    ensures var id := SessionIdOf(sha256, token);
      && (r.Success? <==> id !in old(db.sessions))
      && (r.Success? ==>
            && r.value == Session(id, userId, now + SESSION_LIFETIME_MS, faroeEmailUpdateRequestId)
            && db.sessions == old(db.sessions)[id := NewSessionRow(userId, faroeEmailUpdateRequestId, now)])
      && (r.Failure? ==> r.error == DUPLICATE_KEY && db.sessions == old(db.sessions))
  {
    var sessionId := SessionIdOf(sha256, token);
    var session := Session(sessionId, userId, now + SESSION_LIFETIME_MS, faroeEmailUpdateRequestId);
    if sessionId in db.sessions {
      return Failure(DUPLICATE_KEY);
    }
    db.sessions := db.sessions[sessionId := SessionRow(userId, ToStoredSeconds(session.expiresAt), faroeEmailUpdateRequestId)];
    return Success(session);
  }

  method SetSessionFaroeEmailUpdateRequestId(db: Database, sessionId: string, faroeEmailUpdateRequestId: string)
    modifies db`sessions
    ensures db.sessions == WithEmailUpdateRequestId(old(db.sessions), sessionId, Some(faroeEmailUpdateRequestId))
  {
    if sessionId in db.sessions {
      db.sessions := db.sessions[sessionId := db.sessions[sessionId].(faroeEmailUpdateRequestId := Some(faroeEmailUpdateRequestId))];
    }
  }

  method DeleteSessionFaroeEmailUpdateRequestId(db: Database, sessionId: string)
    modifies db`sessions
    ensures db.sessions == WithEmailUpdateRequestId(old(db.sessions), sessionId, None)
  {
    if sessionId in db.sessions {
      db.sessions := db.sessions[sessionId := db.sessions[sessionId].(faroeEmailUpdateRequestId := None)];
    }
  }

  /** The cookie carrying a session token until the session's expiry. */
  function SessionTokenCookie(token: string, expiresAt: int): Cookie {
    Cookie(token, ExpiresAt(expiresAt))
  }

  /** The cookie that clears the session token. */
  const CLEARED_COOKIE: Cookie := Cookie("", MaxAgeZero)

  method SetSessionTokenCookie(cookies: Cookies, token: string, expiresAt: int)
    modifies cookies`outgoing
    ensures cookies.outgoing == old(cookies.outgoing)[SESSION_COOKIE := SessionTokenCookie(token, expiresAt)]
  {
    cookies.Set(SESSION_COOKIE, SessionTokenCookie(token, expiresAt));
  }

  method DeleteSessionTokenCookie(cookies: Cookies)
    modifies cookies`outgoing
    ensures cookies.outgoing == old(cookies.outgoing)[SESSION_COOKIE := CLEARED_COOKIE]
  {
    cookies.Set(SESSION_COOKIE, CLEARED_COOKIE);
  }
}

/** Web authentication (`bot/services/web_auth.py`, `bot/storage/auth_repo.py`): login with a sliding-window lockout,
    sessions, and remember-browser tokens that are rotated each time they restore a session.

    Times are in seconds. Identifiers and secrets are drawn at random by the source; here they are inputs of the
    operations that issue them. The password check is an input too, and digests are injective. */
module WebAuth {
  import opened Common

  const SESSION_TTL: int := 8 * 3600
  const REMEMBER_TTL: int := 30 * 24 * 3600

  type Key = (string, string)

  datatype Digest = Digest(secret: string)

  datatype Session = Session(userId: string, tokenHash: Digest, expiresAt: int, revokedAt: Option<int>)

  datatype RememberToken = RememberToken(userId: string, tokenHash: Digest, expiresAt: int, revokedAt: Option<int>)

  /** A token that restored a session: the token, the session and the token it was rotated to. */
  datatype Restore = Restore(tokenId: string, sessionId: string, rotatedId: string)

  /** `users` maps a username to its user id. `restores` records every restored session, `logins` counts
      the remembered logins and `origin` gives each remember token the number of the login its chain began with; these
      three are kept for the statements only. */
  datatype AuthState = AuthState(
    users: map<string, string>,
    sessions: map<string, Session>,
    tokens: map<string, RememberToken>,
    failures: map<Key, seq<int>>,
    restores: seq<Restore>,
    origin: map<string, nat>,
    logins: nat)

  const EMPTY: AuthState := AuthState(map[], map[], map[], map[], [], map[], 0)

  /** What the password hasher answers. A plain `false` is rejected without being counted as a failure. */
  datatype PasswordCheck = Matches | AnsweredFalse | Mismatch | InvalidHash

  datatype AuthError = TooManyAttempts | InvalidCredentials | InvalidStoredHash

  /** Random draws for a new session and a new remember token. */
  datatype Draws = Draws(sessionId: string, sessionSecret: string, tokenId: string, tokenSecret: string)

  datatype Issued = Issued(userId: string, sessionCookie: string, rememberCookie: Option<string>)

  datatype Authenticated = Authenticated(userId: string, sessionId: string, newSessionCookie: Option<string>,
                                         newRememberCookie: Option<string>)

  datatype LockoutPolicy = LockoutPolicy(maxFailedAttempts: nat, window: int)

  // ---- Compound cookies -------------------------------------------------------------------------------------------

  function Compound(id: string, secret: string): string { id + "." + secret }

  function FirstDot(value: string): (r: nat)
    ensures r <= |value| && (forall i :: 0 <= i < r ==> value[i] != '.') && (r < |value| ==> value[r] == '.')
  {
    if value == "" || value[0] == '.' then 0 else 1 + FirstDot(value[1..])
  }

  /** Splits at the first dot; both parts must be non-empty. */
  function ParseCookie(value: string): Option<(string, string)> {
    var dot := FirstDot(value);
    if dot == |value| then None
    else if dot == 0 || dot + 1 == |value| then None
    else Some((value[..dot], value[dot + 1..]))
  }

  /** Parsing gives back an issued pair exactly when both parts are non-empty and the identifier has no dot; the secret
      may contain dots. */
  lemma CookieRoundTrip(id: string, secret: string)
    ensures ParseCookie(Compound(id, secret)) == Some((id, secret)) <==> id != "" && secret != "" && '.' !in id
  {
    var value := Compound(id, secret);
    assert value[..|id|] == id && value[|id| + 1..] == secret && value[|id|] == '.';
    var dot := FirstDot(value);
    if '.' !in id {
      assert forall i :: 0 <= i < |id| ==> value[i] == id[i];
      assert dot == |id|;
    } else {
      var i :| 0 <= i < |id| && id[i] == '.';
      assert value[i] == '.';
      assert dot <= i;
    }
  }

  // ---- The failure window -----------------------------------------------------------------------------------------

  function Trimmed(attempts: seq<int>, cutoff: int): seq<int> {
    if attempts != [] && attempts[0] < cutoff then Trimmed(attempts[1..], cutoff) else attempts
  }

  function FailuresOf(st: AuthState, key: Key): seq<int> {
    if key in st.failures then st.failures[key] else []
  }

  predicate LockedOut(policy: LockoutPolicy, attempts: seq<int>, now: int) {
    |Trimmed(attempts, now - policy.window)| >= policy.maxFailedAttempts
  }

  // ---- Specification of the operations ----------------------------------------------------------------------------

  function WithFailures(st: AuthState, key: Key, attempts: seq<int>): AuthState {
    st.(failures := st.failures[key := attempts])
  }

  function WithSession(st: AuthState, userId: string, draws: Draws, now: int): AuthState {
    st.(sessions := st.sessions[draws.sessionId :=
      Session(userId, Digest(draws.sessionSecret), now + SESSION_TTL, None)])
  }

  function WithToken(st: AuthState, userId: string, draws: Draws, login: nat, now: int): AuthState {
    st.(tokens := st.tokens[draws.tokenId :=
          RememberToken(userId, Digest(draws.tokenSecret), now + REMEMBER_TTL, None)],
        origin := st.origin[draws.tokenId := login])
  }

  function RevokeSession(st: AuthState, id: string, now: int): AuthState {
    if id in st.sessions then st.(sessions := st.sessions[id := st.sessions[id].(revokedAt := Some(now))]) else st
  }

  function RevokeToken(st: AuthState, id: string, now: int): AuthState {
    if id in st.tokens then st.(tokens := st.tokens[id := st.tokens[id].(revokedAt := Some(now))]) else st
  }

  function Cookies(userId: string, draws: Draws, remember: bool): Issued {
    Issued(userId, Compound(draws.sessionId, draws.sessionSecret),
           if remember then Some(Compound(draws.tokenId, draws.tokenSecret)) else None)
  }

  /** A successful login forgets the failures and issues a session and, if asked, a remember token. */
  function Accepting(st: AuthState, key: Key, userId: string, remember: bool, now: int, draws: Draws): AuthState {
    var withSession := WithSession(st.(failures := st.failures - {key}), userId, draws, now);
    if remember then WithToken(withSession, userId, draws, st.logins, now).(logins := st.logins + 1) else withSession
  }

  function LoggingIn(policy: LockoutPolicy, st: AuthState, username: string, addr: string, check: PasswordCheck,
                     remember: bool, now: int, draws: Draws): (AuthState, Result<Issued, AuthError>)
  {
    var key := (username, addr);
    var attempts := Trimmed(FailuresOf(st, key), now - policy.window);
    if |attempts| >= policy.maxFailedAttempts then (WithFailures(st, key, attempts), Err(TooManyAttempts))
    else if username !in st.users || check == Mismatch then
      (WithFailures(st, key, attempts + [now]), Err(InvalidCredentials))
    else if check == InvalidHash then (WithFailures(st, key, attempts + [now]), Err(InvalidStoredHash))
    else if check == AnsweredFalse then (WithFailures(st, key, attempts), Err(InvalidCredentials))
    else
      (Accepting(st, key, st.users[username], remember, now, draws), Ok(Cookies(st.users[username], draws, remember)))
  }

  predicate KnownUser(st: AuthState, userId: string) { exists name :: name in st.users && st.users[name] == userId }

  predicate SessionCookieValid(st: AuthState, cookie: string, now: int) {
    match ParseCookie(cookie)
    case None => false
    case Some((id, secret)) =>
      && id in st.sessions
      && var session := st.sessions[id];
      session.revokedAt.None? && now < session.expiresAt && session.tokenHash == Digest(secret)
      && KnownUser(st, session.userId)
  }

  predicate RememberCookieValid(st: AuthState, cookie: string, now: int) {
    match ParseCookie(cookie)
    case None => false
    case Some((id, secret)) =>
      && id in st.tokens
      && var token := st.tokens[id];
      token.revokedAt.None? && now < token.expiresAt && token.tokenHash == Digest(secret) && KnownUser(st, token.userId)
  }

  function OriginOf(st: AuthState, id: string): nat { if id in st.origin then st.origin[id] else 0 }

  /** A session cookie is tried first; otherwise a remember cookie restores a session and is rotated. */
  function Authenticating(st: AuthState, sessionCookie: Option<string>, rememberCookie: Option<string>,
                          now: int, later: int, draws: Draws): (AuthState, Option<Authenticated>)
  {
    if sessionCookie.Some? && SessionCookieValid(st, sessionCookie.value, now) then
      var id := ParseCookie(sessionCookie.value).value.0;
      (st, Some(Authenticated(st.sessions[id].userId, id, None, None)))
    else if rememberCookie.Some? && RememberCookieValid(st, rememberCookie.value, later) then
      var id := ParseCookie(rememberCookie.value).value.0;
      (Restoring(st, id, st.tokens[id].userId, draws, later),
       Some(Authenticated(st.tokens[id].userId, draws.sessionId, Some(Compound(draws.sessionId, draws.sessionSecret)),
                          Some(Compound(draws.tokenId, draws.tokenSecret)))))
    else (st, None)
  }

  /** The token is revoked, and a session and a token of the same chain are issued in its place. */
  function Restoring(st: AuthState, id: string, userId: string, draws: Draws, now: int): AuthState {
    var withSession := WithSession(RevokeToken(st, id, now), userId, draws, now);
    WithToken(withSession, userId, draws, OriginOf(st, id), now).(
      restores := st.restores + [Restore(id, draws.sessionId, draws.tokenId)])
  }

  /** Logging out looks only at the identifiers of the cookies. */
  function LoggingOut(st: AuthState, sessionCookie: Option<string>, rememberCookie: Option<string>,
                      now: int): AuthState {
    var st1 := if sessionCookie.Some? && ParseCookie(sessionCookie.value).Some?
               then RevokeSession(st, ParseCookie(sessionCookie.value).value.0, now) else st;
    if rememberCookie.Some? && ParseCookie(rememberCookie.value).Some?
    then RevokeToken(st1, ParseCookie(rememberCookie.value).value.0, now) else st1
  }

  function RevokingAll(st: AuthState, userId: string, now: int): AuthState {
    st.(sessions := map id | id in st.sessions ::
          if st.sessions[id].userId == userId && st.sessions[id].revokedAt.None?
          then st.sessions[id].(revokedAt := Some(now)) else st.sessions[id],
        tokens := map id | id in st.tokens ::
          if st.tokens[id].userId == userId && st.tokens[id].revokedAt.None?
          then st.tokens[id].(revokedAt := Some(now)) else st.tokens[id])
  }

  /** A known user keeps its id. */
  function SettingPassword(st: AuthState, username: string, freshId: string): AuthState {
    if username in st.users then st else st.(users := st.users[username := freshId])
  }

  // ---- The service ------------------------------------------------------------------------------------------------

  class WebAuthService {
    const policy: LockoutPolicy
    var users: map<string, string>
    var sessions: map<string, Session>
    var tokens: map<string, RememberToken>
    var failures: map<Key, seq<int>>
    ghost var restores: seq<Restore>
    ghost var origin: map<string, nat>
    ghost var logins: nat

    ghost function State(): AuthState
      reads this
    {
      AuthState(users, sessions, tokens, failures, restores, origin, logins)
    }

    constructor (policy: LockoutPolicy)
      ensures State() == EMPTY && this.policy == policy
    {
      this.policy := policy;
      users, sessions, tokens, failures, restores, origin, logins := map[], map[], map[], map[], [], map[], 0;
    }

    method SetPassword(username: string, freshId: string)
      modifies this`users
      ensures State() == SettingPassword(old(State()), username, freshId)
    {
      if username !in users {
        users := users[username := freshId];
      }
    }

    method TrimAttempts(key: Key, now: int)
      modifies this`failures
      ensures State() == WithFailures(old(State()), key, Trimmed(FailuresOf(old(State()), key), now - policy.window))
    {
      var attempts := if key in failures then failures[key] else [];
      var cutoff := now - policy.window;
      ghost var all := Trimmed(attempts, cutoff);
      while attempts != [] && attempts[0] < cutoff
        invariant Trimmed(attempts, cutoff) == all
        decreases |attempts|
      {
        attempts := attempts[1..];
      }
      failures := failures[key := attempts];
    }

    method RecordFailure(key: Key, now: int)
      modifies this`failures
      ensures State() == WithFailures(old(State()), key,
                                      Trimmed(FailuresOf(old(State()), key), now - policy.window) + [now])
    {
      TrimAttempts(key, now);
      failures := failures[key := failures[key] + [now]];
    }

    method NewSession(userId: string, draws: Draws, now: int) returns (cookie: string)
      modifies this`sessions
      ensures State() == WithSession(old(State()), userId, draws, now)
      ensures cookie == Compound(draws.sessionId, draws.sessionSecret)
    {
      var session := Session(userId, Digest(draws.sessionSecret), now + SESSION_TTL, None);
      sessions := sessions[draws.sessionId := session];
      cookie := draws.sessionId + "." + draws.sessionSecret;
    }

    method NewRememberToken(userId: string, draws: Draws, ghost login: nat, now: int) returns (cookie: string)
      modifies this`tokens, this`origin
      ensures State() == WithToken(old(State()), userId, draws, login, now)
      ensures cookie == Compound(draws.tokenId, draws.tokenSecret)
    {
      var token := RememberToken(userId, Digest(draws.tokenSecret), now + REMEMBER_TTL, None);
      tokens := tokens[draws.tokenId := token];
      origin := origin[draws.tokenId := login];
      cookie := draws.tokenId + "." + draws.tokenSecret;
    }

    method Login(username: string, addr: string, check: PasswordCheck, remember: bool, now: int, draws: Draws)
      returns (r: Result<Issued, AuthError>)
      modifies this
      ensures (State(), r) == LoggingIn(policy, old(State()), username, addr, check, remember, now, draws)
    {
      var key := (username, addr);
      ghost var st := State();
      TrimAttempts(key, now);
      if |failures[key]| >= policy.maxFailedAttempts { return Err(TooManyAttempts); }
      ghost var kept := Trimmed(FailuresOf(st, key), now - policy.window);
      TrimmedTwice(FailuresOf(st, key), now - policy.window);
      assert st.failures[key := kept][key := kept + [now]] == st.failures[key := kept + [now]];
      if username !in users {
        RecordFailure(key, now);
        return Err(InvalidCredentials);
      }
      match check {
        case AnsweredFalse => return Err(InvalidCredentials);
        case Mismatch =>
          RecordFailure(key, now);
          return Err(InvalidCredentials);
        case InvalidHash =>
          RecordFailure(key, now);
          return Err(InvalidStoredHash);
        case Matches =>
      }
      failures := failures - {key};
      assert failures == st.failures - {key};
      r := Issue(users[username], remember, now, draws);
      assert State() == Accepting(st, key, users[username], remember, now, draws);
    }

    /** The last part of `login`: a new session and, if asked, a new remember token. */
    method Issue(userId: string, remember: bool, now: int, draws: Draws) returns (r: Result<Issued, AuthError>)
      modifies this
      ensures r == Ok(Cookies(userId, draws, remember))
      ensures var withSession := WithSession(old(State()), userId, draws, now);
        State() == if remember
          then WithToken(withSession, userId, draws, withSession.logins, now).(logins := withSession.logins + 1)
                   else withSession
    {
      var sessionCookie := NewSession(userId, draws, now);
      var rememberCookie: Option<string> := None;
      if remember {
        var cookie := NewRememberToken(userId, draws, logins, now);
        logins := logins + 1;
        rememberCookie := Some(cookie);
      }
      r := Ok(Issued(userId, sessionCookie, rememberCookie));
    }

    method AuthenticateRequest(sessionCookie: Option<string>, rememberCookie: Option<string>, now: int, later: int,
                               draws: Draws)
      returns (r: Option<Authenticated>)
      modifies this
      ensures (State(), r) == Authenticating(old(State()), sessionCookie, rememberCookie, now, later, draws)
    {
      if sessionCookie.Some? {
        var session := AuthenticateSessionCookie(sessionCookie.value, now);
        if session.Some? { return session; }
      }
      if rememberCookie.None? { return None; }
      r := AuthenticateRememberCookie(rememberCookie.value, later, draws);
    }

    method AuthenticateSessionCookie(cookie: string, now: int) returns (r: Option<Authenticated>)
      ensures r == if SessionCookieValid(State(), cookie, now)
                   then var id := ParseCookie(cookie).value.0; Some(Authenticated(sessions[id].userId, id, None, None))
                   else None
    {
      var parsed := ParseCookie(cookie);
      if parsed.None? { return None; }
      var (id, secret) := parsed.value;
      if id !in sessions { return None; }
      var session := sessions[id];
      if session.revokedAt.Some? || session.expiresAt <= now { return None; }
      if session.tokenHash != Digest(secret) { return None; }
      if !(exists name :: name in users && users[name] == session.userId) { return None; }
      r := Some(Authenticated(session.userId, id, None, None));
    }

    method AuthenticateRememberCookie(cookie: string, now: int, draws: Draws) returns (r: Option<Authenticated>)
      modifies this
      ensures (State(), r) == Authenticating(old(State()), None, Some(cookie), now, now, draws)
    {
      var parsed := ParseCookie(cookie);
      if parsed.None? { return None; }
      var (id, secret) := parsed.value;
      if id !in tokens { return None; }
      var token := tokens[id];
      if token.revokedAt.Some? || token.expiresAt <= now { return None; }
      if token.tokenHash != Digest(secret) { return None; }
      if !(exists name :: name in users && users[name] == token.userId) { return None; }
      ghost var login := OriginOf(State(), id);
      tokens := tokens[id := token.(revokedAt := Some(now))];
      var newSession := NewSession(token.userId, draws, now);
      var newToken := NewRememberToken(token.userId, draws, login, now);
      restores := restores + [Restore(id, draws.sessionId, draws.tokenId)];
      r := Some(Authenticated(token.userId, draws.sessionId, Some(newSession), Some(newToken)));
    }

    method Logout(sessionCookie: Option<string>, rememberCookie: Option<string>, now: int)
      modifies this
      ensures State() == LoggingOut(old(State()), sessionCookie, rememberCookie, now)
    {
      if sessionCookie.Some? {
        var parsed := ParseCookie(sessionCookie.value);
        if parsed.Some? && parsed.value.0 in sessions {
          sessions := sessions[parsed.value.0 := sessions[parsed.value.0].(revokedAt := Some(now))];
        }
      }
      RevokeCurrentRememberToken(rememberCookie, now);
    }

    method RevokeCurrentRememberToken(rememberCookie: Option<string>, now: int)
      modifies this
      ensures State() == LoggingOut(old(State()), None, rememberCookie, now)
    {
      if rememberCookie.Some? {
        var parsed := ParseCookie(rememberCookie.value);
        if parsed.Some? && parsed.value.0 in tokens {
          tokens := tokens[parsed.value.0 := tokens[parsed.value.0].(revokedAt := Some(now))];
        }
      }
    }

    method RevokeAllAuth(userId: string, now: int)
      modifies this
      ensures State() == RevokingAll(old(State()), userId, now)
    {
      sessions := map id | id in sessions ::
        if sessions[id].userId == userId && sessions[id].revokedAt.None?
        then sessions[id].(revokedAt := Some(now)) else sessions[id];
      tokens := map id | id in tokens ::
        if tokens[id].userId == userId && tokens[id].revokedAt.None?
        then tokens[id].(revokedAt := Some(now)) else tokens[id];
    }
  }

  /** Trimming again at the same moment changes nothing. */
  lemma {:induction false} TrimmedTwice(attempts: seq<int>, cutoff: int)
    ensures Trimmed(Trimmed(attempts, cutoff), cutoff) == Trimmed(attempts, cutoff)
  {
    if attempts != [] && attempts[0] < cutoff {
      TrimmedTwice(attempts[1..], cutoff);
    }
  }
}

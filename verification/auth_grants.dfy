/** Cookies and the operations that handed them out: over whole runs, what authenticates is exactly what was granted. */
module AuthGrants {
  import opened Common
  import opened WebAuth
  import opened AuthProtocol

  /** A cookie given to a browser, whose it is, and when it was given. */
  datatype Grant = Grant(cookie: string, userId: string, at: int)

  /** The session cookie that an operation returned, if it did. */
  function SessionGrants(policy: LockoutPolicy, st: AuthState, op: Operation): seq<Grant> {
    match op
    case LoginOp(username, addr, check, remember, now, draws) =>
      (match LoggingIn(policy, st, username, addr, check, remember, now, draws).1
       case Ok(issued) => [Grant(issued.sessionCookie, issued.userId, now)]
       case Err(_) => [])
    case AuthenticateOp(sc, rc, now, later, draws) =>
      (match Authenticating(st, sc, rc, now, later, draws).1
       case Some(a) => if a.newSessionCookie.Some? then [Grant(a.newSessionCookie.value, a.userId, later)] else []
       case None => [])
    case _ => []
  }

  /** The remember cookie that an operation returned, if it did. */
  function TokenGrants(policy: LockoutPolicy, st: AuthState, op: Operation): seq<Grant> {
    match op
    case LoginOp(username, addr, check, remember, now, draws) =>
      (match LoggingIn(policy, st, username, addr, check, remember, now, draws).1
       case Ok(issued) =>
         if issued.rememberCookie.Some? then [Grant(issued.rememberCookie.value, issued.userId, now)] else []
       case Err(_) => [])
    case AuthenticateOp(sc, rc, now, later, draws) =>
      (match Authenticating(st, sc, rc, now, later, draws).1
       case Some(a) => if a.newRememberCookie.Some? then [Grant(a.newRememberCookie.value, a.userId, later)] else []
       case None => [])
    case _ => []
  }

  function RunSessionGrants(policy: LockoutPolicy, st: AuthState, ops: seq<Operation>): seq<Grant>
    decreases |ops|
  {
    if ops == [] then []
    else SessionGrants(policy, st, ops[0]) + RunSessionGrants(policy, Apply(policy, st, ops[0]), ops[1..])
  }

  function RunTokenGrants(policy: LockoutPolicy, st: AuthState, ops: seq<Operation>): seq<Grant>
    decreases |ops|
  {
    if ops == [] then []
    else TokenGrants(policy, st, ops[0]) + RunTokenGrants(policy, Apply(policy, st, ops[0]), ops[1..])
  }

  // ---- Everything stored was granted ------------------------------------------------------------------------------

  /** The grant that a stored session or token stems from; sessions live eight hours and remember tokens thirty days. */
  function SessionOrigin(id: string, s: Session): Grant {
    Grant(id + "." + s.tokenHash.secret, s.userId, s.expiresAt - 28800)
  }

  function TokenOrigin(id: string, t: RememberToken): Grant {
    Grant(id + "." + t.tokenHash.secret, t.userId, t.expiresAt - 2592000)
  }

  ghost predicate AllGranted(st: AuthState, sessions: seq<Grant>, tokens: seq<Grant>) {
    && (forall id :: id in st.sessions ==> SessionOrigin(id, st.sessions[id]) in sessions)
    && (forall id :: id in st.tokens ==> TokenOrigin(id, st.tokens[id]) in tokens)
  }

  lemma LoginGrants(policy: LockoutPolicy, st: AuthState, op: Operation, id: string)
    requires op.LoginOp?
    ensures var after := Apply(policy, st, op);
      && (id in after.sessions ==> (id in st.sessions && after.sessions[id] == st.sessions[id])
                                   || SessionOrigin(id, after.sessions[id]) in SessionGrants(policy, st, op))
      && (id in after.tokens ==> (id in st.tokens && after.tokens[id] == st.tokens[id])
                                 || TokenOrigin(id, after.tokens[id]) in TokenGrants(policy, st, op))
  {
    var (after, r) := LoggingIn(policy, st, op.username, op.addr, op.check, op.remember, op.now, op.draws);
    if r.Ok? {
      assert SessionOrigin(op.draws.sessionId, after.sessions[op.draws.sessionId])
          == Grant(r.value.sessionCookie, r.value.userId, op.now);
      if op.remember {
        assert TokenOrigin(op.draws.tokenId, after.tokens[op.draws.tokenId])
            == Grant(r.value.rememberCookie.value, r.value.userId, op.now);
      }
    }
  }

  lemma AuthenticateGrants(policy: LockoutPolicy, st: AuthState, op: Operation, id: string)
    requires op.AuthenticateOp?
    ensures var after := Apply(policy, st, op);
      && (id in after.sessions ==> (id in st.sessions && after.sessions[id] == st.sessions[id])
                                   || SessionOrigin(id, after.sessions[id]) in SessionGrants(policy, st, op))
      && (id in after.tokens ==> (id in st.tokens && SameToken(st.tokens[id], after.tokens[id]))
                                 || TokenOrigin(id, after.tokens[id]) in TokenGrants(policy, st, op))
  {
    var (after, r) := Authenticating(st, op.sessionCookie, op.rememberCookie, op.now, op.later, op.draws);
    if r.Some? && r.value.newSessionCookie.Some? {
      assert SessionOrigin(op.draws.sessionId, after.sessions[op.draws.sessionId])
          == Grant(r.value.newSessionCookie.value, r.value.userId, op.later);
      assert TokenOrigin(op.draws.tokenId, after.tokens[op.draws.tokenId])
          == Grant(r.value.newRememberCookie.value, r.value.userId, op.later);
    }
  }

  lemma StepGrants(policy: LockoutPolicy, st: AuthState, op: Operation, id: string)
    ensures var after := Apply(policy, st, op);
      && (id in after.sessions ==> (id in st.sessions && SameSession(st.sessions[id], after.sessions[id]))
                                   || SessionOrigin(id, after.sessions[id]) in SessionGrants(policy, st, op))
      && (id in after.tokens ==> (id in st.tokens && SameToken(st.tokens[id], after.tokens[id]))
                                 || TokenOrigin(id, after.tokens[id]) in TokenGrants(policy, st, op))
  {
    match op
    case LoginOp(_, _, _, _, _, _) => LoginGrants(policy, st, op, id);
    case AuthenticateOp(_, _, _, _, _) => AuthenticateGrants(policy, st, op, id);
    case SetPasswordOp(_, _) =>
    case LogoutOp(sc, rc, now) => LogoutGrantsNothing(st, sc, rc, now, id);
    case RevokeRememberOp(rc, now) => LogoutGrantsNothing(st, None, rc, now, id);
    case RevokeAllOp(userId, now) => RevokeAllGrantsNothing(st, userId, now, id);
  }

  lemma LogoutGrantsNothing(st: AuthState, sc: Option<string>, rc: Option<string>, now: int, id: string)
    ensures var after := LoggingOut(st, sc, rc, now);
      && (id in after.sessions ==> id in st.sessions && SameSession(st.sessions[id], after.sessions[id]))
      && (id in after.tokens ==> id in st.tokens && SameToken(st.tokens[id], after.tokens[id]))
  {
    SessionLogoutGrantsNothing(st, sc, now, id);
    TokenLogoutGrantsNothing(LoggingOut(st, sc, None, now), rc, now, id);
  }

  lemma SessionLogoutGrantsNothing(st: AuthState, sc: Option<string>, now: int, id: string)
    ensures var after := LoggingOut(st, sc, None, now);
      && (id in after.sessions ==> id in st.sessions && SameSession(st.sessions[id], after.sessions[id]))
      && after.tokens == st.tokens
  {
  }

  lemma TokenLogoutGrantsNothing(st: AuthState, rc: Option<string>, now: int, id: string)
    ensures var after := LoggingOut(st, None, rc, now);
      && after.sessions == st.sessions
      && (id in after.tokens ==> id in st.tokens && SameToken(st.tokens[id], after.tokens[id]))
  {
  }

  lemma RevokeAllGrantsNothing(st: AuthState, userId: string, now: int, id: string)
    ensures var after := RevokingAll(st, userId, now);
      && (id in after.sessions ==> id in st.sessions && SameSession(st.sessions[id], after.sessions[id]))
      && (id in after.tokens ==> id in st.tokens && SameToken(st.tokens[id], after.tokens[id]))
  {
  }

  lemma {:induction false} RunGrants(policy: LockoutPolicy, st: AuthState, sessions: seq<Grant>, tokens: seq<Grant>,
                                     ops: seq<Operation>)
    requires AllGranted(st, sessions, tokens)
    ensures AllGranted(Run(policy, st, ops), sessions + RunSessionGrants(policy, st, ops),
                       tokens + RunTokenGrants(policy, st, ops))
    decreases |ops|
  {
    if ops == [] {
      assert sessions + [] == sessions && tokens + [] == tokens;
    } else {
      var after := Apply(policy, st, ops[0]);
      var s, t := SessionGrants(policy, st, ops[0]), TokenGrants(policy, st, ops[0]);
      forall id | id in after.sessions ensures SessionOrigin(id, after.sessions[id]) in sessions + s {
        StepGrants(policy, st, ops[0], id);
        assert id in st.sessions ==> SessionOrigin(id, st.sessions[id]) in sessions;
      }
      forall id | id in after.tokens ensures TokenOrigin(id, after.tokens[id]) in tokens + t {
        StepGrants(policy, st, ops[0], id);
        assert id in st.tokens ==> TokenOrigin(id, st.tokens[id]) in tokens;
      }
      RunGrants(policy, after, sessions + s, tokens + t, ops[1..]);
      Regroup(sessions, s, RunSessionGrants(policy, after, ops[1..]));
      Regroup(tokens, t, RunTokenGrants(policy, after, ops[1..]));
    }
  }

  lemma Regroup(a: seq<Grant>, b: seq<Grant>, c: seq<Grant>)
    ensures a + b + c == a + (b + c)
  {
  }

  // ---- What authenticates -----------------------------------------------------------------------------------------

  lemma ParsedCookie(cookie: string)
    ensures ParseCookie(cookie).Some? ==>
      cookie == ParseCookie(cookie).value.0 + "." + ParseCookie(cookie).value.1
  {
    var dot := FirstDot(cookie);
    if dot < |cookie| { assert cookie == cookie[..dot] + [cookie[dot]] + cookie[dot + 1..]; }
  }

  /** A grant of this cookie to this user that is not too old. */
  predicate Current(g: Grant, cookie: Option<string>, userId: string, now: int, lifetime: int) {
    cookie == Some(g.cookie) && g.userId == userId && now < g.at + lifetime
  }

  /** Over every run, a request authenticates only by a cookie that was returned as it stands to the very user it
      authenticates, a session cookie less than eight hours and a remember cookie less than thirty days before; a
      request that does not authenticate changes nothing. So a wrong secret for a known identifier, a forged cookie and
      an expired one are all refused. */
  lemma OnlyGrantedCookiesAuthenticate(policy: LockoutPolicy, ops: seq<Operation>, sc: Option<string>,
                                       rc: Option<string>, now: int, later: int, draws: Draws)
    ensures var end := Run(policy, EMPTY, ops);
      var (after, r) := Authenticating(end, sc, rc, now, later, draws);
      && (r.None? ==> after == end)
      && (r.Some? ==>
            || (exists g :: g in RunSessionGrants(policy, EMPTY, ops) && Current(g, sc, r.value.userId, now, 28800))
            || (exists g :: g in RunTokenGrants(policy, EMPTY, ops) && Current(g, rc, r.value.userId, later, 2592000)))
  {
    var end := Run(policy, EMPTY, ops);
    RunGrants(policy, EMPTY, [], [], ops);
    assert [] + RunSessionGrants(policy, EMPTY, ops) == RunSessionGrants(policy, EMPTY, ops);
    assert [] + RunTokenGrants(policy, EMPTY, ops) == RunTokenGrants(policy, EMPTY, ops);
    var r := Authenticating(end, sc, rc, now, later, draws).1;
    if sc.Some? && SessionCookieValid(end, sc.value, now) {
      var (id, secret) := ParseCookie(sc.value).value;
      ParsedCookie(sc.value);
      assert Current(SessionOrigin(id, end.sessions[id]), sc, r.value.userId, now, 28800);
    } else if rc.Some? && RememberCookieValid(end, rc.value, later) {
      var (id, secret) := ParseCookie(rc.value).value;
      ParsedCookie(rc.value);
      assert Current(TokenOrigin(id, end.tokens[id]), rc, r.value.userId, later, 2592000);
    }
  }

  /** In particular, for a known session and a known token: any other secret gives no user and leaves the state
      alone. */
  lemma WrongSecretsAreRefused(policy: LockoutPolicy, ops: seq<Operation>, sessionId: string, sessionSecret: string,
                               tokenId: string, tokenSecret: string, now: int, later: int, draws: Draws)
    requires forall g :: g in RunSessionGrants(policy, EMPTY, ops) ==> g.cookie != sessionId + "." + sessionSecret
    requires forall g :: g in RunTokenGrants(policy, EMPTY, ops) ==> g.cookie != tokenId + "." + tokenSecret
    ensures var end := Run(policy, EMPTY, ops);
      Authenticating(end, Some(sessionId + "." + sessionSecret), Some(tokenId + "." + tokenSecret), now, later, draws)
      == (end, None)
  {
    OnlyGrantedCookiesAuthenticate(policy, ops, Some(sessionId + "." + sessionSecret),
                                   Some(tokenId + "." + tokenSecret), now, later, draws);
  }

  // ---- Everything granted still works -----------------------------------------------------------------------------

  /** Random draws as the source makes them: no part is empty, and identifiers hold no dot. */
  predicate WellFormed(op: Operation) {
    op.LoginOp? || op.AuthenticateOp? ==>
      && op.draws.sessionId != "" && '.' !in op.draws.sessionId && op.draws.sessionSecret != ""
      && op.draws.tokenId != "" && '.' !in op.draws.tokenId && op.draws.tokenSecret != ""
  }

  predicate AllWellFormed(ops: seq<Operation>) { forall k :: 0 <= k < |ops| ==> WellFormed(ops[k]) }

  /** The cookie of a grant parses, to an identifier and the secret stored for it. */
  ghost predicate SessionKept(st: AuthState, g: Grant) {
    && KnownUser(st, g.userId) && ParseCookie(g.cookie).Some?
    && var (id, secret) := ParseCookie(g.cookie).value;
    && id in st.sessions && st.sessions[id].tokenHash == Digest(secret)
    && st.sessions[id].userId == g.userId && st.sessions[id].expiresAt == g.at + 28800
  }

  ghost predicate TokenKept(st: AuthState, g: Grant) {
    && KnownUser(st, g.userId) && ParseCookie(g.cookie).Some?
    && var (id, secret) := ParseCookie(g.cookie).value;
    && id in st.tokens && st.tokens[id].tokenHash == Digest(secret)
    && st.tokens[id].userId == g.userId && st.tokens[id].expiresAt == g.at + 2592000
  }

  lemma KeptLater(before: AuthState, after: AuthState, g: Grant)
    requires Later(before, after)
    ensures SessionKept(before, g) ==> SessionKept(after, g)
    ensures TokenKept(before, g) ==> TokenKept(after, g)
  {
    if KnownUser(before, g.userId) {
      var name :| name in before.users && before.users[name] == g.userId;
      assert after.users[name] == g.userId;
    }
  }

  lemma LoginGrantKept(policy: LockoutPolicy, st: AuthState, op: Operation, g: Grant)
    requires op.LoginOp? && WellFormed(op)
    ensures g in SessionGrants(policy, st, op) ==> SessionKept(Apply(policy, st, op), g)
    ensures g in TokenGrants(policy, st, op) ==> TokenKept(Apply(policy, st, op), g)
  {
    CookieRoundTrip(op.draws.sessionId, op.draws.sessionSecret);
    CookieRoundTrip(op.draws.tokenId, op.draws.tokenSecret);
    var (after, r) := LoggingIn(policy, st, op.username, op.addr, op.check, op.remember, op.now, op.draws);
    if r.Ok? { assert op.username in after.users && after.users[op.username] == r.value.userId; }
  }

  lemma AuthenticateGrantKept(policy: LockoutPolicy, st: AuthState, op: Operation, g: Grant)
    requires op.AuthenticateOp? && WellFormed(op)
    ensures g in SessionGrants(policy, st, op) ==> SessionKept(Apply(policy, st, op), g)
    ensures g in TokenGrants(policy, st, op) ==> TokenKept(Apply(policy, st, op), g)
  {
    CookieRoundTrip(op.draws.sessionId, op.draws.sessionSecret);
    CookieRoundTrip(op.draws.tokenId, op.draws.tokenSecret);
    var (after, r) := Authenticating(st, op.sessionCookie, op.rememberCookie, op.now, op.later, op.draws);
    if r.Some? && r.value.newSessionCookie.Some? {
      var name :| name in st.users && st.users[name] == r.value.userId;
      assert name in after.users && after.users[name] == r.value.userId;
    }
  }

  lemma {:induction false} GrantsKept(policy: LockoutPolicy, st: AuthState, ops: seq<Operation>, g: Grant)
    requires LegalRun(policy, st, ops) && AllWellFormed(ops)
    ensures g in RunSessionGrants(policy, st, ops) ==> SessionKept(Run(policy, st, ops), g)
    ensures g in RunTokenGrants(policy, st, ops) ==> TokenKept(Run(policy, st, ops), g)
    decreases |ops|
  {
    if ops != [] {
      var after := Apply(policy, st, ops[0]);
      assert WellFormed(ops[0]);
      if ops[0].LoginOp? { LoginGrantKept(policy, st, ops[0], g); }
      if ops[0].AuthenticateOp? { AuthenticateGrantKept(policy, st, ops[0], g); }
      assert AllWellFormed(ops[1..]);
      RunIsLater(policy, after, ops[1..]);
      KeptLater(after, Run(policy, after, ops[1..]), g);
      GrantsKept(policy, after, ops[1..], g);
    }
  }

  /** Exactly when a cookie alone authenticates a user, over every run: it was returned to that user, its lifetime is
      not over, and the session or remember token it names has not been revoked. A remember cookie that does is spent:
      it is answered with a new session and a new remember cookie, and does not authenticate again. */
  lemma AuthenticatesIff(policy: LockoutPolicy, ops: seq<Operation>, cookie: string, userId: string, now: int,
                         later: int, draws: Draws)
    requires LegalRun(policy, EMPTY, ops) && AllWellFormed(ops)
    ensures var end := Run(policy, EMPTY, ops);
      var r := Authenticating(end, Some(cookie), None, now, later, draws).1;
      (r.Some? && r.value.userId == userId) <==>
      exists g :: g in RunSessionGrants(policy, EMPTY, ops) && Current(g, Some(cookie), userId, now, 28800)
        && !SessionRevoked(end, cookie)
    ensures var end := Run(policy, EMPTY, ops);
      var (after, r) := Authenticating(end, None, Some(cookie), now, later, draws);
      && ((r.Some? && r.value.userId == userId) <==>
          exists g :: g in RunTokenGrants(policy, EMPTY, ops) && Current(g, Some(cookie), userId, later, 2592000)
            && !TokenRevoked(end, cookie))
      && (r.Some? && draws.tokenId !in end.tokens ==>
            && r.value.newSessionCookie == Some(draws.sessionId + "." + draws.sessionSecret)
            && r.value.newRememberCookie == Some(draws.tokenId + "." + draws.tokenSecret)
            && TokenRevoked(after, cookie))
  {
    var end := Run(policy, EMPTY, ops);
    RunGrants(policy, EMPTY, [], [], ops);
    assert [] + RunSessionGrants(policy, EMPTY, ops) == RunSessionGrants(policy, EMPTY, ops);
    assert [] + RunTokenGrants(policy, EMPTY, ops) == RunTokenGrants(policy, EMPTY, ops);
    SessionIff(policy, ops, end, cookie, userId, now, later, draws);
    TokenIff(policy, ops, end, cookie, userId, now, later, draws);
  }

  predicate SessionRevoked(st: AuthState, cookie: string) {
    match ParseCookie(cookie)
    case None => false
    case Some((id, _)) => id in st.sessions && st.sessions[id].revokedAt.Some?
  }

  predicate TokenRevoked(st: AuthState, cookie: string) {
    match ParseCookie(cookie)
    case None => false
    case Some((id, _)) => id in st.tokens && st.tokens[id].revokedAt.Some?
  }

  lemma SessionIff(policy: LockoutPolicy, ops: seq<Operation>, end: AuthState, cookie: string, userId: string, now: int,
                   later: int, draws: Draws)
    requires LegalRun(policy, EMPTY, ops) && AllWellFormed(ops) && end == Run(policy, EMPTY, ops)
    requires AllGranted(end, RunSessionGrants(policy, EMPTY, ops), RunTokenGrants(policy, EMPTY, ops))
    ensures var r := Authenticating(end, Some(cookie), None, now, later, draws).1;
      (r.Some? && r.value.userId == userId) <==>
      exists g :: g in RunSessionGrants(policy, EMPTY, ops) && Current(g, Some(cookie), userId, now, 28800)
        && !SessionRevoked(end, cookie)
  {
    var grants := RunSessionGrants(policy, EMPTY, ops);
    if SessionCookieValid(end, cookie, now) {
      var (id, secret) := ParseCookie(cookie).value;
      ParsedCookie(cookie);
      var g := SessionOrigin(id, end.sessions[id]);
      assert g in grants && g.cookie == cookie && now < g.at + 28800;
      if end.sessions[id].userId == userId { assert Current(g, Some(cookie), userId, now, 28800); }
    }
    if exists g :: g in grants && Current(g, Some(cookie), userId, now, 28800) && !SessionRevoked(end, cookie) {
      var g :| g in grants && Current(g, Some(cookie), userId, now, 28800) && !SessionRevoked(end, cookie);
      GrantsKept(policy, EMPTY, ops, g);
      assert SessionCookieValid(end, cookie, now);
    }
  }

  lemma TokenIff(policy: LockoutPolicy, ops: seq<Operation>, end: AuthState, cookie: string, userId: string, now: int,
                 later: int, draws: Draws)
    requires LegalRun(policy, EMPTY, ops) && AllWellFormed(ops) && end == Run(policy, EMPTY, ops)
    requires AllGranted(end, RunSessionGrants(policy, EMPTY, ops), RunTokenGrants(policy, EMPTY, ops))
    ensures var (after, r) := Authenticating(end, None, Some(cookie), now, later, draws);
      && ((r.Some? && r.value.userId == userId) <==>
          exists g :: g in RunTokenGrants(policy, EMPTY, ops) && Current(g, Some(cookie), userId, later, 2592000)
            && !TokenRevoked(end, cookie))
      && (r.Some? && draws.tokenId !in end.tokens ==>
            && r.value.newSessionCookie == Some(draws.sessionId + "." + draws.sessionSecret)
            && r.value.newRememberCookie == Some(draws.tokenId + "." + draws.tokenSecret)
            && TokenRevoked(after, cookie))
  {
    var grants := RunTokenGrants(policy, EMPTY, ops);
    if RememberCookieValid(end, cookie, later) {
      var (id, secret) := ParseCookie(cookie).value;
      ParsedCookie(cookie);
      var g := TokenOrigin(id, end.tokens[id]);
      assert g in grants && g.cookie == cookie && later < g.at + 2592000;
      if end.tokens[id].userId == userId { assert Current(g, Some(cookie), userId, later, 2592000); }
    }
    if exists g :: g in grants && Current(g, Some(cookie), userId, later, 2592000) && !TokenRevoked(end, cookie) {
      var g :| g in grants && Current(g, Some(cookie), userId, later, 2592000) && !TokenRevoked(end, cookie);
      GrantsKept(policy, EMPTY, ops, g);
      assert RememberCookieValid(end, cookie, later);
    }
  }

  /** A login succeeds exactly for a known user whose password matches while the key is not locked out; it then returns
      that user's cookies, the remember cookie exactly when asked for. A logout revokes what its cookies name. */
  lemma LoginAndLogout(policy: LockoutPolicy, st: AuthState, username: string, addr: string, check: PasswordCheck,
                       remember: bool, now: int, draws: Draws, sc: string, rc: string)
    ensures var r := LoggingIn(policy, st, username, addr, check, remember, now, draws).1;
      && (r.Ok? <==>
            username in st.users && check == Matches && !LockedOut(policy, FailuresOf(st, (username, addr)), now))
      && (r.Ok? ==>
            && r.value.userId == st.users[username]
            && r.value.sessionCookie == draws.sessionId + "." + draws.sessionSecret
            && r.value.rememberCookie == if remember then Some(draws.tokenId + "." + draws.tokenSecret) else None)
    ensures var after := LoggingOut(st, Some(sc), Some(rc), now);
      && (SessionRevoked(after, sc) <==> ParseCookie(sc).Some? && ParseCookie(sc).value.0 in st.sessions)
      && (TokenRevoked(after, rc) <==> ParseCookie(rc).Some? && ParseCookie(rc).value.0 in st.tokens)
  {
  }

  /** How a login is refused, and what it leaves in the failures of its key: a lockout comes before everything else, an
      unknown user and a wrong password get one answer, and a check that merely says no is not counted. */
  lemma LoginRefusals(policy: LockoutPolicy, st: AuthState, username: string, addr: string, check: PasswordCheck,
                      remember: bool, now: int, draws: Draws)
    ensures var (after, r) := LoggingIn(policy, st, username, addr, check, remember, now, draws);
      var key := (username, addr);
      var recent := Trimmed(FailuresOf(st, key), now - policy.window);
      var locked := |recent| >= policy.maxFailedAttempts;
      && (r == Err(TooManyAttempts) <==> locked)
      && (r == Err(InvalidCredentials) <==> !locked && (username in st.users ==> check in {Mismatch, AnsweredFalse}))
      && (r == Err(InvalidStoredHash) <==> !locked && username in st.users && check == InvalidHash)
      && FailuresOf(after, key)
         == (if locked then recent
             else if username !in st.users || check in {Mismatch, InvalidHash} then recent + [now]
             else if check == AnsweredFalse then recent
             else [])
      && (r.Err? ==> after.sessions == st.sessions && after.tokens == st.tokens)
  {
  }
}

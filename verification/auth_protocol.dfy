/** Sessions and remember tokens over whole runs: rotation, revocation and what a cookie is still good for. */
module AuthProtocol {
  import opened Common
  import opened WebAuth

  datatype Operation =
    | SetPasswordOp(username: string, freshId: string)
    | LoginOp(username: string, addr: string, check: PasswordCheck, remember: bool, now: int, draws: Draws)
    | AuthenticateOp(sessionCookie: Option<string>, rememberCookie: Option<string>, now: int, later: int, draws: Draws)
    | LogoutOp(sessionCookie: Option<string>, rememberCookie: Option<string>, now: int)
    | RevokeRememberOp(rememberCookie: Option<string>, now: int)
    | RevokeAllOp(userId: string, now: int)

  function Apply(policy: LockoutPolicy, st: AuthState, op: Operation): AuthState {
    match op
    case SetPasswordOp(username, freshId) => SettingPassword(st, username, freshId)
    case LoginOp(username, addr, check, remember, now, draws) =>
      LoggingIn(policy, st, username, addr, check, remember, now, draws).0
    case AuthenticateOp(sc, rc, now, later, draws) => Authenticating(st, sc, rc, now, later, draws).0
    case LogoutOp(sc, rc, now) => LoggingOut(st, sc, rc, now)
    case RevokeRememberOp(rc, now) => LoggingOut(st, None, rc, now)
    case RevokeAllOp(userId, now) => RevokingAll(st, userId, now)
  }

  predicate Fresh(st: AuthState, draws: Draws) {
    draws.sessionId !in st.sessions && draws.tokenId !in st.tokens
  }

  /** Random identifiers never repeat. */
  predicate Legal(st: AuthState, op: Operation) {
    (op.LoginOp? || op.AuthenticateOp?) ==> Fresh(st, op.draws)
  }

  predicate LegalRun(policy: LockoutPolicy, st: AuthState, ops: seq<Operation>)
    decreases |ops|
  {
    ops == [] || (Legal(st, ops[0]) && LegalRun(policy, Apply(policy, st, ops[0]), ops[1..]))
  }

  function Run(policy: LockoutPolicy, st: AuthState, ops: seq<Operation>): AuthState
    decreases |ops|
  {
    if ops == [] then st else Run(policy, Apply(policy, st, ops[0]), ops[1..])
  }

  // ---- Rotation chains --------------------------------------------------------------------------------------------

  predicate Live(tokens: map<string, RememberToken>, id: string) { id in tokens && tokens[id].revokedAt.None? }

  ghost predicate ChainsKnown(tokens: map<string, RememberToken>, origin: map<string, nat>, logins: nat) {
    origin.Keys == tokens.Keys && forall id :: id in origin ==> origin[id] < logins
  }

  ghost predicate OneLivePerChain(tokens: map<string, RememberToken>, origin: map<string, nat>) {
    forall a, b | a in origin && b in origin ::
      Live(tokens, a) && Live(tokens, b) && origin[a] == origin[b] ==> a == b
  }

  /** Each restore spent a token that is revoked for good and passed its chain on to the rotated token. */
  predicate Spent(st: AuthState, r: Restore) {
    && r.tokenId in st.tokens && !Live(st.tokens, r.tokenId)
    && r.sessionId in st.sessions
    && r.rotatedId in st.tokens
    && r.tokenId in st.origin && r.rotatedId in st.origin && st.origin[r.rotatedId] == st.origin[r.tokenId]
  }

  ghost predicate RestoresSpendTokens(st: AuthState) {
    && (forall k :: 0 <= k < |st.restores| ==> Spent(st, st.restores[k]))
    && (forall j, k :: 0 <= j < k < |st.restores| ==> st.restores[j].tokenId != st.restores[k].tokenId)
  }

  ghost predicate Invariant(st: AuthState) {
    ChainsKnown(st.tokens, st.origin, st.logins) && OneLivePerChain(st.tokens, st.origin) && RestoresSpendTokens(st)
  }

  // ---- Nothing is forgotten ---------------------------------------------------------------------------------------

  predicate SameSession(a: Session, b: Session) {
    a.userId == b.userId && a.tokenHash == b.tokenHash && a.expiresAt == b.expiresAt
    && (a.revokedAt.Some? ==> b.revokedAt.Some?)
  }

  predicate SameToken(a: RememberToken, b: RememberToken) {
    a.userId == b.userId && a.tokenHash == b.tokenHash && a.expiresAt == b.expiresAt
    && (a.revokedAt.Some? ==> b.revokedAt.Some?)
  }

  /** `after` knows every user, session and token of `before` on the same terms, and nothing revoked came back. */
  ghost predicate Later(before: AuthState, after: AuthState) {
    && (forall name :: name in before.users ==> name in after.users && after.users[name] == before.users[name])
    && (forall id :: id in before.sessions ==>
          id in after.sessions && SameSession(before.sessions[id], after.sessions[id]))
    && (forall id :: id in before.tokens ==> id in after.tokens && SameToken(before.tokens[id], after.tokens[id]))
  }

  lemma LaterTransitive(a: AuthState, b: AuthState, c: AuthState)
    requires Later(a, b) && Later(b, c)
    ensures Later(a, c)
  {
  }

  lemma AcceptingIsLater(st: AuthState, key: Key, userId: string, remember: bool, now: int, draws: Draws)
    requires Fresh(st, draws)
    ensures Later(st, Accepting(st, key, userId, remember, now, draws))
  {
  }

  lemma RestoringIsLater(st: AuthState, id: string, userId: string, draws: Draws, now: int)
    requires Fresh(st, draws)
    ensures Later(st, Restoring(st, id, userId, draws, now))
  {
  }

  lemma FailuresAreLater(st: AuthState, failures: map<Key, seq<int>>)
    ensures Later(st, st.(failures := failures))
  {
  }

  lemma LoginIsLater(policy: LockoutPolicy, st: AuthState, username: string, addr: string, check: PasswordCheck,
                     remember: bool, now: int, draws: Draws)
    requires Fresh(st, draws)
    ensures Later(st, LoggingIn(policy, st, username, addr, check, remember, now, draws).0)
  {
    var (st', r) := LoggingIn(policy, st, username, addr, check, remember, now, draws);
    if r.Ok? {
      AcceptingIsLater(st, (username, addr), st.users[username], remember, now, draws);
    } else {
      FailuresAreLater(st, st'.failures);
    }
  }

  lemma AuthenticateIsLater(st: AuthState, sc: Option<string>, rc: Option<string>, now: int, later: int, draws: Draws)
    requires Fresh(st, draws)
    ensures Later(st, Authenticating(st, sc, rc, now, later, draws).0)
  {
    if rc.Some? && RememberCookieValid(st, rc.value, later) {
      var id := ParseCookie(rc.value).value.0;
      RestoringIsLater(st, id, st.tokens[id].userId, draws, later);
    }
  }

  lemma LogoutIsLater(st: AuthState, sc: Option<string>, rc: Option<string>, now: int)
    ensures Later(st, LoggingOut(st, sc, rc, now))
  {
    var st1 := LoggingOut(st, sc, None, now);
    SessionLogoutIsLater(st, sc, now);
    TokenLogoutIsLater(st1, rc, now);
    LaterTransitive(st, st1, LoggingOut(st, sc, rc, now));
  }

  lemma SessionLogoutIsLater(st: AuthState, sc: Option<string>, now: int)
    ensures Later(st, LoggingOut(st, sc, None, now))
  {
  }

  lemma TokenLogoutIsLater(st: AuthState, rc: Option<string>, now: int)
    ensures Later(st, LoggingOut(st, None, rc, now))
  {
  }

  lemma RevokeAllIsLater(st: AuthState, userId: string, now: int)
    ensures Later(st, RevokingAll(st, userId, now))
  {
  }

  lemma ApplyIsLater(policy: LockoutPolicy, st: AuthState, op: Operation)
    requires Legal(st, op)
    ensures Later(st, Apply(policy, st, op))
  {
    match op
    case SetPasswordOp(_, _) =>
    case LoginOp(username, addr, check, remember, now, draws) =>
      LoginIsLater(policy, st, username, addr, check, remember, now, draws);
    case AuthenticateOp(sc, rc, now, later, draws) => AuthenticateIsLater(st, sc, rc, now, later, draws);
    case LogoutOp(sc, rc, now) => LogoutIsLater(st, sc, rc, now);
    case RevokeRememberOp(rc, now) => LogoutIsLater(st, None, rc, now);
    case RevokeAllOp(userId, now) => RevokeAllIsLater(st, userId, now);
  }

  lemma {:induction false} RunIsLater(policy: LockoutPolicy, st: AuthState, ops: seq<Operation>)
    requires LegalRun(policy, st, ops)
    ensures Later(st, Run(policy, st, ops))
    decreases |ops|
  {
    if ops != [] {
      var st' := Apply(policy, st, ops[0]);
      ApplyIsLater(policy, st, ops[0]);
      RunIsLater(policy, st', ops[1..]);
      LaterTransitive(st, st', Run(policy, st', ops[1..]));
    }
  }

  // ---- Steps ------------------------------------------------------------------------------------------------------

  /** Revoking tokens and adding sessions, and forgetting nothing, keeps the chains. */
  ghost predicate OnlyRevokes(before: AuthState, after: AuthState) {
    && after.tokens.Keys == before.tokens.Keys && before.sessions.Keys <= after.sessions.Keys
    && after.origin == before.origin && after.logins == before.logins && after.restores == before.restores
    && forall id :: id in before.tokens ==> SameToken(before.tokens[id], after.tokens[id])
  }

  lemma RevokingKeeps(before: AuthState, after: AuthState)
    requires Invariant(before) && OnlyRevokes(before, after)
    ensures Invariant(after)
  {
    RevokingKeepsChains(before.tokens, after.tokens, before.origin);
    forall k | 0 <= k < |after.restores| ensures Spent(after, after.restores[k]) {
      assert Spent(before, before.restores[k]);
    }
  }

  lemma RevokingKeepsChains(tokens: map<string, RememberToken>, tokens': map<string, RememberToken>,
                            origin: map<string, nat>)
    requires OneLivePerChain(tokens, origin)
    requires tokens'.Keys == tokens.Keys && forall id :: id in tokens ==> SameToken(tokens[id], tokens'[id])
    ensures OneLivePerChain(tokens', origin)
  {
    forall id | Live(tokens', id) ensures Live(tokens, id) {
    }
  }

  /** A new token may join a chain that has no live token left. */
  lemma NewTokenKeepsChains(tokens: map<string, RememberToken>, origin: map<string, nat>, id: string,
                            token: RememberToken, login: nat)
    requires origin.Keys == tokens.Keys && OneLivePerChain(tokens, origin) && id !in tokens
    requires forall other :: other in origin && Live(tokens, other) ==> origin[other] != login
    ensures OneLivePerChain(tokens[id := token], origin[id := login])
  {
    var tokens', origin' := tokens[id := token], origin[id := login];
    forall a, b | a in origin' && b in origin' && Live(tokens', a) && Live(tokens', b) && origin'[a] == origin'[b]
      ensures a == b
    {
      assert a != id ==> Live(tokens, a);
      assert b != id ==> Live(tokens, b);
    }
  }

  lemma NewTokenKeeps(st: AuthState, userId: string, draws: Draws, login: nat, logins: nat, now: int)
    requires Invariant(st) && draws.tokenId !in st.tokens && login < logins && st.logins <= logins
    requires forall other :: other in st.origin && Live(st.tokens, other) ==> st.origin[other] != login
    ensures Invariant(WithToken(st, userId, draws, login, now).(logins := logins))
  {
    var st' := WithToken(st, userId, draws, login, now).(logins := logins);
    NewTokenKeepsChains(st.tokens, st.origin, draws.tokenId, st'.tokens[draws.tokenId], login);
    forall k | 0 <= k < |st'.restores| ensures Spent(st', st'.restores[k]) {
      assert Spent(st, st.restores[k]);
    }
  }

  lemma AcceptingKeeps(st: AuthState, key: Key, userId: string, remember: bool, now: int, draws: Draws)
    requires Invariant(st) && Fresh(st, draws)
    ensures Invariant(Accepting(st, key, userId, remember, now, draws))
  {
    var middle := WithSession(st.(failures := st.failures - {key}), userId, draws, now);
    RevokingKeeps(st, middle);
    if remember {
      NewTokenKeeps(middle, userId, draws, st.logins, st.logins + 1, now);
    }
  }

  lemma RestoreKeeps(st: AuthState, id: string, userId: string, draws: Draws, now: int)
    requires Invariant(st) && Fresh(st, draws) && Live(st.tokens, id)
    ensures Invariant(Restoring(st, id, userId, draws, now))
  {
    var middle := WithSession(RevokeToken(st, id, now), userId, draws, now);
    RevokingKeeps(st, middle);
    forall other | other in st.origin && Live(middle.tokens, other) ensures st.origin[other] != OriginOf(st, id) {
      assert Live(st.tokens, other) && other != id;
    }
    NewTokenKeeps(middle, userId, draws, OriginOf(st, id), st.logins, now);
    var rotated := WithToken(middle, userId, draws, OriginOf(st, id), now);
    assert rotated.(logins := st.logins) == rotated;
    forall k | 0 <= k < |st.restores| ensures st.restores[k].tokenId != id {
      assert Spent(st, st.restores[k]);
    }
    NewRestoreKeeps(rotated, Restore(id, draws.sessionId, draws.tokenId));
  }

  lemma NewRestoreKeeps(st: AuthState, r: Restore)
    requires Invariant(st) && Spent(st, r)
    requires forall k :: 0 <= k < |st.restores| ==> st.restores[k].tokenId != r.tokenId
    ensures Invariant(st.(restores := st.restores + [r]))
  {
    var st' := st.(restores := st.restores + [r]);
    forall k | 0 <= k < |st'.restores| ensures Spent(st', st'.restores[k]) {
      if k < |st.restores| { assert Spent(st, st.restores[k]); }
    }
  }

  lemma FailuresKeep(st: AuthState, failures: map<Key, seq<int>>)
    requires Invariant(st)
    ensures Invariant(st.(failures := failures))
  {
    RevokingKeeps(st, st.(failures := failures));
  }

  lemma LogoutKeeps(st: AuthState, sc: Option<string>, rc: Option<string>, now: int)
    requires Invariant(st)
    ensures Invariant(LoggingOut(st, sc, rc, now))
  {
    SessionLogoutKeeps(st, sc, now);
    TokenLogoutKeeps(LoggingOut(st, sc, None, now), rc, now);
  }

  lemma SessionLogoutKeeps(st: AuthState, sc: Option<string>, now: int)
    requires Invariant(st)
    ensures Invariant(LoggingOut(st, sc, None, now))
  {
    RevokingKeeps(st, LoggingOut(st, sc, None, now));
  }

  lemma TokenLogoutKeeps(st: AuthState, rc: Option<string>, now: int)
    requires Invariant(st)
    ensures Invariant(LoggingOut(st, None, rc, now))
  {
    RevokingKeeps(st, LoggingOut(st, None, rc, now));
  }

  lemma RevokeAllKeeps(st: AuthState, userId: string, now: int)
    requires Invariant(st)
    ensures Invariant(RevokingAll(st, userId, now))
  {
    RevokingKeeps(st, RevokingAll(st, userId, now));
  }

  lemma SetPasswordKeeps(st: AuthState, username: string, freshId: string)
    requires Invariant(st)
    ensures Invariant(SettingPassword(st, username, freshId))
  {
    RevokingKeeps(st, SettingPassword(st, username, freshId));
  }

  lemma LoginKeeps(policy: LockoutPolicy, st: AuthState, username: string, addr: string, check: PasswordCheck,
                   remember: bool, now: int, draws: Draws)
    requires Invariant(st) && Fresh(st, draws)
    ensures Invariant(LoggingIn(policy, st, username, addr, check, remember, now, draws).0)
  {
    var (st', r) := LoggingIn(policy, st, username, addr, check, remember, now, draws);
    if r.Ok? {
      AcceptingKeeps(st, (username, addr), st.users[username], remember, now, draws);
    } else {
      FailuresKeep(st, st'.failures);
    }
  }

  lemma AuthenticateKeeps(st: AuthState, sc: Option<string>, rc: Option<string>, now: int, later: int, draws: Draws)
    requires Invariant(st) && Fresh(st, draws)
    ensures Invariant(Authenticating(st, sc, rc, now, later, draws).0)
  {
    if rc.Some? && RememberCookieValid(st, rc.value, later) {
      var id := ParseCookie(rc.value).value.0;
      RestoreKeeps(st, id, st.tokens[id].userId, draws, later);
    }
  }

  lemma ApplyKeeps(policy: LockoutPolicy, st: AuthState, op: Operation)
    requires Invariant(st) && Legal(st, op)
    ensures Invariant(Apply(policy, st, op))
  {
    match op
    case LoginOp(username, addr, check, remember, now, draws) =>
      LoginKeeps(policy, st, username, addr, check, remember, now, draws);
    case AuthenticateOp(sc, rc, now, later, draws) => AuthenticateKeeps(st, sc, rc, now, later, draws);
    case SetPasswordOp(username, freshId) => SetPasswordKeeps(st, username, freshId);
    case LogoutOp(sc, rc, now) => LogoutKeeps(st, sc, rc, now);
    case RevokeRememberOp(rc, now) => LogoutKeeps(st, None, rc, now);
    case RevokeAllOp(userId, now) => RevokeAllKeeps(st, userId, now);
  }

  lemma EmptyIsConsistent()
    ensures Invariant(EMPTY)
  {
  }

  lemma {:induction false} RunKeepsInvariant(policy: LockoutPolicy, st: AuthState, ops: seq<Operation>)
    requires Invariant(st) && LegalRun(policy, st, ops)
    ensures Invariant(Run(policy, st, ops))
    decreases |ops|
  {
    if ops != [] {
      ApplyKeeps(policy, st, ops[0]);
      RunKeepsInvariant(policy, Apply(policy, st, ops[0]), ops[1..]);
    }
  }

  // ---- Whole-run theorems -----------------------------------------------------------------------------------------

  /** Over every run a remember token restores at most one session, a token that has done so is revoked, its chain
      continues in the token it was rotated to, and each remembered login has at most one live token. */
  lemma RememberTokensAreSpentOnce(policy: LockoutPolicy, ops: seq<Operation>)
    requires LegalRun(policy, EMPTY, ops)
    ensures var st := Run(policy, EMPTY, ops); RestoresSpendTokens(st) && OneLivePerChain(st.tokens, st.origin)
  {
    EmptyIsConsistent();
    RunKeepsInvariant(policy, EMPTY, ops);
  }

  /** The cookie names a session or token of the user that existed in the given state. */
  predicate NamesSessionOf(st: AuthState, cookie: string, userId: string) {
    match ParseCookie(cookie)
    case None => false
    case Some((id, _)) => id in st.sessions && st.sessions[id].userId == userId
  }

  predicate NamesTokenOf(st: AuthState, cookie: string, userId: string) {
    match ParseCookie(cookie)
    case None => false
    case Some((id, _)) => id in st.tokens && st.tokens[id].userId == userId
  }

  /** After everything of a user was revoked, no cookie that names an earlier session or token of that user
      authenticates again: a session cookie alone, a remember cookie alone or both together, at any time, after any
      further operations. */
  lemma RevokeAllIsFinal(policy: LockoutPolicy, st: AuthState, userId: string, at: int, ops: seq<Operation>,
                         sessionCookie: Option<string>, rememberCookie: Option<string>, now: int, later: int,
                         draws: Draws)
    requires LegalRun(policy, RevokingAll(st, userId, at), ops)
    requires sessionCookie.Some? ==> NamesSessionOf(st, sessionCookie.value, userId)
    requires rememberCookie.Some? ==> NamesTokenOf(st, rememberCookie.value, userId)
    ensures var end := Run(policy, RevokingAll(st, userId, at), ops);
      Authenticating(end, sessionCookie, rememberCookie, now, later, draws) == (end, None)
  {
    RunIsLater(policy, RevokingAll(st, userId, at), ops);
  }

  /** A revoked session or token stays unusable whatever happens later. */
  lemma RevocationIsPermanent(policy: LockoutPolicy, st: AuthState, ops: seq<Operation>, cookie: string, now: int)
    requires LegalRun(policy, st, ops) && ParseCookie(cookie).Some?
    ensures var id := ParseCookie(cookie).value.0; var end := Run(policy, st, ops);
      && (id in st.sessions && st.sessions[id].revokedAt.Some? ==> !SessionCookieValid(end, cookie, now))
      && (id in st.tokens && st.tokens[id].revokedAt.Some? ==> !RememberCookieValid(end, cookie, now))
  {
    RunIsLater(policy, st, ops);
  }

  /** The cookie a login issues authenticates that user after any further operations, for as long as the session has
      neither expired nor been revoked. */
  lemma IssuedCookieAuthenticates(policy: LockoutPolicy, st: AuthState, login: Operation, ops: seq<Operation>, now: int,
                                  later: int, draws: Draws)
    requires login.LoginOp? && Legal(st, login)
    requires login.draws.sessionId != "" && '.' !in login.draws.sessionId && login.draws.sessionSecret != ""
    requires var r := LoggingIn(policy, st, login.username, login.addr, login.check, login.remember, login.now,
        login.draws).1;
      r.Ok?
    requires LegalRun(policy, Apply(policy, st, login), ops)
    requires now < login.now + SESSION_TTL
    requires login.draws.sessionId in Run(policy, Apply(policy, st, login), ops).sessions
    requires Run(policy, Apply(policy, st, login), ops).sessions[login.draws.sessionId].revokedAt.None?
    ensures var issued := LoggingIn(policy, st, login.username, login.addr, login.check, login.remember, login.now,
                                    login.draws).1.value;
      var end := Run(policy, Apply(policy, st, login), ops);
      Authenticating(end, Some(issued.sessionCookie), None, now, later, draws)
      == (end, Some(Authenticated(st.users[login.username], login.draws.sessionId, None, None)))
  {
    var first := Apply(policy, st, login);
    var end := Run(policy, first, ops);
    RunIsLater(policy, first, ops);
    CookieRoundTrip(login.draws.sessionId, login.draws.sessionSecret);
    assert login.username in first.users && first.users[login.username] == st.users[login.username];
    assert KnownUser(end, st.users[login.username]) by {
      assert end.users[login.username] == st.users[login.username];
    }
  }
}

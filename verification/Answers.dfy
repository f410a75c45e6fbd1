// What an answer with tokens shows: the stored user, and an access token with that user's fields and a
// lifetime counted from one clock reading.
module Answers {
  import opened Model
  import opened Ops
  import opened Listing
  import opened Integrity
  import opened Requests

  // The access token carries the user's fields and lasts from `t` for the service's lifetime, in whole seconds.
  ghost predicate MintedAt(sys: Sys, tr: TokenResponse, t: int) {
    && tr.claims.sub == tr.user.id && tr.claims.email == tr.user.email
    && tr.claims.aud == tr.user.aud && tr.claims.role == tr.user.role
    && tr.claims.appMetadata == tr.user.appMetadata && tr.claims.userMetadata == tr.user.userMetadata
    && tr.claims.iss == sys.issuer
    && tr.claims.iat == t / SECOND && tr.claims.exp == (t + sys.ttl) / SECOND
    && tr.expiresAt == tr.claims.exp
    && (sys.ttl >= 0 ==> 0 <= sys.ttl - tr.expiresIn * SECOND < SECOND)
    && (sys.ttl < 0 ==> 0 <= tr.expiresIn * SECOND - sys.ttl < SECOND)
  }

  // The user of the answer is the stored one, with the listing of the user's factors.
  ghost predicate StoredUser(s: State, u: User) {
    u.id in s.accounts.users && u == CloneUser(s.mfa.factors, s.accounts.users[u.id])
  }

  ghost predicate Shows(sys: Sys, r: Reply, t: int) {
    r.resp.Token? && MintedAt(sys, r.resp.tr, t) && StoredUser(r.sys.store, r.resp.tr.user)
  }

  // Which of the request's clock readings its access token is minted at.
  function MintClock(req: Request): nat {
    match req
    case RefreshGrant(_) => 1
    case PasswordGrant(_, _) => 3
    case VerifyFactorRequest(_, _, _) => 5
    case _ => 4
  }

  // Nothing but sessions, tokens and ids differ.
  ghost predicate SameRecords(s: State, t: State) {
    t.accounts == s.accounts && t.mfa == s.mfa && t.keys == s.keys && t.oauth == s.oauth
  }

  // A sign-in opened a new session at aal1 with its one method, and a first refresh token in it.
  ghost predicate Opened(s: State, r: Reply, amrMethod: string, now: int, now': int) {
    && r.resp.Token?
    && var uid, sid, tok := r.resp.tr.user.id, r.resp.tr.claims.sid, r.resp.tr.refreshToken;
    && r.resp.tr.claims.aal == AAL1 && r.resp.tr.claims.amr == [AMREntry(amrMethod, now / SECOND)]
    && r.sys.store.auth.sessions == s.auth.sessions[sid := Session(sid, uid, now, AAL1, r.resp.tr.claims.amr)]
    && r.sys.store.auth.refreshTokens == s.auth.refreshTokens[tok := RefreshToken(tok, uid, sid, now', false, "")]
    && r.sys.store.auth.parentToChild == s.auth.parentToChild
  }

  // ---- the ends of the sign-ins -------------------------------------------------

  lemma MintShows(sys: Sys, u: User, sid: Id, tok: Id, now: int)
    requires u.id in sys.store.accounts.users && sys.store.accounts.users[u.id] == u
    ensures var r := Mint(sys, u, sid, tok, now);
            && Shows(sys, r, now) && r.resp.Token? && r.resp.tr.user.id == u.id && r.sys.store == sys.store
            && r.resp.tr.claims.sid == sid && r.resp.tr.refreshToken == tok
            && r.resp.tr.claims.aal == SessionAAL(sys.store, sid) && r.resp.tr.claims.amr == SessionAMR(sys.store, sid)
  {
    hide FactorList, SessionAAL, SessionAMR;
  }

  lemma IssueShows(sys: Sys, u: User, m: string, env: Env, i: nat, j: nat)
    requires u.id in sys.store.accounts.users && sys.store.accounts.users[u.id] == u
    ensures var r := IssueWithMethod(sys, u, m, env, i, j);
            && Shows(sys, r, env.clk(i + 2)) && r.resp.Token? && r.resp.tr.user.id == u.id
            && Opened(sys.store, r, m, env.clk(i), env.clk(i + 1))
            && SameRecords(sys.store, r.sys.store)
  {
    hide Build, CloneUser, Shows;
    var out := IssueSession(sys.store, u.id, m, env.clk(i), env.clk(i + 1), env.uuid(j), env.uuid(j + 1));
    assert out.res.Ok? && SameRecords(sys.store, out.st);
    var (sess, rt) := out.res.value;
    MintShows(sys.(store := out.st), u, sess.id, rt.token, env.clk(i + 2));
    SameSys(sys, sys.(store := out.st), Mint(sys.(store := out.st), u, sess.id, rt.token, env.clk(i + 2)),
            env.clk(i + 2), OpIssueSession(u.id, m, env.clk(i), env.clk(i + 1), env.uuid(j), env.uuid(j + 1)));
    hide Mint, IssueSession;
  }

  // The accounts after a sign-in: the user's two stamps are new.
  ghost predicate SignedIn(s: State, t: State, uid: Id, now: int) {
    && uid in s.accounts.users
    && t.accounts == s.accounts.(users :=
         s.accounts.users[uid := s.accounts.users[uid].(lastSignInAt := Some(now), updatedAt := now)])
  }

  lemma SignInShows(sys: Sys, uid: Id, m: string, status: int, code: string, env: Env, i: nat)
    requires UsersOk(sys.store.accounts.users)
    ensures var r := SignIn(sys, uid, m, status, code, env, i);
            if uid in sys.store.accounts.users then
              && Shows(sys, r, env.clk(i + 3)) && r.resp.Token? && r.resp.tr.user.id == uid
              && SignedIn(sys.store, r.sys.store, uid, env.clk(i))
              && Opened(sys.store, r, m, env.clk(i + 1), env.clk(i + 2))
              && r.sys.store.mfa == sys.store.mfa && r.sys.store.keys == sys.store.keys
              && r.sys.store.oauth == sys.store.oauth
            else r.resp == Rejected(status, code) && r.sys == sys
  {
    hide IssueWithMethod, Shows, Opened;
    if uid in sys.store.accounts.users {
      var a := UpdateLastSignIn(sys.store, uid, env.clk(i));
      IssueShows(sys.(store := a.st), a.res.value, m, env, i + 1, 0);
      SameSys(sys, sys.(store := a.st), IssueWithMethod(sys.(store := a.st), a.res.value, m, env, i + 1, 0),
              env.clk(i + 3), OpUpdateLastSignIn(uid, env.clk(i)));
      SameOpened(sys.store, a.st, IssueWithMethod(sys.(store := a.st), a.res.value, m, env, i + 1, 0),
                 OpUpdateLastSignIn(uid, env.clk(i)), m, env.clk(i + 1), env.clk(i + 2));
    }
  }

  lemma SameOpened(s: State, a: State, r: Reply, op: Op, amrMethod: string, now: int, now': int)
    requires a.auth == s.auth
    ensures Opened(a, r, amrMethod, now, now') <==> Opened(s, r, amrMethod, now, now')
    ensures Opened(s, Then(op, r), amrMethod, now, now') <==> Opened(s, r, amrMethod, now, now')
  {
  }

  // What an answer shows depends on the service's constants alone.
  lemma SameSys(a: Sys, b: Sys, r: Reply, t: int, op: Op)
    requires a.issuer == b.issuer && a.ttl == b.ttl
    ensures Shows(a, r, t) <==> Shows(b, r, t)
    ensures Shows(a, r, t) <==> Shows(a, Then(op, r), t)
  {
    hide CloneUser;
  }
}

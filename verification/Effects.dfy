// What a request can do to sessions and tokens. Nineteen requests, seven effects: every
// request performs store operations that leave sessions and tokens alone, and then at most one of
// login, rotation, step-up, logout, deletion or reset.
module Effects {
  import opened Text
  import opened Model
  import opened Ops
  import opened Listing
  import opened Forest
  import opened Integrity
  import opened Emails
  import opened Identities
  import opened Invariant
  import opened Requests

  // Sessions, tokens and edges are as before; ids and users were only added.
  ghost predicate Quiet(s: State, t: State) {
    && t.auth == s.auth
    && t.reuseInterval == s.reuseInterval
    && s.ids.used <= t.ids.used
    && s.accounts.users.Keys <= t.accounts.users.Keys
  }

  datatype Effect =
    | Calm
    | Login(mid: State, uid: Id, amrMethod: string, now: int, now': int, sid: Id, tok: Id)
    | Rotate(token: Id, now: int, next: Id)
    | Raise(mid: State, caller: Claims, fid: Id, cid: Id, now: int, now': int, tok: Id)
    | Cut(caller: Claims, now: int)
    | Erase(uid: Id)
    | Wipe

  // The answer is a token response for the user, the session and the refresh token; its access
  // token is minted and carries the session's current assurance level and methods.
  ghost predicate Answers(sys: Sys, r: Reply, uid: Id, sid: Id, tok: Id) {
    && r.resp.Token?
    && r.resp.tr.refreshToken == tok
    && r.resp.tr.user.id == uid
    && r.resp.tr.claims.sub == uid && r.resp.tr.claims.sid == sid && r.resp.tr.claims.iss == sys.issuer
    && r.resp.tr.claims.aal == SessionAAL(r.sys.store, sid)
    && r.resp.tr.claims.amr == SessionAMR(r.sys.store, sid)
    && r.sys == sys.(store := r.sys.store, minted := sys.minted + {r.resp.tr.claims})
  }

  // No token response, and nothing minted.
  ghost predicate Silent(sys: Sys, r: Reply) {
    !r.resp.Token? && r.sys == sys.(store := r.sys.store)
  }

  ghost predicate HasEffect(sys: Sys, r: Reply, e: Effect) {
    match e
    case Calm => Quiet(sys.store, r.sys.store) && Silent(sys, r)
    case Login(mid, uid, m, now, now', sid, tok) =>
      && Quiet(sys.store, mid) && uid in mid.accounts.users
      && Fresh(mid, sid) && Fresh(mid, tok) && sid != tok
      && r.sys.store == IssueSession(mid, uid, m, now, now', sid, tok).st
      && Answers(sys, r, uid, sid, tok)
    case Rotate(token, now, next) =>
      var out := ConsumeRefreshToken(sys.store, token, now, next);
      && Fresh(sys.store, next) && r.sys.store == out.st
      && (out.res.Err? ==> Silent(sys, r))
      && (out.res.Ok? ==>
            var rt := out.res.value.0;
            Answers(sys, r, rt.userID, rt.sessionID, rt.token))
    case Raise(mid, c, fid, cid, now, now', tok) =>
      && Quiet(sys.store, mid)
      && c in sys.minted && c.iss == sys.issuer && c.sid in mid.auth.sessions && c.sub in mid.accounts.users
      && OwnsFactor(sys.store, c.sub, fid)
      && cid in sys.store.mfa.challenges && sys.store.mfa.challenges[cid].factorID == fid
      && cid !in mid.mfa.challenges
      && Fresh(mid, tok)
      && r.sys.store == IssueRefreshToken(UpgradeSessionAAL(mid, c.sid, WEBAUTHN, now).st, c.sub, c.sid, now', tok).st
      && Answers(sys, r, c.sub, c.sid, tok)
    case Cut(c, now) =>
      && c in sys.minted && c.iss == sys.issuer
      && r.sys.store == RevokeRefreshTokensBySession(sys.store, c.sid, now)
      && Silent(sys, r)
    case Erase(uid) => r.sys.store == DeleteUser(sys.store, uid).st && Silent(sys, r)
    case Wipe => r.sys.store == EmptyState(sys.store.reuseInterval, sys.store.ids) && Silent(sys, r)
  }

  // ---- quiet operations -------------------------------------------------------

  lemma QuietUser(s: State, email: string, hash: seq<bv8>, now: int, uid: Id, iid: Id)
    ensures Quiet(s, CreateUser(s, email, hash, now, uid, iid).st)
  {
    hide EmailUser;
  }

  lemma QuietUpdate(s: State, id: Id, data: Meta, now: int)
    ensures Quiet(s, SetUserMetadata(s, id, data, now).st) && Quiet(s, UpdateLastSignIn(s, id, now).st)
  {
  }

  lemma QuietIdentity(s: State, uid: Id, provider: string, data: Meta, now: int, iid: Id)
    ensures Quiet(s, AddIdentity(s, uid, provider, data, now, iid).st)
    ensures Quiet(s, RemoveIdentity(s, uid, iid, now).st)
  {
    hide HasProvider, LinkIdentity, IdentityIndex, Without, RecomputeProviders;
  }

  lemma QuietOAuth(s: State, provider: string, hint: string, now: int, uid: Id, sub: Id, iid: Id, salt: Id)
    ensures Quiet(s, CreateOAuthUser(s, provider, hint, now, uid, sub, iid, salt).st)
  {
    hide HasProvider, AppendProviderIdentity, RecomputeProviders, OAuthEmail, Synthesized, NewUser;
  }

  lemma QuietCode(s: State, uid: Id, now: int, code: Id)
    ensures Quiet(s, CreateAuthCode(s, uid, now, code).st) && Quiet(s, ConsumeAuthCode(s, code, now).st)
  {
  }

  lemma QuietFactor(s: State, uid: Id, ft: string, name: string, now: int, fid: Id)
    ensures Quiet(s, EnrollFactor(s, uid, ft, name, now, fid).st)
    ensures Quiet(s, VerifyFactor(s, fid, now).st) && Quiet(s, DeleteFactor(s, uid, fid).st)
  {
    hide NameTaken;
  }

  lemma QuietChallenge(s: State, fid: Id, value: string, now: int, cid: Id)
    ensures Quiet(s, CreateChallenge(s, fid, value, now, cid).st) && Quiet(s, ConsumeChallenge(s, fid, cid, now).st)
  {
  }

  lemma QuietCeremony(s: State, uid: Id, p: Purpose, name: string, value: string, now: int, cid: Id)
    ensures Quiet(s, CreatePasskeyChallenge(s, uid, p, name, value, now, cid).st)
    ensures Quiet(s, ConsumePasskeyChallenge(s, cid, p, now).st)
  {
  }

  lemma QuietPasskey(s: State, uid: Id, name: string, cred: string, now: int, pid: Id)
    ensures Quiet(s, AddPasskey(s, uid, name, cred, now, pid).st)
    ensures Quiet(s, DeletePasskey(s, uid, pid).st) && Quiet(s, MarkPasskeyUsed(s, pid, now))
  {
  }

  lemma QuietRefl(s: State)
    ensures Quiet(s, s)
  {
  }

  lemma QuietTrans(s: State, t: State, u: State)
    requires Quiet(s, t) && Quiet(t, u)
    ensures Quiet(s, u)
  {
  }

  // ---- logins -----------------------------------------------------------------

  // From a quiet intermediate state, IssueWithMethod logs the user in.
  lemma LoginEffect(sys: Sys, mid: State, u: User, m: string, env: Env, i: nat, j: nat, ops: seq<Op>)
    returns (e: Effect)
    requires Quiet(sys.store, mid) && u.id in mid.accounts.users
    requires Fresh(mid, env.uuid(j)) && Fresh(mid, env.uuid(j + 1)) && env.uuid(j) != env.uuid(j + 1)
    ensures HasEffect(sys, IssueWithMethod(sys.(store := mid), u, m, env, i, j).(ops := ops), e)
    ensures e.Login? && e.amrMethod == m
  {
    e := Login(mid, u.id, m, env.clk(i), env.clk(i + 1), env.uuid(j), env.uuid(j + 1));
    hide FactorList, Unix, Quiet;
  }

  // ---- one lemma per request --------------------------------------------------

  lemma WelcomeEffect(sys: Sys, mid: State, u: User, data: Meta, env: Env, ops: seq<Op>) returns (e: Effect)
    requires Quiet(sys.store, mid) && u.id in mid.accounts.users && mid.accounts.users[u.id].id == u.id
    requires Fresh(mid, env.uuid(2)) && Fresh(mid, env.uuid(3)) && env.uuid(2) != env.uuid(3)
    ensures HasEffect(sys, Welcome(sys.(store := mid), u, data, env).(ops := ops), e)
    ensures e.Login? && e.amrMethod == "password"
  {
    hide HasEffect, IssueWithMethod, Quiet, SetUserMetadata;
    if |data| == 0 {
      e := LoginEffect(sys, mid, u, "password", env, 2, 2, ops);
    } else {
      QuietUpdate(mid, u.id, data, env.clk(1));
      UpdatedUser(mid, u.id, data, env.clk(1));
      var b := SetUserMetadata(mid, u.id, data, env.clk(1));
      QuietTrans(sys.store, mid, b.st);
      e := LoginEffect(sys, b.st, b.res.value, "password", env, 2, 2, ops);
    }
  }

  lemma SignupEffect(sys: Sys, email: string, password: string, data: Meta, env: Env) returns (e: Effect)
    requires EnvOk(sys.store, env)
    ensures HasEffect(sys, SignupStep(sys, email, password, data, env), e)
    ensures (e.Login? && e.amrMethod == "password") || e.Calm?
  {
    hide Quiet, CreateUser, Welcome, TrimSpace;
    e := Calm;
    QuietRefl(sys.store);
    var address := TrimSpace(email);
    if address != "" && password != "" && '@' in address && ByteLength(password) >= 6 && env.hash(password).Some? {
      var a := CreateUser(sys.store, address, env.hash(password).value, env.clk(0), env.uuid(0), env.uuid(1));
      QuietUser(sys.store, address, env.hash(password).value, env.clk(0), env.uuid(0), env.uuid(1));
      if a.res.Ok? {
        CreatedUser(sys.store, address, env.hash(password).value, env.clk(0), env.uuid(0), env.uuid(1));
        hide HasEffect;
        e := WelcomeEffect(sys, a.st, a.res.value, data, env, SignupStep(sys, email, password, data, env).ops);
      }
    }
  }

  lemma CreatedUser(s: State, email: string, hash: seq<bv8>, now: int, uid: Id, iid: Id)
    ensures var a := CreateUser(s, email, hash, now, uid, iid);
            a.res.Ok? ==>
              && a.res.value.id == uid && uid in a.st.accounts.users && a.st.accounts.users[uid] == a.res.value
              && a.st.ids.used == s.ids.used + {uid, iid}
  {
  }

  lemma UpdatedUser(s: State, id: Id, data: Meta, now: int)
    requires id in s.accounts.users && s.accounts.users[id].id == id
    ensures var a := SetUserMetadata(s, id, data, now);
            a.res.Ok? && a.res.value.id == id && id in a.st.accounts.users && a.st.ids == s.ids
    ensures var a := UpdateLastSignIn(s, id, now);
            a.res.Ok? && a.res.value.id == id && id in a.st.accounts.users && a.st.ids == s.ids
  {
  }

  // Stamping the sign-in and issuing a session, from a quiet intermediate state.
  lemma SignInEffect(sys: Sys, mid: State, uid: Id, m: string, status: int, code: string, env: Env, i: nat,
      ops: seq<Op>)
    returns (e: Effect)
    requires Quiet(sys.store, mid) && (uid in mid.accounts.users ==> mid.accounts.users[uid].id == uid)
    requires Fresh(mid, env.uuid(0)) && Fresh(mid, env.uuid(1)) && env.uuid(0) != env.uuid(1)
    ensures HasEffect(sys, SignIn(sys.(store := mid), uid, m, status, code, env, i).(ops := ops), e)
    ensures e.Login? ==> uid in mid.accounts.users
    ensures (e.Login? && e.amrMethod == m) || e.Calm?
  {
    e := Calm;
    QuietUpdate(mid, uid, map[], env.clk(i));
    var a := UpdateLastSignIn(mid, uid, env.clk(i));
    QuietTrans(sys.store, mid, a.st);
    if uid in mid.accounts.users {
      UpdatedUser(mid, uid, map[], env.clk(i));
      hide UpdateLastSignIn, HasEffect, IssueWithMethod, Quiet;
      e := LoginEffect(sys, a.st, a.res.value, m, env, i + 1, 0, ops);
    }
  }

  lemma PasswordGrantEffect(sys: Sys, email: string, password: string, env: Env) returns (e: Effect)
    requires EnvOk(sys.store, env) && UsersOk(sys.store.accounts.users)
    ensures HasEffect(sys, PasswordGrantStep(sys, email, password, env), e)
    ensures (e.Login? && e.amrMethod == "password") || e.Calm?
  {
    e := Calm;
    var u := FindUserByEmail(sys.store, TrimSpace(email));
    if u.Some? {
      var r := SignIn(sys, u.value.id, "password", 400, "invalid_credentials", env, 0);
      if PasswordGrantStep(sys, email, password, env) == r {
        hide SignIn, HasEffect;
        assert sys == sys.(store := sys.store);
        assert r == r.(ops := r.ops);
        e := SignInEffect(sys, sys.store, u.value.id, "password", 400, "invalid_credentials", env, 0, r.ops);
      }
    }
    hide SignIn;
  }

  lemma PkceGrantEffect(sys: Sys, code: Id, env: Env) returns (e: Effect)
    requires EnvOk(sys.store, env) && UsersOk(sys.store.accounts.users)
    ensures HasEffect(sys, PkceGrantStep(sys, code, env), e)
    ensures (e.Login? && e.amrMethod == "oauth") || e.Calm?
    ensures e.Login? ==> e.uid in sys.store.accounts.users
  {
    e := Calm;
    QuietCode(sys.store, "", env.clk(0), code);
    var a := ConsumeAuthCode(sys.store, code, env.clk(0));
    if TrimSpace(code) != "" && a.res.Ok? {
      var r := PkceGrantStep(sys, code, env);
      assert a.st.accounts == sys.store.accounts && a.st.ids == sys.store.ids;
      hide ConsumeAuthCode, SignIn, HasEffect;
      e := SignInEffect(sys, a.st, a.res.value.userID, "oauth", 400, "invalid_grant", env, 1, r.ops);
    }
    hide ConsumeAuthCode, SignIn;
  }

  // Consuming stays with the presented token's user and session, also along a replay.
  lemma ConsumeKeepsOwner(s: State, token: Id, now: int, next: Id)
    requires Rotates(s.auth.refreshTokens, s.auth.parentToChild)
    ensures var out := ConsumeRefreshToken(s, token, now, next);
            out.res.Ok? ==>
              && token in s.auth.refreshTokens
              && out.res.value.0.userID == s.auth.refreshTokens[token].userID
              && out.res.value.0.sessionID == s.auth.refreshTokens[token].sessionID
              && out.res.value.0.userID in s.accounts.users
              && out.res.value.1 == s.accounts.users[out.res.value.0.userID]
  {
    var toks, p2c := s.auth.refreshTokens, s.auth.parentToChild;
    if token in toks {
      var f: Chains :| Refines(toks, p2c, f);
      var r: Id, i: int :| Has(f, r, i, token);
      assert LinkOk(toks, p2c, f[r], i);
      LatestChildOf(toks, p2c, f, r, i);
    }
    hide FindLatestChild, Refines;
  }

  lemma RefreshGrantEffect(sys: Sys, token: Id, env: Env) returns (e: Effect)
    requires EnvOk(sys.store, env) && UsersOk(sys.store.accounts.users)
    requires Rotates(sys.store.auth.refreshTokens, sys.store.auth.parentToChild)
    ensures HasEffect(sys, RefreshGrantStep(sys, token, env), e)
    ensures e == if token == "" then Calm else Rotate(token, env.clk(0), env.uuid(0))
  {
    if token == "" {
      e := Calm;
    } else {
      ConsumeKeepsOwner(sys.store, token, env.clk(0), env.uuid(0));
      e := Rotate(token, env.clk(0), env.uuid(0));
    }
    hide ConsumeRefreshToken, FactorList, Unix, Rotates;
  }

  lemma AuthorizeEffect(sys: Sys, provider: string, redirectTo: string, hint: string, env: Env)
    ensures HasEffect(sys, AuthorizeStep(sys, provider, redirectTo, hint, env), Calm)
  {
    hide Quiet, CreateOAuthUser, CreateAuthCode, TrimSpace;
    QuietRefl(sys.store);
    var p := TrimSpace(provider);
    var a := CreateOAuthUser(sys.store, p, hint, env.clk(0), env.uuid(0), env.uuid(1), env.uuid(2), env.uuid(3));
    QuietOAuth(sys.store, p, hint, env.clk(0), env.uuid(0), env.uuid(1), env.uuid(2), env.uuid(3));
    if a.res.Ok? {
      var b := CreateAuthCode(a.st, a.res.value.id, env.clk(1), env.uuid(4));
      QuietCode(a.st, a.res.value.id, env.clk(1), env.uuid(4));
      QuietTrans(sys.store, a.st, b.st);
    }
  }

  lemma LogoutEffect(sys: Sys, bearer: Bearer, env: Env) returns (e: Effect)
    requires BearerOk(sys, bearer)
    ensures HasEffect(sys, LogoutStep(sys, bearer, env), e)
    ensures e == if bearer.Jwt? && bearer.claims.iss == sys.issuer && bearer.claims.sid != ""
                 then Cut(bearer.claims, env.clk(0)) else Calm
  {
    e := if bearer.Jwt? && bearer.claims.iss == sys.issuer && bearer.claims.sid != ""
         then Cut(bearer.claims, env.clk(0)) else Calm;
    hide RevokeRefreshTokensBySession;
  }

  // ---- factors ----------------------------------------------------------------

  lemma EnrollFactorEffect(sys: Sys, bearer: Bearer, ft: string, name: string, env: Env)
    ensures HasEffect(sys, EnrollFactorStep(sys, bearer, ft, name, env), Calm)
  {
    hide Quiet, EnrollFactor, RequireUser, TrimSpace;
    QuietRefl(sys.store);
    var caller := RequireUser(sys, bearer, env.clk(0));
    if caller.Known? {
      QuietFactor(sys.store, caller.user.id, WEBAUTHN, TrimSpace(name), env.clk(1), env.uuid(0));
    }
  }

  lemma ChallengeFactorEffect(sys: Sys, bearer: Bearer, fid: Id, env: Env)
    ensures HasEffect(sys, ChallengeFactorStep(sys, bearer, fid, env), Calm)
  {
    hide Quiet, CreateChallenge, RequireUser;
    QuietRefl(sys.store);
    QuietChallenge(sys.store, fid, env.uuid(1), env.clk(1), env.uuid(0));
  }

  lemma UnenrollFactorEffect(sys: Sys, bearer: Bearer, fid: Id, env: Env)
    ensures HasEffect(sys, UnenrollFactorStep(sys, bearer, fid, env), Calm)
  {
    hide Quiet, DeleteFactor, RequireUser;
    QuietRefl(sys.store);
    var caller := RequireUser(sys, bearer, env.clk(0));
    if caller.Known? {
      QuietFactor(sys.store, caller.user.id, "", "", 0, fid);
    }
  }

  // The end of a verification: either nothing, when the session is gone, or a step-up.
  lemma StepUpEffect(sys: Sys, mid: State, c: Claims, fid: Id, cid: Id, env: Env, ops: seq<Op>) returns (e: Effect)
    requires Quiet(sys.store, mid) && UsersOk(mid.accounts.users) && c in sys.minted && c.iss == sys.issuer
    requires c.sub in mid.accounts.users && OwnsFactor(sys.store, c.sub, fid)
    requires cid in sys.store.mfa.challenges && sys.store.mfa.challenges[cid].factorID == fid
    requires cid !in mid.mfa.challenges && Fresh(mid, env.uuid(0))
    ensures HasEffect(sys, StepUp(sys.(store := mid), c.sub, c.sid, env).(ops := ops), e)
    ensures e.Raise? || e.Calm?
    ensures e.Raise? ==> e.caller == c && e.fid == fid && e.cid == cid
  {
    e := Calm;
    if c.sid != "" && c.sid in mid.auth.sessions {
      e := Raise(mid, c, fid, cid, env.clk(3), env.clk(4), env.uuid(0));
    }
    hide FactorList, Unix, HasMethod;
  }

  lemma FactorVerified(s: State, fid: Id, cid: Id, now: int, now': int)
    ensures var a := ConsumeChallenge(s, fid, cid, now);
            var b := VerifyFactor(a.st, fid, now');
            && Quiet(s, a.st) && Quiet(s, b.st)
            && b.st.ids == s.ids && b.st.accounts == s.accounts
            && (a.res.Ok? ==>
                  cid !in b.st.mfa.challenges && cid in s.mfa.challenges && s.mfa.challenges[cid].factorID == fid)
    ensures ConsumeChallenge(s, fid, cid, now).res.Err? ==> Quiet(s, ConsumeChallenge(s, fid, cid, now).st)
  {
  }

  lemma VerifyFactorEffect(sys: Sys, bearer: Bearer, fid: Id, cid: Id, env: Env) returns (e: Effect)
    requires EnvOk(sys.store, env) && BearerOk(sys, bearer) && UsersOk(sys.store.accounts.users)
    ensures HasEffect(sys, VerifyFactorStep(sys, bearer, fid, cid, env), e)
    ensures e.Raise? || e.Calm?
    ensures e.Raise? ==> bearer == Jwt(e.caller) && fid == e.fid && cid == e.cid
  {
    hide ConsumeChallenge, VerifyFactor, StepUp, Quiet;
    e := Calm;
    QuietRefl(sys.store);
    var caller := RequireUser(sys, bearer, env.clk(0));
    FactorVerified(sys.store, fid, cid, env.clk(1), env.clk(2));
    var a := ConsumeChallenge(sys.store, fid, cid, env.clk(1));
    var b := VerifyFactor(a.st, fid, env.clk(2));
    if caller.Known? && OwnsFactor(sys.store, caller.user.id, fid) && cid != "" && a.res.Ok? && b.res.Ok? {
      hide HasEffect;
      e := StepUpEffect(sys, b.st, caller.claims, fid, cid, env, VerifyFactorStep(sys, bearer, fid, cid, env).ops);
    }
  }

  // ---- passkeys ---------------------------------------------------------------

  lemma RegistrationOptionsEffect(sys: Sys, bearer: Bearer, name: string, env: Env)
    ensures HasEffect(sys, RegistrationOptionsStep(sys, bearer, name, env), Calm)
  {
    hide Quiet, CreatePasskeyChallenge, RequireUser;
    QuietRefl(sys.store);
    var caller := RequireUser(sys, bearer, env.clk(0));
    if caller.Known? {
      QuietCeremony(sys.store, caller.user.id, Registration, TrimSpace(name), env.uuid(1), env.clk(1), env.uuid(0));
    }
  }

  lemma IsCalm(sys: Sys, r: Reply)
    requires Quiet(sys.store, r.sys.store) && Silent(sys, r)
    ensures HasEffect(sys, r, Calm)
  {
    hide Quiet, Silent;
  }

  // A spent ceremony challenge leaves accounts and ids alone.
  lemma SpentCeremony(s: State, cid: Id, p: Purpose, now: int)
    ensures var t := ConsumePasskeyChallenge(s, cid, p, now).st;
            Quiet(s, t) && t.accounts == s.accounts && t.ids == s.ids
  {
  }

  lemma MarkedPasskey(s: State, pid: Id, now: int)
    ensures var t := MarkPasskeyUsed(s, pid, now); Quiet(s, t) && t.accounts == s.accounts && t.ids == s.ids
  {
  }

  lemma RegistrationVerifyEffect(sys: Sys, bearer: Bearer, cid: Id, cred: string, name: string, env: Env)
    ensures HasEffect(sys, RegistrationVerifyStep(sys, bearer, cid, cred, name, env), Calm)
  {
    hide Quiet, HasEffect, ConsumePasskeyChallenge, AddPasskey, RequireUser, TrimSpace;
    QuietRefl(sys.store);
    var caller := RequireUser(sys, bearer, env.clk(0));
    SpentCeremony(sys.store, cid, Registration, env.clk(1));
    var a := ConsumePasskeyChallenge(sys.store, cid, Registration, env.clk(1));
    if caller.Known? && a.res.Ok? {
      var friendly := if TrimSpace(name) == "" then a.res.value.friendlyName else TrimSpace(name);
      QuietPasskey(a.st, caller.user.id, friendly, cred, env.clk(2), env.uuid(0));
      QuietTrans(sys.store, a.st, AddPasskey(a.st, caller.user.id, friendly, cred, env.clk(2), env.uuid(0)).st);
    }
    IsCalm(sys, RegistrationVerifyStep(sys, bearer, cid, cred, name, env));
  }

  lemma AuthenticationOptionsEffect(sys: Sys, env: Env)
    ensures HasEffect(sys, AuthenticationOptionsStep(sys, env), Calm)
  {
    QuietCeremony(sys.store, "", Authentication, "", env.uuid(1), env.clk(0), env.uuid(0));
    hide Quiet, CreatePasskeyChallenge;
  }

  lemma AuthenticationVerifyEffect(sys: Sys, cid: Id, cred: string, env: Env) returns (e: Effect)
    requires EnvOk(sys.store, env) && UsersOk(sys.store.accounts.users)
    ensures HasEffect(sys, AuthenticationVerifyStep(sys, cid, cred, env), e)
    ensures (e.Login? && e.amrMethod == WEBAUTHN) || e.Calm?
  {
    hide ConsumePasskeyChallenge, FindPasskeyByCredentialID, MarkPasskeyUsed, IssueWithMethod, HasEffect, Quiet;
    QuietRefl(sys.store);
    SpentCeremony(sys.store, cid, Authentication, env.clk(0));
    var r := AuthenticationVerifyStep(sys, cid, cred, env);
    var a := ConsumePasskeyChallenge(sys.store, cid, Authentication, env.clk(0));
    var pk := FindPasskeyByCredentialID(a.st, cred);
    if cid != "" && cred != "" && a.res.Ok? && pk.Some? && pk.value.userID in a.st.accounts.users {
      MarkedPasskey(a.st, pk.value.id, env.clk(1));
      var mid := MarkPasskeyUsed(a.st, pk.value.id, env.clk(1));
      QuietTrans(sys.store, a.st, mid);
      e := LoginEffect(sys, mid, mid.accounts.users[pk.value.userID], WEBAUTHN, env, 2, 0, r.ops);
    } else {
      e := Calm;
      IsCalm(sys, r);
    }
  }

  lemma PasskeyDeleteEffect(sys: Sys, bearer: Bearer, pid: Id, env: Env)
    ensures HasEffect(sys, PasskeyDeleteStep(sys, bearer, pid, env), Calm)
  {
    hide Quiet, DeletePasskey, RequireUser;
    QuietRefl(sys.store);
    var caller := RequireUser(sys, bearer, env.clk(0));
    if caller.Known? {
      QuietPasskey(sys.store, caller.user.id, "", "", 0, pid);
    }
  }

  // ---- identities and administration ------------------------------------------

  lemma UnlinkIdentityEffect(sys: Sys, bearer: Bearer, iid: Id, env: Env)
    ensures HasEffect(sys, UnlinkIdentityStep(sys, bearer, iid, env), Calm)
  {
    hide Quiet, HasEffect, RemoveIdentity, RequireUser, TrimSpace;
    QuietRefl(sys.store);
    var caller := RequireUser(sys, bearer, env.clk(0));
    if caller.Known? {
      QuietIdentity(sys.store, caller.user.id, "", map[], env.clk(1), TrimSpace(iid));
    }
    IsCalm(sys, UnlinkIdentityStep(sys, bearer, iid, env));
  }

  lemma {:induction false} SeedIdentitiesEffect(sys: Sys, mid: State, uid: Id, seeds: seq<Seed>, k: nat, env: Env)
    requires k <= |seeds| && Quiet(sys.store, mid)
    ensures HasEffect(sys, SeedIdentities(sys.(store := mid), uid, seeds, k, env), Calm)
    decreases |seeds| - k
  {
    hide Quiet, AddIdentity, TrimSpace;
    QuietRefl(sys.store);
    if k < |seeds| {
      var a := AddIdentity(mid, uid, TrimSpace(seeds[k].provider), seeds[k].data, env.clk(1 + k), env.uuid(2 + k));
      QuietIdentity(mid, uid, TrimSpace(seeds[k].provider), seeds[k].data, env.clk(1 + k), env.uuid(2 + k));
      QuietTrans(sys.store, mid, a.st);
      SeedIdentitiesEffect(sys, a.st, uid, seeds, k + 1, env);
    }
  }

  lemma SeedUserEffect(sys: Sys, email: string, password: string, seeds: seq<Seed>, env: Env)
    ensures HasEffect(sys, SeedUserStep(sys, email, password, seeds, env), Calm)
  {
    hide Quiet, CreateUser, TrimSpace;
    QuietRefl(sys.store);
    if env.hash(password).Some? {
      var a := CreateUser(sys.store, TrimSpace(email), env.hash(password).value, env.clk(0), env.uuid(0), env.uuid(1));
      QuietUser(sys.store, TrimSpace(email), env.hash(password).value, env.clk(0), env.uuid(0), env.uuid(1));
      if a.res.Ok? {
        SeedIdentitiesEffect(sys, a.st, a.res.value.id, seeds, 0, env);
      }
    }
  }

  lemma AdminDeleteUserEffect(sys: Sys, id: Id) returns (e: Effect)
    ensures HasEffect(sys, AdminDeleteUserStep(sys, id), e)
    ensures e == if id == "" then Calm else Erase(id)
  {
    e := if id == "" then Calm else Erase(id);
    hide DeleteUser;
  }

  // ---- every request ----------------------------------------------------------

  // Which request can have which effect. What is not named here is calm.
  ghost predicate EffectFits(sys: Sys, req: Request, env: Env, e: Effect) {
    && (e.Login? ==> LoginMethod(req) == Some(e.amrMethod))
    && (e.Login? && req.PkceGrant? ==> e.uid in sys.store.accounts.users)
    && (e.Rotate? <==> req.RefreshGrant? && req.token != "")
    && (e.Rotate? ==> e == Rotate(req.token, env.clk(0), env.uuid(0)))
    && (e.Raise? ==> req == VerifyFactorRequest(Jwt(e.caller), e.fid, e.cid))
    && (e.Cut? <==> req.Logout? && LoggedOut(sys, req).Some?)
    && (e.Cut? ==> e == Cut(req.bearer.claims, env.clk(0)) && LoggedOut(sys, req) == Some(e.caller.sid))
    && (e.Erase? <==> req.AdminDeleteUser? && req.id != "")
    && (e.Erase? ==> e == Erase(req.id))
    && (e.Wipe? <==> req.Reset?)
  }

  // The authentication method a request can log in with.
  function LoginMethod(req: Request): Option<string> {
    match req
    case Signup(_, _, _) => Some("password")
    case PasswordGrant(_, _) => Some("password")
    case PkceGrant(_) => Some("oauth")
    case PasskeyAuthenticationVerify(_, _) => Some(WEBAUTHN)
    case _ => None
  }

  // The session a logout request ends, if its token is accepted.
  ghost function LoggedOut(sys: Sys, req: Request): Option<Id>
    requires req.Logout?
  {
    if req.bearer.Jwt? && req.bearer.claims.iss == sys.issuer && req.bearer.claims.sid != ""
    then Some(req.bearer.claims.sid) else None
  }

  // Requests that never touch a session or a token.
  ghost predicate NeverTouchesSessions(req: Request) {
    req.Authorize? || req.EnrollFactorRequest? || req.ChallengeFactorRequest? || req.UnenrollFactorRequest?
    || req.PasskeyRegistrationOptions? || req.PasskeyRegistrationVerify? || req.PasskeyAuthenticationOptions?
    || req.PasskeyDelete? || req.UnlinkIdentity? || req.SeedUser?
  }

  lemma CalmRequest(sys: Sys, req: Request, env: Env)
    requires NeverTouchesSessions(req)
    ensures HasEffect(sys, Step(sys, req, env), Calm)
  {
    hide HasEffect;
    hide SignupStep, PasswordGrantStep, RefreshGrantStep, PkceGrantStep, AuthorizeStep, LogoutStep, EnrollFactorStep;
    hide ChallengeFactorStep, VerifyFactorStep, UnenrollFactorStep, RegistrationOptionsStep, RegistrationVerifyStep;
    hide AuthenticationOptionsStep, AuthenticationVerifyStep, PasskeyDeleteStep, UnlinkIdentityStep, SeedUserStep;
    hide AdminDeleteUserStep, ResetStep;
    match req
    case Authorize(provider, redirectTo, hint) => AuthorizeEffect(sys, provider, redirectTo, hint, env);
    case EnrollFactorRequest(bearer, ft, name) => EnrollFactorEffect(sys, bearer, ft, name, env);
    case ChallengeFactorRequest(bearer, fid) => ChallengeFactorEffect(sys, bearer, fid, env);
    case UnenrollFactorRequest(bearer, fid) => UnenrollFactorEffect(sys, bearer, fid, env);
    case PasskeyRegistrationOptions(bearer, name) => RegistrationOptionsEffect(sys, bearer, name, env);
    case PasskeyRegistrationVerify(bearer, cid, cred, name) => RegistrationVerifyEffect(sys, bearer, cid, cred,
        name, env);
    case PasskeyAuthenticationOptions => AuthenticationOptionsEffect(sys, env);
    case PasskeyDelete(bearer, pid) => PasskeyDeleteEffect(sys, bearer, pid, env);
    case UnlinkIdentity(bearer, iid) => UnlinkIdentityEffect(sys, bearer, iid, env);
    case SeedUser(email, password, seeds) => SeedUserEffect(sys, email, password, seeds, env);
  }

  lemma InvParts(s: State)
    requires Inv(s)
    ensures UsersOk(s.accounts.users) && Rotates(s.auth.refreshTokens, s.auth.parentToChild)
  {
  }

  lemma PossibleParts(sys: Sys, req: Request, env: Env)
    requires Possible(sys, req, env)
    ensures EnvOk(sys.store, env)
    ensures req.Logout? ==> BearerOk(sys, req.bearer)
    ensures req.VerifyFactorRequest? ==> BearerOk(sys, req.bearer)
  {
    hide EnvOk, BearerOk;
  }

  lemma EveryRequest(sys: Sys, req: Request, env: Env) returns (e: Effect)
    requires Inv(sys.store) && Possible(sys, req, env)
    ensures HasEffect(sys, Step(sys, req, env), e)
    ensures EffectFits(sys, req, env, e)
  {
    hide Inv, Possible, EnvOk, BearerOk, HasEffect, UsersOk, Rotates;
    hide SignupStep, PasswordGrantStep, RefreshGrantStep, PkceGrantStep, AuthorizeStep, LogoutStep, EnrollFactorStep;
    hide ChallengeFactorStep, VerifyFactorStep, UnenrollFactorStep, RegistrationOptionsStep, RegistrationVerifyStep;
    hide AuthenticationOptionsStep, AuthenticationVerifyStep, PasskeyDeleteStep, UnlinkIdentityStep, SeedUserStep;
    hide AdminDeleteUserStep, ResetStep;
    InvParts(sys.store);
    PossibleParts(sys, req, env);
    e := Calm;
    match req
    case Signup(email, password, data) => e := SignupEffect(sys, email, password, data, env);
    case PasswordGrant(email, password) => e := PasswordGrantEffect(sys, email, password, env);
    case RefreshGrant(token) => e := RefreshGrantEffect(sys, token, env);
    case PkceGrant(code) => e := PkceGrantEffect(sys, code, env);
    case Logout(bearer) => e := LogoutEffect(sys, bearer, env);
    case VerifyFactorRequest(bearer, fid, cid) => e := VerifyFactorEffect(sys, bearer, fid, cid, env);
    case PasskeyAuthenticationVerify(cid, cred) => e := AuthenticationVerifyEffect(sys, cid, cred, env);
    case AdminDeleteUser(id) => e := AdminDeleteUserEffect(sys, id);
    case Reset => e := ResetEffect(sys);
    case _ => CalmRequest(sys, req, env);
  }

  lemma ResetEffect(sys: Sys) returns (e: Effect)
    ensures HasEffect(sys, ResetStep(sys), e) && e == Wipe
  {
    e := Wipe;
  }
}

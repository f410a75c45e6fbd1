// The request handlers, each a sequence of store calls with early returns, proved to be one step of the
// service in Requests. What the outside world supplies during a request is in `env`.
module Handlers {
  import opened Text
  import opened Model
  import opened Listing
  import Ops
  import Invariant
  import Requests
  import opened Paging
  import opened Words
  import opened Stores
  import Sessions
  import R = Runs

  type Env = Requests.Env
  type Bearer = Requests.Bearer
  type Claims = Requests.Claims
  type Caller = Requests.Caller
  type Response = Requests.Response
  type TokenResponse = Requests.TokenResponse

  const DEFAULT_ISSUER := "http://127.0.0.1:54321/auth/v1"
  const DEFAULT_TTL := 3600 * SECOND

  class Server {
    const store: Store
    const issuer: string
    const ttl: int
    ghost var minted: set<Claims>

    constructor (store: Store, issuer: string, ttl: int)
      requires store.Valid()
      ensures this.store == store && store.Valid()
      ensures View() == Requests.Sys(store.View(), if issuer == "" then DEFAULT_ISSUER else issuer,
                                     if ttl == 0 then DEFAULT_TTL else ttl, {})
    {
      this.store := store;
      this.issuer := if issuer == "" then DEFAULT_ISSUER else issuer;
      this.ttl := if ttl == 0 then DEFAULT_TTL else ttl;
      minted := {};
    }

    ghost function View(): Requests.Sys
      reads this, store
    {
      Requests.Sys(store.View(), issuer, ttl, minted)
    }

    // The store is valid and the request's UUIDs from the k-th on are still unused.
    ghost predicate Ready(env: Env, k: nat)
      reads store
    {
      store.Valid() && R.FreshFrom(store.View(), env, k)
    }

    // ---- access tokens ----------------------------------------------------------

    method Build(u: User, sid: Id, refreshToken: Id, now: int) returns (tr: TokenResponse)
      modifies this`minted
      ensures tr == Requests.Build(View(), u, sid, refreshToken, now)
      ensures minted == old(minted) + {tr.claims}
    {
      var exp := now + ttl;
      var aal, amr := AAL1, [];
      var sess := store.GetSession(sid);
      if sess.Some? {
        aal, amr := sess.value.aal, sess.value.amr;
      }
      var c := Requests.Claims(u.id, issuer, u.aud, Unix(now), Unix(exp), u.role, u.email, sid,
                               u.appMetadata, u.userMetadata, aal, amr);
      minted := minted + {c};
      tr := Requests.TokenResponse(c, Seconds(ttl), Unix(exp), refreshToken, u);
    }

    method IssueWithMethod(ghost stored: User, u: User, amrMethod: string, env: Env, i: nat, j: nat)
      returns (resp: Response)
      requires Ready(env, j) && u == CloneUser(store.factors, stored)
      modifies this`minted, store`sessions, store`refreshTokens, store`used
      ensures store.Valid()
      ensures var r := Requests.IssueWithMethod(old(View()), stored, amrMethod, env, i, j);
              View() == r.sys && resp == r.resp
    {
      hide Invariant.Inv, Ops.IssueSession, FactorList;
      IssueKeepsFactors(store.View(), u.id, amrMethod, env.clk(i), env.clk(i + 1), env.uuid(j), env.uuid(j + 1));
      var out := store.IssueSessionWithMethod(u.id, amrMethod, env.clk(i), env.clk(i + 1), env.uuid(j),
          env.uuid(j + 1));
      if out.Err? {
        return Requests.Rejected(500, "");
      }
      var tr := Build(u, out.value.0.id, out.value.1.token, env.clk(i + 2));
      return Requests.Token(tr);
    }

    // ---- who is calling ---------------------------------------------------------

    method RequireUser(bearer: Bearer, now: int) returns (caller: Caller)
      requires store.Valid()
      ensures caller == match Requests.RequireUser(View(), bearer, now)
                        case Known(u, c) => Requests.Known(CloneUser(store.factors, u), c)
                        case Unknown(status, code) => Requests.Unknown(status, code)
    {
      hide Invariant.Inv, FactorList;
      if bearer.NoBearer? {
        return Requests.Unknown(401, "no_authorization");
      }
      if bearer.Garbage? || bearer.claims.iss != issuer
         || (bearer.claims.exp != 0 && now >= bearer.claims.exp * SECOND) {
        return Requests.Unknown(401, "bad_jwt");
      }
      var u := store.FindUserByID(bearer.claims.sub);
      if u.None? {
        return Requests.Unknown(401, "session_not_found");
      }
      return Requests.Known(u.value, bearer.claims);
    }

    // ---- sign-in ----------------------------------------------------------------

    method RefreshGrant(token: Id, env: Env) returns (resp: Response)
      requires Ready(env, 0)
      modifies this`minted, store`refreshTokens, store`parentToChild, store`used
      ensures store.Valid()
      ensures var r := Requests.RefreshGrantStep(old(View()), token, env); View() == r.sys && resp == r.resp
    {
      hide Invariant.Inv, Ops.ConsumeRefreshToken, FactorList;
      if token == "" {
        return Requests.Rejected(400, "invalid_grant");
      }
      ConsumeKeepsFactors(store.View(), token, env.clk(0), env.uuid(0));
      var out := store.ConsumeRefreshToken(token, env.clk(0), env.uuid(0));
      if out.Err? {
        return Requests.Rejected(400, "invalid_grant");
      }
      var (rt, u) := out.value;
      var tr := Build(u, rt.sessionID, rt.token, env.clk(1));
      return Requests.Token(tr);
    }

    // Stamp the sign-in, then issue a session; `status` and `code` answer a user deleted meanwhile.
    method SignIn(uid: Id, amrMethod: string, status: int, code: string, env: Env, i: nat) returns (resp: Response)
      requires Ready(env, 0)
      modifies this`minted, store
      ensures store.Valid()
      ensures var r := Requests.SignIn(old(View()), uid, amrMethod, status, code, env, i);
              View() == r.sys && resp == r.resp
    {
      hide Invariant.Inv, FactorList, R.FreshFrom, TrimSpace, Ops.UpdateLastSignIn, Requests.IssueWithMethod;
      StampFacts(store.View(), uid, env, i);
      var u := store.UpdateLastSignIn(uid, env.clk(i));
      if u.Err? {
        return Requests.Rejected(status, code);
      }
      ghost var stored := Ops.UpdateLastSignIn(old(store.View()), uid, env.clk(i)).res.value;
      resp := IssueWithMethod(stored, u.value, amrMethod, env, i + 1, 0);
    }

    method PasswordGrant(email: string, password: string, env: Env) returns (resp: Response)
      requires Ready(env, 0)
      modifies this`minted, store
      ensures store.Valid()
      ensures var r := Requests.PasswordGrantStep(old(View()), email, password, env); View() == r.sys && resp == r.resp
    {
      hide Invariant.Inv, FactorList, R.FreshFrom, TrimSpace, Ops.FindUserByEmail, Requests.SignIn;
      var address := TrimSpace(email);
      if address == "" || password == "" {
        return Requests.Rejected(400, "invalid_credentials");
      }
      var u := store.FindUserByEmail(address);
      if u.None? || !env.check(u.value.passwordHash, password) {
        return Requests.Rejected(400, "invalid_credentials");
      }
      resp := SignIn(u.value.id, "password", 400, "invalid_credentials", env, 0);
    }

    method PkceGrant(code: Id, env: Env) returns (resp: Response)
      requires Ready(env, 0)
      modifies this`minted, store
      ensures store.Valid()
      ensures var r := Requests.PkceGrantStep(old(View()), code, env); View() == r.sys && resp == r.resp
    {
      hide Invariant.Inv, FactorList, R.FreshFrom, TrimSpace, Ops.ConsumeAuthCode, Requests.SignIn;
      if TrimSpace(code) == "" {
        return Requests.Rejected(400, "invalid_request");
      }
      CodeFacts(store.View(), code, env);
      var ac := store.ConsumeAuthCode(code, env.clk(0));
      if ac.Err? {
        return Requests.Rejected(400, "invalid_grant");
      }
      resp := SignIn(ac.value.userID, "oauth", 400, "invalid_grant", env, 1);
    }

    method Signup(email: string, password: string, data: Meta, env: Env) returns (resp: Response)
      requires Ready(env, 0)
      modifies this`minted, store
      ensures store.Valid()
      ensures var r := Requests.SignupStep(old(View()), email, password, data, env); View() == r.sys && resp == r.resp
    {
      hide Invariant.Inv, FactorList, R.FreshFrom, TrimSpace, Ops.CreateUser, Requests.Welcome;
      var address := TrimSpace(email);
      if address == "" || password == "" {
        return Requests.Rejected(400, "");
      }
      if '@' !in address {
        return Requests.Rejected(400, "");
      }
      if ByteLength(password) < 6 {
        return Requests.Rejected(422, "");
      }
      var hash := env.hash(password);
      if hash.None? {
        return Requests.Rejected(500, "");
      }
      RegisterFacts(store.View(), address, hash.value, env);
      var u := store.CreateUser(address, hash.value, env.clk(0), env.uuid(0), env.uuid(1));
      if u.Err? {
        return Requests.Rejected(422, "");
      }
      ghost var stored := Ops.CreateUser(old(store.View()), address, hash.value, env.clk(0), env.uuid(0),
          env.uuid(1)).res.value;
      resp := Welcome(stored, u.value, data, env);
    }

    // The end of a signup: store the submitted metadata, if any, and log the new user in.
    method Welcome(ghost stored: User, u: User, data: Meta, env: Env) returns (resp: Response)
      requires Ready(env, 2) && u == CloneUser(store.factors, stored)
      modifies this`minted, store
      ensures store.Valid()
      ensures var r := Requests.Welcome(old(View()), stored, data, env); View() == r.sys && resp == r.resp
    {
      hide Invariant.Inv, FactorList, R.FreshFrom, TrimSpace, Ops.SetUserMetadata, Requests.IssueWithMethod;
      ghost var latest := stored;
      var user := u;
      if |data| > 0 {
        MetadataFacts(store.View(), u.id, data, env);
        ghost var out := Ops.SetUserMetadata(store.View(), u.id, data, env.clk(1));
        var updated := store.SetUserMetadata(u.id, data, env.clk(1));
        if updated.Ok? {
          user := updated.value;
          latest := out.res.value;
        }
      }
      resp := IssueWithMethod(latest, user, "password", env, 2, 2);
    }

    method Authorize(provider: string, redirectTo: string, hint: string, env: Env) returns (resp: Response)
      requires store.Valid() && Requests.EnvOk(store.View(), env)
      modifies store
      ensures store.Valid()
      ensures var r := Requests.AuthorizeStep(old(View()), provider, redirectTo, hint, env);
              View() == r.sys && resp == r.resp
    {
      hide Invariant.Inv, FactorList, TrimSpace, Requests.EnvOk, Ops.CreateOAuthUser, Ops.CreateAuthCode, Ops.Enabled;
      var p := TrimSpace(provider);
      if p == "" {
        return Requests.Rejected(422, "validation_failed");
      }
      var target := TrimSpace(redirectTo);
      if target == "" {
        return Requests.Rejected(422, "validation_failed");
      }
      if !env.isHttpURL(target) {
        return Requests.Rejected(400, "validation_failed");
      }
      OAuthFacts(store.View(), p, hint, env);
      var u := store.CreateOAuthUser(p, hint, env.clk(0), env.uuid(0), env.uuid(1), env.uuid(2), env.uuid(3));
      if u.Err? {
        return Requests.Rejected(500, "");
      }
      var ac := store.CreateAuthCode(u.value.id, env.clk(1), env.uuid(4));
      if ac.Err? {
        return Requests.Rejected(500, "");
      }
      return Requests.Done(ac.value.code);
    }

    method Logout(bearer: Bearer, env: Env) returns (resp: Response)
      requires store.Valid()
      modifies store
      ensures store.Valid()
      ensures var r := Requests.LogoutStep(old(View()), bearer, env); View() == r.sys && resp == r.resp
    {
      hide Invariant.Inv, Ops.RevokeRefreshTokensBySession;
      if bearer.Jwt? && bearer.claims.iss == issuer && bearer.claims.sid != "" {
        store.RevokeRefreshTokensBySession(bearer.claims.sid, env.clk(0));
      }
      return Requests.Done("");
    }

    // ---- MFA ----------------------------------------------------------------------

    method EnrollFactor(bearer: Bearer, factorType: string, name: string, env: Env) returns (resp: Response)
      requires Ready(env, 0)
      modifies store
      ensures store.Valid()
      ensures var r := Requests.EnrollFactorStep(old(View()), bearer, factorType, name, env);
              View() == r.sys && resp == r.resp
    {
      hide Invariant.Inv, FactorList, R.FreshFrom, TrimSpace, Requests.RequireUser, Ops.EnrollFactor;
      FreshHead(store.View(), env, 0);
      var caller := RequireUser(bearer, env.clk(0));
      if caller.Unknown? {
        return Requests.Rejected(caller.status, caller.code);
      }
      var ft := TrimSpace(factorType);
      if ft == "" {
        ft := Ops.WEBAUTHN;
      }
      if ft != Ops.WEBAUTHN {
        return Requests.Rejected(422, "mfa_factor_type_not_supported");
      }
      var f := store.EnrollFactor(caller.user.id, Ops.WEBAUTHN, TrimSpace(name), env.clk(1), env.uuid(0));
      resp := match f
        case Err(FactorNameConflict) => Requests.Rejected(422, "mfa_factor_name_conflict")
        case Err(_) => Requests.Rejected(401, "session_not_found")
        case Ok(factor) => Requests.Done(factor.id);
    }

    method ChallengeFactor(bearer: Bearer, fid: Id, env: Env) returns (resp: Response)
      requires Ready(env, 0)
      modifies store
      ensures store.Valid()
      ensures var r := Requests.ChallengeFactorStep(old(View()), bearer, fid, env); View() == r.sys && resp == r.resp
    {
      hide Invariant.Inv, FactorList, R.FreshFrom, TrimSpace, Requests.RequireUser, Ops.CreateChallenge;
      FreshHead(store.View(), env, 0);
      var caller := RequireUser(bearer, env.clk(0));
      if caller.Unknown? {
        return Requests.Rejected(caller.status, caller.code);
      }
      var f := store.GetFactor(fid);
      if f.None? || f.value.userID != caller.user.id {
        return Requests.Rejected(404, "mfa_factor_not_found");
      }
      var ch := store.CreateChallenge(fid, env.uuid(1), env.clk(1), env.uuid(0));
      if ch.Err? {
        return Requests.Rejected(404, "mfa_factor_not_found");
      }
      return Requests.Done(ch.value.id);
    }

    method VerifyFactor(bearer: Bearer, fid: Id, cid: Id, env: Env) returns (resp: Response)
      requires Ready(env, 0)
      modifies this`minted, store
      ensures store.Valid()
      ensures var r := Requests.VerifyFactorStep(old(View()), bearer, fid, cid, env); View() == r.sys && resp == r.resp
    {
      hide Invariant.Inv, FactorList, R.FreshFrom, TrimSpace, Requests.RequireUser, Requests.StepUp,
          Ops.ConsumeChallenge, Ops.VerifyFactor;
      var caller := RequireUser(bearer, env.clk(0));
      if caller.Unknown? {
        return Requests.Rejected(caller.status, caller.code);
      }
      var f := store.GetFactor(fid);
      if f.None? || f.value.userID != caller.user.id {
        return Requests.Rejected(404, "mfa_factor_not_found");
      }
      if cid == "" {
        return Requests.Rejected(422, "validation_failed");
      }
      ChallengeFacts(store.View(), fid, cid, env);
      var ch := store.ConsumeChallenge(fid, cid, env.clk(1));
      if ch.Err? {
        return if ch.error.ChallengeExpired? then Requests.Rejected(422, "mfa_challenge_expired")
               else Requests.Rejected(404, "mfa_challenge_not_found");
      }
      VerifyFacts(store.View(), fid, env);
      var v := store.VerifyFactor(fid, env.clk(2));
      if v.Err? {
        return Requests.Rejected(404, "mfa_factor_not_found");
      }
      resp := StepUp(caller.user.id, caller.claims.sid, env);
    }

    // Raise the caller's session to aal2 and issue another refresh token in it.
    method StepUp(uid: Id, sid: Id, env: Env) returns (resp: Response)
      requires Ready(env, 0)
      modifies this`minted, store
      ensures store.Valid()
      ensures var r := Requests.StepUp(old(View()), uid, sid, env); View() == r.sys && resp == r.resp
    {
      hide Invariant.Inv, FactorList, R.FreshFrom, TrimSpace, Ops.UpgradeSessionAAL, Ops.IssueRefreshToken;
      if sid == "" {
        return Requests.Rejected(401, "session_not_found");
      }
      UpgradeFacts(store.View(), sid, env);
      var up := store.UpgradeSessionAAL(sid, Ops.WEBAUTHN, env.clk(3));
      if up.Err? {
        return Requests.Rejected(401, "session_not_found");
      }
      FreshHead(store.View(), env, 0);
      var rt := store.IssueRefreshToken(uid, sid, env.clk(4), env.uuid(0));
      if rt.Err? {
        return Requests.Rejected(500, "");
      }
      var updated := store.FindUserByID(uid);
      if updated.None? {
        return Requests.Rejected(401, "session_not_found");
      }
      var tr := Build(updated.value, sid, rt.value.token, env.clk(5));
      return Requests.Token(tr);
    }

    method UnenrollFactor(bearer: Bearer, fid: Id, env: Env) returns (resp: Response)
      requires store.Valid()
      modifies store
      ensures store.Valid()
      ensures var r := Requests.UnenrollFactorStep(old(View()), bearer, fid, env); View() == r.sys && resp == r.resp
    {
      hide Invariant.Inv, FactorList, R.FreshFrom, TrimSpace, Requests.RequireUser, Ops.DeleteFactor;
      var caller := RequireUser(bearer, env.clk(0));
      if caller.Unknown? {
        return Requests.Rejected(caller.status, caller.code);
      }
      var d := store.DeleteFactor(caller.user.id, fid);
      if d.Err? {
        return Requests.Rejected(404, "mfa_factor_not_found");
      }
      return Requests.Done(fid);
    }

    // ---- passkeys -----------------------------------------------------------------

    method PasskeyRegistrationOptions(bearer: Bearer, name: string, env: Env) returns (resp: Response)
      requires Ready(env, 0)
      modifies store
      ensures store.Valid()
      ensures var r := Requests.RegistrationOptionsStep(old(View()), bearer, name, env);
              View() == r.sys && resp == r.resp
    {
      hide Invariant.Inv, FactorList, R.FreshFrom, TrimSpace, Requests.RequireUser, Ops.CreatePasskeyChallenge;
      FreshHead(store.View(), env, 0);
      var caller := RequireUser(bearer, env.clk(0));
      if caller.Unknown? {
        return Requests.Rejected(caller.status, caller.code);
      }
      var ch := store.CreatePasskeyChallenge(caller.user.id, Registration, TrimSpace(name), env.uuid(1), env.clk(1),
          env.uuid(0));
      if ch.Err? {
        return Requests.Rejected(401, "session_not_found");
      }
      return Requests.Done(ch.value.id);
    }

    method PasskeyRegistrationVerify(bearer: Bearer, cid: Id, cred: string, name: string, env: Env)
      returns (resp: Response)
      requires Ready(env, 0)
      modifies store
      ensures store.Valid()
      ensures var r := Requests.RegistrationVerifyStep(old(View()), bearer, cid, cred, name, env);
              View() == r.sys && resp == r.resp
    {
      hide Invariant.Inv, FactorList, R.FreshFrom, TrimSpace, Requests.RequireUser, Requests.FinishRegistration,
          Ops.ConsumePasskeyChallenge;
      var caller := RequireUser(bearer, env.clk(0));
      if caller.Unknown? {
        return Requests.Rejected(caller.status, caller.code);
      }
      if cid == "" || cred == "" {
        return Requests.Rejected(422, "validation_failed");
      }
      CeremonyFacts(store.View(), cid, Registration, env.clk(1), env);
      var ch := store.ConsumePasskeyChallenge(cid, Registration, env.clk(1));
      if ch.Err? {
        return CeremonyError(ch.error);
      }
      if ch.value.userID != caller.user.id {
        return Requests.Rejected(404, "passkey_challenge_not_found");
      }
      var friendly := TrimSpace(name);
      if friendly == "" {
        friendly := ch.value.friendlyName;
      }
      resp := FinishRegistration(caller.user.id, friendly, cred, env);
    }

    // The end of a registration: store the credential for the caller.
    method FinishRegistration(uid: Id, friendly: string, cred: string, env: Env) returns (resp: Response)
      requires Ready(env, 0)
      modifies store
      ensures store.Valid()
      ensures var r := Requests.FinishRegistration(old(View()), uid, friendly, cred, env);
              View() == r.sys && resp == r.resp
    {
      hide Invariant.Inv, R.FreshFrom, Ops.AddPasskey;
      FreshHead(store.View(), env, 0);
      var pk := store.AddPasskey(uid, friendly, cred, env.clk(2), env.uuid(0));
      resp := match pk
        case Err(PasskeyExists) => Requests.Rejected(422, "passkey_already_exists")
        case Err(_) => Requests.Rejected(401, "session_not_found")
        case Ok(passkey) => Requests.Done(passkey.id);
    }

    method PasskeyAuthenticationOptions(env: Env) returns (resp: Response)
      requires Ready(env, 0)
      modifies store
      ensures store.Valid()
      ensures var r := Requests.AuthenticationOptionsStep(old(View()), env); View() == r.sys && resp == r.resp
    {
      hide Invariant.Inv, FactorList, R.FreshFrom, TrimSpace, Ops.CreatePasskeyChallenge;
      FreshHead(store.View(), env, 0);
      var ch := store.CreatePasskeyChallenge("", Authentication, "", env.uuid(1), env.clk(0), env.uuid(0));
      if ch.Err? {
        return Requests.Rejected(500, "");
      }
      return Requests.Done(ch.value.id);
    }

    method PasskeyAuthenticationVerify(cid: Id, cred: string, env: Env) returns (resp: Response)
      requires Ready(env, 0)
      modifies this`minted, store
      ensures store.Valid()
      ensures var r := Requests.AuthenticationVerifyStep(old(View()), cid, cred, env); View() == r.sys && resp == r.resp
    {
      hide Invariant.Inv, FactorList, R.FreshFrom, TrimSpace, Requests.IssueWithMethod, Ops.ConsumePasskeyChallenge,
          Ops.FindPasskeyByCredentialID, Ops.MarkPasskeyUsed;
      if cid == "" || cred == "" {
        return Requests.Rejected(422, "validation_failed");
      }
      CeremonyFacts(store.View(), cid, Authentication, env.clk(0), env);
      var ch := store.ConsumePasskeyChallenge(cid, Authentication, env.clk(0));
      if ch.Err? {
        return CeremonyError(ch.error);
      }
      var pk := store.FindPasskeyByCredentialID(cred);
      if pk.None? {
        return Requests.Rejected(401, "invalid_credentials");
      }
      var u := store.FindUserByID(pk.value.userID);
      if u.None? {
        return Requests.Rejected(401, "invalid_credentials");
      }
      ghost var stored := store.users[pk.value.userID];
      MarkFacts(store.View(), pk.value.id, env);
      store.MarkPasskeyUsed(pk.value.id, env.clk(1));
      resp := IssueWithMethod(stored, u.value, Ops.WEBAUTHN, env, 2, 0);
    }

    method PasskeyDelete(bearer: Bearer, pid: Id, env: Env) returns (resp: Response)
      requires store.Valid()
      modifies store
      ensures store.Valid()
      ensures var r := Requests.PasskeyDeleteStep(old(View()), bearer, pid, env); View() == r.sys && resp == r.resp
    {
      hide Invariant.Inv, FactorList, R.FreshFrom, TrimSpace, Requests.RequireUser, Ops.DeletePasskey;
      var caller := RequireUser(bearer, env.clk(0));
      if caller.Unknown? {
        return Requests.Rejected(caller.status, caller.code);
      }
      var d := store.DeletePasskey(caller.user.id, pid);
      if d.Err? {
        return Requests.Rejected(404, "passkey_not_found");
      }
      return Requests.Done(pid);
    }

    // ---- identities and administration --------------------------------------------

    method UnlinkIdentity(bearer: Bearer, iid: Id, env: Env) returns (resp: Response)
      requires store.Valid()
      modifies store
      ensures store.Valid()
      ensures var r := Requests.UnlinkIdentityStep(old(View()), bearer, iid, env); View() == r.sys && resp == r.resp
    {
      hide Invariant.Inv, FactorList, R.FreshFrom, TrimSpace, Requests.RequireUser, Ops.RemoveIdentity;
      var caller := RequireUser(bearer, env.clk(0));
      if caller.Unknown? {
        return Requests.Rejected(caller.status, caller.code);
      }
      var row := TrimSpace(iid);
      if row == "" {
        return Requests.Rejected(422, "validation_failed");
      }
      var u := store.RemoveIdentity(caller.user.id, row, env.clk(1));
      resp := match u
        case Err(LastIdentity) => Requests.Rejected(422, "single_identity_not_deletable")
        case Err(IdentityNotFound) => Requests.Rejected(404, "identity_not_found")
        case Err(_) => Requests.Rejected(401, "session_not_found")
        case Ok(_) => Requests.Done("");
    }

    method SeedUser(email: string, password: string, seeds: seq<Requests.Seed>, env: Env) returns (resp: Response)
      requires Ready(env, 0)
      modifies store
      ensures store.Valid()
      ensures var r := Requests.SeedUserStep(old(View()), email, password, seeds, env);
              View() == r.sys && resp == r.resp
    {
      hide Invariant.Inv, FactorList, R.FreshFrom, TrimSpace, Ops.CreateUser, Ops.AddIdentity, Requests.SeedIdentities;
      var address := TrimSpace(email);
      if address == "" || password == "" {
        return Requests.Rejected(400, "");
      }
      var hash := env.hash(password);
      if hash.None? {
        return Requests.Rejected(500, "");
      }
      RegisterFacts(store.View(), address, hash.value, env);
      var u := store.CreateUser(address, hash.value, env.clk(0), env.uuid(0), env.uuid(1));
      if u.Err? {
        return Requests.Rejected(409, "");
      }
      ghost var r := Requests.SeedIdentities(View(), u.value.id, seeds, 0, env);
      for k := 0 to |seeds|
        invariant Ready(env, 2 + k) && minted == old(minted)
        invariant var rest := Requests.SeedIdentities(View(), u.value.id, seeds, k, env);
                  rest.sys == r.sys && rest.resp == r.resp
      {
        SeedStep(View(), u.value.id, seeds, k, env);
        var provider := TrimSpace(seeds[k].provider);
        if provider == "" {
          return Requests.Rejected(400, "");
        }
        SeedFacts(store.View(), u.value.id, provider, seeds[k].data, k, env);
        var linked := store.AddIdentity(u.value.id, provider, seeds[k].data, env.clk(1 + k), env.uuid(2 + k));
        match linked {
          case Err(IdentityExists) => return Requests.Rejected(409, "");
          case Err(_) => return Requests.Rejected(500, "");
          case Ok(_) =>
        }
      }
      SeedEnd(View(), u.value.id, seeds, env);
      return Requests.Done(u.value.id);
    }

    method AdminDeleteUser(id: Id) returns (resp: Response)
      requires store.Valid()
      modifies store
      ensures store.Valid()
      ensures var r := Requests.AdminDeleteUserStep(old(View()), id); View() == r.sys && resp == r.resp
    {
      hide Invariant.Inv, Ops.DeleteUser;
      if id == "" {
        return Requests.Rejected(400, "");
      }
      var d := store.DeleteUser(id);
      if d.Err? {
        return Requests.Rejected(404, "");
      }
      return Requests.Done("");
    }

    method Reset() returns (resp: Response)
      requires store.Valid()
      modifies store
      ensures store.Valid()
      ensures var r := Requests.ResetStep(old(View())); View() == r.sys && resp == r.resp
    {
      hide Invariant.Inv;
      store.Reset();
      return Requests.Done("");
    }

    // A page of users, their number, and the page numbers of the next and last links.
    method AdminListUsers(page: int, perPage: int)
      returns (listed: seq<User>, total: int, next: Option<int>, last: int, ghost scan: seq<User>)
      requires store.Valid() && |store.users| < TWO63 && Int64(page) && Int64(perPage)
      ensures total == |store.users|
      ensures Enumerates(scan, store.users.Values) && |scan| == total
      ensures listed == CloneAll(store.factors,
                          Slice(Sort(USER_LESS, scan), Offset(PageOrDefault(page), PerPageOrDefault(perPage)),
                                PerPageOrDefault(perPage)))
      ensures next == NextPage(PageOrDefault(page), PerPageOrDefault(perPage), total)
      ensures last == LastPage(total, PerPageOrDefault(perPage))
    {
      hide Invariant.Inv, Sort, Slice, CloneAll;
      var p := page;
      if p <= 0 {
        p := 1;
      }
      var per := perPage;
      if per <= 0 {
        per := 50;
      }
      listed, total, scan := store.ListUsers(Wrap(Wrap(p - 1) * per), per);
      last := Quot(Wrap(Wrap(total + per) - 1), per);
      if last < 1 {
        last := 1;
      }
      next := if p < last then Some(Wrap(p + 1)) else None;
    }

    // ---- every request ------------------------------------------------------------

    // Whatever the request, the handlers perform the service's step, and the service stays good.
    method Handle(req: Requests.Request, env: Env) returns (resp: Response)
      requires Sessions.Good(View()) && Requests.Possible(View(), req, env)
      modifies this`minted, store
      ensures var r := Requests.Step(old(View()), req, env); View() == r.sys && resp == r.resp
      ensures Sessions.Good(View())
    {
      hide Invariant.Inv, Sessions.Good, Requests.EnvOk, R.FreshFrom, Requests.Step;
      MayHandle(View(), req, env);
      if NeedsBearer(req) {
        resp := HandleBearer(req, env);
      } else {
        resp := HandleOpen(req, env);
      }
    }

    method HandleBearer(req: Requests.Request, env: Env) returns (resp: Response)
      requires Ready(env, 0) && NeedsBearer(req)
      modifies this`minted, store
      ensures var r := Requests.Step(old(View()), req, env); View() == r.sys && resp == r.resp
    {
      hide Invariant.Inv, Sessions.Good, Requests.EnvOk, R.FreshFrom;
      hide Requests.SignupStep, Requests.PasswordGrantStep, Requests.RefreshGrantStep, Requests.PkceGrantStep;
      hide Requests.AuthorizeStep, Requests.LogoutStep, Requests.EnrollFactorStep, Requests.ChallengeFactorStep;
      hide Requests.VerifyFactorStep, Requests.UnenrollFactorStep, Requests.RegistrationOptionsStep;
      hide Requests.RegistrationVerifyStep, Requests.AuthenticationOptionsStep, Requests.AuthenticationVerifyStep;
      hide Requests.PasskeyDeleteStep, Requests.UnlinkIdentityStep, Requests.SeedUserStep;
      hide Requests.AdminDeleteUserStep, Requests.ResetStep;
      match req
      case EnrollFactorRequest(bearer, ft, name) => resp := EnrollFactor(bearer, ft, name, env);
      case ChallengeFactorRequest(bearer, fid) => resp := ChallengeFactor(bearer, fid, env);
      case VerifyFactorRequest(bearer, fid, cid) => resp := VerifyFactor(bearer, fid, cid, env);
      case UnenrollFactorRequest(bearer, fid) => resp := UnenrollFactor(bearer, fid, env);
      case PasskeyRegistrationOptions(bearer, name) => resp := PasskeyRegistrationOptions(bearer, name, env);
      case PasskeyRegistrationVerify(bearer, cid, cred, name) =>
        resp := PasskeyRegistrationVerify(bearer, cid, cred, name, env);
      case PasskeyDelete(bearer, pid) => resp := PasskeyDelete(bearer, pid, env);
      case UnlinkIdentity(bearer, iid) => resp := UnlinkIdentity(bearer, iid, env);
    }

    method HandleOpen(req: Requests.Request, env: Env) returns (resp: Response)
      requires Ready(env, 0) && Requests.EnvOk(store.View(), env) && !NeedsBearer(req)
      modifies this`minted, store
      ensures var r := Requests.Step(old(View()), req, env); View() == r.sys && resp == r.resp
    {
      hide Invariant.Inv, Sessions.Good, Requests.EnvOk, R.FreshFrom;
      hide Requests.SignupStep, Requests.PasswordGrantStep, Requests.RefreshGrantStep, Requests.PkceGrantStep;
      hide Requests.AuthorizeStep, Requests.LogoutStep, Requests.EnrollFactorStep, Requests.ChallengeFactorStep;
      hide Requests.VerifyFactorStep, Requests.UnenrollFactorStep, Requests.RegistrationOptionsStep;
      hide Requests.RegistrationVerifyStep, Requests.AuthenticationOptionsStep, Requests.AuthenticationVerifyStep;
      hide Requests.PasskeyDeleteStep, Requests.UnlinkIdentityStep, Requests.SeedUserStep;
      hide Requests.AdminDeleteUserStep, Requests.ResetStep;
      match req
      case Signup(email, password, data) => resp := Signup(email, password, data, env);
      case PasswordGrant(email, password) => resp := PasswordGrant(email, password, env);
      case RefreshGrant(token) => resp := RefreshGrant(token, env);
      case PkceGrant(code) => resp := PkceGrant(code, env);
      case Authorize(provider, redirectTo, hint) => resp := Authorize(provider, redirectTo, hint, env);
      case Logout(bearer) => resp := Logout(bearer, env);
      case PasskeyAuthenticationOptions => resp := PasskeyAuthenticationOptions(env);
      case PasskeyAuthenticationVerify(cid, cred) => resp := PasskeyAuthenticationVerify(cid, cred, env);
      case SeedUser(email, password, seeds) => resp := SeedUser(email, password, seeds, env);
      case AdminDeleteUser(id) => resp := AdminDeleteUser(id);
      case Reset => resp := Reset();
    }
  }

  // Requests refused unless an access token names an existing user.
  predicate NeedsBearer(req: Requests.Request) {
    req.EnrollFactorRequest? || req.ChallengeFactorRequest? || req.VerifyFactorRequest? || req.UnenrollFactorRequest?
    || req.PasskeyRegistrationOptions? || req.PasskeyRegistrationVerify? || req.PasskeyDelete? || req.UnlinkIdentity?
  }

  lemma MayHandle(sys: Requests.Sys, req: Requests.Request, env: Env)
    requires Sessions.Good(sys) && Requests.Possible(sys, req, env)
    ensures Invariant.Inv(sys.store) && Requests.EnvOk(sys.store, env) && R.FreshFrom(sys.store, env, 0)
    ensures Sessions.Good(Requests.Step(sys, req, env).sys)
  {
    Sessions.GoodInv(sys);
    R.EnvFresh(sys.store, env);
    var e := Sessions.StepGood(sys, req, env);
    hide Invariant.Inv, Sessions.Good, Requests.EnvOk, Requests.Step, R.FreshFrom;
  }

  // How a failed passkey ceremony is answered.
  function CeremonyError(e: Error): Response {
    if e.PasskeyChallengeExpired? then Requests.Rejected(422, "passkey_challenge_expired")
    else Requests.Rejected(404, "passkey_challenge_not_found")
  }

  // ---- UUIDs stay fresh, factors stay as they are --------------------------------

  lemma FreshHead(s: State, env: Env, k: nat)
    requires R.FreshFrom(s, env, k)
    ensures Fresh(s, env.uuid(k))
  {
  }

  lemma SameFresh(s: State, t: State, env: Env, k: nat)
    requires R.FreshFrom(s, env, k) && t.ids == s.ids
    ensures R.FreshFrom(t, env, k)
  {
  }

  lemma StampFacts(s: State, uid: Id, env: Env, i: nat)
    requires R.FreshFrom(s, env, 0)
    ensures R.FreshFrom(Ops.UpdateLastSignIn(s, uid, env.clk(i)).st, env, 0)
    ensures Ops.UpdateLastSignIn(s, uid, env.clk(i)).st.mfa == s.mfa
  {
    SameFresh(s, Ops.UpdateLastSignIn(s, uid, env.clk(i)).st, env, 0);
    hide R.FreshFrom;
  }

  lemma CodeFacts(s: State, code: Id, env: Env)
    requires R.FreshFrom(s, env, 0)
    ensures R.FreshFrom(Ops.ConsumeAuthCode(s, code, env.clk(0)).st, env, 0)
  {
    SameFresh(s, Ops.ConsumeAuthCode(s, code, env.clk(0)).st, env, 0);
    hide R.FreshFrom;
  }

  lemma RegisterFacts(s: State, email: string, hash: seq<bv8>, env: Env)
    requires R.FreshFrom(s, env, 0)
    ensures Fresh(s, env.uuid(0)) && Fresh(s, env.uuid(1)) && env.uuid(0) != env.uuid(1)
    ensures R.FreshFrom(Ops.CreateUser(s, email, hash, env.clk(0), env.uuid(0), env.uuid(1)).st, env, 2)
    ensures Ops.CreateUser(s, email, hash, env.clk(0), env.uuid(0), env.uuid(1)).st.mfa == s.mfa
  {
    R.UsedByCreateUser(s, email, hash, env.clk(0), env.uuid(0), env.uuid(1));
    R.FreshAfter(s, Ops.CreateUser(s, email, hash, env.clk(0), env.uuid(0), env.uuid(1)).st, env, 0, 2);
    hide Ops.EmailUser, Lower;
  }

  lemma MetadataFacts(s: State, uid: Id, data: Meta, env: Env)
    requires R.FreshFrom(s, env, 2)
    ensures R.FreshFrom(Ops.SetUserMetadata(s, uid, data, env.clk(1)).st, env, 2)
    ensures Ops.SetUserMetadata(s, uid, data, env.clk(1)).st.mfa == s.mfa
    ensures Ops.SetUserMetadata(s, uid, data, env.clk(1)).res.Err?
            ==> Ops.SetUserMetadata(s, uid, data, env.clk(1)).st == s
  {
    SameFresh(s, Ops.SetUserMetadata(s, uid, data, env.clk(1)).st, env, 2);
    hide R.FreshFrom;
  }

  lemma OAuthFacts(s: State, provider: string, hint: string, env: Env)
    requires Requests.EnvOk(s, env)
    ensures Ops.Enabled(s, Ops.OpCreateOAuthUser(provider, hint, env.clk(0), env.uuid(0), env.uuid(1), env.uuid(2),
                                                 env.uuid(3)))
    ensures Fresh(Ops.CreateOAuthUser(s, provider, hint, env.clk(0), env.uuid(0), env.uuid(1), env.uuid(2),
                                      env.uuid(3)).st, env.uuid(4))
  {
    R.UsedByOAuth(s, provider, hint, env.clk(0), env.uuid(0), env.uuid(1), env.uuid(2), env.uuid(3));
    hide Ops.CreateOAuthUser, Ops.Synthesized;
  }

  lemma ChallengeFacts(s: State, fid: Id, cid: Id, env: Env)
    requires R.FreshFrom(s, env, 0)
    ensures R.FreshFrom(Ops.ConsumeChallenge(s, fid, cid, env.clk(1)).st, env, 0)
  {
    SameFresh(s, Ops.ConsumeChallenge(s, fid, cid, env.clk(1)).st, env, 0);
    hide R.FreshFrom;
  }

  lemma VerifyFacts(s: State, fid: Id, env: Env)
    requires R.FreshFrom(s, env, 0)
    ensures R.FreshFrom(Ops.VerifyFactor(s, fid, env.clk(2)).st, env, 0)
  {
    SameFresh(s, Ops.VerifyFactor(s, fid, env.clk(2)).st, env, 0);
    hide R.FreshFrom;
  }

  lemma UpgradeFacts(s: State, sid: Id, env: Env)
    requires R.FreshFrom(s, env, 0)
    ensures R.FreshFrom(Ops.UpgradeSessionAAL(s, sid, Ops.WEBAUTHN, env.clk(3)).st, env, 0)
  {
    R.UpgradeSameIds(s, sid, Ops.WEBAUTHN, env.clk(3));
    SameFresh(s, Ops.UpgradeSessionAAL(s, sid, Ops.WEBAUTHN, env.clk(3)).st, env, 0);
    hide R.FreshFrom, Ops.UpgradeSessionAAL;
  }

  lemma CeremonyFacts(s: State, cid: Id, purpose: Purpose, now: int, env: Env)
    requires R.FreshFrom(s, env, 0)
    ensures R.FreshFrom(Ops.ConsumePasskeyChallenge(s, cid, purpose, now).st, env, 0)
  {
    SameFresh(s, Ops.ConsumePasskeyChallenge(s, cid, purpose, now).st, env, 0);
    hide R.FreshFrom;
  }

  lemma MarkFacts(s: State, pid: Id, env: Env)
    requires R.FreshFrom(s, env, 0)
    ensures R.FreshFrom(Ops.MarkPasskeyUsed(s, pid, env.clk(1)), env, 0)
    ensures Ops.MarkPasskeyUsed(s, pid, env.clk(1)).mfa == s.mfa
  {
    SameFresh(s, Ops.MarkPasskeyUsed(s, pid, env.clk(1)), env, 0);
    hide R.FreshFrom;
  }

  lemma SeedFacts(s: State, uid: Id, provider: string, data: Meta, k: nat, env: Env)
    requires R.FreshFrom(s, env, 2 + k)
    ensures Fresh(s, env.uuid(2 + k))
    ensures R.FreshFrom(Ops.AddIdentity(s, uid, provider, data, env.clk(1 + k), env.uuid(2 + k)).st, env, 2 + (k + 1))
  {
    R.UsedByAddIdentity(s, uid, provider, data, env.clk(1 + k), env.uuid(2 + k));
    R.FreshAfter(s, Ops.AddIdentity(s, uid, provider, data, env.clk(1 + k), env.uuid(2 + k)).st, env, 2 + k,
        2 + (k + 1));
    hide Ops.AddIdentity;
  }

  // One round of the seeding loop.
  lemma SeedStep(sys: Requests.Sys, uid: Id, seeds: seq<Requests.Seed>, k: nat, env: Env)
    requires k < |seeds|
    ensures var r := Requests.SeedIdentities(sys, uid, seeds, k, env);
            var provider := TrimSpace(seeds[k].provider);
            var out := Ops.AddIdentity(sys.store, uid, provider, seeds[k].data, env.clk(1 + k), env.uuid(2 + k));
            var sys' := sys.(store := out.st);
            if provider == "" then r.sys == sys && r.resp == Requests.Rejected(400, "")
            else match out.res
              case Err(IdentityExists) => r.sys == sys' && r.resp == Requests.Rejected(409, "")
              case Err(_) => r.sys == sys' && r.resp == Requests.Rejected(500, "")
              case Ok(_) =>
                var rest := Requests.SeedIdentities(sys', uid, seeds, k + 1, env);
                r.sys == rest.sys && r.resp == rest.resp
  {
    hide Ops.AddIdentity, TrimSpace;
  }

  lemma SeedEnd(sys: Requests.Sys, uid: Id, seeds: seq<Requests.Seed>, env: Env)
    ensures var r := Requests.SeedIdentities(sys, uid, seeds, |seeds|, env);
            r.sys == sys && r.resp == Requests.Done(uid)
  {
  }

  lemma IssueKeepsFactors(s: State, uid: Id, m: string, now: int, now': int, sid: Id, tok: Id)
    ensures Ops.IssueSession(s, uid, m, now, now', sid, tok).st.mfa == s.mfa
    ensures Ops.IssueSession(s, uid, m, now, now', sid, tok).res.Err?
            ==> Ops.IssueSession(s, uid, m, now, now', sid, tok).st == s
  {
  }

  lemma ConsumeKeepsFactors(s: State, token: Id, now: int, next: Id)
    ensures Ops.ConsumeRefreshToken(s, token, now, next).st.mfa == s.mfa
  {
    hide Ops.FindLatestChild;
  }
}

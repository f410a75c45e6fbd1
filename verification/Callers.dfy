// Who a bearer token speaks for, from the request that minted it to the requests that present it.
module Callers {
  import opened Text
  import opened Model
  import opened Ops
  import opened Integrity
  import opened Invariant
  import opened Requests

  // ---- presenting a token -------------------------------------------------------

  // The claims carry an expiry, and it has come.
  predicate Expired(c: Claims, now: int) {
    c.exp != 0 && now >= c.exp * SECOND
  }

  // The bearer is a token of this issuer in its time, and its subject is the stored user.
  ghost predicate Speaks(sys: Sys, bearer: Bearer, now: int, uid: Id) {
    && bearer.Jwt? && bearer.claims.iss == sys.issuer && bearer.claims.sub == uid
    && !Expired(bearer.claims, now)
    && uid in sys.store.accounts.users
  }

  // The user a token names; nobody without a token.
  function Subject(bearer: Bearer): Id {
    if bearer.Jwt? then bearer.claims.sub else ""
  }

  // The requests that need a caller: all that carry a bearer token, but logout.
  predicate NeedsCaller(req: Request) {
    req.EnrollFactorRequest? || req.ChallengeFactorRequest? || req.VerifyFactorRequest? || req.UnenrollFactorRequest?
    || req.PasskeyRegistrationOptions? || req.PasskeyRegistrationVerify? || req.PasskeyDelete? || req.UnlinkIdentity?
  }

  // What is wrong with the bearer, if something is.
  ghost function Refusal(sys: Sys, bearer: Bearer, now: int): Option<string> {
    if bearer.NoBearer? then Some("no_authorization")
    else if bearer.Garbage? || bearer.claims.iss != sys.issuer || Expired(bearer.claims, now) then Some("bad_jwt")
    else if bearer.claims.sub !in sys.store.accounts.users then Some("session_not_found")
    else None
  }

  // The caller a handler knows is the user the bearer speaks for.
  lemma KnownCaller(sys: Sys, bearer: Bearer, now: int)
    requires Inv(sys.store)
    ensures var caller := RequireUser(sys, bearer, now);
            var uid := Subject(bearer);
            && (caller.Known? <==> Speaks(sys, bearer, now, uid))
            && (caller.Known? ==> uid in sys.store.accounts.users && caller.user == sys.store.accounts.users[uid]
                                  && caller.user.id == uid && uid != "" && caller.claims == bearer.claims)
            && (Refusal(sys, bearer, now).None? <==> Speaks(sys, bearer, now, uid))
            && (caller.Unknown? ==> Refusal(sys, bearer, now) == Some(caller.code) && caller.status == 401)
  {
    assert UsersOk(sys.store.accounts.users) && sys.store.accounts.users.Keys <= sys.store.ids.used;
    assert "" !in sys.store.ids.used;
    hide Inv;
  }

  lemma CallerRefused(sys: Sys, bearer: Bearer, now: int)
    ensures var caller := RequireUser(sys, bearer, now);
            match Refusal(sys, bearer, now)
            case Some(code) => caller == Unknown(401, code)
            case None => caller.Known?
  {
  }

  lemma BearerRefused(sys: Sys, req: Request, env: Env)
    requires NeedsCaller(req) && Refusal(sys, BearerOf(req), env.clk(0)).Some?
    ensures Step(sys, req, env) ==
              Reply(sys, Rejected(401, Refusal(sys, BearerOf(req), env.clk(0)).value), [])
  {
    CallerRefused(sys, BearerOf(req), env.clk(0));
    hide RequireUser, Refusal, TrimSpace;
    hide EnrollFactor, CreateChallenge, ConsumeChallenge, VerifyFactor, StepUp, DeleteFactor, CreatePasskeyChallenge;
    hide ConsumePasskeyChallenge, FinishRegistration, RefuseCeremony, DeletePasskey, RemoveIdentity;
    hide SignupStep, PasswordGrantStep, RefreshGrantStep, PkceGrantStep, AuthorizeStep, LogoutStep;
    hide AuthenticationOptionsStep, AuthenticationVerifyStep, SeedUserStep, AdminDeleteUserStep, ResetStep;
  }

  lemma LogoutIs(sys: Sys, bearer: Bearer, env: Env)
    ensures Step(sys, Logout(bearer), env) == LogoutStep(sys, bearer, env)
    ensures Step(sys, Reset, env) == ResetStep(sys)
  {
    hide LogoutStep, ResetStep;
  }

  // Logout is always answered the same. It needs a token of this issuer that names a session, but no time and no
  // user; without one it changes nothing.
  lemma LogoutAnswered(sys: Sys, bearer: Bearer, env: Env)
    ensures var r := Step(sys, Logout(bearer), env);
            && r.resp == Done("")
            && r.sys == if bearer.Jwt? && bearer.claims.iss == sys.issuer && bearer.claims.sid != ""
                        then sys.(store := RevokeRefreshTokensBySession(sys.store, bearer.claims.sid, env.clk(0)))
                        else sys
  {
    hide Step, RevokeRefreshTokensBySession;
    LogoutIs(sys, bearer, env);
  }
}

// How long an access token is good for: from the clock reading that minted it until its lifetime is over or
// its user is gone.
module Lifetimes {
  import opened Text
  import opened Model
  import opened Ops
  import opened Invariant
  import opened Requests
  import opened Effects
  import opened Sessions
  import opened Answers
  import opened Callers
  import opened SignIns
  import opened Registrations
  import opened Factors
  import opened Passkeys

  // ---- minting ------------------------------------------------------------------

  lemma GrantShows(sys: Sys, req: Request, env: Env)
    requires Inv(sys.store) && (req.PasswordGrant? || req.RefreshGrant? || req.PkceGrant?)
    ensures var r := Step(sys, req, env); r.resp.Token? ==> Shows(sys, r, env.clk(MintClock(req)))
  {
    hide Inv, Step, Shows, TrimSpace, Lower, SignedIn, PasswordChecks, CodeChecks, ConsumeRefreshToken, SameRecords;
    match req
    case PasswordGrant(email, password) => PasswordSignsIn(sys, email, password, env);
    case RefreshGrant(token) => RefreshSignsIn(sys, token, env);
    case PkceGrant(code) => CodeSignsIn(sys, code, env);
  }

  lemma OtherShows(sys: Sys, req: Request, env: Env)
    requires Inv(sys.store) && EnvOk(sys.store, env)
    requires req.Signup? || req.VerifyFactorRequest? || req.PasskeyAuthenticationVerify?
    ensures var r := Step(sys, req, env); r.resp.Token? ==> Shows(sys, r, env.clk(MintClock(req)))
  {
    hide Inv, EnvOk, Step, Shows, TrimSpace, Lower, SignupAccepted, Added, FreshLogin, VerifyChecks, VerifiedNow;
    hide PasskeyChecks, Presented;
    match req
    case Signup(email, password, data) => SignupRegisters(sys, email, password, data, env);
    case VerifyFactorRequest(bearer, fid, cid) => VerifyAnswered(sys, bearer, fid, cid, env);
    case PasskeyAuthenticationVerify(cid, cred) =>
      var pid := PasskeySignsIn(sys, cid, cred, env);
  }

  // Every answer with tokens shows the stored user, and was minted at one of the request's clock readings.
  lemma AnswerShows(sys: Sys, req: Request, env: Env)
    requires Inv(sys.store) && Possible(sys, req, env)
    ensures var r := Step(sys, req, env); r.resp.Token? ==> Shows(sys, r, env.clk(MintClock(req)))
  {
    hide Inv, Step, EnvOk, BearerOk, Shows, HasEffect, MintClock;
    if req.PasswordGrant? || req.RefreshGrant? || req.PkceGrant? {
      GrantShows(sys, req, env);
    } else if req.Signup? || req.VerifyFactorRequest? || req.PasskeyAuthenticationVerify? {
      OtherShows(sys, req, env);
    } else {
      var e := EveryRequest(sys, req, env);
      SilentNoToken(sys, Step(sys, req, env), e);
    }
  }

  // The issuer and the lifetime are constants of the service.
  lemma StepKeepsService(sys: Sys, req: Request, env: Env)
    requires Inv(sys.store) && Possible(sys, req, env)
    ensures var t := Step(sys, req, env).sys; t.issuer == sys.issuer && t.ttl == sys.ttl
  {
    hide Inv, Step, EnvOk, BearerOk, EffectFits, IssueSession, IssueRefreshToken, UpgradeSessionAAL, Quiet;
    hide ConsumeRefreshToken, RevokeRefreshTokensBySession, DeleteUser, SessionAAL, SessionAMR;
    var e := EveryRequest(sys, req, env);
  }

  lemma {:induction false} ServeKeepsService(sys: Sys, evs: seq<Event>)
    requires Inv(sys.store) && Served(sys, evs)
    ensures Serve(sys, evs).issuer == sys.issuer && Serve(sys, evs).ttl == sys.ttl
  {
    hide Inv, Step, EnvOk, BearerOk;
    if evs != [] {
      var n := |evs| - 1;
      ServeInv(sys, evs[..n]);
      ServeKeepsService(sys, evs[..n]);
      StepKeepsService(Serve(sys, evs[..n]), evs[n].req, evs[n].env);
    }
  }

  // ---- using --------------------------------------------------------------------

  // A request whose bearer speaks for a stored user is not refused on account of the bearer. It can still be told
  // that its session is gone, at the end of a verification, which has then spent a challenge.
  lemma CallerServed(sys: Sys, req: Request, env: Env)
    requires Inv(sys.store) && EnvOk(sys.store, env) && NeedsCaller(req)
    requires Speaks(sys, BearerOf(req), env.clk(0), Subject(BearerOf(req)))
    ensures var r := Step(sys, req, env);
            && r.resp != Rejected(401, "bad_jwt") && r.resp != Rejected(401, "no_authorization")
            && !(r.resp == Rejected(401, "session_not_found") && r.sys == sys)
  {
    hide Inv, Step, EnvOk, Speaks, Shows, TrimSpace, EnrollAccepted, Presented, CeremonyMade, CeremonyOpen;
    hide RegistrationChecks, PasskeyAdded, SameLogin;
    match req
    case EnrollFactorRequest(bearer, ft, name) => EnrollAnswered(sys, bearer, ft, name, env);
    case ChallengeFactorRequest(bearer, fid) => ChallengeAnswered(sys, bearer, fid, env);
    case VerifyFactorRequest(bearer, fid, cid) =>
      VerifyAnswered(sys, bearer, fid, cid, env);
      if !Step(sys, req, env).resp.Token? {
        VerifyRefused(sys, bearer, fid, cid, env);
      }
    case UnenrollFactorRequest(bearer, fid) => UnenrollAnswered(sys, bearer, fid, env);
    case PasskeyRegistrationOptions(bearer, name) => RegistrationStarts(sys, bearer, name, env);
    case PasskeyRegistrationVerify(bearer, cid, cred, name) =>
      if !Step(sys, req, env).resp.Done? {
        RegistrationRefused(sys, bearer, cid, cred, name, env);
      }
    case PasskeyDelete(bearer, pid) => PasskeyDeleted(sys, bearer, pid, env);
    case UnlinkIdentity(bearer, iid) => var n := UnlinkAnswered(sys, bearer, iid, env);
  }

  // Without a token, with a signature that does not check, or with another issuer, a request that needs a caller
  // changes nothing.
  lemma NoCallerNoChange(sys: Sys, req: Request, env: Env)
    requires NeedsCaller(req)
    ensures var b, r := BearerOf(req), Step(sys, req, env);
            && (b.NoBearer? ==> r.resp == Rejected(401, "no_authorization") && r.sys == sys)
            && (b.Garbage? || (b.Jwt? && b.claims.iss != sys.issuer) ==>
                  r.resp == Rejected(401, "bad_jwt") && r.sys == sys)
  {
    hide Step;
    if Refusal(sys, BearerOf(req), env.clk(0)).Some? {
      BearerRefused(sys, req, env);
    }
  }

  // An access token minted at `t` expires with the whole second its lifetime ends in.
  lemma ExpiresAt(sys: Sys, req: Request, env: Env, now: int)
    requires Inv(sys.store) && Possible(sys, req, env) && Step(sys, req, env).resp.Token?
    ensures var c := Step(sys, req, env).resp.tr.claims;
            var end := (env.clk(MintClock(req)) + sys.ttl) / SECOND * SECOND;
            c.iss == sys.issuer && (Expired(c, now) <==> end != 0 && now >= end)
  {
    hide Inv, Step, Possible, StoredUser, MintClock;
    AnswerShows(sys, req, env);
  }

  // A token presented to a later request of a run: `bad_jwt`, with nothing changed, exactly from the moment its
  // lifetime is over; before that, `session_not_found`, with nothing changed, exactly when its user is gone. The
  // lifetime counts in whole seconds from the clock reading `t` the token was minted at; an expiry of 0 is none.
  lemma TokenLasts(sys: Sys, evs: seq<Event>, k: nat, j: nat, c: Claims)
    requires Inv(sys.store) && Served(sys, evs) && k < j < |evs|
    requires ReplyAt(sys, evs, k).resp.Token? && ReplyAt(sys, evs, k).resp.tr.claims == c
    requires NeedsCaller(evs[j].req) && BearerOf(evs[j].req) == Jwt(c)
    ensures var t, now := evs[k].env.clk(MintClock(evs[k].req)), evs[j].env.clk(0);
            var end := (t + sys.ttl) / SECOND * SECOND;
            var before, r := Serve(sys, evs[..j]), ReplyAt(sys, evs, j);
            && (r.resp == Rejected(401, "bad_jwt") <==> end != 0 && now >= end)
            && (r.resp == Rejected(401, "bad_jwt") ==> r.sys == before)
            && (end == 0 || now < end ==>
                  (r.resp == Rejected(401, "session_not_found") && r.sys == before
                   <==> c.sub !in before.store.accounts.users))
  {
    hide Inv, Step, Possible, Serve, Served, MintClock, Expired;
    ServedPrefix(sys, evs, k);
    ServedPrefix(sys, evs, j);
    ServeInv(sys, evs[..k]);
    ServeInv(sys, evs[..j]);
    ServeKeepsService(sys, evs[..k]);
    ServeKeepsService(sys, evs[..j]);
    ExpiresAt(Serve(sys, evs[..k]), evs[k].req, evs[k].env, evs[j].env.clk(0));
    Presents(Serve(sys, evs[..j]), evs[j].req, evs[j].env);
  }

  lemma Presents(sys: Sys, req: Request, env: Env)
    requires Inv(sys.store) && Possible(sys, req, env) && NeedsCaller(req) && BearerOf(req).Jwt?
    requires BearerOf(req).claims.iss == sys.issuer
    ensures var c, r := BearerOf(req).claims, Step(sys, req, env);
            && (r.resp == Rejected(401, "bad_jwt") <==> Expired(c, env.clk(0)))
            && (r.resp == Rejected(401, "bad_jwt") ==> r.sys == sys)
            && (!Expired(c, env.clk(0)) ==>
                  (r.resp == Rejected(401, "session_not_found") && r.sys == sys
                   <==> c.sub !in sys.store.accounts.users))
  {
    hide Inv, Step, EnvOk, BearerOk, Expired;
    if Refusal(sys, BearerOf(req), env.clk(0)).Some? {
      BearerRefused(sys, req, env);
    } else {
      CallerServed(sys, req, env);
    }
  }
}

// The request handlers that chain store operations, each as one step of the service:
// the store together with the set of access tokens minted so far.
module Requests {
  import opened Text
  import opened Model
  import opened Ops
  import opened Listing

  // The claims of an access token. Only Build makes one, so a token whose signature checks is
  // a minted one or carries another issuer.
  datatype Claims = Claims(
    sub: Id,
    iss: string,
    aud: string,
    iat: int,
    exp: int,
    role: string,
    email: string,
    sid: Id,
    appMetadata: Meta,
    userMetadata: Meta,
    aal: AAL,
    amr: seq<AMREntry>)

  // What the Authorization header holds: nothing, a token whose signature does not check, or one whose does.
  datatype Bearer = NoBearer | Garbage | Jwt(claims: Claims)

  datatype TokenResponse = TokenResponse(
    claims: Claims,
    expiresIn: int,
    expiresAt: int,
    refreshToken: Id,
    user: User)

  // `Done` carries the id of what was made, if anything was.
  datatype Response = Token(tr: TokenResponse) | Done(id: Id) | Rejected(status: int, code: string)

  datatype Sys = Sys(store: State, issuer: string, ttl: int, minted: set<Claims>)

  // The outside world during one request: its clock readings, the UUIDs it draws, bcrypt, and
  // the URL parser's verdict on a redirect target.
  datatype Env = Env(
    clk: nat -> int,
    uuid: nat -> Id,
    hash: string -> Option<seq<bv8>>,
    check: (seq<bv8>, string) -> bool,
    isHttpURL: string -> bool)

  datatype Seed = Seed(provider: string, data: Meta)

  datatype Request =
    | Signup(email: string, password: string, data: Meta)
    | PasswordGrant(email: string, password: string)
    | RefreshGrant(token: Id)
    | PkceGrant(code: Id)
    | Authorize(provider: string, redirectTo: string, hint: string)
    | Logout(bearer: Bearer)
    | EnrollFactorRequest(bearer: Bearer, factorType: string, name: string)
    | ChallengeFactorRequest(bearer: Bearer, fid: Id)
    | VerifyFactorRequest(bearer: Bearer, fid: Id, cid: Id)
    | UnenrollFactorRequest(bearer: Bearer, fid: Id)
    | PasskeyRegistrationOptions(bearer: Bearer, name: string)
    | PasskeyRegistrationVerify(bearer: Bearer, cid: Id, cred: string, name: string)
    | PasskeyAuthenticationOptions
    | PasskeyAuthenticationVerify(cid: Id, cred: string)
    | PasskeyDelete(bearer: Bearer, pid: Id)
    | UnlinkIdentity(bearer: Bearer, iid: Id)
    | SeedUser(email: string, password: string, seeds: seq<Seed>)
    | AdminDeleteUser(id: Id)
    | Reset

  // The service afterwards, the answer, and the store operations performed, in order.
  datatype Reply = Reply(sys: Sys, resp: Response, ops: seq<Op>)

  ghost function Refuse(sys: Sys, status: int, code: string): Reply {
    Reply(sys, Rejected(status, code), [])
  }

  ghost function Then(op: Op, r: Reply): Reply {
    r.(ops := [op] + r.ops)
  }

  // ---- access tokens ----------------------------------------------------------

  ghost function SessionAAL(s: State, sid: Id): AAL {
    if sid in s.auth.sessions then s.auth.sessions[sid].aal else AAL1
  }

  ghost function SessionAMR(s: State, sid: Id): seq<AMREntry> {
    if sid in s.auth.sessions then s.auth.sessions[sid].amr else []
  }

  ghost function Build(sys: Sys, u: User, sid: Id, refreshToken: Id, now: int): TokenResponse {
    var exp := now + sys.ttl;
    var claims := Claims(u.id, sys.issuer, u.aud, Unix(now), Unix(exp), u.role, u.email, sid,
                         u.appMetadata, u.userMetadata, SessionAAL(sys.store, sid), SessionAMR(sys.store, sid));
    TokenResponse(claims, Seconds(sys.ttl), Unix(exp), refreshToken, u)
  }

  // Build's response, with its access token recorded as minted.
  ghost function Mint(sys: Sys, u: User, sid: Id, refreshToken: Id, now: int): Reply {
    var tr := Build(sys, CloneUser(sys.store.mfa.factors, u), sid, refreshToken, now);
    Reply(sys.(minted := sys.minted + {tr.claims}), Token(tr), [])
  }

  // Accepted by Verify: right issuer and not expired (an absent expiry is not checked).
  ghost predicate Verifies(sys: Sys, c: Claims, now: int) {
    c.iss == sys.issuer && (c.exp == 0 || now < c.exp * SECOND)
  }

  ghost predicate VerifiesIgnoringExpiry(sys: Sys, c: Claims) {
    c.iss == sys.issuer
  }

  ghost function IssueWithMethod(sys: Sys, u: User, amrMethod: string, env: Env, i: nat, j: nat): Reply {
    var out := IssueSession(sys.store, u.id, amrMethod, env.clk(i), env.clk(i + 1), env.uuid(j), env.uuid(j + 1));
    var op := OpIssueSession(u.id, amrMethod, env.clk(i), env.clk(i + 1), env.uuid(j), env.uuid(j + 1));
    if out.res.Err? then Then(op, Refuse(sys.(store := out.st), 500, ""))
    else Then(op, Mint(sys.(store := out.st), u, out.res.value.0.id, out.res.value.1.token, env.clk(i + 2)))
  }

  // ---- who is calling ---------------------------------------------------------

  datatype Caller = Known(user: User, claims: Claims) | Unknown(status: int, code: string)

  ghost function RequireUser(sys: Sys, bearer: Bearer, now: int): Caller {
    if bearer.NoBearer? then Unknown(401, "no_authorization")
    else if bearer.Garbage? || !Verifies(sys, bearer.claims, now) then Unknown(401, "bad_jwt")
    else if bearer.claims.sub !in sys.store.accounts.users then Unknown(401, "session_not_found")
    else Known(sys.store.accounts.users[bearer.claims.sub], bearer.claims)
  }

  // ---- sign-in ----------------------------------------------------------------

  ghost function SignupStep(sys: Sys, email: string, password: string, data: Meta, env: Env): Reply {
    var address := TrimSpace(email);
    if address == "" || password == "" then Refuse(sys, 400, "")
    else if '@' !in address then Refuse(sys, 400, "")
    else if ByteLength(password) < 6 then Refuse(sys, 422, "")
    else if env.hash(password).None? then Refuse(sys, 500, "")
    else
      var hash := env.hash(password).value;
      var a := CreateUser(sys.store, address, hash, env.clk(0), env.uuid(0), env.uuid(1));
      var op := OpCreateUser(address, hash, env.clk(0), env.uuid(0), env.uuid(1));
      if a.res.Err? then Then(op, Refuse(sys.(store := a.st), 422, ""))
      else Then(op, Welcome(sys.(store := a.st), a.res.value, data, env))
  }

  // The end of a signup: store the submitted metadata, if any, and log the new user in.
  ghost function Welcome(sys: Sys, u: User, data: Meta, env: Env): Reply {
    if |data| == 0 then IssueWithMethod(sys, u, "password", env, 2, 2)
    else
      var b := SetUserMetadata(sys.store, u.id, data, env.clk(1));
      var u' := if b.res.Ok? then b.res.value else u;
      Then(OpSetUserMetadata(u.id, data, env.clk(1)),
        IssueWithMethod(sys.(store := b.st), u', "password", env, 2, 2))
  }

  // Stamp the sign-in, then issue a session; `status` and `code` answer a user deleted meanwhile.
  ghost function SignIn(sys: Sys, uid: Id, amrMethod: string, status: int, code: string, env: Env, i: nat): Reply {
    var a := UpdateLastSignIn(sys.store, uid, env.clk(i));
    var op := OpUpdateLastSignIn(uid, env.clk(i));
    if a.res.Err? then Then(op, Refuse(sys.(store := a.st), status, code))
    else Then(op, IssueWithMethod(sys.(store := a.st), a.res.value, amrMethod, env, i + 1, 0))
  }

  ghost function PasswordGrantStep(sys: Sys, email: string, password: string, env: Env): Reply {
    var address := TrimSpace(email);
    if address == "" || password == "" then Refuse(sys, 400, "invalid_credentials")
    else
      var u := FindUserByEmail(sys.store, address);
      if u.None? || !env.check(u.value.passwordHash, password) then Refuse(sys, 400, "invalid_credentials")
      else SignIn(sys, u.value.id, "password", 400, "invalid_credentials", env, 0)
  }

  ghost function RefreshGrantStep(sys: Sys, token: Id, env: Env): Reply {
    if token == "" then Refuse(sys, 400, "invalid_grant")
    else
      var a := ConsumeRefreshToken(sys.store, token, env.clk(0), env.uuid(0));
      var op := OpConsumeRefreshToken(token, env.clk(0), env.uuid(0));
      if a.res.Err? then Then(op, Refuse(sys.(store := a.st), 400, "invalid_grant"))
      else Then(op, Mint(sys.(store := a.st), a.res.value.1, a.res.value.0.sessionID, a.res.value.0.token, env.clk(1)))
  }

  ghost function PkceGrantStep(sys: Sys, code: Id, env: Env): Reply {
    if TrimSpace(code) == "" then Refuse(sys, 400, "invalid_request")
    else
      var a := ConsumeAuthCode(sys.store, code, env.clk(0));
      var op := OpConsumeAuthCode(code, env.clk(0));
      if a.res.Err? then Then(op, Refuse(sys.(store := a.st), 400, "invalid_grant"))
      else Then(op, SignIn(sys.(store := a.st), a.res.value.userID, "oauth", 400, "invalid_grant", env, 1))
  }

  ghost function AuthorizeStep(sys: Sys, provider: string, redirectTo: string, hint: string, env: Env): Reply {
    var p := TrimSpace(provider);
    if p == "" then Refuse(sys, 422, "validation_failed")
    else if TrimSpace(redirectTo) == "" then Refuse(sys, 422, "validation_failed")
    else if !env.isHttpURL(TrimSpace(redirectTo)) then Refuse(sys, 400, "validation_failed")
    else
      var a := CreateOAuthUser(sys.store, p, hint, env.clk(0), env.uuid(0), env.uuid(1), env.uuid(2), env.uuid(3));
      var op := OpCreateOAuthUser(p, hint, env.clk(0), env.uuid(0), env.uuid(1), env.uuid(2), env.uuid(3));
      if a.res.Err? then Then(op, Refuse(sys.(store := a.st), 500, ""))
      else
        var b := CreateAuthCode(a.st, a.res.value.id, env.clk(1), env.uuid(4));
        var op' := OpCreateAuthCode(a.res.value.id, env.clk(1), env.uuid(4));
        Then(op, Then(op',
          if b.res.Err? then Refuse(sys.(store := b.st), 500, "")
          else Reply(sys.(store := b.st), Done(b.res.value.code), [])))
  }

  ghost function LogoutStep(sys: Sys, bearer: Bearer, env: Env): Reply {
    if bearer.Jwt? && VerifiesIgnoringExpiry(sys, bearer.claims) && bearer.claims.sid != "" then
      var sid := bearer.claims.sid;
      Reply(sys.(store := RevokeRefreshTokensBySession(sys.store, sid, env.clk(0))), Done(""),
          [OpRevoke(sid, env.clk(0))])
    else Reply(sys, Done(""), [])
  }

  // ---- MFA --------------------------------------------------------------------

  ghost function EnrollFactorStep(sys: Sys, bearer: Bearer, factorType: string, name: string, env: Env): Reply {
    var caller := RequireUser(sys, bearer, env.clk(0));
    if caller.Unknown? then Refuse(sys, caller.status, caller.code)
    else if TrimSpace(factorType) != "" && TrimSpace(factorType) != WEBAUTHN
    then Refuse(sys, 422, "mfa_factor_type_not_supported")
    else
      var a := EnrollFactor(sys.store, caller.user.id, WEBAUTHN, TrimSpace(name), env.clk(1), env.uuid(0));
      Then(OpEnrollFactor(caller.user.id, WEBAUTHN, TrimSpace(name), env.clk(1), env.uuid(0)),
        match a.res
        case Err(FactorNameConflict) => Refuse(sys.(store := a.st), 422, "mfa_factor_name_conflict")
        case Err(_) => Refuse(sys.(store := a.st), 401, "session_not_found")
        case Ok(f) => Reply(sys.(store := a.st), Done(f.id), []))
  }

  ghost predicate OwnsFactor(s: State, uid: Id, fid: Id) {
    fid in s.mfa.factors && s.mfa.factors[fid].userID == uid
  }

  ghost function ChallengeFactorStep(sys: Sys, bearer: Bearer, fid: Id, env: Env): Reply {
    var caller := RequireUser(sys, bearer, env.clk(0));
    if caller.Unknown? then Refuse(sys, caller.status, caller.code)
    else if !OwnsFactor(sys.store, caller.user.id, fid) then Refuse(sys, 404, "mfa_factor_not_found")
    else
      var a := CreateChallenge(sys.store, fid, env.uuid(1), env.clk(1), env.uuid(0));
      Then(OpCreateChallenge(fid, env.uuid(1), env.clk(1), env.uuid(0)),
        if a.res.Err? then Refuse(sys.(store := a.st), 404, "mfa_factor_not_found")
        else Reply(sys.(store := a.st), Done(a.res.value.id), []))
  }

  // The end of a factor verification: raise the caller's session to aal2 and issue another
  // refresh token in it.
  ghost function StepUp(sys: Sys, uid: Id, sid: Id, env: Env): Reply {
    if sid == "" then Refuse(sys, 401, "session_not_found")
    else
      var a := UpgradeSessionAAL(sys.store, sid, WEBAUTHN, env.clk(3));
      var op := OpUpgradeSessionAAL(sid, WEBAUTHN, env.clk(3));
      if a.res.Err? then Then(op, Refuse(sys.(store := a.st), 401, "session_not_found"))
      else
        var b := IssueRefreshToken(a.st, uid, sid, env.clk(4), env.uuid(0));
        var op' := OpIssueRefreshToken(uid, sid, env.clk(4), env.uuid(0));
        Then(op, Then(op',
          if b.res.Err? then Refuse(sys.(store := b.st), 500, "")
          else if uid !in b.st.accounts.users then Refuse(sys.(store := b.st), 401, "session_not_found")
          else Mint(sys.(store := b.st), b.st.accounts.users[uid], sid, b.res.value.token, env.clk(5))))
  }

  ghost function VerifyFactorStep(sys: Sys, bearer: Bearer, fid: Id, cid: Id, env: Env): Reply {
    var caller := RequireUser(sys, bearer, env.clk(0));
    if caller.Unknown? then Refuse(sys, caller.status, caller.code)
    else if !OwnsFactor(sys.store, caller.user.id, fid) then Refuse(sys, 404, "mfa_factor_not_found")
    else if cid == "" then Refuse(sys, 422, "validation_failed")
    else
      var a := ConsumeChallenge(sys.store, fid, cid, env.clk(1));
      var op := OpConsumeChallenge(fid, cid, env.clk(1));
      match a.res
      case Err(ChallengeExpired) => Then(op, Refuse(sys.(store := a.st), 422, "mfa_challenge_expired"))
      case Err(_) => Then(op, Refuse(sys.(store := a.st), 404, "mfa_challenge_not_found"))
      case Ok(_) =>
        var b := VerifyFactor(a.st, fid, env.clk(2));
        var op' := OpVerifyFactor(fid, env.clk(2));
        Then(op, Then(op',
          if b.res.Err? then Refuse(sys.(store := b.st), 404, "mfa_factor_not_found")
          else StepUp(sys.(store := b.st), caller.user.id, caller.claims.sid, env)))
  }

  ghost function UnenrollFactorStep(sys: Sys, bearer: Bearer, fid: Id, env: Env): Reply {
    var caller := RequireUser(sys, bearer, env.clk(0));
    if caller.Unknown? then Refuse(sys, caller.status, caller.code)
    else
      var a := DeleteFactor(sys.store, caller.user.id, fid);
      Then(OpDeleteFactor(caller.user.id, fid),
        if a.res.Err? then Refuse(sys.(store := a.st), 404, "mfa_factor_not_found")
        else Reply(sys.(store := a.st), Done(fid), []))
  }

  // ---- passkeys ---------------------------------------------------------------

  ghost function RegistrationOptionsStep(sys: Sys, bearer: Bearer, name: string, env: Env): Reply {
    var caller := RequireUser(sys, bearer, env.clk(0));
    if caller.Unknown? then Refuse(sys, caller.status, caller.code)
    else
      var a := CreatePasskeyChallenge(sys.store, caller.user.id, Registration, TrimSpace(name), env.uuid(1),
          env.clk(1), env.uuid(0));
      Then(OpCreatePasskeyChallenge(caller.user.id, Registration, TrimSpace(name), env.uuid(1), env.clk(1),
                                    env.uuid(0)),
        if a.res.Err? then Refuse(sys.(store := a.st), 401, "session_not_found")
        else Reply(sys.(store := a.st), Done(a.res.value.id), []))
  }

  ghost function RefuseCeremony(sys: Sys, e: Error): Reply {
    if e.PasskeyChallengeExpired? then Refuse(sys, 422, "passkey_challenge_expired")
    else Refuse(sys, 404, "passkey_challenge_not_found")
  }

  // The end of a registration: store the credential for the caller.
  ghost function FinishRegistration(sys: Sys, uid: Id, friendly: string, cred: string, env: Env): Reply {
    var b := AddPasskey(sys.store, uid, friendly, cred, env.clk(2), env.uuid(0));
    Then(OpAddPasskey(uid, friendly, cred, env.clk(2), env.uuid(0)),
      match b.res
      case Err(PasskeyExists) => Refuse(sys.(store := b.st), 422, "passkey_already_exists")
      case Err(_) => Refuse(sys.(store := b.st), 401, "session_not_found")
      case Ok(pk) => Reply(sys.(store := b.st), Done(pk.id), []))
  }

  ghost function RegistrationVerifyStep(sys: Sys, bearer: Bearer, cid: Id, cred: string, name: string, env: Env): Reply
  {
    var caller := RequireUser(sys, bearer, env.clk(0));
    if caller.Unknown? then Refuse(sys, caller.status, caller.code)
    else if cid == "" || cred == "" then Refuse(sys, 422, "validation_failed")
    else
      var a := ConsumePasskeyChallenge(sys.store, cid, Registration, env.clk(1));
      var op := OpConsumePasskeyChallenge(cid, Registration, env.clk(1));
      if a.res.Err? then Then(op, RefuseCeremony(sys.(store := a.st), a.res.error))
      else if a.res.value.userID != caller.user.id
      then Then(op, Refuse(sys.(store := a.st), 404, "passkey_challenge_not_found"))
      else
        var friendly := if TrimSpace(name) == "" then a.res.value.friendlyName else TrimSpace(name);
        Then(op, FinishRegistration(sys.(store := a.st), caller.user.id, friendly, cred, env))
  }

  ghost function AuthenticationOptionsStep(sys: Sys, env: Env): Reply {
    var a := CreatePasskeyChallenge(sys.store, "", Authentication, "", env.uuid(1), env.clk(0), env.uuid(0));
    Then(OpCreatePasskeyChallenge("", Authentication, "", env.uuid(1), env.clk(0), env.uuid(0)),
      if a.res.Err? then Refuse(sys.(store := a.st), 500, "")
      else Reply(sys.(store := a.st), Done(a.res.value.id), []))
  }

  ghost function AuthenticationVerifyStep(sys: Sys, cid: Id, cred: string, env: Env): Reply {
    if cid == "" || cred == "" then Refuse(sys, 422, "validation_failed")
    else
      var a := ConsumePasskeyChallenge(sys.store, cid, Authentication, env.clk(0));
      var op := OpConsumePasskeyChallenge(cid, Authentication, env.clk(0));
      if a.res.Err? then Then(op, RefuseCeremony(sys.(store := a.st), a.res.error))
      else
        var pk := FindPasskeyByCredentialID(a.st, cred);
        if pk.None? || pk.value.userID !in a.st.accounts.users
        then Then(op, Refuse(sys.(store := a.st), 401, "invalid_credentials"))
        else
          var st := MarkPasskeyUsed(a.st, pk.value.id, env.clk(1));
          Then(op, Then(OpMarkPasskeyUsed(pk.value.id, env.clk(1)),
            IssueWithMethod(sys.(store := st), a.st.accounts.users[pk.value.userID], WEBAUTHN, env, 2, 0)))
  }

  ghost function PasskeyDeleteStep(sys: Sys, bearer: Bearer, pid: Id, env: Env): Reply {
    var caller := RequireUser(sys, bearer, env.clk(0));
    if caller.Unknown? then Refuse(sys, caller.status, caller.code)
    else
      var a := DeletePasskey(sys.store, caller.user.id, pid);
      Then(OpDeletePasskey(caller.user.id, pid),
        if a.res.Err? then Refuse(sys.(store := a.st), 404, "passkey_not_found")
        else Reply(sys.(store := a.st), Done(pid), []))
  }

  // ---- identities and administration ------------------------------------------

  ghost function UnlinkIdentityStep(sys: Sys, bearer: Bearer, iid: Id, env: Env): Reply {
    var caller := RequireUser(sys, bearer, env.clk(0));
    if caller.Unknown? then Refuse(sys, caller.status, caller.code)
    else if TrimSpace(iid) == "" then Refuse(sys, 422, "validation_failed")
    else
      var a := RemoveIdentity(sys.store, caller.user.id, TrimSpace(iid), env.clk(1));
      Then(OpRemoveIdentity(caller.user.id, TrimSpace(iid), env.clk(1)),
        match a.res
        case Err(LastIdentity) => Refuse(sys.(store := a.st), 422, "single_identity_not_deletable")
        case Err(IdentityNotFound) => Refuse(sys.(store := a.st), 404, "identity_not_found")
        case Err(_) => Refuse(sys.(store := a.st), 401, "session_not_found")
        case Ok(_) => Reply(sys.(store := a.st), Done(""), []))
  }

  // The identities of a seed request from position k on; the first failure ends the request.
  ghost function SeedIdentities(sys: Sys, uid: Id, seeds: seq<Seed>, k: nat, env: Env): Reply
    requires k <= |seeds|
    decreases |seeds| - k
  {
    if k == |seeds| then Reply(sys, Done(uid), [])
    else
      var provider := TrimSpace(seeds[k].provider);
      if provider == "" then Refuse(sys, 400, "")
      else
        var a := AddIdentity(sys.store, uid, provider, seeds[k].data, env.clk(1 + k), env.uuid(2 + k));
        Then(OpAddIdentity(uid, provider, seeds[k].data, env.clk(1 + k), env.uuid(2 + k)),
          match a.res
          case Err(IdentityExists) => Refuse(sys.(store := a.st), 409, "")
          case Err(_) => Refuse(sys.(store := a.st), 500, "")
          case Ok(_) => SeedIdentities(sys.(store := a.st), uid, seeds, k + 1, env))
  }

  ghost function SeedUserStep(sys: Sys, email: string, password: string, seeds: seq<Seed>, env: Env): Reply {
    var address := TrimSpace(email);
    if address == "" || password == "" then Refuse(sys, 400, "")
    else if env.hash(password).None? then Refuse(sys, 500, "")
    else
      var hash := env.hash(password).value;
      var a := CreateUser(sys.store, address, hash, env.clk(0), env.uuid(0), env.uuid(1));
      Then(OpCreateUser(address, hash, env.clk(0), env.uuid(0), env.uuid(1)),
        if a.res.Err? then Refuse(sys.(store := a.st), 409, "")
        else SeedIdentities(sys.(store := a.st), a.res.value.id, seeds, 0, env))
  }

  ghost function AdminDeleteUserStep(sys: Sys, id: Id): Reply {
    if id == "" then Refuse(sys, 400, "")
    else
      var a := DeleteUser(sys.store, id);
      Then(OpDeleteUser(id),
        if a.res.Err? then Refuse(sys.(store := a.st), 404, "")
        else Reply(sys.(store := a.st), Done(""), []))
  }

  ghost function ResetStep(sys: Sys): Reply {
    Reply(sys.(store := EmptyState(sys.store.reuseInterval, sys.store.ids)), Done(""), [OpReset])
  }

  // ---- the service as a transition system -------------------------------------

  ghost function Step(sys: Sys, req: Request, env: Env): Reply {
    match req
    case Signup(email, password, data) => SignupStep(sys, email, password, data, env)
    case PasswordGrant(email, password) => PasswordGrantStep(sys, email, password, env)
    case RefreshGrant(token) => RefreshGrantStep(sys, token, env)
    case PkceGrant(code) => PkceGrantStep(sys, code, env)
    case Authorize(provider, redirectTo, hint) => AuthorizeStep(sys, provider, redirectTo, hint, env)
    case Logout(bearer) => LogoutStep(sys, bearer, env)
    case EnrollFactorRequest(bearer, ft, name) => EnrollFactorStep(sys, bearer, ft, name, env)
    case ChallengeFactorRequest(bearer, fid) => ChallengeFactorStep(sys, bearer, fid, env)
    case VerifyFactorRequest(bearer, fid, cid) => VerifyFactorStep(sys, bearer, fid, cid, env)
    case UnenrollFactorRequest(bearer, fid) => UnenrollFactorStep(sys, bearer, fid, env)
    case PasskeyRegistrationOptions(bearer, name) => RegistrationOptionsStep(sys, bearer, name, env)
    case PasskeyRegistrationVerify(bearer, cid, cred, name) => RegistrationVerifyStep(sys, bearer, cid, cred, name, env)
    case PasskeyAuthenticationOptions => AuthenticationOptionsStep(sys, env)
    case PasskeyAuthenticationVerify(cid, cred) => AuthenticationVerifyStep(sys, cid, cred, env)
    case PasskeyDelete(bearer, pid) => PasskeyDeleteStep(sys, bearer, pid, env)
    case UnlinkIdentity(bearer, iid) => UnlinkIdentityStep(sys, bearer, iid, env)
    case SeedUser(email, password, seeds) => SeedUserStep(sys, email, password, seeds, env)
    case AdminDeleteUser(id) => AdminDeleteUserStep(sys, id)
    case Reset => ResetStep(sys)
  }

  // The UUIDs of a request are fresh and distinct, and no address in use contains one.
  ghost predicate EnvOk(s: State, env: Env) {
    && (forall i: nat :: Fresh(s, env.uuid(i)))
    && (forall i: nat, j: nat | i != j :: env.uuid(i) != env.uuid(j))
    && (forall i: nat, provider: string :: Synthesized(provider, env.uuid(i)) !in s.accounts.emailIndex)
  }

  // A presented token whose signature checks was minted here, or names another issuer.
  ghost predicate BearerOk(sys: Sys, bearer: Bearer) {
    bearer.Jwt? && bearer.claims.iss == sys.issuer ==> bearer.claims in sys.minted
  }

  ghost function BearerOf(req: Request): Bearer {
    match req
    case Logout(bearer) => bearer
    case EnrollFactorRequest(bearer, _, _) => bearer
    case ChallengeFactorRequest(bearer, _) => bearer
    case VerifyFactorRequest(bearer, _, _) => bearer
    case UnenrollFactorRequest(bearer, _) => bearer
    case PasskeyRegistrationOptions(bearer, _) => bearer
    case PasskeyRegistrationVerify(bearer, _, _, _) => bearer
    case PasskeyDelete(bearer, _) => bearer
    case UnlinkIdentity(bearer, _) => bearer
    case _ => NoBearer
  }

  ghost predicate Possible(sys: Sys, req: Request, env: Env) {
    EnvOk(sys.store, env) && BearerOk(sys, BearerOf(req))
  }
}

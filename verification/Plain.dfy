// Which requests can add a passkey, start a registration or verify a factor: all others do none of these.
module Plain {
  import opened Text
  import opened Model
  import opened Listing
  import opened Ops
  import opened Requests

  // ---- operations ---------------------------------------------------------------

  // The operation adds no passkey, starts no registration and verifies no factor.
  predicate PlainOp(op: Op) {
    !op.OpAddPasskey? && !(op.OpCreatePasskeyChallenge? && op.purpose.Registration?) && !op.OpVerifyFactor?
  }

  predicate AllPlain(ops: seq<Op>) {
    forall i | 0 <= i < |ops| :: PlainOp(ops[i])
  }

  // ---- requests -----------------------------------------------------------------

  lemma IssuePlain(sys: Sys, u: User, m: string, env: Env, i: nat, j: nat)
    ensures AllPlain(IssueWithMethod(sys, u, m, env, i, j).ops)
  {
    hide IssueSession, CloneUser, Build;
  }

  lemma SignInPlain(sys: Sys, uid: Id, m: string, status: int, code: string, env: Env, i: nat)
    ensures AllPlain(SignIn(sys, uid, m, status, code, env, i).ops)
  {
    hide IssueWithMethod, UpdateLastSignIn;
    var a := UpdateLastSignIn(sys.store, uid, env.clk(i));
    if a.res.Ok? {
      IssuePlain(sys.(store := a.st), a.res.value, m, env, i + 1, 0);
    }
  }

  lemma WelcomePlain(sys: Sys, u: User, data: Meta, env: Env)
    ensures AllPlain(Welcome(sys, u, data, env).ops)
  {
    hide IssueWithMethod, SetUserMetadata;
    IssuePlain(sys, u, "password", env, 2, 2);
    var b := SetUserMetadata(sys.store, u.id, data, env.clk(1));
    IssuePlain(sys.(store := b.st), if b.res.Ok? then b.res.value else u, "password", env, 2, 2);
  }

  lemma SignupPlain(sys: Sys, email: string, password: string, data: Meta, env: Env)
    ensures AllPlain(SignupStep(sys, email, password, data, env).ops)
  {
    hide Welcome, CreateUser, TrimSpace;
    if env.hash(password).Some? {
      var a := CreateUser(sys.store, TrimSpace(email), env.hash(password).value, env.clk(0), env.uuid(0), env.uuid(1));
      if a.res.Ok? {
        WelcomePlain(sys.(store := a.st), a.res.value, data, env);
      }
    }
  }

  lemma PasswordGrantPlain(sys: Sys, email: string, password: string, env: Env)
    ensures AllPlain(PasswordGrantStep(sys, email, password, env).ops)
  {
    hide SignIn, FindUserByEmail, TrimSpace;
    var u := FindUserByEmail(sys.store, TrimSpace(email));
    if u.Some? {
      SignInPlain(sys, u.value.id, "password", 400, "invalid_credentials", env, 0);
    }
  }

  lemma PkceGrantPlain(sys: Sys, code: Id, env: Env)
    ensures AllPlain(PkceGrantStep(sys, code, env).ops)
  {
    hide SignIn, ConsumeAuthCode, TrimSpace;
    var a := ConsumeAuthCode(sys.store, code, env.clk(0));
    if a.res.Ok? {
      SignInPlain(sys.(store := a.st), a.res.value.userID, "oauth", 400, "invalid_grant", env, 1);
    }
  }

  lemma AuthenticationVerifyPlain(sys: Sys, cid: Id, cred: string, env: Env)
    ensures AllPlain(AuthenticationVerifyStep(sys, cid, cred, env).ops)
  {
    hide IssueWithMethod, ConsumePasskeyChallenge, FindPasskeyByCredentialID, MarkPasskeyUsed;
    var a := ConsumePasskeyChallenge(sys.store, cid, Authentication, env.clk(0));
    var pk := FindPasskeyByCredentialID(a.st, cred);
    if pk.Some? && pk.value.userID in a.st.accounts.users {
      var st := MarkPasskeyUsed(a.st, pk.value.id, env.clk(1));
      IssuePlain(sys.(store := st), a.st.accounts.users[pk.value.userID], WEBAUTHN, env, 2, 0);
    }
  }

  lemma {:induction false} SeedIdentitiesPlain(sys: Sys, uid: Id, seeds: seq<Seed>, k: nat, env: Env)
    requires k <= |seeds|
    ensures AllPlain(SeedIdentities(sys, uid, seeds, k, env).ops)
    decreases |seeds| - k
  {
    hide AddIdentity, TrimSpace;
    if k < |seeds| {
      var provider := TrimSpace(seeds[k].provider);
      var a := AddIdentity(sys.store, uid, provider, seeds[k].data, env.clk(1 + k), env.uuid(2 + k));
      SeedIdentitiesPlain(sys.(store := a.st), uid, seeds, k + 1, env);
    }
  }

  lemma SeedUserPlain(sys: Sys, email: string, password: string, seeds: seq<Seed>, env: Env)
    ensures AllPlain(SeedUserStep(sys, email, password, seeds, env).ops)
  {
    hide SeedIdentities, CreateUser, TrimSpace;
    if env.hash(password).Some? {
      var a := CreateUser(sys.store, TrimSpace(email), env.hash(password).value, env.clk(0), env.uuid(0), env.uuid(1));
      if a.res.Ok? {
        SeedIdentitiesPlain(sys.(store := a.st), a.res.value.id, seeds, 0, env);
      }
    }
  }

  // Requests made of a fixed few operations.
  lemma SessionPlain(sys: Sys, bearer: Bearer, x: string, y: string, z: string, env: Env)
    ensures AllPlain(RefreshGrantStep(sys, x, env).ops) && AllPlain(LogoutStep(sys, bearer, env).ops)
    ensures AllPlain(AuthorizeStep(sys, x, y, z, env).ops)
    ensures AllPlain(AdminDeleteUserStep(sys, x).ops) && AllPlain(ResetStep(sys).ops)
  {
    hide CreateUser, SetUserMetadata, UpdateLastSignIn, DeleteUser, AddIdentity, RemoveIdentity, CreateOAuthUser;
    hide CreateAuthCode, ConsumeAuthCode, CreateSession, IssueRefreshToken, IssueSession, ConsumeRefreshToken;
    hide RevokeRefreshTokensBySession, EnrollFactor, VerifyFactor, DeleteFactor, CreateChallenge, ConsumeChallenge;
    hide UpgradeSessionAAL, CreatePasskeyChallenge, ConsumePasskeyChallenge, AddPasskey, DeletePasskey, MarkPasskeyUsed;
    hide RequireUser, TrimSpace, Build, CloneUser, EmptyState;
  }

  lemma CallerPlain(sys: Sys, bearer: Bearer, x: string, y: string, env: Env)
    ensures AllPlain(EnrollFactorStep(sys, bearer, x, y, env).ops)
    ensures AllPlain(ChallengeFactorStep(sys, bearer, x, env).ops)
    ensures AllPlain(UnenrollFactorStep(sys, bearer, x, env).ops)
  {
    hide CreateUser, SetUserMetadata, UpdateLastSignIn, DeleteUser, AddIdentity, RemoveIdentity, CreateOAuthUser;
    hide CreateAuthCode, ConsumeAuthCode, CreateSession, IssueRefreshToken, IssueSession, ConsumeRefreshToken;
    hide RevokeRefreshTokensBySession, EnrollFactor, VerifyFactor, DeleteFactor, CreateChallenge, ConsumeChallenge;
    hide UpgradeSessionAAL, CreatePasskeyChallenge, ConsumePasskeyChallenge, AddPasskey, DeletePasskey, MarkPasskeyUsed;
    hide RequireUser, TrimSpace, Build, CloneUser, EmptyState;
  }

  lemma PasskeyPlain(sys: Sys, bearer: Bearer, x: string, env: Env)
    ensures AllPlain(AuthenticationOptionsStep(sys, env).ops) && AllPlain(PasskeyDeleteStep(sys, bearer, x, env).ops)
    ensures AllPlain(UnlinkIdentityStep(sys, bearer, x, env).ops)
  {
    hide CreateUser, SetUserMetadata, UpdateLastSignIn, DeleteUser, AddIdentity, RemoveIdentity, CreateOAuthUser;
    hide CreateAuthCode, ConsumeAuthCode, CreateSession, IssueRefreshToken, IssueSession, ConsumeRefreshToken;
    hide RevokeRefreshTokensBySession, EnrollFactor, VerifyFactor, DeleteFactor, CreateChallenge, ConsumeChallenge;
    hide UpgradeSessionAAL, CreatePasskeyChallenge, ConsumePasskeyChallenge, AddPasskey, DeletePasskey, MarkPasskeyUsed;
    hide RequireUser, TrimSpace, Build, CloneUser, EmptyState;
  }

  // Every request but the two ends of a registration and the verification of a factor is plain.
  lemma PlainRequest(sys: Sys, req: Request, env: Env)
    requires !req.PasskeyRegistrationOptions? && !req.PasskeyRegistrationVerify? && !req.VerifyFactorRequest?
    ensures AllPlain(Step(sys, req, env).ops)
  {
    hide AllPlain;
    hide SignupStep, PasswordGrantStep, RefreshGrantStep, PkceGrantStep, AuthorizeStep, LogoutStep;
    hide EnrollFactorStep, ChallengeFactorStep, VerifyFactorStep, UnenrollFactorStep, RegistrationOptionsStep;
    hide RegistrationVerifyStep, AuthenticationOptionsStep, AuthenticationVerifyStep, PasskeyDeleteStep;
    hide UnlinkIdentityStep, SeedUserStep, AdminDeleteUserStep;
    hide ResetStep;
    match req
    case Signup(email, password, data) => SignupPlain(sys, email, password, data, env);
    case PasswordGrant(email, password) => PasswordGrantPlain(sys, email, password, env);
    case RefreshGrant(token) => SessionPlain(sys, NoBearer, token, "", "", env);
    case PkceGrant(code) => PkceGrantPlain(sys, code, env);
    case Authorize(provider, redirectTo, hint) => SessionPlain(sys, NoBearer, provider, redirectTo, hint, env);
    case Logout(bearer) => SessionPlain(sys, bearer, "", "", "", env);
    case EnrollFactorRequest(bearer, ft, name) => CallerPlain(sys, bearer, ft, name, env);
    case ChallengeFactorRequest(bearer, fid) => CallerPlain(sys, bearer, fid, "", env);
    case UnenrollFactorRequest(bearer, fid) => CallerPlain(sys, bearer, fid, "", env);
    case PasskeyAuthenticationOptions => PasskeyPlain(sys, NoBearer, "", env);
    case PasskeyAuthenticationVerify(cid, cred) => AuthenticationVerifyPlain(sys, cid, cred, env);
    case PasskeyDelete(bearer, pid) => PasskeyPlain(sys, bearer, pid, env);
    case UnlinkIdentity(bearer, iid) => PasskeyPlain(sys, bearer, iid, env);
    case SeedUser(email, password, seeds) => SeedUserPlain(sys, email, password, seeds, env);
    case AdminDeleteUser(id) => SessionPlain(sys, NoBearer, id, "", "", env);
    case Reset => SessionPlain(sys, NoBearer, "", "", "", env);
  }
}

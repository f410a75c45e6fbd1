// Every request is a run of store operations, so whatever holds over runs of operations holds
// over runs of requests.
module Runs {
  import opened Text
  import opened Model
  import opened Ops
  import opened Listing
  import opened Integrity
  import opened Invariant
  import opened Requests
  import opened Effects

  // The operations a reply lists were possible and lead to the reply's state.
  ghost predicate Follows(s: State, r: Reply) {
    RunEnabled(s, r.ops) && Run(s, r.ops) == r.sys.store
  }

  lemma NothingFollows(sys: Sys, resp: Response)
    ensures Follows(sys.store, Reply(sys, resp, []))
  {
    hide Apply, Enabled;
  }

  lemma ThenFollows(s: State, op: Op, r: Reply)
    requires Enabled(s, op) && Follows(Apply(s, op), r)
    ensures Follows(s, Then(op, r))
  {
    hide Enabled, Apply;
    RunConcat(s, [op], r.ops);
    assert [op][..0] == [];
    assert Run(s, [op]) == Apply(Run(s, []), op);
    assert RunEnabled(s, [op]) <==> RunEnabled(s, []) && Enabled(Run(s, []), op);
  }

  // UUIDs from the k-th on are still fresh.
  ghost predicate FreshFrom(s: State, env: Env, k: nat) {
    && (forall i: nat | i >= k :: Fresh(s, env.uuid(i)))
    && (forall i: nat, j: nat | i != j :: env.uuid(i) != env.uuid(j))
  }

  lemma EnvFresh(s: State, env: Env)
    requires EnvOk(s, env)
    ensures FreshFrom(s, env, 0)
  {
    hide Synthesized;
  }

  // ---- requests of at most one operation --------------------------------------

  ghost predicate SessionRequest(req: Request) {
    req.RefreshGrant? || req.Logout? || req.AdminDeleteUser? || req.Reset?
  }

  ghost predicate FactorRequest(req: Request) {
    req.EnrollFactorRequest? || req.ChallengeFactorRequest? || req.UnenrollFactorRequest?
  }

  ghost predicate PasskeyRequest(req: Request) {
    req.PasskeyRegistrationOptions? || req.PasskeyAuthenticationOptions? || req.PasskeyDelete? || req.UnlinkIdentity?
  }

  ghost predicate OneOperation(req: Request) {
    SessionRequest(req) || FactorRequest(req) || PasskeyRequest(req)
  }

  // The reply lists no operation and changes nothing, or lists the one that was performed.
  ghost predicate OneStep(s: State, r: Reply) {
    || (r.ops == [] && r.sys.store == s)
    || (|r.ops| == 1 && Enabled(s, r.ops[0]) && Apply(s, r.ops[0]) == r.sys.store)
  }

  lemma SessionRequestSteps(sys: Sys, req: Request, env: Env)
    requires EnvOk(sys.store, env) && SessionRequest(req)
    ensures OneStep(sys.store, Step(sys, req, env))
  {
    hide CreateUser, SetUserMetadata, UpdateLastSignIn, DeleteUser, AddIdentity, RemoveIdentity, CreateOAuthUser;
    hide CreateAuthCode, ConsumeAuthCode, CreateSession, IssueRefreshToken, IssueSession, ConsumeRefreshToken;
    hide RevokeRefreshTokensBySession, EnrollFactor, VerifyFactor, DeleteFactor, CreateChallenge, ConsumeChallenge;
    hide UpgradeSessionAAL, CreatePasskeyChallenge, ConsumePasskeyChallenge, AddPasskey, DeletePasskey, MarkPasskeyUsed;
    hide RequireUser, TrimSpace, Build, CloneUser, EmptyState, Synthesized;
    hide SignupStep, PasswordGrantStep, PkceGrantStep, AuthorizeStep, VerifyFactorStep;
    hide RegistrationVerifyStep, AuthenticationVerifyStep, SeedUserStep, EnrollFactorStep, ChallengeFactorStep;
    hide UnenrollFactorStep, RegistrationOptionsStep, AuthenticationOptionsStep, PasskeyDeleteStep, UnlinkIdentityStep;
  }

  lemma FactorRequestSteps(sys: Sys, req: Request, env: Env)
    requires EnvOk(sys.store, env) && FactorRequest(req)
    ensures OneStep(sys.store, Step(sys, req, env))
  {
    hide CreateUser, SetUserMetadata, UpdateLastSignIn, DeleteUser, AddIdentity, RemoveIdentity, CreateOAuthUser;
    hide CreateAuthCode, ConsumeAuthCode, CreateSession, IssueRefreshToken, IssueSession, ConsumeRefreshToken;
    hide RevokeRefreshTokensBySession, EnrollFactor, VerifyFactor, DeleteFactor, CreateChallenge, ConsumeChallenge;
    hide UpgradeSessionAAL, CreatePasskeyChallenge, ConsumePasskeyChallenge, AddPasskey, DeletePasskey, MarkPasskeyUsed;
    hide RequireUser, TrimSpace, Build, CloneUser, EmptyState, Synthesized;
    hide SignupStep, PasswordGrantStep, PkceGrantStep, AuthorizeStep, VerifyFactorStep;
    hide RegistrationVerifyStep, AuthenticationVerifyStep, SeedUserStep, RefreshGrantStep, LogoutStep;
    hide AdminDeleteUserStep, ResetStep, RegistrationOptionsStep, AuthenticationOptionsStep, PasskeyDeleteStep;
    hide UnlinkIdentityStep;
  }

  lemma PasskeyRequestSteps(sys: Sys, req: Request, env: Env)
    requires EnvOk(sys.store, env) && PasskeyRequest(req)
    ensures OneStep(sys.store, Step(sys, req, env))
  {
    hide CreateUser, SetUserMetadata, UpdateLastSignIn, DeleteUser, AddIdentity, RemoveIdentity, CreateOAuthUser;
    hide CreateAuthCode, ConsumeAuthCode, CreateSession, IssueRefreshToken, IssueSession, ConsumeRefreshToken;
    hide RevokeRefreshTokensBySession, EnrollFactor, VerifyFactor, DeleteFactor, CreateChallenge, ConsumeChallenge;
    hide UpgradeSessionAAL, CreatePasskeyChallenge, ConsumePasskeyChallenge, AddPasskey, DeletePasskey, MarkPasskeyUsed;
    hide RequireUser, TrimSpace, Build, CloneUser, EmptyState, Synthesized;
    hide SignupStep, PasswordGrantStep, PkceGrantStep, AuthorizeStep, VerifyFactorStep;
    hide RegistrationVerifyStep, AuthenticationVerifyStep, SeedUserStep, RefreshGrantStep, LogoutStep;
    hide AdminDeleteUserStep, ResetStep, EnrollFactorStep, ChallengeFactorStep, UnenrollFactorStep;
  }

  lemma OneOperationSteps(sys: Sys, req: Request, env: Env)
    requires EnvOk(sys.store, env) && OneOperation(req)
    ensures OneStep(sys.store, Step(sys, req, env))
  {
    hide Step, EnvOk, OneStep;
    if SessionRequest(req) {
      SessionRequestSteps(sys, req, env);
    } else if FactorRequest(req) {
      FactorRequestSteps(sys, req, env);
    } else {
      PasskeyRequestSteps(sys, req, env);
    }
  }

  lemma OneOperationFollows(sys: Sys, req: Request, env: Env)
    requires EnvOk(sys.store, env) && OneOperation(req)
    ensures Follows(sys.store, Step(sys, req, env))
  {
    hide Step, Apply, Enabled, EnvOk, OneOperation;
    var r := Step(sys, req, env);
    OneOperationSteps(sys, req, env);
    if r.ops != [] {
      NothingFollows(r.sys, r.resp);
      ThenFollows(sys.store, r.ops[0], Reply(r.sys, r.resp, []));
      assert r.ops == [r.ops[0]] + [];
    }
  }

  // ---- requests of several operations -----------------------------------------

  // Ids drawn by an operation come from the front of the request's UUIDs; the rest stay fresh.
  lemma FreshAfter(s: State, t: State, env: Env, k: nat, n: nat)
    requires FreshFrom(s, env, k) && k <= n
    requires forall x | x in t.ids.used :: x in s.ids.used || exists i: nat :: k <= i < n && x == env.uuid(i)
    ensures FreshFrom(t, env, n)
  {
  }

  lemma IssueFollows(sys: Sys, u: User, m: string, env: Env, i: nat, j: nat)
    requires FreshFrom(sys.store, env, j)
    ensures Follows(sys.store, IssueWithMethod(sys, u, m, env, i, j))
  {
    hide CreateUser, SetUserMetadata, UpdateLastSignIn, DeleteUser, AddIdentity, RemoveIdentity, CreateOAuthUser;
    hide CreateAuthCode, ConsumeAuthCode, CreateSession, IssueRefreshToken, IssueSession, ConsumeRefreshToken;
    hide RevokeRefreshTokensBySession, EnrollFactor, VerifyFactor, DeleteFactor, CreateChallenge, ConsumeChallenge;
    hide UpgradeSessionAAL, CreatePasskeyChallenge, ConsumePasskeyChallenge, AddPasskey, DeletePasskey, MarkPasskeyUsed;
    hide Run, RunEnabled, Follows, TrimSpace, CloneUser, Build, RequireUser;
    var r := IssueWithMethod(sys, u, m, env, i, j);
    NothingFollows(r.sys, r.resp);
    ThenFollows(sys.store, r.ops[0], Reply(r.sys, r.resp, []));
  }

  lemma SameIds(s: State, id: Id, data: Meta, now: int, p: Purpose, fid: Id)
    ensures SetUserMetadata(s, id, data, now).st.ids == s.ids && UpdateLastSignIn(s, id, now).st.ids == s.ids
    ensures ConsumeAuthCode(s, id, now).st.ids == s.ids && MarkPasskeyUsed(s, id, now).ids == s.ids
    ensures ConsumePasskeyChallenge(s, id, p, now).st.ids == s.ids
    ensures ConsumeChallenge(s, fid, id, now).st.ids == s.ids
    ensures VerifyFactor(s, fid, now).st.ids == s.ids
  {
  }

  lemma SignInFollows(sys: Sys, uid: Id, m: string, status: int, code: string, env: Env, i: nat)
    requires FreshFrom(sys.store, env, 0)
    ensures Follows(sys.store, SignIn(sys, uid, m, status, code, env, i))
  {
    hide CreateUser, SetUserMetadata, UpdateLastSignIn, DeleteUser, AddIdentity, RemoveIdentity, CreateOAuthUser;
    hide CreateAuthCode, ConsumeAuthCode, CreateSession, IssueRefreshToken, IssueSession, ConsumeRefreshToken;
    hide RevokeRefreshTokensBySession, EnrollFactor, VerifyFactor, DeleteFactor, CreateChallenge, ConsumeChallenge;
    hide UpgradeSessionAAL, CreatePasskeyChallenge, ConsumePasskeyChallenge, AddPasskey, DeletePasskey, MarkPasskeyUsed;
    hide Run, RunEnabled, Follows, TrimSpace, CloneUser, Build, RequireUser;
    hide IssueWithMethod;
    var a := UpdateLastSignIn(sys.store, uid, env.clk(i));
    SameIds(sys.store, uid, map[], env.clk(i), Registration, "");
    var sys' := sys.(store := a.st);
    var op := OpUpdateLastSignIn(uid, env.clk(i));
    if a.res.Err? {
      NothingFollows(sys', Rejected(status, code));
      ThenFollows(sys.store, op, Refuse(sys', status, code));
    } else {
      IssueFollows(sys', a.res.value, m, env, i + 1, 0);
      ThenFollows(sys.store, op, IssueWithMethod(sys', a.res.value, m, env, i + 1, 0));
    }
  }

  lemma PasswordGrantFollows(sys: Sys, email: string, password: string, env: Env)
    requires FreshFrom(sys.store, env, 0)
    ensures Follows(sys.store, PasswordGrantStep(sys, email, password, env))
  {
    hide SignIn, Follows, FreshFrom;
    NothingFollows(sys, Rejected(400, "invalid_credentials"));
    var u := FindUserByEmail(sys.store, TrimSpace(email));
    if u.Some? {
      SignInFollows(sys, u.value.id, "password", 400, "invalid_credentials", env, 0);
    }
  }

  lemma PkceGrantFollows(sys: Sys, code: Id, env: Env)
    requires FreshFrom(sys.store, env, 0)
    ensures Follows(sys.store, PkceGrantStep(sys, code, env))
  {
    hide CreateUser, SetUserMetadata, UpdateLastSignIn, DeleteUser, AddIdentity, RemoveIdentity, CreateOAuthUser;
    hide CreateAuthCode, ConsumeAuthCode, CreateSession, IssueRefreshToken, IssueSession, ConsumeRefreshToken;
    hide RevokeRefreshTokensBySession, EnrollFactor, VerifyFactor, DeleteFactor, CreateChallenge, ConsumeChallenge;
    hide UpgradeSessionAAL, CreatePasskeyChallenge, ConsumePasskeyChallenge, AddPasskey, DeletePasskey, MarkPasskeyUsed;
    hide Run, RunEnabled, Follows, TrimSpace, CloneUser, Build, RequireUser;
    hide SignIn;
    NothingFollows(sys, Rejected(400, "invalid_request"));
    var a := ConsumeAuthCode(sys.store, code, env.clk(0));
    SameIds(sys.store, code, map[], env.clk(0), Registration, "");
    var sys' := sys.(store := a.st);
    var op := OpConsumeAuthCode(code, env.clk(0));
    if a.res.Err? {
      NothingFollows(sys', Rejected(400, "invalid_grant"));
      ThenFollows(sys.store, op, Refuse(sys', 400, "invalid_grant"));
    } else {
      SignInFollows(sys', a.res.value.userID, "oauth", 400, "invalid_grant", env, 1);
      ThenFollows(sys.store, op, SignIn(sys', a.res.value.userID, "oauth", 400, "invalid_grant", env, 1));
    }
  }

  lemma WelcomeFollows(sys: Sys, u: User, data: Meta, env: Env)
    requires FreshFrom(sys.store, env, 2)
    ensures Follows(sys.store, Welcome(sys, u, data, env))
  {
    hide CreateUser, SetUserMetadata, UpdateLastSignIn, DeleteUser, AddIdentity, RemoveIdentity, CreateOAuthUser;
    hide CreateAuthCode, ConsumeAuthCode, CreateSession, IssueRefreshToken, IssueSession, ConsumeRefreshToken;
    hide RevokeRefreshTokensBySession, EnrollFactor, VerifyFactor, DeleteFactor, CreateChallenge, ConsumeChallenge;
    hide UpgradeSessionAAL, CreatePasskeyChallenge, ConsumePasskeyChallenge, AddPasskey, DeletePasskey, MarkPasskeyUsed;
    hide Run, RunEnabled, Follows, TrimSpace, CloneUser, Build, RequireUser;
    hide IssueWithMethod;
    IssueFollows(sys, u, "password", env, 2, 2);
    if |data| != 0 {
      var b := SetUserMetadata(sys.store, u.id, data, env.clk(1));
      SameIds(sys.store, u.id, data, env.clk(1), Registration, "");
      var u' := if b.res.Ok? then b.res.value else u;
      IssueFollows(sys.(store := b.st), u', "password", env, 2, 2);
      ThenFollows(sys.store, OpSetUserMetadata(u.id, data, env.clk(1)),
                  IssueWithMethod(sys.(store := b.st), u', "password", env, 2, 2));
    }
  }

  lemma UsedByCreateUser(s: State, email: string, hash: seq<bv8>, now: int, uid: Id, iid: Id)
    ensures CreateUser(s, email, hash, now, uid, iid).st.ids.used <= s.ids.used + {uid, iid}
  {
  }

  lemma SignupFollows(sys: Sys, email: string, password: string, data: Meta, env: Env)
    requires FreshFrom(sys.store, env, 0)
    ensures Follows(sys.store, SignupStep(sys, email, password, data, env))
  {
    hide CreateUser, SetUserMetadata, UpdateLastSignIn, DeleteUser, AddIdentity, RemoveIdentity, CreateOAuthUser;
    hide CreateAuthCode, ConsumeAuthCode, CreateSession, IssueRefreshToken, IssueSession, ConsumeRefreshToken;
    hide RevokeRefreshTokensBySession, EnrollFactor, VerifyFactor, DeleteFactor, CreateChallenge, ConsumeChallenge;
    hide UpgradeSessionAAL, CreatePasskeyChallenge, ConsumePasskeyChallenge, AddPasskey, DeletePasskey, MarkPasskeyUsed;
    hide Run, RunEnabled, Follows, TrimSpace, CloneUser, Build, RequireUser;
    hide Welcome;
    NothingFollows(sys, SignupStep(sys, email, password, data, env).resp);
    if env.hash(password).Some? {
      var hash, address := env.hash(password).value, TrimSpace(email);
      var a := CreateUser(sys.store, address, hash, env.clk(0), env.uuid(0), env.uuid(1));
      UsedByCreateUser(sys.store, address, hash, env.clk(0), env.uuid(0), env.uuid(1));
      FreshAfter(sys.store, a.st, env, 0, 2);
      var sys' := sys.(store := a.st);
      var op := OpCreateUser(address, hash, env.clk(0), env.uuid(0), env.uuid(1));
      if a.res.Err? {
        NothingFollows(sys', Rejected(422, ""));
        ThenFollows(sys.store, op, Refuse(sys', 422, ""));
      } else {
        WelcomeFollows(sys', a.res.value, data, env);
        ThenFollows(sys.store, op, Welcome(sys', a.res.value, data, env));
      }
    }
  }

  lemma AuthorizeFollows(sys: Sys, provider: string, redirectTo: string, hint: string, env: Env)
    requires EnvOk(sys.store, env)
    ensures Follows(sys.store, AuthorizeStep(sys, provider, redirectTo, hint, env))
  {
    hide CreateUser, SetUserMetadata, UpdateLastSignIn, DeleteUser, AddIdentity, RemoveIdentity, CreateOAuthUser;
    hide CreateAuthCode, ConsumeAuthCode, CreateSession, IssueRefreshToken, IssueSession, ConsumeRefreshToken;
    hide RevokeRefreshTokensBySession, EnrollFactor, VerifyFactor, DeleteFactor, CreateChallenge, ConsumeChallenge;
    hide UpgradeSessionAAL, CreatePasskeyChallenge, ConsumePasskeyChallenge, AddPasskey, DeletePasskey, MarkPasskeyUsed;
    hide Run, RunEnabled, Follows, TrimSpace, CloneUser, Build, RequireUser;
    hide Synthesized;
    var p := TrimSpace(provider);
    var r := AuthorizeStep(sys, provider, redirectTo, hint, env);
    NothingFollows(sys, r.resp);
    NothingFollows(r.sys, r.resp);
    var last := Reply(r.sys, r.resp, []);
    var a := CreateOAuthUser(sys.store, p, hint, env.clk(0), env.uuid(0), env.uuid(1), env.uuid(2), env.uuid(3));
    var op := OpCreateOAuthUser(p, hint, env.clk(0), env.uuid(0), env.uuid(1), env.uuid(2), env.uuid(3));
    UsedByOAuth(sys.store, p, hint, env.clk(0), env.uuid(0), env.uuid(1), env.uuid(2), env.uuid(3));
    if r.ops != [] {
      if a.res.Err? {
        ThenFollows(sys.store, op, last);
      } else {
        var op' := OpCreateAuthCode(a.res.value.id, env.clk(1), env.uuid(4));
        ThenFollows(a.st, op', last);
        ThenFollows(sys.store, op, Then(op', last));
      }
    }
  }

  lemma UsedByOAuth(s: State, provider: string, hint: string, now: int, uid: Id, sub: Id, iid: Id, salt: Id)
    ensures CreateOAuthUser(s, provider, hint, now, uid, sub, iid, salt).st.ids.used
            <= s.ids.used + {uid, sub, iid, salt}
  {
    hide HasProvider, AppendProviderIdentity, RecomputeProviders, OAuthEmail, Synthesized, NewUser;
  }

  lemma StepUpFollows(sys: Sys, uid: Id, sid: Id, env: Env)
    requires FreshFrom(sys.store, env, 0)
    ensures Follows(sys.store, StepUp(sys, uid, sid, env))
  {
    hide CreateUser, SetUserMetadata, UpdateLastSignIn, DeleteUser, AddIdentity, RemoveIdentity, CreateOAuthUser;
    hide CreateAuthCode, ConsumeAuthCode, CreateSession, IssueRefreshToken, IssueSession, ConsumeRefreshToken;
    hide RevokeRefreshTokensBySession, EnrollFactor, VerifyFactor, DeleteFactor, CreateChallenge, ConsumeChallenge;
    hide UpgradeSessionAAL, CreatePasskeyChallenge, ConsumePasskeyChallenge, AddPasskey, DeletePasskey, MarkPasskeyUsed;
    hide Run, RunEnabled, Follows, TrimSpace, CloneUser, Build, RequireUser;
    var r := StepUp(sys, uid, sid, env);
    NothingFollows(r.sys, r.resp);
    var last := Reply(r.sys, r.resp, []);
    var a := UpgradeSessionAAL(sys.store, sid, WEBAUTHN, env.clk(3));
    UpgradeSameIds(sys.store, sid, WEBAUTHN, env.clk(3));
    if r.ops != [] {
      if a.res.Err? {
        ThenFollows(sys.store, OpUpgradeSessionAAL(sid, WEBAUTHN, env.clk(3)), last);
      } else {
        var op' := OpIssueRefreshToken(uid, sid, env.clk(4), env.uuid(0));
        ThenFollows(a.st, op', last);
        ThenFollows(sys.store, OpUpgradeSessionAAL(sid, WEBAUTHN, env.clk(3)), Then(op', last));
      }
    }
  }

  lemma UpgradeSameIds(s: State, sid: Id, m: string, now: int)
    ensures UpgradeSessionAAL(s, sid, m, now).st.ids == s.ids
  {
    hide HasMethod;
  }

  // One operation, by its name.
  lemma ConsumeChallengeIs(s: State, fid: Id, cid: Id, now: int)
    ensures Enabled(s, OpConsumeChallenge(fid, cid, now))
    ensures Apply(s, OpConsumeChallenge(fid, cid, now)) == ConsumeChallenge(s, fid, cid, now).st
  {
    hide ConsumeChallenge;
  }

  lemma VerifyFactorIs(s: State, fid: Id, now: int)
    ensures Enabled(s, OpVerifyFactor(fid, now)) && Apply(s, OpVerifyFactor(fid, now)) == VerifyFactor(s, fid, now).st
  {
    hide VerifyFactor;
  }

  lemma ConsumeCeremonyIs(s: State, cid: Id, p: Purpose, now: int)
    ensures Enabled(s, OpConsumePasskeyChallenge(cid, p, now))
    ensures Apply(s, OpConsumePasskeyChallenge(cid, p, now)) == ConsumePasskeyChallenge(s, cid, p, now).st
  {
    hide ConsumePasskeyChallenge;
  }

  lemma AddPasskeyIs(s: State, uid: Id, name: string, cred: string, now: int, pid: Id)
    ensures Enabled(s, OpAddPasskey(uid, name, cred, now, pid)) <==> Fresh(s, pid)
    ensures Apply(s, OpAddPasskey(uid, name, cred, now, pid)) == AddPasskey(s, uid, name, cred, now, pid).st
  {
    hide AddPasskey, Fresh;
  }

  lemma MarkPasskeyIs(s: State, pid: Id, now: int)
    ensures Enabled(s, OpMarkPasskeyUsed(pid, now))
    ensures Apply(s, OpMarkPasskeyUsed(pid, now)) == MarkPasskeyUsed(s, pid, now)
  {
    hide MarkPasskeyUsed;
  }

  lemma VerifyFactorFollows(sys: Sys, bearer: Bearer, fid: Id, cid: Id, env: Env)
    requires FreshFrom(sys.store, env, 0)
    ensures Follows(sys.store, VerifyFactorStep(sys, bearer, fid, cid, env))
  {
    hide ConsumeChallenge, VerifyFactor, ConsumePasskeyChallenge, AddPasskey, MarkPasskeyUsed;
    hide Apply, Enabled, Run, RunEnabled, Follows, TrimSpace, CloneUser, Build, RequireUser;
    hide StepUp;
    var r := VerifyFactorStep(sys, bearer, fid, cid, env);
    NothingFollows(r.sys, r.resp);
    var a := ConsumeChallenge(sys.store, fid, cid, env.clk(1));
    var op := OpConsumeChallenge(fid, cid, env.clk(1));
    SameIds(sys.store, cid, map[], env.clk(1), Registration, fid);
    ConsumeChallengeIs(sys.store, fid, cid, env.clk(1));
    if r.ops != [] {
      if a.res.Err? {
        ThenFollows(sys.store, op, Reply(r.sys, r.resp, []));
      } else {
        var b := VerifyFactor(a.st, fid, env.clk(2));
        var op' := OpVerifyFactor(fid, env.clk(2));
        SameIds(a.st, cid, map[], env.clk(2), Registration, fid);
        VerifyFactorIs(a.st, fid, env.clk(2));
        var caller := RequireUser(sys, bearer, env.clk(0));
        var next := if b.res.Err? then Refuse(sys.(store := b.st), 404, "mfa_factor_not_found")
                    else StepUp(sys.(store := b.st), caller.user.id, caller.claims.sid, env);
        if b.res.Err? {
          NothingFollows(sys.(store := b.st), Rejected(404, "mfa_factor_not_found"));
        } else {
          StepUpFollows(sys.(store := b.st), caller.user.id, caller.claims.sid, env);
        }
        ThenFollows(a.st, op', next);
        ThenFollows(sys.store, op, Then(op', next));
      }
    }
  }

  lemma RegistrationVerifyFollows(sys: Sys, bearer: Bearer, cid: Id, cred: string, name: string, env: Env)
    requires FreshFrom(sys.store, env, 0)
    ensures Follows(sys.store, RegistrationVerifyStep(sys, bearer, cid, cred, name, env))
  {
    hide ConsumeChallenge, VerifyFactor, ConsumePasskeyChallenge, AddPasskey, MarkPasskeyUsed;
    hide Apply, Enabled, Run, RunEnabled, Follows, TrimSpace, CloneUser, Build, RequireUser;
    var r := RegistrationVerifyStep(sys, bearer, cid, cred, name, env);
    NothingFollows(r.sys, r.resp);
    var last := Reply(r.sys, r.resp, []);
    SameIds(sys.store, cid, map[], env.clk(1), Registration, "");
    ConsumeCeremonyIs(sys.store, cid, Registration, env.clk(1));
    if |r.ops| == 1 {
      ThenFollows(sys.store, r.ops[0], last);
    } else if |r.ops| == 2 {
      var op := r.ops[1];
      AddPasskeyIs(Apply(sys.store, r.ops[0]), op.uid, op.name, op.cred, op.now, op.pid);
      ThenFollows(Apply(sys.store, r.ops[0]), op, last);
      ThenFollows(sys.store, r.ops[0], Then(r.ops[1], last));
      assert r.ops == [r.ops[0]] + ([r.ops[1]] + []);
    }
  }

  lemma AuthenticationVerifyFollows(sys: Sys, cid: Id, cred: string, env: Env)
    requires FreshFrom(sys.store, env, 0)
    ensures Follows(sys.store, AuthenticationVerifyStep(sys, cid, cred, env))
  {
    hide ConsumeChallenge, VerifyFactor, ConsumePasskeyChallenge, AddPasskey, MarkPasskeyUsed;
    hide Apply, Enabled, Run, RunEnabled, Follows, TrimSpace, CloneUser, Build, RequireUser;
    hide IssueWithMethod, FindPasskeyByCredentialID;
    var r := AuthenticationVerifyStep(sys, cid, cred, env);
    NothingFollows(r.sys, r.resp);
    var a := ConsumePasskeyChallenge(sys.store, cid, Authentication, env.clk(0));
    var op := OpConsumePasskeyChallenge(cid, Authentication, env.clk(0));
    SameIds(sys.store, cid, map[], env.clk(0), Authentication, "");
    ConsumeCeremonyIs(sys.store, cid, Authentication, env.clk(0));
    if r.ops != [] {
      var pk := FindPasskeyByCredentialID(a.st, cred);
      if a.res.Err? || pk.None? || pk.value.userID !in a.st.accounts.users {
        ThenFollows(sys.store, op, Reply(r.sys, r.resp, []));
      } else {
        var st := MarkPasskeyUsed(a.st, pk.value.id, env.clk(1));
        SameIds(a.st, pk.value.id, map[], env.clk(1), Authentication, "");
        MarkPasskeyIs(a.st, pk.value.id, env.clk(1));
        var u := a.st.accounts.users[pk.value.userID];
        IssueFollows(sys.(store := st), u, WEBAUTHN, env, 2, 0);
        var next := IssueWithMethod(sys.(store := st), u, WEBAUTHN, env, 2, 0);
        ThenFollows(a.st, OpMarkPasskeyUsed(pk.value.id, env.clk(1)), next);
        ThenFollows(sys.store, op, Then(OpMarkPasskeyUsed(pk.value.id, env.clk(1)), next));
      }
    }
  }

  lemma UsedByAddIdentity(s: State, uid: Id, provider: string, data: Meta, now: int, iid: Id)
    ensures AddIdentity(s, uid, provider, data, now, iid).st.ids.used <= s.ids.used + {iid}
  {
    hide HasProvider, LinkIdentity;
  }

  lemma {:induction false} SeedIdentitiesFollow(sys: Sys, uid: Id, seeds: seq<Seed>, k: nat, env: Env)
    requires FreshFrom(sys.store, env, 2 + k) && k <= |seeds|
    ensures Follows(sys.store, SeedIdentities(sys, uid, seeds, k, env))
    decreases |seeds| - k
  {
    hide CreateUser, SetUserMetadata, UpdateLastSignIn, DeleteUser, AddIdentity, RemoveIdentity, CreateOAuthUser;
    hide CreateAuthCode, ConsumeAuthCode, CreateSession, IssueRefreshToken, IssueSession, ConsumeRefreshToken;
    hide RevokeRefreshTokensBySession, EnrollFactor, VerifyFactor, DeleteFactor, CreateChallenge, ConsumeChallenge;
    hide UpgradeSessionAAL, CreatePasskeyChallenge, ConsumePasskeyChallenge, AddPasskey, DeletePasskey, MarkPasskeyUsed;
    hide Run, RunEnabled, Follows, TrimSpace, CloneUser, Build, RequireUser;
    var r := SeedIdentities(sys, uid, seeds, k, env);
    NothingFollows(r.sys, r.resp);
    if k < |seeds| && TrimSpace(seeds[k].provider) != "" {
      var provider := TrimSpace(seeds[k].provider);
      var a := AddIdentity(sys.store, uid, provider, seeds[k].data, env.clk(1 + k), env.uuid(2 + k));
      var op := OpAddIdentity(uid, provider, seeds[k].data, env.clk(1 + k), env.uuid(2 + k));
      UsedByAddIdentity(sys.store, uid, provider, seeds[k].data, env.clk(1 + k), env.uuid(2 + k));
      FreshAfter(sys.store, a.st, env, 2 + k, 3 + k);
      if a.res.Err? {
        ThenFollows(sys.store, op, Reply(r.sys, r.resp, []));
      } else {
        SeedIdentitiesFollow(sys.(store := a.st), uid, seeds, k + 1, env);
        ThenFollows(sys.store, op, SeedIdentities(sys.(store := a.st), uid, seeds, k + 1, env));
      }
    }
  }

  lemma SeedUserFollows(sys: Sys, email: string, password: string, seeds: seq<Seed>, env: Env)
    requires FreshFrom(sys.store, env, 0)
    ensures Follows(sys.store, SeedUserStep(sys, email, password, seeds, env))
  {
    hide CreateUser, SetUserMetadata, UpdateLastSignIn, DeleteUser, AddIdentity, RemoveIdentity, CreateOAuthUser;
    hide CreateAuthCode, ConsumeAuthCode, CreateSession, IssueRefreshToken, IssueSession, ConsumeRefreshToken;
    hide RevokeRefreshTokensBySession, EnrollFactor, VerifyFactor, DeleteFactor, CreateChallenge, ConsumeChallenge;
    hide UpgradeSessionAAL, CreatePasskeyChallenge, ConsumePasskeyChallenge, AddPasskey, DeletePasskey, MarkPasskeyUsed;
    hide Run, RunEnabled, Follows, TrimSpace, CloneUser, Build, RequireUser;
    hide SeedIdentities;
    NothingFollows(sys, SeedUserStep(sys, email, password, seeds, env).resp);
    if env.hash(password).Some? {
      var hash, address := env.hash(password).value, TrimSpace(email);
      var a := CreateUser(sys.store, address, hash, env.clk(0), env.uuid(0), env.uuid(1));
      UsedByCreateUser(sys.store, address, hash, env.clk(0), env.uuid(0), env.uuid(1));
      FreshAfter(sys.store, a.st, env, 0, 2);
      var sys' := sys.(store := a.st);
      var op := OpCreateUser(address, hash, env.clk(0), env.uuid(0), env.uuid(1));
      if a.res.Err? {
        NothingFollows(sys', Rejected(409, ""));
        ThenFollows(sys.store, op, Refuse(sys', 409, ""));
      } else {
        SeedIdentitiesFollow(sys', a.res.value.id, seeds, 0, env);
        ThenFollows(sys.store, op, SeedIdentities(sys', a.res.value.id, seeds, 0, env));
      }
    }
  }

  // ---- every request ----------------------------------------------------------

  // A request is a run of store operations.
  lemma RequestIsRun(sys: Sys, req: Request, env: Env)
    requires EnvOk(sys.store, env)
    ensures Follows(sys.store, Step(sys, req, env))
  {
    hide SignupStep, PasswordGrantStep, RefreshGrantStep, PkceGrantStep, AuthorizeStep, LogoutStep, EnrollFactorStep;
    hide ChallengeFactorStep, VerifyFactorStep, UnenrollFactorStep, RegistrationOptionsStep, RegistrationVerifyStep;
    hide AuthenticationOptionsStep, AuthenticationVerifyStep, PasskeyDeleteStep, UnlinkIdentityStep, SeedUserStep;
    hide AdminDeleteUserStep, ResetStep, EnvOk, FreshFrom, Follows;
    EnvFresh(sys.store, env);
    match req
    case Signup(email, password, data) => SignupFollows(sys, email, password, data, env);
    case PasswordGrant(email, password) => PasswordGrantFollows(sys, email, password, env);
    case PkceGrant(code) => PkceGrantFollows(sys, code, env);
    case Authorize(provider, redirectTo, hint) => AuthorizeFollows(sys, provider, redirectTo, hint, env);
    case VerifyFactorRequest(bearer, fid, cid) => VerifyFactorFollows(sys, bearer, fid, cid, env);
    case PasskeyRegistrationVerify(bearer, cid, cred, name) => RegistrationVerifyFollows(sys, bearer, cid, cred,
        name, env);
    case PasskeyAuthenticationVerify(cid, cred) => AuthenticationVerifyFollows(sys, cid, cred, env);
    case SeedUser(email, password, seeds) => SeedUserFollows(sys, email, password, seeds, env);
    case _ => OneOperationFollows(sys, req, env);
  }

  // So a request keeps the invariant of the store.
  lemma RequestKeepsInv(sys: Sys, req: Request, env: Env)
    requires Inv(sys.store) && EnvOk(sys.store, env)
    ensures Inv(Step(sys, req, env).sys.store)
  {
    hide Inv, Step, EnvOk, Apply, Enabled;
    RequestIsRun(sys, req, env);
    RunInv(sys.store, Step(sys, req, env).ops);
  }
}

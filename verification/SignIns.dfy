// Who a sign-in signs in, by password, by authorization code and by refresh token, exactly when.
module SignIns {
  import opened Text
  import opened Model
  import opened Ops
  import opened Integrity
  import opened Emails
  import opened Invariant
  import opened Requests
  import opened Answers

  // ---- passwords ----------------------------------------------------------------

  // The address leads to the user, who has it, and the password checks against that user's hash.
  ghost predicate PasswordChecks(s: State, env: Env, email: string, password: string, uid: Id) {
    var address := Lower(TrimSpace(email));
    && TrimSpace(email) != "" && password != ""
    && address in s.accounts.emailIndex && s.accounts.emailIndex[address] == uid
    && uid in s.accounts.users && s.accounts.users[uid].email == address
    && env.check(s.accounts.users[uid].passwordHash, password)
  }

  lemma PasswordGrantIs(sys: Sys, email: string, password: string, env: Env)
    ensures Step(sys, PasswordGrant(email, password), env) == PasswordGrantStep(sys, email, password, env)
  {
    hide PasswordGrantStep;
  }

  lemma FoundHasAddress(s: State, email: string)
    requires Inv(s)
    ensures FindUserByEmail(s, email).None? <==> Lower(email) !in s.accounts.emailIndex
    ensures FindUserByEmail(s, email).Some? ==>
              var uid := s.accounts.emailIndex[Lower(email)];
              && uid in s.accounts.users && FindUserByEmail(s, email) == Some(s.accounts.users[uid])
              && s.accounts.users[uid].id == uid && s.accounts.users[uid].email == Lower(email)
  {
    LowerIdempotent(email);
    assert UsersOk(s.accounts.users) && LowerEntries(s.accounts.users, s.accounts.emailIndex);
    hide Inv, Lower;
  }

  // A password sign-in is answered with tokens for a user exactly when that user has the address and the
  // password checks; then that user's stamps change, and otherwise nothing does.
  lemma PasswordSignsIn(sys: Sys, email: string, password: string, env: Env)
    requires Inv(sys.store)
    ensures var r := Step(sys, PasswordGrant(email, password), env);
            && (forall uid :: PasswordChecks(sys.store, env, email, password, uid) <==>
                  r.resp.Token? && r.resp.tr.user.id == uid)
            && (r.resp.Token? ==>
                  && Shows(sys, r, env.clk(3)) && Opened(sys.store, r, "password", env.clk(1), env.clk(2))
                  && SignedIn(sys.store, r.sys.store, r.resp.tr.user.id, env.clk(0)))
            && (!r.resp.Token? ==> r.resp == Rejected(400, "invalid_credentials") && r.sys == sys)
  {
    hide Step, Inv, TrimSpace, Lower, FindUserByEmail, SignIn, Shows, Opened, SignedIn;
    PasswordGrantIs(sys, email, password, env);
    FoundHasAddress(sys.store, TrimSpace(email));
    InvUsers(sys.store);
    var u := FindUserByEmail(sys.store, TrimSpace(email));
    if u.Some? {
      SignInShows(sys, u.value.id, "password", 400, "invalid_credentials", env, 0);
    }
  }

  lemma InvUsers(s: State)
    requires Inv(s)
    ensures UsersOk(s.accounts.users)
  {
  }

  // On an exact index: exactly when some stored user has the address and the password checks.
  lemma PasswordSignsInExactly(sys: Sys, email: string, password: string, env: Env, uid: Id)
    requires Inv(sys.store) && Agrees(sys.store.accounts.users, sys.store.accounts.emailIndex)
    ensures var r := Step(sys, PasswordGrant(email, password), env);
            r.resp.Token? && r.resp.tr.user.id == uid <==>
              && TrimSpace(email) != "" && password != ""
              && uid in sys.store.accounts.users && sys.store.accounts.users[uid].email == Lower(TrimSpace(email))
              && env.check(sys.store.accounts.users[uid].passwordHash, password)
  {
    hide Step, Inv, TrimSpace, Lower, Shows, SignedIn;
    PasswordSignsIn(sys, email, password, env);
    var r := Step(sys, PasswordGrant(email, password), env);
    assert PasswordChecks(sys.store, env, email, password, uid) <==> r.resp.Token? && r.resp.tr.user.id == uid;
  }

  // ---- authorization codes ------------------------------------------------------

  // The code is held for the user, who exists, and its time has not passed.
  ghost predicate CodeChecks(s: State, code: Id, now: int, uid: Id) {
    && TrimSpace(code) != "" && code in s.oauth.authCodes && s.oauth.authCodes[code].userID == uid
    && now <= s.oauth.authCodes[code].expiresAt && uid in s.accounts.users
  }

  lemma PkceGrantIs(sys: Sys, code: Id, env: Env)
    ensures Step(sys, PkceGrant(code), env) == PkceGrantStep(sys, code, env)
  {
    hide PkceGrantStep;
  }

  // An exchange is answered with tokens for a user exactly when the code is held for that user and in time. The
  // code is spent, whatever the answer.
  lemma CodeSignsIn(sys: Sys, code: Id, env: Env)
    requires Inv(sys.store)
    ensures var r := Step(sys, PkceGrant(code), env);
            && (forall uid :: CodeChecks(sys.store, code, env.clk(0), uid) <==>
                  r.resp.Token? && r.resp.tr.user.id == uid)
            && (r.resp.Token? ==>
                  && Shows(sys, r, env.clk(4)) && Opened(sys.store, r, "oauth", env.clk(2), env.clk(3))
                  && SignedIn(sys.store, r.sys.store, r.resp.tr.user.id, env.clk(1)))
            && (!r.resp.Token? ==>
                  && r.resp == Rejected(400, if TrimSpace(code) == "" then "invalid_request" else "invalid_grant")
                  && r.sys == sys.(store := sys.store.(oauth := r.sys.store.oauth)))
            && r.sys.store.oauth.authCodes ==
                 sys.store.oauth.authCodes - (if TrimSpace(code) == "" then {} else {code})
            && r.sys.store.mfa == sys.store.mfa && r.sys.store.keys == sys.store.keys
  {
    hide Step, Inv, TrimSpace, SignIn, Shows, Opened, SignedIn;
    PkceGrantIs(sys, code, env);
    InvUsers(sys.store);
    var a := ConsumeAuthCode(sys.store, code, env.clk(0));
    if a.res.Ok? {
      SpentCode(sys.store, a.st, a.res.value.userID, env.clk(1));
      SignInShows(sys.(store := a.st), a.res.value.userID, "oauth", 400, "invalid_grant", env, 1);
      SameSys(sys, sys.(store := a.st),
              SignIn(sys.(store := a.st), a.res.value.userID, "oauth", 400, "invalid_grant", env, 1),
              env.clk(4), OpConsumeAuthCode(code, env.clk(0)));
      SameOpened(sys.store, a.st,
                 SignIn(sys.(store := a.st), a.res.value.userID, "oauth", 400, "invalid_grant", env, 1),
                 OpConsumeAuthCode(code, env.clk(0)), "oauth", env.clk(2), env.clk(3));
    }
  }

  lemma SpentCode(s: State, a: State, uid: Id, now: int)
    requires a.accounts == s.accounts
    ensures forall t :: SignedIn(a, t, uid, now) <==> SignedIn(s, t, uid, now)
  {
  }

  // ---- refresh tokens -------------------------------------------------------------

  lemma RefreshGrantIs(sys: Sys, token: Id, env: Env)
    ensures Step(sys, RefreshGrant(token), env) == RefreshGrantStep(sys, token, env)
  {
    hide RefreshGrantStep;
  }

  lemma ConsumedOwner(s: State, token: Id, now: int, next: Id)
    requires Inv(s)
    ensures var out := ConsumeRefreshToken(s, token, now, next);
            && SameRecords(s, out.st) && (out.res.Err? ==> out.st == s)
            && (token == "" ==> out.res.Err?)
            && (out.res.Ok? ==>
                  var uid := s.auth.refreshTokens[token].userID;
                  && token in s.auth.refreshTokens && uid in s.accounts.users
                  && out.res.value.1 == s.accounts.users[uid] && out.res.value.1.id == uid)
  {
    InvTokens(s);
    hide Inv, FindLatestChild;
  }

  lemma InvTokens(s: State)
    requires Inv(s)
    ensures UsersOk(s.accounts.users) && "" !in s.auth.refreshTokens
  {
  }

  // A refresh is answered with tokens exactly when the store accepts the token, and for the token's owner; no
  // record of the user changes.
  lemma RefreshSignsIn(sys: Sys, token: Id, env: Env)
    requires Inv(sys.store)
    ensures var r := Step(sys, RefreshGrant(token), env);
            && (r.resp.Token? <==> ConsumeRefreshToken(sys.store, token, env.clk(0), env.uuid(0)).res.Ok?)
            && (r.resp.Token? ==>
                  && Shows(sys, r, env.clk(1)) && token in sys.store.auth.refreshTokens
                  && r.resp.tr.user.id == sys.store.auth.refreshTokens[token].userID)
            && (!r.resp.Token? ==> r.resp == Rejected(400, "invalid_grant") && r.sys == sys)
            && SameRecords(sys.store, r.sys.store)
  {
    hide Step, Inv, ConsumeRefreshToken, Mint, Shows;
    RefreshGrantIs(sys, token, env);
    ConsumedOwner(sys.store, token, env.clk(0), env.uuid(0));
    var a := ConsumeRefreshToken(sys.store, token, env.clk(0), env.uuid(0));
    if a.res.Ok? {
      var (rt, u) := a.res.value;
      MintShows(sys.(store := a.st), u, rt.sessionID, rt.token, env.clk(1));
      SameSys(sys, sys.(store := a.st), Mint(sys.(store := a.st), u, rt.sessionID, rt.token, env.clk(1)), env.clk(1),
              OpConsumeRefreshToken(token, env.clk(0), env.uuid(0)));
    }
  }
}

// The invariant of the whole store, kept by every public method and so by every run of them.
module Invariant {
  import opened Text
  import opened Model
  import opened Ops
  import opened Forest
  import opened Integrity
  import opened Emails
  import opened Identities

  ghost predicate Rotates(toks: map<Id, RefreshToken>, p2c: map<Id, Id>) {
    exists f: Chains :: Refines(toks, p2c, f)
  }

  ghost predicate Inv(s: State) {
    && Sound(s)
    && LowerEntries(s.accounts.users, s.accounts.emailIndex)
    && Profiles(s)
    && Rotates(s.auth.refreshTokens, s.auth.parentToChild)
  }

  // Methods that leave the accounts and the rotation forest alone.
  lemma OtherKeeps(s: State, t: State)
    requires Inv(s) && Sound(t) && Aside(s, t)
    ensures Inv(t)
  {
    hide Sound, LowerEntries, Refines, AllLinked;
    RowsGrow(s.accounts.users, s.ids.used, t.ids.used);
    hide Rows;
  }

  // ---- accounts ---------------------------------------------------------------

  lemma CreateUserKeeps(s: State, email: string, hash: seq<bv8>, now: int, uid: Id, iid: Id)
    requires Inv(s) && Enabled(s, OpCreateUser(email, hash, now, uid, iid))
    ensures Inv(CreateUser(s, email, hash, now, uid, iid).st)
  {
    var u := EmailUser(Lower(email), hash, now, uid, iid);
    EmailUserLinked(Lower(email), hash, now, uid, iid);
    RegisterUserSound(s, u, {uid, iid});
    assert uid !in s.accounts.users;
    RegisterKeepsEntries(s, u);
    CreateUserProfiles(s, email, hash, now, uid, iid);
    hide Sound, LowerEntries, Profiles, Rotates, EmailUser;
  }

  lemma PutKeeps(s: State, u: User, ids: set<Id>)
    requires Inv(s) && u.id in s.accounts.users && u.email == s.accounts.users[u.id].email && "" !in ids
    ensures var t := Issue(PutUser(s, u), ids);
            && Sound(t)
            && LowerEntries(t.accounts.users, t.accounts.emailIndex)
            && Rotates(t.auth.refreshTokens, t.auth.parentToChild)
  {
    PutUserSound(s, u, ids);
    PutKeepsEmails(s, u);
    hide Sound, LowerEntries, Profiles, Rotates;
  }

  lemma UpdateKeeps(s: State, id: Id, data: Meta, now: int)
    requires Inv(s)
    ensures Inv(SetUserMetadata(s, id, data, now).st)
    ensures Inv(UpdateLastSignIn(s, id, now).st)
  {
    assert id in s.accounts.users ==> s.accounts.users[id].id == id;
    UpdateProfiles(s, id, data, now);
    if id in s.accounts.users {
      var u := s.accounts.users[id];
      PutKeeps(s, u.(userMetadata := data, updatedAt := now), {});
      PutKeeps(s, u.(lastSignInAt := Some(now), updatedAt := now), {});
      assert s.ids == Ids(s.ids.used + {});
    }
    hide Sound, LowerEntries, Profiles, Rotates;
  }

  lemma AddIdentityKeeps(s: State, userID: Id, provider: string, data: Meta, now: int, iid: Id)
    requires Inv(s) && Fresh(s, iid)
    ensures Inv(AddIdentity(s, userID, provider, data, now, iid).st)
  {
    if userID in s.accounts.users && !HasProvider(s.accounts.users[userID], provider) {
      var u := s.accounts.users[userID];
      assert u.id == userID && userID != "";
      AddIdentityProfiles(s, userID, provider, data, now, iid);
      LinkIdentityLinked(u, provider, data, now, iid, s.ids.used);
      PutKeeps(s, LinkIdentity(u, provider, data, now, iid), {iid});
    }
    hide Sound, LowerEntries, Profiles, Rotates, LinkIdentity;
  }

  lemma RemoveIdentityKeeps(s: State, userID: Id, iid: Id, now: int)
    requires Inv(s)
    ensures Inv(RemoveIdentity(s, userID, iid, now).st)
  {
    if userID in s.accounts.users {
      var u := s.accounts.users[userID];
      assert u.id == userID;
      RemoveIdentityProfiles(s, userID, iid, now);
      var i := IdentityIndex(u.identities, iid);
      if i < |u.identities| && |u.identities| > 1 {
        PutKeeps(s, RecomputeProviders(u.(identities := Without(u.identities, i))).(updatedAt := now), {});
        assert s.ids == Ids(s.ids.used + {});
      }
    }
    hide Sound, LowerEntries, Profiles, Rotates, IdentityIndex, Without;
  }

  lemma ReuseKeeps(s: State, provider: string, email: string, now: int, sub: Id, iid: Id)
    requires Inv(s) && sub != "" && Fresh(s, iid)
    requires email in s.accounts.emailIndex && s.accounts.emailIndex[email] in s.accounts.users
    ensures var u := s.accounts.users[s.accounts.emailIndex[email]];
            var t := Issue(PutUser(s,
                RecomputeProviders(AppendProviderIdentity(u, provider, email, now, sub, iid)).(updatedAt := now)),
                    {sub, iid});
            && Sound(t)
            && LowerEntries(t.accounts.users, t.accounts.emailIndex)
            && Rotates(t.auth.refreshTokens, t.auth.parentToChild)
            && u.id == s.accounts.emailIndex[email]
  {
    var u := s.accounts.users[s.accounts.emailIndex[email]];
    assert u.id == s.accounts.emailIndex[email];
    RecomputeAgrees(AppendProviderIdentity(u, provider, email, now, sub, iid));
    PutKeeps(s, RecomputeProviders(AppendProviderIdentity(u, provider, email, now, sub, iid)).(updatedAt := now),
        {sub, iid});
    hide Sound, LowerEntries, Profiles, Rotates, RecomputeProviders, MetadataAgrees, PutUser, Issue;
  }

  lemma RegisterKeeps(s: State, provider: string, address: string, now: int, uid: Id, sub: Id, iid: Id, salt: Id)
    requires Inv(s) && Fresh(s, uid) && sub != "" && iid != "" && salt != ""
    ensures var v := AppendProviderIdentity(NewUser(uid, address, now), provider, address, now, sub, iid);
            var u := RecomputeProviders(v);
            var t := Issue(RegisterUser(s, u), {uid, sub, iid, salt});
            && Sound(t)
            && LowerEntries(t.accounts.users, t.accounts.emailIndex)
            && Rotates(t.auth.refreshTokens, t.auth.parentToChild)
  {
    var v := AppendProviderIdentity(NewUser(uid, address, now), provider, address, now, sub, iid);
    var u := RecomputeProviders(v);
    RecomputeAgrees(v);
    assert uid !in s.accounts.users && u.id == uid;
    RegisterUserSound(s, u, {uid, sub, iid, salt});
    RegisterKeepsEntries(s, u);
    hide Sound, LowerEntries, Profiles, Rotates, RecomputeProviders, MetadataAgrees;
  }

  lemma CreateOAuthUserKeeps(s: State, provider: string, hint: string, now: int,
                             uid: Id, sub: Id, iid: Id, salt: Id)
    requires Inv(s) && Enabled(s, OpCreateOAuthUser(provider, hint, now, uid, sub, iid, salt))
    ensures Inv(CreateOAuthUser(s, provider, hint, now, uid, sub, iid, salt).st)
  {
    FindOrCreateNeverNil(s, provider, hint, now, uid, sub, iid, salt);
    assert UsersOk(s.accounts.users) && uid !in s.accounts.users && "" !in s.ids.used;
    CreateOAuthUserProfiles(s, provider, hint, now, uid, sub, iid, salt);
    hide Sound, LowerEntries, Profiles, Rotates, RecomputeProviders, AppendProviderIdentity, OAuthEmail, Synthesized;
    hide UsersOk, HasProvider;
    var email := OAuthEmail(hint);
    if email != "" && email in s.accounts.emailIndex {
      ReuseKeeps(s, provider, email, now, sub, iid);
    } else {
      var address := if email == "" then Synthesized(provider, salt) else email;
      var u := RecomputeProviders(AppendProviderIdentity(NewUser(uid, address, now), provider, address, now, sub, iid));
      RegisterKeeps(s, provider, address, now, uid, sub, iid, salt);
    }
  }

  // ---- rotation ---------------------------------------------------------------

  lemma IssueRefreshTokenKeeps(s: State, userID: Id, sid: Id, now: int, tok: Id)
    requires Inv(s) && Fresh(s, tok)
    ensures Inv(IssueRefreshToken(s, userID, sid, now, tok).st)
  {
    IssueRefreshTokenSound(s, userID, sid, now, tok);
    RowsGrow(s.accounts.users, s.ids.used, s.ids.used + {tok});
    assert tok !in s.auth.refreshTokens;
    var f: Chains :| Refines(s.auth.refreshTokens, s.auth.parentToChild, f);
    StartChainRefines(s.auth.refreshTokens, s.auth.parentToChild, f, userID, sid, tok, now);
    hide Sound, LowerEntries, AllLinked, Rows, Refines, StartChain;
  }

  lemma CreateSessionKeeps(s: State, userID: Id, amrMethod: string, now: int, sid: Id)
    requires Inv(s) && Fresh(s, sid)
    ensures Inv(CreateSession(s, userID, amrMethod, now, sid).st)
  {
    CreateSessionSound(s, userID, amrMethod, now, sid);
    OtherKeeps(s, CreateSession(s, userID, amrMethod, now, sid).st);
    hide Inv;
  }

  lemma IssueSessionKeeps(s: State, userID: Id, amrMethod: string, now: int, now': int, sid: Id, tok: Id)
    requires Inv(s) && Fresh(s, sid) && Fresh(s, tok) && sid != tok
    ensures Inv(IssueSession(s, userID, amrMethod, now, now', sid, tok).st)
  {
    hide Inv;
    CreateSessionKeeps(s, userID, amrMethod, now, sid);
    IssueRefreshTokenKeeps(CreateSession(s, userID, amrMethod, now, sid).st, userID, sid, now', tok);
  }

  // What consuming leaves alone and what it may assume.
  lemma ConsumeFrame(s: State, token: Id, now: int, next: Id)
    requires Inv(s) && Fresh(s, next)
    ensures var t := ConsumeRefreshToken(s, token, now, next).st;
            t.accounts == s.accounts && s.ids.used <= t.ids.used
    ensures next !in s.auth.refreshTokens && next != ""
    ensures forall u | u in s.auth.refreshTokens :: s.auth.refreshTokens[u].userID in s.accounts.users
  {
    assert TokensOk(s.auth.refreshTokens, s.accounts.users.Keys);
    hide FindLatestChild, Rotates, Profiles, LowerEntries;
  }

  lemma ConsumeRefreshTokenKeeps(s: State, token: Id, now: int, next: Id)
    requires Inv(s) && Fresh(s, next)
    ensures Inv(ConsumeRefreshToken(s, token, now, next).st)
  {
    hide Sound, Fresh, LowerEntries, AllLinked, Rows, Refines, ConsumeRefreshToken, Consume;
    ConsumeRefreshTokenSound(s, token, now, next);
    ConsumeFrame(s, token, now, next);
    var t := ConsumeRefreshToken(s, token, now, next).st;
    RowsGrow(s.accounts.users, s.ids.used, t.ids.used);
    var f: Chains :| Refines(s.auth.refreshTokens, s.auth.parentToChild, f);
    ConsumeRefines(s, f, token, now, next);
  }

  lemma RevokeKeeps(s: State, sid: Id, now: int)
    requires Inv(s)
    ensures Inv(RevokeRefreshTokensBySession(s, sid, now))
  {
    RevokeSound(s, sid, now);
    var f: Chains :| Refines(s.auth.refreshTokens, s.auth.parentToChild, f);
    KillRefines(s.auth.refreshTokens, s.auth.parentToChild, f, sid, Backdate(s.reuseInterval, now));
    hide Sound, LowerEntries, Profiles, Refines, LogoutChains, Touched, Backdate;
  }

  lemma DeleteUserKeeps(s: State, id: Id)
    requires Inv(s)
    ensures Inv(DeleteUser(s, id).st)
  {
    DeleteUserSound(s, id);
    DeleteKeepsEntries(s, id);
    DeleteUserProfiles(s, id);
    var f: Chains :| Refines(s.auth.refreshTokens, s.auth.parentToChild, f);
    DropRefines(s.auth.refreshTokens, s.auth.parentToChild, f, id);
    hide Sound, LowerEntries, Profiles, Refines, DropUser, Touched;
  }

  lemma EmptyInv(reuseInterval: int, ids: Ids)
    requires "" !in ids.used
    ensures Inv(EmptyState(reuseInterval, ids))
  {
    assert Refines(map[], map[], map[]);
  }

  // ---- factors, passkeys, tickets and session levels ---------------------------

  lemma CreateAuthCodeKeeps(s: State, userID: Id, now: int, code: Id)
    requires Inv(s) && Fresh(s, code)
    ensures Inv(CreateAuthCode(s, userID, now, code).st)
  {
    SoundNow(s);
    hide Inv, Sound, CreateAuthCode;
    CreateAuthCodeSound(s, userID, now, code);
    OtherKeeps(s, CreateAuthCode(s, userID, now, code).st);
  }

  lemma ConsumeAuthCodeKeeps(s: State, code: Id, now: int)
    requires Inv(s)
    ensures Inv(ConsumeAuthCode(s, code, now).st)
  {
    SoundNow(s);
    hide Inv, Sound, ConsumeAuthCode;
    ConsumeAuthCodeSound(s, code, now);
    OtherKeeps(s, ConsumeAuthCode(s, code, now).st);
  }

  lemma EnrollFactorKeeps(s: State, userID: Id, factorType: string, name: string, now: int, fid: Id)
    requires Inv(s) && Fresh(s, fid)
    ensures Inv(EnrollFactor(s, userID, factorType, name, now, fid).st)
  {
    SoundNow(s);
    hide Inv, Sound, EnrollFactor;
    EnrollFactorSound(s, userID, factorType, name, now, fid);
    OtherKeeps(s, EnrollFactor(s, userID, factorType, name, now, fid).st);
  }

  lemma VerifyFactorKeeps(s: State, fid: Id, now: int)
    requires Inv(s)
    ensures Inv(VerifyFactor(s, fid, now).st)
  {
    SoundNow(s);
    hide Inv, Sound, VerifyFactor;
    VerifyFactorSound(s, fid, now);
    OtherKeeps(s, VerifyFactor(s, fid, now).st);
  }

  lemma DeleteFactorKeeps(s: State, userID: Id, fid: Id)
    requires Inv(s)
    ensures Inv(DeleteFactor(s, userID, fid).st)
  {
    SoundNow(s);
    hide Inv, Sound, DeleteFactor;
    DeleteFactorSound(s, userID, fid);
    OtherKeeps(s, DeleteFactor(s, userID, fid).st);
  }

  lemma CreateChallengeKeeps(s: State, fid: Id, value: string, now: int, cid: Id)
    requires Inv(s) && Fresh(s, cid)
    ensures Inv(CreateChallenge(s, fid, value, now, cid).st)
  {
    SoundNow(s);
    hide Inv, Sound, CreateChallenge;
    CreateChallengeSound(s, fid, value, now, cid);
    OtherKeeps(s, CreateChallenge(s, fid, value, now, cid).st);
  }

  lemma ConsumeChallengeKeeps(s: State, fid: Id, cid: Id, now: int)
    requires Inv(s)
    ensures Inv(ConsumeChallenge(s, fid, cid, now).st)
  {
    SoundNow(s);
    hide Inv, Sound, ConsumeChallenge;
    ConsumeChallengeSound(s, fid, cid, now);
    OtherKeeps(s, ConsumeChallenge(s, fid, cid, now).st);
  }

  lemma UpgradeSessionAALKeeps(s: State, sid: Id, amrMethod: string, now: int)
    requires Inv(s)
    ensures Inv(UpgradeSessionAAL(s, sid, amrMethod, now).st)
  {
    SoundNow(s);
    hide Inv, Sound, UpgradeSessionAAL;
    UpgradeSessionAALSound(s, sid, amrMethod, now);
    OtherKeeps(s, UpgradeSessionAAL(s, sid, amrMethod, now).st);
  }

  lemma CreatePasskeyChallengeKeeps(s: State, userID: Id, p: Purpose, name: string, value: string, now: int, cid: Id)
    requires Inv(s) && Fresh(s, cid)
    ensures Inv(CreatePasskeyChallenge(s, userID, p, name, value, now, cid).st)
  {
    SoundNow(s);
    hide Inv, Sound, CreatePasskeyChallenge;
    CreatePasskeyChallengeSound(s, userID, p, name, value, now, cid);
    OtherKeeps(s, CreatePasskeyChallenge(s, userID, p, name, value, now, cid).st);
  }

  lemma ConsumePasskeyChallengeKeeps(s: State, cid: Id, p: Purpose, now: int)
    requires Inv(s)
    ensures Inv(ConsumePasskeyChallenge(s, cid, p, now).st)
  {
    SoundNow(s);
    hide Inv, Sound, ConsumePasskeyChallenge;
    ConsumePasskeyChallengeSound(s, cid, p, now);
    OtherKeeps(s, ConsumePasskeyChallenge(s, cid, p, now).st);
  }

  lemma AddPasskeyKeeps(s: State, userID: Id, name: string, cred: string, now: int, pid: Id)
    requires Inv(s) && Fresh(s, pid)
    ensures Inv(AddPasskey(s, userID, name, cred, now, pid).st)
  {
    SoundNow(s);
    hide Inv, Sound, AddPasskey;
    AddPasskeySound(s, userID, name, cred, now, pid);
    OtherKeeps(s, AddPasskey(s, userID, name, cred, now, pid).st);
  }

  lemma DeletePasskeyKeeps(s: State, userID: Id, pid: Id)
    requires Inv(s)
    ensures Inv(DeletePasskey(s, userID, pid).st)
  {
    SoundNow(s);
    hide Inv, Sound, DeletePasskey;
    DeletePasskeySound(s, userID, pid);
    OtherKeeps(s, DeletePasskey(s, userID, pid).st);
  }

  lemma MarkPasskeyUsedKeeps(s: State, pid: Id, now: int)
    requires Inv(s)
    ensures Inv(MarkPasskeyUsed(s, pid, now))
  {
    SoundNow(s);
    hide Inv, Sound, MarkPasskeyUsed;
    MarkPasskeyUsedSound(s, pid, now);
    OtherKeeps(s, MarkPasskeyUsed(s, pid, now));
  }

  lemma SoundNow(s: State)
    requires Inv(s)
    ensures Sound(s)
  {
  }

  // Operations on users and identities.
  ghost predicate AccountOp(op: Op) {
    op.OpCreateUser? || op.OpSetUserMetadata? || op.OpUpdateLastSignIn? || op.OpDeleteUser?
    || op.OpAddIdentity? || op.OpRemoveIdentity? || op.OpCreateOAuthUser? || op.OpReset?
  }

  // Operations on sessions, refresh tokens and codes.
  ghost predicate SessionOp(op: Op) {
    op.OpCreateSession? || op.OpIssueRefreshToken? || op.OpIssueSession? || op.OpConsumeRefreshToken?
    || op.OpRevoke? || op.OpUpgradeSessionAAL? || op.OpCreateAuthCode? || op.OpConsumeAuthCode?
  }

  // Operations on factors and passkeys.
  ghost predicate CredentialOp(op: Op) {
    op.OpEnrollFactor? || op.OpVerifyFactor? || op.OpDeleteFactor? || op.OpCreateChallenge?
    || op.OpConsumeChallenge? || op.OpCreatePasskeyChallenge? || op.OpConsumePasskeyChallenge? || op.OpAddPasskey?
    || op.OpDeletePasskey? || op.OpMarkPasskeyUsed?
  }

  lemma AccountOpKept(s: State, op: Op)
    requires Inv(s) && "" !in s.ids.used && Enabled(s, op) && AccountOp(op)
    ensures Inv(Apply(s, op))
  {
    hide Inv, Fresh, Synthesized, EmptyState;
    hide CreateUser, SetUserMetadata, UpdateLastSignIn, DeleteUser, AddIdentity, RemoveIdentity, CreateOAuthUser;
    hide CreateAuthCode, ConsumeAuthCode, CreateSession, IssueRefreshToken, IssueSession, ConsumeRefreshToken;
    hide RevokeRefreshTokensBySession, EnrollFactor, VerifyFactor, DeleteFactor, CreateChallenge, ConsumeChallenge;
    hide UpgradeSessionAAL, CreatePasskeyChallenge, ConsumePasskeyChallenge, AddPasskey, DeletePasskey, MarkPasskeyUsed;
    match op {
      case OpCreateUser(email, hash, now, uid, iid) => CreateUserKeeps(s, email, hash, now, uid, iid);
      case OpSetUserMetadata(uid, data, now) => UpdateKeeps(s, uid, data, now);
      case OpUpdateLastSignIn(uid, now) => UpdateKeeps(s, uid, map[], now);
      case OpDeleteUser(uid) => DeleteUserKeeps(s, uid);
      case OpAddIdentity(uid, provider, data, now, iid) => AddIdentityKeeps(s, uid, provider, data, now, iid);
      case OpRemoveIdentity(uid, iid, now) => RemoveIdentityKeeps(s, uid, iid, now);
      case OpCreateOAuthUser(provider, hint, now, uid, sub, iid, salt) => CreateOAuthUserKeeps(s, provider, hint,
          now, uid, sub, iid, salt);
      case OpReset => EmptyInv(s.reuseInterval, s.ids);
      case _ =>
    }
  }

  lemma SessionOpKept(s: State, op: Op)
    requires Inv(s) && "" !in s.ids.used && Enabled(s, op) && SessionOp(op)
    ensures Inv(Apply(s, op))
  {
    hide Inv, Fresh, Synthesized, EmptyState;
    hide CreateUser, SetUserMetadata, UpdateLastSignIn, DeleteUser, AddIdentity, RemoveIdentity, CreateOAuthUser;
    hide CreateAuthCode, ConsumeAuthCode, CreateSession, IssueRefreshToken, IssueSession, ConsumeRefreshToken;
    hide RevokeRefreshTokensBySession, EnrollFactor, VerifyFactor, DeleteFactor, CreateChallenge, ConsumeChallenge;
    hide UpgradeSessionAAL, CreatePasskeyChallenge, ConsumePasskeyChallenge, AddPasskey, DeletePasskey, MarkPasskeyUsed;
    match op {
      case OpCreateSession(uid, now, sid) => CreateSessionKeeps(s, uid, "password", now, sid);
      case OpIssueRefreshToken(uid, sid, now, tok) => IssueRefreshTokenKeeps(s, uid, sid, now, tok);
      case OpIssueSession(uid, m, now, now', sid, tok) => IssueSessionKeeps(s, uid, m, now, now', sid, tok);
      case OpConsumeRefreshToken(tok, now, successor) => ConsumeRefreshTokenKeeps(s, tok, now, successor);
      case OpRevoke(sid, now) => RevokeKeeps(s, sid, now);
      case OpCreateAuthCode(uid, now, code) => CreateAuthCodeKeeps(s, uid, now, code);
      case OpConsumeAuthCode(code, now) => ConsumeAuthCodeKeeps(s, code, now);
      case OpUpgradeSessionAAL(sid, m, now) => UpgradeSessionAALKeeps(s, sid, m, now);
      case _ =>
    }
  }

  lemma CredentialOpKept(s: State, op: Op)
    requires Inv(s) && "" !in s.ids.used && Enabled(s, op) && CredentialOp(op)
    ensures Inv(Apply(s, op))
  {
    hide Inv, Fresh, Synthesized, EmptyState;
    hide CreateUser, SetUserMetadata, UpdateLastSignIn, DeleteUser, AddIdentity, RemoveIdentity, CreateOAuthUser;
    hide CreateAuthCode, ConsumeAuthCode, CreateSession, IssueRefreshToken, IssueSession, ConsumeRefreshToken;
    hide RevokeRefreshTokensBySession, EnrollFactor, VerifyFactor, DeleteFactor, CreateChallenge, ConsumeChallenge;
    hide UpgradeSessionAAL, CreatePasskeyChallenge, ConsumePasskeyChallenge, AddPasskey, DeletePasskey, MarkPasskeyUsed;
    match op {
      case OpEnrollFactor(uid, ft, name, now, fid) => EnrollFactorKeeps(s, uid, ft, name, now, fid);
      case OpVerifyFactor(fid, now) => VerifyFactorKeeps(s, fid, now);
      case OpDeleteFactor(uid, fid) => DeleteFactorKeeps(s, uid, fid);
      case OpCreateChallenge(fid, value, now, cid) => CreateChallengeKeeps(s, fid, value, now, cid);
      case OpConsumeChallenge(fid, cid, now) => ConsumeChallengeKeeps(s, fid, cid, now);
      case OpCreatePasskeyChallenge(uid, p, name, value, now, cid) => CreatePasskeyChallengeKeeps(s, uid, p, name,
          value, now, cid);
      case OpConsumePasskeyChallenge(cid, p, now) => ConsumePasskeyChallengeKeeps(s, cid, p, now);
      case OpAddPasskey(uid, name, cred, now, pid) => AddPasskeyKeeps(s, uid, name, cred, now, pid);
      case OpDeletePasskey(uid, pid) => DeletePasskeyKeeps(s, uid, pid);
      case OpMarkPasskeyUsed(pid, now) => MarkPasskeyUsedKeeps(s, pid, now);
      case _ =>
    }
  }

  // Every public method keeps the invariant.
  lemma InvKept(s: State, op: Op)
    requires Inv(s) && Enabled(s, op)
    ensures Inv(Apply(s, op))
  {
    hide Apply, Enabled, Inv;
    NoEmptyId(s);
    if AccountOp(op) {
      AccountOpKept(s, op);
    } else if SessionOp(op) {
      SessionOpKept(s, op);
    } else {
      CredentialOpKept(s, op);
    }
  }

  lemma NoEmptyId(s: State)
    requires Inv(s)
    ensures "" !in s.ids.used
  {
  }

  // Every state a run reaches satisfies the invariant.
  lemma {:induction false} RunInv(s: State, ops: seq<Op>)
    requires Inv(s) && RunEnabled(s, ops)
    ensures Inv(Run(s, ops))
  {
    hide Inv, Apply, Enabled;
    if ops != [] {
      RunInv(s, ops[..|ops| - 1]);
      InvKept(Run(s, ops[..|ops| - 1]), ops[|ops| - 1]);
    }
  }
}

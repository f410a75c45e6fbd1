// Referential integrity: ids, owners, credentials and expiry times, kept by every operation.
module Integrity {
  import opened Model
  import opened Ops

  // ---- the invariant ----------------------------------------------------------

  // Each map is described by itself: its records stand under their own ids and point only at
  // `owners`, the users (or factors) that exist.

  ghost predicate UsersOk(users: map<Id, User>) {
    forall k | k in users :: users[k].id == k
  }

  ghost predicate SessionsOk(sessions: map<Id, Session>, owners: set<Id>) {
    forall k | k in sessions :: sessions[k].id == k && sessions[k].userID in owners
  }

  ghost predicate TokensOk(toks: map<Id, RefreshToken>, owners: set<Id>) {
    forall k | k in toks :: toks[k].token == k && toks[k].userID in owners
  }

  ghost predicate FactorsOk(factors: map<Id, Factor>, owners: set<Id>) {
    forall k | k in factors :: factors[k].id == k && factors[k].userID in owners
  }

  // A user's non-empty factor names are distinct.
  ghost predicate FactorNames(factors: map<Id, Factor>) {
    forall j, k | j in factors && k in factors && j != k
      && factors[j].userID == factors[k].userID && factors[j].friendlyName != "" ::
      factors[j].friendlyName != factors[k].friendlyName
  }

  // A challenge belongs to an existing factor and lives for the fixed time from its creation.
  ghost predicate ChallengesOk(challenges: map<Id, Challenge>, factorIDs: set<Id>) {
    forall k | k in challenges ::
      && challenges[k].id == k && challenges[k].factorID in factorIDs
      && challenges[k].expiresAt == challenges[k].createdAt + CHALLENGE_TTL
  }

  ghost predicate PasskeysOk(passkeys: map<Id, Passkey>, owners: set<Id>) {
    forall k | k in passkeys :: passkeys[k].id == k && passkeys[k].userID in owners
  }

  // The credential index holds exactly one entry per passkey, under its credential id.
  ghost predicate CredIndex(passkeys: map<Id, Passkey>, byCred: map<string, Id>) {
    && (forall c | c in byCred :: byCred[c] in passkeys && passkeys[byCred[c]].credentialID == c)
    && (forall p | p in passkeys ::
          passkeys[p].credentialID in byCred && byCred[passkeys[p].credentialID] == p)
  }

  ghost predicate PasskeyChallengesOk(challenges: map<Id, PasskeyChallenge>, owners: set<Id>) {
    forall k | k in challenges ::
      && challenges[k].id == k && (challenges[k].userID == "" || challenges[k].userID in owners)
      && challenges[k].expiresAt == challenges[k].createdAt + CHALLENGE_TTL
  }

  ghost predicate CodesOk(codes: map<Id, AuthCode>) {
    forall k | k in codes :: codes[k].code == k
  }

  // Every key of every map was made by the store.
  ghost predicate Issued(s: State) {
    && "" !in s.ids.used
    && s.accounts.users.Keys <= s.ids.used
    && s.auth.sessions.Keys <= s.ids.used
    && s.auth.refreshTokens.Keys <= s.ids.used
    && s.mfa.factors.Keys <= s.ids.used
    && s.mfa.challenges.Keys <= s.ids.used
    && s.keys.passkeys.Keys <= s.ids.used
    && s.keys.passkeyChallenges.Keys <= s.ids.used
    && s.oauth.authCodes.Keys <= s.ids.used
  }

  ghost predicate Owned(s: State, owners: set<Id>) {
    && SessionsOk(s.auth.sessions, owners)
    && TokensOk(s.auth.refreshTokens, owners)
    && FactorsOk(s.mfa.factors, owners)
    && PasskeysOk(s.keys.passkeys, owners)
    && PasskeyChallengesOk(s.keys.passkeyChallenges, owners)
  }

  ghost predicate Sound(s: State) {
    && Issued(s)
    && UsersOk(s.accounts.users)
    && Owned(s, s.accounts.users.Keys)
    && FactorNames(s.mfa.factors)
    && ChallengesOk(s.mfa.challenges, s.mfa.factors.Keys)
    && CredIndex(s.keys.passkeys, s.keys.passkeyByCred)
    && CodesOk(s.oauth.authCodes)
  }

  // A step that leaves the accounts and the refresh tokens alone.
  ghost predicate Aside(s: State, t: State) {
    && t.accounts == s.accounts
    && t.auth.refreshTokens == s.auth.refreshTokens
    && t.auth.parentToChild == s.auth.parentToChild
    && t.reuseInterval == s.reuseInterval
    && s.ids.used <= t.ids.used
  }

  // ---- ids, references, credentials and stamps --------------------------------

  lemma OwnersGrow(s: State, owners: set<Id>, more: set<Id>)
    requires Owned(s, owners) && owners <= more
    ensures Owned(s, more)
  {
  }

  lemma RegisterUserSound(s: State, u: User, ids: set<Id>)
    requires Sound(s) && Fresh(s, u.id) && u.id in ids && "" !in ids
    ensures Sound(Issue(RegisterUser(s, u), ids))
  {
    OwnersGrow(s, s.accounts.users.Keys, s.accounts.users.Keys + {u.id});
    hide Owned, FactorNames, ChallengesOk, CredIndex, CodesOk;
    assert s.accounts.users[u.id := u].Keys == s.accounts.users.Keys + {u.id};
    assert Owned(s, s.accounts.users.Keys + {u.id});
  }

  lemma PutUserSound(s: State, u: User, ids: set<Id>)
    requires Sound(s) && u.id in s.accounts.users && "" !in ids
    ensures Sound(Issue(PutUser(s, u), ids))
  {
    hide SessionsOk, TokensOk, FactorsOk, FactorNames, ChallengesOk, PasskeysOk, CredIndex, PasskeyChallengesOk,
        CodesOk;
    assert s.accounts.users[u.id := u].Keys == s.accounts.users.Keys;
  }

  lemma CreateAuthCodeSound(s: State, userID: Id, now: int, code: Id)
    requires Sound(s) && Fresh(s, code)
    ensures Sound(CreateAuthCode(s, userID, now, code).st) && Aside(s, CreateAuthCode(s, userID, now, code).st)
  {
    hide UsersOk, SessionsOk, TokensOk, FactorsOk, FactorNames, ChallengesOk, PasskeysOk, CredIndex,
        PasskeyChallengesOk;
  }

  lemma ConsumeAuthCodeSound(s: State, code: Id, now: int)
    requires Sound(s)
    ensures Sound(ConsumeAuthCode(s, code, now).st) && Aside(s, ConsumeAuthCode(s, code, now).st)
  {
    hide UsersOk, SessionsOk, TokensOk, FactorsOk, FactorNames, ChallengesOk, PasskeysOk, CredIndex,
        PasskeyChallengesOk;
  }

  lemma CreateSessionSound(s: State, userID: Id, amrMethod: string, now: int, sid: Id)
    requires Sound(s) && Fresh(s, sid)
    ensures Sound(CreateSession(s, userID, amrMethod, now, sid).st)
            && Aside(s, CreateSession(s, userID, amrMethod, now, sid).st)
  {
    hide UsersOk, TokensOk, FactorsOk, FactorNames, ChallengesOk, PasskeysOk, CredIndex, PasskeyChallengesOk, CodesOk;
  }

  lemma IssueRefreshTokenSound(s: State, userID: Id, sid: Id, now: int, tok: Id)
    requires Sound(s) && Fresh(s, tok)
    ensures Sound(IssueRefreshToken(s, userID, sid, now, tok).st)
  {
    hide UsersOk, SessionsOk, FactorsOk, FactorNames, ChallengesOk, PasskeysOk, CredIndex, PasskeyChallengesOk, CodesOk;
  }

  lemma ConsumeRefreshTokenSound(s: State, token: Id, now: int, next: Id)
    requires Sound(s) && Fresh(s, next)
    ensures Sound(ConsumeRefreshToken(s, token, now, next).st)
  {
    hide UsersOk, SessionsOk, FactorsOk, FactorNames, ChallengesOk, PasskeysOk, CredIndex, PasskeyChallengesOk, CodesOk;
  }

  lemma RevokeSound(s: State, sid: Id, now: int)
    requires Sound(s)
    ensures Sound(RevokeRefreshTokensBySession(s, sid, now))
  {
    hide UsersOk, FactorsOk, FactorNames, ChallengesOk, PasskeysOk, CredIndex, PasskeyChallengesOk, CodesOk;
  }

  lemma UpgradeSessionAALSound(s: State, sid: Id, amrMethod: string, now: int)
    requires Sound(s)
    ensures Sound(UpgradeSessionAAL(s, sid, amrMethod, now).st)
            && Aside(s, UpgradeSessionAAL(s, sid, amrMethod, now).st)
  {
    hide UsersOk, TokensOk, FactorsOk, FactorNames, ChallengesOk, PasskeysOk, CredIndex, PasskeyChallengesOk, CodesOk;
  }

  lemma EnrollFactorSound(s: State, userID: Id, factorType: string, name: string, now: int, fid: Id)
    requires Sound(s) && Fresh(s, fid)
    ensures Sound(EnrollFactor(s, userID, factorType, name, now, fid).st)
            && Aside(s, EnrollFactor(s, userID, factorType, name, now, fid).st)
  {
    hide UsersOk, SessionsOk, TokensOk, PasskeysOk, CredIndex, PasskeyChallengesOk, CodesOk;
  }

  lemma VerifyFactorSound(s: State, fid: Id, now: int)
    requires Sound(s)
    ensures Sound(VerifyFactor(s, fid, now).st) && Aside(s, VerifyFactor(s, fid, now).st)
  {
    hide UsersOk, SessionsOk, TokensOk, ChallengesOk, PasskeysOk, CredIndex, PasskeyChallengesOk, CodesOk;
    assert fid in s.mfa.factors ==> VerifyFactor(s, fid, now).st.mfa.factors.Keys == s.mfa.factors.Keys;
  }

  lemma DeleteFactorSound(s: State, userID: Id, fid: Id)
    requires Sound(s)
    ensures Sound(DeleteFactor(s, userID, fid).st) && Aside(s, DeleteFactor(s, userID, fid).st)
  {
    hide UsersOk, SessionsOk, TokensOk, PasskeysOk, CredIndex, PasskeyChallengesOk, CodesOk;
  }

  lemma CreateChallengeSound(s: State, fid: Id, value: string, now: int, cid: Id)
    requires Sound(s) && Fresh(s, cid)
    ensures Sound(CreateChallenge(s, fid, value, now, cid).st) && Aside(s, CreateChallenge(s, fid, value, now, cid).st)
  {
    hide UsersOk, SessionsOk, TokensOk, FactorsOk, FactorNames, PasskeysOk, CredIndex, PasskeyChallengesOk, CodesOk;
  }

  lemma ConsumeChallengeSound(s: State, fid: Id, cid: Id, now: int)
    requires Sound(s)
    ensures Sound(ConsumeChallenge(s, fid, cid, now).st) && Aside(s, ConsumeChallenge(s, fid, cid, now).st)
  {
    hide UsersOk, SessionsOk, TokensOk, FactorsOk, FactorNames, PasskeysOk, CredIndex, PasskeyChallengesOk, CodesOk;
  }

  lemma CreatePasskeyChallengeSound(s: State, userID: Id, p: Purpose, name: string, value: string, now: int, cid: Id)
    requires Sound(s) && Fresh(s, cid)
    ensures Sound(CreatePasskeyChallenge(s, userID, p, name, value, now, cid).st)
            && Aside(s, CreatePasskeyChallenge(s, userID, p, name, value, now, cid).st)
  {
    hide UsersOk, SessionsOk, TokensOk, FactorsOk, FactorNames, ChallengesOk, PasskeysOk, CredIndex, CodesOk;
  }

  lemma FewerCeremonies(s: State, cid: Id)
    requires Sound(s)
    ensures var t := s.(keys := s.keys.(passkeyChallenges := s.keys.passkeyChallenges - {cid}));
            Sound(t) && Aside(s, t)
  {
    hide UsersOk, SessionsOk, TokensOk, FactorsOk, FactorNames, ChallengesOk, PasskeysOk, CredIndex, CodesOk;
  }

  lemma SoundAside(s: State)
    requires Sound(s)
    ensures Aside(s, s)
  {
    hide Sound;
  }

  lemma ConsumePasskeyChallengeSound(s: State, cid: Id, p: Purpose, now: int)
    requires Sound(s)
    ensures Sound(ConsumePasskeyChallenge(s, cid, p, now).st) && Aside(s, ConsumePasskeyChallenge(s, cid, p, now).st)
  {
    hide Sound, Aside;
    FewerCeremonies(s, cid);
    SoundAside(s);
  }

  lemma AddPasskeySound(s: State, userID: Id, name: string, cred: string, now: int, pid: Id)
    requires Sound(s) && Fresh(s, pid)
    ensures Sound(AddPasskey(s, userID, name, cred, now, pid).st)
            && Aside(s, AddPasskey(s, userID, name, cred, now, pid).st)
  {
    hide UsersOk, SessionsOk, TokensOk, FactorsOk, FactorNames, ChallengesOk, PasskeyChallengesOk, CodesOk;
  }

  lemma DeletePasskeySound(s: State, userID: Id, pid: Id)
    requires Sound(s)
    ensures Sound(DeletePasskey(s, userID, pid).st) && Aside(s, DeletePasskey(s, userID, pid).st)
  {
    hide UsersOk, SessionsOk, TokensOk, FactorsOk, FactorNames, ChallengesOk, PasskeyChallengesOk, CodesOk;
  }

  lemma MarkPasskeyUsedSound(s: State, pid: Id, now: int)
    requires Sound(s)
    ensures Sound(MarkPasskeyUsed(s, pid, now)) && Aside(s, MarkPasskeyUsed(s, pid, now))
  {
    hide UsersOk, SessionsOk, TokensOk, FactorsOk, FactorNames, ChallengesOk, PasskeyChallengesOk, CodesOk;
  }

  lemma DeleteUserSound(s: State, id: Id)
    requires Sound(s)
    ensures Sound(DeleteUser(s, id).st)
  {
  }
}

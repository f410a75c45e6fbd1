// What each public method of the store does, as a function from the state before
// to the state after and the result. UUIDs, the clock reading and random values are
// parameters. The methods of class Store are proved to compute these functions; where one
// returns a user, the method returns that user's clone, with its factor listing filled in.
module Ops {
  import opened Text
  import opened Model
  import opened Words

  // ---- users ------------------------------------------------------------------

  const AUTHENTICATED := "authenticated"

  function NewUser(id: Id, email: string, now: int): User {
    User(id, email, AUTHENTICATED, AUTHENTICATED, Some(now), Some(now), None, map[], map[], [], [], now, now, [])
  }

  function NewIdentity(iid: Id, userID: Id, provider: string, providerID: Id, data: Meta, now: int): Identity {
    Identity(iid, providerID, userID, provider, data, now, now, now)
  }

  function Providers(ids: seq<Identity>): seq<string> {
    seq(|ids|, i requires 0 <= i < |ids| => ids[i].provider)
  }

  function RecomputeProviders(u: User): User {
    var ps := Providers(u.identities);
    var m := u.appMetadata["providers" := Strs(ps)];
    u.(appMetadata := if |ps| > 0 then m["provider" := Str(ps[0])] else m)
  }

  predicate HasProvider(u: User, provider: string) {
    exists i | 0 <= i < |u.identities| :: u.identities[i].provider == provider
  }

  function RegisterUser(s: State, u: User): State {
    s.(accounts := s.accounts.(users := s.accounts.users[u.id := u],
                               emailIndex := s.accounts.emailIndex[u.email := u.id]))
  }

  function PutUser(s: State, u: User): State {
    s.(accounts := s.accounts.(users := s.accounts.users[u.id := u]))
  }

  function Issue(s: State, ids: set<Id>): State {
    s.(ids := Ids(s.ids.used + ids))
  }

  function EmailUser(email: string, hash: seq<bv8>, now: int, uid: Id, iid: Id): User {
    var u := NewUser(uid, email, now).(passwordHash := hash);
    var data := map["email" := Str(email), "sub" := Str(uid)];
    RecomputeProviders(u.(identities := [NewIdentity(iid, uid, "email", uid, data, now)]))
  }

  ghost function CreateUser(s: State, email: string, hash: seq<bv8>, now: int, uid: Id, iid: Id): Out<User> {
    var normalized := Lower(email);
    if normalized in s.accounts.emailIndex then Out(s, Err(UserAlreadyExists))
    else
      var u := EmailUser(normalized, hash, now, uid, iid);
      var st := Issue(RegisterUser(s, u), {uid, iid});
      Out(st, Ok(u))
  }

  ghost function FindUserByEmail(s: State, email: string): Option<User> {
    var key := Lower(email);
    if key in s.accounts.emailIndex && s.accounts.emailIndex[key] in s.accounts.users
    then Some(s.accounts.users[s.accounts.emailIndex[key]])
    else None
  }

  ghost function FindUserByID(s: State, id: Id): Option<User> {
    if id in s.accounts.users then Some(s.accounts.users[id]) else None
  }

  ghost function SetUserMetadata(s: State, id: Id, data: Meta, now: int): Out<User> {
    if id !in s.accounts.users then Out(s, Err(UserNotFound))
    else
      var u := s.accounts.users[id].(userMetadata := data, updatedAt := now);
      var st := s.(accounts := s.accounts.(users := s.accounts.users[id := u]));
      Out(st, Ok(u))
  }

  ghost function UpdateLastSignIn(s: State, id: Id, now: int): Out<User> {
    if id !in s.accounts.users then Out(s, Err(UserNotFound))
    else
      var u := s.accounts.users[id].(lastSignInAt := Some(now), updatedAt := now);
      var st := s.(accounts := s.accounts.(users := s.accounts.users[id := u]));
      Out(st, Ok(u))
  }

  // The index entries a cascade deletes with a set of tokens: each token's own and its parent's.
  ghost function Touched(toks: map<Id, RefreshToken>, gone: set<Id>): set<Id> {
    (set t | t in gone && t in toks) + (set t | t in gone && t in toks && toks[t].parent != "" :: toks[t].parent)
  }

  ghost function TokensOfUser(toks: map<Id, RefreshToken>, id: Id): set<Id> {
    set t | t in toks && toks[t].userID == id
  }

  ghost function TokensOfSession(toks: map<Id, RefreshToken>, sid: Id): set<Id> {
    set t | t in toks && toks[t].sessionID == sid
  }

  ghost predicate ChallengeOfUser(factors: map<Id, Factor>, ch: Challenge, id: Id) {
    ch.factorID in factors && factors[ch.factorID].userID == id
  }

  ghost function DeleteUser(s: State, id: Id): Out<()> {
    if id !in s.accounts.users then Out(s, Err(UserNotFound))
    else
      Out(s.(accounts := s.accounts.(users := s.accounts.users - {id},
                                     emailIndex := s.accounts.emailIndex - {Lower(s.accounts.users[id].email)}),
             auth := s.auth.(
               sessions := map k | k in s.auth.sessions && s.auth.sessions[k].userID != id :: s.auth.sessions[k],
               refreshTokens :=
                 map t | t in s.auth.refreshTokens && s.auth.refreshTokens[t].userID != id :: s.auth.refreshTokens[t],
               parentToChild :=
                 s.auth.parentToChild - Touched(s.auth.refreshTokens, TokensOfUser(s.auth.refreshTokens, id))),
             mfa := s.mfa.(
               factors := map k | k in s.mfa.factors && s.mfa.factors[k].userID != id :: s.mfa.factors[k],
               challenges :=
                 map k | k in s.mfa.challenges && !ChallengeOfUser(s.mfa.factors, s.mfa.challenges[k], id) ::
                   s.mfa.challenges[k]),
             keys := s.keys.(
               passkeys := map k | k in s.keys.passkeys && s.keys.passkeys[k].userID != id :: s.keys.passkeys[k],
               passkeyByCred :=
                 s.keys.passkeyByCred
                 - (set k | k in s.keys.passkeys && s.keys.passkeys[k].userID == id :: s.keys.passkeys[k].credentialID),
               passkeyChallenges :=
                 map k | k in s.keys.passkeyChallenges && s.keys.passkeyChallenges[k].userID != id ::
                   s.keys.passkeyChallenges[k])),
          Ok(()))
  }

  // ---- identities and OAuth ---------------------------------------------------

  function SubOf(data: Meta): string {
    if "sub" in data && data["sub"].Str? then data["sub"].s else ""
  }

  function LinkIdentity(u: User, provider: string, data: Meta, now: int, iid: Id): User {
    var sub := SubOf(data);
    var providerID := if sub == "" then u.id else sub;
    var data' := if sub == "" then data["sub" := Str(u.id)] else data;
    RecomputeProviders(
      u.(identities := u.identities + [NewIdentity(iid, u.id, provider, providerID, data', now)]))
    .(updatedAt := now)
  }

  ghost function AddIdentity(s: State, userID: Id, provider: string, data: Meta, now: int, iid: Id): Out<User> {
    if userID !in s.accounts.users then Out(s, Err(UserNotFound))
    else
      var u := s.accounts.users[userID];
      if HasProvider(u, provider) then Out(s, Err(IdentityExists))
      else
        var u' := LinkIdentity(u, provider, data, now, iid);
        Out(Issue(s.(accounts := s.accounts.(users := s.accounts.users[userID := u'])), {iid}), Ok(u'))
  }

  // The index of the first identity with the given row id; the length when there is none.
  function IdentityIndex(ids: seq<Identity>, iid: Id): (i: nat)
    ensures i <= |ids|
    ensures i < |ids| ==> ids[i].identityID == iid
    ensures forall j | 0 <= j < i :: ids[j].identityID != iid
  {
    if ids == [] then 0
    else if ids[0].identityID == iid then 0
    else
      var k := IdentityIndex(ids[1..], iid);
      assert forall j | 1 <= j < 1 + k :: ids[j] == ids[1..][j - 1];
      1 + k
  }

  function Without<T>(l: seq<T>, i: nat): seq<T>
    requires i < |l|
  {
    l[..i] + l[i + 1..]
  }

  ghost function RemoveIdentity(s: State, userID: Id, iid: Id, now: int): Out<User> {
    if userID !in s.accounts.users then Out(s, Err(UserNotFound))
    else
      var u := s.accounts.users[userID];
      var i := IdentityIndex(u.identities, iid);
      if i == |u.identities| then Out(s, Err(IdentityNotFound))
      else if |u.identities| == 1 then Out(s, Err(LastIdentity))
      else
        var u' := RecomputeProviders(u.(identities := Without(u.identities, i))).(updatedAt := now);
        var st := s.(accounts := s.accounts.(users := s.accounts.users[userID := u']));
        Out(st, Ok(u'))
  }

  // The fabricated identity_data of an OAuth identity.
  function OAuthData(sub: Id, email: string): Meta {
    var data := map["sub" := Str(sub), "email" := Str(email)];
    var at := IndexOf(email, '@');
    if 0 < at < |email| then data["user_name" := Str(email[..at])] else data
  }

  function AppendProviderIdentity(u: User, provider: string, email: string, now: int, sub: Id, iid: Id): User {
    u.(identities := u.identities + [NewIdentity(iid, u.id, provider, sub, OAuthData(sub, email), now)])
  }

  // The address made up for a sign-in without a login hint.
  function Synthesized(provider: string, salt: Id): string {
    provider + "_" + salt + "@oauth.supa-emu.test"
  }

  function OAuthEmail(hint: string): string {
    Lower(TrimSpace(hint))
  }

  ghost function CreateOAuthUser(s: State, provider: string, hint: string, now: int,
                                 uid: Id, sub: Id, iid: Id, salt: Id): Out<User> {
    var email := OAuthEmail(hint);
    if email != "" && email in s.accounts.emailIndex then
      if s.accounts.emailIndex[email] !in s.accounts.users then Out(s, Err(NilUser))
      else
        var u := s.accounts.users[s.accounts.emailIndex[email]];
        if HasProvider(u, provider) then Out(s, Ok(u))
        else
          var u' := RecomputeProviders(AppendProviderIdentity(u, provider, email, now, sub, iid)).(updatedAt := now);
          var users := s.accounts.users[s.accounts.emailIndex[email] := u'];
          var st := Issue(s.(accounts := s.accounts.(users := users)), {sub, iid});
          Out(st, Ok(u'))
    else
      var address := if email == "" then Synthesized(provider, salt) else email;
      var u := RecomputeProviders(
        AppendProviderIdentity(NewUser(uid, address, now), provider, address, now, sub, iid));
      var st := Issue(RegisterUser(s, u), {uid, sub, iid, salt});
      Out(st, Ok(u))
  }

  ghost function CreateAuthCode(s: State, userID: Id, now: int, code: Id): Out<AuthCode> {
    if userID !in s.accounts.users then Out(s, Err(UserNotFound))
    else
      var ac := AuthCode(code, userID, now + AUTH_CODE_TTL);
      Out(Issue(s.(oauth := s.oauth.(authCodes := s.oauth.authCodes[code := ac])), {code}), Ok(ac))
  }

  ghost function ConsumeAuthCode(s: State, code: Id, now: int): Out<AuthCode> {
    if code !in s.oauth.authCodes then Out(s, Err(AuthCodeNotFound))
    else
      var st := s.(oauth := s.oauth.(authCodes := s.oauth.authCodes - {code}));
      if now > s.oauth.authCodes[code].expiresAt then Out(st, Err(AuthCodeNotFound))
      else Out(st, Ok(s.oauth.authCodes[code]))
  }

  // ---- sessions and refresh tokens --------------------------------------------

  ghost function CreateSession(s: State, userID: Id, amrMethod: string, now: int, sid: Id): Out<Session> {
    if userID !in s.accounts.users then Out(s, Err(UserNotFound))
    else
      var sess := Session(sid, userID, now, AAL1, [AMREntry(amrMethod, Unix(now))]);
      Out(Issue(s.(auth := s.auth.(sessions := s.auth.sessions[sid := sess])), {sid}), Ok(sess))
  }

  ghost function IssueRefreshToken(s: State, userID: Id, sid: Id, now: int, tok: Id): Out<RefreshToken> {
    if userID !in s.accounts.users then Out(s, Err(UserNotFound))
    else
      var rt := RefreshToken(tok, userID, sid, now, false, "");
      Out(Issue(s.(auth := s.auth.(refreshTokens := s.auth.refreshTokens[tok := rt])), {tok}), Ok(rt))
  }

  // Session and first refresh token under one lock; `now` and `now'` are its two clock readings.
  ghost function IssueSession(s: State, userID: Id, amrMethod: string, now: int, now': int,
                              sid: Id, tok: Id): Out<(Session, RefreshToken)> {
    var a := CreateSession(s, userID, amrMethod, now, sid);
    if a.res.Err? then Out(s, Err(a.res.error))
    else
      var b := IssueRefreshToken(a.st, userID, sid, now', tok);
      if b.res.Err? then Out(b.st.(auth := b.st.auth.(sessions := b.st.auth.sessions - {sid})), Err(UserNotFound))
      else Out(b.st, Ok((a.res.value, b.res.value)))
  }

  // How a walk along the rotation edges ends.
  datatype WalkEnd = Leaf(rt: RefreshToken) | NoEdge | Revisit | Dangling

  // Follow the index from `cur` to the first unrevoked token, never entering a token twice.
  ghost function Walk(p2c: map<Id, Id>, toks: map<Id, RefreshToken>, cur: Id, visited: set<Id>): WalkEnd
    decreases p2c.Values - visited
  {
    if cur !in p2c then NoEdge
    else
      var child := p2c[cur];
      if child in visited then Revisit
      else if child !in toks then Dangling
      else if !toks[child].revoked then Leaf(toks[child])
      else
        assert child in p2c.Values;
        Walk(p2c, toks, child, visited + {child})
  }

  ghost function FindLatestChild(p2c: map<Id, Id>, toks: map<Id, RefreshToken>, parent: Id): Option<RefreshToken> {
    var w := Walk(p2c, toks, parent, {parent});
    if w.Leaf? then Some(w.rt) else None
  }

  ghost function ConsumeRefreshToken(s: State, token: Id, now: int, successor: Id): Out<(RefreshToken, User)> {
    if token !in s.auth.refreshTokens then Out(s, Err(InvalidRefreshToken))
    else
      var rt := s.auth.refreshTokens[token];
      if rt.userID !in s.accounts.users then Out(s, Err(InvalidRefreshToken))
      else if rt.revoked then
        var leaf := FindLatestChild(s.auth.parentToChild, s.auth.refreshTokens, rt.token);
        if Since(now, rt.issuedAt) <= s.reuseInterval && leaf.Some?
        then Out(s, Ok((leaf.value, s.accounts.users[rt.userID])))
        else Out(s, Err(InvalidRefreshToken))
      else
        var next := RefreshToken(successor, rt.userID, rt.sessionID, now, false, rt.token);
        var toks := s.auth.refreshTokens[token := rt.(revoked := true, issuedAt := now)][successor := next];
        var edges := s.auth.parentToChild[rt.token := successor];
        var st := Issue(s.(auth := s.auth.(refreshTokens := toks, parentToChild := edges)), {successor});
        Out(st, Ok((next, s.accounts.users[rt.userID])))
  }

  // The time logout writes on a session's tokens: one second outside the reuse window, as far as 64 bits
  // can say so.
  function Backdate(window: int, now: int): int {
    now + Wrap(-Wrap(window + SECOND))
  }

  ghost function RevokeRefreshTokensBySession(s: State, sid: Id, now: int): State {
    var toks := s.auth.refreshTokens;
    var past := Backdate(s.reuseInterval, now);
    s.(auth := s.auth.(
         sessions := s.auth.sessions - {sid},
         refreshTokens := map t | t in toks ::
           if toks[t].sessionID == sid then toks[t].(revoked := true, issuedAt := past) else toks[t],
         parentToChild := s.auth.parentToChild - Touched(toks, TokensOfSession(toks, sid))))
  }

  // ---- MFA factors ------------------------------------------------------------

  const WEBAUTHN := "webauthn"

  ghost predicate NameTaken(factors: map<Id, Factor>, userID: Id, name: string) {
    exists k | k in factors :: factors[k].userID == userID && factors[k].friendlyName == name
  }

  ghost function EnrollFactor(s: State, userID: Id, factorType: string, name: string, now: int, fid: Id): Out<Factor> {
    if userID !in s.accounts.users then Out(s, Err(UserNotFound))
    else if name != "" && NameTaken(s.mfa.factors, userID, name) then Out(s, Err(FactorNameConflict))
    else
      var f := Factor(fid, userID, name, factorType, Unverified, now, now);
      Out(Issue(s.(mfa := s.mfa.(factors := s.mfa.factors[fid := f])), {fid}), Ok(f))
  }

  ghost function GetFactor(s: State, fid: Id): Option<Factor> {
    if fid in s.mfa.factors then Some(s.mfa.factors[fid]) else None
  }

  ghost function VerifyFactor(s: State, fid: Id, now: int): Out<Factor> {
    if fid !in s.mfa.factors then Out(s, Err(FactorNotFound))
    else
      var f := s.mfa.factors[fid].(status := Verified, updatedAt := now);
      Out(s.(mfa := s.mfa.(factors := s.mfa.factors[fid := f])), Ok(f))
  }

  ghost function DeleteFactor(s: State, userID: Id, fid: Id): Out<()> {
    if fid !in s.mfa.factors || s.mfa.factors[fid].userID != userID then Out(s, Err(FactorNotFound))
    else
      var left := map k | k in s.mfa.challenges && s.mfa.challenges[k].factorID != fid :: s.mfa.challenges[k];
      Out(s.(mfa := s.mfa.(factors := s.mfa.factors - {fid}, challenges := left)), Ok(()))
  }

  ghost function CreateChallenge(s: State, fid: Id, value: string, now: int, cid: Id): Out<Challenge> {
    if fid !in s.mfa.factors then Out(s, Err(FactorNotFound))
    else
      var ch := Challenge(cid, fid, value, now, now + CHALLENGE_TTL);
      Out(Issue(s.(mfa := s.mfa.(challenges := s.mfa.challenges[cid := ch])), {cid}), Ok(ch))
  }

  ghost function ConsumeChallenge(s: State, fid: Id, cid: Id, now: int): Out<Challenge> {
    if cid !in s.mfa.challenges || s.mfa.challenges[cid].factorID != fid then Out(s, Err(ChallengeNotFound))
    else
      var st := s.(mfa := s.mfa.(challenges := s.mfa.challenges - {cid}));
      if now > s.mfa.challenges[cid].expiresAt then Out(st, Err(ChallengeExpired))
      else Out(st, Ok(s.mfa.challenges[cid]))
  }

  predicate HasMethod(amr: seq<AMREntry>, amrMethod: string) {
    exists i | 0 <= i < |amr| :: amr[i].amrMethod == amrMethod
  }

  ghost function UpgradeSessionAAL(s: State, sid: Id, amrMethod: string, now: int): Out<Session> {
    if sid !in s.auth.sessions then Out(s, Err(UserNotFound))
    else
      var sess := s.auth.sessions[sid];
      var sess' := sess.(
        aal := AAL2,
        amr := if HasMethod(sess.amr, amrMethod) then sess.amr else sess.amr + [AMREntry(amrMethod, Unix(now))]);
      Out(s.(auth := s.auth.(sessions := s.auth.sessions[sid := sess'])), Ok(sess'))
  }

  // ---- passkeys ---------------------------------------------------------------

  ghost function CreatePasskeyChallenge(s: State, userID: Id, purpose: Purpose, name: string, value: string,
                                        now: int, cid: Id): Out<PasskeyChallenge> {
    if userID != "" && userID !in s.accounts.users then Out(s, Err(UserNotFound))
    else
      var ch := PasskeyChallenge(cid, userID, purpose, name, value, now, now + CHALLENGE_TTL);
      Out(Issue(s.(keys := s.keys.(passkeyChallenges := s.keys.passkeyChallenges[cid := ch])), {cid}), Ok(ch))
  }

  ghost function ConsumePasskeyChallenge(s: State, cid: Id, purpose: Purpose, now: int): Out<PasskeyChallenge> {
    if cid !in s.keys.passkeyChallenges || s.keys.passkeyChallenges[cid].purpose != purpose
    then Out(s, Err(PasskeyChallengeNotFound))
    else
      var st := s.(keys := s.keys.(passkeyChallenges := s.keys.passkeyChallenges - {cid}));
      if now > s.keys.passkeyChallenges[cid].expiresAt then Out(st, Err(PasskeyChallengeExpired))
      else Out(st, Ok(s.keys.passkeyChallenges[cid]))
  }

  ghost function AddPasskey(s: State, userID: Id, name: string, cred: string, now: int, pid: Id): Out<Passkey> {
    if userID !in s.accounts.users then Out(s, Err(UserNotFound))
    else if cred in s.keys.passkeyByCred then Out(s, Err(PasskeyExists))
    else
      var pk := Passkey(pid, userID, name, cred, now, None);
      Out(Issue(s.(keys := s.keys.(passkeys := s.keys.passkeys[pid := pk],
                                   passkeyByCred := s.keys.passkeyByCred[cred := pid])), {pid}), Ok(pk))
  }

  ghost function DeletePasskey(s: State, userID: Id, pid: Id): Out<()> {
    if pid !in s.keys.passkeys || s.keys.passkeys[pid].userID != userID then Out(s, Err(PasskeyNotFound))
    else
      var pk := s.keys.passkeys[pid];
      Out(s.(keys := s.keys.(passkeys := s.keys.passkeys - {pk.id},
                             passkeyByCred := s.keys.passkeyByCred - {pk.credentialID})), Ok(()))
  }

  ghost function MarkPasskeyUsed(s: State, pid: Id, now: int): State {
    if pid !in s.keys.passkeys then s
    else s.(keys := s.keys.(passkeys := s.keys.passkeys[pid := s.keys.passkeys[pid].(lastUsedAt := Some(now))]))
  }

  ghost function FindPasskeyByCredentialID(s: State, cred: string): Option<Passkey> {
    if cred in s.keys.passkeyByCred && s.keys.passkeyByCred[cred] in s.keys.passkeys
    then Some(s.keys.passkeys[s.keys.passkeyByCred[cred]])
    else None
  }

  // ---- the store as a transition system ---------------------------------------

  datatype Op =
    | OpCreateUser(email: string, hash: seq<bv8>, now: int, uid: Id, iid: Id)
    | OpSetUserMetadata(uid: Id, data: Meta, now: int)
    | OpUpdateLastSignIn(uid: Id, now: int)
    | OpDeleteUser(uid: Id)
    | OpAddIdentity(uid: Id, provider: string, data: Meta, now: int, iid: Id)
    | OpRemoveIdentity(uid: Id, iid: Id, now: int)
    | OpCreateOAuthUser(provider: string, hint: string, now: int, uid: Id, sub: Id, iid: Id, salt: Id)
    | OpCreateAuthCode(uid: Id, now: int, code: Id)
    | OpConsumeAuthCode(code: Id, now: int)
    | OpCreateSession(uid: Id, now: int, sid: Id)
    | OpIssueRefreshToken(uid: Id, sid: Id, now: int, tok: Id)
    | OpIssueSession(uid: Id, amrMethod: string, now: int, now': int, sid: Id, tok: Id)
    | OpConsumeRefreshToken(tok: Id, now: int, successor: Id)
    | OpRevoke(sid: Id, now: int)
    | OpEnrollFactor(uid: Id, factorType: string, name: string, now: int, fid: Id)
    | OpVerifyFactor(fid: Id, now: int)
    | OpDeleteFactor(uid: Id, fid: Id)
    | OpCreateChallenge(fid: Id, value: string, now: int, cid: Id)
    | OpConsumeChallenge(fid: Id, cid: Id, now: int)
    | OpUpgradeSessionAAL(sid: Id, amrMethod: string, now: int)
    | OpCreatePasskeyChallenge(uid: Id, purpose: Purpose, name: string, value: string, now: int, cid: Id)
    | OpConsumePasskeyChallenge(cid: Id, purpose: Purpose, now: int)
    | OpAddPasskey(uid: Id, name: string, cred: string, now: int, pid: Id)
    | OpDeletePasskey(uid: Id, pid: Id)
    | OpMarkPasskeyUsed(pid: Id, now: int)
    | OpReset

  // The UUIDs an operation draws are fresh and pairwise distinct, and a synthesized
  // address, since it contains a fresh UUID, is not in use.
  ghost predicate Enabled(s: State, op: Op) {
    match op
    case OpCreateUser(_, _, _, uid, iid) => Fresh(s, uid) && Fresh(s, iid) && uid != iid
    case OpAddIdentity(_, _, _, _, iid) => Fresh(s, iid)
    case OpCreateOAuthUser(provider, _, _, uid, sub, iid, salt) =>
      && Fresh(s, uid) && Fresh(s, sub) && Fresh(s, iid) && Fresh(s, salt)
      && uid != iid && uid != sub && iid != sub
      && Synthesized(provider, salt) !in s.accounts.emailIndex
    case OpCreateAuthCode(_, _, code) => Fresh(s, code)
    case OpCreateSession(_, _, sid) => Fresh(s, sid)
    case OpIssueRefreshToken(_, _, _, tok) => Fresh(s, tok)
    case OpIssueSession(_, _, _, _, sid, tok) => Fresh(s, sid) && Fresh(s, tok) && sid != tok
    case OpConsumeRefreshToken(_, _, successor) => Fresh(s, successor)
    case OpEnrollFactor(_, _, _, _, fid) => Fresh(s, fid)
    case OpCreateChallenge(_, _, _, cid) => Fresh(s, cid)
    case OpCreatePasskeyChallenge(_, _, _, _, _, cid) => Fresh(s, cid)
    case OpAddPasskey(_, _, _, _, pid) => Fresh(s, pid)
    case _ => true
  }

  ghost function Apply(s: State, op: Op): State {
    match op
    case OpCreateUser(email, hash, now, uid, iid) => CreateUser(s, email, hash, now, uid, iid).st
    case OpSetUserMetadata(uid, data, now) => SetUserMetadata(s, uid, data, now).st
    case OpUpdateLastSignIn(uid, now) => UpdateLastSignIn(s, uid, now).st
    case OpDeleteUser(uid) => DeleteUser(s, uid).st
    case OpAddIdentity(uid, provider, data, now, iid) => AddIdentity(s, uid, provider, data, now, iid).st
    case OpRemoveIdentity(uid, iid, now) => RemoveIdentity(s, uid, iid, now).st
    case OpCreateOAuthUser(provider, hint, now, uid, sub, iid, salt) =>
      CreateOAuthUser(s, provider, hint, now, uid, sub, iid, salt).st
    case OpCreateAuthCode(uid, now, code) => CreateAuthCode(s, uid, now, code).st
    case OpConsumeAuthCode(code, now) => ConsumeAuthCode(s, code, now).st
    case OpCreateSession(uid, now, sid) => CreateSession(s, uid, "password", now, sid).st
    case OpIssueRefreshToken(uid, sid, now, tok) => IssueRefreshToken(s, uid, sid, now, tok).st
    case OpIssueSession(uid, m, now, now', sid, tok) => IssueSession(s, uid, m, now, now', sid, tok).st
    case OpConsumeRefreshToken(tok, now, successor) => ConsumeRefreshToken(s, tok, now, successor).st
    case OpRevoke(sid, now) => RevokeRefreshTokensBySession(s, sid, now)
    case OpEnrollFactor(uid, ft, name, now, fid) => EnrollFactor(s, uid, ft, name, now, fid).st
    case OpVerifyFactor(fid, now) => VerifyFactor(s, fid, now).st
    case OpDeleteFactor(uid, fid) => DeleteFactor(s, uid, fid).st
    case OpCreateChallenge(fid, value, now, cid) => CreateChallenge(s, fid, value, now, cid).st
    case OpConsumeChallenge(fid, cid, now) => ConsumeChallenge(s, fid, cid, now).st
    case OpUpgradeSessionAAL(sid, m, now) => UpgradeSessionAAL(s, sid, m, now).st
    case OpCreatePasskeyChallenge(uid, p, name, value, now, cid) =>
      CreatePasskeyChallenge(s, uid, p, name, value, now, cid).st
    case OpConsumePasskeyChallenge(cid, p, now) => ConsumePasskeyChallenge(s, cid, p, now).st
    case OpAddPasskey(uid, name, cred, now, pid) => AddPasskey(s, uid, name, cred, now, pid).st
    case OpDeletePasskey(uid, pid) => DeletePasskey(s, uid, pid).st
    case OpMarkPasskeyUsed(pid, now) => MarkPasskeyUsed(s, pid, now)
    case OpReset => EmptyState(s.reuseInterval, s.ids)
  }

  // A run of operations and the states along it.
  ghost function Run(s: State, ops: seq<Op>): State {
    if ops == [] then s else Apply(Run(s, ops[..|ops| - 1]), ops[|ops| - 1])
  }

  ghost predicate RunEnabled(s: State, ops: seq<Op>) {
    ops == [] || (RunEnabled(s, ops[..|ops| - 1]) && Enabled(Run(s, ops[..|ops| - 1]), ops[|ops| - 1]))
  }

  lemma {:induction false} RunConcat(s: State, a: seq<Op>, b: seq<Op>)
    ensures Run(s, a + b) == Run(Run(s, a), b)
    ensures RunEnabled(s, a + b) <==> RunEnabled(s, a) && RunEnabled(Run(s, a), b)
  {
    hide Apply, Enabled;
    if b == [] {
      assert a + b == a;
    } else {
      var n := |b| - 1;
      assert (a + b)[..|a + b| - 1] == a + b[..n];
      RunConcat(s, a, b[..n]);
    }
  }
}

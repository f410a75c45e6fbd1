// The in-memory store itself: one object whose maps are updated step by step, every public method one
// atomic step. Each method is proved to do what its function in Ops says, and to keep the invariant.
// Clock readings, UUIDs and random values are arguments.
module Stores {
  import opened Text
  import opened Model
  import opened Listing
  import opened Paging
  import opened Words
  import Ops
  import opened Integrity
  import opened Emails
  import opened Identities
  import opened Invariant

  // What a method returns for a stored user: a copy with the factor listing filled in.
  ghost function Copied(s: State, r: Result<User>): Result<User> {
    if r.Ok? then Ok(CloneUser(s.mfa.factors, r.value)) else r
  }

  ghost function CloneAll(factors: map<Id, Factor>, us: seq<User>): (r: seq<User>)
    ensures |r| == |us|
  {
    seq(|us|, i requires 0 <= i < |us| => CloneUser(factors, us[i]))
  }

  class Store {
    var users: map<Id, User>
    var emailIndex: map<string, Id>
    var sessions: map<Id, Session>
    var refreshTokens: map<Id, RefreshToken>
    var parentToChild: map<Id, Id>
    var factors: map<Id, Factor>
    var challenges: map<Id, Challenge>
    var passkeys: map<Id, Passkey>
    var passkeyByCred: map<string, Id>
    var passkeyChallenges: map<Id, PasskeyChallenge>
    var authCodes: map<Id, AuthCode>
    const reuseInterval: int
    ghost var used: set<Id>

    ghost function View(): State
      reads this
    {
      State(Accounts(users, emailIndex), Auth(sessions, refreshTokens, parentToChild), Mfa(factors, challenges),
            Keys(passkeys, passkeyByCred, passkeyChallenges), OAuth(authCodes), Ids(used), reuseInterval)
    }

    ghost predicate Valid()
      reads this
    {
      Inv(View())
    }

    constructor (reuseInterval: int)
      ensures Valid()
      ensures View() == EmptyState(if reuseInterval == 0 then DEFAULT_REUSE_INTERVAL else reuseInterval, Ids({}))
    {
      users, emailIndex := map[], map[];
      sessions, refreshTokens, parentToChild := map[], map[], map[];
      factors, challenges := map[], map[];
      passkeys, passkeyByCred, passkeyChallenges := map[], map[], map[];
      authCodes := map[];
      this.reuseInterval := if reuseInterval == 0 then DEFAULT_REUSE_INTERVAL else reuseInterval;
      used := {};
      new;
      EmptyInv(this.reuseInterval, Ids({}));
    }

    method Reset()
      requires Valid()
      modifies this
      ensures Valid()
      ensures View() == EmptyState(old(View()).reuseInterval, old(View()).ids)
    {
      hide Inv;
      Keyed();
      EmptyInv(reuseInterval, Ids(used));
      ClearSignIns();
      ClearCredentials();
    }

    method ClearSignIns()
      modifies this`users, this`emailIndex, this`sessions, this`refreshTokens, this`parentToChild, this`authCodes
      ensures users == map[] && emailIndex == map[] && sessions == map[]
      ensures refreshTokens == map[] && parentToChild == map[] && authCodes == map[]
    {
      users, emailIndex := map[], map[];
      sessions, refreshTokens, parentToChild := map[], map[], map[];
      authCodes := map[];
    }

    method ClearCredentials()
      modifies this`factors, this`challenges, this`passkeys, this`passkeyByCred, this`passkeyChallenges
      ensures factors == map[] && challenges == map[]
      ensures passkeys == map[] && passkeyByCred == map[] && passkeyChallenges == map[]
    {
      factors, challenges := map[], map[];
      passkeys, passkeyByCred, passkeyChallenges := map[], map[], map[];
    }

    // ---- copies -----------------------------------------------------------------

    // The user's factors by creation time, ties by id, whatever order the map is scanned in.
    method UserFactors(userID: Id) returns (out: seq<Factor>)
      requires FactorsKeyed(factors)
      ensures out == FactorList(factors, userID)
    {
      out := [];
      var rest := factors.Keys;
      ghost var seen: set<Id> := {};
      while rest != {}
        invariant rest <= factors.Keys && seen == factors.Keys - rest
        invariant forall f :: f in out <==> f.id in seen && factors[f.id] == f && f.userID == userID
        invariant forall i, j | 0 <= i < j < |out| :: out[i] != out[j]
      {
        var fid :| fid in rest;
        rest := rest - {fid};
        seen := seen + {fid};
        if factors[fid].userID == userID {
          out := out + [factors[fid]];
        }
      }
      assert Enumerates(out, FactorsOf(factors, userID));
      FactorListing(factors, userID, out);
      out := Sort(FACTOR_LESS, out);
    }

    method Clone(u: User) returns (c: User)
      requires FactorsKeyed(factors)
      ensures c == CloneUser(factors, u)
    {
      var fs := UserFactors(u.id);
      c := u.(factors := fs);
    }

    lemma Keyed()
      requires Valid()
      ensures FactorsKeyed(factors) && PasskeysKeyed(passkeys)
      ensures forall k | k in users :: users[k].id == k
      ensures users.Keys <= used && factors.Keys <= used && "" !in used
    {
    }

    // ---- users ------------------------------------------------------------------

    method CreateUser(email: string, hash: seq<bv8>, now: int, uid: Id, iid: Id) returns (res: Result<User>)
      requires Valid() && Fresh(View(), uid) && Fresh(View(), iid) && uid != iid
      modifies this`users, this`emailIndex, this`used
      ensures Valid()
      ensures var out := Ops.CreateUser(old(View()), email, hash, now, uid, iid);
              View() == out.st && res == Copied(View(), out.res)
    {
      hide Inv, CloneUser, FactorsKeyed, Lower, Ops.CreateUser, Ops.EmailUser;
      Keyed();
      CreateUserKeeps(View(), email, hash, now, uid, iid);
      CreateUserIs(View(), email, hash, now, uid, iid);
      var normalized := Lower(email);
      if normalized in emailIndex {
        return Err(UserAlreadyExists);
      }
      var u := RegisterEmailUser(normalized, hash, now, uid, iid);
      used := used + {uid, iid};
      var c := Clone(u);
      return Ok(c);
    }

    // Registers a user with the one email identity, whose sub is the user id.
    method RegisterEmailUser(email: string, hash: seq<bv8>, now: int, uid: Id, iid: Id) returns (u: User)
      modifies this`users, this`emailIndex
      ensures u == Ops.EmailUser(email, hash, now, uid, iid)
      ensures users == old(users)[uid := u] && emailIndex == old(emailIndex)[email := uid]
    {
      hide Ops.RecomputeProviders, Ops.NewUser;
      u := NewUserLocked(email, now, uid);
      var data := map["email" := Str(email), "sub" := Str(uid)];
      u := u.(passwordHash := hash, identities := [Ops.NewIdentity(iid, uid, "email", uid, data, now)]);
      u := RecomputeProvidersLocked(u);
      users := users[uid := u];
    }

    // Registers a user with the defaults; the caller has checked that the address is not taken.
    method NewUserLocked(email: string, now: int, uid: Id) returns (u: User)
      modifies this`users, this`emailIndex
      ensures u == Ops.NewUser(uid, email, now)
      ensures users == old(users)[uid := u] && emailIndex == old(emailIndex)[email := uid]
    {
      u := Ops.NewUser(uid, email, now);
      users := users[uid := u];
      emailIndex := emailIndex[email := uid];
    }

    method FindUserByEmail(email: string) returns (u: Option<User>)
      requires Valid()
      ensures u == match Ops.FindUserByEmail(View(), email)
                   case Some(v) => Some(CloneUser(factors, v))
                   case None => None
    {
      hide Inv, FactorsKeyed;
      Keyed();
      var key := Lower(email);
      if key !in emailIndex || emailIndex[key] !in users {
        return None;
      }
      var c := Clone(users[emailIndex[key]]);
      return Some(c);
    }

    method FindUserByID(id: Id) returns (u: Option<User>)
      requires Valid()
      ensures u == if id in users then Some(CloneUser(factors, users[id])) else None
    {
      hide Inv, FactorsKeyed;
      Keyed();
      if id !in users {
        return None;
      }
      var c := Clone(users[id]);
      return Some(c);
    }

    method SetUserMetadata(id: Id, data: Meta, now: int) returns (res: Result<User>)
      requires Valid()
      modifies this`users
      ensures Valid()
      ensures var out := Ops.SetUserMetadata(old(View()), id, data, now);
              View() == out.st && res == Copied(View(), out.res)
    {
      hide Inv, CloneUser, FactorsKeyed;
      Keyed();
      UpdateKeeps(View(), id, data, now);
      if id !in users {
        return Err(UserNotFound);
      }
      users := users[id := users[id].(userMetadata := data)];
      users := users[id := users[id].(updatedAt := now)];
      assert users == old(users)[id := users[id]];
      var c := Clone(users[id]);
      return Ok(c);
    }

    method UpdateLastSignIn(id: Id, now: int) returns (res: Result<User>)
      requires Valid()
      modifies this`users
      ensures Valid()
      ensures var out := Ops.UpdateLastSignIn(old(View()), id, now);
              View() == out.st && res == Copied(View(), out.res)
    {
      hide Inv, CloneUser, FactorsKeyed;
      Keyed();
      UpdateKeeps(View(), id, map[], now);
      if id !in users {
        return Err(UserNotFound);
      }
      users := users[id := users[id].(lastSignInAt := Some(now))];
      users := users[id := users[id].(updatedAt := now)];
      assert users == old(users)[id := users[id]];
      var c := Clone(users[id]);
      return Ok(c);
    }

    // A page of the users by creation time, and their number. `scan` is the order the map was scanned in;
    // users created at the same time come in an order that depends on it. Only AdminListUsers calls this,
    // and it never passes a negative limit.
    method ListUsers(offset: int, limit: int) returns (page: seq<User>, total: int, ghost scan: seq<User>)
      requires Valid() && |users| < TWO63 && Int64(offset) && 0 <= limit < TWO63
      ensures total == |users|
      ensures Enumerates(scan, users.Values) && |scan| == |users|
      ensures page == CloneAll(factors, Slice(Sort(USER_LESS, scan), offset, limit))
    {
      hide Inv, FactorsKeyed, Sort;
      Keyed();
      var ordered := ScanUsers();
      scan := ordered;
      total := |ordered|;
      ordered := Sort(USER_LESS, ordered);
      page := [];
      if offset < 0 || offset >= total {
        return;
      }
      var end := total;
      if limit < Wrap(total - offset) {
        end := Wrap(offset + limit);
      }
      var cut := ordered[offset..end];
      for i := 0 to |cut|
        invariant page == CloneAll(factors, cut[..i])
      {
        var c := Clone(cut[i]);
        page := page + [c];
        assert cut[..i + 1] == cut[..i] + [cut[i]];
      }
      assert cut[..|cut|] == cut;
    }

    method ScanUsers() returns (out: seq<User>)
      requires forall k | k in users :: users[k].id == k
      ensures Enumerates(out, users.Values) && |out| == |users|
    {
      out := [];
      var rest := users.Keys;
      ghost var seen: set<Id> := {};
      while rest != {}
        invariant rest <= users.Keys && seen == users.Keys - rest && |out| == |users| - |rest|
        invariant forall u :: u in out <==> u.id in seen && users[u.id] == u
        invariant forall i, j | 0 <= i < j < |out| :: out[i] != out[j]
      {
        var k :| k in rest;
        rest := rest - {k};
        seen := seen + {k};
        out := out + [users[k]];
      }
      ScannedAll(users, out);
    }

    method DeleteUser(id: Id) returns (res: Result<()>)
      requires Valid()
      modifies this`users, this`emailIndex, this`sessions, this`refreshTokens, this`parentToChild
      modifies this`factors, this`challenges, this`passkeys, this`passkeyByCred, this`passkeyChallenges
      ensures Valid()
      ensures Out(View(), res) == Ops.DeleteUser(old(View()), id)
    {
      hide Inv, FactorsKeyed, PasskeysKeyed, Lower, Ops.Touched, Ops.TokensOfUser, Ops.DeleteUser;
      hide SessionsLeft, TokensLeft, FactorsLeft, ChallengesLeft, PasskeysLeft, CredsGone, CeremoniesLeft;
      Keyed();
      DeleteUserKeeps(View(), id);
      if id !in users {
        NoSuchUser(View(), id);
        return Err(UserNotFound);
      }
      var u := users[id];
      users := users - {id};
      emailIndex := emailIndex - {Lower(u.email)};
      DeleteSessionsOf(id);
      DeleteTokensOf(id);
      DeleteCredentialsOf(id);
      DeleteUserIs(old(View()), View(), id);
      return Ok(());
    }

    method DeleteCredentialsOf(id: Id)
      requires PasskeysKeyed(passkeys)
      modifies this`factors, this`challenges, this`passkeys, this`passkeyByCred, this`passkeyChallenges
      ensures factors == FactorsLeft(old(factors), id, {})
      ensures challenges == ChallengesLeft(old(factors), old(challenges), id, {})
      ensures passkeys == PasskeysLeft(old(passkeys), id, {})
      ensures passkeyByCred == old(passkeyByCred) - CredsGone(old(passkeys), id, {})
      ensures passkeyChallenges == CeremoniesLeft(old(passkeyChallenges), id, {})
    {
      hide FactorsLeft, ChallengesLeft, PasskeysLeft, CredsGone, CeremoniesLeft, PasskeysKeyed;
      DeleteFactorsOf(id);
      DeletePasskeysOf(id);
    }

    method DeleteSessionsOf(id: Id)
      modifies this`sessions
      ensures sessions == SessionsLeft(old(sessions), id, {})
    {
      ghost var all := sessions;
      var rest := sessions.Keys;
      while rest != {}
        invariant rest <= all.Keys
        invariant sessions == SessionsLeft(all, id, rest)
      {
        var sid :| sid in rest;
        rest := rest - {sid};
        if sessions[sid].userID == id {
          sessions := sessions - {sid};
        }
      }
    }

    // Deletes the user's tokens and both ends of their edges.
    method DeleteTokensOf(id: Id)
      modifies this`refreshTokens, this`parentToChild
      ensures refreshTokens == TokensLeft(old(refreshTokens), id, {})
      ensures parentToChild ==
                old(parentToChild) - Ops.Touched(old(refreshTokens), Ops.TokensOfUser(old(refreshTokens), id))
    {
      hide Done, Ops.Touched, Ops.TokensOfUser;
      ghost var toks, edges := refreshTokens, parentToChild;
      ghost var mine := Ops.TokensOfUser(toks, id);
      OfUser(toks, id);
      NoneDone(toks, mine);
      var rest := refreshTokens.Keys;
      while rest != {}
        invariant rest <= toks.Keys
        invariant refreshTokens == TokensLeft(toks, id, rest)
        invariant parentToChild == edges - Done(toks, mine, rest)
      {
        var tok :| tok in rest;
        var rt := refreshTokens[tok];
        DoneMore(toks, mine, rest, tok);
        rest := rest - {tok};
        if rt.userID == id {
          refreshTokens := refreshTokens - {tok};
          if rt.parent != "" {
            parentToChild := parentToChild - {rt.parent};
          }
          parentToChild := parentToChild - {tok};
        }
      }
      AllDone(toks, mine);
    }

    method DeleteFactorsOf(id: Id)
      modifies this`factors, this`challenges
      ensures factors == FactorsLeft(old(factors), id, {})
      ensures challenges == ChallengesLeft(old(factors), old(challenges), id, {})
    {
      hide FactorsLeft, ChallengesLeft, Ops.ChallengeOfUser;
      ghost var all, chs := factors, challenges;
      var rest := factors.Keys;
      NoFactorGone(all, chs, id);
      while rest != {}
        invariant rest <= all.Keys
        invariant factors == FactorsLeft(all, id, rest) && challenges == ChallengesLeft(all, chs, id, rest)
      {
        var fid :| fid in rest;
        FactorGone(all, chs, id, rest, fid);
        rest := rest - {fid};
        if factors[fid].userID == id {
          DeleteFactorLocked(fid);
        }
      }
    }

    // Deletes the user's passkeys, their credential entries, and the ceremonies the user started.
    method DeletePasskeysOf(id: Id)
      requires PasskeysKeyed(passkeys)
      modifies this`passkeys, this`passkeyByCred, this`passkeyChallenges
      ensures passkeys == PasskeysLeft(old(passkeys), id, {})
      ensures passkeyByCred == old(passkeyByCred) - CredsGone(old(passkeys), id, {})
      ensures passkeyChallenges == CeremoniesLeft(old(passkeyChallenges), id, {})
    {
      hide PasskeysLeft, CredsGone;
      ghost var all, creds := passkeys, passkeyByCred;
      var rest := passkeys.Keys;
      NoPasskeyGone(all, id);
      while rest != {}
        invariant rest <= all.Keys
        invariant passkeys == PasskeysLeft(all, id, rest) && passkeyByCred == creds - CredsGone(all, id, rest)
        modifies this`passkeys, this`passkeyByCred
      {
        var pid :| pid in rest;
        PasskeyGone(all, id, rest, pid);
        rest := rest - {pid};
        var pk := passkeys[pid];
        if pk.userID == id {
          DeletePasskeyLocked(pk);
        }
      }
      ghost var chs := passkeyChallenges;
      rest := passkeyChallenges.Keys;
      while rest != {}
        invariant rest <= chs.Keys
        invariant passkeyChallenges == CeremoniesLeft(chs, id, rest)
        modifies this`passkeyChallenges
      {
        var cid :| cid in rest;
        rest := rest - {cid};
        if passkeyChallenges[cid].userID == id {
          passkeyChallenges := passkeyChallenges - {cid};
        }
      }
    }

    // ---- identities ---------------------------------------------------------------

    method HasProviderLocked(u: User, provider: string) returns (has: bool)
      ensures has == Ops.HasProvider(u, provider)
    {
      for i := 0 to |u.identities|
        invariant forall j | 0 <= j < i :: u.identities[j].provider != provider
      {
        if u.identities[i].provider == provider {
          return true;
        }
      }
      return false;
    }

    method RecomputeProvidersLocked(u: User) returns (u': User)
      ensures u' == Ops.RecomputeProviders(u)
    {
      var providers := [];
      for i := 0 to |u.identities|
        invariant providers == Ops.Providers(u.identities)[..i]
      {
        providers := providers + [u.identities[i].provider];
      }
      assert providers == Ops.Providers(u.identities);
      var m := u.appMetadata["providers" := Strs(providers)];
      if |providers| > 0 {
        m := m["provider" := Str(providers[0])];
      }
      u' := u.(appMetadata := m);
    }

    method AddIdentity(userID: Id, provider: string, identityData: Meta, now: int, iid: Id) returns (res: Result<User>)
      requires Valid() && Fresh(View(), iid)
      modifies this`users, this`used
      ensures Valid()
      ensures var out := Ops.AddIdentity(old(View()), userID, provider, identityData, now, iid);
              View() == out.st && res == Copied(View(), out.res)
    {
      hide Inv, CloneUser, FactorsKeyed, Ops.HasProvider, Ops.RecomputeProviders;
      Keyed();
      AddIdentityKeeps(View(), userID, provider, identityData, now, iid);
      if userID !in users {
        return Err(UserNotFound);
      }
      var u := users[userID];
      var has := HasProviderLocked(u, provider);
      if has {
        return Err(IdentityExists);
      }
      var data := identityData;
      var providerID := Ops.SubOf(data);
      if providerID == "" {
        providerID := userID;
        data := data["sub" := Str(providerID)];
      }
      u := u.(identities := u.identities + [Ops.NewIdentity(iid, userID, provider, providerID, data, now)]);
      u := RecomputeProvidersLocked(u);
      u := u.(updatedAt := now);
      users := users[userID := u];
      used := used + {iid};
      var c := Clone(u);
      return Ok(c);
    }

    method RemoveIdentity(userID: Id, iid: Id, now: int) returns (res: Result<User>)
      requires Valid()
      modifies this`users
      ensures Valid()
      ensures var out := Ops.RemoveIdentity(old(View()), userID, iid, now);
              View() == out.st && res == Copied(View(), out.res)
    {
      hide Inv, CloneUser, FactorsKeyed, Ops.RecomputeProviders, Ops.IdentityIndex;
      Keyed();
      RemoveIdentityKeeps(View(), userID, iid, now);
      if userID !in users {
        return Err(UserNotFound);
      }
      var u := users[userID];
      var idx := 0;
      while idx < |u.identities| && u.identities[idx].identityID != iid
        invariant idx <= |u.identities|
        invariant forall j | 0 <= j < idx :: u.identities[j].identityID != iid
      {
        idx := idx + 1;
      }
      assert idx == Ops.IdentityIndex(u.identities, iid);
      if idx == |u.identities| {
        return Err(IdentityNotFound);
      }
      if |u.identities| == 1 {
        return Err(LastIdentity);
      }
      u := u.(identities := u.identities[..idx] + u.identities[idx + 1..]);
      u := RecomputeProvidersLocked(u);
      u := u.(updatedAt := now);
      users := users[userID := u];
      var c := Clone(u);
      return Ok(c);
    }

    // ---- OAuth sign-in ------------------------------------------------------------

    method CreateOAuthUser(provider: string, hint: string, now: int, uid: Id, sub: Id, iid: Id, salt: Id)
      returns (res: Result<User>)
      requires Valid() && Ops.Enabled(View(), Ops.OpCreateOAuthUser(provider, hint, now, uid, sub, iid, salt))
      modifies this`users, this`emailIndex, this`used
      ensures Valid()
      ensures var out := Ops.CreateOAuthUser(old(View()), provider, hint, now, uid, sub, iid, salt);
              View() == out.st && res == Copied(View(), out.res) && res.Ok?
    {
      hide Inv, CloneUser, FactorsKeyed, Ops.HasProvider, Ops.RecomputeProviders, Ops.AppendProviderIdentity,
          Ops.NewUser;
      hide Ops.OAuthEmail, Ops.Synthesized, Ops.CreateOAuthUser, Ops.Enabled;
      Keyed();
      CreateOAuthUserKeeps(View(), provider, hint, now, uid, sub, iid, salt);
      NeverNil(View(), provider, hint, now, uid, sub, iid, salt);
      var email := Ops.OAuthEmail(hint);
      if email != "" && email in emailIndex {
        OAuthReuses(View(), provider, hint, now, uid, sub, iid, salt);
        var id := emailIndex[email];
        var u := users[id];
        var has := HasProviderLocked(u, provider);
        if !has {
          u := AppendProviderIdentityLocked(u, provider, email, now, sub, iid);
          u := RecomputeProvidersLocked(u);
          u := u.(updatedAt := now);
          users := users[id := u];
          used := used + {sub, iid};
        }
        var c := Clone(u);
        return Ok(c);
      }
      OAuthRegisters(View(), provider, hint, now, uid, sub, iid, salt);
      if email == "" {
        email := Ops.Synthesized(provider, salt);
      }
      var u := RegisterOAuthUser(provider, email, now, uid, sub, iid);
      used := used + {uid, sub, iid, salt};
      var c := Clone(u);
      return Ok(c);
    }

    // Registers a user with the one fabricated identity.
    method RegisterOAuthUser(provider: string, email: string, now: int, uid: Id, sub: Id, iid: Id) returns (u: User)
      modifies this`users, this`emailIndex
      ensures u == Ops.RecomputeProviders(
                     Ops.AppendProviderIdentity(Ops.NewUser(uid, email, now), provider, email, now, sub, iid))
      ensures users == old(users)[uid := u] && emailIndex == old(emailIndex)[email := uid]
    {
      hide Ops.RecomputeProviders, Ops.AppendProviderIdentity, Ops.NewUser;
      u := NewUserLocked(email, now, uid);
      u := AppendProviderIdentityLocked(u, provider, email, now, sub, iid);
      u := RecomputeProvidersLocked(u);
      users := users[uid := u];
    }

    method AppendProviderIdentityLocked(u: User, provider: string, email: string, now: int, sub: Id, iid: Id)
      returns (u': User)
      ensures u' == Ops.AppendProviderIdentity(u, provider, email, now, sub, iid)
    {
      var data := map["sub" := Str(sub), "email" := Str(email)];
      var at := IndexOf(email, '@');
      if 0 < at < |email| {
        data := data["user_name" := Str(email[..at])];
      }
      u' := u.(identities := u.identities + [Ops.NewIdentity(iid, u.id, provider, sub, data, now)]);
    }

    method CreateAuthCode(userID: Id, now: int, code: Id) returns (res: Result<AuthCode>)
      requires Valid() && Fresh(View(), code)
      modifies this`authCodes, this`used
      ensures Valid()
      ensures Out(View(), res) == Ops.CreateAuthCode(old(View()), userID, now, code)
    {
      hide Inv;
      CreateAuthCodeKeeps(View(), userID, now, code);
      if userID !in users {
        return Err(UserNotFound);
      }
      var ac := AuthCode(code, userID, now + AUTH_CODE_TTL);
      authCodes := authCodes[ac.code := ac];
      used := used + {code};
      return Ok(ac);
    }

    method ConsumeAuthCode(code: Id, now: int) returns (res: Result<AuthCode>)
      requires Valid()
      modifies this`authCodes
      ensures Valid()
      ensures Out(View(), res) == Ops.ConsumeAuthCode(old(View()), code, now)
    {
      hide Inv;
      ConsumeAuthCodeKeeps(View(), code, now);
      if code !in authCodes {
        return Err(AuthCodeNotFound);
      }
      var ac := authCodes[code];
      if now > ac.expiresAt {
        authCodes := authCodes - {code};
        return Err(AuthCodeNotFound);
      }
      authCodes := authCodes - {code};
      return Ok(ac);
    }

    // ---- sessions and refresh tokens ------------------------------------------

    method CreateSession(userID: Id, now: int, sid: Id) returns (res: Result<Session>)
      requires Valid() && Fresh(View(), sid)
      modifies this`sessions, this`used
      ensures Valid()
      ensures Out(View(), res) == Ops.CreateSession(old(View()), userID, "password", now, sid)
    {
      hide Inv;
      CreateSessionKeeps(View(), userID, "password", now, sid);
      res := CreateSessionLocked(userID, "password", now, sid);
    }

    method CreateSessionLocked(userID: Id, amrMethod: string, now: int, sid: Id) returns (res: Result<Session>)
      modifies this`sessions, this`used
      ensures Out(View(), res) == Ops.CreateSession(old(View()), userID, amrMethod, now, sid)
    {
      if userID !in users {
        return Err(UserNotFound);
      }
      var sess := Session(sid, userID, now, AAL1, [AMREntry(amrMethod, Unix(now))]);
      sessions := sessions[sess.id := sess];
      used := used + {sid};
      return Ok(sess);
    }

    method GetSession(sid: Id) returns (sess: Option<Session>)
      ensures sess == if sid in sessions then Some(sessions[sid]) else None
    {
      sess := if sid in sessions then Some(sessions[sid]) else None;
    }

    method IssueRefreshToken(userID: Id, sessionID: Id, now: int, tok: Id) returns (res: Result<RefreshToken>)
      requires Valid() && Fresh(View(), tok)
      modifies this`refreshTokens, this`used
      ensures Valid()
      ensures Out(View(), res) == Ops.IssueRefreshToken(old(View()), userID, sessionID, now, tok)
    {
      hide Inv;
      IssueRefreshTokenKeeps(View(), userID, sessionID, now, tok);
      res := IssueRefreshTokenLocked(userID, sessionID, now, tok);
    }

    method IssueRefreshTokenLocked(userID: Id, sessionID: Id, now: int, tok: Id) returns (res: Result<RefreshToken>)
      modifies this`refreshTokens, this`used
      ensures Out(View(), res) == Ops.IssueRefreshToken(old(View()), userID, sessionID, now, tok)
    {
      if userID !in users {
        return Err(UserNotFound);
      }
      var rt := RefreshToken(tok, userID, sessionID, now, false, "");
      refreshTokens := refreshTokens[rt.token := rt];
      used := used + {tok};
      return Ok(rt);
    }

    method IssueSessionWithMethod(userID: Id, amrMethod: string, now: int, now': int, sid: Id, tok: Id)
      returns (res: Result<(Session, RefreshToken)>)
      requires Valid() && Fresh(View(), sid) && Fresh(View(), tok) && sid != tok
      modifies this`sessions, this`refreshTokens, this`used
      ensures Valid()
      ensures Out(View(), res) == Ops.IssueSession(old(View()), userID, amrMethod, now, now', sid, tok)
    {
      hide Inv, Ops.CreateSession, Ops.IssueRefreshToken;
      IssueSessionKeeps(View(), userID, amrMethod, now, now', sid, tok);
      FailedSession(View(), userID, amrMethod, now, sid);
      var a := CreateSessionLocked(userID, amrMethod, now, sid);
      if a.Err? {
        return Err(a.error);
      }
      SessionNames(old(View()), userID, amrMethod, now, sid);
      FailedToken(View(), userID, sid, now', tok);
      var b := IssueRefreshTokenLocked(userID, a.value.id, now', tok);
      if b.Err? {
        // A session does not stay behind without its token.
        sessions := sessions - {a.value.id};
        return Err(b.error);
      }
      return Ok((a.value, b.value));
    }

    // The end of the chain of rotations from `parent`, if the walk along the index finds one.
    method FindLatestChild(parent: Id) returns (leaf: Option<RefreshToken>)
      ensures leaf == Ops.FindLatestChild(parentToChild, refreshTokens, parent)
    {
      var visited := {parent};
      var current := parent;
      while true
        invariant Ops.FindLatestChild(parentToChild, refreshTokens, parent) ==
                    var w := Ops.Walk(parentToChild, refreshTokens, current, visited);
                    if w.Leaf? then Some(w.rt) else None
        decreases parentToChild.Values - visited
      {
        if current !in parentToChild || parentToChild[current] in visited {
          return None;
        }
        var childToken := parentToChild[current];
        assert childToken in parentToChild.Values;
        visited := visited + {childToken};
        if childToken !in refreshTokens {
          return None;
        }
        var child := refreshTokens[childToken];
        if !child.revoked {
          return Some(child);
        }
        current := childToken;
      }
    }

    // Also answers with a copy of the owner.
    method ConsumeRefreshToken(token: Id, now: int, next: Id) returns (res: Result<(RefreshToken, User)>)
      requires Valid() && Fresh(View(), next)
      modifies this`refreshTokens, this`parentToChild, this`used
      ensures Valid()
      ensures var out := Ops.ConsumeRefreshToken(old(View()), token, now, next);
              && View() == out.st
              && res == if out.res.Ok? then Ok((out.res.value.0, CloneUser(factors, out.res.value.1))) else out.res
    {
      hide Inv, CloneUser, FactorsKeyed, Ops.FindLatestChild;
      Keyed();
      ConsumeRefreshTokenKeeps(View(), token, now, next);
      if token !in refreshTokens {
        return Err(InvalidRefreshToken);
      }
      var rt := refreshTokens[token];
      if rt.userID !in users {
        return Err(InvalidRefreshToken);
      }
      var u := Clone(users[rt.userID]);
      if rt.revoked {
        if Since(now, rt.issuedAt) <= reuseInterval {
          var leaf := FindLatestChild(rt.token);
          if leaf.Some? {
            return Ok((leaf.value, u));
          }
        }
        return Err(InvalidRefreshToken);
      }
      refreshTokens := refreshTokens[token := rt.(revoked := true, issuedAt := now)];
      var newRT := RefreshToken(next, rt.userID, rt.sessionID, now, false, rt.token);
      refreshTokens := refreshTokens[newRT.token := newRT];
      parentToChild := parentToChild[rt.token := newRT.token];
      used := used + {next};
      return Ok((newRT, u));
    }

    method RevokeRefreshTokensBySession(sid: Id, now: int)
      requires Valid()
      modifies this`sessions, this`refreshTokens, this`parentToChild
      ensures Valid()
      ensures View() == Ops.RevokeRefreshTokensBySession(old(View()), sid, now)
    {
      hide Inv, Killed, Ops.Touched, Ops.TokensOfSession, Ops.RevokeRefreshTokensBySession;
      RevokeParts(View(), sid, now);
      RevokeKeeps(View(), sid, now);
      var past := now + Wrap(-Wrap(reuseInterval + SECOND));
      RevokeTokens(sid, past);
      sessions := sessions - {sid};
    }

    // Revokes and backdates the session's tokens and cuts both ends of their edges.
    method RevokeTokens(sid: Id, past: int)
      modifies this`refreshTokens, this`parentToChild
      ensures refreshTokens == Killed(old(refreshTokens), sid, past, {})
      ensures parentToChild ==
                old(parentToChild) - Ops.Touched(old(refreshTokens), Ops.TokensOfSession(old(refreshTokens), sid))
    {
      hide Killed, Done, Ops.Touched, Ops.TokensOfSession;
      ghost var toks, edges := refreshTokens, parentToChild;
      ghost var mine := Ops.TokensOfSession(toks, sid);
      OfSession(toks, sid);
      NoneDone(toks, mine);
      NoneKilled(toks, sid, past);
      var rest := refreshTokens.Keys;
      while rest != {}
        invariant rest <= toks.Keys
        invariant refreshTokens == Killed(toks, sid, past, rest)
        invariant parentToChild == edges - Done(toks, mine, rest)
      {
        var tok :| tok in rest;
        var rt := refreshTokens[tok];
        KilledMore(toks, sid, past, rest, tok);
        DoneMore(toks, mine, rest, tok);
        rest := rest - {tok};
        if rt.sessionID == sid {
          refreshTokens := refreshTokens[tok := rt.(revoked := true, issuedAt := past)];
          if rt.parent != "" {
            parentToChild := parentToChild - {rt.parent};
          }
          parentToChild := parentToChild - {tok};
        }
      }
      AllDone(toks, mine);
    }

    // ---- MFA factors --------------------------------------------------------------

    method EnrollFactor(userID: Id, factorType: string, name: string, now: int, fid: Id) returns (res: Result<Factor>)
      requires Valid() && Fresh(View(), fid)
      modifies this`factors, this`used
      ensures Valid()
      ensures Out(View(), res) == Ops.EnrollFactor(old(View()), userID, factorType, name, now, fid)
    {
      hide Inv;
      EnrollFactorKeeps(View(), userID, factorType, name, now, fid);
      if userID !in users {
        return Err(UserNotFound);
      }
      if name != "" {
        var rest := factors.Keys;
        while rest != {}
          invariant rest <= factors.Keys
          invariant forall k | k in factors && k !in rest ::
                      factors[k].userID != userID || factors[k].friendlyName != name
          modifies {}
        {
          var k :| k in rest;
          rest := rest - {k};
          if factors[k].userID == userID && factors[k].friendlyName == name {
            return Err(FactorNameConflict);
          }
        }
      }
      var f := Factor(fid, userID, name, factorType, Unverified, now, now);
      factors := factors[f.id := f];
      used := used + {fid};
      return Ok(f);
    }

    method GetFactor(fid: Id) returns (f: Option<Factor>)
      ensures f == Ops.GetFactor(View(), fid)
    {
      f := if fid in factors then Some(factors[fid]) else None;
    }

    method VerifyFactor(fid: Id, now: int) returns (res: Result<Factor>)
      requires Valid()
      modifies this`factors
      ensures Valid()
      ensures Out(View(), res) == Ops.VerifyFactor(old(View()), fid, now)
    {
      hide Inv;
      VerifyFactorKeeps(View(), fid, now);
      if fid !in factors {
        return Err(FactorNotFound);
      }
      factors := factors[fid := factors[fid].(status := Verified)];
      factors := factors[fid := factors[fid].(updatedAt := now)];
      assert factors == old(factors)[fid := factors[fid]];
      return Ok(factors[fid]);
    }

    method DeleteFactor(userID: Id, fid: Id) returns (res: Result<()>)
      requires Valid()
      modifies this`factors, this`challenges
      ensures Valid()
      ensures Out(View(), res) == Ops.DeleteFactor(old(View()), userID, fid)
    {
      hide Inv;
      DeleteFactorKeeps(View(), userID, fid);
      if fid !in factors || factors[fid].userID != userID {
        return Err(FactorNotFound);
      }
      DeleteFactorLocked(fid);
      return Ok(());
    }

    // Removes a factor and its challenges.
    method DeleteFactorLocked(fid: Id)
      modifies this`factors, this`challenges
      ensures factors == old(factors) - {fid}
      ensures challenges == map k | k in old(challenges) && old(challenges)[k].factorID != fid :: old(challenges)[k]
    {
      factors := factors - {fid};
      ghost var all := challenges;
      var rest := challenges.Keys;
      while rest != {}
        invariant rest <= all.Keys
        invariant challenges == map k | k in all && (k in rest || all[k].factorID != fid) :: all[k]
        modifies this`challenges
      {
        var cid :| cid in rest;
        rest := rest - {cid};
        if challenges[cid].factorID == fid {
          challenges := challenges - {cid};
        }
      }
    }

    method CreateChallenge(fid: Id, value: string, now: int, cid: Id) returns (res: Result<Challenge>)
      requires Valid() && Fresh(View(), cid)
      modifies this`challenges, this`used
      ensures Valid()
      ensures Out(View(), res) == Ops.CreateChallenge(old(View()), fid, value, now, cid)
    {
      hide Inv;
      CreateChallengeKeeps(View(), fid, value, now, cid);
      if fid !in factors {
        return Err(FactorNotFound);
      }
      var ch := Challenge(cid, fid, value, now, now + CHALLENGE_TTL);
      challenges := challenges[ch.id := ch];
      used := used + {cid};
      return Ok(ch);
    }

    method ConsumeChallenge(fid: Id, cid: Id, now: int) returns (res: Result<Challenge>)
      requires Valid()
      modifies this`challenges
      ensures Valid()
      ensures Out(View(), res) == Ops.ConsumeChallenge(old(View()), fid, cid, now)
    {
      hide Inv;
      ConsumeChallengeKeeps(View(), fid, cid, now);
      if cid !in challenges || challenges[cid].factorID != fid {
        return Err(ChallengeNotFound);
      }
      var ch := challenges[cid];
      if now > ch.expiresAt {
        challenges := challenges - {cid};
        return Err(ChallengeExpired);
      }
      challenges := challenges - {cid};
      return Ok(ch);
    }

    method UpgradeSessionAAL(sid: Id, amrMethod: string, now: int) returns (res: Result<Session>)
      requires Valid()
      modifies this`sessions
      ensures Valid()
      ensures Out(View(), res) == Ops.UpgradeSessionAAL(old(View()), sid, amrMethod, now)
    {
      hide Inv;
      UpgradeSessionAALKeeps(View(), sid, amrMethod, now);
      if sid !in sessions {
        return Err(UserNotFound);
      }
      var sess := sessions[sid].(aal := AAL2);
      var has := false;
      for i := 0 to |sess.amr|
        invariant has <==> Ops.HasMethod(sess.amr[..i], amrMethod)
        modifies {}
      {
        if sess.amr[i].amrMethod == amrMethod {
          has := true;
          break;
        }
      }
      if !has {
        sess := sess.(amr := sess.amr + [AMREntry(amrMethod, Unix(now))]);
      }
      sessions := sessions[sid := sess];
      return Ok(sess);
    }

    // ---- passkeys -----------------------------------------------------------------

    method CreatePasskeyChallenge(userID: Id, purpose: Purpose, name: string, value: string, now: int, cid: Id)
      returns (res: Result<PasskeyChallenge>)
      requires Valid() && Fresh(View(), cid)
      modifies this`passkeyChallenges, this`used
      ensures Valid()
      ensures Out(View(), res) == Ops.CreatePasskeyChallenge(old(View()), userID, purpose, name, value, now, cid)
    {
      hide Inv;
      CreatePasskeyChallengeKeeps(View(), userID, purpose, name, value, now, cid);
      if userID != "" && userID !in users {
        return Err(UserNotFound);
      }
      var ch := PasskeyChallenge(cid, userID, purpose, name, value, now, now + CHALLENGE_TTL);
      passkeyChallenges := passkeyChallenges[ch.id := ch];
      used := used + {cid};
      return Ok(ch);
    }

    method ConsumePasskeyChallenge(cid: Id, purpose: Purpose, now: int) returns (res: Result<PasskeyChallenge>)
      requires Valid()
      modifies this`passkeyChallenges
      ensures Valid()
      ensures Out(View(), res) == Ops.ConsumePasskeyChallenge(old(View()), cid, purpose, now)
    {
      hide Inv;
      ConsumePasskeyChallengeKeeps(View(), cid, purpose, now);
      if cid !in passkeyChallenges || passkeyChallenges[cid].purpose != purpose {
        return Err(PasskeyChallengeNotFound);
      }
      var ch := passkeyChallenges[cid];
      if now > ch.expiresAt {
        passkeyChallenges := passkeyChallenges - {cid};
        return Err(PasskeyChallengeExpired);
      }
      passkeyChallenges := passkeyChallenges - {cid};
      return Ok(ch);
    }

    method AddPasskey(userID: Id, name: string, cred: string, now: int, pid: Id) returns (res: Result<Passkey>)
      requires Valid() && Fresh(View(), pid)
      modifies this`passkeys, this`passkeyByCred, this`used
      ensures Valid()
      ensures Out(View(), res) == Ops.AddPasskey(old(View()), userID, name, cred, now, pid)
    {
      hide Inv;
      AddPasskeyKeeps(View(), userID, name, cred, now, pid);
      if userID !in users {
        return Err(UserNotFound);
      }
      if cred in passkeyByCred {
        return Err(PasskeyExists);
      }
      var pk := Passkey(pid, userID, name, cred, now, None);
      passkeys := passkeys[pk.id := pk];
      passkeyByCred := passkeyByCred[cred := pk.id];
      used := used + {pid};
      return Ok(pk);
    }

    method DeletePasskey(userID: Id, pid: Id) returns (res: Result<()>)
      requires Valid()
      modifies this`passkeys, this`passkeyByCred
      ensures Valid()
      ensures Out(View(), res) == Ops.DeletePasskey(old(View()), userID, pid)
    {
      hide Inv;
      DeletePasskeyKeeps(View(), userID, pid);
      if pid !in passkeys || passkeys[pid].userID != userID {
        return Err(PasskeyNotFound);
      }
      DeletePasskeyLocked(passkeys[pid]);
      return Ok(());
    }

    // Removes a passkey and its credential entry.
    method DeletePasskeyLocked(pk: Passkey)
      modifies this`passkeys, this`passkeyByCred
      ensures passkeys == old(passkeys) - {pk.id}
      ensures passkeyByCred == old(passkeyByCred) - {pk.credentialID}
    {
      passkeys := passkeys - {pk.id};
      passkeyByCred := passkeyByCred - {pk.credentialID};
    }

    method MarkPasskeyUsed(pid: Id, now: int)
      requires Valid()
      modifies this`passkeys
      ensures Valid()
      ensures View() == Ops.MarkPasskeyUsed(old(View()), pid, now)
    {
      hide Inv;
      MarkPasskeyUsedKeeps(View(), pid, now);
      if pid !in passkeys {
        return;
      }
      passkeys := passkeys[pid := passkeys[pid].(lastUsedAt := Some(now))];
    }

    method FindPasskeyByCredentialID(cred: string) returns (pk: Option<Passkey>)
      ensures pk == Ops.FindPasskeyByCredentialID(View(), cred)
    {
      if cred !in passkeyByCred || passkeyByCred[cred] !in passkeys {
        return None;
      }
      return Some(passkeys[passkeyByCred[cred]]);
    }

    // The user's passkeys by creation time, ties by id, whatever order the map is scanned in.
    method ListUserPasskeys(userID: Id) returns (out: seq<Passkey>)
      requires PasskeysKeyed(passkeys)
      ensures out == PasskeyList(passkeys, userID)
    {
      out := [];
      var rest := passkeys.Keys;
      ghost var seen: set<Id> := {};
      while rest != {}
        invariant rest <= passkeys.Keys && seen == passkeys.Keys - rest
        invariant forall p :: p in out <==> p.id in seen && passkeys[p.id] == p && p.userID == userID
        invariant forall i, j | 0 <= i < j < |out| :: out[i] != out[j]
      {
        var pid :| pid in rest;
        rest := rest - {pid};
        seen := seen + {pid};
        if passkeys[pid].userID == userID {
          out := out + [passkeys[pid]];
        }
      }
      assert Enumerates(out, PasskeysOf(passkeys, userID));
      PasskeyListing(passkeys, userID, out);
      out := Sort(PASSKEY_LESS, out);
    }
  }

  lemma RevokeParts(s: State, sid: Id, now: int)
    ensures var toks := s.auth.refreshTokens;
            var past := Ops.Backdate(s.reuseInterval, now);
            var t := Ops.RevokeRefreshTokensBySession(s, sid, now);
            && t.accounts == s.accounts && t.mfa == s.mfa && t.keys == s.keys && t.oauth == s.oauth && t.ids == s.ids
            && t.reuseInterval == s.reuseInterval
            && t.auth.sessions == s.auth.sessions - {sid}
            && t.auth.refreshTokens == Killed(toks, sid, past, {})
            && t.auth.parentToChild == s.auth.parentToChild - Ops.Touched(toks, Ops.TokensOfSession(toks, sid))
  {
  }

  lemma CreateUserIs(s: State, email: string, hash: seq<bv8>, now: int, uid: Id, iid: Id)
    ensures var out := Ops.CreateUser(s, email, hash, now, uid, iid);
            var normalized := Lower(email);
            if normalized in s.accounts.emailIndex then out == Out(s, Err(UserAlreadyExists))
            else
              var u := Ops.EmailUser(normalized, hash, now, uid, iid);
              && out.res == Ok(u)
              && out.st == s.(accounts := Accounts(s.accounts.users[uid := u],
                                                   s.accounts.emailIndex[normalized := uid]),
                              ids := Ids(s.ids.used + {uid, iid}))
  {
    hide Lower;
  }

  lemma NeverNil(s: State, provider: string, hint: string, now: int, uid: Id, sub: Id, iid: Id, salt: Id)
    requires Inv(s)
    ensures Ops.CreateOAuthUser(s, provider, hint, now, uid, sub, iid, salt).res.Ok?
  {
    FindOrCreateNeverNil(s, provider, hint, now, uid, sub, iid, salt);
  }

  lemma OAuthReuses(s: State, provider: string, hint: string, now: int, uid: Id, sub: Id, iid: Id, salt: Id)
    requires Ops.OAuthEmail(hint) != "" && Ops.OAuthEmail(hint) in s.accounts.emailIndex
    requires Ops.CreateOAuthUser(s, provider, hint, now, uid, sub, iid, salt).res.Ok?
    ensures var out := Ops.CreateOAuthUser(s, provider, hint, now, uid, sub, iid, salt);
            var email := Ops.OAuthEmail(hint);
            var id := s.accounts.emailIndex[email];
            id in s.accounts.users &&
            var u := s.accounts.users[id];
            var appended := Ops.AppendProviderIdentity(u, provider, email, now, sub, iid);
            var linked := Ops.RecomputeProviders(appended).(updatedAt := now);
            if Ops.HasProvider(u, provider) then out == Out(s, Ok(u))
            else out == Out(s.(accounts := s.accounts.(users := s.accounts.users[id := linked]),
                               ids := Ids(s.ids.used + {sub, iid})), Ok(linked))
  {
    hide Ops.HasProvider, Ops.OAuthEmail, Ops.Synthesized, Ops.AppendProviderIdentity, Ops.RecomputeProviders;
  }

  lemma OAuthRegisters(s: State, provider: string, hint: string, now: int, uid: Id, sub: Id, iid: Id, salt: Id)
    requires Ops.OAuthEmail(hint) == "" || Ops.OAuthEmail(hint) !in s.accounts.emailIndex
    ensures var out := Ops.CreateOAuthUser(s, provider, hint, now, uid, sub, iid, salt);
            var address := if Ops.OAuthEmail(hint) == "" then Ops.Synthesized(provider, salt) else Ops.OAuthEmail(hint);
            var u := Ops.RecomputeProviders(
              Ops.AppendProviderIdentity(Ops.NewUser(uid, address, now), provider, address, now, sub, iid));
            out == Out(s.(accounts := Accounts(s.accounts.users[uid := u], s.accounts.emailIndex[address := uid]),
                          ids := Ids(s.ids.used + {uid, sub, iid, salt})), Ok(u))
  {
    var address := if Ops.OAuthEmail(hint) == "" then Ops.Synthesized(provider, salt) else Ops.OAuthEmail(hint);
    RecomputeAgrees(Ops.AppendProviderIdentity(Ops.NewUser(uid, address, now), provider, address, now, sub, iid));
    hide Ops.HasProvider, Ops.OAuthEmail, Ops.Synthesized, Ops.OAuthData, Ops.RecomputeProviders, MetadataAgrees;
  }

  lemma NoSuchUser(s: State, id: Id)
    requires id !in s.accounts.users
    ensures Ops.DeleteUser(s, id) == Out(s, Err(UserNotFound))
  {
  }

  // The loops of DeleteUser together are its specification.
  lemma DeleteUserIs(s: State, t: State, id: Id)
    requires id in s.accounts.users
    requires t.accounts == Accounts(s.accounts.users - {id},
                                    s.accounts.emailIndex - {Lower(s.accounts.users[id].email)})
    requires t.auth == Auth(SessionsLeft(s.auth.sessions, id, {}), TokensLeft(s.auth.refreshTokens, id, {}),
                            s.auth.parentToChild - Ops.Touched(s.auth.refreshTokens,
                                Ops.TokensOfUser(s.auth.refreshTokens, id)))
    requires t.mfa == Mfa(FactorsLeft(s.mfa.factors, id, {}), ChallengesLeft(s.mfa.factors, s.mfa.challenges, id, {}))
    requires t.keys == Keys(PasskeysLeft(s.keys.passkeys, id, {}),
                            s.keys.passkeyByCred - CredsGone(s.keys.passkeys, id, {}),
                            CeremoniesLeft(s.keys.passkeyChallenges, id, {}))
    requires t.oauth == s.oauth && t.ids == s.ids && t.reuseInterval == s.reuseInterval
    ensures Out(t, Ok(())) == Ops.DeleteUser(s, id)
  {
    AllOwnedGone(s, id);
    AllFactorsGone(s.mfa.factors, s.mfa.challenges, id);
    AllPasskeysGone(s.keys.passkeys, id);
    hide SessionsLeft, TokensLeft, FactorsLeft, ChallengesLeft, PasskeysLeft, CredsGone, CeremoniesLeft;
    hide Ops.Touched, Ops.TokensOfUser, Ops.ChallengeOfUser, Lower;
  }

  lemma AllOwnedGone(s: State, id: Id)
    ensures SessionsLeft(s.auth.sessions, id, {}) == map k | k in s.auth.sessions
            && s.auth.sessions[k].userID != id :: s.auth.sessions[k]
    ensures TokensLeft(s.auth.refreshTokens, id, {}) ==
              map t | t in s.auth.refreshTokens && s.auth.refreshTokens[t].userID != id :: s.auth.refreshTokens[t]
    ensures CeremoniesLeft(s.keys.passkeyChallenges, id, {}) ==
              map k | k in s.keys.passkeyChallenges
                  && s.keys.passkeyChallenges[k].userID != id :: s.keys.passkeyChallenges[k]
  {
  }

  lemma FailedSession(s: State, userID: Id, amrMethod: string, now: int, sid: Id)
    ensures Ops.CreateSession(s, userID, amrMethod, now, sid).res.Err?
            ==> Ops.CreateSession(s, userID, amrMethod, now, sid).st == s
  {
  }

  lemma SessionNames(s: State, userID: Id, amrMethod: string, now: int, sid: Id)
    ensures Ops.CreateSession(s, userID, amrMethod, now, sid).res.Ok? ==>
              Ops.CreateSession(s, userID, amrMethod, now, sid).res.value.id == sid
  {
  }

  lemma FailedToken(s: State, userID: Id, sid: Id, now: int, tok: Id)
    ensures Ops.IssueRefreshToken(s, userID, sid, now, tok).res.Err? ==>
              Ops.IssueRefreshToken(s, userID, sid, now, tok).res.error == UserNotFound
  {
  }

  lemma ScannedAll(users: map<Id, User>, out: seq<User>)
    requires forall k | k in users :: users[k].id == k
    requires forall u :: u in out <==> u.id in users && users[u.id] == u
    requires forall i, j | 0 <= i < j < |out| :: out[i] != out[j]
    ensures Enumerates(out, users.Values)
  {
    forall u ensures u in out <==> u in users.Values {
      assert u in users.Values ==> exists k :: k in users && users[k] == u;
    }
  }

  // ---- the loops that cut edges, with `rest` still to visit -------------------

  ghost function Killed(toks: map<Id, RefreshToken>, sid: Id, past: int, rest: set<Id>): (r: map<Id, RefreshToken>)
    ensures r.Keys == toks.Keys
  {
    map t | t in toks :: if t !in rest && toks[t].sessionID == sid then toks[t].(revoked := true, issuedAt := past)
        else toks[t]
  }

  ghost function Done(toks: map<Id, RefreshToken>, gone: set<Id>, rest: set<Id>): set<Id> {
    Ops.Touched(toks, gone - rest)
  }

  lemma KilledMore(toks: map<Id, RefreshToken>, sid: Id, past: int, rest: set<Id>, t: Id)
    requires t in rest && rest <= toks.Keys
    ensures t in Killed(toks, sid, past, rest) && Killed(toks, sid, past, rest)[t] == toks[t]
    ensures Killed(toks, sid, past, rest - {t}) ==
              if toks[t].sessionID == sid
              then Killed(toks, sid, past, rest)[t := toks[t].(revoked := true, issuedAt := past)]
              else Killed(toks, sid, past, rest)
  {
  }

  lemma NoneKilled(toks: map<Id, RefreshToken>, sid: Id, past: int)
    ensures Killed(toks, sid, past, toks.Keys) == toks
  {
  }

  lemma OfSession(toks: map<Id, RefreshToken>, sid: Id)
    ensures Ops.TokensOfSession(toks, sid) <= toks.Keys
    ensures forall t | t in toks :: t in Ops.TokensOfSession(toks, sid) <==> toks[t].sessionID == sid
  {
  }

  lemma OfUser(toks: map<Id, RefreshToken>, id: Id)
    ensures Ops.TokensOfUser(toks, id) <= toks.Keys
    ensures forall t | t in toks :: t in Ops.TokensOfUser(toks, id) <==> toks[t].userID == id
  {
  }

  lemma NoneDone(toks: map<Id, RefreshToken>, gone: set<Id>)
    requires gone <= toks.Keys
    ensures Done(toks, gone, toks.Keys) == {}
  {
    assert gone - toks.Keys == {};
  }

  lemma AllDone(toks: map<Id, RefreshToken>, gone: set<Id>)
    ensures Done(toks, gone, {}) == Ops.Touched(toks, gone)
  {
    assert gone - {} == gone;
  }

  lemma DoneMore(toks: map<Id, RefreshToken>, gone: set<Id>, rest: set<Id>, t: Id)
    requires t in rest && t in toks
    ensures Done(toks, gone, rest - {t}) ==
              Done(toks, gone, rest)
              + if t in gone then {t} + (if toks[t].parent != "" then {toks[t].parent} else {}) else {}
  {
    var before, after := gone - rest, gone - (rest - {t});
    assert after == if t in gone then before + {t} else before;
  }

  // ---- the deletion loops, with `rest` still to visit -------------------------

  ghost function SessionsLeft(all: map<Id, Session>, id: Id, rest: set<Id>): map<Id, Session> {
    map k | k in all && (k in rest || all[k].userID != id) :: all[k]
  }

  ghost function TokensLeft(all: map<Id, RefreshToken>, id: Id, rest: set<Id>): map<Id, RefreshToken> {
    map k | k in all && (k in rest || all[k].userID != id) :: all[k]
  }

  ghost function CeremoniesLeft(all: map<Id, PasskeyChallenge>, id: Id, rest: set<Id>): map<Id, PasskeyChallenge> {
    map k | k in all && (k in rest || all[k].userID != id) :: all[k]
  }

  ghost function FactorsLeft(all: map<Id, Factor>, id: Id, rest: set<Id>): map<Id, Factor> {
    map k | k in all && (k in rest || all[k].userID != id) :: all[k]
  }

  ghost function ChallengesLeft(all: map<Id, Factor>, chs: map<Id, Challenge>, id: Id, rest: set<Id>): map<Id,
      Challenge> {
    map k | k in chs && !(Ops.ChallengeOfUser(all, chs[k], id) && chs[k].factorID !in rest) :: chs[k]
  }

  lemma NoFactorGone(all: map<Id, Factor>, chs: map<Id, Challenge>, id: Id)
    ensures FactorsLeft(all, id, all.Keys) == all && ChallengesLeft(all, chs, id, all.Keys) == chs
  {
  }

  lemma FactorGone(all: map<Id, Factor>, chs: map<Id, Challenge>, id: Id, rest: set<Id>, fid: Id)
    requires fid in rest && rest <= all.Keys
    ensures fid in FactorsLeft(all, id, rest) && FactorsLeft(all, id, rest)[fid] == all[fid]
    ensures var fs, cs := FactorsLeft(all, id, rest), ChallengesLeft(all, chs, id, rest);
            var fs', cs' := FactorsLeft(all, id, rest - {fid}), ChallengesLeft(all, chs, id, rest - {fid});
            if all[fid].userID == id
            then fs' == fs - {fid} && cs' == map k | k in cs && cs[k].factorID != fid :: cs[k]
            else fs' == fs && cs' == cs
  {
  }

  lemma AllFactorsGone(all: map<Id, Factor>, chs: map<Id, Challenge>, id: Id)
    ensures FactorsLeft(all, id, {}) == map k | k in all && all[k].userID != id :: all[k]
    ensures ChallengesLeft(all, chs, id, {}) == map k | k in chs && !Ops.ChallengeOfUser(all, chs[k], id) :: chs[k]
  {
  }

  ghost function PasskeysLeft(all: map<Id, Passkey>, id: Id, rest: set<Id>): map<Id, Passkey> {
    map k | k in all && (k in rest || all[k].userID != id) :: all[k]
  }

  ghost function CredsGone(all: map<Id, Passkey>, id: Id, rest: set<Id>): set<string> {
    set k | k in all && k !in rest && all[k].userID == id :: all[k].credentialID
  }

  lemma NoPasskeyGone(all: map<Id, Passkey>, id: Id)
    ensures PasskeysLeft(all, id, all.Keys) == all && CredsGone(all, id, all.Keys) == {}
  {
  }

  lemma PasskeyGone(all: map<Id, Passkey>, id: Id, rest: set<Id>, pid: Id)
    requires pid in rest && rest <= all.Keys && PasskeysKeyed(all)
    ensures pid in PasskeysLeft(all, id, rest) && PasskeysLeft(all, id, rest)[pid] == all[pid]
    ensures all[pid].id == pid
    ensures if all[pid].userID == id
            then PasskeysLeft(all, id, rest - {pid}) == PasskeysLeft(all, id, rest) - {pid}
                 && CredsGone(all, id, rest - {pid}) == CredsGone(all, id, rest) + {all[pid].credentialID}
            else PasskeysLeft(all, id, rest - {pid}) == PasskeysLeft(all, id, rest)
                 && CredsGone(all, id, rest - {pid}) == CredsGone(all, id, rest)
  {
  }

  lemma AllPasskeysGone(all: map<Id, Passkey>, id: Id)
    ensures PasskeysLeft(all, id, {}) == map k | k in all && all[k].userID != id :: all[k]
    ensures CredsGone(all, id, {}) == set k | k in all && all[k].userID == id :: all[k].credentialID
  {
  }
}

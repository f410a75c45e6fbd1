// How users come to be, under which address and with which identities: signing up, OAuth find-or-create,
// seeding, and unlinking.
module Registrations {
  import opened Text
  import opened Model
  import opened Ops
  import opened Integrity
  import opened Emails
  import opened Identities
  import opened Invariant
  import opened Requests
  import opened Answers
  import opened Callers

  // Nothing but the accounts (and the ids made) differ.
  ghost predicate OnlyAccounts(s: State, t: State) {
    t.auth == s.auth && t.mfa == s.mfa && t.keys == s.keys && t.oauth == s.oauth && t.reuseInterval == s.reuseInterval
  }

  // The user was added, under its address.
  ghost predicate Added(s: State, t: State, u: User) {
    && u.id !in s.ids.used
    && t.accounts == Accounts(s.accounts.users[u.id := u], s.accounts.emailIndex[u.email := u.id])
  }

  // ---- signing up ---------------------------------------------------------------

  ghost predicate SignupAccepted(s: State, env: Env, email: string, password: string) {
    && '@' in TrimSpace(email) && ByteLength(password) >= 6 && env.hash(password).Some?
    && Lower(TrimSpace(email)) !in s.accounts.emailIndex
  }

  // A user made at that time, confirmed at once and never signed in.
  ghost predicate MadeAt(u: User, now: int) {
    && u.aud == "authenticated" && u.role == "authenticated" && u.createdAt == now
    && u.emailConfirmedAt == Some(now) && u.confirmedAt == Some(now) && u.lastSignInAt == None
  }

  // The user a registration makes: the address, the hash, and the email identity alone, under the user's own id.
  ghost predicate FreshLogin(u: User, address: string, hash: seq<bv8>, now: int) {
    && u.email == address && u.passwordHash == hash && MadeAt(u, now)
    && |u.identities| == 1 && u.identities[0].provider == "email" && u.identities[0].id == u.id
    && u.identities[0].identityData == map["email" := Str(address), "sub" := Str(u.id)] && Linked(u)
  }

  lemma SignupIs(sys: Sys, email: string, password: string, data: Meta, env: Env)
    ensures Step(sys, Signup(email, password, data), env) == SignupStep(sys, email, password, data, env)
  {
    hide SignupStep;
  }

  lemma CreatedLogin(s: State, address: string, hash: seq<bv8>, now: int, uid: Id, iid: Id)
    requires Fresh(s, uid)
    ensures var a := CreateUser(s, address, hash, now, uid, iid);
            if Lower(address) in s.accounts.emailIndex then a == Out(s, Err(UserAlreadyExists))
            else
              && a.res.Ok? && a.res.value.id == uid && Added(s, a.st, a.res.value) && OnlyAccounts(s, a.st)
              && FreshLogin(a.res.value, Lower(address), hash, now) && a.res.value.userMetadata == map[]
  {
    EmailUserLinked(Lower(address), hash, now, uid, iid);
    hide Linked, Lower;
  }

  // The end of a signup: the metadata is stored, if there is any, and the answer shows the user.
  lemma WelcomeShows(sys: Sys, u: User, data: Meta, env: Env)
    requires u.id in sys.store.accounts.users && sys.store.accounts.users[u.id] == u
    ensures var r := Welcome(sys, u, data, env);
            var u' := if |data| == 0 then u else u.(userMetadata := data, updatedAt := env.clk(1));
            && Shows(sys, r, env.clk(4)) && r.resp.Token? && r.resp.tr.user.id == u.id
            && Opened(sys.store, r, "password", env.clk(2), env.clk(3))
            && r.sys.store.accounts == sys.store.accounts.(users := sys.store.accounts.users[u.id := u'])
            && r.sys.store.mfa == sys.store.mfa && r.sys.store.keys == sys.store.keys
            && r.sys.store.oauth == sys.store.oauth
  {
    hide IssueWithMethod, Shows, Opened;
    if |data| == 0 {
      IssueShows(sys, u, "password", env, 2, 2);
      assert sys.store.accounts.users[u.id := u] == sys.store.accounts.users;
    } else {
      var b := SetUserMetadata(sys.store, u.id, data, env.clk(1));
      IssueShows(sys.(store := b.st), b.res.value, "password", env, 2, 2);
      SameSys(sys, sys.(store := b.st), IssueWithMethod(sys.(store := b.st), b.res.value, "password", env, 2, 2),
              env.clk(4), OpSetUserMetadata(u.id, data, env.clk(1)));
      SameOpened(sys.store, b.st, IssueWithMethod(sys.(store := b.st), b.res.value, "password", env, 2, 2),
                 OpSetUserMetadata(u.id, data, env.clk(1)), "password", env.clk(2), env.clk(3));
    }
  }

  // A signup is answered with tokens exactly when the address has an @ and is free, the password is long enough
  // and can be hashed. Then one user is added, with that hash and the submitted metadata; otherwise nothing changes.
  lemma SignupRegisters(sys: Sys, email: string, password: string, data: Meta, env: Env)
    requires EnvOk(sys.store, env)
    ensures var r := Step(sys, Signup(email, password, data), env);
            && (r.resp.Token? <==> SignupAccepted(sys.store, env, email, password))
            && (r.resp.Token? ==>
                  var uid := r.resp.tr.user.id;
                  && Shows(sys, r, env.clk(4)) && Opened(sys.store, r, "password", env.clk(2), env.clk(3))
                  && uid in r.sys.store.accounts.users
                  && var u := r.sys.store.accounts.users[uid];
                  && u.id == uid && Added(sys.store, r.sys.store, u)
                  && FreshLogin(u, Lower(TrimSpace(email)), env.hash(password).value, env.clk(0))
                  && u.userMetadata == data
                  && r.sys.store.mfa == sys.store.mfa && r.sys.store.keys == sys.store.keys
                  && r.sys.store.oauth == sys.store.oauth)
            && (!r.resp.Token? ==>
                  && r.sys == sys
                  && r.resp == Rejected(if '@' !in TrimSpace(email) || password == "" then 400
                                        else if ByteLength(password) < 6 then 422
                                        else if env.hash(password).None? then 500 else 422, ""))
  {
    hide Step, TrimSpace, Lower, CreateUser, Welcome, Shows, Opened, Linked, Synthesized;
    SignupIs(sys, email, password, data, env);
    var address := TrimSpace(email);
    if address != "" && password != "" && '@' in address && ByteLength(password) >= 6 && env.hash(password).Some? {
      var hash := env.hash(password).value;
      CreatedLogin(sys.store, address, hash, env.clk(0), env.uuid(0), env.uuid(1));
      var a := CreateUser(sys.store, address, hash, env.clk(0), env.uuid(0), env.uuid(1));
      if a.res.Ok? {
        WelcomeShows(sys.(store := a.st), a.res.value, data, env);
        SameSys(sys, sys.(store := a.st), Welcome(sys.(store := a.st), a.res.value, data, env), env.clk(4),
                OpCreateUser(address, hash, env.clk(0), env.uuid(0), env.uuid(1)));
        SameOpened(sys.store, a.st, Welcome(sys.(store := a.st), a.res.value, data, env),
                   OpCreateUser(address, hash, env.clk(0), env.uuid(0), env.uuid(1)), "password", env.clk(2),
                   env.clk(3));
        LinkedFields(a.res.value, data, env.clk(1));
      }
    }
  }

  lemma LinkedFields(u: User, data: Meta, now: int)
    ensures Linked(u) <==> Linked(u.(userMetadata := data, updatedAt := now))
  {
  }

  // ---- signing in with a provider -------------------------------------------------

  // The user's account is the same, except for identities and what is derived from them.
  ghost predicate SameLogin(u: User, u': User) {
    && u' == u.(identities := u'.identities, appMetadata := u'.appMetadata, updatedAt := u'.updatedAt)
    && u'.appMetadata - {"provider", "providers"} == u.appMetadata - {"provider", "providers"}
  }

  // The identity made up for a provider sign-in: it names the address, and what stands before the @, if anything.
  ghost predicate Fabricated(i: Identity, uid: Id, provider: string, address: string, now: int) {
    && i.userID == uid && i.provider == provider
    && i.createdAt == now && i.updatedAt == now && i.lastSignInAt == now
    && "sub" in i.identityData && i.identityData["sub"] == Str(i.id)
    && "email" in i.identityData && i.identityData["email"] == Str(address)
    && (forall at | 0 < at < |address| && address[at] == '@' && '@' !in address[..at] ::
          "user_name" in i.identityData && i.identityData["user_name"] == Str(address[..at]))
    && ('@' !in address || address[0] == '@' ==> "user_name" !in i.identityData)
  }

  ghost predicate OthersSame(s: State, t: State, uid: Id) {
    forall k | k != uid :: (k in t.accounts.users <==> k in s.accounts.users)
                           && (k in s.accounts.users ==> t.accounts.users[k] == s.accounts.users[k])
  }

  // The stored user that find-or-create answers for a provider and a hinted address: the one the address led to,
  // now with an identity of the provider, or else a new one with that identity alone. Without a hint the new
  // user's address is made up.
  ghost predicate FoundOrCreated(s: State, t: State, uid: Id, provider: string, address: string, now: int) {
    && uid in t.accounts.users && t.accounts.users[uid].id == uid && OthersSame(s, t, uid)
    && HasProvider(t.accounts.users[uid], provider)
    && (address != "" ==> t.accounts.users[uid].email == address)
    && if address != "" && address in s.accounts.emailIndex then
         && uid == s.accounts.emailIndex[address] && uid in s.accounts.users
         && t.accounts.emailIndex == s.accounts.emailIndex
         && SameLogin(s.accounts.users[uid], t.accounts.users[uid])
         && s.accounts.users[uid].identities <= t.accounts.users[uid].identities
         && (if HasProvider(s.accounts.users[uid], provider) then t.accounts == s.accounts
             else NewlyLinked(s.accounts.users[uid], t.accounts.users[uid], provider, now))
       else
         && Added(s, t, t.accounts.users[uid])
         && t.accounts.users[uid].passwordHash == [] && MadeAt(t.accounts.users[uid], now)
         && |t.accounts.users[uid].identities| == 1
         && Fabricated(t.accounts.users[uid].identities[0], uid, provider, t.accounts.users[uid].email, now)
         && (address == "" ==> t.accounts.users[uid].email !in s.accounts.emailIndex
                               && provider + "_" <= t.accounts.users[uid].email)
  }

  // One identity of the provider was appended, at that time.
  ghost predicate NewlyLinked(u: User, u': User, provider: string, now: int) {
    && u'.updatedAt == now && |u'.identities| == |u.identities| + 1
    && Fabricated(u'.identities[|u.identities|], u.id, provider, u.email, now)
  }

  lemma AppendedProvider(u: User, provider: string, email: string, now: int, sub: Id, iid: Id)
    ensures var u' := RecomputeProviders(AppendProviderIdentity(u, provider, email, now, sub, iid));
            && u'.id == u.id && u'.email == u.email && u'.passwordHash == u.passwordHash
            && |u'.identities| == |u.identities| + 1 && u.identities <= u'.identities
            && Fabricated(u'.identities[|u.identities|], u.id, provider, email, now)
            && (MadeAt(u, now) ==> MadeAt(u', now))
            && HasProvider(u', provider) && SameLogin(u, u')
            && HasProvider(u'.(updatedAt := now), provider) && SameLogin(u, u'.(updatedAt := now))
  {
    var u' := RecomputeProviders(AppendProviderIdentity(u, provider, email, now, sub, iid));
    assert u'.identities[|u.identities|].provider == provider;
    assert u'.(updatedAt := now).identities[|u.identities|].provider == provider;
    DataOf(sub, email);
    hide OAuthData;
  }

  // The data made up for an identity.
  lemma DataOf(sub: Id, email: string)
    ensures var d := OAuthData(sub, email);
            && "sub" in d && d["sub"] == Str(sub) && "email" in d && d["email"] == Str(email)
            && (forall at | 0 < at < |email| && email[at] == '@' && '@' !in email[..at] ::
                  "user_name" in d && d["user_name"] == Str(email[..at]))
            && ('@' !in email || email[0] == '@' ==> "user_name" !in d)
  {
    var i := IndexOf(email, '@');
    forall at | 0 < at < |email| && email[at] == '@' && '@' !in email[..at] ensures i == at {
      assert forall k | 0 <= k < at :: email[..at][k] == email[k];
      assert forall k | 0 <= k < i :: email[..i][k] == email[k];
    }
    assert i > 0 ==> email[..i][0] == email[0];
  }

  // The address leads to a user: that user, with an identity of the provider.
  lemma Found(s: State, t: State, provider: string, address: string, u': User, now: int)
    requires UsersOk(s.accounts.users) && LowerEntries(s.accounts.users, s.accounts.emailIndex)
    requires address != "" && Lower(address) == address && address in s.accounts.emailIndex
    requires var u := s.accounts.users[s.accounts.emailIndex[address]];
             && u'.id == u.id && u'.email == u.email && HasProvider(u', provider) && SameLogin(u, u')
             && u.identities <= u'.identities
             && (if HasProvider(u, provider) then u' == u else NewlyLinked(u, u', provider, now))
    requires t.accounts.users == s.accounts.users[u'.id := u'] && t.accounts.emailIndex == s.accounts.emailIndex
    ensures FoundOrCreated(s, t, u'.id, provider, address, now)
  {
    hide HasProvider, SameLogin, Lower, NewlyLinked;
    if HasProvider(s.accounts.users[s.accounts.emailIndex[address]], provider) {
      assert t.accounts.users == s.accounts.users;
    }
  }

  // It leads to nobody: a new user, under it or under an address made up.
  lemma Created(s: State, t: State, provider: string, address: string, salt: Id, u: User, now: int)
    requires u.id !in s.ids.used && s.accounts.users.Keys <= s.ids.used
    requires address == "" || address !in s.accounts.emailIndex
    requires u.email == (if address == "" then Synthesized(provider, salt) else address)
    requires Synthesized(provider, salt) !in s.accounts.emailIndex
    requires u.passwordHash == [] && MadeAt(u, now) && |u.identities| == 1 && HasProvider(u, provider)
    requires Fabricated(u.identities[0], u.id, provider, u.email, now)
    requires t.accounts == Accounts(s.accounts.users[u.id := u], s.accounts.emailIndex[u.email := u.id])
    ensures FoundOrCreated(s, t, u.id, provider, address, now)
  {
    hide HasProvider, Fabricated, MadeAt;
    assert provider + "_" <= Synthesized(provider, salt);
  }

  lemma FindOrCreate(s: State, provider: string, hint: string, now: int, uid: Id, sub: Id, iid: Id, salt: Id)
    requires Inv(s) && Fresh(s, uid) && Synthesized(provider, salt) !in s.accounts.emailIndex
    ensures var a := CreateOAuthUser(s, provider, hint, now, uid, sub, iid, salt);
            && a.res.Ok? && FoundOrCreated(s, a.st, a.res.value.id, provider, Lower(TrimSpace(hint)), now)
            && OnlyAccounts(s, a.st) && a.st.ids.used <= s.ids.used + {uid, sub, iid, salt}
            && a.res.value.id in a.st.accounts.users
  {
    hide Inv, Lower, HasProvider, SameLogin, RecomputeProviders, AppendProviderIdentity, TrimSpace, Synthesized;
    hide FoundOrCreated, UsersOk, LowerEntries, Fabricated;
    var email := OAuthEmail(hint);
    LowerIdempotent(TrimSpace(hint));
    InvLookups(s);
    var a := CreateOAuthUser(s, provider, hint, now, uid, sub, iid, salt);
    if email != "" && email in s.accounts.emailIndex {
      LedTo(s, email);
      var u := s.accounts.users[s.accounts.emailIndex[email]];
      AppendedProvider(u, provider, email, now, sub, iid);
      SameLoginRefl(u);
      assert HasProvider(u, provider) ==> s.accounts.users[u.id := u] == s.accounts.users;
      Found(s, a.st, provider, email, a.res.value, now);
    } else {
      var address := if email == "" then Synthesized(provider, salt) else email;
      AppendedProvider(NewUser(uid, address, now), provider, address, now, sub, iid);
      Created(s, a.st, provider, email, salt, a.res.value, now);
    }
  }

  lemma LedTo(s: State, email: string)
    requires UsersOk(s.accounts.users) && LowerEntries(s.accounts.users, s.accounts.emailIndex)
    requires Lower(email) == email && email in s.accounts.emailIndex
    ensures var uid := s.accounts.emailIndex[email];
            uid in s.accounts.users && s.accounts.users[uid].id == uid
  {
  }

  lemma SameLoginRefl(u: User)
    ensures SameLogin(u, u)
  {
  }

  lemma InvLookups(s: State)
    requires Inv(s)
    ensures UsersOk(s.accounts.users) && LowerEntries(s.accounts.users, s.accounts.emailIndex)
    ensures s.accounts.users.Keys <= s.ids.used
  {
  }

  lemma AuthorizeIs(sys: Sys, provider: string, redirectTo: string, hint: string, env: Env)
    ensures Step(sys, Authorize(provider, redirectTo, hint), env) ==
              AuthorizeStep(sys, provider, redirectTo, hint, env)
  {
    hide AuthorizeStep;
  }

  // The code is new, and held for the user for five minutes.
  ghost predicate HandsOut(s: State, t: State, code: Id, uid: Id, now: int) {
    && code !in s.ids.used
    && t.oauth.authCodes == s.oauth.authCodes[code := AuthCode(code, uid, now + 300 * SECOND)]
    && t.auth == s.auth && t.mfa == s.mfa && t.keys == s.keys
  }

  // An OAuth sign-in is answered with a code exactly when provider and target are given and the target is a URL.
  // The code is for the user found or created by the hinted address; otherwise nothing changes.
  lemma AuthorizeHandsOut(sys: Sys, provider: string, redirectTo: string, hint: string, env: Env)
    requires Inv(sys.store) && EnvOk(sys.store, env)
    ensures var r := Step(sys, Authorize(provider, redirectTo, hint), env);
            && (r.resp.Done? <==>
                  TrimSpace(provider) != "" && TrimSpace(redirectTo) != "" && env.isHttpURL(TrimSpace(redirectTo)))
            && (r.resp.Done? ==>
                  && r.resp.id in r.sys.store.oauth.authCodes
                  && var uid := r.sys.store.oauth.authCodes[r.resp.id].userID;
                  && HandsOut(sys.store, r.sys.store, r.resp.id, uid, env.clk(1))
                  && FoundOrCreated(sys.store, r.sys.store, uid, TrimSpace(provider), Lower(TrimSpace(hint)),
                                    env.clk(0))
                  && r.sys == sys.(store := r.sys.store))
            && (!r.resp.Done? ==>
                  && r.sys == sys
                  && r.resp == Rejected(if TrimSpace(provider) == "" || TrimSpace(redirectTo) == "" then 422 else 400,
                                        "validation_failed"))
  {
    hide Step, Inv, TrimSpace, Lower, CreateOAuthUser, FoundOrCreated, Synthesized;
    AuthorizeIs(sys, provider, redirectTo, hint, env);
    var p := TrimSpace(provider);
    if p != "" && TrimSpace(redirectTo) != "" && env.isHttpURL(TrimSpace(redirectTo)) {
      FindOrCreate(sys.store, p, hint, env.clk(0), env.uuid(0), env.uuid(1), env.uuid(2), env.uuid(3));
      var a := CreateOAuthUser(sys.store, p, hint, env.clk(0), env.uuid(0), env.uuid(1), env.uuid(2), env.uuid(3));
      var b := CreateAuthCode(a.st, a.res.value.id, env.clk(1), env.uuid(4));
      SameFound(sys.store, a.st, b.st, a.res.value.id, p, Lower(TrimSpace(hint)), env.clk(0));
    }
  }

  lemma SameFound(s: State, a: State, t: State, uid: Id, provider: string, address: string, now: int)
    requires a.accounts == t.accounts
    ensures FoundOrCreated(s, t, uid, provider, address, now) <==> FoundOrCreated(s, a, uid, provider, address, now)
  {
    hide HasProvider, Fabricated, MadeAt, NewlyLinked, SameLogin;
  }

  // ---- seeding --------------------------------------------------------------------

  // The providers a seeded user should have, in order; the email identity comes with the user.
  function SeedProviders(seeds: seq<Seed>): seq<string> {
    ["email"] + seq(|seeds|, i requires 0 <= i < |seeds| => TrimSpace(seeds[i].provider))
  }

  // The identity holds the seed's data, under the subject the data names or else under the user's own id.
  ghost predicate Seeded(i: Identity, uid: Id, seed: Seed, now: int) {
    && i.createdAt == now && i.updatedAt == now && i.lastSignInAt == now
    && i.userID == uid && i.provider == TrimSpace(seed.provider)
    && i.id == (if SubOf(seed.data) == "" then uid else SubOf(seed.data))
    && SubOf(i.identityData) == i.id && i.identityData - {"sub"} == seed.data - {"sub"}
  }

  // The user's identities are the email identity and those of the first m seeds.
  ghost predicate SeededUpTo(u: User, seeds: seq<Seed>, m: nat, env: Env) {
    && m <= |seeds| && |u.identities| == 1 + m && u.identities[0].provider == "email"
    && forall i | 0 <= i < m :: Seeded(u.identities[1 + i], u.id, seeds[i], env.clk(1 + i))
  }

  // Seed m cannot be linked: its provider is blank, or an earlier identity has it.
  ghost predicate Unlinkable(seeds: seq<Seed>, m: nat) {
    m < |seeds| && (SeedProviders(seeds)[1 + m] == "" || SeedProviders(seeds)[1 + m] in SeedProviders(seeds)[..1 + m])
  }

  lemma ProvidersSoFar(u: User, seeds: seq<Seed>, m: nat, env: Env)
    requires SeededUpTo(u, seeds, m, env) && m < |seeds|
    ensures SeedProviders(seeds)[1 + m] == TrimSpace(seeds[m].provider)
    ensures Unlinkable(seeds, m) <==>
              TrimSpace(seeds[m].provider) == "" || HasProvider(u, TrimSpace(seeds[m].provider))
  {
    hide TrimSpace, SubOf;
    var ps := SeedProviders(seeds);
    assert forall i | 0 <= i <= m :: u.identities[i].provider == ps[i] == ps[..1 + m][i] by {
      forall i | 0 <= i <= m ensures u.identities[i].provider == ps[i] {
        if i > 0 {
          assert Seeded(u.identities[1 + (i - 1)], u.id, seeds[i - 1], env.clk(1 + (i - 1)));
        }
      }
    }
  }

  lemma LinkSeeds(u: User, seeds: seq<Seed>, m: nat, env: Env, iid: Id)
    requires SeededUpTo(u, seeds, m, env) && m < |seeds| && u.id != ""
    ensures var u' := LinkIdentity(u, TrimSpace(seeds[m].provider), seeds[m].data, env.clk(1 + m), iid);
            SeededUpTo(u', seeds, m + 1, env) && SameLogin(u, u') && u'.id == u.id
  {
    var u' := LinkIdentity(u, TrimSpace(seeds[m].provider), seeds[m].data, env.clk(1 + m), iid);
    assert forall i | 0 <= i < |u.identities| :: u'.identities[i] == u.identities[i];
    assert Seeded(u'.identities[1 + m], u.id, seeds[m], env.clk(1 + m));
    hide TrimSpace, Seeded;
  }

  // From the k-th on, the seeds are linked in order until one cannot be, which is the one that is reported.
  lemma {:induction false} SeedsLink(sys: Sys, uid: Id, seeds: seq<Seed>, k: nat, env: Env) returns (m: nat)
    requires uid in sys.store.accounts.users && sys.store.accounts.users[uid].id == uid != ""
    requires k <= |seeds| && SeededUpTo(sys.store.accounts.users[uid], seeds, k, env)
    ensures var r := SeedIdentities(sys, uid, seeds, k, env);
            var s, t := sys.store, r.sys.store;
            && k <= m <= |seeds| && (forall i | k <= i < m :: !Unlinkable(seeds, i))
            && uid in t.accounts.users && SeededUpTo(t.accounts.users[uid], seeds, m, env)
            && SameLogin(s.accounts.users[uid], t.accounts.users[uid])
            && t.accounts == s.accounts.(users := s.accounts.users[uid := t.accounts.users[uid]])
            && OnlyAccounts(s, t) && r.sys == sys.(store := t)
            && (if m == |seeds| then r.resp == Done(uid)
                else Unlinkable(seeds, m) && r.resp.Rejected?
                     && r.resp.status == if SeedProviders(seeds)[1 + m] == "" then 400 else 409)
    decreases |seeds| - k
  {
    hide TrimSpace, LinkIdentity, SeededUpTo, HasProvider, SameLogin, Unlinkable, SeedProviders;
    m := k;
    var u := sys.store.accounts.users[uid];
    SameLoginRefl(u);
    assert sys.store.accounts.users[uid := u] == sys.store.accounts.users;
    if k < |seeds| {
      var provider := TrimSpace(seeds[k].provider);
      ProvidersSoFar(u, seeds, k, env);
      if provider != "" && !HasProvider(u, provider) {
        var a := AddIdentity(sys.store, uid, provider, seeds[k].data, env.clk(1 + k), env.uuid(2 + k));
        LinkSeeds(u, seeds, k, env, env.uuid(2 + k));
        m := SeedsLink(sys.(store := a.st), uid, seeds, k + 1, env);
        var r := SeedIdentities(sys.(store := a.st), uid, seeds, k + 1, env);
        SameLoginTrans(u, a.res.value, r.sys.store.accounts.users[uid]);
      }
    }
  }

  lemma SameLoginTrans(u: User, v: User, w: User)
    requires SameLogin(u, v) && SameLogin(v, w)
    ensures SameLogin(u, w)
  {
  }

  lemma SeedUserIs(sys: Sys, email: string, password: string, seeds: seq<Seed>, env: Env)
    ensures Step(sys, SeedUser(email, password, seeds), env) == SeedUserStep(sys, email, password, seeds, env)
  {
    hide SeedUserStep;
  }

  ghost predicate SeedAccepted(s: State, env: Env, email: string, password: string) {
    && TrimSpace(email) != "" && password != "" && env.hash(password).Some?
    && Lower(TrimSpace(email)) !in s.accounts.emailIndex
  }

  // Seeding is answered with the new user's id exactly when the address is free and every seed can be linked. When
  // one cannot, the user stays, with the identities of the seeds before it.
  lemma SeedRegisters(sys: Sys, email: string, password: string, seeds: seq<Seed>, env: Env) returns (m: nat)
    requires EnvOk(sys.store, env)
    ensures var r := Step(sys, SeedUser(email, password, seeds), env);
            && (r.resp.Done? <==>
                  SeedAccepted(sys.store, env, email, password) && forall i | 0 <= i < |seeds| :: !Unlinkable(seeds, i))
            && (if SeedAccepted(sys.store, env, email, password) then
                  && m <= |seeds| && (m < |seeds| ==> Unlinkable(seeds, m))
                  && (forall i | 0 <= i < m :: !Unlinkable(seeds, i))
                  && env.uuid(0) in r.sys.store.accounts.users
                  && var u := r.sys.store.accounts.users[env.uuid(0)];
                  && Added(sys.store, r.sys.store, u) && u.id == env.uuid(0)
                  && u.email == Lower(TrimSpace(email)) && u.passwordHash == env.hash(password).value
                  && MadeAt(u, env.clk(0))
                  && SeededUpTo(u, seeds, m, env) && OnlyAccounts(sys.store, r.sys.store)
                  && (r.resp.Done? ==> r.resp.id == u.id)
                else
                  && r.sys == sys
                  && r.resp == Rejected(if TrimSpace(email) == "" || password == "" then 400
                                        else if env.hash(password).None? then 500 else 409, ""))
  {
    hide Step, TrimSpace, Lower, CreateUser, SeedIdentities, Linked, Synthesized, SeededUpTo, Unlinkable;
    SeedUserIs(sys, email, password, seeds, env);
    m := 0;
    var address := TrimSpace(email);
    if address != "" && password != "" && env.hash(password).Some? {
      var hash := env.hash(password).value;
      CreatedLogin(sys.store, address, hash, env.clk(0), env.uuid(0), env.uuid(1));
      var a := CreateUser(sys.store, address, hash, env.clk(0), env.uuid(0), env.uuid(1));
      if a.res.Ok? {
        NothingSeeded(a.res.value, seeds, env);
        m := SeedsLink(sys.(store := a.st), a.res.value.id, seeds, 0, env);
      }
    }
  }

  lemma NothingSeeded(u: User, seeds: seq<Seed>, env: Env)
    requires |u.identities| == 1 && u.identities[0].provider == "email"
    ensures SeededUpTo(u, seeds, 0, env)
  {
  }

  // ---- unlinking ------------------------------------------------------------------

  // The position of the caller's identity with that row id, among others.
  ghost predicate UnlinkAccepted(sys: Sys, bearer: Bearer, row: Id, now: int, n: int) {
    && Speaks(sys, bearer, now, Subject(bearer))
    && var ids := sys.store.accounts.users[Subject(bearer)].identities;
    && |ids| > 1 && 0 <= n < |ids| && ids[n].identityID == row
  }

  lemma UnlinkIdentityIs(sys: Sys, bearer: Bearer, iid: Id, env: Env)
    ensures Step(sys, UnlinkIdentity(bearer, iid), env) == UnlinkIdentityStep(sys, bearer, iid, env)
  {
    hide UnlinkIdentityStep;
  }

  // A caller's identity is unlinked exactly when it is not the last; the other identities keep their order, and
  // nothing else changes but what is derived from them.
  lemma UnlinkAnswered(sys: Sys, bearer: Bearer, iid: Id, env: Env) returns (n: int)
    requires Inv(sys.store)
    ensures var r := Step(sys, UnlinkIdentity(bearer, iid), env);
            var s, t, uid, row := sys.store, r.sys.store, Subject(bearer), TrimSpace(iid);
            && (forall i | UnlinkAccepted(sys, bearer, row, env.clk(0), i) :: row != "" ==> r.resp.Done?)
            && (r.resp.Done? ==>
                  && row != "" && UnlinkAccepted(sys, bearer, row, env.clk(0), n)
                  && uid in t.accounts.users
                  && var u, u' := s.accounts.users[uid], t.accounts.users[uid];
                  && u'.identities == u.identities[..n] + u.identities[n + 1..]
                  && SameLogin(u, u') && u'.updatedAt == env.clk(1)
                  && t == s.(accounts := s.accounts.(users := s.accounts.users[uid := u']))
                  && r.sys == sys.(store := t))
            && (!r.resp.Done? ==> r.sys == sys)
            && (Speaks(sys, bearer, env.clk(0), uid) && !r.resp.Done? ==>
                  r.resp == if row == "" then Rejected(422, "validation_failed")
                            else if exists i | 0 <= i < |s.accounts.users[uid].identities| ::
                                 s.accounts.users[uid].identities[i].identityID == row
                            then Rejected(422, "single_identity_not_deletable")
                            else Rejected(404, "identity_not_found"))
  {
    hide Step, Inv, TrimSpace, RequireUser;
    UnlinkIdentityIs(sys, bearer, iid, env);
    KnownCaller(sys, bearer, env.clk(0));
    n := 0;
    if Speaks(sys, bearer, env.clk(0), Subject(bearer)) {
      n := IdentityIndex(sys.store.accounts.users[Subject(bearer)].identities, TrimSpace(iid));
    }
  }
}

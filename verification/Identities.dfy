// Identity lists and the provider metadata derived from them.
module Identities {
  import opened Text
  import opened Model
  import opened Ops

  ghost predicate IdentityOk(uid: Id, i: Identity) {
    i.userID == uid && SubOf(i.identityData) == i.id && i.id != ""
  }

  // The metadata lists the identities' providers in order, the first one as the primary.
  ghost predicate MetadataAgrees(u: User) {
    && "providers" in u.appMetadata && u.appMetadata["providers"] == Strs(Providers(u.identities))
    && (|u.identities| > 0 ==>
          "provider" in u.appMetadata && u.appMetadata["provider"] == Str(u.identities[0].provider))
  }

  ghost predicate DistinctProviders(ids: seq<Identity>) {
    forall i, j | 0 <= i < j < |ids| ::
      ids[i].provider != ids[j].provider && ids[i].identityID != ids[j].identityID
  }

  // At least one identity, at most one per provider and per row id, each named by its `sub`.
  ghost predicate Linked(u: User) {
    && |u.identities| > 0
    && (forall i | 0 <= i < |u.identities| :: IdentityOk(u.id, u.identities[i]))
    && DistinctProviders(u.identities)
    && MetadataAgrees(u)
  }

  ghost predicate AllLinked(users: map<Id, User>) {
    forall k | k in users :: Linked(users[k])
  }

  // Every identity row id was made by the store.
  ghost predicate Rows(users: map<Id, User>, used: set<Id>) {
    forall k | k in users :: UserRows(users[k], used)
  }

  ghost predicate UserRows(u: User, used: set<Id>) {
    forall i | 0 <= i < |u.identities| :: u.identities[i].identityID in used
  }

  lemma RowsGrow(users: map<Id, User>, used: set<Id>, more: set<Id>)
    requires Rows(users, used) && used <= more
    ensures Rows(users, more)
  {
  }

  lemma RecomputeAgrees(u: User)
    ensures var u' := RecomputeProviders(u);
            && MetadataAgrees(u') && u'.identities == u.identities && u'.id == u.id && u'.email == u.email
            && forall k | k !in {"provider", "providers"} ::
                 (k in u'.appMetadata <==> k in u.appMetadata)
                 && (k in u.appMetadata ==> u'.appMetadata[k] == u.appMetadata[k])
  {
  }

  // A user made with one first identity.
  lemma FirstIdentity(u: User, i: Identity, used: set<Id>)
    requires u.identities == [] && IdentityOk(u.id, i) && i.identityID in used
    ensures var u' := RecomputeProviders(u.(identities := [i])); Linked(u') && UserRows(u', used)
  {
    RecomputeAgrees(u.(identities := [i]));
  }

  lemma EmailUserLinked(email: string, hash: seq<bv8>, now: int, uid: Id, iid: Id)
    requires uid != ""
    ensures var u := EmailUser(email, hash, now, uid, iid);
            Linked(u) && UserRows(u, {iid}) && u.id == uid && u.email == email
  {
    var u := NewUser(uid, email, now).(passwordHash := hash);
    var data := map["email" := Str(email), "sub" := Str(uid)];
    var i := NewIdentity(iid, uid, "email", uid, data, now);
    FirstIdentity(u, i, {iid});
    RecomputeAgrees(u.(identities := [i]));
  }

  // Appending an identity of a new provider keeps the rest of the list in place.
  lemma AppendLinked(u: User, i: Identity, used: set<Id>)
    requires Linked(u) && UserRows(u, used) && IdentityOk(u.id, i)
    requires !HasProvider(u, i.provider) && i.identityID !in used
    ensures var u' := RecomputeProviders(u.(identities := u.identities + [i]));
            Linked(u') && UserRows(u', used + {i.identityID}) && u'.id == u.id && u'.email == u.email
  {
    RecomputeAgrees(u.(identities := u.identities + [i]));
  }

  lemma LinkIdentityLinked(u: User, provider: string, data: Meta, now: int, iid: Id, used: set<Id>)
    requires Linked(u) && UserRows(u, used) && !HasProvider(u, provider) && iid !in used && u.id != ""
    ensures var u' := LinkIdentity(u, provider, data, now, iid);
            Linked(u') && UserRows(u', used + {iid}) && u'.id == u.id && u'.email == u.email
  {
    var sub := SubOf(data);
    var providerID := if sub == "" then u.id else sub;
    var data' := if sub == "" then data["sub" := Str(u.id)] else data;
    AppendLinked(u, NewIdentity(iid, u.id, provider, providerID, data', now), used);
  }

  lemma OAuthLinked(u: User, provider: string, email: string, now: int, sub: Id, iid: Id, used: set<Id>)
    requires sub != "" && iid !in used
    requires (u.identities == [] || Linked(u)) && UserRows(u, used) && !HasProvider(u, provider)
    ensures var u' := RecomputeProviders(AppendProviderIdentity(u, provider, email, now, sub, iid));
            Linked(u') && UserRows(u', used + {iid}) && u'.id == u.id && u'.email == u.email
  {
    var i := NewIdentity(iid, u.id, provider, sub, OAuthData(sub, email), now);
    assert IdentityOk(u.id, i);
    RecomputeAgrees(u.(identities := u.identities + [i]));
    if u.identities == [] {
      assert u.identities + [i] == [i];
      FirstIdentity(u, i, used + {iid});
    } else {
      AppendLinked(u, i, used);
    }
  }

  lemma WithoutKeeps(ids: seq<Identity>, n: nat)
    requires n < |ids| && DistinctProviders(ids)
    ensures var l := Without(ids, n);
            && |l| == |ids| - 1 && DistinctProviders(l)
            && forall x :: x in l <==> x in ids && x.identityID != ids[n].identityID
  {
    var l := Without(ids, n);
    assert forall i | 0 <= i < |l| :: l[i] == ids[if i < n then i else i + 1];
    forall x ensures x in l <==> x in ids && x.identityID != ids[n].identityID {
      if x in ids && x.identityID != ids[n].identityID {
        var k :| 0 <= k < |ids| && ids[k] == x;
        assert l[if k < n then k else k - 1] == x;
      }
    }
  }

  // Unlinking removes the one identity with that row id; the others keep their order.
  lemma RemoveLinked(u: User, iid: Id, used: set<Id>)
    requires Linked(u) && UserRows(u, used) && |u.identities| > 1
    requires IdentityIndex(u.identities, iid) < |u.identities|
    ensures var u' := RecomputeProviders(u.(identities := Without(u.identities, IdentityIndex(u.identities, iid))));
            && Linked(u') && UserRows(u', used) && u'.id == u.id && u'.email == u.email
            && (forall x :: x in u'.identities <==> x in u.identities && x.identityID != iid)
            && |u'.identities| == |u.identities| - 1
  {
    var n := IdentityIndex(u.identities, iid);
    var l := Without(u.identities, n);
    WithoutKeeps(u.identities, n);
    RecomputeAgrees(u.(identities := l));
    assert forall i | 0 <= i < |l| :: l[i] in u.identities;
    hide Without, RecomputeProviders, MetadataAgrees, DistinctProviders, IdentityOk;
  }

  // ---- per operation ----------------------------------------------------------

  // The parts of the invariant about identity lists.
  ghost predicate Profiles(s: State) {
    AllLinked(s.accounts.users) && Rows(s.accounts.users, s.ids.used)
  }

  lemma PutProfile(users: map<Id, User>, u: User, used: set<Id>, more: set<Id>)
    requires AllLinked(users) && Rows(users, used) && used <= more
    requires Linked(u) && UserRows(u, more)
    ensures AllLinked(users[u.id := u]) && Rows(users[u.id := u], more)
  {
    RowsGrow(users, used, more);
    hide Linked, UserRows;
  }

  lemma CreateUserProfiles(s: State, email: string, hash: seq<bv8>, now: int, uid: Id, iid: Id)
    requires Profiles(s) && uid != ""
    ensures Profiles(CreateUser(s, email, hash, now, uid, iid).st)
  {
    hide Linked, EmailUser, AllLinked, Rows;
    var u := EmailUser(Lower(email), hash, now, uid, iid);
    EmailUserLinked(Lower(email), hash, now, uid, iid);
    PutProfile(s.accounts.users, u, s.ids.used, s.ids.used + {uid, iid});
  }

  lemma UpdateProfiles(s: State, id: Id, data: Meta, now: int)
    requires Profiles(s) && (id in s.accounts.users ==> s.accounts.users[id].id == id)
    ensures Profiles(SetUserMetadata(s, id, data, now).st)
    ensures Profiles(UpdateLastSignIn(s, id, now).st)
  {
  }

  lemma AddIdentityProfiles(s: State, userID: Id, provider: string, data: Meta, now: int, iid: Id)
    requires Profiles(s) && Fresh(s, iid) && userID != ""
    requires userID in s.accounts.users ==> s.accounts.users[userID].id == userID
    ensures Profiles(AddIdentity(s, userID, provider, data, now, iid).st)
  {
    if userID in s.accounts.users && !HasProvider(s.accounts.users[userID], provider) {
      var u := s.accounts.users[userID];
      LinkIdentityLinked(u, provider, data, now, iid, s.ids.used);
      PutProfile(s.accounts.users, LinkIdentity(u, provider, data, now, iid), s.ids.used, s.ids.used + {iid});
    }
    hide AllLinked, Rows, Linked, LinkIdentity;
  }

  lemma LinkedUser(users: map<Id, User>, k: Id, used: set<Id>)
    requires AllLinked(users) && Rows(users, used) && k in users
    ensures Linked(users[k]) && UserRows(users[k], used) && |users[k].identities| > 0
  {
    hide MetadataAgrees, DistinctProviders, IdentityOk;
  }

  lemma StampKeepsLinked(u: User, now: int, used: set<Id>)
    requires Linked(u) && UserRows(u, used)
    ensures Linked(u.(updatedAt := now)) && UserRows(u.(updatedAt := now), used)
  {
  }

  lemma RemoveIdentityProfiles(s: State, userID: Id, iid: Id, now: int)
    requires Profiles(s) && (userID in s.accounts.users ==> s.accounts.users[userID].id == userID)
    ensures Profiles(RemoveIdentity(s, userID, iid, now).st)
  {
    hide AllLinked, Rows, Linked, UserRows, IdentityIndex, Without, RecomputeProviders;
    if userID in s.accounts.users {
      var u := s.accounts.users[userID];
      LinkedUser(s.accounts.users, userID, s.ids.used);
      var i := IdentityIndex(u.identities, iid);
      if i < |u.identities| && |u.identities| > 1 {
        RemoveLinked(u, iid, s.ids.used);
        var u' := RecomputeProviders(u.(identities := Without(u.identities, i)));
        StampKeepsLinked(u', now, s.ids.used);
        PutProfile(s.accounts.users, u'.(updatedAt := now), s.ids.used, s.ids.used);
      }
    }
  }

  lemma CreateOAuthUserProfiles(s: State, provider: string, hint: string, now: int,
                                uid: Id, sub: Id, iid: Id, salt: Id)
    requires Profiles(s) && sub != "" && Fresh(s, iid)
    requires forall k | k in s.accounts.users :: s.accounts.users[k].id == k
    ensures Profiles(CreateOAuthUser(s, provider, hint, now, uid, sub, iid, salt).st)
  {
    var users, used := s.accounts.users, s.ids.used;
    var email := OAuthEmail(hint);
    if email != "" && email in s.accounts.emailIndex {
      if s.accounts.emailIndex[email] in users {
        var u := users[s.accounts.emailIndex[email]];
        if !HasProvider(u, provider) {
          OAuthLinked(u, provider, email, now, sub, iid, used);
          var u' := RecomputeProviders(AppendProviderIdentity(u, provider, email, now, sub, iid));
          PutProfile(users, u'.(updatedAt := now),
                     used, used + {sub, iid});
        }
      }
    } else {
      var address := if email == "" then Synthesized(provider, salt) else email;
      OAuthLinked(NewUser(uid, address, now), provider, address, now, sub, iid, used);
      var u := AppendProviderIdentity(NewUser(uid, address, now), provider, address, now, sub, iid);
      PutProfile(users, RecomputeProviders(u),
                 used, used + {uid, sub, iid, salt});
    }
    hide AllLinked, Rows, Linked, RecomputeProviders, AppendProviderIdentity, OAuthEmail, Synthesized;
  }

  lemma DeleteUserProfiles(s: State, id: Id)
    requires Profiles(s)
    ensures Profiles(DeleteUser(s, id).st)
  {
    hide Linked, UserRows;
  }
}

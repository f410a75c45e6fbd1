// The email index: what it promises whatever the case of provider names, and what more it
// promises when addresses are lower case.
module Emails {
  import opened Text
  import opened Model
  import opened Ops

  // A lower-case entry leads to the user who has that address.
  ghost predicate LowerEntries(users: map<Id, User>, index: map<string, Id>) {
    forall e | e in index && Lower(e) == e :: index[e] in users && users[index[e]].email == e
  }

  // The index is exactly the users by address.
  ghost predicate Agrees(users: map<Id, User>, index: map<string, Id>) {
    && (forall e | e in index :: index[e] in users && users[index[e]].email == e)
    && (forall k | k in users :: users[k].email in index && index[users[k].email] == k)
  }

  ghost predicate AllLower(users: map<Id, User>) {
    forall k | k in users :: Lower(users[k].email) == users[k].email
  }

  lemma RegisterKeepsEntries(s: State, u: User)
    requires LowerEntries(s.accounts.users, s.accounts.emailIndex) && u.id !in s.accounts.users
    ensures var t := RegisterUser(s, u); LowerEntries(t.accounts.users, t.accounts.emailIndex)
  {
  }

  lemma PutKeepsEmails(s: State, u: User)
    requires u.id in s.accounts.users && u.email == s.accounts.users[u.id].email
    ensures var t := PutUser(s, u);
            && (LowerEntries(s.accounts.users, s.accounts.emailIndex) ==>
                  LowerEntries(t.accounts.users, t.accounts.emailIndex))
            && (Agrees(s.accounts.users, s.accounts.emailIndex) ==>
                  Agrees(t.accounts.users, t.accounts.emailIndex))
            && (AllLower(s.accounts.users) ==> AllLower(t.accounts.users))
  {
  }

  lemma DeleteKeepsEntries(s: State, id: Id)
    requires LowerEntries(s.accounts.users, s.accounts.emailIndex)
    ensures var t := DeleteUser(s, id).st; LowerEntries(t.accounts.users, t.accounts.emailIndex)
  {
  }

  // Find-or-create never dereferences a missing user: its lookup key is lower case.
  lemma FindOrCreateNeverNil(s: State, provider: string, hint: string, now: int,
                             uid: Id, sub: Id, iid: Id, salt: Id)
    requires LowerEntries(s.accounts.users, s.accounts.emailIndex)
    ensures CreateOAuthUser(s, provider, hint, now, uid, sub, iid, salt).res.Ok?
    ensures OAuthEmail(hint) != "" ==>
              CreateOAuthUser(s, provider, hint, now, uid, sub, iid, salt).res.value.email == OAuthEmail(hint)
  {
    LowerIdempotent(TrimSpace(hint));
  }

  // ---- exact agreement --------------------------------------------------------

  lemma RegisterKeepsAgreement(s: State, u: User)
    requires Agrees(s.accounts.users, s.accounts.emailIndex)
    requires u.id !in s.accounts.users && u.email !in s.accounts.emailIndex
    ensures var t := RegisterUser(s, u); Agrees(t.accounts.users, t.accounts.emailIndex)
  {
  }

  // Deleting a user keeps the index exact if and only if the user's address is lower case:
  // deletion lower-cases the key, registration of a synthesized address does not.
  lemma DeleteKeepsAgreementIff(s: State, id: Id)
    requires Agrees(s.accounts.users, s.accounts.emailIndex)
    requires id in s.accounts.users && s.accounts.users[id].id == id
    ensures var t := DeleteUser(s, id).st;
            Agrees(t.accounts.users, t.accounts.emailIndex) <==>
              Lower(s.accounts.users[id].email) == s.accounts.users[id].email
  {
    var e := s.accounts.users[id].email;
    var t := DeleteUser(s, id).st;
    if Lower(e) == e {
      forall k | k in t.accounts.users ensures t.accounts.users[k].email != e {
        assert s.accounts.emailIndex[s.accounts.users[k].email] == k;
      }
    } else {
      assert e in t.accounts.emailIndex && t.accounts.emailIndex[e] == id;
    }
  }

  // On an exact index the lookup finds a user if and only if one has the lower-cased address,
  // and no two users share an address.
  lemma LookupExact(s: State, email: string)
    requires Agrees(s.accounts.users, s.accounts.emailIndex)
    ensures forall u :: FindUserByEmail(s, email) == Some(u) ==>
              u in s.accounts.users.Values && u.email == Lower(email)
    ensures FindUserByEmail(s, email).None? <==>
              forall k | k in s.accounts.users :: s.accounts.users[k].email != Lower(email)
    ensures forall j, k | j in s.accounts.users && k in s.accounts.users && j != k ::
              s.accounts.users[j].email != s.accounts.users[k].email
  {
    if FindUserByEmail(s, email).Some? {
      assert s.accounts.emailIndex[Lower(email)] in s.accounts.users;
    }
    forall j, k | j in s.accounts.users && k in s.accounts.users
                  && s.accounts.users[j].email == s.accounts.users[k].email ensures j == k {
      assert s.accounts.emailIndex[s.accounts.users[j].email] == j;
    }
  }

  // With lower-case provider names (and UUIDs) every address a run registers is lower case.
  ghost predicate LowerProvider(op: Op) {
    op.OpCreateOAuthUser? && OAuthEmail(op.hint) == "" ==>
      Lower(op.provider) == op.provider && Lower(op.salt) == op.salt
  }

  lemma SynthesizedLower(provider: string, salt: Id)
    requires Lower(provider) == provider && Lower(salt) == salt
    ensures Lower(Synthesized(provider, salt)) == Synthesized(provider, salt)
  {
    var dom := "@oauth.supa-emu.test";
    assert Lower("_") == "_";
    assert Lower(dom) == dom;
    LowerConcat(provider, "_");
    LowerConcat(provider + "_", salt);
    LowerConcat(provider + "_" + salt, dom);
  }

  ghost predicate Exact(s: State) {
    Agrees(s.accounts.users, s.accounts.emailIndex) && AllLower(s.accounts.users)
  }

  lemma CreateUserExact(s: State, email: string, hash: seq<bv8>, now: int, uid: Id, iid: Id)
    requires Exact(s) && uid !in s.accounts.users
    ensures Exact(CreateUser(s, email, hash, now, uid, iid).st)
  {
    var u := EmailUser(Lower(email), hash, now, uid, iid);
    LowerIdempotent(email);
    if Lower(email) !in s.accounts.emailIndex {
      RegisterKeepsAgreement(s, u);
    }
  }

  lemma CreateOAuthUserExact(s: State, provider: string, hint: string, now: int, uid: Id, sub: Id, iid: Id, salt: Id)
    requires Exact(s) && uid !in s.accounts.users
    requires forall k | k in s.accounts.users :: s.accounts.users[k].id == k
    requires Enabled(s, OpCreateOAuthUser(provider, hint, now, uid, sub, iid, salt))
    requires LowerProvider(OpCreateOAuthUser(provider, hint, now, uid, sub, iid, salt))
    ensures Exact(CreateOAuthUser(s, provider, hint, now, uid, sub, iid, salt).st)
  {
    var email := OAuthEmail(hint);
    LowerIdempotent(TrimSpace(hint));
    if email != "" && email in s.accounts.emailIndex {
      var u := s.accounts.users[s.accounts.emailIndex[email]];
      var u' := RecomputeProviders(AppendProviderIdentity(u, provider, email, now, sub, iid)).(updatedAt := now);
      PutKeepsEmails(s, u');
    } else {
      var address := if email == "" then Synthesized(provider, salt) else email;
      if email == "" {
        SynthesizedLower(provider, salt);
      }
      var u := RecomputeProviders(
        AppendProviderIdentity(NewUser(uid, address, now), provider, address, now, sub, iid));
      RegisterKeepsAgreement(s, u);
    }
  }

  lemma DeleteUserExact(s: State, id: Id)
    requires Exact(s) && (id in s.accounts.users ==> s.accounts.users[id].id == id)
    ensures Exact(DeleteUser(s, id).st)
  {
    if id in s.accounts.users {
      DeleteKeepsAgreementIff(s, id);
    }
  }
}

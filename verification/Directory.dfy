// The two lookup indexes over whole runs: addresses to users, credentials to passkeys.
module Directory {
  import opened Text
  import opened Model
  import opened Ops
  import opened Integrity
  import opened Emails
  import opened Identities
  import opened Invariant

  // ---- addresses --------------------------------------------------------------

  lemma AccountsUntouched(s: State, op: Op)
    requires !AccountOp(op)
    ensures Apply(s, op).accounts == s.accounts
  {
    hide Touched, TokensOfSession, Backdate, FindLatestChild, NameTaken, HasMethod, Unix;
    hide CreateUser, SetUserMetadata, UpdateLastSignIn, DeleteUser, AddIdentity, RemoveIdentity, CreateOAuthUser;
  }

  lemma UpdateExact(s: State, u: User)
    requires Exact(s) && u.id in s.accounts.users && u.email == s.accounts.users[u.id].email
    ensures Exact(PutUser(s, u))
  {
    PutKeepsEmails(s, u);
  }

  lemma StampExact(s: State, id: Id, data: Meta, now: int)
    requires Exact(s) && UsersOk(s.accounts.users)
    ensures Exact(SetUserMetadata(s, id, data, now).st) && Exact(UpdateLastSignIn(s, id, now).st)
  {
    if id in s.accounts.users {
      UpdateExact(s, s.accounts.users[id].(userMetadata := data, updatedAt := now));
      UpdateExact(s, s.accounts.users[id].(lastSignInAt := Some(now), updatedAt := now));
    }
    hide Exact;
  }

  lemma LinkExact(s: State, uid: Id, provider: string, data: Meta, now: int, iid: Id)
    requires Exact(s) && UsersOk(s.accounts.users)
    ensures Exact(AddIdentity(s, uid, provider, data, now, iid).st) && Exact(RemoveIdentity(s, uid, iid, now).st)
  {
    if uid in s.accounts.users {
      var u := s.accounts.users[uid];
      UpdateExact(s, LinkIdentity(u, provider, data, now, iid));
      var i := IdentityIndex(u.identities, iid);
      if i < |u.identities| {
        UpdateExact(s, RecomputeProviders(u.(identities := Without(u.identities, i))).(updatedAt := now));
      }
    }
    hide HasProvider, IdentityIndex, Without, Agrees, AllLower;
  }

  lemma AccountOpExact(s: State, op: Op)
    requires Exact(s) && UsersOk(s.accounts.users) && s.accounts.users.Keys <= s.ids.used
    requires Enabled(s, op) && LowerProvider(op) && AccountOp(op)
    ensures Exact(Apply(s, op))
  {
    hide Exact, UsersOk, LowerProvider, Synthesized;
    hide CreateUser, SetUserMetadata, UpdateLastSignIn, DeleteUser, AddIdentity, RemoveIdentity, CreateOAuthUser;
    hide CreateAuthCode, ConsumeAuthCode, CreateSession, IssueRefreshToken, IssueSession, ConsumeRefreshToken;
    hide RevokeRefreshTokensBySession, EnrollFactor, VerifyFactor, DeleteFactor, CreateChallenge, ConsumeChallenge;
    hide UpgradeSessionAAL, CreatePasskeyChallenge, ConsumePasskeyChallenge, AddPasskey, DeletePasskey, MarkPasskeyUsed;
    match op {
      case OpCreateUser(email, hash, now, uid, iid) => CreateUserExact(s, email, hash, now, uid, iid);
      case OpSetUserMetadata(uid, data, now) => StampExact(s, uid, data, now);
      case OpUpdateLastSignIn(uid, now) => StampExact(s, uid, map[], now);
      case OpDeleteUser(uid) => ExactDelete(s, uid);
      case OpAddIdentity(uid, provider, data, now, iid) => LinkExact(s, uid, provider, data, now, iid);
      case OpRemoveIdentity(uid, iid, now) => LinkExact(s, uid, "", map[], now, iid);
      case OpCreateOAuthUser(provider, hint, now, uid, sub, iid, salt) => ExactOAuth(s, op);
      case OpReset => EmptyExact(s.reuseInterval, s.ids);
      case _ =>
    }
  }

  // An operation whose provider name is lower case keeps the index exact.
  lemma ExactKept(s: State, op: Op)
    requires Exact(s) && Inv(s) && Enabled(s, op) && LowerProvider(op)
    ensures Exact(Apply(s, op))
  {
    hide Exact, UsersOk, LowerProvider, Apply, Enabled, LowerEntries, Profiles, Rotates;
    if AccountOp(op) {
      AccountOpExact(s, op);
    } else {
      AccountsUntouched(s, op);
      SameAccountsExact(s, Apply(s, op));
    }
  }

  lemma ExactDelete(s: State, uid: Id)
    requires Exact(s) && UsersOk(s.accounts.users)
    ensures Exact(DeleteUser(s, uid).st)
  {
    hide Exact;
    DeleteUserExact(s, uid);
  }

  lemma ExactOAuth(s: State, op: Op)
    requires Exact(s) && UsersOk(s.accounts.users) && s.accounts.users.Keys <= s.ids.used
    requires op.OpCreateOAuthUser? && Enabled(s, op) && LowerProvider(op)
    ensures Exact(Apply(s, op))
  {
    hide Exact, LowerProvider, Synthesized, CreateOAuthUser;
    CreateOAuthUserExact(s, op.provider, op.hint, op.now, op.uid, op.sub, op.iid, op.salt);
  }

  lemma SameAccountsExact(s: State, t: State)
    requires Exact(s) && t.accounts == s.accounts
    ensures Exact(t)
  {
  }

  lemma EmptyExact(reuseInterval: int, ids: Ids)
    ensures Exact(EmptyState(reuseInterval, ids))
  {
  }

  // In every run whose synthesized addresses come from lower-case provider names, a lower-cased
  // address belongs to at most one user, and looking it up finds exactly that user.
  lemma {:induction false} RunLookup(s: State, ops: seq<Op>, email: string)
    requires Exact(s) && Inv(s) && RunEnabled(s, ops)
    requires forall i | 0 <= i < |ops| :: LowerProvider(ops[i])
    ensures var t := Run(s, ops);
            && Exact(t)
            && (FindUserByEmail(t, email).None? <==>
                  forall k | k in t.accounts.users :: t.accounts.users[k].email != Lower(email))
            && (forall k | k in t.accounts.users && t.accounts.users[k].email == Lower(email) ::
                  FindUserByEmail(t, email) == Some(t.accounts.users[k]))
  {
    hide Apply, Enabled, Inv, LowerProvider;
    if ops != [] {
      var n := |ops| - 1;
      RunLookup(s, ops[..n], email);
      RunInv(s, ops[..n]);
      ExactKept(Run(s, ops[..n]), ops[n]);
    }
    LookupExact(Run(s, ops), email);
  }

  // Without that condition the index can lose a user. Somebody signs in through a provider whose name is not
  // lower case; another user registers the lower-cased form of the address made up for the first; deleting
  // the first then removes the second one's entry.
  lemma MixedCaseLosesUser(s: State, provider: string, now: int, hash: seq<bv8>, id: nat -> Id)
    requires s.accounts == Accounts(map[], map[]) && Lower(provider) != provider
    requires forall i: nat :: Fresh(s, id(i))
    requires forall i: nat, j: nat | i != j :: id(i) != id(j)
    ensures var email := Lower(Synthesized(provider, id(3)));
            var ops := [OpCreateOAuthUser(provider, "", now, id(0), id(1), id(2), id(3)),
                        OpCreateUser(email, hash, now, id(4), id(5)),
                        OpDeleteUser(id(0))];
            var t := Run(s, ops);
            && RunEnabled(s, ops)
            && id(4) in t.accounts.users && t.accounts.users[id(4)].email == email
            && FindUserByEmail(t, email).None?
  {
    var mixed := Synthesized(provider, id(3));
    var email := Lower(mixed);
    var ops := [OpCreateOAuthUser(provider, "", now, id(0), id(1), id(2), id(3)),
                OpCreateUser(email, hash, now, id(4), id(5)),
                OpDeleteUser(id(0))];
    hide *;
    ThreeSteps(s, ops);
    LowerIdempotent(mixed);
    SynthesizedMixed(provider, id(3));
    FreshIds(s, id);
    FirstStep(s, provider, now, id(0), id(1), id(2), id(3));
    SecondStep(Apply(s, ops[0]), email, hash, now, id(4), id(5));
    ThirdStep(Apply(Apply(s, ops[0]), ops[1]), id(0), id(4));
  }

  function Xs(i: nat): Id {
    seq(i + 1, _ => 'x')
  }

  // For instance, from the empty store with the provider "GitHub".
  lemma GitHubLosesUser(reuseInterval: int, now: int, hash: seq<bv8>) returns (ops: seq<Op>, k: Id)
    ensures var s := EmptyState(reuseInterval, Ids({}));
            var t := Run(s, ops);
            && RunEnabled(s, ops) && |ops| == 3
            && ops[0].OpCreateOAuthUser? && ops[0].provider == "GitHub"
            && k in t.accounts.users && FindUserByEmail(t, t.accounts.users[k].email).None?
  {
    var s := EmptyState(reuseInterval, Ids({}));
    var id: nat -> Id := Xs;
    assert Lower("GitHub")[0] == 'g';
    assert forall i: nat, j: nat | i != j :: |id(i)| == i + 1 && |id(j)| == j + 1;
    hide Lower, Run, RunEnabled, Synthesized, Xs;
    MixedCaseLosesUser(s, "GitHub", now, hash, id);
    ops := [OpCreateOAuthUser("GitHub", "", now, id(0), id(1), id(2), id(3)),
            OpCreateUser(Lower(Synthesized("GitHub", id(3))), hash, now, id(4), id(5)),
            OpDeleteUser(id(0))];
    k := id(4);
  }

  lemma FreshIds(s: State, id: nat -> Id)
    requires forall i: nat :: Fresh(s, id(i))
    requires forall i: nat, j: nat | i != j :: id(i) != id(j)
    ensures id(4) != "" && id(5) != "" && id(4) != id(5)
    ensures id(4) !in s.ids.used + {id(0), id(1), id(2), id(3)} && id(5) !in s.ids.used + {id(0), id(1), id(2), id(3)}
  {
  }

  lemma SynthesizedMixed(provider: string, salt: Id)
    requires Lower(provider) != provider
    ensures Lower(Synthesized(provider, salt)) != Synthesized(provider, salt)
  {
    var i :| 0 <= i < |provider| && Lower(provider)[i] != provider[i];
    assert Lower(Synthesized(provider, salt))[i] == Lower(provider)[i];
  }

  lemma FirstStep(s: State, provider: string, now: int, uid: Id, sub: Id, iid: Id, salt: Id)
    requires s.accounts == Accounts(map[], map[])
    requires Fresh(s, uid) && Fresh(s, sub) && Fresh(s, iid) && Fresh(s, salt) && uid != iid && uid != sub && iid != sub
    ensures var op := OpCreateOAuthUser(provider, "", now, uid, sub, iid, salt);
            var t := Apply(s, op);
            var mixed := Synthesized(provider, salt);
            && Enabled(s, op)
            && t.accounts.users.Keys == {uid} && t.accounts.users[uid].email == mixed
            && t.accounts.emailIndex == map[mixed := uid]
            && t.ids.used == s.ids.used + {uid, sub, iid, salt}
  {
    hide OAuthData, Synthesized;
  }

  lemma SecondStep(s: State, email: string, hash: seq<bv8>, now: int, uid: Id, iid: Id)
    requires Lower(email) == email && email !in s.accounts.emailIndex && uid !in s.accounts.users
    requires Fresh(s, uid) && Fresh(s, iid) && uid != iid
    ensures var op := OpCreateUser(email, hash, now, uid, iid);
            var t := Apply(s, op);
            && Enabled(s, op)
            && uid in t.accounts.users && t.accounts.users[uid].email == email
            && forall k | k in s.accounts.users :: k in t.accounts.users && t.accounts.users[k] == s.accounts.users[k]
  {
    EmailUserAddress(email, hash, now, uid, iid);
    hide EmailUser, Lower;
  }

  lemma ThirdStep(s: State, a: Id, b: Id)
    requires a in s.accounts.users && b in s.accounts.users && a != b
    requires s.accounts.users[b].email == Lower(s.accounts.users[a].email)
    ensures var t := Apply(s, OpDeleteUser(a));
            Enabled(s, OpDeleteUser(a))
            && b in t.accounts.users && t.accounts.users[b] == s.accounts.users[b]
            && FindUserByEmail(t, t.accounts.users[b].email).None?
  {
    DeleteLoses(s, a, b);
    hide DeleteUser, FindUserByEmail, Lower;
  }

  lemma EmailUserAddress(email: string, hash: seq<bv8>, now: int, uid: Id, iid: Id)
    ensures EmailUser(email, hash, now, uid, iid).email == email && EmailUser(email, hash, now, uid, iid).id == uid
  {
  }

  // Deleting a user whose lower-cased address is another user's loses that user's entry.
  lemma DeleteLoses(s: State, a: Id, b: Id)
    requires a in s.accounts.users && b in s.accounts.users && a != b
    requires s.accounts.users[b].email == Lower(s.accounts.users[a].email)
    ensures var t := DeleteUser(s, a).st;
            b in t.accounts.users && t.accounts.users[b] == s.accounts.users[b]
            && FindUserByEmail(t, t.accounts.users[b].email).None?
  {
    LowerIdempotent(s.accounts.users[a].email);
    hide Lower, Touched, TokensOfUser, ChallengeOfUser;
  }

  lemma ThreeSteps(s: State, ops: seq<Op>)
    requires |ops| == 3
    ensures Run(s, ops) == Apply(Apply(Apply(s, ops[0]), ops[1]), ops[2])
    ensures RunEnabled(s, ops) <==>
              && Enabled(s, ops[0])
              && Enabled(Apply(s, ops[0]), ops[1])
              && Enabled(Apply(Apply(s, ops[0]), ops[1]), ops[2])
  {
    hide Apply, Enabled;
    assert ops[..2][..1] == ops[..1] && ops[..1][..0] == [] && ops[..2][1] == ops[1] && ops[..1][0] == ops[0];
    assert Run(s, ops[..1]) == Apply(s, ops[0]) && (RunEnabled(s, ops[..1]) <==> Enabled(s, ops[0]));
    assert Run(s, ops[..2]) == Apply(Apply(s, ops[0]), ops[1]);
  }

  // ---- credentials ------------------------------------------------------------

  // The credential index against a scan of the passkeys.
  ghost predicate CredentialLookup(s: State, cred: string) {
    && (FindPasskeyByCredentialID(s, cred).None? <==>
          forall p | p in s.keys.passkeys :: s.keys.passkeys[p].credentialID != cred)
    && (forall p | p in s.keys.passkeys && s.keys.passkeys[p].credentialID == cred ::
          FindPasskeyByCredentialID(s, cred) == Some(s.keys.passkeys[p]))
  }

  lemma CredentialsExact(s: State, cred: string)
    requires CredIndex(s.keys.passkeys, s.keys.passkeyByCred)
    ensures CredentialLookup(s, cred)
    ensures var ps := s.keys.passkeys;
            forall p, q | p in ps && q in ps && ps[p].credentialID == ps[q].credentialID :: p == q
  {
    var ps := s.keys.passkeys;
    forall p, q | p in ps && q in ps && ps[p].credentialID == ps[q].credentialID ensures p == q {
      assert s.keys.passkeyByCred[ps[p].credentialID] == p;
    }
  }

  // In every run a credential id belongs to at most one passkey across all users, and looking it up
  // finds exactly that passkey.
  lemma RunCredentials(s: State, ops: seq<Op>, cred: string)
    requires Inv(s) && RunEnabled(s, ops)
    ensures CredentialLookup(Run(s, ops), cred)
    ensures var ps := Run(s, ops).keys.passkeys;
            forall p, q | p in ps && q in ps && ps[p].credentialID == ps[q].credentialID :: p == q
  {
    hide Run, RunEnabled, Rotates, LowerEntries, CredentialLookup;
    RunInv(s, ops);
    CredentialsExact(Run(s, ops), cred);
  }
}

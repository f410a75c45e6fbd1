// Deleting a user: exactly that user's records go, in every map and index, and nothing else.
module Cascade {
  import opened Text
  import opened Model
  import opened Ops
  import opened Forest
  import opened Integrity
  import opened Emails
  import opened Invariant
  import opened Requests
  import opened Effects
  import opened Runs
  import opened Sessions
  import opened Permanence
  import opened Directory
  import opened Tickets
  import SignIns

  // Everything the store holds for one user, gathered by owner. Edges are owned through the token they
  // start at, challenges through their factor, credential entries through their passkey.
  datatype Belongings = Belongings(
    users: map<Id, User>,
    sessions: map<Id, Session>,
    tokens: map<Id, RefreshToken>,
    edges: map<Id, Id>,
    factors: map<Id, Factor>,
    challenges: map<Id, Challenge>,
    passkeys: map<Id, Passkey>,
    creds: map<string, Id>,
    ceremonies: map<Id, PasskeyChallenge>)

  ghost function UsersOf(users: map<Id, User>, v: Id): map<Id, User> {
    map k | k in users && k == v :: users[k]
  }

  ghost function SessionsOf(sessions: map<Id, Session>, v: Id): map<Id, Session> {
    map k | k in sessions && sessions[k].userID == v :: sessions[k]
  }

  ghost function TokensOf(toks: map<Id, RefreshToken>, v: Id): map<Id, RefreshToken> {
    map k | k in toks && toks[k].userID == v :: toks[k]
  }

  ghost function EdgesOf(toks: map<Id, RefreshToken>, p2c: map<Id, Id>, v: Id): map<Id, Id> {
    map a | a in p2c && a in toks && toks[a].userID == v :: p2c[a]
  }

  ghost function FactorMapOf(factors: map<Id, Factor>, v: Id): map<Id, Factor> {
    map k | k in factors && factors[k].userID == v :: factors[k]
  }

  ghost function ChallengesOf(factors: map<Id, Factor>, challenges: map<Id, Challenge>, v: Id): map<Id, Challenge> {
    map k | k in challenges && challenges[k].factorID in factors
        && factors[challenges[k].factorID].userID == v :: challenges[k]
  }

  ghost function PasskeyMapOf(passkeys: map<Id, Passkey>, v: Id): map<Id, Passkey> {
    map k | k in passkeys && passkeys[k].userID == v :: passkeys[k]
  }

  ghost function CredsOf(passkeys: map<Id, Passkey>, byCred: map<string, Id>, v: Id): map<string, Id> {
    map c | c in byCred && byCred[c] in passkeys && passkeys[byCred[c]].userID == v :: byCred[c]
  }

  ghost function CeremoniesOf(challenges: map<Id, PasskeyChallenge>, v: Id): map<Id, PasskeyChallenge> {
    map k | k in challenges && challenges[k].userID == v :: challenges[k]
  }

  ghost function Of(s: State, v: Id): Belongings {
    Belongings(UsersOf(s.accounts.users, v), SessionsOf(s.auth.sessions, v), TokensOf(s.auth.refreshTokens, v),
               EdgesOf(s.auth.refreshTokens, s.auth.parentToChild, v), FactorMapOf(s.mfa.factors, v),
               ChallengesOf(s.mfa.factors, s.mfa.challenges, v), PasskeyMapOf(s.keys.passkeys, v),
               CredsOf(s.keys.passkeys, s.keys.passkeyByCred, v), CeremoniesOf(s.keys.passkeyChallenges, v))
  }

  const NOTHING := Belongings(map[], map[], map[], map[], map[], map[], map[], map[], map[])

  // ---- one group of maps at a time --------------------------------------------

  lemma TokensExact(toks: map<Id, RefreshToken>, p2c: map<Id, Id>, id: Id, v: Id)
    requires Rotates(toks, p2c)
    ensures var toks' := map t | t in toks && toks[t].userID != id :: toks[t];
            var p2c' := p2c - Touched(toks, TokensOfUser(toks, id));
            && TokensOf(toks', v) == (if v == id then map[] else TokensOf(toks, v))
            && EdgesOf(toks', p2c', v) == (if v == id then map[] else EdgesOf(toks, p2c, v))
            && forall a | a in p2c' :: a in toks'
  {
    hide Rotates, Touched;
    CutStaysInside(toks, p2c, "", id);
    EdgesStartAtTokens(toks, p2c);
    assert forall t | t in toks && toks[t].userID == id :: t in TokensOfUser(toks, id);
    TouchedHasOwn(toks, TokensOfUser(toks, id));
  }

  lemma EdgesStartAtTokens(toks: map<Id, RefreshToken>, p2c: map<Id, Id>)
    requires Rotates(toks, p2c)
    ensures p2c.Keys <= toks.Keys
  {
  }

  lemma TouchedHasOwn(toks: map<Id, RefreshToken>, gone: set<Id>)
    ensures forall t | t in gone && t in toks :: t in Touched(toks, gone)
  {
  }

  lemma FactorsExact(factors: map<Id, Factor>, challenges: map<Id, Challenge>, id: Id, v: Id)
    requires ChallengesOk(challenges, factors.Keys)
    ensures var factors' := map k | k in factors && factors[k].userID != id :: factors[k];
            var challenges' := map k | k in challenges && !ChallengeOfUser(factors, challenges[k], id) :: challenges[k];
            && FactorMapOf(factors', v) == (if v == id then map[] else FactorMapOf(factors, v))
            && ChallengesOf(factors', challenges', v) ==
                (if v == id then map[] else ChallengesOf(factors, challenges, v))
            && forall k | k in challenges' :: challenges'[k].factorID in factors'
  {
  }

  lemma PasskeysExact(passkeys: map<Id, Passkey>, byCred: map<string, Id>, ceremonies: map<Id, PasskeyChallenge>,
      id: Id, v: Id)
    requires CredIndex(passkeys, byCred)
    ensures var passkeys' := map k | k in passkeys && passkeys[k].userID != id :: passkeys[k];
            var byCred' := byCred - (set k | k in passkeys && passkeys[k].userID == id :: passkeys[k].credentialID);
            var ceremonies' := map k | k in ceremonies && ceremonies[k].userID != id :: ceremonies[k];
            && PasskeyMapOf(passkeys', v) == (if v == id then map[] else PasskeyMapOf(passkeys, v))
            && CredsOf(passkeys', byCred', v) == (if v == id then map[] else CredsOf(passkeys, byCred, v))
            && CeremoniesOf(ceremonies', v) == (if v == id then map[] else CeremoniesOf(ceremonies, v))
            && forall c | c in byCred' :: byCred'[c] in passkeys'
  {
  }

  lemma AccountsExact(users: map<Id, User>, sessions: map<Id, Session>, id: Id, v: Id)
    ensures UsersOf(users - {id}, v) == if v == id then map[] else UsersOf(users, v)
    ensures SessionsOf(map k | k in sessions && sessions[k].userID != id :: sessions[k], v) ==
              if v == id then map[] else SessionsOf(sessions, v)
  {
  }

  // ---- the whole cascade ------------------------------------------------------

  lemma InvGives(s: State)
    requires Inv(s)
    ensures Rotates(s.auth.refreshTokens, s.auth.parentToChild)
    ensures ChallengesOk(s.mfa.challenges, s.mfa.factors.Keys)
    ensures CredIndex(s.keys.passkeys, s.keys.passkeyByCred)
  {
  }

  // In every reachable state, deletion leaves nothing of that user and everything of every other user
  // (and, with v == "", of the discoverable passkey ceremonies that have no user). Authorization codes stay.
  lemma DeleteUserExactly(s: State, id: Id, v: Id)
    requires Inv(s) && id in s.accounts.users
    ensures var t := DeleteUser(s, id).st;
            && Of(t, v) == (if v == id then NOTHING else Of(s, v))
            && t.oauth == s.oauth && t.ids == s.ids && t.reuseInterval == s.reuseInterval
  {
    InvGives(s);
    hide Inv, Rotates, ChallengesOk, CredIndex, Touched, TokensOfUser, ChallengeOfUser;
    TokensExact(s.auth.refreshTokens, s.auth.parentToChild, id, v);
    FactorsExact(s.mfa.factors, s.mfa.challenges, id, v);
    PasskeysExact(s.keys.passkeys, s.keys.passkeyByCred, s.keys.passkeyChallenges, id, v);
    AccountsExact(s.accounts.users, s.auth.sessions, id, v);
    hide UsersOf, SessionsOf, TokensOf, EdgesOf, FactorMapOf, ChallengesOf, PasskeyMapOf, CredsOf, CeremoniesOf;
  }

  // The email index loses exactly one key, the lower-cased address; every other user keeps their entry if and
  // only if it is not under that key.
  lemma EntriesAfterDelete(s: State, id: Id, v: Id)
    requires id in s.accounts.users && v in s.accounts.users && v != id
    requires s.accounts.users[v].email in s.accounts.emailIndex && s.accounts.emailIndex[s.accounts.users[v].email] == v
    ensures var t := DeleteUser(s, id).st;
            var e := s.accounts.users[v].email;
            && v in t.accounts.users && t.accounts.users[v].email == e
            && (e in t.accounts.emailIndex && t.accounts.emailIndex[e] == v <==> e != Lower(s.accounts.users[id].email))
  {
    hide Touched, TokensOfUser, ChallengeOfUser, Lower;
  }

  // ---- a deleted user stays deleted -------------------------------------------

  // Made by the store, and no longer there.
  ghost predicate Deleted(s: State, uid: Id) {
    uid in s.ids.used && uid !in s.accounts.users
  }

  lemma NewUserIsFresh(s: State, op: Op)
    requires Enabled(s, op) && AccountOp(op)
    ensures forall k | k in Apply(s, op).accounts.users :: k in s.accounts.users || k !in s.ids.used
  {
    hide Touched, TokensOfUser, ChallengeOfUser, HasProvider, LinkIdentity, IdentityIndex, Without;
    hide OAuthEmail, OAuthData, Synthesized, Lower;
    hide CreateAuthCode, ConsumeAuthCode, CreateSession, IssueRefreshToken, IssueSession, ConsumeRefreshToken;
    hide RevokeRefreshTokensBySession, EnrollFactor, VerifyFactor, DeleteFactor, CreateChallenge, ConsumeChallenge;
    hide UpgradeSessionAAL, CreatePasskeyChallenge, ConsumePasskeyChallenge, AddPasskey, DeletePasskey, MarkPasskeyUsed;
  }

  lemma DeletedStays(s: State, op: Op, uid: Id)
    requires Deleted(s, uid) && Enabled(s, op)
    ensures Deleted(Apply(s, op), uid)
  {
    UsedGrows(s, op);
    if AccountOp(op) {
      NewUserIsFresh(s, op);
    } else {
      AccountsUntouched(s, op);
    }
    hide Apply, Enabled, AccountOp;
  }

  lemma {:induction false} DeletedStaysInRun(s: State, ops: seq<Op>, uid: Id)
    requires Deleted(s, uid) && RunEnabled(s, ops)
    ensures Deleted(Run(s, ops), uid)
  {
    hide Apply, Enabled, Deleted;
    if ops != [] {
      var n := |ops| - 1;
      DeletedStaysInRun(s, ops[..n], uid);
      DeletedStays(Run(s, ops[..n]), ops[n], uid);
    }
  }

  lemma DeletedStaysInStep(sys: Sys, req: Request, env: Env, uid: Id)
    requires Deleted(sys.store, uid) && EnvOk(sys.store, env)
    ensures Deleted(Step(sys, req, env).sys.store, uid)
  {
    hide Step, EnvOk, Deleted, RunEnabled, Run;
    RequestIsRun(sys, req, env);
    DeletedStaysInRun(sys.store, Step(sys, req, env).ops, uid);
  }

  lemma {:induction false} DeletedStaysForever(sys: Sys, evs: seq<Event>, uid: Id)
    requires Deleted(sys.store, uid) && Served(sys, evs)
    ensures Deleted(Serve(sys, evs).store, uid)
  {
    hide Step, EnvOk, BearerOk, Deleted;
    if evs != [] {
      var n := |evs| - 1;
      DeletedStaysForever(sys, evs[..n], uid);
      DeletedStaysInStep(Serve(sys, evs[..n]), evs[n].req, evs[n].env, uid);
    }
  }

  lemma ConsistentUserExists(sys: Sys, tr: TokenResponse)
    requires Good(sys) && Consistent(sys, tr)
    ensures tr.claims.sub in sys.store.accounts.users && tr.user.id == tr.claims.sub
  {
    SessionKeyed(sys.store, tr.claims.sid);
    hide Inv, Ownership;
  }

  lemma DeletedNotAnswered(sys: Sys, evs: seq<Event>, uid: Id, k: nat)
    requires Good(sys) && Served(sys, evs) && Deleted(sys.store, uid) && k < |evs|
    ensures var r := ReplyAt(sys, evs, k);
            r.resp.Token? ==> r.resp.tr.claims.sub != uid && r.resp.tr.user.id != uid
  {
    hide Good, Step, Possible, Consistent, Serve, Served;
    ServedPrefix(sys, evs, k);
    ServedPrefix(sys, evs, k + 1);
    RunConsistent(sys, evs, k);
    ServeGood(sys, evs[..k + 1]);
    DeletedStaysForever(sys, evs[..k + 1], uid);
    var r := ReplyAt(sys, evs, k);
    if r.resp.Token? {
      ConsistentUserExists(r.sys, r.resp.tr);
    }
  }

  lemma DeletionDeletes(s: State, uid: Id)
    requires Inv(s) && uid in s.accounts.users
    ensures Deleted(DeleteUser(s, uid).st, uid)
  {
    hide Rotates, LowerEntries, Touched, ChallengeOfUser;
  }

  // A deletion is answered with success exactly when the user is there, and performs the cascade; otherwise nothing
  // changes.
  lemma DeletionAnswered(sys: Sys, uid: Id, env: Env)
    requires Inv(sys.store)
    ensures var r := Step(sys, AdminDeleteUser(uid), env);
            if uid in sys.store.accounts.users
            then r.resp == Done("") && r.sys == sys.(store := DeleteUser(sys.store, uid).st)
            else r.resp == Rejected(if uid == "" then 400 else 404, "") && r.sys == sys
  {
    hide Step, Inv, Touched, ChallengeOfUser, TokensOfUser;
    UsersUsed(sys.store);
    AdminDeleteStep(sys, uid, env);
  }

  // A deletion answered with success leaves its user deleted.
  lemma DeletionEstablishes(sys: Sys, uid: Id, env: Env)
    requires Inv(sys.store) && Step(sys, AdminDeleteUser(uid), env).resp.Done?
    ensures Deleted(Step(sys, AdminDeleteUser(uid), env).sys.store, uid)
  {
    hide Inv, Deleted, Touched, ChallengeOfUser;
    AdminDeleteStep(sys, uid, env);
    if uid in sys.store.accounts.users {
      DeletionDeletes(sys.store, uid);
    }
    hide Step;
  }

  lemma AdminDeleteStep(sys: Sys, uid: Id, env: Env)
    ensures Step(sys, AdminDeleteUser(uid), env) == AdminDeleteUserStep(sys, uid)
  {
    hide AdminDeleteUserStep;
  }

  // A later reply of a run is a reply of the rest of the run.
  lemma ReplyLater(sys: Sys, evs: seq<Event>, k: nat, j: nat)
    requires k <= j < |evs|
    ensures ReplyAt(Serve(sys, evs[..k]), evs[k..], j - k) == ReplyAt(sys, evs, j)
  {
    hide Step, Possible, Served, Serve;
    var tail := evs[k..][..j - k];
    assert evs[..j] == evs[..k] + tail;
    ServeConcat(sys, evs[..k], tail);
  }

  // The service right after request k of a run, when that request deleted a user, and the rest of the run.
  lemma AfterDeletion(sys: Sys, evs: seq<Event>, k: nat, uid: Id)
    requires Good(sys) && Served(sys, evs) && k < |evs|
    requires evs[k].req == AdminDeleteUser(uid) && ReplyAt(sys, evs, k).resp.Done?
    ensures var after := Serve(sys, evs[..k + 1]);
            && Good(after) && Deleted(after.store, uid)
            && Served(after, evs[k + 1..])
            && forall j: nat | k < j < |evs| ::
                 evs[k + 1..][j - k - 1] == evs[j] && ReplyAt(after, evs[k + 1..], j - k - 1) == ReplyAt(sys, evs, j)
  {
    hide Good, Step, Possible, Deleted, Serve, Served;
    ServedPrefix(sys, evs, k);
    ServedPrefix(sys, evs, k + 1);
    ServeGood(sys, evs[..k]);
    ServeGood(sys, evs[..k + 1]);
    GoodInv(Serve(sys, evs[..k]));
    DeletionEstablishes(Serve(sys, evs[..k]), uid, evs[k].env);
    var tail := evs[k + 1..];
    assert evs == evs[..k + 1] + tail;
    ServeConcat(sys, evs[..k + 1], tail);
    forall j: nat | k < j < |evs| ensures ReplyAt(Serve(sys, evs[..k + 1]), tail, j - k - 1) == ReplyAt(sys, evs, j) {
      ReplyLater(sys, evs, k + 1, j);
    }
  }

  // Once request k of a run deleted a user, no later answer signs that user in or refreshes their session.
  lemma DeletedNeverAnswered(sys: Sys, evs: seq<Event>, uid: Id, k: nat, j: nat)
    requires Good(sys) && Served(sys, evs) && k < j < |evs|
    requires evs[k].req == AdminDeleteUser(uid) && ReplyAt(sys, evs, k).resp.Done?
    ensures var r := ReplyAt(sys, evs, j);
            r.resp.Token? ==> r.resp.tr.claims.sub != uid && r.resp.tr.user.id != uid
  {
    hide Good, Step, Possible, Deleted, Serve, Served;
    AfterDeletion(sys, evs, k, uid);
    DeletedNotAnswered(Serve(sys, evs[..k + 1]), evs[k + 1..], uid, j - k - 1);
  }

  // ---- codes of a deleted user ------------------------------------------------

  // A ticket is never altered: it is held as it was minted, until it is gone.
  lemma {:induction false} HeldUnaltered(s: State, ops: seq<Op>, kind: Kind, id: Id)
    requires RunEnabled(s, ops) && id in s.ids.used
    ensures Held(Run(s, ops), kind, id).Some? ==> Held(Run(s, ops), kind, id) == Held(s, kind, id)
    ensures id in Run(s, ops).ids.used
  {
    hide Apply, Enabled, Held;
    if ops != [] {
      var t, op := Run(s, ops[..|ops| - 1]), ops[|ops| - 1];
      HeldUnaltered(s, ops[..|ops| - 1], kind, id);
      TicketCarried(t, op, kind, id);
      UsedGrows(t, op);
      if Minted(op, kind, id).Some? {
        MintedIsFresh(t, op, kind, id);
      }
    }
  }

  lemma {:induction false} HeldUnalteredInService(sys: Sys, evs: seq<Event>, kind: Kind, id: Id)
    requires Served(sys, evs) && id in sys.store.ids.used
    ensures var t := Serve(sys, evs).store;
            Held(t, kind, id).Some? ==> Held(t, kind, id) == Held(sys.store, kind, id)
    ensures id in Serve(sys, evs).store.ids.used
  {
    hide Step, EnvOk, BearerOk, Held, Run, RunEnabled;
    if evs != [] {
      var n := |evs| - 1;
      var before := Serve(sys, evs[..n]);
      HeldUnalteredInService(sys, evs[..n], kind, id);
      RequestIsRun(before, evs[n].req, evs[n].env);
      HeldUnaltered(before.store, Step(before, evs[n].req, evs[n].env).ops, kind, id);
    }
  }

  // A code whose user is gone is refused, and spent.
  lemma OrphanCodeRefused(sys: Sys, code: Id, env: Env)
    requires code in sys.store.oauth.authCodes ==> sys.store.oauth.authCodes[code].userID !in sys.store.accounts.users
    ensures var r := PkceGrantStep(sys, code, env);
            && r.resp.Rejected? && r.resp.status == 400
            && (TrimSpace(code) != "" ==> r.resp.code == "invalid_grant" && code !in r.sys.store.oauth.authCodes)
            && r.sys.minted == sys.minted && r.sys.store.auth == sys.store.auth
  {
    hide TrimSpace, IssueWithMethod;
  }

  lemma OrphanRefusedLater(sys: Sys, evs: seq<Event>, code: Id, k: nat)
    requires Good(sys) && Served(sys, evs) && k < |evs| && evs[k].req == PkceGrant(code)
    requires code in sys.store.oauth.authCodes && Deleted(sys.store, sys.store.oauth.authCodes[code].userID)
    ensures ReplyAt(sys, evs, k).resp.Rejected? && ReplyAt(sys, evs, k).resp.status == 400
  {
    hide Good, Step, Served, Serve, PkceGrantStep, Possible;
    var uid := sys.store.oauth.authCodes[code].userID;
    var before := Serve(sys, evs[..k]);
    ServedPrefix(sys, evs, k);
    CodesUsed(sys, code);
    HeldUnalteredInService(sys, evs[..k], AuthorizationCode, code);
    DeletedStaysForever(sys, evs[..k], uid);
    OrphanCodeRefused(before, code, evs[k].env);
    SignIns.PkceGrantIs(before, code, evs[k].env);
  }

  // A code outlives the deletion of its user, but once request k of a run deleted the user, exchanging the code
  // never yields tokens.
  lemma OrphanCodeNeverYields(sys: Sys, evs: seq<Event>, code: Id, uid: Id, k: nat, j: nat)
    requires Good(sys) && Served(sys, evs) && k < j < |evs| && evs[j].req == PkceGrant(code)
    requires evs[k].req == AdminDeleteUser(uid) && ReplyAt(sys, evs, k).resp.Done?
    requires var codes := Serve(sys, evs[..k]).store.oauth.authCodes; code in codes && codes[code].userID == uid
    ensures ReplyAt(sys, evs, j).resp.Rejected? && ReplyAt(sys, evs, j).resp.status == 400
  {
    hide Good, Step, Possible, Deleted, Serve, Served;
    AfterDeletion(sys, evs, k, uid);
    ServedPrefix(sys, evs, k);
    DeletionKeepsCodes(Serve(sys, evs[..k]), uid, evs[k].env);
    OrphanRefusedLater(Serve(sys, evs[..k + 1]), evs[k + 1..], code, j - k - 1);
  }

  lemma DeletionKeepsCodes(sys: Sys, uid: Id, env: Env)
    ensures Step(sys, AdminDeleteUser(uid), env).sys.store.oauth == sys.store.oauth
  {
    hide Touched, ChallengeOfUser, TokensOfUser;
    AdminDeleteStep(sys, uid, env);
    hide Step;
  }

  lemma CodesUsed(sys: Sys, code: Id)
    requires Good(sys) && code in sys.store.oauth.authCodes
    ensures code in sys.store.ids.used
  {
    hide Rotates, Ownership;
  }
}

// Sign-ins over whole runs: a password set at signup, a code handed out by a provider sign-in, and tickets that sign
// in once.
module Journeys {
  import opened Text
  import opened Model
  import opened Ops
  import opened Listing
  import opened Integrity
  import opened Emails
  import opened Identities
  import opened Invariant
  import opened Requests
  import opened Runs
  import opened Sessions
  import opened Permanence
  import opened Directory
  import opened Tickets
  import opened Cascade
  import opened Answers
  import opened Callers
  import opened SignIns
  import opened Registrations
  import opened Factors
  import opened Passkeys

  // ---- accounts -----------------------------------------------------------------

  // The user, while stored, was stored before with the same address and password hash.
  ghost predicate SameAccount(s: State, t: State, uid: Id) {
    uid in t.accounts.users ==>
      && uid in s.accounts.users
      && t.accounts.users[uid].email == s.accounts.users[uid].email
      && t.accounts.users[uid].passwordHash == s.accounts.users[uid].passwordHash
  }

  lemma OAuthKeepsAccount(s: State, provider: string, hint: string, now: int, uid: Id, sub: Id, iid: Id, salt: Id,
                          k: Id)
    requires UsersOk(s.accounts.users) && Fresh(s, uid) && k in s.ids.used
    ensures SameAccount(s, CreateOAuthUser(s, provider, hint, now, uid, sub, iid, salt).st, k)
  {
    hide HasProvider, OAuthEmail, OAuthData, Synthesized, Providers;
  }

  lemma IdentityKeepsAccount(s: State, uid: Id, provider: string, data: Meta, now: int, iid: Id, k: Id)
    requires UsersOk(s.accounts.users)
    ensures SameAccount(s, AddIdentity(s, uid, provider, data, now, iid).st, k)
    ensures SameAccount(s, RemoveIdentity(s, uid, iid, now).st, k)
  {
    hide HasProvider, IdentityIndex, Without, Providers, SubOf;
  }

  lemma OthersKeepAccount(s: State, email: string, hash: seq<bv8>, now: int, uid: Id, iid: Id, data: Meta, k: Id)
    requires k in s.ids.used
    ensures Fresh(s, uid) ==> SameAccount(s, CreateUser(s, email, hash, now, uid, iid).st, k)
    ensures SameAccount(s, SetUserMetadata(s, uid, data, now).st, k)
    ensures SameAccount(s, UpdateLastSignIn(s, uid, now).st, k) && SameAccount(s, DeleteUser(s, uid).st, k)
  {
    hide Lower, Providers, Touched, TokensOfUser, ChallengeOfUser;
  }

  // No operation changes a user's address or password hash, or brings a user back.
  lemma OpKeepsAccount(s: State, op: Op, uid: Id)
    requires UsersOk(s.accounts.users) && Enabled(s, op) && uid in s.ids.used
    ensures SameAccount(s, Apply(s, op), uid)
  {
    hide UsersOk, SameAccount, Synthesized;
    hide CreateUser, SetUserMetadata, UpdateLastSignIn, DeleteUser, AddIdentity, RemoveIdentity, CreateOAuthUser;
    hide CreateAuthCode, ConsumeAuthCode, CreateSession, IssueRefreshToken, IssueSession, ConsumeRefreshToken;
    hide RevokeRefreshTokensBySession, EnrollFactor, VerifyFactor, DeleteFactor, CreateChallenge, ConsumeChallenge;
    hide UpgradeSessionAAL, CreatePasskeyChallenge, ConsumePasskeyChallenge, AddPasskey, DeletePasskey, MarkPasskeyUsed;
    if AccountOp(op) {
      match op
      case OpCreateUser(email, hash, now, u, iid) => OthersKeepAccount(s, email, hash, now, u, iid, map[], uid);
      case OpSetUserMetadata(u, data, now) => OthersKeepAccount(s, "", [], now, u, "", data, uid);
      case OpUpdateLastSignIn(u, now) => OthersKeepAccount(s, "", [], now, u, "", map[], uid);
      case OpDeleteUser(u) => OthersKeepAccount(s, "", [], 0, u, "", map[], uid);
      case OpAddIdentity(u, provider, data, now, iid) => IdentityKeepsAccount(s, u, provider, data, now, iid, uid);
      case OpRemoveIdentity(u, iid, now) => IdentityKeepsAccount(s, u, "", map[], now, iid, uid);
      case OpCreateOAuthUser(provider, hint, now, u, sub, iid, salt) =>
        OAuthKeepsAccount(s, provider, hint, now, u, sub, iid, salt, uid);
      case OpReset => NobodyKept(s, uid);
    } else {
      AccountsUntouched(s, op);
      SameUsers(s, Apply(s, op), uid);
    }
  }

  lemma NobodyKept(s: State, uid: Id)
    ensures SameAccount(s, EmptyState(s.reuseInterval, s.ids), uid)
  {
  }

  lemma SameUsers(s: State, t: State, uid: Id)
    requires t.accounts == s.accounts
    ensures SameAccount(s, t, uid)
  {
  }

  lemma {:induction false} RunKeepsAccount(s: State, ops: seq<Op>, uid: Id)
    requires Inv(s) && RunEnabled(s, ops) && uid in s.ids.used
    ensures SameAccount(s, Run(s, ops), uid) && uid in Run(s, ops).ids.used
  {
    hide Apply, Enabled, Inv;
    if ops != [] {
      var n := |ops| - 1;
      RunKeepsAccount(s, ops[..n], uid);
      RunInv(s, ops[..n]);
      InvLookups(Run(s, ops[..n]));
      OpKeepsAccount(Run(s, ops[..n]), ops[n], uid);
      UsedGrows(Run(s, ops[..n]), ops[n]);
    }
  }

  lemma {:induction false} ServeKeepsAccount(sys: Sys, evs: seq<Event>, uid: Id)
    requires Inv(sys.store) && Served(sys, evs) && uid in sys.store.ids.used
    ensures SameAccount(sys.store, Serve(sys, evs).store, uid) && uid in Serve(sys, evs).store.ids.used
  {
    hide Inv, Step, EnvOk, BearerOk, Run, RunEnabled;
    if evs != [] {
      var n := |evs| - 1;
      var before := Serve(sys, evs[..n]);
      ServeKeepsAccount(sys, evs[..n], uid);
      ServeInv(sys, evs[..n]);
      RequestIsRun(before, evs[n].req, evs[n].env);
      RunKeepsAccount(before.store, Step(before, evs[n].req, evs[n].env).ops, uid);
    }
  }

  // The service after request k of a run, and the rest of the run up to request j.
  lemma Between(sys: Sys, evs: seq<Event>, k: nat, j: nat) returns (tail: seq<Event>)
    requires Inv(sys.store) && Served(sys, evs) && k < j < |evs|
    ensures var after := Serve(sys, evs[..k + 1]);
            && after == ReplyAt(sys, evs, k).sys
            && Served(after, tail) && Serve(after, tail) == Serve(sys, evs[..j])
    ensures Inv(Serve(sys, evs[..k]).store) && Inv(Serve(sys, evs[..k + 1]).store) && Inv(Serve(sys, evs[..j]).store)
    ensures Possible(Serve(sys, evs[..k]), evs[k].req, evs[k].env)
    ensures Possible(Serve(sys, evs[..j]), evs[j].req, evs[j].env)
  {
    hide Inv, Step, Possible, Serve, Served;
    ServedPrefix(sys, evs, k);
    ServedPrefix(sys, evs, k + 1);
    ServedPrefix(sys, evs, j);
    ServeInv(sys, evs[..k]);
    ServeInv(sys, evs[..k + 1]);
    ServeInv(sys, evs[..j]);
    tail := evs[k + 1..j];
    assert evs[..j] == evs[..k + 1] + tail;
    ServeConcat(sys, evs[..k + 1], tail);
  }

  // ---- passwords ----------------------------------------------------------------

  lemma SignupStores(sys: Sys, ev: Event)
    requires Inv(sys.store) && Possible(sys, ev.req, ev.env) && ev.req.Signup?
    requires Step(sys, ev.req, ev.env).resp.Token?
    ensures var t, uid := Step(sys, ev.req, ev.env).sys.store, Step(sys, ev.req, ev.env).resp.tr.user.id;
            && uid in t.accounts.users && t.accounts.users[uid].email == Lower(TrimSpace(ev.req.email))
            && Some(t.accounts.users[uid].passwordHash) == ev.env.hash(ev.req.password)
  {
    hide Inv, Step, EnvOk, BearerOk, TrimSpace, Lower, Shows, Opened, Linked, MadeAt;
    SignupRegisters(sys, ev.req.email, ev.req.password, ev.req.data, ev.env);
  }

  // After a signup answered with tokens, as long as its user is stored and wherever the email index is exact, a
  // password sign-in with that address signs in that user exactly when the password checks against the hash the
  // signup made; and nobody else.
  lemma SignupThenPassword(sys: Sys, evs: seq<Event>, k: nat, j: nat, hash: seq<bv8>)
    requires Inv(sys.store) && Served(sys, evs) && k < j < |evs|
    requires evs[k].req.Signup? && ReplyAt(sys, evs, k).resp.Token?
    requires evs[k].env.hash(evs[k].req.password) == Some(hash)
    requires evs[j].req.PasswordGrant? && evs[j].req.password != ""
    requires TrimSpace(evs[j].req.email) != ""
    requires Lower(TrimSpace(evs[j].req.email)) == Lower(TrimSpace(evs[k].req.email))
    requires Agrees(Serve(sys, evs[..j]).store.accounts.users, Serve(sys, evs[..j]).store.accounts.emailIndex)
    requires ReplyAt(sys, evs, k).resp.tr.user.id in Serve(sys, evs[..j]).store.accounts.users
    ensures var uid, r := ReplyAt(sys, evs, k).resp.tr.user.id, ReplyAt(sys, evs, j).resp;
            && (r.Token? <==> evs[j].env.check(hash, evs[j].req.password))
            && (r.Token? ==> r.tr.user.id == uid)
  {
    hide Inv, Step, Possible, Serve, Served, TrimSpace, Lower, Agrees;
    var tail := Between(sys, evs, k, j);
    var after, before, uid := Serve(sys, evs[..k + 1]), Serve(sys, evs[..j]), ReplyAt(sys, evs, k).resp.tr.user.id;
    SignupStores(Serve(sys, evs[..k]), evs[k]);
    InvLookups(after.store);
    ServeKeepsAccount(after, tail, uid);
    OnlyOne(before.store, uid, evs[j].req.email);
    PasswordSignsInExactly(before, evs[j].req.email, evs[j].req.password, evs[j].env, uid);
    var r := ReplyAt(sys, evs, j).resp;
    if r.Token? {
      PasswordSignsInExactly(before, evs[j].req.email, evs[j].req.password, evs[j].env, r.tr.user.id);
    }
  }

  lemma OnlyOne(s: State, uid: Id, email: string)
    requires Agrees(s.accounts.users, s.accounts.emailIndex)
    requires uid in s.accounts.users && s.accounts.users[uid].email == Lower(TrimSpace(email))
    ensures forall k | k in s.accounts.users && s.accounts.users[k].email == Lower(TrimSpace(email)) :: k == uid
  {
    hide Lower, TrimSpace;
  }

  // The run makes up addresses from lower-case provider names only.
  ghost predicate LowerRun(sys: Sys, evs: seq<Event>) {
    forall i, o | 0 <= i < |evs| && 0 <= o < |ReplyAt(sys, evs, i).ops| :: LowerProvider(ReplyAt(sys, evs, i).ops[o])
  }

  lemma LowerPrefix(sys: Sys, evs: seq<Event>, n: nat)
    requires LowerRun(sys, evs) && n <= |evs|
    ensures LowerRun(sys, evs[..n])
  {
    hide Step, Serve, LowerProvider;
    forall i, o | 0 <= i < n && 0 <= o < |ReplyAt(sys, evs[..n], i).ops|
      ensures LowerProvider(ReplyAt(sys, evs[..n], i).ops[o])
    {
      assert evs[..n][..i] == evs[..i];
      assert ReplyAt(sys, evs[..n], i) == ReplyAt(sys, evs, i);
    }
  }

  // Such a run keeps the email index exact.
  lemma {:induction false} ServeExact(sys: Sys, evs: seq<Event>)
    requires Inv(sys.store) && Exact(sys.store) && Served(sys, evs) && LowerRun(sys, evs)
    ensures Exact(Serve(sys, evs).store)
  {
    hide Inv, Exact, Step, EnvOk, BearerOk, Run, RunEnabled, LowerProvider;
    if evs != [] {
      var n := |evs| - 1;
      var before := Serve(sys, evs[..n]);
      LowerPrefix(sys, evs, n);
      ServeExact(sys, evs[..n]);
      ServeInv(sys, evs[..n]);
      RequestIsRun(before, evs[n].req, evs[n].env);
      var ops := Step(before, evs[n].req, evs[n].env).ops;
      assert ops == ReplyAt(sys, evs, n).ops;
      RunLookup(before.store, ops, "");
    }
  }

  // In such a run from an exact index: after a signup answered with tokens, as long as its user is stored, a password
  // sign-in with that address succeeds exactly when the password checks against the hash the signup made.
  lemma LowerSignupThenPassword(sys: Sys, evs: seq<Event>, k: nat, j: nat, hash: seq<bv8>)
    requires Inv(sys.store) && Exact(sys.store) && Served(sys, evs) && LowerRun(sys, evs) && k < j < |evs|
    requires evs[k].req.Signup? && ReplyAt(sys, evs, k).resp.Token?
    requires evs[k].env.hash(evs[k].req.password) == Some(hash)
    requires evs[j].req.PasswordGrant? && evs[j].req.password != ""
    requires TrimSpace(evs[j].req.email) != ""
    requires Lower(TrimSpace(evs[j].req.email)) == Lower(TrimSpace(evs[k].req.email))
    requires ReplyAt(sys, evs, k).resp.tr.user.id in Serve(sys, evs[..j]).store.accounts.users
    ensures var uid, r := ReplyAt(sys, evs, k).resp.tr.user.id, ReplyAt(sys, evs, j).resp;
            && (r.Token? <==> evs[j].env.check(hash, evs[j].req.password))
            && (r.Token? ==> r.tr.user.id == uid)
  {
    hide Inv, Step, Possible, Serve, Served, TrimSpace, Lower, Agrees, AllLower, LowerRun, ReplyAt;
    LowerPrefix(sys, evs, j);
    ServedPrefix(sys, evs, j);
    ServeExact(sys, evs[..j]);
    SignupThenPassword(sys, evs, k, j, hash);
  }

  // ---- codes --------------------------------------------------------------------

  // A code handed out by request k and exchanged for tokens by a later request j signs in the user it was handed out
  // for, within five minutes. With a hint that user has the hinted address: the user the address led to before, or
  // else a new one.
  lemma AuthorizeThenExchange(sys: Sys, evs: seq<Event>, k: nat, j: nat)
    requires Inv(sys.store) && Served(sys, evs) && k < j < |evs|
    requires evs[k].req.Authorize? && ReplyAt(sys, evs, k).resp.Done?
    requires evs[j].req == PkceGrant(ReplyAt(sys, evs, k).resp.id) && ReplyAt(sys, evs, j).resp.Token?
    ensures var before, u := Serve(sys, evs[..k]).store, ReplyAt(sys, evs, j).resp.tr.user;
            var address := Lower(TrimSpace(evs[k].req.hint));
            && (address != "" ==> u.email == address)
            && (if address != "" && address in before.accounts.emailIndex
                then u.id == before.accounts.emailIndex[address]
                else u.id !in before.ids.used)
            && evs[j].env.clk(0) <= evs[k].env.clk(1) + 300 * SECOND
  {
    hide Inv, Step, Possible, Serve, Served, TrimSpace, Lower;
    var tail := Between(sys, evs, k, j);
    var first, after, before := Serve(sys, evs[..k]), Serve(sys, evs[..k + 1]), Serve(sys, evs[..j]);
    var code := ReplyAt(sys, evs, k).resp.id;
    var uid := HandedOut(first, evs[k]);
    InvLookups(after.store);
    CodesIssued(after.store, code);
    HeldUnalteredInService(after, tail, AuthorizationCode, code);
    ServeKeepsAccount(after, tail, uid);
    Exchanged(before, evs[j], code);
  }

  lemma HandedOut(sys: Sys, ev: Event) returns (uid: Id)
    requires Inv(sys.store) && Possible(sys, ev.req, ev.env) && ev.req.Authorize?
    requires Step(sys, ev.req, ev.env).resp.Done?
    ensures var s, t, code := sys.store, Step(sys, ev.req, ev.env).sys.store, Step(sys, ev.req, ev.env).resp.id;
            var address := Lower(TrimSpace(ev.req.hint));
            && Held(t, AuthorizationCode, code) == Some(Ticket(ForUser(uid), ev.env.clk(1) + 300 * SECOND))
            && uid in t.accounts.users && (address != "" ==> t.accounts.users[uid].email == address)
            && (if address != "" && address in s.accounts.emailIndex then uid == s.accounts.emailIndex[address]
                else uid !in s.ids.used)
  {
    hide Inv, Step, EnvOk, BearerOk, TrimSpace, Lower, HasProvider, SameLogin, OthersSame, Fabricated, NewlyLinked;
    AuthorizeHandsOut(sys, ev.req.provider, ev.req.redirectTo, ev.req.hint, ev.env);
    uid := Step(sys, ev.req, ev.env).sys.store.oauth.authCodes[Step(sys, ev.req, ev.env).resp.id].userID;
  }

  lemma CodesIssued(s: State, code: Id)
    requires Inv(s) && code in s.oauth.authCodes
    ensures code in s.ids.used
  {
  }

  lemma Exchanged(sys: Sys, ev: Event, code: Id)
    requires Inv(sys.store) && ev.req == PkceGrant(code) && Step(sys, ev.req, ev.env).resp.Token?
    ensures var u := Step(sys, ev.req, ev.env).resp.tr.user;
            && code in sys.store.oauth.authCodes && u.id == sys.store.oauth.authCodes[code].userID
            && ev.env.clk(0) <= sys.store.oauth.authCodes[code].expiresAt
            && u.id in sys.store.accounts.users && u.email == sys.store.accounts.users[u.id].email
  {
    hide Inv, Step, TrimSpace, FactorList, MintedAt, Opened;
    CodeSignsIn(sys, code, ev.env);
    assert CodeChecks(sys.store, code, ev.env.clk(0), Step(sys, ev.req, ev.env).resp.tr.user.id);
  }

  // ---- tickets that sign in once --------------------------------------------------

  // The ticket the request presents, if it presents one.
  ghost function TicketOf(req: Request): Option<(Kind, Id)> {
    match req
    case VerifyFactorRequest(_, _, cid) => Some((MfaChallenge, cid))
    case PasskeyAuthenticationVerify(cid, _) => Some((CeremonyChallenge, cid))
    case PkceGrant(code) => Some((AuthorizationCode, code))
    case _ => None
  }

  // An answer with tokens to a ticket means it was held before and is held no more.
  lemma TicketSpent(sys: Sys, ev: Event)
    requires Inv(sys.store) && TicketOf(ev.req).Some? && Step(sys, ev.req, ev.env).resp.Token?
    ensures var (kind, id) := TicketOf(ev.req).value;
            && Held(sys.store, kind, id).Some? && Held(Step(sys, ev.req, ev.env).sys.store, kind, id).None?
  {
    hide Inv, Step, TrimSpace, Shows, Opened, SignedIn, Speaks, SteppedUp;
    match ev.req
    case VerifyFactorRequest(bearer, fid, cid) => VerifyAnswered(sys, bearer, fid, cid, ev.env);
    case PasskeyAuthenticationVerify(cid, cred) =>
      var pid := PasskeySignsIn(sys, cid, cred, ev.env);
    case PkceGrant(code) =>
      CodeSignsIn(sys, code, ev.env);
      assert CodeChecks(sys.store, code, ev.env.clk(0), Step(sys, ev.req, ev.env).resp.tr.user.id);
  }

  // In any run at most one request is answered with tokens for one challenge, ceremony or code.
  lemma SignsInOnce(sys: Sys, evs: seq<Event>, k: nat, j: nat)
    requires Inv(sys.store) && Served(sys, evs) && k < j < |evs|
    requires TicketOf(evs[k].req).Some? && TicketOf(evs[j].req) == TicketOf(evs[k].req)
    requires ReplyAt(sys, evs, k).resp.Token?
    ensures !ReplyAt(sys, evs, j).resp.Token?
  {
    hide Inv, Step, Possible, Serve, Served, Held, TicketOf;
    var tail := Between(sys, evs, k, j);
    var first, after, before := Serve(sys, evs[..k]), Serve(sys, evs[..k + 1]), Serve(sys, evs[..j]);
    var (kind, id) := TicketOf(evs[k].req).value;
    TicketSpent(first, evs[k]);
    InvIssued(first.store);
    HeldIsUsed(first.store, kind, id);
    StepUsed(first, evs[k], id);
    HeldUnalteredInService(after, tail, kind, id);
    if ReplyAt(sys, evs, j).resp.Token? {
      TicketSpent(before, evs[j]);
    }
  }

  lemma StepUsed(sys: Sys, ev: Event, id: Id)
    requires Inv(sys.store) && Possible(sys, ev.req, ev.env) && id in sys.store.ids.used
    ensures id in Step(sys, ev.req, ev.env).sys.store.ids.used
  {
    hide Inv, Step, EnvOk, BearerOk, Run, RunEnabled;
    RequestIsRun(sys, ev.req, ev.env);
    RunKeepsAccount(sys.store, Step(sys, ev.req, ev.env).ops, id);
  }
}

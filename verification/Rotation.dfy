// The rotation forest over whole runs: the maps follow the abstract forest step by step.
module Rotation {
  import opened Model
  import opened Ops
  import opened Forest
  import opened Scan
  import opened Integrity
  import opened Invariant
  import opened Conservation

  // What each operation does to the forest. Issuing starts a chain for a known user; consuming
  // appends or repeats; logout kills the session's chains; deletion drops the user's.
  ghost function Grow(f: Chains, known: set<Id>, window: int, op: Op): Chains {
    match op
    case OpIssueRefreshToken(uid, sid, now, tok) => if uid in known then StartChain(f, uid, sid, tok, now) else f
    case OpIssueSession(uid, _, _, now', sid, tok) => if uid in known then StartChain(f, uid, sid, tok, now') else f
    case OpConsumeRefreshToken(tok, now, successor) => Consume(f, tok, now, window, successor).0
    case OpRevoke(sid, now) => LogoutChains(f, sid, Backdate(window, now))
    case OpDeleteUser(uid) => DropUser(f, uid)
    case OpReset => map[]
    case _ => f
  }

  ghost function GrowRun(s: State, f: Chains, ops: seq<Op>): Chains {
    if ops == [] then f
    else
      var n := |ops| - 1;
      Grow(GrowRun(s, f, ops[..n]), Run(s, ops[..n]).accounts.users.Keys, s.reuseInterval, ops[n])
  }

  lemma UnknownUserHasNoChain(toks: map<Id, RefreshToken>, p2c: map<Id, Id>, users: set<Id>, id: Id, f: Chains)
    requires TokensOk(toks, users) && Refines(toks, p2c, f) && id !in users
    ensures DropUser(f, id) == f
  {
    forall r | r in f ensures f[r].user != id {
      assert LinkOk(toks, p2c, f[r], 0);
    }
  }

  lemma TokensOwned(s: State)
    requires Inv(s)
    ensures TokensOk(s.auth.refreshTokens, s.accounts.users.Keys)
  {
  }

  lemma DeleteFollows(s: State, id: Id, f: Chains)
    requires Inv(s) && Refines(s.auth.refreshTokens, s.auth.parentToChild, f)
    ensures var t := DeleteUser(s, id).st; Refines(t.auth.refreshTokens, t.auth.parentToChild, DropUser(f, id))
  {
    hide Inv, Refines, DropUser, Touched, TokensOk, TokensOfUser, ChallengeOfUser;
    if id in s.accounts.users {
      DropRefines(s.auth.refreshTokens, s.auth.parentToChild, f, id);
    } else {
      TokensOwned(s);
      UnknownUserHasNoChain(s.auth.refreshTokens, s.auth.parentToChild, s.accounts.users.Keys, id, f);
    }
  }

  lemma IssueFollows(s: State, userID: Id, sid: Id, now: int, tok: Id, f: Chains)
    requires tok != "" && tok !in s.auth.refreshTokens && Refines(s.auth.refreshTokens, s.auth.parentToChild, f)
    ensures var t := IssueRefreshToken(s, userID, sid, now, tok).st;
            Refines(t.auth.refreshTokens, t.auth.parentToChild,
                    if userID in s.accounts.users then StartChain(f, userID, sid, tok, now) else f)
  {
    StartChainRefines(s.auth.refreshTokens, s.auth.parentToChild, f, userID, sid, tok, now);
    hide Refines, StartChain;
  }

  lemma SessionFollows(s: State, userID: Id, m: string, now: int, now': int, sid: Id, tok: Id, f: Chains)
    requires tok != "" && tok !in s.auth.refreshTokens && Refines(s.auth.refreshTokens, s.auth.parentToChild, f)
    ensures var t := IssueSession(s, userID, m, now, now', sid, tok).st;
            Refines(t.auth.refreshTokens, t.auth.parentToChild,
                    if userID in s.accounts.users then StartChain(f, userID, sid, tok, now') else f)
  {
    hide Refines, StartChain, Unix;
    IssueFollows(CreateSession(s, userID, m, now, sid).st, userID, sid, now', tok, f);
  }

  lemma ConsumeFollows(s: State, t: Id, now: int, next: Id, f: Chains)
    requires Inv(s) && next != "" && next !in s.auth.refreshTokens
    requires Refines(s.auth.refreshTokens, s.auth.parentToChild, f)
    ensures Matches(s, f, ConsumeRefreshToken(s, t, now, next), Consume(f, t, now, s.reuseInterval, next))
  {
    assert TokensOk(s.auth.refreshTokens, s.accounts.users.Keys);
    ConsumeRefines(s, f, t, now, next);
    hide Inv, Refines, ConsumeRefreshToken, Consume, Matches;
  }

  lemma RevokeFollows(s: State, sid: Id, now: int, f: Chains)
    requires Refines(s.auth.refreshTokens, s.auth.parentToChild, f)
    ensures var t := RevokeRefreshTokensBySession(s, sid, now);
            Refines(t.auth.refreshTokens, t.auth.parentToChild, LogoutChains(f, sid, Backdate(s.reuseInterval, now)))
  {
    KillRefines(s.auth.refreshTokens, s.auth.parentToChild, f, sid, Backdate(s.reuseInterval, now));
    hide Refines, LogoutChains, Touched;
  }

  lemma ResetFollows(s: State)
    ensures var t := EmptyState(s.reuseInterval, s.ids); Refines(t.auth.refreshTokens, t.auth.parentToChild, map[])
  {
  }

  lemma TokenStepFollows(s: State, op: Op, f: Chains)
    requires Inv(s) && Enabled(s, op) && RotatesTokens(op) && Refines(s.auth.refreshTokens, s.auth.parentToChild, f)
    ensures var t := Apply(s, op);
            Refines(t.auth.refreshTokens, t.auth.parentToChild, Grow(f, s.accounts.users.Keys, s.reuseInterval, op))
  {
    hide CreateUser, SetUserMetadata, UpdateLastSignIn, DeleteUser, AddIdentity, RemoveIdentity, CreateOAuthUser;
    hide CreateAuthCode, ConsumeAuthCode, CreateSession, IssueRefreshToken, IssueSession, ConsumeRefreshToken;
    hide RevokeRefreshTokensBySession, EnrollFactor, VerifyFactor, DeleteFactor, CreateChallenge, ConsumeChallenge;
    hide UpgradeSessionAAL, CreatePasskeyChallenge, ConsumePasskeyChallenge, AddPasskey, DeletePasskey, MarkPasskeyUsed;
    hide Inv, Refines, Synthesized, EmptyState, Consume, StartChain, LogoutChains, DropUser;
    FreshToken(s);
    match op
    case OpDeleteUser(uid) => DeleteFollows(s, uid, f);
    case OpIssueRefreshToken(uid, sid, now, tok) => IssueFollows(s, uid, sid, now, tok, f);
    case OpIssueSession(uid, m, now, now', sid, tok) => SessionFollows(s, uid, m, now, now', sid, tok, f);
    case OpConsumeRefreshToken(tok, now, successor) => ConsumeFollows(s, tok, now, successor, f);
    case OpRevoke(sid, now) => RevokeFollows(s, sid, now, f);
    case OpReset => ResetFollows(s);
  }

  lemma IntervalConstant(s: State, op: Op)
    ensures Apply(s, op).reuseInterval == s.reuseInterval
  {
    hide NewUser, RecomputeProviders, LinkIdentity, IdentityIndex, Without, FindLatestChild, Touched, TokensOfSession;
    hide EmailUser, NameTaken, HasMethod, HasProvider, OAuthEmail, Synthesized, AppendProviderIdentity, Unix, Backdate;
  }

  lemma StepFollows(s: State, op: Op, f: Chains)
    requires Inv(s) && Enabled(s, op) && Refines(s.auth.refreshTokens, s.auth.parentToChild, f)
    ensures var t := Apply(s, op);
            Refines(t.auth.refreshTokens, t.auth.parentToChild, Grow(f, s.accounts.users.Keys, s.reuseInterval, op))
  {
    hide Apply, Enabled, Inv, Refines;
    if RotatesTokens(op) {
      TokenStepFollows(s, op, f);
    } else {
      TokensUntouched(s, op);
    }
  }

  // Over any run of any operations, the token map and the index refine the forest that the
  // abstract machine grows, and they refine no other.
  lemma {:induction false} RunFollows(s: State, ops: seq<Op>, f: Chains)
    requires Inv(s) && RunEnabled(s, ops) && Refines(s.auth.refreshTokens, s.auth.parentToChild, f)
    ensures var t := Run(s, ops); Refines(t.auth.refreshTokens, t.auth.parentToChild, GrowRun(s, f, ops))
    ensures Run(s, ops).reuseInterval == s.reuseInterval
  {
    hide Inv, Apply, Enabled, Refines, Grow;
    if ops != [] {
      var n := |ops| - 1;
      RunFollows(s, ops[..n], f);
      RunInv(s, ops[..n]);
      StepFollows(Run(s, ops[..n]), ops[n], GrowRun(s, f, ops[..n]));
      IntervalConstant(Run(s, ops[..n]), ops[n]);
    }
  }

  // In every reachable state the index walk gives the scan's answer for every token asked about.
  lemma RunIndexEqualsScan(s: State, ops: seq<Op>, parent: Id)
    requires Inv(s) && RunEnabled(s, ops) && parent != ""
    ensures var t := Run(s, ops).auth;
            && FindLatestChild(t.parentToChild, t.refreshTokens, parent) == SlowLatestChild(t.refreshTokens, parent)
            && !Walk(t.parentToChild, t.refreshTokens, parent, {parent}).Revisit?
            && !Walk(t.parentToChild, t.refreshTokens, parent, {parent}).Dangling?
  {
    RunInv(s, ops);
    var t := Run(s, ops).auth;
    var f: Chains :| Refines(t.refreshTokens, t.parentToChild, f);
    hide Inv, Refines, Run, RunEnabled, FindLatestChild, SlowLatestChild, Walk;
    IndexEqualsScan(t.refreshTokens, t.parentToChild, f, parent);
    GuardsNeverFire(t.refreshTokens, t.parentToChild, f, parent);
  }

  // In every reachable state the rotation edges have no cycle, and each leads from a revoked token to its
  // one child within one user and one session.
  lemma RunAcyclic(s: State, ops: seq<Op>) returns (rank: map<Id, int>)
    requires Inv(s) && RunEnabled(s, ops)
    ensures var t := Run(s, ops).auth;
            Ranks(t.parentToChild, rank) && forall a :: EdgeOk(t.refreshTokens, t.parentToChild, a)
  {
    RunInv(s, ops);
    var t := Run(s, ops).auth;
    var f: Chains :| Refines(t.refreshTokens, t.parentToChild, f);
    hide Inv, Refines, Run, RunEnabled, Ranks, EdgeOk;
    rank := EdgesAcyclic(t.refreshTokens, t.parentToChild, f);
  }
}

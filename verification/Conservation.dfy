// Live tokens are conserved, and with a clock that never goes back rotation times grow along a chain.
module Conservation {
  import opened Model
  import opened Ops
  import opened Forest
  import opened Integrity
  import opened Emails
  import opened Invariant

  ghost function LiveTokens(toks: map<Id, RefreshToken>, sid: Id): set<Id> {
    set t | t in toks && toks[t].sessionID == sid && !toks[t].revoked
  }

  // The tokens a session was issued, as opposed to rotated into.
  ghost function IssuedTokens(toks: map<Id, RefreshToken>, sid: Id): set<Id> {
    set t | t in toks && toks[t].sessionID == sid && toks[t].parent == ""
  }

  ghost function LiveChains(f: Chains, sid: Id): set<Id> {
    set r | r in f && f[r].session == sid && !f[r].dead
  }

  ghost function LastToken(f: Chains, r: Id): Id
    requires r in f && |f[r].links| > 0
  {
    f[r].links[|f[r].links| - 1].token
  }

  lemma {:induction false} ImageSize(s: set<Id>, image: map<Id, Id>)
    requires s <= image.Keys
    requires forall x, y | x in s && y in s && image[x] == image[y] :: x == y
    ensures |set x | x in s :: image[x]| == |s|
  {
    if s != {} {
      var x :| x in s;
      ImageSize(s - {x}, image);
      assert (set y | y in s :: image[y]) == (set y | y in s - {x} :: image[y]) + {image[x]};
    }
  }

  // A chain that is alive has exactly one unrevoked token, its last; a dead one has none.
  lemma OneLiveTokenPerChain(toks: map<Id, RefreshToken>, p2c: map<Id, Id>, f: Chains, t: Id, r: Id, i: int)
    requires Refines(toks, p2c, f) && Has(f, r, i, t)
    ensures t in toks
    ensures !toks[t].revoked <==> !f[r].dead && t == LastToken(f, r)
  {
    assert LinkOk(toks, p2c, f[r], i);
    assert Has(f, r, |f[r].links| - 1, LastToken(f, r));
  }

  lemma LiveTokensAreLastTokens(toks: map<Id, RefreshToken>, p2c: map<Id, Id>, f: Chains, sid: Id)
    requires Refines(toks, p2c, f)
    ensures LiveTokens(toks, sid) == set r | r in LiveChains(f, sid) :: LastToken(f, r)
  {
    var last := set r | r in LiveChains(f, sid) :: LastToken(f, r);
    forall t ensures t in LiveTokens(toks, sid) <==> t in last {
      if t in LiveTokens(toks, sid) {
        var r: Id, i: int :| Has(f, r, i, t);
        assert LinkOk(toks, p2c, f[r], i);
        OneLiveTokenPerChain(toks, p2c, f, t, r, i);
        assert r in LiveChains(f, sid);
      }
      if t in last {
        var r :| r in LiveChains(f, sid) && t == LastToken(f, r);
        assert Has(f, r, |f[r].links| - 1, t);
        assert LinkOk(toks, p2c, f[r], |f[r].links| - 1);
      }
    }
  }

  // A session has as many unrevoked tokens as it has chains that are alive.
  lemma LiveCount(toks: map<Id, RefreshToken>, p2c: map<Id, Id>, f: Chains, sid: Id)
    requires Refines(toks, p2c, f)
    ensures |LiveTokens(toks, sid)| == |LiveChains(f, sid)|
  {
    LiveTokensAreLastTokens(toks, p2c, f, sid);
    var image := map r | r in f :: LastToken(f, r);
    forall x, y | x in LiveChains(f, sid) && y in LiveChains(f, sid) && image[x] == image[y] ensures x == y {
      assert Has(f, x, |f[x].links| - 1, image[x]) && Has(f, y, |f[y].links| - 1, image[y]);
    }
    ImageSize(LiveChains(f, sid), image);
    assert (set r | r in LiveChains(f, sid) :: LastToken(f, r)) == (set r | r in LiveChains(f, sid) :: image[r]);
  }

  // While none of a session's chains is dead, it has exactly one unrevoked token per token issued to it.
  lemma LiveEqualsIssued(toks: map<Id, RefreshToken>, p2c: map<Id, Id>, f: Chains, sid: Id)
    requires Refines(toks, p2c, f)
    requires forall r | r in f && f[r].session == sid :: !f[r].dead
    ensures |LiveTokens(toks, sid)| == |IssuedTokens(toks, sid)|
  {
    LiveCount(toks, p2c, f, sid);
    forall t ensures t in IssuedTokens(toks, sid) <==> t in LiveChains(f, sid) {
      if t in toks {
        var r: Id, i: int :| Has(f, r, i, t);
        assert LinkOk(toks, p2c, f[r], i);
        assert i > 0 ==> LinkOk(toks, p2c, f[r], i - 1);
        assert Has(f, r, 0, r);
        assert t in f ==> Has(f, t, 0, t);
      }
      assert t in f ==> LinkOk(toks, p2c, f[t], 0);
    }
    assert IssuedTokens(toks, sid) == LiveChains(f, sid);
  }

  lemma RotateConserves(toks: map<Id, RefreshToken>, t: Id, now: int, next: RefreshToken, sid: Id)
    requires t in toks && !toks[t].revoked && next.token !in toks
    requires !next.revoked && next.sessionID == toks[t].sessionID
    ensures |LiveTokens(toks[t := toks[t].(revoked := true, issuedAt := now)][next.token := next], sid)| ==
            |LiveTokens(toks, sid)|
  {
    var toks' := toks[t := toks[t].(revoked := true, issuedAt := now)][next.token := next];
    if toks[t].sessionID == sid {
      assert LiveTokens(toks', sid) == LiveTokens(toks, sid) - {t} + {next.token};
    } else {
      assert LiveTokens(toks', sid) == LiveTokens(toks, sid);
    }
  }

  // Consuming keeps the number of unrevoked tokens of every session.
  lemma ConsumeConserves(s: State, t: Id, now: int, next: Id, sid: Id)
    requires next !in s.auth.refreshTokens
    ensures var out := ConsumeRefreshToken(s, t, now, next);
            |LiveTokens(out.st.auth.refreshTokens, sid)| == |LiveTokens(s.auth.refreshTokens, sid)|
  {
    hide LiveTokens, FindLatestChild;
    if t in s.auth.refreshTokens && !s.auth.refreshTokens[t].revoked {
      var rt := s.auth.refreshTokens[t];
      RotateConserves(s.auth.refreshTokens, t, now,
          RefreshToken(next, rt.userID, rt.sessionID, now, false, rt.token), sid);
    }
  }

  // ---- rotation times ---------------------------------------------------------

  // Unrevoked tokens were issued no later than `latest`, and no token was rotated later than its successor was.
  ghost predicate TimesGrow(toks: map<Id, RefreshToken>, p2c: map<Id, Id>, latest: int) {
    && (forall t | t in toks && !toks[t].revoked :: toks[t].issuedAt <= latest)
    && (forall a | a in p2c :: a in toks && p2c[a] in toks && toks[a].issuedAt <= toks[p2c[a]].issuedAt)
  }

  lemma {:induction false} LaterIsYounger(toks: map<Id, RefreshToken>, p2c: map<Id, Id>, f: Chains, latest: int,
                                          r: Id, i: nat, j: nat)
    requires Refines(toks, p2c, f) && TimesGrow(toks, p2c, latest)
    requires r in f && !f[r].dead && i <= j < |f[r].links|
    ensures f[r].links[i].at <= f[r].links[j].at
    decreases j - i
  {
    if i < j {
      assert LinkOk(toks, p2c, f[r], i) && LinkOk(toks, p2c, f[r], i + 1);
      LaterIsYounger(toks, p2c, f, latest, r, i + 1, j);
    }
  }

  // If a replay is accepted, replaying any later revoked token of the chain at the same moment is
  // accepted too, with the same answer, and neither changes the store.
  lemma LaterReplayAccepted(s: State, f: Chains, latest: int, r: Id, i: nat, j: nat, now: int, next: Id)
    requires Refines(s.auth.refreshTokens, s.auth.parentToChild, f)
    requires TimesGrow(s.auth.refreshTokens, s.auth.parentToChild, latest)
    requires forall u | u in s.auth.refreshTokens :: s.auth.refreshTokens[u].userID in s.accounts.users
    requires r in f && i <= j < |f[r].links| - 1
    requires ConsumeRefreshToken(s, f[r].links[i].token, now, next).res.Ok?
    ensures ConsumeRefreshToken(s, f[r].links[j].token, now, next) ==
            ConsumeRefreshToken(s, f[r].links[i].token, now, next)
    ensures ConsumeRefreshToken(s, f[r].links[j].token, now, next).st == s
  {
    var toks, p2c := s.auth.refreshTokens, s.auth.parentToChild;
    assert LinkOk(toks, p2c, f[r], i) && LinkOk(toks, p2c, f[r], j);
    LatestChildOf(toks, p2c, f, r, i);
    LatestChildOf(toks, p2c, f, r, j);
    LaterIsYounger(toks, p2c, f, latest, r, i, j);
  }

  // ---- runs with a clock that never goes back ---------------------------------

  predicate HasClock(op: Op) {
    !op.OpDeleteUser? && !op.OpDeleteFactor? && !op.OpDeletePasskey? && !op.OpReset?
  }

  // The clock's value after an operation that found it at t.
  function Clock(op: Op, t: int): int {
    if op.OpIssueSession? then op.now' else if HasClock(op) then op.now else t
  }

  predicate ReadsFrom(op: Op, t: int) {
    (HasClock(op) ==> t <= op.now) && (op.OpIssueSession? ==> op.now <= op.now')
  }

  function ClockAfter(ops: seq<Op>, t: int): int {
    if ops == [] then t else Clock(ops[|ops| - 1], ClockAfter(ops[..|ops| - 1], t))
  }

  predicate NonDecreasing(ops: seq<Op>, t: int) {
    ops == [] || (NonDecreasing(ops[..|ops| - 1], t) && ReadsFrom(ops[|ops| - 1], ClockAfter(ops[..|ops| - 1], t)))
  }

  lemma LiveHasNoEdge(toks: map<Id, RefreshToken>, p2c: map<Id, Id>, t: Id)
    requires Rotates(toks, p2c) && t in toks
    ensures toks[t].token == t
    ensures !toks[t].revoked ==> t !in p2c
  {
    var f: Chains :| Refines(toks, p2c, f);
    var r: Id, i: int :| Has(f, r, i, t);
    assert LinkOk(toks, p2c, f[r], i);
  }

  lemma RotateTimes(toks: map<Id, RefreshToken>, p2c: map<Id, Id>, t: Id, now: int, next: RefreshToken, latest: int)
    requires TimesGrow(toks, p2c, latest) && latest <= now
    requires t in toks && t !in p2c && !toks[t].revoked && next.token !in toks && next.issuedAt == now
    ensures TimesGrow(toks[t := toks[t].(revoked := true, issuedAt := now)][next.token := next],
                      p2c[t := next.token], now)
  {
  }

  lemma ConsumeTimes(s: State, t: Id, now: int, next: Id, latest: int)
    requires Rotates(s.auth.refreshTokens, s.auth.parentToChild)
    requires TimesGrow(s.auth.refreshTokens, s.auth.parentToChild, latest) && latest <= now
    requires next !in s.auth.refreshTokens
    ensures var u := ConsumeRefreshToken(s, t, now, next).st;
            TimesGrow(u.auth.refreshTokens, u.auth.parentToChild, now)
  {
    TimesLater(s.auth.refreshTokens, s.auth.parentToChild, latest, now);
    if t in s.auth.refreshTokens {
      LiveHasNoEdge(s.auth.refreshTokens, s.auth.parentToChild, t);
      var rt := s.auth.refreshTokens[t];
      if !rt.revoked {
        RotateTimes(s.auth.refreshTokens, s.auth.parentToChild, t, now,
                    RefreshToken(next, rt.userID, rt.sessionID, now, false, t), latest);
      }
    }
    hide FindLatestChild, Rotates, TimesGrow;
  }

  // An edge leads from a token to one whose parent it is.
  lemma EdgesAreParents(toks: map<Id, RefreshToken>, p2c: map<Id, Id>)
    requires Rotates(toks, p2c)
    ensures forall a | a in p2c :: a in toks && p2c[a] in toks && toks[p2c[a]].parent == a && a != ""
  {
    var f: Chains :| Refines(toks, p2c, f);
    forall a | a in p2c ensures a in toks && p2c[a] in toks && toks[p2c[a]].parent == a && a != "" {
      var r: Id, i: int :| Has(f, r, i, a);
      assert LinkOk(toks, p2c, f[r], i) && LinkOk(toks, p2c, f[r], i + 1);
    }
  }

  // Cutting the edges at both ends of a set of tokens leaves no edge into the set.
  lemma CutLeavesNoEdgeInto(toks: map<Id, RefreshToken>, p2c: map<Id, Id>, gone: set<Id>)
    requires Rotates(toks, p2c)
    ensures forall a | a in p2c && a !in Touched(toks, gone) ::
              a in toks && p2c[a] in toks && a !in gone && p2c[a] !in gone
  {
    hide Rotates;
    EdgesAreParents(toks, p2c);
  }

  lemma KillTimes(s: State, sid: Id, now: int, latest: int)
    requires Rotates(s.auth.refreshTokens, s.auth.parentToChild)
    requires TimesGrow(s.auth.refreshTokens, s.auth.parentToChild, latest) && latest <= now
    ensures var u := RevokeRefreshTokensBySession(s, sid, now);
            TimesGrow(u.auth.refreshTokens, u.auth.parentToChild, now)
  {
    CutLeavesNoEdgeInto(s.auth.refreshTokens, s.auth.parentToChild, TokensOfSession(s.auth.refreshTokens, sid));
    hide Rotates, Backdate, Touched;
  }

  lemma DropTimes(s: State, id: Id, latest: int)
    requires Rotates(s.auth.refreshTokens, s.auth.parentToChild)
    requires TimesGrow(s.auth.refreshTokens, s.auth.parentToChild, latest)
    ensures var u := DeleteUser(s, id).st;
            TimesGrow(u.auth.refreshTokens, u.auth.parentToChild, latest)
  {
    CutLeavesNoEdgeInto(s.auth.refreshTokens, s.auth.parentToChild, TokensOfUser(s.auth.refreshTokens, id));
    hide Rotates, Touched;
  }

  lemma IssueTimes(s: State, userID: Id, sid: Id, now: int, tok: Id, latest: int)
    requires TimesGrow(s.auth.refreshTokens, s.auth.parentToChild, latest) && latest <= now
    requires tok !in s.auth.refreshTokens
    ensures var u := IssueRefreshToken(s, userID, sid, now, tok).st;
            TimesGrow(u.auth.refreshTokens, u.auth.parentToChild, now)
  {
  }

  predicate RotatesTokens(op: Op) {
    op.OpIssueRefreshToken? || op.OpIssueSession? || op.OpConsumeRefreshToken? || op.OpRevoke? || op.OpDeleteUser?
        || op.OpReset?
  }

  lemma TokensUntouched(s: State, op: Op)
    requires !RotatesTokens(op)
    ensures var t := Apply(s, op);
            t.auth.refreshTokens == s.auth.refreshTokens && t.auth.parentToChild == s.auth.parentToChild
  {
    hide NewUser, RecomputeProviders, LinkIdentity, IdentityIndex, Without, EmailUser, NameTaken, HasMethod,
        HasProvider;
    hide OAuthEmail, Synthesized, AppendProviderIdentity, Unix;
    hide ConsumeRefreshToken, RevokeRefreshTokensBySession, DeleteUser, IssueSession, IssueRefreshToken;
  }

  lemma TimesLater(toks: map<Id, RefreshToken>, p2c: map<Id, Id>, latest: int, later: int)
    requires TimesGrow(toks, p2c, latest) && latest <= later
    ensures TimesGrow(toks, p2c, later)
  {
  }

  lemma EmptyTimes(s: State, latest: int)
    ensures var t := EmptyState(s.reuseInterval, s.ids);
            TimesGrow(t.auth.refreshTokens, t.auth.parentToChild, latest)
  {
  }

  lemma FreshToken(s: State)
    requires Inv(s)
    ensures forall id | Fresh(s, id) :: id !in s.auth.refreshTokens
    ensures Rotates(s.auth.refreshTokens, s.auth.parentToChild)
  {
  }

  lemma TokenStepTimes(s: State, op: Op, latest: int)
    requires Inv(s) && Enabled(s, op) && ReadsFrom(op, latest) && RotatesTokens(op)
    requires TimesGrow(s.auth.refreshTokens, s.auth.parentToChild, latest)
    ensures var t := Apply(s, op); TimesGrow(t.auth.refreshTokens, t.auth.parentToChild, Clock(op, latest))
  {
    hide CreateUser, SetUserMetadata, UpdateLastSignIn, DeleteUser, AddIdentity, RemoveIdentity, CreateOAuthUser;
    hide CreateAuthCode, ConsumeAuthCode, CreateSession, IssueRefreshToken, IssueSession, ConsumeRefreshToken;
    hide RevokeRefreshTokensBySession, EnrollFactor, VerifyFactor, DeleteFactor, CreateChallenge, ConsumeChallenge;
    hide UpgradeSessionAAL, CreatePasskeyChallenge, ConsumePasskeyChallenge, AddPasskey, DeletePasskey, MarkPasskeyUsed;
    hide Inv, Rotates, Synthesized, TimesGrow, Fresh, EmptyState;
    FreshToken(s);
    match op
    case OpDeleteUser(uid) => DropTimes(s, uid, latest);
    case OpIssueRefreshToken(uid, sid, now, tok) => IssueTimes(s, uid, sid, now, tok, latest);
    case OpIssueSession(uid, m, now, now', sid, tok) => SessionTimes(s, uid, m, now, now', sid, tok, latest);
    case OpConsumeRefreshToken(tok, now, successor) => ConsumeTimes(s, tok, now, successor, latest);
    case OpRevoke(sid, now) => KillTimes(s, sid, now, latest);
    case OpReset => EmptyTimes(s, latest);
  }

  lemma StepTimes(s: State, op: Op, latest: int)
    requires Inv(s) && Enabled(s, op) && ReadsFrom(op, latest)
    requires TimesGrow(s.auth.refreshTokens, s.auth.parentToChild, latest)
    ensures var t := Apply(s, op); TimesGrow(t.auth.refreshTokens, t.auth.parentToChild, Clock(op, latest))
  {
    hide Apply, Enabled, Inv, TimesGrow;
    if RotatesTokens(op) {
      TokenStepTimes(s, op, latest);
    } else {
      TokensUntouched(s, op);
      TimesLater(s.auth.refreshTokens, s.auth.parentToChild, latest, Clock(op, latest));
    }
  }

  lemma SessionTimes(s: State, userID: Id, m: string, now: int, now': int, sid: Id, tok: Id, latest: int)
    requires TimesGrow(s.auth.refreshTokens, s.auth.parentToChild, latest) && latest <= now <= now'
    requires tok !in s.auth.refreshTokens
    ensures var u := IssueSession(s, userID, m, now, now', sid, tok).st;
            TimesGrow(u.auth.refreshTokens, u.auth.parentToChild, now')
  {
    hide Unix;
    IssueTimes(CreateSession(s, userID, m, now, sid).st, userID, sid, now', tok, latest);
  }

  // In every run with a clock that never goes back, rotation times grow along every chain.
  lemma {:induction false} RunTimes(s: State, ops: seq<Op>, start: int)
    requires Inv(s) && RunEnabled(s, ops) && NonDecreasing(ops, start)
    requires TimesGrow(s.auth.refreshTokens, s.auth.parentToChild, start)
    ensures var t := Run(s, ops); TimesGrow(t.auth.refreshTokens, t.auth.parentToChild, ClockAfter(ops, start))
  {
    hide Inv, Apply, Enabled, TimesGrow, ReadsFrom, Clock;
    if ops != [] {
      var n := |ops| - 1;
      RunTimes(s, ops[..n], start);
      RunInv(s, ops[..n]);
      StepTimes(Run(s, ops[..n]), ops[n], ClockAfter(ops[..n], start));
    }
  }

  lemma OwnersExist(s: State)
    requires Inv(s)
    ensures forall u | u in s.auth.refreshTokens :: s.auth.refreshTokens[u].userID in s.accounts.users
  {
    assert TokensOk(s.auth.refreshTokens, s.accounts.users.Keys);
    hide Rotates, LowerEntries;
  }

  // In every run with a clock that never goes back: if replaying a token is accepted, replaying any later
  // revoked token of its chain at the same moment gives the same answer, and neither changes the store.
  lemma RunLaterReplay(s: State, ops: seq<Op>, start: int, f: Chains, r: Id, i: nat, j: nat, now: int, next: Id)
    requires Inv(s) && RunEnabled(s, ops) && NonDecreasing(ops, start)
    requires TimesGrow(s.auth.refreshTokens, s.auth.parentToChild, start)
    requires Refines(Run(s, ops).auth.refreshTokens, Run(s, ops).auth.parentToChild, f)
    requires r in f && i <= j < |f[r].links| - 1
    requires ConsumeRefreshToken(Run(s, ops), f[r].links[i].token, now, next).res.Ok?
    ensures ConsumeRefreshToken(Run(s, ops), f[r].links[j].token, now, next) ==
              ConsumeRefreshToken(Run(s, ops), f[r].links[i].token, now, next)
    ensures ConsumeRefreshToken(Run(s, ops), f[r].links[j].token, now, next).st == Run(s, ops)
  {
    hide Inv, Run, RunEnabled, NonDecreasing, ClockAfter, TimesGrow, Refines, ConsumeRefreshToken;
    RunInv(s, ops);
    RunTimes(s, ops, start);
    OwnersExist(Run(s, ops));
    LaterReplayAccepted(Run(s, ops), f, ClockAfter(ops, start), r, i, j, now, next);
  }

  // The empty store may start such a run at any time.
  lemma EmptyStoreStarts(reuseInterval: int, start: int)
    ensures var s := EmptyState(reuseInterval, Ids({}));
            Inv(s) && TimesGrow(s.auth.refreshTokens, s.auth.parentToChild, start)
  {
    EmptyInv(reuseInterval, Ids({}));
    hide Inv;
  }
}

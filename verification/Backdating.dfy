// What backdating alone does for logout, without the cut edges: the time logout writes on a session's tokens,
// in Go's 64-bit durations.
module Backdating {
  import opened Model
  import opened Words
  import opened Ops
  import opened Forest
  import opened Integrity
  import opened Invariant
  import opened Rotation
  import opened Requests
  import opened Effects
  import opened Runs
  import opened Sessions
  import opened Permanence

  // ---- the stamp --------------------------------------------------------------

  // A reuse window to which one second can be added and the sum negated within 64 bits.
  predicate WindowFits(window: int) {
    Int64(window) && window + SECOND <= TWO63
  }

  // The stamp lies outside the window exactly when the window leaves room for the second.
  lemma StampOutsideIff(window: int, now: int)
    requires Int64(window)
    ensures Since(now, Backdate(window, now)) > window <==> WindowFits(window)
  {
    assert Wrap(window + SECOND) == if window + SECOND < TWO63 then window + SECOND else window + SECOND - TWO64;
  }

  // The flag -refresh-reuse-interval=2562047h47m16s leaves none: the stamp then lies in the future.
  lemma LongWindowWraps(now: int)
    ensures var window := (2562047 * 3600 + 47 * 60 + 16) * SECOND;
            && Int64(window) && !WindowFits(window)
            && Backdate(window, now) > now && Since(now, Backdate(window, now)) <= window
  {
    StampOutsideIff((2562047 * 3600 + 47 * 60 + 16) * SECOND, now);
  }

  // ---- one logout -------------------------------------------------------------

  // The session is gone and its tokens' times lie outside the reuse window of the latest clock
  // reading. Nothing here speaks of edges.
  ghost predicate Expired(s: State, sid: Id, latest: int) {
    && sid in s.ids.used && sid !in s.auth.sessions
    && forall t | t in s.auth.refreshTokens && s.auth.refreshTokens[t].sessionID == sid ::
         s.auth.refreshTokens[t].revoked && Since(latest, s.auth.refreshTokens[t].issuedAt) > s.reuseInterval
  }

  // With any edges whatsoever in the index, an expired token is refused from then on.
  lemma BackdatingRefuses(s: State, edges: map<Id, Id>, token: Id, now: int, next: Id, sid: Id, latest: int)
    requires Expired(s, sid, latest) && latest <= now
    requires token in s.auth.refreshTokens && s.auth.refreshTokens[token].sessionID == sid
    ensures ConsumeRefreshToken(s.(auth := s.auth.(parentToChild := edges)), token, now, next).res.Err?
  {
    hide FindLatestChild;
  }

  // Logout puts the session's tokens outside the window exactly when the window fits, if there are any.
  lemma CutExpires(s: State, sid: Id, now: int)
    requires sid in s.ids.used && Int64(s.reuseInterval)
    ensures Expired(RevokeRefreshTokensBySession(s, sid, now), sid, now) <==>
              WindowFits(s.reuseInterval) || TokensOfSession(s.auth.refreshTokens, sid) == {}
  {
    hide Touched, Backdate;
    StampOutsideIff(s.reuseInterval, now);
    var toks, mine := s.auth.refreshTokens, TokensOfSession(s.auth.refreshTokens, sid);
    var t := RevokeRefreshTokensBySession(s, sid, now);
    forall k | k in t.auth.refreshTokens && t.auth.refreshTokens[k].sessionID == sid
      ensures k in mine
      ensures t.auth.refreshTokens[k] == toks[k].(revoked := true, issuedAt := Backdate(s.reuseInterval, now))
    {
    }
    if k :| k in mine {
      assert t.auth.refreshTokens[k].sessionID == sid;
    }
  }

  // Right after a logout the stamp alone, whatever edges the index holds, refuses the session's tokens
  // exactly when the window fits.
  lemma BackdatingAloneIff(s: State, sid: Id, now: int, token: Id, live: Id, next: Id)
    requires Inv(s) && Int64(s.reuseInterval)
    requires token in s.auth.refreshTokens && s.auth.refreshTokens[token].sessionID == sid
    requires live in s.auth.refreshTokens && s.auth.refreshTokens[live].sessionID != sid
    requires !s.auth.refreshTokens[live].revoked
    ensures var t := RevokeRefreshTokensBySession(s, sid, now);
            (forall edges: map<Id, Id> ::
              ConsumeRefreshToken(t.(auth := t.auth.(parentToChild := edges)), token, now, next).res.Err?)
            <==> WindowFits(s.reuseInterval)
  {
    hide Inv, Touched, Backdate;
    StampOutsideIff(s.reuseInterval, now);
    TokenKeyed(s, token);
    var t := RevokeRefreshTokensBySession(s, sid, now);
    var past := Backdate(s.reuseInterval, now);
    var rt := t.auth.refreshTokens[token];
    assert rt.revoked && rt.issuedAt == past && rt.token == token && rt.userID in t.accounts.users;
    var edges: map<Id, Id> := map[token := live];
    assert Walk(edges, t.auth.refreshTokens, token, {token}) == Leaf(t.auth.refreshTokens[live]);
    var u := t.(auth := t.auth.(parentToChild := edges));
    assert FindLatestChild(u.auth.parentToChild, u.auth.refreshTokens, token) == Some(t.auth.refreshTokens[live]);
    assert ConsumeRefreshToken(u, token, now, next).res.Err? <==> WindowFits(s.reuseInterval);
  }

  // ---- runs -------------------------------------------------------------------

  // The request's clock readings lie between two times.
  ghost predicate Between(env: Env, from: int, upto: int) {
    from <= upto && forall i: nat :: from <= env.clk(i) <= upto
  }

  lemma ExpiredAfterIssue(s: State, t: State, tok: Id, rt: RefreshToken, sid: Id, latest: int)
    requires Expired(s, sid, latest) && rt.sessionID != sid && s.ids.used <= t.ids.used
             && t.reuseInterval == s.reuseInterval
    requires t.auth.refreshTokens == s.auth.refreshTokens[tok := rt] && sid !in t.auth.sessions
    ensures Expired(t, sid, latest)
  {
  }

  lemma ExpiredAfterCut(sys: Sys, r: Reply, e: Effect, sid: Id, latest: int)
    requires Expired(sys.store, sid, latest) && HasEffect(sys, r, e) && (e.Calm? || e.Cut? || e.Erase? || e.Wipe?)
    requires e.Cut? ==> e.now <= latest
    requires WindowFits(sys.store.reuseInterval)
    ensures Expired(r.sys.store, sid, latest)
  {
    if e.Cut? {
      StampOutsideIff(sys.store.reuseInterval, e.now);
      StampLater(sys.store.reuseInterval, e.now, latest);
    }
    hide Touched, Backdate;
  }

  lemma StampLater(window: int, now: int, later: int)
    requires now <= later
    ensures Since(now, Backdate(window, now)) <= Since(later, Backdate(window, now))
  {
  }

  lemma ExpiredLater(s: State, sid: Id, latest: int, later: int)
    requires Expired(s, sid, latest) && latest <= later
    ensures Expired(s, sid, later)
  {
  }

  lemma ExpiredAfterRotated(s: State, t: State, consumed: Id, now: int, rt: RefreshToken, sid: Id, latest: int)
    requires Expired(s, sid, latest) && Rotated(s, t, consumed, now, rt)
    ensures Expired(t, sid, latest)
  {
  }

  lemma ExpiredAfter(sys: Sys, r: Reply, e: Effect, sid: Id, latest: int)
    requires Inv(sys.store) && HasEffect(sys, r, e) && Expired(sys.store, sid, latest) && (e.Cut? ==> e.now <= latest)
    requires WindowFits(sys.store.reuseInterval)
    ensures Expired(r.sys.store, sid, latest)
  {
    hide Inv, Rotates, Answers, IssueSession, IssueRefreshToken, UpgradeSessionAAL, ConsumeRefreshToken;
    hide RaisedSession, RevokeRefreshTokensBySession, DeleteUser, Unix;
    UsersUsed(sys.store);
    match e
    case Login(mid, uid, m, now, now', sid', tok) =>
      LoginStore(mid, uid, m, now, now', sid', tok);
      ExpiredAfterIssue(sys.store, r.sys.store, tok, RefreshToken(tok, uid, sid', now', false, ""), sid, latest);
    case Rotate(t, now, next) =>
      ConsumeCases(sys.store, t, now, next);
      var out := ConsumeRefreshToken(sys.store, t, now, next);
      if out.res.Ok? && out.st != sys.store {
        ExpiredAfterRotated(sys.store, out.st, t, now, out.res.value.0, sid, latest);
      }
    case Raise(mid, c, fid, cid, now, now', tok) =>
      RaiseStore(mid, c.sub, c.sid, now, now', tok);
      ExpiredAfterIssue(sys.store, r.sys.store, tok, RefreshToken(tok, c.sub, c.sid, now', false, ""), sid, latest);
    case _ => ExpiredAfterCut(sys, r, e, sid, latest);
  }

  // One request whose clock does not go back keeps the session's tokens expired.
  lemma StaysExpired(sys: Sys, req: Request, env: Env, sid: Id, latest: int, upto: int)
    requires Good(sys) && Possible(sys, req, env) && Expired(sys.store, sid, latest) && Between(env, latest, upto)
    requires WindowFits(sys.store.reuseInterval)
    ensures Expired(Step(sys, req, env).sys.store, sid, upto)
  {
    hide Good, Inv, Step, Possible, HasEffect, Expired, WindowFits;
    GoodInv(sys);
    var e := StepGood(sys, req, env);
    ExpiredLater(sys.store, sid, latest, upto);
    ExpiredAfter(sys, Step(sys, req, env), e, sid, upto);
  }

  // The window is a constant of the service.
  lemma {:induction false} RunKeepsWindow(s: State, ops: seq<Op>)
    ensures Run(s, ops).reuseInterval == s.reuseInterval
  {
    hide Apply;
    if ops != [] {
      RunKeepsWindow(s, ops[..|ops| - 1]);
      IntervalConstant(Run(s, ops[..|ops| - 1]), ops[|ops| - 1]);
    }
  }

  lemma {:induction false} ServeKeepsWindow(sys: Sys, evs: seq<Event>)
    requires Served(sys, evs)
    ensures Serve(sys, evs).store.reuseInterval == sys.store.reuseInterval
  {
    hide Step, EnvOk, BearerOk, Run, RunEnabled;
    if evs != [] {
      var n := |evs| - 1;
      var before := Serve(sys, evs[..n]);
      ServeKeepsWindow(sys, evs[..n]);
      RequestIsRun(before, evs[n].req, evs[n].env);
      RunKeepsWindow(before.store, Step(before, evs[n].req, evs[n].env).ops);
    }
  }

  // The k-th request of the run reads the clock between times[k] and times[k + 1].
  ghost predicate ClockNeverBack(evs: seq<Event>, times: seq<int>) {
    |times| == |evs| + 1 && forall k | 0 <= k < |evs| :: Between(evs[k].env, times[k], times[k + 1])
  }

  lemma {:induction false} StaysExpiredForever(sys: Sys, evs: seq<Event>, times: seq<int>, sid: Id)
    requires Good(sys) && Served(sys, evs) && ClockNeverBack(evs, times) && Expired(sys.store, sid, times[0])
    requires WindowFits(sys.store.reuseInterval)
    ensures Expired(Serve(sys, evs).store, sid, times[|evs|])
  {
    hide Good, Step, Possible, Expired, WindowFits;
    if evs != [] {
      var n := |evs| - 1;
      StaysExpiredForever(sys, evs[..n], times[..n + 1], sid);
      ServeGood(sys, evs[..n]);
      ServeKeepsWindow(sys, evs[..n]);
      StaysExpired(Serve(sys, evs[..n]), evs[n].req, evs[n].env, sid, times[n], times[n + 1]);
    }
  }

  // Just after an accepted logout, with a window that fits, the session's tokens are expired.
  lemma LogoutExpires(sys: Sys, req: Request, env: Env, sid: Id, latest: int, upto: int)
    requires Good(sys) && Possible(sys, req, env) && req.Logout? && LoggedOut(sys, req) == Some(sid)
    requires WindowFits(sys.store.reuseInterval) && Between(env, latest, upto)
    ensures Expired(Step(sys, req, env).sys.store, sid, upto)
  {
    hide Good, Inv, Ownership, Step, Expired, RevokeRefreshTokensBySession;
    var e := StepGood(sys, req, env);
    GoodInv(sys);
    CallerOwns(sys, req.bearer.claims);
    CutExpires(sys.store, sid, env.clk(0));
    ExpiredLater(RevokeRefreshTokensBySession(sys.store, sid, env.clk(0)), sid, env.clk(0), upto);
  }

  // With a clock that never goes back and a window that fits, backdating alone keeps the tokens of a session
  // that request k logged out refused: after any further requests, and whatever edges the index holds.
  lemma BackdatingIsEnough(sys: Sys, evs: seq<Event>, times: seq<int>, k: nat, sid: Id, token: Id,
                           edges: map<Id, Id>, now: int, next: Id)
    requires Good(sys) && Served(sys, evs) && ClockNeverBack(evs, times) && WindowFits(sys.store.reuseInterval)
    requires k < |evs| && evs[k].req.Logout? && LoggedOut(Serve(sys, evs[..k]), evs[k].req) == Some(sid)
    requires token in Serve(sys, evs).store.auth.refreshTokens
    requires Serve(sys, evs).store.auth.refreshTokens[token].sessionID == sid
    requires times[|evs|] <= now
    ensures var s := Serve(sys, evs).store;
            ConsumeRefreshToken(s.(auth := s.auth.(parentToChild := edges)), token, now, next).res.Err?
  {
    hide Good, Step, Possible, LoggedOut, Expired, ConsumeRefreshToken, WindowFits, Between, Serve, Served;
    var after := Serve(sys, evs[..k + 1]);
    ServedPrefix(sys, evs, k);
    ServeGood(sys, evs[..k]);
    ServedPrefix(sys, evs, k + 1);
    ServeGood(sys, evs[..k + 1]);
    ServeKeepsWindow(sys, evs[..k]);
    LogoutExpires(Serve(sys, evs[..k]), evs[k].req, evs[k].env, sid, times[k], times[k + 1]);
    var tail := evs[k + 1..];
    assert evs == evs[..k + 1] + tail;
    ServeConcat(sys, evs[..k + 1], tail);
    ServeKeepsWindow(sys, evs[..k + 1]);
    StaysExpiredForever(after, tail, times[k + 1..], sid);
    BackdatingRefuses(Serve(sys, evs).store, edges, token, now, next, sid, times[|evs|]);
  }
}

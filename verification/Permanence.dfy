// A logged-out session stays logged out, in every run and for every clock.
module Permanence {
  import opened Model
  import opened Ops
  import opened Forest
  import opened Integrity
  import opened Invariant
  import opened Requests
  import opened Effects
  import opened Sessions

  // The session is gone, and its tokens are revoked with their edges cut. Nothing here speaks of time.
  ghost predicate Dead(auth: Auth, used: set<Id>, sid: Id) {
    && sid in used && sid !in auth.sessions
    && forall t | t in auth.refreshTokens && auth.refreshTokens[t].sessionID == sid ::
         auth.refreshTokens[t].revoked && t !in auth.parentToChild
  }

  lemma CutKills(s: State, sid: Id, now: int)
    requires sid in s.ids.used
    ensures var t := RevokeRefreshTokensBySession(s, sid, now); Dead(t.auth, t.ids.used, sid)
  {
    hide Backdate;
  }

  // A revoked token without an edge is refused, whatever the clock says.
  lemma NoEdgeNoRefresh(s: State, token: Id, now: int, next: Id, sid: Id)
    requires Dead(s.auth, s.ids.used, sid) && UsersOk(s.accounts.users)
    requires token in s.auth.refreshTokens && s.auth.refreshTokens[token].sessionID == sid
    requires s.auth.refreshTokens[token].token == token
    ensures ConsumeRefreshToken(s, token, now, next).res.Err?
  {
  }

  lemma DeadCalm(sys: Sys, r: Reply, sid: Id)
    requires Dead(sys.store.auth, sys.store.ids.used, sid) && HasEffect(sys, r, Calm)
    ensures Dead(r.sys.store.auth, r.sys.store.ids.used, sid) && !r.resp.Token?
  {
  }

  lemma DeadLogin(sys: Sys, r: Reply, e: Effect, sid: Id)
    requires Dead(sys.store.auth, sys.store.ids.used, sid) && HasEffect(sys, r, e) && e.Login?
    ensures Dead(r.sys.store.auth, r.sys.store.ids.used, sid) && r.resp.tr.claims.sid != sid
  {
    hide Unix, SessionAAL, SessionAMR;
    LoginStore(e.mid, e.uid, e.amrMethod, e.now, e.now', e.sid, e.tok);
    hide IssueSession;
  }

  lemma DeadRaise(sys: Sys, r: Reply, e: Effect, sid: Id)
    requires Dead(sys.store.auth, sys.store.ids.used, sid) && HasEffect(sys, r, e) && e.Raise?
    ensures Dead(r.sys.store.auth, r.sys.store.ids.used, sid) && r.resp.tr.claims.sid != sid
  {
    hide SessionAAL, SessionAMR;
    RaiseStore(e.mid, e.caller.sub, e.caller.sid, e.now, e.now', e.tok);
    hide UpgradeSessionAAL, IssueRefreshToken, RaisedSession;
  }

  lemma DeadRotate(sys: Sys, r: Reply, e: Effect, sid: Id)
    requires Inv(sys.store) && Dead(sys.store.auth, sys.store.ids.used, sid) && HasEffect(sys, r, e) && e.Rotate?
    ensures Dead(r.sys.store.auth, r.sys.store.ids.used, sid)
    ensures r.resp.Token? ==> r.resp.tr.claims.sid != sid
    ensures e.token in sys.store.auth.refreshTokens && sys.store.auth.refreshTokens[e.token].sessionID == sid
            ==> !r.resp.Token?
  {
    hide Inv, SessionAAL, SessionAMR, Rotates, ConsumeRefreshToken;
    UsersUsed(sys.store);
    ConsumeCases(sys.store, e.token, e.now, e.next);
    ConsumeKeepsOwner(sys.store, e.token, e.now, e.next);
    if e.token in sys.store.auth.refreshTokens && sys.store.auth.refreshTokens[e.token].sessionID == sid {
      TokenKeyed(sys.store, e.token);
      NoEdgeNoRefresh(sys.store, e.token, e.now, e.next, sid);
    }
  }

  lemma DeadCut(sys: Sys, r: Reply, e: Effect, sid: Id)
    requires Dead(sys.store.auth, sys.store.ids.used, sid) && HasEffect(sys, r, e) && (e.Cut? || e.Erase? || e.Wipe?)
    ensures Dead(r.sys.store.auth, r.sys.store.ids.used, sid) && !r.resp.Token?
  {
    hide Touched, Backdate;
  }

  // The request presents a refresh token of the session.
  ghost predicate Presents(s: State, req: Request, sid: Id) {
    req.RefreshGrant? && req.token in s.auth.refreshTokens && s.auth.refreshTokens[req.token].sessionID == sid
  }

  // One request, any clock: the session stays dead and no answer names it.
  lemma DeadStays(sys: Sys, req: Request, env: Env, sid: Id)
    requires Good(sys) && Possible(sys, req, env) && Dead(sys.store.auth, sys.store.ids.used, sid)
    ensures var r := Step(sys, req, env);
            && Dead(r.sys.store.auth, r.sys.store.ids.used, sid)
            && (r.resp.Token? ==> r.resp.tr.claims.sid != sid)
            && (Presents(sys.store, req, sid) ==> !r.resp.Token?)
  {
    hide Good, Inv, Ownership, Step, HasEffect, Possible, Dead, EnvOk;
    var r := Step(sys, req, env);
    var e := StepGood(sys, req, env);
    GoodInv(sys);
    match e
    case Calm => DeadCalm(sys, r, sid);
    case Login(_, _, _, _, _, _, _) => DeadLogin(sys, r, e, sid);
    case Rotate(_, _, _) => DeadRotate(sys, r, e, sid);
    case Raise(_, _, _, _, _, _, _) => DeadRaise(sys, r, e, sid);
    case _ => DeadCut(sys, r, e, sid);
  }

  // A refresh token never moves to another session.
  ghost predicate BelongsTo(s: State, token: Id, sid: Id) {
    token in s.ids.used && (token in s.auth.refreshTokens ==> s.auth.refreshTokens[token].sessionID == sid)
  }

  lemma BelongsAfterIssue(s: State, t: State, tok: Id, rt: RefreshToken, token: Id, sid: Id)
    requires BelongsTo(s, token, sid) && tok !in s.ids.used && s.ids.used <= t.ids.used
    requires t.auth.refreshTokens == s.auth.refreshTokens[tok := rt]
    ensures BelongsTo(t, token, sid)
  {
  }

  lemma BelongsAfterConsume(s: State, t: State, consumed: Id, now: int, rt: RefreshToken, token: Id, sid: Id)
    requires BelongsTo(s, token, sid) && rt.token !in s.ids.used
    requires Replayed(s, t, rt) || Rotated(s, t, consumed, now, rt)
    ensures BelongsTo(t, token, sid)
  {
  }

  lemma BelongsAfterCut(sys: Sys, r: Reply, e: Effect, token: Id, sid: Id)
    requires BelongsTo(sys.store, token, sid) && HasEffect(sys, r, e) && (e.Calm? || e.Cut? || e.Erase? || e.Wipe?)
    ensures BelongsTo(r.sys.store, token, sid)
  {
    hide Backdate, Touched;
  }

  lemma BelongsAfter(sys: Sys, r: Reply, e: Effect, token: Id, sid: Id)
    requires Inv(sys.store) && HasEffect(sys, r, e) && BelongsTo(sys.store, token, sid)
    ensures BelongsTo(r.sys.store, token, sid)
  {
    hide Inv, BelongsTo, Rotates, Answers, IssueSession, IssueRefreshToken, UpgradeSessionAAL, ConsumeRefreshToken;
    hide RaisedSession, RevokeRefreshTokensBySession, DeleteUser, Unix;
    UsersUsed(sys.store);
    match e
    case Login(mid, uid, m, now, now', sid', tok) =>
      LoginStore(mid, uid, m, now, now', sid', tok);
      BelongsAfterIssue(sys.store, r.sys.store, tok, RefreshToken(tok, uid, sid', now', false, ""), token, sid);
    case Rotate(t, now, next) =>
      ConsumeCases(sys.store, t, now, next);
      var out := ConsumeRefreshToken(sys.store, t, now, next);
      if out.res.Ok? && out.st != sys.store {
        BelongsAfterConsume(sys.store, out.st, t, now, out.res.value.0, token, sid);
      }
    case Raise(mid, c, fid, cid, now, now', tok) =>
      RaiseStore(mid, c.sub, c.sid, now, now', tok);
      BelongsAfterIssue(sys.store, r.sys.store, tok, RefreshToken(tok, c.sub, c.sid, now', false, ""), token, sid);
    case _ => BelongsAfterCut(sys, r, e, token, sid);
  }

  lemma StillBelongs(sys: Sys, req: Request, env: Env, token: Id, sid: Id)
    requires Good(sys) && Possible(sys, req, env) && BelongsTo(sys.store, token, sid)
    ensures BelongsTo(Step(sys, req, env).sys.store, token, sid)
  {
    hide Good, Inv, Step, Possible, EffectFits, HasEffect, BelongsTo;
    GoodInv(sys);
    var e := StepGood(sys, req, env);
    BelongsAfter(sys, Step(sys, req, env), e, token, sid);
  }

  // ---- runs -------------------------------------------------------------------

  lemma {:induction false} StaysDead(sys: Sys, evs: seq<Event>, sid: Id)
    requires Good(sys) && Served(sys, evs) && Dead(sys.store.auth, sys.store.ids.used, sid)
    ensures var t := Serve(sys, evs).store; Dead(t.auth, t.ids.used, sid)
  {
    hide Good, Step, Possible, Dead;
    if evs != [] {
      var n := |evs| - 1;
      StaysDead(sys, evs[..n], sid);
      ServeGood(sys, evs[..n]);
      DeadStays(Serve(sys, evs[..n]), evs[n].req, evs[n].env, sid);
    }
  }

  lemma {:induction false} KeepsBelonging(sys: Sys, evs: seq<Event>, token: Id, sid: Id)
    requires Good(sys) && Served(sys, evs) && BelongsTo(sys.store, token, sid)
    ensures BelongsTo(Serve(sys, evs).store, token, sid)
  {
    hide Good, Step, Possible, BelongsTo;
    if evs != [] {
      var n := |evs| - 1;
      KeepsBelonging(sys, evs[..n], token, sid);
      ServeGood(sys, evs[..n]);
      StillBelongs(Serve(sys, evs[..n]), evs[n].req, evs[n].env, token, sid);
    }
  }

  lemma {:induction false} ServeConcat(sys: Sys, a: seq<Event>, b: seq<Event>)
    ensures Serve(sys, a + b) == Serve(Serve(sys, a), b)
    ensures Served(sys, a + b) <==> Served(sys, a) && Served(Serve(sys, a), b)
  {
    hide Step, Possible;
    if b == [] {
      assert a + b == a;
    } else {
      var n := |b| - 1;
      assert (a + b)[..|a + b| - 1] == a + b[..n];
      ServeConcat(sys, a, b[..n]);
    }
  }

  // Just after an accepted logout the session is dead.
  lemma LogoutKills(sys: Sys, req: Request, env: Env, sid: Id)
    requires Good(sys) && Possible(sys, req, env) && req.Logout? && LoggedOut(sys, req) == Some(sid)
    ensures var t := Step(sys, req, env).sys.store; Dead(t.auth, t.ids.used, sid)
  {
    var e := StepGood(sys, req, env);
    GoodInv(sys);
    CallerOwns(sys, req.bearer.claims);
    CutKills(sys.store, sid, env.clk(0));
    hide Good, Inv, Ownership, Step, Dead, RevokeRefreshTokensBySession;
  }

  // Once request k of a run logged a session out, no later request is answered with a token
  // response naming it, and none of the session's refresh tokens is accepted again. The clock
  // readings of the run are arbitrary.
  lemma LogoutIsPermanent(sys: Sys, evs: seq<Event>, k: nat, j: nat, sid: Id, token: Id)
    requires Good(sys) && Served(sys, evs) && k < j < |evs|
    requires evs[k].req.Logout? && LoggedOut(Serve(sys, evs[..k]), evs[k].req) == Some(sid)
    ensures var r := ReplyAt(sys, evs, j); r.resp.Token? ==> r.resp.tr.claims.sid != sid
    ensures BelongsTo(Serve(sys, evs[..k]).store, token, sid) && evs[j].req == RefreshGrant(token) ==>
              !ReplyAt(sys, evs, j).resp.Token?
  {
    hide Good, Step, Possible, Dead, LoggedOut, BelongsTo, Serve, Served;
    var before := Serve(sys, evs[..k]);
    var after := Serve(sys, evs[..k + 1]);
    ServedPrefix(sys, evs, k);
    ServedPrefix(sys, evs, k + 1);
    ServeGood(sys, evs[..k]);
    ServeGood(sys, evs[..k + 1]);
    LogoutKills(before, evs[k].req, evs[k].env, sid);
    var tail := evs[k + 1..j];
    assert evs[..j] == evs[..k + 1] + tail;
    ServedPrefix(sys, evs, j);
    ServeConcat(sys, evs[..k + 1], tail);
    StaysDead(after, tail, sid);
    ServeGood(after, tail);
    DeadStays(Serve(sys, evs[..j]), evs[j].req, evs[j].env, sid);
    if BelongsTo(before.store, token, sid) && evs[j].req == RefreshGrant(token) {
      StillBelongs(before, evs[k].req, evs[k].env, token, sid);
      KeepsBelonging(after, tail, token, sid);
      UnknownRefused(Serve(sys, evs[..j]), evs[j].req, evs[j].env, token, sid);
    }
  }

  lemma UnknownRefused(sys: Sys, req: Request, env: Env, token: Id, sid: Id)
    requires req == RefreshGrant(token) && BelongsTo(sys.store, token, sid)
    requires token in sys.store.auth.refreshTokens && sys.store.auth.refreshTokens[token].sessionID == sid ==>
               !Step(sys, req, env).resp.Token?
    ensures !Step(sys, req, env).resp.Token?
  {
    if token !in sys.store.auth.refreshTokens {
      UnknownToken(sys, token, env);
      hide RefreshGrantStep;
    }
    hide Step;
  }

  lemma UnknownToken(sys: Sys, token: Id, env: Env)
    requires token !in sys.store.auth.refreshTokens
    ensures !RefreshGrantStep(sys, token, env).resp.Token?
  {
    hide FindLatestChild;
  }
}

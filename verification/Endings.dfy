// How a session ends, and how a live refresh token stops being live: by what, and by nothing else.
module Endings {
  import opened Text
  import opened Model
  import opened Ops
  import opened Forest
  import opened Integrity
  import opened Invariant
  import opened Requests
  import opened Effects
  import opened Sessions

  // The request ends the session: a logout of it, the deletion of its user, or a reset.
  ghost predicate Ends(sys: Sys, req: Request, sid: Id) {
    || (req.Logout? && LoggedOut(sys, req) == Some(sid))
    || (req.AdminDeleteUser? && sid in sys.store.auth.sessions && sys.store.auth.sessions[sid].userID == req.id)
    || req.Reset?
  }

  ghost predicate LiveIn(s: State, t: Id) {
    t in s.auth.refreshTokens && !s.auth.refreshTokens[t].revoked
  }

  // The effect ends the session `sid` of user `uid`.
  ghost predicate EffectEnds(e: Effect, sid: Id, uid: Id) {
    (e.Cut? && e.caller.sid == sid) || (e.Erase? && e.uid == uid) || e.Wipe?
  }

  // ---- sessions ---------------------------------------------------------------

  lemma EffectEndsSessionIff(sys: Sys, r: Reply, e: Effect, sid: Id)
    requires Inv(sys.store) && HasEffect(sys, r, e) && sid in sys.store.auth.sessions
    ensures sid !in r.sys.store.auth.sessions <==> EffectEnds(e, sid, sys.store.auth.sessions[sid].userID)
  {
    hide Inv, Rotates, Answers, IssueSession, IssueRefreshToken, UpgradeSessionAAL, RaisedSession, Unix, OwnsFactor;
    hide ConsumeRefreshToken, Touched, TokensOfUser, TokensOfSession, ChallengeOfUser, Backdate, Fresh, Lower;
    UsersUsed(sys.store);
    SessionKeyed(sys.store, sid);
    match e
    case Login(mid, uid, m, now, now', s, tok) => LoginStore(mid, uid, m, now, now', s, tok);
    case Raise(mid, c, _, _, now, now', tok) => RaiseStore(mid, c.sub, c.sid, now, now', tok);
    case Rotate(t, now, next) => ConsumeCases(sys.store, t, now, next);
    case _ =>
  }

  lemma EndsMeans(sys: Sys, req: Request, env: Env, e: Effect, sid: Id)
    requires EffectFits(sys, req, env, e) && sid in sys.store.auth.sessions && sys.store.auth.sessions[sid].userID != ""
    ensures Ends(sys, req, sid) <==> EffectEnds(e, sid, sys.store.auth.sessions[sid].userID)
  {
  }

  // A session disappears with a request exactly when the request ends it.
  lemma StepEndsSessionIff(sys: Sys, req: Request, env: Env, sid: Id)
    requires Good(sys) && Possible(sys, req, env) && sid in sys.store.auth.sessions
    ensures sid !in Step(sys, req, env).sys.store.auth.sessions <==> Ends(sys, req, sid)
  {
    hide Good, Inv, Step, Possible, HasEffect, EffectFits, EffectEnds, Ends;
    var e := StepGood(sys, req, env);
    GoodInv(sys);
    UsersUsed(sys.store);
    SessionKeyed(sys.store, sid);
    EffectEndsSessionIff(sys, Step(sys, req, env), e, sid);
    EndsMeans(sys, req, env, e, sid);
  }

  // ---- live tokens ------------------------------------------------------------

  // A live token of an existing user is always rotated.
  lemma LiveConsumed(s: State, t: Id, now: int, next: Id)
    requires Inv(s)
    ensures LiveIn(s, t) ==> ConsumeRefreshToken(s, t, now, next).res.Ok?
  {
    hide Inv, FindLatestChild;
    if t in s.auth.refreshTokens {
      TokenKeyed(s, t);
    }
  }

  lemma RotateEndsTokenIff(s: State, presented: Id, now: int, next: Id, t: Id)
    requires Inv(s) && Fresh(s, next) && LiveIn(s, t)
    ensures !LiveIn(ConsumeRefreshToken(s, presented, now, next).st, t) <==> t == presented
  {
    hide Inv, Rotates, ConsumeRefreshToken;
    UsersUsed(s);
    ConsumeCases(s, presented, now, next);
    LiveConsumed(s, presented, now, next);
  }

  lemma EffectEndsTokenIff(sys: Sys, r: Reply, e: Effect, t: Id, sid: Id, uid: Id)
    requires Inv(sys.store) && HasEffect(sys, r, e) && LiveIn(sys.store, t)
    requires sys.store.auth.refreshTokens[t].sessionID == sid && sys.store.auth.refreshTokens[t].userID == uid
    requires uid in sys.store.accounts.users
    ensures !LiveIn(r.sys.store, t) <==> EffectEnds(e, sid, uid) || (e.Rotate? && e.token == t)
  {
    hide Inv, Rotates, Answers, IssueSession, IssueRefreshToken, UpgradeSessionAAL, RaisedSession, Unix, OwnsFactor;
    hide ConsumeRefreshToken, Touched, TokensOfUser, TokensOfSession, ChallengeOfUser, Backdate, Lower;
    UsersUsed(sys.store);
    match e
    case Login(mid, u, m, now, now', s, tok) => LoginStore(mid, u, m, now, now', s, tok);
    case Raise(mid, c, _, _, now, now', tok) => RaiseStore(mid, c.sub, c.sid, now, now', tok);
    case Rotate(presented, now, next) => RotateEndsTokenIff(sys.store, presented, now, next, t);
    case _ =>
  }

  // A live token stops being live with a request exactly when the request presents it or ends its session,
  // which exists as long as the token is live.
  lemma StepEndsTokenIff(sys: Sys, req: Request, env: Env, t: Id)
    requires Good(sys) && Possible(sys, req, env) && LiveIn(sys.store, t)
    ensures var sid := sys.store.auth.refreshTokens[t].sessionID;
            && sid in sys.store.auth.sessions
            && (!LiveIn(Step(sys, req, env).sys.store, t) <==> Ends(sys, req, sid) || req == RefreshGrant(t))
  {
    hide Good, Inv, Ownership, Step, Possible, HasEffect, EffectFits, EffectEnds, Ends;
    var e := StepGood(sys, req, env);
    GoodInv(sys);
    UsersUsed(sys.store);
    TokenKeyed(sys.store, t);
    var rt := sys.store.auth.refreshTokens[t];
    TokenOwner(sys, rt);
    EffectEndsTokenIff(sys, Step(sys, req, env), e, t, rt.sessionID, rt.userID);
    EndsMeans(sys, req, env, e, rt.sessionID);
    RotatesMeans(sys, req, env, e, t);
  }

  lemma RotatesMeans(sys: Sys, req: Request, env: Env, e: Effect, t: Id)
    requires EffectFits(sys, req, env, e) && t != ""
    ensures e.Rotate? && e.token == t <==> req == RefreshGrant(t)
  {
  }

  // ---- runs -------------------------------------------------------------------

  // The counterpart of permanent logout: in every run, a session that is gone was ended by a request that
  // logged it out, deleted its user or reset the store, and was there until then.
  lemma {:induction false} SessionEndedBy(sys: Sys, evs: seq<Event>, sid: Id) returns (k: nat)
    requires Good(sys) && Served(sys, evs)
    requires sid in sys.store.auth.sessions && sid !in Serve(sys, evs).store.auth.sessions
    ensures k < |evs| && sid in Serve(sys, evs[..k]).store.auth.sessions
    ensures Ends(Serve(sys, evs[..k]), evs[k].req, sid)
  {
    hide Good, Step, Possible, Ends;
    assert evs != [];
    var n := |evs| - 1;
    var before := Serve(sys, evs[..n]);
    if sid in before.store.auth.sessions {
      ServeGood(sys, evs[..n]);
      StepEndsSessionIff(before, evs[n].req, evs[n].env, sid);
      k := n;
    } else {
      k := SessionEndedBy(sys, evs[..n], sid);
      assert evs[..n][..k] == evs[..k];
    }
  }

  // In every run, a live token that is live no more was presented to a refresh, or its session was ended.
  lemma {:induction false} TokenEndedBy(sys: Sys, evs: seq<Event>, t: Id) returns (k: nat)
    requires Good(sys) && Served(sys, evs) && LiveIn(sys.store, t) && !LiveIn(Serve(sys, evs).store, t)
    ensures k < |evs| && LiveIn(Serve(sys, evs[..k]).store, t)
    ensures var before := Serve(sys, evs[..k]);
            Ends(before, evs[k].req, before.store.auth.refreshTokens[t].sessionID) || evs[k].req == RefreshGrant(t)
  {
    hide Good, Step, Possible, Ends;
    assert evs != [];
    var n := |evs| - 1;
    var before := Serve(sys, evs[..n]);
    if LiveIn(before.store, t) {
      ServeGood(sys, evs[..n]);
      StepEndsTokenIff(before, evs[n].req, evs[n].env, t);
      k := n;
    } else {
      k := TokenEndedBy(sys, evs[..n], t);
      assert evs[..n][..k] == evs[..k];
    }
  }
}

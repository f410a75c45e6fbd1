// How many live refresh tokens a session has: as many as were ever issued to it.
module Counts {
  import opened Model
  import opened Ops
  import opened Forest
  import opened Integrity
  import opened Invariant
  import opened Conservation
  import opened Requests
  import opened Effects
  import opened Sessions
  import opened Levels

  // A live session has exactly as many unrevoked tokens as root tokens.
  lemma LiveSessionCount(sys: Sys, sid: Id)
    requires Good(sys) && sid in sys.store.auth.sessions
    ensures |LiveTokens(sys.store.auth.refreshTokens, sid)| == |IssuedTokens(sys.store.auth.refreshTokens, sid)|
  {
    UsersUsed(sys.store);
    var toks, p2c := sys.store.auth.refreshTokens, sys.store.auth.parentToChild;
    var f: Chains :| Refines(toks, p2c, f);
    assert ChainsAlive(toks, p2c, sys.store.auth.sessions);
    forall r | r in f && f[r].session == sid ensures !f[r].dead {
      assert LinkOk(toks, p2c, f[r], |f[r].links| - 1);
    }
    hide Inv, Refines, LiveTokens, IssuedTokens, Rotates;
    LiveEqualsIssued(toks, p2c, f, sid);
  }

  // One when the request issued a token to the session: an answer with tokens that is not a refresh.
  ghost function Issues(sys: Sys, req: Request, env: Env, sid: Id): nat {
    var r := Step(sys, req, env);
    if !req.RefreshGrant? && r.resp.Token? && r.resp.tr.claims.sid == sid then 1 else 0
  }

  ghost function IssuesIn(sys: Sys, evs: seq<Event>, sid: Id): nat {
    if evs == [] then 0
    else
      var n := |evs| - 1;
      IssuesIn(sys, evs[..n], sid) + Issues(Serve(sys, evs[..n]), evs[n].req, evs[n].env, sid)
  }

  // ---- the root tokens of a session that survives one step ---------------------

  lemma NewRoot(toks: map<Id, RefreshToken>, rt: RefreshToken, sid: Id)
    requires rt.token !in toks && rt.parent == ""
    ensures |IssuedTokens(toks[rt.token := rt], sid)| ==
              |IssuedTokens(toks, sid)| + if rt.sessionID == sid then 1 else 0
  {
    var toks' := toks[rt.token := rt];
    if rt.sessionID == sid {
      assert IssuedTokens(toks', sid) == IssuedTokens(toks, sid) + {rt.token};
    } else {
      assert IssuedTokens(toks', sid) == IssuedTokens(toks, sid);
    }
  }

  lemma RotationKeepsRoots(toks: map<Id, RefreshToken>, t: Id, now: int, rt: RefreshToken, sid: Id)
    requires t in toks && t != "" && rt.token !in toks && rt.parent == t
    ensures IssuedTokens(toks[t := toks[t].(revoked := true, issuedAt := now)][rt.token := rt], sid) ==
            IssuedTokens(toks, sid)
  {
  }

  lemma CutKeepsRoots(s: State, other: Id, now: int, sid: Id)
    requires sid != other
    ensures IssuedTokens(RevokeRefreshTokensBySession(s, other, now).auth.refreshTokens, sid) ==
              IssuedTokens(s.auth.refreshTokens, sid)
  {
    hide Touched, TokensOfSession;
  }

  lemma EraseKeepsRoots(sys: Sys, uid: Id, sid: Id)
    requires Ownership(sys) && sid in DeleteUser(sys.store, uid).st.auth.sessions
    ensures IssuedTokens(DeleteUser(sys.store, uid).st.auth.refreshTokens, sid) ==
              IssuedTokens(sys.store.auth.refreshTokens, sid)
  {
    hide Touched, TokensOfUser, ClaimsOwn, ChainsAlive, ChallengeOfUser;
  }

  // A step that leaves session `sid` in place adds one root token to it when it issued one, else none.
  ghost predicate RootsStep(sys: Sys, r: Reply, e: Effect, sid: Id) {
    |IssuedTokens(r.sys.store.auth.refreshTokens, sid)| ==
      |IssuedTokens(sys.store.auth.refreshTokens, sid)|
      + if (e.Login? && e.sid == sid) || (e.Raise? && e.caller.sid == sid) then 1 else 0
  }

  lemma LoginRoots(sys: Sys, r: Reply, e: Effect, sid: Id)
    requires Good(sys) && HasEffect(sys, r, e) && e.Login?
    ensures RootsStep(sys, r, e, sid)
  {
    UsersUsed(sys.store);
    hide Inv, Ownership, IssuedTokens, Rotates, Answers, Unix, IssueSession;
    LoginStore(e.mid, e.uid, e.amrMethod, e.now, e.now', e.sid, e.tok);
    NewRoot(sys.store.auth.refreshTokens, RefreshToken(e.tok, e.uid, e.sid, e.now', false, ""), sid);
  }

  lemma RaiseRoots(sys: Sys, r: Reply, e: Effect, sid: Id)
    requires Good(sys) && HasEffect(sys, r, e) && e.Raise?
    ensures RootsStep(sys, r, e, sid)
  {
    UsersUsed(sys.store);
    hide Inv, Ownership, IssuedTokens, Rotates, Answers, RaisedSession, IssueRefreshToken, UpgradeSessionAAL,
        OwnsFactor;
    RaiseStore(e.mid, e.caller.sub, e.caller.sid, e.now, e.now', e.tok);
    NewRoot(sys.store.auth.refreshTokens, RefreshToken(e.tok, e.caller.sub, e.caller.sid, e.now', false, ""), sid);
  }

  lemma RotateRoots(sys: Sys, r: Reply, e: Effect, sid: Id)
    requires Good(sys) && HasEffect(sys, r, e) && e.Rotate?
    ensures RootsStep(sys, r, e, sid)
  {
    hide Inv, Ownership, IssuedTokens, Rotates, Answers, Silent, Fresh, ConsumeRefreshToken;
    UsersUsed(sys.store);
    RotatedRoots(sys.store, e.token, e.now, e.next, sid);
  }

  lemma EndingRoots(sys: Sys, r: Reply, e: Effect, sid: Id)
    requires Good(sys) && HasEffect(sys, r, e) && sid in r.sys.store.auth.sessions && (e.Cut? || e.Erase? || e.Wipe?)
    ensures RootsStep(sys, r, e, sid)
  {
    hide Inv, Ownership, IssuedTokens, Silent, DeleteUser, RevokeRefreshTokensBySession;
    if e.Cut? {
      CutDrops(sys.store, e.caller.sid, e.now);
      CutKeepsRoots(sys.store, e.caller.sid, e.now, sid);
    } else if e.Erase? {
      EraseKeepsRoots(sys, e.uid, sid);
    }
  }

  lemma RootsFollow(sys: Sys, r: Reply, e: Effect, sid: Id)
    requires Good(sys) && HasEffect(sys, r, e) && sid in r.sys.store.auth.sessions
    ensures RootsStep(sys, r, e, sid)
  {
    hide Good, HasEffect, RootsStep;
    match e
    case Calm => CalmRoots(sys, r, sid);
    case Login(_, _, _, _, _, _, _) => LoginRoots(sys, r, e, sid);
    case Rotate(_, _, _) => RotateRoots(sys, r, e, sid);
    case Raise(_, _, _, _, _, _, _) => RaiseRoots(sys, r, e, sid);
    case _ => EndingRoots(sys, r, e, sid);
  }

  lemma CalmRoots(sys: Sys, r: Reply, sid: Id)
    requires HasEffect(sys, r, Calm)
    ensures RootsStep(sys, r, Calm, sid)
  {
    hide IssuedTokens, Silent;
  }

  lemma CutDrops(s: State, sid: Id, now: int)
    ensures sid !in RevokeRefreshTokensBySession(s, sid, now).auth.sessions
  {
    hide Touched, TokensOfSession;
  }

  lemma RotatedRoots(s: State, t: Id, now: int, next: Id, sid: Id)
    requires Rotates(s.auth.refreshTokens, s.auth.parentToChild) && Fresh(s, next)
    requires s.auth.refreshTokens.Keys <= s.ids.used && "" !in s.ids.used
    ensures IssuedTokens(ConsumeRefreshToken(s, t, now, next).st.auth.refreshTokens, sid) ==
            IssuedTokens(s.auth.refreshTokens, sid)
  {
    ConsumeCases(s, t, now, next);
    hide ConsumeRefreshToken, Rotates, IssuedTokens, Live;
    var out := ConsumeRefreshToken(s, t, now, next);
    if out.res.Ok? && Rotated(s, out.st, t, now, out.res.value.0) {
      RotationKeepsRoots(s.auth.refreshTokens, t, now, out.res.value.0, sid);
    }
  }

  // Which effects count as an issue.
  lemma IssueMeans(sys: Sys, req: Request, env: Env, e: Effect, sid: Id)
    requires HasEffect(sys, Step(sys, req, env), e) && EffectFits(sys, req, env, e)
    ensures Issues(sys, req, env, sid) == if (e.Login? && e.sid == sid) || (e.Raise? && e.caller.sid == sid) then 1
            else 0
  {
    hide Step, IssueSession, IssueRefreshToken, UpgradeSessionAAL, ConsumeRefreshToken, DeleteUser;
    hide RevokeRefreshTokensBySession, Quiet, Fresh, OwnsFactor;
  }

  // A token names a session the store once made, so a session not made yet has no tokens.
  lemma UnmadeHasNone(sys: Sys, sid: Id)
    requires Good(sys) && sid !in sys.store.ids.used
    ensures IssuedTokens(sys.store.auth.refreshTokens, sid) == {}
  {
    hide Inv, ClaimsOwn, ChainsAlive;
    forall t ensures t !in IssuedTokens(sys.store.auth.refreshTokens, sid) {
      assert t in sys.store.auth.refreshTokens ==> sys.store.auth.refreshTokens[t].sessionID in sys.store.ids.used;
    }
  }

  lemma StepIssues(sys: Sys, req: Request, env: Env, sid: Id)
    requires Good(sys) && Possible(sys, req, env)
    ensures var r := Step(sys, req, env);
            && (sid in r.sys.store.auth.sessions ==>
                  |IssuedTokens(r.sys.store.auth.refreshTokens, sid)| ==
                    |IssuedTokens(sys.store.auth.refreshTokens, sid)| + Issues(sys, req, env, sid))
            && (sid !in r.sys.store.ids.used ==> Issues(sys, req, env, sid) == 0)
            && (sid in sys.store.ids.used ==> sid in r.sys.store.ids.used)
            && (sid in r.sys.store.auth.sessions && sid in sys.store.ids.used ==> sid in sys.store.auth.sessions)
  {
    hide Good, Step, Possible, HasEffect, EffectFits, IssuedTokens, Issues;
    var r := Step(sys, req, env);
    var e := StepGood(sys, req, env);
    if sid in r.sys.store.auth.sessions {
      RootsFollow(sys, r, e, sid);
    }
    IssueMeans(sys, req, env, e, sid);
    ResponsesConsistent(sys, req, env);
    GoodUsed(r.sys);
    IssuesNamesSession(sys, req, env, sid);
    if sid in sys.store.ids.used {
      GoneForGood(sys, req, env, sid);
    }
  }

  lemma IssuesNamesSession(sys: Sys, req: Request, env: Env, sid: Id)
    requires Good(sys) && Possible(sys, req, env)
    ensures Issues(sys, req, env, sid) > 0 ==> sid in Step(sys, req, env).sys.store.auth.sessions
  {
    hide Good, Step, Possible;
    ResponsesConsistent(sys, req, env);
  }

  // In every run that created the session, a session still live has exactly as many unrevoked tokens as
  // tokens were issued to it: by the login that created it and by each step-up. Rotations and replays
  // never change the number.
  lemma {:induction false} LiveCountsIssues(sys: Sys, evs: seq<Event>, sid: Id)
    requires Good(sys) && Served(sys, evs) && sid !in sys.store.ids.used
    ensures var t := Serve(sys, evs);
            && (sid in t.store.auth.sessions
                ==> |LiveTokens(t.store.auth.refreshTokens, sid)| == IssuesIn(sys, evs, sid))
            && (sid !in t.store.ids.used ==> IssuesIn(sys, evs, sid) == 0)
  {
    hide Good, Step, Possible, LiveTokens, IssuedTokens, Issues;
    ServeGood(sys, evs);
    if evs == [] {
      GoodUsed(sys);
    } else {
      var n := |evs| - 1;
      var before := Serve(sys, evs[..n]);
      LiveCountsIssues(sys, evs[..n], sid);
      ServeGood(sys, evs[..n]);
      StepIssues(before, evs[n].req, evs[n].env, sid);
      if sid in before.store.auth.sessions {
        LiveSessionCount(before, sid);
      }
      if sid !in before.store.ids.used {
        UnmadeHasNone(before, sid);
      }
      if sid in Serve(sys, evs).store.auth.sessions {
        LiveSessionCount(Serve(sys, evs), sid);
      }
    }
  }
}

// Assurance levels: where aal2 comes from, that it is never lost, and how many tokens a session has.
module Levels {
  import opened Model
  import opened Ops
  import opened Forest
  import opened Integrity
  import opened Invariant
  import opened Conservation
  import opened Requests
  import opened Effects
  import opened Sessions
  import Factors

  // ---- one session over one step ----------------------------------------------

  // The methods of a session's history, none twice.
  ghost predicate DistinctMethods(amr: seq<AMREntry>) {
    forall i, j | 0 <= i < j < |amr| :: amr[i].amrMethod != amr[j].amrMethod
  }

  ghost predicate AllDistinct(sessions: map<Id, Session>) {
    forall k | k in sessions :: DistinctMethods(sessions[k].amr)
  }

  // A session that survives a step keeps its user and its aal2, and its history only grows.
  ghost predicate Grows(before: Session, after: Session) {
    && after.userID == before.userID
    && (before.aal.AAL2? ==> after.aal.AAL2?)
    && before.amr <= after.amr
  }

  lemma RaisedGrows(sess: Session, now: int)
    requires DistinctMethods(sess.amr)
    ensures Grows(sess, RaisedSession(sess, now)) && DistinctMethods(RaisedSession(sess, now).amr)
    ensures RaisedSession(sess, now).aal.AAL2? && HasMethod(RaisedSession(sess, now).amr, WEBAUTHN)
  {
    var amr := RaisedSession(sess, now).amr;
    if !HasMethod(sess.amr, WEBAUTHN) {
      assert amr[|sess.amr|].amrMethod == WEBAUTHN;
    }
  }

  // How the sessions change: unchanged, one added at aal1, one raised, or some removed.
  ghost predicate SessionsStep(before: map<Id, Session>, after: map<Id, Session>, used: set<Id>, e: Effect) {
    match e
    case Calm => after == before
    case Rotate(_, _, _) => after == before
    case Login(_, uid, m, now, _, sid, _) =>
      sid !in used && after == before[sid := Session(sid, uid, now, AAL1, [AMREntry(m, Unix(now))])]
    case Raise(_, c, _, _, now, _, _) =>
      c.sid in before && after == before[c.sid := RaisedSession(before[c.sid], now)]
    case _ => forall k | k in after :: k in before && after[k] == before[k]
  }

  lemma SessionsFollow(sys: Sys, r: Reply, e: Effect)
    requires Inv(sys.store) && HasEffect(sys, r, e)
    ensures SessionsStep(sys.store.auth.sessions, r.sys.store.auth.sessions, sys.store.ids.used, e)
  {
    hide Inv, Rotates, Answers, IssueSession, IssueRefreshToken, UpgradeSessionAAL, ConsumeRefreshToken;
    hide RaisedSession, Unix, Touched, Backdate;
    UsersUsed(sys.store);
    match e
    case Login(mid, uid, m, now, now', sid', tok) => LoginStore(mid, uid, m, now, now', sid', tok);
    case Rotate(t, now, next) => ConsumeCases(sys.store, t, now, next);
    case Raise(mid, c, fid, cid, now, now', tok) => RaiseStore(mid, c.sub, c.sid, now, now', tok);
    case _ =>
  }

  lemma StepGrows(before: map<Id, Session>, after: map<Id, Session>, used: set<Id>, e: Effect, sid: Id)
    requires SessionsStep(before, after, used, e) && AllDistinct(before) && before.Keys <= used
    ensures AllDistinct(after)
    ensures sid in before && sid in after ==> Grows(before[sid], after[sid])
    ensures sid in after && after[sid].aal.AAL2? && !(sid in before && before[sid].aal.AAL2?) ==>
              e.Raise? && e.caller.sid == sid && sid in before
  {
    if e.Raise? {
      RaisedGrows(before[e.caller.sid], e.now);
    }
    hide RaisedSession, Unix, HasMethod;
  }

  // ---- one request ------------------------------------------------------------

  // A verified challenge: the request presented a challenge that the store held for a factor of
  // the session's own user; the challenge was spent by it.
  ghost predicate ProvedFactor(sys: Sys, req: Request, env: Env, sid: Id) {
    && req.VerifyFactorRequest? && req.bearer.Jwt? && req.bearer.claims.sid == sid
    && sid in sys.store.auth.sessions
    && OwnsFactor(sys.store, sys.store.auth.sessions[sid].userID, req.fid)
    && req.cid in sys.store.mfa.challenges && sys.store.mfa.challenges[req.cid].factorID == req.fid
    && env.clk(1) <= sys.store.mfa.challenges[req.cid].expiresAt
    && req.cid !in Step(sys, req, env).sys.store.mfa.challenges
  }

  lemma RaiseKeepsChallenges(s: State, uid: Id, sid: Id, now: int, now': int, tok: Id)
    ensures IssueRefreshToken(UpgradeSessionAAL(s, sid, WEBAUTHN, now).st, uid, sid, now', tok).st.mfa == s.mfa
  {
    hide HasMethod, Unix;
  }

  // A verification answered with tokens was in time.
  lemma VerifiedInTime(sys: Sys, bearer: Bearer, fid: Id, cid: Id, env: Env)
    requires VerifyFactorStep(sys, bearer, fid, cid, env).resp.Token?
    ensures cid in sys.store.mfa.challenges && env.clk(1) <= sys.store.mfa.challenges[cid].expiresAt
  {
    hide VerifyFactor, StepUp, RequireUser;
  }

  // What a step-up did, read off the effect it had.
  lemma RaiseFacts(sys: Sys, r: Reply, e: Effect)
    requires HasEffect(sys, r, e) && e.Raise?
    ensures OwnsFactor(sys.store, e.caller.sub, e.fid)
    ensures e.cid in sys.store.mfa.challenges && sys.store.mfa.challenges[e.cid].factorID == e.fid
    ensures e.cid !in r.sys.store.mfa.challenges
    ensures r.resp.Token?
  {
    RaiseKeepsChallenges(e.mid, e.caller.sub, e.caller.sid, e.now, e.now', e.tok);
    hide UpgradeSessionAAL, IssueRefreshToken, Quiet, Fresh, SessionAAL, SessionAMR;
  }

  lemma RaiseProves(sys: Sys, req: Request, env: Env, e: Effect)
    requires Good(sys) && Possible(sys, req, env) && e.Raise?
    requires HasEffect(sys, Step(sys, req, env), e) && EffectFits(sys, req, env, e)
    ensures ProvedFactor(sys, req, env, e.caller.sid)
  {
    hide Good, Possible, Step, VerifyFactorStep, HasEffect, OwnsFactor;
    var r := Step(sys, req, env);
    RaiseOwns(sys, r, e);
    RaiseFacts(sys, r, e);
    Factors.FactorRequestIs(sys, req.bearer, req.fid, req.cid, "", env);
    VerifiedInTime(sys, req.bearer, req.fid, req.cid, env);
  }

  lemma LevelStep(sys: Sys, req: Request, env: Env, sid: Id)
    requires Good(sys) && Possible(sys, req, env) && AllDistinct(sys.store.auth.sessions)
    ensures var t := Step(sys, req, env).sys.store.auth.sessions;
            var s := sys.store.auth.sessions;
            && AllDistinct(t)
            && (sid in s && sid in t ==> Grows(s[sid], t[sid]))
            && (sid in t && t[sid].aal.AAL2? && !(sid in s && s[sid].aal.AAL2?) ==> ProvedFactor(sys, req, env, sid))
  {
    hide Good, Inv, Step, Possible, HasEffect, EffectFits, Ownership, ProvedFactor, SessionsStep, AllDistinct, Grows;
    var e := StepGood(sys, req, env);
    GoodUsed(sys);
    SessionsFollow(sys, Step(sys, req, env), e);
    StepGrows(sys.store.auth.sessions, Step(sys, req, env).sys.store.auth.sessions, sys.store.ids.used, e, sid);
    if e.Raise? {
      RaiseProves(sys, req, env, e);
    }
  }

  lemma GoodUsed(sys: Sys)
    requires Good(sys)
    ensures Inv(sys.store) && sys.store.auth.sessions.Keys <= sys.store.ids.used
    ensures sys.store.auth.refreshTokens.Keys <= sys.store.ids.used
  {
    UsersUsed(sys.store);
    hide Inv;
  }

  // What a login makes, read off the effect it had.
  lemma LoginFacts(sys: Sys, r: Reply, e: Effect)
    requires HasEffect(sys, r, e) && e.Login?
    ensures r.resp.Token? && r.resp.tr.claims.sid == e.sid && e.sid !in sys.store.ids.used
    ensures r.resp.tr.claims.aal.AAL1? && r.resp.tr.claims.amr == [AMREntry(e.amrMethod, Unix(e.now))]
  {
    hide Unix, IssueSession;
    LoginStore(e.mid, e.uid, e.amrMethod, e.now, e.now', e.sid, e.tok);
  }

  // Every answer with tokens that is neither a refresh nor a step-up starts a session never seen before, at
  // aal1, with the one method the request stands for.
  lemma LoginStartsLow(sys: Sys, req: Request, env: Env)
    requires Good(sys) && Possible(sys, req, env)
    requires !req.RefreshGrant? && !req.VerifyFactorRequest? && Step(sys, req, env).resp.Token?
    ensures var c := Step(sys, req, env).resp.tr.claims;
            && c.sid !in sys.store.ids.used
            && c.aal.AAL1? && |c.amr| == 1 && LoginMethod(req) == Some(c.amr[0].amrMethod)
  {
    hide Good, Step, Possible, HasEffect;
    var e := StepGood(sys, req, env);
    if e.Login? {
      LoginFacts(sys, Step(sys, req, env), e);
    } else {
      SilentNoToken(sys, Step(sys, req, env), e);
    }
  }

  // ---- runs -------------------------------------------------------------------

  lemma {:induction false} AlwaysDistinct(sys: Sys, evs: seq<Event>)
    requires Good(sys) && Served(sys, evs) && AllDistinct(sys.store.auth.sessions)
    ensures AllDistinct(Serve(sys, evs).store.auth.sessions)
  {
    hide Good, Step, Possible, AllDistinct, ProvedFactor;
    if evs != [] {
      var n := |evs| - 1;
      AlwaysDistinct(sys, evs[..n]);
      ServeGood(sys, evs[..n]);
      LevelStep(Serve(sys, evs[..n]), evs[n].req, evs[n].env, "");
    }
  }

  // In every run, a session at aal2 was raised by an earlier request that proved a factor of the
  // session's own user, within the challenge's time.
  lemma {:induction false} LevelOrigin(sys: Sys, evs: seq<Event>, sid: Id) returns (k: nat)
    requires Good(sys) && Served(sys, evs) && AllDistinct(sys.store.auth.sessions) && sid !in sys.store.auth.sessions
    requires sid in Serve(sys, evs).store.auth.sessions && Serve(sys, evs).store.auth.sessions[sid].aal.AAL2?
    ensures k < |evs| && ProvedFactor(Serve(sys, evs[..k]), evs[k].req, evs[k].env, sid)
  {
    hide Good, Step, Possible, AllDistinct, ProvedFactor, Grows;
    if evs == [] {
      assert false;
    } else {
      var n := |evs| - 1;
      var before := Serve(sys, evs[..n]);
      AlwaysDistinct(sys, evs[..n]);
      ServeGood(sys, evs[..n]);
      LevelStep(before, evs[n].req, evs[n].env, sid);
      if sid in before.store.auth.sessions && before.store.auth.sessions[sid].aal.AAL2? {
        k := LevelOrigin(sys, evs[..n], sid);
        assert evs[..n][..k] == evs[..k];
      } else {
        k := n;
      }
    }
  }

  // A session present at both ends of a run was present throughout, and only grew.
  lemma {:induction false} SessionGrows(sys: Sys, evs: seq<Event>, sid: Id)
    requires Good(sys) && Served(sys, evs) && AllDistinct(sys.store.auth.sessions)
    requires sid in sys.store.auth.sessions && sid in Serve(sys, evs).store.auth.sessions
    ensures Grows(sys.store.auth.sessions[sid], Serve(sys, evs).store.auth.sessions[sid])
  {
    hide Good, Step, Possible, AllDistinct, ProvedFactor;
    if evs != [] {
      var n := |evs| - 1;
      var before := Serve(sys, evs[..n]);
      AlwaysDistinct(sys, evs[..n]);
      ServeGood(sys, evs[..n]);
      LevelStep(before, evs[n].req, evs[n].env, sid);
      StillUsed(sys, evs[..n], sid);
      GoneForGood(before, evs[n].req, evs[n].env, sid);
      SessionGrows(sys, evs[..n], sid);
    }
  }

  lemma GoneForGood(sys: Sys, req: Request, env: Env, sid: Id)
    requires Good(sys) && Possible(sys, req, env) && sid in sys.store.ids.used
    ensures sid in Step(sys, req, env).sys.store.auth.sessions ==> sid in sys.store.auth.sessions
    ensures sid in Step(sys, req, env).sys.store.ids.used
  {
    hide Good, Inv, Step, Possible, HasEffect, EffectFits, Ownership, RaisedSession, Unix;
    var e := StepGood(sys, req, env);
    GoodUsed(sys);
    SessionsFollow(sys, Step(sys, req, env), e);
    UsedStays(sys, Step(sys, req, env), e);
  }

  lemma UsedStays(sys: Sys, r: Reply, e: Effect)
    requires Inv(sys.store) && HasEffect(sys, r, e)
    ensures sys.store.ids.used <= r.sys.store.ids.used
  {
    hide Inv, Rotates, Answers, IssueSession, IssueRefreshToken, UpgradeSessionAAL, ConsumeRefreshToken;
    hide RaisedSession, Unix, Touched, Backdate;
    UsersUsed(sys.store);
    match e
    case Login(mid, uid, m, now, now', sid', tok) => LoginStore(mid, uid, m, now, now', sid', tok);
    case Rotate(t, now, next) => ConsumeCases(sys.store, t, now, next);
    case Raise(mid, c, fid, cid, now, now', tok) => RaiseStore(mid, c.sub, c.sid, now, now', tok);
    case _ =>
  }

  lemma {:induction false} StillUsed(sys: Sys, evs: seq<Event>, id: Id)
    requires Good(sys) && Served(sys, evs) && (id in sys.store.ids.used || id in sys.store.auth.sessions)
    ensures id in Serve(sys, evs).store.ids.used
  {
    hide Good, Step, Possible;
    if evs == [] {
      GoodUsed(sys);
    } else {
      var n := |evs| - 1;
      StillUsed(sys, evs[..n], id);
      ServeGood(sys, evs[..n]);
      GoneForGood(Serve(sys, evs[..n]), evs[n].req, evs[n].env, id);
    }
  }
}

// Who owns what: access tokens, refresh tokens and sessions always agree on their user.
module Sessions {
  import opened Model
  import opened Ops
  import opened Forest
  import opened Integrity
  import opened Invariant
  import opened Conservation
  import opened Requests
  import opened Effects
  import opened Runs

  // Every minted access token names a session that, while it exists, belongs to its subject.
  ghost predicate ClaimsOwn(minted: set<Claims>, issuer: string, sessions: map<Id, Session>, used: set<Id>) {
    forall c | c in minted ::
      && c.iss == issuer && c.sid in used && c.sub in used
      && (c.sid in sessions ==> sessions[c.sid].userID == c.sub)
  }

  // Every refresh token names a session that, while it exists, belongs to the token's user; an
  // unrevoked one names an existing session.
  ghost predicate TokensOwn(toks: map<Id, RefreshToken>, sessions: map<Id, Session>, used: set<Id>) {
    forall t | t in toks ::
      && toks[t].sessionID in used
      && (toks[t].sessionID in sessions ==> sessions[toks[t].sessionID].userID == toks[t].userID)
      && (!toks[t].revoked ==> toks[t].sessionID in sessions)
  }

  // While its session exists, a revoked token still has its edge: it was rotated, not logged out.
  ghost predicate ChainsAlive(toks: map<Id, RefreshToken>, p2c: map<Id, Id>, sessions: map<Id, Session>) {
    forall t | t in toks && toks[t].revoked && toks[t].sessionID in sessions :: t in p2c
  }

  ghost predicate Ownership(sys: Sys) {
    && ClaimsOwn(sys.minted, sys.issuer, sys.store.auth.sessions, sys.store.ids.used)
    && TokensOwn(sys.store.auth.refreshTokens, sys.store.auth.sessions, sys.store.ids.used)
    && ChainsAlive(sys.store.auth.refreshTokens, sys.store.auth.parentToChild, sys.store.auth.sessions)
  }

  ghost predicate Good(sys: Sys) {
    Inv(sys.store) && Ownership(sys)
  }

  lemma GoodInv(sys: Sys)
    requires Good(sys)
    ensures Inv(sys.store) && Ownership(sys)
  {
  }

  // ---- each effect keeps ownership --------------------------------------------

  lemma CalmOwns(sys: Sys, r: Reply)
    requires Ownership(sys) && HasEffect(sys, r, Calm)
    ensures Ownership(r.sys)
  {
    hide ChainsAlive;
  }

  lemma MintOwns(minted: set<Claims>, issuer: string, sessions: map<Id, Session>, used: set<Id>, c: Claims)
    requires ClaimsOwn(minted, issuer, sessions, used)
    requires c.iss == issuer && c.sid in used && c.sub in used
             && (c.sid in sessions ==> sessions[c.sid].userID == c.sub)
    ensures ClaimsOwn(minted + {c}, issuer, sessions, used)
  {
  }

  // A new session and a new token, both with fresh ids.
  lemma NewSessionOwns(sys: Sys, sess: Session, rt: RefreshToken, used: set<Id>)
    requires Ownership(sys) && sys.store.ids.used + {sess.id, rt.token} <= used
    requires sess.id !in sys.store.ids.used && sess.userID == rt.userID
    requires rt.sessionID == sess.id && !rt.revoked && rt.token !in sys.store.auth.refreshTokens
    ensures var a := sys.store.auth;
            && ClaimsOwn(sys.minted, sys.issuer, a.sessions[sess.id := sess], used)
            && TokensOwn(a.refreshTokens[rt.token := rt], a.sessions[sess.id := sess], used)
            && ChainsAlive(a.refreshTokens[rt.token := rt], a.parentToChild, a.sessions[sess.id := sess])
  {
  }

  lemma UsersUsed(s: State)
    requires Inv(s)
    ensures s.accounts.users.Keys <= s.ids.used && s.auth.refreshTokens.Keys <= s.ids.used
            && s.auth.sessions.Keys <= s.ids.used
    ensures "" !in s.ids.used
    ensures UsersOk(s.accounts.users) && Rotates(s.auth.refreshTokens, s.auth.parentToChild)
  {
  }

  lemma LoginOwns(sys: Sys, r: Reply, e: Effect)
    requires Good(sys) && HasEffect(sys, r, e) && e.Login? && Inv(r.sys.store)
    ensures Ownership(r.sys)
  {
    UsersUsed(sys.store);
    UsersUsed(r.sys.store);
    hide Inv, Fresh, ClaimsOwn, TokensOwn, ChainsAlive, Unix, SessionAAL, SessionAMR;
    var sess := Session(e.sid, e.uid, e.now, AAL1, [AMREntry(e.amrMethod, Unix(e.now))]);
    var rt := RefreshToken(e.tok, e.uid, e.sid, e.now', false, "");
    FreshMeans(e.mid, e.sid);
    FreshMeans(e.mid, e.tok);
    LoginStore(e.mid, e.uid, e.amrMethod, e.now, e.now', e.sid, e.tok);
    NewSessionOwns(sys, sess, rt, r.sys.store.ids.used);
    MintOwns(sys.minted, sys.issuer, r.sys.store.auth.sessions, r.sys.store.ids.used, r.resp.tr.claims);
  }

  lemma FreshMeans(s: State, id: Id)
    ensures Fresh(s, id) <==> id != "" && id !in s.ids.used
  {
  }

  lemma LoginStore(s: State, uid: Id, m: string, now: int, now': int, sid: Id, tok: Id)
    requires uid in s.accounts.users
    ensures var t := IssueSession(s, uid, m, now, now', sid, tok).st;
            && t.auth.sessions == s.auth.sessions[sid := Session(sid, uid, now, AAL1, [AMREntry(m, Unix(now))])]
            && t.auth.refreshTokens == s.auth.refreshTokens[tok := RefreshToken(tok, uid, sid, now', false, "")]
            && t.auth.parentToChild == s.auth.parentToChild
            && t.ids.used == s.ids.used + {sid, tok}
            && t.accounts == s.accounts && t.reuseInterval == s.reuseInterval
  {
    hide Unix;
  }

  // The two ways a refresh is accepted: the store answers with an existing live token and changes
  // nothing, or it rotates the presented live token into a new one.
  ghost predicate Replayed(s: State, t: State, rt: RefreshToken) {
    t == s && Live(s.auth.refreshTokens, rt, rt.token)
  }

  ghost predicate Rotated(s: State, t: State, token: Id, now: int, rt: RefreshToken) {
    && token in s.auth.refreshTokens && !s.auth.refreshTokens[token].revoked && token !in s.auth.parentToChild
    && var was := s.auth.refreshTokens[token];
    && rt == RefreshToken(rt.token, was.userID, was.sessionID, now, false, token)
    && t.auth == Auth(s.auth.sessions,
                      s.auth.refreshTokens[token := was.(revoked := true, issuedAt := now)][rt.token := rt],
                      s.auth.parentToChild[token := rt.token])
    && t.accounts == s.accounts && t.mfa == s.mfa && t.reuseInterval == s.reuseInterval
    && t.ids.used == s.ids.used + {rt.token}
  }

  lemma ConsumeCases(s: State, token: Id, now: int, next: Id)
    requires Rotates(s.auth.refreshTokens, s.auth.parentToChild)
    ensures var out := ConsumeRefreshToken(s, token, now, next);
            && (out.res.Err? ==> out.st == s)
            && (out.res.Ok? ==>
                  var rt := out.res.value.0;
                  || (Replayed(s, out.st, rt) && s.auth.refreshTokens[token].revoked)
                  || (Rotated(s, out.st, token, now, rt) && rt.token == next))
  {
    var toks, p2c := s.auth.refreshTokens, s.auth.parentToChild;
    if token in toks {
      var f: Chains :| Refines(toks, p2c, f);
      var r: Id, i: int :| Has(f, r, i, token);
      assert LinkOk(toks, p2c, f[r], i) && LinkOk(toks, p2c, f[r], |f[r].links| - 1);
      LatestChildOf(toks, p2c, f, r, i);
    }
    hide FindLatestChild, Refines;
  }

  lemma RotatedOwns(sys: Sys, t: State, token: Id, now: int, rt: RefreshToken)
    requires Ownership(sys) && Rotated(sys.store, t, token, now, rt) && rt.token !in sys.store.auth.refreshTokens
    ensures ClaimsOwn(sys.minted, sys.issuer, t.auth.sessions, t.ids.used)
    ensures TokensOwn(t.auth.refreshTokens, t.auth.sessions, t.ids.used)
    ensures ChainsAlive(t.auth.refreshTokens, t.auth.parentToChild, t.auth.sessions)
  {
  }

  lemma TokenOwner(sys: Sys, rt: RefreshToken)
    requires Ownership(sys) && rt.token in sys.store.auth.refreshTokens && sys.store.auth.refreshTokens[rt.token] == rt
    ensures rt.sessionID in sys.store.ids.used
    ensures rt.sessionID in sys.store.auth.sessions ==> sys.store.auth.sessions[rt.sessionID].userID == rt.userID
    ensures !rt.revoked ==> rt.sessionID in sys.store.auth.sessions
  {
    hide ClaimsOwn, ChainsAlive;
  }

  lemma RotateOwns(sys: Sys, r: Reply, e: Effect)
    requires Good(sys) && HasEffect(sys, r, e) && e.Rotate? && Inv(r.sys.store)
    ensures Ownership(r.sys)
    ensures r.resp.Token? ==>
              r.resp.tr.claims.sid in r.sys.store.auth.sessions
              && r.sys.store.auth.sessions[r.resp.tr.claims.sid].userID == r.resp.tr.claims.sub
  {
    UsersUsed(sys.store);
    hide Inv, ClaimsOwn, TokensOwn, ChainsAlive, ConsumeRefreshToken, SessionAAL, SessionAMR, Rotates;
    FreshMeans(sys.store, e.next);
    ConsumeCases(sys.store, e.token, e.now, e.next);
    ConsumeKeepsOwner(sys.store, e.token, e.now, e.next);
    var out := ConsumeRefreshToken(sys.store, e.token, e.now, e.next);
    if out.res.Ok? {
      var rt := out.res.value.0;
      if Rotated(sys.store, out.st, e.token, e.now, rt) && rt.token == e.next {
        TokenKeyed(sys.store, e.token);
        TokenOwner(sys, sys.store.auth.refreshTokens[e.token]);
        RotatedOwns(sys, out.st, e.token, e.now, rt);
      } else {
        TokenOwner(sys, rt);
      }
      MintOwns(sys.minted, sys.issuer, out.st.auth.sessions, out.st.ids.used, r.resp.tr.claims);
    }
  }

  lemma TokenKeyed(s: State, t: Id)
    requires Inv(s) && t in s.auth.refreshTokens
    ensures s.auth.refreshTokens[t].token == t && s.auth.refreshTokens[t].userID in s.accounts.users
  {
  }

  // One more token in an existing session of the same user, whose level may change.
  lemma RaisedOwns(sys: Sys, sess: Session, rt: RefreshToken, used: set<Id>)
    requires Ownership(sys) && sys.store.ids.used <= used
    requires sess.id in sys.store.auth.sessions && sys.store.auth.sessions[sess.id].userID == sess.userID == rt.userID
    requires rt.sessionID == sess.id && !rt.revoked && rt.token !in sys.store.auth.refreshTokens && sess.id in used
    ensures var a := sys.store.auth;
            && ClaimsOwn(sys.minted, sys.issuer, a.sessions[sess.id := sess], used)
            && TokensOwn(a.refreshTokens[rt.token := rt], a.sessions[sess.id := sess], used)
            && ChainsAlive(a.refreshTokens[rt.token := rt], a.parentToChild, a.sessions[sess.id := sess])
  {
  }

  function RaisedSession(sess: Session, now: int): Session {
    sess.(aal := AAL2,
          amr := if HasMethod(sess.amr, WEBAUTHN) then sess.amr else sess.amr + [AMREntry(WEBAUTHN, Unix(now))])
  }

  lemma RaiseStore(s: State, uid: Id, sid: Id, now: int, now': int, tok: Id)
    requires uid in s.accounts.users && sid in s.auth.sessions
    ensures var t := IssueRefreshToken(UpgradeSessionAAL(s, sid, WEBAUTHN, now).st, uid, sid, now', tok).st;
            && t.auth.sessions == s.auth.sessions[sid := RaisedSession(s.auth.sessions[sid], now)]
            && t.auth.refreshTokens == s.auth.refreshTokens[tok := RefreshToken(tok, uid, sid, now', false, "")]
            && t.auth.parentToChild == s.auth.parentToChild
            && t.ids.used == s.ids.used + {tok}
            && t.accounts == s.accounts && t.mfa == s.mfa && t.reuseInterval == s.reuseInterval
  {
    hide HasMethod, Unix;
  }

  lemma CallerOwns(sys: Sys, c: Claims)
    requires Ownership(sys) && c in sys.minted
    ensures c.sid in sys.store.ids.used && c.sub in sys.store.ids.used && c.iss == sys.issuer
    ensures c.sid in sys.store.auth.sessions ==> sys.store.auth.sessions[c.sid].userID == c.sub
  {
    hide TokensOwn, ChainsAlive;
  }

  lemma RaiseOwns(sys: Sys, r: Reply, e: Effect)
    requires Good(sys) && HasEffect(sys, r, e) && e.Raise?
    ensures Ownership(r.sys)
    ensures e.caller.sid in sys.store.auth.sessions && sys.store.auth.sessions[e.caller.sid].userID == e.caller.sub
  {
    UsersUsed(sys.store);
    SessionKeyed(sys.store, e.caller.sid);
    hide Inv, Fresh, ClaimsOwn, TokensOwn, ChainsAlive, SessionAAL, SessionAMR;
    CallerOwns(sys, e.caller);
    FreshMeans(e.mid, e.tok);
    RaiseStore(e.mid, e.caller.sub, e.caller.sid, e.now, e.now', e.tok);
    hide UpgradeSessionAAL, IssueRefreshToken, RaisedSession;
    var sess := RaisedSession(sys.store.auth.sessions[e.caller.sid], e.now);
    RaisedKeepsOwner(sys.store.auth.sessions[e.caller.sid], e.now);
    RaisedOwns(sys, sess, RefreshToken(e.tok, e.caller.sub, e.caller.sid, e.now', false, ""), r.sys.store.ids.used);
    MintOwns(sys.minted, sys.issuer, r.sys.store.auth.sessions, r.sys.store.ids.used, r.resp.tr.claims);
  }

  lemma RaisedKeepsOwner(sess: Session, now: int)
    ensures RaisedSession(sess, now).id == sess.id && RaisedSession(sess, now).userID == sess.userID
  {
  }

  lemma SessionKeyed(s: State, sid: Id)
    requires Inv(s)
    ensures sid in s.auth.sessions ==> s.auth.sessions[sid].id == sid && s.auth.sessions[sid].userID in s.accounts.users
  {
  }

  // The edges a logout or a deletion cuts start at tokens of that session or user.
  lemma CutStaysInside(toks: map<Id, RefreshToken>, p2c: map<Id, Id>, sid: Id, uid: Id)
    requires Rotates(toks, p2c)
    ensures forall t | t in Touched(toks, TokensOfSession(toks, sid)) :: t in toks && toks[t].sessionID == sid
    ensures forall t | t in Touched(toks, TokensOfUser(toks, uid)) :: t in toks && toks[t].userID == uid
  {
    var f: Chains :| Refines(toks, p2c, f);
    forall t | t in Touched(toks, TokensOfSession(toks, sid)) ensures t in toks && toks[t].sessionID == sid {
      TouchedStaysInChain(toks, p2c, f, TokensOfSession(toks, sid), t);
    }
    forall t | t in Touched(toks, TokensOfUser(toks, uid)) ensures t in toks && toks[t].userID == uid {
      TouchedStaysInChain(toks, p2c, f, TokensOfUser(toks, uid), t);
    }
  }

  lemma FewerSessionsOwn(minted: set<Claims>, issuer: string, sessions: map<Id, Session>, fewer: map<Id, Session>,
      used: set<Id>)
    requires ClaimsOwn(minted, issuer, sessions, used)
    requires forall k | k in fewer :: k in sessions && fewer[k] == sessions[k]
    ensures ClaimsOwn(minted, issuer, fewer, used)
  {
  }

  lemma KilledTokensOwn(toks: map<Id, RefreshToken>, p2c: map<Id, Id>, sessions: map<Id, Session>, used: set<Id>,
      sid: Id, past: int)
    requires TokensOwn(toks, sessions, used) && ChainsAlive(toks, p2c, sessions) && Rotates(toks, p2c)
    ensures var toks' := map t | t in toks ::
              if toks[t].sessionID == sid then toks[t].(revoked := true, issuedAt := past) else toks[t];
            && TokensOwn(toks', sessions - {sid}, used)
            && ChainsAlive(toks', p2c - Touched(toks, TokensOfSession(toks, sid)), sessions - {sid})
  {
    CutStaysInside(toks, p2c, sid, "");
    hide Rotates, Touched;
  }

  lemma CutOwns(sys: Sys, r: Reply, e: Effect)
    requires Good(sys) && HasEffect(sys, r, e) && e.Cut?
    ensures Ownership(r.sys)
  {
    hide Inv, Rotates, Touched, Backdate, ClaimsOwn, TokensOwn, ChainsAlive, TokensOfSession;
    UsersUsed(sys.store);
    var a := sys.store.auth;
    FewerSessionsOwn(sys.minted, sys.issuer, a.sessions, a.sessions - {e.caller.sid}, sys.store.ids.used);
    KilledTokensOwn(a.refreshTokens, a.parentToChild, a.sessions, sys.store.ids.used, e.caller.sid,
        Backdate(sys.store.reuseInterval, e.now));
  }

  lemma DroppedTokensOwn(toks: map<Id, RefreshToken>, p2c: map<Id, Id>, sessions: map<Id, Session>, used: set<Id>,
      uid: Id)
    requires TokensOwn(toks, sessions, used) && ChainsAlive(toks, p2c, sessions) && Rotates(toks, p2c)
    ensures var toks' := map t | t in toks && toks[t].userID != uid :: toks[t];
            var sessions' := map k | k in sessions && sessions[k].userID != uid :: sessions[k];
            && TokensOwn(toks', sessions', used)
            && ChainsAlive(toks', p2c - Touched(toks, TokensOfUser(toks, uid)), sessions')
  {
    CutStaysInside(toks, p2c, "", uid);
    hide Rotates, Touched;
  }

  lemma EraseOwns(sys: Sys, r: Reply, e: Effect)
    requires Good(sys) && HasEffect(sys, r, e) && e.Erase?
    ensures Ownership(r.sys)
  {
    hide Inv, Rotates, Touched, ClaimsOwn, TokensOwn, ChainsAlive, TokensOfUser;
    UsersUsed(sys.store);
    var a := sys.store.auth;
    var sessions' := map k | k in a.sessions && a.sessions[k].userID != e.uid :: a.sessions[k];
    FewerSessionsOwn(sys.minted, sys.issuer, a.sessions, sessions', sys.store.ids.used);
    DroppedTokensOwn(a.refreshTokens, a.parentToChild, a.sessions, sys.store.ids.used, e.uid);
  }

  lemma WipeOwns(sys: Sys, r: Reply)
    requires Good(sys) && HasEffect(sys, r, Wipe)
    ensures Ownership(r.sys)
  {
    hide Inv;
  }

  // Every request keeps the store's invariant and the ownership of sessions and tokens.
  lemma StepGood(sys: Sys, req: Request, env: Env) returns (e: Effect)
    requires Good(sys) && Possible(sys, req, env)
    ensures Good(Step(sys, req, env).sys)
    ensures HasEffect(sys, Step(sys, req, env), e) && EffectFits(sys, req, env, e)
  {
    hide Inv, Ownership, Step, HasEffect, EffectFits, EnvOk, BearerOk;
    var r := Step(sys, req, env);
    RequestKeepsInv(sys, req, env);
    e := EveryRequest(sys, req, env);
    match e
    case Calm => CalmOwns(sys, r);
    case Login(_, _, _, _, _, _, _) => LoginOwns(sys, r, e);
    case Rotate(_, _, _) => RotateOwns(sys, r, e);
    case Raise(_, _, _, _, _, _, _) => RaiseOwns(sys, r, e);
    case Cut(_, _) => CutOwns(sys, r, e);
    case Erase(_) => EraseOwns(sys, r, e);
    case Wipe => WipeOwns(sys, r);
  }

  // A token response is consistent: its user, its access token and its refresh token agree on the
  // user and the session, the session exists, and the access token carries the session's level.
  ghost predicate Consistent(sys: Sys, tr: TokenResponse) {
    && tr.user.id == tr.claims.sub
    && tr.refreshToken in sys.store.auth.refreshTokens
    && sys.store.auth.refreshTokens[tr.refreshToken].userID == tr.claims.sub
    && sys.store.auth.refreshTokens[tr.refreshToken].sessionID == tr.claims.sid
    && !sys.store.auth.refreshTokens[tr.refreshToken].revoked
    && tr.claims.sid in sys.store.auth.sessions
    && sys.store.auth.sessions[tr.claims.sid].userID == tr.claims.sub
    && tr.claims.aal == sys.store.auth.sessions[tr.claims.sid].aal
    && tr.claims.amr == sys.store.auth.sessions[tr.claims.sid].amr
    && tr.claims in sys.minted
  }

  lemma AnswersConsistent(sys: Sys, r: Reply, uid: Id, sid: Id, tok: Id)
    requires Answers(sys, r, uid, sid, tok) && Ownership(r.sys)
    requires tok in r.sys.store.auth.refreshTokens
    requires !r.sys.store.auth.refreshTokens[tok].revoked
    requires r.sys.store.auth.refreshTokens[tok].userID == uid && r.sys.store.auth.refreshTokens[tok].sessionID == sid
    ensures Consistent(r.sys, r.resp.tr)
  {
    hide ChainsAlive, ClaimsOwn;
  }

  lemma ResponsesConsistent(sys: Sys, req: Request, env: Env)
    requires Good(sys) && Possible(sys, req, env)
    ensures var r := Step(sys, req, env); r.resp.Token? ==> Consistent(r.sys, r.resp.tr)
  {
    hide Inv, Ownership, Step, EffectFits, Possible, Consistent, Answers, ConsumeRefreshToken,
        RevokeRefreshTokensBySession;
    hide DeleteUser, Quiet, Rotates, IssueSession, IssueRefreshToken, UpgradeSessionAAL, RaisedSession;
    var r := Step(sys, req, env);
    var e := StepGood(sys, req, env);
    UsersUsed(sys.store);
    match e
    case Login(mid, uid, m, now, now', sid, tok) =>
      LoginStore(mid, uid, m, now, now', sid, tok);
      AnswersConsistent(sys, r, uid, sid, tok);
    case Rotate(token, now, next) =>
      ConsumeCases(sys.store, token, now, next);
      var out := ConsumeRefreshToken(sys.store, token, now, next);
      if out.res.Ok? {
        AnswersConsistent(sys, r, out.res.value.0.userID, out.res.value.0.sessionID, out.res.value.0.token);
      }
    case Raise(mid, c, fid, cid, now, now', tok) =>
      RaiseStore(mid, c.sub, c.sid, now, now', tok);
      AnswersConsistent(sys, r, c.sub, c.sid, tok);
    case _ => SilentNoToken(sys, r, e);
  }

  lemma SilentNoToken(sys: Sys, r: Reply, e: Effect)
    requires HasEffect(sys, r, e) && !e.Login? && !e.Rotate? && !e.Raise?
    ensures !r.resp.Token? && r.sys.minted == sys.minted
  {
    hide RevokeRefreshTokensBySession, DeleteUser, Quiet;
  }

  // ---- runs of requests -------------------------------------------------------

  datatype Event = Event(req: Request, env: Env)

  ghost function Serve(sys: Sys, evs: seq<Event>): Sys {
    if evs == [] then sys
    else
      var n := |evs| - 1;
      Step(Serve(sys, evs[..n]), evs[n].req, evs[n].env).sys
  }

  ghost predicate Served(sys: Sys, evs: seq<Event>) {
    evs == [] ||
    var n := |evs| - 1;
    Served(sys, evs[..n]) && Possible(Serve(sys, evs[..n]), evs[n].req, evs[n].env)
  }

  // The answer to the k-th request of a run.
  ghost function ReplyAt(sys: Sys, evs: seq<Event>, k: nat): Reply
    requires k < |evs|
  {
    Step(Serve(sys, evs[..k]), evs[k].req, evs[k].env)
  }

  lemma {:induction false} ServedPrefix(sys: Sys, evs: seq<Event>, k: nat)
    requires Served(sys, evs) && k <= |evs|
    ensures Served(sys, evs[..k])
    ensures k < |evs| ==> Possible(Serve(sys, evs[..k]), evs[k].req, evs[k].env)
                          && ReplyAt(sys, evs, k).sys == Serve(sys, evs[..k + 1])
  {
    hide Step, Possible;
    if k < |evs| {
      var n := |evs| - 1;
      if k < n {
        ServedPrefix(sys, evs[..n], k);
        assert evs[..n][..k] == evs[..k] && evs[..n][..k + 1] == evs[..k + 1] && evs[..n][k] == evs[k];
      }
      assert evs[..k + 1][..k] == evs[..k];
    } else {
      assert evs[..k] == evs;
    }
  }

  // In every run from a good service, every reachable state is good.
  lemma {:induction false} ServeGood(sys: Sys, evs: seq<Event>)
    requires Good(sys) && Served(sys, evs)
    ensures Good(Serve(sys, evs))
  {
    hide Good, Step, Possible, HasEffect, EffectFits;
    if evs != [] {
      var n := |evs| - 1;
      ServeGood(sys, evs[..n]);
      var e := StepGood(Serve(sys, evs[..n]), evs[n].req, evs[n].env);
    }
  }

  lemma {:induction false} ServeInv(sys: Sys, evs: seq<Event>)
    requires Inv(sys.store) && Served(sys, evs)
    ensures Inv(Serve(sys, evs).store)
  {
    hide Inv, Step, EnvOk, BearerOk;
    if evs != [] {
      var n := |evs| - 1;
      ServeInv(sys, evs[..n]);
      RequestKeepsInv(Serve(sys, evs[..n]), evs[n].req, evs[n].env);
    }
  }

  // The service as it starts: nothing stored, nothing minted.
  lemma StartGood(issuer: string, ttl: int, reuseInterval: int)
    ensures Good(Sys(EmptyState(reuseInterval, Ids({})), issuer, ttl, {}))
  {
    EmptyInv(reuseInterval, Ids({}));
    hide Inv;
  }

  // In every run, every token response is consistent.
  lemma RunConsistent(sys: Sys, evs: seq<Event>, k: nat)
    requires Good(sys) && Served(sys, evs) && k < |evs|
    ensures var r := ReplyAt(sys, evs, k); r.resp.Token? ==> Consistent(r.sys, r.resp.tr)
  {
    hide Good, Step, Possible, Consistent, Serve, Served;
    ServedPrefix(sys, evs, k);
    ServeGood(sys, evs[..k]);
    ResponsesConsistent(Serve(sys, evs[..k]), evs[k].req, evs[k].env);
  }
}

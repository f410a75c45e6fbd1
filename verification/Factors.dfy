// What the factor requests do, exactly when, and where a verified factor comes from.
module Factors {
  import opened Text
  import opened Model
  import opened Ops
  import opened Listing
  import opened Integrity
  import opened Invariant
  import opened Requests
  import opened Answers
  import opened Callers

  lemma FactorRequestIs(sys: Sys, bearer: Bearer, fid: Id, x: string, name: string, env: Env)
    ensures Step(sys, EnrollFactorRequest(bearer, x, name), env) == EnrollFactorStep(sys, bearer, x, name, env)
    ensures Step(sys, ChallengeFactorRequest(bearer, fid), env) == ChallengeFactorStep(sys, bearer, fid, env)
    ensures Step(sys, VerifyFactorRequest(bearer, fid, x), env) == VerifyFactorStep(sys, bearer, fid, x, env)
    ensures Step(sys, UnenrollFactorRequest(bearer, fid), env) == UnenrollFactorStep(sys, bearer, fid, env)
  {
    hide EnrollFactorStep, ChallengeFactorStep, VerifyFactorStep, UnenrollFactorStep;
  }

  // The bearer speaks for a user, and the factor is that user's.
  ghost predicate OwnFactor(sys: Sys, bearer: Bearer, now: int, fid: Id) {
    && Speaks(sys, bearer, now, Subject(bearer))
    && fid in sys.store.mfa.factors && sys.store.mfa.factors[fid].userID == Subject(bearer)
  }

  // ---- enrolling, challenging, unenrolling ------------------------------------------

  ghost predicate EnrollAccepted(sys: Sys, bearer: Bearer, factorType: string, name: string, now: int) {
    && Speaks(sys, bearer, now, Subject(bearer))
    && TrimSpace(factorType) in {"", "webauthn"}
    && (TrimSpace(name) == "" || forall k | k in sys.store.mfa.factors ::
          !(sys.store.mfa.factors[k].userID == Subject(bearer)
            && sys.store.mfa.factors[k].friendlyName == TrimSpace(name)))
  }

  // An enrolment is accepted exactly for a caller, the one type, and a name the caller has not used. It adds one
  // unverified factor of the caller, and nothing else; a refusal changes nothing.
  lemma EnrollAnswered(sys: Sys, bearer: Bearer, factorType: string, name: string, env: Env)
    requires Inv(sys.store) && EnvOk(sys.store, env)
    ensures var r := Step(sys, EnrollFactorRequest(bearer, factorType, name), env);
            var s := sys.store;
            && (r.resp.Done? <==> EnrollAccepted(sys, bearer, factorType, name, env.clk(0)))
            && (r.resp.Done? ==>
                  var fid, now := r.resp.id, env.clk(1);
                  var f := Factor(fid, Subject(bearer), TrimSpace(name), "webauthn", Unverified, now, now);
                  && fid !in s.ids.used
                  && r.sys == sys.(store := s.(mfa := s.mfa.(factors := s.mfa.factors[fid := f]),
                                               ids := Ids(s.ids.used + {fid}))))
            && (!r.resp.Done? ==> r.sys == sys)
            && (Speaks(sys, bearer, env.clk(0), Subject(bearer)) && !r.resp.Done? ==>
                  r.resp == Rejected(422, if TrimSpace(factorType) in {"", "webauthn"} then "mfa_factor_name_conflict"
                                          else "mfa_factor_type_not_supported"))
  {
    hide Step, Inv, TrimSpace, RequireUser, Speaks, Synthesized;
    FactorRequestIs(sys, bearer, "", factorType, name, env);
    KnownCaller(sys, bearer, env.clk(0));
  }

  // A challenge is made exactly for a factor of the caller, and lasts five minutes.
  lemma ChallengeAnswered(sys: Sys, bearer: Bearer, fid: Id, env: Env)
    requires Inv(sys.store) && EnvOk(sys.store, env)
    ensures var r := Step(sys, ChallengeFactorRequest(bearer, fid), env);
            var s := sys.store;
            && (r.resp.Done? <==> OwnFactor(sys, bearer, env.clk(0), fid))
            && (r.resp.Done? ==>
                  var cid, now := r.resp.id, env.clk(1);
                  var ch := Challenge(cid, fid, env.uuid(1), now, now + 300 * SECOND);
                  && cid !in s.ids.used
                  && r.sys == sys.(store := s.(mfa := s.mfa.(challenges := s.mfa.challenges[cid := ch]),
                                               ids := Ids(s.ids.used + {cid}))))
            && (!r.resp.Done? ==> r.sys == sys)
            && (Speaks(sys, bearer, env.clk(0), Subject(bearer)) && !r.resp.Done? ==>
                  r.resp == Rejected(404, "mfa_factor_not_found"))
  {
    hide Step, Inv, TrimSpace, RequireUser, Speaks, Synthesized;
    FactorRequestIs(sys, bearer, fid, "", "", env);
    KnownCaller(sys, bearer, env.clk(0));
  }

  // A factor is unenrolled exactly when it is the caller's; it goes with its challenges, and nothing else does.
  lemma UnenrollAnswered(sys: Sys, bearer: Bearer, fid: Id, env: Env)
    requires Inv(sys.store)
    ensures var r := Step(sys, UnenrollFactorRequest(bearer, fid), env);
            var s := sys.store;
            && (r.resp.Done? <==> OwnFactor(sys, bearer, env.clk(0), fid))
            && (r.resp.Done? ==>
                  && r.resp.id == fid && r.sys == sys.(store := s.(mfa := r.sys.store.mfa))
                  && r.sys.store.mfa.factors == s.mfa.factors - {fid}
                  && forall k :: k in r.sys.store.mfa.challenges <==>
                       k in s.mfa.challenges && s.mfa.challenges[k].factorID != fid)
            && (forall k | k in r.sys.store.mfa.challenges ::
                  k in s.mfa.challenges && r.sys.store.mfa.challenges[k] == s.mfa.challenges[k])
            && (!r.resp.Done? ==> r.sys == sys)
            && (Speaks(sys, bearer, env.clk(0), Subject(bearer)) && !r.resp.Done? ==>
                  r.resp == Rejected(404, "mfa_factor_not_found"))
  {
    hide Step, Inv, TrimSpace, RequireUser, Speaks;
    FactorRequestIs(sys, bearer, fid, "", "", env);
    KnownCaller(sys, bearer, env.clk(0));
  }

  // ---- verifying ----------------------------------------------------------------------

  // The factor is the caller's, and a challenge for it is held in time.
  ghost predicate VerifyChecks(sys: Sys, bearer: Bearer, fid: Id, cid: Id, env: Env) {
    && OwnFactor(sys, bearer, env.clk(0), fid)
    && cid in sys.store.mfa.challenges && sys.store.mfa.challenges[cid].factorID == fid
    && env.clk(1) <= sys.store.mfa.challenges[cid].expiresAt
  }

  // The factors and challenges afterwards: that one factor is verified and that one challenge is gone.
  ghost predicate VerifiedNow(s: State, t: State, fid: Id, cid: Id, now: int) {
    && fid in s.mfa.factors
    && t.mfa.factors == s.mfa.factors[fid := s.mfa.factors[fid].(status := Verified, updatedAt := now)]
    && t.mfa.challenges == s.mfa.challenges - {cid}
  }

  // The session is at aal2, with the method at the end of its history unless it was there, and has one more root token.
  ghost predicate SteppedUp(s: State, r: Reply, sid: Id, now: int, now': int) {
    && r.resp.Token? && sid in s.auth.sessions
    && var sess, uid, tok := s.auth.sessions[sid], r.resp.tr.user.id, r.resp.tr.refreshToken;
    && r.resp.tr.claims.sid == sid && r.resp.tr.claims.aal == AAL2
    && r.resp.tr.claims.amr ==
         (if exists i | 0 <= i < |sess.amr| :: sess.amr[i].amrMethod == "webauthn" then sess.amr
          else sess.amr + [AMREntry("webauthn", now / SECOND)])
    && r.sys.store.auth.sessions == s.auth.sessions[sid := sess.(aal := AAL2, amr := r.resp.tr.claims.amr)]
    && r.sys.store.auth.refreshTokens == s.auth.refreshTokens[tok := RefreshToken(tok, uid, sid, now', false, "")]
    && r.sys.store.auth.parentToChild == s.auth.parentToChild
  }

  // The end of a verification succeeds exactly when the session is there.
  lemma StepUpShows(sys: Sys, uid: Id, sid: Id, env: Env)
    requires uid in sys.store.accounts.users && sys.store.accounts.users[uid].id == uid
    requires "" !in sys.store.auth.sessions
    ensures var r := StepUp(sys, uid, sid, env);
            && r.sys.store.accounts == sys.store.accounts && r.sys.store.mfa == sys.store.mfa
            && r.sys.store.keys == sys.store.keys && r.sys.store.oauth == sys.store.oauth
            && (r.resp.Token? <==> sid in sys.store.auth.sessions)
            && (r.resp.Token? ==>
                  && Shows(sys, r, env.clk(5)) && r.resp.tr.user.id == uid
                  && SteppedUp(sys.store, r, sid, env.clk(3), env.clk(4)))
            && (!r.resp.Token? ==> r.resp == Rejected(401, "session_not_found") && r.sys == sys)
  {
    hide Mint, Shows;
    var a := UpgradeSessionAAL(sys.store, sid, WEBAUTHN, env.clk(3));
    if sid != "" && a.res.Ok? {
      var b := IssueRefreshToken(a.st, uid, sid, env.clk(4), env.uuid(0));
      var op := OpUpgradeSessionAAL(sid, WEBAUTHN, env.clk(3));
      var op' := OpIssueRefreshToken(uid, sid, env.clk(4), env.uuid(0));
      MintShows(sys.(store := b.st), b.st.accounts.users[uid], sid, b.res.value.token, env.clk(5));
      var r := Mint(sys.(store := b.st), b.st.accounts.users[uid], sid, b.res.value.token, env.clk(5));
      SameSys(sys, sys.(store := b.st), r, env.clk(5), op');
      SameSys(sys, sys, Then(op', r), env.clk(5), op);
    }
  }

  // The listing of a user's factors shows a factor as it is stored.
  lemma ListedVerified(s: State, uid: Id, fid: Id)
    requires Inv(s) && fid in s.mfa.factors && s.mfa.factors[fid].userID == uid && s.mfa.factors[fid].status.Verified?
    ensures exists f | f in FactorList(s.mfa.factors, uid) :: f.id == fid
    ensures forall f | f in FactorList(s.mfa.factors, uid) && f.id == fid :: f.status.Verified?
  {
    assert FactorsOk(s.mfa.factors, s.accounts.users.Keys);
    hide Inv, FactorList;
    FactorListing(s.mfa.factors, uid, SomeEnumeration(FactorsOf(s.mfa.factors, uid)));
    assert s.mfa.factors[fid] in FactorList(s.mfa.factors, uid);
  }

  lemma NoEmptyKeys(s: State)
    requires Inv(s)
    ensures "" !in s.auth.sessions && "" !in s.mfa.challenges
  {
  }

  lemma VerifyInTime(sys: Sys, bearer: Bearer, fid: Id, cid: Id, env: Env)
    requires Inv(sys.store) && VerifyChecks(sys, bearer, fid, cid, env)
    ensures var r := VerifyFactorStep(sys, bearer, fid, cid, env);
            var s, t := sys.store, r.sys.store;
            && VerifiedNow(s, t, fid, cid, env.clk(2))
            && (r.resp.Token? <==> bearer.claims.sid in s.auth.sessions)
            && (r.resp.Token? ==>
                  && Shows(sys, r, env.clk(5)) && r.resp.tr.user.id == Subject(bearer)
                  && SteppedUp(s, r, bearer.claims.sid, env.clk(3), env.clk(4)))
            && (!r.resp.Token? ==>
                  r.resp == Rejected(401, "session_not_found") && r.sys == sys.(store := s.(mfa := t.mfa)))
            && t.accounts == s.accounts && t.keys == s.keys && t.oauth == s.oauth
  {
    hide Inv, RequireUser, Speaks, StepUp, Shows, SteppedUp;
    KnownCaller(sys, bearer, env.clk(0));
    NoEmptyKeys(sys.store);
    var a := ConsumeChallenge(sys.store, fid, cid, env.clk(1));
    var b := VerifyFactor(a.st, fid, env.clk(2));
    var op, op' := OpConsumeChallenge(fid, cid, env.clk(1)), OpVerifyFactor(fid, env.clk(2));
    StepUpShows(sys.(store := b.st), Subject(bearer), bearer.claims.sid, env);
    var r := StepUp(sys.(store := b.st), Subject(bearer), bearer.claims.sid, env);
    SameSys(sys, sys.(store := b.st), r, env.clk(5), op');
    SameSys(sys, sys, Then(op', r), env.clk(5), op);
    SameSteppedUp(sys.store, b.st, r, op', bearer.claims.sid, env.clk(3), env.clk(4));
    SameSteppedUp(sys.store, sys.store, Then(op', r), op, bearer.claims.sid, env.clk(3), env.clk(4));
  }

  lemma SameSteppedUp(s: State, a: State, r: Reply, op: Op, sid: Id, now: int, now': int)
    requires a.auth == s.auth
    ensures SteppedUp(a, r, sid, now, now') <==> SteppedUp(s, r, sid, now, now')
    ensures SteppedUp(s, Then(op, r), sid, now, now') <==> SteppedUp(s, r, sid, now, now')
  {
  }

  lemma VerifyNotInTime(sys: Sys, bearer: Bearer, fid: Id, cid: Id, env: Env)
    requires Inv(sys.store) && !VerifyChecks(sys, bearer, fid, cid, env)
    ensures var r := VerifyFactorStep(sys, bearer, fid, cid, env);
            var s, t := sys.store, r.sys.store;
            var presented := OwnFactor(sys, bearer, env.clk(0), fid)
                             && cid in s.mfa.challenges && s.mfa.challenges[cid].factorID == fid;
            && t.mfa == (if presented then s.mfa.(challenges := s.mfa.challenges - {cid}) else s.mfa)
            && r.resp.Rejected? && r.sys == sys.(store := s.(mfa := t.mfa))
            && (Speaks(sys, bearer, env.clk(0), Subject(bearer)) ==>
                  r.resp == if !OwnFactor(sys, bearer, env.clk(0), fid) then Rejected(404, "mfa_factor_not_found")
                            else if cid == "" then Rejected(422, "validation_failed")
                            else if presented then Rejected(422, "mfa_challenge_expired")
                            else Rejected(404, "mfa_challenge_not_found"))
  {
    hide Inv, RequireUser, Speaks, StepUp, VerifyFactor;
    KnownCaller(sys, bearer, env.clk(0));
    NoEmptyKeys(sys.store);
  }

  // A verification answers with tokens exactly when the factor is the caller's, a challenge for it is held in time,
  // and the caller's session is there. In time, the factor becomes verified and the challenge is spent, whatever
  // the answer; otherwise no factor changes.
  lemma VerifyAnswered(sys: Sys, bearer: Bearer, fid: Id, cid: Id, env: Env)
    requires Inv(sys.store)
    ensures var r := Step(sys, VerifyFactorRequest(bearer, fid, cid), env);
            var s, t := sys.store, r.sys.store;
            && (r.resp.Token? <==> VerifyChecks(sys, bearer, fid, cid, env) && bearer.claims.sid in s.auth.sessions)
            && (r.resp.Token? ==>
                  && Shows(sys, r, env.clk(5)) && r.resp.tr.user.id == Subject(bearer)
                  && SteppedUp(s, r, bearer.claims.sid, env.clk(3), env.clk(4)))
            && (VerifyChecks(sys, bearer, fid, cid, env) ==> VerifiedNow(s, t, fid, cid, env.clk(2)))
            && (!VerifyChecks(sys, bearer, fid, cid, env) ==> t.mfa.factors == s.mfa.factors)
            && (!r.resp.Token? ==> r.resp.Rejected? && r.sys == sys.(store := s.(mfa := t.mfa)))
            && t.accounts == s.accounts && t.keys == s.keys && t.oauth == s.oauth
  {
    hide Step, Inv, VerifyFactorStep, VerifyChecks, Shows, VerifiedNow, SteppedUp;
    FactorRequestIs(sys, bearer, fid, cid, "", env);
    if VerifyChecks(sys, bearer, fid, cid, env) {
      VerifyInTime(sys, bearer, fid, cid, env);
    } else {
      VerifyNotInTime(sys, bearer, fid, cid, env);
    }
  }

  // Why a verification is refused.
  lemma VerifyRefused(sys: Sys, bearer: Bearer, fid: Id, cid: Id, env: Env)
    requires Inv(sys.store) && Speaks(sys, bearer, env.clk(0), Subject(bearer))
    requires !Step(sys, VerifyFactorRequest(bearer, fid, cid), env).resp.Token?
    ensures var challenges := sys.store.mfa.challenges;
            Step(sys, VerifyFactorRequest(bearer, fid, cid), env).resp ==
              if !OwnFactor(sys, bearer, env.clk(0), fid) then Rejected(404, "mfa_factor_not_found")
              else if cid == "" then Rejected(422, "validation_failed")
              else if cid !in challenges || challenges[cid].factorID != fid
              then Rejected(404, "mfa_challenge_not_found")
              else if env.clk(1) > challenges[cid].expiresAt then Rejected(422, "mfa_challenge_expired")
              else Rejected(401, "session_not_found")
  {
    hide Step, Inv, VerifyFactorStep, Speaks, Shows, VerifiedNow, SteppedUp;
    FactorRequestIs(sys, bearer, fid, cid, "", env);
    NoEmptyKeys(sys.store);
    if VerifyChecks(sys, bearer, fid, cid, env) {
      VerifyInTime(sys, bearer, fid, cid, env);
    } else {
      VerifyNotInTime(sys, bearer, fid, cid, env);
    }
  }

  // The answer to a verification shows the factor as verified.
  lemma VerifiedShown(sys: Sys, bearer: Bearer, fid: Id, cid: Id, env: Env)
    requires Inv(sys.store) && Inv(Step(sys, VerifyFactorRequest(bearer, fid, cid), env).sys.store)
    requires Step(sys, VerifyFactorRequest(bearer, fid, cid), env).resp.Token?
    ensures var u := Step(sys, VerifyFactorRequest(bearer, fid, cid), env).resp.tr.user;
            (exists f | f in u.factors :: f.id == fid) && forall f | f in u.factors && f.id == fid :: f.status.Verified?
  {
    hide Step, Inv, Speaks, Synthesized, FactorList;
    VerifyAnswered(sys, bearer, fid, cid, env);
    ListedVerified(Step(sys, VerifyFactorRequest(bearer, fid, cid), env).sys.store, Subject(bearer), fid);
  }
}

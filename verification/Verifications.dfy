// Where a verified factor comes from, and that it stays verified.
module Verifications {
  import opened Text
  import opened Model
  import opened Ops
  import opened Invariant
  import opened Requests
  import opened Runs
  import opened Sessions
  import opened Tickets
  import opened Answers
  import opened Callers
  import opened Factors
  import opened Passkeys
  import opened Plain

  // ---- operations ---------------------------------------------------------------

  ghost predicate IsVerified(s: State, fid: Id) {
    fid in s.mfa.factors && s.mfa.factors[fid].status.Verified?
  }

  // A factor verified afterwards was verified before, and is the same user's.
  ghost predicate VerifiedBefore(s: State, t: State, fid: Id) {
    IsVerified(t, fid) ==> IsVerified(s, fid) && t.mfa.factors[fid].userID == s.mfa.factors[fid].userID
  }

  predicate WritesFactors(op: Op) {
    op.OpEnrollFactor? || op.OpVerifyFactor? || op.OpDeleteFactor? || op.OpDeleteUser? || op.OpReset?
  }

  lemma FactorsUntouched(s: State, op: Op)
    requires !WritesFactors(op)
    ensures Apply(s, op).mfa.factors == s.mfa.factors
  {
    hide NewUser, RecomputeProviders, LinkIdentity, IdentityIndex, Without, FindLatestChild, Touched, TokensOfSession;
    hide EmailUser, NameTaken, HasMethod, HasProvider, OAuthEmail, Synthesized, AppendProviderIdentity, Unix, Backdate;
    hide DeleteUser, EnrollFactor, VerifyFactor, DeleteFactor;
  }

  lemma PlainOpVerifiesNothing(s: State, op: Op, fid: Id)
    requires PlainOp(op)
    ensures VerifiedBefore(s, Apply(s, op), fid)
  {
    if !WritesFactors(op) {
      FactorsUntouched(s, op);
      hide Apply, WritesFactors;
    } else {
      hide Touched, TokensOfUser, ChallengeOfUser, Lower, NameTaken;
      hide CreateUser, SetUserMetadata, UpdateLastSignIn, AddIdentity, RemoveIdentity, CreateOAuthUser;
      hide CreateAuthCode, ConsumeAuthCode, CreateSession, IssueRefreshToken, IssueSession, ConsumeRefreshToken;
      hide RevokeRefreshTokensBySession, VerifyFactor, CreateChallenge, ConsumeChallenge, UpgradeSessionAAL;
      hide CreatePasskeyChallenge, ConsumePasskeyChallenge, AddPasskey, DeletePasskey, MarkPasskeyUsed;
    }
  }

  lemma {:induction false} PlainRunVerifiesNothing(s: State, ops: seq<Op>, fid: Id)
    requires AllPlain(ops)
    ensures VerifiedBefore(s, Run(s, ops), fid)
  {
    hide Apply;
    if ops != [] {
      var n := |ops| - 1;
      PlainRunVerifiesNothing(s, ops[..n], fid);
      PlainOpVerifiesNothing(Run(s, ops[..n]), ops[n], fid);
    }
  }

  // The id was made by the store, and the factor under it, while there is one, is verified.
  ghost predicate NeverUnverified(s: State, fid: Id) {
    fid in s.ids.used && (fid in s.mfa.factors ==> s.mfa.factors[fid].status.Verified?)
  }

  // No operation takes a factor back to unverified.
  lemma OpKeepsVerified(s: State, op: Op, fid: Id)
    requires NeverUnverified(s, fid) && Enabled(s, op)
    ensures NeverUnverified(Apply(s, op), fid)
  {
    UsedGrows(s, op);
    if !WritesFactors(op) {
      FactorsUntouched(s, op);
      hide Apply, WritesFactors, Enabled;
    } else {
      hide Touched, TokensOfUser, ChallengeOfUser, Lower, NameTaken, Synthesized;
      hide CreateUser, SetUserMetadata, UpdateLastSignIn, AddIdentity, RemoveIdentity, CreateOAuthUser;
      hide CreateAuthCode, ConsumeAuthCode, CreateSession, IssueRefreshToken, IssueSession, ConsumeRefreshToken;
      hide RevokeRefreshTokensBySession, CreateChallenge, ConsumeChallenge, UpgradeSessionAAL;
      hide CreatePasskeyChallenge, ConsumePasskeyChallenge, AddPasskey, DeletePasskey, MarkPasskeyUsed;
    }
  }

  lemma {:induction false} RunKeepsVerified(s: State, ops: seq<Op>, fid: Id)
    requires NeverUnverified(s, fid) && RunEnabled(s, ops)
    ensures NeverUnverified(Run(s, ops), fid)
  {
    hide Apply, Enabled, NeverUnverified;
    if ops != [] {
      var n := |ops| - 1;
      RunKeepsVerified(s, ops[..n], fid);
      OpKeepsVerified(Run(s, ops[..n]), ops[n], fid);
    }
  }

  // ---- one request --------------------------------------------------------------

  // The request, made by the factor's own user, spent in time a challenge held for the factor.
  ghost predicate ProvedBy(sys: Sys, ev: Event, fid: Id, uid: Id) {
    && ev.req.VerifyFactorRequest? && ev.req.fid == fid
    && Speaks(sys, ev.req.bearer, ev.env.clk(0), uid)
    && fid in sys.store.mfa.factors && sys.store.mfa.factors[fid].userID == uid
    && ev.req.cid in sys.store.mfa.challenges && sys.store.mfa.challenges[ev.req.cid].factorID == fid
    && ev.env.clk(1) <= sys.store.mfa.challenges[ev.req.cid].expiresAt
    && ev.req.cid !in Step(sys, ev.req, ev.env).sys.store.mfa.challenges
  }

  lemma SameFactors(s: State, t: State, fid: Id)
    requires t.mfa.factors == s.mfa.factors
    ensures VerifiedBefore(s, t, fid)
  {
  }

  // A factor verified after a request was verified before, or the request proved it.
  lemma StepVerifies(sys: Sys, ev: Event, fid: Id)
    requires Inv(sys.store) && EnvOk(sys.store, ev.env)
    ensures var t := Step(sys, ev.req, ev.env).sys.store;
            || VerifiedBefore(sys.store, t, fid)
            || (IsVerified(t, fid) && ProvedBy(sys, ev, fid, t.mfa.factors[fid].userID))
  {
    hide Step, Inv, EnvOk, Speaks, Presented, PasskeyAdded, CeremonyMade, CeremonyOpen, RegistrationChecks;
    hide AllPlain, Run, RunEnabled, TrimSpace, Shows;
    var r := Step(sys, ev.req, ev.env);
    if ev.req.VerifyFactorRequest? {
      VerifyAnswered(sys, ev.req.bearer, ev.req.fid, ev.req.cid, ev.env);
    } else if ev.req.PasskeyRegistrationVerify? || ev.req.PasskeyRegistrationOptions? {
      CeremonyKeepsFactors(sys, ev);
      SameFactors(sys.store, r.sys.store, fid);
    } else {
      PlainRequest(sys, ev.req, ev.env);
      RequestIsRun(sys, ev.req, ev.env);
      PlainRunVerifiesNothing(sys.store, r.ops, fid);
    }
  }

  lemma CeremonyKeepsFactors(sys: Sys, ev: Event)
    requires Inv(sys.store) && EnvOk(sys.store, ev.env)
    requires ev.req.PasskeyRegistrationVerify? || ev.req.PasskeyRegistrationOptions?
    ensures Step(sys, ev.req, ev.env).sys.store.mfa == sys.store.mfa
  {
    hide Step, Inv, EnvOk, Speaks, Presented, CeremonyOpen, RegistrationChecks, TrimSpace;
    if ev.req.PasskeyRegistrationVerify? {
      RegistrationFinishes(sys, ev.req.bearer, ev.req.cid, ev.req.cred, ev.req.name, ev.env);
    } else {
      RegistrationStarts(sys, ev.req.bearer, ev.req.name, ev.env);
    }
  }

  // ---- runs -----------------------------------------------------------------------

  // In every run, a factor that became verified was made so by a request of its own user that spent, in time, a
  // challenge for it.
  lemma {:induction false} VerifiedOrigin(sys: Sys, evs: seq<Event>, fid: Id) returns (k: nat)
    requires Inv(sys.store) && Served(sys, evs)
    requires !IsVerified(sys.store, fid) && IsVerified(Serve(sys, evs).store, fid)
    ensures k < |evs|
    ensures ProvedBy(Serve(sys, evs[..k]), evs[k], fid, Serve(sys, evs).store.mfa.factors[fid].userID)
  {
    hide Inv, Step, EnvOk, BearerOk, ProvedBy;
    assert evs != [];
    var n := |evs| - 1;
    var before := Serve(sys, evs[..n]);
    ServeInv(sys, evs[..n]);
    StepVerifies(before, evs[n], fid);
    if IsVerified(before.store, fid) && VerifiedBefore(before.store, Serve(sys, evs).store, fid) {
      k := VerifiedOrigin(sys, evs[..n], fid);
      assert evs[..n][..k] == evs[..k];
    } else {
      k := n;
    }
  }

  // In every run, a verified factor is verified as long as it is there.
  lemma {:induction false} StaysVerified(sys: Sys, evs: seq<Event>, fid: Id)
    requires Served(sys, evs) && NeverUnverified(sys.store, fid)
    ensures NeverUnverified(Serve(sys, evs).store, fid)
  {
    hide Step, EnvOk, BearerOk, NeverUnverified, Run, RunEnabled;
    if evs != [] {
      var n := |evs| - 1;
      var before := Serve(sys, evs[..n]);
      StaysVerified(sys, evs[..n], fid);
      RequestIsRun(before, evs[n].req, evs[n].env);
      RunKeepsVerified(before.store, Step(before, evs[n].req, evs[n].env).ops, fid);
    }
  }
}

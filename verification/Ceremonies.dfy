// Where a passkey comes from: a ceremony started and finished by its own user.
module Ceremonies {
  import opened Text
  import opened Model
  import opened Ops
  import opened Invariant
  import opened Requests
  import opened Runs
  import opened Sessions
  import opened Tickets
  import opened Answers
  import opened Callers
  import opened Factors
  import opened Passkeys
  import opened Plain

  // ---- operations ---------------------------------------------------------------

  // The passkey under the id belongs to the same user and credential in both stores.
  ghost predicate KeptPasskey(s: State, t: State, pid: Id) {
    pid in t.keys.passkeys ==>
      && pid in s.keys.passkeys
      && t.keys.passkeys[pid].userID == s.keys.passkeys[pid].userID
      && t.keys.passkeys[pid].credentialID == s.keys.passkeys[pid].credentialID
  }

  predicate WritesPasskeys(op: Op) {
    op.OpAddPasskey? || op.OpDeletePasskey? || op.OpMarkPasskeyUsed? || op.OpDeleteUser? || op.OpReset?
  }

  lemma PasskeysUntouched(s: State, op: Op)
    requires !WritesPasskeys(op)
    ensures Apply(s, op).keys.passkeys == s.keys.passkeys
  {
    hide NewUser, RecomputeProviders, LinkIdentity, IdentityIndex, Without, FindLatestChild, Touched, TokensOfSession;
    hide EmailUser, NameTaken, HasMethod, HasProvider, OAuthEmail, Synthesized, AppendProviderIdentity, Unix, Backdate;
    hide DeleteUser, DeletePasskey, AddPasskey, MarkPasskeyUsed;
  }

  lemma PlainOpKeepsPasskey(s: State, op: Op, pid: Id)
    requires PlainOp(op)
    ensures KeptPasskey(s, Apply(s, op), pid)
  {
    if !WritesPasskeys(op) {
      PasskeysUntouched(s, op);
      hide Apply, WritesPasskeys;
    } else {
      hide Touched, TokensOfUser, ChallengeOfUser, Lower;
      hide CreateUser, SetUserMetadata, UpdateLastSignIn, AddIdentity, RemoveIdentity, CreateOAuthUser;
      hide CreateAuthCode, ConsumeAuthCode, CreateSession, IssueRefreshToken, IssueSession, ConsumeRefreshToken;
      hide RevokeRefreshTokensBySession, EnrollFactor, VerifyFactor, DeleteFactor, CreateChallenge, ConsumeChallenge;
      hide UpgradeSessionAAL, CreatePasskeyChallenge, ConsumePasskeyChallenge;
    }
  }

  // The registration challenge held under an id: its user and when it runs out.
  ghost predicate Registering(s: State, cid: Id, uid: Id, expiresAt: int) {
    Held(s, CeremonyChallenge, cid) == Some(Ticket(ForCeremony(Registration, uid), expiresAt))
  }

  // Operations that add no passkey and start no registration leave every passkey they keep with its user and
  // credential, and every registration challenge they keep as it was.
  lemma {:induction false} PlainRun(s: State, ops: seq<Op>, pid: Id, cid: Id, uid: Id, expiresAt: int)
    requires AllPlain(ops)
    ensures KeptPasskey(s, Run(s, ops), pid)
    ensures Registering(Run(s, ops), cid, uid, expiresAt) ==> Registering(s, cid, uid, expiresAt)
  {
    hide Apply, Held;
    if ops != [] {
      var n := |ops| - 1;
      PlainRun(s, ops[..n], pid, cid, uid, expiresAt);
      PlainOpKeepsPasskey(Run(s, ops[..n]), ops[n], pid);
      TicketCarried(Run(s, ops[..n]), ops[n], CeremonyChallenge, cid);
    }
  }

  // ---- the two ends of a registration -------------------------------------------

  // The request, made by the user, started the ceremony.
  ghost predicate Started(sys: Sys, ev: Event, cid: Id, uid: Id, expiresAt: int) {
    && ev.req.PasskeyRegistrationOptions? && Speaks(sys, ev.req.bearer, ev.env.clk(0), uid)
    && Step(sys, ev.req, ev.env).resp == Done(cid) && expiresAt == ev.env.clk(1) + 300 * SECOND
  }

  // The request, made by the user, spent a registration challenge of that user in time and registered the
  // credential.
  ghost predicate Finished(sys: Sys, ev: Event, uid: Id, cred: string, expiresAt: int) {
    && ev.req.PasskeyRegistrationVerify? && ev.req.cred == cred
    && Speaks(sys, ev.req.bearer, ev.env.clk(0), uid)
    && Registering(sys.store, ev.req.cid, uid, expiresAt) && ev.env.clk(1) <= expiresAt
    && Held(Step(sys, ev.req, ev.env).sys.store, CeremonyChallenge, ev.req.cid).None?
  }

  // Passkeys and ceremonies are as before.
  lemma SameKeys(s: State, t: State, pid: Id, cid: Id, uid: Id, expiresAt: int)
    requires t.keys == s.keys
    ensures KeptPasskey(s, t, pid)
    ensures Registering(t, cid, uid, expiresAt) <==> Registering(s, cid, uid, expiresAt)
  {
  }

  // One more ceremony.
  lemma CeremonyMadeHere(s: State, t: State, made: Id, maker: Id, name: string, value: string, now: int,
                         pid: Id, cid: Id, uid: Id, expiresAt: int)
    requires CeremonyMade(s, t, made, maker, Registration, name, value, now)
    ensures KeptPasskey(s, t, pid)
    ensures Registering(t, cid, uid, expiresAt) ==>
              Registering(s, cid, uid, expiresAt) || (cid == made && uid == maker && expiresAt == now + 300 * SECOND)
  {
  }

  // A ceremony presented, and perhaps a passkey added.
  lemma CeremonySpentHere(s: State, t: State, spent: Id, cid: Id, uid: Id, expiresAt: int)
    requires Presented(s, t, spent, Registration) || t.keys.passkeyChallenges == s.keys.passkeyChallenges
    ensures Registering(t, cid, uid, expiresAt) ==> Registering(s, cid, uid, expiresAt)
  {
  }

  lemma PasskeyAddedHere(s: State, t: State, pk: Passkey, pid: Id)
    requires PasskeyAdded(s, t, pk)
    ensures KeptPasskey(s, t, pid) || (pid == pk.id && t.keys.passkeys[pid] == pk)
  {
  }

  lemma OpenIsRegistering(s: State, t: State, cid: Id, now: int)
    requires CeremonyOpen(s, cid, Registration, now) && Presented(s, t, cid, Registration)
    ensures var ch := s.keys.passkeyChallenges[cid];
            Registering(s, cid, ch.userID, ch.expiresAt) && now <= ch.expiresAt
    ensures Held(t, CeremonyChallenge, cid).None?
  {
  }

  // ---- one request --------------------------------------------------------------

  // A request leaves a passkey's user and credential alone, or finished that passkey's registration.
  lemma StepPasskey(sys: Sys, ev: Event, pid: Id) returns (expiresAt: int)
    requires Inv(sys.store) && EnvOk(sys.store, ev.env)
    ensures var t := Step(sys, ev.req, ev.env).sys.store;
            KeptPasskey(sys.store, t, pid) ||
            Finished(sys, ev, t.keys.passkeys[pid].userID, t.keys.passkeys[pid].credentialID, expiresAt)
  {
    hide Step, Inv, EnvOk, KeptPasskey, Registering, Speaks, Held, Presented, PasskeyAdded, CeremonyMade;
    hide AllPlain, Run, RunEnabled, TrimSpace, Shows, VerifiedNow, VerifyChecks;
    expiresAt := 0;
    var r := Step(sys, ev.req, ev.env);
    if ev.req.PasskeyRegistrationVerify? {
      var bearer, cid := ev.req.bearer, ev.req.cid;
      RegistrationFinishes(sys, bearer, cid, ev.req.cred, ev.req.name, ev.env);
      KeptWithChallenges(sys.store, r.sys.store, pid);
      if r.resp.Done? {
        expiresAt := sys.store.keys.passkeyChallenges[cid].expiresAt;
        var given := TrimSpace(ev.req.name);
        var friendly := if given != "" then given else sys.store.keys.passkeyChallenges[cid].friendlyName;
        PasskeyAddedHere(sys.store, r.sys.store,
                         Passkey(r.resp.id, Subject(bearer), friendly, ev.req.cred, ev.env.clk(2), None), pid);
        OpenIsRegistering(sys.store, r.sys.store, cid, ev.env.clk(1));
      }
    } else if ev.req.PasskeyRegistrationOptions? {
      RegistrationStarts(sys, ev.req.bearer, ev.req.name, ev.env);
      SameKeys(sys.store, sys.store, pid, "", "", 0);
      if r.resp.Done? {
        CeremonyMadeHere(sys.store, r.sys.store, r.resp.id, Subject(ev.req.bearer), TrimSpace(ev.req.name),
                         ev.env.uuid(1), ev.env.clk(1), pid, "", "", 0);
      }
    } else if ev.req.VerifyFactorRequest? {
      VerifyAnswered(sys, ev.req.bearer, ev.req.fid, ev.req.cid, ev.env);
      SameKeys(sys.store, r.sys.store, pid, "", "", 0);
    } else {
      PlainRequest(sys, ev.req, ev.env);
      RequestIsRun(sys, ev.req, ev.env);
      PlainRun(sys.store, r.ops, pid, "", "", 0);
    }
  }

  lemma KeptWithChallenges(s: State, t: State, pid: Id)
    ensures t.keys.passkeys == s.keys.passkeys ==> KeptPasskey(s, t, pid)
  {
  }

  // A registration challenge held after a request was held before, or the request started it.
  lemma StepCeremony(sys: Sys, ev: Event, cid: Id, uid: Id, expiresAt: int)
    requires Inv(sys.store) && EnvOk(sys.store, ev.env)
    requires Registering(Step(sys, ev.req, ev.env).sys.store, cid, uid, expiresAt)
    ensures Registering(sys.store, cid, uid, expiresAt) || Started(sys, ev, cid, uid, expiresAt)
  {
    hide Step, Inv, EnvOk, KeptPasskey, Registering, Speaks, Held, Presented, PasskeyAdded, CeremonyMade, CeremonyOpen;
    hide AllPlain, Run, RunEnabled, TrimSpace, Shows, VerifiedNow, VerifyChecks;
    var r := Step(sys, ev.req, ev.env);
    if ev.req.PasskeyRegistrationVerify? {
      RegistrationFinishes(sys, ev.req.bearer, ev.req.cid, ev.req.cred, ev.req.name, ev.env);
      CeremonySpentHere(sys.store, r.sys.store, ev.req.cid, cid, uid, expiresAt);
    } else if ev.req.PasskeyRegistrationOptions? {
      RegistrationStarts(sys, ev.req.bearer, ev.req.name, ev.env);
      if r.resp.Done? {
        CeremonyMadeHere(sys.store, r.sys.store, r.resp.id, Subject(ev.req.bearer), TrimSpace(ev.req.name),
                         ev.env.uuid(1), ev.env.clk(1), "", cid, uid, expiresAt);
      }
    } else if ev.req.VerifyFactorRequest? {
      VerifyAnswered(sys, ev.req.bearer, ev.req.fid, ev.req.cid, ev.env);
      SameKeys(sys.store, r.sys.store, "", cid, uid, expiresAt);
    } else {
      PlainRequest(sys, ev.req, ev.env);
      RequestIsRun(sys, ev.req, ev.env);
      PlainRun(sys.store, r.ops, "", cid, uid, expiresAt);
    }
  }

  // ---- runs -----------------------------------------------------------------------

  lemma {:induction false} CeremonyStarted(sys: Sys, evs: seq<Event>, cid: Id, uid: Id, expiresAt: int) returns (j: nat)
    requires Inv(sys.store) && Served(sys, evs) && !Registering(sys.store, cid, uid, expiresAt)
    requires Registering(Serve(sys, evs).store, cid, uid, expiresAt)
    ensures j < |evs| && Started(Serve(sys, evs[..j]), evs[j], cid, uid, expiresAt)
  {
    hide Inv, Step, EnvOk, BearerOk, Registering, Started;
    assert evs != [];
    var n := |evs| - 1;
    var before := Serve(sys, evs[..n]);
    ServeInv(sys, evs[..n]);
    StepCeremony(before, evs[n], cid, uid, expiresAt);
    if Registering(before.store, cid, uid, expiresAt) {
      j := CeremonyStarted(sys, evs[..n], cid, uid, expiresAt);
      assert evs[..n][..j] == evs[..j];
    } else {
      j := n;
    }
  }

  lemma {:induction false} PasskeyFinished(sys: Sys, evs: seq<Event>, pid: Id) returns (k: nat, expiresAt: int)
    requires Inv(sys.store) && Served(sys, evs)
    requires pid !in sys.store.keys.passkeys && pid in Serve(sys, evs).store.keys.passkeys
    ensures var pk := Serve(sys, evs).store.keys.passkeys[pid];
            k < |evs| && Finished(Serve(sys, evs[..k]), evs[k], pk.userID, pk.credentialID, expiresAt)
  {
    hide Inv, Step, EnvOk, BearerOk, Finished;
    assert evs != [];
    var n := |evs| - 1;
    var before := Serve(sys, evs[..n]);
    ServeInv(sys, evs[..n]);
    expiresAt := StepPasskey(before, evs[n], pid);
    if KeptPasskey(before.store, Serve(sys, evs).store, pid) {
      k, expiresAt := PasskeyFinished(sys, evs[..n], pid);
      assert evs[..n][..k] == evs[..k];
    } else {
      k := n;
    }
  }

  // In every run that starts without ceremonies, a passkey was registered by a request of its own user, which
  // spent in time a challenge that an earlier request of that same user had started.
  lemma PasskeyOrigin(sys: Sys, evs: seq<Event>, pid: Id) returns (j: nat, k: nat, expiresAt: int)
    requires Inv(sys.store) && Served(sys, evs) && sys.store.keys == Keys(map[], map[], map[])
    requires pid in Serve(sys, evs).store.keys.passkeys
    ensures var pk := Serve(sys, evs).store.keys.passkeys[pid];
            && j < k < |evs|
            && Finished(Serve(sys, evs[..k]), evs[k], pk.userID, pk.credentialID, expiresAt)
            && Started(Serve(sys, evs[..j]), evs[j], evs[k].req.cid, pk.userID, expiresAt)
  {
    hide Inv, Step, Possible, Started, Serve, Served;
    k, expiresAt := PasskeyFinished(sys, evs, pid);
    ServedPrefix(sys, evs, k);
    var pk := Serve(sys, evs).store.keys.passkeys[pid];
    j := CeremonyStarted(sys, evs[..k], evs[k].req.cid, pk.userID, expiresAt);
    assert evs[..k][..j] == evs[..j];
  }
}

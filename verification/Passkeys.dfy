// What the passkey requests do, exactly when.
module Passkeys {
  import opened Text
  import opened Model
  import opened Ops
  import opened Integrity
  import opened Invariant
  import opened Requests
  import opened Answers
  import opened Callers

  // ---- signing in -----------------------------------------------------------------

  // A ceremony of that purpose is held under the id, and its time has not passed.
  ghost predicate CeremonyOpen(s: State, cid: Id, purpose: Purpose, now: int) {
    && cid in s.keys.passkeyChallenges && s.keys.passkeyChallenges[cid].purpose == purpose
    && now <= s.keys.passkeyChallenges[cid].expiresAt
  }

  // A sign-in ceremony is open, and the credential is one of the user's.
  ghost predicate PasskeyChecks(s: State, cid: Id, cred: string, now: int, pid: Id, uid: Id) {
    && CeremonyOpen(s, cid, Authentication, now)
    && pid in s.keys.passkeys && s.keys.passkeys[pid].credentialID == cred != ""
    && s.keys.passkeys[pid].userID == uid
  }

  lemma AuthenticationVerifyIs(sys: Sys, cid: Id, cred: string, env: Env)
    ensures Step(sys, PasskeyAuthenticationVerify(cid, cred), env) == AuthenticationVerifyStep(sys, cid, cred, env)
  {
    hide AuthenticationVerifyStep;
  }

  // The store after a ceremony was presented: it is spent, if it was one.
  ghost predicate Presented(s: State, t: State, cid: Id, purpose: Purpose) {
    t.keys.passkeyChallenges ==
      if cid in s.keys.passkeyChallenges && s.keys.passkeyChallenges[cid].purpose == purpose
      then s.keys.passkeyChallenges - {cid}
      else s.keys.passkeyChallenges
  }

  lemma CredentialOwner(s: State, cred: string)
    requires Inv(s)
    ensures var pk := FindPasskeyByCredentialID(s, cred);
            && (pk.None? ==> forall p | p in s.keys.passkeys :: s.keys.passkeys[p].credentialID != cred)
            && (pk.Some? ==>
                  var pid := pk.value.id;
                  && pid in s.keys.passkeys && s.keys.passkeys[pid] == pk.value && pk.value.credentialID == cred
                  && pk.value.userID in s.accounts.users && s.accounts.users[pk.value.userID].id == pk.value.userID
                  && forall p | p in s.keys.passkeys && s.keys.passkeys[p].credentialID == cred :: p == pid)
    ensures "" !in s.keys.passkeyChallenges
  {
    assert CredIndex(s.keys.passkeys, s.keys.passkeyByCred) && PasskeysOk(s.keys.passkeys, s.accounts.users.Keys);
    assert UsersOk(s.accounts.users) && s.keys.passkeyChallenges.Keys <= s.ids.used && "" !in s.ids.used;
    hide Inv;
  }

  // What presenting a ceremony leaves of the store, and why it is refused.
  lemma CeremonyPresented(s: State, cid: Id, purpose: Purpose, cred: string, now: int)
    requires Inv(s)
    ensures var a := ConsumePasskeyChallenge(s, cid, purpose, now);
            && (a.res.Ok? <==> CeremonyOpen(s, cid, purpose, now))
            && (a.res.Ok? ==> a.res.value == s.keys.passkeyChallenges[cid])
            && Presented(s, a.st, cid, purpose)
            && a.st == s.(keys := s.keys.(passkeyChallenges := a.st.keys.passkeyChallenges))
            && FindPasskeyByCredentialID(a.st, cred) == FindPasskeyByCredentialID(s, cred)
            && (a.res.Err? ==> (a.res.error.PasskeyChallengeExpired? <==>
                  cid in s.keys.passkeyChallenges && s.keys.passkeyChallenges[cid].purpose == purpose))
  {
    hide Inv;
  }

  lemma NoEmptyCeremony(s: State)
    requires Inv(s)
    ensures "" !in s.keys.passkeyChallenges
  {
    CredentialOwner(s, "");
  }

  // A passkey sign-in is answered with tokens for a user exactly when a sign-in ceremony is open under the id and
  // the credential is a passkey of that user. The ceremony is spent, whatever the answer; the passkey is stamped.
  lemma PasskeySignsIn(sys: Sys, cid: Id, cred: string, env: Env) returns (pid: Id)
    requires Inv(sys.store)
    ensures var r := Step(sys, PasskeyAuthenticationVerify(cid, cred), env);
            var s := sys.store;
            && (forall p, uid | PasskeyChecks(s, cid, cred, env.clk(0), p, uid) ::
                  r.resp.Token? && r.resp.tr.user.id == uid)
            && (r.resp.Token? ==>
                  && PasskeyChecks(s, cid, cred, env.clk(0), pid, r.resp.tr.user.id)
                  && Shows(sys, r, env.clk(4)) && Opened(s, r, "webauthn", env.clk(2), env.clk(3))
                  && r.sys.store.keys.passkeys ==
                       s.keys.passkeys[pid := s.keys.passkeys[pid].(lastUsedAt := Some(env.clk(1)))])
            && (!r.resp.Token? ==>
                  r.sys == sys.(store := s.(keys := s.keys.(passkeyChallenges := r.sys.store.keys.passkeyChallenges))))
            && r.sys.store.accounts == s.accounts && r.sys.store.mfa == s.mfa
            && r.sys.store.oauth == s.oauth && r.sys.store.keys.passkeyByCred == s.keys.passkeyByCred
            && (if cred == "" then r.sys == sys else Presented(s, r.sys.store, cid, Authentication))
  {
    hide Step, Inv, TrimSpace, IssueWithMethod, Shows, Opened, Presented, CeremonyOpen, ConsumePasskeyChallenge;
    hide FindPasskeyByCredentialID;
    AuthenticationVerifyIs(sys, cid, cred, env);
    CredentialOwner(sys.store, cred);
    CeremonyPresented(sys.store, cid, Authentication, cred, env.clk(0));
    AbsentCeremony(sys.store, cid, Authentication, env.clk(0));
    pid := "";
    var a := ConsumePasskeyChallenge(sys.store, cid, Authentication, env.clk(0));
    var pk := FindPasskeyByCredentialID(sys.store, cred);
    if cid != "" && cred != "" && a.res.Ok? && pk.Some? {
      pid := pk.value.id;
      var st := MarkPasskeyUsed(a.st, pid, env.clk(1));
      var u := sys.store.accounts.users[pk.value.userID];
      IssueShows(sys.(store := st), u, WEBAUTHN, env, 2, 0);
      var r := IssueWithMethod(sys.(store := st), u, WEBAUTHN, env, 2, 0);
      SameSys(sys, sys.(store := st), r, env.clk(4), OpMarkPasskeyUsed(pid, env.clk(1)));
      SameSys(sys, sys, Then(OpMarkPasskeyUsed(pid, env.clk(1)), r), env.clk(4),
              OpConsumePasskeyChallenge(cid, Authentication, env.clk(0)));
      SameOpened(sys.store, st, r, OpMarkPasskeyUsed(pid, env.clk(1)), WEBAUTHN, env.clk(2), env.clk(3));
      SameOpened(sys.store, sys.store, Then(OpMarkPasskeyUsed(pid, env.clk(1)), r),
                 OpConsumePasskeyChallenge(cid, Authentication, env.clk(0)), WEBAUTHN, env.clk(2), env.clk(3));
      SamePresented(sys.store, a.st, r.sys.store, cid, Authentication);
    }
  }

  lemma SamePresented(s: State, a: State, t: State, cid: Id, purpose: Purpose)
    requires t.keys.passkeyChallenges == a.keys.passkeyChallenges
    ensures Presented(s, t, cid, purpose) <==> Presented(s, a, cid, purpose)
  {
  }

  lemma AbsentCeremony(s: State, cid: Id, purpose: Purpose, now: int)
    requires "" !in s.keys.passkeyChallenges
    ensures cid == "" ==> !CeremonyOpen(s, cid, purpose, now) && Presented(s, s, cid, purpose)
  {
  }

  // Why a passkey sign-in is refused: no ceremony of that kind, one past its time, or a credential of nobody.
  lemma PasskeyRefused(sys: Sys, cid: Id, cred: string, env: Env)
    requires Inv(sys.store) && !Step(sys, PasskeyAuthenticationVerify(cid, cred), env).resp.Token?
    ensures var challenges := sys.store.keys.passkeyChallenges;
            Step(sys, PasskeyAuthenticationVerify(cid, cred), env).resp ==
              if cid == "" || cred == "" then Rejected(422, "validation_failed")
              else if cid !in challenges || challenges[cid].purpose != Authentication
              then Rejected(404, "passkey_challenge_not_found")
              else if env.clk(0) > challenges[cid].expiresAt then Rejected(422, "passkey_challenge_expired")
              else Rejected(401, "invalid_credentials")
  {
    hide Step, Inv, IssueWithMethod, FindPasskeyByCredentialID, Presented;
    AuthenticationVerifyIs(sys, cid, cred, env);
    CeremonyPresented(sys.store, cid, Authentication, cred, env.clk(0));
    CredentialOwner(sys.store, cred);
    var pid := PasskeySignsIn(sys, cid, cred, env);
    hide Shows, PasskeyChecks;
    var a := ConsumePasskeyChallenge(sys.store, cid, Authentication, env.clk(0));
    var pk := FindPasskeyByCredentialID(sys.store, cred);
    if a.res.Ok? && pk.Some? {
      IssueShows(sys.(store := MarkPasskeyUsed(a.st, pk.value.id, env.clk(1))),
                 sys.store.accounts.users[pk.value.userID], WEBAUTHN, env, 2, 0);
    }
  }

  // ---- starting a ceremony --------------------------------------------------------

  lemma CeremonyRequestIs(sys: Sys, bearer: Bearer, cid: Id, cred: string, name: string, env: Env)
    ensures Step(sys, PasskeyRegistrationOptions(bearer, name), env) == RegistrationOptionsStep(sys, bearer, name, env)
    ensures Step(sys, PasskeyRegistrationVerify(bearer, cid, cred, name), env) ==
              RegistrationVerifyStep(sys, bearer, cid, cred, name, env)
    ensures Step(sys, PasskeyAuthenticationOptions, env) == AuthenticationOptionsStep(sys, env)
    ensures Step(sys, PasskeyDelete(bearer, cid), env) == PasskeyDeleteStep(sys, bearer, cid, env)
  {
    hide RegistrationOptionsStep, RegistrationVerifyStep, AuthenticationOptionsStep, PasskeyDeleteStep;
  }

  // The store with a new ceremony, which lasts five minutes.
  ghost predicate CeremonyMade(s: State, t: State, cid: Id, uid: Id, p: Purpose, name: string, value: string, now: int)
  {
    && cid !in s.ids.used
    && t == s.(keys := s.keys.(passkeyChallenges := s.keys.passkeyChallenges[cid :=
                   PasskeyChallenge(cid, uid, p, name, value, now, now + 300 * SECOND)]),
               ids := Ids(s.ids.used + {cid}))
  }

  // A registration is started exactly for a caller, and bound to that user.
  lemma RegistrationStarts(sys: Sys, bearer: Bearer, name: string, env: Env)
    requires Inv(sys.store) && EnvOk(sys.store, env)
    ensures var r := Step(sys, PasskeyRegistrationOptions(bearer, name), env);
            && (r.resp.Done? <==> Speaks(sys, bearer, env.clk(0), Subject(bearer)))
            && (r.resp.Done? ==>
                  && r.sys == sys.(store := r.sys.store)
                  && CeremonyMade(sys.store, r.sys.store, r.resp.id, Subject(bearer), Registration, TrimSpace(name),
                                  env.uuid(1), env.clk(1)))
            && (!r.resp.Done? ==> r.sys == sys)
  {
    hide Step, Inv, TrimSpace, RequireUser, Speaks, Synthesized;
    CeremonyRequestIs(sys, bearer, "", "", name, env);
    KnownCaller(sys, bearer, env.clk(0));
  }

  // A sign-in ceremony is started for anybody, and bound to nobody.
  lemma AuthenticationStarts(sys: Sys, env: Env)
    requires EnvOk(sys.store, env)
    ensures var r := Step(sys, PasskeyAuthenticationOptions, env);
            && r.resp.Done? && r.sys == sys.(store := r.sys.store)
            && CeremonyMade(sys.store, r.sys.store, r.resp.id, "", Authentication, "", env.uuid(1), env.clk(0))
  {
    hide Step, Synthesized;
    CeremonyRequestIs(sys, NoBearer, "", "", "", env);
  }

  // ---- registering ----------------------------------------------------------------

  // A registration of the caller's is open under the id, and the credential is nobody's yet.
  ghost predicate RegistrationChecks(sys: Sys, bearer: Bearer, cid: Id, cred: string, env: Env) {
    && Speaks(sys, bearer, env.clk(0), Subject(bearer))
    && CeremonyOpen(sys.store, cid, Registration, env.clk(1))
    && sys.store.keys.passkeyChallenges[cid].userID == Subject(bearer)
    && cred != "" && forall p | p in sys.store.keys.passkeys :: sys.store.keys.passkeys[p].credentialID != cred
  }

  lemma CredentialTaken(s: State, cred: string)
    requires Inv(s)
    ensures cred in s.keys.passkeyByCred <==>
              exists p | p in s.keys.passkeys :: s.keys.passkeys[p].credentialID == cred
  {
    assert CredIndex(s.keys.passkeys, s.keys.passkeyByCred);
    hide Inv;
  }

  // The store with a new passkey.
  ghost predicate PasskeyAdded(s: State, t: State, pk: Passkey) {
    && pk.id !in s.ids.used
    && t == s.(keys := t.keys, ids := Ids(s.ids.used + {pk.id}))
    && t.keys.passkeys == s.keys.passkeys[pk.id := pk]
    && t.keys.passkeyByCred == s.keys.passkeyByCred[pk.credentialID := pk.id]
  }

  lemma FinishAdds(sys: Sys, uid: Id, friendly: string, cred: string, env: Env)
    requires uid in sys.store.accounts.users && Fresh(sys.store, env.uuid(0))
    ensures var r := FinishRegistration(sys, uid, friendly, cred, env);
            var pk := Passkey(env.uuid(0), uid, friendly, cred, env.clk(2), None);
            if cred in sys.store.keys.passkeyByCred
            then r.resp == Rejected(422, "passkey_already_exists") && r.sys == sys
            else
              && r.resp == Done(pk.id) && r.sys == sys.(store := r.sys.store)
              && PasskeyAdded(sys.store, r.sys.store, pk)
              && r.sys.store.keys.passkeyChallenges == sys.store.keys.passkeyChallenges
  {
  }

  lemma SameAdded(s: State, a: State, t: State, pk: Passkey)
    requires a == s.(keys := s.keys.(passkeyChallenges := a.keys.passkeyChallenges)) && PasskeyAdded(a, t, pk)
    ensures PasskeyAdded(s, t, pk)
  {
  }

  // A registration is finished exactly when the caller's own ceremony is open and the credential is new. It adds the
  // one passkey for the caller; the ceremony is spent, whatever the answer.
  lemma RegistrationFinishes(sys: Sys, bearer: Bearer, cid: Id, cred: string, name: string, env: Env)
    requires Inv(sys.store) && EnvOk(sys.store, env)
    ensures var r := Step(sys, PasskeyRegistrationVerify(bearer, cid, cred, name), env);
            var s, t := sys.store, r.sys.store;
            && (r.resp.Done? <==> RegistrationChecks(sys, bearer, cid, cred, env))
            && (r.resp.Done? ==>
                  var given := TrimSpace(name);
                  var friendly := if given != "" then given else s.keys.passkeyChallenges[cid].friendlyName;
                  && PasskeyAdded(s, t, Passkey(r.resp.id, Subject(bearer), friendly, cred, env.clk(2), None))
                  && r.sys == sys.(store := t))
            && (!r.resp.Done? ==>
                  r.sys == sys.(store := s.(keys := s.keys.(passkeyChallenges := t.keys.passkeyChallenges))))
            && (if Speaks(sys, bearer, env.clk(0), Subject(bearer)) && cred != ""
                then Presented(s, t, cid, Registration)
                else r.sys == sys)
  {
    hide Step, Inv, EnvOk, TrimSpace, RequireUser, Speaks, ConsumePasskeyChallenge, CeremonyOpen, Presented;
    hide FinishRegistration, PasskeyAdded;
    CeremonyRequestIs(sys, bearer, cid, cred, name, env);
    KnownCaller(sys, bearer, env.clk(0));
    CeremonyPresented(sys.store, cid, Registration, cred, env.clk(1));
    NoEmptyCeremony(sys.store);
    AbsentCeremony(sys.store, cid, Registration, env.clk(1));
    CredentialTaken(sys.store, cred);
    var r := Step(sys, PasskeyRegistrationVerify(bearer, cid, cred, name), env);
    var a := ConsumePasskeyChallenge(sys.store, cid, Registration, env.clk(1));
    if Speaks(sys, bearer, env.clk(0), Subject(bearer)) && cid != "" && cred != "" {
      if a.res.Ok? && a.res.value.userID == Subject(bearer) {
        var friendly := if TrimSpace(name) == "" then a.res.value.friendlyName else TrimSpace(name);
        FreshUUID(sys.store, a.st, env);
        FinishAdds(sys.(store := a.st), Subject(bearer), friendly, cred, env);
        if r.resp.Done? {
          var pk := Passkey(env.uuid(0), Subject(bearer), friendly, cred, env.clk(2), None);
          SameAdded(sys.store, a.st, r.sys.store, pk);
        }
      }
      SamePresented(sys.store, a.st, r.sys.store, cid, Registration);
    }
  }

  lemma FreshUUID(s: State, a: State, env: Env)
    requires EnvOk(s, env) && a.ids == s.ids
    ensures Fresh(a, env.uuid(0))
  {
    hide Synthesized;
  }

  // Why a caller's registration is refused.
  lemma RegistrationRefused(sys: Sys, bearer: Bearer, cid: Id, cred: string, name: string, env: Env)
    requires Inv(sys.store) && EnvOk(sys.store, env) && Speaks(sys, bearer, env.clk(0), Subject(bearer))
    requires !Step(sys, PasskeyRegistrationVerify(bearer, cid, cred, name), env).resp.Done?
    ensures var challenges := sys.store.keys.passkeyChallenges;
            Step(sys, PasskeyRegistrationVerify(bearer, cid, cred, name), env).resp ==
              if cid == "" || cred == "" then Rejected(422, "validation_failed")
              else if cid !in challenges || challenges[cid].purpose != Registration
              then Rejected(404, "passkey_challenge_not_found")
              else if env.clk(1) > challenges[cid].expiresAt then Rejected(422, "passkey_challenge_expired")
              else if challenges[cid].userID != Subject(bearer) then Rejected(404, "passkey_challenge_not_found")
              else Rejected(422, "passkey_already_exists")
  {
    hide Step, Inv, EnvOk, TrimSpace, RequireUser, Speaks, ConsumePasskeyChallenge, Presented;
    hide FinishRegistration, PasskeyAdded;
    CeremonyRequestIs(sys, bearer, cid, cred, name, env);
    KnownCaller(sys, bearer, env.clk(0));
    CeremonyPresented(sys.store, cid, Registration, cred, env.clk(1));
    var a := ConsumePasskeyChallenge(sys.store, cid, Registration, env.clk(1));
    if cid != "" && cred != "" && a.res.Ok? && a.res.value.userID == Subject(bearer) {
      var friendly := if TrimSpace(name) == "" then a.res.value.friendlyName else TrimSpace(name);
      FreshUUID(sys.store, a.st, env);
      FinishAdds(sys.(store := a.st), Subject(bearer), friendly, cred, env);
    }
  }

  // ---- deleting -------------------------------------------------------------------

  // A passkey is deleted exactly when it is the caller's own; it goes with its credential entry, and nothing else does.
  lemma PasskeyDeleted(sys: Sys, bearer: Bearer, pid: Id, env: Env)
    requires Inv(sys.store)
    ensures var r := Step(sys, PasskeyDelete(bearer, pid), env);
            var keys := sys.store.keys;
            && (r.resp.Done? <==>
                  && Speaks(sys, bearer, env.clk(0), Subject(bearer))
                  && pid in keys.passkeys && keys.passkeys[pid].userID == Subject(bearer))
            && (r.resp.Done? ==> r.resp.id == pid && r.sys == sys.(store := sys.store.(keys := keys.(
                  passkeys := keys.passkeys - {pid},
                  passkeyByCred := keys.passkeyByCred - {keys.passkeys[pid].credentialID}))))
            && (!r.resp.Done? ==> r.sys == sys)
            && (Speaks(sys, bearer, env.clk(0), Subject(bearer)) && !r.resp.Done? ==>
                  r.resp == Rejected(404, "passkey_not_found"))
  {
    hide Step, Inv, TrimSpace, RequireUser, Speaks;
    CeremonyRequestIs(sys, bearer, pid, "", "", env);
    KnownCaller(sys, bearer, env.clk(0));
    PasskeyKeyed(sys.store, pid);
  }

  lemma PasskeyKeyed(s: State, pid: Id)
    requires Inv(s)
    ensures pid in s.keys.passkeys ==> s.keys.passkeys[pid].id == pid
  {
    assert PasskeysOk(s.keys.passkeys, s.accounts.users.Keys);
    hide Inv;
  }
}

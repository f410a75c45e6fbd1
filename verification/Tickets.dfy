// Single-use tickets: MFA challenges, passkey challenges and authorization codes.
module Tickets {
  import opened Text
  import opened Model
  import opened Ops
  import opened Integrity
  import opened Emails
  import opened Invariant

  datatype Kind = MfaChallenge | CeremonyChallenge | AuthorizationCode

  // What a ticket is good for. A discoverable ceremony has the user "".
  datatype Bound = ForFactor(factorID: Id) | ForCeremony(purpose: Purpose, userID: Id) | ForUser(userID: Id)

  datatype Ticket = Ticket(bound: Bound, expiresAt: int)

  // The ticket stored under an id.
  ghost function Held(s: State, kind: Kind, id: Id): Option<Ticket> {
    match kind
    case MfaChallenge =>
      if id in s.mfa.challenges
      then Some(Ticket(ForFactor(s.mfa.challenges[id].factorID), s.mfa.challenges[id].expiresAt))
      else None
    case CeremonyChallenge =>
      if id in s.keys.passkeyChallenges
      then
        var ch := s.keys.passkeyChallenges[id];
        Some(Ticket(ForCeremony(ch.purpose, ch.userID), ch.expiresAt))
      else None
    case AuthorizationCode =>
      if id in s.oauth.authCodes
      then Some(Ticket(ForUser(s.oauth.authCodes[id].userID), s.oauth.authCodes[id].expiresAt))
      else None
  }

  // The operation that makes the ticket, and the ticket it makes: five minutes from its clock reading.
  ghost function Minted(op: Op, kind: Kind, id: Id): Option<Ticket> {
    if kind.MfaChallenge? && op.OpCreateChallenge? && op.cid == id
    then Some(Ticket(ForFactor(op.fid), op.now + 300 * SECOND))
    else if kind.CeremonyChallenge? && op.OpCreatePasskeyChallenge? && op.cid == id
    then Some(Ticket(ForCeremony(op.purpose, op.uid), op.now + 300 * SECOND))
    else if kind.AuthorizationCode? && op.OpCreateAuthCode? && op.code == id
    then Some(Ticket(ForUser(op.uid), op.now + 300 * SECOND))
    else None
  }

  // The operation presents the ticket, for the given use, and is accepted. Presenting a code
  // names no user; the use is the user the accepted code is answered with.
  ghost predicate Spends(s: State, op: Op, kind: Kind, id: Id, use: Bound) {
    match kind
    case MfaChallenge =>
      op.OpConsumeChallenge? && op.cid == id && use == ForFactor(op.fid)
      && ConsumeChallenge(s, op.fid, id, op.now).res.Ok?
    case CeremonyChallenge =>
      op.OpConsumePasskeyChallenge? && op.cid == id
      && ConsumePasskeyChallenge(s, id, op.purpose, op.now).res.Ok?
      && use == ForCeremony(op.purpose, ConsumePasskeyChallenge(s, id, op.purpose, op.now).res.value.userID)
    case AuthorizationCode =>
      op.OpConsumeAuthCode? && op.code == id
      && ConsumeAuthCode(s, id, op.now).res.Ok?
      && use == ForUser(ConsumeAuthCode(s, id, op.now).res.value.userID)
  }

  ghost function Time(op: Op): int {
    match op
    case OpConsumeChallenge(_, _, now) => now
    case OpConsumePasskeyChallenge(_, _, now) => now
    case OpConsumeAuthCode(_, now) => now
    case _ => 0
  }

  // ---- one step ---------------------------------------------------------------

  predicate WritesTickets(op: Op) {
    op.OpCreateChallenge? || op.OpConsumeChallenge? || op.OpCreatePasskeyChallenge? || op.OpConsumePasskeyChallenge?
    || op.OpCreateAuthCode? || op.OpConsumeAuthCode? || op.OpDeleteFactor? || op.OpDeleteUser? || op.OpReset?
  }

  lemma TicketsUntouched(s: State, op: Op)
    requires !WritesTickets(op)
    ensures var t := Apply(s, op);
            && t.mfa.challenges == s.mfa.challenges
            && t.keys.passkeyChallenges == s.keys.passkeyChallenges
            && t.oauth == s.oauth
  {
    hide NewUser, RecomputeProviders, LinkIdentity, IdentityIndex, Without, FindLatestChild, Touched, TokensOfSession;
    hide EmailUser, NameTaken, HasMethod, HasProvider, OAuthEmail, Synthesized, AppendProviderIdentity, Unix, Backdate;
    hide DeleteUser, DeleteFactor, CreateChallenge, ConsumeChallenge, CreatePasskeyChallenge, ConsumePasskeyChallenge;
    hide CreateAuthCode, ConsumeAuthCode;
  }

  lemma UsedGrows(s: State, op: Op)
    ensures s.ids.used <= Apply(s, op).ids.used
  {
    hide NewUser, RecomputeProviders, LinkIdentity, IdentityIndex, Without, FindLatestChild, Touched, TokensOfSession;
    hide EmailUser, NameTaken, HasMethod, HasProvider, OAuthEmail, Synthesized, AppendProviderIdentity, Unix, Backdate;
  }

  ghost predicate Carried(s: State, t: State, op: Op, kind: Kind, id: Id) {
    Held(t, kind, id).Some? ==>
      Held(t, kind, id) == Held(s, kind, id) || Held(t, kind, id) == Minted(op, kind, id)
  }

  // One lemma per operation that writes tickets.

  lemma CreateChallengeCarries(s: State, op: Op, kind: Kind, id: Id)
    requires op.OpCreateChallenge?
    ensures Carried(s, Apply(s, op), op, kind, id)
  {
  }

  lemma ConsumeChallengeCarries(s: State, op: Op, kind: Kind, id: Id)
    requires op.OpConsumeChallenge?
    ensures Carried(s, Apply(s, op), op, kind, id)
  {
  }

  lemma CreatePasskeyChallengeCarries(s: State, op: Op, kind: Kind, id: Id)
    requires op.OpCreatePasskeyChallenge?
    ensures Carried(s, Apply(s, op), op, kind, id)
  {
  }

  lemma ConsumePasskeyChallengeCarries(s: State, op: Op, kind: Kind, id: Id)
    requires op.OpConsumePasskeyChallenge?
    ensures Carried(s, Apply(s, op), op, kind, id)
  {
  }

  lemma CreateAuthCodeCarries(s: State, op: Op, kind: Kind, id: Id)
    requires op.OpCreateAuthCode?
    ensures Carried(s, Apply(s, op), op, kind, id)
  {
  }

  lemma ConsumeAuthCodeCarries(s: State, op: Op, kind: Kind, id: Id)
    requires op.OpConsumeAuthCode?
    ensures Carried(s, Apply(s, op), op, kind, id)
  {
  }

  lemma DeleteFactorCarries(s: State, op: Op, kind: Kind, id: Id)
    requires op.OpDeleteFactor?
    ensures Carried(s, Apply(s, op), op, kind, id)
  {
  }

  lemma DeleteUserCarries(s: State, op: Op, kind: Kind, id: Id)
    requires op.OpDeleteUser?
    ensures Carried(s, Apply(s, op), op, kind, id)
  {
    hide Touched, TokensOfUser, ChallengeOfUser, Lower;
  }

  lemma ResetCarries(s: State, op: Op, kind: Kind, id: Id)
    requires op.OpReset?
    ensures Carried(s, Apply(s, op), op, kind, id)
  {
  }

  lemma WriterCarries(s: State, op: Op, kind: Kind, id: Id)
    requires WritesTickets(op)
    ensures Carried(s, Apply(s, op), op, kind, id)
  {
    hide Apply, Carried;
    match op {
      case OpCreateChallenge(_, _, _, _) => CreateChallengeCarries(s, op, kind, id);
      case OpConsumeChallenge(_, _, _) => ConsumeChallengeCarries(s, op, kind, id);
      case OpCreatePasskeyChallenge(_, _, _, _, _, _) => CreatePasskeyChallengeCarries(s, op, kind, id);
      case OpConsumePasskeyChallenge(_, _, _) => ConsumePasskeyChallengeCarries(s, op, kind, id);
      case OpCreateAuthCode(_, _, _) => CreateAuthCodeCarries(s, op, kind, id);
      case OpConsumeAuthCode(_, _) => ConsumeAuthCodeCarries(s, op, kind, id);
      case OpDeleteFactor(_, _) => DeleteFactorCarries(s, op, kind, id);
      case OpDeleteUser(_) => DeleteUserCarries(s, op, kind, id);
      case OpReset => ResetCarries(s, op, kind, id);
      case _ =>
    }
  }

  // A ticket held after a step was held unchanged before, or is the one the step minted.
  lemma TicketCarried(s: State, op: Op, kind: Kind, id: Id)
    ensures Carried(s, Apply(s, op), op, kind, id)
  {
    hide Apply, WritesTickets;
    if !WritesTickets(op) {
      TicketsUntouched(s, op);
    } else {
      WriterCarries(s, op, kind, id);
    }
  }

  // A minted id was never issued before, so it was not held.
  lemma MintedIsFresh(s: State, op: Op, kind: Kind, id: Id)
    requires Enabled(s, op) && Minted(op, kind, id).Some?
    ensures id !in s.ids.used
  {
    hide Synthesized;
  }

  // An accepted ticket was held for exactly that use, was not past its time, and is gone afterwards.
  lemma SpendStep(s: State, op: Op, kind: Kind, id: Id, use: Bound)
    requires Spends(s, op, kind, id, use)
    ensures Held(s, kind, id).Some?
    ensures Held(s, kind, id).value.bound == use && Time(op) <= Held(s, kind, id).value.expiresAt
    ensures Held(Apply(s, op), kind, id).None?
  {
    hide CreateUser, SetUserMetadata, UpdateLastSignIn, AddIdentity, RemoveIdentity, CreateOAuthUser, DeleteUser;
    hide CreateSession, IssueRefreshToken, IssueSession, ConsumeRefreshToken, RevokeRefreshTokensBySession,
        DeleteFactor;
    hide EnrollFactor, VerifyFactor, UpgradeSessionAAL, AddPasskey, DeletePasskey, MarkPasskeyUsed, CreateChallenge;
    hide CreatePasskeyChallenge, CreateAuthCode;
  }

  lemma HeldIsUsed(s: State, kind: Kind, id: Id)
    requires Issued(s) && Held(s, kind, id).Some?
    ensures id in s.ids.used
  {
  }

  // ---- runs -------------------------------------------------------------------

  // An id that was used and is not held is never held again.
  lemma {:induction false} NeverAgain(s: State, ops: seq<Op>, kind: Kind, id: Id)
    requires RunEnabled(s, ops) && id in s.ids.used && Held(s, kind, id).None?
    ensures Held(Run(s, ops), kind, id).None? && id in Run(s, ops).ids.used
  {
    hide Apply, Enabled, Held;
    if ops != [] {
      var t, op := Run(s, ops[..|ops| - 1]), ops[|ops| - 1];
      NeverAgain(s, ops[..|ops| - 1], kind, id);
      TicketCarried(t, op, kind, id);
      UsedGrows(t, op);
      if Minted(op, kind, id).Some? {
        MintedIsFresh(t, op, kind, id);
      }
    }
  }

  // A ticket held at the end of a run was minted by one of its steps, unless held from the start.
  lemma {:induction false} Origin(s: State, ops: seq<Op>, kind: Kind, id: Id) returns (j: nat)
    requires RunEnabled(s, ops) && Held(s, kind, id).None? && Held(Run(s, ops), kind, id).Some?
    ensures j < |ops| && Minted(ops[j], kind, id) == Held(Run(s, ops), kind, id)
  {
    hide Apply, Enabled, Held, Minted;
    if ops == [] {
      assert false;
    } else {
      var n := |ops| - 1;
      TicketCarried(Run(s, ops[..n]), ops[n], kind, id);
      if Minted(ops[n], kind, id) == Held(Run(s, ops), kind, id) {
        j := n;
      } else {
        j := Origin(s, ops[..n], kind, id);
      }
    }
  }

  // A ticket accepted at step k was minted at an earlier step j, for the same use, at most
  // five minutes before; and no other step of the run accepts it.
  lemma SingleUse(s: State, ops: seq<Op>, k: nat, kind: Kind, id: Id, use: Bound) returns (j: nat)
    requires RunEnabled(s, ops) && Inv(s) && Held(s, kind, id).None?
    requires k < |ops| && Spends(Run(s, ops[..k]), ops[k], kind, id, use)
    ensures j < k && Minted(ops[j], kind, id).Some?
    ensures Minted(ops[j], kind, id).value.bound == use
    ensures Time(ops[k]) <= Minted(ops[j], kind, id).value.expiresAt
    ensures forall m, other | 0 <= m < |ops| && m != k :: !Spends(Run(s, ops[..m]), ops[m], kind, id, other)
  {
    hide Apply, Enabled, Inv, Spends, Held, Minted, Time;
    var t := Run(s, ops[..k]);
    assert ops == ops[..k] + ops[k..];
    RunConcat(s, ops[..k], ops[k..]);
    SpendStep(t, ops[k], kind, id, use);
    j := Origin(s, ops[..k], kind, id);
    forall m, other | 0 <= m < |ops| && m != k ensures !Spends(Run(s, ops[..m]), ops[m], kind, id, other) {
      if m > k {
        AcceptedOnce(s, ops, k, m, kind, id, use, other);
      } else if Spends(Run(s, ops[..m]), ops[m], kind, id, other) {
        AcceptedOnce(s, ops, m, k, kind, id, other, use);
      }
    }
  }

  lemma AcceptedOnce(s: State, ops: seq<Op>, k: nat, m: nat, kind: Kind, id: Id, use: Bound, other: Bound)
    requires RunEnabled(s, ops) && Inv(s)
    requires k < m < |ops| && Spends(Run(s, ops[..k]), ops[k], kind, id, use)
    ensures !Spends(Run(s, ops[..m]), ops[m], kind, id, other)
  {
    hide Apply, Enabled, Inv, Spends, Held;
    var t := Run(s, ops[..k]);
    var u := Run(s, ops[..k + 1]);
    assert ops[..k + 1][..k] == ops[..k] && ops[..m] == ops[..k + 1] + ops[k + 1..m];
    assert ops == ops[..k] + ops[k..] && ops == ops[..m] + ops[m..];
    RunConcat(s, ops[..k], ops[k..]);
    RunConcat(s, ops[..m], ops[m..]);
    RunConcat(s, ops[..k + 1], ops[k + 1..m]);
    RunInv(s, ops[..k]);
    SpendStep(t, ops[k], kind, id, use);
    InvIssued(t);
    HeldIsUsed(t, kind, id);
    UsedGrows(t, ops[k]);
    NeverAgain(u, ops[k + 1..m], kind, id);
    if Spends(Run(s, ops[..m]), ops[m], kind, id, other) {
      SpendStep(Run(s, ops[..m]), ops[m], kind, id, other);
    }
  }

  lemma InvIssued(s: State)
    requires Inv(s)
    ensures Issued(s)
  {
  }

  // An expired challenge is reported expired once: whatever happens afterwards, it is not found again. The
  // comment in ConsumeChallenge that later calls report it expired too does not hold of the code.
  lemma ExpiredReportedOnce(s: State, ops: seq<Op>, fid: Id, cid: Id, now: int, fid': Id, now': int)
    requires Inv(s) && ConsumeChallenge(s, fid, cid, now).res == Err(ChallengeExpired)
    requires RunEnabled(ConsumeChallenge(s, fid, cid, now).st, ops)
    ensures ConsumeChallenge(Run(ConsumeChallenge(s, fid, cid, now).st, ops), fid', cid, now').res ==
            Err(ChallengeNotFound)
  {
    hide Rotates, Run, RunEnabled, LowerEntries;
    NeverAgain(ConsumeChallenge(s, fid, cid, now).st, ops, MfaChallenge, cid);
  }
}

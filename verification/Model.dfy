// The records of the in-memory auth store and the state of the whole store.
module Model {
  import opened Words

  // Every id, token and code is a string; the ones the store makes are UUIDs.
  type Id = string

  datatype Option<+T> = None | Some(value: T)

  datatype Error =
    | UserAlreadyExists
    | UserNotFound
    | InvalidRefreshToken
    | FactorNotFound
    | FactorNameConflict
    | ChallengeNotFound
    | ChallengeExpired
    | IdentityExists
    | IdentityNotFound
    | LastIdentity
    | AuthCodeNotFound
    | PasskeyNotFound
    | PasskeyExists
    | PasskeyChallengeNotFound
    | PasskeyChallengeExpired
    | NilUser // find-or-create would dereference a missing user; proved never to happen

  datatype Result<+T> = Ok(value: T) | Err(error: Error)

  // Metadata values: what JSON decoding yields, plus the []string and []byte the store itself writes.
  datatype Json =
    | Null
    | Bool(b: bool)
    | Num(n: int)
    | Str(s: string)
    | Strs(strs: seq<string>)
    | Bytes(bytes: seq<bv8>)
    | List(items: seq<Json>)
    | Obj(fields: map<string, Json>)

  type Meta = map<string, Json>

  datatype Identity = Identity(
    identityID: Id,
    id: Id,
    userID: Id,
    provider: string,
    identityData: Meta,
    createdAt: int,
    updatedAt: int,
    lastSignInAt: int)

  datatype FactorStatus = Unverified | Verified

  datatype Factor = Factor(
    id: Id,
    userID: Id,
    friendlyName: string,
    factorType: string,
    status: FactorStatus,
    createdAt: int,
    updatedAt: int)

  datatype User = User(
    id: Id,
    email: string,
    aud: string,
    role: string,
    emailConfirmedAt: Option<int>,
    confirmedAt: Option<int>,
    lastSignInAt: Option<int>,
    appMetadata: Meta,
    userMetadata: Meta,
    identities: seq<Identity>,
    factors: seq<Factor>,
    createdAt: int,
    updatedAt: int,
    passwordHash: seq<bv8>)

  datatype AAL = AAL1 | AAL2

  datatype AMREntry = AMREntry(amrMethod: string, timestamp: int)

  datatype Session = Session(id: Id, userID: Id, createdAt: int, aal: AAL, amr: seq<AMREntry>)

  // `parent` is "" for a token that was issued rather than rotated.
  datatype RefreshToken = RefreshToken(
    token: Id,
    userID: Id,
    sessionID: Id,
    issuedAt: int,
    revoked: bool,
    parent: Id)

  datatype Challenge = Challenge(id: Id, factorID: Id, value: string, createdAt: int, expiresAt: int)

  datatype Passkey = Passkey(
    id: Id,
    userID: Id,
    friendlyName: string,
    credentialID: string,
    createdAt: int,
    lastUsedAt: Option<int>)

  datatype Purpose = Registration | Authentication

  // `userID` is "" on a discoverable (authentication) challenge.
  datatype PasskeyChallenge = PasskeyChallenge(
    id: Id,
    userID: Id,
    purpose: Purpose,
    friendlyName: string,
    value: string,
    createdAt: int,
    expiresAt: int)

  datatype AuthCode = AuthCode(code: Id, userID: Id, expiresAt: int)

  // Times are nanoseconds since the epoch.
  const SECOND: int := 1_000_000_000
  const CHALLENGE_TTL: int := 300 * SECOND
  const AUTH_CODE_TTL: int := 300 * SECOND
  const DEFAULT_REUSE_INTERVAL: int := 10 * SECOND

  function Unix(t: int): int {
    t / SECOND
  }

  // A duration in whole seconds; Go rounds toward zero.
  function Seconds(d: int): int {
    if d >= 0 then d / SECOND else -(-d / SECOND)
  }

  // Go's now.Sub(at): a duration has 64 bits, and a difference beyond them saturates.
  function Since(now: int, at: int): int {
    Saturate(now - at)
  }

  // The state of the store: its eleven maps, grouped by the part of the service they serve.
  datatype Accounts = Accounts(users: map<Id, User>, emailIndex: map<string, Id>)

  datatype Auth = Auth(sessions: map<Id, Session>, refreshTokens: map<Id, RefreshToken>, parentToChild: map<Id, Id>)

  datatype Mfa = Mfa(factors: map<Id, Factor>, challenges: map<Id, Challenge>)

  datatype Keys = Keys(
    passkeys: map<Id, Passkey>,
    passkeyByCred: map<string, Id>,
    passkeyChallenges: map<Id, PasskeyChallenge>)

  datatype OAuth = OAuth(authCodes: map<Id, AuthCode>)

  // `used` holds every id the store has ever made.
  datatype Ids = Ids(used: set<Id>)

  datatype State = State(
    accounts: Accounts,
    auth: Auth,
    mfa: Mfa,
    keys: Keys,
    oauth: OAuth,
    ids: Ids,
    reuseInterval: int)

  function EmptyState(reuseInterval: int, ids: Ids): State {
    State(Accounts(map[], map[]), Auth(map[], map[], map[]), Mfa(map[], map[]),
          Keys(map[], map[], map[]), OAuth(map[]), ids, reuseInterval)
  }

  // An operation's outcome: the state it leaves and what it returns.
  datatype Out<+T> = Out(st: State, res: Result<T>)

  // A UUID: never empty, never made before.
  predicate Fresh(s: State, id: Id) {
    id != "" && id !in s.ids.used
  }
}

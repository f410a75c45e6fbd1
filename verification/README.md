# The auth store, its rotation and its sessions

This project models the in-memory auth store of the emulator (`internal/auth/store`) and the request handlers that
chain its operations into sessions (`internal/auth/handler`), and proves what the two are for: refresh-token rotation
as section 6 of RFC 6749 allows it, logout that lasts, single-use tickets and codes (section 4.1.2 of RFC 6749), exact
deletion, and assurance levels that are earned and never lost. `dafny verify dfyconfig.toml` checks the whole project.

## How it is laid out

| file | what is in it |
|---|---|
| `Text.dfy`, `Words.dfy`, `Model.dfy` | strings and their order; 64-bit words; the records and the state of the store |
| `Ops.dfy` | what each public method of the store does, as a function of the state; runs of operations |
| `Forest.dfy`, `Scan.dfy`, `Rotation.dfy` | chains of tokens as plain sequences, the refinement, the slow scan, both over whole runs |
| `Integrity.dfy`, `Emails.dfy`, `Identities.dfy`, `Invariant.dfy` | the invariant, part by part, and that every operation keeps it |
| `Conservation.dfy`, `Tickets.dfy`, `Directory.dfy`, `Listing.dfy`, `Cascade.dfy` | live tokens and rotation times, tickets, the two lookup indexes, ordered listings, deletion |
| `Requests.dfy`, `Effects.dfy`, `Runs.dfy` | nineteen requests as steps of a service that also remembers the access tokens it minted; what a step can do |
| `Sessions.dfy`, `Levels.dfy`, `Counts.dfy` | ownership, assurance levels and token counts over whole runs of requests |
| `Callers.dfy`, `Answers.dfy`, `SignIns.dfy`, `Passkeys.dfy`, `Registrations.dfy`, `Factors.dfy` | when each request succeeds and what it then does, stated without the functions of `Requests` |
| `Lifetimes.dfy`, `Journeys.dfy`, `Plain.dfy`, `Verifications.dfy` | how long an access token lasts; sign-ins over whole runs; where verified factors come from |
| `Permanence.dfy`, `Backdating.dfy`, `Endings.dfy`, `Ceremonies.dfy` | logout for any clock, and by its written times alone; what else ends a session or a token; where passkeys come from |
| `Stores.dfy`, `Handlers.dfy` | the store and the server as objects updated step by step, with the loops of the original, proved against the functions above |
| `Cloning.dfy` | deep copies on the heap |
| `Paging.dfy` | paging in wrapping 64-bit integers |

The main results are about every reachable state or every run. A run starts from any state satisfying the invariant
(`Invariant.Inv`, or `Sessions.Good` for the service), in particular from the empty store, and performs any operations
or requests with any arguments.

## What is a parameter

* The clock. Each reading is an argument. Nothing is assumed about it, except where a member says that it never goes back.
* UUIDs. Each one is an argument that was never made before. `Ids.used` collects every id made so far. A refresh token,
  two UUIDs long in the source, is one such id. An address synthesized from a fresh UUID is not in use.
* The table of lower-case letters: any table that agrees with ASCII on ASCII and maps a lower-case letter to itself.
  Strings are sequences of Unicode code points.
* bcrypt, the URL parser's verdict, and the values of challenges.
* JWTs. A presented token is absent, has a signature that does not check, or carries claims. Claims with the service's
  own issuer were minted by `Build`; that nobody else can sign them is the assumption. `NumericDate` and the JSON form
  are not modelled.
* One request is one step where a property is about requests. The store's operations are the steps of `Ops` and
  `Stores`, so everything about them holds for any interleaving of requests. The claims that do need whole requests as
  steps are ownership, permanent logout and the token counts, because `IssueRefreshToken` looks up the user and not the
  session (`internal/auth/store/refresh.go:75-78`), and `VerifyFactor` takes the lock separately for raising the session
  and for issuing the token (`internal/auth/handler/factors.go:198-203`).

## Where the code and its own words disagree

* `internal/auth/store/factor.go:143-144` says later calls surface an expired challenge as expired. The code deletes it
  on the first report, so later calls find nothing: `Tickets.ExpiredReportedOnce`.
* `internal/auth/store/refresh.go:153-154` wants the time logout writes to block reuse for every interval. The sum in
  line 158 wraps for an interval above 2^63 - 10^9 nanoseconds, and the flag accepts such a one.
  `Backdating.StampOutsideIff` and `Backdating.CutExpires` are the exact conditions, `Backdating.LongWindowWraps` the
  failure. Logout lasts nevertheless, by the cut edges: `Permanence.LogoutIsPermanent` holds for every interval.
* `internal/auth/handler/factors.go:191-192` speaks of rotating the refresh token on a step-up. The code issues a second
  root token and leaves the first one live. `Counts.LiveCountsIssues` states the exact number: one per login or step-up.
* The email index is exact only while addresses are lower case. A synthesized address keeps the provider name's case and
  deletion lower-cases the key. `Emails.DeleteKeepsAgreementIff` is the exact condition for one deletion,
  `Directory.RunLookup` the guarantee for runs with lower-case provider names, `Directory.MixedCaseLosesUser` the
  failure.
* `internal/auth/handler/admin_list_users.go:38` adds before it divides. `Paging.LastPageExact` says for which totals and
  page sizes the wrapped sum still gives the right last page; up to 2^62 users that is all of them.

## Model

The first rows are the main results, over every run or every reachable state. Then come the single requests, each with
the exact condition of its success and its whole effect, and what these rest on or refine. The methods come last. Those of `Stores.Store` and `Handlers.Server` that have no row are proved in the same
way, each equal to its function in `Ops` or `Requests`.

| member | source | states |
|---|---|---|
| `Rotation.RunFollows` | internal/auth/store/refresh.go:75-171 | Over every run of store operations the token map and index refine the forest that the chain machine grows from the same operations |
| `Forest.ConsumeRefines` | internal/auth/store/refresh.go:92-130 | Consuming any token on the token map and index gives the answer the chain machine gives, and the maps afterwards refine the machine's forest: the live end appends, an earlier token inside its window answers the end and changes nothing, every other consume is refused |
| `Permanence.LogoutIsPermanent` | internal/auth/handler/logout.go:3-13 | In every run and for every clock, after a logout no answer names the session and none of its refresh tokens is accepted |
| `Endings.SessionEndedBy` | internal/auth/handler/logout.go:3-13 | In every run a session that is gone was there until a request that logged it out, deleted its user or reset the store |
| `Endings.TokenEndedBy` | internal/auth/store/refresh.go:92-130 | In every run a live refresh token that is live no more was presented to a refresh, or its session was ended so |
| `Sessions.ServeGood` | internal/auth/handler/jwt.go:104-154 | Ownership and the invariant hold in every state any run of requests reaches |
| `Sessions.RunConsistent` | internal/auth/handler/token.go:72-99 | In every run every token response is consistent: user, access token and unrevoked refresh token name one user and one existing session, and the access token carries the session's current aal and amr |
| `Levels.LevelOrigin` | internal/auth/store/factor.go:136-176 | In every run a session at aal2 was raised by an earlier request that spent, in time, a challenge for a factor of that session's own user |
| `Counts.LiveCountsIssues` | internal/auth/store/refresh.go:75-130 | In every run that created it, a live session has exactly as many unrevoked tokens as logins and step-ups issued to it |
| `Cascade.DeleteUserExactly` | internal/auth/store/user.go:82-124 | Deletion leaves nothing of the user and everything of every other user, in all nine maps, edges and indexes gathered by owner; authorization codes stay |
| `Cascade.DeletedNeverAnswered` | internal/auth/store/user.go:82-124 | In every run, once request k deleted a user, no later token response is for that user |
| `Cascade.OrphanCodeNeverYields` | internal/auth/handler/oauth.go:78-110 | In every run a code held when request k deletes its user is refused by every later exchange |
| `Tickets.SingleUse` | internal/auth/store/factor.go:115-152 | In any run a challenge or code is accepted at most once, after the step that made it, for the factor, the purpose and user, or the user it was made for, and no later than its time: five minutes after that step's clock reading |
| `Ceremonies.PasskeyOrigin` | internal/auth/handler/passkeys.go:34-125 | In every run from a store without passkeys and ceremonies, a passkey held was added by a request of its own user that spent, in time, a registration challenge an earlier request of that same user had started |
| `Journeys.SignupThenPassword` | internal/auth/handler/token.go:37-70 | In every run: after a signup answered with tokens, as long as its user is stored and wherever the email index is exact, a password sign-in with that address signs in that user if and only if the password checks against the hash the signup made, and nobody else |
| `Journeys.LowerSignupThenPassword` | internal/auth/handler/token.go:37-70 | In runs whose synthesized addresses come from lower-case provider names the index is exact throughout, so that holds without the condition |
| `Journeys.AuthorizeThenExchange` | internal/auth/handler/oauth.go:33-110 | In every run a code handed out by a provider sign-in and exchanged for tokens signs in, within five minutes, the user with the hinted address: the one the address led to before, or else a new one |
| `Journeys.SignsInOnce` | internal/auth/handler/passkeys.go:155-198 | In every run at most one request is answered with tokens for one challenge, ceremony or code |
| `Lifetimes.TokenLasts` | internal/auth/handler/jwt.go:114-165 | In every run a token presented later is refused as bad_jwt, with nothing changed, if and only if the whole second its lifetime ends in has come, counted from the clock reading it was minted at; before that it is refused as session_not_found, with nothing changed, if and only if its user is gone |
| `Verifications.VerifiedOrigin` | internal/auth/handler/factors.go:149-221 | In every run a factor that became verified was made so by a request of its own user that spent, in time, a challenge held for it |
| `Verifications.StaysVerified` | internal/auth/store/factor.go:77-87 | In every run a verified factor is verified as long as it is there |
| `Rotation.RunIndexEqualsScan` | internal/auth/store/store.go:16-19 | In every reachable state the index gives the slow scan's answer for every token, and no guard fires |
| `Rotation.RunAcyclic` | internal/auth/store/refresh.go:133-151 | In every reachable state the edges are acyclic and stay within one user and session |
| `Conservation.RunLaterReplay` | internal/auth/store/refresh.go:105-129 | In every run with a clock that never goes back: if replaying a token is accepted, replaying any later revoked token of its chain at the same moment gives the same answer and changes nothing |
| `Invariant.RunInv` | internal/auth/store/store.go:9-37 | The invariant holds in every state any run of operations reaches |
| `Directory.RunLookup` | internal/auth/store/user.go:32-70 | In runs whose synthesized addresses come from lower-case provider names, a lower-cased address belongs to at most one user and the lookup finds exactly that user |
| `Directory.RunCredentials` | internal/auth/store/passkey.go:70-141 | In every run a credential belongs to at most one passkey of all users, and the lookup equals a scan |
| `Paging.ReadsEveryUserOnce` | internal/auth/handler/admin_list_users.go:9-51 | Following next links from page 1 over an unchanged store with distinct creation times reads every user exactly once, ascending, whatever order each request scans the map in |
| `Cloning.LookupAfterWrites` | internal/auth/store/clone.go:5-27 | After arbitrary writes through a returned copy the next lookup returns the same user |
| `Handlers.Server.Handle` | main.go:40-71 | Whatever the request, the handlers perform the service's step, give its answer and keep it good; what each step answers, and when, is the subject of the rows on single requests |
| `Lifetimes.AnswerShows` | internal/auth/handler/jwt.go:114-154 | Every answer with tokens shows the stored user with the factor listing, and its access token carries that user's fields, the issuer and a lifetime from one of the request's clock readings, in whole seconds |
| `Lifetimes.NoCallerNoChange` | internal/auth/handler/factors.go:23-42 | Without a token, with a bad signature or with another issuer, a request that needs a caller is refused with its code and changes nothing |
| `Lifetimes.CallerServed` | internal/auth/handler/factors.go:23-42 | A bearer of this issuer, in time and of a stored user, is never refused on account of the bearer |
| `SignIns.PasswordSignsIn` | internal/auth/handler/token.go:37-70 | Tokens for a user if and only if the lower-cased address leads to that user and the password checks against that user's hash; then only that user's stamps change, one session and one token are new, and otherwise nothing changes |
| `SignIns.PasswordSignsInExactly` | internal/auth/handler/token.go:37-70 | On an exact index: if and only if that stored user has the address and the password checks |
| `SignIns.CodeSignsIn` | internal/auth/handler/oauth.go:78-110 | Tokens for a user if and only if the code is held for that user, in time, and the user is stored; the code is spent whatever the answer |
| `SignIns.RefreshSignsIn` | internal/auth/handler/token.go:72-99 | Tokens if and only if the store accepts the refresh token, and for its owner; no record changes |
| `Passkeys.PasskeySignsIn` | internal/auth/handler/passkeys.go:155-198 | Tokens for a user if and only if a sign-in ceremony is open under the id and the credential is a passkey of that user; the ceremony is spent whatever the answer, and the passkey is stamped |
| `Passkeys.PasskeyRefused` | internal/auth/handler/passkeys.go:155-198 | Which refusal: missing input, no ceremony of that kind, one past its time, or a credential of nobody |
| `Passkeys.RegistrationStarts` | internal/auth/handler/passkeys.go:34-57 | A registration starts if and only if there is a caller, bound to that user, for five minutes |
| `Passkeys.AuthenticationStarts` | internal/auth/handler/passkeys.go:130-141 | A sign-in ceremony starts for anybody, bound to nobody, for five minutes |
| `Passkeys.RegistrationFinishes` | internal/auth/handler/passkeys.go:67-125 | A passkey is added for the caller if and only if the caller's own registration is open and the credential is nobody's yet; the ceremony is spent whatever the answer |
| `Passkeys.RegistrationRefused` | internal/auth/handler/passkeys.go:67-125 | Which refusal, for a caller |
| `Passkeys.PasskeyDeleted` | internal/auth/handler/passkeys.go:252-263 | A passkey is deleted if and only if it is the caller's own, with its credential entry and nothing else |
| `Registrations.SignupRegisters` | internal/auth/handler/signup.go:17-69 | Tokens if and only if the address has an @ and is free and the password is long enough and can be hashed; then one user is added with that address, hash and metadata, and otherwise nothing changes |
| `Registrations.AuthorizeHandsOut` | internal/auth/handler/oauth.go:33-67 | A code if and only if provider and target are given and the target is a URL; it is held for five minutes for the user found by the hinted address, now with an identity of the provider, or else for a new one; no other user changes |
| `Registrations.SeedRegisters` | internal/auth/handler/seed_user.go:25-68 | Success if and only if the address is free and every seed can be linked; otherwise the new user stays with the identities of the seeds before the first that cannot |
| `Registrations.UnlinkAnswered` | internal/auth/handler/identities.go:84-111 | A caller's identity is unlinked if and only if it is there and not the last; the others keep their order and the user everything else |
| `Factors.EnrollAnswered` | internal/auth/handler/factors.go:52-96 | One unverified factor of the caller is added if and only if there is a caller, the type is the one supported and the name is unused by that user; a refusal changes nothing |
| `Factors.ChallengeAnswered` | internal/auth/handler/factors.go:102-136 | A challenge is made, for five minutes, if and only if the factor is the caller's |
| `Factors.VerifyAnswered` | internal/auth/handler/factors.go:149-221 | Tokens if and only if the factor is the caller's, a challenge for it is held in time and the caller's session is there; then the session is raised with one more token. In time, that one factor becomes verified and that one challenge is spent, whatever the answer; otherwise no factor changes |
| `Factors.VerifiedShown` | internal/auth/handler/factors.go:207-220 | The user in the answer lists the factor, as verified |
| `Factors.VerifyRefused` | internal/auth/handler/factors.go:149-221 | Which refusal, for a caller |
| `Factors.UnenrollAnswered` | internal/auth/handler/factors.go:224-235 | A factor is deleted if and only if it is the caller's, with its challenges and nothing else |
| `Cascade.DeletionAnswered` | internal/auth/handler/admin_delete_user.go:10-25 | Success if and only if the user is stored, and then the cascade; otherwise nothing changes |
| `Callers.LogoutAnswered` | internal/auth/handler/logout.go:3-13 | The same answer always; it needs a token of this issuer that names a session, but neither its time nor its user, and without one changes nothing |
| `Forest.StartChainRefines` | internal/auth/store/refresh.go:75-88 | Issuing a token starts a chain of its own |
| `Forest.ExtendRefines` | internal/auth/store/refresh.go:116-129 | Revoking, restamping and inserting the successor with its edge is appending one link to the chain |
| `Forest.KillRefines` | internal/auth/store/refresh.go:155-171 | Revoking, backdating and cutting every token of a session is killing exactly that session's chains |
| `Forest.DropRefines` | internal/auth/store/user.go:96-105 | Deleting a user's tokens and edges is removing exactly that user's chains, whole |
| `Forest.ForestUnique` | internal/auth/store/refresh.go:75-151 | A token map and index refine at most one forest, so the abstraction loses nothing |
| `Forest.WalkFollowsChain` | internal/auth/store/refresh.go:133-151 | From any position of a live chain the walk reaches the chain's unrevoked last token; from a dead chain or the end it finds no edge; it never meets a visited or missing token |
| `Forest.TouchedStaysInChain` | internal/auth/store/refresh.go:160-168 | A deleted edge starts at a token of the same session and user as the token whose edges are cut |
| `Scan.IndexEqualsScan` | internal/auth/store/refresh.go:133-151 | The index walk gives the answer of repeatedly scanning for the one token whose parent is the current one, also where logout cut edges and kept parents |
| `Scan.EdgesAcyclic` | internal/auth/store/refresh.go:133-151 | A rank grows along every edge, and each edge joins a revoked token to its one child within one user and one session |
| `Scan.GuardsNeverFire` | internal/auth/store/refresh.go:134-144 | On a refined state neither the visited guard nor the missing-token guard of the walk fires |
| `Rotation.ConsumeFollows` | internal/auth/store/refresh.go:92-130 | In every state satisfying the invariant a consume answers and changes what the chain machine says |
| `Conservation.OneLiveTokenPerChain` | internal/auth/store/refresh.go:116-129 | A token of a chain is unrevoked exactly when the chain is not logged out and the token is its last |
| `Conservation.ConsumeConserves` | internal/auth/store/refresh.go:92-130 | Consuming keeps the number of unrevoked tokens of every session: rotation replaces one, a replay mints none |
| `Conservation.LiveEqualsIssued` | internal/auth/store/refresh.go:75-130 | While no chain of a session is logged out, it has as many unrevoked tokens as root tokens |
| `Conservation.RunTimes` | internal/auth/store/refresh.go:105-129 | With a clock that never goes back, rotation times never decrease along an edge, in every run |
| `Conservation.LaterReplayAccepted` | internal/auth/store/refresh.go:105-114 | If replaying a token is accepted, replaying any later revoked token of its chain at the same moment gives the same answer and changes nothing |
| `Permanence.DeadStays` | internal/auth/store/refresh.go:155-171 | One request keeps a logged-out session's tokens revoked and without edges, and does not answer for it; nothing depends on time |
| `Backdating.StampOutsideIff` | internal/auth/store/refresh.go:158 | In 64-bit durations the time logout writes lies outside the reuse window if and only if the window plus one second is at most 2^63 nanoseconds |
| `Backdating.LongWindowWraps` | internal/auth/store/refresh.go:158 | The window 2562047h47m16s fits an int64 and fails: the sum wraps and the stamp lies in the future, inside the window |
| `Backdating.CutExpires` | internal/auth/store/refresh.go:158-163 | Logout puts every token of the session outside the reuse window if and only if the window leaves room for that second, or there is no token |
| `Backdating.BackdatingAloneIff` | internal/auth/store/refresh.go:105-163 | Right after a logout the written time by itself, whatever edges the index holds, refuses a token of the session if and only if the window leaves that room |
| `Backdating.BackdatingRefuses` | internal/auth/store/refresh.go:105-114 | Once every token of a session lies outside the reuse window, each is refused from then on whatever edges the index holds |
| `Backdating.BackdatingIsEnough` | internal/auth/store/refresh.go:153-163 | In every run with a clock that never goes back and a window that leaves that room, a session logged out by request k has its tokens refused after any further requests by the written time alone, whatever edges the index holds |
| `Endings.StepEndsSessionIff` | internal/auth/store/refresh.go:155-171 | A request makes a session disappear if and only if it logs that session out, deletes its user or resets |
| `Endings.StepEndsTokenIff` | internal/auth/store/refresh.go:92-130 | A request ends a live token if and only if it presents that token to a refresh or ends its session, which exists until then |
| `Sessions.StepGood` | internal/auth/handler/factors.go:149-221 | Every request keeps the store's invariant and, by one induction over minted access tokens, refresh tokens and sessions, that all three agree on their owner |
| `Sessions.StartGood` | internal/auth/store/store.go:50-72 | They hold of the service as it starts |
| `Sessions.ConsumeCases` | internal/auth/store/refresh.go:92-130 | An accepted refresh either replays a live token and changes nothing or rotates the presented live token |
| `Effects.EveryRequest` | main.go:40-71 | Each of the modelled requests has one of seven effects on sessions and tokens, and which: only a refresh rotates, only a step-up raises, a logout cuts exactly the session its token names, and deletion and reset alone erase |
| `Runs.RequestIsRun` | main.go:40-71 | Every request is a run of store operations, so what holds over runs of operations holds over runs of requests |
| `Levels.LoginStartsLow` | internal/auth/store/refresh.go:45-61 | Every answer with tokens that is neither a refresh nor a step-up starts a session never seen before, at aal1, with exactly the one method of that kind of login |
| `Levels.SessionGrows` | internal/auth/store/factor.go:157-176 | A session present at both ends of a run keeps its user and its aal2, and its amr only grew at the end |
| `Levels.AlwaysDistinct` | internal/auth/store/factor.go:166-174 | In every run no session's amr repeats a method |
| `Levels.RaiseProves` | internal/auth/handler/factors.go:149-221 | A step-up owned the factor, held the challenge, met its deadline and spent it |
| `Cascade.DeletionEstablishes` | internal/auth/handler/admin_delete_user.go:10-25 | A deletion answered with success leaves no user of that id, and the id is never made again |
| `Cascade.EntriesAfterDelete` | internal/auth/store/user.go:89-90 | Another user keeps their email entry if and only if it is not the deleted user's lower-cased address |
| `Cascade.OrphanCodeRefused` | internal/auth/handler/oauth.go:89-102 | Exchanging a code whose user is gone answers invalid_grant, spends the code and mints nothing |
| `Cascade.HeldUnaltered` | internal/auth/store/oauth.go:84-119 | A ticket is never altered while it is held |
| `Tickets.AcceptedOnce` | internal/auth/store/passkey.go:52-66 | A ticket accepted once is never accepted again |
| `Tickets.Origin` | internal/auth/store/oauth.go:84-99 | A ticket held was made by an earlier step of the run, and is as it was made |
| `Tickets.ExpiredReportedOnce` | internal/auth/store/factor.go:143-149 | An expired challenge is reported expired once and is not found ever after, against the code's own comment |
| `Ceremonies.CeremonyStarted` | internal/auth/handler/passkeys.go:34-57 | A registration challenge new in a run was started by a request of the user it is bound to, and lasts five minutes |
| `Ceremonies.PasskeyFinished` | internal/auth/handler/passkeys.go:67-125 | A passkey new in a run was added by a request of its user that spent that user's registration challenge |
| `Emails.DeleteKeepsAgreementIff` | internal/auth/store/user.go:82-90 | Deleting a user keeps the email index exact if and only if the user's address is lower case |
| `Directory.MixedCaseLosesUser` | internal/auth/store/oauth.go:50-54 | With a provider name that is not lower case, a run of three operations loses another user's email entry |
| `Directory.GitHubLosesUser` | internal/auth/store/oauth.go:50-54 | Such a run, from the empty store with the provider "GitHub" |
| `Emails.LookupExact` | internal/auth/store/user.go:58-70 | On an exact index the lookup equals a scan of the users |
| `Emails.FindOrCreateNeverNil` | internal/auth/store/oauth.go:35-47 | For any provider case, find-or-create never dereferences a missing user, and answers a user with the hinted address |
| `Invariant.InvKept` | internal/auth/store/store.go:9-37 | Every public method keeps the whole invariant: ids, owners, factor names, challenges, both indexes' agreement, identity lists and the rotation forest |
| `Integrity.EnrollFactorSound` | internal/auth/store/factor.go:34-61 | Enrolling keeps non-empty factor names distinct per user and all references closed |
| `Integrity.DeleteFactorSound` | internal/auth/store/factor.go:91-112 | Deleting a factor leaves no challenge without a factor |
| `Integrity.AddPasskeySound` | internal/auth/store/passkey.go:70-89 | Adding a passkey keeps the credential index one-to-one with the passkeys |
| `Identities.RemoveLinked` | internal/auth/store/identity.go:80-104 | Unlinking removes the one identity with that row id, keeps the order of the rest, and the metadata agrees with what is left |
| `Identities.LinkIdentityLinked` | internal/auth/store/identity.go:48-74 | Linking a new provider keeps one identity per provider, ids equal to sub, and agreeing metadata |
| `Identities.OAuthLinked` | internal/auth/store/oauth.go:73-80 | So does appending a fabricated provider identity |
| `Identities.RecomputeAgrees` | internal/auth/store/identity.go:109-121 | Recomputing lists the providers in order with the first as primary and leaves every other metadata key alone |
| `Listing.PasskeyListing` | internal/auth/store/passkey.go:145-164 | Sorting any scan of the user's passkeys gives one and the same sequence: exactly them, strictly by creation time and id |
| `Listing.FactorListing` | internal/auth/store/clone.go:32-46 | The same for factors |
| `Cloning.CloneAny` | internal/auth/store/clone.go:81-100 | The copy of any value of maps, slices and scalars holds the same value in objects that did not exist before |
| `Cloning.CloneAnyMap` | internal/auth/store/clone.go:66-75 | The same for a map; a nil map stays nil |
| `Cloning.HoldsOne` | internal/auth/store/clone.go:77-100 | A heap value holds at most one value, so holding the same value is structural equality |
| `Cloning.CloneUser` | internal/auth/store/clone.go:8-27 | A user's copy holds the same user with the factor listing filled in, and shares no map or slice with the stored one |
| `Cloning.SetUserMetadata` | internal/auth/store/user.go:130-140 | Stored metadata is a detached copy of the caller's map; the rest of the user is unchanged |
| `Cloning.WritesThroughArgument` | internal/auth/store/user.go:126-140 | Later writes through the caller's map do not reach the stored user |
| `Paging.LastPageExact` | internal/auth/handler/admin_list_users.go:37-41 | In wrapping 64-bit arithmetic the last page is max(1, ceil(total / per_page)) if and only if the sum does not wrap or everything fits on one page |
| `Paging.LastPageIsCeil` | internal/auth/handler/admin_list_users.go:37-41 | So for every page size and up to 2^62 users the last page is right |
| `Paging.SliceInRange` | internal/auth/store/user.go:169-180 | No page number and no page size makes the slice go out of range |
| `Paging.VisitedPage` | internal/auth/handler/admin_list_users.go:19-46 | On pages 1 to last the offset does not wrap, and the next link is there exactly when users remain |
| `Stores.Store.FindLatestChild` | internal/auth/store/refresh.go:133-151 | The loop ends on any index whatsoever and returns what the recursive walk returns |
| `Stores.Store.ConsumeRefreshToken` | internal/auth/store/refresh.go:92-130 | The method computes the specified state and answer, with a copy of the owner, and keeps the invariant |
| `Stores.Store.RevokeRefreshTokensBySession` | internal/auth/store/refresh.go:155-171 | The loop over all tokens computes the specified state and keeps the invariant |
| `Stores.Store.RevokeTokens` | internal/auth/store/refresh.go:158-169 | In whatever order tokens are visited, exactly the session's tokens are revoked and backdated and exactly their edges' both ends are cut |
| `Stores.Store.IssueSessionWithMethod` | internal/auth/store/refresh.go:29-43 | Session and first token together, or the session rolled back |
| `Stores.Store.DeleteUser` | internal/auth/store/user.go:82-124 | The loops together compute the specified state and keep the invariant |
| `Stores.Store.DeleteTokensOf` | internal/auth/store/user.go:96-105 | The token loop deletes exactly the user's tokens and both ends of their edges |
| `Stores.Store.DeleteFactorsOf` | internal/auth/store/user.go:107-111 | The factor loop deletes the user's factors and every challenge of one of them |
| `Stores.Store.DeletePasskeysOf` | internal/auth/store/user.go:113-122 | The passkey and ceremony loops delete the user's passkeys, their credential entries and the user's ceremonies |
| `Stores.Store.DeleteSessionsOf` | internal/auth/store/user.go:91-95 | The session loop deletes exactly the user's sessions |
| `Stores.Store.DeleteFactorLocked` | internal/auth/store/factor.go:105-112 | The loop deletes exactly the factor's challenges |
| `Stores.Store.CreateUser` | internal/auth/store/user.go:37-56 | A user under the lower-cased address with an email identity whose sub is the user id, or the address is taken |
| `Stores.Store.CreateOAuthUser` | internal/auth/store/oauth.go:30-59 | Finds by hinted address or creates; never fails; keeps the invariant |
| `Stores.Store.ListUsers` | internal/auth/store/user.go:157-186 | The total, and the page cut out of an ascending arrangement of all users, as copies; for any offset |
| `Stores.Store.AddIdentity` | internal/auth/store/identity.go:48-74 | The method computes the specified state, answers a copy and keeps the invariant |
| `Stores.Store.RemoveIdentity` | internal/auth/store/identity.go:80-104 | The search loop finds the first row with the id; the method computes the specified state |
| `Stores.Store.RecomputeProvidersLocked` | internal/auth/store/identity.go:109-121 | The loop builds the provider list in order |
| `Stores.Store.HasProviderLocked` | internal/auth/store/oauth.go:61-68 | True exactly when some identity has the provider |
| `Stores.Store.EnrollFactor` | internal/auth/store/factor.go:34-61 | The scan refuses a non-empty name the user already has; otherwise one unverified factor is added |
| `Stores.Store.UpgradeSessionAAL` | internal/auth/store/factor.go:157-176 | Raises the session and appends the method once |
| `Stores.Store.ConsumeChallenge` | internal/auth/store/factor.go:136-152 | Removes the factor's challenge and answers it unless it is past its time; a challenge of another factor stays |
| `Stores.Store.ConsumePasskeyChallenge` | internal/auth/store/passkey.go:52-66 | Removes the challenge of that purpose and answers it unless it is past its time |
| `Stores.Store.ConsumeAuthCode` | internal/auth/store/oauth.go:105-119 | Removes a known code, and answers it unless it is past its time |
| `Stores.Store.AddPasskey` | internal/auth/store/passkey.go:70-89 | A passkey with its credential entry, unless the credential is known |
| `Stores.Store.ListUserPasskeys` | internal/auth/store/passkey.go:145-164 | The specified listing, whatever order the map is scanned in |
| `Stores.Store.UserFactors` | internal/auth/store/clone.go:32-46 | The method returns that listing |
| `Handlers.Server.SeedUser` | internal/auth/handler/seed_user.go:25-68 | Create, then the loop over identities; the first failure ends the request with what was done kept |
| `Handlers.Server.AdminListUsers` | internal/auth/handler/admin_list_users.go:9-51 | The handler's page, total and links, defaults included, are those of the paging functions |

## Left out

- Stores.Store: the source keeps records behind pointers in its maps and updates them in place; here a map holds the record and the update replaces it. What a caller can reach through a returned pointer is the subject of `Cloning.dfy` alone.
- Stores.Store.DeleteUser: the source's loops are in one function body; here each stands in a method of its own.
- Stores.Store.ListUsers: the source would go out of range for a negative limit; its one caller never passes one, and the method asks for that.
- Cloning.CloneAny: nil and empty slices hold the same value here, since the source turns an empty byte slice into nil and nil slices of the other kinds into empty ones. A value is a tree whose parts may be shared but not cyclic, and slices do not overlap.
- Cloning.CloneUser: `*time.Time` fields are shared by copies in the source, `CreateUser` keeps the caller's hash slice, and `CreateChallenge` and `CreatePasskeyChallenge` return the stored object; times and hashes are values here.
- Stores.Store.FindUserByEmail: strings are valid UTF-8; on other bytes the source's lower-casing substitutes the replacement character.
- Requests.Build: `expires_in` is the lifetime in whole seconds exactly; the source computes it in floating point, which can differ by one second for a lifetime of many days that is one nanosecond short of a whole second.
- Listing.Sort: inserts one by one in place of Go's unstable `sort.Slice`; what a listing promises is proved for any scan order, so it does not depend on the algorithm.
- Directory.RunLookup: needs lower-case provider names (and lower-case UUIDs), because the code does not deliver more.
- Paging.ReadsEveryUserOnce: needs distinct creation times; with equal ones the source's order depends on the map's.
- Handlers.Server.Handle: requests with a body that is not JSON, the read-only requests (current user, settings, health, snapshot, passkey list, identity authorize URL), request routing, headers, redirects and option JSON are not part of the model; an answer is a token response, an id, or a status with an error code.
- `internal/auth/store/store.go:90-120` (`Snapshot`): a read of everything, with no property beyond its parts.
- `internal/auth/store/password.go` and token signing: foreign libraries, present as parameters and as the assumption on claims.
- Mutexes: each method under the lock is one atomic step; races on what the lock does not cover are not modelled.
- Whether a factor behind an aal2 session is still enrolled: unenrolling does not touch sessions, so the code promises nothing.

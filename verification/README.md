# A model of the voice-room backend and its agent, with proofs

The repository is a voice-chat system: a Go backend (accounts and sessions, the client that drives the
language-model agent, speech recognition, room permissions) and a Python agent. This project models its
stateful cores in Dafny and proves what they promise over whole runs.

| part | files | what is proved |
|---|---|---|
| sessions and tokens | `AuthnStore`, `AuthnRules`, `AuthnService`, `AuthnRuns`, `AuthnSafety`, `AuthnLineage`, `AuthnAccounting`, `AuthnAccounts`, `AuthnAnswers`, `AuthnIsolation`, `AuthnOutbox`, `AuthnJourneys` | revocation is final in every interleaving, one live session per login, users cannot touch each other, exactly when each use case succeeds and with which error it fails, the outbox is an exact ledger of what changed, one-time tokens and addresses, and that what one use case hands out the next one takes |
| login limiter | `LoginLimiter`, `LimiterEquivalence`, `LoginGuard`, `GuardExactness` | when the in-process limiter equals the Redis script, and exactly how many wrong passwords either lets through, overlapping logins included |
| turn protocol | `TurnRegistry`, `ShardPool`, `TurnClient`, `TurnProtocol`, `TurnSafety`, `TurnOrder`, `TurnAccounting`, `TurnEnds`, `TurnProgress`, `TurnRefinement` | one runner per session, contiguous dispatch, one retry, exact counters each of which counts what it is named after, and no turn that cannot end |
| audio path | `Ring`, `AsrWorker`, `AsrDemux`, `AsrRecognizer` | the ring refines a bounded queue, no lost wake-up, sessions do not mix, also while one is being closed |
| room permissions | `RoomAuthz`, `AuthzCoherence`, `AuthzRoles` | when a cached decision is the decision, and that answers follow the roles written |
| agent | `ChatHistory`, `ReplyText`, `HistoryExactness`, `SessionPool`, `SessionExpiry`, `SessionContinuity`, `Quota`, `ToolCalls`, `StreamReading`, `ConfigMerge`, `ConfigTable` | history against a reference transcript, the stored text against the generated one, eviction while turns are under way, quota across crashes, fragment assembly, configuration precedence |

`Prelude` holds `Option`, `Result`, subsequences and the trimming of strings; `Tags` picks an owner's items out of
a shared sequence.

## How the model is built

Code that changes things step by step is a class or a loop. Each of its methods is proved equal to a function
on values (`AuthnService.Service.Refresh` against `AuthnRules.Refresh`, `Ring.Buffer.Enqueue` against
`Ring.Push`), and the theorems are about those functions, folded over arbitrary sequences of actions.

* Tables are maps; a unique index is a map from the indexed value to the row's key. Each transaction is one
  atomic step and transactions are serialised. The reads the source makes outside a transaction are steps of
  their own: a login's credential snapshot, the access check before a password change, that change's password
  check, the ownership check of a bind request. A snapshot may be committed at any later time, and more than once.
* A login asks the limiter, compares the password and reports to the limiter in three steps, and any number of
  logins may be between them.
* Goroutines of the turn protocol are program counters; every locked section, every atomic counter and every
  callback is a step, and how far a stream gets and how it fails is open at every step.
* A speech session leaves the table in one step and its queue is closed in a later one. A turn of the agent
  looks its session up, sweeps the pool, applies the prefix, ends and saves in steps of its own, on the session
  object it found; sweeps, closings and other turns fall in between, and other objects may take the same id.
* Clocks, fresh identifiers and fresh tokens are arguments, with no assumption about them: a fresh identifier
  that turns out to exist is refused as the unique index would. Hashes are injective, so a stored hash is
  written as what it was computed from. A signed access token is either its claims or nothing.
* A crash, a failed save or load, a mail that fails, an eviction from the LRU, a stream error: each is a choice
  of the environment, and the theorems hold for all choices.

## Where the code and its documentation differ

The model follows the code.

* `backend/authn/service.go:293` speaks of binding a new address to an account that already has one. The
  unique index on (provider, user_id) (`backend/migrations/20260903_000000_initial.sql:101`) makes every such
  attempt a conflict: `AuthnAccounts.AddressCannotBeRebound`.
* `backend/authn/service.go:301` turns away a bind request for an owned address. The check is outside the
  transaction, so a token can be issued for an address that was taken meanwhile; it never binds anything:
  `AuthnAccounts.StaleBindIsHarmless`.
* `backend/authz/roles.go:41` promises exactly one host at any time. That holds exactly when a hand-over
  starts from the host or goes to the host: `AuthzCoherence.TransferKeepsOneHostIff`.
* `backend/authn/limiter.go:104` presents the in-process limiter as the stand-in for Redis. It is one exactly
  when the window is no longer than the lock or one failure locks; the shipped parameters qualify. At the
  exact instant a lifetime ends the two differ: `LimiterEquivalence.EdgesAreReal`.
* `backend/authz/check.go:16` joins permission, room and user with `|`. The cache answers as a direct check
  would exactly when no room identifier in use, followed by `|`, begins another.
* `agent/core/orchestrator.py:266` keeps the mark for a later turn. If another turn completes before the prefix
  arrives, the prefix replaces or follows the wrong entry, and nothing repairs it, unless it is blank and the
  other turn had no reply: `HistoryExactness.HistoryRemembersIff`. A bound of three messages or more shows the
  harm at once, a smaller one can hide it: `HistoryExactness.BoundTellsHarmIff`. Eviction from the pool saves the
  history but loses the mark of an interrupted reply: `SessionContinuity.EvictionInvisibleIff`.
* `agent/core/orchestrator.py:255` saves a turn when it ends. If its session was dropped while the reply was
  generated and its id was looked up again, the other session object saves over it later and the turn is lost:
  `SessionContinuity.OverlappingTurnsLose`. When nothing overlaps in this way, nothing but the mark is:
  `SessionContinuity.CompletedTurnsSurvive`.
* `backend/authn/password_reset.go:27` promises one answer for known and unknown addresses. A mail that fails
  (lines 73-75) is answered as an error, and only a known address gets mail:
  `AuthnAccounts.ResetRequestRevealsIff`.
* `backend/authn/limiter.go:27` speaks of a maximum number of failures per window. Logins that ask before the
  first failure is recorded are all compared, so with c logins in flight at a time the most one could ask for is
  the maximum and c - 1 more. That too is exceeded, and exactly when the period starts on an old window that has
  room for at least two failures and ends before the period does, since the window is fixed, not sliding:
  `GuardExactness.LimitExceededIff`. The in-process limiter then allows up to 2(L + c - 1) - 1 comparisons for a
  maximum of L, but more than max(2L - 2, L + c - 1) + c - 1 only if a failure falls on the very instant at which a
  lock ends, or if the window is longer than the lock; the Redis script never exceeds the latter:
  `LoginGuard.GuessesAreFew`, `GuardExactness.BoundIsReached`, `GuardExactness.WindowBoundIsReached`.
* `agent/config/loader.py:318` merges the environment over the file. A plain value in the file where the table
  expects a section is lost with any variable of that section: `ConfigMerge.FileTextSurvivesIff`.
* `agent/providers/openai_compatible.py:242` skips chunks without choices, and with them a usage report sent in
  a chunk of its own: `ToolCalls.UsageToldIff`. `agent/providers/openai_compatible.py:237` stops at a cancel
  signal, but the calls gathered so far are still emitted.
* `backend/asr_cli/aliyun_asr.go:449` closes the queue first so that nothing is delivered once a session is cleaned
  up. The table entry is gone before that, so a chunk can still be accepted by a session that is no longer
  registered: `AsrDemux.AcceptedAfterUnregister`.
* `backend/authn/password.go:63` checks nothing: the strength rule is commented out, and so absent here.

## Model

| member | source | states |
|---|---|---|
| `AuthnStore.RefreshTtl` | backend/authn/login.go:327-333 | a refresh lifetime is always positive, whatever the configuration says |
| `AuthnStore.AccessTtl` | backend/authn/tokens.go:30-33 | an access lifetime is always positive, whatever the configuration says |
| `AuthnStore.LifetimesFollowConfig` | backend/authn/login.go:327-333 | a positive configured lifetime is used as it is; otherwise thirty days and fifteen minutes |
| `AuthnStore.SignedExpiry` | backend/authn/tokens.go:39-44 | a token is signed with the last whole second not after its expiry |
| `AuthnStore.NormalizeEmailIdempotent` | backend/authn/password.go:41-43 | normalising an address twice is normalising it once, so the address a bind token carries is the one that is bound |
| `AuthnStore.NormalFormIgnoresCase` | backend/authn/password.go:41-43 | addresses that differ in letter case only are one address; its normal form has no capitals and no white space at its ends |
| `AuthnStore.NormalFormExample` | backend/authn/password.go:41-43 | an address with capitals and white space around it, and its normal form |
| `AuthnStore.AddressExamples` | backend/authn/password.go:19 | a well-formed address, and six that are not, one for each way to go wrong |
| `AuthnStore.UsernameExamples` | backend/authn/password.go:16 | usernames of the shortest, the longest and a mixed kind, and five that are none |
| `AuthnService.Service.CheckLogin` | backend/authn/login.go:56-97 | the part of a login outside any transaction, with its limiter calls: table effects and answer are those of the rule |
| `AuthnService.Service.OpenSession` | backend/authn/login.go:104-149 | opening a session from an earlier credential snapshot: the new row carries the snapshot's version, one event is recorded, a clash changes nothing |
| `AuthnService.Service.RevokeAllAndBump` | backend/authn/login.go:289-307 | all unrevoked sessions of the user revoked, version up by one, or nothing at all; what that leaves alone is in `AuthnIsolation.LiquidationRevokesExactly` |
| `AuthnService.Service.Refresh` | backend/authn/login.go:153-256 | every branch of a refresh: replay liquidates, refusals change nothing, success rotates |
| `AuthnService.Service.Logout` | backend/authn/login.go:260-275 | exactly the token's session is revoked, and an unknown or spent token is no error |
| `AuthnService.Service.ValidateAccess` | backend/authn/middleware.go:24-68 | the decision to accept or refuse and its error classes, changing nothing; exactly when is in `AuthnAnswers.AccessAnswers` |
| `AuthnService.Service.RequestPasswordReset` | backend/authn/password_reset.go:28-77 | a token is stored only for a known address, and then an error is answered if its mail fails |
| `AuthnService.Service.ResetPassword` | backend/authn/password_reset.go:81-147 | token consumed, password and version changed, all sessions revoked, one event; or nothing |
| `AuthnService.Service.AuthorizeChange` | backend/authn/password_reset.go:159-182 | the checks of a password change that come before its transaction |
| `AuthnService.Service.CommitChange` | backend/authn/password_reset.go:184-224 | password and version changed, every other session revoked, the caller's realigned, one event |
| `AuthnService.Service.Register` | backend/authn/service.go:81-207 | both kinds of registration with every conflict, local accounts active and mail accounts pending; a mail that fails is answered as an error and leaves the account |
| `AuthnService.Service.VerifyEmail` | backend/authn/service.go:212-285 | activation, binding or mere consumption, each with its conflicts, all or nothing |
| `AuthnService.Service.CheckBind` | backend/authn/service.go:296-317 | the part of a bind request before its transaction: the address must be well formed and owned by nobody at that moment |
| `AuthnService.Service.IssueBind` | backend/authn/service.go:319-352 | the bind token is stored, whatever has become of the address meanwhile, and stays when its mail fails |
| `AuthnAnswers.AccessAnswers` | backend/authn/middleware.go:24-68 | an access token is accepted exactly if it is in force, its session is its user's, unrevoked, unexpired and of its version, and the user is active and of that version; answered as suspended exactly if the session stands and the user is suspended |
| `AuthnAnswers.OnlySuspensionStandsInTheWay` | backend/authn/middleware.go:55-66 | making a suspended user active would let the token pass exactly if it is answered as suspended and the user has its version |
| `AuthnAnswers.RefreshAnswers` | backend/authn/login.go:162-226 | the same for a refresh token: accepted, suspended, internal error or invalid, each with its exact condition on the tables |
| `AuthnAnswers.RefreshOfNothing` | backend/authn/login.go:154-172 | a refresh token that names no session is refused and changes nothing |
| `AuthnAnswers.AccessAgreesWithRefresh` | backend/authn/middleware.go:51-66 | in any tables the access and the refresh token of one session are both accepted, both refused for suspension, or both refused otherwise |
| `AuthnAnswers.WhoIsMeant` | backend/authn/login.go:336-354 | in every reachable state an identifier with an @ means the user whose address it is in normal form, any other the user whose name it is to the letter |
| `AuthnAnswers.LoginAnswers` | backend/authn/login.go:81-97 | a judged login passes exactly for the right password of an active user; a wrong one is recorded and reported as a failure, a right one clears the failures whatever the status |
| `AuthnAnswers.UnjudgedLogin` | backend/authn/login.go:56-70 | an attempt that is locked out, malformed or aimed at nobody leaves no trace and is never told that its password was right |
| `AuthnAnswers.OpeningAnswers` | backend/authn/login.go:104-149 | a session opens exactly for an existing user and a fresh identifier and token |
| `AuthnAnswers.LogoutAnswers` | backend/authn/login.go:260-275 | a logout succeeds whatever its token is worth, and one that names no session changes nothing |
| `AuthnAnswers.LogoutAllAnswers` | backend/authn/login.go:289-307 | a logout from all devices succeeds exactly for an existing user and otherwise changes nothing |
| `AuthnAnswers.RegisterAnswers` | backend/authn/service.go:81-207 | malformed, in conflict, clashing or unmailed: each answer of a registration with its exact condition, and exactly when the tables change |
| `AuthnAnswers.ResetAnswers` | backend/authn/password_reset.go:81-118 | a reset succeeds exactly for an unused, unexpired reset token of an existing user |
| `AuthnAnswers.VerifyAnswers` | backend/authn/service.go:212-285 | a verification is refused exactly if its token is not redeemable, or would bind an address that is taken or to a user who has one |
| `AuthnAnswers.BindAnswers` | backend/authn/service.go:296-317 | a bind request passes exactly for a well-formed address nobody owns at that moment |
| `AuthnAnswers.IssueAnswers` | backend/authn/service.go:319-352 | conflict and failed mail, each with its exact condition |
| `AuthnAnswers.ChangeAnswers` | backend/authn/password_reset.go:159-182 | a change is authorised exactly by the current password, and hands on the new one |
| `AuthnAnswers.NoInternalErrors` | backend/authn/middleware.go:41-50 | in every reachable state access checks, logins, resets and verifications never end in an internal error, and a refresh only if its fresh identifier or token clashes |
| `AuthnIsolation.StepIsOwn` | backend/authn/login.go:295-297 | every step of the service writes about the one user it acts for: all other accounts, sessions, one-time tokens and identities are the same rows |
| `AuthnIsolation.OthersCannotInterfere` | backend/authn/middleware.go:39-66 | over any run in which nobody acts for a user, that user's account and sessions stay as they are and every access token of the user is answered as at the start |
| `AuthnIsolation.OnlyItsOwnerEndsASession` | backend/authn/login.go:289-307 | no step that acts for anybody else can end a session |
| `AuthnIsolation.RevocationKeepsItsTime` | backend/authn/login.go:295-299 | no step changes when a revoked session was revoked |
| `AuthnIsolation.LiquidationRevokesExactly` | backend/authn/login.go:289-307 | logout from all devices, reset and replay revoke the user's unrevoked sessions at that instant, and change nothing else about any session |
| `AuthnIsolation.ChangeRevokesExactly` | backend/authn/password_reset.go:197-212 | a password change does the same to all sessions but the caller's, which only moves to the new version |
| `AuthnOutbox.EveryChangeIsLogged` | backend/authn/events.go:47-58 | every step writes the one event that says what it changed, or none and changes nobody's existence, names, status, password or number of sessions |
| `AuthnOutbox.OutboxTellsWhoThereIs` | backend/authn/service.go:123-172 | in every reachable state the accounts are exactly those whose registration the outbox tells, once each |
| `AuthnSafety.StepKeepsInv` | backend/authn/login.go:72-142 | every step keeps the inductive fact: a session that ever passed an access check is revoked or still carries its user's version |
| `AuthnSafety.StepKeepsDead` | backend/authn/password_reset.go:189-209 | no step, a password change's realignment included, revives a session that is revoked or left behind by a version bump |
| `AuthnSafety.RevocationIsFinal` | backend/authn/middleware.go:51-66 | in every interleaving a dead session never again passes an access check, and its refresh token never again rotates |
| `AuthnSafety.OldAccessStaysInvalid` | backend/authn/middleware.go:63-66 | an access token whose version has been bumped past never validates again |
| `AuthnSafety.LiquidationStep` | backend/authn/login.go:288-307 | logout from all devices, reset and replay each raise the version by one and leave no unrevoked session of the user |
| `AuthnSafety.LiquidationLocksOut` | backend/authn/login.go:72-142 | after those, no login snapshot taken before can open a session that is ever accepted, however late it commits |
| `AuthnSafety.ChangeKeepsOnlyCaller` | backend/authn/password_reset.go:197-212 | a password change ends every session but the caller's, which survives exactly if it was not revoked meanwhile, and voids all older access tokens |
| `AuthnLineage.AtMostOneLivePerLogin` | backend/authn/login.go:201-226 | of all sessions that descend from one login at most one is unrevoked, in every reachable state |
| `AuthnLineage.RotationsFormChains` | backend/authn/login.go:201-236 | each login's sessions form one chain without repetition, every link but the last revoked and recorded as rotated |
| `AuthnLineage.AcceptedRefreshRotates` | backend/authn/login.go:162-226 | an accepted refresh found an unrevoked session and did exactly one rotation |
| `AuthnLineage.ReplayLiquidates` | backend/authn/login.go:173-178 | presenting any revoked refresh token is refused, and leaves the owner without unrevoked session and with a larger version |
| `AuthnAccounting.LedgerIsExact` | backend/authn/login.go:116-142 | version = password changes + logouts from all devices + liquidations, and session rows = login.succeeded events, in every reachable state |
| `AuthnAccounting.StepKeepsBalance` | backend/authn/login.go:209-239 | no step unbalances that ledger |
| `AuthnAccounts.TokenTakesEffectOnce` | backend/authn/service.go:223-247 | over a whole run no one-time token takes effect twice, and each only for its own purpose |
| `AuthnAccounts.ConsumedTokenIsRefused` | backend/authn/password_reset.go:97-118 | a consumed token is refused by both use cases ever after |
| `AuthnAccounts.VerifyEmailEffect` | backend/authn/service.go:245-284 | what a successful verification does in each of its three cases |
| `AuthnAccounts.EmailIffIdentity` | backend/authn/service.go:133-155 | a user has an address if and only if the identity of that address is theirs, in every reachable state |
| `AuthnAccounts.IdentityNeverMoves` | backend/authn/service.go:262-270 | an identity, once registered, stays with its user |
| `AuthnAccounts.AddressCannotBeRebound` | backend/migrations/20260903_000000_initial.sql:100-101 | an active user who has an address keeps it, and every attempt to bind another is a conflict that changes nothing |
| `AuthnAccounts.StaleBindIsHarmless` | backend/authn/service.go:302-338 | a bind token issued for an address that was taken after the check is refused whenever it is presented, and changes nothing |
| `AuthnAccounts.ResetReachesOwner` | backend/authn/password_reset.go:93-123 | a reset changes the password of the account that owns the address the token was mailed to, and no other user |
| `AuthnAccounts.ResetRequestRevealsIff` | backend/authn/password_reset.go:28-77 | two services answer a reset request alike if and only if the mail goes out, the address is malformed, or both or neither know it |
| `AuthnJourneys.LoginGrantWorks` | backend/authn/login.go:104-149 | the tokens a login hands out are accepted, each exactly until its configured end |
| `AuthnJourneys.RotationGrantWorks` | backend/authn/login.go:201-255 | so are those of a refresh, while the access token it replaces is refused at once and the old refresh token has become a replay |
| `AuthnJourneys.LocalAccountLogsIn` | backend/authn/service.go:123-155 | a local account can log in at once, with its password and no other |
| `AuthnJourneys.MailAccountLogsInOnceVerified` | backend/authn/service.go:157-172 | a mail account cannot log in before its token is redeemed, which works for thirty minutes, and can after, by name or by address |
| `AuthnJourneys.ResetThenLogin` | backend/authn/password_reset.go:45-123 | a reset token works for thirty minutes, after which the owner logs in with the new password and no other |
| `AuthnJourneys.ChangeThenLogin` | backend/authn/password_reset.go:167-196 | whoever knows the current password can change it, and whatever happens before the change commits the user then logs in with the new password and no other |
| `AuthnJourneys.BindThenLogin` | backend/authn/service.go:261-282 | a bind token works for thirty minutes and gives an address by which the user can then log in |
| `AuthnJourneys.LogoutEndsSession` | backend/authn/login.go:260-275 | after a logout that session's tokens are refused, and no other session is touched |
| `LoginLimiter.MemLoginLimiter.Failed` | backend/authn/limiter.go:126-151 | one recorded failure: the entry and the answer of the rule, other keys untouched |
| `LoginLimiter.MemLoginLimiter.Locked` | backend/authn/limiter.go:154-162 | locked exactly before the unlock instant |
| `LoginLimiter.MemLoginLimiter.Reset` | backend/authn/limiter.go:165-169 | the entry is gone, nothing else |
| `LoginLimiter.KeysApart` | backend/authn/limiter.go:75-82 | counter and lock keys never meet, nor those of different subjects |
| `LoginLimiter.RedisLoginLimiter.Failed` | backend/authn/limiter.go:52-66 | the script on a key space with lifetimes: cells and answer of the rule, other keys untouched |
| `LoginLimiter.LockLasts` | backend/authn/limiter.go:94-97 | after a failure that locks, asking at any later instant answers "locked" exactly until the lock's lifetime is over, on either side |
| `LoginLimiter.FailureTellsTheLock` | backend/authn/limiter.go:84-91 | a recorded failure answers what the very next question would, on either side |
| `LoginLimiter.RedisLoginLimiter.Reset` | backend/authn/limiter.go:100-102 | both keys of the subject are gone, nothing else |
| `LimiterEquivalence.FailedAgrees` | backend/authn/limiter.go:52-66 | one failure: same answer on both sides, and the correspondence of their states is kept |
| `LimiterEquivalence.StepAgrees` | backend/authn/limiter.go:84-169 | the same for any call, all subjects at once |
| `LimiterEquivalence.LimitersAgreeIffWindowFits` | backend/authn/limiter.go:104-169 | all answers agree on all traces off the expiry instants, if and only if the window is no longer than the lock or one failure locks |
| `LimiterEquivalence.LongWindowDiverges` | backend/authn/limiter.go:139-147 | for every other configuration, a trace on which they part |
| `LimiterEquivalence.DefaultsAgree` | backend/authn/limiter.go:36-38 | the shipped parameters agree |
| `LimiterEquivalence.EdgesAreReal` | backend/authn/limiter.go:140-161 | at the expiry instants the answers part, and exactly when, in any corresponding pair of states |
| `LimiterEquivalence.EdgeReachedAndDiverges` | backend/authn/limiter.go:140-161 | for every configuration a trace from a fresh start that reaches an edge and is answered differently there |
| `LoginGuard.OneAccountsShare` | backend/authn/limiter.go:84-169 | what one account has of either limiter changes by that account's own calls and answers them, and is untouched by everybody else's |
| `LoginGuard.LoneLoginIsCheckLogin` | backend/authn/login.go:56-97 | a login whose three steps nothing separates makes exactly the limiter calls of the login rule, and compares exactly when that rule does |
| `LoginGuard.GuessesAreFew` | backend/authn/login.go:67-89 | with at most c logins of an account in flight and L failures allowed: in any run, in any period no longer than window and lock without a right password in it, at most 2(L + c - 1) - 1 wrong passwords are compared; max(2L - 2, L + c - 1) + c - 1 with Redis, or when no failure falls on the end of a lock and the window is no longer than it; L + c - 1 when there is no record and nobody in flight |
| `GuardExactness.OverlapsAreAllCompared` | backend/authn/login.go:68-83 | n logins that all ask before the first failure is recorded are all compared, for every n and either limiter |
| `GuardExactness.MostIsExact` | backend/authn/limiter.go:126-151 | from any record of an account, the given number of comparisons is possible and no more is |
| `GuardExactness.LimitExceededIff` | backend/authn/limiter.go:26-33 | more than L + c - 1 comparisons are possible in a period if and only if it starts on a counting window with room for two failures that closes before the period ends |
| `GuardExactness.BoundIsReached` | backend/authn/limiter.go:139-149 | both bounds are met in a period around the end of a lock: 2(L + c - 1) - 1 in process with window and lock equal, as shipped, L + 2(c - 1) with Redis |
| `GuardExactness.WindowBoundIsReached` | backend/authn/limiter.go:139-144 | 2L - 2 + c - 1 is met by either limiter in any period in which a window ends |
| `TurnRegistry.OnlyItsOwnEnd` | backend/agentcli/session.go:54-66 | a turn's own End restores the table it began on, a late End of another turn changes nothing |
| `TurnRegistry.Registry.BeginTurn` | backend/agentcli/session.go:43-52 | registers if and only if the session has no turn |
| `TurnRegistry.Registry.EndTurn` | backend/agentcli/session.go:59-66 | clears the entry if and only if it is this turn's |
| `TurnRegistry.Registry.CancelTurn` | backend/agentcli/session.go:73-84 | marks and fires the cancel function the first time, does nothing after |
| `TurnOrder.RegistryTellsRunners` | backend/agentcli/session.go:86-107 | in every reachable state the number of turns in flight is the number of goroutines between Begin and End, and a session's turn is found exactly while one runs on it, with that goroutine's identifier |
| `ShardPool.Pool.constructor` | backend/agentcli/pool.go:38-66 | a pool has at least one shard |
| `ShardPool.Pool.ShardIndex` | backend/agentcli/pool.go:110-114 | the 32-bit FNV-1a hash of the bytes, modulo the shards |
| `ShardPool.FnvVectors` | backend/agentcli/pool.go:110-114 | the hash agrees with the published test vectors of 32-bit FNV-1a |
| `ShardPool.HomeIsTheRemainder` | backend/agentcli/pool.go:110-114 | a session's shard differs from its hash by a multiple of the number of shards |
| `ShardPool.Pool.Stub` | backend/agentcli/pool.go:72-74 | the shard a session hashes to |
| `ShardPool.Pool.Next` | backend/agentcli/pool.go:80-82 | its neighbour |
| `ShardPool.NeighbourDiffersIff` | backend/agentcli/pool.go:76-82 | the neighbour is another shard if and only if there is more than one |
| `TurnClient.Client.StreamOnce` | backend/agentcli/client.go:262-280 | the receive loop: what is dispatched and counted, for every stream, error and panic of the callback |
| `TurnClient.Client.StreamWithRetry` | backend/agentcli/client.go:224-233 | one attempt, and another on the neighbouring shard exactly when it failed before any response with a retryable error and there is one |
| `TurnClient.Client.RunTurn` | backend/agentcli/client.go:215-254 | the responses come from one attempt; a cancelled, a timed-out and an otherwise broken turn each add one to the counter of that name and to no other; the slot is cleared whatever happened |
| `TurnClient.SpokenIsPrefix` | backend/agentcli/client.go:268-279 | what is dispatched is a prefix of the stream, cut short only by a panic on its last response |
| `TurnClient.NothingSpokenBeforeRetry` | backend/agentcli/client.go:225-232 | an attempt that is retried has dispatched nothing |
| `TurnRefinement.LoneTurnIsRunTurn` | backend/agentcli/client.go:215-280 | for any two attempts and any callback, a run of the protocol in which only that goroutine moves reaches the end of its turn, and leaves what the method leaves: responses, counters, slot |
| `TurnSafety.StepKeepsSlots` | backend/agentcli/session.go:43-84 | every step of every goroutine keeps: each slot holds the one runner that began it, each runner has its slot |
| `TurnOrder.SlotHoldsItsRunner` | backend/agentcli/client.go:108-125 | between Begin and End a session's slot holds exactly its runner, and nobody else runs on that session, for any number of senders |
| `TurnOrder.DispatchesComeInBlocks` | backend/agentcli/client.go:215-231 | the dispatch log of each session is a concatenation of contiguous per-turn blocks, late responses and repeated turn identifiers included |
| `TurnOrder.RetryNeverMixes` | backend/agentcli/client.go:225-232 | at most two attempts, the second on another shard, and a turn's dispatched responses are a prefix of a single attempt's |
| `TurnAccounting.CountersBalance` | backend/agentcli/client.go:96-125 | the counters are exact in every reachable state, up to what each program counter still owes |
| `TurnAccounting.QuiescenceAddsUp` | backend/agentcli/client.go:215-254 | at rest: accepted = sent + rejected, sent = ok + cancelled + timed out + failed + panicked, responses = dispatched, no slot left |
| `TurnAccounting.CancelHitsAtMostOnce` | backend/agentcli/session.go:73-84 | a turn is cancelled successfully at most once, and never before it began |
| `TurnEnds.EveryEndIsCounted` | backend/agentcli/client.go:234-254 | in every reachable state the counters of cancelled, timed-out, failed and rejected turns are each the number of turns that ended that way, and every turn that is over ended once |
| `TurnEnds.RetriedIff` | backend/agentcli/client.go:224-233 | a turn has gone to a second attempt if and only if its first broke without a connection before any response and there is another shard |
| `TurnProgress.EveryTurnCanEnd` | backend/agentcli/client.go:108-125 | from every reachable state every turn can be brought to its end by its own steps: nobody's slot or stream holds it for good |
| `TurnProgress.OnlyNamedTurnsAreLetIn` | backend/agentcli/client.go:96-102 | every turn let in has a session and an identifier, and whatever has both is let in |
| `Ring.Buffer.constructor` | backend/dataplane/ring.go:36-48 | an empty queue of capacity at least one |
| `Ring.Buffer.Enqueue` | backend/dataplane/ring.go:56-79 | refines the abstract push: rejected when closed, oldest dropped when full, a token left behind |
| `Ring.Buffer.Dequeue` | backend/dataplane/ring.go:84-99 | refines the abstract pop: the oldest element, or none |
| `Ring.Buffer.Shut` | backend/dataplane/ring.go:163-177 | refines the abstract close, idempotent |
| `Ring.Buffer.Len` | backend/dataplane/ring.go:123-127 | the number of queued elements |
| `Ring.Buffer.OverwriteHead` | backend/dataplane/ring.go:65-69 | overwriting the head slot and advancing drops the oldest and appends the newest, for every head and capacity |
| `Ring.Buffer.WriteTail` | backend/dataplane/ring.go:71-74 | writing the slot after the last appends, and disturbs no other element |
| `Ring.PushAnswers` | backend/dataplane/ring.go:56-79 | what a push answers is what it did: refused exactly when closed, taken with room to spare, or for the oldest, exactly when full |
| `Ring.PopAnswers` | backend/dataplane/ring.go:84-99 | a pop takes the oldest element or nothing, and leaves closing, token and losses alone |
| `Ring.RingConserves` | backend/dataplane/ring.go:56-142 | accepted = popped + dropped + queued, popped is an in-order selection of accepted, the queue is the newest of it, for every capacity and operation sequence |
| `AsrWorker.NoLostWakeup` | backend/dataplane/ring.go:101-118 | in every interleaving, a consumer that waits on a non-empty or closed queue can go on |
| `AsrWorker.WokenForNothingSleeps` | backend/dataplane/ring.go:101-118 | a consumer woken for nothing goes back to waiting and sleeps until there is something to do |
| `AsrWorker.LeavesAfterClose` | backend/asr_cli/aliyun_asr.go:362-370 | after Close the consumer is never blocked and leaves within twice the remaining elements plus three of its own steps |
| `AsrWorker.SentInOrder` | backend/asr_cli/aliyun_asr.go:372-386 | the audio sent is exactly that of the chunks handled, an in-order selection of the audio accepted; nothing follows a last chunk, and only what the full queue dropped is lost |
| `AsrDemux.SessionsAreIsolated` | backend/asr_cli/aliyun_asr.go:233-346 | in any interleaving over the one table, a session's workers, queues, sent audio and registration are those of a run of its own events alone |
| `AsrDemux.EverySessionSound` | backend/asr_cli/aliyun_asr.go:326-388 | every worker of every session sends exactly the audio of the chunks it handled, in order, nothing after a last chunk, losing only what its full queue dropped; it never waits in vain, and its queue is open exactly while it is registered or its close is still to come |
| `AsrDemux.AcceptedAfterUnregister` | backend/asr_cli/aliyun_asr.go:438-451 | a chunk can be accepted by a session that has left the table, while another already serves its id |
| `AsrDemux.RegisteredWorkersRun` | backend/asr_cli/aliyun_asr.go:348-388 | the worker the table names for a session has not left: a worker takes its registration along |
| `AsrDemux.EveryWorkerLeaves` | backend/asr_cli/aliyun_asr.go:362-387 | once its queue is closed, every worker of every session leaves within twice its remaining elements plus three of its own steps, whatever everybody else does |
| `AsrRecognizer.Recognizer.GetOrCreateSession` | backend/asr_cli/aliyun_asr.go:326-346 | an existing queue is reused, a new one is empty and shared with nobody |
| `AsrRecognizer.Recognizer.Dispatch` | backend/asr_cli/aliyun_asr.go:257-270 | one chunk changes its own session's queue and no other; an empty identifier changes nothing |
| `AsrRecognizer.Recognizer.Feed` | backend/asr_cli/aliyun_asr.go:257-270 | the dispatch loop over any input |
| `AsrRecognizer.Recognizer.CloseSession` | backend/asr_cli/aliyun_asr.go:438-451 | the session leaves the table, its queue is closed with its contents, the others are as they were |
| `AsrRecognizer.QueueDependsOnOwnChunks` | backend/asr_cli/aliyun_asr.go:257-270 | after any input a session's queue is its old one with its own chunks pushed, in order |
| `AsrRecognizer.OnlyNamedSessionsStart` | backend/asr_cli/aliyun_asr.go:257-270 | after any input the sessions are those there were and those a chunk named; chunks without an identifier start none |
| `RoomAuthz.CheckCache.Fetch` | backend/authz/check.go:63-69 | a hit is a present decision not yet past its expiry |
| `RoomAuthz.CheckCache.Store` | backend/authz/check.go:72-82 | the decision is stored and indexed, whatever the cache evicts for it |
| `RoomAuthz.CheckCache.Invalidate` | backend/authz/check.go:85-93 | every indexed decision of the room is gone, and no other |
| `RoomAuthz.Client.MayDo` | backend/authz/check.go:15-33 | cache first, authority on a miss, errors not remembered |
| `RoomAuthz.Client.AssignRoomRole` | backend/authz/roles.go:14-25 | the tuple is written and the room's decisions forgotten; a refused write changes nothing |
| `RoomAuthz.Client.RemoveRoomRole` | backend/authz/roles.go:28-39 | the tuple is removed and the room's decisions forgotten; what that does to answers is in `AuthzRoles.RemovalEndsEverything` |
| `RoomAuthz.Client.Transfer` | backend/authz/roles.go:44-57 | the updates of one request applied in order, a hand-over to oneself only writing |
| `AuthzCoherence.KeysInjective` | backend/authz/check.go:16 | keys determine permission, room and user when no room in use, followed by the separator, begins another |
| `AuthzCoherence.CacheCoherentIffSeparatorFree` | backend/authz/check.go:15-93 | under any operations, evictions and expiries every answer is a direct check's, if and only if that condition holds |
| `AuthzCoherence.ClashMisleads` | backend/authz/check.go:16-19 | whenever it does not, two operations after which the client grants what a direct check denies |
| `AuthzCoherence.PlainRoomsQualify` | backend/authz/check.go:16 | room identifiers without the separator satisfy it |
| `AuthzCoherence.TransferKeepsOneHostIff` | backend/authz/roles.go:41-57 | a hand-over keeps the host unique if and only if it starts from or goes to the host |
| `AuthzRoles.StepWrites` | backend/authz/roles.go:14-57 | one operation, in any world: the tuple it speaks about is there or gone, every other one is as before |
| `AuthzRoles.RolesAreWhatWasWritten` | backend/authz/roles.go:14-57 | after any operations a role is held exactly if the last assignment, removal or hand-over about it says so |
| `AuthzRoles.CheckIsGranted` | backend/authz/schema.zed:7-31 | the permission expressions are the table of which roles grant what, muting taking away speaking only |
| `AuthzRoles.AnswersFollowRoles` | backend/authz/check.go:15-33 | over any operations, evictions and expiries, in rooms that meet the separator condition, every answer is what the roles last written grant |
| `AuthzRoles.RemovalEndsEverything` | backend/authz/roles.go:28-39 | after the removal of a user's only role in a room every question about that user there is answered no |
| `AuthzRoles.AssignmentGrants` | backend/authz/roles.go:14-25 | after an assignment the answers are those of the roles held before and that one |
| `AuthzRoles.DecisionLifetime` | backend/authz/check.go:63-74 | a decision is remembered exactly for its lifetime, which a hit does not prolong |
| `AuthzRoles.OnlyTheEvictedGo` | backend/authz/check.go:72-82 | remembering one decision forgets those evicted for it and no other |
| `AuthzRoles.UnknownPermissionIsRefused` | backend/authz/check.go:27-30 | a question about an unknown permission is an error and is not remembered |
| `ChatHistory.Session.AddMessage` | agent/core/session.py:86-91 | appends within the bound, the oldest message giving way |
| `ChatHistory.Session.ApplyPlayedPrefix` | agent/core/orchestrator.py:262-284 | cuts a marked reply to what was heard, or removes it, and only when a prefix came |
| `ChatHistory.Session.WriteExchange` | agent/core/orchestrator.py:206-253 | the end of a turn: collected reply, write-back and mark, or nothing when generation fails; which text that is, is in `ReplyText.StoredTextIsWhatWasSaid` |
| `ChatHistory.Session.HandleMessage` | agent/core/orchestrator.py:190-251 | a turn with nothing in between is its prefix and then its end |
| `ReplyText.JoinedConcatenates` | agent/core/orchestrator.py:240 | the text of two stretches of parts is the text of the one followed by that of the other |
| `ReplyText.JoinedAt` | agent/core/orchestrator.py:223-240 | character by character, each part of a reply stands after those before it |
| `ReplyText.PartsAreInvisible` | agent/core/orchestrator.py:222-240 | where a reply is cut into parts makes no difference to the conversation |
| `ReplyText.CoreIsUnique` | agent/core/orchestrator.py:240 | there is only one text that is another without the white space at its ends |
| `ReplyText.StoredTextIsWhatWasSaid` | agent/core/orchestrator.py:238-251 | a completed turn stores the question as asked and the generated text without the white space at its ends, unless that leaves nothing |
| `ReplyText.HeardTextIsThePrefix` | agent/core/orchestrator.py:276-279 | a prefix that is applied stores what was heard in the same way, in place of the reply |
| `ChatHistory.HistoryIsSuffixOfTranscript` | agent/core/orchestrator.py:190-253 | for every run with attributable prefixes the stored history is the newest part of the transcript in which each interrupted reply is what was heard of it: all the bound allows after a completed turn, at most one message short otherwise |
| `ChatHistory.PromptHistoryIsSuffix` | agent/core/orchestrator.py:238-284 | in particular when the turn after each interrupted reply carries its prefix |
| `HistoryExactness.HistoryRemembersIff` | agent/core/orchestrator.py:190-284 | for every run: the history is the newest part of the transcript, within every bound, if and only if each prefix that arrives while a reply is marked belongs to the newest entry, or is blank and finds a question there |
| `HistoryExactness.BoundTellsHarmIff` | agent/core/orchestrator.py:190-284 | for a single bound: that the history is right after every turn is the same as that condition, over all runs, if and only if the bound is at least three |
| `HistoryExactness.DamageStays` | agent/core/orchestrator.py:262-284 | where a history differs from the transcript beyond the reach of a cut, no later turn repairs it |
| `SessionPool.Pool.EvictExpired` | agent/core/orchestrator.py:148-164 | exactly the expired sessions leave, each saved unless empty or saving fails |
| `SessionPool.Pool.Lookup` | agent/core/orchestrator.py:72-107 | found, restored from memory (or empty, when loading fails) or created, after making room if the pool is full; or refused |
| `SessionPool.Pool.CloseSession` | agent/core/orchestrator.py:120-141 | the session leaves the pool, saved if it has a history and saving succeeds |
| `SessionPool.Pool.BeginTurn` | agent/core/orchestrator.py:190-191 | the prefix is applied to the session object found before, in the pool or not |
| `SessionPool.Pool.FinishTurn` | agent/core/orchestrator.py:232-251 | the exchange goes to that object, whatever has happened to the pool |
| `SessionPool.Pool.SaveMemory` | agent/core/orchestrator.py:286-299 | its history is saved under its id |
| `SessionPool.Pool.HandleMessage` | agent/core/orchestrator.py:186-258 | a message with nobody in between, a session swept away right after its lookup included |
| `SessionPool.PoolStaysBounded` | agent/core/orchestrator.py:82-87 | no message takes the pool beyond its bound |
| `SessionPool.ServedIff` | agent/core/orchestrator.py:80-87 | a message is refused if and only if its session is not live and the unexpired sessions fill the pool |
| `SessionExpiry.SweepKeepsIff` | agent/core/session.py:56-63 | a sweep keeps a session exactly up to the end of its time to live |
| `SessionExpiry.LookupRenews` | agent/core/orchestrator.py:106 | a lookup leaves its session in the pool with its whole time to live ahead |
| `SessionExpiry.LookedUpIsFoundAgain` | agent/core/orchestrator.py:79-107 | a lookup within the time to live of the last finds the same session, over any run in which nobody closes it, with any faults |
| `SessionContinuity.ServeIsARun` | agent/core/orchestrator.py:186-258 | such a message is a run of the steps that may otherwise be interleaved |
| `SessionContinuity.RestoreNewest` | agent/core/orchestrator.py:95-104 | what is restored of a saved history that is too long is its newest part |
| `SessionContinuity.PoolIsTransparent` | agent/core/orchestrator.py:72-299 | over any run of those steps, with any saves and loads failing and turns under way anywhere: a conversation is what its own fetches, drops, turn parts and savings make of it, a drop exactly when it is live and swept or closed, a turn part exactly when it is on one of its session objects |
| `SessionContinuity.DropsOnlyForgetIff` | agent/core/orchestrator.py:95-106 | while saving and loading succeed and no session is made anew under a turn or a saving, drops at any moment cost a conversation the mark on an interrupted reply and nothing else, over every course of events, if and only if the history's bound is not one |
| `SessionContinuity.CompletedTurnsSurvive` | agent/core/orchestrator.py:206-258 | when moreover every turn completes, the next lookup finds what all of them leave on one chat, whether drops fell between or during them |
| `SessionContinuity.OverlappingTurnsLose` | agent/core/orchestrator.py:186-258 | otherwise not: in the pool, a turn whose session is swept away and looked up again before it ends is gone after the next sweep, although it completed and was saved, whatever the turn |
| `SessionContinuity.EvictionInvisibleIff` | agent/core/orchestrator.py:148-164 | a drop is invisible to every later course of a conversation if and only if the bound is zero, or no reply was marked and no emptied history hides a saved one |
| `Quota.QuotaProvider.constructor` | agent/providers/quota.py:31-64 | a process starts from the persisted count, a missing or unreadable file counting as zero |
| `Quota.QuotaProvider.Save` | agent/providers/quota.py:66-72 | the counter is replaced atomically, or an error or a crash leaves it as it was |
| `Quota.QuotaProvider.TakeOne` | agent/providers/quota.py:74-81 | count, persist, only then allow; degrade for good at the limit |
| `Quota.QuotaProvider.ChatStream` | agent/providers/quota.py:100-121 | the upstream's events, the stand-in's, or none |
| `Quota.StepIsSound` | agent/providers/quota.py:58-81 | no call, failed save, crash or restart breaks the accounting invariant |
| `Quota.SpendingIsCovered` | agent/providers/quota.py:58-121 | from any file, over any run: real calls <= growth of the persisted count <= what the limit leaves, and the count overstates the calls by at most the units lost |
| `Quota.DegradedStaysDegraded` | agent/providers/quota.py:76-78 | a degraded process makes no further real call until the next start |
| `Quota.ExhaustedForever` | agent/providers/quota.py:58-78 | once the persisted count has reached the limit no restart brings quota back |
| `Quota.QuietCallsSpendAll` | agent/providers/quota.py:74-81 | without errors the quota is spent to its last unit |
| `Quota.LostFileRefunds` | agent/providers/quota.py:58-64 | removing the counter file gives its units back |
| `Quota.EveryAttemptCounts` | agent/providers/quota.py:74-81 | while a process lives every attempt counts up to the limit, as a call or as a unit lost to a failed save |
| `Quota.CountedBeforeCalled` | agent/providers/quota.py:78-81 | a real call is made only when the file holds the count that includes it |
| `Quota.CrashCostsAtMostOne` | agent/providers/quota.py:58-72 | after a crash the next process starts from the count before the attempt or after it, according to whether the file was replaced |
| `ToolCalls.Accumulate` | agent/providers/openai_compatible.py:260-271 | the accumulator holds, per index, the concatenated name and arguments and the last id |
| `ToolCalls.Sorted` | agent/providers/openai_compatible.py:278 | the indices, each once, strictly ascending |
| `ToolCalls.Emit` | agent/providers/openai_compatible.py:277-285 | the calls that got a name, in ascending order of index |
| `ToolCalls.TakeChunk` | agent/providers/openai_compatible.py:242-275 | what one chunk adds, chunks without choices or delta included |
| `ToolCalls.ReadAll` | agent/providers/openai_compatible.py:216-275 | the reading loop up to the end or the cancel signal |
| `ToolCalls.StreamOnce` | agent/providers/openai_compatible.py:213-324 | the events of any stream: text, whole calls, the end; or, on a failure, the text so far and an error |
| `ToolCalls.SplitChangesNothing` | agent/providers/openai_compatible.py:266-271 | cutting a fragment in two, wherever its name and arguments are cut, changes no projection |
| `ToolCalls.InterleavingChangesNothing` | agent/providers/openai_compatible.py:261-271 | fragments of different calls may overtake each other |
| `ToolCalls.ProjectionsConcatenate` | agent/providers/openai_compatible.py:261-271 | the per-index projections of a stream are those of its parts, joined |
| `ToolCalls.FragmentationIsInvisible` | agent/providers/openai_compatible.py:260-285 | two streams with the same per-index projections emit the same calls |
| `ToolCalls.UsageToldIff` | agent/providers/openai_compatible.py:242-275 | a usage report sent once is told at the end if and only if it came with a delta or was of nothing |
| `StreamReading.PieceByPiece` | agent/providers/openai_compatible.py:237-275 | a stream says what its pieces say one after the other; of finish reasons and usages the last counts |
| `StreamReading.OneChunkSays` | agent/providers/openai_compatible.py:242-275 | what a single chunk says, with and without a delta |
| `StreamReading.SignalCutsOff` | agent/providers/openai_compatible.py:237-240 | from the cancel signal on nothing counts, and the end is told as cancelled |
| `StreamReading.NoReasonMeansStop` | agent/providers/openai_compatible.py:213-260 | a stream that gives no reason ends as stopped |
| `StreamReading.DefaultIdsDiffer` | agent/providers/openai_compatible.py:282 | different indices get different default identifiers |
| `StreamReading.UnnamedCallsDiffer` | agent/providers/openai_compatible.py:277-285 | no two calls that came without an identifier are emitted with the same one |
| `ConfigMerge.DeepMerge` | agent/config/loader.py:318-331 | the recursive merge, in whatever order the override's keys come |
| `ConfigMerge.EnvToNested` | agent/config/loader.py:302-315 | the set variables nested at their paths, or a failure where a path leads through a value |
| `ConfigMerge.MergeGet` | agent/config/loader.py:318-331 | a merge seen path by path |
| `ConfigMerge.NestedShape` | agent/config/loader.py:302-315 | for a prefix-free table nesting succeeds, and a path leads to a text exactly if a variable put it there |
| `ConfigMerge.NestingFailsIff` | agent/config/loader.py:302-315 | for any table: nesting fails if and only if some set variable's path is empty or runs through that of one set earlier in the table |
| `ConfigMerge.MergedTexts` | agent/config/loader.py:236-238 | every text of the merged tree, and only those: set variables at their paths, file values at untouched paths |
| `ConfigMerge.UntouchedIsKept` | agent/config/loader.py:318-331 | where no set variable lies at, above or below a path the merged tree is the file's: texts, sections, empty sections, gaps |
| `ConfigTable.TableIsPrefixFree` | agent/config/loader.py:168-206 | no mapped path runs through another, and no two entries share one |
| `ConfigTable.Load` | agent/config/loader.py:230-238 | the merged dictionaries for any file and environment: every text, and everything no variable touches |
| `ConfigMerge.VariableWins` | agent/config/loader.py:168-206 | a set variable decides its field, whatever the file holds there, above or below |
| `ConfigMerge.FileTextSurvivesIff` | agent/config/loader.py:326-330 | a file value is kept if and only if no set variable lies at, above or below its path, or one set the same text |

## Left out

- Weaker database isolation: transactions are serialised. At read-committed two concurrent refreshes of one token are not excluded by the code shown, and the lineage results do not speak about that. Commits, the one inside the replay branch included, succeed.
- Failures of the database, Redis, SpiceDB and the network; Redis errors count as "not locked" in the source. A failed write to SpiceDB has no effect.
- Cryptography, randomness and password hashing parameters: hashes are injective, tokens are inputs.
- Audit fields (address, user agent, device fingerprint), display fields and `expiresIn` of the answers, the realtime revocation broadcast, HTTP handlers and cookies.
- `AuthnStore.NormalizeEmailIdempotent`: trimming and lower-casing are those of ASCII, here and wherever text is trimmed or lowered; the other white space and case mappings of Unicode are not modelled.
- What a suspended user stays: VerifyEmail activates any user that is not active, and is modelled so; nothing is claimed about suspension.
- `AuthnRuns.Step`: changing a user's status has no use case in the source; it is there as an act of administration so that the theorems hold under it.
- `TurnProtocol.Advance`: cancelling a context is not modelled as an effect on the stream; a stream may fail, or go on, at any step, which covers it. Waiting for the slot may end at any time, for its deadline.
- `TurnClient.Client.RunTurn`: the two attempts are given as what they deliver; the concurrency is in `TurnProtocol`.
- "Everything is drained before the consumer exits" is not claimed: a push and a close can fall between its failed pop and its look at the closed flag.
- `AsrDemux.Step`: the registration of a session and the start of its worker are one step, as the table's lock makes them; the search for idle sessions is an unregistering at any time, and the close that follows it may come at any later time.
- `AsrWorker.Advance`: connecting to the cloud, its callbacks and the results that come back are not modelled; a send error is ignored by the source and here. The source's once-only cleanup is the removal from the table.
- `AsrRecognizer.Recognizer.Dispatch`: the consumers are not on this heap; `AsrDemux` has them.
- Races inside the permission cache, between storing a decision and invalidating its room: operations of the client are atomic here. Which entries the LRU evicts is left open, so recency is not modelled. Questions about permissions the schema does not know are answered with an error and not covered by the coherence theorem.
- `SessionPool.Pool.HandleMessage`: nobody comes in between; `SessionContinuity` has the interleavings. One saving writes the history at one moment. Per-session locking in the agent's turn service is not modelled.
- `LoginGuard.Step`: the lock on a client's address only turns logins away, and is a free choice at each of them; the failures counted are those of one account.
- Two processes sharing one quota counter file; the file's limit field, which nothing reads back; a counter file that holds JSON but not an object, on which the source fails to start.
- `ToolCalls.StreamOnce`: the first-chunk timeout and every other upstream error are one failure; metrics, spans and the concurrency gate are left out.
- `ConfigMerge.EnvToNested`: nesting builds values instead of changing shared dictionaries in place; a file whose root is not a mapping, keys that are not strings, type conversion and validation are left out.
- Strategies, tools, the outbox relay, projections, signalling, media and text-to-speech are not part of this model.

# Enterprise auth server: protocol model and proofs

A Dafny model of the stateful parts of the authentication server under
`backend/app`: sessions and refresh tokens, rate limiting and lockout, one-time
factors, e-mail tokens and OAuth identities. `dafny verify dfyconfig.toml`
checks everything.

## How the system is modelled

**Two stores, one request at a time.** A request talks to Redis and to one
database transaction. Redis writes stay; the transaction is committed when the
handler returns and rolled back when anything raises, except where the code
commits early on purpose (closing an expired session, killing a replayed token
family). A request is a *plan*: the commands it sends, in order, and how it
ends (`Stores.dfy`). A *budget* says how many commands get through before the
connections break, so every plan also says what an aborted request leaves
behind: Redis keeps the prefix, the tables fall back to the last commit, and
no token is delivered. "In every run" below means: for any sequence of
requests and waits, each cut after any number of commands.

**Two layers.** The imperative layer (`Connection`, `TokenService`,
`SessionManager`, `Routes`, `RateLimiter`, `Authenticator`,
`TwoFactorManager`, `AccountManager`) has the source's classes and control
flow over mutable stores. Each method is proved to send exactly the commands of
its plan, stop at the first that fails and end as the plan says; the `Serve`
methods prove that a request inside its unit of work is one step of the
specification. The specification layer turns plans into worlds, steps and
runs, and there the theorems are proved.

**Conventions.** Times are whole seconds (`Truncation.dfy` uses milliseconds).
A Redis entry is live before its deadline and stays in the map after it; a token
is valid before its `exp`. `Config.Sane` asks for positive durations,
remember-me at least as long as a plain login, idle timeout above throttle, at
least one allowed failure. Signed tokens cannot be forged: clients present what
they were sent. Random identifiers are fresh. Hashes are injective.

| files | subject |
|---|---|
| `Base`, `Stores` | settings, exceptions, the two stores, commands, plans, connections |
| `SessionPlans`, `SessionService`, `SessionRoutes` | session and token operations, as plans and as methods |
| `Protocol`, `SessionInvariant`, `SessionKeeps` | runs of the session protocol and the invariant every command keeps |
| `SessionTheorems`, `SessionFastPath`, `SessionShape`, `SessionStages`, `SessionActivity`, `SessionWitness` | what follows, and where it stops holding |
| `SessionAnswers` | what each session request answers and leaves in both stores |
| `Truncation` | blacklisting on a millisecond clock |
| `RateLimit`, `RateLimitRuns` | windows and lockouts |
| `TwoFactor`, `TwoFactorService`, `TwoFactorAnswers`, `TwoFactorRuns`, `TwoFactorLockout`, `RecoveryCodes`, `RecoveryWitness` | one-time passwords and recovery codes |
| `Accounts`, `AccountService`, `AccountRuns`, `AccountTheorems`, `AccountAnswers` | e-mail tokens, addresses, linked accounts |

## What the proofs found

- The documentation says revoked *or expired* sessions blacklist their refresh
  token (the repository README, line 300). A session that comes to be closed has
  its token blacklisted if and only if it was already or the request is not one
  that presents an expiring access token (`SessionStages.ClosedIsListed`, for
  every request and every cut). Logging in, waiting, refreshing and reading once
  reaches the exception (`SessionWitness.ExpiredTokenUnlisted`). The closed row
  still keeps the token out (`SessionWitness.ExpiryBlacklistsNothing`).
- Refreshing looks neither at the idle timeout, nor at the absolute expiry, nor
  at the Redis flag; `SessionTheorems.RefreshAccepts` gives the exact condition.
- The touch-rate bound is false in general: a logout that fails after deleting
  the throttle key and before setting the revocation flag lets the next request
  count again (`SessionWitness.RateBoundFails`). A request keeps the bound if and
  only if it does not count before the session is due (`SessionActivity.RateStep`),
  and a run keeps it throughout if and only if no request of it does
  (`SessionActivity.RateExact`). The cuts after which the next read breaks it are
  exactly the exposing ones (`SessionActivity.ExposedBreaksRate`); a run without
  them keeps the bound (`SessionActivity.TouchRate`).
- A session can go idle although it is being served: a request that is let in and
  then fails, for whatever reason, leaves the throttle key behind, and the next
  read records nothing (`SessionWitness.KeepAliveFails`). A served call keeps its
  session alive if and only if it was not throttled or found recent activity
  (`SessionActivity.KeepAliveExact`).
- After a logout whose commit was lost, Redis rejects a session the database
  would accept (`SessionFastPath.LostLogoutSplitsVerdicts`); without faults the
  two always agree. The flags stay in step with the table if and only if no
  request is cut between flagging and committing (`SessionFastPath.FlagsExact`).
- A counter whose `expire` is lost never runs out. The bucket may then stay
  closed for good (`RateLimitRuns.Reopens`, `RateLimitRuns.LostExpirySticks`).
- Counter windows do not slide: `RateLimitRuns.WindowsDoNotSlide`.
- A rotated refresh token can be rotated again during a final gap of less than
  a second (`Truncation.RotationGap`, `Truncation.ReplayedInTheGap`).
- A plain request for recovery codes after all are spent leaves the spent rows,
  so unused plus redeemed codes become a multiple of the configured number
  (`RecoveryCodes.SecondSet`, reached by the run of `RecoveryWitness.SecondSetReached`);
  the sum is the configured number if and only if one set is out (`RecoveryCodes.OneSetOut`).
- The one-time password that confirms the 2FA setup is not marked as used
  (`TwoFactorRuns.SetupCodeStillWorks`).

## Model

| member | source | states |
|---|---|---|
| Stores.AllOrNothing | backend/app/db/session.py:45-59 | a request that commits only at its end commits all its writes or none, wherever it is cut |
| SessionService.TokenService.Revoke | backend/app/services/token.py:80-90 | blacklists until natural expiry, and not at all once that has passed |
| SessionService.TokenService.RevokeJti | backend/app/services/token.py:92-97 | blacklists by id for the given lifetime, or the longest a refresh token has |
| SessionService.TokenService.VerifyRefresh | backend/app/services/token.py:105-115 | decodes, then tells a replay from a valid token by the blacklist |
| SessionService.TokenService.Rotate | backend/app/services/token.py:117-129 | a verified token is blacklisted before the new pair, bound to the same session, is returned |
| SessionService.SessionManager.CreateSession | backend/app/services/session.py:57-115 | inserts the row with its expiry and caches it; tells whether the device is new |
| SessionService.SessionManager.ValidateAndTouch | backend/app/services/session.py:118-140 | flag, row, absolute expiry, idle timeout, touch, in that order, with the early commit of an expiry |
| SessionService.SessionManager.Touch | backend/app/services/session.py:142-151 | counts the request and its time unless throttled |
| SessionService.SessionManager.Expire | backend/app/services/session.py:154-168 | closes the row, commits, then flags it |
| SessionService.SessionManager.Revoke | backend/app/services/session.py:170-182 | blacklists the row's refresh token, closes the row, flags the session |
| SessionService.SessionManager.RevokeByUuid | backend/app/services/session.py:184-190 | ownership is checked, an inactive session is left as it is |
| SessionService.SessionManager.RevokeBySid | backend/app/services/session.py:192-208 | revokes without ownership check and tells whether there was an active session |
| SessionService.SessionManager.ListActiveForUser | backend/app/repositories/session.py:30-48 | exactly the user's active sessions, each once, most recently active first |
| SessionService.SessionManager.RevokeAll | backend/app/services/session.py:210-221 | the loop revokes exactly the listed sessions but the excepted one, and counts them |
| SessionService.SessionManager.RebindRefresh | backend/app/services/session.py:223-234 | points an active, owned session at the new refresh token |
| SessionService.RevokeFirst | backend/app/services/session.py:210-221 | revoking a list, cut anywhere, is revoking its head and then the rest from the state reached |
| SessionRoutes.Routes.FinalizeLogin | backend/app/api/v1/_login.py:26-60 | one fresh session id binds the pair and the row |
| SessionRoutes.Routes.GetAuthContext | backend/app/dependencies/auth.py:26-53 | token, account, then session |
| SessionRoutes.Routes.Handle | backend/app/api/v1/sessions.py:69-104 | the logout, logout-all and revoke routes on the authenticated session |
| SessionRoutes.Routes.HandleRefreshReplay | backend/app/api/v1/auth.py:216-240 | revokes the replayed token's session and commits before the request is rejected |
| SessionRoutes.Routes.Refresh | backend/app/api/v1/auth.py:192-213 | rotate, rebind; a replay kills the session and is rejected |
| SessionRoutes.Routes.Logout | backend/app/api/v1/auth.py:243-263 | never rejects an invalid token, revokes what a valid one names |
| SessionRoutes.Routes.Serve | backend/app/db/session.py:45-59 | every request in its unit of work leaves both stores as one step of the protocol does, with the same response, and the step is a possible one |
| SessionKeeps.KeepsRevoke | backend/app/services/session.py:170-182 | every prefix of a revocation keeps the invariant |
| SessionKeeps.KeepsExpire | backend/app/services/session.py:154-168 | every prefix of an expiry keeps the invariant, and the whole of it closes the committed row |
| SessionKeeps.KeepsRefresh | backend/app/api/v1/auth.py:192-240 | every prefix of a refresh keeps the invariant; a served pair is the one the row names |
| SessionKeeps.KeepsLogin | backend/app/api/v1/_login.py:37-49 | every prefix of a login keeps the invariant |
| SessionKeeps.InvNext | backend/app/services/session.py:118-234 | every request, cut anywhere, keeps the invariant; blacklist entries and flags stay, sessions are never reactivated, their last activity never goes back |
| SessionKeeps.InvRun | backend/app/services/session.py:118-234 | so does every run |
| SessionTheorems.OneLiveRefreshToken | backend/app/services/token.py:117-129 | in every reachable state at most one delivered refresh token per session is live, it is the one the row names, and exactly the live ones are accepted |
| SessionTheorems.RefreshAccepts | backend/app/services/session.py:223-234 | a delivered token is exchanged if and only if it is an unexpired, unlisted refresh token of an active session |
| SessionTheorems.DoomedForever | backend/app/services/session.py:118-130 | a session closed or flagged at some time lets no token in at any later time |
| SessionTheorems.RevocationSurvivesRollback | backend/app/services/session.py:268-273 | a request that got as far as flagging a session has revoked it for good, even if its transaction was rolled back |
| SessionTheorems.PresentedIsSpent | backend/app/services/token.py:117-129 | an unexpired refresh token presented in a fault-free request is blacklisted afterwards |
| SessionTheorems.ReplayCloses | backend/app/api/v1/auth.py:216-240 | presented while blacklisted, it closes its session in the committed table |
| SessionTheorems.FamilyKill | backend/app/api/v1/auth.py:192-240 | presented twice while unexpired, with anything in between: the row is committed inactive and no token of that session is accepted ever after |
| SessionTheorems.SeenRows | backend/app/dependencies/auth.py:26-53 | authenticating changes at most the caller's own row, and only its activity |
| SessionTheorems.LogoutAllCloses | backend/app/services/session.py:210-221 | the count is the number of active sessions, none is left, other users' rows are unchanged, every token delivered to the user before is rejected ever after |
| SessionFastPath.FaultFreeFlags | backend/app/services/session.py:118-182 | a fault-free request leaves only flags of committed inactive rows |
| SessionFastPath.FastPathRefinesDatabase | backend/app/services/session.py:118-140 | after any fault-free run, asking Redis first gives the database's verdict and leaves the same stores; accepted if and only if the row exists, is owned, active, unexpired and not idle |
| SessionFastPath.LostLogoutSplitsVerdicts | backend/app/api/v1/sessions.py:69-79 | a logout cut before its commit makes the two verdicts differ |
| SessionShape.RequestTidy | backend/app/services/session.py:268-273 | no request deletes a blacklist entry or a flag; a throttle key goes only right before its session is flagged |
| SessionAnswers.AdmitsExactly | backend/app/dependencies/auth.py:26-53 | an access token is let in if and only if it is one, has not expired, its account is in good standing, and its session is not flagged, exists, is the user's, active, before its absolute expiry and used within the idle timeout |
| SessionAnswers.RefusedCall | backend/app/dependencies/auth.py:26-53 | any other call is answered with an authentication error, whatever it was for |
| SessionAnswers.ServedTokens | backend/app/services/token.py:36-58 | every pair a login or refresh is answered with: issue time, the two lifetimes, remember flag, user and session, carried over on a refresh |
| SessionAnswers.AccessTokenExpires | backend/app/core/security.py:51-70 | no access token is let in once the configured minutes have passed since it was served, in every run |
| SessionAnswers.LoginOutcome | backend/app/services/session.py:85-106 | a login always answers with a pair and inserts exactly one row, with its lifetime the shorter of the refresh and the absolute one, and the activity key |
| SessionAnswers.LifetimeFixed | backend/app/services/session.py:47-54 | owner, login time and absolute expiry of that row are the same in every later world |
| SessionAnswers.NewDeviceExactly | backend/app/services/session.py:73-80 | a device is reported as new if and only if the user has signed in before and never from the same browser, system and kind |
| SessionAnswers.LogoutOutcome | backend/app/api/v1/auth.py:243-263 | logout always answers Ok; an absent, expired, wrong or blacklisted token changes nothing, any other is blacklisted and closes its session if active, and no other row |
| SessionAnswers.LogoutShutsOut | backend/app/api/v1/auth.py:255-259 | after it nothing of that session is let in, in every later run |
| SessionAnswers.RefreshOutcome | backend/app/api/v1/auth.py:192-240 | the answer and the whole table after a refresh, for every kind of token presented |
| SessionAnswers.RefreshLeaves | backend/app/services/token.py:80-90 | after a served refresh the presented token is blacklisted to the second it expires, and Redis is otherwise unchanged but for the activity key |
| SessionAnswers.RevokeOneOutcome | backend/app/services/session.py:184-190 | revoking by id answers not found, with no change, if and only if it is not a session of the caller; otherwise that session ends closed and no other is closed |
| SessionAnswers.LogoutThisOutcome | backend/app/api/v1/sessions.py:69-79 | logging out the current session closes it and no other |
| SessionAnswers.LogoutAllOutcome | backend/app/api/v1/sessions.py:82-92 | every row after logging out everywhere |
| SessionAnswers.RevokeLeaves | backend/app/services/session.py:170-182 | both stores after a revocation, entry by entry and with every lifetime |
| SessionAnswers.ExpireLeaves | backend/app/services/session.py:154-168 | both stores after an expiry |
| SessionAnswers.TouchLeaves | backend/app/services/session.py:142-151 | both stores after recording activity; nothing while throttled |
| SessionStages.RequestWalks | backend/app/services/session.py:154-221 | for every active session every request is a lawful path: a revocation lists, closes, drops the throttle key, flags and commits in that order, an expiry closes, commits, drops and flags, and it expires the session if and only if it presents an expiring token of it |
| SessionStages.StageTells | backend/app/services/session.py:154-221 | wherever a request is cut, the stage it reached says whether the committed row is closed, the flag set, the refresh token listed and the throttle key gone |
| SessionStages.ClosedIsListed | backend/app/services/session.py:154-182 | a session closed by any request, cut anywhere, has its refresh token blacklisted if and only if it was before or the request is not an expiring access |
| SessionFastPath.FlagsExact | backend/app/services/session.py:170-182 | all flags keep pointing to closed rows if and only if the request is not cut between flagging an active session and committing |
| SessionActivity.CountStep | backend/app/services/session.py:142-151 | a request raises a session's count by at most one, exactly if it is a committed touch |
| SessionActivity.RateStep | backend/app/services/session.py:142-151 | any request, cut anywhere, keeps the touch-rate bound of a session if and only if it does not count before the session is due |
| SessionActivity.RateExact | backend/app/services/session.py:142-151 | a run keeps the bound in every one of its worlds if and only if none of its requests counts early |
| SessionActivity.ReadKeepsRate | backend/app/services/session.py:142-151 | a read with an admitted token keeps the bound if and only if the session is due or throttled |
| SessionActivity.GuardExact | backend/app/services/session.py:268-273 | a request leaves every open session throttled or due if and only if it is not cut right after deleting the throttle key of an open session that is not due, other than by an expiry |
| SessionActivity.ExposedBreaksRate | backend/app/services/session.py:268-273 | among all cuts of all requests, exactly those let the next read break the bound |
| SessionActivity.TouchRate | backend/app/services/session.py:142-151 | in every run without such a cut, requests counted are at most one plus one for each throttle interval since login |
| SessionActivity.CallRefreshes | backend/app/services/session.py:142-151 | a served call leaves activity at most one throttle interval old if and only if it was not throttled or the activity was that recent before |
| SessionActivity.KeepAlive | backend/app/services/session.py:132-151 | despite throttled writes a served session is not idle for the idle timeout less one throttle interval, unless its own activity was aborted within one throttle interval before |
| SessionActivity.KeepAliveExact | backend/app/services/session.py:132-151 | a served call keeps its session alive in every run that may follow if and only if it was not throttled or found recent activity |
| SessionWitness.TornLogout | backend/app/services/session.py:268-273 | the cut that loses the throttle key and keeps the session |
| SessionWitness.RateBoundFails | backend/app/services/session.py:142-151 | four requests that break the touch-rate bound under any settings |
| SessionWitness.KeepAliveFails | backend/app/services/session.py:142-151 | a run in which a session is served and, as little as a second later, idle |
| SessionWitness.ExpiredTokenUnlisted | backend/app/services/session.py:154-168 | a run that ends with a closed session whose unexpired refresh token is not blacklisted |
| SessionWitness.ExpiryOutcome | backend/app/services/session.py:127-138 | the answer and both stores after presenting an expiring token, with the reason recorded |
| SessionWitness.ExpiryBlacklistsNothing | backend/app/services/session.py:154-168 | a rejected, expiring access closes the session for good and blacklists nothing |
| Truncation.RotationGap | backend/app/services/token.py:80-90 | a rotated token is accepted again exactly in a final gap shorter than a second, empty if and only if it was rotated on a second boundary |
| Truncation.ReplaySpan | backend/app/services/token.py:105-129 | however often a token is presented, every success but the first falls in its last second |
| Truncation.ReplayedInTheGap | backend/app/services/token.py:80-90 | off the boundary the same token does rotate twice |
| Truncation.RevokeByIdReaches | backend/app/services/token.py:92-97 | blacklisting by id reaches the expiry of every refresh token issued before |
| RateLimit.RateLimiter.Hit | backend/app/services/rate_limit.py:19-34 | increments, starts the window on the first hit, fails closed |
| RateLimit.RateLimiter.EnsureNotLocked | backend/app/services/rate_limit.py:48-60 | fails closed |
| RateLimit.RateLimiter.RecordFailure | backend/app/services/rate_limit.py:62-75 | counts, locks when full, ends silently at any fault |
| RateLimit.RateLimiter.ClearFailures | backend/app/services/rate_limit.py:77-83 | forgets counter and lock, ends silently at any fault |
| RateLimitRuns.FixedWindowBound | backend/app/services/rate_limit.py:19-34 | in every run any interval of n windows lets at most (n+1) limits pass |
| RateLimitRuns.HitEffect | backend/app/services/rate_limit.py:26-30 | the counter after a hit of which any number of commands got through, with its deadline |
| RateLimitRuns.HitAnswers | backend/app/services/rate_limit.py:26-34 | when exactly a hit passes, is over the limit, or is denied for want of Redis |
| RateLimitRuns.HitPasses | backend/app/services/rate_limit.py:19-34 | with Redis answering, a hit passes if and only if the window has room, so the first after a deadline does |
| RateLimitRuns.Reopens | backend/app/services/rate_limit.py:27-30 | waiting reopens a bucket if and only if it is not stuck without an expiry |
| RateLimitRuns.LostExpirySticks | backend/app/services/rate_limit.py:27-30 | one lost expiry is enough to stick |
| RateLimitRuns.GuessingBound | backend/app/services/rate_limit.py:48-75 | in every run an interval of n lockouts sees at most (n+1) batches of failures, plus a batch for each success and one failure for each that Redis did not record |
| RateLimitRuns.LockoutExact | backend/app/services/rate_limit.py:62-83 | locked if and only if the latest counter window of the failure history is full and its last failure is more recent than the lockout |
| RateLimitRuns.WindowMeaning | backend/app/services/rate_limit.py:62-75 | a window holds at most the allowed failures, all within the lockout period of its first |
| RateLimitRuns.WindowsApart | backend/app/services/rate_limit.py:62-75 | in every run consecutive counter windows start at least one lockout period apart |
| RateLimitRuns.WindowsDoNotSlide | backend/app/services/rate_limit.py:62-75 | a run of the limiter: with three failures allowed, three failed checks come within two seconds and nobody is locked out |
| RateLimitRuns.Authenticator.Authenticate | backend/app/services/auth.py:44-62 | a login check is one step of the limiter; exactly when it passes, is locked out, refused or denied; a disabled account with the right password leaves counter and lock as they were |
| RateLimitRuns.LoginAnswers | backend/app/services/auth.py:44-57 | the same of the check's answer, and exactly when it counts a failure or forgives the earlier ones |
| RateLimitRuns.CaseShares | backend/app/services/rate_limit.py:43-46 | identifiers that differ only in letter case share counter and lock |
| RateLimitRuns.AddressesApart | backend/app/services/rate_limit.py:43-46 | one identifier tried from two IP addresses does not; an empty address is none |
| TwoFactorService.TwoFactorManager.StartSetup | backend/app/services/two_factor.py:78-97 | stores or replaces a pending secret, refuses when enabled |
| TwoFactorService.TwoFactorManager.ConfirmSetup | backend/app/services/two_factor.py:105-119 | enables on a valid code and marks nothing |
| TwoFactorService.TwoFactorManager.VerifyTotp | backend/app/services/two_factor.py:128-148 | lock, record, replay key, code, in that order; marks an accepted code before clearing failures |
| TwoFactorService.TwoFactorManager.ConsumeRecoveryCode | backend/app/services/two_factor.py:170-182 | the loop spends exactly the first unused matching code |
| TwoFactorService.TwoFactorManager.GenerateRecoveryCodes | backend/app/services/two_factor.py:156-168 | refuses while codes are unused unless replacing |
| TwoFactorService.TwoFactorManager.Remove | backend/app/services/two_factor.py:188-192 | deletes the factor and every code |
| TwoFactorService.TwoFactorManager.Serve | backend/app/db/session.py:45-59 | a two-factor request in its unit of work is one step of the specification; an error of its check is the response |
| TwoFactor.RequestTables | backend/app/api/v1/auth.py:164-189 | a request changes the tables if and only if it succeeds, and then in full: code, session and all |
| TwoFactorAnswers.OtpPassesExactly | backend/app/services/two_factor.py:128-148 | an OTP check passes if and only if two-factor is on, the user is not locked out, the digits are not marked and are those of a step within the validity window |
| TwoFactorAnswers.OtpRefusedExactly | backend/app/services/two_factor.py:128-143 | which error it raises otherwise |
| TwoFactorAnswers.TotpLoginExactly | backend/app/api/v1/auth.py:130-156 | an OTP login succeeds if and only if its check passes, and then opens a session and changes nothing else in the tables |
| TwoFactorAnswers.ConfirmExactly | backend/app/services/two_factor.py:105-119 | confirming succeeds if and only if a secret is pending and the digits are valid now, and then enables that secret |
| TwoFactorAnswers.SetupExactly | backend/app/services/two_factor.py:78-97 | setup succeeds if and only if the password is right and two-factor off, and stores the secret as pending |
| TwoFactorAnswers.DisableExactly | backend/app/services/two_factor.py:185-192 | when disabling succeeds; it removes the user's factor and codes and nobody else's |
| TwoFactorAnswers.GenerateExactly | backend/app/services/two_factor.py:156-168 | when codes are issued, and exactly which rows there are then |
| TwoFactorAnswers.RecoveryPassesExactly | backend/app/services/two_factor.py:170-182 | a recovery check passes if and only if the user is not locked out and has an unused code that matches |
| TwoFactorAnswers.RecoveryLoginOutcome | backend/app/api/v1/auth.py:164-189 | a recovery login spends one such code, opens its session and changes nothing else in the tables |
| TwoFactorAnswers.TypedCodeMatches | backend/app/services/two_factor.py:174-174 | a code may be typed in either letter case and with blanks around it |
| TwoFactorAnswers.LocksApart | backend/app/services/two_factor.py:130-131 | no two users' second factors share a counter or lock |
| TwoFactorRuns.OtpAcceptedOnce | backend/app/services/two_factor.py:128-148 | in every run, when the same digits of a user are accepted twice, each time they are those of a step within its validity window, and no step is within it both times |
| TwoFactorRuns.MarkOutlivesCode | backend/app/services/two_factor.py:145-147 | the replay key lasts to the end of the code's acceptance span, for every window, and no shorter key would do |
| TwoFactorRuns.SetupCodeStillWorks | backend/app/services/two_factor.py:105-119 | the confirming code is accepted for a login in the same instant if and only if it was not marked before and the user is not locked out |
| TwoFactorLockout.SharedLockoutExact | backend/app/services/two_factor.py:128-182 | a user's lockout is exact over wrong one-time passwords and wrong recovery codes in one history |
| TwoFactorLockout.SharedGuessingBound | backend/app/services/two_factor.py:128-182 | the guessing bound covers both kinds together |
| TwoFactorLockout.MistakesGrow | backend/app/services/two_factor.py:128-182 | a request of either kind adds to that history if and only if its check answers that the credential is wrong, and empties it if and only if the check passes |
| RecoveryCodes.Conservation | backend/app/services/two_factor.py:156-182 | in every run unused codes and sessions opened by codes add up to the sets issued, and a code is spent if and only if exactly one committed session was opened by it |
| RecoveryCodes.OneSetOut | backend/app/services/two_factor.py:156-168 | the sum is the configured number if and only if one set is out |
| RecoveryCodes.SetsOut | backend/app/services/two_factor.py:156-192 | how each request changes the number of sets; a plain one is granted only when every code is spent |
| RecoveryCodes.SecondSet | backend/app/services/two_factor.py:156-168 | after such a plain request the sum is twice the configured number |
| RecoveryWitness.SecondSetReached | backend/app/services/two_factor.py:156-168 | a run from an empty system that ends with that sum |
| RecoveryCodes.OldCodesNeverAccepted | backend/app/services/two_factor.py:160-161 | after a regenerate that committed, no earlier code row is ever spent |
| Accounts.RequestTables | backend/app/db/session.py:45-59 | an account request changes the tables if and only if it succeeds, and then in full |
| AccountService.AccountManager.Issue | backend/app/services/email_account.py:50-64 | supersedes the earlier token of the purpose |
| AccountService.AccountManager.Consume | backend/app/services/email_account.py:66-77 | unknown, misdirected, used and expired tokens are refused, any other is marked used |
| AccountService.AccountManager.PresentToken | backend/app/services/email_account.py:99-171 | the three effects, the change re-checking that the address is free |
| AccountService.AccountManager.Register | backend/app/services/auth.py:28-42 | refuses a taken address, inserts lower-cased, issues a verification token |
| AccountService.AccountManager.RequestEmailChange | backend/app/services/email_account.py:139-157 | password, difference, availability, token |
| AccountService.AccountManager.PopState | backend/app/services/oauth/service.py:73-81 | the state is deleted before its provider is compared |
| AccountService.AccountManager.ResolveUser | backend/app/services/oauth/service.py:123-153 | the linking user, the verified match, or a new user |
| AccountService.AccountManager.HandleCallback | backend/app/services/oauth/service.py:84-121 | state, provider, linked account, resolution, link |
| AccountService.AccountManager.Serve | backend/app/db/session.py:45-59 | an account request in its unit of work is one step of the specification |
| AccountRuns.InvStep | backend/app/services/email_account.py:50-171 | every request, cut anywhere, keeps addresses unique, tokens single and proofs in order |
| AccountTheorems.VerifiedWasShown | backend/app/services/email_account.py:80-107 | in every run, for every verified user some step presented with success a token of that user which an earlier step had mailed to the user's present address, or was a callback signing the user in whose provider had verified that address |
| AccountTheorems.AddressesUnique | backend/app/repositories/user.py:20-24 | in every run no two users share an address up to letter case |
| AccountTheorems.OneTokenPerPurpose | backend/app/services/email_account.py:50-64 | in every run a user has at most one token for a purpose |
| AccountTheorems.UsedWithEffect | backend/app/services/email_account.py:66-77 | a token is marked used if and only if its effect - verified, the new password, or the address it was mailed to - was committed with it, and nothing else on users |
| AccountAnswers.PresentOutcome | backend/app/services/email_account.py:99-171 | the tables after a presented token: its user, the token itself, and nothing else |
| AccountAnswers.RegisterExactly | backend/app/services/auth.py:28-42 | registering succeeds if and only if the password is strong and the address free; the user is active and unverified and is mailed a verification token |
| AccountAnswers.ResendExactly | backend/app/services/email_account.py:89-97 | another verification mail goes out if and only if the user is not verified |
| AccountAnswers.ForgotExactly | backend/app/services/email_account.py:110-122 | a reset request always succeeds, and mails a token if and only if an active user has the address |
| AccountAnswers.RequestChangeExactly | backend/app/services/email_account.py:139-157 | a change token is mailed, to the new address, if and only if the password is right and that address differs and is free |
| AccountAnswers.MailedLifetime | backend/app/services/email_account.py:50-77 | in every run a mailed token succeeds only for its own purpose and within that purpose's lifetime from the mail |
| AccountAnswers.StartExactly | backend/app/services/oauth/service.py:53-71 | what starting an authorization stores and for how long |
| AccountAnswers.CallbackExactly | backend/app/services/oauth/service.py:84-153 | a callback signs a user in if and only if its state waits for that provider and that is the linked, the asking, the matching verified or the new user |
| AccountAnswers.CallbackOutcome | backend/app/services/oauth/service.py:107-153 | the tables after it: the link, and a new user verified exactly as the provider says |
| AccountTheorems.TokenOnce | backend/app/services/email_account.py:66-77 | once its effect was committed, a token never has another |
| AccountTheorems.ConflictKeepsToken | backend/app/services/email_account.py:159-171 | a conflicting confirmation changes nothing and leaves the token unused |
| AccountTheorems.PresentSucceeds | backend/app/services/email_account.py:66-171 | exactly when presenting a token succeeds |
| AccountTheorems.LinkStep | backend/app/services/oauth/service.py:84-121 | links are never changed or removed, only added by a successful callback, which signs in the linked user |
| AccountTheorems.SameUserForever | backend/app/services/oauth/service.py:95-103 | every later successful callback for a provider account signs in the same user |
| AccountTheorems.LinkedByAddress | backend/app/services/oauth/service.py:130-140 | an existing user is found by address if and only if both sides are verified |
| AccountTheorems.StateOnce | backend/app/services/oauth/service.py:73-81 | in every run a state value completes at most one callback, and none after one that failed past its deletion |

## Left out

- SessionActivity.TouchRate: requires that no request is cut between deleting a throttle key and flagging its session, because the bound is false otherwise (`SessionWitness.RateBoundFails`); `SessionActivity.RateExact` is the exact condition.
- SessionActivity.KeepAlive: requires that the session's own activity was not aborted within one throttle interval before, because it is false otherwise (`SessionWitness.KeepAliveFails`); `SessionActivity.KeepAliveExact` is the exact condition.
- SessionFastPath.FastPathRefinesDatabase: stated for fault-free runs, because a lost commit separates the two verdicts (`SessionFastPath.LostLogoutSplitsVerdicts`).
- RateLimitRuns.LockoutExact: stated for runs in which every failure and success of the scope was recorded; a lost command leaves a counter that the history does not determine.
- RecoveryCodes.Conservation: the sum counts every set issued since the last deletion, because the plain request after all codes are spent keeps the spent rows.
- SessionService.SessionManager.CreateSession: of a device only the three fields that identify it are kept; names, versions, address and location are display data.
- SessionService.SessionManager.RevokeBySid: a session id that is no uuid cannot occur, because ids come from tokens the server signed; the branch that returns None for one is left out.
- SessionService.SessionManager.ListActiveForUser: without limit and offset, as logout-all calls it.
- RateLimitRuns.Authenticator.Authenticate: the rewrite of an outdated password hash after a success is left out; it changes no verdict.
- AccountService.AccountManager.Register: the default role and the session written between inserting the user and issuing the token are left out.
- AccountService.AccountManager.ResolveUser: the default role and the full name of a new user are left out.
- RecoveryWitness.SecondSetReached: the run is given for sets of one code; `RecoveryCodes.SecondSet` holds for sets of any size.
- A login in the session protocol starts once the credentials were accepted; who may log in is the subject of the limiter, two-factor and account modules, whose requests are not interleaved with it in one run.
- Interleaving of requests: each request runs alone. The code takes no locks around its check-then-set steps, so at-most-once results are about serialised requests.
- A commit that fails after the response was sent, and an early commit that fails halfway.
- A Redis fault inside a best-effort limiter call while the database stays up for the rest of the same request: the model treats the connections as broken from the first fault on. The limiter's own theorems do cover it, since a check ends with that call.
- The clock is read once in a request; the source reads it in several places.
- Object-relational rows are values in a table map; reading back an updated object is reading the transaction's table. Rows are not aliased.
- Two-factor and account requests leave out the session commands, the rate-limit hits and the pre-auth token around them; those are modelled by themselves.
- Malformed subjects and session ids inside signed tokens: the server signs only well-formed ones.
- Letter case is folded on ASCII only, and blanks around a typed code are space, tab and line ends; the one-time-password library also folds compatibility digits before comparing, here codes are compared exactly.
- Password strength, password hashing and rehash on login, encryption of TOTP secrets, PKCE and the provider's HTTP calls: inputs or identities.
- User-agent and location fields of a session beyond the three that identify a device; paging; last-login lookup; auditing; cookies and CSRF; QR codes; e-mail text.
- Roles, seeding, migrations and settings validation: finite or without protocol state.
- `TWO_FA_MAX_FAILURES` is never used by the service; the model uses `MAX_FAILED_LOGINS` for both lockouts, as the code does. The OAuth callback has no two-factor gate and resetting a password closes no session; both are modelled as they are and nothing stronger is claimed.

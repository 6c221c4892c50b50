# SpeakArena: verified models of its stateful parts

SpeakArena is a teaching platform: a FastAPI backend over PostgreSQL, Redis and Cloudflare R2, and
a Next.js frontend. Most of it stores and shows records. This project models the parts whose
correctness is a statement about whole histories, and proves what those parts promise.

`dafny verify dfyconfig.toml` checks everything.

## How it is organised

Code that changes state step by step is a class whose methods make the same assignments in the same
order, with the same early returns. Each method is proved equal to a function from the old state to
the new one (`Now()` is the state as a value), and what the code promises is proved about runs of
those functions. Awaits, clocks and outcomes of calls to other systems are parameters, quantified
over freely.

- `Basics`, `Wrappers`: what several modules share.
- `Redis`: a store whose keys may carry a deadline, with the commands the backend issues. A key is
  gone at its deadline; EXPIRE with a non-positive TTL deletes the key.
- `RateLimit`: the two fixed-window counters (Lua script, INCR with EXPIRE NX) over every timed
  trace of requests.
- `R2`, `MultipartUpload`, `UploadRuns`, `UploadOutcomes`, `UploadShown`: the resumable upload hook, with pauses,
  cancels, failed presign calls and failed PUTs at every await, and the DELETE of a cancel landing
  on the server at any time; the server's sort; reassembly of the file.
- `AuthTokens`, `AuthEntry`, `AuthRuns`, `AuthRevocation`, `AuthEscapes`, `AuthAccess`: refresh-token rows and
  rotation links, sessions and their revocation, bulk revocation, the access-token blacklist, and
  `get_current_user`. Requests overlap: the checks and the writes of a refresh are separate steps, and
  so are the clock reading, the key, the UPDATE and the commit of a bulk revocation.
- `OAuthState`: the one-use OAuth state, with any number of callers interleaving between single
  Redis commands.
- `EnrollmentSweep`, `EnrollmentRuns`, `BatchUtils`: the enrollment counter against its table over
  interleaved commits of any number of startups and of everything else that writes either;
  migrations 0008 and 0009; the frontend's version of the same deadline.
- `Assignments`, `AssignmentRuns`, `AssignmentRights`: assignments, submissions, grades, audit rows and
  notifications; when each request is granted, and who may change what.
- `Pagination`: pages of a filtered list.
- `StudentGrouping`, `ReconnectSocket`, `GoogleUsers`: the grouping loop, the reconnect machine, the
  Google sign-in.

Times are milliseconds in `Redis`-only modules and in the enrollment modules, and microseconds in
the `Auth` modules, where the floor to whole seconds of `iat` and of the blacklist TTL
matters.

## Where the code differs from its own documentation

The models follow the code.

- `backend/app/modules/auth/router.py:471-472`, `backend/app/models/auth.py:34-38` and
  `backend/app/modules/auth/service.py:680-682` say that presenting a revoked refresh token revokes
  everything the user has. The code (`service.py:747-786`) answers with an access token within 120
  seconds of the revocation, for an active account, and with an error otherwise, and revokes nothing:
  `ReuseRevokesNothing`, `ReuseSparesSuccessor` and, for when the documented outcome holds all the
  same, `ReuseResponseIff`.
- Logout-all, password reset and password change read the clock first and set the Redis key later
  (`service.py:635` and 650, 1019 and 1029), while their UPDATE does not see rows inserted since. A
  refresh that passes its checks in between and commits after the UPDATE keeps its login alive
  (`RefreshOutlastsRevocation`, in both orders); `NoRotationAfterRevokeAllIff` says exactly when
  that happens, `EscapeOpensBeforeKey` when it can begin. Two revocations that overlap may leave the
  older time in the key: `RotatesAgainIff` and `RefusedForGoodIff` are exact for any number of them.
- Revoking one session (`service.py:1292-1318`) stamps its refresh token without looking at it. It
  ends the login only if that token was never rotated (`SessionRevocationEndsLoginIff`), and it
  reopens the 120 seconds of a token revoked long before (`ReopensIff`, `AnsweredIff`,
  `AccessWithoutBound`); so "log out everywhere" ends access only under the condition of `AccessEnds`.
- `total_enrollments` is meant to be the number of rows. Unenrolling by a teacher takes it down twice
  (`teacher/service.py:1705`, `teacher/repository.py:2070`), a repeated payment counts a row again, and
  a student's own enrollment resets it to the rows that give access (`UnenrollUnderCounts`,
  `SelfEnrollUnderCounts`). The two statements of the startup sweep commit apart
  (`lifespan.py:255-262`), and the image starts two workers (`backend/Dockerfile:101-105`): sweeps that
  interleave count a row off twice (`TwoWorkersUnderCount`, `PageBetweenUnderCounts`).
  `SweepsUnderCountIff` says exactly which interleavings of sweeps under-count, `RunDrift` what any
  interleaving of all writers does, and `LoneRunDrift` which runs spare the counter when nothing
  commits inside anything else.
- Rotation is meant to leave each login with one usable refresh token. Two refreshes of one token
  whose checks both pass before either commits leave two (`ForkReached`); `OneLiveIff` says exactly
  which runs keep to one, and `LiveTokensPerLogin` bounds the rest.
- `backend/app/core/redis/keys.py:64-65` and `dependencies.py:128` speak of tokens issued before the
  revocation time. The code compares the floored `iat` with it, inclusively: `BulkCheckIff`.
- `backend/app/core/security/rate_limit.py:51-53` allows for EXPIRE overriding a TTL. With `nx=True`
  it never does: `DeadlineFixed`.
- The two key families of `verify_state` meet in strings that begin with `used:`. Such a string can
  succeed without having been generated (`MarkSucceeds`), once, and only just after what follows it
  has (`SuccessNeedsFreshState`, `SuccessesBounded`).
- A cancel during the initiate call does not stop the upload: `EarlyCancelIsLost`, `StartSendsIff`.

## Model

| member | source | states |
|---|---|---|
| RateLimit.CounterStore.IncrKey | backend/app/core/redis/operations.py:122-128 | INCR: a live key counts on and keeps its TTL, an absent or expired one starts at 1; returns the new value |
| RateLimit.CounterStore.IncrementWithExpiry | backend/app/core/redis/operations.py:131-158 | the script as one step: the TTL is set only by the hit that creates the key, and its deadline is then 1000 * `windowSeconds` ms off; returns the count |
| RateLimit.RateLimiter.Call | backend/app/core/security/rate_limit.py:48-63 | one request: the store after INCR and EXPIRE NX, with a deadline 1000 * `seconds` ms off on the key it creates, admitted exactly when the count is at most `times` |
| RateLimit.HitKeepsAccount | backend/app/core/security/rate_limit.py:48-63 | one hit, for any key, keeps the account that ties counter and deadline to the number admitted since any chosen instant |
| RateLimit.AccountedAlways | backend/app/core/security/rate_limit.py:48-63 | that account holds after every trace in time order |
| RateLimit.SlidingBound | backend/app/core/security/rate_limit.py:48-63 | any closed interval as long as the window holds at most 2 * `times` admitted requests, over every trace, for both forms |
| RateLimit.LimiterBound | backend/app/core/security/rate_limit.py:48-63 | so of a limiter's calls for one key at most 2 * `times` are admitted in any 1000 * `seconds` ms |
| RateLimit.SlidingBoundIsReached | backend/app/core/security/rate_limit.py:48-63 | a trace that reaches 2 * `times`, for every window and limit |
| RateLimit.WindowBound | backend/app/core/security/rate_limit.py:59-63 | since the open counter window began, at most `times` were admitted |
| RateLimit.EmptyWindowAdmitsAll | backend/app/core/security/rate_limit.py:54 | with a window that is not positive every request at one instant is admitted, which is why the bounds need a positive one |
| RateLimit.DeadlineFixed | backend/app/core/redis/operations.py:134-137 | the first hit fixes the deadline; no later hit, admitted or rejected, extends it, and every one is counted |
| RateLimit.NextWindowAdmits | backend/app/core/redis/operations.py:134-137 | the first request at or after the deadline opens a fresh window and is admitted when `times` >= 1 |
| RateLimit.FormsAgreeFrom | backend/app/core/redis/operations.py:122-158 | from a store without TTL-less keys both forms return the same counts and reach the same store on every trace |
| RateLimit.ScriptNeverRecovers | backend/app/core/redis/operations.py:122-128 | a key without a TTL never gets one from the script |
| RateLimit.StrandedRejectedForever | backend/app/core/redis/operations.py:122-128 | once such a counter has reached `times` the script's count exceeds it at every later request |
| RateLimit.StrandedRecovers | backend/app/core/security/rate_limit.py:54 | EXPIRE NX gives such a key a deadline at its next hit, and a window later it is admitted again |
| RateLimit.FormsAgreeIff | backend/app/core/redis/operations.py:122-158 | the two forms agree on every trace exactly when no key is without a TTL |
| R2.SortSorts | backend/app/core/storage/r2.py:575-576 | the sort gives an ascending permutation of its input |
| R2.SortRestores | backend/app/core/storage/r2.py:575-576 | whatever the order given, sorting yields the one strictly ascending list of those parts |
| R2.AcceptsIff | backend/app/core/storage/r2.py:565-585 | a completion call is accepted exactly when it lists a part, no number twice, only numbers 1 to 10000 with the ETag of what is stored under them, and all but the highest at least 5 MiB, in whatever order |
| MultipartUpload.Upload.ResetState | frontend/src/hooks/useMultipartUpload.ts:33-43 | every ref and visible field back to its start |
| MultipartUpload.Upload.PauseUpload | frontend/src/hooks/useMultipartUpload.ts:161-166 | takes effect only while uploading; then the pause is set and shown |
| MultipartUpload.Upload.CancelUpload | frontend/src/hooks/useMultipartUpload.ts:210-226 | up to its await: pauses and sends the DELETE, or resets at once when there is no upload to delete |
| MultipartUpload.Upload.SettleCancel | frontend/src/hooks/useMultipartUpload.ts:215-225 | the reset that follows the answer to the DELETE; what the DELETE does on the server is LandDelete, at any time after it was sent |
| MultipartUpload.Upload.LandDelete | backend/app/modules/resource/service.py:408-428 | the DELETE handled: the video soft-deleted once, the upload and its parts gone if the store managed the abort |
| MultipartUpload.Upload.LandComplete | backend/app/modules/resource/service.py:340-373 | the completion call handled: refused when the video is gone, else what the store makes of the parts, which closes the upload |
| MultipartUpload.Upload.PutBatch | frontend/src/hooks/useMultipartUpload.ts:67-86 | each PUT stores its own byte range or not, on its own |
| MultipartUpload.Upload.RecordResults | frontend/src/hooks/useMultipartUpload.ts:88-97 | a batch's results pushed in order, progress recomputed after each |
| MultipartUpload.Upload.SendBatch | frontend/src/hooks/useMultipartUpload.ts:54-97 | one batch: presign, put, record; a rejected PUT throws and records nothing of the batch; a deleted video presigns nothing and a closed upload rejects every PUT |
| MultipartUpload.Upload.UploadParts | frontend/src/hooks/useMultipartUpload.ts:45-99 | the loop over batches of three, left at a pause or a throw |
| MultipartUpload.Upload.FinishRun | frontend/src/hooks/useMultipartUpload.ts:130-158 | the completion call unless paused or dropped, landing or not, answered or not, with success shown only for an accepted and answered call; and the catch block |
| MultipartUpload.Upload.Start | frontend/src/hooks/useMultipartUpload.ts:101-159 | reset, initiate, and the run over all parts |
| MultipartUpload.Upload.Resume | frontend/src/hooks/useMultipartUpload.ts:168-208 | the run over the missing numbers, with its guards |
| UploadRuns.RangesJoin | frontend/src/hooks/useMultipartUpload.ts:70-72 | the byte ranges of parts i + 1 onward, joined, are the rest of the file |
| UploadRuns.Reassembly | backend/app/core/storage/r2.py:575-584 | given all parts in any order, the store accepts them exactly when there are 1 to 10000 and gives back the file |
| UploadRuns.RunKeeps | frontend/src/hooks/useMultipartUpload.ts:45-99 | a run keeps the invariant, sends nothing, loses no part, and ends undisturbed only with every part recorded |
| UploadRuns.MissingIsSuffix | frontend/src/hooks/useMultipartUpload.ts:176-182 | what resume computes as missing is everything after the recorded prefix, in order |
| UploadRuns.FinishKeeps | frontend/src/hooks/useMultipartUpload.ts:130-158 | a completion call is sent exactly when the run ended with the upload neither paused nor dropped, and lists what is recorded |
| UploadRuns.StartKeeps | frontend/src/hooks/useMultipartUpload.ts:101-159 | a start keeps the invariant from any state |
| UploadRuns.ResumeKeeps | frontend/src/hooks/useMultipartUpload.ts:168-208 | a resume keeps the invariant, the recorded parts and the progress |
| UploadRuns.InvAlways | frontend/src/hooks/useMultipartUpload.ts:45-226 | after every history the recorded parts are the first ones of the file, in order, each with its own ETag, and stored for as long as the upload is open |
| UploadRuns.EveryCallIsComplete | frontend/src/hooks/useMultipartUpload.ts:137-143 | over every history, each completion call sent lists 1..ceil(size / CHUNK) once, each with the ETag of its range |
| UploadRuns.AssembleIs | backend/app/core/storage/r2.py:575-584 | what such a call comes to on the server, for every state that holds the invariant |
| UploadRuns.EveryCompleteReassembles | backend/app/modules/resource/service.py:360-373 | over every history, each call that lands gives the file exactly when no DELETE of its upload landed before, no earlier call for it was accepted, and there are 1 to 10000 parts |
| UploadRuns.ProgressNeverDrops | frontend/src/hooks/useMultipartUpload.ts:93-95 | over every history progress and recorded parts survive every event but a reset or a new start, and 100 means every part is recorded |
| UploadOutcomes.QuietRun | frontend/src/hooks/useMultipartUpload.ts:53-98 | an undisturbed run records exactly the parts it was given |
| UploadOutcomes.QuietResumeIff | frontend/src/hooks/useMultipartUpload.ts:168-198 | from every history that left an upload paused, one undisturbed resume ends in success with the file assembled exactly when the upload was neither deleted nor completed before and has 1 to 10000 parts, and in an error otherwise |
| UploadOutcomes.FirstBatchCounts | frontend/src/hooks/useMultipartUpload.ts:53-98 | one successful batch of an upload not yet deleted brings a resumed upload three parts nearer its end, or to its end, whatever follows, unless cancelled |
| UploadOutcomes.CancelKillsRun | frontend/src/hooks/useMultipartUpload.ts:210-213 | a cancel heard at any await of a run leaves it paused or dropped at its end |
| UploadOutcomes.CancelStopsStart | frontend/src/hooks/useMultipartUpload.ts:131 | a cancel heard by a start at any await after the initiate call keeps it from sending its completion call, whatever else happens |
| UploadOutcomes.CancelStopsResume | frontend/src/hooks/useMultipartUpload.ts:186 | so does one heard by a resume |
| UploadOutcomes.PauseKillsRun | frontend/src/hooks/useMultipartUpload.ts:161-166 | a pause heard at any await of a run that is uploading leaves it paused or dropped at its end |
| UploadOutcomes.PauseStopsStart | frontend/src/hooks/useMultipartUpload.ts:131 | a pause heard by a start at any await after an initiate call that left it uploading keeps it from sending its completion call, whatever else happens |
| UploadOutcomes.PauseStopsResume | frontend/src/hooks/useMultipartUpload.ts:186 | so does one heard by a resume, at any await |
| UploadOutcomes.PausedBatchPutsNothing | frontend/src/hooks/useMultipartUpload.ts:68 | with a pause heard while a batch is presigned, and no cancel, nothing of the batch is put or recorded |
| UploadOutcomes.PauseHoldsStart | frontend/src/hooks/useMultipartUpload.ts:101-166 | a pause heard by a start during the initiate call or after it, and no cancel: it ends paused, with its new upload id and its file, and no call sent, whatever fails |
| UploadOutcomes.PauseHoldsResume | frontend/src/hooks/useMultipartUpload.ts:161-186 | a pause heard by a resume, and no cancel: it ends paused, with its id, its file and every part recorded before, and no call sent, whatever fails |
| UploadOutcomes.StartSendsIff | frontend/src/hooks/useMultipartUpload.ts:101-143 | where only cancels and pauses can prevent it, a start sends its call exactly when it is not left paused by the initiate call, hears no cancel after it, and no pause while it is shown as uploading |
| UploadOutcomes.ResumeSendsIff | frontend/src/hooks/useMultipartUpload.ts:168-195 | likewise a resume, exactly when it hears no cancel and no pause |
| UploadOutcomes.EarlyCancelIsLost | frontend/src/hooks/useMultipartUpload.ts:110-143 | any clicks with a cancel among them while initiate is awaited, and nothing after: the whole file is sent, assembled and shown as a success |
| UploadOutcomes.OverlapAcceptedIff | frontend/src/hooks/useMultipartUpload.ts:90-92 | two live runs of one upload, their batches in any order: the call that one sends when it is done is accepted exactly when the other has recorded nothing by then and the upload would complete at all, which is why one run at a time is assumed |
| UploadOutcomes.PartsWithinLimit | backend/app/core/utils/constants.py:111-112 | a non-empty file within 4 GiB has 1 to 820 parts |
| UploadShown.PartsCover | frontend/src/hooks/useMultipartUpload.ts:70-72 | a file has as few parts of 5 MiB as cover it; part n is its own 5 MiB, or what is left |
| UploadShown.ProgressShown | frontend/src/hooks/useMultipartUpload.ts:93-95 | after every history the progress is the share of the parts recorded, to the nearest percent but at most 99, or 100 with every part recorded |
| UploadShown.CancelEnds | frontend/src/hooks/useMultipartUpload.ts:210-226 | a cancel leaves nothing, at once when there is no upload id and otherwise when its DELETE is answered; and the DELETE was sent |
| UploadShown.AbortEmpties | backend/app/modules/resource/service.py:408-428 | once the store has aborted a cancelled upload it never holds a part of it again, over every continuation |
| UploadShown.InitiateFails | frontend/src/hooks/useMultipartUpload.ts:144-157 | a failed initiate call is shown as an error, unless a pause was clicked meanwhile and no cancel; nothing is sent |
| UploadShown.BatchThrowsIff | frontend/src/hooks/useMultipartUpload.ts:56-86 | a batch fails exactly when it is not presigned, or a PUT of it is rejected or brings no ETag and it was not paused before; then nothing of it is recorded |
| UploadShown.BatchAbortedIff | frontend/src/hooks/useMultipartUpload.ts:145 | its failure counts as a cancellation exactly when the first PUT that fails was aborted |
| UploadShown.FirstFailureShown | frontend/src/hooks/useMultipartUpload.ts:199-206 | a resume whose first batch has a failing PUT is shown as an error, or as uploading still when that PUT was aborted; nothing is lost and no call sent |
| UploadShown.AtMostThreeMore | frontend/src/hooks/useMultipartUpload.ts:49-53 | after a pause heard by the first batch of a resume at most three parts more are recorded |
| UploadShown.StartOutcome | frontend/src/hooks/useMultipartUpload.ts:133-157 | a start that sends its call, with no cancel: success exactly when the server assembled its upload and the answer came back, otherwise paused if a pause was clicked during the call, and an error if not |
| AuthTokens.RefreshTokenRepository.RevokeAllForUser | backend/app/modules/auth/repository.py:590-612 | stamps exactly the user's unrevoked rows, counts them, and leaves none |
| AuthTokens.RefreshTokenRepository.GetActiveForUser | backend/app/modules/auth/repository.py:614-633 | exactly the user's unrevoked, unexpired rows |
| AuthTokens.UserSessionRepository.DeactivateAllForUser | backend/app/modules/auth/repository.py:740-761 | closes exactly the user's active sessions, counts them, and leaves none |
| AuthTokens.AuthService.LogIn | backend/app/modules/auth/service.py:462-513 | an active account, its email verified if a student's, gets a token row, a session and an access token; any other nothing; a Google sign-in (router.py:1242-1281) always gets them |
| AuthTokens.AuthService.GetCurrentUser | backend/app/modules/auth/dependencies.py:117-151 | the checks in their order, passed exactly by the accepted tokens, and which refusal each failure gets |
| AuthTokens.AuthService.RefreshBegin | backend/app/modules/auth/service.py:740-805 | the checks of a refresh, in their order, and the grace-period answer |
| AuthTokens.AuthService.ReplaceToken | backend/app/modules/auth/service.py:807-828 | the successor row, with the old expiry, and the old row's stamp and link |
| AuthTokens.AuthService.RefreshCommit | backend/app/modules/auth/service.py:807-856 | all writes of a refresh, and the access token issued |
| AuthTokens.AuthService.LogOut | backend/app/modules/auth/service.py:561-605 | the blacklist entry, the one row and the one session, each under its guard |
| AuthTokens.AuthService.LogOutAll | backend/app/modules/auth/service.py:612-667 | logout-all with nothing in between: its token blacklisted, the key, every unrevoked row and every session of the user; returns the number of sessions closed |
| AuthTokens.AuthService.RevokeAfterPassword | backend/app/modules/auth/service.py:1026-1034 | the same after a password reset, and after a change (1089-1108), in the order of the two |
| AuthTokens.AuthService.RevokeOneSession | backend/app/modules/auth/service.py:1292-1318 | with an accepted access token of the session's owner: the session closed and its refresh token stamped, revoked before or not; otherwise nothing |
| AuthEntry.LoginIs | backend/app/modules/auth/service.py:462-513 | in every state a run leads to: with a password an active account, verified where asked for, gets in, by Google any; with a token for 30 days if remembered or by Google and for one day otherwise, a session, and an access token for 900 seconds; nothing else changes |
| AuthEntry.PresentingIs | backend/app/modules/auth/service.py:743-805 | in every state: a presented token is put in flight exactly when it is unrevoked and unexpired, its account active, and no revocation key at or after its issue stands; it gets an access token exactly when revoked less than 120 seconds before or after, its account active; otherwise nothing happens |
| AuthEntry.RefusalIs | backend/app/modules/auth/service.py:788-795 | the refusal for a suspended account is given exactly for an unrevoked, unexpired token of an inactive account |
| AuthEntry.SuspendedGetsNothing | backend/app/modules/auth/service.py:793-795 | from a suspension until the account is reactivated, over every run: no token of the user starts a refresh or is answered, no password logs in, no access token is accepted |
| AuthEntry.LogoutIs | backend/app/modules/auth/service.py:561-605 | what a logout changes, row by row, and until when its access token is blacklisted; and nothing else |
| AuthEntry.SessionRevocationIs | backend/app/modules/auth/service.py:1292-1318 | what the revocation of a session changes, row by row, and for whom |
| AuthEntry.RotationIs | backend/app/modules/auth/service.py:807-856 | what the commit of a refresh changes, row by row: user, expiry and issue time of the successor, the stamp and link of the old row, an access token for 900 seconds |
| AuthEntry.RevocationIs | backend/app/modules/auth/service.py:635-661 | what each step of a bulk revocation waits for; the key carries the clock reading for 30 days |
| AuthEntry.RevocationCommits | backend/app/modules/auth/repository.py:602-611 | row by row, what its commit stamps and closes, and that no other row changes |
| AuthRuns.StepKeeps | backend/app/modules/auth/repository.py:550-612 | every action keeps the invariant on rows, links, origins, refreshes in flight and tokens issued |
| AuthRuns.RunKeeps | backend/app/modules/auth/repository.py:550-612 | so does every run, with a clock that does not go back |
| AuthRuns.ChainsAreAcyclic | backend/app/models/auth.py:76-82 | following `replaced_by` never returns to a token seen, and keeps user and expiry |
| AuthRuns.CommitCounts | backend/app/modules/auth/service.py:814-828 | a commit changes the number of unrevoked tokens of a login by exactly one when it found its token revoked, and not at all otherwise |
| AuthRuns.LiveTokensPerLogin | backend/app/modules/auth/service.py:807-828 | over every run a login has at most one unrevoked token and one more for each such commit |
| AuthRuns.SerialRefreshKeepsOne | backend/app/modules/auth/service.py:740-828 | a refresh that nothing overlaps leaves the number as it was |
| AuthRuns.OneLiveIff | backend/app/modules/auth/service.py:748-828 | every login has at most one unrevoked token throughout a run exactly when no commit in it finds its token revoked while its chain still has an unrevoked one |
| AuthRuns.OverlapForks | backend/app/modules/auth/service.py:743-828 | the commit of one of two overlapping refreshes leaves the other able to commit on the revoked token |
| AuthRuns.ForkReached | backend/app/modules/auth/service.py:743-828 | a concrete run that leaves a login with two unrevoked tokens |
| AuthRuns.InactiveForever | backend/app/models/auth.py:87-97 | a refresh token that is inactive at some time, after any run, is inactive at every later time after every continuation |
| AuthRuns.ReuseRevokesNothing | backend/app/modules/auth/service.py:747-786 | presenting a revoked token changes no row and no session; it is answered exactly within the grace period of an active account |
| AuthEscapes.ReuseResponseIff | backend/app/modules/auth/router.py:470-473 | after everything was revoked, and until the user logs in or out or revokes again, the documented response is met exactly when no refresh of theirs has committed since the revocation's UPDATE |
| AuthRuns.ReuseSparesSuccessor | backend/app/modules/auth/service.py:747-786 | a concrete rotated token whose successor stays unrevoked when it is presented again, at any time |
| AuthRuns.RunRooted | backend/app/modules/auth/service.py:491-506 | over every run a session names the first token of its login, of the same user, and that token is revoked once there is another |
| AuthRuns.SessionRevocationEndsLoginIff | backend/app/modules/auth/service.py:1312-1318 | after any run, revoking a session leaves its login without an unrevoked token exactly when its first token had not been rotated or revoked, or nothing of the login was unrevoked |
| AuthRuns.SessionRevocationSparesSuccessor | backend/app/modules/auth/service.py:1312-1318 | a concrete session revoked after one rotation, whose successor token stays unrevoked |
| AuthRevocation.Uninterrupted | backend/app/modules/auth/service.py:635-661 | the steps of a revocation with nothing in between come to what the service methods do, in either order of key and tables |
| AuthRevocation.CommitIsExact | backend/app/modules/auth/repository.py:602-611 | a revocation's commit stamps with its clock reading exactly the user's rows that its UPDATE saw and that are still unrevoked, closes exactly the sessions it saw, and touches no other row, no refresh in flight and no key |
| AuthRevocation.ReachedSteady | backend/app/modules/auth/service.py:612-667 | every state a run leads to holds the invariant on rows, sessions, numbers and revocation keys that the next rows assume |
| AuthRevocation.RotatesAgainIff | backend/app/modules/auth/service.py:797-805 | in any such state, however many revocations are under way, some refresh token of the user can pass the checks again before their next login exactly when an unexpired one is unrevoked, or being refreshed, that is newer than the user's revocation key or than a value that a revocation under way has yet to give it |
| AuthEscapes.NoRotationAfterRevokeAllIff | backend/app/modules/auth/service.py:635-661 | over every course of a revocation, refreshes going on between its steps: from its commit until the next login no refresh token of the user ever passes the checks, unless, and exactly when, a refresh of theirs of a token not expired by then passed its checks after the clock reading and had not committed by the UPDATE |
| AuthEscapes.LateInFlightIff | backend/app/modules/auth/service.py:743-812 | over every run, a refresh begun after a given time is in flight at its end exactly when one passed its checks during the run and has not committed |
| AuthEscapes.EscapeOpensBeforeKey | backend/app/modules/auth/service.py:650-655 | if no refresh of the user passes its checks between the clock reading and the setting of the key, none passes afterwards |
| AuthEscapes.RefreshOutlastsRevocation | backend/app/modules/auth/service.py:1019-1034 | from every state, in both orders: a refresh begun just after the clock reading and committed after the revocation leaves a successor that passes the checks |
| AuthAccess.RefusedForGoodIff | backend/app/modules/auth/dependencies.py:127-136 | in any state a run leads to, an unexpired access token, not blacklisted, is refused at every later time of every continuation exactly when the user's key is set, is not older than the token's second, and no revocation under way that read its clock before that second has yet to set it |
| AuthAccess.RevokedForGood | backend/app/modules/auth/dependencies.py:127-136 | once a revocation has set its key, an access token minted at or before its clock reading, living at most 30 days, is rejected at every later time, whatever happens meanwhile, unless a revocation that read its clock before the token was minted is still to set the key back |
| AuthAccess.BulkCheckIff | backend/app/modules/auth/dependencies.py:127-136 | while a revocation's key stands the check passes exactly the tokens minted from the whole second after its clock reading on, so any minted a second later |
| AuthAccess.BlacklistReaches | backend/app/core/security/jwt.py:195-209 | the floored TTL never ends before the token does |
| AuthAccess.LoggedOutForGood | backend/app/modules/auth/dependencies.py:120-125 | a token logged out once is rejected from then on, whatever happens meanwhile |
| AuthAccess.AcceptedIff | backend/app/modules/auth/dependencies.py:117-158 | over every run, for any token: accepted exactly when unexpired, of an active account, never logged out with, and issued in a second after the clock reading of the last revocation to have set the user's key, if any has |
| AuthAccess.ClosedIff | backend/app/modules/auth/service.py:657-661 | over every course of a revocation: at its commit the user has no unrevoked token and no refresh in flight exactly when none was in flight at the UPDATE and none passed its checks between that and the commit |
| AuthAccess.AccessEnds | backend/app/modules/auth/service.py:757-778 | then, and with no session revoked by the user after `last` until access has ended, a revocation ends all access within 120 + 900 seconds of `last`, until the next login |
| AuthAccess.AnsweredIff | backend/app/modules/auth/service.py:757-786 | over every run from such a commit without a login: some refresh token of the user is answered at a time exactly when the account is active and one of their tokens was revoked, or they have since revoked a session of theirs, less than 120 seconds before |
| AuthAccess.ReopensIff | backend/app/modules/auth/service.py:1312-1318 | with every token of a user revoked for 120 seconds or more, a session revocation lets one of them be answered again exactly when it takes effect on the user's own session |
| AuthAccess.GraceIsAccepted | backend/app/modules/auth/service.py:757-777 | that answer is an access token accepted until it expires |
| AuthAccess.EndIsReached | backend/app/modules/auth/service.py:1312-1318 | so access after a session revocation lasts 120 + 900 seconds, to within the second that minting rounds away |
| AuthAccess.AccessWithoutBound | backend/app/modules/auth/service.py:1292-1318 | for every length of time, a concrete run in which a user with everything revoked, no login since and nothing in flight is still let in |
| AuthAccess.InFlightOutlastsRevocation | backend/app/modules/auth/service.py:807-849 | a refresh in flight at the revocation still yields an accepted access token whenever it commits, which is why that condition is needed |
| OAuthState.Verification.SendNext | backend/app/modules/auth/google_oauth.py:63-86 | one Redis command of a `verify_state` call, and where the call stands after it |
| OAuthState.StepKeeps | backend/app/modules/auth/google_oauth.py:53-86 | every command of every caller keeps the invariant on keys, marks and outcomes |
| OAuthState.RunKeeps | backend/app/modules/auth/google_oauth.py:53-86 | so does every interleaving |
| OAuthState.AtMostOneSucceeds | backend/app/modules/auth/google_oauth.py:66-76 | any one string, generated or not, lets at most one call succeed, however the commands interleave |
| OAuthState.SuccessNeedsFreshState | backend/app/modules/auth/google_oauth.py:56-83 | a success claimed a generated state within 600 seconds of its generation, or, on `used:` and a string, within 30 seconds of a success on that string |
| OAuthState.SuccessesNest | backend/app/modules/auth/google_oauth.py:72-76 | a success behind k prefixes `used:` has one behind every fewer |
| OAuthState.SuccessesBounded | backend/app/modules/auth/google_oauth.py:72-76 | a state leads to at most k + 1 successes behind at most k prefixes |
| OAuthState.MarkSucceeds | backend/app/modules/auth/google_oauth.py:72-86 | a concrete run in which a string that was never generated succeeds |
| OAuthState.DuplicateMeansUsed | backend/app/modules/auth/google_oauth.py:78-86 | the duplicate answer implies that a call on that state had succeeded, at most 30 seconds before |
| OAuthState.MarkAnswersAsState | backend/app/modules/auth/google_oauth.py:72-76 | a string beginning `used:` is claimed exactly while the mark of what follows it stands |
| OAuthState.AnswersIff | backend/app/modules/auth/google_oauth.py:66-86 | over every interleaving, what the next command of a call makes of it: its key is claimed exactly when the string was generated less than 600 seconds before and not claimed, or is the open mark of one; then it succeeds; otherwise it is answered duplicate exactly when a call on the string succeeded less than 30 seconds before and its mark is unclaimed, and invalid if not |
| OAuthState.FirstCallSucceeds | backend/app/modules/auth/google_oauth.py:53-76 | so the first call on a generated state within its 600 seconds succeeds |
| EnrollmentSweep.EnrollmentTables.Execute | backend/app/lifespan.py:220-236 | either statement, at its NOW() |
| EnrollmentSweep.EnrollmentTables.RunFixes | backend/app/lifespan.py:255-262 | the loop: each statement in its own transaction, a failed one skipped |
| EnrollmentSweep.EnrollmentTables.StartupSweep | backend/app/lifespan.py:219-236 | the two enrollment statements as the loop runs them, whatever others commit between |
| EnrollmentSweep.EnrollmentTables.Migrate0009 | backend/alembic/versions/0009_unenroll_expired_students.py:21-42 | both statements with one NOW() |
| EnrollmentSweep.EnrollmentTables.UnenrollStudent | backend/app/modules/teacher/service.py:1699-1706 | one row deleted and the counter taken down twice, from above zero |
| EnrollmentSweep.EnrollmentTables.EnrollStudent | backend/app/modules/teacher/service.py:1649-1669 | a row and one on the counter, refused while the student has a row |
| EnrollmentSweep.EnrollmentTables.GrantAccess | backend/app/modules/payment/service.py:1080-1124 | nothing while access lasts; else a new or reactivated row, and one on the counter |
| EnrollmentSweep.EnrollmentTables.EnrollSelf | backend/app/modules/student/repository.py:530-588 | refused while enrolled or full; else a new or reactivated row, and the counter set to the current rows and one |
| EnrollmentSweep.EnrollmentTables.AutoUnenroll | backend/app/modules/student/repository.py:84-121 | the expired rows of one student, course or all deleted and taken off the counters, with one clock |
| EnrollmentSweep.SweepDrift | backend/app/lifespan.py:219-236 | on a counter that does not under-count, a sweep that nothing interrupts changes the drift of counter over rows by exactly the rows that expired between the two clocks, or those that only one statement reached, and the clamp does not fire |
| EnrollmentSweep.UnderCountsIff | backend/app/lifespan.py:255-262 | from an exact counter a sweep that nothing interrupts under-counts exactly when it decremented for some row and then failed to delete |
| EnrollmentSweep.UnenrollDrift | backend/app/modules/teacher/service.py:1704-1706 | unenrolling takes one off the drift, unless the counter was down to one |
| EnrollmentSweep.PaidDrift | backend/app/modules/payment/service.py:1099-1124 | a payment adds one to the drift exactly when it reactivates a lapsed row |
| EnrollmentSweep.SelfEnrollDrift | backend/app/modules/student/repository.py:541-585 | a student's enrollment leaves the counter short by exactly the other rows that give no access, whatever it was |
| EnrollmentSweep.AutoUnenrollDrift | backend/app/modules/student/repository.py:84-121 | the page-triggered sweep leaves the drift as it was |
| EnrollmentSweep.TeacherEnrollIs | backend/app/modules/teacher/service.py:1649-1669 | a teacher's enrollment: 30 days of access to the millisecond and one on the counter, refused while there is a row; nothing else changes |
| EnrollmentSweep.PaymentIs | backend/app/modules/payment/service.py:1080-1124 | a payment: the same unless access lasts |
| EnrollmentSweep.SelfEnrollIs | backend/app/modules/student/repository.py:530-588 | a student's enrollment: refused while access lasts or every seat is taken by a row that gives access; else 30 days, and the counter set to such rows |
| EnrollmentSweep.UnenrollIs | backend/app/modules/teacher/service.py:1699-1706 | an unenrollment: the row gone and two off the counter, as far as it goes |
| EnrollmentSweep.StatusIs | backend/app/modules/teacher/repository.py:2039-2056 | a suspension or reactivation changes that flag of the row alone |
| EnrollmentSweep.SweptIff | backend/app/modules/student/repository.py:84-121 | a row is gone after a sweep exactly when it is of the student and course chosen, and 30 days old or past its expiry |
| EnrollmentRuns.TurnDrift | backend/app/models/course.py:112-114 | when nothing commits inside anything else, every writer changes the drift of a course that is not under-counted by exactly its stated change |
| EnrollmentRuns.TurnSparesIff | backend/app/models/course.py:112-114 | and leaves it not under-counted exactly under a condition on the state before |
| EnrollmentRuns.LoneRunDrift | backend/app/models/course.py:112-114 | over every run of them: never under-counted exactly when every one meets that condition, and then the counter exceeds its rows by its initial excess and the changes, no more and no less |
| EnrollmentRuns.LoneSweepsSpare | backend/app/lifespan.py:219-236 | such runs of one worker's sweeps and of pages' sweeps, no deletion failing after its decrement, always meet it |
| EnrollmentRuns.StepChange | backend/app/models/course.py:112-114 | one commit of any writer, whatever was read out of date before it, changes the drift by exactly the change stated for it |
| EnrollmentRuns.RunDrift | backend/app/models/course.py:112-114 | over every interleaving of the commits of every writer, out-of-date reads included, the counter exceeds its rows by its initial excess and those changes, no more and no less |
| EnrollmentRuns.SweepsUnderCountIff | backend/app/lifespan.py:255-262 | however the statements of any number of workers' sweeps and of pages' sweeps interleave, and whichever fail, a course ends under-counted exactly when a row is left and its rows were counted off more often, all told, than rows are gone and the counter had in excess |
| EnrollmentRuns.CountedOnceIsSafe | backend/app/lifespan.py:219-236 | so never when each row counted off is gone and was counted off once |
| EnrollmentRuns.StartupCommits | backend/app/lifespan.py:255-262 | an uninterrupted startup is its two commits in a row |
| EnrollmentRuns.TurnCommits | backend/app/modules/student/repository.py:541-585 | and every other writer that reads what is there is one commit, or none |
| EnrollmentRuns.TwoWorkersUnderCount | backend/Dockerfile:101-105 | two workers start together, both decrement and then both delete: every statement succeeds and two rows are counted as one |
| EnrollmentRuns.PageBetweenUnderCounts | backend/app/modules/student/repository.py:84-121 | a page's sweep between the two statements of one startup does the same |
| EnrollmentRuns.UnenrollUnderCounts | backend/app/modules/teacher/repository.py:2069-2070 | three rows counted as three become two counted as one |
| EnrollmentRuns.SelfEnrollUnderCounts | backend/app/modules/student/repository.py:564-585 | with one suspended row, two rows counted as one |
| EnrollmentRuns.ClampFires | backend/app/lifespan.py:222 | from such a state the clamp of the sweep does fire |
| EnrollmentSweep.OneTransactionConserves | backend/alembic/versions/0009_unenroll_expired_students.py:21-42 | with one clock exact counters stay exact, exactly the unexpired rows remain, and running it again changes nothing |
| EnrollmentSweep.NormalizedExpiry | backend/alembic/versions/0008_normalize_enrollment_monthly_expiry.py:20-25 | every row gets an expiry within 31 days of enrollment, exactly 30 days where it had none or a later one; valid ones keep theirs; no sweep's verdict changes |
| BatchUtils.DaysAddUpIff | frontend/src/lib/batchUtils.ts:41-73 | with the expiry at its cap, days spent and days left add up to the batch length exactly until a day after it |
| BatchUtils.EarlierExpiryOnlyLowers | frontend/src/lib/batchUtils.ts:45-73 | an earlier stored expiry lowers the days left and nothing else |
| BatchUtils.TimeOnlyAdvances | frontend/src/lib/batchUtils.ts:66-84 | as time passes days left never rise, the percentage stays in 0..100 and never falls, expiry is final |
| BatchUtils.PercentIsNearest | frontend/src/lib/batchUtils.ts:81-84 | the percentage is the nearest whole number to the share gone |
| BatchUtils.BadgeTellsDistance | frontend/src/lib/batchUtils.ts:78-110 | which badge is shown, by the distance of the expiry in milliseconds |
| BatchUtils.WithoutDates | frontend/src/lib/batchUtils.ts:58-84 | without a date of enrollment the reported days count, add up with those left to the batch length, and it is expired from then on |
| BatchUtils.SweepDeletesIff | backend/app/lifespan.py:232-236 | for 30 days, the server's sweep deletes exactly what the frontend shows as expired, and at the instant of expiry besides |
| Assignments.Services.CreateAssignment | backend/app/modules/assignment/service.py:176-212 | the new unpublished row and its audit, or the refusal |
| Assignments.Services.ApplyChanges | backend/app/modules/assignment/repository.py:161-174 | field by field, an absent field keeps its value |
| Assignments.Services.UpdateAssignment | backend/app/modules/assignment/service.py:245-281 | the checks, the change without publication, the audit |
| Assignments.Services.PublishAssignment | backend/app/modules/assignment/service.py:286-313 | the checks, publication, the audit |
| Assignments.Services.DeleteAssignment | backend/app/modules/assignment/service.py:322-346 | the checks, the soft deletion, the audit |
| Assignments.Services.SubmitResponse | backend/app/modules/assignment/service.py:373-467 | the refusals in their order, or the row, marked late or not, and its audit |
| Assignments.Services.GradeSubmission | backend/app/modules/assignment/service.py:659-709 | the refusals in their order, or the score, the notification and the audit |
| AssignmentRuns.StepKeeps | backend/app/modules/assignment/service.py:176-718 | every request keeps the invariant |
| AssignmentRuns.RunKeeps | backend/app/modules/assignment/service.py:176-718 | so does every run, with enrollments and stored objects changing freely |
| AssignmentRuns.OneSubmissionEach | backend/app/modules/assignment/service.py:445-449 | over every run at most one submission per assignment and student, each of a published assignment |
| AssignmentRuns.LateExactly | backend/app/modules/assignment/service.py:403-423 | over every run, every submission was inserted by a request of its student's at a point of the run where the assignment was published, not deleted and open to them, and is marked late exactly when the deadline it had in the state at that point had passed, and then lateness was allowed |
| AssignmentRuns.ScoresWithinMaximum | backend/app/modules/assignment/service.py:671-682 | the recorded score is the one of the last grading audited for that submission, absent if there was none, and within the maximum audited with it |
| AssignmentRuns.LogsCorrespond | backend/app/modules/assignment/service.py:684-709 | submissions and their audits correspond one to one in order, and so do gradings, audits and notifications |
| AssignmentRuns.RunSettles | backend/app/modules/assignment/repository.py:161-174 | no run unpublishes an assignment, clears a deadline, undeletes or moves it |
| AssignmentRuns.UpdatesCompose | backend/app/modules/assignment/repository.py:136-174 | a sequence of partial updates equals their merge, the later winning |
| AssignmentRights.OwnersAlone | backend/app/modules/assignment/service.py:659-709 | over every run, whatever changes at any point of it: a grade, by one Grade request of the owner of the course, on an assignment not deleted and within its maximum; an assignment, by one Update, Publish or Delete request of the owner of its course, and only what that request may change; a new one, by its course's owner |
| AssignmentRights.SubmissionTakenIff | backend/app/modules/assignment/service.py:373-423 | a submission is taken exactly when the assignment stands and is published, the student enrolled and without one, the deadline not passed or lateness allowed, and a file stored |
| AssignmentRights.SubmissionRefusal | backend/app/modules/assignment/service.py:373-423 | otherwise with the first reason that applies |
| AssignmentRights.SubmissionAdds | backend/app/modules/assignment/service.py:425-467 | the row and audit it adds; late exactly past the deadline |
| AssignmentRights.GradeTakenIff | backend/app/modules/assignment/service.py:659-679 | a grade is taken exactly from the owner of the course, on a submission whose assignment stands, within its maximum; otherwise which error |
| AssignmentRights.GradeChanges | backend/app/modules/assignment/service.py:681-709 | what it changes of the row, and who is told |
| AssignmentRights.CreationIff | backend/app/modules/assignment/service.py:176-212 | created exactly for the owner of the course, unpublished, with what was asked for |
| AssignmentRights.RevisionIff | backend/app/modules/assignment/service.py:245-346 | updated, published or deleted exactly for the owner of the course while it stands, and which fields each may change |
| Pagination.HasNextAgrees | frontend/src/services/teacher.service.ts:271-273 | the server's `has_next` and the client's product test agree for every page, size and total |
| Pagination.PagesPartition | backend/app/modules/assignment/repository.py:123-134 | following `has_next` from page 1 ends after `total_pages` pages, one when empty; joined they are the filtered rows; all but the last are full; and the block of each has its number, the size, the total and the number of pages, and marks the first and last |
| Pagination.NoSizeNoPages | backend/app/core/utils/response.py:128 | with a size that is not positive no page is counted and none comes next |
| Pagination.CeilSpans | backend/app/core/utils/response.py:128 | the page count is the least that covers the total |
| Pagination.WhereCounts | backend/app/modules/assignment/repository.py:116-130 | filtering keeps each matching row as often as it occurs and no other |
| Pagination.WhereJoins | backend/app/modules/assignment/repository.py:116-130 | and keeps the order |
| StudentGrouping.MergeRow | frontend/src/services/teacher.service.ts:235-244 | what the loop does to an entry already seen |
| StudentGrouping.ListStudents | frontend/src/services/teacher.service.ts:223-266 | one entry per student in order of first appearance, each summarising exactly that student's rows, its copied fields those of the first |
| StudentGrouping.AppearancesDistinct | frontend/src/services/teacher.service.ts:224-228 | no student is listed twice |
| StudentGrouping.ListedInOrder | frontend/src/services/teacher.service.ts:226-266 | students come in the order of their first rows |
| StudentGrouping.RowsOfJoin | frontend/src/services/teacher.service.ts:226-230 | a student's rows are taken in their order |
| StudentGrouping.EntryGrows | frontend/src/services/teacher.service.ts:235-262 | one row makes the entry; one more adds a course and its payment, suspends if it is suspended, and leaves what was copied |
| StudentGrouping.GroupingConserves | frontend/src/services/teacher.service.ts:226-264 | every row is counted for exactly one student, for any weight |
| StudentGrouping.TotalsPreserved | frontend/src/services/teacher.service.ts:236-241 | course counts add up to the rows and revenues to the payments |
| StudentGrouping.TitlesIncludeEach | frontend/src/services/teacher.service.ts:237-239 | every non-empty title of a student occurs in the joined titles |
| StudentGrouping.TitleAddedIff | frontend/src/services/teacher.service.ts:237-239 | a title is added, after a comma, exactly when it is not empty and not found in those so far |
| StudentGrouping.ProgressIsNearest | frontend/src/services/teacher.service.ts:240 | one row more makes the progress the whole number nearest to the mean, upwards at a half |
| StudentGrouping.ProgressWithin | frontend/src/services/teacher.service.ts:240 | progress, however often averaged and rounded, stays within whole-number bounds of the inputs |
| StudentGrouping.SuspendedIff | frontend/src/services/teacher.service.ts:242-244 | suspended exactly when some row of the student is, otherwise with the status of the first |
| ReconnectSocket.ReconnectingWebSocket.AttemptAgain | frontend/src/services/socket.client.ts:175-185 | at most ten attempts; the delay it sets |
| ReconnectSocket.ReconnectingWebSocket.ConnectSocket | frontend/src/services/socket.client.ts:64-70 | up to its await: nothing while open or connecting, else one more call waiting for a token |
| ReconnectSocket.ReconnectingWebSocket.OnToken | frontend/src/services/socket.client.ts:70-87 | the rest of a waiting call: a socket, or another try if its construction failed |
| ReconnectSocket.ReconnectingWebSocket.OnCloseEvent | frontend/src/services/socket.client.ts:116-152 | what each close code does, the start of a token refresh included |
| ReconnectSocket.ReconnectingWebSocket.OnRefreshed | frontend/src/services/socket.client.ts:135-144 | a refresh under way ends: with a token it starts over and connects |
| ReconnectSocket.AttemptsBounded | frontend/src/services/socket.client.ts:175-185 | over every run the counter stays in 0..10 |
| ReconnectSocket.StretchSchedules | frontend/src/services/socket.client.ts:175-185 | between resets, each timer uses up one attempt and the delays never fall |
| ReconnectSocket.BackoffBound | frontend/src/services/socket.client.ts:175-185 | after any history, until the next reset: at most 10 timers, each 2000 to 10000 ms, nondecreasing, 76250 ms in all |
| ReconnectSocket.CloseSchedulesIff | frontend/src/services/socket.client.ts:119-151 | a close sets a timer exactly for the other codes, not on purpose, with attempts left |
| ReconnectSocket.CloseIs | frontend/src/services/socket.client.ts:116-152 | what a close changes, by its code: the pings, the socket, the refresh, the attempt and the timer |
| ReconnectSocket.ConnectIs | frontend/src/services/socket.client.ts:64-87 | what connecting changes, before and after its token |
| ReconnectSocket.ResetIs | frontend/src/services/socket.client.ts:89-114 | what starts over: an open, and a refresh that brings a token; and what a disconnect sets |
| ReconnectSocket.OneRefresh | frontend/src/services/socket.client.ts:127-147 | between resets at most one token refresh is started, and none once an attempt is counted |
| ReconnectSocket.NoTimerAfterDisconnect | frontend/src/services/socket.client.ts:149-166 | over every run, after a disconnect and until something connects again: no close sets a timer, and at most the calls then waiting for a token do |
| ReconnectSocket.LostConnection | frontend/src/services/socket.client.ts:175-185 | for every number of lost connections in a row: the first ten wait 2000, 3000, 4500, 6750 and then 10000 ms, and no later one tries again |
| GoogleUsers.GoogleAccounts.UpsertGoogleUser | backend/app/modules/auth/google_oauth.py:153-213 | the account found by Google id, then email, is linked; otherwise one is created with its profile |
| GoogleUsers.UpsertKeeps | backend/app/modules/auth/google_oauth.py:153-213 | one sign-in keeps emails and Google ids unique, everyone's role and email, and adds exactly the profile of an account it creates, a teacher exactly when its email is the teacher's up to case |
| GoogleUsers.IdentityKept | backend/app/modules/auth/google_oauth.py:153-213 | so does every run of sign-ins |
| GoogleUsers.SecondSignInFindsFirst | backend/app/modules/auth/google_oauth.py:182-190 | repeating a sign-in creates no account and no profile and changes nothing but the time |
| GoogleUsers.SignInIs | backend/app/modules/auth/google_oauth.py:153-213 | whose account a sign-in is: with that Google id, else that email up to case, else a new one; all it changes there, and that it changes no other |
| GoogleUsers.OneTeacherAtMost | backend/app/modules/auth/google_oauth.py:164-168 | over every run an account created is a teacher exactly when its email is the teacher's up to case; so at most one is, and none if that address had an account |

## Left out

- EveryCompleteReassembles: assumes, like every lemma over upload histories, that no run is started while another still awaits; the code does not prevent it, and OverlapAcceptedIff says what it leads to.
- InvAlways: the same assumption; a PUT that lands after its promise was rejected lands with the rejection in the model, and would store the same bytes later.
- LandDelete: the store's abort and the soft deletion are one step, as are the store's completion and the video's update in LandComplete.
- React's delay between setting a status and the callbacks seeing it, and the order in which the PUTs of a batch reject, of which the model takes the first by position; the abort controller is the freedom of each PUT to fail.
- Reassembly: content digests are taken as injective; the 5 MiB minimum and the 10000-part maximum are R2's own rules.
- LiveTokensPerLogin: a refresh token's secret is identified with its row, since hashes are injective and secrets fresh; `issued_at` is the time the transaction began, and the checks of a refresh are one step, at that time.
- RefreshCommit: does not stamp `last_seen_at` of a session, which only orders sessions; the `session_id` put into an access token is not modelled, and a logout names its session freely.
- AcceptedIff: signatures, issuer and audience are taken as genuine; expiry is section 4.1.4 of RFC 7519, and the JWT library's own comparison is not part of this model; a token id is held by one token only.
- CommitIsExact: the UPDATEs of tokens and of sessions see the same rows; they hold no locks, so runs in which a refresh commits where a lock would make it wait are runs of the model too. A revocation that rolls back is one that never commits.
- RevokeOneSession: a login, a logout and the revocation of one session are one step each, and so is the check of an access token.
- AtMostOneSucceeds: generated states contain no colon, being URL-safe.
- SweepsUnderCountIff: a commit is atomic, statements on one counter come one after another, and each NOW() is free; a page's sweep there reads its counters as they are when it commits, while in RunDrift it may have read anything before.
- RunDrift: the ownership and existence checks made before enrolling, and the teacher's and the student's own counters; the seed scripts.
- Migrate0009: a statement that fails inside the migration aborts its PostgreSQL transaction, so only the case where both succeed changes anything.
- DaysAddUpIff: dates that do not parse, and batch lengths that are not positive integers.
- ListStudents: revenue and progress are exact reals, not floating point.
- BackoffBound: delays are exact reals; a timer firing, after `disconnect` too, is an event `Connect` at any time.
- IdentityKept: lower-casing is ASCII only, and the stored emails are lower-case to begin with.
- OneSubmissionEach: sequential requests; concurrent ones rest on the table's unique constraint.
- Login's credential checks, rate limits and lockout; one-use password-reset and email-verification tokens.
- Redis outages, which the wrappers in `operations.py` swallow; deriving the rate-limit key from request headers.
- Request validation beyond the range of a maximum score and non-negative scores; presigning a submission upload; how rows are serialised; the order of rows with equal sort keys.
- Socket messages, listeners and the map of chat sockets.
- Payments, chat, meetings, courses, schema definition and the user interface: records set and shown, or rules that read off one branch.

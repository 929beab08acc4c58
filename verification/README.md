# Network video recorder: a verified model

A model, in Dafny, of the stateful parts of the video recorder, with proofs of what holds over whole runs of them.
Each module follows one component. State that the program updates in place is a class whose methods are proved equal
to step functions on values; the whole-run theorems are about those functions.

| module | component |
|---|---|
| `Sessions` | the refresh-token table: rotation, reuse detection, revocation, and the handlers that drive them |
| `Browser` | the response interceptor's single shared refresh, and any number of browsers and pages against `Sessions` |
| `Alarm` | when, in that world, reuse detection takes an honest page for a thief |
| `Lockout` | the login lockout counters and their expiry |
| `Timeline` | the gap sweep of a day and its covered seconds |
| `Recorder` | the recording task's monitoring loop, up to the rows the timeline reads |
| `Publisher` | the bounded alert buffer in front of a channel that comes and goes |
| `Purge` | the emergency purge |
| `Registry` | the three WebSocket maps under interleaved handlers |
| `Rules` | the detection rules and their cooldown table |
| `Tracker` | last-seen and zone-entry bookkeeping with expiry |
| `Detector` | the order in which one frame goes through the tracker and the rules, and what a dwell alert then means |
| `FrameBuffer` | frame sampling, the ring buffer and the 30-second look-back |
| `Sanitiser` | the recursive audit-detail sanitiser |
| `Drawtext` | the escaping of a camera name in a video filter |
| `RuleSelection` | the two loops that choose an alert rule |
| `Prelude` | options, query answers, daily windows |

Outcomes of the surroundings are inputs and may be anything: credential checks, minted tokens, clock readings, connects
and publishes, classified log lines and file checks, disk usage, commits, dead sockets, track ids, tamper verdicts.
Times are integers (seconds, or clock ticks where the program subtracts fractions). Where a query leaves the order of
ties open, the result is proved for every order.

## Findings

Places where the code does not do what its names, comments or messages say, each with a proof of what it does do.

- Reuse detection takes honest pages for thieves. A page's refresh raises the alarm if and only if the token it presents
  was spent by a refresh whose answer was lost, was used by two pages of the browser at once, was signed out (here or
  elsewhere), or was ended by an earlier alarm (`Alarm.AlarmIff`). A request that arrives after its page gave it up raises
  it if and only if its token has been spent by then, signed out or ended (`Alarm.StrayAlarmIff`). Each cause happens:
  `Alarm.LostAnswerRaisesTheAlarm`, `Alarm.TwoPagesRaiseTheAlarm` and `Alarm.SignOutAndInRaisesTheAlarm`, where the stale
  page of one browser ends the new session of another.
- A page whose refresh is refused never refreshes again until it is reloaded, and a page is stuck in no other way
  (`Browser.StuckIffRefused`, `Browser.RefusalSticksUntilReload`).
- Switching a user off through the user update leaves the sessions alone: switched on again, they refresh as before,
  which they do not after a deactivation (`Sessions.OnlyDeactivationEndsSessions`).
- Containing a replayed token depends on whether the writes before the raised 401 survive: `refresh` raises, and the
  session dependency rolls back on exceptions it sees. `Sessions.ReplayContains` says what happens either way; every
  other theorem holds for both.
- The recorder's "consecutive" errors are never reset: the tenth of the whole run ends it
  (`Recorder.TenthErrorAborts`).
- A segment announcement without a quoted file name closes the open segment twice
  (`Recorder.UnnamedOpeningOverlaps`, `Recorder.RunIsOrderedIff`).
- The publisher sends an event twice when the call that buffers it also reconnects (`Publisher.ReconnectSendsTwice`).
- The limit of five sockets per user is checked before the handshake: with k handshakes at a time it is 4 + k
  (`Registry.ConnectionLimit`), and that is reached (`Registry.ConnectionLimitIsReached`).
- The sampling guard forgets the last sample on reconnect (`FrameBuffer.ReconnectBreaksSpacing`), while the buffer lives
  on, so the 30-second look-back can miss frames in range (`FrameBuffer.ReconnectLosesAFrame`); it is complete if and only
  if the newest frame pushed out is older than that (`FrameBuffer.LookBack`).
- A zone entry is cleared only when its track expires, not when the track leaves the zone, so the dwell time runs on
  elsewhere and a dwell alert can be early (`Detector.TimeElsewhereCounts`). The recorded entry is the beginning of the
  track's presence in the zone if and only if no frame has shown it outside since, and never later
  (`Detector.EntryIsPresenceIff`): alerts are never late, and early only then (`Detector.DwellAlertMeansStay`).
- A failed commit in the purge brings back up to fifty rows, not their files, and counts them as deleted: when rows have
  their own files those are exactly the rows left without one (`Purge.RolledBackRowsLoseTheirFiles`).
- A legal hold protects a row, not its file: the file goes if and only if an unheld row that names the same one is purged
  (`Purge.HeldFileLostIff`), so it is safe from every purge if and only if no unheld row names it
  (`Purge.HeldFileSafeIff`); `Purge.HeldRowCanLoseItsFile` is an instance. The recorder can write two rows for one file, as above.
- The alert consumer ignores rule schedules that the service honours (`RuleSelection.ConsumerAgainstService`).

## Model

| member | source | states |
|---|---|---|
| `Sessions.AuthService.CreateSession` | backend/app/services/auth_service.py:170-188 | a new session is one added row: unrevoked, its owner's, good for seven days |
| `Sessions.AuthService.DetectRefreshTokenReuse` | backend/app/services/auth_service.py:224-246 | reports exactly the presentation of a revoked token, and then revokes every session of its owner and no other |
| `Sessions.AuthService.ValidateRefreshToken` | backend/app/services/auth_service.py:191-202 | valid exactly when known, unrevoked and unexpired; only its last use is noted |
| `Sessions.AuthService.RotateRefreshToken` | backend/app/services/auth_service.py:205-221 | the old session is revoked as rotated, a new one of the same owner added, nothing else changes |
| `Sessions.AuthService.HandleLogin` | backend/app/routers/auth.py:104-145 | equals the login step: a session only for an active user whose stored hash the password matches, with neither lockout nor second factor in the way |
| `Sessions.AuthService.HandleRefresh` | backend/app/routers/auth.py:150-183 | equals the refresh step on every path, with the writes before a 401 kept or rolled back |
| `Sessions.AuthService.HandleLogout` | backend/app/routers/auth.py:188-206 | equals the logout step: only the caller's own session is revoked |
| `Sessions.AuthService.HandleLogoutAll` | backend/app/routers/auth.py:209-226 | equals the logout-all step |
| `Sessions.AuthService.HandleRevokeSession` | backend/app/routers/auth.py:282-298 | equals the revoke step: 404 unless the session is the caller's |
| `Sessions.AuthService.DeactivateUser` | backend/app/services/user_service.py:99-116 | equals the deactivation step: the user is inactive and all their sessions are revoked |
| `Sessions.AuthService.ActivateUser` | backend/app/services/user_service.py:119-126 | equals the activation step: no session changes |
| `Sessions.AuthService.AnonymiseUser` | backend/app/services/user_service.py:129-158 | equals the erasure step: inactive, a password hash nothing matches, all sessions revoked |
| `Sessions.AuthService.UpdateUser` | backend/app/services/user_service.py:72-96 | equals the update step: the active flag is set, no session changes |
| `Sessions.AuthService.HandleAdminRevoke` | backend/app/routers/users.py:248-265 | equals the administrator's revocation of all sessions of a user |
| `Sessions.AuthService.HandleChangePassword` | backend/app/routers/auth.py:382-399 | equals the password step: replaced only by an active caller who knows the current one, and only by a strong one |
| `Sessions.RotationKeepsConsistent` | backend/app/services/auth_service.py:205-221 | one rotation keeps the chain invariants: its token stays the only live one of its chain, with the chain's owner |
| `Sessions.StepKeepsConsistent` | backend/app/routers/auth.py:104-298 | every handler keeps all chain invariants |
| `Sessions.EveryRunIsConsistent` | backend/app/services/auth_service.py:205-246 | over every run: each token is rotated at most once, a rotated token is revoked, chains start at logins and stay with one owner, and a chain has at most one unrevoked session |
| `Sessions.RunExtends` | backend/app/services/auth_service.py:170-246 | no run removes a row, changes its owner or expiry, or clears a revocation |
| `Sessions.RevocationIsPermanent` | backend/app/services/auth_service.py:191-202 | a revoked token stays revoked through every run, and presenting it later is refused and issues nothing |
| `Sessions.DeactivationIsForever` | backend/app/services/user_service.py:99-158 | no session revoked by deactivation, erasure or an administrator refreshes again, even after re-activation |
| `Sessions.OnlyDeactivationEndsSessions` | backend/app/services/user_service.py:72-126 | after switching a user off and on again a token refreshes if and only if the switching off was a user update and the token is still good; in between it is refused |
| `Sessions.SignOutIsForever` | backend/app/routers/auth.py:188-298 | a session signed out by logout, logout-all or revocation never refreshes again |
| `Sessions.TokensExpire` | backend/app/services/auth_service.py:191-202 | a token is refused seven days after it was issued, whatever happened in between |
| `Sessions.RefreshIssuesIff` | backend/app/routers/auth.py:150-183 | a refresh issues a token exactly when its own is live, unexpired and its owner active; then the new one replaces it in the same chain and no other row changes |
| `Sessions.OthersAreUntouched` | backend/app/routers/auth.py:104-298 | no handler changes a session of a user other than the one it acts for |
| `Sessions.ErasedUserGetsNoSession` | backend/app/services/user_service.py:129-158 | an erased account has no live session ever again, even if re-activated: no password matches, and none can be set without one that does |
| `Sessions.ErasureIsForever` | backend/app/services/user_service.py:129-158 | erasing an account leaves it without a live session, for good, whatever is done to it afterwards |
| `Sessions.LoginIssuesIff` | backend/app/routers/auth.py:104-145 | a login issues the new token if and only if the user is active, the password is the stored one and nothing else objects; then one live row of seven days is added and no other changes, else nothing does |
| `Sessions.PasswordChangesIff` | backend/app/routers/auth.py:382-399 | a password changes if and only if an active caller knows it and the new one is strong; then exactly the new one matches, and nobody else's changes |
| `Sessions.EndsExactly` | backend/app/routers/auth.py:104-298 | every handler ends exactly the live sessions it is meant to end, for its reason and at its time, and alters no other, but for the last use a refused refresh may note |
| `Sessions.EndedStaysAsItIs` | backend/app/routers/auth.py:188-298 | an ended session is altered only when its owner names it in a logout or a revocation, which stamps it anew |
| `Sessions.RefusedRefreshKeeps` | backend/app/routers/auth.py:157-178 | what a refused refresh leaves: everything if its writes are rolled back, and else at most the last use of a good token of an inactive user, or a containment |
| `Sessions.UsersAfter` | backend/app/services/user_service.py:72-158 | a user's flag and password change by exactly the events meant for that |
| `Sessions.ReplayContains` | backend/app/services/auth_service.py:224-246 | replaying a spent token ends all its owner's sessions if and only if the write survives the raised 401 (or none was left) |
| `Sessions.SecondUseEndsTheFirst` | backend/app/services/auth_service.py:224-246 | once a token has been rotated, a second use at any later point is refused as theft and, if the write survives, ends the session issued to the first |
| `Browser.Interceptor.OnUnauthorized` | frontend/src/lib/api.ts:45-50 | a request is retried at most once, and joins the refresh under way if there is one |
| `Browser.Interceptor.OnRefreshSettled` | frontend/src/lib/api.ts:49-57 | the settled refresh is forgotten and exactly its waiters go on |
| `Browser.AtMostOneRefreshInFlight` | frontend/src/lib/api.ts:33-62 | in every run, whatever is lost, reloaded or signed out, no page has two refreshes under way, and never more refreshes than requests |
| `Browser.StuckIffRefused` | frontend/src/lib/api.ts:45-57 | in every run a page waits for a refresh that no longer exists if and only if its refresh was refused since it was last loaded |
| `Browser.RefusalSticksUntilReload` | frontend/src/lib/api.ts:45-57 | so after a refusal a page sends no refresh for any request, whatever happens, until it is reloaded |
| `Browser.TakenUpOnce` | frontend/src/lib/api.ts:45-53 | between reloads a page takes up a request exactly once, the first time it fails, and rejects it ever after |
| `Browser.WaitsUntilSettled` | frontend/src/lib/api.ts:48-57 | a request waits from when it is taken up until the shared refresh settles |
| `Browser.CookieAfter` | backend/app/routers/auth.py:142-181 | a browser's cookie changes only by an answer or a login it takes, or by being forgotten, and then as that says |
| `Browser.LoginsAfter` | backend/app/routers/auth.py:134-142 | a login token is on its way until the browser takes it or it is lost |
| `Browser.StraysAfter` | frontend/src/lib/api.ts:48-51 | a request is a stray from when its page gives it up unanswered until the server gets it |
| `Browser.ElsewhereIs` | backend/app/routers/auth.py:188-298 | what the server handles elsewhere it handles as ever, unknown to pages and cookies |
| `Alarm.ServedMarks` | backend/app/routers/auth.py:150-183 | serving any refresh keeps "revoked means spent, ended by an alarm or signed out", and spends exactly the token it rotates |
| `Alarm.ServePageSound` | backend/app/routers/auth.py:150-183 | serving a page's refresh keeps the account of what every page and browser holds or has coming |
| `Alarm.PageAlarmIff` | backend/app/routers/auth.py:161-167 | in a sound world a page's refresh is taken for reuse exactly when it presents an orphaned or raced token or one that was put out |
| `Alarm.StepKeepsSound` | frontend/src/lib/api.ts:33-62 | every move keeps the world sound: losses, strays, reloads, sign-outs and alarms included |
| `Alarm.AlarmIff` | backend/app/routers/auth.py:161-167 | after every run, any browsers, pages and interleavings, and whatever else the server handles: a page's refresh raises the alarm if and only if the token it presents was spent by a refresh whose answer was lost, used by two pages at once, signed out, or ended by an earlier alarm |
| `Alarm.StrayAlarmIff` | backend/app/routers/auth.py:161-167 | after every run: a request its page has given up raises it if and only if its token has been spent, signed out or ended |
| `Alarm.CookieIsGoodIff` | frontend/src/lib/api.ts:33-62 | after every run a browser's cookie is unrevoked if and only if it is none of those and its successor is not under way |
| `Alarm.NoFalseAlarm` | frontend/src/lib/api.ts:33-62 | over every run without lost token answers, pages refreshing at once, strays served and sign-outs: reuse detection never fires, and every cookie whose successor is not under way is unrevoked |
| `Alarm.OnePageNeverRaces` | frontend/src/lib/api.ts:48-51 | browsers with one page each never use a token twice at once: the shared refresh does its work within a page |
| `Alarm.LossRaisesTheAlarm` | backend/app/routers/auth.py:161-183 | from any state: a successful refresh, its loss, a 401 and the refresh it causes raise the alarm |
| `Alarm.RaceRaisesTheAlarm` | backend/app/routers/auth.py:161-183 | from any state: of two pages that have asked with one cookie, the second served raises the alarm |
| `Alarm.SignOutRaisesTheAlarm` | backend/app/routers/auth.py:209-226 | from any state: after a sign-out everywhere and a new login in any browser, the refresh a page still has under way raises the alarm and, if the write survives, ends the new session |
| `Alarm.LostAnswerRaisesTheAlarm` | backend/app/routers/auth.py:161-167 | a run reaches that: a login, a 401 and one lost answer |
| `Alarm.TwoPagesRaiseTheAlarm` | backend/app/routers/auth.py:161-167 | a run reaches that: a login and a 401 for each of two pages |
| `Alarm.SignOutAndInRaisesTheAlarm` | backend/app/routers/auth.py:161-167 | a run reaches that, with the new session ended |
| `Lockout.LockoutService.CheckLockout` | backend/app/services/auth_service.py:258-269 | locked exactly when an unexpired counter has reached five |
| `Lockout.LockoutService.RecordFailedAttempt` | backend/app/services/auth_service.py:272-277 | the counter goes up by one, from zero if it had expired, and its quarter of an hour starts again |
| `Lockout.LockoutService.ClearLockout` | backend/app/services/auth_service.py:280-281 | the counter is gone, others stay |
| `Lockout.LockoutService.Authenticate` | backend/app/services/auth_service.py:286-334 | equals the attempt step on all five outcomes; a missing MFA code records nothing |
| `Lockout.CountersStayCapped` | backend/app/services/auth_service.py:258-277 | no counter ever exceeds five |
| `Lockout.FailureUsesRoom` | backend/app/services/auth_service.py:272-277 | a recorded failure uses up part of what the window still allows |
| `Lockout.FailuresWithinRoom` | backend/app/services/auth_service.py:286-325 | until a success, the failures still to come before the window ends are within what the counter, as it stands, allows |
| `Lockout.FailureRate` | backend/app/services/auth_service.py:258-325 | an identifier that is not let in has at most 5·(⌊L/900⌋+1) recorded failures in any window of L seconds, after any history, right passwords turned away by the lock included |
| `Lockout.LockIsNotProlonged` | backend/app/services/auth_service.py:299-302 | attempts against a locked identifier do not touch its counter, so the lock ends on time |
| `Lockout.CounterIsStreak` | backend/app/services/auth_service.py:258-281 | the expiring counter always equals a reading of the history alone: recorded failures since the last success, back to the first pause of 15 minutes |
| `Lockout.LockedExactlyAfterFive` | backend/app/services/auth_service.py:299-302 | an attempt is turned away if and only if five such failures stand against its address or e-mail |
| `Lockout.VerdictIff` | backend/app/services/auth_service.py:299-334 | after any history an attempt is let in if and only if it is not turned away and everything is right; it is asked for a code, or rejected, exactly for a missing code, or an unknown user, a bad password or a bad code |
| `Timeline.FindGaps` | backend/app/services/recording_service.py:106-135 | the gaps are sorted, non-empty, disjoint, inside the day, and hold an instant exactly when no segment covers it; their length is the uncovered time |
| `Timeline.SweepGap` | backend/app/services/recording_service.py:119-126 | opening a gap settles exactly the instants up to the next segment |
| `Timeline.SweepSegment` | backend/app/services/recording_service.py:127-128 | moving the cursor over a segment settles exactly the instants it covers |
| `Timeline.CoveredSecondsIsTotalDepth` | backend/app/services/recording_service.py:76-80 | the covered-seconds sum counts every instant as often as segments cover it |
| `Timeline.DayIsConserved` | backend/app/services/recording_service.py:75-80 | covered plus uncovered seconds is at least the day, with equality exactly when no two segments overlap in it |
| `Timeline.QuerySelects` | backend/app/services/recording_service.py:60-71 | the query's answer, ties in any order, is a well-formed input of the sweep and holds exactly the closed overlapping rows |
| `Timeline.GetTimeline` | backend/app/services/recording_service.py:60-80 | from the table: an instant lies in a gap exactly when no closed row covers it, the covered seconds count every instant as often as selected rows cover it, and coverage and gaps make up the day exactly when no selected rows overlap |
| `Recorder.RecordingWorker.Close` | backend/app/workers/recording.py:87-115 | one row is written exactly when the file is there at both checks |
| `Recorder.RecordingWorker.StartRecording` | backend/app/workers/recording.py:125-257 | a camera already recording is left alone; otherwise the loop writes the rows of the run and the camera is unregistered however it ends |
| `Recorder.TenthErrorAborts` | backend/app/workers/recording.py:205-234 | errors end a run exactly when ten of them come before a clean exit, consecutive or not |
| `Recorder.OneRowPerFile` | backend/app/workers/recording.py:193-257 | with all announcements named: one row per opened file that exists when it is closed, in order, except the one open at the tenth error |
| `Recorder.RecordWritesRows` | backend/app/workers/recording.py:187-257 | the same from any point of a run, with a segment already open and errors already counted |
| `Recorder.RecordKeepsOrder` | backend/app/workers/recording.py:193-203 | from any point of a run rows stay in time order and end by the last reading |
| `Recorder.RunWritesRowsInOrder` | backend/app/workers/recording.py:181-257 | one run's rows start after all earlier ones end, and each ends no later than the next starts |
| `Recorder.RunsWriteRowsInOrder` | backend/app/workers/recording.py:125-257 | so do the rows of any succession of runs |
| `Recorder.RunIsOrderedIff` | backend/app/workers/recording.py:193-203 | with or without names: rows are in order if and only if no segment that already has a lasting row is closed again |
| `Recorder.UnnamedOpeningOverlaps` | backend/app/workers/recording.py:194-203 | one unnamed announcement is enough to write overlapping rows |
| `Recorder.RecordedDayAddsUp` | backend/app/services/recording_service.py:60-80 | for rows in recorded order, on any day and in any answer order, covered seconds and gaps sum exactly to the day |
| `Recorder.TimelineOfRuns` | backend/app/services/recording_service.py:60-80 | from any succession of runs on an empty table to the timeline of any day: gaps are exactly the uncovered instants, and coverage and gaps make up the day |
| `Publisher.RedisPublisher.Buffer` | detection_service/redis_publisher.py:25-32 | the newest event is kept, and the oldest of a full buffer is evicted |
| `Publisher.RedisPublisher.Drain` | detection_service/redis_publisher.py:36-40 | events leave in order while writes succeed; the one whose write fails is lost |
| `Publisher.RedisPublisher.Publish` | detection_service/redis_publisher.py:29-47 | equals the call's step for every combination of connect and write outcomes |
| `Publisher.RedisPublisher.IsConnected` | detection_service/redis_publisher.py:49-58 | a failed ping drops the connection, a ping never makes one |
| `Publisher.CallCopies` | detection_service/redis_publisher.py:29-47 | a call adds one copy of its event, two if it was down and reconnects; no other event's count changes |
| `Publisher.CallLosses` | detection_service/redis_publisher.py:29-47 | a call loses at most one event, exactly when a drain is cut short, and evicts at most one, exactly when down with a full buffer; a full drain empties the buffer |
| `Publisher.CallSends` | detection_service/redis_publisher.py:31-47 | with a channel a call sends the buffer and then its event as far as writes go; the failing one is lost if it was buffered and kept if it is the call's own, what follows is kept; without one nothing is sent |
| `Publisher.CallConnectedIff` | detection_service/redis_publisher.py:31-47 | a call leaves the channel up if and only if there was one to try and either every write went through or it came back at once |
| `Publisher.PingConnectedIff` | detection_service/redis_publisher.py:49-58 | a ping leaves it up if and only if it was and answers, and changes nothing else |
| `Publisher.EverythingIsAccounted` | detection_service/redis_publisher.py:29-58 | the buffer bound and the count of one or two copies per submitted event are kept by every run |
| `Publisher.CopiesOverRun` | detection_service/redis_publisher.py:29-47 | over any run an event gains copies only in the call that submits it: two if and only if that call finds the channel down and brings it up, else one |
| `Publisher.NothingVanishes` | detection_service/redis_publisher.py:29-47 | after any run an event was submitted exactly when it is published, buffered, evicted or lost, with exactly that many copies in all |
| `Publisher.RunKeepsOrder` | detection_service/redis_publisher.py:29-58 | submission order of published-then-buffered is kept by every run |
| `Publisher.PublishedInOrder` | detection_service/redis_publisher.py:36-41 | in every run the published sequence followed by the buffer is in submission order |
| `Publisher.ExactlyOnceWhileConnected` | detection_service/redis_publisher.py:35-41 | while the connection holds, exactly the submitted events are published, each once, at once |
| `Publisher.ReconnectSendsTwice` | detection_service/redis_publisher.py:31-41 | the call that buffers and reconnects publishes its event twice |
| `Purge.QueryOldest` | backend/app/workers/purge.py:174-179 | a batch the query can answer: the fifty oldest unheld segments, or all there are |
| `Purge.PurgeWorker.DeleteSegment` | backend/app/workers/purge.py:42-57 | the row goes in any case, its file if it names one that can be removed, nothing else |
| `Purge.PurgeWorker.DeleteBatch` | backend/app/workers/purge.py:182-189 | exactly the batch's removable files go; its rows go with them unless the commit fails |
| `Purge.BatchGone` | backend/app/workers/purge.py:173-184 | deleting a batch keeps "the oldest 50·n unheld are gone, nothing else" and leaves fewer unheld rows |
| `Purge.FileLostIff` | backend/app/workers/purge.py:42-57 | a row that is still there has lost its file if and only if a row deleted, for good or not, named the same removable one |
| `Purge.RolledBackRowsLoseTheirFiles` | backend/app/workers/purge.py:182-189 | when rows have their own files, exactly the rolled-back ones lose theirs |
| `Purge.HeldFileLostIff` | backend/app/workers/purge.py:169-184 | a held row stays, and loses its file if and only if an unheld row that shares it is deleted |
| `Purge.HeldFileSafeIff` | backend/app/workers/purge.py:169-190 | known before the call: whatever disk readings and commits a call meets, a held row whose removable file is there is safe if and only if no unheld row names that file |
| `Purge.HeldRowCanLoseItsFile` | backend/app/workers/purge.py:42-57 | and that happens: two rows for one file, one of them held |
| `Purge.RoundProgress` | backend/app/workers/purge.py:173-189 | one round, committed or not, keeps the account of rows and files and shrinks the measure |
| `Purge.PurgeWorker.EmergencyPurge` | backend/app/workers/purge.py:169-190 | terminates; held rows stay; the rows gone are the oldest 50·n unheld ones or all of them, after n rounds each of which had something to take; the files gone are exactly the removable ones of those rows and of a rolled-back batch; it ends only at 85 % or below, with nothing unheld left, or at a failed commit |
| `Registry.ConnectionManager.CheckLimit` | backend/app/routers/ws.py:33-39 | equals the check step: accepted exactly below five registered sockets |
| `Registry.ConnectionManager.Register` | backend/app/routers/ws.py:40-42 | equals the registration step |
| `Registry.ConnectionManager.Remove` | backend/app/routers/ws.py:54-60 | the first occurrence leaves the list, an emptied list its user |
| `Registry.ConnectionManager.Drop` | backend/app/routers/ws.py:50-63 | equals the disconnect step and returns the cameras the socket watched |
| `Registry.ConnectionManager.TrackCamera` | backend/app/routers/ws.py:65-67 | equals the step that adds a camera to a registered socket |
| `Registry.ConnectionManager.UntrackCamera` | backend/app/routers/ws.py:69-71 | equals the step that removes one |
| `Registry.ConnectionManager.Broadcast` | backend/app/routers/ws.py:80-89 | whatever other handlers do during its sends: afterwards exactly the sockets of the snapshot whose send failed are dropped from what the others left |
| `Registry.ConnectionManager.SendToUser` | backend/app/routers/ws.py:91-97 | equals sending down the user's list as it was, other handlers running during each send, a socket dropped as soon as its send fails |
| `Registry.ConnectionManager.ConnectionCount` | backend/app/routers/ws.py:120-121 | the count is the sum of the list lengths |
| `Registry.StepAgrees` | backend/app/routers/ws.py:33-71 | every step of every handler keeps the three maps in agreement |
| `Registry.MapsAlwaysAgree` | backend/app/routers/ws.py:24-121 | however handlers interleave: each socket stands once in the list of the user it maps to, no list is empty, camera sets exist for exactly the registered sockets, and the count is the sum of the lists |
| `Registry.DropEachLeaves` | backend/app/routers/ws.py:80-97 | after dropping sockets exactly the others remain, with their users |
| `Registry.BroadcastAgrees` | backend/app/routers/ws.py:80-89 | an interleaved broadcast leaves agreeing maps, without its dead sockets and with all others |
| `Registry.SendEachAgrees` | backend/app/routers/ws.py:91-97 | an interleaved send to a user leaves agreeing maps, with none of the sockets a send failed on |
| `Registry.SendEachKeeps` | backend/app/routers/ws.py:91-97 | a send to a user drops only sockets it fails on: any other that no handler disconnects stays registered, for its user |
| `Registry.MeanwhileKeeps` | backend/app/routers/ws.py:80-89 | so it is while a broadcast awaits |
| `Registry.RegisteredIff` | backend/app/routers/ws.py:33-63 | a socket is registered, for the user it connected as, from the end of its handshake until it leaves |
| `Registry.PendingIff` | backend/app/routers/ws.py:33-39 | it awaits its handshake from passing the check until the handshake ends |
| `Registry.CamerasAreAsked` | backend/app/routers/ws.py:65-71 | while a socket is connected its camera set is what it asked for and has not given up since, over every run |
| `Registry.FinishWatchesNothing` | backend/app/routers/ws.py:42 | which at first is nothing |
| `Registry.GoneForGood` | backend/app/routers/ws.py:33-63 | a disconnected socket is never registered again |
| `Registry.CountIsTotal` | backend/app/routers/ws.py:120-121 | agreeing maps have as many sockets as their lists hold together |
| `Registry.StepWithinLimit` | backend/app/routers/ws.py:33-42 | no step takes a user's registered and pending sockets past 4 + k |
| `Registry.ConnectionLimit` | backend/app/routers/ws.py:34-42 | with at most k handshakes of a user at a time, no list exceeds 4 + k: five when connects do not overlap |
| `Registry.ConnectionLimitIsReached` | backend/app/routers/ws.py:34-42 | for every k a run with at most k handshakes at a time reaches 4 + k |
| `Registry.OverlappingConnectsExceed` | backend/app/routers/ws.py:34-42 | from any state with four sockets, two overlapping connects reach six |
| `Registry.EmptyUserIdIsLeftBehind` | backend/app/routers/ws.py:52-60 | an empty user id, which the truth test skips, would break the agreement |
| `Rules.RulesEngine.Try` | detection_service/rules_engine.py:211-216 | an alert and a restarted cooldown exactly when the key is not cooling down |
| `Rules.RulesEngine.EvaluateFrame` | detection_service/rules_engine.py:53-131 | equals the frame step: tampering first and alone, then each detection by its rule in order |
| `Rules.RulesEngine.EvaluateDwellTime` | detection_service/rules_engine.py:133-161 | equals the dwell step |
| `Rules.FireSound` | detection_service/rules_engine.py:211-216 | firing keeps alerts of a key a cooldown apart and the table at the latest of each |
| `Rules.RunSound` | detection_service/rules_engine.py:53-161 | so does every run of frames and dwell checks |
| `Rules.CooldownHolds` | detection_service/rules_engine.py:53-161 | in every run alerts of one (rule, zone, track) key are at least 60 s apart, and a window of length L holds at most ⌊L/60⌋+1 |
| `Rules.SpacedRate` | detection_service/rules_engine.py:211-216 | spacing bounds the count in every window |
| `Rules.CooldownIsAnswered` | detection_service/rules_engine.py:211-213 | a key is cooling down if and only if an alert of it less than 60 s old exists |
| `Rules.TurnsAnswer` | detection_service/rules_engine.py:70-129 | every detection that meets a rule is answered by an alert of its key in force |
| `Rules.FrameIsAnswered` | detection_service/rules_engine.py:62-131 | in any sound state a frame leaves no met condition without an alert in force, save when a new tampering alert ends it |
| `Rules.ConditionsAreAnswered` | detection_service/rules_engine.py:53-161 | the same in every reachable state, and for dwell checks: a stay beyond its zone's threshold has a dwell alert in force |
| `Rules.ConditionIff` | detection_service/rules_engine.py:70-116 | which rule a detection meets: restricted zone first; else a person, or one of the five vehicles, outside the zone's arc of working hours or in a zone without any; else none |
| `Rules.CallsAreAnswered` | detection_service/rules_engine.py:62-131 | in those terms: in every reachable state a frame that no new tampering alert ends leaves every detection that calls for a rule with an alert of that rule, zone and track in force |
| `Rules.AlertsHaveReasons` | detection_service/rules_engine.py:53-161 | every alert a call raises has its reason: tampering, a detection that calls for it, or a dwell time beyond the zone's threshold |
| `Prelude.WindowIsAnArc` | detection_service/rules_engine.py:197-209 | the working-hours test, midnight crossing included, is membership in an arc of the day |
| `Tracker.ObjectTracker.Expire` | detection_service/tracker.py:60-68 | exactly the tracks not seen for more than five seconds lose their last-seen time and all entries |
| `Tracker.ObjectTracker.UpdateTracks` | detection_service/tracker.py:29-40 | equals the update step: expiry first, then the frame's tracks are seen |
| `Tracker.ObjectTracker.RecordEntry` | detection_service/tracker.py:42-50 | equals the entry step: the first entry is kept, the last-seen time renewed |
| `Tracker.ObjectTracker.GetDwellTime` | detection_service/tracker.py:52-58 | time since the recorded entry, or zero |
| `Tracker.KnownIff` | detection_service/tracker.py:29-40 | after an update a track is known exactly if the frame shows it, and then seen now, or it was seen at most five seconds before |
| `Tracker.EntryKeptIff` | detection_service/tracker.py:60-68 | an update forgets a zone entry exactly if its track was last seen more than five seconds before, and changes none |
| `Tracker.RecordedIff` | detection_service/tracker.py:42-50 | recording adds an entry if there is none, changes no other, and sees the track |
| `Tracker.ExpireSound` | detection_service/tracker.py:60-68 | the expiry check keeps every surviving entry explained |
| `Tracker.TouchSound` | detection_service/tracker.py:35-39 | seeing tracks keeps every entry explained |
| `Tracker.RecordSound` | detection_service/tracker.py:42-50 | recording an entry keeps every entry explained |
| `Tracker.NewEntryExplained` | detection_service/tracker.py:45-50 | a new entry is the first since the track last expired: every earlier one of the track and zone was followed by an expiry |
| `Tracker.ExplanationGrows` | detection_service/tracker.py:29-68 | an explanation survives whatever happens next, save an expiry of its track |
| `Tracker.DwellNeverSpansExpiry` | detection_service/tracker.py:29-68 | in every run a recorded entry is the first since the track last expired: never later than the last-seen time, and at every check since, the track had been seen within five seconds |
| `Detector.Worker.ProcessFrame` | detection_service/detector.py:142-159 | equals the frame step: update, evaluate, then per detection the entry, the dwell time and the dwell rule |
| `Detector.RunSound` | detection_service/detector.py:142-159 | every run of frames on a clock that never goes back keeps the tracker's entries explained and the cooldowns true |
| `Detector.VisitFires` | detection_service/detector.py:152-159 | in any sound state a visit raises a dwell alert only for a dwell time that has lasted the threshold, and such a dwell time has an alert in force |
| `Detector.VisitWatched` | detection_service/tracker.py:42-50 | a visit keeps recorded entries no later than the track's presence in the zone, and equal to its beginning unless the track has left since |
| `Detector.EntryIsPresenceIff` | detection_service/tracker.py:42-68 | in every run a recorded entry is never later than the beginning of the track's present presence in the zone, and, when the clock advances between frames, is that beginning if and only if no frame has shown the track outside since |
| `Detector.DwellAlertMeansStay` | detection_service/detector.py:142-159 | in every run: the dwell time is never less than the presence, so a presence that has lasted the threshold has a dwell alert in force; a new alert means a dwell time that has lasted it, and a presence too unless a frame has shown the track outside since its entry |
| `Detector.TimeElsewhereCounts` | detection_service/tracker.py:42-50 | the failing case: in a zone, seen in another, and back, a track raises a dwell alert at once although its presence has only begun |
| `Detector.FrameAnswers` | detection_service/detector.py:142-159 | after any frames, a frame of the worker answers tampering, and every detection that calls for a rule unless a new tampering alert ends it |
| `Detector.FrameRaisesOnly` | detection_service/detector.py:142-159 | and every alert it raises has its reason in the frame |
| `Detector.ShownIsSeen` | detection_service/tracker.py:35-50 | a track the frame shows is known afterwards and seen no earlier than then |
| `FrameBuffer.Buffer.Append` | detection_service/frame_buffer.py:19-26 | the buffer holds the most recent frames, as many as fit |
| `FrameBuffer.Buffer.GetFramesSince` | detection_service/frame_buffer.py:28-30 | the kept frames at or after a time, in order |
| `FrameBuffer.Buffer.Capture` | detection_service/detector.py:95-111 | what one connection appends is its sampled frames |
| `FrameBuffer.SamplesAreSpaced` | detection_service/detector.py:105-111 | within a connection samples are at least half a second apart |
| `FrameBuffer.SamplingIsDense` | detection_service/detector.py:105-108 | every tick of a connection is sampled or follows a sample, or the start of the guard, by less than half a second |
| `FrameBuffer.SamplesAreTicks` | detection_service/detector.py:99-111 | nothing is sampled that was not delivered |
| `FrameBuffer.ReconnectBreaksSpacing` | detection_service/detector.py:95 | across a reconnect they need not be |
| `FrameBuffer.ConnectionKeepsSpacing` | detection_service/detector.py:95-108 | another connection keeps the spacing exactly when its first sample is late enough |
| `FrameBuffer.LookBackComplete` | detection_service/detector.py:211-213 | a look-back misses nothing if and only if the newest frame pushed out is older than its start |
| `FrameBuffer.SpacedBack` | detection_service/detector.py:105-111 | k frames back is at least k/fps seconds back |
| `FrameBuffer.PushedOutIsOld` | detection_service/frame_buffer.py:19-21 | a frame pushed out of fps·seconds places is at least that many seconds old, and strictly older but for the newest |
| `FrameBuffer.LookBackFindsAll` | detection_service/detector.py:211-213 | with frames 1/fps apart the look-back of the buffer's length finds every frame in range, save possibly one exactly that old |
| `FrameBuffer.SamplesAreFound` | detection_service/detector.py:105-111 | so the sampled frames of a connection satisfy that for two frames a second and thirty seconds |
| `FrameBuffer.CaptureAll` | detection_service/detector.py:81-111 | the worker's one buffer holds the last frames sampled over all its connections |
| `FrameBuffer.LookBack` | detection_service/detector.py:211-213 | over any succession of connections the look-back from the newest frame is complete if and only if the newest frame pushed out is older than thirty seconds; within one connection it misses at most a frame exactly that old |
| `FrameBuffer.ReconnectLosesAFrame` | detection_service/detector.py:81-95 | a run of two connections whose look-back misses a frame in range |
| `Sanitiser.Sanitise` | backend/app/services/audit_service.py:28-42 | the loop computes the cleaning of the whole dictionary |
| `Sanitiser.SanitiseItems` | backend/app/services/audit_service.py:35-39 | in a list held by a dictionary only dictionaries are cleaned |
| `Sanitiser.ContainsIsSubstring` | backend/app/services/audit_service.py:31 | the word test is the substring relation |
| `Sanitiser.SensitiveIff` | backend/app/services/audit_service.py:18-31 | a key is sensitive exactly if one of the words occurs in its lower-cased form |
| `Sanitiser.SanitiseOptional` | backend/app/services/audit_service.py:24-42 | nothing for no detail, else the cleaned dictionary |
| `Sanitiser.CleanIsIdempotent` | backend/app/services/audit_service.py:28-42 | cleaning a value twice, wherever it stands, is cleaning it once |
| `Sanitiser.SanitisingTwice` | backend/app/services/audit_service.py:24-42 | sanitising what has been sanitised changes nothing, whatever lower-casing does |
| `Sanitiser.CleanedPaths` | backend/app/services/audit_service.py:28-42 | at every path: nothing if a sensitive key lies where the sanitiser looks, else what was there, cleaned |
| `Sanitiser.SanitisedPaths` | backend/app/services/audit_service.py:24-42 | of a sanitised detail exactly the paths without a sensitive key where it looks are left, and every scalar, and everything inside a list in a list, keeps its value |
| `Drawtext.EscapeIsOnePass` | backend/app/utils/ffmpeg.py:106 | the chain of three replacements escapes each character once, in one pass |
| `Drawtext.EscapeRoundTrip` | backend/app/utils/ffmpeg.py:106 | the escape has an inverse: every name comes back |
| `Drawtext.EscapeInjective` | backend/app/utils/ffmpeg.py:106 | different names stay different |
| `Drawtext.WellEscapedAppend` | backend/app/utils/ffmpeg.py:106 | one more escaped character keeps a text well escaped |
| `Drawtext.EscapeIsWellEscaped` | backend/app/utils/ffmpeg.py:105-110 | every quote or colon of the output follows an odd run of backslashes, and the output ends in an even one |
| `RuleSelection.FindMatchingRule` | backend/app/services/alert_service.py:90-96 | the service's loop returns the first rule that matches type and schedule |
| `RuleSelection.MatchForConsumer` | backend/app/workers/alert_consumer.py:94-99 | the consumer's loop returns the first rule that matches the type |
| `RuleSelection.FirstMatchIs` | backend/app/services/alert_service.py:90-96 | a choice is the first match if and only if it matches and nothing before it does, or nothing matches at all |
| `RuleSelection.FirstMatchIsEarliest` | backend/app/services/alert_service.py:80-96 | whatever order ties come in, the first match is a candidate no other matching candidate precedes, and exists whenever some candidate matches |
| `RuleSelection.ServiceChoosesEarliest` | backend/app/services/alert_service.py:55-96 | the service's rule is earliest: camera rules before global ones, then by creation |
| `RuleSelection.ConsumerChoosesEarliest` | backend/app/workers/alert_consumer.py:85-99 | so is the consumer's among rules of the type |
| `RuleSelection.ServiceMatchesIff` | backend/app/services/alert_service.py:55-92 | what a rule, its type set, its days and its window admit, on the circle of a day; what is absent does not restrict |
| `RuleSelection.ServiceRuleIs` | backend/app/services/alert_service.py:79-96 | in those terms: the service's rule applies and admits the event, and no such rule goes before it, a camera's before a global one, then the older; there is none only if none applies |
| `RuleSelection.ConsumerRuleIs` | backend/app/workers/alert_consumer.py:85-99 | the same of the consumer's, the schedule aside |
| `RuleSelection.ConsumerAgainstService` | backend/app/workers/alert_consumer.py:94-99 | the consumer finds a rule whenever the service does, no later; they agree if and only if the consumer's rule is in season |
| `RuleSelection.ConsumerNeverRanksAfter` | backend/app/workers/alert_consumer.py:85-99 | with their own queries and tie orders, the consumer's rule never ranks after the service's |

## Left out

- Alarm.AlarmIff: the pages of a browser are given from the start and each acts on its own; the log-out request a page sends after a refused refresh is one of the events elsewhere.
- Liveness of the interceptor, beyond Browser.RefusalSticksUntilReload.
- Browser storage, redirects and the log-out callback after a failed refresh.
- Rate limits on login and refresh, and the device, fingerprint and address fields of a session.
- Hashing, MFA codes and access tokens: a hash is what it was made from, and the other checks' outcomes are inputs; a minted token that clashes fails the commit. Users are not created during a run.
- Concurrent handlers on one session row or one lockout counter: every handler is one transaction, every attempt is taken one at a time.
- The per-user failed-login counter, which is flushed before an error that rolls it back.
- Timeline.GetTimeline: durations truncated to whole seconds and the coverage percentage with its fixed divisor are not modelled; lengths are exact.
- Recorder.RecordingWorker.StartRecording: log-line classification, file hashes, thumbnails, directory rotation, camera status rows, stopping from outside and retries are not modelled; an error while closing a segment does not occur.
- Publisher.RedisPublisher.Publish: an event that cannot be serialised counts as a failed write; the lock makes calls atomic.
- Purge.PurgeWorker.EmergencyPurge: thumbnails are not modelled, and a file that cannot be removed stays so throughout. The retention loop, export and audit retention and the usage reading are left out as easier.
- Viewer queries, sending by permission, heartbeats and the HLS viewer sets of the WebSocket registry.
- Rules.RulesEngine.EvaluateFrame: the tamper verdict is an input, the alert's other fields are not kept, and the parsing of times of day is left out.
- Tracker.ObjectTracker.UpdateTracks: the tracking library's answer is an input.
- Detector.Worker.ProcessFrame: baseline frames, the detection model, zone geometry and the dispatch of alerts are left out.
- FrameBuffer.Buffer.Capture: the frame's wall-clock timestamp and the monotonic reading of the guard are one clock; images, baseline building and inference are left out.
- Drawtext.EscapeRoundTrip: how the video filter itself reads quotes and backslashes is not modelled; the export watermark has an escaping of its own, which is left out.
- RuleSelection.FindMatchingRule: the cooldown, notification and storage of the alert that follows are left out.
- CRUD routers, schemas, migrations, pages, storage targets and the camera protocols.

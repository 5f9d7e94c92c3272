# PythonID bot — a Dafny model of its enforcement core

PythonID-bot watches one Telegram group and enforces a profile rule: every
member who writes needs a public profile photo and a username. The model covers
the following parts of the bot:

- **Profile check** (`src/bot/services/user_checker.py`). A profile is complete
  with a photo and a username. A user on the photo-verification whitelist
  counts as having a photo without a lookup.
- **Group messages** (`src/bot/handlers/message.py`). A sender whose profile is
  incomplete is handled in one of two modes:
  - warning-only mode: a warning is posted on every message and nothing is
    stored;
  - progressive mode: the sender's warning row counts messages, the first
    message gets a warning, and the sender is muted (restricted) once the count
    reaches the threshold.
- **Periodic sweep** (`src/bot/services/scheduler.py`). Every active warning
  row whose cycle began more than the time threshold ago is restricted. A user
  banned from the group is skipped. A failure on one row is logged and the
  sweep goes on.
- **Private messages** (`src/bot/handlers/dm.py`). A chain of checks, first
  match wins:
  1. membership in the group;
  2. a complete profile;
  3. a restriction the bot itself recorded;
  4. the user's status on Telegram.

  The chain ends in lifting the bot's restriction.
- **Captcha** (`src/bot/handlers/captcha.py`):
  - a new member is muted and sent a button;
  - a pending row and a timeout job named after the group and the user are
    recorded;
  - the user's own press cancels the job, lifts the mute and removes the
    pending row;
  - when the job runs first, the challenge expires.
- **Captcha expiry and restart recovery**
  (`src/bot/services/captcha_recovery.py`):
  - expiry turns a pending challenge into a warning row restricted by the bot;
  - after a restart, recovery expires every overdue challenge and reschedules
    every other one for the time it has left.
- **Admin commands** (`src/bot/handlers/verify.py`):
  - `/verify USER_ID` whitelists a user, lifts their mute and deletes their
    warning history;
  - `/unverify USER_ID` takes the user off the whitelist.
- **The record store** (`src/bot/database/service.py`, `models.py`). It holds
  warning rows, whitelist entries and pending captchas.
- **Constants and strings** (`src/bot/constants.py`). These are the mute
  permissions and the threshold display, plus the two strings the captcha flow
  writes and reads back: the job name `captcha_timeout_<group>_<user>` and the
  callback data `captcha_verify_<user>`.

## Structure

The model has two layers.

- **Values.** The store is a value, `Database.Tables`, with one function per
  query or update. Each handler is a function of the tables, the settings and
  Telegram's answers:
  - Telegram's answers are a `Platform.Remote` record, with per-user answers
    to membership, photo, restrict, unrestrict and notice calls;
  - the function returns a `Reaction`: the new tables, the calls that took
    effect (in order) and whether an exception escaped;
  - handlers that touch the job queue return a `QueueReaction`, which also
    holds the queue.
- **Objects.** `Database.DatabaseService` holds the same tables in fields and
  updates them in place. `Platform.Bot` holds the log of calls made and the
  job queue. Each handler is also a method on these two objects, and its
  `ensures` ties the new state to the handler's function. Loops (over new
  members, expired rows, pending records, jobs to cancel) are `while` loops
  whose invariants tie the state to a fold of the function.

The properties are lemmas about the functions.

Modules, one per source file: `Models`, `Database`, `Constants`, `Config`,
`UserChecker`, `MessageHandler`, `Scheduler`, `DmHandler`, `Captcha`,
`CaptchaRecovery` and `VerifyHandler`. `CaptchaNames` gathers the job-name and
callback-data formats of `src/bot/handlers/captcha.py` (lines 35-46, 100, 166
and 251) and their parsers. Three shared modules support them:

- `Base`: Option and Result;
- `Text`: integer rendering and parsing, splitting at the last separator;
- `Platform`: Telegram's side and the `Bot` object.

## Model

| member | source | states |
|---|---|---|
| Models.NewUserWarning | src/bot/database/models.py:38-45 | A new warning row counts one message, starts its cycle now, and has neither restriction flag set, so it is the active row of its (user, group) |
| Models.NewWhitelistEntry | src/bot/database/models.py:67-71 | A whitelist entry records the user, the granting admin and the time; notes are absent unless given |
| Constants.RestrictedPermissions | src/bot/constants.py:11-26 | The mute permission set grants none of the fourteen permissions |
| Constants.FormatThresholdDisplayMeaning | src/bot/constants.py:32-47 | The display reads back as a number and a unit. From 60 minutes on it is hours, the floored quotient (n*60 <= minutes < n*60+60); below 60 it is the minutes themselves |
| Constants.ThresholdDisplayBoundaries | src/bot/constants.py:44-47 | 60 and 90 minutes both show "1 jam", 180 shows "3 jam", 59 shows "59 menit" |
| Config.DefaultSettings | src/bot/config.py:62-71 | The defaults are warning-only mode, a threshold of 3 messages, 180 minutes, captcha off, and a 120-second captcha timeout |
| UserChecker.ProfileCheckResult.MissingItems | src/bot/services/user_checker.py:38-50 | There is one item per missing part, the photo before the username; the list is empty iff the profile is complete |
| UserChecker.CheckUserProfile | src/bot/services/user_checker.py:53-84 | Has a username iff one is set. A whitelisted user has a photo and no lookup is made. Anyone else has a photo iff Telegram reports at least one, after exactly one lookup |
| UserChecker.MissingTextCases | src/bot/services/user_checker.py:45-50 | The joined text is empty, "foto profil publik", "username", or "foto profil publik dan username", per the missing parts |
| Platform.JobsWithout | src/bot/handlers/captcha.py:174-178 | The jobs left are exactly the jobs whose name differs from the cancelled name |
| Platform.Bot.CancelJobsByName | src/bot/handlers/captcha.py:174-178 | The loop over the queue leaves exactly the jobs with another name and posts nothing |
| Database.FirstMatch | src/bot/database/service.py:55-60 | `.first()` returns the lowest index whose row the query selects, and None iff no row matches |
| Database.ActiveRowIsFirst | src/bot/database/service.py:55-60 | In a well-formed store, any active row of a (user, group) is the one `.first()` finds |
| Database.EmptyTablesWellFormed | src/bot/database/service.py:25-37 | A fresh store satisfies the invariant: at most one active row per (user, group), rows well formed, and the maps keyed by their rows |
| Database.GetOrCreate | src/bot/database/service.py:39-76 | Returns an active row of the pair. With one present the store is unchanged; otherwise a new row counting one message is appended under a fresh id |
| Database.GetOrCreatePreservesWellFormed | src/bot/database/service.py:39-76 | Get-or-create keeps at most one active row per (user, group) |
| Database.GetOrCreateReturnsTheActiveRow | src/bot/database/service.py:39-76 | In a well-formed store the row returned is the pair's one active row; a created row's id differs from every existing id |
| Database.Increment | src/bot/database/service.py:78-113 | Raises (NoActiveWarning) iff the pair has no active row |
| Database.IncrementAddsOne | src/bot/database/service.py:78-113 | The active row's count goes up by exactly one; it stays active; no other row or table changes |
| Database.IncrementPreservesWellFormed | src/bot/database/service.py:78-113 | Incrementing keeps the store's invariant |
| Database.MarkRestricted | src/bot/database/service.py:115-151 | Raises (NoActiveWarning) iff the pair has no active row |
| Database.MarkRestrictedRetiresActiveRow | src/bot/database/service.py:115-151 | Only the active row changes, getting both flags set. The pair then has no active row, so the next get-or-create starts a new cycle at one message |
| Database.MarkRestrictedPreservesWellFormed | src/bot/database/service.py:115-151 | Marking keeps the store's invariant |
| Database.IsRestrictedByBot | src/bot/database/service.py:153-176 | True iff some row of the pair is restricted with the bot flag set |
| Database.MarkUnrestricted | src/bot/database/service.py:178-201 | Only warning rows change, each at most by losing its bot flag |
| Database.MarkUnrestrictedKeepsRestriction | src/bot/database/service.py:178-201 | `is_restricted` and keys are kept, only a bot-restricted row of the pair can change, and nothing changes when there is none |
| Database.MarkUnrestrictedClearsFirstBotRow | src/bot/database/service.py:190-201 | Exactly the first bot-restricted row of the pair loses the bot flag |
| Database.MarkUnrestrictedPreservesWellFormed | src/bot/database/service.py:178-201 | Clearing the flag keeps the store's invariant |
| Database.AddWhitelist | src/bot/database/service.py:203-237 | Refused (AlreadyWhitelisted) iff the user is listed; otherwise exactly that entry is added, with the user, the admin and the notes |
| Database.AddWhitelistPreservesWellFormed | src/bot/database/service.py:203-237 | Adding an entry keeps the store's invariant |
| Database.RemoveWhitelist | src/bot/database/service.py:256-276 | Refused (NotInWhitelist) iff the user is not listed; otherwise exactly that entry goes |
| Database.RemoveWhitelistPreservesWellFormed | src/bot/database/service.py:256-276 | Removing an entry keeps the store's invariant |
| Database.WhitelistAddRemoveReadd | src/bot/database/service.py:203-276 | Add, remove and re-add each succeed. A second add and a second remove are refused. The latest grant's admin is recorded |
| Database.ActiveSince | src/bot/database/service.py:297-303 | The rows selected are exactly the active rows whose cycle began at or before the cutoff |
| Database.WarningsPastTimeThreshold | src/bot/database/service.py:278-303 | Selects exactly the non-restricted rows whose first warning is at or before now minus the threshold |
| Database.RowsNotOf | src/bot/handlers/verify.py:88 | The rows kept are exactly those of other (user, group) pairs; nothing is lost iff the pair had no row |
| Database.RowsNotOfPreservesWellFormed | src/bot/handlers/verify.py:88 | Deleting a pair's rows keeps at most one active row per pair and every kept row well formed |
| Database.DeleteUserWarnings | src/bot/handlers/verify.py:88 | Every row of the pair goes, whatever its flags, and the count returned is the number removed |
| Database.DeleteUserWarningsPreservesWellFormed | src/bot/handlers/verify.py:88 | Deletion keeps the store's invariant |
| Database.DeleteUserWarningsClearsHistory | src/bot/handlers/verify.py:88-91 | No row of the pair is left, the next get-or-create counts one message, and the count is positive iff the pair had a row |
| Database.PendingOpsPreserveWellFormed | src/bot/handlers/captcha.py:118-124 | Adding or removing a pending captcha keeps the store's invariant |
| Database.DatabaseService.constructor | src/bot/database/service.py:25-37 | The new service holds the empty tables and is valid |
| Database.DatabaseService.GetOrCreateUserWarning | src/bot/database/service.py:39-76 | The fields change as GetOrCreate says, and the returned row is its row; the invariant is kept |
| Database.DatabaseService.IncrementMessageCount | src/bot/database/service.py:78-113 | On error the fields are unchanged and the error is returned; otherwise they change as Increment says |
| Database.DatabaseService.MarkUserRestricted | src/bot/database/service.py:115-151 | On error the fields are unchanged; otherwise they change as MarkRestricted says and the marked row is returned |
| Database.DatabaseService.MarkUserUnrestricted | src/bot/database/service.py:178-201 | The fields change as MarkUnrestricted says |
| Database.DatabaseService.AddPhotoVerificationWhitelist | src/bot/database/service.py:203-237 | A refusal changes nothing; otherwise the fields change as AddWhitelist says and the entry is returned |
| Database.DatabaseService.RemovePhotoVerificationWhitelist | src/bot/database/service.py:256-276 | A refusal changes nothing; otherwise the entry is gone as RemoveWhitelist says |
| Database.DatabaseService.DeleteWarnings | src/bot/handlers/verify.py:88 | The fields change and the count is returned as DeleteUserWarnings says |
| Database.DatabaseService.AddPendingCaptcha | src/bot/handlers/captcha.py:118-124 | The pending map gets the row under its (user, group) key |
| Database.DatabaseService.RemovePendingCaptcha | src/bot/handlers/captcha.py:189 | The pending map loses the (user, group) key |
| Database.DatabaseService.GetAllPendingCaptchas | src/bot/services/captcha_recovery.py:97 | Lists every pending row exactly once, each as stored, and changes nothing |
| MessageHandler.HandleMessageStep | src/bot/handlers/message.py:47-61 | No message or sender, another chat, or a bot sender: nothing happens |
| MessageHandler.CompleteProfileChangesNothing | src/bot/handlers/message.py:64-68 | A complete profile changes no table and posts nothing |
| MessageHandler.WarningOnlyModeKeepsNoState | src/bot/handlers/message.py:76-95 | Warning-only mode stores nothing, restricts no one, and posts exactly one warning, as the last call |
| MessageHandler.FirstWarningIffCountOne | src/bot/handlers/message.py:99-122 | In progressive mode the first warning is posted iff the sender's active row counts one message |
| MessageHandler.ThresholdRestrictsOnce | src/bot/handlers/message.py:124-152 | At the threshold there is one restrict and then one notice with the count. The row becomes bot-restricted with its count kept, and no active row is left. A failing restrict escapes before anything is marked |
| MessageHandler.BelowThresholdIncrements | src/bot/handlers/message.py:154-160 | Below the threshold there is no restriction, the count goes up by one, and nothing is posted unless the count was one |
| MessageHandler.ProgressiveAtThreshold | src/bot/handlers/message.py:124-152 | At or over the threshold the progressive branch posts, after any first warning, the restrict and then the notice with the count, and leaves the user a bot-restricted row and no active one. A failing restrict raises after only the row lookup or creation and any first warning |
| MessageHandler.ProgressiveBelow | src/bot/handlers/message.py:154-160 | Below the threshold the progressive branch completes, posts only the first warning when the count is one, and counts one more message |
| MessageHandler.ProgressiveOtherRows | src/bot/handlers/message.py:97-160 | The progressive branch writes only the sender's rows: others are unchanged and new rows are the sender's |
| MessageHandler.HandleMessagePreservesWellFormed | src/bot/handlers/message.py:33-160 | Every message keeps the store's invariant |
| MessageHandler.OtherUsersUntouched | src/bot/handlers/message.py:33-160 | Rows of other users are unchanged, rows are only appended and only for the sender, and the whitelist and pending captchas are unchanged |
| MessageHandler.ThresholdThreeScenario | src/bot/handlers/message.py:99-152 | With threshold 3 on an empty store, message 1 warns, message 2 is silent, and message 3 restricts; one row remains, counting 3 with both flags set |
| MessageHandler.HandleMessage | src/bot/handlers/message.py:33-160 | The store object and call log end exactly as HandleMessageStep says, and the job queue is unchanged |
| MessageHandler.HandleProgressive | src/bot/handlers/message.py:97-160 | The progressive branch on the objects ends as its function says |
| Scheduler.SweepMention | src/bot/services/scheduler.py:77-91 | The plain-text fallback is used iff the member lookup fails |
| Scheduler.FallbackMentionNamesUser | src/bot/services/scheduler.py:89-91 | The fallback is "User " followed by text that reads back as the user's id |
| Scheduler.AutoRestrictStep | src/bot/services/scheduler.py:56-116 | The sweep never raises: each row's failure is caught |
| Scheduler.SweepRecordFacts | src/bot/services/scheduler.py:56-116 | One row: the invariant is kept and only flags change. A restrict is made iff the user is not banned and Telegram accepts it; it is in the group, and leaves the user no active row |
| Scheduler.SweepFoldFacts | src/bot/services/scheduler.py:56-116 | Over the loop, every reachable user is restricted and every restriction is of a reachable user, with no active row left; only flags change |
| Scheduler.NothingExpired | src/bot/database/service.py:297-303 | With no active row older than the cutoff, the selection is empty |
| Scheduler.EmptySweepDoesNothing | src/bot/services/scheduler.py:41-47 | Nothing selected: no call and no change |
| Scheduler.SweepRestrictsExactlyReachable | src/bot/services/scheduler.py:27-116 | Every selected row whose user is reachable is restricted, and every restricted user is one of those, with no active row left |
| Scheduler.BannedUserSkipped | src/bot/services/scheduler.py:59-67 | A banned user gets no call, and every active row stays as it was, so it stays selected |
| Scheduler.RestrictFailureLeavesRecord | src/bot/services/scheduler.py:69-75 | A failed restrict leaves the store as it was and posts nothing |
| Scheduler.RestrictThenMarkThenNotice | src/bot/services/scheduler.py:69-108 | The calls are exactly the restrict and then one time-threshold notice when it can be sent, or the restrict alone when it cannot; the row becomes bot-restricted with its count kept either way |
| Scheduler.NoDoubleRestriction | src/bot/services/scheduler.py:41-75 | Two sweeps in a row never restrict the same user twice |
| Scheduler.SweepSkipsUserWithoutActiveRow | src/bot/services/scheduler.py:41-75 | When every row is in the configured group, a sweep never restricts a user who has no active row in that group |
| Scheduler.AutoRestrictExpiredWarnings | src/bot/services/scheduler.py:27-116 | The objects end as AutoRestrictStep says |
| Scheduler.SweepRows | src/bot/services/scheduler.py:56-116 | The loop leaves the objects as the fold over the selected rows says |
| Scheduler.RestrictExpiredRecord | src/bot/services/scheduler.py:57-116 | One iteration, with its try/except, ends as SweepRecord says |
| DmHandler.HandleDmStep | src/bot/handlers/dm.py:39-45 | No message or sender, or a non-private chat: nothing happens |
| DmHandler.ExactlyOneReply | src/bot/handlers/dm.py:51-129 | Every completed branch makes exactly one reply, as its last call; only a failing restrict ends with none |
| DmHandler.CheckOrder | src/bot/handlers/dm.py:51-107 | Not in the group wins, with no profile lookup; then an incomplete profile, with its items; then no bot restriction; then not restricted on Telegram; then the lift |
| DmHandler.ChangesOnlyWhenLifting | src/bot/handlers/dm.py:96-125 | The store changes only by MarkUnrestricted, and only on the two lifting branches. A restrict is made only for a complete profile restricted by the bot and by Telegram, with the group's defaults |
| DmHandler.LiftClearsSingleFlag | src/bot/handlers/dm.py:121 | After a lift, a user with one bot-restricted row is no longer restricted by the bot |
| DmHandler.HandleDmPreservesWellFormed | src/bot/handlers/dm.py:25-129 | Private messages keep the store's invariant |
| DmHandler.HandleDm | src/bot/handlers/dm.py:25-129 | The objects end as HandleDmStep says, with the job queue unchanged |
| CaptchaNames.JobNameRoundTrip | src/bot/handlers/captcha.py:35-46 | A job name reads back as the group and the user it was made from |
| CaptchaNames.JobNameInjective | src/bot/handlers/captcha.py:35-46 | Distinct (group, user) pairs have distinct job names |
| CaptchaNames.CallbackRoundTrip | src/bot/handlers/captcha.py:166 | The last field of a button's data parses to the user the button was made for |
| CaptchaNames.CallbackPatternIffNonNegative | src/bot/handlers/captcha.py:251 | A button's data matches the handler's pattern iff the user id is non-negative |
| CaptchaNames.PatternMatchParses | src/bot/handlers/captcha.py:166 | The `int()` parse succeeds on any data the pattern routes here, giving the digits after the prefix |
| Captcha.Challenge | src/bot/handlers/captcha.py:118-124 | The pending row of a challenge is keyed by the member and the group |
| Captcha.AdmitFoldSingle | src/bot/handlers/captcha.py:79-143 | An update with one member is that member's iteration |
| Captcha.NewMembersIgnored | src/bot/handlers/captcha.py:63-75 | No members, captcha off, or another chat: nothing happens |
| Captcha.AdmitFoldKeeps | src/bot/handlers/captcha.py:79-143 | Warning rows and the whitelist are untouched and the invariant is kept; pending rows are only added and jobs only appended |
| Captcha.AdmitFoldChallengesEach | src/bot/handlers/captcha.py:79-138 | Every non-bot member whose mute goes through gets a mute and a welcome with their own button. They also get a pending row with the message id and a timeout job under their name for the configured time |
| Captcha.AdmitFoldChallengesOnly | src/bot/handlers/captcha.py:79-95 | Every job, new pending row and mute the loop makes belongs to a member who is not a bot and whose mute went through |
| Captcha.OwnButtonIsAccepted | src/bot/handlers/captcha.py:165-170 | The member pressing their own button is never told it is someone else's, and the handler completes |
| Captcha.OwnPressReaction | src/bot/handlers/captcha.py:165-199 | A press by the challenged user is acknowledged, then handled as an own press, and is never answered as someone else's |
| Captcha.RoutedCallbackNeverRaises | src/bot/handlers/captcha.py:166 | Data the pattern routes here never makes the handler raise |
| Captcha.WrongUserChangesNothing | src/bot/handlers/captcha.py:163-170 | Someone else's press gets the acknowledgement and the alert, and nothing else |
| Captcha.VerificationSucceeds | src/bot/handlers/captcha.py:172-199 | Exactly the user's pending row goes and exactly the jobs named for the user are cancelled, other users' timeouts kept. The user is unmuted, and the message is edited iff the edit goes through |
| Captcha.UnrestrictFailureKeepsPending | src/bot/handlers/captcha.py:174-186 | A failed unmute keeps the store and answers with the failure, but the user's timeout jobs are already gone |
| Captcha.JoinThenTimeout | src/bot/handlers/captcha.py:126-138 | A joiner gets one job under their name for the timeout; when it runs, the pending row is gone and the user is restricted by the bot |
| Captcha.JoinThenVerify | src/bot/handlers/captcha.py:146-199 | A joiner pressing their own button is unmuted, loses the pending row, and their timeout job is cancelled |
| Captcha.VerifiedThenTimeoutIsNoOp | src/bot/handlers/captcha.py:204-234 | A timeout job firing after a successful verification does nothing |
| Captcha.AdmitNewMember | src/bot/handlers/captcha.py:80-143 | One iteration on the objects ends as its function says |
| Captcha.AdmitNewMembers | src/bot/handlers/captcha.py:79-143 | The loop leaves the objects as the fold over the members says |
| Captcha.NewMemberHandler | src/bot/handlers/captcha.py:49-143 | The objects end as NewMembersStep says |
| Captcha.CaptchaCallbackHandler | src/bot/handlers/captcha.py:146-201 | The objects end as CallbackStep says |
| Captcha.AcceptOwnPress | src/bot/handlers/captcha.py:172-199 | The own-press part on the objects ends as its function says |
| Captcha.CaptchaTimeoutCallback | src/bot/handlers/captcha.py:204-234 | The objects end as the expiry of the job's challenge says; no job, no change |
| CaptchaRecovery.ExpireStep | src/bot/services/captcha_recovery.py:25-78 | Expiry never touches the whitelist |
| CaptchaRecovery.ExpireWithoutPendingIsNoOp | src/bot/services/captcha_recovery.py:48-51 | A challenge no longer pending expires to nothing |
| CaptchaRecovery.ExpiryRestrictsByBot | src/bot/services/captcha_recovery.py:53-76 | Completes, removes exactly the pending row, and leaves the user restricted by the bot; the only call is the edit, made iff it goes through |
| CaptchaRecovery.ExpiryClosesCycle | src/bot/services/captcha_recovery.py:57-59 | In a well-formed store, expiry keeps the invariant and leaves no active row for the pair |
| CaptchaRecovery.ExpiryKeepsBotFlags | src/bot/services/captcha_recovery.py:25-78 | Rows are only appended, bot flags are never cleared, and pending rows other than this one are kept unchanged |
| CaptchaRecovery.TimeoutJob | src/bot/services/captcha_recovery.py:136-149 | A rescheduled job carries the record's name, user and group |
| CaptchaRecovery.RecoverStep | src/bot/services/captcha_recovery.py:97-101 | Recovery never raises, and with no records it changes nothing |
| CaptchaRecovery.RecoverOneFacts | src/bot/services/captcha_recovery.py:107-149 | A running record only gets its job for the time left. An overdue one only has its pending row removed and its user restricted by the bot. Either way the invariant is kept |
| CaptchaRecovery.RecoverOneJobs | src/bot/services/captcha_recovery.py:110-149 | One record adds one job for the time left iff it is still running |
| CaptchaRecovery.RecoverFoldKeeps | src/bot/services/captcha_recovery.py:107-155 | The loop keeps the invariant and the whitelist; pending rows only go, and jobs are only appended |
| CaptchaRecovery.RecoverFoldExpires | src/bot/services/captcha_recovery.py:114-128 | Every overdue record ends removed, with its user restricted by the bot |
| CaptchaRecovery.RecoverFoldSchedulesRunning | src/bot/services/captcha_recovery.py:129-149 | Every running record gets a timeout job for exactly the time it has left |
| CaptchaRecovery.RecoverFoldSchedulesOnlyRunning | src/bot/services/captcha_recovery.py:129-149 | Every job the loop adds is the timeout job of a running record |
| CaptchaRecovery.RecoverFoldRemovesOnlyOverdue | src/bot/services/captcha_recovery.py:110-128 | Only overdue records lose their pending row |
| CaptchaRecovery.RecoveryHandlesEveryChallenge | src/bot/services/captcha_recovery.py:81-157 | Every challenge pending at restart ends one of two ways. If overdue, it is expired with its user restricted by the bot. If running, it stays pending with a job under its own name for the time left |
| CaptchaRecovery.HandleCaptchaExpiration | src/bot/services/captcha_recovery.py:25-78 | The objects end as ExpireStep says |
| CaptchaRecovery.RecoverRecord | src/bot/services/captcha_recovery.py:107-155 | One iteration on the objects ends as its function says |
| CaptchaRecovery.RecoverRows | src/bot/services/captcha_recovery.py:107-155 | The loop leaves the objects as the fold over the records says |
| CaptchaRecovery.RecoverPendingCaptchas | src/bot/services/captcha_recovery.py:81-157 | The records listed are exactly the pending rows, and the objects end as RecoverStep over them says |
| VerifyHandler.ParseCommand | src/bot/handlers/verify.py:38-66 | Ignored iff there is no sender. It goes ahead iff the chat is private, the sender is an admin and the first argument is a number; the target is that number. Otherwise the reply is a refusal |
| VerifyHandler.GuardsChangeNothing | src/bot/handlers/verify.py:38-66 | A command that does not pass the guards changes nothing and gets one reply iff it has a sender, for both commands |
| VerifyHandler.VerifyAlreadyWhitelisted | src/bot/handlers/verify.py:120-124 | A listed user gets the "already on the whitelist" reply, with no unmute and no deletion |
| VerifyHandler.VerifyClearsUser | src/bot/handlers/verify.py:70-115 | The user is whitelisted by the sender and all their rows in the group go. The notice is posted iff there was history and the reply is last. A non-BadRequest unmute error escapes before deletion; a failed chat lookup escapes before the notice |
| VerifyHandler.ClearUserFacts | src/bot/handlers/verify.py:77-115 | Clearing a user unmutes first. An unmute error other than BadRequest escapes with nothing changed. Otherwise the user's rows go, and a failed chat lookup escapes before the notice. On completion the reply is last and the notice is posted iff rows were deleted |
| VerifyHandler.VerifiedUserSkipsPhotoCheck | src/bot/services/user_checker.py:75-76 | After /verify the user has a photo without any lookup |
| VerifyHandler.UnverifyRemovesEntry | src/bot/handlers/verify.py:172-187 | Removes exactly the entry when present, otherwise says so and changes nothing; the user is not listed afterwards |
| VerifyHandler.VerifyThenUnverifyRestoresWhitelist | src/bot/handlers/verify.py:127-187 | /verify then /unverify of a new user gives the whitelist back as it was |
| VerifyHandler.CommandsPreserveWellFormed | src/bot/handlers/verify.py:23-187 | Both commands keep the store's invariant |
| VerifyHandler.HandleVerifyCommand | src/bot/handlers/verify.py:23-124 | The objects end as VerifyStep says |
| VerifyHandler.ClearVerifiedUser | src/bot/handlers/verify.py:77-115 | The part after the whitelist entry ends on the objects as its function says |
| VerifyHandler.HandleUnverifyCommand | src/bot/handlers/verify.py:127-187 | The objects end as UnverifyStep says |

## Left out

- The definitions of the pending-captcha store functions are not part of this model. These are `add_pending_captcha`, `get_pending_captcha`, `remove_pending_captcha` and `get_all_pending_captchas`. The model follows what the callers rely on:
  - a map keyed by (user, group);
  - adding overwrites;
  - listing gives each row once, in no fixed order.
- The definition of `delete_user_warnings` is not part of this model. It is modelled as deleting every row of the pair and returning the number deleted, as its caller uses it.
- `unrestrict_user` and `get_user_mention_by_id` are not part of this model. Unrestricting is an answer in `Remote`: it succeeds, is refused with BadRequest, or fails otherwise.
- The private-message handler has no captcha branch, so none is modelled. The tests in tests/test_dm_handler.py expect pending-captcha users to be unmuted there; the model follows `src/bot/handlers/dm.py`.
- Message texts, Markdown mentions, the rules and DM links, and `BotInfoCache` are not modelled. A notice or reply records its kind and the values it shows.
- Calls outside any `try` are taken to go through. These are the other sends of warnings and notices, replies, the callback answers, and `get_chat` of the group in the DM flow. Their network failures are not modelled. The sweep's notice, which is inside its per-row `try`, does have a failure answer (`Remote.timeNoticeOk`): a failed send drops the notice and keeps the marked record.
- The `except Exception` in the recovery loop has no failure source in the model. Its only store call cannot fail after the pending row was found.
- Time is whole seconds from a `now` parameter, not timezone-aware floats. The recovery's remaining time is an integer.
- `int()` is modelled as an optional leading `+` or `-` followed by ASCII digits. The callback pattern `^captcha_verify_\d+$` is modelled as the prefix followed by ASCII digits only, with no sign. Neither accepts whitespace, underscores or non-ASCII digits. Python's `$` also matches before one trailing newline; the pattern predicate rejects such data.
- The default `user_full_name` for a job without one, and the `not job.data` case of the timeout callback, are not modelled. A missing job is.
- Logging, the SQLite engine and sessions, the module-level singletons, settings loading, and the Telegram application wiring are not modelled.
- Database.MarkUnrestricted: only the first bot-restricted row of the pair loses its flag, as in the source. DmHandler.LiftClearsSingleFlag therefore assumes a single such row.
- Scheduler.NoDoubleRestriction: assumes all rows are in the configured group, the only group the handlers write to.
- Scheduler.SweepSkipsUserWithoutActiveRow: assumes all rows are in the configured group. The selection has no group filter, so a user with an active row only in another group is still restricted in the configured group.
- Captcha.CaptchaTimeoutCallback: firing a job is not modelled as a queue operation. The fired job stays in `Bot.jobs`, whereas the job queue drops a `run_once` job once it has run.

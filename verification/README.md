# Gate Connect: a verified model of its protocols

Gate Connect is a desktop app that routes AI tools through a gateway. Its hard code is a set of asynchronous protocols:
three windows that each run their own analytics seam over one shared store, commands that change an account under a
running proxy engine, readings whose replies land in any order, and a fingerprint that has to notice every change of the
core. This project models them and proves what they promise, over every interleaving and with every platform call able
to fail.

Each protocol has two halves. A state machine on values gives every synchronous stretch of the source as one step; runs
of it are sequences of states, and the main results are lemmas about every run. Beside it, where the source updates
variables in place, a class has the source's methods with their early returns and loops, each proved to do to its fields
exactly what the step does, so that what is proved of the steps holds of the updates.

| file | what it models |
|---|---|
| `AnalyticsState.dfy` | one window's analytics seam: its variables, its suspended functions, and every event that can happen to it |
| `AnalyticsInvariant.dfy`, `AnalyticsSteps.dfy` | the invariant of the seam, kept by every handler, and so by every step |
| `AnalyticsTheorems.dfy`, `AnalyticsIdentity.dfy`, `AnalyticsGroup.dfy` | what follows over every run of a window: the consent gate, the held queue, who and which organization its events are filed under |
| `AnalyticsConsent.dfy`, `AnalyticsProgress.dfy`, `AnalyticsHeld.dfy`, `AnalyticsSignals.dfy`, `AnalyticsRecord.dfy` | what does happen: whose answer stands, what is sent and when, what an answer does to everything held, where each signal goes, what is saved and followed |
| `AnalyticsGate.dfy`, `AnalyticsStart.dfy`, `AnalyticsMerge.dfy` | what else the gate holds back, the account a client comes up on, and which events merge the install id |
| `AnalyticsLaunch.dfy` | launches event by event, and runs in which a sign-out fails to take |
| `AnalyticsInstall.dfy`, `AnalyticsMilestones.dfy`, `AnalyticsOnce.dfy` | every window of every launch, with the marker store and the identity record between them; which milestones are captured; and when the install id is merged more than once |
| `AnalyticsSession.dfy` | what the main window tells the seam about the session |
| `AnalyticsSeam.dfy` | the seam's handlers as they run |
| `Credentials.dfy` | the account commands, call by call, and the turns of the token-refresh loop that fall between the calls |
| `CredentialRuns.dfy`, `CredentialSession.dfy`, `CredentialBearer.dfy`, `CredentialGateway.dfy` | the key, the bearer and the gateway of a running engine, over every run of them |
| `CredentialOutcomes.dfy` | what each command leaves, wherever it stops |
| `CredentialPlatform.dfy` | the account commands as they run |
| `Exit.dfy` | quit, exit, the updater's relaunch, and the login item a deferred opt-out keeps |
| `Reopen.dfy`, `AgentOrder.dfy`, `ToolIntent.dfy` | the reopen queue, the agent report, a tool's switch over reads that fail |
| `ActivityRead.dfy`, `HourlyRead.dfy`, `MissedSenders.dfy` | the activity reading, its hourly re-read, and the senders missed while hidden |
| `Fingerprint.dfy`, `CoreSources.dfy`, `CoreTree.dfy` | FNV-1a, the sorted sources it is folded over, and what those are |
| `EventLog.dfy` | the live harness's event log and the page that drains it |
| `Notices.dfy` | the notice merge |

## What the proofs found

These are places where a promise in the source or its documentation does not hold as it stands. The code is modelled as
it is. Each has a lemma with a run that breaks the promise, and one with the exact condition under which it is kept; for
the fingerprint, which is a matter of bytes, a pair of trees, and the changes that are always noticed.

- **A sign-out that lands while a client is starting** does not reach it. `startPosthog` comes up on the name the
  identity read gave (`identifiedAs`), which a broadcast does not change before the client is up, and files the queued
  base events under the account that left: `SignOutWhileStarting`. Over every run this happens exactly when no known end
  of the session was noted meanwhile and the last broadcast since the read names another account or nobody:
  `StartsOnTheDepartedIff`. A start whose read named nobody can still resume as an account posthog-js had stored:
  `StartsOnTheStoredAccountIff`, with the run in `StoredAccountOutlivesSignOut`.
- **An OAuth sign-out leaves the main window grouped under the organization it left.** The account file keeps the
  organization, so the facts that say "signed out" still name it, and the client, reset to a fresh id, is put back in its
  group, though `applyGroup` is there so that no event carries one left over: `SignOutRegroups`, with a run in
  `SignOutRegroupsRun`. When an account is left, what the note names decides it exactly; when there was none to leave,
  so does that and what was saved last: `SignOutKeepsTheNotedOrg`.
- **A sign-out broadcast leaves a started client on somebody** exactly when that client could not read its install id,
  was never identified in this launch, and came up on what posthog-js had stored: `SignOutLeavesSomebodyIff`, and
  `StoredAccountOutlivesSignOut` again for the run.
- **The install id can be merged into a second person.** `docs/analytics-events.md` says at most once per install. A
  later launch whose identity read is rejected (an IPC failure: a record that is there but unreadable answers that the
  install was identified) takes the install for one nobody was identified on, and merges it again into whoever signs in:
  `InstallMergedTwice`, though the record said so all along. Over every history the promise holds exactly when no window
  that has not heard of an earlier identification, and has its client on the install id, signs in behind an open gate
  after another has: `InstallMergedOnceIff`; it is enough that the record reaches each later launch: `InstallMergedOnce`.
- **A key the refresh loop has in hand outlives the account it was read from.** Off OAuth the loop loads the account and
  then pushes its key, with nothing between to notice a change. A sign-in that completes in between is followed by the
  old key going into the OAuth account's engine (`StaleKeyReachesOAuthEngine`), and a pasted key is replaced by the one
  before it (`StaleKeyOutlivesPaste`). Exactly then: `OAuthEngineHoldsNoKeyIff` for whole runs, and `AccountKeyStaysIff`
  for what can be said at an idle moment.
- **A sign-out can be undone by a renewal it overtook.** `oauth.rs` says its generation check leaves a window before the
  store. A renewed bundle stored in it is a session again, and the next engine holds its token:
  `RenewalOutlivesSignOut`. Whoever signed out stays out exactly when no renewal is past its check, and none has been
  stored, by the time the sign-out is through: `SignedOutStaysOutIff`.
- **A pasted key can be outranked by a token the loop had read.** Pasting clears the engine's bearer but does not move
  the sign-in epoch, so a session the loop had already read is pushed after it: `PasteRacesTheRefresh`. An
  accepted paste is through with a bearer in the engine exactly when such a push falls behind its own clearing call:
  `PastedOverBearerIff`. From an idle moment without one, none comes exactly when no turn in flight can still push:
  `BareStaysIff`. Where a bearer off OAuth comes from at all, and what ends it: `BearerOffOAuthIff`.
- **`save_account` with another gateway's URL** under a running engine leaves it up against a gateway it was not started
  from: `SaveUnpins`, `SavePinnedIff`, and `PinnedAlongIff` for whole runs.
- **The exit's catch covers the teardown alone.** A teardown that panics is caught and the proxy reverted; the revert is
  lost exactly when the record of a clean exit, which stands before it outside the catch, panics: `EveryExitReverts`,
  `CatchSavesTheRevert`, with a run in `ExitsThatStrand`.
- **An exit whose proxy revert failed** still completes a deferred launch-at-login opt-out, though the comment there
  counts on the proxy having been reverted: `NetLostWhileRoutedIff`, `ExitsThatStrand`. And a launch-at-login change that
  fails half way clears a deferred opt-out's marker and turns the switch on: `SettingShowsWhatWasAsked`,
  `FailedOffTurnsOn`.
- **A page of the live harness misses the start of a restarted harness's log**, as much of it as its old offset, or as
  the new log held when it first answered: `RestartMissesTheStart`, `RestartMissesAnEvent`.
- **The fingerprint hashes paths and contents with nothing between them**, so a file can give its first bytes to its
  name: `BoundaryIsNotHashed`. Within a file, a change of one byte, or of two neighbouring ones, is always noticed:
  `ByteChangeIsDetected`, `TwoByteChangeIsDetected`.

## Model

| member | source | states |
|---|---|---|
| AnalyticsTheorems.CapturesAreGated | src/lib/analytics.ts:277-330 | In every run of a window, every capture was made with sharing on and the client not opted out, and every capture but a base event with the question answered; `enabled` implies a started client and consent; a started client without consent is opted out |
| AnalyticsGate.IdentityIsGated | src/lib/analytics.ts:12-19 | In every run, no step asks for a merge or puts an organization on the client, and none but the client's start moves it to an account, unless it leaves the funnel open: the question answered, sharing on, the client delivering |
| AnalyticsTheorems.RunKeepsInv | src/lib/analytics.ts:150-186 | The whole invariant of the seam (gate, queue, claims, identity) holds at every state of every run |
| AnalyticsSteps.StepKeeps | src/lib/analytics.ts:351-374 | Every event, from any state that has the invariant, keeps it; and only a won reply to a claim in flight sends what needed that claim |
| AnalyticsTheorems.HeldQueueIsBounded | src/lib/analytics.ts:242-265 | The held queue has at most 100 items, its failure count is the failures in it and at most 20, and its milestones are distinct |
| AnalyticsTheorems.TurnedAwayOnlyWhenFull | src/lib/analytics.ts:286-301 | An offered item is held unless the queue is full, or it is a failure and 20 are held; so a milestone is turned away only when 80 non-failures are held |
| AnalyticsTheorems.SettlesOnce | src/lib/analytics.ts:310-330 | Settling keeps everything, drops everything, releases each held item once after the session's effects, or spends each once; and empties the queue unless it keeps it |
| AnalyticsTheorems.ReleaseRunsEachOnce | src/lib/analytics.ts:320-326 | A release starts exactly one suspended half or sends exactly one report for each item, in the order they were held, and moves nothing else |
| AnalyticsTheorems.RefusalSpendsEachOnce | src/lib/analytics.ts:326-329 | A refusal sends nothing and asks for each held milestone's marker exactly once |
| AnalyticsConsent.AnswersAreKept | src/lib/analytics.ts:356-359 | At every point of every run, sharing is the last answer given, in this window or another, whenever the preferences were read; what they said when nobody has answered; and unknown before. The question counts as answered from the first recorded answer on, and by what was read before that |
| AnalyticsConsent.NoIsSilence | src/lib/analytics.ts:563-580 | In every run, from a "no" on and until the next "yes", sharing is off, nothing is captured, and nothing waits to be |
| AnalyticsHeld.DecisionsSettle | src/lib/analytics.ts:310-330 | In every run, an answer to sharing and the end of the boot do to everything held exactly what the gate then says. Open: each failure is sent under the session's account and organization, each milestone not asked about starts its wait, and a pairing the session shows sets out. Refused: each milestone is spent. Held: all of it is kept. Closed: all of it is dropped |
| AnalyticsHeld.FirstLaunchSetsOut | src/lib/analytics.ts:369-374 | In every run a boot that finishes sets the first launch on its way, unless this window has settled it |
| AnalyticsSignals.WindowComesUp | src/lib/analytics.ts:351-372 | In every run of a window with a key, its script starts both reads; a "yes" read, or given before any client, starts the client, and one given keeps the rest of its work for then; the client's own reads bring it up |
| AnalyticsSignals.MilestoneSetsOut | src/lib/analytics.ts:709-716 | In every run a milestone reached sets out, unless there is no key or this window has settled it |
| AnalyticsSignals.MilestoneGoesOn | src/lib/analytics.ts:714-731 | In every run a milestone past its waits for the boot and the client starts its wait for the organization behind an open gate, is claimed for nothing once sharing is off, is held once and while there is room as long as the question is open, and is let be when nothing can be sent |
| AnalyticsSignals.MilestoneAsks | src/lib/analytics.ts:731-744 | In every run a milestone past its wait for the organization is claimed to be sent, under that organization, while the client delivers; spent if sharing went off; let be otherwise |
| AnalyticsProgress.WonMilestoneIsSent | src/lib/analytics.ts:745-757 | In every run, the answer to a milestone's claim: a win captures it at once, as the client stands, exactly if sharing is on and the client up; a loss or a failure sends nothing; and only a failed claim may be made again |
| AnalyticsProgress.OpenMilestoneIsSent | src/lib/analytics.ts:709-757 | From every point of every run with the gate open, a milestone not asked about is captured, under the organization the install routes for, in a run whose waits end and whose claim is won |
| AnalyticsProgress.BaseEventGoesOut | src/lib/analytics.ts:226-235 | In every run a base event is captured at once while the client delivers; waits in line, up to fifty, while sharing is being decided and nobody has said no; and is dropped otherwise |
| AnalyticsProgress.StartSendsTheLine | src/lib/analytics.ts:507-512 | In every run a start that finds sharing on captures everything in line, in order, under the id the client came up on, and empties the line |
| AnalyticsSignals.FailureIsReported | src/lib/analytics.ts:1215-1236 | In every run a connection failure is captured behind an open gate, held within its share of the queue while the question is open, and dropped otherwise |
| AnalyticsSignals.CoworkIsReported | src/lib/analytics.ts:1243-1258 | In every run a tool connected sets the Cowork check out; an open gate starts it and an open question holds it; a setting found is claimed while the client delivers, and reported as a failure is on a win |
| AnalyticsSignals.OptInIsAnnouncedIff | src/lib/analytics.ts:580-592 | In every run, when the rest of a "yes" runs, `$opt_in` goes out exactly if it was given here, changed sharing from off, and the question is answered and the client delivers |
| AnalyticsSignals.OptInIsAnnouncedAtOnceIff | src/lib/analytics.ts:580-592 | The same of a "yes" given while the client is up |
| AnalyticsSignals.OptOutIsClaimedIff | src/lib/analytics.ts:570-578 | In every run a "no" claims the opt-out's marker exactly if it was given here, sharing was on, and the build has a key |
| AnalyticsProgress.WonOptOutIsPosted | src/lib/analytics.ts:617-640 | In every run a won opt-out is posted once, under the account the client is on, else the one a Constellation session names, else the install id if the install was never identified, else the client's own; with none of these, and without a win, nothing is |
| AnalyticsIdentity.NoTwoAccountsMerged | src/lib/analytics.ts:1063-1092 | Over a launch no id is merged twice, so none into two accounts; every merge after the first is of an id a reset drew; an account's id is never merged; and a drawn id that is merged files no event, before or after |
| AnalyticsIdentity.SignInMerges | src/lib/analytics.ts:1081-1092 | At any point of any run, a sign-in behind an open gate merges one id drawn just then if the install was identified before, otherwise the id the client is on unless that is an account's, and nothing else |
| AnalyticsRecord.SignInIsSaved | src/lib/analytics.ts:1081-1092 | At any point of any run, that sign-in saves a record naming the account, its organization and its mode |
| AnalyticsRecord.NoteIsSaved | src/lib/analytics.ts:898-946 | In every run a known note saves its record: naming nobody, whatever was saved last, once it says the account was left; otherwise under the account the window is on, unless that very record was saved last; and the window goes by it. An API key keeps the organization stored under one until its own is known |
| AnalyticsRecord.EarlyNoteIsSaved | src/lib/analytics.ts:820-831 | In every run a session noted before the record was read is taken up, and saved, as soon as it is, by what the read says |
| AnalyticsRecord.FailedSaveIsRetried | src/lib/analytics.ts:948-1004 | In every run a save that did not land is not taken for saved; one that failed arms a retry, up to three in a row; a refused one does not; one that landed starts the count over |
| AnalyticsRecord.RetrySaves | src/lib/analytics.ts:984-1004 | In every run the retry saves the record of the session known by then, unless that was saved meanwhile |
| AnalyticsRecord.PairingSetsOut | src/lib/analytics.ts:915-921 | In every run a pairing noted behind an open gate, or while sharing is off, sets out to be told or spent, unless this window has settled it |
| AnalyticsRecord.ReadIsAdopted | src/lib/analytics.ts:808-831 | In every run what the record's read answers is what the window goes by until a session is noted; one that fails leaves it as it was |
| AnalyticsRecord.BroadcastIsFollowed | src/lib/analytics.ts:1128-1144 | In every run a broadcast naming an account gives every window that record; behind an open gate the client is on the account, grouped, and has merged a drawn id into it unless it was on it before; any other leaves its client as it was |
| AnalyticsRecord.OrgEndsEveryWait | src/lib/analytics.ts:884-891 | In every run a known note or a broadcast that leaves the organization known ends every wait for it |
| AnalyticsIdentity.SignOutBroadcast | src/lib/analytics.ts:1128-1144 | What a broadcast naming nobody does to a client that is up: a fresh id exactly when it was identified, or was on an id that is somebody's |
| AnalyticsIdentity.SignOutLeavesSomebodyIff | src/lib/analytics.ts:1114-1144 | At any point of any run, after such a broadcast a started client is on nobody's id, except exactly when it never was identified, its install id is unread, and it is on a stored identity |
| AnalyticsIdentity.SignOutNoted | src/lib/analytics.ts:898-914 | At any point of any run, a known end of the session, or an API key taking over, moves an identified client to a fresh id at once |
| AnalyticsGroup.SignOutKeepsTheNotedOrg | src/lib/analytics.ts:898-945 | At any point of any run, a known sign-out noted behind an open gate that leaves an account leaves the client grouped exactly if the note names an org, and under that one; with no account to leave and no org named, under the org stored before it if what the note would save was saved last, else none |
| AnalyticsIdentity.UnreadableSessionsMoveNothing | src/lib/analytics.ts:898-902 | In every run without a known sign-out, an API key, or another live or stored account, an identified client stays on its account and is never reset |
| AnalyticsStart.StartsOnTheDepartedIff | src/lib/analytics.ts:474-512 | In every run, a client whose identity read named an account comes up on one the record no longer names exactly when no known end of the session was noted before the start and the last broadcast since the read names another or nobody; it files an event there at once exactly when sharing is on and something was queued |
| AnalyticsStart.StartsOnTheStoredAccountIff | src/lib/analytics.ts:483-504 | In every run, a start whose read named nobody comes up on an account exactly when the install id is unread, the install is not known to have been identified, and posthog-js had stored an account |
| AnalyticsStart.SignOutWhileStarting | src/lib/analytics.ts:483-512 | A run in which a sign-out is broadcast while the client starts, and an event is filed under the account that left after it |
| AnalyticsLaunch.StoredAccountOutlivesSignOut | src/lib/analytics.ts:483-504 | A run, for every window and account, in which the client resumes as an account posthog-js had stored, and a broadcast naming nobody leaves it there |
| AnalyticsMerge.StepMergesIff | src/lib/analytics.ts:1043-1092 | Of everything that can happen to a window, exactly a session noted, the end of the boot or a "yes" merges the install id, and exactly when the gate is open, the session names an account, no identification has been heard of and the client is on the install id |
| AnalyticsInstall.MilestoneCapturedOnce | src/lib/analytics.ts:691-765 | Over any number of windows and relaunches sharing one marker store, with claims lost, late or rejected, each milestone is captured at most once |
| AnalyticsMilestones.CapturedIffWon | src/lib/analytics.ts:745-757 | Over every history of an install, a window has captured a milestone exactly when it was answered, while it delivered, that its claim to send it had won; so there "at most once" is exactly once |
| AnalyticsMilestones.WinIsTheMarkers | src/lib/analytics.ts:745-757 | Such an answer means the install's marker is that claim's, for good |
| AnalyticsInstall.FirstClaimOwns | crates/core/src/analytics.rs:222-232 | Over every history a marker is written exactly once a claim of it has reached the store and may win there, and the first that does owns it |
| AnalyticsInstall.FirstClaimWins | crates/core/src/analytics.rs:214-232 | In every history a claim is told it won if its answer gets out and none of its marker had reached the store; that it lost if one had, or if it is of a first occurrence on a machine older than the store; and that it failed if its answer is lost |
| AnalyticsInstall.SpentIsNeverCaptured | src/lib/analytics.ts:721-727 | A milestone whose marker was spent is captured at no point of the history, whatever consent becomes |
| AnalyticsInstall.OptOutPostedOnce | src/lib/analytics.ts:617-655 | `diagnostics_opted_out` is posted at most once per install |
| AnalyticsInstall.MarkersStay | src-tauri/src/platform.rs:1851-1854 | A marker once written stays, with the claim that won it |
| AnalyticsInstall.RecordSays | crates/core/src/analytics.rs:693-757 | Over every history the identity record names the account last stored, and nobody from a sign-out or a loss of it until the next; and says the install was identified exactly when a save that reached the disk, refused or not, said so, or it could not be read |
| AnalyticsInstall.OnlyAnUntoldOwnerMergesTheInstall | src/lib/analytics.ts:1128-1156 | Over any history the install id is merged only by a window that owns sign-in and was not told the install had been identified |
| AnalyticsOnce.InstallMergedOnceIff | docs/analytics-events.md:31-45 | Over every history, with any number of windows and launches, the install id is merged at most once exactly when no window goes through with a due merge once another has merged it |
| AnalyticsOnce.InstallMergedTwice | src/lib/analytics.ts:820-831 | A history, for any two accounts, in which two launches merge the install id into both, though the record said it was identified when the second opened |
| AnalyticsInstall.InstallMergedOnce | docs/analytics-events.md:31-45 | The install id is merged at most once per install over every history in which the record that says so reaches the next launch's main window |
| AnalyticsSession.UnknownIsNoSignOut | src/lib/analyticsSession.ts:8-48 | Facts from a reading that could not tell never say signed in, and are no reason to leave any account; an API key's org is the gateway's answer alone |
| AnalyticsSession.OfflineKeepsTheAccount | src/lib/analyticsSession.ts:12-19 | Any number of unread accounts and unavailable sessions, in any order with anything else but a sign-out, leave a client on its account |
| AnalyticsSession.SignOutRegroups | src/lib/analyticsSession.ts:34-48 | A signed-out OAuth account whose file keeps an org leaves the client on a fresh id and grouped under that org |
| AnalyticsLaunch.SignOutRegroupsRun | src/lib/analyticsSession.ts:34-48 | A run, for every account and org, in which a client signed in to both is moved off the account and grouped under the org it left |
| AnalyticsSession.GatewaySawTraffic | src/lib/analyticsSession.ts:65-69 | True exactly when some row is this machine's and does not say it saw no request |
| AnalyticsSeam.Seam.ResetClientNow | src/lib/analytics.ts:1106-1115 | A reset leaves the client on a fresh id with no group, opted out unless sharing is on |
| AnalyticsSeam.Seam.ApplyGroupNow | src/lib/analytics.ts:1014-1026 | Behind an open gate the client's group becomes the install's org, or none; the early returns change nothing |
| AnalyticsSeam.Seam.SyncToStoredIdentity | src/lib/analytics.ts:1147-1157 | The handler does what its step does: reset, identify the stored account if there is one, regroup |
| AnalyticsSeam.Seam.PersistIdentity | src/lib/analytics.ts:934-970 | A record is saved once for each change of what it would say, and not at all before the stored one is adopted or while the session is unknown |
| AnalyticsSeam.Seam.ApplyIdentityNow | src/lib/analytics.ts:1081-1092 | The handler does what its step does |
| AnalyticsSeam.Seam.FunnelItem | src/lib/analytics.ts:286-307 | The four states of the funnel run, hold within the caps, spend or drop one item |
| AnalyticsSeam.Seam.SettleHeld | src/lib/analytics.ts:310-330 | The two loops over what was held, and the state they leave, are the step's |
| AnalyticsSeam.Seam.NoteSessionNow | src/lib/analytics.ts:898-922 | The handler does what its step does |
| AnalyticsSeam.Seam.LeaveAccount | src/lib/analytics.ts:904-914 | The account comes off the client and off the record exactly when the session is known to have left it |
| AnalyticsSeam.Seam.FollowIdentityNow | src/lib/analytics.ts:1128-1144 | The handler does what its step does |
| AnalyticsSeam.Seam.OrgArrives | src/lib/analytics.ts:884-891 | Once an org is known the client is regrouped and every waiting milestone woken |
| AnalyticsSeam.Seam.ClientComesUp | src/lib/analytics.ts:482-512 | The start past its reads, with the flush of what was queued, is the step's |
| AnalyticsSeam.Seam.ApplyConsentNow | src/lib/analytics.ts:563-592 | A consent change up to its first wait, in both directions |
| AnalyticsSeam.Seam.PreferencesArrive | src/lib/analytics.ts:356-364 | A preference read never overrides an answer given meanwhile, and decides the boot |
| AnalyticsSeam.Seam.WaitsOver | src/lib/analytics.ts:716-721 | A milestone held already is not held twice |
| AnalyticsSeam.Seam.OrgWaitOver | src/lib/analytics.ts:731-744 | After the org wait a milestone is dropped, spent because sharing went off, or claimed |
| AnalyticsSeam.Seam.SendBase | src/lib/analytics.ts:227-235 | A base event is sent, queued under the cap while consent is being decided, or dropped |
| AnalyticsSeam.Seam.IdentityArrives | src/lib/analytics.ts:820-831 | A read that settles, answered or rejected, is adopted before anything is made of the session |
| AnalyticsSeam.Seam.SaveAnswers | src/lib/analytics.ts:948-1004 | A save that did not land is forgotten unless something newer was sent, and retried a bounded number of times |
| AnalyticsSeam.Seam.ClaimAnswers | src/lib/analytics.ts:745-765 | What a won, lost or rejected claim makes of what waited for it |
| AnalyticsSeam.Seam.Handle | src/lib/analytics.ts:346-374 | For everything that can happen to a window, the handler leaves its variables as the step does, and with the seam's whole invariant |
| CredentialRuns.OAuthEngineHoldsNoKeyIff | src-tauri/src/commands.rs:568-584 | Over every run, with any call failing and the loop's turns between any two calls, every command leaves the engine of an OAuth account without a key, exactly when no turn pushes a key into a running engine of an account that is, or is about to be, on OAuth |
| CredentialRuns.StaleKeyReachesOAuthEngine | src-tauri/src/lib.rs:3867-3879 | From any idle API-key account with its engine, a run to an idle OAuth account whose engine holds the old key |
| CredentialRuns.PastedKeyTakesOver | src-tauri/src/commands.rs:477-511 | Whatever turns fall between its calls, an accepted paste is through with the account in API-key mode, the key stored, and any running engine injecting it |
| CredentialRuns.RefusedPasteChangesNothing | src-tauri/src/commands.rs:477-511 | Whatever turns fall between its calls, a save that fails, wherever it does, or that pastes no key, is through with the mode as it was and no call of its own has touched an engine; with no key pasted the stored one is as it was |
| CredentialRuns.AccountKeyStaysIff | src-tauri/src/commands.rs:490-506 | From any idle moment with the engine on the account's key (none, under OAuth), every engine, then or later, stays on it in every continuation that leaves that key alone, exactly when no turn of the loop has another key in hand |
| CredentialRuns.StaleKeyOutlivesPaste | src-tauri/src/lib.rs:3867-3879 | From any idle API-key account, a run through an accepted paste to a moment when a turn has the old key in hand |
| CredentialSession.SignedOutStaysOutIff | src-tauri/src/commands.rs:696-727 | When a sign-out that reports success is through, in any run: no session is stored and no engine holds a bearer in any continuation that signs nobody in, exactly when no session is stored by then and no renewal is past its check |
| CredentialSession.RenewalOutlivesSignOut | crates/core/src/oauth.rs:926-937 | From any idle signed-in OAuth account, a renewal passes its check, a sign-out completes, the renewal is stored, and the next engine holds its token |
| CredentialSession.BearerOffOAuthIff | src-tauri/src/lib.rs:5838-5848 | At every point of every run, an engine off OAuth holds a bearer exactly when a change of mode, a cleared account, or a push of a live reading under the current sign-in epoch put it there, and no paste, sign-out, shutdown, return to OAuth or turn of the loop has taken it since |
| CredentialSession.PasteRacesTheRefresh | src-tauri/src/commands.rs:494-506 | From any idle signed-in OAuth account, a run that ends in API-key mode with the pasted key and the old bearer both in the engine |
| CredentialBearer.PastedOverBearerIff | src-tauri/src/commands.rs:494-506 | In every run, an accepted paste is through with a bearer in a running engine exactly when the loop pushed a live reading, taken under the current sign-in epoch, after the paste's own call dropped the bearer, and nothing has cleared it since |
| CredentialBearer.BareStaysIff | src-tauri/src/lib.rs:5838-5848 | At an idle moment of any run, with an API-key account, its key and no bearer in an engine: no engine gets one in any continuation that stays off OAuth exactly when no turn in flight can still push a live reading |
| CredentialGateway.SwitchStaysPinned | src-tauri/src/commands.rs:548-565 | No state of a gateway switch, wherever it stops, has an engine up against a gateway it was not started from; none is up once the account has moved, or the switch succeeded |
| CredentialGateway.SavePinnedIff | src-tauri/src/commands.rs:477-511 | Saving an account leaves the engine pinned exactly when it sends the engine's URL, no engine is up, or no file was written |
| CredentialGateway.SaveUnpins | src-tauri/src/commands.rs:477-489 | From any idle world with an engine, a save that leaves it up against another gateway |
| CredentialGateway.EngineStaysPinned | src-tauri/src/commands.rs:545-565 | Over every run whose saves send the running engine's gateway, every state of every command has the engine pinned |
| CredentialGateway.PinnedAlongIff | src-tauri/src/commands.rs:454-487 | A run keeps its engine pinned at every state exactly when every write of the account file under a running engine names that engine's gateway |
| CredentialOutcomes.SwitchLeaves | crates/core/src/account.rs:340-380 | In every run, with turns of the loop between any two calls, what a gateway switch leaves, by its own fields: refused or with a tool still in, everything; not halted for certain, the account; halted, no engine and, by how far it got, the file on the new URL in its old mode, no key, and no session exactly unless a renewal has been stored since it was deleted. It reports success exactly when all of that landed |
| CredentialOutcomes.ClearLeaves | src-tauri/src/commands.rs:515-542 | In every run, what disconnecting the account leaves: the engine as it was and, by how far it got, no file, no key, and no session exactly unless a renewal has been stored since; everything, with a tool still in |
| CredentialOutcomes.SaveLeaves | src-tauri/src/commands.rs:477-511 | In every run, what a save leaves: the session and whether an engine is up alone; the file on the URL sent, in API-key mode exactly when a pasted key was put on record; a pasted key stored even where the file could not follow; nothing, where it was refused |
| CredentialOutcomes.ModeLeaves | src-tauri/src/commands.rs:568-584 | In every run, what a change of mode leaves: key, session and engine alone, the mode on record unless it cannot be, and no key in the engine just after a switch to OAuth |
| CredentialOutcomes.SignOutLeaves | src-tauri/src/commands.rs:696-727 | In every run, what a sign-out leaves: file, key and engine as they were, no session exactly unless a renewal has been stored since it was deleted, and no bearer in the engine just then |
| CredentialOutcomes.LoginLeaves | src-tauri/src/commands.rs:1383-1421 | In every run, what a sign-in leaves: its session unless a renewal has been stored since, the key as it was and, with the mode on record, an OAuth account whose engine holds its token just then; everything, where it was refused |
| CredentialOutcomes.ConnectLeaves | src-tauri/src/commands.rs:142-173 | In every run, what connecting a tool leaves: the account alone; an engine that is up; else one started exactly if the account loads (a key, off OAuth) and nothing fails, for its gateway, with its key or its session's token |
| CredentialOutcomes.OffLeaves | src-tauri/src/commands.rs:1030-1053 | In every run, what switching routing off leaves: the account alone, and no engine unless it would not halt |
| CredentialOutcomes.RefreshReachesEngine | src-tauri/src/lib.rs:5838-5850 | From any world with an OAuth account's engine up and a session stored, a turn that reads it usable brings the engine its token |
| CredentialOutcomes.RenewalReachesEngine | crates/core/src/oauth.rs:926-960 | One that has it renewed stores what it was granted and brings that |
| CredentialOutcomes.KeyReachesEngine | src-tauri/src/lib.rs:3867-3879 | Off OAuth, or with the mode unread, a turn that loads the account pushes its key if it has one to push, and takes the bearer out either way |
| CredentialOutcomes.ReadingIsBrought | src-tauri/src/lib.rs:5838-5850 | In every run a turn's push brings what the turn read: its token where the session is usable, nobody where it was refused or is gone, and nothing, so that the engine keeps its bearer, where it could not be read or a sign-in or sign-out has landed since |
| CredentialOutcomes.RenewalIsBrought | crates/core/src/oauth.rs:920-950 | In every run, of a renewal: refused, nobody; unanswered, nothing; granted after the session changed, what is stored now, if that is usable |
| CredentialOutcomes.TurnTakesTheBearer | src-tauri/src/lib.rs:5838-5850 | A turn that pushes off OAuth, or finds nobody signed in under the current epoch, takes the bearer out |
| CredentialPlatform.Platform.SaveAccountCommand | src-tauri/src/commands.rs:477-511 | The command makes exactly the calls of its plan, in order, and reports what it did |
| CredentialPlatform.Platform.SwitchGatewayCommand | src-tauri/src/commands.rs:548-565 | As above: tools, engine, account, with an early return after each |
| CredentialPlatform.Platform.Repoint | crates/core/src/account.rs:340-380 | The stages of the core's switch, each of which may be the last to land |
| CredentialPlatform.Platform.SetAuthModeCommand | src-tauri/src/commands.rs:568-584 | As above; only a switch to OAuth touches the engine |
| CredentialPlatform.Platform.OAuthSignOut | src-tauri/src/commands.rs:696-727 | As above: session, generation, epoch, then the bearer |
| CredentialPlatform.Platform.OAuthBeginLogin | src-tauri/src/commands.rs:1383-1421 | As above: session, mode, key out, bearer in |
| CredentialPlatform.Platform.ConnectToolCommand | src-tauri/src/commands.rs:142-173 | As above, as far as the engine: one is started from the account as it is, unless one runs |
| CredentialPlatform.Platform.ClearAccountCommand | src-tauri/src/commands.rs:515-542 | As above: file, key and session go, up to the stage that fails, and the engine is left to the caller |
| CredentialPlatform.Platform.LeavesDone | src-tauri/src/commands.rs:477-584 | What a command leaves behind is what the calls of its plan come to, one after another |
| Exit.TeardownAtMostOnce | src-tauri/src/commands.rs:1469-1488 | Over every run of quits, marks, restart notes and exits, the tool teardown is begun at most once |
| Exit.EveryExitReverts | src-tauri/src/commands.rs:1506-1592 | In every run an exit attempts the proxy revert, the teardown begun by then unless this is mark and restart, exactly when the record of a clean exit does not panic, however the teardown ended; mark and restart leaves a pending opt-out and its item alone |
| Exit.CatchSavesTheRevert | src-tauri/src/commands.rs:1551-1570 | Without the catch, an exit that reaches its record loses the revert exactly when its own teardown panics |
| Exit.ExitDoesInOrder | src-tauri/src/commands.rs:1551-1585 | In every run an exit begins the teardown if it is its to begin, records a clean exit, and past each call that does not panic reverts the proxy and forgets the relay, in that order; routing is off exactly after a revert that went through |
| Exit.QuitAsksToExit | src-tauri/src/commands.rs:1469-1488 | In every run a first quit begins the teardown; each that comes back from it asks the app to exit, last of all, with its notice if there is one; and nothing else does |
| Exit.RelaunchIsMarkAndRestart | src-tauri/src/commands.rs:1602-1636 | In every run an exit is taken for the updater's relaunch exactly while the updater's mark stands and a restart has been asked for |
| Exit.NetComesAndGoes | src-tauri/src/commands.rs:1030-1053 | In every run routing on arms its net once, and leaves item and mark alone wherever that fails before it registers; routing off, or an exit that is no relaunch and gets past its calls, completes a deferred opt-out; an exit that does not leaves it be |
| Exit.OnlyTheSettingMovesTheSwitch | src-tauri/src/commands.rs:1227-1238 | Safe points, the safety net, exits and relaunches all leave the launch-at-login switch as it was |
| Exit.SettingShowsWhatWasAsked | src-tauri/src/commands.rs:1242-1272 | A change that succeeds shows; one that fails moves the switch exactly when it had cleared a deferred opt-out's marker over a registered item |
| Exit.SwitchShowsLastAnswer | src-tauri/src/commands.rs:1227-1272 | Over every run the switch shows the last accepted answer since which no change was tried |
| Exit.NetLostWhileRoutedIff | src-tauri/src/commands.rs:1571-1589 | The login item goes while the proxy is still routed exactly on an exit whose revert reported a failure with an opt-out pending |
| Exit.ExitsThatStrand | src-tauri/src/commands.rs:1569-1589 | A run whose clean-exit record panics and never attempts the revert, and one whose revert fails and loses the login item with the proxy routed |
| Exit.FailedOffTurnsOn | src-tauri/src/commands.rs:1242-1272 | A run in which turning the setting off fails and turns the switch on |
| Exit.App.ClaimQuitTeardown | src-tauri/src/platform.rs:1746-1748 | True once, and never again |
| Exit.App.QuitApp | src-tauri/src/commands.rs:1469-1474 | The quit up to its wait |
| Exit.App.QuitAppResumes | src-tauri/src/commands.rs:1475-1488 | The quit past its wait: how the teardown ended, its notice, and the exit asked for |
| Exit.App.OnExit | src-tauri/src/commands.rs:1506-1592 | The exit's effects, in order, for every outcome of its calls |
| Exit.App.CompleteOptOut | src-tauri/src/lib.rs:962-981 | The item and the marker go together, or the marker stays to try again |
| Exit.App.SetLaunchAtLogin | src-tauri/src/commands.rs:1242-1272 | The setting with its early returns |
| Exit.App.ProxyDisable | src-tauri/src/commands.rs:1030-1053 | Routing off, then the deferred opt-out; nothing at all when turning off fails |
| Reopen.QueueHoldsOnePerApp | src-tauri/src/commands.rs:1329-1338 | Over every run of closes and reopens the queue holds at most one launch of an app |
| Reopen.AskedOncePerApp | src-tauri/src/commands.rs:1320-1328 | A close asks for one launch of each app it can put back, that of its first such process |
| Reopen.EntryLeavesOnlyFor | src-tauri/src/commands.rs:1329-1356 | An entry leaves only for a later close of its app, which replaces it, or a reopen naming it, which attempts it |
| Reopen.LaunchesNeverExceedCloses | src-tauri/src/commands.rs:1315-1375 | Launches of an app attempted and queued never exceed the closes that asked for one, and none asked for is lost without a later one |
| Reopen.QueueKeepsOrder | src-tauri/src/commands.rs:1329-1356 | In every run a close keeps what it does not replace in order, and puts its own launches behind; a reopen attempts what it takes, and keeps the rest, in order |
| Reopen.Platform.CloseRunningAgents | src-tauri/src/commands.rs:1315-1340 | The loops over the closed processes and the queue leave the queue the step does |
| Reopen.Platform.ReopenRunningAgents | src-tauri/src/commands.rs:1345-1375 | The partition takes exactly what is named, and each entry taken is attempted once, in order |
| AgentOrder.ReportIsSortedWalk | src-tauri/src/commands.rs:1288-1304 | The report is a sorted permutation of the walk |
| AgentOrder.ReportIgnoresWalkOrder | src-tauri/src/commands.rs:1290-1303 | With distinct pids, two walks of the same processes give the same report |
| AgentOrder.FirstRowSpeaksBest | src-tauri/src/commands.rs:1294-1303 | The first row of an app is its oldest process and, among those of its second, one that can be relaunched if any can |
| AgentOrder.RunningAgents | src-tauri/src/commands.rs:1283-1309 | The rows, sorted in place, are that report |
| ToolIntent.UnreadableSaysLastAnswer | src-tauri/src/commands.rs:104-126 | Over any history an unreadable tool's switch says the answer last recorded for it, off if none was |
| ToolIntent.UnreadableShowsTheSideRead | src-tauri/src/commands.rs:83-96 | In every history, after a read whose record was written and while nothing answers, an unreadable tool's switch is on exactly if it was connected, drifted or overridden then; a tool not installed changes nothing on record |
| ToolIntent.OnlyDisconnectsRewrite | src-tauri/src/commands.rs:189-202 | A tool's config is rewritten once for each of its disconnects that could read it and came to write it, and by nothing else: one that goes through always has, and a config that cannot be read is never rewritten |
| ToolIntent.RefusedReadsOff | src-tauri/src/commands.rs:183-198 | After a refused disconnect the switch reads off while nothing answers, and the config is as it was |
| ToolIntent.Platform.ReadOne | src-tauri/src/commands.rs:104-126 | A read that answers is recorded when it can be, and shown either way |
| ToolIntent.Platform.DisconnectTool | src-tauri/src/commands.rs:189-202 | The command with its early returns |
| ActivityRead.ScreenIsOfScope | src/lib/activity.ts:483-555 | For every order of replies, commits, effects, disables and reloads: the view was read for the current scope, or, between a commit of a new scope and its effects only, for the one before; and the pane is loading exactly while the current attempt's network read is not over |
| ActivityRead.OldViewUntilTheEffects | src/lib/activity.ts:533-538 | Every commit of a new scope over a view leaves the old view up until its effects, which clear it |
| ActivityRead.AnswerIsFinal | src/lib/activity.ts:493-530 | Once an attempt's network read has answered, nothing it still has in flight changes the view: no cached body lands late |
| ActivityRead.AnswerIsShown | src/lib/activity.ts:510-516 | In every run the network's answer to the current attempt is on screen, for the scope it was asked for and with no failure, for as long as the attempt is current |
| ActivityRead.FailureIsShown | src/lib/activity.ts:517-524 | In every run a failure of the current attempt is shown beside what was on screen, and both stay for as long as it is current |
| ActivityRead.CacheIsShownIff | src/lib/activity.ts:500-508 | In every run the cache's body is shown exactly if it is the current attempt's, parses, and the network has not answered |
| ActivityRead.UnreadableIsNotShown | src/lib/activity.ts:510-524 | An answer that will not parse shows nothing and leaves the attempt to fail |
| ActivityRead.LateIsDropped | src/lib/activity.ts:479-487 | In every run a reply of any attempt but the current one changes nothing on screen |
| ActivityRead.ReadsAgain | src/lib/activity.ts:483-498 | In every run a retry, and the effects of a change, start a new attempt for the current scope exactly while the pane is switched on; only the effects of a new scope clear the screen |
| ActivityRead.EnabledIsReading | src/lib/activity.ts:533-555 | At every point of every run, a pane switched on whose effects have run has its current attempt for the scope on screen |
| ActivityRead.OffKeepsTheReading | src/lib/activity.ts:544-553 | Once the effects of switching off have run, and while it stays off, no reply and no retry changes what is shown, and it is not loading |
| ActivityRead.Activity.constructor | src/lib/activity.ts:463-491 | The first render runs every effect |
| ActivityRead.Activity.Render | src/lib/activity.ts:463-482 | A commit takes the new scope and switch, and nothing else yet |
| ActivityRead.Activity.RunEffects | src/lib/activity.ts:533-555 | Its effects run, in order, those whose dependencies changed |
| ActivityRead.Activity.ReloadNow | src/lib/activity.ts:483-498 | A reload supersedes what was in flight, and does nothing while switched off |
| ActivityRead.Activity.CacheReply | src/lib/activity.ts:500-508 | A cached body lands only on the current attempt, before its answer |
| ActivityRead.Activity.NetReply | src/lib/activity.ts:510-516 | An answer lands only on the current attempt; one that will not parse is left to the rejection |
| ActivityRead.Activity.NetRejection | src/lib/activity.ts:517-524 | A failure keeps the view it found |
| ActivityRead.Activity.NetFinally | src/lib/activity.ts:525-527 | Only the current attempt ends the loading |
| HourlyRead.UntilRollover | src/lib/activity.ts:453-461 | The wait runs to the start of the next hour, and the drawn part of the spread past it |
| HourlyRead.OncePerHour | src/NewUiApp.tsx:877-889 | For every choice of the spread, with spread and lateness under an hour, the read fires exactly once in each hour after the mount's |
| HourlyRead.NothingSkippedIff | src/NewUiApp.tsx:877-889 | A firing is in the very next hour exactly when its spread and lateness stay under an hour |
| HourlyRead.GapAtLeast | src/lib/activity.ts:428-436 | Two firings are at least an hour apart, less the spread and lateness of the earlier, when that was not an hour late |
| MissedSenders.SendersConserved | src/NewUiApp.tsx:816-854 | Over every order of traffic, hiding, showing, focus and the hour: the senders reported are those handed to refreshes and those still missed, each exactly as often |
| MissedSenders.BackOnScreenMissesNobody | src/NewUiApp.tsx:843-848 | In every run, a way back on screen leaves nobody missed: every sender reported has been handed to a refresh, each exactly as often |
| MissedSenders.ReadsExactlyWhen | src/NewUiApp.tsx:829-886 | In every run a refresh is made exactly for traffic seen, for what was missed at the next way back on screen, at a focus half a minute or more after the last read, and at the hour in a visible window, for those senders or for everything |
| MissedSenders.FocusReadsAreSpaced | src/NewUiApp.tsx:1280-1295 | A focus read with nothing missed comes at least half a minute after the read before it |
| MissedSenders.AppWindow.OnTraffic | src/NewUiApp.tsx:829-838 | A report is remembered while hidden and read for otherwise |
| MissedSenders.AppWindow.OnVisible | src/NewUiApp.tsx:843-848 | The visibility edge |
| MissedSenders.AppWindow.OnFocus | src/NewUiApp.tsx:1288-1295 | The focus edge, with its age guard |
| MissedSenders.AppWindow.OnHour | src/NewUiApp.tsx:880-886 | The hour, which a hidden window lets pass |
| Fingerprint.StepIsBijective | crates/core/build.rs:76-81 | For every byte the FNV-1a step is a bijection on 64-bit states, with an explicit inverse |
| Fingerprint.UpdateConcat | crates/core/build.rs:76-81 | Hashing a concatenation is hashing its parts in turn |
| Fingerprint.UpdateSeparates | crates/core/build.rs:76-81 | Two states stay different under every further input |
| Fingerprint.OneByteChanges | crates/core/build.rs:76-81 | Two inputs that differ in one byte hash differently |
| Fingerprint.TwoBytesChange | crates/core/build.rs:76-81 | So do two that differ in two neighbouring bytes, however |
| Fingerprint.KnownHashes | crates/core/build.rs:71-81 | The published FNV-1a hashes of the empty text and of "a" |
| Fingerprint.Fnv1a.constructor | crates/core/build.rs:71-74 | The offset basis |
| Fingerprint.Fnv1a.UpdateWith | crates/core/build.rs:76-81 | The byte loop computes the fold |
| CoreSources.CollectedAreSources | crates/core/build.rs:54-66 | Exactly the `.rs` files of the tree are collected, each once, for every listing order |
| CoreSources.FingerprintIgnoresListingOrder | crates/core/build.rs:41-51 | Two listings of one tree give one fingerprint |
| CoreSources.ByteChangeIsDetected | crates/core/build.rs:13-15 | A change of one byte in one source, all else equal, changes the fingerprint, however each tree is listed |
| CoreSources.TwoByteChangeIsDetected | crates/core/build.rs:13-15 | So does a change of two neighbouring bytes in one source, however |
| CoreSources.VersionChangeIsDetected | crates/core/build.rs:41-51 | Of one tree, however it is listed each time, two versions that are the same but for one byte have one fingerprint exactly if they are one version |
| CoreSources.TwoByteVersionChangeIsDetected | crates/core/build.rs:41-51 | So with two neighbouring bytes |
| CoreTree.SourcesAreReachedFiles | crates/core/build.rs:54-66 | The sources of a tree are exactly the files reached through its directories, at any depth, whose extension is `rs` |
| CoreTree.RustIffExtension | crates/core/build.rs:60-63 | A name is taken exactly for what follows its last dot, when something precedes that |
| CoreTree.ReachedIsRead | crates/core/build.rs:47-50 | What is hashed of a file reached so is what can be read of it, or nothing |
| CoreTree.TextIsInjective | crates/core/build.rs:47-49 | Two paths of proper components are hashed as the same text exactly if they are the same path |
| CoreTree.PathBeforeIff | crates/core/build.rs:43-43 | Paths are sorted by the first component in which they differ, a prefix first |
| CoreTree.NameBeforeIff | crates/core/build.rs:43-43 | And components by their first different byte |
| CoreSources.BoundaryIsNotHashed | crates/core/build.rs:47-50 | Two different trees with one fingerprint |
| CoreSources.CollectRsFiles | crates/core/build.rs:54-66 | The recursive walk pushes exactly the collected files onto its output |
| CoreSources.Digest | crates/core/build.rs:41-51 | Collect, sort, hash |
| EventLog.Events | src-tauri/examples/ui-harness.rs:348-385 | The long poll answers with the whole log past the offset at the first look that finds any, with nothing at the same offset if none of its looks does, and with the log's end to an offset past it |
| EventLog.PageHandsOnTheLog | e2e/live/install.ts:180-205 | Under lost replies, empty polls and reloads, each load of the page hands on exactly a contiguous segment of the log from its start, in order, and between them nothing is left out |
| EventLog.PageCatchesUp | e2e/live/install.ts:180-205 | In every run, once the answer to a poll is received and its batch delivered, the page has handed on, from where it started, all of the log as it stood when the poll was served, goes on from there, and so does its next load if storage took that |
| EventLog.LostIsAskedAgain | e2e/live/install.ts:176-205 | In every history a poll that is lost, or that nothing came of, leaves the page to ask again from where it was |
| EventLog.ReloadRepeatsOnlyTheBatch | e2e/live/install.ts:153-176 | While storage works, a reload starts where the batch in flight began and repeats only what was handed on of it |
| EventLog.ReloadNeverSkips | e2e/live/install.ts:153-170 | When it does not, a reload still never starts past what was handed on |
| EventLog.RestartMissesTheStart | src-tauri/examples/ui-harness.rs:354-367 | After a restart, from the first answer the page receives, a load hands on exactly the new log from its old offset on, or from where the new log ended then if that is less, in order, each event once; what is before that it misses |
| EventLog.RestartMissesAnEvent | src-tauri/examples/ui-harness.rs:354-367 | A history in which a restarted harness's first event is never handed on |
| EventLog.Bridge.Drain | e2e/live/install.ts:188-202 | One answer is delivered in order, then the offset advances, then it is saved |
| Notices.KeySeparates | src/lib/activityGaps.ts:131-133 | Two notices share a key exactly when they share a cause and the kinds of their actions, whatever the cause says |
| Notices.GroupsPartition | src/lib/activityGaps.ts:130-137 | The groups are headed by the first notice of each kind in first-seen order, and each is every notice like its head |
| Notices.OneNoticePerCause | src/lib/activityGaps.ts:139-150 | One notice for each distinct cause and remedy, in first-seen order, saying that cause and offering those actions |
| Notices.EveryGapCoveredOnce | src/lib/activityGaps.ts:130-137 | The groups hold the notices between them, each once |
| Notices.ActivityIffAllAlike | src/lib/activityGaps.ts:139-158 | A merged notice says "Activity" exactly when every gap has its cause and remedy; otherwise it lists its subjects, and a lone one is unchanged |
| Notices.EverySubjectIsNamed | src/lib/activityGaps.ts:153-158 | Every gap's subject is named in the notice with its cause and remedy, unless that speaks for the whole reading |
| Notices.SubjectsAreListed | src/lib/activityGaps.ts:153-158 | Two subjects are joined by "and", and each more goes in front with a comma |
| Notices.MergeIsIdempotent | src/lib/activityGaps.ts:129-151 | Merging twice is merging once |
| Notices.GroupMap.Add | src/lib/activityGaps.ts:131-137 | A notice joins the group under its key, or starts one at the end |
| Notices.MergeNotices | src/lib/activityGaps.ts:129-151 | The two loops compute the merge |

## Left out

- The two-way calls into posthog-js, `fetch`, Tauri's IPC and React: a client is its distinct id, its opt-out and its group, and client calls do not throw, as `safely` sees to.
- posthog-js's storage is shared by the windows of an install, where the model gives each window a client of its own: an opt-out or an id one window persists is seen by another only as the client a window is opened with.
- What makes a marker store legacy (evidence of an earlier run, a store moved aside as corrupt): whether it is one is given, and stays; an unknown milestone name, which is refused, is none here.
- Event properties, timestamps, the base event names, and the five-minute quiet time of a repeated connection failure: a failure that gets past it may arrive at any step.
- `useInstallations` in `src/lib/activity.ts`, whose clear is skipped when an account change is committed in the same render as a reload.
- Daylight saving: the reader's clock in `HourlyRead` has hours of equal length.
- The routing engine, the relay, certificates, the browser half of a sign-in and URL checks: `allowed` and the failure of each call are parameters of a command.
- `set_org`, `set_billing_mode`, dashboards, preferences and the simple getters of `commands.rs`: easy members.
- The account commands run one at a time, with any number of the loop's turns between their calls; the command-line tool makes no change under a running app. A renewal after a clock jump and the re-check after a refused request are turns that take the bundle for expired, except that the re-check takes a dead session's bearer off an engine without the epoch guard.
- A renewed bundle that the secret store would not take is the session like a stored one; that a sign-out which then fails has dropped it is left out.
- A panic of any call but the teardown, the record of a clean exit and the proxy revert; a revert that panics is taken to have reverted nothing.
- The order in which React flushes effects: they run some time after their commit and before the next, and a retry in between reads for the new scope.
- `connect_tool`'s write of a tool's config: `ToolIntent` counts what disconnects do to it.
- The startup half of the login item's safe points, and the race between the setting and the safety net that `src-tauri/src/lib.rs` accepts.
- Causes, action labels and the two switches that produce notices (`failureNotice`, `sectionNotice`): a notice is any subject, cause and actions.
- Non-UTF-8 file names in the fingerprint, read errors on single directory entries, and Windows' separator.
- AnalyticsInstall.InstallMergedOnce: the record is assumed to reach the next launch, which is enough but more than needed; the exact condition is `InstallMergedOnceIff`. The main window is the only one that notes sessions, and there is one per launch.
- AnalyticsSeam.Seam.Handle: the module-level variables are the parts of one field, so it says nothing of them as separate locations.
- Exit.NetLostWhileRoutedIff: a process that crashes takes no step, so what the safety net then does at boot is not modelled.

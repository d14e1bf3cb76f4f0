# Verification of the coordination services

A Dafny model of the deterministic coordination services and the proofs of what
they guarantee over whole runs. Stores are classes whose methods are proved equal
to a specification function; services that await other services are state
machines in which every `await` is a point where anything else may run; pure code
is functions and lemmas. Theorems are stated over every run, every input and
every interleaving.

Check everything with `dafny verify dfyconfig.toml`.

## What is modelled

- **Recurring work** (`CalendarStore`, `CalendarEngine`, `CalendarInvariant`,
  `CalendarSafety`, `CalendarRuns`, `CalendarTheorems`, `CalendarTwoRequesters`,
  `CalendarWindows`, `CalendarDue`, `CalendarProcess`, `CalendarLaws`). The
  calendar store, the evaluation engine with its per-template lock, claim table,
  checkpoint cursor and bounded retries, and Relay's idempotent submission, which
  may commit and then throw. Evaluations, template edits and job progress
  interleave freely.
- **Two-stage start** (`SchedulerStore`, `SchedulerService`, `Eligibility`,
  `EligibilityMeaning`, `SchedulerMeaning`).
  Leases with lazy expiry under a clamped clock, the issuance table with its
  eviction rule, the reservation read before an await, and the Company-State
  composition behind the decision.
- **Jobs** (`RelayStore`, `JobProjection`, `RelayService`, `RelayLaws`, `RelayPaths`,
  `GatewayMeaning`, `RecentWork`). The job
  store with its exclusive worker and model paths, the service and gateway as
  threads over it, and the newest-first projection with the overview that reads it.
- **Freshness** (`FreshnessTokens`, `FreshnessProtocol`, `FreshnessMeaning`). The multi-process epoch
  file with lock, atomic rename, directory sync, faults, process deaths and host
  crashes, and the client that accepts only newer tokens.
- **Evidence** (`Evidence`, `JobTrace`, `JobTraceMeaning`, `JobEmission`,
  `GatewayEvidence`, `JobCompleteness`, `JobRejections`). The job-trace assessor and the evidence Relay and the Tool
  Gateway emit, proved to fit each other exactly.
- **Memory** (`AuthorityScan`, `MemorySelection`, `SelectionMeaning`, `MemoryTrace`,
  `ContextTraceMeaning`, `MemoryEmission`, `ContextEvidence`, `MemoryAcceptance`,
  `MemoryWoven`). The bounded graph scan, the selection
  pipeline, the context assessor, and the acceptance of every attempt wherever its
  records land in the trace.
- **Workforce** (`WorkforceStore`, `WorkforceService`, `WorkforceMeaning`). Revisioned records with
  superseded history, operation table and indexes, under ambiguous writes.

`Common` holds the shared option type. The modules whose names end in `Meaning`,
`Laws`, `Paths`, `Process`, `Due` or `Evidence` state what each operation does in
the fields of its inputs and records, without the functions that compute it: which
window is claimed and when, what a decision rests on, when a call is accepted and
what it answers.

## Conventions and assumptions

- Identifiers and names are natural numbers (with a length where a bound on text
  matters), instants are integer milliseconds, and hashes are injective: a
  fingerprint is the data it fingerprints. Where the code builds a key or a
  fingerprint out of text, the model has the text: agents, capabilities, roles and
  departments of the workforce are strings, and its unique key is the joined
  string.
- Identifier sources give unused ids. The Calendar engine treats a job id already
  in the store as a failed submission; the Scheduler theorems assume fresh event
  ids (`FreshIds`); the once-only theorems of the job store assume that the id of
  the job in question is not claimed again (`NeverReused`), and `OnceIffNotReused`
  shows that this is exactly what they need. Spans of a submission or an attempt
  are distinct and well formed and names are at most 160 long.
- Recurring keys are submitted by the Calendar only. Relay resolves the requester
  of every submission afresh, and the model leaves that to each event.
- Authorizers, grants, workers, models, evidence intake and the outside clock are
  inputs and may answer anything at every step; the evidence sink may throw at every
  append an evaluation makes.
- Where code and its guarantee differ, the code is kept and the exact condition is
  proved: Relay files a key under the requester resolved for the call, so a slot has
  one job exactly when its claims resolved one requester (`OneJobIffOneRequester`),
  the next claim keeps one job exactly when it resolves the requester of the job
  that is there (`NextClaimIff`), and one live job per template exactly when it
  opens no second one (`NextLiveIff`, over runs `AlwaysOneLiveIff`;
  `TwoRequestersTwoLiveJobs` is a failing run); the workforce's unique key joins two
  texts that may contain the separator (`RefusedIffSharesKey`, `CollidingPairs`, and
  `RefusedIffSharesPair` under a guard on agent ids); a request fingerprint spells
  an omitted role with a marker text (`SameFingerprintIff`, `MarkerIsReplayed`); a
  rename that was not followed by a directory sync may be undone and its epoch
  published again (`StandsIffSynced`, `UnsyncedIsPublishedAgain`); job ids are not
  checked for reuse (`OnceIffNotReused`); a terminal commit does not compare
  environments (`CommitKeepsProjectionIff`); a transition may end a job without a
  result (`ApplyKeepsResultIff`); the lease is known to hold only at the read before
  the await (`StillHeldIff`, `ConfirmedAfterRelease`); incident facts can help
  containment work (`ContainmentMayBecomeEligible`); a context attempt is accepted
  only once Relay has appended the record it hangs under (`AcceptedIffRecorded`).

## Model

| member | source | states |
|---|---|---|
| `CalendarStore.SimulatorCalendarStore.Observe` | adapters/simulator/src/calendar-store-simulator-adapter.js:26-30 | The high-water clock never goes back: the answer and the new mark are the later of the old mark and the instant. |
| `CalendarStore.SimulatorCalendarStore.AcquireTemplate` | adapters/simulator/src/calendar-store-simulator-adapter.js:39-44 | A token is granted exactly when nobody holds the template, and then only that lock is added. |
| `CalendarStore.SimulatorCalendarStore.ReleaseTemplate` | adapters/simulator/src/calendar-store-simulator-adapter.js:46-48 | Only the holder's own token gives the lock back; anything else leaves the store as it was. |
| `CalendarStore.SimulatorCalendarStore.PutRecurringTemplate` | adapters/simulator/src/calendar-store-simulator-adapter.js:50-72 | A template edit is refused while its evaluation is in progress, when its revision is not the next one, when it goes back in time or was retired; otherwise it is current and its revision is kept. |
| `CalendarStore.SimulatorCalendarStore.PutRecurringCheckpoint` | adapters/simulator/src/calendar-store-simulator-adapter.js:50-72 | A checkpoint moves to the next revision only and never to an earlier last evaluation. |
| `CalendarStore.SimulatorCalendarStore.Claim` | adapters/simulator/src/calendar-store-simulator-adapter.js:74-90 | One occurrence per template and scheduled instant, only under the template's lock and from an active definition; a second claim returns the first. |
| `CalendarStore.SimulatorCalendarStore.Update` | adapters/simulator/src/calendar-store-simulator-adapter.js:92-107 | An occurrence changes only under its lock, at its revision, while it is not final, and never loses attempts or time. |
| `CalendarLaws.ClaimIff` | adapters/simulator/src/calendar-store-simulator-adapter.js:74-90 | A claim is refused unless its holder has the lock and the record is well formed and new; a taken slot answers the stored record and changes nothing; a free one is filed exactly under an ACTIVE revision of its template. |
| `CalendarLaws.UpdateIff` | adapters/simulator/src/calendar-store-simulator-adapter.js:92-107 | An update is taken if and only if its holder saw the current revision of an occurrence still open and the outcome is a valid record that moves neither its time nor its attempts back; the fields it leaves. |
| `CalendarLaws.CheckpointIff` | adapters/simulator/src/calendar-store-simulator-adapter.js:50-72 | A checkpoint is written if and only if it is the first one, or the next revision and neither evaluated nor updated earlier. |
| `CalendarLaws.HeldUntilGiven` | adapters/simulator/src/calendar-store-simulator-adapter.js:39-48 | Over any run of lock calls a template stays with the token that took it until that token is given back, and meanwhile nobody else takes it. |
| `CalendarLaws.TakeAndGive` | adapters/simulator/src/calendar-store-simulator-adapter.js:39-48 | A free template can be taken, giving it back frees it, and another token gives nothing back. |
| `CalendarTheorems.AtMostOneLiveJob` | services/calendar/src/calendar-service.js:218-302 | In every state of every run, of any two jobs of one recurring template whose slots each resolved one requester, at least one is terminal, also when `accept` commits and then throws. |
| `CalendarTheorems.SlotGuarantees` | services/calendar/src/calendar-service.js:172-249 | Per slot: at most three accept calls, never more than the recorded attempts; a job's slot was attempted and is not SKIPPED; SUBMITTED names a job Relay holds for the slot's key; with one requester it is the only job of the slot. |
| `CalendarTheorems.OneJobPerRequester` | adapters/simulator/src/relay-store-simulator-adapter.js:105-140 | Whatever is resolved, a requester has at most one job of a slot. |
| `CalendarTheorems.OneJobIffOneRequester` | services/relay/src/relay-service.js:420-480 | After any run a slot has at most one job if and only if all claims made for it resolved the same requester. |
| `CalendarTheorems.NextClaimIff` | services/relay/src/relay-service.js:475-480 | With a job committed for a slot, the next claim for it leaves one job if and only if it resolves the requester of that job. |
| `CalendarTheorems.NextLiveIff` | services/relay/src/relay-service.js:475-480 | From any reachable state where a template has at most one live job, the next event keeps it so if and only if it reaches no claim for that template, or a key its requester has already filed, or no job of the template is going. |
| `CalendarTheorems.AlwaysOneLiveIff` | services/calendar/src/calendar-service.js:218-302 | Over whole runs: a template never had two live jobs if and only if every one of its claims met that condition. |
| `CalendarTwoRequesters.TwoRequestersTwoLiveJobs` | services/relay/src/relay-service.js:420-480 | A run in which the first attempt commits and throws and the retry resolves another requester: two live jobs for one slot, and SUBMITTED names the second. |
| `CalendarSafety.ReplayBinds` | adapters/simulator/src/relay-store-simulator-adapter.js:113-120 | What is filed under a slot and the resolved requester has the submission's fingerprint and is the job the occurrence asks for, so a conflict never answers the Calendar. |
| `CalendarTheorems.AttemptedNeverSkipped` | services/calendar/src/calendar-service.js:223-236 | Once an occurrence has made an attempt, no continuation of the run makes it SKIPPED. |
| `CalendarTheorems.ReviewFreezes` | services/calendar/src/calendar-service.js:264-272 | Once an occurrence of a template is REVIEW_REQUIRED, no continuation changes any occurrence of that template, creates a job for it or calls `accept` for it. |
| `CalendarTheorems.NeverThrows` | services/calendar/src/calendar-service.js:196-202 | An evaluation works only under a lock it holds, and it ends in a throw only in a step in which the evidence sink threw: the store never refuses its claim, update or checkpoint. |
| `CalendarTheorems.RunForward` | adapters/simulator/src/calendar-store-simulator-adapter.js:74-107 | Along any run occurrences, attempts, jobs and accept counts only move forward: nothing claimed is lost and final statuses stay. |
| `CalendarTheorems.WorkMoves` | services/calendar/src/calendar-service.js:256-302 | An evaluation at work touches the occurrences, accept calls, Relay keys and checkpoints of no template but the one it holds. |
| `CalendarRuns.RunKeeps` | services/calendar/src/calendar-service.js:252-303 | The inductive invariant behind the theorems, whoever the requesters are: at most one unsettled occurrence per template, predecessors cleared before a submission, locks, claims, jobs, requesters and evaluations in agreement, in every interleaving. |
| `CalendarSafety.UpdateSucceeds` | services/calendar/src/calendar-service.js:196-202 | Under the invariant the store never refuses the service's own update. |
| `CalendarSafety.GuardedKeeps` | services/calendar/src/calendar-service.js:237-249 | The updates made where `#process` catches: the write stands, what the evidence sink throws is swallowed, and only with all attempts used does the second, refused update end the evaluation. |
| `CalendarSafety.NonTerminalMeansFirst` | services/calendar/src/calendar-service.js:225-233 | A predecessor job that still runs means the occurrence in hand was never attempted, so skipping it skips no job. |
| `CalendarSafety.OneToRetry` | services/calendar/src/calendar-service.js:265-270 | The pending list of a locked template has at most one entry. |
| `CalendarRuns.ClaimResult` | services/calendar/src/calendar-service.js:172-185 | Under its lock and an active definition, a claim is granted, or the slot's existing record is returned. |
| `CalendarRuns.EditKeeps` | adapters/simulator/src/calendar-store-simulator-adapter.js:60 | A template edit during an evaluation is refused, so it cannot break what the evaluation relies on. |
| `CalendarWindows.WindowsConserved` | services/calendar/src/calendar-service.js:273-300 | For a template whose schedule never changed, each consumed window range begins where the previous ended and the total is max(0, floor((last evaluated - anchor)/interval) + 1). |
| `CalendarWindows.NeighboursContiguous` | services/calendar/src/calendar-service.js:273-300 | Across schedule edits, two neighbouring ranges under one schedule are contiguous and their instants increase. |
| `CalendarWindows.StaleConsumesNothing` | services/calendar/src/calendar-service.js:276-278 | An evaluation whose `now` is not after the checkpoint finds no window due. |
| `CalendarWindows.StaleLeavesNoTrace` | services/calendar/src/calendar-service.js:273-300 | Over runs: such an evaluation claims nothing, submits nothing and moves no checkpoint; store, Relay and ledger stay as they were, whatever others do in between, until it unlocks. |
| `CalendarDue.OccurrenceAddedIff` | services/calendar/src/calendar-service.js:273-300 | Over every run, an event adds an occurrence if and only if an evaluation looks for due windows of its template, nothing of the template waits, the slot is the newest due instant (on the grid, not before the anchor, after the checkpoint, `at <= now < at + interval`) and the number of due instants deserves one. |
| `CalendarDue.AddedAsDeserved` | services/calendar/src/calendar-service.js:281-295 | And with which status: DUE for one due instant, or for 2 to 64 under RUN_ONCE; none for 2 to 64 under SKIP; REVIEW_REQUIRED above 64; not attempted, bound to nothing, under the definition it was claimed from. |
| `CalendarDue.CountIsDue` | services/calendar/src/calendar-service.js:276-278 | The window count is the number of instants that are due, counted as a set. |
| `CalendarProcess.WindowClaims` | services/calendar/src/calendar-service.js:279-290 | What the window step leaves when the newest due instant deserves an occurrence, and where the evaluation goes on. |
| `CalendarProcess.WindowIdle` | services/calendar/src/calendar-service.js:290-294 | When it deserves none, nothing is claimed and the checkpoint is next. |
| `CalendarProcess.WindowWaits` | services/calendar/src/calendar-service.js:271-272 | While something of the template is open or under review, neither. |
| `CalendarProcess.LockedMeans` | services/calendar/src/calendar-service.js:258-266 | A locked template is worked on exactly when it is still ACTIVE and nothing of it is under review; the list to retry has exactly its open occurrences. |
| `CalendarProcess.LooksAtPredecessor` | services/calendar/src/calendar-service.js:212-217 | Predecessors are looked at one after the other: itself and skipped ones are passed over, an unsubmitted one sends to review, a submitted one is asked for. |
| `CalendarProcess.PredecessorDecides` | services/calendar/src/calendar-service.js:218-222 | No bound job answered sends to review, a running one skips, an ended one clears the way. |
| `CalendarProcess.AttemptsOrReviews` | services/calendar/src/calendar-service.js:223-226 | With every predecessor cleared, an occurrence attempted three times goes to review, and any other has one more attempt recorded before the call. |
| `CalendarProcess.ReplyDecides` | services/calendar/src/calendar-service.js:234-237 | A bound job makes it SUBMITTED under that job, a conflict or rejection sends it to review. |
| `CalendarProcess.UnknownWaits` | services/calendar/src/calendar-service.js:238-240 | Anything else leaves it pending with its attempts, or sends it to review when they are used up. |
| `CalendarProcess.MarkMeans` | services/calendar/src/calendar-service.js:295-304 | The checkpoint moves to `now` exactly when that is later, under the next revision. |
| `CalendarProcess.ScanMeans` | services/calendar/src/calendar-service.js:252-257 | A listed template is taken up exactly when it was ACTIVE in the listing and its lock is free. |
| `CalendarProcess.EditIff` | adapters/simulator/src/calendar-store-simulator-adapter.js:50-72 | An edit replaces the definition if and only if it is in bounds, unlocked, and the first or the next one of a template not retired, no older and created at the same time. |
| `CalendarWindows.ClaimedWindow` | services/calendar/src/calendar-service.js:276-280 | The formula for the claimed instant names the newest grid point not after `now`, not before the anchor and after the checkpoint; that the engine claims that one is `CalendarDue.OccurrenceAddedIff`. |
| `FreshnessTokens.PrintReads` | apps/mission-control/src/freshness-state.js:6-10 | Printing then reading an epoch is the identity on 1 to 2^64 - 1. |
| `FreshnessTokens.ReadPrints` | apps/mission-control/src/freshness-state.js:6-10 | Accepted text is canonical: it is the printed form of the value read, which is in range. |
| `FreshnessTokens.ReadableIff` | apps/mission-control/src/freshness-state.js:6-10 | Text is accepted if and only if it is the printed form of a value in range. |
| `FreshnessTokens.NewerIsLexicographic` | apps/mission-control/src/overview-contract.js:29-39 | Although epochs are compared as text for equality, on valid tokens the relation is the lexicographic order of the two numbers, and equal numbers mean equal tokens. |
| `FreshnessTokens.NewerIsStrictTotal` | apps/mission-control/src/overview-contract.js:33-39 | A strict total order on valid tokens. |
| `FreshnessTokens.InvalidNeverNewer` | apps/mission-control/src/overview-contract.js:30-36 | A token that is not valid never replaces anything. |
| `FreshnessTokens.OverviewState.Accept` | apps/mission-control/src/overview-controller.js:8-27 | A message is accepted exactly when it is well formed and its token is newer, and then it is what is shown. |
| `FreshnessTokens.OverviewState.MarkStale` | apps/mission-control/src/overview-controller.js:28-32 | Availability is downgraded; the token stays. |
| `FreshnessTokens.AcceptedIncrease` | apps/mission-control/src/overview-controller.js:8-32 | Over any sequence of messages with staleness marks anywhere, accepted tokens strictly increase and the view shown carries the last one. |
| `FreshnessProtocol.FreshnessSession.Next` | apps/mission-control/src/freshness-state.js:51-57 | A token is served exactly while the session has not failed, the file still holds its epoch and the sequence is not exhausted; otherwise it fails for good. |
| `FreshnessProtocol.EpochsPublishedOnce` | apps/mission-control/src/freshness-state.js:24-66 | With any number of starters, faults, process deaths and host crashes at any step, the publications that stand are 1, 2, 3, ... each published once by one process. |
| `FreshnessProtocol.OpenedStands` | apps/mission-control/src/freshness-state.js:48 | Once a process is past the directory sync, no continuation, host crashes included, undoes its publication. |
| `FreshnessProtocol.EpochOpenedOnce` | apps/mission-control/src/freshness-state.js:24-66 | No two processes open the same epoch, however the host crashes in between. |
| `FreshnessProtocol.StandsIffSynced` | apps/mission-control/src/freshness-state.js:40-48 | Reads off the crash model what it puts at risk: exactly the publications that no directory sync followed; that the others stand in every run is `OpenedStands` and `EpochOpenedOnce`. |
| `FreshnessProtocol.UnsyncedIsPublishedAgain` | apps/mission-control/src/freshness-state.js:40-48 | From any state a starter can begin in, a host crash between rename and sync lets the next starter publish the same epoch again. |
| `FreshnessProtocol.TokensIncrease` | apps/mission-control/src/freshness-state.js:51-57 | Tokens ordered by the file read inside `next()` strictly increase across all processes, each from the publisher of its epoch. |
| `FreshnessProtocol.PendingCreatorMeansNoEpoch` | apps/mission-control/src/freshness-state.js:31-36 | A process that created the directory and does not hold the lock yet means no epoch was ever published and none can be read. |
| `FreshnessProtocol.LockExcludes` | apps/mission-control/src/freshness-state.js:14-20 | At most one live process is between taking the lock and giving it back. |
| `FreshnessProtocol.ReadKeeps` | apps/mission-control/src/freshness-state.js:34-37 | The key step of the invariant: reading the prior epoch, as creator or not. |
| `FreshnessProtocol.ClientFollowsServers` | apps/mission-control/src/overview-controller.js:8-27 | A client shown issued tokens in any order, any number of times, accepts them in the order of the file reads. |
| `FreshnessMeaning.UndisturbedOpens` | apps/mission-control/src/freshness-state.js:24-66 | An opening left alone serves the epoch after the one in the file, published and synced, and frees the lock. |
| `FreshnessMeaning.FirstOpens` | apps/mission-control/src/freshness-state.js:24-66 | The first one creates the directory and serves epoch 1. |
| `FreshnessMeaning.LockedOut` | apps/mission-control/src/freshness-state.js:14-23 | A lock that is there refuses the opening and stays. |
| `FreshnessMeaning.UnreadableRefused` | apps/mission-control/src/freshness-state.js:24-66 | A directory whose epoch is missing, unreadable or used up refuses the opening: nothing is published and the lock is given back. |
| `FreshnessMeaning.NextIssues` | apps/mission-control/src/freshness-state.js:51-57 | `next()` issues the next number of its epoch exactly while the file says that epoch, numbers are left and nothing has failed. |
| `FreshnessMeaning.FailedForGood` | apps/mission-control/src/freshness-state.js:51-57 | Over every run, a session that failed never issues again. |
| `FreshnessMeaning.ShowsExactlyLater` | apps/mission-control/src/overview-controller.js:8-27 | Over any inputs a message is shown if and only if it is well formed with a valid token later, as numbers, than what is shown; otherwise nothing changes. |
| `FreshnessMeaning.StaleShows` | apps/mission-control/src/overview-controller.js:28-32 | Going stale turns what was available into stale, leaves every other section and the token, and of the override keeps only a raised one. |
| `SchedulerStore.SimulatorSchedulerStore.ExpireIfNeeded` | adapters/simulator/src/scheduler-store-simulator-adapter.js:60-73 | A lease whose time has come, at a valid instant, becomes EXPIRED at the next revision; nothing else changes. |
| `SchedulerStore.SimulatorSchedulerStore.ActiveFor` | adapters/simulator/src/scheduler-store-simulator-adapter.js:77-85 | Stopping at the first live lease leaves the store as if every stale lease of the resource had been expired, and the answer is the resource's owner, or there is none. |
| `SchedulerStore.SimulatorSchedulerStore.Reserve` | adapters/simulator/src/scheduler-store-simulator-adapter.js:29-50 | A lease is granted exactly when no other lease of the resource is live and its id was never used. |
| `SchedulerStore.SimulatorSchedulerStore.Current` | adapters/simulator/src/scheduler-store-simulator-adapter.js:87-92 | The record after lazy expiry. |
| `SchedulerStore.SimulatorSchedulerStore.Transition` | adapters/simulator/src/scheduler-store-simulator-adapter.js:96-119 | Release and cancel apply only at the expected revision and from the allowed states. |
| `SchedulerStore.SimulatorSchedulerStore.ActiveReservations` | adapters/simulator/src/scheduler-store-simulator-adapter.js:124-132 | Exactly the live leases after every stale one is expired. |
| `SchedulerStore.LeasesOverRuns` | adapters/simulator/src/scheduler-store-simulator-adapter.js:29-132 | From any good state, whatever the calls and however the clock jumps: one ACTIVE lease per resource, revisions only grow, nothing released, expired or cancelled is ACTIVE again. |
| `SchedulerStore.IdsSingleUse` | adapters/simulator/src/scheduler-store-simulator-adapter.js:41-46 | No reservation is granted under an id any record has had. |
| `SchedulerStore.GrantIsExclusive` | adapters/simulator/src/scheduler-store-simulator-adapter.js:37-49 | A grant means every other lease of the resource had lapsed, and the new lease is the owner. |
| `SchedulerStore.OnlyOwner` | adapters/simulator/src/scheduler-store-simulator-adapter.js:77-85 | When the lease found is live, no later lease of the resource was stale, so stopping early loses nothing. |
| `SchedulerMeaning.TransitionIff` | adapters/simulator/src/scheduler-store-simulator-adapter.js:96-122 | A reservation is released only while held and cancelled while held or pending, and both only for a caller that knows its revision. |
| `SchedulerService.TrustedClock.Now` | packages/contracts/src/trusted-time-v1.js:35-56 | The clock answers the later of the raw and the last time and counts rollbacks. |
| `SchedulerService.SchedulerService.RecordIssuance` | services/scheduler/src/scheduler-service.js:209-217 | The table after deleting, while iterating, exactly the entries beyond one lease, or two when consumed. |
| `SchedulerService.SchedulerService.Evaluate` | services/scheduler/src/scheduler-service.js:256-305 | An unreadable job or requirement is denied and inputs that throw make it wait; otherwise the answer is the decision on the trusted instant, which is recorded. When that is ELIGIBLE is `EligibilityMeaning.EligibleIff`. |
| `SchedulerService.SchedulerService.Reserve` | services/scheduler/src/scheduler-service.js:424-531 | A lease is taken only from an unconsumed ELIGIBLE issuance of this instance, same job and resource, at most one lease old, and consumes it. |
| `SchedulerService.SchedulerService.Release` | services/scheduler/src/scheduler-service.js:533-568 | The reservation is released at the expected revision, after lazy expiry. |
| `SchedulerService.SchedulerService.BeginConfirm` | services/scheduler/src/scheduler-service.js:586-587 | Stage 2 reads the reservation before its await. |
| `SchedulerService.SchedulerService.FinishConfirm` | services/scheduler/src/scheduler-service.js:623-712 | After the await a start is confirmed exactly when job state, revision, lease as read, requirement and resource agree, the inputs could be composed and a fresh decision is ELIGIBLE. |
| `SchedulerService.LiveLeaseKeepsIssuance` | services/scheduler/src/scheduler-service.js:198-217 | While a lease is ACTIVE and unexpired at trusted time, its issuance is still in the table, consumed, ELIGIBLE, for the same job and resource. |
| `SchedulerService.OneReservationPerEvaluation` | services/scheduler/src/scheduler-service.js:462-469 | No evaluation ever produces two reservations. |
| `SchedulerService.ConfirmedMeansAssessed` | services/scheduler/src/scheduler-service.js:586-661 | A confirmed start held a live lease at the read and confirms the requirement that stage 1 found ELIGIBLE for that job and resource, whatever ran in between. |
| `SchedulerService.StillHeldIff` | services/scheduler/src/scheduler-service.js:586-636 | After the read, the lease is still held later if and only if its revision has not moved and its expiry has not come. |
| `SchedulerService.ConfirmedAfterRelease` | services/scheduler/src/scheduler-service.js:586-636 | The lease is not guaranteed after the await: a start is confirmed on a lease released meanwhile. |
| `SchedulerService.RunKeeps` | services/scheduler/src/scheduler-service.js:198-531 | The invariant behind it: live leases are backed by consumed issuances at most one lease older than the lease. |
| `SchedulerMeaning.GrantedIff` | services/scheduler/src/scheduler-service.js:424-531 | A lease of five minutes is granted if and only if the evaluation is the recorded, unused, ELIGIBLE one for that job and resource, at most five minutes old, and nobody holds the resource; it is then used up. |
| `SchedulerMeaning.ReleasedIff` | services/scheduler/src/scheduler-service.js:533-568 | A lease is given back exactly by a caller that knows its revision, before it runs out. |
| `SchedulerMeaning.IssuancesKept` | services/scheduler/src/scheduler-service.js:209-218 | Of the other issuances exactly those within their time stay: five minutes unused, ten used. |
| `SchedulerMeaning.LeaseMeansMayStart` | services/scheduler/src/scheduler-service.js:424-531 | Over every run, behind a live lease is an evaluation at most five minutes older of a case in which its job is authorized, staffed, ready and permitted on its resource. |
| `SchedulerMeaning.ConfirmsIff` | services/scheduler/src/scheduler-service.js:573-712 | A start is confirmed if and only if Relay still has the job as it was, the reservation read before the await is its live lease for this very requirement, and the job is authorized, staffed, ready and permitted now. |
| `Eligibility.DerivedCompanyState` | packages/contracts/src/organizational-state-v1.js:230-243 | The running minimum is the most severe input state, NORMAL for none. |
| `Eligibility.WorstIsUnique` | packages/contracts/src/organizational-state-v1.js:230-243 | The most severe state is the only member no other member precedes. |
| `Eligibility.CollectIncidents` | services/organizational-state/src/org-state-service.js:624-700 | One malformed fact makes the seam unavailable; otherwise states and degraded resources are those of the OPEN facts. |
| `Eligibility.IncidentStatesIn` | packages/contracts/src/incident-v1.js:273-297 | A Company State comes from incidents exactly when some OPEN fact maps to it. |
| `Eligibility.OrdinaryNeedsNormal` | services/scheduler/src/scheduler-service.js:311-412 | Ordinary work is ELIGIBLE only when the composed Company State is NORMAL. |
| `Eligibility.IncidentsNeverHelp` | services/scheduler/src/scheduler-service.js:330-373 | For ordinary work, more OPEN incident facts never turn a refusal into ELIGIBLE. |
| `Eligibility.EligibleWithFewerFacts` | services/scheduler/src/scheduler-service.js:362-373 | Eligibility of ordinary work survives taking incident facts away. |
| `Eligibility.UnavailableSeamRefuses` | services/scheduler/src/scheduler-service.js:325-347 | An unavailable configured seam refuses every class of work. |
| `Eligibility.MoreFactsNoBetter` | services/organizational-state/src/org-state-service.js:624-700 | More incident facts never make the composed Company State better. |
| `Eligibility.ContainmentMayBecomeEligible` | services/scheduler/src/scheduler-service.js:362-370 | The restriction to ordinary work is needed: reporting its own incident makes containment work eligible. |
| `EligibilityMeaning.EligibleIff` | services/scheduler/src/scheduler-service.js:311-412 | ELIGIBLE if and only if, in the fields of the organization, the requirement and the job: environment and capability match, a required delegation is in force for the worker, a required approval is APPROVED, unexpired and for this job; Workforce finds the worker qualified; resource, capacity, dependencies, holds, not-before and duty allow it; and the Company State is NORMAL or the work is bound to its incident. |
| `EligibilityMeaning.FirstObstacleDecides` | services/scheduler/src/scheduler-service.js:311-412 | Otherwise the decision and reason are those of the first of 22 obstacles, each spelled out in fields, in the order of the code. |
| `EligibilityMeaning.StateMeans` | services/organizational-state/src/org-state-service.js:750-762 | The composed Company State is the most severe one that an open incident, the Calendar or the stored state reports, NORMAL if none does. |
| `EligibilityMeaning.ResourceMeans` | services/organizational-state/src/org-state-service.js:761-785 | A healthy resource counts as degraded exactly when an open incident above the mildest severity affects it; any other keeps its own health. |
| `RecentWork.InsertBounded` | adapters/simulator/src/relay-store-simulator-adapter.js:164-170 | Skipping a candidate that cannot make the cut, or inserting and dropping the last, gives the first `limit` of the longer sorted list. |
| `RecentWork.Newest` | adapters/simulator/src/relay-store-simulator-adapter.js:149-173 | The single bounded pass returns exactly the first `limit` elements of the full history sorted by time descending, then id. |
| `RecentWork.NewestMeans` | adapters/simulator/src/relay-store-simulator-adapter.js:149-173 | In fields: as many jobs as the limit allows, newest first and then by id, and no job left out comes before one that is listed. |
| `RelayLaws.SummaryMeans` | adapters/simulator/src/relay-store-simulator-adapter.js:149-173 | An entry names its job, when it was created, its state, and the reason of its last transition or that there was none. |
| `RecentWork.TakeInsert` | adapters/simulator/src/relay-store-simulator-adapter.js:164-170 | Cutting before inserting loses nothing. |
| `RecentWork.SortSorts` | adapters/simulator/src/relay-store-simulator-adapter.js:153-154 | The reference order is a sorted rearrangement. |
| `RecentWork.ProjectionIsListed` | apps/mission-control/src/overview-contract.js:86-98 | With the default limit the projection always passes the overview's consistency check and comes out unchanged. |
| `RelayStore.SimulatorRelayStore.ClaimOrReturnExisting` | adapters/simulator/src/relay-store-simulator-adapter.js:105-140 | A malformed claim files nothing, a free namespace is filed under a new job, and a filed one changes nothing; which answer a filed one gives is `RelayLaws.ClaimIsIdempotent`. |
| `RelayStore.SimulatorRelayStore.ApplyTransition` | adapters/simulator/src/relay-store-simulator-adapter.js:175-201 | A transition applies exactly when it is legal from the current state and carries the job's id, trace, environment and execution. |
| `RelayStore.SimulatorRelayStore.RecordGatewayDecision` | adapters/simulator/src/relay-store-simulator-adapter.js:203-221 | One decision per running job, bound to its envelope, and never beside a model path. |
| `RelayStore.SimulatorRelayStore.ClaimWorkerInvocation` | adapters/simulator/src/relay-store-simulator-adapter.js:223-243 | INVOKE_NOW only for the recorded ALLOW decision and request, once. |
| `RelayStore.SimulatorRelayStore.ClaimModelContextPreparation` | adapters/simulator/src/relay-store-simulator-adapter.js:245-259 | Context preparation is claimed once while ACCEPTED. |
| `RelayStore.SimulatorRelayStore.ReleaseModelContextPreparation` | adapters/simulator/src/relay-store-simulator-adapter.js:265-279 | The claim is given back only while ACCEPTED, unstarted and at the expected revision. |
| `RelayStore.SimulatorRelayStore.ClaimModelInvocation` | adapters/simulator/src/relay-store-simulator-adapter.js:281-303 | INVOKE_NOW for a matching model invocation, once, and never beside a gateway decision. |
| `RelayStore.SimulatorRelayStore.CommitTerminalResult` | adapters/simulator/src/relay-store-simulator-adapter.js:305-348 | A terminal result is committed only on the path the job took and with an outcome that path allows. |
| `RelayStore.SimulatorRelayStore.RecentWork` | adapters/simulator/src/relay-store-simulator-adapter.js:149-173 | The newest jobs of the whole store, in an order and with totals the overview accepts. |
| `RelayStore.OnJobKeeps` | adapters/simulator/src/relay-store-simulator-adapter.js:175-348 | Every call keeps the exclusivity of worker and model paths, adds at most one claim, changes a job only with the next revision, and never changes a terminal one. |
| `RelayStore.InvokedAtMostOnce` | adapters/simulator/src/relay-store-simulator-adapter.js:223-303 | In every interleaving INVOKE_NOW is answered at most once per job over both paths, and a decision and a model invocation never coexist. |
| `RelayStore.DenyIsFinal` | adapters/simulator/src/relay-store-simulator-adapter.js:203-243 | After a DENY the decision stays and nothing is ever invoked for the job. |
| `RelayStore.OnceIffNotReused` | adapters/simulator/src/relay-store-simulator-adapter.js:122-139 | Job ids are not checked for reuse: after a run that invoked a job, the next call keeps once-only invocation for every later run if and only if it does not reuse the job's id. |
| `RelayStore.TerminalStays` | adapters/simulator/src/relay-store-simulator-adapter.js:175-191 | Once terminal, a job is the same record for the rest of the run. |
| `RelayStore.RevisionRun` | adapters/simulator/src/relay-store-simulator-adapter.js:175-348 | A job's revision is one more than the number of calls that succeeded on it. |
| `RelayLaws.ClaimIsIdempotent` | adapters/simulator/src/relay-store-simulator-adapter.js:105-140 | Over every run from the empty store: once a claim of a namespace created a job for a fingerprint, every later valid claim of it answers EXISTING if and only if it carries that fingerprint and CONFLICT otherwise; it changes nothing, and the namespace still names the first job. |
| `RelayLaws.FirstClaim` | adapters/simulator/src/relay-store-simulator-adapter.js:105-140 | A well-formed claim of a free namespace creates a SUBMITTED, untouched job for it; a malformed one files nothing. |
| `RelayLaws.FiledIffNotReplaced` | adapters/simulator/src/relay-store-simulator-adapter.js:105-140 | A call leaves the namespace with its first job unless it claims that job id again for another envelope, and only then. |
| `RelayLaws.AppliesIff` | adapters/simulator/src/relay-store-simulator-adapter.js:175-201 | A transition is applied if and only if it is of this job, from where it stands, in the lifecycle, with the execution id its stage calls for. |
| `RelayLaws.RecordsIff` | adapters/simulator/src/relay-store-simulator-adapter.js:203-221 | A decision is recorded if and only if the job runs undecided without a model path, the request is its own and the well-formed decision answers exactly that request. |
| `RelayLaws.InvokesWorkerIff` | adapters/simulator/src/relay-store-simulator-adapter.js:223-243 | INVOKE_NOW if and only if the recorded ALLOW and request are handed back for a running job not yet claimed. |
| `RelayLaws.PreparesIff` | adapters/simulator/src/relay-store-simulator-adapter.js:245-263 | Context is claimed exactly for an ACCEPTED job on no path yet. |
| `RelayLaws.ReleasesIff` | adapters/simulator/src/relay-store-simulator-adapter.js:265-279 | And given back exactly while unstarted, at the expected revision. |
| `RelayLaws.InvokesModelIff` | adapters/simulator/src/relay-store-simulator-adapter.js:281-303 | A model is invoked exactly for its own job, running, never beside a decision, and once. |
| `RelayLaws.CommitsIff` | adapters/simulator/src/relay-store-simulator-adapter.js:305-348 | A result is committed if and only if it is in keeping with the path: denials exactly after DENY with no worker claimed, a worker outcome after ALLOW and a claim, a model outcome for the claimed invocation; COMPLETED exactly when available. |
| `RelayLaws.ResultFollowsPath` | adapters/simulator/src/relay-store-simulator-adapter.js:305-348 | Over every run a job with a result has one in keeping with its path, and its state. |
| `JobProjection.ValidJobProjection` | services/memory/src/memory-service.js:94-106 | The check's loop answers whether the transitions replay from SUBMITTED to the current state with one job, trace and environment. |
| `JobProjection.ReplayLength` | packages/contracts/src/job-v1.js:64-69 | A list that replays is one walk down the lifecycle: its length is the stage reached. |
| `JobProjection.JobKeeps` | adapters/simulator/src/relay-store-simulator-adapter.js:175-348 | Every call the service makes keeps a job's projection valid and terminal exactly when it holds a result of that state. |
| `JobProjection.CommitKeepsProjectionIff` | adapters/simulator/src/relay-store-simulator-adapter.js:305-348 | The store does not compare environments on commit: an accepted commit keeps the projection valid if and only if the transition carries the job's environment. |
| `JobProjection.ApplyKeepsResultIff` | adapters/simulator/src/relay-store-simulator-adapter.js:175-201 | The store lets a transition end a job with no result: an applied transition keeps terminal-iff-result if and only if it is not terminal. |
| `JobProjection.RawStoreGaps` | adapters/simulator/src/relay-store-simulator-adapter.js:175-348 | Both gaps are reachable by one direct store call on the same good running job. |
| `RelayService.EveryJobReplays` | services/relay/src/relay-service.js:386-1039 | Over every interleaving of accept, execute, model and attempt calls: each job replays to its state, is terminal exactly when it holds a result, and of the same state. |
| `RelayService.CalledAtMostOnce` | services/relay/src/relay-service.js:544-1002 | In every interleaving each job's worker or model is called at most once, and never after a DENY; that a worker is called only on a grant is `GatewayMeaning.WorkerNeedsGrant`. |
| `GatewayMeaning.DecisionFollowsExchange` | services/tool-gateway/src/tool-gateway.js:289-362 | In every interleaving, a recorded decision is for the job's own request and follows an exchange of the run with the grant provider: ALLOW if and only if the provider answered for that request with a set holding its capability, the implemented one, and the authorization context was the same before and after; DENY as not granted for any other usable answer, as unavailable for none. |
| `GatewayMeaning.WorkerNeedsGrant` | services/tool-gateway/src/tool-gateway.js:363-397 | A worker is only ever called on such a grant. |
| `GatewayMeaning.AnswerDecides` | services/tool-gateway/src/tool-gateway.js:316-362 | An answer that arrives for an undecided running job is recorded as the decision it calls for. |
| `GatewayMeaning.SilenceDecides` | services/tool-gateway/src/tool-gateway.js:307-327 | And so is the lack of one, as unavailable. |
| `GatewayMeaning.ForeignGatewayDecidesNothing` | services/tool-gateway/src/tool-gateway.js:291-293 | A gateway of another environment decides nothing. |
| `GatewayMeaning.UndisturbedGateway` | services/tool-gateway/src/tool-gateway.js:289-424 | A started job, left alone: no answer ends it as unavailable, an answer without its capability as denied, and otherwise its worker is called once and its answer is the outcome. |
| `RelayPaths.UndisturbedAccept` | services/relay/src/relay-service.js:386-542 | A submission in a free namespace, left alone, files its job there and has it ACCEPTED, stamped with the service's environment. |
| `RelayPaths.LaterSubmission` | services/relay/src/relay-service.js:481-504 | One in a filed namespace files and starts nothing, whatever it carries. |
| `RelayPaths.UndisturbedStart` | services/relay/src/relay-service.js:544-657 | Left alone, `execute` starts a waiting job if and only if the Scheduler lets it, and otherwise changes nothing. |
| `RelayPaths.StartsOnlyWhenTold` | services/relay/src/relay-service.js:544-1000 | In every state, a job goes from ACCEPTED to RUNNING only in a call the Scheduler let proceed, on the model path after its context was built. |
| `RelayPaths.UndisturbedModel` | services/relay/src/relay-service.js:809-1000 | The model path left alone: no start without the Scheduler, the claim kept without a context and given back when the Scheduler withdraws, otherwise one call whose answer decides. |
| `RelayService.TerminalAbsorbs` | services/relay/src/relay-service.js:386-1039 | A terminal job is the same record for the rest of the run. |
| `RelayService.RevisionCountsChanges` | adapters/simulator/src/relay-store-simulator-adapter.js:175-348 | In every service run a job's revision counts the store calls that changed it. |
| `RelayService.ServiceKeeps` | services/relay/src/relay-service.js:386-1039 | The invariant of the service machine over all events. |
| `RelayService.SegmentCallOk` | services/tool-gateway/src/tool-gateway.js:189-237 | Every claim, transition, request, decision, invocation and result a segment sends to the store carries the service's environment, and no segment applies a terminal transition outside a commit. |
| `Evidence.CheckOrder` | packages/telemetry/src/job-trace-completeness.js:256-261 | The loop with a running index accepts exactly the traces in which required events first occur in their required order. |
| `JobTrace.CheckRecord` | packages/telemetry/src/job-trace-completeness.js:226-241 | A record is clean exactly when rule, trace, span, owner, attributes and bounds are right. |
| `JobTrace.CheckRecords` | packages/telemetry/src/job-trace-completeness.js:224-241 | No finding exactly when every record is clean and spans are unique. |
| `JobTrace.CheckParents` | packages/telemetry/src/job-trace-completeness.js:243-252 | No finding exactly when there is one root, the submission, and every parent exists. |
| `JobTrace.CheckSequence` | packages/telemetry/src/job-trace-completeness.js:254-273 | No finding exactly when the required stages are in order and linked and extras are optional ones. |
| `JobTrace.CheckMeaning` | packages/telemetry/src/job-trace-completeness.js:84-210 | No finding exactly when ids, stages, decision, outcomes and ends agree and every tone fits. |
| `JobTrace.CheckTones` | packages/telemetry/src/job-trace-completeness.js:180-208 | Tones and response pairing, in one pass. |
| `JobTrace.AssessJobTraceCompleteness` | packages/telemetry/src/job-trace-completeness.js:212-278 | Complete if and only if the trace is one whole, single-rooted, linked story that does not contradict itself; the missing list is exact. |
| `JobTraceMeaning.CompleteIff` | packages/telemetry/src/job-trace-completeness.js:6-278 | Complete if and only if every record is clean and of the one trace; the stages called for all occur, each caused by the one before; one root, the submission; the records agree on ids, stages, decisions, outcomes and ends; each is toned as its event; and every prepared response was given or failed. |
| `JobTraceMeaning.DeniedStory` | packages/telemetry/src/job-trace-completeness.js:84-240 | A complete trace with a denied capability shows no worker and no completion, and the job failed for the reason of the decision. |
| `JobTraceMeaning.WorkedStory` | packages/telemetry/src/job-trace-completeness.js:84-240 | One whose worker ran shows the implemented capability allowed, and completed exactly when the worker's word was good. |
| `JobTraceMeaning.CleanMeans` | packages/telemetry/src/job-trace-completeness.js:6-51 | Clean: from the service that owns its event, with exactly the attributes of its event, short and plain. |
| `JobTraceMeaning.ToneMeans` | packages/telemetry/src/job-trace-completeness.js:214-240 | Outcome and severity are those of the event, or of what it reports. |
| `JobEmission.CommitTerminal` | services/tool-gateway/src/tool-gateway.js:239-287 | The evidence of a terminal commit: validated, and when committed projected and ended. |
| `JobEmission.ExecuteTool` | services/tool-gateway/src/tool-gateway.js:289-424 | The gateway's evidence, for any grants, worker and store answers. |
| `JobEmission.RunWorker` | services/tool-gateway/src/tool-gateway.js:377-423 | The worker's evidence and the commit of its outcome. |
| `JobEmission.Execute` | services/relay/src/relay-service.js:544-657 | Relay's execute evidence without a Scheduler. |
| `JobEmission.Submit` | services/relay/src/relay-service.js:386-542 | Relay's submit evidence, from receipt to the end it reached. |
| `GatewayEvidence.SubmitTells` | services/relay/src/relay-service.js:386-542 | The second record tells the first thing that stood in the way, and a replay names the job that is there. |
| `GatewayEvidence.GateTells` | services/tool-gateway/src/tool-gateway.js:289-424 | The gateway's records tell the decision and its reason, a worker exactly when permitted, recorded and claimed, and the word the job ended with. |
| `JobCompleteness.CompleteIffEnded` | services/relay/src/relay-service.js:386-657 | What `submit` leaves is judged complete if and only if it ended in an early rejection, a conflict, a replay or a committed COMPLETED or FAILED job, whatever grants, worker and store answer. |
| `JobCompleteness.PathComplete` | packages/telemetry/src/job-trace-completeness.js:243-278 | A linked chain along one of the expected paths whose stages cohere is complete. |
| `JobCompleteness.UnfinishedIncomplete` | packages/telemetry/src/job-trace-completeness.js:53-74 | A trace with neither an early end nor a terminal job is incomplete. |
| `JobRejections.StaysComplete` | packages/telemetry/src/job-trace-completeness.js:42-44 | A refused-transition record slipped in anywhere leaves a complete trace complete. |
| `JobRejections.MixedStaysComplete` | services/relay/src/relay-service.js:195-210 | So do any number of them, at any places. |
| `AuthorityScan.ExamineEntries` | services/memory/src/memory-service.js:69-79 | One object's own entries are counted against the bound, its authority keys collected and its children queued. |
| `AuthorityScan.ScanAuthorityCategories` | services/memory/src/memory-service.js:59-82 | Terminates on every finite graph, cycles included; exhausted if and only if reachable objects hold more than 1024 own entries in all; otherwise exactly the authority keys on reachable objects. |
| `AuthorityScan.SeenIsReachable` | services/memory/src/memory-service.js:65-80 | With nothing pending, what was seen is exactly what is reachable. |
| `AuthorityScan.NormalizedJoins` | services/memory/src/memory-service.js:55-57 | Keys are compared character by character: joining keys joins what they are compared by. |
| `AuthorityScan.NormalizedCharacter` | services/memory/src/memory-service.js:55-57 | Of a character only letters and digits stay, in lower case. |
| `MemorySelection.ScoreOf` | services/memory/src/memory-service.js:625-633 | Twice the query tokens among the tags plus those among the words. |
| `MemorySelection.JudgeRecord` | services/memory/src/memory-service.js:604-634 | The first failed check is the reason a record is left out; each check in fields is `SelectionMeaning.VerdictMeans`. |
| `MemorySelection.FilterCandidates` | services/memory/src/memory-service.js:601-636 | Exactly the relevant records go on and each exclusion count is the number of records with that reason. |
| `MemorySelection.FillBudget` | services/memory/src/memory-service.js:657-673 | The greedy fill in order, with its character and omission counts. |
| `MemorySelection.SelectContext` | services/memory/src/memory-service.js:601-686 | The whole selection, equal to its specification; what that selects, in fields, is `SelectionMeaning.ItemsSuit`, `CountsMean`, `ItemsOrdered` and `OmittedIsCrowdedOut`. |
| `MemorySelection.RankedOrders` | services/memory/src/memory-service.js:637-639 | The order is a rearrangement by score, then recency, then id. |
| `MemorySelection.SelectConserves` | services/memory/src/memory-service.js:601-686 | Allowed plus the five exclusions are the candidates, included plus omitted the allowed, at most 4 items and 2048 code points, and empty exactly when nothing is relevant. |
| `MemorySelection.TopTwoIncluded` | services/memory/src/memory-service.js:657-673 | The two most relevant records are always included. |
| `MemorySelection.OmittedDidNotFit` | services/memory/src/memory-service.js:660-666 | A record is passed over exactly when, at its turn, the items or characters left were too few. |
| `SelectionMeaning.VerdictMeans` | services/memory/src/memory-service.js:604-634 | A record is relevant if and only if its environment and department are the request's, it is active, and it shares a query token with its tags or words; otherwise its verdict is the first of the five conditions it fails. |
| `SelectionMeaning.ItemsSuit` | services/memory/src/memory-service.js:601-686 | Every packaged record is such a candidate. |
| `SelectionMeaning.CountsMean` | services/memory/src/memory-service.js:604-636 | Each of the five exclusion counts is the number of candidates whose first failed condition, spelled out, is that one; the allowed are those that fail none. |
| `SelectionMeaning.ItemsOrdered` | services/memory/src/memory-service.js:637-639 | Items come by score (a tag hit twice, a word hit once), then the later `observedAt`, then the id. |
| `SelectionMeaning.OmittedIsCrowdedOut` | services/memory/src/memory-service.js:657-673 | A suitable record is left out only when items that come no later were four already or left too little room for its text. |
| `MemoryTrace.CheckCommon` | packages/telemetry/src/memory-trace-completeness.js:179-211 | Accepts exactly the traces with one trace id, unique spans, clean Memory records and parents that come earlier. |
| `MemoryTrace.FindRoot` | packages/telemetry/src/memory-trace-completeness.js:225-236 | The walk up the parents, stopped by a visited set, finds the attempt's root or none. |
| `MemoryTrace.GroupContextAttempts` | packages/telemetry/src/memory-trace-completeness.js:221-249 | Records are grouped by root, each group in trace order, and an unattached record is noticed. |
| `MemoryTrace.CheckSequence` | packages/telemetry/src/memory-trace-completeness.js:251-272 | The sequence check of one attempt. |
| `MemoryTrace.CheckDuplicates` | packages/telemetry/src/memory-trace-completeness.js:213-219 | One pass over an attempt finds whether an event occurs twice. |
| `MemoryTrace.CheckRootRecord` | packages/telemetry/src/memory-trace-completeness.js:506-545 | A request hangs under the lifecycle record of its job's state, found by span, and a rejection gives a reason possible where it stands. |
| `MemoryTrace.CheckFilter` | packages/telemetry/src/memory-trace-completeness.js:416-427 | The filter's aggregates, added up in one pass, are counts and reconcile with the candidates. |
| `MemoryTrace.CheckMeaning` | packages/telemetry/src/memory-trace-completeness.js:368-457 | No contradiction is counted exactly when the stages of the attempt cohere. |
| `MemoryTrace.CheckAttempt` | packages/telemetry/src/memory-trace-completeness.js:506-549 | An attempt is good exactly when it has no duplicates, a proper root and parent, its sequence and a consistent meaning. |
| `MemoryTrace.AssessMemoryContextTrace` | packages/telemetry/src/memory-trace-completeness.js:483-551 | Complete if and only if every Memory record belongs to an attempt and every attempt is good. |
| `ContextTraceMeaning.EveryRecordBelongs` | packages/telemetry/src/memory-trace-completeness.js:483-551 | In a trace judged complete, every Memory record belongs to an attempt, up its parents to the root; the attempt took one of five courses and its records are clean. |
| `ContextTraceMeaning.AttemptShows` | packages/telemetry/src/memory-trace-completeness.js:251-318 | A good attempt shows the stages of one course, once each, every one caused by the one before. |
| `ContextTraceMeaning.SixStagesReconcile` | packages/telemetry/src/memory-trace-completeness.js:368-457 | One that reached the budget has counts that add up, keeps the bounds, and a package that repeats them for its job, or an invalid one. |
| `ContextTraceMeaning.RequestContinues` | packages/telemetry/src/memory-trace-completeness.js:506-545 | A request continues Relay's record of its job having come to the state it was refused in, or to ACCEPTED. |
| `ContextTraceMeaning.CompleteIsOneTrace` | packages/telemetry/src/memory-trace-completeness.js:179-211 | A complete trace is one trace with spans of their own and Memory's records caused by earlier ones. |
| `MemoryEmission.ContextFailure` | services/memory/src/memory-service.js:412-423 | The evidence of a failed step. |
| `MemoryEmission.BuildContext` | services/memory/src/memory-service.js:479-731 | The evidence of an attempt, for every way it can end, and the selection when it is packaged. |
| `ContextEvidence.FirstObstacleTold` | services/memory/src/memory-service.js:479-731 | The last record tells the first thing that stood in the way: environment, state, request, store, candidates; otherwise all six records are there. |
| `ContextEvidence.SelectionTold` | services/memory/src/memory-service.js:601-731 | An attempt not stopped tells the selection's own numbers. |
| `MemoryAcceptance.AttemptAccepted` | packages/telemetry/src/memory-trace-completeness.js:368-457 | An attempt, however it ended, is judged good under a parent that shows the job's state. |
| `MemoryAcceptance.AttemptCoherent` | packages/telemetry/src/memory-trace-completeness.js:368-457 | The numbers an attempt tells reconcile because the selection conserves them. |
| `MemoryWoven.WovenIsComplete` | packages/telemetry/src/memory-trace-completeness.js:483-551 | Any number of attempts on one trace, however ended and interleaved with each other and other evidence, are judged complete. |
| `MemoryWoven.AttemptOnTrace` | services/memory/src/memory-service.js:479-731 | Whatever is selected and however it ends, the attempt `buildContext` appends under the record of the job's state is accepted. |
| `MemoryWoven.ContextAccepted` | services/memory/src/memory-service.js:479-731 | For any candidates, query and way of ending, what `buildContext` appends leaves a trace the context assessor judges complete. |
| `MemoryWoven.AcceptedIffRecorded` | services/relay/src/relay-service.js:526-540 | Relay appends a lifecycle record after its store call returned: an attempt is accepted if and only if the record it hangs under is already in the trace. |
| `MemoryWoven.LifecycleIsParent` | packages/telemetry/src/memory-trace-completeness.js:94-141 | Relay's own submission, accepted, running and terminal records are the parents the assessor requires. |
| `WorkforceStore.SimulatorWorkforceStore.Put` | adapters/simulator/src/workforce-store-simulator-adapter.js:82-165 | Validity, replay, conflict, unique key and revision are checked in that order; only then everything is written. |
| `WorkforceStore.SimulatorWorkforceStore.Write` | adapters/simulator/src/workforce-store-simulator-adapter.js:137-163 | The commit: superseded truth appended, record replaced, and every index brought along, the unique-key index under the joined text. |
| `WorkforceStore.SimulatorWorkforceStore.QualificationFor` | adapters/simulator/src/workforce-store-simulator-adapter.js:204-208 | The scan finds the pair's one current qualification, and nothing exactly when there is none; it agrees with the index unless the index names a record of another pair with the same joined text. |
| `WorkforceStore.SimulatorWorkforceStore.LatestEvaluationFor` | adapters/simulator/src/workforce-store-simulator-adapter.js:210-212 | The index answers the greatest current evaluation of the agent by time, then id, and nothing exactly when there is none. |
| `WorkforceStore.PutKeepsIndexes` | adapters/simulator/src/workforce-store-simulator-adapter.js:82-165 | Any put at all keeps the unique-key index equal to a scan by joined text and the latest-evaluation index equal to a scan. |
| `WorkforceStore.PairIsUnique` | adapters/simulator/src/workforce-store-simulator-adapter.js:109-122 | A pair has at most one current qualification and the index names it. |
| `WorkforceStore.RefusedIffSharesKey` | adapters/simulator/src/workforce-store-simulator-adapter.js:46-49 | A well-formed qualification at the right revision is refused if and only if another current qualification has the same joined text; otherwise exactly it is written. |
| `WorkforceStore.CollidingPairs` | adapters/simulator/src/workforce-store-simulator-adapter.js:46-49 | Agent `a` with capability `b::c`, then agent `a::b` with capability `c`: the second is refused though nobody holds its pair, and the index names the first. |
| `WorkforceStore.JoinedIsInjective` | packages/contracts/src/workforce-v1.js:72 | Distinct pairs join to distinct texts when no agent id contains the separator. |
| `WorkforceStore.RefusedIffSharesPair` | adapters/simulator/src/workforce-store-simulator-adapter.js:109-122 | Under that guard a put is refused if and only if another current qualification is for the same pair. |
| `WorkforceMeaning.PutIff` | adapters/simulator/src/workforce-store-simulator-adapter.js:82-165 | Over every run: a used operation answers its own write or a conflict; otherwise a valid value is filed with its operation if and only if no other current qualification has its joined text and it is the first of its id or the next revision of what is there. |
| `WorkforceMeaning.LatestIsNewest` | adapters/simulator/src/workforce-store-simulator-adapter.js:210-212 | Over every run, exactly the evaluated agents have a latest evaluation, and none of theirs is later, or as late with a greater id. |
| `WorkforceService.Service.Commit` | services/workforce/src/workforce-service.js:304-358 | Attempt, read back on an ambiguous answer, and retry the same operation once only while the revision has not moved. |
| `WorkforceService.Service.ReplayOperation` | services/workforce/src/workforce-service.js:254-267 | An operation id already used answers its committed result, or a conflict. |
| `WorkforceService.Service.ChangeLifecycle` | services/workforce/src/workforce-service.js:484-550 | Refusals in order; otherwise the next revision with the old truth superseded. |
| `WorkforceService.Service.ChangeRole` | services/workforce/src/workforce-service.js:552-615 | The same for role and department. |
| `WorkforceService.Service.ChangeQualification` | services/workforce/src/workforce-service.js:673-734 | The same for a qualification. |
| `WorkforceService.Service.CreateWorkforceRecord` | services/workforce/src/workforce-service.js:431-482 | A first revision for a resolved identity. |
| `WorkforceService.EveryRunKept` | services/workforce/src/workforce-service.js:431-734 | Over every run, whatever the store loses or fails to report: histories numbered 1 to n-1, only allowed lifecycle steps, the unique-key index equal to a scan by joined text, the latest-evaluation index equal to a scan. |
| `WorkforceService.RecordHistory` | services/workforce/src/workforce-service.js:525-549 | A record at revision n has n-1 superseded entries and embeds the last min(64, n-1) of them. |
| `WorkforceService.ServeShape` | services/workforce/src/workforce-service.js:304-358 | A request with a new operation id either writes exactly its proposal and is recorded, or writes nothing and is refused. |
| `WorkforceService.OperationsStick` | services/workforce/src/workforce-service.js:254-267 | A committed operation keeps its result; a request with its id and fingerprint returns that result, one with another fingerprint conflicts, and neither writes. |
| `WorkforceService.SameFingerprintIff` | services/workforce/src/workforce-service.js:82-119 | Two requests with well-formed arguments share a fingerprint exactly when they are the same or differ only in omitting a role or department that the other spells as the snapshot marker. |
| `WorkforceService.ReuseConflictsUnlessSame` | services/workforce/src/workforce-service.js:254-267 | With well-formed arguments, and while neither spells the marker, a committed operation id answers its own request with the result and any other with a conflict. |
| `WorkforceService.MarkerIsReplayed` | services/workforce/src/workforce-service.js:89 | A role spelled as the marker is answered as a repetition of the request that omitted it. |
| `WorkforceService.RecordedIsCommitted` | services/workforce/src/workforce-service.js:345-350 | A recorded answer is the committed value, current when first committed. |
| `WorkforceService.RefusedWritesNothing` | services/workforce/src/workforce-service.js:351-357 | A refusal writes nothing. |
| `WorkforceService.HistoryGrows` | adapters/simulator/src/workforce-store-simulator-adapter.js:137-139 | Stored history is append-only. |
| `WorkforceService.RetiredIsFinal` | packages/contracts/src/workforce-v1.js:22-29 | No sequence of requests brings a retired worker back. |
| `WorkforceMeaning.LifecycleServed` | services/workforce/src/workforce-service.js:484-550 | Over every run and under any store fault: the first refusal in order, or the next record in fields, filed and answered unless both attempts are lost. |
| `WorkforceMeaning.RoleServed` | services/workforce/src/workforce-service.js:552-615 | The same for role and department, an omitted one staying as it was. |
| `WorkforceMeaning.QualificationCreated` | services/workforce/src/workforce-service.js:617-671 | The same for a new qualification, refused when another is filed under its joined text. |
| `WorkforceMeaning.QualificationChanged` | services/workforce/src/workforce-service.js:673-734 | The same for a changed one: standing and expiry each kept unless given. |
| `WorkforceMeaning.RecordCreated` | services/workforce/src/workforce-service.js:431-482 | The same for a first record, with the identity's role and department unless given. |
| `WorkforceMeaning.EvaluationServed` | services/workforce/src/workforce-service.js:917-1058 | The same for an evaluation of a worker on record, once per id. |
| `WorkforceMeaning.GoodCommit` | services/workforce/src/workforce-service.js:304-358 | A valid, unrefused write lands unless both attempts are lost, and its answer says it was looked up exactly when the attempt that landed did not report. |
| `WorkforceMeaning.EveryRecordValid` | services/workforce/src/workforce-service.js:291-302 | Every record of every run is valid. |

## Left out

- Calendar evaluation, opening freshness state, Relay's calls and the Tool
  Gateway's calls are step functions over values, not class methods: a method
  body cannot yield to another caller in the middle. Update in place is
  therefore modelled for the stores, the Scheduler, the Workforce service, the
  clock and the client, and not for these.
- Job submission evidence is emitted by one caller at a time; other callers appear
  as arbitrary store answers and as refused-transition records mixed into the
  trace. A gateway call that throws half-way is not modelled in the evidence (the
  job runs do allow it, as a thread that is never resumed).
- Model-path evidence and its assessor, the API response records' emission and the
  Scheduler's own traces.
- Standalone context rejections before a job is known, and package retention and
  release.
- The Scheduler as seen by Relay is one yes-or-no answer per stage; leases taken
  and released by Relay are covered by the Scheduler's own runs.
- Reason codes of store refusals that callers do not branch on are merged.
- Field-by-field validators, text normalisation, tokenisation and timezones;
  records, tokens and instants arrive well formed.
- Worker evidence, attributions and the AgentOps verdict of the Workforce service:
  the verdict of an evaluation is an input, its index is modelled.
- Calendar events and company hours, incident setters, HTTP, rendering, adapters
  to live providers.
- Identifier order stands for the locale comparison that breaks ties between
  evaluations at the same instant.
- CalendarTheorems.AtMostOneLiveJob: assumes that the claims of each of the two
  slots resolved one requester, because Relay does not replay across requesters;
  AlwaysOneLiveIff gives the exact condition over whole runs.
- WorkforceService.ReuseConflictsUnlessSame: speaks of well-formed arguments; an
  `expires_at` spelled as the snapshot marker is no timestamp, and it too is taken
  for an omitted one when its operation id was committed without it.
- FreshnessProtocol.EpochsPublishedOnce: speaks of the publications that stand,
  because a host crash may undo an unsynced rename; OpenedStands and
  EpochOpenedOnce say what holds of every epoch a process opens.
- RelayStore.InvokedAtMostOnce: assumes the job's id is not claimed again, because
  the store does not check it; OnceIffNotReused gives the exact condition.
- RelayStore.SimulatorRelayStore.RecentWork: titles, roles and departments are not
  carried, because neither the order nor the totals depend on them.

# Node Plane controller: a verified model

Node Plane's controller keeps its state in tables and advances it by transactions, with remote calls to
node agents in between. This project models the parts of the controller whose conclusions are hard to
trust by reading one function, and proves what they mean over every run.

**The outbox and what relies on it.** `tables.dfy` has the rows and the queries several services share.
`outbox_run.dfy` is a transition system: the atomic steps of every actor (claims, driver calls, late
effects on a node, results, crashes, recovery, journal reconciliation, repair, forced cancellation,
retirement of nodes, device commands, profile deletions and anything else other services may do)
interleaved freely, beside a world the controller cannot see: which commands took effect, which the agent
has retired for good, which peers exist on the nodes and which client identity each carries. `outbox_invariants.dfy`, `outbox_tables.dfy`,
`outbox_steps.dfy` and `outbox_record.dfy` prove that every step keeps one invariant; `outbox_theorems.dfy`
draws the conclusions about dispatch. `transactions.dfy` gives the effect of each whole transaction and
proves that it is a sequence of those steps. `executor.dfy` is the controller as a class whose methods are
the transactions, each proved equal to its effect. `outbox_rules.dfy` says the same things in table columns:
which rows a dispatch, a recording, a settlement, a repair or a cancellation touches, and exactly when. `retirement.dfy` proves that what the controller
concludes from its history (a device is gone, an old peer is gone, an account may be released) is true of
the nodes and stays true. `issuance.dfy` does the same for configs that are handed out.

**A result about device retirement.** `settle_deletions` keeps the newest row per node
(app/backend/devices.py:112), while the other check of the same kind keeps one per node, protocol and
device (app/backend/node_lifecycle.py:212-231). `retirement_gap.dfy` is a history of whole transactions,
each claim taking the row the dispatch query returns, in which a device with both protocols on one node is
retired while its Xray client is still there: the Xray removal was cancelled by force, the AWG removal
succeeded and is listed first. `Retirement.RetirementExactly` says exactly when the code's conclusion is
right for the rest of the run; it always is when the newest row is a confirmed removal per node and
protocol (`Retirement.RetirementIsSound`), in particular for devices whose rows on each node are for one
protocol (`Retirement.OneProtocolRetirementIsSound`).

**Other statements that hold only under a condition.** Each has a failing input and its exact condition:
a recovery may be confirmed across a failing reading that was committed and ignored
(`AlertTheorems.IgnoredFailure`, `RecoveryExactly`); an outage may be confirmed across an ignored reply
(`ForgottenReply`, `OutageAndReplies`); a replayed batch counts events of clients that were unknown the
first time (`Admission.LateClient`, `ReplayExactly`); a claim key may get a second delivery
(`Deliveries.ReusedKey`, `AnotherExactly`); a nonce may be accepted twice when a clock runs ahead
(`Nonces.SixtyOneIsTooMuch`, `ReplayDecided`).

**The other cores.** `alerts.dfy`, `alert_theorems.dfy` and `alert_exactness.dfy`: the incident machine of
one node under two interleaved scan streams, and exactly when an incident opens, is announced and closes.
`deliveries.dfy` and `delivery_outcomes.dfy`: the claim and acknowledge protocol alerts and announcements
share, and what each status of a delivery says about the past. `cpu.dfy`: the sliding CPU window. `grants.dfy`: grant policies. `admission.dfy`: eviction events
and their alerts. `adoption.dfy`: legacy Xray clients. `nonces.dfy`: signed requests. `sets.dfy` holds a
fact about set sizes they share.

Times are integers (seconds) or reals, identifiers are numbers of which only equality and order are used,
and a clock, a random identifier, a remote answer or a row of a table outside the model is a parameter or
a free choice of the run. Operation rows carry their operation's profile, revision and creation time,
which never change after the insert. New identifiers and runtime names are assumed never to repeat an
earlier one, and a retired node's key is never used again. The clock that stamps ingests of eviction events
(`admission.dfy`) is assumed not to go back from one ingest to the next.

## Model

| member | source | states |
|---|---|---|
| `OutboxTheorems.Reachable` | app/backend/executor.py:192-267 | In every state of every run: claims held, calls made and effects agree with the task states; a command that may still take effect holds its node; at most one does; everything older than a sent command on its profile, node and protocol is settled for good; every peer on a node has an ensure as newest applied command, and on nodes not retired every such peer is there with the identity that ensure carried; names, revisions, deletions and operation states are consistent. |
| `OutboxTheorems.StepKeeps` | app/backend/executor.py:192-267 | Every one of the 28 kinds of step keeps that invariant. |
| `OutboxInvariants.LiveIsNewest` | app/backend/executor.py:219-229 | A command that can still take effect is newer than every applied command on the same peer, so a late effect never undoes a newer one. |
| `OutboxTheorems.OneCommandPerNode` | app/backend/executor.py:219-220 | At most one task is running or blocked on a node in every state of every run, through claims, crashes, recovery, repair and forced cancellation. |
| `OutboxTheorems.DispatchedOnceInOrder` | app/backend/executor.py:219-257 | No task is passed to the driver twice, and calls for one profile, node and protocol never go back in revision. |
| `OutboxTheorems.ClaimedInOrder` | app/backend/executor.py:221-229 | When a task is claimed, every older task of its profile, node and protocol has succeeded or been superseded and keeps that outcome for the rest of the run. |
| `OutboxTheorems.RunPersists` | app/backend/executor.py:107-143 | Task rows are never lost or rewritten, and a terminal status never changes. |
| `OutboxTheorems.OperationStatus` | app/backend/executor.py:74-83 | In every state, an operation whose tasks have not changed since its last refresh and none of whose tasks runs has the priority aggregate of its tasks as status; a finished operation has only succeeded tasks. |
| `Transactions.CommitLeads` | app/backend/executor.py:107-143 | Each committed transaction (claim of the first eligible row, refusal, result, reconciliation, repair, forced cancellation, device command, protocol removal, registry-only retirement) is a sequence of run steps. |
| `Transactions.HistoryIsRun` | app/backend/executor.py:107-267 | Every state between transactions is the last state of a run, so all run theorems hold there. |
| `Transactions.CommittedStatus` | app/backend/executor.py:74-83 | Between transactions, every operation with tasks and none running has exactly the aggregate status of its tasks. |
| `Transactions.RepairingLeads` | app/backend/executor.py:107-139 | Superseding the profile's queued and blocked work on the node, refreshing its operations in any order, recording the replacement at a raised revision and pointing the deletion at it is a sequence of run steps. |
| `Transactions.CancellingLeads` | app/backend/force_recovery.py:113-154 | The final transaction of a forced cancellation, with the withdrawal of settings tasks that wait for the same revocation, is a sequence of run steps, whichever order the overtaken operations are listed in. |
| `Transactions.CommandingLeads` | app/backend/device_commands.py:107-131 | A create, delete or rotate command, which raises the revision and records its operation, is a sequence of run steps. |
| `Transactions.AbandoningLeads` | app/backend/node_lifecycle.py:348-391 | Registry-only retirement of a node is a sequence of run steps. |
| `Transactions.WithdrawingLeads` | app/backend/protocol_removal.py:119-140 | Withdrawing queued ensures of removed protocols and rewriting their operations' states is a sequence of run steps. |
| `Executor.RecoveryFreesNothing` | app/backend/executor.py:25-28 | After a crash and recovery what was running is blocked, no other row moved, and no row is eligible that was not: what was running keeps holding its node. A second recovery changes nothing. |
| `Executor.Controller.NextRow` | app/backend/executor.py:203-230 | Finds the first row, by operation creation, operation and id, whose node has no unfinished job and no running or blocked task, that no settings task stands in the way of and that nothing unfinished at a lower revision precedes; none exactly when there is no such row. |
| `Executor.Controller.ClaimNext` | app/backend/executor.py:192-247 | Idle exactly when a core upgrade runs or no row is clear in that sense, changing nothing; otherwise the first clear row becomes running, or superseded when it is an ensure whose node, protocol or device is out of service, and no other row moves. |
| `Executor.Controller.Finish` | app/backend/executor.py:263-266 | Records the driver's answer, succeeded or blocked, only on a row still running, moves no other row and refreshes its operation. |
| `Executor.Controller.ReconcileCompleted` | app/backend/executor.py:145-169 | Exactly the listed rows the journal confirms and that are still blocked become succeeded, one refreshed transaction each, and their number is returned. |
| `Executor.Controller.RefreshOperation` | app/backend/executor.py:74-83 | Writes the aggregate and settles devices, old peers and accounts, in that order. |
| `Executor.Controller.ResolveBlocked` | app/backend/executor.py:85-143 | What a repair answered once is what every later call for that row answers, without touching anything; otherwise the row must be blocked and the agent must have answered, or nothing changes. |
| `Executor.Controller.ApplyRepair` | app/backend/executor.py:107-143 | The repair transaction happens exactly when the row is still blocked, with its effect on tasks, operations, profile, deletion and accounts, the restores re-pointed and the answer stored; otherwise nothing changes. |
| `Executor.RestoresKeepWaiting` | app/backend/executor.py:129-136 | Re-pointing leaves no restore without a dependency it had and none waiting for a withdrawn operation. |
| `Executor.Controller.ApplyForceCancel` | app/backend/force_recovery.py:113-154 | The cancellation happens exactly when the row is still blocked, with its effect on tasks, operations, the profile and waiting settings tasks; otherwise nothing changes. |
| `Executor.Controller.MakeRows` | app/backend/operations.py:112-132 | One fresh row per peer of every actionable target, none else, with the action the grants, the node and the device call for. |
| `Executor.Controller.RecordOperation` | app/backend/operations.py:79-132 | Records exactly those rows at the profile's revision, for previous and granted targets within the scope. |
| `Executor.Controller.Verdict` | app/backend/devices.py:105-116 | Decides from the descending list whether any row is undecided outside verified nodes and whether the newest row of every node is a confirmed removal. |
| `Executor.LatestIsNewest` | app/backend/devices.py:110-112 | The rows kept by setdefault over the descending list are exactly the newest row of each node. |
| `Executor.Controller.SettleDeletions` | app/backend/devices.py:101-118 | Exactly the deleting devices with a confirmed deletion become retired, and old peers are settled. |
| `Executor.Controller.SettleRetiredPeers` | app/backend/device_credentials.py:178-191 | Exactly the old peers whose newest row on every node is a confirmed removal are forgotten. |
| `Executor.Controller.SettleAccountDeletions` | app/backend/account_deletions.py:31-52 | Exactly the pending accounts all of whose profiles are revoked are released, with their devices. |
| `Executor.Controller.CheckDevice` | app/backend/device_commands.py:57-101 | When a command on an existing device goes ahead, and which refusal it gets otherwise, in the order of the checks. |
| `Executor.Controller.CreateDevice` | app/backend/device_commands.py:80-131 | A device is created exactly when the profile is usable, not under deletion, at the given revision and below its limit; the limit then holds and the operation covers every target. |
| `Executor.Controller.RemoveDevice` | app/backend/device_commands.py:126-131 | Marks the device, raises its revision and the profile's and records its removal on every target, or changes nothing. |
| `Executor.Controller.RotateAwgKey` | app/backend/device_commands.py:116-131 | Gives the device a new AWG name at new revisions, keeps the old peer under its own slot and records the operation, or changes nothing. |
| `OutboxRules.DispatchedOnlyWhenClear` | app/backend/executor.py:203-247 | In every run, a row claimed or retired undispatched was queued on a node with no unfinished job and no running or blocked task; no settings task there was running or blocked, and a queued one only while the saved protocols drop the task's; for an ensure the saved settings that keep its protocol were applied; nothing of its profile there at a lower revision was unfinished, save a queued row of the other protocol when a removal follows a dropped protocol. It is retired exactly when it is an ensure out of service, and no other row moves. |
| `OutboxRules.EligibleIsClear` | app/backend/executor.py:203-230 | The dispatch query returns exactly the rows that are clear in that sense. |
| `OutboxRules.FirstIsOldest` | app/backend/executor.py:230-230 | The row taken is of the oldest operation, then of the lowest operation id, then of the lowest task id. |
| `OutboxRules.MadeColumns` | app/backend/operations.py:112-132 | A recorded row ensures its peer exactly when the profile is usable, the node enabled, the target granted and the device active, and removes it otherwise; it carries the profile's revision, the peer's name and, for an Xray ensure, the device's UUID. |
| `OutboxRules.PeerSlots` | app/backend/operations.py:101-121 | Rows are made for every device of the profile and, for AWG, for every old peer of a profile that has a device. |
| `OutboxRules.TargetColumns` | app/backend/operations.py:70-77 | An operation for everything a profile has is for every target it is granted and every target a task was ever recorded for. |
| `OutboxRules.RecordedOperation` | app/backend/operations.py:98-132 | A recorded operation has no targets exactly when it got no row, and otherwise awaits its rows. |
| `OutboxRules.AggregateColumns` | app/backend/executor.py:74-83 | Blocked as soon as one task is; running only if one is and none is blocked; awaiting only without running tasks; succeeded exactly when all tasks succeeded. |
| `OutboxRules.RetiresExactly` | app/backend/devices.py:101-118 | A device is retired exactly when it is deleting, all its rows outside verified nodes are finished, and on every node not verified the row recorded last, by revision, creation and id, is a removal that succeeded. |
| `OutboxRules.ForgetsExactly` | app/backend/device_credentials.py:178-191 | An old peer is forgotten exactly when on every node not verified the row recorded last for it is a removal that succeeded. |
| `OutboxRules.ReleasesExactly` | app/backend/account_deletions.py:31-52 | An account is released exactly when its deletion is pending and every profile it owns waits for an operation that succeeded or had no targets; it loses its identities and channels at a new revision. |
| `OutboxRules.ReleasesDevicesExactly` | app/backend/account_deletions.py:31-52 | Exactly the devices of profiles whose owner is released are retired with it. |
| `OutboxRules.DeletionRequested` | app/backend/profile_commands.py:162-176 | A deletion request takes the profile's grants, makes it unusable at a new revision and, if it is owned, puts its active devices, and no others, on their way out. |
| `OutboxRules.OnlyRemovalsAfterDeletion` | app/backend/profile_commands.py:162-176 | From a deletion request on, in every run, every row recorded for the profile is a removal. |
| `OutboxRules.RepairRowsExactly` | app/backend/executor.py:107-139 | A repair withdraws exactly the queued and blocked rows of the profile on the node; every other row stays. |
| `OutboxRules.RepairProfileExactly` | app/backend/executor.py:107-139 | It raises the profile's revision by one, and a pending deletion now waits for the new operation. |
| `OutboxRules.CancelRowsExactly` | app/backend/force_recovery.py:113-154 | A forced cancellation withdraws exactly the row and the queued rows of the same profile, node, protocol and device at its revision or below. |
| `OutboxRules.CancelSettingsExactly` | app/backend/force_recovery.py:113-154 | And exactly the queued settings tasks of the node that wait for the removal of the same protocol. |
| `OutboxRules.ResultExactly` | app/backend/executor.py:263-266 | A result moves exactly a row still running, to succeeded or blocked. |
| `OutboxRules.ConfirmationExactly` | app/backend/executor.py:145-169 | A success the journal confirms moves exactly a row still blocked, to succeeded. |
| `Retirement.RetirementIsSound` | app/backend/devices.py:101-118 | Over whole runs: a device retired with a confirmed removal as newest row of every node and protocol has no peer on any node, then or ever after. |
| `Retirement.OneProtocolRetirementIsSound` | app/backend/devices.py:101-118 | The check the code makes is enough when the device's rows on each node are for one protocol. |
| `Retirement.RetirementExactly` | app/backend/devices.py:101-118 | For a device that settle_deletions retires and a node in service, if superseded commands about the peer had no effect: the peer is absent in every later state if and only if no confirmed ensure lacks a newer confirmed removal. |
| `Retirement.RetiredStaysAbsent` | app/backend/devices.py:101-118 | Without any hypothesis on superseded commands: a retired device's peer that is absent from a node in service at retirement is absent for the rest of the run. |
| `Retirement.PresenceFromTables` | app/backend/devices.py:110-116 | On a node in service, when superseded commands had no effect, a peer is present exactly when some confirmed ensure has no newer confirmed removal. |
| `RetirementGap.RetiredWithLiveClient` | app/backend/devices.py:112 | A history of whole transactions, every claim the first eligible row, whose last one retires a device while its Xray client is on a node in service. |
| `Retirement.GoneForGood` | app/backend/executor.py:203-247 | A peer whose name is out of service and whose ensures are all followed by confirmed removals is absent for the rest of the run. |
| `Retirement.ForgottenPeerIsGone` | app/backend/device_credentials.py:161-191 | An old AWG peer is forgotten only when, on every node asked that was not verified, the newest row of its slot is a succeeded removal that was dispatched at a step when every other row about the peer was settled; the peer is gone from that node for good. |
| `Retirement.ReleaseIsSound` | app/backend/account_deletions.py:31-52 | Identities are released only when every task of each owned profile's current deletion operation succeeded; those tasks are removals and their peers are gone for good, also after a repair replaced the operation. |
| `Retirement.ReleasedPeersAreGone` | app/backend/account_deletions.py:31-52 | When an account is released, every peer its profile had, present or left by a rotation, on any granted or ever recorded target whose node was actionable when the current deletion operation was recorded, is gone for the rest of the run. |
| `Retirement.VerifiedWasRevoked` | app/backend/node_lifecycle.py:211-231 | When a node is retired as verified, its confirmed revocations alone have already removed every device's peer from it. |
| `Retirement.VerifiedWasRevokedOld` | app/backend/node_lifecycle.py:211-231 | The same holds of every old AWG peer the node was asked to remove. |
| `Retirement.VerifiedStaysEmpty` | app/backend/node_lifecycle.py:392-456 | A node whose host was checked empty when it was retired carries no peer and no outstanding command in any later state. |
| `Issuance.HandedOutIsLive` | app/backend/config_issuance.py:294-316 | Between the request of a config and its hand-out at the same revisions, no revision of the profile, node or device moved, the device stayed active under the same names and Xray identity, and its peer was on the node with that identity in every state. |
| `Issuance.ArtifactIsLive` | app/backend/config_issuance.py:294-316 | Whatever happened to the issuance rows since: a hand-out whose last recheck passes names a state in which its row was requested, and the peer has been live at every state from there to the hand-out. |
| `Issuance.StaysRooted` | app/backend/config_issuance.py:248-292 | Claims, results and recoveries keep every issuance row tied to the state it was requested in. |
| `Issuance.NewIsRooted` | app/backend/config_issuance.py:160-171 | A request ties its row to the present state. |
| `Issuance.Pinched` | app/backend/config_issuance.py:190-195 | A counter that only grows and reads the same at both ends did not move in between. |
| `Issuance.ConfirmedIsPresent` | app/backend/config_issuance.py:97-106 | While the profile's revision is that of a succeeded ensure, the peer it names is on the node. |
| `Issuance.Desk.SelectActive` | app/backend/devices.py:74-88 | The chosen device if it is the profile's and active, the only active device if none is chosen, or the right refusal. |
| `Issuance.Desk.Latest` | app/backend/config_issuance.py:97-101 | The newest row of the device on that node and protocol, or none exists. |
| `Issuance.Desk.Current` | app/backend/config_issuance.py:67-126 | Succeeds exactly when everything demanded is in force, with the revisions in force; a running restore, a missing grant and an unusable profile are refused as such, in that order. |
| `Issuance.InForceExactly` | app/backend/config_issuance.py:67-126 | What must hold: no restore, a usable profile granted the target, a node enabled, up to date and offering the protocol, not drained and without unfinished job or settings task, an active device of the profile, and a last row of that device there that is an ensure succeeded at the profile's revision. |
| `Issuance.Desk.Request` | app/backend/config_issuance.py:128-171 | A new row only for a permitted caller, the chosen or only active device, when in force and at the revisions in force; a repeated key gives the same row for the same target and a conflict for another. |
| `Issuance.Desk.Complete` | app/backend/config_issuance.py:262-288 | A running row succeeds exactly when it is in time, the node answered and both checks passed at the row's revisions; a row not running is untouched. |
| `Issuance.Desk.Artifact` | app/backend/config_issuance.py:294-316 | Handed out exactly when the caller may read it before and after the remote read, the row succeeded, is in time, the node still answers what was stored, and everything is in force at the row's revisions before and after. |
| `Alerts.Monitor.Commit` | app/backend/alerts.py:447-657 | The node's part of a scan commit: candidate, reply, rows and events are those of the incident machine, whose announcements, openings and closings AlertExactness decides from the log; a scan overtaken by its own stream, and no other, changes nothing. |
| `Alerts.Monitor.Admit` | app/backend/alerts.py:480-533 | Which kinds an older observation may not touch, when a reply is recorded, and how the outage candidate moves. |
| `Alerts.Monitor.SwitchOff` | app/backend/alerts.py:149-150 | Switching monitoring off forgets the outage candidate. |
| `Alerts.ClassifyWellFormed` | app/backend/alerts.py:224-281 | A classified reading never calls a kind failing and healthy, calls nothing known it did not measure, and the fast scan never reports an outage. |
| `Alerts.HysteresisGap` | app/backend/alerts.py:58-78 | Between a failing and a healthy reading the value moved by at least the band in between. |
| `Alerts.LogInvariant` | app/backend/alerts.py:501-533 | A live outage candidate is newer than the last recorded reply, and every time on record is that of a committed scan. |
| `Alerts.LastSeenNeverBack` | app/backend/alerts.py:480-499 | last_seen_at never moves back while an incident lasts. |
| `AlertTheorems.OutageConfirmed` | app/backend/alerts.py:501-533 | An outage opens only after a chain of failed full scans at least 30 s long, neighbours at most 90 s apart and nothing else deciding in between, since whose start no reply is recorded, for every interleaving of the streams. |
| `AlertTheorems.OutageAndReplies` | app/backend/alerts.py:501-533 | A committed reply is dated at or after the start of the confirming chain exactly when the candidate of that chain was already live at its commit with a start no later than the reply; such a reply was overruled by an outage open then, whose row was dropped before the new one opened. |
| `AlertTheorems.OutageAfterEveryReply` | app/backend/alerts.py:501-533 | While the node stays monitored every committed reply, recorded or ignored as too old, is dated before the chain. |
| `AlertTheorems.ForgottenReply` | app/backend/alerts.py:658-659 | A log in which the rows are dropped while unmonitored and an outage is then confirmed across an ignored reply. |
| `AlertTheorems.RecoveryConfirmed` | app/backend/alerts.py:590-657 | A resolved event closes an incident that was opened and announced, after a chain of healthy observations of that kind within the incident, at least 30 s long, at most 90 s between neighbours; an unhealthy observation committed inside the chain was ignored because a scan of the other stream had caught up with it. |
| `AlertTheorems.RecoveryExactly` | app/backend/alerts.py:480-513 | Disk and service observations inside the chain are healthy without exception. One of a fast kind counts, and is healthy, exactly when no scan of the other stream had overtaken it; one of reachability exactly when nothing dated later was on record. An unhealthy one was committed only after the other stream had caught up with it. |
| `AlertTheorems.IgnoredFailure` | app/backend/alerts.py:451-489 | A log in which a RAM incident is resolved across a failing reading that was committed and ignored. |
| `AlertTheorems.ReminderBound` | app/backend/alerts.py:535-589 | An incident of length D with a fixed interval R is announced at most 2 + floor(D/R) times, at most twice when repeats are off. |
| `AlertTheorems.EscalatedOnce` | app/backend/alerts.py:541-569 | The escalation to critical is announced at most once per incident. |
| `AlertExactness.AnnouncedExactly` | app/backend/alerts.py:541-569 | A failing commit in an open incident announces it exactly when CPU load has become critical (95 %, and 90 % from then on) and no announcement of the incident said so, or a repeat interval is set and every announcement of the incident is at least that long ago; the event says whether the load is critical. |
| `AlertExactness.ReminderDue` | app/backend/alerts.py:557-569 | So no reminder is missed by a late scan. |
| `AlertExactness.FirstFailureAnnounced` | app/backend/alerts.py:541-569 | The failing commit that opens an incident always announces it. |
| `AlertExactness.OutageExactly` | app/backend/alerts.py:501-533 | An outage opens at a commit exactly when that commit ends a chain of failed full scans, at least 30 s long, at most 90 s between neighbours, during which monitoring was not switched off. |
| `AlertExactness.ClosedExactly` | app/backend/alerts.py:620-657 | A healthy observation closes an open incident, and reports it where asked to, exactly when it ends a chain of healthy observations of the kind at least 30 s long, at most 90 s between neighbours. |
| `AlertExactness.GoneExactly` | app/backend/alerts.py:590-660 | An incident ends exactly when the node is not monitored any more, a full scan finds its service unmonitored and not failing, or it recovered in that way. |
| `AlertExactness.FailsExactly` | app/backend/alerts.py:480-499 | A failing disk or service reading always counts; one of a fast kind exactly when the other stream has not overtaken it. |
| `AlertExactness.SeenExactly` | app/backend/alerts.py:570-657 | last_seen_at is the time of the last commit that was not ignored and knew the kind; first_seen_at that of the commit that opened the incident. |
| `AlertExactness.Thresholds` | app/backend/alerts.py:224-281 | The values at which each kind fails and is healthy again. |
| `Deliveries.GivenIsReturned` | app/backend/alerts.py:698-760 | A delivery was handed out exactly as often as it was given back, plus once if it is out. |
| `Deliveries.AtMostOnce` | app/backend/announcements.py:385-433 | A delivery is handed out at most once more than it was given back. |
| `Deliveries.FinalIsAbsorbing` | app/backend/announcements.py:476-501 | A sent, failed, unknown, skipped or inbox-only delivery never changes again. |
| `Deliveries.OneRowPerKey` | app/backend/alerts.py:704-713 | A claim key has at most one delivery, in every state. |
| `Deliveries.RepeatedKey` | app/backend/announcements.py:391-409 | Repeating a key that still has its delivery returns that delivery while it is claimed, and otherwise nothing. |
| `Deliveries.BoundExactly` | app/backend/alerts.py:704-755 | A key has a delivery exactly when that delivery's last hand-out was under it. |
| `Deliveries.AnotherExactly` | app/backend/announcements.py:378-433 | A request, and so a repeated key, gets a new delivery exactly when neither maintenance, a restore nor a pause closes it, some queued row it reads is wanted, and no delivery was last handed out under its key. |
| `Deliveries.AnotherOnlyAfter` | app/backend/telegram_delivery_retry.py:24-34 | So a key that was used for one delivery gets another only after the first was handed out under another key. |
| `Deliveries.ReusedKey` | app/backend/telegram_delivery_retry.py:24-34 | A log in which that happens: given back, handed out under a second key, and the first key then gets another delivery. |
| `Deliveries.PauseIsKept` | app/backend/telegram_delivery_retry.py:15-34 | After a sender was told to slow down it gets nothing until the pause is over. |
| `Deliveries.Outbox.Take` | app/backend/announcements.py:411-433 | The first wanted queued row is claimed; the unwanted ones before it are put aside, the rest stay. |
| `Deliveries.Outbox.Claim` | app/backend/announcements.py:378-433 | Maintenance, pause, expiry, restore, the key's own row or a new row, as the protocol says. |
| `Deliveries.Outbox.Acknowledge` | app/backend/announcements.py:476-501 | A claimed row becomes sent, failed, unknown or queued again as reported, a retry pausing the sender until the later of the two pauses; no other row changes; a repeated answer is accepted and a different one refused. |
| `DeliveryOutcomes.SentExactly` | app/backend/announcements.py:476-501 | In every state, a delivery is sent exactly when the sender that had it under its key reported it sent, and failed exactly when that sender reported a failure. |
| `DeliveryOutcomes.StatusExactly` | app/backend/alerts.py:698-814 | And for every final status: unknown means that the sender did not know, that its time ran out, or that it repeated its key for a message no longer wanted; skipped and inbox-only mean that a request read past the queued row for that reason, that monitoring was switched off, or that the row was made so. |
| `DeliveryOutcomes.ClaimEnds` | app/backend/announcements.py:411-433 | A delivery that is out was last given to the sender whose key it carries, for 120 s from that request. |
| `CpuWindow.CpuSampler.Observe` | app/backend/host_resources.py:42-60 | Whatever is fed, the deque is the window of the uninterrupted history: it starts at the newest sample at least 60 s older than the last, or at the first. |
| `CpuWindow.CpuSampler.Usages` | app/backend/host_resources.py:62-71 | There is an answer exactly when the span from the newest sample at least 60 s old is 60 to 75 s, the reading at most 15 s old and the counters moved without going back; it is the busy share of that span in percent, to the nearest tenth, and always accepted by cpu_metrics. |
| `CpuWindow.WindowBelow75` | app/backend/host_resources.py:55-60 | The window is always shorter than 75 s. |
| `CpuWindow.FullUsageUnique` | app/backend/host_resources.py:62-71 | The history determines the metrics. |
| `CpuWindow.UsageAccepted` | app/backend/host_resources.py:26-35 | Usage of any span is between 0 and 100 percent with an accepted window and age. |
| `CpuWindow.UsageExactly` | app/backend/host_resources.py:62-71 | A span has an answer exactly under the bounds on window, age and counters; the percentage is within half a tenth of the busy share, ties going to the even tenth, 100 when no idle time passed and 0 when only idle time did. |
| `CpuWindow.CounterColumns` | app/backend/host_resources.py:42-55 | Which lines are refused, and that the total sums all counters and the idle time is idle plus iowait. |
| `CpuWindow.ExtendExactly` | app/backend/host_resources.py:55-60 | A reading continues the history exactly when it leaves it uninterrupted; a late one is dropped, any other starts anew. |
| `Grants.ReconcileIsFixpoint` | app/backend/grant_policies.py:165-178 | After a pass every governed profile has exactly what it is entitled to, exactly the changed profiles got one new revision, and a second pass changes no grant, revision, policy or operation. |
| `Grants.PromotionRoundTrip` | app/backend/grant_policies.py:137-154 | Promotion, any number of passes and demotion give a member its grants back. |
| `Grants.PreviewIsEffect` | app/backend/grant_policies.py:189-211 | For an active node and materialized grants the preview lists exactly the profiles, and exactly the protocols, that assigning the region and reconciling changes, also for a region that does not exist yet. |
| `Grants.InactiveHasNoEffect` | app/backend/grant_policies.py:202-204 | Assigning a region to a node that is not set up changes no grant, so the preview agrees with the effect for a profile exactly when it does not list it. |
| `Grants.GrantTables.Derive` | app/backend/grant_policies.py:123-134 | Accumulating over nodes and rules gives exactly the derived grants, which MemberGrantsExactly states from the rows. |
| `Grants.GrantTables.Materialize` | app/backend/grant_policies.py:137-154 | Stores the member policy of a new admin, writes the entitlement and reports a change exactly when there is one. |
| `Grants.GrantTables.Reconcile` | app/backend/grant_policies.py:165-178 | One pass over the governed profiles, one revision and one operation for each that changed. |
| `Grants.MemberGrantsExactly` | app/backend/grant_policies.py:123-154 | After a pass a member with a policy holds a node and protocol exactly when it is not deleted and either lists it, or the node offers the protocol, is placed, enabled or applied, neither drained nor retired, no exclusion names it, and some rule extends the protocol to every region or to the node's own. |
| `Grants.AdminGrantsExactly` | app/backend/grant_policies.py:137-154 | After a pass an admin not deleted holds every protocol of every placed node that has been set up and is neither drained nor retired, and nothing else. |
| `Grants.GrantTables.AssignRegion` | app/backend/grant_policies.py:20-27 | Creates the region if needed and moves the node to it. |
| `Grants.GrantTables.RegionPreview` | app/backend/grant_policies.py:189-211 | Lists exactly the profiles whose grants would differ, with added and removed protocols. |
| `Admission.AddsNothingExactly` | app/backend/connection_limits.py:108-155 | A batch changes nothing but what retention removes, in events, notifications and alerts, if and only if everything it would insert is older than retention. |
| `Admission.ReplayExactly` | app/backend/connection_limits.py:108-155 | Replaying an earlier batch at any later time adds something if and only if one of its events was never counted and is within retention; the client of such an event was unknown the first time. |
| `Admission.ReplayAddsNothing` | app/backend/connection_limits.py:108-155 | So with no client newly known, a replay adds no event, notification or alert, also after its events were purged. |
| `Admission.LateClient` | app/backend/connection_limits.py:114-120 | A log in which a replay counts the event of a client that was unknown the first time. |
| `Admission.AlertBound` | app/backend/connection_limits.py:158-170 | After every ingest each device has fewer than 5 un-alerted events in its 24 h, and 5 times its alerts are at most its distinct events over the run. |
| `Admission.Limits.Insert` | app/backend/connection_limits.py:131-150 | Exactly the relevant events not on record are inserted, with their notifications and devices. |
| `Admission.Limits.Store` | app/backend/connection_limits.py:108-155 | Insert, alert per touched device, purge. |
| `Admission.NoticesExactly` | app/backend/connection_limits.py:142-150 | Notifications are queued exactly for evictions of known clients not on record and less than half an hour old, one per device and half hour. |
| `Admission.EventsExactly` | app/backend/connection_limits.py:131-155 | On record afterwards is exactly what was on record, or is new and of a known client, of the last seven days, with its device, kind and time. |
| `Admission.AlertsExactly` | app/backend/connection_limits.py:158-170 | A device gets one more alert exactly when the batch brings an event of it and at least five un-alerted events of it are of the last day. |
| `Admission.Busiest` | app/backend/connection_limits.py:56-85 | The node the cross-multiplied comparison puts at least as high as all others, the first of equals; without limited nodes, no load against the device's own limit. |
| `Admission.BusyIsRatio` | app/backend/connection_limits.py:77-78 | The cross-multiplied comparison compares the shares of the limits. |
| `Adoption.Adopt` | app/backend/device_credentials.py:39-84 | One credential per eligible profile on the device the preference order calls for, with the devices created on the way. |
| `Adoption.OnePerProfile` | app/backend/device_credentials.py:39-84 | A profile gets a credential exactly when it exists, has an identity and had a legacy client but no Xray credential yet; exactly one, with its own UUID and runtime name, on one of its own devices. |
| `Adoption.ChosenExactly` | app/backend/device_credentials.py:58-80 | The oldest active device with the profile's name, else the oldest active one, else a new default device for a profile without any, else a new device with an unused title for a profile with an Xray grant, else the newest of its devices. |
| `Adoption.AdoptsOnce` | app/backend/device_credentials.py:52-66 | Running adoption on its own output adds nothing. |
| `Adoption.NextNumber` | app/backend/device_credentials.py:72-73 | The search returns the first free number and never leaves its range. |
| `Adoption.Pigeonhole` | app/backend/device_credentials.py:72-73 | Among the first len(names)+1 numbered names one is free. |
| `Nonces.NoReplay` | app/backend/client_keys.py:145-164 | No signed request is accepted twice when the clocks of the requests committed between the two are at most 60 s ahead of the replay's. |
| `Nonces.ReplayDecided` | app/backend/client_keys.py:157-164 | A replay gets through exactly when a request committed in between had a clock more than 180 s ahead of the first acceptance. |
| `Nonces.SixtyOneIsTooMuch` | app/backend/client_keys.py:27-29 | A log in which a clock 61 s ahead lets a replay through. |
| `Nonces.NonceTable.Authenticate` | app/backend/client_keys.py:145-164 | Accepts exactly sound requests of staff within 60 s of their stamp whose nonce was not seen in the last 180 s, and stores or leaves the nonces accordingly. |

## Left out

- Executor.Controller.ReconcileCompleted: the rows are those listed at the start; each row's transaction is atomic and other steps may run between them, which the run system covers.
- Executor.Controller.CheckDevice: stored answers of repeated commands, permissions and display names are not modelled.
- Executor.Controller.CreateDevice: the display name of the new device is not modelled, nor the check that it differs from its siblings'.
- Issuance.Desk.Current: whether the node offers the transport, whether a restore runs and whether an AWG bundle is stored are parameters.
- Issuance.Desk.Request: who may issue configs of a profile is a parameter, as in Issuance.Desk.Artifact.
- Retirement.RetirementExactly: the if-and-only-if assumes that superseded commands about the peer had no effect, because the tables cannot tell; a fenced command may have taken effect before it was fenced.
- Retirement.PresenceFromTables: makes the same assumption.
- Executor.Controller.ResolveBlocked: the agent's observation that is stored with the answer and the permission check are not modelled.
- Retirement.VerifiedStaysEmpty: takes the host check at its word; what the check inspects is not modelled.
- Alerts.Monitor.Commit: one node; scans of several nodes are independent, and rows written by earlier versions without a notification time fall back on the event table, which is not modelled.
- AlertTheorems.OutageAfterEveryReply: goes one way; `AlertTheorems.OutageAndReplies` has the exact condition.
- Deliveries.Outbox.Claim: the list of queued rows and whether each is still wanted are parameters; deleting the deliveries of a retired node is not modelled.
- CpuWindow.CpuSampler.Usages: arithmetic is exact; binary floating point is not modelled.
- Admission.Limits.Store: per-node cursors, session counts and message texts are not modelled.
- Adoption.Adopt: rewriting the device of earlier task and issuance rows is not modelled.
- The Xray client of a device is created with the device, not on first use.
- Nodes are changed only by commands of the outbox and by verified retirement: rebuilding or wiping a node by other means is not in the world of the run system.
- Order of rows in tables without ORDER BY is arbitrary in the code and here.
- Expiry of profiles (app/backend/executor.py:30-71), account merges, resuming forced targets and quota changes appear only as steps that raise a revision and record an operation.
- Fingerprints of device commands and their stored answers: they would only add an easy member.
- HTTP routes, permissions, transport, cryptography, JSON, SQL isolation, file locks, backups, installers and texts.

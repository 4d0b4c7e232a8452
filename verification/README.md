# Buteo sync framework: a verified model

A Dafny model of the parts of the Buteo sync daemon and of its profile library in which state is
kept over many calls: the session scheduler with its storage reservations, the composition of
profiles, the sync log, and a few reference-counted resources. `dafny verify dfyconfig.toml` checks
everything.

Each part has two layers. One is a set of functions on values (a state and what each call makes of
it) with theorems over every input or every run of calls. The other is the source's own form:
classes whose methods change their fields in place, with the source's loops, each proved to do
exactly what the function says. Each slot of `Synchronizer` also ensures the scheduler's invariant
`Good` of the objects, when it held before and the slot is called as the theorems assume (`MayTake`).

## The parts

**Session scheduler** (`StorageBooker`, `SyncProfiles`, `Ledger`, `Scheduler*`, `Synchronizer`).
The state is the reservation map, the active sessions, the waiting queue and the backup flag. Its
steps are start requests, signals of plug-ins and of the network, finishes, aborts, storage requests
of plug-ins and D-Bus callers, and the start and end of a backup. Ghost history records what was
announced, how many sessions were created and ended, what outside callers booked, and what was
booked a second time (`surplus`). The invariant `Sound` says that each booking is the sum of what its
owner's live session needs, what outside callers booked, and the surplus. What is assumed of the
outside world is written down once, in `SchedulerTheorems.Allowed`:

- a profile is found under its own, non-empty name and has a client sub-profile;
- outside callers release only what they booked (`releaseStorage` does not look at the owner);
- a session that succeeds acquired only storages that were switched on in its profile already,
  because the list to release is recomputed from the profile after `enableStorages`
  (`BackendsSurviveEnabling`, `FinishSparesOthersIff` and `EnablingCanFreeAnothersStorage` say
  exactly what this is worth);
- a finish that comes late carries a final status;
- a backup start visits every active session.

**Profiles** (`MultiMaps`, `Profile`, `ProfileObject`, `ProfileDom`, `Composition`, `SavedProfiles`,
`MergedValues`, `MergedOrder`, `ReturningValues`, `MovingValues`, `CompositionLimits`,
`ProfileManager`). A map of keys is its list of entries in the order of iteration, newest first among
equal keys. The DOM is a tree datatype and the profile files are a finite map. `Process` loads one sub-profile after the other from left to right; the rounds of
`expand` are proved equal to it.

**Sync log** (`SyncLog`, `SyncLogObject`), **retries** (`Retries`, `ProfileManager`), **plug-ins**
(`Plugins`, `PluginManager`), **background activities** (`BackgroundSync`, `SyncScheduler`),
**server activation** (`ServerActivator`, `ServerActivatorObject`) and **external sync status**
(`ExternalSync`) are small state machines of their own.

The theorems on what listeners of the external sync status know take a profile's account and client
not to change over the run.

Clocks, battery, network, plug-in answers and file contents are inputs of the steps. Signals are a
ghost trace; queued connections are later steps.

## What does not hold

The model keeps the code as it is. Where an expected property fails, a concrete input is given and
the exact condition is proved.

- A queued session whose client is busy keeps its storages booked and is booked for again later, but
  gives them back once (`BookingsCanOutliveEverySession`). When everything has ended the map is empty
  if and only if no attempt along the run met a head that was booked for already
  (`NothingStaysBookedIff`); otherwise exactly the surplus stays (`QuietBooksAreSurplus`).
- A waiting sync that could start is not always tried: after a backup, or after the abort of the one
  before it, it waits for the next session to finish, although there may be none
  (`BackupCanForgetTheQueue`, `AbortCanForgetTheQueue`). `HeadIsLeftWaitingIff` says exactly which
  slots leave it so, and when; a run without such a slot forgets nobody (`NobodyIsForgotten`).
- A start request that queues its sync because the client is busy answers no, while one that queues
  it because storages are taken answers yes (`QueuedIsAnsweredEitherWay`, `StartAnswers`).
- A sync that switches a storage on releases a back-end it never booked. In a run from the initial
  state that frees the back-end another session runs on, and a third session then shares it
  (`EnablingCanFreeAnothersStorage`, `FinishSparesOthersIff`).
- Times in the sync log are written to the second. Of two successes within a second a reader keeps
  the first (`SameSecondForgetsLast`, `LastSuccessRestoredIff`), and a window that is not full gains
  an entry if the last success is older than its first result (`ShortWindowGrows`,
  `WindowRestoredIff`).
- A profile written with its merged keys is read with the precedence of values turned around
  (`FullPrintTurnsPrecedence`, `FullPrintKeepsKeyIff`).
- Merged values are not saved, and may not come back to the same sub-profile. A file's sub-profile
  that names no type gives its values to the first sub-profile of that name, and which one is first
  can change (`UntypedValueCanMove`). All merged values come back, for every profile and every edit, if
  and only if no file that can be loaded holds such a value for a name of which several sub-profiles
  can turn up, or of which the only one need not be there yet (`MergedValuesComeBackIff`).
- Listeners of the external sync status are told an account and a client, not a profile. With two
  profiles of one account and client the last they heard can be the other's flag
  (`SharedAccountMisleads`); they know every flag after every run if and only if no two profiles share
  both (`ListenersAlwaysAgreeIff`).

## Model

| member | source | states |
|---|---|---|
| StorageBooking.ReleaseUndoesReserve | msyncd/StorageBooker.cpp:40-122 | releasing the list that a successful reserve booked restores the whole reservation map, with repeated names and for the empty client too |
| StorageBooking.CountIsGrantsMinusReleases | msyncd/StorageBooker.cpp:40-122 | after any run of requests every entry's count is at least 1 and equals the grants minus the effective releases of that storage |
| StorageBooking.OwnerIsFixedWhileBooked | msyncd/StorageBooker.cpp:49-65 | as long as an entry exists its owner never changes, whatever is requested meanwhile |
| StorageBooking.StorageBooker.ReserveStorage | msyncd/StorageBooker.cpp:40-68 | succeeds exactly if the storage is free or already booked by this non-empty client; changes nothing else and nothing on failure |
| StorageBooking.StorageBooker.ReserveStorages | msyncd/StorageBooker.cpp:70-88 | all or nothing: on success each name is counted as often as listed, on failure the map is unchanged |
| StorageBooking.StorageBooker.ReleaseStorage | msyncd/StorageBooker.cpp:90-111 | one count less, the entry goes at zero, an unknown storage is ignored; the answer is the remaining count |
| StorageBooking.StorageBooker.ReleaseStorages | msyncd/StorageBooker.cpp:113-122 | every listed occurrence is released, whoever owns the entry |
| StorageBooking.StorageBooker.StoragesAvailable | msyncd/StorageBooker.cpp:124-149 | true exactly if every listed storage is available to the client |
| SyncProfiles.BackendsSurviveEnabling | msyncd/synchronizer.cpp:611-626 | the back-ends released after a success are those reserved if and only if the sync switched no storage on |
| SyncProfiles.BackendsOfDistinct | libbuteosyncfw/profile/SyncProfile.cpp:352-368 | without repeated names the list is the back-end of each enabled storage, in order |
| SyncProfiles.BackendsAre | libbuteosyncfw/profile/SyncProfile.cpp:352-368 | with repeated names the same of the storages that looking the names up finds, the first of each |
| SyncProfiles.UsedBackends | libbuteosyncfw/profile/SyncProfile.cpp:352-368 | a back-end is in the list exactly if it is that of an enabled storage which is the first of its name |
| SyncProfiles.EnabledAt | libbuteosyncfw/profile/ProfileManager.cpp:744-766 | of each acquired name the first storage is switched on, and no other storage changes |
| Ledger.ReleaseKeepsCoverIff | msyncd/StorageBooker.cpp:90-122 | a release leaves every live session's bookings sufficient if and only if the counts before it reach for both |
| Ledger.LeftoverIsSurplus | msyncd/StorageBooker.cpp:40-122 | once nobody has anything to give back, the map holds exactly the second bookings |
| SchedulerTheorems.StepKeepsSound | msyncd/synchronizer.cpp:387-808 | every slot keeps the invariant: exact booking balance, distinct clients, queue without duplicates, conservation of sessions |
| SchedulerEndings.StepAccounts | msyncd/synchronizer.cpp:598-808 | the final statuses announced within a slot are one for each session that ends in it, and those answers that met no session, no more and no fewer |
| SchedulerEndings.RunAccounts | msyncd/synchronizer.cpp:387-979 | the same of every stretch of a run |
| SchedulerTheorems.StepKeepsHandshake | msyncd/synchronizer.cpp:659-673 | no slot short of a backup request answers a request nobody made, or makes a session active during a backup |
| SchedulerTheorems.RunsStayGood | msyncd/synchronizer.cpp:387-979 | all of this over any run of allowed slot calls |
| SchedulerResults.ActiveSessionsExclude | msyncd/synchronizer.cpp:454-492 | in every reachable state two active sessions share no client and have no enabled storages with the same back-end; that of each enabled storage is booked in its session's name |
| SchedulerResults.BackendListsExclude | msyncd/StorageBooker.cpp:40-122 | the same of the back-end lists, each back-end booked at least as often as its session lists it |
| SchedulerResults.SessionsAreConserved | msyncd/synchronizer.cpp:387-499 | created = active + queued + ended; nobody is active and queued or queued twice; all final statuses of the run are one for each ended session and the answers that met no session |
| SchedulerResults.DrainServesInOrder | msyncd/synchronizer.cpp:689-758 | the drain takes a prefix off the queue in order, leaves each taken session active or ended with an announced error, and stops only for an empty queue, a backup, unavailable storages or a busy client |
| SchedulerResults.BackupStartIsAnsweredOnce | msyncd/synchronizer.cpp:1545-1576 | from a backup start until the next request no session becomes active, and exactly one reply is sent, when and not before the last active session is gone |
| SchedulerResults.QuietBooksAreSurplus | msyncd/synchronizer.cpp:737-742 | with no sessions and no outside bookings exactly the second bookings remain, so the map is empty if and only if there were none |
| SchedulerResults.SecondBookingOnlyOfDeferredHead | msyncd/synchronizer.cpp:730-742 | an attempt books a second time exactly if the head of the queue already holds its storages |
| SchedulerLeftovers.NothingStaysBookedIff | msyncd/synchronizer.cpp:702-758 | once everything has ended, the reservation map is empty if and only if no attempt along the run met a head whose back-ends were booked already |
| SchedulerOutcomes.StartAnswers | msyncd/synchronizer.cpp:387-499 | during a backup a start only answers no; otherwise the sync runs or waits after it exactly if the answer is yes or its client is busy, where the answer is no; what was made of it is what is announced |
| SchedulerOutcomes.StartOutcome | msyncd/synchronizer.cpp:451-499 | where a start of an enabled profile that neither runs nor waits ends, with which answer and announcement, read off the state and the request before it |
| SchedulerOutcomes.StartedIff | msyncd/synchronizer.cpp:451-596 | such a start makes the profile active exactly if it is valid, has a free client, is not a scheduled one on low power or in power-save mode, its storages are available, and its runner initialises and starts or is a manual online sync's |
| SchedulerOutcomes.StartOtherwise | msyncd/synchronizer.cpp:387-449 | what the other starts do: in a backup, of what runs or waits, of a missing or disabled profile |
| SchedulerOutcomes.AttemptOutcome | msyncd/synchronizer.cpp:702-758 | which of five ends an attempt on the head of the queue takes, read off the state before it |
| SchedulerOutcomes.RequestOutcome | msyncd/synchronizer.cpp:949-954 | an outside request books all it lists in the caller's name if all is available to the caller, and else nothing |
| SchedulerOutcomes.GiveOutcome | msyncd/synchronizer.cpp:956-962 | an outside release takes each name off as often as it is listed, down to nothing |
| SchedulerSignals.DrainStartsIff | msyncd/synchronizer.cpp:689-758 | of the syncs a drain takes off the queue it starts exactly those not scheduled on low power whose runner starts, and each other ends once |
| SchedulerSignals.FinishOutcome | msyncd/synchronizer.cpp:598-693 | the finish slot announces the status it was called with before anything else, and its session has left while the other active ones go on |
| SchedulerSignals.SignalOutcome | msyncd/SyncSession.cpp:268-437 | which signals end an active session, with exactly which status, and that the others announce nothing and leave it active |
| SchedulerSignals.AbortOutcome | msyncd/SyncSession.cpp:172-190 | an abort of an active session ends it at once if it is not started, marks it otherwise, and ends it if the plug-in answers from within the call |
| SchedulerOutcomes.QueuedIsAnsweredEitherWay | msyncd/synchronizer.cpp:444-481 | a reachable state in which one start that queues its sync answers no and another answers yes |
| SchedulerOutcomes.AbortOfWaiting | msyncd/synchronizer.cpp:796-807 | aborting a sync that does not run takes it and only it out of the queue, ends it, and announces a cancellation in any case |
| SchedulerLimits.BookingsCanOutliveEverySession | msyncd/synchronizer.cpp:737-742 | a reachable state with no session, no queue and no outside booking in which a storage is still booked |
| SchedulerWakeups.DrainEndsStuck | msyncd/synchronizer.cpp:689-692 | after a drain the head of the queue could not be started |
| SchedulerWakeups.HeadIsLeftWaitingIff | msyncd/synchronizer.cpp:796-807 | where no waiting head could start before, a slot leaves one that could exactly if it ends a backup, gives back an outside booking, or takes a waiting sync away, and with that makes way for the head |
| SchedulerWakeups.BackupCanForgetTheQueue | msyncd/synchronizer.cpp:1578-1585 | a run at whose end a sync that could start waits and nothing is active whose end would start it |
| SchedulerWakeups.AbortCanForgetTheQueue | msyncd/synchronizer.cpp:796-807 | a run in which the abort of the waiting head leaves a sync that could start with nothing active |
| SchedulerWakeups.NobodyIsForgotten | msyncd/synchronizer.cpp:387-979 | over any run from a state where nobody waiting could start, someone waiting could start at its end only if one of its slots was such |
| SchedulerLimits.FinishSparesOthersIff | msyncd/synchronizer.cpp:609-655 | after a success every other session stays covered if and only if each count before it reaches for what is released and what the other needs; in terms of the books, if the released list takes no more than outside and second bookings |
| SchedulerLimits.EnablingCanFreeAnothersStorage | msyncd/synchronizer.cpp:997-1027 | a run in which a plug-in acquires contacts its profile had switched off, and its success frees the contacts another session still runs on, so that a third session starts on them |
| Synchronizing.SyncSession.SetPluginRunner | msyncd/SyncSession.cpp:76-110 | a session that was handed a runner counts as started |
| Synchronizing.SyncSession.Start | msyncd/SyncSession.cpp:119-160 | a manual online session waits for the network, any other is as started as its plug-in |
| Synchronizing.SyncSession.Abort | msyncd/SyncSession.cpp:172-190 | a started session is marked aborted and announces nothing itself; an unstarted one announces an error |
| Synchronizing.SyncSession.OnSuccess | msyncd/SyncSession.cpp:268-288 | announces done, or aborted if it had been told to abort |
| Synchronizing.SyncSession.OnError | msyncd/SyncSession.cpp:290-324 | announces not-possible for an unsupported sync type and an error otherwise |
| Synchronizing.SyncSession.OnDone | msyncd/SyncSession.cpp:348-362 | announces an error only if nothing was announced before |
| Synchronizing.SyncSession.OnNetworkSessionOpened | msyncd/SyncSession.cpp:415-437 | tries to start and announces an error if that fails |
| Synchronizing.SyncSession.ReserveStorages | msyncd/SyncSession.cpp:388-401 | books the profile's enabled back-ends in the profile's name and remembers the booker, or changes nothing |
| Synchronizing.SyncSession.ReleaseStorages | msyncd/SyncSession.cpp:403-413 | releases the back-ends the profile lists now, once, and forgets the booker |
| Synchronizing.SyncQueue.Enqueue | msyncd/SyncQueue.cpp:30-36 | appends at the end |
| Synchronizing.SyncQueue.Dequeue | msyncd/SyncQueue.cpp:38-49 | takes the oldest session, or nothing from an empty queue |
| Synchronizing.SyncQueue.DequeueNamed | msyncd/SyncQueue.cpp:51-64 | takes out the first session of that name and leaves the others in order, or changes nothing if there is none |
| Synchronizing.SyncQueue.Contains | msyncd/SyncQueue.cpp:92-103 | true exactly if a session of that name waits |
| Synchronizing.SyncBackup.SendDelayReply | msyncd/SyncBackup.cpp:66-78 | one reply is pending afterwards; an older pending one is lost |
| Synchronizing.SyncBackup.SendReply | msyncd/SyncBackup.cpp:80-98 | sends the pending reply, at most once |
| Synchronizing.Synchronizer.ClientProfileActive | msyncd/synchronizer.cpp:866-878 | true exactly if an active session uses the client |
| Synchronizing.Synchronizer.StartSync | msyncd/synchronizer.cpp:387-499 | does to the objects what the scheduler's start step says, with its return value and emissions, and keeps every session object in one place |
| Synchronizing.Synchronizer.StartSyncNow | msyncd/synchronizer.cpp:501-596 | makes the session active only if no backup is on, it has a client, and its runner initialises and starts |
| Synchronizing.Synchronizer.StartNextSync | msyncd/synchronizer.cpp:702-758 | one attempt on the head of the queue, booking before looking at the client |
| Synchronizing.Synchronizer.StartWaitingSyncs | msyncd/synchronizer.cpp:689-692 | the loop ends and is the drain of the theorems |
| Synchronizing.Synchronizer.CleanupSession | msyncd/synchronizer.cpp:760-787 | the session ends and gives back what it holds |
| Synchronizing.Synchronizer.OnSessionFinished | msyncd/synchronizer.cpp:598-693 | retires the session, replies to a backup if it was the last one told to abort, announces the status, drains |
| Synchronizing.Synchronizer.OnStorageReleased | msyncd/synchronizer.cpp:971-979 | drains |
| Synchronizing.Synchronizer.AbortSync | msyncd/synchronizer.cpp:789-808 | aborts an active session, or takes a waiting one out of the queue and announces the cancellation |
| Synchronizing.Synchronizer.Deliver | msyncd/SyncSession.cpp:268-362 | a signal reaches its session, and what the session announces reaches the finish slot |
| Synchronizing.Synchronizer.RequestStorages | msyncd/synchronizer.cpp:949-954 | an outside booking, all or nothing |
| Synchronizing.Synchronizer.ReleaseStorages | msyncd/synchronizer.cpp:956-962 | an outside release |
| Synchronizing.Synchronizer.BackupRestoreStarts | msyncd/synchronizer.cpp:1545-1563 | replies at once if nothing is active, and otherwise aborts every active session |
| Synchronizing.Synchronizer.BackupRestoreFinished | msyncd/synchronizer.cpp:1578-1585 | the flag is off and the finish request is answered |
| MultiMaps.InsertMultiKeepsOrder | libbuteosyncfw/profile/Profile.cpp:65-66 | inserting keeps the entries in key order |
| MultiMaps.LessIsLexicographic | libbuteosyncfw/profile/Profile.cpp:176-179 | keys are ordered by the first place where they differ |
| MultiMaps.SameValuesSameMap | libbuteosyncfw/profile/Profile.cpp:263-297 | an ordered map is determined by the values of each key |
| Profiles.KeyViewsAgree | libbuteosyncfw/profile/Profile.cpp:125-174 | the values of a key in all keys are the local ones and then the merged ones, and the key's value is the first of them |
| Profiles.SetKeyReadBack | libbuteosyncfw/profile/Profile.cpp:181-196 | setting a key puts the value first, replacing the newest local one only; null removes all of them; other keys are unchanged |
| Profiles.SetKeyValuesReadBack | libbuteosyncfw/profile/Profile.cpp:198-211 | the values are read back as the list that was set, in order; other keys are unchanged |
| Profiles.AddedFields | libbuteosyncfw/profile/Profile.cpp:453-460 | a field the target has stays; a new field name gets the source's first field of that name |
| Profiles.AddedOnce | libbuteosyncfw/profile/Profile.cpp:453-460 | name by name, the fields afterwards are those that were there, or else just the source's first one |
| Profiles.AbsorbOutcome | libbuteosyncfw/profile/Profile.cpp:448-461 | after a merge a key has the source's merged values, then its local ones, then what was there; nothing of the target's own changes |
| Profiles.FlattenIsTree | libbuteosyncfw/profile/Profile.cpp:435-467 | what is merged is the source and everything anywhere below it, itself first |
| ProfileObjects.Profile.KeyOf | libbuteosyncfw/profile/Profile.cpp:125-136 | the first of the key's values, or the default if there is none |
| ProfileObjects.Profile.SetKey | libbuteosyncfw/profile/Profile.cpp:181-196 | as proved for the value, in place, for every name and value; an empty name changes nothing |
| ProfileObjects.Profile.SetKeyValues | libbuteosyncfw/profile/Profile.cpp:198-211 | the loop from the last value to the first leaves the values in list order |
| ProfileObjects.Profile.RemoveKey | libbuteosyncfw/profile/Profile.cpp:218-222 | removes local and merged values of the key |
| ProfileObjects.Profile.Merge | libbuteosyncfw/profile/Profile.cpp:435-467 | merges every profile of the source's tree, in pre-order, into this profile's own list of sub-profiles |
| ProfileDom.RereadIs | libbuteosyncfw/profile/Profile.cpp:53-86 | what parsing a printed profile gives, field by field |
| ProfileDom.ParseOutcome | libbuteosyncfw/profile/Profile.cpp:53-86 | of any profile element: its attributes, and of each key the texts of its elements, the last in front, where nameless and valueless ones do not count |
| ProfileDom.WriteOutcome | libbuteosyncfw/profile/Profile.cpp:263-308 | the attributes, the local keys first, and exactly the sub-profiles that are not merged or have keys or fields of their own |
| ProfileDom.RereadReversesValues | libbuteosyncfw/profile/Profile.cpp:263-308 | each key's printed values come back in reverse order; nameless keys do not come back |
| ProfileDom.FullPrintKeepsKeyIff | libbuteosyncfw/profile/Profile.cpp:284-297 | printed with merged keys and parsed, a key has the last of its values, so it is kept if and only if the first equals the last |
| ProfileDom.FullPrintTurnsPrecedence | libbuteosyncfw/profile/Profile.cpp:284-297 | a profile with a local and a merged value of one key, of which the reader finds the merged one |
| ProfileDom.SingleLocalKeySurvives | libbuteosyncfw/profile/Profile.cpp:270-277 | a single-valued local key survives printing only local data |
| ProfileDom.TwoRoundTripsAreIdentity | libbuteosyncfw/profile/Profile.cpp:263-308 | two local round trips give back exactly the profile's own data, with all written sub-profiles, recursively |
| Composition.ExpandedIsLeastClosure | libbuteosyncfw/profile/ProfileManager.cpp:843-878 | expansion ends with every sub-profile loaded, exactly the least set of references closed under loading files, and nobody's own data touched |
| Composition.ExpandedOnce | libbuteosyncfw/profile/ProfileManager.cpp:843-878 | an expanded profile is not expanded again |
| Composition.LoadingShrinks | libbuteosyncfw/profile/ProfileManager.cpp:853-875 | loading a file never increases the number of references not yet present plus the length of the list, which is why expansion ends, on cyclic references too |
| Composition.MergeAllGrows | libbuteosyncfw/profile/Profile.cpp:435-467 | merging adds exactly the source's typed profiles that are missing, as merged ones without data of their own |
| ProfileManaging.ProfileManager.Expand | libbuteosyncfw/profile/ProfileManager.cpp:843-878 | the rounds over snapshots of the list give what loading from left to right gives, for every store |
| SavedProfiles.SavingLosesNothing | libbuteosyncfw/profile/Profile.cpp:299-305 | local data saved, read and expanded again gives the same sub-profiles, each with the same fields, per key the same values in reverse, and its own sub-profiles as saved: those read in the first place at their place, every other one, which is the only one of its name and type, under these |
| MergedValues.ProcessSupplies | libbuteosyncfw/profile/ProfileManager.cpp:853-868 | the merged values of a sub-profile are those of all loaded files together, each file once, provided it is settled who gets the values of untyped sub-profiles |
| MergedOrder.ProcessStacks | libbuteosyncfw/profile/ProfileManager.cpp:853-868 | the merged values of each sub-profile that was there, as a list: the files in order of loading, the last one's values in front |
| MergedOrder.ExpandedKey | libbuteosyncfw/profile/Profile.cpp:125-136 | which value a key of a sub-profile has after expansion: its own, or the first that the files loaded last gave it |
| ReturningValues.SteadyComesBack | libbuteosyncfw/profile/Profile.cpp:299-305 | merged values are not saved and still all come back, if the files are steady |
| MovingValues.UnsteadyMoves | libbuteosyncfw/profile/Profile.cpp:377-388 | for any files that are not steady, a profile and an edit of it after which a merged value is not where it was |
| MovingValues.MergedValuesComeBackIff | libbuteosyncfw/profile/Profile.cpp:299-305 | all merged values come back for every profile and edit if and only if the files are steady |
| CompositionLimits.UntypedValueCanMove | libbuteosyncfw/profile/Profile.cpp:377-388 | a profile and files for which a merged value comes back to another sub-profile |
| Retries.TableFollowsFailures | libbuteosyncfw/profile/ProfileManager.cpp:1118-1150 | what is left of a profile's intervals is determined by the number of failures since the last success |
| Retries.JthFailureRetries | msyncd/synchronizer.cpp:609-652 | the j-th failure since the last success retries after interval j mod (n+1) where there is one; otherwise it schedules nothing and resets |
| ProfileManaging.ProfileManager.AddRetriesInfo | libbuteosyncfw/profile/ProfileManager.cpp:1118-1127 | intervals are entered only if there are any and the profile is not entered |
| ProfileManaging.ProfileManager.GetNextRetryInterval | libbuteosyncfw/profile/ProfileManager.cpp:1129-1141 | takes the first interval left and gives its delay in seconds, computed in 32 bits |
| ProfileManaging.ProfileManager.OnSessionFinished | msyncd/synchronizer.cpp:609-652 | success resets, failure takes the next interval or resets, other ends change nothing |
| SyncLogs.LogFollowsHistory | libbuteosyncfw/profile/SyncLog.cpp:98-203 | the window is the last five results, and the last success is the earliest added among the successes of maximal time in the whole history |
| SyncLogs.LastSuccessIs | libbuteosyncfw/profile/SyncLog.cpp:43-48 | the last success has both codes zero and a time, and no such result in the history is later |
| SyncLogs.WindowRestoredIff | libbuteosyncfw/profile/SyncLog.cpp:113-164 | reading a written log restores the window if and only if it is full or no extra entry leads it |
| SyncLogs.ShortWindowGrows | libbuteosyncfw/profile/SyncLog.cpp:149-164 | a failure and then an earlier success, after which reading gives a window of three entries instead of two |
| SyncLogs.LastSuccessRestoredIff | libbuteosyncfw/profile/SyncLog.cpp:113-164 | reading restores the last success if and only if it is, among what is written, the first success of its second |
| SyncLogs.WindowSurvives | libbuteosyncfw/profile/SyncLog.cpp:149-164 | with increasing times the window always survives, with a sixth leading entry too, each entry field by field with its time cut to the second and its target id gone |
| SyncLogs.LogSurvives | libbuteosyncfw/profile/SyncLog.cpp:149-164 | with increasing seconds the whole log survives: its name, each entry and the last success, with codes, scheduled flag and targets, up to milliseconds and target id |
| SyncLogs.CutIsKept | libbuteosyncfw/profile/SyncResults.cpp:97-138 | a written and read result has all fields as before but the milliseconds and the target id |
| SyncLogs.SameSecondForgetsLast | libbuteosyncfw/profile/SyncResults.cpp:125-138 | two successes within one second, of which the reader keeps the first |
| SyncLogObjects.SyncLog.AddResults | libbuteosyncfw/profile/SyncLog.cpp:186-203 | after any additions the object agrees with its whole history |
| SyncLogObjects.SyncLog.FromXml | libbuteosyncfw/profile/SyncLog.cpp:113-125 | reading adds one entry for each element, in order, with all its fields |
| SyncLogObjects.SyncLog.LastResults | libbuteosyncfw/profile/SyncLog.cpp:166-174 | the latest result ever added |
| SyncLogObjects.SyncLog.WriteXml | libbuteosyncfw/profile/SyncLog.cpp:149-164 | the last success in front if it seems to have left the window, then the window, each with all its fields |
| Plugins.LoadedPathsHaveSuffix | libbuteosyncfw/pluginmgr/PluginManager.cpp:373-398 | every path entered for a kind of plug-in ends with the suffix of that kind |
| Plugins.LoadMapOutcome | libbuteosyncfw/pluginmgr/PluginManager.cpp:373-398 | a plug-in name has a library exactly if a file is three letters, the name and the ending of the kind, and then the last such file |
| Plugins.CreateKeepsSound | libbuteosyncfw/pluginmgr/PluginManager.cpp:171-200 | creating keeps one entry a library, and returns the library's one object if it is loaded |
| Plugins.CreateOutcome | libbuteosyncfw/pluginmgr/PluginManager.cpp:171-200 | whatever is loaded, creating gives the first entry's object if it is of the kind, else a new one if the library loads, and counts the entry up |
| Plugins.DestroyKeepsSound | libbuteosyncfw/pluginmgr/PluginManager.cpp:202-217 | destroying cleans the object up exactly when nobody holds anything of its library any more |
| Plugins.RunsStaySound | libbuteosyncfw/pluginmgr/PluginManager.cpp:171-217 | over any run of matched calls each library has one entry, counting its outstanding creations |
| Plugins.HoldersShareObject | libbuteosyncfw/pluginmgr/PluginManager.cpp:539-554 | two holders hold the same object exactly if they hold something of the same library, whose one entry counts them |
| PluginManaging.PluginManager.AcquireLoadedPlugin | libbuteosyncfw/pluginmgr/PluginManager.cpp:539-554 | counts up the first entry of the path and returns it, or changes nothing |
| PluginManaging.PluginManager.UnloadPlugin | libbuteosyncfw/pluginmgr/PluginManager.cpp:556-569 | counts down entries of the path until one reaches zero, and removes that one |
| PluginManaging.PluginManager.CreatePlugin | libbuteosyncfw/pluginmgr/PluginManager.cpp:171-200 | a create call, and the invariant kept |
| PluginManaging.PluginManager.DestroyPlugin | libbuteosyncfw/pluginmgr/PluginManager.cpp:202-217 | a destroy call, and the invariant kept by matched ones |
| Background.FrequencyFromSeconds | msyncd/BackgroundSync.cpp:180-208 | the smallest frequency in use that is not below the whole minutes, and a day beyond that |
| Background.SetDoes | msyncd/BackgroundSync.cpp:84-136 | the profile then has one activity waiting as asked, once for more than a day and else with the frequency entered; one it had is used again unless the time is too long; entries and activities of other profiles are as before |
| Background.NextAlarmIsSet | msyncd/SyncScheduler.cpp:204-269 | afterwards there is a sync activity exactly if there is a next time and a switch activity exactly if rush hours are on and a switch is to come, each waiting for that; existing activities are exactly the entered ones; entries and activities of other profiles are as before |
| Background.LookupGivesOwnProfile | msyncd/BackgroundSync.cpp:162-178 | an existing activity's id is found in exactly one of the two tables, under its own profile |
| SyncScheduling.BackgroundSync.Set | msyncd/BackgroundSync.cpp:84-136 | reuses, replaces or creates the activity, and keeps the tables and the activities in agreement |
| SyncScheduling.BackgroundSync.Remove | msyncd/BackgroundSync.cpp:66-82 | removes the sync activity and the switch activity of the profile |
| SyncScheduling.BackgroundSync.SetSwitch | msyncd/BackgroundSync.cpp:244-280 | the profile then has one switch activity for that time |
| SyncScheduling.BackgroundSync.GetProfNameFromId | msyncd/BackgroundSync.cpp:162-178 | the profile that entered the id, or none |
| SyncScheduling.BackgroundSync.GetProfNameFromSwitchId | msyncd/BackgroundSync.cpp:299-315 | the profile that entered the switch id, or none |
| SyncScheduling.BackgroundSync.RemoveAll | msyncd/BackgroundSync.cpp:47-64 | nothing is entered and nothing exists any more |
| SyncScheduling.SyncScheduler.SetNextAlarm | msyncd/SyncScheduler.cpp:204-269 | the calls in sequence do what is proved of them together; the answer says whether a sync is armed |
| SyncScheduling.SyncScheduler.AddProfile | msyncd/SyncScheduler.cpp:98-116 | arms an enabled scheduled profile and removes any other |
| SyncScheduling.SyncScheduler.OnBackgroundSyncStarted | msyncd/BackgroundSync.cpp:138-153 | a timer that ran out asks for the sync of its own profile |
| SyncScheduling.SyncScheduler.OnBackgroundSwitchStarted | msyncd/SyncScheduler.cpp:187-201 | a switch timer that ran out has the external sync status of its own profile reported if that is synced externally, and arms its next alarm, if the profile is still there |
| SyncScheduling.SyncScheduler.SyncStatusChanged | msyncd/SyncScheduler.cpp:164-184 | only the end of a background sync removes its activity and arms the next one, if the profile is still there |
| Activation.CountIsWhatNeedsIt | msyncd/ServerActivator.cpp:67-157 | over every matched run a server's count is its load-always flag, its Bluetooth and USB transports up now, its internet up at construction, and outside references |
| Activation.SignalsAlternate | msyncd/ServerActivator.cpp:91-127 | with signalling on, enabled and disabled strictly alternate per server, and the last one says whether it is needed |
| Activation.TransportKeepsCounts | libbuteosyncfw/common/TransportTracker.cpp:233-249 | the state is stored; only changes are forwarded, those of the internet never, and the counts stay right |
| Activation.RefOutcome | msyncd/ServerActivator.cpp:91-127 | one more or less, with a signal exactly if asked for and the count leaves or reaches zero |
| ActivationObjects.ServerActivator.constructor | msyncd/ServerActivator.cpp:30-84 | each enabled server starts with one count per reason |
| ActivationObjects.ServerActivator.AddRef | msyncd/ServerActivator.cpp:91-106 | one more, signalled from zero; unknown servers are ignored |
| ActivationObjects.ServerActivator.RemoveRef | msyncd/ServerActivator.cpp:108-127 | one less, signalled at zero, never below zero |
| ActivationObjects.ServerActivator.OnConnectivityStateChanged | msyncd/ServerActivator.cpp:143-157 | each server that lists the transport gains or loses a reference |
| ActivationObjects.ServerActivator.UpdateState | libbuteosyncfw/common/TransportTracker.cpp:233-249 | the state is stored, and only a change is passed on |
| ActivationObjects.ServerActivator.EnabledServers | msyncd/ServerActivator.cpp:129-141 | lists exactly the servers with a reference, each once |
| ExternalSyncs.FlagIsLastTold | msyncd/synchronizer.cpp:1921-2014 | over every run the stored flag, absent meaning false, is the last value that was told on the profile's behalf |
| ExternalSyncs.ListenersAgreeIff | msyncd/synchronizer.cpp:1930-1998 | over every run the last value heard for a profile's account and client is its flag if and only if the profile last told for that pair has the same flag |
| ExternalSyncs.ListenersAlwaysAgreeIff | msyncd/synchronizer.cpp:1930-1998 | listeners know the flag of every profile with an account after every run if and only if no two such profiles share account and client |
| ExternalSyncs.SharedAccountMisleads | msyncd/synchronizer.cpp:1934-1998 | two profiles of one account and client, one synced externally, and listeners who last heard no |
| ExternalSyncs.ReportIsEffective | msyncd/synchronizer.cpp:1934-1998 | a report leaves the flag at its effective value, tells a change or a forced report, and concerns no other profile |
| ExternalSyncs.ReportOutcome | msyncd/synchronizer.cpp:1934-1998 | exactly when a report signals, what, and who is in the table afterwards |
| ExternalSyncs.RemovalOutcome | msyncd/synchronizer.cpp:2000-2014 | a removed profile with an account leaves the table, its listeners are told no exactly if its flag was true, and all other entries stay |
| ExternalSyncs.BackupSuspends | msyncd/synchronizer.cpp:1568-1575 | a backup start turns off exactly the tracked profiles that can be loaded with their account |
| ExternalSyncs.BackupStartTells | msyncd/synchronizer.cpp:1568-1575 | a backup start tells no for each profile that was external and can be loaded with an account, in order, and nothing else |
| ExternalSyncs.BackupEndRestores | msyncd/synchronizer.cpp:1059-1081 | a backup end restores the effective value of every profile with an account |
| ExternalSyncs.BackupEndTells | msyncd/synchronizer.cpp:1059-1081 | a backup end tells the effective value of every profile with an account, changed or not, in order |
| ExternalSyncObjects.ExternalSync.ReportExternalSyncStatus | msyncd/synchronizer.cpp:1934-1998 | the branches do what the report function says |
| ExternalSyncObjects.ExternalSync.RemoveExternalSyncStatus | msyncd/synchronizer.cpp:2000-2014 | a tracked profile is forgotten, and a listener who believed it external is told |

## Left out

- Server-initiated sessions (`onNewSession`), starting and stopping servers, and `close()`: they insert or delete sessions outside the checks the scheduler's invariants rest on.
- The list of syncs waiting to be online, sync on change, and the queue of profile changes, which only decide when a start is requested.
- Saving of results and profiles, removal of profiles marked for it (`cleanupProfile`), and crash safety of saving.
- The case of a plug-in runner destroyed before its session (`onDestroyed`), and which signal connections are cut when.
- Null sessions and null profiles in the queue: the model's sessions always have a profile.
- Queue priority: `SyncQueue::sort` is empty, so the queue is first come first served.
- StorageBooking.StorageBooker.ReserveStorage: does not model that the count is a 32-bit unsigned number, which would need 4294967296 bookings of one storage to wrap.
- SyncProfiles.BackendsSurviveEnabling: models the acquired storages as a set of names to switch on, because the values a client session enters in its storage map are all true.
- MovingValues.MergedValuesComeBackIff: compares values without their order, because the order in which files are merged depends on the order of the saved sub-profiles.
- SavedProfiles.SavingLosesNothing: keys without a name are not written; the files must not change between saving and expanding, and edits touch keys and fields of sub-profiles but not the list itself.
- Child profiles are values held in their parent's list; that callers can hold pointers to them is not modelled.
- Fields are a name and an opaque rest, so the options a boolean field regains when parsed are not part of the model; schedules and error-attempt elements of sync profiles are not either.
- XML text, D-Bus, the accounts and network libraries, process launching and logging.
- Out-of-process plug-ins, which share the list of loaded libraries under paths of their own directory; locking of that list; an object deleted behind the manager's back.
- Time zones and daylight saving in written times, and results of targets, which are taken as one piece.
- The alarm build of the scheduler, next-sync and rush arithmetic (inputs of the scheduler here), and delays beyond 32 bits.
- Activation.SignalsAlternate: says nothing of runs with signalling off, where the two sides may differ on purpose.

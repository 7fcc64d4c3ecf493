# A verified model of the MIC3 run pipeline and run feed

MIC3 accepts requests to run scientific models. A run is inserted together with an outbox event; a publisher moves
events to Kafka; a worker turns records into acceptance or a durable rejection; a dispatcher claims accepted runs under
a shared capacity; a reconciler creates or adopts one named Kubernetes Job per run, checks its outputs and writes the
outcome. A feed shows every user their runs live, as a bounded cache of the database. First logins create accounts.

This project models that behaviour in Dafny and proves what it is meant to guarantee, for every input, every
interleaving and every fault the code can meet.

## How it is laid out

| file | what it holds |
|---|---|
| `Basics.dfy` | options, results, code-point order, sorted lists |
| `JsonText.dfy` | canonical JSON text with escaping as in section 7 of RFC 8259; it is injective |
| `Catalog.dfy` | execution definitions, required outputs, the active-mode guard, the text under the fingerprint |
| `Uuids.dfy`, `Wire.dfy` | UUID text (section 4 of RFC 9562), advisory keys, notification payloads, request envelopes |
| `Ledger.dfy` | the committed database, one atomic operation per transaction, its invariant and whole behaviors |
| `Transactions.dfy` | the same transactions statement by statement with their locks; they refine the ledger and cannot deadlock |
| `Transport.dfy` | publishers, the partitioned topic, consumers, committed offsets, and every failure between two steps |
| `Manifests.dfy`, `Execution.dfy` | the Job contract; workers, locks, Jobs, lost replies, lost connections, outputs |
| `System.dfy`, `Orphans.dfy` | database, bus and cluster as one state; theorems over whole histories; the one exception found |
| `FeedSpec.dfy`, `Feed.dfy` | what the feed does to one subscription; `RunFeed` and `Subscription` as objects |
| `FeedProtocol.dfy`, `FeedHistory.dfy` | the feed among its threads and its listener; theorems over whole histories |
| `Notifications.dfy`, `LiveFeed.dfy` | the trigger, the listener's batch, why the feed's store is this database, and the feed beside it |
| `Effects.dfy`, `Completion.dfy` | what each operation changes, row by row; what an undisturbed worker makes of every Job it can find |
| `Persistence.dfy`, `Workers.dfy`, `Reconciler.dfy` | the transactions and the publishing, consuming and reconciling loops as code |
| `Provisioning.dfy` | first logins as a race |

`dafny verify dfyconfig.toml` checks everything.

## What is assumed of the environment

- A committed transaction is atomic, and each statement reads committed rows. Row locks and transaction-level advisory
  locks are exclusive until the transaction ends; a session-level advisory lock until its connection is gone.
- Kafka keeps a record until it is consumed. An acknowledged message is in its topic; one that was handed over may
  appear late or more than once.
- Kubernetes has at most one live Job per name, gives every Job a new UID, and does not alter the contract of a Job.
- The fingerprint is an arbitrary function of model, image, selected invocation and mode; nothing is assumed of SHA-256.
- Rows are changed only by the code shown. Accounts are not deleted.
- A PostgreSQL notification reaches a connection that is listening when the change commits, in commit order; equal
  payloads of one transaction are sent once. One query of the feed reads one snapshot, as its comment promises.
- User, run and release identifiers are integers in the protocols and 128-bit numbers in the codecs. Times are integers.

## One property that does not hold as stated

"Once a Job is recorded no further create is attempted" is false of a worker whose database connection dropped after
it had read its run: the server releases the run's lock, but the worker goes on to the cluster. An attempt here is the
request itself, whether the cluster carries it out or refuses it because the name is taken.

- `Orphans.OrphanRecreates` takes such a history to its end, for every configuration: two Jobs created for one run, the
  first recorded and the second alive.
- `Orphans.LateAttemptsWereCutOff` proves that nothing else can go wrong: in every history, a worker that attempts a
  create for a run with a recorded Job lost its connection between its last read of the run and the attempt.
- `Orphans.SafeExactlyIfConnected` is the exact condition, one the worker could look at before the call: about to create
  for an unrecorded running run, it is safe from somebody else's record exactly if its connection is still up. Without
  it, `Orphans.OrphanIsOvertaken` builds the continuation, from any reachable state, in which another worker records a
  Job first.

The run is not harmed: it never succeeds on a Job it did not record (`System.SuccessCarriesEvidence`) and its recorded
Job never changes (`System.RunsNeverGoBack`).

## Model

| member | source | states |
|---|---|---|
| `System.NoRequestEverLost` | src/mic3_api/worker.py:28-55 | in every reachable state of submitters, publishers, consumers and faults, a run still queued and unaccepted has its request event unpublished or a record of it at or after the committed offset |
| `Transport.NoRequestLost` | src/mic3_api/application/runs/publication.py:47-56 | the same from the transport's invariant alone: unpublished, or waiting in some partition |
| `System.OffsetsAreDurable` | src/mic3_api/infrastructure/kafka_consumption.py:55-62 | every record below a committed offset has a settled run or a rejection row in every later state, and stored rejections are never altered |
| `Transport.CommittedOffsetsResolved` | src/mic3_api/worker.py:35-40 | below a committed offset every record is resolved |
| `Transport.ReplayChangesNothing` | src/mic3_api/application/runs/acceptance.py:56-67 | consuming a record of a settled run again leaves the database as it is |
| `System.OutboxConserved` | src/mic3_api/infrastructure/persistence/outbox.py:14-39 | a published event was acknowledged and is in the topic of its kind; records name the run of their event; no event is held by two publishers or held after it is published |
| `System.AcceptedWorkIsFrozen` | src/mic3_api/application/runs/execution.py:117-140 | an accepted run never fails for a changed definition; while unfinished its mode entry, outputs included, is the one it was accepted with |
| `System.SuccessCarriesEvidence` | src/mic3_api/application/runs/artifacts.py:14-22 | a succeeded run was accepted and dispatched, its recorded Job was created for it, fulfils the rendered contract and completed, something nonempty was stored and so was every output required at acceptance |
| `System.RunsNeverGoBack` | src/mic3_api/infrastructure/persistence/run_outcomes.py:12-23 | over whole histories status only moves forward, terminal rows and recorded Jobs never change, at most three lifecycle changes, one request event, one terminal event naming the status if and only if terminal, failed if and only if there is a failure code |
| `System.JobIdentityHolds` | src/mic3_api/infrastructure/kubernetes_jobs.py:80-94 | in every reachable state a worker about to create that holds the lock has no recorded Job, and a run has at most one live Job |
| `System.CapacityRespected` | src/mic3_api/infrastructure/persistence/run_execution.py:94-117 | running runs never exceed the capacity in any reachable state |
| `Ledger.StepInv` | src/mic3_api/infrastructure/persistence/run_acceptance.py:29-56 | every transaction keeps the invariant: coherent columns, events that agree with status, frozen accepted work, capacity |
| `Effects.AcceptEffect` | src/mic3_api/application/runs/acceptance.py:56-67 | acceptance, row by row: who is left alone, who is accepted and under which entry, who fails and with which event |
| `Effects.ClaimEffect` | src/mic3_api/infrastructure/persistence/run_execution.py:76-79 | a claim gives the run its slot, time and namespace and changes nothing else |
| `Effects.SaveJobUidEffect` | src/mic3_api/infrastructure/persistence/run_execution.py:39-45 | the identity goes into a running row and nowhere else |
| `Effects.FinishEffect` | src/mic3_api/infrastructure/persistence/run_outcomes.py:12-23 | status, code, time, artifacts and one event, or nothing for a terminal run |
| `Effects.SubmitEffect` | src/mic3_api/infrastructure/persistence/run_submissions.py:34-37 | a waiting run stored as given and one request event |
| `Effects.AdmissionExactly` | src/mic3_api/application/runs/admission.py:18-22 | an otherwise valid submission is refused exactly at a limit |
| `Effects.RegisterEffect` | src/mic3_api/infrastructure/persistence/model_catalog.py:39-56 | a registration that goes through stores exactly the given modes under the same model and image |
| `Effects.RejectEffect` | src/mic3_api/infrastructure/persistence/rejections.py:28-33 | a rejection is stored at a free location and nowhere else |
| `Ledger.ClaimAlwaysStarts` | src/mic3_api/application/runs/execution.py:132-141 | the fingerprint recheck at claim never fails for an accepted run |
| `Ledger.StepMovesForward` | src/mic3_api/infrastructure/persistence/run_execution.py:39-49 | what a transaction can change of earlier state: nothing recorded is lost or altered |
| `Ledger.AtMostThreeChanges` | src/mic3_api/infrastructure/persistence/run_acceptance.py:29-35 | a run changes status or acceptance at most three times in a behavior of any length |
| `Ledger.StepWithinLimits` | src/mic3_api/application/runs/admission.py:18-22 | with equal limits, active runs in all and per user never exceed them |
| `Transactions.NoDeadlock` | src/mic3_api/infrastructure/persistence/run_execution.py:97-113 | behind every blocked transaction stands one that holds a lock and is not blocked, foreign-key locks of submissions and role grants included |
| `Transactions.LocksTakenInOrder` | src/mic3_api/infrastructure/persistence/run_acceptance.py:48-53 | a transaction waits only for a lock ranked above all it holds: capacity or admission, model, release, run, user |
| `Transactions.CommitRefines` | src/mic3_api/infrastructure/persistence/model_catalog.py:23-56 | a commit decided from earlier reads is the ledger's atomic operation at the moment of the commit |
| `Transactions.GivesUpExactly` | src/mic3_api/infrastructure/persistence/run_execution.py:94-117 | a transaction ends without a write exactly for a cause: a protected mode would change, the run or release or user is missing, capacity or a limit is reached, nothing waits |
| `Transactions.UnchangedRunsMatch` | src/mic3_api/application/runs/submission.py:34-42 | every stored run carries the fingerprint its release had when it was prepared, so while its mode entry is the same it matches |
| `Transactions.InterleavingIsBehavior` | src/mic3_api/infrastructure/persistence/run_submissions.py:23-37 | the committed states of every interleaving of statements form a behavior of the ledger |
| `Transactions.FrozenUnderInterleaving` | src/mic3_api/infrastructure/persistence/model_catalog.py:28-54 | accepted work is frozen under every interleaving, and no claim or reconcile recheck fails |
| `Transactions.BoundsUnderInterleaving` | src/mic3_api/infrastructure/persistence/run_execution.py:96-117 | capacity holds, and a model image has one release, under every interleaving |
| `Transactions.LimitsUnderInterleaving` | src/mic3_api/infrastructure/persistence/run_submissions.py:24-37 | admission limits hold under every interleaving of submitters and finishers |
| `Execution.AttachedNeverRecreates` | src/mic3_api/infrastructure/kubernetes_jobs.py:80-88 | a worker about to create that still holds the lock has a running run without a recorded Job |
| `Execution.OneLiveJobPerRun` | src/mic3_api/infrastructure/kubernetes_jobs.py:71-94 | of all Jobs ever created under a run's name at most one is not deleted, and it is the live one |
| `Execution.LostReplyAdopts` | src/mic3_api/infrastructure/kubernetes_jobs.py:86-94 | after a create whose reply was lost, the next look finds that same Job |
| `Execution.CollectExactly` | src/mic3_api/application/runs/artifacts.py:14-22 | the verdict is "required_outputs_missing" exactly if some required path's last listed artifact is not nonempty, "outputs_empty" exactly if none is missing and nothing nonempty is listed, and success otherwise |
| `Execution.CollectAcceptsEvidence` | src/mic3_api/application/runs/artifacts.py:14-22 | with distinct keys a listing passes exactly if it holds something nonempty and a nonempty artifact at prefix plus path for every required output; with repeated keys a listing that passes still holds them |
| `Execution.AnyLookAdopts` | src/mic3_api/infrastructure/kubernetes_jobs.py:71-83 | whatever became of the creator, the next look of any worker at the run finds the Job that was created, unless the cluster deleted it |
| `Orphans.LateAttemptsWereCutOff` | src/mic3_api/infrastructure/kubernetes_jobs.py:80-94 | over every history, an attempt to create for a run with a recorded Job, successful or not, is made only by a worker that lost its connection after it last read the run |
| `Orphans.ConnectedNeverLate` | src/mic3_api/infrastructure/persistence/run_execution.py:119-142 | a worker whose connection was never lost attempts no create once a Job is recorded |
| `Orphans.SafeExactlyIfConnected` | src/mic3_api/infrastructure/persistence/run_execution.py:132-142 | about to create for an unrecorded running run, a worker is safe from a record by others exactly if its connection is up |
| `Orphans.OrphanIsOvertaken` | src/mic3_api/infrastructure/kubernetes_jobs.py:80-94 | from every reachable state with a cut-off worker about to create, another worker can record a Job while that worker still attempts |
| `Orphans.OrphanRecreates` | src/mic3_api/infrastructure/kubernetes_jobs.py:84-88 | for every configuration a state is reached with two Jobs created for one run, the first recorded, the second alive |
| `Manifests.ContainsItself` | src/mic3_api/infrastructure/kubernetes_jobs.py:22-29 | a manifest stored as rendered fulfils its contract |
| `Manifests.ContainsTransitive` | src/mic3_api/infrastructure/kubernetes_jobs.py:22-29 | additions upon additions still fulfil the contract |
| `Manifests.AdditionsOnly` | src/mic3_api/infrastructure/kubernetes_jobs.py:22-29 | two documents contain each other exactly if they agree in every field and item all the way down: additions are all the contract allows |
| `FeedHistory.FeedAgrees` | src/mic3_api/application/runs/feed.py:81-125 | when the listener is connected and nothing waits, a live stream shows the store's detail of every run in its snapshot or changed since |
| `FeedHistory.SnapshotStaysCurrent` | src/mic3_api/api/routes/run_events.py:79-95 | every run of the snapshot stays current for as long as the stream lives |
| `FeedHistory.ChangeReachesStream` | src/mic3_api/application/runs/feed.py:90-118 | a change committed for a stream's user after its snapshot began reaches the stream, or the stream has an error |
| `FeedHistory.LostListenerEndsStreams` | src/mic3_api/infrastructure/run_notifications.py:40-74 | a stream that was open while the listener was lost has an error by the time it listens again |
| `FeedHistory.FailedReadEndsStreams` | src/mic3_api/application/runs/feed.py:106-115 | a failed read, or any entry after one, ends every stream of the run's owner |
| `FeedHistory.DeliverOrResync` | src/mic3_api/application/runs/feed.py:127-138 | a delivery shows the run, except exactly when it would overflow: then the stream must resync and will wake |
| `FeedHistory.EndsOnlyForCause` | src/mic3_api/application/runs/feed.py:57-61 | a step ends a live stream exactly if the listener is lost, a failed read concerns its user, its own delivery overflows, its access is denied or it is closed |
| `FeedHistory.UntouchedByOthers` | src/mic3_api/application/runs/feed.py:127-138 | any other step leaves what a live stream was sent and has pending, a delivery to it aside |
| `FeedHistory.SnapshotExactly` | src/mic3_api/application/runs/feed.py:81-88 | the handshake succeeds exactly if the read did, the stream has no error and the listener is announced; the client then has the result and nothing pending |
| `FeedHistory.NeverBackwards` | src/mic3_api/application/runs/feed.py:47-49 | in a snapshot followed by all drained updates, the versions of a run never decrease, for any interleaving |
| `FeedHistory.NoLostWakeUp` | src/mic3_api/application/runs/feed.py:36-37 | a stream with pending runs or an untold error has its event set or a callback scheduled |
| `FeedHistory.StreamsBounded` | src/mic3_api/application/runs/feed.py:63-72 | streams in all, streams per user and pending runs per stream stay within their limits |
| `FeedProtocol.StepInv` | src/mic3_api/application/runs/feed.py:53-150 | every step of writers, listener, readers, event loop and clients keeps the feed's invariant |
| `FeedProtocol.CoalesceCovers` | src/mic3_api/infrastructure/run_notifications.py:57-68 | coalescing a batch drops no run and names no wrong owner |
| `Feed.RunFeed.Publish` | src/mic3_api/application/runs/feed.py:90-118 | the loop leaves the subscriptions as the batch's specification says |
| `Feed.SurvivorsAreCurrent` | src/mic3_api/application/runs/feed.py:90-118 | a live stream that survives a batch holds exactly the user's runs as read, and no read that may concern it failed |
| `Feed.PublishedExactly` | src/mic3_api/application/runs/feed.py:127-138 | when every read succeeds, a stream gets what reading the database would give, unless more than the limit would be pending: exactly then it must resync |
| `Feed.EndsExactly` | src/mic3_api/application/runs/feed.py:97-118 | for every batch, a live stream ends exactly if an entry that concerns its user failed or came after a failure that counts, or if more than fits was read for it |
| `Feed.FailureCounts` | src/mic3_api/application/runs/feed.py:104-115 | a failed read counts exactly if its entry names no owner or one somebody watches |
| `Feed.OthersFailuresSpare` | src/mic3_api/application/runs/feed.py:140-144 | a stream that no failure concerns and whose runs fit lives on with exactly what was read for it |
| `Feed.RunFeed.Deliver` | src/mic3_api/application/runs/feed.py:127-138 | every subscription changes as one delivery says |
| `Feed.RunFeed.Resync` | src/mic3_api/application/runs/feed.py:140-144 | the streams of the owner, or all if unknown, fail; errors stick |
| `Feed.RunFeed.Unavailable` | src/mic3_api/application/runs/feed.py:57-61 | every subscription fails and none is lost |
| `Feed.RunFeed.Subscribe` | src/mic3_api/application/runs/feed.py:63-72 | refused exactly when unavailable or at a limit, else one fresh subscription is added |
| `Feed.RunFeed.Snapshot` | src/mic3_api/application/runs/feed.py:81-88 | fails on a failed read, an error or a lost listener; else what was pending gives way to the result |
| `Feed.RunFeed.Drain` | src/mic3_api/application/runs/feed.py:120-125 | returns the error and everything pending, and clears event and pending |
| `Feed.Subscription.Accept` | src/mic3_api/application/runs/feed.py:129-138 | one subscription's part of a delivery |
| `Feed.Subscription.Fail` | src/mic3_api/application/runs/feed.py:146-150 | the first error sticks, empties pending and wakes |
| `Notifications.NotifiesExactly` | alembic/versions/0006_run_notifications.py:19-49 | a transaction notifies about exactly the runs whose readable state it changed |
| `Notifications.TransactionFeedsProtocol` | alembic/versions/0006_run_notifications.py:30-41 | every transaction of the ledger is one commit step of the feed protocol with the notifications the trigger sends, or none |
| `LiveFeed.StreamsShowTheDatabase` | src/mic3_api/application/runs/feed.py:81-125 | in every history that interleaves transactions with feed steps, a quiet feed shows a live stream the database's own rows of every run in its snapshot or changed since |
| `LiveFeed.SnapshotShowsTheDatabase` | src/mic3_api/api/routes/run_events.py:79-95 | every run of a stream's snapshot is shown as the database has it whenever the feed is quiet, for as long as the stream lives |
| `LiveFeed.TransactionReachesStreams` | alembic/versions/0006_run_notifications.py:19-49 | a transaction that changes what can be read of a run reaches every stream of its owner that had begun its snapshot, or the stream has an error |
| `Notifications.CollectBatch` | src/mic3_api/infrastructure/run_notifications.py:57-66 | the batch holds exactly the runs well-formed payloads mention, each with the last owner named |
| `Notifications.BatchKeepsNotifications` | src/mic3_api/infrastructure/run_notifications.py:11-16 | nothing the trigger sent is dropped by parsing and batching |
| `Persistence.Database.FinishRow` | src/mic3_api/infrastructure/persistence/run_outcomes.py:12-23 | status, code, time, artifact rows and event together, or nothing for a terminal row |
| `Persistence.Database.SaveOutcome` | src/mic3_api/infrastructure/persistence/run_acceptance.py:29-35 | the columns acceptance writes, after the terminal write when it failed |
| `Persistence.Database.Accept` | src/mic3_api/application/runs/acceptance.py:56-67 | unchanged, accepted or failed exactly as the ledger's acceptance; absent runs change nothing |
| `Persistence.Database.NextToDispatch` | src/mic3_api/infrastructure/persistence/run_execution.py:102-109 | the oldest accepted queued run by creation time and identifier, or none if there is none |
| `Persistence.Database.Claim` | src/mic3_api/infrastructure/persistence/run_execution.py:94-117 | a candidate exactly when there is room and one waits, and then the oldest |
| `Persistence.Database.StartOrFail` | src/mic3_api/infrastructure/persistence/run_execution.py:76-82 | the candidate starts if its definition still matches, else it fails with the code for that |
| `Persistence.Database.ClaimNext` | src/mic3_api/application/runs/execution.py:132-141 | starts the oldest accepted run under capacity; in a valid database it starts none only when full or when nothing waits |
| `Persistence.Database.SaveJobUid` | src/mic3_api/infrastructure/persistence/run_execution.py:39-45 | the first identity stays, another one is a conflict and changes nothing |
| `Persistence.Database.SaveRequested` | src/mic3_api/infrastructure/persistence/run_submissions.py:23-37 | run and request event together exactly when admitted and valid, else neither |
| `Persistence.Database.RecordRejection` | src/mic3_api/infrastructure/persistence/rejections.py:28-33 | stored once per location; a second one changes nothing |
| `Persistence.Database.Register` | src/mic3_api/infrastructure/persistence/model_catalog.py:23-56 | inserts, or updates unless a protected mode would change, and then changes nothing |
| `Workers.Worker.Run` | src/mic3_api/worker.py:22-56 | however often it fails and resumes, the database ends as if every record had been consumed once, in order, with at most one beyond the committed offset; it returns 1 exactly if the last turn was a failure it does not retry |
| `Workers.Worker.Consume` | src/mic3_api/application/runs/consumption.py:35-42 | accept, or record the rejection, also for a run that does not exist |
| `Workers.ReplayIsIdle` | src/mic3_api/application/runs/consumption.py:35-42 | consuming a record twice is consuming it once |
| `Workers.ConsumingDecides` | src/mic3_api/application/runs/consumption.py:35-42 | a settled run leaves the database as it is, a waiting one is accepted if it matches and else failed for its definition with one event, and anything else is rejected once, with its own reason or run_not_found |
| `Workers.FirstRecordDecides` | src/mic3_api/worker.py:28-40 | of records consumed in order, the first that names a waiting run decides it at that record's time, and no other touches it |
| `Workers.MatchingRunsAreAccepted` | src/mic3_api/application/runs/acceptance.py:56-67 | every waiting run that matches its release and is named by a consumed record has been accepted |
| `Workers.AllHaveOutcomes` | src/mic3_api/worker.py:35-40 | records consumed in order all have durable outcomes |
| `Workers.Relay.Execute` | src/mic3_api/application/runs/publication.py:47-56 | the whole batch is published, each event acknowledged, or nothing is; exactly when all acknowledgements and the commit succeed |
| `Workers.Relay.Claim` | src/mic3_api/infrastructure/persistence/outbox.py:30-39 | the oldest unpublished events that nobody has locked, up to the limit |
| `Reconciler.Executions.Reconcile` | src/mic3_api/application/runs/execution.py:110-130 | the run becomes exactly what was seen of it: waiting with its active Job recorded, failed with the Job's reason, the refusal's code or the collector's code, or succeeded with the listed artifacts; undecided only without an answer; nobody else's run changes |
| `Reconciler.RunningMatches` | src/mic3_api/application/runs/execution.py:117-119 | the recheck never fails for a running run, so what it becomes is what its Job says |
| `Reconciler.Executions.Tick` | src/mic3_api/application/runs/execution.py:143-149 | every free running run treated became exactly what was seen of it, before at most one run started: the next in line, which then became what was seen of it; none starts only without a slot or a waiting run; no other run changed |
| `Completion.GoodJobSucceeds` | src/mic3_api/application/runs/execution.py:110-130 | an undisturbed worker that finds a good complete Job with its outputs stored brings the run to success, with the Job recorded and the artifacts stored |
| `Completion.BadJobConflicts` | src/mic3_api/infrastructure/kubernetes_jobs.py:96-104 | a Job that is not the recorded one or alters the contract fails the run as a conflict and is not recorded |
| `Completion.ActiveJobWaits` | src/mic3_api/application/runs/execution.py:120-121 | a good active Job is recorded and the run stays running, otherwise unchanged |
| `Completion.FailedJobFails` | src/mic3_api/application/runs/execution.py:122-123 | a good failed Job fails the run for its pods' reason |
| `Completion.LostJobFails` | src/mic3_api/infrastructure/kubernetes_jobs.py:80-85 | a recorded Job that is gone fails the run as lost and none is created |
| `Completion.LookingDecides` | src/mic3_api/infrastructure/kubernetes_jobs.py:80-88 | the live Job of the name, a lost one if one was recorded, or none yet |
| `Completion.VerifyingDecides` | src/mic3_api/infrastructure/kubernetes_jobs.py:96-104 | exactly the recorded or first Job that keeps the rendered contract passes |
| `Completion.LoadingGetsReady` | src/mic3_api/infrastructure/persistence/run_execution.py:30-37 | a lock holder reads a running run's promised entry, namespace and recorded Job |
| `Provisioning.SameUserForAll` | src/mic3_api/application/users/resolve_current_user.py:35-82 | all callers of one identity, whenever they resolve it, get the same user, which has no other identity |
| `Provisioning.RetryAlwaysFinds` | src/mic3_api/application/users/resolve_current_user.py:68-82 | the lookup after a conflict always finds the account; identities and accounts correspond one to one, so rollbacks leave none behind |
| `Provisioning.OnlyMember` | src/mic3_api/infrastructure/persistence/user_accounts.py:59-101 | an account made by resolution has the member role alone until an administrator changes it |
| `Provisioning.OwnStepsLead` | src/mic3_api/application/users/resolve_current_user.py:35-42 | every own step brings a call nearer its end, nobody else's step touches it |
| `Provisioning.AtMostFourSteps` | src/mic3_api/application/users/resolve_current_user.py:35-42 | one retry is all: in any history a call makes at most four steps |
| `Provisioning.ProfileFollowsClaims` | src/mic3_api/application/users/resolve_current_user.py:84-109 | a resolution shows and stores the caller's claims where they differ from what it read, and changes no other value, role or account |
| `Provisioning.InactiveIsRefused` | src/mic3_api/application/users/resolve_current_user.py:84-112 | an account found inactive ends the call as inactive and writes nothing; an active one is resolved as active |
| `Provisioning.CreationDecides` | src/mic3_api/infrastructure/persistence/user_accounts.py:186-214 | refused exactly without the member role, in conflict exactly if the identity exists, else staged |
| `Provisioning.CreationStores` | src/mic3_api/infrastructure/persistence/user_accounts.py:192-222 | a created account is active, carries the caller's claims and the member role, and nobody else's changes |
| `Provisioning.OutcomesAreEarned` | src/mic3_api/application/users/resolve_current_user.py:35-82 | over histories, whoever is resolved is told of an active account its identity had, with its roles and the claims merged in; a refusal as inactive or misconfigured had that cause |
| `Provisioning.BlockedWaitsForCommit` | src/mic3_api/infrastructure/persistence/user_accounts.py:78-93 | a caller that cannot move waits for one that can commit |
| `JsonText.TextInjective` | src/mic3_api/application/runs/fingerprint.py:17-18 | two values have the same canonical text exactly if they are equal, for arbitrary strings |
| `JsonText.StringRoundTrip` | src/mic3_api/application/runs/fingerprint.py:17-18 | a reader of section 7 of RFC 8259 reads every string back from its token |
| `JsonText.KeysInOrder` | src/mic3_api/application/runs/fingerprint.py:17-18 | the members of an object are written in the order of their names |
| `Catalog.CanonicalTextInjective` | src/mic3_api/application/runs/fingerprint.py:10-19 | the text is the same exactly if model, image, selected arguments, both directories and parameters are |
| `Catalog.ResolveSelects` | src/mic3_api/application/models/execution.py:71-82 | the mode parameter selects the entry of that name and nothing else does |
| `Catalog.OutputsSettle` | src/mic3_api/application/models/outputs.py:13-29 | accepted outputs are sorted, duplicate-free and the ones given, and settle at once |
| `Catalog.OutputsAcceptedExactly` | src/mic3_api/application/models/outputs.py:17-27 | a list is accepted exactly if each path is proper and none is given twice |
| `Catalog.OutputPathExactly` | src/mic3_api/application/models/outputs.py:18-25 | proper paths are the relative ones whose components are all plain names, without drive, wildcard or control character |
| `Catalog.ContainerDirectoryExactly` | src/mic3_api/application/models/execution.py:35-39 | container directories are the absolute paths that climb nowhere |
| `Catalog.ValidExactly` | src/mic3_api/application/models/execution.py:24-41 | an invocation is valid exactly if its arguments are nonempty texts, its directories proper and its outputs settled |
| `Catalog.AcceptedInvocationSays` | src/mic3_api/application/models/execution.py:24-41 | an accepted invocation says what the document says; only the order of its outputs is its own |
| `Catalog.InvocationRoundTrip` | src/mic3_api/application/models/execution.py:24-52 | reading back what is stored gives an equal invocation |
| `Catalog.DefinitionRoundTrip` | src/mic3_api/application/models/execution.py:59-69 | reading back what is stored gives an equal definition, for every accepted configuration |
| `Catalog.ReorderingNeverBlocks` | src/mic3_api/application/models/catalog_changes.py:9-13 | re-registering with reordered outputs gives the same definition and never trips the guard |
| `Uuids.UuidRoundTrip` | src/mic3_api/infrastructure/run_notifications.py:16 | parsing the text of a UUID returns it |
| `Uuids.UuidTextInjective` | src/mic3_api/infrastructure/kafka_publication.py:38-39 | different UUIDs have different texts |
| `Uuids.RunKeysAvoidGlobalLocks` | src/mic3_api/infrastructure/persistence/run_execution.py:119-124 | the key of a version-4 run UUID fits 64 bits signed and is neither global key |
| `Wire.PayloadRoundTrip` | alembic/versions/0006_run_notifications.py:32-33 | the listener reads the run and owner the trigger printed |
| `Wire.KeyFixesRun` | src/mic3_api/infrastructure/request_envelope.py:29-31 | whatever their values, two records accepted under one key name the same run, the one the key spells |
| `Wire.DecodesExactly` | src/mic3_api/infrastructure/request_envelope.py:10-31 | a record is a request for a run exactly if its value is a version-one request for it and its key is the run's text |
| `Wire.RejectsWithCode` | src/mic3_api/infrastructure/request_envelope.py:10-31 | other versions, other events, other keys and missing values are rejected with their codes |
| `Wire.EnvelopeRoundTrip` | src/mic3_api/infrastructure/request_envelope.py:10-31 | decoding a published record returns its run exactly for request events |

## Left out

- HTTP routes, schemas, error mapping, health checks, command lines, settings: plumbing without a hard property.
- OIDC discovery and token validation: their substance is in a library and the network.
- SHA-256, the JSON parser and the ISO time parser: a function, a value and a predicate stand for them.
- Digits beyond ASCII that Python's integer parser accepts in a UUID text: the texts concerned are never printed by the system.
- Heartbeats, token expiry and send timeouts of a stream: kept is the order subscribe, snapshot, drain, stop on error; a denied stream closes.
- The order of updates within one drain: `pending` is a map, and each run occurs in it once.
- Rendering of Job manifests and Helm charts: rendering is an arbitrary function of model, image, invocation, mode and run.
- The loop that reads a failure reason from pods: any of its three results may come out.
- Changes a cluster administrator could make to the contract of a live Job: the contract stays as stored.
- Progress under permanent infrastructure failure: only safety is decided by the code.
- The display name of a model and its row: registration writes it under the model lock and no property depends on it.
- Run queries, directory listing, pagination, artifact base names: they would only add easy members.
- Feed.RunFeed.Publish: the two locks are not fields of the object, and what the store answers comes with each entry; module FeedProtocol takes each critical section as a step and each read of the store as a step of its own.
- Persistence.Database.Register: of several releases of one model and image any may be taken; in a valid database there is one.
- Workers.Worker.Run: one partition and one worker, records arriving at any time; module Transport has any number of both.
- Locks of profile updates on user rows: such a transaction takes no other lock, and they do not conflict with foreign-key locks.

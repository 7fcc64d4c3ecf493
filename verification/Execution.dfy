/**
 * Dispatch and reconciliation: workers that create or adopt one named Job per run, record its
 * identity, check its outputs and write the outcome, while connections drop, replies get lost
 * and the cluster changes on its own.
 */
module Execution {
  import opened Basics
  import opened Catalog
  import opened Manifests
  import L = Ledger

  datatype JobState = Active | Complete | Failed

  /** A live Job under a run's name. Kubernetes gives every Job a new UID and keeps its contract fixed. */
  datatype Job = Job(uid: string, manifest: Manifest, state: JobState)

  datatype Origin = Origin(run: L.RunId, manifest: Manifest)

  /** What `load` reads: the selected entry, the namespace and the recorded Job. */
  datatype Work = Work(entry: Invocation, namespace: Option<string>, jobUid: Option<string>)

  datatype Stage =
    | Locked                                        // holds the run's advisory lock
    | Loaded(work: Work)
    | Absent(work: Work)                            // no Job by that name, none recorded: about to create
    | Unsure(work: Work)                            // create raised an error: about to look again
    | Found(work: Work, job: Job)
    | Verified(work: Work, job: Job)                // identity and contract checked: about to record the UID
    | Collecting(work: Work, uid: string)           // the recorded Job is complete: about to list outputs
    | Ending(failure: Option<string>, artifacts: seq<L.Artifact>)

  /** A worker whose database connection dropped is no longer attached: it holds no lock and cannot write. */
  datatype Worker = Worker(run: L.RunId, attached: bool, stage: Stage)

  /** `created`, `deleted` and `completed` are histories of every Job the cluster has seen, by UID. */
  datatype Cluster = Cluster(
    jobs: map<L.RunId, Job>, created: map<string, Origin>, deleted: set<string>, completed: set<string>,
    workers: map<int, Worker>)

  /** `render` and `prefix` take model, image, invocation or run; `key` is the advisory key of a run. */
  datatype Setup = Setup(
    render: (string, string, Invocation, string, L.RunId) -> Manifest,
    prefix: (string, string, L.RunId) -> string,
    key: L.RunId -> int,
    namespace: string)

  ghost function Expected(x: Setup, db: L.Db, r: L.RunId, entry: Invocation): Manifest
    requires r in db.runs && db.runs[r].release in db.releases
  {
    var release := db.releases[db.runs[r].release];
    x.render(release.modelId, release.imageDigest, entry, db.runs[r].mode, r)
  }

  ghost function Prefix(x: Setup, db: L.Db, r: L.RunId): string
    requires r in db.runs && db.runs[r].release in db.releases
  {
    x.prefix(db.releases[db.runs[r].release].modelId, db.releases[db.runs[r].release].imageDigest, r)
  }

  // ---- VerifyOutputs ----

  /** The size listed last under a key, or 0: a dictionary built from the listing. */
  function SizeOf(artifacts: seq<L.Artifact>, key: string): int {
    if artifacts == [] then 0
    else
      var last := artifacts[|artifacts| - 1];
      if last.key == key then last.size else SizeOf(artifacts[..|artifacts| - 1], key)
  }

  /** `collect`: what to finish the run with, given the listing under its prefix. */
  function Collect(entry: Invocation, prefix: string, listing: seq<L.Artifact>): Option<string> {
    if exists i :: 0 <= i < |entry.requiredOutputs| && SizeOf(listing, prefix + entry.requiredOutputs[i]) <= 0
    then Some("required_outputs_missing")
    else if !(exists i :: 0 <= i < |listing| && listing[i].size > 0) then Some("outputs_empty")
    else None
  }

  /** Something nonempty was stored, and so was every required output. */
  ghost predicate Evidence(entry: Invocation, prefix: string, rows: seq<L.Artifact>) {
    && (exists i :: 0 <= i < |rows| && rows[i].size > 0)
    && (forall path :: path in entry.requiredOutputs ==>
          exists i :: 0 <= i < |rows| && rows[i].key == prefix + path && rows[i].size > 0)
  }

  /** The last artifact listed under the key is nonempty. */
  ghost predicate Stored(listing: seq<L.Artifact>, key: string) {
    exists i :: 0 <= i < |listing| && StoredAt(listing, key, i)
  }

  predicate StoredAt(listing: seq<L.Artifact>, key: string, i: int)
    requires 0 <= i < |listing|
  {
    listing[i].key == key && listing[i].size > 0 && forall j :: i < j < |listing| ==> listing[j].key != key
  }

  ghost predicate MissesOutput(entry: Invocation, prefix: string, listing: seq<L.Artifact>) {
    exists path :: path in entry.requiredOutputs && !Stored(listing, prefix + path)
  }

  predicate SomethingStored(listing: seq<L.Artifact>) { exists i :: 0 <= i < |listing| && listing[i].size > 0 }

  lemma {:induction false} SizeOfStored(listing: seq<L.Artifact>, key: string)
    ensures SizeOf(listing, key) > 0 <==> Stored(listing, key)
  {
    if listing != [] {
      var n := |listing| - 1;
      if listing[n].key == key {
        if listing[n].size > 0 { assert StoredAt(listing, key, n); }
      } else {
        var less := listing[..n];
        SizeOfStored(less, key);
        if i :| 0 <= i < n && StoredAt(less, key, i) { assert StoredAt(listing, key, i); }
        if i :| 0 <= i < |listing| && StoredAt(listing, key, i) { assert StoredAt(less, key, i); }
      }
    }
  }

  /** A required output is missing exactly if the dictionary of sizes says so. */
  lemma MissesBySize(entry: Invocation, prefix: string, listing: seq<L.Artifact>)
    ensures MissesOutput(entry, prefix, listing) <==>
            exists i :: 0 <= i < |entry.requiredOutputs| && SizeOf(listing, prefix + entry.requiredOutputs[i]) <= 0
  {
    forall i | 0 <= i < |entry.requiredOutputs|
      ensures SizeOf(listing, prefix + entry.requiredOutputs[i]) > 0 <==> Stored(listing, prefix + entry.requiredOutputs[i])
    {
      SizeOfStored(listing, prefix + entry.requiredOutputs[i]);
    }
    if path :| path in entry.requiredOutputs && !Stored(listing, prefix + path) {
      var i :| 0 <= i < |entry.requiredOutputs| && entry.requiredOutputs[i] == path;
      assert SizeOf(listing, prefix + entry.requiredOutputs[i]) <= 0;
    }
  }

  /** The collector's verdict, exactly. */
  lemma CollectExactly(entry: Invocation, prefix: string, listing: seq<L.Artifact>)
    ensures Collect(entry, prefix, listing) == Some("required_outputs_missing") <==> MissesOutput(entry, prefix, listing)
    ensures Collect(entry, prefix, listing) == Some("outputs_empty") <==>
            !MissesOutput(entry, prefix, listing) && !SomethingStored(listing)
    ensures Collect(entry, prefix, listing) == None <==> !MissesOutput(entry, prefix, listing) && SomethingStored(listing)
  {
    MissesBySize(entry, prefix, listing);
  }

  /** With distinct keys, as a store lists them, being listed nonempty is all it takes. */
  lemma EvidenceExactly(entry: Invocation, prefix: string, listing: seq<L.Artifact>)
    requires L.DistinctKeys(listing)
    ensures Evidence(entry, prefix, listing) <==> !MissesOutput(entry, prefix, listing) && SomethingStored(listing)
  {
    forall path ensures Stored(listing, prefix + path) <==>
        exists i :: 0 <= i < |listing| && listing[i].key == prefix + path && listing[i].size > 0 {
      if i :| 0 <= i < |listing| && listing[i].key == prefix + path && listing[i].size > 0 {
        assert StoredAt(listing, prefix + path, i);
      }
    }
  }

  /** Good outputs are accepted and nothing else is. */
  lemma CollectAcceptsEvidence(entry: Invocation, prefix: string, listing: seq<L.Artifact>)
    ensures Collect(entry, prefix, listing) == None ==> Evidence(entry, prefix, listing)
    ensures L.DistinctKeys(listing) ==> (Collect(entry, prefix, listing) == None <==> Evidence(entry, prefix, listing))
  {
    CollectExactly(entry, prefix, listing);
    if L.DistinctKeys(listing) { EvidenceExactly(entry, prefix, listing); }
    if Collect(entry, prefix, listing) == None {
      forall path | path in entry.requiredOutputs
        ensures exists i :: 0 <= i < |listing| && listing[i].key == prefix + path && listing[i].size > 0
      {
        assert Stored(listing, prefix + path);
      }
    }
  }

  // ---- Steps ----

  datatype Act =
    | Lock(who: int, run: L.RunId)
    | Load(who: int)
    | Look(who: int)
    | Create(who: int, uid: string, stored: Manifest, replied: bool)
    | CreateFails(who: int)
    | LookAgain(who: int)
    | Verify(who: int)
    | RecordUid(who: int, reason: string)           // `reason` is what the pods say about a failed Job
    | List(who: int, listing: seq<L.Artifact>)
    | End(who: int, time: int)
    | Detach(who: int)
    | Leave(who: int)                               // done, unavailable infrastructure, any exception, or a crash
    | JobDeleted(run: L.RunId)
    | ForeignJob(run: L.RunId, uid: string, stored: Manifest)
    | JobMoves(run: L.RunId, state: JobState)

  predicate IsPodReason(reason: string) { reason == "model_failed" || reason == "upload_failed" || reason == "job_failed" }

  predicate At(cl: Cluster, w: int) { w in cl.workers }

  ghost predicate Enabled(x: Setup, db: L.Db, cl: Cluster, act: Act) {
    match act
    case Lock(w, r) =>
      && !At(cl, w) && r in db.runs
      && forall v :: v in cl.workers && cl.workers[v].attached ==> x.key(cl.workers[v].run) != x.key(r)
    case Load(w) => At(cl, w) && cl.workers[w].attached && cl.workers[w].stage == Locked && cl.workers[w].run in db.runs
    case Look(w) => At(cl, w) && cl.workers[w].stage.Loaded? && cl.workers[w].stage.work.namespace == Some(x.namespace)
    case Create(w, uid, _, _) =>
      At(cl, w) && cl.workers[w].stage.Absent? && cl.workers[w].run !in cl.jobs && uid !in cl.created
    case CreateFails(w) => At(cl, w) && cl.workers[w].stage.Absent?
    case LookAgain(w) => At(cl, w) && cl.workers[w].stage.Unsure? && cl.workers[w].run in cl.jobs
    case Verify(w) =>
      At(cl, w) && cl.workers[w].stage.Found? && cl.workers[w].run in db.runs
      && db.runs[cl.workers[w].run].release in db.releases
    case RecordUid(w, reason) =>
      At(cl, w) && cl.workers[w].attached && cl.workers[w].stage.Verified? && cl.workers[w].run in db.runs
      && IsPodReason(reason)
    case List(w, _) =>
      At(cl, w) && cl.workers[w].stage.Collecting? && cl.workers[w].run in db.runs
      && db.runs[cl.workers[w].run].release in db.releases
    case End(w, _) =>
      At(cl, w) && cl.workers[w].attached && cl.workers[w].stage.Ending? && cl.workers[w].run in db.runs
      && L.DistinctKeys(L.Rows(db, cl.workers[w].run) + cl.workers[w].stage.artifacts)
    case Detach(w) => At(cl, w)
    case Leave(w) => At(cl, w)
    case JobDeleted(r) => r in cl.jobs
    case ForeignJob(r, uid, _) => r !in cl.jobs && uid !in cl.created
    case JobMoves(r, _) => r in cl.jobs
  }

  ghost function DbOp(x: Setup, db: L.Db, cl: Cluster, act: Act): Option<L.Op>
    requires Enabled(x, db, cl, act)
  {
    match act
    case RecordUid(w, _) =>
      var worker := cl.workers[w];
      var uid := worker.stage.job.uid;
      if db.runs[worker.run].jobUid == None || db.runs[worker.run].jobUid == Some(uid)
      then Some(L.SaveJobUid(worker.run, uid)) else None
    case End(w, time) =>
      var worker := cl.workers[w];
      Some(L.Finish(worker.run, worker.stage.failure, worker.stage.artifacts, time))
    case _ => None
  }

  function Goto(cl: Cluster, w: int, stage: Stage): Cluster
    requires At(cl, w)
  {
    cl.(workers := cl.workers[w := cl.workers[w].(stage := stage)])
  }

  function Gone(cl: Cluster, w: int): Cluster { cl.(workers := cl.workers - {w}) }

  function WithJob(cl: Cluster, r: L.RunId, uid: string, stored: Manifest): Cluster {
    cl.(jobs := cl.jobs[r := Job(uid, stored, Active)], created := cl.created[uid := Origin(r, stored)])
  }

  /** The work `load` returns; the row must be running. */
  ghost function Loading(c: L.Config, db: L.Db, r: L.RunId): Stage
    requires r in db.runs
  {
    var run := db.runs[r];
    if L.RunMatches(c, db, r)
    then Loaded(Work(db.releases[run.release].modes[run.mode], run.namespace, run.jobUid))
    else Ending(Some(L.DEFINITION_CHANGED), [])
  }

  ghost function NextCluster(c: L.Config, x: Setup, db: L.Db, cl: Cluster, act: Act): Cluster
    requires Enabled(x, db, cl, act)
  {
    match act
    case Lock(w, r) => cl.(workers := cl.workers[w := Worker(r, true, Locked)])
    case Load(w) =>
      var r := cl.workers[w].run;
      if db.runs[r].status == L.Running then Goto(cl, w, Loading(c, db, r)) else Gone(cl, w)
    case Look(w) =>
      var worker := cl.workers[w];
      if worker.run in cl.jobs then Goto(cl, w, Found(worker.stage.work, cl.jobs[worker.run]))
      else if worker.stage.work.jobUid.Some? then Goto(cl, w, Ending(Some("job_lost"), []))
      else Goto(cl, w, Absent(worker.stage.work))
    case Create(w, uid, stored, replied) =>
      var worker := cl.workers[w];
      Goto(WithJob(cl, worker.run, uid, stored), w,
           if replied then Found(worker.stage.work, Job(uid, stored, Active)) else Unsure(worker.stage.work))
    case CreateFails(w) => Goto(cl, w, Unsure(cl.workers[w].stage.work))
    case LookAgain(w) => Goto(cl, w, Found(cl.workers[w].stage.work, cl.jobs[cl.workers[w].run]))
    case Verify(w) =>
      var worker := cl.workers[w];
      var work, job := worker.stage.work, worker.stage.job;
      if (work.jobUid.Some? && work.jobUid.value != job.uid) || !Fulfils(job.manifest, Expected(x, db, worker.run, work.entry))
      then Goto(cl, w, Ending(Some("job_identity_conflict"), []))
      else Goto(cl, w, Verified(work, job))
    case RecordUid(w, reason) =>
      var stage := cl.workers[w].stage;
      if DbOp(x, db, cl, act).None? then Goto(cl, w, Ending(Some("job_identity_conflict"), []))
      else if stage.job.state == Active then Gone(cl, w)
      else if stage.job.state == Failed then Goto(cl, w, Ending(Some(reason), []))
      else Goto(cl, w, Collecting(stage.work, stage.job.uid))
    case List(w, listing) =>
      var worker := cl.workers[w];
      Goto(cl, w, Ending(Collect(worker.stage.work.entry, Prefix(x, db, worker.run), listing), listing))
    case End(w, _) => Gone(cl, w)
    case Detach(w) => cl.(workers := cl.workers[w := cl.workers[w].(attached := false)])
    case Leave(w) => Gone(cl, w)
    case JobDeleted(r) => cl.(jobs := cl.jobs - {r}, deleted := cl.deleted + {cl.jobs[r].uid})
    case ForeignJob(r, uid, stored) => WithJob(cl, r, uid, stored)
    case JobMoves(r, state) =>
      cl.(jobs := cl.jobs[r := cl.jobs[r].(state := state)],
          completed := if state == Complete then cl.completed + {cl.jobs[r].uid} else cl.completed)
  }

  // ---- Invariant ----

  /** The Job was really created under the run's name, and a complete one really completed. */
  predicate Genuine(cl: Cluster, r: L.RunId, job: Job) {
    && job.uid in cl.created && cl.created[job.uid] == Origin(r, job.manifest)
    && (job.state == Complete ==> job.uid in cl.completed)
  }

  /** The Job with this UID was created for the run, kept the rendered contract and completed. */
  ghost predicate Trusted(x: Setup, db: L.Db, cl: Cluster, r: L.RunId, uid: string)
    requires r in db.runs && db.runs[r].release in db.releases && r in db.promised
  {
    && uid in cl.created && cl.created[uid].run == r && uid in cl.completed
    && Fulfils(cl.created[uid].manifest, Expected(x, db, r, db.promised[r]))
  }

  ghost predicate Sound(db: L.Db, r: L.RunId) {
    r in db.runs && db.runs[r].release in db.releases && r in db.promised
  }

  function WorkOf(stage: Stage): Option<Work> {
    match stage
    case Locked => None
    case Loaded(work) => Some(work)
    case Absent(work) => Some(work)
    case Unsure(work) => Some(work)
    case Found(work, _) => Some(work)
    case Verified(work, _) => Some(work)
    case Collecting(work, _) => Some(work)
    case Ending(_, _) => None
  }

  /** What holds of a worker whether or not it is still attached. */
  ghost predicate Informed(x: Setup, db: L.Db, cl: Cluster, r: L.RunId, stage: Stage) {
    && r in db.runs
    && (stage != Locked ==> Sound(db, r))
    && (WorkOf(stage).Some? ==> WorkOf(stage).value.entry == db.promised[r])
    && match stage
       case Absent(work) => work.jobUid == None
       case Unsure(work) => work.jobUid == None
       case Found(_, job) => Genuine(cl, r, job)
       case Verified(work, job) =>
         && Genuine(cl, r, job)
         && (work.jobUid == None || work.jobUid == Some(job.uid))
         && Fulfils(job.manifest, Expected(x, db, r, db.promised[r]))
       case Collecting(_, uid) => Trusted(x, db, cl, r, uid)
       case Ending(failure, artifacts) =>
         && failure != Some(L.DEFINITION_CHANGED) && failure != Some("")
         && (!L.Truthy(failure) ==> Evidence(db.promised[r], Prefix(x, db, r), artifacts))
       case _ => true
  }

  /** What an attached worker knows of the row nobody else may change. */
  ghost predicate InCharge(x: Setup, db: L.Db, cl: Cluster, r: L.RunId, stage: Stage)
    requires stage != Locked ==> Sound(db, r)
  {
    stage != Locked ==>
      && db.runs[r].status == L.Running
      && (WorkOf(stage).Some? && !stage.Collecting? ==> db.runs[r].jobUid == WorkOf(stage).value.jobUid)
      && (stage.Collecting? ==> db.runs[r].jobUid == Some(stage.uid))
      && (stage.Ending? && !L.Truthy(stage.failure) ==>
            db.runs[r].jobUid.Some? && Trusted(x, db, cl, r, db.runs[r].jobUid.value))
  }

  ghost predicate WorkerOk(x: Setup, db: L.Db, cl: Cluster, worker: Worker) {
    && Informed(x, db, cl, worker.run, worker.stage)
    && (worker.attached ==> InCharge(x, db, cl, worker.run, worker.stage))
  }

  ghost predicate WorkersOk(x: Setup, db: L.Db, cl: Cluster) {
    forall w :: w in cl.workers ==> WorkerOk(x, db, cl, cl.workers[w])
  }

  ghost predicate LocksExclusive(x: Setup, workers: map<int, Worker>) {
    forall v, w :: v in workers && w in workers && v != w && workers[v].attached && workers[w].attached ==>
      x.key(workers[v].run) != x.key(workers[w].run)
  }

  /** Every Job ever created is either deleted or the live one of its name. */
  ghost predicate JobsAccounted(cl: Cluster) {
    && (forall r :: r in cl.jobs ==> Genuine(cl, r, cl.jobs[r]) && cl.jobs[r].uid !in cl.deleted)
    && (forall u :: u in cl.created ==>
          u in cl.deleted || (cl.created[u].run in cl.jobs && cl.jobs[cl.created[u].run].uid == u))
    && cl.deleted <= cl.created.Keys
  }

  /** A succeeded run rests on the Job recorded in its row and on its stored artifacts. */
  ghost predicate Proven(x: Setup, db: L.Db, cl: Cluster, r: L.RunId)
    requires r in db.runs
  {
    && Sound(db, r)
    && db.runs[r].jobUid.Some? && Trusted(x, db, cl, r, db.runs[r].jobUid.value)
    && Evidence(db.promised[r], Prefix(x, db, r), L.Rows(db, r))
  }

  ghost predicate SuccessesProven(x: Setup, db: L.Db, cl: Cluster) {
    forall r :: r in db.runs && db.runs[r].status == L.Succeeded ==> Proven(x, db, cl, r)
  }

  /** No run accepted before ends because its definition changed. */
  ghost predicate NoneBroken(db: L.Db) {
    forall r :: r in db.runs && db.runs[r].Accepted() ==> db.runs[r].failure != Some(L.DEFINITION_CHANGED)
  }

  ghost predicate ClusterInv(x: Setup, db: L.Db, cl: Cluster) {
    && WorkersOk(x, db, cl)
    && LocksExclusive(x, cl.workers)
    && JobsAccounted(cl)
    && SuccessesProven(x, db, cl)
    && NoneBroken(db)
  }

  // ---- The cluster's history grows, or the database moves on ----

  predicate Grows(cl: Cluster, cl': Cluster) {
    && (forall u :: u in cl.created ==> u in cl'.created && cl'.created[u] == cl.created[u])
    && cl.completed <= cl'.completed
  }

  lemma WorkerGrows(x: Setup, db: L.Db, cl: Cluster, cl': Cluster, worker: Worker)
    requires Grows(cl, cl') && WorkerOk(x, db, cl, worker)
    ensures WorkerOk(x, db, cl', worker)
  {
  }

  lemma SuccessesGrow(x: Setup, db: L.Db, cl: Cluster, cl': Cluster)
    requires Grows(cl, cl') && SuccessesProven(x, db, cl)
    ensures SuccessesProven(x, db, cl')
  {
    forall r | r in db.runs && db.runs[r].status == L.Succeeded ensures Proven(x, db, cl', r) {
      assert Proven(x, db, cl, r);
    }
  }

  lemma SameTerms(x: Setup, db: L.Db, db': L.Db, r: L.RunId, entry: Invocation)
    requires L.Later(db, db') && Sound(db, r)
    ensures Sound(db', r) && db'.promised[r] == db.promised[r]
    ensures Expected(x, db', r, entry) == Expected(x, db, r, entry) && Prefix(x, db', r) == Prefix(x, db, r)
  {
    assert L.RunLater(db.runs[r], db'.runs[r]);
  }

  lemma InformedLater(x: Setup, db: L.Db, db': L.Db, cl: Cluster, r: L.RunId, stage: Stage)
    requires L.Later(db, db') && Informed(x, db, cl, r, stage)
    ensures Informed(x, db', cl, r, stage)
  {
    if stage != Locked {
      SameTerms(x, db, db', r, db.promised[r]);
    }
  }

  lemma InChargeLater(x: Setup, db: L.Db, db': L.Db, cl: Cluster, r: L.RunId, stage: Stage)
    requires L.Later(db, db') && Informed(x, db, cl, r, stage) && InCharge(x, db, cl, r, stage)
    requires stage != Locked ==> db'.runs[r] == db.runs[r]
    ensures Informed(x, db', cl, r, stage) && InCharge(x, db', cl, r, stage)
  {
    InformedLater(x, db, db', cl, r, stage);
    if stage != Locked {
      SameTerms(x, db, db', r, db.promised[r]);
    }
  }

  lemma ProvenLater(x: Setup, db: L.Db, db': L.Db, cl: Cluster, r: L.RunId)
    requires L.Later(db, db') && r in db.runs && db.runs[r].status == L.Succeeded && Proven(x, db, cl, r)
    ensures r in db'.runs && Proven(x, db', cl, r)
  {
    SameTerms(x, db, db', r, db.promised[r]);
    assert L.RunLater(db.runs[r], db'.runs[r]);
  }

  /** A transaction of anyone else: running rows stand, and nothing succeeds or breaks by it. */
  ghost predicate Harmless(db: L.Db, db': L.Db) {
    && L.Later(db, db')
    && (forall r :: r in db.runs && db.runs[r].status == L.Running ==> db'.runs[r] == db.runs[r])
    && (forall r :: r in db'.runs && db'.runs[r].status == L.Succeeded ==> r in db.runs && db.runs[r].status == L.Succeeded)
    && (forall r :: r in db'.runs && db'.runs[r].failure == Some(L.DEFINITION_CHANGED) && db'.runs[r].Accepted() ==>
          r in db.runs && db'.runs[r] == db.runs[r])
  }

  lemma HarmlessKeeps(x: Setup, db: L.Db, db': L.Db, cl: Cluster)
    requires ClusterInv(x, db, cl) && Harmless(db, db')
    ensures ClusterInv(x, db', cl)
  {
    forall w | w in cl.workers ensures WorkerOk(x, db', cl, cl.workers[w]) {
      var worker := cl.workers[w];
      assert WorkerOk(x, db, cl, worker);
      InformedLater(x, db, db', cl, worker.run, worker.stage);
      if worker.attached {
        InChargeLater(x, db, db', cl, worker.run, worker.stage);
      }
    }
    forall r | r in db'.runs && db'.runs[r].status == L.Succeeded ensures Proven(x, db', cl, r) {
      ProvenLater(x, db, db', cl, r);
    }
  }

  predicate Outside(op: L.Op) {
    op.AddUser? || op.Register? || op.Submit? || op.Accept? || op.Reject? || op.Claim? || op.MarkPublished?
  }

  /** Changing one queued run without ending it well, or breaking it once accepted, is harmless. */
  lemma OneRunHarmless(db: L.Db, db': L.Db, r: L.RunId)
    requires L.Later(db, db') && db'.runs.Keys == db.runs.Keys && r in db.runs && db.runs[r].status == L.Queued
    requires forall s :: s in db.runs && s != r ==> db'.runs[s] == db.runs[s]
    requires db'.runs[r].status != L.Succeeded
    requires db'.runs[r].Accepted() ==> db'.runs[r].failure != Some(L.DEFINITION_CHANGED)
    ensures Harmless(db, db')
  {
    assert forall s :: s in db'.runs ==> s in db.runs.Keys;
  }

  lemma AcceptIsHarmless(c: L.Config, db: L.Db, r: L.RunId, at: int)
    requires L.Inv(c, db) && r in db.runs
    ensures Harmless(db, L.AcceptRun(c, db, r, at))
  {
    L.AcceptMovesForward(c, db, r, at);
    assert L.RunInv(c, db, r);
    if !db.runs[r].Settled() {
      OneRunHarmless(db, L.AcceptRun(c, db, r, at), r);
    }
  }

  lemma ClaimIsHarmless(c: L.Config, db: L.Db, op: L.Op)
    requires L.Inv(c, db) && op.Claim? && L.Commits(c, db, op)
    ensures Harmless(db, L.Apply(c, db, op))
  {
    L.ClaimMovesForward(c, db, op);
    L.ClaimAlwaysStarts(c, db, op.run, op.namespace, op.at);
    assert L.RunInv(c, db, op.run);
    OneRunHarmless(db, L.Apply(c, db, op), op.run);
  }

  lemma OutsideIsHarmless(c: L.Config, db: L.Db, op: L.Op)
    requires L.Inv(c, db) && Outside(op) && L.Commits(c, db, op)
    ensures Harmless(db, L.Apply(c, db, op))
  {
    if op.Accept? {
      AcceptIsHarmless(c, db, op.run, op.at);
    } else if op.Claim? {
      ClaimIsHarmless(c, db, op);
    } else {
      L.StepMovesForward(c, db, op);
    }
  }

  // ---- Steps that leave the database alone ----

  /** Putting one worker in an orderly stage keeps everything. */
  lemma GotoKeeps(x: Setup, db: L.Db, cl: Cluster, w: int, stage: Stage)
    requires ClusterInv(x, db, cl) && At(cl, w) && WorkerOk(x, db, cl, cl.workers[w].(stage := stage))
    ensures ClusterInv(x, db, Goto(cl, w, stage))
  {
    var cl' := Goto(cl, w, stage);
    forall v | v in cl'.workers ensures WorkerOk(x, db, cl', cl'.workers[v]) {
      if v != w { WorkerGrows(x, db, cl, cl', cl.workers[v]); }
      else { WorkerGrows(x, db, cl, cl', cl'.workers[v]); }
    }
    SuccessesGrow(x, db, cl, cl');
  }

  lemma GoneKeeps(x: Setup, db: L.Db, cl: Cluster, w: int)
    requires ClusterInv(x, db, cl)
    ensures ClusterInv(x, db, Gone(cl, w))
  {
    var cl' := Gone(cl, w);
    forall v | v in cl'.workers ensures WorkerOk(x, db, cl', cl'.workers[v]) {
      WorkerGrows(x, db, cl, cl', cl.workers[v]);
    }
    SuccessesGrow(x, db, cl, cl');
  }

  lemma LockKeeps(c: L.Config, x: Setup, db: L.Db, cl: Cluster, act: Act)
    requires ClusterInv(x, db, cl) && (act.Lock? || act.Detach?) && Enabled(x, db, cl, act)
    ensures ClusterInv(x, db, NextCluster(c, x, db, cl, act))
  {
    var cl' := NextCluster(c, x, db, cl, act);
    forall v | v in cl'.workers ensures WorkerOk(x, db, cl', cl'.workers[v]) {
      if v in cl.workers { WorkerGrows(x, db, cl, cl', cl.workers[v]); }
    }
    SuccessesGrow(x, db, cl, cl');
  }

  lemma WithJobKeeps(x: Setup, db: L.Db, cl: Cluster, r: L.RunId, uid: string, stored: Manifest)
    requires ClusterInv(x, db, cl) && r !in cl.jobs && uid !in cl.created
    ensures ClusterInv(x, db, WithJob(cl, r, uid, stored))
  {
    var cl' := WithJob(cl, r, uid, stored);
    forall v | v in cl'.workers ensures WorkerOk(x, db, cl', cl'.workers[v]) {
      WorkerGrows(x, db, cl, cl', cl.workers[v]);
    }
    SuccessesGrow(x, db, cl, cl');
  }

  lemma ClusterMovesKeep(c: L.Config, x: Setup, db: L.Db, cl: Cluster, act: Act)
    requires ClusterInv(x, db, cl) && (act.JobDeleted? || act.JobMoves?) && Enabled(x, db, cl, act)
    ensures ClusterInv(x, db, NextCluster(c, x, db, cl, act))
  {
    var cl' := NextCluster(c, x, db, cl, act);
    forall v | v in cl'.workers ensures WorkerOk(x, db, cl', cl'.workers[v]) {
      WorkerGrows(x, db, cl, cl', cl.workers[v]);
    }
    SuccessesGrow(x, db, cl, cl');
  }

  lemma CreateKeeps(c: L.Config, x: Setup, db: L.Db, cl: Cluster, act: Act)
    requires ClusterInv(x, db, cl) && act.Create? && Enabled(x, db, cl, act)
    ensures ClusterInv(x, db, NextCluster(c, x, db, cl, act))
  {
    var worker := cl.workers[act.who];
    var cl' := WithJob(cl, worker.run, act.uid, act.stored);
    WithJobKeeps(x, db, cl, worker.run, act.uid, act.stored);
    assert WorkerOk(x, db, cl', worker);
    GotoKeeps(x, db, cl', act.who,
              if act.replied then Found(worker.stage.work, Job(act.uid, act.stored, Active)) else Unsure(worker.stage.work));
  }

  /** An accepted run still finds its entry, so loading never reports a changed definition. */
  lemma LoadKeeps(c: L.Config, x: Setup, db: L.Db, cl: Cluster, act: Act)
    requires L.Inv(c, db) && ClusterInv(x, db, cl) && act.Load? && Enabled(x, db, cl, act)
    ensures ClusterInv(x, db, NextCluster(c, x, db, cl, act))
    ensures db.runs[cl.workers[act.who].run].status == L.Running ==>
              Loading(c, db, cl.workers[act.who].run).Loaded?
  {
    var worker := cl.workers[act.who];
    if db.runs[worker.run].status == L.Running {
      assert L.RunInv(c, db, worker.run);
      GotoKeeps(x, db, cl, act.who, Loading(c, db, worker.run));
    } else {
      GoneKeeps(x, db, cl, act.who);
    }
  }

  lemma LookKeeps(c: L.Config, x: Setup, db: L.Db, cl: Cluster, act: Act)
    requires ClusterInv(x, db, cl) && act.Look? && Enabled(x, db, cl, act)
    ensures ClusterInv(x, db, NextCluster(c, x, db, cl, act))
  {
    var worker := cl.workers[act.who];
    assert WorkerOk(x, db, cl, worker);
    if worker.run in cl.jobs {
      GotoKeeps(x, db, cl, act.who, Found(worker.stage.work, cl.jobs[worker.run]));
    } else if worker.stage.work.jobUid.Some? {
      GotoKeeps(x, db, cl, act.who, Ending(Some("job_lost"), []));
    } else {
      GotoKeeps(x, db, cl, act.who, Absent(worker.stage.work));
    }
  }

  lemma RetryKeeps(c: L.Config, x: Setup, db: L.Db, cl: Cluster, act: Act)
    requires ClusterInv(x, db, cl) && (act.CreateFails? || act.LookAgain?) && Enabled(x, db, cl, act)
    ensures ClusterInv(x, db, NextCluster(c, x, db, cl, act))
  {
    var worker := cl.workers[act.who];
    assert WorkerOk(x, db, cl, worker);
    GotoKeeps(x, db, cl, act.who,
              if act.CreateFails? then Unsure(worker.stage.work) else Found(worker.stage.work, cl.jobs[worker.run]));
  }

  lemma VerifyKeeps(c: L.Config, x: Setup, db: L.Db, cl: Cluster, act: Act)
    requires ClusterInv(x, db, cl) && act.Verify? && Enabled(x, db, cl, act)
    ensures ClusterInv(x, db, NextCluster(c, x, db, cl, act))
  {
    var worker := cl.workers[act.who];
    assert WorkerOk(x, db, cl, worker);
    var work, job := worker.stage.work, worker.stage.job;
    if (work.jobUid.Some? && work.jobUid.value != job.uid) || !Fulfils(job.manifest, Expected(x, db, worker.run, work.entry)) {
      GotoKeeps(x, db, cl, act.who, Ending(Some("job_identity_conflict"), []));
    } else {
      GotoKeeps(x, db, cl, act.who, Verified(work, job));
    }
  }

  lemma ListKeeps(c: L.Config, x: Setup, db: L.Db, cl: Cluster, act: Act)
    requires ClusterInv(x, db, cl) && act.List? && Enabled(x, db, cl, act)
    ensures ClusterInv(x, db, NextCluster(c, x, db, cl, act))
  {
    var worker := cl.workers[act.who];
    assert WorkerOk(x, db, cl, worker);
    var verdict := Collect(worker.stage.work.entry, Prefix(x, db, worker.run), act.listing);
    if verdict == None {
      CollectAcceptsEvidence(worker.stage.work.entry, Prefix(x, db, worker.run), act.listing);
    }
    GotoKeeps(x, db, cl, act.who, Ending(verdict, act.listing));
  }

  // ---- Steps that write ----

  /** A worker's own transaction changes only the run it holds; everyone else is unaffected. */
  lemma OwnRunKeeps(x: Setup, db: L.Db, db': L.Db, cl: Cluster, w: int)
    requires ClusterInv(x, db, cl) && At(cl, w) && cl.workers[w].attached
    requires L.Later(db, db') && db'.runs.Keys == db.runs.Keys
    requires forall s :: s in db.runs && s != cl.workers[w].run ==> db'.runs[s] == db.runs[s]
    requires db'.runs[cl.workers[w].run].failure != Some(L.DEFINITION_CHANGED)
    requires db'.runs[cl.workers[w].run].status == L.Succeeded ==> Proven(x, db', cl, cl.workers[w].run)
    ensures ClusterInv(x, db', Gone(cl, w))
  {
    var r := cl.workers[w].run;
    GoneKeeps(x, db, cl, w);
    var cl' := Gone(cl, w);
    forall v | v in cl'.workers ensures WorkerOk(x, db', cl', cl'.workers[v]) {
      var worker := cl'.workers[v];
      assert WorkerOk(x, db, cl', worker);
      InformedLater(x, db, db', cl', worker.run, worker.stage);
      if worker.attached {
        assert worker.run != r;
        InChargeLater(x, db, db', cl', worker.run, worker.stage);
      }
    }
    forall s | s in db'.runs && db'.runs[s].status == L.Succeeded ensures Proven(x, db', cl', s) {
      if s == r { SameProof(x, db', cl, cl', s); }
      else { ProvenLater(x, db, db', cl', s); }
    }
  }

  lemma SameProof(x: Setup, db: L.Db, cl: Cluster, cl': Cluster, r: L.RunId)
    requires Grows(cl, cl') && r in db.runs && Proven(x, db, cl, r)
    ensures Proven(x, db, cl', r)
  {
  }

  /** A run ended by its worker carries its evidence if it succeeded. */
  lemma EndedRun(c: L.Config, x: Setup, db: L.Db, cl: Cluster, r: L.RunId, failure: Option<string>, artifacts: seq<L.Artifact>, at: int)
    requires Informed(x, db, cl, r, Ending(failure, artifacts)) && InCharge(x, db, cl, r, Ending(failure, artifacts))
    requires L.RunInv(c, db, r)
    ensures var db' := L.FinishRow(db, r, failure, artifacts, at);
            && L.Later(db, db') && db'.runs[r].failure != Some(L.DEFINITION_CHANGED)
            && (db'.runs[r].status == L.Succeeded ==> Proven(x, db', cl, r))
  {
    var db' := L.FinishRow(db, r, failure, artifacts, at);
    L.FinishMovesForward(db, r, failure, artifacts, at);
    SameTerms(x, db, db', r, db.promised[r]);
    assert L.Rows(db', r) == artifacts;
  }

  lemma EndKeeps(c: L.Config, x: Setup, db: L.Db, cl: Cluster, act: Act)
    requires L.Inv(c, db) && ClusterInv(x, db, cl) && act.End? && Enabled(x, db, cl, act)
    ensures var op := DbOp(x, db, cl, act).value;
            && L.Commits(c, db, op) && L.Orderly(db, op)
            && ClusterInv(x, L.Apply(c, db, op), NextCluster(c, x, db, cl, act))
  {
    EndIsFinish(c, x, db, cl, act);
    EndedWorker(c, x, db, cl, act.who, act.time);
  }

  lemma EndedWorker(c: L.Config, x: Setup, db: L.Db, cl: Cluster, w: int, at: int)
    requires ClusterInv(x, db, cl) && At(cl, w) && cl.workers[w].attached && cl.workers[w].stage.Ending?
    requires cl.workers[w].run in db.runs && L.RunInv(c, db, cl.workers[w].run)
    ensures ClusterInv(x, L.FinishRow(db, cl.workers[w].run, cl.workers[w].stage.failure, cl.workers[w].stage.artifacts, at), Gone(cl, w))
  {
    var worker := cl.workers[w];
    assert WorkerOk(x, db, cl, worker);
    EndedRun(c, x, db, cl, worker.run, worker.stage.failure, worker.stage.artifacts, at);
    OwnRunKeeps(x, db, L.FinishRow(db, worker.run, worker.stage.failure, worker.stage.artifacts, at), cl, w);
  }

  lemma EndIsFinish(c: L.Config, x: Setup, db: L.Db, cl: Cluster, act: Act)
    requires L.Inv(c, db) && WorkersOk(x, db, cl) && act.End? && Enabled(x, db, cl, act)
    ensures var op, worker := DbOp(x, db, cl, act).value, cl.workers[act.who];
            && L.Commits(c, db, op) && L.Orderly(db, op) && L.RunInv(c, db, worker.run)
            && L.Apply(c, db, op) == L.FinishRow(db, worker.run, worker.stage.failure, worker.stage.artifacts, act.time)
            && NextCluster(c, x, db, cl, act) == Gone(cl, act.who)
  {
    assert WorkerOk(x, db, cl, cl.workers[act.who]);
  }

  lemma RecordUidKeeps(c: L.Config, x: Setup, db: L.Db, cl: Cluster, act: Act)
    requires L.Inv(c, db) && ClusterInv(x, db, cl) && act.RecordUid? && Enabled(x, db, cl, act)
    ensures var op := DbOp(x, db, cl, act);
            && op.Some?
            && L.Commits(c, db, op.value) && L.Orderly(db, op.value)
            && ClusterInv(x, L.Apply(c, db, op.value), NextCluster(c, x, db, cl, act))
  {
    var worker := cl.workers[act.who];
    RecordIsSave(c, x, db, cl, act);
    var op := DbOp(x, db, cl, act).value;
    var db' := L.Apply(c, db, op);
    OwnRunKeeps(x, db, db', cl, act.who);
    var job := worker.stage.job;
    if job.state != Active {
      var next := if job.state == Failed then Ending(Some(act.reason), []) else Collecting(worker.stage.work, job.uid);
      RecordedRun(x, db, db', cl, worker, next, act.reason);
      RejoinKeeps(x, db', cl, act.who, next);
    }
  }

  lemma RecordIsSave(c: L.Config, x: Setup, db: L.Db, cl: Cluster, act: Act)
    requires L.Inv(c, db) && WorkersOk(x, db, cl) && act.RecordUid? && Enabled(x, db, cl, act)
    ensures var worker, op := cl.workers[act.who], DbOp(x, db, cl, act);
            && op.Some? && L.Commits(c, db, op.value) && L.Orderly(db, op.value)
            && var db' := L.Apply(c, db, op.value);
            && L.Later(db, db') && db'.runs.Keys == db.runs.Keys
            && (forall s :: s in db.runs && s != worker.run ==> db'.runs[s] == db.runs[s])
            && db'.runs[worker.run] == db.runs[worker.run].(jobUid := Some(worker.stage.job.uid))
            && db'.runs[worker.run].status == L.Running && db'.runs[worker.run].failure == None
  {
    assert WorkerOk(x, db, cl, cl.workers[act.who]);
    assert L.RunInv(c, db, cl.workers[act.who].run);
    L.SaveMovesForward(c, db, DbOp(x, db, cl, act).value);
  }

  lemma RecordedRun(x: Setup, db: L.Db, db': L.Db, cl: Cluster, worker: Worker, next: Stage, reason: string)
    requires WorkerOk(x, db, cl, worker) && worker.attached && worker.stage.Verified? && L.Later(db, db')
    requires db'.runs[worker.run].status == L.Running && db'.runs[worker.run].jobUid == Some(worker.stage.job.uid)
    requires IsPodReason(reason) && worker.stage.job.state != Active
    requires next == if worker.stage.job.state == Failed then Ending(Some(reason), [])
                     else Collecting(worker.stage.work, worker.stage.job.uid)
    ensures WorkerOk(x, db', cl, worker.(stage := next))
  {
    SameTerms(x, db, db', worker.run, db.promised[worker.run]);
  }

  /** The worker stays on after its write. */
  lemma RejoinKeeps(x: Setup, db: L.Db, cl: Cluster, w: int, stage: Stage)
    requires ClusterInv(x, db, Gone(cl, w)) && At(cl, w) && LocksExclusive(x, cl.workers)
    requires WorkerOk(x, db, cl, cl.workers[w].(stage := stage))
    ensures ClusterInv(x, db, Goto(cl, w, stage))
  {
    var cl' := Goto(cl, w, stage);
    forall v | v in cl'.workers ensures WorkerOk(x, db, cl', cl'.workers[v]) {
      if v != w {
        assert v in Gone(cl, w).workers;
        WorkerGrows(x, db, Gone(cl, w), cl', cl'.workers[v]);
      } else {
        WorkerGrows(x, db, cl, cl', cl'.workers[v]);
      }
    }
    SuccessesGrow(x, db, Gone(cl, w), cl');
  }

  // ---- What it is for ----

  /** A worker that still holds its lock never creates a Job once one is recorded. */
  lemma AttachedNeverRecreates(x: Setup, db: L.Db, cl: Cluster, w: int)
    requires ClusterInv(x, db, cl) && At(cl, w) && cl.workers[w].attached && cl.workers[w].stage.Absent?
    ensures db.runs[cl.workers[w].run].jobUid == None && db.runs[cl.workers[w].run].status == L.Running
  {
    assert WorkerOk(x, db, cl, cl.workers[w]);
  }

  /** Two Jobs of one name were never both alive: of all Jobs created for a run at most one is not deleted. */
  lemma OneLiveJobPerRun(x: Setup, db: L.Db, cl: Cluster, u: string, v: string)
    requires ClusterInv(x, db, cl) && u in cl.created && v in cl.created && cl.created[u].run == cl.created[v].run
    requires u !in cl.deleted && v !in cl.deleted
    ensures u == v && cl.created[u].run in cl.jobs && cl.jobs[cl.created[u].run].uid == u
  {
  }

  /** Whoever looks next, whatever became of the creator, finds the Job that was created, unless the cluster deleted it. */
  lemma AnyLookAdopts(c: L.Config, x: Setup, db: L.Db, cl: Cluster, v: int, uid: string)
    requires ClusterInv(x, db, cl) && At(cl, v) && Enabled(x, db, cl, Look(v))
    requires uid in cl.created && cl.created[uid].run == cl.workers[v].run && uid !in cl.deleted
    ensures var stage := NextCluster(c, x, db, cl, Look(v)).workers[v].stage;
            stage.Found? && stage.job.uid == uid && stage.job.manifest == cl.created[uid].manifest
  {
    assert Genuine(cl, cl.workers[v].run, cl.jobs[cl.workers[v].run]);
  }

  /** A create whose reply was lost leads back to that Job, unless the cluster deleted it in between. */
  lemma LostReplyAdopts(c: L.Config, x: Setup, db: L.Db, cl: Cluster, w: int, uid: string)
    requires ClusterInv(x, db, cl) && At(cl, w) && cl.workers[w].stage.Unsure?
    requires uid in cl.created && cl.created[uid].run == cl.workers[w].run && uid !in cl.deleted
    ensures Enabled(x, db, cl, LookAgain(w))
    ensures var stage := NextCluster(c, x, db, cl, LookAgain(w)).workers[w].stage;
            stage.Found? && stage.job.uid == uid && stage.job.manifest == cl.created[uid].manifest
  {
    assert Genuine(cl, cl.workers[w].run, cl.jobs[cl.workers[w].run]);
  }
}

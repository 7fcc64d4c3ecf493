/**
 * What an undisturbed worker makes of a run, in the protocol of module Execution: step by step from the row it has
 * loaded to the outcome it writes, for every Job it can find.
 */
module Completion {
  import opened Basics
  import opened Catalog
  import opened Manifests
  import L = Ledger
  import opened Execution
  import F = Effects

  datatype Pair = Pair(db: L.Db, cl: Cluster)


  /** One step, with the transaction it commits. */
  ghost function Do(c: L.Config, x: Setup, p: Pair, act: Act): Pair
    requires Enabled(x, p.db, p.cl, act)
  {
    var op := DbOp(x, p.db, p.cl, act);
    Pair(if op.Some? && L.Commits(c, p.db, op.value) then L.Apply(c, p.db, op.value) else p.db, NextCluster(c, x, p.db, p.cl, act))
  }

  /** Worker `k` holds the lock of `r`, has read its row, and the row still is what it read. */
  ghost predicate Ready(c: L.Config, x: Setup, p: Pair, k: int, r: L.RunId) {
    && k in p.cl.workers && p.cl.workers[k].run == r && p.cl.workers[k].attached && p.cl.workers[k].stage.Loaded?
    && Sound(p.db, r) && p.db.runs[r].status == L.Running && L.Rows(p.db, r) == [] && p.db.runs[r].failure == None
    && p.cl.workers[k].stage.work == Work(p.db.promised[r], Some(x.namespace), p.db.runs[r].jobUid)
  }

  /** The stage worker `k` is at. */
  predicate AtStage(p: Pair, k: int, r: L.RunId, stage: Stage) {
    k in p.cl.workers && p.cl.workers[k] == Worker(r, true, stage)
  }

  /** The Job is the recorded one, if one is recorded, and says all the rendered contract says. */
  ghost predicate Good(x: Setup, p: Pair, r: L.RunId, job: Job)
    requires Sound(p.db, r)
  {
    (p.db.runs[r].jobUid == None || p.db.runs[r].jobUid == Some(job.uid)) && Fulfils(job.manifest, Expected(x, p.db, r, p.db.promised[r]))
  }

  /** Loading reads the promised entry; the recheck never stands in the way. */
  lemma LoadingGetsReady(c: L.Config, x: Setup, p: Pair, k: int, r: L.RunId)
    requires L.Inv(c, p.db) && AtStage(p, k, r, Locked) && r in p.db.runs && p.db.runs[r].status == L.Running
    requires p.db.runs[r].namespace == Some(x.namespace)
    ensures Enabled(x, p.db, p.cl, Load(k)) && Ready(c, x, Do(c, x, p, Load(k)), k, r) && Do(c, x, p, Load(k)).db == p.db
  {
    assert L.RunInv(c, p.db, r);
  }

  /** Looking: the live Job of that name, else a lost one if one was recorded, else none yet. */
  lemma LookingDecides(c: L.Config, x: Setup, p: Pair, k: int, r: L.RunId)
    requires Ready(c, x, p, k, r)
    ensures Enabled(x, p.db, p.cl, Look(k))
    ensures var q := Do(c, x, p, Look(k));
            var work := p.cl.workers[k].stage.work;
            && q.db == p.db && q.cl.jobs == p.cl.jobs
            && (r in p.cl.jobs ==> AtStage(q, k, r, Found(work, p.cl.jobs[r])))
            && (r !in p.cl.jobs && p.db.runs[r].jobUid.Some? ==> AtStage(q, k, r, Ending(Some("job_lost"), [])))
            && (r !in p.cl.jobs && p.db.runs[r].jobUid == None ==> AtStage(q, k, r, Absent(work)))
  {
  }

  /** A Job created as rendered is found and good. */
  lemma CreatingMakesGood(c: L.Config, x: Setup, p: Pair, k: int, r: L.RunId, work: Work, uid: string)
    requires AtStage(p, k, r, Absent(work)) && Sound(p.db, r) && p.db.runs[r].jobUid == None
    requires r !in p.cl.jobs && uid !in p.cl.created
    ensures var act := Create(k, uid, Expected(x, p.db, r, p.db.promised[r]), true);
            && Enabled(x, p.db, p.cl, act) && Do(c, x, p, act).db == p.db
            && r in Do(c, x, p, act).cl.jobs && Good(x, p, r, Do(c, x, p, act).cl.jobs[r])
            && AtStage(Do(c, x, p, act), k, r, Found(work, Do(c, x, p, act).cl.jobs[r]))
  {
    var m := Expected(x, p.db, r, p.db.promised[r]);
    ContainsItself(m.labels);
    ContainsItself(m.annotations);
    ContainsItself(m.spec);
  }

  /** Verifying passes exactly good Jobs; any other is a conflict. */
  lemma VerifyingDecides(c: L.Config, x: Setup, p: Pair, k: int, r: L.RunId, job: Job)
    requires Sound(p.db, r)
    requires AtStage(p, k, r, Found(Work(p.db.promised[r], Some(x.namespace), p.db.runs[r].jobUid), job))
    ensures Enabled(x, p.db, p.cl, Verify(k)) && Do(c, x, p, Verify(k)).db == p.db
    ensures var q := Do(c, x, p, Verify(k));
            if Good(x, p, r, job)
            then AtStage(q, k, r, Verified(Work(p.db.promised[r], Some(x.namespace), p.db.runs[r].jobUid), job))
            else AtStage(q, k, r, Ending(Some("job_identity_conflict"), []))
  {
  }

  /** Recording: the identity is in the row, and the Job's state says what comes next. */
  lemma RecordingDecides(c: L.Config, x: Setup, p: Pair, k: int, r: L.RunId, work: Work, job: Job, reason: string)
    requires Sound(p.db, r) && p.db.runs[r].status == L.Running && AtStage(p, k, r, Verified(work, job)) && IsPodReason(reason)
    requires p.db.runs[r].jobUid == None || p.db.runs[r].jobUid == Some(job.uid)
    ensures Enabled(x, p.db, p.cl, RecordUid(k, reason))
    ensures var q := Do(c, x, p, RecordUid(k, reason));
            && F.OnlyRow(p.db, q.db, r, p.db.runs[r].(jobUid := Some(job.uid))) && q.db.promised == p.db.promised
            && match job.state
               case Active => k !in q.cl.workers
               case Failed => AtStage(q, k, r, Ending(Some(reason), []))
               case Complete => AtStage(q, k, r, Collecting(work, job.uid))
  {
    F.SaveJobUidEffect(c, p.db, r, job.uid);
  }

  /** Listing: what the outputs make of the run, exactly. */
  lemma ListingDecides(c: L.Config, x: Setup, p: Pair, k: int, r: L.RunId, work: Work, uid: string, files: seq<L.Artifact>)
    requires Sound(p.db, r) && AtStage(p, k, r, Collecting(work, uid)) && work.entry == p.db.promised[r]
    ensures Enabled(x, p.db, p.cl, List(k, files)) && Do(c, x, p, List(k, files)).db == p.db
    ensures var q := Do(c, x, p, List(k, files));
            && k in q.cl.workers && q.cl.workers[k].stage.Ending? && AtStage(q, k, r, Ending(q.cl.workers[k].stage.failure, files))
            && var failure := q.cl.workers[k].stage.failure;
               && (failure == Some("required_outputs_missing") <==> MissesOutput(p.db.promised[r], Prefix(x, p.db, r), files))
               && (failure == Some("outputs_empty") <==>
                     !MissesOutput(p.db.promised[r], Prefix(x, p.db, r), files) && !SomethingStored(files))
               && (failure == None <==> !MissesOutput(p.db.promised[r], Prefix(x, p.db, r), files) && SomethingStored(files))
  {
    CollectExactly(work.entry, Prefix(x, p.db, r), files);
  }

  /** Ending: the row ends with that code or without one, and the worker is done. */
  lemma EndingDecides(c: L.Config, x: Setup, p: Pair, k: int, r: L.RunId, failure: Option<string>, files: seq<L.Artifact>, at: int)
    requires r in p.db.runs && p.db.runs[r].status == L.Running && L.Rows(p.db, r) == [] && L.DistinctKeys(files) && failure != Some("")
    requires AtStage(p, k, r, Ending(failure, files))
    ensures Enabled(x, p.db, p.cl, End(k, at))
    ensures var q := Do(c, x, p, End(k, at)); F.Ends(p.db, q.db, r, failure, files, at) && k !in q.cl.workers
  {
    assert L.Rows(p.db, r) + files == files;
    F.FinishEffect(c, p.db, r, failure, files, at);
  }

  /** A good complete Job with its outputs stored brings the run to success, in five steps nobody disturbs. */
  lemma GoodJobSucceeds(c: L.Config, x: Setup, p: Pair, k: int, r: L.RunId, files: seq<L.Artifact>, at: int) returns (q: Pair)
    requires Ready(c, x, p, k, r) && r in p.cl.jobs && p.cl.jobs[r].state == Complete && Good(x, p, r, p.cl.jobs[r])
    requires L.DistinctKeys(files) && Evidence(p.db.promised[r], Prefix(x, p.db, r), files)
    ensures r in q.db.runs && q.db.runs[r].status == L.Succeeded && q.db.runs[r].failure == None
    ensures q.db.runs[r].jobUid == Some(p.cl.jobs[r].uid) && L.Rows(q.db, r) == files
    ensures q.db.outbox == p.db.outbox + [L.Event(r, L.EndedWell)]
  {
    var work, job := p.cl.workers[k].stage.work, p.cl.jobs[r];
    LookingDecides(c, x, p, k, r);
    var found := Do(c, x, p, Look(k));
    VerifyingDecides(c, x, found, k, r, job);
    var verified := Do(c, x, found, Verify(k));
    RecordingDecides(c, x, verified, k, r, work, job, "job_failed");
    var recorded := Do(c, x, verified, RecordUid(k, "job_failed"));
    ListingDecides(c, x, recorded, k, r, work, job.uid, files);
    EvidenceExactly(p.db.promised[r], Prefix(x, p.db, r), files);
    var listed := Do(c, x, recorded, List(k, files));
    assert Prefix(x, recorded.db, r) == Prefix(x, p.db, r);
    EndingDecides(c, x, listed, k, r, None, files, at);
    q := Do(c, x, listed, End(k, at));
    assert [] + files == files;
  }

  /** A Job that is not the recorded one, or alters the contract, fails the run as a conflict; nothing is recorded. */
  lemma BadJobConflicts(c: L.Config, x: Setup, p: Pair, k: int, r: L.RunId, at: int) returns (q: Pair)
    requires Ready(c, x, p, k, r) && r in p.cl.jobs && !Good(x, p, r, p.cl.jobs[r])
    ensures r in q.db.runs && q.db.runs[r].status == L.Failed && q.db.runs[r].failure == Some("job_identity_conflict")
    ensures q.db.runs[r].jobUid == p.db.runs[r].jobUid && L.Rows(q.db, r) == []
  {
    LookingDecides(c, x, p, k, r);
    var found := Do(c, x, p, Look(k));
    VerifyingDecides(c, x, found, k, r, p.cl.jobs[r]);
    var ending := Do(c, x, found, Verify(k));
    EndingDecides(c, x, ending, k, r, Some("job_identity_conflict"), [], at);
    q := Do(c, x, ending, End(k, at));
  }

  /** A good Job that is still active leaves the run running, with the Job recorded and nothing else changed. */
  lemma ActiveJobWaits(c: L.Config, x: Setup, p: Pair, k: int, r: L.RunId) returns (q: Pair)
    requires Ready(c, x, p, k, r) && r in p.cl.jobs && p.cl.jobs[r].state == Active && Good(x, p, r, p.cl.jobs[r])
    ensures F.OnlyRow(p.db, q.db, r, p.db.runs[r].(jobUid := Some(p.cl.jobs[r].uid))) && k !in q.cl.workers && q.cl.jobs == p.cl.jobs
  {
    LookingDecides(c, x, p, k, r);
    var found := Do(c, x, p, Look(k));
    VerifyingDecides(c, x, found, k, r, p.cl.jobs[r]);
    var verified := Do(c, x, found, Verify(k));
    RecordingDecides(c, x, verified, k, r, p.cl.workers[k].stage.work, p.cl.jobs[r], "job_failed");
    q := Do(c, x, verified, RecordUid(k, "job_failed"));
  }

  /** A good Job that failed fails the run for the reason its pods give, with the Job recorded. */
  lemma FailedJobFails(c: L.Config, x: Setup, p: Pair, k: int, r: L.RunId, reason: string, at: int) returns (q: Pair)
    requires Ready(c, x, p, k, r) && r in p.cl.jobs && p.cl.jobs[r].state == Failed && Good(x, p, r, p.cl.jobs[r]) && IsPodReason(reason)
    ensures r in q.db.runs && q.db.runs[r].status == L.Failed && q.db.runs[r].failure == Some(reason)
    ensures q.db.runs[r].jobUid == Some(p.cl.jobs[r].uid) && L.Rows(q.db, r) == []
  {
    LookingDecides(c, x, p, k, r);
    var found := Do(c, x, p, Look(k));
    VerifyingDecides(c, x, found, k, r, p.cl.jobs[r]);
    var verified := Do(c, x, found, Verify(k));
    RecordingDecides(c, x, verified, k, r, p.cl.workers[k].stage.work, p.cl.jobs[r], reason);
    var ending := Do(c, x, verified, RecordUid(k, reason));
    EndingDecides(c, x, ending, k, r, Some(reason), [], at);
    q := Do(c, x, ending, End(k, at));
  }

  /** A recorded Job that is gone fails the run as lost; none is created in its place. */
  lemma LostJobFails(c: L.Config, x: Setup, p: Pair, k: int, r: L.RunId, at: int) returns (q: Pair)
    requires Ready(c, x, p, k, r) && r !in p.cl.jobs && p.db.runs[r].jobUid.Some?
    ensures r in q.db.runs && q.db.runs[r].status == L.Failed && q.db.runs[r].failure == Some("job_lost")
    ensures q.db.runs[r].jobUid == p.db.runs[r].jobUid && q.cl.jobs == p.cl.jobs
  {
    LookingDecides(c, x, p, k, r);
    var ending := Do(c, x, p, Look(k));
    EndingDecides(c, x, ending, k, r, Some("job_lost"), [], at);
    q := Do(c, x, ending, End(k, at));
  }
}

/**
 * Once a Job is recorded, is another create ever attempted? Only by a worker that lost its database connection, and
 * with it the run's lock, after it had read the run: it holds no lock, yet goes on to the cluster.
 */
module Orphans {
  import opened Basics
  import opened Catalog
  import opened Manifests
  import L = Ledger
  import T = Transport
  import E = Execution
  import opened System

  // ---- Histories with their acts ----

  ghost predicate Chronicle(c: L.Config, x: E.Setup, worlds: seq<World>, acts: seq<Act>) {
    && |worlds| == |acts| + 1 && Start(worlds[0])
    && forall i :: 0 <= i < |acts| ==> ActsAt(c, x, worlds, acts, i)
  }

  ghost predicate ActsAt(c: L.Config, x: E.Setup, worlds: seq<World>, acts: seq<Act>, i: int)
    requires 0 <= i < |acts| < |worlds|
  {
    Enabled(c, x, worlds[i], acts[i]) && worlds[i + 1] == Next(c, x, worlds[i], acts[i])
  }

  lemma ChronicleIsHistory(c: L.Config, x: E.Setup, worlds: seq<World>, acts: seq<Act>)
    requires Chronicle(c, x, worlds, acts)
    ensures History(c, x, worlds)
  {
    forall i | 0 <= i < |worlds| - 1 ensures StepAt(c, x, worlds, i) { assert ActsAt(c, x, worlds, acts, i); }
  }

  /** Worker `k` sends a create to the cluster; it may succeed, or fail because the name is taken or for any other reason. */
  predicate Attempts(act: Act, k: int) {
    act.InCluster? && (act.task.Create? || act.task.CreateFails?) && act.task.who == k
  }

  /** Worker `k` begins, or reads its run. */
  predicate Restarts(act: Act, k: int) { act.InCluster? && (act.task.Lock? || act.task.Load?) && act.task.who == k }

  /** `l` is the last time before `i` that worker `k` read its run. */
  ghost predicate LoadedAt(acts: seq<Act>, k: int, l: int, i: int) {
    && 0 <= l < i <= |acts| && acts[l] == InCluster(E.Load(k))
    && forall m :: l < m < i ==> !Restarts(acts[m], k)
  }

  /** The connection of worker `k` was lost at `d`, after it read its run. */
  ghost predicate CutOffAt(acts: seq<Act>, k: int, d: int, i: int) {
    0 <= d < i <= |acts| && acts[d] == InCluster(E.Detach(k)) && exists l :: l < d && LoadedAt(acts, k, l, i)
  }

  /** The worker a task belongs to. */
  function Mover(task: E.Act): Option<int> {
    match task
    case JobDeleted(_) => None
    case ForeignJob(_, _, _) => None
    case JobMoves(_, _) => None
    case _ => Some(task.who)
  }

  lemma OthersWait(c: L.Config, x: E.Setup, db: L.Db, cl: E.Cluster, task: E.Act, k: int)
    requires E.Enabled(x, db, cl, task) && Mover(task) != Some(k)
    ensures var after := E.NextCluster(c, x, db, cl, task).workers;
            (k in after <==> k in cl.workers) && (k in after ==> after[k] == cl.workers[k])
  {
  }

  lemma OwnStep(c: L.Config, x: E.Setup, db: L.Db, cl: E.Cluster, task: E.Act, k: int)
    requires E.Enabled(x, db, cl, task) && Mover(task) == Some(k) && k in E.NextCluster(c, x, db, cl, task).workers
    requires !task.Load? && !task.Lock?
    ensures k in cl.workers
    ensures var worker, before := E.NextCluster(c, x, db, cl, task).workers[k], cl.workers[k];
            if task.Detach? then worker.stage == before.stage
            else before.stage != E.Locked && worker.attached == before.attached
  {
  }

  lemma WorkerStep(c: L.Config, x: E.Setup, w: World, act: Act, k: int)
    requires Enabled(c, x, w, act) && k in Next(c, x, w, act).cluster.workers
    requires Next(c, x, w, act).cluster.workers[k].stage != E.Locked
    ensures var worker := Next(c, x, w, act).cluster.workers[k];
            || (act == InCluster(E.Load(k)) && worker.attached)
            || (k in w.cluster.workers && w.cluster.workers[k].stage != E.Locked && !Restarts(act, k)
                && (act == InCluster(E.Detach(k)) || worker.attached == w.cluster.workers[k].attached))
  {
    if act.InCluster? {
      if Mover(act.task) != Some(k) {
        OthersWait(c, x, w.db, w.cluster, act.task, k);
      } else if !act.task.Load? && !act.task.Lock? {
        OwnStep(c, x, w.db, w.cluster, act.task, k);
      }
    }
  }

  lemma LoadedLonger(acts: seq<Act>, k: int, l: int, i: int)
    requires LoadedAt(acts, k, l, i) && i < |acts| && !Restarts(acts[i], k)
    ensures LoadedAt(acts, k, l, i + 1)
  {
  }

  /** A worker past its lock has read its run; if it is detached, it was cut off after that. */
  lemma {:induction false} Past(c: L.Config, x: E.Setup, worlds: seq<World>, acts: seq<Act>, k: int, i: nat)
    requires Chronicle(c, x, worlds, acts) && i <= |acts|
    requires k in worlds[i].cluster.workers && worlds[i].cluster.workers[k].stage != E.Locked
    ensures exists l :: LoadedAt(acts, k, l, i)
    ensures !worlds[i].cluster.workers[k].attached ==> exists d :: CutOffAt(acts, k, d, i)
  {
    assert i > 0;
    var n := i - 1;
    assert ActsAt(c, x, worlds, acts, n);
    WorkerStep(c, x, worlds[n], acts[n], k);
    if acts[n] == InCluster(E.Load(k)) {
      assert LoadedAt(acts, k, n, i);
    } else {
      Past(c, x, worlds, acts, k, n);
      var l :| LoadedAt(acts, k, l, n);
      LoadedLonger(acts, k, l, n);
      if acts[n] == InCluster(E.Detach(k)) {
        assert CutOffAt(acts, k, n, i);
      } else if !worlds[i].cluster.workers[k].attached {
        var d :| CutOffAt(acts, k, d, n);
        var m :| m < d && LoadedAt(acts, k, m, n);
        LoadedLonger(acts, k, m, n);
        assert CutOffAt(acts, k, d, i);
      }
    }
  }

  /** An attempt to create for a run whose Job is recorded is made only by a worker cut off after it read the run. */
  lemma LateAttemptsWereCutOff(c: L.Config, x: E.Setup, worlds: seq<World>, acts: seq<Act>, k: int, i: nat)
    requires Chronicle(c, x, worlds, acts) && i < |acts| && Attempts(acts[i], k)
    ensures k in worlds[i].cluster.workers && worlds[i].cluster.workers[k].run in worlds[i].db.runs
    ensures worlds[i].db.runs[worlds[i].cluster.workers[k].run].jobUid.Some? ==> exists d :: CutOffAt(acts, k, d, i)
  {
    ChronicleIsHistory(c, x, worlds, acts);
    HistoryInv(c, x, worlds, i);
    assert ActsAt(c, x, worlds, acts, i);
    var w := worlds[i];
    assert E.WorkerOk(x, w.db, w.cluster, w.cluster.workers[k]);
    if w.cluster.workers[k].attached { E.AttachedNeverRecreates(x, w.db, w.cluster, k); }
    Past(c, x, worlds, acts, k, i);
  }

  /** In particular a worker whose connection was never lost makes no such attempt. */
  lemma ConnectedNeverLate(c: L.Config, x: E.Setup, worlds: seq<World>, acts: seq<Act>, k: int, i: nat)
    requires Chronicle(c, x, worlds, acts) && i < |acts| && Attempts(acts[i], k)
    requires forall d :: 0 <= d < i ==> acts[d] != InCluster(E.Detach(k))
    ensures k in worlds[i].cluster.workers && worlds[i].cluster.workers[k].run in worlds[i].db.runs
    ensures worlds[i].db.runs[worlds[i].cluster.workers[k].run].jobUid == None
  {
    LateAttemptsWereCutOff(c, x, worlds, acts, k, i);
  }

  // ---- Continuations ----

  ghost predicate Path(c: L.Config, x: E.Setup, worlds: seq<World>) {
    worlds != [] && forall i :: 0 <= i < |worlds| - 1 ==> StepAt(c, x, worlds, i)
  }

  ghost predicate Leads(c: L.Config, x: E.Setup, w: World, w': World) {
    exists worlds :: Path(c, x, worlds) && worlds[0] == w && worlds[|worlds| - 1] == w'
  }

  ghost predicate Reachable(c: L.Config, x: E.Setup, w: World) { exists s :: Start(s) && Leads(c, x, s, w) }

  lemma LeadsNowhere(c: L.Config, x: E.Setup, w: World)
    ensures Leads(c, x, w, w)
  {
    assert Path(c, x, [w]) && [w][0] == w && [w][|[w]| - 1] == w;
  }

  lemma LeadsOn(c: L.Config, x: E.Setup, w: World, v: World, act: Act)
    requires Leads(c, x, w, v) && Enabled(c, x, v, act)
    ensures Leads(c, x, w, Next(c, x, v, act))
  {
    var worlds :| Path(c, x, worlds) && worlds[0] == w && worlds[|worlds| - 1] == v;
    var more := worlds + [Next(c, x, v, act)];
    forall i | 0 <= i < |more| - 1 ensures StepAt(c, x, more, i) {
      if i < |worlds| - 1 {
        assert StepAt(c, x, worlds, i) && more[i] == worlds[i] && more[i + 1] == worlds[i + 1];
      } else {
        assert more[i] == v && more[i + 1] == Next(c, x, v, act);
      }
    }
    assert Path(c, x, more) && more[0] == w && more[|more| - 1] == Next(c, x, v, act);
  }

  lemma LeadsThrough(c: L.Config, x: E.Setup, u: World, v: World, w: World)
    requires Leads(c, x, u, v) && Leads(c, x, v, w)
    ensures Leads(c, x, u, w)
  {
    var a :| Path(c, x, a) && a[0] == u && a[|a| - 1] == v;
    var b :| Path(c, x, b) && b[0] == v && b[|b| - 1] == w;
    var ab := a + b[1..];
    forall i | 0 <= i < |ab| - 1 ensures StepAt(c, x, ab, i) {
      if i < |a| - 1 {
        assert StepAt(c, x, a, i) && ab[i] == a[i] && ab[i + 1] == a[i + 1];
      } else {
        var j := i - (|a| - 1);
        assert StepAt(c, x, b, j) && ab[i] == b[j] && ab[i + 1] == b[j + 1];
      }
    }
    assert Path(c, x, ab) && ab[0] == u && ab[|ab| - 1] == w;
  }

  lemma ReachableOn(c: L.Config, x: E.Setup, w: World, w': World)
    requires Reachable(c, x, w) && Leads(c, x, w, w')
    ensures Reachable(c, x, w')
  {
    var s :| Start(s) && Leads(c, x, s, w);
    LeadsThrough(c, x, s, w, w');
  }

  lemma ReachableInv(c: L.Config, x: E.Setup, w: World)
    requires Reachable(c, x, w)
    ensures Inv(c, x, w) && AllPlaced(x, w)
  {
    var s :| Start(s) && Leads(c, x, s, w);
    var worlds :| Path(c, x, worlds) && worlds[0] == s && worlds[|worlds| - 1] == w;
    assert History(c, x, worlds);
    HistoryInv(c, x, worlds, |worlds| - 1);
    HistoryPlaced(c, x, worlds, |worlds| - 1);
  }

  // ---- Workers keep to the namespace the run was dispatched to ----

  ghost predicate Placed(x: E.Setup, db: L.Db, worker: E.Worker) {
    var work := E.WorkOf(worker.stage);
    work.Some? ==>
      && worker.run in db.runs && db.runs[worker.run].dispatchedAt.Some? && db.runs[worker.run].namespace == work.value.namespace
      && (!worker.stage.Loaded? ==> work.value.namespace == Some(x.namespace))
  }

  ghost predicate AllPlaced(x: E.Setup, w: World) { forall k :: k in w.cluster.workers ==> Placed(x, w.db, w.cluster.workers[k]) }

  lemma PlacedLater(x: E.Setup, db: L.Db, db': L.Db, worker: E.Worker)
    requires Placed(x, db, worker) && L.Later(db, db')
    ensures Placed(x, db', worker)
  {
    if E.WorkOf(worker.stage).Some? { assert L.RunLater(db.runs[worker.run], db'.runs[worker.run]); }
  }

  lemma PlacedLoad(c: L.Config, x: E.Setup, db: L.Db, cl: E.Cluster, k: int)
    requires L.Inv(c, db) && E.Enabled(x, db, cl, E.Load(k)) && k in E.NextCluster(c, x, db, cl, E.Load(k)).workers
    ensures Placed(x, db, E.NextCluster(c, x, db, cl, E.Load(k)).workers[k])
  {
    assert L.RunInv(c, db, cl.workers[k].run);
  }

  /** After it has loaded, a worker works with what it loaded. */
  lemma SameWork(c: L.Config, x: E.Setup, db: L.Db, cl: E.Cluster, task: E.Act, k: int)
    requires E.Enabled(x, db, cl, task) && Mover(task) == Some(k) && !task.Load? && !task.Lock?
    requires k in E.NextCluster(c, x, db, cl, task).workers
    ensures k in cl.workers
    ensures var before, after := cl.workers[k], E.NextCluster(c, x, db, cl, task).workers[k];
            && after.run == before.run
            && (E.WorkOf(after.stage).Some? ==> E.WorkOf(after.stage) == E.WorkOf(before.stage))
            && (before.stage.Loaded? && !task.Detach? && E.WorkOf(after.stage).Some? ==>
                  E.WorkOf(after.stage).value.namespace == Some(x.namespace))
            && (after.stage.Loaded? ==> before.stage.Loaded?)
            && (task.Detach? ==> after.stage == before.stage)
  {
  }

  lemma PlacedMove(c: L.Config, x: E.Setup, db: L.Db, cl: E.Cluster, task: E.Act, k: int)
    requires L.Inv(c, db) && E.Enabled(x, db, cl, task) && Mover(task) == Some(k) && k in E.NextCluster(c, x, db, cl, task).workers
    requires k in cl.workers ==> Placed(x, db, cl.workers[k])
    ensures Placed(x, db, E.NextCluster(c, x, db, cl, task).workers[k])
  {
    if task.Load? {
      PlacedLoad(c, x, db, cl, k);
    } else if !task.Lock? {
      SameWork(c, x, db, cl, task, k);
    }
  }

  lemma PlacedStep(c: L.Config, x: E.Setup, w: World, act: Act)
    requires Inv(c, x, w) && AllPlaced(x, w) && Enabled(c, x, w, act)
    ensures AllPlaced(x, Next(c, x, w, act))
  {
    var w' := Next(c, x, w, act);
    StepInv(c, x, w, act);
    forall k | k in w'.cluster.workers ensures Placed(x, w'.db, w'.cluster.workers[k]) {
      if act.InCluster? {
        if Mover(act.task) == Some(k) {
          PlacedMove(c, x, w.db, w.cluster, act.task, k);
        } else {
          OthersWait(c, x, w.db, w.cluster, act.task, k);
        }
      }
      PlacedLater(x, w.db, w'.db, w'.cluster.workers[k]);
    }
  }

  lemma {:induction false} HistoryPlaced(c: L.Config, x: E.Setup, worlds: seq<World>, i: nat)
    requires History(c, x, worlds) && i < |worlds|
    ensures AllPlaced(x, worlds[i])
  {
    if i > 0 {
      HistoryPlaced(c, x, worlds, i - 1);
      HistoryInv(c, x, worlds, i - 1);
      assert StepAt(c, x, worlds, i - 1);
      PlacedNext(c, x, worlds[i - 1], worlds[i]);
    }
  }

  lemma PlacedNext(c: L.Config, x: E.Setup, w: World, w': World)
    requires Inv(c, x, w) && AllPlaced(x, w) && Step(c, x, w, w')
    ensures AllPlaced(x, w')
  {
    var act :| Enabled(c, x, w, act) && w' == Next(c, x, w, act);
    PlacedStep(c, x, w, act);
  }

  // ---- An orphan can be overtaken ----

  lemma {:induction false} FreshId(ids: set<int>) returns (n: int)
    ensures forall k :: k in ids ==> k < n
  {
    n := 0;
    if ids != {} {
      SomeMember(ids);
      var k :| k in ids;
      var m := FreshId(ids - {k});
      n := if m > k then m else k + 1;
      assert forall j :: j in ids ==> j == k || j in ids - {k};
    }
  }

  lemma {:induction false} LongerThanAll(texts: set<string>) returns (n: nat)
    ensures forall s :: s in texts ==> |s| < n
  {
    n := 0;
    if texts != {} {
      var s :| s in texts;
      var m := LongerThanAll(texts - {s});
      n := if m > |s| then m else |s| + 1;
      assert forall t :: t in texts ==> t == s || t in texts - {s};
    }
  }

  lemma FreshUid(uids: set<string>) returns (u: string)
    ensures u !in uids
  {
    var n := LongerThanAll(uids);
    u := seq(n, _ => 'a');
  }

  /** A running run without a recorded Job, dispatched to this cluster. */
  ghost predicate Unrecorded(c: L.Config, x: E.Setup, db: L.Db, r: L.RunId) {
    && r in db.runs && db.runs[r].status == L.Running && db.runs[r].jobUid == None && db.runs[r].namespace == Some(x.namespace)
    && L.RunMatches(c, db, r)
  }

  function EntryOf(db: L.Db, r: L.RunId): Invocation
    requires r in db.runs && db.runs[r].release in db.releases && db.runs[r].mode in db.releases[db.runs[r].release].modes
  {
    db.releases[db.runs[r].release].modes[db.runs[r].mode]
  }

  function WorkFor(x: E.Setup, entry: Invocation): E.Work { E.Work(entry, Some(x.namespace), None) }

  /** The world with one worker placed or replaced. */
  function With(w: World, j: int, worker: E.Worker): World {
    w.(cluster := w.cluster.(workers := w.cluster.workers[j := worker]))
  }

  ghost predicate LockFree(x: E.Setup, w: World, r: L.RunId) {
    forall v :: v in w.cluster.workers && w.cluster.workers[v].attached ==> x.key(w.cluster.workers[v].run) != x.key(r)
  }

  lemma Locks(c: L.Config, x: E.Setup, w: World, r: L.RunId, j: int)
    requires r in w.db.runs && j !in w.cluster.workers && LockFree(x, w, r)
    ensures Leads(c, x, w, With(w, j, E.Worker(r, true, E.Locked)))
  {
    LeadsNowhere(c, x, w);
    LeadsOn(c, x, w, w, InCluster(E.Lock(j, r)));
    assert Next(c, x, w, InCluster(E.Lock(j, r))) == With(w, j, E.Worker(r, true, E.Locked));
  }

  lemma Loads(c: L.Config, x: E.Setup, w: World, r: L.RunId, j: int)
    requires Unrecorded(c, x, w.db, r)
    ensures var locked := With(w, j, E.Worker(r, true, E.Locked));
            Leads(c, x, locked, With(w, j, E.Worker(r, true, E.Loaded(WorkFor(x, EntryOf(w.db, r))))))
  {
    var locked := With(w, j, E.Worker(r, true, E.Locked));
    LeadsNowhere(c, x, locked);
    LeadsOn(c, x, locked, locked, InCluster(E.Load(j)));
    assert Next(c, x, locked, InCluster(E.Load(j))) == With(w, j, E.Worker(r, true, E.Loaded(WorkFor(x, EntryOf(w.db, r)))));
  }

  lemma Looks(c: L.Config, x: E.Setup, w: World, r: L.RunId, j: int, entry: Invocation)
    requires r !in w.cluster.jobs
    ensures var loaded := With(w, j, E.Worker(r, true, E.Loaded(WorkFor(x, entry))));
            Leads(c, x, loaded, With(w, j, E.Worker(r, true, E.Absent(WorkFor(x, entry)))))
  {
    var loaded := With(w, j, E.Worker(r, true, E.Loaded(WorkFor(x, entry))));
    LeadsNowhere(c, x, loaded);
    LeadsOn(c, x, loaded, loaded, InCluster(E.Look(j)));
    assert Next(c, x, loaded, InCluster(E.Look(j))) == With(w, j, E.Worker(r, true, E.Absent(WorkFor(x, entry))));
  }

  /** A worker that finds the lock free and no Job gets ready to create one. */
  lemma Approaches(c: L.Config, x: E.Setup, w: World, r: L.RunId, j: int)
    requires Unrecorded(c, x, w.db, r) && j !in w.cluster.workers && LockFree(x, w, r) && r !in w.cluster.jobs
    ensures Leads(c, x, w, With(w, j, E.Worker(r, true, E.Absent(WorkFor(x, EntryOf(w.db, r))))))
  {
    var entry := EntryOf(w.db, r);
    var locked := With(w, j, E.Worker(r, true, E.Locked));
    var loaded := With(w, j, E.Worker(r, true, E.Loaded(WorkFor(x, entry))));
    Locks(c, x, w, r, j);
    Loads(c, x, w, r, j);
    Looks(c, x, w, r, j, entry);
    LeadsThrough(c, x, w, locked, loaded);
    LeadsThrough(c, x, w, loaded, With(w, j, E.Worker(r, true, E.Absent(WorkFor(x, entry)))));
  }

  /** The world with the Job a worker created as rendered. */
  ghost function Created(x: E.Setup, w: World, r: L.RunId, u: string, entry: Invocation): World
    requires r in w.db.runs && w.db.runs[r].release in w.db.releases
  {
    w.(cluster := E.WithJob(w.cluster, r, u, E.Expected(x, w.db, r, entry)))
  }

  lemma Creates(c: L.Config, x: E.Setup, w: World, r: L.RunId, j: int, u: string)
    requires Unrecorded(c, x, w.db, r) && r !in w.cluster.jobs && u !in w.cluster.created
    ensures var entry := EntryOf(w.db, r);
            var m := E.Expected(x, w.db, r, entry);
            Leads(c, x, With(w, j, E.Worker(r, true, E.Absent(WorkFor(x, entry)))),
                  With(Created(x, w, r, u, entry), j, E.Worker(r, true, E.Found(WorkFor(x, entry), E.Job(u, m, E.Active)))))
  {
    var entry := EntryOf(w.db, r);
    var m := E.Expected(x, w.db, r, entry);
    var ready := With(w, j, E.Worker(r, true, E.Absent(WorkFor(x, entry))));
    LeadsNowhere(c, x, ready);
    LeadsOn(c, x, ready, ready, InCluster(E.Create(j, u, m, true)));
    assert Next(c, x, ready, InCluster(E.Create(j, u, m, true)))
        == With(Created(x, w, r, u, entry), j, E.Worker(r, true, E.Found(WorkFor(x, entry), E.Job(u, m, E.Active))));
  }

  lemma Verifies(c: L.Config, x: E.Setup, w: World, r: L.RunId, j: int, u: string)
    requires Unrecorded(c, x, w.db, r)
    ensures var entry := EntryOf(w.db, r);
            var job := E.Job(u, E.Expected(x, w.db, r, entry), E.Active);
            Leads(c, x, With(w, j, E.Worker(r, true, E.Found(WorkFor(x, entry), job))),
                  With(w, j, E.Worker(r, true, E.Verified(WorkFor(x, entry), job))))
  {
    var entry := EntryOf(w.db, r);
    var m := E.Expected(x, w.db, r, entry);
    var job := E.Job(u, m, E.Active);
    var found := With(w, j, E.Worker(r, true, E.Found(WorkFor(x, entry), job)));
    ContainsItself(m.labels);
    ContainsItself(m.annotations);
    ContainsItself(m.spec);
    LeadsNowhere(c, x, found);
    LeadsOn(c, x, found, found, InCluster(E.Verify(j)));
    assert Next(c, x, found, InCluster(E.Verify(j))) == With(w, j, E.Worker(r, true, E.Verified(WorkFor(x, entry), job)));
  }

  /** The database with the Job recorded. */
  function Recorded(db: L.Db, r: L.RunId, u: string): L.Db
    requires r in db.runs
  {
    db.(runs := db.runs[r := db.runs[r].(jobUid := Some(u))])
  }

  lemma Records(c: L.Config, x: E.Setup, w: World, r: L.RunId, j: int, u: string)
    requires Unrecorded(c, x, w.db, r) && j !in w.cluster.workers
    ensures var entry := EntryOf(w.db, r);
            Leads(c, x, With(w, j, E.Worker(r, true, E.Verified(WorkFor(x, entry), E.Job(u, E.Expected(x, w.db, r, entry), E.Active)))),
                  w.(db := Recorded(w.db, r, u)))
  {
    var entry := EntryOf(w.db, r);
    var verified := With(w, j, E.Worker(r, true, E.Verified(WorkFor(x, entry), E.Job(u, E.Expected(x, w.db, r, entry), E.Active))));
    var act := InCluster(E.RecordUid(j, "job_failed"));
    LeadsNowhere(c, x, verified);
    LeadsOn(c, x, verified, verified, act);
    var next := Next(c, x, verified, act);
    assert next.cluster.workers == w.cluster.workers;
    assert next == w.(db := Recorded(w.db, r, u));
  }

  /** With the lock free and no Job alive, another worker creates one and records it. */
  lemma AnotherRecords(c: L.Config, x: E.Setup, w: World, r: L.RunId, j: int, u: string)
    requires Unrecorded(c, x, w.db, r) && LockFree(x, w, r) && r !in w.cluster.jobs
    requires j !in w.cluster.workers && u !in w.cluster.created
    ensures Leads(c, x, w, Created(x, w, r, u, EntryOf(w.db, r)).(db := Recorded(w.db, r, u)))
  {
    var entry := EntryOf(w.db, r);
    var job := E.Job(u, E.Expected(x, w.db, r, entry), E.Active);
    var made := Created(x, w, r, u, entry);
    var ready := With(w, j, E.Worker(r, true, E.Absent(WorkFor(x, entry))));
    var found := With(made, j, E.Worker(r, true, E.Found(WorkFor(x, entry), job)));
    var verified := With(made, j, E.Worker(r, true, E.Verified(WorkFor(x, entry), job)));
    Approaches(c, x, w, r, j);
    Creates(c, x, w, r, j, u);
    Verifies(c, x, made, r, j, u);
    Records(c, x, made, r, j, u);
    LeadsThrough(c, x, w, ready, found);
    LeadsThrough(c, x, w, found, verified);
    LeadsThrough(c, x, w, verified, made.(db := Recorded(w.db, r, u)));
  }

  predicate Orphan(worker: E.Worker, r: L.RunId) { !worker.attached && worker.stage.Absent? && worker.run == r }

  /** Same database, and worker `k` as it was. */
  ghost predicate Undisturbed(w: World, w': World, k: int) {
    w'.db == w.db && k in w.cluster.workers && k in w'.cluster.workers && w'.cluster.workers[k] == w.cluster.workers[k]
  }

  /** Whoever holds the lock may leave; at most one worker does. */
  lemma LockGetsFree(c: L.Config, x: E.Setup, w: World, r: L.RunId, k: int) returns (w': World)
    requires E.LocksExclusive(x, w.cluster.workers) && k in w.cluster.workers && !w.cluster.workers[k].attached
    ensures Leads(c, x, w, w') && Undisturbed(w, w', k) && LockFree(x, w', r)
  {
    LeadsNowhere(c, x, w);
    w' := w;
    if v :| v in w.cluster.workers && w.cluster.workers[v].attached && x.key(w.cluster.workers[v].run) == x.key(r) {
      LeadsOn(c, x, w, w, InCluster(E.Leave(v)));
      w' := Next(c, x, w, InCluster(E.Leave(v)));
    }
  }

  /** The cluster may delete a Job. */
  lemma NameGetsFree(c: L.Config, x: E.Setup, w: World, r: L.RunId, k: int) returns (w': World)
    requires k in w.cluster.workers
    ensures Leads(c, x, w, w') && Undisturbed(w, w', k) && r !in w'.cluster.jobs
    ensures w'.cluster.workers == w.cluster.workers && w'.cluster.created == w.cluster.created
  {
    LeadsNowhere(c, x, w);
    w' := w;
    if r in w.cluster.jobs {
      LeadsOn(c, x, w, w, InCluster(E.JobDeleted(r)));
      w' := Next(c, x, w, InCluster(E.JobDeleted(r)));
    }
  }

  lemma OrphanIsReady(c: L.Config, x: E.Setup, w: World, k: int, r: L.RunId)
    requires Reachable(c, x, w) && k in w.cluster.workers && Orphan(w.cluster.workers[k], r)
    requires r in w.db.runs && w.db.runs[r].status == L.Running && w.db.runs[r].jobUid == None
    ensures Unrecorded(c, x, w.db, r) && E.LocksExclusive(x, w.cluster.workers)
  {
    ReachableInv(c, x, w);
    assert L.RunInv(c, w.db, r);
    assert Placed(x, w.db, w.cluster.workers[k]);
  }

  /** An orphan about to create for an unrecorded run can be overtaken: another worker records a Job, and the orphan still attempts. */
  lemma OrphanIsOvertaken(c: L.Config, x: E.Setup, w: World, k: int, r: L.RunId) returns (w': World, u: string)
    requires Reachable(c, x, w) && k in w.cluster.workers && Orphan(w.cluster.workers[k], r)
    requires r in w.db.runs && w.db.runs[r].status == L.Running && w.db.runs[r].jobUid == None
    ensures Leads(c, x, w, w') && k in w'.cluster.workers && w'.cluster.workers[k] == w.cluster.workers[k]
    ensures r in w'.db.runs && w'.db.runs[r].jobUid == Some(u) && u in w'.cluster.created && w'.cluster.created[u].run == r
    ensures Enabled(c, x, w', InCluster(E.CreateFails(k)))
  {
    OrphanIsReady(c, x, w, k, r);
    var w1 := LockGetsFree(c, x, w, r, k);
    var w2 := NameGetsFree(c, x, w1, r, k);
    var j := FreshId(w2.cluster.workers.Keys);
    u := FreshUid(w2.cluster.created.Keys);
    AnotherRecords(c, x, w2, r, j, u);
    w' := Created(x, w2, r, u, EntryOf(w2.db, r)).(db := Recorded(w2.db, r, u));
    LeadsThrough(c, x, w, w1, w2);
    LeadsThrough(c, x, w, w2, w');
  }

  /** While nothing changes for worker `k`, nobody records a Job for its run. */
  ghost predicate SafeToCreate(c: L.Config, x: E.Setup, w: World, k: int, r: L.RunId)
    requires k in w.cluster.workers
  {
    forall w' :: Leads(c, x, w, w') && k in w'.cluster.workers && w'.cluster.workers[k] == w.cluster.workers[k] && r in w'.db.runs ==>
      w'.db.runs[r].jobUid == None
  }

  /** A worker about to create for an unrecorded running run is safe from a recorded Job exactly if its connection is up. */
  lemma SafeExactlyIfConnected(c: L.Config, x: E.Setup, w: World, k: int, r: L.RunId)
    requires Reachable(c, x, w) && k in w.cluster.workers && w.cluster.workers[k].stage.Absent? && w.cluster.workers[k].run == r
    requires r in w.db.runs && w.db.runs[r].status == L.Running && w.db.runs[r].jobUid == None
    ensures w.cluster.workers[k].attached <==> SafeToCreate(c, x, w, k, r)
  {
    if w.cluster.workers[k].attached {
      forall w' | Leads(c, x, w, w') && k in w'.cluster.workers && w'.cluster.workers[k] == w.cluster.workers[k] && r in w'.db.runs
        ensures w'.db.runs[r].jobUid == None
      {
        ReachableOn(c, x, w, w');
        ReachableInv(c, x, w');
        E.AttachedNeverRecreates(x, w'.db, w'.cluster, k);
      }
    } else {
      var w', u := OrphanIsOvertaken(c, x, w, k, r);
      assert w'.db.runs[r].jobUid != None;
    }
  }

  // ---- It does happen ----

  const BUS0 := T.Bus(map[], [], map[], {}, {}, map[], map[])
  const KUBE0 := E.Cluster(map[], map[], {}, {}, map[])

  function Released(e: Invocation): L.Db { L.EMPTY.(releases := map[0 := L.Release("", "", map["" := e])]) }

  function RowAt(c: L.Config, x: E.Setup, e: Invocation, rank: int): L.Run {
    L.Run(0, None, "", c.fingerprint("", "", e, ""), 0, if rank < 2 then L.Queued else L.Running,
          if rank < 1 then None else Some(0), if rank < 2 then None else Some(0), None, None,
          if rank < 2 then None else Some(x.namespace), None)
  }

  /** The database after submission, acceptance and claim, as `rank` goes from 0 to 2. */
  function DbAt(c: L.Config, x: E.Setup, e: Invocation, rank: int): L.Db {
    Released(e).(runs := map[0 := RowAt(c, x, e, rank)], outbox := [L.Event(0, L.Requested)],
                 promised := if rank < 1 then map[] else map[0 := e])
  }

  lemma Registers(c: L.Config, x: E.Setup, e: Invocation)
    ensures Reachable(c, x, World(Released(e), BUS0, KUBE0))
  {
    var w := World(L.EMPTY, BUS0, KUBE0);
    var act := Transact(L.Register(0, "", "", map["" := e]));
    LeadsNowhere(c, x, w);
    LeadsOn(c, x, w, w, act);
    assert Next(c, x, w, act) == World(Released(e), BUS0, KUBE0);
    assert Start(w);
  }

  lemma Submits(c: L.Config, x: E.Setup, e: Invocation)
    ensures Leads(c, x, World(Released(e), BUS0, KUBE0), World(DbAt(c, x, e, 0), BUS0, KUBE0))
  {
    var w := World(Released(e), BUS0, KUBE0);
    var act := Transact(L.Submit(0, 0, None, "", c.fingerprint("", "", e, ""), 0, None));
    LeadsNowhere(c, x, w);
    LeadsOn(c, x, w, w, act);
    assert Next(c, x, w, act) == World(DbAt(c, x, e, 0), BUS0, KUBE0);
  }

  lemma Accepts(c: L.Config, x: E.Setup, e: Invocation)
    ensures Leads(c, x, World(DbAt(c, x, e, 0), BUS0, KUBE0), World(DbAt(c, x, e, 1), BUS0, KUBE0))
  {
    var w := World(DbAt(c, x, e, 0), BUS0, KUBE0);
    LeadsNowhere(c, x, w);
    LeadsOn(c, x, w, w, Transact(L.Accept(0, 0)));
    assert Next(c, x, w, Transact(L.Accept(0, 0))) == World(DbAt(c, x, e, 1), BUS0, KUBE0);
  }

  lemma Claims(c: L.Config, x: E.Setup, e: Invocation)
    requires c.capacity >= 1
    ensures Leads(c, x, World(DbAt(c, x, e, 1), BUS0, KUBE0), World(DbAt(c, x, e, 2), BUS0, KUBE0))
  {
    var w := World(DbAt(c, x, e, 1), BUS0, KUBE0);
    var act := Transact(L.Claim(0, x.namespace, 0));
    assert L.RunningRuns(w.db) == {};
    LeadsNowhere(c, x, w);
    LeadsOn(c, x, w, w, act);
    assert Next(c, x, w, act) == World(DbAt(c, x, e, 2), BUS0, KUBE0);
  }

  lemma Claimed(c: L.Config, x: E.Setup, e: Invocation)
    requires c.capacity >= 1
    ensures Reachable(c, x, World(DbAt(c, x, e, 2), BUS0, KUBE0))
  {
    Registers(c, x, e);
    Submits(c, x, e);
    ReachableOn(c, x, World(Released(e), BUS0, KUBE0), World(DbAt(c, x, e, 0), BUS0, KUBE0));
    Accepts(c, x, e);
    ReachableOn(c, x, World(DbAt(c, x, e, 0), BUS0, KUBE0), World(DbAt(c, x, e, 1), BUS0, KUBE0));
    Claims(c, x, e);
    ReachableOn(c, x, World(DbAt(c, x, e, 1), BUS0, KUBE0), World(DbAt(c, x, e, 2), BUS0, KUBE0));
  }

  /** A worker is cut off just before it creates. */
  lemma Orphaned(c: L.Config, x: E.Setup, e: Invocation) returns (w: World)
    requires c.capacity >= 1
    ensures Reachable(c, x, w) && w.db == DbAt(c, x, e, 2) && 0 in w.cluster.workers && Orphan(w.cluster.workers[0], 0)
  {
    Claimed(c, x, e);
    var claimed := World(DbAt(c, x, e, 2), BUS0, KUBE0);
    var ready := With(claimed, 0, E.Worker(0, true, E.Absent(WorkFor(x, e))));
    Approaches(c, x, claimed, 0, 0);
    ReachableOn(c, x, claimed, ready);
    LeadsNowhere(c, x, ready);
    LeadsOn(c, x, ready, ready, InCluster(E.Detach(0)));
    w := Next(c, x, ready, InCluster(E.Detach(0)));
    ReachableOn(c, x, ready, w);
  }

  /** Two Jobs were created for the run; the first is recorded, the second is alive. */
  ghost predicate CreatedTwice(w: World, r: L.RunId, u: string, v: string) {
    && u != v && r in w.db.runs && w.db.runs[r].jobUid == Some(u) && r in w.cluster.jobs && w.cluster.jobs[r].uid == v
    && u in w.cluster.created && w.cluster.created[u].run == r && v in w.cluster.created && w.cluster.created[v].run == r
  }

  /** Whatever the configuration, a run with a recorded Job can get a second one from an orphan. */
  lemma OrphanRecreates(c: L.Config, x: E.Setup, e: Invocation) returns (w: World, u: string, v: string)
    requires c.capacity >= 1
    ensures Reachable(c, x, w) && CreatedTwice(w, 0, u, v)
  {
    var w0 := Orphaned(c, x, e);
    var w1;
    w1, u := OrphanIsOvertaken(c, x, w0, 0, 0);
    ReachableOn(c, x, w0, w1);
    var w2 := NameGetsFree(c, x, w1, 0, 0);
    ReachableOn(c, x, w1, w2);
    v := FreshUid(w2.cluster.created.Keys);
    var act := InCluster(E.Create(0, v, x.render("", "", e, "", 0), true));
    LeadsNowhere(c, x, w2);
    LeadsOn(c, x, w2, w2, act);
    w := Next(c, x, w2, act);
    ReachableOn(c, x, w2, w);
  }
}

/**
 * The whole pipeline as one state: the database, the message bus and the cluster. A step is a
 * transaction of submitters, registrars, acceptors or dispatchers, a step of the transport, or a step of a
 * reconciling worker or of the cluster itself; faults are steps like any other.
 */
module System {
  import opened Basics
  import L = Ledger
  import T = Transport
  import E = Execution

  datatype World = World(db: L.Db, bus: T.Bus, cluster: E.Cluster)

  datatype Act = Transact(op: L.Op) | OnBus(act: T.Act) | InCluster(task: E.Act)

  /** Rejections and publication marks are written by the transport only, outcomes by workers only. */
  predicate ByOthers(op: L.Op) { op.AddUser? || op.Register? || op.Submit? || op.Accept? || op.Claim? }

  ghost predicate Enabled(c: L.Config, x: E.Setup, w: World, act: Act) {
    match act
    case Transact(op) => ByOthers(op) && L.Commits(c, w.db, op)
    case OnBus(a) => T.Enabled(w.db, w.bus, a)
    case InCluster(a) => E.Enabled(x, w.db, w.cluster, a)
  }

  /** The database after a transaction; one that cannot commit would change nothing. */
  ghost function After(c: L.Config, db: L.Db, op: Option<L.Op>): L.Db {
    if op.Some? && L.Commits(c, db, op.value) then L.Apply(c, db, op.value) else db
  }

  ghost function Op(c: L.Config, x: E.Setup, w: World, act: Act): Option<L.Op>
    requires Enabled(c, x, w, act)
  {
    match act
    case Transact(op) => Some(op)
    case OnBus(a) => T.DbOp(w.db, w.bus, a)
    case InCluster(a) => E.DbOp(x, w.db, w.cluster, a)
  }

  ghost function Next(c: L.Config, x: E.Setup, w: World, act: Act): World
    requires Enabled(c, x, w, act)
  {
    World(After(c, w.db, Op(c, x, w, act)),
          if act.OnBus? then T.NextBus(w.db, w.bus, act.act) else w.bus,
          if act.InCluster? then E.NextCluster(c, x, w.db, w.cluster, act.task) else w.cluster)
  }

  ghost predicate Inv(c: L.Config, x: E.Setup, w: World) {
    L.Inv(c, w.db) && T.BusInv(w.db, w.bus) && E.ClusterInv(x, w.db, w.cluster)
  }

  /** Nothing has happened yet: empty tables, empty partitions, no Jobs, no processes. */
  predicate Start(w: World) {
    && w.db == L.EMPTY
    && w.cluster == E.Cluster(map[], map[], {}, {}, map[])
    && w.bus.eventsTopic == [] && w.bus.handed == {} && w.bus.acked == {}
    && w.bus.publishers == map[] && w.bus.consumers == map[]
    && w.bus.committed.Keys == w.bus.topic.Keys
    && (forall p :: p in w.bus.topic ==> w.bus.topic[p] == [] && w.bus.committed[p] == 0)
  }

  lemma StartInv(c: L.Config, x: E.Setup, w: World)
    requires Start(w)
    ensures Inv(c, x, w)
  {
    L.EmptyInv(c);
  }

  /** The transaction of a step always commits, in an orderly place. */
  lemma TransactionsCommit(c: L.Config, x: E.Setup, w: World, act: Act)
    requires Inv(c, x, w) && Enabled(c, x, w, act)
    ensures Op(c, x, w, act).Some? ==> L.Commits(c, w.db, Op(c, x, w, act).value) && L.Orderly(w.db, Op(c, x, w, act).value)
  {
    match act {
      case Transact(_) =>
      case OnBus(a) =>
        if a.CommitBatch? { T.CommitBatchKeeps(c, w.db, w.bus, a); }
        else if a.Consume? { T.ConsumeKeeps(c, w.db, w.bus, a); }
        else if a.RecordRejection? { T.RecordRejectionKeeps(c, w.db, w.bus, a); }
      case InCluster(a) =>
        if a.RecordUid? { E.RecordIsSave(c, x, w.db, w.cluster, a); }
        else if a.End? { E.EndIsFinish(c, x, w.db, w.cluster, a); }
    }
  }

  lemma BusStep(c: L.Config, w: World, a: T.Act)
    requires L.Inv(c, w.db) && T.BusInv(w.db, w.bus) && T.Enabled(w.db, w.bus, a)
    ensures T.BusInv(After(c, w.db, T.DbOp(w.db, w.bus, a)), T.NextBus(w.db, w.bus, a))
  {
    match a {
      case ClaimBatch(_, _) => T.ClaimBatchKeeps(w.db, w.bus, a);
      case Produce(_, _, _, _) => T.ProduceKeeps(w.db, w.bus, a);
      case CommitBatch(_) => T.CommitBatchKeeps(c, w.db, w.bus, a);
      case Abandon(k) => T.ReleaseKeeps(w.db, w.bus, k);
      case LateDelivery(e, p) => T.DeliverKeeps(w.db, w.bus, e, p);
      case ForeignRecord(p, request) => T.AppendKeeps(w.db, w.bus, p, T.Record(None, request));
      case Open(_) => T.MoveConsumerKeeps(w.db, w.bus, a);
      case Rebalance(_, _) => T.MoveConsumerKeeps(w.db, w.bus, a);
      case Poll(_, _) => T.MoveConsumerKeeps(w.db, w.bus, a);
      case Consume(_, _) => T.ConsumeKeeps(c, w.db, w.bus, a);
      case RecordRejection(_) => T.RecordRejectionKeeps(c, w.db, w.bus, a);
      case CommitOffset(_) => T.CommitOffsetKeeps(w.db, w.bus, a);
      case Close(_) => T.MoveConsumerKeeps(w.db, w.bus, a);
    }
  }

  lemma ClusterStep(c: L.Config, x: E.Setup, w: World, a: E.Act)
    requires L.Inv(c, w.db) && E.ClusterInv(x, w.db, w.cluster) && E.Enabled(x, w.db, w.cluster, a)
    ensures E.ClusterInv(x, After(c, w.db, E.DbOp(x, w.db, w.cluster, a)), E.NextCluster(c, x, w.db, w.cluster, a))
  {
    if a.RecordUid? {
      E.RecordUidKeeps(c, x, w.db, w.cluster, a);
    } else if a.End? {
      E.EndKeeps(c, x, w.db, w.cluster, a);
    } else {
      QuietClusterStep(c, x, w, a);
    }
  }

  /** The steps of workers and cluster that write nothing to the database. */
  lemma QuietClusterStep(c: L.Config, x: E.Setup, w: World, a: E.Act)
    requires L.Inv(c, w.db) && E.ClusterInv(x, w.db, w.cluster) && E.Enabled(x, w.db, w.cluster, a) && !a.RecordUid? && !a.End?
    ensures E.ClusterInv(x, w.db, E.NextCluster(c, x, w.db, w.cluster, a))
  {
    match a {
      case Lock(_, _) => E.LockKeeps(c, x, w.db, w.cluster, a);
      case Load(_) => E.LoadKeeps(c, x, w.db, w.cluster, a);
      case Look(_) => E.LookKeeps(c, x, w.db, w.cluster, a);
      case Create(_, _, _, _) => E.CreateKeeps(c, x, w.db, w.cluster, a);
      case CreateFails(_) => E.RetryKeeps(c, x, w.db, w.cluster, a);
      case LookAgain(_) => E.RetryKeeps(c, x, w.db, w.cluster, a);
      case Verify(_) => E.VerifyKeeps(c, x, w.db, w.cluster, a);
      case List(_, _) => E.ListKeeps(c, x, w.db, w.cluster, a);
      case Detach(_) => E.LockKeeps(c, x, w.db, w.cluster, a);
      case Leave(k) => E.GoneKeeps(x, w.db, w.cluster, k);
      case JobDeleted(_) => E.ClusterMovesKeep(c, x, w.db, w.cluster, a);
      case ForeignJob(r, uid, stored) => E.WithJobKeeps(x, w.db, w.cluster, r, uid, stored);
      case JobMoves(_, _) => E.ClusterMovesKeep(c, x, w.db, w.cluster, a);
    }
  }

  /** Every step of anyone, faults included, keeps the three invariants together. */
  lemma StepInv(c: L.Config, x: E.Setup, w: World, act: Act)
    requires Inv(c, x, w) && Enabled(c, x, w, act)
    ensures Inv(c, x, Next(c, x, w, act))
    ensures L.Later(w.db, Next(c, x, w, act).db)
  {
    var op := Op(c, x, w, act);
    var db' := After(c, w.db, op);
    TransactionsCommit(c, x, w, act);
    if op.Some? {
      L.StepInv(c, w.db, op.value);
      L.StepMovesForward(c, w.db, op.value);
    } else {
      L.LaterReflexive(w.db);
    }
    BusUnmoved(c, x, w, act, db');
    ClusterUnmoved(c, x, w, act, db');
    match act {
      case Transact(_) =>
      case OnBus(a) => BusStep(c, w, a);
      case InCluster(a) => ClusterStep(c, x, w, a);
    }
  }

  /** The bus survives every transaction that is not its own. */
  lemma BusUnmoved(c: L.Config, x: E.Setup, w: World, act: Act, db': L.Db)
    requires Inv(c, x, w) && Enabled(c, x, w, act) && db' == After(c, w.db, Op(c, x, w, act)) && L.Later(w.db, db')
    ensures !act.OnBus? ==> T.BusInv(db', w.bus)
  {
    if db' != w.db && !act.OnBus? {
      NotPublishing(c, w.db, Op(c, x, w, act).value);
      T.BusKept(w.db, db', w.bus);
    }
  }

  lemma NotPublishing(c: L.Config, db: L.Db, op: L.Op)
    requires L.Commits(c, db, op) && !op.MarkPublished?
    ensures L.Apply(c, db, op).published == db.published
  {
  }

  /** The cluster survives every transaction that is not its own. */
  lemma ClusterUnmoved(c: L.Config, x: E.Setup, w: World, act: Act, db': L.Db)
    requires Inv(c, x, w) && Enabled(c, x, w, act) && db' == After(c, w.db, Op(c, x, w, act)) && L.Later(w.db, db')
    ensures !act.InCluster? ==> E.ClusterInv(x, db', w.cluster)
  {
    if db' != w.db && !act.InCluster? {
      E.OutsideIsHarmless(c, w.db, Op(c, x, w, act).value);
      E.HarmlessKeeps(x, w.db, db', w.cluster);
    }
  }

  // ---- Whole histories ----

  ghost predicate Step(c: L.Config, x: E.Setup, w: World, w': World) {
    exists act :: Enabled(c, x, w, act) && w' == Next(c, x, w, act)
  }

  ghost predicate History(c: L.Config, x: E.Setup, worlds: seq<World>) {
    && worlds != [] && Start(worlds[0])
    && forall i :: 0 <= i < |worlds| - 1 ==> StepAt(c, x, worlds, i)
  }

  ghost predicate StepAt(c: L.Config, x: E.Setup, worlds: seq<World>, i: int)
    requires 0 <= i < |worlds| - 1
  {
    Step(c, x, worlds[i], worlds[i + 1])
  }

  lemma StepKeeps(c: L.Config, x: E.Setup, w: World, w': World)
    requires Inv(c, x, w) && Step(c, x, w, w')
    ensures Inv(c, x, w') && L.Later(w.db, w'.db)
    ensures w'.db == w.db || L.Next(c, w.db, w'.db)
  {
    var act :| Enabled(c, x, w, act) && w' == Next(c, x, w, act);
    StepInv(c, x, w, act);
    TransactionsCommit(c, x, w, act);
  }

  lemma {:induction false} HistoryInv(c: L.Config, x: E.Setup, worlds: seq<World>, i: nat)
    requires History(c, x, worlds) && i < |worlds|
    ensures Inv(c, x, worlds[i])
  {
    if i == 0 {
      StartInv(c, x, worlds[0]);
    } else {
      HistoryInv(c, x, worlds, i - 1);
      assert StepAt(c, x, worlds, i - 1);
      StepKeeps(c, x, worlds[i - 1], worlds[i]);
    }
  }

  function Databases(worlds: seq<World>): seq<L.Db> { seq(|worlds|, i requires 0 <= i < |worlds| => worlds[i].db) }

  /** The database of any history is a behavior of the ledger, so all that is proved there holds here. */
  lemma HistoryIsBehavior(c: L.Config, x: E.Setup, worlds: seq<World>)
    requires History(c, x, worlds)
    ensures L.Behavior(c, Databases(worlds))
  {
    var states := Databases(worlds);
    HistoryInv(c, x, worlds, 0);
    forall i | 0 <= i < |states| - 1 ensures L.MovesAt(c, states, i) {
      HistoryInv(c, x, worlds, i);
      assert StepAt(c, x, worlds, i);
      StepKeeps(c, x, worlds[i], worlds[i + 1]);
    }
  }

  /** No request is ever lost, whatever crashes and retries happened. */
  lemma NoRequestEverLost(c: L.Config, x: E.Setup, worlds: seq<World>, i: nat, r: L.RunId)
    requires History(c, x, worlds) && i < |worlds|
    requires r in worlds[i].db.runs && !worlds[i].db.runs[r].Settled()
    ensures T.StillOnItsWay(worlds[i].db, worlds[i].bus, r)
  {
    HistoryInv(c, x, worlds, i);
    T.NoRequestLost(c, worlds[i].db, worlds[i].bus, r);
  }

  /** Offsets below a committed one are durable, and a rejection once stored is there unaltered ever after. */
  lemma OffsetsAreDurable(c: L.Config, x: E.Setup, worlds: seq<World>, i: nat, j: nat, p: int, o: int)
    requires History(c, x, worlds) && i <= j < |worlds|
    requires p in worlds[i].bus.topic && p in worlds[i].bus.committed && 0 <= o < worlds[i].bus.committed[p]
    ensures o < |worlds[i].bus.topic[p]|
    ensures var request := worlds[i].bus.topic[p][o].request;
            || (request.Names? && request.run in worlds[j].db.runs && worlds[j].db.runs[request.run].Settled())
            || L.Location(p, o) in worlds[j].db.rejections
    ensures L.Kept(worlds[i].db.rejections, worlds[j].db.rejections)
  {
    HistoryInv(c, x, worlds, i);
    HistoryIsBehavior(c, x, worlds);
    L.BehaviorLater(c, Databases(worlds), i, j);
    var at := L.Location(p, o);
    T.CommittedOffsetsResolved(worlds[i].db, worlds[i].bus, p, o);
    var record := worlds[i].bus.topic[p][o];
    T.ResolvedLater(worlds[i].db, worlds[j].db, record.(origin := None), at);
  }

  /** A published event was acknowledged and is in its topic; what a publisher holds is unpublished and held by it alone. */
  lemma OutboxConserved(c: L.Config, x: E.Setup, worlds: seq<World>, i: nat, e: int)
    requires History(c, x, worlds) && i < |worlds|
    ensures var w := worlds[i];
            && (e in w.db.published ==>
                  && 0 <= e < |w.db.outbox| && e in w.bus.acked
                  && (if w.db.outbox[e].kind == L.Requested then T.Logged(w.bus.topic, e) else e in w.bus.eventsTopic))
            && (forall p, o :: p in w.bus.topic && 0 <= o < |w.bus.topic[p]| && w.bus.topic[p][o].origin == Some(e) ==>
                  0 <= e < |w.db.outbox| && w.bus.topic[p][o].request == T.Names(w.db.outbox[e].run))
            && (forall u, v :: u in w.bus.publishers && v in w.bus.publishers
                               && e in w.bus.publishers[u].batch && e in w.bus.publishers[v].batch ==>
                  u == v && e !in w.db.published)
  {
    HistoryInv(c, x, worlds, i);
    var w := worlds[i];
    forall p, o | p in w.bus.topic && 0 <= o < |w.bus.topic[p]| && w.bus.topic[p][o].origin == Some(e)
      ensures 0 <= e < |w.db.outbox| && w.bus.topic[p][o].request == T.Names(w.db.outbox[e].run)
    {
      assert T.HonestRecord(w.db.outbox, w.bus.handed, w.bus.topic[p][o]);
    }
    forall u, v | u in w.bus.publishers && v in w.bus.publishers
                  && e in w.bus.publishers[u].batch && e in w.bus.publishers[v].batch
      ensures u == v && e !in w.db.published
    {
      assert T.PublisherOk(w.db, w.bus, w.bus.publishers[u]);
    }
  }

  /** Every succeeded run was accepted and dispatched, and rests on its recorded Job and stored outputs. */
  lemma SuccessCarriesEvidence(c: L.Config, x: E.Setup, worlds: seq<World>, i: nat, r: L.RunId)
    requires History(c, x, worlds) && i < |worlds|
    requires r in worlds[i].db.runs && worlds[i].db.runs[r].status == L.Succeeded
    ensures worlds[i].db.runs[r].Accepted() && worlds[i].db.runs[r].dispatchedAt.Some?
    ensures E.Proven(x, worlds[i].db, worlds[i].cluster, r)
  {
    HistoryInv(c, x, worlds, i);
    assert L.RunInv(c, worlds[i].db, r);
    assert E.SuccessesProven(x, worlds[i].db, worlds[i].cluster);
  }

  /** An accepted run never fails for a changed definition. */
  lemma AcceptedWorkIsFrozen(c: L.Config, x: E.Setup, worlds: seq<World>, i: nat, r: L.RunId)
    requires History(c, x, worlds) && i < |worlds|
    requires r in worlds[i].db.runs && worlds[i].db.runs[r].Accepted()
    ensures worlds[i].db.runs[r].failure != Some(L.DEFINITION_CHANGED)
    ensures worlds[i].db.runs[r].Active() ==>
              var db := worlds[i].db;
              && L.RunMatches(c, db, r) && r in db.promised
              && db.releases[db.runs[r].release].modes[db.runs[r].mode] == db.promised[r]
  {
    HistoryInv(c, x, worlds, i);
    assert L.RunInv(c, worlds[i].db, r);
  }

  /** Over a whole history a run's recorded Job never changes, and the run changes at most three times. */
  lemma RunsNeverGoBack(c: L.Config, x: E.Setup, worlds: seq<World>, i: nat, j: nat, r: L.RunId)
    requires History(c, x, worlds) && i <= j < |worlds| && r in worlds[i].db.runs
    ensures r in worlds[j].db.runs && L.RunLater(worlds[i].db.runs[r], worlds[j].db.runs[r])
    ensures L.Changes(Databases(worlds), r, |worlds| - 1) <= 3
    ensures L.EventsAgree(worlds[j].db.outbox, r, worlds[j].db.runs[r].status)
    ensures worlds[j].db.runs[r].status == L.Failed <==> worlds[j].db.runs[r].failure.Some?
  {
    RunsMoveForward(c, x, worlds, i, j, r);
    ChangesAreFew(c, x, worlds, r);
    EndsAreTold(c, x, worlds, j, r);
  }

  lemma RunsMoveForward(c: L.Config, x: E.Setup, worlds: seq<World>, i: nat, j: nat, r: L.RunId)
    requires History(c, x, worlds) && i <= j < |worlds| && r in worlds[i].db.runs
    ensures r in worlds[j].db.runs && L.RunLater(worlds[i].db.runs[r], worlds[j].db.runs[r])
  {
    HistoryIsBehavior(c, x, worlds);
    var dbs := Databases(worlds);
    L.BehaviorLater(c, dbs, i, j);
    assert dbs[i] == worlds[i].db && dbs[j] == worlds[j].db;
  }

  lemma ChangesAreFew(c: L.Config, x: E.Setup, worlds: seq<World>, r: L.RunId)
    requires History(c, x, worlds)
    ensures L.Changes(Databases(worlds), r, |worlds| - 1) <= 3
  {
    HistoryIsBehavior(c, x, worlds);
    L.AtMostThreeChanges(c, Databases(worlds), r);
  }

  lemma EndsAreTold(c: L.Config, x: E.Setup, worlds: seq<World>, i: nat, r: L.RunId)
    requires History(c, x, worlds) && i < |worlds| && r in worlds[i].db.runs
    ensures L.EventsAgree(worlds[i].db.outbox, r, worlds[i].db.runs[r].status)
    ensures worlds[i].db.runs[r].status == L.Failed <==> worlds[i].db.runs[r].failure.Some?
  {
    HistoryInv(c, x, worlds, i);
    assert L.RunInv(c, worlds[i].db, r);
  }

  /** Two Jobs created for one run that nobody deleted. */
  predicate BothLive(cl: E.Cluster, u: string, v: string) {
    u in cl.created && v in cl.created && cl.created[u].run == cl.created[v].run && u !in cl.deleted && v !in cl.deleted
  }

  /** In every reachable state only a detached worker can be about to create for a recorded Job, and a run has one live Job. */
  lemma JobIdentityHolds(c: L.Config, x: E.Setup, worlds: seq<World>, i: nat, k: int, u: string, v: string)
    requires History(c, x, worlds) && i < |worlds|
    ensures var w := worlds[i];
            && (k in w.cluster.workers && w.cluster.workers[k].attached && w.cluster.workers[k].stage.Absent? ==>
                  w.cluster.workers[k].run in w.db.runs && w.db.runs[w.cluster.workers[k].run].jobUid == None)
            && (BothLive(w.cluster, u, v) ==> u == v)
  {
    HistoryInv(c, x, worlds, i);
    var w := worlds[i];
    if k in w.cluster.workers && w.cluster.workers[k].attached && w.cluster.workers[k].stage.Absent? {
      E.AttachedNeverRecreates(x, w.db, w.cluster, k);
    }
    if BothLive(w.cluster, u, v) {
      E.OneLiveJobPerRun(x, w.db, w.cluster, u, v);
    }
  }

  /** Running runs never exceed the capacity all workers share. */
  lemma CapacityRespected(c: L.Config, x: E.Setup, worlds: seq<World>, i: nat)
    requires History(c, x, worlds) && i < |worlds|
    ensures |L.RunningRuns(worlds[i].db)| <= c.capacity
  {
    HistoryInv(c, x, worlds, i);
  }
}

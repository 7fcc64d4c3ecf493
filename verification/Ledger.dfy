/**
 * The committed database as one value, and one operation per transaction.
 * `Commits` holds what the transaction and the database constraints check themselves;
 * `Apply` is the state it leaves. Lock-level interleavings are in module Transactions.
 */
module Ledger {
  import opened Basics
  import opened Catalog

  type RunId = int
  type UserId = int
  type ReleaseId = int

  datatype Status = Queued | Running | Succeeded | Failed

  datatype Run = Run(
    release: ReleaseId, owner: Option<UserId>, mode: string, fingerprint: string, createdAt: int,
    status: Status, acceptedAt: Option<int>, dispatchedAt: Option<int>, finishedAt: Option<int>,
    failure: Option<string>, namespace: Option<string>, jobUid: Option<string>)
  {
    predicate Terminal() { status.Succeeded? || status.Failed? }
    predicate Active() { !Terminal() }
    predicate Accepted() { acceptedAt.Some? }
    /** A request for this run has nothing left to decide. */
    predicate Settled() { Accepted() || !status.Queued? }
    /** Accepted and waiting for a slot. */
    predicate Dispatchable() { status.Queued? && Accepted() }
    /** Lifecycle changes made so far: acceptance, dispatch, end. */
    function Rank(): nat {
      (if acceptedAt.Some? then 1 else 0) + (if dispatchedAt.Some? then 1 else 0) + (if Terminal() then 1 else 0)
    }
  }

  datatype Release = Release(modelId: string, imageDigest: string, modes: Modes)
  datatype EventKind = Requested | EndedWell | EndedBadly
  datatype Event = Event(run: RunId, kind: EventKind)
  datatype Artifact = Artifact(bucket: string, key: string, size: int)
  datatype Location = Location(partition: int, offset: int)
  datatype Rejection = Rejection(code: string, diagnostic: string)
  datatype Limits = Limits(perUser: nat, total: nat)

  /**
   * `outbox` only grows and an event's identifier is its index; `published` are the events with a
   * publication time. `promised` is a history variable: the mode entry each accepted run was accepted with.
   */
  datatype Db = Db(
    users: set<UserId>, releases: map<ReleaseId, Release>, runs: map<RunId, Run>,
    artifacts: map<RunId, seq<Artifact>>, outbox: seq<Event>, published: set<int>,
    rejections: map<Location, Rejection>, promised: map<RunId, Invocation>)

  /** `fingerprint` of model, image, selected invocation and mode; `capacity` is shared by all workers. */
  datatype Config = Config(fingerprint: (string, string, Invocation, string) -> string, capacity: nat)

  const EMPTY := Db({}, map[], map[], map[], [], {}, map[], map[])

  const DEFINITION_CHANGED := "execution_definition_changed"

  // ---- Reads ----

  /** `matches_fingerprint`: false when the mode is gone or its computation differs. */
  predicate Matches(c: Config, release: Release, mode: string, fingerprint: string) {
    mode in release.modes && c.fingerprint(release.modelId, release.imageDigest, release.modes[mode], mode) == fingerprint
  }

  predicate RunMatches(c: Config, db: Db, r: RunId)
    requires r in db.runs
  {
    var run := db.runs[r];
    run.release in db.releases && Matches(c, db.releases[run.release], run.mode, run.fingerprint)
  }

  function RunningRuns(db: Db): set<RunId> { set r | r in db.runs && db.runs[r].status == Running }
  function ActiveRuns(db: Db): set<RunId> { set r | r in db.runs && db.runs[r].Active() }
  function OwnedActive(db: Db, owner: Option<UserId>): set<RunId> {
    set r | r in db.runs && db.runs[r].Active() && db.runs[r].owner == owner
  }
  function ProtectedModes(db: Db, release: ReleaseId): set<string> {
    set r | r in db.runs && db.runs[r].release == release && db.runs[r].Accepted() && db.runs[r].Active()
      :: db.runs[r].mode
  }
  function Rows(db: Db, r: RunId): seq<Artifact> { if r in db.artifacts then db.artifacts[r] else [] }

  /** The order of dispatch: by creation time, then by identifier. */
  predicate NotAfter(db: Db, r: RunId, s: RunId)
    requires r in db.runs && s in db.runs
  {
    db.runs[r].createdAt < db.runs[s].createdAt || (db.runs[r].createdAt == db.runs[s].createdAt && r <= s)
  }

  /** The next run to dispatch. */
  predicate IsNext(db: Db, r: RunId) {
    && r in db.runs && db.runs[r].Dispatchable()
    && forall s :: s in db.runs && db.runs[s].Dispatchable() ==> NotAfter(db, r, s)
  }

  /** `RunAdmissionLimits.check`. */
  predicate Admits(limits: Limits, owned: nat, total: nat) { owned < limits.perUser && total < limits.total }

  /** Python truth of an optional code: an empty text counts as no failure. */
  predicate Truthy(code: Option<string>) { code.Some? && code.value != "" }

  predicate DistinctKeys(artifacts: seq<Artifact>) {
    forall i, j :: 0 <= i < j < |artifacts| ==> artifacts[i].key != artifacts[j].key
  }

  // ---- Operations ----

  datatype Op =
    | AddUser(user: UserId)
    | Register(id: ReleaseId, modelId: string, imageDigest: string, modes: Modes)
    | Submit(run: RunId, release: ReleaseId, owner: Option<UserId>, mode: string, fingerprint: string, at: int,
             limits: Option<Limits>)
    | Accept(run: RunId, at: int)
    | Reject(location: Location, rejection: Rejection)
    | Claim(run: RunId, namespace: string, at: int)
    | SaveJobUid(run: RunId, uid: string)
    | Finish(run: RunId, failure: Option<string>, artifacts: seq<Artifact>, at: int)
    | MarkPublished(events: set<int>)

  ghost predicate Commits(c: Config, db: Db, op: Op) {
    match op
    case AddUser(_) => true
    case Register(id, modelId, imageDigest, modes) =>
      if id in db.releases
      then db.releases[id].modelId == modelId && db.releases[id].imageDigest == imageDigest
           && ActiveModesUnchanged(db.releases[id].modes, modes, ProtectedModes(db, id))
      else forall i :: i in db.releases ==> !(db.releases[i].modelId == modelId && db.releases[i].imageDigest == imageDigest)
    case Submit(r, release, owner, _, _, _, limits) =>
      && r !in db.runs
      && release in db.releases
      && (owner.Some? ==> owner.value in db.users)
      && (limits.Some? ==> Admits(limits.value, |OwnedActive(db, owner)|, |ActiveRuns(db)|))
    case Accept(r, _) => r in db.runs
    case Reject(_, _) => true
    case Claim(r, _, _) =>
      && r in db.runs && db.runs[r].status == Queued && db.runs[r].Accepted()
      && |RunningRuns(db)| < c.capacity
    case SaveJobUid(r, uid) => r in db.runs && (db.runs[r].jobUid == None || db.runs[r].jobUid == Some(uid))
    case Finish(r, _, artifacts, _) => r in db.runs && DistinctKeys(Rows(db, r) + artifacts)
    case MarkPublished(events) => forall e :: e in events ==> 0 <= e < |db.outbox|
  }

  /** What only the callers guarantee: reconciliation touches runs that were dispatched, and a failure has a code. */
  predicate Orderly(db: Db, op: Op) {
    match op
    case SaveJobUid(r, _) => r in db.runs ==> db.runs[r].status != Queued
    case Finish(r, failure, _, _) => (r in db.runs ==> db.runs[r].status != Queued) && failure != Some("")
    case _ => true
  }

  /** `finish_row`: the one terminal write. */
  function FinishRow(db: Db, r: RunId, failure: Option<string>, artifacts: seq<Artifact>, at: int): Db
    requires r in db.runs
  {
    var run := db.runs[r];
    if run.Terminal() then db
    else
      var status := if Truthy(failure) then Failed else Succeeded;
      db.(runs := db.runs[r := run.(status := status, failure := failure, finishedAt := Some(at))],
          artifacts := db.artifacts[r := Rows(db, r) + artifacts],
          outbox := db.outbox + [Event(r, if status == Failed then EndedBadly else EndedWell)])
  }

  function AcceptRun(c: Config, db: Db, r: RunId, at: int): Db
    requires r in db.runs
  {
    var run := db.runs[r];
    if run.Settled() then db
    else if RunMatches(c, db, r) then
      db.(runs := db.runs[r := run.(acceptedAt := Some(at))],
          promised := db.promised[r := db.releases[run.release].modes[run.mode]])
    else FinishRow(db, r, Some(DEFINITION_CHANGED), [], at)
  }

  function ClaimRun(c: Config, db: Db, r: RunId, namespace: string, at: int): Db
    requires r in db.runs
  {
    if RunMatches(c, db, r)
    then db.(runs := db.runs[r := db.runs[r].(status := Running, dispatchedAt := Some(at), namespace := Some(namespace))])
    else FinishRow(db, r, Some(DEFINITION_CHANGED), [], at)
  }

  function SubmitRun(db: Db, r: RunId, release: ReleaseId, owner: Option<UserId>, mode: string, fingerprint: string, at: int): Db {
    db.(runs := db.runs[r := Run(release, owner, mode, fingerprint, at, Queued, None, None, None, None, None, None)],
        outbox := db.outbox + [Event(r, Requested)])
  }

  function Apply(c: Config, db: Db, op: Op): Db
    requires Commits(c, db, op)
  {
    match op
    case AddUser(u) => db.(users := db.users + {u})
    case Register(id, modelId, imageDigest, modes) =>
      db.(releases := db.releases[id := Release(modelId, imageDigest, modes)])
    case Submit(r, release, owner, mode, fingerprint, at, _) => SubmitRun(db, r, release, owner, mode, fingerprint, at)
    case Accept(r, at) => AcceptRun(c, db, r, at)
    case Reject(location, rejection) =>
      if location in db.rejections then db else db.(rejections := db.rejections[location := rejection])
    case Claim(r, namespace, at) => ClaimRun(c, db, r, namespace, at)
    case SaveJobUid(r, uid) =>
      if db.runs[r].status == Running then db.(runs := db.runs[r := db.runs[r].(jobUid := Some(uid))]) else db
    case Finish(r, failure, artifacts, at) => FinishRow(db, r, failure, artifacts, at)
    case MarkPublished(events) => db.(published := db.published + events)
  }

  // ---- What every operation keeps ----

  /** The columns of one run agree with its status. */
  predicate Coherent(run: Run) {
    && (run.status == Queued ==> run.dispatchedAt == None && run.jobUid == None && run.namespace == None)
    && (run.status == Running ==> run.Accepted() && run.dispatchedAt.Some? && run.namespace.Some?)
    && (run.status == Succeeded ==> run.Accepted() && run.dispatchedAt.Some?)
    && (run.dispatchedAt.Some? ==> run.Accepted())
    && (run.Terminal() <==> run.finishedAt.Some?)
    && (run.status == Failed <==> run.failure.Some?)
  }

  function Occurrences(outbox: seq<Event>, r: RunId, kind: EventKind): nat { multiset(outbox)[Event(r, kind)] }

  /** One request event, and one terminal event naming the status exactly when the run has ended. */
  predicate EventsAgree(outbox: seq<Event>, r: RunId, status: Status) {
    && Occurrences(outbox, r, Requested) == 1
    && Occurrences(outbox, r, EndedWell) == (if status == Succeeded then 1 else 0)
    && Occurrences(outbox, r, EndedBadly) == (if status == Failed then 1 else 0)
  }

  /** An accepted unfinished run still finds the entry it was accepted with, under its own fingerprint. */
  predicate Frozen(c: Config, releases: map<ReleaseId, Release>, run: Run, promised: Option<Invocation>) {
    && (run.Accepted() <==> promised.Some?)
    && run.release in releases
    && (run.Accepted() && run.Active() ==>
          && Matches(c, releases[run.release], run.mode, run.fingerprint)
          && promised.value == releases[run.release].modes[run.mode])
  }

  ghost predicate RunsInv(c: Config, db: Db) {
    forall r :: r in db.runs ==> RunInv(c, db, r)
  }

  predicate RunInv(c: Config, db: Db, r: RunId)
    requires r in db.runs
  {
    && Coherent(db.runs[r])
    && EventsAgree(db.outbox, r, db.runs[r].status)
    && Frozen(c, db.releases, db.runs[r], Get(db.promised, r))
    && (db.runs[r].Active() ==> Rows(db, r) == [])
  }

  ghost predicate EventsKnown(outbox: seq<Event>, runs: set<RunId>) { forall e :: e in outbox ==> e.run in runs }

  ghost predicate UniqueReleases(releases: map<ReleaseId, Release>) {
    forall i, j :: i in releases && j in releases && i != j ==>
      !(releases[i].modelId == releases[j].modelId && releases[i].imageDigest == releases[j].imageDigest)
  }

  ghost predicate Inv(c: Config, db: Db) {
    && RunsInv(c, db)
    && EventsKnown(db.outbox, db.runs.Keys)
    && db.promised.Keys <= db.runs.Keys && db.artifacts.Keys <= db.runs.Keys
    && (forall e :: e in db.published ==> 0 <= e < |db.outbox|)
    && UniqueReleases(db.releases)
    && |RunningRuns(db)| <= c.capacity
  }

  lemma EmptyInv(c: Config)
    ensures Inv(c, EMPTY)
  {
    assert RunningRuns(EMPTY) == {};
  }

  lemma OutboxGrows(outbox: seq<Event>, e: Event, r: RunId, kind: EventKind)
    ensures Occurrences(outbox + [e], r, kind) == Occurrences(outbox, r, kind) + (if e == Event(r, kind) then 1 else 0)
  {
  }

  lemma EventsFrame(outbox: seq<Event>, e: Event, r: RunId, status: Status)
    requires EventsAgree(outbox, r, status) && e.run != r
    ensures EventsAgree(outbox + [e], r, status)
  {
    OutboxGrows(outbox, e, r, Requested);
    OutboxGrows(outbox, e, r, EndedWell);
    OutboxGrows(outbox, e, r, EndedBadly);
  }

  lemma EventsEnd(outbox: seq<Event>, r: RunId, from: Status, status: Status)
    requires EventsAgree(outbox, r, from) && (from == Queued || from == Running) && (status == Succeeded || status == Failed)
    ensures EventsAgree(outbox + [Event(r, if status == Failed then EndedBadly else EndedWell)], r, status)
  {
    var e := Event(r, if status == Failed then EndedBadly else EndedWell);
    OutboxGrows(outbox, e, r, Requested);
    OutboxGrows(outbox, e, r, EndedWell);
    OutboxGrows(outbox, e, r, EndedBadly);
  }

  lemma EventsBegin(outbox: seq<Event>, runs: set<RunId>, r: RunId)
    requires EventsKnown(outbox, runs) && r !in runs
    ensures EventsAgree(outbox + [Event(r, Requested)], r, Queued)
  {
    var e := Event(r, Requested);
    assert forall kind :: Event(r, kind) !in outbox;
    OutboxGrows(outbox, e, r, Requested);
    OutboxGrows(outbox, e, r, EndedWell);
    OutboxGrows(outbox, e, r, EndedBadly);
  }

  /** An operation on `r` alone, adding at most one event of `r`, leaves every other run as it was. */
  lemma OthersKept(c: Config, db: Db, db': Db, r: RunId)
    requires RunsInv(c, db)
    requires db'.releases == db.releases && db'.runs.Keys <= db.runs.Keys + {r}
    requires db'.outbox == db.outbox || exists kind :: db'.outbox == db.outbox + [Event(r, kind)]
    requires forall s :: s in db'.runs && s != r ==>
               db'.runs[s] == db.runs[s] && Get(db'.promised, s) == Get(db.promised, s) && Rows(db', s) == Rows(db, s)
    requires r in db'.runs ==> RunInv(c, db', r)
    ensures RunsInv(c, db')
  {
    forall s | s in db'.runs && s != r ensures RunInv(c, db', s) {
      assert RunInv(c, db, s);
      if db'.outbox != db.outbox {
        var kind :| db'.outbox == db.outbox + [Event(r, kind)];
        EventsFrame(db.outbox, Event(r, kind), s, db.runs[s].status);
      }
    }
  }

  lemma FinishRowInv(c: Config, db: Db, r: RunId, failure: Option<string>, artifacts: seq<Artifact>, at: int)
    requires Inv(c, db) && r in db.runs
    requires failure != Some("") && (failure.Some? || db.runs[r].status != Queued)
    ensures Inv(c, FinishRow(db, r, failure, artifacts, at))
  {
    var db' := FinishRow(db, r, failure, artifacts, at);
    if db.runs[r].Active() {
      FinishedRun(c, db, r, failure, artifacts, at);
      OthersKept(c, db, db', r);
      FewerRunning(db, db', r);
    }
  }

  lemma FinishedRun(c: Config, db: Db, r: RunId, failure: Option<string>, artifacts: seq<Artifact>, at: int)
    requires r in db.runs && RunInv(c, db, r) && db.runs[r].Active()
    requires failure != Some("") && (failure.Some? || db.runs[r].status != Queued)
    ensures RunInv(c, FinishRow(db, r, failure, artifacts, at), r)
  {
    EventsEnd(db.outbox, r, db.runs[r].status, if Truthy(failure) then Failed else Succeeded);
  }

  lemma FewerRunning(db: Db, db': Db, r: RunId)
    requires r in db.runs && db'.runs.Keys == db.runs.Keys
    requires forall s :: s in db.runs && s != r ==> db'.runs[s] == db.runs[s]
    requires db'.runs[r].status == Running ==> db.runs[r].status == Running
    ensures |RunningRuns(db')| <= |RunningRuns(db)|
  {
    forall s | s in RunningRuns(db') ensures s in RunningRuns(db) {
      assert s in db.runs.Keys;
    }
    SubsetSize(RunningRuns(db'), RunningRuns(db));
  }

  lemma SubsetSize<T>(a: set<T>, b: set<T>)
    requires a <= b
    ensures |a| <= |b|
  {
    if a != {} {
      var x :| x in a;
      SubsetSize(a - {x}, b - {x});
    }
  }

  lemma AcceptInv(c: Config, db: Db, r: RunId, at: int)
    requires Inv(c, db) && r in db.runs
    ensures Inv(c, AcceptRun(c, db, r, at))
  {
    assert RunInv(c, db, r);
    if !db.runs[r].Settled() {
      if RunMatches(c, db, r) {
        var db' := AcceptRun(c, db, r, at);
        OthersKept(c, db, db', r);
        FewerRunning(db, db', r);
      } else {
        FinishRowInv(c, db, r, Some(DEFINITION_CHANGED), [], at);
      }
    }
  }

  /** The fingerprint recheck never fails for an accepted run, so a claim always starts its run. */
  lemma ClaimAlwaysStarts(c: Config, db: Db, r: RunId, namespace: string, at: int)
    requires Inv(c, db) && Commits(c, db, Claim(r, namespace, at))
    ensures RunMatches(c, db, r) && ClaimRun(c, db, r, namespace, at).runs[r].status == Running
    ensures Inv(c, ClaimRun(c, db, r, namespace, at))
  {
    var db' := ClaimRun(c, db, r, namespace, at);
    assert RunInv(c, db, r);
    OthersKept(c, db, db', r);
    assert RunningRuns(db') == RunningRuns(db) + {r};
  }

  lemma SubmitInv(c: Config, db: Db, op: Op)
    requires Inv(c, db) && op.Submit? && Commits(c, db, op)
    ensures Inv(c, Apply(c, db, op))
  {
    var db' := Apply(c, db, op);
    EventsBegin(db.outbox, db.runs.Keys, op.run);
    OthersKept(c, db, db', op.run);
    assert RunningRuns(db') == RunningRuns(db);
  }

  lemma RegisterInv(c: Config, db: Db, op: Op)
    requires Inv(c, db) && op.Register? && Commits(c, db, op)
    ensures Inv(c, Apply(c, db, op))
  {
    var db' := Apply(c, db, op);
    forall s | s in db'.runs ensures RunInv(c, db', s) {
      assert RunInv(c, db, s);
      var run := db.runs[s];
      if run.release == op.id && run.Accepted() && run.Active() {
        assert run.mode in ProtectedModes(db, op.id);
        assert Get(db.releases[op.id].modes, run.mode) == Get(op.modes, run.mode);
      }
    }
    assert RunningRuns(db') == RunningRuns(db);
  }

  lemma SaveJobUidInv(c: Config, db: Db, r: RunId, uid: string)
    requires Inv(c, db) && Commits(c, db, SaveJobUid(r, uid)) && Orderly(db, SaveJobUid(r, uid))
    ensures Inv(c, Apply(c, db, SaveJobUid(r, uid)))
  {
    var db' := Apply(c, db, SaveJobUid(r, uid));
    assert RunInv(c, db, r);
    OthersKept(c, db, db', r);
    FewerRunning(db, db', r);
  }

  lemma SideTablesInv(c: Config, db: Db, op: Op)
    requires Inv(c, db) && (op.AddUser? || op.Reject? || op.MarkPublished?) && Commits(c, db, op)
    ensures Inv(c, Apply(c, db, op))
  {
    var db' := Apply(c, db, op);
    forall s | s in db'.runs ensures RunInv(c, db', s) {
      assert RunInv(c, db, s);
    }
    assert RunningRuns(db') == RunningRuns(db);
  }

  /** Every committed operation keeps the invariant. */
  lemma StepInv(c: Config, db: Db, op: Op)
    requires Inv(c, db) && Commits(c, db, op) && Orderly(db, op)
    ensures Inv(c, Apply(c, db, op))
  {
    match op {
      case Register(_, _, _, _) => RegisterInv(c, db, op);
      case Submit(_, _, _, _, _, _, _) => SubmitInv(c, db, op);
      case Accept(r, at) => AcceptInv(c, db, r, at);
      case Claim(r, namespace, at) => ClaimAlwaysStarts(c, db, r, namespace, at);
      case SaveJobUid(r, uid) => SaveJobUidInv(c, db, r, uid);
      case Finish(r, failure, artifacts, at) => FinishRowInv(c, db, r, failure, artifacts, at);
      case AddUser(_) => SideTablesInv(c, db, op);
      case Reject(_, _) => SideTablesInv(c, db, op);
      case MarkPublished(_) => SideTablesInv(c, db, op);
    }
  }

  // ---- How far one step can move ----

  /** What later states keep of earlier ones. */
  ghost predicate Later(db: Db, db': Db) {
    && db.outbox <= db'.outbox
    && db.published <= db'.published
    && Kept(db.rejections, db'.rejections)
    && Kept(db.promised, db'.promised)
    && ReleasesLater(db.releases, db'.releases)
    && RunsLater(db, db')
  }

  ghost predicate Kept<K, V>(m: map<K, V>, m': map<K, V>) { forall k :: k in m ==> k in m' && m'[k] == m[k] }

  ghost predicate ReleasesLater(m: map<ReleaseId, Release>, m': map<ReleaseId, Release>) {
    forall i :: i in m ==> i in m' && m'[i].modelId == m[i].modelId && m'[i].imageDigest == m[i].imageDigest
  }

  ghost predicate RunsLater(db: Db, db': Db) {
    forall r :: r in db.runs ==>
      r in db'.runs && RunLater(db.runs[r], db'.runs[r]) && (db.runs[r].Terminal() ==> Rows(db', r) == Rows(db, r))
  }

  /** Status moves forward only; recorded columns keep their values; an ended run never changes. */
  predicate RunLater(a: Run, b: Run) {
    && a.release == b.release && a.owner == b.owner && a.mode == b.mode
    && a.fingerprint == b.fingerprint && a.createdAt == b.createdAt
    && (a.Terminal() ==> a == b)
    && (a.status == Running ==> b.status != Queued)
    && (a.acceptedAt.Some? ==> b.acceptedAt == a.acceptedAt)
    && (a.dispatchedAt.Some? ==> b.dispatchedAt == a.dispatchedAt && b.namespace == a.namespace)
    && (a.jobUid.Some? ==> b.jobUid == a.jobUid)
    && a.Rank() <= b.Rank()
    && ((a.status, a.acceptedAt) != (b.status, b.acceptedAt) ==> a.Rank() < b.Rank())
  }

  lemma OneRunLater(db: Db, db': Db, r: RunId)
    requires r in db.runs && r in db'.runs && RunLater(db.runs[r], db'.runs[r])
    requires db.runs[r].Terminal() ==> Rows(db', r) == Rows(db, r)
    requires forall s :: s in db.runs && s != r ==>
               s in db'.runs && db'.runs[s] == db.runs[s] && Rows(db', s) == Rows(db, s)
    ensures RunsLater(db, db')
  {
  }

  lemma FinishMovesForward(db: Db, r: RunId, failure: Option<string>, artifacts: seq<Artifact>, at: int)
    requires r in db.runs
    ensures Later(db, FinishRow(db, r, failure, artifacts, at))
  {
    OneRunLater(db, FinishRow(db, r, failure, artifacts, at), r);
  }

  lemma StepMovesForward(c: Config, db: Db, op: Op)
    requires Inv(c, db) && Commits(c, db, op) && Orderly(db, op)
    ensures Later(db, Apply(c, db, op))
  {
    match op {
      case Register(_, _, _, _) => RegisterMovesForward(c, db, op);
      case Submit(r, _, _, _, _, _, _) => SubmitMovesForward(c, db, op);
      case Accept(r, at) => AcceptMovesForward(c, db, r, at);
      case Claim(r, namespace, at) => ClaimMovesForward(c, db, op);
      case SaveJobUid(r, uid) => SaveMovesForward(c, db, op);
      case Finish(r, failure, artifacts, at) => FinishMovesForward(db, r, failure, artifacts, at);
      case AddUser(_) => SideTablesMoveForward(c, db, op);
      case Reject(_, _) => SideTablesMoveForward(c, db, op);
      case MarkPublished(_) => SideTablesMoveForward(c, db, op);
    }
  }

  lemma RegisterMovesForward(c: Config, db: Db, op: Op)
    requires op.Register? && Commits(c, db, op)
    ensures Later(db, Apply(c, db, op))
  {
  }

  lemma SubmitMovesForward(c: Config, db: Db, op: Op)
    requires op.Submit? && Commits(c, db, op)
    ensures Later(db, Apply(c, db, op))
  {
  }

  lemma SaveMovesForward(c: Config, db: Db, op: Op)
    requires op.SaveJobUid? && Commits(c, db, op)
    ensures Later(db, Apply(c, db, op))
  {
    OneRunLater(db, Apply(c, db, op), op.run);
  }

  lemma SideTablesMoveForward(c: Config, db: Db, op: Op)
    requires (op.AddUser? || op.Reject? || op.MarkPublished?) && Commits(c, db, op)
    ensures Later(db, Apply(c, db, op))
  {
  }

  lemma ClaimMovesForward(c: Config, db: Db, op: Op)
    requires Inv(c, db) && op.Claim? && Commits(c, db, op)
    ensures Later(db, Apply(c, db, op))
  {
    ClaimAlwaysStarts(c, db, op.run, op.namespace, op.at);
    assert RunInv(c, db, op.run);
    OneRunLater(db, Apply(c, db, op), op.run);
  }

  lemma AcceptMovesForward(c: Config, db: Db, r: RunId, at: int)
    requires Inv(c, db) && r in db.runs
    ensures Later(db, AcceptRun(c, db, r, at))
  {
    assert RunInv(c, db, r);
    if !db.runs[r].Settled() {
      if RunMatches(c, db, r) {
        OneRunLater(db, AcceptRun(c, db, r, at), r);
      } else {
        FinishMovesForward(db, r, Some(DEFINITION_CHANGED), [], at);
      }
    }
  }

  lemma LaterReflexive(a: Db)
    ensures Later(a, a)
  {
  }

  lemma LaterTransitive(a: Db, b: Db, d: Db)
    requires Later(a, b) && Later(b, d)
    ensures Later(a, d)
  {
  }

  // ---- Whole runs ----

  ghost predicate Next(c: Config, db: Db, db': Db) {
    exists op :: Commits(c, db, op) && Orderly(db, op) && db' == Apply(c, db, op)
  }

  lemma NextKeeps(c: Config, db: Db, db': Db)
    requires Inv(c, db) && Next(c, db, db')
    ensures Inv(c, db') && Later(db, db')
  {
    var op :| Commits(c, db, op) && Orderly(db, op) && db' == Apply(c, db, op);
    StepInv(c, db, op);
    StepMovesForward(c, db, op);
  }

  /** States visited over time: each step commits one operation or leaves the database alone. */
  ghost predicate Behavior(c: Config, states: seq<Db>) {
    && states != []
    && Inv(c, states[0])
    && forall i :: 0 <= i < |states| - 1 ==> MovesAt(c, states, i)
  }

  ghost predicate MovesAt(c: Config, states: seq<Db>, i: int)
    requires 0 <= i < |states| - 1
  {
    states[i + 1] == states[i] || Next(c, states[i], states[i + 1])
  }

  lemma {:induction false} BehaviorInv(c: Config, states: seq<Db>, i: nat)
    requires Behavior(c, states) && i < |states|
    ensures Inv(c, states[i])
    ensures i > 0 ==> Later(states[i - 1], states[i])
  {
    if i > 0 {
      BehaviorInv(c, states, i - 1);
      assert MovesAt(c, states, i - 1);
      if states[i] == states[i - 1] {
        LaterReflexive(states[i]);
      } else {
        NextKeeps(c, states[i - 1], states[i]);
      }
    }
  }

  /** Every state of a history satisfies the invariant and keeps what earlier states recorded. */
  lemma {:induction false} BehaviorLater(c: Config, states: seq<Db>, i: nat, j: nat)
    requires Behavior(c, states) && i <= j < |states|
    ensures Inv(c, states[j]) && Later(states[i], states[j])
    decreases j - i
  {
    BehaviorInv(c, states, j);
    if i == j {
      LaterReflexive(states[i]);
    } else {
      BehaviorLater(c, states, i, j - 1);
      LaterTransitive(states[i], states[j - 1], states[j]);
    }
  }

  /** The steps up to `n` that change the status or acceptance of `r`, its creation aside. */
  ghost function Changes(states: seq<Db>, r: RunId, n: nat): nat
    requires n < |states|
  {
    if n == 0 then 0
    else
      var a, b := states[n - 1], states[n];
      Changes(states, r, n - 1) +
        if r in a.runs && r in b.runs
           && (a.runs[r].status, a.runs[r].acceptedAt) != (b.runs[r].status, b.runs[r].acceptedAt) then 1 else 0
  }

  lemma {:induction false} ChangesBounded(c: Config, states: seq<Db>, r: RunId, n: nat)
    requires Behavior(c, states) && n < |states|
    ensures Changes(states, r, n) <= if r in states[n].runs then states[n].runs[r].Rank() else 0
  {
    if n > 0 {
      ChangesBounded(c, states, r, n - 1);
      BehaviorInv(c, states, n);
    }
  }

  /** However long the history, a run changes at most three times: accepted, dispatched, ended. */
  lemma AtMostThreeChanges(c: Config, states: seq<Db>, r: RunId)
    requires Behavior(c, states)
    ensures Changes(states, r, |states| - 1) <= 3
  {
    ChangesBounded(c, states, r, |states| - 1);
  }

  // ---- Admission ----

  ghost predicate WithinLimits(limits: Limits, db: Db) {
    |ActiveRuns(db)| <= limits.total && forall owner :: |OwnedActive(db, owner)| <= limits.perUser
  }

  lemma SubmitWithinLimits(c: Config, db: Db, op: Op, limits: Limits)
    requires op.Submit? && op.limits == Some(limits) && Commits(c, db, op) && WithinLimits(limits, db)
    ensures WithinLimits(limits, Apply(c, db, op))
  {
    var db' := Apply(c, db, op);
    SubmitAddsOne(db, db', op.run);
    forall owner ensures |OwnedActive(db', owner)| <= limits.perUser { SubmitAddsOwned(db, db', op.run, owner); }
  }

  /** One run was added, and it is active. */
  predicate AddsActive(db: Db, db': Db, r: RunId) {
    r !in db.runs && r in db'.runs && db'.runs[r].Active() && db'.runs == db.runs[r := db'.runs[r]]
  }

  lemma SubmitAddsOne(db: Db, db': Db, r: RunId)
    requires AddsActive(db, db', r)
    ensures |ActiveRuns(db')| == |ActiveRuns(db)| + 1
  {
    assert ActiveRuns(db') == ActiveRuns(db) + {r};
  }

  lemma SubmitAddsOwned(db: Db, db': Db, r: RunId, owner: Option<UserId>)
    requires AddsActive(db, db', r)
    ensures |OwnedActive(db', owner)| == |OwnedActive(db, owner)| + if db'.runs[r].owner == owner then 1 else 0
  {
    var added := if db'.runs[r].owner == owner then {r} else {};
    forall s ensures s in OwnedActive(db', owner) <==> s in OwnedActive(db, owner) + added {
      assert s != r ==> (s in db'.runs <==> s in db.runs);
    }
    assert OwnedActive(db', owner) == OwnedActive(db, owner) + added;
  }

  lemma LaterWithinLimits(db: Db, db': Db, limits: Limits)
    requires db'.runs.Keys == db.runs.Keys && RunsLater(db, db') && WithinLimits(limits, db)
    ensures WithinLimits(limits, db')
  {
    forall r | r in db'.runs && db'.runs[r].Active()
      ensures r in db.runs && db.runs[r].Active() && db.runs[r].owner == db'.runs[r].owner
    {
      assert r in db.runs.Keys;
      assert RunLater(db.runs[r], db'.runs[r]);
    }
    SubsetSize(ActiveRuns(db'), ActiveRuns(db));
    forall owner ensures |OwnedActive(db', owner)| <= limits.perUser {
      SubsetSize(OwnedActive(db', owner), OwnedActive(db, owner));
    }
  }

  /** When every submission uses the same limits, no operation takes active runs past them. */
  lemma StepWithinLimits(c: Config, db: Db, op: Op, limits: Limits)
    requires Inv(c, db) && Commits(c, db, op) && Orderly(db, op) && WithinLimits(limits, db)
    requires op.Submit? ==> op.limits == Some(limits)
    ensures WithinLimits(limits, Apply(c, db, op))
  {
    if op.Submit? {
      SubmitWithinLimits(c, db, op, limits);
    } else {
      StepMovesForward(c, db, op);
      assert Apply(c, db, op).runs.Keys == db.runs.Keys;
      LaterWithinLimits(db, Apply(c, db, op), limits);
    }
  }
}

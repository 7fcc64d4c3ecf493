/**
 * Registration, acceptance, claiming, submission and reconciliation at the grain of single
 * statements: each transaction acquires a lock, reads, decides, or commits what it decided from what it
 * read. Statements read committed rows; a lock is held until its transaction ends. Proved: the commits
 * refine the atomic operations of the ledger, and no deadlock can arise.
 */
module Transactions {
  import opened Basics
  import opened Catalog
  import L = Ledger

  datatype Lock =
    | CapacityLock
    | AdmissionLock
    | ModelLock(modelId: string)
    | ReleaseLock(release: L.ReleaseId)
    | RunLock(run: L.RunId)
    | UserLock(user: L.UserId)

  /** The one order in which locks are taken. */
  function Rank(l: Lock): int {
    match l
    case CapacityLock => 0
    case AdmissionLock => 0
    case ModelLock(_) => 1
    case ReleaseLock(_) => 2
    case RunLock(_) => 3
    case UserLock(_) => 4
  }

  /** A submission as `SubmitRun.execute` prepared it from the release it read. */
  datatype Draft = Draft(
    run: L.RunId, release: L.ReleaseId, owner: Option<L.UserId>, mode: string, fingerprint: string, limits: Option<L.Limits>)

  datatype Write = SaveUid(uid: string) | Finish(failure: Option<string>, artifacts: seq<L.Artifact>)

  /** Where a transaction stands and what it has read so far. */
  datatype Pc =
    // register
    | RegStart(m: string, d: string, modes: Modes)
    | RegFind(m: string, d: string, modes: Modes)
    | RegWantRelease(m: string, d: string, modes: Modes, id: L.ReleaseId)
    | RegRead(m: string, d: string, modes: Modes, id: L.ReleaseId, current: Modes)
    | RegDecided(m: string, d: string, modes: Modes, id: L.ReleaseId)
    | RegNew(m: string, d: string, modes: Modes)
    // accept
    | AccStart(run: L.RunId)
    | AccWantRelease(run: L.RunId, rel: L.ReleaseId)
    | AccWantRun(run: L.RunId, rel: L.ReleaseId, release: L.Release)
    | AccRead(run: L.RunId, rel: L.ReleaseId, release: L.Release, row: L.Run)
    // claim
    | ClmStart(ns: string)
    | ClmCount(ns: string)
    | ClmPick(ns: string)
    | ClmWantRelease(ns: string, run: L.RunId, rel: L.ReleaseId)
    | ClmWantRun(ns: string, run: L.RunId, rel: L.ReleaseId, release: L.Release)
    | ClmRead(ns: string, run: L.RunId, rel: L.ReleaseId, release: L.Release, row: L.Run)
    | ClmDecided(ns: string, run: L.RunId, rel: L.ReleaseId, release: L.Release, row: L.Run)
    // submit
    | SubPrepare(run: L.RunId, rel: L.ReleaseId, owner: Option<L.UserId>, mode: string, limits: Option<L.Limits>)
    | SubStart(draft: Draft)
    | SubTotal(draft: Draft)
    | SubOwned(draft: Draft, total: int)
    | SubUser(draft: Draft)
    | SubWantRelease(draft: Draft)
    | SubWantUser(draft: Draft)
    | SubInsert(draft: Draft)
    // granting a role
    | GrantStart(user: L.UserId)
    | GrantHeld(user: L.UserId)
    // reconcile, under the session-level advisory lock of the run from RecRun on
    | RecTry(run: L.RunId)
    | RecRun(run: L.RunId)
    | RecRow(run: L.RunId, row: L.Run)
    | RecWork(run: L.RunId, entry: Invocation)
    | RecBroken(run: L.RunId)                      // would report a changed definition
    | RecWantRun(run: L.RunId, entry: Invocation, write: Write)
    | RecWrite(run: L.RunId, entry: Invocation, write: Write)

  /** Locks held for update. */
  predicate Holds(pc: Pc, l: Lock) {
    match l
    case CapacityLock =>
      pc.ClmCount? || pc.ClmPick? || pc.ClmWantRelease? || pc.ClmWantRun? || pc.ClmRead? || pc.ClmDecided?
    case AdmissionLock =>
      (pc.SubTotal? || pc.SubOwned? || pc.SubUser? || pc.SubWantRelease? || pc.SubWantUser? || pc.SubInsert?) && pc.draft.limits.Some?
    case ModelLock(m) =>
      (pc.RegFind? || pc.RegWantRelease? || pc.RegRead? || pc.RegDecided? || pc.RegNew?) && pc.m == m
    case ReleaseLock(id) =>
      || ((pc.RegRead? || pc.RegDecided?) && pc.id == id)
      || ((pc.AccWantRun? || pc.AccRead? || pc.ClmWantRun? || pc.ClmRead? || pc.ClmDecided?) && pc.rel == id)
    case RunLock(r) => (pc.AccRead? || pc.ClmRead? || pc.ClmDecided? || pc.RecWrite?) && pc.run == r
    case UserLock(u) => pc.GrantHeld? && pc.user == u
  }

  /** Inserting a run share-locks the release and the user it refers to. */
  predicate Shares(pc: Pc, l: Lock) {
    || ((pc.SubWantUser? || pc.SubInsert?) && l == ReleaseLock(pc.draft.release))
    || (pc.SubInsert? && pc.draft.owner.Some? && l == UserLock(pc.draft.owner.value))
  }

  function Wanted(pc: Pc): Option<Lock> {
    match pc
    case RegStart(m, _, _) => Some(ModelLock(m))
    case RegWantRelease(_, _, _, id) => Some(ReleaseLock(id))
    case AccWantRelease(_, rel) => Some(ReleaseLock(rel))
    case AccWantRun(r, _, _) => Some(RunLock(r))
    case ClmStart(_) => Some(CapacityLock)
    case ClmWantRelease(_, _, rel) => Some(ReleaseLock(rel))
    case ClmWantRun(_, r, _, _) => Some(RunLock(r))
    case SubStart(draft) => if draft.limits.Some? then Some(AdmissionLock) else None
    case SubWantRelease(draft) => Some(ReleaseLock(draft.release))
    case SubWantUser(draft) => if draft.owner.Some? then Some(UserLock(draft.owner.value)) else None
    case GrantStart(u) => Some(UserLock(u))
    case RecWantRun(r, _, _) => Some(RunLock(r))
    case _ => None
  }

  /** Another transaction stands in the way; a share request is stopped by update locks only. */
  predicate Conflicts(pc: Pc, l: Lock, other: Pc) { Holds(other, l) || (!WantsShare(pc) && Shares(other, l)) }

  predicate WantsShare(pc: Pc) { pc.SubWantRelease? || pc.SubWantUser? }

  predicate AdvisoryHeld(pc: Pc, r: L.RunId) {
    (pc.RecRun? || pc.RecRow? || pc.RecWork? || pc.RecBroken? || pc.RecWantRun? || pc.RecWrite?) && pc.run == r
  }

  datatype Fine = Fine(db: L.Db, txs: map<int, Pc>)

  ghost predicate Blocked(f: Fine, t: int) {
    && t in f.txs && Wanted(f.txs[t]).Some?
    && exists u :: u in f.txs && u != t && Conflicts(f.txs[t], Wanted(f.txs[t]).value, f.txs[u])
  }

  // ---- Deadlock freedom ----

  /** A transaction only ever waits for a lock ranked above all it holds. */
  lemma LocksTakenInOrder(pc: Pc, l: Lock)
    requires Wanted(pc).Some? && (Holds(pc, l) || Shares(pc, l))
    ensures Rank(l) < Rank(Wanted(pc).value)
  {
  }

  /** Whatever the state, behind every blocked transaction stands one that holds a lock and is not blocked. */
  lemma {:induction false} NoDeadlock(f: Fine, t: int) returns (h: int, l: Lock)
    requires Blocked(f, t)
    ensures h in f.txs && h != t && (Holds(f.txs[h], l) || Shares(f.txs[h], l)) && !Blocked(f, h)
    decreases 5 - Rank(Wanted(f.txs[t]).value)
  {
    l := Wanted(f.txs[t]).value;
    var u :| u in f.txs && u != t && Conflicts(f.txs[t], l, f.txs[u]);
    if Blocked(f, u) {
      LocksTakenInOrder(f.txs[u], l);
      h, l := NoDeadlock(f, u);
    } else {
      h := u;
    }
  }

  // ---- Statements ----

  ghost predicate Named(releases: map<L.ReleaseId, L.Release>, m: string, d: string, id: L.ReleaseId) {
    id in releases && releases[id].modelId == m && releases[id].imageDigest == d
  }

  ghost predicate Known(releases: map<L.ReleaseId, L.Release>, m: string, d: string) { exists id :: Named(releases, m, d, id) }

  /** The rows a waiting transaction will lock exist. */
  predicate CanGrant(db: L.Db, pc: Pc) {
    match pc
    case RegWantRelease(_, _, _, id) => id in db.releases
    case AccWantRelease(_, rel) => rel in db.releases
    case AccWantRun(r, _, _) => r in db.runs
    case ClmWantRelease(_, _, rel) => rel in db.releases
    case ClmWantRun(_, r, _, _) => r in db.runs
    case GrantStart(u) => u in db.users
    case _ => true
  }

  /** After a lock is granted: a row locked for update is read as it is committed now. */
  function Granted(db: L.Db, pc: Pc): Pc
    requires Wanted(pc).Some? && CanGrant(db, pc)
  {
    match pc
    case RegStart(m, d, modes) => RegFind(m, d, modes)
    case RegWantRelease(m, d, modes, id) => RegRead(m, d, modes, id, db.releases[id].modes)
    case AccWantRelease(r, rel) => AccWantRun(r, rel, db.releases[rel])
    case AccWantRun(r, rel, release) => AccRead(r, rel, release, db.runs[r])
    case ClmStart(ns) => ClmCount(ns)
    case ClmWantRelease(ns, r, rel) => ClmWantRun(ns, r, rel, db.releases[rel])
    case ClmWantRun(ns, r, rel, release) => ClmRead(ns, r, rel, release, db.runs[r])
    case SubStart(draft) => SubTotal(draft)
    case SubWantRelease(draft) => if draft.owner.Some? then SubWantUser(draft) else SubInsert(draft)
    case SubWantUser(draft) => SubInsert(draft)
    case GrantStart(u) => GrantHeld(u)
    case RecWantRun(r, entry, write) => RecWrite(r, entry, write)
  }

  /** One statement that only reads, and what the transaction does next; None ends it without a write. */
  ghost predicate Reads(c: L.Config, db: L.Db, pc: Pc, next: Option<Pc>) {
    match pc
    case RegFind(m, d, modes) =>
      if Known(db.releases, m, d)
      then exists id :: Named(db.releases, m, d, id) && next == Some(RegWantRelease(m, d, modes, id))
      else next == Some(RegNew(m, d, modes))
    case RegRead(m, d, modes, id, current) =>
      next == if ActiveModesUnchanged(current, modes, L.ProtectedModes(db, id)) then Some(RegDecided(m, d, modes, id)) else None
    case AccStart(r) => next == if r in db.runs then Some(AccWantRelease(r, db.runs[r].release)) else None
    case ClmCount(ns) => next == if |L.RunningRuns(db)| >= c.capacity then None else Some(ClmPick(ns))
    case ClmPick(ns) =>
      || (next.None? && forall r :: r in db.runs ==> !db.runs[r].Dispatchable())
      || (exists r :: L.IsNext(db, r) && next == Some(ClmWantRelease(ns, r, db.runs[r].release)))
    case ClmRead(ns, r, rel, release, row) => next == if row.Dispatchable() then Some(ClmDecided(ns, r, rel, release, row)) else None
    case SubPrepare(r, rel, owner, mode, limits) =>
      next == if rel in db.releases && mode in db.releases[rel].modes
              then Some(SubStart(Draft(r, rel, owner, mode,
                                       c.fingerprint(db.releases[rel].modelId, db.releases[rel].imageDigest,
                                                     db.releases[rel].modes[mode], mode), limits)))
              else None
    case SubStart(draft) => draft.limits.None? && next == Some(SubUser(draft))
    case SubTotal(draft) => next == Some(SubOwned(draft, |L.ActiveRuns(db)|))
    case SubOwned(draft, total) =>
      draft.limits.Some? && total >= 0 &&
      next == if L.Admits(draft.limits.value, |L.OwnedActive(db, draft.owner)|, total) then Some(SubUser(draft)) else None
    case SubUser(draft) =>
      next == if draft.owner.Some? && draft.owner.value !in db.users then None else Some(SubWantRelease(draft))
    case RecRun(r) => next == if r in db.runs && db.runs[r].status == L.Running then Some(RecRow(r, db.runs[r])) else None
    case RecRow(r, row) =>
      row.release in db.releases &&
      next == if L.Matches(c, db.releases[row.release], row.mode, row.fingerprint)
              then Some(RecWork(r, db.releases[row.release].modes[row.mode])) else Some(RecBroken(r))
    case _ => false
  }

  predicate Fresh(pc: Pc) { pc.RegStart? || pc.AccStart? || pc.ClmStart? || pc.SubPrepare? || pc.GrantStart? || pc.RecTry? }

  /** The operation a transaction is about to commit; `id` names a new release, `at` is the time. */
  function Intent(pc: Pc, id: L.ReleaseId, at: int): Option<L.Op> {
    match pc
    case RegDecided(m, d, modes, i) => Some(L.Register(i, m, d, modes))
    case RegNew(m, d, modes) => Some(L.Register(id, m, d, modes))
    case AccRead(r, _, _, _) => Some(L.Accept(r, at))
    case ClmDecided(ns, r, _, _, _) => Some(L.Claim(r, ns, at))
    case SubInsert(draft) =>
      Some(L.Submit(draft.run, draft.release, draft.owner, draft.mode, draft.fingerprint, at, None))
    case RecWrite(r, _, SaveUid(uid)) => Some(L.SaveJobUid(r, uid))
    case RecWrite(r, _, Finish(failure, artifacts)) => Some(L.Finish(r, failure, artifacts, at))
    case _ => None
  }

  /** The database as a deciding transaction sees it: its own rows as it read them. */
  function Seen(db: L.Db, r: L.RunId, row: L.Run, rel: L.ReleaseId, release: L.Release): L.Db {
    db.(runs := db.runs[r := row], releases := db.releases[rel := release])
  }

  /** Constraints the database checks at the write: fresh keys, a Job not recorded otherwise. */
  predicate Accepts(db: L.Db, pc: Pc, id: L.ReleaseId) {
    match pc
    case RegDecided(_, _, _, _) => true
    case RegNew(_, _, _) => id !in db.releases
    case AccRead(_, _, _, _) => true
    case ClmDecided(_, _, _, _, _) => true
    case SubInsert(draft) => draft.run !in db.runs && draft.release in db.releases
    case RecWrite(r, _, SaveUid(uid)) => r in db.runs && (db.runs[r].jobUid == None || db.runs[r].jobUid == Some(uid))
    case RecWrite(r, _, Finish(_, artifacts)) => r in db.runs && L.DistinctKeys(L.Rows(db, r) + artifacts)
    case _ => false
  }

  /** The committed database: every write is computed from what this transaction read. */
  function Written(c: L.Config, db: L.Db, pc: Pc, id: L.ReleaseId, at: int): L.Db
    requires Accepts(db, pc, id)
  {
    match pc
    case RegDecided(m, d, modes, i) => db.(releases := db.releases[i := L.Release(m, d, modes)])
    case RegNew(m, d, modes) => db.(releases := db.releases[id := L.Release(m, d, modes)])
    case AccRead(r, rel, release, row) => L.AcceptRun(c, Seen(db, r, row, rel, release), r, at).(releases := db.releases)
    case ClmDecided(ns, r, rel, release, row) => L.ClaimRun(c, Seen(db, r, row, rel, release), r, ns, at).(releases := db.releases)
    case SubInsert(draft) => L.SubmitRun(db, draft.run, draft.release, draft.owner, draft.mode, draft.fingerprint, at)
    case RecWrite(r, _, SaveUid(uid)) =>
      if db.runs[r].status == L.Running then db.(runs := db.runs[r := db.runs[r].(jobUid := Some(uid))]) else db
    case RecWrite(r, _, Finish(failure, artifacts)) => L.FinishRow(db, r, failure, artifacts, at)
    case _ => db
  }

  datatype Act =
    | Begin(t: int, pc: Pc)
    | TryAdvisory(t: int)
    | Grant(t: int)
    | Read(t: int, next: Option<Pc>)
    | Decide(t: int, write: Write)           // what observing the Job and its outputs led to
    | Commit(t: int, id: L.ReleaseId, at: int)
    | Abort(t: int)                          // any error, a lost connection, a crash, or an end that leaves these tables alone
    | AddUser(user: L.UserId)

  /** Failure codes are never empty. */
  predicate Coded(write: Write) { write.Finish? ==> write.failure != Some("") }

  ghost predicate Enabled(c: L.Config, f: Fine, act: Act) {
    match act
    case Begin(t, pc) => t !in f.txs && Fresh(pc)
    case TryAdvisory(t) => t in f.txs && f.txs[t].RecTry?
    case Grant(t) => t in f.txs && Wanted(f.txs[t]).Some? && !Blocked(f, t) && CanGrant(f.db, f.txs[t])
    case Read(t, next) => t in f.txs && Reads(c, f.db, f.txs[t], next)
    case Decide(t, write) => t in f.txs && f.txs[t].RecWork? && Coded(write)
    case Commit(t, id, _) => t in f.txs && Intent(f.txs[t], id, 0).Some? && Accepts(f.db, f.txs[t], id)
    case Abort(t) => t in f.txs
    case AddUser(_) => true
  }

  ghost predicate AdvisoryFree(f: Fine, t: int, r: L.RunId) { forall u :: u in f.txs && u != t ==> !AdvisoryHeld(f.txs[u], r) }

  ghost function Next(c: L.Config, f: Fine, act: Act): Fine
    requires Enabled(c, f, act)
  {
    match act
    case Begin(t, pc) => f.(txs := f.txs[t := pc])
    case TryAdvisory(t) =>
      if AdvisoryFree(f, t, f.txs[t].run) then f.(txs := f.txs[t := RecRun(f.txs[t].run)]) else f.(txs := f.txs - {t})
    case Grant(t) => f.(txs := f.txs[t := Granted(f.db, f.txs[t])])
    case Read(t, next) => if next.Some? then f.(txs := f.txs[t := next.value]) else f.(txs := f.txs - {t})
    case Decide(t, write) => f.(txs := f.txs[t := RecWantRun(f.txs[t].run, f.txs[t].entry, write)])
    case Commit(t, id, at) =>
      var pc := f.txs[t];
      Fine(Written(c, f.db, pc, id, at),
           if pc.RecWrite? && pc.write.SaveUid? then f.txs[t := RecWork(pc.run, pc.entry)] else f.txs - {t})
    case Abort(t) => f.(txs := f.txs - {t})
    case AddUser(u) => f.(db := f.db.(users := f.db.users + {u}))
  }

  // ---- What a transaction may rely on ----

  predicate IsRow(db: L.Db, r: L.RunId, rel: L.ReleaseId) { r in db.runs && db.runs[r].release == rel && rel in db.releases }

  predicate AtWork(db: L.Db, r: L.RunId, entry: Invocation) {
    r in db.runs && db.runs[r].status == L.Running && r in db.promised && db.promised[r] == entry
  }

  /** Everything read under a lock is still true. */
  ghost predicate Knows(c: L.Config, db: L.Db, pc: Pc) {
    match pc
    case RegWantRelease(m, d, _, id) => Named(db.releases, m, d, id)
    case RegRead(m, d, _, id, current) => Named(db.releases, m, d, id) && db.releases[id].modes == current
    case RegDecided(m, d, modes, id) =>
      Named(db.releases, m, d, id) && ActiveModesUnchanged(db.releases[id].modes, modes, L.ProtectedModes(db, id))
    case RegNew(m, d, _) => !Known(db.releases, m, d)
    case AccWantRelease(r, rel) => IsRow(db, r, rel)
    case AccWantRun(r, rel, release) => IsRow(db, r, rel) && db.releases[rel] == release
    case AccRead(r, rel, release, row) => IsRow(db, r, rel) && db.releases[rel] == release && db.runs[r] == row
    case ClmPick(_) => |L.RunningRuns(db)| < c.capacity
    case ClmWantRelease(_, r, rel) => |L.RunningRuns(db)| < c.capacity && IsRow(db, r, rel)
    case ClmWantRun(_, r, rel, release) =>
      |L.RunningRuns(db)| < c.capacity && IsRow(db, r, rel) && db.releases[rel] == release
    case ClmRead(_, r, rel, release, row) =>
      |L.RunningRuns(db)| < c.capacity && IsRow(db, r, rel) && db.releases[rel] == release && db.runs[r] == row
    case ClmDecided(_, r, rel, release, row) =>
      |L.RunningRuns(db)| < c.capacity && IsRow(db, r, rel) && db.releases[rel] == release && db.runs[r] == row && row.Dispatchable()
    case SubWantRelease(draft) => draft.owner.Some? ==> draft.owner.value in db.users
    case SubWantUser(draft) => draft.owner.Some? ==> draft.owner.value in db.users
    case SubInsert(draft) => draft.owner.Some? ==> draft.owner.value in db.users
    case RecRow(r, row) =>
      r in db.runs && db.runs[r].status == L.Running
      && row.release == db.runs[r].release && row.mode == db.runs[r].mode && row.fingerprint == db.runs[r].fingerprint
    case RecWork(r, entry) => AtWork(db, r, entry)
    case RecBroken(_) => false
    case RecWantRun(r, entry, write) => AtWork(db, r, entry) && Coded(write)
    case RecWrite(r, entry, write) => AtWork(db, r, entry) && Coded(write)
    case _ => true
  }

  /** No two transactions hold locks that exclude each other. */
  predicate Compatible(a: Pc, b: Pc, l: Lock) { !(Holds(a, l) && (Holds(b, l) || Shares(b, l))) }

  ghost predicate Exclusive(txs: map<int, Pc>) {
    forall t, u, l :: t in txs && u in txs && t != u ==> Compatible(txs[t], txs[u], l)
  }

  ghost predicate AdvisoryExclusive(txs: map<int, Pc>) {
    forall t, u, r :: t in txs && u in txs && t != u ==> !(AdvisoryHeld(txs[t], r) && AdvisoryHeld(txs[u], r))
  }

  ghost predicate AllKnow(c: L.Config, f: Fine) { forall t :: t in f.txs ==> Knows(c, f.db, f.txs[t]) }

  ghost predicate Inv(c: L.Config, f: Fine) {
    L.Inv(c, f.db) && Exclusive(f.txs) && AdvisoryExclusive(f.txs) && AllKnow(c, f)
  }

  // ---- Commits refine the ledger ----

  /** A commit is exactly one atomic operation of the ledger, made at the moment of the commit. */
  lemma CommitRefines(c: L.Config, f: Fine, t: int, id: L.ReleaseId, at: int)
    requires Inv(c, f) && Enabled(c, f, Commit(t, id, at))
    ensures var op := Intent(f.txs[t], id, at).value;
            && L.Commits(c, f.db, op) && L.Orderly(f.db, op)
            && Next(c, f, Commit(t, id, at)).db == L.Apply(c, f.db, op)
  {
    var pc := f.txs[t];
    assert Knows(c, f.db, pc);
    if pc.RegNew? { NewReleaseCommits(c, f.db, pc, id, at); }
    WriteRefines(c, f.db, pc, id, at);
  }

  lemma WriteRefines(c: L.Config, db: L.Db, pc: Pc, id: L.ReleaseId, at: int)
    requires Knows(c, db, pc) && Intent(pc, id, at).Some? && Accepts(db, pc, id)
    requires pc.RegNew? ==> L.Commits(c, db, Intent(pc, id, at).value)
    ensures var op := Intent(pc, id, at).value;
            L.Commits(c, db, op) && L.Orderly(db, op) && Written(c, db, pc, id, at) == L.Apply(c, db, op)
  {
    if pc.AccRead? || pc.ClmDecided? {
      assert Seen(db, pc.run, pc.row, pc.rel, pc.release) == db;
    }
  }

  lemma NewReleaseCommits(c: L.Config, db: L.Db, pc: Pc, id: L.ReleaseId, at: int)
    requires pc.RegNew? && Knows(c, db, pc) && id !in db.releases
    ensures L.Commits(c, db, Intent(pc, id, at).value)
  {
    forall i | i in db.releases ensures !(db.releases[i].modelId == pc.m && db.releases[i].imageDigest == pc.d) {
      assert !Named(db.releases, pc.m, pc.d, i);
    }
  }

  // ---- Writes stay under the locks held ----

  ghost predicate Respects(db: L.Db, db': L.Db, pc: Pc) {
    && L.Later(db, db') && db.users <= db'.users
    && ReleasesRespected(db.releases, db'.releases, pc)
    && RunsRespected(db, db', pc)
    && (!Holds(pc, CapacityLock) ==> |L.RunningRuns(db')| <= |L.RunningRuns(db)|)
  }

  ghost predicate ReleasesRespected(m: map<L.ReleaseId, L.Release>, m': map<L.ReleaseId, L.Release>, pc: Pc) {
    && (forall i :: i in m && i in m' && !Holds(pc, ReleaseLock(i)) ==> m'[i] == m[i])
    && (forall i :: i in m' && i !in m ==> Holds(pc, ModelLock(m'[i].modelId)))
  }

  ghost predicate RunsRespected(db: L.Db, db': L.Db, pc: Pc) {
    && (forall r :: r in db.runs && r in db'.runs && !Holds(pc, RunLock(r)) ==> db'.runs[r] == db.runs[r])
    && (forall r :: r in db.runs && r in db'.runs && db.runs[r].status == L.Running && !AdvisoryHeld(pc, r) ==>
          db'.runs[r] == db.runs[r])
    && (forall r :: r in db'.runs && db'.runs[r].Accepted() && !(r in db.runs && db.runs[r].Accepted()) ==>
          Holds(pc, ReleaseLock(db'.runs[r].release)))
  }

  /** A write to one existing run, by a transaction that holds its row. */
  lemma OneRunRespected(db: L.Db, db': L.Db, r: L.RunId, pc: Pc)
    requires L.Later(db, db') && db'.users == db.users && db'.releases == db.releases && db'.runs.Keys == db.runs.Keys
    requires r in db.runs && Holds(pc, RunLock(r))
    requires forall s :: s in db.runs && s != r ==> db'.runs[s] == db.runs[s]
    requires db.runs[r].status == L.Running && db'.runs[r] != db.runs[r] ==> AdvisoryHeld(pc, r)
    requires db'.runs[r].Accepted() && !db.runs[r].Accepted() ==> Holds(pc, ReleaseLock(db'.runs[r].release))
    requires db'.runs[r].status == L.Running && db.runs[r].status != L.Running ==> Holds(pc, CapacityLock)
    ensures Respects(db, db', pc)
  {
    if !Holds(pc, CapacityLock) {
      L.FewerRunning(db, db', r);
    }
    OneRowRespected(db, db', r, pc);
  }

  lemma OneRowRespected(db: L.Db, db': L.Db, r: L.RunId, pc: Pc)
    requires db'.runs.Keys == db.runs.Keys && r in db.runs && Holds(pc, RunLock(r))
    requires forall s :: s in db.runs && s != r ==> db'.runs[s] == db.runs[s]
    requires db.runs[r].status == L.Running && db'.runs[r] != db.runs[r] ==> AdvisoryHeld(pc, r)
    requires db'.runs[r].Accepted() && !db.runs[r].Accepted() ==> Holds(pc, ReleaseLock(db'.runs[r].release))
    ensures RunsRespected(db, db', pc)
  {
    assert forall s :: s in db'.runs ==> s in db.runs.Keys;
  }

  lemma AcceptRespects(c: L.Config, db: L.Db, pc: Pc, at: int)
    requires L.Inv(c, db) && pc.AccRead? && Knows(c, db, pc)
    ensures Respects(db, L.AcceptRun(c, db, pc.run, at), pc)
  {
    L.AcceptMovesForward(c, db, pc.run, at);
    OneRunRespected(db, L.AcceptRun(c, db, pc.run, at), pc.run, pc);
  }

  lemma ClaimRespects(c: L.Config, db: L.Db, pc: Pc, at: int)
    requires L.Inv(c, db) && pc.ClmDecided? && Knows(c, db, pc)
    ensures Respects(db, L.ClaimRun(c, db, pc.run, pc.ns, at), pc)
  {
    var op := L.Claim(pc.run, pc.ns, at);
    L.ClaimMovesForward(c, db, op);
    OneRunRespected(db, L.Apply(c, db, op), pc.run, pc);
  }

  lemma RecWriteRespects(c: L.Config, db: L.Db, pc: Pc, at: int)
    requires L.Inv(c, db) && pc.RecWrite? && Knows(c, db, pc) && Accepts(db, pc, 0)
    ensures Respects(db, Written(c, db, pc, 0, at), pc)
  {
    var op := Intent(pc, 0, at).value;
    if op.SaveJobUid? { L.SaveMovesForward(c, db, op); }
    else { L.FinishMovesForward(db, pc.run, op.failure, op.artifacts, at); }
    OneRunRespected(db, Written(c, db, pc, 0, at), pc.run, pc);
  }

  lemma SubmitRespects(c: L.Config, db: L.Db, pc: Pc, at: int)
    requires pc.SubInsert? && Knows(c, db, pc) && Accepts(db, pc, 0)
    ensures Respects(db, Written(c, db, pc, 0, at), pc)
  {
    var db' := Written(c, db, pc, 0, at);
    L.SubmitMovesForward(c, db, Intent(pc, 0, at).value);
    assert L.RunningRuns(db') == L.RunningRuns(db);
  }

  lemma RegisterRespects(c: L.Config, db: L.Db, pc: Pc, id: L.ReleaseId, at: int)
    requires (pc.RegDecided? || pc.RegNew?) && Knows(c, db, pc) && Accepts(db, pc, id)
    ensures Respects(db, Written(c, db, pc, id, at), pc)
  {
    var db' := Written(c, db, pc, id, at);
    if pc.RegNew? { NewReleaseCommits(c, db, pc, id, at); }
    L.RegisterMovesForward(c, db, Intent(pc, id, at).value);
    assert L.RunningRuns(db') == L.RunningRuns(db);
  }

  /** What was read under lock is what the database holds. */
  lemma SeenIsNow(c: L.Config, db: L.Db, pc: Pc)
    requires Knows(c, db, pc) && (pc.AccRead? || pc.ClmDecided?)
    ensures Seen(db, pc.run, pc.row, pc.rel, pc.release) == db
  {
  }

  lemma CommitRespects(c: L.Config, f: Fine, t: int, id: L.ReleaseId, at: int)
    requires Inv(c, f) && Enabled(c, f, Commit(t, id, at))
    ensures Respects(f.db, Written(c, f.db, f.txs[t], id, at), f.txs[t])
  {
    var pc := f.txs[t];
    assert Knows(c, f.db, pc);
    match pc {
      case AccRead(_, _, _, _) =>
        SeenIsNow(c, f.db, pc);
        AcceptRespects(c, f.db, pc, at);
      case ClmDecided(_, _, _, _, _) =>
        SeenIsNow(c, f.db, pc);
        ClaimRespects(c, f.db, pc, at);
      case SubInsert(_) => SubmitRespects(c, f.db, pc, at);
      case RecWrite(_, _, _) => RecWriteRespects(c, f.db, pc, at);
      case RegDecided(_, _, _, _) => RegisterRespects(c, f.db, pc, id, at);
      case RegNew(_, _, _) => RegisterRespects(c, f.db, pc, id, at);
      case _ =>
    }
  }

  // ---- What others know survives ----

  lemma ProtectedShrinks(db: L.Db, db': L.Db, pc: Pc, id: L.ReleaseId)
    requires Respects(db, db', pc) && !Holds(pc, ReleaseLock(id))
    ensures L.ProtectedModes(db', id) <= L.ProtectedModes(db, id)
  {
    forall mode | mode in L.ProtectedModes(db', id) ensures mode in L.ProtectedModes(db, id) {
      var r :| r in db'.runs && db'.runs[r].release == id && db'.runs[r].Accepted() && db'.runs[r].Active() && db'.runs[r].mode == mode;
      assert L.RunLater(db.runs[r], db'.runs[r]);
    }
  }

  lemma StillUnknown(db: L.Db, db': L.Db, pc: Pc, m: string, d: string)
    requires Respects(db, db', pc) && !Holds(pc, ModelLock(m)) && !Known(db.releases, m, d)
    ensures !Known(db'.releases, m, d)
  {
    forall id ensures !Named(db'.releases, m, d, id) {
      assert !Named(db.releases, m, d, id);
    }
  }

  lemma RunKept(db: L.Db, db': L.Db, pc: Pc, r: L.RunId, rel: L.ReleaseId)
    requires Respects(db, db', pc) && IsRow(db, r, rel)
    ensures IsRow(db', r, rel)
    ensures !Holds(pc, ReleaseLock(rel)) ==> db'.releases[rel] == db.releases[rel]
    ensures !Holds(pc, RunLock(r)) ==> db'.runs[r] == db.runs[r]
  {
    assert L.RunLater(db.runs[r], db'.runs[r]);
  }

  ghost predicate Apart(pc: Pc, other: Pc) {
    && (forall l :: Compatible(other, pc, l))
    && (forall r :: !(AdvisoryHeld(pc, r) && AdvisoryHeld(other, r)))
  }

  lemma RegKnowsKept(c: L.Config, db: L.Db, db': L.Db, pc: Pc, other: Pc)
    requires Respects(db, db', pc) && Knows(c, db, other) && Apart(pc, other)
    requires other.RegWantRelease? || other.RegRead? || other.RegDecided? || other.RegNew?
    ensures Knows(c, db', other)
  {
    if other.RegNew? {
      assert Compatible(other, pc, ModelLock(other.m));
      StillUnknown(db, db', pc, other.m, other.d);
    } else if !other.RegWantRelease? {
      assert Compatible(other, pc, ReleaseLock(other.id));
      ProtectedShrinks(db, db', pc, other.id);
    }
  }

  lemma AccKnowsKept(c: L.Config, db: L.Db, db': L.Db, pc: Pc, other: Pc)
    requires Respects(db, db', pc) && Knows(c, db, other) && Apart(pc, other)
    requires other.AccWantRelease? || other.AccWantRun? || other.AccRead?
    ensures Knows(c, db', other)
  {
    assert Compatible(other, pc, ReleaseLock(other.rel)) && Compatible(other, pc, RunLock(other.run));
    RunKept(db, db', pc, other.run, other.rel);
  }

  lemma ClmKnowsKept(c: L.Config, db: L.Db, db': L.Db, pc: Pc, other: Pc)
    requires Respects(db, db', pc) && Knows(c, db, other) && Apart(pc, other)
    requires other.ClmPick? || other.ClmWantRelease? || other.ClmWantRun? || other.ClmRead? || other.ClmDecided?
    ensures Knows(c, db', other)
  {
    assert Compatible(other, pc, CapacityLock);
    if !other.ClmPick? {
      assert Compatible(other, pc, ReleaseLock(other.rel)) && Compatible(other, pc, RunLock(other.run));
      RunKept(db, db', pc, other.run, other.rel);
    }
  }

  lemma RecKnowsKept(c: L.Config, db: L.Db, db': L.Db, pc: Pc, other: Pc)
    requires Respects(db, db', pc) && Knows(c, db, other) && Apart(pc, other)
    requires other.RecRow? || other.RecWork? || other.RecWantRun? || other.RecWrite?
    ensures Knows(c, db', other)
  {
    assert AdvisoryHeld(other, other.run) && !AdvisoryHeld(pc, other.run);
  }

  /** Whatever another transaction commits under its own locks, this one's knowledge stands. */
  lemma KnowsKept(c: L.Config, db: L.Db, db': L.Db, pc: Pc, other: Pc)
    requires Respects(db, db', pc) && Knows(c, db, other) && Apart(pc, other)
    ensures Knows(c, db', other)
  {
    if other.RegWantRelease? || other.RegRead? || other.RegDecided? || other.RegNew? {
      RegKnowsKept(c, db, db', pc, other);
    } else if other.AccWantRelease? || other.AccWantRun? || other.AccRead? {
      AccKnowsKept(c, db, db', pc, other);
    } else if other.ClmPick? || other.ClmWantRelease? || other.ClmWantRun? || other.ClmRead? || other.ClmDecided? {
      ClmKnowsKept(c, db, db', pc, other);
    } else if other.RecRow? || other.RecWork? || other.RecWantRun? || other.RecWrite? {
      RecKnowsKept(c, db, db', pc, other);
    }
  }

  // ---- Steps that only move one transaction ----

  /** Replacing one transaction by one that holds no new lock and knows what it claims. */
  lemma MoveKeeps(c: L.Config, f: Fine, t: int, next: Pc)
    requires Inv(c, f) && Knows(c, f.db, next)
    requires forall l, u :: u in f.txs && u != t ==> Compatible(next, f.txs[u], l) && Compatible(f.txs[u], next, l)
    requires forall r, u :: u in f.txs && u != t ==> !(AdvisoryHeld(next, r) && AdvisoryHeld(f.txs[u], r))
    ensures Inv(c, f.(txs := f.txs[t := next]))
  {
  }

  lemma DropKeeps(c: L.Config, f: Fine, t: int)
    requires Inv(c, f)
    ensures Inv(c, f.(txs := f.txs - {t}))
  {
  }

  ghost predicate NoMoreLocks(pc: Pc, next: Pc) {
    && (forall l :: Holds(next, l) ==> Holds(pc, l))
    && (forall l :: Shares(next, l) ==> Shares(pc, l))
    && (forall r :: AdvisoryHeld(next, r) ==> AdvisoryHeld(pc, r))
  }

  lemma QuietMoveKeeps(c: L.Config, f: Fine, t: int, next: Pc)
    requires Inv(c, f) && t in f.txs && NoMoreLocks(f.txs[t], next) && Knows(c, f.db, next)
    ensures Inv(c, f.(txs := f.txs[t := next]))
  {
    forall l, u | u in f.txs && u != t ensures Compatible(next, f.txs[u], l) && Compatible(f.txs[u], next, l) {
      assert Compatible(f.txs[t], f.txs[u], l) && Compatible(f.txs[u], f.txs[t], l);
    }
    MoveKeeps(c, f, t, next);
  }

  lemma ReadsNoLocks(c: L.Config, db: L.Db, pc: Pc, next: Pc)
    requires Reads(c, db, pc, Some(next))
    ensures NoMoreLocks(pc, next)
  {
    forall l ensures Holds(next, l) ==> Holds(pc, l) { ReadsHoldNoMore(c, db, pc, next, l); }
    assert forall l :: !Shares(next, l);
  }

  lemma ReadsHoldNoMore(c: L.Config, db: L.Db, pc: Pc, next: Pc, l: Lock)
    requires Reads(c, db, pc, Some(next))
    ensures Holds(next, l) ==> Holds(pc, l)
  {
    if pc.RegFind? || pc.RegRead? {
      RegistrationReads(c, db, pc, next, l);
    } else if pc.ClmCount? || pc.ClmPick? || pc.ClmRead? {
      ClaimReads(c, db, pc, next, l);
    } else {
      OtherReads(c, db, pc, next, l);
    }
  }

  lemma RegistrationReads(c: L.Config, db: L.Db, pc: Pc, next: Pc, l: Lock)
    requires Reads(c, db, pc, Some(next)) && (pc.RegFind? || pc.RegRead?)
    ensures Holds(next, l) ==> Holds(pc, l)
  {
  }

  lemma ClaimReads(c: L.Config, db: L.Db, pc: Pc, next: Pc, l: Lock)
    requires Reads(c, db, pc, Some(next)) && (pc.ClmCount? || pc.ClmPick? || pc.ClmRead?)
    ensures Holds(next, l) ==> Holds(pc, l)
  {
  }

  lemma OtherReads(c: L.Config, db: L.Db, pc: Pc, next: Pc, l: Lock)
    requires Reads(c, db, pc, Some(next)) && !pc.RegFind? && !pc.RegRead? && !pc.ClmCount? && !pc.ClmPick? && !pc.ClmRead?
    ensures Holds(next, l) ==> Holds(pc, l)
  {
  }

  /** In particular the fingerprint recheck of a running run never fails. */
  lemma ReadsKnow(c: L.Config, db: L.Db, pc: Pc, next: Pc)
    requires L.Inv(c, db) && Knows(c, db, pc) && Reads(c, db, pc, Some(next))
    ensures Knows(c, db, next)
  {
    match pc {
      case AccStart(r) => assert L.RunInv(c, db, r);
      case ClmPick(_) => assert L.RunInv(c, db, next.run);
      case RecRow(r, _) => assert L.RunInv(c, db, r);
      case _ =>
    }
  }

  lemma GrantedLocks(db: L.Db, pc: Pc, l: Lock)
    requires Wanted(pc).Some? && CanGrant(db, pc)
    ensures Holds(Granted(db, pc), l) ==> Holds(pc, l) || (l == Wanted(pc).value && !WantsShare(pc))
    ensures Shares(Granted(db, pc), l) ==> Shares(pc, l) || (l == Wanted(pc).value && WantsShare(pc))
    ensures forall r :: AdvisoryHeld(Granted(db, pc), r) ==> AdvisoryHeld(pc, r)
  {
  }

  lemma GrantKeeps(c: L.Config, f: Fine, t: int)
    requires Inv(c, f) && Enabled(c, f, Grant(t))
    ensures Inv(c, Next(c, f, Grant(t)))
  {
    var pc := f.txs[t];
    var next := Granted(f.db, pc);
    assert Knows(c, f.db, pc);
    forall l, u | u in f.txs && u != t ensures Compatible(next, f.txs[u], l) && Compatible(f.txs[u], next, l) {
      assert Compatible(pc, f.txs[u], l) && Compatible(f.txs[u], pc, l);
      assert !Conflicts(pc, Wanted(pc).value, f.txs[u]);
      GrantedLocks(f.db, pc, l);
    }
    forall r, u | u in f.txs && u != t ensures !(AdvisoryHeld(next, r) && AdvisoryHeld(f.txs[u], r)) {
      GrantedLocks(f.db, pc, RunLock(r));
    }
    MoveKeeps(c, f, t, next);
  }

  lemma OthersKnow(c: L.Config, f: Fine, t: int, id: L.ReleaseId, at: int)
    requires Inv(c, f) && Enabled(c, f, Commit(t, id, at))
    ensures AllKnow(c, Fine(Written(c, f.db, f.txs[t], id, at), f.txs - {t}))
  {
    var pc := f.txs[t];
    var g := Fine(Written(c, f.db, pc, id, at), f.txs - {t});
    CommitRespects(c, f, t, id, at);
    forall u | u in g.txs ensures Knows(c, g.db, g.txs[u]) {
      assert forall l :: Compatible(f.txs[u], pc, l);
      assert Apart(pc, f.txs[u]);
      KnowsKept(c, f.db, g.db, pc, f.txs[u]);
    }
  }

  lemma CommitKeeps(c: L.Config, f: Fine, t: int, id: L.ReleaseId, at: int)
    requires Inv(c, f) && Enabled(c, f, Commit(t, id, at))
    ensures Inv(c, Next(c, f, Commit(t, id, at)))
  {
    var pc := f.txs[t];
    var db' := Written(c, f.db, pc, id, at);
    CommitRefines(c, f, t, id, at);
    L.StepInv(c, f.db, Intent(pc, id, at).value);
    DropKeeps(c, f, t);
    var g := Fine(db', f.txs - {t});
    OthersKnow(c, f, t, id, at);
    assert Inv(c, g);
    if pc.RecWrite? && pc.write.SaveUid? {
      RejoinKeeps(c, f, g, t);
    }
  }

  /** After recording the Job the reconciler goes on under its advisory lock. */
  lemma RejoinKeeps(c: L.Config, f: Fine, g: Fine, t: int)
    requires Inv(c, f) && Inv(c, g) && t in f.txs && g.txs == f.txs - {t}
    requires f.txs[t].RecWrite? && f.txs[t].write.SaveUid?
    requires Knows(c, g.db, RecWork(f.txs[t].run, f.txs[t].entry))
    ensures Inv(c, Fine(g.db, f.txs[t := RecWork(f.txs[t].run, f.txs[t].entry)]))
  {
    var next := RecWork(f.txs[t].run, f.txs[t].entry);
    forall r, u | u in g.txs && u != t ensures !(AdvisoryHeld(next, r) && AdvisoryHeld(g.txs[u], r)) {
      assert !(AdvisoryHeld(f.txs[t], r) && AdvisoryHeld(f.txs[u], r));
    }
    MoveKeeps(c, g, t, next);
    assert g.txs[t := next] == f.txs[t := next];
  }

  lemma AddUserKeeps(c: L.Config, f: Fine, user: L.UserId)
    requires Inv(c, f)
    ensures Inv(c, Next(c, f, AddUser(user)))
  {
    var f' := Next(c, f, AddUser(user));
    L.SideTablesInv(c, f.db, L.AddUser(user));
    L.SideTablesMoveForward(c, f.db, L.AddUser(user));
    assert L.RunningRuns(f'.db) == L.RunningRuns(f.db);
    forall t | t in f'.txs ensures Knows(c, f'.db, f'.txs[t]) {
      KnowsKept(c, f.db, f'.db, AccStart(0), f.txs[t]);
    }
  }

  lemma ReadKeeps(c: L.Config, f: Fine, act: Act)
    requires Inv(c, f) && act.Read? && Enabled(c, f, act)
    ensures Inv(c, Next(c, f, act))
  {
    assert Knows(c, f.db, f.txs[act.t]);
    if act.next.Some? {
      ReadsNoLocks(c, f.db, f.txs[act.t], act.next.value);
      ReadsKnow(c, f.db, f.txs[act.t], act.next.value);
      QuietMoveKeeps(c, f, act.t, act.next.value);
    } else {
      DropKeeps(c, f, act.t);
    }
  }

  lemma DecideKeeps(c: L.Config, f: Fine, t: int, write: Write)
    requires Inv(c, f) && Enabled(c, f, Decide(t, write))
    ensures Inv(c, Next(c, f, Decide(t, write)))
  {
    assert Knows(c, f.db, f.txs[t]);
    QuietMoveKeeps(c, f, t, RecWantRun(f.txs[t].run, f.txs[t].entry, write));
  }

  lemma TryAdvisoryKeeps(c: L.Config, f: Fine, t: int)
    requires Inv(c, f) && Enabled(c, f, TryAdvisory(t))
    ensures Inv(c, Next(c, f, TryAdvisory(t)))
  {
    if AdvisoryFree(f, t, f.txs[t].run) {
      MoveKeeps(c, f, t, RecRun(f.txs[t].run));
    } else {
      DropKeeps(c, f, t);
    }
  }

  lemma BeginKeeps(c: L.Config, f: Fine, t: int, pc: Pc)
    requires Inv(c, f) && Enabled(c, f, Begin(t, pc))
    ensures Inv(c, Next(c, f, Begin(t, pc)))
  {
    MoveKeeps(c, f, t, pc);
  }

  /** Every statement of every transaction keeps the invariant. */
  lemma StepInv(c: L.Config, f: Fine, act: Act)
    requires Inv(c, f) && Enabled(c, f, act)
    ensures Inv(c, Next(c, f, act))
  {
    match act {
      case Begin(t, pc) => BeginKeeps(c, f, t, pc);
      case TryAdvisory(t) => TryAdvisoryKeeps(c, f, t);
      case Grant(t) => GrantKeeps(c, f, t);
      case Read(_, _) => ReadKeeps(c, f, act);
      case Decide(t, write) => DecideKeeps(c, f, t, write);
      case Commit(t, id, at) => CommitKeeps(c, f, t, id, at);
      case Abort(t) => DropKeeps(c, f, t);
      case AddUser(user) => AddUserKeeps(c, f, user);
    }
  }

  // ---- Whole interleavings ----

  ghost predicate StepAt(c: L.Config, states: seq<Fine>, acts: seq<Act>, i: int)
    requires |states| == |acts| + 1 && 0 <= i < |acts|
  {
    Enabled(c, states[i], acts[i]) && states[i + 1] == Next(c, states[i], acts[i])
  }

  /** Any interleaving of any number of transactions, from an empty database. */
  ghost predicate Interleaving(c: L.Config, states: seq<Fine>, acts: seq<Act>) {
    && |states| == |acts| + 1
    && states[0] == Fine(L.EMPTY, map[])
    && forall i :: 0 <= i < |acts| ==> StepAt(c, states, acts, i)
  }

  lemma {:induction false} InterleavingInv(c: L.Config, states: seq<Fine>, acts: seq<Act>, i: nat)
    requires Interleaving(c, states, acts) && i < |states|
    ensures Inv(c, states[i])
  {
    if i == 0 {
      L.EmptyInv(c);
    } else {
      InterleavingInv(c, states, acts, i - 1);
      assert StepAt(c, states, acts, i - 1);
      StepInv(c, states[i - 1], acts[i - 1]);
    }
  }

  /** One statement either leaves the database alone or is one atomic operation. */
  lemma StepRefines(c: L.Config, f: Fine, act: Act)
    requires Inv(c, f) && Enabled(c, f, act)
    ensures Next(c, f, act).db == f.db || L.Next(c, f.db, Next(c, f, act).db)
  {
    if act.Commit? {
      CommitRefines(c, f, act.t, act.id, act.at);
    } else if act.AddUser? {
      assert Next(c, f, act).db == L.Apply(c, f.db, L.AddUser(act.user));
    }
  }

  function Databases(states: seq<Fine>): seq<L.Db> { seq(|states|, i requires 0 <= i < |states| => states[i].db) }

  /** Refinement: the committed states of any interleaving form a behavior of the atomic ledger. */
  lemma InterleavingIsBehavior(c: L.Config, states: seq<Fine>, acts: seq<Act>)
    requires Interleaving(c, states, acts)
    ensures L.Behavior(c, Databases(states))
  {
    var dbs := Databases(states);
    InterleavingInv(c, states, acts, 0);
    forall i | 0 <= i < |dbs| - 1 ensures L.MovesAt(c, dbs, i) {
      InterleavingInv(c, states, acts, i);
      assert StepAt(c, states, acts, i);
      StepRefines(c, states[i], acts[i]);
    }
  }

  /** Accepted work is frozen under every interleaving, and no recheck ever fails for it. */
  lemma FrozenUnderInterleaving(c: L.Config, states: seq<Fine>, acts: seq<Act>, i: nat, r: L.RunId)
    requires Interleaving(c, states, acts) && i < |states| && r in states[i].db.runs
    requires states[i].db.runs[r].Accepted() && states[i].db.runs[r].Active()
    ensures var db := states[i].db;
            && L.RunMatches(c, db, r) && r in db.promised
            && db.releases[db.runs[r].release].modes[db.runs[r].mode] == db.promised[r]
    ensures forall t :: t in states[i].txs ==> !states[i].txs[t].RecBroken?
    ensures forall t :: t in states[i].txs && states[i].txs[t].ClmDecided? ==>
              var pc := states[i].txs[t]; L.Matches(c, pc.release, pc.row.mode, pc.row.fingerprint)
  {
    InterleavingInv(c, states, acts, i);
    var db := states[i].db;
    assert L.RunInv(c, db, r);
    forall t | t in states[i].txs
      ensures !states[i].txs[t].RecBroken?
      ensures states[i].txs[t].ClmDecided? ==>
                L.Matches(c, states[i].txs[t].release, states[i].txs[t].row.mode, states[i].txs[t].row.fingerprint)
    {
      var pc := states[i].txs[t];
      assert Knows(c, db, pc);
      if pc.ClmDecided? { assert L.RunInv(c, db, pc.run); }
    }
  }

  /** Capacity holds under every interleaving, and one model image never gets two releases. */
  lemma BoundsUnderInterleaving(c: L.Config, states: seq<Fine>, acts: seq<Act>, i: nat)
    requires Interleaving(c, states, acts) && i < |states|
    ensures |L.RunningRuns(states[i].db)| <= c.capacity
    ensures L.UniqueReleases(states[i].db.releases)
  {
    InterleavingInv(c, states, acts, i);
  }

  // ---- Admission limits, when all submissions use the same ----

  function LimitsOf(pc: Pc): Option<L.Limits> {
    if pc.SubPrepare? then pc.limits
    else if Submitting(pc) then pc.draft.limits
    else None
  }

  predicate Submitting(pc: Pc) {
    || pc.SubPrepare? || pc.SubStart? || pc.SubTotal? || pc.SubOwned? || pc.SubUser? || pc.SubWantRelease? || pc.SubWantUser?
    || pc.SubInsert?
  }

  /** What was counted under the admission lock is still an upper bound. */
  predicate Counted(limits: L.Limits, db: L.Db, pc: Pc) {
    && (Submitting(pc) ==> LimitsOf(pc) == Some(limits))
    && (pc.SubOwned? ==> |L.ActiveRuns(db)| <= pc.total)
    && (pc.SubUser? || pc.SubWantRelease? || pc.SubWantUser? || pc.SubInsert? ==>
          L.Admits(limits, |L.OwnedActive(db, pc.draft.owner)|, |L.ActiveRuns(db)|))
  }

  ghost predicate LimitInv(limits: L.Limits, f: Fine) {
    L.WithinLimits(limits, f.db) && forall t :: t in f.txs ==> Counted(limits, f.db, f.txs[t])
  }

  lemma FewerActive(db: L.Db, db': L.Db)
    requires db'.runs.Keys == db.runs.Keys && L.RunsLater(db, db')
    ensures |L.ActiveRuns(db')| <= |L.ActiveRuns(db)|
    ensures forall owner :: |L.OwnedActive(db', owner)| <= |L.OwnedActive(db, owner)|
  {
    forall r | r in db'.runs && db'.runs[r].Active()
      ensures r in db.runs && db.runs[r].Active() && db.runs[r].owner == db'.runs[r].owner
    {
      assert r in db.runs.Keys;
      assert L.RunLater(db.runs[r], db'.runs[r]);
    }
    L.SubsetSize(L.ActiveRuns(db'), L.ActiveRuns(db));
    forall owner ensures |L.OwnedActive(db', owner)| <= |L.OwnedActive(db, owner)| {
      L.SubsetSize(L.OwnedActive(db', owner), L.OwnedActive(db, owner));
    }
  }

  lemma CountedLess(limits: L.Limits, db: L.Db, db': L.Db, pc: Pc)
    requires Counted(limits, db, pc) && |L.ActiveRuns(db')| <= |L.ActiveRuns(db)|
    requires forall owner :: |L.OwnedActive(db', owner)| <= |L.OwnedActive(db, owner)|
    ensures Counted(limits, db', pc)
  {
  }

  lemma OtherCommitsKeepRuns(c: L.Config, f: Fine, t: int, id: L.ReleaseId, at: int)
    requires Inv(c, f) && Enabled(c, f, Commit(t, id, at)) && !f.txs[t].SubInsert?
    ensures Written(c, f.db, f.txs[t], id, at).runs.Keys == f.db.runs.Keys
  {
    var pc := f.txs[t];
    assert Knows(c, f.db, pc);
    if pc.AccRead? || pc.ClmDecided? { SeenIsNow(c, f.db, pc); }
  }

  lemma SubmitCommitKeepsLimits(c: L.Config, f: Fine, limits: L.Limits, t: int, at: int)
    requires Inv(c, f) && LimitInv(limits, f) && Enabled(c, f, Commit(t, 0, at)) && f.txs[t].SubInsert?
    ensures LimitInv(limits, Next(c, f, Commit(t, 0, at)))
  {
    var pc := f.txs[t];
    var f' := Next(c, f, Commit(t, 0, at));
    assert Counted(limits, f.db, pc) && Knows(c, f.db, pc);
    var draft := pc.draft;
    var op := L.Submit(draft.run, draft.release, draft.owner, draft.mode, draft.fingerprint, at, Some(limits));
    L.SubmitWithinLimits(c, f.db, op, limits);
    assert f'.db == L.Apply(c, f.db, op);
    forall u | u in f'.txs ensures Counted(limits, f'.db, f'.txs[u]) {
      assert Counted(limits, f.db, f.txs[u]);
      assert Compatible(pc, f.txs[u], AdmissionLock);
    }
  }

  lemma CommitKeepsLimits(c: L.Config, f: Fine, limits: L.Limits, t: int, id: L.ReleaseId, at: int)
    requires Inv(c, f) && LimitInv(limits, f) && Enabled(c, f, Commit(t, id, at)) && !f.txs[t].SubInsert?
    ensures LimitInv(limits, Next(c, f, Commit(t, id, at)))
  {
    var db' := Written(c, f.db, f.txs[t], id, at);
    CommitRespects(c, f, t, id, at);
    OtherCommitsKeepRuns(c, f, t, id, at);
    FewerActive(f.db, db');
    var f' := Next(c, f, Commit(t, id, at));
    forall u | u in f'.txs ensures Counted(limits, f'.db, f'.txs[u]) {
      if u != t { CountedLess(limits, f.db, db', f.txs[u]); }
    }
  }

  lemma AddUserKeepsLimits(c: L.Config, f: Fine, limits: L.Limits, user: L.UserId)
    requires LimitInv(limits, f)
    ensures LimitInv(limits, Next(c, f, AddUser(user)))
  {
    var f' := Next(c, f, AddUser(user));
    assert L.ActiveRuns(f'.db) == L.ActiveRuns(f.db);
    assert forall owner :: L.OwnedActive(f'.db, owner) == L.OwnedActive(f.db, owner);
    forall u | u in f'.txs ensures Counted(limits, f'.db, f'.txs[u]) {
      assert Counted(limits, f.db, f.txs[u]);
    }
  }

  /** Every submission is begun with these limits. */
  predicate Uniform(limits: L.Limits, act: Act) { act.Begin? && act.pc.SubPrepare? ==> act.pc.limits == Some(limits) }

  lemma QuietStepKeepsLimits(c: L.Config, f: Fine, limits: L.Limits, act: Act)
    requires LimitInv(limits, f) && Enabled(c, f, act) && Uniform(limits, act) && !act.Commit? && !act.AddUser?
    ensures LimitInv(limits, Next(c, f, act))
  {
    assert act.t in f.txs ==> Counted(limits, f.db, f.txs[act.t]);
    if act.Read? && act.next.Some? {
      ReadCounts(c, f.db, limits, f.txs[act.t], act.next.value);
    } else if act.Grant? {
      GrantCounts(f.db, limits, f.txs[act.t]);
    }
  }

  lemma ReadCounts(c: L.Config, db: L.Db, limits: L.Limits, pc: Pc, next: Pc)
    requires Counted(limits, db, pc) && Reads(c, db, pc, Some(next))
    ensures Counted(limits, db, next)
  {
  }

  lemma GrantCounts(db: L.Db, limits: L.Limits, pc: Pc)
    requires Counted(limits, db, pc) && Wanted(pc).Some? && CanGrant(db, pc)
    ensures Counted(limits, db, Granted(db, pc))
  {
  }

  lemma StepKeepsLimits(c: L.Config, f: Fine, limits: L.Limits, act: Act)
    requires Inv(c, f) && LimitInv(limits, f) && Enabled(c, f, act) && Uniform(limits, act)
    ensures LimitInv(limits, Next(c, f, act))
  {
    if act.Commit? {
      if f.txs[act.t].SubInsert? {
        SubmitCommitKeepsLimits(c, f, limits, act.t, act.at);
        assert Next(c, f, act) == Next(c, f, Commit(act.t, 0, act.at));
      } else {
        CommitKeepsLimits(c, f, limits, act.t, act.id, act.at);
      }
    } else if act.AddUser? {
      AddUserKeepsLimits(c, f, limits, act.user);
    } else {
      QuietStepKeepsLimits(c, f, limits, act);
    }
  }

  /** Active runs never exceed the global limit, nor any user's, under any interleaving of submitters and finishers. */
  lemma {:induction false} LimitsUnderInterleaving(c: L.Config, states: seq<Fine>, acts: seq<Act>, limits: L.Limits, i: nat)
    requires Interleaving(c, states, acts) && i < |states|
    requires forall n :: 0 <= n < |acts| ==> Uniform(limits, acts[n])
    ensures LimitInv(limits, states[i])
  {
    if i == 0 {
      assert L.ActiveRuns(L.EMPTY) == {};
      assert forall owner :: L.OwnedActive(L.EMPTY, owner) == {};
    } else {
      LimitsUnderInterleaving(c, states, acts, limits, i - 1);
      InterleavingInv(c, states, acts, i - 1);
      assert StepAt(c, states, acts, i - 1);
      StepKeepsLimits(c, states[i - 1], limits, acts[i - 1]);
    }
  }

  // ---- A transaction that ends without a write had cause to ----

  /** Why a statement that read may have ended its transaction. */
  ghost predicate Cause(c: L.Config, db: L.Db, pc: Pc) {
    match pc
    case RegRead(_, _, modes, id, current) =>
      exists r :: r in db.runs && db.runs[r].release == id && db.runs[r].Accepted() && db.runs[r].Active()
                  && Get(current, db.runs[r].mode) != Get(modes, db.runs[r].mode)
    case AccStart(r) => r !in db.runs
    case ClmCount(_) => |L.RunningRuns(db)| >= c.capacity
    case ClmPick(_) => forall r :: r in db.runs ==> !(db.runs[r].status == L.Queued && db.runs[r].Accepted())
    case ClmRead(_, _, _, _, row) => row.status != L.Queued || !row.Accepted()
    case SubPrepare(_, rel, _, mode, _) => rel !in db.releases || mode !in db.releases[rel].modes
    case SubOwned(draft, total) =>
      draft.limits.Some? && (|L.OwnedActive(db, draft.owner)| >= draft.limits.value.perUser || total >= draft.limits.value.total)
    case SubUser(draft) => draft.owner.Some? && draft.owner.value !in db.users
    case RecRun(r) => r !in db.runs || db.runs[r].status != L.Running
    case _ => false
  }

  /** A transaction gives up after a read exactly for one of these causes. */
  lemma GivesUpExactly(c: L.Config, db: L.Db, pc: Pc)
    requires L.Inv(c, db) && Knows(c, db, pc)
    ensures Reads(c, db, pc, None) <==> Cause(c, db, pc) && (pc.SubOwned? ==> pc.total >= 0)
  {
    if pc.RegFind? || pc.RegRead? {
      RegistrationGivesUp(c, db, pc);
    } else if pc.ClmCount? || pc.ClmPick? || pc.ClmRead? {
      ClaimGivesUp(c, db, pc);
    } else {
      OthersGiveUp(c, db, pc);
    }
  }

  lemma RegistrationGivesUp(c: L.Config, db: L.Db, pc: Pc)
    requires pc.RegFind? || pc.RegRead?
    ensures Reads(c, db, pc, None) <==> Cause(c, db, pc)
  {
    if pc.RegRead? { ProtectedExactly(db, pc.id, pc.current, pc.modes); }
  }

  lemma ClaimGivesUp(c: L.Config, db: L.Db, pc: Pc)
    requires pc.ClmCount? || pc.ClmPick? || pc.ClmRead?
    ensures Reads(c, db, pc, None) <==> Cause(c, db, pc)
  {
  }

  lemma OthersGiveUp(c: L.Config, db: L.Db, pc: Pc)
    requires !pc.RegFind? && !pc.RegRead? && !pc.ClmCount? && !pc.ClmPick? && !pc.ClmRead?
    ensures Reads(c, db, pc, None) <==> Cause(c, db, pc) && (pc.SubOwned? ==> pc.total >= 0)
  {
  }

  lemma ProtectedExactly(db: L.Db, id: L.ReleaseId, current: Modes, modes: Modes)
    ensures !ActiveModesUnchanged(current, modes, L.ProtectedModes(db, id)) <==>
            exists r :: r in db.runs && db.runs[r].release == id && db.runs[r].Accepted() && db.runs[r].Active()
                        && Get(current, db.runs[r].mode) != Get(modes, db.runs[r].mode)
  {
    if r :| r in db.runs && db.runs[r].release == id && db.runs[r].Accepted() && db.runs[r].Active()
            && Get(current, db.runs[r].mode) != Get(modes, db.runs[r].mode) {
      assert db.runs[r].mode in L.ProtectedModes(db, id);
    }
  }

  // ---- Submitted runs match the release they were prepared from ----

  ghost predicate MatchedAt(c: L.Config, f: Fine, rel: L.ReleaseId, mode: string, fingerprint: string) {
    rel in f.db.releases && L.Matches(c, f.db.releases[rel], mode, fingerprint)
  }

  function DraftOf(pc: Pc): Option<Draft> { if Submitting(pc) && !pc.SubPrepare? then Some(pc.draft) else None }

  lemma DraftStep(c: L.Config, f: Fine, act: Act, t: int)
    requires Enabled(c, f, act) && t in Next(c, f, act).txs && DraftOf(Next(c, f, act).txs[t]).Some?
    ensures var draft := DraftOf(Next(c, f, act).txs[t]).value;
            || (t in f.txs && DraftOf(f.txs[t]) == Some(draft))
            || MatchedAt(c, f, draft.release, draft.mode, draft.fingerprint)
  {
  }

  /** A draft carries the fingerprint of the release it was prepared from, as it was then. */
  lemma {:induction false} DraftsWerePrepared(c: L.Config, states: seq<Fine>, acts: seq<Act>, i: nat, t: int) returns (h: int)
    requires Interleaving(c, states, acts) && i < |states| && t in states[i].txs && DraftOf(states[i].txs[t]).Some?
    ensures var draft := DraftOf(states[i].txs[t]).value;
            0 <= h <= i && MatchedAt(c, states[h], draft.release, draft.mode, draft.fingerprint)
  {
    assert i > 0;
    assert StepAt(c, states, acts, i - 1);
    DraftStep(c, states[i - 1], acts[i - 1], t);
    var draft := DraftOf(states[i].txs[t]).value;
    h := i - 1;
    if !MatchedAt(c, states[i - 1], draft.release, draft.mode, draft.fingerprint) {
      h := DraftsWerePrepared(c, states, acts, i - 1, t);
    }
  }

  /** A run that was not there before is the one a submission had prepared. */
  lemma NewRunWasDraft(c: L.Config, f: Fine, act: Act, r: L.RunId)
    requires Inv(c, f) && Enabled(c, f, act) && r in Next(c, f, act).db.runs && r !in f.db.runs
    ensures act.Commit? && act.t in f.txs && f.txs[act.t].SubInsert?
    ensures var draft := f.txs[act.t].draft;
            var run := Next(c, f, act).db.runs[r];
            run.release == draft.release && run.mode == draft.mode && run.fingerprint == draft.fingerprint
  {
    if act.Commit? {
      var pc := f.txs[act.t];
      CommitRefines(c, f, act.t, act.id, act.at);
      if !pc.SubInsert? { OtherCommitsKeepRuns(c, f, act.t, act.id, act.at); }
    }
  }

  lemma StepKeepsRuns(c: L.Config, f: Fine, act: Act, r: L.RunId)
    requires Inv(c, f) && Enabled(c, f, act) && r in f.db.runs
    ensures r in Next(c, f, act).db.runs && L.RunLater(f.db.runs[r], Next(c, f, act).db.runs[r])
  {
    StepRefines(c, f, act);
    var db' := Next(c, f, act).db;
    if db' == f.db { L.LaterReflexive(f.db); } else { L.NextKeeps(c, f.db, db'); }
  }

  /** Every stored run carries the fingerprint its release had when it was submitted. */
  lemma {:induction false} RunsWerePrepared(c: L.Config, states: seq<Fine>, acts: seq<Act>, i: nat, r: L.RunId) returns (h: int)
    requires Interleaving(c, states, acts) && i < |states| && r in states[i].db.runs
    ensures var run := states[i].db.runs[r]; 0 <= h <= i && MatchedAt(c, states[h], run.release, run.mode, run.fingerprint)
  {
    assert i > 0;
    InterleavingInv(c, states, acts, i - 1);
    assert StepAt(c, states, acts, i - 1);
    if r in states[i - 1].db.runs {
      StepKeepsRuns(c, states[i - 1], acts[i - 1], r);
      h := RunsWerePrepared(c, states, acts, i - 1, r);
    } else {
      NewRunWasDraft(c, states[i - 1], acts[i - 1], r);
      h := DraftsWerePrepared(c, states, acts, i - 1, acts[i - 1].t);
    }
  }

  /** So a run whose mode entry is still what it was prepared from matches its release, and acceptance accepts it. */
  lemma UnchangedRunsMatch(c: L.Config, states: seq<Fine>, acts: seq<Act>, i: nat, r: L.RunId) returns (h: int)
    requires Interleaving(c, states, acts) && i < |states| && r in states[i].db.runs
    ensures var run := states[i].db.runs[r];
            && 0 <= h <= i && MatchedAt(c, states[h], run.release, run.mode, run.fingerprint) && run.release in states[i].db.releases
            && (Get(states[i].db.releases[run.release].modes, run.mode) == Get(states[h].db.releases[run.release].modes, run.mode) ==>
                  L.RunMatches(c, states[i].db, r))
  {
    h := RunsWerePrepared(c, states, acts, i, r);
    InterleavingIsBehavior(c, states, acts);
    var dbs := Databases(states);
    L.BehaviorLater(c, dbs, h, i);
    assert dbs[h] == states[h].db && dbs[i] == states[i].db;
  }
}

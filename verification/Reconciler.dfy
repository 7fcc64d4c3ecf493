/** `reconcile` and `tick` as code, with the cluster's and the object store's answers as parameters. */
module Reconciler {
  import opened Basics
  import opened Catalog
  import E = Execution
  import L = Ledger
  import opened Persistence

  /** What `observe_or_create` gives: nothing yet, a failure with its code, or the run's Job. */
  datatype Seen = Unavailable | Refused(code: string) | Job(uid: string, state: E.JobState, reason: string)

  /** The listing under the run's output prefix, if the store answers. */
  datatype Listing = NoListing | Listed(files: seq<L.Artifact>)

  /** `busy` are runs whose advisory lock another worker holds. */
  datatype Answers = Answers(seen: L.RunId -> Seen, listing: L.RunId -> Listing, busy: set<L.RunId>)

  /** Failure codes are never empty. */
  ghost predicate Sensible(a: Answers) { forall r :: a.seen(r).Refused? ==> a.seen(r).code != "" }

  /** The Job and the outputs that justify a success. */
  ghost predicate Justified(prefix: (string, string, L.RunId) -> string, a: Answers, db: L.Db, r: L.RunId) {
    && r in db.runs && db.runs[r].release in db.releases && r in db.promised
    && a.seen(r).Job? && a.seen(r).state == E.Complete && db.runs[r].jobUid == Some(a.seen(r).uid)
    && var release := db.releases[db.runs[r].release];
       E.Evidence(db.promised[r], prefix(release.modelId, release.imageDigest, r), L.Rows(db, r))
  }

  predicate NewSuccess(before: L.Db, after: L.Db, r: L.RunId) {
    r in after.runs && after.runs[r].status == L.Succeeded && (r in before.runs ==> before.runs[r].status != L.Succeeded)
  }

  // ---- What a run becomes ----

  /** What a reconciliation starts from: the row, whether it matches its release, the entry promised and the output prefix. */
  datatype Case = Case(row: L.Run, matches: bool, entry: Invocation, prefix: string)

  ghost predicate HasCase(db: L.Db, r: L.RunId) { r in db.runs && db.runs[r].release in db.releases && r in db.promised }

  ghost function CaseOf(c: L.Config, prefix: (string, string, L.RunId) -> string, db: L.Db, r: L.RunId): Case
    requires HasCase(db, r)
  {
    var release := db.releases[db.runs[r].release];
    Case(db.runs[r], L.RunMatches(c, db, r), db.promised[r], prefix(release.modelId, release.imageDigest, r))
  }

  /** The row still runs, with the Job recorded. */
  function Waiting(row: L.Run, uid: string): L.Run { row.(jobUid := Some(uid)) }

  function FailedRow(row: L.Run, jobUid: Option<string>, code: string, at: int): L.Run {
    row.(status := L.Failed, failure := Some(code), finishedAt := Some(at), jobUid := jobUid)
  }

  function SucceededRow(row: L.Run, uid: string, at: int): L.Run {
    row.(status := L.Succeeded, finishedAt := Some(at), jobUid := Some(uid))
  }

  /** The row of `r` is `row`, and its artifacts are `files`. */
  predicate Became(now: L.Db, r: L.RunId, row: L.Run, files: seq<L.Artifact>) {
    r in now.runs && now.runs[r] == row && L.Rows(now, r) == files
  }

  /** What the outputs of a complete Job make of the run. */
  ghost predicate Collected(start: Case, uid: string, files: seq<L.Artifact>, now: L.Db, r: L.RunId, at: int) {
    if E.Evidence(start.entry, start.prefix, files) then Became(now, r, SucceededRow(start.row, uid, at), files)
    else if E.MissesOutput(start.entry, start.prefix, files)
    then Became(now, r, FailedRow(start.row, Some(uid), "required_outputs_missing", at), files)
    else Became(now, r, FailedRow(start.row, Some(uid), "outputs_empty", at), files)
  }

  /** The run became what its Job and its outputs say. */
  ghost predicate Answered(a: Answers, start: Case, now: L.Db, r: L.RunId, at: int) {
    if !start.matches then Became(now, r, FailedRow(start.row, start.row.jobUid, L.DEFINITION_CHANGED, at), [])
    else SaidSo(a, start, now, r, at)
  }

  ghost predicate SaidSo(a: Answers, start: Case, now: L.Db, r: L.RunId, at: int) {
    match a.seen(r)
    case Unavailable => false
    case Refused(code) => Became(now, r, FailedRow(start.row, start.row.jobUid, code, at), [])
    case Job(uid, state, reason) =>
      if start.row.jobUid != None && start.row.jobUid != Some(uid)
      then Became(now, r, FailedRow(start.row, start.row.jobUid, "job_identity_conflict", at), [])
      else
        match state
        case Active => Became(now, r, Waiting(start.row, uid), [])
        case Failed => Became(now, r, FailedRow(start.row, Some(uid), if reason != "" then reason else "job_failed", at), [])
        case Complete => a.listing(r).Listed? && L.DistinctKeys(a.listing(r).files) && Collected(start, uid, a.listing(r).files, now, r, at)
  }

  /** Nothing could be decided: no answer about the Job, or the Job recorded and no usable listing. */
  ghost predicate Undecided(a: Answers, start: Case, now: L.Db, r: L.RunId) {
    start.matches && match a.seen(r)
    case Unavailable => Became(now, r, start.row, [])
    case Refused(_) => false
    case Job(uid, state, _) =>
      && (start.row.jobUid == None || start.row.jobUid == Some(uid)) && state == E.Complete
      && (a.listing(r).Listed? ==> !L.DistinctKeys(a.listing(r).files))
      && Became(now, r, Waiting(start.row, uid), [])
  }

  /** The one event a run's end adds. */
  function EndEvents(r: L.RunId, row: L.Run): seq<L.Event> {
    if row.status == L.Succeeded then [L.Event(r, L.EndedWell)]
    else if row.status == L.Failed then [L.Event(r, L.EndedBadly)] else []
  }

  predicate OnlyRun(before: L.Db, after: L.Db, r: L.RunId) {
    && after.runs.Keys == before.runs.Keys && after.releases == before.releases && after.promised == before.promised
    && after.users == before.users && after.published == before.published && after.rejections == before.rejections
    && forall s :: s in before.runs && s != r ==> after.runs[s] == before.runs[s] && L.Rows(after, s) == L.Rows(before, s)
  }

  ghost predicate Advances(c: L.Config, before: L.Db, after: L.Db) { L.Inv(c, after) && L.Later(before, after) }

  lemma JustifiedLater(prefix: (string, string, L.RunId) -> string, a: Answers, db: L.Db, db': L.Db, r: L.RunId)
    requires L.Later(db, db') && Justified(prefix, a, db, r) && db.runs[r].Terminal()
    ensures Justified(prefix, a, db', r)
  {
    assert L.RunLater(db.runs[r], db'.runs[r]);
  }

  lemma OneStep(c: L.Config, db: L.Db, op: L.Op)
    requires L.Inv(c, db) && L.Commits(c, db, op) && L.Orderly(db, op)
    ensures Advances(c, db, L.Apply(c, db, op))
  {
    L.StepInv(c, db, op);
    L.StepMovesForward(c, db, op);
  }

  /** Recording the identity of a running run's Job. */
  lemma SavingAdvances(c: L.Config, db: L.Db, r: L.RunId, uid: string)
    requires L.Inv(c, db) && r in db.runs && db.runs[r].status == L.Running && L.Commits(c, db, L.SaveJobUid(r, uid))
    ensures var db' := L.Apply(c, db, L.SaveJobUid(r, uid));
            Advances(c, db, db') && OnlyRun(db, db', r) && Became(db', r, Waiting(db.runs[r], uid), []) && db'.outbox == db.outbox
  {
    OneStep(c, db, L.SaveJobUid(r, uid));
    assert L.RunInv(c, db, r);
  }

  /** Ending a running run. */
  lemma FinishingAdvances(c: L.Config, db: L.Db, r: L.RunId, failure: Option<string>, files: seq<L.Artifact>, at: int)
    requires L.Inv(c, db) && r in db.runs && db.runs[r].status == L.Running && L.DistinctKeys(files) && failure != Some("")
    ensures var db' := L.FinishRow(db, r, failure, files, at);
            Advances(c, db, db') && OnlyRun(db, db', r) && Ended(db, db', r, failure, files, at)
  {
    assert L.RunInv(c, db, r);
    assert L.Rows(db, r) + files == files;
    OneStep(c, db, L.Finish(r, failure, files, at));
    FinishedRow(db, r, failure, files, at);
  }

  lemma FinishedRow(db: L.Db, r: L.RunId, failure: Option<string>, files: seq<L.Artifact>, at: int)
    requires r in db.runs && db.runs[r].status == L.Running && L.Rows(db, r) == [] && db.runs[r].failure == None && failure != Some("")
    ensures var db' := L.FinishRow(db, r, failure, files, at);
            OnlyRun(db, db', r) && Ended(db, db', r, failure, files, at)
  {
    assert [] + files == files;
  }

  /** The run ended with this code, or without one. */
  predicate Ended(before: L.Db, after: L.Db, r: L.RunId, failure: Option<string>, files: seq<L.Artifact>, at: int) {
    && r in before.runs && r in after.runs && after.outbox == before.outbox + EndEvents(r, after.runs[r])
    && var row := before.runs[r].(finishedAt := Some(at));
       Became(after, r, if failure.Some? then row.(status := L.Failed, failure := failure) else row.(status := L.Succeeded), files)
  }

  lemma AdvancesTransitive(c: L.Config, a: L.Db, b: L.Db, d: L.Db)
    requires Advances(c, a, b) && Advances(c, b, d)
    ensures Advances(c, a, d)
  {
    L.LaterTransitive(a, b, d);
  }

  lemma StillThere(before: L.Db, after: L.Db, ids: set<L.RunId>)
    requires L.Later(before, after) && ids <= L.RunningRuns(before)
    ensures ids <= after.runs.Keys
  {
    forall r | r in ids ensures r in after.runs { assert r in L.RunningRuns(before) && r in before.runs; }
  }

  lemma AdvancesReflexive(c: L.Config, a: L.Db)
    requires L.Inv(c, a)
    ensures Advances(c, a, a)
  {
    L.LaterReflexive(a);
  }

  /** What one reconciliation of `r` does: everything, exactly. */
  ghost predicate Reconciled(c: L.Config, prefix: (string, string, L.RunId) -> string, a: Answers, before: L.Db, after: L.Db,
                             r: L.RunId, unavailable: bool, at: int) {
    && Advances(c, before, after) && OnlyRun(before, after, r)
    && if r in a.busy || r !in before.runs || before.runs[r].status != L.Running then after == before && !unavailable
       else
         && HasCase(before, r) && r in after.runs && after.outbox == before.outbox + EndEvents(r, after.runs[r])
         && if unavailable then Undecided(a, CaseOf(c, prefix, before, r), after, r)
            else Answered(a, CaseOf(c, prefix, before, r), after, r, at)
  }

  lemma RunningHasCase(c: L.Config, db: L.Db, r: L.RunId)
    requires L.Inv(c, db) && r in db.runs && db.runs[r].status == L.Running
    ensures HasCase(db, r) && db.runs[r].failure == None && L.Rows(db, r) == []
    ensures L.RunMatches(c, db, r) ==> db.promised[r] == db.releases[db.runs[r].release].modes[db.runs[r].mode]
  {
    assert L.RunInv(c, db, r);
  }

  /** The fingerprint recheck of a running run never fails, so what it becomes is what its Job says. */
  lemma RunningMatches(c: L.Config, prefix: (string, string, L.RunId) -> string, db: L.Db, r: L.RunId)
    requires L.Inv(c, db) && r in db.runs && db.runs[r].status == L.Running
    ensures HasCase(db, r) && CaseOf(c, prefix, db, r).matches
  {
    assert L.RunInv(c, db, r);
  }

  /** A new success has the complete Job recorded and its outputs stored. */
  lemma AnswerIsJustified(c: L.Config, prefix: (string, string, L.RunId) -> string, a: Answers, before: L.Db, now: L.Db, r: L.RunId, at: int)
    requires HasCase(before, r) && Answered(a, CaseOf(c, prefix, before, r), now, r, at) && now.runs[r].status == L.Succeeded
    requires before.runs[r].status == L.Running && now.releases == before.releases && now.promised == before.promised
    ensures Justified(prefix, a, now, r)
  {
  }

  lemma AfterRecording(c: L.Config, prefix: (string, string, L.RunId) -> string, a: Answers, before: L.Db, middle: L.Db, after: L.Db,
                       r: L.RunId, unavailable: bool, at: int)
    requires Advances(c, before, middle) && OnlyRun(before, middle, r) && Reconciled(c, prefix, a, middle, after, r, unavailable, at)
    requires r in before.runs && before.runs[r].status == L.Running && r !in a.busy && a.seen(r).Job?
    requires before.runs[r].jobUid == None || before.runs[r].jobUid == Some(a.seen(r).uid)
    requires HasCase(before, r) && L.RunMatches(c, before, r) && middle.outbox == before.outbox
    requires Became(middle, r, Waiting(before.runs[r], a.seen(r).uid), [])
    ensures Reconciled(c, prefix, a, before, after, r, unavailable, at)
  {
    AdvancesTransitive(c, before, middle, after);
    assert CaseOf(c, prefix, middle, r) == CaseOf(c, prefix, before, r).(row := middle.runs[r]);
  }

  // ---- Many runs ----

  predicate Same(before: L.Db, now: L.Db, s: L.RunId) {
    s in before.runs && s in now.runs && now.runs[s] == before.runs[s] && L.Rows(now, s) == L.Rows(before, s)
  }

  /** Nothing but these runs changed. */
  predicate OnlyThese(before: L.Db, now: L.Db, ids: set<L.RunId>) {
    && now.runs.Keys == before.runs.Keys && now.releases == before.releases && now.promised == before.promised
    && forall s :: s in before.runs && s !in ids ==> Same(before, now, s)
  }

  /** A free run has its answer; one that another worker holds is as it was. */
  ghost predicate Treated(c: L.Config, prefix: (string, string, L.RunId) -> string, a: Answers, before: L.Db, now: L.Db, r: L.RunId, at: int) {
    if r in a.busy then Same(before, now, r) else HasCase(before, r) && Answered(a, CaseOf(c, prefix, before, r), now, r, at)
  }

  ghost predicate LeftOpen(c: L.Config, prefix: (string, string, L.RunId) -> string, a: Answers, before: L.Db, now: L.Db, r: L.RunId) {
    r !in a.busy && HasCase(before, r) && Undecided(a, CaseOf(c, prefix, before, r), now, r)
  }

  /** Where recovery stands: the runs `done` are treated, at most `open` was left undecided, and nothing else changed. */
  ghost predicate Recovering(c: L.Config, prefix: (string, string, L.RunId) -> string, a: Answers, before: L.Db, now: L.Db,
                             done: set<L.RunId>, open: set<L.RunId>, at: int) {
    && Advances(c, before, now) && OnlyThese(before, now, done + open) && done + open <= L.RunningRuns(before)
    && (forall r :: r in done ==> Treated(c, prefix, a, before, now, r, at))
    && (forall r :: r in open ==> LeftOpen(c, prefix, a, before, now, r))
  }

  lemma RecoveryBegins(c: L.Config, prefix: (string, string, L.RunId) -> string, a: Answers, db: L.Db, at: int)
    requires L.Inv(c, db)
    ensures Recovering(c, prefix, a, db, db, {}, {}, at)
  {
    AdvancesReflexive(c, db);
  }

  /** What became of a run stays when another run is reconciled or claimed. */
  lemma TreatedStays(c: L.Config, prefix: (string, string, L.RunId) -> string, a: Answers, before: L.Db, middle: L.Db, after: L.Db,
                     r: L.RunId, at: int)
    requires Treated(c, prefix, a, before, middle, r, at) && Same(middle, after, r)
    ensures Treated(c, prefix, a, before, after, r, at)
  {
  }

  /** A reconciliation of an untouched run is one from the start. */
  lemma TreatsFromStart(c: L.Config, prefix: (string, string, L.RunId) -> string, a: Answers, before: L.Db, middle: L.Db, after: L.Db,
                        r: L.RunId, unavailable: bool, at: int)
    requires Reconciled(c, prefix, a, middle, after, r, unavailable, at) && r in L.RunningRuns(before) && Same(before, middle, r)
    requires middle.releases == before.releases && middle.promised == before.promised
    ensures if unavailable then LeftOpen(c, prefix, a, before, after, r) else Treated(c, prefix, a, before, after, r, at)
  {
    if r !in a.busy { assert CaseOf(c, prefix, middle, r) == CaseOf(c, prefix, before, r); }
  }

  /** One turn of the recovery loop. */
  lemma RecoverStep(c: L.Config, prefix: (string, string, L.RunId) -> string, a: Answers, before: L.Db, middle: L.Db, after: L.Db,
                    done: set<L.RunId>, r: L.RunId, unavailable: bool, at: int)
    requires Recovering(c, prefix, a, before, middle, done, {}, at) && r in L.RunningRuns(before) && r !in done
    requires Reconciled(c, prefix, a, middle, after, r, unavailable, at)
    ensures if unavailable then Recovering(c, prefix, a, before, after, done, {r}, at)
            else Recovering(c, prefix, a, before, after, done + {r}, {}, at)
  {
    assert Same(before, middle, r);
    AdvancesTransitive(c, before, middle, after);
    TreatsFromStart(c, prefix, a, before, middle, after, r, unavailable, at);
    forall s | s in done ensures Treated(c, prefix, a, before, after, s, at) {
      assert s in before.runs.Keys && s != r;
      TreatedStays(c, prefix, a, before, middle, after, s, at);
    }
    forall s | s in before.runs && s !in done + {r} ensures Same(before, after, s) { assert Same(before, middle, s); }
  }

  lemma RecoveryStartsNothing(c: L.Config, prefix: (string, string, L.RunId) -> string, a: Answers, before: L.Db, now: L.Db,
                              done: set<L.RunId>, open: set<L.RunId>, at: int)
    requires Recovering(c, prefix, a, before, now, done, open, at)
    ensures L.RunningRuns(now) <= L.RunningRuns(before)
    ensures forall s :: s in before.runs && before.runs[s].status != L.Running ==> Same(before, now, s)
  {
    forall s | s in L.RunningRuns(now) ensures s in L.RunningRuns(before) {
      assert s in before.runs.Keys;
      if s !in done + open { assert Same(before, now, s); }
    }
    forall s | s in before.runs && before.runs[s].status != L.Running ensures Same(before, now, s) {
      assert s !in done + open;
    }
  }

  /** Waiting runs wait in the same order. */
  lemma SameNext(before: L.Db, now: L.Db, r: L.RunId)
    requires L.IsNext(now, r) && now.runs.Keys == before.runs.Keys
    requires forall s :: s in before.runs && before.runs[s].status != L.Running ==> Same(before, now, s)
    requires r in before.runs && before.runs[r].status != L.Running
    ensures L.IsNext(before, r)
  {
    forall s | s in before.runs && before.runs[s].Dispatchable() ensures L.NotAfter(before, r, s) {
      assert Same(before, now, s) && Same(before, now, r);
    }
  }

  /** Every success since `before` is justified. */
  ghost predicate Ticked(prefix: (string, string, L.RunId) -> string, a: Answers, before: L.Db, after: L.Db) {
    forall r :: NewSuccess(before, after, r) ==> Justified(prefix, a, after, r)
  }

  lemma RecoveryIsJustified(c: L.Config, prefix: (string, string, L.RunId) -> string, a: Answers, before: L.Db, now: L.Db,
                            done: set<L.RunId>, open: set<L.RunId>, at: int)
    requires Recovering(c, prefix, a, before, now, done, open, at)
    ensures Ticked(prefix, a, before, now)
  {
    forall r | r in before.runs && r !in done ensures !NewSuccess(before, now, r) {
      OpenIsNoSuccess(c, prefix, a, before, now, done, open, r, at);
    }
    forall r | NewSuccess(before, now, r) ensures Justified(prefix, a, now, r) {
      assert r in before.runs.Keys;
      assert Treated(c, prefix, a, before, now, r, at) && r in L.RunningRuns(before);
      AnswerIsJustified(c, prefix, a, before, now, r, at);
    }
  }

  lemma OpenIsNoSuccess(c: L.Config, prefix: (string, string, L.RunId) -> string, a: Answers, before: L.Db, now: L.Db,
                        done: set<L.RunId>, open: set<L.RunId>, r: L.RunId, at: int)
    requires Recovering(c, prefix, a, before, now, done, open, at) && r in before.runs && r !in done
    ensures !NewSuccess(before, now, r)
  {
    assert r in open ==> LeftOpen(c, prefix, a, before, now, r) && r in L.RunningRuns(before);
    assert r !in open ==> Same(before, now, r);
  }

  /** The row of a run that has just been given a slot. */
  function StartedRow(row: L.Run, namespace: string, at: int): L.Run {
    row.(status := L.Running, dispatchedAt := Some(at), namespace := Some(namespace))
  }

  /** The run just started became what its first reconciliation made of it. */
  ghost predicate Began(c: L.Config, prefix: (string, string, L.RunId) -> string, a: Answers, before: L.Db, after: L.Db,
                        r: L.RunId, namespace: string, unavailable: bool, at: int) {
    && HasCase(before, r)
    && var start := CaseOf(c, prefix, before, r).(row := StartedRow(before.runs[r], namespace, at));
       if r in a.busy then Became(after, r, start.row, [])
       else if unavailable then Undecided(a, start, after, r) else Answered(a, start, after, r, at)
  }

  lemma ClaimAdvances(c: L.Config, db: L.Db, r: L.RunId, namespace: string, at: int)
    requires L.Inv(c, db) && L.Commits(c, db, L.Claim(r, namespace, at))
    ensures var db' := L.ClaimRun(c, db, r, namespace, at);
            Advances(c, db, db') && OnlyRun(db, db', r) && Became(db', r, StartedRow(db.runs[r], namespace, at), [])
  {
    OneStep(c, db, L.Claim(r, namespace, at));
    L.ClaimAlwaysStarts(c, db, r, namespace, at);
    assert L.RunInv(c, db, r);
  }

  lemma BeginsFromStart(c: L.Config, prefix: (string, string, L.RunId) -> string, a: Answers, before: L.Db, claimed: L.Db, after: L.Db,
                        r: L.RunId, namespace: string, unavailable: bool, at: int)
    requires r in before.runs && before.runs[r].Dispatchable() && L.Inv(c, claimed)
    requires claimed.releases == before.releases && claimed.promised == before.promised
    requires Became(claimed, r, StartedRow(before.runs[r], namespace, at), [])
    requires Reconciled(c, prefix, a, claimed, after, r, unavailable, at)
    ensures Began(c, prefix, a, before, after, r, namespace, unavailable, at)
  {
    RunningHasCase(c, claimed, r);
    assert CaseOf(c, prefix, claimed, r) == CaseOf(c, prefix, before, r).(row := StartedRow(before.runs[r], namespace, at));
  }

  /** What a tick comes to: the runs `done` are treated, `started` began, and no run that was not running changed otherwise. */
  ghost predicate Ticking(c: L.Config, prefix: (string, string, L.RunId) -> string, a: Answers, before: L.Db, after: L.Db,
                          done: set<L.RunId>, started: Option<L.RunId>, namespace: string, unavailable: bool, at: int) {
    && Advances(c, before, after) && done <= L.RunningRuns(before)
    && (forall r :: r in done ==> Treated(c, prefix, a, before, after, r, at))
    && (forall s :: s in before.runs && before.runs[s].status != L.Running && started != Some(s) ==> Same(before, after, s))
    && (started.Some? ==>
          L.IsNext(before, started.value) && Began(c, prefix, a, before, after, started.value, namespace, unavailable, at))
    && (started.None? ==> Ticked(prefix, a, before, after))
  }

  ghost predicate GaveSlot(c: L.Config, middle: L.Db, claimed: L.Db, r: L.RunId, namespace: string, at: int) {
    L.IsNext(middle, r) && L.Commits(c, middle, L.Claim(r, namespace, at)) && claimed == L.ClaimRun(c, middle, r, namespace, at)
  }

  lemma GaveSlotKeeps(c: L.Config, middle: L.Db, claimed: L.Db, r: L.RunId, namespace: string, at: int)
    requires L.Inv(c, middle) && GaveSlot(c, middle, claimed, r, namespace, at)
    ensures L.Inv(c, claimed)
  {
    ClaimAdvances(c, middle, r, namespace, at);
  }

  /** No slot is free, or no run waits for one. */
  ghost predicate NoneToStart(c: L.Config, db: L.Db) {
    |L.RunningRuns(db)| >= c.capacity || forall s :: s in db.runs ==> !db.runs[s].Dispatchable()
  }

  lemma RecoveryTicks(c: L.Config, prefix: (string, string, L.RunId) -> string, a: Answers, before: L.Db, now: L.Db,
                      done: set<L.RunId>, open: set<L.RunId>, namespace: string, unavailable: bool, at: int)
    requires Recovering(c, prefix, a, before, now, done, open, at)
    ensures Ticking(c, prefix, a, before, now, done, None, namespace, unavailable, at)
  {
    RecoveryStartsNothing(c, prefix, a, before, now, done, open, at);
    RecoveryIsJustified(c, prefix, a, before, now, done, open, at);
  }

  /** The second half of `tick`: a slot was given away and the run reconciled. */
  lemma TickEnds(c: L.Config, prefix: (string, string, L.RunId) -> string, a: Answers, before: L.Db, middle: L.Db, claimed: L.Db,
                 after: L.Db, done: set<L.RunId>, r: L.RunId, namespace: string, unavailable: bool, at: int)
    requires Recovering(c, prefix, a, before, middle, done, {}, at)
    requires GaveSlot(c, middle, claimed, r, namespace, at)
    requires Reconciled(c, prefix, a, claimed, after, r, unavailable, at)
    ensures Ticking(c, prefix, a, before, after, done, Some(r), namespace, unavailable, at)
  {
    RecoveryStartsNothing(c, prefix, a, before, middle, done, {}, at);
    ClaimAdvances(c, middle, r, namespace, at);
    AdvancesTransitive(c, before, middle, claimed);
    AdvancesTransitive(c, before, claimed, after);
    WasWaiting(c, before, middle, r);
    SameNext(before, middle, r);
    BeginsFromStart(c, prefix, a, before, claimed, after, r, namespace, unavailable, at);
    forall s | s in before.runs && s != r ensures Same(middle, after, s) { SameTwice(middle, claimed, after, r, s); }
    forall s | s in done ensures Treated(c, prefix, a, before, after, s, at) {
      assert s in L.RunningRuns(before) && s in before.runs.Keys;
      TreatedStays(c, prefix, a, before, middle, after, s, at);
    }
    forall s | s in before.runs && before.runs[s].status != L.Running && s != r ensures Same(before, after, s) {
      assert Same(before, middle, s) && Same(middle, after, s);
    }
  }

  lemma SameTwice(middle: L.Db, claimed: L.Db, after: L.Db, r: L.RunId, s: L.RunId)
    requires OnlyRun(middle, claimed, r) && OnlyRun(claimed, after, r) && s in middle.runs && s != r
    ensures Same(middle, after, s)
  {
    assert s in claimed.runs.Keys;
  }

  lemma WasWaiting(c: L.Config, before: L.Db, middle: L.Db, r: L.RunId)
    requires L.Later(before, middle) && middle.runs.Keys == before.runs.Keys && r in middle.runs && middle.runs[r].Dispatchable()
    ensures r in before.runs && before.runs[r].status != L.Running
  {
    assert r in before.runs.Keys;
    assert L.RunLater(before.runs[r], middle.runs[r]);
  }

  class Executions {
    const database: Database
    const namespace: string
    const prefix: (string, string, L.RunId) -> string

    constructor (database: Database, namespace: string, prefix: (string, string, L.RunId) -> string)
      ensures this.database == database && this.namespace == namespace && this.prefix == prefix
    {
      this.database := database;
      this.namespace := namespace;
      this.prefix := prefix;
    }

    /** `finish`; a key listed twice violates a constraint and rolls back. */
    method Finish(r: L.RunId, failure: Option<string>, files: seq<L.Artifact>, at: int) returns (unavailable: bool)
      requires L.Inv(database.config, database.Contents()) && r in database.runs && database.runs[r].status == L.Running
      requires failure != Some("")
      modifies database
      ensures Advances(database.config, old(database.Contents()), database.Contents())
      ensures OnlyRun(old(database.Contents()), database.Contents(), r)
      ensures unavailable <==> !L.DistinctKeys(files)
      ensures unavailable ==> database.Contents() == old(database.Contents())
      ensures !unavailable ==> Ended(old(database.Contents()), database.Contents(), r, failure, files, at)
    {
      if !L.DistinctKeys(files) {
        AdvancesReflexive(database.config, database.Contents());
        return true;
      }
      FinishingAdvances(database.config, database.Contents(), r, failure, files, at);
      database.FinishRow(r, failure, files, at);
      return false;
    }

    /** The run's Job is recorded: keep waiting, or end the run as the Job and its outputs say. */
    method Conclude(a: Answers, r: L.RunId, at: int) returns (unavailable: bool)
      requires L.Inv(database.config, database.Contents()) && Sensible(a) && a.seen(r).Job? && r !in a.busy
      requires r in database.runs && database.runs[r].status == L.Running && L.RunMatches(database.config, database.Contents(), r)
      requires database.runs[r].jobUid == Some(a.seen(r).uid)
      modifies database
      ensures Reconciled(database.config, prefix, a, old(database.Contents()), database.Contents(), r, unavailable, at)
    {
      AdvancesReflexive(database.config, database.Contents());
      RunningHasCase(database.config, database.Contents(), r);
      var Job(_, state, reason) := a.seen(r);
      if state == E.Active { return false; }
      if state == E.Failed {
        unavailable := Finish(r, Some(if reason != "" then reason else "job_failed"), [], at);
        return;
      }
      var listing := a.listing(r);
      if listing.NoListing? { return true; }
      var release := database.releases[database.runs[r].release];
      var entry := release.modes[database.runs[r].mode];
      var p := prefix(release.modelId, release.imageDigest, r);
      var failure := E.Collect(entry, p, listing.files);
      E.CollectExactly(entry, p, listing.files);
      E.CollectAcceptsEvidence(entry, p, listing.files);
      unavailable := Finish(r, failure, listing.files, at);
    }

    /** What `reconcile` does once the run's Job has been seen: record its identity first. */
    method Record(a: Answers, r: L.RunId, at: int) returns (unavailable: bool)
      requires L.Inv(database.config, database.Contents()) && Sensible(a) && a.seen(r).Job? && r !in a.busy
      requires r in database.runs && database.runs[r].status == L.Running && L.RunMatches(database.config, database.Contents(), r)
      modifies database
      ensures Reconciled(database.config, prefix, a, old(database.Contents()), database.Contents(), r, unavailable, at)
    {
      ghost var before := database.Contents();
      var uid := a.seen(r).uid;
      RunningHasCase(database.config, before, r);
      if L.Commits(database.config, before, L.SaveJobUid(r, uid)) { SavingAdvances(database.config, before, r, uid); }
      var saved := database.SaveJobUid(r, uid);
      if !saved {
        unavailable := Finish(r, Some("job_identity_conflict"), [], at);
        return;
      }
      ghost var recorded := database.Contents();
      unavailable := Conclude(a, r, at);
      AfterRecording(database.config, prefix, a, before, recorded, database.Contents(), r, unavailable, at);
    }

    /** `reconcile`: one run under its lock becomes what its Job and its outputs say, and nobody else's run changes. */
    method Reconcile(a: Answers, r: L.RunId, at: int) returns (unavailable: bool)
      requires L.Inv(database.config, database.Contents()) && Sensible(a)
      modifies database
      ensures Reconciled(database.config, prefix, a, old(database.Contents()), database.Contents(), r, unavailable, at)
    {
      AdvancesReflexive(database.config, database.Contents());
      if r in a.busy { return false; }
      if r !in database.runs || database.runs[r].status != L.Running { return false; }
      RunningHasCase(database.config, database.Contents(), r);
      var row := database.runs[r];
      var matches := row.release in database.releases
                     && L.Matches(database.config, database.releases[row.release], row.mode, row.fingerprint);
      if !matches {
        unavailable := Finish(r, Some(L.DEFINITION_CHANGED), [], at);
        return;
      }
      match a.seen(r) {
        case Unavailable => return true;
        case Refused(code) => unavailable := Finish(r, Some(code), [], at);
        case Job(_, _, _) => unavailable := Record(a, r, at);
      }
    }

    /** One turn of recovery: the oldest of the runs still to do. */
    method RecoverOldest(a: Answers, at: int, todo: set<L.RunId>, ghost before: L.Db, ghost done: set<L.RunId>)
      returns (rest: set<L.RunId>, unavailable: bool, ghost done': set<L.RunId>, ghost open: set<L.RunId>)
      requires Recovering(database.config, prefix, a, before, database.Contents(), done, {}, at) && Sensible(a)
      requires todo != {} && todo !! done && todo + done == L.RunningRuns(before)
      modifies database
      ensures Recovering(database.config, prefix, a, before, database.Contents(), done', open, at)
      ensures !unavailable ==> open == {} && rest < todo && rest !! done' && rest + done' == L.RunningRuns(before)
    {
      ghost var middle := database.Contents();
      StillThere(before, middle, todo);
      var r := database.Oldest(todo);
      unavailable := Reconcile(a, r, at);
      RecoverStep(database.config, prefix, a, before, middle, database.Contents(), done, r, unavailable, at);
      rest := todo - {r};
      done', open := if unavailable then done else done + {r}, if unavailable then {r} else {};
    }

    /** The first half of `tick`: every running run, oldest first, until something is unavailable. */
    method RecoverAll(a: Answers, at: int) returns (unavailable: bool, ghost done: set<L.RunId>, ghost open: set<L.RunId>)
      requires L.Inv(database.config, database.Contents()) && Sensible(a)
      modifies database
      ensures Recovering(database.config, prefix, a, old(database.Contents()), database.Contents(), done, open, at)
      ensures !unavailable ==> done == L.RunningRuns(old(database.Contents())) && open == {}
    {
      ghost var before := database.Contents();
      RecoveryBegins(database.config, prefix, a, before, at);
      unavailable, done, open := false, {}, {};
      var todo := set r | r in database.runs && database.runs[r].status == L.Running;
      assert todo == L.RunningRuns(before);
      while todo != {}
        invariant todo !! done && todo + done == L.RunningRuns(before) && open == {}
        invariant Recovering(database.config, prefix, a, before, database.Contents(), done, open, at)
        decreases todo
      {
        todo, unavailable, done, open := RecoverOldest(a, at, todo, before, done);
        if unavailable { return; }
      }
    }

    method ClaimSlot(at: int) returns (next: Option<L.RunId>)
      requires L.Inv(database.config, database.Contents())
      modifies database
      ensures next.None? ==> database.Contents() == old(database.Contents()) && NoneToStart(database.config, database.Contents())
      ensures next.Some? ==> GaveSlot(database.config, old(database.Contents()), database.Contents(), next.value, namespace, at)
    {
      next := database.ClaimNext(namespace, at);
    }

    method Begin(a: Answers, at: int, ghost before: L.Db, ghost middle: L.Db, ghost done: set<L.RunId>, r: L.RunId)
      returns (unavailable: bool)
      requires Recovering(database.config, prefix, a, before, middle, done, {}, at) && Sensible(a)
      requires L.Inv(database.config, database.Contents()) && GaveSlot(database.config, middle, database.Contents(), r, namespace, at)
      modifies database
      ensures Ticking(database.config, prefix, a, before, database.Contents(), done, Some(r), namespace, unavailable, at)
    {
      ghost var claimed := database.Contents();
      unavailable := Reconcile(a, r, at);
      TickEnds(database.config, prefix, a, before, middle, claimed, database.Contents(), done, r, namespace, unavailable, at);
    }

    /** The second half: a slot for the next in line, if there is one of each. */
    method GiveSlot(a: Answers, at: int, ghost before: L.Db, ghost done: set<L.RunId>) returns (unavailable: bool, started: Option<L.RunId>)
      requires Recovering(database.config, prefix, a, before, database.Contents(), done, {}, at) && Sensible(a)
      modifies database
      ensures Ticking(database.config, prefix, a, before, database.Contents(), done, started, namespace, unavailable, at)
      ensures started.None? ==> !unavailable && NoneToStart(database.config, database.Contents())
    {
      ghost var middle := database.Contents();
      RecoveryTicks(database.config, prefix, a, before, middle, done, {}, namespace, false, at);
      unavailable := false;
      started := ClaimSlot(at);
      if started.Some? {
        GaveSlotKeeps(database.config, middle, database.Contents(), started.value, namespace, at);
        unavailable := Begin(a, at, before, middle, done, started.value);
      }
    }

    /**
     * `tick`: existing work is recovered before a slot is given away, and then at most one run starts, the next in line.
     * Every running run treated became what its Job says; other runs are as they were.
     */
    method Tick(a: Answers, at: int) returns (unavailable: bool, started: Option<L.RunId>, ghost done: set<L.RunId>)
      requires L.Inv(database.config, database.Contents()) && Sensible(a)
      modifies database
      ensures Ticking(database.config, prefix, a, old(database.Contents()), database.Contents(), done, started, namespace, unavailable, at)
      ensures !unavailable || started.Some? ==> done == L.RunningRuns(old(database.Contents()))
      ensures !unavailable && started.None? ==> NoneToStart(database.config, database.Contents())
    {
      ghost var before, open := database.Contents(), {};
      started := None;
      unavailable, done, open := RecoverAll(a, at);
      RecoveryTicks(database.config, prefix, a, before, database.Contents(), done, open, namespace, unavailable, at);
      if unavailable { return; }
      unavailable, started := GiveSlot(a, at, before, done);
    }
  }
}

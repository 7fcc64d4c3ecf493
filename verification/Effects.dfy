/** What each committed operation does to the database, row by row: what changes, how, and that nothing else does. */
module Effects {
  import opened Basics
  import opened Catalog
  import opened Ledger

  /** Nothing of any other run differs. */
  predicate OthersSame(db: Db, db': Db, r: RunId) {
    && db'.runs.Keys == db.runs.Keys + {r}
    && forall s :: s in db.runs && s != r ==> db'.runs[s] == db.runs[s] && Rows(db', s) == Rows(db, s)
  }

  /** The tables beside runs, artifacts, outbox and what acceptance promised. */
  predicate SidesSame(db: Db, db': Db) {
    db'.users == db.users && db'.releases == db.releases && db'.published == db.published && db'.rejections == db.rejections
  }

  /** Only the row of `r` changed, to `row`, and no event was added. */
  predicate OnlyRow(db: Db, db': Db, r: RunId, row: Run) {
    OthersSame(db, db', r) && SidesSame(db, db') && r in db'.runs && db'.runs[r] == row && Rows(db', r) == Rows(db, r)
    && db'.outbox == db.outbox
  }

  /** The run still waits, accepted at this time under the entry its release has. */
  predicate Accepts(db: Db, db': Db, r: RunId, at: int) {
    && r in db.runs && OnlyRow(db, db', r, db.runs[r].(acceptedAt := Some(at)))
    && db.runs[r].release in db.releases && db.runs[r].mode in db.releases[db.runs[r].release].modes
    && db'.promised == db.promised[r := db.releases[db.runs[r].release].modes[db.runs[r].mode]]
  }

  /** The run ended with this code or without one, with these artifacts and one event. */
  predicate Ends(db: Db, db': Db, r: RunId, failure: Option<string>, files: seq<Artifact>, at: int) {
    && r in db.runs && r in db'.runs && OthersSame(db, db', r) && SidesSame(db, db') && db'.promised == db.promised
    && db'.runs[r] == db.runs[r].(status := if failure.Some? then Failed else Succeeded, failure := failure, finishedAt := Some(at))
    && Rows(db', r) == Rows(db, r) + files
    && db'.outbox == db.outbox + [Event(r, if failure.Some? then EndedBadly else EndedWell)]
  }

  predicate Rejects(db: Db, db': Db, at: Location, rejection: Rejection) { db' == db.(rejections := db.rejections[at := rejection]) }

  lemma FinishEffect(c: Config, db: Db, r: RunId, failure: Option<string>, files: seq<Artifact>, at: int)
    requires Commits(c, db, Finish(r, failure, files, at)) && failure != Some("")
    ensures var db' := Apply(c, db, Finish(r, failure, files, at));
            if db.runs[r].Terminal() then db' == db else Ends(db, db', r, failure, files, at)
  {
  }

  /** Acceptance: a settled run stays, a matching one is accepted, any other fails for its definition. */
  lemma AcceptEffect(c: Config, db: Db, r: RunId, at: int)
    requires Commits(c, db, Accept(r, at))
    ensures var db' := Apply(c, db, Accept(r, at));
            if db.runs[r].Settled() then db' == db
            else if RunMatches(c, db, r) then Accepts(db, db', r, at)
            else Ends(db, db', r, Some(DEFINITION_CHANGED), [], at)
  {
    if !db.runs[r].Settled() && !RunMatches(c, db, r) {
      assert Rows(db, r) + [] == Rows(db, r);
    }
  }

  /** A claim of a valid database gives the run its slot, in the given namespace. */
  lemma ClaimEffect(c: Config, db: Db, r: RunId, namespace: string, at: int)
    requires Inv(c, db) && Commits(c, db, Claim(r, namespace, at))
    ensures var db' := Apply(c, db, Claim(r, namespace, at));
            OnlyRow(db, db', r, db.runs[r].(status := Running, dispatchedAt := Some(at), namespace := Some(namespace)))
            && db'.promised == db.promised
  {
    ClaimAlwaysStarts(c, db, r, namespace, at);
  }

  /** The identity is recorded in a running row, and in no other. */
  lemma SaveJobUidEffect(c: Config, db: Db, r: RunId, uid: string)
    requires Commits(c, db, SaveJobUid(r, uid))
    ensures var db' := Apply(c, db, SaveJobUid(r, uid));
            if db.runs[r].status == Running then OnlyRow(db, db', r, db.runs[r].(jobUid := Some(uid))) && db'.promised == db.promised
            else db' == db
  {
  }

  /** A submission stores a waiting run as given and one request event. */
  lemma SubmitEffect(c: Config, db: Db, op: Op)
    requires op.Submit? && Commits(c, db, op)
    ensures var db' := Apply(c, db, op);
            && op.run !in db.runs && OthersSame(db, db', op.run) && SidesSame(db, db') && db'.promised == db.promised
            && op.run in db'.runs && Rows(db', op.run) == Rows(db, op.run) && db'.outbox == db.outbox + [Event(op.run, Requested)]
            && var run := db'.runs[op.run];
               && run.release == op.release && run.owner == op.owner && run.mode == op.mode && run.fingerprint == op.fingerprint
               && run.createdAt == op.at && run.status == Queued && !run.Accepted()
               && run.dispatchedAt == None && run.finishedAt == None && run.failure == None && run.namespace == None && run.jobUid == None
  {
  }

  /** A registration that goes through stores exactly the given modes, under the same model and image, and nothing else. */
  lemma RegisterEffect(c: Config, db: Db, op: Op)
    requires op.Register? && Commits(c, db, op)
    ensures var db' := Apply(c, db, op);
            && op.id in db'.releases && db'.releases[op.id].modes == op.modes
            && db'.releases[op.id].modelId == op.modelId && db'.releases[op.id].imageDigest == op.imageDigest
            && db'.releases.Keys == db.releases.Keys + {op.id}
            && (forall i :: i in db.releases && i != op.id ==> db'.releases[i] == db.releases[i])
            && db'.(releases := db.releases) == db
  {
  }

  /** A rejection is stored at a free location and nowhere else. */
  lemma RejectEffect(c: Config, db: Db, at: Location, rejection: Rejection)
    requires Commits(c, db, Reject(at, rejection))
    ensures var db' := Apply(c, db, Reject(at, rejection));
            if at in db.rejections then db' == db else Rejects(db, db', at, rejection)
  {
  }

  /** Admission is refused exactly at a limit. */
  lemma AdmissionExactly(c: Config, db: Db, op: Op)
    requires op.Submit? && op.run !in db.runs && op.release in db.releases && (op.owner.Some? ==> op.owner.value in db.users)
    ensures Commits(c, db, op) <==>
            op.limits == None
            || (|OwnedActive(db, op.owner)| < op.limits.value.perUser && |ActiveRuns(db)| < op.limits.value.total)
  {
  }
}

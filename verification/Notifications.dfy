/** From committed transactions to feed batches: the notification trigger and the listener's loop. */
module Notifications {
  import opened Basics
  import opened Uuids
  import opened Wire
  import L = Ledger
  import S = FeedSpec
  import P = FeedProtocol

  // ---- The trigger ----

  /** What a client can read of a run: the row's public columns and its files. */
  datatype View = View(
    release: L.ReleaseId, owner: Option<L.UserId>, mode: string, createdAt: int, status: L.Status,
    acceptedAt: Option<int>, dispatchedAt: Option<int>, finishedAt: Option<int>, failure: Option<string>,
    files: seq<L.Artifact>)

  function ViewOf(db: L.Db, r: L.RunId): View
    requires r in db.runs
  {
    var run := db.runs[r];
    View(run.release, run.owner, run.mode, run.createdAt, run.status, run.acceptedAt, run.dispatchedAt, run.finishedAt,
         run.failure, L.Rows(db, r))
  }

  /** The trigger's row comparison: an update of none of these columns is silent. */
  predicate RowDistinct(a: L.Run, b: L.Run) {
    || a.release != b.release || a.owner != b.owner || a.mode != b.mode || a.createdAt != b.createdAt
    || a.status != b.status || a.acceptedAt != b.acceptedAt || a.dispatchedAt != b.dispatchedAt
    || a.finishedAt != b.finishedAt || a.failure != b.failure
  }

  predicate RowNotifies(before: L.Db, after: L.Db, r: L.RunId) {
    r in after.runs && (r in before.runs ==> RowDistinct(before.runs[r], after.runs[r]))
  }

  /** Artifact rows are only ever added, and carry no owner. */
  predicate FilesNotify(before: L.Db, after: L.Db, r: L.RunId) { |L.Rows(before, r)| < |L.Rows(after, r)| }

  /** The owners named by the notifications about one run that a commit sends; equal payloads are sent once. */
  function Sent(before: L.Db, after: L.Db, r: L.RunId): seq<Option<L.UserId>> {
    var fromRow := if RowNotifies(before, after, r) then [after.runs[r].owner] else [];
    if FilesNotify(before, after, r) && None !in fromRow then fromRow + [None] else fromRow
  }

  /** The only run whose rows an operation can touch. */
  function Touched(op: L.Op): Option<L.RunId> {
    match op
    case Submit(r, _, _, _, _, _, _) => Some(r)
    case Accept(r, _) => Some(r)
    case Claim(r, _, _) => Some(r)
    case SaveJobUid(r, _) => Some(r)
    case Finish(r, _, _, _) => Some(r)
    case _ => None
  }

  /** The run was added, or what can be read of it changed. */
  predicate Changed(before: L.Db, after: L.Db, r: L.RunId) {
    r in after.runs && (r in before.runs ==> ViewOf(before, r) != ViewOf(after, r))
  }

  lemma OthersUntouched(c: L.Config, db: L.Db, op: L.Op, r: L.RunId)
    requires L.Commits(c, db, op) && Touched(op) != Some(r)
    ensures var db' := L.Apply(c, db, op);
            (r in db'.runs <==> r in db.runs) && (r in db.runs ==> db'.runs[r] == db.runs[r]) && L.Rows(db', r) == L.Rows(db, r)
  {
    match op
    case Accept(q, at) => FinishLeaves(db, q, Some(L.DEFINITION_CHANGED), [], at, r);
    case Claim(q, _, at) => FinishLeaves(db, q, Some(L.DEFINITION_CHANGED), [], at, r);
    case Finish(q, failure, files, at) => FinishLeaves(db, q, failure, files, at, r);
    case _ =>
  }

  lemma FinishLeaves(db: L.Db, q: L.RunId, failure: Option<string>, files: seq<L.Artifact>, at: int, r: L.RunId)
    requires q in db.runs && r != q
    ensures var db' := L.FinishRow(db, q, failure, files, at);
            (r in db'.runs <==> r in db.runs) && (r in db.runs ==> db'.runs[r] == db.runs[r]) && L.Rows(db', r) == L.Rows(db, r)
  {
  }

  lemma FilesOnlyAdded(c: L.Config, db: L.Db, op: L.Op, r: L.RunId)
    requires L.Commits(c, db, op)
    ensures L.Rows(L.Apply(c, db, op), r) == L.Rows(db, r) || FilesNotify(db, L.Apply(c, db, op), r)
  {
    match op
    case Finish(s, failure, artifacts, at) => if artifacts == [] { assert L.Rows(db, s) + artifacts == L.Rows(db, s); }
    case Accept(s, at) => assert L.Rows(db, s) + [] == L.Rows(db, s);
    case Claim(s, namespace, at) => assert L.Rows(db, s) + [] == L.Rows(db, s);
    case _ =>
  }

  /** The trigger fires for exactly the runs whose readable state changed; job identifiers and fingerprints stay silent. */
  lemma NotifiesExactly(c: L.Config, db: L.Db, op: L.Op, r: L.RunId)
    requires L.Commits(c, db, op) && r in L.Apply(c, db, op).runs
    ensures Sent(db, L.Apply(c, db, op), r) != [] <==> Changed(db, L.Apply(c, db, op), r)
  {
    FilesOnlyAdded(c, db, op, r);
  }

  lemma OwnerStays(c: L.Config, db: L.Db, op: L.Op, r: L.RunId)
    requires L.Commits(c, db, op) && r in db.runs
    ensures r in L.Apply(c, db, op).runs && L.Apply(c, db, op).runs[r].owner == db.runs[r].owner
  {
  }

  // ---- The feed's store is this database ----

  /** The feed's store shows the readable state of the database. */
  ghost predicate Mirrors(store: map<S.RunId, S.Detail>, db: L.Db, render: View -> string) {
    && store.Keys == db.runs.Keys
    && forall r :: r in db.runs ==> MirrorsRun(store, db, render, r)
  }

  ghost predicate MirrorsRun(store: map<S.RunId, S.Detail>, db: L.Db, render: View -> string, r: L.RunId)
    requires r in db.runs
  {
    r in store && store[r].id == r && store[r].owner == db.runs[r].owner && store[r].content == render(ViewOf(db, r))
  }

  /** The detail a commit leaves. */
  function DetailAfter(store: map<S.RunId, S.Detail>, after: L.Db, render: View -> string, r: L.RunId): S.Detail
    requires r in after.runs
  {
    S.Detail(r, after.runs[r].owner, if r in store then store[r].version + 1 else 0, render(ViewOf(after, r)))
  }

  /** Only `r` differs. */
  predicate OnlyTouches(db: L.Db, db': L.Db, r: L.RunId) {
    && db'.runs.Keys == db.runs.Keys + {r}
    && forall q :: q in db.runs && q != r ==> db'.runs[q] == db.runs[q] && L.Rows(db', q) == L.Rows(db, q)
  }

  lemma TouchesOnly(c: L.Config, db: L.Db, op: L.Op)
    requires L.Commits(c, db, op)
    ensures var db' := L.Apply(c, db, op);
            if Touched(op).Some? then OnlyTouches(db, db', Touched(op).value)
            else db'.runs == db.runs && db'.artifacts == db.artifacts
  {
    var db' := L.Apply(c, db, op);
    if Touched(op).Some? {
      assert db'.runs.Keys == db.runs.Keys + {Touched(op).value};
      forall q | q in db.runs && q != Touched(op).value ensures db'.runs[q] == db.runs[q] && L.Rows(db', q) == L.Rows(db, q) {
        OthersUntouched(c, db, op, q);
      }
    }
  }

  lemma MirrorsChange(store: map<S.RunId, S.Detail>, db: L.Db, db': L.Db, render: View -> string, r: L.RunId)
    requires Mirrors(store, db, render) && OnlyTouches(db, db', r)
    ensures Mirrors(store[r := DetailAfter(store, db', render, r)], db', render)
    ensures !Changed(db, db', r) ==> Mirrors(store, db', render)
  {
    var store' := store[r := DetailAfter(store, db', render, r)];
    forall q | q in db'.runs && q != r ensures MirrorsRun(store', db', render, q) && MirrorsRun(store, db', render, q) {
      assert MirrorsRun(store, db, render, q);
    }
    if !Changed(db, db', r) { assert MirrorsRun(store, db, render, r); }
  }

  lemma SilentElsewhere(db: L.Db, db': L.Db, r: L.RunId, q: L.RunId)
    requires OnlyTouches(db, db', r) && q in db'.runs && q != r
    ensures Sent(db, db', q) == []
  {
  }

  lemma CommitEnabled(lim: P.Limits, s: P.State, db: L.Db, db': L.Db, render: View -> string, r: L.RunId)
    requires Mirrors(s.store, db, render) && OnlyTouches(db, db', r) && Sent(db, db', r) != []
    requires r in db.runs ==> db'.runs[r].owner == db.runs[r].owner
    ensures P.Enabled(lim, s, P.Commit(DetailAfter(s.store, db', render, r), Sent(db, db', r)))
  {
    SentNamesOwner(db, db', r);
    assert r in db.runs <==> r in s.store by { assert s.store.Keys == db.runs.Keys; }
    if r in db.runs { assert MirrorsRun(s.store, db, render, r); }
  }

  /** Notifications name the owner of the row or nobody. */
  lemma SentNamesOwner(db: L.Db, db': L.Db, r: L.RunId)
    requires r in db'.runs
    ensures forall i :: 0 <= i < |Sent(db, db', r)| ==> Sent(db, db', r)[i].None? || Sent(db, db', r)[i] == db'.runs[r].owner
  {
  }

  /**
   * Every transaction is, for the feed, one commit step with the notifications the trigger sends, or no step at all.
   * So whatever the feed protocol guarantees, it guarantees about this database.
   */
  lemma TransactionFeedsProtocol(c: L.Config, lim: P.Limits, s: P.State, db: L.Db, op: L.Op, render: View -> string)
    requires L.Commits(c, db, op) && Mirrors(s.store, db, render)
    ensures var db' := L.Apply(c, db, op);
            var r := Touched(op);
            if r.Some? && Changed(db, db', r.value) then
              var act := P.Commit(DetailAfter(s.store, db', render, r.value), Sent(db, db', r.value));
              P.Enabled(lim, s, act) && Mirrors(P.Next(lim, s, act).store, db', render)
            else Mirrors(s.store, db', render) && forall q :: q in db'.runs ==> Sent(db, db', q) == []
  {
    var db' := L.Apply(c, db, op);
    TouchesOnly(c, db, op);
    if Touched(op).Some? {
      var r := Touched(op).value;
      MirrorsChange(s.store, db, db', render, r);
      NotifiesExactly(c, db, op, r);
      if r in db.runs { OwnerStays(c, db, op, r); }
      if Changed(db, db', r) {
        CommitEnabled(lim, s, db, db', render, r);
      } else {
        forall q | q in db'.runs ensures Sent(db, db', q) == [] { if q != r { SilentElsewhere(db, db', r, q); } }
      }
    } else {
      UnchangedMirrors(s.store, db, db', render);
    }
  }

  lemma UnchangedMirrors(store: map<S.RunId, S.Detail>, db: L.Db, db': L.Db, render: View -> string)
    requires Mirrors(store, db, render) && db'.runs == db.runs && db'.artifacts == db.artifacts
    ensures Mirrors(store, db', render) && forall q :: q in db'.runs ==> Sent(db, db', q) == []
  {
    forall q | q in db'.runs ensures MirrorsRun(store, db', render, q) { assert MirrorsRun(store, db, render, q); }
  }

  // ---- The listener's batch ----

  /** A parsed payload; None is a malformed one. */
  type Heard = Option<(Uuid, Option<Uuid>)>

  function Parsed(payloads: seq<string>): seq<Heard> {
    seq(|payloads|, i requires 0 <= i < |payloads| => ParsePayload(payloads[i]))
  }

  predicate Mentions(h: Heard, run: Uuid) { h.Some? && h.value.0 == run }

  predicate Names(h: Heard, run: Uuid) { Mentions(h, run) && h.value.1.Some? }

  /** `owner` is the last one named for the run. */
  ghost predicate LastOwner(heard: seq<Heard>, run: Uuid, owner: Option<Uuid>) {
    match owner
    case None => forall i :: 0 <= i < |heard| ==> !Names(heard[i], run)
    case Some(_) => exists i :: 0 <= i < |heard| && heard[i] == Some((run, owner)) && NoneNames(heard, i + 1, run)
  }

  predicate NoneNames(heard: seq<Heard>, from: int, run: Uuid) {
    forall j :: 0 <= from <= j < |heard| ==> !Names(heard[j], run)
  }

  predicate Mentioned(heard: seq<Heard>, run: Uuid) { exists i :: 0 <= i < |heard| && Mentions(heard[i], run) }

  /** The batch holds exactly the runs that well-formed payloads mention, each with the last owner named. */
  ghost predicate IsBatch(heard: seq<Heard>, changes: map<Uuid, Option<Uuid>>) {
    && (forall r :: r in changes <==> Mentioned(heard, r))
    && (forall r :: r in changes ==> LastOwner(heard, r, changes[r]))
  }

  /** One turn of the loop. */
  function AfterHearing(changes: map<Uuid, Option<Uuid>>, h: Heard): map<Uuid, Option<Uuid>> {
    if h.None? then changes else S.Noted(changes, h.value.0, h.value.1)
  }

  lemma MentionedGrows(heard: seq<Heard>, h: Heard, run: Uuid)
    ensures Mentioned(heard + [h], run) <==> Mentioned(heard, run) || Mentions(h, run)
  {
    var all := heard + [h];
    if i :| 0 <= i < |heard| && Mentions(heard[i], run) { assert Mentions(all[i], run); }
    if Mentions(h, run) { assert Mentions(all[|heard|], run); }
  }

  lemma LastOwnerGrows(heard: seq<Heard>, h: Heard, run: Uuid, owner: Option<Uuid>)
    requires LastOwner(heard, run, owner) && !Names(h, run)
    ensures LastOwner(heard + [h], run, owner)
  {
    if owner.Some? {
      var i :| 0 <= i < |heard| && heard[i] == Some((run, owner)) && NoneNames(heard, i + 1, run);
      assert (heard + [h])[i] == Some((run, owner)) && NoneNames(heard + [h], i + 1, run);
    }
  }

  lemma LastOwnerNamed(heard: seq<Heard>, h: Heard, run: Uuid)
    requires Names(h, run)
    ensures LastOwner(heard + [h], run, h.value.1)
  {
    assert (heard + [h])[|heard|] == h && NoneNames(heard + [h], |heard| + 1, run);
  }

  lemma BatchGrows(heard: seq<Heard>, changes: map<Uuid, Option<Uuid>>, h: Heard)
    requires IsBatch(heard, changes)
    ensures IsBatch(heard + [h], AfterHearing(changes, h))
  {
    forall r ensures r in AfterHearing(changes, h) <==> Mentioned(heard + [h], r) { MentionedGrows(heard, h, r); }
    forall r | r in AfterHearing(changes, h) ensures LastOwner(heard + [h], r, AfterHearing(changes, h)[r]) {
      if Names(h, r) {
        LastOwnerNamed(heard, h, r);
      } else {
        var owner := if r in changes then changes[r] else None;
        if r !in changes {
          forall i | 0 <= i < |heard| ensures !Names(heard[i], r) { assert !Mentioned(heard, r); }
        }
        LastOwnerGrows(heard, h, r, owner);
      }
    }
  }

  /** The listener's inner loop over one batch of payloads; malformed ones are ignored. */
  method CollectBatch(payloads: seq<string>) returns (changes: map<Uuid, Option<Uuid>>)
    ensures IsBatch(Parsed(payloads), changes)
  {
    changes := map[];
    for n := 0 to |payloads|
      invariant IsBatch(Parsed(payloads)[..n], changes)
    {
      BatchGrows(Parsed(payloads)[..n], changes, ParsePayload(payloads[n]));
      assert Parsed(payloads)[..n + 1] == Parsed(payloads)[..n] + [ParsePayload(payloads[n])];
      var parsed := ParsePayload(payloads[n]);
      if parsed.None? { continue; }
      var (run, owner) := parsed.value;
      var known := if run in changes then changes[run] else None;
      changes := changes[run := if owner.Some? then owner else known];
    }
    assert Parsed(payloads)[..|payloads|] == Parsed(payloads);
  }

  /** Nothing the trigger sent is dropped, and a batch in which it named an owner knows one. */
  lemma BatchKeepsNotifications(payloads: seq<string>, changes: map<Uuid, Option<Uuid>>, i: nat, run: Uuid, owner: Option<Uuid>)
    requires IsBatch(Parsed(payloads), changes) && i < |payloads| && payloads[i] == NotificationText(run, owner)
    ensures run in changes && (owner.Some? ==> changes[run].Some?)
  {
    PayloadRoundTrip(run, owner);
    assert Mentions(Parsed(payloads)[i], run);
    assert owner.Some? ==> Names(Parsed(payloads)[i], run);
  }
}

/** The feed beside its database: histories that interleave transactions with steps of the feed. */
module LiveFeed {
  import opened Basics
  import L = Ledger
  import S = FeedSpec
  import P = FeedProtocol
  import H = FeedHistory
  import N = Notifications

  datatype Joint = Joint(db: L.Db, feed: P.State)

  datatype Act = Transact(op: L.Op) | InFeed(act: P.Act)

  /** Writers change the database by transactions only; the feed's own commit step is how it sees one. */
  ghost predicate Enabled(c: L.Config, lim: P.Limits, j: Joint, act: Act) {
    match act
    case Transact(op) => L.Commits(c, j.db, op)
    case InFeed(a) => !a.Commit? && P.Enabled(lim, j.feed, a)
  }

  /** What a transaction sends the feed: nothing, unless it changed what can be read of a run. */
  ghost function Heard(feed: P.State, before: L.Db, after: L.Db, op: L.Op, render: N.View -> string): Option<P.Act> {
    var r := N.Touched(op);
    if r.Some? && N.Changed(before, after, r.value)
    then Some(P.Commit(N.DetailAfter(feed.store, after, render, r.value), N.Sent(before, after, r.value))) else None
  }

  ghost function Next(c: L.Config, lim: P.Limits, render: N.View -> string, j: Joint, act: Act): Joint
    requires Enabled(c, lim, j, act)
  {
    match act
    case Transact(op) =>
      var after := L.Apply(c, j.db, op);
      var heard := Heard(j.feed, j.db, after, op, render);
      Joint(after, if heard.Some? && P.Enabled(lim, j.feed, heard.value) then P.Next(lim, j.feed, heard.value) else j.feed)
    case InFeed(a) => j.(feed := P.Next(lim, j.feed, a))
  }

  ghost predicate Inv(lim: P.Limits, render: N.View -> string, j: Joint) {
    P.Inv(lim, j.feed) && N.Mirrors(j.feed.store, j.db, render)
  }

  lemma OnlyCommitsWrite(lim: P.Limits, s: P.State, a: P.Act)
    requires P.Enabled(lim, s, a) && !a.Commit?
    ensures P.Next(lim, s, a).store == s.store
  {
  }

  lemma StepKeeps(c: L.Config, lim: P.Limits, render: N.View -> string, j: Joint, act: Act)
    requires P.LimitsOk(lim) && Inv(lim, render, j) && Enabled(c, lim, j, act)
    ensures Inv(lim, render, Next(c, lim, render, j, act))
    ensures H.ClientsLater(j.feed, Next(c, lim, render, j, act).feed)
  {
    match act
    case Transact(op) =>
      N.TransactionFeedsProtocol(c, lim, j.feed, j.db, op, render);
      var heard := Heard(j.feed, j.db, L.Apply(c, j.db, op), op, render);
      if heard.Some? {
        P.StepInv(lim, j.feed, heard.value);
        H.StepMoves(lim, j.feed, heard.value);
      } else {
        H.ClientsLaterReflexive(lim, j.feed);
      }
    case InFeed(a) =>
      P.StepInv(lim, j.feed, a);
      H.StepMoves(lim, j.feed, a);
      OnlyCommitsWrite(lim, j.feed, a);
  }

  // ---- Histories ----

  ghost predicate History(c: L.Config, lim: P.Limits, render: N.View -> string, joints: seq<Joint>, acts: seq<Act>) {
    && P.LimitsOk(lim) && |joints| == |acts| + 1
    && joints[0].db == L.EMPTY && P.Init(joints[0].feed) && joints[0].feed.store == map[]
    && forall i :: 0 <= i < |acts| ==> StepAt(c, lim, render, joints, acts, i)
  }

  ghost predicate StepAt(c: L.Config, lim: P.Limits, render: N.View -> string, joints: seq<Joint>, acts: seq<Act>, i: int)
    requires 0 <= i < |acts| < |joints|
  {
    Enabled(c, lim, joints[i], acts[i]) && joints[i + 1] == Next(c, lim, render, joints[i], acts[i])
  }

  lemma {:induction false} HistoryInv(c: L.Config, lim: P.Limits, render: N.View -> string, joints: seq<Joint>, acts: seq<Act>, i: nat)
    requires History(c, lim, render, joints, acts) && i < |joints|
    ensures Inv(lim, render, joints[i])
  {
    if i == 0 {
      P.InitInv(lim, joints[0].feed);
    } else {
      HistoryInv(c, lim, render, joints, acts, i - 1);
      assert StepAt(c, lim, render, joints, acts, i - 1);
      StepKeeps(c, lim, render, joints[i - 1], acts[i - 1]);
    }
  }

  lemma OneMove(c: L.Config, lim: P.Limits, render: N.View -> string, joints: seq<Joint>, acts: seq<Act>, i: nat)
    requires History(c, lim, render, joints, acts) && i < |acts|
    ensures H.ClientsLater(joints[i].feed, joints[i + 1].feed)
  {
    HistoryInv(c, lim, render, joints, acts, i);
    assert StepAt(c, lim, render, joints, acts, i);
    StepKeeps(c, lim, render, joints[i], acts[i]);
  }

  lemma {:induction false} Moves(lim: P.Limits, feeds: seq<P.State>, i: nat, j: nat)
    requires i <= j < |feeds| && P.Inv(lim, feeds[i])
    requires forall n :: 0 <= n < |feeds| - 1 ==> H.ClientsLater(feeds[n], feeds[n + 1])
    ensures H.ClientsLater(feeds[i], feeds[j])
  {
    if i < j {
      Moves(lim, feeds, i, j - 1);
      H.ClientsLaterTransitive(lim, feeds[i], feeds[j - 1], feeds[j - 1 + 1]);
    } else {
      H.ClientsLaterReflexive(lim, feeds[i]);
    }
  }

  lemma HistoryMoves(c: L.Config, lim: P.Limits, render: N.View -> string, joints: seq<Joint>, acts: seq<Act>, i: nat, j: nat)
    requires History(c, lim, render, joints, acts) && i <= j < |joints|
    ensures H.ClientsLater(joints[i].feed, joints[j].feed)
  {
    var feeds := seq(|joints|, n requires 0 <= n < |joints| => joints[n].feed);
    HistoryInv(c, lim, render, joints, acts, i);
    forall n | 0 <= n < |feeds| - 1 ensures H.ClientsLater(feeds[n], feeds[n + 1]) { OneMove(c, lim, render, joints, acts, n); }
    Moves(lim, feeds, i, j);
  }

  /** The stream shows the run exactly as the database has it. */
  ghost predicate ShowsRow(render: N.View -> string, j: Joint, k: int, r: L.RunId) {
    && k in j.feed.clients && r in j.db.runs && j.db.runs[r].owner == Some(j.feed.clients[k].sub.user)
    && P.Shown(j.feed.clients[k], r).Some?
    && P.Shown(j.feed.clients[k], r).value.content == render(N.ViewOf(j.db, r))
  }

  /** A quiet feed shows every live stream the rows of the database itself. */
  lemma StreamsShowTheDatabase(c: L.Config, lim: P.Limits, render: N.View -> string, joints: seq<Joint>, acts: seq<Act>,
                               i: nat, k: int, r: L.RunId)
    requires History(c, lim, render, joints, acts) && i < |joints| && H.Quiet(joints[i].feed)
    requires k in joints[i].feed.clients && H.Live(joints[i].feed.clients[k]) && r in joints[i].feed.clients[k].tracked
    ensures ShowsRow(render, joints[i], k, r)
  {
    HistoryInv(c, lim, render, joints, acts, i);
    var s := joints[i].feed;
    assert P.Owes(s.clients, k, r) && P.UpToDate(s, k, r);
    assert N.MirrorsRun(s.store, joints[i].db, render, r);
  }

  /** Every run of a stream's snapshot is shown as the database has it, for as long as the stream lives. */
  lemma SnapshotShowsTheDatabase(c: L.Config, lim: P.Limits, render: N.View -> string, joints: seq<Joint>, acts: seq<Act>,
                                 i: nat, j: nat, k: int, keys: set<L.RunId>, r: L.RunId)
    requires History(c, lim, render, joints, acts) && i < |acts| && i < j < |joints| && H.Quiet(joints[j].feed)
    requires acts[i] == InFeed(P.StartSnapshot(k, keys)) && r in keys
    requires k in joints[j].feed.clients && H.Live(joints[j].feed.clients[k])
    ensures ShowsRow(render, joints[j], k, r)
  {
    assert StepAt(c, lim, render, joints, acts, i);
    HistoryMoves(c, lim, render, joints, acts, i + 1, j);
    assert k in joints[i + 1].feed.clients && r in joints[i + 1].feed.clients[k].tracked;
    StreamsShowTheDatabase(c, lim, render, joints, acts, j, k, r);
  }

  /**
   * A transaction that changes what can be read of a run reaches every stream of its owner that had begun its snapshot:
   * once the feed is quiet, a stream that still lives shows the row as the database has it.
   */
  lemma TransactionReachesStreams(c: L.Config, lim: P.Limits, render: N.View -> string, joints: seq<Joint>, acts: seq<Act>,
                                  i: nat, j: nat, k: int, r: L.RunId)
    requires History(c, lim, render, joints, acts) && i < |acts| && i < j < |joints| && H.Quiet(joints[j].feed)
    requires acts[i].Transact? && N.Touched(acts[i].op) == Some(r) && N.Changed(joints[i].db, joints[i + 1].db, r)
    requires k in joints[i].feed.clients && joints[i].feed.clients[k].phase != P.Subscribed
    requires joints[i + 1].db.runs[r].owner == Some(joints[i].feed.clients[k].sub.user)
    requires k in joints[j].feed.clients && H.Live(joints[j].feed.clients[k])
    ensures ShowsRow(render, joints[j], k, r)
  {
    assert StepAt(c, lim, render, joints, acts, i);
    HistoryInv(c, lim, render, joints, acts, i);
    N.TransactionFeedsProtocol(c, lim, joints[i].feed, joints[i].db, acts[i].op, render);
    assert k in joints[i + 1].feed.clients && r in joints[i + 1].feed.clients[k].tracked;
    HistoryMoves(c, lim, render, joints, acts, i + 1, j);
    StreamsShowTheDatabase(c, lim, render, joints, acts, j, k, r);
  }
}

/** What the feed promises over whole histories of its protocol. */
module FeedHistory {
  import opened Basics
  import opened FeedSpec
  import opened FeedProtocol

  /** `acts[i]` leads from `states[i]` to `states[i + 1]`. */
  ghost predicate History(lim: Limits, states: seq<State>, acts: seq<Act>) {
    && LimitsOk(lim) && |states| == |acts| + 1 && Init(states[0])
    && forall i :: 0 <= i < |acts| ==> StepAt(lim, states, acts, i)
  }

  ghost predicate StepAt(lim: Limits, states: seq<State>, acts: seq<Act>, i: int)
    requires 0 <= i < |acts| < |states|
  {
    Enabled(lim, states[i], acts[i]) && states[i + 1] == Next(lim, states[i], acts[i])
  }

  lemma {:induction false} HistoryInv(lim: Limits, states: seq<State>, acts: seq<Act>, i: nat)
    requires History(lim, states, acts) && i < |states|
    ensures Inv(lim, states[i])
  {
    if i == 0 {
      InitInv(lim, states[0]);
    } else {
      HistoryInv(lim, states, acts, i - 1);
      assert StepAt(lim, states, acts, i - 1);
      StepInv(lim, states[i - 1], acts[i - 1]);
    }
  }

  // ---- How one client and the store move ----

  function Rank(phase: Phase): int {
    match phase case Subscribed => 0 case Reading => 1 case Streaming => 2 case Closed => 3
  }

  /** What was sent is only ever replaced by something as new. */
  predicate SeenLater(a: map<RunId, Detail>, b: map<RunId, Detail>) {
    forall r :: r in a ==> r in b && a[r].version <= b[r].version
  }

  /** The same stream later: same user, errors stick, phases advance, nothing tracked is forgotten. */
  predicate ClientLater(a: Client, b: Client) {
    && a.sub.user == b.sub.user && (a.sub.error.Some? ==> b.sub.error == a.sub.error)
    && Rank(a.phase) <= Rank(b.phase) && SeenLater(a.seen, b.seen)
    && (a.phase != Subscribed ==> a.tracked <= b.tracked)
  }

  predicate ClientsLater(s: State, t: State) {
    && s.nextId <= t.nextId
    && (forall k :: k in t.clients && k < s.nextId ==> k in s.clients)
    && (forall k :: k in s.clients && k in t.clients ==> ClientLater(s.clients[k], t.clients[k]))
  }

  lemma OneMoves(s: State, t: State, k: int)
    requires s.nextId == t.nextId && k in s.clients && k in t.clients && t.clients == s.clients[k := t.clients[k]]
    requires ClientLater(s.clients[k], t.clients[k])
    ensures ClientsLater(s, t)
  {
  }

  lemma SnapshotMoves(lim: Limits, s: State, readFails: bool)
    requires ReaderOk(s) && Enabled(lim, s, EndSnapshot(readFails))
    ensures ClientsLater(s, Next(lim, s, EndSnapshot(readFails)))
  {
    var k := s.reader.who;
    if k in s.clients {
      forall r | r in s.clients[k].seen && r in s.reader.result ensures s.clients[k].seen[r].version <= s.reader.result[r].version {
        assert NotBehind(s.clients[k], s.reader.result[r]);
      }
      assert ClientLater(s.clients[k], Snapped(s, readFails).clients[k]);
    }
  }

  lemma DrainMoves(lim: Limits, s: State, k: int)
    requires AllOk(lim, s.store, s.clients) && Enabled(lim, s, Drain(k))
    ensures ClientsLater(s, Next(lim, s, Drain(k)))
  {
    assert Ordered(s.store, s.clients[k]);
    assert ClientLater(s.clients[k], Received(s.clients[k]));
    OneMoves(s, Next(lim, s, Drain(k)), k);
  }

  lemma CommitMoves(lim: Limits, s: State, run: Detail, owners: seq<Option<User>>)
    requires Enabled(lim, s, Commit(run, owners))
    ensures ClientsLater(s, Next(lim, s, Commit(run, owners)))
  {
  }

  lemma DeliverMoves(lim: Limits, s: State)
    requires Enabled(lim, s, Deliver)
    ensures ClientsLater(s, Next(lim, s, Deliver))
  {
  }

  lemma FailMoves(lim: Limits, s: State, act: Act)
    requires Enabled(lim, s, act) && (act.Read? || act.NoticeLoss?)
    ensures ClientsLater(s, Next(lim, s, act))
  {
  }

  lemma SingleMoves(lim: Limits, s: State, act: Act)
    requires Enabled(lim, s, act) && (act.StartSnapshot? || act.Deny? || act.Wake?)
    ensures ClientsLater(s, Next(lim, s, act))
  {
    OneMoves(s, Next(lim, s, act), act.who);
  }

  lemma OtherMoves(lim: Limits, s: State, act: Act)
    requires ConnectionOk(s) && Enabled(lim, s, act)
    requires !act.EndSnapshot? && !act.Drain? && !act.Commit? && !act.Deliver? && !act.Read? && !act.NoticeLoss?
    requires !act.StartSnapshot? && !act.Deny? && !act.Wake?
    ensures ClientsLater(s, Next(lim, s, act))
  {
  }

  lemma StepMoves(lim: Limits, s: State, act: Act)
    requires Inv(lim, s) && Enabled(lim, s, act)
    ensures ClientsLater(s, Next(lim, s, act))
  {
    match act
    case EndSnapshot(readFails) => SnapshotMoves(lim, s, readFails);
    case Drain(k) => DrainMoves(lim, s, k);
    case Commit(run, owners) => CommitMoves(lim, s, run, owners);
    case Deliver => DeliverMoves(lim, s);
    case Read(_) => FailMoves(lim, s, act);
    case NoticeLoss => FailMoves(lim, s, act);
    case StartSnapshot(_, _) => SingleMoves(lim, s, act);
    case Deny(_) => SingleMoves(lim, s, act);
    case Wake(_) => SingleMoves(lim, s, act);
    case _ => OtherMoves(lim, s, act);
  }

  lemma LaterTransitive(a: Client, b: Client, c: Client)
    requires ClientLater(a, b) && ClientLater(b, c)
    ensures ClientLater(a, c)
  {
  }

  lemma ClientsLaterReflexive(lim: Limits, s: State)
    requires Inv(lim, s)
    ensures ClientsLater(s, s)
  {
  }

  /** Stream identities are never reused, so a stream present at both ends was there all along. */
  lemma ClientsLaterTransitive(lim: Limits, s: State, t: State, u: State)
    requires Inv(lim, s) && ClientsLater(s, t) && ClientsLater(t, u)
    ensures ClientsLater(s, u)
  {
    forall k | k in s.clients && k in u.clients ensures ClientLater(s.clients[k], u.clients[k]) {
      assert k < s.nextId;
      LaterTransitive(s.clients[k], t.clients[k], u.clients[k]);
    }
  }

  lemma {:induction false} HistoryMoves(lim: Limits, states: seq<State>, acts: seq<Act>, i: nat, j: nat)
    requires History(lim, states, acts) && i <= j < |states|
    ensures ClientsLater(states[i], states[j])
  {
    HistoryInv(lim, states, acts, i);
    if i < j {
      HistoryMoves(lim, states, acts, i, j - 1);
      HistoryInv(lim, states, acts, j - 1);
      assert StepAt(lim, states, acts, j - 1);
      StepMoves(lim, states[j - 1], acts[j - 1]);
      ClientsLaterTransitive(lim, states[i], states[j - 1], states[j]);
    } else {
      ClientsLaterReflexive(lim, states[i]);
    }
  }

  /** The same for one stream. */
  lemma StreamMoves(lim: Limits, states: seq<State>, acts: seq<Act>, i: nat, j: nat, k: int)
    requires History(lim, states, acts) && i <= j < |states| && k in states[i].clients && k in states[j].clients
    ensures ClientLater(states[i].clients[k], states[j].clients[k])
    ensures forall m :: i <= m <= j ==> k in states[m].clients
  {
    HistoryMoves(lim, states, acts, i, j);
    HistoryInv(lim, states, acts, i);
    forall m | i <= m <= j ensures k in states[m].clients {
      HistoryMoves(lim, states, acts, i, m);
      HistoryMoves(lim, states, acts, m, j);
    }
  }

  // ---- Agreement ----

  /** The listener is connected and no notification waits anywhere. */
  predicate Quiet(s: State) { s.connection == Up && s.queue == [] && s.batch == None && s.reader == Free }

  predicate Live(client: Client) { client.phase == Streaming && client.sub.error.None? }

  /** A quiet feed shows every live stream what reading the database would. */
  lemma FeedAgrees(lim: Limits, states: seq<State>, acts: seq<Act>, i: nat, k: int, r: RunId)
    requires History(lim, states, acts) && i < |states| && Quiet(states[i])
    requires k in states[i].clients && Live(states[i].clients[k]) && r in states[i].clients[k].tracked
    ensures r in states[i].store && states[i].store[r].owner == Some(states[i].clients[k].sub.user)
    ensures Shown(states[i].clients[k], r) == Some(states[i].store[r])
  {
    HistoryInv(lim, states, acts, i);
    assert Owes(states[i].clients, k, r) && UpToDate(states[i], k, r);
  }

  /** Runs in the snapshot stay owed to the stream, and what it shows of them when quiet is what the database holds. */
  lemma SnapshotStaysCurrent(lim: Limits, states: seq<State>, acts: seq<Act>, i: nat, j: nat, r: RunId)
    requires History(lim, states, acts) && i < |acts| && i < j < |states| && Quiet(states[j])
    requires acts[i].StartSnapshot? && r in acts[i].keys
    requires acts[i].who in states[j].clients && Live(states[j].clients[acts[i].who])
    ensures r in states[j].store && Shown(states[j].clients[acts[i].who], r) == Some(states[j].store[r])
  {
    var k := acts[i].who;
    assert StepAt(lim, states, acts, i);
    HistoryMoves(lim, states, acts, i + 1, j);
    assert k in states[i + 1].clients;
    FeedAgrees(lim, states, acts, j, k, r);
  }

  /** A change committed for a stream's user once its snapshot has begun reaches that stream, or the stream ends with an error. */
  lemma ChangeReachesStream(lim: Limits, states: seq<State>, acts: seq<Act>, i: nat, j: nat, k: int)
    requires History(lim, states, acts) && i < |acts| && i < j < |states| && Quiet(states[j])
    requires acts[i].Commit? && k in states[i].clients && states[i].clients[k].phase != Subscribed
    requires acts[i].detail.owner == Some(states[i].clients[k].sub.user)
    requires k in states[j].clients && Live(states[j].clients[k])
    ensures var r := acts[i].detail.id;
            r in states[j].store && Shown(states[j].clients[k], r) == Some(states[j].store[r])
  {
    assert StepAt(lim, states, acts, i);
    HistoryMoves(lim, states, acts, i + 1, j);
    FeedAgrees(lim, states, acts, j, k, acts[i].detail.id);
  }

  // ---- Errors instead of gaps ----

  lemma LossNoticed(lim: Limits, states: seq<State>, acts: seq<Act>, i: nat, k: int)
    requires History(lim, states, acts) && i < |acts| && states[i].connection == Lost && k in states[i + 1].clients
    ensures states[i + 1].connection == Lost || states[i + 1].clients[k].sub.error.Some?
  {
    assert StepAt(lim, states, acts, i);
  }

  /** Whoever was subscribed while the listener was lost has an error by the time it listens again. */
  lemma LostListenerEndsStreams(lim: Limits, states: seq<State>, acts: seq<Act>, i: nat, j: nat, k: int)
    requires History(lim, states, acts) && i <= j < |states|
    requires states[i].connection == Lost && states[j].connection != Lost
    requires k in states[i].clients && k in states[j].clients
    ensures states[j].clients[k].sub.error.Some?
    decreases j - i
  {
    StreamMoves(lim, states, acts, i, j, k);
    StreamMoves(lim, states, acts, i + 1, j, k);
    LossNoticed(lim, states, acts, i, k);
    if states[i + 1].connection == Lost {
      LostListenerEndsStreams(lim, states, acts, i + 1, j, k);
    }
  }

  /** A failed read, or any entry after one in its batch, ends every stream of the run's owner. */
  lemma FailedReadEndsStreams(lim: Limits, states: seq<State>, acts: seq<Act>, i: nat, k: int)
    requires History(lim, states, acts) && i < |acts| && acts[i].Read?
    requires states[i].reader.Publishing? && states[i].reader.work.Chosen?
    requires states[i].reader.failed || acts[i].readFails
    requires states[i].reader.work.run in states[i].store && k in states[i].clients
    requires states[i].store[states[i].reader.work.run].owner == Some(states[i].clients[k].sub.user)
    ensures k in states[i + 1].clients && states[i + 1].clients[k].sub.error.Some?
  {
    HistoryInv(lim, states, acts, i);
    assert StepAt(lim, states, acts, i);
    assert OwnerIs(states[i].store, states[i].reader.work.run, states[i].reader.work.owner);
  }

  /** A delivery to a live stream shows the run, except exactly when it would overflow: then the stream must resync. */
  lemma DeliverOrResync(lim: Limits, s: State, k: int)
    requires Inv(lim, s) && Enabled(lim, s, Deliver) && k in s.clients && s.clients[k].sub.error.None?
    requires s.reader.work.detail.owner == Some(s.clients[k].sub.user)
    ensures var run := s.reader.work.detail;
            var c := Next(lim, s, Deliver).clients[k];
            if run.id !in s.clients[k].sub.pending && |s.clients[k].sub.pending| >= lim.pending
            then c.sub.error == Some(RESYNC) && c.sub.pending == map[] && WillWake(c.sub)
            else c.sub.error.None? && Shown(c, run.id) == Some(run)
  {
    assert ClientOk(lim, s.store, s.clients[k]);
    var c := Next(lim, s, Deliver).clients[k];
    assert c.sub == DeliverTo(s.clients[k].sub, s.reader.work.detail, lim.pending);
  }

  /** The store read under way fails and concerns this user, or a delivery to this user overflows its stream. */
  predicate Strikes(lim: Limits, s: State, act: Act, sub: Sub) {
    && s.reader.Publishing?
    && if act.Read? then
         s.reader.work.Chosen? && (s.reader.failed || act.readFails)
         && (s.reader.work.owner.None? || s.reader.work.owner.value == sub.user)
       else
         act.Deliver? && s.reader.work.Holding? && s.reader.work.detail.owner == Some(sub.user)
         && s.reader.work.detail.id !in sub.pending && |sub.pending| >= lim.pending
  }

  /**
   * A live stream ends only for a cause of its own: the listener is lost, a failed read concerns its user, its pending
   * runs overflow, its access is denied, or it is closed. Exactly then it has ended.
   */
  lemma EndsOnlyForCause(lim: Limits, s: State, act: Act, k: int)
    requires Inv(lim, s) && Enabled(lim, s, act) && k in s.clients && Live(s.clients[k])
    ensures var t := Next(lim, s, act);
            (k in t.clients && Live(t.clients[k])) <==>
            !(act.NoticeLoss? || Strikes(lim, s, act, s.clients[k].sub) || act == Deny(k) || act == Unsubscribe(k))
  {
    assert k < s.nextId;
    match act
    case EndSnapshot(readFails) => SnapshotSpares(lim, s, readFails, k);
    case _ =>
  }

  lemma DeliveryTouches(lim: Limits, s: State, k: int)
    requires Enabled(lim, s, Deliver) && k in s.clients && Live(s.clients[k]) && !Strikes(lim, s, Deliver, s.clients[k].sub)
    ensures var t := Next(lim, s, Deliver);
            k in t.clients && t.clients[k].seen == s.clients[k].seen
            && t.clients[k].sub.pending ==
                 if s.reader.work.detail.owner == Some(s.clients[k].sub.user)
                 then s.clients[k].sub.pending[s.reader.work.detail.id := s.reader.work.detail] else s.clients[k].sub.pending
  {
  }

  lemma ReadSpares(lim: Limits, s: State, readFails: bool, k: int)
    requires Enabled(lim, s, Read(readFails)) && k in s.clients && !Strikes(lim, s, Read(readFails), s.clients[k].sub)
    ensures k in Next(lim, s, Read(readFails)).clients && Next(lim, s, Read(readFails)).clients[k] == s.clients[k]
  {
  }

  lemma CommitSpares(lim: Limits, s: State, run: Detail, owners: seq<Option<User>>, k: int)
    requires Enabled(lim, s, Commit(run, owners)) && k in s.clients
    ensures var t := Next(lim, s, Commit(run, owners));
            k in t.clients && t.clients[k].seen == s.clients[k].seen && t.clients[k].sub == s.clients[k].sub
            && t.clients[k].phase == s.clients[k].phase
  {
  }

  lemma SnapshotSpares(lim: Limits, s: State, readFails: bool, k: int)
    requires SnapOk(s) && Enabled(lim, s, EndSnapshot(readFails)) && k in s.clients && Live(s.clients[k])
    ensures k in Next(lim, s, EndSnapshot(readFails)).clients && Next(lim, s, EndSnapshot(readFails)).clients[k] == s.clients[k]
  {
    assert s.reader.who != k;
  }

  /** Steps that are not its own leave what a live stream was sent and has pending, unless they end it or deliver to it. */
  lemma UntouchedByOthers(lim: Limits, s: State, act: Act, k: int)
    requires Inv(lim, s) && Enabled(lim, s, act) && k in s.clients && Live(s.clients[k])
    requires !act.NoticeLoss? && !Strikes(lim, s, act, s.clients[k].sub) && act != Deny(k) && act != Unsubscribe(k) && act != Drain(k)
    ensures var t := Next(lim, s, act);
            k in t.clients && t.clients[k].seen == s.clients[k].seen
            && t.clients[k].sub.pending ==
                 if act.Deliver? && s.reader.work.detail.owner == Some(s.clients[k].sub.user)
                 then s.clients[k].sub.pending[s.reader.work.detail.id := s.reader.work.detail] else s.clients[k].sub.pending
  {
    assert k < s.nextId;
    match act
    case EndSnapshot(readFails) => SnapshotSpares(lim, s, readFails, k);
    case Deliver => DeliveryTouches(lim, s, k);
    case Read(readFails) => ReadSpares(lim, s, readFails, k);
    case Commit(run, owners) => CommitSpares(lim, s, run, owners, k);
    case _ =>
  }

  /** The snapshot handshake succeeds exactly if the read did, the stream has no error and the listener is announced. */
  lemma SnapshotExactly(lim: Limits, s: State, readFails: bool)
    requires Inv(lim, s) && Enabled(lim, s, EndSnapshot(readFails)) && s.reader.who in s.clients
    ensures var k := s.reader.who;
            var t := Next(lim, s, EndSnapshot(readFails));
            && k in t.clients && t.reader == Free
            && (t.clients[k].phase == Streaming <==> !readFails && s.clients[k].sub.error.None? && s.available)
            && (t.clients[k].phase == Streaming ==>
                  t.clients[k].sub.pending == map[] && forall r :: r in s.reader.result ==>
                    r in t.clients[k].seen && t.clients[k].seen[r] == s.reader.result[r])
  {
  }

  // ---- Never backwards, never asleep, never unbounded ----

  /** The runs a step sends to a client: its snapshot, or what it drained. */
  function Sent(s: State, act: Act, k: int): map<RunId, Detail> {
    if k !in s.clients || s.clients[k].sub.error.Some? then map[]
    else if act == EndSnapshot(false) && s.reader.Snapping? && s.reader.who == k && s.available then s.reader.result
    else if act == Drain(k) then s.clients[k].sub.pending
    else map[]
  }

  /** What is sent is as new as what was sent before and becomes what the client has. */
  lemma SentIsSeen(lim: Limits, states: seq<State>, acts: seq<Act>, i: nat, k: int, r: RunId)
    requires History(lim, states, acts) && i < |acts| && r in Sent(states[i], acts[i], k)
    ensures k in states[i].clients && k in states[i + 1].clients && r in states[i + 1].clients[k].seen
    ensures states[i + 1].clients[k].seen[r] == Sent(states[i], acts[i], k)[r]
    ensures r in states[i].clients[k].seen ==> states[i].clients[k].seen[r].version <= Sent(states[i], acts[i], k)[r].version
  {
    HistoryInv(lim, states, acts, i);
    assert StepAt(lim, states, acts, i);
    assert ClientOk(lim, states[i].store, states[i].clients[k]);
    assert acts[i].EndSnapshot? ==> NotBehind(states[i].clients[k], states[i].reader.result[r]);
  }

  /** In the snapshot followed by all updates, the versions of a run never decrease. */
  lemma NeverBackwards(lim: Limits, states: seq<State>, acts: seq<Act>, i: nat, j: nat, k: int, r: RunId)
    requires History(lim, states, acts) && i < j < |acts|
    requires r in Sent(states[i], acts[i], k) && r in Sent(states[j], acts[j], k)
    ensures Sent(states[i], acts[i], k)[r].version <= Sent(states[j], acts[j], k)[r].version
  {
    SentIsSeen(lim, states, acts, i, k, r);
    SentIsSeen(lim, states, acts, j, k, r);
    StreamMoves(lim, states, acts, i + 1, j, k);
  }

  /** A stream with pending runs, or with an error it has not been told, will look. */
  lemma NoLostWakeUp(lim: Limits, states: seq<State>, acts: seq<Act>, i: nat, k: int)
    requires History(lim, states, acts) && i < |states| && k in states[i].clients
    requires var c := states[i].clients[k]; c.sub.pending != map[] || (c.sub.error.Some? && c.phase != Closed)
    ensures WillWake(states[i].clients[k].sub)
  {
    HistoryInv(lim, states, acts, i);
    assert ClientOk(lim, states[i].store, states[i].clients[k]);
  }

  lemma StreamsBounded(lim: Limits, states: seq<State>, acts: seq<Act>, i: nat)
    requires History(lim, states, acts) && i < |states|
    ensures |states[i].clients| <= lim.total
    ensures forall u :: |OwnStreams(states[i].clients, u)| <= lim.perUser
    ensures forall k :: k in states[i].clients ==> |states[i].clients[k].sub.pending| <= lim.pending
  {
    HistoryInv(lim, states, acts, i);
    forall k | k in states[i].clients ensures |states[i].clients[k].sub.pending| <= lim.pending {
      assert ClientOk(lim, states[i].store, states[i].clients[k]);
    }
  }
}

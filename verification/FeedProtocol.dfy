/**
 * The run feed among its threads: committing writers, the listener connection that can be lost, the
 * publishing and snapshotting readers that exclude each other, the event loop, and what each client has
 * received. Every critical section of the feed is one step; store reads are steps of their own.
 */
module FeedProtocol {
  import opened Basics
  import opened FeedSpec

  datatype Phase = Subscribed | Reading | Streaming | Closed

  /** `seen` is what the client was sent last of each run; `tracked` are its runs in the snapshot or changed since. */
  datatype Client = Client(sub: Sub, phase: Phase, seen: map<RunId, Detail>, tracked: set<RunId>)

  /** A notification: the run and, if the sender knew it, its owner. */
  datatype Notice = Notice(run: RunId, owner: Option<User>)

  datatype Connection =
    | Down        // not connected, `unavailable` has been called
    | Listening   // LISTEN is in effect, `available` not yet called
    | Up          // connected and announced
    | Lost        // broken, the listener has not noticed yet

  /** Where a publisher is with the current entry of its batch. */
  datatype Work = Idle | Chosen(run: RunId, owner: Option<User>) | Holding(detail: Detail)

  /** Who holds the read lock. */
  datatype Reader =
    | Free
    | Publishing(rest: map<RunId, Option<User>>, failed: bool, work: Work)
    | Snapping(who: int, result: map<RunId, Detail>)

  datatype State = State(
    store: map<RunId, Detail>, queue: seq<Notice>, batch: Option<map<RunId, Option<User>>>,
    connection: Connection, available: bool, reader: Reader, clients: map<int, Client>, nextId: int)

  datatype Limits = Limits(perUser: int, total: int, pending: int)

  datatype Act =
    | Commit(detail: Detail, owners: seq<Option<User>>)
    | Connect
    | Announce
    | Break
    | NoticeLoss
    | Collect(count: int)
    | StartPublish
    | Choose(run: RunId)
    | Read(readFails: bool)
    | Deliver
    | EndPublish
    | Subscribe(user: User)
    | StartSnapshot(who: int, keys: set<RunId>)
    | EndSnapshot(readFails: bool)
    | Drain(who: int)
    | Deny(who: int)
    | Wake(who: int)
    | Unsubscribe(who: int)

  function OwnStreams(clients: map<int, Client>, user: User): set<int> { set k | k in clients && clients[k].sub.user == user }

  predicate Watched(clients: map<int, Client>, user: User) {
    exists k :: k in clients && clients[k].sub.error.None? && clients[k].sub.user == user
  }

  predicate AnyWatched(clients: map<int, Client>) { exists k :: k in clients && clients[k].sub.error.None? }

  function Owned(store: map<RunId, Detail>, user: User): set<RunId> { set r | r in store && store[r].owner == Some(user) }

  function Coalesce(notices: seq<Notice>): map<RunId, Option<User>> {
    if notices == [] then map[]
    else
      var last := notices[|notices| - 1];
      Noted(Coalesce(notices[..|notices| - 1]), last.run, last.owner)
  }

  predicate Enabled(lim: Limits, s: State, act: Act) {
    match act
    case Commit(run, owners) =>   // rows keep their owner; every visible change notifies
      && owners != [] && (forall i :: 0 <= i < |owners| ==> owners[i].None? || owners[i] == run.owner)
      && (run.id in s.store ==> run.owner == s.store[run.id].owner && run.version == s.store[run.id].version + 1)
      && (run.id !in s.store ==> run.version == 0)
    case Connect => s.connection == Down
    case Announce => s.connection == Listening
    case Break => s.connection == Up || s.connection == Listening
    case NoticeLoss => s.connection == Lost && !s.reader.Publishing?
    case Collect(n) => s.connection == Up && s.batch.None? && !s.reader.Publishing? && 0 < n <= |s.queue|
    case StartPublish => s.batch.Some? && s.reader == Free
    case Choose(r) => s.reader.Publishing? && s.reader.work == Idle && r in s.reader.rest
    case Read(_) => s.reader.Publishing? && s.reader.work.Chosen?
    case Deliver => s.reader.Publishing? && s.reader.work.Holding?
    case EndPublish => s.reader.Publishing? && s.reader.work == Idle && s.reader.rest == map[]
    case Subscribe(u) => s.available && |s.clients| < lim.total && |OwnStreams(s.clients, u)| < lim.perUser
    case StartSnapshot(k, keys) =>
      s.reader == Free && k in s.clients && s.clients[k].phase == Subscribed && keys <= Owned(s.store, s.clients[k].sub.user)
    case EndSnapshot(_) => s.reader.Snapping?
    case Drain(k) => k in s.clients && s.clients[k].phase == Streaming
    case Deny(k) => k in s.clients && s.clients[k].phase == Streaming
    case Wake(k) => k in s.clients && s.clients[k].sub.scheduled > 0
    case Unsubscribe(k) => k in s.clients
  }

  function Notices(run: RunId, owners: seq<Option<User>>): seq<Notice> {
    seq(|owners|, i requires 0 <= i < |owners| => Notice(run, owners[i]))
  }

  /** A committed change concerns every stream of its owner that has begun its snapshot. */
  function Track(client: Client, run: Detail): Client {
    if client.phase != Subscribed && run.owner == Some(client.sub.user) then client.(tracked := client.tracked + {run.id}) else client
  }

  function TrackAll(clients: map<int, Client>, run: Detail): map<int, Client> { map k | k in clients :: Track(clients[k], run) }

  function DeliverAll(clients: map<int, Client>, run: Detail, limit: int): map<int, Client> {
    map k | k in clients :: clients[k].(sub := DeliverTo(clients[k].sub, run, limit))
  }

  function ResyncAll(clients: map<int, Client>, owner: Option<User>): map<int, Client> {
    map k | k in clients :: clients[k].(sub := ResyncTo(clients[k].sub, owner))
  }

  function FailAll(clients: map<int, Client>): map<int, Client> {
    map k | k in clients :: clients[k].(sub := Fail(clients[k].sub, UNAVAILABLE))
  }

  /** The head of the publish loop: stop when nobody listens, skip an owner nobody listens for. */
  function Chose(s: State, r: RunId): State
    requires s.reader.Publishing? && r in s.reader.rest
  {
    var owner := s.reader.rest[r];
    var rest := s.reader.rest - {r};
    if !AnyWatched(s.clients) then s.(reader := Free)
    else if owner.Some? && !Watched(s.clients, owner.value) then s.(reader := s.reader.(rest := rest))
    else s.(reader := s.reader.(rest := rest, work := Chosen(r, owner)))
  }

  /** The store read of the chosen run; after one failure nothing more is read and streams must resync. */
  function DidRead(s: State, readFails: bool): State
    requires s.reader.Publishing? && s.reader.work.Chosen?
  {
    var r := s.reader.work.run;
    if s.reader.failed || readFails then
      s.(reader := s.reader.(failed := true, work := Idle), clients := ResyncAll(s.clients, s.reader.work.owner))
    else if r !in s.store || s.store[r].owner.None? then s.(reader := s.reader.(work := Idle))
    else s.(reader := s.reader.(work := Holding(s.store[r])))
  }

  /** The end of `snapshot`: it fails, or empties what was pending and the client gets the result. */
  function Snapped(s: State, readFails: bool): State
    requires s.reader.Snapping?
  {
    var k := s.reader.who;
    if k !in s.clients then s.(reader := Free)
    else
      var client := s.clients[k];
      if readFails || client.sub.error.Some? || !s.available then
        s.(reader := Free, clients := s.clients[k := client.(phase := Closed)])
      else
        s.(reader := Free,
           clients := s.clients[k := client.(phase := Streaming, seen := client.seen + s.reader.result,
                                             sub := client.sub.(pending := map[]))])
  }

  function Received(client: Client): Client {
    if client.sub.error.None?
    then client.(seen := client.seen + client.sub.pending, sub := Drained(client.sub))
    else client.(sub := Drained(client.sub), phase := Closed)
  }

  function Next(lim: Limits, s: State, act: Act): State
    requires Enabled(lim, s, act)
  {
    match act
    case Commit(run, owners) =>
      s.(store := s.store[run.id := run],
         queue := if s.connection == Up || s.connection == Listening then s.queue + Notices(run.id, owners) else s.queue,
         clients := TrackAll(s.clients, run))
    case Connect => s.(connection := Listening)
    case Announce => s.(connection := Up, available := true)
    case Break => s.(connection := Lost, queue := [])
    case NoticeLoss => s.(connection := Down, available := false, batch := None, clients := FailAll(s.clients))
    case Collect(n) => s.(batch := Some(Coalesce(s.queue[..n])), queue := s.queue[n..])
    case StartPublish => s.(reader := Publishing(s.batch.value, false, Idle), batch := None)
    case Choose(r) => Chose(s, r)
    case Read(readFails) => DidRead(s, readFails)
    case Deliver =>
      s.(clients := DeliverAll(s.clients, s.reader.work.detail, lim.pending), reader := s.reader.(work := Idle))
    case EndPublish => s.(reader := Free)
    case Subscribe(u) =>
      s.(clients := s.clients[s.nextId := Client(Opened(u), Subscribed, map[], {})], nextId := s.nextId + 1)
    case StartSnapshot(k, keys) =>
      s.(reader := Snapping(k, map r | r in keys && r in s.store :: s.store[r]),
         clients := s.clients[k := s.clients[k].(phase := Reading, tracked := keys)])
    case EndSnapshot(readFails) => Snapped(s, readFails)
    case Drain(k) => s.(clients := s.clients[k := Received(s.clients[k])])
    case Deny(k) => s.(clients := s.clients[k := s.clients[k].(sub := Drained(s.clients[k].sub), phase := Closed)])
    case Wake(k) => s.(clients := s.clients[k := s.clients[k].(sub := Woken(s.clients[k].sub))])
    case Unsubscribe(k) => s.(clients := s.clients - {k})
  }

  // ---- Invariant: every client ----

  /** No lost wake-up: an open stream with something to say will be woken. */
  predicate Wakeful(client: Client) {
    && client.sub.scheduled >= 0
    && (client.sub.pending != map[] ==> WillWake(client.sub))
    && (client.sub.error.Some? && client.phase != Closed ==> WillWake(client.sub))
    && (client.sub.error.Some? ==> client.sub.pending == map[])
  }

  /** Never ahead of the store, never behind what was already sent. */
  predicate Ordered(store: map<RunId, Detail>, client: Client) {
    && (forall r :: r in client.seen ==> r in store && client.seen[r].version <= store[r].version)
    && (forall r :: r in client.sub.pending ==> r in store && client.sub.pending[r].version <= store[r].version)
    && (forall r :: r in client.sub.pending && r in client.seen ==> client.seen[r].version <= client.sub.pending[r].version)
  }

  /** A run just read is at least as new as anything the client has. */
  predicate NotBehind(client: Client, run: Detail) {
    && (run.id in client.seen ==> client.seen[run.id].version <= run.version)
    && (run.id in client.sub.pending ==> client.sub.pending[run.id].version <= run.version)
  }

  /** A read of the store: a version it had, of the same run and owner. */
  predicate WasRead(store: map<RunId, Detail>, run: Detail) {
    && run.id in store && run.version <= store[run.id].version && run.owner == store[run.id].owner
    && (run.version == store[run.id].version ==> run == store[run.id])
  }

  predicate HandOk(s: State) {
    s.reader.Publishing? && s.reader.work.Holding? ==>
      && WasRead(s.store, s.reader.work.detail)
      && forall k :: k in s.clients ==> NotBehind(s.clients[k], s.reader.work.detail)
  }

  predicate SnapOk(s: State) {
    && (forall k :: k in s.clients && s.clients[k].phase == Reading ==> s.reader.Snapping? && s.reader.who == k)
    && (s.reader.Snapping? ==>
          && s.reader.who < s.nextId
          && (s.reader.who in s.clients ==> s.clients[s.reader.who].phase == Reading)
          && forall r :: r in s.reader.result ==>
               && s.reader.result[r].id == r && WasRead(s.store, s.reader.result[r])
               && (s.reader.who in s.clients ==> NotBehind(s.clients[s.reader.who], s.reader.result[r])))
  }

  predicate ReaderOk(s: State) { HandOk(s) && SnapOk(s) }

  // ---- Invariant: agreement with the store ----

  /** A change of this run is still to be published. */
  predicate Announced(s: State, r: RunId) {
    || (exists i :: 0 <= i < |s.queue| && s.queue[i].run == r)
    || (s.batch.Some? && r in s.batch.value)
    || (s.reader.Publishing? && r in s.reader.rest)
    || (s.reader.Publishing? && s.reader.work.Chosen? && s.reader.work.run == r)
    || (s.reader.Publishing? && s.reader.work.Holding? && r in s.store && s.reader.work.detail == s.store[r])
  }

  /** What the client shows of a run once it has drained: pending overlaid on what it has received. */
  function Shown(client: Client, r: RunId): Option<Detail> {
    if r in client.sub.pending then Some(client.sub.pending[r])
    else if r in client.seen then Some(client.seen[r]) else None
  }

  predicate Shows(client: Client, run: Detail) { client.phase == Streaming && Shown(client, run.id) == Some(run) }

  predicate Snaps(s: State, k: int, run: Detail) {
    s.reader.Snapping? && s.reader.who == k && run.id in s.reader.result && s.reader.result[run.id] == run
  }

  /** A live stream owes its client this run. */
  predicate Owes(clients: map<int, Client>, k: int, r: RunId) {
    && k in clients && clients[k].sub.error.None?
    && (clients[k].phase == Reading || clients[k].phase == Streaming) && r in clients[k].tracked
  }

  predicate UpToDate(s: State, k: int, r: RunId)
    requires k in s.clients
  {
    && r in s.store && s.store[r].owner == Some(s.clients[k].sub.user)
    && (Announced(s, r) || Shows(s.clients[k], s.store[r]) || Snaps(s, k, s.store[r]))
  }

  ghost predicate Agrees(s: State) {
    forall k, r :: Owes(s.clients, k, r) ==> UpToDate(s, k, r)
  }

  predicate OwnerIs(store: map<RunId, Detail>, r: RunId, owner: Option<User>) {
    owner.Some? ==> r in store && store[r].owner == owner
  }

  predicate TrueOwners(store: map<RunId, Detail>, changes: map<RunId, Option<User>>) {
    forall r :: r in changes ==> OwnerIs(store, r, changes[r])
  }

  predicate TrueNotices(store: map<RunId, Detail>, notices: seq<Notice>) {
    forall i :: 0 <= i < |notices| ==> OwnerIs(store, notices[i].run, notices[i].owner)
  }

  /** Notices never name a wrong owner. */
  predicate Truthful(s: State) {
    && TrueNotices(s.store, s.queue)
    && (s.batch.Some? ==> TrueOwners(s.store, s.batch.value))
    && (s.reader.Publishing? ==> TrueOwners(s.store, s.reader.rest))
    && (s.reader.Publishing? && s.reader.work.Chosen? ==> OwnerIs(s.store, s.reader.work.run, s.reader.work.owner))
  }

  predicate AllFailed(clients: map<int, Client>) { forall k :: k in clients ==> clients[k].sub.error.Some? }

  /** While no listener is announced, every stream has been told. */
  predicate ConnectionOk(s: State) {
    && (s.connection == Up ==> s.available)
    && (s.connection == Down || s.connection == Listening ==> !s.available)
    && (!s.available ==> AllFailed(s.clients))
    && (s.connection == Down || s.connection == Listening ==> s.batch.None? && !s.reader.Publishing?)
    && (forall k :: k in s.clients ==> k < s.nextId)
  }

  predicate StoreOk(store: map<RunId, Detail>) { forall r :: r in store ==> store[r].id == r }

  predicate PendingOk(lim: Limits, client: Client) { |client.sub.pending| <= lim.pending }

  ghost predicate Inv(lim: Limits, s: State) {
    && StoreOk(s.store) && AllOk(lim, s.store, s.clients) && CountsOk(lim, s.clients) && ReaderOk(s)
    && Truthful(s) && ConnectionOk(s) && (s.connection == Up ==> Agrees(s))
  }

  ghost predicate LimitsOk(lim: Limits) { lim.perUser >= 0 && lim.total >= 0 && lim.pending >= 0 }

  ghost predicate Init(s: State) {
    && StoreOk(s.store) && s.queue == [] && s.batch == None && s.connection == Down && !s.available && s.reader == Free
    && s.clients == map[]
  }

  lemma InitInv(lim: Limits, s: State)
    requires LimitsOk(lim) && Init(s)
    ensures Inv(lim, s)
  {
    assert forall u :: OwnStreams(s.clients, u) == {};
  }

  // ---- What one step does to one client ----

  predicate ClientOk(lim: Limits, store: map<RunId, Detail>, client: Client) {
    Wakeful(client) && Ordered(store, client) && PendingOk(lim, client)
  }

  lemma FailKeeps(lim: Limits, store: map<RunId, Detail>, client: Client, code: string)
    requires LimitsOk(lim) && ClientOk(lim, store, client)
    ensures var c := client.(sub := Fail(client.sub, code)); ClientOk(lim, store, c) && c.sub.error.Some?
  {
  }

  lemma DeliverWakes(client: Client, run: Detail, limit: int)
    requires Wakeful(client)
    ensures Wakeful(client.(sub := DeliverTo(client.sub, run, limit)))
  {
  }

  lemma DeliverOrders(store: map<RunId, Detail>, client: Client, run: Detail, limit: int)
    requires Ordered(store, client) && WasRead(store, run) && NotBehind(client, run)
    ensures Ordered(store, client.(sub := DeliverTo(client.sub, run, limit)))
  {
  }

  lemma DeliverBounded(lim: Limits, client: Client, run: Detail)
    requires LimitsOk(lim) && PendingOk(lim, client)
    ensures PendingOk(lim, client.(sub := DeliverTo(client.sub, run, lim.pending)))
  {
    var pending := client.sub.pending[run.id := run];
    assert pending.Keys == client.sub.pending.Keys + {run.id};
    assert |pending| == |pending.Keys| && |client.sub.pending| == |client.sub.pending.Keys|;
  }

  /** After a delivery the stream shows the run just read, and every other run as before. */
  lemma DeliverShows(client: Client, run: Detail, limit: int, r: RunId)
    requires client.sub.error.None?
    ensures var c := client.(sub := DeliverTo(client.sub, run, limit));
            c.sub.error.None? ==>
              Shown(c, r) == if run.owner == Some(client.sub.user) && r == run.id then Some(run) else Shown(client, r)
  {
  }

  lemma DrainKeeps(lim: Limits, store: map<RunId, Detail>, client: Client)
    requires LimitsOk(lim) && ClientOk(lim, store, client)
    ensures ClientOk(lim, store, Received(client))
    ensures forall r :: Shown(Received(client), r) == Shown(client, r)
  {
  }

  lemma DeliverKeeps(lim: Limits, store: map<RunId, Detail>, client: Client, run: Detail)
    requires LimitsOk(lim) && ClientOk(lim, store, client) && WasRead(store, run) && NotBehind(client, run)
    ensures ClientOk(lim, store, client.(sub := DeliverTo(client.sub, run, lim.pending)))
  {
    DeliverWakes(client, run, lim.pending);
    DeliverOrders(store, client, run, lim.pending);
    DeliverBounded(lim, client, run);
  }

  // ---- Steps on all clients ----

  predicate AllOk(lim: Limits, store: map<RunId, Detail>, clients: map<int, Client>) {
    forall k :: k in clients ==> ClientOk(lim, store, clients[k])
  }

  ghost predicate CountsOk(lim: Limits, clients: map<int, Client>) {
    |clients| <= lim.total && forall u :: |OwnStreams(clients, u)| <= lim.perUser
  }

  lemma SameStreamsOf(a: map<int, Client>, b: map<int, Client>, u: User)
    requires a.Keys == b.Keys && forall k :: k in a ==> a[k].sub.user == b[k].sub.user
    ensures OwnStreams(a, u) == OwnStreams(b, u)
  {
    assert forall k :: k in OwnStreams(a, u) <==> k in OwnStreams(b, u);
  }

  /** Streams are counted by user, which no step on a stream changes. */
  lemma SameStreams(lim: Limits, a: map<int, Client>, b: map<int, Client>)
    requires a.Keys == b.Keys && forall k :: k in a ==> a[k].sub.user == b[k].sub.user
    requires CountsOk(lim, a)
    ensures CountsOk(lim, b)
  {
    assert |a| == |a.Keys| && |b| == |b.Keys|;
    forall u ensures |OwnStreams(b, u)| <= lim.perUser { SameStreamsOf(a, b, u); }
  }

  lemma FailAllKeeps(lim: Limits, store: map<RunId, Detail>, clients: map<int, Client>)
    requires LimitsOk(lim) && AllOk(lim, store, clients) && CountsOk(lim, clients)
    ensures AllOk(lim, store, FailAll(clients)) && AllFailed(FailAll(clients)) && CountsOk(lim, FailAll(clients))
  {
    SameStreams(lim, clients, FailAll(clients));
    forall k | k in clients ensures ClientOk(lim, store, FailAll(clients)[k]) { FailKeeps(lim, store, clients[k], UNAVAILABLE); }
  }

  lemma ResyncAllKeeps(lim: Limits, store: map<RunId, Detail>, clients: map<int, Client>, owner: Option<User>)
    requires LimitsOk(lim) && AllOk(lim, store, clients) && CountsOk(lim, clients)
    ensures AllOk(lim, store, ResyncAll(clients, owner)) && CountsOk(lim, ResyncAll(clients, owner))
  {
    SameStreams(lim, clients, ResyncAll(clients, owner));
    forall k | k in clients ensures ClientOk(lim, store, ResyncAll(clients, owner)[k]) {
      FailKeeps(lim, store, clients[k], RESYNC);
    }
  }

  lemma DeliverAllKeeps(lim: Limits, store: map<RunId, Detail>, clients: map<int, Client>, run: Detail)
    requires LimitsOk(lim) && AllOk(lim, store, clients) && CountsOk(lim, clients) && WasRead(store, run)
    requires forall k :: k in clients ==> NotBehind(clients[k], run)
    ensures AllOk(lim, store, DeliverAll(clients, run, lim.pending)) && CountsOk(lim, DeliverAll(clients, run, lim.pending))
  {
    var b := DeliverAll(clients, run, lim.pending);
    SameStreams(lim, clients, b);
    forall k | k in b ensures ClientOk(lim, store, b[k]) {
      DeliverKeeps(lim, store, clients[k], run);
    }
  }

  // ---- Each step keeps the invariant ----

  /** Steps that leave store, clients and reader alone. */
  lemma ConnectionStepKeeps(lim: Limits, s: State, act: Act)
    requires LimitsOk(lim) && Inv(lim, s) && Enabled(lim, s, act)
    requires act.Connect? || act.Announce? || act.Break?
    ensures Inv(lim, Next(lim, s, act))
  {
  }

  lemma NoticeLossKeeps(lim: Limits, s: State)
    requires LimitsOk(lim) && Inv(lim, s) && Enabled(lim, s, NoticeLoss)
    ensures Inv(lim, Next(lim, s, NoticeLoss))
  {
    FailAllKeeps(lim, s.store, s.clients);
  }

  lemma {:induction false} CoalesceCovers(store: map<RunId, Detail>, notices: seq<Notice>)
    ensures forall i :: 0 <= i < |notices| ==> notices[i].run in Coalesce(notices)
    ensures TrueNotices(store, notices) ==> TrueOwners(store, Coalesce(notices))
  {
    if notices != [] { CoalesceCovers(store, notices[..|notices| - 1]); }
  }

  lemma CollectKeeps(lim: Limits, s: State, n: int)
    requires LimitsOk(lim) && Inv(lim, s) && Enabled(lim, s, Collect(n))
    ensures Inv(lim, Next(lim, s, Collect(n)))
  {
    var t := Next(lim, s, Collect(n));
    CoalesceCovers(s.store, s.queue[..n]);
    forall k, r | Owes(t.clients, k, r) ensures UpToDate(t, k, r) {
      assert Owes(s.clients, k, r) && UpToDate(s, k, r);
      if i :| 0 <= i < |s.queue| && s.queue[i].run == r {
        if i < n { assert s.queue[..n][i] == s.queue[i]; } else { assert t.queue[i - n] == s.queue[i]; }
      }
    }
  }

  lemma PublishEdgeKeeps(lim: Limits, s: State, act: Act)
    requires LimitsOk(lim) && Inv(lim, s) && Enabled(lim, s, act) && (act.StartPublish? || act.EndPublish?)
    ensures Inv(lim, Next(lim, s, act))
  {
    var t := Next(lim, s, act);
    if s.connection == Up {
      forall k, r | Owes(t.clients, k, r) ensures UpToDate(t, k, r) { assert Owes(s.clients, k, r) && UpToDate(s, k, r); }
    }
  }

  lemma ChooseAgrees(lim: Limits, s: State, run: RunId)
    requires Enabled(lim, s, Choose(run)) && Agrees(s) && Truthful(s) && ReaderOk(s)
    ensures Agrees(Next(lim, s, Choose(run)))
  {
    var t := Next(lim, s, Choose(run));
    forall k, r | Owes(t.clients, k, r) ensures UpToDate(t, k, r) {
      assert Owes(s.clients, k, r) && UpToDate(s, k, r);
      assert AnyWatched(s.clients) && Watched(s.clients, s.clients[k].sub.user);
      assert r == run ==> OwnerIs(s.store, r, s.reader.rest[r]);
      assert Announced(s, r) ==> Announced(t, r);
    }
  }

  lemma ChooseRest(lim: Limits, s: State, run: RunId)
    requires Enabled(lim, s, Choose(run)) && ReaderOk(s) && Truthful(s) && ConnectionOk(s)
    ensures var t := Next(lim, s, Choose(run)); ReaderOk(t) && Truthful(t) && ConnectionOk(t) && t.clients == s.clients && t.store == s.store
  {
  }

  lemma ChooseKeeps(lim: Limits, s: State, run: RunId)
    requires LimitsOk(lim) && Inv(lim, s) && Enabled(lim, s, Choose(run))
    ensures Inv(lim, Next(lim, s, Choose(run)))
  {
    ChooseRest(lim, s, run);
    if s.connection == Up { ChooseAgrees(lim, s, run); }
  }

  lemma FailedReadAgrees(lim: Limits, s: State, readFails: bool)
    requires Enabled(lim, s, Read(readFails)) && Agrees(s) && Truthful(s) && ReaderOk(s) && (s.reader.failed || readFails)
    ensures Agrees(Next(lim, s, Read(readFails)))
  {
    var t := Next(lim, s, Read(readFails));
    forall k, r | Owes(t.clients, k, r) ensures UpToDate(t, k, r) {
      assert t.clients[k] == s.clients[k];
      assert Owes(s.clients, k, r) && UpToDate(s, k, r);
      assert OwnerIs(s.store, s.reader.work.run, s.reader.work.owner);
    }
  }

  lemma GoodReadAgrees(lim: Limits, s: State)
    requires Enabled(lim, s, Read(false)) && Agrees(s) && ReaderOk(s) && !s.reader.failed
    ensures Agrees(Next(lim, s, Read(false)))
  {
    var t := Next(lim, s, Read(false));
    forall k, r | Owes(t.clients, k, r) ensures UpToDate(t, k, r) {
      assert Owes(s.clients, k, r) && UpToDate(s, k, r);
    }
  }

  lemma ReadClients(lim: Limits, s: State, readFails: bool)
    requires LimitsOk(lim) && Enabled(lim, s, Read(readFails)) && AllOk(lim, s.store, s.clients) && CountsOk(lim, s.clients)
    ensures var t := Next(lim, s, Read(readFails)); AllOk(lim, t.store, t.clients) && CountsOk(lim, t.clients) && t.store == s.store
  {
    if s.reader.failed || readFails { ResyncAllKeeps(lim, s.store, s.clients, s.reader.work.owner); }
  }

  lemma ReadReader(lim: Limits, s: State, readFails: bool)
    requires LimitsOk(lim) && Inv(lim, s) && Enabled(lim, s, Read(readFails))
    ensures ReaderOk(Next(lim, s, Read(readFails)))
  {
    var r := s.reader.work.run;
    if !s.reader.failed && !readFails && r in s.store && s.store[r].owner.Some? {
      forall k | k in s.clients ensures NotBehind(s.clients[k], s.store[r]) { assert ClientOk(lim, s.store, s.clients[k]); }
    }
  }

  lemma ReadRest(lim: Limits, s: State, readFails: bool)
    requires LimitsOk(lim) && Inv(lim, s) && Enabled(lim, s, Read(readFails))
    ensures Truthful(Next(lim, s, Read(readFails))) && ConnectionOk(Next(lim, s, Read(readFails)))
  {
  }

  lemma ReadKeeps(lim: Limits, s: State, readFails: bool)
    requires LimitsOk(lim) && Inv(lim, s) && Enabled(lim, s, Read(readFails))
    ensures Inv(lim, Next(lim, s, Read(readFails)))
  {
    ReadClients(lim, s, readFails);
    ReadReader(lim, s, readFails);
    ReadRest(lim, s, readFails);
    if s.connection == Up {
      if s.reader.failed || readFails { FailedReadAgrees(lim, s, readFails); } else { GoodReadAgrees(lim, s); }
    }
  }

  lemma DeliverAgrees(lim: Limits, s: State)
    requires Enabled(lim, s, Deliver) && Agrees(s) && StoreOk(s.store) && ReaderOk(s)
    ensures Agrees(Next(lim, s, Deliver))
  {
    var t := Next(lim, s, Deliver);
    var run := s.reader.work.detail;
    forall k, r | Owes(t.clients, k, r) ensures UpToDate(t, k, r) {
      assert Owes(s.clients, k, r) && UpToDate(s, k, r);
      DeliverShows(s.clients[k], run, lim.pending, r);
      assert s.store[r].id == r && s.clients[k].phase == Streaming;
      assert Announced(s, r) ==> Announced(t, r) || run == s.store[r];
    }
  }

  lemma DeliverStepKeeps(lim: Limits, s: State)
    requires LimitsOk(lim) && Inv(lim, s) && Enabled(lim, s, Deliver)
    ensures Inv(lim, Next(lim, s, Deliver))
  {
    DeliverAllKeeps(lim, s.store, s.clients, s.reader.work.detail);
    if s.connection == Up { DeliverAgrees(lim, s); }
  }

  // ---- Commits ----

  lemma TrackKeeps(lim: Limits, store: map<RunId, Detail>, client: Client, run: Detail)
    requires ClientOk(lim, store, client) && (run.id in store ==> store[run.id].version <= run.version)
    ensures ClientOk(lim, store[run.id := run], Track(client, run))
  {
  }

  lemma CommitClients(lim: Limits, s: State, run: Detail)
    requires AllOk(lim, s.store, s.clients) && CountsOk(lim, s.clients)
    requires run.id in s.store ==> s.store[run.id].version <= run.version
    ensures AllOk(lim, s.store[run.id := run], TrackAll(s.clients, run)) && CountsOk(lim, TrackAll(s.clients, run))
  {
    var b := TrackAll(s.clients, run);
    SameStreams(lim, s.clients, b);
    forall k | k in b ensures ClientOk(lim, s.store[run.id := run], b[k]) { TrackKeeps(lim, s.store, s.clients[k], run); }
  }

  lemma CommitReader(lim: Limits, s: State, run: Detail, owners: seq<Option<User>>)
    requires Enabled(lim, s, Commit(run, owners)) && ReaderOk(s)
    ensures ReaderOk(Next(lim, s, Commit(run, owners)))
  {
  }

  lemma CommitTruthful(lim: Limits, s: State, run: Detail, owners: seq<Option<User>>)
    requires Enabled(lim, s, Commit(run, owners)) && Truthful(s)
    ensures Truthful(Next(lim, s, Commit(run, owners)))
  {
    var t := Next(lim, s, Commit(run, owners));
    forall i | 0 <= i < |t.queue| ensures OwnerIs(t.store, t.queue[i].run, t.queue[i].owner) {
      if i < |s.queue| { assert OwnerIs(s.store, s.queue[i].run, s.queue[i].owner); }
    }
  }

  lemma CommitAgrees(lim: Limits, s: State, run: Detail, owners: seq<Option<User>>)
    requires Enabled(lim, s, Commit(run, owners)) && StoreOk(s.store) && Agrees(s) && s.connection == Up
    ensures Agrees(Next(lim, s, Commit(run, owners)))
  {
    var t := Next(lim, s, Commit(run, owners));
    assert t.queue[|s.queue|] == Notice(run.id, owners[0]);
    forall k, r | Owes(t.clients, k, r) ensures UpToDate(t, k, r) {
      if r != run.id {
        assert Owes(s.clients, k, r) && UpToDate(s, k, r);
        if i :| 0 <= i < |s.queue| && s.queue[i].run == r { assert t.queue[i] == s.queue[i]; }
      } else if r in s.clients[k].tracked {
        assert Owes(s.clients, k, r) && UpToDate(s, k, r);
      }
    }
  }

  lemma CommitKeeps(lim: Limits, s: State, run: Detail, owners: seq<Option<User>>)
    requires LimitsOk(lim) && Inv(lim, s) && Enabled(lim, s, Commit(run, owners))
    ensures Inv(lim, Next(lim, s, Commit(run, owners)))
  {
    CommitClients(lim, s, run);
    CommitReader(lim, s, run, owners);
    CommitTruthful(lim, s, run, owners);
    if s.connection == Up { CommitAgrees(lim, s, run, owners); }
  }

  // ---- Streams come, read their snapshot, drain and go ----

  lemma AddedCounts(clients: map<int, Client>, k: int, c: Client)
    requires k !in clients
    ensures |clients[k := c]| == |clients| + 1
    ensures forall u :: OwnStreams(clients[k := c], u) == OwnStreams(clients, u) + if u == c.sub.user then {k} else {}
  {
    var b := clients[k := c];
    assert b.Keys == clients.Keys + {k} && |b| == |b.Keys| && |clients| == |clients.Keys|;
  }

  lemma SubscribeCounts(lim: Limits, s: State, user: User)
    requires LimitsOk(lim) && CountsOk(lim, s.clients) && Enabled(lim, s, Subscribe(user)) && s.nextId !in s.clients
    ensures CountsOk(lim, Next(lim, s, Subscribe(user)).clients)
  {
    var c := Client(Opened(user), Subscribed, map[], {});
    AddedCounts(s.clients, s.nextId, c);
    var b := s.clients[s.nextId := c];
    forall u ensures |OwnStreams(b, u)| <= lim.perUser {
      assert u != user ==> OwnStreams(b, u) == OwnStreams(s.clients, u);
    }
  }

  lemma SubscribeKeeps(lim: Limits, s: State, user: User)
    requires LimitsOk(lim) && Inv(lim, s) && Enabled(lim, s, Subscribe(user))
    ensures Inv(lim, Next(lim, s, Subscribe(user)))
  {
    var t := Next(lim, s, Subscribe(user));
    SubscribeCounts(lim, s, user);
    if s.connection == Up {
      forall k, r | Owes(t.clients, k, r) ensures UpToDate(t, k, r) { assert Owes(s.clients, k, r) && UpToDate(s, k, r); }
    }
  }

  lemma UnsubscribeCounts(lim: Limits, clients: map<int, Client>, who: int)
    requires CountsOk(lim, clients) && who in clients
    ensures CountsOk(lim, clients - {who})
  {
    var b := clients - {who};
    assert b.Keys == clients.Keys - {who} && |b| == |b.Keys| && |clients| == |clients.Keys|;
    forall u ensures |OwnStreams(b, u)| <= lim.perUser {
      assert OwnStreams(b, u) == OwnStreams(clients, u) - {who};
    }
  }

  lemma UnsubscribeKeeps(lim: Limits, s: State, who: int)
    requires LimitsOk(lim) && Inv(lim, s) && Enabled(lim, s, Unsubscribe(who))
    ensures Inv(lim, Next(lim, s, Unsubscribe(who)))
  {
    var t := Next(lim, s, Unsubscribe(who));
    UnsubscribeCounts(lim, s.clients, who);
    if s.connection == Up {
      forall k, r | Owes(t.clients, k, r) ensures UpToDate(t, k, r) { assert Owes(s.clients, k, r) && UpToDate(s, k, r); }
    }
  }

  /** Replacing one client by one that is in order and belongs to the same user keeps the client invariants. */
  lemma ReplaceKeeps(lim: Limits, store: map<RunId, Detail>, clients: map<int, Client>, who: int, c: Client)
    requires AllOk(lim, store, clients) && CountsOk(lim, clients)
    requires who in clients && c.sub.user == clients[who].sub.user && ClientOk(lim, store, c)
    ensures AllOk(lim, store, clients[who := c]) && CountsOk(lim, clients[who := c])
  {
    SameStreams(lim, clients, clients[who := c]);
  }

  lemma StartSnapshotAgrees(lim: Limits, s: State, who: int, keys: set<RunId>)
    requires Enabled(lim, s, StartSnapshot(who, keys)) && Agrees(s) && StoreOk(s.store)
    ensures Agrees(Next(lim, s, StartSnapshot(who, keys)))
  {
    var t := Next(lim, s, StartSnapshot(who, keys));
    forall k, r | Owes(t.clients, k, r) ensures UpToDate(t, k, r) {
      if k != who { assert Owes(s.clients, k, r) && UpToDate(s, k, r); } else { assert r in Owned(s.store, t.clients[k].sub.user); }
    }
  }

  lemma StartSnapshotKeeps(lim: Limits, s: State, who: int, keys: set<RunId>)
    requires LimitsOk(lim) && Inv(lim, s) && Enabled(lim, s, StartSnapshot(who, keys))
    ensures Inv(lim, Next(lim, s, StartSnapshot(who, keys)))
  {
    assert ClientOk(lim, s.store, s.clients[who]);
    ReplaceKeeps(lim, s.store, s.clients, who, s.clients[who].(phase := Reading, tracked := keys));
    if s.connection == Up { StartSnapshotAgrees(lim, s, who, keys); }
  }

  lemma SnappedOk(lim: Limits, s: State, readFails: bool)
    requires LimitsOk(lim) && s.reader.Snapping? && s.reader.who in s.clients
    requires ClientOk(lim, s.store, s.clients[s.reader.who]) && ReaderOk(s)
    ensures var c := Snapped(s, readFails).clients[s.reader.who];
            ClientOk(lim, s.store, c) && c.sub.user == s.clients[s.reader.who].sub.user
  {
  }

  lemma EndSnapshotAgrees(lim: Limits, s: State, readFails: bool)
    requires Enabled(lim, s, EndSnapshot(readFails)) && Agrees(s) && ReaderOk(s) && StoreOk(s.store)
    ensures Agrees(Next(lim, s, EndSnapshot(readFails)))
  {
    var t := Next(lim, s, EndSnapshot(readFails));
    forall k, r | Owes(t.clients, k, r) ensures UpToDate(t, k, r) { assert Owes(s.clients, k, r) && UpToDate(s, k, r); }
  }

  lemma EndSnapshotClients(lim: Limits, s: State, readFails: bool)
    requires LimitsOk(lim) && AllOk(lim, s.store, s.clients) && CountsOk(lim, s.clients) && ReaderOk(s)
    requires Enabled(lim, s, EndSnapshot(readFails))
    ensures var t := Next(lim, s, EndSnapshot(readFails));
            AllOk(lim, t.store, t.clients) && CountsOk(lim, t.clients) && t.store == s.store && t.connection == s.connection
  {
    var who := s.reader.who;
    if who in s.clients {
      SnappedOk(lim, s, readFails);
      ReplaceKeeps(lim, s.store, s.clients, who, Snapped(s, readFails).clients[who]);
    }
  }

  lemma EndSnapshotRest(lim: Limits, s: State, readFails: bool)
    requires ReaderOk(s) && Truthful(s) && ConnectionOk(s) && Enabled(lim, s, EndSnapshot(readFails))
    ensures var t := Next(lim, s, EndSnapshot(readFails)); ReaderOk(t) && Truthful(t) && ConnectionOk(t)
  {
  }

  lemma EndSnapshotKeeps(lim: Limits, s: State, readFails: bool)
    requires LimitsOk(lim) && Inv(lim, s) && Enabled(lim, s, EndSnapshot(readFails))
    ensures Inv(lim, Next(lim, s, EndSnapshot(readFails)))
  {
    EndSnapshotClients(lim, s, readFails);
    EndSnapshotRest(lim, s, readFails);
    if s.connection == Up { EndSnapshotAgrees(lim, s, readFails); }
  }

  /** Draining, denying and waking change one stream and nothing it shows. */
  lemma StreamStepAgrees(lim: Limits, s: State, act: Act)
    requires Enabled(lim, s, act) && (act.Drain? || act.Deny? || act.Wake?) && Agrees(s)
    ensures Agrees(Next(lim, s, act))
  {
    var t := Next(lim, s, act);
    forall k, r | Owes(t.clients, k, r) ensures UpToDate(t, k, r) {
      assert Owes(s.clients, k, r) && UpToDate(s, k, r);
      assert Shown(t.clients[k], s.store[r].id) == Shown(s.clients[k], s.store[r].id);
    }
  }

  lemma StreamStepClients(lim: Limits, s: State, act: Act)
    requires LimitsOk(lim) && AllOk(lim, s.store, s.clients) && CountsOk(lim, s.clients)
    requires Enabled(lim, s, act) && (act.Drain? || act.Deny? || act.Wake?)
    ensures var t := Next(lim, s, act); AllOk(lim, s.store, t.clients) && CountsOk(lim, t.clients)
  {
    var c := s.clients[act.who];
    assert ClientOk(lim, s.store, c);
    DrainKeeps(lim, s.store, c);
    var d := if act.Drain? then Received(c) else if act.Deny? then c.(sub := Drained(c.sub), phase := Closed) else c.(sub := Woken(c.sub));
    assert Next(lim, s, act).clients == s.clients[act.who := d];
    ReplaceKeeps(lim, s.store, s.clients, act.who, d);
  }

  lemma StreamStepNotBehind(lim: Limits, s: State, act: Act, k: int, run: Detail)
    requires Enabled(lim, s, act) && (act.Drain? || act.Deny? || act.Wake?)
    requires k in s.clients && NotBehind(s.clients[k], run)
    ensures NotBehind(Next(lim, s, act).clients[k], run)
  {
  }

  lemma StreamStepReader(lim: Limits, s: State, act: Act)
    requires ReaderOk(s) && Enabled(lim, s, act) && (act.Drain? || act.Deny? || act.Wake?)
    ensures ReaderOk(Next(lim, s, act))
  {
    var t := Next(lim, s, act);
    if s.reader.Publishing? && s.reader.work.Holding? {
      forall k | k in s.clients ensures NotBehind(t.clients[k], s.reader.work.detail) {
        StreamStepNotBehind(lim, s, act, k, s.reader.work.detail);
      }
    }
    if s.reader.Snapping? && s.reader.who in s.clients {
      assert s.clients[s.reader.who].phase == Reading;
      assert act.Drain? || act.Deny? ==> act.who != s.reader.who;
    }
  }

  lemma StreamStepKeeps(lim: Limits, s: State, act: Act)
    requires LimitsOk(lim) && Inv(lim, s) && Enabled(lim, s, act) && (act.Drain? || act.Deny? || act.Wake?)
    ensures Inv(lim, Next(lim, s, act))
  {
    StreamStepClients(lim, s, act);
    StreamStepReader(lim, s, act);
    if s.connection == Up { StreamStepAgrees(lim, s, act); }
  }

  lemma StepInv(lim: Limits, s: State, act: Act)
    requires LimitsOk(lim) && Inv(lim, s) && Enabled(lim, s, act)
    ensures Inv(lim, Next(lim, s, act))
  {
    match act
    case Commit(run, owners) => CommitKeeps(lim, s, run, owners);
    case Connect => ConnectionStepKeeps(lim, s, act);
    case Announce => ConnectionStepKeeps(lim, s, act);
    case Break => ConnectionStepKeeps(lim, s, act);
    case NoticeLoss => NoticeLossKeeps(lim, s);
    case Collect(n) => CollectKeeps(lim, s, n);
    case StartPublish => PublishEdgeKeeps(lim, s, act);
    case Choose(r) => ChooseKeeps(lim, s, r);
    case Read(readFails) => ReadKeeps(lim, s, readFails);
    case Deliver => DeliverStepKeeps(lim, s);
    case EndPublish => PublishEdgeKeeps(lim, s, act);
    case Subscribe(u) => SubscribeKeeps(lim, s, u);
    case StartSnapshot(k, keys) => StartSnapshotKeeps(lim, s, k, keys);
    case EndSnapshot(readFails) => EndSnapshotKeeps(lim, s, readFails);
    case Drain(k) => StreamStepKeeps(lim, s, act);
    case Deny(k) => StreamStepKeeps(lim, s, act);
    case Wake(k) => StreamStepKeeps(lim, s, act);
    case Unsubscribe(k) => UnsubscribeKeeps(lim, s, k);
  }
}

/**
 * Events on their way from the outbox to acceptance: publishers, the partitioned request topic,
 * consumers and their committed offsets, with every failure the code can meet between two steps.
 */
module Transport {
  import opened Basics
  import L = Ledger

  /** What `decode_request` makes of a record (module Wire): a run, or a reason to reject it. */
  datatype Request = Names(run: L.RunId) | Malformed(rejection: L.Rejection)

  /** `origin` is the outbox event a publisher sent; None is a record from somewhere else. */
  datatype Record = Record(origin: Option<int>, request: Request)

  /** An open outbox transaction: its locked rows, the first `sent` of them acknowledged. */
  datatype Publisher = Publisher(batch: seq<int>, sent: int)

  datatype Phase =
    | Idle                       // ready to poll
    | Holding(at: L.Location)    // polled, not yet consumed
    | Missing(at: L.Location)    // to be recorded as a rejection
    | Done(at: L.Location)       // consumed, offset not yet committed

  /** `position` is the next offset to handle; the client's own fetch position runs ahead only while a record is held. */
  datatype Consumer = Consumer(position: map<int, int>, phase: Phase)

  /** `handed` were given to the producer at least once; `acked` came back acknowledged. */
  datatype Bus = Bus(
    topic: map<int, seq<Record>>, eventsTopic: seq<int>, committed: map<int, int>,
    handed: set<int>, acked: set<int>, publishers: map<int, Publisher>, consumers: map<int, Consumer>)

  datatype Act =
    | ClaimBatch(who: int, batch: seq<int>)
    | Produce(who: int, partition: int, delivered: bool, acknowledged: bool)
    | CommitBatch(who: int)
    | Abandon(who: int)                          // delivery error, failed commit or crash: the transaction rolls back
    | LateDelivery(event: int, partition: int)   // a message the producer still held
    | ForeignRecord(partition: int, request: Request)
    | Open(who: int)
    | Rebalance(who: int, partition: int)
    | Poll(who: int, partition: int)
    | Consume(who: int, time: int)
    | RecordRejection(who: int)
    | CommitOffset(who: int)
    | Close(who: int)                            // any exception, a failed or lost offset commit, or a crash

  function Append(topic: map<int, seq<Record>>, partition: int, record: Record): map<int, seq<Record>>
    requires partition in topic
  {
    topic[partition := topic[partition] + [record]]
  }

  /** A message for event `e` reaches the topic of its kind. */
  function Deliver(outbox: seq<L.Event>, bus: Bus, e: int, partition: int): Bus
    requires 0 <= e < |outbox| && partition in bus.topic
  {
    if outbox[e].kind == L.Requested
    then bus.(topic := Append(bus.topic, partition, Record(Some(e), Names(outbox[e].run))))
    else bus.(eventsTopic := bus.eventsTopic + [e])
  }

  function Locked(bus: Bus): set<int> { set w, e | w in bus.publishers && e in bus.publishers[w].batch :: e }

  predicate Holds(bus: Bus, at: L.Location) {
    at.partition in bus.topic && 0 <= at.offset < |bus.topic[at.partition]|
  }

  function RecordAt(bus: Bus, at: L.Location): Record
    requires Holds(bus, at)
  {
    bus.topic[at.partition][at.offset]
  }

  predicate Distinct(s: seq<int>) { forall i, j :: 0 <= i < j < |s| ==> s[i] != s[j] }

  ghost predicate Enabled(db: L.Db, bus: Bus, act: Act) {
    match act
    case ClaimBatch(w, batch) =>   // unpublished rows, skipping those another transaction has locked
      && w !in bus.publishers && Distinct(batch)
      && forall e :: e in batch ==> 0 <= e < |db.outbox| && e !in db.published && e !in Locked(bus)
    case Produce(w, partition, delivered, acknowledged) =>
      && w in bus.publishers && 0 <= bus.publishers[w].sent < |bus.publishers[w].batch|
      && 0 <= bus.publishers[w].batch[bus.publishers[w].sent] < |db.outbox|
      && partition in bus.topic && (acknowledged ==> delivered)
    case CommitBatch(w) => w in bus.publishers && bus.publishers[w].sent == |bus.publishers[w].batch|
    case Abandon(w) => w in bus.publishers
    case LateDelivery(e, partition) => e in bus.handed && 0 <= e < |db.outbox| && partition in bus.topic
    case ForeignRecord(partition, _) => partition in bus.topic
    case Open(k) => k !in bus.consumers
    case Rebalance(k, partition) => k in bus.consumers && bus.consumers[k].phase == Idle && partition in bus.committed
    case Poll(k, partition) =>
      && k in bus.consumers && bus.consumers[k].phase == Idle
      && partition in bus.consumers[k].position && Holds(bus, L.Location(partition, bus.consumers[k].position[partition]))
    case Consume(k, _) => k in bus.consumers && bus.consumers[k].phase.Holding? && Holds(bus, bus.consumers[k].phase.at)
    case RecordRejection(k) => k in bus.consumers && bus.consumers[k].phase.Missing? && Holds(bus, bus.consumers[k].phase.at)
    case CommitOffset(k) => k in bus.consumers && bus.consumers[k].phase.Done? && bus.consumers[k].phase.at.partition in bus.committed
    case Close(k) => k in bus.consumers
  }

  /** The transaction an act commits, if any. */
  ghost function DbOp(db: L.Db, bus: Bus, act: Act): Option<L.Op>
    requires Enabled(db, bus, act)
  {
    match act
    case CommitBatch(w) => Some(L.MarkPublished(set e | e in bus.publishers[w].batch))
    case Consume(k, time) =>
      var request := RecordAt(bus, bus.consumers[k].phase.at).request;
      if request.Names? && request.run in db.runs then Some(L.Accept(request.run, time)) else None
    case RecordRejection(k) =>
      var at := bus.consumers[k].phase.at;
      var request := RecordAt(bus, at).request;
      Some(L.Reject(at, if request.Malformed? then request.rejection
                        else L.Rejection("run_not_found", "Run does not exist.")))
    case _ => None
  }

  function WithPhase(bus: Bus, k: int, phase: Phase): Bus
    requires k in bus.consumers
  {
    bus.(consumers := bus.consumers[k := bus.consumers[k].(phase := phase)])
  }

  ghost function NextBus(db: L.Db, bus: Bus, act: Act): Bus
    requires Enabled(db, bus, act)
  {
    match act
    case ClaimBatch(w, batch) => bus.(publishers := bus.publishers[w := Publisher(batch, 0)])
    case Produce(w, partition, delivered, acknowledged) =>
      var p := bus.publishers[w];
      var e := p.batch[p.sent];
      var sent := (if delivered then Deliver(db.outbox, bus, e, partition) else bus).(handed := bus.handed + {e});
      if acknowledged
      then sent.(acked := bus.acked + {e}, publishers := bus.publishers[w := p.(sent := p.sent + 1)])
      else sent.(publishers := bus.publishers - {w})
    case CommitBatch(w) => bus.(publishers := bus.publishers - {w})
    case Abandon(w) => bus.(publishers := bus.publishers - {w})
    case LateDelivery(e, partition) => Deliver(db.outbox, bus, e, partition)
    case ForeignRecord(partition, request) => bus.(topic := Append(bus.topic, partition, Record(None, request)))
    case Open(k) => bus.(consumers := bus.consumers[k := Consumer(bus.committed, Idle)])
    case Rebalance(k, partition) =>
      var consumer := bus.consumers[k];
      bus.(consumers := bus.consumers[k := consumer.(position := consumer.position[partition := bus.committed[partition]])])
    case Poll(k, partition) =>
      WithPhase(bus, k, Holding(L.Location(partition, bus.consumers[k].position[partition])))
    case Consume(k, _) =>
      var at := bus.consumers[k].phase.at;
      WithPhase(bus, k, if DbOp(db, bus, act).Some? then Done(at) else Missing(at))
    case RecordRejection(k) => WithPhase(bus, k, Done(bus.consumers[k].phase.at))
    case CommitOffset(k) =>
      var at := bus.consumers[k].phase.at;
      bus.(committed := bus.committed[at.partition := at.offset + 1],
           consumers := bus.consumers[k := Consumer(bus.consumers[k].position[at.partition := at.offset + 1], Idle)])
    case Close(k) => bus.(consumers := bus.consumers - {k})
  }

  // ---- Invariant ----

  /** Records that claim an origin tell the truth about it. */
  ghost predicate Honest(outbox: seq<L.Event>, topic: map<int, seq<Record>>, handed: set<int>) {
    forall p, o :: p in topic && 0 <= o < |topic[p]| && topic[p][o].origin.Some? ==>
      HonestRecord(outbox, handed, topic[p][o])
  }

  predicate HonestRecord(outbox: seq<L.Event>, handed: set<int>, record: Record)
    requires record.origin.Some?
  {
    var e := record.origin.value;
    e in handed && 0 <= e < |outbox| && outbox[e].kind == L.Requested && record.request == Names(outbox[e].run)
  }

  ghost predicate Logged(topic: map<int, seq<Record>>, e: int) {
    exists p, o :: p in topic && 0 <= o < |topic[p]| && topic[p][o].origin == Some(e)
  }

  /** An acknowledged event is in the topic of its kind. */
  ghost predicate AckedLogged(outbox: seq<L.Event>, bus: Bus) {
    forall e :: e in bus.acked ==>
      0 <= e < |outbox| && (if outbox[e].kind == L.Requested then Logged(bus.topic, e) else e in bus.eventsTopic)
  }

  ghost predicate PublisherOk(db: L.Db, bus: Bus, p: Publisher) {
    && 0 <= p.sent <= |p.batch|
    && (forall i :: 0 <= i < |p.batch| ==> 0 <= p.batch[i] < |db.outbox| && p.batch[i] !in db.published)
    && (forall i :: 0 <= i < p.sent ==> p.batch[i] in bus.acked)
  }

  /** No event is in the hands of two publishers. */
  ghost predicate Disjoint(publishers: map<int, Publisher>) {
    forall v, w, e :: v in publishers && w in publishers && e in publishers[v].batch && e in publishers[w].batch ==> v == w
  }

  /** The request at a location has its durable outcome. A published request is never rejected. */
  ghost predicate Resolved(db: L.Db, record: Record, at: L.Location) {
    || (record.request.Names? && record.request.run in db.runs && db.runs[record.request.run].Settled())
    || (record.origin.None? && at in db.rejections)
  }

  ghost predicate ResolvedBelow(db: L.Db, topic: map<int, seq<Record>>, p: int, upTo: int)
    requires p in topic
  {
    0 <= upTo <= |topic[p]| && forall o :: 0 <= o < upTo ==> Resolved(db, topic[p][o], L.Location(p, o))
  }

  /** Everything below a consumer's positions is resolved; the record it works on is the next one. */
  ghost predicate ConsumerOk(db: L.Db, topic: map<int, seq<Record>>, k: Consumer) {
    && k.position.Keys <= topic.Keys
    && (forall p :: p in k.position ==> ResolvedBelow(db, topic, p, k.position[p]))
    && (!k.phase.Idle? ==> WorkOk(db, topic, k))
  }

  ghost predicate WorkOk(db: L.Db, topic: map<int, seq<Record>>, k: Consumer)
    requires !k.phase.Idle? && k.position.Keys <= topic.Keys
  {
    var at := k.phase.at;
    && at.partition in k.position && k.position[at.partition] == at.offset
    && 0 <= at.offset < |topic[at.partition]|
    && (k.phase.Done? ==> Resolved(db, topic[at.partition][at.offset], at))
    && (k.phase.Missing? ==> topic[at.partition][at.offset].origin.None?)
  }

  ghost predicate BusInv(db: L.Db, bus: Bus) {
    && Honest(db.outbox, bus.topic, bus.handed)
    && AckedLogged(db.outbox, bus)
    && db.published <= bus.acked
    && (forall w :: w in bus.publishers ==> PublisherOk(db, bus, bus.publishers[w]))
    && Disjoint(bus.publishers)
    && OffsetsOk(db, bus)
    && (forall k :: k in bus.consumers ==> ConsumerOk(db, bus.topic, bus.consumers[k]))
  }

  ghost predicate OffsetsOk(db: L.Db, bus: Bus) {
    bus.committed.Keys == bus.topic.Keys && forall p :: p in bus.topic ==> ResolvedBelow(db, bus.topic, p, bus.committed[p])
  }

  // ---- The database moves on, the bus stays ----

  lemma ResolvedLater(db: L.Db, db': L.Db, record: Record, at: L.Location)
    requires L.Later(db, db') && Resolved(db, record, at)
    ensures Resolved(db', record, at)
  {
    if record.request.Names? && record.request.run in db.runs {
      assert L.RunLater(db.runs[record.request.run], db'.runs[record.request.run]);
    }
  }

  lemma ResolvedBelowLater(db: L.Db, db': L.Db, topic: map<int, seq<Record>>, p: int, upTo: int)
    requires L.Later(db, db') && p in topic && ResolvedBelow(db, topic, p, upTo)
    ensures ResolvedBelow(db', topic, p, upTo)
  {
    forall o | 0 <= o < upTo ensures Resolved(db', topic[p][o], L.Location(p, o)) {
      ResolvedLater(db, db', topic[p][o], L.Location(p, o));
    }
  }

  lemma ConsumerLater(db: L.Db, db': L.Db, topic: map<int, seq<Record>>, k: Consumer)
    requires L.Later(db, db') && ConsumerOk(db, topic, k)
    ensures ConsumerOk(db', topic, k)
  {
    forall p | p in k.position ensures ResolvedBelow(db', topic, p, k.position[p]) {
      ResolvedBelowLater(db, db', topic, p, k.position[p]);
    }
    if k.phase.Done? {
      ResolvedLater(db, db', topic[k.phase.at.partition][k.phase.at.offset], k.phase.at);
    }
  }

  lemma OffsetsLater(db: L.Db, db': L.Db, bus: Bus)
    requires L.Later(db, db') && OffsetsOk(db, bus)
    ensures OffsetsOk(db', bus)
  {
    forall p | p in bus.topic ensures ResolvedBelow(db', bus.topic, p, bus.committed[p]) {
      ResolvedBelowLater(db, db', bus.topic, p, bus.committed[p]);
    }
  }

  lemma HonestLater(outbox: seq<L.Event>, outbox': seq<L.Event>, topic: map<int, seq<Record>>, handed: set<int>)
    requires outbox <= outbox' && Honest(outbox, topic, handed)
    ensures Honest(outbox', topic, handed)
  {
  }

  /** Any later database with the same published events keeps the bus in order. */
  lemma BusKept(db: L.Db, db': L.Db, bus: Bus)
    requires BusInv(db, bus) && L.Later(db, db') && db'.published == db.published
    ensures BusInv(db', bus)
  {
    HonestLater(db.outbox, db'.outbox, bus.topic, bus.handed);
    OffsetsLater(db, db', bus);
    forall k | k in bus.consumers ensures ConsumerOk(db', bus.topic, bus.consumers[k]) {
      ConsumerLater(db, db', bus.topic, bus.consumers[k]);
    }
  }

  // ---- A topic grows ----

  lemma LoggedGrows(topic: map<int, seq<Record>>, partition: int, record: Record, e: int)
    requires partition in topic && Logged(topic, e)
    ensures Logged(Append(topic, partition, record), e)
  {
    var p: int, o: int :| p in topic && 0 <= o < |topic[p]| && topic[p][o].origin == Some(e);
    var topic': map<int, seq<Record>> := Append(topic, partition, record);
    assert p in topic' && o < |topic'[p]| && topic'[p][o].origin == Some(e);
  }

  lemma LoggedNow(topic: map<int, seq<Record>>, partition: int, record: Record)
    requires partition in topic && record.origin.Some?
    ensures Logged(Append(topic, partition, record), record.origin.value)
  {
    var topic': map<int, seq<Record>> := Append(topic, partition, record);
    assert topic'[partition][|topic[partition]|] == record;
  }

  lemma ResolvedBelowGrows(db: L.Db, topic: map<int, seq<Record>>, partition: int, record: Record, p: int, upTo: int)
    requires partition in topic && p in topic && ResolvedBelow(db, topic, p, upTo)
    ensures ResolvedBelow(db, Append(topic, partition, record), p, upTo)
  {
  }

  lemma ConsumerGrows(db: L.Db, topic: map<int, seq<Record>>, partition: int, record: Record, k: Consumer)
    requires partition in topic && ConsumerOk(db, topic, k)
    ensures ConsumerOk(db, Append(topic, partition, record), k)
  {
    forall p | p in k.position ensures ResolvedBelow(db, Append(topic, partition, record), p, k.position[p]) {
      ResolvedBelowGrows(db, topic, partition, record, p, k.position[p]);
    }
  }

  lemma HonestGrows(outbox: seq<L.Event>, topic: map<int, seq<Record>>, handed: set<int>, partition: int, record: Record)
    requires partition in topic && Honest(outbox, topic, handed)
    requires record.origin.Some? ==> HonestRecord(outbox, handed, record)
    ensures Honest(outbox, Append(topic, partition, record), handed)
  {
  }

  /** Appending one honest record keeps everything. */
  lemma AppendKeeps(db: L.Db, bus: Bus, partition: int, record: Record)
    requires BusInv(db, bus) && partition in bus.topic
    requires record.origin.Some? ==> HonestRecord(db.outbox, bus.handed, record)
    ensures BusInv(db, bus.(topic := Append(bus.topic, partition, record)))
  {
    var bus' := bus.(topic := Append(bus.topic, partition, record));
    HonestGrows(db.outbox, bus.topic, bus.handed, partition, record);
    forall e | e in bus.acked && db.outbox[e].kind == L.Requested ensures Logged(bus'.topic, e) {
      LoggedGrows(bus.topic, partition, record, e);
    }
    forall p | p in bus'.topic ensures ResolvedBelow(db, bus'.topic, p, bus'.committed[p]) {
      ResolvedBelowGrows(db, bus.topic, partition, record, p, bus.committed[p]);
    }
    forall k | k in bus'.consumers ensures ConsumerOk(db, bus'.topic, bus'.consumers[k]) {
      ConsumerGrows(db, bus.topic, partition, record, bus.consumers[k]);
    }
  }

  lemma DeliverKeeps(db: L.Db, bus: Bus, e: int, partition: int)
    requires BusInv(db, bus) && 0 <= e < |db.outbox| && partition in bus.topic && e in bus.handed
    ensures BusInv(db, Deliver(db.outbox, bus, e, partition))
    ensures var bus' := Deliver(db.outbox, bus, e, partition);
            if db.outbox[e].kind == L.Requested then Logged(bus'.topic, e) else e in bus'.eventsTopic
  {
    if db.outbox[e].kind == L.Requested {
      var record := Record(Some(e), Names(db.outbox[e].run));
      AppendKeeps(db, bus, partition, record);
      LoggedNow(bus.topic, partition, record);
    }
  }

  // ---- Publishers ----

  lemma HandedKeeps(db: L.Db, bus: Bus, e: int)
    requires BusInv(db, bus)
    ensures BusInv(db, bus.(handed := bus.handed + {e}))
  {
    assert AckedLogged(db.outbox, bus.(handed := bus.handed + {e}));
  }

  lemma ReleaseKeeps(db: L.Db, bus: Bus, w: int)
    requires BusInv(db, bus)
    ensures BusInv(db, bus.(publishers := bus.publishers - {w}))
  {
    assert AckedLogged(db.outbox, bus.(publishers := bus.publishers - {w}));
  }

  lemma AckKeeps(db: L.Db, bus: Bus, w: int)
    requires BusInv(db, bus) && w in bus.publishers && 0 <= bus.publishers[w].sent < |bus.publishers[w].batch|
    requires var e := bus.publishers[w].batch[bus.publishers[w].sent];
             0 <= e < |db.outbox| && if db.outbox[e].kind == L.Requested then Logged(bus.topic, e) else e in bus.eventsTopic
    ensures var p := bus.publishers[w];
            BusInv(db, bus.(acked := bus.acked + {p.batch[p.sent]}, publishers := bus.publishers[w := p.(sent := p.sent + 1)]))
  {
    var p := bus.publishers[w];
    var bus' := bus.(acked := bus.acked + {p.batch[p.sent]}, publishers := bus.publishers[w := p.(sent := p.sent + 1)]);
    assert AckedLogged(db.outbox, bus');
    assert forall v :: v in bus'.publishers ==> bus'.publishers[v].batch == bus.publishers[v].batch;
    assert Disjoint(bus'.publishers);
  }

  lemma ProduceKeeps(db: L.Db, bus: Bus, act: Act)
    requires BusInv(db, bus) && act.Produce? && Enabled(db, bus, act)
    ensures BusInv(db, NextBus(db, bus, act))
  {
    var p := bus.publishers[act.who];
    var e := p.batch[p.sent];
    var handed := bus.(handed := bus.handed + {e});
    HandedKeeps(db, bus, e);
    if act.delivered {
      DeliverKeeps(db, handed, e, act.partition);
    }
    var sent := if act.delivered then Deliver(db.outbox, handed, e, act.partition) else handed;
    if act.acknowledged {
      AckKeeps(db, sent, act.who);
    } else {
      ReleaseKeeps(db, sent, act.who);
    }
  }

  lemma ClaimBatchKeeps(db: L.Db, bus: Bus, act: Act)
    requires BusInv(db, bus) && act.ClaimBatch? && Enabled(db, bus, act)
    ensures BusInv(db, NextBus(db, bus, act))
  {
    var bus' := NextBus(db, bus, act);
    assert AckedLogged(db.outbox, bus');
    forall w | w in bus'.publishers ensures PublisherOk(db, bus', bus'.publishers[w]) {
      if w == act.who {
        assert forall i :: 0 <= i < |act.batch| ==> act.batch[i] in act.batch;
      } else {
        assert PublisherOk(db, bus, bus.publishers[w]);
      }
    }
    assert forall w, e :: w in bus.publishers && e in bus.publishers[w].batch ==> e in Locked(bus);
    assert Disjoint(bus'.publishers);
  }

  /** Committing a batch publishes only acknowledged events and leaves other batches unpublished. */
  lemma CommitBatchKeeps(c: L.Config, db: L.Db, bus: Bus, act: Act)
    requires BusInv(db, bus) && act.CommitBatch? && Enabled(db, bus, act)
    ensures var op := DbOp(db, bus, act).value;
            L.Commits(c, db, op) && BusInv(L.Apply(c, db, op), NextBus(db, bus, act))
  {
    var op := DbOp(db, bus, act).value;
    var p := bus.publishers[act.who];
    assert PublisherOk(db, bus, p);
    var db' := L.Apply(c, db, op);
    var bus' := NextBus(db, bus, act);
    L.SideTablesMoveForward(c, db, op);
    OffsetsLater(db, db', bus);
    forall k | k in bus'.consumers ensures ConsumerOk(db', bus'.topic, bus'.consumers[k]) {
      ConsumerLater(db, db', bus.topic, bus.consumers[k]);
    }
    forall w | w in bus'.publishers ensures PublisherOk(db', bus', bus'.publishers[w]) {
      assert PublisherOk(db, bus, bus.publishers[w]);
      forall i | 0 <= i < |bus.publishers[w].batch| ensures bus.publishers[w].batch[i] !in op.events {
        assert bus.publishers[w].batch[i] in bus.publishers[w].batch;
      }
    }
    assert AckedLogged(db'.outbox, bus');
  }

  // ---- Consumers ----

  /** Replacing one consumer by one that is in order keeps everything. */
  lemma ConsumerKeeps(db: L.Db, bus: Bus, k: int, consumer: Consumer)
    requires BusInv(db, bus) && ConsumerOk(db, bus.topic, consumer)
    ensures BusInv(db, bus.(consumers := bus.consumers[k := consumer]))
  {
    assert AckedLogged(db.outbox, bus.(consumers := bus.consumers[k := consumer]));
  }

  lemma MoveConsumerKeeps(db: L.Db, bus: Bus, act: Act)
    requires BusInv(db, bus) && (act.Open? || act.Rebalance? || act.Poll? || act.Close?) && Enabled(db, bus, act)
    ensures BusInv(db, NextBus(db, bus, act))
  {
    if act.Close? {
      assert AckedLogged(db.outbox, NextBus(db, bus, act));
    } else {
      var consumer := NextBus(db, bus, act).consumers[act.who];
      assert act.who in bus.consumers ==> ConsumerOk(db, bus.topic, bus.consumers[act.who]);
      ConsumerKeeps(db, bus, act.who, consumer);
    }
  }

  lemma ConsumeKeeps(c: L.Config, db: L.Db, bus: Bus, act: Act)
    requires L.Inv(c, db) && BusInv(db, bus) && act.Consume? && Enabled(db, bus, act)
    ensures var op := DbOp(db, bus, act);
            && (op.Some? ==> L.Commits(c, db, op.value) && BusInv(L.Apply(c, db, op.value), NextBus(db, bus, act)))
            && (op.None? ==> BusInv(db, NextBus(db, bus, act)))
  {
    var k := bus.consumers[act.who];
    var record := RecordAt(bus, k.phase.at);
    var op := DbOp(db, bus, act);
    assert ConsumerOk(db, bus.topic, k);
    if op.Some? {
      var r := record.request.run;
      var db' := L.Apply(c, db, op.value);
      L.AcceptMovesForward(c, db, r, act.time);
      BusKept(db, db', bus);
      assert db'.runs[r].Settled();
      ConsumerLater(db, db', bus.topic, k);
      ConsumerKeeps(db', bus, act.who, k.(phase := Done(k.phase.at)));
    } else {
      assert record.origin.None? by { PublishedRequestExists(c, db, bus, k.phase.at); }
      ConsumerKeeps(db, bus, act.who, k.(phase := Missing(k.phase.at)));
    }
  }

  /** A request published from the outbox names a run that exists. */
  lemma PublishedRequestExists(c: L.Config, db: L.Db, bus: Bus, at: L.Location)
    requires L.Inv(c, db) && BusInv(db, bus) && Holds(bus, at)
    ensures var record := RecordAt(bus, at);
            record.origin.Some? ==> record.request.Names? && record.request.run in db.runs
  {
    var record := bus.topic[at.partition][at.offset];
    if record.origin.Some? {
      assert HonestRecord(db.outbox, bus.handed, record);
      assert db.outbox[record.origin.value] in db.outbox;
    }
  }

  lemma RecordRejectionKeeps(c: L.Config, db: L.Db, bus: Bus, act: Act)
    requires BusInv(db, bus) && act.RecordRejection? && Enabled(db, bus, act)
    ensures var op := DbOp(db, bus, act).value;
            L.Commits(c, db, op) && BusInv(L.Apply(c, db, op), NextBus(db, bus, act))
  {
    var op := DbOp(db, bus, act).value;
    var db' := L.Apply(c, db, op);
    var k := bus.consumers[act.who];
    assert ConsumerOk(db, bus.topic, k);
    L.SideTablesMoveForward(c, db, op);
    BusKept(db, db', bus);
    ConsumerLater(db, db', bus.topic, k);
    ConsumerKeeps(db', bus, act.who, k.(phase := Done(k.phase.at)));
  }

  lemma CommitOffsetKeeps(db: L.Db, bus: Bus, act: Act)
    requires BusInv(db, bus) && act.CommitOffset? && Enabled(db, bus, act)
    ensures BusInv(db, NextBus(db, bus, act))
  {
    var k := bus.consumers[act.who];
    var at := k.phase.at;
    assert ConsumerOk(db, bus.topic, k);
    assert ResolvedBelow(db, bus.topic, at.partition, at.offset + 1);
    var offset := bus.(committed := bus.committed[at.partition := at.offset + 1]);
    assert BusInv(db, offset) by {
      assert AckedLogged(db.outbox, offset);
    }
    ConsumerKeeps(db, offset, act.who, Consumer(k.position[at.partition := at.offset + 1], Idle));
  }

  // ---- What it is for ----

  /** The event that asks for run `r`, and where it stands. */
  ghost predicate StillOnItsWay(db: L.Db, bus: Bus, r: L.RunId) {
    exists e :: 0 <= e < |db.outbox| && db.outbox[e] == L.Event(r, L.Requested) && (e !in db.published || Waiting(bus, r))
  }

  ghost predicate Waiting(bus: Bus, r: L.RunId) {
    exists p, o :: p in bus.topic && p in bus.committed && bus.committed[p] <= o < |bus.topic[p]| && 0 <= o
                   && bus.topic[p][o].request == Names(r)
  }

  /** A queued run that nobody has accepted is unpublished or waits at or after a committed offset. */
  lemma NoRequestLost(c: L.Config, db: L.Db, bus: Bus, r: L.RunId)
    requires L.Inv(c, db) && BusInv(db, bus)
    requires r in db.runs && !db.runs[r].Settled()
    ensures StillOnItsWay(db, bus, r)
  {
    assert L.RunInv(c, db, r);
    assert L.Event(r, L.Requested) in multiset(db.outbox);
    var e :| 0 <= e < |db.outbox| && db.outbox[e] == L.Event(r, L.Requested);
    if e in db.published {
      assert e in bus.acked && Logged(bus.topic, e);
      var p: int, o: int :| p in bus.topic && 0 <= o < |bus.topic[p]| && bus.topic[p][o].origin == Some(e);
      assert HonestRecord(db.outbox, bus.handed, bus.topic[p][o]);
      assert ResolvedBelow(db, bus.topic, p, bus.committed[p]);
      assert o < bus.committed[p] ==> Resolved(db, bus.topic[p][o], L.Location(p, o));
      assert Waiting(bus, r);
    }
  }

  /** Every offset below a committed one has its durable outcome. */
  lemma CommittedOffsetsResolved(db: L.Db, bus: Bus, p: int, o: int)
    requires BusInv(db, bus) && p in bus.topic && 0 <= o < bus.committed[p]
    ensures o < |bus.topic[p]|
    ensures var request := bus.topic[p][o].request;
            || (request.Names? && request.run in db.runs && db.runs[request.run].Settled())
            || L.Location(p, o) in db.rejections
  {
    assert ResolvedBelow(db, bus.topic, p, bus.committed[p]);
    assert Resolved(db, bus.topic[p][o], L.Location(p, o));
  }

  /** Handling a record again changes nothing: its run is settled, or its location already has a rejection. */
  lemma ReplayChangesNothing(c: L.Config, db: L.Db, bus: Bus, act: Act)
    requires Enabled(db, bus, act) && (act.Consume? || act.RecordRejection?)
    requires var at := bus.consumers[act.who].phase.at;
             if act.RecordRejection? then at in db.rejections
             else RecordAt(bus, at).request.Names? && RecordAt(bus, at).request.run in db.runs
                  && db.runs[RecordAt(bus, at).request.run].Settled()
    ensures DbOp(db, bus, act).Some? && L.Commits(c, db, DbOp(db, bus, act).value)
    ensures L.Apply(c, db, DbOp(db, bus, act).value) == db
  {
  }
}

/** The publishing and consuming processes as code: their loops, their failures, and what each failure leaves behind. */
module Workers {
  import opened Basics
  import L = Ledger
  import T = Transport
  import F = Effects
  import opened Persistence

  // ---- Consuming ----

  /** `ConsumeRequest.execute`: accept the run a record names, or record why not. */
  function Consumed(c: L.Config, db: L.Db, request: T.Request, at: L.Location, time: int): L.Db {
    if request.Names? && request.run in db.runs then L.AcceptRun(c, db, request.run, time)
    else if at in db.rejections then db
    else db.(rejections := db.rejections[at := RejectionOf(request)])
  }

  function RejectionOf(request: T.Request): L.Rejection {
    if request.Malformed? then request.rejection else NOT_FOUND
  }

  /** Every record from `first` on consumed exactly once, in order, at the given times. */
  function ConsumedInOrder(c: L.Config, db: L.Db, topic: seq<T.Request>, partition: int, first: int, times: seq<int>): L.Db
    requires 0 <= first && first + |times| <= |topic|
  {
    if times == [] then db
    else
      var n := |times| - 1;
      Consumed(c, ConsumedInOrder(c, db, topic, partition, first, times[..n]), topic[first + n],
               L.Location(partition, first + n), times[n])
  }

  /** Consuming a record again changes nothing, whenever it happens. */
  lemma ReplayIsIdle(c: L.Config, db: L.Db, request: T.Request, at: L.Location, t: int, u: int)
    ensures Consumed(c, Consumed(c, db, request, at, t), request, at, u) == Consumed(c, db, request, at, t)
  {
    if request.Names? && request.run in db.runs {
      var once := L.AcceptRun(c, db, request.run, t);
      assert request.run in once.runs && once.runs[request.run].Settled();
      assert L.AcceptRun(c, once, request.run, u) == once;
    }
  }

  lemma OneMore(c: L.Config, db: L.Db, topic: seq<T.Request>, partition: int, first: int, times: seq<int>, time: int)
    requires 0 <= first && first + |times| < |topic|
    ensures ConsumedInOrder(c, db, topic, partition, first, times + [time])
         == Consumed(c, ConsumedInOrder(c, db, topic, partition, first, times), topic[first + |times|],
                     L.Location(partition, first + |times|), time)
  {
    assert (times + [time])[..|times|] == times;
  }

  lemma LastAgain(c: L.Config, db: L.Db, topic: seq<T.Request>, partition: int, first: int, times: seq<int>, time: int)
    requires 0 <= first && times != [] && first + |times| <= |topic|
    ensures var now := ConsumedInOrder(c, db, topic, partition, first, times);
            Consumed(c, now, topic[first + |times| - 1], L.Location(partition, first + |times| - 1), time) == now
  {
    var n := |times| - 1;
    ReplayIsIdle(c, ConsumedInOrder(c, db, topic, partition, first, times[..n]), topic[first + n], L.Location(partition, first + n),
                 times[n], time);
  }

  /** The request at a location has its durable outcome, as the transport defines it of any record. */
  ghost predicate HasOutcome(db: L.Db, request: T.Request, at: L.Location) { T.Resolved(db, T.Record(None, request), at) }

  /** Later arrivals do not matter to what was consumed. */
  lemma {:induction false} PrefixDecides(c: L.Config, db: L.Db, topic: seq<T.Request>, more: seq<T.Request>, partition: int, first: int,
                                         times: seq<int>)
    requires 0 <= first && first + |times| <= |topic| && topic <= more
    ensures ConsumedInOrder(c, db, topic, partition, first, times) == ConsumedInOrder(c, db, more, partition, first, times)
  {
    if times != [] { PrefixDecides(c, db, topic, more, partition, first, times[..|times| - 1]); }
  }

  lemma ConsumedHasOutcome(c: L.Config, db: L.Db, request: T.Request, at: L.Location, time: int)
    ensures HasOutcome(Consumed(c, db, request, at, time), request, at)
  {
  }

  lemma OutcomeStays(c: L.Config, db: L.Db, request: T.Request, at: L.Location, time: int, other: T.Request, where_: L.Location)
    requires HasOutcome(db, other, where_)
    ensures HasOutcome(Consumed(c, db, request, at, time), other, where_)
  {
  }

  /** After consuming in order, every one of those records has a durable outcome. */
  lemma {:induction false} AllHaveOutcomes(c: L.Config, db: L.Db, topic: seq<T.Request>, partition: int, first: int, times: seq<int>, o: int)
    requires 0 <= first <= o < first + |times| <= |topic|
    ensures HasOutcome(ConsumedInOrder(c, db, topic, partition, first, times), topic[o], L.Location(partition, o))
  {
    var n := |times| - 1;
    var before := ConsumedInOrder(c, db, topic, partition, first, times[..n]);
    if o == first + n {
      ConsumedHasOutcome(c, before, topic[o], L.Location(partition, o), times[n]);
    } else {
      AllHaveOutcomes(c, db, topic, partition, first, times[..n], o);
      OutcomeStays(c, before, topic[first + n], L.Location(partition, first + n), times[n], topic[o], L.Location(partition, o));
    }
  }

  /** What consuming one request comes to, for every request and every run. */
  lemma ConsumingDecides(c: L.Config, db: L.Db, request: T.Request, at: L.Location, time: int)
    ensures var db' := Consumed(c, db, request, at, time);
            if request.Names? && request.run in db.runs then
              if db.runs[request.run].Settled() then db' == db
              else if L.RunMatches(c, db, request.run) then F.Accepts(db, db', request.run, time)
              else F.Ends(db, db', request.run, Some(L.DEFINITION_CHANGED), [], time)
            else
              && (at in db.rejections ==> db' == db)
              && (at !in db.rejections ==> F.Rejects(db, db', at, if request.Malformed? then request.rejection else NOT_FOUND))
  {
    if request.Names? && request.run in db.runs { F.AcceptEffect(c, db, request.run, time); }
  }

  const NOT_FOUND := L.Rejection("run_not_found", "Run does not exist.")

  /** The first record naming the run from `first` up to `end`. */
  predicate FirstNaming(topic: seq<T.Request>, first: int, end: int, r: L.RunId, o: int)
    requires 0 <= first <= end <= |topic|
  {
    first <= o < end && topic[o] == T.Names(r) && NoneNames(topic, first, o, r)
  }

  predicate NoneNames(topic: seq<T.Request>, first: int, end: int, r: L.RunId)
    requires 0 <= first <= end <= |topic|
  {
    forall o :: first <= o < end ==> topic[o] != T.Names(r)
  }

  /**
   * What a waiting run becomes when records are consumed in order: the first record that names it decides it, at that
   * record's time, by whether it still matches its release; no other record touches it.
   */
  lemma {:induction false} FirstRecordDecides(c: L.Config, db: L.Db, topic: seq<T.Request>, partition: int, first: int, times: seq<int>,
                                              r: L.RunId) returns (decider: Option<int>)
    requires 0 <= first && first + |times| <= |topic| && r in db.runs && !db.runs[r].Settled()
    ensures var now := ConsumedInOrder(c, db, topic, partition, first, times);
            r in now.runs && now.releases == db.releases && DecidedBy(c, db, topic, first, times, r, now.runs[r], decider)
  {
    decider := None;
    if times != [] {
      var n := |times| - 1;
      var before := ConsumedInOrder(c, db, topic, partition, first, times[..n]);
      var earlier := FirstRecordDecides(c, db, topic, partition, first, times[..n], r);
      ConsumingKeepsOrDecides(c, before, topic[first + n], L.Location(partition, first + n), times[n], r);
      decider := if earlier == None && topic[first + n] == T.Names(r) then Some(first + n) else earlier;
      DecidedNext(c, db, before, topic, first, times, r, earlier);
    }
  }

  /** The row after these records: as it was if none names the run, else decided by the first that does. */
  predicate DecidedBy(c: L.Config, db: L.Db, topic: seq<T.Request>, first: int, times: seq<int>, r: L.RunId, row: L.Run, decider: Option<int>)
    requires 0 <= first && first + |times| <= |topic| && r in db.runs
  {
    match decider
    case None => NoneNames(topic, first, first + |times|, r) && row == db.runs[r]
    case Some(o) => FirstNaming(topic, first, first + |times|, r, o) && row == Decided(c, db, r, times[o - first])
  }

  lemma DecidedNext(c: L.Config, db: L.Db, before: L.Db, topic: seq<T.Request>, first: int, times: seq<int>, r: L.RunId, earlier: Option<int>)
    requires 0 <= first && times != [] && first + |times| <= |topic| && r in db.runs && !db.runs[r].Settled()
    requires r in before.runs && before.releases == db.releases
    requires DecidedBy(c, db, topic, first, times[..|times| - 1], r, before.runs[r], earlier)
    ensures var n := |times| - 1;
            var names := topic[first + n] == T.Names(r);
            DecidedBy(c, db, topic, first, times, r,
                      if names && !before.runs[r].Settled() then Decided(c, before, r, times[n]) else before.runs[r],
                      if earlier == None && names then Some(first + n) else earlier)
  {
    if earlier.Some? { assert before.runs[r].Settled(); }
  }

  lemma ConsumingKeepsOrDecides(c: L.Config, db: L.Db, request: T.Request, at: L.Location, time: int, r: L.RunId)
    requires r in db.runs
    ensures var db' := Consumed(c, db, request, at, time);
            r in db'.runs && db'.releases == db.releases
            && db'.runs[r] == if request == T.Names(r) && !db.runs[r].Settled() then Decided(c, db, r, time) else db.runs[r]
  {
    ConsumingDecides(c, db, request, at, time);
  }

  /** Accepted at this time if it matches its release, else failed for that. */
  function Decided(c: L.Config, db: L.Db, r: L.RunId, time: int): L.Run
    requires r in db.runs
  {
    var run := db.runs[r];
    if L.RunMatches(c, db, r) then run.(acceptedAt := Some(time))
    else run.(status := L.Failed, failure := Some(L.DEFINITION_CHANGED), finishedAt := Some(time))
  }

  /** Every waiting run that matches its release and is named by a consumed record has been accepted. */
  lemma MatchingRunsAreAccepted(c: L.Config, db: L.Db, topic: seq<T.Request>, partition: int, first: int, times: seq<int>,
                                r: L.RunId, i: int)
    requires 0 <= first <= i < first + |times| <= |topic| && topic[i] == T.Names(r)
    requires r in db.runs && !db.runs[r].Settled() && L.RunMatches(c, db, r)
    ensures var now := ConsumedInOrder(c, db, topic, partition, first, times);
            r in now.runs && now.runs[r].status == L.Queued && now.runs[r].Accepted() && now.runs[r].acceptedAt.value in times
  {
    var decider := FirstRecordDecides(c, db, topic, partition, first, times, r);
    assert decider.Some?;
  }

  /** What one turn of the inner loop meets. */
  datatype Turn =
    | Arrives(request: T.Request)                 // a record is appended to the partition
    | Quiet(expired: bool)                        // nothing to poll; has the idle time passed?
    | Works(time: int)
    | PollFails(retryable: bool)                  // also a consumer that cannot be opened
    | DatabaseFails(retryable: bool)              // the transaction rolled back
    | OffsetFails(time: int, retryable: bool)     // consumed, but the offset commit failed

  /** A turn that ends the consumer; without a record there is nothing to consume or commit. */
  predicate Fails(turn: Turn, atEnd: bool) { turn.PollFails? || (!atEnd && (turn.DatabaseFails? || turn.OffsetFails?)) }

  /** A failure after which the worker gives up. */
  predicate Stops(turn: Turn, atEnd: bool, once: bool) { Fails(turn, atEnd) && (once || !turn.retryable) }

  /** Every failed poll so far was one to retry. */
  predicate Retried(script: seq<Turn>, n: int, once: bool)
    requires n <= |script|
  {
    forall m :: 0 <= m < n && script[m].PollFails? ==> script[m].retryable && !once
  }

  class Worker {
    const database: Database
    const partition: int
    var topic: seq<T.Request>
    var committed: int
    var position: int

    constructor (database: Database, partition: int, topic: seq<T.Request>, committed: int)
      ensures this.database == database && this.partition == partition && this.topic == topic && this.committed == committed
    {
      this.database := database;
      this.partition := partition;
      this.topic := topic;
      this.committed := committed;
      position := committed;
    }

    method Consume(o: int, time: int)
      requires 0 <= o < |topic|
      modifies database
      ensures database.Contents() == Consumed(database.config, old(database.Contents()), topic[o], L.Location(partition, o), time)
    {
      var request := topic[o];
      if request.Names? {
        var outcome := database.Accept(request.run, time);
        if outcome.Some? { return; }
      }
      database.RecordRejection(L.Location(partition, o), RejectionOf(request));
    }

    /** The database is `origin` with the records from `first` on consumed once each, at most one beyond the committed offset. */
    ghost predicate Consistent(origin: L.Db, first: int, times: seq<int>)
      reads this, database
    {
      && 0 <= first <= committed && position == committed
      && committed - first <= |times| <= committed - first + 1 && first + |times| <= |topic|
      && database.Contents() == ConsumedInOrder(database.config, origin, topic, partition, first, times)
    }

    lemma Outcomes(origin: L.Db, first: int, times: seq<int>)
      requires Consistent(origin, first, times)
      ensures forall o :: first <= o < committed ==> HasOutcome(database.Contents(), topic[o], L.Location(partition, o))
    {
      forall o | first <= o < committed ensures HasOutcome(database.Contents(), topic[o], L.Location(partition, o)) {
        AllHaveOutcomes(database.config, origin, topic, partition, first, times, o);
      }
    }

    /** Consume the record at the position: a new one, or the one consumed before its offset was lost. */
    method Handle(time: int, ghost origin: L.Db, ghost first: int, ghost times: seq<int>) returns (ghost times': seq<int>)
      requires Consistent(origin, first, times) && position < |topic|
      modifies database
      ensures Consistent(origin, first, times') && |times'| == committed - first + 1
    {
      times' := times;
      if |times| == position - first {
        OneMore(database.config, origin, topic, partition, first, times, time);
        times' := times + [time];
      } else {
        LastAgain(database.config, origin, topic, partition, first, times, time);
      }
      Consume(position, time);
    }

    /** `commit`: the next offset to read is the one after the record. */
    method CommitOffset(ghost origin: L.Db, ghost first: int, ghost times: seq<int>)
      requires Consistent(origin, first, times) && |times| == committed - first + 1
      modifies this`committed, this`position
      ensures Consistent(origin, first, times) && committed == old(committed) + 1
    {
      committed := position + 1;
      position := position + 1;
    }

    /** A record is consumed, and its offset committed unless that fails. */
    method Process(turn: Turn, ghost origin: L.Db, ghost first: int, ghost times: seq<int>) returns (ghost times': seq<int>)
      requires Consistent(origin, first, times) && position < |topic| && (turn.Works? || turn.OffsetFails?)
      modifies this`committed, this`position, database
      ensures Consistent(origin, first, times')
      ensures committed == old(committed) + (if turn.Works? then 1 else 0) && |times'| == old(committed) - first + 1
    {
      times' := Handle(turn.time, origin, first, times);
      if turn.Works? { CommitOffset(origin, first, times'); }
    }

    method Append(request: T.Request, ghost origin: L.Db, ghost first: int, ghost times: seq<int>)
      requires Consistent(origin, first, times)
      modifies this`topic
      ensures Consistent(origin, first, times) && topic == old(topic) + [request]
    {
      topic := topic + [request];
      PrefixDecides(database.config, origin, old(topic), topic, partition, first, times);
    }

    /** The inner loop: one consumer, until the script ends, the work is done or something fails. */
    method Serve(script: seq<Turn>, start: nat, once: bool, ghost origin: L.Db, ghost first: int, ghost times: seq<int>)
      returns (next: nat, failed: Option<bool>, ghost times': seq<int>)
      requires Consistent(origin, first, times) && start < |script| && (once ==> times == [] && committed == first)
      modifies this, database
      ensures Consistent(origin, first, times') && start < next <= |script| && (once ==> |times'| <= 1) && old(topic) <= topic
      ensures failed.Some? <==> Fails(script[next - 1], committed == |topic|)
      ensures failed.Some? ==> failed.value == script[next - 1].retryable
      ensures failed.None? ==> next == |script| || once
      ensures forall m :: start <= m < next - 1 ==> !script[m].PollFails?
    {
      next, failed, times' := start, None, times;
      while next < |script|
        invariant Consistent(origin, first, times') && start <= next <= |script| && old(topic) <= topic
        invariant once ==> times' == [] && committed == first
        invariant next > start ==> !Fails(script[next - 1], committed == |topic|)
        invariant forall m :: start <= m < next ==> !script[m].PollFails?
      {
        var turn := script[next];
        next := next + 1;
        if turn.Arrives? {
          Append(turn.request, origin, first, times');
          continue;
        }
        if turn.PollFails? || (turn.DatabaseFails? && position < |topic|) {
          failed := Some(turn.retryable);
          return;
        }
        if turn.Quiet? || position == |topic| {
          if once && turn.Quiet? && turn.expired { return; }
          continue;
        }
        times' := Process(turn, origin, first, times');
        if turn.OffsetFails? {
          failed := Some(turn.retryable);
          return;
        }
        if once { return; }
      }
    }

    /**
     * `run`, for as long as the script of turns lasts; it takes the first `used` of them. However often it fails, closes
     * its consumer and resumes from the committed offset, the database ends as if every record had been consumed once,
     * in order; at most the record after the last committed one has been consumed without its offset being committed.
     * It returns 1 exactly if the last turn was a failure it does not retry.
     */
    method Run(script: seq<Turn>, once: bool) returns (code: int, ghost times: seq<int>, ghost used: nat)
      requires 0 <= committed <= |topic|
      modifies this, database
      ensures old(committed) <= committed && (committed - old(committed) <= |times| <= committed - old(committed) + 1)
      ensures old(topic) <= topic && old(committed) + |times| <= |topic|
      ensures database.Contents()
           == ConsumedInOrder(database.config, old(database.Contents()), topic, partition, old(committed), times)
      ensures forall o :: old(committed) <= o < committed ==> HasOutcome(database.Contents(), topic[o], L.Location(partition, o))
      ensures once ==> |times| <= 1
      ensures used <= |script| && (code == 0 || code == 1)
      ensures code == 1 <==> used > 0 && Stops(script[used - 1], committed == |topic|, once)
      ensures code == 0 ==> used == |script| || once
      ensures used > 0 ==> Retried(script, used - 1, once)
    {
      ghost var origin, first := database.Contents(), committed;
      times := [];
      code := 0;
      position := committed;
      var i := 0;
      while i < |script|
        invariant 0 <= i <= |script| && Consistent(origin, first, times) && (once ==> times == [] && committed == first)
        invariant old(topic) <= topic && code == 0
        invariant i > 0 ==> !Stops(script[i - 1], committed == |topic|, once)
        invariant Retried(script, i, once)
      {
        position := committed;
        var failed;
        i, failed, times := Serve(script, i, once, origin, first, times);
        if failed == None { break; }
        if !failed.value || once {
          code := 1;
          break;
        }
      }
      used := i;
      Outcomes(origin, first, times);
    }
  }

  // ---- Publishing ----

  datatype PublishError = BadLimit | PublicationFailed | CommitFailed

  /** An event a claim may take: committed, unpublished, and not locked by another publisher. */
  predicate Claimable(db: L.Db, locked: set<int>, e: int) { 0 <= e < |db.outbox| && e !in db.published && e !in locked }

  predicate Ascending(batch: seq<int>) { forall i, j :: 0 <= i < j < |batch| ==> batch[i] < batch[j] }

  /** The oldest claimable events, up to the limit. */
  ghost predicate IsClaim(db: L.Db, locked: set<int>, limit: int, batch: seq<int>) {
    && Ascending(batch) && |batch| <= limit
    && (forall i :: 0 <= i < |batch| ==> Claimable(db, locked, batch[i]))
    && (forall e :: Claimable(db, locked, e) ==> e in batch || (|batch| == limit && forall i :: 0 <= i < |batch| ==> batch[i] < e))
  }

  function Members(batch: seq<int>): set<int> { set e | e in batch }

  class Relay {
    const database: Database
    var acked: set<int>

    constructor (database: Database)
      ensures this.database == database && acked == {}
    {
      this.database := database;
      acked := {};
    }

    /** The claim query: oldest first, skipping rows that are locked. */
    method Claim(limit: nat, locked: set<int>) returns (batch: seq<int>)
      ensures IsClaim(database.Contents(), locked, limit, batch)
    {
      batch := [];
      var e := 0;
      while e < |database.outbox| && |batch| < limit
        invariant 0 <= e <= |database.outbox| && |batch| <= limit && Ascending(batch)
        invariant forall i :: 0 <= i < |batch| ==> Claimable(database.Contents(), locked, batch[i]) && batch[i] < e
        invariant forall d :: Claimable(database.Contents(), locked, d) && d < e ==> d in batch
      {
        if e !in database.published && e !in locked { batch := batch + [e]; }
        e := e + 1;
      }
    }

    /**
     * `execute`: all events of the batch are published, each after its own acknowledgement, or none is.
     * `acknowledges` says which events the broker confirms, `commits` whether the transaction does.
     */
    method Execute(limit: int, locked: set<int>, acknowledges: int -> bool, commits: bool)
      returns (result: Result<int, PublishError>, ghost batch: seq<int>)
      modifies this, database
      ensures result == Err(BadLimit) <==> !(1 <= limit <= 100)
      ensures result == Err(BadLimit) ==> acked == old(acked)
      ensures result != Err(BadLimit) ==> IsClaim(old(database.Contents()), locked, limit, batch)
      ensures result.Ok? <==> 1 <= limit <= 100 && commits && forall i :: 0 <= i < |batch| ==> acknowledges(batch[i])
      ensures result.Ok? ==> result.value == |batch| && Members(batch) <= acked
      ensures database.Contents() == if result.Ok? then old(database.Contents()).(published := old(database.published) + Members(batch))
                                     else old(database.Contents())
      ensures old(acked) <= acked <= old(acked) + Members(batch)
      ensures forall e :: e in acked - old(acked) ==> acknowledges(e)
    {
      batch := [];
      if !(1 <= limit <= 100) { return Err(BadLimit), batch; }
      var events := Claim(limit, locked);
      batch := events;
      var marked := {};
      for i := 0 to |events|
        invariant marked == Members(events[..i]) && old(acked) <= acked <= old(acked) + Members(batch)
        invariant marked <= acked && database.Contents() == old(database.Contents())
        invariant forall j :: 0 <= j < i ==> acknowledges(events[j])
        invariant forall e :: e in acked - old(acked) ==> acknowledges(e)
      {
        if !acknowledges(events[i]) { return Err(PublicationFailed), batch; }
        acked := acked + {events[i]};
        marked := marked + {events[i]};
        assert events[..i + 1] == events[..i] + [events[i]];
      }
      assert events[..|events|] == events;
      if !commits { return Err(CommitFailed), batch; }
      database.published := database.published + marked;
      return Ok(|events|), batch;
    }
  }
}

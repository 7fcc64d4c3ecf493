/**
 * The transactions as code: tables that methods assign row by row. Each method leaves exactly the contents
 * the ledger's operation describes, so every property proved of the ledger is one of these methods.
 * A method body is one transaction, run under the locks whose interleavings module Transactions covers.
 */
module Persistence {
  import opened Basics
  import opened Catalog
  import L = Ledger

  datatype Acceptance = Unchanged | Accepted | FailedRun

  /** What the acceptance use case reads and writes back. */
  datatype Candidate = Candidate(status: L.Status, acceptedAt: Option<int>, failure: Option<string>)

  datatype SubmitError = AdmissionExceeded | RequesterNotFound | Integrity

  class Database {
    const config: L.Config
    var users: set<L.UserId>
    var releases: map<L.ReleaseId, L.Release>
    var runs: map<L.RunId, L.Run>
    var artifacts: map<L.RunId, seq<L.Artifact>>
    var outbox: seq<L.Event>
    var published: set<int>
    var rejections: map<L.Location, L.Rejection>
    ghost var promised: map<L.RunId, Invocation>

    ghost function Contents(): L.Db
      reads this
    {
      L.Db(users, releases, runs, artifacts, outbox, published, rejections, promised)
    }

    constructor (config: L.Config)
      ensures this.config == config && Contents() == L.EMPTY
    {
      this.config := config;
      users, releases, runs, artifacts, outbox, published, rejections := {}, map[], map[], map[], [], {}, map[];
      promised := map[];
    }

    /** `finish_row`. */
    method FinishRow(r: L.RunId, failure: Option<string>, files: seq<L.Artifact>, at: int)
      requires r in runs
      modifies this
      ensures Contents() == L.FinishRow(old(Contents()), r, failure, files, at)
    {
      var row := runs[r];
      if row.Terminal() { return; }
      row := row.(status := if L.Truthy(failure) then L.Failed else L.Succeeded);
      row := row.(failure := failure);
      row := row.(finishedAt := Some(at));
      runs := runs[r := row];
      var rows := if r in artifacts then artifacts[r] else [];
      for i := 0 to |files|
        invariant rows == L.Rows(old(Contents()), r) + files[..i]
        invariant Contents() == old(Contents()).(runs := old(runs)[r := row])
      {
        rows := rows + [files[i]];
      }
      assert files[..|files|] == files;
      artifacts := artifacts[r := rows];
      outbox := outbox + [L.Event(r, if row.status == L.Failed then L.EndedBadly else L.EndedWell)];
    }

    /** `save_outcome`: three assignments after the terminal write, or without it. */
    method SaveOutcome(r: L.RunId, outcome: Candidate, at: int)
      requires r in runs
      modifies this
      ensures var db := if outcome.status == L.Failed then L.FinishRow(old(Contents()), r, outcome.failure, [], at)
                        else old(Contents()).(runs := old(runs)[r := old(runs)[r].(status := outcome.status)]);
              Contents() == db.(runs := db.runs[r := db.runs[r].(acceptedAt := outcome.acceptedAt, failure := outcome.failure)])
    {
      if outcome.status == L.Failed {
        FinishRow(r, outcome.failure, [], at);
      } else {
        runs := runs[r := runs[r].(status := outcome.status)];
      }
      runs := runs[r := runs[r].(acceptedAt := outcome.acceptedAt)];
      runs := runs[r := runs[r].(failure := outcome.failure)];
    }

    /** `execute_with_outcome`; None is RunNotFound. */
    method Accept(r: L.RunId, at: int) returns (outcome: Option<Acceptance>)
      modifies this
      ensures outcome == None <==> r !in old(runs)
      ensures r !in old(runs) ==> Contents() == old(Contents())
      ensures r in old(runs) ==> Contents() == L.AcceptRun(config, old(Contents()), r, at)
      ensures outcome == Some(Unchanged) <==> r in old(runs) && old(runs)[r].Settled()
      ensures outcome == Some(Accepted) <==>
                r in old(runs) && !old(runs)[r].Settled() && L.RunMatches(config, old(Contents()), r)
    {
      if r !in runs { return None; }
      var run := Candidate(runs[r].status, runs[r].acceptedAt, runs[r].failure);
      if run.acceptedAt.Some? || run.status != L.Queued { return Some(Unchanged); }
      var release, mode := runs[r].release, runs[r].mode;
      var compatible := release in releases && L.Matches(config, releases[release], mode, runs[r].fingerprint);
      if compatible {
        SaveOutcome(r, run.(acceptedAt := Some(at)), at);
        promised := promised[r := releases[release].modes[mode]];
        assert runs == old(runs)[r := old(runs)[r].(acceptedAt := Some(at))];
        return Some(Accepted);
      } else {
        SaveOutcome(r, run.(status := L.Failed, failure := Some(L.DEFINITION_CHANGED)), at);
        assert runs == L.FinishRow(old(Contents()), r, Some(L.DEFINITION_CHANGED), [], at).runs;
        return Some(FailedRun);
      }
    }

    /** The first of some runs by creation time and identifier. */
    method Oldest(ids: set<L.RunId>) returns (first: L.RunId)
      requires ids != {} && ids <= runs.Keys
      ensures first in ids && forall s :: s in ids ==> L.NotAfter(Contents(), first, s)
    {
      SomeMember(ids);
      first :| first in ids;
      var todo := ids - {first};
      while todo != {}
        invariant todo <= ids && first in ids
        invariant forall s :: s in ids && s !in todo ==> L.NotAfter(Contents(), first, s)
      {
        SomeMember(todo);
        var r :| r in todo;
        todo := todo - {r};
        if runs[r].createdAt < runs[first].createdAt || (runs[r].createdAt == runs[first].createdAt && r <= first) { first := r; }
      }
    }

    /** The candidate query of `claim`. */
    method NextToDispatch() returns (next: Option<L.RunId>)
      ensures next.Some? ==> L.IsNext(Contents(), next.value)
      ensures next.None? ==> forall r :: r in runs ==> !runs[r].Dispatchable()
    {
      var waiting := set r | r in runs && runs[r].Dispatchable();
      assert forall r :: r in runs && runs[r].Dispatchable() ==> r in waiting;
      if waiting == {} { return None; }
      var first := Oldest(waiting);
      return Some(first);
    }

    /** `claim`: a candidate, when there is room and one waits. */
    method Claim() returns (candidate: Option<L.RunId>)
      ensures candidate.Some? ==> L.IsNext(Contents(), candidate.value) && |L.RunningRuns(Contents())| < config.capacity
      ensures candidate.None? ==> |L.RunningRuns(Contents())| >= config.capacity || forall r :: r in runs ==> !runs[r].Dispatchable()
    {
      var running := set r | r in runs && runs[r].status == L.Running;
      assert running == L.RunningRuns(Contents());
      if |running| >= config.capacity { return None; }
      candidate := NextToDispatch();
    }

    /** `start`. */
    method Start(r: L.RunId, namespace: string, at: int)
      requires r in runs
      modifies this`runs
      ensures runs == old(runs)[r := old(runs)[r].(status := L.Running, dispatchedAt := Some(at), namespace := Some(namespace))]
    {
      runs := runs[r := runs[r].(status := L.Running)];
      runs := runs[r := runs[r].(dispatchedAt := Some(at))];
      runs := runs[r := runs[r].(namespace := Some(namespace))];
    }

    /** What `claim_next` decides about a candidate. */
    method StartOrFail(r: L.RunId, namespace: string, at: int) returns (started: bool)
      requires r in runs
      modifies this
      ensures started <==> L.RunMatches(config, old(Contents()), r)
      ensures Contents() == L.ClaimRun(config, old(Contents()), r, namespace, at)
    {
      var release := runs[r].release;
      started := release in releases && L.Matches(config, releases[release], runs[r].mode, runs[r].fingerprint);
      if started {
        Start(r, namespace, at);
      } else {
        FinishRow(r, Some(L.DEFINITION_CHANGED), [], at);
      }
    }

    /** `claim` and `claim_next`: start the oldest accepted run when there is room; fail it if its definition changed. */
    method ClaimNext(namespace: string, at: int) returns (started: Option<L.RunId>)
      modifies this
      ensures |L.RunningRuns(old(Contents()))| >= config.capacity ==> started == None && Contents() == old(Contents())
      ensures (forall r :: r in old(runs) ==> !old(runs)[r].Dispatchable()) ==> started == None && Contents() == old(Contents())
      ensures Contents() == old(Contents())
           || exists r :: L.IsNext(old(Contents()), r) && L.Commits(config, old(Contents()), L.Claim(r, namespace, at))
                          && Contents() == L.ClaimRun(config, old(Contents()), r, namespace, at)
      ensures started.Some? ==>
                && L.IsNext(old(Contents()), started.value) && L.RunMatches(config, old(Contents()), started.value)
                && L.Commits(config, old(Contents()), L.Claim(started.value, namespace, at))
                && Contents() == L.ClaimRun(config, old(Contents()), started.value, namespace, at)
      ensures L.Inv(config, old(Contents())) ==>
                && (started.None? <==> |L.RunningRuns(old(Contents()))| >= config.capacity
                                       || forall r :: r in old(runs) ==> !old(runs)[r].Dispatchable())
                && (started.None? ==> Contents() == old(Contents()))
    {
      var candidate := Claim();
      if candidate.None? { return None; }
      var r := candidate.value;
      ghost var before := Contents();
      if L.Inv(config, before) { L.ClaimAlwaysStarts(config, before, r, namespace, at); }
      var begun := StartOrFail(r, namespace, at);
      return if begun then Some(r) else None;
    }

    /** `save_job_uid`: the first identity recorded stays; another one is a conflict. */
    method SaveJobUid(r: L.RunId, uid: string) returns (saved: bool)
      requires r in runs
      modifies this`runs
      ensures saved <==> L.Commits(config, old(Contents()), L.SaveJobUid(r, uid))
      ensures !saved ==> Contents() == old(Contents())
      ensures saved ==> Contents() == L.Apply(config, old(Contents()), L.SaveJobUid(r, uid))
    {
      if runs[r].jobUid.Some? && runs[r].jobUid.value != uid { return false; }
      if runs[r].status == L.Running { runs := runs[r := runs[r].(jobUid := Some(uid))]; }
      return true;
    }

    /** `save_requested`: the run and its request event, or neither. */
    method SaveRequested(r: L.RunId, release: L.ReleaseId, owner: Option<L.UserId>, mode: string, fingerprint: string, at: int,
                         limits: Option<L.Limits>) returns (error: Option<SubmitError>)
      modifies this
      ensures var op := L.Submit(r, release, owner, mode, fingerprint, at, limits);
              && (error.None? <==> L.Commits(config, old(Contents()), op))
              && Contents() == if error.None? then L.Apply(config, old(Contents()), op) else old(Contents())
      ensures error == Some(AdmissionExceeded) <==>
                limits.Some? && (|L.OwnedActive(old(Contents()), owner)| >= limits.value.perUser
                                 || |L.ActiveRuns(old(Contents()))| >= limits.value.total)
      ensures error == Some(RequesterNotFound) <==>
                error != Some(AdmissionExceeded) && owner.Some? && owner.value !in old(users)
    {
      if limits.Some? {
        var total := set s | s in runs && runs[s].Active();
        var owned := set s | s in runs && runs[s].Active() && runs[s].owner == owner;
        assert total == L.ActiveRuns(Contents()) && owned == L.OwnedActive(Contents(), owner);
        if |owned| >= limits.value.perUser || |total| >= limits.value.total { return Some(AdmissionExceeded); }
      }
      if owner.Some? && owner.value !in users { return Some(RequesterNotFound); }
      if r in runs || release !in releases { return Some(Integrity); }
      runs := runs[r := L.Run(release, owner, mode, fingerprint, at, L.Queued, None, None, None, None, None, None)];
      outbox := outbox + [L.Event(r, L.Requested)];
      return None;
    }

    /** `record`: an insert that does nothing when the location is taken. */
    method RecordRejection(location: L.Location, rejection: L.Rejection)
      modifies this`rejections
      ensures Contents() == L.Apply(config, old(Contents()), L.Reject(location, rejection))
    {
      if location !in rejections { rejections := rejections[location := rejection]; }
    }

    /** `register`: upsert by model and image; the guard walks the modes of accepted unfinished runs. `fresh_` names a new row. */
    method Register(fresh_: L.ReleaseId, modelId: string, imageDigest: string, modes: Modes) returns (id: Option<L.ReleaseId>)
      requires fresh_ !in releases
      modifies this`releases
      ensures id.Some? ==>
                && L.Commits(config, old(Contents()), L.Register(id.value, modelId, imageDigest, modes))
                && Contents() == L.Apply(config, old(Contents()), L.Register(id.value, modelId, imageDigest, modes))
      ensures id.None? ==>
                && Contents() == old(Contents())
                && exists k, mode :: k in releases && releases[k].modelId == modelId && releases[k].imageDigest == imageDigest
                     && mode in L.ProtectedModes(Contents(), k) && Get(releases[k].modes, mode) != Get(modes, mode)
      ensures id == Some(fresh_) <==>
                forall k :: k in old(releases) ==> !(old(releases)[k].modelId == modelId && old(releases)[k].imageDigest == imageDigest)
    {
      var same := set k | k in releases && releases[k].modelId == modelId && releases[k].imageDigest == imageDigest;
      if same == {} {
        assert forall k :: k in releases ==> k !in same;
        releases := releases[fresh_ := L.Release(modelId, imageDigest, modes)];
        return Some(fresh_);
      }
      SomeMember(same);
      var k :| k in same;
      var todo := set r | r in runs && runs[r].release == k && runs[r].acceptedAt.Some? && runs[r].Active() :: runs[r].mode;
      assert todo == L.ProtectedModes(Contents(), k);
      while todo != {}
        invariant todo <= L.ProtectedModes(Contents(), k)
        invariant forall mode :: mode in L.ProtectedModes(Contents(), k) - todo ==> Get(releases[k].modes, mode) == Get(modes, mode)
      {
        var mode :| mode in todo;
        if Get(releases[k].modes, mode) != Get(modes, mode) { return None; }
        todo := todo - {mode};
      }
      releases := releases[k := L.Release(modelId, imageDigest, modes)];
      return Some(k);
    }
  }
}

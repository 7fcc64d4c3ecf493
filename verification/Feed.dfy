/** `RunFeed` and `Subscription` as objects, proved against functions on the subscriptions' values. */
module Feed {
  import opened Basics
  import opened FeedSpec

  class Subscription {
    const user: User
    var pending: map<RunId, Detail>
    var error: Option<string>
    var changed: bool
    var scheduled: int

    function View(): Sub
      reads this
    {
      Sub(user, pending, error, changed, scheduled)
    }

    constructor (user: User)
      ensures View() == Opened(user)
    {
      this.user := user;
      pending := map[];
      error := None;
      changed := false;
      scheduled := 0;
    }

    /** `call_soon_threadsafe`: the event loop will set `changed`. */
    method Wake()
      modifies this`scheduled
      ensures scheduled == old(scheduled) + 1
    {
      scheduled := scheduled + 1;
    }

    method Fail(code: string)
      modifies this
      ensures View() == FeedSpec.Fail(old(View()), code)
    {
      if error == None {
        error := Some(code);
        pending := map[];
        Wake();
      }
    }

    method Accept(run: Detail, limit: int)
      modifies this
      ensures View() == DeliverTo(old(View()), run, limit)
    {
      if error.Some? || Some(user) != run.owner { return; }
      if run.id !in pending && |pending| >= limit {
        Fail(RESYNC);
        return;
      }
      var wake := pending == map[];
      pending := pending[run.id := run];
      if wake { Wake(); }
    }
  }

  datatype FeedError = FeedUnavailable | FeedLimitExceeded | StoreFailed

  /** What one read of the store gives. */
  datatype Answer = Found(run: Option<Detail>) | Failed

  /** An entry of a batch, with what the store gives if the entry comes to be read. */
  datatype Change = Change(run: RunId, owner: Option<User>, answer: Answer)

  type Views = map<Subscription, Sub>

  function DeliverEach(v: Views, run: Detail, limit: int): Views { map s | s in v :: DeliverTo(v[s], run, limit) }
  function ResyncEach(v: Views, owner: Option<User>): Views { map s | s in v :: ResyncTo(v[s], owner) }
  function FailEach(v: Views, code: string): Views { map s | s in v :: FeedSpec.Fail(v[s], code) }

  function WatchedIn(v: Views): set<User> { set s | s in v && v[s].error.None? :: v[s].user }

  /** One turn of the publish loop: skip an owner nobody watches, resync after a failure, or deliver what was read. */
  function FirstDone(v: Views, change: Change, failed: bool, limit: int): (Views, bool) {
    var Change(_, owner, answer) := change;
    if owner.Some? && owner.value !in WatchedIn(v) then (v, failed)
    else if failed || answer.Failed? then (ResyncEach(v, owner), true)
    else if answer.run.None? || answer.run.value.owner.None? then (v, false)
    else (DeliverEach(v, answer.run.value, limit), false)
  }

  /** What publishing a batch does to the subscriptions. */
  function Published(v: Views, changes: seq<Change>, failed: bool, limit: int): Views
    decreases |changes|
  {
    if changes == [] || WatchedIn(v) == {} then v
    else
      var (u, f) := FirstDone(v, changes[0], failed, limit);
      Published(u, changes[1..], f, limit)
  }

  /** The runs of one user that a batch of successful reads brings: what reading the database would give. */
  function Brought(changes: seq<Change>, user: User): map<RunId, Detail> {
    if changes == [] then map[]
    else
      var Change(last, _, answer) := changes[|changes| - 1];
      var before := Brought(changes[..|changes| - 1], user);
      if answer.Found? && answer.run.Some? && answer.run.value.owner == Some(user)
      then before[last := answer.run.value] else before
  }

  /** A read returns the run asked for and agrees with the owner the notification named. */
  predicate Sound(change: Change) {
    change.answer.Found? && change.answer.run.Some? ==>
      && change.answer.run.value.id == change.run
      && (change.owner.Some? ==> change.answer.run.value.owner == change.owner)
  }

  predicate AllSound(changes: seq<Change>) { forall i :: 0 <= i < |changes| ==> Sound(changes[i]) }

  predicate Fails(change: Change) { change.answer.Failed? }

  predicate NoneFails(changes: seq<Change>) { forall i :: 0 <= i < |changes| ==> !Fails(changes[i]) }

  predicate Concerns(change: Change, user: User) { change.owner.None? || change.owner.value == user }

  lemma {:induction false} BroughtFirst(changes: seq<Change>, user: User)
    requires changes != []
    ensures Brought(changes, user) == Brought(changes[..1], user) + Brought(changes[1..], user)
  {
    var n := |changes| - 1;
    if n > 0 {
      BroughtFirst(changes[..n], user);
      assert changes[..n][..1] == changes[..1] && changes[..n][1..] == changes[1..][..n - 1];
      assert changes[1..][n - 1] == changes[n];
    } else {
      assert changes[..1] == changes;
    }
  }

  lemma BroughtOver(p: map<RunId, Detail>, changes: seq<Change>, user: User)
    requires changes != []
    ensures p + Brought(changes, user) == p + Brought([changes[0]], user) + Brought(changes[1..], user)
  {
    BroughtFirst(changes, user);
    assert changes[..1] == [changes[0]];
  }

  /** Every change that may concern the user was read successfully. */
  predicate AllWereRead(changes: seq<Change>, failed: bool, user: User) {
    forall i :: 0 <= i < |changes| && Concerns(changes[i], user) ==> !failed && !Fails(changes[i])
  }

  lemma AllReadFirst(changes: seq<Change>, failed: bool, f: bool, user: User)
    requires changes != [] && AllWereRead(changes[1..], f, user) && (failed ==> f)
    requires Concerns(changes[0], user) ==> !failed && !Fails(changes[0])
    ensures AllWereRead(changes, failed, user)
  {
    assert forall i :: 0 < i < |changes| ==> changes[i] == changes[1..][i - 1];
  }

  lemma {:induction false} FailedStays(v: Views, changes: seq<Change>, failed: bool, limit: int, s: Subscription)
    requires s in v && v[s].error.Some?
    ensures s in Published(v, changes, failed, limit) && Published(v, changes, failed, limit)[s] == v[s]
    decreases |changes|
  {
    if changes != [] && WatchedIn(v) != {} {
      var (u, f) := FirstDone(v, changes[0], failed, limit);
      FailedStays(u, changes[1..], f, limit, s);
    }
  }

  lemma Unfold(v: Views, changes: seq<Change>, failed: bool, limit: int, s: Subscription)
    requires changes != [] && s in v && v[s].error.None?
    ensures var (u, f) := FirstDone(v, changes[0], failed, limit);
            Published(v, changes, failed, limit) == Published(u, changes[1..], f, limit)
  {
    assert v[s].user in WatchedIn(v);
  }

  /** The effect of one change on one live stream. */
  lemma FirstStep(v: Views, change: Change, failed: bool, limit: int, s: Subscription)
    requires s in v && v[s].error.None? && Sound(change)
    ensures var (u, f) := FirstDone(v, change, failed, limit);
            s in u && u[s].user == v[s].user
            && (u[s].error.None? ==>
                  && u[s].pending == v[s].pending + Brought([change], v[s].user)
                  && (Concerns(change, v[s].user) ==> !failed && !Fails(change)))
            && (u[s].error.Some? && !failed && !Fails(change) ==>
                  u[s].error == Some(RESYNC) && |v[s].pending| >= limit
                  && exists r :: r in Brought([change], v[s].user) && r !in v[s].pending)
            && (f ==> failed || Fails(change)) && (failed ==> f)
  {
    assert v[s].user in WatchedIn(v);
    assert Brought([change][..0], v[s].user) == map[];
    var b := Brought([change], v[s].user);
    assert b == if change.answer.Found? && change.answer.run.Some? && change.answer.run.value.owner == Some(v[s].user)
                then map[change.run := change.answer.run.value] else map[];
    assert change.run in b || b == map[];
  }

  /** A live stream that survives a batch holds exactly the user's runs as they were read; no read that concerns it failed. */
  lemma {:induction false} SurvivorsAreCurrent(v: Views, changes: seq<Change>, failed: bool, limit: int, s: Subscription)
    requires s in v && v[s].error.None? && AllSound(changes)
    ensures var w := Published(v, changes, failed, limit);
            s in w && (w[s].error.None? ==>
              && w[s].pending == v[s].pending + Brought(changes, v[s].user)
              && AllWereRead(changes, failed, v[s].user))
    decreases |changes|
  {
    if changes != [] {
      var (u, f) := FirstDone(v, changes[0], failed, limit);
      Unfold(v, changes, failed, limit, s);
      FirstStep(v, changes[0], failed, limit, s);
      if u[s].error.None? {
        SurvivorsAreCurrent(u, changes[1..], f, limit, s);
        BroughtOver(v[s].pending, changes, v[s].user);
        if AllWereRead(changes[1..], f, v[s].user) { AllReadFirst(changes, failed, f, v[s].user); }
      } else {
        FailedStays(u, changes[1..], f, limit, s);
      }
    }
  }

  lemma MoreKeys(a: map<RunId, Detail>, b: map<RunId, Detail>, r: RunId)
    requires a.Keys <= b.Keys && r in b && r !in a
    ensures |a| < |b|
  {
    assert a.Keys < b.Keys;
    SmallerSet(a.Keys, b.Keys);
  }

  lemma SmallerSet(a: set<RunId>, b: set<RunId>)
    requires a < b
    ensures |a| < |b|
  {
    assert b == a + (b - a);
  }

  /**
   * When every read succeeds, the loop that skips, stops early and bounds leaves a live stream with the user's runs
   * as read, unless more than `limit` would then be pending: exactly then the stream must resync.
   */
  lemma {:induction false} PublishedExactly(v: Views, changes: seq<Change>, limit: int, s: Subscription)
    requires s in v && v[s].error.None? && |v[s].pending| <= limit && AllSound(changes) && NoneFails(changes)
    ensures var w := Published(v, changes, false, limit);
            var wanted := v[s].pending + Brought(changes, v[s].user);
            s in w && if |wanted| <= limit then w[s].error.None? && w[s].pending == wanted else w[s].error == Some(RESYNC)
    decreases |changes|
  {
    if changes != [] {
      var (u, f) := FirstDone(v, changes[0], false, limit);
      Unfold(v, changes, false, limit, s);
      FirstStep(v, changes[0], false, limit, s);
      BroughtOver(v[s].pending, changes, v[s].user);
      assert !Fails(changes[0]) && !f;
      if u[s].error.None? {
        DeliveredFits(v, changes[0], limit, s);
        PublishedExactly(u, changes[1..], limit, s);
      } else {
        FailedStays(u, changes[1..], f, limit, s);
        var r :| r in Brought([changes[0]], v[s].user) && r !in v[s].pending;
        MoreKeys(v[s].pending, v[s].pending + Brought([changes[0]], v[s].user) + Brought(changes[1..], v[s].user), r);
      }
    }
  }

  /** An entry is skipped, and its failure does not count, exactly if it names an owner nobody watches. */
  lemma FailureCounts(v: Views, change: Change, failed: bool, limit: int)
    ensures FirstDone(v, change, failed, limit).1 <==>
            failed || (Fails(change) && (change.owner.None? || change.owner.value in WatchedIn(v)))
  {
  }

  /** Some entry that concerns the user was itself a failed read, or came after one that counts. */
  predicate Struck(v: Views, changes: seq<Change>, failed: bool, limit: int, user: User)
    decreases |changes|
  {
    changes != [] &&
    var (u, f) := FirstDone(v, changes[0], failed, limit);
    (Concerns(changes[0], user) && (failed || Fails(changes[0]))) || Struck(u, changes[1..], f, limit, user)
  }

  /** One change ends a live stream exactly if it strikes it or would overflow it. */
  lemma FirstEnds(v: Views, change: Change, failed: bool, limit: int, s: Subscription)
    requires s in v && v[s].error.None? && Sound(change) && |v[s].pending| <= limit
    ensures var (u, _) := FirstDone(v, change, failed, limit);
            s in u && (u[s].error.Some? <==>
                         || (Concerns(change, v[s].user) && (failed || Fails(change)))
                         || |v[s].pending + Brought([change], v[s].user)| > limit)
  {
    assert v[s].user in WatchedIn(v);
    assert Brought([change][..0], v[s].user) == map[];
    var b := Brought([change], v[s].user);
    var delivers := change.answer.Found? && change.answer.run.Some? && change.answer.run.value.owner == Some(v[s].user);
    assert b == if delivers then map[change.run := change.answer.run.value] else map[];
    if delivers {
      PendingGrows(v[s].pending, change.run, change.answer.run.value);
    } else {
      assert v[s].pending + b == v[s].pending;
    }
  }

  lemma PendingGrows(p: map<RunId, Detail>, r: RunId, run: Detail)
    ensures |p + map[r := run]| == if r in p then |p| else |p| + 1
  {
    var q := p + map[r := run];
    assert q.Keys == p.Keys + {r} && |q| == |q.Keys| && |p| == |p.Keys|;
  }

  /**
   * What ends a stream, exactly: a failed read that concerns its user, an entry of its user after one, or more runs
   * than fit. Nobody else's failure does.
   */
  lemma {:induction false} EndsExactly(v: Views, changes: seq<Change>, failed: bool, limit: int, s: Subscription)
    requires s in v && v[s].error.None? && |v[s].pending| <= limit && AllSound(changes)
    ensures var w := Published(v, changes, failed, limit);
            s in w && (w[s].error.Some? <==>
                         Struck(v, changes, failed, limit, v[s].user) || |v[s].pending + Brought(changes, v[s].user)| > limit)
    decreases |changes|
  {
    if changes != [] {
      var (u, f) := FirstDone(v, changes[0], failed, limit);
      Unfold(v, changes, failed, limit, s);
      FirstStep(v, changes[0], failed, limit, s);
      FirstEnds(v, changes[0], failed, limit, s);
      BroughtOver(v[s].pending, changes, v[s].user);
      if u[s].error.None? {
        EndsExactly(u, changes[1..], f, limit, s);
      } else {
        FailedStays(u, changes[1..], f, limit, s);
        MoreFits(v[s].pending + Brought([changes[0]], v[s].user), Brought(changes[1..], v[s].user));
      }
    } else {
      assert v[s].pending + Brought(changes, v[s].user) == v[s].pending;
    }
  }

  lemma MoreFits(p: map<RunId, Detail>, q: map<RunId, Detail>)
    ensures |p| <= |p + q|
  {
    assert (p + q).Keys == p.Keys + (q.Keys - p.Keys);
    assert |p + q| == |(p + q).Keys| && |p| == |p.Keys|;
  }

  /** The same without looking at who watches: a failed read at or before an entry that concerns the user. */
  predicate FailureAtOrBefore(changes: seq<Change>, user: User) {
    exists j, i :: 0 <= j <= i < |changes| && Fails(changes[j]) && Concerns(changes[i], user)
  }

  lemma {:induction false} StruckHasFailure(v: Views, changes: seq<Change>, failed: bool, limit: int, user: User)
    requires Struck(v, changes, failed, limit, user)
    ensures FailureAtOrBefore(changes, user) || (failed && exists i :: 0 <= i < |changes| && Concerns(changes[i], user))
    decreases |changes|
  {
    if !(Concerns(changes[0], user) && (failed || Fails(changes[0]))) {
      var (u, f) := FirstDone(v, changes[0], failed, limit);
      FailureCounts(v, changes[0], failed, limit);
      StruckHasFailure(u, changes[1..], f, limit, user);
      var rest := changes[1..];
      if j, i :| 0 <= j <= i < |rest| && Fails(rest[j]) && Concerns(rest[i], user) {
        assert Fails(changes[j + 1]) && Concerns(changes[i + 1], user);
      } else {
        var i :| 0 <= i < |rest| && Concerns(rest[i], user);
        assert Concerns(changes[i + 1], user);
      }
    }
  }

  /** A stream no failure concerns, and whose runs fit, lives on and holds exactly what was read. */
  lemma OthersFailuresSpare(v: Views, changes: seq<Change>, limit: int, s: Subscription)
    requires s in v && v[s].error.None? && |v[s].pending| <= limit && AllSound(changes)
    requires !FailureAtOrBefore(changes, v[s].user) && |v[s].pending + Brought(changes, v[s].user)| <= limit
    ensures var w := Published(v, changes, false, limit);
            s in w && w[s].error.None? && w[s].pending == v[s].pending + Brought(changes, v[s].user)
  {
    EndsExactly(v, changes, false, limit, s);
    SurvivorsAreCurrent(v, changes, false, limit, s);
    if Struck(v, changes, false, limit, v[s].user) { StruckHasFailure(v, changes, false, limit, v[s].user); }
  }

  lemma DeliveredFits(v: Views, change: Change, limit: int, s: Subscription)
    requires s in v && v[s].error.None? && |v[s].pending| <= limit
    ensures var (u, _) := FirstDone(v, change, false, limit); s in u && |u[s].pending| <= limit
  {
  }

  class RunFeed {
    const perUser: int
    const total: int
    const pendingLimit: int
    var subscriptions: set<Subscription>
    var available: bool

    ghost function Views(): Views
      reads this, subscriptions
    {
      map s | s in subscriptions :: s.View()
    }

    constructor (perUser: int, total: int, pending: int)
      ensures subscriptions == {} && !available
      ensures this.perUser == perUser && this.total == total && pendingLimit == pending
    {
      this.perUser := perUser;
      this.total := total;
      pendingLimit := pending;
      subscriptions := {};
      available := false;
    }

    method Available()
      modifies this`available
      ensures available
    {
      available := true;
    }

    method Unavailable()
      modifies this`available, subscriptions
      ensures !available && Views() == FailEach(old(Views()), UNAVAILABLE)
    {
      available := false;
      var todo := subscriptions;
      while todo != {}
        invariant !available && todo <= subscriptions
        invariant forall s :: s in todo ==> s.View() == old(s.View())
        invariant forall s :: s in subscriptions - todo ==> s.View() == FeedSpec.Fail(old(s.View()), UNAVAILABLE)
      {
        var sub :| sub in todo;
        sub.Fail(UNAVAILABLE);
        todo := todo - {sub};
      }
    }

    /** A stream is opened only while the listener is announced and below both limits; the limits stay respected. */
    method Subscribe(user: User) returns (r: Result<Subscription, FeedError>)
      modifies this`subscriptions
      ensures r == Err(FeedUnavailable) <==> !available
      ensures r == Err(FeedLimitExceeded) <==>
                available && (|old(subscriptions)| >= total || |set s | s in old(subscriptions) && s.user == user| >= perUser)
      ensures r.Err? ==> subscriptions == old(subscriptions) && r.error != StoreFailed
      ensures r.Ok? ==> fresh(r.value) && r.value.View() == Opened(user) && subscriptions == old(subscriptions) + {r.value}
    {
      if !available { return Err(FeedUnavailable); }
      if |subscriptions| >= total || |set s | s in subscriptions && s.user == user| >= perUser {
        return Err(FeedLimitExceeded);
      }
      var sub := new Subscription(user);
      subscriptions := subscriptions + {sub};
      return Ok(sub);
    }

    method Unsubscribe(sub: Subscription)
      modifies this`subscriptions
      ensures subscriptions == old(subscriptions) - {sub}
    {
      subscriptions := subscriptions - {sub};
    }

    /** The snapshot handshake: a failed or late read fails, else what was pending is superseded by the result. */
    method Snapshot(sub: Subscription, read: Option<seq<Detail>>) returns (r: Result<seq<Detail>, FeedError>)
      modifies sub`pending
      ensures read.None? ==> r == Err(StoreFailed) && sub.pending == old(sub.pending)
      ensures read.Some? && (sub.error.Some? || !available) ==> r == Err(FeedUnavailable) && sub.pending == old(sub.pending)
      ensures read.Some? && sub.error.None? && available ==> r == Ok(read.value) && sub.pending == map[]
    {
      if read.None? { return Err(StoreFailed); }
      if sub.error.Some? || !available { return Err(FeedUnavailable); }
      sub.pending := map[];
      return Ok(read.value);
    }

    method Drain(sub: Subscription) returns (error: Option<string>, updates: map<RunId, Detail>)
      modifies sub
      ensures sub.View() == Drained(old(sub.View())) && error == old(sub.error) && updates == old(sub.pending)
    {
      sub.changed := false;
      updates := sub.pending;
      sub.pending := map[];
      error := sub.error;
    }

    method Deliver(run: Detail)
      modifies subscriptions
      ensures Views() == DeliverEach(old(Views()), run, pendingLimit)
    {
      var todo := subscriptions;
      while todo != {}
        invariant todo <= subscriptions
        invariant forall s :: s in todo ==> s.View() == old(s.View())
        invariant forall s :: s in subscriptions - todo ==> s.View() == DeliverTo(old(s.View()), run, pendingLimit)
      {
        var sub :| sub in todo;
        sub.Accept(run, pendingLimit);
        todo := todo - {sub};
      }
    }

    method Resync(owner: Option<User>)
      modifies subscriptions
      ensures Views() == ResyncEach(old(Views()), owner)
    {
      var todo := subscriptions;
      while todo != {}
        invariant todo <= subscriptions
        invariant forall s :: s in todo ==> s.View() == old(s.View())
        invariant forall s :: s in subscriptions - todo ==> s.View() == ResyncTo(old(s.View()), owner)
      {
        var sub :| sub in todo;
        if owner == None || owner == Some(sub.user) { sub.Fail(RESYNC); }
        todo := todo - {sub};
      }
    }

    method Publish(changes: seq<Change>)
      modifies subscriptions
      ensures Views() == Published(old(Views()), changes, false, pendingLimit)
    {
      var failed := false;
      for i := 0 to |changes|
        invariant Published(Views(), changes[i..], failed, pendingLimit)
               == Published(old(Views()), changes, false, pendingLimit)
      {
        var Change(_, owner, answer) := changes[i];
        var watched := set s | s in subscriptions && s.error.None? :: s.user;
        assert forall s :: s in subscriptions ==> Views()[s].error == s.error && Views()[s].user == s.user;
        assert watched == WatchedIn(Views());
        assert changes[i..][0] == changes[i] && changes[i..][1..] == changes[i + 1..];
        if watched == {} { return; }
        if owner.Some? && owner.value !in watched { continue; }
        if failed {
          Resync(owner);
          continue;
        }
        if answer.Failed? {
          failed := true;
          Resync(owner);
          continue;
        }
        if answer.run == None || answer.run.value.owner == None { continue; }
        Deliver(answer.run.value);
      }
    }
  }
}

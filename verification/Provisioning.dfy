/**
 * First logins as a race: any number of callers resolve identities at once. The identity table's primary key makes
 * a second insert of a key wait for the first and fail if that commits; the loser rolls back and looks once more.
 */
module Provisioning {
  import opened Basics

  type UserId = int
  type CallId = int

  datatype Key = Key(issuer: string, subject: string)
  datatype Profile = Profile(email: Option<string>, name: Option<string>)
  datatype Account = Account(profile: Profile, active: bool, roles: set<string>)

  /** `roles` are the roles that exist. */
  datatype Db = Db(users: map<UserId, Account>, identities: map<Key, UserId>, roles: set<string>)

  datatype Outcome =
    | Resolved(user: UserId, account: Account)
    | Inactive
    | Misconfigured
    | Unresolved   // the lookup after a conflict found nothing
    | Aborted

  datatype Stage =
    | Begun
    | Looked(found: Option<(UserId, Account)>)
    | Staged(user: UserId)   // rows inserted, not committed: the key is taken
    | Retrying               // conflict, rolled back
    | LookedAgain(found: Option<(UserId, Account)>)
    | Done(outcome: Outcome)

  datatype Call = Call(key: Key, profile: Profile, stage: Stage)

  datatype State = State(db: Db, calls: map<CallId, Call>)

  datatype Act =
    | Start(call: CallId, key: Key, profile: Profile)
    | Find(call: CallId)
    | Create(call: CallId, user: UserId)
    | Commit(call: CallId)
    | Synchronize(call: CallId)
    | Abort(call: CallId)
    | SetActive(user: UserId, active: bool)
    | SetRoles(user: UserId, granted: set<string>)

  const MEMBER := "member"

  function Lookup(db: Db, key: Key): Option<(UserId, Account)> {
    if key in db.identities && db.identities[key] in db.users
    then Some((db.identities[key], db.users[db.identities[key]])) else None
  }

  /** `_synchronize_profile`: a claim that is present replaces the stored value. */
  function Merged(old_: Profile, claimed: Profile): Profile {
    Profile(if claimed.email.Some? then claimed.email else old_.email, if claimed.name.Some? then claimed.name else old_.name)
  }

  predicate KeyStaged(s: State, key: Key) {
    exists c :: c in s.calls && s.calls[c].stage.Staged? && s.calls[c].key == key
  }

  predicate Creating(s: State, c: CallId) { c in s.calls && s.calls[c].stage == Looked(None) }

  predicate Enabled(s: State, act: Act) {
    match act
    case Start(c, _, _) => c !in s.calls
    case Find(c) => c in s.calls && (s.calls[c].stage == Begun || s.calls[c].stage == Retrying)
    case Create(c, u) =>   // waits while another transaction has the key; user identifiers are fresh
      && Creating(s, c)
      && (MEMBER in s.db.roles ==> !KeyStaged(s, s.calls[c].key))
      && u !in s.db.users && forall d :: d in s.calls ==> s.calls[d].stage != Staged(u)
    case Commit(c) => c in s.calls && s.calls[c].stage.Staged?
    case Synchronize(c) =>
      c in s.calls && (s.calls[c].stage.LookedAgain? || (s.calls[c].stage.Looked? && s.calls[c].stage.found.Some?))
    case Abort(c) => c in s.calls && !s.calls[c].stage.Done?
    case SetActive(u, _) => u in s.db.users
    case SetRoles(u, granted) => u in s.db.users && granted <= s.db.roles
  }

  function With(s: State, c: CallId, stage: Stage): State
    requires c in s.calls
  {
    s.(calls := s.calls[c := s.calls[c].(stage := stage)])
  }

  /** The rest of a transaction whose lookup gave `found`. */
  function Synchronized(s: State, c: CallId, found: Option<(UserId, Account)>): State
    requires c in s.calls
  {
    if found.None? then With(s, c, Done(Unresolved))
    else
      var (u, account) := found.value;
      if !account.active then With(s, c, Done(Inactive))
      else
        var profile := Merged(account.profile, s.calls[c].profile);
        var t := With(s, c, Done(Resolved(u, account.(profile := profile))));
        if profile == account.profile || u !in s.db.users then t
        else
          var row := s.db.users[u];
          var written := Profile(if profile.email != account.profile.email then profile.email else row.profile.email,
                                 if profile.name != account.profile.name then profile.name else row.profile.name);
          t.(db := s.db.(users := s.db.users[u := row.(profile := written)]))
  }

  function Next(s: State, act: Act): State
    requires Enabled(s, act)
  {
    match act
    case Start(c, key, profile) => s.(calls := s.calls[c := Call(key, profile, Begun)])
    case Find(c) =>
      var found := Lookup(s.db, s.calls[c].key);
      With(s, c, if s.calls[c].stage == Begun then Looked(found) else LookedAgain(found))
    case Create(c, u) =>
      if MEMBER !in s.db.roles then With(s, c, Done(Misconfigured))
      else if s.calls[c].key in s.db.identities then With(s, c, Retrying)
      else With(s, c, Staged(u))
    case Commit(c) =>
      var call := s.calls[c];
      var u := call.stage.user;
      var account := Account(call.profile, true, {MEMBER});
      With(s, c, Done(Resolved(u, account))).(db := s.db.(users := s.db.users[u := account],
                                                          identities := s.db.identities[call.key := u]))
    case Synchronize(c) => Synchronized(s, c, s.calls[c].stage.found)
    case Abort(c) => With(s, c, Done(Aborted))
    case SetActive(u, active) => s.(db := s.db.(users := s.db.users[u := s.db.users[u].(active := active)]))
    case SetRoles(u, granted) => s.(db := s.db.(users := s.db.users[u := s.db.users[u].(roles := granted)]))
  }

  // ---- Invariant ----

  /** Identities and accounts correspond one to one: no account without an identity, none with two. */
  ghost predicate OneToOne(db: Db) {
    && (forall k :: k in db.identities ==> db.identities[k] in db.users)
    && (forall k, l :: k in db.identities && l in db.identities && db.identities[k] == db.identities[l] ==> k == l)
    && (forall u :: u in db.users ==> exists k :: k in db.identities && db.identities[k] == u)
  }

  predicate Finds(db: Db, key: Key, found: Option<(UserId, Account)>) {
    found.Some? ==> key in db.identities && db.identities[key] == found.value.0
  }

  predicate CallOk(db: Db, call: Call) {
    match call.stage
    case Begun => true
    case Looked(found) => Finds(db, call.key, found)
    case Staged(u) => u !in db.users && call.key !in db.identities
    case Retrying => call.key in db.identities
    case LookedAgain(found) => found.Some? && Finds(db, call.key, found)
    case Done(outcome) =>
      outcome != Unresolved && (outcome.Resolved? ==> call.key in db.identities && db.identities[call.key] == outcome.user)
  }

  /** No two uncommitted transactions hold the same key or the same user identifier. */
  ghost predicate StagedApart(calls: map<CallId, Call>) {
    forall c, d :: c in calls && d in calls && c != d && calls[c].stage.Staged? && calls[d].stage.Staged? ==>
      calls[c].key != calls[d].key && calls[c].stage != calls[d].stage
  }

  ghost predicate CallsOk(s: State) { forall c :: c in s.calls ==> CallOk(s.db, s.calls[c]) }

  ghost predicate Inv(s: State) { OneToOne(s.db) && CallsOk(s) && StagedApart(s.calls) }

  lemma CommitOneToOne(db: Db, key: Key, u: UserId, account: Account)
    requires OneToOne(db) && u !in db.users && key !in db.identities
    ensures OneToOne(db.(users := db.users[u := account], identities := db.identities[key := u]))
  {
    var db' := db.(users := db.users[u := account], identities := db.identities[key := u]);
    forall v | v in db'.users ensures exists k :: k in db'.identities && db'.identities[k] == v {
      if v == u {
        assert db'.identities[key] == u;
      } else {
        var k :| k in db.identities && db.identities[k] == v;
        assert db'.identities[k] == v;
      }
    }
  }

  lemma CommitKeeps(s: State, c: CallId)
    requires Inv(s) && Enabled(s, Commit(c))
    ensures Inv(Next(s, Commit(c)))
  {
    var t := Next(s, Commit(c));
    var call := s.calls[c];
    assert CallOk(s.db, call);
    CommitOneToOne(s.db, call.key, call.stage.user, Account(call.profile, true, {MEMBER}));
    forall d | d in t.calls ensures CallOk(t.db, t.calls[d]) {
      assert CallOk(s.db, s.calls[d]);
    }
  }

  /** Changing the row of an existing account disturbs nobody. */
  lemma RowKeeps(s: State, u: UserId, account: Account)
    requires Inv(s) && u in s.db.users
    ensures Inv(s.(db := s.db.(users := s.db.users[u := account])))
  {
    var t := s.(db := s.db.(users := s.db.users[u := account]));
    assert OneToOne(t.db);
    forall d | d in t.calls ensures CallOk(t.db, t.calls[d]) { assert CallOk(s.db, s.calls[d]); }
  }

  lemma StageKeeps(s: State, c: CallId, stage: Stage)
    requires Inv(s) && c in s.calls && !stage.Staged? && CallOk(s.db, s.calls[c].(stage := stage))
    ensures Inv(With(s, c, stage))
  {
  }

  lemma CreateKeeps(s: State, c: CallId, u: UserId)
    requires Inv(s) && Enabled(s, Create(c, u))
    ensures Inv(Next(s, Create(c, u)))
  {
    if MEMBER in s.db.roles && s.calls[c].key !in s.db.identities {
      var t := With(s, c, Staged(u));
      forall d | d in s.calls && d != c && s.calls[d].stage.Staged? ensures s.calls[d].key != s.calls[c].key {
        assert !KeyStaged(s, s.calls[c].key);
      }
      assert CallsOk(t) && StagedApart(t.calls);
    }
  }

  lemma SynchronizeKeeps(s: State, c: CallId)
    requires Inv(s) && Enabled(s, Synchronize(c))
    ensures Inv(Next(s, Synchronize(c)))
  {
    var call := s.calls[c];
    assert CallOk(s.db, call);
    var (u, account) := call.stage.found.value;
    var t := Next(s, Synchronize(c));
    StageKeeps(s, c, t.calls[c].stage);
    if t.db != s.db { RowKeeps(With(s, c, t.calls[c].stage), u, t.db.users[u]); }
  }

  lemma StepInv(s: State, act: Act)
    requires Inv(s) && Enabled(s, act)
    ensures Inv(Next(s, act))
  {
    match act
    case Start(c, key, profile) => assert CallsOk(Next(s, act));
    case Find(c) =>
      assert CallOk(s.db, s.calls[c]);
      StageKeeps(s, c, Next(s, act).calls[c].stage);
    case Create(c, u) => CreateKeeps(s, c, u);
    case Commit(c) => CommitKeeps(s, c);
    case Synchronize(c) => SynchronizeKeeps(s, c);
    case Abort(c) => StageKeeps(s, c, Done(Aborted));
    case SetActive(u, active) => RowKeeps(s, u, s.db.users[u].(active := active));
    case SetRoles(u, granted) => RowKeeps(s, u, s.db.users[u].(roles := granted));
  }

  // ---- Histories ----

  ghost predicate History(states: seq<State>, acts: seq<Act>) {
    && |states| == |acts| + 1 && states[0].calls == map[] && OneToOne(states[0].db)
    && forall i :: 0 <= i < |acts| ==> StepAt(states, acts, i)
  }

  ghost predicate StepAt(states: seq<State>, acts: seq<Act>, i: int)
    requires 0 <= i < |acts| < |states|
  {
    Enabled(states[i], acts[i]) && states[i + 1] == Next(states[i], acts[i])
  }

  lemma {:induction false} HistoryInv(states: seq<State>, acts: seq<Act>, i: nat)
    requires History(states, acts) && i < |states|
    ensures Inv(states[i])
  {
    if i > 0 {
      HistoryInv(states, acts, i - 1);
      assert StepAt(states, acts, i - 1);
      StepInv(states[i - 1], acts[i - 1]);
    }
  }

  lemma StepKeepsIdentities(s: State, act: Act, key: Key)
    requires Inv(s) && Enabled(s, act) && key in s.db.identities
    ensures key in Next(s, act).db.identities && Next(s, act).db.identities[key] == s.db.identities[key]
  {
    if act.Commit? { assert CallOk(s.db, s.calls[act.call]); }
  }

  lemma {:induction false} IdentitiesKept(states: seq<State>, acts: seq<Act>, i: nat, j: nat, key: Key)
    requires History(states, acts) && i <= j < |states| && key in states[i].db.identities
    ensures key in states[j].db.identities && states[j].db.identities[key] == states[i].db.identities[key]
  {
    if i < j {
      IdentitiesKept(states, acts, i, j - 1, key);
      HistoryInv(states, acts, j - 1);
      assert StepAt(states, acts, j - 1);
      StepKeepsIdentities(states[j - 1], acts[j - 1], key);
    }
  }

  /** All callers with one identity, whenever they resolve it, get the same user, the one account with that identity. */
  lemma SameUserForAll(states: seq<State>, acts: seq<Act>, i: nat, j: nat, c: CallId, d: CallId)
    requires History(states, acts) && i <= j < |states|
    requires c in states[i].calls && states[i].calls[c].stage.Done? && states[i].calls[c].stage.outcome.Resolved?
    requires d in states[j].calls && states[j].calls[d].stage.Done? && states[j].calls[d].stage.outcome.Resolved?
    requires states[i].calls[c].key == states[j].calls[d].key
    ensures states[i].calls[c].stage.outcome.user == states[j].calls[d].stage.outcome.user
    ensures var u := states[i].calls[c].stage.outcome.user;
            u in states[j].db.users
            && forall k :: k in states[j].db.identities && states[j].db.identities[k] == u ==> k == states[i].calls[c].key
  {
    HistoryInv(states, acts, i);
    HistoryInv(states, acts, j);
    assert CallOk(states[i].db, states[i].calls[c]) && CallOk(states[j].db, states[j].calls[d]);
    IdentitiesKept(states, acts, i, j, states[i].calls[c].key);
  }

  /** The lookup after a conflict always finds the account, and no rollback leaves an account behind. */
  lemma RetryAlwaysFinds(states: seq<State>, acts: seq<Act>, i: nat)
    requires History(states, acts) && i < |states|
    ensures forall c :: c in states[i].calls ==>
              states[i].calls[c].stage != LookedAgain(None) && states[i].calls[c].stage != Done(Unresolved)
    ensures OneToOne(states[i].db)
  {
    HistoryInv(states, acts, i);
    forall c | c in states[i].calls
      ensures states[i].calls[c].stage != LookedAgain(None) && states[i].calls[c].stage != Done(Unresolved) {
      assert CallOk(states[i].db, states[i].calls[c]);
    }
  }

  /** Only administrators change roles: an account resolution made has the member role alone until they do. */
  lemma {:induction false} OnlyMember(states: seq<State>, acts: seq<Act>, i: nat, u: UserId)
    requires History(states, acts) && i < |states| && u in states[i].db.users && u !in states[0].db.users
    requires forall k :: 0 <= k < i && acts[k].SetRoles? ==> acts[k].user != u
    ensures states[i].db.users[u].roles == {MEMBER}
  {
    if i > 0 {
      assert StepAt(states, acts, i - 1);
      if u in states[i - 1].db.users {
        OnlyMember(states, acts, i - 1, u);
        HistoryInv(states, acts, i - 1);
        RolesKept(states[i - 1], acts[i - 1], u);
      }
    }
  }

  lemma RolesKept(s: State, act: Act, u: UserId)
    requires Inv(s) && Enabled(s, act) && u in s.db.users && !(act.SetRoles? && act.user == u)
    ensures u in Next(s, act).db.users && Next(s, act).db.users[u].roles == s.db.users[u].roles
  {
    if act.Commit? { assert CallOk(s.db, s.calls[act.call]); }
  }

  // ---- Every call ends ----

  function Rank(stage: Stage): nat {
    match stage
    case Begun => 4
    case Looked(_) => 3
    case Staged(_) => 1
    case Retrying => 2
    case LookedAgain(_) => 1
    case Done(_) => 0
  }

  /** The call a step belongs to. */
  function Mover(act: Act): Option<CallId> {
    match act
    case Find(c) => Some(c)
    case Create(c, _) => Some(c)
    case Commit(c) => Some(c)
    case Synchronize(c) => Some(c)
    case Abort(c) => Some(c)
    case _ => None
  }

  /** One retry is all there is: each own step brings a call nearer its end and nobody else's step changes it. */
  lemma OwnStepsLead(s: State, act: Act, c: CallId)
    requires Enabled(s, act) && c in s.calls
    ensures c in Next(s, act).calls
    ensures if Mover(act) == Some(c) then Rank(Next(s, act).calls[c].stage) < Rank(s.calls[c].stage)
            else Next(s, act).calls[c] == s.calls[c]
  {
  }

  /** The steps a call has made before state `n`. */
  function OwnSteps(acts: seq<Act>, c: CallId, n: nat): nat
    requires n <= |acts|
  {
    if n == 0 then 0 else OwnSteps(acts, c, n - 1) + if Mover(acts[n - 1]) == Some(c) then 1 else 0
  }

  lemma {:induction false} StepsAndRank(states: seq<State>, acts: seq<Act>, c: CallId, n: nat)
    requires History(states, acts) && n <= |acts|
    ensures OwnSteps(acts, c, n) <= if c in states[n].calls then 4 - Rank(states[n].calls[c].stage) else 0
  {
    if n > 0 {
      StepsAndRank(states, acts, c, n - 1);
      assert StepAt(states, acts, n - 1);
      if c in states[n - 1].calls { OwnStepsLead(states[n - 1], acts[n - 1], c); }
    }
  }

  /** In any history a call makes at most four steps: look, create, look again, finish. */
  lemma AtMostFourSteps(states: seq<State>, acts: seq<Act>, c: CallId)
    requires History(states, acts)
    ensures OwnSteps(acts, c, |acts|) <= 4
  {
    StepsAndRank(states, acts, c, |acts|);
  }

  /** What a resolution does to one profile value: a claim that differs from what was read is written, nothing else is. */
  predicate Follows(claim: Option<string>, read: Option<string>, before: Option<string>, after: Option<string>, shown: Option<string>) {
    && shown == (if claim.Some? then claim else read)
    && after == (if claim.Some? && claim != read then claim else before)
  }

  /** A successful resolution shows and stores the claims of its caller and leaves every other value and account alone. */
  lemma ProfileFollowsClaims(s: State, c: CallId)
    requires Inv(s) && Enabled(s, Synchronize(c)) && s.calls[c].stage.found.Some? && s.calls[c].stage.found.value.1.active
    ensures var (u, read) := s.calls[c].stage.found.value;
            var t := Next(s, Synchronize(c));
            var claims := s.calls[c].profile;
            && t.calls[c].stage.Done? && t.calls[c].stage.outcome.Resolved? && u in s.db.users && u in t.db.users
            && var shown := t.calls[c].stage.outcome.account.profile;
               && Follows(claims.email, read.profile.email, s.db.users[u].profile.email, t.db.users[u].profile.email, shown.email)
               && Follows(claims.name, read.profile.name, s.db.users[u].profile.name, t.db.users[u].profile.name, shown.name)
               && t.db.users[u].active == s.db.users[u].active && t.db.users[u].roles == s.db.users[u].roles
               && forall v :: v in s.db.users && v != u ==> v in t.db.users && t.db.users[v] == s.db.users[v]
  {
    assert CallOk(s.db, s.calls[c]);
  }

  // ---- What each step of a call comes to ----

  /** A lookup finds the account of the identity as it is now, exactly if there is one. */
  lemma LookupExactly(s: State, key: Key)
    requires Inv(s)
    ensures Lookup(s.db, key).Some? <==> key in s.db.identities
    ensures key in s.db.identities ==>
              s.db.identities[key] in s.db.users
              && Lookup(s.db, key) == Some((s.db.identities[key], s.db.users[s.db.identities[key]]))
  {
  }

  /** Creation: refused exactly without the member role, in conflict exactly if the identity exists, else staged. */
  lemma CreationDecides(s: State, c: CallId, u: UserId)
    requires Inv(s) && Enabled(s, Create(c, u))
    ensures var t := Next(s, Create(c, u));
            && t.db == s.db && c in t.calls
            && (t.calls[c].stage == Done(Misconfigured) <==> MEMBER !in s.db.roles)
            && (t.calls[c].stage == Retrying <==> MEMBER in s.db.roles && s.calls[c].key in s.db.identities)
            && (t.calls[c].stage == Staged(u) <==> MEMBER in s.db.roles && s.calls[c].key !in s.db.identities)
  {
  }

  /** A created account is active, carries the caller's claims and the member role alone; nobody else's changes. */
  lemma CreationStores(s: State, c: CallId)
    requires Inv(s) && Enabled(s, Commit(c))
    ensures var t := Next(s, Commit(c));
            var u := s.calls[c].stage.user;
            && u !in s.db.users && u in t.db.users && t.db.users.Keys == s.db.users.Keys + {u}
            && t.db.users[u].active && t.db.users[u].profile == s.calls[c].profile && t.db.users[u].roles == {MEMBER}
            && s.calls[c].key in t.db.identities && t.db.identities[s.calls[c].key] == u
            && (forall v :: v in s.db.users ==> t.db.users[v] == s.db.users[v])
            && t.calls[c].stage == Done(Resolved(u, t.db.users[u]))
  {
    assert CallOk(s.db, s.calls[c]);
  }

  /** An account found inactive is refused and nothing is written; an active one is resolved, as active. */
  lemma InactiveIsRefused(s: State, c: CallId)
    requires Inv(s) && Enabled(s, Synchronize(c))
    ensures s.calls[c].stage.found.Some?
    ensures var (u, read) := s.calls[c].stage.found.value;
            var t := Next(s, Synchronize(c));
            && c in t.calls
            && if !read.active then t.calls[c].stage == Done(Inactive) && t.db == s.db
               else t.calls[c].stage.Done? && t.calls[c].stage.outcome.Resolved? && t.calls[c].stage.outcome.user == u
                    && t.calls[c].stage.outcome.account ==
                         read.(profile := Merged(read.profile, s.calls[c].profile))
  {
    assert CallOk(s.db, s.calls[c]);
  }

  // ---- What an outcome rests on ----

  /** At `h` the identity had this user with this account. */
  predicate SeenAt(s: State, key: Key, u: UserId, account: Account) {
    key in s.db.identities && s.db.identities[key] == u && u in s.db.users && s.db.users[u] == account
  }

  ghost predicate WasSeen(states: seq<State>, i: int, key: Key, u: UserId, account: Account)
    requires 0 <= i < |states|
  {
    exists h :: 0 <= h <= i && SeenAt(states[h], key, u, account)
  }

  /** What the caller is told of an account that was read. */
  ghost predicate Told(states: seq<State>, i: int, call: Call, u: UserId, account: Account)
    requires 0 <= i < |states|
  {
    account.active && exists read :: WasSeen(states, i, call.key, u, read) && read.active && account.roles == read.roles
                                     && account.profile == Merged(read.profile, call.profile)
  }

  /** Where a call's knowledge and its outcome come from. */
  ghost predicate Grounded(states: seq<State>, i: int, call: Call)
    requires 0 <= i < |states|
  {
    match call.stage
    case Looked(found) => found.Some? ==> WasSeen(states, i, call.key, found.value.0, found.value.1)
    case LookedAgain(found) => found.Some? ==> WasSeen(states, i, call.key, found.value.0, found.value.1)
    case Done(Resolved(u, account)) => Told(states, i, call, u, account)
    case Done(Inactive) => exists u, read :: WasSeen(states, i, call.key, u, read) && !read.active
    case Done(Misconfigured) => exists h :: 0 <= h <= i && MEMBER !in states[h].db.roles
    case _ => true
  }

  lemma SeenLonger(states: seq<State>, i: nat, key: Key, u: UserId, account: Account)
    requires i + 1 < |states| && WasSeen(states, i, key, u, account)
    ensures WasSeen(states, i + 1, key, u, account)
  {
  }

  lemma GroundedLonger(states: seq<State>, i: nat, call: Call)
    requires i + 1 < |states| && Grounded(states, i, call)
    ensures Grounded(states, i + 1, call)
  {
    match call.stage
    case Looked(found) => if found.Some? { SeenLonger(states, i, call.key, found.value.0, found.value.1); }
    case LookedAgain(found) => if found.Some? { SeenLonger(states, i, call.key, found.value.0, found.value.1); }
    case Done(Resolved(u, account)) =>
      var read :| WasSeen(states, i, call.key, u, read) && read.active && account.roles == read.roles
                  && account.profile == Merged(read.profile, call.profile);
      SeenLonger(states, i, call.key, u, read);
    case Done(Inactive) =>
      var u, read :| WasSeen(states, i, call.key, u, read) && !read.active;
      SeenLonger(states, i, call.key, u, read);
    case _ =>
  }

  lemma FindGrounds(states: seq<State>, acts: seq<Act>, i: nat, c: CallId)
    requires i < |acts| < |states| && StepAt(states, acts, i) && acts[i] == Find(c) && Inv(states[i])
    ensures c in states[i + 1].calls && Grounded(states, i + 1, states[i + 1].calls[c])
  {
    var key := states[i].calls[c].key;
    LookupExactly(states[i], key);
    var found := Lookup(states[i].db, key);
    if found.Some? { assert SeenAt(states[i], key, found.value.0, found.value.1); }
  }

  lemma CommitGrounds(states: seq<State>, acts: seq<Act>, i: nat, c: CallId)
    requires i < |acts| < |states| && StepAt(states, acts, i) && acts[i] == Commit(c) && Inv(states[i])
    ensures c in states[i + 1].calls && Grounded(states, i + 1, states[i + 1].calls[c])
  {
    CreationStores(states[i], c);
    var call := states[i].calls[c];
    var u := call.stage.user;
    var account := states[i + 1].db.users[u];
    assert SeenAt(states[i + 1], call.key, u, account);
    assert WasSeen(states, i + 1, call.key, u, account);
    assert account.profile == Merged(account.profile, call.profile);
  }

  lemma SynchronizeGrounds(states: seq<State>, acts: seq<Act>, i: nat, c: CallId)
    requires i < |acts| < |states| && StepAt(states, acts, i) && acts[i] == Synchronize(c) && Inv(states[i])
    requires Grounded(states, i, states[i].calls[c])
    ensures c in states[i + 1].calls && Grounded(states, i + 1, states[i + 1].calls[c])
  {
    InactiveIsRefused(states[i], c);
    var call := states[i].calls[c];
    var (u, read) := call.stage.found.value;
    SeenLonger(states, i, call.key, u, read);
  }

  lemma {:induction false} HistoryGrounded(states: seq<State>, acts: seq<Act>, i: nat, c: CallId)
    requires History(states, acts) && i < |states| && c in states[i].calls
    ensures Grounded(states, i, states[i].calls[c])
  {
    if i > 0 {
      var n := i - 1;
      HistoryInv(states, acts, n);
      assert StepAt(states, acts, n);
      if c in states[n].calls {
        HistoryGrounded(states, acts, n, c);
        OwnStepsLead(states[n], acts[n], c);
        if Mover(acts[n]) == Some(c) {
          match acts[n]
          case Find(_) => FindGrounds(states, acts, n, c);
          case Commit(_) => CommitGrounds(states, acts, n, c);
          case Synchronize(_) => SynchronizeGrounds(states, acts, n, c);
          case _ =>
        } else {
          GroundedLonger(states, n, states[n].calls[c]);
        }
      }
    }
  }

  /**
   * Whoever is resolved is told of an active account its identity had, with that account's roles and the claims merged
   * in; whoever is refused as inactive had an inactive account; a missing role is reported only if it was missing.
   */
  lemma OutcomesAreEarned(states: seq<State>, acts: seq<Act>, i: nat, c: CallId)
    requires History(states, acts) && i < |states| && c in states[i].calls && states[i].calls[c].stage.Done?
    ensures var call := states[i].calls[c];
            match call.stage.outcome
            case Resolved(u, account) => Told(states, i, call, u, account)
            case Inactive => exists u, read :: WasSeen(states, i, call.key, u, read) && !read.active
            case Misconfigured => exists h :: 0 <= h <= i && MEMBER !in states[h].db.roles
            case Unresolved => false
            case Aborted => true
  {
    HistoryGrounded(states, acts, i, c);
    RetryAlwaysFinds(states, acts, i);
  }

  /** A call that cannot move waits for another that can commit. */
  lemma BlockedWaitsForCommit(s: State, c: CallId, u: UserId)
    requires Inv(s) && c in s.calls && !s.calls[c].stage.Done?
    requires u !in s.db.users && forall d :: d in s.calls ==> s.calls[d].stage != Staged(u)
    ensures || Enabled(s, Find(c)) || Enabled(s, Create(c, u)) || Enabled(s, Commit(c)) || Enabled(s, Synchronize(c))
            || exists d :: d in s.calls && s.calls[d].key == s.calls[c].key && Enabled(s, Commit(d))
  {
    if Creating(s, c) && KeyStaged(s, s.calls[c].key) {
      var d :| d in s.calls && s.calls[d].stage.Staged? && s.calls[d].key == s.calls[c].key;
      assert Enabled(s, Commit(d));
    }
  }
}

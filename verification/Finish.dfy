// The end of a request: commit or roll back, and what the tables, the cache and the sync field are then.
module Finish {
  import opened Rows
  import opened TableRun
  import opened Calls
  import opened Queue
  import opened Transactions
  import opened Request
  import opened Deferred
  import opened Coherence
  import opened Mirror
  import opened Balance
  import opened Stores
  import opened Units
  import opened Sync

  /** CommitOrRollback: on an error the user's cache is dropped; a panic goes on to the caller. */
  method CommitOrRollback(u: UnitOfWork, faults: seq<Fault>, reply: CacheReply) returns (res: Coherence.Commit)
    requires u.Valid()
    modifies u, u.now.objects, u.c.sql, u.c.users
    ensures u.c.Valid() && u.userId == old(u.userId) && u.store == old(u.store) && u.dirty == old(u.dirty)
    ensures u.now == old(u.now).(req := old(u.now.req).(store := u.now.req.store))
    ensures Reads(u.now.objects, u.store, u.now.req.store) && SameShape(old(u.now.req.store), u.now.req.store)
    ensures AllHeld(old(Actual(u.dbOps)), old(u.now.req.store))
    ensures var x := RunGroups(old(Actual(u.dbOps)), State(old(u.c.sql.tabs), old(u.now.req.store)), faults);
      var (c, b) := CachePhase(x.0, x.1, old(u.c.Backend()), u.userId, reply);
      x.1.store == u.now.req.store && res == c && u.c.Backend() == RollbackPhase(c, b, u.userId)
  {
    hide UnitOfWork.Valid, Container.Valid, Reads, RunGroups, CachePhase;
    res := u.Commit(faults, reply);
    if (res.Aborted? || res.CacheFailed?) && u.userId != 0 { u.c.users.DeleteAll(u.userId); }
  }

  /** A queue with a nil database never commits as a whole. */
  lemma {:induction false} NilGroup(s: State, gs: seq<Group>, faults: seq<Fault>, done: nat)
    requires GroupsHeld(gs, s.store) && exists i :: 0 <= i < |gs| && gs[i].db == NIL
    ensures !CommitGroups(s, gs, faults, done).0.AllCommitted?
    decreases |gs|
  {
    if gs[0].db != NIL {
      var (ok, s') := Tx(s, gs[0].ops, FaultAt(faults, done));
      hide Tx;
      GroupsHeldShape(gs, s.store, s'.store);
      var i :| 0 <= i < |gs| && gs[i].db == NIL;
      assert gs[1..][i - 1].db == NIL;
      if ok { NilGroup(s', gs[1..], faults, done + 1); }
    }
  }

  lemma NilFails(dbOps: seq<DbOp>, s: State, faults: seq<Fault>)
    requires AllHeld(Actual(dbOps), s.store) && !NoNil(dbOps)
    ensures !RunGroups(Actual(dbOps), s, faults).0.AllCommitted?
  {
    var ops := Actual(dbOps);
    GroupsPartition(ops);
    GroupsHeldAny(ops, s.store);
    var i :| 0 <= i < |dbOps| && dbOps[i].db == NIL;
    hide Groups, AllHeld, OnlyIn, Flatten;
    assert ops[i] in ops && ops[i].db == NIL;
    NilGroup(s, Groups(ops), faults, 0);
  }

  /** Without nil databases the queue is the announced one. */
  lemma ActualIs(dbOps: seq<DbOp>, ops: seq<QueuedOp>, store: Lists)
    requires Linked(dbOps, ops, store) && Placed(store) && |dbOps| == |ops| && NoNil(dbOps)
    ensures Actual(dbOps) == ops
  {
    LinkedInStore(dbOps, ops, store);
  }

  /** The tables and the store after a commit that went through. */
  ghost predicate Lasting(b: Backend, trace: seq<Event>, u: nat, rt: Route, s: State) {
    var r := Replay(trace, u, rt);
    BaseOk(r) && s == State(Direct(b.tabs, CallsOf(trace), u, rt), AssignedStore(r, b.tabs, rt))
  }

  /** What the transactions of a request with a valid queue can do to the tables. */
  lemma RunLasts(b: Backend, trace: seq<Event>, u: nat, rt: Route, shards: map<int, DbId>, store: Lists, dbOps: seq<DbOp>, dirty: set<Model>, faults: seq<Fault>)
    requires Serving(b, trace, u, rt, shards)
    requires Steady(store, Replay(trace, u, rt).store, dbOps, dirty, Replay(trace, u, rt).ops) && |dbOps| == |Replay(trace, u, rt).ops|
    requires AllHeld(Actual(dbOps), Replay(trace, u, rt).store)
    ensures var x := RunGroups(Actual(dbOps), State(b.tabs, Replay(trace, u, rt).store), faults);
      x.0.AllCommitted? ==> NoNil(dbOps) && Lasting(b, trace, u, rt, x.1)
  {
    var r := Replay(trace, u, rt);
    hide Replay, Sound, Coherent, ValidTables, AccountRoutes, Tracks, RunGroups, DbPhase, TargetTables, AssignedStore, Direct, BaseOk, AllHeld, OneDb, Lands, CommittedDbs, NoNil, Actual, Linked, Placed, DirtyIs;
    TraceMeansDirect(trace, b.tabs, u, rt);
    CommitLands(r, b.tabs, u, rt, faults);
    if !NoNil(dbOps) {
      NilFails(dbOps, State(b.tabs, r.store), faults);
    } else {
      ActualIs(dbOps, r.ops, store);
      SameRun(r, b.tabs, faults);
    }
  }

  predicate NoFaults(faults: seq<Fault>) {
    forall i :: 0 <= i < |faults| ==> faults[i].None?
  }

  lemma NoFaultAt(faults: seq<Fault>)
    requires NoFaults(faults)
    ensures forall i :: 0 <= i ==> FaultAt(faults, i).None?
  {
  }

  /** While the databases answer, the transactions of a valid queue all commit. */
  lemma HealthyCommits(b: Backend, trace: seq<Event>, u: nat, rt: Route, shards: map<int, DbId>, store: Lists, dbOps: seq<DbOp>, dirty: set<Model>, faults: seq<Fault>)
    requires Serving(b, trace, u, rt, shards) && NoNil(dbOps) && NoFaults(faults)
    requires Steady(store, Replay(trace, u, rt).store, dbOps, dirty, Replay(trace, u, rt).ops) && |dbOps| == |Replay(trace, u, rt).ops|
    requires AllHeld(Actual(dbOps), Replay(trace, u, rt).store)
    ensures RunGroups(Actual(dbOps), State(b.tabs, Replay(trace, u, rt).store), faults).0.AllCommitted?
  {
    var r := Replay(trace, u, rt);
    hide Replay, Sound, Coherent, ValidTables, AccountRoutes, Tracks, TargetTables, AssignedStore, Direct, BaseOk, AllHeld, OneDb, Actual, Linked, Placed, DirtyIs, RunGroups, NoFaults, NoNil, Run;
    DeferredIsDirect(trace, b.tabs, u, rt);
    ActualIs(dbOps, r.ops, store);
    NoFaultAt(faults);
    NoneNil(dbOps);
    FaultFree(State(b.tabs, r.store), r.ops, faults, 0);
    RunIs(r.ops, State(b.tabs, r.store), faults);
  }

  lemma NoneNil(dbOps: seq<DbOp>)
    requires NoNil(dbOps)
    ensures forall q :: q in Actual(dbOps) ==> q.db != NIL
  {
  }

  lemma SameRun(r: Req, tabs: Tables, faults: seq<Fault>)
    requires AllHeld(r.ops, r.store) && OneDb(r.ops)
    ensures RunGroups(r.ops, State(tabs, r.store), faults) == DbPhase(r, tabs, faults)
  {
    hide AllHeld, OneDb, Groups;
  }

  /** What a finished request has done, given what its transactions came to. */
  ghost predicate Ended(b: Backend, trace: seq<Event>, u: nat, rt: Route, one: bool, x: (Outcome, State), c: Coherence.Commit, b': Backend) {
    && (c.Panicked? || Coherent(b', u, rt))
    && (c.Committed? || c.CacheFailed? ==> Lasting(b, trace, u, rt, x.1) && b'.tabs == x.1.tabs)
    && (one && !c.Committed? && !c.CacheFailed? ==> b'.tabs == b.tabs)
  }

  lemma Ends(b: Backend, trace: seq<Event>, u: nat, rt: Route, shards: map<int, DbId>, store: Lists, dbOps: seq<DbOp>, dirty: set<Model>,
             faults: seq<Fault>, reply: CacheReply)
    requires Serving(b, trace, u, rt, shards) && u != 0
    requires Steady(store, Replay(trace, u, rt).store, dbOps, dirty, Replay(trace, u, rt).ops) && |dbOps| == |Replay(trace, u, rt).ops|
    requires AllHeld(Actual(dbOps), Replay(trace, u, rt).store)
    ensures var x := RunGroups(Actual(dbOps), State(b.tabs, Replay(trace, u, rt).store), faults);
      var (c, b') := CachePhase(x.0, x.1, b, u, reply);
      Ended(b, trace, u, rt, |Groups(Actual(dbOps))| <= 1, x, c, RollbackPhase(c, b', u))
  {
    var r := Replay(trace, u, rt);
    var x := RunGroups(Actual(dbOps), State(b.tabs, r.store), faults);
    hide Replay, Sound, Coherent, ValidTables, AccountRoutes, Tracks, RunGroups, Direct, BaseOk, AllHeld, NoNil, Actual, Linked, Placed, DirtyIs, Lasting, Groups, CachePhase;
    RunLasts(b, trace, u, rt, shards, store, dbOps, dirty, faults);
    LastingCoherent(b, trace, u, rt, x.1);
    CachePhaseCoherent(x.0, x.1, b, u, reply, rt);
    CacheTabs(x.0, x.1, b, u, reply);
    if |Groups(Actual(dbOps))| <= 1 {
      GroupsHeldAny(Actual(dbOps), r.store);
      OneGroupKeeps(State(b.tabs, r.store), Groups(Actual(dbOps)), faults);
      RunIs(Actual(dbOps), State(b.tabs, r.store), faults);
    }
  }

  lemma RunIs(ops: seq<QueuedOp>, s: State, faults: seq<Fault>)
    requires AllHeld(ops, s.store)
    ensures GroupsHeld(Groups(ops), s.store) && RunGroups(ops, s, faults) == CommitGroups(s, Groups(ops), faults, 0)
  {
    GroupsHeldAny(ops, s.store);
    hide Groups, AllHeld;
  }

  lemma CacheTabs(o: Outcome, s: State, b: Backend, u: nat, reply: CacheReply)
    ensures var (c, b') := CachePhase(o, s, b, u, reply);
      && RollbackPhase(c, b', u).tabs == s.tabs
      && (c.Committed? || c.CacheFailed? <==> o.AllCommitted?)
  {
  }

  /** What a commit that went through puts in the cache is what the tables now hold. */
  lemma LastingCoherent(b: Backend, trace: seq<Event>, u: nat, rt: Route, s: State)
    requires ValidTables(b.tabs, rt) && Coherent(b, u, rt) && Sound(trace, b.tabs, u, rt)
    ensures Lasting(b, trace, u, rt, s) ==> Coherent(b.(tabs := s.tabs).SetFields(u, s.store), u, rt)
  {
    hide Replay, Sound, Coherent, ValidTables, Tracks, TargetTables, AssignedStore, Direct, BaseOk;
    TraceMeansDirect(trace, b.tabs, u, rt);
    WriteCoherent(Replay(trace, u, rt), b, u, rt);
  }

  /** The outcome of the transactions, as far as the end of the commit tells. */
  function OutcomeOf(c: Coherence.Commit): Outcome {
    match c
    case Aborted(o) => o
    case Panicked(o) => o
    case _ => AllCommitted
  }

  /** How many groups of the queue have taken effect. */
  ghost function Groupwise(c: Coherence.Commit, ops: seq<QueuedOp>): nat {
    Done(OutcomeOf(c), |Groups(ops)|)
  }

  lemma OutcomeIs(o: Outcome, s: State, b: Backend, u: nat, reply: CacheReply)
    ensures var (c, b') := CachePhase(o, s, b, u, reply); OutcomeOf(c) == o && (c.Panicked? <==> o.NilDb?) && (c.Aborted? <==> o.TxFailed?)
  {
  }

  /** Exactly the groups before the failure have taken effect, whatever databases the queue names. */
  lemma EndsGroupwise(ops: seq<QueuedOp>, s: State, faults: seq<Fault>, b: Backend, u: nat, reply: CacheReply)
    requires AllHeld(ops, s.store)
    ensures var x := RunGroups(ops, s, faults);
      var (c, b') := CachePhase(x.0, x.1, b, u, reply);
      RanFirst(s, Groups(ops), Groupwise(c, ops), RollbackPhase(c, b', u).tabs)
  {
    hide AllHeld, Groups, RanFirst, RunGroups, CachePhase, RollbackPhase;
    RunIs(ops, s, faults);
    FirstGroupsRan(s, Groups(ops), faults, 0);
    var x := RunGroups(ops, s, faults);
    OutcomeIs(x.0, x.1, b, u, reply);
    CacheTabs(x.0, x.1, b, u, reply);
  }

  /** A queue without a nil database never panics, and ends in one of the ways any request may end. */
  lemma {:induction false} EndsWhole(b: Backend, trace: seq<Event>, u: nat, rt: Route, shards: map<int, DbId>, store: Lists, dbOps: seq<DbOp>, dirty: set<Model>,
                                     faults: seq<Fault>, reply: CacheReply)
    requires Serving(b, trace, u, rt, shards) && u != 0 && NoNil(dbOps)
    requires Steady(store, Replay(trace, u, rt).store, dbOps, dirty, Replay(trace, u, rt).ops) && |dbOps| == |Replay(trace, u, rt).ops|
    requires AllHeld(Actual(dbOps), Replay(trace, u, rt).store)
    ensures var r := Replay(trace, u, rt);
      var x := RunGroups(Actual(dbOps), State(b.tabs, r.store), faults);
      var (c, b') := CachePhase(x.0, x.1, b, u, reply);
      && !c.Panicked? && Ending(trace, b, u, rt, CommittedDbs(r, OutcomeOf(c)), c, RollbackPhase(c, b', u))
      && AllHeld(r.ops, r.store) && OneDb(r.ops) && OutcomeOf(c) == DbPhase(r, b.tabs, faults).0 && (c.Aborted? ==> c.o.TxFailed?)
  {
    var r := Replay(trace, u, rt);
    hide Replay, Sound, Coherent, ValidTables, AccountRoutes, RunGroups, AllHeld, OneDb, Actual, Linked, Placed, DirtyIs, NoNil, DbPhase, Ending, CommittedDbs, CachePhase, RollbackPhase;
    EveryEnding(trace, b, u, rt, faults, reply);
    ActualIs(dbOps, r.ops, store);
    SameRun(r, b.tabs, faults);
    var x := DbPhase(r, b.tabs, faults);
    OutcomeIs(x.0, x.1, b, u, reply);
    NeverPanics(dbOps, State(b.tabs, r.store), faults);
    hide *;
    EndingIs(r, b, u, faults, reply);
  }

  lemma EndingIs(r: Req, b: Backend, u: nat, faults: seq<Fault>, reply: CacheReply)
    requires AllHeld(r.ops, r.store) && OneDb(r.ops)
    ensures var x := DbPhase(r, b.tabs, faults);
      var (c, b') := CachePhase(x.0, x.1, b, u, reply);
      Coherence.CommitOrRollback(r, b, u, faults, reply) == (c, RollbackPhase(c, b', u))
  {
  }

  lemma NeverPanics(dbOps: seq<DbOp>, s: State, faults: seq<Fault>)
    requires AllHeld(Actual(dbOps), s.store) && NoNil(dbOps)
    ensures !RunGroups(Actual(dbOps), s, faults).0.NilDb?
  {
    var ops := Actual(dbOps);
    NoneNil(dbOps);
    GroupsPartition(ops);
    RunIs(ops, s, faults);
    var gs := Groups(ops);
    hide Groups, AllHeld, Flatten, RunGroups, Actual;
    forall i | 0 <= i < |gs|
      ensures gs[i].db != NIL
    {
      var q := gs[i].ops[0];
      assert q in gs[i].ops;
      OnlyInMembers(ops, {gs[i].db}, q);
    }
    NeverNil(s, gs, faults, 0);
  }

  /** The list the sync field carries for e. */
  function ListFor(sync: Option<SyncData>, e: Entity): seq<Data> {
    if sync.Some? then sync.value.Of(e) else []
  }

  /** The sync field makes any client that holds what the old tables do hold what the new ones do. */
  ghost predicate Mirrors(before: Tables, after: Tables, u: nat, rt: Route, sync: Option<SyncData>) {
    forall e, c :: Synced(e) && rt.Id(e) in before && Holds(c, before[rt.Id(e)], u) ==>
      rt.Id(e) in after && Holds(Overwrite(c, ListFor(sync, e)), after[rt.Id(e)], u)
  }

  lemma {:induction false} LastingMirrors(b: Backend, trace: seq<Event>, u: nat, rt: Route, s: State, sync: Option<SyncData>)
    requires ValidTables(b.tabs, rt) && Sound(trace, b.tabs, u, rt) && Lasting(b, trace, u, rt, s)
    requires forall e :: Synced(e) ==> Carries(ListFor(sync, e), Replay(trace, u, rt), b.tabs, rt, e)
    ensures Mirrors(b.tabs, s.tabs, u, rt, sync)
  {
    hide Replay, Sound, ValidTables, Direct, Carries, Holds, Overwrite, AssignedStore, BaseOk;
    forall e, c | Synced(e) && rt.Id(e) in b.tabs && Holds(c, b.tabs[rt.Id(e)], u)
      ensures rt.Id(e) in s.tabs && Holds(Overwrite(c, ListFor(sync, e)), s.tabs[rt.Id(e)], u)
    {
      SyncMirrors(trace, b.tabs, u, rt, e, ListFor(sync, e), c);
    }
  }

  lemma ListedHome(dirty: set<Model>, out: map<Entity, seq<Model>>, e: Entity)
    requires ByEntity(dirty, out)
    ensures Listed(out, e) != [] ==> Listed(out, e)[0] in dirty && Listed(out, e)[0].home.0 == e
  {
    if e in out { assert out[e][0] in out[e]; }
  }

  lemma DirtyHomes(dirty: set<Model>, ops: seq<QueuedOp>, store: Lists)
    requires DirtyIs(dirty, ops, store)
    ensures forall m :: m in dirty ==> m.home.0 in store && Synced(m.home.0) && ObjectAt(store, m.home.0, m.home.1) == Some(m)
  {
  }

  /** An entity the request did not load has no dirty struct. */
  lemma NotDirty(dirty: set<Model>, out: map<Entity, seq<Model>>, ops: seq<QueuedOp>, store: Lists, e: Entity)
    requires ByEntity(dirty, out) && DirtyIs(dirty, ops, store) && e !in store
    ensures Listed(out, e) == []
  {
    hide DirtyIs, ByEntity;
    ListedHome(dirty, out, e);
    DirtyHomes(dirty, ops, store);
  }

  /** Dirty and BuildSyncData, after the commit. */
  method CollectSync(u: UnitOfWork, ghost r: Req, ghost tabs: Tables) returns (sync: Option<SyncData>)
    requires BaseOk(r) && DirtyIs(u.dirty, r.ops, u.store) && Placed(u.store) && AllHeld(r.ops, r.store) && SameShape(r.store, u.now.req.store)
    requires u.store.Keys == u.now.req.store.Keys && forall e :: e in u.store ==> |u.store[e]| == |u.now.req.store[e]|
    requires Reads(u.now.objects, u.store, u.now.req.store) && u.now.req.store == AssignedStore(r, tabs, u.now.rt)
    ensures forall e :: Synced(e) ==> Carries(ListFor(sync, e), r, tabs, u.now.rt, e)
  {
    hide DirtyIs, Placed, Row.Kind, AssignedStore, Sends, AllHeld, Proj, Ships, Named;
    DirtyHomes(u.dirty, r.ops, u.store);
    assert forall m :: m in u.dirty ==> m.row.Kind() == m.home.0;
    var out: map<Entity, seq<Model>> := Dirty(u.dirty);
    NamedEach(u.dirty, out);
    sync := BuildSyncData(out);
    AllHeldShape(r.ops, r.store, u.now.req.store);
    EachHeld(r.ops, u.now.req.store);
    forall e | Synced(e)
      ensures Carries(ListFor(sync, e), r, tabs, u.now.rt, e)
    {
      if e in u.store {
        assert Sends(ListFor(sync, e), Listed(out, e)) by { NoneSent(out, sync, e); }
        CarriesBuilt(u.dirty, out, u.now.objects, u.store, r, u.now.req.store, ListFor(sync, e), e);
      } else {
        NotDirty(u.dirty, out, r.ops, u.store, e);
        NoneSent(out, sync, e);
        NoneListed(out, sync, e);
      }
    }
  }

  lemma EachHeld(ops: seq<QueuedOp>, store: Store)
    requires AllHeld(ops, store)
    ensures forall q :: q in ops ==> Queue.Held(q, store)
  {
  }

  lemma NoneSent(out: map<Entity, seq<Model>>, sync: Option<SyncData>, e: Entity)
    requires Synced(e) && (sync.None? ==> forall f :: f in out && Synced(f) ==> out[f] == [])
    requires sync.Some? ==> Sends(sync.value.items, Listed(out, Items)) && Sends(sync.value.assets, Listed(out, Assets))
    ensures Sends(ListFor(sync, e), Listed(out, e))
  {
  }

  lemma NoneListed(out: map<Entity, seq<Model>>, sync: Option<SyncData>, e: Entity)
    requires Sends(ListFor(sync, e), Listed(out, e)) && Listed(out, e) == []
    ensures ListFor(sync, e) == []
  {
  }
}

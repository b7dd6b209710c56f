// The per-user cache in front of the tables: loads fill it, Commit rewrites it, failures empty it.
module Coherence {
  import opened Rows
  import opened TableRun
  import opened Calls
  import opened Queue
  import opened Transactions
  import opened Request
  import opened Deferred

  /** The tables, and for each user the Redis hash of entity fields holding JSON copies. */
  datatype Backend = Backend(tabs: Tables, cache: map<nat, Store>) {
    function Cached(u: nat): Store {
      if u in cache then cache[u] else map[]
    }
    function SetFields(u: nat, fields: Store): Backend {
      this.(cache := cache[u := Cached(u) + fields])
    }
    function DeleteAll(u: nat): Backend {
      this.(cache := cache - {u})
    }
  }

  /** Every cached field of user u equals the user's rows in the table it stands for. */
  ghost predicate Coherent(b: Backend, u: nat, rt: Route) {
    forall e :: e in b.Cached(u) ==> Lists(b.Cached(u)[e], At(b.tabs, rt.Id(e)), u)
  }

  /** What a load may answer when the entity is not in the store: the cached copy, or a SELECT. */
  ghost predicate Answers(b: Backend, u: nat, rt: Route, e: Entity, rows: seq<Row>) {
    (e in b.Cached(u) && rows == b.Cached(u)[e]) || Lists(rows, At(b.tabs, rt.Id(e)), u)
  }

  lemma AnswerIsListing(b: Backend, u: nat, rt: Route, e: Entity, rows: seq<Row>)
    requires Coherent(b, u, rt) && Answers(b, u, rt, e, rows)
    ensures Lists(rows, At(b.tabs, rt.Id(e)), u)
    ensures Coherent(b.SetFields(u, map[e := rows]), u, rt)
  {
    hide Lists;
  }

  lemma FillTabs(b: Backend, u: nat, fields: Store)
    ensures b.SetFields(u, fields).tabs == b.tabs
  {
  }

  /** Only other users' caches and rows are as before. */
  ghost predicate OthersKept(b: Backend, b': Backend, u: nat) {
    && b.tabs.Keys == b'.tabs.Keys
    && (forall id, v :: id in b.tabs && v != u ==> UserRows(b'.tabs[id], v) == UserRows(b.tabs[id], v))
    && (forall v :: v != u ==> b'.Cached(v) == b.Cached(v))
  }

  /** Another user's cache stays coherent whatever user u does to u's own rows. */
  lemma OthersCoherent(b: Backend, b': Backend, u: nat, v: nat, rt: Route)
    requires OthersKept(b, b', u) && v != u && Coherent(b, v, rt)
    requires forall e: Entity :: rt.Id(e) in b.tabs
    ensures Coherent(b', v, rt)
  {
    forall e | e in b'.Cached(v)
      ensures Lists(b'.Cached(v)[e], At(b'.tabs, rt.Id(e)), v)
    {
      assert rt.Id(e) in b.tabs;
      assert Lists(b.Cached(v)[e], At(b.tabs, rt.Id(e)), v);
    }
  }

  // ------------------------------------------------------------------ which tables a partial commit changes

  lemma {:induction false} ProjOnly(ops: seq<QueuedOp>, ds: set<DbId>, rt: Route, e: Entity)
    requires Routed(ops, rt)
    ensures Proj(OnlyIn(ops, ds), e) == if rt.Db(e) in ds then Proj(ops, e) else []
  {
    if ops == [] {
    } else {
      var q, front := ops[|ops| - 1], ops[..|ops| - 1];
      assert ops == front + [q] && q.db == rt.Db(q.entity);
      OnlyInSnoc(front, q, ds);
      ProjOnly(front, ds, rt, e);
      ProjLast(OnlyIn(front, ds), q, e);
    }
  }

  lemma ProjLast(ops: seq<QueuedOp>, q: QueuedOp, e: Entity)
    ensures Proj(ops + [q], e) == Proj(ops, e) + if q.entity == e then [q.op] else []
  {
    assert (ops + [q])[..|ops|] == ops;
  }

  /** Table `id` after the transactions of the databases in `ds` have committed and the others have not. */
  ghost function PartialAt(r: Req, tabs: Tables, rt: Route, ds: set<DbId>, id: TableId): Table
    requires BaseOk(r) && id in tabs
  {
    if id.db in ds then TargetAt(r, tabs, rt, id) else tabs[id]
  }

  /** What entity e comes to when only the part of the queue for the databases `ds` has run. */
  ghost predicate EntityLands(r: Req, tabs: Tables, rt: Route, ds: set<DbId>, e: Entity)
    requires BaseOk(r) && e in r.store
  {
    rt.Id(e) in tabs &&
    exists x: (Table, seq<Row>) ::
      EntityGives(State(tabs, r.store), OnlyIn(r.ops, ds), rt, e, x) && x.0 == PartialAt(r, tabs, rt, ds, rt.Id(e))
  }

  lemma PartialEntity(r: Req, tabs: Tables, u: nat, rt: Route, ds: set<DbId>, e: Entity)
    requires Tracks(r, tabs, u, rt) && BaseOk(r) && ValidTables(tabs, rt) && e in r.store
    ensures EntityLands(r, tabs, rt, ds, e)
  {
    var s, ran := State(tabs, r.store), OnlyIn(r.ops, ds);
    assert Routed(r.ops, rt) && rt.Id(e) in tabs;
    ProjOnly(r.ops, ds, rt, e);
    hide Tracks, OnlyIn, Proj, Target, Assigned, RunRows, ValidTables;
    TrackedEntity(r, tabs, u, rt, e);
    if rt.Db(e) in ds {
      assert EntityGives(s, ran, rt, e, EntityEnd(r, tabs, rt, e));
    } else {
      NothingGives(s, ran, rt, e);
      assert EntityGives(s, ran, rt, e, (At(tabs, rt.Id(e)), r.store[e]));
    }
  }

  lemma NothingGives(s: State, ops: seq<QueuedOp>, rt: Route, e: Entity)
    requires e in s.store && rt.Id(e) in s.tabs && Proj(ops, e) == []
    ensures EntityGives(s, ops, rt, e, (At(s.tabs, rt.Id(e)), s.store[e]))
  {
    hide Proj;
  }

  /** `tabs'` is what user u's transactions on the databases `ds` leave of `tabs`. */
  ghost predicate Lands(r: Req, tabs: Tables, rt: Route, ds: set<DbId>, tabs': Tables)
    requires BaseOk(r)
  {
    tabs'.Keys == tabs.Keys && forall id :: id in tabs ==> tabs'[id] == PartialAt(r, tabs, rt, ds, id)
  }

  lemma PartialTables(r: Req, tabs: Tables, u: nat, rt: Route, ds: set<DbId>, tabs': Tables)
    requires Tracks(r, tabs, u, rt) && BaseOk(r) && ValidTables(tabs, rt)
    requires RanOnly(State(tabs, r.store), r.ops, ds, tabs')
    ensures Lands(r, tabs, rt, ds, tabs')
  {
    var s, ran := State(tabs, r.store), OnlyIn(r.ops, ds);
    assert Routed(r.ops, rt);
    assert AllHeld(ran, s.store) && Run(s, ran).Some? && Run(s, ran).value.tabs == tabs';
    hide *;
    forall e | e in r.store
      ensures EntityLands(r, tabs, rt, ds, e)
    {
      PartialEntity(r, tabs, u, rt, ds, e);
    }
    AllLand(r, tabs, rt, ds);
    OnlyInRouted(r.ops, ds, rt);
    RunByEntity(s, ran, rt);
    ShowPartial(r, tabs, rt, ds, Run(s, ran).value);
  }

  lemma AllLand(r: Req, tabs: Tables, rt: Route, ds: set<DbId>)
    requires BaseOk(r) && forall e :: e in r.store ==> EntityLands(r, tabs, rt, ds, e)
    ensures EntitiesRun(State(tabs, r.store), OnlyIn(r.ops, ds), rt)
  {
    hide EntityRuns, RunEntity, OnlyIn, PartialAt;
    forall e | e in r.store
      ensures EntityRuns(State(tabs, r.store), OnlyIn(r.ops, ds), rt, e)
    {
      assert EntityLands(r, tabs, rt, ds, e);
    }
  }

  lemma ShowPartial(r: Req, tabs: Tables, rt: Route, ds: set<DbId>, s': State)
    requires BaseOk(r) && forall e :: e in r.store ==> EntityLands(r, tabs, rt, ds, e)
    requires RunsTo(State(tabs, r.store), OnlyIn(r.ops, ds), rt, s')
    ensures Lands(r, tabs, rt, ds, s'.tabs)
  {
    hide EntityRuns, RunEntity, Target, OnlyIn;
    forall id | id in tabs
      ensures s'.tabs[id] == PartialAt(r, tabs, rt, ds, id)
    {
      var e := id.entity;
      if !Elsewhere(r.store, rt, id) { assert EntityLands(r, tabs, rt, ds, e); }
    }
  }

  lemma OnlyInRouted(ops: seq<QueuedOp>, ds: set<DbId>, rt: Route)
    requires Routed(ops, rt)
    ensures Routed(OnlyIn(ops, ds), rt)
  {
    var ran := OnlyIn(ops, ds);
    forall i | 0 <= i < |ran|
      ensures ran[i].db == rt.Db(ran[i].entity)
    {
      OnlyInMembers(ops, ds, ran[i]);
    }
  }

  /** A partial commit changes no other user's rows and keeps the tables valid. */
  lemma PartialOthers(r: Req, tabs: Tables, u: nat, rt: Route, ds: set<DbId>, id: TableId)
    requires Tracks(r, tabs, u, rt) && BaseOk(r) && ValidTables(tabs, rt) && id in tabs
    ensures forall v :: v != u ==> UserRows(PartialAt(r, tabs, rt, ds, id), v) == UserRows(tabs[id], v)
    ensures ValidTable(tabs[id], id.entity) ==> ValidTable(PartialAt(r, tabs, rt, ds, id), id.entity)
  {
    var e := id.entity;
    if e in r.store && id == rt.Id(e) && id.db in ds {
      assert PendingAt(r, tabs, u, rt, e);
      hide Pending, Target, UserRows, ValidTable, Tracks, Proj;
      TargetOthers(tabs[id], e, u, r.store[e], r.base[e], Proj(r.ops, e));
      TargetValid(tabs[id], e, u, r.store[e], r.base[e], Proj(r.ops, e));
    }
  }

  // ------------------------------------------------------------------ Commit and CommitOrRollback

  /** What the cache write of Commit reports, and whether it took place. */
  datatype CacheReply = Written | NotWritten | WrittenButError

  datatype Commit = Committed | Aborted(o: Outcome) | CacheFailed | Panicked(o: Outcome)

  /** The transactions of Commit. */
  ghost function DbPhase(r: Req, tabs: Tables, faults: seq<Fault>): (Outcome, State)
    requires AllHeld(r.ops, r.store) && OneDb(r.ops)
  {
    GroupsAreHeld(r.ops, r.store);
    CommitGroups(State(tabs, r.store), Groups(r.ops), faults, 0)
  }

  /** The rest of Commit: the whole store goes into the user's hash, unless the transactions failed. */
  ghost function CachePhase(o: Outcome, s: State, b: Backend, u: nat, reply: CacheReply): (Commit, Backend) {
    var b' := b.(tabs := s.tabs);
    if o.TxFailed? then (Aborted(o), b')
    else if o.NilDb? then (Panicked(o), b')
    else if u == 0 || s.store == map[] then (Committed, b')
    else
      match reply
      case Written => (Committed, b'.SetFields(u, s.store))
      case NotWritten => (CacheFailed, b')
      case WrittenButError => (CacheFailed, b'.SetFields(u, s.store))
  }

  /** CommitOrRollback: on an error the user's cache is dropped. A panic skips that. */
  ghost function RollbackPhase(c: Commit, b: Backend, u: nat): Backend {
    if (c.Aborted? || c.CacheFailed?) && u != 0 then b.DeleteAll(u) else b
  }

  ghost function CommitOrRollback(r: Req, b: Backend, u: nat, faults: seq<Fault>, reply: CacheReply): (Commit, Backend)
    requires AllHeld(r.ops, r.store) && OneDb(r.ops)
  {
    var x := DbPhase(r, b.tabs, faults);
    var (c, b') := CachePhase(x.0, x.1, b, u, reply);
    (c, RollbackPhase(c, b', u))
  }

  /** The databases whose transactions had committed when the outcome was decided. */
  ghost function CommittedDbs(r: Req, o: Outcome): set<DbId> {
    var gs := Groups(r.ops);
    var n := Done(o, |gs|);
    GroupDbs(if n <= |gs| then gs[..n] else gs)
  }

  /**
   * What any Commit of a tracked request does to the tables: each table is the one the request
   * stands for if its database's transaction committed, and untouched otherwise.
   */
  lemma {:induction false} CommitLands(r: Req, tabs: Tables, u: nat, rt: Route, faults: seq<Fault>)
    requires Tracks(r, tabs, u, rt) && BaseOk(r) && ValidTables(tabs, rt)
    ensures AllHeld(r.ops, r.store) && OneDb(r.ops)
    ensures var x := DbPhase(r, tabs, faults);
      && Lands(r, tabs, rt, CommittedDbs(r, x.0), x.1.tabs)
      && (x.0.AllCommitted? ==> x.1 == State(TargetTables(r, tabs, rt), AssignedStore(r, tabs, rt)))
  {
    TracksHeld(r, tabs, u, rt);
    var x := DbPhase(r, tabs, faults);
    assert PartialLaw(State(tabs, r.store), r.ops, 0, x.0, x.1) by {
      CommitPartial(State(tabs, r.store), r.ops, faults, 0);
    }
    hide Tracks, Groups, DbPhase, TargetTables, AssignedStore, GroupDbs, AllHeld, OneDb, Run, RanOnly, ValidTables, BaseOk, Lands;
    RunTracked(r, tabs, u, rt);
    PartialTables(r, tabs, u, rt, CommittedDbs(r, x.0), x.1.tabs);
  }

  lemma LandsOthers(r: Req, b: Backend, u: nat, rt: Route, ds: set<DbId>, b': Backend)
    requires Tracks(r, b.tabs, u, rt) && BaseOk(r) && ValidTables(b.tabs, rt)
    requires Lands(r, b.tabs, rt, ds, b'.tabs) && forall v :: v != u ==> b'.Cached(v) == b.Cached(v)
    ensures OthersKept(b, b', u)
    ensures forall id :: id in b.tabs && ValidTable(b.tabs[id], id.entity) ==> ValidTable(b'.tabs[id], id.entity)
  {
    hide Tracks, UserRows, ValidTable, PartialAt, BaseOk, ValidTables, Backend.Cached;
    forall id | id in b.tabs
      ensures forall v :: v != u ==> UserRows(b'.tabs[id], v) == UserRows(b.tabs[id], v)
      ensures ValidTable(b.tabs[id], id.entity) ==> ValidTable(b'.tabs[id], id.entity)
    {
      PartialOthers(r, b.tabs, u, rt, ds, id);
    }
  }

  /** A commit, however it ends, changes nobody else's rows or cache. */
  lemma {:induction false} CommitOthers(r: Req, b: Backend, u: nat, rt: Route, faults: seq<Fault>, reply: CacheReply)
    requires Tracks(r, b.tabs, u, rt) && BaseOk(r) && ValidTables(b.tabs, rt)
    ensures AllHeld(r.ops, r.store) && OneDb(r.ops)
    ensures var b' := CommitOrRollback(r, b, u, faults, reply).1;
      && OthersKept(b, b', u)
      && forall id :: id in b.tabs && ValidTable(b.tabs[id], id.entity) ==> ValidTable(b'.tabs[id], id.entity)
  {
    CommitLands(r, b.tabs, u, rt, faults);
    var x := DbPhase(r, b.tabs, faults);
    var b' := CommitOrRollback(r, b, u, faults, reply).1;
    CacheOthers(x.0, x.1, b, u, reply);
    hide Tracks, CommitOrRollback, DbPhase, UserRows, ValidTable, Lands, BaseOk, AllHeld, OneDb, OthersKept, TargetTables, AssignedStore, CommittedDbs;
    LandsOthers(r, b, u, rt, CommittedDbs(r, x.0), b');
  }

  lemma CacheOthers(o: Outcome, s: State, b: Backend, u: nat, reply: CacheReply)
    ensures var (c, b') := CachePhase(o, s, b, u, reply);
      var b2 := RollbackPhase(c, b', u);
      b2.tabs == s.tabs && forall v :: v != u ==> b2.Cached(v) == b.Cached(v)
  {
  }

  /**
   * Cache coherence across a commit: success, failed transaction, partial commit over several
   * databases and failed cache write all leave the user's cache absent or equal to the tables.
   */
  lemma {:induction false} CommitCoherent(r: Req, b: Backend, u: nat, rt: Route, faults: seq<Fault>, reply: CacheReply)
    requires Tracks(r, b.tabs, u, rt) && BaseOk(r) && ValidTables(b.tabs, rt) && Coherent(b, u, rt) && u != 0
    ensures AllHeld(r.ops, r.store) && OneDb(r.ops)
    ensures var (c, b') := CommitOrRollback(r, b, u, faults, reply); c.Panicked? || Coherent(b', u, rt)
  {
    hide Tracks, DbPhase, Lands, BaseOk, AllHeld, OneDb, TargetTables, AssignedStore, CommittedDbs, Coherent, ValidTables;
    CommitLands(r, b.tabs, u, rt, faults);
    WriteCoherent(r, b, u, rt);
    var x := DbPhase(r, b.tabs, faults);
    CachePhaseCoherent(x.0, x.1, b, u, reply, rt);
  }

  lemma CachePhaseCoherent(o: Outcome, s: State, b: Backend, u: nat, reply: CacheReply, rt: Route)
    requires u != 0
    requires o.AllCommitted? ==> Coherent(b.(tabs := s.tabs).SetFields(u, s.store), u, rt)
    ensures var (c, b') := CachePhase(o, s, b, u, reply); c.Panicked? || Coherent(RollbackPhase(c, b', u), u, rt)
  {
    var (c, b') := CachePhase(o, s, b, u, reply);
    NoCacheCoherent(b', u, rt);
    if c.Committed? && s.store == map[] {
      assert b'.SetFields(u, map[]).Cached(u) == b'.Cached(u);
      hide Lists;
    }
  }

  lemma NoCacheCoherent(b: Backend, u: nat, rt: Route)
    ensures Coherent(b.DeleteAll(u), u, rt)
  {
  }

  /** Writing the whole store after all transactions committed refreshes every field that changed. */
  lemma WriteCoherent(r: Req, b: Backend, u: nat, rt: Route)
    requires Tracks(r, b.tabs, u, rt) && BaseOk(r) && ValidTables(b.tabs, rt) && Coherent(b, u, rt)
    ensures Coherent(b.(tabs := TargetTables(r, b.tabs, rt)).SetFields(u, AssignedStore(r, b.tabs, rt)), u, rt)
  {
    var b' := b.(tabs := TargetTables(r, b.tabs, rt)).SetFields(u, AssignedStore(r, b.tabs, rt));
    hide Tracks, Lists, ValidTable, Target, Assigned;
    forall e | e in b'.Cached(u)
      ensures Lists(b'.Cached(u)[e], At(b'.tabs, rt.Id(e)), u)
    {
      assert rt.Id(e) in b.tabs;
      if e in r.store {
        TrackedLists(r, b.tabs, u, rt, e);
      } else {
        assert Lists(b.Cached(u)[e], At(b.tabs, rt.Id(e)), u);
      }
    }
  }

  /** After a successful commit each list of the store is a full listing of the new table. */
  lemma TrackedLists(r: Req, tabs: Tables, u: nat, rt: Route, e: Entity)
    requires Tracks(r, tabs, u, rt) && BaseOk(r) && ValidTables(tabs, rt) && e in r.store
    ensures rt.Id(e) in tabs
    ensures Lists(AssignedStore(r, tabs, rt)[e], TargetTables(r, tabs, rt)[rt.Id(e)], u)
  {
    assert PendingAt(r, tabs, u, rt, e) && rt.Id(e) in tabs;
    hide Pending, Target, Assigned, Tracks, Proj, Lists;
    TargetLists(tabs[rt.Id(e)], e, u, r.store[e], r.base[e], Proj(r.ops, e));
  }

  // ------------------------------------------------------------------ when the cache is not dropped

  /** The commit has changed none of the cached entities' rows. */
  ghost predicate CachedUnchanged(b: Backend, tabs': Tables, u: nat, rt: Route) {
    forall e :: e in b.Cached(u) ==> UserRows(At(tabs', rt.Id(e)), u) == UserRows(At(b.tabs, rt.Id(e)), u)
  }

  lemma ListsBoth(rows: seq<Row>, t: Table, t': Table, u: nat)
    requires Lists(rows, t, u)
    ensures Lists(rows, t', u) <==> UserRows(t', u) == UserRows(t, u)
  {
  }

  /**
   * A commit that ends without the cache being dropped, because it panicked or because the DEL of the
   * error path did not reach Redis, leaves the cache coherent if and only if the whole store was written
   * to it after all, or no entity it holds has changed in the tables.
   */
  lemma {:induction false} StaleUnless(r: Req, b: Backend, u: nat, rt: Route, faults: seq<Fault>, reply: CacheReply)
    requires Tracks(r, b.tabs, u, rt) && BaseOk(r) && ValidTables(b.tabs, rt) && Coherent(b, u, rt) && u != 0
    ensures AllHeld(r.ops, r.store) && OneDb(r.ops)
    ensures var x := DbPhase(r, b.tabs, faults);
      var (c, b') := CachePhase(x.0, x.1, b, u, reply);
      !c.Committed? ==>
        (Coherent(b', u, rt) <==> (c.CacheFailed? && reply.WrittenButError?) || CachedUnchanged(b, x.1.tabs, u, rt))
  {
    hide Tracks, DbPhase, Lands, BaseOk, AllHeld, OneDb, TargetTables, AssignedStore, CommittedDbs, ValidTables, UserRows, Coherent, CachedUnchanged, CachePhase;
    CommitLands(r, b.tabs, u, rt, faults);
    WriteCoherent(r, b, u, rt);
    var x := DbPhase(r, b.tabs, faults);
    KeptCoherent(b, x.1.tabs, u, rt);
    StaleCases(x.0, x.1, b, u, reply, rt);
  }

  lemma StaleCases(o: Outcome, s: State, b: Backend, u: nat, reply: CacheReply, rt: Route)
    requires u != 0 && (Coherent(b.(tabs := s.tabs), u, rt) <==> CachedUnchanged(b, s.tabs, u, rt))
    requires o.AllCommitted? ==> Coherent(b.(tabs := s.tabs).SetFields(u, s.store), u, rt)
    ensures var (c, b') := CachePhase(o, s, b, u, reply);
      !c.Committed? ==>
        (Coherent(b', u, rt) <==> (c.CacheFailed? && reply.WrittenButError?) || CachedUnchanged(b, s.tabs, u, rt))
  {
    hide Coherent, CachedUnchanged;
  }

  lemma KeptCoherent(b: Backend, tabs': Tables, u: nat, rt: Route)
    requires Coherent(b, u, rt)
    ensures Coherent(b.(tabs := tabs'), u, rt) <==> CachedUnchanged(b, tabs', u, rt)
  {
    var b' := b.(tabs := tabs');
    assert b'.Cached(u) == b.Cached(u);
    hide Lists, UserRows, At;
    forall e | e in b.Cached(u)
      ensures Lists(b.Cached(u)[e], At(tabs', rt.Id(e)), u) <==> UserRows(At(tabs', rt.Id(e)), u) == UserRows(At(b.tabs, rt.Id(e)), u)
    {
      ListsBoth(b.Cached(u)[e], At(b.tabs, rt.Id(e)), At(tabs', rt.Id(e)), u);
    }
  }

  // ------------------------------------------------------------------ requests that write one database

  predicate AllOn(ops: seq<QueuedOp>, d: DbId) {
    forall i :: 0 <= i < |ops| ==> ops[i].db == d
  }

  predicate NoAccount(calls: seq<Call>) {
    forall i :: 0 <= i < |calls| ==> calls[i].Kind() != Account
  }

  lemma {:induction false} ExceptAll(ops: seq<QueuedOp>, d: DbId)
    requires AllOn(ops, d)
    ensures Except(ops, d) == []
  {
    if ops != [] { ExceptAll(ops[1..], d); }
  }

  /** With every op on one database there is one group. */
  lemma OneGroup(ops: seq<QueuedOp>, d: DbId)
    requires AllOn(ops, d)
    ensures |Groups(ops)| <= 1
  {
    if ops != [] {
      ExceptAll(ops, d);
      GroupsSplit(ops);
      assert Groups([]) == [];
    }
  }

  lemma ApplyOn(r: Req, u: nat, rt: Route, ev: Event)
    requires AllOn(r.ops, rt.shard) && (ev.Make? ==> ev.call.Kind() != Account)
    ensures AllOn(Apply(r, u, rt, ev).ops, rt.shard)
  {
    hide OnList, Call.Kind;
  }

  /** Without account writes the whole queue is for the shard. */
  lemma {:induction false} ShardOnly(trace: seq<Event>, u: nat, rt: Route)
    requires NoAccount(CallsOf(trace))
    ensures AllOn(Replay(trace, u, rt).ops, rt.shard)
    decreases |trace|
  {
    if trace != [] {
      var front, ev := trace[..|trace| - 1], trace[|trace| - 1];
      var calls := CallsOf(trace);
      assert calls == CallsOf(front) + if ev.Make? then [ev.call] else [];
      assert Replay(trace, u, rt) == Apply(Replay(front, u, rt), u, rt, ev);
      hide Apply, Replay, CallsOf, Call.Kind, AllOn;
      assert forall i :: 0 <= i < |CallsOf(front)| ==> CallsOf(front)[i] == calls[i];
      if ev.Make? { assert calls[|calls| - 1] == ev.call; }
      ShardOnly(front, u, rt);
      ApplyOn(Replay(front, u, rt), u, rt, ev);
    }
  }

  /** With at most one group, a commit that does not go through changes no table. */
  lemma OneGroupKeeps(s: State, gs: seq<Group>, faults: seq<Fault>)
    requires GroupsHeld(gs, s.store) && |gs| <= 1
    ensures var x := CommitGroups(s, gs, faults, 0); !x.0.AllCommitted? ==> x.1.tabs == s.tabs
  {
    if |gs| == 1 && gs[0].db != NIL {
      TxAborts(s, gs[0].ops, FaultAt(faults, 0));
      var y := Tx(s, gs[0].ops, FaultAt(faults, 0));
      GroupsHeldShape(gs, s.store, y.1.store);
      assert gs[1..] == [];
      assert CommitGroups(y.1, gs[1..], faults, 1) == (AllCommitted, y.1);
      assert CommitGroups(s, gs, faults, 0) == if y.0 then (AllCommitted, y.1) else (TxFailed(0), y.1);
    }
  }

  /** A request with at most one group either commits it or leaves the tables alone. */
  lemma AbortKeeps(r: Req, tabs: Tables, faults: seq<Fault>)
    requires AllHeld(r.ops, r.store) && OneDb(r.ops) && |Groups(r.ops)| <= 1
    ensures var x := DbPhase(r, tabs, faults); !x.0.AllCommitted? ==> x.1.tabs == tabs
  {
    GroupsAreHeld(r.ops, r.store);
    OneGroupKeeps(State(tabs, r.store), Groups(r.ops), faults);
  }

  /**
   * When every write is for one database, a commit is all or nothing: it runs the whole queue, in its
   * own order, or leaves the tables alone.
   */
  lemma {:induction false} OneDatabaseWhole(r: Req, tabs: Tables, d: DbId, faults: seq<Fault>)
    requires AllHeld(r.ops, r.store) && AllOn(r.ops, d)
    ensures OneDb(r.ops)
    ensures var x := DbPhase(r, tabs, faults);
      if x.0.AllCommitted? then Run(State(tabs, r.store), r.ops) == Some(x.1) else x.1.tabs == tabs
  {
    assert OneDb(r.ops) by { AllOnOneDb(r.ops, d); }
    hide AllHeld, AllOn, OneDb, Run, Groups, DbPhase;
    OneGroup(r.ops, d);
    AbortKeeps(r, tabs, faults);
    WholeQueue(r, tabs, faults);
  }

  /** ... and the former exactly when there is something the one transaction does not fail at. */
  lemma {:induction false} OneDatabaseIff(r: Req, tabs: Tables, d: DbId, faults: seq<Fault>)
    requires AllHeld(r.ops, r.store) && AllOn(r.ops, d) && d != NIL && r.ops != [] && Run(State(tabs, r.store), r.ops).Some?
    ensures OneDb(r.ops)
    ensures DbPhase(r, tabs, faults).0 == if FaultAt(faults, 0).None? then AllCommitted else TxFailed(0)
  {
    var s := State(tabs, r.store);
    hide Groups, AllOn, OneDb, Run, AllHeld, Tx, FaultAt, Attempt;
    AllOnOneDb(r.ops, d);
    GroupsAreHeld(r.ops, r.store);
    SoleGroup(r.ops, d);
    SoleOutcome(s, Group(d, r.ops), faults);
    TxCommits(s, r.ops, FaultAt(faults, 0));
    TxStops(s, r.ops, FaultAt(faults, 0));
  }

  lemma SoleOutcome(s: State, g: Group, faults: seq<Fault>)
    requires AllHeld(g.ops, s.store) && g.db != NIL
    ensures GroupsHeld([g], s.store)
    ensures CommitGroups(s, [g], faults, 0).0.AllCommitted? <==> Tx(s, g.ops, FaultAt(faults, 0)).0
    ensures !CommitGroups(s, [g], faults, 0).0.AllCommitted? ==> CommitGroups(s, [g], faults, 0).0 == TxFailed(0)
  {
    hide AllHeld, Tx, FaultAt;
    assert [g][1..] == [];
  }

  lemma TxStops(s: State, ops: seq<QueuedOp>, fault: Fault)
    requires AllHeld(ops, s.store)
    ensures fault.Some? ==> !Tx(s, ops, fault).0
  {
    hide AllHeld, Attempt;
    FaultStops(s, ops, fault);
  }

  lemma SoleGroup(ops: seq<QueuedOp>, d: DbId)
    requires AllOn(ops, d) && ops != []
    ensures Groups(ops) == [Group(d, ops)]
  {
    ExceptAll(ops, d);
    OnlyInAll(ops, d);
    GroupsSplit(ops);
    assert Groups([]) == [];
  }

  lemma {:induction false} OnlyInAll(ops: seq<QueuedOp>, d: DbId)
    requires AllOn(ops, d)
    ensures OnlyIn(ops, {d}) == ops
  {
    if ops != [] { OnlyInAll(ops[1..], d); }
  }

  lemma {:induction false} FaultStops(s: State, ops: seq<QueuedOp>, fault: Fault)
    requires AllHeld(ops, s.store)
    ensures fault.Some? ==> !Attempt(s, ops, fault).0
    decreases |ops|
  {
    hide Step;
    if fault.Some? && fault != Some(0) && ops != [] {
      var n := Step(s, ops[0]);
      if n.Some? { FaultStops(n.value, ops[1..], Some(fault.value - 1)); }
    }
  }

  lemma AllOnOneDb(ops: seq<QueuedOp>, d: DbId)
    requires AllOn(ops, d)
    ensures OneDb(ops)
  {
  }

  lemma WholeQueue(r: Req, tabs: Tables, faults: seq<Fault>)
    requires AllHeld(r.ops, r.store) && OneDb(r.ops)
    ensures var x := DbPhase(r, tabs, faults); x.0.AllCommitted? ==> Run(State(tabs, r.store), r.ops) == Some(x.1)
  {
    var x := DbPhase(r, tabs, faults);
    assert PartialLaw(State(tabs, r.store), r.ops, 0, x.0, x.1) by {
      CommitPartial(State(tabs, r.store), r.ops, faults, 0);
    }
  }

  // ------------------------------------------------------------------ every ending of every request

  /** What is left of a request that ended as c, its transactions having come to o. */
  ghost predicate Ending(trace: seq<Event>, b: Backend, u: nat, rt: Route, ds: set<DbId>, c: Commit, b': Backend) {
    var after := Direct(b.tabs, CallsOf(trace), u, rt);
    && OthersKept(b, b', u) && b'.cache - {u} == b.cache - {u}
    && (forall id :: id in b.tabs && ValidTable(b.tabs[id], id.entity) ==> ValidTable(b'.tabs[id], id.entity))
    && after.Keys == b.tabs.Keys
    && (c.Panicked? || Coherent(b', u, rt))
    && (c.Committed? || c.CacheFailed? ==> b'.tabs == after)
    && (c.Aborted? || c.CacheFailed? ==> u !in b'.cache)
    && (c.Aborted? || c.Panicked? ==> forall id :: id in b.tabs ==> b'.tabs[id] == if id.db in ds then after[id] else b.tabs[id])
  }

  /**
   * Every ending of every request. Take any sound trace on a coherent cache, any place where a
   * transaction fails and any reply to the cache write: other users keep their rows and caches; without
   * an error, or with one from the cache alone, the tables are those of the calls made at once; with a
   * failed transaction exactly the databases that had committed by then are; after an error the user's
   * cache is empty; and unless the commit panicked the cache is coherent again.
   */
  lemma {:induction false} EveryEnding(trace: seq<Event>, b: Backend, u: nat, rt: Route, faults: seq<Fault>, reply: CacheReply)
    requires ValidTables(b.tabs, rt) && Sound(trace, b.tabs, u, rt) && Coherent(b, u, rt) && u != 0
    ensures var r := Replay(trace, u, rt);
      && AllHeld(r.ops, r.store) && OneDb(r.ops)
      && var (c, b') := CommitOrRollback(r, b, u, faults, reply);
      Ending(trace, b, u, rt, CommittedDbs(r, DbPhase(r, b.tabs, faults).0), c, b')
  {
    var r := Replay(trace, u, rt);
    hide Replay, Sound, ValidTables, Tracks, BaseOk, TargetTables, AssignedStore, Direct, CallsOf, Coherent, OthersKept, ValidTable, Lands, CommittedDbs, DbPhase, AllHeld, OneDb;
    TraceMeansDirect(trace, b.tabs, u, rt);
    CommitLands(r, b.tabs, u, rt, faults);
    var x := DbPhase(r, b.tabs, faults);
    CommitOthers(r, b, u, rt, faults, reply);
    CommitCoherent(r, b, u, rt, faults, reply);
    LandsDirect(r, b.tabs, rt, CommittedDbs(r, x.0), x.1.tabs);
    CacheBeside(x.0, x.1, b, u, reply);
  }

  lemma CacheBeside(o: Outcome, s: State, b: Backend, u: nat, reply: CacheReply)
    ensures var (c, b') := CachePhase(o, s, b, u, reply); RollbackPhase(c, b', u).cache - {u} == b.cache - {u}
  {
  }

  lemma LandsDirect(r: Req, tabs: Tables, rt: Route, ds: set<DbId>, tabs': Tables)
    requires BaseOk(r) && Lands(r, tabs, rt, ds, tabs')
    ensures TargetTables(r, tabs, rt).Keys == tabs.Keys
    ensures forall id :: id in tabs ==> id in tabs' && tabs'[id] == if id.db in ds then TargetTables(r, tabs, rt)[id] else tabs[id]
  {
    hide TargetAt;
  }
}

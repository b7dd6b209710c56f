// The unit of work itself: a store of pointers to model structs that services change in place, a
// queue of writes that are performed at commit, and the set of changed models.
module Units {
  import opened Rows
  import opened TableRun
  import opened Calls
  import opened Queue
  import opened Request
  import opened Transactions
  import opened Coherence
  import opened Mirror
  import opened Balance
  import opened Stores
  import Shards

  /** A model struct; everybody holds pointers to it. */
  class Model {
    var row: Row
    /** The list of the store it belongs to, and its place there. */
    ghost const home: (Entity, nat)

    constructor (row: Row, ghost home: (Entity, nat))
      ensures this.row == row && this.home == home
    {
      this.row, this.home := row, home;
    }
  }

  /** dbOp: the database and what the closure captures. */
  datatype DbOp = DbOp(db: DbId, m: Model, kind: OpKind)

  type Lists = map<Entity, seq<Model>>

  class Container {
    const game: DbId
    const shards: Shards.Registry
    const users: UserCache
    const sql: Sql

    constructor (game: DbId, shards: Shards.Registry, users: UserCache, sql: Sql)
      ensures this.game == game && this.shards == shards && this.users == users && this.sql == sql
    {
      this.game, this.shards, this.users, this.sql := game, shards, users, sql;
    }

    ghost predicate Valid()
      reads shards, sql
    {
      game != NIL && shards.Valid() && sql.Valid()
    }

    ghost function Backend(): Backend
      reads users, sql
    {
      Coherence.Backend(sql.tabs, users.hashes)
    }
  }

  function Resolve(shards: map<int, DbId>, id: int): DbId {
    if id in shards then shards[id] else NIL
  }

  /** The struct at a place of the store. */
  function ObjectAt(store: Lists, e: Entity, pos: nat): Option<Model> {
    if e in store && pos < |store[e]| then Some(store[e][pos]) else None
  }

  /** Every object is at its own place, so at no other. */
  ghost predicate Placed(store: Lists) {
    forall e, i :: e in store && 0 <= i < |store[e]| ==> store[e][i].home == (e, i)
  }

  /** The queued closure stands for the write `q`, unless it was queued for a nil database. */
  predicate Stands(d: DbOp, q: QueuedOp, store: Lists) {
    ObjectAt(store, q.entity, q.op.pos) == Some(d.m) && d.kind == q.op.kind && (d.db == q.db || d.db == NIL)
  }

  ghost predicate Linked(dbOps: seq<DbOp>, ops: seq<QueuedOp>, store: Lists) {
    |dbOps| <= |ops| && forall i :: 0 <= i < |dbOps| ==> Stands(dbOps[i], ops[i], store)
  }

  ghost predicate Changed(ops: seq<QueuedOp>, e: Entity, pos: nat) {
    Synced(e) && Touched(Proj(ops, e), pos)
  }

  /** The dirty set holds the changed objects of registered model types. */
  ghost predicate DirtyIs(dirty: set<Model>, ops: seq<QueuedOp>, store: Lists) {
    && (forall m :: m in dirty ==> ObjectAt(store, m.home.0, m.home.1) == Some(m) && Changed(ops, m.home.0, m.home.1))
    && (forall e, i :: e in store && 0 <= i < |store[e]| && Changed(ops, e, i) ==> store[e][i] in dirty)
  }

  /** The account, once loaded, says which shard the user's other entities are in. */
  predicate AccountOk(rows: Store, rt: Route, shards: map<int, DbId>) {
    Account in rows ==>
      |rows[Account]| == 1 && rows[Account][0].AccountRow? && Resolve(shards, rows[Account][0].shardId) == rt.shard
  }

  /** The user has an account, and its shard is registered. */
  ghost predicate AccountRoutes(tabs: Tables, u: nat, rt: Route, shards: map<int, DbId>) {
    var t := At(tabs, rt.Id(Account));
    && u in t.rows && t.rows[u].AccountRow? && rt.shard != NIL
    && Resolve(shards, t.rows[u].shardId) == rt.shard
  }

  /** What holds around a request of user u while nobody else works for u. */
  ghost predicate Serving(b: Backend, trace: seq<Event>, u: nat, rt: Route, shards: map<int, DbId>) {
    && ValidTables(b.tabs, rt) && Coherent(b, u, rt) && Sound(trace, b.tabs, u, rt)
    && AccountRoutes(b.tabs, u, rt, shards)
  }

  ghost predicate Steady(store: Lists, rows: Store, dbOps: seq<DbOp>, dirty: set<Model>, ops: seq<QueuedOp>) {
    && Placed(store) && Linked(dbOps, ops, store) && DirtyIs(dirty, ops, store)
    && store.Keys == rows.Keys && (forall e :: e in store ==> |store[e]| == |rows[e]|)
  }

  /** The object at (e, i) is one of `objects`, and reads the row of its entity's type that is there. */
  ghost predicate ReadsAt(objects: set<Model>, store: Lists, rows: Store, e: Entity, i: nat)
    requires e in store && i < |store[e]|
    reads objects
  {
    && store[e][i] in objects && e in rows && i < |rows[e]|
    && store[e][i].row == rows[e][i] && rows[e][i].Kind() == e
  }

  /** The objects read what `rows` says. */
  ghost predicate Reads(objects: set<Model>, store: Lists, rows: Store)
    reads objects
  {
    forall e, i {:trigger store[e][i]} :: e in store && 0 <= i < |store[e]| ==> ReadsAt(objects, store, rows, e, i)
  }

  /** The same, except for what m reads. */
  ghost predicate ReadsButAt(objects: set<Model>, store: Lists, rows: Store, m: Model, e: Entity, i: nat)
    requires e in store && i < |store[e]|
    reads objects - {m}
  {
    && store[e][i] in objects && e in rows && i < |rows[e]| && rows[e][i].Kind() == e
    && (store[e][i] != m ==> store[e][i].row == rows[e][i])
  }

  ghost predicate ReadsBut(objects: set<Model>, store: Lists, rows: Store, m: Model)
    reads objects - {m}
  {
    forall e, i {:trigger store[e][i]} :: e in store && 0 <= i < |store[e]| ==> ReadsButAt(objects, store, rows, m, e, i)
  }

  /** The request on values is the replay of the trace, and its loads were answered with what the tables hold. */
  ghost predicate Follows(r: Req, trace: seq<Event>, u: nat, rt: Route, b: Backend, shards: map<int, DbId>) {
    && r == Replay(trace, u, rt)
    && AccountOk(r.store, rt, shards)
    && (if u == 0 then trace == [] else Serving(b, trace, u, rt, shards))
  }

  // ------------------------------------------------------------------ what a load does, on values

  lemma {:induction false} AcceptedSnoc(front: seq<Event>, ev: Event, u: nat, rt: Route)
    ensures Replay(front + [ev], u, rt) == Apply(Replay(front, u, rt), u, rt, ev)
    ensures CallsOf(front + [ev]) == CallsOf(front) + if ev.Make? then [ev.call] else []
    ensures Accepted(front + [ev], u, rt) == Accepted(front, u, rt) + Taken(Replay(front, u, rt), ev, u)
  {
    hide Apply, OnList, Call.Kind;
    assert (front + [ev])[..|front|] == front;
  }

  /** The longer trace has more loads, and no more calls. */
  ghost predicate OnlyLoads(before: seq<Event>, after: seq<Event>, u: nat, rt: Route) {
    CallsOf(after) == CallsOf(before) && Accepted(after, u, rt) == Accepted(before, u, rt)
  }

  lemma SameTrace(trace: seq<Event>, u: nat, rt: Route)
    ensures OnlyLoads(trace, trace, u, rt)
  {
  }

  lemma LoadCalls(trace: seq<Event>, e: Entity, values: seq<Row>, u: nat, rt: Route)
    ensures OnlyLoads(trace, trace + [Load(e, values)], u, rt)
  {
    hide CallsOf, Accepted, Replay;
    AcceptedSnoc(trace, Load(e, values), u, rt);
  }

  lemma SoundLoad(trace: seq<Event>, tabs: Tables, u: nat, rt: Route, e: Entity, rows: seq<Row>)
    requires Sound(trace, tabs, u, rt) && Rows.Lists(rows, At(tabs, rt.Id(e)), u)
    ensures Sound(trace + [Load(e, rows)], tabs, u, rt)
  {
    hide Rows.Lists, Replay;
    assert (trace + [Load(e, rows)])[..|trace|] == trace;
  }

  lemma SoundMake(trace: seq<Event>, tabs: Tables, u: nat, rt: Route, call: Call)
    requires Sound(trace, tabs, u, rt) && call.Kind() in Replay(trace, u, rt).store
    ensures Sound(trace + [Make(call)], tabs, u, rt)
  {
    hide Rows.Lists, Replay, Call.Kind;
    assert (trace + [Make(call)])[..|trace|] == trace;
  }

  /** A load answered from the cache or the table keeps everything as it should be. */
  lemma FollowsLoad(r: Req, trace: seq<Event>, u: nat, rt: Route, b: Backend, e: Entity, rows: seq<Row>, shards: map<int, DbId>)
    requires Follows(r, trace, u, rt, b, shards) && u != 0 && e !in r.store && Answers(b, u, rt, e, rows)
    ensures Follows(Req(r.store[e := rows], r.base[e := |rows|], r.ops), trace + [Load(e, rows)], u, rt, b, shards)
  {
    hide Sound, Coherent, Answers, AccountRoutes, Rows.Lists, Backend.SetFields, ValidTable, Replay;
    AnswerIsListing(b, u, rt, e, rows);
    SoundLoad(trace, b.tabs, u, rt, e, rows);
    AcceptedSnoc(trace, Load(e, rows), u, rt);
    if e == Account {
      assert ValidTable(At(b.tabs, rt.Id(Account)), Account);
      AccountListing(b.tabs, u, rt, rows, shards);
    }
  }

  /** Filling the cache with a listing keeps everything as it should be. */
  lemma FollowsFill(r: Req, trace: seq<Event>, u: nat, rt: Route, b: Backend, e: Entity, rows: seq<Row>, shards: map<int, DbId>)
    requires Follows(r, trace, u, rt, b, shards) && u != 0 && Rows.Lists(rows, At(b.tabs, rt.Id(e)), u)
    ensures Follows(r, trace, u, rt, b.SetFields(u, map[e := rows]), shards)
  {
    hide Sound, Coherent, AccountRoutes, Rows.Lists, Backend.SetFields, ValidTables, Replay, AccountOk;
    FillTabs(b, u, map[e := rows]);
    AnswerIsListing(b, u, rt, e, rows);
  }

  lemma TwoDiffer(rows: seq<Row>)
    requires |rows| > 1 && DistinctPk(rows)
    ensures rows[0].pk != rows[1].pk
  {
  }

  /** The user's account listing is the one account row. */
  lemma AccountListing(tabs: Tables, u: nat, rt: Route, rows: seq<Row>, shards: map<int, DbId>)
    requires var t := At(tabs, rt.Id(Account)); ValidTable(t, Account) && Rows.Lists(rows, t, u)
    requires AccountRoutes(tabs, u, rt, shards)
    ensures AccountOk(map[Account := rows], rt, shards)
  {
    var t := At(tabs, rt.Id(Account));
    if |rows| > 1 { TwoDiffer(rows); }
    ListsPointwise(rows, t, u, Account);
    assert t.rows[u].Owner() == u;
    var i :| 0 <= i < |rows| && rows[i].pk == u;
    assert forall j :: 0 <= j < |rows| ==> rows[j].pk == u;
  }

  /** The row FindOne finds is the user's whole listing. */
  lemma OneRowLists(t: Table, k: nat, u: nat, r: Row)
    requires ValidTable(t, Account) && HasRow(t, k, u, r)
    ensures Rows.Lists([r], t, u)
  {
    assert forall l :: l in t.rows ==> t.rows[l].AccountRow? && t.rows[l].Owner() == l;
    assert r.pk == u && [r][0].pk == u;
    ListsFromPointwise([r], t, u);
  }

  // ------------------------------------------------------------------ one more write

  /** The account's shard survives any call. */
  lemma AccountKept(r: Req, u: nat, rt: Route, call: Call, shards: map<int, DbId>)
    requires AccountOk(r.store, rt, shards) && call.Kind() in r.store
    ensures AccountOk(Apply(r, u, rt, Make(call)).store, rt, shards)
  {
    if call.TouchAccount? { assert Calls.Find(r.store[Account], call) == 0; }
  }

  lemma FollowsMake(r: Req, trace: seq<Event>, u: nat, rt: Route, b: Backend, call: Call, shards: map<int, DbId>)
    requires Follows(r, trace, u, rt, b, shards) && call.Kind() in r.store
    ensures u != 0 && Follows(Apply(r, u, rt, Make(call)), trace + [Make(call)], u, rt, b, shards)
    ensures CallsOf(trace + [Make(call)]) == CallsOf(trace) + [call]
    ensures Accepted(trace + [Make(call)], u, rt) == Accepted(trace, u, rt) + Taken(r, Make(call), u)
  {
    hide Sound, Coherent, AccountRoutes, ValidTables, Apply, Call.Kind, Accepted, CallsOf, Taken, AccountOk;
    AcceptedSnoc(trace, Make(call), u, rt);
    if u != 0 { SoundMake(trace, b.tabs, u, rt, call); }
    AccountKept(r, u, rt, call, shards);
  }

  lemma ChangedSnoc(ops: seq<QueuedOp>, q: QueuedOp, e: Entity, i: nat)
    ensures Changed(ops + [q], e, i) <==> Changed(ops, e, i) || (Synced(e) && q.entity == e && q.op.pos == i)
  {
    ProjSnoc(ops, q.db, q.entity, Some(q.op), e);
    assert Enqueue(ops, q.db, q.entity, Some(q.op)) == ops + [q];
    TouchedSnoc(Proj(ops, e), q.op, i);
  }

  /** markDirty and the announcement of a write of the object at (e, p). */
  lemma SteadyAnnounce(store: Lists, rows: Store, dbOps: seq<DbOp>, dirty: set<Model>, ops: seq<QueuedOp>, e: Entity, p: nat, q: QueuedOp)
    requires Steady(store, rows, dbOps, dirty, ops) && e in store && p < |store[e]| && q.entity == e && q.op.pos == p
    ensures Steady(store, rows, dbOps, if Synced(e) then dirty + {store[e][p]} else dirty, ops + [q])
  {
    forall f, i: nat {
      ChangedSnoc(ops, q, f, i);
    }
    hide Changed;
  }

  lemma SteadyPlaces(store: Lists, rows: Store, dbOps: seq<DbOp>, dirty: set<Model>, ops: seq<QueuedOp>)
    requires Steady(store, rows, dbOps, dirty, ops)
    ensures Placed(store) && store.Keys == rows.Keys
  {
  }

  lemma SteadyLengths(store: Lists, rows: Store, dbOps: seq<DbOp>, dirty: set<Model>, ops: seq<QueuedOp>)
    requires Steady(store, rows, dbOps, dirty, ops)
    ensures store.Keys == rows.Keys && forall e :: e in store ==> |store[e]| == |rows[e]|
  {
  }

  lemma ChangeKind(call: Call, r: Row)
    requires call.Hits(r) && call.Change(r).Some?
    ensures r.Kind() == call.Kind() && call.Change(r).value.Kind() == r.Kind()
  {
  }

  lemma SteadyValues(store: Lists, rows: Store, rows': Store, dbOps: seq<DbOp>, dirty: set<Model>, ops: seq<QueuedOp>)
    requires Steady(store, rows, dbOps, dirty, ops) && SameShape(rows, rows')
    ensures Steady(store, rows', dbOps, dirty, ops)
  {
    hide Placed, Linked, DirtyIs;
  }

  /** storeModel, for a list that is loaded. */
  lemma SteadyAppend(store: Lists, rows: Store, dbOps: seq<DbOp>, dirty: set<Model>, ops: seq<QueuedOp>, e: Entity, m: Model, r: Row)
    requires Steady(store, rows, dbOps, dirty, ops) && e in store && m.home == (e, |store[e]|)
    requires forall i :: 0 <= i < |ops| ==> Queue.Held(ops[i], rows)
    ensures Steady(store[e := store[e] + [m]], rows[e := rows[e] + [r]], dbOps, dirty, ops)
  {
    NotYet(ops, rows, e, |rows[e]|);
    hide Proj;
  }

  /** No queued write is about a place beyond the end of a list. */
  lemma {:induction false} NotYet(ops: seq<QueuedOp>, rows: Store, e: Entity, p: nat)
    requires forall i :: 0 <= i < |ops| ==> Queue.Held(ops[i], rows)
    requires e in rows && |rows[e]| <= p
    ensures !Touched(Proj(ops, e), p)
  {
    if ops != [] { NotYet(ops[..|ops| - 1], rows, e, p); }
  }

  lemma SteadyCreate(store: Lists, r: Req, trace: seq<Event>, u: nat, rt: Route, dbOps: seq<DbOp>, dirty: set<Model>, e: Entity, m: Model, row: Row)
    requires Steady(store, r.store, dbOps, dirty, r.ops) && r == Replay(trace, u, rt) && e in store && m.home == (e, |store[e]|)
    ensures Steady(store[e := store[e] + [m]], r.store[e := r.store[e] + [row]], dbOps, dirty, r.ops)
    ensures |r.store[e]| == |store[e]|
  {
    hide Replay, Placed, Linked, DirtyIs;
    ReplayHeld(trace, u, rt);
    assert forall i :: 0 <= i < |r.ops| ==> Queue.Held(r.ops[i], r.store);
    hide Steady;
    SteadyAppend(store, r.store, dbOps, dirty, r.ops, e, m, row);
  }

  lemma ReadsWritten(objects: set<Model>, store: Lists, rows: Store, e: Entity, p: nat, m: Model)
    requires ReadsBut(objects, store, rows, m) && Placed(store) && ObjectAt(store, e, p) == Some(m)
    requires e in rows && p < |rows[e]| && m.row.Kind() == e
    ensures Reads(objects + {m}, store, rows[e := rows[e][p := m.row]])
  {
    hide Row.Kind;
    var rows', all := rows[e := rows[e][p := m.row]], objects + {m};
    forall f, i | f in store && 0 <= i < |store[f]|
      ensures ReadsAt(all, store, rows', f, i)
    {
      assert store[f][i] == m <==> (f == e && i == p);
    }
  }

  lemma MakeStore(r: Req, u: nat, rt: Route, call: Call)
    requires call.Kind() in r.store
    ensures Apply(r, u, rt, Make(call)).store == r.store[call.Kind() := OnList(r.store[call.Kind()], call, u).0]
  {
    hide OnList, Call.Kind;
  }

  lemma StandsFor(store: Lists, db: DbId, e: Entity, m: Model, kind: OpKind)
    requires ObjectAt(store, e, m.home.1) == Some(m)
    ensures Stands(DbOp(db, m, kind), QueuedOp(db, e, RowOp(kind, m.home.1)), store)
  {
  }

  lemma ReadsAppend(objects: set<Model>, store: Lists, rows: Store, e: Entity, m: Model)
    requires Reads(objects, store, rows) && e in store && e in rows && |rows[e]| == |store[e]| && m.row.Kind() == e
    ensures Reads(objects + {m}, store[e := store[e] + [m]], rows[e := rows[e] + [m.row]])
  {
    hide Row.Kind;
    var store', rows' := store[e := store[e] + [m]], rows[e := rows[e] + [m.row]];
    forall f, i | f in store' && 0 <= i < |store'[f]|
      ensures ReadsAt(objects + {m}, store', rows', f, i)
    {
      if f == e && i == |store[e]| {
        assert store'[f][i] == m;
      } else {
        assert store'[f][i] == store[f][i] && ReadsAt(objects, store, rows, f, i);
      }
    }
  }

  /** queueOp catches up with the announcement. */
  lemma SteadyQueue(store: Lists, rows: Store, dbOps: seq<DbOp>, dirty: set<Model>, ops: seq<QueuedOp>, d: DbOp)
    requires Steady(store, rows, dbOps, dirty, ops) && |ops| == |dbOps| + 1 && Stands(d, ops[|dbOps|], store)
    ensures Steady(store, rows, dbOps + [d], dirty, ops)
  {
    hide Placed, DirtyIs, Stands;
  }

  // ------------------------------------------------------------------ a new list

  /** Nothing is queued for an entity that is not loaded. */
  lemma NotTouched(trace: seq<Event>, u: nat, rt: Route, e: Entity)
    requires e !in Replay(trace, u, rt).store
    ensures Proj(Replay(trace, u, rt).ops, e) == []
  {
    ReplayHeld(trace, u, rt);
    ProjNone(Replay(trace, u, rt).ops, e);
  }

  /** Opening the two halves of the invariant. */
  lemma Known(store: Lists, r: Req, dbOps: seq<DbOp>, dirty: set<Model>, trace: seq<Event>, u: nat, rt: Route, b: Backend, shards: map<int, DbId>)
    requires Steady(store, r.store, dbOps, dirty, r.ops) && Follows(r, trace, u, rt, b, shards)
    ensures store.Keys == r.store.Keys && r == Replay(trace, u, rt)
    ensures u != 0 ==> Serving(b, trace, u, rt, shards)
  {
    hide Replay, Placed, Linked, DirtyIs, Serving, AccountOk;
  }

  /** A loaded account is one struct, and names the shard. */
  lemma KnownAccount(store: Lists, r: Req, dbOps: seq<DbOp>, dirty: set<Model>, trace: seq<Event>, u: nat, rt: Route, b: Backend, shards: map<int, DbId>)
    requires Steady(store, r.store, dbOps, dirty, r.ops) && Follows(r, trace, u, rt, b, shards) && Account in store
    ensures |store[Account]| == 1 && Account in r.store && |r.store[Account]| == 1
    ensures r.store[Account][0].AccountRow? && Resolve(shards, r.store[Account][0].shardId) == rt.shard
  {
    hide Replay, Placed, Linked, DirtyIs, Serving;
  }

  lemma SteadyMore(store: Lists, rows: Store, dbOps: seq<DbOp>, dirty: set<Model>, ops: seq<QueuedOp>, e: Entity, list: seq<Model>, values: seq<Row>)
    requires Steady(store, rows, dbOps, dirty, ops) && e !in store && Proj(ops, e) == []
    requires |values| == |list| && forall i :: 0 <= i < |list| ==> list[i].home == (e, i)
    ensures Steady(store[e := list], rows[e := values], dbOps, dirty, ops)
  {
    hide Proj;
  }

  /** Decoding an answer gives new structs. */
  method Decode(e: Entity, values: seq<Row>) returns (list: seq<Model>, ghost made: set<Model>)
    ensures |list| == |values| && fresh(made)
    ensures forall i :: 0 <= i < |list| ==> list[i] in made && list[i].home == (e, i) && list[i].row == values[i]
  {
    list, made := [], {};
    var i := 0;
    while i < |values|
      invariant 0 <= i == |list| <= |values| && fresh(made)
      invariant forall j :: 0 <= j < i ==> list[j] in made && list[j].home == (e, j) && list[j].row == values[j]
    {
      var m := new Model(values[i], (e, i));
      list, made := list + [m], made + {m};
      i := i + 1;
    }
  }

  lemma SetIsSetFields(b: Backend, u: nat, fields: Store)
    ensures b.SetFields(u, fields) == Coherence.Backend(b.tabs, b.cache[u := (if u in b.cache then b.cache[u] else map[]) + fields])
  {
  }

  lemma CacheAnswers(c: Container, u: nat, rt: Route, e: Entity, values: seq<Row>)
    requires u in c.users.hashes && e in c.users.hashes[u] && values == c.users.hashes[u][e]
    ensures Answers(c.Backend(), u, rt, e, values)
  {
  }

  /** The row FindOne found is the user's listing. */
  lemma RowAnswers(c: Container, u: nat, rt: Route, r: Row)
    requires ValidTable(At(c.sql.tabs, rt.Id(Account)), Account)
    requires exists k :: HasRow(At(c.sql.tabs, rt.Id(Account)), k, u, r)
    ensures Rows.Lists([r], At(c.sql.tabs, rt.Id(Account)), u) && Answers(c.Backend(), u, rt, Account, [r])
  {
    var k :| HasRow(At(c.sql.tabs, rt.Id(Account)), k, u, r);
    OneRowLists(At(c.sql.tabs, rt.Id(Account)), k, u, r);
  }

  lemma ListAnswers(c: Container, u: nat, rt: Route, e: Entity, rows: seq<Row>)
    requires Rows.Lists(rows, At(c.sql.tabs, rt.Id(e)), u)
    ensures Answers(c.Backend(), u, rt, e, rows)
  {
  }

  lemma GameTable(c: Container, rt: Route, e: Entity)
    requires c.Valid() && rt.game == c.game
    ensures c.sql.Valid() && c.game != NIL && ValidTable(At(c.sql.tabs, rt.Id(e)), e)
    ensures e == Account ==> rt.Id(e) == TableId(c.game, e)
  {
    EmptyValid(e);
  }

  // ------------------------------------------------------------------ Commit

  ghost function OpOf(d: DbOp): QueuedOp {
    QueuedOp(d.db, d.m.home.0, RowOp(d.kind, d.m.home.1))
  }

  /** The queue as it will run: with the databases it was queued for. */
  ghost function Actual(dbOps: seq<DbOp>): (ops: seq<QueuedOp>)
    ensures |ops| == |dbOps| && forall i :: 0 <= i < |ops| ==> ops[i] == OpOf(dbOps[i])
  {
    seq(|dbOps|, i requires 0 <= i < |dbOps| => OpOf(dbOps[i]))
  }

  datatype DbGroup = DbGroup(db: DbId, fns: seq<DbOp>)

  ghost function Grouped(gs: seq<DbGroup>): (r: seq<Group>)
    ensures |r| == |gs| && forall i :: 0 <= i < |r| ==> r[i] == Group(gs[i].db, Actual(gs[i].fns))
  {
    seq(|gs|, i requires 0 <= i < |gs| => Group(gs[i].db, Actual(gs[i].fns)))
  }

  /** `idx` maps each database to its group. */
  predicate Indexes(idx: map<DbId, nat>, groups: seq<DbGroup>) {
    && (forall d :: d in idx ==> idx[d] < |groups| && groups[idx[d]].db == d)
    && (forall i :: 0 <= i < |groups| ==> groups[i].db in idx && idx[groups[i].db] == i)
  }

  /** One turn of the loop of GroupByDb. */
  method AddToGroup(groups: seq<DbGroup>, idx: map<DbId, nat>, op: DbOp, ghost dbOps: seq<DbOp>) returns (groups': seq<DbGroup>, idx': map<DbId, nat>)
    requires Indexes(idx, groups) && GroupedFrom(dbOps, groups) && op in dbOps
    ensures Indexes(idx', groups') && GroupedFrom(dbOps, groups')
    ensures Grouped(groups') == AddTo(Grouped(groups), OpOf(op))
  {
    groups', idx' := groups, idx;
    if op.db in idx {
      AddToAt(Grouped(groups), OpOf(op), idx[op.db]);
    } else {
      AddToEnd(Grouped(groups), OpOf(op));
      idx' := idx'[op.db := |groups'|];
      groups' := groups' + [DbGroup(op.db, [])];
    }
    hide AddTo;
    var i := idx'[op.db];
    groups' := groups'[i := DbGroup(op.db, groups'[i].fns + [op])];
    ghost var want := AddTo(Grouped(groups), OpOf(op));
    assert Actual(groups'[i].fns) == (if op.db in idx then Actual(groups[i].fns) else []) + [OpOf(op)];
    forall j | 0 <= j < |groups'|
      ensures Grouped(groups')[j] == want[j]
    {
      if j != i { assert groups'[j] == groups[j]; }
    }
  }

  lemma NoGroupsYet(dbOps: seq<DbOp>, idx: map<DbId, nat>)
    requires idx == map[]
    ensures Indexes(idx, []) && GroupedFrom(dbOps, []) && Grouped([]) == Groups(Actual(dbOps[..0]))
  {
    assert dbOps[..0] == [] && Actual([]) == [] && Grouped([]) == [];
  }

  /** Commit's grouping loop: `groups` in order of first appearance, `idx` from database to group. */
  method GroupByDb(dbOps: seq<DbOp>) returns (groups: seq<DbGroup>)
    ensures Grouped(groups) == Groups(Actual(dbOps)) && GroupedFrom(dbOps, groups)
  {
    hide Groups, AddTo, OpOf, Indexes, GroupedFrom;
    groups := [];
    var idx: map<DbId, nat> := map[];
    NoGroupsYet(dbOps, idx);
    var k := 0;
    while k < |dbOps|
      invariant 0 <= k <= |dbOps| && Indexes(idx, groups) && GroupedFrom(dbOps, groups)
      invariant Grouped(groups) == Groups(Actual(dbOps[..k]))
    {
      GroupsSnoc(Actual(dbOps[..k]), OpOf(dbOps[k]));
      assert Actual(dbOps[..k + 1]) == Actual(dbOps[..k]) + [OpOf(dbOps[k])];
      groups, idx := AddToGroup(groups, idx, dbOps[k], dbOps);
      k := k + 1;
    }
    assert dbOps[..k] == dbOps;
  }

  /** The closure's object is in the store. */
  ghost predicate InStore(d: DbOp, store: Lists) {
    ObjectAt(store, d.m.home.0, d.m.home.1) == Some(d.m)
  }

  /** The table and the row a closure leaves behind. */
  lemma StepIs(tabs: Tables, rows: Store, q: QueuedOp)
    requires Queue.Held(q, rows)
    ensures var id, row := TableId(q.db, q.entity), rows[q.entity][q.op.pos];
      var x := Exec(At(tabs, id), row, q.op.kind);
      Step(State(tabs, rows), q) ==
        match x case None => None case Some(y) => Some(State(tabs[id := y.0], rows[q.entity := rows[q.entity][q.op.pos := y.1]]))
  {
    hide Exec, At;
  }

  lemma ExecValid(t: Table, e: Entity, row: Row, kind: OpKind)
    requires ValidTable(t, e) && row.Kind() == e
    ensures var x := Exec(t, row, kind);
      x.Some? ==> ValidTable(x.value.0, e) && x.value.1 == (if kind.InsertOp? then row.WithPk(t.next) else row) && x.value.1.Kind() == e
  {
    InsertValid(t, e, row);
    SaveValid(t, e, row);
    hide ValidTable, Insert, Save;
  }

  /** The closure queued by Create (INSERT, then SetPrimaryKey) or by Update. */
  method RunOp(sql: Sql, d: DbOp, ghost objects: set<Model>, ghost store: Lists, ghost rows: Store) returns (ok: bool, ghost rows': Store)
    requires sql.Valid() && Placed(store) && Reads(objects, store, rows) && InStore(d, store)
    modifies sql, d.m
    ensures sql.Valid() && Reads(objects, store, rows') && SameShape(rows, rows')
    ensures Queue.Held(OpOf(d), rows)
    ensures Step(State(old(sql.tabs), rows), OpOf(d)) == if ok then Some(State(sql.tabs, rows')) else None
    ensures !ok ==> sql.tabs == old(sql.tabs) && rows' == rows
  {
    hide ValidTable, Row.Kind, Exec, Step, Placed, Insert, Save, At;
    rows' := rows;
    var e := d.m.row.Kind();
    var id := TableId(d.db, e);
    HomeKind(d, objects, store, rows);
    var t := At(sql.tabs, id);
    TableValid(sql.tabs, id);
    StepIs(sql.tabs, rows, OpOf(d));
    ExecValid(t, e, d.m.row, d.kind);
    ExecIs(t, d.m.row, d.kind);
    ReadsButHolds(objects, store, rows, d.m);
    hide ReadsBut, Reads;
    var t' := if d.kind.InsertOp? then Insert(t, d.m.row) else Save(t, d.m.row);
    if t'.None? { return false, rows; }
    sql.tabs := sql.tabs[id := t'.value];
    if d.kind.InsertOp? { d.m.row := d.m.row.WithPk(t.next); }
    rows' := rows[e := rows[e][d.m.home.1 := d.m.row]];
    ReadsStill(objects, store, rows, d.m);
    ok := true;
  }

  lemma ExecIs(t: Table, row: Row, kind: OpKind)
    ensures Exec(t, row, kind) ==
      match (if kind.InsertOp? then Insert(t, row) else Save(t, row))
      case None => None
      case Some(t') => Some((t', if kind.InsertOp? then row.WithPk(t.next) else row))
  {
    hide Insert, Save;
  }

  lemma HomeKind(d: DbOp, objects: set<Model>, store: Lists, rows: Store)
    requires Reads(objects, store, rows) && InStore(d, store)
    ensures d.m in objects && d.m.row.Kind() == d.m.home.0 && Queue.Held(OpOf(d), rows) && rows[d.m.home.0][d.m.home.1] == d.m.row
  {
    hide Row.Kind;
  }

  lemma ReadsButOne(objects: set<Model>, store: Lists, rows: Store, m: Model, e: Entity, i: nat)
    requires Reads(objects, store, rows) && e in store && i < |store[e]|
    ensures ReadsButAt(objects, store, rows, m, e, i)
  {
    hide Row.Kind;
    var other := store[e][i];
    assert ReadsAt(objects, store, rows, e, i);
  }

  lemma ReadsButHolds(objects: set<Model>, store: Lists, rows: Store, m: Model)
    requires Reads(objects, store, rows)
    ensures ReadsBut(objects, store, rows, m)
  {
    hide Reads, ReadsButAt;
    forall e, i | e in store && 0 <= i < |store[e]|
      ensures ReadsButAt(objects, store, rows, m, e, i)
    {
      ReadsButOne(objects, store, rows, m, e, i);
    }
  }

  /** Only m has changed. */
  lemma ReadsStill(objects: set<Model>, store: Lists, rows: Store, m: Model)
    requires Placed(store) && ObjectAt(store, m.home.0, m.home.1) == Some(m) && m in objects
    requires m.row.Kind() == m.home.0 && m.home.0 in rows && m.home.1 < |rows[m.home.0]|
    requires ReadsBut(objects, store, rows, m)
    ensures Reads(objects, store, rows[m.home.0 := rows[m.home.0][m.home.1 := m.row]])
  {
    ReadsWritten(objects, store, rows, m.home.0, m.home.1, m);
    assert objects + {m} == objects;
  }

  ghost predicate AllInStore(fns: seq<DbOp>, store: Lists) {
    forall i :: 0 <= i < |fns| ==> InStore(fns[i], store)
  }

  lemma InStoreHeld(fns: seq<DbOp>, objects: set<Model>, store: Lists, rows: Store)
    requires Reads(objects, store, rows) && AllInStore(fns, store)
    ensures AllHeld(Actual(fns), rows)
    ensures forall i :: 0 <= i < |fns| ==> fns[i].m in objects
  {
    hide Row.Kind;
    forall i | 0 <= i < |fns|
      ensures Queue.Held(Actual(fns)[i], rows) && fns[i].m in objects
    {
      HomeKind(fns[i], objects, store, rows);
    }
  }

  function Later(fault: Fault, n: nat): Fault {
    if fault.Some? then Some(if fault.value < n then 0 else fault.value - n) else None
  }

  /** One turn of the statement loop. */
  lemma AttemptNext(s: State, ops: seq<QueuedOp>, fault: Fault, i: nat)
    requires i < |ops| && AllHeld(ops[i..], s.store) && Later(fault, i) != Some(0)
    ensures Queue.Held(ops[i], s.store)
    ensures match Step(s, ops[i])
      case None => Attempt(s, ops[i..], Later(fault, i)) == (false, s)
      case Some(s') =>
        AllHeld(ops[i + 1..], s'.store) && Attempt(s, ops[i..], Later(fault, i)) == Attempt(s', ops[i + 1..], Later(fault, i + 1))
  {
    hide Step, Attempt, AllHeld, Queue.Held;
    AllHeldTail(ops, i, s.store);
    assert ops[i..] == [ops[i]] + ops[i + 1..];
    AttemptCons(s, ops[i], ops[i + 1..], Later(fault, i));
  }

  lemma AttemptCons(s: State, h: QueuedOp, tail: seq<QueuedOp>, fault: Fault)
    requires Queue.Held(h, s.store) && AllHeld(tail, s.store) && AllHeld([h] + tail, s.store) && fault != Some(0)
    ensures match Step(s, h)
      case None => Attempt(s, [h] + tail, fault) == (false, s)
      case Some(s') => AllHeld(tail, s'.store) && Attempt(s, [h] + tail, fault) == Attempt(s', tail, Later(fault, 1))
  {
    assert ([h] + tail)[0] == h && ([h] + tail)[1..] == tail;
    hide Step, AllHeld;
    var n := Step(s, h);
    if n.Some? { AllHeldShape(tail, s.store, n.value.store); }
  }

  lemma AllHeldTail(ops: seq<QueuedOp>, i: nat, store: Store)
    requires i < |ops| && AllHeld(ops[i..], store)
    ensures Queue.Held(ops[i], store) && AllHeld(ops[i + 1..], store)
  {
    var all, tail := ops[i..], ops[i + 1..];
    assert all[0] == ops[i] && tail == all[1..];
    AllHeldIn(tail, all, store);
  }

  /** Transaction: BEGIN, the closures in order, COMMIT; any failure rolls the tables back. */
  method Transaction(sql: Sql, fns: seq<DbOp>, fault: Fault, ghost objects: set<Model>, ghost store: Lists, ghost rows: Store)
    returns (ok: bool, ghost rows': Store)
    requires sql.Valid() && Placed(store) && Reads(objects, store, rows) && AllInStore(fns, store)
    modifies sql, objects
    ensures sql.Valid() && Reads(objects, store, rows') && SameShape(rows, rows')
    ensures AllHeld(Actual(fns), rows)
    ensures Tx(State(old(sql.tabs), rows), Actual(fns), fault) == (ok, State(sql.tabs, rows'))
  {
    hide Step, Reads, Placed, Attempt, AllHeld, ValidTable, InStore;
    InStoreHeld(fns, objects, store, rows);
    ghost var ops := Actual(fns);
    var before := sql.tabs;
    rows' := rows;
    var i := 0;
    assert ops[0..] == ops;
    while i < |fns| && Later(fault, i) != Some(0)
      invariant 0 <= i <= |fns| && sql.Valid() && Reads(objects, store, rows') && SameShape(rows, rows')
      invariant AllHeld(ops[i..], rows')
      invariant Attempt(State(before, rows), ops, fault) == Attempt(State(sql.tabs, rows'), ops[i..], Later(fault, i))
    {
      AttemptNext(State(sql.tabs, rows'), ops, fault, i);
      ok, rows' := RunOp(sql, fns[i], objects, store, rows');
      if !ok {
        sql.tabs := before;
        return false, rows';
      }
      i := i + 1;
    }
    AttemptEnd(State(sql.tabs, rows'), ops[i..], Later(fault, i));
    ok := fault.None?;
    if !ok { sql.tabs := before; }
  }

  lemma AttemptEnd(s: State, ops: seq<QueuedOp>, fault: Fault)
    requires AllHeld(ops, s.store) && (ops == [] || fault == Some(0))
    ensures Attempt(s, ops, fault) == (fault.None?, s)
  {
  }

  /** The transactions of Commit, for a queue that may name nil databases. */
  ghost function RunGroups(ops: seq<QueuedOp>, s: State, faults: seq<Fault>): (Outcome, State)
    requires AllHeld(ops, s.store)
  {
    GroupsHeldAny(ops, s.store);
    CommitGroups(s, Groups(ops), faults, 0)
  }

  /** One turn of the transaction loop. */
  lemma CommitNext(s: State, gs: seq<Group>, faults: seq<Fault>, i: nat)
    requires i < |gs| && GroupsHeld(gs[i..], s.store)
    ensures AllHeld(gs[i].ops, s.store)
    ensures var x := CommitGroups(s, gs[i..], faults, i);
      if gs[i].db == NIL then x == (NilDb(i), s)
      else
        var (ok, s') := Tx(s, gs[i].ops, FaultAt(faults, i));
        if ok then GroupsHeld(gs[i + 1..], s'.store) && x == CommitGroups(s', gs[i + 1..], faults, i + 1)
        else x == (TxFailed(i), s')
  {
    var all, tail := gs[i..], gs[i + 1..];
    assert all[0] == gs[i] && all[1..] == tail;
    var (ok, s') := Tx(s, gs[i].ops, FaultAt(faults, i));
    hide Tx, AllHeld;
    GroupsHeldShape(all, s.store, s'.store);
    assert forall j :: 0 <= j < |tail| ==> tail[j] == all[j + 1];
  }

  lemma LinkedInStore(dbOps: seq<DbOp>, ops: seq<QueuedOp>, store: Lists)
    requires Linked(dbOps, ops, store) && Placed(store)
    ensures AllInStore(dbOps, store)
    ensures forall i :: 0 <= i < |dbOps| ==> OpOf(dbOps[i]) == ops[i].(db := dbOps[i].db) && (dbOps[i].db == ops[i].db || dbOps[i].db == NIL)
  {
  }

  /** A group's closures are among the queued ones. */
  lemma GroupInStore(dbOps: seq<DbOp>, groups: seq<DbGroup>, i: nat, store: Lists)
    requires AllInStore(dbOps, store) && Placed(store) && Grouped(groups) == Groups(Actual(dbOps)) && i < |groups|
    requires GroupedFrom(dbOps, groups)
    ensures AllInStore(groups[i].fns, store)
  {
  }

  /** Every grouped closure was queued. */
  ghost predicate GroupedFrom(dbOps: seq<DbOp>, groups: seq<DbGroup>) {
    forall i, j :: 0 <= i < |groups| && 0 <= j < |groups[i].fns| ==> groups[i].fns[j] in dbOps
  }

  /** json.Marshal of every field: the values the structs have now. */
  method Marshal(store: Lists, ghost objects: set<Model>, ghost rows: Store) returns (fields: Store)
    requires Reads(objects, store, rows) && store.Keys == rows.Keys && forall e :: e in store ==> |store[e]| == |rows[e]|
    ensures fields == rows
  {
    hide Row.Kind;
    fields := map[];
    var left := store.Keys;
    while left != {}
      invariant left <= store.Keys && fields.Keys == store.Keys - left
      invariant forall e :: e in fields ==> fields[e] == rows[e]
      decreases |left|
    {
      var e: Entity :| e in left;
      var values: seq<Row> := [];
      var i := 0;
      while i < |store[e]|
        invariant 0 <= i == |values| <= |store[e]|
        invariant forall j :: 0 <= j < i ==> values[j] == rows[e][j]
      {
        values := values + [store[e][i].row];
        i := i + 1;
      }
      fields := fields[e := values];
      left := left - {e};
    }
  }

  /** Every write was queued for a database that exists. */
  predicate NoNil(dbOps: seq<DbOp>) {
    forall i :: 0 <= i < |dbOps| ==> dbOps[i].db != NIL
  }

  /** The user has an account row, and its shard is registered. */
  lemma AccountThere(c: Container, r: Req, trace: seq<Event>, u: nat, rt: Route)
    requires Follows(r, trace, u, rt, c.Backend(), c.shards.shardMap) && u != 0
    ensures exists k :: k in At(c.sql.tabs, rt.Id(Account)).rows && At(c.sql.tabs, rt.Id(Account)).rows[k].Owner() == u
    ensures rt.shard != NIL
  {
    hide Replay, Sound, Coherent, AccountOk, ValidTable;
    var t := At(c.sql.tabs, rt.Id(Account));
    assert ValidTable(t, Account) && u in t.rows;
    RowOwner(t, u);
  }

  lemma RowOwner(t: Table, u: nat)
    requires ValidTable(t, Account) && u in t.rows
    ensures t.rows[u].Owner() == u
  {
    assert t.rows[u].pk == u && t.rows[u].Kind() == Account;
  }

  lemma ShardThere(c: Container, r: Req, trace: seq<Event>, u: nat, rt: Route)
    requires c.Valid() && rt.game == c.game && Follows(r, trace, u, rt, c.Backend(), c.shards.shardMap)
    ensures rt.game != NIL && (u != 0 ==> rt.shard != NIL)
  {
    hide Follows;
    if u != 0 { AccountThere(c, r, trace, u, rt); }
  }

  // ------------------------------------------------------------------ accounts

  /** Where an account's row sends its user. */
  function RouteFor(game: DbId, shards: map<int, DbId>, account: Row): Route {
    Route(game, if account.AccountRow? then Resolve(shards, account.shardId) else NIL)
  }

  /** Every account is served by its registered shard, and nobody without an account has anything cached. */
  ghost predicate Open(b: Backend, game: DbId, shards: map<int, DbId>) {
    var id := TableId(game, Account);
    && id in b.tabs && game != NIL
    && (forall k :: k in b.tabs[id].rows ==> k != 0 && Serving(b, [], k, RouteFor(game, shards, b.tabs[id].rows[k]), shards))
    && (forall k :: k !in b.tabs[id].rows ==> k !in b.cache)
    && (forall s :: s in shards ==> shards[s] != NIL && ValidTables(b.tabs, Route(game, shards[s])))
  }

  ghost predicate NewAccount(r: Row, shards: map<int, DbId>) {
    r.AccountRow? && r.pk == 0 && r.shardId in shards
  }

  lemma OpenTable(b: Backend, game: DbId, shards: map<int, DbId>)
    requires Open(b, game, shards)
    ensures TableId(game, Account) in b.tabs && At(b.tabs, TableId(game, Account)) == b.tabs[TableId(game, Account)]
  {
    hide Serving, ValidTables;
  }

  lemma ReadsOne(m: Model)
    requires m.row.Kind() == Account
    ensures Reads({m}, map[Account := [m]], map[Account := [m.row]])
  {
    forall e, i | e in map[Account := [m]] && 0 <= i < |map[Account := [m]][e]|
      ensures ReadsAt({m}, map[Account := [m]], map[Account := [m.row]], e, i)
    {
    }
  }

  lemma SteadyOne(m: Model, r: Row)
    requires m.home == (Account, 0)
    ensures Steady(map[Account := [m]], map[Account := [r]], [], {}, [])
  {
  }

  /** No unique index stands in the way of a new account. */
  lemma AccountInserts(t: Table, r: Row)
    requires r.AccountRow?
    ensures Insert(t, r).Some?
  {
  }

  /** The tables with one account more, which is its own listing. */
  lemma NewRow(b: Backend, b': Backend, game: DbId, shards: map<int, DbId>, r: Row)
    requires Open(b, game, shards) && NewAccount(r, shards)
    requires var id := TableId(game, Account);
      ValidTable(b.tabs[id], Account) && Insert(b.tabs[id], r).Some? &&
      b' == b.(tabs := b.tabs[id := Insert(b.tabs[id], r).value])
    ensures var t, rt := b.tabs[TableId(game, Account)], RouteFor(game, shards, r);
      && t.next != 0 && t.next !in t.rows
      && ValidTables(b'.tabs, rt) && Rows.Lists([r.WithPk(t.next)], At(b'.tabs, rt.Id(Account)), t.next)
  {
    var t, rt := b.tabs[TableId(game, Account)], RouteFor(game, shards, r);
    var u, stored := t.next, r.WithPk(t.next);
    InsertValid(t, Account, r);
    assert ValidTables(b.tabs, rt);
    assert HasRow(Insert(t, r).value, u, u, stored);
    OneRowLists(Insert(t, r).value, u, u, stored);
    hide ValidTable, Rows.Lists;
    assert ValidTables(b'.tabs, rt);
  }

  /** A request whose one object is the account it has just inserted. */
  lemma FollowsNew(b: Backend, b': Backend, game: DbId, shards: map<int, DbId>, r: Row)
    requires Open(b, game, shards) && NewAccount(r, shards)
    requires var id := TableId(game, Account);
      ValidTable(b.tabs[id], Account) && Insert(b.tabs[id], r).Some? &&
      b' == b.(tabs := b.tabs[id := Insert(b.tabs[id], r).value])
    ensures b.tabs[TableId(game, Account)].next != 0
    ensures var t, rt := b.tabs[TableId(game, Account)], RouteFor(game, shards, r);
      var stored := r.WithPk(t.next);
      Follows(Req(map[Account := [stored]], map[Account := 1], []), [Load(Account, [stored])], t.next, rt, b', shards)
  {
    var t, rt := b.tabs[TableId(game, Account)], RouteFor(game, shards, r);
    var u, stored := t.next, r.WithPk(t.next);
    NewRow(b, b', game, shards, r);
    hide ValidTable, ValidTables, Rows.Lists;
    FirstLoad(stored, u, rt);
    assert Sound([Load(Account, [stored])][..0], b'.tabs, u, rt);
  }

  lemma FirstLoad(r: Row, u: nat, rt: Route)
    ensures [Load(Account, [r])][..0] == []
    ensures Replay([Load(Account, [r])], u, rt) == Req(map[Account := [r]], map[Account := 1], [])
  {
    assert [Load(Account, [r])][..0] == [];
  }

  datatype LoadError = NoError | NoUserId | NotLoaded | NilDatabase

  /** What a unit of work stands for: its objects, the request on values, and how it came about. */
  datatype Shadow = Shadow(objects: set<Model>, req: Req, trace: seq<Event>, rt: Route)

  class UnitOfWork {
    const c: Container
    var userId: nat
    var store: Lists
    var dbOps: seq<DbOp>
    var dirty: set<Model>
    /** The hashes when the unit of work was made. */
    ghost const hashes: map<nat, Store>
    ghost var now: Shadow

    /** Nobody else's hash has been touched. */
    ghost predicate CacheKept()
      reads this, c.users
    {
      c.users.hashes - {userId} == hashes - {userId}
    }

    /** All but the last announced write are in the queue. */
    ghost predicate Consistent()
      reads this, now.objects, c.shards, c.sql, c.users
    {
      && c.Valid() && now.rt.game == c.game && CacheKept()
      && Steady(store, now.req.store, dbOps, dirty, now.req.ops) && Reads(now.objects, store, now.req.store)
      && Follows(now.req, now.trace, userId, now.rt, c.Backend(), c.shards.shardMap)
    }

    /**
     * The objects, the queue and the dirty set are those of replaying the trace on values, and the
     * loads of the trace were answered with what the tables hold.
     */
    ghost predicate Valid()
      reads this, now.objects, c.shards, c.sql, c.users
    {
      Consistent() && |dbOps| == |now.req.ops|
    }

    constructor (c: Container, userId: nat, ghost rt: Route)
      requires c.Valid() && rt.game == c.game
      requires userId != 0 ==> Serving(c.Backend(), [], userId, rt, c.shards.shardMap)
      ensures Valid() && this.c == c && this.userId == userId && fresh(this)
      ensures store == map[] && dbOps == [] && dirty == {} && now == Shadow({}, EMPTY_REQ, [], rt) && hashes == c.users.hashes
    {
      this.c, this.userId, hashes := c, userId, c.users.hashes;
      store, dbOps, dirty, now := map[], [], {}, Shadow({}, EMPTY_REQ, [], rt);
    }

    /** Only entities have been loaded; every list that was there is the same list of the same objects. */
    twostate predicate OnlyLoaded()
      reads this
    {
      && dbOps == old(dbOps) && dirty == old(dirty) && userId == old(userId)
      && now.req.ops == old(now.req.ops) && now.rt == old(now.rt)
      && (forall e :: e in old(store) ==> e in store && store[e] == old(store[e]))
      && old(now.objects) <= now.objects && fresh(now.objects - old(now.objects))
      && OnlyLoads(old(now.trace), now.trace, userId, now.rt)
    }

    /** s.store[name] = dest, after decoding the answer into new structs. */
    method Keep(e: Entity, values: seq<Row>)
      requires Consistent() && e !in store && userId != 0
      requires Answers(c.Backend(), userId, now.rt, e, values) && forall i :: 0 <= i < |values| ==> values[i].Kind() == e
      modifies this
      ensures Consistent() && OnlyLoaded()
      ensures store.Keys == old(store).Keys + {e} && |store[e]| == |values|
    {
      hide Replay, Answers, Container.Valid, Accepted, CallsOf, Steady, Proj, Follows, Row.Kind, Serving, Container.Backend, OnlyLoads;
      var list, made := Decode(e, values);
      Known(store, now.req, dbOps, dirty, now.trace, userId, now.rt, c.Backend(), c.shards.shardMap);
      NotTouched(now.trace, userId, now.rt, e);
      SteadyMore(store, now.req.store, dbOps, dirty, now.req.ops, e, list, values);
      FollowsLoad(now.req, now.trace, userId, now.rt, c.Backend(), e, values, c.shards.shardMap);
      LoadCalls(now.trace, e, values, userId, now.rt);
      store := store[e := list];
      now := Shadow(now.objects + made, Req(now.req.store[e := values], now.req.base[e := |values|], now.req.ops), now.trace + [Load(e, values)], now.rt);
      forall f, i | f in store && 0 <= i < |store[f]|
        ensures ReadsAt(now.objects, store, now.req.store, f, i)
      {
        assert store[f][i] == if f == e then list[i] else old(store)[f][i];
        assert f != e ==> old(store[f][i].row) == old(now.req.store)[f][i];
      }
      assert c.Valid() && now.rt.game == c.game;
      assert Steady(store, now.req.store, dbOps, dirty, now.req.ops) && Reads(now.objects, store, now.req.store);
      assert Follows(now.req, now.trace, userId, now.rt, c.Backend(), c.shards.shardMap);
    }

    /** s.cache.Set(s.id, name, dest), whose error is dropped. */
    method Fill(e: Entity, values: seq<Row>, flaky: bool)
      requires Consistent() && userId != 0 && Rows.Lists(values, At(c.sql.tabs, now.rt.Id(e)), userId)
      modifies c.users
      ensures Consistent()
      ensures !flaky ==> userId in c.users.hashes && e in c.users.hashes[userId]
    {
      hide Rows.Lists, Steady, Follows, Container.Valid, Reads, Row.Kind, Backend.SetFields, At, Route.Id;
      FollowsFill(now.req, now.trace, userId, now.rt, c.Backend(), e, values, c.shards.shardMap);
      SetIsSetFields(c.Backend(), userId, map[e := values]);
      ghost var before := c.users.hashes;
      c.users.Set(userId, e, values, flaky);
      assert c.users.hashes - {userId} == before - {userId};
    }

    /** db.FindOne on the game database, then the store and the cache. */
    method FetchOne(e: Entity, flaky: bool) returns (ok: bool)
      requires Consistent() && e == Account && e !in store && userId != 0
      modifies this, c.users
      ensures Consistent() && OnlyLoaded()
      ensures store.Keys == if ok then old(store).Keys + {e} else old(store).Keys
      ensures !ok ==> store == old(store)
      ensures !flaky ==> ok && userId in c.users.hashes && e in c.users.hashes[userId]
    {
      hide Steady, Follows, Container.Valid, Reads, Row.Kind, Answers, Rows.Lists, Sql.Valid, ValidTable, Container.Backend;
      GameTable(c, now.rt, e);
      AccountThere(c, now.req, now.trace, userId, now.rt);
      var found := c.sql.FindOne(c.game, e, userId, flaky);
      if found.None? { return false; }
      RowAnswers(c, userId, now.rt, found.value);
      Keep(e, [found.value]);
      Fill(e, [found.value], flaky);
      return true;
    }

    /** LoadOne for the account: the store, then the cache, then the game database. */
    method LoadOne(e: Entity, flaky: bool) returns (err: LoadError, m: Model?)
      requires Consistent() && e == Account
      modifies this, c.users
      ensures Consistent() && OnlyLoaded() && store.Keys <= old(store).Keys + {Account}
      ensures err == NoError <==> m != null
      ensures !flaky && userId != 0 ==> err == NoError
      ensures m != null ==> Account in store && store[Account] == [m]
      ensures m == null ==> store == old(store) && Account !in old(store)
      ensures !flaky && m != null && e !in old(store) ==> userId in c.users.hashes && e in c.users.hashes[userId]
    {
      hide Steady, Follows, Container.Valid, Reads, Row.Kind, Answers, Container.Backend;
      if e !in store {
        if userId == 0 { return NoUserId, null; }
        var hit := c.users.Get(userId, e, flaky);
        if hit.Some? && |hit.value| == 1 {
          CacheAnswers(c, userId, now.rt, e, hit.value);
          Keep(e, hit.value);
        } else {
          var ok := FetchOne(e, flaky);
          if !ok { return NotLoaded, null; }
        }
      }
      KnownAccount(store, now.req, dbOps, dirty, now.trace, userId, now.rt, c.Backend(), c.shards.shardMap);
      return NoError, store[e][0];
    }

    /** The database of the account's shard; NIL when the account does not load or its shard is not registered. */
    method ShardDb(flaky: bool) returns (db: DbId)
      requires Consistent()
      modifies this, c.users
      ensures Consistent() && OnlyLoaded() && store.Keys <= old(store).Keys + {Account}
      ensures db == NIL || db == now.rt.shard
      ensures userId != 0 ==> now.rt.shard != NIL && now.rt.game != NIL && (!flaky || Account in old(store) ==> db == now.rt.shard)
    {
      hide Steady, Follows, Container.Valid, Row.Kind, Container.Backend;
      ShardThere(c, now.req, now.trace, userId, now.rt);
      var err, account := LoadOne(Account, flaky);
      if account == null { return NIL; }
      KnownAccount(store, now.req, dbOps, dirty, now.trace, userId, now.rt, c.Backend(), c.shards.shardMap);
      assert store[Account][0].row == now.req.store[Account][0];
      db := c.shards.GetShard(account.row.shardId);
    }

    /** db.FindList on the shard, then the store and the cache. */
    method FetchList(e: Entity, flaky: bool) returns (err: LoadError)
      requires Consistent() && e != Account && e !in store && userId != 0
      modifies this, c.users
      ensures Consistent() && OnlyLoaded() && store.Keys <= old(store).Keys + {Account, e}
      ensures err == NoError <==> e in store
      ensures !flaky ==> err == NoError && userId in c.users.hashes && e in c.users.hashes[userId]
      ensures err == NilDatabase ==> Account !in old(store)
    {
      hide Steady, Follows, Container.Valid, Reads, Row.Kind, Answers, Rows.Lists, Sql.Valid, ValidTable, Container.Backend, CacheKept, At;
      var db := ShardDb(flaky);
      if db == NIL { return NilDatabase; }
      GameTable(c, now.rt, e);
      var found := c.sql.FindList(db, e, userId, flaky);
      if found.None? { return NotLoaded; }
      assert Answers(c.Backend(), userId, now.rt, e, found.value) by { ListAnswers(c, userId, now.rt, e, found.value); }
      Keep(e, found.value);
      Fill(e, found.value, flaky);
      return NoError;
    }

    /** LoadList: the store, then the cache, then the shard database. */
    method LoadList(e: Entity, flaky: bool) returns (err: LoadError, list: seq<Model>)
      requires Consistent() && e != Account
      modifies this, c.users
      ensures Consistent() && OnlyLoaded() && store.Keys <= old(store).Keys + {Account, e}
      ensures err == NoError <==> e in store
      ensures !flaky && userId != 0 ==> err == NoError
      ensures err == NilDatabase ==> Account !in old(store)
      ensures list == if err == NoError then store[e] else []
      // While Redis answers, what has been loaded is in the cache.
      ensures !flaky && err == NoError && e !in old(store) ==> userId in c.users.hashes && e in c.users.hashes[userId]
    {
      hide Steady, Follows, Container.Valid, Reads, Row.Kind, Answers, Container.Backend;
      if e !in store {
        if userId == 0 { return NoUserId, []; }
        var hit := c.users.Get(userId, e, flaky);
        if hit.Some? {
          CacheAnswers(c, userId, now.rt, e, hit.value);
          Keep(e, hit.value);
        } else {
          err := FetchList(e, flaky);
          if err != NoError { return err, []; }
        }
      }
      return NoError, store[e];
    }

    /** The struct `m` already reads what `call` makes of it; the write is neither announced nor queued. */
    ghost predicate Announceable(m: Model, call: Call, kind: OpKind)
      reads this, now.objects, m, c.shards, c.sql, c.users
    {
      var e, r := call.Kind(), now.req;
      && c.Valid() && now.rt.game == c.game && |dbOps| == |r.ops| && CacheKept()
      && e in r.store && ObjectAt(store, e, m.home.1) == Some(m) && m.home.0 == e
      && OnList(r.store[e], call, userId).1 == Some(RowOp(kind, m.home.1))
      && Steady(store, Apply(r, userId, now.rt, Make(call)).store, dbOps, dirty, r.ops)
      && Reads(now.objects + {m}, store, Apply(r, userId, now.rt, Make(call)).store)
      && Follows(r, now.trace, userId, now.rt, c.Backend(), c.shards.shardMap)
    }

    /** Valid, whatever m reads: a service may now change m. */
    ghost predicate Writable(m: Model)
      reads this, now.objects - {m}, c.shards, c.sql, c.users
    {
      && c.Valid() && now.rt.game == c.game && |dbOps| == |now.req.ops| && CacheKept()
      && Steady(store, now.req.store, dbOps, dirty, now.req.ops) && ReadsBut(now.objects, store, now.req.store, m)
      && Follows(now.req, now.trace, userId, now.rt, c.Backend(), c.shards.shardMap)
    }

    lemma CanWrite(m: Model)
      requires Valid()
      ensures Writable(m)
    {
      hide Steady, Follows, Container.Valid, Row.Kind, Reads, ReadsBut;
      ReadsButHolds(now.objects, store, now.req.store, m);
    }

    /** After the change the write can be announced. */
    lemma Written(m: Model, call: Call)
      requires Writable(m) && call.Kind() in store
      requires var e, rows := call.Kind(), now.req.store;
        && e in rows && var p := Calls.Find(rows[e], call);
        && p < |rows[e]| && ObjectAt(store, e, p) == Some(m) && call.Change(rows[e][p]) == Some(m.row)
      ensures Announceable(m, call, UpdateOp)
    {
      var e := call.Kind();
      var p := Calls.Find(now.req.store[e], call);
      hide Steady, Follows, Container.Valid, Calls.Find, Call.Kind, Call.Change, Row.Kind, Call.Hits, ReadsBut, Reads, Placed;
      SteadyPlaces(store, now.req.store, dbOps, dirty, now.req.ops);
      ChangeKind(call, now.req.store[e][p]);
      ReadsWritten(now.objects, store, now.req.store, e, p, m);
      SteadyValues(store, now.req.store, Apply(now.req, userId, now.rt, Make(call)).store, dbOps, dirty, now.req.ops);
    }

    /** The request has made one more call, and the call was accepted. */
    twostate predicate Served(call: Call)
      reads this
    {
      && userId == old(userId) && now.rt == old(now.rt)
      && CallsOf(now.trace) == old(CallsOf(now.trace)) + [call]
      && Accepted(now.trace, userId, now.rt) == old(Accepted(now.trace, userId, now.rt)) + [call]
    }

    /** markDirty: only registered model types are tracked. */
    method Mark(m: Model)
      modifies `dirty
      ensures dirty == if Synced(m.row.Kind()) then old(dirty) + {m} else old(dirty)
    {
      if Synced(m.row.Kind()) { dirty := dirty + {m}; }
    }

    /** markDirty, and with it the write is announced. */
    method MarkDirty(m: Model, ghost call: Call, ghost kind: OpKind)
      requires Announceable(m, call, kind)
      modifies this
      ensures Consistent() && Served(call) && userId != 0
      ensures store == old(store) && dbOps == old(dbOps) && now.objects == old(now.objects) + {m}
      ensures var e := call.Kind(); now.req.ops == old(now.req.ops) + [QueuedOp(now.rt.Db(e), e, RowOp(kind, m.home.1))]
    {
      hide Steady, Follows, OnList, Accepted, CallsOf, Replay, Container.Valid, Container.Backend, Call.Kind;
      ghost var e := call.Kind();
      ghost var q := QueuedOp(now.rt.Db(e), e, RowOp(kind, m.home.1));
      ghost var r' := Apply(now.req, userId, now.rt, Make(call));
      SteadyAnnounce(store, r'.store, dbOps, dirty, now.req.ops, e, m.home.1, q);
      FollowsMake(now.req, now.trace, userId, now.rt, c.Backend(), call, c.shards.shardMap);
      assert m.row.Kind() == e;
      Mark(m);
      now := Shadow(now.objects + {m}, r', now.trace + [Make(call)], now.rt);
    }

    /** queueOp on the database the entity is routed to, as far as that is known. */
    method QueueOp(e: Entity, m: Model, kind: OpKind, flaky: bool)
      requires Consistent() && |now.req.ops| == |dbOps| + 1
      requires Stands(DbOp(now.rt.Db(e), m, kind), now.req.ops[|dbOps|], store)
      modifies this, c.users
      ensures Valid() && userId == old(userId) && now.rt == old(now.rt) && now.req.ops == old(now.req.ops)
      ensures forall f :: f in old(store) ==> f in store && store[f] == old(store[f])
      ensures old(now.objects) <= now.objects && fresh(now.objects - old(now.objects))
      ensures OnlyLoads(old(now.trace), now.trace, userId, now.rt)
      ensures (!flaky || e == Account || Account in old(store)) && userId != 0 && NoNil(old(dbOps)) ==> NoNil(dbOps)
    {
      hide Steady, Follows, Container.Valid, Reads, Container.Backend, OnlyLoads, Accepted, CallsOf;
      ShardThere(c, now.req, now.trace, userId, now.rt);
      var db := c.game;
      if e == Account { SameTrace(now.trace, userId, now.rt); } else { db := ShardDb(flaky); }
      SteadyQueue(store, now.req.store, dbOps, dirty, now.req.ops, DbOp(db, m, kind));
      dbOps := dbOps + [DbOp(db, m, kind)];
    }

    /** Update, of a struct that has been changed in place. */
    method Update(e: Entity, m: Model, flaky: bool, ghost call: Call)
      requires e == call.Kind() && Announceable(m, call, UpdateOp)
      modifies this, c.users
      ensures Valid() && Served(call)
      ensures forall f :: f in old(store) ==> f in store && store[f] == old(store[f])
      ensures old(now.objects) + {m} <= now.objects && fresh(now.objects - old(now.objects) - {m})
      ensures (!flaky || e == Account || Account in old(store)) && NoNil(old(dbOps)) ==> NoNil(dbOps)
    {
      hide Steady, Follows, Container.Valid, Reads, Accepted, CallsOf, OnList, Apply, Container.Backend;
      MarkDirty(m, call, UpdateOp);
      QueueOp(e, m, UpdateOp, flaky);
    }

    /** storeModel: a single struct or one more element of the list, which is begun if it is not there. */
    method StoreModel(e: Entity, m: Model)
      modifies `store
      ensures store == old(store)[e := if e != Account && e in old(store) then old(store)[e] + [m] else [m]]
    {
      if e == Account {
        store := store[e := [m]];
      } else if e in store {
        store := store[e := store[e] + [m]];
      } else {
        store := store[e := [m]];
      }
    }

    /** Create, of a new struct of an entity that is loaded. */
    method Create(e: Entity, m: Model, flaky: bool, ghost call: Call)
      requires Valid() && e == call.Kind() && e != Account && e in store
      requires m !in now.objects && m.home == (e, |store[e]|) && m.row.Kind() == e
      requires e in now.req.store && OnList(now.req.store[e], call, userId) == (now.req.store[e] + [m.row], Some(RowOp(InsertOp, |store[e]|)))
      modifies this, c.users
      ensures Valid() && Served(call)
      ensures e in store && store[e] == old(store[e]) + [m]
      ensures forall f :: f in old(store) && f != e ==> f in store && store[f] == old(store[f])
      ensures old(now.objects) + {m} <= now.objects && fresh(now.objects - old(now.objects) - {m})
      ensures (!flaky || Account in old(store)) && NoNil(old(dbOps)) ==> NoNil(dbOps)
    {
      hide Steady, Follows, Reads, Container.Valid, Accepted, CallsOf, OnList, Container.Backend, Row.Kind, Call.Kind, Replay, Apply, Stands;
      MakeStore(now.req, userId, now.rt, call);
      Known(store, now.req, dbOps, dirty, now.trace, userId, now.rt, c.Backend(), c.shards.shardMap);
      SteadyCreate(store, now.req, now.trace, userId, now.rt, dbOps, dirty, e, m, m.row);
      ReadsAppend(now.objects, store, now.req.store, e, m);
      StoreModel(e, m);
      MarkDirty(m, call, InsertOp);
      StandsFor(store, now.rt.Db(e), e, m, InsertOp);
      QueueOp(e, m, InsertOp, flaky);
    }

    /** CreateNow of an account: inserted at once, and its key becomes the user of the unit of work. */
    method CreateNow(e: Entity, m: Model, flaky: bool) returns (ok: bool)
      requires c.Valid() && now.trace == [] && store == map[] && dbOps == [] && dirty == {}
      requires Open(c.Backend(), c.game, c.shards.shardMap) && c.users.hashes == hashes
      requires e == Account && NewAccount(m.row, c.shards.shardMap) && m.home == (Account, 0)
      modifies this, m, c.sql
      ensures c.sql.Valid() && (!flaky ==> ok)
      ensures !ok ==> userId == old(userId) && store == old(store) && dbOps == old(dbOps)
      ensures c.sql.tabs == old(c.sql.tabs) || AddedRow(old(c.sql.tabs), TableId(c.game, Account), old(m.row), c.sql.tabs)
      ensures ok ==>
        && AddedRow(old(c.sql.tabs), TableId(c.game, Account), old(m.row), c.sql.tabs)
        && Valid() && userId == old(At(c.sql.tabs, TableId(c.game, Account))).next != 0 && dbOps == []
        && m.row == old(m.row).WithPk(userId)
        && store == map[Account := [m]] && now.objects == {m} && now.trace == [Load(Account, [m.row])]
        && now.rt == RouteFor(c.game, c.shards.shardMap, old(m.row))
    {
      hide Open, ValidTable, Insert, Follows, Placed, Linked, DirtyIs;
      OpenTable(c.Backend(), c.game, c.shards.shardMap);
      ghost var t := c.sql.tabs[TableId(c.game, Account)];
      ghost var b, r := c.Backend(), m.row;
      AccountInserts(t, m.row);
      var id := c.sql.Create(c.game, m.row, flaky);
      if id.None? { return false; }
      FollowsNew(b, c.Backend(), c.game, c.shards.shardMap, r);
      m.row := m.row.WithPk(id.value);
      StoreModel(Account, m);
      Mark(m);
      userId := id.value;
      now := Shadow({m}, Req(map[Account := [m.row]], map[Account := 1], []), [Load(Account, [m.row])], RouteFor(c.game, c.shards.shardMap, r));
      SteadyOne(m, m.row);
      ReadsOne(m);
      return true;
    }

    /** SetUserID, while nothing is loaded. */
    method SetUserId(id: nat, ghost rt: Route)
      requires Valid() && now.trace == [] && rt.game == c.game && c.users.hashes == hashes
      requires id != 0 ==> Serving(c.Backend(), [], id, rt, c.shards.shardMap)
      modifies this
      ensures Valid() && userId == id && store == map[] && dbOps == [] && dirty == old(dirty)
      ensures now == Shadow(old(now.objects), EMPTY_REQ, [], rt)
    {
      hide Container.Valid, Serving;
      userId := id;
      now := now.(rt := rt);
    }

    /** A refused call leaves everything as it is. */
    ghost method Refuse(call: Call)
      requires Valid() && call.Kind() in now.req.store && OnList(now.req.store[call.Kind()], call, userId) == (now.req.store[call.Kind()], None)
      modifies `now
      ensures Valid() && now.objects == old(now.objects) && now.rt == old(now.rt) && now.req == old(now.req)
      ensures CallsOf(now.trace) == old(CallsOf(now.trace)) + [call]
      ensures Accepted(now.trace, userId, now.rt) == old(Accepted(now.trace, userId, now.rt))
    {
      hide Steady, Container.Valid, Reads, OnList, Container.Backend, Follows, Call.Kind, Accepted, CallsOf;
      FollowsMake(now.req, now.trace, userId, now.rt, c.Backend(), call, c.shards.shardMap);
      assert now.req.store[call.Kind() := now.req.store[call.Kind()]] == now.req.store;
      now := now.(trace := now.trace + [Make(call)]);
    }

    /** The transactions of Commit: grouped by database, one after the other. */
    method RunQueue(faults: seq<Fault>) returns (o: Outcome)
      requires Valid()
      modifies now.objects, c.sql, `now
      ensures c.Valid() && Reads(now.objects, store, now.req.store)
      ensures AllHeld(Actual(dbOps), old(now.req.store)) && SameShape(old(now.req.store), now.req.store)
      ensures now == old(now).(req := old(now.req).(store := now.req.store))
      ensures RunGroups(Actual(dbOps), State(old(c.sql.tabs), old(now.req.store)), faults) == (o, State(c.sql.tabs, now.req.store))
    {
      hide Reads, Placed, Linked, DirtyIs, Follows, Groups, Tx, Step, AllHeld, GroupsHeld, CommitGroups, Sql.Valid, AllInStore, GroupedFrom;
      var groups := GroupByDb(dbOps);
      ghost var gs := Grouped(groups);
      ghost var start := State(c.sql.tabs, now.req.store);
      LinkedInStore(dbOps, now.req.ops, store);
      InStoreHeld(dbOps, now.objects, store, now.req.store);
      GroupsHeldAny(Actual(dbOps), now.req.store);
      var i := 0;
      assert gs[0..] == gs;
      while i < |groups|
        invariant 0 <= i <= |groups| && c.sql.Valid()
        invariant Reads(now.objects, store, now.req.store) && SameShape(start.store, now.req.store)
        invariant now == old(now).(req := old(now.req).(store := now.req.store))
        invariant GroupsHeld(gs[i..], now.req.store) && GroupsHeld(gs, start.store)
        invariant CommitGroups(start, gs, faults, 0) == CommitGroups(State(c.sql.tabs, now.req.store), gs[i..], faults, i)
      {
        CommitNext(State(c.sql.tabs, now.req.store), gs, faults, i);
        if groups[i].db == NIL { return NilDb(i); }
        GroupInStore(dbOps, groups, i, store);
        ghost var rows;
        var ok: bool;
        ok, rows := Transaction(c.sql, groups[i].fns, FaultAt(faults, i), now.objects, store, now.req.store);
        now := now.(req := now.req.(store := rows));
        if !ok { return TxFailed(i); }
        i := i + 1;
      }
      assert gs[i..] == [];
      NoGroups(State(c.sql.tabs, now.req.store), faults, i);
      return AllCommitted;
    }

    /** Commit: the transactions, then the whole store into the user's hash. */
    method Commit(faults: seq<Fault>, reply: CacheReply) returns (res: Coherence.Commit)
      requires Valid()
      modifies this, now.objects, c.sql, c.users
      ensures c.Valid() && userId == old(userId) && store == old(store) && dirty == old(dirty)
      ensures now == old(now).(req := old(now.req).(store := now.req.store))
      ensures Reads(now.objects, store, now.req.store) && SameShape(old(now.req.store), now.req.store)
      ensures AllHeld(old(Actual(dbOps)), old(now.req.store))
      ensures var x := RunGroups(old(Actual(dbOps)), State(old(c.sql.tabs), old(now.req.store)), faults);
        && x.1.store == now.req.store
        && CachePhase(x.0, x.1, old(c.Backend()), userId, reply) == (res, c.Backend())
      ensures dbOps == if res.Committed? || res.CacheFailed? then [] else old(dbOps)
    {
      hide Reads, Steady, Follows, RunGroups, AllHeld, Sql.Valid, Actual, Backend.SetFields;
      SteadyLengths(store, now.req.store, dbOps, dirty, now.req.ops);
      if |dbOps| > 0 {
        var outcome := RunQueue(faults);
        if outcome.TxFailed? { return Aborted(outcome); }
        if outcome.NilDb? { return Panicked(outcome); }
        dbOps := [];
      } else {
        NothingQueued(dbOps, State(c.sql.tabs, now.req.store), faults);
      }
      res := WriteBack(reply);
    }

    /** The cache half of Commit. */
    method WriteBack(reply: CacheReply) returns (res: Coherence.Commit)
      requires Reads(now.objects, store, now.req.store)
      requires store.Keys == now.req.store.Keys && forall e :: e in store ==> |store[e]| == |now.req.store[e]|
      modifies c.users
      ensures CachePhase(AllCommitted, State(c.sql.tabs, now.req.store), old(c.Backend()), userId, reply) == (res, c.Backend())
      ensures res.Committed? || res.CacheFailed?
    {
      hide Reads, Backend.SetFields;
      if userId != 0 && |store| > 0 {
        var fields := Marshal(store, now.objects, now.req.store);
        SetIsSetFields(c.Backend(), userId, fields);
        var ok := c.users.SetMulti(userId, fields, reply);
        if !ok { return CacheFailed; }
      }
      return Committed;
    }
  }

  lemma NothingQueued(dbOps: seq<DbOp>, s: State, faults: seq<Fault>)
    requires dbOps == []
    ensures AllHeld(Actual(dbOps), s.store) && RunGroups(Actual(dbOps), s, faults) == (AllCommitted, s)
  {
    assert Actual(dbOps) == [];
  }

  lemma NoGroups(s: State, faults: seq<Fault>, i: nat)
    ensures CommitGroups(s, [], faults, i) == (AllCommitted, s)
  {
  }
}

// One request as a trace of loads and service calls: the store and the queue it builds up, and why
// committing the queue means the same as making the calls on the tables at once.
module Request {
  import opened Rows
  import opened TableRun
  import opened Calls
  import opened Queue

  /** Where a user's entities live: the account in the game database, the rest in the account's shard. */
  datatype Route = Route(game: DbId, shard: DbId) {
    function Db(e: Entity): DbId {
      if e.Account? then game else shard
    }
    function Id(e: Entity): TableId {
      TableId(Db(e), e)
    }
  }

  /** `Load`: the entity was read (from cache or table) as `rows`. `Make`: a service made a call. */
  datatype Event = Load(entity: Entity, rows: seq<Row>) | Make(call: Call)

  /** The request's objects, how many of each list were loaded rather than created, and its queue. */
  datatype Req = Req(store: Store, base: map<Entity, nat>, ops: seq<QueuedOp>)

  const EMPTY_REQ := Req(map[], map[], [])

  function Apply(r: Req, u: nat, rt: Route, ev: Event): Req {
    match ev
    case Load(e, rows) =>
      if e in r.store then r else r.(store := r.store[e := rows], base := r.base[e := |rows|])
    case Make(call) =>
      var e := call.Kind();
      if e !in r.store then r
      else
        var (rows, op) := OnList(r.store[e], call, u);
        r.(store := r.store[e := rows], ops := Enqueue(r.ops, rt.Db(e), e, op))
  }

  function Enqueue(ops: seq<QueuedOp>, db: DbId, e: Entity, op: Option<RowOp>): seq<QueuedOp> {
    if op.Some? then ops + [QueuedOp(db, e, op.value)] else ops
  }

  function Replay(trace: seq<Event>, u: nat, rt: Route): Req {
    if trace == [] then EMPTY_REQ
    else Apply(Replay(trace[..|trace| - 1], u, rt), u, rt, trace[|trace| - 1])
  }

  function CallsOf(trace: seq<Event>): seq<Call> {
    if trace == [] then []
    else
      var ev := trace[|trace| - 1];
      CallsOf(trace[..|trace| - 1]) + if ev.Make? then [ev.call] else []
  }

  /** The same call made on the tables at once. */
  ghost function OnTables(tabs: Tables, call: Call, u: nat, rt: Route): Tables {
    var id := rt.Id(call.Kind());
    tabs[id := OnTable(At(tabs, id), call, u)]
  }

  ghost function Direct(tabs: Tables, calls: seq<Call>, u: nat, rt: Route): Tables {
    if calls == [] then tabs
    else OnTables(Direct(tabs, calls[..|calls| - 1], u, rt), calls[|calls| - 1], u, rt)
  }

  /** Services load a list before they call on it, and a load answers with the user's rows. */
  ghost predicate Sound(trace: seq<Event>, tabs: Tables, u: nat, rt: Route) {
    trace != [] ==>
      var front, ev := trace[..|trace| - 1], trace[|trace| - 1];
      && Sound(front, tabs, u, rt)
      && match ev
         case Load(e, rows) => e in Replay(front, u, rt).store || Lists(rows, At(tabs, rt.Id(e)), u)
         case Make(call) => call.Kind() in Replay(front, u, rt).store
  }

  ghost predicate ValidTables(tabs: Tables, rt: Route) {
    forall e: Entity :: rt.Id(e) in tabs && ValidTable(tabs[rt.Id(e)], e)
  }

  /** The part of the queue that is about entity e. */
  function Proj(ops: seq<QueuedOp>, e: Entity): seq<RowOp> {
    if ops == [] then []
    else
      var q := ops[|ops| - 1];
      Proj(ops[..|ops| - 1], e) + if q.entity == e then [q.op] else []
  }

  predicate Routed(ops: seq<QueuedOp>, rt: Route) {
    forall i :: 0 <= i < |ops| ==> ops[i].db == rt.Db(ops[i].entity)
  }

  ghost predicate PendingAt(r: Req, tabs: Tables, u: nat, rt: Route, e: Entity)
    requires e in r.store && e in r.base
  {
    Pending(At(tabs, rt.Id(e)), e, u, r.store[e], r.base[e], Proj(r.ops, e))
  }

  predicate Bookkept(r: Req, rt: Route) {
    r.base.Keys == r.store.Keys && Routed(r.ops, rt) && forall i :: 0 <= i < |r.ops| ==> r.ops[i].entity in r.store
  }

  lemma ApplyBookkept(r: Req, u: nat, rt: Route, ev: Event)
    requires Bookkept(r, rt)
    ensures var r' := Apply(r, u, rt, ev);
      Bookkept(r', rt) && r'.store.Keys == r.store.Keys + if ev.Load? then {ev.entity} else {}
  {
    hide OnList, Call.Kind;
  }

  /** The request stands, entity by entity, for pending writes on the user's tables. */
  ghost predicate Tracks(r: Req, tabs: Tables, u: nat, rt: Route) {
    && Bookkept(r, rt)
    && (forall e :: e in r.store ==> PendingAt(r, tabs, u, rt, e))
  }

  ghost predicate BaseOk(r: Req) {
    r.base.Keys == r.store.Keys && forall e :: e in r.store ==> r.base[e] <= |r.store[e]|
  }

  /** The table `id` as the request would have it. */
  ghost function TargetAt(r: Req, tabs: Tables, rt: Route, id: TableId): Table
    requires BaseOk(r) && id in tabs
  {
    var e := id.entity;
    if e in r.store && id == rt.Id(e) then Target(tabs[id], r.store[e], r.base[e]) else tabs[id]
  }

  /** The tables the request stands for. */
  ghost function TargetTables(r: Req, tabs: Tables, rt: Route): Tables
    requires BaseOk(r)
  {
    map id | id in tabs :: TargetAt(r, tabs, rt, id)
  }

  lemma {:induction false} ListsPending(rows: seq<Row>, t: Table, e: Entity, u: nat)
    requires ValidTable(t, e) && Lists(rows, t, u)
    ensures Pending(t, e, u, rows, |rows|, [])
    ensures Target(t, rows, |rows|) == t
  {
    ListsPointwise(rows, t, u, e);
    assert forall i :: 0 <= i < |rows| ==> rows[i].SameIdentity(t.rows[rows[i].pk]);
    forall i, j | 0 <= i < j < |rows| && rows[i].IndexKey().Some?
      ensures rows[i].IndexKey() != rows[j].IndexKey()
    {
      assert !Clash(t.rows[rows[i].pk], t.rows[rows[j].pk]);
    }
    assert Assigned(rows, |rows|, t.next) == rows;
    assert t.rows + UserRows(t, u) == t.rows;
  }

  lemma ProjSnoc(ops: seq<QueuedOp>, db: DbId, e: Entity, op: Option<RowOp>, f: Entity)
    ensures Proj(Enqueue(ops, db, e, op), f) == if f == e then Calls.Queued(Proj(ops, f), op) else Proj(ops, f)
  {
    if op.Some? {
      var ops' := Enqueue(ops, db, e, op);
      assert ops'[..|ops'| - 1] == ops;
    }
  }

  lemma TracksLoad(r: Req, tabs: Tables, u: nat, rt: Route, e: Entity, rows: seq<Row>)
    requires Tracks(r, tabs, u, rt) && ValidTables(tabs, rt)
    requires e !in r.store && Lists(rows, At(tabs, rt.Id(e)), u)
    ensures Tracks(Apply(r, u, rt, Load(e, rows)), tabs, u, rt)
  {
    var r' := Apply(r, u, rt, Load(e, rows));
    ProjNone(r.ops, e);
    assert r.base.Keys == r.store.Keys;
    hide Lists, Target, ValidTable, Pending, Proj, Bookkept;
    ApplyBookkept(r, u, rt, Load(e, rows));
    ListsPending(rows, At(tabs, rt.Id(e)), e, u);
    assert PendingAt(r', tabs, u, rt, e);
    forall f | f in r'.store && f != e
      ensures PendingAt(r', tabs, u, rt, f)
    {
      assert PendingAt(r, tabs, u, rt, f);
    }
  }

  lemma TargetLoadAt(r: Req, tabs: Tables, u: nat, rt: Route, e: Entity, rows: seq<Row>, id: TableId)
    requires BaseOk(r) && ValidTables(tabs, rt) && id in tabs
    requires e !in r.store && Lists(rows, At(tabs, rt.Id(e)), u)
    ensures var r' := Apply(r, u, rt, Load(e, rows));
      BaseOk(r') && TargetAt(r', tabs, rt, id) == TargetAt(r, tabs, rt, id)
  {
    hide Lists, Target, ValidTable, ValidTables, Pending;
    if id == rt.Id(e) {
      ValidAt(tabs, rt, e);
      ListsPending(rows, tabs[id], e, u);
    }
  }

  lemma ValidAt(tabs: Tables, rt: Route, e: Entity)
    requires ValidTables(tabs, rt)
    ensures rt.Id(e) in tabs && ValidTable(tabs[rt.Id(e)], e)
  {
    hide ValidTable;
  }

  lemma TargetLoad(r: Req, tabs: Tables, u: nat, rt: Route, e: Entity, rows: seq<Row>)
    requires BaseOk(r) && ValidTables(tabs, rt)
    requires e !in r.store && Lists(rows, At(tabs, rt.Id(e)), u)
    ensures var r' := Apply(r, u, rt, Load(e, rows));
      BaseOk(r') && TargetTables(r', tabs, rt) == TargetTables(r, tabs, rt)
  {
    hide Lists, TargetAt, ValidTables;
    var r' := Apply(r, u, rt, Load(e, rows));
    forall id | id in tabs
      ensures TargetAt(r', tabs, rt, id) == TargetAt(r, tabs, rt, id)
    {
      TargetLoadAt(r, tabs, u, rt, e, rows, id);
    }
  }

  lemma {:induction false} ProjNone(ops: seq<QueuedOp>, e: Entity)
    requires forall i :: 0 <= i < |ops| ==> ops[i].entity != e
    ensures Proj(ops, e) == []
  {
    if ops != [] { ProjNone(ops[..|ops| - 1], e); }
  }

  lemma CallPendingAt(r: Req, tabs: Tables, u: nat, rt: Route, call: Call, f: Entity)
    requires Tracks(r, tabs, u, rt) && call.Kind() in r.store && f in r.store
    ensures var r' := Apply(r, u, rt, Make(call)); f in r'.store && f in r'.base && PendingAt(r', tabs, u, rt, f)
  {
    hide Tracks, Pending, OnList, Proj, Calls.Queued, Call.Kind, At, Enqueue;
    var e := call.Kind();
    TracksAt(r, tabs, u, rt, e);
    TracksAt(r, tabs, u, rt, f);
    PendingCall(At(tabs, rt.Id(e)), e, u, r.store[e], r.base[e], Proj(r.ops, e), call);
    ProjSnoc(r.ops, rt.Db(e), e, OnList(r.store[e], call, u).1, f);
  }

  lemma TracksAt(r: Req, tabs: Tables, u: nat, rt: Route, e: Entity)
    requires Tracks(r, tabs, u, rt) && e in r.store
    ensures e in r.base && PendingAt(r, tabs, u, rt, e)
  {
    hide PendingAt;
  }

  lemma TracksCall(r: Req, tabs: Tables, u: nat, rt: Route, call: Call)
    requires Tracks(r, tabs, u, rt) && call.Kind() in r.store
    ensures Tracks(Apply(r, u, rt, Make(call)), tabs, u, rt)
  {
    hide Bookkept, Apply, PendingAt, Call.Kind;
    var r' := Apply(r, u, rt, Make(call));
    ApplyBookkept(r, u, rt, Make(call));
    forall f | f in r'.store
      ensures f in r'.base && PendingAt(r', tabs, u, rt, f)
    {
      CallPendingAt(r, tabs, u, rt, call, f);
    }
  }

  lemma CallTarget(r: Req, tabs: Tables, u: nat, rt: Route, call: Call)
    requires Tracks(r, tabs, u, rt) && BaseOk(r) && rt.Id(call.Kind()) in tabs && call.Kind() in r.store
    ensures var id := rt.Id(call.Kind());
      var rows := OnList(r.store[call.Kind()], call, u).0;
      && r.base[call.Kind()] <= |rows|
      && Target(tabs[id], rows, r.base[call.Kind()]) == OnTable(TargetAt(r, tabs, rt, id), call, u)
  {
    var e := call.Kind();
    assert PendingAt(r, tabs, u, rt, e);
    hide Tracks, Pending, OnList, Proj, Call.Kind, Target, OnTable;
    TableCall(At(tabs, rt.Id(e)), e, u, r.store[e], r.base[e], Proj(r.ops, e), call);
  }

  lemma TargetCall(r: Req, tabs: Tables, u: nat, rt: Route, call: Call)
    requires Tracks(r, tabs, u, rt) && BaseOk(r) && rt.Id(call.Kind()) in tabs && call.Kind() in r.store
    ensures var r' := Apply(r, u, rt, Make(call));
      BaseOk(r') && TargetTables(r', tabs, rt) == OnTables(TargetTables(r, tabs, rt), call, u, rt)
  {
    hide OnList, Target, OnTable, Call.Kind, Tracks;
    CallTarget(r, tabs, u, rt, call);
    var r' := Apply(r, u, rt, Make(call));
    assert TargetTables(r', tabs, rt) == OnTables(TargetTables(r, tabs, rt), call, u, rt);
  }

  /** The store and queue after any sound trace stand for the tables the same calls make at once. */
  lemma {:induction false} TraceMeansDirect(trace: seq<Event>, tabs: Tables, u: nat, rt: Route)
    requires ValidTables(tabs, rt) && Sound(trace, tabs, u, rt)
    ensures Tracks(Replay(trace, u, rt), tabs, u, rt) && BaseOk(Replay(trace, u, rt))
    ensures TargetTables(Replay(trace, u, rt), tabs, rt) == Direct(tabs, CallsOf(trace), u, rt)
    decreases |trace|
  {
    hide Tracks, Apply, TargetTables, OnTables, Lists, BaseOk, ValidTable;
    if trace == [] {
      EmptyTracks(tabs, u, rt);
    } else {
      var front, ev := trace[..|trace| - 1], trace[|trace| - 1];
      var r := Replay(front, u, rt);
      TraceMeansDirect(front, tabs, u, rt);
      match ev {
        case Load(e, rows) =>
          if e in r.store {
            ApplyReload(r, u, rt, e, rows);
          } else {
            TracksLoad(r, tabs, u, rt, e, rows);
            TargetLoad(r, tabs, u, rt, e, rows);
          }
          assert CallsOf(trace) == CallsOf(front);
        case Make(call) =>
          TracksCall(r, tabs, u, rt, call);
          TargetCall(r, tabs, u, rt, call);
          assert CallsOf(trace)[..|CallsOf(trace)| - 1] == CallsOf(front);
      }
    }
  }

  /**
   * Everything a request holds is its user's: the loaded rows and the created ones, with at most one
   * object for each entry of a unique index, so that no queued INSERT can collide.
   */
  lemma StoreIsUsers(trace: seq<Event>, tabs: Tables, u: nat, rt: Route, e: Entity)
    requires ValidTables(tabs, rt) && Sound(trace, tabs, u, rt) && e in Replay(trace, u, rt).store
    ensures var rows := Replay(trace, u, rt).store[e];
      && DistinctKeys(rows)
      && (forall i :: 0 <= i < |rows| ==> rows[i].Owner() == u && rows[i].Kind() == e)
  {
    TraceMeansDirect(trace, tabs, u, rt);
    assert PendingAt(Replay(trace, u, rt), tabs, u, rt, e);
    hide Replay, Direct, TargetTables, Sound, Proj, Based, Ordered;
  }

  lemma EmptyTracks(tabs: Tables, u: nat, rt: Route)
    ensures Tracks(EMPTY_REQ, tabs, u, rt) && BaseOk(EMPTY_REQ)
    ensures TargetTables(EMPTY_REQ, tabs, rt) == tabs
  {
  }

  lemma ApplyReload(r: Req, u: nat, rt: Route, e: Entity, rows: seq<Row>)
    ensures e in r.store ==> Apply(r, u, rt, Load(e, rows)) == r
  {
  }

  /** Whatever the loads answer, the queue is about loaded objects and goes where their entity is routed. */
  lemma {:induction false} ReplayHeld(trace: seq<Event>, u: nat, rt: Route)
    ensures var r := Replay(trace, u, rt);
      Bookkept(r, rt) && AllHeld(r.ops, r.store) && OneDb(r.ops)
    decreases |trace|
  {
    if trace != [] {
      var front, ev := trace[..|trace| - 1], trace[|trace| - 1];
      ReplayHeld(front, u, rt);
      ApplyBookkept(Replay(front, u, rt), u, rt, ev);
      ApplyHeld(Replay(front, u, rt), u, rt, ev);
    }
    RoutedOneDb(Replay(trace, u, rt).ops, rt);
  }

  lemma RoutedOneDb(ops: seq<QueuedOp>, rt: Route)
    requires Routed(ops, rt)
    ensures OneDb(ops)
  {
  }

  lemma ApplyHeld(r: Req, u: nat, rt: Route, ev: Event)
    requires Bookkept(r, rt) && AllHeld(r.ops, r.store)
    ensures AllHeld(Apply(r, u, rt, ev).ops, Apply(r, u, rt, ev).store)
  {
    hide Call.Change, Call.Fresh, Call.Hits, Find;
  }
}

// Commit of a whole request: the deferred, late-read writes mean the same as immediate ones.
module Deferred {
  import opened Rows
  import opened TableRun
  import opened Calls
  import opened Queue
  import opened Transactions
  import opened Request

  lemma {:induction false} RunRowsSnoc(t: Table, rows: seq<Row>, ops: seq<RowOp>, op: RowOp)
    requires InRange(ops, |rows|) && op.pos < |rows|
    ensures InRange(ops + [op], |rows|)
    ensures RunRows(t, rows, ops + [op]) ==
      match RunRows(t, rows, ops) case None => None case Some(x) => StepRow(x.0, x.1, op)
    decreases |ops|
  {
    hide StepRow;
    if ops == [] {
      assert (ops + [op])[1..] == [];
    } else {
      assert (ops + [op])[1..] == ops[1..] + [op];
      var n := StepRow(t, rows, ops[0]);
      if n.Some? { RunRowsSnoc(n.value.0, n.value.1, ops[1..], op); }
    }
  }

  /** Entity e of the request run on its own table. */
  function RunEntity(s: State, ops: seq<QueuedOp>, rt: Route, e: Entity): Option<(Table, seq<Row>)>
    requires e in s.store && InRange(Proj(ops, e), |s.store[e]|)
  {
    RunRows(At(s.tabs, rt.Id(e)), s.store[e], Proj(ops, e))
  }

  ghost predicate EntityRuns(s: State, ops: seq<QueuedOp>, rt: Route, e: Entity)
    requires e in s.store
  {
    rt.Id(e) in s.tabs && InRange(Proj(ops, e), |s.store[e]|) && RunEntity(s, ops, rt, e).Some?
  }

  ghost predicate EntitiesRun(s: State, ops: seq<QueuedOp>, rt: Route) {
    forall e :: e in s.store ==> EntityRuns(s, ops, rt, e)
  }

  /** Entity e run on its own gives x. */
  ghost predicate EntityGives(s: State, ops: seq<QueuedOp>, rt: Route, e: Entity, x: (Table, seq<Row>)) {
    e in s.store && EntityRuns(s, ops, rt, e) && RunEntity(s, ops, rt, e) == Some(x)
  }

  /** Table `id` belongs to no entity the request holds. */
  predicate Elsewhere(store: Store, rt: Route, id: TableId) {
    id.entity !in store || id != rt.Id(id.entity)
  }

  /** The state in which every entity has run on its own, and no other table has changed. */
  ghost predicate RunsTo(s: State, ops: seq<QueuedOp>, rt: Route, s': State) {
    && s'.tabs.Keys == s.tabs.Keys && SameShape(s.store, s'.store)
    && (forall e :: e in s.store ==> EntityGives(s, ops, rt, e, (At(s'.tabs, rt.Id(e)), s'.store[e])))
    && (forall id :: id in s.tabs && Elsewhere(s.store, rt, id) ==> s'.tabs[id] == s.tabs[id])
  }

  lemma ProjFront(ops: seq<QueuedOp>, e: Entity)
    requires ops != []
    ensures var q, front := ops[|ops| - 1], ops[..|ops| - 1];
      Proj(ops, e) == if q.entity == e then Proj(front, e) + [q.op] else Proj(front, e)
  {
  }

  lemma EntityFront(s: State, ops: seq<QueuedOp>, rt: Route, e: Entity)
    requires ops != [] && e in s.store && EntityRuns(s, ops, rt, e)
    ensures EntityRuns(s, ops[..|ops| - 1], rt, e)
  {
    var q, front := ops[|ops| - 1], ops[..|ops| - 1];
    ProjFront(ops, e);
    hide Proj, RunRows;
    var all, some := Proj(ops, e), Proj(front, e);
    if q.entity == e {
      assert forall i :: 0 <= i < |some| ==> some[i] == all[i];
      assert all[|some|] == q.op;
      RunRowsSnoc(At(s.tabs, rt.Id(e)), s.store[e], some, q.op);
    }
  }

  lemma EntitiesRunFront(s: State, ops: seq<QueuedOp>, rt: Route)
    requires ops != [] && EntitiesRun(s, ops, rt)
    ensures EntitiesRun(s, ops[..|ops| - 1], rt)
  {
    hide EntityRuns;
    forall e | e in s.store
      ensures EntityRuns(s, ops[..|ops| - 1], rt, e)
    {
      EntityFront(s, ops, rt, e);
    }
  }

  lemma EntitySnoc(s: State, ops: seq<QueuedOp>, rt: Route, f: Entity, x: (Table, seq<Row>))
    requires ops != [] && EntityGives(s, ops[..|ops| - 1], rt, f, x) && EntityRuns(s, ops, rt, f)
    ensures ops[|ops| - 1].entity != f ==> EntityGives(s, ops, rt, f, x)
    ensures ops[|ops| - 1].entity == f ==>
      && ops[|ops| - 1].op.pos < |x.1| && StepRow(x.0, x.1, ops[|ops| - 1].op).Some?
      && EntityGives(s, ops, rt, f, StepRow(x.0, x.1, ops[|ops| - 1].op).value)
  {
    var q, front := ops[|ops| - 1], ops[..|ops| - 1];
    ProjFront(ops, f);
    var all, some := Proj(ops, f), Proj(front, f);
    hide RunRows, Proj, StepRow;
    if f == q.entity {
      assert all[|some|] == q.op;
      RunRowsSnoc(At(s.tabs, rt.Id(f)), s.store[f], some, q.op);
    }
  }

  lemma StepAt(s: State, q: QueuedOp, rt: Route, x: (Table, seq<Row>))
    requires Held(q, s.store) && q.db == rt.Db(q.entity)
    requires StepRow(At(s.tabs, rt.Id(q.entity)), s.store[q.entity], q.op) == Some(x)
    ensures Step(s, q) == Some(State(s.tabs[rt.Id(q.entity) := x.0], s.store[q.entity := x.1]))
  {
    hide StepRow, At;
  }

  /** Replacing one entity's table and list. */
  lemma StepFrame(s: State, s1: State, s': State, rt: Route, e: Entity, x: (Table, seq<Row>))
    requires s1.tabs.Keys == s.tabs.Keys && SameShape(s.store, s1.store)
    requires e in s.store && rt.Id(e) in s.tabs && |x.1| == |s1.store[e]|
    requires s' == State(s1.tabs[rt.Id(e) := x.0], s1.store[e := x.1])
    ensures s'.tabs.Keys == s.tabs.Keys && SameShape(s.store, s'.store)
    ensures At(s'.tabs, rt.Id(e)) == x.0 && s'.store[e] == x.1
    ensures forall f :: f in s.store && f != e ==> At(s'.tabs, rt.Id(f)) == At(s1.tabs, rt.Id(f)) && s'.store[f] == s1.store[f]
    ensures forall id :: id in s.tabs && Elsewhere(s.store, rt, id) ==> s'.tabs[id] == s1.tabs[id]
  {
  }

  lemma StepRunsTo(s: State, ops: seq<QueuedOp>, rt: Route, s1: State)
    requires ops != [] && Held(ops[|ops| - 1], s1.store) && ops[|ops| - 1].db == rt.Db(ops[|ops| - 1].entity)
    requires EntitiesRun(s, ops, rt) && RunsTo(s, ops[..|ops| - 1], rt, s1)
    ensures Step(s1, ops[|ops| - 1]).Some? && RunsTo(s, ops, rt, Step(s1, ops[|ops| - 1]).value)
  {
    var q := ops[|ops| - 1];
    var e := q.entity;
    assert EntityRuns(s, ops, rt, e) && rt.Id(e) in s.tabs;
    hide EntityRuns, EntityGives, StepRow, Step, Proj, At, SameShape, Route.Id, Route.Db, Elsewhere, RunEntity;
    assert e in s1.store && e in s.store;
    var before := (At(s1.tabs, rt.Id(e)), s1.store[e]);
    EntitySnoc(s, ops, rt, e, before);
    var x := StepRow(before.0, before.1, q.op).value;
    StepAt(s1, q, rt, x);
    var s' := Step(s1, q).value;
    StepFrame(s, s1, s', rt, e, x);
    forall f | f in s.store
      ensures f in s'.store && EntityGives(s, ops, rt, f, (At(s'.tabs, rt.Id(f)), s'.store[f]))
    {
      if f != e { EntitySnoc(s, ops, rt, f, (At(s1.tabs, rt.Id(f)), s1.store[f])); }
    }
  }

  /** A routed queue acts on each entity's table separately. */
  lemma {:induction false} RunByEntity(s: State, ops: seq<QueuedOp>, rt: Route)
    requires AllHeld(ops, s.store) && Routed(ops, rt) && EntitiesRun(s, ops, rt)
    ensures Run(s, ops).Some? && RunsTo(s, ops, rt, Run(s, ops).value)
    decreases |ops|
  {
    hide EntityRuns, Step;
    if ops == [] {
      RunsToSelf(s, rt);
    } else {
      var q, front := ops[|ops| - 1], ops[..|ops| - 1];
      assert ops == front + [q] && AllHeld(front, s.store) && Held(q, s.store) && AllHeld([q], s.store);
      assert Routed(front, rt) && q.db == rt.Db(q.entity);
      hide EntitiesRun, RunsTo, AllHeld, Routed, Run, Held;
      EntitiesRunFront(s, ops, rt);
      RunByEntity(s, front, rt);
      var s1 := Run(s, front).value;
      RunConcat(s, front, [q]);
      AllHeldShape([q], s.store, s1.store);
      OneHeld(q, s1.store);
      StepRunsTo(s, ops, rt, s1);
      RunOne(s1, q);
    }
  }

  lemma OneHeld(q: QueuedOp, store: Store)
    requires AllHeld([q], store)
    ensures Held(q, store)
  {
    assert [q][0] == q;
  }

  lemma RunsToSelf(s: State, rt: Route)
    requires EntitiesRun(s, [], rt)
    ensures RunsTo(s, [], rt, s)
  {
  }

  /** The objects with their keys filled in. */
  ghost function AssignedStore(r: Req, tabs: Tables, rt: Route): Store
    requires BaseOk(r)
  {
    map e | e in r.store :: Assigned(r.store[e], r.base[e], At(tabs, rt.Id(e)).next)
  }

  lemma {:induction false} ProjHas(ops: seq<QueuedOp>, i: nat)
    requires i < |ops|
    ensures ops[i].op in Proj(ops, ops[i].entity)
  {
    if i < |ops| - 1 { ProjHas(ops[..|ops| - 1], i); }
  }

  lemma TracksHeld(r: Req, tabs: Tables, u: nat, rt: Route)
    requires Tracks(r, tabs, u, rt)
    ensures AllHeld(r.ops, r.store) && OneDb(r.ops)
  {
    forall i | 0 <= i < |r.ops|
      ensures Held(r.ops[i], r.store)
    {
      var e := r.ops[i].entity;
      ProjHas(r.ops, i);
      assert PendingAt(r, tabs, u, rt, e);
    }
  }

  /** What entity e of a tracked request comes to. */
  ghost function EntityEnd(r: Req, tabs: Tables, rt: Route, e: Entity): (Table, seq<Row>)
    requires BaseOk(r) && e in r.store && rt.Id(e) in tabs
  {
    (TargetAt(r, tabs, rt, rt.Id(e)), Assigned(r.store[e], r.base[e], At(tabs, rt.Id(e)).next))
  }

  lemma TrackedEntity(r: Req, tabs: Tables, u: nat, rt: Route, e: Entity)
    requires Tracks(r, tabs, u, rt) && BaseOk(r) && ValidTables(tabs, rt) && e in r.store
    ensures rt.Id(e) in tabs && EntityGives(State(tabs, r.store), r.ops, rt, e, EntityEnd(r, tabs, rt, e))
  {
    assert PendingAt(r, tabs, u, rt, e);
    assert rt.Id(e) in tabs;
    hide Pending, Target, Assigned, RunRows, Tracks, Proj, ValidTables, InRange;
    DeferredRun(At(tabs, rt.Id(e)), e, u, r.store[e], r.base[e], Proj(r.ops, e));
  }

  /** Running the queue of a tracked request gives exactly the tables the request stands for. */
  lemma RunTracked(r: Req, tabs: Tables, u: nat, rt: Route)
    requires Tracks(r, tabs, u, rt) && BaseOk(r) && ValidTables(tabs, rt)
    ensures AllHeld(r.ops, r.store)
    ensures Run(State(tabs, r.store), r.ops) == Some(State(TargetTables(r, tabs, rt), AssignedStore(r, tabs, rt)))
  {
    var s := State(tabs, r.store);
    assert Routed(r.ops, rt);
    hide *;
    TracksHeld(r, tabs, u, rt);
    forall e | e in r.store
      ensures rt.Id(e) in tabs && EntityGives(s, r.ops, rt, e, EntityEnd(r, tabs, rt, e))
    {
      TrackedEntity(r, tabs, u, rt, e);
    }
    AllGive(s, r, tabs, rt);
    RunByEntity(s, r.ops, rt);
    ShowTarget(s, r, tabs, rt, Run(s, r.ops).value);
  }

  lemma AllGive(s: State, r: Req, tabs: Tables, rt: Route)
    requires BaseOk(r) && s == State(tabs, r.store)
    requires forall e :: e in r.store ==> rt.Id(e) in tabs && EntityGives(s, r.ops, rt, e, EntityEnd(r, tabs, rt, e))
    ensures EntitiesRun(s, r.ops, rt)
  {
    hide EntityEnd, EntityRuns, RunEntity;
  }

  lemma ShowTarget(s: State, r: Req, tabs: Tables, rt: Route, s': State)
    requires BaseOk(r) && s == State(tabs, r.store) && RunsTo(s, r.ops, rt, s')
    requires forall e :: e in r.store ==> rt.Id(e) in tabs && EntityGives(s, r.ops, rt, e, EntityEnd(r, tabs, rt, e))
    ensures s' == State(TargetTables(r, tabs, rt), AssignedStore(r, tabs, rt))
  {
    hide RunEntity, EntityRuns, Target, Assigned;
    forall e | e in r.store
      ensures s'.store[e] == EntityEnd(r, tabs, rt, e).1 && At(s'.tabs, rt.Id(e)) == EntityEnd(r, tabs, rt, e).0
    {
    }
    assert s'.store == AssignedStore(r, tabs, rt);
    forall id | id in tabs
      ensures s'.tabs[id] == TargetAt(r, tabs, rt, id)
    {
      if !Elsewhere(r.store, rt, id) {
        assert At(s'.tabs, rt.Id(id.entity)) == EntityEnd(r, tabs, rt, id.entity).0;
      }
    }
    assert s'.tabs == TargetTables(r, tabs, rt);
  }

  /**
   * Deferred equals immediate. Take any sound trace of loads and service calls, and commit it to the
   * tables: without a database fault every transaction succeeds, and the tables, AUTO_INCREMENT keys
   * included, are those of making the calls one after the other on the tables themselves.
   */
  lemma {:induction false} DeferredIsDirect(trace: seq<Event>, tabs: Tables, u: nat, rt: Route)
    requires ValidTables(tabs, rt) && Sound(trace, tabs, u, rt)
    ensures var r := Replay(trace, u, rt);
      && AllHeld(r.ops, r.store) && OneDb(r.ops) && BaseOk(r)
      && Run(State(tabs, r.store), r.ops) == Some(State(Direct(tabs, CallsOf(trace), u, rt), AssignedStore(r, tabs, rt)))
  {
    var r := Replay(trace, u, rt);
    TraceMeansDirect(trace, tabs, u, rt);
    hide *;
    RunTracked(r, tabs, u, rt);
    TracksHeld(r, tabs, u, rt);
  }
}

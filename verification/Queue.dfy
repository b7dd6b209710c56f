// The queue of deferred writes of one request over several databases: running it in order, Commit's
// regrouping by database, and what a failing transaction leaves behind.
module Queue {
  import opened Rows
  import opened TableRun

  /** A *Database pointer; NIL stands for Go's nil. */
  type DbId = nat
  const NIL: DbId := 0

  datatype TableId = TableId(db: DbId, entity: Entity)
  type Tables = map<TableId, Table>
  type Store = map<Entity, seq<Row>>

  /** dbOp: the database and the captured object, named by its entity and its place in the store list. */
  datatype QueuedOp = QueuedOp(db: DbId, entity: Entity, op: RowOp)

  /** What the queued writes act on: the tables, and the objects the request holds. */
  datatype State = State(tabs: Tables, store: Store)

  datatype Group = Group(db: DbId, ops: seq<QueuedOp>)

  function At(tabs: Tables, id: TableId): Table {
    if id in tabs then tabs[id] else EMPTY_TABLE
  }

  predicate Held(q: QueuedOp, store: Store) {
    q.entity in store && q.op.pos < |store[q.entity]|
  }

  predicate AllHeld(ops: seq<QueuedOp>, store: Store) {
    forall i :: 0 <= i < |ops| ==> Held(ops[i], store)
  }

  predicate SameShape(a: Store, b: Store) {
    a.Keys == b.Keys && forall e :: e in a ==> |a[e]| == |b[e]|
  }

  function Step(s: State, q: QueuedOp): (r: Option<State>)
    requires Held(q, s.store)
    ensures r.Some? ==> SameShape(s.store, r.value.store)
  {
    var id := TableId(q.db, q.entity);
    match StepRow(At(s.tabs, id), s.store[q.entity], q.op)
    case None => None
    case Some(p) => Some(State(s.tabs[id := p.0], s.store[q.entity := p.1]))
  }

  /** The queue run in its own order. */
  function Run(s: State, ops: seq<QueuedOp>): (r: Option<State>)
    requires AllHeld(ops, s.store)
    ensures r.Some? ==> SameShape(s.store, r.value.store)
    decreases |ops|
  {
    if ops == [] then Some(s)
    else
      match Step(s, ops[0])
      case None => None
      case Some(s') => Run(s', ops[1..])
  }

  lemma {:induction false} RunConcat(s: State, a: seq<QueuedOp>, b: seq<QueuedOp>)
    requires AllHeld(a, s.store) && AllHeld(b, s.store)
    ensures AllHeld(a + b, s.store)
    ensures Run(s, a + b) == match Run(s, a) case None => None case Some(s') => Run(s', b)
    decreases |a|
  {
    assert forall i :: 0 <= i < |a + b| ==> Held((a + b)[i], s.store) by {
      assert forall i :: 0 <= i < |a + b| ==> (a + b)[i] == if i < |a| then a[i] else b[i - |a|];
    }
    if a == [] {
      assert a + b == b;
    } else {
      assert (a + b)[0] == a[0] && (a + b)[1..] == a[1..] + b;
      var n := Step(s, a[0]);
      if n.Some? { RunConcat(n.value, a[1..], b); }
    }
  }

  // ------------------------------------------------------------------ grouping

  function OnlyIn(ops: seq<QueuedOp>, ds: set<DbId>): seq<QueuedOp> {
    if ops == [] then []
    else if ops[0].db in ds then [ops[0]] + OnlyIn(ops[1..], ds)
    else OnlyIn(ops[1..], ds)
  }

  function Except(ops: seq<QueuedOp>, d: DbId): (r: seq<QueuedOp>)
    ensures |r| <= |ops|
  {
    if ops == [] then []
    else if ops[0].db != d then [ops[0]] + Except(ops[1..], d)
    else Except(ops[1..], d)
  }

  lemma {:induction false} OnlyInMembers(ops: seq<QueuedOp>, ds: set<DbId>, q: QueuedOp)
    ensures q in OnlyIn(ops, ds) <==> q in ops && q.db in ds
  {
    if ops != [] { OnlyInMembers(ops[1..], ds, q); }
  }

  lemma {:induction false} ExceptMembers(ops: seq<QueuedOp>, d: DbId, q: QueuedOp)
    ensures q in Except(ops, d) <==> q in ops && q.db != d
  {
    if ops != [] { ExceptMembers(ops[1..], d, q); }
  }

  /** Both halves of the queue hold objects the request holds, one database each. */
  lemma SplitHeld(ops: seq<QueuedOp>, d: DbId, ds: set<DbId>, store: Store)
    requires AllHeld(ops, store) && OneDb(ops)
    ensures AllHeld(OnlyIn(ops, ds), store) && OneDb(OnlyIn(ops, ds))
    ensures AllHeld(Except(ops, d), store) && OneDb(Except(ops, d))
  {
    hide OnlyIn, Except;
    forall q: QueuedOp
      ensures q in OnlyIn(ops, ds) <==> q in ops && q.db in ds
      ensures q in Except(ops, d) <==> q in ops && q.db != d
    {
      OnlyInMembers(ops, ds, q);
      ExceptMembers(ops, d, q);
    }
    AllHeldIn(OnlyIn(ops, ds), ops, store);
    AllHeldIn(Except(ops, d), ops, store);
  }

  /** The groups Commit builds: one per database, in order of first appearance, each in queue order. */
  function Groups(ops: seq<QueuedOp>): seq<Group>
    decreases |ops|
  {
    if ops == [] then []
    else
      var d := ops[0].db;
      [Group(d, OnlyIn(ops, {d}))] + Groups(Except(ops[1..], d))
  }

  function Flatten(gs: seq<Group>): seq<QueuedOp> {
    if gs == [] then [] else gs[0].ops + Flatten(gs[1..])
  }

  /** All writes of one object go to one database; entity routing guarantees it. */
  predicate OneDb(ops: seq<QueuedOp>) {
    forall p, q :: p in ops && q in ops && p.entity == q.entity && p.op.pos == q.op.pos ==> p.db == q.db
  }

  predicate Independent(p: QueuedOp, q: QueuedOp) {
    p.db != q.db && !(p.entity == q.entity && p.op.pos == q.op.pos)
  }

  function Update2(s: State, p: QueuedOp, x: (Table, Row)): State
    requires Held(p, s.store)
  {
    State(s.tabs[TableId(p.db, p.entity) := x.0], s.store[p.entity := s.store[p.entity][p.op.pos := x.1]])
  }

  function Effect(s: State, p: QueuedOp): Option<(Table, Row)>
    requires Held(p, s.store)
  {
    Exec(At(s.tabs, TableId(p.db, p.entity)), s.store[p.entity][p.op.pos], p.op.kind)
  }

  lemma StepEffect(s: State, p: QueuedOp)
    requires Held(p, s.store)
    ensures Step(s, p) == match Effect(s, p) case None => None case Some(x) => Some(Update2(s, p, x))
  {
  }

  lemma EffectLocal(s: State, p: QueuedOp, q: QueuedOp, x: (Table, Row))
    requires Held(p, s.store) && Held(q, s.store) && Independent(p, q)
    ensures Effect(Update2(s, p, x), q) == Effect(s, q)
  {
    hide Exec;
  }

  lemma UpdatesCommute(s: State, p: QueuedOp, q: QueuedOp, x: (Table, Row), y: (Table, Row))
    requires Held(p, s.store) && Held(q, s.store) && Independent(p, q)
    ensures Update2(Update2(s, p, x), q, y) == Update2(Update2(s, q, y), p, x)
  {
    var a, b := Update2(Update2(s, p, x), q, y), Update2(Update2(s, q, y), p, x);
    assert a.tabs == b.tabs;
    if p.entity == q.entity {
      assert a.store[p.entity] == b.store[p.entity];
    }
    assert a.store == b.store;
  }

  /** Writes to different databases from different objects commute. */
  lemma {:induction false} StepsCommute(s: State, p: QueuedOp, q: QueuedOp)
    requires Held(p, s.store) && Held(q, s.store) && Independent(p, q)
    ensures Run(s, [p, q]) == Run(s, [q, p])
  {
    RunTwo(s, p, q);
    RunTwo(s, q, p);
    StepEffect(s, p);
    StepEffect(s, q);
    var x, y := Effect(s, p), Effect(s, q);
    hide Effect, Update2, Step, Run;
    if x.Some? {
      EffectLocal(s, p, q, x.value);
      StepEffect(Update2(s, p, x.value), q);
    }
    if y.Some? {
      EffectLocal(s, q, p, y.value);
      StepEffect(Update2(s, q, y.value), p);
    }
    if x.Some? && y.Some? { UpdatesCommute(s, p, q, x.value, y.value); }
  }

  lemma RunTwo(s: State, p: QueuedOp, q: QueuedOp)
    requires Held(p, s.store) && Held(q, s.store)
    ensures Run(s, [p, q]) == match Step(s, p) case None => None case Some(s') => Step(s', q)
  {
    hide Step;
    assert [p, q] == [p] + [q];
    RunConcat(s, [p], [q]);
    RunOne(s, p);
    if Step(s, p).Some? { RunOne(Step(s, p).value, q); }
  }

  lemma RunOne(s: State, p: QueuedOp)
    requires Held(p, s.store)
    ensures Run(s, [p]) == Step(s, p)
  {
    hide Step;
    assert [p][1..] == [];
  }

  lemma {:induction false} HeadCommutes(s: State, h: QueuedOp, ops: seq<QueuedOp>)
    requires Held(h, s.store) && AllHeld(ops, s.store)
    requires forall q :: q in ops ==> Independent(h, q)
    ensures AllHeld([h] + ops, s.store) && AllHeld(ops + [h], s.store)
    ensures Run(s, [h] + ops) == Run(s, ops + [h])
    decreases |ops|, 1
  {
    hide Step;
    RunConcat(s, [h], ops);
    RunConcat(s, ops, [h]);
    if ops == [] {
      assert [h] + ops == ops + [h];
    } else {
      var q, rest := ops[0], ops[1..];
      assert q in ops && forall x :: x in rest ==> x in ops;
      hide Run, Independent, Held;
      StepsCommute(s, h, q);
      SwapThen(s, h, q, rest);
      SwapTail(s, h, q, rest);
      assert ops == [q] + rest;
    }
  }

  lemma SwapThen(s: State, h: QueuedOp, q: QueuedOp, rest: seq<QueuedOp>)
    requires Held(h, s.store) && Held(q, s.store) && AllHeld(rest, s.store)
    requires Run(s, [h, q]) == Run(s, [q, h])
    ensures AllHeld([h] + ([q] + rest), s.store) && AllHeld([q] + ([h] + rest), s.store)
    ensures Run(s, [h] + ([q] + rest)) == Run(s, [q] + ([h] + rest))
  {
    RunConcat(s, [h, q], rest);
    RunConcat(s, [q, h], rest);
    ConsCons(h, q, rest);
    ConsCons(q, h, rest);
    hide *;
  }

  lemma ConsCons(h: QueuedOp, q: QueuedOp, rest: seq<QueuedOp>)
    ensures [h] + ([q] + rest) == [h, q] + rest
  {
  }

  lemma SwapTail(s: State, h: QueuedOp, q: QueuedOp, rest: seq<QueuedOp>)
    requires Held(h, s.store) && Held(q, s.store) && AllHeld(rest, s.store)
    requires forall x :: x in rest ==> Independent(h, x)
    ensures AllHeld([q] + ([h] + rest), s.store) && AllHeld([q] + rest + [h], s.store)
    ensures Run(s, [q] + ([h] + rest)) == Run(s, [q] + rest + [h])
    decreases |rest| + 1, 0
  {
    RunConcat(s, [h], rest);
    RunConcat(s, rest, [h]);
    RunConcat(s, [q], [h] + rest);
    RunConcat(s, [q], rest + [h]);
    assert [q] + rest + [h] == [q] + (rest + [h]);
    var n := Run(s, [q]);
    if n.Some? {
      AllHeldShape(rest, s.store, n.value.store);
      AllHeldShape([h], s.store, n.value.store);
      hide *;
      HeadCommutes(n.value, h, rest);
    }
  }

  lemma AllHeldShape(ops: seq<QueuedOp>, a: Store, b: Store)
    requires AllHeld(ops, a) && SameShape(a, b)
    ensures AllHeld(ops, b)
  {
  }

  lemma MoveHead(s: State, h: QueuedOp, m: seq<QueuedOp>, o: seq<QueuedOp>)
    requires Held(h, s.store) && AllHeld(m, s.store) && AllHeld(o, s.store)
    requires forall q :: q in m ==> Independent(h, q)
    ensures AllHeld([h] + (m + o), s.store) && AllHeld(m + ([h] + o), s.store)
    ensures Run(s, [h] + (m + o)) == Run(s, m + ([h] + o))
  {
    assert [h][0] == h && AllHeld([h], s.store);
    hide *;
    assert [h] + (m + o) == [h] + m + o;
    assert m + ([h] + o) == m + [h] + o;
    HeadCommutes(s, h, m);
    RunConcat(s, [h] + m, o);
    RunConcat(s, m + [h], o);
  }

  /** One database's writes can be run first. */
  lemma {:induction false} Extract(s: State, ops: seq<QueuedOp>, d: DbId)
    requires AllHeld(ops, s.store) && OneDb(ops)
    ensures AllHeld(OnlyIn(ops, {d}) + Except(ops, d), s.store)
    ensures Run(s, OnlyIn(ops, {d}) + Except(ops, d)) == Run(s, ops)
    decreases |ops|
  {
    if ops == [] {
      assert OnlyIn(ops, {d}) + Except(ops, d) == ops;
    } else {
      var h, rest := ops[0], ops[1..];
      var m, o := OnlyIn(rest, {d}), Except(rest, d);
      assert OnlyIn(ops, {d}) + Except(ops, d) == if h.db == d then [h] + (m + o) else m + ([h] + o);
      assert ops == [h] + rest;
      assert Held(h, s.store) && AllHeld([h], s.store);
      assert AllHeld(rest, s.store) && OneDb(rest);
      HeadApart(ops, d);
      hide *;
      SplitHeld(rest, d, {d}, s.store);
      RunConcat(s, m, o);
      RunConcat(s, [h], rest);
      RunConcat(s, [h], m + o);
      var n := Run(s, [h]);
      if n.Some? {
        AllHeldShape(rest, s.store, n.value.store);
        Extract(n.value, rest, d);
      }
      if h.db != d { MoveHead(s, h, m, o); }
    }
  }

  lemma HeadApart(ops: seq<QueuedOp>, d: DbId)
    requires OneDb(ops) && ops != []
    ensures ops[0].db != d ==> forall q :: q in OnlyIn(ops[1..], {d}) ==> Independent(ops[0], q)
  {
    forall q | q in OnlyIn(ops[1..], {d})
      ensures ops[0].db != d ==> Independent(ops[0], q)
    {
      OnlyInMembers(ops[1..], {d}, q);
      assert ops[0] in ops && (q in ops[1..] ==> q in ops);
    }
  }

  lemma AllHeldIn(a: seq<QueuedOp>, ops: seq<QueuedOp>, store: Store)
    requires AllHeld(ops, store) && forall q :: q in a ==> q in ops
    ensures AllHeld(a, store)
  {
    assert forall i :: 0 <= i < |a| ==> a[i] in ops;
  }

  /** Regrouping by database gives the same states and the same assigned keys as the queue in its own order. */
  lemma {:induction false} GroupedRun(s: State, ops: seq<QueuedOp>)
    requires AllHeld(ops, s.store) && OneDb(ops)
    ensures AllHeld(Flatten(Groups(ops)), s.store)
    ensures Run(s, Flatten(Groups(ops))) == Run(s, ops)
    decreases |ops|
  {
    if ops != [] {
      var d := ops[0].db;
      var mine, others := OnlyIn(ops, {d}), Except(ops, d);
      assert others == Except(ops[1..], d);
      assert Groups(ops)[1..] == Groups(others);
      assert Flatten(Groups(ops)) == mine + Flatten(Groups(others));
      assert |others| < |ops|;
      hide *;
      SplitHeld(ops, d, {d}, s.store);
      Extract(s, ops, d);
      RunConcat(s, mine, others);
      var n := Run(s, mine);
      GroupedRun(s, others);
      if n.Some? {
        AllHeldShape(others, s.store, n.value.store);
        GroupedRun(n.value, others);
      }
      RunConcat(s, mine, Flatten(Groups(others)));
    }
  }

  // ------------------------------------------------------------------ the grouping loop

  /** One turn of the grouping loop: append to the group of q.db, opening it if there is none. */
  function AddTo(gs: seq<Group>, q: QueuedOp): seq<Group> {
    if gs == [] then [Group(q.db, [q])]
    else if gs[0].db == q.db then [gs[0].(ops := gs[0].ops + [q])] + gs[1..]
    else [gs[0]] + AddTo(gs[1..], q)
  }

  /** The group is found at its index ... */
  lemma {:induction false} AddToAt(gs: seq<Group>, q: QueuedOp, i: nat)
    requires i < |gs| && gs[i].db == q.db && forall j :: 0 <= j < i ==> gs[j].db != q.db
    ensures AddTo(gs, q) == gs[i := Group(q.db, gs[i].ops + [q])]
  {
    if i > 0 { AddToAt(gs[1..], q, i - 1); }
  }

  /** ... or opened at the end. */
  lemma {:induction false} AddToEnd(gs: seq<Group>, q: QueuedOp)
    requires forall j :: 0 <= j < |gs| ==> gs[j].db != q.db
    ensures AddTo(gs, q) == gs + [Group(q.db, [q])]
  {
    if gs != [] { AddToEnd(gs[1..], q); }
  }

  lemma {:induction false} OnlyInSnoc(ops: seq<QueuedOp>, q: QueuedOp, ds: set<DbId>)
    ensures OnlyIn(ops + [q], ds) == if q.db in ds then OnlyIn(ops, ds) + [q] else OnlyIn(ops, ds)
  {
    if ops != [] {
      assert (ops + [q])[1..] == ops[1..] + [q];
      OnlyInSnoc(ops[1..], q, ds);
    }
  }

  lemma {:induction false} ExceptSnoc(ops: seq<QueuedOp>, q: QueuedOp, d: DbId)
    ensures Except(ops + [q], d) == if q.db != d then Except(ops, d) + [q] else Except(ops, d)
  {
    if ops != [] {
      assert (ops + [q])[1..] == ops[1..] + [q];
      ExceptSnoc(ops[1..], q, d);
    }
  }

  lemma {:induction false} GroupsSnoc(ops: seq<QueuedOp>, q: QueuedOp)
    ensures Groups(ops + [q]) == AddTo(Groups(ops), q)
    decreases |ops|
  {
    if ops == [] {
      assert ops + [q] == [q] && [q][1..] == [];
      var none: seq<QueuedOp> := [q][1..];
      assert none == [] && Except(none, q.db) == [] && OnlyIn(none, {q.db}) == [];
      assert OnlyIn([q], {q.db}) == [q];
      assert Groups([q]) == [Group(q.db, [q])] + Groups([]);
    } else {
      var d, rest := ops[0].db, Except(ops[1..], ops[0].db);
      assert (ops + [q])[1..] == ops[1..] + [q];
      OnlyInSnoc(ops, q, {d});
      ExceptSnoc(ops[1..], q, d);
      hide OnlyIn, Except;
      if q.db != d { GroupsSnoc(rest, q); }
      var gs := Groups(ops);
      assert gs[0] == Group(d, OnlyIn(ops, {d})) && gs[1..] == Groups(rest);
    }
  }

  function FirstAt(ops: seq<QueuedOp>, d: DbId): nat {
    if ops == [] || ops[0].db == d then 0 else 1 + FirstAt(ops[1..], d)
  }

  /** `gs` holds each database of the queue once, with all of its ops in queue order. */
  ghost predicate Partitions(gs: seq<Group>, ops: seq<QueuedOp>) {
    && (forall i, j :: 0 <= i < j < |gs| ==> gs[i].db != gs[j].db)
    && (forall i :: 0 <= i < |gs| ==> gs[i].ops == OnlyIn(ops, {gs[i].db}) && gs[i].ops != [])
    && (forall q :: q in ops ==> exists i :: 0 <= i < |gs| && gs[i].db == q.db)
    && multiset(Flatten(gs)) == multiset(ops)
  }

  lemma {:induction false} GroupsPartition(ops: seq<QueuedOp>)
    ensures Partitions(Groups(ops), ops)
    decreases |ops|
  {
    if ops != [] {
      var d := ops[0].db;
      var rest := Except(ops, d);
      GroupsSplit(ops);
      hide OnlyIn, Except, Groups, Partitions;
      GroupsPartition(rest);
      PartitionCons(Groups(ops), ops, d);
    }
  }

  lemma GroupsSplit(ops: seq<QueuedOp>)
    requires ops != []
    ensures var d := ops[0].db;
      && |Except(ops, d)| < |ops|
      && OnlyIn(ops, {d}) != []
      && Groups(ops) == [Group(d, OnlyIn(ops, {d}))] + Groups(Except(ops, d))
      && Groups(ops)[1..] == Groups(Except(ops, d))
  {
  }

  lemma PartitionCons(gs: seq<Group>, ops: seq<QueuedOp>, d: DbId)
    requires gs != [] && gs[0] == Group(d, OnlyIn(ops, {d})) && gs[0].ops != []
    requires Partitions(gs[1..], Except(ops, d))
    ensures Partitions(gs, ops)
  {
    var tail, rest := gs[1..], Except(ops, d);
    assert forall i :: 1 <= i < |gs| ==> gs[i] == tail[i - 1];
    assert multiset(Flatten(tail)) == multiset(rest) && forall i :: 0 <= i < |tail| ==> tail[i].ops == OnlyIn(rest, {tail[i].db}) && tail[i].ops != [];
    FlattenCons(gs, ops, d);
    hide OnlyIn, Except, Flatten;
    forall i | 1 <= i < |gs|
      ensures gs[i].db != d && gs[i].ops == OnlyIn(ops, {gs[i].db}) && gs[i].ops != []
    {
      TailGroup(gs[i], ops, d);
    }
    forall q | q in ops
      ensures exists i :: 0 <= i < |gs| && gs[i].db == q.db
    {
      ExceptMembers(ops, d, q);
      GroupOf(gs, ops, d, tail, rest, q);
    }
    assert forall i, j :: 0 <= i < j < |gs| ==> gs[i].db != gs[j].db;
  }

  lemma FlattenCons(gs: seq<Group>, ops: seq<QueuedOp>, d: DbId)
    requires gs != [] && gs[0].ops == OnlyIn(ops, {d}) && multiset(Flatten(gs[1..])) == multiset(Except(ops, d))
    ensures multiset(Flatten(gs)) == multiset(ops)
  {
    hide OnlyIn, Except;
    assert Flatten(gs) == gs[0].ops + Flatten(gs[1..]);
    SplitMultiset(ops, d);
  }

  /** A group of the rest of the queue is not d's, and is the whole queue's for its database. */
  lemma TailGroup(g: Group, ops: seq<QueuedOp>, d: DbId)
    requires g.ops == OnlyIn(Except(ops, d), {g.db}) && g.ops != []
    ensures g.db != d && g.ops == OnlyIn(ops, {g.db})
  {
    hide OnlyIn, Except;
    var q := g.ops[0];
    assert q in g.ops;
    OnlyInMembers(Except(ops, d), {g.db}, q);
    ExceptMembers(ops, d, q);
    OnlyOfRest(ops, d, g.db);
  }

  lemma GroupOf(gs: seq<Group>, ops: seq<QueuedOp>, d: DbId, tail: seq<Group>, rest: seq<QueuedOp>, q: QueuedOp)
    requires Partitions(tail, rest) && |gs| == |tail| + 1 && gs[0].db == d && gs[1..] == tail
    requires q.db == d || q in rest
    ensures exists i :: 0 <= i < |gs| && gs[i].db == q.db
  {
    if q.db == d {
      assert gs[0].db == q.db;
    } else {
      var i :| 0 <= i < |tail| && tail[i].db == q.db;
      assert gs[i + 1].db == q.db;
    }
  }

  lemma {:induction false} OnlyOfRest(ops: seq<QueuedOp>, d: DbId, e: DbId)
    requires d != e
    ensures OnlyIn(Except(ops, d), {e}) == OnlyIn(ops, {e})
  {
    if ops != [] { OnlyOfRest(ops[1..], d, e); }
  }

  lemma {:induction false} SplitMultiset(ops: seq<QueuedOp>, d: DbId)
    ensures multiset(OnlyIn(ops, {d})) + multiset(Except(ops, d)) == multiset(ops)
  {
    if ops != [] {
      assert ops == [ops[0]] + ops[1..];
      SplitMultiset(ops[1..], d);
    }
  }

  lemma {:induction false} FirstFound(ops: seq<QueuedOp>, q: QueuedOp)
    requires q in ops
    ensures FirstAt(ops, q.db) < |ops|
  {
    if ops[0] != q { FirstFound(ops[1..], q); }
  }

  lemma {:induction false} FirstExcept(ops: seq<QueuedOp>, d: DbId, a: DbId, b: DbId)
    requires a != d && b != d && FirstAt(Except(ops, d), a) < FirstAt(Except(ops, d), b)
    ensures FirstAt(ops, a) < FirstAt(ops, b)
  {
    if ops != [] && ops[0].db != a {
      assert ops[0].db != d ==> Except(ops, d)[1..] == Except(ops[1..], d);
      FirstExcept(ops[1..], d, a, b);
    }
  }

  /** Groups come in the order in which their databases first appear in the queue. */
  lemma {:induction false} GroupsInFirstOrder(ops: seq<QueuedOp>, i: nat, j: nat)
    requires i < j < |Groups(ops)|
    ensures FirstAt(ops, Groups(ops)[i].db) < FirstAt(ops, Groups(ops)[j].db) < |ops|
    decreases |ops|
  {
    var d := ops[0].db;
    var rest := Except(ops, d);
    var gs, tail := Groups(ops), Groups(rest);
    assert rest == Except(ops[1..], d) && |rest| < |ops| && FirstAt(ops, d) == 0;
    assert gs == [Group(d, OnlyIn(ops, {d}))] + tail;
    GroupsPartition(ops);
    hide OnlyIn, Except, Groups, Flatten;
    var q := gs[j].ops[0];
    OnlyInMembers(ops, {gs[j].db}, q);
    FirstFound(ops, q);
    if 0 < i {
      GroupsInFirstOrder(rest, i - 1, j - 1);
      FirstExcept(ops, d, gs[i].db, gs[j].db);
    }
  }
}

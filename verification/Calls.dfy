// The writes the services make for a user, each as it acts on the list the request holds (write
// deferred to Commit) and as it would act on the table directly.
module Calls {
  import opened Rows
  import opened TableRun

  datatype Call =
    | AddItem(itemId: nat, amount: u64, design: Option<nat>)
    | ConsumeItem(itemId: nat, amount: u64)
    | AddAsset(assetId: nat, quantity: i64)
    | ConsumeAsset(assetId: nat, quantity: i64)
    | UpgradeCard(cardIdx: nat)
    | TouchAccount(deviceId: string)
  {
    function Kind(): Entity {
      match this
      case AddItem(_, _, _) => Items
      case ConsumeItem(_, _) => Items
      case AddAsset(_, _) => Assets
      case ConsumeAsset(_, _) => Assets
      case UpgradeCard(_) => Cards
      case TouchAccount(_) => Account
    }

    /** The row the call is about: GetItem, GetAsset, GetCard, or the account itself. */
    predicate Hits(r: Row) {
      match this
      case AddItem(id, _, _) => r.ItemRow? && r.itemId == id
      case ConsumeItem(id, _) => r.ItemRow? && r.itemId == id
      case AddAsset(id, _) => r.AssetRow? && r.assetId == id
      case ConsumeAsset(id, _) => r.AssetRow? && r.assetId == id
      case UpgradeCard(idx) => r.CardRow? && r.pk == idx
      case TouchAccount(_) => r.AccountRow?
    }

    /** The row after the call, or None when the call is refused. */
    function Change(r: Row): (c: Option<Row>)
      requires Hits(r)
      ensures c.Some? ==> c.value.SameIdentity(r)
    {
      match this
      case AddItem(_, n, _) => Some(r.(amount := (r.amount + n) % U64))
      case ConsumeItem(_, n) => if r.amount < n then None else Some(r.(amount := r.amount - n))
      case AddAsset(_, q) => Some(r.(quantity := WrapI64(r.quantity + q)))
      case ConsumeAsset(_, q) => if r.quantity < q then None else Some(r.(quantity := WrapI64(r.quantity - q)))
      case UpgradeCard(_) => Some(r.(level := (r.level + 1) % U16))
      case TouchAccount(d) => Some(r.(deviceId := d))
    }

    /** The row to create when there is none, or None when the call is refused. */
    function Fresh(u: nat): (c: Option<Row>)
      ensures c.Some? ==> Hits(c.value) && c.value.Kind() == Kind() && c.value.Owner() == u && c.value.pk == 0 && c.value.IndexKey().Some?
    {
      match this
      case AddItem(id, n, Some(itemType)) => Some(ItemRow(0, u, itemType % U16, id, n))
      case AddAsset(id, q) => Some(AssetRow(0, u, id, q, 0))
      case _ => None
    }
  }

  /** The scan loop of GetItem, GetAsset and GetCard: position of the first hit, or |rows|. */
  function Find(rows: seq<Row>, call: Call): (p: nat)
    ensures p <= |rows|
    ensures p < |rows| ==> call.Hits(rows[p])
    ensures forall i :: 0 <= i < p ==> !call.Hits(rows[i])
  {
    if rows == [] || call.Hits(rows[0]) then 0
    else
      var p := Find(rows[1..], call);
      assert forall i :: 0 < i < |rows| ==> rows[i] == rows[1..][i - 1];
      p + 1
  }

  /** What a call does to the loaded list, and the op it queues, if any. */
  function OnList(rows: seq<Row>, call: Call, u: nat): (seq<Row>, Option<RowOp>)
  {
    var p := Find(rows, call);
    if p < |rows| then
      match call.Change(rows[p])
      case None => (rows, None)
      case Some(r) => (rows[p := r], Some(RowOp(UpdateOp, p)))
    else
      match call.Fresh(u)
      case None => (rows, None)
      case Some(r) => (rows + [r], Some(RowOp(InsertOp, |rows|)))
  }

  ghost predicate HitIn(t: Table, u: nat, call: Call, k: nat) {
    k in t.rows && t.rows[k].Owner() == u && call.Hits(t.rows[k])
  }

  /** The same call made on the table at once: SELECT, then UPDATE or INSERT. */
  ghost function OnTable(t: Table, call: Call, u: nat): Table {
    if exists k :: HitIn(t, u, call, k) then
      var k :| HitIn(t, u, call, k);
      match call.Change(t.rows[k])
      case None => t
      case Some(r) => (match Save(t, r) case None => t case Some(t') => t')
    else
      match call.Fresh(u)
      case None => t
      case Some(r) => (match Insert(t, r) case None => t case Some(t') => t')
  }

  function Queued(ops: seq<RowOp>, op: Option<RowOp>): seq<RowOp> {
    if op.Some? then ops + [op.value] else ops
  }

  lemma {:induction false} OrderedSnoc(ops: seq<RowOp>, c: nat, n: nat, op: RowOp)
    requires Ordered(ops, c, n)
    requires if op.kind.InsertOp? then op.pos == n else op.pos < n
    ensures Ordered(ops + [op], c, if op.kind.InsertOp? then n + 1 else n)
    decreases |ops|
  {
    if ops == [] {
      assert (ops + [op])[1..] == [];
    } else {
      assert (ops + [op])[1..] == ops[1..] + [op];
      var c' := if ops[0].kind.InsertOp? then c + 1 else c;
      OrderedBound(ops, c, n);
      OrderedSnoc(ops[1..], c', n, op);
    }
  }

  lemma {:induction false} OrderedBound(ops: seq<RowOp>, c: nat, n: nat)
    requires Ordered(ops, c, n)
    ensures c <= n
    decreases |ops|
  {
    if ops != [] { OrderedBound(ops[1..], if ops[0].kind.InsertOp? then c + 1 else c, n); }
  }

  lemma TouchedSnoc(ops: seq<RowOp>, op: RowOp, p: nat)
    ensures Touched(ops + [op], p) <==> Touched(ops, p) || op.pos == p
  {
    if Touched(ops, p) {
      var i :| 0 <= i < |ops| && ops[i].pos == p;
      assert (ops + [op])[i].pos == p;
    }
    if op.pos == p { assert (ops + [op])[|ops|].pos == p; }
  }

  lemma OneHitBefore(t: Table, e: Entity, u: nat, rows: seq<Row>, n0: nat, ops: seq<RowOp>, call: Call, i: nat, j: nat)
    requires Pending(t, e, u, rows, n0, ops) && call.Kind() == e
    requires i < j < |rows| && call.Hits(rows[i])
    ensures !call.Hits(rows[j])
  {
    hide ValidTable, Ordered, Based, InRange;
    assert rows[j].Kind() == e && rows[j].Owner() == u;
  }

  /** A user has at most one row a call can be about. */
  lemma OneHit(t: Table, e: Entity, u: nat, rows: seq<Row>, n0: nat, ops: seq<RowOp>, call: Call, i: nat, j: nat)
    requires Pending(t, e, u, rows, n0, ops) && call.Kind() == e
    requires i < |rows| && j < |rows| && call.Hits(rows[i]) && call.Hits(rows[j])
    ensures i == j
  {
    hide Pending, Call.Hits, Call.Kind;
    if i < j {
      OneHitBefore(t, e, u, rows, n0, ops, call, i, j);
    } else if j < i {
      OneHitBefore(t, e, u, rows, n0, ops, call, j, i);
    }
  }

  /** The queue and the list after a call still stand for a pending request. */
  lemma PendingCall(t: Table, e: Entity, u: nat, rows: seq<Row>, n0: nat, ops: seq<RowOp>, call: Call)
    requires Pending(t, e, u, rows, n0, ops) && call.Kind() == e
    ensures var (rows', op) := OnList(rows, call, u); Pending(t, e, u, rows', n0, Queued(ops, op))
  {
    var p := Find(rows, call);
    if p < |rows| {
      var c := call.Change(rows[p]);
      if c.Some? { PendingUpdate(t, e, u, rows, n0, ops, p, c.value); }
    } else {
      var c := call.Fresh(u);
      if c.Some? {
        forall i | 0 <= i < |rows|
          ensures rows[i].IndexKey() != c.value.IndexKey()
        {
          assert !call.Hits(rows[i]);
        }
        PendingInsert(t, e, u, rows, n0, ops, c.value);
      }
    }
  }

  lemma PendingUpdate(t: Table, e: Entity, u: nat, rows: seq<Row>, n0: nat, ops: seq<RowOp>, p: nat, r: Row)
    requires Pending(t, e, u, rows, n0, ops) && p < |rows| && r.SameIdentity(rows[p])
    ensures Pending(t, e, u, rows[p := r], n0, ops + [RowOp(UpdateOp, p)])
  {
    var ops', rows' := ops + [RowOp(UpdateOp, p)], rows[p := r];
    OrderedSnoc(ops, n0, |rows|, RowOp(UpdateOp, p));
    forall i { TouchedSnoc(ops, RowOp(UpdateOp, p), i); }
    hide Row.Kind, Row.Owner, Row.IndexKey, ValidTable, Ordered, Touched;
    assert forall i :: 0 <= i < |rows| ==> rows'[i].SameIdentity(rows[i]);
    assert Based(t, rows', n0, ops');
  }

  lemma PendingInsert(t: Table, e: Entity, u: nat, rows: seq<Row>, n0: nat, ops: seq<RowOp>, r: Row)
    requires Pending(t, e, u, rows, n0, ops)
    requires r.Kind() == e && r.Owner() == u && r.pk == 0 && r.IndexKey().Some?
    requires forall i :: 0 <= i < |rows| ==> rows[i].IndexKey() != r.IndexKey()
    ensures Pending(t, e, u, rows + [r], n0, ops + [RowOp(InsertOp, |rows|)])
  {
    var op := RowOp(InsertOp, |rows|);
    var rows', ops' := rows + [r], ops + [op];
    OrderedSnoc(ops, n0, |rows|, op);
    forall i { TouchedSnoc(ops, op, i); }
    hide Row.Kind, Row.Owner, Row.IndexKey, ValidTable, Ordered, Touched;
    assert |rows'| == |rows| + 1 && rows'[|rows|] == r;
    assert forall i :: 0 <= i < |rows| ==> rows'[i] == rows[i];
    assert InRange(ops', |rows'|);
    assert DistinctKeys(rows');
    assert Based(t, rows', n0, ops');
  }

  lemma {:induction false} ByPkUpdate(a: seq<Row>, p: nat, r: Row)
    requires DistinctPk(a) && p < |a| && r.pk == a[p].pk
    ensures ByPk(a[p := r]) == ByPk(a)[r.pk := r]
  {
    var last := |a| - 1;
    if p == last {
      assert a[p := r][..last] == a[..last];
    } else {
      assert a[p := r][..last] == a[..last][p := r];
      ByPkUpdate(a[..last], p, r);
    }
  }

  /** Assigning a key does not change which row a call is about, nor what it does to it. */
  lemma CallIgnoresNewKey(call: Call, r: Row, id: nat)
    requires r.IndexKey().Some?
    ensures call.Hits(r) == call.Hits(r.WithPk(id))
    ensures call.Hits(r) ==> call.Change(r.WithPk(id)) == (match call.Change(r) case None => None case Some(c) => Some(c.WithPk(id)))
  {
  }

  lemma HitsAssigned(t: Table, e: Entity, u: nat, rows: seq<Row>, n0: nat, ops: seq<RowOp>, call: Call, i: nat)
    requires Pending(t, e, u, rows, n0, ops) && i < |rows|
    ensures var a := Assigned(rows, n0, t.next);
      && call.Hits(rows[i]) == call.Hits(a[i])
      && (call.Hits(rows[i]) ==>
        call.Change(a[i]) == (match call.Change(rows[i]) case None => None case Some(c) => Some(if i < n0 then c else c.WithPk(t.next + i - n0))))
  {
    if n0 <= i { CallIgnoresNewKey(call, rows[i], t.next + i - n0); }
  }

  /** The call made at once finds the row the list holds at the position the loop finds. */
  lemma HitsAgree(t: Table, e: Entity, u: nat, rows: seq<Row>, n0: nat, ops: seq<RowOp>, call: Call, k: nat)
    requires Pending(t, e, u, rows, n0, ops) && call.Kind() == e
    ensures var p, a := Find(rows, call), Assigned(rows, n0, t.next);
      HitIn(Target(t, rows, n0), u, call, k) <==> p < |rows| && k == a[p].pk
  {
    var p, a, t' := Find(rows, call), Assigned(rows, n0, t.next), Target(t, rows, n0);
    TargetReplaces(t, e, u, rows, n0, ops);
    hide Call.Hits, Call.Change, Call.Kind, Row.Owner, Row.Kind, Row.IndexKey, Target, Assigned, Pending;
    if HitIn(t', u, call, k) {
      var i :| 0 <= i < |a| && a[i].pk == k && a[i] == t'.rows[k];
      HitsAssigned(t, e, u, rows, n0, ops, call, i);
      OneHit(t, e, u, rows, n0, ops, call, i, p);
    }
    if p < |rows| { HitsAssigned(t, e, u, rows, n0, ops, call, p); }
  }

  lemma FreeSame(t: Table, e: Entity, r: Row)
    requires ValidTable(t, e) && r.pk in t.rows && r.SameIdentity(t.rows[r.pk])
    ensures Free(t, r)
  {
    hide Row.Kind, Row.Owner, Row.IndexKey;
    forall k | k in t.rows
      ensures !Clash(t.rows[k], r)
    {
      assert !Clash(t.rows[k], t.rows[r.pk]);
    }
  }

  /** Making the call on the table the pending list stands for gives the table the new list stands for. */
  lemma TableCall(t: Table, e: Entity, u: nat, rows: seq<Row>, n0: nat, ops: seq<RowOp>, call: Call)
    requires Pending(t, e, u, rows, n0, ops) && call.Kind() == e
    ensures n0 <= |rows| <= |OnList(rows, call, u).0|
    ensures OnTable(Target(t, rows, n0), call, u) == Target(t, OnList(rows, call, u).0, n0)
  {
    var p, a, t' := Find(rows, call), Assigned(rows, n0, t.next), Target(t, rows, n0);
    assert n0 <= |rows|;
    forall k { HitsAgree(t, e, u, rows, n0, ops, call, k); }
    if p < |rows| {
      assert HitIn(t', u, call, a[p].pk);
      TableUpdate(t, e, u, rows, n0, ops, call);
    } else {
      TableInsert(t, e, u, rows, n0, ops, call);
    }
  }

  lemma TargetUpdate(t: Table, rows: seq<Row>, n0: nat, p: nat, r: Row)
    requires n0 <= |rows| && p < |rows| && r.pk == rows[p].pk && DistinctPk(Assigned(rows, n0, t.next))
    ensures var t', r' := Target(t, rows, n0), if p < n0 then r else r.WithPk(t.next + p - n0);
      Target(t, rows[p := r], n0) == t'.(rows := t'.rows[r'.pk := r'])
  {
    var a, r' := Assigned(rows, n0, t.next), if p < n0 then r else r.WithPk(t.next + p - n0);
    assert r'.pk == a[p].pk;
    assert Assigned(rows[p := r], n0, t.next) == a[p := r'];
    ByPkUpdate(a, p, r');
    hide *;
    assert t.rows + ByPk(a)[r'.pk := r'] == (t.rows + ByPk(a))[r'.pk := r'];
  }

  lemma TargetInsert(t: Table, rows: seq<Row>, n0: nat, r: Row)
    requires n0 <= |rows|
    ensures var t' := Target(t, rows, n0);
      Target(t, rows + [r], n0) == Table(t'.rows[t'.next := r.WithPk(t'.next)], t'.next + 1)
  {
    hide ByPk;
    var a, t' := Assigned(rows, n0, t.next), Target(t, rows, n0);
    var r' := r.WithPk(t'.next);
    assert Assigned(rows + [r], n0, t.next) == a + [r'];
    ByPkSnoc(a, r');
    assert t.rows + ByPk(a)[r'.pk := r'] == (t.rows + ByPk(a))[r'.pk := r'];
  }

  lemma ByPkSnoc(a: seq<Row>, r: Row)
    ensures ByPk(a + [r]) == ByPk(a)[r.pk := r]
  {
    assert (a + [r])[..|a|] == a;
  }

  /** OnTable when the row is known. */
  lemma OnTableHit(t: Table, e: Entity, u: nat, call: Call, k: nat)
    requires ValidTable(t, e) && HitIn(t, u, call, k)
    requires forall l :: HitIn(t, u, call, l) ==> l == k
    ensures OnTable(t, call, u) ==
      match call.Change(t.rows[k]) case None => t case Some(r) => t.(rows := t.rows[k := r])
  {
    assert t.rows[k].pk == k;
    var c := call.Change(t.rows[k]);
    if c.Some? { FreeSame(t, e, c.value); }
    hide Row.Kind, Row.Owner, Row.IndexKey, Call.Hits, Call.Change, ValidTable;
  }

  lemma TableUpdate(t: Table, e: Entity, u: nat, rows: seq<Row>, n0: nat, ops: seq<RowOp>, call: Call)
    requires Pending(t, e, u, rows, n0, ops) && call.Kind() == e && Find(rows, call) < |rows|
    requires forall k :: HitIn(Target(t, rows, n0), u, call, k) <==> k == Assigned(rows, n0, t.next)[Find(rows, call)].pk
    ensures |OnList(rows, call, u).0| == |rows|
    ensures OnTable(Target(t, rows, n0), call, u) == Target(t, OnList(rows, call, u).0, n0)
  {
    var p, a, t' := Find(rows, call), Assigned(rows, n0, t.next), Target(t, rows, n0);
    assert n0 <= |rows|;
    assert OnList(rows, call, u).0 == match call.Change(rows[p]) case None => rows case Some(r) => rows[p := r];
    hide Pending, Row.Kind, Row.Owner, Row.IndexKey, Call.Hits, Call.Change, Call.Kind, ByPk, DistinctKeys, Find, ValidTable, DistinctPk, Target, OnList, OnTable, HitIn;
    AssignedDistinct(t, e, u, rows, n0, ops);
    TargetValid(t, e, u, rows, n0, ops);
    TargetReplaces(t, e, u, rows, n0, ops);
    HitsAssigned(t, e, u, rows, n0, ops, call, p);
    assert a[p].pk in t'.rows && t'.rows[a[p].pk] == a[p];
    OnTableHit(t', e, u, call, a[p].pk);
    var c := call.Change(rows[p]);
    if c.Some? { TargetUpdate(t, rows, n0, p, c.value); }
  }

  lemma TableInsert(t: Table, e: Entity, u: nat, rows: seq<Row>, n0: nat, ops: seq<RowOp>, call: Call)
    requires Pending(t, e, u, rows, n0, ops) && call.Kind() == e && Find(rows, call) == |rows|
    requires forall k :: !HitIn(Target(t, rows, n0), u, call, k)
    ensures |rows| <= |OnList(rows, call, u).0|
    ensures OnTable(Target(t, rows, n0), call, u) == Target(t, OnList(rows, call, u).0, n0)
  {
    TargetValid(t, e, u, rows, n0, ops);
    var c := call.Fresh(u);
    hide Pending, Row.Kind, Row.Owner, Row.IndexKey, Row.WithPk, Call.Hits, Call.Kind, Call.Fresh, Find, ValidTable, Target, Free;
    if c.Some? {
      FreeFresh(Target(t, rows, n0), e, u, call);
      TargetInsert(t, rows, n0, c.value);
    }
  }

  lemma FreeFresh(t: Table, e: Entity, u: nat, call: Call)
    requires ValidTable(t, e) && call.Kind() == e && call.Fresh(u).Some?
    requires forall k :: !HitIn(t, u, call, k)
    ensures Free(t, call.Fresh(u).value.WithPk(t.next))
  {
    var r := call.Fresh(u).value.WithPk(t.next);
    forall k | k in t.rows
      ensures !Clash(t.rows[k], r)
    {
      assert !HitIn(t, u, call, k);
    }
  }
}

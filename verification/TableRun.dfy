// One table and the one list of objects a request holds over it: the queued INSERTs and UPDATEs
// run late, reading each object as it is at that time.
module TableRun {
  import opened Rows

  datatype OpKind = InsertOp | UpdateOp

  /** A queued write of the object at position `pos` of the loaded list. */
  datatype RowOp = RowOp(kind: OpKind, pos: nat)

  predicate InRange(ops: seq<RowOp>, n: nat) {
    forall i :: 0 <= i < |ops| ==> ops[i].pos < n
  }

  /** CreateTx followed by SetPrimaryKey, or SaveTx, of an object that now reads `row`. */
  function Exec(t: Table, row: Row, kind: OpKind): Option<(Table, Row)> {
    match kind
    case InsertOp =>
      (match Insert(t, row)
       case None => None
       case Some(t') => Some((t', row.WithPk(t.next))))
    case UpdateOp =>
      (match Save(t, row)
       case None => None
       case Some(t') => Some((t', row)))
  }

  function StepRow(t: Table, rows: seq<Row>, op: RowOp): (r: Option<(Table, seq<Row>)>)
    requires op.pos < |rows|
    ensures r.Some? ==> |r.value.1| == |rows|
  {
    match Exec(t, rows[op.pos], op.kind)
    case None => None
    case Some(x) => Some((x.0, rows[op.pos := x.1]))
  }

  function RunRows(t: Table, rows: seq<Row>, ops: seq<RowOp>): (r: Option<(Table, seq<Row>)>)
    requires InRange(ops, |rows|)
    ensures r.Some? ==> |r.value.1| == |rows|
    decreases |ops|
  {
    if ops == [] then Some((t, rows))
    else
      match StepRow(t, rows, ops[0])
      case None => None
      case Some(s) => RunRows(s.0, s.1, ops[1..])
  }

  /** The created objects are inserted in list order, each before any update of it. `c` is the first one not yet inserted. */
  predicate Ordered(ops: seq<RowOp>, c: nat, n: nat) {
    if ops == [] then c == n
    else if ops[0].kind.InsertOp? then ops[0].pos == c && c < n && Ordered(ops[1..], c + 1, n)
    else ops[0].pos < c && Ordered(ops[1..], c, n)
  }

  predicate Touched(ops: seq<RowOp>, p: nat) {
    exists i :: 0 <= i < |ops| && ops[i].pos == p
  }

  predicate DistinctKeys(rows: seq<Row>) {
    forall i, j :: 0 <= i < j < |rows| && rows[i].IndexKey().Some? ==> rows[i].IndexKey() != rows[j].IndexKey()
  }

  /** The list as it will be once the objects from position `n0` on have received keys `next`, `next + 1`, ... */
  function Assigned(rows: seq<Row>, n0: nat, next: nat): (a: seq<Row>)
    requires n0 <= |rows|
    ensures |a| == |rows|
    ensures forall i :: 0 <= i < n0 ==> a[i] == rows[i]
    ensures forall i :: n0 <= i < |rows| ==> a[i] == rows[i].WithPk(next + i - n0)
  {
    seq(|rows|, i requires 0 <= i < |rows| => if i < n0 then rows[i] else rows[i].WithPk(next + i - n0))
  }

  /** The table that holds exactly the list in place of the rows the list was loaded from. */
  function Target(t: Table, rows: seq<Row>, n0: nat): Table
    requires n0 <= |rows|
  {
    Table(t.rows + ByPk(Assigned(rows, n0, t.next)), t.next + |rows| - n0)
  }

  /** Position `i < n0` of the list stands for a stored row; an object no op touches still equals it. */
  ghost predicate Based(t: Table, rows: seq<Row>, n0: nat, ops: seq<RowOp>) {
    && n0 <= |rows|
    && (forall i :: 0 <= i < n0 ==> rows[i].pk in t.rows && rows[i].SameIdentity(t.rows[rows[i].pk]))
    && (forall i :: 0 <= i < n0 && !Touched(ops, i) ==> rows[i] == t.rows[rows[i].pk])
  }

  /**
   * What a request holds over one table before Commit: user u's rows were loaded as the first n0
   * objects, later objects are new, and `ops` is everything queued since.
   */
  ghost predicate Pending(t: Table, e: Entity, u: nat, rows: seq<Row>, n0: nat, ops: seq<RowOp>) {
    && ValidTable(t, e)
    && Based(t, rows, n0, ops)
    && InRange(ops, |rows|)
    && Ordered(ops, n0, |rows|)
    && (forall i, j :: 0 <= i < j < n0 ==> rows[i].pk != rows[j].pk)
    && DistinctKeys(rows)
    && (forall i :: 0 <= i < |rows| ==> rows[i].Kind() == e && rows[i].Owner() == u)
    && (forall i :: n0 <= i < |rows| ==> rows[i].pk == 0 && rows[i].IndexKey().Some?)
    && (forall k :: k in t.rows && t.rows[k].Owner() == u ==> exists i :: 0 <= i < n0 && rows[i].pk == k)
  }

  /** The effect on the stored rows of writing, for each op, the final value of its object. */
  function Written(m: map<nat, Row>, a: seq<Row>, ops: seq<RowOp>): map<nat, Row>
    requires InRange(ops, |a|)
    decreases |ops|
  {
    if ops == [] then m
    else Written(m[a[ops[0].pos].pk := a[ops[0].pos]], a, ops[1..])
  }

  /** Every row user u has in t is one of the first c objects, up to its payload. */
  ghost predicate Covered(t: Table, u: nat, a: seq<Row>, c: nat) {
    && c <= |a|
    && (forall k :: k in t.rows ==> t.rows[k].pk == k && k < t.next)
    && (forall p :: 0 <= p < c ==> a[p].pk in t.rows)
    && (forall k :: k in t.rows && t.rows[k].Owner() == u ==> exists p :: 0 <= p < c && t.rows[k].SameIdentity(a[p]))
  }

  lemma NoClash(t: Table, u: nat, a: seq<Row>, c: nat, p: nat)
    requires Covered(t, u, a, c) && DistinctKeys(a) && p < |a| && a[p].Owner() == u
    ensures Free(t, a[p])
  {
    forall k | k in t.rows
      ensures !Clash(t.rows[k], a[p])
    {
      if t.rows[k].Owner() == u {
        var q :| 0 <= q < c && t.rows[k].SameIdentity(a[q]);
        assert q < p || q == p || p < q;
      }
    }
  }

  /** One op of the queue once the first c objects have their keys. */
  lemma StepOrdered(t: Table, u: nat, rows: seq<Row>, a: seq<Row>, c: nat, op: RowOp)
    requires op.pos < |rows| == |a| && (if op.kind.InsertOp? then op.pos == c else op.pos < c)
    requires Covered(t, u, a, c) && DistinctKeys(a)
    requires forall i :: 0 <= i < |a| ==> a[i].Owner() == u
    requires forall i :: 0 <= i < c ==> rows[i] == a[i]
    requires op.kind.InsertOp? ==> a[c] == rows[c].WithPk(t.next)
    ensures var p := op.pos;
      var t' := Table(t.rows[a[p].pk := a[p]], if op.kind.InsertOp? then t.next + 1 else t.next);
      && StepRow(t, rows, op) == Some((t', rows[p := a[p]]))
      && Covered(t', u, a, if op.kind.InsertOp? then c + 1 else c)
  {
    var p := op.pos;
    NoClash(t, u, a, c, p);
    hide Row.Kind, Row.Owner, Row.IndexKey, Clash;
    var c' := if op.kind.InsertOp? then c + 1 else c;
    var t' := Table(t.rows[a[p].pk := a[p]], if op.kind.InsertOp? then t.next + 1 else t.next);
    forall k | k in t'.rows && t'.rows[k].Owner() == u
      ensures exists q :: 0 <= q < c' && t'.rows[k].SameIdentity(a[q])
    {
      if k == a[p].pk {
        assert t'.rows[k].SameIdentity(a[p]);
      } else {
        var q :| 0 <= q < c && t.rows[k].SameIdentity(a[q]);
      }
    }
  }

  /** Running the queue from the point where the first c objects have their keys. */
  lemma {:induction false} RunOrdered(t: Table, u: nat, rows: seq<Row>, a: seq<Row>, c: nat, ops: seq<RowOp>)
    requires InRange(ops, |rows|) && Ordered(ops, c, |rows|) && c <= |a| == |rows|
    requires Covered(t, u, a, c) && DistinctKeys(a)
    requires forall i :: 0 <= i < |a| ==> a[i].Owner() == u
    requires forall i :: 0 <= i < c ==> rows[i] == a[i]
    requires forall i :: c <= i < |a| ==> a[i] == rows[i].WithPk(t.next + i - c)
    ensures RunRows(t, rows, ops) == Some((Table(Written(t.rows, a, ops), t.next + |rows| - c), a))
    decreases |ops|
  {
    hide Row.Kind, Row.Owner, Row.IndexKey, Row.WithPk, Covered, DistinctKeys, StepRow;
    if ops == [] {
      assert rows == a;
    } else {
      var p := ops[0].pos;
      StepOrdered(t, u, rows, a, c, ops[0]);
      var ins := ops[0].kind.InsertOp?;
      var t' := Table(t.rows[a[p].pk := a[p]], if ins then t.next + 1 else t.next);
      var rows' := rows[p := a[p]];
      assert forall i :: 0 <= i < c ==> rows'[i] == a[i];
      assert ins ==> rows'[c] == a[c];
      RunOrdered(t', u, rows', a, if ins then c + 1 else c, ops[1..]);
    }
  }

  lemma OverwriteOne(m: map<nat, Row>, w: map<nat, Row>, k: nat, v: Row)
    requires k in w && w[k] == v
    ensures m[k := v] + w == m + w
  {
  }

  lemma {:induction false} WrittenAll(m: map<nat, Row>, a: seq<Row>, ops: seq<RowOp>)
    requires InRange(ops, |a|) && DistinctPk(a)
    requires forall p :: 0 <= p < |a| ==> Touched(ops, p) || (a[p].pk in m && m[a[p].pk] == a[p])
    ensures Written(m, a, ops) == m + ByPk(a)
    decreases |ops|
  {
    ByPkHolds(a);
    hide ByPk;
    if ops == [] {
      assert forall k :: k in ByPk(a) ==> k in m && m[k] == ByPk(a)[k];
    } else {
      var q := ops[0].pos;
      var m' := m[a[q].pk := a[q]];
      forall p | 0 <= p < |a|
        ensures Touched(ops[1..], p) || (a[p].pk in m' && m'[a[p].pk] == a[p])
      {
        if Touched(ops, p) && p != q {
          var i :| 0 <= i < |ops| && ops[i].pos == p;
          assert ops[1..][i - 1].pos == p;
        }
      }
      WrittenAll(m', a, ops[1..]);
      OverwriteOne(m, ByPk(a), a[q].pk, a[q]);
    }
  }

  lemma AssignedDistinct(t: Table, e: Entity, u: nat, rows: seq<Row>, n0: nat, ops: seq<RowOp>)
    requires Pending(t, e, u, rows, n0, ops)
    ensures ValidTable(t, e)
    ensures var a := Assigned(rows, n0, t.next);
      && DistinctPk(a) && DistinctKeys(a)
      && (forall i :: 0 <= i < |a| ==> a[i].Owner() == u && a[i].Kind() == e && 0 < a[i].pk < t.next + |rows| - n0)
      && (forall i :: n0 <= i < |a| ==> a[i].pk !in t.rows)
  {
    hide Assigned;
    var a := Assigned(rows, n0, t.next);
    forall i | 0 <= i < |a|
      ensures a[i].Owner() == u && a[i].Kind() == e && a[i].IndexKey() == rows[i].IndexKey()
      ensures if i < n0 then a[i].pk in t.rows && 0 < a[i].pk < t.next else a[i].pk == t.next + i - n0
    {
    }
  }

  lemma PendingCovered(t: Table, e: Entity, u: nat, rows: seq<Row>, n0: nat, ops: seq<RowOp>)
    requires Pending(t, e, u, rows, n0, ops)
    ensures InRange(ops, |rows|) && n0 <= |rows| && Ordered(ops, n0, |rows|)
    ensures var a := Assigned(rows, n0, t.next);
      && Covered(t, u, a, n0)
      && (forall p :: 0 <= p < |a| ==> Touched(ops, p) || (a[p].pk in t.rows && t.rows[a[p].pk] == a[p]))
  {
    var a := Assigned(rows, n0, t.next);
    hide Row.Kind, Row.Owner, Row.IndexKey, Clash;
    assert forall i :: 0 <= i < n0 ==> a[i] == rows[i];
    forall k | k in t.rows && t.rows[k].Owner() == u
      ensures exists p :: 0 <= p < n0 && t.rows[k].SameIdentity(a[p])
    {
      var i :| 0 <= i < n0 && rows[i].pk == k;
      assert t.rows[k].SameIdentity(a[i]);
    }
    forall p | 0 <= p < |rows|
      ensures Touched(ops, p) || (a[p].pk in t.rows && t.rows[a[p].pk] == a[p])
    {
      if p >= n0 { InsertsTouch(ops, n0, |rows|, p); }
    }
  }

  /** The queue never fails, and leaves the table holding the list with the new keys filled in. */
  lemma {:induction false} DeferredRun(t: Table, e: Entity, u: nat, rows: seq<Row>, n0: nat, ops: seq<RowOp>)
    requires Pending(t, e, u, rows, n0, ops)
    ensures InRange(ops, |rows|)
    ensures RunRows(t, rows, ops) == Some((Target(t, rows, n0), Assigned(rows, n0, t.next)))
  {
    hide *;
    AssignedDistinct(t, e, u, rows, n0, ops);
    PendingCovered(t, e, u, rows, n0, ops);
    RunCovered(t, u, rows, n0, ops);
  }

  lemma RunCovered(t: Table, u: nat, rows: seq<Row>, n0: nat, ops: seq<RowOp>)
    requires InRange(ops, |rows|) && n0 <= |rows| && Ordered(ops, n0, |rows|)
    requires var a := Assigned(rows, n0, t.next);
      && Covered(t, u, a, n0) && DistinctKeys(a) && DistinctPk(a)
      && (forall i :: 0 <= i < |a| ==> a[i].Owner() == u)
      && (forall p :: 0 <= p < |a| ==> Touched(ops, p) || (a[p].pk in t.rows && t.rows[a[p].pk] == a[p]))
    ensures RunRows(t, rows, ops) == Some((Target(t, rows, n0), Assigned(rows, n0, t.next)))
  {
    var a := Assigned(rows, n0, t.next);
    assert Target(t, rows, n0) == Table(t.rows + ByPk(a), t.next + |rows| - n0);
    hide *;
    RunOrdered(t, u, rows, a, n0, ops);
    WrittenAll(t.rows, a, ops);
  }

  lemma {:induction false} InsertsTouch(ops: seq<RowOp>, c: nat, n: nat, p: nat)
    requires Ordered(ops, c, n) && c <= p < n
    ensures Touched(ops, p)
    decreases |ops|
  {
    if ops[0].pos == p && ops[0].kind.InsertOp? {
    } else {
      InsertsTouch(ops[1..], if ops[0].kind.InsertOp? then c + 1 else c, n, p);
      var i :| 0 <= i < |ops[1..]| && ops[1..][i].pos == p;
      assert ops[i + 1].pos == p;
    }
  }

  /** Each row after the run is either an object of the list or an untouched row of somebody else. */
  lemma TargetRow(t: Table, e: Entity, u: nat, rows: seq<Row>, n0: nat, ops: seq<RowOp>, k: nat)
    requires Pending(t, e, u, rows, n0, ops)
    ensures var a, t' := Assigned(rows, n0, t.next), Target(t, rows, n0);
      && (k in t'.rows ==>
        if t'.rows[k].Owner() == u then exists i :: 0 <= i < |a| && a[i].pk == k && a[i] == t'.rows[k]
        else k in t.rows && t'.rows[k] == t.rows[k])
      && (k in t.rows && t.rows[k].Owner() != u ==> k in t'.rows && t'.rows[k] == t.rows[k])
  {
    var a := Assigned(rows, n0, t.next);
    AssignedDistinct(t, e, u, rows, n0, ops);
    PendingCovered(t, e, u, rows, n0, ops);
    ByPkHolds(a);
    var m := ByPk(a);
    hide Row.Kind, Row.Owner, Row.IndexKey, Row.WithPk, ByPk, DistinctKeys, Clash, Ordered;
    if k in m {
      var i :| 0 <= i < |a| && a[i].pk == k && m[k] == a[i];
      if k in t.rows {
        assert i < n0 && a[i] == rows[i];
        assert rows[i].SameIdentity(t.rows[k]);
      }
    }
  }

  /** User u's rows of t' are the list `a`; every other row is as in t. */
  ghost predicate Replaced(t: Table, t': Table, u: nat, a: seq<Row>) {
    && (forall i :: 0 <= i < |a| ==> a[i].pk in t'.rows && t'.rows[a[i].pk] == a[i] && a[i].Owner() == u)
    && (forall k :: k in t'.rows && t'.rows[k].Owner() == u ==> exists i :: 0 <= i < |a| && a[i].pk == k && a[i] == t'.rows[k])
    && (forall k :: k in t'.rows && t'.rows[k].Owner() != u ==> k in t.rows && t'.rows[k] == t.rows[k])
    && (forall k :: k in t.rows && t.rows[k].Owner() != u ==> k in t'.rows && t'.rows[k] == t.rows[k])
  }

  lemma TargetReplaces(t: Table, e: Entity, u: nat, rows: seq<Row>, n0: nat, ops: seq<RowOp>)
    requires Pending(t, e, u, rows, n0, ops)
    ensures Replaced(t, Target(t, rows, n0), u, Assigned(rows, n0, t.next))
  {
    var a := Assigned(rows, n0, t.next);
    hide Pending, Assigned, Row.Owner, Row.Kind, Row.IndexKey, ByPk, DistinctKeys, DistinctPk;
    AssignedDistinct(t, e, u, rows, n0, ops);
    forall k {
      TargetRow(t, e, u, rows, n0, ops, k);
    }
    ByPkHolds(a);
  }

  lemma ReplacedNoClash(t: Table, t': Table, u: nat, a: seq<Row>, k: nat, l: nat)
    requires Replaced(t, t', u, a) && DistinctKeys(a)
    requires k in t'.rows && l in t'.rows
    requires k in t.rows && l in t.rows ==> !Clash(t.rows[k], t.rows[l])
    ensures !Clash(t'.rows[k], t'.rows[l])
  {
    hide Row.Owner, Row.IndexKey;
    if t'.rows[k].Owner() == t'.rows[l].Owner() == u && t'.rows[k].pk != t'.rows[l].pk {
      var i :| 0 <= i < |a| && a[i].pk == k && a[i] == t'.rows[k];
      var j :| 0 <= j < |a| && a[j].pk == l && a[j] == t'.rows[l];
      assert i < j || j < i;
    }
  }

  lemma ReplacedValid(t: Table, t': Table, e: Entity, u: nat, a: seq<Row>)
    requires Replaced(t, t', u, a) && ValidTable(t, e) && DistinctKeys(a) && t.next <= t'.next
    requires forall i :: 0 <= i < |a| ==> a[i].Kind() == e && 0 < a[i].pk < t'.next
    ensures ValidTable(t', e)
  {
    hide Row.Kind, Row.Owner, Row.IndexKey, Clash, DistinctKeys;
    forall k | k in t'.rows
      ensures t'.rows[k].pk == k && 0 < k < t'.next && t'.rows[k].Kind() == e
    {
      if t'.rows[k].Owner() == u {
        var i :| 0 <= i < |a| && a[i].pk == k && a[i] == t'.rows[k];
      }
    }
    forall k, l | k in t'.rows && l in t'.rows
      ensures !Clash(t'.rows[k], t'.rows[l])
    {
      ReplacedNoClash(t, t', u, a, k, l);
    }
  }

  lemma TargetValid(t: Table, e: Entity, u: nat, rows: seq<Row>, n0: nat, ops: seq<RowOp>)
    requires Pending(t, e, u, rows, n0, ops)
    ensures n0 <= |rows|
    ensures ValidTable(Target(t, rows, n0), e)
  {
    assert n0 <= |rows|;
    var a, t' := Assigned(rows, n0, t.next), Target(t, rows, n0);
    assert t'.next == t.next + |rows| - n0;
    hide *;
    AssignedDistinct(t, e, u, rows, n0, ops);
    TargetReplaces(t, e, u, rows, n0, ops);
    ReplacedValid(t, t', e, u, a);
  }

  /** After the run the list is again a full listing of the user's rows ... */
  lemma TargetLists(t: Table, e: Entity, u: nat, rows: seq<Row>, n0: nat, ops: seq<RowOp>)
    requires Pending(t, e, u, rows, n0, ops)
    ensures n0 <= |rows|
    ensures Lists(Assigned(rows, n0, t.next), Target(t, rows, n0), u)
  {
    AssignedDistinct(t, e, u, rows, n0, ops);
    TargetReplaces(t, e, u, rows, n0, ops);
    hide *;
    ReplacedLists(t, Target(t, rows, n0), u, Assigned(rows, n0, t.next));
  }

  /** ... and nobody else's row moved. */
  lemma TargetOthers(t: Table, e: Entity, u: nat, rows: seq<Row>, n0: nat, ops: seq<RowOp>)
    requires Pending(t, e, u, rows, n0, ops)
    ensures n0 <= |rows|
    ensures forall v :: v != u ==> UserRows(Target(t, rows, n0), v) == UserRows(t, v)
  {
    TargetReplaces(t, e, u, rows, n0, ops);
    hide *;
    ReplacedOthers(t, Target(t, rows, n0), u, Assigned(rows, n0, t.next));
  }

  lemma ReplacedLists(t: Table, t': Table, u: nat, a: seq<Row>)
    requires Replaced(t, t', u, a) && DistinctPk(a)
    ensures Lists(a, t', u)
  {
    hide Row.Owner, DistinctPk, Lists;
    ListsFromPointwise(a, t', u);
  }

  lemma ReplacedOthers(t: Table, t': Table, u: nat, a: seq<Row>)
    requires Replaced(t, t', u, a)
    ensures forall v :: v != u ==> UserRows(t', v) == UserRows(t, v)
  {
    hide Row.Owner;
    forall v | v != u
      ensures UserRows(t', v) == UserRows(t, v)
    {
      assert forall k :: k in UserRows(t, v) <==> k in UserRows(t', v);
    }
  }
}

// The sync field of a response: the changed items and assets, from which a client that mirrors the
// database by primary key follows it.
module Mirror {
  import opened Rows
  import opened TableRun
  import opened Calls
  import opened Queue
  import opened Request
  import opened Deferred

  /** pb.ItemData, pb.AssetData and pb.CardData. */
  datatype Data =
    | ItemData(idx: nat, itemType: nat, itemId: nat, amount: u64)
    | AssetData(idx: nat, assetId: nat, quantity: i64, lastRechargeTime: int)
    | CardData(idx: nat, userId: nat, cardId: nat, level: u16, details: seq<int>)

  type Client = map<nat, Data>

  /** The entities for which setup registers a model type and a sync builder. */
  predicate Synced(e: Entity) {
    e.Items? || e.Assets?
  }

  /** toItemData, toAssetData and toCardData. */
  function Send(r: Row): Data
    requires r.Kind() != Account
  {
    match r
    case ItemRow(pk, _, itemType, itemId, amount) => ItemData(pk, itemType, itemId, amount)
    case AssetRow(pk, _, assetId, quantity, lastRecharge) => AssetData(pk, assetId, quantity, lastRecharge)
    case CardRow(pk, userId, cardId, level, details) => CardData(pk, userId, cardId, level, details)
  }

  /** What a client shows that has user u's rows of the table, by idx. */
  ghost function Shows(t: Table, u: nat): Client {
    map k | k in t.rows && t.rows[k].Owner() == u && Synced(t.rows[k].Kind()) :: Send(t.rows[k])
  }

  /**
   * The client holds what table t holds of user u's items or assets, and nothing else: for every item row
   * its key, type, id and amount, for every asset row its key, id, quantity and recharge time.
   */
  ghost predicate Holds(c: Client, t: Table, u: nat) {
    && (forall k :: k in c <==> k in t.rows && ((t.rows[k].ItemRow? && t.rows[k].userId == u) || (t.rows[k].AssetRow? && t.rows[k].userId == u)))
    && (forall k :: k in c && t.rows[k].ItemRow? ==>
          c[k].ItemData? && c[k].idx == k && c[k].itemType == t.rows[k].itemType && c[k].itemId == t.rows[k].itemId && c[k].amount == t.rows[k].amount)
    && (forall k :: k in c && t.rows[k].AssetRow? ==>
          c[k].AssetData? && c[k].idx == k && c[k].assetId == t.rows[k].assetId && c[k].quantity == t.rows[k].quantity
          && c[k].lastRechargeTime == t.rows[k].lastRecharge)
  }

  lemma HoldsIsShows(c: Client, t: Table, u: nat, e: Entity)
    requires ValidTable(t, e) && Synced(e)
    ensures Holds(c, t, u) <==> c == Shows(t, u)
  {
    assert forall k :: k in t.rows ==> t.rows[k].pk == k && t.rows[k].Kind() == e;
    hide ValidTable;
    forall k | k in t.rows
      ensures t.rows[k].Owner() == t.rows[k].userId && (t.rows[k].ItemRow? || t.rows[k].AssetRow?)
    {
    }
    var s := Shows(t, u);
    if Holds(c, t, u) {
      forall k | k in c
        ensures k in s && s[k] == c[k]
      {
      }
      assert forall k :: k in s ==> k in c;
    }
  }

  /** The message has the row's key and the row's values. */
  predicate Tells(d: Data, r: Row) {
    && (r.ItemRow? ==> d.ItemData? && d.idx == r.pk && d.itemType == r.itemType && d.itemId == r.itemId && d.amount == r.amount)
    && (r.AssetRow? ==> d.AssetData? && d.idx == r.pk && d.assetId == r.assetId && d.quantity == r.quantity && d.lastRechargeTime == r.lastRecharge)
    && (r.CardRow? ==> d.CardData? && d.idx == r.pk && d.userId == r.userId && d.cardId == r.cardId && d.level == r.level && d.details == r.details)
    && !r.AccountRow?
  }

  /** The messages tell every row of user u in the table once, and nothing else. */
  ghost predicate TellsAll(list: seq<Data>, t: Table, u: nat) {
    && (forall i, j :: 0 <= i < j < |list| ==> list[i].idx != list[j].idx)
    && (forall i :: 0 <= i < |list| ==> list[i].idx in t.rows && t.rows[list[i].idx].Owner() == u && Tells(list[i], t.rows[list[i].idx]))
    && (forall k :: k in t.rows && t.rows[k].Owner() == u ==> exists i :: 0 <= i < |list| && list[i].idx == k)
  }

  lemma SendTells(r: Row)
    requires r.Kind() != Account
    ensures Tells(Send(r), r) && Send(r).idx == r.pk
  {
  }

  /** What is sent of the answer to a SELECT tells all of it. */
  lemma SentTellsAll(list: seq<Data>, rows: seq<Row>, t: Table, u: nat, e: Entity)
    requires ValidTable(t, e) && e != Account && Lists(rows, t, u) && |list| == |rows|
    requires forall i :: 0 <= i < |rows| ==> rows[i].Kind() != Account && list[i] == Send(rows[i])
    ensures TellsAll(list, t, u)
  {
    ListsPointwise(rows, t, u, e);
    hide Send, Tells, ValidTable, Row.Owner, Row.Kind, ByPk, UserRows;
    forall i | 0 <= i < |list|
      ensures list[i].idx == rows[i].pk && Tells(list[i], rows[i])
    {
      SendTells(rows[i]);
    }
  }

  /** The client takes in one list of the sync field. */
  function Overwrite(c: Client, list: seq<Data>): Client
    decreases |list|
  {
    if list == [] then c else Overwrite(c[list[0].idx := list[0]], list[1..])
  }

  /** `list` sends each changed object once, in some order, as it is in `rows`. */
  ghost predicate Ships(list: seq<Data>, order: seq<nat>, ops: seq<RowOp>, rows: seq<Row>) {
    && |list| == |order|
    && (forall i, j :: 0 <= i < j < |order| ==> order[i] != order[j])
    && (forall p :: p in order <==> Touched(ops, p))
    && (forall i :: 0 <= i < |order| ==> order[i] < |rows| && Synced(rows[order[i]].Kind()) && list[i] == Send(rows[order[i]]))
  }

  /** Where the list does not send k, the client keeps what it has; where it does, it shows what was sent. */
  lemma {:induction false} OverwriteAt(c: Client, list: seq<Data>, k: nat)
    requires forall i, j :: 0 <= i < j < |list| ==> list[i].idx != list[j].idx
    ensures forall i :: 0 <= i < |list| && list[i].idx == k ==> k in Overwrite(c, list) && Overwrite(c, list)[k] == list[i]
    ensures (forall i :: 0 <= i < |list| ==> list[i].idx != k) ==>
      (k in Overwrite(c, list) <==> k in c) && (k in c ==> Overwrite(c, list)[k] == c[k])
    decreases |list|
  {
    if list != [] {
      var rest := list[1..];
      assert forall i :: 0 <= i < |rest| ==> rest[i] == list[i + 1];
      OverwriteAt(c[list[0].idx := list[0]], rest, k);
      forall i | 0 <= i < |list| && list[i].idx == k
        ensures k in Overwrite(c, list) && Overwrite(c, list)[k] == list[i]
      {
        if 0 < i { assert rest[i - 1] == list[i]; }
      }
    }
  }

  lemma ShipsDistinct(list: seq<Data>, order: seq<nat>, ops: seq<RowOp>, a: seq<Row>)
    requires Ships(list, order, ops, a) && DistinctPk(a)
    ensures forall i, j :: 0 <= i < j < |list| ==> list[i].idx != list[j].idx
  {
    forall i, j | 0 <= i < j < |list|
      ensures list[i].idx != list[j].idx
    {
      var p, q := order[i], order[j];
      assert list[i].idx == a[p].pk && list[j].idx == a[q].pk;
      assert p < q || q < p;
    }
  }

  /** The row of object p: sent if the object changed, already shown if it did not. */
  lemma MirrorObject(t: Table, u: nat, ops: seq<RowOp>, a: seq<Row>, list: seq<Data>, order: seq<nat>, p: nat)
    requires Ships(list, order, ops, a) && DistinctPk(a) && p < |a|
    requires a[p].Owner() == u && Synced(a[p].Kind())
    requires Touched(ops, p) || (a[p].pk in t.rows && t.rows[a[p].pk] == a[p])
    ensures var c := Overwrite(Shows(t, u), list); a[p].pk in c && c[a[p].pk] == Send(a[p])
  {
    ShipsDistinct(list, order, ops, a);
    OverwriteAt(Shows(t, u), list, a[p].pk);
    hide Overwrite, Row.Kind, Row.Owner;
    if Touched(ops, p) {
      var i :| 0 <= i < |order| && order[i] == p;
      assert list[i] == Send(a[p]) && list[i].idx == a[p].pk;
    } else {
      hide Touched;
      forall i | 0 <= i < |list|
        ensures list[i].idx != a[p].pk
      {
        var q := order[i];
        assert q in order && Touched(ops, q) && list[i].idx == a[q].pk;
        assert q < p || p < q;
      }
    }
  }

  /** A row that is no object of the request is not the user's: the client neither has it nor gets it. */
  lemma MirrorOther(t: Table, u: nat, ops: seq<RowOp>, a: seq<Row>, list: seq<Data>, order: seq<nat>, k: nat)
    requires Ships(list, order, ops, a) && DistinctPk(a)
    requires k !in t.rows || t.rows[k].Owner() != u
    requires forall p :: 0 <= p < |a| ==> a[p].pk != k
    ensures k !in Overwrite(Shows(t, u), list)
  {
    ShipsDistinct(list, order, ops, a);
    OverwriteAt(Shows(t, u), list, k);
    hide Overwrite, Row.Owner, Row.Kind, Touched;
    forall i | 0 <= i < |list|
      ensures list[i].idx != k
    {
      assert list[i].idx == a[order[i]].pk;
    }
  }

  /** What Pending gives for the objects of a synced entity. */
  lemma SyncedObjects(t: Table, e: Entity, u: nat, rows: seq<Row>, n0: nat, ops: seq<RowOp>)
    requires Pending(t, e, u, rows, n0, ops) && Synced(e)
    ensures var a := Assigned(rows, n0, t.next);
      && DistinctPk(a)
      && (forall p :: 0 <= p < |a| ==> a[p].Owner() == u && Synced(a[p].Kind()))
      && (forall p :: 0 <= p < |a| ==> Touched(ops, p) || (a[p].pk in t.rows && t.rows[a[p].pk] == a[p]))
      && (forall k :: k in t.rows && t.rows[k].Owner() == u ==> exists p :: 0 <= p < |a| && a[p].pk == k)
  {
    AssignedDistinct(t, e, u, rows, n0, ops);
    PendingCovered(t, e, u, rows, n0, ops);
    var a := Assigned(rows, n0, t.next);
    hide Row.Owner, Row.Kind, Row.IndexKey, Covered, Ordered, DistinctKeys, ValidTable;
    forall k | k in t.rows && t.rows[k].Owner() == u
      ensures exists p :: 0 <= p < |a| && a[p].pk == k
    {
      var p :| 0 <= p < n0 && rows[p].pk == k;
      assert a[p].pk == k;
    }
  }

  /**
   * The client follows: overwriting what it shows of one table with the list the response carries
   * gives what the table holds for the user after the commit.
   */
  lemma ClientFollows(t: Table, e: Entity, u: nat, rows: seq<Row>, n0: nat, ops: seq<RowOp>, list: seq<Data>, order: seq<nat>)
    requires Pending(t, e, u, rows, n0, ops) && Synced(e)
    requires Ships(list, order, ops, Assigned(rows, n0, t.next))
    ensures n0 <= |rows|
    ensures Overwrite(Shows(t, u), list) == Shows(Target(t, rows, n0), u)
  {
    var a := Assigned(rows, n0, t.next);
    TargetReplaces(t, e, u, rows, n0, ops);
    SyncedObjects(t, e, u, rows, n0, ops);
    hide *;
    ReplacedFollows(t, Target(t, rows, n0), u, ops, a, list, order);
  }

  lemma ReplacedFollows(t: Table, t': Table, u: nat, ops: seq<RowOp>, a: seq<Row>, list: seq<Data>, order: seq<nat>)
    requires Replaced(t, t', u, a) && DistinctPk(a) && Ships(list, order, ops, a)
    requires forall p :: 0 <= p < |a| ==> a[p].Owner() == u && Synced(a[p].Kind())
    requires forall p :: 0 <= p < |a| ==> Touched(ops, p) || (a[p].pk in t.rows && t.rows[a[p].pk] == a[p])
    requires forall k :: k in t.rows && t.rows[k].Owner() == u ==> exists p :: 0 <= p < |a| && a[p].pk == k
    ensures Overwrite(Shows(t, u), list) == Shows(t', u)
  {
    hide Ships, Overwrite, DistinctPk, Touched, Row.Owner, Row.Kind;
    var c, c' := Overwrite(Shows(t, u), list), Shows(t', u);
    forall k: nat
      ensures k in c <==> k in c'
      ensures k in c' ==> k in c && c[k] == c'[k]
    {
      if p :| 0 <= p < |a| && a[p].pk == k {
        MirrorObject(t, u, ops, a, list, order, p);
      } else {
        MirrorOther(t, u, ops, a, list, order, k);
      }
    }
  }

  /** The sync field lists, for one entity, the changed objects of the request as committed. */
  ghost predicate Carries(list: seq<Data>, r: Req, tabs: Tables, rt: Route, e: Entity)
    requires BaseOk(r)
  {
    if e in r.store then
      exists order: seq<nat> :: Ships(list, order, Proj(r.ops, e), AssignedStore(r, tabs, rt)[e])
    else list == []
  }

  /** Both tables of an entity are valid. */
  lemma ValidAfter(trace: seq<Event>, tabs: Tables, u: nat, rt: Route, e: Entity)
    requires ValidTables(tabs, rt) && Sound(trace, tabs, u, rt)
    ensures rt.Id(e) in tabs && rt.Id(e) in Direct(tabs, CallsOf(trace), u, rt)
    ensures ValidTable(tabs[rt.Id(e)], e) && ValidTable(Direct(tabs, CallsOf(trace), u, rt)[rt.Id(e)], e)
  {
    var r, id := Replay(trace, u, rt), rt.Id(e);
    TraceMeansDirect(trace, tabs, u, rt);
    ValidAt(tabs, rt, e);
    hide Replay, Sound, Direct, Proj, Target, ValidTable, ValidTables, CallsOf, Pending;
    if e in r.store {
      assert PendingAt(r, tabs, u, rt, e);
      TargetValid(tabs[id], e, u, r.store[e], r.base[e], Proj(r.ops, e));
    }
  }

  lemma {:induction false} SyncShows(trace: seq<Event>, tabs: Tables, u: nat, rt: Route, e: Entity, list: seq<Data>)
    requires ValidTables(tabs, rt) && Sound(trace, tabs, u, rt) && Synced(e)
    requires BaseOk(Replay(trace, u, rt)) && Carries(list, Replay(trace, u, rt), tabs, rt, e)
    ensures var id := rt.Id(e);
      var after := Direct(tabs, CallsOf(trace), u, rt);
      && id in tabs && id in after
      && Overwrite(Shows(tabs[id], u), list) == Shows(after[id], u)
  {
    var r, id := Replay(trace, u, rt), rt.Id(e);
    TraceMeansDirect(trace, tabs, u, rt);
    assert id in tabs && At(tabs, id) == tabs[id];
    hide Replay, Sound, Direct, Pending, Proj, Assigned, Target, Ships, ValidTable, Shows, ValidTables, CallsOf;
    if e in r.store {
      assert PendingAt(r, tabs, u, rt, e);
      var order: seq<nat> :| Ships(list, order, Proj(r.ops, e), AssignedStore(r, tabs, rt)[e]);
      ClientFollows(tabs[id], e, u, r.store[e], r.base[e], Proj(r.ops, e), list, order);
    }
  }

  /**
   * For any sound trace, committed without a database fault: a client that held the user's items (or
   * assets) as the database had them holds them, field by field, as the database has them after taking in
   * the response.
   */
  lemma {:induction false} SyncMirrors(trace: seq<Event>, tabs: Tables, u: nat, rt: Route, e: Entity, list: seq<Data>, c: Client)
    requires ValidTables(tabs, rt) && Sound(trace, tabs, u, rt) && Synced(e)
    requires BaseOk(Replay(trace, u, rt)) && Carries(list, Replay(trace, u, rt), tabs, rt, e)
    requires rt.Id(e) in tabs && Holds(c, tabs[rt.Id(e)], u)
    ensures rt.Id(e) in Direct(tabs, CallsOf(trace), u, rt)
    ensures Holds(Overwrite(c, list), Direct(tabs, CallsOf(trace), u, rt)[rt.Id(e)], u)
  {
    hide Replay, Sound, Direct, CallsOf, Holds, Shows, Overwrite, Carries, ValidTable, ValidTables, BaseOk;
    SyncShows(trace, tabs, u, rt, e, list);
    ValidAfter(trace, tabs, u, rt, e);
    HoldsIsShows(c, tabs[rt.Id(e)], u, e);
    HoldsIsShows(Overwrite(c, list), Direct(tabs, CallsOf(trace), u, rt)[rt.Id(e)], u, e);
  }
}

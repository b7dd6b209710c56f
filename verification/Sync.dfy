// Collecting the changed objects of a committed request into the sync field of the response.
module Sync {
  import opened Rows
  import opened TableRun
  import opened Calls
  import opened Queue
  import opened Request
  import opened Deferred
  import opened Mirror
  import opened Units

  /** pb.SyncData. */
  datatype SyncData = SyncData(items: seq<Data>, assets: seq<Data>) {
    function Of(e: Entity): seq<Data> {
      match e
      case Items => items
      case Assets => assets
      case _ => []
    }
  }

  predicate Distinct(ms: seq<Model>) {
    forall i, j :: 0 <= i < j < |ms| ==> ms[i] != ms[j]
  }

  /** `out` lists the dirty structs by entity, each once. */
  ghost predicate ByEntity(dirty: set<Model>, out: map<Entity, seq<Model>>) {
    && (forall e :: e in out ==> Distinct(out[e]) && out[e] != [])
    && (forall e, m :: e in out && m in out[e] ==> m in dirty && m.home.0 == e)
    && (forall m :: m in dirty ==> m.home.0 in out && m in out[m.home.0])
  }

  lemma ByEntitySnoc(dirty: set<Model>, out: map<Entity, seq<Model>>, m: Model)
    requires ByEntity(dirty, out) && m !in dirty
    ensures var e := m.home.0; ByEntity(dirty + {m}, out[e := (if e in out then out[e] else []) + [m]])
  {
    var e := m.home.0;
    var list := (if e in out then out[e] else []) + [m];
    assert list[|list| - 1] == m && forall x :: x in list <==> x == m || (e in out && x in out[e]);
  }

  /** The structs marked dirty, by the entity their type is registered for; the set is ranged over in any order. */
  method Dirty(dirty: set<Model>) returns (out: map<Entity, seq<Model>>)
    requires forall m :: m in dirty ==> m.row.Kind() == m.home.0
    ensures ByEntity(dirty, out)
  {
    out := map[];
    var left := dirty;
    while left != {}
      invariant left <= dirty && ByEntity(dirty - left, out)
      decreases |left|
    {
      var m: Model :| m in left;
      ByEntitySnoc(dirty - left, out, m);
      hide ByEntity;
      assert dirty - left + {m} == dirty - (left - {m});
      var e := m.row.Kind();
      out := out[e := (if e in out then out[e] else []) + [m]];
      left := left - {m};
    }
    assert dirty - left == dirty;
  }

  /** A registered builder: appends one message per struct, with its current values. */
  method Build(ms: seq<Model>) returns (list: seq<Data>)
    requires forall i :: 0 <= i < |ms| ==> Synced(ms[i].row.Kind())
    ensures |list| == |ms| && forall i :: 0 <= i < |ms| ==> Synced(ms[i].row.Kind()) && list[i] == Send(ms[i].row)
    ensures forall i :: 0 <= i < |ms| ==>
      var r := ms[i].row;
      && (r.ItemRow? ==> list[i] == ItemData(idx := r.pk, itemType := r.itemType, itemId := r.itemId, amount := r.amount))
      && (r.AssetRow? ==> list[i] == AssetData(idx := r.pk, assetId := r.assetId, quantity := r.quantity, lastRechargeTime := r.lastRecharge))
  {
    list := BuildAll(ms);
  }

  method BuildAll(ms: seq<Model>) returns (list: seq<Data>)
    requires forall i :: 0 <= i < |ms| ==> ms[i].row.Kind() != Account
    ensures |list| == |ms| && forall i :: 0 <= i < |ms| ==> ms[i].row.Kind() != Account && list[i] == Send(ms[i].row)
  {
    hide Send;
    list := [];
    var i := 0;
    while i < |ms|
      invariant 0 <= i == |list| <= |ms|
      invariant forall j :: 0 <= j < i ==> list[j] == Send(ms[j].row)
    {
      list := list + [Send(ms[i].row)];
      i := i + 1;
    }
  }

  /** list sends the structs of one entity, in order. */
  ghost predicate Sends(list: seq<Data>, ms: seq<Model>)
    reads ms
  {
    |list| == |ms| && forall i :: 0 <= i < |ms| ==> Synced(ms[i].row.Kind()) && list[i] == Send(ms[i].row)
  }

  /** The structs listed for e, or none. */
  function Listed(out: map<Entity, seq<Model>>, e: Entity): seq<Model> {
    if e in out then out[e] else []
  }

  lemma SendsNothing(list: seq<Data>)
    ensures Sends(list, []) <==> list == []
  {
  }

  /** Structs of an entity, under its own name. */
  ghost predicate Named(ms: seq<Model>, e: Entity)
    reads ms
  {
    forall i :: 0 <= i < |ms| ==> ms[i].row.Kind() == e
  }

  lemma NamedOne(dirty: set<Model>, out: map<Entity, seq<Model>>, e: Entity, i: nat)
    requires ByEntity(dirty, out) && e in out && i < |out[e]|
    requires forall m :: m in dirty ==> m.row.Kind() == m.home.0
    ensures out[e][i].row.Kind() == e
  {
    hide Row.Kind, Distinct;
    var m := out[e][i];
    assert m in out[e];
    assert m in dirty && m.home.0 == e;
  }

  lemma NamedList(dirty: set<Model>, out: map<Entity, seq<Model>>, ms: seq<Model>, e: Entity)
    requires ByEntity(dirty, out) && e in out && ms == out[e]
    requires forall m :: m in dirty ==> m.row.Kind() == m.home.0
    ensures Named(ms, e)
  {
    hide Row.Kind, ByEntity;
    forall i: nat | i < |ms|
      ensures ms[i].row.Kind() == e
    {
      NamedOne(dirty, out, e, i);
    }
  }

  lemma NamedEach(dirty: set<Model>, out: map<Entity, seq<Model>>)
    requires ByEntity(dirty, out)
    requires forall m :: m in dirty ==> m.row.Kind() == m.home.0
    ensures forall e :: e in out ==> Named(out[e], e)
  {
    hide Row.Kind, ByEntity, Named;
    forall e | e in out
      ensures Named(out[e], e)
    {
      NamedList(dirty, out, out[e], e);
    }
  }

  /** BuildSyncData: one list per entity with a registered builder, or nothing when no builder got a struct. */
  method BuildSyncData(out: map<Entity, seq<Model>>) returns (sync: Option<SyncData>)
    requires forall e :: e in out ==> Named(out[e], e)
    ensures sync.None? <==> forall e :: e in out && Synced(e) ==> out[e] == []
    ensures sync.Some? ==> Sends(sync.value.items, Listed(out, Items)) && Sends(sync.value.assets, Listed(out, Assets))
  {
    if |out| == 0 { return None; }
    var data := SyncData([], []);
    var nonEmpty := false;
    var left := out.Keys;
    while left != {}
      invariant left <= out.Keys
      invariant Sends(data.items, if Items in left then [] else Listed(out, Items))
      invariant Sends(data.assets, if Assets in left then [] else Listed(out, Assets))
      invariant !nonEmpty <==> forall e :: e in out && e !in left && Synced(e) ==> out[e] == []
      decreases |left|
    {
      var e: Entity :| e in left;
      left := left - {e};
      if out[e] == [] { continue; }
      if Synced(e) {
        var list := Build(out[e]);
        assert Sends(list, out[e]);
        SendsNothing(data.items);
        SendsNothing(data.assets);
        hide Sends;
        if e == Items {
          data := data.(items := data.items + list);
          assert data.items == list;
        } else {
          data := data.(assets := data.assets + list);
          assert data.assets == list;
        }
        nonEmpty := true;
      }
    }
    sync := if nonEmpty then Some(data) else None;
  }

  /** What the response carries for e is what the request changed of e, as committed. */
  lemma CarriesBuilt(dirty: set<Model>, out: map<Entity, seq<Model>>, objects: set<Model>, store: Lists, r: Req, rows: Store, list: seq<Data>, e: Entity)
    requires ByEntity(dirty, out) && DirtyIs(dirty, r.ops, store) && Placed(store) && Reads(objects, store, rows) && Synced(e)
    requires store.Keys == rows.Keys && e in store && |store[e]| == |rows[e]|
    requires forall q :: q in r.ops ==> Queue.Held(q, rows)
    requires Sends(list, Listed(out, e))
    ensures exists order: seq<nat> :: Ships(list, order, Proj(r.ops, e), rows[e])
  {
    var ms := Listed(out, e);
    hide Row.Kind, Send, Proj;
    forall i | 0 <= i < |ms|
      ensures ObjectAt(store, e, ms[i].home.1) == Some(ms[i]) && Touched(Proj(r.ops, e), ms[i].home.1) && ms[i].home.0 == e
    {
      assert ms[i] in out[e];
    }
    var order := seq(|ms|, i requires 0 <= i < |ms| => ms[i].home.1);
    forall p: nat
      ensures p in order <==> Touched(Proj(r.ops, e), p)
    {
      if Touched(Proj(r.ops, e), p) {
        TouchedHeld(r.ops, rows, e, p);
        assert store[e][p] in dirty && store[e][p].home == (e, p);
        var i :| 0 <= i < |ms| && ms[i] == store[e][p];
        assert order[i] == p;
      }
    }
    assert Ships(list, order, Proj(r.ops, e), rows[e]);
  }

  lemma {:induction false} TouchedHeld(ops: seq<QueuedOp>, rows: Store, e: Entity, p: nat)
    requires Touched(Proj(ops, e), p) && forall q :: q in ops ==> Queue.Held(q, rows)
    ensures e in rows && p < |rows[e]|
    decreases |ops|
  {
    var front, q := ops[..|ops| - 1], ops[|ops| - 1];
    assert q in ops;
    if !(q.entity == e && q.op.pos == p) {
      assert Touched(Proj(front, e), p) by {
        var i :| 0 <= i < |Proj(ops, e)| && Proj(ops, e)[i].pos == p;
        assert Proj(front, e)[i].pos == p;
      }
      TouchedHeld(front, rows, e, p);
    }
  }
}

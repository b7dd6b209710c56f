// The services: scan a loaded list, change the struct found in place, and queue the write.
module Services {
  import opened Rows
  import opened TableRun
  import opened Calls
  import opened Queue
  import opened Request
  import opened Balance
  import opened Units

  datatype ServiceError =
    | Fine
    | NotAvailable(why: LoadError)
    | NotFoundDesign
    | ItemNotFound
    | ItemInsufficient
    | AssetNotFound
    | AssetInsufficient
    | CardNotFound

  lemma {:induction false} FindIs(rows: seq<Row>, call: Call, p: nat)
    requires p <= |rows| && (p < |rows| ==> call.Hits(rows[p])) && forall i :: 0 <= i < p ==> !call.Hits(rows[i])
    ensures Calls.Find(rows, call) == p
  {
    if p > 0 { FindIs(rows[1..], call, p - 1); }
  }

  /** What a service call leaves of a unit of work: nothing called, or the call made and accepted or refused. */
  twostate predicate Answered(u: UnitOfWork, call: Call, err: ServiceError)
    reads u
  {
    && u.userId == old(u.userId) && u.now.rt == old(u.now.rt)
    && (err.NotAvailable? <==> call.Kind() !in u.store)
    && CallsOf(u.now.trace) == old(CallsOf(u.now.trace)) + (if err.NotAvailable? then [] else [call])
    && Accepted(u.now.trace, u.userId, u.now.rt) == old(Accepted(u.now.trace, u.userId, u.now.rt)) + (if err.Fine? then [call] else [])
  }

  /**
   * While Redis and the databases answer, no list fails to load. Unless the account is unknown and does
   * not load, no write is queued for a nil database and no list is loaded from one.
   */
  twostate predicate Healthy(u: UnitOfWork, flaky: bool, err: ServiceError)
    reads u
  {
    && (!flaky && u.userId != 0 ==> !err.NotAvailable?)
    && ((!flaky || Account in old(u.store)) && NoNil(old(u.dbOps)) ==> NoNil(u.dbOps))
    && (err == NotAvailable(NilDatabase) ==> Account !in old(u.store))
  }

  /** Every list that was loaded is a prefix of what it is now: the same objects, then created ones. */
  twostate predicate Grows(u: UnitOfWork)
    reads u
  {
    && (forall f :: f in old(u.store) ==> f in u.store && old(u.store)[f] <= u.store[f])
    && old(u.now.objects) <= u.now.objects && fresh(u.now.objects - old(u.now.objects))
  }

  /** The struct the scan ends at: the first that the call is about. */
  ghost predicate Scanned(store: Lists, rows: Store, call: Call, found: Model?) {
    var e := call.Kind();
    && e in store && e in rows && |store[e]| == |rows[e]|
    && var p := Calls.Find(rows[e], call);
    found == if p < |rows[e]| then store[e][p] else null
  }

  /** What a valid unit of work knows of a list it holds. */
  lemma ListFacts(u: UnitOfWork, e: Entity)
    requires u.Consistent() && e in u.store
    ensures e in u.now.req.store && |u.now.req.store[e]| == |u.store[e]|
    ensures forall i :: 0 <= i < |u.store[e]| ==> u.store[e][i].row == u.now.req.store[e][i] && u.store[e][i].row.Kind() == e
  {
    hide Follows, Container.Valid, Row.Kind, Placed, Linked, DirtyIs;
  }

  /** What is known of the struct the scan found, before it is changed. */
  lemma FoundFacts(u: UnitOfWork, call: Call, found: Model)
    requires u.Valid() && Scanned(u.store, u.now.req.store, call, found)
    ensures u.Writable(found) && found in u.now.objects && call.Kind() in u.store && call.Kind() in u.now.req.store
    ensures var e, rows := call.Kind(), u.now.req.store;
      var p := Calls.Find(rows[e], call);
      && p < |rows[e]| && ObjectAt(u.store, e, p) == Some(found) && rows[e][p] == found.row && call.Hits(found.row)
  {
    u.CanWrite(found);
    hide Steady, Follows, Container.Valid, Row.Kind, Call.Hits, Call.Kind, Calls.Find;
  }

  /** What is known when the scan found nothing. */
  lemma AbsentFacts(u: UnitOfWork, call: Call)
    requires u.Valid() && Scanned(u.store, u.now.req.store, call, null)
    ensures var e, rows := call.Kind(), u.now.req.store;
      && e in u.store && e in rows && |u.store[e]| == |rows[e]|
      && Missing(u, call)
      && OnList(rows[e], call, u.userId) ==
         match call.Fresh(u.userId) case None => (rows[e], None) case Some(r) => (rows[e] + [r], Some(RowOp(InsertOp, |rows[e]|)))
  {
    hide Steady, Follows, Container.Valid, Reads, Call.Hits, Call.Kind, Call.Fresh, Calls.Find;
  }

  /** A found struct that the call may not change. */
  lemma RefusedFacts(u: UnitOfWork, call: Call, found: Model)
    requires u.Valid() && Scanned(u.store, u.now.req.store, call, found) && call.Hits(found.row) && call.Change(found.row).None?
    ensures var e, rows := call.Kind(), u.now.req.store; e in rows && OnList(rows[e], call, u.userId) == (rows[e], None)
  {
    FoundFacts(u, call, found);
    hide Steady, Follows, Container.Valid, Reads, Call.Hits, Call.Kind, Call.Fresh, Calls.Find, Call.Change;
  }

  /** The user has no row the call could be about. */
  ghost predicate Missing(u: UnitOfWork, call: Call)
    reads u
  {
    var e, rows := call.Kind(), u.now.req.store;
    e in rows && Calls.Find(rows[e], call) == |rows[e]|
  }

  class ItemService {
    constructor () {
    }

    method GetItem(u: UnitOfWork, itemId: nat, flaky: bool, ghost call: Call) returns (err: LoadError, item: Model?)
      requires u.Valid() && (call.AddItem? || call.ConsumeItem?) && call.itemId == itemId
      modifies u, u.c.users
      ensures u.Valid() && u.OnlyLoaded()
      ensures err == NoError <==> Items in u.store
      ensures !flaky && u.userId != 0 ==> err == NoError
      ensures err == NilDatabase ==> Account !in old(u.store)
      ensures if err == NoError then Scanned(u.store, u.now.req.store, call, item) else item == null
    {
      hide UnitOfWork.Consistent, Calls.Find, Row.Kind, Call.Hits;
      var items: seq<Model>;
      err, items := u.LoadList(Items, flaky);
      if err != NoError { return err, null; }
      ListFacts(u, Items);
      ghost var rows := u.now.req.store[Items];
      var i := 0;
      while i < |items|
        invariant 0 <= i <= |items|
        invariant forall j :: 0 <= j < i ==> !call.Hits(rows[j])
        modifies {}
      {
        ItemHits(call, rows[i]);
        if items[i].row.itemId == itemId {
          FindIs(rows, call, i);
          return NoError, items[i];
        }
        i := i + 1;
      }
      FindIs(rows, call, i);
      return NoError, null;
    }

    method AddItem(u: UnitOfWork, itemId: nat, amount: u64, design: Option<nat>, flaky: bool) returns (err: ServiceError)
      requires u.Valid()
      modifies u, u.now.objects, u.c.users
      ensures u.Valid() && Answered(u, Call.AddItem(itemId, amount, design), err) && Grows(u)
      ensures Healthy(u, flaky, err)
      ensures err.Fine? || err.NotAvailable? || (err == NotFoundDesign && design == None)
    {
      hide UnitOfWork.Valid, OnList, Scanned, Accepted, CallsOf, Call.Hits, Call.Change, UnitOfWork.Announceable, UnitOfWork.Writable;
      ghost var call := Call.AddItem(itemId, amount, design);
      var why, item := GetItem(u, itemId, flaky, call);
      if why != NoError { return NotAvailable(why); }
      if item != null {
        FoundFacts(u, call, item);
        ItemChange(call, item.row);
        item.row := item.row.(amount := (item.row.amount + amount) % U64);
        u.Written(item, call);
        u.Update(Items, item, flaky, call);
        return Fine;
      }
      AbsentFacts(u, call);
      if design.None? {
        u.Refuse(call);
        return NotFoundDesign;
      }
      var made := new Model(ItemRow(0, u.userId, design.value % U16, itemId, amount), (Items, |u.store[Items]|));
      u.Create(Items, made, flaky, call);
      return Fine;
    }

    method ConsumeItem(u: UnitOfWork, itemId: nat, amount: u64, flaky: bool) returns (err: ServiceError)
      requires u.Valid()
      modifies u, u.now.objects, u.c.users
      ensures u.Valid() && Answered(u, Call.ConsumeItem(itemId, amount), err) && Grows(u)
      ensures Healthy(u, flaky, err)
      ensures err.Fine? || err.NotAvailable? || err == ItemNotFound || err == ItemInsufficient
      ensures err == ItemNotFound ==> Missing(u, Call.ConsumeItem(itemId, amount))
      ensures err == ItemInsufficient ==> !Missing(u, Call.ConsumeItem(itemId, amount))
    {
      hide UnitOfWork.Valid, OnList, Scanned, Accepted, CallsOf, Call.Hits, Call.Change, UnitOfWork.Announceable, UnitOfWork.Writable;
      ghost var call := Call.ConsumeItem(itemId, amount);
      var why, item := GetItem(u, itemId, flaky, call);
      if why != NoError { return NotAvailable(why); }
      if item == null {
        AbsentFacts(u, call);
        u.Refuse(call);
        return ItemNotFound;
      }
      FoundFacts(u, call, item);
      ItemChange(call, item.row);
      if item.row.amount < amount {
        RefusedFacts(u, call, item);
        u.Refuse(call);
        return ItemInsufficient;
      }
      item.row := item.row.(amount := item.row.amount - amount);
      u.Written(item, call);
      u.Update(Items, item, flaky, call);
      return Fine;
    }
  }

  lemma ItemHits(call: Call, r: Row)
    requires (call.AddItem? || call.ConsumeItem?) && r.Kind() == Items
    ensures r.ItemRow? && (call.Hits(r) <==> r.itemId == call.itemId)
  {
  }

  lemma ItemChange(call: Call, r: Row)
    requires (call.AddItem? || call.ConsumeItem?) && call.Hits(r)
    ensures r.ItemRow? && call.Change(r) ==
      if call.AddItem? then Some(r.(amount := (r.amount + call.amount) % U64))
      else if r.amount < call.amount then None
      else Some(r.(amount := r.amount - call.amount))
  {
  }

  class AssetService {
    constructor () {
    }

    method GetAsset(u: UnitOfWork, assetId: nat, flaky: bool, ghost call: Call) returns (err: LoadError, asset: Model?)
      requires u.Valid() && (call.AddAsset? || call.ConsumeAsset?) && call.assetId == assetId
      modifies u, u.c.users
      ensures u.Valid() && u.OnlyLoaded()
      ensures err == NoError <==> Assets in u.store
      ensures !flaky && u.userId != 0 ==> err == NoError
      ensures err == NilDatabase ==> Account !in old(u.store)
      ensures if err == NoError then Scanned(u.store, u.now.req.store, call, asset) else asset == null
    {
      hide UnitOfWork.Consistent, Calls.Find, Row.Kind, Call.Hits;
      var assets: seq<Model>;
      err, assets := u.LoadList(Assets, flaky);
      if err != NoError { return err, null; }
      ListFacts(u, Assets);
      ghost var rows := u.now.req.store[Assets];
      var i := 0;
      while i < |assets|
        invariant 0 <= i <= |assets|
        invariant forall j :: 0 <= j < i ==> !call.Hits(rows[j])
        modifies {}
      {
        AssetHits(call, rows[i]);
        if assets[i].row.assetId == assetId {
          FindIs(rows, call, i);
          return NoError, assets[i];
        }
        i := i + 1;
      }
      FindIs(rows, call, i);
      return NoError, null;
    }

    method AddAsset(u: UnitOfWork, assetId: nat, quantity: i64, flaky: bool) returns (err: ServiceError)
      requires u.Valid()
      modifies u, u.now.objects, u.c.users
      ensures u.Valid() && Answered(u, Call.AddAsset(assetId, quantity), err) && Grows(u)
      ensures Healthy(u, flaky, err)
      ensures err.Fine? || err.NotAvailable?
    {
      hide UnitOfWork.Valid, OnList, Scanned, Accepted, CallsOf, Call.Hits, Call.Change, UnitOfWork.Announceable, UnitOfWork.Writable;
      ghost var call := Call.AddAsset(assetId, quantity);
      var why, asset := GetAsset(u, assetId, flaky, call);
      if why != NoError { return NotAvailable(why); }
      if asset == null {
        AbsentFacts(u, call);
        var made := new Model(AssetRow(0, u.userId, assetId, quantity, 0), (Assets, |u.store[Assets]|));
        u.Create(Assets, made, flaky, call);
        return Fine;
      }
      FoundFacts(u, call, asset);
      AssetChange(call, asset.row);
      asset.row := asset.row.(quantity := WrapI64(asset.row.quantity + quantity));
      u.Written(asset, call);
      u.Update(Assets, asset, flaky, call);
      return Fine;
    }

    method ConsumeAsset(u: UnitOfWork, assetId: nat, quantity: i64, flaky: bool) returns (err: ServiceError)
      requires u.Valid()
      modifies u, u.now.objects, u.c.users
      ensures u.Valid() && Answered(u, Call.ConsumeAsset(assetId, quantity), err) && Grows(u)
      ensures Healthy(u, flaky, err)
      ensures err.Fine? || err.NotAvailable? || err == AssetNotFound || err == AssetInsufficient
      ensures err == AssetNotFound ==> Missing(u, Call.ConsumeAsset(assetId, quantity))
      ensures err == AssetInsufficient ==> !Missing(u, Call.ConsumeAsset(assetId, quantity))
    {
      hide UnitOfWork.Valid, OnList, Scanned, Accepted, CallsOf, Call.Hits, Call.Change, UnitOfWork.Announceable, UnitOfWork.Writable;
      ghost var call := Call.ConsumeAsset(assetId, quantity);
      var why, asset := GetAsset(u, assetId, flaky, call);
      if why != NoError { return NotAvailable(why); }
      if asset == null {
        AbsentFacts(u, call);
        u.Refuse(call);
        return AssetNotFound;
      }
      FoundFacts(u, call, asset);
      AssetChange(call, asset.row);
      if asset.row.quantity < quantity {
        RefusedFacts(u, call, asset);
        u.Refuse(call);
        return AssetInsufficient;
      }
      asset.row := asset.row.(quantity := WrapI64(asset.row.quantity - quantity));
      u.Written(asset, call);
      u.Update(Assets, asset, flaky, call);
      return Fine;
    }
  }

  lemma AssetHits(call: Call, r: Row)
    requires (call.AddAsset? || call.ConsumeAsset?) && r.Kind() == Assets
    ensures r.AssetRow? && (call.Hits(r) <==> r.assetId == call.assetId)
  {
  }

  lemma AssetChange(call: Call, r: Row)
    requires (call.AddAsset? || call.ConsumeAsset?) && call.Hits(r)
    ensures r.AssetRow? && call.Change(r) ==
      if call.AddAsset? then Some(r.(quantity := WrapI64(r.quantity + call.quantity)))
      else if r.quantity < call.quantity then None
      else Some(r.(quantity := WrapI64(r.quantity - call.quantity)))
  {
  }

  class CardService {
    constructor () {
    }

    method GetCard(u: UnitOfWork, cardIdx: nat, flaky: bool) returns (err: LoadError, card: Model?)
      requires u.Valid()
      modifies u, u.c.users
      ensures u.Valid() && u.OnlyLoaded()
      ensures err == NoError <==> Cards in u.store
      ensures !flaky && u.userId != 0 ==> err == NoError
      ensures err == NilDatabase ==> Account !in old(u.store)
      ensures if err == NoError then Scanned(u.store, u.now.req.store, Call.UpgradeCard(cardIdx), card) else card == null
    {
      hide UnitOfWork.Consistent, Calls.Find, Row.Kind, Call.Hits;
      ghost var call := Call.UpgradeCard(cardIdx);
      var cards: seq<Model>;
      err, cards := u.LoadList(Cards, flaky);
      if err != NoError { return err, null; }
      ListFacts(u, Cards);
      ghost var rows := u.now.req.store[Cards];
      var i := 0;
      while i < |cards|
        invariant 0 <= i <= |cards|
        invariant forall j :: 0 <= j < i ==> !call.Hits(rows[j])
        modifies {}
      {
        CardHits(call, rows[i]);
        if cards[i].row.pk == cardIdx {
          FindIs(rows, call, i);
          return NoError, cards[i];
        }
        i := i + 1;
      }
      FindIs(rows, call, i);
      return NoError, null;
    }
  }

  lemma CardHits(call: Call, r: Row)
    requires call.UpgradeCard? && r.Kind() == Cards
    ensures r.CardRow? && (call.Hits(r) <==> r.pk == call.cardIdx)
  {
  }

  lemma CardChange(call: Call, r: Row)
    requires call.UpgradeCard? && call.Hits(r)
    ensures r.CardRow? && call.Change(r) == Some(r.(level := (r.level + 1) % U16))
  {
  }
}

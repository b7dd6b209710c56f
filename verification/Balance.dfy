// What the accepted service calls of a request add up to, per item and per asset.
module Balance {
  import opened Rows
  import opened TableRun
  import opened Calls
  import opened Queue
  import opened Request
  import opened Deferred

  /** An item by ItemID, or an asset by AssetID. */
  datatype Holding = ItemHolding(id: nat) | AssetHolding(id: nat) {
    function Kind(): Entity {
      if ItemHolding? then Items else Assets
    }

    predicate Of(r: Row) {
      match this
      case ItemHolding(id) => r.ItemRow? && r.itemId == id
      case AssetHolding(id) => r.AssetRow? && r.assetId == id
    }

    /** uint64 for items, int64 for assets. */
    function Wrap(n: int): int {
      if ItemHolding? then n % U64 else WrapI64(n)
    }

    /** How much a call that was accepted puts in (or, negative, takes out). */
    function Flow(call: Call): int {
      match this
      case ItemHolding(id) =>
        if call.AddItem? && call.itemId == id then call.amount
        else if call.ConsumeItem? && call.itemId == id then 0 as int - call.amount
        else 0
      case AssetHolding(id) =>
        if call.AddAsset? && call.assetId == id then call.quantity
        else if call.ConsumeAsset? && call.assetId == id then 0 as int - call.quantity
        else 0
    }
  }

  function Worth(r: Row): int {
    match r
    case ItemRow(_, _, _, _, amount) => amount
    case AssetRow(_, _, _, quantity, _) => quantity
    case _ => 0
  }

  /** What the list holds of h: the amount of the first such row, or nothing. */
  function Amount(rows: seq<Row>, h: Holding): int {
    if rows == [] then 0
    else if h.Of(rows[0]) then Worth(rows[0])
    else Amount(rows[1..], h)
  }

  /** The calls of a trace that the services accepted, that is, that changed something. */
  function Accepted(trace: seq<Event>, u: nat, rt: Route): seq<Call> {
    if trace == [] then []
    else
      var front, ev := trace[..|trace| - 1], trace[|trace| - 1];
      var r := Replay(front, u, rt);
      Accepted(front, u, rt) +
      if ev.Make? && ev.call.Kind() in r.store && OnList(r.store[ev.call.Kind()], ev.call, u).1.Some? then [ev.call] else []
  }

  function Net(calls: seq<Call>, h: Holding): int {
    if calls == [] then 0 else Net(calls[..|calls| - 1], h) + h.Flow(calls[|calls| - 1])
  }

  lemma {:induction false} HeldAt(rows: seq<Row>, h: Holding, p: nat)
    requires p < |rows| && h.Of(rows[p]) && forall i :: 0 <= i < p ==> !h.Of(rows[i])
    ensures Amount(rows, h) == Worth(rows[p])
  {
    if p > 0 { HeldAt(rows[1..], h, p - 1); }
  }

  lemma {:induction false} HeldNone(rows: seq<Row>, h: Holding)
    requires forall i :: 0 <= i < |rows| ==> !h.Of(rows[i])
    ensures Amount(rows, h) == 0
  {
    if rows != [] { HeldNone(rows[1..], h); }
  }

  /** Lists that differ only at rows that are not of h hold the same of h. */
  lemma {:induction false} HeldSame(rows: seq<Row>, rows': seq<Row>, h: Holding)
    requires |rows'| == |rows|
    requires forall i :: 0 <= i < |rows| ==> h.Of(rows'[i]) == h.Of(rows[i]) && (h.Of(rows[i]) ==> Worth(rows'[i]) == Worth(rows[i]))
    ensures Amount(rows', h) == Amount(rows, h)
  {
    if rows != [] { HeldSame(rows[1..], rows'[1..], h); }
  }

  lemma {:induction false} HeldSnoc(rows: seq<Row>, r: Row, h: Holding)
    requires !h.Of(r) || forall i :: 0 <= i < |rows| ==> !h.Of(rows[i])
    ensures Amount(rows + [r], h) == if h.Of(r) then Worth(r) else Amount(rows, h)
  {
    if rows != [] {
      assert (rows + [r])[1..] == rows[1..] + [r];
      HeldSnoc(rows[1..], r, h);
    }
  }

  /** The calls about h look for exactly the rows of h. */
  lemma FlowHits(h: Holding, call: Call, r: Row)
    requires h.Flow(call) != 0
    ensures call.Hits(r) == h.Of(r)
  {
  }

  lemma ChangeFlow(h: Holding, call: Call, r: Row)
    requires call.Hits(r) && call.Change(r).Some?
    ensures var c := call.Change(r).value;
      && h.Of(c) == h.Of(r)
      && (h.Of(r) ==> Worth(c) == h.Wrap(Worth(r) + h.Flow(call)))
  {
  }

  lemma FreshFlow(h: Holding, call: Call, u: nat)
    requires call.Fresh(u).Some?
    ensures var c := call.Fresh(u).value;
      && (h.Of(c) ==> Worth(c) == h.Wrap(h.Flow(call)))
      && (!h.Of(c) ==> h.Flow(call) == 0)
  {
  }

  lemma FreshHits(h: Holding, call: Call, u: nat, r: Row)
    requires call.Fresh(u).Some? && h.Of(call.Fresh(u).value)
    ensures call.Hits(r) == h.Of(r)
  {
  }

  lemma WrapAdd(h: Holding, a: int, b: int)
    ensures h.Wrap(h.Wrap(a) + b) == h.Wrap(a + b)
  {
    if h.ItemHolding? {
      assert (a % U64 + b) % U64 == (a + b) % U64;
    } else {
      assert ((a + I63) % U64 + b) % U64 == (a + I63 + b) % U64;
    }
  }

  lemma {:induction false} HeldWrapped(rows: seq<Row>, h: Holding)
    ensures h.Wrap(Amount(rows, h)) == Amount(rows, h)
  {
    if rows != [] && !h.Of(rows[0]) { HeldWrapped(rows[1..], h); }
  }

  /** One call on the list: refused, it changes nothing; accepted, it moves h by its flow. */
  lemma CallFlow(rows: seq<Row>, call: Call, u: nat, h: Holding)
    ensures var (rows', op) := OnList(rows, call, u);
      if op.None? then rows' == rows else Amount(rows', h) == h.Wrap(Amount(rows, h) + h.Flow(call))
  {
    hide Call.Hits, Call.Change, Call.Fresh, Holding.Of, Holding.Flow, Holding.Wrap, Worth, Amount, Find;
    var p := Find(rows, call);
    HeldWrapped(rows, h);
    if p < |rows| {
      if call.Change(rows[p]).Some? { ChangeHeld(rows, call, p, h); }
    } else if call.Fresh(u).Some? {
      FreshHeld(rows, call, u, h);
    }
  }

  lemma FreshHeld(rows: seq<Row>, call: Call, u: nat, h: Holding)
    requires Find(rows, call) == |rows| && call.Fresh(u).Some? && h.Wrap(Amount(rows, h)) == Amount(rows, h)
    ensures Amount(rows + [call.Fresh(u).value], h) == h.Wrap(Amount(rows, h) + h.Flow(call))
  {
    hide *;
    FreshFlow(h, call, u);
    var r := call.Fresh(u).value;
    if h.Of(r) {
      forall i | 0 <= i < |rows|
        ensures !h.Of(rows[i])
      {
        FreshHits(h, call, u, rows[i]);
      }
      HeldNone(rows, h);
    }
    HeldSnoc(rows, r, h);
  }

  lemma ChangeHeld(rows: seq<Row>, call: Call, p: nat, h: Holding)
    requires p < |rows| && p == Find(rows, call) && call.Change(rows[p]).Some?
    requires h.Wrap(Amount(rows, h)) == Amount(rows, h)
    ensures Amount(rows[p := call.Change(rows[p]).value], h) == h.Wrap(Amount(rows, h) + h.Flow(call))
  {
    var r := call.Change(rows[p]).value;
    ChangeFlow(h, call, rows[p]);
    if h.Flow(call) == 0 {
      assert h.Of(rows[p]) ==> h.Wrap(Worth(rows[p])) == Worth(rows[p]);
      HeldSame(rows, rows[p := r], h);
    } else {
      forall i | 0 <= i < |rows|
        ensures call.Hits(rows[i]) == h.Of(rows[i])
      {
        FlowHits(h, call, rows[i]);
      }
      HeldAt(rows, h, p);
      HeldAt(rows[p := r], h, p);
    }
  }

  /** The list of entity e as the request loaded it. */
  function Loaded(trace: seq<Event>, u: nat, rt: Route, e: Entity): seq<Row> {
    if trace == [] then []
    else
      var front, ev := trace[..|trace| - 1], trace[|trace| - 1];
      if e in Replay(front, u, rt).store then Loaded(front, u, rt, e)
      else if ev.Load? && ev.entity == e then ev.rows
      else []
  }

  /** The call of an event, if the service accepts it. */
  function Taken(r: Req, ev: Event, u: nat): seq<Call> {
    if ev.Make? && ev.call.Kind() in r.store && OnList(r.store[ev.call.Kind()], ev.call, u).1.Some? then [ev.call] else []
  }

  /** Holding h after the trace, given what was loaded: nothing yet, or the loaded amount plus the net flow. */
  ghost predicate Conserves(r: Req, h: Holding, first: seq<Row>, net: int) {
    if h.Kind() in r.store then Amount(r.store[h.Kind()], h) == h.Wrap(Amount(first, h) + net)
    else net == 0
  }

  /**
   * Conservation over any trace: what the request's list holds of an item or asset is what the list
   * held when loaded, plus what accepted calls added, minus what accepted calls consumed, wrapped to
   * 64 bits.
   */
  lemma {:induction false} Conserved(trace: seq<Event>, u: nat, rt: Route, h: Holding)
    ensures Conserves(Replay(trace, u, rt), h, Loaded(trace, u, rt, h.Kind()), Net(Accepted(trace, u, rt), h))
    decreases |trace|
  {
    if trace != [] {
      var front, ev := trace[..|trace| - 1], trace[|trace| - 1];
      var r := Replay(front, u, rt);
      var calls := Accepted(front, u, rt);
      assert Accepted(trace, u, rt) == calls + Taken(r, ev, u);
      assert Replay(trace, u, rt) == Apply(r, u, rt, ev);
      Conserved(front, u, rt, h);
      var first := if h.Kind() in r.store then Loaded(front, u, rt, h.Kind())
                   else if ev.Load? && ev.entity == h.Kind() then ev.rows
                   else [];
      assert Loaded(trace, u, rt, h.Kind()) == first;
      hide Replay, Accepted, Conserves, Apply, Taken, Holding.Kind, Loaded;
      NetTaken(calls, r, ev, u, h);
      ConservedStep(r, ev, u, rt, h, Loaded(front, u, rt, h.Kind()), first, Net(calls, h));
    }
  }

  function FlowOf(r: Req, ev: Event, u: nat, h: Holding): int {
    if Taken(r, ev, u) == [] then 0 else h.Flow(Taken(r, ev, u)[0])
  }

  lemma NetTaken(calls: seq<Call>, r: Req, ev: Event, u: nat, h: Holding)
    ensures Net(calls + Taken(r, ev, u), h) == Net(calls, h) + FlowOf(r, ev, u, h)
  {
    var t := Taken(r, ev, u);
    if t == [] {
      assert calls + t == calls;
    } else {
      assert (calls + t)[..|calls|] == calls;
    }
  }

  lemma ConservedStep(r: Req, ev: Event, u: nat, rt: Route, h: Holding, before: seq<Row>, first: seq<Row>, net: int)
    requires Conserves(r, h, before, net)
    requires first == if h.Kind() in r.store then before else if ev.Load? && ev.entity == h.Kind() then ev.rows else []
    ensures Conserves(Apply(r, u, rt, ev), h, first, net + FlowOf(r, ev, u, h))
  {
    hide OnList, Holding.Wrap, Call.Kind, Amount;
    HeldWrapped(first, h);
    if ev.Make? && ev.call.Kind() in r.store {
      CallFlow(r.store[ev.call.Kind()], ev.call, u, h);
      if ev.call.Kind() == h.Kind() {
        WrapAdd(h, Amount(first, h) + net, h.Flow(ev.call));
      } else {
        OtherKind(h, ev.call);
      }
    }
  }

  lemma OtherKind(h: Holding, call: Call)
    requires call.Kind() != h.Kind()
    ensures h.Flow(call) == 0
  {
  }

  /** An item is consumed exactly when there is enough of it, and then never wraps below zero. */
  lemma ConsumeExact(rows: seq<Row>, id: nat, n: u64, u: nat)
    ensures var (rows', op) := OnList(rows, ConsumeItem(id, n), u);
      var h := ItemHolding(id);
      && (op.Some? <==> Find(rows, ConsumeItem(id, n)) < |rows| && n <= Amount(rows, h))
      && Amount(rows', h) == if op.Some? then Amount(rows, h) - n else Amount(rows, h)
  {
    var call, h := ConsumeItem(id, n), ItemHolding(id);
    var p := Find(rows, call);
    if p < |rows| {
      HeldAt(rows, h, p);
      CallFlow(rows, call, u, h);
    }
  }

  /** Until an add would take the running total to 2^64, the list holds the exact sum. */
  ghost predicate Exactly(r: Req, id: nat, first: seq<Row>, net: int) {
    if Items in r.store then Amount(r.store[Items], ItemHolding(id)) == Amount(first, ItemHolding(id)) + net else net == 0
  }

  /** What the request has loaded of the item plus the net of the calls accepted so far. */
  function Running(trace: seq<Event>, u: nat, rt: Route, id: nat): int {
    Amount(Loaded(trace, u, rt, Items), ItemHolding(id)) + Net(Accepted(trace, u, rt), ItemHolding(id))
  }

  /** After every prefix of the trace the running total is below 2^64. */
  ghost predicate Under(trace: seq<Event>, u: nat, rt: Route, id: nat) {
    forall n :: 0 <= n <= |trace| ==> Running(trace[..n], u, rt, id) < 0x1_0000_0000_0000_0000
  }

  lemma UnderAtEnd(trace: seq<Event>, u: nat, rt: Route, id: nat)
    requires Under(trace, u, rt, id) && trace != []
    ensures Under(trace[..|trace| - 1], u, rt, id) && Running(trace, u, rt, id) < U64
  {
    hide Running;
    var front := trace[..|trace| - 1];
    forall n | 0 <= n <= |front|
      ensures Running(front[..n], u, rt, id) < U64
    {
      assert front[..n] == trace[..n];
    }
    assert Running(trace[..|trace|], u, rt, id) < U64 && trace[..|trace|] == trace;
  }

  /**
   * No wrap-around below: as long as the running total of an item stays under 2^64 the list holds
   * exactly that total after every prefix of the trace, which therefore never is negative.
   */
  lemma {:induction false} ItemsExact(trace: seq<Event>, u: nat, rt: Route, id: nat)
    requires Under(trace, u, rt, id)
    ensures Exactly(Replay(trace, u, rt), id, Loaded(trace, u, rt, Items), Net(Accepted(trace, u, rt), ItemHolding(id)))
    ensures Items in Replay(trace, u, rt).store ==> 0 <= Running(trace, u, rt, id)
    decreases |trace|
  {
    var h := ItemHolding(id);
    if trace != [] {
      var front, ev := trace[..|trace| - 1], trace[|trace| - 1];
      var r := Replay(front, u, rt);
      var calls := Accepted(front, u, rt);
      UnderAtEnd(trace, u, rt, id);
      assert Accepted(trace, u, rt) == calls + Taken(r, ev, u);
      assert Replay(trace, u, rt) == Apply(r, u, rt, ev);
      ItemsExact(front, u, rt, id);
      var first := if Items in r.store then Loaded(front, u, rt, Items)
                   else if ev.Load? && ev.entity == Items then ev.rows
                   else [];
      assert Loaded(trace, u, rt, Items) == first;
      hide Replay, Accepted, Exactly, Apply, Taken, Loaded, Under;
      NetTaken(calls, r, ev, u, h);
      ExactStep(r, ev, u, rt, id, Loaded(front, u, rt, Items), first, Net(calls, h));
    }
  }

  lemma ExactStep(r: Req, ev: Event, u: nat, rt: Route, id: nat, before: seq<Row>, first: seq<Row>, net: int)
    requires Exactly(r, id, before, net)
    requires first == if Items in r.store then before else if ev.Load? && ev.entity == Items then ev.rows else []
    requires Amount(first, ItemHolding(id)) + net + FlowOf(r, ev, u, ItemHolding(id)) < U64
    ensures Exactly(Apply(r, u, rt, ev), id, first, net + FlowOf(r, ev, u, ItemHolding(id)))
    ensures Items in Apply(r, u, rt, ev).store ==> 0 <= Amount(first, ItemHolding(id)) + net + FlowOf(r, ev, u, ItemHolding(id))
  {
    var h := ItemHolding(id);
    hide OnList, Call.Kind, Amount;
    AmountFits(first, id);
    if Items in r.store { AmountFits(r.store[Items], id); }
    if ev.Make? && ev.call.Kind() in r.store {
      if ev.call.Kind() == Items {
        CallFlow(r.store[Items], ev.call, u, h);
        EnoughToConsume(r.store[Items], ev.call, u, h);
      } else {
        OtherKind(h, ev.call);
      }
    }
  }

  lemma {:induction false} AmountFits(rows: seq<Row>, id: nat)
    ensures 0 <= Amount(rows, ItemHolding(id)) < U64
  {
    if rows != [] && !ItemHolding(id).Of(rows[0]) { AmountFits(rows[1..], id); }
  }

  /** An accepted call takes out no more than there is. */
  lemma EnoughToConsume(rows: seq<Row>, call: Call, u: nat, h: Holding)
    requires h.ItemHolding?
    ensures OnList(rows, call, u).1.Some? ==> 0 <= Amount(rows, h) + h.Flow(call)
  {
    AmountFits(rows, h.id);
    if call.ConsumeItem? && call.itemId == h.id {
      ConsumeExact(rows, h.id, call.amount, u);
      hide OnList, Amount;
    }
  }

  // ------------------------------------------------------------------ in the database

  ghost predicate StoredAt(t: Table, u: nat, h: Holding, k: nat) {
    k in t.rows && t.rows[k].Owner() == u && h.Of(t.rows[k])
  }

  /** What user u's row for h in the table says, or nothing when there is no such row. */
  ghost function Stored(t: Table, u: nat, h: Holding): int {
    if k :| StoredAt(t, u, h, k) then Worth(t.rows[k]) else 0
  }

  lemma StoredIsHeld(rows: seq<Row>, t: Table, u: nat, h: Holding)
    requires ValidTable(t, h.Kind()) && Lists(rows, t, u)
    ensures Stored(t, u, h) == Amount(rows, h)
  {
    ListsPointwise(rows, t, u, h.Kind());
    if k :| StoredAt(t, u, h, k) {
      var i :| 0 <= i < |rows| && rows[i].pk == k;
      forall l | StoredAt(t, u, h, l)
        ensures l == k
      {
        OneRow(t, u, h, k, l);
      }
      forall j | 0 <= j < i
        ensures !h.Of(rows[j])
      {
        assert rows[j].pk != k;
        assert !StoredAt(t, u, h, rows[j].pk);
      }
      HeldAt(rows, h, i);
    } else {
      forall i | 0 <= i < |rows|
        ensures !h.Of(rows[i])
      {
        assert !StoredAt(t, u, h, rows[i].pk);
      }
      HeldNone(rows, h);
    }
  }

  /** The unique index leaves a user at most one row for h. */
  lemma OneRow(t: Table, u: nat, h: Holding, k: nat, l: nat)
    requires ValidTable(t, h.Kind()) && StoredAt(t, u, h, k) && StoredAt(t, u, h, l)
    ensures k == l
  {
    assert !Clash(t.rows[k], t.rows[l]);
  }

  lemma {:induction false} LoadedLists(trace: seq<Event>, tabs: Tables, u: nat, rt: Route, e: Entity)
    requires Sound(trace, tabs, u, rt) && e in Replay(trace, u, rt).store
    ensures Lists(Loaded(trace, u, rt, e), At(tabs, rt.Id(e)), u)
    decreases |trace|
  {
    var front := trace[..|trace| - 1];
    hide Lists, OnList;
    if e in Replay(front, u, rt).store { LoadedLists(front, tabs, u, rt, e); }
  }

  /** Without calls a list stays as it was loaded. */
  lemma {:induction false} LoadedStays(trace: seq<Event>, u: nat, rt: Route, e: Entity)
    requires CallsOf(trace) == [] && e in Replay(trace, u, rt).store
    ensures Replay(trace, u, rt).store[e] == Loaded(trace, u, rt, e)
    decreases |trace|
  {
    var front, ev := trace[..|trace| - 1], trace[|trace| - 1];
    assert |CallsOf(trace)| == |CallsOf(front)| + if ev.Make? then 1 else 0;
    if e in Replay(front, u, rt).store { LoadedStays(front, u, rt, e); }
  }

  lemma HeldAssigned(rows: seq<Row>, a: seq<Row>, h: Holding)
    requires |a| == |rows| && forall i :: 0 <= i < |rows| ==> a[i] == rows[i].WithPk(a[i].pk)
    ensures Amount(a, h) == Amount(rows, h)
  {
    HeldSame(rows, a, h);
  }

  /** The user's row for h moved by `total`, wrapped to 64 bits; exactly, if and only if that fits the column's Go type. */
  ghost predicate Moved(before: Tables, after: Tables, id: TableId, u: nat, h: Holding, net: int) {
    && id in before && id in after
    && var total := Stored(before[id], u, h) + net;
    && Stored(after[id], u, h) == h.Wrap(total)
    && (h.Wrap(total) == total <==> if h.ItemHolding? then 0 <= total < 0x1_0000_0000_0000_0000 else -0x8000_0000_0000_0000 <= total < 0x8000_0000_0000_0000)
  }

  /**
   * Balances in the database: a committed request leaves the user's row for an item or asset at its
   * old amount plus what accepted calls added and minus what accepted calls consumed.
   */
  lemma BalanceInDatabase(trace: seq<Event>, tabs: Tables, u: nat, rt: Route, h: Holding)
    requires ValidTables(tabs, rt) && Sound(trace, tabs, u, rt) && h.Kind() in Replay(trace, u, rt).store
    ensures Moved(tabs, Direct(tabs, CallsOf(trace), u, rt), rt.Id(h.Kind()), u, h, Net(Accepted(trace, u, rt), h))
  {
    var r := Replay(trace, u, rt);
    hide Replay, Sound, Direct, CallsOf, Accepted, Net, Moved, TargetTables, Tracks, BaseOk, ValidTables;
    TraceMeansDirect(trace, tabs, u, rt);
    StoredBefore(trace, tabs, u, rt, h);
    StoredAfter(r, tabs, u, rt, h);
    Conserved(trace, u, rt, h);
    ShowMoved(tabs, TargetTables(r, tabs, rt), rt.Id(h.Kind()), r, u, h, Loaded(trace, u, rt, h.Kind()), Net(Accepted(trace, u, rt), h));
  }

  lemma ShowMoved(before: Tables, after: Tables, id: TableId, r: Req, u: nat, h: Holding, first: seq<Row>, net: int)
    requires id in before && id in after && h.Kind() in r.store
    requires Stored(before[id], u, h) == Amount(first, h) && Stored(after[id], u, h) == Amount(r.store[h.Kind()], h)
    requires Conserves(r, h, first, net)
    ensures Moved(before, after, id, u, h, net)
  {
    hide Stored, Amount;
    SumUp(r, h, first, net);
  }

  lemma StoredBefore(trace: seq<Event>, tabs: Tables, u: nat, rt: Route, h: Holding)
    requires ValidTables(tabs, rt) && Sound(trace, tabs, u, rt) && h.Kind() in Replay(trace, u, rt).store
    ensures var id := rt.Id(h.Kind());
      id in tabs && Stored(tabs[id], u, h) == Amount(Loaded(trace, u, rt, h.Kind()), h)
  {
    hide Replay, Sound, Lists, ValidTable, Stored, Amount, Loaded;
    LoadedLists(trace, tabs, u, rt, h.Kind());
    StoredIsHeld(Loaded(trace, u, rt, h.Kind()), tabs[rt.Id(h.Kind())], u, h);
  }

  lemma SumUp(r: Req, h: Holding, first: seq<Row>, net: int)
    requires h.Kind() in r.store && Conserves(r, h, first, net)
    ensures var total := Amount(first, h) + net;
      && Amount(r.store[h.Kind()], h) == h.Wrap(total)
      && (h.Wrap(total) == total <==> if h.ItemHolding? then 0 <= total < 0x1_0000_0000_0000_0000 else -0x8000_0000_0000_0000 <= total < 0x8000_0000_0000_0000)
  {
    hide Amount;
  }

  /** In the tables a tracked request stands for, the user's row for h holds what the list holds. */
  lemma StoredAfter(r: Req, tabs: Tables, u: nat, rt: Route, h: Holding)
    requires Tracks(r, tabs, u, rt) && BaseOk(r) && ValidTables(tabs, rt) && h.Kind() in r.store
    ensures var id := rt.Id(h.Kind());
      && id in tabs && id in TargetTables(r, tabs, rt)
      && Stored(TargetTables(r, tabs, rt)[id], u, h) == Amount(r.store[h.Kind()], h)
  {
    var e := h.Kind();
    var id := rt.Id(e);
    assert PendingAt(r, tabs, u, rt, e) && id in tabs;
    hide Tracks, Pending, Stored, Amount, Proj, Assigned, Target, Lists, ValidTable, ValidTables;
    TargetLists(tabs[id], e, u, r.store[e], r.base[e], Proj(r.ops, e));
    TargetValid(tabs[id], e, u, r.store[e], r.base[e], Proj(r.ops, e));
    var a := Assigned(r.store[e], r.base[e], tabs[id].next);
    StoredIsHeld(a, Target(tabs[id], r.store[e], r.base[e]), u, h);
    AssignedSame(r.store[e], r.base[e], tabs[id].next);
    HeldAssigned(r.store[e], a, h);
  }

  lemma AssignedSame(rows: seq<Row>, n0: nat, next: nat)
    requires n0 <= |rows|
    ensures var a := Assigned(rows, n0, next);
      |a| == |rows| && forall i :: 0 <= i < |rows| ==> a[i] == rows[i].WithPk(a[i].pk)
  {
  }
}
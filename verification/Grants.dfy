// When a newly inserted account ends up with its first goods, and what happens when it does not.
module Grants {
  import opened Rows
  import opened TableRun
  import opened Calls
  import opened Queue
  import opened Transactions
  import opened Request
  import opened Deferred
  import opened Coherence
  import opened Accounts
  import opened Upkeep
  import Finish

  /** The user has neither items nor assets. */
  ghost predicate Goodless(tabs: Tables, u: nat, rt: Route) {
    NoRows(At(tabs, rt.Id(Items)), u) && NoRows(At(tabs, rt.Id(Assets)), u)
  }

  lemma NotGranted(before: Tables, tabs: Tables, u: nat, rt: Route, itemType: nat)
    requires Goodless(tabs, u, rt)
    ensures !Granted(before, tabs, u, rt, itemType)
  {
    NoRowsNone(At(tabs, rt.Id(Assets)), u);
    assert rt.Id(Assets) in before ==> before[rt.Id(Assets)].next !in UserRows(At(tabs, rt.Id(Assets)), u);
    hide NoRows, UserRows;
  }

  lemma NoRowsNone(t: Table, u: nat)
    requires NoRows(t, u)
    ensures UserRows(t, u) == map[]
  {
  }

  lemma GrantOnShard(trace: seq<Event>, u: nat, rt: Route, design: Option<nat>)
    requires CallsOf(trace) == Grant(design)
    ensures AllOn(Replay(trace, u, rt).ops, rt.shard)
  {
    assert NoAccount(Grant(design));
    hide Replay, CallsOf, AllOn, Grant;
    ShardOnly(trace, u, rt);
  }

  /**
   * The first goods of a new account arrive if and only if the one transaction of its login meets no
   * fault; otherwise the commit has changed nothing at all.
   */
  lemma {:induction false} GoodsArrive(trace: seq<Event>, tabs: Tables, u: nat, rt: Route, faults: seq<Fault>, itemType: nat)
    requires ValidTables(tabs, rt) && Sound(trace, tabs, u, rt) && CallsOf(trace) == Grant(Some(itemType))
    requires Goodless(tabs, u, rt) && rt.shard != NIL
    ensures var r := Replay(trace, u, rt);
      && AllHeld(r.ops, r.store) && OneDb(r.ops)
      && var x := DbPhase(r, tabs, faults);
      && (Granted(tabs, x.1.tabs, u, rt, itemType) <==> FaultAt(faults, 0).None?)
      && (FaultAt(faults, 0).Some? ==> x.1.tabs == tabs)
  {
    var r := Replay(trace, u, rt);
    hide Replay, Sound, CallsOf, Granted, Direct, AllOn, AllHeld, OneDb, ValidTables, Goodless, DbPhase, Run, AssignedStore, Grant, BaseOk;
    DeferredIsDirect(trace, tabs, u, rt);
    GrantOnShard(trace, u, rt, Some(itemType));
    GoodlessRows(tabs, u, rt);
    GrantGives(tabs, u, rt, itemType);
    NotGranted(tabs, tabs, u, rt, itemType);
    if r.ops == [] { NothingRun(State(tabs, r.store)); }
    OneDatabaseIff(r, tabs, rt.shard, faults);
    OneDatabaseWhole(r, tabs, rt.shard, faults);
  }

  lemma GoodlessRows(tabs: Tables, u: nat, rt: Route)
    requires Goodless(tabs, u, rt)
    ensures NoRows(At(tabs, rt.Id(Items)), u) && NoRows(At(tabs, rt.Id(Assets)), u)
  {
  }

  lemma NothingRun(s: State)
    ensures AllHeld([], s.store) && Run(s, []) == Some(s)
  {
  }

  predicate OnlyTouches(calls: seq<Call>) {
    forall i :: 0 <= i < |calls| ==> calls[i].TouchAccount?
  }

  /** Logins of an account that is there touch the account and nothing else. */
  lemma {:induction false} TouchesOnlyTouch(tabs: Tables, calls: seq<Call>, u: nat, rt: Route, e: Entity)
    requires OnlyTouches(calls) && e != Account
    ensures At(Direct(tabs, calls, u, rt), rt.Id(e)) == At(tabs, rt.Id(e))
    decreases |calls|
  {
    hide OnTable;
    if calls != [] {
      assert calls[|calls| - 1].TouchAccount?;
      TouchesOnlyTouch(tabs, calls[..|calls| - 1], u, rt, e);
    }
  }

  lemma StaysActive(t: Table, t': Table, channelUid: nat, k: nat)
    requires Active(t, channelUid, k) && SameAccounts(t, t')
    ensures Active(t', channelUid, k)
  {
  }

  /**
   * Goods that did not arrive never do: after any number of later logins the account is still an active
   * one of its channel, so that no login takes it for new, and the user still has neither items nor assets.
   */
  lemma {:induction false} LostForGood(before: Tables, tabs: Tables, u: nat, rt: Route, itemType: nat, channelUid: nat, later: seq<Call>)
    requires Goodless(tabs, u, rt) && Active(At(tabs, rt.Id(Account)), channelUid, u) && KeyedByPk(At(tabs, rt.Id(Account)))
    requires OnlyTouches(later)
    ensures var after := Direct(tabs, later, u, rt);
      && Active(At(after, rt.Id(Account)), channelUid, u) && Goodless(after, u, rt)
      && !Granted(before, after, u, rt, itemType)
  {
    var after := Direct(tabs, later, u, rt);
    TouchesOnlyTouch(tabs, later, u, rt, Items);
    TouchesOnlyTouch(tabs, later, u, rt, Assets);
    AccountsKept(tabs, later, u, rt);
    hide Direct, NoRows, Granted, SameAccounts, Active, KeyedByPk;
    StaysActive(At(tabs, rt.Id(Account)), At(after, rt.Id(Account)), channelUid, u);
    NotGranted(before, after, u, rt, itemType);
  }

  const ROUTE := Route(1, 2)
  const ANN := AccountRow(1, 7, "phone", 1, 3)

  /** One account, just inserted, and nothing else. */
  const JUST_INSERTED: Tables := map[
    TableId(1, Account) := Table(map[1 := ANN], 2),
    TableId(2, Assets) := EMPTY_TABLE,
    TableId(2, Cards) := EMPTY_TABLE,
    TableId(2, Items) := EMPTY_TABLE
  ]

  /** The loads and calls of a new account's login. */
  function FirstLogin(account: Row, itemType: nat): seq<Event> {
    [Load(Account, [account]), Load(Assets, []), Make(AddAsset(10000, 100)), Load(Items, []), Make(AddItem(25000, 5, Some(itemType))),
     Make(ConsumeItem(25000, 3))]
  }

  /** A sound trace that has loaded these entities and made these calls. */
  ghost predicate Leads(trace: seq<Event>, tabs: Tables, u: nat, rt: Route, loaded: set<Entity>, calls: seq<Call>) {
    Sound(trace, tabs, u, rt) && Replay(trace, u, rt).store.Keys == loaded && CallsOf(trace) == calls
  }

  lemma LeadsLoad(trace: seq<Event>, tabs: Tables, u: nat, rt: Route, loaded: set<Entity>, calls: seq<Call>, e: Entity, rows: seq<Row>)
    requires Leads(trace, tabs, u, rt, loaded, calls) && Lists(rows, At(tabs, rt.Id(e)), u)
    ensures Leads(trace + [Load(e, rows)], tabs, u, rt, loaded + {e}, calls)
  {
    assert (trace + [Load(e, rows)])[..|trace|] == trace;
    ReplayHeld(trace, u, rt);
    hide Lists, AllHeld, OneDb, Routed;
  }

  lemma LeadsMake(trace: seq<Event>, tabs: Tables, u: nat, rt: Route, loaded: set<Entity>, calls: seq<Call>, call: Call)
    requires Leads(trace, tabs, u, rt, loaded, calls) && call.Kind() in loaded
    ensures Leads(trace + [Make(call)], tabs, u, rt, loaded, calls + [call])
  {
    assert (trace + [Make(call)])[..|trace|] == trace;
    hide Lists, OnList, Call.Kind, Enqueue;
  }

  lemma LeadsNowhere(tabs: Tables, u: nat, rt: Route)
    ensures Leads([], tabs, u, rt, {}, [])
  {
  }

  lemma FirstLoginLeads(tabs: Tables, u: nat, rt: Route, account: Row, itemType: nat)
    requires Lists([account], At(tabs, rt.Id(Account)), u) && Lists([], At(tabs, rt.Id(Assets)), u) && Lists([], At(tabs, rt.Id(Items)), u)
    ensures Leads(FirstLogin(account, itemType), tabs, u, rt, {Account, Assets, Items}, Grant(Some(itemType)))
  {
    hide Lists, Leads, At;
    var (add, item, consume) := (AddAsset(10000, 100), AddItem(25000, 5, Some(itemType)), ConsumeItem(25000, 3));
    LeadsNowhere(tabs, u, rt);
    LeadsLoad([], tabs, u, rt, {}, [], Account, [account]);
    var t1 := [] + [Load(Account, [account])];
    LeadsLoad(t1, tabs, u, rt, {} + {Account}, [], Assets, []);
    var t2 := t1 + [Load(Assets, [])];
    LeadsMake(t2, tabs, u, rt, {} + {Account} + {Assets}, [], add);
    var t3 := t2 + [Make(add)];
    LeadsLoad(t3, tabs, u, rt, {} + {Account} + {Assets}, [] + [add], Items, []);
    var t4 := t3 + [Load(Items, [])];
    LeadsMake(t4, tabs, u, rt, {} + {Account} + {Assets} + {Items}, [] + [add], item);
    var t5 := t4 + [Make(item)];
    LeadsMake(t5, tabs, u, rt, {} + {Account} + {Assets} + {Items}, [] + [add] + [item], consume);
    assert t5 + [Make(consume)] == FirstLogin(account, itemType);
    assert {} + {Account} + {Assets} + {Items} == {Account, Assets, Items};
    assert [] + [add] + [item] + [consume] == Grant(Some(itemType));
  }

  /** The failing input: the shard's BEGIN fails in the login that has just inserted the account. */
  lemma {:induction false} GrantLost()
    ensures var trace := FirstLogin(ANN, 4);
      var r := Replay(trace, 1, ROUTE);
      && ValidTables(JUST_INSERTED, ROUTE) && Sound(trace, JUST_INSERTED, 1, ROUTE) && CallsOf(trace) == Grant(Some(4))
      && Goodless(JUST_INSERTED, 1, ROUTE) && Active(At(JUST_INSERTED, ROUTE.Id(Account)), 7, 1)
      && AllHeld(r.ops, r.store) && OneDb(r.ops)
      && var x := DbPhase(r, JUST_INSERTED, [Some(0)]);
      x.1.tabs == JUST_INSERTED && !Granted(JUST_INSERTED, x.1.tabs, 1, ROUTE, 4)
  {
    JustInserted();
    hide Replay, Sound, CallsOf, Granted, Goodless, Lists, DbPhase, AllHeld, OneDb;
    FirstLoginLeads(JUST_INSERTED, 1, ROUTE, ANN, 4);
    GoodsArrive(FirstLogin(ANN, 4), JUST_INSERTED, 1, ROUTE, [Some(0)], 4);
  }

  lemma JustInserted()
    ensures ValidTables(JUST_INSERTED, ROUTE) && Goodless(JUST_INSERTED, 1, ROUTE) && Active(At(JUST_INSERTED, ROUTE.Id(Account)), 7, 1)
    ensures Lists([ANN], At(JUST_INSERTED, ROUTE.Id(Account)), 1)
    ensures Lists([], At(JUST_INSERTED, ROUTE.Id(Assets)), 1) && Lists([], At(JUST_INSERTED, ROUTE.Id(Items)), 1)
  {
    assert [ANN][0].pk == 1;
    ListsFromPointwise([ANN], At(JUST_INSERTED, ROUTE.Id(Account)), 1);
    ListsFromPointwise([], EMPTY_TABLE, 1);
  }

  lemma TouchOn(r: Req, u: nat, rt: Route, ev: Event)
    requires AllOn(r.ops, rt.game) && (ev.Make? ==> ev.call.TouchAccount?)
    ensures AllOn(Apply(r, u, rt, ev).ops, rt.game)
  {
    hide OnList;
  }

  /** A login that only touches the account writes the game database alone. */
  lemma {:induction false} TouchesOnGame(trace: seq<Event>, u: nat, rt: Route)
    requires OnlyTouches(CallsOf(trace))
    ensures AllOn(Replay(trace, u, rt).ops, rt.game)
    decreases |trace|
  {
    if trace != [] {
      var front, ev := trace[..|trace| - 1], trace[|trace| - 1];
      var calls := CallsOf(trace);
      assert calls == CallsOf(front) + if ev.Make? then [ev.call] else [];
      assert Replay(trace, u, rt) == Apply(Replay(front, u, rt), u, rt, ev);
      hide Apply, Replay, CallsOf, AllOn;
      assert forall i :: 0 <= i < |CallsOf(front)| ==> CallsOf(front)[i] == calls[i];
      if ev.Make? { assert calls[|calls| - 1] == ev.call; }
      TouchesOnGame(front, u, rt);
      TouchOn(Replay(front, u, rt), u, rt, ev);
    }
  }

  /** A request with all its writes on one database ends with all of them made, or none: the fault of its one transaction decides. */
  lemma {:induction false} OneDbTables(trace: seq<Event>, b: Backend, u: nat, rt: Route, d: DbId, faults: seq<Fault>, c: Coherence.Commit, b': Backend)
    requires ValidTables(b.tabs, rt) && Sound(trace, b.tabs, u, rt) && d != NIL && AllOn(Replay(trace, u, rt).ops, d)
    requires !c.Panicked? && (c.Aborted? ==> c.o.TxFailed?)
    requires var r := Replay(trace, u, rt);
      && AllHeld(r.ops, r.store) && OneDb(r.ops) && Finish.OutcomeOf(c) == DbPhase(r, b.tabs, faults).0
      && Ending(trace, b, u, rt, CommittedDbs(r, Finish.OutcomeOf(c)), c, b')
    ensures b'.tabs == if FaultAt(faults, 0).None? then Direct(b.tabs, CallsOf(trace), u, rt) else b.tabs
  {
    var r := Replay(trace, u, rt);
    hide Replay, Sound, CallsOf, Direct, AllOn, AllHeld, OneDb, ValidTables, DbPhase, Run, AssignedStore, BaseOk, FaultAt, OthersKept, ValidTable, Coherent, CommittedDbs;
    DeferredIsDirect(trace, b.tabs, u, rt);
    if r.ops == [] {
      NothingRun(State(b.tabs, r.store));
      NothingCommits(r, b.tabs, faults);
    } else {
      OneDatabaseIff(r, b.tabs, d, faults);
      NoneCommitted(r);
      if c.Aborted? { AbortedNothing(trace, b, u, rt, c, b'); }
    }
  }

  lemma AbortedNothing(trace: seq<Event>, b: Backend, u: nat, rt: Route, c: Coherence.Commit, b': Backend)
    requires Ending(trace, b, u, rt, {}, c, b') && c.Aborted?
    ensures b'.tabs == b.tabs
  {
    assert b'.tabs.Keys == b.tabs.Keys;
    hide UserRows, ValidTable, Direct, CallsOf, Coherent;
  }

  lemma NothingCommits(r: Req, tabs: Tables, faults: seq<Fault>)
    requires r.ops == [] && AllHeld(r.ops, r.store) && OneDb(r.ops)
    ensures DbPhase(r, tabs, faults).0 == AllCommitted
  {
    assert Groups([]) == [];
    hide AllHeld;
  }

  lemma NoneCommitted(r: Req)
    ensures CommittedDbs(r, TxFailed(0)) == {}
  {
    hide Groups;
  }
}

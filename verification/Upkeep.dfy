// What has to hold between requests, and why every request leaves it so.
module Upkeep {
  import opened Rows
  import opened TableRun
  import opened Calls
  import opened Queue
  import opened Request
  import opened Coherence
  import opened Stores
  import opened Units

  /** r' is the account r, up to its device. */
  predicate SameAccount(r: Row, r': Row) {
    r.AccountRow? ==> r'.AccountRow? && r' == r.(deviceId := r'.deviceId)
  }

  /** No row of the account table has come or gone, or changed but for its device. */
  predicate SameAccounts(t: Table, t': Table) {
    t'.rows.Keys == t.rows.Keys && forall k :: k in t.rows ==> SameAccount(t.rows[k], t'.rows[k])
  }

  predicate KeyedByPk(t: Table) {
    forall k :: k in t.rows ==> t.rows[k].pk == k
  }

  lemma CallKeepsAccounts(t: Table, call: Call, u: nat)
    requires KeyedByPk(t) && call.Kind() == Account
    ensures KeyedByPk(OnTable(t, call, u)) && SameAccounts(t, OnTable(t, call, u))
  {
    hide Row.IndexKey, Row.Owner, Free;
  }

  /** No call inserts, deletes or moves an account. */
  lemma {:induction false} AccountsKept(tabs: Tables, calls: seq<Call>, u: nat, rt: Route)
    requires KeyedByPk(At(tabs, rt.Id(Account)))
    ensures var t' := At(Direct(tabs, calls, u, rt), rt.Id(Account)); KeyedByPk(t') && SameAccounts(At(tabs, rt.Id(Account)), t')
    decreases |calls|
  {
    hide KeyedByPk, OnTable;
    if calls != [] {
      var front, call := calls[..|calls| - 1], calls[|calls| - 1];
      AccountsKept(tabs, front, u, rt);
      if call.Kind() == Account { CallKeepsAccounts(At(Direct(tabs, front, u, rt), rt.Id(Account)), call, u); }
    }
  }

  /** The user's account says where the user's entities are; it goes on saying so. */
  lemma RoutesKept(tabs: Tables, tabs': Tables, k: nat, rt: Route, shards: map<int, DbId>)
    requires AccountRoutes(tabs, k, rt, shards) && SameAccounts(At(tabs, rt.Id(Account)), At(tabs', rt.Id(Account)))
    ensures AccountRoutes(tabs', k, rt, shards)
  {
  }

  lemma TablesKept(tabs: Tables, tabs': Tables, rt: Route)
    requires ValidTables(tabs, rt) && tabs'.Keys == tabs.Keys
    requires forall id :: id in tabs && ValidTable(tabs[id], id.entity) ==> ValidTable(tabs'[id], id.entity)
    ensures ValidTables(tabs', rt)
  {
    hide ValidTable;
  }

  /** The tables and caches a unit of work was made on, with what it has inserted since. */
  ghost predicate Grounded(u: UnitOfWork)
    reads u.c.sql, u.c.shards
  {
    Open(Coherence.Backend(u.c.sql.tabs, u.hashes), u.c.game, u.c.shards.shardMap)
  }

  /** The account of the unit of work's user says where it goes. */
  ghost predicate Homed(u: UnitOfWork)
    reads u, u.c.sql, u.c.shards
  {
    var t := At(u.c.sql.tabs, TableId(u.c.game, Account));
    u.userId in t.rows && u.now.rt == RouteFor(u.c.game, u.c.shards.shardMap, t.rows[u.userId])
  }

  /** What a request of user u may do to the state between requests. */
  ghost predicate Tended(b: Backend, b': Backend, u: nat, id: TableId) {
    && OthersKept(b, b', u) && b'.cache - {u} == b.cache - {u}
    && (forall i :: i in b.tabs && ValidTable(b.tabs[i], i.entity) ==> ValidTable(b'.tabs[i], i.entity))
    && SameAccounts(At(b.tabs, id), At(b'.tabs, id))
  }

  lemma ServingKept(b: Backend, b': Backend, u: nat, k: nat, rt: Route, shards: map<int, DbId>)
    requires Serving(b, [], k, rt, shards) && Tended(b, b', u, rt.Id(Account))
    requires k == u ==> Coherent(b', u, rt)
    ensures Serving(b', [], k, rt, shards)
  {
    assert Sound([], b'.tabs, k, rt);
    hide Coherent, ValidTable, UserRows, SameAccounts;
    TablesKept(b.tabs, b'.tabs, rt);
    RoutesKept(b.tabs, b'.tabs, k, rt, shards);
    if k != u {
      ValidIn(b.tabs, rt);
      OthersCoherent(b, b', u, k, rt);
    }
  }

  lemma ValidIn(tabs: Tables, rt: Route)
    requires ValidTables(tabs, rt)
    ensures forall e: Entity :: rt.Id(e) in tabs
  {
    hide ValidTable;
  }

  lemma RouteSame(game: DbId, shards: map<int, DbId>, r: Row, r': Row)
    requires r.AccountRow? && SameAccount(r, r')
    ensures RouteFor(game, shards, r') == RouteFor(game, shards, r)
  {
  }

  /** Every user's account, as far as Open speaks of it. */
  lemma OpenAt(b: Backend, game: DbId, shards: map<int, DbId>, k: nat)
    requires Open(b, game, shards) && k in At(b.tabs, TableId(game, Account)).rows
    ensures k != 0 && At(b.tabs, TableId(game, Account)).rows[k].AccountRow?
    ensures Serving(b, [], k, RouteFor(game, shards, At(b.tabs, TableId(game, Account)).rows[k]), shards)
  {
    hide Coherent, ValidTables;
  }

  lemma AccountKept(b: Backend, b': Backend, u: nat, game: DbId, shards: map<int, DbId>, k: nat)
    requires Open(b, game, shards) && Tended(b, b', u, TableId(game, Account))
    requires var t := At(b.tabs, TableId(game, Account)); u in t.rows ==> Coherent(b', u, RouteFor(game, shards, t.rows[u]))
    requires k in At(b'.tabs, TableId(game, Account)).rows
    ensures k != 0 && Serving(b', [], k, RouteFor(game, shards, At(b'.tabs, TableId(game, Account)).rows[k]), shards)
  {
    var t, t' := At(b.tabs, TableId(game, Account)), At(b'.tabs, TableId(game, Account));
    assert SameAccounts(t, t');
    hide Serving, Open, Coherent, Tended;
    OpenAt(b, game, shards, k);
    RouteSame(game, shards, t.rows[k], t'.rows[k]);
    ServingKept(b, b', u, k, RouteFor(game, shards, t.rows[k]), shards);
  }

  lemma ShardsKept(b: Backend, b': Backend, u: nat, game: DbId, shards: map<int, DbId>)
    requires Open(b, game, shards) && Tended(b, b', u, TableId(game, Account))
    ensures game != NIL && TableId(game, Account) in b'.tabs
    ensures forall s :: s in shards ==> shards[s] != NIL && ValidTables(b'.tabs, Route(game, shards[s]))
  {
    hide Serving, ValidTable, Coherent, SameAccounts, UserRows;
    forall s | s in shards
      ensures shards[s] != NIL && ValidTables(b'.tabs, Route(game, shards[s]))
    {
      TablesKept(b.tabs, b'.tabs, Route(game, shards[s]));
    }
  }

  lemma CachesKept(b: Backend, b': Backend, u: nat, game: DbId, shards: map<int, DbId>)
    requires Open(b, game, shards) && Tended(b, b', u, TableId(game, Account))
    requires u !in At(b.tabs, TableId(game, Account)).rows ==> u !in b'.cache
    ensures forall k :: k !in At(b'.tabs, TableId(game, Account)).rows ==> k !in b'.cache
  {
    hide Serving, ValidTables, ValidTable, OthersKept;
    forall k | k !in At(b'.tabs, TableId(game, Account)).rows
      ensures k !in b'.cache
    {
      if k != u { assert k !in b.cache && (k in b'.cache <==> k in b'.cache - {u}); }
    }
  }

  /** After a request every account is served as before, by whichever user it was made. */
  lemma OpenKept(b: Backend, b': Backend, u: nat, game: DbId, shards: map<int, DbId>)
    requires Open(b, game, shards) && Tended(b, b', u, TableId(game, Account))
    requires var t := At(b.tabs, TableId(game, Account));
      if u in t.rows then Coherent(b', u, RouteFor(game, shards, t.rows[u])) else u !in b'.cache
    ensures Open(b', game, shards)
  {
    ShardsKept(b, b', u, game, shards);
    CachesKept(b, b', u, game, shards);
    assert b'.tabs[TableId(game, Account)] == At(b'.tabs, TableId(game, Account));
    forall k | k in At(b'.tabs, TableId(game, Account)).rows
      ensures k != 0 && Serving(b', [], k, RouteFor(game, shards, At(b'.tabs, TableId(game, Account)).rows[k]), shards)
    {
      hide Open, Tended, Coherent, Serving;
      AccountKept(b, b', u, game, shards, k);
    }
    hide Serving, ValidTables, Tended, Coherent;
  }

  /** What an INSERT into the account table leaves of all tables. */
  lemma AddedAccount(b: Backend, b': Backend, game: DbId, shards: map<int, DbId>, r: Row)
    requires Open(b, game, shards) && NewAccount(r, shards)
    requires b'.cache == b.cache && AddedRow(b.tabs, TableId(game, Account), r, b'.tabs)
    ensures var id := TableId(game, Account);
      var t := At(b.tabs, id);
      && id in b.tabs && ValidTable(t, Account) && t.next !in t.rows && t.next != 0
      && At(b'.tabs, id).rows == t.rows[t.next := r.WithPk(t.next)]
      && OthersKept(b, b', t.next)
      && (forall i :: i in b.tabs && ValidTable(b.tabs[i], i.entity) ==> ValidTable(b'.tabs[i], i.entity))
  {
    var id := TableId(game, Account);
    var t := At(b.tabs, id);
    AccountTableValid(b, game, shards, r);
    InsertValid(t, Account, r);
    assert b'.tabs[id].rows == t.rows[t.next := r.WithPk(t.next)];
    NewRowOthers(t, r);
    hide ValidTable, UserRows;
    assert forall v :: b'.Cached(v) == b.Cached(v);
  }

  lemma NewRowOthers(t: Table, r: Row)
    requires r.AccountRow? && t.next !in t.rows
    ensures forall v :: v != t.next ==> UserRows(Table(t.rows[t.next := r.WithPk(t.next)], t.next + 1), v) == UserRows(t, v)
  {
    var t' := Table(t.rows[t.next := r.WithPk(t.next)], t.next + 1);
    assert r.WithPk(t.next).Owner() == t.next;
    hide Row.Owner, Row.WithPk;
    forall v | v != t.next
      ensures UserRows(t', v) == UserRows(t, v)
    {
      assert forall k :: k in UserRows(t', v) <==> k in UserRows(t, v);
    }
  }

  lemma AccountTableValid(b: Backend, game: DbId, shards: map<int, DbId>, r: Row)
    requires Open(b, game, shards) && NewAccount(r, shards)
    ensures var id := TableId(game, Account); id in b.tabs && ValidTable(At(b.tabs, id), Account)
  {
    hide ValidTable, Serving;
    assert ValidTables(b.tabs, Route(game, shards[r.shardId]));
    ValidIn(b.tabs, Route(game, shards[r.shardId]));
    assert Route(game, shards[r.shardId]).Id(Account) == TableId(game, Account);
  }

  lemma ServingBeside(b: Backend, b': Backend, u: nat, k: nat, rt: Route, shards: map<int, DbId>)
    requires Serving(b, [], k, rt, shards) && OthersKept(b, b', u) && k != u
    requires forall i :: i in b.tabs && ValidTable(b.tabs[i], i.entity) ==> ValidTable(b'.tabs[i], i.entity)
    requires var t, t' := At(b.tabs, rt.Id(Account)), At(b'.tabs, rt.Id(Account)); k in t'.rows && t'.rows[k] == t.rows[k]
    ensures Serving(b', [], k, rt, shards)
  {
    assert Sound([], b'.tabs, k, rt);
    hide Coherent, ValidTable, UserRows;
    TablesKept(b.tabs, b'.tabs, rt);
    ValidIn(b.tabs, rt);
    OthersCoherent(b, b', u, k, rt);
  }

  lemma AccountAdded(b: Backend, b': Backend, game: DbId, shards: map<int, DbId>, r: Row, k: nat)
    requires Open(b, game, shards) && NewAccount(r, shards)
    requires b'.cache == b.cache && AddedRow(b.tabs, TableId(game, Account), r, b'.tabs)
    requires k in At(b'.tabs, TableId(game, Account)).rows
    ensures k != 0 && Serving(b', [], k, RouteFor(game, shards, At(b'.tabs, TableId(game, Account)).rows[k]), shards)
  {
    var t := At(b.tabs, TableId(game, Account));
    hide Open, ValidTables, AddedRow, OthersKept, Serving, ValidTable;
    AddedAccount(b, b', game, shards, r);
    if k != t.next {
      OpenAt(b, game, shards, k);
      ServingBeside(b, b', t.next, k, RouteFor(game, shards, t.rows[k]), shards);
    } else {
      NewServed(b, b', game, shards, r);
    }
  }

  /** A new account is served like the others from the moment it is inserted. */
  lemma OpenAdded(b: Backend, b': Backend, game: DbId, shards: map<int, DbId>, r: Row)
    requires Open(b, game, shards) && NewAccount(r, shards)
    requires b'.cache == b.cache && AddedRow(b.tabs, TableId(game, Account), r, b'.tabs)
    ensures Open(b', game, shards)
  {
    hide Serving, ValidTable, AddedRow;
    AddedAccount(b, b', game, shards, r);
    assert b'.tabs.Keys == b.tabs.Keys;
    forall s | s in shards
      ensures shards[s] != NIL && ValidTables(b'.tabs, Route(game, shards[s]))
    {
      TablesKept(b.tabs, b'.tabs, Route(game, shards[s]));
    }
    hide OthersKept, ValidTables;
    forall k | k in At(b'.tabs, TableId(game, Account)).rows
      ensures k != 0 && Serving(b', [], k, RouteFor(game, shards, At(b'.tabs, TableId(game, Account)).rows[k]), shards)
    {
      AccountAdded(b, b', game, shards, r, k);
    }
  }

  lemma NewServed(b: Backend, b': Backend, game: DbId, shards: map<int, DbId>, r: Row)
    requires Open(b, game, shards) && NewAccount(r, shards)
    requires b'.cache == b.cache && AddedRow(b.tabs, TableId(game, Account), r, b'.tabs)
    ensures var t := At(b.tabs, TableId(game, Account));
      Serving(b', [], t.next, RouteFor(game, shards, r.WithPk(t.next)), shards)
  {
    var t, rt := At(b.tabs, TableId(game, Account)), RouteFor(game, shards, r);
    AddedAccount(b, b', game, shards, r);
    NewTables(b, game, shards, r);
    hide Open, OthersKept, ValidTable, AddedRow, ValidTables;
    assert b'.Cached(t.next) == map[];
    TablesKept(b.tabs, b'.tabs, rt);
    assert Sound([], b'.tabs, t.next, rt);
  }

  lemma NewTables(b: Backend, game: DbId, shards: map<int, DbId>, r: Row)
    requires Open(b, game, shards) && NewAccount(r, shards) && At(b.tabs, TableId(game, Account)).next !in At(b.tabs, TableId(game, Account)).rows
    ensures ValidTables(b.tabs, RouteFor(game, shards, r)) && RouteFor(game, shards, r).shard != NIL
    ensures At(b.tabs, TableId(game, Account)).next !in b.cache
  {
    hide Serving, ValidTables;
  }

  /** Loads only fill the user's own cache, with what the tables hold. */
  lemma StillOpen(u: UnitOfWork)
    requires u.Valid() && u.userId != 0 && Grounded(u) && Homed(u)
    ensures Open(u.c.Backend(), u.c.game, u.c.shards.shardMap)
    ensures OthersKept(Coherence.Backend(u.c.sql.tabs, u.hashes), u.c.Backend(), u.userId)
    ensures u.c.Valid() && u.c.users.hashes - {u.userId} == u.hashes - {u.userId}
  {
    var b, b' := Coherence.Backend(u.c.sql.tabs, u.hashes), u.c.Backend();
    ValidCoherent(u);
    Beside(u.hashes, u.c.users.hashes, u.userId);
    hide UnitOfWork.Valid, Open, Coherent, ValidTable, UserRows;
    OpenKept(b, b', u.userId, u.c.game, u.c.shards.shardMap);
  }

  /** Whoever the user, a unit of work has touched nobody else's hash. */
  lemma ValidBeside(u: UnitOfWork)
    requires u.Valid()
    ensures u.c.users.hashes - {u.userId} == u.hashes - {u.userId}
  {
    hide Steady, Reads, Follows, Container.Valid;
  }

  lemma ValidCoherent(u: UnitOfWork)
    requires u.Valid() && u.userId != 0
    ensures Coherent(u.c.Backend(), u.userId, u.now.rt)
    ensures u.c.Valid() && u.c.users.hashes - {u.userId} == u.hashes - {u.userId}
  {
    hide Steady, Reads, Coherent, Replay, AccountOk, Container.Valid, Sound, ValidTables, AccountRoutes;
  }

  lemma Beside(a: map<nat, Store>, b: map<nat, Store>, u: nat)
    requires a - {u} == b - {u}
    ensures forall v :: v != u ==> (v in a <==> v in b) && (v in a ==> a[v] == b[v])
  {
    forall v | v != u
      ensures (v in a <==> v in b) && (v in a ==> a[v] == b[v])
    {
      assert v in a <==> v in a - {u};
      assert v in b <==> v in b - {u};
    }
  }

  lemma SameAccountsSelf(t: Table)
    ensures SameAccounts(t, t)
  {
  }

  lemma KeyedValid(t: Table, e: Entity)
    requires ValidTable(t, e)
    ensures KeyedByPk(t)
  {
  }

  /** However a request ends, it has looked after its own user only. */
  lemma EndingTended(trace: seq<Event>, b: Backend, u: nat, rt: Route, ds: set<DbId>, c: Coherence.Commit, b': Backend)
    requires Ending(trace, b, u, rt, ds, c, b') && ValidTables(b.tabs, rt)
    ensures Tended(b, b', u, rt.Id(Account))
  {
    var id := rt.Id(Account);
    ValidAt(b.tabs, rt, Account);
    KeyedValid(b.tabs[id], Account);
    AccountsKept(b.tabs, CallsOf(trace), u, rt);
    SameAccountsSelf(b.tabs[id]);
    hide OthersKept, ValidTable, Direct, CallsOf, SameAccounts, Coherent, ValidTables;
  }

  /** A request that has changed no table has looked after its own user only. */
  lemma SameTended(b: Backend, b': Backend, u: nat, id: TableId)
    requires b'.tabs == b.tabs && b'.cache - {u} == b.cache - {u}
    ensures Tended(b, b', u, id)
  {
    SameAccountsSelf(At(b.tabs, id));
    Beside(b.cache, b'.cache, u);
    hide SameAccounts, UserRows;
  }

  lemma OthersKeptAgain(b: Backend, b1: Backend, b2: Backend, u: nat)
    requires OthersKept(b, b1, u) && OthersKept(b1, b2, u)
    ensures OthersKept(b, b2, u)
  {
    hide UserRows, Backend.Cached;
  }

  lemma TendedOthers(b: Backend, b': Backend, u: nat, id: TableId)
    requires Tended(b, b', u, id)
    ensures OthersKept(b, b', u) && At(b'.tabs, id).rows.Keys == At(b.tabs, id).rows.Keys
  {
    hide OthersKept;
  }

  lemma TendedAgain(b: Backend, b1: Backend, b2: Backend, u: nat, id: TableId)
    requires Tended(b, b1, u, id) && Tended(b1, b2, u, id)
    ensures Tended(b, b2, u, id)
  {
    OthersKeptAgain(b, b1, b2, u);
    hide OthersKept, ValidTable;
  }

  /** After a commit that ended in one of the usual ways, or changed nothing but the user's own cache, all is as before. */
  lemma EndedOpen(b: Backend, b': Backend, game: DbId, shards: map<int, DbId>, trace: seq<Event>, u: nat, ds: set<DbId>, c: Coherence.Commit, whole: bool)
    requires Open(b, game, shards) && u in At(b.tabs, TableId(game, Account)).rows
    requires var rt := RouteFor(game, shards, At(b.tabs, TableId(game, Account)).rows[u]);
      if whole then !c.Panicked? && Ending(trace, b, u, rt, ds, c, b')
      else b'.tabs == b.tabs && b'.cache - {u} == b.cache - {u} && (if c.Panicked? then b'.cache == b.cache else Coherent(b', u, rt))
    ensures Open(b', game, shards) && Tended(b, b', u, TableId(game, Account))
  {
    var rt := RouteFor(game, shards, At(b.tabs, TableId(game, Account)).rows[u]);
    OpenAt(b, game, shards, u);
    assert ValidTables(b.tabs, rt) && Coherent(b, u, rt);
    hide Open, Serving, Coherent, ValidTables, Tended;
    if whole {
      EndingTended(trace, b, u, rt, ds, c, b');
      EndingCoherent(trace, b, u, rt, ds, c, b');
    } else {
      SameTended(b, b', u, TableId(game, Account));
      if c.Panicked? { assert b' == b; }
    }
    hide Ending;
    OpenKept(b, b', u, game, shards);
  }

  lemma EndingCoherent(trace: seq<Event>, b: Backend, u: nat, rt: Route, ds: set<DbId>, c: Coherence.Commit, b': Backend)
    requires Ending(trace, b, u, rt, ds, c, b') && !c.Panicked?
    ensures Coherent(b', u, rt)
  {
    hide Coherent, OthersKept, ValidTable, Direct;
  }

  /** A unit of work that has only loaded leaves all as before. */
  lemma LeftOpen(u: UnitOfWork)
    requires u.Valid() && u.userId != 0 && Grounded(u) && Homed(u)
    ensures u.c.Valid() && Open(u.c.Backend(), u.c.game, u.c.shards.shardMap)
    ensures Tended(Coherence.Backend(u.c.sql.tabs, u.hashes), u.c.Backend(), u.userId, TableId(u.c.game, Account))
  {
    StillOpen(u);
    hide UnitOfWork.Valid, Open, Tended;
    SameTended(Coherence.Backend(u.c.sql.tabs, u.hashes), u.c.Backend(), u.userId, TableId(u.c.game, Account));
  }
}

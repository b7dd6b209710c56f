// Login: an existing account is loaded and touched, a new one is inserted at once and granted its
// first asset and item.
module Accounts {
  import opened Rows
  import opened TableRun
  import opened Calls
  import opened Queue
  import opened Request
  import opened Coherence
  import opened Balance
  import opened Stores
  import opened Units
  import opened Services
  import opened Upkeep
  import Sessions
  import Shards

  /** An active account of the channel. */
  ghost predicate Active(t: Table, channelUid: nat, k: nat) {
    k in t.rows && t.rows[k].AccountRow? && t.rows[k].channelUid == channelUid && t.rows[k].isActive > 0
  }

  /** SELECT user_id WHERE channel_uid = ? AND is_active > 0: none, any one of them, or a failed query. */
  method FindUserId(c: Container, channelUid: nat, flaky: bool) returns (ok: bool, id: Option<nat>)
    ensures !flaky ==> ok
    ensures ok && id.Some? ==> Active(At(c.sql.tabs, TableId(c.game, Account)), channelUid, id.value)
    ensures ok && id.None? ==> forall k :: !Active(At(c.sql.tabs, TableId(c.game, Account)), channelUid, k)
  {
    var answered: bool := *;
    if !answered && flaky { return false, None; }
    var t := At(c.sql.tabs, TableId(c.game, Account));
    var left := t.rows.Keys;
    while left != {}
      invariant left <= t.rows.Keys
      invariant forall k :: k in t.rows && k !in left ==> !Active(t, channelUid, k)
      decreases |left|
    {
      var k: nat :| k in left;
      if t.rows[k].AccountRow? && t.rows[k].channelUid == channelUid && t.rows[k].isActive > 0 { return true, Some(k); }
      left := left - {k};
    }
    return true, None;
  }

  /** A unit of work as dispatch makes it: nothing loaded, nothing queued. */
  ghost predicate Blank(u: UnitOfWork)
    reads u, u.c.users
  {
    u.store == map[] && u.dbOps == [] && u.dirty == {} && u.now == Shadow({}, EMPTY_REQ, [], u.now.rt) && u.hashes == u.c.users.hashes
  }

  datatype LoginError = LoggedIn | LookupFailed | NoShardAvailable | NotInserted | AccountNotLoaded

  ghost predicate Ready(c: Container)
    reads c.shards, c.sql, c.users
  {
    c.Valid() && Open(c.Backend(), c.game, c.shards.shardMap)
  }

  /** What Open says about one account. */
  lemma OpenAccount(b: Backend, game: DbId, shards: map<int, DbId>, k: nat)
    requires Open(b, game, shards) && k in At(b.tabs, TableId(game, Account)).rows
    ensures k != 0 && Serving(b, [], k, RouteFor(game, shards, At(b.tabs, TableId(game, Account)).rows[k]), shards)
  {
    hide Serving, ValidTables;
  }

  /** The account of the unit of work, as a scan would find it. */
  lemma AccountScanned(u: UnitOfWork, m: Model, call: Call)
    requires u.Valid() && Account in u.store && u.store[Account] == [m] && call.TouchAccount?
    ensures m.row.AccountRow? && Scanned(u.store, u.now.req.store, call, m)
    ensures call.Hits(m.row) && call.Change(m.row) == Some(m.row.(deviceId := call.deviceId))
  {
    ListFacts(u, Account);
    hide UnitOfWork.Valid, Calls.Find;
    assert u.store[Account][0] == m;
    FindIs(u.now.req.store[Account], call, 0);
  }

  /** The row an unknown channel user gets, as it is sent to the database. */
  ghost predicate FirstAccount(r: Row, channelUid: nat, deviceId: string, shards: map<int, DbId>) {
    NewAccount(r, shards) && r.channelUid == channelUid && r.deviceId == deviceId && r.isActive == 1
  }

  /** The account table has taken in the row that was made, if one was. */
  predicate Made(tabs: Tables, accounts: TableId, made: Option<Row>, tabs': Tables) {
    if made.Some? then AddedRow(tabs, accounts, made.value, tabs') else tabs' == tabs
  }

  class AccountService {
    constructor () {
    }

    /** `draw` is the random number of PickShard; `made` the row inserted, even if the answer to the INSERT was lost. */
    method Login(u: UnitOfWork, channelUid: nat, deviceId: string, draw: int, flaky: bool)
      returns (err: LoginError, account: Model?, isNew: bool, ghost made: Option<Row>)
      requires Ready(u.c) && Blank(u) && u.Valid()
      requires 0 < u.c.shards.totalWeight ==> 0 <= draw < u.c.shards.totalWeight
      modifies u, u.c.users, u.c.sql
      // What is in the database.
      ensures Made(old(u.c.sql.tabs), TableId(u.c.game, Account), made, u.c.sql.tabs)
      ensures made.Some? ==>
        && FirstAccount(made.value, channelUid, deviceId, u.c.shards.shardMap)
        && Some(made.value.shardId) == Shards.Draw(Shards.Pool(u.c.shards.regs), draw)
        && (forall k :: !Active(old(At(u.c.sql.tabs, TableId(u.c.game, Account))), channelUid, k))
        && ((err == LoggedIn && isNew) || err == NotInserted)
      // What everybody else sees.
      ensures Grounded(u) && u.c.users.hashes - {u.userId} == u.hashes - {u.userId}
      ensures err != LoggedIn ==> Ready(u.c)
      ensures err == NotInserted ==> u.c.users.hashes == u.hashes
      // What the request holds.
      ensures err == LoggedIn ==>
        && u.Valid() && u.userId != 0 && Homed(u) && account != null && Account in u.store && u.store[Account] == [account]
        && fresh(u.now.objects) && account in u.now.objects && account.row.AccountRow? && account.row.deviceId == deviceId
        && CallsOf(u.now.trace) == (if isNew then [] else [TouchAccount(deviceId)]) && NoNil(u.dbOps)
      ensures err == LoggedIn && isNew ==>
        && made.Some? && u.userId == old(At(u.c.sql.tabs, TableId(u.c.game, Account))).next && account.row == made.value.WithPk(u.userId)
        && u.now.trace == [Load(Account, [account.row])]
      ensures err == LoggedIn && !isNew ==>
        made.None? && Active(old(At(u.c.sql.tabs, TableId(u.c.game, Account))), channelUid, u.userId)
      ensures !flaky && 0 < u.c.shards.totalWeight ==> err == LoggedIn
    {
      hide UnitOfWork.Consistent, Open, Active, Accepted, CallsOf, UnitOfWork.Announceable, UnitOfWork.Writable, Scanned, Call.Hits, Call.Change, Sql.Valid, Serving, AddedRow, Shards.Draw, Shards.Pool;
      isNew, account, made := false, null, None;
      var ok, id := FindUserId(u.c, channelUid, flaky);
      if !ok { return LookupFailed, null, false, None; }
      OpenTable(u.c.Backend(), u.c.game, u.c.shards.shardMap);
      if id.None? {
        var shardId := u.c.shards.PickShard(draw);
        if shardId.None? { return NoShardAvailable, null, false, None; }
        ghost var b, r := u.c.Backend(), AccountRow(0, channelUid, deviceId, 1, shardId.value);
        var row := new Model(AccountRow(0, channelUid, deviceId, 1, shardId.value), (Account, 0));
        var inserted := u.CreateNow(Account, row, flaky);
        made := if u.c.sql.tabs == b.tabs then None else Some(r);
        if made.Some? { OpenAdded(b, u.c.Backend(), u.c.game, u.c.shards.shardMap, r); }
        if !inserted { return NotInserted, null, false, made; }
        RowAdded(b.tabs, TableId(u.c.game, Account), r, u.c.sql.tabs);
        ValidBeside(u);
        HomedNew(u, b.tabs, r);
        NoCalls(row.row);
        return LoggedIn, row, true, Some(r);
      }
      OpenAccount(u.c.Backend(), u.c.game, u.c.shards.shardMap, id.value);
      NothingCalled();
      u.SetUserId(id.value, RouteFor(u.c.game, u.c.shards.shardMap, At(u.c.sql.tabs, TableId(u.c.game, Account)).rows[id.value]));
      ok, account := Touch(u, deviceId, flaky);
      ValidBeside(u);
      if !ok { StillOpen(u); }
      return if ok then LoggedIn else AccountNotLoaded, account, false, None;
    }

    /** The existing account gets the new device id. */
    method Touch(u: UnitOfWork, deviceId: string, flaky: bool) returns (ok: bool, account: Model?)
      requires u.Valid() && u.store == map[] && u.dbOps == [] && u.now.objects == {} && CallsOf(u.now.trace) == []
      modifies u, u.c.users
      ensures u.Valid() && u.userId == old(u.userId) && u.now.rt == old(u.now.rt)
      ensures ok ==>
        && account != null && Account in u.store && u.store[Account] == [account]
        && fresh(u.now.objects) && account in u.now.objects && account.row.AccountRow? && account.row.deviceId == deviceId
        && CallsOf(u.now.trace) == [TouchAccount(deviceId)] && NoNil(u.dbOps)
      ensures !flaky && old(u.userId) != 0 ==> ok
    {
      hide UnitOfWork.Consistent, Accepted, CallsOf, UnitOfWork.Announceable, UnitOfWork.Writable, Scanned, Call.Hits, Call.Change, OnList;
      var why;
      why, account := u.LoadOne(Account, flaky);
      if account == null { return false, null; }
      ghost var call := TouchAccount(deviceId);
      AccountScanned(u, account, call);
      FoundFacts(u, call, account);
      account.row := account.row.(deviceId := deviceId);
      u.Written(account, call);
      u.Update(Account, account, flaky, call);
      return true, account;
    }
  }

  /** Two different tables: the row is in. */
  lemma RowAdded(tabs: Tables, id: TableId, r: Row, tabs': Tables)
    requires AddedRow(tabs, id, r, tabs')
    ensures tabs' != tabs && id in tabs' && At(tabs, id).next in At(tabs', id).rows && At(tabs', id).rows[At(tabs, id).next] == r.WithPk(At(tabs, id).next)
  {
    assert At(tabs', id).next == At(tabs, id).next + 1;
    hide Free;
  }

  lemma HomedNew(u: UnitOfWork, tabs: Tables, r: Row)
    requires var id := TableId(u.c.game, Account);
      && u.userId == At(tabs, id).next && u.userId in At(u.c.sql.tabs, id).rows && At(u.c.sql.tabs, id).rows[u.userId] == r.WithPk(u.userId)
      && r.AccountRow? && u.now.rt == RouteFor(u.c.game, u.c.shards.shardMap, r)
    ensures Homed(u)
  {
  }

  lemma NothingCalled()
    ensures CallsOf([]) == []
  {
  }

  lemma NoCalls(r: Row)
    ensures CallsOf([Load(Account, [r])]) == []
  {
    assert [Load(Account, [r])][..0] == [];
  }

  datatype LoginReply = Welcome(userId: nat, isNew: bool) | BadRequest | LoginFailed(why: LoginError) | GrantFailed(error: ServiceError) | NoSession

  /** What the handler calls for a new account. */
  function Grant(design: Option<nat>): seq<Call> {
    [AddAsset(10000, 100), AddItem(25000, 5, design), ConsumeItem(25000, 3)]
  }

  method GrantFirst(u: UnitOfWork, assetSvc: AssetService, itemSvc: ItemService, design: Option<nat>, flaky: bool) returns (err: ServiceError)
    requires u.Valid() && CallsOf(u.now.trace) == [] && u.userId != 0 && Account in u.store && NoNil(u.dbOps)
    requires Grounded(u) && Homed(u)
    modifies u, u.now.objects, u.c.users
    ensures Grounded(u) && Homed(u)
    ensures u.Valid() && u.userId == old(u.userId) && u.now.rt == old(u.now.rt) && NoNil(u.dbOps)
    ensures fresh(u.now.objects - old(u.now.objects))
    ensures err.Fine? ==> CallsOf(u.now.trace) == Grant(design)
    ensures !flaky && design.Some? ==> err.Fine?
    ensures err.Fine? || (err.NotAvailable? && err.why != NilDatabase) || err == NotFoundDesign
  {
    hide UnitOfWork.Valid, Accepted, CallsOf, NoNil, Open, At;
    err := assetSvc.AddAsset(u, 10000, 100, flaky);
    if err != Fine { return; }
    err := itemSvc.AddItem(u, 25000, 5, design, flaky);
    if err != Fine { return; }
    // The source drops this call's error.
    var dropped := itemSvc.ConsumeItem(u, 25000, 3, flaky);
  }

  /** What a session history may have gained by the login of a user. */
  ghost predicate Issued(before: seq<Sessions.Op>, after: seq<Sessions.Op>, reply: LoginReply, user: nat, token: string, now: int) {
    || (after == before && !reply.Welcome?)
    || (after == before + [Sessions.Set(user, token, now)] && (reply.Welcome? || reply.NoSession?))
  }

  /** UserSession.Set; when Redis does not answer, the session may be there all the same. */
  method Issue(sessions: Sessions.UserSession, user: nat, token: string, now: int, flaky: bool) returns (ok: bool)
    requires sessions.Valid() && forall i :: 0 <= i < |sessions.history| ==> sessions.history[i].time <= now
    modifies sessions
    ensures sessions.Valid() && (!flaky ==> ok) && forall i :: 0 <= i < |sessions.history| ==> sessions.history[i].time <= now
    ensures sessions.history == old(sessions.history) + [Sessions.Set(user, token, now)] || (!ok && sessions.history == old(sessions.history))
    ensures sessions.sessions.Keys == old(sessions.sessions).Keys + if sessions.history == old(sessions.history) then {} else {user}
    ensures ok ==> sessions.sessions == old(sessions.sessions)[user := Sessions.Session(token, now + 28_800_000)]
  {
    hide Sessions.Run, Sessions.Timed;
    var answered: bool := *;
    var applied: bool := *;
    ok := answered || !flaky;
    if ok || applied { sessions.Set(user, token, now); }
  }

  /**
   * The Login handler; `design` is item 25000 of the catalog, `token` the new session's token. Whatever it
   * replies, at most one account row has been inserted, and nothing else in the database has changed yet.
   */
  method Login(u: UnitOfWork, svc: AccountService, assetSvc: AssetService, itemSvc: ItemService, sessions: Sessions.UserSession,
               channelUid: nat, deviceId: string, draw: int, design: Option<nat>, token: string, now: int, flaky: bool)
    returns (reply: LoginReply, ghost made: Option<Row>)
    requires Ready(u.c) && Blank(u) && u.Valid()
    requires 0 < u.c.shards.totalWeight ==> 0 <= draw < u.c.shards.totalWeight
    requires sessions.Valid() && forall i :: 0 <= i < |sessions.history| ==> sessions.history[i].time <= now
    modifies u, u.c.users, u.c.sql, sessions
    ensures sessions.Valid() && Issued(old(sessions.history), sessions.history, reply, u.userId, token, now)
    ensures !reply.Welcome? && !reply.NoSession? ==> sessions.history == old(sessions.history)
    ensures sessions.sessions.Keys == old(sessions.sessions).Keys + if reply.Welcome? || (reply.NoSession? && sessions.history != old(sessions.history)) then {u.userId} else {}
    ensures reply.Welcome? ==> sessions.sessions == old(sessions.sessions)[u.userId := Sessions.Session(token, now + 28_800_000)]
    ensures forall i :: 0 <= i < |sessions.history| ==> sessions.history[i].time <= now
    ensures Made(old(u.c.sql.tabs), TableId(u.c.game, Account), made, u.c.sql.tabs)
    ensures reply == LoginFailed(NotInserted) ==> u.c.users.hashes == u.hashes
    ensures made.Some? ==>
      && FirstAccount(made.value, channelUid, deviceId, u.c.shards.shardMap)
      && Some(made.value.shardId) == Shards.Draw(Shards.Pool(u.c.shards.regs), draw)
      && (forall k :: !Active(old(At(u.c.sql.tabs, TableId(u.c.game, Account))), channelUid, k))
      && (reply == LoginFailed(NotInserted) || u.userId == old(At(u.c.sql.tabs, TableId(u.c.game, Account))).next)
    ensures Grounded(u) && u.c.users.hashes - {u.userId} == u.hashes - {u.userId}
    ensures !reply.Welcome? ==> Ready(u.c)
    ensures reply.BadRequest? <==> channelUid == 0 || deviceId == ""
    ensures reply.BadRequest? || (reply.LoginFailed? && reply.why != NotInserted) ==> made.None?
    ensures reply.GrantFailed? ==> made.Some?
    ensures reply.Welcome? || reply.NoSession? || reply.GrantFailed? ==> u.userId != 0 && Homed(u)
    ensures reply.Welcome? ==>
      && u.Valid() && reply.userId == u.userId && fresh(u.now.objects) && NoNil(u.dbOps) && reply.isNew == made.Some?
      && CallsOf(u.now.trace) == (if reply.isNew then Grant(design) else [TouchAccount(deviceId)])
      && (!reply.isNew ==> Active(old(At(u.c.sql.tabs, TableId(u.c.game, Account))), channelUid, u.userId))
    ensures !flaky && channelUid != 0 && deviceId != "" && 0 < u.c.shards.totalWeight && design.Some? ==> reply.Welcome?
  {
    hide UnitOfWork.Valid, Open, Active, Accepted, CallsOf, Sessions.Run, Sessions.Timed, Made, FirstAccount, NoNil, Shards.Draw, Shards.Pool, Grounded, Homed, Serving, Container.Valid, Grant;
    made := None;
    GroundedBlank(u);
    assert Made(u.c.sql.tabs, TableId(u.c.game, Account), None, u.c.sql.tabs) by { NothingMade(u.c.sql.tabs, TableId(u.c.game, Account)); }
    if channelUid == 0 || deviceId == "" { return BadRequest, None; }
    var err, account, isNew;
    err, account, isNew, made := svc.Login(u, channelUid, deviceId, draw, flaky);
    if err != LoggedIn { return LoginFailed(err), made; }
    if isNew {
      var e := GrantFirst(u, assetSvc, itemSvc, design, flaky);
      if e != Fine {
        StillOpen(u);
        return GrantFailed(e), made;
      }
    }
    var issued := Issue(sessions, u.userId, token, now, flaky);
    if !issued {
      StillOpen(u);
      return NoSession, made;
    }
    ValidBeside(u);
    return Welcome(u.userId, isNew), made;
  }

  lemma GroundedBlank(u: UnitOfWork)
    requires Ready(u.c) && Blank(u)
    ensures Grounded(u) && u.c.users.hashes == u.hashes
  {
    hide Open;
  }

  lemma NothingMade(tabs: Tables, accounts: TableId)
    ensures Made(tabs, accounts, None, tabs)
  {
  }

  // ------------------------------------------------------------------ what the grant comes to

  ghost predicate NoRows(t: Table, u: nat) {
    forall k :: k in t.rows ==> t.rows[k].Owner() != u
  }

  function Added(t: Table, r: Row): Table {
    Table(t.rows[t.next := r.WithPk(t.next)], t.next + 1)
  }

  /** The first row of its kind a user gets. */
  lemma FirstRow(t: Table, e: Entity, u: nat, call: Call)
    requires ValidTable(t, e) && NoRows(t, u) && call.Kind() == e && call.Fresh(u).Some?
    ensures OnTable(t, call, u) == Added(t, call.Fresh(u).value) && ValidTable(Added(t, call.Fresh(u).value), e)
  {
    assert forall k :: !HitIn(t, u, call, k);
    FreeFresh(t, e, u, call);
    InsertValid(t, e, call.Fresh(u).value);
    hide ValidTable, Call.Hits, Call.Kind, Free;
  }

  lemma OwnerKept(r: Row, id: nat)
    ensures !r.AccountRow? ==> r.WithPk(id).Owner() == r.Owner()
  {
  }

  lemma OnlyRow(t: Table, u: nat, r: Row)
    requires NoRows(t, u) && r.Owner() == u && !r.AccountRow? && t.next !in t.rows
    ensures UserRows(Added(t, r), u) == map[t.next := r.WithPk(t.next)]
  {
    hide Row.Owner;
    var after := Added(t, r);
    assert r.WithPk(t.next).Owner() == u by { OwnerKept(r, t.next); }
    assert forall k :: k in UserRows(after, u) <==> k == t.next;
  }

  /** Five of item 25000, less three. */
  lemma GrantedItem(t: Table, u: nat, itemType: nat)
    requires ValidTable(t, Items) && NoRows(t, u)
    ensures OnTable(OnTable(t, AddItem(25000, 5, Some(itemType)), u), ConsumeItem(25000, 3), u) ==
      Added(t, ItemRow(0, u, itemType % U16, 25000, 2))
  {
    var add, consume := AddItem(25000, 5, Some(itemType)), ConsumeItem(25000, 3);
    FirstRow(t, Items, u, add);
    var t1, k := Added(t, ItemRow(0, u, itemType % U16, 25000, 5)), t.next;
    assert HitIn(t1, u, consume, k);
    forall l | HitIn(t1, u, consume, l)
      ensures l == k
    {
    }
    hide ValidTable, HitIn, NoRows, OnTable;
    OnTableHit(t1, Items, u, consume, k);
  }

  /** The two new rows of a user who had none. */
  ghost predicate Granted(tabs: Tables, after: Tables, u: nat, rt: Route, itemType: nat) {
    var items, assets := rt.Id(Items), rt.Id(Assets);
    && items in tabs && assets in tabs && items in after && assets in after
    && UserRows(after[items], u) == map[tabs[items].next := ItemRow(tabs[items].next, u, itemType % U16, 25000, 2)]
    && UserRows(after[assets], u) == map[tabs[assets].next := AssetRow(tabs[assets].next, u, 10000, 100, 0)]
  }

  /** A new account starts with 100 of asset 10000 and two of item 25000, and nothing else of either kind. */
  lemma GrantGives(tabs: Tables, u: nat, rt: Route, itemType: nat)
    requires ValidTables(tabs, rt) && NoRows(At(tabs, rt.Id(Items)), u) && NoRows(At(tabs, rt.Id(Assets)), u)
    ensures Granted(tabs, Direct(tabs, Grant(Some(itemType)), u, rt), u, rt, itemType)
  {
    var calls := Grant(Some(itemType));
    var items, assets := tabs[rt.Id(Items)], tabs[rt.Id(Assets)];
    assert ValidTable(items, Items) && ValidTable(assets, Assets) && items.next !in items.rows && assets.next !in assets.rows;
    DirectThree(tabs, calls[0], calls[1], calls[2], u, rt);
    hide ValidTable, ValidTables, OnTable, NoRows, UserRows, Direct;
    FirstRow(assets, Assets, u, calls[0]);
    GrantedItem(items, u, itemType);
    OnlyRow(items, u, ItemRow(0, u, itemType % U16, 25000, 2));
    OnlyRow(assets, u, AssetRow(0, u, 10000, 100, 0));
  }

  lemma DirectThree(tabs: Tables, a: Call, b: Call, c: Call, u: nat, rt: Route)
    ensures Direct(tabs, [a, b, c], u, rt) == OnTables(OnTables(OnTables(tabs, a, u, rt), b, u, rt), c, u, rt)
  {
    hide OnTables;
    assert [a, b, c][..2] == [a, b] && [a, b][..1] == [a] && [a][..0] == [];
    assert Direct(tabs, [a], u, rt) == OnTables(Direct(tabs, [], u, rt), a, u, rt);
    assert Direct(tabs, [a, b], u, rt) == OnTables(Direct(tabs, [a], u, rt), b, u, rt);
  }
}

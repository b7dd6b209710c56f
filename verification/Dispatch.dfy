// The single entry point: session check, user lock, handler, commit, sync, release.
module Dispatch {
  import opened Rows
  import opened TableRun
  import opened Calls
  import opened Queue
  import opened Transactions
  import opened Request
  import opened Deferred
  import opened Coherence
  import opened Mirror
  import opened Balance
  import opened Stores
  import opened Units
  import opened Services
  import opened Sync
  import opened Finish
  import opened Upkeep
  import opened Grants
  import Accounts
  import Leases
  import Sessions
  import Shards

  datatype Action = LoginAction(channelUid: nat, deviceId: string) | UpgradeCardAction(cardIdx: nat) | GetListAction(entity: Entity) | UnknownAction

  /** The body of a response. */
  datatype Body =
    | ErrorResponse
    | LoginResponse(userId: nat, channelUid: nat, isNew: bool, sessionToken: string)
    | ListResponse(list: seq<Data>)
    | CardResponse(card: Data)

  /** The user has this card. */
  ghost predicate OwnsCard(tabs: Tables, rt: Route, user: nat, cardIdx: nat) {
    var t := At(tabs, rt.Id(Cards));
    cardIdx in t.rows && t.rows[cardIdx].CardRow? && t.rows[cardIdx].userId == user
  }

  /** What an authenticated action answers: the card with its new level, or the user's list as it is in the table. */
  ghost predicate Replies(tabs: Tables, rt: Route, user: nat, action: Action, body: Body) {
    match action
    case UpgradeCardAction(k) =>
      && OwnsCard(tabs, rt, user, k)
      && var r := At(tabs, rt.Id(Cards)).rows[k];
      body == CardResponse(CardData(idx := k, userId := user, cardId := r.cardId, level := (r.level + 1) % 0x1_0000, details := r.details))
    case GetListAction(e) => body.ListResponse? && TellsAll(body.list, At(tabs, rt.Id(e)), user)
    case _ => false
  }

  /** A list on which nothing has been called is the user's rows of the table. */
  lemma HeldLists(u: UnitOfWork, e: Entity)
    requires u.Valid() && u.userId != 0 && CallsOf(u.now.trace) == [] && e in u.store
    ensures e in u.now.req.store && |u.store[e]| == |u.now.req.store[e]|
    ensures Rows.Lists(u.now.req.store[e], At(u.c.sql.tabs, u.now.rt.Id(e)), u.userId)
    ensures forall i :: 0 <= i < |u.store[e]| ==> u.store[e][i].row == u.now.req.store[e][i] && u.store[e][i].row.Kind() == e
    ensures ValidTable(At(u.c.sql.tabs, u.now.rt.Id(e)), e)
  {
    ValidFacts(u);
    ListFacts(u, e);
    hide UnitOfWork.Valid, UnitOfWork.Consistent, Replay, Steady, Coherent, CallsOf, Sound, Rows.Lists, ValidTable;
    LoadedStays(u.now.trace, u.userId, u.now.rt, e);
    LoadedLists(u.now.trace, u.c.sql.tabs, u.userId, u.now.rt, e);
    ValidAt(u.c.sql.tabs, u.now.rt, e);
  }

  /** The card the scan ends at is the table's. */
  lemma FoundCard(u: UnitOfWork, card: Model, cardIdx: nat)
    requires u.Valid() && u.userId != 0 && CallsOf(u.now.trace) == [] && Scanned(u.store, u.now.req.store, UpgradeCard(cardIdx), card)
    ensures OwnsCard(u.c.sql.tabs, u.now.rt, u.userId, cardIdx) && At(u.c.sql.tabs, u.now.rt.Id(Cards)).rows[cardIdx] == card.row && card.row.pk == cardIdx
  {
    FoundFacts(u, UpgradeCard(cardIdx), card);
    HeldLists(u, Cards);
    hide UnitOfWork.Valid, UnitOfWork.Writable, Calls.Find, Rows.Lists, ValidTable, CallsOf;
    ListsPointwise(u.now.req.store[Cards], At(u.c.sql.tabs, u.now.rt.Id(Cards)), u.userId, Cards);
  }

  lemma RaisedReply(tabs: Tables, rt: Route, user: nat, cardIdx: nat, card: Row, after: Row)
    requires OwnsCard(tabs, rt, user, cardIdx) && At(tabs, rt.Id(Cards)).rows[cardIdx] == card && card.pk == cardIdx
    requires after == card.(level := (card.level + 1) % U16)
    ensures Replies(tabs, rt, user, UpgradeCardAction(cardIdx), CardResponse(Send(after)))
  {
  }

  /** The UpgradeCardLevel handler: the card's level goes up by one, in place. */
  method UpgradeCardLevel(u: UnitOfWork, svc: CardService, cardIdx: nat, flaky: bool) returns (err: ServiceError, body: Body)
    requires u.Valid() && u.userId != 0 && CallsOf(u.now.trace) == []
    modifies u, u.now.objects, u.c.users
    ensures err.Fine? ==> Replies(u.c.sql.tabs, u.now.rt, u.userId, UpgradeCardAction(cardIdx), body)
    ensures u.Valid() && Answered(u, UpgradeCard(cardIdx), err) && Grows(u) && Healthy(u, flaky, err)
    ensures err.Fine? || err.NotAvailable? || err == CardNotFound
    ensures err == CardNotFound ==> Missing(u, UpgradeCard(cardIdx))
  {
    hide UnitOfWork.Valid, OnList, Scanned, Accepted, CallsOf, Call.Hits, Call.Change, UnitOfWork.Announceable, UnitOfWork.Writable;
    body := ErrorResponse;
    ghost var call := UpgradeCard(cardIdx);
    var why, card := svc.GetCard(u, cardIdx, flaky);
    if why != NoError { return NotAvailable(why), body; }
    if card == null {
      AbsentFacts(u, call);
      u.Refuse(call);
      return CardNotFound, body;
    }
    FoundCard(u, card, cardIdx);
    FoundFacts(u, call, card);
    CardChange(call, card.row);
    RaisedReply(u.c.sql.tabs, u.now.rt, u.userId, cardIdx, card.row, card.row.(level := (card.row.level + 1) % U16));
    hide Replies, OwnsCard, Send;
    card.row := card.row.(level := (card.row.level + 1) % U16);
    u.Written(card, call);
    u.Update(Cards, card, flaky, call);
    return Fine, CardResponse(Send(card.row));
  }

  /** A finished request with these tables, calls and sync field. */
  ghost predicate Success(before: Tables, b: Backend, calls: seq<Call>, u: nat, rt: Route, sync: Option<SyncData>) {
    && b.tabs == Direct(before, calls, u, rt)
    && Coherent(b, u, rt)
    && Mirrors(before, b.tabs, u, rt, sync)
  }

  /** CommitOrRollback, then the sync field. */
  method Complete(u: UnitOfWork, faults: seq<Fault>, reply: CacheReply) returns (res: Coherence.Commit, sync: Option<SyncData>)
    requires u.Valid() && u.userId != 0
    modifies u, u.now.objects, u.c.sql, u.c.users
    ensures u.c.Valid() && u.userId == old(u.userId) && u.c.users.hashes - {u.userId} == old(u.c.users.hashes) - {u.userId}
    ensures res.Committed? ==> Success(old(u.c.sql.tabs), u.c.Backend(), old(CallsOf(u.now.trace)), u.userId, old(u.now.rt), sync)
    ensures res.CacheFailed? ==>
      u.c.sql.tabs == Direct(old(u.c.sql.tabs), old(CallsOf(u.now.trace)), u.userId, old(u.now.rt)) && u.userId !in u.c.users.hashes
    ensures res.Aborted? ==> u.userId !in u.c.users.hashes
    // Whatever the queue, exactly the groups before the failure have taken effect.
    ensures AllHeld(old(Actual(u.dbOps)), old(u.now.req.store))
    ensures RanFirst(State(old(u.c.sql.tabs), old(u.now.req.store)), Groups(old(Actual(u.dbOps))), Groupwise(res, old(Actual(u.dbOps))), u.c.sql.tabs)
    // Every database of the queue is there: the request ends in one of the ways any request may end.
    ensures NoNil(old(u.dbOps)) ==>
      && !res.Panicked? && (res.Aborted? ==> res.o.TxFailed?)
      && AllHeld(old(u.now.req.ops), old(u.now.req.store)) && OneDb(old(u.now.req.ops))
      && OutcomeOf(res) == DbPhase(old(u.now.req), old(u.c.sql.tabs), faults).0
      && Ending(old(u.now.trace), old(u.c.Backend()), u.userId, old(u.now.rt), CommittedDbs(old(u.now.req), OutcomeOf(res)), res, u.c.Backend())
    // One is not: the commit panics or fails, and one write at most has not been made.
    ensures !NoNil(old(u.dbOps)) ==> res.Aborted? || res.Panicked?
    ensures |old(u.now.req.ops)| <= 1 && (res.Aborted? || res.Panicked?) ==> u.c.sql.tabs == old(u.c.sql.tabs)
    ensures |old(u.now.req.ops)| <= 1 && res.Panicked? ==> u.c.users.hashes == old(u.c.users.hashes)
    ensures !res.Panicked? ==> Coherent(u.c.Backend(), u.userId, old(u.now.rt))
    ensures NoNil(old(u.dbOps)) && NoFaults(faults) && reply.Written? ==> res.Committed?
  {
    hide UnitOfWork.Valid, Container.Valid, Serving, Steady, Replay, Reads, RunGroups, CachePhase, RollbackPhase, Ended, AllHeld, Actual, Direct, Coherent, Mirrors, CallsOf, Groups, Carries, NoNil, NoFaults, Ending, RanFirst, Groupwise, CommittedDbs, DbPhase, OneDb;
    ghost var b, trace, rt, r := u.c.Backend(), u.now.trace, u.now.rt, u.now.req;
    ghost var store, dbOps, dirty, shards := u.store, u.dbOps, u.dirty, u.c.shards.shardMap;
    ValidFacts(u);
    res := Finish.CommitOrRollback(u, faults, reply);
    ghost var s := State(b.tabs, r.store);
    ghost var x := RunGroups(Actual(dbOps), s, faults);
    Ends(b, trace, u.userId, rt, shards, store, dbOps, dirty, faults, reply);
    RunLasts(b, trace, u.userId, rt, shards, store, dbOps, dirty, faults);
    EndsGroupwise(Actual(dbOps), s, faults, b, u.userId, reply);
    EndedFacts(b, trace, u.userId, rt, dbOps, x, res, u.c.Backend(), reply);
    if NoNil(dbOps) {
      EndsWhole(b, trace, u.userId, rt, shards, store, dbOps, dirty, faults, reply);
      if NoFaults(faults) {
        HealthyCommits(b, trace, u.userId, rt, shards, store, dbOps, dirty, faults);
        WrittenCommits(x.0, x.1, b, u.userId, reply);
      }
    }
    sync := None;
    if res == Committed {
      SteadyFacts(store, r.store, dbOps, dirty, r.ops);
      sync := CollectSync(u, r, b.tabs);
      ServingMirrors(b, trace, u.userId, rt, shards, x.1, sync);
    }
  }

  /** What a valid unit of work with a user knows before it commits. */
  lemma ValidFacts(u: UnitOfWork)
    requires u.Valid() && u.userId != 0
    ensures Serving(u.c.Backend(), u.now.trace, u.userId, u.now.rt, u.c.shards.shardMap)
    ensures u.now.req == Replay(u.now.trace, u.userId, u.now.rt) && |u.dbOps| == |u.now.req.ops|
    ensures Steady(u.store, u.now.req.store, u.dbOps, u.dirty, u.now.req.ops) && AllHeld(u.now.req.ops, u.now.req.store)
  {
    hide Replay, Steady, Serving, Reads, Container.Valid, Sound, Coherent, AccountOk;
    ReplayHeld(u.now.trace, u.userId, u.now.rt);
  }

  lemma SteadyFacts(store: Lists, rows: Store, dbOps: seq<DbOp>, dirty: set<Model>, ops: seq<QueuedOp>)
    requires Steady(store, rows, dbOps, dirty, ops)
    ensures DirtyIs(dirty, ops, store) && Placed(store) && store.Keys == rows.Keys && forall e :: e in store ==> |store[e]| == |rows[e]|
  {
    hide DirtyIs, Placed, Linked;
  }

  lemma WrittenCommits(o: Outcome, s: State, b: Backend, u: nat, reply: CacheReply)
    ensures o.AllCommitted? && reply.Written? ==> CachePhase(o, s, b, u, reply).0.Committed?
  {
  }

  /** Reading off how the request ended. */
  lemma EndedFacts(b: Backend, trace: seq<Event>, u: nat, rt: Route, dbOps: seq<DbOp>, x: (Outcome, State), c: Coherence.Commit, b': Backend, reply: CacheReply)
    requires Ended(b, trace, u, rt, |Groups(Actual(dbOps))| <= 1, x, c, b')
    requires var (c0, b1) := CachePhase(x.0, x.1, b, u, reply); c == c0 && b' == RollbackPhase(c0, b1, u)
    requires u != 0 && (x.0.AllCommitted? ==> NoNil(dbOps))
    ensures c.Panicked? || Coherent(b', u, rt)
    ensures b'.cache - {u} == b.cache - {u}
    ensures c.Committed? || c.CacheFailed? ==> Lasting(b, trace, u, rt, x.1) && b'.tabs == x.1.tabs == Direct(b.tabs, CallsOf(trace), u, rt)
    ensures c.Committed? || c.CacheFailed? ==> NoNil(dbOps)
    ensures |dbOps| <= 1 && (c.Aborted? || c.Panicked?) ==> b'.tabs == b.tabs
    ensures c.CacheFailed? || c.Aborted? ==> u !in b'.cache
    ensures c.Panicked? ==> b'.cache == b.cache
  {
    hide Coherent, Direct, CallsOf, Groups, Actual, Replay, AssignedStore, NoNil;
    FewGroups(Actual(dbOps));
    CacheBeside(x.0, x.1, b, u, reply);
    CacheTabs(x.0, x.1, b, u, reply);
  }

  lemma {:induction false} FewGroups(ops: seq<QueuedOp>)
    ensures |Groups(ops)| <= |ops|
    decreases |ops|
  {
    if ops != [] {
      GroupsSplit(ops);
      FewGroups(Except(ops, ops[0].db));
    }
  }

  lemma ServingMirrors(b: Backend, trace: seq<Event>, u: nat, rt: Route, shards: map<int, DbId>, s: State, sync: Option<SyncData>)
    requires Serving(b, trace, u, rt, shards) && Lasting(b, trace, u, rt, s)
    requires forall e :: Synced(e) ==> Carries(ListFor(sync, e), Replay(trace, u, rt), b.tabs, rt, e)
    ensures Mirrors(b.tabs, s.tabs, u, rt, sync)
  {
    hide Coherent, Sound, ValidTables, AccountRoutes, Carries, Mirrors, Replay, Direct, AssignedStore;
    LastingMirrors(b, trace, u, rt, s, sync);
  }

  // ------------------------------------------------------------------ dispatch

  datatype GameRequest = GameRequest(action: Action, userId: nat, sessionToken: string)

  /** What the world outside the request answers with. */
  datatype World = World(supported: bool, now: int, session: Leases.Reply, moments: seq<Leases.Moment>, lockToken: nat, release: Leases.Moment,
                         flaky: bool, draw: int, design: Option<nat>, newToken: string, faults: seq<Fault>, reply: CacheReply)

  datatype Code = OK | BadRequest | UnsupportedDesignVersion | Unauthorized | Busy | HandlerError | CommitFailed | SessionCheckFailed | Crashed

  /** Whom a request worked for, the account it inserted, the tables its commit found, and its calls. */
  datatype Deed = Deed(user: nat, rt: Route, made: Option<Row>, start: Tables, calls: seq<Call>)

  lemma NoCallsYet()
    ensures CallsOf([]) == []
  {
  }

  lemma NoNilYet()
    ensures NoNil([])
  {
  }

  lemma SuccessTabs(deed: Deed, b: Backend, sync: Option<SyncData>)
    ensures Success(deed.start, b, deed.calls, deed.user, deed.rt, sync) ==> b.tabs == Direct(deed.start, deed.calls, deed.user, deed.rt)
  {
  }

  lemma DirectNone(tabs: Tables, u: nat, rt: Route)
    ensures Direct(tabs, [], u, rt) == tabs
  {
  }

  /** The user of an authenticated request has an account, and so a shard. */
  ghost predicate HasAccount(c: Container, user: nat)
    reads c.sql
  {
    user in At(c.sql.tabs, TableId(c.game, Account)).rows
  }

  ghost function RouteOf(c: Container, user: nat): Route
    requires HasAccount(c, user)
    reads c.sql, c.shards
  {
    RouteFor(c.game, c.shards.shardMap, At(c.sql.tabs, TableId(c.game, Account)).rows[user])
  }

  ghost predicate MayUpgrade(c: Container, req: GameRequest)
    reads c.sql, c.shards
  {
    && req.action.UpgradeCardAction? && HasAccount(c, req.userId)
    && OwnsCard(c.sql.tabs, RouteOf(c, req.userId), req.userId, req.action.cardIdx)
  }

  /** A login that names a channel user and a device, where the first item's design is known. */
  predicate Greets(req: GameRequest, world: World) {
    req.action.LoginAction? && req.action.channelUid != 0 && req.action.deviceId != "" && world.design.Some?
  }

  /** The session check answers, and finds the session alive. */
  predicate SessionLives(req: GameRequest, world: World, sessions: map<nat, Sessions.Session>) {
    req.userId != 0 && world.session.Answered? && Sessions.Accepts(sessions, req.userId, req.sessionToken, world.now)
  }

  /** A known action for a served design version, of a user with a live session unless it is a login. */
  predicate Passes(req: GameRequest, world: World, sessions: map<nat, Sessions.Session>) {
    !req.action.UnknownAction? && world.supported && (req.action.LoginAction? || SessionLives(req, world, sessions))
  }

  /** One of 60 tries finds the user's lock free and is answered, before anything ends the tries. */
  predicate LockComesFree(world: World, key: nat) {
    exists i :: 0 <= i < 60 && i < |world.moments| && Leases.Obtains(world.moments, key, i)
  }

  /** The keys as such a try has left them: the user's is set to the request's token for ten seconds. */
  predicate LockTaken(locks: Leases.Locks, world: World, key: nat) {
    exists i :: 0 <= i < 60 && i < |world.moments| && Leases.Obtains(world.moments, key, i) &&
                locks == world.moments[i].locks[key := Leases.Lease(world.lockToken, world.moments[i].now + 10_000)]
  }

  lemma LockFacts(locks: Leases.Locks, world: World, key: nat, got: bool)
    requires |world.moments| == 60
    requires got <==> exists i :: 0 <= i < 60 && Leases.Obtains(world.moments, key, i)
    requires got ==>
      exists i :: 0 <= i < 60 && Leases.Obtains(world.moments, key, i) && locks == world.moments[i].locks[key := Leases.Lease(world.lockToken, world.moments[i].now + 10_000)]
    ensures got <==> LockComesFree(world, key)
    ensures got ==> LockTaken(locks, world, key)
  {
    hide Leases.Obtains;
  }

  /** The lock token is nobody else's, and meanwhile the other servers have kept to the protocol. */
  predicate LockFair(m: Leases.Moment, release: Leases.Moment, key: nat, token: nat) {
    && (key in m.locks ==> m.locks[key].token != token) && m.now <= release.now
    && Leases.Respected(Leases.AfterSet(m, key, token), release.locks, key, token, release.now)
  }

  /** The request got past the checks that come before the lock. */
  predicate Checked(code: Code) {
    code != BadRequest && code != UnsupportedDesignVersion && code != Unauthorized && code != SessionCheckFailed
  }

  lemma BackendIs(c: Container)
    ensures c.Backend() == Coherence.Backend(c.sql.tabs, c.users.hashes)
  {
  }

  lemma CodesChecked()
    ensures forall code :: Checked(code) <==> code !in {BadRequest, UnsupportedDesignVersion, Unauthorized, SessionCheckFailed}
  {
  }

  /** The shard of a new account is the one that the random number draws by weight. */
  ghost predicate Drawn(made: Option<Row>, regs: seq<Shards.Registration>, draw: int) {
    made.Some? ==> made.value.AccountRow? && Some(made.value.shardId) == Shards.Draw(Shards.Pool(regs), draw)
  }

  /** What a login was about: an active account that it touches, or one that it has inserted. */
  ghost predicate LoginDeed(channelUid: nat, deviceId: string, before: Tables, accounts: TableId, shards: map<int, DbId>, deed: Deed) {
    && Accounts.Made(before, accounts, deed.made, deed.start)
    && (deed.made.Some? ==>
          && Accounts.FirstAccount(deed.made.value, channelUid, deviceId, shards) && (forall k :: !Accounts.Active(At(before, accounts), channelUid, k))
          && deed.user == At(before, accounts).next && deed.rt == RouteFor(accounts.db, shards, deed.made.value))
  }

  /** The calls of a login that went through. */
  ghost predicate LoginCalls(channelUid: nat, deviceId: string, design: Option<nat>, before: Tables, accounts: TableId, deed: Deed) {
    if deed.made.Some? then deed.calls == Accounts.Grant(design)
    else deed.calls == [TouchAccount(deviceId)] && Accounts.Active(At(before, accounts), channelUid, deed.user)
  }

  /** The calls of an authenticated action that goes through. */
  function CallsIn(action: Action): seq<Call> {
    if action.UpgradeCardAction? then [UpgradeCard(action.cardIdx)] else []
  }

  /** One card has gone up by a level, as a 16-bit number, and nothing else in the tables has changed. */
  ghost predicate RaisedOnly(before: Tables, after: Tables, rt: Route, cardIdx: nat) {
    var id := rt.Id(Cards);
    && id in before && cardIdx in before[id].rows && before[id].rows[cardIdx].CardRow?
    && var card := before[id].rows[cardIdx];
    after == before[id := Table(before[id].rows[cardIdx := card.(level := (card.level + 1) % 0x1_0000)], before[id].next)]
  }

  lemma UpgradeRaises(tabs: Tables, user: nat, rt: Route, cardIdx: nat)
    requires ValidTables(tabs, rt) && OwnsCard(tabs, rt, user, cardIdx)
    ensures RaisedOnly(tabs, Direct(tabs, [UpgradeCard(cardIdx)], user, rt), rt, cardIdx)
  {
    var call, t := UpgradeCard(cardIdx), At(tabs, rt.Id(Cards));
    assert [call][..0] == [];
    assert Direct(tabs, [call], user, rt) == OnTables(Direct(tabs, [], user, rt), call, user, rt);
    ValidAt(tabs, rt, Cards);
    assert HitIn(t, user, call, cardIdx);
    forall l | HitIn(t, user, call, l)
      ensures l == cardIdx
    {
      assert t.rows[l].pk == l;
    }
    hide ValidTables, ValidTable, OnTable, Direct;
    OnTableHit(t, Cards, user, call, cardIdx);
  }

  /** The account has the new device id, and nothing else in the tables has changed. */
  ghost predicate TouchedOnly(before: Tables, after: Tables, accounts: TableId, user: nat, deviceId: string) {
    && accounts in before && user in before[accounts].rows && before[accounts].rows[user].AccountRow?
    && after == before[accounts := Table(before[accounts].rows[user := before[accounts].rows[user].(deviceId := deviceId)], before[accounts].next)]
  }

  lemma TouchSets(tabs: Tables, user: nat, rt: Route, deviceId: string)
    requires ValidTables(tabs, rt) && user in At(tabs, rt.Id(Account)).rows
    ensures TouchedOnly(tabs, Direct(tabs, [TouchAccount(deviceId)], user, rt), rt.Id(Account), user, deviceId)
  {
    var call, t := TouchAccount(deviceId), At(tabs, rt.Id(Account));
    assert [call][..0] == [];
    assert Direct(tabs, [call], user, rt) == OnTables(Direct(tabs, [], user, rt), call, user, rt);
    ValidAt(tabs, rt, Account);
    assert forall k :: k in t.rows ==> t.rows[k].AccountRow? && t.rows[k].Owner() == k;
    assert HitIn(t, user, call, user);
    hide ValidTables, ValidTable, OnTable, Direct, Row.Owner;
    OnTableHit(t, Account, user, call, user);
  }

  lemma ServingTables(b: Backend, trace: seq<Event>, user: nat, rt: Route, shards: map<int, DbId>)
    requires Serving(b, trace, user, rt, shards)
    ensures ValidTables(b.tabs, rt)
  {
    hide Coherent, Sound, AccountRoutes;
  }

  /** An upgrade takes effect once and in full, or not at all; one that is answered with OK has raised the user's own card. */
  ghost predicate Upgraded(before: Tables, b: Backend, cardIdx: nat, user: nat, rt: Route, code: Code, sync: Option<SyncData>) {
    var calls := [UpgradeCard(cardIdx)];
    && (code == OK ==> Success(before, b, calls, user, rt, sync) && OwnsCard(before, rt, user, cardIdx) && RaisedOnly(before, b.tabs, rt, cardIdx))
    && (code != OK && code != CommitFailed ==> b.tabs == before)
    && (b.tabs == before || b.tabs == Direct(before, calls, user, rt))
  }

  lemma NotUpgraded(b: Backend, b': Backend, cardIdx: nat, user: nat, rt: Route, code: Code)
    requires code != OK && b'.tabs == b.tabs
    ensures Upgraded(b.tabs, b', cardIdx, user, rt, code, None)
  {
    hide Success, Direct;
  }

  lemma UpgradedIs(before: Tables, b: Backend, cardIdx: nat, user: nat, rt: Route, code: Code, sync: Option<SyncData>)
    requires code == OK ==> Success(before, b, [UpgradeCard(cardIdx)], user, rt, sync) && OwnsCard(before, rt, user, cardIdx) && RaisedOnly(before, b.tabs, rt, cardIdx)
    requires code != OK ==> b.tabs == before || (code == CommitFailed && b.tabs == Direct(before, [UpgradeCard(cardIdx)], user, rt))
    ensures Upgraded(before, b, cardIdx, user, rt, code, sync)
  {
    hide Direct, OwnsCard, RaisedOnly, Coherent, Mirrors;
  }

  lemma UpgradedOwns(before: Tables, b: Backend, cardIdx: nat, user: nat, rt: Route, code: Code, sync: Option<SyncData>)
    requires Upgraded(before, b, cardIdx, user, rt, code, sync)
    ensures code == OK ==> OwnsCard(before, rt, user, cardIdx)
  {
    hide OwnsCard, Success, RaisedOnly, Direct;
  }

  /** What a login that is answered has given: the goods to a new account, the device id to one that was there. */
  ghost predicate LoginGives(deed: Deed, after: Tables, design: Option<nat>, accounts: TableId, deviceId: string) {
    && (deed.made.None? ==> TouchedOnly(deed.start, after, accounts, deed.user, deviceId))
    && (deed.made.Some? && design.Some? && Goodless(deed.start, deed.user, deed.rt) ==> Accounts.Granted(deed.start, after, deed.user, deed.rt, design.value))
  }

  /** A login inserts the account of an unknown channel user, and then makes its calls in full or not at all. */
  ghost predicate LoggedIn(before: Tables, b: Backend, channelUid: nat, deviceId: string, design: Option<nat>, accounts: TableId, shards: map<int, DbId>,
                           code: Code, sync: Option<SyncData>, deed: Deed) {
    && code != Crashed && LoginDeed(channelUid, deviceId, before, accounts, shards, deed)
    && (code == HandlerError ==> b.tabs == deed.start)
    && (code != HandlerError ==> LoginCalls(channelUid, deviceId, design, before, accounts, deed))
    && (code == OK ==> Success(deed.start, b, deed.calls, deed.user, deed.rt, sync) && LoginGives(deed, b.tabs, design, accounts, deviceId))
    && (code == CommitFailed ==> deed.user !in b.cache)
    && (b.tabs == deed.start || b.tabs == Direct(deed.start, deed.calls, deed.user, deed.rt))
  }

  /** A card that the scan does not find is not the user's. */
  lemma MissingMeans(u: UnitOfWork, cardIdx: nat)
    requires u.Valid() && u.userId != 0 && Missing(u, UpgradeCard(cardIdx))
    ensures !OwnsCard(u.c.sql.tabs, u.now.rt, u.userId, cardIdx)
  {
    ValidFacts(u);
    hide UnitOfWork.Valid, Replay, Steady, Coherent, Direct, Sound;
    NotListed(u.c.sql.tabs, u.now.trace, u.userId, u.now.rt, cardIdx);
  }

  lemma NotListed(tabs: Tables, trace: seq<Event>, user: nat, rt: Route, cardIdx: nat)
    requires ValidTables(tabs, rt) && Sound(trace, tabs, user, rt)
    requires var rows := Replay(trace, user, rt).store; Cards in rows && Calls.Find(rows[Cards], UpgradeCard(cardIdx)) == |rows[Cards]|
    ensures !OwnsCard(tabs, rt, user, cardIdx)
  {
    var r, t := Replay(trace, user, rt), At(tabs, rt.Id(Cards));
    hide Replay, Direct, TargetTables, Sound, Proj, Calls.Find, Based, Ordered;
    TraceMeansDirect(trace, tabs, user, rt);
    TracksAt(r, tabs, user, rt, Cards);
    CardListed(t, user, r.store[Cards], r.base[Cards], Proj(r.ops, Cards), cardIdx);
  }

  lemma CardListed(t: Table, user: nat, rows: seq<Row>, n0: nat, ops: seq<RowOp>, cardIdx: nat)
    requires Pending(t, Cards, user, rows, n0, ops)
    requires forall i :: 0 <= i < |rows| ==> !UpgradeCard(cardIdx).Hits(rows[i])
    ensures !(cardIdx in t.rows && t.rows[cardIdx].CardRow? && t.rows[cardIdx].userId == user)
  {
    hide ValidTable, Based, Ordered, DistinctKeys, Touched;
    assert forall i :: 0 <= i < n0 ==> i < |rows| && rows[i].Kind() == Cards && rows[i].pk != cardIdx by { CardKinds(t, user, rows, n0, ops, cardIdx); }
    assert cardIdx in t.rows && t.rows[cardIdx].CardRow? ==> t.rows[cardIdx].Owner() == t.rows[cardIdx].userId;
  }

  lemma CardKinds(t: Table, user: nat, rows: seq<Row>, n0: nat, ops: seq<RowOp>, cardIdx: nat)
    requires Pending(t, Cards, user, rows, n0, ops)
    requires forall i :: 0 <= i < |rows| ==> !UpgradeCard(cardIdx).Hits(rows[i])
    ensures n0 <= |rows| && forall i :: 0 <= i < |rows| ==> rows[i].Kind() == Cards && rows[i].pk != cardIdx
  {
    hide ValidTable, Ordered, DistinctKeys, Touched;
    forall i | 0 <= i < |rows|
      ensures rows[i].Kind() == Cards && rows[i].pk != cardIdx
    {
      assert rows[i].Kind() == Cards && !UpgradeCard(cardIdx).Hits(rows[i]);
    }
  }

  /** Nothing outside the request gets in its way. */
  predicate Well(world: World) {
    !world.flaky && NoFaults(world.faults) && world.reply.Written?
  }

  class Server {
    const c: Container
    const sessions: Sessions.UserSession
    const lock: Leases.UserLock
    const accounts: Accounts.AccountService
    const assets: AssetService
    const items: ItemService
    const cards: CardService

    constructor (c: Container, sessions: Sessions.UserSession, lock: Leases.UserLock)
      ensures this.c == c && this.sessions == sessions && this.lock == lock
    {
      this.c, this.sessions, this.lock := c, sessions, lock;
      accounts := new Accounts.AccountService();
      assets := new AssetService();
      items := new ItemService();
      cards := new CardService();
    }

    /** The handlers of the authenticated actions. */
    method Act(u: UnitOfWork, action: Action, flaky: bool) returns (err: ServiceError, body: Body)
      requires u.Valid() && u.userId != 0 && Grounded(u) && Homed(u) && CallsOf(u.now.trace) == [] && NoNil(u.dbOps)
      requires action.UpgradeCardAction? || (action.GetListAction? && action.entity != Account)
      modifies u, u.now.objects, u.c.users
      ensures u.Valid() && u.userId == old(u.userId) && u.now.rt == old(u.now.rt) && Grounded(u) && Homed(u)
      ensures fresh(u.now.objects - old(u.now.objects)) && |u.now.req.ops| <= 1
      ensures err.Fine? ==> CallsOf(u.now.trace) == CallsIn(action) && Replies(u.c.sql.tabs, u.now.rt, u.userId, action, body)
      ensures !flaky ==> NoNil(u.dbOps)
      ensures err.Fine? || err.NotAvailable? || err == CardNotFound
      ensures !flaky ==> !err.NotAvailable?
      ensures err == CardNotFound ==> action.UpgradeCardAction? && !OwnsCard(u.c.sql.tabs, u.now.rt, u.userId, action.cardIdx)
    {
      hide Open, UnitOfWork.Valid, Accepted, CallsOf, Container.Valid, NoNil, At, OwnsCard;
      if action.UpgradeCardAction? {
        err, body := UpgradeCardLevel(u, cards, action.cardIdx, flaky);
        if err == CardNotFound { MissingMeans(u, action.cardIdx); }
      } else {
        var why;
        why, body := GetList(u, action.entity, flaky);
        err := if why == NoError then Fine else NotAvailable(why);
      }
      FewOps(u);
    }

    /** An authenticated action on its unit of work, then the commit. */
    method ServeUser(req: GameRequest, world: World) returns (code: Code, body: Body, sync: Option<SyncData>, ghost deed: Deed)
      requires Accounts.Ready(c) && req.userId != 0 && HasAccount(c, req.userId)
      requires req.action.UpgradeCardAction? || (req.action.GetListAction? && req.action.entity != Account)
      modifies c.users, c.sql
      ensures Accounts.Ready(c) && Tended(old(c.Backend()), c.Backend(), req.userId, TableId(c.game, Account))
      ensures deed == Deed(req.userId, old(RouteOf(c, req.userId)), None, old(c.sql.tabs), CallsIn(req.action))
      ensures code == OK || code == HandlerError || code == CommitFailed || code == Crashed
      ensures code == OK ==> Success(deed.start, c.Backend(), deed.calls, deed.user, deed.rt, sync) && Replies(deed.start, deed.rt, req.userId, req.action, body)
      ensures req.action.UpgradeCardAction? ==> Upgraded(deed.start, c.Backend(), req.action.cardIdx, req.userId, deed.rt, code, sync)
      ensures code != OK ==> sync == None && body == ErrorResponse
      ensures code != OK ==> c.sql.tabs == deed.start || (code == CommitFailed && c.sql.tabs == Direct(deed.start, deed.calls, deed.user, deed.rt))
      ensures code == CommitFailed ==> deed.user !in c.users.hashes
      ensures Well(world) && code != OK ==> req.action.UpgradeCardAction? && !old(OwnsCard(c.sql.tabs, RouteOf(c, req.userId), req.userId, req.action.cardIdx))
    {
      hide Open, UnitOfWork.Valid, Success, Direct, Coherent, Accepted, CallsOf, Serving, At, Container.Valid, Tended, Ending, NoNil, RanFirst, AllHeld, OwnsCard, RaisedOnly, ValidTables, TellsAll, Upgraded;
      OpenAccount(c, req.userId);
      ghost var rt, b := RouteOf(c, req.userId), c.Backend();
      var u := new UnitOfWork(c, req.userId, rt);
      GroundedHomed(u);
      NoCallsYet();
      NoNilYet();
      deed := Deed(req.userId, rt, None, c.sql.tabs, CallsIn(req.action));
      ghost var k := if req.action.UpgradeCardAction? then req.action.cardIdx else 0;
      ServingTables(b, [], req.userId, rt, c.shards.shardMap);
      var err;
      err, body := Act(u, req.action, world.flaky);
      LeftOpen(u);
      if err != Fine {
        code := if err == NotAvailable(NilDatabase) then Crashed else HandlerError;
        NotUpgraded(b, c.Backend(), k, req.userId, rt, code);
        return code, ErrorResponse, None, deed;
      }
      ghost var b1, trace, r := c.Backend(), u.now.trace, u.now.req;
      ghost var whole := NoNil(u.dbOps);
      var res;
      res, sync := Complete(u, world.faults, world.reply);
      EndedOpen(b1, c.Backend(), c.game, c.shards.shardMap, trace, req.userId, CommittedDbs(r, OutcomeOf(res)), res, whole);
      TendedAgain(b, b1, c.Backend(), req.userId, TableId(c.game, Account));
      match res {
        case Committed =>
          code := OK;
          if req.action.UpgradeCardAction? { UpgradeRaises(b.tabs, req.userId, rt, k); }
          SuccessTabs(deed, c.Backend(), sync);
        case Aborted(_) => code, body, sync := CommitFailed, ErrorResponse, None;
        case CacheFailed => code, body, sync := CommitFailed, ErrorResponse, None;
        case Panicked(_) => code, body, sync := Crashed, ErrorResponse, None;
      }
      if req.action.UpgradeCardAction? { UpgradedIs(b.tabs, c.Backend(), k, req.userId, rt, code, sync); }
    }

    /** The commit of a login: one transaction, which makes all of its calls or none. */
    method CommitLogin(u: UnitOfWork, world: World, ghost deed: Deed, ghost deviceId: string) returns (code: Code, sync: Option<SyncData>)
      requires u.Valid() && u.userId != 0 && Grounded(u) && Homed(u) && NoNil(u.dbOps) && u.c == c
      requires deed.user == u.userId && deed.rt == u.now.rt && deed.start == c.sql.tabs && deed.calls == CallsOf(u.now.trace)
      requires deed.calls == if deed.made.Some? then Accounts.Grant(world.design) else [TouchAccount(deviceId)]
      modifies u, u.now.objects, c.users, c.sql
      ensures Accounts.Ready(c) && OthersKept(old(c.Backend()), c.Backend(), deed.user)
      ensures At(c.sql.tabs, TableId(c.game, Account)).rows.Keys == At(deed.start, TableId(c.game, Account)).rows.Keys
      ensures code == OK || code == CommitFailed
      ensures code == OK ==> Success(deed.start, c.Backend(), deed.calls, deed.user, deed.rt, sync)
      ensures code == CommitFailed ==> sync == None && deed.user !in c.users.hashes
      ensures c.sql.tabs == if FaultAt(world.faults, 0).None? then Direct(deed.start, deed.calls, deed.user, deed.rt) else deed.start
      ensures deed.made.Some? && world.design.Some? && Goodless(deed.start, deed.user, deed.rt) ==>
        (Accounts.Granted(deed.start, c.sql.tabs, deed.user, deed.rt, world.design.value) <==> FaultAt(world.faults, 0).None?)
      ensures code == OK ==> LoginGives(deed, c.sql.tabs, world.design, TableId(c.game, Account), deviceId)
      ensures Well(world) ==> code == OK
    {
      hide LoginGives, NoNil, NoFaults, Open, UnitOfWork.Valid, Success, Direct, Coherent, CallsOf, At, Container.Valid, Tended, Ending, RanFirst, AllHeld, OneDb, Goodless, Accounts.Granted, FaultAt, Accounts.Grant, OthersKept, DbPhase, CommittedDbs;
      LeftOpen(u);
      LoginReady(u, deed, world.design, deviceId);
      ghost var b1, trace, r := c.Backend(), u.now.trace, u.now.req;
      HomedHas(u);
      CallsGive(deed, world.design, deviceId);
      var res;
      res, sync := Complete(u, world.faults, world.reply);
      EndedOpen(b1, c.Backend(), c.game, c.shards.shardMap, trace, deed.user, CommittedDbs(r, OutcomeOf(res)), res, true);
      TendedOthers(b1, c.Backend(), deed.user, TableId(c.game, Account));
      OneDbTables(trace, b1, deed.user, deed.rt, OnlyDb(deed), world.faults, res, c.Backend());
      GoodsGiven(deed, world.design, b1.tabs, c.sql.tabs, world.faults);
      code := if res == Committed then OK else CommitFailed;
      SuccessTabs(deed, c.Backend(), sync);
      if res != Committed { sync := None; }
    }

    /**
     * Login on its unit of work, then the commit. It never crashes; a new account is inserted before
     * anything can fail, and keeps its place whatever fails after; the rest is one transaction.
     */
    method ServeLogin(req: GameRequest, world: World) returns (code: Code, body: Body, sync: Option<SyncData>, ghost deed: Deed, reply: Accounts.LoginReply)
      requires Accounts.Ready(c) && req.action.LoginAction? && (req.userId != 0 ==> HasAccount(c, req.userId))
      requires 0 < c.shards.totalWeight ==> 0 <= world.draw < c.shards.totalWeight
      requires sessions.Valid() && forall i :: 0 <= i < |sessions.history| ==> sessions.history[i].time <= world.now
      modifies c.users, c.sql, sessions
      ensures Accounts.Ready(c) && sessions.Valid()
      ensures OthersKept(old(c.Backend()), c.Backend(), deed.user)
      ensures forall i :: 0 <= i < |sessions.history| ==> sessions.history[i].time <= world.now
      ensures sessions.sessions.Keys <= old(sessions.sessions).Keys + {deed.user}
      ensures deed.user in sessions.sessions && deed.user !in old(sessions.sessions) ==> HasAccount(c, deed.user)
      ensures forall k :: old(HasAccount(c, k)) ==> HasAccount(c, k)
      ensures code == OK || code == HandlerError || code == CommitFailed
      ensures reply.Welcome? <==> code != HandlerError
      // Whom it answers, and what it draws.
      ensures body == if code == OK then LoginResponse(deed.user, req.action.channelUid, deed.made.Some?, world.newToken) else ErrorResponse
      ensures Drawn(deed.made, c.shards.regs, world.draw)
      // What it was about, and the session it leaves.
      ensures reply.Welcome? ==> sessions.sessions == old(sessions.sessions)[deed.user := Sessions.Session(world.newToken, world.now + 28_800_000)]
      ensures LoginDeed(req.action.channelUid, req.action.deviceId, old(c.sql.tabs), TableId(c.game, Account), c.shards.shardMap, deed)
      ensures reply.Welcome? || reply.NoSession? || reply.GrantFailed? ==> HasAccount(c, deed.user)
      ensures reply.Welcome? || reply.NoSession? ==> Accounts.Issued(old(sessions.history), sessions.history, reply, deed.user, world.newToken, world.now)
      ensures !reply.Welcome? && !reply.NoSession? ==> sessions.history == old(sessions.history)
      ensures reply.Welcome? ==> LoginCalls(req.action.channelUid, req.action.deviceId, world.design, old(c.sql.tabs), TableId(c.game, Account), deed)
      // What it leaves in the tables and in the cache.
      ensures code == OK ==> Success(deed.start, c.Backend(), deed.calls, deed.user, deed.rt, sync)
      ensures code != OK ==> sync == None
      ensures code == OK ==> LoginGives(deed, c.sql.tabs, world.design, TableId(c.game, Account), req.action.deviceId)
      ensures code == HandlerError ==> c.sql.tabs == deed.start
      ensures code == CommitFailed ==> deed.user !in c.users.hashes
      ensures code != HandlerError ==>
        c.sql.tabs == if FaultAt(world.faults, 0).None? then Direct(deed.start, deed.calls, deed.user, deed.rt) else deed.start
      // A new account has its goods if and only if the handler came through and the transaction met no fault.
      ensures deed.made.Some? && world.design.Some? && Goodless(deed.start, deed.user, deed.rt) ==>
        (Accounts.Granted(deed.start, c.sql.tabs, deed.user, deed.rt, world.design.value) <==> reply.Welcome? && FaultAt(world.faults, 0).None?)
      ensures Well(world) && Greets(req, world) && 0 < c.shards.totalWeight ==> code == OK
    {
      hide NoNil, Open, UnitOfWork.Valid, Success, Direct, Coherent, Accepted, CallsOf, Serving, At, Container.Valid, Accounts.Active, Sessions.Run, Sessions.Timed, Goodless, Accounts.Granted, Accounts.Made, Accounts.FirstAccount, LoginDeed, FaultAt, Accounts.Grant, OthersKept, NoFaults, Shards.Draw, Shards.Pool, Drawn, LoginGives;
      ghost var b, accountTable := c.Backend(), TableId(c.game, Account);
      ghost var rt := Route(c.game, NIL);
      if req.userId != 0 {
        OpenAccount(c, req.userId);
        rt := RouteOf(c, req.userId);
      }
      assert c.Valid();
      var u := new UnitOfWork(c, req.userId, rt);
      ghost var made;
      reply, made := Accounts.Login(u, accounts, assets, items, sessions, req.action.channelUid, req.action.deviceId, world.draw, world.design, world.newToken, world.now, world.flaky);
      deed := DeedOf(u, b.tabs, made);
      DeedIs(u, b.tabs, made, req.action.channelUid, req.action.deviceId, world.draw, reply);
      LoginOthers(b, c.Backend(), deed, accountTable, c.shards.shardMap, req.action.channelUid, req.action.deviceId);
      if !reply.Welcome? {
        NoGoods(deed, world.design);
        return HandlerError, ErrorResponse, None, deed, reply;
      }
      ghost var b1 := c.Backend();
      code, sync := CommitLogin(u, world, deed, req.action.deviceId);
      body := if code == OK then LoginResponse(reply.userId, req.action.channelUid, reply.isNew, world.newToken) else ErrorResponse;
      OthersKeptAgain(b, b1, c.Backend(), deed.user);
    }

    /** What has to hold before a request, and holds again after it. */
    ghost predicate Standing(now: int)
      reads c, c.shards, c.sql, c.users, sessions
    {
      && Accounts.Ready(c) && sessions.Valid() && (forall i :: 0 <= i < |sessions.history| ==> sessions.history[i].time <= now)
      && (forall k :: k in sessions.sessions ==> HasAccount(c, k))
    }

    /** The checks before the lock; OK lets the request go on, and every other code has its one reason. */
    method Check(req: GameRequest, world: World) returns (code: Code)
      requires Standing(world.now)
      modifies sessions
      ensures Standing(world.now)
      ensures code == OK <==> Passes(req, world, old(sessions.sessions))
      ensures code == BadRequest <==> req.action.UnknownAction?
      ensures code == UnsupportedDesignVersion <==> !req.action.UnknownAction? && !world.supported
      ensures code == SessionCheckFailed <==>
        !req.action.UnknownAction? && world.supported && !req.action.LoginAction? && req.userId != 0 && req.sessionToken != "" && world.session.Failed?
      ensures code == OK || !Checked(code)
      ensures code == OK && !req.action.LoginAction? ==> req.userId != 0 && HasAccount(c, req.userId)
      // Passing is an attempt that verifies, and the session's eight hours start again.
      ensures code == OK && !req.action.LoginAction? ==>
        && sessions.history == old(sessions.history) + [Sessions.Verify(req.userId, req.sessionToken, world.now)]
        && sessions.sessions == old(sessions.sessions)[req.userId := Sessions.Session(req.sessionToken, world.now + 28_800_000)]
      ensures (code == OK && req.action.LoginAction?) || code == BadRequest || code == UnsupportedDesignVersion || code == Unauthorized ==>
        sessions.sessions == old(sessions.sessions)
    {
      hide Accounts.Ready, Sessions.Run, Sessions.Timed, Sessions.Chain, Sessions.LastTime;
      if req.action.UnknownAction? { return BadRequest; }
      if !world.supported { return UnsupportedDesignVersion; }
      if req.action.LoginAction? { return OK; }
      if req.userId == 0 || req.sessionToken == "" { return Unauthorized; }
      if world.session == Leases.Failed(false) { return SessionCheckFailed; }
      var ok := sessions.VerifyAndRefresh(req.userId, req.sessionToken, world.now);
      if world.session.Failed? { return SessionCheckFailed; }
      code := if ok then OK else Unauthorized;
    }

    /** The body answers the action from the tables as they are. */
    ghost predicate Answer(req: GameRequest, body: Body)
      reads c.sql, c.shards
    {
      HasAccount(c, req.userId) && Replies(c.sql.tabs, RouteOf(c, req.userId), req.userId, req.action, body)
    }

    /** A login draws the new account's shard by weight, and one that is answered has issued the session it tells of. */
    ghost predicate Welcomed(req: GameRequest, world: World, code: Code, body: Body, deed: Deed, before: map<nat, Sessions.Session>)
      requires req.action.LoginAction?
      reads sessions, c.shards
    {
      && Drawn(deed.made, c.shards.regs, world.draw)
      && (code == OK ==>
            && body == LoginResponse(deed.user, req.action.channelUid, deed.made.Some?, world.newToken)
            && sessions.sessions == before[deed.user := Sessions.Session(world.newToken, world.now + 28_800_000)])
    }

    /** The action itself, of a request that has passed the checks and, unless it names no user, has the user's lock. */
    method Serve(req: GameRequest, world: World) returns (code: Code, body: Body, sync: Option<SyncData>, ghost deed: Deed)
      requires Standing(world.now) && !req.action.UnknownAction? && (req.userId != 0 ==> LockTaken(lock.locks, world, req.userId))
      requires if req.action.LoginAction? then req.userId != 0 ==> HasAccount(c, req.userId) else req.userId != 0 && HasAccount(c, req.userId)
      requires req.action.GetListAction? ==> req.action.entity != Account
      requires 0 < c.shards.totalWeight ==> 0 <= world.draw < c.shards.totalWeight
      modifies c.users, c.sql, sessions
      ensures Standing(world.now) && OthersKept(old(c.Backend()), c.Backend(), deed.user)
      ensures Checked(code) && code != Busy
      ensures req.action.UpgradeCardAction? ==>
        Upgraded(old(c.sql.tabs), c.Backend(), req.action.cardIdx, req.userId, old(if HasAccount(c, req.userId) then RouteOf(c, req.userId) else Route(c.game, NIL)), code, sync)
      ensures req.action.GetListAction? ==> c.sql.tabs == old(c.sql.tabs)
      ensures code != OK ==> body == ErrorResponse
      ensures code == OK && !req.action.LoginAction? ==> old(Answer(req, body))
      ensures Well(world) && req.action.UpgradeCardAction? ==> (code == OK <==> old(MayUpgrade(c, req)))
      ensures Well(world) && req.action.GetListAction? ==> code == OK
      ensures !req.action.LoginAction? ==> sessions.history == old(sessions.history) && sessions.sessions == old(sessions.sessions)
      ensures req.action.LoginAction? ==>
        && LoggedIn(old(c.sql.tabs), c.Backend(), req.action.channelUid, req.action.deviceId, world.design, TableId(c.game, Account), c.shards.shardMap, code, sync, deed)
        && Welcomed(req, world, code, body, deed, old(sessions.sessions))
      ensures req.action.LoginAction? && Well(world) && Greets(req, world) && 0 < c.shards.totalWeight ==> code == OK
    {
      hide Open, Success, Direct, Coherent, LoginDeed, LoginCalls, Tended, OthersKept, Goodless, Accounts.Granted, Accounts.Issued, FaultAt, OwnsCard, Sessions.Run, Sessions.Timed, Container.Valid, Well, Greets, Drawn, Replies, RaisedOnly, Shards.Draw, Shards.Pool, RouteFor, LockTaken, Upgraded;
      if req.action.LoginAction? {
        var reply;
        code, body, sync, deed, reply := ServeLogin(req, world);
        SuccessTabs(deed, c.Backend(), sync);
      } else {
        code, body, sync, deed := ServeUser(req, world);
        if req.action.UpgradeCardAction? { UpgradedOwns(deed.start, c.Backend(), req.action.cardIdx, req.userId, deed.rt, code, sync); }
        TendedOthers(old(c.Backend()), c.Backend(), req.userId, TableId(c.game, Account));
        DirectNone(deed.start, deed.user, deed.rt);
        SuccessTabs(deed, c.Backend(), sync);
      }
    }

    /** dispatch: the checks in order, then the action under the user's lock, and the deferred release. */
    method Dispatch(req: GameRequest, world: World) returns (code: Code, body: Body, sync: Option<SyncData>, ghost deed: Deed)
      requires Standing(world.now) && |world.moments| == 60
      requires req.action.LoginAction? && req.userId != 0 ==> HasAccount(c, req.userId)
      requires req.action.GetListAction? ==> req.action.entity != Account
      requires 0 < c.shards.totalWeight ==> 0 <= world.draw < c.shards.totalWeight
      modifies c.users, c.sql, sessions, lock
      // The next request finds everything as this one did, and nobody else's rows or cache have changed.
      ensures Standing(world.now) && OthersKept(old(c.Backend()), c.Backend(), deed.user)
      // Which requests get past the checks, and what the others are told.
      ensures Checked(code) <==> Passes(req, world, old(sessions.sessions))
      ensures code == BadRequest <==> req.action.UnknownAction?
      ensures code == UnsupportedDesignVersion <==> !req.action.UnknownAction? && !world.supported
      ensures Checked(code) && !req.action.LoginAction? ==>
        sessions.sessions == old(sessions.sessions)[req.userId := Sessions.Session(req.sessionToken, world.now + 28_800_000)]
      // Of these, exactly the ones that do not get the user's lock within 60 tries are told to come back.
      ensures Checked(code) ==> (code == Busy <==> req.userId != 0 && !LockComesFree(world, req.userId))
      // A request that is turned away has touched no data.
      ensures !Checked(code) || code == Busy ==> c.sql.tabs == old(c.sql.tabs) && c.users.hashes == old(c.users.hashes)
      ensures code != OK ==> body == ErrorResponse
      ensures !Checked(code) || code == Busy ==> sync == None
      // An upgrade takes effect once and in full, or not at all; success means the former.
      ensures req.action.UpgradeCardAction? && req.userId != 0 && old(HasAccount(c, req.userId)) ==>
        Upgraded(old(c.sql.tabs), c.Backend(), req.action.cardIdx, req.userId, old(RouteOf(c, req.userId)), code, sync)
      ensures req.action.GetListAction? ==> c.sql.tabs == old(c.sql.tabs)
      // The answer is the raised card, or every row of the user's list.
      ensures code == OK && !req.action.LoginAction? ==> old(Answer(req, body))
      // Past the lock and when nothing fails, a list request is answered, and an upgrade if and only if the card is the user's.
      ensures Checked(code) && code != Busy && Well(world) && req.action.GetListAction? ==> code == OK
      ensures Checked(code) && code != Busy && Well(world) && req.action.UpgradeCardAction? ==> (code == OK <==> old(MayUpgrade(c, req)))
      // A login inserts the account of an unknown channel user, and then makes its calls in full or not at all.
      ensures req.action.LoginAction? && Checked(code) && code != Busy ==>
        && LoggedIn(old(c.sql.tabs), c.Backend(), req.action.channelUid, req.action.deviceId, world.design, TableId(c.game, Account), c.shards.shardMap, code, sync, deed)
        && Welcomed(req, world, code, body, deed, old(sessions.sessions))
      ensures Checked(code) && code != Busy && Well(world) && req.action.LoginAction? && Greets(req, world) && 0 < c.shards.totalWeight ==> code == OK
      // The lock, and whether it is left behind.
      ensures req.userId == 0 || !Checked(code) ==> lock.locks == old(lock.locks)
      ensures req.userId != 0 && Checked(code) ==>
        LockLeft(lock.locks, world, req.userId)
    {
      hide *;
      CodesChecked();
      BackendIs(c);
      body, sync, deed := ErrorResponse, None, Deed(0, Route(c.game, NIL), None, c.sql.tabs, []);
      KeptSelf(c.Backend(), 0);
      ghost var b := c.Backend();
      code := Check(req, world);
      if req.action.UpgradeCardAction? && HasAccount(c, req.userId) {
        NotUpgraded(b, b, req.action.cardIdx, req.userId, RouteOf(c, req.userId), Busy);
        if code != OK { NotUpgraded(b, b, req.action.cardIdx, req.userId, RouteOf(c, req.userId), code); }
      }
      if code != OK { return code, body, None, deed; }
      var got := false;
      if req.userId != 0 {
        got := lock.Acquire(req.userId, world.lockToken, world.moments);
        LockFacts(lock.locks, world, req.userId, got);
        if !got {
          LockEnds(lock.locks, world, req.userId, got);
          return Busy, body, None, deed;
        }
      }
      code, body, sync, deed := Serve(req, world);
      if got {
        lock.Release(req.userId, world.lockToken, world.release);
        LockEnds(lock.locks, world, req.userId, got);
      }
    }

    /** GetItems, GetAssets and GetCards: they only load, and answer with every row of the user. */
    method GetList(u: UnitOfWork, e: Entity, flaky: bool) returns (err: LoadError, body: Body)
      requires u.Valid() && u.userId != 0 && CallsOf(u.now.trace) == [] && e != Account
      modifies u, u.c.users
      ensures u.Valid() && u.OnlyLoaded()
      ensures !flaky ==> err == NoError
      ensures err == NoError ==> Replies(u.c.sql.tabs, u.now.rt, u.userId, GetListAction(e), body)
    {
      hide UnitOfWork.Consistent, CallsOf, Rows.Lists, ValidTable, Send, TellsAll;
      var list: seq<Model>;
      err, list := u.LoadList(e, flaky);
      if err != NoError { return err, ErrorResponse; }
      HeldLists(u, e);
      var sent := BuildAll(list);
      SentTellsAll(sent, u.now.req.store[e], At(u.c.sql.tabs, u.now.rt.Id(e)), u.userId, e);
      body := ListResponse(sent);
    }
  }

  /** The deed of a login, as far as it has come. */
  ghost function DeedOf(u: UnitOfWork, before: Tables, made: Option<Row>): Deed
    reads u, u.c.sql, u.c.shards
  {
    if made.Some? then
      Deed(At(before, TableId(u.c.game, Account)).next, RouteFor(u.c.game, u.c.shards.shardMap, made.value), made, u.c.sql.tabs, CallsOf(u.now.trace))
    else Deed(u.userId, u.now.rt, made, u.c.sql.tabs, CallsOf(u.now.trace))
  }

  lemma DeedIs(u: UnitOfWork, before: Tables, made: Option<Row>, channelUid: nat, deviceId: string, draw: int, reply: Accounts.LoginReply)
    requires Accounts.Made(before, TableId(u.c.game, Account), made, u.c.sql.tabs)
    requires made.Some? ==>
      && Accounts.FirstAccount(made.value, channelUid, deviceId, u.c.shards.shardMap)
      && Some(made.value.shardId) == Shards.Draw(Shards.Pool(u.c.shards.regs), draw)
      && (forall k :: !Accounts.Active(At(before, TableId(u.c.game, Account)), channelUid, k))
      && (reply == Accounts.LoginFailed(Accounts.NotInserted) || u.userId == At(before, TableId(u.c.game, Account)).next)
    requires reply.Welcome? || reply.NoSession? || reply.GrantFailed? ==> Homed(u)
    ensures LoginDeed(channelUid, deviceId, before, TableId(u.c.game, Account), u.c.shards.shardMap, DeedOf(u, before, made))
    ensures Drawn(DeedOf(u, before, made).made, u.c.shards.regs, draw)
    ensures reply.Welcome? || reply.NoSession? || reply.GrantFailed? ==>
      DeedOf(u, before, made).user == u.userId && DeedOf(u, before, made).rt == u.now.rt && HasAccount(u.c, u.userId)
    ensures reply != Accounts.LoginFailed(Accounts.NotInserted) ==> DeedOf(u, before, made).user == u.userId
  {
    hide Accounts.Active, AddedRow, CallsOf, Shards.Draw, Shards.Pool;
    if made.Some? { Accounts.RowAdded(before, TableId(u.c.game, Account), made.value, u.c.sql.tabs); }
  }

  /** Until its commit a login has touched nothing of anybody else's. */
  lemma LoginOthers(b: Backend, b': Backend, deed: Deed, accounts: TableId, shards: map<int, DbId>, channelUid: nat, deviceId: string)
    requires Open(b, accounts.db, shards) && accounts.entity == Account
    requires LoginDeed(channelUid, deviceId, b.tabs, accounts, shards, deed) && deed.start == b'.tabs
    requires b'.cache - {deed.user} == b.cache - {deed.user}
    ensures OthersKept(b, b', deed.user) && At(b.tabs, accounts).rows.Keys <= At(b'.tabs, accounts).rows.Keys
  {
    hide Accounts.Active;
    var b1 := Coherence.Backend(b'.tabs, b.cache);
    if deed.made.Some? {
      AddedAccount(b, b1, accounts.db, shards, deed.made.value);
    } else {
      KeptSelf(b, deed.user);
    }
    hide Open, Accounts.Made, LoginDeed, OthersKept;
    CacheOnly(b1, b', deed.user);
    OthersKeptAgain(b, b1, b', deed.user);
  }

  lemma HomedHas(u: UnitOfWork)
    requires Homed(u)
    ensures HasAccount(u.c, u.userId) && u.now.rt == RouteOf(u.c, u.userId)
  {
  }

  lemma CacheOnly(b: Backend, b': Backend, u: nat)
    requires b'.tabs == b.tabs && b'.cache - {u} == b.cache - {u}
    ensures OthersKept(b, b', u)
  {
    Beside(b.cache, b'.cache, u);
    hide UserRows;
  }

  lemma KeptSelf(b: Backend, u: nat)
    ensures OthersKept(b, b, u)
  {
    hide UserRows;
  }

  /** A handler that fails has given nothing. */
  lemma NoGoods(deed: Deed, design: Option<nat>)
    ensures design.Some? && Goodless(deed.start, deed.user, deed.rt) ==> !Accounts.Granted(deed.start, deed.start, deed.user, deed.rt, design.value)
  {
    hide Goodless, Accounts.Granted;
    if design.Some? && Goodless(deed.start, deed.user, deed.rt) { NotGranted(deed.start, deed.start, deed.user, deed.rt, design.value); }
  }

  lemma CallsGive(deed: Deed, design: Option<nat>, deviceId: string)
    requires ValidTables(deed.start, deed.rt) && deed.user in At(deed.start, deed.rt.Id(Account)).rows
    requires deed.calls == if deed.made.Some? then Accounts.Grant(design) else [TouchAccount(deviceId)]
    ensures LoginGives(deed, Direct(deed.start, deed.calls, deed.user, deed.rt), design, deed.rt.Id(Account), deviceId)
  {
    hide Accounts.Granted, Direct, ValidTables, Accounts.Grant, TouchedOnly;
    if deed.made.None? {
      TouchSets(deed.start, deed.user, deed.rt, deviceId);
    } else if design.Some? && Goodless(deed.start, deed.user, deed.rt) {
      Accounts.GrantGives(deed.start, deed.user, deed.rt, design.value);
    }
  }

  /** A commit gives the goods if and only if its one transaction meets no fault. */
  lemma GoodsGiven(deed: Deed, design: Option<nat>, tabs: Tables, after: Tables, faults: seq<Fault>)
    requires tabs == deed.start && ValidTables(tabs, deed.rt)
    requires after == if FaultAt(faults, 0).None? then Direct(tabs, deed.calls, deed.user, deed.rt) else tabs
    requires deed.made.Some? ==> deed.calls == Accounts.Grant(design)
    ensures deed.made.Some? && design.Some? && Goodless(deed.start, deed.user, deed.rt) ==>
      (Accounts.Granted(deed.start, after, deed.user, deed.rt, design.value) <==> FaultAt(faults, 0).None?)
  {
    NoGoods(deed, design);
    hide Accounts.Granted, Direct, FaultAt, ValidTables, Accounts.Grant;
    if deed.made.Some? && design.Some? && Goodless(deed.start, deed.user, deed.rt) {
      Accounts.GrantGives(tabs, deed.user, deed.rt, design.value);
    }
  }

  /** The one database a login writes after the account is there. */
  function OnlyDb(deed: Deed): DbId {
    if deed.made.Some? then deed.rt.shard else deed.rt.game
  }

  /** What the commit of a login finds. */
  lemma LoginReady(u: UnitOfWork, deed: Deed, design: Option<nat>, deviceId: string)
    requires u.Valid() && u.userId != 0 && deed.user == u.userId && deed.rt == u.now.rt
    requires CallsOf(u.now.trace) == if deed.made.Some? then Accounts.Grant(design) else [TouchAccount(deviceId)]
    ensures ValidTables(u.c.sql.tabs, deed.rt) && Sound(u.now.trace, u.c.sql.tabs, deed.user, deed.rt)
    ensures u.now.req == Replay(u.now.trace, deed.user, deed.rt)
    ensures OnlyDb(deed) != NIL && AllOn(u.now.req.ops, OnlyDb(deed))
  {
    ValidFacts(u);
    hide UnitOfWork.Valid, Steady, Coherent, Replay, AllOn, CallsOf, ValidTables, Sound, AllHeld;
    GameThere(u);
    if deed.made.Some? {
      GrantOnShard(u.now.trace, deed.user, deed.rt, design);
    } else {
      TouchesOnGame(u.now.trace, deed.user, deed.rt);
    }
  }

  lemma GameThere(u: UnitOfWork)
    requires u.Valid()
    ensures u.now.rt.game != NIL
  {
    hide Replay, Steady, Reads, Serving, AccountOk;
  }

  /**
   * The keys when a request is done that tried for the user's lock: as its last try and its release leave
   * them. Where the other servers keep to the protocol, the user's key still holds the request's token if
   * and only if it was set and a reply or the release was lost, until ten seconds after the SET.
   */
  ghost predicate LockLeft(locks: Leases.Locks, world: World, key: nat)
    requires world.moments != []
  {
    var m := world.moments[Leases.LastTry(world.moments, key)];
    && locks == Leases.AfterRequest(m, world.release, key, world.lockToken)
    && (LockFair(m, world.release, key, world.lockToken) ==>
          forall t: nat :: world.release.now <= t ==>
            (Leases.HeldBy(locks, key, world.lockToken, t) <==>
               Leases.Takes(m, key) && (m.reply.Failed? || world.release.reply == Leases.Failed(false)) && t < m.now + 10_000))
  }

  /** LeftBehindIff, for the last try of the request. */
  lemma LeftBehind(locks: Leases.Locks, world: World, key: nat)
    requires world.moments != []
    requires locks == Leases.AfterRequest(world.moments[Leases.LastTry(world.moments, key)], world.release, key, world.lockToken)
    ensures LockLeft(locks, world, key)
  {
    var m := world.moments[Leases.LastTry(world.moments, key)];
    if LockFair(m, world.release, key, world.lockToken) {
      hide Leases.AfterRequest, Leases.HeldBy, Leases.Takes, Leases.Respected;
      forall t: nat | world.release.now <= t {
        Leases.LeftBehindIff(m, world.release, key, world.lockToken, t);
      }
    }
  }

  /** A request that was refused the lock leaves it as its last try did; one that had it, as its release does. */
  lemma LockEnds(locks: Leases.Locks, world: World, key: nat, got: bool)
    requires world.moments != []
    requires var m := world.moments[Leases.LastTry(world.moments, key)];
      && got == (Leases.Takes(m, key) && m.reply.Answered?)
      && locks == if !got then Leases.AfterSet(m, key, world.lockToken)
                  else if world.release.reply == Leases.Failed(false) then world.release.locks
                  else Leases.DropIf(world.release.locks, key, world.lockToken, world.release.now)
    ensures LockLeft(locks, world, key)
  {
    hide LockLeft, Leases.AfterSet, Leases.DropIf, Leases.Takes;
    LeftBehind(locks, world, key);
  }

  lemma GroundedHomed(u: UnitOfWork)
    requires Accounts.Ready(u.c) && u.hashes == u.c.users.hashes && HasAccount(u.c, u.userId) && u.now.rt == RouteOf(u.c, u.userId)
    ensures Grounded(u) && Homed(u)
  {
    hide Open;
  }

  lemma OpenAccount(c: Container, user: nat)
    requires Accounts.Ready(c) && HasAccount(c, user)
    ensures c.Valid() && RouteOf(c, user).game == c.game && Serving(c.Backend(), [], user, RouteOf(c, user), c.shards.shardMap)
  {
    hide Serving, Open, Container.Valid, At;
    Accounts.OpenAccount(c.Backend(), c.game, c.shards.shardMap, user);
  }

  /** A request queues at most one write per call. */
  lemma {:induction false} OpsPerCall(trace: seq<Event>, u: nat, rt: Route)
    ensures |Replay(trace, u, rt).ops| <= |CallsOf(trace)|
    decreases |trace|
  {
    if trace != [] {
      var front, ev := trace[..|trace| - 1], trace[|trace| - 1];
      assert Replay(trace, u, rt) == Apply(Replay(front, u, rt), u, rt, ev);
      assert CallsOf(trace) == CallsOf(front) + if ev.Make? then [ev.call] else [];
      hide Replay, CallsOf, OnList, Call.Kind;
      OpsPerCall(front, u, rt);
    }
  }

  lemma FewOps(u: UnitOfWork)
    requires u.Valid()
    ensures |u.now.req.ops| <= |CallsOf(u.now.trace)|
  {
    hide Replay, Steady, Reads, Container.Valid, Serving, AccountOk, CallsOf;
    OpsPerCall(u.now.trace, u.userId, u.now.rt);
  }
}

// Many servers, one lock key per user with a lease, and a clock: the step-level protocol that
// dispatch follows around a unit of work.
module Protocol {
  import opened Rows
  import opened TableRun
  import opened Calls
  import Q = Queue
  import opened Request
  import opened Deferred
  import opened Coherence
  import Transactions
  import L = Leases

  /** Where a request is between Acquire and the end of its deferred Release. */
  datatype Phase = Waiting(tries: nat) | Running | Wrote(store: Q.Store) | Wiping | Done

  /** `no` counts lock acquisitions; `deadline` is the end of the lease; the lock token is the flight's key. */
  datatype Flight = Flight(user: nat, phase: Phase, deadline: nat, no: nat, trace: seq<Event>)

  /** A request that tried to commit, and the databases whose transactions went through. */
  datatype Entry = Entry(user: nat, no: nat, calls: seq<Call>, dbs: set<Q.DbId>)

  datatype World = World(b: Backend, routes: map<nat, Route>, locks: L.Locks, now: nat,
                         flights: map<nat, Flight>, spent: set<nat>, acquired: nat, log: seq<Entry>)

  datatype Act =
    | Tick(ms: nat)
    | Start(token: nat, user: nat)
    | TryLock(token: nat)
    | LoseSet(token: nat)
    | Leave(token: nat)
    | LoadRows(token: nat, entity: Entity, rows: seq<Row>, fill: bool)
    | Serve(token: nat, call: Call)
    | Transact(token: nat, faults: seq<Transactions.Fault>)
    | WriteCache(token: nat, reply: CacheReply)
    | Wipe(token: nat)
    | Fail(token: nat)
    | Release(token: nat)
    | LoseRelease(token: nat)
    | Evict(user: nat, keep: set<Entity>)

  /** The transaction has been attempted and the cache has not yet been settled. */
  predicate Settling(f: Flight) {
    f.phase.Wrote? || f.phase.Wiping?
  }

  predicate Acquired(f: Flight) {
    !f.phase.Waiting?
  }

  function Put(w: World, t: nat, f: Flight): World {
    w.(flights := w.flights[t := f])
  }

  predicate Is(w: World, t: nat, phase: Phase) {
    t in w.flights && w.flights[t].phase == phase && w.flights[t].user in w.routes
  }

  /** A running request inside its lease. */
  predicate Live(w: World, t: nat) {
    Is(w, t, Running) && w.now < w.flights[t].deadline
  }

  function ReqOf(w: World, f: Flight): Req
    requires f.user in w.routes
  {
    Replay(f.trace, f.user, w.routes[f.user])
  }

  function AfterWrite(w: World, t: nat, reply: CacheReply): World
    requires t in w.flights && w.flights[t].phase.Wrote?
  {
    var f := w.flights[t];
    var wrote := w.b.SetFields(f.user, f.phase.store);
    match reply
    case Written => Put(w, t, f.(phase := Done)).(b := wrote)
    case NotWritten => Put(w, t, f.(phase := Wiping))
    case WrittenButError => Put(w, t, f.(phase := Wiping)).(b := wrote)
  }

  /** The clock advances; a commit is settled within its lease. */
  ghost predicate Ticks(w: World, ms: nat, w': World) {
    && (forall t :: t in w.flights && Settling(w.flights[t]) ==> w.now + ms < w.flights[t].deadline)
    && w' == w.(now := w.now + ms)
  }

  /** A server takes up a request and draws a token nobody has used. */
  ghost predicate Starts(w: World, t: nat, u: nat, w': World) {
    && t !in w.spent && u in w.routes && u != 0
    && w' == Put(w, t, Flight(u, Waiting(0), 0, 0, [])).(spent := w.spent + {t})
  }

  /** One turn of the retry loop of Acquire. */
  ghost predicate Tries(w: World, t: nat, w': World) {
    && t in w.flights && w.flights[t].phase.Waiting? && w.flights[t].phase.tries < L.MAX_TRIES
    && var f := w.flights[t];
    var (got, locks) := L.SetNx(w.locks, f.user, t, w.now);
    w' == if got then
            Put(w, t, f.(phase := Running, deadline := w.now + L.LEASE_MS, no := w.acquired))
              .(locks := locks, acquired := w.acquired + 1)
          else Put(w, t, f.(phase := Waiting(f.phase.tries + 1)))
  }

  /** A try whose SET takes the key while its reply is lost: Acquire fails, and nobody will release the key. */
  ghost predicate LosesSet(w: World, t: nat, w': World) {
    && t in w.flights && w.flights[t].phase.Waiting? && w.flights[t].phase.tries < L.MAX_TRIES
    && w' == w.(locks := L.SetNx(w.locks, w.flights[t].user, t, w.now).1, flights := w.flights - {t})
  }

  /** Acquire gives up. */
  ghost predicate Leaves(w: World, t: nat, w': World) {
    t in w.flights && w.flights[t].phase.Waiting? && w' == w.(flights := w.flights - {t})
  }

  /** A load that finds nothing in the store, with or without the answer going into the cache. */
  ghost predicate Loads(w: World, t: nat, e: Entity, rows: seq<Row>, fill: bool, w': World) {
    && Live(w, t)
    && var f := w.flights[t];
    && e !in ReqOf(w, f).store && Answers(w.b, f.user, w.routes[f.user], e, rows)
    && w' == Put(w, t, f.(trace := f.trace + [Load(e, rows)]))
               .(b := if fill then w.b.SetFields(f.user, map[e := rows]) else w.b)
  }

  /** A service call, in memory. */
  ghost predicate Serves(w: World, t: nat, call: Call, w': World) {
    && Is(w, t, Running)
    && var f := w.flights[t];
    && call.Kind() in ReqOf(w, f).store
    && w' == Put(w, t, f.(trace := f.trace + [Make(call)]))
  }

  /** The transactions of Commit, one for each database the request writes. */
  ghost predicate Transacts(w: World, t: nat, faults: seq<Transactions.Fault>, w': World) {
    && Live(w, t)
    && var f := w.flights[t];
    var r := ReqOf(w, f);
    ReplayHeld(f.trace, f.user, w.routes[f.user]);
    var x := DbPhase(r, w.b.tabs, faults);
    w' == AfterTransact(w, t, x, CommittedDbs(r, x.0))
  }

  /** All committed, the cache is written next; one failed, the cache is dropped; a nil database, nothing more happens. */
  function AfterTransact(w: World, t: nat, x: (Transactions.Outcome, Q.State), dbs: set<Q.DbId>): World
    requires t in w.flights
  {
    var f := w.flights[t];
    var phase := if x.0.AllCommitted? then Wrote(x.1.store) else if x.0.TxFailed? then Wiping else Done;
    Put(w, t, f.(phase := phase)).(b := w.b.(tabs := x.1.tabs), log := w.log + [Entry(f.user, f.no, CallsOf(f.trace), dbs)])
  }

  /** The cache write of Commit. */
  ghost predicate Writes(w: World, t: nat, reply: CacheReply, w': World) {
    t in w.flights && w.flights[t].phase.Wrote? && w' == AfterWrite(w, t, reply)
  }

  /** CommitOrRollback drops the user's cache. */
  ghost predicate Wipes(w: World, t: nat, w': World) {
    Is(w, t, Wiping) && w' == Put(w, t, w.flights[t].(phase := Done)).(b := w.b.DeleteAll(w.flights[t].user))
  }

  /** A handler error: nothing is committed. */
  ghost predicate Fails(w: World, t: nat, w': World) {
    Is(w, t, Running) && w' == Put(w, t, w.flights[t].(phase := Done))
  }

  ghost predicate Releases(w: World, t: nat, w': World) {
    Is(w, t, Done) && w' == w.(locks := L.DropIf(w.locks, w.flights[t].user, t, w.now), flights := w.flights - {t})
  }

  /** The deferred Release does not reach Redis, which leaves the key until it expires. */
  ghost predicate LosesRelease(w: World, t: nat, w': World) {
    Is(w, t, Done) && w' == w.(flights := w.flights - {t})
  }

  /** The cache forgets some of a user's fields. */
  ghost predicate Evicts(w: World, u: nat, keep: set<Entity>, w': World) {
    w' == w.(b := w.b.(cache := w.b.cache[u := map e | e in w.b.Cached(u) && e in keep :: w.b.Cached(u)[e]]))
  }

  /** One step of one server, of the clock, or of the cache's eviction. */
  ghost predicate Next(w: World, a: Act, w': World) {
    match a
    case Tick(ms) => Ticks(w, ms, w')
    case Start(t, u) => Starts(w, t, u, w')
    case TryLock(t) => Tries(w, t, w')
    case LoseSet(t) => LosesSet(w, t, w')
    case Leave(t) => Leaves(w, t, w')
    case LoadRows(t, e, rows, fill) => Loads(w, t, e, rows, fill, w')
    case Serve(t, call) => Serves(w, t, call, w')
    case Transact(t, faults) => Transacts(w, t, faults, w')
    case WriteCache(t, reply) => Writes(w, t, reply, w')
    case Wipe(t) => Wipes(w, t, w')
    case Fail(t) => Fails(w, t, w')
    case Release(t) => Releases(w, t, w')
    case LoseRelease(t) => LosesRelease(w, t, w')
    case Evict(u, keep) => Evicts(w, u, keep, w')
  }

  // ------------------------------------------------------------------ lease safety

  /** The lock key of an acquired, unexpired flight holds that flight's token and expires with it. */
  ghost predicate FlightLeased(w: World, t: nat)
    requires t in w.flights
  {
    var f := w.flights[t];
    && f.user in w.routes && f.user != 0 && t in w.spent
    && (f.phase.Waiting? ==> f.phase.tries <= L.MAX_TRIES)
    && (Acquired(f) && w.now < f.deadline ==> f.user in w.locks && w.locks[f.user] == L.Lease(t, f.deadline))
    && (Settling(f) ==> w.now < f.deadline)
  }

  ghost predicate LeaseInv(w: World) {
    forall t :: t in w.flights ==> FlightLeased(w, t)
  }

  /** What a flight may become while neither locks nor clock move: it neither starts, ends nor acquires. */
  ghost predicate Flown(f: Flight, f': Flight, now: nat) {
    && f'.user == f.user && f'.deadline == f.deadline && f'.no == f.no
    && (f' == f || (Acquired(f) && Acquired(f')))
    && (f'.phase == Running ==> f.phase == Running)
    && (Settling(f') ==> now < f.deadline)
  }

  ghost predicate Quiet(w: World, w': World) {
    && w'.locks == w.locks && w'.now == w.now && w'.acquired == w.acquired && w'.spent == w.spent && w'.routes == w.routes
    && w'.flights.Keys == w.flights.Keys
    && forall t :: t in w.flights ==> Flown(w.flights[t], w'.flights[t], w.now)
  }

  predicate Quietly(a: Act) {
    !a.Tick? && !a.Start? && !a.TryLock? && !a.LoseSet? && !a.Leave? && !a.Release? && !a.LoseRelease?
  }

  /** A step that replaces flight t and touches at most the backend and the log. */
  lemma QuietPut(w: World, w': World, t: nat, f': Flight)
    requires LeaseInv(w) && t in w.flights && w'.flights == w.flights[t := f'] && Flown(w.flights[t], f', w.now)
    requires w'.locks == w.locks && w'.now == w.now && w'.acquired == w.acquired && w'.spent == w.spent && w'.routes == w.routes
    ensures Quiet(w, w') && forall s :: s in w.flights && s != t ==> w'.flights[s] == w.flights[s]
  {
    forall s | s in w.flights
      ensures Flown(w.flights[s], w'.flights[s], w.now)
    {
      assert FlightLeased(w, s);
    }
  }

  lemma QuietLoad(w: World, t: nat, e: Entity, rows: seq<Row>, fill: bool, w': World)
    requires LeaseInv(w) && Loads(w, t, e, rows, fill, w')
    ensures Quiet(w, w') && w'.log == w.log && forall s :: s in w.flights && s != t ==> w'.flights[s] == w.flights[s]
  {
    hide LeaseInv, Quiet, ReqOf, Answers, Backend.SetFields;
    QuietPut(w, w', t, w'.flights[t]);
  }

  lemma QuietServe(w: World, t: nat, call: Call, w': World)
    requires LeaseInv(w) && Serves(w, t, call, w')
    ensures Quiet(w, w') && w'.log == w.log && forall s :: s in w.flights && s != t ==> w'.flights[s] == w.flights[s]
  {
    hide LeaseInv, Quiet, ReqOf, Call.Kind;
    QuietPut(w, w', t, w'.flights[t]);
  }

  lemma QuietTransact(w: World, t: nat, faults: seq<Transactions.Fault>, w': World)
    requires LeaseInv(w) && Transacts(w, t, faults, w')
    ensures Quiet(w, w') && forall s :: s in w.flights && s != t ==> w'.flights[s] == w.flights[s]
  {
    hide LeaseInv, Quiet, ReqOf, DbPhase, CallsOf, CommittedDbs;
    QuietPut(w, w', t, w'.flights[t]);
  }

  lemma QuietWrite(w: World, t: nat, reply: CacheReply, w': World)
    requires LeaseInv(w) && Writes(w, t, reply, w')
    ensures Quiet(w, w') && w'.log == w.log && forall s :: s in w.flights && s != t ==> w'.flights[s] == w.flights[s]
  {
    assert FlightLeased(w, t);
    hide LeaseInv, Quiet, Backend.SetFields;
    QuietPut(w, w', t, w'.flights[t]);
  }

  lemma QuietWipe(w: World, t: nat, w': World)
    requires LeaseInv(w) && Wipes(w, t, w')
    ensures Quiet(w, w') && w'.log == w.log && forall s :: s in w.flights && s != t ==> w'.flights[s] == w.flights[s]
  {
    hide LeaseInv, Quiet, Backend.DeleteAll;
    QuietPut(w, w', t, w'.flights[t]);
  }

  lemma QuietFail(w: World, t: nat, w': World)
    requires LeaseInv(w) && Fails(w, t, w')
    ensures Quiet(w, w') && w'.log == w.log && forall s :: s in w.flights && s != t ==> w'.flights[s] == w.flights[s]
  {
    hide LeaseInv, Quiet;
    QuietPut(w, w', t, w'.flights[t]);
  }

  lemma QuietEvict(w: World, u: nat, keep: set<Entity>, w': World)
    requires LeaseInv(w) && Evicts(w, u, keep, w')
    ensures Quiet(w, w') && w'.log == w.log
  {
    hide Backend.Cached;
    forall s | s in w.flights
      ensures Flown(w.flights[s], w'.flights[s], w.now)
    {
      assert FlightLeased(w, s);
    }
  }

  lemma QuietActs(w: World, a: Act, w': World)
    requires LeaseInv(w) && Next(w, a, w') && Quietly(a)
    ensures Quiet(w, w')
    ensures a.Transact? || w'.log == w.log
  {
    hide LeaseInv, Quiet, Loads, Serves, Transacts, Writes, Wipes, Fails, Evicts;
    match a {
      case LoadRows(t, e, rows, fill) => QuietLoad(w, t, e, rows, fill, w');
      case Serve(t, call) => QuietServe(w, t, call, w');
      case Transact(t, faults) => QuietTransact(w, t, faults, w');
      case WriteCache(t, reply) => QuietWrite(w, t, reply, w');
      case Wipe(t) => QuietWipe(w, t, w');
      case Fail(t) => QuietFail(w, t, w');
      case Evict(u, keep) => QuietEvict(w, u, keep, w');
    }
  }

  lemma QuietLease(w: World, w': World)
    requires LeaseInv(w) && Quiet(w, w')
    ensures LeaseInv(w')
  {
    forall t | t in w'.flights
      ensures FlightLeased(w', t)
    {
      assert FlightLeased(w, t) && Flown(w.flights[t], w'.flights[t], w.now);
    }
  }

  lemma LeaseStep(w: World, a: Act, w': World)
    requires LeaseInv(w) && Next(w, a, w')
    ensures LeaseInv(w')
  {
    if Quietly(a) {
      QuietActs(w, a, w');
      hide Next, LeaseInv, Quiet;
      QuietLease(w, w');
    } else {
      hide Quietly;
      forall s | s in w'.flights
        ensures FlightLeased(w', s)
      {
        LoudLease(w, a, w', s);
      }
    }
  }

  lemma LoudLease(w: World, a: Act, w': World, s: nat)
    requires LeaseInv(w) && Next(w, a, w') && !Quietly(a) && s in w'.flights
    ensures FlightLeased(w', s)
  {
    assert s in w.flights ==> FlightLeased(w, s);
    hide LeaseInv, Loads, Serves, Transacts, Writes, Wipes, Fails, Evicts;
  }

  /** At most one request of a user is acquired and inside its lease, and the stored token is its own. */
  lemma OneHolder(w: World, s: nat, t: nat)
    requires LeaseInv(w) && s in w.flights && t in w.flights
    requires Acquired(w.flights[s]) && Acquired(w.flights[t]) && w.flights[s].user == w.flights[t].user
    requires w.now < w.flights[s].deadline && w.now < w.flights[t].deadline
    ensures s == t && w.locks[w.flights[s].user].token == s
  {
  }

  // ------------------------------------------------------------------ data

  /** What a flight knows about the backend: its loads are current, or its store is what the cache must get. */
  ghost predicate FlightOk(w: World, t: nat)
    requires t in w.flights && w.flights[t].user in w.routes
  {
    var f := w.flights[t];
    var rt := w.routes[f.user];
    match f.phase
    case Waiting(_) => f.trace == []
    case Running =>
      w.now < f.deadline ==> Sound(f.trace, w.b.tabs, f.user, rt)
    case Wrote(store) => Coherent(w.b.SetFields(f.user, store), f.user, rt)
    case _ => true
  }

  ghost predicate Settled(w: World, u: nat) {
    forall t :: t in w.flights && w.flights[t].user == u ==> !Settling(w.flights[t])
  }

  /** Every user's cache is coherent except while one of the user's commits is being settled. */
  ghost predicate CacheInv(w: World) {
    forall u :: u in w.routes && Settled(w, u) ==> Coherent(w.b, u, w.routes[u])
  }

  ghost predicate FlightInv(w: World) {
    && (forall t :: t in w.flights ==> w.flights[t].user in w.routes)
    && (forall t :: t in w.flights ==> FlightOk(w, t))
  }

  ghost predicate TablesInv(w: World) {
    && (forall u :: u in w.routes ==> ValidTables(w.b.tabs, w.routes[u]))
    && (forall u :: u in w.routes ==> w.routes[u].game != Q.NIL && w.routes[u].shard != Q.NIL)
  }

  /** The tables of the databases `dbs` after the calls are made at once, and the others as they were. */
  ghost function Landed(tabs: Q.Tables, calls: seq<Call>, u: nat, rt: Route, dbs: set<Q.DbId>): Q.Tables {
    var after := Direct(tabs, calls, u, rt);
    map id | id in tabs :: if id.db in dbs && id in after then after[id] else tabs[id]
  }

  /** The requests applied to the tables one at a time: each call at once, on the databases that committed. */
  ghost function Serial(tabs: Q.Tables, log: seq<Entry>, routes: map<nat, Route>): Q.Tables {
    if log == [] then tabs
    else
      var last := log[|log| - 1];
      var before := Serial(tabs, log[..|log| - 1], routes);
      if last.user in routes then Landed(before, last.calls, last.user, routes[last.user], last.dbs) else before
  }

  /** Every logged request of user u acquired the lock before acquisition `no`. */
  ghost predicate NoLater(log: seq<Entry>, u: nat, no: nat) {
    forall i :: 0 <= i < |log| && log[i].user == u ==> log[i].no < no
  }

  /** For each user the log is in lock-acquisition order, and whoever may still commit acquired later. */
  ghost predicate LogInv(w: World) {
    && (forall i :: 0 <= i < |w.log| ==> w.log[i].no < w.acquired && w.log[i].user in w.routes)
    && (forall i, j :: 0 <= i < j < |w.log| && w.log[i].user == w.log[j].user ==> w.log[i].no < w.log[j].no)
    && (forall t :: t in w.flights && w.flights[t].phase == Running && w.now < w.flights[t].deadline ==>
          NoLater(w.log, w.flights[t].user, w.flights[t].no))
    && (forall t :: t in w.flights && Acquired(w.flights[t]) ==> w.flights[t].no < w.acquired)
  }

  ghost predicate Inv(w: World, tabs: Q.Tables) {
    && LeaseInv(w) && CacheInv(w) && FlightInv(w) && TablesInv(w) && LogInv(w)
    && w.b.tabs == Serial(tabs, w.log, w.routes)
  }

  lemma LogStep(w: World, a: Act, w': World)
    requires LeaseInv(w) && LogInv(w) && Next(w, a, w')
    ensures LogInv(w')
  {
    if a.Transact? {
      LogTransact(w, a, w');
    } else if Quietly(a) {
      QuietActs(w, a, w');
      hide Next, LeaseInv;
    } else {
      LogLoud(w, a, w');
    }
  }

  lemma LogLoud(w: World, a: Act, w': World)
    requires LeaseInv(w) && LogInv(w) && Next(w, a, w') && !Quietly(a)
    ensures LogInv(w')
  {
    hide Loads, Serves, Transacts, Writes, Wipes, Fails, Evicts, LeaseInv;
  }

  lemma LogTransact(w: World, a: Act, w': World)
    requires LeaseInv(w) && LogInv(w) && Next(w, a, w') && a.Transact?
    ensures LogInv(w')
  {
    QuietTransact(w, a.token, a.faults, w');
    var f := w.flights[a.token];
    assert |w'.log| == |w.log| + 1 && w'.log[..|w.log|] == w.log && w'.log[|w.log|].user == f.user && w'.log[|w.log|].no == f.no;
    assert !(w'.flights[a.token].phase == Running);
    hide Next, Quiet, CallsOf, LeaseInv;
    forall t | t in w'.flights && w'.flights[t].phase == Running && w'.now < w'.flights[t].deadline
      ensures NoLater(w'.log, w'.flights[t].user, w'.flights[t].no)
    {
      assert NoLater(w.log, w.flights[t].user, w.flights[t].no);
    }
  }

  // ------------------------------------------------------------------ what a step of one user leaves to the others

  lemma {:induction false} SoundKept(trace: seq<Event>, tabs: Q.Tables, tabs': Q.Tables, u: nat, rt: Route)
    requires Sound(trace, tabs, u, rt)
    requires forall e: Entity :: UserRows(Q.At(tabs', rt.Id(e)), u) == UserRows(Q.At(tabs, rt.Id(e)), u)
    ensures Sound(trace, tabs', u, rt)
    decreases |trace|
  {
    hide UserRows, Replay, ByPk;
    if trace != [] { SoundKept(trace[..|trace| - 1], tabs, tabs', u, rt); }
  }

  /** A step by flight t, inside its lease, that touches the backend only for t's user. */
  ghost predicate StepOf(w: World, w': World, t: nat) {
    && t in w.flights && w.now < w.flights[t].deadline && Acquired(w.flights[t])
    && Quiet(w, w')
    && (forall s :: s in w.flights && s != t ==> w'.flights[s] == w.flights[s])
    && OthersKept(w.b, w'.b, w.flights[t].user)
  }

  lemma SetFieldsOthers(b: Backend, b': Backend, u: nat, v: nat, fields: Q.Store)
    requires OthersKept(b, b', u) && v != u
    ensures OthersKept(b.SetFields(v, fields), b'.SetFields(v, fields), u)
  {
    hide UserRows;
    forall x | x != u
      ensures b'.SetFields(v, fields).Cached(x) == b.SetFields(v, fields).Cached(x)
    {
      assert b'.Cached(x) == b.Cached(x);
    }
  }

  lemma OtherFlight(w: World, w': World, t: nat, s: nat)
    requires StepOf(w, w', t) && LeaseInv(w) && FlightInv(w) && TablesInv(w)
    requires s in w.flights && s != t
    ensures s in w'.flights && w'.flights[s].user in w'.routes && FlightOk(w', s)
  {
    assert FlightOk(w, s);
    var f, u := w.flights[s], w.flights[t].user;
    var rt := w.routes[f.user];
    assert ValidTables(w.b.tabs, rt);
    if Acquired(f) && w.now < f.deadline {
      if f.user == u {
        OneHolder(w, s, t);
      } else if f.phase == Running {
        hide Sound, UserRows, ValidTable, CallsOf, LeaseInv, FlightInv, TablesInv, Quiet;
        assert forall e: Entity :: rt.Id(e) in w.b.tabs;
        SoundKept(f.trace, w.b.tabs, w'.b.tabs, f.user, rt);
      } else if f.phase.Wrote? {
        hide UserRows, ValidTable, LeaseInv, FlightInv, TablesInv, Quiet, Coherent;
        var c, c' := w.b.SetFields(f.user, f.phase.store), w'.b.SetFields(f.user, f.phase.store);
        SetFieldsOthers(w.b, w'.b, u, f.user, f.phase.store);
        OthersCoherent(c, c', u, f.user, rt);
      }
    }
  }

  lemma OtherCaches(w: World, w': World, t: nat, v: nat)
    requires StepOf(w, w', t) && TablesInv(w) && CacheInv(w)
    requires v in w.routes && v != w.flights[t].user && Settled(w', v)
    ensures Coherent(w'.b, v, w.routes[v])
  {
    assert Settled(w, v);
    assert ValidTables(w.b.tabs, w.routes[v]);
    hide Coherent, OthersKept, ValidTable;
    OthersCoherent(w.b, w'.b, w.flights[t].user, v, w.routes[v]);
  }

  /** No commit of a user is unsettled while one of the user's requests runs inside its lease. */
  lemma LiveSettled(w: World, t: nat)
    requires LeaseInv(w) && Live(w, t)
    ensures Settled(w, w.flights[t].user)
  {
    forall s | s in w.flights && w.flights[s].user == w.flights[t].user
      ensures !Settling(w.flights[s])
    {
      if Settling(w.flights[s]) { OneHolder(w, s, t); }
    }
  }

  /** The data half of the invariant, for a step by flight t. */
  ghost predicate Kept(w': World, t: nat) {
    && t in w'.flights && w'.flights[t].user in w'.routes
    && FlightOk(w', t)
    && (Settling(w'.flights[t]) || Coherent(w'.b, w'.flights[t].user, w'.routes[w'.flights[t].user]))
  }

  lemma StepData(w: World, w': World, t: nat)
    requires LeaseInv(w) && CacheInv(w) && FlightInv(w) && TablesInv(w)
    requires StepOf(w, w', t) && Kept(w', t)
    ensures CacheInv(w') && FlightInv(w')
  {
    hide FlightOk, Coherent, OthersKept, TablesInv;
    forall s | s in w'.flights
      ensures w'.flights[s].user in w'.routes && FlightOk(w', s)
    {
      if s != t { OtherFlight(w, w', t, s); }
    }
    forall v | v in w'.routes && Settled(w', v)
      ensures Coherent(w'.b, v, w'.routes[v])
    {
      if v != w.flights[t].user { OtherCaches(w, w', t, v); }
    }
  }

  /** Steps that leave the backend alone: the clock, the lock, and work in memory. */
  lemma MemoryData(w: World, w': World)
    requires CacheInv(w) && FlightInv(w) && w'.b == w.b && w'.routes == w.routes && w.now <= w'.now
    requires forall s :: s in w'.flights ==>
      || (s in w.flights && w'.flights[s] == w.flights[s])
      || (w'.flights[s].user in w'.routes && FlightOk(w', s) && !Settling(w'.flights[s]))
    requires forall s :: s in w.flights && Settling(w.flights[s]) ==> s in w'.flights && w'.flights[s] == w.flights[s]
    ensures CacheInv(w') && FlightInv(w')
  {
    hide Sound, Coherent, CallsOf, Call.Kind;
    forall s | s in w'.flights
      ensures w'.flights[s].user in w'.routes && FlightOk(w', s)
    {
      if s in w.flights && w'.flights[s] == w.flights[s] { assert FlightOk(w, s); }
    }
    forall v | v in w'.routes && Settled(w', v)
      ensures Coherent(w'.b, v, w'.routes[v])
    {
      assert Settled(w, v);
    }
  }

  // ------------------------------------------------------------------ the steps one by one

  lemma FillOthers(b: Backend, u: nat, fields: Q.Store)
    ensures OthersKept(b, b.SetFields(u, fields), u) && OthersKept(b, b.DeleteAll(u), u)
  {
  }

  lemma SnocTrace(trace: seq<Event>, ev: Event)
    ensures (trace + [ev])[..|trace + [ev]| - 1] == trace
    ensures CallsOf(trace + [ev]) == CallsOf(trace) + if ev.Make? then [ev.call] else []
  {
    assert (trace + [ev])[..|trace + [ev]| - 1] == trace;
  }

  /** A load inside the lease answers with the user's rows and leaves a coherent cache, filled or not. */
  lemma LoadSound(b: Backend, trace: seq<Event>, u: nat, rt: Route, e: Entity, rows: seq<Row>)
    requires Coherent(b, u, rt) && Sound(trace, b.tabs, u, rt) && Answers(b, u, rt, e, rows)
    ensures Sound(trace + [Load(e, rows)], b.tabs, u, rt)
    ensures CallsOf(trace + [Load(e, rows)]) == CallsOf(trace)
    ensures Coherent(b.SetFields(u, map[e := rows]), u, rt) && OthersKept(b, b.SetFields(u, map[e := rows]), u)
  {
    hide Coherent, CallsOf, Lists, Answers, OthersKept, Backend.SetFields, Replay;
    FillOthers(b, u, map[e := rows]);
    SnocTrace(trace, Load(e, rows));
    AnswerIsListing(b, u, rt, e, rows);
  }

  lemma LoadKept(w: World, w': World, t: nat, e: Entity, rows: seq<Row>, fill: bool)
    requires LeaseInv(w) && CacheInv(w) && FlightInv(w) && TablesInv(w)
    requires Loads(w, t, e, rows, fill, w')
    ensures Kept(w', t) && OthersKept(w.b, w'.b, w.flights[t].user)
  {
    var f := w.flights[t];
    LiveReady(w, t);
    hide Coherent, CallsOf, CacheInv, FlightInv, LeaseInv, TablesInv, OthersKept, Backend.SetFields, Sound, Answers, ReqOf;
    LoadSound(w.b, f.trace, f.user, w.routes[f.user], e, rows);
    KeptSelf(w.b, f.user);
    FillTabs(w.b, f.user, map[e := rows]);
  }

  lemma LoadData(w: World, w': World, t: nat, e: Entity, rows: seq<Row>, fill: bool)
    requires LeaseInv(w) && CacheInv(w) && FlightInv(w) && TablesInv(w)
    requires Loads(w, t, e, rows, fill, w')
    ensures CacheInv(w') && FlightInv(w')
  {
    QuietLoad(w, t, e, rows, fill, w');
    LoadKept(w, w', t, e, rows, fill);
    hide Quiet, Kept, OthersKept, CacheInv, FlightInv, TablesInv, LeaseInv, Answers, ReqOf;
    StepData(w, w', t);
  }

  lemma KeptSelf(b: Backend, u: nat)
    ensures OthersKept(b, b, u)
  {
  }

  lemma ServeData(w: World, w': World, t: nat, call: Call)
    requires CacheInv(w) && FlightInv(w) && Serves(w, t, call, w')
    ensures CacheInv(w') && FlightInv(w')
  {
    var f := w.flights[t];
    assert FlightOk(w, t);
    hide CallsOf, Lists, CacheInv, FlightInv, Call.Kind, Replay;
    SnocTrace(f.trace, Make(call));
    assert FlightOk(w', t);
    hide FlightOk;
    MemoryData(w, w');
  }

  /** What the transactions of a request, sound up to now, do to the backend. */
  ghost predicate Commits(b: Backend, trace: seq<Event>, u: nat, rt: Route, x: (Transactions.Outcome, Q.State), dbs: set<Q.DbId>) {
    var r := Replay(trace, u, rt);
    && BaseOk(r) && !x.0.NilDb?
    && OthersKept(b, b.(tabs := x.1.tabs), u)
    && (forall id :: id in b.tabs && ValidTable(b.tabs[id], id.entity) ==> ValidTable(x.1.tabs[id], id.entity))
    && x.1.tabs == Landed(b.tabs, CallsOf(trace), u, rt, dbs)
    && (x.0.AllCommitted? ==> x.1 == Q.State(TargetTables(r, b.tabs, rt), AssignedStore(r, b.tabs, rt)))
  }

  /** A routed queue names no nil database. */
  lemma RoutedNotNil(r: Req, tabs: Q.Tables, rt: Route, faults: seq<Transactions.Fault>)
    requires Q.AllHeld(r.ops, r.store) && Q.OneDb(r.ops) && Routed(r.ops, rt) && rt.game != Q.NIL && rt.shard != Q.NIL
    ensures !DbPhase(r, tabs, faults).0.NilDb?
  {
    Transactions.GroupsAreHeld(r.ops, r.store);
    Q.GroupsPartition(r.ops);
    var gs := Q.Groups(r.ops);
    forall i | 0 <= i < |gs|
      ensures gs[i].db != Q.NIL
    {
      var q := gs[i].ops[0];
      Q.OnlyInMembers(r.ops, {gs[i].db}, q);
    }
    Transactions.NeverNil(Q.State(tabs, r.store), gs, faults, 0);
  }

  /** The calls take effect on exactly the databases that committed. */
  lemma {:induction false} TransactTables(b: Backend, trace: seq<Event>, u: nat, rt: Route, faults: seq<Transactions.Fault>)
    requires ValidTables(b.tabs, rt) && Sound(trace, b.tabs, u, rt) && rt.game != Q.NIL && rt.shard != Q.NIL
    ensures var r := Replay(trace, u, rt);
      && Q.AllHeld(r.ops, r.store) && Q.OneDb(r.ops) && Tracks(r, b.tabs, u, rt)
      && var x := DbPhase(r, b.tabs, faults);
      Commits(b, trace, u, rt, x, CommittedDbs(r, x.0))
  {
    var r := Replay(trace, u, rt);
    hide Q.AllHeld, Q.OneDb, Tracks, BaseOk, Lands, Direct, Replay, Sound, ValidTables, DbPhase, CommittedDbs, OthersKept, TargetTables, AssignedStore, ValidTable, CallsOf, Routed, Landed;
    TraceMeansDirect(trace, b.tabs, u, rt);
    TracksRouted(r, b.tabs, u, rt);
    CommitLands(r, b.tabs, u, rt, faults);
    var x := DbPhase(r, b.tabs, faults);
    var dbs := CommittedDbs(r, x.0);
    LandsOthers(r, b, u, rt, dbs, b.(tabs := x.1.tabs));
    RoutedNotNil(r, b.tabs, rt, faults);
    LandsLanded(r, b.tabs, CallsOf(trace), u, rt, dbs, x.1.tabs);
  }

  lemma TracksRouted(r: Req, tabs: Q.Tables, u: nat, rt: Route)
    requires Tracks(r, tabs, u, rt)
    ensures Routed(r.ops, rt)
  {
    hide Routed;
  }

  lemma LandsLanded(r: Req, tabs: Q.Tables, calls: seq<Call>, u: nat, rt: Route, dbs: set<Q.DbId>, tabs': Q.Tables)
    requires BaseOk(r) && Lands(r, tabs, rt, dbs, tabs') && TargetTables(r, tabs, rt) == Direct(tabs, calls, u, rt)
    ensures tabs' == Landed(tabs, calls, u, rt, dbs)
  {
    LandsDirect(r, tabs, rt, dbs, tabs');
    assert tabs'.Keys == tabs.Keys;
    hide TargetTables, Direct, Lands, BaseOk;
  }

  /** What a committed store puts into the cache is what the tables hold. */
  lemma TransactFills(b: Backend, trace: seq<Event>, u: nat, rt: Route, x: (Transactions.Outcome, Q.State), dbs: set<Q.DbId>)
    requires ValidTables(b.tabs, rt) && Coherent(b, u, rt) && Tracks(Replay(trace, u, rt), b.tabs, u, rt)
    requires Commits(b, trace, u, rt, x, dbs) && x.0.AllCommitted?
    ensures Coherent(b.(tabs := x.1.tabs).SetFields(u, x.1.store), u, rt)
  {
    hide Tracks, Coherent, ValidTables, OthersKept, TargetTables, AssignedStore, BaseOk, ValidTable, Landed, Replay;
    WriteCoherent(Replay(trace, u, rt), b, u, rt);
  }

  /** What Transact does to the world, case by case. */
  lemma TransactWorld(w: World, w': World, t: nat, faults: seq<Transactions.Fault>)
    requires Transacts(w, t, faults, w')
    ensures var f := w.flights[t];
      var r := ReqOf(w, f);
      && Q.AllHeld(r.ops, r.store) && Q.OneDb(r.ops)
      && var x := DbPhase(r, w.b.tabs, faults);
      && w'.b == w.b.(tabs := x.1.tabs) && w'.routes == w.routes && t in w'.flights && w'.flights[t].user == f.user
      && w'.log == w.log + [Entry(f.user, f.no, CallsOf(f.trace), CommittedDbs(r, x.0))]
      && w'.flights[t].phase == if x.0.AllCommitted? then Wrote(x.1.store) else if x.0.TxFailed? then Wiping else Done
  {
    ReplayHeld(w.flights[t].trace, w.flights[t].user, w.routes[w.flights[t].user]);
    hide DbPhase, CallsOf, Replay, CommittedDbs;
  }

  lemma TransactKept(w: World, w': World, t: nat, faults: seq<Transactions.Fault>)
    requires LeaseInv(w) && CacheInv(w) && FlightInv(w) && TablesInv(w)
    requires Transacts(w, t, faults, w')
    ensures Kept(w', t)
    ensures OthersKept(w.b, w'.b, w.flights[t].user)
    ensures forall id :: id in w.b.tabs && ValidTable(w.b.tabs[id], id.entity) ==> ValidTable(w'.b.tabs[id], id.entity)
  {
    var f := w.flights[t];
    var u, rt := f.user, w.routes[f.user];
    TransactWorld(w, w', t, faults);
    LiveReady(w, t);
    hide Next, Live, CacheInv, FlightInv, TablesInv, LeaseInv, Tracks, Replay, Sound, ValidTables, DbPhase, Coherent, OthersKept, CallsOf, ValidTable, Landed, TargetTables, AssignedStore, CommittedDbs;
    TransactTables(w.b, f.trace, u, rt, faults);
    var r := Replay(f.trace, u, rt);
    var x := DbPhase(r, w.b.tabs, faults);
    if x.0.AllCommitted? {
      hide Transacts;
      TransactFills(w.b, f.trace, u, rt, x, CommittedDbs(r, x.0));
    }
    SettlingKept(w', t);
  }

  /** What the invariant says about a request inside its lease. */
  lemma LiveReady(w: World, t: nat)
    requires LeaseInv(w) && CacheInv(w) && FlightInv(w) && TablesInv(w) && Live(w, t)
    ensures var f := w.flights[t];
      var rt := w.routes[f.user];
      && ValidTables(w.b.tabs, rt) && Sound(f.trace, w.b.tabs, f.user, rt)
      && Coherent(w.b, f.user, rt) && rt.game != Q.NIL && rt.shard != Q.NIL
  {
    hide Coherent, Sound, ValidTables, LeaseInv;
    assert FlightOk(w, t);
    LiveSettled(w, t);
  }

  lemma SettlingKept(w: World, t: nat)
    requires t in w.flights && Settling(w.flights[t]) && w.flights[t].user in w.routes
    requires w.flights[t].phase.Wrote? ==>
      Coherent(w.b.SetFields(w.flights[t].user, w.flights[t].phase.store), w.flights[t].user, w.routes[w.flights[t].user])
    ensures Kept(w, t)
  {
    hide Coherent, Sound, CallsOf, Backend.SetFields;
  }

  /** The log grows by exactly the calls the tables have taken in. */
  lemma TransactSerial(w: World, w': World, t: nat, faults: seq<Transactions.Fault>, tabs: Q.Tables)
    requires LeaseInv(w) && CacheInv(w) && FlightInv(w) && TablesInv(w)
    requires Transacts(w, t, faults, w') && w.b.tabs == Serial(tabs, w.log, w.routes)
    ensures w'.b.tabs == Serial(tabs, w'.log, w'.routes)
  {
    var f := w.flights[t];
    TransactWorld(w, w', t, faults);
    LiveReady(w, t);
    hide Next, Live, CacheInv, FlightInv, TablesInv, LeaseInv, Tracks, Landed, Replay, DbPhase, CallsOf, OthersKept, ValidTable, Coherent, Sound, CommittedDbs;
    TransactTables(w.b, f.trace, f.user, w.routes[f.user], faults);
    assert w'.log[..|w'.log| - 1] == w.log;
  }

  lemma TransactData(w: World, w': World, t: nat, faults: seq<Transactions.Fault>)
    requires LeaseInv(w) && CacheInv(w) && FlightInv(w) && TablesInv(w)
    requires Transacts(w, t, faults, w')
    ensures CacheInv(w') && FlightInv(w') && TablesInv(w')
  {
    QuietTransact(w, t, faults, w');
    assert Live(w, t) && forall s :: s in w.flights && s != t ==> w'.flights[s] == w.flights[s];
    hide Next, Kept, OthersKept, CacheInv, FlightInv, LeaseInv, ReqOf, ValidTable;
    TransactKept(w, w', t, faults);
    assert StepOf(w, w', t);
    StepData(w, w', t);
    OthersTables(w, w', w.flights[t].user);
  }

  lemma OthersTables(w: World, w': World, u: nat)
    requires TablesInv(w) && w'.routes == w.routes && OthersKept(w.b, w'.b, u)
    requires forall id :: id in w.b.tabs && ValidTable(w.b.tabs[id], id.entity) ==> ValidTable(w'.b.tabs[id], id.entity)
    ensures TablesInv(w')
  {
    hide ValidTable, UserRows;
    forall v | v in w'.routes
      ensures ValidTables(w'.b.tabs, w'.routes[v])
    {
      assert ValidTables(w.b.tabs, w.routes[v]);
    }
  }

  lemma WriteData(w: World, w': World, t: nat, reply: CacheReply)
    requires LeaseInv(w) && CacheInv(w) && FlightInv(w) && TablesInv(w)
    requires Writes(w, t, reply, w')
    ensures CacheInv(w') && FlightInv(w')
  {
    var f := w.flights[t];
    QuietWrite(w, t, reply, w');
    assert FlightOk(w, t);
    FillOthers(w.b, f.user, f.phase.store);
    KeptSelf(w.b, f.user);
    assert StepOf(w, w', t) by { hide OthersKept, Coherent, FlightOk, Backend.SetFields; }
    hide OthersKept, CacheInv, FlightInv, TablesInv, StepOf, Quiet, Coherent, Backend.SetFields;
    assert Kept(w', t);
    StepData(w, w', t);
  }

  lemma WipeData(w: World, w': World, t: nat)
    requires LeaseInv(w) && CacheInv(w) && FlightInv(w) && TablesInv(w)
    requires Wipes(w, t, w')
    ensures CacheInv(w') && FlightInv(w')
  {
    var f := w.flights[t];
    QuietWipe(w, t, w');
    FillOthers(w.b, f.user, map[]);
    NoCacheCoherent(w.b, f.user, w.routes[f.user]);
    assert StepOf(w, w', t) by { hide OthersKept, Coherent, Backend.DeleteAll; }
    hide OthersKept, CacheInv, FlightInv, TablesInv, StepOf, Quiet, Coherent, Backend.DeleteAll;
    assert Kept(w', t);
    StepData(w, w', t);
  }

  /** Eviction can only take fields away. */
  lemma EvictCoherent(b: Backend, b': Backend, u: nat, rt: Route)
    requires b'.tabs == b.tabs && Coherent(b, u, rt)
    requires forall e :: e in b'.Cached(u) ==> e in b.Cached(u) && b'.Cached(u)[e] == b.Cached(u)[e]
    ensures Coherent(b', u, rt)
  {
  }

  lemma EvictData(w: World, w': World, v: nat, keep: set<Entity>)
    requires CacheInv(w) && FlightInv(w) && Evicts(w, v, keep, w')
    ensures CacheInv(w') && FlightInv(w')
  {
    assert forall u, e :: e in w'.b.Cached(u) ==> e in w.b.Cached(u) && w'.b.Cached(u)[e] == w.b.Cached(u)[e];
    assert w'.b.tabs == w.b.tabs && w'.flights == w.flights && w'.routes == w.routes && w'.now == w.now;
    hide Next, Coherent, Sound, CallsOf, Call.Kind;
    forall t | t in w'.flights
      ensures w'.flights[t].user in w'.routes && FlightOk(w', t)
    {
      assert FlightOk(w, t);
      var f := w.flights[t];
      if f.phase.Wrote? {
        EvictCoherent(w.b.SetFields(f.user, f.phase.store), w'.b.SetFields(f.user, f.phase.store), f.user, w.routes[f.user]);
      }
    }
    forall u | u in w'.routes && Settled(w', u)
      ensures Coherent(w'.b, u, w'.routes[u])
    {
      assert Settled(w, u);
      EvictCoherent(w.b, w'.b, u, w.routes[u]);
    }
  }

  lemma IdleData(w: World, a: Act, w': World)
    requires LeaseInv(w) && CacheInv(w) && FlightInv(w) && Next(w, a, w')
    requires a.Tick? || a.Start? || a.TryLock? || a.LoseSet? || a.Leave? || a.Fail? || a.Release? || a.LoseRelease?
    ensures CacheInv(w') && FlightInv(w')
  {
    match a {
      case Tick(ms) => TickData(w, w', ms);
      case Start(_, _) => JoinData(w, a, w');
      case TryLock(_) => JoinData(w, a, w');
      case _ => PartData(w, a, w');
    }
  }

  lemma JoinData(w: World, a: Act, w': World)
    requires LeaseInv(w) && CacheInv(w) && FlightInv(w) && Next(w, a, w') && (a.Start? || a.TryLock?)
    ensures CacheInv(w') && FlightInv(w')
  {
    hide CacheInv, Coherent, Replay, Call.Kind;
    assert a.token in w.flights ==> FlightOk(w, a.token);
    assert FlightOk(w', a.token) && !Settling(w'.flights[a.token]);
    hide FlightInv, LeaseInv, FlightOk;
    MemoryData(w, w');
  }

  lemma PartData(w: World, a: Act, w': World)
    requires LeaseInv(w) && CacheInv(w) && FlightInv(w) && Next(w, a, w') && (a.LoseSet? || a.Leave? || a.Fail? || a.Release? || a.LoseRelease?)
    ensures CacheInv(w') && FlightInv(w')
  {
    hide CacheInv, Coherent, CallsOf, Call.Kind, FlightInv, Sound, L.DropIf, L.SetNx;
    assert a.token in w'.flights ==> FlightOk(w', a.token) && w'.flights[a.token].user in w'.routes;
    hide FlightOk, LeaseInv;
    MemoryData(w, w');
  }

  lemma TickData(w: World, w': World, ms: nat)
    requires CacheInv(w) && FlightInv(w) && w' == w.(now := w.now + ms)
    ensures CacheInv(w') && FlightInv(w')
  {
    hide Coherent, Sound, CallsOf, Call.Kind;
    forall s | s in w'.flights
      ensures FlightOk(w', s)
    {
      assert FlightOk(w, s);
    }
  }

  /** Every step keeps the whole invariant. */
  lemma Step(w: World, a: Act, w': World, tabs: Q.Tables)
    requires Inv(w, tabs) && Next(w, a, w')
    ensures Inv(w', tabs)
  {
    LeaseStep(w, a, w');
    LogStep(w, a, w');
    DataStep(w, a, w', tabs);
  }

  lemma DataStep(w: World, a: Act, w': World, tabs: Q.Tables)
    requires LeaseInv(w) && CacheInv(w) && FlightInv(w) && TablesInv(w) && Next(w, a, w')
    requires w.b.tabs == Serial(tabs, w.log, w.routes)
    ensures CacheInv(w') && FlightInv(w') && TablesInv(w') && w'.b.tabs == Serial(tabs, w'.log, w'.routes)
  {
    hide LeaseInv, CacheInv, FlightInv, TablesInv, Serial;
    match a {
      case LoadRows(t, e, rows, fill) =>
        LoadData(w, w', t, e, rows, fill);
        SameTabs(w, a, w');
      case Serve(t, call) =>
        ServeData(w, w', t, call);
        SameTabs(w, a, w');
      case Transact(t, faults) =>
        TransactData(w, w', t, faults);
        TransactSerial(w, w', t, faults, tabs);
      case WriteCache(t, reply) =>
        WriteData(w, w', t, reply);
        SameTabs(w, a, w');
      case Wipe(t) =>
        WipeData(w, w', t);
        SameTabs(w, a, w');
      case Evict(u, keep) =>
        EvictData(w, w', u, keep);
        SameTabs(w, a, w');
      case _ =>
        IdleData(w, a, w');
        SameTabs(w, a, w');
    }
  }

  lemma SameTabs(w: World, a: Act, w': World)
    requires TablesInv(w) && Next(w, a, w') && !a.Transact?
    ensures w'.b.tabs == w.b.tabs && w'.log == w.log && w'.routes == w.routes && TablesInv(w')
  {
    hide ReqOf, Answers, CallsOf, Call.Kind, ValidTables;
  }

  // ------------------------------------------------------------------ runs

  /** No lock key outlives the next ten seconds. */
  ghost predicate LocksExpire(w: World) {
    forall u :: u in w.locks ==> w.locks[u].expiry <= w.now + 10_000
  }

  /** Before any request: no flights, empty log, and a cache that agrees with valid tables. */
  ghost predicate Init(w: World) {
    && w.flights == map[] && w.log == [] && TablesInv(w) && CacheInv(w) && LocksExpire(w)
  }

  /** An interleaving: worlds[0], acts[0], worlds[1], ... */
  ghost predicate IsRun(worlds: seq<World>, acts: seq<Act>) {
    && |worlds| == |acts| + 1 && Init(worlds[0])
    && forall i :: 0 <= i < |acts| ==> Next(worlds[i], acts[i], worlds[i + 1])
  }

  /** Every world of every run satisfies the invariant. */
  lemma {:induction false} EveryRunKeeps(worlds: seq<World>, acts: seq<Act>, n: nat)
    requires IsRun(worlds, acts) && n < |worlds|
    ensures Inv(worlds[n], worlds[0].b.tabs)
    ensures worlds[n].routes == worlds[0].routes
    decreases n
  {
    if n == 0 {
      InitInv(worlds[0]);
    } else {
      EveryRunKeeps(worlds, acts, n - 1);
      assert Next(worlds[n - 1], acts[n - 1], worlds[n]);
      hide Inv, Init;
      Step(worlds[n - 1], acts[n - 1], worlds[n], worlds[0].b.tabs);
      RoutesFixed(worlds[n - 1], acts[n - 1], worlds[n]);
    }
  }

  /**
   * In every interleaving of lock-protected requests on any number of servers, the tables are those of
   * the requests run one at a time, each user's in lock-acquisition order, as far as their transactions
   * committed.
   */
  lemma {:induction false} EveryRunIsSerial(worlds: seq<World>, acts: seq<Act>, n: nat)
    requires IsRun(worlds, acts) && n < |worlds|
    ensures var w := worlds[n];
      && w.b.tabs == Serial(worlds[0].b.tabs, w.log, worlds[0].routes)
      && (forall i :: 0 <= i < |w.log| ==> w.log[i].user in worlds[0].routes)
      && (forall i, j :: 0 <= i < j < |w.log| && w.log[i].user == w.log[j].user ==> w.log[i].no < w.log[j].no)
  {
    EveryRunKeeps(worlds, acts, n);
    hide IsRun, LeaseInv, CacheInv, FlightInv, TablesInv, Serial;
  }

  /** Between commits no user's cache is stale, whatever has been evicted and however requests have ended. */
  lemma {:induction false} EveryRunCoherent(worlds: seq<World>, acts: seq<Act>, n: nat, u: nat)
    requires IsRun(worlds, acts) && n < |worlds| && u in worlds[0].routes && Settled(worlds[n], u)
    ensures Coherent(worlds[n].b, u, worlds[0].routes[u])
  {
    EveryRunKeeps(worlds, acts, n);
    hide IsRun, LeaseInv, FlightInv, TablesInv, LogInv, Serial, Coherent, Settled;
  }

  /** In every run at most one request of a user is acquired and inside its lease, and the stored token is its own. */
  lemma {:induction false} LeaseSafety(worlds: seq<World>, acts: seq<Act>, n: nat, s: nat, t: nat)
    requires IsRun(worlds, acts) && n < |worlds| && s in worlds[n].flights && t in worlds[n].flights
    requires var w := worlds[n];
      && Acquired(w.flights[s]) && Acquired(w.flights[t]) && w.flights[s].user == w.flights[t].user
      && w.now < w.flights[s].deadline && w.now < w.flights[t].deadline
    ensures s == t
    ensures var f := worlds[n].flights[s]; f.user in worlds[n].locks && worlds[n].locks[f.user] == L.Lease(s, f.deadline)
  {
    EveryRunKeeps(worlds, acts, n);
    hide IsRun, LeaseInv, CacheInv, FlightInv, TablesInv, LogInv, Serial;
    OneHolder(worlds[n], s, t);
    assert FlightLeased(worlds[n], s) by { InvLeased(worlds[n], s); }
  }

  /** In every run a request that waits for the lock has tried at most 60 times. */
  lemma {:induction false} SixtyTries(worlds: seq<World>, acts: seq<Act>, n: nat, t: nat)
    requires IsRun(worlds, acts) && n < |worlds| && t in worlds[n].flights && worlds[n].flights[t].phase.Waiting?
    ensures worlds[n].flights[t].phase.tries <= 60
  {
    EveryRunKeeps(worlds, acts, n);
    hide IsRun, LeaseInv, CacheInv, FlightInv, TablesInv, LogInv, Serial;
    assert FlightLeased(worlds[n], t) by { InvLeased(worlds[n], t); }
  }

  lemma InvLeased(w: World, t: nat)
    requires LeaseInv(w) && t in w.flights
    ensures FlightLeased(w, t)
  {
    hide FlightLeased;
  }

  /** In every run a Release leaves everybody else's lock alone; a late one, whose key has passed on, changes no lock at all. */
  lemma {:induction false} LateRelease(worlds: seq<World>, acts: seq<Act>, n: nat, s: nat, t: nat)
    requires IsRun(worlds, acts) && n < |acts| && acts[n] == Release(s) && s != t
    requires t in worlds[n].flights && Acquired(worlds[n].flights[t]) && worlds[n].now < worlds[n].flights[t].deadline
    ensures var f := worlds[n].flights[t];
      && t in worlds[n + 1].flights && worlds[n + 1].flights[t] == f
      && f.user in worlds[n + 1].locks && worlds[n + 1].locks[f.user] == L.Lease(t, f.deadline)
    ensures s in worlds[n].flights && (worlds[n].flights[s].user == worlds[n].flights[t].user ==> worlds[n + 1].locks == worlds[n].locks)
  {
    EveryRunKeeps(worlds, acts, n);
    assert Next(worlds[n], acts[n], worlds[n + 1]);
    hide IsRun, LeaseInv, CacheInv, FlightInv, TablesInv, LogInv, Serial, Next;
    ReleaseKeeps(worlds[n], s, worlds[n + 1], t);
  }

  lemma ReleaseKeeps(w: World, s: nat, w': World, t: nat)
    requires LeaseInv(w) && Next(w, Release(s), w') && s != t
    requires t in w.flights && Acquired(w.flights[t]) && w.now < w.flights[t].deadline
    ensures var f := w.flights[t];
      && t in w'.flights && w'.flights[t] == f
      && f.user in w'.locks && w'.locks[f.user] == L.Lease(t, f.deadline)
    ensures s in w.flights && (w.flights[s].user == w.flights[t].user ==> w'.locks == w.locks)
  {
    assert FlightLeased(w, t);
    hide LeaseInv;
  }

  /**
   * Whatever happens to replies and releases, a key that nobody can release any more keeps its user out
   * for ten seconds at most: in every run every key is gone by then.
   */
  lemma {:induction false} EveryLockExpires(worlds: seq<World>, acts: seq<Act>, n: nat)
    requires IsRun(worlds, acts) && n < |worlds|
    ensures LocksExpire(worlds[n])
    decreases n
  {
    if n > 0 {
      EveryLockExpires(worlds, acts, n - 1);
      assert Next(worlds[n - 1], acts[n - 1], worlds[n]);
      hide LocksExpire, Next, IsRun;
      LocksStep(worlds[n - 1], acts[n - 1], worlds[n]);
    }
  }

  lemma LocksStep(w: World, a: Act, w': World)
    requires Next(w, a, w') && LocksExpire(w)
    ensures LocksExpire(w')
  {
    if Quietly(a) {
      LocksQuiet(w, a, w');
    } else {
      hide Loads, Serves, Transacts, Writes, Wipes, Fails, Evicts;
    }
  }

  /** Only the clock and the lock steps move locks or the clock. */
  lemma LocksQuiet(w: World, a: Act, w': World)
    requires Next(w, a, w') && Quietly(a)
    ensures w'.locks == w.locks && w'.now == w.now
  {
    hide ReqOf, DbPhase, CallsOf, Answers, CommittedDbs;
  }

  lemma RoutesFixed(w: World, a: Act, w': World)
    requires Next(w, a, w')
    ensures w'.routes == w.routes
  {
    hide ReqOf, Answers, CallsOf, Call.Kind, DbPhase, CommittedDbs;
  }

  lemma InitInv(w: World)
    requires Init(w)
    ensures Inv(w, w.b.tabs)
  {
    hide TablesInv, CacheInv;
  }
}

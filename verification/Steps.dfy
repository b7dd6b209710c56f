// The protocol's steps and the code's methods: a try for the lock, a commit and a release leave what
// one or more steps of the protocol leave.
module Steps {
  import opened Rows
  import opened TableRun
  import opened Calls
  import Q = Queue
  import opened Request
  import opened Deferred
  import opened Coherence
  import opened Protocol
  import Transactions
  import L = Leases

  /** The moment at which a call of the lock finds this world. */
  predicate Finds(m: L.Moment, w: World) {
    m.locks == w.locks && m.now == w.now
  }

  /**
   * SetNxOnce, whatever becomes of its call, is one step: a try, a try whose reply is lost, or giving up.
   * The request runs after it if and only if the key was free and the reply arrived.
   */
  lemma TryIsStep(w: World, t: nat, m: L.Moment) returns (a: Act, w': World)
    requires t in w.flights && w.flights[t].phase.Waiting? && w.flights[t].phase.tries < 60 && Finds(m, w)
    ensures Next(w, a, w') && w'.b == w.b && w'.log == w.log
    ensures w'.locks == L.AfterSet(m, w.flights[t].user, t)
    ensures (t in w'.flights && w'.flights[t].phase == Running) <==> !L.Held(m.locks, w.flights[t].user, m.now) && m.reply.Answered?
    ensures t in w'.flights && w'.flights[t].phase == Running ==> w'.flights[t].deadline == m.now + 10_000
    ensures t in w'.flights <==> m.reply.Answered?
  {
    var f := w.flights[t];
    var (got, locks) := L.SetNx(w.locks, f.user, t, w.now);
    if m.reply.Answered? {
      a := TryLock(t);
      w' := if got then Put(w, t, f.(phase := Running, deadline := w.now + L.LEASE_MS, no := w.acquired)).(locks := locks, acquired := w.acquired + 1)
            else Put(w, t, f.(phase := Waiting(f.phase.tries + 1)));
    } else if m.reply.applied {
      a, w' := LoseSet(t), w.(locks := locks, flights := w.flights - {t});
    } else {
      a, w' := Leave(t), w.(flights := w.flights - {t});
    }
  }

  /** Release is one step, too. */
  lemma ReleaseIsStep(w: World, t: nat, m: L.Moment) returns (a: Act, w': World)
    requires Is(w, t, Done) && Finds(m, w)
    ensures Next(w, a, w') && w'.b == w.b && w'.log == w.log && w'.flights == w.flights - {t}
    ensures w'.locks == if m.reply == L.Failed(false) then m.locks else L.DropIf(m.locks, w.flights[t].user, t, m.now)
  {
    if m.reply == L.Failed(false) {
      a, w' := LoseRelease(t), w.(flights := w.flights - {t});
    } else {
      a, w' := Release(t), w.(locks := L.DropIf(w.locks, w.flights[t].user, t, w.now), flights := w.flights - {t});
    }
  }

  /** A chain of steps from w to w'. */
  ghost predicate Leads(w: World, acts: seq<Act>, w': World)
    decreases |acts|
  {
    if acts == [] then w' == w
    else exists w1 :: Next(w, acts[0], w1) && Leads(w1, acts[1..], w')
  }

  lemma LeadsOne(w: World, a: Act, w': World)
    requires Next(w, a, w')
    ensures Leads(w, [a], w')
  {
    assert Leads(w', [a][1..], w');
  }

  lemma LeadsMore(w: World, a: Act, w1: World, acts: seq<Act>, w': World)
    requires Next(w, a, w1) && Leads(w1, acts, w')
    ensures Leads(w, [a] + acts, w')
  {
    assert ([a] + acts)[1..] == acts;
  }

  /** The same tables, and the same cached fields of every user. */
  ghost predicate SameData(b: Backend, b': Backend) {
    b.tabs == b'.tabs && forall v :: b.Cached(v) == b'.Cached(v)
  }

  /** The databases and the cache after CommitOrRollback of request t. */
  ghost function CommitOf(w: World, t: nat, faults: seq<Transactions.Fault>, reply: CacheReply): Backend
    requires Live(w, t)
  {
    var f := w.flights[t];
    ReplayHeld(f.trace, f.user, w.routes[f.user]);
    CommitOrRollback(ReqOf(w, f), w.b, f.user, faults, reply).1
  }

  /** What CommitOrRollback leaves, by how the transactions went. */
  lemma CommitCases(w: World, t: nat, faults: seq<Transactions.Fault>, reply: CacheReply, x: (Transactions.Outcome, Q.State))
    requires Live(w, t) && w.flights[t].user != 0
    requires Transacted(w, t, faults, x)
    ensures var (u, b1) := (w.flights[t].user, w.b.(tabs := x.1.tabs));
      CommitOf(w, t, faults, reply) ==
      match x.0
      case AllCommitted =>
        var (c, b) := CachePhase(Transactions.AllCommitted, Q.State(b1.tabs, x.1.store), b1, u, reply);
        RollbackPhase(c, b, u)
      case TxFailed(_) => b1.DeleteAll(u)
      case NilDb(_) => b1
  {
    hide DbPhase;
  }

  ghost predicate Transacted(w: World, t: nat, faults: seq<Transactions.Fault>, x: (Transactions.Outcome, Q.State))
    requires Live(w, t)
  {
    var f := w.flights[t];
    ReplayHeld(f.trace, f.user, w.routes[f.user]);
    x == DbPhase(ReqOf(w, f), w.b.tabs, faults)
  }

  /** Wiping, and nothing after it. */
  lemma WipeLeads(w: World, t: nat) returns (w': World)
    requires Is(w, t, Wiping)
    ensures Leads(w, [Wipe(t)], w') && w'.b == w.b.DeleteAll(w.flights[t].user) && Is(w', t, Done)
    ensures w'.locks == w.locks && w'.now == w.now && w'.log == w.log
  {
    w' := Put(w, t, w.flights[t].(phase := Done)).(b := w.b.DeleteAll(w.flights[t].user));
    LeadsOne(w, Wipe(t), w');
  }

  /** The cache write, and the wiping if it fails; an empty store is not written at all. */
  lemma WriteLeads(w: World, t: nat, reply: CacheReply) returns (acts: seq<Act>, w': World)
    requires t in w.flights && w.flights[t].phase.Wrote? && w.flights[t].user in w.routes && w.flights[t].user != 0
    ensures Leads(w, acts, w') && Is(w', t, Done)
    ensures w'.locks == w.locks && w'.now == w.now && w'.log == w.log
    ensures var f := w.flights[t];
      var (c, b) := CachePhase(Transactions.AllCommitted, Q.State(w.b.tabs, f.phase.store), w.b, f.user, reply);
      SameData(w'.b, RollbackPhase(c, b, f.user))
  {
    var f := w.flights[t];
    var r := if f.phase.store == map[] then Written else reply;
    var w1 := AfterWrite(w, t, r);
    assert Next(w, WriteCache(t, r), w1);
    hide Next, Leads;
    if r.Written? {
      assert f.phase.store == map[] ==> w.b.Cached(f.user) + f.phase.store == w.b.Cached(f.user);
      LeadsOne(w, WriteCache(t, r), w1);
      acts, w' := [WriteCache(t, r)], w1;
    } else {
      w' := WipeLeads(w1, t);
      LeadsMore(w, WriteCache(t, r), w1, [Wipe(t)], w');
      acts := [WriteCache(t, r)] + [Wipe(t)];
    }
  }

  lemma TransactStep(w: World, t: nat, faults: seq<Transactions.Fault>) returns (w1: World, x: (Transactions.Outcome, Q.State))
    requires Live(w, t)
    ensures Next(w, Transact(t, faults), w1) && Transacted(w, t, faults, x)
    ensures w1.b == w.b.(tabs := x.1.tabs) && w1.locks == w.locks && w1.now == w.now && |w1.log| == |w.log| + 1
    ensures t in w1.flights && w1.flights[t].user == w.flights[t].user && w1.flights[t].user in w1.routes
    ensures w1.flights[t].phase == if x.0.AllCommitted? then Wrote(x.1.store) else if x.0.TxFailed? then Wiping else Done
    ensures w1.flights[t].phase.Wiping? ==> Is(w1, t, Wiping)
    ensures w1.flights[t].phase.Done? ==> Is(w1, t, Done)
  {
    var f := w.flights[t];
    var r := ReqOf(w, f);
    ReplayHeld(f.trace, f.user, w.routes[f.user]);
    x := DbPhase(r, w.b.tabs, faults);
    w1 := AfterTransact(w, t, x, CommittedDbs(r, x.0));
    hide DbPhase, CommittedDbs, Replay, CallsOf;
  }

  /**
   * CommitOrRollback is a chain of steps: its transactions in one, the cache write in one, and the wiping
   * in one more if either failed; between any two of them other servers may step.
   */
  lemma CommitIsSteps(w: World, t: nat, faults: seq<Transactions.Fault>, reply: CacheReply) returns (acts: seq<Act>, w': World)
    requires Live(w, t) && w.flights[t].user != 0
    ensures Leads(w, acts, w') && Is(w', t, Done) && acts != [] && acts[0] == Transact(t, faults)
    ensures w'.locks == w.locks && w'.now == w.now && |w'.log| == |w.log| + 1
    ensures SameData(w'.b, CommitOf(w, t, faults, reply))
  {
    var w1, x := TransactStep(w, t, faults);
    hide *;
    CommitCases(w, t, faults, reply, x);
    var rest: seq<Act>;
    if x.0.AllCommitted? {
      rest, w' := WriteLeads(w1, t, reply);
    } else if x.0.TxFailed? {
      w' := WipeLeads(w1, t);
      rest := [Wipe(t)];
      SameSelf(w'.b);
    } else {
      rest, w' := [], w1;
      NoStep(w1);
      SameSelf(w'.b);
    }
    LeadsMore(w, Transact(t, faults), w1, rest, w');
    acts := [Transact(t, faults)] + rest;
  }

  lemma SameSelf(b: Backend)
    ensures SameData(b, b)
  {
  }

  lemma NoStep(w: World)
    ensures Leads(w, [], w)
  {
  }
}

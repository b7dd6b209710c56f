// Commit's transactions, one per database, each of which may fail.
module Transactions {
  import opened Rows
  import opened TableRun
  import opened Queue

  /**
   * Where the database connection fails a transaction: nowhere, or after so many successful
   * statements (0: BEGIN fails; the number of statements: COMMIT fails).
   */
  type Fault = Option<nat>

  /** The statements of one transaction up to the first failure. */
  function Attempt(s: State, ops: seq<QueuedOp>, fault: Fault): (r: (bool, State))
    requires AllHeld(ops, s.store)
    ensures SameShape(s.store, r.1.store)
    decreases |ops|
  {
    if fault == Some(0) then (false, s)
    else if ops == [] then (fault.None?, s)
    else
      match Step(s, ops[0])
      case None => (false, s)
      case Some(s') => Attempt(s', ops[1..], if fault.Some? then Some(fault.value - 1) else None)
  }

  /** Transaction: all statements, or none; the objects keep the keys assigned before a failure. */
  function Tx(s: State, ops: seq<QueuedOp>, fault: Fault): (r: (bool, State))
    requires AllHeld(ops, s.store)
    ensures SameShape(s.store, r.1.store)
  {
    var (ok, s') := Attempt(s, ops, fault);
    if ok then (true, s') else (false, State(s.tabs, s'.store))
  }

  lemma {:induction false} AttemptIsRun(s: State, ops: seq<QueuedOp>, fault: Fault)
    requires AllHeld(ops, s.store)
    ensures Attempt(s, ops, fault).0 ==> Run(s, ops) == Some(Attempt(s, ops, fault).1)
    ensures fault.None? && Run(s, ops).Some? ==> Attempt(s, ops, fault).0
    decreases |ops|
  {
    hide Step;
    if fault != Some(0) && ops != [] {
      var n := Step(s, ops[0]);
      if n.Some? { AttemptIsRun(n.value, ops[1..], if fault.Some? then Some(fault.value - 1) else None); }
    }
  }

  /** How the database half of Commit ends; `done` counts the groups already committed. */
  datatype Outcome = AllCommitted | TxFailed(done: nat) | NilDb(done: nat)

  function FaultAt(faults: seq<Fault>, i: nat): Fault {
    if i < |faults| then faults[i] else None
  }

  ghost predicate GroupsHeld(gs: seq<Group>, store: Store) {
    forall i :: 0 <= i < |gs| ==> AllHeld(gs[i].ops, store)
  }

  lemma GroupsHeldShape(gs: seq<Group>, a: Store, b: Store)
    requires GroupsHeld(gs, a) && SameShape(a, b)
    ensures GroupsHeld(gs, b)
  {
    forall i | 0 <= i < |gs| {
      AllHeldShape(gs[i].ops, a, b);
    }
  }

  lemma GroupsAreHeld(ops: seq<QueuedOp>, store: Store)
    requires AllHeld(ops, store) && OneDb(ops)
    ensures GroupsHeld(Groups(ops), store)
  {
    GroupsPartition(ops);
    hide OnlyIn, Groups, Flatten, AllHeld, OneDb;
    forall i | 0 <= i < |Groups(ops)| {
      SplitHeld(ops, NIL, {Groups(ops)[i].db}, store);
    }
  }

  /** Every op of every group is about a held object, whatever databases the ops are for. */
  lemma GroupsHeldAny(ops: seq<QueuedOp>, store: Store)
    requires AllHeld(ops, store)
    ensures GroupsHeld(Groups(ops), store)
  {
    GroupsPartition(ops);
    hide OnlyIn, Groups, Flatten, AllHeld;
    forall i | 0 <= i < |Groups(ops)|
      ensures AllHeld(Groups(ops)[i].ops, store)
    {
      var d := Groups(ops)[i].db;
      forall q | q in OnlyIn(ops, {d})
        ensures q in ops
      {
        OnlyInMembers(ops, {d}, q);
      }
      AllHeldIn(OnlyIn(ops, {d}), ops, store);
    }
  }

  /** One transaction per group, in order, until one fails or its database is nil. */
  ghost function CommitGroups(s: State, gs: seq<Group>, faults: seq<Fault>, done: nat): (Outcome, State)
    requires GroupsHeld(gs, s.store)
    decreases |gs|
  {
    if gs == [] then (AllCommitted, s)
    else if gs[0].db == NIL then (NilDb(done), s)
    else
      var (ok, s') := Tx(s, gs[0].ops, FaultAt(faults, done));
      GroupsHeldShape(gs, s.store, s'.store);
      if ok then CommitGroups(s', gs[1..], faults, done + 1) else (TxFailed(done), s')
  }

  /** Running the first n groups, one after the other, succeeds and leaves these tables. */
  ghost predicate RanFirst(s: State, gs: seq<Group>, n: nat, tabs: Tables) {
    && n <= |gs| && AllHeld(Flatten(gs[..n]), s.store)
    && Run(s, Flatten(gs[..n])).Some? && Run(s, Flatten(gs[..n])).value.tabs == tabs
  }

  lemma RanNone(s: State, gs: seq<Group>)
    ensures RanFirst(s, gs, 0, s.tabs)
  {
    assert Flatten(gs[..0]) == [];
  }

  lemma FlattenFirst(gs: seq<Group>, n: nat)
    requires gs != [] && n < |gs|
    ensures Flatten(gs[..n + 1]) == gs[0].ops + Flatten(gs[1..][..n])
  {
    var first := gs[..n + 1];
    assert first[0] == gs[0] && first[1..] == gs[1..][..n];
  }

  lemma RanOneMore(s: State, s1: State, gs: seq<Group>, n: nat, tabs: Tables)
    requires gs != [] && AllHeld(gs[0].ops, s.store) && Run(s, gs[0].ops) == Some(s1)
    requires RanFirst(s1, gs[1..], n, tabs)
    ensures RanFirst(s, gs, n + 1, tabs)
  {
    hide AllHeld, Run, Flatten;
    var tail := Flatten(gs[1..][..n]);
    FlattenFirst(gs, n);
    AllHeldShape(tail, s1.store, s.store);
    RunConcat(s, gs[0].ops, tail);
  }

  /** Whatever databases the groups are for, exactly those before the failure have taken effect. */
  lemma {:induction false} FirstGroupsRan(s: State, gs: seq<Group>, faults: seq<Fault>, base: nat)
    requires GroupsHeld(gs, s.store)
    ensures var x := CommitGroups(s, gs, faults, base);
      && base <= Done(x.0, base + |gs|) && RanFirst(s, gs, Done(x.0, base + |gs|) - base, x.1.tabs)
      && (x.0.NilDb? ==> x.0.done - base < |gs| && gs[x.0.done - base].db == NIL)
      && (!x.0.AllCommitted? ==> x.0.done - base < |gs|)
    decreases |gs|
  {
    RanNone(s, gs);
    hide RanFirst;
    if gs != [] && gs[0].db != NIL {
      var (ok, s') := Tx(s, gs[0].ops, FaultAt(faults, base));
      TxAborts(s, gs[0].ops, FaultAt(faults, base));
      TxCommits(s, gs[0].ops, FaultAt(faults, base));
      hide Tx, Run;
      GroupsHeldShape(gs, s.store, s'.store);
      if ok {
        FirstGroupsRan(s', gs[1..], faults, base + 1);
        var x := CommitGroups(s', gs[1..], faults, base + 1);
        RanOneMore(s, s', gs, Done(x.0, base + |gs|) - base - 1, x.1.tabs);
      }
    }
  }

  lemma {:induction false} NeverNil(s: State, gs: seq<Group>, faults: seq<Fault>, done: nat)
    requires GroupsHeld(gs, s.store) && forall i :: 0 <= i < |gs| ==> gs[i].db != NIL
    ensures !CommitGroups(s, gs, faults, done).0.NilDb?
    decreases |gs|
  {
    if gs != [] {
      var (ok, s') := Tx(s, gs[0].ops, FaultAt(faults, done));
      hide Tx;
      GroupsHeldShape(gs, s.store, s'.store);
      if ok { NeverNil(s', gs[1..], faults, done + 1); }
    }
  }

  function GroupDbs(gs: seq<Group>): set<DbId> {
    set i | 0 <= i < |gs| :: gs[i].db
  }

  function Done(o: Outcome, n: nat): nat {
    if o.AllCommitted? then n else o.done
  }

  lemma {:induction false} OnlyInSplit(ops: seq<QueuedOp>, d: DbId, ds: set<DbId>)
    requires d !in ds
    ensures OnlyIn(OnlyIn(ops, {d} + ds), {d}) == OnlyIn(ops, {d})
    ensures Except(OnlyIn(ops, {d} + ds), d) == OnlyIn(Except(ops, d), ds)
  {
    if ops != [] { OnlyInSplit(ops[1..], d, ds); }
  }

  lemma {:induction false} OnlyInNone(ops: seq<QueuedOp>)
    ensures OnlyIn(ops, {}) == []
  {
    if ops != [] { OnlyInNone(ops[1..]); }
  }

  /** The ops of several databases, with those of one of them run first. */
  lemma RunSplit(s: State, s1: State, ops: seq<QueuedOp>, d: DbId, ds: set<DbId>)
    requires AllHeld(ops, s.store) && OneDb(ops) && d !in ds
    requires AllHeld(OnlyIn(ops, {d}), s.store) && Run(s, OnlyIn(ops, {d})) == Some(s1)
    ensures AllHeld(OnlyIn(ops, {d} + ds), s.store) && AllHeld(OnlyIn(Except(ops, d), ds), s1.store)
    ensures Run(s, OnlyIn(ops, {d} + ds)) == Run(s1, OnlyIn(Except(ops, d), ds))
  {
    hide *;
    var ran := OnlyIn(ops, {d} + ds);
    SplitHeld(ops, d, {d} + ds, s.store);
    OnlyInSplit(ops, d, ds);
    SplitHeld(ran, d, {d}, s.store);
    AllHeldShape(Except(ran, d), s.store, s1.store);
    Extract(s, ran, d);
    RunConcat(s, OnlyIn(ran, {d}), Except(ran, d));
  }

  lemma GroupDbsSplit(gs: seq<Group>, n: nat)
    requires 0 < n <= |gs|
    ensures GroupDbs(gs[..n]) == {gs[0].db} + GroupDbs(gs[1..][..n - 1])
  {
    var tail := gs[1..][..n - 1];
    forall d | d in GroupDbs(gs[..n])
      ensures d in {gs[0].db} + GroupDbs(tail)
    {
      var i :| 0 <= i < n && gs[..n][i].db == d;
      if 0 < i { assert tail[i - 1].db == d; }
    }
    forall d | d in GroupDbs(tail)
      ensures d in GroupDbs(gs[..n])
    {
      var i :| 0 <= i < n - 1 && tail[i].db == d;
      assert gs[..n][i + 1].db == d;
    }
    assert gs[..n][0].db == gs[0].db;
  }

  lemma HeadNotInTail(gs: seq<Group>, ops: seq<QueuedOp>, n: nat)
    requires Partitions(gs, ops) && 0 < n <= |gs|
    ensures gs[0].db !in GroupDbs(gs[1..][..n - 1])
  {
    hide OnlyIn, Flatten;
  }

  /** Running exactly the ops of the databases in `ds`, in queue order, succeeds and leaves these tables. */
  ghost predicate RanOnly(s: State, ops: seq<QueuedOp>, ds: set<DbId>, tabs: Tables) {
    && AllHeld(OnlyIn(ops, ds), s.store)
    && Run(s, OnlyIn(ops, ds)).Some?
    && Run(s, OnlyIn(ops, ds)).value.tabs == tabs
  }

  /** How the outcome of the transactions determines which ops took effect. */
  ghost predicate PartialLaw(s: State, ops: seq<QueuedOp>, base: nat, o: Outcome, s': State) {
    var gs := Groups(ops);
    var n := Done(o, base + |gs|) - base;
    && 0 <= n <= |gs| && (n == |gs| <==> o.AllCommitted?)
    && RanOnly(s, ops, GroupDbs(gs[..n]), s'.tabs)
    && (o.AllCommitted? ==> AllHeld(ops, s.store) && Run(s, ops) == Some(s'))
  }

  /**
   * The partial-commit law: whatever the outcome, the tables are those of running exactly the ops
   * of the databases committed so far, in queue order.
   */
  lemma {:induction false} CommitPartial(s: State, ops: seq<QueuedOp>, faults: seq<Fault>, base: nat)
    requires AllHeld(ops, s.store) && OneDb(ops)
    ensures GroupsHeld(Groups(ops), s.store)
    ensures var r := CommitGroups(s, Groups(ops), faults, base); PartialLaw(s, ops, base, r.0, r.1)
    decreases |ops|
  {
    var gs := Groups(ops);
    GroupsAreHeld(ops, s.store);
    if ops == [] {
      assert CommitGroups(s, gs, faults, base) == (AllCommitted, s);
      NothingRan(s, ops, base, AllCommitted, s);
    } else {
      var d := ops[0].db;
      var rest := Except(ops, d);
      GroupsSplit(ops);
      hide OnlyIn, Except, Groups, AllHeld, OneDb, Run, Attempt, Tx, PartialLaw;
      SplitHeld(ops, d, {d}, s.store);
      var mine, fault := OnlyIn(ops, {d}), FaultAt(faults, base);
      var (ok, s1) := Tx(s, mine, fault);
      if d == NIL {
        NothingRan(s, ops, base, NilDb(base), s);
      } else if !ok {
        TxAborts(s, mine, fault);
        NothingRan(s, ops, base, TxFailed(base), s1);
      } else {
        TxCommits(s, mine, fault);
        AllHeldShape(rest, s.store, s1.store);
        CommitPartial(s1, rest, faults, base + 1);
        var r := CommitGroups(s1, Groups(rest), faults, base + 1);
        CommitMore(s, s1, ops, d, base, r.0, r.1);
      }
    }
  }

  lemma TxAborts(s: State, ops: seq<QueuedOp>, fault: Fault)
    requires AllHeld(ops, s.store)
    ensures !Tx(s, ops, fault).0 ==> Tx(s, ops, fault).1.tabs == s.tabs
  {
  }

  lemma TxCommits(s: State, ops: seq<QueuedOp>, fault: Fault)
    requires AllHeld(ops, s.store)
    ensures Tx(s, ops, fault).0 ==> Run(s, ops) == Some(Tx(s, ops, fault).1)
    ensures fault.None? && Run(s, ops).Some? ==> Tx(s, ops, fault).0
  {
    AttemptIsRun(s, ops, fault);
  }

  lemma NothingRan(s: State, ops: seq<QueuedOp>, base: nat, o: Outcome, s': State)
    requires if ops == [] then o.AllCommitted? && s' == s else !o.AllCommitted? && o.done == base && s'.tabs == s.tabs
    ensures PartialLaw(s, ops, base, o, s')
  {
    assert GroupDbs(Groups(ops)[..0]) == {};
    OnlyInNone(ops);
  }

  lemma CommitMore(s: State, s1: State, ops: seq<QueuedOp>, d: DbId, base: nat, o: Outcome, s': State)
    requires AllHeld(ops, s.store) && OneDb(ops) && ops != [] && ops[0].db == d
    requires AllHeld(OnlyIn(ops, {d}), s.store) && Run(s, OnlyIn(ops, {d})) == Some(s1)
    requires PartialLaw(s1, Except(ops, d), base + 1, o, s')
    ensures PartialLaw(s, ops, base, o, s')
  {
    hide OnlyIn, Except, Groups, AllHeld, OneDb, Run, RanOnly, GroupDbs;
    GroupsSplit(ops);
    var n, k := Done(o, base + |Groups(ops)|) - base, |Groups(ops)|;
    var rest := Except(ops, d);
    assert |Groups(rest)| == k - 1 && Done(o, base + 1 + |Groups(rest)|) - (base + 1) == n - 1;
    RanMore(s, s1, ops, d, n, s'.tabs);
    if o.AllCommitted? {
      SplitHeld(ops, d, {d}, s.store);
      Extract(s, ops, d);
      RunConcat(s, OnlyIn(ops, {d}), Except(ops, d));
    }
  }

  lemma RanMore(s: State, s1: State, ops: seq<QueuedOp>, d: DbId, n: nat, tabs: Tables)
    requires AllHeld(ops, s.store) && OneDb(ops)
    requires AllHeld(OnlyIn(ops, {d}), s.store) && Run(s, OnlyIn(ops, {d})) == Some(s1)
    requires 0 < n <= |Groups(ops)| && Groups(ops)[0].db == d
    requires Groups(ops)[1..] == Groups(Except(ops, d))
    requires RanOnly(s1, Except(ops, d), GroupDbs(Groups(Except(ops, d))[..n - 1]), tabs)
    ensures RanOnly(s, ops, GroupDbs(Groups(ops)[..n]), tabs)
  {
    var gs := Groups(ops);
    var ds := GroupDbs(gs[1..][..n - 1]);
    hide OnlyIn, Except, Groups, AllHeld, OneDb, Run, GroupDbs, Partitions;
    GroupsPartition(ops);
    HeadNotInTail(gs, ops, n);
    GroupDbsSplit(gs, n);
    RunSplit(s, s1, ops, d, ds);
  }

  /** Without faults, and with every database there, a queue that can run commits as a whole. */
  lemma {:induction false} FaultFree(s: State, ops: seq<QueuedOp>, faults: seq<Fault>, base: nat)
    requires AllHeld(ops, s.store) && OneDb(ops) && Run(s, ops).Some?
    requires (forall i :: base <= i ==> FaultAt(faults, i).None?) && forall q :: q in ops ==> q.db != NIL
    ensures GroupsHeld(Groups(ops), s.store) && CommitGroups(s, Groups(ops), faults, base).0.AllCommitted?
    decreases |ops|
  {
    GroupsAreHeld(ops, s.store);
    if ops == [] {
      assert CommitGroups(s, Groups(ops), faults, base) == (AllCommitted, s);
    } else {
      var d := ops[0].db;
      var rest := Except(ops, d);
      assert ops[0] in ops;
      GroupsSplit(ops);
      hide OnlyIn, Except, Groups, AllHeld, OneDb, Run, Attempt, Tx, FaultAt;
      SplitHeld(ops, d, {d}, s.store);
      var mine := OnlyIn(ops, {d});
      Extract(s, ops, d);
      RunConcat(s, mine, rest);
      TxCommits(s, mine, FaultAt(faults, base));
      var s1 := Run(s, mine).value;
      AllHeldShape(rest, s.store, s1.store);
      forall q | q in rest
        ensures q.db != NIL
      {
        ExceptMembers(ops, d, q);
      }
      FaultFree(s1, rest, faults, base + 1);
    }
  }
}

// Reloading resource data on many servers over Pub/Sub: every snapshot catches up with every publisher.
module Reloads {
  import opened Rows

  /** A published message: who sent it, and how new the sender's snapshot was. */
  datatype Msg = Msg(sender: nat, version: nat)

  /** `read` is what the load has read from the database so far; a load that a message started is `byMessage`. */
  datatype Work = Idle | Loading(read: Option<nat>, byMessage: bool) | Publishing

  datatype Server = Server(snapshot: nat, work: Work, inbox: seq<Msg>)

  /** `version` counts the changes of the database; `sent` is everything published. */
  datatype World = World(version: nat, servers: seq<Server>, sent: seq<Msg>)

  datatype Act =
    | Change
    | Trigger(i: nat)
    | Receive(i: nat)
    | Read(i: nat)
    | Replace(i: nat)
    | Fail(i: nat)
    | Publish(i: nat)
    | Unpublished(i: nat)

  predicate On(w: World, i: nat) {
    i < |w.servers|
  }

  function Put(w: World, i: nat, s: Server): World
    requires On(w, i)
  {
    w.(servers := w.servers[i := s])
  }

  function Deliver(servers: seq<Server>, m: Msg): (r: seq<Server>)
    ensures |r| == |servers|
    ensures forall i :: 0 <= i < |r| ==> r[i] == servers[i].(inbox := servers[i].inbox + [m])
  {
    seq(|servers|, i requires 0 <= i < |servers| => servers[i].(inbox := servers[i].inbox + [m]))
  }

  /** One step: loads of one server do not overlap, messages are delivered, and loads that a message started succeed. */
  predicate Next(w: World, a: Act, w': World) {
    match a
    case Change => w' == w.(version := w.version + 1)
    case Trigger(i) =>
      On(w, i) && w.servers[i].work.Idle? && w' == Put(w, i, w.servers[i].(work := Loading(None, false)))
    case Receive(i) =>
      && On(w, i) && w.servers[i].work.Idle? && w.servers[i].inbox != []
      && var s := w.servers[i];
      w' == Put(w, i, s.(inbox := s.inbox[1..], work := if s.inbox[0].sender == i then Idle else Loading(None, true)))
    case Read(i) =>
      && On(w, i) && w.servers[i].work.Loading? && w.servers[i].work.read.None?
      && w' == Put(w, i, w.servers[i].(work := w.servers[i].work.(read := Some(w.version))))
    case Replace(i) =>
      && On(w, i) && w.servers[i].work.Loading? && w.servers[i].work.read.Some?
      && var s := w.servers[i];
      w' == Put(w, i, s.(snapshot := s.work.read.value, work := if s.work.byMessage then Idle else Publishing))
    case Fail(i) =>
      && On(w, i) && w.servers[i].work.Loading? && !w.servers[i].work.byMessage
      && w' == Put(w, i, w.servers[i].(work := Idle))
    case Publish(i) =>
      && On(w, i) && w.servers[i].work.Publishing?
      && var m := Msg(i, w.servers[i].snapshot);
      w' == Put(w, i, w.servers[i].(work := Idle)).(servers := Deliver(w.servers[i := w.servers[i].(work := Idle)], m), sent := w.sent + [m])
    case Unpublished(i) =>
      On(w, i) && w.servers[i].work.Publishing? && w' == Put(w, i, w.servers[i].(work := Idle))
  }

  /** Server i has message m waiting, is loading because of one, or is at least as new as its sender was. */
  predicate Covered(s: Server, m: Msg) {
    || m in s.inbox
    || (s.work.Loading? && s.work.byMessage && (s.work.read.None? || m.version <= s.work.read.value))
    || m.version <= s.snapshot
  }

  /** Nobody is ahead of the database, and a load never goes back. */
  predicate Fresh(s: Server, version: nat) {
    && s.snapshot <= version
    && (s.work.Loading? && s.work.read.Some? ==> s.snapshot <= s.work.read.value <= version)
  }

  /** The sender of m is at least as new as it said; everybody else has m covered. */
  predicate Reached(s: Server, i: nat, m: Msg) {
    if m.sender == i then m.version <= s.snapshot else Covered(s, m)
  }

  ghost predicate Inv(w: World) {
    && (forall i :: 0 <= i < |w.servers| ==> Fresh(w.servers[i], w.version))
    && (forall k :: 0 <= k < |w.sent| ==> w.sent[k].version <= w.version)
    && (forall i, k :: 0 <= i < |w.servers| && 0 <= k < |w.sent| ==> Reached(w.servers[i], i, w.sent[k]))
  }

  lemma InboxSplit(inbox: seq<Msg>, m: Msg)
    requires inbox != []
    ensures m in inbox <==> m == inbox[0] || m in inbox[1..]
  {
    assert inbox == [inbox[0]] + inbox[1..];
  }

  /** No server loses sight of a message that was sent before the step. */
  lemma StaysReached(w: World, a: Act, w': World, i: nat, m: Msg)
    requires Next(w, a, w') && i < |w.servers| == |w'.servers|
    requires Fresh(w.servers[i], w.version) && m.version <= w.version && Reached(w.servers[i], i, m)
    ensures Reached(w'.servers[i], i, m)
  {
    if a.Receive? && a.i == i { InboxSplit(w.servers[i].inbox, m); }
  }

  lemma StaysFresh(w: World, a: Act, w': World, i: nat)
    requires Next(w, a, w') && i < |w.servers| == |w'.servers| && Fresh(w.servers[i], w.version)
    ensures Fresh(w'.servers[i], w'.version)
  {
  }

  lemma Step(w: World, a: Act, w': World)
    requires Inv(w) && Next(w, a, w')
    ensures Inv(w')
  {
    assert |w'.servers| == |w.servers| && w.version <= w'.version;
    assert w'.sent == w.sent || (a.Publish? && w'.sent == w.sent + [Msg(a.i, w.servers[a.i].snapshot)]);
    forall i | 0 <= i < |w'.servers|
      ensures Fresh(w'.servers[i], w'.version)
    {
      StaysFresh(w, a, w', i);
    }
    forall i, k | 0 <= i < |w'.servers| && 0 <= k < |w'.sent|
      ensures Reached(w'.servers[i], i, w'.sent[k])
    {
      if k < |w.sent| {
        StaysReached(w, a, w', i, w.sent[k]);
      } else {
        JustSent(w, a, w', i);
      }
    }
    forall k | 0 <= k < |w'.sent|
      ensures w'.sent[k].version <= w'.version
    {
      if a.Publish? { assert Fresh(w.servers[a.i], w.version); }
    }
  }

  lemma JustSent(w: World, a: Act, w': World, i: nat)
    requires Next(w, a, w') && a.Publish? && i < |w.servers| == |w'.servers|
    ensures Reached(w'.servers[i], i, Msg(a.i, w.servers[a.i].snapshot))
  {
    var m := Msg(a.i, w.servers[a.i].snapshot);
    assert (w.servers[i].inbox + [m])[|w.servers[i].inbox|] == m;
  }

  /** Servers as they start: some snapshot each, nothing sent. */
  ghost predicate Init(w: World) {
    w.sent == [] && forall i :: 0 <= i < |w.servers| ==> w.servers[i].snapshot <= w.version && w.servers[i].work.Idle?
  }

  ghost predicate IsRun(worlds: seq<World>, acts: seq<Act>) {
    && |worlds| == |acts| + 1 && Init(worlds[0])
    && forall n :: 0 <= n < |acts| ==> Next(worlds[n], acts[n], worlds[n + 1])
  }

  /** Nobody is working and no message waits. */
  predicate Drained(w: World) {
    forall i :: 0 <= i < |w.servers| ==> w.servers[i].work.Idle? && w.servers[i].inbox == []
  }

  lemma {:induction false} EveryRunKeeps(worlds: seq<World>, acts: seq<Act>, n: nat)
    requires IsRun(worlds, acts) && n < |worlds|
    ensures Inv(worlds[n])
    decreases n
  {
    if n > 0 {
      EveryRunKeeps(worlds, acts, n - 1);
      Step(worlds[n - 1], acts[n - 1], worlds[n]);
    }
  }

  /** No server's snapshot ever goes back. */
  lemma {:induction false} NeverBack(worlds: seq<World>, acts: seq<Act>, m: nat, n: nat, i: nat)
    requires IsRun(worlds, acts) && m <= n < |worlds| && i < |worlds[m].servers|
    ensures i < |worlds[n].servers| && worlds[m].servers[i].snapshot <= worlds[n].servers[i].snapshot
    decreases n
  {
    if m < n {
      NeverBack(worlds, acts, m, n - 1, i);
      EveryRunKeeps(worlds, acts, n - 1);
      assert Next(worlds[n - 1], acts[n - 1], worlds[n]);
      assert Fresh(worlds[n - 1].servers[i], worlds[n - 1].version);
    }
  }

  /**
   * Convergence: once the messages of any run are drained, every server's snapshot is at least as new
   * as every publisher's was when it published.
   */
  lemma Converges(worlds: seq<World>, acts: seq<Act>, n: nat)
    requires IsRun(worlds, acts) && n < |worlds| && Drained(worlds[n])
    ensures var w := worlds[n];
      forall i, k :: 0 <= i < |w.servers| && 0 <= k < |w.sent| ==> w.sent[k].version <= w.servers[i].snapshot
  {
    EveryRunKeeps(worlds, acts, n);
    var w := worlds[n];
    forall i, k | 0 <= i < |w.servers| && 0 <= k < |w.sent|
      ensures w.sent[k].version <= w.servers[i].snapshot
    {
      assert Reached(w.servers[i], i, w.sent[k]);
    }
  }

  // ------------------------------------------------------------------ one server's own loop

  /** A message as a subscriber gets it, and the snapshot a load would give, if the load succeeds. */
  datatype Delivery = Delivery(payload: string, load: Option<nat>)

  /** The snapshot after handling messages: each one that is not one's own reloads, if it can. */
  function After(snapshot: nat, selfId: string, msgs: seq<Delivery>): nat {
    if msgs == [] then snapshot
    else
      var last := msgs[|msgs| - 1];
      if (last.payload == selfId && selfId != "") || last.load.None? then After(snapshot, selfId, msgs[..|msgs| - 1])
      else last.load.value
  }

  /** The k-th message is from elsewhere and its load succeeds, and no later one does that. */
  predicate LastFromElsewhere(msgs: seq<Delivery>, selfId: string, k: int)
    requires 0 <= k < |msgs|
  {
    && msgs[k].load.Some? && (msgs[k].payload != selfId || selfId == "")
    && forall j :: k < j < |msgs| ==> msgs[j].load.None? || (msgs[j].payload == selfId && selfId != "")
  }

  /** The snapshot is that of the last message from elsewhere whose load succeeded; without one it is the old one. */
  lemma {:induction false} AfterIs(snapshot: nat, selfId: string, msgs: seq<Delivery>)
    ensures forall k :: 0 <= k < |msgs| && LastFromElsewhere(msgs, selfId, k) ==> After(snapshot, selfId, msgs) == msgs[k].load.value
    ensures (forall k :: 0 <= k < |msgs| ==> !LastFromElsewhere(msgs, selfId, k)) ==> After(snapshot, selfId, msgs) == snapshot
    decreases |msgs|
  {
    if msgs != [] {
      var n := |msgs| - 1;
      var front, last := msgs[..n], msgs[n];
      AfterIs(snapshot, selfId, front);
      if last.load.None? || (last.payload == selfId && selfId != "") {
        forall k | 0 <= k < n
          ensures LastFromElsewhere(front, selfId, k) <==> LastFromElsewhere(msgs, selfId, k)
        {
          assert forall j :: 0 <= j < n ==> front[j] == msgs[j];
        }
        assert !LastFromElsewhere(msgs, selfId, n);
      } else {
        assert LastFromElsewhere(msgs, selfId, n);
        assert forall k :: 0 <= k < n ==> !LastFromElsewhere(msgs, selfId, k);
      }
    }
  }

  class Syncer {
    const selfId: string
    var snapshot: nat

    constructor (selfId: string)
      ensures this.selfId == selfId && snapshot == 0
    {
      this.selfId, snapshot := selfId, 0;
    }

    /** LoadAll: the new snapshot replaces the old one, or the load fails and nothing changes. */
    method LoadAll(load: Option<nat>) returns (ok: bool)
      modifies this
      ensures ok == load.Some? && snapshot == if ok then load.value else old(snapshot)
    {
      ok := load.Some?;
      if ok { snapshot := load.value; }
    }

    /** Trigger: load, then publish one's own id; a failed load publishes nothing, a failed publish keeps what was loaded. */
    method Trigger(load: Option<nat>, publishes: bool) returns (ok: bool, published: Option<string>)
      modifies this
      ensures ok == (load.Some? && publishes) && published == if ok then Some(selfId) else None
      ensures snapshot == if load.Some? then load.value else old(snapshot)
    {
      ok := LoadAll(load);
      if !ok { return false, None; }
      if !publishes { return false, None; }
      published := Some(selfId);
    }

    /** The subscriber's loop over the messages it receives; failed loads are only logged. */
    method Subscribe(msgs: seq<Delivery>)
      modifies this
      ensures snapshot == After(old(snapshot), selfId, msgs)
      ensures forall k :: 0 <= k < |msgs| && LastFromElsewhere(msgs, selfId, k) ==> snapshot == msgs[k].load.value
      ensures (forall k :: 0 <= k < |msgs| ==> !LastFromElsewhere(msgs, selfId, k)) ==> snapshot == old(snapshot)
    {
      AfterIs(snapshot, selfId, msgs);
      var i := 0;
      while i < |msgs|
        invariant 0 <= i <= |msgs|
        invariant snapshot == After(old(snapshot), selfId, msgs[..i])
      {
        assert msgs[..i + 1][..i] == msgs[..i];
        var msg := msgs[i];
        i := i + 1;
        if msg.payload == selfId && selfId != "" { continue; }
        var ok := LoadAll(msg.load);
      }
      assert msgs[..i] == msgs;
    }
  }

  /** A message from elsewhere whose load succeeds leaves the snapshot at least that new, if later loads are no older. */
  lemma {:induction false} AfterLatest(snapshot: nat, selfId: string, msgs: seq<Delivery>, k: nat)
    requires k < |msgs| && msgs[k].payload != selfId && msgs[k].load.Some?
    requires forall j :: k < j < |msgs| && msgs[j].load.Some? ==> msgs[k].load.value <= msgs[j].load.value
    ensures msgs[k].load.value <= After(snapshot, selfId, msgs)
    decreases |msgs|
  {
    if k < |msgs| - 1 { AfterLatest(snapshot, selfId, msgs[..|msgs| - 1], k); }
  }
}

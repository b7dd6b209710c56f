// No lost update: concurrent card upgrades of one user add up.
module Upgrades {
  import opened Rows
  import opened TableRun
  import opened Calls
  import Q = Queue
  import opened Request
  import opened Protocol

  function UpgradesIn(calls: seq<Call>, k: nat): nat {
    if calls == [] then 0
    else UpgradesIn(calls[..|calls| - 1], k) + if calls[|calls| - 1] == UpgradeCard(k) then 1 else 0
  }

  /** How often requests of user u that committed on u's shard upgraded card k. */
  function Upgraded(log: seq<Entry>, u: nat, k: nat, shard: Q.DbId): nat {
    if log == [] then 0
    else
      var last := log[|log| - 1];
      Upgraded(log[..|log| - 1], u, k, shard) + if last.user == u && shard in last.dbs then UpgradesIn(last.calls, k) else 0
  }

  /** Card k of user u in a valid card table. */
  ghost predicate HasCard(t: Table, u: nat, k: nat, card: Row) {
    ValidTable(t, Cards) && k in t.rows && t.rows[k] == card && card.CardRow? && card.userId == u
  }

  function Raised(card: Row, n: nat): Row
    requires card.CardRow?
  {
    card.(level := (card.level + n) % U16)
  }

  lemma RaisedTwice(card: Row, m: nat, n: nat)
    requires card.CardRow?
    ensures Raised(Raised(card, m), n) == Raised(card, m + n)
  {
    assert ((card.level + m) % U16 + n) % U16 == (card.level + m + n) % U16;
  }

  lemma SavedValid(t: Table, e: Entity, r: Row)
    requires ValidTable(t, e) && r.pk in t.rows && r.SameIdentity(t.rows[r.pk])
    ensures ValidTable(t.(rows := t.rows[r.pk := r]), e)
  {
    hide Row.Kind, Row.Owner, Row.IndexKey;
    var t' := t.(rows := t.rows[r.pk := r]);
    forall k, l | k in t'.rows && l in t'.rows
      ensures !Clash(t'.rows[k], t'.rows[l])
    {
      assert !Clash(t.rows[k], t.rows[l]);
    }
  }

  /** A card call of user v on the card table: it raises v's own card and no other row moves. */
  lemma CardCall(t: Table, u: nat, k: nat, card: Row, v: nat, call: Call)
    requires HasCard(t, u, k, card) && call.UpgradeCard?
    ensures HasCard(OnTable(t, call, v), u, k, Raised(card, if v == u && call == UpgradeCard(k) then 1 else 0))
  {
    var j := call.cardIdx;
    if HitIn(t, v, call, j) {
      forall l | HitIn(t, v, call, l)
        ensures l == j
      {
        assert t.rows[l].pk == l;
      }
      var r := call.Change(t.rows[j]).value;
      SavedValid(t, Cards, r);
      hide ValidTable;
      OnTableHit(t, Cards, v, call, j);
    } else {
      NoCardHit(t, v, call);
      assert !HitIn(t, v, call, k);
    }
  }

  lemma NoCardHit(t: Table, v: nat, call: Call)
    requires ValidTable(t, Cards) && call.UpgradeCard? && !HitIn(t, v, call, call.cardIdx)
    ensures OnTable(t, call, v) == t
  {
    forall l
      ensures !HitIn(t, v, call, l)
    {
      assert l in t.rows ==> t.rows[l].pk == l;
    }
  }

  /** One call of any user, on all tables. */
  lemma OneCall(tabs: Q.Tables, id: Q.TableId, u: nat, k: nat, card: Row, v: nat, rt: Route, call: Call)
    requires id in tabs && id.entity == Cards && HasCard(tabs[id], u, k, card) && (v == u ==> id == rt.Id(Cards))
    ensures id in OnTables(tabs, call, v, rt)
    ensures HasCard(OnTables(tabs, call, v, rt)[id], u, k, Raised(card, if v == u && call == UpgradeCard(k) then 1 else 0))
  {
    hide OnTable, HasCard;
    if call.UpgradeCard? && id == rt.Id(Cards) {
      CardCall(tabs[id], u, k, card, v, call);
    } else {
      NotRaised(tabs[id], u, k, card);
    }
  }

  lemma NotRaised(t: Table, u: nat, k: nat, card: Row)
    requires HasCard(t, u, k, card)
    ensures card.CardRow? && Raised(card, 0) == card
  {
  }

  lemma {:induction false} DirectCalls(tabs: Q.Tables, id: Q.TableId, u: nat, k: nat, card: Row, v: nat, rt: Route, calls: seq<Call>)
    requires id in tabs && id.entity == Cards && HasCard(tabs[id], u, k, card) && (v == u ==> id == rt.Id(Cards))
    ensures id in Direct(tabs, calls, v, rt)
    ensures HasCard(Direct(tabs, calls, v, rt)[id], u, k, Raised(card, if v == u then UpgradesIn(calls, k) else 0))
  {
    hide HasCard, OnTables;
    NotRaised(tabs[id], u, k, card);
    if calls != [] {
      var front, call := calls[..|calls| - 1], calls[|calls| - 1];
      DirectCalls(tabs, id, u, k, card, v, rt, front);
      var m := if v == u then UpgradesIn(front, k) else 0;
      OneCall(Direct(tabs, front, v, rt), id, u, k, Raised(card, m), v, rt, call);
      RaisedTwice(card, m, if v == u && call == UpgradeCard(k) then 1 else 0);
    }
  }

  lemma LandedCard(tabs: Q.Tables, u: nat, rt: Route, k: nat, card: Row, last: Entry, rt': Route)
    requires rt.Id(Cards) in tabs && HasCard(tabs[rt.Id(Cards)], u, k, card) && (last.user == u ==> rt' == rt)
    ensures var id, tabs' := rt.Id(Cards), Landed(tabs, last.calls, last.user, rt', last.dbs);
      id in tabs' && HasCard(tabs'[id], u, k, Raised(card, if last.user == u && rt.shard in last.dbs then UpgradesIn(last.calls, k) else 0))
  {
    var id := rt.Id(Cards);
    NotRaised(tabs[id], u, k, card);
    DirectCalls(tabs, id, u, k, card, last.user, rt', last.calls);
    hide HasCard, Direct;
  }

  lemma {:induction false} SerialUpgrades(tabs: Q.Tables, log: seq<Entry>, routes: map<nat, Route>, u: nat, k: nat, card: Row)
    requires u in routes && (forall i :: 0 <= i < |log| ==> log[i].user in routes)
    requires routes[u].Id(Cards) in tabs && HasCard(tabs[routes[u].Id(Cards)], u, k, card)
    ensures var id := routes[u].Id(Cards);
      id in Serial(tabs, log, routes) && HasCard(Serial(tabs, log, routes)[id], u, k, Raised(card, Upgraded(log, u, k, routes[u].shard)))
  {
    var rt := routes[u];
    hide HasCard, Landed;
    NotRaised(tabs[rt.Id(Cards)], u, k, card);
    if log != [] {
      var front, last := log[..|log| - 1], log[|log| - 1];
      SerialUpgrades(tabs, front, routes, u, k, card);
      var n := Upgraded(front, u, k, rt.shard);
      LandedCard(Serial(tabs, front, routes), u, rt, k, Raised(card, n), last, routes[last.user]);
      RaisedTwice(card, n, if last.user == u && rt.shard in last.dbs then UpgradesIn(last.calls, k) else 0);
    }
  }

  /**
   * However requests of all users interleave over any number of servers: a card's level is its initial
   * level plus the upgrades of its owner's requests that committed, modulo 2^16, and nothing else about
   * the card has changed.
   */
  lemma {:induction false} NoLostUpgrade(worlds: seq<World>, acts: seq<Act>, n: nat, u: nat, k: nat, card: Row)
    requires IsRun(worlds, acts) && n < |worlds| && u in worlds[0].routes
    requires var id := worlds[0].routes[u].Id(Cards); id in worlds[0].b.tabs && HasCard(worlds[0].b.tabs[id], u, k, card)
    ensures var rt := worlds[0].routes[u];
      && rt.Id(Cards) in worlds[n].b.tabs && k in worlds[n].b.tabs[rt.Id(Cards)].rows
      && worlds[n].b.tabs[rt.Id(Cards)].rows[k] == Raised(card, Upgraded(worlds[n].log, u, k, rt.shard))
  {
    EveryRunIsSerial(worlds, acts, n);
    hide IsRun, Serial;
    SerialUpgrades(worlds[0].b.tabs, worlds[n].log, worlds[0].routes, u, k, card);
  }
}

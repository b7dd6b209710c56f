// The two places data lives outside a request: the per-user hashes in Redis and the MySQL tables.
module Stores {
  import opened Rows
  import opened TableRun
  import opened Queue
  import opened Coherence

  type Fields = seq<(Entity, seq<Row>)>

  /** The HSET loop of the script. */
  function HSet(hash: Store, args: Fields): Store
    decreases |args|
  {
    if args == [] then hash else HSet(hash[args[0].0 := args[0].1], args[1..])
  }

  ghost predicate Sets(args: Fields, e: Entity) {
    exists i :: 0 <= i < |args| && args[i].0 == e
  }

  lemma {:induction false} HSetAt(hash: Store, args: Fields, fields: Store, e: Entity)
    requires forall i :: 0 <= i < |args| ==> args[i].0 in fields && args[i].1 == fields[args[i].0]
    ensures Sets(args, e) ==> e in fields && e in HSet(hash, args) && HSet(hash, args)[e] == fields[e]
    ensures !Sets(args, e) ==> (e in HSet(hash, args) <==> e in hash) && (e in hash ==> HSet(hash, args)[e] == hash[e])
    decreases |args|
  {
    if args != [] {
      var rest := args[1..];
      assert forall i :: 0 <= i < |rest| ==> rest[i] == args[i + 1];
      HSetAt(hash[args[0].0 := args[0].1], rest, fields, e);
      assert Sets(args, e) <==> e == args[0].0 || Sets(rest, e) by {
        if Sets(args, e) && e != args[0].0 {
          var i :| 0 <= i < |args| && args[i].0 == e;
          assert rest[i - 1].0 == e;
        }
      }
    }
  }

  lemma HSetMerge(hash: Store, args: Fields, fields: Store)
    requires forall i :: 0 <= i < |args| ==> args[i].0 in fields && args[i].1 == fields[args[i].0]
    requires forall e :: e in fields ==> Sets(args, e)
    ensures HSet(hash, args) == hash + fields
  {
    hide HSet, Sets;
    forall e: Entity
      ensures e in HSet(hash, args) <==> e in hash + fields
      ensures e in hash + fields ==> HSet(hash, args)[e] == (hash + fields)[e]
    {
      HSetAt(hash, args, fields, e);
    }
  }

  class UserCache {
    var hashes: map<nat, Store>

    constructor ()
      ensures hashes == map[]
    {
      hashes := map[];
    }

    /** A field of the user's hash; nothing when it is absent, unreadable, or a flaky Redis does not answer. */
    method Get(u: nat, field: Entity, flaky: bool) returns (r: Option<seq<Row>>)
      ensures r.Some? ==> u in hashes && field in hashes[u] && r.value == hashes[u][field]
      ensures r.Some? ==> forall i :: 0 <= i < |r.value| ==> r.value[i].Kind() == field
      ensures !flaky && u in hashes && field in hashes[u] && (forall i :: 0 <= i < |hashes[u][field]| ==> hashes[u][field][i].Kind() == field) ==> r.Some?
    {
      var answered: bool := *;
      if !flaky { answered := true; }
      if answered && u in hashes && field in hashes[u] && (forall i :: 0 <= i < |hashes[u][field]| ==> hashes[u][field][i].Kind() == field) {
        r := Some(hashes[u][field]);
      } else {
        r := None;
      }
    }

    /** Its error is dropped by the loaders. */
    method Set(u: nat, field: Entity, rows: seq<Row>, flaky: bool)
      modifies this
      ensures !flaky ==> u in hashes && field in hashes[u] && hashes[u][field] == rows
      ensures hashes == old(hashes) || hashes == old(hashes)[u := (if u in old(hashes) then old(hashes)[u] else map[]) + map[field := rows]]
    {
      var answered: bool := *;
      if answered || !flaky {
        var hash := if u in hashes then hashes[u] else map[];
        hashes := hashes[u := hash[field := rows]];
        assert hash[field := rows] == hash + map[field := rows];
      }
    }

    /** All fields in one script call, in whatever order the map is ranged over. */
    method SetMulti(u: nat, fields: Store, reply: CacheReply) returns (ok: bool)
      modifies this
      ensures ok <==> fields == map[] || reply == Written
      ensures hashes == if fields == map[] || reply == NotWritten then old(hashes)
                        else old(hashes)[u := (if u in old(hashes) then old(hashes)[u] else map[]) + fields]
    {
      if |fields| == 0 { return true; }
      var args: Fields := [];
      var left := fields.Keys;
      while left != {}
        invariant left <= fields.Keys
        invariant forall i :: 0 <= i < |args| ==> args[i].0 in fields && args[i].1 == fields[args[i].0]
        invariant forall e :: e in fields && e !in left ==> Sets(args, e)
        decreases |left|
      {
        var e: Entity :| e in left;
        ghost var before := args;
        args := args + [(e, fields[e])];
        left := left - {e};
        assert args[|args| - 1].0 == e;
        forall f | f in fields && f !in left && f != e
          ensures Sets(args, f)
        {
          var i :| 0 <= i < |before| && before[i].0 == f;
          assert args[i].0 == f;
        }
      }
      if reply != NotWritten { HSetScript(u, args, fields); }
      ok := reply == Written;
    }

    method HSetScript(u: nat, args: Fields, ghost fields: Store)
      requires forall i :: 0 <= i < |args| ==> args[i].0 in fields && args[i].1 == fields[args[i].0]
      requires forall e :: e in fields ==> Sets(args, e)
      modifies this
      ensures hashes == old(hashes)[u := (if u in old(hashes) then old(hashes)[u] else map[]) + fields]
    {
      var hash := if u in hashes then hashes[u] else map[];
      ghost var start := hash;
      var i := 0;
      while i < |args|
        invariant 0 <= i <= |args|
        invariant HSet(start, args) == HSet(hash, args[i..])
      {
        assert args[i..][1..] == args[i + 1..];
        hash := hash[args[i].0 := args[i].1];
        i := i + 1;
      }
      HSetMerge(start, args, fields);
      hashes := hashes[u := hash];
    }

    method DeleteAll(u: nat)
      modifies this
      ensures hashes == old(hashes) - {u}
    {
      hashes := hashes - {u};
    }
  }

  lemma InsertValid(t: Table, e: Entity, r: Row)
    requires ValidTable(t, e) && r.Kind() == e
    ensures Insert(t, r).Some? ==> ValidTable(Insert(t, r).value, e)
  {
  }

  lemma SaveValid(t: Table, e: Entity, r: Row)
    requires ValidTable(t, e) && r.Kind() == e
    ensures Save(t, r).Some? ==> ValidTable(Save(t, r).value, e)
  {
    hide Row.Kind, Row.IndexKey, Row.Owner;
    if r.pk in t.rows && Free(t, r) {
      var t' := Save(t, r).value;
      forall k, l | k in t'.rows && l in t'.rows
        ensures !Clash(t'.rows[k], t'.rows[l])
      {
        if k == r.pk && l != r.pk { ClashSymmetric(t.rows[l], r); }
        if k in t.rows && l in t.rows { assert !Clash(t.rows[k], t.rows[l]); }
      }
    }
  }

  lemma ClashSymmetric(a: Row, b: Row)
    ensures Clash(a, b) <==> Clash(b, a)
  {
  }

  lemma EmptyValid(e: Entity)
    ensures ValidTable(EMPTY_TABLE, e)
  {
  }

  /** All tables of all databases. */
  class Sql {
    var tabs: Tables

    ghost predicate Valid()
      reads this
    {
      forall id :: id in tabs ==> ValidTable(tabs[id], id.entity)
    }

    constructor (tabs: Tables)
      requires forall id :: id in tabs ==> ValidTable(tabs[id], id.entity)
      ensures Valid() && this.tabs == tabs
    {
      this.tabs := tabs;
    }

    /** SELECT * WHERE user_id = u; the rows come in no particular order, or the query fails. */
    method FindList(db: DbId, e: Entity, u: nat, flaky: bool) returns (r: Option<seq<Row>>)
      requires Valid() && db != NIL
      ensures !flaky ==> r.Some?
      ensures r.Some? ==> Lists(r.value, At(tabs, TableId(db, e)), u)
      ensures r.Some? ==> forall i :: 0 <= i < |r.value| ==> r.value[i].Kind() == e
    {
      var answered: bool := *;
      if !answered && flaky { return None; }
      var t := At(tabs, TableId(db, e));
      TableValid(tabs, TableId(db, e));
      var rows: seq<Row> := [];
      var left := t.rows.Keys;
      FetchStart(t, u);
      hide Fetching, ValidTable, Row.Owner, Row.Kind, Lists, At;
      while left != {}
        invariant left <= t.rows.Keys && Fetching(t, u, left, rows)
        decreases |left|
      {
        var k: nat :| k in left;
        FetchMore(t, e, u, k, left, rows);
        left := left - {k};
        if t.rows[k].Owner() == u { rows := rows + [t.rows[k]]; }
      }
      FetchedAll(t, e, u, rows);
      r := Some(rows);
    }

    /** SELECT * of one row; nothing when there is none or the query fails. */
    method FindOne(db: DbId, e: Entity, u: nat, flaky: bool) returns (r: Option<Row>)
      requires Valid() && db != NIL
      ensures !flaky && (exists k :: k in At(tabs, TableId(db, e)).rows && At(tabs, TableId(db, e)).rows[k].Owner() == u) ==> r.Some?
      ensures r.Some? ==> exists k :: HasRow(At(tabs, TableId(db, e)), k, u, r.value)
      ensures r.Some? ==> r.value.Kind() == e
    {
      var answered: bool := *;
      var t := At(tabs, TableId(db, e));
      r := None;
      if (answered || !flaky) && (exists k :: k in t.rows.Keys && t.rows[k].Owner() == u) {
        var k: nat :| k in t.rows.Keys && t.rows[k].Owner() == u;
        assert HasRow(t, k, u, t.rows[k]);
        r := Some(t.rows[k]);
      }
    }

    /** INSERT outside any transaction: the new key, or nothing when it fails or its answer is lost. */
    method Create(db: DbId, row: Row, flaky: bool) returns (id: Option<nat>)
      requires Valid() && db != NIL
      modifies this
      ensures Valid()
      ensures !flaky && Insert(old(At(tabs, TableId(db, row.Kind()))), row).Some? ==> id.Some?
      ensures id.Some? ==> id.value == old(At(tabs, TableId(db, row.Kind()))).next
      ensures tabs == old(tabs) || AddedRow(old(tabs), TableId(db, row.Kind()), row, tabs)
      ensures id.Some? ==> AddedRow(old(tabs), TableId(db, row.Kind()), row, tabs)
    {
      var sent: bool := *;
      var answered: bool := *;
      var tid := TableId(db, row.Kind());
      var t := At(tabs, tid);
      TableValid(tabs, tid);
      InsertValid(t, row.Kind(), row);
      var t' := Insert(t, row);
      if (!sent && flaky) || t'.None? { return None; }
      hide ValidTable;
      tabs := tabs[tid := t'.value];
      id := if answered || !flaky then Some(t.next) else None;
    }
  }

  /** The table has taken in one more row, under the next key. */
  predicate AddedRow(tabs: Tables, tid: TableId, row: Row, tabs': Tables) {
    var t' := Insert(At(tabs, tid), row);
    t'.Some? && tabs' == tabs[tid := t'.value]
  }

  ghost predicate HasRow(t: Table, k: nat, u: nat, r: Row) {
    k in t.rows && t.rows[k] == r && r.Owner() == u
  }

  /** r is user u's row of t and its key has been visited. */
  ghost predicate Fetched(t: Table, u: nat, left: set<nat>, r: Row) {
    r.pk in t.rows && r.pk !in left && t.rows[r.pk] == r && r.Owner() == u
  }

  /** The rows of u among those visited have been fetched, each once. */
  ghost predicate Fetching(t: Table, u: nat, left: set<nat>, rows: seq<Row>) {
    && DistinctPk(rows)
    && (forall i :: 0 <= i < |rows| ==> Fetched(t, u, left, rows[i]))
    && (forall k :: k in t.rows && k !in left && t.rows[k].Owner() == u ==> exists i :: 0 <= i < |rows| && rows[i].pk == k)
  }

  lemma TableValid(tabs: Tables, id: TableId)
    requires forall i :: i in tabs ==> ValidTable(tabs[i], i.entity)
    ensures ValidTable(At(tabs, id), id.entity)
  {
    EmptyValid(id.entity);
    hide ValidTable;
  }

  lemma FetchStart(t: Table, u: nat)
    ensures Fetching(t, u, t.rows.Keys, [])
  {
  }

  lemma FetchMore(t: Table, e: Entity, u: nat, k: nat, left: set<nat>, rows: seq<Row>)
    requires ValidTable(t, e) && k in left && left <= t.rows.Keys && Fetching(t, u, left, rows)
    ensures Fetching(t, u, left - {k}, if t.rows[k].Owner() == u then rows + [t.rows[k]] else rows)
  {
    assert t.rows[k].pk == k;
    hide Row.Owner, ValidTable;
    var rows' := if t.rows[k].Owner() == u then rows + [t.rows[k]] else rows;
    assert forall i :: 0 <= i < |rows| ==> rows'[i] == rows[i] && Fetched(t, u, left, rows[i]);
    forall j | j in t.rows && j !in left - {k} && t.rows[j].Owner() == u
      ensures exists i :: 0 <= i < |rows'| && rows'[i].pk == j
    {
      if j == k {
        assert rows'[|rows|].pk == k;
      } else {
        var i :| 0 <= i < |rows| && rows[i].pk == j;
        assert rows'[i].pk == j;
      }
    }
  }

  lemma FetchedAll(t: Table, e: Entity, u: nat, rows: seq<Row>)
    requires ValidTable(t, e) && Fetching(t, u, {}, rows)
    ensures Lists(rows, t, u) && forall i :: 0 <= i < |rows| ==> rows[i].Kind() == e
  {
    assert forall i :: 0 <= i < |rows| ==> Fetched(t, u, {}, rows[i]);
    hide Row.Owner, Row.Kind;
    ListsFromPointwise(rows, t, u);
  }
}

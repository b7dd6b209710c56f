// Design versions: which catalogs LoadActive keeps in memory, and which client version gets which.
module Designs {
  import opened Rows

  datatype BatData = BatData(nid: int, useFlag: bool, payload: nat)

  /** The catalog of one server version; everybody who shares it holds the same pointer. */
  class Catalog {
    const version: string
    var batData: map<int, BatData>
    var batDataByUseFlag: map<int, BatData>

    constructor (version: string)
      ensures this.version == version && batData == map[] && batDataByUseFlag == map[]
    {
      this.version, batData, batDataByUseFlag := version, map[], map[];
    }

    /** unmarshalInto for BAT_DATA.json: the primary table, and beside it the rows whose use flag is set. */
    method LoadBatData(list: seq<BatData>)
      requires batData == map[] && batDataByUseFlag == map[]
      modifies this
      ensures batData == Primary(list) && batDataByUseFlag == Flagged(list)
      ensures forall nid :: nid in batData <==> exists j :: IsLast(list, nid, j)
      ensures forall nid, j :: nid in batData && IsLast(list, nid, j) ==> batData[nid] == list[j]
      ensures forall nid :: nid in batDataByUseFlag <==> exists j :: IsLastFlagged(list, nid, j)
      ensures forall nid, j :: nid in batDataByUseFlag && IsLastFlagged(list, nid, j) ==> batDataByUseFlag[nid] == list[j]
    {
      TablesAre(list);
      var i := 0;
      while i < |list|
        invariant 0 <= i <= |list|
        invariant batData == Primary(list[..i]) && batDataByUseFlag == Flagged(list[..i])
      {
        assert list[..i + 1][..i] == list[..i];
        var v := list[i];
        batData := batData[v.nid := v];
        if v.useFlag { batDataByUseFlag := batDataByUseFlag[v.nid := v]; }
        i := i + 1;
      }
      assert list[..i] == list;
    }
  }

  function Primary(list: seq<BatData>): map<int, BatData> {
    if list == [] then map[]
    else
      var v := list[|list| - 1];
      Primary(list[..|list| - 1])[v.nid := v]
  }

  function Flagged(list: seq<BatData>): map<int, BatData> {
    if list == [] then map[]
    else
      var v := list[|list| - 1];
      var front := Flagged(list[..|list| - 1]);
      if v.useFlag then front[v.nid := v] else front
  }

  /** Row j is the last with this NID. */
  ghost predicate IsLast(list: seq<BatData>, nid: int, j: int) {
    0 <= j < |list| && list[j].nid == nid && forall i :: j < i < |list| ==> list[i].nid != nid
  }

  /** Row j is the last flagged one with this NID. */
  ghost predicate IsLastFlagged(list: seq<BatData>, nid: int, j: int) {
    0 <= j < |list| && list[j].nid == nid && list[j].useFlag && forall i :: j < i < |list| ==> list[i].nid != nid || !list[i].useFlag
  }

  /** One more row is the last of its NID, flagged or not, and changes nothing for the others. */
  lemma LastSnoc(list: seq<BatData>, v: BatData)
    ensures forall nid, j :: IsLast(list + [v], nid, j) <==> if nid == v.nid then j == |list| else IsLast(list, nid, j)
    ensures forall nid, j :: IsLastFlagged(list + [v], nid, j) <==> if nid == v.nid && v.useFlag then j == |list| else IsLastFlagged(list, nid, j)
  {
    var all := list + [v];
    assert all[|list|] == v && forall i :: 0 <= i < |list| ==> all[i] == list[i];
  }

  /** Each table has the last row of every NID that has one, flagged for the index. */
  lemma {:induction false} TablesAre(list: seq<BatData>)
    ensures forall nid :: nid in Primary(list) <==> exists j :: IsLast(list, nid, j)
    ensures forall nid, j :: nid in Primary(list) && IsLast(list, nid, j) ==> Primary(list)[nid] == list[j]
    ensures forall nid :: nid in Flagged(list) <==> exists j :: IsLastFlagged(list, nid, j)
    ensures forall nid, j :: nid in Flagged(list) && IsLastFlagged(list, nid, j) ==> Flagged(list)[nid] == list[j]
  {
    if list != [] {
      var n := |list| - 1;
      var front, v := list[..n], list[n];
      assert list == front + [v];
      TablesAre(front);
      LastSnoc(front, v);
      assert IsLast(list, v.nid, n) && (v.useFlag ==> IsLastFlagged(list, v.nid, n));
      assert forall nid, j :: IsLast(list, nid, j) && j < n ==> front[j] == list[j];
      assert forall nid, j :: IsLastFlagged(list, nid, j) && j < n ==> front[j] == list[j];
    }
  }

  /** The primary table filtered by the use flag. */
  function Filtered(m: map<int, BatData>): map<int, BatData> {
    map k | k in m && m[k].useFlag :: m[k]
  }

  predicate DistinctNids(list: seq<BatData>) {
    forall i, j :: 0 <= i < j < |list| ==> list[i].nid != list[j].nid
  }

  /** The last row with this NID. */
  function LastRow(list: seq<BatData>, nid: int): Option<BatData> {
    if list == [] then None
    else if list[|list| - 1].nid == nid then Some(list[|list| - 1])
    else LastRow(list[..|list| - 1], nid)
  }

  /** The last flagged row with this NID. */
  function LastFlagged(list: seq<BatData>, nid: int): Option<BatData> {
    if list == [] then None
    else if list[|list| - 1].nid == nid && list[|list| - 1].useFlag then Some(list[|list| - 1])
    else LastFlagged(list[..|list| - 1], nid)
  }

  function Lookup(m: map<int, BatData>, nid: int): Option<BatData> {
    if nid in m then Some(m[nid]) else None
  }

  /** A NID that has a flagged row ends with one. */
  predicate LastDecides(list: seq<BatData>) {
    forall j :: 0 <= j < |list| && list[j].useFlag ==> LastRow(list, list[j].nid).Some? && LastRow(list, list[j].nid).value.useFlag
  }

  lemma {:induction false} TablesLookUp(list: seq<BatData>, nid: int)
    ensures Lookup(Primary(list), nid) == LastRow(list, nid)
    ensures Lookup(Flagged(list), nid) == LastFlagged(list, nid)
    ensures LastRow(list, nid).Some? && LastRow(list, nid).value.useFlag ==> LastFlagged(list, nid) == LastRow(list, nid)
  {
    if list != [] { TablesLookUp(list[..|list| - 1], nid); }
  }

  lemma {:induction false} FlaggedFrom(list: seq<BatData>, nid: int)
    ensures LastFlagged(list, nid).Some? <==> exists j :: 0 <= j < |list| && list[j].nid == nid && list[j].useFlag
    ensures LastFlagged(list, nid).Some? ==> LastFlagged(list, nid).value.useFlag
  {
    if list != [] {
      var n := |list| - 1;
      var front := list[..n];
      FlaggedFrom(front, nid);
      assert forall i :: 0 <= i < n ==> front[i] == list[i];
    }
  }

  lemma {:induction false} LastOfDistinct(list: seq<BatData>, j: nat)
    requires DistinctNids(list) && j < |list|
    ensures LastRow(list, list[j].nid) == Some(list[j])
  {
    if j < |list| - 1 { LastOfDistinct(list[..|list| - 1], j); }
  }

  /** One NID agrees in both tables exactly when it is not in the index or its last row is flagged. */
  lemma AgreesAt(list: seq<BatData>, nid: int)
    ensures Lookup(Flagged(list), nid) == Lookup(Filtered(Primary(list)), nid) <==>
      LastFlagged(list, nid).None? || (LastRow(list, nid).Some? && LastRow(list, nid).value.useFlag)
  {
    TablesLookUp(list, nid);
    FlaggedFrom(list, nid);
    hide Primary, Flagged, LastRow, LastFlagged;
  }

  lemma SameTables(x: map<int, BatData>, y: map<int, BatData>)
    ensures x == y <==> forall nid :: Lookup(x, nid) == Lookup(y, nid)
  {
    if forall nid :: Lookup(x, nid) == Lookup(y, nid) {
      forall nid: int
        ensures nid in x <==> nid in y
        ensures nid in x && nid in y ==> x[nid] == y[nid]
      {
        assert Lookup(x, nid) == Lookup(y, nid);
      }
    }
  }

  /**
   * The use-flag index is the primary table filtered by the flag if and only if every NID with a
   * flagged row ends with one; so always when NIDs are distinct.
   */
  lemma IndexAgrees(list: seq<BatData>)
    ensures Flagged(list) == Filtered(Primary(list)) <==> LastDecides(list)
    ensures DistinctNids(list) ==> Flagged(list) == Filtered(Primary(list))
  {
    var x, y := Flagged(list), Filtered(Primary(list));
    SameTables(x, y);
    forall nid: int
      ensures Lookup(x, nid) == Lookup(y, nid) <==> LastFlagged(list, nid).None? || (LastRow(list, nid).Some? && LastRow(list, nid).value.useFlag)
      ensures LastFlagged(list, nid).Some? <==> exists j :: 0 <= j < |list| && list[j].nid == nid && list[j].useFlag
    {
      AgreesAt(list, nid);
      FlaggedFrom(list, nid);
    }
    hide Flagged, Filtered, Primary, LastRow, LastFlagged, Lookup;
    if LastDecides(list) {
      forall nid: int
        ensures Lookup(x, nid) == Lookup(y, nid)
      {
      }
    } else {
      var j :| 0 <= j < |list| && list[j].useFlag && !(LastRow(list, list[j].nid).Some? && LastRow(list, list[j].nid).value.useFlag);
      assert Lookup(x, list[j].nid) != Lookup(y, list[j].nid);
    }
    if DistinctNids(list) {
      forall j | 0 <= j < |list| && list[j].useFlag
        ensures LastRow(list, list[j].nid).Some? && LastRow(list, list[j].nid).value.useFlag
      {
        LastOfDistinct(list, j);
      }
    }
  }

  /** Two rows of one NID, flagged and then not: the index keeps what the primary table has lost. */
  lemma IndexMayDiffer()
    ensures var list := [BatData(1, true, 0), BatData(1, false, 1)];
      1 in Flagged(list) && 1 !in Filtered(Primary(list))
  {
    var list := [BatData(1, true, 0), BatData(1, false, 1)];
    assert list[..1] == [BatData(1, true, 0)] && [BatData(1, true, 0)][..0] == [];
    assert Flagged(list[..1]) == map[1 := BatData(1, true, 0)];
  }

  // ------------------------------------------------------------------ active versions

  /** A row of TB_VERSION with is_active = 1; the query orders them by server version, descending. */
  datatype VersionRow = VersionRow(server: string, client: string)

  const MAX_ACTIVE_VERSIONS := 2

  /** The server versions in the order in which they first appear. */
  function Servers(rows: seq<VersionRow>): seq<string> {
    if rows == [] then []
    else
      var front, last := Servers(rows[..|rows| - 1]), rows[|rows| - 1];
      if last.server in front then front else front + [last.server]
  }

  /** The client versions listed under a server version. */
  function ClientsOf(rows: seq<VersionRow>, server: string): seq<string> {
    if rows == [] then []
    else
      var front, last := ClientsOf(rows[..|rows| - 1], server), rows[|rows| - 1];
      if last.server == server then front + [last.client] else front
  }

  function Kept(rows: seq<VersionRow>): seq<string> {
    if |Servers(rows)| > MAX_ACTIVE_VERSIONS then Servers(rows)[..MAX_ACTIVE_VERSIONS] else Servers(rows)
  }

  lemma {:induction false} ServersDistinct(rows: seq<VersionRow>)
    ensures forall i, j :: 0 <= i < j < |Servers(rows)| ==> Servers(rows)[i] != Servers(rows)[j]
    ensures Servers(rows) == [] <==> rows == []
    ensures rows != [] ==> Servers(rows)[0] == rows[0].server
  {
    if rows != [] {
      var front, last := Servers(rows[..|rows| - 1]), rows[|rows| - 1];
      ServersDistinct(rows[..|rows| - 1]);
      assert last.server !in front ==> forall i :: 0 <= i < |front| ==> front[i] != last.server;
    }
  }

  /** The clients of a server version are those its rows name. */
  lemma {:induction false} ClientsNamed(rows: seq<VersionRow>, server: string, client: string)
    ensures client in ClientsOf(rows, server) <==> VersionRow(server, client) in rows
  {
    if rows != [] {
      assert rows == rows[..|rows| - 1] + [rows[|rows| - 1]];
      ClientsNamed(rows[..|rows| - 1], server, client);
    }
  }

  /** Row k is the first of its server version. */
  predicate FirstAt(rows: seq<VersionRow>, server: string, k: int) {
    0 <= k < |rows| && rows[k].server == server && forall j :: 0 <= j < k ==> rows[j].server != server
  }

  /** Server versions come in the order of their first rows. */
  ghost predicate InFirstOrder(rows: seq<VersionRow>, servers: seq<string>) {
    forall i, j, k, l :: 0 <= i < j < |servers| && FirstAt(rows, servers[i], k) && FirstAt(rows, servers[j], l) ==> k < l
  }

  lemma FirstSnoc(rows: seq<VersionRow>, last: VersionRow, server: string, k: int)
    ensures FirstAt(rows + [last], server, k) <==>
      FirstAt(rows, server, k) || (k == |rows| && last.server == server && forall j :: 0 <= j < |rows| ==> rows[j].server != server)
  {
    var all := rows + [last];
    assert forall j :: 0 <= j < |rows| ==> all[j] == rows[j];
    assert all[|rows|] == last;
  }

  /** The list of server versions holds exactly those of the rows, once each, ordered by first row. */
  lemma {:induction false} ServersAre(rows: seq<VersionRow>)
    ensures forall sv :: sv in Servers(rows) <==> exists k :: 0 <= k < |rows| && rows[k].server == sv
    ensures InFirstOrder(rows, Servers(rows))
  {
    if rows != [] {
      var front, last := rows[..|rows| - 1], rows[|rows| - 1];
      var before := Servers(front);
      ServersAre(front);
      assert rows == front + [last];
      forall sv
        ensures sv in Servers(rows) <==> exists k :: 0 <= k < |rows| && rows[k].server == sv
      {
        if k :| 0 <= k < |rows| && rows[k].server == sv && k < |front| { assert front[k].server == sv; }
        if k :| 0 <= k < |front| && front[k].server == sv { assert rows[k].server == sv; }
      }
      hide FirstAt;
      OrderSnoc(front, last, before, Servers(rows));
    }
  }

  lemma OrderSnoc(front: seq<VersionRow>, last: VersionRow, before: seq<string>, servers: seq<string>)
    requires InFirstOrder(front, before) && (forall sv :: sv in before <==> exists k :: 0 <= k < |front| && front[k].server == sv)
    requires servers == if last.server in before then before else before + [last.server]
    ensures InFirstOrder(front + [last], servers)
  {
    var rows := front + [last];
    forall i, j, k, l | 0 <= i < j < |servers| && FirstAt(rows, servers[i], k) && FirstAt(rows, servers[j], l)
      ensures k < l
    {
      assert servers[i] == before[i];
      assert exists m :: 0 <= m < |front| && front[m].server == servers[i];
      FirstSnoc(front, last, servers[i], k);
      FirstSnoc(front, last, servers[j], l);
      assert FirstAt(front, servers[i], k);
      if j < |before| {
        assert servers[j] == before[j] && exists m :: 0 <= m < |front| && front[m].server == servers[j];
      }
    }
  }

  /** At most one other server version has a row before the first of this one: it is one of the two newest. */
  ghost predicate AmongNewest(rows: seq<VersionRow>, server: string) {
    exists k :: FirstAt(rows, server, k) && forall i, j :: 0 <= i < j < k ==> rows[i].server == rows[j].server
  }

  ghost predicate ComesBefore(rows: seq<VersionRow>, a: string, b: string) {
    exists k, l :: FirstAt(rows, a, k) && FirstAt(rows, b, l) && k < l
  }

  /** A row of one of the two newest server versions, which loaded, names the client. */
  ghost predicate Offers(rows: seq<VersionRow>, up: set<string>, server: string, client: string) {
    AmongNewest(rows, server) && server in up && VersionRow(server, client) in rows
  }

  lemma {:induction false} HasFirst(rows: seq<VersionRow>, k: nat)
    requires k < |rows|
    ensures exists f :: f <= k && FirstAt(rows, rows[k].server, f)
    decreases k
  {
    if !FirstAt(rows, rows[k].server, k) {
      var j :| 0 <= j < k && rows[j].server == rows[k].server;
      HasFirst(rows, j);
    }
  }

  lemma FirstIn(rows: seq<VersionRow>, server: string, k: int)
    requires FirstAt(rows, server, k)
    ensures 0 <= k < |rows|
  {
  }

  lemma KeptIsNewest(rows: seq<VersionRow>, n: nat)
    requires n < |Kept(rows)|
    ensures AmongNewest(rows, Kept(rows)[n])
  {
    var all := Servers(rows);
    var server := Kept(rows)[n];
    ServersAre(rows);
    assert server == all[n] && server in all && n <= 1;
    hide Servers, Kept;
    var m :| 0 <= m < |rows| && rows[m].server == server;
    HasFirst(rows, m);
    var k :| FirstAt(rows, server, k);
    FirstIn(rows, server, k);
    forall i | 0 <= i < k
      ensures n == 1 && rows[i].server == all[0]
    {
      EarlierServer(rows, all, n, k, i);
    }
  }

  lemma NewestIsKept(rows: seq<VersionRow>, server: string)
    requires AmongNewest(rows, server)
    ensures server in Kept(rows)
  {
    var all := Servers(rows);
    ServersAre(rows);
    ServersDistinct(rows);
    assert Kept(rows) == if |all| > 2 then all[..2] else all;
    hide Servers, Kept;
    var k :| FirstAt(rows, server, k) && forall i, j :: 0 <= i < j < k ==> rows[i].server == rows[j].server;
    assert rows[k].server == server && server in all;
    var n :| 0 <= n < |all| && all[n] == server;
    if n >= 2 {
      ServerAhead(rows, all, 0, n, k);
      ServerAhead(rows, all, 1, n, k);
      assert false;
    }
    assert Kept(rows)[n] == server;
  }

  /** The kept server versions are the two newest. */
  lemma KeptAre(rows: seq<VersionRow>, server: string)
    ensures server in Kept(rows) <==> AmongNewest(rows, server)
  {
    hide Kept, AmongNewest;
    if server in Kept(rows) {
      var n :| 0 <= n < |Kept(rows)| && Kept(rows)[n] == server;
      KeptIsNewest(rows, n);
    }
    if AmongNewest(rows, server) { NewestIsKept(rows, server); }
  }

  /** A row before the first row of the n-th server version is of an earlier one. */
  lemma EarlierServer(rows: seq<VersionRow>, all: seq<string>, n: nat, k: int, i: nat)
    requires InFirstOrder(rows, all) && (forall sv :: sv in all <==> exists m :: 0 <= m < |rows| && rows[m].server == sv)
    requires n < |all| && n <= 1 && FirstAt(rows, all[n], k) && i < k
    ensures n == 1 && rows[i].server == all[0]
  {
    HasFirst(rows, i);
    var f :| f <= i && FirstAt(rows, rows[i].server, f);
    assert rows[i].server in all;
    var p :| 0 <= p < |all| && all[p] == rows[i].server;
    hide FirstAt;
    assert p != n by { assert f < k && !(rows[i].server == all[n]) by { NotYet(rows, all[n], k, i); } }
    assert !(n < p);
  }

  lemma NotYet(rows: seq<VersionRow>, server: string, k: int, i: nat)
    requires FirstAt(rows, server, k) && i < k
    ensures rows[i].server != server
  {
  }

  /** Every earlier server version has a row before the first row of the n-th. */
  lemma ServerAhead(rows: seq<VersionRow>, all: seq<string>, p: nat, n: nat, k: int)
    requires InFirstOrder(rows, all) && (forall sv :: sv in all <==> exists m :: 0 <= m < |rows| && rows[m].server == sv)
    requires p < n < |all| && FirstAt(rows, all[n], k)
    ensures exists f :: 0 <= f < k && rows[f].server == all[p]
  {
    assert all[p] in all;
    var m :| 0 <= m < |rows| && rows[m].server == all[p];
    HasFirst(rows, m);
    var f :| f <= m && FirstAt(rows, rows[m].server, f);
    assert f < k;
  }

  /** The i-th kept server version loaded and lists this client version. */
  predicate Serves(rows: seq<VersionRow>, up: set<string>, i: nat, client: string) {
    i < |Kept(rows)| && Kept(rows)[i] in up && client in ClientsOf(rows, Kept(rows)[i])
  }

  /** `i` is the last of the first n kept versions that serves the client. */
  ghost predicate ServedBy(rows: seq<VersionRow>, up: set<string>, n: nat, client: string, i: nat) {
    i < n && Serves(rows, up, i, client) && forall j :: i < j < n ==> !Serves(rows, up, j, client)
  }

  /** The mapping after the first n kept versions. */
  ghost predicate Mapped(m: map<string, Catalog>, rows: seq<VersionRow>, up: set<string>, n: nat) {
    && n <= |Kept(rows)|
    && (forall client :: client in m <==> exists i :: 0 <= i < n && Serves(rows, up, i, client))
    && (forall client :: client in m ==> MappedAt(m[client], rows, up, n, client))
    && Shared(m)
  }

  ghost predicate MappedAt(c: Catalog, rows: seq<VersionRow>, up: set<string>, n: nat, client: string) {
    n <= |Kept(rows)| && exists i: nat :: i < n && ServedBy(rows, up, n, client, i) && c.version == Kept(rows)[i]
  }

  /** Client versions of one server version share one catalog. */
  ghost predicate Shared(m: map<string, Catalog>) {
    forall a, b :: a in m && b in m && m[a].version == m[b].version ==> m[a] == m[b]
  }

  class Store {
    var catalogs: map<string, Catalog>

    constructor ()
      ensures catalogs == map[]
    {
      catalogs := map[];
    }

    method GetByClientVersion(client: string) returns (c: Catalog?)
      ensures c == if client in catalogs then catalogs[client] else null
    {
      if client in catalogs { c := catalogs[client]; } else { c := null; }
    }

    method Replace(m: map<string, Catalog>)
      modifies this
      ensures catalogs == m
    {
      catalogs := m;
    }

    /** Each catalog that is still mapped, once, under its own version. */
    method CatalogsByServerVersion() returns (out: map<string, Catalog>)
      requires Shared(catalogs)
      ensures forall v :: v in out ==> out[v].version == v && out[v] in catalogs.Values
      ensures forall client :: client in catalogs ==> catalogs[client].version in out && out[catalogs[client].version] == catalogs[client]
    {
      out := map[];
      var left := catalogs.Keys;
      while left != {}
        invariant left <= catalogs.Keys
        invariant forall v :: v in out ==> out[v].version == v && out[v] in catalogs.Values
        invariant forall client :: client in catalogs && client !in left ==> catalogs[client].version in out && out[catalogs[client].version] == catalogs[client]
        decreases |left|
      {
        var client: string :| client in left;
        left := left - {client};
        out := out[catalogs[client].version := catalogs[client]];
      }
    }
  }

  class Syncer {
    const store: Store

    constructor (store: Store)
      ensures this.store == store
    {
      this.store := store;
    }

    /** The first loop: servers in order, and the clients of each. */
    static method GroupRows(rows: seq<VersionRow>) returns (ordered: seq<string>, clients: map<string, seq<string>>)
      ensures ordered == Servers(rows)
      ensures forall sv :: sv in clients <==> sv in Servers(rows)
      ensures forall sv :: sv in clients ==> clients[sv] == ClientsOf(rows, sv)
    {
      ordered, clients := [], map[];
      var seen: set<string> := {};
      var i := 0;
      while i < |rows|
        invariant 0 <= i <= |rows|
        invariant ordered == Servers(rows[..i])
        invariant forall sv :: sv in seen <==> sv in ordered
        invariant forall sv :: sv in clients <==> sv in ordered
        invariant forall sv :: sv in clients ==> clients[sv] == ClientsOf(rows[..i], sv)
        invariant forall sv :: sv !in ordered ==> ClientsOf(rows[..i], sv) == []
      {
        assert rows[..i + 1][..i] == rows[..i];
        var v := rows[i];
        if v.server !in seen {
          seen := seen + {v.server};
          ordered := ordered + [v.server];
        }
        clients := clients[v.server := (if v.server in clients then clients[v.server] else []) + [v.client]];
        i := i + 1;
      }
      assert rows[..i] == rows;
    }

    /** The inner loop: every client of the i-th kept version now maps to its catalog. */
    static method MapClients(m: map<string, Catalog>, clients: seq<string>, c: Catalog) returns (m': map<string, Catalog>)
      ensures forall client :: client in m' <==> client in m || client in clients
      ensures forall client :: client in m' ==> m'[client] == if client in clients then c else m[client]
    {
      m' := m;
      var i := 0;
      while i < |clients|
        invariant 0 <= i <= |clients|
        invariant forall client :: client in m' <==> client in m || client in clients[..i]
        invariant forall client :: client in m' ==> m'[client] == if client in clients[..i] then c else m[client]
      {
        m' := m'[clients[i] := c];
        i := i + 1;
      }
      assert clients[..i] == clients;
    }

    /**
     * LoadActive: `rows` is the answer of the version query, `up` the server versions the CDN serves
     * without error. On success the mapping is replaced, and nothing else is kept.
     */
    method LoadActive(rows: Option<seq<VersionRow>>, up: set<string>) returns (ok: bool)
      modifies store
      ensures ok <==> rows.Some? && rows.value != [] && rows.value[0].server in up
      ensures !ok ==> store.catalogs == old(store.catalogs)
      ensures ok ==> MapsNewest(store.catalogs, rows.value, up) && Shared(store.catalogs)
    {
      hide Mapped, ClientsOf, MapsNewest, Shared;
      if rows.None? { return false; }
      MappedNone(rows.value, up);
      var ordered, clients := GroupRows(rows.value);
      ServersDistinct(rows.value);
      if |ordered| == 0 { return false; }
      if |ordered| > MAX_ACTIVE_VERSIONS { ordered := ordered[..MAX_ACTIVE_VERSIONS]; }
      var newMap: map<string, Catalog> := map[];
      var i := 0;
      while i < |ordered|
        invariant 0 <= i <= |ordered|
        invariant i > 0 ==> ordered[0] in up
        invariant Mapped(newMap, rows.value, up, i)
        invariant unchanged(store)
      {
        if ordered[i] !in up {
          if i == 0 { return false; }
          MappedSkip(newMap, rows.value, up, i);
        } else {
          var c := new Catalog(ordered[i]);
          var before := newMap;
          newMap := MapClients(newMap, clients[ordered[i]], c);
          MappedNext(before, newMap, rows.value, up, i, c);
        }
        i := i + 1;
      }
      NewestMapped(newMap, rows.value, up);
      store.Replace(newMap);
      return true;
    }
  }

  /**
   * A client version is mapped if and only if one of the two newest server versions that loaded names it,
   * and to the last such server version's catalog.
   */
  ghost predicate MapsNewest(m: map<string, Catalog>, rows: seq<VersionRow>, up: set<string>) {
    && (forall client :: client in m <==> exists server :: Offers(rows, up, server, client))
    && (forall client :: client in m ==> Offers(rows, up, m[client].version, client))
    && (forall client, server :: client in m && Offers(rows, up, server, client) ==>
          server == m[client].version || ComesBefore(rows, server, m[client].version))
  }

  lemma ServesOffers(rows: seq<VersionRow>, up: set<string>, i: nat, client: string)
    requires i < |Kept(rows)|
    ensures Serves(rows, up, i, client) <==> Offers(rows, up, Kept(rows)[i], client)
  {
    KeptAre(rows, Kept(rows)[i]);
    ClientsNamed(rows, Kept(rows)[i], client);
    hide Kept, AmongNewest, ClientsOf;
  }

  lemma KeptInOrder(rows: seq<VersionRow>, i: nat, j: nat)
    requires i < j < |Kept(rows)|
    ensures ComesBefore(rows, Kept(rows)[i], Kept(rows)[j])
  {
    var all := Servers(rows);
    ServersAre(rows);
    assert Kept(rows)[i] == all[i] && Kept(rows)[j] == all[j] && all[i] in all && all[j] in all;
    hide Servers, Kept;
    var m :| 0 <= m < |rows| && rows[m].server == all[i];
    var n :| 0 <= n < |rows| && rows[n].server == all[j];
    HasFirst(rows, m);
    HasFirst(rows, n);
    var k :| FirstAt(rows, all[i], k);
    var l :| FirstAt(rows, all[j], l);
    assert k < l;
  }

  lemma NewestMapped(m: map<string, Catalog>, rows: seq<VersionRow>, up: set<string>)
    requires Mapped(m, rows, up, |Kept(rows)|)
    ensures MapsNewest(m, rows, up) && Shared(m)
  {
    var n := |Kept(rows)|;
    hide Kept, Serves, Offers, ComesBefore, AmongNewest;
    forall client | client in m
      ensures Offers(rows, up, m[client].version, client)
    {
      assert MappedAt(m[client], rows, up, n, client);
      var i: nat :| i < n && ServedBy(rows, up, n, client, i) && m[client].version == Kept(rows)[i];
      ServesOffers(rows, up, i, client);
    }
    forall client, server | Offers(rows, up, server, client)
      ensures client in m && (server == m[client].version || ComesBefore(rows, server, m[client].version))
    {
      OfferedMapped(m, rows, up, client, server);
    }
  }

  lemma OfferedMapped(m: map<string, Catalog>, rows: seq<VersionRow>, up: set<string>, client: string, server: string)
    requires Mapped(m, rows, up, |Kept(rows)|) && Offers(rows, up, server, client)
    ensures client in m && (server == m[client].version || ComesBefore(rows, server, m[client].version))
  {
    var n := |Kept(rows)|;
    KeptAre(rows, server);
    assert server in Kept(rows);
    hide Kept, Serves, Offers, ComesBefore, AmongNewest;
    var j :| 0 <= j < n && Kept(rows)[j] == server;
    ServesOffers(rows, up, j, client);
    assert client in m && MappedAt(m[client], rows, up, n, client);
    var i: nat :| i < n && ServedBy(rows, up, n, client, i) && m[client].version == Kept(rows)[i];
    if j < i { KeptInOrder(rows, j, i); }
  }

  lemma MappedNone(rows: seq<VersionRow>, up: set<string>)
    ensures Mapped(map[], rows, up, 0)
  {
  }

  lemma SameAt(rows: seq<VersionRow>, up: set<string>, n: nat, client: string, i: nat)
    requires n < |Kept(rows)| && !Serves(rows, up, n, client) && ServedBy(rows, up, n, client, i)
    ensures ServedBy(rows, up, n + 1, client, i)
  {
  }

  lemma MappedSkip(m: map<string, Catalog>, rows: seq<VersionRow>, up: set<string>, n: nat)
    requires Mapped(m, rows, up, n) && n < |Kept(rows)| && Kept(rows)[n] !in up
    ensures Mapped(m, rows, up, n + 1)
  {
    hide Kept, ClientsOf;
    forall client | client in m
      ensures MappedAt(m[client], rows, up, n + 1, client)
    {
      assert MappedAt(m[client], rows, up, n, client);
      var i: nat :| i < n && ServedBy(rows, up, n, client, i) && m[client].version == Kept(rows)[i];
      SameAt(rows, up, n, client, i);
    }
    forall client
      ensures client in m <==> exists i :: 0 <= i < n + 1 && Serves(rows, up, i, client)
    {
      assert !Serves(rows, up, n, client);
    }
  }

  lemma KeptDistinct(rows: seq<VersionRow>)
    ensures forall i, j :: 0 <= i < j < |Kept(rows)| ==> Kept(rows)[i] != Kept(rows)[j]
  {
    ServersDistinct(rows);
  }

  /** A client that keeps its catalog while one more version is taken in. */
  lemma StillMapped(c: Catalog, rows: seq<VersionRow>, up: set<string>, n: nat, client: string)
    requires MappedAt(c, rows, up, n, client) && n < |Kept(rows)| && !Serves(rows, up, n, client)
    ensures MappedAt(c, rows, up, n + 1, client)
  {
    hide Kept, Serves;
    var i: nat :| i < n && ServedBy(rows, up, n, client, i) && c.version == Kept(rows)[i];
    SameAt(rows, up, n, client, i);
  }

  lemma MappedEarlier(c: Catalog, rows: seq<VersionRow>, up: set<string>, n: nat, client: string)
    requires MappedAt(c, rows, up, n, client) && n < |Kept(rows)|
    ensures c.version != Kept(rows)[n]
  {
    KeptDistinct(rows);
    hide Kept, Serves;
  }

  lemma MappedNext(m: map<string, Catalog>, m': map<string, Catalog>, rows: seq<VersionRow>, up: set<string>, n: nat, c: Catalog)
    requires Mapped(m, rows, up, n) && n < |Kept(rows)| && Kept(rows)[n] in up && c.version == Kept(rows)[n]
    requires forall client :: client in m' <==> client in m || client in ClientsOf(rows, Kept(rows)[n])
    requires forall client :: client in m' ==> m'[client] == if client in ClientsOf(rows, Kept(rows)[n]) then c else m[client]
    ensures Mapped(m', rows, up, n + 1)
  {
    hide Kept, ClientsOf, MappedAt;
    forall client: string
      ensures client in m' <==> exists i :: 0 <= i < n + 1 && Serves(rows, up, i, client)
      ensures client in m' ==> MappedAt(m'[client], rows, up, n + 1, client)
      ensures client in m ==> m[client].version != c.version
    {
      assert Serves(rows, up, n, client) <==> client in ClientsOf(rows, Kept(rows)[n]);
      if client in m { MappedEarlier(m[client], rows, up, n, client); }
      if Serves(rows, up, n, client) {
        NewlyMapped(c, rows, up, n, client);
      } else if client in m {
        StillMapped(m[client], rows, up, n, client);
      }
    }
  }

  lemma NewlyMapped(c: Catalog, rows: seq<VersionRow>, up: set<string>, n: nat, client: string)
    requires n < |Kept(rows)| && Serves(rows, up, n, client) && c.version == Kept(rows)[n]
    ensures MappedAt(c, rows, up, n + 1, client)
  {
    hide Kept;
    assert ServedBy(rows, up, n + 1, client, n);
  }
}

// The rows of the per-user tables and the effect of one INSERT or UPDATE on a table.
module Rows {
  datatype Option<+T> = None | Some(value: T)

  const U16 := 0x1_0000
  const U64 := 0x1_0000_0000_0000_0000
  const I63 := 0x8000_0000_0000_0000

  type u16 = n: int | 0 <= n < U16
  type u64 = n: int | 0 <= n < U64
  type i64 = n: int | -I63 <= n < I63

  /** Go's wrapping addition on int64. */
  function WrapI64(n: int): i64 {
    (n + I63) % U64 - I63
  }

  /** It is the int64 that differs from the sum by a multiple of 2^64. */
  lemma WrapsRound(n: int)
    ensures -0x8000_0000_0000_0000 <= WrapI64(n) < 0x8000_0000_0000_0000
    ensures (WrapI64(n) - n) % 0x1_0000_0000_0000_0000 == 0
  {
  }

  /** EntityKind: the four kinds whose owner is a user. */
  datatype Entity = Account | Assets | Cards | Items

  /** A model struct, that is, one table row. `pk` is 0 until the row is inserted. */
  datatype Row =
    | AccountRow(pk: nat, channelUid: nat, deviceId: string, isActive: nat, shardId: int)
    | AssetRow(pk: nat, userId: nat, assetId: nat, quantity: i64, lastRecharge: int)
    | CardRow(pk: nat, userId: nat, cardId: nat, level: u16, details: seq<int>)
    | ItemRow(pk: nat, userId: nat, itemType: nat, itemId: nat, amount: u64)
  {
    function Kind(): Entity {
      match this
      case AccountRow(_, _, _, _, _) => Account
      case AssetRow(_, _, _, _, _) => Assets
      case CardRow(_, _, _, _, _) => Cards
      case ItemRow(_, _, _, _, _) => Items
    }

    /** The user whose scope loads this row (`WHERE user_id = ?`). */
    function Owner(): nat {
      if AccountRow? then pk else userId
    }

    /** SetPrimaryKey. */
    function WithPk(id: nat): Row {
      this.(pk := id)
    }

    /** The second column of the UNIQUE INDEX (user_id, _), where the table has one. */
    function IndexKey(): Option<nat> {
      match this
      case AssetRow(_, _, assetId, _, _) => Some(assetId)
      case ItemRow(_, _, _, itemId, _) => Some(itemId)
      case _ => None
    }

    /** Same primary key, same owner and same unique-index entry. */
    predicate SameIdentity(that: Row) {
      pk == that.pk && Kind() == that.Kind() && Owner() == that.Owner() && IndexKey() == that.IndexKey()
    }
  }

  /** Two different rows that one unique index cannot hold together. */
  predicate Clash(a: Row, b: Row) {
    a.pk != b.pk && a.IndexKey().Some? && a.IndexKey() == b.IndexKey() && a.Owner() == b.Owner()
  }

  datatype Table = Table(rows: map<nat, Row>, next: nat)

  const EMPTY_TABLE := Table(map[], 1)

  ghost predicate ValidTable(t: Table, e: Entity) {
    && 0 < t.next
    && (forall k :: k in t.rows ==> t.rows[k].pk == k && 0 < k < t.next && t.rows[k].Kind() == e)
    && (forall k, l :: k in t.rows && l in t.rows ==> !Clash(t.rows[k], t.rows[l]))
  }

  predicate Free(t: Table, row: Row) {
    forall k :: k in t.rows ==> !Clash(t.rows[k], row)
  }

  /** INSERT without the key column; the table hands out the next AUTO_INCREMENT value. */
  function Insert(t: Table, row: Row): Option<Table> {
    var stored := row.WithPk(t.next);
    if Free(t, stored) then Some(Table(t.rows[t.next := stored], t.next + 1)) else None
  }

  /** UPDATE of all columns WHERE pk = :pk; no matching row is not an error. */
  function Save(t: Table, row: Row): Option<Table> {
    if row.pk !in t.rows then Some(t)
    else if Free(t, row) then Some(t.(rows := t.rows[row.pk := row]))
    else None
  }

  /** SELECT * WHERE user_id = u, as the set of rows by key. */
  function UserRows(t: Table, u: nat): map<nat, Row> {
    map k | k in t.rows && t.rows[k].Owner() == u :: t.rows[k]
  }

  predicate DistinctPk(rows: seq<Row>) {
    forall i, j :: 0 <= i < j < |rows| ==> rows[i].pk != rows[j].pk
  }

  /** A list of rows as a map from key to row. */
  function ByPk(rows: seq<Row>): map<nat, Row> {
    if rows == [] then map[]
    else
      var last := |rows| - 1;
      ByPk(rows[..last])[rows[last].pk := rows[last]]
  }

  lemma {:induction false} ByPkHolds(rows: seq<Row>)
    requires DistinctPk(rows)
    ensures forall i :: 0 <= i < |rows| ==> rows[i].pk in ByPk(rows) && ByPk(rows)[rows[i].pk] == rows[i]
    ensures forall k :: k in ByPk(rows) ==> exists i :: 0 <= i < |rows| && rows[i].pk == k
  {
    if rows != [] {
      var last := |rows| - 1;
      var front := rows[..last];
      assert forall i :: 0 <= i < last ==> rows[i] == front[i];
      ByPkHolds(front);
      forall i | 0 <= i < |rows|
        ensures rows[i].pk in ByPk(rows) && ByPk(rows)[rows[i].pk] == rows[i]
      {
        if i < last { assert front[i].pk in ByPk(front) && front[i].pk != rows[last].pk; }
      }
      forall k | k in ByPk(rows)
        ensures exists i :: 0 <= i < |rows| && rows[i].pk == k
      {
        if k != rows[last].pk {
          var i :| 0 <= i < last && front[i].pk == k;
          assert rows[i].pk == k;
        }
      }
    }
  }

  /** `rows` is the answer, in some order, to SELECT * FROM t WHERE user_id = u. */
  predicate Lists(rows: seq<Row>, t: Table, u: nat) {
    DistinctPk(rows) && ByPk(rows) == UserRows(t, u)
  }

  lemma ListsPointwise(rows: seq<Row>, t: Table, u: nat, e: Entity)
    requires ValidTable(t, e) && Lists(rows, t, u)
    ensures forall i :: 0 <= i < |rows| ==> rows[i].pk in t.rows && t.rows[rows[i].pk] == rows[i] && rows[i].Owner() == u
    ensures forall k :: k in t.rows && t.rows[k].Owner() == u ==> exists i :: 0 <= i < |rows| && rows[i].pk == k
  {
    ByPkHolds(rows);
    forall i | 0 <= i < |rows|
      ensures rows[i].pk in t.rows && t.rows[rows[i].pk] == rows[i] && rows[i].Owner() == u
    {
      assert rows[i].pk in UserRows(t, u);
    }
    forall k | k in t.rows && t.rows[k].Owner() == u
      ensures exists i :: 0 <= i < |rows| && rows[i].pk == k
    {
      assert k in ByPk(rows);
    }
  }

  lemma ListsFromPointwise(rows: seq<Row>, t: Table, u: nat)
    requires DistinctPk(rows)
    requires forall i :: 0 <= i < |rows| ==> rows[i].pk in t.rows && t.rows[rows[i].pk] == rows[i] && rows[i].Owner() == u
    requires forall k :: k in t.rows && t.rows[k].Owner() == u ==> exists i :: 0 <= i < |rows| && rows[i].pk == k
    ensures Lists(rows, t, u)
  {
    ByPkHolds(rows);
    var m, n := ByPk(rows), UserRows(t, u);
    assert forall k :: k in m ==> k in n && m[k] == n[k];
    assert forall k :: k in n ==> k in m;
  }
}

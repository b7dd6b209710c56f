// The shard registry: shard id to database, and the weighted pool from which new accounts draw.
module Shards {
  import opened Rows
  import opened Queue

  datatype WeightedShard = WeightedShard(id: int, cumWeight: int)

  /** One call of RegisterShard. */
  datatype Registration = Registration(id: int, db: DbId, weight: int)

  /** The sum of the positive weights registered. */
  function Total(regs: seq<Registration>): nat {
    if regs == [] then 0
    else
      var last := regs[|regs| - 1];
      Total(regs[..|regs| - 1]) + if last.weight > 0 then last.weight else 0
  }

  /** The same sum for one shard id. */
  function WeightOf(regs: seq<Registration>, id: int): nat {
    if regs == [] then 0
    else
      var last := regs[|regs| - 1];
      WeightOf(regs[..|regs| - 1], id) + if last.weight > 0 && last.id == id then last.weight else 0
  }

  function Pool(regs: seq<Registration>): seq<WeightedShard> {
    if regs == [] then []
    else
      var last := regs[|regs| - 1];
      if last.weight > 0 then Pool(regs[..|regs| - 1]) + [WeightedShard(last.id, Total(regs))]
      else Pool(regs[..|regs| - 1])
  }

  /** Shard id to the database it was registered with last. */
  function Directory(regs: seq<Registration>): map<int, DbId> {
    if regs == [] then map[]
    else
      var last := regs[|regs| - 1];
      Directory(regs[..|regs| - 1])[last.id := last.db]
  }

  /** The scan of PickShard. */
  function Draw(pool: seq<WeightedShard>, r: int): Option<int> {
    if pool == [] then None
    else if r < pool[0].cumWeight then Some(pool[0].id)
    else Draw(pool[1..], r)
  }

  /** How many draws in [lo, hi) return shard `id`. */
  function Draws(pool: seq<WeightedShard>, id: int, lo: int, hi: int): nat
    decreases hi - lo
  {
    if hi <= lo then 0
    else Draws(pool, id, lo, hi - 1) + if Draw(pool, hi - 1) == Some(id) then 1 else 0
  }

  /** Cumulative weights strictly increase and end at the total. */
  lemma {:induction false} PoolIncreases(regs: seq<Registration>)
    ensures var pool := Pool(regs);
      && (forall i :: 0 <= i < |pool| ==> 0 < pool[i].cumWeight <= Total(regs))
      && (forall i, j :: 0 <= i < j < |pool| ==> pool[i].cumWeight < pool[j].cumWeight)
      && (pool == [] <==> Total(regs) == 0)
      && (pool != [] ==> pool[|pool| - 1].cumWeight == Total(regs))
  {
    if regs != [] { PoolIncreases(regs[..|regs| - 1]); }
  }

  lemma {:induction false} DrawConcat(a: seq<WeightedShard>, b: seq<WeightedShard>, r: int)
    ensures Draw(a + b, r) == if Draw(a, r).Some? then Draw(a, r) else Draw(b, r)
  {
    if a == [] {
      assert a + b == b;
    } else {
      assert (a + b)[1..] == a[1..] + b;
      DrawConcat(a[1..], b, r);
    }
  }

  /** Every draw below the total hits a shard; no other draw does. */
  lemma {:induction false} DrawHits(regs: seq<Registration>, r: int)
    ensures Draw(Pool(regs), r).Some? <==> r < Total(regs) && Pool(regs) != []
  {
    if regs != [] {
      var front, last := regs[..|regs| - 1], regs[|regs| - 1];
      DrawHits(front, r);
      PoolIncreases(front);
      if last.weight > 0 {
        DrawConcat(Pool(front), [WeightedShard(last.id, Total(regs))], r);
      }
    }
  }

  lemma {:induction false} DrawsOver(pool: seq<WeightedShard>, pool': seq<WeightedShard>, id: int, lo: int, hi: int)
    requires forall r :: lo <= r < hi ==> Draw(pool, r) == Draw(pool', r)
    ensures Draws(pool, id, lo, hi) == Draws(pool', id, lo, hi)
    decreases hi - lo
  {
    if lo < hi { DrawsOver(pool, pool', id, lo, hi - 1); }
  }

  lemma {:induction false} DrawsSame(pool: seq<WeightedShard>, id: int, lo: int, hi: int, to: Option<int>)
    requires lo <= hi && forall r :: lo <= r < hi ==> Draw(pool, r) == to
    ensures Draws(pool, id, lo, hi) == if to == Some(id) then hi - lo else 0
    decreases hi - lo
  {
    if lo < hi { DrawsSame(pool, id, lo, hi - 1, to); }
  }

  lemma {:induction false} DrawsSplit(pool: seq<WeightedShard>, id: int, lo: int, mid: int, hi: int)
    requires lo <= mid <= hi
    ensures Draws(pool, id, lo, hi) == Draws(pool, id, lo, mid) + Draws(pool, id, mid, hi)
    decreases hi - mid
  {
    if mid < hi { DrawsSplit(pool, id, lo, mid, hi - 1); }
  }

  /** The weighted choice is exact: of the Total draws, WeightOf(id) return id. */
  lemma {:induction false} DrawsExact(regs: seq<Registration>, id: int)
    ensures Draws(Pool(regs), id, 0, Total(regs)) == WeightOf(regs, id)
  {
    if regs != [] {
      var front, last := regs[..|regs| - 1], regs[|regs| - 1];
      DrawsExact(front, id);
      if last.weight > 0 {
        var t, t' := Total(front), Total(regs);
        var more := [WeightedShard(last.id, t')];
        forall r | 0 <= r < t'
          ensures Draw(Pool(regs), r) == if r < t then Draw(Pool(front), r) else Some(last.id)
        {
          DrawConcat(Pool(front), more, r);
          DrawHits(front, r);
          PoolIncreases(front);
        }
        DrawsSplit(Pool(regs), id, 0, t, t');
        DrawsOver(Pool(regs), Pool(front), id, 0, t);
        DrawsSame(Pool(regs), id, t, t', Some(last.id));
      }
    }
  }

  /** The last of the registrations of this id. */
  predicate LastOf(regs: seq<Registration>, id: int, i: int) {
    0 <= i < |regs| && regs[i].id == id && forall j :: i < j < |regs| ==> regs[j].id != id
  }

  /** An id resolves if and only if some registration names it, whatever its weight, and to the database of the last that does. */
  lemma {:induction false} DirectoryAt(regs: seq<Registration>, id: int)
    ensures id in Directory(regs) <==> exists i :: 0 <= i < |regs| && regs[i].id == id
    ensures forall i :: LastOf(regs, id, i) ==> id in Directory(regs) && Directory(regs)[id] == regs[i].db
  {
    if regs != [] {
      var front, last := regs[..|regs| - 1], regs[|regs| - 1];
      DirectoryAt(front, id);
      assert forall i :: 0 <= i < |front| ==> front[i] == regs[i];
      forall i | LastOf(regs, id, i)
        ensures id in Directory(regs) && Directory(regs)[id] == regs[i].db
      {
        if last.id == id {
          assert i == |front|;
        } else {
          assert LastOf(front, id, i);
        }
      }
    }
  }

  /** Whatever a draw returns is registered. */
  lemma {:induction false} DrawResolves(regs: seq<Registration>, r: int)
    ensures Draw(Pool(regs), r).Some? ==> Draw(Pool(regs), r).value in Directory(regs)
  {
    if regs != [] {
      var front, last := regs[..|regs| - 1], regs[|regs| - 1];
      DrawResolves(front, r);
      if last.weight > 0 { DrawConcat(Pool(front), [WeightedShard(last.id, Total(regs))], r); }
    }
  }

  class Registry {
    var shardMap: map<int, DbId>
    var shardPool: seq<WeightedShard>
    var totalWeight: int
    /** The registrations since the last CloseAll. */
    ghost var regs: seq<Registration>

    ghost predicate Valid()
      reads this
    {
      shardMap == Directory(regs) && shardPool == Pool(regs) && totalWeight == Total(regs)
    }

    constructor ()
      ensures Valid() && regs == []
    {
      shardMap, shardPool, totalWeight, regs := map[], [], 0, [];
    }

    method RegisterShard(shardId: int, db: DbId, weight: int)
      requires Valid()
      modifies this
      ensures Valid() && regs == old(regs) + [Registration(shardId, db, weight)]
      ensures shardMap == old(shardMap)[shardId := db]
      ensures totalWeight == old(totalWeight) + if weight > 0 then weight else 0
      ensures shardPool == if weight > 0 then old(shardPool) + [WeightedShard(shardId, totalWeight)] else old(shardPool)
      ensures forall id :: WeightOf(regs, id) == old(WeightOf(regs, id)) + if id == shardId && weight > 0 then weight else 0
    {
      shardMap := shardMap[shardId := db];
      if weight > 0 {
        totalWeight := totalWeight + weight;
        shardPool := shardPool + [WeightedShard(shardId, totalWeight)];
      }
      regs := regs + [Registration(shardId, db, weight)];
      assert regs[..|regs| - 1] == old(regs);
    }

    /** `draw` stands for the random number generator: any value below the total. */
    method PickShard(draw: int) returns (shardId: Option<int>)
      requires Valid() && (0 < totalWeight ==> 0 <= draw < totalWeight)
      ensures shardId.None? <==> totalWeight == 0
      ensures totalWeight > 0 ==> shardId == Draw(Pool(regs), draw)
      ensures shardId.Some? ==> shardId.value in shardMap
    {
      shardId := None;
      PoolIncreases(regs);
      if totalWeight == 0 { return; }
      DrawResolves(regs, draw);
      hide Total, Pool, Directory;
      ghost var pool := shardPool;
      var i := 0;
      while i < |shardPool|
        invariant 0 <= i <= |pool| && shardPool == pool
        invariant Draw(pool, draw) == Draw(pool[i..], draw)
        invariant forall j :: 0 <= j < i ==> pool[j].cumWeight <= draw
      {
        assert pool[i..][1..] == pool[i + 1..];
        if draw < shardPool[i].cumWeight {
          return Some(shardPool[i].id);
        }
        i := i + 1;
      }
      // The source's defensive return is never reached.
      assert false;
    }

    method GetShard(shardId: int) returns (db: DbId)
      ensures db == if shardId in shardMap then shardMap[shardId] else NIL
    {
      if shardId in shardMap { db := shardMap[shardId]; } else { db := NIL; }
    }

    method CloseAll()
      modifies this
      ensures Valid() && regs == [] && shardMap == map[] && shardPool == [] && totalWeight == 0
      ensures forall id :: WeightOf(regs, id) == 0
    {
      shardMap, shardPool, totalWeight, regs := map[], [], 0, [];
    }
  }
}

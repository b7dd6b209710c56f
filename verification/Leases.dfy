// The user lock in Redis: one key per user, taken with NX and a time to live, released by token.
module Leases {
  /** The value of a lock key and the time it expires. */
  datatype Lease = Lease(token: nat, expiry: nat)
  type Locks = map<nat, Lease>

  const LEASE_MS := 10_000
  const MAX_TRIES := 60

  predicate Held(locks: Locks, key: nat, now: nat) {
    key in locks && now < locks[key].expiry
  }

  /** SET key token NX with a TTL: only when no unexpired value is there. */
  function SetNx(locks: Locks, key: nat, token: nat, now: nat): (r: (bool, Locks))
    ensures r.0 <==> !Held(locks, key, now)
    ensures Held(r.1, key, now) && (r.0 ==> r.1 == locks[key := Lease(token, now + 10_000)])
  {
    if Held(locks, key, now) then (false, locks) else (true, locks[key := Lease(token, now + LEASE_MS)])
  }

  /** The release script: delete the key only while it holds this token. */
  function DropIf(locks: Locks, key: nat, token: nat, now: nat): Locks {
    if Held(locks, key, now) && locks[key].token == token then locks - {key} else locks
  }

  /** The lock key is held under `token` until some time after `now`. */
  predicate HeldBy(locks: Locks, key: nat, token: nat, now: nat) {
    Held(locks, key, now) && locks[key].token == token
  }

  /** Redis answers, or the call fails, before or after taking effect. */
  datatype Reply = Answered | Failed(applied: bool)

  /** What one call finds: the keys as other servers have left them, the clock, how the call fares, and whether the client has gone. */
  datatype Moment = Moment(locks: Locks, now: nat, reply: Reply, cancelled: bool)

  /** The key is free at the moment, and the SET is carried out, whether or not its reply arrives. */
  predicate Takes(m: Moment, key: nat) {
    !Held(m.locks, key, m.now) && m.reply != Failed(false)
  }

  /** A try after which there is no other: the SET was answered with OK, the call failed, or the client has gone. */
  predicate Final(m: Moment, key: nat) {
    !Held(m.locks, key, m.now) || m.reply.Failed? || m.cancelled
  }

  /** The try with which Acquire ends. */
  function LastTry(ms: seq<Moment>, key: nat): (i: nat)
    requires ms != []
    ensures i < |ms| && (Final(ms[i], key) || i == |ms| - 1)
    ensures forall j :: 0 <= j < i ==> !Final(ms[j], key)
  {
    if Final(ms[0], key) || |ms| == 1 then 0
    else
      var i := LastTry(ms[1..], key);
      assert forall j :: 0 < j <= i ==> ms[j] == ms[1..][j - 1];
      i + 1
  }

  lemma {:induction false} LastTryIs(ms: seq<Moment>, key: nat, i: nat)
    requires i < |ms| && (Final(ms[i], key) || i == |ms| - 1) && forall j :: 0 <= j < i ==> !Final(ms[j], key)
    ensures LastTry(ms, key) == i
  {
    if i > 0 {
      assert !Final(ms[0], key);
      LastTryIs(ms[1..], key, i - 1);
    }
  }

  /** Try number i finds the key free and is answered, and none before it failed or found that the client had gone. */
  predicate Obtains(ms: seq<Moment>, key: nat, i: int)
    requires 0 <= i < |ms|
  {
    && !Held(ms[i].locks, key, ms[i].now) && ms[i].reply.Answered?
    && forall j :: 0 <= j < i ==> ms[j].reply.Answered? && !ms[j].cancelled
  }

  /** The last try took the key and was told so if and only if some try did, without anything that ends the loop before it. */
  lemma ObtainedIff(ms: seq<Moment>, key: nat)
    requires ms != []
    ensures var m := ms[LastTry(ms, key)];
      (Takes(m, key) && m.reply.Answered?) <==> exists i :: 0 <= i < |ms| && Obtains(ms, key, i)
  {
    var k := LastTry(ms, key);
    if Takes(ms[k], key) && ms[k].reply.Answered? { assert Obtains(ms, key, k); }
    forall i | 0 <= i < |ms| && Obtains(ms, key, i)
      ensures Takes(ms[k], key) && ms[k].reply.Answered?
    {
      assert Final(ms[i], key);
    }
  }

  /** The keys once the SET of a moment has been carried out or not. */
  function AfterSet(m: Moment, key: nat, token: nat): Locks {
    if Takes(m, key) then m.locks[key := Lease(token, m.now + LEASE_MS)] else m.locks
  }

  /** The keys after a request that tried to take the lock and, if it was told that it had, released it. */
  function AfterRequest(m: Moment, release: Moment, key: nat, token: nat): Locks {
    if !(Takes(m, key) && m.reply.Answered?) then AfterSet(m, key, token)
    else if release.reply == Failed(false) then release.locks
    else DropIf(release.locks, key, token, release.now)
  }

  /** What other servers may have done between two moments: they leave a lease that has not run out alone, and draw other tokens. */
  predicate Respected(before: Locks, after: Locks, key: nat, token: nat, now: nat) {
    && (HeldBy(before, key, token, now) ==> key in after && after[key] == before[key])
    && (key in after && after[key].token == token ==> key in before && before[key] == after[key])
  }

  /**
   * A request leaves its lock behind if and only if the key was set and either its reply was lost or the
   * release did not reach Redis; and it does so until ten seconds after the key was set.
   */
  lemma LeftBehindIff(m: Moment, release: Moment, key: nat, token: nat, t: nat)
    requires (key in m.locks ==> m.locks[key].token != token) && m.now <= release.now <= t
    requires Respected(AfterSet(m, key, token), release.locks, key, token, release.now)
    ensures HeldBy(AfterRequest(m, release, key, token), key, token, t) <==>
      Takes(m, key) && (m.reply.Failed? || release.reply == Failed(false)) && t < m.now + 10_000
  {
  }

  class UserLock {
    var locks: Locks

    constructor ()
      ensures locks == map[]
    {
      locks := map[];
    }

    /** SET key token NX PX: OK, nil when the key is held, or an error; after an error the key may be set all the same. */
    method SetNxOnce(key: nat, token: nat, m: Moment) returns (ok: bool, err: bool)
      modifies this
      ensures locks == AfterSet(m, key, token)
      ensures err == m.reply.Failed? && ok == (Takes(m, key) && !err)
    {
      locks := m.locks;
      err := m.reply.Failed?;
      if err && !m.reply.applied { return false, true; }
      var free, after := SetNx(locks, key, token, m.now).0, SetNx(locks, key, token, m.now).1;
      locks := after;
      ok := free && !err;
    }

    /**
     * The retry loop. Between tries other servers run, so each try finds its own moment. The lock is had
     * if and only if one of 60 tries finds the key free before anything else ends the loop; then it is this
     * token that the key holds, for ten seconds.
     */
    method Acquire(key: nat, token: nat, moments: seq<Moment>) returns (got: bool)
      requires |moments| == 60
      modifies this
      ensures got <==> exists i :: 0 <= i < 60 && Obtains(moments, key, i)
      ensures got ==> exists i :: 0 <= i < 60 && Obtains(moments, key, i) && locks == moments[i].locks[key := Lease(token, moments[i].now + 10_000)]
      ensures var m := moments[LastTry(moments, key)];
        got == (Takes(m, key) && m.reply.Answered?) && locks == AfterSet(m, key, token)
    {
      got := false;
      var i := 0;
      while i < MAX_TRIES
        invariant 0 <= i <= MAX_TRIES
        invariant forall j :: 0 <= j < i ==> !Final(moments[j], key)
        invariant i > 0 ==> locks == AfterSet(moments[i - 1], key, token)
      {
        var ok, err := SetNxOnce(key, token, moments[i]);
        if ok || err || moments[i].cancelled {
          LastTryIs(moments, key, i);
          ObtainedIff(moments, key);
          return ok;
        }
        i := i + 1;
      }
      LastTryIs(moments, key, MAX_TRIES - 1);
      ObtainedIff(moments, key);
    }

    /**
     * The script deletes the key only while it holds this token. It runs under the request's context: if
     * that is cancelled, or Redis is away, it may not be carried out, and nobody looks at its error.
     */
    method Release(key: nat, token: nat, m: Moment)
      modifies this
      ensures locks == if m.reply == Failed(false) then m.locks else DropIf(m.locks, key, token, m.now)
      ensures HeldBy(locks, key, token, m.now) <==> HeldBy(m.locks, key, token, m.now) && m.reply == Failed(false)
      ensures forall k :: k in m.locks && !(k == key && HeldBy(m.locks, key, token, m.now)) ==> k in locks && locks[k] == m.locks[k]
    {
      locks := m.locks;
      if m.reply != Failed(false) && key in locks && m.now < locks[key].expiry && locks[key].token == token {
        locks := locks - {key};
      }
    }
  }
}

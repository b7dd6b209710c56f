// Login sessions with a sliding time to live, and which tokens verify after any history.
module Sessions {
  /** sessionTTL: eight hours, in milliseconds. */
  const SESSION_TTL := 28_800_000

  datatype Session = Session(token: string, expiry: int)

  datatype Op =
    | Set(user: nat, token: string, time: int)
    | Verify(user: nat, token: string, time: int)
    | Delete(user: nat, time: int)

  /** The script's comparison: the key is there, has not expired, and holds this token. */
  predicate Accepts(s: map<nat, Session>, user: nat, token: string, time: int) {
    token != "" && user in s && time < s[user].expiry && s[user].token == token
  }

  function Step(s: map<nat, Session>, op: Op): map<nat, Session> {
    match op
    case Set(u, token, t) => s[u := Session(token, t + SESSION_TTL)]
    case Verify(u, token, t) => if Accepts(s, u, token, t) then s[u := Session(token, t + SESSION_TTL)] else s
    case Delete(u, _) => s - {u}
  }

  function Run(ops: seq<Op>): map<nat, Session> {
    if ops == [] then map[] else Step(Run(ops[..|ops| - 1]), ops[|ops| - 1])
  }

  /** Time does not go back. */
  predicate Timed(ops: seq<Op>) {
    forall i, j :: 0 <= i < j < |ops| ==> ops[i].time <= ops[j].time
  }

  /**
   * From the last Set of the user, whose token it is and which no Delete followed, through attempts to
   * verify that token, each within the time to live of the one before.
   */
  ghost predicate Chain(ops: seq<Op>, user: nat, token: string, c: seq<nat>) {
    && c != []
    && (forall j :: 0 <= j < |c| ==> c[j] < |ops|)
    && ops[c[0]] == Set(user, token, ops[c[0]].time)
    && (forall j :: 0 < j < |c| ==> ops[c[j]] == Verify(user, token, ops[c[j]].time))
    && (forall j :: 0 < j < |c| ==> c[j - 1] < c[j] && ops[c[j]].time < ops[c[j - 1]].time + 28_800_000)
    && (forall i :: c[0] < i < |ops| && ops[i].user == user ==> ops[i].Verify?)
  }

  /** When the last link of a chain was made. */
  function LastTime(ops: seq<Op>, c: seq<nat>): int {
    if c == [] || |ops| <= c[|c| - 1] then 0 else ops[c[|c| - 1]].time
  }

  /** A chain outlives ops that neither set nor delete the user's session. */
  lemma ChainGrows(ops: seq<Op>, op: Op, user: nat, token: string, c: seq<nat>)
    requires Chain(ops, user, token, c) && (op.user == user ==> op.Verify?)
    ensures Chain(ops + [op], user, token, c) && LastTime(ops + [op], c) == LastTime(ops, c)
  {
    var all := ops + [op];
    assert forall j :: 0 <= j < |c| ==> all[c[j]] == ops[c[j]];
    assert forall i :: 0 <= i < |ops| ==> all[i] == ops[i];
  }

  lemma {:induction false} ChainRises(c: seq<nat>, i: nat, j: nat)
    requires forall k :: 0 < k < |c| ==> c[k - 1] < c[k]
    requires i <= j < |c|
    ensures c[i] <= c[j]
    decreases j
  {
    if i < j { ChainRises(c, i, j - 1); }
  }

  lemma ChainShrinks(ops: seq<Op>, op: Op, user: nat, token: string, c: seq<nat>)
    requires Chain(ops + [op], user, token, c) && c[|c| - 1] < |ops|
    ensures Chain(ops, user, token, c) && LastTime(ops + [op], c) == LastTime(ops, c)
    ensures op.user == user ==> op.Verify?
  {
    var all := ops + [op];
    forall j | 0 <= j < |c|
      ensures c[j] < |ops|
    {
      ChainRises(c, j, |c| - 1);
    }
    assert forall j :: 0 <= j < |c| ==> all[c[j]] == ops[c[j]];
    assert forall i :: 0 <= i < |ops| ==> all[i] == ops[i];
    assert all[|ops|] == op;
  }

  /** A successful attempt makes the chain one longer. */
  lemma ChainExtends(ops: seq<Op>, op: Op, user: nat, token: string, c: seq<nat>)
    requires Chain(ops, user, token, c) && op == Verify(user, token, op.time) && op.time < LastTime(ops, c) + SESSION_TTL
    ensures Chain(ops + [op], user, token, c + [|ops|]) && LastTime(ops + [op], c + [|ops|]) == op.time
  {
    var all, c' := ops + [op], c + [|ops|];
    assert forall i :: 0 <= i < |ops| ==> all[i] == ops[i];
    assert all[|ops|] == op;
    forall j | 0 <= j < |c'|
      ensures c'[j] == (if j < |c| then c[j] else |ops|) && c'[j] < |all|
    {
    }
  }

  lemma ChainStarts(ops: seq<Op>, op: Op)
    requires op.Set?
    ensures Chain(ops + [op], op.user, op.token, [|ops|]) && LastTime(ops + [op], [|ops|]) == op.time
  {
  }

  /** The end of a chain: the Set itself, or an attempt within the time to live of the rest. */
  lemma ChainEnds(ops: seq<Op>, op: Op, user: nat, token: string, c: seq<nat>)
    requires Chain(ops + [op], user, token, c) && c[|c| - 1] == |ops|
    ensures LastTime(ops + [op], c) == op.time
    ensures |c| == 1 ==> op == Set(user, token, op.time)
    ensures |c| > 1 ==>
      && op == Verify(user, token, op.time) && Chain(ops, user, token, c[..|c| - 1])
      && op.time < LastTime(ops, c[..|c| - 1]) + SESSION_TTL
  {
    var all, rest := ops + [op], c[..|c| - 1];
    assert all[|ops|] == op;
    if |c| > 1 {
      assert rest[|rest| - 1] == c[|c| - 2];
      RestChains(all, op, user, token, c);
      ChainShrinks(ops, op, user, token, rest);
    }
  }

  lemma RestChains(all: seq<Op>, op: Op, user: nat, token: string, c: seq<nat>)
    requires Chain(all, user, token, c) && |c| > 1
    ensures Chain(all, user, token, c[..|c| - 1])
  {
    var rest := c[..|c| - 1];
    assert forall j :: 0 <= j < |rest| ==> rest[j] == c[j];
  }

  /** A stored session has a chain that ends a time to live before it expires. */
  lemma {:induction false} StoredHasChain(ops: seq<Op>, user: nat)
    requires user in Run(ops)
    ensures exists c: seq<nat> :: Chain(ops, user, Run(ops)[user].token, c) && LastTime(ops, c) + SESSION_TTL == Run(ops)[user].expiry
    decreases |ops|
  {
    hide Chain, LastTime;
    var front, op := ops[..|ops| - 1], ops[|ops| - 1];
    assert ops == front + [op];
    var s := Run(front);
    if op.Set? && op.user == user {
      ChainStarts(front, op);
    } else {
      StoredHasChain(front, user);
      var c: seq<nat> :| Chain(front, user, s[user].token, c) && LastTime(front, c) + SESSION_TTL == s[user].expiry;
      ChainGrows(front, op, user, s[user].token, c);
      if op.Verify? && op.user == user && Accepts(s, user, op.token, op.time) {
        ChainExtends(front, op, user, op.token, c);
      }
    }
  }

  /** Along a chain every attempt succeeded, so the session lives at least to the end of the last. */
  lemma {:induction false} ChainLives(ops: seq<Op>, user: nat, token: string, c: seq<nat>)
    requires Timed(ops) && Chain(ops, user, token, c) && token != ""
    ensures user in Run(ops) && Run(ops)[user].token == token
    ensures LastTime(ops, c) + SESSION_TTL <= Run(ops)[user].expiry
    decreases |ops|
  {
    var n := |ops| - 1;
    ChainFits(ops, user, token, c);
    var front, op := ops[..n], ops[n];
    TimedFront(ops);
    hide Chain, LastTime, Run, Timed, Accepts;
    assert ops == front + [op];
    if c[|c| - 1] == n {
      ChainEnds(front, op, user, token, c);
      if |c| > 1 { ChainLives(front, user, token, c[..|c| - 1]); }
      LinkLives(ops, user, token);
    } else {
      ChainShrinks(front, op, user, token, c);
      ChainLives(front, user, token, c);
      RestLives(ops, user, token, LastTime(ops, c));
      LastBefore(ops, c);
    }
  }

  lemma TimedFront(ops: seq<Op>)
    requires Timed(ops) && ops != []
    ensures Timed(ops[..|ops| - 1])
  {
  }

  /** A Set, or an attempt that succeeds, starts the time to live. */
  lemma LinkLives(ops: seq<Op>, user: nat, token: string)
    requires ops != [] && token != ""
    requires var op, s := ops[|ops| - 1], Run(ops[..|ops| - 1]);
      || op == Set(user, token, op.time)
      || (op == Verify(user, token, op.time) && user in s && s[user].token == token && op.time < s[user].expiry)
    ensures user in Run(ops) && Run(ops)[user] == Session(token, ops[|ops| - 1].time + SESSION_TTL)
  {
  }

  /** What neither sets nor deletes the user's session shortens it not. */
  lemma RestLives(ops: seq<Op>, user: nat, token: string, last: int)
    requires ops != [] && (ops[|ops| - 1].user == user ==> ops[|ops| - 1].Verify?)
    requires var s := Run(ops[..|ops| - 1]); user in s && s[user].token == token && last + SESSION_TTL <= s[user].expiry
    ensures user in Run(ops) && Run(ops)[user].token == token
    ensures last <= ops[|ops| - 1].time ==> last + SESSION_TTL <= Run(ops)[user].expiry
  {
  }

  lemma ChainFits(ops: seq<Op>, user: nat, token: string, c: seq<nat>)
    requires Chain(ops, user, token, c)
    ensures ops != [] && c != [] && c[|c| - 1] < |ops|
  {
  }

  lemma LastBefore(ops: seq<Op>, c: seq<nat>)
    requires Timed(ops) && ops != []
    ensures c != [] && c[|c| - 1] < |ops| ==> LastTime(ops, c) <= ops[|ops| - 1].time
  {
  }

  /**
   * After any history, wrong-token attempts included: a token verifies at time t if and only if it is
   * the one set last for the user, was not deleted since, and a chain of attempts with gaps under eight
   * hours leads from that Set to t.
   */
  lemma VerifiesIff(ops: seq<Op>, user: nat, token: string, t: int)
    requires Timed(ops)
    ensures Accepts(Run(ops), user, token, t) <==>
      token != "" && exists c: seq<nat> :: Chain(ops, user, token, c) && t < LastTime(ops, c) + 28_800_000
  {
    if Accepts(Run(ops), user, token, t) {
      StoredHasChain(ops, user);
    }
    if token != "" {
      forall c: seq<nat> | Chain(ops, user, token, c) && t < LastTime(ops, c) + SESSION_TTL
        ensures Accepts(Run(ops), user, token, t)
      {
        ChainLives(ops, user, token, c);
      }
    }
  }

  lemma RunSnoc(ops: seq<Op>, op: Op)
    requires Timed(ops) && forall i :: 0 <= i < |ops| ==> ops[i].time <= op.time
    ensures Run(ops + [op]) == Step(Run(ops), op) && Timed(ops + [op])
  {
    assert (ops + [op])[..|ops|] == ops;
  }

  class UserSession {
    var sessions: map<nat, Session>
    ghost var history: seq<Op>

    ghost predicate Valid()
      reads this
    {
      sessions == Run(history) && Timed(history)
    }

    constructor ()
      ensures Valid() && history == []
    {
      sessions, history := map[], [];
    }

    /** Issues a new token, drawn by the caller; an existing session is overwritten. */
    method Set(user: nat, token: string, now: int)
      requires Valid() && forall i :: 0 <= i < |history| ==> history[i].time <= now
      modifies this
      ensures Valid() && history == old(history) + [Op.Set(user, token, now)]
      ensures sessions == old(sessions)[user := Session(token, now + 28_800_000)]
    {
      sessions := sessions[user := Session(token, now + SESSION_TTL)];
      history := history + [Op.Set(user, token, now)];
      assert history[..|history| - 1] == old(history);
    }

    /** True exactly when the token verifies; then the time to live starts again. */
    method VerifyAndRefresh(user: nat, token: string, now: int) returns (ok: bool)
      requires Valid() && forall i :: 0 <= i < |history| ==> history[i].time <= now
      modifies this
      ensures Valid() && history == old(history) + [Verify(user, token, now)]
      ensures sessions == if ok then old(sessions)[user := Session(token, now + 28_800_000)] else old(sessions)
      ensures ok <==> Accepts(old(sessions), user, token, now)
      ensures ok <==> token != "" && exists c: seq<nat> :: Chain(old(history), user, token, c) && now < LastTime(old(history), c) + 28_800_000
    {
      hide Chain, LastTime, Run, Timed;
      VerifiesIff(history, user, token, now);
      RunSnoc(history, Verify(user, token, now));
      if token == "" {
        ok := false;
      } else {
        ok := user in sessions && now < sessions[user].expiry && sessions[user].token == token;
        if ok { sessions := sessions[user := sessions[user].(expiry := now + SESSION_TTL)]; }
      }
      history := history + [Verify(user, token, now)];
    }

    method Delete(user: nat, now: int)
      requires Valid() && forall i :: 0 <= i < |history| ==> history[i].time <= now
      modifies this
      ensures Valid() && history == old(history) + [Op.Delete(user, now)] && sessions == old(sessions) - {user}
    {
      sessions := sessions - {user};
      history := history + [Op.Delete(user, now)];
      assert history[..|history| - 1] == old(history);
    }
  }
}

/**
 Threads that take and release the signer's mutexes, in any interleaving: the chain
 tracker, the channel map, one slot per channel, the node state, and one mutex per
 chain monitor. A thread is the list of lock actions it has left to do.

 Main results: threads that obey the lock order, and do not read a monitor under its
 slot while a block is being fed to that monitor, never get stuck (`Progress`) and can
 always finish (`CompletesFrom`); two threads that wait for each other never finish
 (`DeadlockStays`).
 */
module Locks {
  import opened Options

  type ChannelId = nat

  datatype Lock = Tracker | Channels | Slot(id: ChannelId) | Monitor(id: ChannelId) | NodeState

  datatype Action = Acquire(lock: Lock) | Release(lock: Lock)

  /**
   What a thread's whole program does with monitors: the ones under which it locks the
   slot again (block processing), and the ones it reads without holding the tracker.
   */
  datatype Plan = Plan(consults: set<ChannelId>, views: set<ChannelId>)

  datatype Thread = Thread(held: set<Lock>, code: seq<Action>, plan: Plan)

  type Pool = seq<Thread>

  /** The lock order; the monitors in `consults` come before the slots, the others last. */
  function Rank(l: Lock, consults: set<ChannelId>): nat {
    match l
    case Tracker => 0
    case Channels => 1
    case Slot(_) => 3
    case NodeState => 4
    case Monitor(c) => if c in consults then 2 else 5
  }

  predicate Above(held: set<Lock>, l: Lock, consults: set<ChannelId>) {
    forall h :: h in held ==> Rank(h, consults) < Rank(l, consults)
  }

  /** One action is in order for a thread that holds `held`. */
  predicate InOrder(held: set<Lock>, a: Action, plan: Plan) {
    match a
    case Acquire(l) =>
      && Above(held, l, plan.consults)
      && (l.Monitor? && Tracker !in held ==> l.id in plan.views && Slot(l.id) in held)
      && (held == {} && plan.consults != {} ==> l == Tracker)
    case Release(l) => l in held && (l == Tracker ==> held == {Tracker})
  }

  function After(held: set<Lock>, a: Action): set<Lock> {
    match a
    case Acquire(l) => held + {l}
    case Release(l) => held - {l}
  }

  /** What is held after a program every action of which is in order. */
  function Obeys(held: set<Lock>, code: seq<Action>, plan: Plan): Option<set<Lock>>
    decreases |code|
  {
    if code == [] then Some(held)
    else if InOrder(held, code[0], plan) then Obeys(After(held, code[0]), code[1..], plan)
    else None
  }

  ghost predicate Acquires(code: seq<Action>, l: Lock) {
    exists k :: 0 <= k < |code| && code[k] == Acquire(l)
  }

  lemma {:induction false} ObeysAppend(held: set<Lock>, p: seq<Action>, q: seq<Action>, plan: Plan)
    requires Obeys(held, p, plan).Some?
    ensures Obeys(held, p + q, plan) == Obeys(Obeys(held, p, plan).value, q, plan)
    decreases |p|
  {
    if p == [] {
      assert p + q == q;
    } else {
      assert (p + q)[1..] == p[1..] + q;
      ObeysAppend(After(held, p[0]), p[1..], q, plan);
    }
  }

  /** The monitors a program reads while it does not hold the tracker. */
  function ViewsOf(held: set<Lock>, code: seq<Action>): set<ChannelId>
    decreases |code|
  {
    if code == [] then {}
    else
      (if code[0].Acquire? && code[0].lock.Monitor? && Tracker !in held then {code[0].lock.id} else {})
      + ViewsOf(After(held, code[0]), code[1..])
  }

  lemma {:induction false} ViewsAppend(held: set<Lock>, p: seq<Action>, q: seq<Action>, plan: Plan)
    requires Obeys(held, p, plan).Some?
    ensures ViewsOf(held, p + q) == ViewsOf(held, p) + ViewsOf(Obeys(held, p, plan).value, q)
    decreases |p|
  {
    if p == [] {
      assert p + q == q;
    } else {
      assert (p + q)[1..] == p[1..] + q;
      ViewsAppend(After(held, p[0]), p[1..], q, plan);
    }
  }

  /**
   Up to the point where a program reads a monitor outside the tracker: a first part that
   ends with nothing held, and a second that never takes the tracker and holds the slot.
   */
  lemma {:induction false} FindView(held: set<Lock>, code: seq<Action>, plan: Plan, c: ChannelId)
    returns (p: seq<Action>, q: seq<Action>, rest: seq<Action>)
    requires Obeys(held, code, plan).Some? && c in ViewsOf(held, code)
    ensures code == p + q + [Acquire(Monitor(c))] + rest
    ensures Obeys(held, p, plan).Some?
    ensures (p == [] && Tracker !in held) || Obeys(held, p, plan) == Some({})
    ensures !Acquires(q, Tracker)
    ensures Obeys(Obeys(held, p, plan).value, q, plan).Some?
    ensures Slot(c) in Obeys(Obeys(held, p, plan).value, q, plan).value
    decreases |code|
  {
    if code[0] == Acquire(Monitor(c)) && Tracker !in held {
      p, q, rest := [], [], code[1..];
      assert code == [code[0]] + code[1..];
    } else {
      var p', q', rest' := FindView(After(held, code[0]), code[1..], plan, c);
      rest := rest';
      assert code == [code[0]] + (p' + q' + [Acquire(Monitor(c))] + rest);
      if p' != [] || code[0].lock == Tracker {
        p, q := [code[0]] + p', q';
        Prefixed(held, code[0], p', plan);
        assert code[0].lock == Tracker && p' == [] ==> After(held, code[0]) == {};
        assert code == p + q + [Acquire(Monitor(c))] + rest;
      } else {
        p, q := [], [code[0]] + q';
        Prefixed(held, code[0], q', plan);
        assert code == p + q + [Acquire(Monitor(c))] + rest;
        NotFirst(code[0], q');
      }
    }
  }

  lemma Prefixed(held: set<Lock>, a: Action, p: seq<Action>, plan: Plan)
    requires InOrder(held, a, plan)
    ensures Obeys(held, [a] + p, plan) == Obeys(After(held, a), p, plan)
  {
    assert ([a] + p)[1..] == p;
  }

  lemma NotFirst(a: Action, q: seq<Action>)
    requires a.lock != Tracker && !Acquires(q, Tracker)
    ensures !Acquires([a] + q, Tracker)
  {
    forall k | 0 <= k < |[a] + q| ensures ([a] + q)[k] != Acquire(Tracker) {
      if k > 0 {
        assert ([a] + q)[k] == q[k - 1];
      }
    }
  }

  // ---- Interleavings ----

  ghost predicate Free(pool: Pool, l: Lock) {
    forall i :: 0 <= i < |pool| ==> l !in pool[i].held
  }

  /** A mutex is granted only while no thread holds it, the asking thread included. */
  ghost predicate CanStep(pool: Pool, i: nat) {
    && i < |pool| && pool[i].code != []
    && (pool[i].code[0].Acquire? ==> Free(pool, pool[i].code[0].lock))
  }

  function Stepped(t: Thread): Thread
    requires t.code != []
  {
    Thread(After(t.held, t.code[0]), t.code[1..], t.plan)
  }

  ghost function Step(pool: Pool, i: nat): Option<Pool> {
    if CanStep(pool, i) then Some(pool[i := Stepped(pool[i])]) else None
  }

  /** The run that lets the threads move in the given order. */
  ghost function Execute(pool: Pool, schedule: seq<nat>): Option<Pool>
    decreases |schedule|
  {
    if schedule == [] then Some(pool)
    else
      var next := Step(pool, schedule[0]);
      if next.None? then None else Execute(next.value, schedule[1..])
  }

  ghost predicate Finished(pool: Pool) {
    forall i :: 0 <= i < |pool| ==> pool[i].code == [] && pool[i].held == {}
  }

  ghost predicate Finishes(pool: Pool, schedule: seq<nat>) {
    var last := Execute(pool, schedule);
    last.Some? && Finished(last.value)
  }

  ghost predicate CanFinish(pool: Pool) {
    exists schedule :: Finishes(pool, schedule)
  }

  lemma {:induction false} ExecuteAppend(pool: Pool, a: seq<nat>, b: seq<nat>)
    requires Execute(pool, a).Some?
    ensures Execute(pool, a + b) == Execute(Execute(pool, a).value, b)
    decreases |a|
  {
    if a == [] {
      assert a + b == b;
    } else {
      assert (a + b)[1..] == a[1..] + b;
      ExecuteAppend(Step(pool, a[0]).value, a[1..], b);
    }
  }

  // ---- The invariant ----

  ghost predicate ThreadInv(t: Thread) {
    && Obeys(t.held, t.code, t.plan) == Some({})
    && (Tracker !in t.held ==> forall c :: Monitor(c) in t.held ==> c in t.plan.views)
    && (t.plan.consults != {} ==> t.held == {} || Tracker in t.held)
  }

  ghost predicate Exclusive(pool: Pool) {
    forall i, j :: 0 <= i < j < |pool| ==> pool[i].held !! pool[j].held
  }

  /** No monitor a block is fed to is also read under its slot outside the tracker. */
  ghost predicate NoClash(pool: Pool) {
    forall i, j :: 0 <= i < |pool| && 0 <= j < |pool| ==> pool[i].plan.consults !! pool[j].plan.views
  }

  ghost predicate PoolInv(pool: Pool) {
    && (forall i :: 0 <= i < |pool| ==> ThreadInv(pool[i]))
    && Exclusive(pool)
    && NoClash(pool)
  }

  lemma StepKeeps(pool: Pool, i: nat)
    requires PoolInv(pool) && CanStep(pool, i)
    ensures PoolInv(Step(pool, i).value)
  {
    var next := Step(pool, i).value;
    forall a, b | 0 <= a < b < |next| ensures next[a].held !! next[b].held {
      assert pool[a].held !! pool[b].held;
    }
  }

  lemma {:induction false} ExecuteKeeps(pool: Pool, schedule: seq<nat>)
    requires PoolInv(pool) && Execute(pool, schedule).Some?
    ensures PoolInv(Execute(pool, schedule).value)
    decreases |schedule|
  {
    if schedule != [] {
      StepKeeps(pool, schedule[0]);
      ExecuteKeeps(Step(pool, schedule[0]).value, schedule[1..]);
    }
  }

  // ---- Progress ----

  /** Every lock a thread is about to take lies above all it holds, in the order given by `consults`. */
  ghost predicate Ordered(pool: Pool, consults: set<ChannelId>) {
    forall i :: 0 <= i < |pool| && pool[i].code != [] && pool[i].code[0].Acquire? ==>
                  Above(pool[i].held, pool[i].code[0].lock, consults)
  }

  lemma ThreadOrdered(t: Thread, consults: set<ChannelId>)
    requires ThreadInv(t) && t.code != [] && t.code[0].Acquire?
    requires t.plan.consults == consults || (consults !! t.plan.views && Tracker !in t.held) || (consults == {} && Tracker !in t.held)
    ensures Above(t.held, t.code[0].lock, consults)
  {
    var l := t.code[0].lock;
    if t.held != {} && t.plan.consults != consults {
      assert t.plan.consults == {};
      forall h | h in t.held ensures Rank(h, consults) < Rank(l, consults) {
        assert Rank(h, {}) < Rank(l, {});
      }
    }
  }

  /** The thread that holds the tracker decides the order; without one, the plain order serves. */
  lemma SomeOrder(pool: Pool) returns (consults: set<ChannelId>)
    requires PoolInv(pool)
    ensures Ordered(pool, consults)
  {
    if k :| 0 <= k < |pool| && Tracker in pool[k].held {
      consults := pool[k].plan.consults;
      forall i | 0 <= i < |pool| && pool[i].code != [] && pool[i].code[0].Acquire?
        ensures Above(pool[i].held, pool[i].code[0].lock, consults)
      {
        assert i < k ==> pool[i].held !! pool[k].held;
        assert k < i ==> pool[k].held !! pool[i].held;
        ThreadOrdered(pool[i], consults);
      }
    } else {
      consults := {};
      forall i | 0 <= i < |pool| && pool[i].code != [] && pool[i].code[0].Acquire?
        ensures Above(pool[i].held, pool[i].code[0].lock, consults)
      {
        ThreadOrdered(pool[i], consults);
      }
    }
  }

  ghost predicate HoldsRank(t: Thread, k: nat, consults: set<ChannelId>) {
    exists l :: l in t.held && Rank(l, consults) == k
  }

  /** A thread that holds a lock of the highest rank held by anyone can move. */
  lemma {:induction false} TopMoves(pool: Pool, consults: set<ChannelId>, top: nat) returns (i: nat)
    requires PoolInv(pool) && Ordered(pool, consults) && !Finished(pool)
    requires forall t, l :: 0 <= t < |pool| && l in pool[t].held ==> Rank(l, consults) <= top
    ensures CanStep(pool, i)
  {
    if k :| 0 <= k < |pool| && HoldsRank(pool[k], top, consults) {
      i := k;
      assert pool[k].code != [];
    } else if top > 0 {
      forall t, l | 0 <= t < |pool| && l in pool[t].held ensures Rank(l, consults) <= top - 1 {
        assert !HoldsRank(pool[t], top, consults);
      }
      i := TopMoves(pool, consults, top - 1);
    } else {
      var k :| 0 <= k < |pool| && !(pool[k].code == [] && pool[k].held == {});
      i := k;
      assert forall t :: 0 <= t < |pool| ==> !HoldsRank(pool[t], 0, consults);
      assert forall t :: 0 <= t < |pool| ==> pool[t].held == {};
    }
  }

  /** No deadlock: as long as some thread is unfinished, some thread can move. */
  lemma Progress(pool: Pool) returns (i: nat)
    requires PoolInv(pool) && !Finished(pool)
    ensures CanStep(pool, i)
  {
    var consults := SomeOrder(pool);
    i := TopMoves(pool, consults, 5);
  }

  ghost function Work(pool: Pool): nat {
    if pool == [] then 0 else |pool[0].code| + Work(pool[1..])
  }

  lemma {:induction false} WorkStep(pool: Pool, i: nat, t: Thread)
    requires i < |pool| && |t.code| + 1 == |pool[i].code|
    ensures Work(pool[i := t]) + 1 == Work(pool)
  {
    if i > 0 {
      assert pool[i := t][1..] == pool[1..][i - 1 := t];
      WorkStep(pool[1..], i - 1, t);
    }
  }

  /** Every run is finite, and from wherever it stands the pool can finish. */
  lemma {:induction false} CompletesFrom(pool: Pool)
    requires PoolInv(pool)
    ensures CanFinish(pool)
    decreases Work(pool)
  {
    if Finished(pool) {
      assert Finishes(pool, []);
    } else {
      var i := Progress(pool);
      StepKeeps(pool, i);
      WorkStep(pool, i, Stepped(pool[i]));
      var next := Step(pool, i).value;
      CompletesFrom(next);
      var rest :| Finishes(next, rest);
      assert ([i] + rest)[1..] == rest;
      assert Finishes(pool, [i] + rest);
    }
  }

  lemma {:induction false} RunsAreFinite(pool: Pool, schedule: seq<nat>)
    requires Execute(pool, schedule).Some?
    ensures |schedule| + Work(Execute(pool, schedule).value) == Work(pool)
    decreases |schedule|
  {
    if schedule != [] {
      WorkStep(pool, schedule[0], Stepped(pool[schedule[0]]));
      RunsAreFinite(Step(pool, schedule[0]).value, schedule[1..]);
    }
  }

  // ---- Deadlock ----

  ghost predicate WaitsFor(a: Thread, b: Thread) {
    a.code != [] && a.code[0].Acquire? && a.code[0].lock in b.held
  }

  ghost predicate Deadlocked(pool: Pool, i: nat, j: nat) {
    i < |pool| && j < |pool| && WaitsFor(pool[i], pool[j]) && WaitsFor(pool[j], pool[i])
  }

  /** Two threads that wait for each other wait forever, whatever the others do. */
  lemma {:induction false} DeadlockStays(pool: Pool, i: nat, j: nat, schedule: seq<nat>)
    requires Deadlocked(pool, i, j)
    ensures !Finishes(pool, schedule)
    decreases |schedule|
  {
    if schedule != [] && CanStep(pool, schedule[0]) {
      DeadlockStays(Step(pool, schedule[0]).value, i, j, schedule[1..]);
    }
  }

  // ---- Running one thread alone ----

  /** None of the locks a stretch of code takes is held by another thread. */
  ghost predicate Undisturbed(pool: Pool, i: nat, code: seq<Action>) {
    forall l, k :: Acquires(code, l) && 0 <= k < |pool| && k != i ==> l !in pool[k].held
  }

  /** An undisturbed thread can run a stretch of its program without the others moving. */
  lemma {:induction false} RunAlone(pool: Pool, i: nat, p: seq<Action>, q: seq<Action>) returns (schedule: seq<nat>)
    requires i < |pool| && pool[i].code == p + q
    requires Obeys(pool[i].held, p, pool[i].plan).Some?
    requires Undisturbed(pool, i, p)
    ensures Execute(pool, schedule) ==
            Some(pool[i := Thread(Obeys(pool[i].held, p, pool[i].plan).value, q, pool[i].plan)])
    decreases |p|
  {
    schedule := [];
    if p == [] {
      assert p + q == q;
      assert pool[i] == Thread(Obeys(pool[i].held, p, pool[i].plan).value, q, pool[i].plan);
      assert pool[i := pool[i]] == pool;
    } else {
      assert (p + q)[0] == p[0] && (p + q)[1..] == p[1..] + q;
      StepsAlone(pool, i, p[0], p);
      var next := Step(pool, i).value;
      forall l | Acquires(p[1..], l) ensures Acquires(p, l) {
        var k :| 0 <= k < |p[1..]| && p[1..][k] == Acquire(l);
        assert p[k + 1] == Acquire(l);
      }
      var rest := RunAlone(next, i, p[1..], q);
      schedule := [i] + rest;
      assert schedule[1..] == rest;
      ghost var last := Thread(Obeys(pool[i].held, p, pool[i].plan).value, q, pool[i].plan);
      assert next[i := last] == pool[i := last];
    }
  }

  lemma StepsAlone(pool: Pool, i: nat, a: Action, p: seq<Action>)
    requires i < |pool| && pool[i].code != [] && pool[i].code[0] == a && p != [] && p[0] == a
    requires InOrder(pool[i].held, a, pool[i].plan) && Undisturbed(pool, i, p)
    ensures CanStep(pool, i)
  {
    if a.Acquire? {
      assert Acquires(p, a.lock);
    }
  }
}

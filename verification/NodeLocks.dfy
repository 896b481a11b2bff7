/**
 The shapes of the node's lock programs. A program is a list of stages, each under the
 chain tracker or not; a stage is a list of parts, each under the channel map or not; a
 part visits channel slots one at a time or takes the node state. Block processing holds
 the tracker, and feeds each listening monitor under that monitor's own mutex, from which
 the monitor's commitment-point provider locks the channel slot. `NodeOperations` writes
 the source's operations out and fits each to such a shape.

 Main result (`AlwaysCompletes`): a pool of any such programs, interleaved in any way,
 can always run to completion, and never gets stuck, if and only if no program reads
 a monitor under its slot outside the tracker while a block in the pool makes the same
 monitor consult its provider.
 */
module NodeLocks {
  import opened Options
  import opened Locks

  /** What a channel does while its slot is locked: it reads its monitor, or it takes the node
      state and reads its monitor some number of times under it. */
  datatype Use = MonitorUse | StateUse(looks: nat)

  datatype Item = Visit(id: ChannelId, uses: seq<Use>) | TakeState

  datatype Part = Part(channels: bool, items: seq<Item>)

  datatype Stage = Stage(tracker: bool, parts: seq<Part>)

  /** A monitor fed one block, and whether each call to its provider also takes the node state. */
  datatype Listener = Listener(id: ChannelId, calls: seq<bool>)

  datatype Op = Node(stages: seq<Stage>) | Blocks(listeners: seq<Listener>)

  // ---- Programs ----

  function Guarded(l: Lock, body: seq<Action>): seq<Action> {
    [Acquire(l)] + body + [Release(l)]
  }

  function LooksCode(id: ChannelId, looks: nat): seq<Action> {
    if looks == 0 then [] else Guarded(Monitor(id), []) + LooksCode(id, looks - 1)
  }

  function UseCode(id: ChannelId, use: Use): seq<Action> {
    match use
    case MonitorUse => Guarded(Monitor(id), [])
    case StateUse(looks) => Guarded(NodeState, LooksCode(id, looks))
  }

  function UsesCode(id: ChannelId, uses: seq<Use>): seq<Action> {
    if uses == [] then [] else UseCode(id, uses[0]) + UsesCode(id, uses[1..])
  }

  function ItemCode(item: Item): seq<Action> {
    match item
    case Visit(id, uses) => Guarded(Slot(id), UsesCode(id, uses))
    case TakeState => Guarded(NodeState, [])
  }

  function ItemsCode(items: seq<Item>): seq<Action> {
    if items == [] then [] else ItemCode(items[0]) + ItemsCode(items[1..])
  }

  function PartCode(part: Part): seq<Action> {
    if part.channels then Guarded(Channels, ItemsCode(part.items)) else ItemsCode(part.items)
  }

  function PartsCode(parts: seq<Part>): seq<Action> {
    if parts == [] then [] else PartCode(parts[0]) + PartsCode(parts[1..])
  }

  function StageCode(stage: Stage): seq<Action> {
    if stage.tracker then Guarded(Tracker, PartsCode(stage.parts)) else PartsCode(stage.parts)
  }

  function StagesCode(stages: seq<Stage>): seq<Action> {
    if stages == [] then [] else StageCode(stages[0]) + StagesCode(stages[1..])
  }

  function CallCode(id: ChannelId, takesState: bool): seq<Action> {
    Guarded(Slot(id), if takesState then Guarded(NodeState, []) else [])
  }

  function CallsCode(id: ChannelId, calls: seq<bool>): seq<Action> {
    if calls == [] then [] else CallCode(id, calls[0]) + CallsCode(id, calls[1..])
  }

  /** The monitor is locked while the block is decoded, and again to commit the changes. */
  function ListenerCode(l: Listener): seq<Action> {
    Guarded(Monitor(l.id), CallsCode(l.id, l.calls)) + Guarded(Monitor(l.id), [])
  }

  function ListenersCode(ls: seq<Listener>): seq<Action> {
    if ls == [] then [] else ListenerCode(ls[0]) + ListenersCode(ls[1..])
  }

  function Code(op: Op): seq<Action> {
    match op
    case Node(stages) => StagesCode(stages)
    case Blocks(ls) => Guarded(Tracker, ListenersCode(ls))
  }

  // ---- What they do with monitors ----

  predicate Reads(use: Use) {
    use.MonitorUse? || use.looks > 0
  }

  predicate AnyReads(uses: seq<Use>) {
    exists use :: use in uses && Reads(use)
  }

  predicate UsesMonitor(item: Item) {
    item.Visit? && AnyReads(item.uses)
  }

  function ItemsView(items: seq<Item>): set<ChannelId> {
    set item | item in items && UsesMonitor(item) :: item.id
  }

  function PartsView(parts: seq<Part>): set<ChannelId> {
    if parts == [] then {} else ItemsView(parts[0].items) + PartsView(parts[1..])
  }

  function StagesView(stages: seq<Stage>): set<ChannelId> {
    if stages == [] then {}
    else (if stages[0].tracker then {} else PartsView(stages[0].parts)) + StagesView(stages[1..])
  }

  /** The monitors read under their slot outside the tracker. */
  function Views(op: Op): set<ChannelId> {
    if op.Node? then StagesView(op.stages) else {}
  }

  /** The monitors that call their provider. */
  function Consults(op: Op): set<ChannelId> {
    if op.Blocks? then set l | l in op.listeners && l.calls != [] :: l.id else {}
  }

  ghost predicate Clash(ops: seq<Op>) {
    exists i, j :: 0 <= i < |ops| && 0 <= j < |ops| && Consults(ops[i]) * Views(ops[j]) != {}
  }

  ghost function Start(ops: seq<Op>): Pool {
    seq(|ops|, i requires 0 <= i < |ops| => Thread({}, Code(ops[i]), Plan(Consults(ops[i]), Views(ops[i]))))
  }

  // ---- Every program obeys the order ----

  /** A stretch of code that is in order and gives back what it takes. */
  ghost predicate Closed(held: set<Lock>, code: seq<Action>, plan: Plan) {
    Obeys(held, code, plan) == Some(held)
  }

  lemma GuardedClosed(held: set<Lock>, l: Lock, body: seq<Action>, plan: Plan)
    requires InOrder(held, Acquire(l), plan) && Closed(held + {l}, body, plan)
    ensures Closed(held, Guarded(l, body), plan)
    ensures ViewsOf(held, Guarded(l, body)) ==
            (if l.Monitor? && Tracker !in held then {l.id} else {}) + ViewsOf(held + {l}, body)
  {
    var code := [Acquire(l)] + body;
    assert l !in held;
    Prefixed(held, Acquire(l), body, plan);
    assert held + {l} - {l} == held;
    assert l == Tracker ==> held == {};
    assert [Release(l)][1..] == [];
    ObeysAppend(held, code, [Release(l)], plan);
    ViewsAppend(held, code, [Release(l)], plan);
    assert code[1..] == body;
  }

  lemma AppendClosed(held: set<Lock>, p: seq<Action>, q: seq<Action>, plan: Plan)
    requires Closed(held, p, plan) && Closed(held, q, plan)
    ensures Closed(held, p + q, plan)
    ensures ViewsOf(held, p + q) == ViewsOf(held, p) + ViewsOf(held, q)
  {
    ObeysAppend(held, p, q, plan);
    ViewsAppend(held, p, q, plan);
  }

  /** The monitors seen by code that runs with or without the tracker. */
  function Seen(held: set<Lock>, views: set<ChannelId>): set<ChannelId> {
    if Tracker in held then {} else views
  }

  ghost predicate PlainPlan(held: set<Lock>, plan: Plan, views: set<ChannelId>) {
    plan.consults == {} && Seen(held, views) <= plan.views
  }

  lemma {:induction false} LooksClosed(held: set<Lock>, id: ChannelId, looks: nat, plan: Plan)
    requires held <= {Tracker, Channels, Slot(id), NodeState} && Slot(id) in held
    requires PlainPlan(held, plan, if looks > 0 then {id} else {})
    ensures Closed(held, LooksCode(id, looks), plan)
    ensures ViewsOf(held, LooksCode(id, looks)) == Seen(held, if looks > 0 then {id} else {})
    decreases looks
  {
    if looks > 0 {
      GuardedClosed(held, Monitor(id), [], plan);
      LooksClosed(held, id, looks - 1, plan);
      AppendClosed(held, Guarded(Monitor(id), []), LooksCode(id, looks - 1), plan);
    }
  }

  lemma UseClosed(held: set<Lock>, id: ChannelId, use: Use, plan: Plan)
    requires held <= {Tracker, Channels, Slot(id)} && Slot(id) in held
    requires PlainPlan(held, plan, if Reads(use) then {id} else {})
    ensures Closed(held, UseCode(id, use), plan)
    ensures ViewsOf(held, UseCode(id, use)) == Seen(held, if Reads(use) then {id} else {})
  {
    match use {
      case MonitorUse => GuardedClosed(held, Monitor(id), [], plan);
      case StateUse(looks) =>
        LooksClosed(held + {NodeState}, id, looks, plan);
        GuardedClosed(held, NodeState, LooksCode(id, looks), plan);
    }
  }

  function UsesView(id: ChannelId, uses: seq<Use>): set<ChannelId> {
    if AnyReads(uses) then {id} else {}
  }

  lemma {:induction false} UsesClosed(held: set<Lock>, id: ChannelId, uses: seq<Use>, plan: Plan)
    requires held <= {Tracker, Channels, Slot(id)} && Slot(id) in held
    requires PlainPlan(held, plan, UsesView(id, uses))
    ensures Closed(held, UsesCode(id, uses), plan)
    ensures ViewsOf(held, UsesCode(id, uses)) == Seen(held, UsesView(id, uses))
  {
    if uses != [] {
      assert uses == [uses[0]] + uses[1..];
      UseClosed(held, id, uses[0], plan);
      UsesClosed(held, id, uses[1..], plan);
      AppendClosed(held, UseCode(id, uses[0]), UsesCode(id, uses[1..]), plan);
    }
  }

  function ItemView(item: Item): set<ChannelId> {
    if UsesMonitor(item) then {item.id} else {}
  }

  lemma ItemClosed(held: set<Lock>, item: Item, plan: Plan)
    requires held <= {Tracker, Channels} && PlainPlan(held, plan, ItemView(item))
    ensures Closed(held, ItemCode(item), plan)
    ensures ViewsOf(held, ItemCode(item)) == Seen(held, ItemView(item))
  {
    match item {
      case Visit(id, uses) =>
        UsesClosed(held + {Slot(id)}, id, uses, plan);
        GuardedClosed(held, Slot(id), UsesCode(id, uses), plan);
      case TakeState =>
        GuardedClosed(held, NodeState, [], plan);
    }
  }

  lemma ItemsViewSplit(items: seq<Item>)
    requires items != []
    ensures ItemsView(items) == ItemView(items[0]) + ItemsView(items[1..])
  {
    assert items == [items[0]] + items[1..];
  }

  lemma {:induction false} ItemsClosed(held: set<Lock>, items: seq<Item>, plan: Plan)
    requires held <= {Tracker, Channels} && PlainPlan(held, plan, ItemsView(items))
    ensures Closed(held, ItemsCode(items), plan)
    ensures ViewsOf(held, ItemsCode(items)) == Seen(held, ItemsView(items))
  {
    if items != [] {
      ItemsViewSplit(items);
      ItemClosed(held, items[0], plan);
      ItemsClosed(held, items[1..], plan);
      AppendClosed(held, ItemCode(items[0]), ItemsCode(items[1..]), plan);
    }
  }

  lemma PartClosed(held: set<Lock>, part: Part, plan: Plan)
    requires held <= {Tracker} && PlainPlan(held, plan, ItemsView(part.items))
    ensures Closed(held, PartCode(part), plan)
    ensures ViewsOf(held, PartCode(part)) == Seen(held, ItemsView(part.items))
  {
    if part.channels {
      ItemsClosed(held + {Channels}, part.items, plan);
      GuardedClosed(held, Channels, ItemsCode(part.items), plan);
    } else {
      ItemsClosed(held, part.items, plan);
    }
  }

  lemma {:induction false} PartsClosed(held: set<Lock>, parts: seq<Part>, plan: Plan)
    requires held <= {Tracker} && PlainPlan(held, plan, PartsView(parts))
    ensures Closed(held, PartsCode(parts), plan)
    ensures ViewsOf(held, PartsCode(parts)) == Seen(held, PartsView(parts))
  {
    if parts != [] {
      PartClosed(held, parts[0], plan);
      PartsClosed(held, parts[1..], plan);
      AppendClosed(held, PartCode(parts[0]), PartsCode(parts[1..]), plan);
    }
  }

  lemma StageClosed(stage: Stage, plan: Plan)
    requires PlainPlan({}, plan, if stage.tracker then {} else PartsView(stage.parts))
    ensures Closed({}, StageCode(stage), plan)
    ensures ViewsOf({}, StageCode(stage)) == if stage.tracker then {} else PartsView(stage.parts)
  {
    if stage.tracker {
      PartsClosed({} + {Tracker}, stage.parts, plan);
      GuardedClosed({}, Tracker, PartsCode(stage.parts), plan);
    } else {
      PartsClosed({}, stage.parts, plan);
    }
  }

  lemma {:induction false} StagesClosed(stages: seq<Stage>, plan: Plan)
    requires PlainPlan({}, plan, StagesView(stages))
    ensures Closed({}, StagesCode(stages), plan)
    ensures ViewsOf({}, StagesCode(stages)) == StagesView(stages)
  {
    if stages != [] {
      StageClosed(stages[0], plan);
      StagesClosed(stages[1..], plan);
      AppendClosed({}, StageCode(stages[0]), StagesCode(stages[1..]), plan);
    }
  }

  lemma CallClosed(id: ChannelId, takesState: bool, plan: Plan)
    requires id in plan.consults
    ensures Closed({Tracker, Monitor(id)}, CallCode(id, takesState), plan)
  {
    var held := {Tracker, Monitor(id)};
    if takesState {
      GuardedClosed(held + {Slot(id)}, NodeState, [], plan);
    }
    GuardedClosed(held, Slot(id), if takesState then Guarded(NodeState, []) else [], plan);
  }

  lemma {:induction false} CallsClosed(id: ChannelId, calls: seq<bool>, plan: Plan)
    requires calls != [] ==> id in plan.consults
    ensures Closed({Tracker, Monitor(id)}, CallsCode(id, calls), plan)
  {
    if calls != [] {
      CallClosed(id, calls[0], plan);
      CallsClosed(id, calls[1..], plan);
      AppendClosed({Tracker, Monitor(id)}, CallCode(id, calls[0]), CallsCode(id, calls[1..]), plan);
    }
  }

  lemma ListenerClosed(l: Listener, plan: Plan)
    requires l.calls != [] ==> l.id in plan.consults
    ensures Closed({Tracker}, ListenerCode(l), plan)
  {
    CallsClosed(l.id, l.calls, plan);
    assert {Tracker} + {Monitor(l.id)} == {Tracker, Monitor(l.id)};
    GuardedClosed({Tracker}, Monitor(l.id), CallsCode(l.id, l.calls), plan);
    GuardedClosed({Tracker}, Monitor(l.id), [], plan);
    AppendClosed({Tracker}, Guarded(Monitor(l.id), CallsCode(l.id, l.calls)), Guarded(Monitor(l.id), []), plan);
  }

  lemma {:induction false} ListenersClosed(ls: seq<Listener>, plan: Plan)
    requires forall l :: l in ls && l.calls != [] ==> l.id in plan.consults
    ensures Closed({Tracker}, ListenersCode(ls), plan)
  {
    if ls != [] {
      ListenerClosed(ls[0], plan);
      ListenersClosed(ls[1..], plan);
      AppendClosed({Tracker}, ListenerCode(ls[0]), ListenersCode(ls[1..]), plan);
    }
  }

  /** Every operation obeys the lock order, and reads exactly the monitors listed outside the tracker. */
  lemma OpObeys(op: Op)
    ensures Obeys({}, Code(op), Plan(Consults(op), Views(op))) == Some({})
    ensures op.Node? ==> ViewsOf({}, Code(op)) == Views(op)
  {
    var plan := Plan(Consults(op), Views(op));
    match op {
      case Node(stages) => StagesClosed(stages, plan);
      case Blocks(ls) =>
        ListenersClosed(ls, plan);
        assert {} + {Tracker} == {Tracker};
        GuardedClosed({}, Tracker, ListenersCode(ls), plan);
    }
  }

  // ---- The way into a deadlock ----

  /** A block reaches the monitor with only the tracker held, and asks for the slot right under it. */
  lemma {:induction false} FindConsult(ls: seq<Listener>, c: ChannelId, plan: Plan)
    returns (p: seq<Action>, q: seq<Action>)
    requires exists l :: l in ls && l.id == c && l.calls != []
    requires forall l :: l in ls && l.calls != [] ==> l.id in plan.consults
    ensures ListenersCode(ls) == p + [Acquire(Monitor(c)), Acquire(Slot(c))] + q
    ensures Closed({Tracker}, p, plan)
  {
    if ls[0].id == c && ls[0].calls != [] {
      p := [];
      q := ConsultFirst(ls, c);
    } else {
      var p', q' := FindConsult(ls[1..], c, plan);
      p, q := ListenerCode(ls[0]) + p', q';
      ListenerClosed(ls[0], plan);
      AppendClosed({Tracker}, ListenerCode(ls[0]), p', plan);
      assert ListenersCode(ls) == ListenerCode(ls[0]) + (p' + [Acquire(Monitor(c)), Acquire(Slot(c))] + q);
    }
  }

  lemma ConsultFirst(ls: seq<Listener>, c: ChannelId) returns (q: seq<Action>)
    requires ls != [] && ls[0].id == c && ls[0].calls != []
    ensures ListenersCode(ls) == [] + [Acquire(Monitor(c)), Acquire(Slot(c))] + q
  {
    var code := ListenersCode(ls);
    var calls := CallsCode(c, ls[0].calls);
    assert calls[0] == Acquire(Slot(c));
    assert |code| >= 2 && code[0] == Acquire(Monitor(c)) && code[1] == calls[0];
    q := code[2..];
  }

  /** The same, from the start of the operation. */
  lemma FindBlock(op: Op, c: ChannelId) returns (p: seq<Action>, grab: seq<Action>)
    requires c in Consults(op)
    ensures Code(op) == p + grab && Obeys({}, p, Plan(Consults(op), Views(op))) == Some({Tracker})
    ensures |grab| >= 2 && grab[0] == Acquire(Monitor(c)) && grab[1] == Acquire(Slot(c))
  {
    var plan := Plan(Consults(op), Views(op));
    var p', q := FindConsult(op.listeners, c, plan);
    p := [Acquire(Tracker)] + p';
    grab := [Acquire(Monitor(c)), Acquire(Slot(c))] + q + [Release(Tracker)];
    assert {} + {Tracker} == {Tracker};
    Prefixed({}, Acquire(Tracker), p', plan);
  }

  ghost predicate Idle(pool: Pool, but: set<nat>) {
    forall k :: 0 <= k < |pool| && k !in but ==> pool[k].held == {}
  }

  /** The reader runs to where it holds nothing, the block to where it holds only the tracker. */
  lemma Approach(pool: Pool, i: nat, j: nat, bp: seq<Action>, grab: seq<Action>, rp: seq<Action>, rest: seq<Action>)
    returns (schedule: seq<nat>)
    requires i < |pool| && j < |pool| && i != j && Idle(pool, {})
    requires pool[i].code == bp + grab && Obeys({}, bp, pool[i].plan) == Some({Tracker})
    requires pool[j].code == rp + rest && Obeys({}, rp, pool[j].plan) == Some({})
    ensures Execute(pool, schedule) ==
            Some(pool[j := Thread({}, rest, pool[j].plan)][i := Thread({Tracker}, grab, pool[i].plan)])
  {
    var s1 := RunAlone(pool, j, rp, rest);
    var pool1 := pool[j := Thread({}, rest, pool[j].plan)];
    assert Idle(pool1, {});
    var s2 := RunAlone(pool1, i, bp, grab);
    ExecuteAppend(pool, s1, s2);
    schedule := s1 + s2;
  }

  /** The reader takes the slot, the block takes the monitor, and each wants what the other has. */
  lemma Meet(pool: Pool, i: nat, j: nat, c: ChannelId, grab: seq<Action>, q: seq<Action>, want: seq<Action>)
    returns (schedule: seq<nat>)
    requires i < |pool| && j < |pool| && i != j && Idle(pool, {i, j})
    requires |grab| >= 2 && grab[0] == Acquire(Monitor(c)) && grab[1] == Acquire(Slot(c))
    requires pool[i].held == {Tracker} && pool[i].code == grab
    requires want != [] && want[0] == Acquire(Monitor(c))
    requires pool[j].held == {} && pool[j].code == q + want && !Acquires(q, Tracker)
    requires Obeys({}, q, pool[j].plan).Some? && Slot(c) in Obeys({}, q, pool[j].plan).value
    requires Monitor(c) !in Obeys({}, q, pool[j].plan).value
    ensures Execute(pool, schedule).Some? && Deadlocked(Execute(pool, schedule).value, i, j)
  {
    var s := RunAlone(pool, j, q, want);
    var next := pool[j := Thread(Obeys({}, q, pool[j].plan).value, want, pool[j].plan)];
    assert CanStep(next, i);
    assert Execute(next, [i]) == Step(next, i);
    ExecuteAppend(pool, s, [i]);
    schedule := s + [i];
  }

  lemma Collide(pool: Pool, i: nat, j: nat, c: ChannelId, bp: seq<Action>, grab: seq<Action>,
                rp: seq<Action>, rq: seq<Action>, want: seq<Action>) returns (schedule: seq<nat>)
    requires i < |pool| && j < |pool| && i != j && Idle(pool, {})
    requires pool[i].code == bp + grab && Obeys({}, bp, pool[i].plan) == Some({Tracker})
    requires |grab| >= 2 && grab[0] == Acquire(Monitor(c)) && grab[1] == Acquire(Slot(c))
    requires pool[j].code == rp + (rq + want) && Obeys({}, rp, pool[j].plan) == Some({})
    requires want != [] && want[0] == Acquire(Monitor(c)) && !Acquires(rq, Tracker)
    requires Obeys({}, rq, pool[j].plan).Some? && Slot(c) in Obeys({}, rq, pool[j].plan).value
    requires Monitor(c) !in Obeys({}, rq, pool[j].plan).value
    ensures Execute(pool, schedule).Some? && Deadlocked(Execute(pool, schedule).value, i, j)
  {
    var s1 := Approach(pool, i, j, bp, grab, rp, rq + want);
    var met := Execute(pool, s1).value;
    var s2 := Meet(met, i, j, c, grab, rq, want);
    ExecuteAppend(pool, s1, s2);
    schedule := s1 + s2;
  }

  /** Where a reader holds the slot and wants the monitor. */
  lemma FindReader(op: Op, plan: Plan, c: ChannelId) returns (p: seq<Action>, q: seq<Action>, want: seq<Action>)
    requires c in Views(op) && plan == Plan(Consults(op), Views(op))
    ensures Code(op) == p + (q + want)
    ensures Obeys({}, p, plan) == Some({}) && !Acquires(q, Tracker)
    ensures Obeys({}, q, plan).Some? && Slot(c) in Obeys({}, q, plan).value
    ensures Monitor(c) !in Obeys({}, q, plan).value
    ensures want != [] && want[0] == Acquire(Monitor(c))
  {
    OpObeys(op);
    var rest: seq<Action>;
    p, q, rest := FindView({}, Code(op), plan, c);
    assert Obeys({}, p, plan) == Some({});
    ViewFree(Code(op), plan, p, q, rest, c);
    want := [Acquire(Monitor(c))] + rest;
    Regroup(p, q, [Acquire(Monitor(c))], rest);
  }

  lemma Regroup(p: seq<Action>, q: seq<Action>, a: seq<Action>, rest: seq<Action>)
    ensures p + q + a + rest == p + (q + (a + rest))
  {
  }

  /** A clash leads to a reachable state from which the pool never finishes. */
  lemma ClashDeadlocks(ops: seq<Op>, i: nat, j: nat, c: ChannelId) returns (schedule: seq<nat>)
    requires i < |ops| && j < |ops| && c in Consults(ops[i]) && c in Views(ops[j])
    ensures Execute(Start(ops), schedule).Some? && !CanFinish(Execute(Start(ops), schedule).value)
  {
    var pool := Start(ops);
    var bp, grab := FindBlock(ops[i], c);
    var rp, rq, want := FindReader(ops[j], pool[j].plan, c);
    schedule := Collide(pool, i, j, c, bp, grab, rp, rq, want);
    forall rest ensures !Finishes(Execute(pool, schedule).value, rest) {
      DeadlockStays(Execute(pool, schedule).value, i, j, rest);
    }
  }

  lemma ViewFree(code: seq<Action>, plan: Plan, p: seq<Action>, q: seq<Action>, rest: seq<Action>, c: ChannelId)
    requires code == p + q + [Acquire(Monitor(c))] + rest && Obeys({}, code, plan).Some?
    requires Obeys({}, p, plan) == Some({}) && Obeys({}, q, plan).Some?
    ensures Monitor(c) !in Obeys({}, q, plan).value
  {
    var want := [Acquire(Monitor(c))] + rest;
    assert code == p + (q + want);
    ObeysAppend({}, p, q + want, plan);
    ObeysAppend({}, q, want, plan);
    assert want[0] == Acquire(Monitor(c));
    assert InOrder(Obeys({}, q, plan).value, want[0], plan);
  }

  // ---- The theorem ----

  /** From every state the operations can reach, they can all still finish. */
  ghost predicate NeverDeadlocks(ops: seq<Op>) {
    forall schedule :: Execute(Start(ops), schedule).Some? ==> CanFinish(Execute(Start(ops), schedule).value)
  }

  lemma StartInv(ops: seq<Op>)
    requires !Clash(ops)
    ensures PoolInv(Start(ops))
  {
    var pool := Start(ops);
    forall i | 0 <= i < |pool| ensures ThreadInv(pool[i]) {
      OpObeys(ops[i]);
    }
    forall i, j | 0 <= i < |pool| && 0 <= j < |pool| ensures pool[i].plan.consults !! pool[j].plan.views {
      assert Consults(ops[i]) * Views(ops[j]) == {};
    }
  }

  lemma AlwaysCompletes(ops: seq<Op>)
    ensures NeverDeadlocks(ops) <==> !Clash(ops)
    ensures !Clash(ops) ==>
              forall schedule :: Execute(Start(ops), schedule).Some? ==>
                var pool := Execute(Start(ops), schedule).value;
                Exclusive(pool) && (Finished(pool) || exists i :: CanStep(pool, i))
  {
    if Clash(ops) {
      var i, j :| 0 <= i < |ops| && 0 <= j < |ops| && Consults(ops[i]) * Views(ops[j]) != {};
      var c :| c in Consults(ops[i]) * Views(ops[j]);
      var schedule := ClashDeadlocks(ops, i, j, c);
    } else {
      StartInv(ops);
      forall schedule | Execute(Start(ops), schedule).Some?
        ensures CanFinish(Execute(Start(ops), schedule).value)
        ensures var pool := Execute(Start(ops), schedule).value;
                Exclusive(pool) && (Finished(pool) || exists i :: CanStep(pool, i))
      {
        ExecuteKeeps(Start(ops), schedule);
        var pool := Execute(Start(ops), schedule).value;
        CompletesFrom(pool);
        if !Finished(pool) {
          var i := Progress(pool);
        }
      }
    }
  }
}

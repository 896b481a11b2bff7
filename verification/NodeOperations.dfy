/**
 The node's operations, each with the mutexes it takes and releases in source order, in
 pools of any size and interleaving.

 Main result (`OperationsComplete`): the operations can always finish if and only if none of
 them reads, under a channel's slot and without the tracker, the monitor of a channel that a
 block in the pool makes call its provider. `Viewed` lists who does: signing calls that look
 at the chain, balances, channel information, forgetting a ready channel, and the balances of
 a heartbeat; not its pruning, nor creating, setting up, splicing or funding a channel.
 */
module NodeOperations {
  import opened Options
  import opened Locks
  import opened NodeLocks

  /** A channel slot as an operation finds it. */
  datatype Found = Found(id: ChannelId, ready: bool)

  datatype Operation =
    | WithChannel(id: ChannelId, uses: seq<Use>)
    | NoSuchChannel
    | ChannelBalance(slots: seq<Found>)
    | ChannelInfo(slots: seq<Found>)
    | ForgetChannel(slot: Found)
    | GetHeartbeat(balanced: seq<Found>, present: seq<Found>, pruned: seq<ChannelId>)
    | FindOrCreateChannel(existing: Option<ChannelId>)
    | CheckOnchainTx(lookups: seq<ChannelId>, outputs: seq<Option<ChannelId>>)
    | SignOnchainTx(lookups: seq<ChannelId>, funded: seq<ChannelId>)
    | SetupChannel(id: ChannelId, inserted: ChannelId)
    | SpliceChannel(id: ChannelId)
    | AddBlock(listeners: seq<Listener>)

  // ---- Programs ----

  /** Visits of the slots found, using what only ready channels have. */
  function Visits(slots: seq<Found>, uses: seq<Use>): seq<Item> {
    seq(|slots|, i requires 0 <= i < |slots| => Visit(slots[i].id, if slots[i].ready then uses else []))
  }

  /** Slots locked only to look at what they hold. */
  function Looks(ids: seq<ChannelId>): seq<Item> {
    seq(|ids|, i requires 0 <= i < |ids| => Visit(ids[i], []))
  }

  /** Slots whose channel's monitor is also reached. */
  function Touches(ids: seq<ChannelId>): seq<Item> {
    seq(|ids|, i requires 0 <= i < |ids| => Visit(ids[i], [MonitorUse]))
  }

  /** Each output asks the allowlist; some turn out to fund a channel. */
  function Outputs(outputs: seq<Option<ChannelId>>): seq<Item> {
    if outputs == [] then []
    else (if outputs[0].Some? then [TakeState, Visit(outputs[0].value, [])] else [TakeState]) + Outputs(outputs[1..])
  }

  /** `balance` takes the state, then the monitor; the information reads the monitor three times more. */
  const BALANCE: seq<Use> := [StateUse(1)]
  const INFO: seq<Use> := [MonitorUse, StateUse(1), MonitorUse, MonitorUse]

  function Lookup(): seq<Action> {
    Guarded(Channels, [])
  }

  /** What each operation acquires and releases, in order. */
  function Program(op: Operation): seq<Action> {
    match op
    case WithChannel(id, uses) => Lookup() + Guarded(Slot(id), UsesCode(id, uses))
    case NoSuchChannel => Lookup()
    case ChannelBalance(slots) => Lookup() + ItemsCode(Visits(slots, BALANCE))
    case ChannelInfo(slots) => Guarded(Channels, ItemsCode(Visits(slots, INFO)))
    case ForgetChannel(slot) =>
      Guarded(Channels,
              Guarded(Slot(slot.id), if slot.ready then Guarded(Monitor(slot.id), []) else []) + Guarded(NodeState, []))
    case GetHeartbeat(balanced, present, pruned) =>
      Guarded(NodeState, []) + Lookup() + ItemsCode(Visits(balanced, BALANCE))
      + Guarded(Tracker, Guarded(Channels, ItemsCode(Visits(present, [MonitorUse]) + Looks(pruned))))
    case FindOrCreateChannel(existing) =>
      Guarded(Tracker, []) + Guarded(Channels, if existing.Some? then Guarded(Slot(existing.value), []) else [])
    case CheckOnchainTx(lookups, outputs) =>
      Guarded(Channels, ItemsCode(Looks(lookups) + Outputs(outputs))) + Guarded(NodeState, [])
    case SignOnchainTx(lookups, funded) =>
      Guarded(Channels, ItemsCode(Looks(lookups))) + Guarded(Tracker, Guarded(Channels, ItemsCode(Touches(funded))))
    case SetupChannel(id, inserted) =>
      Guarded(Tracker,
              Lookup() + (Guarded(Slot(id), []) + (Guarded(Channels, Guarded(Slot(id), []))
              + (Guarded(NodeState, []) + Guarded(Channels, Guarded(Slot(inserted), []))))))
    case SpliceChannel(id) =>
      Guarded(Tracker,
              Lookup() + (Guarded(Slot(id), Guarded(Monitor(id), [])) + (Guarded(NodeState, []) + Guarded(Slot(id), []))))
    case AddBlock(ls) => Guarded(Tracker, ListenersCode(ls))
  }

  // ---- Their shapes ----

  function Shape(op: Operation): Op {
    match op
    case WithChannel(id, uses) => Node([Stage(false, [Part(true, []), Part(false, [Visit(id, uses)])])])
    case NoSuchChannel => Node([Stage(false, [Part(true, [])])])
    case ChannelBalance(slots) => Node([Stage(false, [Part(true, []), Part(false, Visits(slots, BALANCE))])])
    case ChannelInfo(slots) => Node([Stage(false, [Part(true, Visits(slots, INFO))])])
    case ForgetChannel(slot) =>
      Node([Stage(false, [Part(true, [Visit(slot.id, if slot.ready then [MonitorUse] else []), TakeState])])])
    case GetHeartbeat(balanced, present, pruned) =>
      Node([Stage(false, [Part(false, [TakeState]), Part(true, []), Part(false, Visits(balanced, BALANCE))]),
            Stage(true, [Part(true, Visits(present, [MonitorUse]) + Looks(pruned))])])
    case FindOrCreateChannel(existing) =>
      Node([Stage(true, []), Stage(false, [Part(true, if existing.Some? then [Visit(existing.value, [])] else [])])])
    case CheckOnchainTx(lookups, outputs) =>
      Node([Stage(false, [Part(true, Looks(lookups) + Outputs(outputs)), Part(false, [TakeState])])])
    case SignOnchainTx(lookups, funded) =>
      Node([Stage(false, [Part(true, Looks(lookups))]), Stage(true, [Part(true, Touches(funded))])])
    case SetupChannel(id, inserted) =>
      Node([Stage(true, [Part(true, []), Part(false, [Visit(id, [])]), Part(true, [Visit(id, [])]),
                         Part(false, [TakeState]), Part(true, [Visit(inserted, [])])])])
    case SpliceChannel(id) =>
      Node([Stage(true, [Part(true, []), Part(false, [Visit(id, [MonitorUse])]), Part(false, [TakeState]),
                         Part(false, [Visit(id, [])])])])
    case AddBlock(ls) => Blocks(ls)
  }

  /** The channels whose monitor is read under the slot without the tracker. */
  function Viewed(op: Operation): set<ChannelId> {
    match op
    case WithChannel(id, uses) => if AnyReads(uses) then {id} else {}
    case ChannelBalance(slots) => ReadyIds(slots)
    case ChannelInfo(slots) => ReadyIds(slots)
    case ForgetChannel(slot) => if slot.ready then {slot.id} else {}
    case GetHeartbeat(balanced, _, _) => ReadyIds(balanced)
    case _ => {}
  }

  function ReadyIds(slots: seq<Found>): set<ChannelId> {
    set slot | slot in slots && slot.ready :: slot.id
  }

  /** The channels whose monitor calls its provider for a block. */
  function Consulted(op: Operation): set<ChannelId> {
    if op.AddBlock? then set l | l in op.listeners && l.calls != [] :: l.id else {}
  }

  // ---- Every program has its shape ----

  lemma OneStage(stage: Stage)
    ensures StagesCode([stage]) == StageCode(stage)
    ensures StagesView([stage]) == if stage.tracker then {} else PartsView(stage.parts)
  {
    assert [stage][1..] == [];
    assert StageCode(stage) + [] == StageCode(stage);
  }

  lemma TwoStages(first: Stage, second: Stage)
    ensures StagesCode([first, second]) == StageCode(first) + StageCode(second)
    ensures StagesView([first, second]) == StagesView([first]) + StagesView([second])
  {
    OneStage(first);
    OneStage(second);
    assert [first, second][1..] == [second];
  }

  lemma PartsJoin(part: Part, rest: seq<Part>)
    ensures PartsCode([part] + rest) == PartCode(part) + PartsCode(rest)
    ensures PartsView([part] + rest) == ItemsView(part.items) + PartsView(rest)
  {
    assert ([part] + rest)[1..] == rest;
  }

  lemma OnePart(part: Part)
    ensures PartsCode([part]) == PartCode(part) && PartsView([part]) == ItemsView(part.items)
  {
    assert [part] == [part] + [];
    PartsJoin(part, []);
    assert PartCode(part) + [] == PartCode(part);
  }

  lemma TwoParts(first: Part, second: Part)
    ensures PartsCode([first, second]) == PartCode(first) + PartCode(second)
    ensures PartsView([first, second]) == ItemsView(first.items) + ItemsView(second.items)
  {
    assert [first, second] == [first] + [second];
    PartsJoin(first, [second]);
    OnePart(second);
  }

  lemma NoItems()
    ensures ItemsCode([]) == [] && ItemsView([]) == {}
  {
  }

  lemma OneItem(item: Item)
    ensures ItemsCode([item]) == ItemCode(item) && ItemsView([item]) == if UsesMonitor(item) then {item.id} else {}
  {
    assert [item][1..] == [];
    assert ItemCode(item) + [] == ItemCode(item);
  }

  lemma TwoItems(first: Item, second: Item)
    ensures ItemsCode([first, second]) == ItemCode(first) + ItemCode(second)
    ensures ItemsView([first, second]) == ItemsView([first]) + ItemsView([second])
  {
    OneItem(second);
    assert [first, second][1..] == [second];
  }

  lemma OneUse(id: ChannelId, use: Use)
    ensures UsesCode(id, [use]) == UseCode(id, use) && UsesCode(id, []) == []
  {
    assert [use][1..] == [];
    assert UseCode(id, use) + [] == UseCode(id, use);
  }

  lemma ReadingUses()
    ensures AnyReads(BALANCE) && AnyReads(INFO) && AnyReads([MonitorUse]) && !AnyReads([])
  {
    assert StateUse(1) in BALANCE && Reads(StateUse(1));
    assert MonitorUse in INFO && MonitorUse in [MonitorUse] && Reads(MonitorUse);
  }

  lemma ViewOfVisits(slots: seq<Found>, uses: seq<Use>)
    ensures ItemsView(Visits(slots, uses)) ==
            if AnyReads(uses) then ReadyIds(slots) else {}
  {
    var items := Visits(slots, uses);
    forall id | id in ReadyIds(slots) && AnyReads(uses) ensures id in ItemsView(items) {
      var i :| 0 <= i < |slots| && slots[i].ready && slots[i].id == id;
      assert items[i] in items && UsesMonitor(items[i]);
    }
    forall id | id in ItemsView(items) ensures id in ReadyIds(slots) {
      var i :| 0 <= i < |items| && UsesMonitor(items[i]) && items[i].id == id;
      assert slots[i] in slots;
    }
  }

  lemma {:induction false} ViewOfOutputs(outputs: seq<Option<ChannelId>>)
    ensures forall item :: item in Outputs(outputs) ==> !UsesMonitor(item)
  {
    if outputs != [] {
      ViewOfOutputs(outputs[1..]);
    }
  }

  lemma ShapeOfSigning(op: Operation)
    requires op.WithChannel? || op.NoSuchChannel? || op.ChannelBalance? || op.ChannelInfo?
    ensures Program(op) == Code(Shape(op)) && Views(Shape(op)) == Viewed(op)
  {
    NoItems();
    ReadingUses();
    OneStage(Shape(op).stages[0]);
    match op {
      case WithChannel(id, uses) =>
        TwoParts(Part(true, []), Part(false, [Visit(id, uses)]));
        OneItem(Visit(id, uses));
      case NoSuchChannel => OnePart(Part(true, []));
      case ChannelBalance(slots) =>
        TwoParts(Part(true, []), Part(false, Visits(slots, BALANCE)));
        ViewOfVisits(slots, BALANCE);
      case ChannelInfo(slots) =>
        OnePart(Part(true, Visits(slots, INFO)));
        ViewOfVisits(slots, INFO);
    }
  }

  lemma ShapeOfForget(slot: Found)
    ensures var op := ForgetChannel(slot); Program(op) == Code(Shape(op)) && Views(Shape(op)) == Viewed(op)
  {
    var visit := Visit(slot.id, if slot.ready then [MonitorUse] else []);
    OneStage(Shape(ForgetChannel(slot)).stages[0]);
    OnePart(Part(true, [visit, TakeState]));
    TwoItems(visit, TakeState);
    OneItem(visit);
    OneItem(TakeState);
    OneUse(slot.id, MonitorUse);
    ReadingUses();
  }

  lemma ShapeOfHeartbeat(balanced: seq<Found>, present: seq<Found>, pruned: seq<ChannelId>)
    ensures
      var op := GetHeartbeat(balanced, present, pruned);
      Program(op) == Code(Shape(op)) && Views(Shape(op)) == Viewed(op)
  {
    var op := GetHeartbeat(balanced, present, pruned);
    var first, second := Shape(op).stages[0], Shape(op).stages[1];
    var items := Visits(balanced, BALANCE);
    TwoStages(first, second);
    OneStage(first);
    OneStage(second);
    OnePart(second.parts[0]);
    assert first.parts == [Part(false, [TakeState])] + [Part(true, []), Part(false, items)];
    PartsJoin(Part(false, [TakeState]), [Part(true, []), Part(false, items)]);
    TwoParts(Part(true, []), Part(false, items));
    NoItems();
    OneItem(TakeState);
    ViewOfVisits(balanced, BALANCE);
    ReadingUses();
    Regrouped(Guarded(NodeState, []), Lookup(), ItemsCode(items), StageCode(second));
  }

  lemma Regrouped(a: seq<Action>, b: seq<Action>, c: seq<Action>, d: seq<Action>)
    ensures a + (b + c) + d == a + b + c + d
  {
  }

  lemma ShapeOfCreate(existing: Option<ChannelId>)
    ensures var op := FindOrCreateChannel(existing); Program(op) == Code(Shape(op)) && Views(Shape(op)) == Viewed(op)
  {
    var stages := Shape(FindOrCreateChannel(existing)).stages;
    TwoStages(stages[0], stages[1]);
    OneStage(stages[0]);
    OneStage(stages[1]);
    OnePart(stages[1].parts[0]);
    NoItems();
    if existing.Some? {
      OneItem(Visit(existing.value, []));
    }
  }

  lemma ShapeOfOnchain(op: Operation)
    requires op.CheckOnchainTx? || op.SignOnchainTx?
    ensures Program(op) == Code(Shape(op)) && Views(Shape(op)) == Viewed(op)
  {
    match op {
      case CheckOnchainTx(lookups, outputs) =>
        OneStage(Shape(op).stages[0]);
        TwoParts(Part(true, Looks(lookups) + Outputs(outputs)), Part(false, [TakeState]));
        OneItem(TakeState);
        ViewOfOutputs(outputs);
      case SignOnchainTx(lookups, funded) =>
        var first, second := Shape(op).stages[0], Shape(op).stages[1];
        TwoStages(first, second);
        OneStage(first);
        OneStage(second);
        OnePart(first.parts[0]);
        OnePart(second.parts[0]);
    }
  }

  lemma ShapeOfSplice(id: ChannelId)
    ensures var op := SpliceChannel(id); Program(op) == Code(Shape(op)) && Views(Shape(op)) == Viewed(op)
  {
    var stage := Shape(SpliceChannel(id)).stages[0];
    OneStage(stage);
    var replace, look := Visit(id, [MonitorUse]), Visit(id, []);
    var end := [Part(false, [TakeState]), Part(false, [look])];
    assert stage.parts == [Part(true, [])] + ([Part(false, [replace])] + end);
    PartsJoin(Part(true, []), [Part(false, [replace])] + end);
    PartsJoin(Part(false, [replace]), end);
    TwoParts(Part(false, [TakeState]), Part(false, [look]));
    NoItems();
    OneItem(replace);
    OneItem(TakeState);
    OneItem(look);
    OneUse(id, MonitorUse);
  }

  lemma ShapeOfSetup(id: ChannelId, inserted: ChannelId)
    ensures var op := SetupChannel(id, inserted); Program(op) == Code(Shape(op)) && Views(Shape(op)) == Viewed(op)
  {
    var stage := Shape(SetupChannel(id, inserted)).stages[0];
    OneStage(stage);
    var look, insert := Visit(id, []), Visit(inserted, []);
    var end := [Part(false, [TakeState]), Part(true, [insert])];
    assert stage.parts == [Part(true, [])] + ([Part(false, [look])] + ([Part(true, [look])] + end));
    PartsJoin(Part(true, []), [Part(false, [look])] + ([Part(true, [look])] + end));
    PartsJoin(Part(false, [look]), [Part(true, [look])] + end);
    PartsJoin(Part(true, [look]), end);
    TwoParts(Part(false, [TakeState]), Part(true, [insert]));
    NoItems();
    OneItem(TakeState);
    OneItem(look);
    OneItem(insert);
  }

  /** Every operation's program obeys the lock order, and reads outside the tracker just what `Viewed` says. */
  lemma ProgramHasShape(op: Operation)
    ensures Program(op) == Code(Shape(op)) && Views(Shape(op)) == Viewed(op) && Consults(Shape(op)) == Consulted(op)
  {
    match op {
      case ForgetChannel(slot) => ShapeOfForget(slot);
      case GetHeartbeat(balanced, present, pruned) => ShapeOfHeartbeat(balanced, present, pruned);
      case FindOrCreateChannel(existing) => ShapeOfCreate(existing);
      case CheckOnchainTx(_, _) => ShapeOfOnchain(op);
      case SignOnchainTx(_, _) => ShapeOfOnchain(op);
      case SetupChannel(id, inserted) => ShapeOfSetup(id, inserted);
      case SpliceChannel(id) => ShapeOfSplice(id);
      case AddBlock(_) =>
      case _ => ShapeOfSigning(op);
    }
  }

  /** Each operation obeys the lock order and gives back every mutex it takes. */
  lemma OperationObeys(op: Operation)
    ensures Obeys({}, Program(op), Plan(Consulted(op), Viewed(op))) == Some({})
    ensures !op.AddBlock? ==> ViewsOf({}, Program(op)) == Viewed(op)
  {
    ProgramHasShape(op);
    OpObeys(Shape(op));
  }

  // ---- Pools of operations ----

  ghost function Pool(ops: seq<Operation>): Locks.Pool {
    seq(|ops|, i requires 0 <= i < |ops| => Thread({}, Program(ops[i]), Plan(Consulted(ops[i]), Viewed(ops[i]))))
  }

  function Shapes(ops: seq<Operation>): (r: seq<Op>)
    ensures |r| == |ops|
  {
    seq(|ops|, i requires 0 <= i < |ops| => Shape(ops[i]))
  }

  /** From every state the operations can reach, in any interleaving, they can all still finish. */
  ghost predicate CanAlwaysFinish(ops: seq<Operation>) {
    forall schedule :: Execute(Pool(ops), schedule).Some? ==> CanFinish(Execute(Pool(ops), schedule).value)
  }

  /** Operation `j` reads a monitor under its slot, outside the tracker, that operation `i` feeds a block. */
  ghost predicate Clashes(ops: seq<Operation>, i: nat, j: nat) {
    i < |ops| && j < |ops| && Consulted(ops[i]) * Viewed(ops[j]) != {}
  }

  lemma OperationsComplete(ops: seq<Operation>)
    ensures CanAlwaysFinish(ops) <==> !exists i: nat, j: nat :: Clashes(ops, i, j)
    ensures (!exists i: nat, j: nat :: Clashes(ops, i, j)) ==>
              forall schedule :: Execute(Pool(ops), schedule).Some? ==>
                var pool := Execute(Pool(ops), schedule).value;
                Exclusive(pool) && (Finished(pool) || exists i :: CanStep(pool, i))
  {
    PoolOfShapes(ops);
    AlwaysCompletes(Shapes(ops));
  }

  lemma PoolOfShapes(ops: seq<Operation>)
    ensures Pool(ops) == Start(Shapes(ops)) && (Clash(Shapes(ops)) <==> exists i: nat, j: nat :: Clashes(ops, i, j))
  {
    forall i | 0 <= i < |ops| ensures Pool(ops)[i] == Start(Shapes(ops))[i] {
      ProgramHasShape(ops[i]);
    }
    if i: nat, j: nat :| Clashes(ops, i, j) {
      SameClash(ops, i, j);
    }
    if Clash(Shapes(ops)) {
      var i, j :| 0 <= i < |ops| && 0 <= j < |ops| && Consults(Shapes(ops)[i]) * Views(Shapes(ops)[j]) != {};
      SameClash(ops, i, j);
    }
  }

  lemma SameClash(ops: seq<Operation>, i: nat, j: nat)
    requires i < |ops| && j < |ops|
    ensures Clashes(ops, i, j) <==> Consults(Shapes(ops)[i]) * Views(Shapes(ops)[j]) != {}
  {
    ProgramHasShape(ops[i]);
    ProgramHasShape(ops[j]);
  }

  /** One operation beside one block: who can deadlock with it, and exactly when. */
  lemma BesideABlock(op: Operation, ls: seq<Listener>)
    requires !op.AddBlock?
    ensures CanAlwaysFinish([op, AddBlock(ls)]) <==> Consulted(AddBlock(ls)) * Viewed(op) == {}
  {
    var ops := [op, AddBlock(ls)];
    OperationsComplete(ops);
    assert Viewed(ops[1]) == {} && Consulted(ops[0]) == {};
    if Consulted(ops[1]) * Viewed(ops[0]) != {} {
      assert Clashes(ops, 1, 0);
    }
  }

  /** Creating, checking, funding, setting up and splicing channels never deadlock with a block. */
  lemma GatedNeverDeadlocks(op: Operation, ls: seq<Listener>)
    requires op.NoSuchChannel? || op.FindOrCreateChannel? || op.CheckOnchainTx? || op.SignOnchainTx? || op.SetupChannel? || op.SpliceChannel?
    ensures CanAlwaysFinish([op, AddBlock(ls)])
  {
    BesideABlock(op, ls);
  }

  /** Without block processing any number of operations always finish. */
  lemma WithoutBlocks(ops: seq<Operation>)
    requires forall i :: 0 <= i < |ops| ==> !ops[i].AddBlock?
    ensures CanAlwaysFinish(ops)
  {
    OperationsComplete(ops);
    assert forall i :: 0 <= i < |ops| ==> Consulted(ops[i]) == {};
  }

  /** A signing call that looks at the chain, and a block that closes the same channel: they can deadlock. */
  lemma SigningAndBlockDeadlock()
    ensures !CanAlwaysFinish([WithChannel(1, [StateUse(1)]), AddBlock([Listener(1, [false])])])
  {
    var op, l := WithChannel(1, [StateUse(1)]), Listener(1, [false]);
    BesideABlock(op, [l]);
    ReadingUses();
    assert l in [l];
    assert 1 in Consulted(AddBlock([l])) && 1 in Viewed(op);
    assert 1 in Consulted(AddBlock([l])) * Viewed(op);
  }
}

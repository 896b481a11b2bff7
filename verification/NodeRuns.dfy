/**
 Whole runs of a node: channels are set up at any time, their funding is signed, blocks are
 added and removed last in first out with every ready channel's monitor following them, also
 below its set-up, the node forgets channels, and heartbeats drop the channels whose monitor
 is done, in any order and number.

 Main results: a run panics exactly when it removes a block one of whose changes builds on
 another, for some monitor that followed it (`OnlyDependentRemovalPanics`); along every run the
 monitors are true to the blocks then on the chain (`MonitorsAreTrue`); and a heartbeat keeps,
 and leaves listening, every channel those blocks have not resolved (`NoEarlyPruning`).
 */
module NodeRuns {
  import opened Options
  import opened Chain
  import opened MonitorState
  import opened MonitorDecode
  import opened MonitorTruth
  import opened MonitorReorg
  import opened MonitorUnseen
  import opened MonitorRuns
  import opened UndoStack
  import opened Pruning
  import Fleet

  type Monitors = Fleet.Crew<ChannelId, State, HashedBlock, History>

  datatype NodeStep =
    | AddBlock(block: HashedBlock)
    | RemoveBlock
    | SetUp(id: ChannelId, provider: Provider, funding: OutPoint)
    | SignFunding(id: ChannelId, tx: Tx)
    | Forget(id: ChannelId)
    | Heartbeat

  /** The monitor of a channel that is set up at this height. */
  function NewMonitor(height: nat, funding: OutPoint): State {
    State(height, [funding.txid], [funding.vout], {}, None, None, None, None, None, None, None, None, false, false)
  }

  /** Signing the funding registers its inputs. */
  function Registered(s: State, tx: Tx): State {
    s.(fundingInputs := s.fundingInputs + set o | o in tx.inputs)
  }

  /** The chain after the blocks of the stack. */
  ghost function Blocks(h: History, stack: seq<HashedBlock>): History {
    if stack == [] then h else RecordHashed(Blocks(h, stack[..|stack| - 1]), stack[|stack| - 1])
  }

  ghost function AsMove(h: History, c: Monitors, step: NodeStep): Fleet.Move<ChannelId, State, HashedBlock, History> {
    match step
    case AddBlock(b) => Fleet.AddAll(b)
    case RemoveBlock => Fleet.RemoveAll
    case SetUp(id, provider, funding) =>
      Fleet.Join(id, MonitorSystem(provider), NewMonitor(Blocks(h, c.stack).height, funding))
    case SignFunding(id, tx) => Fleet.StartOver(id, (s: State) => Registered(s, tx))
    case Forget(id) => Fleet.TouchOne(id)
    case Heartbeat => Fleet.Drop((s: State) => IsDone(s))
  }

  const NOBODY: Monitors := Fleet.Crew(map[], [])

  /** The monitors after a run that starts with no channel; `None` where it panics. */
  ghost function After(h: History, steps: seq<NodeStep>): Option<Monitors> {
    if steps == [] then Some(NOBODY) else
      var before := After(h, steps[..|steps| - 1]);
      if before.None? then None else Fleet.Do(before.value, AsMove(h, before.value, steps[|steps| - 1]))
  }

  /** The funding is signed before anything of it is on the chain. */
  ghost predicate SignsInTime(s: State, p: Past, tx: Tx) {
    && s.fundingTxids == [tx.txid] && |s.fundingVouts| == 1
    && tx.txid !in p.at && OutPoint(tx.txid, s.fundingVouts[0]) !in p.spentBy
    && (forall o :: o in s.fundingInputs || o in tx.inputs ==> o !in p.spentBy)
    && (forall o :: o in tx.inputs ==> o.txid != tx.txid && o != COINBASE)
  }

  /** Blocks extend the chain, within the decoder's limits; a channel is set up under a new id
      and before its funding is on the chain, and its funding is signed in time. */
  ghost predicate LegalStep(h: History, c: Monitors, step: NodeStep) {
    var chain := Blocks(h, c.stack);
    match step
    case AddBlock(b) =>
      && ValidBlock(chain.past, chain.height + 1, b.block)
      && forall id :: id in c.members ==>
           var s := c.members[id].state; WithinLimits(s.fundingTxids, s.fundingVouts, s.fundingInputs, b.block)
    case RemoveBlock => c.stack != []
    case SetUp(id, provider, funding) =>
      && id !in c.members && ProviderOk(provider) && funding.txid != COINBASE.txid
      && funding.txid !in chain.past.at && funding !in chain.past.spentBy
    case SignFunding(id, tx) => id in c.members ==> SignsInTime(c.members[id].state, chain.past, tx)
    case _ => true
  }

  ghost predicate LegalSteps(h: History, steps: seq<NodeStep>) {
    if steps == [] then PastOk(h.past, h.height) else
      && LegalSteps(h, steps[..|steps| - 1])
      && (After(h, steps[..|steps| - 1]).Some? ==>
            LegalStep(h, After(h, steps[..|steps| - 1]).value, steps[|steps| - 1]))
  }

  // ---------------------------------------------------------------------------
  // The chain
  // ---------------------------------------------------------------------------

  lemma {:induction false} PastStaysOk(p: Past, height: nat, block: Block)
    requires PastOk(p, height) && ValidBlock(p, height, block)
    ensures PastOk(RecordBlock(p, height, block), height)
    decreases |block|
  {
    if block != [] {
      RecordOk(p, height, block[0]);
      PastStaysOk(Record(p, height, block[0]), height, block[1..]);
    }
  }

  /** Every block of the stack extended the chain below it. */
  ghost predicate ChainValid(h: History, stack: seq<HashedBlock>) {
    && PastOk(Blocks(h, stack).past, Blocks(h, stack).height)
    && (stack != [] ==> ChainValid(h, stack[..|stack| - 1]) && ChainNext(Blocks(h, stack[..|stack| - 1]), stack[|stack| - 1]))
  }

  lemma BlocksMore(h: History, stack: seq<HashedBlock>, b: HashedBlock)
    ensures Blocks(h, stack + [b]) == RecordHashed(Blocks(h, stack), b)
  {
    assert (stack + [b])[..|stack|] == stack;
  }

  lemma ChainGrows(h: History, stack: seq<HashedBlock>, b: HashedBlock, more: seq<HashedBlock>)
    requires more == stack + [b] && ChainValid(h, stack)
    requires ValidBlock(Blocks(h, stack).past, Blocks(h, stack).height + 1, b.block)
    ensures ChainValid(h, more)
  {
    BlocksMore(h, stack, b);
    RecordedOk(Blocks(h, stack), b);
    assert more[..|more| - 1] == stack && more[|more| - 1] == b;
  }

  lemma RecordedOk(chain: History, b: HashedBlock)
    requires PastOk(chain.past, chain.height) && ValidBlock(chain.past, chain.height + 1, b.block)
    ensures PastOk(RecordHashed(chain, b).past, RecordHashed(chain, b).height) && ChainNext(chain, b)
  {
    assert PastOk(chain.past, chain.height + 1);
    PastStaysOk(chain.past, chain.height + 1, b.block);
  }

  lemma {:induction false} ChainAt(h: History, stack: seq<HashedBlock>, i: nat)
    requires ChainValid(h, stack) && i < |stack|
    ensures ChainNext(Blocks(h, stack[..i]), stack[i])
    decreases |stack|
  {
    var n := |stack| - 1;
    if i < n {
      assert stack[..n][..i] == stack[..i] && stack[..n][i] == stack[i];
      ChainAt(h, stack[..n], i);
    }
  }

  lemma {:induction false} BlocksRecorded(provider: Provider, h: History, stack: seq<HashedBlock>)
    ensures Recorded(MonitorSystem(provider), h, stack) == Blocks(h, stack)
  {
    if stack != [] {
      BlocksRecorded(provider, h, stack[..|stack| - 1]);
    }
  }

  lemma SystemNext(provider: Provider, h: History, below: seq<HashedBlock>, b: HashedBlock)
    requires ChainNext(Blocks(h, below), b)
    ensures MonitorSystem(provider).next(Recorded(MonitorSystem(provider), h, below), b)
  {
    BlocksRecorded(provider, h, below);
  }

  lemma ChainIsOk(provider: Provider, h: History, stack: seq<HashedBlock>)
    requires ChainValid(h, stack)
    ensures Fleet.ChainOk(MonitorSystem(provider), h, stack)
  {
    var sys := MonitorSystem(provider);
    forall i | 0 <= i < |stack| ensures sys.next(Recorded(sys, h, stack[..i]), stack[i]) {
      ChainAt(h, stack, i);
      SystemNext(provider, h, stack[..i], stack[i]);
    }
  }

  // ---------------------------------------------------------------------------
  // The monitors
  // ---------------------------------------------------------------------------

  ghost predicate IsMonitor(sys: System<State, HashedBlock, History>) {
    exists provider: Provider :: ProviderOk(provider) && sys == MonitorSystem(provider)
  }

  ghost predicate AllMonitors(c: Monitors) {
    forall id :: id in c.members ==> IsMonitor(c.members[id].sys)
  }

  lemma MoveKeepsMonitors(h: History, c: Monitors, step: NodeStep)
    requires AllMonitors(c) && LegalStep(h, c, step) && Fleet.Do(c, AsMove(h, c, step)).Some?
    ensures AllMonitors(Fleet.Do(c, AsMove(h, c, step)).value)
  {
    var c' := Fleet.Do(c, AsMove(h, c, step)).value;
    forall id | id in c'.members ensures IsMonitor(c'.members[id].sys) {
      Fleet.DoSystem(c, AsMove(h, c, step), id);
      if step.SetUp? {
        assert IsMonitor(MonitorSystem(step.provider));
      }
    }
  }

  lemma SystemInv(sys: System<State, HashedBlock, History>, h: History, stack: seq<HashedBlock>, s: State)
    requires IsMonitor(sys)
    ensures sys.inv(s, Recorded(sys, h, stack)) <==> InvAt(s, Blocks(h, stack))
  {
    var provider: Provider :| ProviderOk(provider) && sys == MonitorSystem(provider);
    BlocksRecorded(provider, h, stack);
  }

  lemma SystemAccepts(sys: System<State, HashedBlock, History>, h: History, stack: seq<HashedBlock>, s: State, b: HashedBlock)
    requires IsMonitor(sys) && ChainNext(Blocks(h, stack), b) && s.height == Blocks(h, stack).height
    requires WithinLimits(s.fundingTxids, s.fundingVouts, s.fundingInputs, b.block)
    ensures sys.legal(s, Recorded(sys, h, stack), b) && sys.next(Recorded(sys, h, stack), b)
  {
    var provider: Provider :| ProviderOk(provider) && sys == MonitorSystem(provider);
    BlocksRecorded(provider, h, stack);
    var chain := Blocks(h, stack);
    assert NextBlock(provider, s, chain.past, b.block);
  }

  lemma SystemEnters(sys: System<State, HashedBlock, History>, h: History, stack: seq<HashedBlock>, s: State)
    requires IsMonitor(sys) && InvAt(s, Blocks(h, stack)) && Unfunded(s) && Untouched(s, Blocks(h, stack).past)
    ensures Fleet.Enters(sys, h, stack, s)
  {
    var provider: Provider :| ProviderOk(provider) && sys == MonitorSystem(provider);
    BlocksRecorded(provider, h, stack);
    assert NotBegun(provider, s, Blocks(h, stack));
  }

  lemma NewIsTrue(chain: History, funding: OutPoint)
    requires PastOk(chain.past, chain.height) && funding.txid != COINBASE.txid
    requires funding.txid !in chain.past.at && funding !in chain.past.spentBy
    ensures
      var s := NewMonitor(chain.height, funding);
      InvAt(s, chain) && Unfunded(s) && Untouched(s, chain.past)
  {
    InitialInv(chain.height, funding, {}, chain.past);
  }

  /** Registering the inputs keeps the monitor true to the chain, if and only if none of them
      was spent by another transaction unless a double spend is recorded already, and if the
      funding has confirmed, it is the one that spent them. */
  lemma RegisteredExactly(s: State, p: Past, tx: Tx)
    requires Inv(s, p) && WatchesOk(Registered(s, tx))
    ensures
      Inv(Registered(s, tx), p) <==>
      forall o :: o in tx.inputs ==>
        && (o in p.spentBy && s.doubleSpentHeight.None? ==> p.spentBy[o] in s.fundingTxids)
        && (s.fundingHeight.Some? ==> o in p.spentBy && p.spentBy[o] == s.fundingTxids[0])
  {
    var t := Registered(s, tx);
    assert PastOk(p, t.height) && FundingTrue(t, p) && CloseTrue(t, p) && SweepTrue(t, p);
    RegisteredDoubleSpend(s, t, p, tx);
  }

  lemma RegisteredDoubleSpend(s: State, t: State, p: Past, tx: Tx)
    requires Inv(s, p) && t == Registered(s, tx)
    ensures
      DoubleSpendTrue(t, p) <==>
      forall o :: o in tx.inputs ==>
        && (o in p.spentBy && s.doubleSpentHeight.None? ==> p.spentBy[o] in s.fundingTxids)
        && (s.fundingHeight.Some? ==> o in p.spentBy && p.spentBy[o] == s.fundingTxids[0])
  {
    assert forall o :: o in tx.inputs ==> o in t.fundingInputs;
    if s.doubleSpentHeight.Some? {
      var o :| o in s.fundingInputs && SpentAt(p, o, s.doubleSpentHeight.value) && p.spentBy[o] !in s.fundingTxids;
      assert o in t.fundingInputs;
    }
  }

  /** In time, it does, and the monitor's funding has still not begun. */
  lemma RegisteredIsTrue(s: State, p: Past, tx: Tx)
    requires Inv(s, p) && SignsInTime(s, p, tx)
    ensures Inv(Registered(s, tx), p) && Unfunded(Registered(s, tx)) && Untouched(Registered(s, tx), p)
  {
    assert Unfunded(s);
    RegisteredExactly(s, p, tx);
  }

  lemma AddIsLegal(h: History, c: Monitors, b: HashedBlock)
    requires Fleet.CrewInv(h, c) && AllMonitors(c) && ChainValid(h, c.stack) && LegalStep(h, c, AddBlock(b))
    ensures Fleet.Legal(h, c, Fleet.AddAll(b))
  {
    RecordedOk(Blocks(h, c.stack), b);
    forall id | id in c.members
      ensures
        var m := c.members[id];
        m.sys.legal(m.state, Recorded(m.sys, h, c.stack), b) && m.sys.next(Recorded(m.sys, h, c.stack), b)
    {
      MemberTrue(h, c, id);
      SystemAccepts(c.members[id].sys, h, c.stack, c.members[id].state, b);
    }
  }

  lemma SetUpIsLegal(h: History, c: Monitors, id: ChannelId, provider: Provider, funding: OutPoint)
    requires ChainValid(h, c.stack) && LegalStep(h, c, SetUp(id, provider, funding))
    ensures Fleet.Legal(h, c, AsMove(h, c, SetUp(id, provider, funding)))
  {
    var chain := Blocks(h, c.stack);
    NewIsTrue(chain, funding);
    assert IsMonitor(MonitorSystem(provider));
    SystemEnters(MonitorSystem(provider), h, c.stack, NewMonitor(chain.height, funding));
    MonitorSound(provider);
    MonitorRewindable(provider);
    ChainIsOk(provider, h, c.stack);
  }

  lemma SignIsLegal(h: History, c: Monitors, id: ChannelId, tx: Tx)
    requires Fleet.CrewInv(h, c) && AllMonitors(c) && LegalStep(h, c, SignFunding(id, tx))
    ensures Fleet.Legal(h, c, AsMove(h, c, SignFunding(id, tx)))
  {
    if id in c.members {
      MemberTrue(h, c, id);
      RegisteredIsTrue(c.members[id].state, Blocks(h, c.stack).past, tx);
      SystemEnters(c.members[id].sys, h, c.stack, Registered(c.members[id].state, tx));
    }
  }

  lemma StepIsLegal(h: History, c: Monitors, step: NodeStep)
    requires Fleet.CrewInv(h, c) && AllMonitors(c) && ChainValid(h, c.stack) && LegalStep(h, c, step)
    ensures Fleet.Legal(h, c, AsMove(h, c, step))
  {
    match step {
      case AddBlock(b) => AddIsLegal(h, c, b);
      case SetUp(id, provider, funding) => SetUpIsLegal(h, c, id, provider, funding);
      case SignFunding(id, tx) => SignIsLegal(h, c, id, tx);
      case _ =>
    }
  }

  lemma MemberTrue(h: History, c: Monitors, id: ChannelId)
    requires Fleet.CrewInv(h, c) && AllMonitors(c) && id in c.members
    ensures InvAt(c.members[id].state, Blocks(h, c.stack))
  {
    Fleet.MemberInv(h, c, id);
    SystemInv(c.members[id].sys, h, c.stack, c.members[id].state);
  }

  lemma StepKeepsChain(h: History, c: Monitors, step: NodeStep)
    requires ChainValid(h, c.stack) && LegalStep(h, c, step) && Fleet.Do(c, AsMove(h, c, step)).Some?
    ensures ChainValid(h, Fleet.Do(c, AsMove(h, c, step)).value.stack)
  {
    Fleet.DoStack(c, AsMove(h, c, step));
    if step.AddBlock? { ChainGrows(h, c.stack, step.block, c.stack + [step.block]); }
  }

  lemma {:induction false} RunKeepsMonitors(h: History, steps: seq<NodeStep>)
    requires LegalSteps(h, steps) && After(h, steps).Some?
    ensures
      var c := After(h, steps).value;
      Fleet.CrewInv(h, c) && AllMonitors(c) && ChainValid(h, c.stack)
  {
    if steps != [] {
      var n := |steps| - 1;
      RunKeepsMonitors(h, steps[..n]);
      var before := After(h, steps[..n]).value;
      StepIsLegal(h, before, steps[n]);
      Fleet.MoveKeeps(h, before, AsMove(h, before, steps[n]));
      MoveKeepsMonitors(h, before, steps[n]);
      StepKeepsChain(h, before, steps[n]);
    }
  }

  /** Along every run each monitor is true to the blocks on the chain. */
  lemma MonitorsAreTrue(h: History, steps: seq<NodeStep>, id: ChannelId)
    requires LegalSteps(h, steps) && After(h, steps).Some? && id in After(h, steps).value.members
    ensures InvAt(After(h, steps).value.members[id].state, Blocks(h, After(h, steps).value.stack))
  {
    RunKeepsMonitors(h, steps);
    MemberTrue(h, After(h, steps).value, id);
  }

  /** A step after any run panics exactly when it removes a block that some monitor which
      followed it cannot undo. */
  lemma OnlyDependentRemovalPanics(h: History, steps: seq<NodeStep>, step: NodeStep)
    requires LegalSteps(h, steps + [step]) && After(h, steps).Some?
    ensures After(h, steps + [step]).None? <==> step.RemoveBlock? && Fleet.Stuck(After(h, steps).value)
  {
    assert (steps + [step])[..|steps|] == steps;
    RunKeepsMonitors(h, steps);
    var c := After(h, steps).value;
    StepIsLegal(h, c, step);
    Fleet.MoveKeeps(h, c, AsMove(h, c, step));
  }

  /** The node's ready slots hold the monitors. */
  ghost predicate Holds(channels: map<ChannelId, Slot>, c: Monitors) {
    && (forall id :: id in channels && channels[id].Ready? <==> id in c.members)
    && (forall id :: id in c.members ==> channels[id].monitor == c.members[id].state)
  }

  /** Listeners of different channels are told apart by their outpoint; two ids may name one channel. */
  ghost predicate OwnListener(channels: map<ChannelId, Slot>, id: ChannelId)
    requires id in channels && channels[id].Ready?
  {
    forall other :: other in channels && channels[other].Ready? && channels[other].listener == channels[id].listener ==>
                      channels[other] == channels[id]
  }

  /** A heartbeat of the node is a heartbeat of the run. */
  lemma HeartbeatDrops(h: History, channels: map<ChannelId, Slot>, c: Monitors, height: nat, regtest: bool)
    requires Holds(channels, c)
    ensures Holds(Kept(channels, height, regtest), Fleet.Do(c, AsMove(h, c, Heartbeat)).value)
  {
    var test := AsMove(h, c, Heartbeat).done;
    assert forall s: State :: test(s) == IsDone(s);
  }

  /** After any run, a heartbeat keeps every ready channel the chain has not resolved, just
      as it is, and does not silence its listener. */
  lemma NoEarlyPruning(h: History, steps: seq<NodeStep>, channels: map<ChannelId, Slot>, id: ChannelId, regtest: bool)
    requires LegalSteps(h, steps) && After(h, steps).Some? && Holds(channels, After(h, steps).value)
    requires id in channels && channels[id].Ready? && OwnListener(channels, id)
    requires !Resolved(channels[id].monitor, Blocks(h, After(h, steps).value.stack).past)
    ensures
      var height := Blocks(h, After(h, steps).value.stack).height;
      && id in Kept(channels, height, regtest) && Kept(channels, height, regtest)[id] == channels[id]
      && channels[id].listener !in Silenced(channels, height, regtest)
  {
    MonitorsAreTrue(h, steps, id);
    var chain := Blocks(h, After(h, steps).value.stack);
    UnresolvedIsKept(channels, id, chain.past, chain.height, regtest);
  }
}

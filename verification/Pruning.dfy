/**
 Pruning channels at a heartbeat: a ready channel goes when its monitor is done, a stub
 when it is too old, and the monitor of a removed channel stops listening to blocks.

 What a heartbeat removes is stated here for one node state; `NodeRuns` follows the node
 over whole runs.
 */
module Pruning {
  import opened Chain
  import opened MonitorState
  import opened MonitorReorg
  import opened MonitorRuns

  type ChannelId = nat

  datatype Slot = Stub(blockHeight: nat) | Ready(listener: OutPoint, monitor: State)

  const STUB_PRUNE_BLOCKS: nat := 6

  /** Flurries of blocks are normal on a regression-test network. */
  function StubAge(regtest: bool): nat {
    if regtest then STUB_PRUNE_BLOCKS + 100 else STUB_PRUNE_BLOCKS
  }

  predicate Prunable(slot: Slot, height: nat, regtest: bool) {
    match slot
    case Stub(since) => height > since && height - since > StubAge(regtest)
    case Ready(_, monitor) => IsDone(monitor)
  }

  class LiveNode {
    var channels: map<ChannelId, Slot>
    var listeners: set<OutPoint>

    constructor ()
      ensures channels == map[] && listeners == {}
    {
      channels, listeners := map[], {};
    }

    /** The channels to remove, gathered before any is removed. */
    method GatherPrunable(height: nat, regtest: bool) returns (keys: set<ChannelId>)
      ensures keys == set id | id in channels && Prunable(channels[id], height, regtest)
    {
      keys := {};
      var rest := channels.Keys;
      while rest != {}
        invariant rest <= channels.Keys
        invariant keys == set id | id in channels && id !in rest && Prunable(channels[id], height, regtest)
        decreases rest
      {
        var id :| id in rest;
        var slot := channels[id];
        if slot.Ready? {
          if IsDone(slot.monitor) {
            keys := keys + {id};
          }
        } else {
          var age := if height < slot.blockHeight then 0 else height - slot.blockHeight;
          if age > StubAge(regtest) {
            keys := keys + {id};
          }
        }
        rest := rest - {id};
      }
    }

    /** Removes exactly the prunable channels, and the listeners of the ready ones among them. */
    method PruneChannels(height: nat, regtest: bool)
      modifies this
      ensures channels == Kept(old(channels), height, regtest)
      ensures listeners == old(listeners) - Silenced(old(channels), height, regtest)
    {
      var keys := GatherPrunable(height, regtest);
      var rest := keys;
      while rest != {}
        invariant rest <= keys
        invariant channels == map id | id in old(channels) && id !in keys - rest :: old(channels)[id]
        invariant listeners == old(listeners) - ListenersOf(old(channels), keys - rest)
        decreases rest
      {
        var id :| id in rest;
        var slot := channels[id];
        channels := channels - {id};
        assert keys - (rest - {id}) == (keys - rest) + {id};
        if slot.Ready? {
          listeners := listeners - {slot.listener};
        }
        rest := rest - {id};
      }
      assert keys - rest == keys;
    }
  }

  /** The channels a heartbeat leaves. */
  function Kept(channels: map<ChannelId, Slot>, height: nat, regtest: bool): map<ChannelId, Slot> {
    map id | id in channels && !Prunable(channels[id], height, regtest) :: channels[id]
  }

  function ListenersOf(channels: map<ChannelId, Slot>, ids: set<ChannelId>): set<OutPoint> {
    set id | id in ids && id in channels && channels[id].Ready? :: channels[id].listener
  }

  function Silenced(channels: map<ChannelId, Slot>, height: nat, regtest: bool): set<OutPoint> {
    set id | id in channels && channels[id].Ready? && Prunable(channels[id], height, regtest) :: channels[id].listener
  }

  /**
   A ready channel whose monitor is consistent with the chain stays, and keeps listening,
   as long as the chain has not resolved it; two ids may name one channel, and listeners
   of different channels are told apart by their outpoint.
   */
  lemma {:induction false} UnresolvedIsKept(channels: map<ChannelId, Slot>, id: ChannelId, past: Past, height: nat, regtest: bool)
    requires id in channels && channels[id].Ready? && Inv(channels[id].monitor, past)
    requires !Resolved(channels[id].monitor, past)
    requires forall other :: other in channels && channels[other].Ready? && channels[other].listener == channels[id].listener ==>
                               channels[other] == channels[id]
    ensures id in Kept(channels, height, regtest) && Kept(channels, height, regtest)[id] == channels[id]
    ensures channels[id].listener !in Silenced(channels, height, regtest)
  {
    if IsDone(channels[id].monitor) {
      DoneIsSafe(channels[id].monitor, past);
    }
  }
}

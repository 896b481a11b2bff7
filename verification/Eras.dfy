/**
 The funding eras of one channel. A splice replaces the channel's setup and keeps the two
 before it reachable until the new funding locks; commitments and splice signatures are
 routed to the era whose funding they spend.

 Main results: over every run the reachable eras are the last three since the last lock
 (`WindowIsLastThree`), the three routers pick the newest such era (`RoutersAgree`,
 `SignsOnlyLiveEra`), what was negotiated survives any number of splices
 (`NegotiatedTermsStay`), a lock closes the window exactly when the outpoint is not the
 one already locked (`LockClosesWindow`), and locking a splice splits the new funding
 value without loss exactly when the holder's share fits (`LockConserves`).
 */
module Eras {
  import opened Options
  import opened Chain

  const U64_SIZE: nat := 0x1_0000_0000_0000_0000
  const I64_MAX: nat := 0x7FFF_FFFF_FFFF_FFFF

  type U64 = n: nat | n < U64_SIZE

  /** The counterparty's funding key may rotate; its other keys are one value here. */
  datatype Keys = Keys(funding: nat, basepoints: nat)

  datatype Setup = Setup(
    outbound: bool,
    valueSat: U64,
    pushMsat: U64,
    outpoint: OutPoint,
    holderDelay: nat,
    holderShutdown: Option<nat>,
    keys: Keys,
    counterpartyDelay: nat,
    counterpartyShutdown: Option<nat>,
    commitmentType: nat)

  /** The balances of a commitment, from its broadcaster's point of view. */
  datatype Info = Info(counterpartyBroadcasts: bool, toCountersigner: U64, toBroadcaster: U64)

  datatype Channel = Channel(
    setup: Setup,
    prev: Option<Setup>,
    prevPrev: Option<Setup>,
    locked: Option<OutPoint>,
    holderInfo: Option<Info>,
    counterpartyInfo: Option<Info>,
    initialHolderValue: U64)

  // ---- Splicing ----

  /** The new setup with everything a splice may change put back. */
  function Restored(base: Setup, s: Setup): Setup {
    s.(keys := s.keys.(funding := base.keys.funding),
       holderShutdown := if base.holderShutdown.None? then None else s.holderShutdown,
       counterpartyShutdown := if base.counterpartyShutdown.None? then None else s.counterpartyShutdown,
       outpoint := base.outpoint,
       valueSat := base.valueSat,
       pushMsat := base.pushMsat)
  }

  predicate SpliceCompatible(base: Setup, s: Setup) {
    Restored(base, s) == base && s.outpoint != base.outpoint
  }

  predicate PlainPush(s: Setup) {
    s.pushMsat <= I64_MAX
  }

  /** The push fits the funding value; the product is taken in 64 bits, and wrapped pushes pass. */
  predicate PushFits(s: Setup) {
    PlainPush(s) ==> s.pushMsat <= s.valueSat * 1000 % U64_SIZE
  }

  predicate SpliceAccepted(c: Channel, s: Setup) {
    c.setup != s && SpliceCompatible(c.setup, s) && PushFits(s)
  }

  /** The swap stands even when the setup validation that follows it refuses. */
  function Splice(c: Channel, s: Setup): Channel {
    if SpliceAccepted(c, s)
    then c.(setup := s, prev := Some(c.setup), prevPrev := c.prev, holderInfo := None, counterpartyInfo := None)
    else c
  }

  // ---- Locking ----

  function SaturatingSub(a: U64, b: nat): U64 {
    if a < b then 0 else a - b
  }

  /** The holder's and the counterparty's share of the newly locked funding. */
  function Split(c: Channel): (U64, U64) {
    if PlainPush(c.setup) then (SaturatingSub(c.setup.valueSat, c.setup.pushMsat / 1000), c.setup.pushMsat / 1000)
    else (c.initialHolderValue, SaturatingSub(c.setup.valueSat, c.initialHolderValue))
  }

  predicate LockEffective(c: Channel, outpoint: OutPoint) {
    c.locked != Some(outpoint) && outpoint == c.setup.outpoint
  }

  predicate LockRefused(c: Channel, outpoint: OutPoint) {
    c.locked != Some(outpoint) && outpoint != c.setup.outpoint
  }

  predicate InSplice(c: Channel) {
    c.prev.Some? || c.prevPrev.Some?
  }

  function Lock(c: Channel, outpoint: OutPoint): Channel {
    if !LockEffective(c, outpoint) then c
    else
      var closed := c.(locked := Some(outpoint), prev := None, prevPrev := None);
      if !InSplice(c) then closed
      else
        var (holder, counterparty) := Split(c);
        closed.(holderInfo := Some(Info(false, counterparty, holder)),
                counterpartyInfo := Some(Info(true, holder, counterparty)))
  }

  // ---- Routing ----

  /** The era a value-based commitment names by its funding outpoint. */
  function SetupForOutpoint(c: Channel, o: OutPoint): Option<Setup> {
    if o == c.setup.outpoint then Some(c.setup)
    else if c.prev.Some? && o == c.prev.value.outpoint then c.prev
    else if c.prevPrev.Some? && o == c.prevPrev.value.outpoint then c.prevPrev
    else None
  }

  /** The era whose funding a splice input spends: the oldest era is looked at only behind the middle one. */
  function SpliceView(c: Channel, o: OutPoint): Option<Setup> {
    if o == c.setup.outpoint then Some(c.setup)
    else if c.prev.Some? then
      if o == c.prev.value.outpoint then c.prev
      else if c.prevPrev.Some? && o == c.prevPrev.value.outpoint then c.prevPrev
      else None
    else None
  }

  /** A splice input is signed only with the key and the amount of the era it spends. */
  predicate SignsSplice(c: Channel, inputs: seq<OutPoint>, index: nat, remoteKey: nat, amount: Option<U64>) {
    && index < |inputs|
    && var view := SpliceView(c, inputs[index]);
    && view.Some?
    && remoteKey == view.value.keys.funding
    && (amount.None? || amount.value == view.value.valueSat)
  }

  /** The amount signed over: the caller's, or the era's when the caller gives none. */
  function SignedAmount(c: Channel, o: OutPoint, amount: Option<U64>): Option<U64> {
    if amount.Some? then amount
    else if SpliceView(c, o).Some? then Some(SpliceView(c, o).value.valueSat)
    else None
  }

  /** The era of a commitment transaction: the first input that spends a live era, else the current one. */
  function SetupForTx(c: Channel, inputs: seq<OutPoint>): Setup {
    if inputs == [] then c.setup
    else if SetupForOutpoint(c, inputs[0]).Some? then SetupForOutpoint(c, inputs[0]).value
    else SetupForTx(c, inputs[1..])
  }

  // ---- Runs ----

  /** The commitment flow may rewrite the channel's commitment records at any time. */
  datatype Event = SpliceTo(setup: Setup) | LockFunding(outpoint: OutPoint) | Commitments(holder: Option<Info>, counterparty: Option<Info>)

  function Step(c: Channel, e: Event): Channel {
    match e
    case SpliceTo(s) => Splice(c, s)
    case LockFunding(o) => Lock(c, o)
    case Commitments(h, p) => c.(holderInfo := h, counterpartyInfo := p)
  }

  /** The state after a run, built up from its end. */
  function Run(c: Channel, events: seq<Event>): Channel {
    if events == [] then c else Step(Run(c, events[..|events| - 1]), events[|events| - 1])
  }

  ghost predicate FreshChannel(c: Channel) {
    c.prev.None? && c.prevPrev.None? && c.locked.None?
  }

  /** All setups the channel has had since its funding last locked, oldest first. */
  function History(c: Channel, events: seq<Event>): (h: seq<Setup>)
    ensures |h| > 0
  {
    if events == [] then [c.setup]
    else
      var before := Run(c, events[..|events| - 1]);
      var h := History(c, events[..|events| - 1]);
      match events[|events| - 1]
      case SpliceTo(s) => if SpliceAccepted(before, s) then h + [s] else h
      case LockFunding(o) => if LockEffective(before, o) then h[|h| - 1..] else h
      case Commitments(_, _) => h
  }

  function LastThree(h: seq<Setup>): seq<Setup> {
    if |h| <= 3 then h else h[|h| - 3..]
  }

  /** The eras the channel can still reach, oldest first. */
  function Window(c: Channel): seq<Setup> {
    (if c.prevPrev.Some? then [c.prevPrev.value] else [])
    + (if c.prev.Some? then [c.prev.value] else [])
    + [c.setup]
  }

  ghost predicate Chained(c: Channel) {
    c.prev.None? ==> c.prevPrev.None?
  }

  /** Whatever splices and locks a channel goes through, its window is the last three eras since the last lock. */
  lemma {:induction false} WindowIsLastThree(c: Channel, events: seq<Event>)
    requires FreshChannel(c)
    ensures Window(Run(c, events)) == LastThree(History(c, events)) && Chained(Run(c, events))
  {
    if events != [] {
      var most := events[..|events| - 1];
      WindowIsLastThree(c, most);
      var before := Run(c, most);
      var h := History(c, most);
      match events[|events| - 1] {
        case SpliceTo(s) =>
          if SpliceAccepted(before, s) {
            SpliceShifts(before, s);
            LastThreeShifts(h, s);
          }
        case LockFunding(o) =>
          if LockEffective(before, o) {
            LastOfWindow(before, h);
          }
        case Commitments(_, _) =>
          assert Window(Run(c, events)) == Window(before);
      }
    }
  }

  lemma LastOfWindow(c: Channel, h: seq<Setup>)
    requires |h| > 0 && Window(c) == LastThree(h)
    ensures h[|h| - 1..] == [c.setup]
  {
    assert Window(c)[|Window(c)| - 1] == c.setup;
    assert LastThree(h)[|LastThree(h)| - 1] == h[|h| - 1];
  }

  lemma SpliceShifts(c: Channel, s: Setup)
    requires SpliceAccepted(c, s) && Chained(c)
    ensures Window(Splice(c, s)) == LastThree(Window(c) + [s])
  {
  }

  lemma LastThreeShifts(h: seq<Setup>, s: Setup)
    ensures LastThree(LastThree(h) + [s]) == LastThree(h + [s])
  {
  }

  // ---- Routing, over every run ----

  /** The newest era of a list that has the given funding. */
  function Newest(eras: seq<Setup>, o: OutPoint): Option<Setup> {
    if eras == [] then None
    else if eras[|eras| - 1].outpoint == o then Some(eras[|eras| - 1])
    else Newest(eras[..|eras| - 1], o)
  }

  lemma NewestOfWindow(c: Channel, o: OutPoint)
    ensures SetupForOutpoint(c, o) == Newest(Window(c), o)
  {
    var oldest := if c.prevPrev.Some? then [c.prevPrev.value] else [];
    var older := oldest + if c.prev.Some? then [c.prev.value] else [];
    NewestLast(older, c.setup, o);
    if c.prev.Some? {
      NewestLast(oldest, c.prev.value, o);
    } else {
      assert older == oldest;
    }
    if c.prevPrev.Some? {
      NewestLast([], c.prevPrev.value, o);
      assert oldest == [] + [c.prevPrev.value];
    }
  }

  lemma NewestLast(eras: seq<Setup>, s: Setup, o: OutPoint)
    ensures Newest(eras + [s], o) == if s.outpoint == o then Some(s) else Newest(eras, o)
  {
    assert (eras + [s])[..|eras|] == eras;
  }

  /**
   In every reachable state the outpoint router, the splice signer's nested lookup and the
   newest matching era of the last three are one and the same.
   */
  lemma RoutersAgree(c: Channel, events: seq<Event>, o: OutPoint)
    requires FreshChannel(c)
    ensures SetupForOutpoint(Run(c, events), o) == Newest(LastThree(History(c, events)), o)
    ensures SpliceView(Run(c, events), o) == SetupForOutpoint(Run(c, events), o)
    ensures SetupForTx(Run(c, events), [o]) ==
            if SetupForOutpoint(Run(c, events), o).Some? then SetupForOutpoint(Run(c, events), o).value
            else Run(c, events).setup
  {
    WindowIsLastThree(c, events);
    NewestOfWindow(Run(c, events), o);
  }

  /** The transaction router picks the first input with a live era, and the current era when there is none. */
  lemma {:induction false} FirstLiveInput(c: Channel, inputs: seq<OutPoint>, k: nat)
    requires k <= |inputs|
    requires forall i :: 0 <= i < k ==> SetupForOutpoint(c, inputs[i]).None?
    ensures k == |inputs| ==> SetupForTx(c, inputs) == c.setup
    ensures k < |inputs| && SetupForOutpoint(c, inputs[k]).Some? ==>
              SetupForTx(c, inputs) == SetupForOutpoint(c, inputs[k]).value
    decreases k
  {
    if k > 0 {
      assert forall i :: 0 <= i < k - 1 ==> inputs[1..][i] == inputs[i + 1];
      FirstLiveInput(c, inputs[1..], k - 1);
    }
  }

  lemma {:induction false} NewestIsIn(eras: seq<Setup>, o: OutPoint)
    requires Newest(eras, o).Some?
    ensures Newest(eras, o).value in eras && Newest(eras, o).value.outpoint == o
  {
    if eras[|eras| - 1].outpoint != o {
      NewestIsIn(eras[..|eras| - 1], o);
    }
  }

  /**
   A splice signature always spends one of the last three eras, with that era's key and over
   that era's value, whether or not the caller names an amount.
   */
  lemma SignsOnlyLiveEra(c: Channel, events: seq<Event>, inputs: seq<OutPoint>, index: nat, remoteKey: nat, amount: Option<U64>)
    requires FreshChannel(c)
    requires SignsSplice(Run(c, events), inputs, index, remoteKey, amount)
    ensures exists era :: era in LastThree(History(c, events)) && era.outpoint == inputs[index]
                          && era.keys.funding == remoteKey
                          && SignedAmount(Run(c, events), inputs[index], amount) == Some(era.valueSat)
  {
    RoutersAgree(c, events, inputs[index]);
    NewestIsIn(LastThree(History(c, events)), inputs[index]);
  }

  // ---- What a splice may change ----

  /** What was negotiated with the channel and no splice may change. */
  predicate SameTerms(a: Setup, b: Setup) {
    && a.outbound == b.outbound && a.holderDelay == b.holderDelay && a.counterpartyDelay == b.counterpartyDelay
    && a.keys.basepoints == b.keys.basepoints && a.commitmentType == b.commitmentType
    && (a.holderShutdown.Some? ==> b.holderShutdown == a.holderShutdown)
    && (a.counterpartyShutdown.Some? ==> b.counterpartyShutdown == a.counterpartyShutdown)
  }

  lemma CompatibleMeans(a: Setup, b: Setup)
    ensures SpliceCompatible(a, b) <==> SameTerms(a, b) && b.outpoint != a.outpoint
  {
  }

  /**
   Any number of splices keeps the negotiated terms: between any two points of a run they
   agree, so a shutdown script changes at most once, from unset to set.
   */
  lemma {:induction false} NegotiatedTermsStay(c: Channel, events: seq<Event>, i: nat)
    requires i <= |events|
    ensures SameTerms(Run(c, events[..i]).setup, Run(c, events).setup)
  {
    if i == |events| {
      assert events[..i] == events;
    } else {
      var most := events[..|events| - 1];
      assert most[..i] == events[..i];
      NegotiatedTermsStay(c, most, i);
      if events[|events| - 1].SpliceTo? {
        CompatibleMeans(Run(c, most).setup, events[|events| - 1].setup);
      }
    }
  }

  /** An unset shutdown script can be set by a splice, although splices are documented to leave it unset. */
  lemma UnsetScriptCanBeSet()
    ensures exists c: Channel, s: Setup ::
              FreshChannel(c) && c.setup.holderShutdown.None? && Splice(c, s).setup.holderShutdown.Some?
  {
    var a := Setup(true, 10, 0, OutPoint(1, 0), 6, None, Keys(1, 2), 7, None, 0);
    var b := a.(outpoint := OutPoint(2, 0), holderShutdown := Some(5));
    var c := Channel(a, None, None, None, None, None, 10);
    assert Restored(a, b) == a;
    assert SpliceAccepted(c, b);
    assert Splice(c, b).setup.holderShutdown.Some?;
  }

  /** Step `k` of the run is a splice that was accepted. */
  ghost predicate AcceptedAt(c: Channel, events: seq<Event>, k: nat) {
    k < |events| && events[k].SpliceTo? && SpliceAccepted(Run(c, events[..k]), events[k].setup)
  }

  ghost predicate NoSpliceSetsHolder(c: Channel, events: seq<Event>) {
    forall k :: 0 <= k < |events| && AcceptedAt(c, events, k) ==> events[k].setup.holderShutdown.None?
  }

  ghost predicate NoSpliceSetsCounterparty(c: Channel, events: seq<Event>) {
    forall k :: 0 <= k < |events| && AcceptedAt(c, events, k) ==> events[k].setup.counterpartyShutdown.None?
  }

  /** After an accepted splice the channel has its setup. */
  lemma AcceptedIsCurrent(c: Channel, events: seq<Event>, k: nat)
    requires k < |events| && AcceptedAt(c, events, k)
    ensures Run(c, events[..k + 1]).setup == events[k].setup
  {
    assert events[..k + 1][..k] == events[..k];
  }

  /** The setup only ever changes by an accepted splice. */
  lemma {:induction false} SetupFromSplice(c: Channel, events: seq<Event>)
    ensures Run(c, events).setup == c.setup
         || exists k :: 0 <= k < |events| && AcceptedAt(c, events, k) && Run(c, events).setup == events[k].setup
  {
    if events != [] {
      var n := |events| - 1;
      SetupFromSplice(c, events[..n]);
      if AcceptedAt(c, events, n) {
        assert Run(c, events).setup == events[n].setup;
      } else if Run(c, events[..n]).setup != c.setup {
        var k :| 0 <= k < n && AcceptedAt(c, events[..n], k) && Run(c, events[..n]).setup == events[..n][k].setup;
        assert events[..n][..k] == events[..k];
        assert AcceptedAt(c, events, k);
      }
    }
  }

  /**
   A shutdown script that was unset is still unset after a run if and only if no accepted
   splice of the run carried one; for the holder's and the counterparty's script alike.
   */
  lemma ScriptStaysUnset(c: Channel, events: seq<Event>)
    ensures c.setup.holderShutdown.None? ==>
              (Run(c, events).setup.holderShutdown.None? <==> NoSpliceSetsHolder(c, events))
    ensures c.setup.counterpartyShutdown.None? ==>
              (Run(c, events).setup.counterpartyShutdown.None? <==> NoSpliceSetsCounterparty(c, events))
  {
    SetupFromSplice(c, events);
    forall k | 0 <= k < |events| && AcceptedAt(c, events, k) ensures SameTerms(events[k].setup, Run(c, events).setup) {
      AcceptedIsCurrent(c, events, k);
      NegotiatedTermsStay(c, events, k + 1);
    }
  }

  // ---- Locking, over every run ----

  /** After a lock that is not refused, one era is left, unless the outpoint was already the locked one. */
  lemma {:induction false} LockClosesWindow(c: Channel, events: seq<Event>, o: OutPoint)
    requires FreshChannel(c) && !LockRefused(Run(c, events), o)
    ensures var before := Run(c, events);
            |Window(Lock(before, o))| == 1 <==> !(before.locked == Some(o) && before.prev.Some?)
  {
    WindowIsLastThree(c, events);
  }

  /** A run after which the lock of the current funding leaves all three eras open. */
  ghost predicate StaysOpen(c: Channel, events: seq<Event>) {
    var before := Run(c, events);
    var o := before.setup.outpoint;
    FreshChannel(c) && !LockRefused(before, o) && |Window(Lock(before, o))| == 3
  }

  lemma RelockingLeavesWindowOpen()
    ensures exists c: Channel, events: seq<Event> :: StaysOpen(c, events)
  {
    var a := Setup(true, 10, 0, OutPoint(1, 0), 6, None, Keys(1, 2), 7, None, 0);
    var b := a.(outpoint := OutPoint(2, 0));
    var d := a.(outpoint := OutPoint(3, 0));
    var c := Channel(a, None, None, None, None, None, 10);
    var e := [SpliceTo(b), LockFunding(OutPoint(2, 0)), SpliceTo(d), SpliceTo(b)];
    assert e[..3] == [SpliceTo(b), LockFunding(OutPoint(2, 0)), SpliceTo(d)];
    assert e[..3][..2] == [SpliceTo(b), LockFunding(OutPoint(2, 0))];
    assert e[..3][..2][..1] == [SpliceTo(b)];
    assert Run(c, e[..3][..2][..1]) == Splice(c, b) by {
      assert e[..3][..2][..1][..0] == [];
    }
    var c1 := Splice(c, b);
    var c2 := Lock(c1, OutPoint(2, 0));
    var c3 := Splice(c2, d);
    assert Run(c, e[..3][..2]) == c2;
    assert Run(c, e[..3]) == c3;
    assert Run(c, e) == Splice(c3, b);
    assert StaysOpen(c, e);
  }

  ghost predicate SpliceFits(c: Channel) {
    InSplice(c) ==> PushFits(c.setup)
  }

  lemma {:induction false} SplicesFit(c: Channel, events: seq<Event>)
    requires FreshChannel(c)
    ensures SpliceFits(Run(c, events))
  {
    if events != [] {
      SplicesFit(c, events[..|events| - 1]);
    }
  }

  lemma PushWithinValue(s: Setup)
    requires PlainPush(s) && PushFits(s)
    ensures s.pushMsat / 1000 <= s.valueSat
  {
  }

  /** The two baselines describe one split of the funding value, seen from either side. */
  ghost predicate Conserved(c: Channel) {
    && c.holderInfo.Some? && c.counterpartyInfo.Some?
    && var h := c.holderInfo.value; var p := c.counterpartyInfo.value;
    && !h.counterpartyBroadcasts && p.counterpartyBroadcasts
    && h.toBroadcaster == p.toCountersigner && h.toCountersigner == p.toBroadcaster
    && h.toBroadcaster + h.toCountersigner == c.setup.valueSat
  }

  /**
   Locking in a splice, after any run, records a split of exactly the new funding value,
   unless the push is wrapped and the holder's initial value exceeds the new funding.
   */
  lemma {:induction false} LockConserves(c: Channel, events: seq<Event>, o: OutPoint)
    requires FreshChannel(c) && InSplice(Run(c, events)) && LockEffective(Run(c, events), o)
    ensures var before := Run(c, events);
            Conserved(Lock(before, o)) <==> PlainPush(before.setup) || before.initialHolderValue <= before.setup.valueSat
  {
    SplicesFit(c, events);
    var before := Run(c, events);
    if PlainPush(before.setup) {
      PushWithinValue(before.setup);
    }
  }

  // ---- The channel updated in place ----

  class LiveChannel {
    var setup: Setup
    var prev: Option<Setup>
    var prevPrev: Option<Setup>
    var locked: Option<OutPoint>
    var holderInfo: Option<Info>
    var counterpartyInfo: Option<Info>
    var initialHolderValue: U64

    function Value(): Channel
      reads this
    {
      Channel(setup, prev, prevPrev, locked, holderInfo, counterpartyInfo, initialHolderValue)
    }

    constructor (s: Setup, holderValue: U64)
      ensures Value() == Channel(s, None, None, None, None, None, holderValue) && FreshChannel(Value())
    {
      setup, prev, prevPrev, locked := s, None, None, None;
      holderInfo, counterpartyInfo, initialHolderValue := None, None, holderValue;
    }

    /** The splice branch of a repeated channel setup. */
    method SetupSplice(s: Setup, validates: bool) returns (ok: bool)
      modifies this
      ensures Value() == Splice(old(Value()), s)
      ensures ok <==> old(setup) == s || (SpliceAccepted(old(Value()), s) && validates)
    {
      if setup == s {
        return true;
      }
      if !SpliceCompatible(setup, s) {
        return false;
      }
      if s.pushMsat <= I64_MAX && s.pushMsat > s.valueSat * 1000 % U64_SIZE {
        return false;
      }
      holderInfo, counterpartyInfo := None, None;
      prevPrev := prev;
      prev := Some(setup);
      setup := s;
      ok := validates;
    }

    method ConfirmFundingLocked(outpoint: OutPoint) returns (ok: bool)
      modifies this
      ensures Value() == Lock(old(Value()), outpoint)
      ensures ok <==> !LockRefused(old(Value()), outpoint)
    {
      if locked == Some(outpoint) {
        return true;
      }
      if outpoint != setup.outpoint {
        return false;
      }
      locked := Some(outpoint);
      var wasSplice := prev.Some? || prevPrev.Some?;
      prev, prevPrev := None, None;
      if wasSplice {
        var pushSat := setup.pushMsat / 1000;
        var holder, counterparty := SaturatingSub(setup.valueSat, pushSat), pushSat;
        if setup.pushMsat > I64_MAX {
          holder, counterparty := initialHolderValue, SaturatingSub(setup.valueSat, initialHolderValue);
        }
        holderInfo := Some(Info(false, counterparty, holder));
        counterpartyInfo := Some(Info(true, holder, counterparty));
      }
      ok := true;
    }

    /** Walks the inputs of a commitment transaction. */
    method FindSetupForTx(inputs: seq<OutPoint>) returns (s: Setup)
      ensures s == SetupForTx(Value(), inputs)
    {
      var i := 0;
      while i < |inputs|
        invariant i <= |inputs| && SetupForTx(Value(), inputs) == SetupForTx(Value(), inputs[i..])
      {
        if inputs[i] == setup.outpoint {
          return setup;
        }
        if prev.Some? && inputs[i] == prev.value.outpoint {
          return prev.value;
        }
        if prevPrev.Some? && inputs[i] == prevPrev.value.outpoint {
          return prevPrev.value;
        }
        i := i + 1;
      }
      s := setup;
    }
  }
}

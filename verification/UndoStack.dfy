/**
 Systems whose last addition may be undone. If removing what was just added either fails,
 or gives the state before back, up to a normal form, then a last-in-first-out run fails
 exactly when it removes an addition that cannot be undone, and otherwise its state is the
 one that the surviving additions alone would have built.
 */
module UndoStack {
  import opened Options

  /** `norm` names the part of the state that counts; `touch` changes only the rest. A state
      that is `pristine` has not been concerned by any addition, and `earlier` is it one addition
      before; `next` says what may be added at all. */
  datatype System<!S, !B, !H> = System(
    add: (S, B) -> Option<S>,
    remove: (S, B) -> Option<S>,
    touch: S -> S,
    norm: S -> S,
    record: (H, B) -> H,
    inv: (S, H) -> bool,
    legal: (S, H, B) -> bool,
    undoable: (S, B) -> bool,
    next: (H, B) -> bool,
    pristine: (S, H) -> bool,
    earlier: S -> S)

  datatype Step<B> = Add(block: B) | Remove | Touch

  datatype Run<S, B> = Run(state: S, stack: seq<B>)

  ghost predicate Same<S, B, H>(sys: System<S, B, H>, s: S, t: S) {
    sys.norm(s) == sys.norm(t)
  }

  ghost predicate SameOutcome<S, B, H>(sys: System<S, B, H>, a: Option<S>, b: Option<S>) {
    a.Some? == b.Some? && (a.Some? ==> Same(sys, a.value, b.value))
  }

  ghost predicate RespectsAdd<S(!new), B(!new), H(!new)>(sys: System<S, B, H>) {
    forall s, t, b :: Same(sys, s, t) ==> SameOutcome(sys, sys.add(s, b), sys.add(t, b))
  }

  ghost predicate RespectsRemove<S(!new), B(!new), H(!new)>(sys: System<S, B, H>) {
    forall s, t, b :: Same(sys, s, t) ==> SameOutcome(sys, sys.remove(s, b), sys.remove(t, b))
  }

  ghost predicate RespectsTouch<S(!new), B(!new), H(!new)>(sys: System<S, B, H>) {
    forall s :: Same(sys, sys.touch(s), s)
  }

  ghost predicate RespectsInv<S(!new), B(!new), H(!new)>(sys: System<S, B, H>) {
    forall s, t, h :: Same(sys, s, t) && sys.inv(s, h) ==> sys.inv(t, h)
  }

  ghost predicate RespectsLegal<S(!new), B(!new), H(!new)>(sys: System<S, B, H>) {
    forall s, t, h, b :: Same(sys, s, t) && sys.legal(s, h, b) ==> sys.legal(t, h, b)
  }

  /** What is asked of one addition and of its removal: the addition succeeds, and its
      removal fails or restores. */
  ghost predicate Undoes<S, B, H>(sys: System<S, B, H>, s: S, h: H, b: B) {
    && sys.add(s, b).Some?
    && sys.inv(sys.add(s, b).value, sys.record(h, b))
    && (sys.remove(sys.add(s, b).value, b).Some? <==> sys.undoable(s, b))
    && (sys.undoable(s, b) ==> Same(sys, sys.remove(sys.add(s, b).value, b).value, s))
  }

  ghost predicate Sound<S(!new), B(!new), H(!new)>(sys: System<S, B, H>) {
    && RespectsAdd(sys) && RespectsRemove(sys) && RespectsTouch(sys) && RespectsInv(sys) && RespectsLegal(sys)
    && forall s, h, b :: sys.inv(s, h) && sys.legal(s, h, b) ==> Undoes(sys, s, h, b)
  }

  ghost function Do<S, B, H>(sys: System<S, B, H>, r: Run<S, B>, step: Step<B>): Option<Run<S, B>> {
    match step
    case Add(b) =>
      var s := sys.add(r.state, b);
      if s.None? then None else Some(Run(s.value, r.stack + [b]))
    case Remove =>
      if r.stack == [] then None else
        var s := sys.remove(r.state, r.stack[|r.stack| - 1]);
        if s.None? then None else Some(Run(s.value, r.stack[..|r.stack| - 1]))
    case Touch => Some(r.(state := sys.touch(r.state)))
  }

  ghost function DoAll<S, B, H>(sys: System<S, B, H>, r: Run<S, B>, steps: seq<Step<B>>): Option<Run<S, B>>
    decreases |steps|
  {
    if steps == [] then Some(r) else
      var r' := Do(sys, r, steps[0]);
      if r'.None? then None else DoAll(sys, r'.value, steps[1..])
  }

  ghost function Recorded<S, B, H>(sys: System<S, B, H>, h: H, stack: seq<B>): H {
    if stack == [] then h else sys.record(Recorded(sys, h, stack[..|stack| - 1]), stack[|stack| - 1])
  }

  /** The state built by the additions of the stack and nothing else. */
  ghost function Built<S, B, H>(sys: System<S, B, H>, s: S, stack: seq<B>): Option<S> {
    if stack == [] then Some(s) else
      var before := Built(sys, s, stack[..|stack| - 1]);
      if before.None? then None else sys.add(before.value, stack[|stack| - 1])
  }

  /** Additions are legal in the state they meet, removals need something to remove. */
  ghost predicate Legal<S, B, H>(sys: System<S, B, H>, h: H, r: Run<S, B>, step: Step<B>) {
    match step
    case Add(b) => sys.legal(r.state, Recorded(sys, h, r.stack), b)
    case Remove => r.stack != []
    case Touch => true
  }

  ghost predicate LegalRun<S, B, H>(sys: System<S, B, H>, h: H, r: Run<S, B>, steps: seq<Step<B>>)
    decreases |steps|
  {
    steps == [] ||
    (Legal(sys, h, r, steps[0]) &&
     (Do(sys, r, steps[0]).Some? ==> LegalRun(sys, h, Do(sys, r, steps[0]).value, steps[1..])))
  }

  ghost predicate StackOk<S, B, H>(sys: System<S, B, H>, s: S, h: H, stack: seq<B>)
    decreases |stack|
  {
    stack == [] ||
    (var n := |stack| - 1;
     && StackOk(sys, s, h, stack[..n])
     && Built(sys, s, stack[..n]).Some?
     && sys.legal(Built(sys, s, stack[..n]).value, Recorded(sys, h, stack[..n]), stack[n]))
  }

  lemma {:induction false} BuiltInv<S(!new), B(!new), H(!new)>(sys: System<S, B, H>, s: S, h: H, stack: seq<B>)
    requires Sound(sys) && sys.inv(s, h) && StackOk(sys, s, h, stack)
    ensures Built(sys, s, stack).Some? && sys.inv(Built(sys, s, stack).value, Recorded(sys, h, stack))
    decreases |stack|
  {
    if stack != [] {
      var n := |stack| - 1;
      BuiltInv(sys, s, h, stack[..n]);
      assert Undoes(sys, Built(sys, s, stack[..n]).value, Recorded(sys, h, stack[..n]), stack[n]);
    }
  }

  /** The run's stack was legal to build, and the run's state is what it builds. */
  ghost predicate Consistent<S, B, H>(sys: System<S, B, H>, s: S, h: H, r: Run<S, B>) {
    && StackOk(sys, s, h, r.stack)
    && Built(sys, s, r.stack).Some?
    && Same(sys, r.state, Built(sys, s, r.stack).value)
  }

  lemma ConsistentInv<S(!new), B(!new), H(!new)>(sys: System<S, B, H>, s: S, h: H, r: Run<S, B>)
    requires Sound(sys) && sys.inv(s, h) && Consistent(sys, s, h, r)
    ensures sys.inv(r.state, Recorded(sys, h, r.stack))
  {
    BuiltInv(sys, s, h, r.stack);
    assert Same(sys, Built(sys, s, r.stack).value, r.state);
  }

  lemma BuiltMore<S, B, H>(sys: System<S, B, H>, s: S, h: H, stack: seq<B>, b: B)
    requires StackOk(sys, s, h, stack) && Built(sys, s, stack).Some?
    requires sys.legal(Built(sys, s, stack).value, Recorded(sys, h, stack), b)
    ensures StackOk(sys, s, h, stack + [b]) && Built(sys, s, stack + [b]) == sys.add(Built(sys, s, stack).value, b)
  {
    assert (stack + [b])[..|stack|] == stack;
  }

  lemma StepAdd<S(!new), B(!new), H(!new)>(sys: System<S, B, H>, s: S, h: H, r: Run<S, B>, b: B)
    requires Sound(sys) && sys.inv(s, h) && Consistent(sys, s, h, r) && Legal(sys, h, r, Add(b))
    ensures Do(sys, r, Add(b)).Some? && Consistent(sys, s, h, Do(sys, r, Add(b)).value)
  {
    var before := Built(sys, s, r.stack).value;
    var now := Recorded(sys, h, r.stack);
    BuiltInv(sys, s, h, r.stack);
    assert Same(sys, r.state, before);
    assert sys.legal(before, now, b);
    assert Undoes(sys, before, now, b);
    assert SameOutcome(sys, sys.add(r.state, b), sys.add(before, b));
    BuiltMore(sys, s, h, r.stack, b);
  }

  lemma StepRemove<S(!new), B(!new), H(!new)>(sys: System<S, B, H>, s: S, h: H, r: Run<S, B>)
    requires Sound(sys) && sys.inv(s, h) && Consistent(sys, s, h, r) && r.stack != []
    ensures Do(sys, r, Remove).Some? <==> TopUndoable(sys, s, r.stack)
    ensures Do(sys, r, Remove).Some? ==> Consistent(sys, s, h, Do(sys, r, Remove).value)
  {
    var n := |r.stack| - 1;
    var b := r.stack[n];
    BuiltInv(sys, s, h, r.stack[..n]);
    var before := Built(sys, s, r.stack[..n]).value;
    assert Undoes(sys, before, Recorded(sys, h, r.stack[..n]), b);
    assert SameOutcome(sys, sys.remove(r.state, b), sys.remove(sys.add(before, b).value, b));
  }

  /** The last addition could be undone in the state the additions below it build. */
  ghost predicate TopUndoable<S, B, H>(sys: System<S, B, H>, s: S, stack: seq<B>) {
    stack != [] &&
    var before := Built(sys, s, stack[..|stack| - 1]);
    before.Some? && sys.undoable(before.value, stack[|stack| - 1])
  }

  /** Every removal of the run meets a top that can be undone. */
  ghost predicate RemovesUndoable<S, B, H>(sys: System<S, B, H>, s: S, r: Run<S, B>, steps: seq<Step<B>>)
    decreases |steps|
  {
    steps == [] ||
    ((steps[0].Remove? ==> TopUndoable(sys, s, r.stack)) &&
     (Do(sys, r, steps[0]).Some? ==> RemovesUndoable(sys, s, Do(sys, r, steps[0]).value, steps[1..])))
  }

  /** Every legal run, of any length: it fails exactly when it removes what cannot be undone;
      if it does not fail, the state is what the surviving additions alone build, and the
      invariant holds of it. */
  lemma {:induction false} LifoRun<S(!new), B(!new), H(!new)>(sys: System<S, B, H>, s: S, h: H, r: Run<S, B>, steps: seq<Step<B>>)
    requires Sound(sys) && sys.inv(s, h) && Consistent(sys, s, h, r) && LegalRun(sys, h, r, steps)
    ensures DoAll(sys, r, steps).Some? <==> RemovesUndoable(sys, s, r, steps)
    ensures DoAll(sys, r, steps).Some? ==>
              var r' := DoAll(sys, r, steps).value;
              Consistent(sys, s, h, r') && sys.inv(r'.state, Recorded(sys, h, r'.stack))
    decreases |steps|
  {
    if steps == [] {
      ConsistentInv(sys, s, h, r);
    } else {
      match steps[0] {
        case Add(b) => StepAdd(sys, s, h, r, b);
        case Remove => StepRemove(sys, s, h, r);
        case Touch => assert Same(sys, sys.touch(r.state), r.state);
      }
      if Do(sys, r, steps[0]).Some? {
        LifoRun(sys, s, h, Do(sys, r, steps[0]).value, steps[1..]);
      }
    }
  }

  // ---- A system that joined when the stack already held something ----

  lemma {:induction false} RecordedSplit<S, B, H>(sys: System<S, B, H>, h: H, stack: seq<B>, k: nat)
    requires k <= |stack|
    ensures Recorded(sys, Recorded(sys, h, stack[..k]), stack[k..]) == Recorded(sys, h, stack)
  {
    var n := |stack|;
    if k == n {
      assert stack[..k] == stack;
    } else {
      assert stack[..n - 1][..k] == stack[..k] && stack[..n - 1][k..] == stack[k..][..n - k - 1];
      RecordedSplit(sys, h, stack[..n - 1], k);
    }
  }

  /** The state is what the additions since `at` make of the first state. */
  ghost predicate Follows<S, B, H>(sys: System<S, B, H>, h: H, stack: seq<B>, start: S, at: nat, state: S) {
    && at <= |stack|
    && sys.inv(start, Recorded(sys, h, stack[..at]))
    && Consistent(sys, start, Recorded(sys, h, stack[..at]), Run(state, stack[at..]))
  }

  lemma FollowsInv<S(!new), B(!new), H(!new)>(sys: System<S, B, H>, h: H, stack: seq<B>, start: S, at: nat, state: S)
    requires Sound(sys) && Follows(sys, h, stack, start, at, state)
    ensures sys.inv(state, Recorded(sys, h, stack))
  {
    ConsistentInv(sys, start, Recorded(sys, h, stack[..at]), Run(state, stack[at..]));
    RecordedSplit(sys, h, stack, at);
  }

  lemma FollowsStart<S(!new), B(!new), H(!new)>(sys: System<S, B, H>, h: H, stack: seq<B>, state: S)
    requires sys.inv(state, Recorded(sys, h, stack))
    ensures Follows(sys, h, stack, state, |stack|, state)
  {
    assert stack[..|stack|] == stack;
  }

  lemma FollowsTouch<S(!new), B(!new), H(!new)>(sys: System<S, B, H>, h: H, stack: seq<B>, start: S, at: nat, state: S)
    requires Sound(sys) && Follows(sys, h, stack, start, at, state)
    ensures Follows(sys, h, stack, start, at, sys.touch(state))
  {
    assert Same(sys, sys.touch(state), state);
  }

  lemma FollowsAdd<S(!new), B(!new), H(!new)>(sys: System<S, B, H>, h: H, stack: seq<B>, start: S, at: nat, state: S, b: B)
    requires Sound(sys) && Follows(sys, h, stack, start, at, state) && sys.legal(state, Recorded(sys, h, stack), b)
    ensures sys.add(state, b).Some? && Follows(sys, h, stack + [b], start, at, sys.add(state, b).value)
  {
    RecordedSplit(sys, h, stack, at);
    StepAdd(sys, start, Recorded(sys, h, stack[..at]), Run(state, stack[at..]), b);
    assert (stack + [b])[at..] == stack[at..] + [b] && (stack + [b])[..at] == stack[..at];
  }

  lemma FollowsRemove<S(!new), B(!new), H(!new)>(sys: System<S, B, H>, h: H, stack: seq<B>, start: S, at: nat, state: S)
    requires Sound(sys) && Follows(sys, h, stack, start, at, state) && at < |stack|
    ensures
      var back := sys.remove(state, stack[|stack| - 1]);
      && (back.Some? <==> TopUndoable(sys, start, stack[at..]))
      && (back.Some? ==> Follows(sys, h, stack[..|stack| - 1], start, at, back.value))
  {
    var n := |stack| - 1;
    var r := Run(state, stack[at..]);
    assert r.stack[|r.stack| - 1] == stack[n];
    StepRemove(sys, start, Recorded(sys, h, stack[..at]), r);
    assert stack[..n][at..] == r.stack[..|r.stack| - 1] && stack[..n][..at] == stack[..at];
  }

  // ---- A system made to remove what was added before it joined ----

  /** The pristine state is what the last addition makes of a pristine state before it. */
  ghost predicate Rewound<S, B, H>(sys: System<S, B, H>, s: S, h: H, b: B) {
    var t := sys.earlier(s);
    && sys.pristine(t, h) && sys.inv(t, h) && sys.legal(t, h, b) && sys.undoable(t, b)
    && sys.add(t, b).Some? && Same(sys, sys.add(t, b).value, s)
  }

  ghost predicate Rewindable<S(!new), B(!new), H(!new)>(sys: System<S, B, H>) {
    forall s, h, b ::
      sys.next(h, b) && sys.pristine(s, sys.record(h, b)) && sys.inv(s, sys.record(h, b)) ==> Rewound(sys, s, h, b)
  }

  /** A system that joined in a pristine state might as well have joined one addition earlier. */
  lemma FollowsEarlier<S(!new), B(!new), H(!new)>(sys: System<S, B, H>, h: H, stack: seq<B>, start: S, state: S)
    requires Rewindable(sys) && stack != [] && Follows(sys, h, stack, start, |stack|, state)
    requires sys.next(Recorded(sys, h, stack[..|stack| - 1]), stack[|stack| - 1]) && sys.pristine(start, Recorded(sys, h, stack))
    ensures Follows(sys, h, stack, sys.earlier(start), |stack| - 1, state)
    ensures sys.pristine(sys.earlier(start), Recorded(sys, h, stack[..|stack| - 1]))
    ensures TopUndoable(sys, sys.earlier(start), stack[|stack| - 1..])
  {
    var n := |stack| - 1;
    var b := stack[n];
    var t, h0 := sys.earlier(start), Recorded(sys, h, stack[..n]);
    assert stack[..n + 1] == stack;
    assert Rewound(sys, start, h0, b);
    assert stack[n..] == [b] && [b][..0] == [];
    assert stack[n + 1..] == [];
    assert Built(sys, t, []) == Some(t) && StackOk(sys, t, h0, []);
    assert Built(sys, t, [b]) == sys.add(t, b);
    assert Recorded(sys, h0, []) == h0;
    assert Same(sys, state, start);
  }
}

/**
 Many systems that share one stack of additions: members join at any time, all follow each
 addition and removal, also of what was added before they joined, single members are touched
 or start over, and members are dropped by a test on their state. Over every run each
 member's invariant holds against the shared stack.
 */
module Fleet {
  import opened Options
  import opened UndoStack

  /** A member with the state it joined in and the height of the stack then. */
  datatype Member<!S, !B, !H> = Member(sys: System<S, B, H>, start: S, at: nat, state: S)

  datatype Crew<!I(==), !S, !B, !H> = Crew(members: map<I, Member<S, B, H>>, stack: seq<B>)

  datatype Move<!I(==), !S, !B, !H> =
    | AddAll(block: B)
    | RemoveAll
    | Join(id: I, sys: System<S, B, H>, state: S)
    | StartOver(id: I, change: S -> S)
    | TouchOne(id: I)
    | Drop(done: S -> bool)

  ghost function Followed<S, B, H>(m: Member<S, B, H>, b: B, added: bool): Option<S> {
    if added then m.sys.add(m.state, b) else m.sys.remove(m.state, b)
  }

  /** Nobody fails on the block. */
  ghost predicate AllFollow<I, S, B, H>(c: Crew<I, S, B, H>, b: B, added: bool) {
    forall id :: id in c.members ==> Followed(c.members[id], b, added).Some?
  }

  /** A member that is taken below where it joined has joined there. */
  ghost function Lowered<S, B, H>(m: Member<S, B, H>, height: nat): Member<S, B, H> {
    if m.at <= height then m else m.(start := m.sys.earlier(m.start), at := height)
  }

  ghost function FollowAll<I, S, B, H>(c: Crew<I, S, B, H>, b: B, added: bool, height: nat): map<I, Member<S, B, H>>
    requires AllFollow(c, b, added)
  {
    map id | id in c.members :: Lowered(c.members[id], height).(state := Followed(c.members[id], b, added).value)
  }

  /** `None` where some member fails. */
  ghost function Do<I, S, B, H>(c: Crew<I, S, B, H>, move: Move<I, S, B, H>): Option<Crew<I, S, B, H>> {
    match move
    case AddAll(b) =>
      if AllFollow(c, b, true) then Some(Crew(FollowAll(c, b, true, |c.stack| + 1), c.stack + [b])) else None
    case RemoveAll =>
      if c.stack == [] then None else
        var n := |c.stack| - 1;
        if AllFollow(c, c.stack[n], false) then Some(Crew(FollowAll(c, c.stack[n], false, n), c.stack[..n])) else None
    case Join(id, sys, state) =>
      Some(c.(members := c.members[id := Member(sys, state, |c.stack|, state)]))
    case StartOver(id, change) =>
      Some(if id !in c.members then c else
           var m := c.members[id];
           c.(members := c.members[id := Member(m.sys, change(m.state), |c.stack|, change(m.state))]))
    case TouchOne(id) =>
      Some(if id !in c.members then c else
           var m := c.members[id];
           c.(members := c.members[id := m.(state := m.sys.touch(m.state))]))
    case Drop(done) =>
      Some(c.(members := map id | id in c.members && !done(c.members[id].state) :: c.members[id]))
  }

  /** A move changes the stack only by adding to it or removing its top. */
  lemma DoStack<I, S, B, H>(c: Crew<I, S, B, H>, move: Move<I, S, B, H>)
    requires Do(c, move).Some?
    ensures
      Do(c, move).value.stack ==
      if move.AddAll? then c.stack + [move.block]
      else if move.RemoveAll? then c.stack[..|c.stack| - 1] else c.stack
  {
  }

  /** It brings in no system but that of a member that joins. */
  lemma DoSystem<I, S, B, H>(c: Crew<I, S, B, H>, move: Move<I, S, B, H>, id: I)
    requires Do(c, move).Some? && id in Do(c, move).value.members
    ensures
      var m := Do(c, move).value.members[id];
      if move.Join? && id == move.id then m.sys == move.sys else id in c.members && m.sys == c.members[id].sys
  {
  }

  /** Everything on the stack was the next thing to add. */
  ghost predicate ChainOk<S, B, H>(sys: System<S, B, H>, h: H, stack: seq<B>) {
    forall i :: 0 <= i < |stack| ==> sys.next(Recorded(sys, h, stack[..i]), stack[i])
  }

  /** A member may enter in this state. */
  ghost predicate Enters<S, B, H>(sys: System<S, B, H>, h: H, stack: seq<B>, state: S) {
    sys.inv(state, Recorded(sys, h, stack)) && sys.pristine(state, Recorded(sys, h, stack))
  }

  ghost predicate Legal<I, S(!new), B(!new), H(!new)>(h: H, c: Crew<I, S, B, H>, move: Move<I, S, B, H>) {
    match move
    case AddAll(b) =>
      forall id :: id in c.members ==>
                     var m := c.members[id];
                     && m.sys.legal(m.state, Recorded(m.sys, h, c.stack), b)
                     && m.sys.next(Recorded(m.sys, h, c.stack), b)
    case RemoveAll => c.stack != []
    case Join(id, sys, state) =>
      id !in c.members && Sound(sys) && Rewindable(sys) && ChainOk(sys, h, c.stack) && Enters(sys, h, c.stack, state)
    case StartOver(id, change) => id in c.members ==> Enters(c.members[id].sys, h, c.stack, change(c.members[id].state))
    case _ => true
  }

  ghost function DoAll<I, S, B, H>(c: Crew<I, S, B, H>, moves: seq<Move<I, S, B, H>>): Option<Crew<I, S, B, H>> {
    if moves == [] then Some(c) else
      var before := DoAll(c, moves[..|moves| - 1]);
      if before.None? then None else Do(before.value, moves[|moves| - 1])
  }

  ghost predicate LegalRun<I, S(!new), B(!new), H(!new)>(h: H, c: Crew<I, S, B, H>, moves: seq<Move<I, S, B, H>>) {
    moves == [] ||
    (LegalRun(h, c, moves[..|moves| - 1]) &&
     (DoAll(c, moves[..|moves| - 1]).Some? ==> Legal(h, DoAll(c, moves[..|moves| - 1]).value, moves[|moves| - 1])))
  }

  ghost predicate MemberOk<S(!new), B(!new), H(!new)>(h: H, stack: seq<B>, m: Member<S, B, H>) {
    && Sound(m.sys) && Rewindable(m.sys) && ChainOk(m.sys, h, stack)
    && Follows(m.sys, h, stack, m.start, m.at, m.state)
    && m.sys.pristine(m.start, Recorded(m.sys, h, stack[..m.at]))
  }

  ghost predicate CrewInv<I, S(!new), B(!new), H(!new)>(h: H, c: Crew<I, S, B, H>) {
    forall id :: id in c.members ==> MemberOk(h, c.stack, c.members[id])
  }

  lemma MemberForth<S(!new), B(!new), H(!new)>(h: H, stack: seq<B>, m: Member<S, B, H>, b: B)
    requires MemberOk(h, stack, m)
    requires m.sys.legal(m.state, Recorded(m.sys, h, stack), b) && m.sys.next(Recorded(m.sys, h, stack), b)
    ensures Followed(m, b, true).Some?
    ensures MemberOk(h, stack + [b], Lowered(m, |stack| + 1).(state := Followed(m, b, true).value))
  {
    FollowsAdd(m.sys, h, stack, m.start, m.at, m.state, b);
    assert (stack + [b])[..m.at] == stack[..m.at];
    forall i | 0 <= i < |stack + [b]| ensures m.sys.next(Recorded(m.sys, h, (stack + [b])[..i]), (stack + [b])[i]) {
      assert (stack + [b])[..i] == stack[..i];
      assert stack[..|stack|] == stack;
    }
  }

  lemma AddKeeps<I, S(!new), B(!new), H(!new)>(h: H, c: Crew<I, S, B, H>, b: B)
    requires CrewInv(h, c) && Legal(h, c, AddAll(b))
    ensures AllFollow(c, b, true) && CrewInv(h, Crew(FollowAll(c, b, true, |c.stack| + 1), c.stack + [b]))
  {
    forall id | id in c.members
      ensures
        var m := c.members[id];
        && Followed(m, b, true).Some?
        && MemberOk(h, c.stack + [b], Lowered(m, |c.stack| + 1).(state := Followed(m, b, true).value))
    {
      MemberForth(h, c.stack, c.members[id], b);
    }
  }

  /** The last addition came before this member joined, or could be undone when the member met it. */
  ghost predicate CanStepBack<S, B, H>(m: Member<S, B, H>, stack: seq<B>) {
    m.at == |stack| || (m.at < |stack| && TopUndoable(m.sys, m.start, stack[m.at..]))
  }

  /** Some member cannot undo the last addition. */
  ghost predicate Stuck<I(!new), S, B, H>(c: Crew<I, S, B, H>) {
    exists id :: id in c.members && !CanStepBack(c.members[id], c.stack)
  }

  lemma ChainBelow<S, B, H>(sys: System<S, B, H>, h: H, stack: seq<B>, n: nat)
    requires ChainOk(sys, h, stack) && n == |stack| - 1
    ensures ChainOk(sys, h, stack[..n]) && sys.next(Recorded(sys, h, stack[..n]), stack[n])
  {
    forall i | 0 <= i < n ensures sys.next(Recorded(sys, h, stack[..n][..i]), stack[..n][i]) {
      assert stack[..n][..i] == stack[..i];
    }
  }

  /** A member that has followed the last addition. */
  lemma SeenBack<S(!new), B(!new), H(!new)>(h: H, stack: seq<B>, m: Member<S, B, H>, n: nat)
    requires MemberOk(h, stack, m) && n == |stack| - 1 && m.at <= n
    ensures
      var back := Followed(m, stack[n], false);
      && (back.Some? <==> TopUndoable(m.sys, m.start, stack[m.at..]))
      && (back.Some? ==> MemberOk(h, stack[..n], m.(state := back.value)))
  {
    ChainBelow(m.sys, h, stack, n);
    FollowsRemove(m.sys, h, stack, m.start, m.at, m.state);
    assert stack[..n][..m.at] == stack[..m.at];
  }

  lemma MemberBack<S(!new), B(!new), H(!new)>(h: H, stack: seq<B>, m: Member<S, B, H>, n: nat)
    requires MemberOk(h, stack, m) && n == |stack| - 1
    ensures
      var back := Followed(m, stack[n], false);
      && (back.Some? <==> CanStepBack(m, stack))
      && (back.Some? ==> MemberOk(h, stack[..n], Lowered(m, n).(state := back.value)))
  {
    if m.at == |stack| {
      assert stack[..m.at] == stack;
      ChainBelow(m.sys, h, stack, n);
      FollowsEarlier(m.sys, h, stack, m.start, m.state);
      SeenBack(h, stack, Lowered(m, n), n);
    } else {
      SeenBack(h, stack, m, n);
    }
  }

  lemma RemoveKeeps<I(!new), S(!new), B(!new), H(!new)>(h: H, c: Crew<I, S, B, H>, n: nat)
    requires CrewInv(h, c) && Legal(h, c, RemoveAll) && n == |c.stack| - 1
    ensures AllFollow(c, c.stack[n], false) <==> !Stuck(c)
    ensures AllFollow(c, c.stack[n], false) ==> CrewInv(h, Crew(FollowAll(c, c.stack[n], false, n), c.stack[..n]))
  {
    forall id | id in c.members
      ensures
        var m := c.members[id];
        var back := Followed(m, c.stack[n], false);
        && (back.Some? <==> CanStepBack(m, c.stack))
        && (back.Some? ==> MemberOk(h, c.stack[..n], Lowered(m, n).(state := back.value)))
    {
      MemberBack(h, c.stack, c.members[id], n);
    }
  }

  lemma EntersOk<S(!new), B(!new), H(!new)>(h: H, stack: seq<B>, sys: System<S, B, H>, state: S)
    requires Sound(sys) && Rewindable(sys) && ChainOk(sys, h, stack) && Enters(sys, h, stack, state)
    ensures MemberOk(h, stack, Member(sys, state, |stack|, state))
  {
    assert stack[..|stack|] == stack;
    FollowsStart(sys, h, stack, state);
  }

  /** Moves that leave the stack alone. */
  lemma OneKeeps<I, S(!new), B(!new), H(!new)>(h: H, c: Crew<I, S, B, H>, move: Move<I, S, B, H>)
    requires CrewInv(h, c) && Legal(h, c, move) && !move.AddAll? && !move.RemoveAll?
    ensures Do(c, move).Some? && CrewInv(h, Do(c, move).value)
  {
    match move {
      case Join(id, sys, state) => EntersOk(h, c.stack, sys, state);
      case StartOver(id, change) =>
        if id in c.members {
          EntersOk(h, c.stack, c.members[id].sys, change(c.members[id].state));
        }
      case TouchOne(id) =>
        if id in c.members {
          var m := c.members[id];
          FollowsTouch(m.sys, h, c.stack, m.start, m.at, m.state);
        }
      case Drop(_) =>
    }
  }

  /** A legal move fails exactly when it removes an addition that some member met and cannot
      undo; otherwise it keeps the members in step with the stack. */
  lemma MoveKeeps<I(!new), S(!new), B(!new), H(!new)>(h: H, c: Crew<I, S, B, H>, move: Move<I, S, B, H>)
    requires CrewInv(h, c) && Legal(h, c, move)
    ensures Do(c, move).None? <==> move.RemoveAll? && Stuck(c)
    ensures Do(c, move).Some? ==> CrewInv(h, Do(c, move).value)
  {
    match move {
      case AddAll(b) => AddKeeps(h, c, b);
      case RemoveAll => RemoveKeeps(h, c, |c.stack| - 1);
      case _ => OneKeeps(h, c, move);
    }
  }

  /** Over every legal run that does not fail, every member stays in step with the stack. */
  lemma {:induction false} RunKeeps<I(!new), S(!new), B(!new), H(!new)>(h: H, c: Crew<I, S, B, H>, moves: seq<Move<I, S, B, H>>)
    requires CrewInv(h, c) && LegalRun(h, c, moves) && DoAll(c, moves).Some?
    ensures CrewInv(h, DoAll(c, moves).value)
  {
    if moves != [] {
      RunKeeps(h, c, moves[..|moves| - 1]);
      MoveKeeps(h, DoAll(c, moves[..|moves| - 1]).value, moves[|moves| - 1]);
    }
  }

  /** Hence its invariant holds against the stack. */
  lemma MemberInv<I, S(!new), B(!new), H(!new)>(h: H, c: Crew<I, S, B, H>, id: I)
    requires CrewInv(h, c) && id in c.members
    ensures var m := c.members[id]; m.sys.inv(m.state, Recorded(m.sys, h, c.stack))
  {
    var m := c.members[id];
    FollowsInv(m.sys, h, c.stack, m.start, m.at, m.state);
  }
}

/**
 * What the stack-depth analysis is for: its result must bound the operand
 * stack on every way execution can go through the blocks. The reference
 * is a path of (block, entry depth) points starting at block 0 with an
 * empty stack; the corrected analysis is proved to bound every instruction
 * on every such path, and two small programs show that the analysis as
 * written does not.
 */
module StackSound {
  import opened Wrappers
  import opened Bytecode
  import opened IndexSets
  import opened StackDepth

  /** Execution is at the start of block `block` with `depth` values on the stack. */
  datatype Point = Point(block: Label, depth: int)

  /**
   * From `s`, instruction `j` of the block runs (no unconditional branch
   * before it) and its branch is taken to `t`, at the depth before it plus
   * its branch-taken effect.
   */
  predicate JumpsAt(blocks: seq<Block>, s: Point, j: nat, t: Point)
    requires s.block < |blocks|
  {
    var ins := blocks[s.block].instructions;
    && j < |ins| && NoBranchIn(ins, 0, j)
    && ins[j].instr.labelArg == Some(t.block)
    && t.depth == s.depth + SumEffect(ins, 0, j) + ins[j].instr.StackEffect(true)
  }

  /**
   * From `s`, the whole block runs without an unconditional branch and
   * control falls through to the block after it in `order`, at the depth
   * the block ends with.
   */
  predicate FallsTo(blocks: seq<Block>, order: seq<Label>, s: Point, t: Point)
    requires s.block < |blocks|
  {
    var ins := blocks[s.block].instructions;
    && NoBranchIn(ins, 0, |ins|)
    && match IndexOf(order, s.block)
       case None => false
       case Some(p) =>
         p + 1 < |order| && t.block == order[p + 1] && t.depth == s.depth + SumEffect(ins, 0, |ins|)
  }

  ghost predicate Edge(blocks: seq<Block>, order: seq<Label>, s: Point, t: Point)
    requires s.block < |blocks|
  {
    (exists j: nat :: JumpsAt(blocks, s, j, t)) || FallsTo(blocks, order, s, t)
  }

  /** A path of execution from the entry block with an empty stack. */
  ghost predicate IsPath(blocks: seq<Block>, order: seq<Label>, path: seq<Point>) {
    && |path| > 0 && path[0] == Point(0, 0)
    && (forall k :: 0 <= k < |path| ==> path[k].block < |blocks|)
    && (forall k :: 0 <= k < |path| - 1 ==> LinkAt(blocks, order, path, k))
  }

  /** Point `k + 1` of `path` follows from point `k` by one edge. */
  ghost predicate LinkAt(blocks: seq<Block>, order: seq<Label>, path: seq<Point>, k: nat)
    requires k + 1 < |path|
  {
    path[k].block < |blocks| && Edge(blocks, order, path[k], path[k + 1])
  }

  /**
   * The consequences of block `b`'s start depth are all recorded in `w`:
   * every instruction that runs stays within the maximum, every branch
   * target has at least the branch-taken depth, and a block that falls
   * through has a successor in `order` with at least the end depth.
   */
  ghost predicate Stable(blocks: seq<Block>, order: seq<Label>, w: Walker, b: Label)
    requires LabelsBelow(blocks, |blocks|) && |w.startdepths| == |blocks|
    requires b < |blocks| && w.startdepths[b].Some?
  {
    assert LabelsIn(blocks[b].instructions, |blocks|);
    && JumpsRecorded(blocks[b].instructions, w.startdepths[b].value, w)
    && FallRecorded(blocks, order, b, w.startdepths[b].value, w)
  }

  /**
   * Entering `ins` at `d`, every instruction that runs stays within the
   * maximum of `w`, and every branch target has at least the branch-taken
   * depth.
   */
  ghost predicate JumpsRecorded(ins: seq<InstructionInfo>, d: int, w: Walker)
    requires LabelsIn(ins, |w.startdepths|)
  {
    forall j :: 0 <= j < |ins| && NoBranchIn(ins, 0, j) ==>
      && RunsWithin(ins, j, d, w.maxdepth)
      && (ins[j].instr.labelArg.Some? ==>
            assert LabelBelow(ins[j], |w.startdepths|);
            AtLeast(w.startdepths[ins[j].instr.labelArg.value],
                    d + SumEffect(ins, 0, j) + ins[j].instr.StackEffect(true)))
  }

  /**
   * Entering block `b` at `d`, if the whole block runs it has a successor
   * in `order` whose start depth in `w` is at least the end depth.
   */
  ghost predicate FallRecorded(blocks: seq<Block>, order: seq<Label>, b: Label, d: int, w: Walker)
    requires |w.startdepths| == |blocks| && b < |blocks|
  {
    var ins := blocks[b].instructions;
    NoBranchIn(ins, 0, |ins|) ==>
      match IndexOf(order, b)
      case None => false
      case Some(p) =>
        p + 1 < |order| && order[p + 1] < |blocks|
        && AtLeast(w.startdepths[order[p + 1]], d + SumEffect(ins, 0, |ins|))
  }

  /** Entries that carry a position of `order` carry one that holds their block. */
  predicate PositionsHold(order: seq<Label>, stack: seq<Entry>) {
    forall k :: 0 <= k < |stack| && stack[k].blockorder.At? ==>
      stack[k].blockorder.pos < |order| && order[stack[k].blockorder.pos] == stack[k].block
  }

  /**
   * The invariant of the corrected worklist: the entry block has a start
   * depth of at least 0, and every block with a start depth is either still
   * queued or has all its consequences recorded.
   */
  ghost predicate Inv(blocks: seq<Block>, order: seq<Label>, w: Walker)
    requires GraphOk(blocks, order)
  {
    && WalkerOk(w, |blocks|)
    && AtLeast(w.startdepths[0], 0)
    && PositionsHold(order, w.stack)
    && forall b :: 0 <= b < |blocks| ==> Settled(blocks, order, w, b)
  }

  /** Block `b` has no start depth, is still queued, or has its consequences recorded. */
  ghost predicate Settled(blocks: seq<Block>, order: seq<Label>, w: Walker, b: Label)
    requires LabelsBelow(blocks, |blocks|) && |w.startdepths| == |blocks| && b < |blocks|
  {
    w.startdepths[b].Some? ==> b in Pending(w.stack) || Stable(blocks, order, w, b)
  }

  /** State `w2` arises from `w` by raising the maximum and pushing. */
  ghost predicate Keeps(w: Walker, w2: Walker) {
    && Grows(w.startdepths, w2.startdepths)
    && w2.maxdepth >= w.maxdepth
    && |w.stack| <= |w2.stack| && w2.stack[..|w.stack|] == w.stack
    && (forall c :: 0 <= c < |w.startdepths| && w2.startdepths[c] != w.startdepths[c] ==>
         c in Pending(w2.stack))
  }

  /** A block's recorded consequences stay recorded while nothing is lowered and its own start depth stays. */
  lemma StableMonotone(blocks: seq<Block>, order: seq<Label>, w: Walker, w2: Walker, b: Label)
    requires LabelsBelow(blocks, |blocks|) && |w.startdepths| == |blocks|
    requires b < |blocks| && w.startdepths[b].Some? && Stable(blocks, order, w, b)
    requires Grows(w.startdepths, w2.startdepths) && w2.maxdepth >= w.maxdepth
    requires w2.startdepths[b] == w.startdepths[b]
    ensures Stable(blocks, order, w2, b)
  {
    var ins := blocks[b].instructions;
    forall j | 0 <= j < |ins| && NoBranchIn(ins, 0, j) && ins[j].instr.labelArg.Some?
      ensures AtLeast(w2.startdepths[ins[j].instr.labelArg.value],
                      w.startdepths[b].value + SumEffect(ins, 0, j) + ins[j].instr.StackEffect(true))
    {
      assert LabelsIn(ins, |blocks|) && LabelBelow(ins[j], |blocks|);
    }
  }

  /** The corrected initial state satisfies the invariant when `order` starts with block 0. */
  lemma InitInv(blocks: seq<Block>, order: seq<Label>)
    requires GraphOk(blocks, order) && |order| > 0 && order[0] == 0
    ensures Inv(blocks, order, Init(Corrected, |blocks|))
  {
    var w := Init(Corrected, |blocks|);
    assert w.stack[0].block == 0;
    assert 0 in Pending(w.stack);
  }

  /** The state after the walk of entry `e`'s block in a corrected round. */
  lemma WalkKeeps(ins: seq<InstructionInfo>, depth: int, w: Walker)
    requires LabelsIn(ins, |w.startdepths|) && WalkerOk(w, |w.startdepths|)
    ensures var r := WalkFrom(ins, 0, depth, w).w;
      Keeps(w, r) && (forall k :: |w.stack| <= k < |r.stack| ==> r.stack[k].blockorder == Unknown)
  {
    WalkExtends(ins, 0, depth, w);
  }

  lemma FallThroughKeeps(order: seq<Label>, e: Entry, w: Walker, depth: int)
    requires InRange(order, |w.startdepths|) && WalkerOk(w, |w.startdepths|)
    requires FallThrough(order, e, w, depth).Next?
    ensures var r := FallThrough(order, e, w, depth).w;
      && Keeps(w, r)
      && exists next :: NextPosition(order, e) == Some(next) && next < |order|
           && AtLeast(r.startdepths[order[next]], depth)
           && (r.stack == w.stack || r.stack == w.stack + [Entry(order[next], At(next))])
  {
    var next := NextPosition(order, e).value;
    var r := FallThrough(order, e, w, depth).w;
    if r.stack != w.stack {
      assert r.stack[|w.stack|].block == order[next];
      assert order[next] in Pending(r.stack);
    }
  }

  lemma KeepsTrans(w1: Walker, w2: Walker, w3: Walker)
    requires Keeps(w1, w2) && Keeps(w2, w3)
    ensures Keeps(w1, w3)
  {
    assert w3.stack[..|w2.stack|][..|w1.stack|] == w3.stack[..|w1.stack|];
    forall c | 0 <= c < |w1.startdepths| && w3.startdepths[c] != w1.startdepths[c]
      ensures c in Pending(w3.stack)
    {
      if w2.startdepths[c] != w1.startdepths[c] {
        var k :| 0 <= k < |w2.stack| && w2.stack[k].block == c;
        assert w3.stack[k] == w2.stack[k];
      }
    }
  }

  /**
   * The popped block's consequences are recorded once its round ends,
   * unless its own start depth changed during the round.
   */
  lemma RoundStabilises(blocks: seq<Block>, order: seq<Label>, w: Walker, w2: Walker)
    requires GraphOk(blocks, order) && NoDup(order) && WalkerOk(w, |blocks|) && w.stack != []
    requires PositionsHold(order, w.stack)
    requires Step(Corrected, blocks, order, w) == Next(w2)
    ensures var b := w.stack[|w.stack| - 1].block;
      w2.startdepths[b] == w.startdepths[b] ==> Stable(blocks, order, w2, b)
  {
    var b := w.stack[|w.stack| - 1].block;
    if w2.startdepths[b] == w.startdepths[b] {
      RoundRecordsJumps(blocks, order, w, w2);
      RoundRecordsFall(blocks, order, w, w2);
    }
  }

  /** The walk of a corrected round records every instruction it runs. */
  lemma RoundRecordsJumps(blocks: seq<Block>, order: seq<Label>, w: Walker, w2: Walker)
    requires GraphOk(blocks, order) && WalkerOk(w, |blocks|) && w.stack != []
    requires Step(Corrected, blocks, order, w) == Next(w2)
    ensures var b := w.stack[|w.stack| - 1].block;
      LabelsIn(blocks[b].instructions, |w2.startdepths|)
      && JumpsRecorded(blocks[b].instructions, w.startdepths[b].value, w2)
  {
    var e := w.stack[|w.stack| - 1];
    var b := e.block;
    var ins := blocks[b].instructions;
    var d := w.startdepths[b].value;
    var marked := Mark(Corrected, Pop(w), b, true);
    assert LabelsIn(ins, |blocks|);
    var walk := WalkFrom(ins, 0, d, marked);
    assert Step(Corrected, blocks, order, w) == Finish(Corrected, order, e, walk);
    assert Grows(walk.w.startdepths, w2.startdepths) && w2.maxdepth >= walk.w.maxdepth;
    forall j | 0 <= j < |ins| && NoBranchIn(ins, 0, j)
      ensures RunsWithin(ins, j, d, w2.maxdepth)
      ensures ins[j].instr.labelArg.Some? ==>
        AtLeast(w2.startdepths[ins[j].instr.labelArg.value],
                d + SumEffect(ins, 0, j) + ins[j].instr.StackEffect(true))
    {
      WalkBoundsAt(ins, 0, d, marked, j);
    }
  }

  /** A corrected round that falls through records the end depth at the successor. */
  lemma RoundRecordsFall(blocks: seq<Block>, order: seq<Label>, w: Walker, w2: Walker)
    requires GraphOk(blocks, order) && NoDup(order) && WalkerOk(w, |blocks|) && w.stack != []
    requires PositionsHold(order, w.stack)
    requires Step(Corrected, blocks, order, w) == Next(w2)
    ensures var b := w.stack[|w.stack| - 1].block;
      FallRecorded(blocks, order, b, w.startdepths[b].value, w2)
  {
    var e := w.stack[|w.stack| - 1];
    var b := e.block;
    var ins := blocks[b].instructions;
    var d := w.startdepths[b].value;
    var marked := Mark(Corrected, Pop(w), b, true);
    assert LabelsIn(ins, |blocks|);
    var walk := WalkFrom(ins, 0, d, marked);
    if NoBranchIn(ins, 0, |ins|) {
      assert Step(Corrected, blocks, order, w) == Finish(Corrected, order, e, walk);
      WalkEndDepth(ins, 0, d, marked);
      assert Finish(Corrected, order, e, walk) == FallThrough(order, e, walk.w, walk.depth);
      FallThroughKeeps(order, e, walk.w, walk.depth);
      assert e.blockorder.At? ==> e.blockorder.pos < |order| && order[e.blockorder.pos] == b;
      NextPositionFollowsIndex(order, e);
    }
  }

  /**
   * Without repetitions in `order`, the position after an entry's block is
   * the one after the block's index, whether the entry carried its
   * position or it had to be searched for.
   */
  lemma NextPositionFollowsIndex(order: seq<Label>, e: Entry)
    requires NoDup(order)
    requires e.blockorder.At? ==> e.blockorder.pos < |order| && order[e.blockorder.pos] == e.block
    ensures NextPosition(order, e).Some? ==>
      IndexOf(order, e.block) == Some(NextPosition(order, e).value - 1)
  {
    if e.blockorder.At? {
      IndexOfNoDup(order, e.blockorder.pos);
    }
  }

  /** A corrected round only raises and pushes after popping. */
  lemma RoundKeeps(blocks: seq<Block>, order: seq<Label>, w: Walker, w2: Walker)
    requires GraphOk(blocks, order) && WalkerOk(w, |blocks|) && w.stack != []
    requires Step(Corrected, blocks, order, w) == Next(w2)
    ensures Keeps(Pop(w), w2)
  {
    var e := w.stack[|w.stack| - 1];
    var b := e.block;
    var ins := blocks[b].instructions;
    var d := w.startdepths[b].value;
    var popped := Pop(w);
    assert Mark(Corrected, popped, b, true) == popped;
    assert LabelsIn(ins, |blocks|);
    var walk := WalkFrom(ins, 0, d, popped);
    assert Step(Corrected, blocks, order, w) == Finish(Corrected, order, e, walk);
    WalkKeeps(ins, d, popped);
    if !walk.stopped {
      assert Finish(Corrected, order, e, walk) == FallThrough(order, e, walk.w, walk.depth);
      FallThroughKeeps(order, e, walk.w, walk.depth);
      KeepsTrans(popped, walk.w, w2);
    }
  }

  /** Every entry a corrected round pushes with a position carries one that holds its block. */
  lemma RoundPositions(blocks: seq<Block>, order: seq<Label>, w: Walker, w2: Walker)
    requires GraphOk(blocks, order) && WalkerOk(w, |blocks|) && w.stack != []
    requires PositionsHold(order, w.stack)
    requires Step(Corrected, blocks, order, w) == Next(w2)
    ensures PositionsHold(order, w2.stack)
  {
    var e := w.stack[|w.stack| - 1];
    var b := e.block;
    var ins := blocks[b].instructions;
    var d := w.startdepths[b].value;
    var popped := Pop(w);
    assert Mark(Corrected, popped, b, true) == popped;
    assert LabelsIn(ins, |blocks|);
    var walk := WalkFrom(ins, 0, d, popped);
    assert Step(Corrected, blocks, order, w) == Finish(Corrected, order, e, walk);
    WalkKeeps(ins, d, popped);
    if !walk.stopped {
      assert Finish(Corrected, order, e, walk) == FallThrough(order, e, walk.w, walk.depth);
      FallThroughKeeps(order, e, walk.w, walk.depth);
    }
    forall k | 0 <= k < |w2.stack| && w2.stack[k].blockorder.At?
      ensures w2.stack[k].blockorder.pos < |order| && order[w2.stack[k].blockorder.pos] == w2.stack[k].block
    {
      if k < |popped.stack| {
        assert w2.stack[k] == walk.w.stack[k] == popped.stack[k] == w.stack[k];
      }
    }
  }

  /** A corrected round keeps the invariant. */
  lemma StepKeepsInv(blocks: seq<Block>, order: seq<Label>, w: Walker, w2: Walker)
    requires GraphOk(blocks, order) && NoDup(order) && w.stack != [] && Inv(blocks, order, w)
    requires Step(Corrected, blocks, order, w) == Next(w2)
    ensures Inv(blocks, order, w2)
  {
    RoundKeeps(blocks, order, w, w2);
    RoundPositions(blocks, order, w, w2);
    RoundStabilises(blocks, order, w, w2);
    InvAfterRound(blocks, order, w, w2);
  }

  /**
   * The invariant carries over a round that popped the last entry,
   * only raised and pushed after that, and recorded the popped block's
   * consequences unless its start depth changed.
   */
  lemma InvAfterRound(blocks: seq<Block>, order: seq<Label>, w: Walker, w2: Walker)
    requires GraphOk(blocks, order) && w.stack != [] && Inv(blocks, order, w)
    requires WalkerOk(w2, |blocks|) && PositionsHold(order, w2.stack)
    requires Keeps(Pop(w), w2)
    requires var b := w.stack[|w.stack| - 1].block;
      w2.startdepths[b] == w.startdepths[b] ==> Stable(blocks, order, w2, b)
    ensures Inv(blocks, order, w2)
  {
    var b := w.stack[|w.stack| - 1].block;
    var popped := Pop(w);
    forall c | 0 <= c < |blocks|
      ensures Settled(blocks, order, w2, c)
    {
      if w2.startdepths[c].Some? && w2.startdepths[c] == w.startdepths[c] {
        assert Settled(blocks, order, w, c);
        if Stable(blocks, order, w, c) {
          StableMonotone(blocks, order, w, w2, c);
        } else if c != b {
          var k :| 0 <= k < |w.stack| && w.stack[k].block == c;
          assert k != |w.stack| - 1;
          assert w2.stack[k] == popped.stack[k];
        }
      }
    }
  }

  /** The corrected worklist loop keeps the invariant up to its end. */
  lemma {:induction false} RunKeepsInv(blocks: seq<Block>, order: seq<Label>, fuel: nat, w: Walker)
    requires GraphOk(blocks, order) && NoDup(order) && Inv(blocks, order, w)
    ensures Run(Corrected, blocks, order, fuel, w).Done? ==>
      Inv(blocks, order, Run(Corrected, blocks, order, fuel, w).w)
    decreases fuel
  {
    if w.stack != [] && fuel > 0 {
      match Step(Corrected, blocks, order, w)
      case Next(w2) =>
        StepKeepsInv(blocks, order, w, w2);
        RunKeepsInv(blocks, order, fuel - 1, w2);
      case Panicked(_) =>
    }
  }

  /**
   * When the corrected analysis finishes, every block with a start depth
   * has all its consequences recorded in the final state.
   */
  lemma FinalStable(blocks: seq<Block>, order: seq<Label>, fuel: nat)
    requires GraphOk(blocks, order) && NoDup(order) && |order| > 0 && order[0] == 0
    requires Run(Corrected, blocks, order, fuel, Init(Corrected, |blocks|)).Done?
    ensures var w := Run(Corrected, blocks, order, fuel, Init(Corrected, |blocks|)).w;
      Inv(blocks, order, w) && w.stack == []
  {
    InitInv(blocks, order);
    RunKeepsInv(blocks, order, fuel, Init(Corrected, |blocks|));
  }

  /**
   * Every point of every path is covered by a state whose start depths
   * are all stable: the block has a start depth at least the path's depth
   * there.
   */
  lemma {:induction false} PathCovered(blocks: seq<Block>, order: seq<Label>, w: Walker, path: seq<Point>, k: nat)
    requires GraphOk(blocks, order) && Inv(blocks, order, w) && w.stack == []
    requires IsPath(blocks, order, path) && k < |path|
    ensures AtLeast(w.startdepths[path[k].block], path[k].depth)
  {
    if k > 0 {
      PathCovered(blocks, order, w, path, k - 1);
      var s, t := path[k - 1], path[k];
      assert LinkAt(blocks, order, path, k - 1);
      var ins := blocks[s.block].instructions;
      assert Settled(blocks, order, w, s.block);
      if exists j: nat :: JumpsAt(blocks, s, j, t) {
        var j: nat :| JumpsAt(blocks, s, j, t);
        assert AtLeast(w.startdepths[t.block],
                       w.startdepths[s.block].value + SumEffect(ins, 0, j) + ins[j].instr.StackEffect(true));
      } else {
        assert FallsTo(blocks, order, s, t);
      }
    }
  }

  /**
   * Soundness of the corrected analysis: when it returns `m`, no
   * instruction on any path from the entry block leaves more than `m`
   * values on the stack, whether its branch is taken or not.
   */
  lemma CorrectedBoundsEveryPath(
    blocks: seq<Block>, order: seq<Label>, fuel: nat, m: nat, path: seq<Point>, k: nat, j: nat)
    requires GraphOk(blocks, order) && NoDup(order) && |order| > 0 && order[0] == 0
    requires MaxStackDepth(Corrected, blocks, order, fuel) == Ok(m)
    requires IsPath(blocks, order, path) && k < |path|
    requires j < |blocks[path[k].block].instructions|
    requires NoBranchIn(blocks[path[k].block].instructions, 0, j)
    ensures RunsWithin(blocks[path[k].block].instructions, j, path[k].depth, m)
  {
    var w := Run(Corrected, blocks, order, fuel, Init(Corrected, |blocks|)).w;
    FinalStable(blocks, order, fuel);
    assert w.maxdepth == m;
    PathCovered(blocks, order, w, path, k);
    assert Settled(blocks, order, w, path[k].block);
  }
}

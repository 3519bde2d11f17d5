/**
 * Stack-depth analysis: a worklist over blocks that records, per block, the
 * greatest stack depth known at its entry and the greatest depth reached
 * anywhere.
 *
 * The worklist is modelled twice: as a function of an explicit state
 * (`Walker`, `Step`, `Run`), and as methods over arrays that follow the
 * code and are proved to compute exactly what the function does. Both
 * come in two variants: `AsWritten`, the code as it stands, and
 * `Corrected`, with start depths that begin unset and without skipping
 * blocks marked `seen` (see the soundness module for why).
 */
module StackDepth {
  import opened Wrappers
  import opened Bytecode
  import opened IndexSets
  import DeadCode

  datatype Variant = AsWritten | Corrected

  /**
   * The position of an entry's block in `block_order` when the pusher knew
   * it; `Unknown` is the code's `u32::MAX` for a branch target.
   */
  datatype OrderPos = At(pos: nat) | Unknown

  /** A worklist entry: a block, and its position in `block_order` if known. */
  datatype Entry = Entry(block: Label, blockorder: OrderPos)

  /** The ways the analysis stops without a result. */
  datatype Abort =
    | BlockNotInOrder     // `position(...).unwrap()` on a block missing from `block_order`
    | FallThroughPastEnd  // `block_order[next_blockorder]` out of bounds
    | OutOfFuel           // the worklist did not empty within the step budget

  /**
   * The analysis state: the worklist, the start depth table (`None` is an
   * unset entry, which only the corrected variant has), the `seen` marks and
   * the greatest depth so far.
   */
  datatype Walker = Walker(
    stack: seq<Entry>,
    startdepths: seq<Option<int>>,
    seen: seq<bool>,
    maxdepth: nat)

  /** What the analysis needs of the graph to index safely. */
  predicate GraphOk(blocks: seq<Block>, order: seq<Label>) {
    |blocks| > 0 && LabelsBelow(blocks, |blocks|) && InRange(order, |blocks|)
  }

  /** The state's tables fit `n` blocks, and every queued block has a start depth. */
  predicate WalkerOk(w: Walker, n: nat) {
    |w.startdepths| == n && |w.seen| == n
    && forall k :: 0 <= k < |w.stack| ==>
      w.stack[k].block < n && w.startdepths[w.stack[k].block].Some?
  }

  /** Entry `o` is unset or below `depth`, so that pushing `depth` records it. */
  predicate Below(o: Option<int>, depth: int) {
    o.None? || o.value < depth
  }

  /** Entry `o` records a depth of at least `depth`. */
  predicate AtLeast(o: Option<int>, depth: int) {
    o.Some? && o.value >= depth
  }

  /** Table `b` is table `a` with no entry lowered and none unset again. */
  predicate Grows(a: seq<Option<int>>, b: seq<Option<int>>) {
    |a| == |b| && forall j :: 0 <= j < |a| && a[j].Some? ==> AtLeast(b[j], a[j].value)
  }

  /** The blocks that have an entry on the worklist. */
  ghost function Pending(stack: seq<Entry>): set<Label> {
    set k | 0 <= k < |stack| :: stack[k].block
  }

  /** The greatest depth with `d` taken into account. */
  function Raise(w: Walker, d: int): (r: Walker)
    ensures r.maxdepth >= d && r.maxdepth >= w.maxdepth
    ensures r.maxdepth == w.maxdepth || r.maxdepth == d
    ensures r.(maxdepth := w.maxdepth) == w
  {
    if d > w.maxdepth then w.(maxdepth := d) else w
  }

  /**
   * `stackdepth_push`: record `depth` for the target and queue it when the
   * target had no start depth or a smaller one; otherwise nothing changes.
   */
  function Push(w: Walker, target: Entry, depth: int): (r: Walker)
    requires target.block < |w.startdepths|
    ensures Grows(w.startdepths, r.startdepths)
    ensures AtLeast(r.startdepths[target.block], depth)
    ensures Below(w.startdepths[target.block], depth) ==> r.startdepths[target.block] == Some(depth)
    ensures forall j :: 0 <= j < |w.startdepths| && j != target.block ==>
      r.startdepths[j] == w.startdepths[j]
    ensures Below(w.startdepths[target.block], depth) <==> r.stack == w.stack + [target]
    ensures !Below(w.startdepths[target.block], depth) ==> r == w
    ensures r.maxdepth == w.maxdepth && r.seen == w.seen
  {
    if Below(w.startdepths[target.block], depth) then
      w.(stack := w.stack + [target],
         startdepths := w.startdepths[target.block := Some(depth)])
    else w
  }

  /** The sum of the fall-through stack effects of `ins[i..j]`. */
  function SumEffect(ins: seq<InstructionInfo>, i: nat, j: nat): int
    requires i <= j <= |ins|
    decreases j - i
  {
    if i == j then 0 else ins[i].instr.StackEffect(false) + SumEffect(ins, i + 1, j)
  }

  /** None of `ins[i..j]` is an unconditional branch, so all of them up to `j` run. */
  predicate NoBranchIn(ins: seq<InstructionInfo>, i: nat, j: nat)
    requires i <= j <= |ins|
  {
    forall m :: i <= m < j ==> !ins[m].instr.UnconditionalBranch()
  }

  /**
   * State `w2` arises from `w` by pushes and raised maxima: no start depth
   * lowered, the old worklist kept as a prefix, only branch-target entries
   * added and every block whose start depth changed queued.
   */
  ghost predicate Extends(w: Walker, w2: Walker) {
    && Grows(w.startdepths, w2.startdepths)
    && w2.seen == w.seen
    && w2.maxdepth >= w.maxdepth
    && |w.stack| <= |w2.stack| && w2.stack[..|w.stack|] == w.stack
    && (forall k :: |w.stack| <= k < |w2.stack| ==> w2.stack[k].blockorder == Unknown)
    && (forall c :: 0 <= c < |w.startdepths| && w2.startdepths[c] != w.startdepths[c] ==>
         c in Pending(w2.stack))
  }

  /** The result of walking a block: the state, the depth reached and whether it stopped at an unconditional branch. */
  datatype WalkEnd = WalkEnd(w: Walker, depth: int, stopped: bool)

  /**
   * One instruction of the walk at stack depth `depth`: raise the maximum
   * by its fall-through depth and, for a label operand, by its branch-taken
   * depth, and push that depth to the target block.
   */
  function Visit(ii: InstructionInfo, depth: int, w: Walker): (r: Walker)
    requires LabelBelow(ii, |w.startdepths|) && WalkerOk(w, |w.startdepths|)
    ensures WalkerOk(r, |w.startdepths|)
    ensures Grows(w.startdepths, r.startdepths) && r.seen == w.seen && r.maxdepth >= w.maxdepth
    ensures r.maxdepth >= depth + ii.instr.StackEffect(false)
    ensures ii.instr.labelArg.Some? ==>
      r.maxdepth >= depth + ii.instr.StackEffect(true)
      && AtLeast(r.startdepths[ii.instr.labelArg.value], depth + ii.instr.StackEffect(true))
  {
    var w1 := Raise(w, depth + ii.instr.StackEffect(false));
    if ii.instr.labelArg.None? then w1
    else
      var targetDepth := depth + ii.instr.StackEffect(true);
      Push(Raise(w1, targetDepth), Entry(ii.instr.labelArg.value, Unknown), targetDepth)
  }

  lemma VisitExtends(ii: InstructionInfo, depth: int, w: Walker)
    requires LabelBelow(ii, |w.startdepths|) && WalkerOk(w, |w.startdepths|)
    ensures Extends(w, Visit(ii, depth, w))
  {
    var r := Visit(ii, depth, w);
    assert r.stack[..|w.stack|] == w.stack;
    if r.stack != w.stack {
      assert r.stack[|w.stack|].block == ii.instr.labelArg.value;
      assert ii.instr.labelArg.value in Pending(r.stack);
    }
  }

  /**
   * The walk over a block's instructions from index `i` at stack depth
   * `depth`, visiting each and stopping after an unconditional branch.
   */
  function WalkFrom(ins: seq<InstructionInfo>, i: nat, depth: int, w: Walker): (r: WalkEnd)
    requires i <= |ins| && LabelsIn(ins, |w.startdepths|)
    requires WalkerOk(w, |w.startdepths|)
    ensures WalkerOk(r.w, |w.startdepths|)
    ensures Grows(w.startdepths, r.w.startdepths) && r.w.seen == w.seen && r.w.maxdepth >= w.maxdepth
    decreases |ins| - i
  {
    if i == |ins| then WalkEnd(w, depth, false)
    else
      assert LabelBelow(ins[i], |w.startdepths|);
      var w2 := Visit(ins[i], depth, w);
      var newDepth := depth + ins[i].instr.StackEffect(false);
      if ins[i].instr.UnconditionalBranch() then WalkEnd(w2, newDepth, true)
      else WalkFrom(ins, i + 1, newDepth, w2)
  }

  /** A walk only raises the maximum and pushes branch targets whose start depth it changed. */
  lemma {:induction false} WalkExtends(ins: seq<InstructionInfo>, i: nat, depth: int, w: Walker)
    requires i <= |ins| && LabelsIn(ins, |w.startdepths|) && WalkerOk(w, |w.startdepths|)
    ensures Extends(w, WalkFrom(ins, i, depth, w).w)
    decreases |ins| - i
  {
    if i < |ins| {
      assert LabelBelow(ins[i], |w.startdepths|);
      var w2 := Visit(ins[i], depth, w);
      VisitExtends(ins[i], depth, w);
      if !ins[i].instr.UnconditionalBranch() {
        var newDepth := depth + ins[i].instr.StackEffect(false);
        WalkExtends(ins, i + 1, newDepth, w2);
        ExtendsTrans(w, w2, WalkFrom(ins, i + 1, newDepth, w2).w);
      }
    } else {
      assert w.stack[..|w.stack|] == w.stack;
    }
  }

  /** One instruction of a walk. */
  lemma WalkVisits(ins: seq<InstructionInfo>, i: nat, depth: int, w: Walker)
    requires i < |ins| && LabelsIn(ins, |w.startdepths|) && WalkerOk(w, |w.startdepths|)
    ensures LabelBelow(ins[i], |w.startdepths|)
    ensures var w2 := Visit(ins[i], depth, w);
      var newDepth := depth + ins[i].instr.StackEffect(false);
      WalkFrom(ins, i, depth, w)
        == if ins[i].instr.UnconditionalBranch() then WalkEnd(w2, newDepth, true)
           else WalkFrom(ins, i + 1, newDepth, w2)
  {
  }

  lemma ExtendsTrans(w1: Walker, w2: Walker, w3: Walker)
    requires Extends(w1, w2) && Extends(w2, w3)
    ensures Extends(w1, w3)
  {
    assert w3.stack[..|w2.stack|][..|w1.stack|] == w3.stack[..|w1.stack|];
    forall c | 0 <= c < |w1.startdepths| && w3.startdepths[c] != w1.startdepths[c]
      ensures c in Pending(w3.stack)
    {
      if w2.startdepths[c] != w1.startdepths[c] {
        var k :| 0 <= k < |w2.stack| && w2.stack[k].block == c;
        assert w3.stack[k] == w2.stack[k];
      }
    }
  }

  /**
   * Each instruction `j` of a walk from `i` that runs (no unconditional
   * branch before it) has its fall-through depth and, with a label operand,
   * its branch-taken depth below the walk's maximum, and the taken depth
   * recorded at the target.
   */
  lemma {:induction false} WalkBoundsAt(ins: seq<InstructionInfo>, i: nat, depth: int, w: Walker, j: nat)
    requires i <= j < |ins| && LabelsIn(ins, |w.startdepths|) && WalkerOk(w, |w.startdepths|)
    requires NoBranchIn(ins, i, j)
    ensures var r := WalkFrom(ins, i, depth, w);
      && depth + SumEffect(ins, i, j + 1) <= r.w.maxdepth
      && (ins[j].instr.labelArg.Some? ==>
            ins[j].instr.labelArg.value < |w.startdepths|
            && depth + SumEffect(ins, i, j) + ins[j].instr.StackEffect(true) <= r.w.maxdepth
            && AtLeast(r.w.startdepths[ins[j].instr.labelArg.value],
                       depth + SumEffect(ins, i, j) + ins[j].instr.StackEffect(true)))
    decreases j - i
  {
    assert LabelBelow(ins[i], |w.startdepths|);
    var w2 := Visit(ins[i], depth, w);
    var newDepth := depth + ins[i].instr.StackEffect(false);
    assert LabelBelow(ins[j], |w.startdepths|);
    if j > i {
      assert !ins[i].instr.UnconditionalBranch();
      assert NoBranchIn(ins, i + 1, j);
      WalkBoundsAt(ins, i + 1, newDepth, w2, j);
    }
  }

  /**
   * A walk from `i` stops exactly when an unconditional branch runs; if it
   * does not stop it ends at the start depth plus the effects of the rest of
   * the block; the depth it ends at is below the maximum.
   */
  lemma {:induction false} WalkEndDepth(ins: seq<InstructionInfo>, i: nat, depth: int, w: Walker)
    requires i <= |ins| && LabelsIn(ins, |w.startdepths|) && WalkerOk(w, |w.startdepths|)
    ensures var r := WalkFrom(ins, i, depth, w);
      && (r.stopped <==> !NoBranchIn(ins, i, |ins|))
      && (!r.stopped ==> r.depth == depth + SumEffect(ins, i, |ins|))
      && (depth <= w.maxdepth ==> r.depth <= r.w.maxdepth)
    decreases |ins| - i
  {
    if i < |ins| {
      assert LabelBelow(ins[i], |w.startdepths|);
      var w2 := Visit(ins[i], depth, w);
      var newDepth := depth + ins[i].instr.StackEffect(false);
      if !ins[i].instr.UnconditionalBranch() {
        WalkEndDepth(ins, i + 1, newDepth, w2);
        assert NoBranchIn(ins, i, |ins|) <==> NoBranchIn(ins, i + 1, |ins|);
      }
    }
  }

  datatype StepResult = Next(w: Walker) | Panicked(reason: Abort)

  /** Where a block that falls through continues in `block_order`, if the block is in it. */
  function NextPosition(order: seq<Label>, e: Entry): Option<nat> {
    match e.blockorder
    case At(p) => Some(p + 1)
    case Unknown =>
      match IndexOf(order, e.block)
      case Some(p) => Some(p + 1)
      case None => None
  }

  /** The worklist with its last entry popped. */
  function Pop(w: Walker): Walker
    requires w.stack != []
  {
    w.(stack := w.stack[..|w.stack| - 1])
  }

  /** Marking a block `seen` before its walk, which only the code as written does. */
  function Mark(v: Variant, w: Walker, b: Label, mark: bool): (r: Walker)
    requires b < |w.seen|
    ensures r.stack == w.stack && r.startdepths == w.startdepths && r.maxdepth == w.maxdepth
    ensures |r.seen| == |w.seen|
  {
    if v == AsWritten then w.(seen := w.seen[b := mark]) else w
  }

  /**
   * The end of a round after the walk of entry `e`'s block: nothing more
   * after an unconditional branch; otherwise clear the mark and push the
   * next block in `block_order` at the depth the walk ended with.
   */
  function Finish(v: Variant, order: seq<Label>, e: Entry, walk: WalkEnd): (r: StepResult)
    requires InRange(order, |walk.w.startdepths|) && WalkerOk(walk.w, |walk.w.startdepths|)
    requires e.block < |walk.w.startdepths|
    ensures r.Next? ==> WalkerOk(r.w, |walk.w.startdepths|)
    ensures r.Next? ==> Grows(walk.w.startdepths, r.w.startdepths) && r.w.maxdepth == walk.w.maxdepth
  {
    if walk.stopped then Next(walk.w)
    else FallThrough(order, e, Mark(v, walk.w, e.block, false), walk.depth)
  }

  /**
   * Falling through from entry `e`'s block at `depth`: the block's
   * position comes from the entry or, when unknown, from a search of
   * `block_order`; the block after it is pushed at that depth.
   */
  function FallThrough(order: seq<Label>, e: Entry, w: Walker, depth: int): (r: StepResult)
    requires InRange(order, |w.startdepths|) && WalkerOk(w, |w.startdepths|)
    ensures r.Next? ==> WalkerOk(r.w, |w.startdepths|)
    ensures r.Next? ==> Grows(w.startdepths, r.w.startdepths) && r.w.maxdepth == w.maxdepth
  {
    match NextPosition(order, e)
    case None => Panicked(BlockNotInOrder)
    case Some(next) =>
      if next >= |order| then Panicked(FallThroughPastEnd)
      else Next(Push(w, Entry(order[next], At(next)), depth))
  }

  /**
   * One round of the worklist loop: pop an entry, skip it if its block is
   * marked `seen` (as written only), walk the block from its start depth,
   * and finish the round.
   */
  function Step(v: Variant, blocks: seq<Block>, order: seq<Label>, w: Walker): (r: StepResult)
    requires GraphOk(blocks, order) && WalkerOk(w, |blocks|) && w.stack != []
    ensures r.Next? ==> WalkerOk(r.w, |blocks|)
    ensures r.Next? ==> Grows(w.startdepths, r.w.startdepths) && r.w.maxdepth >= w.maxdepth
  {
    var e := w.stack[|w.stack| - 1];
    if v == AsWritten && w.seen[e.block] then Next(Pop(w))
    else
      var marked := Mark(v, Pop(w), e.block, true);
      Finish(v, order, e, WalkFrom(blocks[e.block].instructions, 0, w.startdepths[e.block].value, marked))
  }

  /**
   * `ws` is a run of the worklist: each state is well formed and each
   * state but the last has a non-empty worklist and a round leading to
   * the next.
   */
  ghost predicate Trace(v: Variant, blocks: seq<Block>, order: seq<Label>, ws: seq<Walker>)
    requires GraphOk(blocks, order)
  {
    && |ws| > 0
    && (forall k :: 0 <= k < |ws| ==> WalkerOk(ws[k], |blocks|))
    && (forall k :: 0 <= k < |ws| - 1 ==> TraceStep(v, blocks, order, ws, k))
  }

  ghost predicate TraceStep(v: Variant, blocks: seq<Block>, order: seq<Label>, ws: seq<Walker>, k: nat)
    requires GraphOk(blocks, order) && k + 1 < |ws| && WalkerOk(ws[k], |blocks|)
  {
    ws[k].stack != [] && Step(v, blocks, order, ws[k]) == Next(ws[k + 1])
  }

  /** A trace that ends with an empty worklist is what the loop computes, given fuel for every round. */
  lemma {:induction false} RunFollowsTrace(v: Variant, blocks: seq<Block>, order: seq<Label>, fuel: nat, ws: seq<Walker>)
    requires GraphOk(blocks, order) && Trace(v, blocks, order, ws)
    requires ws[|ws| - 1].stack == [] && fuel >= |ws| - 1
    ensures Run(v, blocks, order, fuel, ws[0]) == Done(ws[|ws| - 1])
    decreases |ws|
  {
    if |ws| > 1 {
      assert TraceStep(v, blocks, order, ws, 0);
      TraceTail(v, blocks, order, ws);
      RunFollowsTrace(v, blocks, order, fuel - 1, ws[1..]);
      RunUnfolds(v, blocks, order, fuel, ws[0]);
    }
  }

  /** A trace without its first state is a trace. */
  lemma TraceTail(v: Variant, blocks: seq<Block>, order: seq<Label>, ws: seq<Walker>)
    requires GraphOk(blocks, order) && Trace(v, blocks, order, ws) && |ws| > 1
    ensures Trace(v, blocks, order, ws[1..])
  {
    var rest := ws[1..];
    forall k | 0 <= k < |rest|
      ensures WalkerOk(rest[k], |blocks|)
    {
      assert rest[k] == ws[k + 1];
    }
    forall k | 0 <= k < |rest| - 1
      ensures TraceStep(v, blocks, order, rest, k)
    {
      assert rest[k] == ws[k + 1] && rest[k + 1] == ws[k + 2];
      assert TraceStep(v, blocks, order, ws, k + 1);
    }
  }

  /** A round that walks its block is the end of that walk. */
  lemma StepWalks(v: Variant, blocks: seq<Block>, order: seq<Label>, w: Walker)
    requires GraphOk(blocks, order) && WalkerOk(w, |blocks|) && w.stack != []
    requires v == Corrected || !w.seen[w.stack[|w.stack| - 1].block]
    ensures var b := w.stack[|w.stack| - 1].block;
      && LabelsIn(blocks[b].instructions, |blocks|)
      && Step(v, blocks, order, w)
        == Finish(v, order, w.stack[|w.stack| - 1],
                  WalkFrom(blocks[b].instructions, 0, w.startdepths[b].value, Mark(v, Pop(w), b, true)))
  {
    assert LabelsIn(blocks[w.stack[|w.stack| - 1].block].instructions, |blocks|);
  }

  datatype Outcome = Done(w: Walker) | Failed(reason: Abort)

  /** The worklist loop, allowed at most `fuel` rounds. */
  function Run(v: Variant, blocks: seq<Block>, order: seq<Label>, fuel: nat, w: Walker): (r: Outcome)
    requires GraphOk(blocks, order) && WalkerOk(w, |blocks|)
    ensures r.Done? ==> r.w.stack == [] && r.w.maxdepth >= w.maxdepth && WalkerOk(r.w, |blocks|)
    decreases fuel
  {
    if w.stack == [] then Done(w)
    else if fuel == 0 then Failed(OutOfFuel)
    else
      match Step(v, blocks, order, w)
      case Next(w') => Run(v, blocks, order, fuel - 1, w')
      case Panicked(reason) => Failed(reason)
  }

  /**
   * The state before the loop: block 0 queued at position 0, no maximum yet,
   * nothing seen; as written every start depth is 0, corrected only the
   * entry block's.
   */
  function Init(v: Variant, n: nat): (w: Walker)
    requires n > 0
    ensures WalkerOk(w, n)
    ensures w.stack == [Entry(0, At(0))] && w.maxdepth == 0
    ensures w.startdepths[0] == Some(0)
    ensures forall j :: 0 < j < n ==>
      w.startdepths[j] == (if v == AsWritten then Some(0) else None)
    ensures forall j :: 0 <= j < n ==> !w.seen[j]
  {
    Walker(
      [Entry(0, At(0))],
      seq(n, j => if v == AsWritten || j == 0 then Some(0) else None),
      seq(n, _ => false),
      0)
  }

  /** `max_stacksize` as a function: the final maximum, or why there is none. */
  function MaxStackDepth(v: Variant, blocks: seq<Block>, order: seq<Label>, fuel: nat): Result<nat, Abort>
    requires GraphOk(blocks, order)
  {
    match Run(v, blocks, order, fuel, Init(v, |blocks|))
    case Done(w) => Ok(w.maxdepth)
    case Failed(reason) => Err(reason)
  }

  /** No recorded start depth exceeds the maximum. */
  predicate DepthsBounded(w: Walker) {
    forall j :: 0 <= j < |w.startdepths| && w.startdepths[j].Some? ==> w.startdepths[j].value <= w.maxdepth
  }

  /** A walk keeps every start depth below the maximum. */
  lemma {:induction false} WalkKeepsBounded(ins: seq<InstructionInfo>, i: nat, depth: int, w: Walker)
    requires i <= |ins| && LabelsIn(ins, |w.startdepths|) && WalkerOk(w, |w.startdepths|)
    requires DepthsBounded(w)
    ensures DepthsBounded(WalkFrom(ins, i, depth, w).w)
    decreases |ins| - i
  {
    if i < |ins| {
      assert LabelBelow(ins[i], |w.startdepths|);
      var w2 := Visit(ins[i], depth, w);
      assert DepthsBounded(w2);
      if !ins[i].instr.UnconditionalBranch() {
        WalkKeepsBounded(ins, i + 1, depth + ins[i].instr.StackEffect(false), w2);
      }
    }
  }

  /** Finishing a round keeps every start depth below the maximum. */
  lemma FinishKeepsBounded(v: Variant, order: seq<Label>, e: Entry, walk: WalkEnd)
    requires InRange(order, |walk.w.startdepths|) && WalkerOk(walk.w, |walk.w.startdepths|)
    requires e.block < |walk.w.startdepths|
    requires DepthsBounded(walk.w) && walk.depth <= walk.w.maxdepth
    ensures Finish(v, order, e, walk).Next? ==> DepthsBounded(Finish(v, order, e, walk).w)
  {
  }

  /** A round keeps every start depth below the maximum, in both variants. */
  lemma StepKeepsBounded(v: Variant, blocks: seq<Block>, order: seq<Label>, w: Walker)
    requires GraphOk(blocks, order) && WalkerOk(w, |blocks|) && w.stack != []
    requires DepthsBounded(w)
    ensures Step(v, blocks, order, w).Next? ==> DepthsBounded(Step(v, blocks, order, w).w)
  {
    var e := w.stack[|w.stack| - 1];
    if !(v == AsWritten && w.seen[e.block]) {
      var marked := Mark(v, Pop(w), e.block, true);
      var ins := blocks[e.block].instructions;
      var start := w.startdepths[e.block].value;
      WalkKeepsBounded(ins, 0, start, marked);
      WalkEndDepth(ins, 0, start, marked);
      FinishKeepsBounded(v, order, e, WalkFrom(ins, 0, start, marked));
    }
  }

  /**
   * The analysis result bounds every start depth it recorded: the final
   * table's entries are all below the returned maximum.
   */
  lemma {:induction false} RunKeepsBounded(v: Variant, blocks: seq<Block>, order: seq<Label>, fuel: nat, w: Walker)
    requires GraphOk(blocks, order) && WalkerOk(w, |blocks|) && DepthsBounded(w)
    ensures Run(v, blocks, order, fuel, w).Done? ==> DepthsBounded(Run(v, blocks, order, fuel, w).w)
    decreases fuel
  {
    if w.stack != [] && fuel > 0 {
      StepKeepsBounded(v, blocks, order, w);
      if Step(v, blocks, order, w).Next? {
        RunKeepsBounded(v, blocks, order, fuel - 1, Step(v, blocks, order, w).w);
      }
    }
  }

  /**
   * A round that walks its block (as written: one not marked `seen`)
   * leaves a maximum at least every fall-through and branch-taken depth of
   * the instructions that run, counted from the block's start depth.
   */
  lemma StepBoundsWalk(v: Variant, blocks: seq<Block>, order: seq<Label>, w: Walker, j: nat)
    requires GraphOk(blocks, order) && WalkerOk(w, |blocks|) && w.stack != []
    requires v == Corrected || !w.seen[w.stack[|w.stack| - 1].block]
    requires j < |blocks[w.stack[|w.stack| - 1].block].instructions|
    requires NoBranchIn(blocks[w.stack[|w.stack| - 1].block].instructions, 0, j)
    requires Step(v, blocks, order, w).Next?
    ensures var b := w.stack[|w.stack| - 1].block;
      var ins := blocks[b].instructions;
      var start := w.startdepths[b].value;
      var m := Step(v, blocks, order, w).w.maxdepth;
      start + SumEffect(ins, 0, j + 1) <= m
      && (ins[j].instr.labelArg.Some? ==> start + SumEffect(ins, 0, j) + ins[j].instr.StackEffect(true) <= m)
  {
    var e := w.stack[|w.stack| - 1];
    var marked := Mark(v, Pop(w), e.block, true);
    WalkBoundsAt(blocks[e.block].instructions, 0, w.startdepths[e.block].value, marked, j);
  }

  /**
   * Entering a block at `d`, instruction `j` leaves at most `m` values on
   * the stack, and so does its branch when taken.
   */
  predicate RunsWithin(ins: seq<InstructionInfo>, j: nat, d: int, m: int)
    requires j < |ins|
  {
    && d + SumEffect(ins, 0, j + 1) <= m
    && (ins[j].instr.labelArg.Some? ==> d + SumEffect(ins, 0, j) + ins[j].instr.StackEffect(true) <= m)
  }
  /**
   * A round that walks its block keeps every instruction of that block
   * that runs within `m`. A round the code as written skips because the
   * block is marked `seen` walks nothing and so meets this trivially.
   */
  predicate WalkedWithin(v: Variant, blocks: seq<Block>, w: Walker, m: int)
    requires LabelsBelow(blocks, |blocks|) && WalkerOk(w, |blocks|)
  {
    w.stack != [] ==>
      var b := w.stack[|w.stack| - 1].block;
      var ins := blocks[b].instructions;
      (v == Corrected || !w.seen[b]) ==>
        forall j :: 0 <= j < |ins| && NoBranchIn(ins, 0, j) ==>
          RunsWithin(ins, j, w.startdepths[b].value, m)
  }

  /** Every finished run of the loop is a trace of its rounds, one state per round. */
  lemma {:induction false} RunTrace(v: Variant, blocks: seq<Block>, order: seq<Label>, fuel: nat, w: Walker, final: Walker)
    returns (ws: seq<Walker>)
    requires GraphOk(blocks, order) && WalkerOk(w, |blocks|)
    requires Run(v, blocks, order, fuel, w) == Done(final)
    ensures Trace(v, blocks, order, ws) && |ws| <= fuel + 1
    ensures ws[0] == w && ws[|ws| - 1] == final
    decreases fuel
  {
    if w.stack == [] {
      ws := [w];
    } else {
      var w2 := RunSteps(v, blocks, order, fuel, w, final);
      var rest := RunTrace(v, blocks, order, fuel - 1, w2, final);
      TraceCons(v, blocks, order, w, rest);
      ws := [w] + rest;
    }
  }

  /** A finished run with a non-empty worklist goes through one round first. */
  lemma RunSteps(v: Variant, blocks: seq<Block>, order: seq<Label>, fuel: nat, w: Walker, final: Walker)
    returns (w2: Walker)
    requires GraphOk(blocks, order) && WalkerOk(w, |blocks|) && w.stack != []
    requires Run(v, blocks, order, fuel, w) == Done(final)
    ensures fuel > 0 && Step(v, blocks, order, w) == Next(w2) && WalkerOk(w2, |blocks|)
    ensures Run(v, blocks, order, fuel - 1, w2) == Done(final)
  {
    w2 := Step(v, blocks, order, w).w;
  }

  /** A round in front of a trace is a longer trace. */
  lemma TraceCons(v: Variant, blocks: seq<Block>, order: seq<Label>, w: Walker, rest: seq<Walker>)
    requires GraphOk(blocks, order) && WalkerOk(w, |blocks|) && w.stack != []
    requires Trace(v, blocks, order, rest) && Step(v, blocks, order, w) == Next(rest[0])
    ensures Trace(v, blocks, order, [w] + rest)
  {
    var ws := [w] + rest;
    forall k | 0 <= k < |ws|
      ensures WalkerOk(ws[k], |blocks|)
    {
      if k > 0 {
        assert ws[k] == rest[k - 1];
      }
    }
    forall k | 0 <= k < |ws| - 1
      ensures TraceStep(v, blocks, order, ws, k)
    {
      if k > 0 {
        assert ws[k] == rest[k - 1] && ws[k + 1] == rest[k];
        assert TraceStep(v, blocks, order, rest, k - 1);
      }
    }
  }

  /** Along a trace the maximum never decreases. */
  lemma {:induction false} TraceMaxGrows(v: Variant, blocks: seq<Block>, order: seq<Label>, ws: seq<Walker>, k: nat)
    requires GraphOk(blocks, order) && Trace(v, blocks, order, ws) && k < |ws|
    ensures ws[k].maxdepth <= ws[|ws| - 1].maxdepth
    decreases |ws| - k
  {
    if k < |ws| - 1 {
      assert TraceStep(v, blocks, order, ws, k);
      TraceMaxGrows(v, blocks, order, ws, k + 1);
    }
  }

  /** The last maximum of a trace bounds every block walk of every round in it. */
  lemma TraceBoundsWalks(v: Variant, blocks: seq<Block>, order: seq<Label>, ws: seq<Walker>, k: nat)
    requires GraphOk(blocks, order) && Trace(v, blocks, order, ws) && k < |ws| - 1
    ensures WalkedWithin(v, blocks, ws[k], ws[|ws| - 1].maxdepth)
  {
    assert TraceStep(v, blocks, order, ws, k);
    TraceMaxGrows(v, blocks, order, ws, k + 1);
    var w := ws[k];
    var b := w.stack[|w.stack| - 1].block;
    var ins := blocks[b].instructions;
    if v == Corrected || !w.seen[b] {
      forall j | 0 <= j < |ins| && NoBranchIn(ins, 0, j)
        ensures RunsWithin(ins, j, w.startdepths[b].value, ws[|ws| - 1].maxdepth)
      {
        StepBoundsWalk(v, blocks, order, w, j);
      }
    }
  }

  /**
   * The result of the analysis, in either variant, is at least every
   * fall-through and branch-taken depth that any of its block walks
   * computes: the rounds of the loop form a trace from the initial state
   * to a state whose maximum is the result, and every round's walk stays
   * within it.
   */
  lemma ResultBoundsEveryWalk(v: Variant, blocks: seq<Block>, order: seq<Label>, fuel: nat)
    returns (ws: seq<Walker>)
    requires GraphOk(blocks, order) && MaxStackDepth(v, blocks, order, fuel).Ok?
    ensures Trace(v, blocks, order, ws) && |ws| <= fuel + 1
    ensures ws[0] == Init(v, |blocks|) && ws[|ws| - 1].stack == []
    ensures ws[|ws| - 1].maxdepth == MaxStackDepth(v, blocks, order, fuel).value
    ensures forall k :: 0 <= k < |ws| - 1 ==>
      WalkedWithin(v, blocks, ws[k], MaxStackDepth(v, blocks, order, fuel).value)
  {
    ws := RunTrace(v, blocks, order, fuel, Init(v, |blocks|), Run(v, blocks, order, fuel, Init(v, |blocks|)).w);
    forall k | 0 <= k < |ws| - 1
      ensures WalkedWithin(v, blocks, ws[k], ws[|ws| - 1].maxdepth)
    {
      TraceBoundsWalks(v, blocks, order, ws, k);
    }
  }

  /**
   * A walk over a prefix of a block that either is the whole block or ends
   * with an unconditional branch is the walk over the whole block.
   */
  lemma {:induction false} WalkPrefix(ins: seq<InstructionInfo>, p: nat, i: nat, depth: int, w: Walker)
    requires i <= p <= |ins| && LabelsIn(ins, |w.startdepths|) && WalkerOk(w, |w.startdepths|)
    requires p == |ins| || (i < p && ins[p - 1].instr.UnconditionalBranch())
    ensures LabelsIn(ins[..p], |w.startdepths|)
    ensures WalkFrom(ins, i, depth, w) == WalkFrom(ins[..p], i, depth, w)
    decreases p - i
  {
    assert LabelsIn(ins[..p], |w.startdepths|) by {
      forall m | 0 <= m < p ensures LabelBelow(ins[..p][m], |w.startdepths|) {
        assert ins[..p][m] == ins[m];
      }
    }
    if p == |ins| {
      assert ins[..p] == ins;
    } else {
      assert ins[..p][i] == ins[i];
      if !ins[i].instr.UnconditionalBranch() {
        assert LabelBelow(ins[i], |w.startdepths|);
        WalkPrefix(ins, p, i + 1, depth + ins[i].instr.StackEffect(false), Visit(ins[i], depth, w));
      }
    }
  }

  /**
   * The walk stops at the first unconditional branch, so what dead-code
   * truncation removes is never walked.
   */
  lemma WalkTruncated(ins: seq<InstructionInfo>, depth: int, w: Walker)
    requires LabelsIn(ins, |w.startdepths|) && WalkerOk(w, |w.startdepths|)
    ensures LabelsIn(DeadCode.Truncated(ins), |w.startdepths|)
    ensures WalkFrom(ins, 0, depth, w) == WalkFrom(DeadCode.Truncated(ins), 0, depth, w)
  {
    WalkPrefix(ins, |DeadCode.Truncated(ins)|, 0, depth, w);
  }

  /** A round gives the same result on the truncated blocks. */
  lemma StepTruncated(v: Variant, blocks: seq<Block>, order: seq<Label>, w: Walker)
    requires GraphOk(blocks, order) && WalkerOk(w, |blocks|) && w.stack != []
    ensures GraphOk(DeadCode.EliminateDead(blocks), order)
    ensures Step(v, blocks, order, w) == Step(v, DeadCode.EliminateDead(blocks), order, w)
  {
    DeadCode.EliminateDeadLabels(blocks, |blocks|);
    var e := w.stack[|w.stack| - 1];
    if !(v == AsWritten && w.seen[e.block]) {
      assert LabelsIn(blocks[e.block].instructions, |blocks|);
      WalkTruncated(blocks[e.block].instructions, w.startdepths[e.block].value, Mark(v, Pop(w), e.block, true));
    }
  }

  /** Every round gives the same result on `blocks` as on `blocks2`. */
  ghost predicate StepsAgree(v: Variant, blocks: seq<Block>, blocks2: seq<Block>, order: seq<Label>)
    requires GraphOk(blocks, order) && GraphOk(blocks2, order) && |blocks2| == |blocks|
  {
    forall w {:trigger Step(v, blocks2, order, w)} ::
      WalkerOk(w, |blocks|) && w.stack != [] ==> Step(v, blocks, order, w) == Step(v, blocks2, order, w)
  }

  /** Two block lists whose rounds all agree give the loop the same outcome. */
  lemma {:induction false} RunAgrees(v: Variant, blocks: seq<Block>, blocks2: seq<Block>, order: seq<Label>, fuel: nat, w: Walker)
    requires GraphOk(blocks, order) && GraphOk(blocks2, order) && |blocks2| == |blocks|
    requires StepsAgree(v, blocks, blocks2, order) && WalkerOk(w, |blocks|)
    ensures Run(v, blocks, order, fuel, w) == Run(v, blocks2, order, fuel, w)
    decreases fuel
  {
    if w.stack != [] && fuel > 0 {
      var s := Step(v, blocks, order, w);
      assert Step(v, blocks2, order, w) == s;
      RunUnfolds(v, blocks, order, fuel, w);
      RunUnfolds(v, blocks2, order, fuel, w);
      if s.Next? {
        RunAgrees(v, blocks, blocks2, order, fuel - 1, s.w);
      }
    }
  }

  /**
   * The analysis gives the same result before and after dead-code
   * truncation, so running it on the blocks as built, before `dce`, loses
   * nothing.
   */
  lemma MaxStackDepthTruncated(v: Variant, blocks: seq<Block>, order: seq<Label>, fuel: nat)
    requires GraphOk(blocks, order)
    ensures GraphOk(DeadCode.EliminateDead(blocks), order)
    ensures MaxStackDepth(v, blocks, order, fuel) == MaxStackDepth(v, DeadCode.EliminateDead(blocks), order, fuel)
  {
    DeadCode.EliminateDeadLabels(blocks, |blocks|);
    var cut := DeadCode.EliminateDead(blocks);
    forall w | WalkerOk(w, |blocks|) && w.stack != []
      ensures Step(v, blocks, order, w) == Step(v, cut, order, w)
    {
      StepTruncated(v, blocks, order, w);
    }
    RunAgrees(v, blocks, cut, order, fuel, Init(v, |blocks|));
  }

  /**
   * `stackdepth_push` over the array of start depths: record and queue the
   * target only when the depth is strictly greater (or the entry unset).
   */
  method StackdepthPush(stack: seq<Entry>, startdepths: array<Option<int>>, target: Entry, depth: int)
    returns (pushed: seq<Entry>)
    requires target.block < startdepths.Length
    modifies startdepths
    ensures Below(old(startdepths[target.block]), depth) ==>
      startdepths[..] == old(startdepths[..])[target.block := Some(depth)] && pushed == stack + [target]
    ensures !Below(old(startdepths[target.block]), depth) ==>
      startdepths[..] == old(startdepths[..]) && pushed == stack
  {
    pushed := stack;
    if Below(startdepths[target.block], depth) {
      startdepths[target.block] := Some(depth);
      pushed := stack + [target];
    }
  }

  /**
   * One instruction of the inner loop: raise the maximum to the
   * fall-through depth and, for a branch, to the branch-taken depth, and
   * push the branch target at that depth.
   */
  method VisitInstruction(
    ii: InstructionInfo,
    depth: int,
    stack0: seq<Entry>,
    startdepths: array<Option<int>>,
    maxdepth0: nat,
    ghost seen: seq<bool>)
    returns (stack: seq<Entry>, maxdepth: nat)
    requires LabelBelow(ii, startdepths.Length)
    requires WalkerOk(Walker(stack0, startdepths[..], seen, maxdepth0), startdepths.Length)
    modifies startdepths
    ensures Visit(ii, depth, Walker(stack0, old(startdepths[..]), seen, maxdepth0))
      == Walker(stack, startdepths[..], seen, maxdepth)
  {
    ghost var before := Walker(stack0, startdepths[..], seen, maxdepth0);
    stack, maxdepth := stack0, maxdepth0;
    var newDepth := depth + ii.instr.StackEffect(false);
    if newDepth > maxdepth {
      maxdepth := newDepth;
    }
    if ii.instr.labelArg.Some? {
      var targetDepth := depth + ii.instr.StackEffect(true);
      if targetDepth > maxdepth {
        maxdepth := targetDepth;
      }
      ghost var raised := Walker(stack, startdepths[..], seen, maxdepth);
      assert raised == Raise(Raise(before, newDepth), targetDepth);
      stack := StackdepthPush(stack, startdepths, Entry(ii.instr.labelArg.value, Unknown), targetDepth);
      assert Walker(stack, startdepths[..], seen, maxdepth)
        == Push(raised, Entry(ii.instr.labelArg.value, Unknown), targetDepth);
    } else {
      assert Walker(stack, startdepths[..], seen, maxdepth) == Raise(before, newDepth);
    }
  }

  /**
   * The inner loop of `max_stacksize` over one block's instructions,
   * starting at depth `start`; it computes exactly `WalkFrom`.
   */
  method WalkBlock(
    ins: seq<InstructionInfo>,
    start: int,
    stack0: seq<Entry>,
    startdepths: array<Option<int>>,
    maxdepth0: nat,
    ghost seen: seq<bool>)
    returns (stack: seq<Entry>, maxdepth: nat, depth: int, stopped: bool)
    requires LabelsIn(ins, startdepths.Length)
    requires WalkerOk(Walker(stack0, startdepths[..], seen, maxdepth0), startdepths.Length)
    modifies startdepths
    ensures WalkFrom(ins, 0, start, Walker(stack0, old(startdepths[..]), seen, maxdepth0))
      == WalkEnd(Walker(stack, startdepths[..], seen, maxdepth), depth, stopped)
  {
    ghost var w0 := Walker(stack0, startdepths[..], seen, maxdepth0);
    stack, maxdepth, depth, stopped := stack0, maxdepth0, start, false;
    var i := 0;
    while i < |ins|
      invariant 0 <= i <= |ins|
      invariant WalkerOk(Walker(stack, startdepths[..], seen, maxdepth), startdepths.Length)
      invariant WalkFrom(ins, i, depth, Walker(stack, startdepths[..], seen, maxdepth)) == WalkFrom(ins, 0, start, w0)
      decreases |ins| - i
    {
      WalkVisits(ins, i, depth, Walker(stack, startdepths[..], seen, maxdepth));
      stack, maxdepth := VisitInstruction(ins[i], depth, stack, startdepths, maxdepth, seen);
      depth := depth + ins[i].instr.StackEffect(false);
      if ins[i].instr.UnconditionalBranch() {
        stopped := true;
        return;
      }
      i := i + 1;
    }
  }

  /**
   * The fall-through at the end of a round: find the position of the
   * walked block and push the block after it, or report why not.
   */
  method PushNext(
    order: seq<Label>,
    entry: Entry,
    stack0: seq<Entry>,
    startdepths: array<Option<int>>,
    maxdepth: nat,
    depth: int,
    ghost seen: seq<bool>)
    returns (stack: seq<Entry>, err: Option<Abort>)
    requires InRange(order, startdepths.Length)
    requires WalkerOk(Walker(stack0, startdepths[..], seen, maxdepth), startdepths.Length)
    modifies startdepths
    ensures FallThrough(order, entry, Walker(stack0, old(startdepths[..]), seen, maxdepth), depth)
      == (if err.Some? then Panicked(err.value) else Next(Walker(stack, startdepths[..], seen, maxdepth)))
  {
    stack := stack0;
    var next: nat;
    match entry.blockorder {
      case At(p) =>
        next := p + 1;
      case Unknown =>
        var pos := IndexOf(order, entry.block);
        if pos.None? {
          return stack, Some(BlockNotInOrder);
        }
        next := pos.value + 1;
    }
    if next >= |order| {
      return stack, Some(FallThroughPastEnd);
    }
    stack := StackdepthPush(stack, startdepths, Entry(order[next], At(next)), depth);
    err := None;
  }

  /** A round with fuel left and a non-empty worklist is one `Step`. */
  lemma RunUnfolds(v: Variant, blocks: seq<Block>, order: seq<Label>, fuel: nat, w: Walker)
    requires GraphOk(blocks, order) && WalkerOk(w, |blocks|) && w.stack != [] && fuel > 0
    ensures Step(v, blocks, order, w).Next? ==>
      Run(v, blocks, order, fuel, w) == Run(v, blocks, order, fuel - 1, Step(v, blocks, order, w).w)
    ensures Step(v, blocks, order, w).Panicked? ==>
      Run(v, blocks, order, fuel, w) == Failed(Step(v, blocks, order, w).reason)
  {
  }

  /**
   * One round of the worklist loop as written: pop an entry, skip a block
   * marked `seen`, otherwise mark it, walk it, and fall through unless
   * the walk stopped at an unconditional branch.
   */
  method Round(
    blocks: seq<Block>,
    order: seq<Label>,
    stack0: seq<Entry>,
    startdepths: array<Option<int>>,
    seen: array<bool>,
    maxdepth0: nat)
    returns (stack: seq<Entry>, maxdepth: nat, err: Option<Abort>)
    requires GraphOk(blocks, order) && stack0 != []
    requires startdepths.Length == seen.Length == |blocks|
    requires WalkerOk(Walker(stack0, startdepths[..], seen[..], maxdepth0), |blocks|)
    modifies startdepths, seen
    ensures Step(AsWritten, blocks, order, Walker(stack0, old(startdepths[..]), old(seen[..]), maxdepth0))
      == (if err.Some? then Panicked(err.value) else Next(Walker(stack, startdepths[..], seen[..], maxdepth)))
  {
    ghost var before := Walker(stack0, startdepths[..], seen[..], maxdepth0);
    var entry := stack0[|stack0| - 1];
    stack, maxdepth, err := stack0[..|stack0| - 1], maxdepth0, None;
    if seen[entry.block] {
      return;
    }
    seen[entry.block] := true;
    ghost var marked := Walker(stack, startdepths[..], seen[..], maxdepth);
    assert marked == Mark(AsWritten, Pop(before), entry.block, true);
    var start := startdepths[entry.block].value;
    var depth, stopped;
    stack, maxdepth, depth, stopped :=
      WalkBlock(blocks[entry.block].instructions, start, stack, startdepths, maxdepth, seen[..]);
    ghost var walk := WalkEnd(Walker(stack, startdepths[..], seen[..], maxdepth), depth, stopped);
    assert Step(AsWritten, blocks, order, before) == Finish(AsWritten, order, entry, walk);
    if stopped {
      return;
    }
    seen[entry.block] := false;
    assert Walker(stack, startdepths[..], seen[..], maxdepth) == Mark(AsWritten, walk.w, entry.block, false);
    stack, err := PushNext(order, entry, stack, startdepths, maxdepth, depth, seen[..]);
  }

  /**
   * `max_stacksize` as written: a worklist of (block, position) pairs
   * seeded with block 0 at position 0, start depths all 0, and blocks
   * marked `seen` while walked.
   */
  method MaxStacksize(blocks: seq<Block>, order: seq<Label>, fuel: nat) returns (r: Result<nat, Abort>)
    requires GraphOk(blocks, order)
    ensures r == MaxStackDepth(AsWritten, blocks, order, fuel)
  {
    var n := |blocks|;
    var maxdepth: nat := 0;
    var stack := [Entry(0, At(0))];
    var startdepths := new Option<int>[n](_ => Some(0));
    var seen := new bool[n](_ => false);
    var steps: nat := 0;
    ghost var init := Init(AsWritten, n);
    assert Walker(stack, startdepths[..], seen[..], maxdepth) == init;
    while stack != []
      invariant steps <= fuel
      invariant startdepths.Length == n && seen.Length == n
      invariant WalkerOk(Walker(stack, startdepths[..], seen[..], maxdepth), n)
      invariant Run(AsWritten, blocks, order, fuel - steps, Walker(stack, startdepths[..], seen[..], maxdepth))
        == Run(AsWritten, blocks, order, fuel, init)
      decreases fuel - steps
    {
      if steps == fuel {
        return Err(OutOfFuel);
      }
      ghost var before := Walker(stack, startdepths[..], seen[..], maxdepth);
      RunUnfolds(AsWritten, blocks, order, fuel - steps, before);
      var err;
      stack, maxdepth, err := Round(blocks, order, stack, startdepths, seen, maxdepth);
      if err.Some? {
        return Err(err.value);
      }
      steps := steps + 1;
    }
    return Ok(maxdepth);
  }

  /**
   * One round of the corrected loop: pop an entry, walk its block, and
   * fall through unless the walk stopped at an unconditional branch.
   */
  method RoundFixed(
    blocks: seq<Block>,
    order: seq<Label>,
    stack0: seq<Entry>,
    startdepths: array<Option<int>>,
    maxdepth0: nat,
    ghost seen: seq<bool>)
    returns (stack: seq<Entry>, maxdepth: nat, err: Option<Abort>)
    requires GraphOk(blocks, order) && stack0 != []
    requires startdepths.Length == |blocks|
    requires WalkerOk(Walker(stack0, startdepths[..], seen, maxdepth0), |blocks|)
    modifies startdepths
    ensures Step(Corrected, blocks, order, Walker(stack0, old(startdepths[..]), seen, maxdepth0))
      == (if err.Some? then Panicked(err.value) else Next(Walker(stack, startdepths[..], seen, maxdepth)))
  {
    ghost var before := Walker(stack0, startdepths[..], seen, maxdepth0);
    var entry := stack0[|stack0| - 1];
    stack, maxdepth, err := stack0[..|stack0| - 1], maxdepth0, None;
    assert Walker(stack, startdepths[..], seen, maxdepth) == Mark(Corrected, Pop(before), entry.block, true);
    var start := startdepths[entry.block].value;
    var depth, stopped;
    stack, maxdepth, depth, stopped :=
      WalkBlock(blocks[entry.block].instructions, start, stack, startdepths, maxdepth, seen);
    ghost var walk := WalkEnd(Walker(stack, startdepths[..], seen, maxdepth), depth, stopped);
    assert Step(Corrected, blocks, order, before) == Finish(Corrected, order, entry, walk);
    if stopped {
      return;
    }
    stack, err := PushNext(order, entry, stack, startdepths, maxdepth, depth, seen);
  }

  /**
   * The corrected analysis: only the entry block starts with a depth, and a
   * queued block is always walked again.
   */
  method MaxStacksizeFixed(blocks: seq<Block>, order: seq<Label>, fuel: nat) returns (r: Result<nat, Abort>)
    requires GraphOk(blocks, order)
    ensures r == MaxStackDepth(Corrected, blocks, order, fuel)
  {
    var n := |blocks|;
    var maxdepth: nat := 0;
    var stack := [Entry(0, At(0))];
    var startdepths := new Option<int>[n](j => if j == 0 then Some(0) else None);
    ghost var seen := seq(n, _ => false);
    var steps: nat := 0;
    ghost var init := Init(Corrected, n);
    assert Walker(stack, startdepths[..], seen, maxdepth) == init;
    while stack != []
      invariant steps <= fuel
      invariant startdepths.Length == n
      invariant WalkerOk(Walker(stack, startdepths[..], seen, maxdepth), n)
      invariant Run(Corrected, blocks, order, fuel - steps, Walker(stack, startdepths[..], seen, maxdepth))
        == Run(Corrected, blocks, order, fuel, init)
      decreases fuel - steps
    {
      if steps == fuel {
        return Err(OutOfFuel);
      }
      ghost var before := Walker(stack, startdepths[..], seen, maxdepth);
      RunUnfolds(Corrected, blocks, order, fuel - steps, before);
      var err;
      stack, maxdepth, err := RoundFixed(blocks, order, stack, startdepths, maxdepth, seen);
      if err.Some? {
        return Err(err.value);
      }
      steps := steps + 1;
    }
    return Ok(maxdepth);
  }
}

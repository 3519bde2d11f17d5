/**
 * Two small block graphs on which `max_stacksize` as written returns a
 * depth that some path of execution exceeds, while the corrected analysis
 * returns the depth that path reaches.
 */
module StackFindings {
  import opened Wrappers
  import opened Bytecode
  import opened StackDepth
  import opened StackSound

  const Here := Location(1, 0)

  /** Pushes one value. */
  const Load := InstructionInfo(Instruction(1, None, false, 1, 1), Here)

  /** Pops one value and leaves the function; control never falls through. */
  const Return := InstructionInfo(Instruction(2, None, true, -1, -1), Here)

  /** An unconditional jump to `target` that leaves the stack as it is. */
  function Jump(target: Label): InstructionInfo {
    InstructionInfo(Instruction(3, Some(target), true, 0, 0), Here)
  }

  /**
   * A conditional branch to `target` that pushes one value when it falls
   * through and two when it is taken.
   */
  function Fork(target: Label): InstructionInfo {
    InstructionInfo(Instruction(4, Some(target), false, 1, 2), Here)
  }

  /** A block that pushes a value and returns. */
  const LoadReturn := Block([Load, Return], false)

  /** Walking `LoadReturn` from `d` raises the maximum to `d + 1` and stops. */
  lemma WalkLoadReturn(d: int, w: Walker)
    requires WalkerOk(w, |w.startdepths|)
    ensures LabelsIn(LoadReturn.instructions, |w.startdepths|)
    ensures WalkFrom(LoadReturn.instructions, 0, d, w) == WalkEnd(Raise(Raise(w, d + 1), d), d, true)
  {
    var ins := LoadReturn.instructions;
    WalkVisits(ins, 0, d, w);
    WalkVisits(ins, 1, d + 1, Visit(ins[0], d, w));
  }

  /** Walking a lone jump from `d` pushes its target at `d` and stops. */
  lemma WalkJump(t: Label, d: int, w: Walker)
    requires t < |w.startdepths| && WalkerOk(w, |w.startdepths|)
    ensures LabelsIn([Jump(t)], |w.startdepths|)
    ensures WalkFrom([Jump(t)], 0, d, w) == WalkEnd(Push(Raise(Raise(w, d), d), Entry(t, Unknown), d), d, true)
  {
    WalkVisits([Jump(t)], 0, d, w);
  }

  /** Walking a lone fork from `d` pushes its target at `d + 2` and ends at `d + 1`. */
  lemma WalkFork(t: Label, d: int, w: Walker)
    requires t < |w.startdepths| && WalkerOk(w, |w.startdepths|)
    ensures LabelsIn([Fork(t)], |w.startdepths|)
    ensures WalkFrom([Fork(t)], 0, d, w)
      == WalkEnd(Push(Raise(Raise(w, d + 1), d + 2), Entry(t, Unknown), d + 2), d + 1, false)
  {
    WalkVisits([Fork(t)], 0, d, w);
  }

  /** Block 0 jumps to block 1, which pushes a value and returns. */
  const JumpBlocks := [Block([Jump(1)], false), LoadReturn]
  const JumpOrder: seq<Label> := [0, 1]

  /**
   * As written, every start depth begins at 0, so the jump's depth 0 is
   * not strictly greater than block 1's recorded 0 and block 1 is never
   * walked: the result is 0, yet the path through the jump loads a value.
   */
  lemma ZeroStartSkipsTarget(fuel: nat)
    requires fuel >= 1
    ensures MaxStackDepth(AsWritten, JumpBlocks, JumpOrder, fuel) == Ok(0)
    ensures IsPath(JumpBlocks, JumpOrder, [Point(0, 0), Point(1, 0)])
    ensures !RunsWithin(JumpBlocks[1].instructions, 0, 0, 0)
  {
    var w0 := Init(AsWritten, 2);
    assert w0 == Walker([Entry(0, At(0))], [Some(0), Some(0)], [false, false], 0);
    var m0 := Walker([], [Some(0), Some(0)], [true, false], 0);
    assert Mark(AsWritten, Pop(w0), 0, true) == m0;
    StepWalks(AsWritten, JumpBlocks, JumpOrder, w0);
    WalkJump(1, 0, m0);
    assert Step(AsWritten, JumpBlocks, JumpOrder, w0) == Next(m0);
    RunUnfolds(AsWritten, JumpBlocks, JumpOrder, fuel, w0);
    assert JumpsAt(JumpBlocks, Point(0, 0), 0, Point(1, 0));
    assert LinkAt(JumpBlocks, JumpOrder, [Point(0, 0), Point(1, 0)], 0);
  }

  /** The corrected analysis walks block 1 from the jump's depth and returns 1. */
  lemma ZeroStartFixed(fuel: nat)
    requires fuel >= 2
    ensures MaxStackDepth(Corrected, JumpBlocks, JumpOrder, fuel) == Ok(1)
  {
    var w0 := Init(Corrected, 2);
    assert w0 == Walker([Entry(0, At(0))], [Some(0), None], [false, false], 0);
    var w1 := Walker([Entry(1, Unknown)], [Some(0), Some(0)], [false, false], 0);
    var w2 := Walker([], [Some(0), Some(0)], [false, false], 1);
    StepWalks(Corrected, JumpBlocks, JumpOrder, w0);
    WalkJump(1, 0, Pop(w0));
    assert Step(Corrected, JumpBlocks, JumpOrder, w0) == Next(w1);
    StepWalks(Corrected, JumpBlocks, JumpOrder, w1);
    WalkLoadReturn(0, Pop(w1));
    assert Step(Corrected, JumpBlocks, JumpOrder, w1) == Next(w2);
    RunUnfolds(Corrected, JumpBlocks, JumpOrder, fuel, w0);
    RunUnfolds(Corrected, JumpBlocks, JumpOrder, fuel - 1, w1);
  }

  /**
   * Block 0 branches to block 2 at depth 2 or falls through to block 1 at
   * depth 1; block 1 pushes a value and returns; block 2 jumps back to
   * block 1.
   */
  const ForkBlocks := [Block([Fork(2)], false), LoadReturn, Block([Jump(1)], false)]
  const ForkOrder: seq<Label> := [0, 1, 2]

  /**
   * The first round of either variant on `ForkBlocks`: block 0 queues
   * block 2 at depth 2 and then block 1, by falling through, at depth 1.
   */
  lemma ForkFirstRound(v: Variant)
    ensures Step(v, ForkBlocks, ForkOrder, Init(v, 3))
      == Next(Walker([Entry(2, Unknown), Entry(1, At(1))], [Some(0), Some(1), Some(2)], [false, false, false], 2))
  {
    var w0 := Init(v, 3);
    var marked := Mark(v, Pop(w0), 0, true);
    StepWalks(v, ForkBlocks, ForkOrder, w0);
    WalkFork(2, 0, marked);
    var walked := Push(Raise(Raise(marked, 1), 2), Entry(2, Unknown), 2);
    assert walked.stack == [Entry(2, Unknown)] && walked.maxdepth == 2;
    if v == AsWritten {
      assert walked.startdepths == [Some(0), Some(0), Some(2)];
    } else {
      assert walked.startdepths == [Some(0), None, Some(2)];
    }
    var cleared := Mark(v, walked, 0, false);
    assert cleared.seen == [false, false, false];
    assert NextPosition(ForkOrder, Entry(0, At(0))) == Some(1);
    assert Finish(v, ForkOrder, Entry(0, At(0)), WalkEnd(walked, 1, false))
      == Next(Push(cleared, Entry(1, At(1)), 1));
  }

  /** The states the code as written goes through on `ForkBlocks` after its first round. */
  const SeenStates: seq<Walker> := [
    Walker([Entry(2, Unknown), Entry(1, At(1))], [Some(0), Some(1), Some(2)], [false, false, false], 2),
    Walker([Entry(2, Unknown)], [Some(0), Some(1), Some(2)], [false, true, false], 2),
    Walker([Entry(1, Unknown)], [Some(0), Some(2), Some(2)], [false, true, true], 2),
    Walker([], [Some(0), Some(2), Some(2)], [false, true, true], 2)]

  /** The states the corrected analysis goes through on `ForkBlocks` after its first round. */
  const FixedStates: seq<Walker> := [
    Walker([Entry(2, Unknown), Entry(1, At(1))], [Some(0), Some(1), Some(2)], [false, false, false], 2),
    Walker([Entry(2, Unknown)], [Some(0), Some(1), Some(2)], [false, false, false], 2),
    Walker([Entry(1, Unknown)], [Some(0), Some(2), Some(2)], [false, false, false], 2),
    Walker([], [Some(0), Some(2), Some(2)], [false, false, false], 3)]

  /** As written, block 1 is walked from depth 1 and stays marked `seen` after its return. */
  lemma SeenRoundTwo()
    ensures Step(AsWritten, ForkBlocks, ForkOrder, SeenStates[0]) == Next(SeenStates[1])
  {
    var w := SeenStates[0];
    StepWalks(AsWritten, ForkBlocks, ForkOrder, w);
    WalkLoadReturn(1, Mark(AsWritten, Pop(w), 1, true));
  }

  /** As written, block 2's jump raises block 1's start depth to 2 and queues it again. */
  lemma SeenRoundThree()
    ensures Step(AsWritten, ForkBlocks, ForkOrder, SeenStates[1]) == Next(SeenStates[2])
  {
    var w := SeenStates[1];
    StepWalks(AsWritten, ForkBlocks, ForkOrder, w);
    WalkJump(1, 2, Mark(AsWritten, Pop(w), 2, true));
  }

  /** As written, the entry for block 1 at depth 2 is dropped because block 1 is marked `seen`. */
  lemma SeenRoundFour()
    ensures Step(AsWritten, ForkBlocks, ForkOrder, SeenStates[2]) == Next(SeenStates[3])
  {
  }

  /** The path that enters block 1 at depth 2 through block 2 and loads a third value. */
  lemma ForkPathReachesThree()
    ensures IsPath(ForkBlocks, ForkOrder, [Point(0, 0), Point(2, 2), Point(1, 2)])
    ensures !RunsWithin(ForkBlocks[1].instructions, 0, 2, 2)
  {
    var path := [Point(0, 0), Point(2, 2), Point(1, 2)];
    assert JumpsAt(ForkBlocks, path[0], 0, path[1]);
    assert JumpsAt(ForkBlocks, path[1], 0, path[2]);
    assert LinkAt(ForkBlocks, ForkOrder, path, 0);
    assert LinkAt(ForkBlocks, ForkOrder, path, 1);
  }

  /**
   * As written, a walk that ends at an unconditional branch leaves its
   * block marked `seen`: block 1, walked first from depth 1, is skipped
   * when block 2's jump queues it again at depth 2, so the result is 2
   * while the path through blocks 0, 2 and 1 reaches 3.
   */
  lemma SeenSkipsDeeperEntry(fuel: nat)
    requires fuel >= 4
    ensures MaxStackDepth(AsWritten, ForkBlocks, ForkOrder, fuel) == Ok(2)
    ensures IsPath(ForkBlocks, ForkOrder, [Point(0, 0), Point(2, 2), Point(1, 2)])
    ensures !RunsWithin(ForkBlocks[1].instructions, 0, 2, 2)
  {
    var ws := [Init(AsWritten, 3)] + SeenStates;
    forall k | 0 <= k < |ws| - 1
      ensures TraceStep(AsWritten, ForkBlocks, ForkOrder, ws, k)
    {
      if k == 0 {
        ForkFirstRound(AsWritten);
      } else if k == 1 {
        SeenRoundTwo();
      } else if k == 2 {
        SeenRoundThree();
      } else {
        SeenRoundFour();
      }
    }
    RunFollowsTrace(AsWritten, ForkBlocks, ForkOrder, fuel, ws);
    ForkPathReachesThree();
  }

  /** Corrected, block 1 is walked from depth 1. */
  lemma FixedRoundTwo()
    ensures Step(Corrected, ForkBlocks, ForkOrder, FixedStates[0]) == Next(FixedStates[1])
  {
    var w := FixedStates[0];
    StepWalks(Corrected, ForkBlocks, ForkOrder, w);
    WalkLoadReturn(1, Pop(w));
  }

  /** Corrected, block 2's jump raises block 1's start depth to 2 and queues it again. */
  lemma FixedRoundThree()
    ensures Step(Corrected, ForkBlocks, ForkOrder, FixedStates[1]) == Next(FixedStates[2])
  {
    var w := FixedStates[1];
    StepWalks(Corrected, ForkBlocks, ForkOrder, w);
    WalkJump(1, 2, Pop(w));
  }

  /** Corrected, block 1 is walked again from depth 2 and loads a third value. */
  lemma FixedRoundFour()
    ensures Step(Corrected, ForkBlocks, ForkOrder, FixedStates[2]) == Next(FixedStates[3])
  {
    var w := FixedStates[2];
    StepWalks(Corrected, ForkBlocks, ForkOrder, w);
    WalkLoadReturn(2, Pop(w));
  }

  /** The corrected analysis walks block 1 again from depth 2 and returns 3. */
  lemma SeenFixed(fuel: nat)
    requires fuel >= 4
    ensures MaxStackDepth(Corrected, ForkBlocks, ForkOrder, fuel) == Ok(3)
  {
    var ws := [Init(Corrected, 3)] + FixedStates;
    forall k | 0 <= k < |ws| - 1
      ensures TraceStep(Corrected, ForkBlocks, ForkOrder, ws, k)
    {
      if k == 0 {
        ForkFirstRound(Corrected);
      } else if k == 1 {
        FixedRoundTwo();
      } else if k == 2 {
        FixedRoundThree();
      } else {
        FixedRoundFour();
      }
    }
    RunFollowsTrace(Corrected, ForkBlocks, ForkOrder, fuel, ws);
  }
}

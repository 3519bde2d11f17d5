/**
 * Dead-code truncation: within a block nothing after the first
 * unconditional branch can run, so it is cut off.
 */
module DeadCode {
  import opened Wrappers
  import opened Bytecode

  /** No instruction of `ins` before position `j` is an unconditional branch. */
  predicate NoBranchBefore(ins: seq<InstructionInfo>, j: nat)
    requires j <= |ins|
  {
    forall m :: 0 <= m < j ==> !ins[m].instr.UnconditionalBranch()
  }

  /**
   * The block contents that survive: everything up to and including the
   * first unconditional branch, or all of it when there is none.
   */
  function Truncated(ins: seq<InstructionInfo>): (r: seq<InstructionInfo>)
    ensures |r| <= |ins| && r == ins[..|r|]
    ensures forall m :: 0 <= m < |r| - 1 ==> !r[m].instr.UnconditionalBranch()
    ensures |r| < |ins| ==> |r| > 0 && r[|r| - 1].instr.UnconditionalBranch()
  {
    if ins == [] then []
    else if ins[0].instr.UnconditionalBranch() then [ins[0]]
    else [ins[0]] + Truncated(ins[1..])
  }

  /** A block whose first unconditional branch is at `j` keeps exactly `ins[..j + 1]`. */
  lemma {:induction false} TruncatedAtFirstBranch(ins: seq<InstructionInfo>, j: nat)
    requires j < |ins| && ins[j].instr.UnconditionalBranch() && NoBranchBefore(ins, j)
    ensures Truncated(ins) == ins[..j + 1]
  {
    if j > 0 {
      assert !ins[0].instr.UnconditionalBranch();
      TruncatedAtFirstBranch(ins[1..], j - 1);
      assert ins[..j + 1] == [ins[0]] + ins[1..][..j];
    }
  }

  /** A block without an unconditional branch is left as it is. */
  lemma {:induction false} TruncatedNoBranch(ins: seq<InstructionInfo>)
    requires NoBranchBefore(ins, |ins|)
    ensures Truncated(ins) == ins
  {
    if ins != [] {
      assert !ins[0].instr.UnconditionalBranch();
      TruncatedNoBranch(ins[1..]);
      assert ins == [ins[0]] + ins[1..];
    }
  }

  /** Truncating twice is truncating once. */
  lemma {:induction false} TruncatedIdempotent(ins: seq<InstructionInfo>)
    ensures Truncated(Truncated(ins)) == Truncated(ins)
  {
    if ins != [] && !ins[0].instr.UnconditionalBranch() {
      TruncatedIdempotent(ins[1..]);
    }
  }

  /**
   * The index of the first unconditional branch in `ins`, found by the
   * scan that `dce` runs over each block.
   */
  method FirstUnconditional(ins: seq<InstructionInfo>) returns (last: Option<nat>)
    ensures last.Some? ==>
      last.value < |ins| && ins[last.value].instr.UnconditionalBranch()
      && NoBranchBefore(ins, last.value)
    ensures last.None? ==> NoBranchBefore(ins, |ins|)
  {
    for i := 0 to |ins|
      invariant NoBranchBefore(ins, i)
    {
      if ins[i].instr.UnconditionalBranch() {
        return Some(i);
      }
    }
    return None;
  }

  /** Every block truncated after its first unconditional branch. */
  function EliminateDead(blocks: seq<Block>): (r: seq<Block>)
    ensures |r| == |blocks|
  {
    seq(|blocks|, k requires 0 <= k < |blocks| =>
      blocks[k].(instructions := Truncated(blocks[k].instructions)))
  }

  /**
   * Truncation keeps the number of blocks, never grows a block, keeps each
   * block a prefix of itself and leaves a block without an unconditional
   * branch unchanged.
   */
  lemma EliminateDeadShape(blocks: seq<Block>)
    ensures |EliminateDead(blocks)| == |blocks|
    ensures forall k :: 0 <= k < |blocks| ==>
      var before := blocks[k].instructions;
      var after := EliminateDead(blocks)[k].instructions;
      |after| <= |before| && after == before[..|after|]
      && EliminateDead(blocks)[k].done == blocks[k].done
      && (NoBranchBefore(before, |before|) ==> after == before)
  {
    forall k | 0 <= k < |blocks| && NoBranchBefore(blocks[k].instructions, |blocks[k].instructions|)
      ensures EliminateDead(blocks)[k].instructions == blocks[k].instructions
    {
      TruncatedNoBranch(blocks[k].instructions);
    }
  }

  /** Running dead-code truncation a second time changes nothing. */
  lemma EliminateDeadIdempotent(blocks: seq<Block>)
    ensures EliminateDead(EliminateDead(blocks)) == EliminateDead(blocks)
  {
    forall k | 0 <= k < |blocks|
      ensures EliminateDead(EliminateDead(blocks))[k] == EliminateDead(blocks)[k]
    {
      TruncatedIdempotent(blocks[k].instructions);
    }
  }

  /** Truncation keeps every label operand that was in range in range. */
  lemma EliminateDeadLabels(blocks: seq<Block>, n: nat)
    requires LabelsBelow(blocks, n)
    ensures LabelsBelow(EliminateDead(blocks), n)
  {
    forall k | 0 <= k < |blocks|
      ensures LabelsIn(EliminateDead(blocks)[k].instructions, n)
    {
      var after := EliminateDead(blocks)[k].instructions;
      assert after == blocks[k].instructions[..|after|];
    }
  }
}

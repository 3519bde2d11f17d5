/**
 * Linearisation: the blocks are laid out one after another in
 * `block_order`, and every label operand, which names a block, becomes the
 * offset at which that block starts in the flat instruction stream.
 */
module Linearize {
  import opened Wrappers
  import opened Bytecode
  import opened IndexSets

  /** `order` names every one of `n` blocks exactly once. */
  predicate IsPermutation(order: seq<Label>, n: nat) {
    InRange(order, n) && NoDup(order) && forall l :: 0 <= l < n ==> l in order
  }

  /** The number of instructions in the blocks that `order` names, counted with repetition. */
  function TotalLen(blocks: seq<Block>, order: seq<Label>): nat
    requires InRange(order, |blocks|)
  {
    if order == [] then 0
    else TotalLen(blocks, order[..|order| - 1]) + |blocks[order[|order| - 1]].instructions|
  }

  /**
   * `block_to_offset` after the first loop over `order`: each entry the
   * running instruction count when its block was reached (the last visit
   * wins), and 0 for a block that `order` never names.
   */
  function OffsetTable(blocks: seq<Block>, order: seq<Label>): (t: seq<Label>)
    requires InRange(order, |blocks|)
    ensures |t| == |blocks|
  {
    if order == [] then seq(|blocks|, _ => 0)
    else
      var init := order[..|order| - 1];
      OffsetTable(blocks, init)[order[|order| - 1] := TotalLen(blocks, init)]
  }

  /**
   * The offset table is a prefix sum: the entry of the block at position
   * `k` (when it is not named again later) is the total length of the blocks
   * before it, and a block that is never named gets 0.
   */
  lemma {:induction false} OffsetTableIsPrefixSum(blocks: seq<Block>, order: seq<Label>)
    requires InRange(order, |blocks|)
    ensures forall b :: 0 <= b < |blocks| && b !in order ==> OffsetTable(blocks, order)[b] == 0
    ensures forall k :: 0 <= k < |order| && order[k] !in order[k + 1..] ==>
      OffsetTable(blocks, order)[order[k]] == TotalLen(blocks, order[..k])
  {
    if order != [] {
      var init := order[..|order| - 1];
      var last := order[|order| - 1];
      OffsetTableIsPrefixSum(blocks, init);
      forall b | 0 <= b < |blocks| && b !in order
        ensures OffsetTable(blocks, order)[b] == 0
      {
        assert b !in init;
      }
      forall k | 0 <= k < |order| && order[k] !in order[k + 1..]
        ensures OffsetTable(blocks, order)[order[k]] == TotalLen(blocks, order[..k])
      {
        if k == |order| - 1 {
          assert order[..k] == init;
        } else {
          assert order[|order| - 1] in order[k + 1..];
          assert init[k + 1..] == order[k + 1..|order| - 1];
          assert order[k] !in init[k + 1..];
          assert init[..k] == order[..k];
          assert init[k] == order[k];
        }
      }
    }
  }

  /**
   * The first loop of `finalize_code`: fill `block_to_offset` with the
   * running instruction count and return the total count.
   */
  method BlockOffsets(blocks: seq<Block>, order: seq<Label>) returns (offsets: seq<Label>, total: nat)
    requires InRange(order, |blocks|)
    ensures offsets == OffsetTable(blocks, order)
    ensures total == TotalLen(blocks, order)
    ensures forall k :: 0 <= k < |order| && order[k] !in order[k + 1..] ==>
      offsets[order[k]] == TotalLen(blocks, order[..k])
  {
    var blockToOffset := new Label[|blocks|](_ => 0);
    var numInstructions := 0;
    assert order[..0] == [];
    for k := 0 to |order|
      invariant blockToOffset[..] == OffsetTable(blocks, order[..k])
      invariant numInstructions == TotalLen(blocks, order[..k])
    {
      var idx := order[k];
      assert order[..k + 1][..k] == order[..k];
      blockToOffset[idx] := numInstructions;
      numInstructions := numInstructions + |blocks[idx].instructions|;
    }
    assert order[..|order|] == order;
    offsets, total := blockToOffset[..], numInstructions;
    OffsetTableIsPrefixSum(blocks, order);
  }

  /**
   * An instruction after its label operand, if any, is replaced by the
   * table entry it names; the location and every other part stay.
   */
  function Relabel(ii: InstructionInfo, offsets: seq<Label>): (r: InstructionInfo)
    requires LabelBelow(ii, |offsets|)
    ensures r.location == ii.location
    ensures ii.instr.labelArg.None? ==> r == ii
    ensures ii.instr.labelArg.Some? ==>
      r.instr == ii.instr.(labelArg := Some(offsets[ii.instr.labelArg.value]))
  {
    match ii.instr.labelArg
    case None => ii
    case Some(l) => ii.(instr := ii.instr.(labelArg := Some(offsets[l])))
  }

  function RelabelAll(ins: seq<InstructionInfo>, offsets: seq<Label>): (r: seq<InstructionInfo>)
    requires LabelsIn(ins, |offsets|)
    ensures |r| == |ins|
    ensures forall i :: 0 <= i < |ins| ==> r[i] == Relabel(ins[i], offsets)
  {
    seq(|ins|, i requires 0 <= i < |ins| => Relabel(ins[i], offsets))
  }

  /**
   * The stream the second loop of `finalize_code` emits: the blocks in
   * `order`, each relabelled. Each block is taken out of the vector when it
   * is emitted, so a block named a second time contributes nothing.
   */
  function Emitted(blocks: seq<Block>, order: seq<Label>, offsets: seq<Label>): seq<InstructionInfo>
    requires InRange(order, |blocks|) && LabelsBelow(blocks, |offsets|)
  {
    if order == [] then []
    else
      var init := order[..|order| - 1];
      var b := order[|order| - 1];
      Emitted(blocks, init, offsets)
        + (if b in init then [] else RelabelAll(blocks[b].instructions, offsets))
  }

  function Instrs(s: seq<InstructionInfo>): (r: seq<Instruction>)
    ensures |r| == |s| && forall p :: 0 <= p < |s| ==> r[p] == s[p].instr
  {
    seq(|s|, p requires 0 <= p < |s| => s[p].instr)
  }

  function Locations(s: seq<InstructionInfo>): (r: seq<Location>)
    ensures |r| == |s| && forall p :: 0 <= p < |s| ==> r[p] == s[p].location
  {
    seq(|s|, p requires 0 <= p < |s| => s[p].location)
  }

  /** Dropping the last entry of a sequence without repetitions leaves one, without that entry. */
  lemma NoDupInit(order: seq<Label>)
    requires NoDup(order) && order != []
    ensures NoDup(order[..|order| - 1]) && order[|order| - 1] !in order[..|order| - 1]
  {
  }

  /** In a sequence without repetitions an entry does not occur again later. */
  lemma NoDupNotLater(order: seq<Label>, k: nat)
    requires NoDup(order) && k < |order|
    ensures order[k] !in order[k + 1..]
  {
  }

  /** When no block is named twice, the stream holds exactly the total instruction count. */
  lemma {:induction false} EmittedLength(blocks: seq<Block>, order: seq<Label>, offsets: seq<Label>)
    requires InRange(order, |blocks|) && LabelsBelow(blocks, |offsets|) && NoDup(order)
    ensures |Emitted(blocks, order, offsets)| == TotalLen(blocks, order)
  {
    if order != [] {
      NoDupInit(order);
      EmittedLength(blocks, order[..|order| - 1], offsets);
    }
  }

  /**
   * When no block is named twice, instruction `i` of the block at position
   * `k` is emitted, relabelled, at the total length of the blocks before it
   * plus `i`.
   */
  lemma {:induction false} EmittedAt(blocks: seq<Block>, order: seq<Label>, offsets: seq<Label>, k: nat, i: nat)
    requires InRange(order, |blocks|) && LabelsBelow(blocks, |offsets|) && NoDup(order)
    requires k < |order| && i < |blocks[order[k]].instructions|
    ensures TotalLen(blocks, order[..k]) + i < |Emitted(blocks, order, offsets)|
    ensures LabelBelow(blocks[order[k]].instructions[i], |offsets|)
    ensures Emitted(blocks, order, offsets)[TotalLen(blocks, order[..k]) + i]
      == Relabel(blocks[order[k]].instructions[i], offsets)
  {
    var init := order[..|order| - 1];
    NoDupInit(order);
    EmittedLength(blocks, init, offsets);
    assert LabelsIn(blocks[order[k]].instructions, |offsets|);
    if k == |order| - 1 {
      assert order[..k] == init;
    } else {
      assert init[..k] == order[..k] && init[k] == order[k];
      EmittedAt(blocks, init, offsets, k, i);
    }
  }

  /** Every position of a stream without repeated blocks lies inside one block. */
  lemma {:induction false} EmittedOrigin(blocks: seq<Block>, order: seq<Label>, p: nat)
    returns (k: nat, i: nat)
    requires InRange(order, |blocks|)
    requires p < TotalLen(blocks, order)
    ensures k < |order| && i < |blocks[order[k]].instructions|
    ensures p == TotalLen(blocks, order[..k]) + i
  {
    var init := order[..|order| - 1];
    if p < TotalLen(blocks, init) {
      k, i := EmittedOrigin(blocks, init, p);
      assert init[..k] == order[..k] && init[k] == order[k];
    } else {
      k, i := |order| - 1, p - TotalLen(blocks, init);
      assert order[..k] == init;
    }
  }

  /** Under a permutation, block `l` has exactly one position. */
  lemma PositionOf(order: seq<Label>, n: nat, l: nat) returns (k: nat)
    requires IsPermutation(order, n) && l < n
    ensures k < |order| && order[k] == l && l !in order[k + 1..]
  {
    k := IndexOf(order, l).value;
    NoDupNotLater(order, k);
  }

  lemma {:induction false} PrefixLenBound(blocks: seq<Block>, order: seq<Label>, k: nat)
    requires InRange(order, |blocks|) && k < |order|
    ensures TotalLen(blocks, order[..k]) + |blocks[order[k]].instructions| <= TotalLen(blocks, order)
  {
    if k < |order| - 1 {
      var init := order[..|order| - 1];
      assert init[..k] == order[..k] && init[k] == order[k];
      PrefixLenBound(blocks, init, k);
    } else {
      assert order[..k] == order[..|order| - 1];
    }
  }

  /**
   * With `order` a permutation of the blocks, the offset table entry of a
   * block `l` is where block `l` starts in the emitted stream: its
   * instructions follow from there in order, relabelled.
   */
  lemma BlockStartsAtOffset(blocks: seq<Block>, order: seq<Label>, l: nat, i: nat)
    requires IsPermutation(order, |blocks|) && LabelsBelow(blocks, |blocks|)
    requires l < |blocks| && i < |blocks[l].instructions|
    ensures OffsetTable(blocks, order)[l] + i < |Emitted(blocks, order, OffsetTable(blocks, order))|
    ensures LabelBelow(blocks[l].instructions[i], |blocks|)
    ensures Emitted(blocks, order, OffsetTable(blocks, order))[OffsetTable(blocks, order)[l] + i]
      == Relabel(blocks[l].instructions[i], OffsetTable(blocks, order))
  {
    var k := PositionOf(order, |blocks|, l);
    OffsetTableIsPrefixSum(blocks, order);
    EmittedAt(blocks, order, OffsetTable(blocks, order), k, i);
  }

  /** Every entry of the offset table of a permutation is at most the stream length. */
  lemma OffsetWithinStream(blocks: seq<Block>, order: seq<Label>, l: nat)
    requires IsPermutation(order, |blocks|) && LabelsBelow(blocks, |blocks|) && l < |blocks|
    ensures OffsetTable(blocks, order)[l] + |blocks[l].instructions|
      <= |Emitted(blocks, order, OffsetTable(blocks, order))|
  {
    var k := PositionOf(order, |blocks|, l);
    OffsetTableIsPrefixSum(blocks, order);
    PrefixLenBound(blocks, order, k);
    EmittedLength(blocks, order, OffsetTable(blocks, order));
  }

  /**
   * In the finalised stream of a permutation, every label operand is the
   * table entry of the block the branch named before finalisation.
   */
  lemma LabelsPointAtBlockStarts(blocks: seq<Block>, order: seq<Label>, p: nat) returns (l: nat)
    requires IsPermutation(order, |blocks|) && LabelsBelow(blocks, |blocks|)
    requires p < |Emitted(blocks, order, OffsetTable(blocks, order))|
    requires Emitted(blocks, order, OffsetTable(blocks, order))[p].instr.labelArg.Some?
    ensures l < |blocks|
    ensures Emitted(blocks, order, OffsetTable(blocks, order))[p].instr.labelArg
      == Some(OffsetTable(blocks, order)[l])
  {
    var offsets := OffsetTable(blocks, order);
    EmittedLength(blocks, order, offsets);
    var k, i := EmittedOrigin(blocks, order, p);
    EmittedAt(blocks, order, offsets, k, i);
    var ii := blocks[order[k]].instructions[i];
    assert LabelsIn(blocks[order[k]].instructions, |blocks|);
    l := ii.instr.labelArg.value;
  }

  /**
   * A branch to an empty block lands where the next block in the order
   * starts, and a trailing empty block's offset is the stream length.
   */
  lemma EmptyBlockOffset(blocks: seq<Block>, order: seq<Label>, k: nat)
    requires IsPermutation(order, |blocks|) && k < |order|
    requires blocks[order[k]].instructions == []
    ensures k + 1 < |order| ==>
      OffsetTable(blocks, order)[order[k]] == OffsetTable(blocks, order)[order[k + 1]]
    ensures k + 1 == |order| ==> OffsetTable(blocks, order)[order[k]] == TotalLen(blocks, order)
  {
    OffsetTableIsPrefixSum(blocks, order);
    NoDupNotLater(order, k);
    assert order[..k + 1][..k] == order[..k];
    if k + 1 < |order| {
      NoDupNotLater(order, k + 1);
    } else {
      assert order[..k + 1] == order;
    }
  }

  /**
   * The second loop of `finalize_code`: take each block in order out of
   * the vector, rewrite label operands through `offsets` and append
   * instructions and locations to two parallel vectors.
   */
  method Flatten(blocks: seq<Block>, order: seq<Label>, offsets: seq<Label>)
    returns (instructions: seq<Instruction>, locations: seq<Location>)
    requires InRange(order, |blocks|) && LabelsBelow(blocks, |offsets|)
    ensures |instructions| == |locations|
    ensures instructions == Instrs(Emitted(blocks, order, offsets))
    ensures locations == Locations(Emitted(blocks, order, offsets))
  {
    var remaining := blocks;
    instructions, locations := [], [];
    ghost var emitted: seq<InstructionInfo> := [];
    assert order[..0] == [];
    for k := 0 to |order|
      invariant |remaining| == |blocks|
      invariant forall b :: 0 <= b < |blocks| ==>
        remaining[b] == if b in order[..k] then EmptyBlock else blocks[b]
      invariant emitted == Emitted(blocks, order[..k], offsets)
      invariant instructions == Instrs(emitted) && locations == Locations(emitted)
    {
      var idx := order[k];
      assert order[..k + 1][..k] == order[..k];
      var block := remaining[idx];
      remaining := remaining[idx := EmptyBlock];
      assert LabelsIn(block.instructions, |offsets|) by {
        assert LabelsIn(blocks[idx].instructions, |offsets|);
      }
      ghost var before := emitted;
      for i := 0 to |block.instructions|
        invariant emitted == before + RelabelAll(block.instructions[..i], offsets)
        invariant instructions == Instrs(emitted) && locations == Locations(emitted)
      {
        var info := block.instructions[i];
        var instr := info.instr;
        if instr.labelArg.Some? {
          instr := instr.(labelArg := Some(offsets[instr.labelArg.value]));
        }
        assert block.instructions[..i + 1] == block.instructions[..i] + [info];
        emitted := emitted + [Relabel(info, offsets)];
        instructions := instructions + [instr];
        locations := locations + [info.location];
      }
      assert block.instructions[..|block.instructions|] == block.instructions;
    }
    assert order[..|order|] == order;
  }
}

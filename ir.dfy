/**
 * The code unit under construction and its finalisation into a code
 * object: stack analysis, the cell-to-argument table, optional dead-code
 * truncation, then the block layout is flattened into one instruction
 * stream with branch targets rewritten from block indices to offsets.
 */
module Ir {
  import opened Wrappers
  import opened Bytecode
  import CellArgs
  import DeadCode
  import IndexSets
  import Linearize
  import StackDepth

  /** Why finalisation stops instead of producing a code object. */
  datatype FinalizeError =
    | StackAnalysis(reason: StackDepth.Abort)  // the depth analysis panicked or ran out of fuel
    | BlockOrderMismatch                       // `block_order` and `blocks` differ in length

  /** The blocks that finalisation lays out: truncated when optimising, as built otherwise. */
  function LaidOut(blocks: seq<Block>, optimize: nat): (r: seq<Block>)
    ensures |r| == |blocks|
    ensures optimize == 0 ==> r == blocks
    ensures optimize > 0 ==> r == DeadCode.EliminateDead(blocks)
  {
    if optimize > 0 then DeadCode.EliminateDead(blocks) else blocks
  }

  class CodeInfo {
    var flags: CodeFlags
    var posonlyargCount: nat
    var argCount: nat
    var kwonlyargCount: nat
    var sourcePath: string
    var firstLineNumber: nat
    var objName: string

    var blocks: seq<Block>
    var blockOrder: seq<Label>
    var constants: seq<ConstantData>
    var nameCache: seq<string>
    var varnameCache: seq<string>
    var cellvarCache: seq<string>
    var freevarCache: seq<string>

    constructor (
      flags: CodeFlags, posonlyargCount: nat, argCount: nat, kwonlyargCount: nat,
      sourcePath: string, firstLineNumber: nat, objName: string,
      blocks: seq<Block>, blockOrder: seq<Label>, constants: seq<ConstantData>,
      nameCache: seq<string>, varnameCache: seq<string>,
      cellvarCache: seq<string>, freevarCache: seq<string>)
      ensures this.flags == flags && this.posonlyargCount == posonlyargCount
      ensures this.argCount == argCount && this.kwonlyargCount == kwonlyargCount
      ensures this.sourcePath == sourcePath && this.firstLineNumber == firstLineNumber
      ensures this.objName == objName
      ensures this.blocks == blocks && this.blockOrder == blockOrder
      ensures this.constants == constants && this.nameCache == nameCache
      ensures this.varnameCache == varnameCache && this.cellvarCache == cellvarCache
      ensures this.freevarCache == freevarCache
    {
      this.flags := flags;
      this.posonlyargCount := posonlyargCount;
      this.argCount := argCount;
      this.kwonlyargCount := kwonlyargCount;
      this.sourcePath := sourcePath;
      this.firstLineNumber := firstLineNumber;
      this.objName := objName;
      this.blocks := blocks;
      this.blockOrder := blockOrder;
      this.constants := constants;
      this.nameCache := nameCache;
      this.varnameCache := varnameCache;
      this.cellvarCache := cellvarCache;
      this.freevarCache := freevarCache;
    }

    /**
     * The block graph is one the analysis and the layout can index safely,
     * and each cache, an `IndexSet`, holds every name at most once.
     */
    predicate Ready()
      reads this
    {
      && StackDepth.GraphOk(blocks, blockOrder)
      && IndexSets.NoDup(nameCache) && IndexSets.NoDup(varnameCache)
      && IndexSets.NoDup(cellvarCache) && IndexSets.NoDup(freevarCache)
    }

    /** `dce`: truncates every block after its first unconditional branch, in place. */
    method Dce()
      modifies this`blocks
      ensures blocks == DeadCode.EliminateDead(old(blocks))
    {
      var k := 0;
      while k < |blocks|
        invariant k <= |blocks| == |old(blocks)|
        invariant forall j :: 0 <= j < k ==> blocks[j] == DeadCode.EliminateDead(old(blocks))[j]
        invariant forall j :: k <= j < |blocks| ==> blocks[j] == old(blocks)[j]
      {
        var ins := blocks[k].instructions;
        var last := DeadCode.FirstUnconditional(ins);
        if last.Some? {
          DeadCode.TruncatedAtFirstBranch(ins, last.value);
          blocks := blocks[k := blocks[k].(instructions := ins[..last.value + 1])];
        } else {
          DeadCode.TruncatedNoBranch(ins);
        }
        k := k + 1;
      }
    }

    /**
     * `finalize_code`: the code object built from this unit, or the reason
     * it cannot be built. `v` chooses the stack analysis: `AsWritten` is
     * `max_stacksize` as the code stands, `Corrected` the repaired one. The
     * analysis runs on the blocks as built, before any truncation; the
     * layout uses the truncated blocks when optimising.
     */
    method FinalizeCode(v: StackDepth.Variant, optimize: nat, fuel: nat) returns (r: Result<CodeObject, FinalizeError>)
      requires optimize < 256
      requires Ready()
      modifies this`blocks
      ensures r.Ok? <==>
        StackDepth.MaxStackDepth(v, old(blocks), blockOrder, fuel).Ok? && |blockOrder| == |old(blocks)|
      ensures StackDepth.MaxStackDepth(v, old(blocks), blockOrder, fuel).Err? ==>
        blocks == old(blocks) &&
        r == Err(StackAnalysis(StackDepth.MaxStackDepth(v, old(blocks), blockOrder, fuel).error))
      ensures StackDepth.MaxStackDepth(v, old(blocks), blockOrder, fuel).Ok? ==>
        blocks == LaidOut(old(blocks), optimize)
      ensures (StackDepth.MaxStackDepth(v, old(blocks), blockOrder, fuel).Ok? &&
        |blockOrder| != |old(blocks)|) ==> r == Err(BlockOrderMismatch)
      ensures r.Ok? ==>
        var code := r.value;
        var stream := Linearize.Emitted(blocks, blockOrder, Linearize.OffsetTable(blocks, blockOrder));
        code.maxStacksize == StackDepth.MaxStackDepth(v, old(blocks), blockOrder, fuel).value &&
        code.instructions == Linearize.Instrs(stream) &&
        code.locations == Linearize.Locations(stream) &&
        code.cell2arg == CellArgs.Cell2Arg(cellvarCache, varnameCache, argCount, kwonlyargCount, flags) &&
        code.flags == flags && code.posonlyargCount == posonlyargCount &&
        code.argCount == argCount && code.kwonlyargCount == kwonlyargCount &&
        code.sourcePath == sourcePath && code.firstLineNumber == firstLineNumber &&
        code.objName == objName && code.constants == constants &&
        code.names == nameCache && code.varnames == varnameCache &&
        code.cellvars == cellvarCache && code.freevars == freevarCache
    {
      var analysed;
      if v == StackDepth.AsWritten {
        analysed := StackDepth.MaxStacksize(blocks, blockOrder, fuel);
      } else {
        analysed := StackDepth.MaxStacksizeFixed(blocks, blockOrder, fuel);
      }
      if analysed.Err? {
        return Err(StackAnalysis(analysed.error));
      }
      var maxStacksize := analysed.value;
      var cell2arg := CellArgs.Cell2Arg(cellvarCache, varnameCache, argCount, kwonlyargCount, flags);

      if optimize > 0 {
        Dce();
        DeadCode.EliminateDeadLabels(old(blocks), |old(blocks)|);
      }

      if |blockOrder| != |blocks| {
        return Err(BlockOrderMismatch);
      }

      var offsets, numInstructions := Linearize.BlockOffsets(blocks, blockOrder);
      var instructions, locations := Linearize.Flatten(blocks, blockOrder, offsets);

      r := Ok(CodeObject(
        flags, posonlyargCount, argCount, kwonlyargCount,
        sourcePath, firstLineNumber, objName,
        maxStacksize, instructions, locations, constants,
        nameCache, varnameCache, cellvarCache, freevarCache,
        cell2arg));
    }
  }

  /**
   * When `block_order` lists every block once, the finished stream holds
   * every surviving instruction: its length is the sum of the laid-out
   * block lengths, and the `i`th instruction of block `l` sits at `l`'s
   * offset plus `i`, with its branch target rewritten to the target
   * block's offset.
   */
  lemma FinalizedLayout(blocks: seq<Block>, order: seq<Label>, optimize: nat, l: nat, i: nat)
    requires StackDepth.GraphOk(blocks, order) && Linearize.IsPermutation(order, |blocks|)
    requires l < |blocks| && i < |LaidOut(blocks, optimize)[l].instructions|
    ensures var laid := LaidOut(blocks, optimize);
      var offsets := Linearize.OffsetTable(laid, order);
      var stream := Linearize.Emitted(laid, order, offsets);
      |stream| == Linearize.TotalLen(laid, order) &&
      offsets[l] + i < |stream| &&
      stream[offsets[l] + i] == Linearize.Relabel(laid[l].instructions[i], offsets)
  {
    var laid := LaidOut(blocks, optimize);
    if optimize > 0 {
      DeadCode.EliminateDeadLabels(blocks, |blocks|);
    }
    Linearize.EmittedLength(laid, order, Linearize.OffsetTable(laid, order));
    Linearize.BlockStartsAtOffset(laid, order, l, i);
  }
}

/**
 * Stand-ins for the types of the bytecode crate that the finalisation pass
 * consumes and produces. The concrete instruction set is not part of the
 * model: an instruction is described only by what the pass asks of it.
 */
module Bytecode {
  import opened Wrappers

  /** A branch operand. Before finalisation it names a block, afterwards an instruction offset. */
  type Label = nat

  datatype Location = Location(row: nat, column: nat)

  /**
   * An abstract instruction. `op` stands for the opcode together with every
   * operand other than the label; `labelArg` is the label operand, if the
   * opcode has one; `isUnconditional` says whether control never falls
   * through; the two effects are the net change of the operand stack when
   * the branch is not taken and when it is.
   */
  datatype Instruction = Instruction(
    op: nat,
    labelArg: Option<Label>,
    isUnconditional: bool,
    effectFallThrough: int,
    effectJump: int)
  {
    predicate UnconditionalBranch() {
      isUnconditional
    }

    function StackEffect(jump: bool): int {
      if jump then effectJump else effectFallThrough
    }
  }

  /** An instruction paired with the source location it was compiled from. */
  datatype InstructionInfo = InstructionInfo(instr: Instruction, location: Location)

  datatype Block = Block(instructions: seq<InstructionInfo>, done: bool)

  /** The value `Block::default()` produces, which is also what taking a block leaves behind. */
  const EmptyBlock := Block([], false)

  /** The two flags the pass inspects; every other flag travels in `otherBits`. */
  datatype CodeFlags = CodeFlags(hasVarargs: bool, hasVarkeywords: bool, otherBits: nat)

  /** A constant of the code object; the pass only carries constants through. */
  datatype ConstantData = ConstantData(id: nat)

  datatype CodeObject = CodeObject(
    flags: CodeFlags,
    posonlyargCount: nat,
    argCount: nat,
    kwonlyargCount: nat,
    sourcePath: string,
    firstLineNumber: nat,
    objName: string,
    maxStacksize: nat,
    instructions: seq<Instruction>,
    locations: seq<Location>,
    constants: seq<ConstantData>,
    names: seq<string>,
    varnames: seq<string>,
    cellvars: seq<string>,
    freevars: seq<string>,
    cell2arg: Option<seq<int>>)

  /** The label operand of `ii`, if it has one, is below `n`. */
  predicate LabelBelow(ii: InstructionInfo, n: nat) {
    ii.instr.labelArg.Some? ==> ii.instr.labelArg.value < n
  }

  /** Every label operand in `ins` is below `n`. */
  predicate LabelsIn(ins: seq<InstructionInfo>, n: nat) {
    forall i :: 0 <= i < |ins| ==> LabelBelow(ins[i], n)
  }

  /** Every label operand of every block is below `n`. */
  predicate LabelsBelow(blocks: seq<Block>, n: nat) {
    forall b :: 0 <= b < |blocks| ==> LabelsIn(blocks[b].instructions, n)
  }

  /** Every entry of `order` names one of `n` blocks. */
  predicate InRange(order: seq<Label>, n: nat) {
    forall k :: 0 <= k < |order| ==> order[k] < n
  }
}

# Bytecode finalisation of the RustPython compiler, in Dafny

This project models `impl CodeInfo` in `compiler/src/ir.rs`: the last stage
of code generation. It turns a code unit (basic blocks in a layout order,
symbol caches, flags) into a `CodeObject`. `finalize_code` does four things:

- it runs the stack-depth analysis `max_stacksize`, a worklist over blocks
  that uses `stackdepth_push`;
- it builds the cell-to-argument table with `cell2arg`;
- when optimising, it truncates every block after its first unconditional
  branch with `dce`;
- it lays the blocks out in `block_order` and rewrites every branch operand
  from a block index to an instruction offset.

Modules:

- `Wrappers`: `Option` and `Result`.
- `Bytecode`: the types the pass consumes and produces. An instruction is
  abstract: an opaque opcode, an optional label operand, an
  unconditional-branch flag and the two stack effects (not taken / taken).
- `IndexSets`: the `IndexSet<String>` caches as sequences that `CodeInfo.Ready`
  requires to be duplicate-free, and `get_index_of` / `position` as `IndexOf`
  (the first occurrence).
- `CellArgs`: `cell2arg`, a pure function.
- `DeadCode`: the specification of `dce`, `Truncated` per block, and the
  per-block scan as a loop.
- `Linearize`: the offset table and the flattening loop, each a method
  proved equal to a specification function, plus lemmas on where every
  block's instructions and every branch target end up.
- `StackDepth`: `max_stacksize` twice over.
  - As a function of an explicit state (`Walker`, `Step`, `Run`).
  - As methods over arrays (`startdepths`, `seen`) that follow the loops of
    the code and are proved equal to that function.
  - Variant `AsWritten` is the code as it stands. Variant `Corrected` starts
    every block other than the entry with no start depth and never skips a
    block because it is marked `seen`.
- `StackSound`: what the analysis is for. An execution path is a sequence
  of (block, entry depth) points. It starts at block 0 with an empty stack
  and follows either a taken branch or a fall-through to the next block in
  `block_order`. The corrected analysis's result is proved to bound every
  instruction on every path.
- `StackFindings`: two programs on which the analysis as written returns a
  bound that a path exceeds.
- `Ir`: the `CodeInfo` class: `Dce` mutates its `blocks` in place, and
  `FinalizeCode` assembles the `CodeObject`.

Three details of the code that the model keeps:
- `total_args` counts `arg_count`, `kwonlyarg_count` and the varargs and
  varkeywords flags, and not `posonlyarg_count`.
- A branch to an empty block that comes last in `block_order` gets the
  length of the instruction stream as its offset (`Linearize.EmptyBlockOffset`).
- A block named twice in `block_order` is emitted only the first time,
  because `std::mem::take` leaves an empty block behind (`Linearize.Emitted`).

## Model

| member | source | states |
|---|---|---|
| CellArgs.Params | compiler/src/ir.rs:122-135 | the parameters are exactly the first `total_args` variable names, or all of them when there are fewer |
| CellArgs.CellArg | compiler/src/ir.rs:131-140 | the entry of a cell variable is -1 exactly when it is not a parameter; otherwise it is an index below `total_args` whose variable name is that cell variable |
| CellArgs.Cell2Arg | compiler/src/ir.rs:117-148 | no table when there are no cell variables; no table exactly when no cell variable is a parameter; otherwise one entry per cell variable, -1 exactly for the non-parameters, and the parameter's index for the others |
| CellArgs.Cell2ArgExamples | compiler/src/ir.rs:117-148 | concrete tables: one cell variable that is the second argument, an empty cell list, and a cell variable that is only a local |
| DeadCode.Truncated | compiler/src/ir.rs:150-163 | the result is a prefix of the block; no instruction before its last one is an unconditional branch; when it is shorter than the block it ends with an unconditional branch |
| DeadCode.TruncatedAtFirstBranch | compiler/src/ir.rs:152-160 | a block whose first unconditional branch is at `j` keeps exactly its first `j + 1` instructions |
| DeadCode.TruncatedNoBranch | compiler/src/ir.rs:159-160 | a block without an unconditional branch is left unchanged |
| DeadCode.TruncatedIdempotent | compiler/src/ir.rs:150-163 | truncating a truncated block changes nothing |
| DeadCode.FirstUnconditional | compiler/src/ir.rs:152-158 | the scan returns the index of the first unconditional branch, or nothing exactly when the block has none |
| DeadCode.EliminateDead | compiler/src/ir.rs:150-163 | the number of blocks is kept |
| DeadCode.EliminateDeadShape | compiler/src/ir.rs:150-163 | every block becomes a prefix of itself with its `done` flag kept, and a block without an unconditional branch is unchanged |
| DeadCode.EliminateDeadIdempotent | compiler/src/ir.rs:150-163 | running the pass twice gives the same blocks as running it once |
| DeadCode.EliminateDeadLabels | compiler/src/ir.rs:150-163 | truncation keeps every in-range branch operand in range |
| Linearize.OffsetTable | compiler/src/ir.rs:73-80 | the table has one entry per block |
| Linearize.OffsetTableIsPrefixSum | compiler/src/ir.rs:73-80 | a block missing from `block_order` has offset 0; a block at its last occurrence `k` in `block_order` has as offset the total length of the blocks before `k` |
| Linearize.BlockOffsets | compiler/src/ir.rs:73-80 | the loop computes the offset table and the total instruction count |
| Linearize.Relabel | compiler/src/ir.rs:85-88 | the location is kept, an instruction without a label operand is untouched, and a label operand `l` becomes `offsets[l]` with nothing else changed |
| Linearize.EmittedLength | compiler/src/ir.rs:73-94 | with a duplicate-free order the stream is exactly as long as the count the offset loop computes |
| Linearize.EmittedAt | compiler/src/ir.rs:82-94 | the `i`th instruction of the `k`th block in the order sits after all the blocks before `k`, relabelled |
| Linearize.EmittedOrigin | compiler/src/ir.rs:82-94 | every stream position comes from some instruction of some block in the order |
| Linearize.PositionOf | compiler/src/ir.rs:75-76 | in an order that lists every block once, every block has a position and no later occurrence |
| Linearize.PrefixLenBound | compiler/src/ir.rs:73-80 | a block's offset plus its length stays within the total |
| Linearize.BlockStartsAtOffset | compiler/src/ir.rs:73-94 | when the order lists every block once, instruction `i` of block `l` is at `l`'s offset plus `i`, relabelled |
| Linearize.OffsetWithinStream | compiler/src/ir.rs:73-94 | a block's offset plus its length stays within the stream |
| Linearize.LabelsPointAtBlockStarts | compiler/src/ir.rs:84-88 | every rewritten branch operand in the stream is the offset of some block |
| Linearize.EmptyBlockOffset | compiler/src/ir.rs:73-80 | an empty block shares its offset with the next block in the order, or has the stream length as offset when it comes last |
| Linearize.Flatten | compiler/src/ir.rs:82-94 | the loop produces exactly the instructions and locations of the emitted stream, equally many of each |
| StackDepth.Raise | compiler/src/ir.rs:185-187 | the running maximum becomes the larger of itself and the new depth, and nothing else changes |
| StackDepth.Push | compiler/src/ir.rs:219-230 | the target is queued and its start depth set to exactly `depth` exactly when its recorded start depth is below `depth`; otherwise nothing changes; no other block's start depth changes |
| StackDepth.StackdepthPush | compiler/src/ir.rs:219-230 | the array method writes `depth` and pushes the target exactly when the old start depth is below `depth`, and otherwise leaves both as they were |
| StackDepth.Visit | compiler/src/ir.rs:182-200 | after one instruction the maximum covers the not-taken depth and, for a branch, the taken depth, and the branch target's start depth is at least the taken depth |
| StackDepth.VisitExtends | compiler/src/ir.rs:182-200 | one instruction only appends branch targets to the worklist and only changes the start depths of queued blocks |
| StackDepth.WalkFrom | compiler/src/ir.rs:181-205 | walking a block keeps the state well formed, never lowers a start depth or the maximum, and leaves `seen` alone |
| StackDepth.WalkExtends | compiler/src/ir.rs:181-205 | walking a block only appends branch targets to the worklist and only changes the start depths of queued blocks |
| StackDepth.ExtendsTrans | compiler/src/ir.rs:181-205 | appending targets in two steps is appending in one |
| StackDepth.WalkBoundsAt | compiler/src/ir.rs:181-205 | every instruction the walk reaches stays within the maximum at both its not-taken and taken depths, and its branch target's start depth is at least the taken depth |
| StackDepth.WalkEndDepth | compiler/src/ir.rs:181-205 | the walk stops early exactly when the block has an unconditional branch; otherwise it ends at the entry depth plus the block's total effect, which is within the maximum when the entry depth is |
| StackDepth.Mark | compiler/src/ir.rs:176-179 | marking a block `seen` changes only the `seen` table |
| StackDepth.Finish | compiler/src/ir.rs:202-213 | ending a round keeps the state well formed, never lowers a start depth and keeps the maximum |
| StackDepth.FallThrough | compiler/src/ir.rs:206-213 | falling through keeps the state well formed, never lowers a start depth and keeps the maximum |
| StackDepth.Step | compiler/src/ir.rs:175-214 | one round of the worklist keeps the state well formed, never lowers a start depth and never lowers the maximum |
| StackDepth.RunFollowsTrace | compiler/src/ir.rs:175-214 | a sequence of states each following from the last by one round, ending with an empty worklist, is what the worklist loop computes |
| StackDepth.Run | compiler/src/ir.rs:175-214 | when the loop finishes the worklist is empty, the state is well formed and the maximum has not decreased |
| StackDepth.Init | compiler/src/ir.rs:169-174 | the starting state is well formed: only block 0 is queued, at position 0 with start depth 0; the maximum is 0 and no block is seen; as written every other block starts at depth 0, corrected every other block has none |
| StackDepth.WalkKeepsBounded | compiler/src/ir.rs:181-205 | walking a block keeps every start depth within the maximum |
| StackDepth.FinishKeepsBounded | compiler/src/ir.rs:206-213 | falling through keeps every start depth within the maximum |
| StackDepth.StepKeepsBounded | compiler/src/ir.rs:175-214 | a round keeps every start depth within the maximum |
| StackDepth.RunKeepsBounded | compiler/src/ir.rs:168-216 | the result is at least every recorded start depth |
| StackDepth.StepBoundsWalk | compiler/src/ir.rs:181-205 | after a round, every instruction of the walked block is within the new maximum |
| StackDepth.RunTrace | compiler/src/ir.rs:175-214 | every finished run of the loop is a trace of its rounds from its first state to its last, with no more rounds than the fuel |
| StackDepth.TraceMaxGrows | compiler/src/ir.rs:185-193 | along a trace the running maximum never decreases |
| StackDepth.TraceBoundsWalks | compiler/src/ir.rs:181-205 | the last maximum of a trace bounds every fall-through and branch-taken depth of every block walk in it |
| StackDepth.ResultBoundsEveryWalk | compiler/src/ir.rs:168-216 | whenever the analysis, as written or corrected, returns a result, its rounds form a trace from the initial state, and the result is at least every fall-through and branch-taken depth that any of its walks computes |
| StackDepth.WalkPrefix | compiler/src/ir.rs:181-205 | walking a block that is cut right after an unconditional branch, or not cut at all, gives the same result as walking the whole block |
| StackDepth.WalkTruncated | compiler/src/ir.rs:202-204 | the walk of a block equals the walk of its dead-code truncation: it stops right after the first unconditional branch |
| StackDepth.StepTruncated | compiler/src/ir.rs:175-214 | a round of the loop gives the same result on the truncated blocks |
| StackDepth.RunAgrees | compiler/src/ir.rs:175-214 | two block lists on which every round of the loop gives the same result give the whole loop the same outcome |
| StackDepth.MaxStackDepthTruncated | compiler/src/ir.rs:46-51 | the analysis gives the same result before and after `dce`, so running it first loses nothing |
| StackDepth.VisitInstruction | compiler/src/ir.rs:182-200 | the array code for one instruction computes exactly `Visit` |
| StackDepth.WalkBlock | compiler/src/ir.rs:181-205 | the inner loop computes exactly `WalkFrom` |
| StackDepth.PushNext | compiler/src/ir.rs:207-213 | the fall-through code computes exactly `FallThrough`, including its two panics |
| StackDepth.Round | compiler/src/ir.rs:175-214 | one iteration of the array loop as written computes exactly `Step` of `AsWritten` |
| StackDepth.MaxStacksize | compiler/src/ir.rs:168-216 | the array loop as written returns exactly the result of the `AsWritten` worklist function |
| StackDepth.RoundFixed | compiler/src/ir.rs:175-214 | one iteration of the corrected array loop computes exactly `Step` of `Corrected` |
| StackDepth.MaxStacksizeFixed | compiler/src/ir.rs:168-216 | the corrected array loop returns exactly the result of the `Corrected` worklist function |
| StackSound.StableMonotone | compiler/src/ir.rs:175-214 | a block's recorded facts stay recorded while start depths and the maximum only grow |
| StackSound.InitInv | compiler/src/ir.rs:169-174 | the corrected starting state satisfies the analysis invariant |
| StackSound.WalkKeeps | compiler/src/ir.rs:181-205 | walking a block only grows the state and only queues branch targets of unknown position |
| StackSound.FallThroughKeeps | compiler/src/ir.rs:206-213 | a fall-through that does not panic reaches the next block in the order at at least the end depth |
| StackSound.KeepsTrans | compiler/src/ir.rs:175-214 | growth in two steps is growth in one |
| StackSound.RoundRecordsJumps | compiler/src/ir.rs:181-205 | after a round every instruction of the walked block is within the maximum and every branch target has at least its taken depth |
| StackSound.RoundRecordsFall | compiler/src/ir.rs:206-213 | after a round that falls through, the next block in the order has at least the end depth |
| StackSound.RoundStabilises | compiler/src/ir.rs:175-214 | a walked block whose start depth did not change during its round has all its consequences recorded |
| StackSound.NextPositionFollowsIndex | compiler/src/ir.rs:207-211 | a known position and a looked-up one agree for a block at that position |
| StackSound.RoundKeeps | compiler/src/ir.rs:175-214 | a round only grows the state left after popping |
| StackSound.RoundPositions | compiler/src/ir.rs:207-213 | every queued block's known position names that block |
| StackSound.InvAfterRound | compiler/src/ir.rs:175-214 | the invariant holds again after a round |
| StackSound.StepKeepsInv | compiler/src/ir.rs:175-214 | every round of the corrected loop keeps the invariant |
| StackSound.RunKeepsInv | compiler/src/ir.rs:175-214 | the corrected loop keeps the invariant to its end |
| StackSound.FinalStable | compiler/src/ir.rs:168-216 | when the corrected analysis finishes, every block with a start depth has all its consequences recorded |
| StackSound.PathCovered | compiler/src/ir.rs:168-216 | in a finished state every point of every path has a start depth at least the path's depth there |
| StackSound.CorrectedBoundsEveryPath | compiler/src/ir.rs:168-216 | the corrected result bounds the stack depth of every instruction reached on every path, at both its not-taken and taken depths |
| StackFindings.WalkLoadReturn | compiler/src/ir.rs:181-205 | walking a push-then-return block raises the maximum to one above the entry depth and stops |
| StackFindings.WalkJump | compiler/src/ir.rs:181-205 | walking a lone jump offers its target at the entry depth and stops |
| StackFindings.WalkFork | compiler/src/ir.rs:181-205 | walking a lone conditional branch offers its target two above the entry depth and ends one above |
| StackFindings.ZeroStartSkipsTarget | compiler/src/ir.rs:171 | on a jump to a push-then-return block the analysis as written returns 0, though a path pushes a value |
| StackFindings.ZeroStartFixed | compiler/src/ir.rs:171 | on the same blocks the corrected analysis returns 1 |
| StackFindings.ForkFirstRound | compiler/src/ir.rs:175-214 | the first round on the fork program, for either variant |
| StackFindings.SeenRoundTwo | compiler/src/ir.rs:175-214 | the second round of the analysis as written on the fork program |
| StackFindings.SeenRoundThree | compiler/src/ir.rs:175-214 | the third round of the analysis as written on the fork program |
| StackFindings.SeenRoundFour | compiler/src/ir.rs:176-177 | the fourth round of the analysis as written skips the re-queued block because it is still marked `seen` |
| StackFindings.ForkPathReachesThree | compiler/src/ir.rs:168-216 | on the fork program a path enters the push-then-return block at depth 2, so it reaches 3 |
| StackFindings.SeenSkipsDeeperEntry | compiler/src/ir.rs:176-179 | on the fork program the analysis as written returns 2, though a path reaches 3 |
| StackFindings.FixedRoundTwo | compiler/src/ir.rs:175-214 | the second round of the corrected analysis on the fork program |
| StackFindings.FixedRoundThree | compiler/src/ir.rs:175-214 | the third round of the corrected analysis on the fork program |
| StackFindings.FixedRoundFour | compiler/src/ir.rs:175-214 | the fourth round of the corrected analysis walks the re-queued block again from the deeper entry |
| StackFindings.SeenFixed | compiler/src/ir.rs:168-216 | on the fork program the corrected analysis returns 3 |
| IndexSets.IndexOf | compiler/src/ir.rs:132-133 | the index returned holds the key with no earlier occurrence, and there is none exactly when the key is absent |
| IndexSets.IndexOfNoDup | compiler/src/ir.rs:132-133 | in a duplicate-free cache every key's index is its position |
| Ir.CodeInfo.constructor | compiler/src/ir.rs:27-42 | every field holds its argument |
| Ir.CodeInfo.Dce | compiler/src/ir.rs:150-163 | the blocks become exactly the truncated blocks |
| Ir.CodeInfo.FinalizeCode | compiler/src/ir.rs:45-115 | with either the analysis as written or the corrected one: a code object is produced exactly when the analysis succeeds and the order has one entry per block; a failed analysis is reported before anything changes; otherwise the blocks are truncated when optimising, and a length mismatch is an error; a success carries the analysed maximum, the flattened stream and locations of the laid-out blocks, the cell table, and every other field unchanged |
| Ir.FinalizedLayout | compiler/src/ir.rs:45-94 | when the order lists every block once, the finished stream is as long as all laid-out blocks together and every instruction sits at its block's offset, relabelled |

## Left out

- Integer widths: start depths and the maximum are `i32`, offsets and
  positions are `u32`, and `Label(num_instructions as u32)` truncates. The
  model uses unbounded integers, so overflow and that truncation are not
  modelled.
- StackDepth.MaxStacksize: the loop as written need not terminate, so the
  model gives it a fuel bound of rounds and reports `OutOfFuel` when the
  bound runs out. A result of the source may be a fuel failure of the model.
- The instruction set: an instruction is described only by its label
  operand, whether it is an unconditional branch, and its two stack
  effects. The real opcodes and `stack_effect` table live in the bytecode
  crate, which is not part of this model.
- Panics are modelled as error values:
  - the `position(...).unwrap()` on a block missing from `block_order` is `BlockNotInOrder`;
  - indexing past the end of `block_order` when the last block falls through is `FallThroughPastEnd`;
  - the length `assert!` in `finalize_code` is `BlockOrderMismatch`.
- Out-of-range indexing is a precondition (`GraphOk`), not an error value.
  This covers a label operand not below the number of blocks, an order
  entry not below it, and an empty block list.
- The stack-analysis variant is a parameter of `Ir.CodeInfo.FinalizeCode`.
  With `AsWritten` it calls `StackDepth.MaxStacksize`, which is the code
  as it stands. With `Corrected` it calls `StackDepth.MaxStacksizeFixed`,
  the repair described under Findings. The source has no such parameter.
- StackSound.CorrectedBoundsEveryPath: it is stated for orders without
  duplicates and with block 0 first. Paths follow the layout order as
  fall-through, which is what the analysis assumes.
- The `IndexSet` hashing and the conversions of the caches and vectors
  into boxed slices are left out: they are sequences in the model.
- The rest of the compiler (symbol table, code generation), which builds
  the `CodeInfo`, is not part of this model.

## Findings

| source | as written | input that shows it | evidently intended | confidence | as-written member | corrected member |
|---|---|---|---|---|---|---|
| compiler/src/ir.rs:171 | every start depth begins at 0 and a block is queued only when reached with a depth strictly above it | block 0 is an unconditional jump to block 1, which pushes one value and returns, with order [0, 1]: block 1 is reached at depth 0, never walked, and the result is 0 although block 1 pushes a value | only the entry block starts with a known depth (0); any other block is walked the first time it is reached | not executed | StackFindings.ZeroStartSkipsTarget | StackSound.CorrectedBoundsEveryPath |
| compiler/src/ir.rs:176-179 | `seen` is set on entry and cleared only when the block falls through, so a block that ends with an unconditional branch stays marked, and a later entry at a greater depth is skipped | block 0 is a conditional branch to block 2 pushing 1 (not taken) and 2 (taken); block 1 pushes one and returns; block 2 jumps to block 1; order [0, 1, 2]: the path 0 → 2 → 1 enters block 1 at depth 2 and reaches 3, but the analysis returns 2 | a block re-queued with a greater start depth is walked again | not executed | StackFindings.SeenSkipsDeeperEntry | StackSound.CorrectedBoundsEveryPath |

# llvm-mctoll, modelled in Dafny

llvm-mctoll raises machine code to LLVM IR. This project models the parts of it that carry the argument that raised code
means what the machine code meant, and proves what each part keeps. `dafny verify dfyconfig.toml` checks everything.

**Raising registers (X86).** `ControlFlow`, `ReachingDefinitions`, `RaisedSemantics`, `RaisingFunction`, `GoodPrograms`,
`RaisingInvariant`, `RaisingFrames`, `RaisingBorrows`, `RaisingReload`, `RaisingPromotion`, `RaisingLookups`, `RaisingSteps`,
`RaisingCorrect`, `RaisingSucceeds`, `RaisedValueTracker`. A machine function is a graph of blocks of instructions over registers; its raised form
computes values and uses stack slots. An operation may read an input that differs from execution to execution, as a call or a load
does. The tracker searches backwards for reaching definitions, allocates a slot where several reach, stores into it at the end of
every defining block (at once, or after everything is raised), replaces the uses of a stored value in dominated blocks by loads,
and records the load as a definition. `RaisingFunction` says what every step makes of the state, the class is proved to do that,
and one invariant is kept by every step. The result: the raised function of a good program reads the machine's values on every run
of every graph, cyclic or not, from every entry state, in whatever order blocks and late promotions come and whatever LLVM answers
about dominance.

Whether a program is good can be told from its graph and code, before raising. What a block other than the entry copies from
outside, and keeps, must be loaded by that block because two definitions come in; or it must not be made anew before it is read,
not be stored for the register it is copied to, and if it is stored for the register it comes from, be read in this block only
(`CopiesSafe`). And where two registers leave a block with the same value and it may be stored for one of them, no other block
reads the other (`Apart`). `GoodExamples` has three small programs that are good for these reasons.

Neither condition can be dropped, and what goes wrong is exact in this sense: `Disturbance` and `DisturbedLookups` show that a
direct answer whose value is made anew between definition and use, and a read from a slot into which such a value is stored, is
wrong on every run that comes that way, in the raised function of any program. `LostCopy` (a register keeps a value across a back
edge) and `SharedCopy` (a promoted value is shared with another register) are two functions for which the tracker's own result,
step by step, is shown to be wrong for this reason (`RaisingEvaluation` helps to follow it); each violates just one of the
conditions.

**Instruction splitting (ARM).** `ArmMachine`, `ArmSplitting`, `ArmSplittingCorrect`, `ArmEntangled`, `ArmAccessCorrect`,
`ArmSplittingPass`. The machine has 32-bit registers, byte memory and NZCV, with shifts and carries as in sections A2.2.1 and A8.4
of the ARM Architecture Reference Manual, and instructions are opcodes with operand lists, so that every operand the pass moves is
at stake. For each shifted data-processing instruction and each load or store it is decided exactly which are preserved from every
state. Five defects follow: flag-setting logical operations under a condition other than VS and VC test the condition a second
time on the flags of their own shift (the repository's test `eorseq` is one of them), which `ArmEntangled` shows to be harmless for
four small families and wrong for all others; MOVS and flag-setting logical operations with RRX lose the shifter's carry; LSR and
ASR by 32, which are encoded as 0, are split as shifts by a register; additions with carry under no condition are taken to set
flags, because LLVM gives them an operand for CPSR; and a subtracted register offset is added, which is right only for LSL #31.

**Recovery of the control-flow graph.** `OrderedMap`, `McInstStream`, `McInstRaiser`, `CfgExact`, `CfgEdges`, `CfgRuns`,
`CfgLookup`, `LeaderCollection`. From a decoder through leader collection and `buildCFG` to the graph: blocks partition the
stream; edges are exactly the machine's static steps unless the block ends with a conditional branch that leaves the function or
whose target is not known, of which even the fall-through edge is dropped; a run of the stream is a walk of the graph exactly if it
goes on after no such branch, and all walks are runs exactly where returns are last in their blocks; lookups by offset and by block agree with the partition.

**Prototypes (X86).** `LiveInRegisters`, `LiveInDiscovery`, `ArgumentLayout`, `ReturnTypeSearch`. The live-in set holds the widest
member of each family; the discovery is exact in every visiting order, for the paths that were visited in their order, which in topological order are all; argument lists and lookups
invert each other; the return-type search is breadth-first, whatever cycles there are. Four defects follow: a definition of XMM0
right after a call gives the callee's return type instead of its own; a seventh integer argument indexes past the table of
argument registers; a general-purpose argument register beyond the last live-in one is given a floating-point argument; and
since predecessors are united, a register that one path defines and another reads as it was on entry is not counted as live-in.

**Values.** `SseValues` (values of SSE registers in other types), `ReducedIntervalCongruence`, `ValueSetAnalysis` (sets on the heap, shared on assignment), `Eflags` (flags at any
width), `ArmFrameBuilder` (copies of the stack pointer), `PeepholeOptimization` (pointer arithmetic). Each says exactly when the
transformation keeps the meaning: for instance, replacing copies of SP is right if and only if no copy to a new register is
predicated, SP does not change while a copy is recorded, and no predicated instruction redefines a recorded register.

The classes `X86RaisedValueTracker`, `ARMInstructionSplitting`, `MCInstRaiser`, `X86ValueSetAnalysis`, `ARMFrameBuilder` and
`PeepholeOptimizationPass` have the fields and loops of the originals; their methods are proved against the functions and
predicates that the lemmas are about.

## Model

| member | source | states |
|---|---|---|
| `RaisedValueTracker.X86RaisedValueTracker.WalkBackFrom` | X86/X86RaisedValueTracker.cpp:160-203 | the worklist search from one predecessor finds exactly the definitions live on leaving it, on any cyclic graph, and terminates because unvisited blocks decrease |
| `RaisedValueTracker.X86RaisedValueTracker.GetGlobalReachingDefs` | X86/X86RaisedValueTracker.cpp:139-214 | without a local value the answer is sorted, free of duplicates, and exactly the blocks from which a path of at least one edge without another definition in between leads to the query block; with all predecessors demanded, it is empty unless each has one |
| `ControlFlow.WalkSeesPathStart` | X86/X86RaisedValueTracker.cpp:160-203 | completeness of the walk: it sees the start of every definition-free path |
| `ReachingDefinitions.ThroughCloses` | X86/X86RaisedValueTracker.cpp:160-203 | every path into the block comes through blocks without a definition, up to the definitions that are found |
| `RaisedValueTracker.X86RaisedValueTracker.SetPhysRegSSAValue` | X86/X86RaisedValueTracker.cpp:110-131 | the value becomes the block's definition of the register and no other definition changes |
| `RaisedValueTracker.X86RaisedValueTracker.GetReachingDef` | X86/X86RaisedValueTracker.cpp:323-505 | the answer is none, the only reaching value, or a load from a new slot recorded as a definition; under the invariant it is the machine's value of a register that the block reads, and earlier answers stay right although their uses may be replaced |
| `RaisedValueTracker.X86RaisedValueTracker.PromoteAll` | X86/X86RaisedValueTracker.cpp:430-470 | every reaching definition is promoted to the slot at once, or noted to be promoted later |
| `RaisedValueTracker.X86RaisedValueTracker.ReplaceUses` | X86/X86MachineInstructionRaiserUtils.cpp:990-997 | every use of the value in a block, the terminator's included, reads a new load from the slot placed in front of it |
| `RaisedValueTracker.X86RaisedValueTracker.PromotePhysregToStackSlot` | X86/X86MachineInstructionRaiserUtils.cpp:908-1000 | the store goes to the end of the defining block; unless the value is an argument, a load or cast to the slot's type, its uses in all other blocks that the defining block dominates are replaced, and no others |
| `RaisedValueTracker.X86RaisedValueTracker.RecordDefsToPromote` | X86/X86MachineInstructionRaiserUtils.cpp:430-435 | notes a promotion that waits for its block |
| `RaisedValueTracker.X86RaisedValueTracker.HandleUnpromotedReachingDefs` | X86/X86MachineInstructionRaiserUtils.cpp:1052-1070 | the waiting promotions are carried out, each once, in some order; in a good program every one of them finds a value, as the assertion demands, and the invariant still holds |
| `RaisedValueTracker.X86RaisedValueTracker.RaiseFunction` | X86/X86MachineInstructionRaiser.cpp:5823-5910 | raising all blocks, then what was put off, then the waiting promotions gives a function that does what the machine function does on every run, if the program is good; for any program, it succeeds exactly if every register that is read has a value by then: written earlier in the block, an argument read in the entry block, or coming in from two blocks or from one raised before |
| `RaisingSucceeds.SucceedsIff` | X86/X86MachineInstructionRaiser.cpp:5823-5910 | the condition, on the graph, the code and the order of blocks, under which the raised code exists |
| `RaisedValueTracker.X86RaisedValueTracker.RaiseTerminator` | X86/X86JumpTables.cpp:378-450 | a register looked up after all blocks are raised, for a jump table, keeps the invariant too |
| `RaisingSteps.RaisedFunctionRefines` | X86/X86MachineInstructionRaiser.cpp:5823-5910 | stack-slot promotion with its rewriting preserves the meaning of every good program: on every path every read agrees with the machine, for any order of blocks and promotions and any answers of LLVM |
| `RaisingCorrect.FinishedRefines` | X86/X86RaisedValueTracker.cpp:323-505 | the invariant suffices: a finished raising agrees with the machine on every path of the graph |
| `RaisingCorrect.RunStep` | X86/X86RaisedValueTracker.cpp:323-505 | along any run, after every block, each lookup's register is in the slot or value where the lookup expects it |
| `RaisingSteps.CopyIsSound` | X86/X86MachineInstructionRaiser.cpp:367-400 | what a copy records was made by the instruction its source comes from, was loaded by its block, or was lent by a finished block |
| `RaisingSteps.FoundIsLent` | X86/X86RaisedValueTracker.cpp:475-502 | where the search finds one definition, the value is one that a finished block left in the register, even if that has it from yet another; a block into which two definitions surely come loads the register |
| `RaisingBorrows.KeptIsSafe` | X86/X86RaisedValueTracker.cpp:500-502 | in a good program a value that a finished block keeps of another is not made anew before it is read, and not stored for the register that keeps it |
| `RaisingBorrows.BorrowIsApart` | X86/X86MachineInstructionRaiserUtils.cpp:963-997 | nor is it stored for a register of its own block, unless it was loaded or is read in the keeping block only |
| `RaisingCorrect.DefinedAlong` | X86/X86RaisedValueTracker.cpp:139-214 | where a looked-up register has a value on a run, the run has come from a block that the search found |
| `RaisingSteps.StepKeepsValues` | X86/X86MachineInstructionRaiser.cpp:367-400 | two registers of a block have one value only if it was loaded or one instruction of the block made it |
| `RaisingLookups.AnswerKeepsInv` | X86/X86RaisedValueTracker.cpp:323-505 | a lookup keeps the invariant with all its promotions, answers with the register's value, and leaves earlier answers right |
| `RaisingLookups.NarrowSearch` | X86/X86RaisedValueTracker.cpp:160-203 | where one definition reaches a block, no block on the way to it ever finds another, so none ever loads the register |
| `RaisingLookups.QueryKeepsInv` | X86/X86RaisedValueTracker.cpp:323-505 | a new query keeps the invariant for all queries so far |
| `RaisingLookups.LoadKeepsInv` | X86/X86RaisedValueTracker.cpp:475-499 | recording the load as a definition keeps the invariant for every later query |
| `RaisingPromotion.StoreKeepsInv` | X86/X86MachineInstructionRaiserUtils.cpp:908-946 | a store into a slot of its own register disturbs no query |
| `RaisingPromotion.PromotedKeepsInv` | X86/X86MachineInstructionRaiserUtils.cpp:908-1000 | the store and all replaced uses together keep the invariant, and the block leaves the value in the slot |
| `RaisingReload.ReloadedRuns` | X86/X86MachineInstructionRaiserUtils.cpp:990-997 | code with loads in place of a value's uses does what it did before from the state where the value is what the slot holds |
| `RaisingReload.ReloadsKeepInv` | X86/X86MachineInstructionRaiserUtils.cpp:963-997 | replacing the uses in one block keeps every register, output, store and lookup right |
| `RaisingReload.DirectIsFor` | X86/X86MachineInstructionRaiserUtils.cpp:963-997 | in a good program, a promoted value is a direct answer for its own register only |
| `RaisingSteps.ResolvedKeepsInv` | X86/X86MachineInstructionRaiserUtils.cpp:1052-1070 | a late promotion finds its register's value and keeps the invariant |
| `Disturbance.RemadeIsWrong` | X86/X86RaisedValueTracker.cpp:500-502 | if a register is not written after a block of a run and what a location holds is made anew after it, the location does not hold the register's value at the end of the run |
| `Disturbance.RemadeReadBreaks` | X86/X86MachineInstructionRaiserUtils.cpp:963-997 | a raised function that reads at such a location, directly or from a slot, does not do what the machine does |
| `Disturbance.RaisedMirrors` | X86/X86MachineInstructionRaiser.cpp:5823-5910 | the raised function of any program has the machine's operations and reads block by block, whatever was rewritten |
| `Disturbance.GoodIsUndisturbed` | X86/X86RaisedValueTracker.cpp:500-502 | in a good program no direct answer is made in the block that uses it, or in a block between definition and use that the definition leads to |
| `DisturbedLookups.DisturbedAnswerIsWrong` | X86/X86RaisedValueTracker.cpp:500-502 | every direct answer of the tracker that is made anew on the way is wrong on every run that comes that way with the register defined, in any program |
| `LostCopy.MachineRaised` | X86/X86RaisedValueTracker.cpp:323-505 | what the tracker makes, step by step, of a loop that copies a register |
| `LostCopy.LostCopyBreaks` | X86/X86RaisedValueTracker.cpp:500-502 | it does not do what the machine does |
| `LostCopy.OnlyTheBackEdge` | X86/X86MachineInstructionRaiser.cpp:367-400 | only the condition on copies is violated, and only because the loop leads back to where the copied value was made: no register ever gets a slot; so it cannot be dropped |
| `GoodExamples.JoinIsGood` | X86/X86MachineInstructionRaiserUtils.cpp:963-967 | a copy of a register that is loaded from a slot is good |
| `GoodExamples.ScratchIsGood` | X86/X86MachineInstructionRaiserUtils.cpp:986-997 | so is a copy of a stored value that only its own block reads |
| `GoodExamples.LoopIsGood` | X86/X86RaisedValueTracker.cpp:500-502 | and a copy in a loop that is read before the loop makes the value anew |
| `SharedCopy.MachineRaised` | X86/X86MachineInstructionRaiserUtils.cpp:963-997 | what the tracker makes of a function in which a promoted value is shared with another register |
| `SharedCopy.SharedCopyBreaks` | X86/X86MachineInstructionRaiserUtils.cpp:963-997 | the use of the other register reads the promoted register's slot, and the result does not do what the machine does |
| `SharedCopy.OnlyApartFails` | X86/X86MachineInstructionRaiserUtils.cpp:963-997 | only the condition on shared values is violated, so it cannot be dropped |
| `ArmSplittingCorrect.EncodeMeans` | ARM/ARMInstructionSplitting.cpp:441-531 | the operand list of a shifted instruction executes as the instruction's meaning |
| `ArmSplittingCorrect.PairMeans` | ARM/ARMInstructionSplitting.cpp:534-997 | what the two instructions of each of the four split forms do together, through a fresh register, for all but additions with carry under no condition |
| `ArmSplittingCorrect.SupportedPreserved` | ARM/ARMInstructionSplitting.cpp:441-809 | supported instructions, predicated or not, with any aliasing, keep registers, memory and NZCV from every state |
| `ArmEntangled.PreservedIff` | ARM/ARMInstructionSplitting.cpp:441-997 | every shifted data-processing instruction, with any registers, shift, flags and condition: preserved from every state exactly if it is supported (not shifted by an encoded 0, no addition with carry under no condition, and if it sets flags, no move, no logical RRX and no logical operation under a condition but AL, VS, VC) or exempt |
| `ArmSplittingCorrect.AlwaysCarriesBreaks` | ARM/ARMInstructionSplitting.cpp:1036-1064 | the search for CPSR finds the operand with which an addition with carry is created, so that one under no condition is split as if it set flags, or with the wrong operand for the condition |
| `ArmEntangled.EntangledIff` | ARM/ARMInstructionSplitting.cpp:812-997 | a flag-setting logical operation under another condition is preserved exactly if the shift cannot make the condition fail (PL with LSR by a number) or the operation would then have changed nothing (three families of equal registers) |
| `ArmSplittingCorrect.LosesCarry` | ARM/ARMInstructionSplitting.cpp:136-156 | flag-setting moves and logical RRX lose the shifter's carry |
| `ArmSplittingCorrect.AmountZeroBreaks` | ARM/ARMInstructionSplitting.cpp:441-531 | LSR and ASR by 32, encoded as 0, are split wrongly |
| `ArmEntangled.ConditionPreservedIff` | ARM/ARMInstructionSplitting.cpp:812-997 | a condition lets every flag-setting logical operation through exactly if it is always, overflow set or overflow clear |
| `ArmEntangled.EntangledBreaks` | ARM/ARMInstructionSplitting.cpp:812-997 | for every entangled instruction that is not exempt, a state where the split form differs |
| `ArmAccessCorrect.AccessMeans` | ARM/ARMInstructionSplitting.h:46-153 | the operand list of a load or store executes as its meaning: value, address and written-back base |
| `ArmAccessCorrect.SequenceMeans` | ARM/ARMInstructionSplitting.cpp:210-438 | what the instructions do into which an access is split, for all forms and under any predicate |
| `ArmAccessCorrect.AccessPreservedIffSupported` | ARM/ARMInstructionSplitting.h:46-153 | a load or store is preserved from every state exactly if its register offset is added, or subtracted after LSL #31, and not shifted by an encoded 0 |
| `ArmAccessCorrect.AddressesDiffer` | ARM/ARMInstructionSplitting.h:46-153 | for every other access, register values for which the split form computes another address |
| `ArmSplittingPass.InstructionPreserved` | ARM/ARMInstructionSplitting.cpp:999-1084 | a supported instruction and its replacement lead from agreeing states to agreeing states |
| `ArmSplittingPass.SplitAllPreserved` | ARM/ARMInstructionSplitting.cpp:999-1084 | splitting a block of supported instructions keeps its meaning from every state, whatever virtual registers are free |
| `ArmSplittingPass.WalkStep` | ARM/ARMInstructionSplitting.cpp:999-1068 | inserting in front of an instruction and removing it later leaves the concatenation of the replacements |
| `ArmSplittingPass.ARMInstructionSplitting.SplitShifter` | ARM/ARMInstructionSplitting.cpp:441-531 | the operand loop finds the shift and uses up the registers that the specification says |
| `ArmSplittingPass.ARMInstructionSplitting.SplitInstruction` | ARM/ARMInstructionSplitting.cpp:1014-1066 | the case distinction on opcode and status operands |
| `ArmSplittingPass.ARMInstructionSplitting.SplitLoadStore` | ARM/ARMInstructionSplitting.cpp:1010-1032 | the case distinction for loads and stores, on form and offset operand |
| `ArmSplittingPass.ARMInstructionSplitting.BuildAddressSequence` | ARM/ARMInstructionSplitting.cpp:252-345 | the shift, the addition and the transfer with their conditions, built as the specification says |
| `ArmSplittingPass.ARMInstructionSplitting.SplitBlock` | ARM/ARMInstructionSplitting.cpp:1003-1068 | one block after insertion, without the collected instructions, is the split block |
| `ArmSplittingPass.ARMInstructionSplitting.Split` | ARM/ARMInstructionSplitting.cpp:999-1084 | every block of supported instructions keeps its meaning |
| `McInstRaiser.MCInstRaiser.AddTarget` | Raiser/MCInstRaiser.h:60-65 | targets within the function, its end included, are kept |
| `McInstRaiser.MCInstRaiser.AddMCInstOrData` | Raiser/MCInstRaiser.cpp:281-287 | entries stay in order, and the first entry at an offset wins |
| `McInstRaiser.MCInstRaiser.TargetsBefore` | Raiser/MCInstRaiser.cpp:47-97 | the targets recorded for the instruction before a leader |
| `McInstRaiser.MCInstRaiser.AddBlocks` | Raiser/MCInstRaiser.cpp:33-118 | after any number of entries the blocks are the stretches between leading instructions, and all but the open one are in both maps |
| `McInstRaiser.MCInstRaiser.AddEdges` | Raiser/MCInstRaiser.cpp:163-188 | every block has recorded targets, so the assertion holds; its edges are those targets that begin a block, and none for a return |
| `McInstRaiser.MCInstRaiser.BuildCFG` | Raiser/MCInstRaiser.cpp:21-188 | the finished maps and graph, with or without data in the stream |
| `CfgExact.BlocksPartition` | Raiser/MCInstRaiser.cpp:33-118 | the blocks in number order are the instructions of the stream, data or not |
| `CfgExact.LeadersBegin` | Raiser/MCInstRaiser.cpp:43-112 | a block begins with a leader and contains no other |
| `CfgEdges.EdgeMeans` | Raiser/MCInstRaiser.cpp:47-188 | there is an edge from one block to another exactly if the last instruction of the one can step to the first of the other, and is not a lost branch |
| `CfgEdges.EdgesExactIff` | Raiser/MCInstRaiser.cpp:62-85 | a block's edges are all steps of its last instruction exactly if that is no conditional branch out of the function or to an unknown target |
| `CfgEdges.StepsToLeads` | llvm-mctoll.cpp:1228-1266 | with the collected leaders, every step from the end of a block leads to the beginning of a block |
| `CfgEdges.DataDropsEdges` | Raiser/MCInstRaiser.cpp:97-105 | a block with data behind it has no edges |
| `CfgRuns.RunIsWalk` | Raiser/MCInstRaiser.cpp:21-188 | every run of the instruction stream from a block's beginning that goes on after no lost branch executes a walk of the graph, up to where it stops |
| `CfgRuns.RunIsWalkIff` | Raiser/MCInstRaiser.cpp:21-188 | a run from a block's beginning executes a walk of the graph exactly if it goes on after no lost branch |
| `CfgRuns.WalkIsRun` | Raiser/MCInstRaiser.cpp:21-188 | every walk of the graph is executed by a run, where returns are last in their blocks |
| `CfgRuns.WalksAreRunsIff` | Raiser/MCInstRaiser.cpp:21-188 | all walks of the graph are executed by runs exactly if returns are last in their blocks |
| `McInstRaiser.MCInstRaiser.GetMBBNumberOfMCInstOffset` | Raiser/MCInstRaiser.cpp:289-315 | the block that begins at the offset, or else the first whose bytes cover it, or -1 |
| `McInstRaiser.MCInstRaiser.GetMCInstOffsetOfMBBNumber` | Raiser/MCInstRaiser.cpp:317-326 | the first offset recorded for a block, or -1 |
| `McInstRaiser.MCInstRaiser.GetMCInstSize` | Raiser/MCInstRaiser.cpp:328-343 | the distance to the next entry, instruction or data, or behind the last to the end of the function |
| `McInstRaiser.SizeReaches` | Raiser/MCInstRaiser.cpp:328-343 | the size is positive, and nothing begins within it |
| `CfgLookup.LookupExact` | Raiser/MCInstRaiser.cpp:289-315 | without data the lookup gives exactly the one block whose bytes contain the offset |
| `CfgLookup.ReverseExact` | Raiser/MCInstRaiser.cpp:317-326 | the reverse lookup gives a block's first offset |
| `CfgLookup.LookupRoundTrip` | Raiser/MCInstRaiser.cpp:289-326 | looking up a block's first offset gives the block back, with or without data |
| `LeaderCollection.Disassemble` | llvm-mctoll.cpp:1091-1266 | the stream is exactly what decodes at the offsets the loop comes to, and the leaders exactly the start and, for each branch in the stream, its target and what follows it |
| `LeaderCollection.StreamExact` | llvm-mctoll.cpp:1091-1227 | an instruction is in the stream exactly if decoding from the start, byte sizes added up, comes to it before the end |
| `LeaderCollection.LeadersOfIff` | llvm-mctoll.cpp:1228-1266 | an offset is a leader exactly if a branch of the stream goes there or ends there |
| `LeaderCollection.BlocksMaximal` | Raiser/MCInstRaiser.cpp:21-96 | no block is shorter than it must be: every block but the first begins at the target of a branch or behind one |
| `LeaderCollection.CollectedClean` | llvm-mctoll.cpp:1228-1266 | where all bytes decode, the stream has no gaps and the collected leaders are closed |
| `LeaderCollection.RecoverCfg` | llvm-mctoll.cpp:1091-1285 | from a decoder to a graph to which all results above apply, with no leaders but those that branches make |
| `LiveInRegisters.AddRegisterToFunctionLiveInSet` | X86/X86FuncPrototypeDiscovery.cpp:105-146 | after any additions the set holds of every family its widest added register and no other |
| `LiveInDiscovery.DiscoverLiveIns` | X86/X86FuncPrototypeDiscovery.cpp:213-459 | for blocks in any order, with repeats, a block's record has exactly the families of which a definition lives along a path whose blocks were visited in that sequence, with the greatest width, and a register is added exactly if at some visit it is read while no definition comes in along such a path; in topological order these are all paths |
| `LiveInDiscovery.VisitRecords` | X86/X86FuncPrototypeDiscovery.cpp:232-273 | one visit keeps the records exact, whatever was visited before |
| `LiveInDiscovery.VisitAdded` | X86/X86FuncPrototypeDiscovery.cpp:275-459 | one visit adds exactly what it reads while no definition has come in |
| `LiveInDiscovery.TopologicalIsComplete` | X86/X86FuncPrototypeDiscovery.cpp:213-459 | where each block comes after its predecessors, nothing that lives on a path is missed and nothing is added without need |
| `LiveInDiscovery.LocalIsLast` | X86/X86FuncPrototypeDiscovery.cpp:440-459 | what a block itself records of a family is the width of its last definition |
| `LiveInDiscovery.LiveInSound` | X86/X86FuncPrototypeDiscovery.cpp:213-459 | a register read with none of its family defined on any path leaves a member of the family, as wide or wider, in the set |
| `LiveInDiscovery.LiveInExact` | X86/X86FuncPrototypeDiscovery.cpp:213-459 | in topological order the set is exactly the widest such register of every family |
| `LiveInDiscovery.RecordExact` | X86/X86FuncPrototypeDiscovery.cpp:244-273 | then a block's record has exactly the families with a live definition, with the greatest width of those definitions |
| `LiveInDiscovery.FreeUseIsRead` | X86/X86FuncPrototypeDiscovery.cpp:213-459 | a use that counts is read without a definition on every path from the entry |
| `LiveInDiscovery.DefinedOnOnePath` | X86/X86FuncPrototypeDiscovery.cpp:244-273 | a register that is read as it was on entry on one path, and does not count because another path defines it |
| `LiveInDiscovery.MergePredecessors` | X86/X86FuncPrototypeDiscovery.cpp:244-273 | the union over the predecessors visited so far, with the widest definition |
| `ArgumentLayout.BuildFuncArgTypeVector` | X86/X86FuncPrototypeDiscovery.cpp:698-771 | general-purpose positions up to the highest in use, then SSE positions, each with its register's type; no position is discovered twice |
| `ArgumentLayout.LiveInsOnePerFamily` | X86/X86FuncPrototypeDiscovery.cpp:694-698 | the live-in set meets what the layout requires: no register with a super- or sub-register |
| `ArgumentLayout.LookupRoundTrip` | X86/X86RaisedValueTracker.cpp:248-277 | looking up a live-in argument register gives the argument built for it |
| `ArgumentLayout.LookupKindIff` | X86/X86RaisedValueTracker.cpp:248-277 | an argument of the wrong kind is given exactly to general-purpose registers beyond all general-purpose arguments |
| `ArgumentLayout.LookupInjective` | X86/X86RaisedValueTracker.cpp:248-277 | registers of different families get different arguments |
| `ArgumentLayout.AssignArgumentRegisters` | X86/X86RaisedValueTracker.cpp:34-63 | the indices stay within the tables exactly if there are at most six integer and eight floating-point arguments, since the bound is tested one too late; then each argument gets the next whole register of its kind, and these look their arguments up again |
| `ArgumentLayout.ArgumentRegisters` | X86/X86RaisedValueTracker.cpp:34-63 | RDI, RSI, RDX, RCX, R8, R9 and XMM0 to XMM7 have these positions, and no other register has one |
| `ReturnTypeSearch.SearchPredecessors` | X86/X86FuncPrototypeDiscovery.cpp:540-583 | the queue finds a nearest definition, nothing if the entry block is nearest or nothing ends the search; the conflict of types cannot arise; it terminates on cycles |
| `ReturnTypeSearch.GetReachingReturnType` | X86/X86FuncPrototypeDiscovery.cpp:527-587 | the block's own answer, or the nearest one |
| `ReturnTypeSearch.NothingMissed` | X86/X86FuncPrototypeDiscovery.cpp:546-583 | nothing that ends the search is nearer than what waits in the queue |
| `ReturnTypeSearch.GetReturnTypeFromMBB` | X86/X86FuncPrototypeDiscovery.cpp:594-693 | a block's answer is the callee's type if it ends in a call, or the type of its last definition, unless that defines XMM0 right after a call: then it is again the callee's |
| `ReturnTypeSearch.IntendedMeans` | X86/X86FuncPrototypeDiscovery.cpp:594-693 | what a block ought to answer, by the last instruction that calls or defines |
| `ReducedIntervalCongruence.AdjustExact` | Raiser/ReducedIntervalCongruence.cpp:330-333 | adjusting moves exactly the members |
| `ReducedIntervalCongruence.MultiplyCoversIff` | Raiser/ReducedIntervalCongruence.cpp:335-340 | multiplying loses no member, whatever bounds are set, exactly if the number is not negative or the interval has no index to lose (at most one, no bounds, or all of one value) |
| `ReducedIntervalCongruence.MultiplyTight` | Raiser/ReducedIntervalCongruence.cpp:335-340 | for a positive number the least and greatest members are multiplied to the least and greatest of the result |
| `ReducedIntervalCongruence.ExactIffTestable` | Raiser/ReducedIntervalCongruence.cpp:68-79 | the unsigned test is right for a value, whatever the bounds are, exactly if the value is not below the offset, the alignment is 1, or the alignment divides the distance neither as it is nor as an unsigned word |
| `ReducedIntervalCongruence.BelowIsInexact` | Raiser/ReducedIntervalCongruence.cpp:68-79 | for every other value, some interval with this alignment and offset that the test gets wrong |
| `ValueSetAnalysis.CrossExact` | X86/X86ValueSetAnalysis.cpp:90-105 | adding a set of constants gives exactly the pairwise sums |
| `ValueSetAnalysis.StepTracksIff` | X86/X86ValueSetAnalysis.cpp:28-184 | an operation keeps every tracked constant equal to the machine's value exactly if it is not the exclusive or of different locations, or an unknown value, with a result the analysis does not have |
| `ValueSetAnalysis.XorTracksIff` | X86/X86ValueSetAnalysis.cpp:163-170 | an exclusive or is tracked whatever its result exactly if it is of a location with itself |
| `ValueSetAnalysis.AssignTracksIff` | X86/X86ValueSetAnalysis.cpp:60-76 | an assigned value is tracked whatever it is exactly if it is a constant |
| `ValueSetAnalysis.RunTracks` | X86/X86ValueSetAnalysis.cpp:28-184 | so does every sequence of such operations from the empty state |
| `ValueSetAnalysis.KnownIff` | X86/X86ValueSetAnalysis.cpp:28-170 | over any sequence of operations, something is known of exactly the locations that an operation wrote or assigned from; nothing is forgotten |
| `ValueSetAnalysis.RunReports` | X86/X86ValueSetAnalysis.cpp:28-199 | over any sequence of followed operations, of exactly these locations a value is reported, and it is the machine's |
| `ValueSetAnalysis.X86ValueSetAnalysis.GetConstantValue` | X86/X86ValueSetAnalysis.cpp:172-199 | a reported value is the only value of the location's set |
| `ValueSetAnalysis.ReportExact` | X86/X86ValueSetAnalysis.cpp:175-199 | what is reported is the machine's value |
| `ValueSetAnalysis.X86ValueSetAnalysis.AddValueWithSrcTimes` | X86/X86ValueSetAnalysis.cpp:107-139 | no set that a location holds is changed, so sharing shows nowhere |
| `ValueSetAnalysis.X86ValueSetAnalysis.AssignValueToSrc` | X86/X86ValueSetAnalysis.cpp:50-58 | afterwards something is known of both, and it is the same; an unknown source makes both 0 |
| `ValueSetAnalysis.Analyse` | X86/X86ValueSetAnalysis.cpp:28-199 | the analysis with its heap knows exactly the locations it was told of, and reports the machine's values after followed operations |
| `SseValues.ReinterpretMeans` | X86/X86RaisedValueTracker.cpp:1108-1184 | whichever way is taken, through integers or through the first element of a vector, the value keeps the bits that fit, with zeros above; all instructions on the way are valid exactly for two vectors, one size, or a scalar whose size divides the other's |
| `SseValues.StepsCollapse` | X86/X86RaisedValueTracker.cpp:1108-1184 | two steps are one unless the first loses bits that the second would keep, so chains of narrowings collapse |
| `SseValues.RoundTripIff` | X86/X86RaisedValueTracker.cpp:1108-1184 | there and back gives the value again exactly if the bits that do not fit are zeros |
| `SseValues.SlotKeepsIff` | X86/X86MachineInstructionRaiserUtils.cpp:935-958 | all values of a type survive a 128-bit stack slot exactly if the type is no wider, and a vector or of a size that divides the slot's |
| `Eflags.CompareDecides` | X86/X86RaisedValueTracker.cpp:527-594 | at every width each condition tested on the flags of CMP and SUB decides the comparison it stands for |
| `Eflags.AddFlagsMean` | X86/X86RaisedValueTracker.cpp:594-612 | CF is the lost bit of a sum, ZF says whether the sum is 0 or 2^w, SF is the sign and OF says whether it is wrong |
| `Eflags.RolFlagsMean` | X86/X86RaisedValueTracker.cpp:612-658 | CF and OF from the result alone are the bit rotated out and the change of sign |
| `Eflags.RorFlagsMean` | X86/X86RaisedValueTracker.cpp:659-705 | the same for a rotate to the right |
| `Eflags.ShlCarryIff` | X86/X86RaisedValueTracker.cpp:877-958 | CF after SHL is the bit shifted out unless the count is 1 and that is the sign bit |
| `ArmFrameBuilder.PreservedIffSafe` | ARM/ARMFrameBuilder.cpp:145-176 | replacing copies of SP keeps the run in step, for all instructions and states and after every prefix, exactly if the code has no predicated copy, change of SP or predicated redefinition while it matters |
| `ArmFrameBuilder.SafeKeeps` | ARM/ARMFrameBuilder.cpp:145-176 | recorded registers equal SP in the original, and all else agrees |
| `ArmFrameBuilder.ARMFrameBuilder.ReplaceNonSPBySP` | ARM/ARMFrameBuilder.cpp:145-176 | one instruction: what it becomes and what is recorded |
| `ArmFrameBuilder.ARMFrameBuilder.ReplaceAll` | ARM/ARMFrameBuilder.cpp:219-258 | the walk over a straight line of code |
| `PeepholeOptimization.NewValueIff` | PeepholeOptimizationPass.cpp:40-66 | the new pointer has the old value exactly if the operands of a bitwise or are disjoint |
| `PeepholeOptimization.SurvivorsKeepValues` | PeepholeOptimizationPass.cpp:18-91 | what is left has its old value, and what was erased is used nowhere |
| `PeepholeOptimization.PeepholeOptimizationPass.Run` | PeepholeOptimizationPass.cpp:18-91 | the walk over the code, with insertions and erasures, keeps this and single assignment form; no conversion to a pointer is left whose operand is a converted pointer or a sum of one that comes from an integer, and gone are exactly the sums and conversions that were used and are used no more |
| `PeepholeOptimization.NoMatchLeavesNone` | PeepholeOptimizationPass.cpp:25-47 | an instruction that is passed over is none that should be rewritten |
| `PeepholeOptimization.ClearedIsExact` | PeepholeOptimizationPass.cpp:68-87 | the names erased are exactly those of used sums and conversions without a use left, here or elsewhere |
| `PeepholeOptimization.OrIsSumIff` | PeepholeOptimizationPass.cpp:43-44 | a bitwise or of words is their sum exactly if they share no bit |

## Left out

- RaisingSteps.RaisedFunctionRefines: `Good` is sufficient; a program that is not good may be raised rightly, for instance where no run comes the way on which a value is made anew or a slot overwritten, or where a copy of another block's value is stored for the register it is copied to while nothing else needs that value. DisturbedAnswerIsWrong and RemadeReadBreaks say when it is not.
- RaisedValueTracker.X86RaisedValueTracker.GetReachingDef: register sizes, casts between widths, the search for any sub-register and source metadata are not modelled; a register is one value.
- RaisedValueTracker.X86RaisedValueTracker.SetPhysRegSSAValue: does not model the recorded size and name.
- RaisedValueTracker.X86RaisedValueTracker.PromotePhysregToStackSlot: casts to the slot's type and loads from memory are an oracle that says whether the uses stay; an instruction that uses the value twice gets one load instead of two, of which the original uses the first.
- RaisedValueTracker.X86RaisedValueTracker.RaiseTerminator: only the lookup; the original then takes the first operand of the compare instruction.
- RaisedValueTracker.X86RaisedValueTracker.RaiseFunction: calls, stores and other instructions are operations or reads without a memory of their own; the entry block has no predecessors; the initial constants of flags and the fallback to arguments for registers without a definition are not modelled.
- ArmSplittingCorrect.AlwaysCarriesBreaks: that LLVM creates additions with carry with a use of CPSR is taken from its instruction tables, which are not part of the repository. Where that is the last operand, the pass looks at one operand more, which is taken not to be CPSR.
- SseValues.ReinterpretMeans: which types the callers ask for is not modelled.
- Eflags: NEG, whose CF is always clear because the constant minuend is tested, is only remarked on.
- CfgEdges.EdgesExactIff: branch targets are relative to the end of the instruction, as on X86; predicated returns, which fall through, are not modelled.
- CfgRuns.RunIsWalk: bytes that do not decode leave gaps, for which `buildCFG` takes the distance to the next entry as a branch's size; only streams without gaps are covered.
- LeaderCollection.Disassemble: one symbol; symbols that continue a function, data markers of ARM objects and address ranges to skip are not modelled.
- CfgLookup.LookupExact: for functions shorter than 4 GB, since the bytes of a block are added up in 32 bits.
- LiveInRegisters.AddRegisterToFunctionLiveInSet: the high-byte registers are not modelled.
- LiveInDiscovery.DiscoverLiveIns: an instruction is the registers it reads and writes; how calls, tail calls and exclusive ors are reduced to that is not modelled. The order of `LoopTraversal` is any order.
- ReturnTypeSearch.GetReturnTypeFromMBB: how an instruction is seen to define RAX or XMM0 is not modelled.
- ReducedIntervalCongruence.AdjustExact: values are unbounded; signed overflow is undefined in the original.
- ArmFrameBuilder.PreservedIffSafe: straight-line code, and copies of SP that do not set flags; the record is not cleared between blocks, and what another block does is not modelled. Stack slots (`identifyStackOp`, `searchStackObjects`) are not modelled.
- PeepholeOptimization.SurvivorsKeepValues: one straight line of code with 64-bit integers; patterns whose parts lie in different blocks are not modelled.
- Eflags.ShlCarryIff: SHR and SAR, for which the same formula takes another bit, SHLD, SHRD, SBB, IMUL and PF are not modelled.
- ARM: compare instructions, PC as an operand, halfword and doubleword accesses, and pre-indexed accesses whose transfer register is the base.
- Jump tables, `intersectRIC`, `unionRIC`, `isSubsetOf`, `widenRIC`, RISC-V, object-file reading and the opcode tables.

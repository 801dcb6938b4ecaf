# EPU: instruction set, code generator, assembly parser and simulator

This project models the core of ExpProcessor, a toy accelerator toolchain. Its
target, the EPU, has several compute cores. Each core has its own local memory
and a few matrix-multiply units, and all cores share one global memory. The
toolchain has three parts, and each part is a Dafny module here:

- the **code generator** (`CodeGen`) splits a matrix product `C = A * B`
  into 32x32 tiles, spreads the output columns over the cores, and prints an
  assembly program made of parallel blocks (`start_parallel` ... `end_parallel`);
- the **assembly parser** (`AsmParser`) reads such a program, line by line,
  back into instructions;
- the **simulator** (`Simulator`, `EpuSimulator`) holds one byte arena
  (global memory, then each core's local memory) and executes the
  instructions element by element.

Supporting modules:

- `Wrappers`: the `Option`/`Result` types.
- `Isa`: the instruction and operand model of `Op.h`, including the
  `start_parallel`/`end_parallel` markers.
- `Target`: the processor description and `create_target`.
- `Pipeline`: how the parts fit together. It proves that every printed copy
  and matmul parses back to itself. It also shows what happens to a whole
  generated program in the parser and in the dispatcher.
- `Layout`: the per-core local memory layout of generated programs.

Each C++ loop that builds a value step by step is a Dafny method with loop
invariants, proved equal to a function. Lemmas then state the properties
about that function. Examples are the character loops of the parser, the
emit loops of the generator, the copy and matmul loop nests of the simulator,
and the dispatch loop. The simulator's arena is an `array<int>` of 4-byte
cells (one float each), updated in place by the execute methods. The simulator
base class is a Dafny `class` whose methods update its fields (the bump
allocator and the handle tables).

## Model

| member | source | states |
|---|---|---|
| Isa.OpCodeOf | include/ISA/Op.h:7 | every copy and matmul carries exactly its own opcode; the two parallel markers carry none |
| Isa.TruncDiv | lib/Target/EPU/Simulator/EPUSimulator.cpp:40-44 | C++ `int` division truncates toward zero: the remainder has the dividend's sign and is smaller than the divisor in magnitude |
| Target.CreateTarget | lib/utils/Utils.cpp:3-26 | fails with a length error exactly when the unit count or the core count is negative (the `reserve` calls); otherwise the processor has exactly the given number of cores with ids 0.., each with the given local memory and the same list of exactly the given number of matmul units with ids 0.. and the given tile sizes; the local memory per core is that size, or 0 without cores |
| Simulator.ContiguousDisjoint | lib/Simulator/Simulator.cpp:8-34 | the regions the bump allocator has handed out are pairwise disjoint, in order, and inside the used part of global memory |
| Simulator.OverwriteRead | lib/Simulator/Simulator.cpp:16 | after a `memcpy` the copied data is read back and every other cell is unchanged |
| Simulator.SegmentLayout | include/Simulator/Simulator.h:37-42 | each core's local segment lies after the global segment and inside the arena; different cores' segments do not overlap |
| Simulator.Simulator.constructor | include/Simulator/Simulator.h:19-31 | the arena is global memory plus one local segment per core (none without cores); the allocator and the handle tables start empty |
| Simulator.Simulator.LocalMemoryBaseLayout | include/Simulator/Simulator.h:37-42 | a core id has a local base exactly when it is in range; that base lies after global memory, its segment ends inside the arena, and segments of different cores are disjoint |
| Simulator.Simulator.RegisterInputHandle | lib/Simulator/Simulator.cpp:8-21 | fails with nothing changed exactly when the data does not fit (or, with assertions, the shape is not rank 2); otherwise writes the data at the next free offset, records the handle and shape, advances the allocator, and leaves the output tables alone |
| Simulator.Simulator.RegisterOutputHandle | lib/Simulator/Simulator.cpp:23-34 | the same failure cases; otherwise reserves the region for the output handle without writing memory |
| Simulator.Simulator.WriteCells | lib/Simulator/Simulator.cpp:16 | the `memcpy` leaves the arena equal to the old arena overwritten with the data from the given cell on |
| Simulator.Simulator.Allocate | lib/Simulator/Simulator.cpp:20 | the region starts at the old next free offset, the allocator moves past it, the regions stay end to end, and no handle table changes |
| Simulator.Simulator.RetrieveLocalMemoryData | lib/Simulator/Simulator.cpp:36-42 | returns the cells at the core's segment base plus the offset, with no check of the core id |
| Simulator.Simulator.RetrieveInputData | lib/Simulator/Simulator.cpp:44-52 | fails exactly for an unregistered input handle; otherwise returns the first bytes of its region |
| Simulator.Simulator.RegisterThenRetrieveInput | lib/Simulator/Simulator.cpp:8-52 | an input registration succeeds exactly when the data fits (and, with assertions, the shape is rank 2); retrieving that handle with the same byte count then returns exactly the registered data, and a failed registration changes nothing |
| Simulator.Simulator.RetrieveOutputData | lib/Simulator/Simulator.cpp:54-62 | fails exactly for an unregistered output handle; otherwise returns the first bytes of its region |
| AsmParser.TrimSpec | lib/Target/EPU/Parser/EPUAsmParser.cpp:20-26 | `trim` gives "" exactly for all-blank text; otherwise the result is the text between the first and last non-blank, and only blanks are cut |
| AsmParser.Stoi | lib/Target/EPU/Parser/EPUAsmParser.cpp:29 | a number `stoi` accepts fits a 32-bit `int` |
| AsmParser.ParseInt | lib/Target/EPU/Parser/EPUAsmParser.cpp:29 | a number `parseInt` accepts fits a 32-bit `int` |
| AsmParser.FindFrom | lib/Target/EPU/Parser/EPUAsmParser.cpp:188 | `find` returns the first position at which the key occurs, or none when it occurs nowhere |
| AsmParser.SplitColons | lib/Target/EPU/Parser/EPUAsmParser.cpp:36-43 | the character loop of `parseDim` computes the colon split `ColonParts` |
| AsmParser.SplitSliceFields | lib/Target/EPU/Parser/EPUAsmParser.cpp:60-72 | the character loop of `parseSlice` computes its comma split, keeping the last field only when it is non-empty |
| AsmParser.SplitTopLevel | lib/Target/EPU/Parser/EPUAsmParser.cpp:92-110 | the depth-tracking loop of the three instruction parsers computes the split at top-level commas |
| AsmParser.ParseDim | lib/Target/EPU/Parser/EPUAsmParser.cpp:32-48 | `parseDim` is exactly `ParsedDim`: three colon fields, each a `parseInt`, otherwise `Invalid dim` |
| AsmParser.ParseSlice | lib/Target/EPU/Parser/EPUAsmParser.cpp:51-85 | `parseSlice` is exactly `ParsedSlice`: `<` `>` required, three fields, base then two dims |
| AsmParser.ParseGlobalToLocalMemCopy | lib/Target/EPU/Parser/EPUAsmParser.cpp:87-119 | the parser computes `ParsedGlobalToLocal`: fields `<src>, core, <dst>` |
| AsmParser.ParseLocalToGlobalMemCopy | lib/Target/EPU/Parser/EPUAsmParser.cpp:121-153 | the parser computes `ParsedLocalToGlobal`: fields `core, <src>, <dst>` |
| AsmParser.ParseMatmul | lib/Target/EPU/Parser/EPUAsmParser.cpp:155-202 | the parser computes `ParsedMatmul`: six fields, the last holding `accumulator=` True/true/False/false |
| AsmParser.ParseInstruction | lib/Target/EPU/Parser/EPUAsmParser.cpp:221-232 | the prefix dispatch of the file loop computes `ParsedLine`; any other prefix is an error |
| AsmParser.ParsedProgramStep | lib/Target/EPU/Parser/EPUAsmParser.cpp:214-233 | a blank line is skipped, a failing line stops the file with its error, and a parsed line is prepended to the rest |
| AsmParser.ParseFile | lib/Target/EPU/Parser/EPUAsmParser.cpp:204-236 | the file loop computes `ParsedProgram`: the instructions of the non-blank lines in order, or the first error |
| CodeGen.JoinedConcat | lib/Target/EPU/CodeGen/EPUCodeGen.cpp:12 | appending newline-prefixed lines distributes over concatenation |
| CodeGen.PrintProgramConcat | lib/Target/EPU/CodeGen/EPUCodeGen.cpp:12 | the text of a concatenated program is the concatenation of the texts, so emitting block by block prints the whole plan |
| CodeGen.EmitActivationCopies | lib/Target/EPU/CodeGen/EPUCodeGen.cpp:133-147 | the loop emits one bracketed block of activation copies, one per participating core |
| CodeGen.EmitWeightCopies | lib/Target/EPU/CodeGen/EPUCodeGen.cpp:149-164 | the loop emits one bracketed block of weight copies of each core's column band |
| CodeGen.EmitMatmuls | lib/Target/EPU/CodeGen/EPUCodeGen.cpp:166-180 | the nested loop emits `colTilesPerCore` matmuls per core, in one bracketed block |
| CodeGen.EmitOutputCopies | lib/Target/EPU/CodeGen/EPUCodeGen.cpp:183-194 | the loop emits one bracketed block of output copies |
| CodeGen.EmitPlan | lib/Target/EPU/CodeGen/EPUCodeGen.cpp:130-194 | the K loop and the final block emit exactly `Plan` |
| CodeGen.GenerateMatmulIsaForEpu | lib/Target/EPU/CodeGen/EPUCodeGen.cpp:89-206 | non-positive sizes give ""; with assertions, each failed check is its own error exactly when that check fails, and success prints the plan; without assertions the text is the plan when the capacity check passes, else "" |
| CodeGen.PlanIsParallelBlocks | lib/Target/EPU/CodeGen/EPUCodeGen.cpp:130-194 | the program is 3 parallel blocks per K step plus the output block, with no marker inside a block |
| CodeGen.KStepsBlocks | lib/Target/EPU/CodeGen/EPUCodeGen.cpp:132-181 | the K loop's text is three bracketed blocks per iteration |
| CodeGen.MatmulBlockFacts | lib/Target/EPU/CodeGen/EPUCodeGen.cpp:166-180 | a matmul block has no marker, and each of its matmuls accumulates exactly when k is not 0 and follows the layout |
| CodeGen.PlanLayout | lib/Target/EPU/CodeGen/EPUCodeGen.cpp:127-194 | every instruction names a participating core (at most the target's cores) and an existing matmul unit; the activation, weight and output regions follow one another from offset 0; when the capacity check passes the output region starts inside local memory |
| CodeGen.PlanAccumulate | lib/Target/EPU/CodeGen/EPUCodeGen.cpp:174-177 | a matmul of the program accumulates exactly when it is not in the first K step |
| CodeGen.KStepsAccumulate | lib/Target/EPU/CodeGen/EPUCodeGen.cpp:132-181 | within the K loop, a matmul accumulates exactly when it lies after the first iteration |
| CodeGen.ColumnBandsCover | lib/Target/EPU/CodeGen/EPUCodeGen.cpp:121-125 | with perfect tiles and an even split, the cores' column bands are non-empty, adjacent, start at 0 and end at N |
| CodeGen.SplitCoversColumnTiles | lib/Target/EPU/CodeGen/EPUCodeGen.cpp:114-125 | participating cores times column tiles per core times the tile width is N |
| CodeGen.BandsAdjacent | lib/Target/EPU/CodeGen/EPUCodeGen.cpp:24-26 | consecutive column bands are non-empty and each begins where the previous one ends |
| EpuSimulator.TransferEffect | lib/Target/EPU/Simulator/EPUSimulator.cpp:67-84 | a copy writes only its destination elements; without aliasing each destination element holds its source element |
| EpuSimulator.CopyElements | lib/Target/EPU/Simulator/EPUSimulator.cpp:67-84 | the row/column loop nest leaves the arena equal to `RunTransfer` of the old arena |
| EpuSimulator.MatmulEffect | lib/Target/EPU/Simulator/EPUSimulator.cpp:225-258 | a matmul writes only C; without aliasing each C element is its old value (when accumulating) or 0, plus the dot product of the A row and the B column |
| EpuSimulator.MultiplyElements | lib/Target/EPU/Simulator/EPUSimulator.cpp:225-258 | the m/n/k loop nest leaves the arena equal to `RunMatmul` of the old arena |
| EpuSimulator.ElementSum | lib/Target/EPU/Simulator/EPUSimulator.cpp:228-250 | one element's sum is its initial value (old `C[i, j]` when accumulating, else 0) plus the dot product of row `i` of A and column `j` of B |
| EpuSimulator.ActionOf | lib/Target/EPU/Simulator/EPUSimulator.cpp:261-271 | a marker is not executable; a copy with an unknown handle, or any op with mismatched shapes, does nothing; otherwise a copy transfers and a matmul multiplies |
| EpuSimulator.StepMem | lib/Target/EPU/Simulator/EPUSimulator.cpp:261-271 | an instruction that is skipped leaves memory unchanged |
| EpuSimulator.RunAllAppend | lib/Target/EPU/Simulator/EPUSimulator.cpp:282-297 | running two instruction lists one after the other is running their concatenation |
| EpuSimulator.ExecuteGlobalToLocalMemCopy | lib/Target/EPU/Simulator/EPUSimulator.cpp:9-85 | the arena becomes `StepMem` of the copy: input handle region into the core's segment, or unchanged on an unknown handle or a shape mismatch |
| EpuSimulator.ExecuteLocalToGlobalMemCopy | lib/Target/EPU/Simulator/EPUSimulator.cpp:87-164 | the arena becomes `StepMem` of the copy: core segment into the output handle's region |
| EpuSimulator.ExecuteMatmul | lib/Target/EPU/Simulator/EPUSimulator.cpp:166-259 | the arena becomes `StepMem` of the matmul, after the A.cols == B.rows check and then the C shape check |
| EpuSimulator.Execute | lib/Target/EPU/Simulator/EPUSimulator.cpp:261-271 | fails with "Unhandled op" exactly for a marker; otherwise the arena becomes `StepMem` of the instruction |
| EpuSimulator.StripMarkers | lib/Target/EPU/Simulator/EPUSimulator.cpp:283-296 | the program without its markers has no marker and is no longer |
| EpuSimulator.DispatchMarkerFree | lib/Target/EPU/Simulator/EPUSimulator.cpp:291-296 | marker-free instructions run in order outside a block and are collected inside one |
| EpuSimulator.DispatchBracket | lib/Target/EPU/Simulator/EPUSimulator.cpp:283-293 | as written, a parallel block only grows the batch and closes the block |
| EpuSimulator.FlushBracket | lib/Target/EPU/Simulator/EPUSimulator.cpp:283-293 | with flushing, a parallel block runs the pending batch and then the block, leaving nothing pending |
| EpuSimulator.BracketedNeverRuns | lib/Target/EPU/Simulator/EPUSimulator.cpp:288-290 | as written, a program made only of parallel blocks executes nothing; every instruction ends in the batch |
| EpuSimulator.FlushedBlocksRunInOrder | lib/Target/EPU/Simulator/EPUSimulator.cpp:288-290 | with flushing, a program of parallel blocks runs every block in program order and leaves nothing pending |
| EpuSimulator.FlushedRunsStripped | lib/Target/EPU/Simulator/EPUSimulator.cpp:280-297 | with flushing, what has run followed by what is pending is the program without markers; outside a block nothing is pending |
| EpuSimulator.DispatchExecutedGrows | lib/Target/EPU/Simulator/EPUSimulator.cpp:295 | executed instructions are only ever appended to |
| EpuSimulator.SimulateInstructions | lib/Target/EPU/Simulator/EPUSimulator.cpp:273-298 | the arena is the old arena after the instructions outside any block, in order; the returned batch is everything inside blocks |
| EpuSimulator.RunBatch | lib/Target/EPU/Simulator/EPUSimulator.cpp:288-290 | running a batch executes its instructions one after the other |
| EpuSimulator.SimulateInstructionsFlushing | lib/Target/EPU/Simulator/EPUSimulator.cpp:273-298 | the corrected loop: the arena is the old arena after every instruction that ran, each batch running at its `end_parallel` |
| Pipeline.StoiToString | lib/Target/EPU/Parser/EPUAsmParser.cpp:29 | `stoi` reads back every `int` that `std::to_string` prints |
| Pipeline.ParseIntToString | lib/Target/EPU/Parser/EPUAsmParser.cpp:29 | `parseInt` reads back every printed `int`, with or without a leading blank |
| Pipeline.TrimClean | lib/Target/EPU/Parser/EPUAsmParser.cpp:20-26 | `trim` keeps text with no blank at either end and removes one leading blank from it |
| Pipeline.TrimIdempotent | lib/Target/EPU/Parser/EPUAsmParser.cpp:20-26 | `trim` is idempotent: trimming trimmed text changes nothing |
| Pipeline.ColonSplit3 | lib/Target/EPU/Parser/EPUAsmParser.cpp:36-43 | the colon loop splits `a:b:c` into `a`, `b`, `c` |
| Pipeline.DimRoundTrip | lib/Target/EPU/Parser/EPUAsmParser.cpp:32-48 | `parseDim` reads back every printed dim with `int` fields |
| Pipeline.SliceSplit3 | lib/Target/EPU/Parser/EPUAsmParser.cpp:60-72 | the slice loop splits `a, b, c` into its three trimmed fields |
| Pipeline.SliceRoundTrip | lib/Target/EPU/Parser/EPUAsmParser.cpp:51-85 | `parseSlice` reads back every printed slice with `int` fields |
| Pipeline.TopLevelSlice | lib/Target/EPU/Parser/EPUAsmParser.cpp:95-107 | the depth counter keeps a slice's commas inside one field |
| Pipeline.SliceNumberSlice | lib/Target/EPU/Parser/EPUAsmParser.cpp:92-110 | `<src>, core, <dst>` splits into exactly three fields |
| Pipeline.NumberSliceSlice | lib/Target/EPU/Parser/EPUAsmParser.cpp:126-144 | `core, <src>, <dst>` splits into exactly three fields |
| Pipeline.MatmulSplit | lib/Target/EPU/Parser/EPUAsmParser.cpp:160-178 | the six operands of a printed matmul split into six fields |
| Pipeline.AccumulatorWord | lib/Target/EPU/Parser/EPUAsmParser.cpp:188-199 | the printed `accumulator=True`/`False` reads back as the flag it was printed from |
| Pipeline.GlobalToLocalRoundTrip | lib/Target/EPU/Parser/EPUAsmParser.cpp:87-119 | every printed `cp_global_to_local` with `int` fields parses back to itself |
| Pipeline.LocalToGlobalRoundTrip | lib/Target/EPU/Parser/EPUAsmParser.cpp:121-153 | every printed `cp_local_to_global` with `int` fields parses back to itself |
| Pipeline.MatmulRoundTrip | lib/Target/EPU/Parser/EPUAsmParser.cpp:155-202 | every printed `matmul` with `int` fields parses back to itself |
| Pipeline.OpRoundTrip | lib/Target/EPU/Parser/EPUAsmParser.cpp:221-232 | the line dispatch reads back every printed copy and matmul |
| Pipeline.MarkersRejected | lib/Target/EPU/Parser/EPUAsmParser.cpp:230-232 | the printed `start_parallel` and `end_parallel` lines are unknown instructions |
| Pipeline.PrintOpLine | lib/Target/EPU/CodeGen/EPUCodeGen.cpp:8-87 | every emitted instruction is one line with no newline in it and no blank at either end |
| Pipeline.OpRoundTripWithMarkers | lib/Target/EPU/Parser/EPUAsmParser.cpp:221-232 | the corrected line dispatch reads back every printed instruction, markers included |
| Pipeline.GetLinesJoined | lib/Target/EPU/Parser/EPUAsmParser.cpp:213-216 | `getline` over newline-prefixed lines gives back the lines, after what came before the first newline |
| Pipeline.ProgramLines | lib/Target/EPU/Parser/EPUAsmParser.cpp:213-216 | the generator's text splits into one blank line and then one line per instruction |
| Pipeline.BlankLineSkipped | lib/Target/EPU/Parser/EPUAsmParser.cpp:217-219 | a blank line adds nothing to the parsed program |
| Pipeline.ParsedAll | lib/Target/EPU/Parser/EPUAsmParser.cpp:213-233 | lines that each parse give their instructions, in order |
| Pipeline.ParsedFailsAt | lib/Target/EPU/Parser/EPUAsmParser.cpp:213-233 | the file fails with the error of its first line that does not parse |
| Pipeline.FirstMarker | lib/Target/EPU/Parser/EPUAsmParser.cpp:230-232 | the position of the first marker: a marker, with none before it |
| Pipeline.MarkerFreeLinesParsed | lib/Target/EPU/Parser/EPUAsmParser.cpp:213-233 | as written, the printed lines of a marker-free program parse back to it |
| Pipeline.MarkedLinesRejected | lib/Target/EPU/Parser/EPUAsmParser.cpp:230-232 | as written, the printed lines of a program with a marker fail at its first marker |
| Pipeline.TextAsWritten | lib/Target/EPU/Parser/EPUAsmParser.cpp:204-236 | as written, a printed program reads back exactly when it has no marker, and otherwise fails at the first marker |
| Pipeline.ParsedAllWithMarkers | lib/Target/EPU/Parser/EPUAsmParser.cpp:213-233 | with markers accepted, lines that each parse give their instructions, in order |
| Pipeline.ParsedLinesWithMarkers | lib/Target/EPU/Parser/EPUAsmParser.cpp:213-233 | with markers accepted, the printed lines of every program parse back to it |
| Pipeline.TextRoundTrip | lib/Target/EPU/Parser/EPUAsmParser.cpp:204-236 | with markers accepted, the text of every program with `int` fields reads back to the program |
| Pipeline.BandsWithinColumns | lib/Target/EPU/CodeGen/EPUCodeGen.cpp:121-125 | the participating cores' column bands end within the N columns |
| Pipeline.BandFits | lib/Target/EPU/CodeGen/EPUCodeGen.cpp:24-34 | a core's column band and its local width are `int` dims |
| Pipeline.OffsetsFit | lib/Target/EPU/CodeGen/EPUCodeGen.cpp:127-140 | when the capacity check passes, the weight and output offsets are `int`s |
| Pipeline.KStepFits | lib/Target/EPU/CodeGen/EPUCodeGen.cpp:132-181 | every instruction of a K step has `int` fields |
| Pipeline.PlanFits | lib/Target/EPU/CodeGen/EPUCodeGen.cpp:130-194 | for `int` sizes that pass the capacity check, every instruction of the plan has `int` fields |
| Pipeline.CapacityProductOverflows | lib/Target/EPU/CodeGen/EPUCodeGen.cpp:127-128 | for the 4-core target and N = 2^26 the product `colTilesPerCore * bytesPerWeightTile` is 2^31, outside `int`, and the unbounded model rejects that size |
| Pipeline.PlanStartsWithMarker | lib/Target/EPU/CodeGen/EPUCodeGen.cpp:133 | every generated program opens with `start_parallel` |
| Pipeline.GeneratedTextRejected | lib/Target/EPU/Parser/EPUAsmParser.cpp:221-232 | as written, the parser rejects every generated program at its first instruction line, `start_parallel` |
| Pipeline.GeneratedTextReadBack | lib/Target/EPU/Parser/EPUAsmParser.cpp:221-232 | with markers accepted, the parser reads back exactly the program the generator printed |
| Pipeline.GeneratedProgramInert | lib/Target/EPU/Simulator/EPUSimulator.cpp:288-290 | as written, simulating a generated program executes nothing and leaves memory unchanged |
| Pipeline.GeneratedProgramRuns | lib/Target/EPU/Simulator/EPUSimulator.cpp:288-290 | with flushing, a generated program runs every instruction, block after block, and leaves nothing pending |
| Layout.BlockShape | lib/Target/EPU/Simulator/EPUSimulator.cpp:151-159 | element (r, c) of a printed 32-row block of w floats per row is float `r * w + c` after its base |
| Layout.BlockSpan | lib/Target/EPU/Simulator/EPUSimulator.cpp:151-159 | such a block starts at its base and its last float ends exactly `128 * w` bytes later |
| Layout.BlockWithin | lib/Target/EPU/Simulator/EPUSimulator.cpp:151-159 | such a block lies inside any byte range `[lo, hi)` that holds the `128 * w` bytes from its base |
| Layout.RegionsOrdered | lib/Target/EPU/CodeGen/EPUCodeGen.cpp:136-140 | for 32x32x32 tiles: weights at 4096, output at 4096 + 4096c, output end 4096c after that |
| Layout.PlanInRegions | lib/Target/EPU/CodeGen/EPUCodeGen.cpp:130-194 | every local slice of a generated program stays in its region: activation, weights or output |
| Layout.WithOutputImpliesFits | lib/Target/EPU/CodeGen/EPUCodeGen.cpp:127-128 | the corrected capacity check implies the one written |
| Layout.RegionsWithin | lib/Target/EPU/CodeGen/EPUCodeGen.cpp:136-140 | an instruction in its regions reads and writes only below the output end |
| Layout.PlanWithinLocalMemory | lib/Target/EPU/CodeGen/EPUCodeGen.cpp:127-128 | under the corrected check, every local slice of the program lies inside the core's local memory |
| Layout.OutputBlockInPlan | lib/Target/EPU/CodeGen/EPUCodeGen.cpp:183-194 | every output copy is an instruction of the program |
| Layout.CapacityCheckIgnoresOutput | lib/Target/EPU/CodeGen/EPUCodeGen.cpp:127-128 | counterexample: M = 32, N = 8192, K = 32 passes every check, but core 0's output copy reads past its local memory, into core 1's activation tile |
| Layout.MatmulsShareOneTile | lib/Target/EPU/CodeGen/EPUCodeGen.cpp:174-178 | counterexample: with two column tiles per core, both matmuls of a core use the same weight and output tile; output row 1 holds product row 2, and output row 16 is written by no matmul |
| Layout.ColumnTileAddresses | lib/Target/EPU/CodeGen/EPUCodeGen.cpp:46-53 | element (r, c) of column tile j is element (r, 32j + c) of the whole block |
| Layout.ColumnTilesCover | lib/Target/EPU/CodeGen/EPUCodeGen.cpp:174-178 | corrected matmuls: output element (r, c) is written by matmul c / 32 alone, which reads weight column c; different matmuls write disjoint cells |

## Left out

- File handling is not modelled. `parseFile` takes the file's text or lines; opening it and `exit(FILE_NOT_FOUND)` are left out.
- `exit(PARSE_ERROR)` and the `runtime_error` exceptions become `Err` values.
- Console output is left out: the device info banner, the `asmStr :` echo, the `ERROR:` lines of the simulator and the generator's size message.
- The `print`, `dump` and `get_info` string builders of `Op.h` and `Processor.h` are left out. They only format text for the console.
- `createEPUTarget` is declared in a header but its body is not part of this model. The generator takes the target figures as a parameter. `EpuTarget` uses the figures of the tests: 4 cores, 512 KiB each, 4 units, 32x32x32 tiles.
- Floats are modelled as mathematical integers. Rounding and the order of float additions are not modelled, though the sum is formed in the loop's order.
- Memory is modelled in 4-byte cells. Byte offsets and sizes that are not multiples of 4 are outside the model.
- EpuSimulator.ExecuteGlobalToLocalMemCopy, EpuSimulator.ExecuteLocalToGlobalMemCopy, EpuSimulator.ExecuteMatmul, EpuSimulator.Execute and both dispatch loops require `Defined`. That means no zero stride, a core id in range and every element inside the arena. Otherwise the C++ divides by zero, adds an offset to a null pointer or writes outside the buffer, and none of that has a meaning to model.
- Simulator.Simulator.RetrieveLocalMemoryData, Simulator.Simulator.RetrieveInputData and Simulator.Simulator.RetrieveOutputData require the range read to lie inside the arena, because `memcpy` outside it is undefined. The missing core-id check of the first is kept.
- Target.CreateTarget turns the `std::length_error` that `reserve` throws for a negative count into an `Err(LengthError)` value. The throw itself is not modelled, and neither are the `size_t` wrap of a negative memory size nor an allocation failure while building the vectors.
- CodeGen.FitsLocalMemory and CodeGen.GenerateMatmulIsaForEpu compute with unbounded integers. The C++ computes the tile counts, offsets and the capacity product in 32-bit `int`, where overflow is undefined. For M = 32, K = 32, N = 2^26 on the 4-core target the product is 2^31 (Pipeline.CapacityProductOverflows). The model then reports `OutOfLocalMemory`, or `""` without assertions, while a wrapping build passes the check with a negative output offset. Pipeline.PlanFits states the `int` range only for sizes that pass the check.
- Simulator.Simulator.constructor keeps the global memory size and `totalMemorySize` whole. The C++ stores the `size_t` global memory size in an `int` and sums the arena size in `int`, so sizes of 2^31 bytes or more are truncated there.
- `size_t` wrap-around of negative element offsets is not modelled. `Defined` requires every cell index to be in range.
- The base `Simulator::simulateInstructions` in `Simulator.h` only prints, so it is left out. The EPU simulator overrides it.
- Parallel dispatch is not concurrent. The corrected dispatcher runs each batch in order, which matches any schedule only when the instructions of a block are independent.
- AsmParser.Stoi and AsmParser.ParseInt state only that the result fits an `int`. That they read back every printed `int` is Pipeline.StoiToString.
- AsmParser.ParsedSlice turns `t.front()` of an empty text, which is undefined in C++, into a `SliceNotEnclosed` error.
- The text before `accumulator=` in the sixth matmul field is computed by the source and never used, so it is ignored.
- Numeric correctness of a whole generated program (that the output handle ends up holding `A * B`) is not proved. The model proves the layout, the tiles each instruction touches, and the per-instruction effects.
- The Python helpers (`processor.py`, `utils.py`, `main.py`) and the tests are not part of this model.

## Findings

| source | as written | input that shows it | evidently intended | confidence | as-written member | corrected member |
|---|---|---|---|---|---|---|
| lib/Target/EPU/Parser/EPUAsmParser.cpp:221-232 | the file loop knows only the three opcodes, so `start_parallel` and `end_parallel` are a parse error | any text the generator prints; its first instruction line is `start_parallel` (lib/Target/EPU/CodeGen/EPUCodeGen.cpp:133) | the parser reads the two markers back, so generated programs round-trip | not executed | Pipeline.GeneratedTextRejected | Pipeline.GeneratedTextReadBack |
| lib/Target/EPU/Simulator/EPUSimulator.cpp:288-290 | at `end_parallel` the collected batch is neither executed nor cleared | any generated program; every instruction is inside a parallel block | each batch runs at its `end_parallel` | not executed | EpuSimulator.BracketedNeverRuns | EpuSimulator.FlushedBlocksRunInOrder |
| lib/Target/EPU/CodeGen/EPUCodeGen.cpp:127-128 | the capacity check counts the activation and weights but not the output region | M = 32, N = 8192, K = 32 on 4 cores of 512 KiB: the output region ends at byte 528384 > 524288 | activation, weights and output all fit in local memory | not executed | Layout.CapacityCheckIgnoresOutput | Layout.PlanWithinLocalMemory |
| lib/Target/EPU/CodeGen/EPUCodeGen.cpp:174-178 | every matmul of a core gets the same weight and output offsets, with 32-wide operands | M = 32, N = 256, K = 32 on 4 cores: two column tiles per core, both matmuls write the same tile | matmul j multiplies by column tile j of the weights into column tile j of the output | not executed | Layout.MatmulsShareOneTile | Layout.ColumnTilesCover |

/** The tiling code generator of lib/Target/EPU/CodeGen/EPUCodeGen.cpp.

    The emitters build one instruction each (here an `Op`, printed by
    `PrintOp` in exactly the emitters' text format); `Plan` is the instruction
    sequence the generator's loops emit, and `GenerateMatmulIsaForEpu`
    is the imperative generator, proved to produce `PrintProgram(Plan(..))`. */
module CodeGen {
  import opened Wrappers
  import opened Isa

  /** The target figures the generator reads (`createEPUTarget` is not part of
      this model, so the target is a parameter). */
  datatype GenTarget = GenTarget(numCores: int, localMemPerCore: int, mmUnitsPerCore: int,
                                 tileM: int, tileK: int, tileN: int)

  /** The figures used by the tests: 4 cores, 512 KiB each, 4 units, 32x32x32 tiles. */
  const EpuTarget: GenTarget := GenTarget(4, 512 * 1024, 4, 32, 32, 32)

  /** What the generator divides by is non-zero. */
  predicate Usable(t: GenTarget) {
    t.numCores > 0 && t.mmUnitsPerCore > 0 && t.tileM > 0 && t.tileK > 0 && t.tileN > 0
  }

  /** The failing `assert`s of the generator (a build with assertions enabled). */
  datatype GenError =
    | NonPerfectTiles      // "Support perfect tiles only for now"
    | MultiRowTiles        // "Support codegen for M > TILE_M"
    | ImperfectCoreSplit   // "Support codegen for imperfect splits among cores"
    | OutOfLocalMemory     // the else branch falls through to assert(false && "unhandled case")

  const BytesPerFloat: int := 32 / 8

  // ---------------------------------------------------------------------
  // Integer planning
  // ---------------------------------------------------------------------

  function NumColTiles(t: GenTarget, N: int): int
    requires Usable(t)
  {
    N / t.tileN
  }

  function ColTilesPerCore(t: GenTarget, N: int): int
    requires Usable(t)
  {
    if NumColTiles(t, N) < t.numCores then 1 else NumColTiles(t, N) / t.numCores
  }

  /** The cores every block covers: `min(numOfColTiles, numOfCores)`. */
  function ParticipatingCores(t: GenTarget, N: int): int
    requires Usable(t)
  {
    if NumColTiles(t, N) < t.numCores then NumColTiles(t, N) else t.numCores
  }

  function BytesPerActivationTile(t: GenTarget): int {
    t.tileM * t.tileK * BytesPerFloat
  }

  function BytesPerWeightTile(t: GenTarget): int {
    t.tileK * t.tileN * BytesPerFloat
  }

  /** The per-core local layout: activation at 0, weights after it, output after the weights. */
  const ActivationOffset: int := 0

  function WeightOffset(t: GenTarget): int {
    BytesPerActivationTile(t)
  }

  function OutputOffset(t: GenTarget, N: int): int
    requires Usable(t)
  {
    BytesPerActivationTile(t) + BytesPerWeightTile(t) * ColTilesPerCore(t, N)
  }

  predicate PerfectTiles(t: GenTarget, M: int, N: int, K: int)
    requires Usable(t)
  {
    M % t.tileM == 0 && N % t.tileN == 0 && K % t.tileK == 0
  }

  predicate EvenCoreSplit(t: GenTarget, N: int)
    requires Usable(t)
  {
    NumColTiles(t, N) % t.numCores == 0 || NumColTiles(t, N) < t.numCores
  }

  /** The capacity check as written: the weights must fit, strictly, in what
      the activation leaves; the output region is not counted. */
  predicate FitsLocalMemory(t: GenTarget, N: int)
    requires Usable(t)
  {
    ColTilesPerCore(t, N) * BytesPerWeightTile(t) < t.localMemPerCore - BytesPerActivationTile(t)
  }

  // ---------------------------------------------------------------------
  // Text: std::to_string and the instruction format
  // ---------------------------------------------------------------------

  function DigitChar(d: int): char
    requires 0 <= d < 10
  {
    ('0' as int + d) as char
  }

  function NatToString(n: nat): string
  {
    if n < 10 then [DigitChar(n)] else NatToString(n / 10) + [DigitChar(n % 10)]
  }

  /** `std::to_string(int)`. */
  function IntToString(n: int): string
  {
    if n < 0 then "-" + NatToString(-n) else NatToString(n)
  }

  /** `start:end:stride` */
  function PrintDim(d: Dim): string
  {
    IntToString(d.start) + ":" + IntToString(d.end) + ":" + IntToString(d.stride)
  }

  /** `<base, dim1, dim0>` */
  function PrintSlice(s: SliceOperand): string
  {
    "<" + IntToString(s.base) + ", " + PrintDim(s.dim1) + ", " + PrintDim(s.dim0) + ">"
  }

  function PrintOp(op: Op): string
  {
    match op
    case GlobalToLocal(core, src, dst) =>
      "cp_global_to_local " + PrintSlice(src) + ", " + IntToString(core) + ", " + PrintSlice(dst)
    case LocalToGlobal(core, src, dst) =>
      "cp_local_to_global " + IntToString(core) + ", " + PrintSlice(src) + ", " + PrintSlice(dst)
    case Matmul(core, unit, a, b, c, acc) =>
      "matmul " + IntToString(core) + ", " + IntToString(unit) + ", " + PrintSlice(a) + ", "
      + PrintSlice(b) + ", " + PrintSlice(c) + ", accumulator=" + (if acc then "True" else "False")
    case StartParallel => "start_parallel"
    case EndParallel => "end_parallel"
  }

  /** Lines joined the way the generator appends them: each preceded by a newline. */
  function Joined(lines: seq<string>): string
  {
    if lines == [] then "" else Joined(lines[..|lines| - 1]) + "\n" + lines[|lines| - 1]
  }

  function Lines(ops: seq<Op>): seq<string>
  {
    seq(|ops|, i requires 0 <= i < |ops| => PrintOp(ops[i]))
  }

  /** The generator's output text for an instruction sequence. */
  function PrintProgram(ops: seq<Op>): string
  {
    Joined(Lines(ops))
  }

  // ---------------------------------------------------------------------
  // The emitters
  // ---------------------------------------------------------------------

  /** The literal "0:32:1" the emitters use for every 32-wide dimension. */
  const Dim32: Dim := Dim(0, 32, 1)

  /** `emitActivationCopy`: the K-slice of the activation (handle 1) into local offset 0. */
  function ActivationCopy(coreId: int, kSlice: Dim): Op
  {
    GlobalToLocal(coreId, Slice(1, Dim32, kSlice), Slice(0, Dim32, Dim32))
  }

  /** The column band `[coreId*c*tileN, (coreId+1)*c*tileN)` of a core. */
  function ColumnBand(coreId: int, numOfColTiles: int, tileN: int): Dim
  {
    Dim(coreId * numOfColTiles * tileN, coreId * numOfColTiles * tileN + numOfColTiles * tileN, 1)
  }

  /** `emitWeightCopy`: the core's column band of the weight (handle 2) on the K-slice. */
  function WeightCopy(coreId: int, numOfColTiles: int, freeLocalMemOffset: int, kSlice: Dim, tileN: int): Op
  {
    GlobalToLocal(coreId,
      Slice(2, kSlice, ColumnBand(coreId, numOfColTiles, tileN)),
      Slice(freeLocalMemOffset, Dim32, Dim(0, numOfColTiles * tileN, 1)))
  }

  /** `emitMatmul`: fixed 32x32 operands at the given local offsets. */
  function MatmulTile(coreId: int, mmUnitId: int, activationOffset: int, weightOffset: int,
                      freeLocalMemOffset: int, accumulator: bool): Op
  {
    Matmul(coreId, mmUnitId, Slice(activationOffset, Dim32, Dim32), Slice(weightOffset, Dim32, Dim32),
           Slice(freeLocalMemOffset, Dim32, Dim32), accumulator)
  }

  /** `emitLocalToGlobalCopy`: the core's output into its column band of handle 3. */
  function OutputCopy(coreId: int, numOfColTiles: int, outputOffset: int, tileN: int): Op
  {
    LocalToGlobal(coreId,
      Slice(outputOffset, Dim32, Dim(0, numOfColTiles * tileN, 1)),
      Slice(3, Dim32, ColumnBand(coreId, numOfColTiles, tileN)))
  }

  // ---------------------------------------------------------------------
  // The plan: what the generator's loops emit
  // ---------------------------------------------------------------------

  function KSlice(t: GenTarget, k: int): Dim {
    Dim(k * t.tileK, k * t.tileK + t.tileK, 1)
  }

  function ActivationBlock(t: GenTarget, k: int, n: nat): seq<Op>
  {
    seq(n, i => ActivationCopy(i, KSlice(t, k)))
  }

  function WeightBlock(t: GenTarget, N: int, k: int, n: nat): seq<Op>
    requires Usable(t)
  {
    seq(n, i => WeightCopy(i, ColTilesPerCore(t, N), WeightOffset(t), KSlice(t, k), t.tileN))
  }

  /** The first `n` matmuls of core `i` in K-step `k`. */
  function CoreMatmuls(t: GenTarget, N: int, k: int, i: int, n: nat): seq<Op>
    requires Usable(t)
  {
    seq(n, j => MatmulTile(i, j % t.mmUnitsPerCore, ActivationOffset, WeightOffset(t),
                           OutputOffset(t, N), k != 0))
  }

  /** The matmuls of the first `n` cores in K-step `k`. */
  function MatmulBlock(t: GenTarget, N: int, k: int, n: nat): seq<Op>
    requires Usable(t)
  {
    if n == 0 then []
    else MatmulBlock(t, N, k, n - 1) + CoreMatmuls(t, N, k, n - 1, if ColTilesPerCore(t, N) < 0 then 0 else ColTilesPerCore(t, N))
  }

  function OutputBlock(t: GenTarget, N: int, n: nat): seq<Op>
    requires Usable(t)
  {
    seq(n, i => OutputCopy(i, ColTilesPerCore(t, N), OutputOffset(t, N), t.tileN))
  }

  function Participating(t: GenTarget, N: int): nat
    requires Usable(t)
  {
    if ParticipatingCores(t, N) < 0 then 0 else ParticipatingCores(t, N)
  }

  /** One iteration of the K loop: activation, weight and matmul blocks. */
  function KStep(t: GenTarget, N: int, k: int): seq<Op>
    requires Usable(t)
  {
    Bracket(ActivationBlock(t, k, Participating(t, N)))
    + Bracket(WeightBlock(t, N, k, Participating(t, N)))
    + Bracket(MatmulBlock(t, N, k, Participating(t, N)))
  }

  /** The first `n` iterations of the K loop. */
  function KSteps(t: GenTarget, N: int, n: nat): seq<Op>
    requires Usable(t)
  {
    if n == 0 then [] else KSteps(t, N, n - 1) + KStep(t, N, n - 1)
  }

  function KTiles(t: GenTarget, K: int): nat
    requires Usable(t)
  {
    if K / t.tileK < 0 then 0 else K / t.tileK
  }

  /** The whole program: the K loop, then one block of output copies. */
  function Plan(t: GenTarget, N: int, K: int): seq<Op>
    requires Usable(t)
  {
    KSteps(t, N, KTiles(t, K)) + Bracket(OutputBlock(t, N, Participating(t, N)))
  }

  // ---------------------------------------------------------------------
  // The generator
  // ---------------------------------------------------------------------

  lemma JoinedAppend(lines: seq<string>, line: string)
    ensures Joined(lines + [line]) == Joined(lines) + "\n" + line
  {
    assert (lines + [line])[..|lines|] == lines;
  }

  /** Joining distributes over concatenation: every line carries its own newline. */
  lemma {:induction false} JoinedConcat(a: seq<string>, b: seq<string>)
    ensures Joined(a + b) == Joined(a) + Joined(b)
    decreases |b|
  {
    if b == [] {
      assert a + b == a;
    } else {
      var b' := b[..|b| - 1];
      var last := b[|b| - 1];
      assert b == b' + [last];
      assert a + b == (a + b') + [last];
      JoinedConcat(a, b');
      JoinedAppend(a + b', last);
      JoinedAppend(b', last);
      LineRegroup(Joined(a), Joined(b'), last);
    }
  }

  lemma LineRegroup(x: string, y: string, line: string)
    ensures x + y + "\n" + line == x + (y + "\n" + line)
  {
  }

  lemma PrintProgramAppend(ops: seq<Op>, op: Op)
    ensures PrintProgram(ops + [op]) == PrintProgram(ops) + "\n" + PrintOp(op)
  {
    assert Lines(ops + [op]) == Lines(ops) + [PrintOp(op)];
    JoinedAppend(Lines(ops), PrintOp(op));
  }

  lemma LinesConcat(a: seq<Op>, b: seq<Op>)
    ensures Lines(a + b) == Lines(a) + Lines(b)
  {
    forall i | 0 <= i < |a + b|
      ensures Lines(a + b)[i] == (Lines(a) + Lines(b))[i]
    {
      if i < |a| {
        assert (a + b)[i] == a[i];
      } else {
        assert (a + b)[i] == b[i - |a|];
      }
    }
  }

  /** Printing distributes over concatenation. */
  lemma PrintProgramConcat(a: seq<Op>, b: seq<Op>)
    ensures PrintProgram(a + b) == PrintProgram(a) + PrintProgram(b)
  {
    LinesConcat(a, b);
    JoinedConcat(Lines(a), Lines(b));
  }

  /** One parallel block of activation copies for K-step `k`. */
  method EmitActivationCopies(t: GenTarget, k: int, cores: nat) returns (ops: seq<Op>)
    ensures ops == Bracket(ActivationBlock(t, k, cores))
  {
    var actStart := k * t.tileK;
    var kSlice := Dim(actStart, actStart + t.tileK, 1);
    ops := [StartParallel];
    var i := 0;
    while i < cores
      invariant 0 <= i <= cores
      invariant ops == [StartParallel] + ActivationBlock(t, k, i)
    {
      var op := ActivationCopy(i, kSlice);
      ops := ops + [op];
      assert ActivationBlock(t, k, i + 1) == ActivationBlock(t, k, i) + [op];
      i := i + 1;
    }
    ops := ops + [EndParallel];
  }

  /** One parallel block of weight copies for K-step `k`. */
  method EmitWeightCopies(t: GenTarget, N: int, k: int, cores: nat) returns (ops: seq<Op>)
    requires Usable(t)
    ensures ops == Bracket(WeightBlock(t, N, k, cores))
  {
    var actStart := k * t.tileK;
    var kSlice := Dim(actStart, actStart + t.tileK, 1);
    var colTilesPerCore := ColTilesPerCore(t, N);
    var bytesPerActivationTile := t.tileM * t.tileK * (32 / 8);
    ops := [StartParallel];
    var i := 0;
    while i < cores
      invariant 0 <= i <= cores
      invariant ops == [StartParallel] + WeightBlock(t, N, k, i)
    {
      var availableLocalMemOffset := 0;
      availableLocalMemOffset := availableLocalMemOffset + bytesPerActivationTile;
      var op := WeightCopy(i, colTilesPerCore, availableLocalMemOffset, kSlice, t.tileN);
      ops := ops + [op];
      assert WeightBlock(t, N, k, i + 1) == WeightBlock(t, N, k, i) + [op];
      i := i + 1;
    }
    ops := ops + [EndParallel];
  }

  /** One parallel block of matmuls for K-step `k`: `colTilesPerCore` per core. */
  method EmitMatmuls(t: GenTarget, N: int, k: int, cores: nat) returns (ops: seq<Op>)
    requires Usable(t)
    requires ColTilesPerCore(t, N) >= 0
    ensures ops == Bracket(MatmulBlock(t, N, k, cores))
  {
    var colTilesPerCore := ColTilesPerCore(t, N);
    var bytesPerActivationTile := t.tileM * t.tileK * (32 / 8);
    var bytesPerWeightTile := t.tileK * t.tileN * (32 / 8);
    ops := [StartParallel];
    var i := 0;
    while i < cores
      invariant 0 <= i <= cores
      invariant ops == [StartParallel] + MatmulBlock(t, N, k, i)
    {
      var activationOffset := 0;
      var weightOffset := bytesPerActivationTile;
      var availableLocalMemOffset := bytesPerActivationTile + bytesPerWeightTile * colTilesPerCore;
      ghost var before := ops;
      var j := 0;
      while j < colTilesPerCore
        invariant 0 <= j <= colTilesPerCore
        invariant ops == before + CoreMatmuls(t, N, k, i, j)
      {
        var acc := k != 0;
        var op := MatmulTile(i, j % t.mmUnitsPerCore, activationOffset, weightOffset,
                             availableLocalMemOffset, acc);
        ops := ops + [op];
        assert CoreMatmuls(t, N, k, i, j + 1) == CoreMatmuls(t, N, k, i, j) + [op];
        j := j + 1;
      }
      i := i + 1;
    }
    ops := ops + [EndParallel];
  }

  /** The final parallel block of output copies. */
  method EmitOutputCopies(t: GenTarget, N: int, cores: nat) returns (ops: seq<Op>)
    requires Usable(t)
    ensures ops == Bracket(OutputBlock(t, N, cores))
  {
    var colTilesPerCore := ColTilesPerCore(t, N);
    var bytesPerActivationTile := t.tileM * t.tileK * (32 / 8);
    var bytesPerWeightTile := t.tileK * t.tileN * (32 / 8);
    ops := [StartParallel];
    var i := 0;
    while i < cores
      invariant 0 <= i <= cores
      invariant ops == [StartParallel] + OutputBlock(t, N, i)
    {
      var availableLocalMemOffset := bytesPerActivationTile + bytesPerWeightTile * colTilesPerCore;
      var op := OutputCopy(i, colTilesPerCore, availableLocalMemOffset, t.tileN);
      ops := ops + [op];
      assert OutputBlock(t, N, i + 1) == OutputBlock(t, N, i) + [op];
      i := i + 1;
    }
    ops := ops + [EndParallel];
  }

  /** The loops of the generator once every check has passed. */
  method EmitPlan(t: GenTarget, N: int, K: int) returns (ops: seq<Op>)
    requires Usable(t)
    requires N > 0
    ensures ops == Plan(t, N, K)
  {
    var numOfColTiles := N / t.tileN;
    var cores: nat := if numOfColTiles < t.numCores then numOfColTiles else t.numCores;
    assert cores == Participating(t, N);
    ops := [];
    var kTiles := K / t.tileK;
    var k := 0;
    while k < kTiles
      invariant 0 <= k <= kTiles || (kTiles < 0 && k == 0)
      invariant ops == KSteps(t, N, k)
    {
      var act := EmitActivationCopies(t, k, cores);
      var wts := EmitWeightCopies(t, N, k, cores);
      var mms := EmitMatmuls(t, N, k, cores);
      ops := ops + (act + wts + mms);
      k := k + 1;
    }
    var outs := EmitOutputCopies(t, N, cores);
    ops := ops + outs;
  }

  /** `generateMatmulISAForEPU(M, N, K)` against the target `t`, in a build
      with (`assertionsEnabled`) or without (`NDEBUG`) assertion checking.
      Non-positive sizes give "". With assertions, each failing `assert` is
      its error and a program that does not fit reaches the final
      `assert(false)`; without them the checks are skipped and a program that
      does not fit gives "". The instructions are collected and printed once;
      `PrintProgramConcat` is why that is the text of appending each printed
      line in turn. */
  method GenerateMatmulIsaForEpu(t: GenTarget, M: int, N: int, K: int, assertionsEnabled: bool)
    returns (r: Result<string, GenError>)
    requires M > 0 && K > 0 && N > 0 ==> Usable(t)
    ensures M <= 0 || K <= 0 || N <= 0 ==> r == Ok("")
    ensures M > 0 && K > 0 && N > 0 && assertionsEnabled ==>
      && (r == Err(NonPerfectTiles) <==> !PerfectTiles(t, M, N, K))
      && (r == Err(MultiRowTiles) <==> PerfectTiles(t, M, N, K) && M != t.tileM)
      && (r == Err(ImperfectCoreSplit) <==> PerfectTiles(t, M, N, K) && M == t.tileM && !EvenCoreSplit(t, N))
      && (r == Err(OutOfLocalMemory) <==>
            PerfectTiles(t, M, N, K) && M == t.tileM && EvenCoreSplit(t, N) && !FitsLocalMemory(t, N))
      && (r.Ok? ==> r.value == PrintProgram(Plan(t, N, K)))
    ensures M > 0 && K > 0 && N > 0 && !assertionsEnabled ==>
      r == Ok(if FitsLocalMemory(t, N) then PrintProgram(Plan(t, N, K)) else "")
  {
    if M <= 0 || K <= 0 || N <= 0 {
      return Ok("");
    }
    if assertionsEnabled && !(M % t.tileM == 0 && N % t.tileN == 0 && K % t.tileK == 0) {
      return Err(NonPerfectTiles);
    }
    if assertionsEnabled && M != t.tileM {
      return Err(MultiRowTiles);
    }
    var numOfColTiles := N / t.tileN;
    var bytesPerActivationTile := t.tileM * t.tileK * (32 / 8);
    var bytesPerWeightTile := t.tileK * t.tileN * (32 / 8);
    if assertionsEnabled && !(numOfColTiles % t.numCores == 0 || numOfColTiles < t.numCores) {
      return Err(ImperfectCoreSplit);
    }
    var colTilesPerCore := if numOfColTiles < t.numCores then 1 else numOfColTiles / t.numCores;
    assert colTilesPerCore == ColTilesPerCore(t, N);
    if colTilesPerCore * bytesPerWeightTile < t.localMemPerCore - bytesPerActivationTile {
      var ops := EmitPlan(t, N, K);
      return Ok(PrintProgram(ops));
    }
    if assertionsEnabled {
      return Err(OutOfLocalMemory);
    }
    return Ok("");
  }

  // ---------------------------------------------------------------------
  // Properties of the plan
  // ---------------------------------------------------------------------

  /** The blocks of the first `n` iterations of the K loop, in emission order. */
  function KBlocks(t: GenTarget, N: int, n: nat): seq<seq<Op>>
    requires Usable(t)
  {
    if n == 0 then []
    else KBlocks(t, N, n - 1) + [ActivationBlock(t, n - 1, Participating(t, N)),
                                 WeightBlock(t, N, n - 1, Participating(t, N)),
                                 MatmulBlock(t, N, n - 1, Participating(t, N))]
  }

  function PlanBlocks(t: GenTarget, N: int, K: int): seq<seq<Op>>
    requires Usable(t)
  {
    KBlocks(t, N, KTiles(t, K)) + [OutputBlock(t, N, Participating(t, N))]
  }

  lemma BracketedAppend(blocks: seq<seq<Op>>, b: seq<Op>)
    ensures Bracketed(blocks + [b]) == Bracketed(blocks) + Bracket(b)
  {
    assert (blocks + [b])[..|blocks|] == blocks;
  }

  /** Where an instruction of the plan may point: its core participates, its
      matmul unit exists, and its local operands follow the per-core layout
      (activation at 0, weights after it, output after the weights) while
      its global operands are handles 1 and 2 (read) and 3 (written). */
  predicate InPlanLayout(t: GenTarget, N: int, op: Op)
    requires Usable(t)
  {
    match op
    case GlobalToLocal(core, src, dst) =>
      && 0 <= core < Participating(t, N)
      && ((src.base == 1 && dst.base == ActivationOffset) || (src.base == 2 && dst.base == WeightOffset(t)))
    case LocalToGlobal(core, src, dst) =>
      0 <= core < Participating(t, N) && src.base == OutputOffset(t, N) && dst.base == 3
    case Matmul(core, unit, a, b, c, _) =>
      && 0 <= core < Participating(t, N) && 0 <= unit < t.mmUnitsPerCore
      && a.base == ActivationOffset && b.base == WeightOffset(t) && c.base == OutputOffset(t, N)
    case StartParallel => true
    case EndParallel => true
  }

  lemma {:induction false} MatmulBlockFacts(t: GenTarget, N: int, k: int, n: nat)
    requires Usable(t)
    requires n <= Participating(t, N)
    ensures MarkerFree(MatmulBlock(t, N, k, n))
    ensures forall op :: op in MatmulBlock(t, N, k, n) ==>
      op.Matmul? && op.accumulate == (k != 0) && InPlanLayout(t, N, op)
  {
    if n > 0 {
      MatmulBlockFacts(t, N, k, n - 1);
    }
  }

  lemma StepBlocksMarkerFree(t: GenTarget, N: int, k: int)
    requires Usable(t)
    ensures MarkerFree(ActivationBlock(t, k, Participating(t, N)))
    ensures MarkerFree(WeightBlock(t, N, k, Participating(t, N)))
    ensures MarkerFree(MatmulBlock(t, N, k, Participating(t, N)))
  {
    MatmulBlockFacts(t, N, k, Participating(t, N));
  }

  lemma {:induction false} KStepsBlocks(t: GenTarget, N: int, n: nat)
    requires Usable(t)
    ensures KSteps(t, N, n) == Bracketed(KBlocks(t, N, n))
    ensures |KBlocks(t, N, n)| == 3 * n
  {
    if n > 0 {
      KStepsBlocks(t, N, n - 1);
      var p := Participating(t, N);
      var bs := KBlocks(t, N, n - 1);
      var a, w, m := ActivationBlock(t, n - 1, p), WeightBlock(t, N, n - 1, p), MatmulBlock(t, N, n - 1, p);
      assert KBlocks(t, N, n) == bs + [a, w, m];
      assert KStep(t, N, n - 1) == Bracket(a) + Bracket(w) + Bracket(m);
      BracketedAppendThree(bs, a, w, m);
    }
  }

  lemma BracketedAppendThree(blocks: seq<seq<Op>>, a: seq<Op>, w: seq<Op>, m: seq<Op>)
    ensures Bracketed(blocks + [a, w, m]) == Bracketed(blocks) + (Bracket(a) + Bracket(w) + Bracket(m))
  {
    assert blocks + [a, w, m] == ((blocks + [a]) + [w]) + [m];
    BracketedAppend(blocks, a);
    BracketedAppend(blocks + [a], w);
    BracketedAppend((blocks + [a]) + [w], m);
  }

  lemma {:induction false} KBlocksMarkerFree(t: GenTarget, N: int, n: nat)
    requires Usable(t)
    ensures forall b :: b in KBlocks(t, N, n) ==> MarkerFree(b)
  {
    if n > 0 {
      KBlocksMarkerFree(t, N, n - 1);
      StepBlocksMarkerFree(t, N, n - 1);
    }
  }

  /** The program is a sequence of parallel blocks with no marker inside a
      block: three per K step (activation, weights, matmuls), then the output
      copies. */
  lemma PlanIsParallelBlocks(t: GenTarget, N: int, K: int)
    requires Usable(t)
    ensures Plan(t, N, K) == Bracketed(PlanBlocks(t, N, K))
    ensures |PlanBlocks(t, N, K)| == 3 * KTiles(t, K) + 1
    ensures forall b :: b in PlanBlocks(t, N, K) ==> MarkerFree(b)
  {
    KStepsBlocks(t, N, KTiles(t, K));
    KBlocksMarkerFree(t, N, KTiles(t, K));
    StepBlocksMarkerFree(t, N, 0);
    BracketedAppend(KBlocks(t, N, KTiles(t, K)), OutputBlock(t, N, Participating(t, N)));
  }

  lemma KStepLayout(t: GenTarget, N: int, k: int)
    requires Usable(t)
    ensures forall op :: op in KStep(t, N, k) ==> InPlanLayout(t, N, op)
    ensures forall op :: op in KStep(t, N, k) && op.Matmul? ==> op.accumulate == (k != 0)
  {
    MatmulBlockFacts(t, N, k, Participating(t, N));
  }

  lemma {:induction false} KStepsLayout(t: GenTarget, N: int, n: nat)
    requires Usable(t)
    ensures forall op :: op in KSteps(t, N, n) ==> InPlanLayout(t, N, op)
  {
    if n > 0 {
      KStepsLayout(t, N, n - 1);
      KStepLayout(t, N, n - 1);
    }
  }

  /** Every instruction of the program addresses a participating core (at
      most the target's cores), an existing matmul unit, and the per-core
      layout, whose three regions follow one another from offset 0 and,
      when the capacity check passes, start inside the core's local memory. */
  lemma PlanLayout(t: GenTarget, N: int, K: int)
    requires Usable(t)
    ensures 0 <= Participating(t, N) <= t.numCores
    ensures forall op :: op in Plan(t, N, K) ==> InPlanLayout(t, N, op)
    ensures ActivationOffset == 0
    ensures WeightOffset(t) == ActivationOffset + BytesPerActivationTile(t) > 0
    ensures N > 0 ==> OutputOffset(t, N) == WeightOffset(t) + ColTilesPerCore(t, N) * BytesPerWeightTile(t) > WeightOffset(t)
    ensures N > 0 && FitsLocalMemory(t, N) ==> OutputOffset(t, N) < t.localMemPerCore
  {
    KStepsLayout(t, N, KTiles(t, K));
    assert BytesPerActivationTile(t) > 0 by {
      PositiveProduct(t.tileM, t.tileK);
    }
    if N > 0 {
      PositiveProduct(t.tileK, t.tileN);
      PositiveProduct(ColTilesPerCore(t, N), BytesPerWeightTile(t));
    }
  }

  lemma MulAtLeastOne(a: int, b: int)
    requires a >= 1 && b >= 0
    ensures a * b >= b
  {
  }

  /** The `i`-th of `p` blocks of width `w` starts at or after 0 and ends within `p * w`. */
  lemma NextMultiple(i: int, p: int, w: int)
    requires 0 <= i < p && w >= 0
    ensures 0 <= i * w && i * w + w <= p * w
  {
    assert i * w + w == (i + 1) * w;
  }

  lemma MulAssociates(a: int, b: int, c: int)
    ensures a * b * c == a * (b * c)
  {
  }

  lemma PositiveProduct(a: int, b: int)
    requires a > 0 && b > 0
    ensures a * b > 0 && a * b * BytesPerFloat > 0
  {
  }

  lemma {:induction false} KStepsLength(t: GenTarget, N: int, n: nat)
    requires Usable(t)
    ensures |KSteps(t, N, n)| == n * |KStep(t, N, 0)|
  {
    if n > 0 {
      KStepsLength(t, N, n - 1);
      var len := |KStep(t, N, 0)|;
      assert |KStep(t, N, n - 1)| == len by {
        MatmulBlockLength(t, N, n - 1, Participating(t, N));
      }
      assert (n - 1) * len + len == n * len;
    }
  }

  lemma {:induction false} MatmulBlockLength(t: GenTarget, N: int, k: int, n: nat)
    requires Usable(t)
    ensures |MatmulBlock(t, N, k, n)| == |MatmulBlock(t, N, 0, n)|
  {
    if n > 0 {
      MatmulBlockLength(t, N, k, n - 1);
    }
  }

  lemma {:induction false} KStepsAccumulate(t: GenTarget, N: int, n: nat)
    requires Usable(t)
    ensures forall i :: 0 <= i < |KSteps(t, N, n)| && KSteps(t, N, n)[i].Matmul? ==>
      (KSteps(t, N, n)[i].accumulate <==> i >= |KStep(t, N, 0)|)
  {
    if n > 0 {
      KStepsAccumulate(t, N, n - 1);
      KStepsLength(t, N, n - 1);
      KStepLayout(t, N, n - 1);
      var prefix: seq<Op>, step: seq<Op> := KSteps(t, N, n - 1), KStep(t, N, n - 1);
      forall i | 0 <= i < |prefix + step| && (prefix + step)[i].Matmul?
        ensures (prefix + step)[i].accumulate <==> i >= |KStep(t, N, 0)|
      {
        if i >= |prefix| {
          assert (prefix + step)[i] == step[i - |prefix|];
          assert step[i - |prefix|] in step;
          if n - 1 > 0 {
            MulAtLeastOne(n - 1, |KStep(t, N, 0)|);
          }
        } else {
          assert (prefix + step)[i] == prefix[i];
        }
      }
    }
  }

  /** The first K step's matmuls overwrite their output (`accumulator=False`)
      and every later matmul of the program accumulates into it. */
  lemma PlanAccumulate(t: GenTarget, N: int, K: int)
    requires Usable(t)
    ensures forall i :: 0 <= i < |Plan(t, N, K)| && Plan(t, N, K)[i].Matmul? ==>
      (Plan(t, N, K)[i].accumulate <==> i >= |KStep(t, N, 0)|)
  {
    var n := KTiles(t, K);
    var steps := KSteps(t, N, n);
    var out := Bracket(OutputBlock(t, N, Participating(t, N)));
    assert Plan(t, N, K) == steps + out;
    KStepsAccumulate(t, N, n);
    forall i | |steps| <= i < |Plan(t, N, K)|
      ensures !Plan(t, N, K)[i].Matmul?
    {
      assert Plan(t, N, K)[i] == out[i - |steps|];
    }
    forall i | 0 <= i < |steps|
      ensures Plan(t, N, K)[i] == steps[i]
    {
    }
  }

  /** With perfect tiles and an even split, the participating cores' column
      bands are non-empty, adjacent, and cover exactly `[0, N)`: every output
      column is copied in and written back by exactly one core. */
  lemma ColumnBandsCover(t: GenTarget, N: int)
    requires Usable(t) && N > 0 && N % t.tileN == 0 && EvenCoreSplit(t, N)
    ensures Participating(t, N) >= 1
    ensures ColumnBand(0, ColTilesPerCore(t, N), t.tileN).start == 0
    ensures forall i :: 0 <= i < Participating(t, N) ==>
      ColumnBand(i, ColTilesPerCore(t, N), t.tileN).start < ColumnBand(i, ColTilesPerCore(t, N), t.tileN).end
    ensures forall i :: 0 <= i < Participating(t, N) - 1 ==>
      ColumnBand(i + 1, ColTilesPerCore(t, N), t.tileN).start == ColumnBand(i, ColTilesPerCore(t, N), t.tileN).end
    ensures ColumnBand(Participating(t, N) - 1, ColTilesPerCore(t, N), t.tileN).end == N
  {
    var c, p, tN := ColTilesPerCore(t, N), Participating(t, N), t.tileN;
    SplitCoversColumnTiles(t, N);
    PositiveProduct(c, tN);
    BandsAdjacent(c, tN, p);
  }

  /** Participating cores times column tiles per core is the number of column tiles. */
  lemma SplitCoversColumnTiles(t: GenTarget, N: int)
    requires Usable(t) && N > 0 && N % t.tileN == 0 && EvenCoreSplit(t, N)
    ensures Participating(t, N) >= 1 && ColTilesPerCore(t, N) >= 1
    ensures Participating(t, N) * ColTilesPerCore(t, N) * t.tileN == N
  {
    var nct := NumColTiles(t, N);
    assert N == nct * t.tileN;
    if nct >= t.numCores {
      assert nct == t.numCores * ColTilesPerCore(t, N);
    }
  }

  lemma BandsAdjacent(c: int, tN: int, p: int)
    requires c * tN > 0 && p >= 1
    ensures ColumnBand(0, c, tN).start == 0
    ensures forall i :: 0 <= i < p ==> ColumnBand(i, c, tN).start < ColumnBand(i, c, tN).end
    ensures forall i :: 0 <= i < p - 1 ==> ColumnBand(i + 1, c, tN).start == ColumnBand(i, c, tN).end
    ensures ColumnBand(p - 1, c, tN).end == p * c * tN
  {
    forall i | 0 <= i < p - 1
      ensures ColumnBand(i + 1, c, tN).start == ColumnBand(i, c, tN).end
    {
      assert (i + 1) * c * tN == i * c * tN + c * tN;
    }
    assert (p - 1) * c * tN + c * tN == p * c * tN;
  }
}

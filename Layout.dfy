/** The per-core local memory layout of the programs the generator of
    lib/Target/EPU/CodeGen/EPUCodeGen.cpp emits: where each instruction's
    local slices fall, what the capacity check at lines 127-128 guarantees,
    and which tiles the matmuls of a core address.

    Local slices are addressed as the simulator addresses them: element
    (r, c) of `<base, dim1, dim0>` is the float at byte
    `base + 4 * ElementOffset(dim1, dim0, r, c)` of the core's segment. */
module Layout {
  import opened Isa
  import opened CodeGen
  import opened Simulator
  import opened EpuSimulator

  /** The byte offset, from the core's local base, of element (r, c) of a local slice. */
  function ByteOf(s: SliceOperand, r: int, c: int): int
  {
    s.base + BytesPerFloat * ElementOffset(s.dim1, s.dim0, r, c)
  }

  /** Every element of the slice lies in the bytes `[lo, hi)`. */
  predicate SliceWithin(s: SliceOperand, lo: int, hi: int)
    requires NonZeroStrides(s)
  {
    forall r, c :: 0 <= r < Count(s.dim1) && 0 <= c < Count(s.dim0) ==>
      lo <= ByteOf(s, r, c) && ByteOf(s, r, c) + BytesPerFloat <= hi
  }

  /** A 32-row block of `w` floats per row, rows packed one after the other:
      every local slice the generator prints has this form. */
  function Block(base: int, w: int): SliceOperand
  {
    Slice(base, Dim32, Dim(0, w, 1))
  }

  lemma CountOfUnitStride(w: int)
    ensures Count(Dim(0, w, 1)) == w
  {
    var q := Count(Dim(0, w, 1));
    assert 0 <= w - q * 1 < 1 || -1 < w - q * 1 <= 0;
  }

  /** Element (r, c) of a block is float `r * w + c` after its base. */
  lemma BlockShape(base: int, w: int, r: int, c: int)
    ensures NonZeroStrides(Block(base, w))
    ensures Count(Block(base, w).dim1) == 32 && Count(Block(base, w).dim0) == w
    ensures ByteOf(Block(base, w), r, c) == base + BytesPerFloat * (r * w + c)
  {
    CountOfUnitStride(32);
    CountOfUnitStride(w);
    assert Dim32 == Dim(0, 32, 1);
  }

  lemma BlockArithmetic(r: int, c: int, w: int)
    requires 0 <= r < 32 && 0 <= c < w
    ensures 0 <= r * w + c && r * w + c + 1 <= 32 * w
    ensures 0 <= 4 * (r * w + c) && 4 * (r * w + c) + 4 <= 32 * w * 4
  {
    assert r * w <= 31 * w;
    assert 32 * w * 4 == 4 * (32 * w);
  }

  /** A block of `w` floats per row spans exactly `128 * w` bytes: its first
      float is at the base and its last float ends `128 * w` bytes later. */
  lemma BlockSpan(base: int, w: int)
    requires w >= 1
    ensures ByteOf(Block(base, w), 0, 0) == base
    ensures ByteOf(Block(base, w), 31, w - 1) + BytesPerFloat == base + 32 * w * BytesPerFloat
  {
    BlockShape(base, w, 0, 0);
    BlockShape(base, w, 31, w - 1);
  }

  /** A block of `w` floats per row lies in any byte range that holds the
      `128 * w` bytes from its base. */
  lemma BlockWithin(base: int, w: int, lo: int, hi: int)
    requires w >= 1 && lo <= base && base + 32 * w * BytesPerFloat <= hi
    ensures NonZeroStrides(Block(base, w)) && SliceWithin(Block(base, w), lo, hi)
  {
    BlockShape(base, w, 0, 0);
    assert BytesPerFloat == 4;
    forall r, c | 0 <= r < 32 && 0 <= c < w
      ensures lo <= ByteOf(Block(base, w), r, c) && ByteOf(Block(base, w), r, c) + BytesPerFloat <= hi
    {
      BlockShape(base, w, r, c);
      BlockArithmetic(r, c, w);
      var e := r * w + c;
      assert ByteOf(Block(base, w), r, c) == base + 4 * e;
    }
  }

  // ---------------------------------------------------------------------
  // The three regions of a core's local memory
  // ---------------------------------------------------------------------

  /** The generator prints `0:32:1` for every 32-wide dimension, so its
      layout is the intended one only for 32x32x32 tiles. */
  predicate Tiles32(t: GenTarget) {
    t.tileM == 32 && t.tileK == 32 && t.tileN == 32
  }

  function BytesPerOutputTile(t: GenTarget): int {
    t.tileM * t.tileN * BytesPerFloat
  }

  /** The end of the output region: one output tile per column tile of the core. */
  function OutputEnd(t: GenTarget, N: int): int
    requires Usable(t)
  {
    OutputOffset(t, N) + ColTilesPerCore(t, N) * BytesPerOutputTile(t)
  }

  /** The local slices of an instruction lie in their regions: activation in
      `[0, WeightOffset)`, weights in `[WeightOffset, OutputOffset)` and the
      output in `[OutputOffset, OutputEnd)`. */
  predicate InRegions(t: GenTarget, N: int, op: Op)
    requires Usable(t)
  {
    match op
    case GlobalToLocal(_, src, dst) =>
      && NonZeroStrides(dst) && (src.base == 1 || src.base == 2)
      && (src.base == 1 ==> SliceWithin(dst, ActivationOffset, WeightOffset(t)))
      && (src.base == 2 ==> SliceWithin(dst, WeightOffset(t), OutputOffset(t, N)))
    case LocalToGlobal(_, src, _) =>
      NonZeroStrides(src) && SliceWithin(src, OutputOffset(t, N), OutputEnd(t, N))
    case Matmul(_, _, a, b, c, _) =>
      && NonZeroStrides(a) && NonZeroStrides(b) && NonZeroStrides(c)
      && SliceWithin(a, ActivationOffset, WeightOffset(t))
      && SliceWithin(b, WeightOffset(t), OutputOffset(t, N))
      && SliceWithin(c, OutputOffset(t, N), OutputEnd(t, N))
    case StartParallel => true
    case EndParallel => true
  }

  /** Every local slice of an instruction lies in the bytes `[lo, hi)`. */
  predicate LocalWithin(op: Op, lo: int, hi: int)
  {
    match op
    case GlobalToLocal(_, _, dst) => NonZeroStrides(dst) && SliceWithin(dst, lo, hi)
    case LocalToGlobal(_, src, _) => NonZeroStrides(src) && SliceWithin(src, lo, hi)
    case Matmul(_, _, a, b, c, _) =>
      && NonZeroStrides(a) && NonZeroStrides(b) && NonZeroStrides(c)
      && SliceWithin(a, lo, hi) && SliceWithin(b, lo, hi) && SliceWithin(c, lo, hi)
    case StartParallel => true
    case EndParallel => true
  }

  lemma RegionsOrdered(t: GenTarget, N: int)
    requires Usable(t) && Tiles32(t) && N > 0
    ensures ColTilesPerCore(t, N) >= 1
    ensures WeightOffset(t) == 4096 && BytesPerOutputTile(t) == 4096
    ensures OutputOffset(t, N) == 4096 + 4096 * ColTilesPerCore(t, N)
    ensures OutputEnd(t, N) == OutputOffset(t, N) + 4096 * ColTilesPerCore(t, N)
  {
  }

  lemma {:induction false} MatmulBlockInRegions(t: GenTarget, N: int, k: int, n: nat)
    requires Usable(t) && Tiles32(t) && N > 0
    ensures forall op :: op in MatmulBlock(t, N, k, n) ==> InRegions(t, N, op)
  {
    if n > 0 {
      MatmulBlockInRegions(t, N, k, n - 1);
      RegionsOrdered(t, N);
      var c := ColTilesPerCore(t, N);
      BlockWithin(ActivationOffset, 32, ActivationOffset, WeightOffset(t));
      BlockWithin(WeightOffset(t), 32, WeightOffset(t), OutputOffset(t, N));
      BlockWithin(OutputOffset(t, N), 32, OutputOffset(t, N), OutputEnd(t, N));
      assert Dim32 == Dim(0, 32, 1);
    }
  }

  lemma KStepInRegions(t: GenTarget, N: int, k: int)
    requires Usable(t) && Tiles32(t) && N > 0
    ensures forall op :: op in KStep(t, N, k) ==> InRegions(t, N, op)
  {
    RegionsOrdered(t, N);
    var c := ColTilesPerCore(t, N);
    assert Dim32 == Dim(0, 32, 1);
    BlockWithin(ActivationOffset, 32, ActivationOffset, WeightOffset(t));
    BlockWithin(WeightOffset(t), c * t.tileN, WeightOffset(t), OutputOffset(t, N));
    MatmulBlockInRegions(t, N, k, Participating(t, N));
  }

  lemma {:induction false} KStepsInRegions(t: GenTarget, N: int, n: nat)
    requires Usable(t) && Tiles32(t) && N > 0
    ensures forall op :: op in KSteps(t, N, n) ==> InRegions(t, N, op)
  {
    if n > 0 {
      KStepsInRegions(t, N, n - 1);
      KStepInRegions(t, N, n - 1);
    }
  }

  /** Every local slice of a generated program stays in its region of the
      layout: activation, weights and output never overlap. */
  lemma PlanInRegions(t: GenTarget, N: int, K: int)
    requires Usable(t) && Tiles32(t) && N > 0
    ensures forall op :: op in Plan(t, N, K) ==> InRegions(t, N, op)
  {
    KStepsInRegions(t, N, KTiles(t, K));
    RegionsOrdered(t, N);
    var c := ColTilesPerCore(t, N);
    BlockWithin(OutputOffset(t, N), c * t.tileN, OutputOffset(t, N), OutputEnd(t, N));
  }

  // ---------------------------------------------------------------------
  // The capacity check
  // ---------------------------------------------------------------------

  /** The capacity check with the output region counted: all three regions
      fit in the core's local memory. */
  predicate FitsLocalMemoryWithOutput(t: GenTarget, N: int)
    requires Usable(t)
  {
    OutputEnd(t, N) <= t.localMemPerCore
  }

  /** The corrected check is stronger than the one written. */
  lemma WithOutputImpliesFits(t: GenTarget, N: int)
    requires Usable(t) && N > 0 && FitsLocalMemoryWithOutput(t, N)
    ensures FitsLocalMemory(t, N)
  {
    PlanLayout(t, N, 0);
    PositiveProduct(t.tileM, t.tileN);
    PositiveProduct(ColTilesPerCore(t, N), BytesPerOutputTile(t));
  }

  lemma SliceWithinWider(s: SliceOperand, lo: int, hi: int, lo': int, hi': int)
    requires NonZeroStrides(s) && SliceWithin(s, lo, hi) && lo' <= lo && hi <= hi'
    ensures SliceWithin(s, lo', hi')
  {
  }

  lemma RegionsWithin(t: GenTarget, N: int, op: Op, hi: int)
    requires Usable(t) && Tiles32(t) && N > 0 && OutputEnd(t, N) <= hi && InRegions(t, N, op)
    ensures LocalWithin(op, 0, hi)
  {
    RegionsOrdered(t, N);
    var wo, oo, oe := WeightOffset(t), OutputOffset(t, N), OutputEnd(t, N);
    match op
    case GlobalToLocal(_, src, dst) =>
      if src.base == 1 {
        SliceWithinWider(dst, 0, wo, 0, hi);
      } else {
        SliceWithinWider(dst, wo, oo, 0, hi);
      }
    case LocalToGlobal(_, src, _) =>
      SliceWithinWider(src, oo, oe, 0, hi);
    case Matmul(_, _, a, b, c, _) =>
      SliceWithinWider(a, 0, wo, 0, hi);
      SliceWithinWider(b, wo, oo, 0, hi);
      SliceWithinWider(c, oo, oe, 0, hi);
    case StartParallel =>
    case EndParallel =>
  }

  /** When the corrected check passes, every local slice of the generated
      program lies inside the core's local memory. */
  lemma PlanWithinLocalMemory(t: GenTarget, N: int, K: int)
    requires Usable(t) && Tiles32(t) && N > 0 && FitsLocalMemoryWithOutput(t, N)
    ensures forall op :: op in Plan(t, N, K) ==> LocalWithin(op, 0, t.localMemPerCore)
  {
    PlanInRegions(t, N, K);
    forall op | op in Plan(t, N, K)
      ensures LocalWithin(op, 0, t.localMemPerCore)
    {
      RegionsWithin(t, N, op, t.localMemPerCore);
    }
  }

  /** The output block is the last parallel block of every generated program. */
  lemma OutputBlockInPlan(t: GenTarget, N: int, K: int)
    requires Usable(t)
    ensures forall i :: 0 <= i < Participating(t, N) ==>
      OutputBlock(t, N, Participating(t, N))[i] in Plan(t, N, K)
  {
    var steps := KSteps(t, N, KTiles(t, K));
    var out := OutputBlock(t, N, Participating(t, N));
    forall i | 0 <= i < Participating(t, N)
      ensures out[i] in Plan(t, N, K)
    {
      assert Bracket(out)[i + 1] == out[i];
      assert Plan(t, N, K)[|steps| + 1 + i] == out[i];
    }
  }

  /** As written, the capacity check accepts 4 cores of 512 KiB with
      M = 32, N = 8192, K = 32, although each core's output region then ends
      4096 bytes past its local memory: the last output row read by core 0 is
      the activation tile of core 1. */
  lemma CapacityCheckIgnoresOutput(env: Env)
    requires env.localMemoryPerCore == EpuTarget.localMemPerCore
    ensures PerfectTiles(EpuTarget, 32, 8192, 32) && EvenCoreSplit(EpuTarget, 8192)
    ensures FitsLocalMemory(EpuTarget, 8192) && !FitsLocalMemoryWithOutput(EpuTarget, 8192)
    ensures OutputBlock(EpuTarget, 8192, 4)[0] in Plan(EpuTarget, 8192, 32)
    ensures !LocalWithin(OutputBlock(EpuTarget, 8192, 4)[0], 0, EpuTarget.localMemPerCore)
    ensures LocalCell(env, 0, ByteOf(OutputBlock(EpuTarget, 8192, 4)[0].src, 31, 2047)) == LocalCell(env, 1, 4092)
  {
    var t, N := EpuTarget, 8192;
    Figures8192();
    assert PerfectTiles(t, 32, N, 32) by {
      assert 8192 % 32 == 0;
    }
    assert EvenCoreSplit(t, N) by {
      assert 256 % 4 == 0;
    }
    OutputBlockInPlan(t, N, 32);
    var op := OutputBlock(t, N, 4)[0];
    assert op == OutputCopy(0, 64, 266240, 32);
    assert op.src == Block(266240, 2048);
    LastOutputByte();
    BlockShape(266240, 2048, 31, 2047);
  }

  /** The planning figures of the 4-core target for N = 8192. */
  lemma Figures8192()
    ensures NumColTiles(EpuTarget, 8192) == 256
    ensures ColTilesPerCore(EpuTarget, 8192) == 64 && Participating(EpuTarget, 8192) == 4
    ensures OutputOffset(EpuTarget, 8192) == 266240 && OutputEnd(EpuTarget, 8192) == 528384
  {
    assert 8192 / 32 == 256;
    assert 256 / 4 == 64;
  }

  /** The byte of the last element of a 32-row block of 2048 floats at 266240. */
  lemma LastOutputByte()
    ensures ByteOf(Block(266240, 2048), 31, 2047) == 528380
  {
    BlockShape(266240, 2048, 31, 2047);
    assert 31 * 2048 + 2047 == 65535;
  }

  // ---------------------------------------------------------------------
  // The matmuls of a core
  // ---------------------------------------------------------------------

  /** As written, with two column tiles per core (4 cores, N = 256) both
      matmuls of a core read the same weight tile and write the same output
      tile, packed 32 floats to a row, while the output copy reads rows of
      64 floats: output row 1 receives product row 2, and output row 16 is
      written by no matmul. */
  lemma MatmulsShareOneTile(k: int)
    ensures ColTilesPerCore(EpuTarget, 256) == 2
    ensures var ms := CoreMatmuls(EpuTarget, 256, k, 0, 2);
      && ms[0].b == ms[1].b && ms[0].c == ms[1].c
      && ByteOf(OutputBlock(EpuTarget, 256, 4)[0].src, 1, 0) == ByteOf(ms[0].c, 2, 0)
      && forall j, r, c :: 0 <= j < 2 && 0 <= r < Count(ms[j].c.dim1) && 0 <= c < Count(ms[j].c.dim0) ==>
           ByteOf(ms[j].c, r, c) != ByteOf(OutputBlock(EpuTarget, 256, 4)[0].src, 16, 0)
  {
    var t, N := EpuTarget, 256;
    assert NumColTiles(t, N) == 8 && ColTilesPerCore(t, N) == 2 && Participating(t, N) == 4;
    var ms := CoreMatmuls(t, N, k, 0, 2);
    var out := OutputBlock(t, N, 4)[0].src;
    assert out == Block(12288, 64);
    assert ms[0].c == Block(12288, 32) && ms[1].c == Block(12288, 32);
    BlockShape(12288, 64, 1, 0);
    BlockShape(12288, 32, 2, 0);
    BlockShape(12288, 64, 16, 0);
    forall j, r, c | 0 <= j < 2 && 0 <= r < Count(ms[j].c.dim1) && 0 <= c < Count(ms[j].c.dim0)
      ensures ByteOf(ms[j].c, r, c) != ByteOf(out, 16, 0)
    {
      BlockShape(12288, 32, r, c);
      BlockArithmetic(r, c, 32);
    }
  }

  /** Column tile `j` of a 32-row block of `cols` tiles: 32 rows taken every
      `cols` packed rows of 32 floats, from float `32 * j`. */
  function ColumnTile(base: int, cols: int, j: int): SliceOperand
  {
    Slice(base + 32 * BytesPerFloat * j, Dim(0, 32 * cols, cols), Dim32)
  }

  lemma CountOfTileRows(cols: int)
    requires cols >= 1
    ensures Count(Dim(0, 32 * cols, cols)) == 32
  {
    var q := Count(Dim(0, 32 * cols, cols));
    assert 0 <= 32 * cols - q * cols < cols;
    assert (32 - q) * cols == 32 * cols - q * cols;
    WholeQuotient(32 - q, cols);
  }

  /** A multiple `d * cols` in `[0, cols)` has `d == 0`. */
  lemma WholeQuotient(d: int, cols: int)
    requires cols >= 1 && 0 <= d * cols < cols
    ensures d == 0
  {
    if d >= 1 {
      MulAtLeastOne(d, cols);
    } else if d < 0 {
      MulAtLeastOne(-d, cols);
    }
  }

  /** Element (r, c) of column tile `j` is element (r, 32 * j + c) of the
      whole block: the tile is the block's columns `32 * j` to `32 * j + 31`. */
  lemma ColumnTileAddresses(base: int, cols: int, j: int, r: int, c: int)
    requires cols >= 1
    ensures NonZeroStrides(ColumnTile(base, cols, j))
    ensures Count(ColumnTile(base, cols, j).dim1) == 32 && Count(ColumnTile(base, cols, j).dim0) == 32
    ensures ByteOf(ColumnTile(base, cols, j), r, c) == ByteOf(Block(base, 32 * cols), r, 32 * j + c)
  {
    CountOfTileRows(cols);
    CountOfUnitStride(32);
    BlockShape(base, 32 * cols, r, 32 * j + c);
    assert Dim32 == Dim(0, 32, 1);
    assert (0 + r * cols) * 32 == r * (32 * cols);
  }

  /** The `j`-th matmul of core `coreId` as the column split evidently
      intends it: column tile `j` of the weights into column tile `j` of the
      output. */
  function ColumnTileMatmul(t: GenTarget, N: int, k: int, coreId: int, j: int): Op
    requires Usable(t)
  {
    Matmul(coreId, j % t.mmUnitsPerCore, Block(ActivationOffset, 32),
           ColumnTile(WeightOffset(t), ColTilesPerCore(t, N), j),
           ColumnTile(OutputOffset(t, N), ColTilesPerCore(t, N), j), k != 0)
  }

  /** The corrected matmuls of a core partition its output block by columns:
      output element (r, c) is written by matmul `c / 32` alone, as its element
      (r, c % 32), from column `c` of the weights the weight copy stored. */
  lemma ColumnTilesCover(t: GenTarget, N: int, k: int, coreId: int)
    requires Usable(t) && Tiles32(t) && N > 0
    ensures var cols := ColTilesPerCore(t, N);
      forall r, c :: 0 <= r < 32 && 0 <= c < 32 * cols ==>
        && 0 <= c / 32 < cols
        && ByteOf(ColumnTileMatmul(t, N, k, coreId, c / 32).c, r, c % 32)
           == ByteOf(OutputCopy(coreId, ColTilesPerCore(t, N), OutputOffset(t, N), t.tileN).src, r, c)
        && (forall x :: 0 <= x < 32 ==>
              ByteOf(ColumnTileMatmul(t, N, k, coreId, c / 32).b, x, c % 32)
              == ByteOf(Block(WeightOffset(t), 32 * cols), x, c))
    ensures var cols := ColTilesPerCore(t, N);
      forall j, j', r, c, r', c' ::
        (0 <= j < cols && 0 <= j' < cols && j != j' && 0 <= c < 32 && 0 <= c' < 32) ==>
        ByteOf(ColumnTileMatmul(t, N, k, coreId, j).c, r, c) != ByteOf(ColumnTileMatmul(t, N, k, coreId, j').c, r', c')
  {
    var cols := ColTilesPerCore(t, N);
    forall r, c | 0 <= r < 32 && 0 <= c < 32 * cols
      ensures && 0 <= c / 32 < cols
        && ByteOf(ColumnTileMatmul(t, N, k, coreId, c / 32).c, r, c % 32)
           == ByteOf(OutputCopy(coreId, ColTilesPerCore(t, N), OutputOffset(t, N), t.tileN).src, r, c)
        && (forall x :: 0 <= x < 32 ==>
              ByteOf(ColumnTileMatmul(t, N, k, coreId, c / 32).b, x, c % 32)
              == ByteOf(Block(WeightOffset(t), 32 * cols), x, c))
    {
      ColumnTileCell(t, N, k, coreId, r, c);
    }
    forall j, j', r, c, r', c' | 0 <= j < cols && 0 <= j' < cols && j != j' && 0 <= c < 32 && 0 <= c' < 32
      ensures ByteOf(ColumnTileMatmul(t, N, k, coreId, j).c, r, c) != ByteOf(ColumnTileMatmul(t, N, k, coreId, j').c, r', c')
    {
      ColumnTilesApart(t, N, k, coreId, j, j', r, c, r', c');
    }
  }

  /** Output element (r, c) of a core is element (r, c % 32) of matmul
      `c / 32`, which reads column `c` of the weights. */
  lemma ColumnTileCell(t: GenTarget, N: int, k: int, coreId: int, r: int, c: int)
    requires Usable(t) && Tiles32(t) && N > 0
    requires 0 <= r < 32 && 0 <= c < 32 * ColTilesPerCore(t, N)
    ensures 0 <= c / 32 < ColTilesPerCore(t, N)
    ensures ByteOf(ColumnTileMatmul(t, N, k, coreId, c / 32).c, r, c % 32)
         == ByteOf(OutputCopy(coreId, ColTilesPerCore(t, N), OutputOffset(t, N), t.tileN).src, r, c)
    ensures forall x :: 0 <= x < 32 ==>
            ByteOf(ColumnTileMatmul(t, N, k, coreId, c / 32).b, x, c % 32)
            == ByteOf(Block(WeightOffset(t), 32 * ColTilesPerCore(t, N)), x, c)
  {
    var cols := ColTilesPerCore(t, N);
    RegionsOrdered(t, N);
    ColumnTileAddresses(OutputOffset(t, N), cols, c / 32, r, c % 32);
    assert 32 * (c / 32) + c % 32 == c;
    assert cols * t.tileN == 32 * cols;
    forall x | 0 <= x < 32 {
      ColumnTileAddresses(WeightOffset(t), cols, c / 32, x, c % 32);
    }
  }

  /** Two different corrected matmuls of a core write different cells. */
  lemma ColumnTilesApart(t: GenTarget, N: int, k: int, coreId: int, j: int, j': int, r: int, c: int, r': int, c': int)
    requires Usable(t) && Tiles32(t) && N > 0
    requires 0 <= j < ColTilesPerCore(t, N) && 0 <= j' < ColTilesPerCore(t, N) && j != j'
    requires 0 <= c < 32 && 0 <= c' < 32
    ensures ByteOf(ColumnTileMatmul(t, N, k, coreId, j).c, r, c) != ByteOf(ColumnTileMatmul(t, N, k, coreId, j').c, r', c')
  {
    TilesApart(OutputOffset(t, N), ColTilesPerCore(t, N), j, j', r, c, r', c');
  }

  /** Different column tiles of one block share no cell. */
  lemma TilesApart(base: int, cols: int, j: int, j': int, r: int, c: int, r': int, c': int)
    requires 0 <= j < cols && 0 <= j' < cols && j != j' && 0 <= c < 32 && 0 <= c' < 32
    ensures ByteOf(ColumnTile(base, cols, j), r, c) != ByteOf(ColumnTile(base, cols, j'), r', c')
  {
    TileByte(base, cols, j, r, c);
    TileByte(base, cols, j', r', c');
    DistinctColumns(cols, r, 32 * j + c, r', 32 * j' + c');
  }

  /** Element (r, c) of column tile `j` as a byte of the whole block. */
  lemma TileByte(base: int, cols: int, j: int, r: int, c: int)
    requires cols >= 1
    ensures ByteOf(ColumnTile(base, cols, j), r, c) == base + BytesPerFloat * (r * (32 * cols) + (32 * j + c))
  {
    ColumnTileAddresses(base, cols, j, r, c);
    BlockShape(base, 32 * cols, r, 32 * j + c);
  }

  /** In rows of `32 * cols` floats, different columns of a row-major block
      are different floats. */
  lemma DistinctColumns(cols: int, r: int, c: int, r': int, c': int)
    requires cols >= 1 && 0 <= c < 32 * cols && 0 <= c' < 32 * cols && c != c'
    ensures r * (32 * cols) + c != r' * (32 * cols) + c'
  {
    var w := 32 * cols;
    if r < r' {
      var d := r' - r;
      MulAtLeastOne(d, w);
      assert r' * w == r * w + d * w;
    } else if r' < r {
      var d := r - r';
      MulAtLeastOne(d, w);
      assert r * w == r' * w + d * w;
    }
  }
}

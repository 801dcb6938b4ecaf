/** The EPU simulator of lib/Target/EPU/Simulator/EPUSimulator.cpp: the
    strided copies between the global and the local segments, the tile
    matmul, `execute` and the parallel-batch dispatcher of
    `simulateInstructions`.

    Each operation is specified by a function on the memory as a sequence of
    cells, which folds the C++ loop nest element by element in the same
    order; the methods run those loop nests on the simulator's arena and are
    proved to leave exactly that sequence. */
module EpuSimulator {
  import opened Wrappers
  import opened Isa
  import opened Target
  import opened Simulator

  /** What the EPU operations read from the simulator: the segment sizes and
      the two handle tables (byte offsets into the global segment). */
  datatype Env = Env(globalMemorySize: int, localMemoryPerCore: int, numberOfCores: int,
                     inputs: map<int, int>, outputs: map<int, int>)

  function EnvOf(sim: Simulator): Env
    reads sim
  {
    Env(sim.globalMemorySize, sim.localMemoryPerCore, sim.numberOfCores,
        sim.inputHandleToMemoryLocMap, sim.outputHandleToMemoryLocMap)
  }

  /** The cell of byte offset `base` in core `core`'s local segment. */
  function LocalCell(env: Env, core: int, base: int): int
  {
    (SegmentBase(env.globalMemorySize, env.localMemoryPerCore, core) + base) / 4
  }

  // ---------------------------------------------------------------------
  // Strided copy
  // ---------------------------------------------------------------------

  /** An element-wise copy of `rows x cols` elements from the slice at cell
      `srcBase` to the slice at cell `dstBase`. */
  datatype Transfer = Transfer(srcBase: int, src1: Dim, src0: Dim,
                               dstBase: int, dst1: Dim, dst0: Dim,
                               rows: nat, cols: nat)

  function SrcCell(p: Transfer, r: int, c: int): int
  {
    p.srcBase + ElementOffset(p.src1, p.src0, r, c)
  }

  function DstCell(p: Transfer, r: int, c: int): int
  {
    p.dstBase + ElementOffset(p.dst1, p.dst0, r, c)
  }

  predicate TransferInBounds(p: Transfer, len: int)
  {
    forall r, c :: 0 <= r < p.rows && 0 <= c < p.cols ==>
      0 <= SrcCell(p, r, c) < len && 0 <= DstCell(p, r, c) < len
  }

  /** No element read is ever written. */
  predicate TransferNoAlias(p: Transfer)
  {
    forall r, c, r', c' :: 0 <= r < p.rows && 0 <= c < p.cols && 0 <= r' < p.rows && 0 <= c' < p.cols ==>
      SrcCell(p, r, c) != DstCell(p, r', c')
  }

  /** Different elements are written to different cells. */
  predicate DstInjective(p: Transfer)
  {
    forall r, c, r', c' ::
      (0 <= r < p.rows && 0 <= c < p.cols && 0 <= r' < p.rows && 0 <= c' < p.cols && (r != r' || c != c')) ==>
      DstCell(p, r, c) != DstCell(p, r', c')
  }

  /** Memory after the first `n` elements of row `r`. */
  function CopyRow(mem: seq<int>, p: Transfer, r: int, n: nat): (m: seq<int>)
    requires TransferInBounds(p, |mem|) && 0 <= r < p.rows && n <= p.cols
    ensures |m| == |mem|
  {
    if n == 0 then mem
    else
      var prev := CopyRow(mem, p, r, n - 1);
      prev[DstCell(p, r, n - 1) := prev[SrcCell(p, r, n - 1)]]
  }

  /** Memory after the first `m` rows. */
  function CopyRows(mem: seq<int>, p: Transfer, m: nat): (res: seq<int>)
    requires TransferInBounds(p, |mem|) && m <= p.rows
    ensures |res| == |mem|
  {
    if m == 0 then mem else CopyRow(CopyRows(mem, p, m - 1), p, m - 1, p.cols)
  }

  function RunTransfer(mem: seq<int>, p: Transfer): (res: seq<int>)
    requires TransferInBounds(p, |mem|)
    ensures |res| == |mem|
  {
    CopyRows(mem, p, p.rows)
  }

  lemma {:induction false} CopyRowFrame(mem: seq<int>, p: Transfer, r: int, n: nat)
    requires TransferInBounds(p, |mem|) && 0 <= r < p.rows && n <= p.cols
    ensures forall j :: 0 <= j < |mem| && (forall c :: 0 <= c < n ==> DstCell(p, r, c) != j) ==>
      CopyRow(mem, p, r, n)[j] == mem[j]
  {
    if n > 0 {
      CopyRowFrame(mem, p, r, n - 1);
    }
  }

  lemma {:induction false} CopyRowsFrame(mem: seq<int>, p: Transfer, m: nat)
    requires TransferInBounds(p, |mem|) && m <= p.rows
    ensures forall j ::
      (0 <= j < |mem| && (forall r, c :: 0 <= r < m && 0 <= c < p.cols ==> DstCell(p, r, c) != j)) ==>
      CopyRows(mem, p, m)[j] == mem[j]
  {
    if m > 0 {
      CopyRowsFrame(mem, p, m - 1);
      CopyRowFrame(CopyRows(mem, p, m - 1), p, m - 1, p.cols);
    }
  }

  lemma {:induction false} CopyRowValues(mem: seq<int>, p: Transfer, r: int, n: nat)
    requires TransferInBounds(p, |mem|) && 0 <= r < p.rows && n <= p.cols
    requires TransferNoAlias(p) && DstInjective(p)
    ensures forall c :: 0 <= c < n ==> CopyRow(mem, p, r, n)[DstCell(p, r, c)] == mem[SrcCell(p, r, c)]
  {
    if n > 0 {
      CopyRowValues(mem, p, r, n - 1);
      CopyRowFrame(mem, p, r, n - 1);
    }
  }

  lemma {:induction false} CopyRowsValues(mem: seq<int>, p: Transfer, m: nat)
    requires TransferInBounds(p, |mem|) && m <= p.rows
    requires TransferNoAlias(p) && DstInjective(p)
    ensures forall r, c :: 0 <= r < m && 0 <= c < p.cols ==>
      CopyRows(mem, p, m)[DstCell(p, r, c)] == mem[SrcCell(p, r, c)]
  {
    if m > 0 {
      var i := m - 1;
      var prev := CopyRows(mem, p, i);
      CopyRowsValues(mem, p, i);
      CopyRowsFrame(mem, p, i);
      CopyRowFrame(prev, p, i, p.cols);
      CopyRowValues(prev, p, i, p.cols);
      forall r, c | 0 <= r < m && 0 <= c < p.cols
        ensures CopyRows(mem, p, m)[DstCell(p, r, c)] == mem[SrcCell(p, r, c)]
      {
        if r < i {
          assert forall c' :: 0 <= c' < p.cols ==> DstCell(p, i, c') != DstCell(p, r, c);
        } else {
          assert forall r', c' :: 0 <= r' < i && 0 <= c' < p.cols ==> DstCell(p, r', c') != SrcCell(p, r, c);
        }
      }
    }
  }

  /** A copy writes only its destination elements, and, when no element read
      is written and no cell is written twice, every destination element
      receives its source element. */
  lemma TransferEffect(mem: seq<int>, p: Transfer)
    requires TransferInBounds(p, |mem|)
    ensures forall j ::
      (0 <= j < |mem| && (forall r, c :: 0 <= r < p.rows && 0 <= c < p.cols ==> DstCell(p, r, c) != j)) ==>
      RunTransfer(mem, p)[j] == mem[j]
    ensures TransferNoAlias(p) && DstInjective(p) ==>
      forall r, c :: 0 <= r < p.rows && 0 <= c < p.cols ==>
        RunTransfer(mem, p)[DstCell(p, r, c)] == mem[SrcCell(p, r, c)]
  {
    CopyRowsFrame(mem, p, p.rows);
    if TransferNoAlias(p) && DstInjective(p) {
      CopyRowsValues(mem, p, p.rows);
    }
  }

  /** The r/c loop nest shared by both copies (`*dstElement = *srcElement`). */
  method CopyElements(mem: array<int>, p: Transfer)
    requires TransferInBounds(p, mem.Length)
    modifies mem
    ensures mem[..] == RunTransfer(old(mem[..]), p)
  {
    var r := 0;
    while r < p.rows
      invariant 0 <= r <= p.rows
      invariant mem[..] == CopyRows(old(mem[..]), p, r)
    {
      var srcRowIndex := p.src1.start + r * p.src1.stride;
      var dstRowIndex := p.dst1.start + r * p.dst1.stride;
      var c := 0;
      while c < p.cols
        invariant 0 <= c <= p.cols
        invariant mem[..] == CopyRow(CopyRows(old(mem[..]), p, r), p, r, c)
      {
        var srcColIndex := p.src0.start + c * p.src0.stride;
        var dstColIndex := p.dst0.start + c * p.dst0.stride;
        var srcOffset := srcRowIndex * p.src0.end + srcColIndex;
        var dstOffset := dstRowIndex * p.dst0.end + dstColIndex;
        assert p.srcBase + srcOffset == SrcCell(p, r, c) && p.dstBase + dstOffset == DstCell(p, r, c);
        ghost var before := mem[..];
        mem[p.dstBase + dstOffset] := mem[p.srcBase + srcOffset];
        assert mem[..] == before[DstCell(p, r, c) := before[SrcCell(p, r, c)]];
        c := c + 1;
      }
      r := r + 1;
    }
  }

  // ---------------------------------------------------------------------
  // Matmul
  // ---------------------------------------------------------------------

  /** `C = A * B` (or `C += A * B`) over `m x k` and `k x n` slices. */
  datatype MatmulPlan = MatmulPlan(aBase: int, a1: Dim, a0: Dim,
                                   bBase: int, b1: Dim, b0: Dim,
                                   cBase: int, c1: Dim, c0: Dim,
                                   m: nat, n: nat, k: nat, accumulate: bool)

  function ACell(p: MatmulPlan, i: int, x: int): int { p.aBase + ElementOffset(p.a1, p.a0, i, x) }
  function BCell(p: MatmulPlan, x: int, j: int): int { p.bBase + ElementOffset(p.b1, p.b0, x, j) }
  function CCell(p: MatmulPlan, i: int, j: int): int { p.cBase + ElementOffset(p.c1, p.c0, i, j) }

  predicate MatmulInBounds(p: MatmulPlan, len: int)
  {
    && (forall i, x :: 0 <= i < p.m && 0 <= x < p.k ==> 0 <= ACell(p, i, x) < len)
    && (forall x, j :: 0 <= x < p.k && 0 <= j < p.n ==> 0 <= BCell(p, x, j) < len)
    && (forall i, j :: 0 <= i < p.m && 0 <= j < p.n ==> 0 <= CCell(p, i, j) < len)
  }

  /** No C element is an A or a B element, and different C elements are different cells. */
  predicate MatmulNoAlias(p: MatmulPlan)
  {
    && (forall i, j, i', x :: 0 <= i < p.m && 0 <= j < p.n && 0 <= i' < p.m && 0 <= x < p.k ==>
          CCell(p, i, j) != ACell(p, i', x))
    && (forall i, j, x, j' :: 0 <= i < p.m && 0 <= j < p.n && 0 <= x < p.k && 0 <= j' < p.n ==>
          CCell(p, i, j) != BCell(p, x, j'))
    && (forall i, j, i', j' ::
          (0 <= i < p.m && 0 <= j < p.n && 0 <= i' < p.m && 0 <= j' < p.n && (i != i' || j != j')) ==>
          CCell(p, i, j) != CCell(p, i', j'))
  }

  /** `sum_{x < kk} A[i, x] * B[x, j]`, summed in the loop's order. */
  function Dot(mem: seq<int>, p: MatmulPlan, i: int, j: int, kk: nat): int
    requires MatmulInBounds(p, |mem|) && 0 <= i < p.m && 0 <= j < p.n && kk <= p.k
  {
    if kk == 0 then 0 else Dot(mem, p, i, j, kk - 1) + mem[ACell(p, i, kk - 1)] * mem[BCell(p, kk - 1, j)]
  }

  /** The starting value of `sum`: the old C element when accumulating, else 0. */
  function Initial(mem: seq<int>, p: MatmulPlan, i: int, j: int): int
    requires MatmulInBounds(p, |mem|) && 0 <= i < p.m && 0 <= j < p.n
  {
    if p.accumulate then mem[CCell(p, i, j)] else 0
  }

  /** Memory after the first `nn` elements of C's row `i`. */
  function MatmulCols(mem: seq<int>, p: MatmulPlan, i: int, nn: nat): (res: seq<int>)
    requires MatmulInBounds(p, |mem|) && 0 <= i < p.m && nn <= p.n
    ensures |res| == |mem|
  {
    if nn == 0 then mem
    else
      var prev := MatmulCols(mem, p, i, nn - 1);
      prev[CCell(p, i, nn - 1) := Initial(prev, p, i, nn - 1) + Dot(prev, p, i, nn - 1, p.k)]
  }

  /** Memory after the first `mm` rows of C. */
  function MatmulRows(mem: seq<int>, p: MatmulPlan, mm: nat): (res: seq<int>)
    requires MatmulInBounds(p, |mem|) && mm <= p.m
    ensures |res| == |mem|
  {
    if mm == 0 then mem else MatmulCols(MatmulRows(mem, p, mm - 1), p, mm - 1, p.n)
  }

  function RunMatmul(mem: seq<int>, p: MatmulPlan): (res: seq<int>)
    requires MatmulInBounds(p, |mem|)
    ensures |res| == |mem|
  {
    MatmulRows(mem, p, p.m)
  }

  lemma {:induction false} DotFrame(mem: seq<int>, mem': seq<int>, p: MatmulPlan, i: int, j: int, kk: nat)
    requires MatmulInBounds(p, |mem|) && |mem'| == |mem| && 0 <= i < p.m && 0 <= j < p.n && kk <= p.k
    requires forall x :: 0 <= x < kk ==> mem'[ACell(p, i, x)] == mem[ACell(p, i, x)] && mem'[BCell(p, x, j)] == mem[BCell(p, x, j)]
    ensures Dot(mem', p, i, j, kk) == Dot(mem, p, i, j, kk)
  {
    if kk > 0 {
      DotFrame(mem, mem', p, i, j, kk - 1);
    }
  }

  lemma {:induction false} MatmulColsFrame(mem: seq<int>, p: MatmulPlan, i: int, nn: nat)
    requires MatmulInBounds(p, |mem|) && 0 <= i < p.m && nn <= p.n
    ensures forall cell :: 0 <= cell < |mem| && (forall j :: 0 <= j < nn ==> CCell(p, i, j) != cell) ==>
      MatmulCols(mem, p, i, nn)[cell] == mem[cell]
  {
    if nn > 0 {
      MatmulColsFrame(mem, p, i, nn - 1);
    }
  }

  lemma {:induction false} MatmulRowsFrame(mem: seq<int>, p: MatmulPlan, mm: nat)
    requires MatmulInBounds(p, |mem|) && mm <= p.m
    ensures forall cell ::
      (0 <= cell < |mem| && (forall i, j :: 0 <= i < mm && 0 <= j < p.n ==> CCell(p, i, j) != cell)) ==>
      MatmulRows(mem, p, mm)[cell] == mem[cell]
  {
    if mm > 0 {
      MatmulRowsFrame(mem, p, mm - 1);
      MatmulColsFrame(MatmulRows(mem, p, mm - 1), p, mm - 1, p.n);
    }
  }

  /** After row `i`'s first `nn` elements, each holds its initial value plus
      the dot product, both read from `mem` (which agrees with the current
      memory on every A and B element and on C's row `i`). */
  lemma {:induction false} MatmulColsValues(mem: seq<int>, p: MatmulPlan, i: int, nn: nat)
    requires MatmulInBounds(p, |mem|) && 0 <= i < p.m && nn <= p.n && MatmulNoAlias(p)
    ensures forall j :: 0 <= j < nn ==>
      MatmulCols(mem, p, i, nn)[CCell(p, i, j)] == Initial(mem, p, i, j) + Dot(mem, p, i, j, p.k)
  {
    if nn > 0 {
      var prev := MatmulCols(mem, p, i, nn - 1);
      MatmulColsValues(mem, p, i, nn - 1);
      MatmulColsFrame(mem, p, i, nn - 1);
      DotFrame(mem, prev, p, i, nn - 1, p.k);
    }
  }

  lemma {:induction false} MatmulRowsValues(mem: seq<int>, p: MatmulPlan, mm: nat)
    requires MatmulInBounds(p, |mem|) && mm <= p.m && MatmulNoAlias(p)
    ensures forall i, j :: 0 <= i < mm && 0 <= j < p.n ==>
      MatmulRows(mem, p, mm)[CCell(p, i, j)] == Initial(mem, p, i, j) + Dot(mem, p, i, j, p.k)
  {
    if mm > 0 {
      var i := mm - 1;
      var prev := MatmulRows(mem, p, i);
      MatmulRowsValues(mem, p, i);
      MatmulColsValues(prev, p, i, p.n);
      forall i', j | 0 <= i' < mm && 0 <= j < p.n
        ensures MatmulRows(mem, p, mm)[CCell(p, i', j)] == Initial(mem, p, i', j) + Dot(mem, p, i', j, p.k)
      {
        if i' < i {
          ColsKeepOtherRows(prev, p, i, i', j);
        } else {
          RowsKeepLaterCells(mem, p, i, j);
          RowsKeepDot(mem, p, i, i, j);
        }
      }
    }
  }

  /** Row `i` of C does not write another row's C element. */
  lemma ColsKeepOtherRows(mem: seq<int>, p: MatmulPlan, i: int, i': int, j: int)
    requires MatmulInBounds(p, |mem|) && MatmulNoAlias(p)
    requires 0 <= i < p.m && 0 <= i' < p.m && i != i' && 0 <= j < p.n
    ensures MatmulCols(mem, p, i, p.n)[CCell(p, i', j)] == mem[CCell(p, i', j)]
  {
    MatmulColsFrame(mem, p, i, p.n);
    assert forall j' :: 0 <= j' < p.n ==> CCell(p, i, j') != CCell(p, i', j);
  }

  /** The first `i` rows of C leave row `i`'s C elements alone. */
  lemma RowsKeepLaterCells(mem: seq<int>, p: MatmulPlan, i: int, j: int)
    requires MatmulInBounds(p, |mem|) && MatmulNoAlias(p) && 0 <= i < p.m && 0 <= j < p.n
    ensures MatmulRows(mem, p, i)[CCell(p, i, j)] == mem[CCell(p, i, j)]
  {
    MatmulRowsFrame(mem, p, i);
    assert forall i'', j'' :: 0 <= i'' < i && 0 <= j'' < p.n ==> CCell(p, i'', j'') != CCell(p, i, j);
  }

  /** Writing C elements leaves every dot product of A and B unchanged. */
  lemma RowsKeepDot(mem: seq<int>, p: MatmulPlan, mm: nat, i: int, j: int)
    requires MatmulInBounds(p, |mem|) && mm <= p.m && MatmulNoAlias(p) && 0 <= i < p.m && 0 <= j < p.n
    ensures Dot(MatmulRows(mem, p, mm), p, i, j, p.k) == Dot(mem, p, i, j, p.k)
  {
    MatmulRowsFrame(mem, p, mm);
    DotFrame(mem, MatmulRows(mem, p, mm), p, i, j, p.k);
  }

  /** A matmul writes only C's elements, and, when C overlaps neither A nor B
      and no C cell is written twice, each `C[i, j]` ends as its initial
      value (old `C[i, j]` when accumulating, else 0) plus
      `sum_x A[i, x] * B[x, j]`. */
  lemma MatmulEffect(mem: seq<int>, p: MatmulPlan)
    requires MatmulInBounds(p, |mem|)
    ensures forall cell ::
      (0 <= cell < |mem| && (forall i, j :: 0 <= i < p.m && 0 <= j < p.n ==> CCell(p, i, j) != cell)) ==>
      RunMatmul(mem, p)[cell] == mem[cell]
    ensures MatmulNoAlias(p) ==>
      forall i, j :: 0 <= i < p.m && 0 <= j < p.n ==>
        RunMatmul(mem, p)[CCell(p, i, j)] == Initial(mem, p, i, j) + Dot(mem, p, i, j, p.k)
  {
    MatmulRowsFrame(mem, p, p.m);
    if MatmulNoAlias(p) {
      MatmulRowsValues(mem, p, p.m);
    }
  }

  /** One element of `executeMatmul`: the initial value of `C[i, j]` plus the
      k loop's sum of `A[i, x] * B[x, j]`. */
  method ElementSum(mem: array<int>, p: MatmulPlan, i: int, j: int) returns (sum: int)
    requires MatmulInBounds(p, mem.Length) && 0 <= i < p.m && 0 <= j < p.n
    ensures sum == Initial(mem[..], p, i, j) + Dot(mem[..], p, i, j, p.k)
  {
    sum := 0;
    if p.accumulate {
      sum := mem[CCell(p, i, j)];
    }
    var x := 0;
    while x < p.k
      invariant 0 <= x <= p.k
      invariant sum == Initial(mem[..], p, i, j) + Dot(mem[..], p, i, j, x)
    {
      sum := sum + mem[ACell(p, i, x)] * mem[BCell(p, x, j)];
      x := x + 1;
    }
  }

  /** The m/n/k loop nest of `executeMatmul`. */
  method MultiplyElements(mem: array<int>, p: MatmulPlan)
    requires MatmulInBounds(p, mem.Length)
    modifies mem
    ensures mem[..] == RunMatmul(old(mem[..]), p)
  {
    var i := 0;
    while i < p.m
      invariant 0 <= i <= p.m
      invariant mem[..] == MatmulRows(old(mem[..]), p, i)
    {
      var j := 0;
      while j < p.n
        invariant 0 <= j <= p.n
        invariant mem[..] == MatmulCols(MatmulRows(old(mem[..]), p, i), p, i, j)
      {
        var sum := ElementSum(mem, p, i, j);
        mem[CCell(p, i, j)] := sum;
        j := j + 1;
      }
      i := i + 1;
    }
  }

  // ---------------------------------------------------------------------
  // One instruction
  // ---------------------------------------------------------------------

  predicate NonZeroStrides(s: SliceOperand)
  {
    s.dim1.stride != 0 && s.dim0.stride != 0
  }

  /** Both slices have the same (rows, cols) counts. */
  predicate SameShape(src: SliceOperand, dst: SliceOperand)
    requires NonZeroStrides(src) && NonZeroStrides(dst)
  {
    Count(src.dim1) == Count(dst.dim1) && Count(src.dim0) == Count(dst.dim0)
  }

  /** A.cols == B.rows and C is A.rows x B.cols. */
  predicate MatmulShapesAgree(a: SliceOperand, b: SliceOperand, c: SliceOperand)
    requires NonZeroStrides(a) && NonZeroStrides(b)
    requires Count(a.dim0) == Count(b.dim1) ==> NonZeroStrides(c)
  {
    Count(a.dim0) == Count(b.dim1) && Count(a.dim1) == Count(c.dim1) && Count(b.dim0) == Count(c.dim0)
  }

  /** The element counts the instruction computes divide by non-zero strides. */
  predicate CountsDefined(env: Env, op: Op)
  {
    match op
    case GlobalToLocal(_, src, dst) => src.base in env.inputs ==> NonZeroStrides(src) && NonZeroStrides(dst)
    case LocalToGlobal(_, src, dst) => dst.base in env.outputs ==> NonZeroStrides(src) && NonZeroStrides(dst)
    case Matmul(_, _, a, b, c, _) =>
      NonZeroStrides(a) && NonZeroStrides(b) && (Count(a.dim0) == Count(b.dim1) ==> NonZeroStrides(c))
    case StartParallel => true
    case EndParallel => true
  }

  /** What one instruction does to memory. */
  datatype Action =
    | NotExecutable     // "Unhandled op"
    | NoSuchHandle      // the global handle is not in the table the copy reads
    | MismatchedShapes  // the element counts disagree
    | Copy(transfer: Transfer)
    | Multiply(plan: MatmulPlan)

  function ActionOf(env: Env, op: Op): (a: Action)
    requires CountsDefined(env, op)
    ensures a == NotExecutable <==> op.IsMarker()
    ensures a == NoSuchHandle <==>
      (op.GlobalToLocal? && op.src.base !in env.inputs) || (op.LocalToGlobal? && op.dst.base !in env.outputs)
    ensures a == MismatchedShapes <==>
      || (op.GlobalToLocal? && op.src.base in env.inputs && !SameShape(op.src, op.dst))
      || (op.LocalToGlobal? && op.dst.base in env.outputs && !SameShape(op.src, op.dst))
      || (op.Matmul? && !MatmulShapesAgree(op.a, op.b, op.c))
    ensures a.Copy? ==> op.GlobalToLocal? || op.LocalToGlobal?
    ensures a.Multiply? ==> op.Matmul?
  {
    match op
    case GlobalToLocal(core, src, dst) =>
      if src.base !in env.inputs then NoSuchHandle
      else if !SameShape(src, dst) then MismatchedShapes
      else Copy(Transfer(env.inputs[src.base] / 4, src.dim1, src.dim0,
                         LocalCell(env, core, dst.base), dst.dim1, dst.dim0,
                         Max0(Count(src.dim1)), Max0(Count(src.dim0))))
    case LocalToGlobal(core, src, dst) =>
      if dst.base !in env.outputs then NoSuchHandle
      else if !SameShape(src, dst) then MismatchedShapes
      else Copy(Transfer(LocalCell(env, core, src.base), src.dim1, src.dim0,
                         env.outputs[dst.base] / 4, dst.dim1, dst.dim0,
                         Max0(Count(src.dim1)), Max0(Count(src.dim0))))
    case Matmul(core, _, a, b, c, acc) =>
      if !MatmulShapesAgree(a, b, c) then MismatchedShapes
      else Multiply(MatmulPlan(LocalCell(env, core, a.base), a.dim1, a.dim0,
                               LocalCell(env, core, b.base), b.dim1, b.dim0,
                               LocalCell(env, core, c.base), c.dim1, c.dim0,
                               Max0(Count(a.dim1)), Max0(Count(b.dim0)), Max0(Count(a.dim0)), acc))
    case StartParallel => NotExecutable
    case EndParallel => NotExecutable
  }

  /** The local byte offsets an instruction adds to its core's base are whole cells. */
  predicate LocalAligned(op: Op)
  {
    match op
    case GlobalToLocal(_, _, dst) => dst.base % 4 == 0
    case LocalToGlobal(_, src, _) => src.base % 4 == 0
    case Matmul(_, _, a, b, c, _) => a.base % 4 == 0 && b.base % 4 == 0 && c.base % 4 == 0
    case StartParallel => true
    case EndParallel => true
  }

  /** The C++ behaviour of the instruction is defined: no division by a zero
      stride, and an instruction that touches memory names an existing core
      (not the null base) and only cells inside the arena. */
  predicate Defined(env: Env, op: Op, len: int)
  {
    && CountsDefined(env, op)
    && match ActionOf(env, op)
       case Copy(t) => 0 <= op.core < env.numberOfCores && LocalAligned(op) && TransferInBounds(t, len)
       case Multiply(p) => 0 <= op.core < env.numberOfCores && LocalAligned(op) && MatmulInBounds(p, len)
       case _ => true
  }

  /** Memory after one instruction; an instruction that is skipped writes nothing. */
  function StepMem(mem: seq<int>, env: Env, op: Op): (res: seq<int>)
    requires Defined(env, op, |mem|)
    ensures |res| == |mem|
    ensures !ActionOf(env, op).Copy? && !ActionOf(env, op).Multiply? ==> res == mem
  {
    match ActionOf(env, op)
    case Copy(t) => RunTransfer(mem, t)
    case Multiply(p) => RunMatmul(mem, p)
    case _ => mem
  }

  predicate AllDefined(env: Env, ops: seq<Op>, len: int)
  {
    forall i :: 0 <= i < |ops| ==> Defined(env, ops[i], len)
  }

  /** Memory after running `ops` one after the other. */
  function RunAll(mem: seq<int>, env: Env, ops: seq<Op>): (res: seq<int>)
    requires AllDefined(env, ops, |mem|)
    ensures |res| == |mem|
  {
    if ops == [] then mem
    else StepMem(RunAll(mem, env, ops[..|ops| - 1]), env, ops[|ops| - 1])
  }

  lemma {:induction false} RunAllAppend(mem: seq<int>, env: Env, a: seq<Op>, b: seq<Op>)
    requires AllDefined(env, a + b, |mem|)
    ensures AllDefined(env, a, |mem|) && AllDefined(env, b, |mem|)
    ensures RunAll(mem, env, a + b) == RunAll(RunAll(mem, env, a), env, b)
    decreases |b|
  {
    assert forall i :: 0 <= i < |a| ==> (a + b)[i] == a[i];
    assert forall i :: 0 <= i < |b| ==> (a + b)[|a| + i] == b[i];
    if b == [] {
      assert a + b == a;
    } else {
      var b' := b[..|b| - 1];
      assert (a + b)[..|a + b| - 1] == a + b';
      RunAllAppend(mem, env, a, b');
    }
  }

  lemma RunAllSnoc(mem: seq<int>, env: Env, ops: seq<Op>, op: Op)
    requires AllDefined(env, ops + [op], |mem|)
    ensures AllDefined(env, ops, |mem|) && Defined(env, op, |mem|)
    ensures RunAll(mem, env, ops + [op]) == StepMem(RunAll(mem, env, ops), env, op)
  {
    assert (ops + [op])[..|ops|] == ops;
    assert forall i :: 0 <= i < |ops| ==> (ops + [op])[i] == ops[i];
    assert (ops + [op])[|ops|] == op;
  }

  /** `executeGlobalToLocalMemCopy`: from the input handle's region into
      the core's local segment; an unknown handle or a shape mismatch writes
      nothing. */
  method ExecuteGlobalToLocalMemCopy(sim: Simulator, core: int, src: SliceOperand, dst: SliceOperand)
    requires sim.Valid()
    requires Defined(EnvOf(sim), GlobalToLocal(core, src, dst), sim.memory.Length)
    modifies sim.memory
    ensures sim.memory[..] == StepMem(old(sim.memory[..]), EnvOf(sim), GlobalToLocal(core, src, dst))
  {
    var handleId := src.base;
    if handleId !in sim.inputHandleToMemoryLocMap {
      return;
    }
    var handleBase := sim.inputHandleToMemoryLocMap[handleId];
    var localBase := sim.LocalMemoryBase(core);
    var s1, s0, d1, d0 := src.dim1, src.dim0, dst.dim1, dst.dim0;
    var rowsSrc := TruncDiv(s1.end - s1.start, s1.stride);
    var colsSrc := TruncDiv(s0.end - s0.start, s0.stride);
    var rowsDst := TruncDiv(d1.end - d1.start, d1.stride);
    var colsDst := TruncDiv(d0.end - d0.start, d0.stride);
    if rowsSrc != rowsDst || colsSrc != colsDst {
      return;
    }
    var p := Transfer(handleBase / 4, s1, s0, (localBase.value + dst.base) / 4, d1, d0,
                      Max0(rowsSrc), Max0(colsSrc));
    CopyElements(sim.memory, p);
  }

  /** `executeLocalToGlobalMemCopy`: from the core's local segment into the
      output handle's region (the output table, not the input table). */
  method ExecuteLocalToGlobalMemCopy(sim: Simulator, core: int, src: SliceOperand, dst: SliceOperand)
    requires sim.Valid()
    requires Defined(EnvOf(sim), LocalToGlobal(core, src, dst), sim.memory.Length)
    modifies sim.memory
    ensures sim.memory[..] == StepMem(old(sim.memory[..]), EnvOf(sim), LocalToGlobal(core, src, dst))
  {
    var localBase := sim.LocalMemoryBase(core);
    var handleId := dst.base;
    if handleId !in sim.outputHandleToMemoryLocMap {
      return;
    }
    var globalBase := sim.outputHandleToMemoryLocMap[handleId];
    var s1, s0, d1, d0 := src.dim1, src.dim0, dst.dim1, dst.dim0;
    var rowsSrc := TruncDiv(s1.end - s1.start, s1.stride);
    var colsSrc := TruncDiv(s0.end - s0.start, s0.stride);
    var rowsDst := TruncDiv(d1.end - d1.start, d1.stride);
    var colsDst := TruncDiv(d0.end - d0.start, d0.stride);
    if rowsSrc != rowsDst || colsSrc != colsDst {
      return;
    }
    var p := Transfer((localBase.value + src.base) / 4, s1, s0, globalBase / 4, d1, d0,
                      Max0(rowsSrc), Max0(colsSrc));
    CopyElements(sim.memory, p);
  }

  /** `executeMatmul`: checks A.cols == B.rows, then C's shape, then runs the loop nest. */
  method ExecuteMatmul(sim: Simulator, core: int, mmUnit: int, a: SliceOperand, b: SliceOperand,
                       c: SliceOperand, accumulate: bool)
    requires sim.Valid()
    requires Defined(EnvOf(sim), Matmul(core, mmUnit, a, b, c, accumulate), sim.memory.Length)
    modifies sim.memory
    ensures sim.memory[..] == StepMem(old(sim.memory[..]), EnvOf(sim), Matmul(core, mmUnit, a, b, c, accumulate))
  {
    var coreLocalBase := sim.LocalMemoryBase(core);
    var M := TruncDiv(a.dim1.end - a.dim1.start, a.dim1.stride);
    var K := TruncDiv(a.dim0.end - a.dim0.start, a.dim0.stride);
    var K2 := TruncDiv(b.dim1.end - b.dim1.start, b.dim1.stride);
    var N := TruncDiv(b.dim0.end - b.dim0.start, b.dim0.stride);
    if K != K2 {
      return;
    }
    var M2 := TruncDiv(c.dim1.end - c.dim1.start, c.dim1.stride);
    var N2 := TruncDiv(c.dim0.end - c.dim0.start, c.dim0.stride);
    if M != M2 || N != N2 {
      return;
    }
    var base := coreLocalBase.value;
    var p := MatmulPlan((base + a.base) / 4, a.dim1, a.dim0, (base + b.base) / 4, b.dim1, b.dim0,
                        (base + c.base) / 4, c.dim1, c.dim0, Max0(M), Max0(N), Max0(K), accumulate);
    MultiplyElements(sim.memory, p);
  }

  /** `execute`: the three executable opcodes; anything else is "Unhandled op". */
  method Execute(sim: Simulator, op: Op) returns (r: Result<(), string>)
    requires sim.Valid()
    requires Defined(EnvOf(sim), op, sim.memory.Length)
    modifies sim.memory
    ensures r.Err? <==> op.IsMarker()
    ensures sim.memory[..] == StepMem(old(sim.memory[..]), EnvOf(sim), op)
  {
    match op
    case Matmul(core, unit, a, b, c, acc) =>
      ExecuteMatmul(sim, core, unit, a, b, c, acc);
      return Ok(());
    case GlobalToLocal(core, src, dst) =>
      ExecuteGlobalToLocalMemCopy(sim, core, src, dst);
      return Ok(());
    case LocalToGlobal(core, src, dst) =>
      ExecuteLocalToGlobalMemCopy(sim, core, src, dst);
      return Ok(());
    case StartParallel =>
      return Err("Unhandled op");
    case EndParallel =>
      return Err("Unhandled op");
  }

  // ---------------------------------------------------------------------
  // simulateInstructions
  // ---------------------------------------------------------------------

  /** The dispatcher's state after a prefix of the program: the instructions
      executed so far (in order), the parallel batch collected so far, and
      whether a `start_parallel` block is open. */
  datatype Dispatch = Dispatch(executed: seq<Op>, batch: seq<Op>, filling: bool)

  const Idle := Dispatch([], [], false)

  /** One instruction as the dispatcher handles it as written: inside a
      block it is only collected; `end_parallel` closes the block but
      neither runs nor clears the batch. */
  function DispatchStep(d: Dispatch, op: Op): Dispatch
  {
    match op
    case StartParallel => d.(filling := true)
    case EndParallel => d.(filling := false)
    case _ => if d.filling then d.(batch := d.batch + [op]) else d.(executed := d.executed + [op])
  }

  function DispatchAll(d: Dispatch, ops: seq<Op>): Dispatch
  {
    if ops == [] then d else DispatchStep(DispatchAll(d, ops[..|ops| - 1]), ops[|ops| - 1])
  }

  /** The corrected step: `end_parallel` runs the batch, in order, and clears it. */
  function FlushStep(d: Dispatch, op: Op): Dispatch
  {
    match op
    case EndParallel => Dispatch(d.executed + d.batch, [], false)
    case _ => DispatchStep(d, op)
  }

  function FlushAll(d: Dispatch, ops: seq<Op>): Dispatch
  {
    if ops == [] then d else FlushStep(FlushAll(d, ops[..|ops| - 1]), ops[|ops| - 1])
  }

  /** The program without its block markers. */
  function StripMarkers(ops: seq<Op>): (r: seq<Op>)
    ensures MarkerFree(r) && |r| <= |ops|
  {
    if ops == [] then []
    else if ops[|ops| - 1].IsMarker() then StripMarkers(ops[..|ops| - 1])
    else StripMarkers(ops[..|ops| - 1]) + [ops[|ops| - 1]]
  }

  lemma {:induction false} DispatchAllAppend(d: Dispatch, a: seq<Op>, b: seq<Op>)
    ensures DispatchAll(d, a + b) == DispatchAll(DispatchAll(d, a), b)
    ensures FlushAll(d, a + b) == FlushAll(FlushAll(d, a), b)
    decreases |b|
  {
    if b == [] {
      assert a + b == a;
    } else {
      assert (a + b)[..|a + b| - 1] == a + b[..|b| - 1];
      DispatchAllAppend(d, a, b[..|b| - 1]);
    }
  }

  /** Executed instructions are only ever appended to. */
  lemma {:induction false} DispatchExecutedGrows(d: Dispatch, ops: seq<Op>)
    ensures |d.executed| <= |DispatchAll(d, ops).executed|
    ensures DispatchAll(d, ops).executed[..|d.executed|] == d.executed
  {
    if ops != [] {
      DispatchExecutedGrows(d, ops[..|ops| - 1]);
    }
  }

  lemma {:induction false} FlushExecutedGrows(d: Dispatch, ops: seq<Op>)
    ensures |d.executed| <= |FlushAll(d, ops).executed|
    ensures FlushAll(d, ops).executed[..|d.executed|] == d.executed
  {
    if ops != [] {
      FlushExecutedGrows(d, ops[..|ops| - 1]);
    }
  }

  /** Without markers, the as-written dispatcher runs everything in order
      when no block is open and collects everything when one is. */
  lemma {:induction false} DispatchMarkerFree(d: Dispatch, ops: seq<Op>)
    requires MarkerFree(ops)
    ensures DispatchAll(d, ops) ==
      if d.filling then d.(batch := d.batch + ops) else d.(executed := d.executed + ops)
  {
    if ops != [] {
      var init := ops[..|ops| - 1];
      assert init + [ops[|ops| - 1]] == ops;
      DispatchMarkerFree(d, init);
    }
  }

  lemma {:induction false} FlushMarkerFree(d: Dispatch, ops: seq<Op>)
    requires MarkerFree(ops)
    ensures FlushAll(d, ops) ==
      if d.filling then d.(batch := d.batch + ops) else d.(executed := d.executed + ops)
  {
    if ops != [] {
      var init := ops[..|ops| - 1];
      assert init + [ops[|ops| - 1]] == ops;
      FlushMarkerFree(d, init);
    }
  }

  /** As written, a bracketed block only grows the batch. */
  lemma DispatchBracket(d: Dispatch, b: seq<Op>)
    requires MarkerFree(b)
    ensures DispatchAll(d, Bracket(b)) == Dispatch(d.executed, d.batch + b, false)
  {
    var inBlock := d.(filling := true);
    assert DispatchAll(d, [StartParallel]) == inBlock by {
      assert [StartParallel][..0] == [];
    }
    DispatchAllAppend(d, [StartParallel], b);
    DispatchMarkerFree(inBlock, b);
    DispatchAllAppend(d, [StartParallel] + b, [EndParallel]);
    assert [EndParallel][..0] == [];
  }

  /** With flushing, a bracketed block runs the pending batch and then the block. */
  lemma FlushBracket(d: Dispatch, b: seq<Op>)
    requires MarkerFree(b)
    ensures FlushAll(d, Bracket(b)) == Dispatch(d.executed + d.batch + b, [], false)
  {
    var inBlock := d.(filling := true);
    assert FlushAll(d, [StartParallel]) == inBlock by {
      assert [StartParallel][..0] == [];
    }
    DispatchAllAppend(d, [StartParallel], b);
    FlushMarkerFree(inBlock, b);
    DispatchAllAppend(d, [StartParallel] + b, [EndParallel]);
    assert [EndParallel][..0] == [];
  }

  /** As written, a program made only of parallel blocks executes nothing:
      every instruction ends in the batch, which is never dispatched. */
  lemma {:induction false} BracketedNeverRuns(blocks: seq<seq<Op>>)
    requires forall b :: b in blocks ==> MarkerFree(b)
    ensures DispatchAll(Idle, Bracketed(blocks)) == Dispatch([], Concat(blocks), false)
  {
    if blocks != [] {
      var init := blocks[..|blocks| - 1];
      var last := blocks[|blocks| - 1];
      assert forall b :: b in init ==> b in blocks;
      BracketedNeverRuns(init);
      DispatchAllAppend(Idle, Bracketed(init), Bracket(last));
      DispatchBracket(DispatchAll(Idle, Bracketed(init)), last);
    }
  }

  /** With flushing, a program made of parallel blocks executes every block,
      in program order, and leaves nothing pending. */
  lemma {:induction false} FlushedBlocksRunInOrder(blocks: seq<seq<Op>>)
    requires forall b :: b in blocks ==> MarkerFree(b)
    ensures FlushAll(Idle, Bracketed(blocks)) == Dispatch(Concat(blocks), [], false)
  {
    if blocks != [] {
      var init := blocks[..|blocks| - 1];
      var last := blocks[|blocks| - 1];
      assert forall b :: b in init ==> b in blocks;
      FlushedBlocksRunInOrder(init);
      assert Bracketed(blocks) == Bracketed(init) + Bracket(last);
      DispatchAllAppend(Idle, Bracketed(init), Bracket(last));
      var before := FlushAll(Idle, Bracketed(init));
      assert before == Dispatch(Concat(init), [], false);
      FlushBracket(before, last);
      assert Concat(blocks) == Concat(init) + last;
      assert before.executed + before.batch + last == Concat(blocks);
    }
  }

  /** With flushing, what has run followed by what is pending is always the
      program without its markers, and nothing is pending outside a block. */
  lemma {:induction false} FlushedRunsStripped(prog: seq<Op>)
    ensures FlushAll(Idle, prog).executed + FlushAll(Idle, prog).batch == StripMarkers(prog)
    ensures !FlushAll(Idle, prog).filling ==> FlushAll(Idle, prog).batch == []
  {
    if prog != [] {
      FlushedRunsStripped(prog[..|prog| - 1]);
    }
  }

  /** What has run after a prefix of the program is defined when what runs
      after the whole program is. */
  lemma DispatchedPrefixDefined(env: Env, prog: seq<Op>, i: nat, len: int)
    requires i <= |prog| && AllDefined(env, DispatchAll(Idle, prog).executed, len)
    ensures AllDefined(env, DispatchAll(Idle, prog[..i]).executed, len)
  {
    assert prog[..i] + prog[i..] == prog;
    DispatchAllAppend(Idle, prog[..i], prog[i..]);
    DispatchExecutedGrows(DispatchAll(Idle, prog[..i]), prog[i..]);
  }

  lemma FlushedPrefixDefined(env: Env, prog: seq<Op>, i: nat, len: int)
    requires i <= |prog| && AllDefined(env, FlushAll(Idle, prog).executed, len)
    ensures AllDefined(env, FlushAll(Idle, prog[..i]).executed, len)
  {
    assert prog[..i] + prog[i..] == prog;
    DispatchAllAppend(Idle, prog[..i], prog[i..]);
    FlushExecutedGrows(FlushAll(Idle, prog[..i]), prog[i..]);
  }

  /** `simulateInstructions` as written. Returns the batch still waiting to
      be dispatched: everything between `start_parallel` and `end_parallel`. */
  method SimulateInstructions(sim: Simulator, prog: seq<Op>) returns (pending: seq<Op>)
    requires sim.Valid()
    requires AllDefined(EnvOf(sim), DispatchAll(Idle, prog).executed, sim.memory.Length)
    modifies sim.memory
    ensures sim.memory[..] == RunAll(old(sim.memory[..]), EnvOf(sim), DispatchAll(Idle, prog).executed)
    ensures pending == DispatchAll(Idle, prog).batch
  {
    var parallelInstsToDispatch: seq<Op> := [];
    var fillToParallelDispatcher := false;
    ghost var executed: seq<Op> := [];
    ghost var env := EnvOf(sim);
    for i := 0 to |prog|
      invariant DispatchAll(Idle, prog[..i]) == Dispatch(executed, parallelInstsToDispatch, fillToParallelDispatcher)
      invariant AllDefined(env, executed, sim.memory.Length)
      invariant sim.memory[..] == RunAll(old(sim.memory[..]), env, executed)
    {
      var inst := prog[i];
      assert DispatchAll(Idle, prog[..i + 1]) == DispatchStep(DispatchAll(Idle, prog[..i]), inst) by {
        assert prog[..i + 1][..i] == prog[..i];
      }
      if inst.StartParallel? {
        fillToParallelDispatcher := true;
      } else if inst.EndParallel? {
        fillToParallelDispatcher := false;
      } else if fillToParallelDispatcher {
        parallelInstsToDispatch := parallelInstsToDispatch + [inst];
      } else {
        DispatchedPrefixDefined(env, prog, i + 1, sim.memory.Length);
        RunAllSnoc(old(sim.memory[..]), env, executed, inst);
        var _ := Execute(sim, inst);
        executed := executed + [inst];
      }
    }
    assert prog[..|prog|] == prog;
    pending := parallelInstsToDispatch;
  }

  /** Runs `batch` in order (the dispatch that `end_parallel` leaves empty). */
  method RunBatch(sim: Simulator, batch: seq<Op>)
    requires sim.Valid()
    requires AllDefined(EnvOf(sim), batch, sim.memory.Length)
    modifies sim.memory
    ensures sim.memory[..] == RunAll(old(sim.memory[..]), EnvOf(sim), batch)
  {
    for i := 0 to |batch|
      invariant sim.memory[..] == RunAll(old(sim.memory[..]), EnvOf(sim), batch[..i])
    {
      assert batch[..i + 1][..i] == batch[..i];
      var _ := Execute(sim, batch[i]);
    }
    assert batch[..|batch|] == batch;
  }

  lemma FlushAllStep(prog: seq<Op>, i: nat)
    requires i < |prog|
    ensures FlushAll(Idle, prog[..i + 1]) == FlushStep(FlushAll(Idle, prog[..i]), prog[i])
  {
    assert prog[..i + 1][..i] == prog[..i];
  }

  /** The corrected dispatcher: `end_parallel` runs the collected batch,
      one instruction after the other, and clears it. */
  method SimulateInstructionsFlushing(sim: Simulator, prog: seq<Op>) returns (pending: seq<Op>)
    requires sim.Valid()
    requires AllDefined(EnvOf(sim), FlushAll(Idle, prog).executed, sim.memory.Length)
    modifies sim.memory
    ensures sim.memory[..] == RunAll(old(sim.memory[..]), EnvOf(sim), FlushAll(Idle, prog).executed)
    ensures pending == FlushAll(Idle, prog).batch
  {
    var parallelInstsToDispatch: seq<Op> := [];
    var fillToParallelDispatcher := false;
    ghost var executed: seq<Op> := [];
    ghost var env := EnvOf(sim);
    for i := 0 to |prog|
      invariant FlushAll(Idle, prog[..i]) == Dispatch(executed, parallelInstsToDispatch, fillToParallelDispatcher)
      invariant AllDefined(env, executed, sim.memory.Length)
      invariant sim.memory[..] == RunAll(old(sim.memory[..]), env, executed)
    {
      var inst := prog[i];
      FlushAllStep(prog, i);
      if inst.StartParallel? {
        fillToParallelDispatcher := true;
      } else if inst.EndParallel? || !fillToParallelDispatcher {
        var now := if inst.EndParallel? then parallelInstsToDispatch else [inst];
        FlushedPrefixDefined(env, prog, i + 1, sim.memory.Length);
        assert FlushAll(Idle, prog[..i + 1]).executed == executed + now;
        RunAllAppend(old(sim.memory[..]), env, executed, now);
        RunBatch(sim, now);
        executed := executed + now;
        if inst.EndParallel? {
          fillToParallelDispatcher := false;
          parallelInstsToDispatch := [];
        }
      } else {
        parallelInstsToDispatch := parallelInstsToDispatch + [inst];
      }
    }
    assert prog[..|prog|] == prog;
    pending := parallelInstsToDispatch;
  }
}

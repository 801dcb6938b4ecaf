/** The instruction and operand model of include/ISA/Op.h, as closed datatypes.

    The C++ getters (`getStart`, `getBaseAddress`, `getDim1`, `asBool`,
    `getCoreNum`, ...) are the destructors of these datatypes, so each returns
    exactly the value it was built with by construction. */
module Isa {
  import opened Wrappers

  /** An affine index range `start:end:stride`. */
  datatype Dim = Dim(start: int, end: int, stride: int)

  /** A rank-2 strided view `<base, dim1, dim0>`; `dim1` indexes rows, `dim0` columns.
      `base` is a handle id or a local byte offset depending on the instruction. */
  datatype SliceOperand = Slice(base: int, dim1: Dim, dim0: Dim)

  /** The three opcodes of the OpCode enum; there is no parallel-marker opcode. */
  datatype OpCode = OpGlobalToLocal | OpLocalToGlobal | OpMatmul

  /** An instruction: the three concrete ops of the EPU back end (the
      `BoolOperand` of a matmul is its `accumulate` flag) and the two
      parallel-block markers. */
  datatype Op =
    | GlobalToLocal(core: int, src: SliceOperand, dst: SliceOperand)
    | LocalToGlobal(core: int, src: SliceOperand, dst: SliceOperand)
    | Matmul(core: int, mmUnit: int, a: SliceOperand, b: SliceOperand, c: SliceOperand, accumulate: bool)
    | StartParallel
    | EndParallel
  {
    predicate IsMarker() {
      StartParallel? || EndParallel?
    }
  }

  /** The OpCode an instruction carries; the markers carry none. */
  function OpCodeOf(op: Op): (r: Option<OpCode>)
    ensures r.None? <==> op.IsMarker()
    ensures r == Some(OpMatmul) <==> op.Matmul?
    ensures r == Some(OpGlobalToLocal) <==> op.GlobalToLocal?
    ensures r == Some(OpLocalToGlobal) <==> op.LocalToGlobal?
  {
    match op
    case GlobalToLocal(_, _, _) => Some(OpGlobalToLocal)
    case LocalToGlobal(_, _, _) => Some(OpLocalToGlobal)
    case Matmul(_, _, _, _, _, _) => Some(OpMatmul)
    case StartParallel => None
    case EndParallel => None
  }

  function Abs(x: int): int
  {
    if x < 0 then -x else x
  }

  /** C++ `/` on int: the quotient truncated toward zero, so the remainder
      `a - q * b` is smaller than `b` in magnitude and has the sign of `a`. */
  function TruncDiv(a: int, b: int): (q: int)
    requires b != 0
    ensures a >= 0 ==> 0 <= a - q * b < Abs(b)
    ensures a < 0 ==> -Abs(b) < a - q * b <= 0
  {
    var m := Abs(a) / Abs(b);
    var r := if (a < 0) == (b < 0) then m else -m;
    TruncDivProduct(a, b, m, r);
    r
  }

  lemma TruncDivProduct(a: int, b: int, m: int, r: int)
    requires b != 0 && m == Abs(a) / Abs(b)
    requires r == if (a < 0) == (b < 0) then m else -m
    ensures a >= 0 ==> 0 <= a - r * b < Abs(b)
    ensures a < 0 ==> -Abs(b) < a - r * b <= 0
  {
    var n, d := Abs(a), Abs(b);
    assert n == m * d + n % d;
    assert r * b == if a < 0 then -(m * d) else m * d by {
      if b < 0 {
        assert b == -d;
        if a < 0 { assert r * b == m * -d; } else { assert r * b == (-m) * (-d); }
      } else {
        assert b == d;
      }
    }
  }

  /** The element count `(end - start) / stride` used by every instruction. */
  function Count(d: Dim): int
    requires d.stride != 0
  {
    TruncDiv(d.end - d.start, d.stride)
  }

  /** The single addressing function of the simulator: the element offset of
      logical position (r, c) of a slice, with the row pitch taken from
      `dim0.end`, as EPUSimulator.cpp does. */
  function ElementOffset(dim1: Dim, dim0: Dim, r: int, c: int): int
  {
    (dim1.start + r * dim1.stride) * dim0.end + dim0.start + c * dim0.stride
  }

  /** A parallel block: `start_parallel`, the instructions, `end_parallel`. */
  function Bracket(ops: seq<Op>): seq<Op>
  {
    [StartParallel] + ops + [EndParallel]
  }

  predicate MarkerFree(ops: seq<Op>)
  {
    forall i :: 0 <= i < |ops| ==> !ops[i].IsMarker()
  }

  /** A program made of parallel blocks, in order. */
  function Bracketed(blocks: seq<seq<Op>>): seq<Op>
  {
    if blocks == [] then [] else Bracketed(blocks[..|blocks| - 1]) + Bracket(blocks[|blocks| - 1])
  }

  function Concat(blocks: seq<seq<Op>>): seq<Op>
  {
    if blocks == [] then [] else Concat(blocks[..|blocks| - 1]) + blocks[|blocks| - 1]
  }
}

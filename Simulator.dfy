/** The simulator base class of include/Simulator/Simulator.h and
    lib/Simulator/Simulator.cpp: one memory arena (the global segment, then
    every core's local segment), a bump allocator over the global segment,
    and the input/output handle tables.

    The arena is modelled in 4-byte cells (one float each, the floats being
    modelled as integers): byte offsets and byte counts are multiples of 4,
    and the byte offset `b` is the cell `b / 4`. */
module Simulator {
  import opened Wrappers
  import opened Target

  datatype SimError =
    | OutOfGlobalMemory   // "No space in global memory"
    | InvalidShape        // the rank-2 shape assertion
    | UnknownHandle       // "Unknown output handle ID"

  /** A block of the global segment handed out by the allocator, in bytes. */
  datatype Region = Region(offset: int, numBytes: int)

  /** The regions lie end to end from offset 0 up to `end`. */
  ghost predicate Contiguous(regions: seq<Region>, end: int)
  {
    if regions == [] then end == 0
    else
      var last := regions[|regions| - 1];
      last.numBytes >= 0 && end == last.offset + last.numBytes
      && Contiguous(regions[..|regions| - 1], last.offset)
  }

  /** Contiguous regions are pairwise disjoint, in order, and inside `[0, end)`:
      successive registrations never share a byte. */
  lemma {:induction false} ContiguousDisjoint(regions: seq<Region>, end: int)
    requires Contiguous(regions, end)
    ensures end >= 0
    ensures forall i :: 0 <= i < |regions| ==>
      0 <= regions[i].offset && regions[i].offset + regions[i].numBytes <= end
    ensures forall i, j :: 0 <= i < j < |regions| ==>
      regions[i].offset + regions[i].numBytes <= regions[j].offset
  {
    if regions != [] {
      var init := regions[..|regions| - 1];
      ContiguousDisjoint(init, regions[|regions| - 1].offset);
      assert forall i :: 0 <= i < |init| ==> regions[i] == init[i];
    }
  }

  lemma ContiguousAppend(regions: seq<Region>, end: int, numBytes: int)
    requires Contiguous(regions, end) && numBytes >= 0
    ensures Contiguous(regions + [Region(end, numBytes)], end + numBytes)
  {
    assert (regions + [Region(end, numBytes)])[..|regions|] == regions;
  }

  /** `memcpy(mem + at, data, ...)`: the cells from `at` on replaced by `data`. */
  function Overwrite(mem: seq<int>, at: int, data: seq<int>): (r: seq<int>)
    requires 0 <= at && at + |data| <= |mem|
    ensures |r| == |mem|
  {
    mem[..at] + data + mem[at + |data|..]
  }

  /** What was written is read back, and nothing outside it changed. */
  lemma OverwriteRead(mem: seq<int>, at: int, data: seq<int>)
    requires 0 <= at && at + |data| <= |mem|
    ensures Overwrite(mem, at, data)[at..at + |data|] == data
    ensures forall i :: 0 <= i < |mem| && !(at <= i < at + |data|) ==> Overwrite(mem, at, data)[i] == mem[i]
  {
    var r := Overwrite(mem, at, data);
    assert r[at..at + |data|] == data by {
      forall i | 0 <= i < |data| ensures r[at + i] == data[i] {
      }
    }
  }

  /** The byte offset of core `coreId`'s local segment in an arena whose
      global segment has `g` bytes and whose cores have `l` bytes each. */
  function SegmentBase(g: int, l: int, coreId: int): int
  {
    g + coreId * l
  }

  /** The global segment is `[0, g)`; core segments follow it, one after the
      other, pairwise disjoint, and the last one ends at the arena's end. */
  lemma SegmentLayout(g: int, l: int, n: int, i: int, j: int)
    requires g >= 0 && l >= 0 && 0 <= i < n && 0 <= j < n
    ensures g <= SegmentBase(g, l, i)
    ensures SegmentBase(g, l, i) + l <= g + l * n
    ensures i < j ==> SegmentBase(g, l, i) + l <= SegmentBase(g, l, j)
  {
    assert i * l + l == (i + 1) * l;
    assert (i + 1) * l <= n * l;
    if i < j {
      assert (i + 1) * l <= j * l;
    }
  }

  lemma CellMultiple(l: int, n: nat)
    requires l >= 0 && l % 4 == 0
    ensures l * n >= 0 && (l * n) % 4 == 0
  {
    var q := l / 4;
    assert l * n == 4 * (q * n);
  }

  /** An arena of `g` global bytes and `n` segments of `l` bytes is a whole
      number of cells. */
  lemma ArenaCells(g: int, l: int, n: nat)
    requires g >= 0 && g % 4 == 0 && l >= 0 && l % 4 == 0
    ensures g + l * n >= 0 && (g + l * n) % 4 == 0 && (g + l * n) / 4 * 4 == g + l * n
  {
    CellMultiple(l, n);
  }

  /** A 4-aligned byte range of `count` cells ending by `limit <= 4 * cells`
      is a range of cells inside an array of `cells` cells. */
  lemma CellsWithin(at: int, count: int, limit: int, cells: int)
    requires 0 <= at && at % 4 == 0 && count >= 0 && at + 4 * count <= limit && limit <= 4 * cells
    ensures 0 <= at / 4 && at / 4 + count <= cells
  {
  }

  class Simulator {
    const processor: Processor
    const globalMemorySize: int
    const localMemoryPerCore: int
    const numberOfCores: int
    const totalMemorySize: int
    /** Whether the build checks its `assert`s (the rank-2 shape assertion). */
    const assertionsEnabled: bool
    /** The arena, one cell per 4 bytes. */
    const memory: array<int>

    var nextFreeGlobalMemoryOffset: int
    var inputHandleToMemoryLocMap: map<int, int>
    var inputHandleToShapeMap: map<int, seq<int>>
    var outputHandleToMemoryLocMap: map<int, int>
    var outputHandleToShapeMap: map<int, seq<int>>
    /** The regions handed out so far, in order. */
    ghost var allocations: seq<Region>

    ghost predicate Valid()
      reads this
    {
      && globalMemorySize >= 0 && localMemoryPerCore >= 0 && numberOfCores >= 0
      && globalMemorySize % 4 == 0 && localMemoryPerCore % 4 == 0
      && totalMemorySize == globalMemorySize + localMemoryPerCore * numberOfCores
      && memory.Length * 4 == totalMemorySize
      && 0 <= nextFreeGlobalMemoryOffset <= globalMemorySize
      && nextFreeGlobalMemoryOffset % 4 == 0
      && Contiguous(allocations, nextFreeGlobalMemoryOffset)
      && (forall h :: h in inputHandleToMemoryLocMap ==>
            0 <= inputHandleToMemoryLocMap[h] <= nextFreeGlobalMemoryOffset && inputHandleToMemoryLocMap[h] % 4 == 0)
      && (forall h :: h in outputHandleToMemoryLocMap ==>
            0 <= outputHandleToMemoryLocMap[h] <= nextFreeGlobalMemoryOffset && outputHandleToMemoryLocMap[h] % 4 == 0)
    }

    /** Sizes the arena from the processor: the global memory plus one local
        segment per core (a processor without cores has no local memory). */
    constructor(proc: Processor, assertionsEnabled: bool)
      requires proc.globalMemory >= 0 && proc.globalMemory % 4 == 0
      requires NumberOfCores(proc) > 0 ==> LocalMemoryPerCore(proc) >= 0 && LocalMemoryPerCore(proc) % 4 == 0
      ensures Valid() && fresh(memory)
      ensures processor == proc && this.assertionsEnabled == assertionsEnabled
      ensures globalMemorySize == proc.globalMemory
      ensures numberOfCores == NumberOfCores(proc)
      ensures localMemoryPerCore == if NumberOfCores(proc) > 0 then LocalMemoryPerCore(proc) else 0
      ensures totalMemorySize == globalMemorySize + localMemoryPerCore * numberOfCores
      ensures nextFreeGlobalMemoryOffset == 0 && allocations == []
      ensures inputHandleToMemoryLocMap == map[] && inputHandleToShapeMap == map[]
      ensures outputHandleToMemoryLocMap == map[] && outputHandleToShapeMap == map[]
    {
      processor := proc;
      this.assertionsEnabled := assertionsEnabled;
      globalMemorySize := proc.globalMemory;
      numberOfCores := NumberOfCores(proc);
      var l := if NumberOfCores(proc) > 0 then LocalMemoryPerCore(proc) else 0;
      localMemoryPerCore := l;
      var total := proc.globalMemory + l * NumberOfCores(proc);
      totalMemorySize := total;
      ArenaCells(proc.globalMemory, l, NumberOfCores(proc));
      memory := new int[total / 4];
      nextFreeGlobalMemoryOffset := 0;
      inputHandleToMemoryLocMap := map[];
      inputHandleToShapeMap := map[];
      outputHandleToMemoryLocMap := map[];
      outputHandleToShapeMap := map[];
      allocations := [];
    }

    /** `getLocalMemoryBaseAddress`: the byte offset of a core's local
        segment, or none (the null pointer) for a core id out of range. */
    function LocalMemoryBase(coreId: int): (r: Option<int>)
    {
      if coreId < 0 || coreId >= numberOfCores then None
      else Some(SegmentBase(globalMemorySize, localMemoryPerCore, coreId))
    }

    /** Every valid core's segment lies after the global segment and inside
        the arena, and different cores' segments are disjoint. */
    lemma LocalMemoryBaseLayout(i: int, j: int)
      requires Valid()
      ensures LocalMemoryBase(i).Some? <==> 0 <= i < numberOfCores
      ensures LocalMemoryBase(i).Some? ==>
        globalMemorySize <= LocalMemoryBase(i).value
        && LocalMemoryBase(i).value + localMemoryPerCore <= totalMemorySize
      ensures LocalMemoryBase(i).Some? && LocalMemoryBase(j).Some? && i < j ==>
        LocalMemoryBase(i).value + localMemoryPerCore <= LocalMemoryBase(j).value
    {
      if 0 <= i < numberOfCores {
        SegmentLayout(globalMemorySize, localMemoryPerCore, numberOfCores, i, if 0 <= j < numberOfCores then j else i);
      }
    }

    /** `registerInputHandle`: fails with nothing changed when the data does
        not fit after `nextFree` (or, with assertions, when the shape is not
        rank 2); otherwise copies the data there, records the handle's offset
        and shape (replacing an earlier registration of the same id) and
        advances `nextFree` past it. */
    method RegisterInputHandle(handleId: int, rawData: seq<int>, numBytes: int, shape: seq<int>)
      returns (r: Result<(), SimError>)
      requires Valid()
      requires numBytes >= 0 && numBytes % 4 == 0 && |rawData| * 4 == numBytes
      modifies this, memory
      ensures Valid()
      ensures r == Err(OutOfGlobalMemory) <==> old(nextFreeGlobalMemoryOffset) + numBytes > globalMemorySize
      ensures r == Err(InvalidShape) <==>
        old(nextFreeGlobalMemoryOffset) + numBytes <= globalMemorySize && assertionsEnabled && |shape| != 2
      ensures r.Ok? <==>
        old(nextFreeGlobalMemoryOffset) + numBytes <= globalMemorySize && !(assertionsEnabled && |shape| != 2)
      ensures r.Err? ==> unchanged(this) && unchanged(memory)
      ensures r.Ok? ==>
        && memory[..] == Overwrite(old(memory[..]), old(nextFreeGlobalMemoryOffset) / 4, rawData)
        && inputHandleToMemoryLocMap == old(inputHandleToMemoryLocMap)[handleId := old(nextFreeGlobalMemoryOffset)]
        && inputHandleToShapeMap == old(inputHandleToShapeMap)[handleId := shape]
        && nextFreeGlobalMemoryOffset == old(nextFreeGlobalMemoryOffset) + numBytes
        && allocations == old(allocations) + [Region(old(nextFreeGlobalMemoryOffset), numBytes)]
        && outputHandleToMemoryLocMap == old(outputHandleToMemoryLocMap)
        && outputHandleToShapeMap == old(outputHandleToShapeMap)
    {
      if nextFreeGlobalMemoryOffset + numBytes > globalMemorySize {
        return Err(OutOfGlobalMemory);
      }
      if assertionsEnabled && |shape| != 2 {
        return Err(InvalidShape);
      }
      GlobalWithinArena();
      CellsWithin(nextFreeGlobalMemoryOffset, |rawData|, globalMemorySize, memory.Length);
      WriteCells(nextFreeGlobalMemoryOffset / 4, rawData);
      var at := Allocate(numBytes);
      inputHandleToMemoryLocMap := inputHandleToMemoryLocMap[handleId := at];
      inputHandleToShapeMap := inputHandleToShapeMap[handleId := shape];
      return Ok(());
    }

    /** Registering an input and then retrieving it with the same byte count
        gives back the registered data. */
    method RegisterThenRetrieveInput(handleId: int, rawData: seq<int>, numBytes: int, shape: seq<int>)
      returns (reg: Result<(), SimError>, data: Result<seq<int>, SimError>)
      requires Valid()
      requires numBytes >= 0 && numBytes % 4 == 0 && |rawData| * 4 == numBytes
      modifies this, memory
      ensures Valid()
      ensures reg.Ok? <==>
        old(nextFreeGlobalMemoryOffset) + numBytes <= globalMemorySize && !(assertionsEnabled && |shape| != 2)
      ensures reg.Ok? ==> data == Ok(rawData)
      ensures reg.Err? ==> data == Err(reg.error) && unchanged(this) && unchanged(memory)
    {
      reg := RegisterInputHandle(handleId, rawData, numBytes, shape);
      if reg.Err? {
        return reg, Err(reg.error);
      }
      GlobalWithinArena();
      data := RetrieveInputData(handleId, numBytes);
      OverwriteRead(old(memory[..]), old(nextFreeGlobalMemoryOffset) / 4, rawData);
    }

    /** The bump allocation shared by both registrations: the region at
        `nextFree`, after which `nextFree` moves past it. */
    method Allocate(numBytes: int) returns (at: int)
      requires Valid()
      requires numBytes >= 0 && numBytes % 4 == 0 && nextFreeGlobalMemoryOffset + numBytes <= globalMemorySize
      modifies this
      ensures Valid()
      ensures at == old(nextFreeGlobalMemoryOffset)
      ensures nextFreeGlobalMemoryOffset == old(nextFreeGlobalMemoryOffset) + numBytes
      ensures allocations == old(allocations) + [Region(at, numBytes)]
      ensures inputHandleToMemoryLocMap == old(inputHandleToMemoryLocMap)
      ensures inputHandleToShapeMap == old(inputHandleToShapeMap)
      ensures outputHandleToMemoryLocMap == old(outputHandleToMemoryLocMap)
      ensures outputHandleToShapeMap == old(outputHandleToShapeMap)
    {
      at := nextFreeGlobalMemoryOffset;
      ContiguousAppend(allocations, at, numBytes);
      allocations := allocations + [Region(at, numBytes)];
      nextFreeGlobalMemoryOffset := at + numBytes;
    }

    /** The global segment lies inside the arena. */
    lemma GlobalWithinArena()
      requires Valid()
      ensures 0 <= globalMemorySize <= memory.Length * 4
    {
      CellMultiple(localMemoryPerCore, numberOfCores);
    }

    /** The `memcpy` into the arena: `data` written from cell `at` on. */
    method WriteCells(at: int, data: seq<int>)
      requires 0 <= at && at + |data| <= memory.Length
      modifies memory
      ensures memory[..] == Overwrite(old(memory[..]), at, data)
    {
      forall i | 0 <= i < |data| {
        memory[at + i] := data[i];
      }
      assert memory[..] == Overwrite(old(memory[..]), at, data);
    }

    /** `registerOutputHandle`: like an input registration, but writes no memory. */
    method RegisterOutputHandle(handleId: int, numBytes: int, shape: seq<int>)
      returns (r: Result<(), SimError>)
      requires Valid()
      requires numBytes >= 0 && numBytes % 4 == 0
      modifies this
      ensures Valid()
      ensures r == Err(OutOfGlobalMemory) <==> old(nextFreeGlobalMemoryOffset) + numBytes > globalMemorySize
      ensures r == Err(InvalidShape) <==>
        old(nextFreeGlobalMemoryOffset) + numBytes <= globalMemorySize && assertionsEnabled && |shape| != 2
      ensures r.Ok? <==>
        old(nextFreeGlobalMemoryOffset) + numBytes <= globalMemorySize && !(assertionsEnabled && |shape| != 2)
      ensures r.Err? ==> unchanged(this)
      ensures r.Ok? ==>
        && outputHandleToMemoryLocMap == old(outputHandleToMemoryLocMap)[handleId := old(nextFreeGlobalMemoryOffset)]
        && outputHandleToShapeMap == old(outputHandleToShapeMap)[handleId := shape]
        && nextFreeGlobalMemoryOffset == old(nextFreeGlobalMemoryOffset) + numBytes
        && allocations == old(allocations) + [Region(old(nextFreeGlobalMemoryOffset), numBytes)]
        && inputHandleToMemoryLocMap == old(inputHandleToMemoryLocMap)
        && inputHandleToShapeMap == old(inputHandleToShapeMap)
    {
      if nextFreeGlobalMemoryOffset + numBytes > globalMemorySize {
        return Err(OutOfGlobalMemory);
      }
      if assertionsEnabled && |shape| != 2 {
        return Err(InvalidShape);
      }
      var at := Allocate(numBytes);
      outputHandleToMemoryLocMap := outputHandleToMemoryLocMap[handleId := at];
      outputHandleToShapeMap := outputHandleToShapeMap[handleId := shape];
      return Ok(());
    }

    /** `retrieveLocalMemoryData`: the cells at `globalMemorySize +
        coreNum * localMemoryPerCore + offset`, with no check of the core id
        or of the segment's end (only the arena's end is required). */
    method RetrieveLocalMemoryData(coreNum: int, offset: int, numBytes: int) returns (data: seq<int>)
      requires Valid()
      requires offset % 4 == 0 && numBytes >= 0 && numBytes % 4 == 0
      requires 0 <= SegmentBase(globalMemorySize, localMemoryPerCore, coreNum) + offset
      requires (SegmentBase(globalMemorySize, localMemoryPerCore, coreNum) + offset + numBytes) / 4 <= memory.Length
      ensures |data| * 4 == numBytes
      ensures data == memory[(SegmentBase(globalMemorySize, localMemoryPerCore, coreNum) + offset) / 4 ..
                             (SegmentBase(globalMemorySize, localMemoryPerCore, coreNum) + offset) / 4 + numBytes / 4]
    {
      var memOffset := (globalMemorySize + (coreNum * localMemoryPerCore)) + offset;
      data := memory[memOffset / 4 .. memOffset / 4 + numBytes / 4];
    }

    /** `retrieveInputData`: the recorded region's first `numBytes`, or an
        error for an id that was never registered as an input. */
    method RetrieveInputData(handleId: int, numBytes: int) returns (r: Result<seq<int>, SimError>)
      requires Valid()
      requires numBytes >= 0 && numBytes % 4 == 0
      requires handleId in inputHandleToMemoryLocMap ==>
        (inputHandleToMemoryLocMap[handleId] + numBytes) / 4 <= memory.Length
      ensures r.Err? <==> handleId !in inputHandleToMemoryLocMap
      ensures r.Err? ==> r.error == UnknownHandle
      ensures r.Ok? ==> r.value == memory[inputHandleToMemoryLocMap[handleId] / 4 ..
                                          inputHandleToMemoryLocMap[handleId] / 4 + numBytes / 4]
    {
      if handleId !in inputHandleToMemoryLocMap {
        return Err(UnknownHandle);
      }
      var memOffset := inputHandleToMemoryLocMap[handleId];
      return Ok(memory[memOffset / 4 .. memOffset / 4 + numBytes / 4]);
    }

    /** `retrieveOutputData`: the same over the output table. */
    method RetrieveOutputData(handleId: int, numBytes: int) returns (r: Result<seq<int>, SimError>)
      requires Valid()
      requires numBytes >= 0 && numBytes % 4 == 0
      requires handleId in outputHandleToMemoryLocMap ==>
        (outputHandleToMemoryLocMap[handleId] + numBytes) / 4 <= memory.Length
      ensures r.Err? <==> handleId !in outputHandleToMemoryLocMap
      ensures r.Err? ==> r.error == UnknownHandle
      ensures r.Ok? ==> r.value == memory[outputHandleToMemoryLocMap[handleId] / 4 ..
                                          outputHandleToMemoryLocMap[handleId] / 4 + numBytes / 4]
    {
      if handleId !in outputHandleToMemoryLocMap {
        return Err(UnknownHandle);
      }
      var memOffset := outputHandleToMemoryLocMap[handleId];
      return Ok(memory[memOffset / 4 .. memOffset / 4 + numBytes / 4]);
    }
  }
}

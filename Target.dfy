/** The processor description of include/Target/Processor.h and the
    `create_target` builder of lib/utils/Utils.cpp. */
module Target {
  import opened Wrappers

  datatype MatmulUnit = MatmulUnit(id: int, tileM: int, tileN: int, tileK: int)

  datatype ComputeCore = ComputeCore(id: int, localMemory: int, matmulUnits: seq<MatmulUnit>)

  datatype Processor = Processor(name: string, globalMemory: int, computeCores: seq<ComputeCore>)

  function NumberOfCores(p: Processor): nat
  {
    |p.computeCores|
  }

  /** The first core's local memory; 0 when the processor has no core. */
  function LocalMemoryPerCore(p: Processor): int
  {
    if |p.computeCores| > 0 then p.computeCores[0].localMemory else 0
  }

  function Max0(n: int): nat
  {
    if n < 0 then 0 else n
  }

  /** `std::vector::reserve` of a negative count: the count converts to a
      `size_t` above `max_size()`, and `reserve` throws `std::length_error`. */
  datatype TargetError = LengthError

  /** Builds `numberOfMmUnitsPerCore` units (unit i has id i and tiles
      [0]=M, [1]=N, [2]=K), then `numberOfComputeCores` cores (core i has id i,
      the given local memory and that same unit list). A negative count fails
      at its `reserve`. */
  method CreateTarget(name: string, globalMemory: int, numberOfComputeCores: int,
                      localMemoryPerCore: int, numberOfMmUnitsPerCore: int,
                      mmTileSizes: (int, int, int))
    returns (r: Result<Processor, TargetError>)
    ensures r.Err? <==> numberOfMmUnitsPerCore < 0 || numberOfComputeCores < 0
    ensures r.Ok? ==> r.value.name == name && r.value.globalMemory == globalMemory
    ensures r.Ok? ==> NumberOfCores(r.value) == numberOfComputeCores
    ensures r.Ok? ==> forall i :: 0 <= i < |r.value.computeCores| ==>
              r.value.computeCores[i].id == i && r.value.computeCores[i].localMemory == localMemoryPerCore
    ensures r.Ok? ==> forall i :: 0 <= i < |r.value.computeCores| ==>
              r.value.computeCores[i].matmulUnits == r.value.computeCores[0].matmulUnits
    ensures r.Ok? ==> forall i :: 0 <= i < |r.value.computeCores| ==>
              |r.value.computeCores[i].matmulUnits| == numberOfMmUnitsPerCore
    ensures r.Ok? ==> forall i, j :: 0 <= i < |r.value.computeCores| && 0 <= j < |r.value.computeCores[i].matmulUnits| ==>
              r.value.computeCores[i].matmulUnits[j] == MatmulUnit(j, mmTileSizes.0, mmTileSizes.1, mmTileSizes.2)
    ensures r.Ok? ==> LocalMemoryPerCore(r.value) == if numberOfComputeCores > 0 then localMemoryPerCore else 0
  {
    if numberOfMmUnitsPerCore < 0 {
      return Err(LengthError);
    }
    var mmUnits: seq<MatmulUnit> := [];
    var i := 0;
    while i < numberOfMmUnitsPerCore
      invariant 0 <= i == |mmUnits| <= numberOfMmUnitsPerCore
      invariant forall j :: 0 <= j < i ==> mmUnits[j] == MatmulUnit(j, mmTileSizes.0, mmTileSizes.1, mmTileSizes.2)
    {
      mmUnits := mmUnits + [MatmulUnit(i, mmTileSizes.0, mmTileSizes.1, mmTileSizes.2)];
      i := i + 1;
    }

    if numberOfComputeCores < 0 {
      return Err(LengthError);
    }
    var computeCores: seq<ComputeCore> := [];
    i := 0;
    while i < numberOfComputeCores
      invariant 0 <= i == |computeCores| <= numberOfComputeCores
      invariant forall j :: 0 <= j < i ==> computeCores[j] == ComputeCore(j, localMemoryPerCore, mmUnits)
    {
      computeCores := computeCores + [ComputeCore(i, localMemoryPerCore, mmUnits)];
      i := i + 1;
    }
    r := Ok(Processor(name, globalMemory, computeCores));
  }
}

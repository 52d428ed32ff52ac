/**
 * A Direct3D buffer wrapper: the descriptor `initialize` and `initializeEx`
 * build from a buffer type, a usage and an element count and size, the
 * pipeline stages `setBuffer`/`unsetBuffer` bind, and the mapping request
 * of `map`. The device calls themselves are outside the model: the model
 * states the descriptor handed to the device and the call made, and the
 * device's answer is a parameter where the source passes it on.
 */
module Buffer {
  import opened Wrappers
  import opened Bytes

  datatype BufferType =
    | VertexBuffer | IndexBuffer | ConstantBufferVS | ConstantBufferGS | ConstantBufferPS
    | BufferTypeCount | ConstantBufferAll | StagingBuffer | StructuredBuffer
    | OtherType(code: int)

  datatype Usage =
    | BufferDefault | BufferStreamOutTarget | BufferCpuWrite | BufferCpuWriteDiscard | BufferCpuRead
    | BufferUsageCount | BufferUsageImmutable | BufferStaging
    | OtherUsage(code: int)

  /** The position of a usage in its enumeration, which is what `map` passes on as the mapping kind. */
  function UsageOrdinal(u: Usage): int
  {
    match u
    case BufferDefault => 0
    case BufferStreamOutTarget => 1
    case BufferCpuWrite => 2
    case BufferCpuWriteDiscard => 3
    case BufferCpuRead => 4
    case BufferUsageCount => 5
    case BufferUsageImmutable => 6
    case BufferStaging => 7
    case OtherUsage(c) => c
  }

  datatype BindFlag = BindVertexBuffer | BindIndexBuffer | BindConstantBuffer | BindStreamOutput
                    | BindUnorderedAccess | BindShaderResource

  /** The device usage of a descriptor; `UsageLeftUnset` is a field the source never writes. */
  datatype DeviceUsage = UsageDefault | UsageDynamic | UsageStaging | UsageImmutable | UsageLeftUnset

  datatype CpuAccess = CpuAccessRead | CpuAccessWrite

  datatype Descriptor = Descriptor(bind: set<BindFlag>, usage: DeviceUsage, cpuAccess: set<CpuAccess>,
                                   structured: bool, byteWidth: uint32, stride: uint32)

  /** What an initialisation does: return S_FALSE before any device call, throw, or create a buffer. */
  datatype InitOutcome = Unsupported | Rejected(message: string) | Create(descriptor: Descriptor, withData: bool)

  const CPU_READ_REJECTED: string := "Cannot set cpu read to other than staging buffer"

  /** The type switch: bind flags per type, `None` for a type the switch does not list. */
  function TypeBind(t: BufferType, u: Usage, ex: bool): (r: Option<set<BindFlag>>)
    ensures r.None? <==> t.OtherType? || (t == StructuredBuffer && !ex)
    ensures t == VertexBuffer ==> r == Some({BindVertexBuffer} + if u == BufferStreamOutTarget then {BindStreamOutput} else {})
  {
    match t
    case VertexBuffer => Some({BindVertexBuffer} + if u == BufferStreamOutTarget then {BindStreamOutput} else {})
    case IndexBuffer => Some({BindIndexBuffer})
    case ConstantBufferVS => Some({BindConstantBuffer})
    case ConstantBufferGS => Some({BindConstantBuffer})
    case ConstantBufferPS => Some({BindConstantBuffer})
    case BufferTypeCount => Some({BindConstantBuffer})
    case ConstantBufferAll => Some({BindConstantBuffer})
    case StagingBuffer => Some({})
    case StructuredBuffer => if ex then Some({}) else None
    case OtherType(_) => None
  }

  /** The usage switch: device usage and CPU access, or the exception for CPU read on a non-staging buffer. */
  function UsageAccess(t: BufferType, u: Usage): (r: Result<(DeviceUsage, set<CpuAccess>), string>)
    ensures r.Err? <==> u == BufferCpuRead && t != StagingBuffer
    ensures r.Err? ==> r.error == CPU_READ_REJECTED
    ensures r.Ok? && CpuAccessRead in r.value.1 ==> u == BufferCpuRead && t == StagingBuffer
    ensures u in {BufferCpuWrite, BufferCpuWriteDiscard} ==> r == Ok((UsageDynamic, {CpuAccessWrite}))
  {
    match u
    case BufferDefault => Ok((UsageDefault, {}))
    case BufferStreamOutTarget => Ok((UsageDefault, {}))
    case BufferCpuWrite => Ok((UsageDynamic, {CpuAccessWrite}))
    case BufferCpuWriteDiscard => Ok((UsageDynamic, {CpuAccessWrite}))
    case BufferCpuRead => if t != StagingBuffer then Err(CPU_READ_REJECTED) else Ok((UsageStaging, {CpuAccessRead}))
    case BufferUsageCount => Ok((UsageDefault, {}))
    case BufferUsageImmutable => Ok((UsageImmutable, {}))
    case BufferStaging => Ok((UsageLeftUnset, {}))
    case OtherUsage(_) => Ok((UsageLeftUnset, {}))
  }

  /** `initialize`'s byte width: rounded up to a multiple of 16 in `UINT` arithmetic. */
  function RoundUp16(w: uint32): uint32
  {
    (((w as int + 15) % TWO32) / 16 * 16) as uint32
  }

  /** The least multiple of 16 not below w, unless w is so close to 2^32 that the addition wraps to 0. */
  lemma RoundUp16Spec(w: uint32)
    ensures w as int <= TWO32 - 16 ==> RoundUp16(w) as int % 16 == 0 && w as int <= RoundUp16(w) as int < w as int + 16
    ensures w as int > TWO32 - 16 ==> RoundUp16(w) == 0
  {
  }

  /** `initializeEx`'s byte width: w + (16 - w mod 16), in `UINT` arithmetic. */
  function RoundPast16(w: uint32): uint32
  {
    Uint32Of(w as int + (16 - w as int % 16))
  }

  /** The least multiple of 16 strictly above w (so an exact multiple gains 16 bytes). */
  lemma RoundPast16Spec(w: uint32)
    requires w as int < TWO32 - 16
    ensures RoundPast16(w) as int % 16 == 0 && w as int < RoundPast16(w) as int <= w as int + 16
  {
  }

  /** The requested size, `numOfElements * sizeOfElement` as a `UINT`. */
  function TotalBytes(n: uint32, size: uint32): uint32
  {
    Uint32Of(n as int * size as int)
  }

  /** `initialize`. */
  function Describe(t: BufferType, u: Usage, n: uint32, size: uint32, withData: bool): InitOutcome
  {
    match TypeBind(t, u, false)
    case None => Unsupported
    case Some(bind) =>
      match UsageAccess(t, u)
      case Err(e) => Rejected(e)
      case Ok((usage, access)) =>
        Create(Descriptor(bind, usage, access, false, RoundUp16(TotalBytes(n, size)), 0), withData)
  }

  /**
   * `initializeEx`. With initial data the source builds a second descriptor
   * (only the view bind flags, default usage, at least 16 bytes, the
   * element size as stride) and creates the buffer from that one.
   */
  function DescribeEx(t: BufferType, u: Usage, n: uint32, size: uint32, withData: bool, srv: bool, uav: bool): InitOutcome
  {
    match TypeBind(t, u, true)
    case None => Unsupported
    case Some(bind) =>
      var views := (if uav then {BindUnorderedAccess} else {}) + (if srv then {BindShaderResource} else {});
      match UsageAccess(t, u)
      case Err(e) => Rejected(e)
      case Ok((usage, access)) =>
        if withData then
          var total := TotalBytes(size, n);
          Create(Descriptor(views, UsageDefault, {}, true, if total < 16 then 16 else total, size), true)
        else
          Create(Descriptor(bind + views, usage, access, t == StructuredBuffer, RoundPast16(TotalBytes(n, size)), 0), false)
  }

  /** Only an unlisted type stops `initialize` before the device; every CPU-read buffer but a staging one throws. */
  lemma DescribeOutcomes(t: BufferType, u: Usage, n: uint32, size: uint32, withData: bool)
    ensures Describe(t, u, n, size, withData).Unsupported? <==> t.OtherType? || t == StructuredBuffer
    ensures Describe(t, u, n, size, withData).Rejected? <==>
              !t.OtherType? && t != StructuredBuffer && u == BufferCpuRead && t != StagingBuffer
    ensures Describe(t, u, n, size, withData).Create? ==>
              var d := Describe(t, u, n, size, withData).descriptor;
              && d.byteWidth == RoundUp16(TotalBytes(n, size))
              && (BindStreamOutput in d.bind <==> t == VertexBuffer && u == BufferStreamOutTarget)
              && (CpuAccessWrite in d.cpuAccess <==> u in {BufferCpuWrite, BufferCpuWriteDiscard})
              && (CpuAccessWrite in d.cpuAccess ==> d.usage == UsageDynamic)
  {
  }

  /** Without initial data `initializeEx` keeps the type's bind flags and adds the requested views. */
  lemma DescribeExViews(t: BufferType, u: Usage, n: uint32, size: uint32, srv: bool, uav: bool)
    ensures DescribeEx(t, u, n, size, false, srv, uav).Unsupported? <==> t.OtherType?
    ensures DescribeEx(t, u, n, size, false, srv, uav).Create? ==>
              var d := DescribeEx(t, u, n, size, false, srv, uav).descriptor;
              && (BindShaderResource in d.bind <==> srv)
              && (BindUnorderedAccess in d.bind <==> uav)
              && (d.structured <==> t == StructuredBuffer)
              && d.byteWidth == RoundPast16(TotalBytes(n, size))
  {
  }

  /** Pipeline stages `setBuffer` binds to. */
  datatype Stage = InputVertex | InputIndex | VertexShader | GeometryShader | PixelShader

  /** The stages per type; `None` is the S_FALSE default branch. */
  function Stages(t: BufferType): (r: Option<seq<Stage>>)
    ensures r.None? <==> t.OtherType? || t in {StagingBuffer, StructuredBuffer}
    ensures t == ConstantBufferAll ==> r == Some([VertexShader, GeometryShader, PixelShader])
    ensures t == BufferTypeCount ==> r == Some([])
  {
    match t
    case VertexBuffer => Some([InputVertex])
    case IndexBuffer => Some([InputIndex])
    case ConstantBufferVS => Some([VertexShader])
    case ConstantBufferGS => Some([GeometryShader])
    case ConstantBufferPS => Some([PixelShader])
    case BufferTypeCount => Some([])
    case ConstantBufferAll => Some([VertexShader, GeometryShader, PixelShader])
    case _ => None
  }

  // D3D11_MAP values.
  const MAP_READ: int := 1
  const MAP_WRITE: int := 2
  const MAP_READ_WRITE: int := 3
  const MAP_WRITE_DISCARD: int := 4
  const MAP_WRITE_NO_OVERWRITE: int := 5

  /** The CPU access a mapping kind asks for. */
  function MapAccess(kind: int): set<CpuAccess>
  {
    if kind == MAP_READ then {CpuAccessRead}
    else if kind == MAP_READ_WRITE then {CpuAccessRead, CpuAccessWrite}
    else if kind in {MAP_WRITE, MAP_WRITE_DISCARD, MAP_WRITE_NO_OVERWRITE} then {CpuAccessWrite}
    else {}
  }

  predicate Mappable(u: Usage)
  {
    u in {BufferCpuWrite, BufferCpuWriteDiscard, BufferCpuRead}
  }

  /** `map` as written: the usage's own position in its enumeration is passed as the mapping kind. */
  function MapKindAsWritten(u: Usage): (r: Option<int>)
    ensures r.Some? <==> Mappable(u)
  {
    if Mappable(u) then Some(UsageOrdinal(u)) else None
  }

  /** As written, a CPU-read staging buffer is mapped for write-discard and a write-discard buffer for read-write. */
  lemma MapKindAsWrittenMismatch()
    ensures MapKindAsWritten(BufferCpuRead) == Some(MAP_WRITE_DISCARD)
    ensures MapAccess(MapKindAsWritten(BufferCpuRead).value) != UsageAccess(StagingBuffer, BufferCpuRead).value.1
    ensures MapKindAsWritten(BufferCpuWriteDiscard) == Some(MAP_READ_WRITE)
    ensures MapAccess(MapKindAsWritten(BufferCpuWriteDiscard).value) != UsageAccess(VertexBuffer, BufferCpuWriteDiscard).value.1
  {
    assert CpuAccessRead in UsageAccess(StagingBuffer, BufferCpuRead).value.1;
    assert CpuAccessRead in MapAccess(MAP_READ_WRITE);
  }

  /** The mapping kind each mappable usage names. */
  function MapKind(u: Usage): (r: Option<int>)
    ensures r.Some? <==> Mappable(u)
  {
    match u
    case BufferCpuWrite => Some(MAP_WRITE)
    case BufferCpuWriteDiscard => Some(MAP_WRITE_DISCARD)
    case BufferCpuRead => Some(MAP_READ)
    case _ => None
  }

  /** Every mapping asks for exactly the CPU access the buffer was created with. */
  lemma MapKindMatchesAccess(t: BufferType, u: Usage)
    requires Mappable(u) && UsageAccess(t, u).Ok?
    ensures MapAccess(MapKind(u).value) == UsageAccess(t, u).value.1
    ensures MapKind(u).value == MAP_WRITE_DISCARD <==> u == BufferCpuWriteDiscard
  {
  }

  class Buffer {
    var bufferType: BufferType
    var usage: Usage
    var sizeOfElement: uint32
    var numOfElements: uint32

    /** The shared tail of both initialisers: the usage switch, after the fields are stored. */
    method StoreUsage(u: Usage, n: uint32, size: uint32) returns (r: Result<(DeviceUsage, set<CpuAccess>), string>)
      modifies this
      ensures bufferType == old(bufferType)
      ensures usage == u && numOfElements == n && sizeOfElement == size
      ensures r == UsageAccess(bufferType, u)
    {
      usage := u;
      sizeOfElement := size;
      numOfElements := n;
      match usage {
        case BufferDefault => r := Ok((UsageDefault, {}));
        case BufferStreamOutTarget => r := Ok((UsageDefault, {}));
        case BufferCpuWrite => r := Ok((UsageDynamic, {CpuAccessWrite}));
        case BufferCpuWriteDiscard => r := Ok((UsageDynamic, {CpuAccessWrite}));
        case BufferCpuRead =>
          if bufferType != StagingBuffer {
            return Err(CPU_READ_REJECTED);
          }
          r := Ok((UsageStaging, {CpuAccessRead}));
        case BufferUsageCount => r := Ok((UsageDefault, {}));
        case BufferUsageImmutable => r := Ok((UsageImmutable, {}));
        case _ => r := Ok((UsageLeftUnset, {}));
      }
    }

    /** `initialize`: the type is stored first; the usage and sizes only once the type is known. */
    method Initialize(t: BufferType, u: Usage, n: uint32, size: uint32, withData: bool) returns (r: InitOutcome)
      modifies this
      ensures r == Describe(t, u, n, size, withData)
      ensures bufferType == t
      ensures r.Unsupported? ==> usage == old(usage) && numOfElements == old(numOfElements) && sizeOfElement == old(sizeOfElement)
      ensures !r.Unsupported? ==> usage == u && numOfElements == n && sizeOfElement == size
    {
      bufferType := t;
      var bind := TypeBind(t, u, false);
      if bind.None? {
        return Unsupported;
      }
      var access := StoreUsage(u, n, size);
      if access.Err? {
        return Rejected(access.error);
      }
      var width := RoundUp16(Uint32Of(n as int * size as int));
      r := Create(Descriptor(bind.value, access.value.0, access.value.1, false, width, 0), withData);
    }

    /** `initializeEx`. */
    method InitializeEx(t: BufferType, u: Usage, n: uint32, size: uint32, withData: bool, srv: bool, uav: bool)
      returns (r: InitOutcome)
      modifies this
      ensures r == DescribeEx(t, u, n, size, withData, srv, uav)
      ensures bufferType == t
      ensures r.Unsupported? ==> usage == old(usage) && numOfElements == old(numOfElements) && sizeOfElement == old(sizeOfElement)
      ensures !r.Unsupported? ==> usage == u && numOfElements == n && sizeOfElement == size
    {
      bufferType := t;
      var bind := TypeBind(t, u, true);
      if bind.None? {
        return Unsupported;
      }
      var views := (if uav then {BindUnorderedAccess} else {}) + (if srv then {BindShaderResource} else {});
      var access := StoreUsage(u, n, size);
      if access.Err? {
        return Rejected(access.error);
      }
      if withData {
        var total := Uint32Of(size as int * n as int);
        r := Create(Descriptor(views, UsageDefault, {}, true, if total < 16 then 16 else total, size), true);
      } else {
        var width := RoundPast16(Uint32Of(n as int * size as int));
        r := Create(Descriptor(bind.value + views, access.value.0, access.value.1, t == StructuredBuffer, width, 0), false);
      }
    }

    /** `setBuffer` (and `unsetBuffer`, which switches the same way): S_OK with the stages bound, or S_FALSE. */
    method SetBuffer() returns (ok: bool, stages: seq<Stage>)
      ensures ok <==> Stages(bufferType).Some?
      ensures stages == if ok then Stages(bufferType).value else []
    {
      ok := true;
      match bufferType {
        case VertexBuffer => stages := [InputVertex];
        case IndexBuffer => stages := [InputIndex];
        case ConstantBufferVS => stages := [VertexShader];
        case ConstantBufferGS => stages := [GeometryShader];
        case ConstantBufferPS => stages := [PixelShader];
        case BufferTypeCount => stages := [];
        case ConstantBufferAll => stages := [VertexShader, GeometryShader, PixelShader];
        case _ => ok, stages := false, [];
      }
    }

    /**
     * `map`, with the map type corrected to `MapKind`: the device is asked to
     * map only for the three CPU usages, for exactly the CPU access the buffer
     * was created with; the pointer is null otherwise, or when the device call
     * fails (`deviceOk`).
     */
    method Map(deviceOk: bool) returns (request: Option<int>, mapped: bool)
      ensures request == MapKind(usage)
      ensures request.Some? && UsageAccess(bufferType, usage).Ok? ==>
                MapAccess(request.value) == UsageAccess(bufferType, usage).value.1
      ensures request == Some(MAP_WRITE_DISCARD) <==> usage == BufferCpuWriteDiscard
      ensures mapped <==> Mappable(usage) && deviceOk
    {
      if Mappable(usage) && UsageAccess(bufferType, usage).Ok? {
        MapKindMatchesAccess(bufferType, usage);
      }
      request := MapKind(usage);
      mapped := request.Some? && deviceOk;
    }

    /** `getNumOfElements`. */
    method GetNumOfElements() returns (n: uint32)
      ensures n == numOfElements
    {
      n := numOfElements;
    }

    /** `getSizeOfElement` as written: it returns the element count. */
    method GetSizeOfElementAsWritten() returns (size: uint32)
      ensures size == numOfElements
    {
      size := numOfElements;
    }

    /** `getSizeOfElement` as its name promises. */
    method GetSizeOfElement() returns (size: uint32)
      ensures size == sizeOfElement
    {
      size := sizeOfElement;
    }
  }

  /** Three elements of four bytes: the getter as written reports 3 as the element size. */
  method SizeGetterCounterexample() returns (reported: uint32, actual: uint32)
    ensures reported == 3 && actual == 4
  {
    var b := new Buffer;
    var _ := b.Initialize(VertexBuffer, BufferDefault, 3, 4, false);
    reported := b.GetSizeOfElementAsWritten();
    actual := b.GetSizeOfElement();
  }
}

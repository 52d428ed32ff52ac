/**
 * The video-memory usage counter: a process-wide object holding an
 * `unsigned int` byte count, the per-format texture size calculation, and
 * the usage report in megabytes.
 */
module VRAMInfo {
  import opened Wrappers
  import opened Bytes

  const KB: nat := 1000
  const MB: nat := 1000 * KB
  /** The assumed fixed cost of the graphics resources, counted from the start. */
  const OVERHEAD_USAGE: nat := 10 * MB

  /** The texture formats the calculation knows, and every other one. */
  datatype Format =
    | R32G32B32A32_FLOAT | R32G32B32A32_UINT | R32G32B32_FLOAT | R32G32B32_UINT
    | R16G16B16A16_FLOAT | R32G32_FLOAT | R32G32_UINT | R8G8B8A8_UNORM
    | OtherFormat(code: int)

  /** Bytes per pixel of a listed format. */
  function BytesPerPixel(f: Format): (r: Option<nat>)
    ensures r.None? <==> f.OtherFormat?
    ensures r.Some? ==> r.value in {4, 8, 12, 16}
  {
    match f
    case R32G32B32A32_FLOAT => Some(16)
    case R32G32B32A32_UINT => Some(16)
    case R32G32B32_FLOAT => Some(12)
    case R32G32B32_UINT => Some(12)
    case R16G16B16A16_FLOAT => Some(8)
    case R32G32_FLOAT => Some(8)
    case R32G32_UINT => Some(8)
    case R8G8B8A8_UNORM => Some(4)
    case OtherFormat(_) => None
  }

  const UNKNOWN_FORMAT: string := "Error when determining memory size of texture."

  /**
   * `calculateFormatUsage`: bytes per pixel times width times height in
   * `unsigned int` arithmetic; an unlisted format throws.
   */
  function FormatUsage(f: Format, width: int, height: int): (r: Result<uint32, string>)
    ensures r.Err? <==> f.OtherFormat?
    ensures r.Err? ==> r.error == UNKNOWN_FORMAT
    ensures r.Ok? ==> r.value as int % TWO32 == (BytesPerPixel(f).value * width * height) % TWO32
  {
    match BytesPerPixel(f)
    case None => Err(UNKNOWN_FORMAT)
    case Some(bpp) => Ok(Uint32Of(bpp * width * height))
  }

  /** For a texture whose size fits in 32 bits, the result is the exact byte count. */
  lemma FormatUsageExact(f: Format, width: nat, height: nat)
    requires !f.OtherFormat?
    requires BytesPerPixel(f).value * width * height < TWO32
    ensures FormatUsage(f, width, height) == Ok((BytesPerPixel(f).value * width * height) as uint32)
  {
  }

  /** `updateUsage`: the signed change added to the unsigned counter, wrapping at 2^32. */
  function Updated(usage: uint32, size: int): uint32
  {
    Uint32Of(usage as int + size)
  }

  /** Adding a size and then its negation restores the counter, wrap-around included. */
  lemma UpdateUndone(usage: uint32, size: int)
    ensures Updated(Updated(usage, size), -size) == usage
  {
    var mid := Updated(usage, size) as int;
    assert (mid - (usage as int + size)) % TWO32 == 0;
    assert (mid - size - usage as int) % TWO32 == 0;
  }

  /** Two updates are one update by their sum. */
  lemma UpdatesCompose(usage: uint32, a: int, b: int)
    ensures Updated(Updated(usage, a), b) == Updated(usage, a + b)
  {
    var mid := Updated(usage, a) as int;
    assert (mid - (usage as int + a)) % TWO32 == 0;
  }

  /** `getUsage`: whole megabytes of the counter. */
  function Megabytes(usage: uint32): (r: nat)
    ensures r * MB <= usage as int < (r + 1) * MB
  {
    usage as int / MB
  }

  /** A fresh counter reports the 10 MB overhead. */
  lemma InitialUsage()
    ensures Megabytes(OVERHEAD_USAGE as uint32) == 10
  {
  }

  class Info {
    var usage: uint32

    /** The counter starts at the overhead. */
    constructor ()
      ensures usage as int == OVERHEAD_USAGE
    {
      usage := OVERHEAD_USAGE as uint32;
    }

    method GetUsage() returns (mb: int)
      ensures mb == Megabytes(usage)
    {
      mb := usage as int / MB;
    }

    method UpdateUsage(size: int)
      requires -TWO31 <= size < TWO31
      modifies this
      ensures usage == Updated(old(usage), size)
    {
      usage := Uint32Of(usage as int + size);
    }

    method CalculateFormatUsage(f: Format, width: int, height: int) returns (r: Result<uint32, string>)
      requires -TWO31 <= width < TWO31 && -TWO31 <= height < TWO31
      ensures r == FormatUsage(f, width, height)
    {
      match f {
        case OtherFormat(_) => r := Err(UNKNOWN_FORMAT);
        case _ => r := Ok(Uint32Of(BytesPerPixel(f).value * width * height));
      }
    }
  }

  /** The lazily created process-wide instance. */
  class Registry {
    var instance: Info?

    constructor ()
      ensures instance == null
    {
      instance := null;
    }

    /** `getInstance`: the existing instance, or a new one at the overhead. */
    method GetInstance() returns (info: Info)
      modifies this
      ensures old(instance) != null ==> info == old(instance)
      ensures old(instance) == null ==> fresh(info) && info.usage as int == OVERHEAD_USAGE
      ensures instance == info
    {
      if instance == null {
        instance := new Info();
      }
      info := instance;
    }

    /** `shutdown`: drops the instance; the next `getInstance` starts over. */
    method Shutdown()
      modifies this
      ensures instance == null
    {
      instance := null;
    }
  }
}

/**
  Buffer sizes of the media library, in unsigned 32-bit arithmetic.

  The `Exact…` functions say what the sizes are over the integers; the methods compute as the code does,
  every operation reduced modulo 2^32.  A method gives the exact size for every input on which none of its
  operations wraps, and the `Fits…` predicates say which these are.
 */
module Buffers {

  const MODULUS: nat := 0x1_0000_0000

  function U32(x: nat): nat {
    x % MODULUS
  }

  const DEFAULT_ALIGN: nat := 32

  const MAX_ALIGN: nat := 1024

  // ----- Rounding -----

  lemma Products(a: nat, b: nat, c: nat, d: nat)
    requires a <= c && b <= d
    ensures a * b <= c * d
  {
    assert a * b <= c * b <= c * d;
  }

  /** The product, by repeated addition: the solver is not to look inside where it need not. */
  function Times(x: nat, y: nat): nat {
    if x == 0 then 0 else y + Times(x - 1, y)
  }

  lemma {:induction false} TimesIsProduct(x: nat, y: nat)
    ensures Times(x, y) == x * y
  {
    if x != 0 {
      TimesIsProduct(x - 1, y);
      assert x * y == y + (x - 1) * y;
    }
  }

  lemma TimesGrows(a: nat, b: nat, c: nat, d: nat)
    requires a <= c && b <= d
    ensures Times(a, b) <= Times(c, d) == c * d
  {
    TimesIsProduct(a, b);
    TimesIsProduct(c, d);
    Products(a, b, c, d);
  }

  /** The least multiple of `a` that is not below `x`. */
  function RoundUp(x: nat, a: nat): nat
    requires a > 0
  {
    Products(0, 0, (x + a - 1) / a, a);
    (x + a - 1) / a * a
  }

  function CeilDiv(x: nat, a: nat): nat
    requires a > 0
  {
    (x + a - 1) / a
  }

  lemma DivMod(n: nat, a: nat)
    requires a > 0
    ensures n == n / a * a + n % a && 0 <= n % a < a
  {
  }

  lemma RoundUpIsNear(x: nat, a: nat)
    requires a > 0
    ensures RoundUp(x, a) % a == 0 && x <= RoundUp(x, a) < x + a
  {
    DivMod(x + a - 1, a);
    MultipleOf((x + a - 1) / a, a);
  }

  lemma NoMultipleBetween(x: nat, a: nat, n: nat)
    requires a > 0 && x <= n * a
    ensures RoundUp(x, a) <= n * a
  {
    var q := (x + a - 1) / a;
    DivMod(x + a - 1, a);
    assert (q - 1) * a == q * a - a;
    if n * a < q * a {
      Below(n, q, a);
      assert false;
    }
  }

  lemma RoundUpIsLeast(x: nat, a: nat, multiple: nat)
    requires a > 0
    ensures RoundUp(x, a) % a == 0 && x <= RoundUp(x, a) < x + a
    ensures x <= multiple && multiple % a == 0 ==> RoundUp(x, a) <= multiple
  {
    RoundUpIsNear(x, a);
    if x <= multiple && multiple % a == 0 {
      DivMod(multiple, a);
      NoMultipleBetween(x, a, multiple / a);
    }
  }

  lemma MultipleOf(q: nat, a: nat)
    requires a > 0
    ensures q * a % a == 0 && q * a / a == q
  {
    var d, r := q * a / a, q * a % a;
    assert q * a == d * a + r;
    if d < q {
      Products(1, a, q - d, a);
    } else if q < d {
      Products(1, a, d - q, a);
    }
  }

  lemma Below(n: nat, q: nat, a: nat)
    requires a > 0 && n * a < q * a
    ensures n < q && n * a <= (q - 1) * a
  {
    if n >= q {
      Products(q, a, n, a);
    } else {
      Products(n, a, q - 1, a);
    }
  }

  lemma RoundUpGrows(x: nat, y: nat, a: nat)
    requires a > 0 && x <= y
    ensures RoundUp(x, a) <= RoundUp(y, a) && CeilDiv(x, a) <= CeilDiv(y, a)
  {
    RoundUpIsLeast(y, a, 0);
    RoundUpIsLeast(x, a, RoundUp(y, a));
    Quotients(x + a - 1, y + a - 1, a);
  }

  lemma Quotients(x: nat, y: nat, a: nat)
    requires a > 0 && x <= y
    ensures x / a <= y / a
  {
    if x / a > y / a {
      Products(y / a + 1, a, x / a, a);
    }
  }

  /** The macros, on 32-bit values. */
  function AlignUp(x: nat, a: nat): nat
    requires a > 0
  {
    Products(0, 0, U32(x + (a - 1)) / a, a);
    U32(U32(x + (a - 1)) / a * a)
  }

  function DivUp(x: nat, a: nat): nat
    requires a > 0
  {
    U32(x + (a - 1)) / a
  }

  lemma QuotientBelow(n: nat, a: nat)
    requires a > 0
    ensures 0 <= n / a * a <= n
  {
    DivMod(n, a);
    Products(0, 0, n / a, a);
  }

  /** A number that fits is not changed by the reduction. */
  lemma Small(x: nat)
    requires x < MODULUS
    ensures U32(x) == x
  {
  }

  lemma AlignUpIsExact(x: nat, a: nat)
    requires a > 0 && x + a - 1 < MODULUS
    ensures AlignUp(x, a) == RoundUp(x, a)
  {
    var n := x + a - 1;
    Small(n);
    assert x + (a - 1) == n;
    QuotientBelow(n, a);
    Small(n / a * a);
  }

  // ----- Picture buffers -----

  datatype PixelFormat = Yvu420 | Yuv420 | Yvu422 | Yuv422 | Yuv400 | S16C1 | OtherFormat

  datatype BitWidth = Bits8 | Bits16 | OtherBits

  datatype CalConfig = CalConfig(
    vbSize: nat, headYSize: nat, headSize: nat, headStride: nat,
    mainStride: nat, mainYSize: nat, mainSize: nat, extStride: nat, extYSize: nat)

  /** What a picture buffer is asked for. */
  datatype Picture = Picture(width: nat, height: nat, format: PixelFormat, bits: BitWidth, compressed: bool, align: nat)
  {
    predicate Words() {
      width < MODULUS && height < MODULUS && align < MODULUS
    }

    function EffectiveAlign(): nat {
      if align == 0 then DEFAULT_ALIGN
      else if align > MAX_ALIGN then MAX_ALIGN
      else RoundUp(align, DEFAULT_ALIGN)
    }

    function BitCount(): nat {
      match bits
      case Bits8 => 8
      case Bits16 => 16
      case OtherBits => 0
    }

    /** The bits of a row of samples. */
    function RowBits(): nat {
      Times(width, BitCount())
    }

    function AlignedHeight(): nat {
      RoundUp(height, 2)
    }

    /** The bytes of a row, before alignment; a compressed row has one byte a pixel. */
    function RowBytes(): nat {
      if compressed then width else CeilDiv(RowBits(), 8)
    }

    function MainStride(): nat
    {
      AlignInRange();
      RoundUp(RowBytes(), EffectiveAlign())
    }

    function HeadStride(): nat {
      if width <= 4096 then 16 else if width <= 8192 then 32 else 64
    }

    /** Half the luma plane, times this, is the whole picture. */
    function Halves(): nat {
      match format
      case Yvu420 | Yuv420 => 3
      case Yvu422 | Yuv422 => 4
      case Yuv400 => 2
      case S16C1 => if compressed then 6 else 2
      case OtherFormat => 6
    }

    /** A luma plane of `y` bytes and the chroma planes that go with it. */
    function Planes(y: nat): nat {
      if Halves() == 3 then 3 * y / 2 else if Halves() == 4 then 2 * y else if Halves() == 2 then y else 3 * y
    }

    /** The largest number the code forms on the way; in the 4:2:0 case it is halved afterwards. */
    function Peak(y: nat): nat {
      if Halves() == 3 then 3 * y else Planes(y)
    }

    /** Compression is supported for 8 bits only. */
    predicate Unsupported() {
      compressed && bits != Bits8
    }

    function YSize(): nat {
      Times(MainStride(), AlignedHeight())
    }

    function HeadYSize(): nat {
      Times(HeadStride(), AlignedHeight())
    }

    function MainSize(): nat {
      Planes(YSize())
    }

    function HeadSize(): nat
    {
      AlignInRange();
      RoundUp(Planes(HeadYSize()), EffectiveAlign())
    }

    /** The sizes over the integers. */
    function Exact(): CalConfig {
      if Unsupported() then CalConfig(0, 0, 0, 0, 0, 0, 0, 0, 0)
      else if compressed then
        CalConfig(HeadSize() + MainSize(), HeadYSize(), HeadSize(), HeadStride(), MainStride(), YSize(), MainSize(), 0, 0)
      else
        CalConfig(MainSize(), 0, 0, 0, MainStride(), YSize(), MainSize(), 0, 0)
    }

    /** No operation of the code wraps. */
    predicate Fits()
    {
      AlignInRange();
      && height + 1 < MODULUS
      && (!compressed ==> RowBits() + 7 < MODULUS)
      && (!Unsupported() ==> RowBytes() + EffectiveAlign() - 1 < MODULUS && Peak(YSize()) < MODULUS)
      && (compressed && !Unsupported() ==>
           && Peak(HeadYSize()) < MODULUS
           && Planes(HeadYSize()) + EffectiveAlign() - 1 < MODULUS
           && HeadSize() + MainSize() < MODULUS)
    }

    /** The effective alignment is a multiple of the default, up to the maximum, and never below what was asked. */
    lemma AlignInRange()
      ensures EffectiveAlign() % DEFAULT_ALIGN == 0 && DEFAULT_ALIGN <= EffectiveAlign() <= MAX_ALIGN
      ensures align <= MAX_ALIGN ==> align <= EffectiveAlign()
    {
      if 0 < align <= MAX_ALIGN {
        RoundUpIsLeast(align, DEFAULT_ALIGN, MAX_ALIGN);
      }
    }
  }

  lemma PeakIsAbove(p: Picture, plane: nat)
    ensures plane <= p.Peak(plane)
  {
  }

  /** The bytes of a luma plane and the planes that go with it. */
  method WithChroma(p: Picture, plane: nat) returns (size: nat)
    ensures p.Peak(plane) < MODULUS ==> size == p.Planes(plane)
  {
    if p.format == Yvu420 || p.format == Yuv420 {
      size := U32(plane * 3) / 2;
    } else if p.format == Yvu422 || p.format == Yuv422 {
      size := U32(plane * 2);
    } else if p.format == Yuv400 || (p.format == S16C1 && !p.compressed) {
      size := plane;
    } else {
      size := U32(plane * 3);
    }
  }

  method PlaneSize(p: Picture, stride: nat, alignHeight: nat) returns (size: nat)
    ensures p.Peak(Times(stride, alignHeight)) < MODULUS ==> size == p.Planes(Times(stride, alignHeight))
  {
    PeakIsAbove(p, Times(stride, alignHeight));
    if Times(stride, alignHeight) < MODULUS {
      Small(Times(stride, alignHeight));
    }
    size := WithChroma(p, U32(Times(stride, alignHeight)));
  }

  method ClampAlign(p: Picture) returns (align: nat)
    ensures align == p.EffectiveAlign()
  {
    align := p.align;
    if align == 0 {
      align := DEFAULT_ALIGN;
    } else if align > MAX_ALIGN {
      align := MAX_ALIGN;
    } else {
      AlignUpIsExact(align, DEFAULT_ALIGN);
      align := AlignUp(align, DEFAULT_ALIGN);
    }
  }

  /** The bytes of a row, as the code computes them. */
  function RowBytes32(width: nat, bitWidth: nat): nat {
    U32(U32(Times(width, bitWidth)) + 7) / 8
  }

  lemma RowFits(p: Picture)
    requires p.Fits() && !p.compressed
    ensures p.RowBits() + 7 < MODULUS
  {
  }

  lemma CeilIsExact(bits: nat)
    requires bits + 7 < MODULUS
    ensures U32(U32(bits) + 7) / 8 == CeilDiv(bits, 8)
  {
    Small(bits);
    Small(bits + 7);
  }

  lemma RowIsExact(p: Picture)
    requires p.RowBits() + 7 < MODULUS && !p.compressed
    ensures RowBytes32(p.width, p.BitCount()) == p.RowBytes()
  {
    CeilIsExact(p.RowBits());
  }

  lemma StrideIsExact(p: Picture, align: nat)
    requires p.Fits() && !p.Unsupported() && align == p.EffectiveAlign() && align > 0
    ensures AlignUp(p.RowBytes(), align) == p.MainStride()
  {
    AlignUpIsExact(p.RowBytes(), align);
  }

  lemma PlanesFit(p: Picture)
    requires p.Fits() && !p.Unsupported()
    ensures p.Peak(p.YSize()) < MODULUS && U32(p.YSize()) == p.YSize()
  {
    Small(p.YSize());
  }

  method RowStride(p: Picture, align: nat, bitWidth: nat) returns (mainStride: nat)
    requires !p.compressed && align == p.EffectiveAlign() && align > 0 && bitWidth == p.BitCount()
    ensures p.Fits() ==> mainStride == p.MainStride()
  {
    var row := RowBytes32(p.width, bitWidth);
    mainStride := AlignUp(row, align);
    if p.Fits() {
      RowFits(p);
      RowIsExact(p);
      StrideIsExact(p, align);
    }
  }

  /** The luma plane, and all planes together. */
  method MainPlanes(p: Picture, mainStride: nat, alignHeight: nat) returns (ySize: nat, mainSize: nat)
    requires p.Fits() && !p.Unsupported() ==> mainStride == p.MainStride() && alignHeight == p.AlignedHeight()
    ensures p.Fits() && !p.Unsupported() ==> ySize == p.YSize() && mainSize == p.MainSize()
  {
    ySize := U32(Times(mainStride, alignHeight));
    mainSize := PlaneSize(p, mainStride, alignHeight);
    if p.Fits() && !p.Unsupported() {
      PlanesFit(p);
    }
  }

  method UncompressedConfig(p: Picture, align: nat, bitWidth: nat, alignHeight: nat) returns (config: CalConfig)
    requires !p.compressed && align == p.EffectiveAlign() && align > 0 && bitWidth == p.BitCount()
    requires p.Fits() ==> alignHeight == p.AlignedHeight()
    ensures p.Fits() ==> config == p.Exact()
  {
    var mainStride := RowStride(p, align, bitWidth);
    var ySize, mainSize := MainPlanes(p, mainStride, alignHeight);
    config := CalConfig(mainSize, 0, 0, 0, mainStride, ySize, mainSize, 0, 0);
  }

  /** The planes of a compressed picture and of its head; the head is not aligned yet. */
  method CompressedPlanes(p: Picture, align: nat, headStride: nat, alignHeight: nat)
    returns (mainStride: nat, headYSize: nat, ySize: nat, headSize: nat, mainSize: nat)
    requires p.compressed && p.bits == Bits8 && align == p.EffectiveAlign() && align > 0 && headStride == p.HeadStride()
    requires p.Fits() ==> alignHeight == p.AlignedHeight()
    ensures p.Fits() ==>
              && mainStride == p.MainStride() && headYSize == p.HeadYSize() && ySize == p.YSize()
              && headSize == p.Planes(p.HeadYSize()) && mainSize == p.MainSize()
  {
    mainStride := AlignUp(p.width, align);
    if p.Fits() {
      StrideIsExact(p, align);
      Small(p.YSize());
      Small(p.HeadYSize());
    }
    headYSize := U32(Times(headStride, alignHeight));
    ySize := U32(Times(mainStride, alignHeight));
    headSize := PlaneSize(p, headStride, alignHeight);
    mainSize := PlaneSize(p, mainStride, alignHeight);
  }

  lemma HeadIsExact(p: Picture, align: nat)
    requires p.Fits() && p.compressed && p.bits == Bits8 && align == p.EffectiveAlign() && align > 0
    ensures AlignUp(p.Planes(p.HeadYSize()), align) == p.HeadSize()
  {
    AlignUpIsExact(p.Planes(p.HeadYSize()), align);
  }

  lemma PartsAddUp(headSize: nat, mainSize: nat, extSize: nat)
    requires headSize + mainSize + extSize < MODULUS
    ensures U32(U32(headSize + mainSize) + extSize) == headSize + mainSize + extSize
  {
  }

  method CompressedConfig(p: Picture, align: nat, bitWidth: nat, alignHeight: nat) returns (config: CalConfig)
    requires p.compressed && align == p.EffectiveAlign() && 0 < align <= MAX_ALIGN && bitWidth == p.BitCount()
    requires p.Fits() ==> alignHeight == p.AlignedHeight()
    ensures p.Fits() ==> config == p.Exact()
  {
    var headStride := 64;
    if p.width <= 4096 {
      headStride := 16;
    } else if p.width <= 8192 {
      headStride := 32;
    }
    var mainStride, headYSize, ySize, headSize, mainSize := 0, 0, 0, 0, 0;
    if bitWidth == 8 {
      mainStride, headYSize, ySize, headSize, mainSize := CompressedPlanes(p, align, headStride, alignHeight);
      if p.Fits() {
        HeadIsExact(p, align);
      }
    } else {
      headStride := 0;
      NothingAligned(align);
    }
    headSize := AlignUp(headSize, align);
    var extSize := 0;
    if p.Fits() {
      assert p.Unsupported() ==> headSize == mainSize == 0;
      PartsAddUp(headSize, mainSize, extSize);
    }
    var vbSize := U32(U32(headSize + mainSize) + extSize);
    config := CalConfig(vbSize, headYSize, headSize, headStride, mainStride, ySize, mainSize, 0, 0);
  }

  lemma NothingAligned(align: nat)
    requires 0 < align <= MAX_ALIGN
    ensures AlignUp(0, align) == 0
  {
    AlignUpIsExact(0, align);
    RoundUpIsLeast(0, align, 0);
    MultipleOf(0, align);
  }

  /** The code, on 32-bit arguments; it is exact on every input on which no operation wraps. */
  method GetPicBufferConfig(p: Picture) returns (config: CalConfig)
    requires p.Words()
    ensures p.Fits() ==> config == p.Exact()
  {
    var align := ClampAlign(p);
    p.AlignInRange();
    var bitWidth := match p.bits { case Bits8 => 8 case Bits16 => 16 case OtherBits => 0 };
    var alignHeight := AlignUp(p.height, 2);
    if p.Fits() {
      AlignUpIsExact(p.height, 2);
    }
    if !p.compressed {
      config := UncompressedConfig(p, align, bitWidth, alignHeight);
    } else {
      config := CompressedConfig(p, align, bitWidth, alignHeight);
    }
  }

  // ----- What the sizes are good for -----

  lemma StrideBounds(p: Picture)
    ensures p.RowBytes() <= p.MainStride() < p.RowBytes() + MAX_ALIGN
    ensures p.height <= p.AlignedHeight() <= p.height + 1
  {
    p.AlignInRange();
    RoundUpIsLeast(p.RowBytes(), p.EffectiveAlign(), 0);
    RoundUpIsLeast(p.height, 2, 0);
  }

  /** Nothing wraps for dimensions up to 16384, whatever the format, depth, mode and alignment. */
  lemma FitsUpTo16384(p: Picture)
    requires p.width <= 16384 && p.height <= 16384
    ensures p.Fits()
  {
    p.AlignInRange();
    StrideBounds(p);
    TimesGrows(p.width, p.BitCount(), 16384, 16);
    assert p.RowBytes() <= 32768;
    TimesGrows(p.MainStride(), p.AlignedHeight(), 33792, 16385);
    TimesGrows(p.HeadStride(), p.AlignedHeight(), 64, 16385);
    RoundUpIsLeast(p.Planes(p.HeadYSize()), p.EffectiveAlign(), 0);
  }

  /** The stride is the least multiple of the effective alignment that holds a row. */
  lemma StrideIsLeast(p: Picture, stride: nat)
    requires !p.compressed
    ensures p.EffectiveAlign() > 0 && p.MainStride() % p.EffectiveAlign() == 0
    ensures 8 * p.MainStride() >= p.RowBits()
    ensures stride % p.EffectiveAlign() == 0 && 8 * stride >= p.RowBits() ==> p.MainStride() <= stride
  {
    p.AlignInRange();
    RoundUpIsLeast(p.RowBytes(), p.EffectiveAlign(), stride);
  }

  lemma YSizeIsEven(p: Picture)
    ensures p.YSize() % 2 == 0 && p.HeadYSize() % 2 == 0
  {
    RoundUpIsLeast(p.height, 2, 0);
    EvenProduct(p.MainStride(), p.AlignedHeight());
    EvenProduct(p.HeadStride(), p.AlignedHeight());
  }

  lemma EvenProduct(x: nat, y: nat)
    requires y % 2 == 0
    ensures Times(x, y) % 2 == 0
  {
    TimesIsProduct(x, y);
    var half := y / 2;
    assert y == 2 * half;
    MultipleOf(x * half, 2);
    assert x * (2 * half) == x * half * 2;
  }

  lemma HalvingLosesNothing(y: nat)
    requires y % 2 == 0
    ensures 2 * (3 * y / 2) == 3 * y
  {
    var half := y / 2;
    MultipleOf(3 * half, 2);
    assert 3 * y == 3 * half * 2;
  }

  lemma PlanesAreHalves(p: Picture, y: nat)
    requires y % 2 == 0
    ensures 2 * p.Planes(y) == p.Halves() * y
  {
    HalvingLosesNothing(y);
    Multiples(p.Halves(), y);
  }

  /** The luma plane and its share of chroma, exactly: nothing is lost by halving. */
  lemma MainSizeIsWhole(p: Picture)
    ensures 2 * p.MainSize() == p.Halves() * p.YSize()
  {
    YSizeIsEven(p);
    PlanesAreHalves(p, p.YSize());
  }

  /** In the 4:2:0 formats the picture is exactly three halves of its luma. */
  lemma ThreeHalvesOfLuma(p: Picture)
    requires p.Halves() == 3
    ensures 2 * p.Exact().mainSize == 3 * p.Exact().mainYSize
  {
    YSizeIsEven(p);
    HalvingLosesNothing(p.YSize());
  }

  lemma Multiples(n: nat, y: nat)
    ensures n == 2 ==> n * y == 2 * y
    ensures n == 3 ==> n * y == 3 * y
    ensures n == 4 ==> n * y == 4 * y
    ensures n == 6 ==> n * y == 6 * y
  {
  }

  /** An uncompressed buffer has room for every sample of every plane. */
  lemma HoldsEverySample(p: Picture)
    requires !p.compressed
    ensures 16 * p.Exact().vbSize >= p.Halves() * (p.RowBits() * p.height)
  {
    StrideIsLeast(p, 0);
    StrideBounds(p);
    MainSizeIsWhole(p);
    SamplesFit(p.RowBits(), p.height, p.MainStride(), p.AlignedHeight(), p.Halves(), p.MainSize());
  }

  lemma SamplesFit(samples: nat, height: nat, stride: nat, alignedHeight: nat, halves: nat, size: nat)
    requires samples <= 8 * stride && height <= alignedHeight && 2 * size == halves * Times(stride, alignedHeight)
    ensures 16 * size >= halves * (samples * height)
  {
    var plane := stride * alignedHeight;
    TimesIsProduct(stride, alignedHeight);
    Products(samples, height, 8 * stride, alignedHeight);
    assert 8 * stride * alignedHeight == 8 * plane;
    Products(halves, samples * height, halves, 8 * plane);
    assert halves * (8 * plane) == 8 * (halves * plane);
  }

  /** A larger picture never gets a smaller buffer. */
  lemma SizeGrows(p: Picture, width: nat, height: nat)
    requires p.width <= width && p.height <= height
    ensures p.Exact().vbSize <= p.(width := width, height := height).Exact().vbSize
  {
    var q := p.(width := width, height := height);
    p.AlignInRange();
    TimesGrows(p.width, p.BitCount(), width, p.BitCount());
    RoundUpGrows(p.RowBits(), q.RowBits(), 8);
    assert p.RowBytes() <= q.RowBytes();
    RoundUpGrows(p.RowBytes(), q.RowBytes(), p.EffectiveAlign());
    RoundUpGrows(p.height, height, 2);
    TimesGrows(p.MainStride(), p.AlignedHeight(), q.MainStride(), q.AlignedHeight());
    TimesGrows(p.HeadStride(), p.AlignedHeight(), q.HeadStride(), q.AlignedHeight());
    RoundUpGrows(p.Planes(p.HeadYSize()), q.Planes(q.HeadYSize()), p.EffectiveAlign());
  }

  // ----- Reference buffers of the encoder -----

  datatype PayloadType = H264 | H265 | OtherPayload

  /** Bytes of the luma header; the chroma header has as many. */
  function RefHeader(codec: PayloadType, width: nat, height: nat): nat {
    match codec
    case H265 => Times(RoundUp(width, 128) / 64 * 32, RoundUp(height, 64) / 64)
    case H264 => Times(RoundUp(width, 512) / 256 * 16, RoundUp(height, 16) / 16)
    case OtherPayload => 0
  }

  function RefLuma(width: nat, height: nat): nat {
    Times(RoundUp(width, 64), RoundUp(height, 16))
  }

  /** The size over the integers. */
  function ExactRef(codec: PayloadType, width: nat, height: nat, bits: BitWidth): nat {
    if width == 0 || height == 0 || bits != Bits8 || codec == OtherPayload then 0
    else 2 * RefHeader(codec, width, height) + RefLuma(width, height) + RefLuma(width, height) / 2
  }

  /** H.265 counts luma in bits first, which costs three bits of range. */
  function LumaLimit(codec: PayloadType): nat {
    if codec == H265 then MODULUS / 8 else MODULUS
  }

  /** No operation of the code wraps. */
  predicate RefFits(codec: PayloadType, width: nat, height: nat, bits: BitWidth) {
    && width + 511 < MODULUS && height + 63 < MODULUS
    && RefLuma(width, height) < LumaLimit(codec)
    && ExactRef(codec, width, height, bits) < MODULUS
  }

  /** The multiplication by 8 is undone by the shift exactly when it does not wrap. */
  lemma EightfoldSurvives(y: nat)
    requires y < MODULUS
    ensures U32(y * 8) / 8 == y <==> y < MODULUS / 8
  {
  }

  lemma AlignedIsExact(x: nat, a: nat)
    requires a > 0 && x + a - 1 < MODULUS
    ensures AlignUp(x, a) == RoundUp(x, a) <= x + a - 1
  {
    AlignUpIsExact(x, a);
    RoundUpIsLeast(x, a, 0);
  }

  lemma HeaderUnit265(width: nat)
    requires width + 127 < MODULUS
    ensures U32(AlignUp(width, 128) / 64 * 32) == RoundUp(width, 128) / 64 * 32
  {
    AlignedIsExact(width, 128);
    Small(RoundUp(width, 128) / 64 * 32);
  }

  lemma HeaderUnit264(width: nat)
    requires width + 511 < MODULUS
    ensures U32(AlignUp(width, 512) / 256 * 16) == RoundUp(width, 512) / 256 * 16
  {
    AlignedIsExact(width, 512);
    Small(RoundUp(width, 512) / 256 * 16);
  }

  method RefHeaderSize265(width: nat, height: nat) returns (size: nat)
    ensures width + 511 < MODULUS && height + 63 < MODULUS && RefHeader(H265, width, height) < MODULUS ==>
              size == RefHeader(H265, width, height)
  {
    var alignWidth, alignHeight := AlignUp(width, 128), AlignUp(height, 64) / 64;
    if width + 511 < MODULUS && height + 63 < MODULUS && RefHeader(H265, width, height) < MODULUS {
      HeaderUnit265(width);
      AlignUpIsExact(height, 64);
      Small(RefHeader(H265, width, height));
    }
    size := U32(Times(U32(alignWidth / 64 * 32), alignHeight));
  }

  method RefHeaderSize264(width: nat, height: nat) returns (size: nat)
    ensures width + 511 < MODULUS && height + 63 < MODULUS && RefHeader(H264, width, height) < MODULUS ==>
              size == RefHeader(H264, width, height)
  {
    var alignWidth, alignHeight := AlignUp(width, 512), AlignUp(height, 16) / 16;
    if width + 511 < MODULUS && height + 63 < MODULUS && RefHeader(H264, width, height) < MODULUS {
      HeaderUnit264(width);
      AlignUpIsExact(height, 16);
      Small(RefHeader(H264, width, height));
    }
    size := U32(Times(U32(alignWidth / 256 * 16), alignHeight));
  }

  method RefLumaSize(codec: PayloadType, width: nat, height: nat) returns (size: nat)
    ensures width + 511 < MODULUS && height + 63 < MODULUS && RefLuma(width, height) < LumaLimit(codec) ==>
              size == RefLuma(width, height)
  {
    var alignWidth, alignHeight := AlignUp(width, 64), AlignUp(height, 16);
    ghost var luma := Times(alignWidth, alignHeight);
    if width + 511 < MODULUS && height + 63 < MODULUS {
      AlignUpIsExact(width, 64);
      AlignUpIsExact(height, 16);
      assert luma == RefLuma(width, height);
    }
    size := U32(Times(alignWidth, alignHeight));
    if luma < LumaLimit(codec) {
      Small(luma);
      EightfoldSurvives(luma);
    }
    if codec == H265 {
      size := U32(size * 8) / 8;
    }
  }

  lemma SumIsExact(header: nat, luma: nat)
    requires 2 * header + luma + luma / 2 < MODULUS
    ensures U32(U32(U32(header + header) + luma) + luma / 2) == 2 * header + luma + luma / 2
  {
  }

  /** The code; it is exact on every input on which no operation wraps. */
  method GetRefBufferSize(codec: PayloadType, width: nat, height: nat, bits: BitWidth) returns (size: nat)
    requires width < MODULUS && height < MODULUS
    ensures RefFits(codec, width, height, bits) ==> size == ExactRef(codec, width, height, bits)
    ensures width == 0 || height == 0 || bits != Bits8 || codec == OtherPayload ==> size == 0
  {
    if width == 0 || height == 0 {
      return 0;
    }
    if bits != Bits8 || codec == OtherPayload {
      return 0;
    }
    var header;
    if codec == H265 {
      header := RefHeaderSize265(width, height);
    } else {
      header := RefHeaderSize264(width, height);
    }
    var luma := RefLumaSize(codec, width, height);
    if RefFits(codec, width, height, bits) {
      SumIsExact(header, luma);
    }
    size := U32(U32(U32(header + header) + luma) + luma / 2);
  }

  /** Nothing wraps for dimensions up to 16384. */
  lemma RefFitsUpTo16384(codec: PayloadType, width: nat, height: nat, bits: BitWidth)
    requires width <= 16384 && height <= 16384
    ensures RefFits(codec, width, height, bits)
  {
    RefParts(codec, width, height);
  }

  lemma RefParts(codec: PayloadType, width: nat, height: nat)
    requires width <= 16384 && height <= 16384
    ensures RefLuma(width, height) <= 16384 * 16384 && RefHeader(codec, width, height) <= 8192 * 1024
  {
    RoundUpIsLeast(width, 64, 16384);
    RoundUpIsLeast(height, 16, 16384);
    TimesGrows(RoundUp(width, 64), RoundUp(height, 16), 16384, 16384);
    RoundUpIsLeast(width, 128, 16384);
    RoundUpIsLeast(height, 64, 16384);
    TimesGrows(RoundUp(width, 128) / 64 * 32, RoundUp(height, 64) / 64, 8192, 256);
    RoundUpIsLeast(width, 512, 16384);
    TimesGrows(RoundUp(width, 512) / 256 * 16, RoundUp(height, 16) / 16, 1024, 1024);
  }

  /** A reference buffer holds at least three halves of the picture. */
  lemma RefHoldsPicture(codec: PayloadType, width: nat, height: nat)
    requires codec != OtherPayload && width > 0 && height > 0
    ensures 2 * ExactRef(codec, width, height, Bits8) >= 3 * (width * height)
  {
    LumaHoldsPicture(width, height);
  }

  lemma LumaHoldsPicture(width: nat, height: nat)
    ensures width * height <= RefLuma(width, height) && RefLuma(width, height) % 2 == 0
  {
    RoundUpIsLeast(width, 64, 0);
    RoundUpIsLeast(height, 16, 0);
    var w, h := RoundUp(width, 64), RoundUp(height, 16);
    Products(width, height, w, h);
    TimesIsProduct(w, h);
    SixteenIsEven(h);
    EvenProduct(w, h);
  }

  lemma SixteenIsEven(n: nat)
    requires n % 16 == 0
    ensures n % 2 == 0
  {
    var q := n / 16;
    MultipleOf(8 * q, 2);
    assert n == 8 * q * 2;
  }

  /** Rounding up and then counting tiles is monotone. */
  lemma TilesGrow(x: nat, y: nat, align: nat, tile: nat, bytes: nat)
    requires x <= y && align > 0 && tile > 0
    ensures RoundUp(x, align) / tile <= RoundUp(y, align) / tile
    ensures RoundUp(x, align) / tile * bytes <= RoundUp(y, align) / tile * bytes
  {
    RoundUpGrows(x, y, align);
    Quotients(RoundUp(x, align), RoundUp(y, align), tile);
    Products(RoundUp(x, align) / tile, bytes, RoundUp(y, align) / tile, bytes);
  }

  lemma HeaderGrows(codec: PayloadType, width: nat, height: nat, width': nat, height': nat)
    requires width <= width' && height <= height'
    ensures RefHeader(codec, width, height) <= RefHeader(codec, width', height')
  {
    match codec
    case H265 =>
      TilesGrow(width, width', 128, 64, 32);
      TilesGrow(height, height', 64, 64, 1);
      TimesGrows(RoundUp(width, 128) / 64 * 32, RoundUp(height, 64) / 64,
                 RoundUp(width', 128) / 64 * 32, RoundUp(height', 64) / 64);
    case H264 =>
      TilesGrow(width, width', 512, 256, 16);
      TilesGrow(height, height', 16, 16, 1);
      TimesGrows(RoundUp(width, 512) / 256 * 16, RoundUp(height, 16) / 16,
                 RoundUp(width', 512) / 256 * 16, RoundUp(height', 16) / 16);
    case OtherPayload =>
  }

  /** A larger picture never gets a smaller reference buffer. */
  lemma RefGrows(codec: PayloadType, width: nat, height: nat, bits: BitWidth, width': nat, height': nat)
    requires width <= width' && height <= height'
    ensures ExactRef(codec, width, height, bits) <= ExactRef(codec, width', height', bits)
  {
    HeaderGrows(codec, width, height, width', height');
    RoundUpGrows(width, width', 64);
    RoundUpGrows(height, height', 16);
    TimesGrows(RoundUp(width, 64), RoundUp(height, 16), RoundUp(width', 64), RoundUp(height', 16));
  }

  // ----- Quantisation maps -----

  function QpmapSizeStride(width: nat): nat {
    U32(DivUp(width, 512) * 32)
  }

  function QpmapSize(width: nat, height: nat): nat {
    U32(Times(QpmapSizeStride(width), DivUp(height, 16)))
  }

  lemma QpmapRow(width: nat)
    requires width + 511 < MODULUS && CeilDiv(width, 512) * 32 < MODULUS
    ensures QpmapSizeStride(width) == CeilDiv(width, 512) * 32 && CeilDiv(width, 16) <= CeilDiv(width, 512) * 32
  {
    Small(width + 511);
    Small(CeilDiv(width, 512) * 32);
  }

  /** The map has an entry for every block of 16 by 16 samples, unless the size wraps. */
  lemma QpmapCoversBlocks(width: nat, height: nat)
    requires width + 511 < MODULUS && height + 15 < MODULUS
    requires Times(CeilDiv(width, 512) * 32, CeilDiv(height, 16)) < MODULUS
    ensures QpmapSize(width, height) == Times(CeilDiv(width, 512) * 32, CeilDiv(height, 16))
    ensures QpmapSize(width, height) >= Times(CeilDiv(width, 16), CeilDiv(height, 16))
  {
    assert CeilDiv(width, 512) * 32 < MODULUS;
    QpmapRow(width);
    Small(height + 15);
    assert DivUp(height, 16) == CeilDiv(height, 16);
    Small(Times(CeilDiv(width, 512) * 32, CeilDiv(height, 16)));
    TimesGrows(CeilDiv(width, 16), CeilDiv(height, 16), CeilDiv(width, 512) * 32, CeilDiv(height, 16));
  }

  lemma QpmapFitsUpTo16384(width: nat, height: nat)
    requires width <= 16384 && height <= 16384
    ensures Times(CeilDiv(width, 512) * 32, CeilDiv(height, 16)) < MODULUS
  {
    TimesGrows(CeilDiv(width, 512) * 32, CeilDiv(height, 16), 1024, 1024);
  }
}

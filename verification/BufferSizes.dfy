/**
  What the buffer sizes are, in plain numbers: in terms of width, height, format and depth alone, and of none of
  the functions that the sizes are defined by.
 */
module BufferSizes {
  import opened Buffers

  /** The alignment that counts: 32 unless more is asked for, at most 1024, else the next multiple of 32. */
  predicate AlignmentFor(asked: nat, align: nat) {
    && align % 32 == 0 && 32 <= align <= 1024
    && (asked == 0 ==> align == 32)
    && (asked > 1024 ==> align == 1024)
    && (0 < asked <= 1024 ==> asked <= align < asked + 32)
  }

  lemma AlignmentIsFor(p: Picture)
    ensures AlignmentFor(p.align, p.EffectiveAlign())
  {
    p.AlignInRange();
    if 0 < p.align <= 1024 {
      RoundUpIsLeast(p.align, 32, 1024);
    }
  }

  /** `x` is the least multiple of `align` that is not below `least`. */
  predicate RoundedUp(least: nat, align: nat, x: nat)
    requires align > 0
  {
    x % align == 0 && least <= x < least + align
  }

  /** All planes of a picture with `luma` bytes of luma; two chroma planes of a quarter, a half or all of it. */
  predicate PlanesOf(format: PixelFormat, compressed: bool, luma: nat, all: nat) {
    match format
    case Yvu420 | Yuv420 => luma % 2 == 0 && all == luma + luma / 2
    case Yvu422 | Yuv422 => all == luma + luma
    case Yuv400 => all == luma
    case S16C1 => if compressed then all == luma + luma + luma else all == luma
    case OtherFormat => all == luma + luma + luma
  }

  lemma PlanesAre(p: Picture, luma: nat)
    requires luma % 2 == 0
    ensures PlanesOf(p.format, p.compressed, luma, p.Planes(luma))
  {
  }

  /** The bytes of a row of `width` samples. */
  predicate RowOf(width: nat, bits: BitWidth, bytes: nat) {
    match bits
    case Bits8 => bytes == width
    case Bits16 => bytes == 2 * width
    case OtherBits => bytes == 0
  }

  lemma RowIs(p: Picture)
    ensures RowOf(p.width, if p.compressed then Bits8 else p.bits, p.RowBytes())
  {
    TimesIsProduct(p.width, 8);
    TimesIsProduct(p.width, 16);
    TimesIsProduct(p.width, 0);
  }

  /** The rows of a picture, in pairs. */
  predicate Paired(height: nat, rows: nat) {
    rows % 2 == 0 && height <= rows <= height + 1
  }

  /** The bytes of head for each row: one for every 256 samples, as a power of two from 16 to 64. */
  predicate HeadOf(width: nat, stride: nat) {
    && (width <= 4096 ==> stride == 16)
    && (4096 < width <= 8192 ==> stride == 32)
    && (8192 < width ==> stride == 64)
  }

  /** The luma plane and all planes of the picture itself. */
  ghost predicate MainSizes(p: Picture, config: CalConfig) {
    exists align: nat, row: nat, rows: nat ::
      && AlignmentFor(p.align, align) && RowOf(p.width, if p.compressed then Bits8 else p.bits, row)
      && Paired(p.height, rows) && RoundedUp(row, align, config.mainStride)
      && config.mainYSize == config.mainStride * rows
      && PlanesOf(p.format, p.compressed, config.mainYSize, config.mainSize)
  }

  /** The head of a compressed picture; its planes are rounded up together. */
  ghost predicate HeadSizes(p: Picture, config: CalConfig) {
    exists align: nat, rows: nat, planes: nat ::
      && AlignmentFor(p.align, align) && Paired(p.height, rows) && HeadOf(p.width, config.headStride)
      && config.headYSize == config.headStride * rows
      && PlanesOf(p.format, p.compressed, config.headYSize, planes) && RoundedUp(planes, align, config.headSize)
  }

  lemma RowsArePaired(p: Picture)
    ensures Paired(p.height, p.AlignedHeight())
  {
    RoundUpIsLeast(p.height, 2, 0);
  }

  lemma MainSizesAre(p: Picture)
    requires !p.Unsupported()
    ensures MainSizes(p, p.Exact())
  {
    AlignmentIsFor(p);
    RowIs(p);
    RowsArePaired(p);
    RoundUpIsLeast(p.RowBytes(), p.EffectiveAlign(), 0);
    TimesIsProduct(p.MainStride(), p.AlignedHeight());
    YSizeIsEven(p);
    PlanesAre(p, p.YSize());
    var align, row, rows := p.EffectiveAlign(), p.RowBytes(), p.AlignedHeight();
    var config := p.Exact();
    assert RoundedUp(row, align, config.mainStride);
    assert config.mainYSize == config.mainStride * rows;
  }

  lemma HeadSizesAre(p: Picture)
    requires p.compressed && !p.Unsupported()
    ensures HeadSizes(p, p.Exact())
  {
    AlignmentIsFor(p);
    RowsArePaired(p);
    TimesIsProduct(p.HeadStride(), p.AlignedHeight());
    YSizeIsEven(p);
    PlanesAre(p, p.HeadYSize());
    RoundUpIsLeast(p.Planes(p.HeadYSize()), p.EffectiveAlign(), 0);
    var align, rows, planes := p.EffectiveAlign(), p.AlignedHeight(), p.Planes(p.HeadYSize());
    var config := p.Exact();
    assert RoundedUp(planes, align, config.headSize);
    assert config.headYSize == config.headStride * rows;
  }

  /** Every size of the result; compression needs 8 bits, and without it there is no head. */
  lemma PictureSizes(p: Picture)
    ensures var config := p.Exact();
            && config.extStride == 0 && config.extYSize == 0
            && config.vbSize == config.headSize + config.mainSize
            && (p.compressed && p.bits != Bits8 ==>
                 config.mainStride == 0 && config.mainYSize == 0 && config.mainSize == 0 && config.headStride == 0 &&
                 config.headYSize == 0 && config.headSize == 0)
            && (!p.compressed ==>
                 MainSizes(p, config) && config.headStride == 0 && config.headYSize == 0 && config.headSize == 0)
            && (p.compressed && p.bits == Bits8 ==> MainSizes(p, config) && HeadSizes(p, config))
  {
    if !p.Unsupported() {
      MainSizesAre(p);
    }
    if p.compressed && p.bits == Bits8 {
      HeadSizesAre(p);
    }
  }

  /** Up to 16384 samples the head has a byte for each 256 samples of the row. */
  lemma HeadCoversRow(width: nat, stride: nat)
    requires HeadOf(width, stride) && width <= 16384
    ensures 256 * stride >= width
  {
  }

  // ----- Reference buffers -----

  /** Luma and half as much chroma, on a grid of 64 by 16, and two headers. */
  ghost predicate ReferenceOf(codec: PayloadType, width: nat, height: nat, size: nat) {
    exists header: nat, columns: nat, rows: nat ::
      && HeaderOf(codec, width, height, header)
      && RoundedUp(width, 64, columns) && RoundedUp(height, 16, rows)
      && size == header + header + columns * rows + columns * rows / 2
  }

  /** 64 bytes for each tile of 128 by 64 samples, or 32 bytes for each of 512 by 16. */
  ghost predicate HeaderOf(codec: PayloadType, width: nat, height: nat, header: nat) {
    match codec
    case H265 => exists m: nat, n: nat :: RoundedUp(width, 128, 128 * m) && RoundedUp(height, 64, 64 * n) && header == 64 * m * n
    case H264 => exists m: nat, n: nat :: RoundedUp(width, 512, 512 * m) && RoundedUp(height, 16, 16 * n) && header == 32 * m * n
    case OtherPayload => header == 0
  }

  /** Rounding up gives a whole number of tiles. */
  lemma WholeTiles(x: nat, align: nat) returns (tiles: nat)
    requires align > 0
    ensures RoundUp(x, align) == align * tiles && RoundedUp(x, align, align * tiles)
  {
    tiles := (x + align - 1) / align;
    RoundUpIsLeast(x, align, 0);
    assert align * tiles == tiles * align;
  }

  lemma H265Tiles(width: nat, height: nat, m: nat, n: nat)
    requires RoundUp(width, 128) == 128 * m && RoundUp(height, 64) == 64 * n
    ensures RefHeader(H265, width, height) == 64 * m * n
  {
    assert 128 * m / 64 * 32 == 64 * m && 64 * n / 64 == n;
    TimesIsProduct(64 * m, n);
  }

  lemma H264Tiles(width: nat, height: nat, m: nat, n: nat)
    requires RoundUp(width, 512) == 512 * m && RoundUp(height, 16) == 16 * n
    ensures RefHeader(H264, width, height) == 32 * m * n
  {
    assert 512 * m / 256 * 16 == 32 * m && 16 * n / 16 == n;
    TimesIsProduct(32 * m, n);
  }

  lemma HeaderIs(codec: PayloadType, width: nat, height: nat)
    ensures HeaderOf(codec, width, height, RefHeader(codec, width, height))
  {
    match codec
    case H265 =>
      var m := WholeTiles(width, 128);
      var n := WholeTiles(height, 64);
      H265Tiles(width, height, m, n);
    case H264 =>
      var m := WholeTiles(width, 512);
      var n := WholeTiles(height, 16);
      H264Tiles(width, height, m, n);
    case OtherPayload =>
  }

  /** A reference buffer is for the two codecs, for 8 bits, and for a picture that has samples. */
  lemma ReferenceSize(codec: PayloadType, width: nat, height: nat, bits: BitWidth)
    ensures codec == OtherPayload || bits != Bits8 || width == 0 || height == 0 ==> ExactRef(codec, width, height, bits) == 0
    ensures codec != OtherPayload && bits == Bits8 && width > 0 && height > 0 ==>
              ReferenceOf(codec, width, height, ExactRef(codec, width, height, bits))
  {
    if codec != OtherPayload && bits == Bits8 && width > 0 && height > 0 {
      HeaderIs(codec, width, height);
      var columns, rows := RoundUp(width, 64), RoundUp(height, 16);
      RoundUpIsLeast(width, 64, 0);
      RoundUpIsLeast(height, 16, 0);
      TimesIsProduct(columns, rows);
      assert RoundedUp(width, 64, columns) && RoundedUp(height, 16, rows);
      assert ExactRef(codec, width, height, bits) ==
             RefHeader(codec, width, height) + RefHeader(codec, width, height) + columns * rows + columns * rows / 2;
    }
  }
}

/** The DDS texture-file header: `Init` fills it in place from a decoded
    texture's metadata, choosing the pixel format from the texture's
    compression type. Header fields are 32-bit signed integers; the flag
    words only ever hold small nonnegative values and have single bits or-ed
    into them, which is `SetFlag`. */
module Dds {
  import opened Results
  import opened Bytes

  /** The compression types a texture may carry. */
  datatype TextureCompression = Ati1 | Ati2 | Dxt1 | Dxt3 | Dxt5 | A8R8G8B8 | P8 | OtherFormat

  /** A length of a .NET array, which never exceeds the signed 32-bit range. */
  type ArrayLength = x: int | 0 <= x < 0x8000_0000

  /** The texture metadata the header is filled from. The numeric values of
      the compression enumeration are not part of this model: the texture
      carries its type's value alongside the type. */
  datatype Texture = Texture(
    width: u32,
    height: u32,
    mipMapCount: u32,
    pitchOrLinearSize: u32,
    dataLength: ArrayLength,
    compressionType: TextureCompression,
    compressionValue: u32)

  datatype PixelFormat = PixelFormat(
    size: int,
    flags: nat,
    fourCC: int,
    rgbBitCount: int,
    rBitMask: int,
    gBitMask: int,
    bBitMask: int,
    alphaBitMask: int)

  datatype DdsCaps = DdsCaps(caps1: int, caps2: int, reserved: seq<int>)

  const Magic := 0x2053_4444      // "DDS " little-endian
  const HeaderSize := 0x7C
  const PixelFormatSize := 32

  // Header flags.
  const DdsdCaps := 0x1
  const DdsdHeight := 0x2
  const DdsdWidth := 0x4
  const DdsdPitch := 0x8
  const DdsdPixelFormat := 0x1000
  const DdsdMipMapCount := 0x2_0000
  const DdsdLinearSize := 0x8_0000

  /** The flags every header carries. */
  const RequiredFlags := 0x2_1007

  // Pixel-format flags.
  const DdpfAlphaPixels := 0x1
  const DdpfFourCC := 0x4
  const DdpfRgb := 0x40

  const BlockCompressedCaps := 0x40_1008
  const UncompressedCaps := 0x40_100A
  const Ati1FourCC := 0x5534_4342 // "BC4U"
  const Ati2FourCC := 0x5535_4342 // "BC5U"

  /** Bitwise or of two nonnegative integers, bit by bit from the lowest. */
  function Or(a: nat, b: nat): (r: nat)
    decreases a + b
  {
    if a == 0 then b
    else if b == 0 then a
    else 2 * Or(a / 2, b / 2) + (if a % 2 == 1 || b % 2 == 1 then 1 else 0)
  }

  /** `1 << k`: the single-bit mask of bit `k`, which exceeds `k`. */
  function Pow2(k: nat): (r: nat)
    ensures r > k
  {
    if k == 0 then 1 else 2 * Pow2(k - 1)
  }

  /** Whether the single-bit `mask` is set in `x`. */
  predicate HasFlag(x: nat, mask: nat)
    requires mask > 0
  {
    (x / mask) % 2 == 1
  }

  /** `x |= mask` for a single-bit `mask`: adds the bit unless it is set. */
  function SetFlag(x: nat, mask: nat): (r: nat)
    requires mask > 0
    ensures HasFlag(r, mask)
  {
    if HasFlag(x, mask) then x
    else
      DivAddOne(x, mask);
      x + mask
  }

  lemma MulGap(d: nat, lo: nat, hi: nat)
    requires lo < hi
    ensures d * hi >= d * lo + d
  {
    assert d * hi == d * lo + d * (hi - lo);
    assert d * (hi - lo) == d + d * (hi - lo - 1);
  }

  /** Division is determined by quotient and remainder. */
  lemma DivUnique(x: nat, d: nat, q: nat, r: nat)
    requires d > 0 && x == d * q + r && r < d
    ensures x / d == q
  {
    var q' := x / d;
    var r' := x % d;
    assert d * q' + r' == d * q + r;
    if q' < q {
      MulGap(d, q', q);
    } else if q' > q {
      MulGap(d, q, q');
    }
  }

  lemma HalveTwice(x: nat, p: nat)
    requires p > 0
    ensures x / (2 * p) == (x / 2) / p
  {
    var q := (x / 2) / p;
    var rest := (x / 2) % p;
    assert x / 2 == p * q + rest;
    assert x == (2 * p) * q + (2 * rest + x % 2);
    DivUnique(x, 2 * p, q, 2 * rest + x % 2);
  }

  lemma DivAddOne(x: nat, m: nat)
    requires m > 0
    ensures (x + m) / m == x / m + 1
  {
    DivUnique(x + m, m, x / m + 1, x % m);
  }

  lemma OrZero(a: nat)
    ensures Or(a, 0) == a
  {
  }

  /** Adding a flag by `SetFlag` is or-ing it in. */
  lemma {:induction false} SetFlagIsOr(x: nat, k: nat)
    ensures SetFlag(x, Pow2(k)) == Or(x, Pow2(k))
    decreases k
  {
    if k == 0 {
      if x != 0 {
        OrZero(x / 2);
      }
    } else if x != 0 {
      var p := Pow2(k - 1);
      SetFlagIsOr(x / 2, k - 1);
      HalveTwice(x, p);
    }
  }

  /** The flag constants are single bits. */
  lemma FlagsAreBits()
    ensures DdsdCaps == Pow2(0) && DdsdHeight == Pow2(1) && DdsdWidth == Pow2(2) && DdsdPitch == Pow2(3)
    ensures DdsdPixelFormat == Pow2(12) && DdsdMipMapCount == Pow2(17) && DdsdLinearSize == Pow2(19)
    ensures DdpfAlphaPixels == Pow2(0) && DdpfFourCC == Pow2(2) && DdpfRgb == Pow2(6)
  {
  }

  /** Setting the header flags one at a time, from zero, gives the required
      set. */
  lemma RequiredFlagsBySetting()
    ensures SetFlag(SetFlag(SetFlag(SetFlag(SetFlag(0, DdsdCaps), DdsdHeight), DdsdWidth), DdsdPixelFormat), DdsdMipMapCount)
            == RequiredFlags
  {
  }

  /** The formats stored as compressed 4x4 blocks, described by a FourCC code. */
  predicate IsBlockCompressed(c: TextureCompression) {
    c == Ati1 || c == Ati2 || c == Dxt1 || c == Dxt3 || c == Dxt5
  }

  /** The formats stored as 32-bit pixels, described by channel masks. */
  predicate IsUncompressed(c: TextureCompression) {
    c == A8R8G8B8 || c == P8
  }

  /** The FourCC code of a block-compressed texture: the enumeration value
      for the DXT formats, fixed codes for the ATI ones. */
  function FourCC(t: Texture): (r: int)
    requires IsBlockCompressed(t.compressionType)
    ensures t.compressionType == Ati1 ==> r == Ati1FourCC
    ensures t.compressionType == Ati2 ==> r == Ati2FourCC
    ensures t.compressionType !in {Ati1, Ati2} ==> Wrap32(r) == t.compressionValue
    ensures -0x8000_0000 <= r < 0x8000_0000
  {
    match t.compressionType
    case Ati1 => Ati1FourCC
    case Ati2 => Ati2FourCC
    case _ => ToInt32(t.compressionValue)
  }

  /** The magic number and the two fixed FourCC codes are ASCII tags. */
  lemma TagsSpellText()
    ensures Latin1(EncodeU32(Magic)) == "DDS "
    ensures Latin1(EncodeU32(Ati1FourCC)) == "BC4U"
    ensures Latin1(EncodeU32(Ati2FourCC)) == "BC5U"
  {
  }

  /** Header and pixel-format flags that describe a layout: every required
      flag is set, exactly one of the pitch and linear-size flags is, and the
      pixel format uses a FourCC code exactly when the size is a linear size. */
  predicate FlagsDescribe(flags: nat, pixelFlags: nat) {
    && HasFlag(flags, DdsdCaps) && HasFlag(flags, DdsdHeight) && HasFlag(flags, DdsdWidth)
    && HasFlag(flags, DdsdPixelFormat) && HasFlag(flags, DdsdMipMapCount)
    && HasFlag(flags, DdsdPitch) != HasFlag(flags, DdsdLinearSize)
    && (HasFlag(pixelFlags, DdpfFourCC) <==> HasFlag(flags, DdsdLinearSize))
  }

  /** The header and pixel-format flags of a block-compressed layout. */
  const LinearSizeFlags := 0xA_1007
  const FourCCPixelFlags := 0x4
  /** The header and pixel-format flags of a 32-bit pixel layout. */
  const PitchFlags := 0x2_100F
  const RgbaPixelFlags := 0x41

  /** The or-ing `Init` does in each branch yields those flags; both layouts
      are described by them, and the flags an unsupported format leaves
      behind are not. */
  lemma InitFlags()
    ensures SetFlag(RequiredFlags, DdsdLinearSize) == LinearSizeFlags && SetFlag(0, DdpfFourCC) == FourCCPixelFlags
    ensures SetFlag(RequiredFlags, DdsdPitch) == PitchFlags && SetFlag(SetFlag(0, DdpfRgb), DdpfAlphaPixels) == RgbaPixelFlags
    ensures FlagsDescribe(LinearSizeFlags, FourCCPixelFlags)
    ensures FlagsDescribe(PitchFlags, RgbaPixelFlags)
    ensures !FlagsDescribe(RequiredFlags, 0) && !FlagsDescribe(SetFlag(LinearSizeFlags, DdsdPitch), FourCCPixelFlags)
  {
  }

  /** A header and its pixel format as `Init` leaves them. */
  class DdsHeader {
    var magic: int
    var size: int
    var flags: nat
    var height: int
    var width: int
    var pitchOrLinearSize: int
    var depth: int
    var mipMapCount: int
    var reserved1: seq<int>
    var pixelFormat: PixelFormat
    var ddsCaps: DdsCaps
    var reserved2: int

    /** A zeroed header, as a fresh struct value. */
    constructor ()
      ensures magic == 0 && size == 0 && flags == 0 && pitchOrLinearSize == 0
      ensures reserved1 == [] && reserved2 == 0
      ensures pixelFormat == PixelFormat(0, 0, 0, 0, 0, 0, 0, 0) && ddsCaps == DdsCaps(0, 0, [])
    {
      magic, size, flags := 0, 0, 0;
      height, width, pitchOrLinearSize, depth, mipMapCount := 0, 0, 0, 0, 0;
      reserved1, reserved2 := [], 0;
      pixelFormat := PixelFormat(0, 0, 0, 0, 0, 0, 0, 0);
      ddsCaps := DdsCaps(0, 0, []);
    }

    /** The header's flags describe its layout. */
    ghost predicate Described()
      reads this
    {
      FlagsDescribe(flags, pixelFormat.flags)
    }

    /** The fields every format sets, written first: the magic number, the
        header size, the required flags, the dimensions, the data length as
        the linear size, a depth of one, the mip count and a pixel format of
        32 bytes with no flags. */
    method InitCommon(texture: Texture)
      modifies this`magic, this`size, this`flags, this`height, this`width
      modifies this`pitchOrLinearSize, this`depth, this`mipMapCount, this`pixelFormat
      ensures magic == Magic && size == HeaderSize && flags == RequiredFlags && depth == 1
      ensures height == ToInt32(texture.height) && width == ToInt32(texture.width)
      ensures pitchOrLinearSize == texture.dataLength && mipMapCount == ToInt32(texture.mipMapCount)
      ensures pixelFormat == old(pixelFormat).(size := PixelFormatSize, flags := 0)
    {
      magic := Magic;
      size := HeaderSize;
      flags := 0;
      flags := SetFlag(flags, DdsdCaps);
      flags := SetFlag(flags, DdsdHeight);
      flags := SetFlag(flags, DdsdWidth);
      flags := SetFlag(flags, DdsdPixelFormat);
      flags := SetFlag(flags, DdsdMipMapCount);
      RequiredFlagsBySetting();
      height := ToInt32(texture.height);
      width := ToInt32(texture.width);
      pitchOrLinearSize := texture.dataLength;
      depth := 1;
      mipMapCount := ToInt32(texture.mipMapCount);
      pixelFormat := pixelFormat.(size := PixelFormatSize);
      pixelFormat := pixelFormat.(flags := 0);
    }

    /** The block-compressed layout: the linear-size flag, the caps and a
        FourCC pixel format. */
    method DescribeBlocks(texture: Texture)
      requires IsBlockCompressed(texture.compressionType)
      modifies this`flags, this`ddsCaps, this`pixelFormat
      ensures flags == SetFlag(old(flags), DdsdLinearSize)
      ensures ddsCaps == old(ddsCaps).(caps1 := BlockCompressedCaps)
      ensures pixelFormat == old(pixelFormat).(flags := SetFlag(old(pixelFormat.flags), DdpfFourCC), fourCC := FourCC(texture))
    {
      flags := SetFlag(flags, DdsdLinearSize);
      ddsCaps := ddsCaps.(caps1 := BlockCompressedCaps);
      pixelFormat := pixelFormat.(flags := SetFlag(pixelFormat.flags, DdpfFourCC));
      pixelFormat := pixelFormat.(fourCC := FourCC(texture));
    }

    /** The 32-bit pixel layout: the pitch flag and the texture's pitch, RGB
        and alpha pixel flags, 32 bits per pixel with the A8R8G8B8 channel
        masks, and the caps. */
    method DescribePixels(texture: Texture)
      modifies this`flags, this`pitchOrLinearSize, this`ddsCaps, this`pixelFormat
      ensures flags == SetFlag(old(flags), DdsdPitch)
      ensures pitchOrLinearSize == ToInt32(texture.pitchOrLinearSize)
      ensures ddsCaps == old(ddsCaps).(caps1 := UncompressedCaps)
      ensures pixelFormat == old(pixelFormat).(flags := SetFlag(SetFlag(old(pixelFormat.flags), DdpfRgb), DdpfAlphaPixels),
                                               rgbBitCount := 0x20, rBitMask := 0xFF_0000, gBitMask := 0xFF00,
                                               bBitMask := 0xFF, alphaBitMask := -0x100_0000)
    {
      flags := SetFlag(flags, DdsdPitch);
      pitchOrLinearSize := ToInt32(texture.pitchOrLinearSize);
      pixelFormat := pixelFormat.(flags := SetFlag(pixelFormat.flags, DdpfRgb));
      pixelFormat := pixelFormat.(flags := SetFlag(pixelFormat.flags, DdpfAlphaPixels));
      pixelFormat := pixelFormat.(rgbBitCount := 0x20, rBitMask := 0xFF_0000, gBitMask := 0xFF00,
                                  bBitMask := 0xFF, alphaBitMask := ToInt32(0xFF00_0000));
      ddsCaps := ddsCaps.(caps1 := UncompressedCaps);
    }

    /** Fills the header from `texture`. The dimensions, depth, mip count and
        pixel-format size are set first; a block-compressed format then adds
        the linear-size flag and a FourCC code, a 32-bit format the pitch flag
        and the channel masks, and any other format fails with those first
        fields already written. */
    method Init(texture: Texture) returns (r: Result<()>)
      modifies this
      ensures magic == Magic && size == HeaderSize && depth == 1
      ensures height == ToInt32(texture.height) && width == ToInt32(texture.width)
      ensures mipMapCount == ToInt32(texture.mipMapCount) && pixelFormat.size == PixelFormatSize
      ensures reserved1 == old(reserved1) && reserved2 == old(reserved2)
      ensures ddsCaps.caps2 == old(ddsCaps.caps2) && ddsCaps.reserved == old(ddsCaps.reserved)
      ensures r.Ok? <==> IsBlockCompressed(texture.compressionType) || IsUncompressed(texture.compressionType)
      ensures r.Ok? ==> Described()
      ensures IsBlockCompressed(texture.compressionType) ==>
                && flags == LinearSizeFlags
                && pitchOrLinearSize == texture.dataLength
                && ddsCaps.caps1 == BlockCompressedCaps
                && pixelFormat == old(pixelFormat).(size := PixelFormatSize, flags := FourCCPixelFlags, fourCC := FourCC(texture))
      ensures IsUncompressed(texture.compressionType) ==>
                && flags == PitchFlags
                && pitchOrLinearSize == ToInt32(texture.pitchOrLinearSize)
                && ddsCaps.caps1 == UncompressedCaps
                && pixelFormat == old(pixelFormat).(size := PixelFormatSize, flags := RgbaPixelFlags,
                                                    rgbBitCount := 0x20, rBitMask := 0xFF_0000, gBitMask := 0xFF00,
                                                    bBitMask := 0xFF, alphaBitMask := -0x100_0000)
      ensures r.Err? ==> && r.error == UnsupportedFormat
                         && flags == RequiredFlags
                         && pitchOrLinearSize == texture.dataLength
                         && pixelFormat == old(pixelFormat).(size := PixelFormatSize, flags := 0)
                         && ddsCaps == old(ddsCaps)
    {
      InitCommon(texture);
      InitFlags();
      var c := texture.compressionType;
      if IsBlockCompressed(c) {
        DescribeBlocks(texture);
        r := Ok(());
      } else if IsUncompressed(c) {
        DescribePixels(texture);
        r := Ok(());
      } else {
        r := Err(UnsupportedFormat);
      }
    }
  }
}

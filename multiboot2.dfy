/**
 * The Multiboot2 request header of src/multiboot2.rs: the packed record a
 * Multiboot2 loader looks for near the start of the kernel image (section 3.1
 * of the Multiboot2 Specification, version 2.0), its checksum, and the tags
 * that may follow it.
 *
 * Every record is `#[repr(C, packed)]`, so its image is its fields' little-endian
 * bytes back to back.  The sizes that the source takes with a size-of macro are
 * the lengths of those images, written here as constants and checked against
 * the images by lemmas.
 */
module Multiboot2 {
  import opened Wrappers
  import opened Bytes

  /** `MULTIBOOT2_HEADER_MAGIC`: the request header's first word (section 3.1.2). */
  const HEADER_MAGIC: bv32 := 0xE852_50D6

  /** `MULTIBOOT2_LOAD_MAGIC`: the value a compliant loader leaves in EAX (section 3.2). */
  const LOAD_MAGIC: bv32 := 0x36D7_6289

  // ----- Enumerations -----

  /** `Multiboot2Arch`, `#[repr(u32)]`: the only variant is 32-bit protected mode. */
  datatype Arch = ProtectedMode

  function ArchValue(a: Arch): bv32
  {
    match a
    case ProtectedMode => 0
  }

  function ArchOf(v: bv32): Option<Arch>
  {
    if v == 0 then Some(ProtectedMode) else None
  }

  lemma ArchRoundTrip(a: Arch, v: bv32)
    ensures ArchOf(ArchValue(a)) == Some(a)
    ensures ArchOf(v).Some? ==> ArchValue(ArchOf(v).value) == v
  {}

  /** `Multiboot2TagType`, `#[repr(u16)]`: the end-of-tags marker and the framebuffer request. */
  datatype TagType = Final | Framebuffer

  function TagTypeValue(t: TagType): bv16
  {
    match t
    case Final => 0
    case Framebuffer => 5
  }

  function TagTypeOf(v: bv16): Option<TagType>
  {
    if v == 0 then Some(Final) else if v == 5 then Some(Framebuffer) else None
  }

  /** The two codes name the two variants and nothing else. */
  lemma TagTypeRoundTrip(t: TagType, v: bv16)
    ensures TagTypeOf(TagTypeValue(t)) == Some(t)
    ensures TagTypeOf(v).Some? ==> TagTypeValue(TagTypeOf(v).value) == v
  {}

  // ----- Tags -----

  /** `Multiboot2TagBase`: the header every tag starts with (section 3.1.3). */
  datatype TagBase = TagBase(type_: TagType, flags: bv16, size: bv32)

  const TAG_BASE_SIZE: nat := 8

  function TagBaseBytes(t: TagBase): (b: seq<bv8>)
    ensures |b| == TAG_BASE_SIZE
  {
    Le16(TagTypeValue(t.type_)) + Le16(t.flags) + Le32(t.size)
  }

  /** `type` sits at bytes 0-1, `flags` at 2-3 and `size` at 4-7. */
  lemma TagBaseLayout(t: TagBase)
    ensures TagTypeOf(FromLe16(TagBaseBytes(t)[0..2])) == Some(t.type_)
    ensures FromLe16(TagBaseBytes(t)[2..4]) == t.flags
    ensures FromLe32(TagBaseBytes(t)[4..8]) == t.size
  {
    var b := TagBaseBytes(t);
    assert b[0..2] == Le16(TagTypeValue(t.type_));
    assert b[2..4] == Le16(t.flags);
    assert b[4..8] == Le32(t.size);
    Le16RoundTrip(TagTypeValue(t.type_));
    Le16RoundTrip(t.flags);
    Le32RoundTrip(t.size);
    TagTypeRoundTrip(t.type_, 0);
  }

  /** `Multiboot2FinalTag`: the tag that ends the list. */
  datatype FinalTag = FinalTag(base: TagBase)

  const FINAL_TAG_SIZE: nat := 8

  function FinalTagBytes(t: FinalTag): (b: seq<bv8>)
    ensures |b| == FINAL_TAG_SIZE
  {
    TagBaseBytes(t.base)
  }

  /** `Multiboot2FinalTag::new()`: type 0, flags 0, and its own size. */
  function NewFinalTag(): FinalTag
  {
    FinalTag(TagBase(Final, 0, FINAL_TAG_SIZE as bv32))
  }

  /** The end tag is the eight bytes `0, 0, 0, 0, 8, 0, 0, 0`: type 0, flags 0, size 8. */
  lemma FinalTagValue()
    ensures NewFinalTag() == FinalTag(TagBase(Final, 0, 8))
    ensures NewFinalTag().base.size as int == |FinalTagBytes(NewFinalTag())|
    ensures FinalTagBytes(NewFinalTag()) == [0, 0, 0, 0, 8, 0, 0, 0]
  {}

  /** `Multiboot2FramebufferTag`: a request for a linear framebuffer (section 3.1.10). */
  datatype FramebufferTag = FramebufferTag(base: TagBase, width: bv32, height: bv32, depth: bv32)

  const FRAMEBUFFER_TAG_SIZE: nat := 20

  function FramebufferTagBytes(t: FramebufferTag): (b: seq<bv8>)
    ensures |b| == FRAMEBUFFER_TAG_SIZE
  {
    TagBaseBytes(t.base) + Le32(t.width) + Le32(t.height) + Le32(t.depth)
  }

  /** `width` sits at bytes 8-11, `height` at 12-15 and `depth` at 16-19. */
  lemma FramebufferTagLayout(t: FramebufferTag)
    ensures FramebufferTagBytes(t)[0..8] == TagBaseBytes(t.base)
    ensures FromLe32(FramebufferTagBytes(t)[8..12]) == t.width
    ensures FromLe32(FramebufferTagBytes(t)[12..16]) == t.height
    ensures FromLe32(FramebufferTagBytes(t)[16..20]) == t.depth
  {
    var b := FramebufferTagBytes(t);
    assert b[8..12] == Le32(t.width);
    assert b[12..16] == Le32(t.height);
    assert b[16..20] == Le32(t.depth);
    Le32RoundTrip(t.width);
    Le32RoundTrip(t.height);
    Le32RoundTrip(t.depth);
  }

  /** `Multiboot2FramebufferTag::new()`: 1024 by 768 at 32 bits per pixel. */
  function NewFramebufferTag(): FramebufferTag
  {
    FramebufferTag(TagBase(Framebuffer, 0, FRAMEBUFFER_TAG_SIZE as bv32), 1024, 768, 32)
  }

  lemma FramebufferTagValue()
    ensures NewFramebufferTag() == FramebufferTag(TagBase(Framebuffer, 0, 20), 1024, 768, 32)
    ensures NewFramebufferTag().base.size as int == |FramebufferTagBytes(NewFramebufferTag())|
  {}

  // ----- The checksum -----

  /*
   * The checksum is a constant expression over `u32` and `i32` values, which
   * are numbers here, with each cast written out.  In a constant expression an
   * arithmetic overflow does not wrap: it stops the compilation, which is
   * `None` here.
   */

  const U32_LIMIT: int := 0x1_0000_0000

  type U32 = x: int | 0 <= x < U32_LIMIT

  type I32 = x: int | -0x8000_0000 <= x < 0x8000_0000

  /** `x + y` on `u32`; defined exactly when the sum fits. */
  function CheckedAddU32(x: U32, y: U32): Option<U32>
  {
    if x + y < U32_LIMIT then Some(x + y) else None
  }

  /** `x as i32` for a `u32` `x`: the same 32 bits read in two's complement. */
  function U32AsI32(x: U32): (r: I32)
    ensures r % U32_LIMIT == x
  {
    if x < 0x8000_0000 then x else x - U32_LIMIT
  }

  /** `-x` on `i32`; negating `i32::MIN` overflows. */
  function CheckedNegI32(x: I32): Option<I32>
  {
    if x == -0x8000_0000 then None else Some(-x)
  }

  /** `x as u32` for an `i32` `x`: the same 32 bits read as unsigned. */
  function I32AsU32(x: I32): (r: U32)
    ensures r % U32_LIMIT == x % U32_LIMIT
  {
    if x < 0 then x + U32_LIMIT else x
  }

  /**
   * The `checksum` expression of `Multiboot2Header::new()`:
   * `(-((magic as u32 + arch as u32 + length as u32) as i32)) as u32`.
   */
  function Checksum(magic: U32, arch: U32, length: U32): Option<U32>
  {
    match CheckedAddU32(magic, arch)
    case None => None
    case Some(s) =>
      match CheckedAddU32(s, length)
      case None => None
      case Some(t) =>
        match CheckedNegI32(U32AsI32(t))
        case None => None
        case Some(n) => Some(I32AsU32(n))
  }

  /**
   * Section 3.1.2: whenever the expression is defined, the checksum added to
   * `magic`, `architecture` and `header_length` gives a 32-bit unsigned sum of
   * zero.  It is defined exactly when the `u32` sum of the three does not
   * overflow and is not the bit pattern of `i32::MIN`.
   */
  lemma ChecksumSumsToZero(magic: U32, arch: U32, length: U32)
    ensures Checksum(magic, arch, length).Some? ==>
      (magic + arch + length + Checksum(magic, arch, length).value) % U32_LIMIT == 0
    ensures Checksum(magic, arch, length).Some? <==>
      magic + arch + length < U32_LIMIT && magic + arch + length != 0x8000_0000
  {}

  lemma NumberToWord(n: int, y: bv32)
    requires n == y as int
    ensures n as bv32 == y
  {}

  // ----- The header -----

  /** `Multiboot2Header`, with the framebuffer tag commented out in the source. */
  datatype Header = Header(magic: bv32, arch: Arch, headerLength: bv32, checksum: bv32, finalTag: FinalTag)

  /** The size of the packed header: four `u32` fields and the eight-byte end tag. */
  const HEADER_SIZE: nat := 24

  function HeaderBytes(h: Header): (b: seq<bv8>)
    ensures |b| == HEADER_SIZE
  {
    Le32(h.magic) + Le32(ArchValue(h.arch)) + Le32(h.headerLength) + Le32(h.checksum)
      + FinalTagBytes(h.finalTag)
  }

  /**
   * The offsets of section 3.1.1: `magic` at byte 0, `architecture` at 4,
   * `header_length` at 8, `checksum` at 12, and the tags from 16.
   */
  lemma HeaderLayout(h: Header)
    ensures FromLe32(HeaderBytes(h)[0..4]) == h.magic
    ensures ArchOf(FromLe32(HeaderBytes(h)[4..8])) == Some(h.arch)
    ensures FromLe32(HeaderBytes(h)[8..12]) == h.headerLength
    ensures FromLe32(HeaderBytes(h)[12..16]) == h.checksum
    ensures HeaderBytes(h)[16..24] == FinalTagBytes(h.finalTag)
  {
    var b := HeaderBytes(h);
    assert b[0..4] == Le32(h.magic);
    assert b[4..8] == Le32(ArchValue(h.arch));
    assert b[8..12] == Le32(h.headerLength);
    assert b[12..16] == Le32(h.checksum);
    Le32RoundTrip(h.magic);
    Le32RoundTrip(ArchValue(h.arch));
    Le32RoundTrip(h.headerLength);
    Le32RoundTrip(h.checksum);
    ArchRoundTrip(h.arch, 0);
  }

  /**
   * `Multiboot2Header::new()`: the magic, protected mode, the header's own size
   * and the checksum over those three; `None` if the checksum expression would
   * not evaluate.
   */
  function NewHeader(): Option<Header>
  {
    match Checksum(HEADER_MAGIC as int, ArchValue(ProtectedMode) as int, HEADER_SIZE)
    case None => None
    case Some(c) => Some(Header(HEADER_MAGIC, ProtectedMode, HEADER_SIZE as bv32, c as bv32, NewFinalTag()))
  }

  /**
   * The header evaluates: 0xE852_50D6 + 0 + 24 neither overflows nor is
   * `i32::MIN`.  Its checksum is 0x17AD_AF12, `header_length` is the length of
   * its image, and the four fields sum to zero modulo 2^32.
   */
  lemma HeaderValue()
    ensures NewHeader() == Some(Header(0xE852_50D6, ProtectedMode, 24, 0x17AD_AF12, FinalTag(TagBase(Final, 0, 8))))
    ensures NewHeader().value.headerLength as int == |HeaderBytes(NewHeader().value)|
    ensures var h := NewHeader().value;
      (h.magic as int + ArchValue(h.arch) as int + h.headerLength as int + h.checksum as int) % U32_LIMIT == 0
  {
    assert Checksum(0xE852_50D6, 0, 24) == Some(0x17AD_AF12);
    NumberToWord(0x17AD_AF12, 0x17AD_AF12);
    FinalTagValue();
  }
}

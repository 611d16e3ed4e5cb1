/**
 * The flat segment descriptor table of src/arch/x86/gdt.rs.
 *
 * A descriptor (`GdtSegmentSelector`, a `#[bitfield(u64)]`) is one 64-bit word whose
 * sixteen fields are laid out least-significant bit first.  The word is modelled
 * as a `bv64`; `Decode` is the view a reader of the bit-field struct has of it,
 * and each `With…` builder is the shift/mask update the bit-field macro emits.
 */
module Gdt {
  import opened Bytes
  import opened BitLayout

  /** The raw 64-bit descriptor, as `GdtSegmentSelector::from_bits` stores it. */
  type SegmentSelector = bv64

  /** The fields of a descriptor, in layout order (bit 0 first). */
  datatype Fields = Fields(
    limitLow: bv16,             // bits 0-15
    baseLow: bv16,              // bits 16-31
    baseMid: bv8,               // bits 32-39
    accessed: bool,             // bit 40
    rw: bool,                   // bit 41
    directionConforming: bool,  // bit 42
    executable: bool,           // bit 43
    type_: bool,                // bit 44
    dpl: bv2,                   // bits 45-46
    present: bool,              // bit 47
    limitHigh: bv4,             // bits 48-51
    reserved: bool,             // bit 52
    longMode: bool,             // bit 53
    size: bool,                 // bit 54
    granularity: bool,          // bit 55
    baseHigh: bv8)              // bits 56-63

  /** The declared field widths, in the order of the struct declaration. */
  const FieldWidths: seq<nat> := [16, 16, 8, 1, 1, 1, 1, 1, 2, 1, 4, 1, 1, 1, 1, 8]

  /** The bit index at which field `i` starts: the widths of the fields before it. */
  function FieldOffset(i: nat): nat
    requires i <= |FieldWidths|
  {
    SumTo(FieldWidths, i)
  }

  /** The start bit of each field, in declaration order, and 64 at the end. */
  const FieldShifts: seq<nat> := [0, 16, 32, 40, 41, 42, 43, 44, 45, 47, 48, 52, 53, 54, 55, 56, 64]

  /** The reader's view of a descriptor: each field cut out of the word. */
  function Decode(w: SegmentSelector): Fields
  {
    Fields(
      (w & 0xFFFF) as bv16, ((w >> 16) & 0xFFFF) as bv16, ((w >> 32) & 0xFF) as bv8,
      w & 0x100_0000_0000 != 0, w & 0x200_0000_0000 != 0, w & 0x400_0000_0000 != 0,
      w & 0x800_0000_0000 != 0, w & 0x1000_0000_0000 != 0, ((w >> 45) & 0x3) as bv2,
      w & 0x8000_0000_0000 != 0, ((w >> 48) & 0xF) as bv4, w & 0x10_0000_0000_0000 != 0,
      w & 0x20_0000_0000_0000 != 0, w & 0x40_0000_0000_0000 != 0, w & 0x80_0000_0000_0000 != 0,
      ((w >> 56) & 0xFF) as bv8)
  }

  /** `Decode` unfolded, so that callers see the shifts and masks directly. */
  lemma DecodeOf(w: SegmentSelector)
    ensures Decode(w) == Fields(
      (w & 0xFFFF) as bv16, ((w >> 16) & 0xFFFF) as bv16, ((w >> 32) & 0xFF) as bv8,
      w & 0x100_0000_0000 != 0, w & 0x200_0000_0000 != 0, w & 0x400_0000_0000 != 0,
      w & 0x800_0000_0000 != 0, w & 0x1000_0000_0000 != 0, ((w >> 45) & 0x3) as bv2,
      w & 0x8000_0000_0000 != 0, ((w >> 48) & 0xF) as bv4, w & 0x10_0000_0000_0000 != 0,
      w & 0x20_0000_0000_0000 != 0, w & 0x40_0000_0000_0000 != 0, w & 0x80_0000_0000_0000 != 0,
      ((w >> 56) & 0xFF) as bv8)
  {}

  /** The inverse of `Decode`: each field shifted into place. */
  function Encode(f: Fields): SegmentSelector
  {
    (f.limitLow as SegmentSelector) | ((f.baseLow as SegmentSelector) << 16) |
    ((f.baseMid as SegmentSelector) << 32) | (if f.accessed then 0x100_0000_0000 else 0) |
    (if f.rw then 0x200_0000_0000 else 0) |
    (if f.directionConforming then 0x400_0000_0000 else 0) |
    (if f.executable then 0x800_0000_0000 else 0) | (if f.type_ then 0x1000_0000_0000 else 0) |
    ((f.dpl as SegmentSelector) << 45) | (if f.present then 0x8000_0000_0000 else 0) |
    ((f.limitHigh as SegmentSelector) << 48) | (if f.reserved then 0x10_0000_0000_0000 else 0) |
    (if f.longMode then 0x20_0000_0000_0000 else 0) | (if f.size then 0x40_0000_0000_0000 else 0) |
    (if f.granularity then 0x80_0000_0000_0000 else 0) | ((f.baseHigh as SegmentSelector) << 56)
  }

  lemma EncodeBits(f: Fields)
    ensures var r := Encode(f);
      Fields(
        (r & 0xFFFF) as bv16, ((r >> 16) & 0xFFFF) as bv16, ((r >> 32) & 0xFF) as bv8,
        r & 0x100_0000_0000 != 0, r & 0x200_0000_0000 != 0, r & 0x400_0000_0000 != 0,
        r & 0x800_0000_0000 != 0, r & 0x1000_0000_0000 != 0, ((r >> 45) & 0x3) as bv2,
        r & 0x8000_0000_0000 != 0, ((r >> 48) & 0xF) as bv4, r & 0x10_0000_0000_0000 != 0,
        r & 0x20_0000_0000_0000 != 0, r & 0x40_0000_0000_0000 != 0,
        r & 0x80_0000_0000_0000 != 0, ((r >> 56) & 0xFF) as bv8) == f
  {}

  lemma DecodeEncode(f: Fields)
    ensures Decode(Encode(f)) == f
  {
    EncodeBits(f);
    DecodeOf(Encode(f));
  }

  lemma EncodeDecodeBits(w: SegmentSelector)
    ensures
      ((w & 0xFFFF) as bv16 as SegmentSelector) |
      ((((w >> 16) & 0xFFFF) as bv16 as SegmentSelector) << 16) |
      ((((w >> 32) & 0xFF) as bv8 as SegmentSelector) << 32) |
      (if w & 0x100_0000_0000 != 0 then 0x100_0000_0000 else 0) |
      (if w & 0x200_0000_0000 != 0 then 0x200_0000_0000 else 0) |
      (if w & 0x400_0000_0000 != 0 then 0x400_0000_0000 else 0) |
      (if w & 0x800_0000_0000 != 0 then 0x800_0000_0000 else 0) |
      (if w & 0x1000_0000_0000 != 0 then 0x1000_0000_0000 else 0) |
      ((((w >> 45) & 0x3) as bv2 as SegmentSelector) << 45) |
      (if w & 0x8000_0000_0000 != 0 then 0x8000_0000_0000 else 0) |
      ((((w >> 48) & 0xF) as bv4 as SegmentSelector) << 48) |
      (if w & 0x10_0000_0000_0000 != 0 then 0x10_0000_0000_0000 else 0) |
      (if w & 0x20_0000_0000_0000 != 0 then 0x20_0000_0000_0000 else 0) |
      (if w & 0x40_0000_0000_0000 != 0 then 0x40_0000_0000_0000 else 0) |
      (if w & 0x80_0000_0000_0000 != 0 then 0x80_0000_0000_0000 else 0) |
      ((((w >> 56) & 0xFF) as bv8 as SegmentSelector) << 56)
      == w
  {}

  lemma EncodeDecode(w: SegmentSelector)
    ensures Encode(Decode(w)) == w
  {
    EncodeDecodeBits(w);
    DecodeOf(w);
  }

  /**
   * The layout's static assertion: the declared widths fill exactly 64 bits, and
   * their running sums are the shift list `FieldShifts`.
   */
  lemma WidthsFillWord()
    ensures FieldOffset(|FieldWidths|) == 64
    ensures [FieldOffset(0), FieldOffset(1), FieldOffset(2), FieldOffset(3), FieldOffset(4),
             FieldOffset(5), FieldOffset(6), FieldOffset(7), FieldOffset(8), FieldOffset(9),
             FieldOffset(10), FieldOffset(11), FieldOffset(12), FieldOffset(13), FieldOffset(14),
             FieldOffset(15), FieldOffset(16)] == FieldShifts
  {
    assert FieldOffset(8) == 45;
  }


  /** Two descriptors with the same fields are the same word. */
  lemma DecodeInjective(x: SegmentSelector, y: SegmentSelector)
    requires Decode(x) == Decode(y)
    ensures x == y
  {
    EncodeDecode(x);
    EncodeDecode(y);
  }

  // The `with_*` builders of the bit-field struct that gdt.rs calls.  Each is the
  // mask-and-or the macro emits; its `…Updates` lemma states that it sets its
  // field to the given value and leaves the other fifteen as they were.  The
  // `…Bits` lemma beside it is the same fact written out on the shifts and masks,
  // in which form the solver settles it directly.

  function WithLimitLow(w: SegmentSelector, v: bv16): SegmentSelector
  {
    (w & !0xFFFF) | (v as SegmentSelector)
  }

  lemma WithLimitLowBits(w: SegmentSelector, v: bv16)
    ensures var r := (w & !0xFFFF) | (v as SegmentSelector);
      Fields(
        (r & 0xFFFF) as bv16, ((r >> 16) & 0xFFFF) as bv16, ((r >> 32) & 0xFF) as bv8,
        r & 0x100_0000_0000 != 0, r & 0x200_0000_0000 != 0, r & 0x400_0000_0000 != 0,
        r & 0x800_0000_0000 != 0, r & 0x1000_0000_0000 != 0, ((r >> 45) & 0x3) as bv2,
        r & 0x8000_0000_0000 != 0, ((r >> 48) & 0xF) as bv4, r & 0x10_0000_0000_0000 != 0,
        r & 0x20_0000_0000_0000 != 0, r & 0x40_0000_0000_0000 != 0,
        r & 0x80_0000_0000_0000 != 0, ((r >> 56) & 0xFF) as bv8)
      == Fields(
        v, ((w >> 16) & 0xFFFF) as bv16, ((w >> 32) & 0xFF) as bv8, w & 0x100_0000_0000 != 0,
        w & 0x200_0000_0000 != 0, w & 0x400_0000_0000 != 0, w & 0x800_0000_0000 != 0,
        w & 0x1000_0000_0000 != 0, ((w >> 45) & 0x3) as bv2, w & 0x8000_0000_0000 != 0,
        ((w >> 48) & 0xF) as bv4, w & 0x10_0000_0000_0000 != 0, w & 0x20_0000_0000_0000 != 0,
        w & 0x40_0000_0000_0000 != 0, w & 0x80_0000_0000_0000 != 0, ((w >> 56) & 0xFF) as bv8)
  {}

  lemma WithLimitLowUpdates(w: SegmentSelector, v: bv16)
    ensures Decode(WithLimitLow(w, v)) == Decode(w).(limitLow := v)
  {
    WithLimitLowBits(w, v);
    DecodeOf((w & !0xFFFF) | (v as SegmentSelector));
    DecodeOf(w);
  }

  function WithRw(w: SegmentSelector, v: bool): SegmentSelector
  {
    (w & !0x200_0000_0000) | (if v then 0x200_0000_0000 else 0)
  }

  lemma WithRwBits(w: SegmentSelector, v: bool)
    ensures var r := (w & !0x200_0000_0000) | (if v then 0x200_0000_0000 else 0);
      Fields(
        (r & 0xFFFF) as bv16, ((r >> 16) & 0xFFFF) as bv16, ((r >> 32) & 0xFF) as bv8,
        r & 0x100_0000_0000 != 0, r & 0x200_0000_0000 != 0, r & 0x400_0000_0000 != 0,
        r & 0x800_0000_0000 != 0, r & 0x1000_0000_0000 != 0, ((r >> 45) & 0x3) as bv2,
        r & 0x8000_0000_0000 != 0, ((r >> 48) & 0xF) as bv4, r & 0x10_0000_0000_0000 != 0,
        r & 0x20_0000_0000_0000 != 0, r & 0x40_0000_0000_0000 != 0,
        r & 0x80_0000_0000_0000 != 0, ((r >> 56) & 0xFF) as bv8)
      == Fields(
        (w & 0xFFFF) as bv16, ((w >> 16) & 0xFFFF) as bv16, ((w >> 32) & 0xFF) as bv8,
        w & 0x100_0000_0000 != 0, v, w & 0x400_0000_0000 != 0, w & 0x800_0000_0000 != 0,
        w & 0x1000_0000_0000 != 0, ((w >> 45) & 0x3) as bv2, w & 0x8000_0000_0000 != 0,
        ((w >> 48) & 0xF) as bv4, w & 0x10_0000_0000_0000 != 0, w & 0x20_0000_0000_0000 != 0,
        w & 0x40_0000_0000_0000 != 0, w & 0x80_0000_0000_0000 != 0, ((w >> 56) & 0xFF) as bv8)
  {}

  lemma WithRwUpdates(w: SegmentSelector, v: bool)
    ensures Decode(WithRw(w, v)) == Decode(w).(rw := v)
  {
    WithRwBits(w, v);
    DecodeOf((w & !0x200_0000_0000) | (if v then 0x200_0000_0000 else 0));
    DecodeOf(w);
  }

  function WithDirectionConforming(w: SegmentSelector, v: bool): SegmentSelector
  {
    (w & !0x400_0000_0000) | (if v then 0x400_0000_0000 else 0)
  }

  lemma WithDirectionConformingBits(w: SegmentSelector, v: bool)
    ensures var r := (w & !0x400_0000_0000) | (if v then 0x400_0000_0000 else 0);
      Fields(
        (r & 0xFFFF) as bv16, ((r >> 16) & 0xFFFF) as bv16, ((r >> 32) & 0xFF) as bv8,
        r & 0x100_0000_0000 != 0, r & 0x200_0000_0000 != 0, r & 0x400_0000_0000 != 0,
        r & 0x800_0000_0000 != 0, r & 0x1000_0000_0000 != 0, ((r >> 45) & 0x3) as bv2,
        r & 0x8000_0000_0000 != 0, ((r >> 48) & 0xF) as bv4, r & 0x10_0000_0000_0000 != 0,
        r & 0x20_0000_0000_0000 != 0, r & 0x40_0000_0000_0000 != 0,
        r & 0x80_0000_0000_0000 != 0, ((r >> 56) & 0xFF) as bv8)
      == Fields(
        (w & 0xFFFF) as bv16, ((w >> 16) & 0xFFFF) as bv16, ((w >> 32) & 0xFF) as bv8,
        w & 0x100_0000_0000 != 0, w & 0x200_0000_0000 != 0, v, w & 0x800_0000_0000 != 0,
        w & 0x1000_0000_0000 != 0, ((w >> 45) & 0x3) as bv2, w & 0x8000_0000_0000 != 0,
        ((w >> 48) & 0xF) as bv4, w & 0x10_0000_0000_0000 != 0, w & 0x20_0000_0000_0000 != 0,
        w & 0x40_0000_0000_0000 != 0, w & 0x80_0000_0000_0000 != 0, ((w >> 56) & 0xFF) as bv8)
  {}

  lemma WithDirectionConformingUpdates(w: SegmentSelector, v: bool)
    ensures Decode(WithDirectionConforming(w, v)) == Decode(w).(directionConforming := v)
  {
    WithDirectionConformingBits(w, v);
    DecodeOf((w & !0x400_0000_0000) | (if v then 0x400_0000_0000 else 0));
    DecodeOf(w);
  }

  function WithExecutable(w: SegmentSelector, v: bool): SegmentSelector
  {
    (w & !0x800_0000_0000) | (if v then 0x800_0000_0000 else 0)
  }

  lemma WithExecutableBits(w: SegmentSelector, v: bool)
    ensures var r := (w & !0x800_0000_0000) | (if v then 0x800_0000_0000 else 0);
      Fields(
        (r & 0xFFFF) as bv16, ((r >> 16) & 0xFFFF) as bv16, ((r >> 32) & 0xFF) as bv8,
        r & 0x100_0000_0000 != 0, r & 0x200_0000_0000 != 0, r & 0x400_0000_0000 != 0,
        r & 0x800_0000_0000 != 0, r & 0x1000_0000_0000 != 0, ((r >> 45) & 0x3) as bv2,
        r & 0x8000_0000_0000 != 0, ((r >> 48) & 0xF) as bv4, r & 0x10_0000_0000_0000 != 0,
        r & 0x20_0000_0000_0000 != 0, r & 0x40_0000_0000_0000 != 0,
        r & 0x80_0000_0000_0000 != 0, ((r >> 56) & 0xFF) as bv8)
      == Fields(
        (w & 0xFFFF) as bv16, ((w >> 16) & 0xFFFF) as bv16, ((w >> 32) & 0xFF) as bv8,
        w & 0x100_0000_0000 != 0, w & 0x200_0000_0000 != 0, w & 0x400_0000_0000 != 0, v,
        w & 0x1000_0000_0000 != 0, ((w >> 45) & 0x3) as bv2, w & 0x8000_0000_0000 != 0,
        ((w >> 48) & 0xF) as bv4, w & 0x10_0000_0000_0000 != 0, w & 0x20_0000_0000_0000 != 0,
        w & 0x40_0000_0000_0000 != 0, w & 0x80_0000_0000_0000 != 0, ((w >> 56) & 0xFF) as bv8)
  {}

  lemma WithExecutableUpdates(w: SegmentSelector, v: bool)
    ensures Decode(WithExecutable(w, v)) == Decode(w).(executable := v)
  {
    WithExecutableBits(w, v);
    DecodeOf((w & !0x800_0000_0000) | (if v then 0x800_0000_0000 else 0));
    DecodeOf(w);
  }

  function WithType(w: SegmentSelector, v: bool): SegmentSelector
  {
    (w & !0x1000_0000_0000) | (if v then 0x1000_0000_0000 else 0)
  }

  lemma WithTypeBits(w: SegmentSelector, v: bool)
    ensures var r := (w & !0x1000_0000_0000) | (if v then 0x1000_0000_0000 else 0);
      Fields(
        (r & 0xFFFF) as bv16, ((r >> 16) & 0xFFFF) as bv16, ((r >> 32) & 0xFF) as bv8,
        r & 0x100_0000_0000 != 0, r & 0x200_0000_0000 != 0, r & 0x400_0000_0000 != 0,
        r & 0x800_0000_0000 != 0, r & 0x1000_0000_0000 != 0, ((r >> 45) & 0x3) as bv2,
        r & 0x8000_0000_0000 != 0, ((r >> 48) & 0xF) as bv4, r & 0x10_0000_0000_0000 != 0,
        r & 0x20_0000_0000_0000 != 0, r & 0x40_0000_0000_0000 != 0,
        r & 0x80_0000_0000_0000 != 0, ((r >> 56) & 0xFF) as bv8)
      == Fields(
        (w & 0xFFFF) as bv16, ((w >> 16) & 0xFFFF) as bv16, ((w >> 32) & 0xFF) as bv8,
        w & 0x100_0000_0000 != 0, w & 0x200_0000_0000 != 0, w & 0x400_0000_0000 != 0,
        w & 0x800_0000_0000 != 0, v, ((w >> 45) & 0x3) as bv2, w & 0x8000_0000_0000 != 0,
        ((w >> 48) & 0xF) as bv4, w & 0x10_0000_0000_0000 != 0, w & 0x20_0000_0000_0000 != 0,
        w & 0x40_0000_0000_0000 != 0, w & 0x80_0000_0000_0000 != 0, ((w >> 56) & 0xFF) as bv8)
  {}

  lemma WithTypeUpdates(w: SegmentSelector, v: bool)
    ensures Decode(WithType(w, v)) == Decode(w).(type_ := v)
  {
    WithTypeBits(w, v);
    DecodeOf((w & !0x1000_0000_0000) | (if v then 0x1000_0000_0000 else 0));
    DecodeOf(w);
  }

  function WithDpl(w: SegmentSelector, v: bv2): SegmentSelector
  {
    (w & !0x6000_0000_0000) | ((v as SegmentSelector) << 45)
  }

  lemma WithDplBits(w: SegmentSelector, v: bv2)
    ensures var r := (w & !0x6000_0000_0000) | ((v as SegmentSelector) << 45);
      Fields(
        (r & 0xFFFF) as bv16, ((r >> 16) & 0xFFFF) as bv16, ((r >> 32) & 0xFF) as bv8,
        r & 0x100_0000_0000 != 0, r & 0x200_0000_0000 != 0, r & 0x400_0000_0000 != 0,
        r & 0x800_0000_0000 != 0, r & 0x1000_0000_0000 != 0, ((r >> 45) & 0x3) as bv2,
        r & 0x8000_0000_0000 != 0, ((r >> 48) & 0xF) as bv4, r & 0x10_0000_0000_0000 != 0,
        r & 0x20_0000_0000_0000 != 0, r & 0x40_0000_0000_0000 != 0,
        r & 0x80_0000_0000_0000 != 0, ((r >> 56) & 0xFF) as bv8)
      == Fields(
        (w & 0xFFFF) as bv16, ((w >> 16) & 0xFFFF) as bv16, ((w >> 32) & 0xFF) as bv8,
        w & 0x100_0000_0000 != 0, w & 0x200_0000_0000 != 0, w & 0x400_0000_0000 != 0,
        w & 0x800_0000_0000 != 0, w & 0x1000_0000_0000 != 0, v, w & 0x8000_0000_0000 != 0,
        ((w >> 48) & 0xF) as bv4, w & 0x10_0000_0000_0000 != 0, w & 0x20_0000_0000_0000 != 0,
        w & 0x40_0000_0000_0000 != 0, w & 0x80_0000_0000_0000 != 0, ((w >> 56) & 0xFF) as bv8)
  {}

  lemma WithDplUpdates(w: SegmentSelector, v: bv2)
    ensures Decode(WithDpl(w, v)) == Decode(w).(dpl := v)
  {
    WithDplBits(w, v);
    DecodeOf((w & !0x6000_0000_0000) | ((v as SegmentSelector) << 45));
    DecodeOf(w);
  }

  function WithPresent(w: SegmentSelector, v: bool): SegmentSelector
  {
    (w & !0x8000_0000_0000) | (if v then 0x8000_0000_0000 else 0)
  }

  lemma WithPresentBits(w: SegmentSelector, v: bool)
    ensures var r := (w & !0x8000_0000_0000) | (if v then 0x8000_0000_0000 else 0);
      Fields(
        (r & 0xFFFF) as bv16, ((r >> 16) & 0xFFFF) as bv16, ((r >> 32) & 0xFF) as bv8,
        r & 0x100_0000_0000 != 0, r & 0x200_0000_0000 != 0, r & 0x400_0000_0000 != 0,
        r & 0x800_0000_0000 != 0, r & 0x1000_0000_0000 != 0, ((r >> 45) & 0x3) as bv2,
        r & 0x8000_0000_0000 != 0, ((r >> 48) & 0xF) as bv4, r & 0x10_0000_0000_0000 != 0,
        r & 0x20_0000_0000_0000 != 0, r & 0x40_0000_0000_0000 != 0,
        r & 0x80_0000_0000_0000 != 0, ((r >> 56) & 0xFF) as bv8)
      == Fields(
        (w & 0xFFFF) as bv16, ((w >> 16) & 0xFFFF) as bv16, ((w >> 32) & 0xFF) as bv8,
        w & 0x100_0000_0000 != 0, w & 0x200_0000_0000 != 0, w & 0x400_0000_0000 != 0,
        w & 0x800_0000_0000 != 0, w & 0x1000_0000_0000 != 0, ((w >> 45) & 0x3) as bv2, v,
        ((w >> 48) & 0xF) as bv4, w & 0x10_0000_0000_0000 != 0, w & 0x20_0000_0000_0000 != 0,
        w & 0x40_0000_0000_0000 != 0, w & 0x80_0000_0000_0000 != 0, ((w >> 56) & 0xFF) as bv8)
  {}

  lemma WithPresentUpdates(w: SegmentSelector, v: bool)
    ensures Decode(WithPresent(w, v)) == Decode(w).(present := v)
  {
    WithPresentBits(w, v);
    DecodeOf((w & !0x8000_0000_0000) | (if v then 0x8000_0000_0000 else 0));
    DecodeOf(w);
  }

  function WithLimitHigh(w: SegmentSelector, v: bv4): SegmentSelector
  {
    (w & !0xF_0000_0000_0000) | ((v as SegmentSelector) << 48)
  }

  lemma WithLimitHighBits(w: SegmentSelector, v: bv4)
    ensures var r := (w & !0xF_0000_0000_0000) | ((v as SegmentSelector) << 48);
      Fields(
        (r & 0xFFFF) as bv16, ((r >> 16) & 0xFFFF) as bv16, ((r >> 32) & 0xFF) as bv8,
        r & 0x100_0000_0000 != 0, r & 0x200_0000_0000 != 0, r & 0x400_0000_0000 != 0,
        r & 0x800_0000_0000 != 0, r & 0x1000_0000_0000 != 0, ((r >> 45) & 0x3) as bv2,
        r & 0x8000_0000_0000 != 0, ((r >> 48) & 0xF) as bv4, r & 0x10_0000_0000_0000 != 0,
        r & 0x20_0000_0000_0000 != 0, r & 0x40_0000_0000_0000 != 0,
        r & 0x80_0000_0000_0000 != 0, ((r >> 56) & 0xFF) as bv8)
      == Fields(
        (w & 0xFFFF) as bv16, ((w >> 16) & 0xFFFF) as bv16, ((w >> 32) & 0xFF) as bv8,
        w & 0x100_0000_0000 != 0, w & 0x200_0000_0000 != 0, w & 0x400_0000_0000 != 0,
        w & 0x800_0000_0000 != 0, w & 0x1000_0000_0000 != 0, ((w >> 45) & 0x3) as bv2,
        w & 0x8000_0000_0000 != 0, v, w & 0x10_0000_0000_0000 != 0,
        w & 0x20_0000_0000_0000 != 0, w & 0x40_0000_0000_0000 != 0,
        w & 0x80_0000_0000_0000 != 0, ((w >> 56) & 0xFF) as bv8)
  {}

  lemma WithLimitHighUpdates(w: SegmentSelector, v: bv4)
    ensures Decode(WithLimitHigh(w, v)) == Decode(w).(limitHigh := v)
  {
    WithLimitHighBits(w, v);
    DecodeOf((w & !0xF_0000_0000_0000) | ((v as SegmentSelector) << 48));
    DecodeOf(w);
  }

  function WithLongMode(w: SegmentSelector, v: bool): SegmentSelector
  {
    (w & !0x20_0000_0000_0000) | (if v then 0x20_0000_0000_0000 else 0)
  }

  lemma WithLongModeBits(w: SegmentSelector, v: bool)
    ensures var r := (w & !0x20_0000_0000_0000) | (if v then 0x20_0000_0000_0000 else 0);
      Fields(
        (r & 0xFFFF) as bv16, ((r >> 16) & 0xFFFF) as bv16, ((r >> 32) & 0xFF) as bv8,
        r & 0x100_0000_0000 != 0, r & 0x200_0000_0000 != 0, r & 0x400_0000_0000 != 0,
        r & 0x800_0000_0000 != 0, r & 0x1000_0000_0000 != 0, ((r >> 45) & 0x3) as bv2,
        r & 0x8000_0000_0000 != 0, ((r >> 48) & 0xF) as bv4, r & 0x10_0000_0000_0000 != 0,
        r & 0x20_0000_0000_0000 != 0, r & 0x40_0000_0000_0000 != 0,
        r & 0x80_0000_0000_0000 != 0, ((r >> 56) & 0xFF) as bv8)
      == Fields(
        (w & 0xFFFF) as bv16, ((w >> 16) & 0xFFFF) as bv16, ((w >> 32) & 0xFF) as bv8,
        w & 0x100_0000_0000 != 0, w & 0x200_0000_0000 != 0, w & 0x400_0000_0000 != 0,
        w & 0x800_0000_0000 != 0, w & 0x1000_0000_0000 != 0, ((w >> 45) & 0x3) as bv2,
        w & 0x8000_0000_0000 != 0, ((w >> 48) & 0xF) as bv4, w & 0x10_0000_0000_0000 != 0, v,
        w & 0x40_0000_0000_0000 != 0, w & 0x80_0000_0000_0000 != 0, ((w >> 56) & 0xFF) as bv8)
  {}

  lemma WithLongModeUpdates(w: SegmentSelector, v: bool)
    ensures Decode(WithLongMode(w, v)) == Decode(w).(longMode := v)
  {
    WithLongModeBits(w, v);
    DecodeOf((w & !0x20_0000_0000_0000) | (if v then 0x20_0000_0000_0000 else 0));
    DecodeOf(w);
  }

  function WithSize(w: SegmentSelector, v: bool): SegmentSelector
  {
    (w & !0x40_0000_0000_0000) | (if v then 0x40_0000_0000_0000 else 0)
  }

  lemma WithSizeBits(w: SegmentSelector, v: bool)
    ensures var r := (w & !0x40_0000_0000_0000) | (if v then 0x40_0000_0000_0000 else 0);
      Fields(
        (r & 0xFFFF) as bv16, ((r >> 16) & 0xFFFF) as bv16, ((r >> 32) & 0xFF) as bv8,
        r & 0x100_0000_0000 != 0, r & 0x200_0000_0000 != 0, r & 0x400_0000_0000 != 0,
        r & 0x800_0000_0000 != 0, r & 0x1000_0000_0000 != 0, ((r >> 45) & 0x3) as bv2,
        r & 0x8000_0000_0000 != 0, ((r >> 48) & 0xF) as bv4, r & 0x10_0000_0000_0000 != 0,
        r & 0x20_0000_0000_0000 != 0, r & 0x40_0000_0000_0000 != 0,
        r & 0x80_0000_0000_0000 != 0, ((r >> 56) & 0xFF) as bv8)
      == Fields(
        (w & 0xFFFF) as bv16, ((w >> 16) & 0xFFFF) as bv16, ((w >> 32) & 0xFF) as bv8,
        w & 0x100_0000_0000 != 0, w & 0x200_0000_0000 != 0, w & 0x400_0000_0000 != 0,
        w & 0x800_0000_0000 != 0, w & 0x1000_0000_0000 != 0, ((w >> 45) & 0x3) as bv2,
        w & 0x8000_0000_0000 != 0, ((w >> 48) & 0xF) as bv4, w & 0x10_0000_0000_0000 != 0,
        w & 0x20_0000_0000_0000 != 0, v, w & 0x80_0000_0000_0000 != 0, ((w >> 56) & 0xFF) as bv8)
  {}

  lemma WithSizeUpdates(w: SegmentSelector, v: bool)
    ensures Decode(WithSize(w, v)) == Decode(w).(size := v)
  {
    WithSizeBits(w, v);
    DecodeOf((w & !0x40_0000_0000_0000) | (if v then 0x40_0000_0000_0000 else 0));
    DecodeOf(w);
  }

  function WithGranularity(w: SegmentSelector, v: bool): SegmentSelector
  {
    (w & !0x80_0000_0000_0000) | (if v then 0x80_0000_0000_0000 else 0)
  }

  lemma WithGranularityBits(w: SegmentSelector, v: bool)
    ensures var r := (w & !0x80_0000_0000_0000) | (if v then 0x80_0000_0000_0000 else 0);
      Fields(
        (r & 0xFFFF) as bv16, ((r >> 16) & 0xFFFF) as bv16, ((r >> 32) & 0xFF) as bv8,
        r & 0x100_0000_0000 != 0, r & 0x200_0000_0000 != 0, r & 0x400_0000_0000 != 0,
        r & 0x800_0000_0000 != 0, r & 0x1000_0000_0000 != 0, ((r >> 45) & 0x3) as bv2,
        r & 0x8000_0000_0000 != 0, ((r >> 48) & 0xF) as bv4, r & 0x10_0000_0000_0000 != 0,
        r & 0x20_0000_0000_0000 != 0, r & 0x40_0000_0000_0000 != 0,
        r & 0x80_0000_0000_0000 != 0, ((r >> 56) & 0xFF) as bv8)
      == Fields(
        (w & 0xFFFF) as bv16, ((w >> 16) & 0xFFFF) as bv16, ((w >> 32) & 0xFF) as bv8,
        w & 0x100_0000_0000 != 0, w & 0x200_0000_0000 != 0, w & 0x400_0000_0000 != 0,
        w & 0x800_0000_0000 != 0, w & 0x1000_0000_0000 != 0, ((w >> 45) & 0x3) as bv2,
        w & 0x8000_0000_0000 != 0, ((w >> 48) & 0xF) as bv4, w & 0x10_0000_0000_0000 != 0,
        w & 0x20_0000_0000_0000 != 0, w & 0x40_0000_0000_0000 != 0, v, ((w >> 56) & 0xFF) as bv8)
  {}

  lemma WithGranularityUpdates(w: SegmentSelector, v: bool)
    ensures Decode(WithGranularity(w, v)) == Decode(w).(granularity := v)
  {
    WithGranularityBits(w, v);
    DecodeOf((w & !0x80_0000_0000_0000) | (if v then 0x80_0000_0000_0000 else 0));
    DecodeOf(w);
  }

  // The descriptor constants, built exactly as the source chains them.

  const NULL: SegmentSelector := 0

  const BASE: SegmentSelector :=
    WithGranularity(WithSize(WithLongMode(WithPresent(WithType(WithDirectionConforming(
      WithRw(WithLimitHigh(WithLimitLow(0, 0xFFFF), 0xF), true), false), true), true), true), true), true)

  const CODE: SegmentSelector := WithExecutable(BASE, true)
  const DATA: SegmentSelector := WithExecutable(BASE, false)
  const KERNEL_CODE: SegmentSelector := WithDpl(CODE, 0)
  const KERNEL_DATA: SegmentSelector := WithDpl(DATA, 0)
  const USER_CODE: SegmentSelector := WithDpl(CODE, 3)
  const USER_DATA: SegmentSelector := WithDpl(DATA, 3)

  /** The null descriptor has every field zero. */
  lemma NullIsZero()
    ensures Decode(NULL) == Fields(0, 0, 0, false, false, false, false, false, 0, false, 0, false, false, false, false, 0)
  {}

  /** The field values of the flat 4 GiB template: limit 0xFFFFF in 4 KiB units, base 0. */
  lemma BaseFields()
    ensures Decode(BASE) == Fields(
      limitLow := 0xFFFF, baseLow := 0, baseMid := 0,
      accessed := false, rw := true, directionConforming := false, executable := false, type_ := true,
      dpl := 0, present := true, limitHigh := 0xF,
      reserved := false, longMode := true, size := true, granularity := true, baseHigh := 0)
  {}

  /** CODE and DATA are BASE with the executable bit set and cleared. */
  lemma CodeAndDataFromBase()
    ensures Decode(CODE) == Decode(BASE).(executable := true)
    ensures Decode(DATA) == Decode(BASE).(executable := false)
    ensures Decode(CODE) != Decode(DATA)
  {}

  /** Kernel descriptors run at privilege level 0, user descriptors at level 3; nothing else differs. */
  lemma PrivilegeLevels()
    ensures Decode(KERNEL_CODE) == Decode(CODE).(dpl := 0)
    ensures Decode(KERNEL_DATA) == Decode(DATA).(dpl := 0)
    ensures Decode(USER_CODE) == Decode(CODE).(dpl := 3)
    ensures Decode(USER_DATA) == Decode(DATA).(dpl := 3)
  {}

  /** The concrete descriptor words. */
  lemma DescriptorWords()
    ensures BASE == 0x00EF_9200_0000_FFFF
    ensures KERNEL_CODE == 0x00EF_9A00_0000_FFFF
    ensures KERNEL_DATA == 0x00EF_9200_0000_FFFF
    ensures USER_CODE == 0x00EF_FA00_0000_FFFF
    ensures USER_DATA == 0x00EF_F200_0000_FFFF
  {}

  /** The packed (`#[repr(C, packed)]`) table of five descriptors. */
  datatype Table = Table(nullDesc: SegmentSelector, kcode: SegmentSelector, kdata: SegmentSelector,
                         ucode: SegmentSelector, udata: SegmentSelector)

  /** `Gdt::new()`: null, kernel code, kernel data, user code, user data. */
  function NewTable(): Table
  {
    Table(NULL, KERNEL_CODE, KERNEL_DATA, USER_CODE, USER_DATA)
  }

  function Entries(t: Table): (s: seq<SegmentSelector>)
    ensures |s| == 5
  {
    [t.nullDesc, t.kcode, t.kdata, t.ucode, t.udata]
  }

  /** The table's memory image: the descriptors back to back, no padding. */
  function TableBytes(t: Table): (b: seq<bv8>)
    ensures |b| == 40
  {
    Le64(t.nullDesc) + Le64(t.kcode) + Le64(t.kdata) + Le64(t.ucode) + Le64(t.udata)
  }

  /** `sizeof!(Gdt)` */
  const GDT_SIZE: nat := 40

  /** The segment selectors the boot code loads (src/main.rs): byte offsets into the table. */
  const KERNEL_CODE_SELECTOR: nat := 0x0008
  const KERNEL_DATA_SELECTOR: nat := 0x0010

  /** Descriptor `i` of any table occupies bytes `8*i` to `8*i + 8` of its image. */
  lemma EntryAtOffset(t: Table, i: nat)
    requires i < 5
    ensures TableBytes(t)[8 * i .. 8 * i + 8] == Le64(Entries(t)[i])
    ensures FromLe64(TableBytes(t)[8 * i .. 8 * i + 8]) == Entries(t)[i]
  {
    ChunkOfConcat(Le64(t.nullDesc), Le64(t.kcode), Le64(t.kdata), Le64(t.ucode), Le64(t.udata), i);
    Le64RoundTrip(Entries(t)[i]);
  }

  /** The selectors 0x08 and 0x10 that the boot code hard-codes reach the kernel descriptors. */
  lemma SelectorsReachKernelDescriptors()
    ensures |TableBytes(NewTable())| == GDT_SIZE
    ensures FromLe64(TableBytes(NewTable())[0..8]) == NULL
    ensures FromLe64(TableBytes(NewTable())[KERNEL_CODE_SELECTOR..KERNEL_CODE_SELECTOR + 8]) == KERNEL_CODE
    ensures FromLe64(TableBytes(NewTable())[KERNEL_DATA_SELECTOR..KERNEL_DATA_SELECTOR + 8]) == KERNEL_DATA
    ensures Decode(FromLe64(TableBytes(NewTable())[KERNEL_CODE_SELECTOR..KERNEL_CODE_SELECTOR + 8])).dpl == 0
  {
    EntryAtOffset(NewTable(), 0);
    EntryAtOffset(NewTable(), 1);
    EntryAtOffset(NewTable(), 2);
  }

  /** The packed descriptor-table register image `Gdtr64`: a `u16` size, then a `u64` base. */
  datatype Gdtr64 = Gdtr64(size: bv16, offset: bv64)

  function GdtrBytes(r: Gdtr64): (b: seq<bv8>)
    ensures |b| == 10
  {
    Le16(r.size) + Le64(r.offset)
  }

  /** The initial register image: `sizeof!(Gdt) as u16 - 1`, base 0 until the boot code patches it. */
  const GDTR: Gdtr64 := Gdtr64((GDT_SIZE - 1) as bv16, 0)

  /** The byte offset at which the boot code writes the table's address (`[GDTR+2]`). */
  const GDTR_OFFSET_FIELD: nat := 2

  /** The initial image: the size is one less than the table's length in bytes, the base is 0. */
  lemma InitialGdtr(t: Table)
    ensures GDTR.size == 39 && GDTR.offset == 0
    ensures GDTR.size as int == |TableBytes(t)| - 1
  {}

  /** In any image the size occupies bytes 0-1 and the base bytes 2-9, the bytes `[GDTR+2]` names. */
  lemma GdtrLayout(r: Gdtr64)
    ensures FromLe16(GdtrBytes(r)[..GDTR_OFFSET_FIELD]) == r.size
    ensures FromLe64(GdtrBytes(r)[GDTR_OFFSET_FIELD..GDTR_OFFSET_FIELD + 8]) == r.offset
  {
    var b := GdtrBytes(r);
    assert b[..2] == Le16(r.size);
    assert b[2..10] == Le64(r.offset);
    Le16RoundTrip(r.size);
    Le64RoundTrip(r.offset);
  }

  /**
   * The boot code stores a 32-bit table address into the four bytes at `GDTR+2`;
   * since the upper half of the base is still zero, the image then holds exactly
   * that address as its base and the size is unchanged.
   */
  lemma PatchedBase(address: bv32)
    ensures GdtrBytes(GDTR)[..GDTR_OFFSET_FIELD] + Le32(address) + GdtrBytes(GDTR)[GDTR_OFFSET_FIELD + 4..]
         == GdtrBytes(Gdtr64(GDTR.size, address as bv64))
  {
    var a := address as bv64;
    assert (a & 0xFFFF_FFFF) as bv32 == address;
    assert ((a >> 32) & 0xFFFF_FFFF) as bv32 == 0;
    assert Le64(a) == Le32(address) + Le32(0);
    assert GdtrBytes(GDTR)[GDTR_OFFSET_FIELD + 4..] == Le32(0);
  }
}

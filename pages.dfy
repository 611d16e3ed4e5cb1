/**
 * The 4 KiB paging entries of src/arch/x86/pages.rs and the boot page table
 * `PageTable::identity()`.
 *
 * The four non-leaf entry types `Pml5te4k`, `Pml4te4k`, `Pdpte4k` and `Pdte4k`
 * declare the same eleven fields (only the name of the 40-bit next-table address
 * differs) and the same `init()` chain, so they share one layout here:
 * `NonLeafFields`.  The leaf entry `Pte` has its own layout, `PteFields`.
 */
module Pages {
  import opened BitLayout

  /** Every table, at every level, holds this many 8-byte entries (4096 bytes). */
  const ENTRIES: nat := 512

  // ----- Non-leaf entries: Pml5te4k, Pml4te4k, Pdpte4k, Pdte4k -----

  type NonLeafEntry = bv64

  datatype NonLeafFields = NonLeafFields(
    present: bool,              // bit 0
    rw: bool,                   // bit 1
    user: bool,                 // bit 2
    writeThrough: bool,         // bit 3
    cacheDisable: bool,         // bit 4
    accessed: bool,             // bit 5
    padding: bv3,               // bits 6-8, the unnamed `__` field
    available2: bv3,            // bits 9-11
    nextPaddr: bv40,            // bits 12-51, pml4_paddr, pdp_paddr, pd_paddr or pt_paddr
    available3: bv11,           // bits 52-62
    nx: bool)                   // bit 63

  const NonLeafWidths: seq<nat> := [1, 1, 1, 1, 1, 1, 3, 3, 40, 11, 1]

  /** The widths fill 64 bits; the named fields start at bits 0-5, 9, 12, 52 and 63. */
  lemma NonLeafWidthsFillWord()
    ensures SumTo(NonLeafWidths, |NonLeafWidths|) == 64
    ensures [SumTo(NonLeafWidths, 6), SumTo(NonLeafWidths, 7), SumTo(NonLeafWidths, 8),
             SumTo(NonLeafWidths, 9), SumTo(NonLeafWidths, 10)] == [6, 9, 12, 52, 63]
  {
    assert SumTo(NonLeafWidths, 6) == 6;
  }

  /** The fields of a non-leaf entry, each cut out of the word. */
  function DecodeNonLeaf(w: NonLeafEntry): NonLeafFields
  {
    NonLeafFields(
      w & 0x1 != 0, w & 0x2 != 0, w & 0x4 != 0, w & 0x8 != 0, w & 0x10 != 0, w & 0x20 != 0,
      ((w >> 6) & 0x7) as bv3, ((w >> 9) & 0x7) as bv3, ((w >> 12) & 0xFF_FFFF_FFFF) as bv40,
      ((w >> 52) & 0x7FF) as bv11, w & 0x8000_0000_0000_0000 != 0)
  }

  /** `DecodeNonLeaf` unfolded, so that callers see the shifts and masks directly. */
  lemma DecodeNonLeafOf(w: NonLeafEntry)
    ensures DecodeNonLeaf(w) == NonLeafFields(
      w & 0x1 != 0, w & 0x2 != 0, w & 0x4 != 0, w & 0x8 != 0, w & 0x10 != 0, w & 0x20 != 0,
      ((w >> 6) & 0x7) as bv3, ((w >> 9) & 0x7) as bv3, ((w >> 12) & 0xFF_FFFF_FFFF) as bv40,
      ((w >> 52) & 0x7FF) as bv11, w & 0x8000_0000_0000_0000 != 0)
  {}

  /** The inverse of `DecodeNonLeaf`: each field shifted into place. */
  function EncodeNonLeaf(f: NonLeafFields): NonLeafEntry
  {
    (if f.present then 0x1 else 0) | (if f.rw then 0x2 else 0) | (if f.user then 0x4 else 0) |
    (if f.writeThrough then 0x8 else 0) | (if f.cacheDisable then 0x10 else 0) |
    (if f.accessed then 0x20 else 0) | ((f.padding as NonLeafEntry) << 6) |
    ((f.available2 as NonLeafEntry) << 9) | ((f.nextPaddr as NonLeafEntry) << 12) |
    ((f.available3 as NonLeafEntry) << 52) | (if f.nx then 0x8000_0000_0000_0000 else 0)
  }

  lemma EncodeNonLeafBits(f: NonLeafFields)
    ensures var r := EncodeNonLeaf(f);
      NonLeafFields(
        r & 0x1 != 0, r & 0x2 != 0, r & 0x4 != 0, r & 0x8 != 0, r & 0x10 != 0, r & 0x20 != 0,
        ((r >> 6) & 0x7) as bv3, ((r >> 9) & 0x7) as bv3, ((r >> 12) & 0xFF_FFFF_FFFF) as bv40,
        ((r >> 52) & 0x7FF) as bv11, r & 0x8000_0000_0000_0000 != 0) == f
  {}

  lemma DecodeNonLeafEncodeNonLeaf(f: NonLeafFields)
    ensures DecodeNonLeaf(EncodeNonLeaf(f)) == f
  {
    EncodeNonLeafBits(f);
    DecodeNonLeafOf(EncodeNonLeaf(f));
  }

  lemma EncodeNonLeafDecodeNonLeafBits(w: NonLeafEntry)
    ensures
      (if w & 0x1 != 0 then 0x1 else 0) | (if w & 0x2 != 0 then 0x2 else 0) |
      (if w & 0x4 != 0 then 0x4 else 0) | (if w & 0x8 != 0 then 0x8 else 0) |
      (if w & 0x10 != 0 then 0x10 else 0) | (if w & 0x20 != 0 then 0x20 else 0) |
      ((((w >> 6) & 0x7) as bv3 as NonLeafEntry) << 6) |
      ((((w >> 9) & 0x7) as bv3 as NonLeafEntry) << 9) |
      ((((w >> 12) & 0xFF_FFFF_FFFF) as bv40 as NonLeafEntry) << 12) |
      ((((w >> 52) & 0x7FF) as bv11 as NonLeafEntry) << 52) |
      (if w & 0x8000_0000_0000_0000 != 0 then 0x8000_0000_0000_0000 else 0)
      == w
  {}

  lemma EncodeNonLeafDecodeNonLeaf(w: NonLeafEntry)
    ensures EncodeNonLeaf(DecodeNonLeaf(w)) == w
  {
    EncodeNonLeafDecodeNonLeafBits(w);
    DecodeNonLeafOf(w);
  }

  /** Two non-leaf entries with the same fields are the same word. */
  lemma DecodeNonLeafInjective(x: NonLeafEntry, y: NonLeafEntry)
    requires DecodeNonLeaf(x) == DecodeNonLeaf(y)
    ensures x == y
  {
    EncodeNonLeafDecodeNonLeaf(x);
    EncodeNonLeafDecodeNonLeaf(y);
  }

  // The `with_*` builders that the `init()` chains call (and `set_*`, their in-place
  // form).  Each is the mask-and-or the bit-field macro emits; its `…Updates` lemma
  // states that it sets its field and leaves every other field as it was, and the
  // `…Bits` lemma beside it is that fact written out on the shifts and masks.

  function NonLeafWithPresent(w: NonLeafEntry, v: bool): NonLeafEntry
  {
    (w & !0x1) | (if v then 0x1 else 0)
  }

  lemma NonLeafWithPresentBits(w: NonLeafEntry, v: bool)
    ensures var r := (w & !0x1) | (if v then 0x1 else 0);
      NonLeafFields(
        r & 0x1 != 0, r & 0x2 != 0, r & 0x4 != 0, r & 0x8 != 0, r & 0x10 != 0, r & 0x20 != 0,
        ((r >> 6) & 0x7) as bv3, ((r >> 9) & 0x7) as bv3, ((r >> 12) & 0xFF_FFFF_FFFF) as bv40,
        ((r >> 52) & 0x7FF) as bv11, r & 0x8000_0000_0000_0000 != 0)
      == NonLeafFields(
        v, w & 0x2 != 0, w & 0x4 != 0, w & 0x8 != 0, w & 0x10 != 0, w & 0x20 != 0,
        ((w >> 6) & 0x7) as bv3, ((w >> 9) & 0x7) as bv3, ((w >> 12) & 0xFF_FFFF_FFFF) as bv40,
        ((w >> 52) & 0x7FF) as bv11, w & 0x8000_0000_0000_0000 != 0)
  {}

  lemma NonLeafWithPresentUpdates(w: NonLeafEntry, v: bool)
    ensures DecodeNonLeaf(NonLeafWithPresent(w, v)) == DecodeNonLeaf(w).(present := v)
  {
    NonLeafWithPresentBits(w, v);
    DecodeNonLeafOf((w & !0x1) | (if v then 0x1 else 0));
    DecodeNonLeafOf(w);
  }

  function NonLeafWithRw(w: NonLeafEntry, v: bool): NonLeafEntry
  {
    (w & !0x2) | (if v then 0x2 else 0)
  }

  lemma NonLeafWithRwBits(w: NonLeafEntry, v: bool)
    ensures var r := (w & !0x2) | (if v then 0x2 else 0);
      NonLeafFields(
        r & 0x1 != 0, r & 0x2 != 0, r & 0x4 != 0, r & 0x8 != 0, r & 0x10 != 0, r & 0x20 != 0,
        ((r >> 6) & 0x7) as bv3, ((r >> 9) & 0x7) as bv3, ((r >> 12) & 0xFF_FFFF_FFFF) as bv40,
        ((r >> 52) & 0x7FF) as bv11, r & 0x8000_0000_0000_0000 != 0)
      == NonLeafFields(
        w & 0x1 != 0, v, w & 0x4 != 0, w & 0x8 != 0, w & 0x10 != 0, w & 0x20 != 0,
        ((w >> 6) & 0x7) as bv3, ((w >> 9) & 0x7) as bv3, ((w >> 12) & 0xFF_FFFF_FFFF) as bv40,
        ((w >> 52) & 0x7FF) as bv11, w & 0x8000_0000_0000_0000 != 0)
  {}

  lemma NonLeafWithRwUpdates(w: NonLeafEntry, v: bool)
    ensures DecodeNonLeaf(NonLeafWithRw(w, v)) == DecodeNonLeaf(w).(rw := v)
  {
    NonLeafWithRwBits(w, v);
    DecodeNonLeafOf((w & !0x2) | (if v then 0x2 else 0));
    DecodeNonLeafOf(w);
  }

  function NonLeafWithUser(w: NonLeafEntry, v: bool): NonLeafEntry
  {
    (w & !0x4) | (if v then 0x4 else 0)
  }

  lemma NonLeafWithUserBits(w: NonLeafEntry, v: bool)
    ensures var r := (w & !0x4) | (if v then 0x4 else 0);
      NonLeafFields(
        r & 0x1 != 0, r & 0x2 != 0, r & 0x4 != 0, r & 0x8 != 0, r & 0x10 != 0, r & 0x20 != 0,
        ((r >> 6) & 0x7) as bv3, ((r >> 9) & 0x7) as bv3, ((r >> 12) & 0xFF_FFFF_FFFF) as bv40,
        ((r >> 52) & 0x7FF) as bv11, r & 0x8000_0000_0000_0000 != 0)
      == NonLeafFields(
        w & 0x1 != 0, w & 0x2 != 0, v, w & 0x8 != 0, w & 0x10 != 0, w & 0x20 != 0,
        ((w >> 6) & 0x7) as bv3, ((w >> 9) & 0x7) as bv3, ((w >> 12) & 0xFF_FFFF_FFFF) as bv40,
        ((w >> 52) & 0x7FF) as bv11, w & 0x8000_0000_0000_0000 != 0)
  {}

  lemma NonLeafWithUserUpdates(w: NonLeafEntry, v: bool)
    ensures DecodeNonLeaf(NonLeafWithUser(w, v)) == DecodeNonLeaf(w).(user := v)
  {
    NonLeafWithUserBits(w, v);
    DecodeNonLeafOf((w & !0x4) | (if v then 0x4 else 0));
    DecodeNonLeafOf(w);
  }

  function NonLeafWithWriteThrough(w: NonLeafEntry, v: bool): NonLeafEntry
  {
    (w & !0x8) | (if v then 0x8 else 0)
  }

  lemma NonLeafWithWriteThroughBits(w: NonLeafEntry, v: bool)
    ensures var r := (w & !0x8) | (if v then 0x8 else 0);
      NonLeafFields(
        r & 0x1 != 0, r & 0x2 != 0, r & 0x4 != 0, r & 0x8 != 0, r & 0x10 != 0, r & 0x20 != 0,
        ((r >> 6) & 0x7) as bv3, ((r >> 9) & 0x7) as bv3, ((r >> 12) & 0xFF_FFFF_FFFF) as bv40,
        ((r >> 52) & 0x7FF) as bv11, r & 0x8000_0000_0000_0000 != 0)
      == NonLeafFields(
        w & 0x1 != 0, w & 0x2 != 0, w & 0x4 != 0, v, w & 0x10 != 0, w & 0x20 != 0,
        ((w >> 6) & 0x7) as bv3, ((w >> 9) & 0x7) as bv3, ((w >> 12) & 0xFF_FFFF_FFFF) as bv40,
        ((w >> 52) & 0x7FF) as bv11, w & 0x8000_0000_0000_0000 != 0)
  {}

  lemma NonLeafWithWriteThroughUpdates(w: NonLeafEntry, v: bool)
    ensures DecodeNonLeaf(NonLeafWithWriteThrough(w, v)) == DecodeNonLeaf(w).(writeThrough := v)
  {
    NonLeafWithWriteThroughBits(w, v);
    DecodeNonLeafOf((w & !0x8) | (if v then 0x8 else 0));
    DecodeNonLeafOf(w);
  }

  function NonLeafWithCacheDisable(w: NonLeafEntry, v: bool): NonLeafEntry
  {
    (w & !0x10) | (if v then 0x10 else 0)
  }

  lemma NonLeafWithCacheDisableBits(w: NonLeafEntry, v: bool)
    ensures var r := (w & !0x10) | (if v then 0x10 else 0);
      NonLeafFields(
        r & 0x1 != 0, r & 0x2 != 0, r & 0x4 != 0, r & 0x8 != 0, r & 0x10 != 0, r & 0x20 != 0,
        ((r >> 6) & 0x7) as bv3, ((r >> 9) & 0x7) as bv3, ((r >> 12) & 0xFF_FFFF_FFFF) as bv40,
        ((r >> 52) & 0x7FF) as bv11, r & 0x8000_0000_0000_0000 != 0)
      == NonLeafFields(
        w & 0x1 != 0, w & 0x2 != 0, w & 0x4 != 0, w & 0x8 != 0, v, w & 0x20 != 0,
        ((w >> 6) & 0x7) as bv3, ((w >> 9) & 0x7) as bv3, ((w >> 12) & 0xFF_FFFF_FFFF) as bv40,
        ((w >> 52) & 0x7FF) as bv11, w & 0x8000_0000_0000_0000 != 0)
  {}

  lemma NonLeafWithCacheDisableUpdates(w: NonLeafEntry, v: bool)
    ensures DecodeNonLeaf(NonLeafWithCacheDisable(w, v)) == DecodeNonLeaf(w).(cacheDisable := v)
  {
    NonLeafWithCacheDisableBits(w, v);
    DecodeNonLeafOf((w & !0x10) | (if v then 0x10 else 0));
    DecodeNonLeafOf(w);
  }

  function NonLeafWithAccessed(w: NonLeafEntry, v: bool): NonLeafEntry
  {
    (w & !0x20) | (if v then 0x20 else 0)
  }

  lemma NonLeafWithAccessedBits(w: NonLeafEntry, v: bool)
    ensures var r := (w & !0x20) | (if v then 0x20 else 0);
      NonLeafFields(
        r & 0x1 != 0, r & 0x2 != 0, r & 0x4 != 0, r & 0x8 != 0, r & 0x10 != 0, r & 0x20 != 0,
        ((r >> 6) & 0x7) as bv3, ((r >> 9) & 0x7) as bv3, ((r >> 12) & 0xFF_FFFF_FFFF) as bv40,
        ((r >> 52) & 0x7FF) as bv11, r & 0x8000_0000_0000_0000 != 0)
      == NonLeafFields(
        w & 0x1 != 0, w & 0x2 != 0, w & 0x4 != 0, w & 0x8 != 0, w & 0x10 != 0, v,
        ((w >> 6) & 0x7) as bv3, ((w >> 9) & 0x7) as bv3, ((w >> 12) & 0xFF_FFFF_FFFF) as bv40,
        ((w >> 52) & 0x7FF) as bv11, w & 0x8000_0000_0000_0000 != 0)
  {}

  lemma NonLeafWithAccessedUpdates(w: NonLeafEntry, v: bool)
    ensures DecodeNonLeaf(NonLeafWithAccessed(w, v)) == DecodeNonLeaf(w).(accessed := v)
  {
    NonLeafWithAccessedBits(w, v);
    DecodeNonLeafOf((w & !0x20) | (if v then 0x20 else 0));
    DecodeNonLeafOf(w);
  }

  function NonLeafWithNx(w: NonLeafEntry, v: bool): NonLeafEntry
  {
    (w & !0x8000_0000_0000_0000) | (if v then 0x8000_0000_0000_0000 else 0)
  }

  lemma NonLeafWithNxBits(w: NonLeafEntry, v: bool)
    ensures var r := (w & !0x8000_0000_0000_0000) | (if v then 0x8000_0000_0000_0000 else 0);
      NonLeafFields(
        r & 0x1 != 0, r & 0x2 != 0, r & 0x4 != 0, r & 0x8 != 0, r & 0x10 != 0, r & 0x20 != 0,
        ((r >> 6) & 0x7) as bv3, ((r >> 9) & 0x7) as bv3, ((r >> 12) & 0xFF_FFFF_FFFF) as bv40,
        ((r >> 52) & 0x7FF) as bv11, r & 0x8000_0000_0000_0000 != 0)
      == NonLeafFields(
        w & 0x1 != 0, w & 0x2 != 0, w & 0x4 != 0, w & 0x8 != 0, w & 0x10 != 0, w & 0x20 != 0,
        ((w >> 6) & 0x7) as bv3, ((w >> 9) & 0x7) as bv3, ((w >> 12) & 0xFF_FFFF_FFFF) as bv40,
        ((w >> 52) & 0x7FF) as bv11, v)
  {}

  lemma NonLeafWithNxUpdates(w: NonLeafEntry, v: bool)
    ensures DecodeNonLeaf(NonLeafWithNx(w, v)) == DecodeNonLeaf(w).(nx := v)
  {
    NonLeafWithNxBits(w, v);
    DecodeNonLeafOf((w & !0x8000_0000_0000_0000) | (if v then 0x8000_0000_0000_0000 else 0));
    DecodeNonLeafOf(w);
  }

  /** `init()` of each non-leaf entry type. */
  const NON_LEAF_INIT: NonLeafEntry :=
    NonLeafWithNx(NonLeafWithAccessed(NonLeafWithCacheDisable(NonLeafWithWriteThrough(
      NonLeafWithUser(NonLeafWithRw(NonLeafWithPresent(0, true), false), false), false), false), false), false)

  /** A non-leaf template is present and nothing else: raw bits 1. */
  lemma NonLeafInitIsPresentOnly()
    ensures DecodeNonLeaf(NON_LEAF_INIT) == NonLeafFields(true, false, false, false, false, false, 0, 0, 0, 0, false)
    ensures NON_LEAF_INIT == 1
  {}

  // ----- Leaf entries: Pte -----

  type Pte = bv64

  datatype PteFields = PteFields(
    present: bool,              // bit 0
    rw: bool,                   // bit 1
    user: bool,                 // bit 2
    writeThrough: bool,         // bit 3
    cacheDisable: bool,         // bit 4
    accessed: bool,             // bit 5
    available: bool,            // bit 6
    dirty: bool,                // bit 7
    pageSize: bool,             // bit 8
    available2: bv3,            // bits 9-11
    pagePaddr: bv40,            // bits 12-51
    available3: bv7,            // bits 52-58
    mkp: bv4,                   // bits 59-62
    nx: bool)                   // bit 63

  const PteWidths: seq<nat> := [1, 1, 1, 1, 1, 1, 1, 1, 1, 3, 40, 7, 4, 1]

  /** The widths fill 64 bits; the multi-bit fields start at bits 9, 12, 52 and 59, nx at 63. */
  lemma PteWidthsFillWord()
    ensures SumTo(PteWidths, |PteWidths|) == 64
    ensures [SumTo(PteWidths, 9), SumTo(PteWidths, 10), SumTo(PteWidths, 11),
             SumTo(PteWidths, 12), SumTo(PteWidths, 13)] == [9, 12, 52, 59, 63]
  {
    assert SumTo(PteWidths, 8) == 8;
    assert SumTo(PteWidths, 13) == 63;
  }

  /** The fields of a leaf entry, each cut out of the word. */
  function DecodePte(w: Pte): PteFields
  {
    PteFields(
      w & 0x1 != 0, w & 0x2 != 0, w & 0x4 != 0, w & 0x8 != 0, w & 0x10 != 0, w & 0x20 != 0,
      w & 0x40 != 0, w & 0x80 != 0, w & 0x100 != 0, ((w >> 9) & 0x7) as bv3,
      ((w >> 12) & 0xFF_FFFF_FFFF) as bv40, ((w >> 52) & 0x7F) as bv7,
      ((w >> 59) & 0xF) as bv4, w & 0x8000_0000_0000_0000 != 0)
  }

  /** `DecodePte` unfolded, so that callers see the shifts and masks directly. */
  lemma DecodePteOf(w: Pte)
    ensures DecodePte(w) == PteFields(
      w & 0x1 != 0, w & 0x2 != 0, w & 0x4 != 0, w & 0x8 != 0, w & 0x10 != 0, w & 0x20 != 0,
      w & 0x40 != 0, w & 0x80 != 0, w & 0x100 != 0, ((w >> 9) & 0x7) as bv3,
      ((w >> 12) & 0xFF_FFFF_FFFF) as bv40, ((w >> 52) & 0x7F) as bv7,
      ((w >> 59) & 0xF) as bv4, w & 0x8000_0000_0000_0000 != 0)
  {}

  /** The inverse of `DecodePte`: each field shifted into place. */
  function EncodePte(f: PteFields): Pte
  {
    (if f.present then 0x1 else 0) | (if f.rw then 0x2 else 0) | (if f.user then 0x4 else 0) |
    (if f.writeThrough then 0x8 else 0) | (if f.cacheDisable then 0x10 else 0) |
    (if f.accessed then 0x20 else 0) | (if f.available then 0x40 else 0) |
    (if f.dirty then 0x80 else 0) | (if f.pageSize then 0x100 else 0) |
    ((f.available2 as Pte) << 9) | ((f.pagePaddr as Pte) << 12) | ((f.available3 as Pte) << 52) |
    ((f.mkp as Pte) << 59) | (if f.nx then 0x8000_0000_0000_0000 else 0)
  }

  lemma EncodePteBits(f: PteFields)
    ensures var r := EncodePte(f);
      PteFields(
        r & 0x1 != 0, r & 0x2 != 0, r & 0x4 != 0, r & 0x8 != 0, r & 0x10 != 0, r & 0x20 != 0,
        r & 0x40 != 0, r & 0x80 != 0, r & 0x100 != 0, ((r >> 9) & 0x7) as bv3,
        ((r >> 12) & 0xFF_FFFF_FFFF) as bv40, ((r >> 52) & 0x7F) as bv7,
        ((r >> 59) & 0xF) as bv4, r & 0x8000_0000_0000_0000 != 0) == f
  {}

  lemma DecodePteEncodePte(f: PteFields)
    ensures DecodePte(EncodePte(f)) == f
  {
    EncodePteBits(f);
    DecodePteOf(EncodePte(f));
  }

  lemma EncodePteDecodePteBits(w: Pte)
    ensures
      (if w & 0x1 != 0 then 0x1 else 0) | (if w & 0x2 != 0 then 0x2 else 0) |
      (if w & 0x4 != 0 then 0x4 else 0) | (if w & 0x8 != 0 then 0x8 else 0) |
      (if w & 0x10 != 0 then 0x10 else 0) | (if w & 0x20 != 0 then 0x20 else 0) |
      (if w & 0x40 != 0 then 0x40 else 0) | (if w & 0x80 != 0 then 0x80 else 0) |
      (if w & 0x100 != 0 then 0x100 else 0) | ((((w >> 9) & 0x7) as bv3 as Pte) << 9) |
      ((((w >> 12) & 0xFF_FFFF_FFFF) as bv40 as Pte) << 12) |
      ((((w >> 52) & 0x7F) as bv7 as Pte) << 52) | ((((w >> 59) & 0xF) as bv4 as Pte) << 59) |
      (if w & 0x8000_0000_0000_0000 != 0 then 0x8000_0000_0000_0000 else 0)
      == w
  {}

  lemma EncodePteDecodePte(w: Pte)
    ensures EncodePte(DecodePte(w)) == w
  {
    EncodePteDecodePteBits(w);
    DecodePteOf(w);
  }

  /** Two leaf entries with the same fields are the same word. */
  lemma DecodePteInjective(x: Pte, y: Pte)
    requires DecodePte(x) == DecodePte(y)
    ensures x == y
  {
    EncodePteDecodePte(x);
    EncodePteDecodePte(y);
  }

  // The `with_*` builders that the `init()` chains call (and `set_*`, their in-place
  // form).  Each is the mask-and-or the bit-field macro emits; its `…Updates` lemma
  // states that it sets its field and leaves every other field as it was, and the
  // `…Bits` lemma beside it is that fact written out on the shifts and masks.

  function PteWithPresent(w: Pte, v: bool): Pte
  {
    (w & !0x1) | (if v then 0x1 else 0)
  }

  lemma PteWithPresentBits(w: Pte, v: bool)
    ensures var r := (w & !0x1) | (if v then 0x1 else 0);
      PteFields(
        r & 0x1 != 0, r & 0x2 != 0, r & 0x4 != 0, r & 0x8 != 0, r & 0x10 != 0, r & 0x20 != 0,
        r & 0x40 != 0, r & 0x80 != 0, r & 0x100 != 0, ((r >> 9) & 0x7) as bv3,
        ((r >> 12) & 0xFF_FFFF_FFFF) as bv40, ((r >> 52) & 0x7F) as bv7,
        ((r >> 59) & 0xF) as bv4, r & 0x8000_0000_0000_0000 != 0)
      == PteFields(
        v, w & 0x2 != 0, w & 0x4 != 0, w & 0x8 != 0, w & 0x10 != 0, w & 0x20 != 0,
        w & 0x40 != 0, w & 0x80 != 0, w & 0x100 != 0, ((w >> 9) & 0x7) as bv3,
        ((w >> 12) & 0xFF_FFFF_FFFF) as bv40, ((w >> 52) & 0x7F) as bv7,
        ((w >> 59) & 0xF) as bv4, w & 0x8000_0000_0000_0000 != 0)
  {}

  lemma PteWithPresentUpdates(w: Pte, v: bool)
    ensures DecodePte(PteWithPresent(w, v)) == DecodePte(w).(present := v)
  {
    PteWithPresentBits(w, v);
    DecodePteOf((w & !0x1) | (if v then 0x1 else 0));
    DecodePteOf(w);
  }

  function PteWithRw(w: Pte, v: bool): Pte
  {
    (w & !0x2) | (if v then 0x2 else 0)
  }

  lemma PteWithRwBits(w: Pte, v: bool)
    ensures var r := (w & !0x2) | (if v then 0x2 else 0);
      PteFields(
        r & 0x1 != 0, r & 0x2 != 0, r & 0x4 != 0, r & 0x8 != 0, r & 0x10 != 0, r & 0x20 != 0,
        r & 0x40 != 0, r & 0x80 != 0, r & 0x100 != 0, ((r >> 9) & 0x7) as bv3,
        ((r >> 12) & 0xFF_FFFF_FFFF) as bv40, ((r >> 52) & 0x7F) as bv7,
        ((r >> 59) & 0xF) as bv4, r & 0x8000_0000_0000_0000 != 0)
      == PteFields(
        w & 0x1 != 0, v, w & 0x4 != 0, w & 0x8 != 0, w & 0x10 != 0, w & 0x20 != 0,
        w & 0x40 != 0, w & 0x80 != 0, w & 0x100 != 0, ((w >> 9) & 0x7) as bv3,
        ((w >> 12) & 0xFF_FFFF_FFFF) as bv40, ((w >> 52) & 0x7F) as bv7,
        ((w >> 59) & 0xF) as bv4, w & 0x8000_0000_0000_0000 != 0)
  {}

  lemma PteWithRwUpdates(w: Pte, v: bool)
    ensures DecodePte(PteWithRw(w, v)) == DecodePte(w).(rw := v)
  {
    PteWithRwBits(w, v);
    DecodePteOf((w & !0x2) | (if v then 0x2 else 0));
    DecodePteOf(w);
  }

  function PteWithUser(w: Pte, v: bool): Pte
  {
    (w & !0x4) | (if v then 0x4 else 0)
  }

  lemma PteWithUserBits(w: Pte, v: bool)
    ensures var r := (w & !0x4) | (if v then 0x4 else 0);
      PteFields(
        r & 0x1 != 0, r & 0x2 != 0, r & 0x4 != 0, r & 0x8 != 0, r & 0x10 != 0, r & 0x20 != 0,
        r & 0x40 != 0, r & 0x80 != 0, r & 0x100 != 0, ((r >> 9) & 0x7) as bv3,
        ((r >> 12) & 0xFF_FFFF_FFFF) as bv40, ((r >> 52) & 0x7F) as bv7,
        ((r >> 59) & 0xF) as bv4, r & 0x8000_0000_0000_0000 != 0)
      == PteFields(
        w & 0x1 != 0, w & 0x2 != 0, v, w & 0x8 != 0, w & 0x10 != 0, w & 0x20 != 0,
        w & 0x40 != 0, w & 0x80 != 0, w & 0x100 != 0, ((w >> 9) & 0x7) as bv3,
        ((w >> 12) & 0xFF_FFFF_FFFF) as bv40, ((w >> 52) & 0x7F) as bv7,
        ((w >> 59) & 0xF) as bv4, w & 0x8000_0000_0000_0000 != 0)
  {}

  lemma PteWithUserUpdates(w: Pte, v: bool)
    ensures DecodePte(PteWithUser(w, v)) == DecodePte(w).(user := v)
  {
    PteWithUserBits(w, v);
    DecodePteOf((w & !0x4) | (if v then 0x4 else 0));
    DecodePteOf(w);
  }

  function PteWithWriteThrough(w: Pte, v: bool): Pte
  {
    (w & !0x8) | (if v then 0x8 else 0)
  }

  lemma PteWithWriteThroughBits(w: Pte, v: bool)
    ensures var r := (w & !0x8) | (if v then 0x8 else 0);
      PteFields(
        r & 0x1 != 0, r & 0x2 != 0, r & 0x4 != 0, r & 0x8 != 0, r & 0x10 != 0, r & 0x20 != 0,
        r & 0x40 != 0, r & 0x80 != 0, r & 0x100 != 0, ((r >> 9) & 0x7) as bv3,
        ((r >> 12) & 0xFF_FFFF_FFFF) as bv40, ((r >> 52) & 0x7F) as bv7,
        ((r >> 59) & 0xF) as bv4, r & 0x8000_0000_0000_0000 != 0)
      == PteFields(
        w & 0x1 != 0, w & 0x2 != 0, w & 0x4 != 0, v, w & 0x10 != 0, w & 0x20 != 0,
        w & 0x40 != 0, w & 0x80 != 0, w & 0x100 != 0, ((w >> 9) & 0x7) as bv3,
        ((w >> 12) & 0xFF_FFFF_FFFF) as bv40, ((w >> 52) & 0x7F) as bv7,
        ((w >> 59) & 0xF) as bv4, w & 0x8000_0000_0000_0000 != 0)
  {}

  lemma PteWithWriteThroughUpdates(w: Pte, v: bool)
    ensures DecodePte(PteWithWriteThrough(w, v)) == DecodePte(w).(writeThrough := v)
  {
    PteWithWriteThroughBits(w, v);
    DecodePteOf((w & !0x8) | (if v then 0x8 else 0));
    DecodePteOf(w);
  }

  function PteWithCacheDisable(w: Pte, v: bool): Pte
  {
    (w & !0x10) | (if v then 0x10 else 0)
  }

  lemma PteWithCacheDisableBits(w: Pte, v: bool)
    ensures var r := (w & !0x10) | (if v then 0x10 else 0);
      PteFields(
        r & 0x1 != 0, r & 0x2 != 0, r & 0x4 != 0, r & 0x8 != 0, r & 0x10 != 0, r & 0x20 != 0,
        r & 0x40 != 0, r & 0x80 != 0, r & 0x100 != 0, ((r >> 9) & 0x7) as bv3,
        ((r >> 12) & 0xFF_FFFF_FFFF) as bv40, ((r >> 52) & 0x7F) as bv7,
        ((r >> 59) & 0xF) as bv4, r & 0x8000_0000_0000_0000 != 0)
      == PteFields(
        w & 0x1 != 0, w & 0x2 != 0, w & 0x4 != 0, w & 0x8 != 0, v, w & 0x20 != 0,
        w & 0x40 != 0, w & 0x80 != 0, w & 0x100 != 0, ((w >> 9) & 0x7) as bv3,
        ((w >> 12) & 0xFF_FFFF_FFFF) as bv40, ((w >> 52) & 0x7F) as bv7,
        ((w >> 59) & 0xF) as bv4, w & 0x8000_0000_0000_0000 != 0)
  {}

  lemma PteWithCacheDisableUpdates(w: Pte, v: bool)
    ensures DecodePte(PteWithCacheDisable(w, v)) == DecodePte(w).(cacheDisable := v)
  {
    PteWithCacheDisableBits(w, v);
    DecodePteOf((w & !0x10) | (if v then 0x10 else 0));
    DecodePteOf(w);
  }

  function PteWithAccessed(w: Pte, v: bool): Pte
  {
    (w & !0x20) | (if v then 0x20 else 0)
  }

  lemma PteWithAccessedBits(w: Pte, v: bool)
    ensures var r := (w & !0x20) | (if v then 0x20 else 0);
      PteFields(
        r & 0x1 != 0, r & 0x2 != 0, r & 0x4 != 0, r & 0x8 != 0, r & 0x10 != 0, r & 0x20 != 0,
        r & 0x40 != 0, r & 0x80 != 0, r & 0x100 != 0, ((r >> 9) & 0x7) as bv3,
        ((r >> 12) & 0xFF_FFFF_FFFF) as bv40, ((r >> 52) & 0x7F) as bv7,
        ((r >> 59) & 0xF) as bv4, r & 0x8000_0000_0000_0000 != 0)
      == PteFields(
        w & 0x1 != 0, w & 0x2 != 0, w & 0x4 != 0, w & 0x8 != 0, w & 0x10 != 0, v,
        w & 0x40 != 0, w & 0x80 != 0, w & 0x100 != 0, ((w >> 9) & 0x7) as bv3,
        ((w >> 12) & 0xFF_FFFF_FFFF) as bv40, ((w >> 52) & 0x7F) as bv7,
        ((w >> 59) & 0xF) as bv4, w & 0x8000_0000_0000_0000 != 0)
  {}

  lemma PteWithAccessedUpdates(w: Pte, v: bool)
    ensures DecodePte(PteWithAccessed(w, v)) == DecodePte(w).(accessed := v)
  {
    PteWithAccessedBits(w, v);
    DecodePteOf((w & !0x20) | (if v then 0x20 else 0));
    DecodePteOf(w);
  }

  function PteWithPageSize(w: Pte, v: bool): Pte
  {
    (w & !0x100) | (if v then 0x100 else 0)
  }

  lemma PteWithPageSizeBits(w: Pte, v: bool)
    ensures var r := (w & !0x100) | (if v then 0x100 else 0);
      PteFields(
        r & 0x1 != 0, r & 0x2 != 0, r & 0x4 != 0, r & 0x8 != 0, r & 0x10 != 0, r & 0x20 != 0,
        r & 0x40 != 0, r & 0x80 != 0, r & 0x100 != 0, ((r >> 9) & 0x7) as bv3,
        ((r >> 12) & 0xFF_FFFF_FFFF) as bv40, ((r >> 52) & 0x7F) as bv7,
        ((r >> 59) & 0xF) as bv4, r & 0x8000_0000_0000_0000 != 0)
      == PteFields(
        w & 0x1 != 0, w & 0x2 != 0, w & 0x4 != 0, w & 0x8 != 0, w & 0x10 != 0, w & 0x20 != 0,
        w & 0x40 != 0, w & 0x80 != 0, v, ((w >> 9) & 0x7) as bv3,
        ((w >> 12) & 0xFF_FFFF_FFFF) as bv40, ((w >> 52) & 0x7F) as bv7,
        ((w >> 59) & 0xF) as bv4, w & 0x8000_0000_0000_0000 != 0)
  {}

  lemma PteWithPageSizeUpdates(w: Pte, v: bool)
    ensures DecodePte(PteWithPageSize(w, v)) == DecodePte(w).(pageSize := v)
  {
    PteWithPageSizeBits(w, v);
    DecodePteOf((w & !0x100) | (if v then 0x100 else 0));
    DecodePteOf(w);
  }

  function PteWithPagePaddr(w: Pte, v: bv40): Pte
  {
    (w & !0xF_FFFF_FFFF_F000) | ((v as Pte) << 12)
  }

  lemma PteWithPagePaddrBits(w: Pte, v: bv40)
    ensures var r := (w & !0xF_FFFF_FFFF_F000) | ((v as Pte) << 12);
      PteFields(
        r & 0x1 != 0, r & 0x2 != 0, r & 0x4 != 0, r & 0x8 != 0, r & 0x10 != 0, r & 0x20 != 0,
        r & 0x40 != 0, r & 0x80 != 0, r & 0x100 != 0, ((r >> 9) & 0x7) as bv3,
        ((r >> 12) & 0xFF_FFFF_FFFF) as bv40, ((r >> 52) & 0x7F) as bv7,
        ((r >> 59) & 0xF) as bv4, r & 0x8000_0000_0000_0000 != 0)
      == PteFields(
        w & 0x1 != 0, w & 0x2 != 0, w & 0x4 != 0, w & 0x8 != 0, w & 0x10 != 0, w & 0x20 != 0,
        w & 0x40 != 0, w & 0x80 != 0, w & 0x100 != 0, ((w >> 9) & 0x7) as bv3, v,
        ((w >> 52) & 0x7F) as bv7, ((w >> 59) & 0xF) as bv4, w & 0x8000_0000_0000_0000 != 0)
  {}

  lemma PteWithPagePaddrUpdates(w: Pte, v: bv40)
    ensures DecodePte(PteWithPagePaddr(w, v)) == DecodePte(w).(pagePaddr := v)
  {
    PteWithPagePaddrBits(w, v);
    DecodePteOf((w & !0xF_FFFF_FFFF_F000) | ((v as Pte) << 12));
    DecodePteOf(w);
  }

  function PteWithNx(w: Pte, v: bool): Pte
  {
    (w & !0x8000_0000_0000_0000) | (if v then 0x8000_0000_0000_0000 else 0)
  }

  lemma PteWithNxBits(w: Pte, v: bool)
    ensures var r := (w & !0x8000_0000_0000_0000) | (if v then 0x8000_0000_0000_0000 else 0);
      PteFields(
        r & 0x1 != 0, r & 0x2 != 0, r & 0x4 != 0, r & 0x8 != 0, r & 0x10 != 0, r & 0x20 != 0,
        r & 0x40 != 0, r & 0x80 != 0, r & 0x100 != 0, ((r >> 9) & 0x7) as bv3,
        ((r >> 12) & 0xFF_FFFF_FFFF) as bv40, ((r >> 52) & 0x7F) as bv7,
        ((r >> 59) & 0xF) as bv4, r & 0x8000_0000_0000_0000 != 0)
      == PteFields(
        w & 0x1 != 0, w & 0x2 != 0, w & 0x4 != 0, w & 0x8 != 0, w & 0x10 != 0, w & 0x20 != 0,
        w & 0x40 != 0, w & 0x80 != 0, w & 0x100 != 0, ((w >> 9) & 0x7) as bv3,
        ((w >> 12) & 0xFF_FFFF_FFFF) as bv40, ((w >> 52) & 0x7F) as bv7,
        ((w >> 59) & 0xF) as bv4, v)
  {}

  lemma PteWithNxUpdates(w: Pte, v: bool)
    ensures DecodePte(PteWithNx(w, v)) == DecodePte(w).(nx := v)
  {
    PteWithNxBits(w, v);
    DecodePteOf((w & !0x8000_0000_0000_0000) | (if v then 0x8000_0000_0000_0000 else 0));
    DecodePteOf(w);
  }

  /** `Pte::init()` */
  const PTE_INIT: Pte :=
    PteWithNx(PteWithPageSize(PteWithAccessed(PteWithCacheDisable(PteWithWriteThrough(
      PteWithUser(PteWithRw(PteWithPresent(0, true), false), false), false), false), false), false), false)

  /** The leaf template is present and nothing else: raw bits 1. */
  lemma PteInitIsPresentOnly()
    ensures DecodePte(PTE_INIT) == PteFields(true, false, false, false, false, false, false, false, false, 0, 0, 0, 0, false)
    ensures PTE_INIT == 1
  {}
  // ----- The tables -----

  /** The five table types: each is an array of exactly 512 eight-byte entries. */
  type Pml5Table4k = t: seq<NonLeafEntry> | |t| == ENTRIES witness seq(512, _ => 0)
  type Pml4Table4k = t: seq<NonLeafEntry> | |t| == ENTRIES witness seq(512, _ => 0)
  type PageDirectoryPointerTable4k = t: seq<NonLeafEntry> | |t| == ENTRIES witness seq(512, _ => 0)
  type PageDirectoryTable4k = t: seq<NonLeafEntry> | |t| == ENTRIES witness seq(512, _ => 0)
  type PageTable = t: seq<Pte> | |t| == ENTRIES witness seq(512, _ => 0)

  // ----- PageTable::identity() -----

  /**
   * A copy of the template with `rw` set and `page_paddr` holding the number
   * `paddr`: present and writable, every other flag and field zero.
   */
  predicate IsWritableEntry(e: Pte, paddr: nat)
  {
    var f := DecodePte(e);
    f.present && f.rw && !f.user && !f.writeThrough && !f.cacheDisable && !f.accessed
    && !f.available && !f.dirty && !f.pageSize && f.available2 == 0 && f.available3 == 0
    && f.mkp == 0 && !f.nx && f.pagePaddr as int == paddr
  }

  /**
   * The physical address a leaf entry maps: `page_paddr` holds the frame number,
   * bits 12-51 of the address, so the address is that number times 4096.
   */
  function FrameAddress(e: Pte): (addr: nat)
    ensures addr % 4096 == 0 && addr < 0x10_0000_0000_0000
  {
    DecodePte(e).pagePaddr as int * 4096
  }

  /** Every index of a table is a 9-bit number: here is its word, built by counting up. */
  lemma {:induction false} TableIndex(k: nat) returns (x: bv9)
    requires k < ENTRIES
    ensures x as int == k
  {
    if k == 0 {
      x := 0;
    } else {
      var y := TableIndex(k - 1);
      IndexIncrement(y, k - 1);
      x := y + 1;
    }
  }

  lemma IndexIncrement(x: bv9, m: int)
    requires x as int == m && 0 <= m < 511
    ensures (x + 1) as int == m + 1
  {}

  /** A 9-bit index shifted into place is the index times 4096, in 40 bits. */
  lemma ShiftedIndex(x: bv9)
    ensures ((x as bv40) << 12) as int == x as int * 4096
  {}

  /** A number that some 40-bit word denotes converts back to that word. */
  lemma NumberToWord(n: int, y: bv40)
    requires n == y as int
    ensures n as bv40 == y
  {}

  /**
   * The value `(i * 4096) as _` that the loop stores into the 40-bit
   * `page_paddr` is not truncated: for every index of the table it is the
   * number `i * 4096`.
   */
  lemma PagePaddrFits(k: nat)
    requires k < ENTRIES
    ensures k * 4096 < 0x100_0000_0000
    ensures ((k * 4096) as bv40) as int == k * 4096
  {
    var x := TableIndex(k);
    ShiftedIndex(x);
    NumberToWord(k * 4096, (x as bv40) << 12);
  }

  /** Setting `page_paddr` to `p` and then `rw` in a copy of the template. */
  lemma WritableStep(p: bv40)
    ensures IsWritableEntry(PteWithRw(PteWithPagePaddr(PTE_INIT, p), true), p as int)
  {
    PteInitIsPresentOnly();
    PteWithPagePaddrUpdates(PTE_INIT, p);
    PteWithRwUpdates(PteWithPagePaddr(PTE_INIT, p), true);
  }

  /** The body of the loop in `identity()`: `set_page_paddr((i * 4096) as _)`, then `set_rw(true)`. */
  method MapEntry(a: array<Pte>, i: nat)
    requires a.Length == ENTRIES && i < ENTRIES && a[i] == PTE_INIT
    modifies a
    ensures IsWritableEntry(a[i], i * 4096)
    ensures forall k :: 0 <= k < a.Length && k != i ==> a[k] == old(a[k])
  {
    PagePaddrFits(i);
    WritableStep((i * 4096) as bv40);
    a[i] := PteWithPagePaddr(a[i], (i * 4096) as bv40);
    a[i] := PteWithRw(a[i], true);
  }

  /**
   * `PageTable::identity()`: start from 512 copies of `Pte::init()` and, for every
   * index from 0 up, store `i * 4096` in `page_paddr` and set `rw`.
   */
  method Identity() returns (pt: PageTable)
    ensures forall k :: 0 <= k < ENTRIES ==> IsWritableEntry(pt[k], k * 4096)
  {
    var a := new Pte[ENTRIES](_ => PTE_INIT);
    var i := 0;
    while i < a.Length
      invariant a.Length == ENTRIES && i <= ENTRIES
      invariant forall k :: 0 <= k < i ==> IsWritableEntry(a[k], k * 4096)
      invariant forall k :: i <= k < a.Length ==> a[k] == PTE_INIT
    {
      MapEntry(a, i);
      i := i + 1;
    }
    pt := a[..];
  }

  /** The only fields a writable entry sets are `present`, `rw` and `page_paddr`. */
  lemma WritableEntryFields(e: Pte, paddr: nat)
    requires IsWritableEntry(e, paddr)
    ensures DecodePte(e) == PteFields(true, true, false, false, false, false, false, false, false, 0,
                                      DecodePte(e).pagePaddr, 0, 0, false)
  {}

  /** A leaf entry with only `present`, `rw` and `page_paddr` set, as a word. */
  lemma EncodePresentWritable(p: bv40)
    ensures EncodePte(PteFields(true, true, false, false, false, false, false, false, false, 0, p, 0, 0, false))
            == ((p as Pte) << 12) | 3
  {}

  /** Two 40-bit words that denote the same number are the same word. */
  lemma SameNumberSameWord(x: bv40, y: bv40)
    requires x as int == y as int
    ensures x == y
  {
    WordRoundTrip(x);
    WordRoundTrip(y);
  }

  lemma WordRoundTrip(x: bv40)
    ensures (x as int) as bv40 == x
  {}

  /** Index `x` shifted to bit 24, with `present` and `rw`, as a number. */
  lemma IdentityWordNumber(x: bv9)
    ensures (((((x as bv40) << 12) as Pte) << 12) | 3) as int == 3 + x as int * 4096 * 4096
  {}

  /**
   * The raw bits of entry `k` of the table `identity()` builds: 3 (`present` and
   * `rw`) plus `k * 4096` shifted to bit 12, with nothing truncated.
   */
  lemma IdentityEntryWord(e: Pte, k: nat)
    requires k < ENTRIES && IsWritableEntry(e, k * 4096)
    ensures e as int == 3 + (k * 4096) * 4096
  {
    var x := TableIndex(k);
    ShiftedIndex(x);
    var p := DecodePte(e).pagePaddr;
    SameNumberSameWord(p, (x as bv40) << 12);
    WritableEntryFields(e, k * 4096);
    EncodePteDecodePte(e);
    EncodePresentWritable(p);
    IdentityWordNumber(x);
  }

  /**
   * What entry `k` of the table maps: the number `k * 4096` sits in the frame-number
   * field, so the physical address is `k * 4096 * 4096` (0x100_0000 for entry 1).
   */
  lemma IdentityFrameAddress(pt: PageTable, k: nat)
    requires forall j :: 0 <= j < ENTRIES ==> IsWritableEntry(pt[j], j * 4096)
    requires k < ENTRIES
    ensures FrameAddress(pt[k]) == k * 0x100_0000
  {
    assert IsWritableEntry(pt[k], k * 4096);
  }
}

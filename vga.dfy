/**
 * The VGA text-mode writer of src/arch/x86/vga.rs.
 *
 * The screen is 80 by 25 cells of 16 bits each: the character byte in bits
 * 0-7, the text colour in bits 8-11 and the background colour in bits 12-15.
 * A writer owns the whole buffer and a cursor `pos`; it clears the screen to a
 * background colour and appends printable characters one cell after another.
 * There is no scrolling, so characters that find the cursor at the end of the
 * screen are dropped.  A global counter keeps at most one writer alive.
 *
 * The pure part (`Screen`, `Cleared`, `PutChar`, `PutString`) says what the
 * writer does; the class `VgaWriter` does it in place on an array, and its
 * methods are proved to agree with the pure part.
 */
module Vga {
  import opened Wrappers

  /** `VGA_BUFFER_LEN`: 25 rows of 80 cells. */
  const VGA_BUFFER_LEN: nat := 25 * 80

  // ----- Colours -----

  /** `VgaColor`, `#[repr(u16)]`: the sixteen text-mode colours. */
  datatype VgaColor =
    | Black | Blue | Green | Cyan | Red | Magenta | Brown | LightGrey
    | DarkGrey | LightBlue | LightGreen | LightCyan | LightRed | LightMagenta | LightBrown | White

  /** `color as u16`. */
  function ColorCode(c: VgaColor): (v: bv16)
    ensures v < 16
  {
    match c
    case Black => 0x0
    case Blue => 0x1
    case Green => 0x2
    case Cyan => 0x3
    case Red => 0x4
    case Magenta => 0x5
    case Brown => 0x6
    case LightGrey => 0x7
    case DarkGrey => 0x8
    case LightBlue => 0x9
    case LightGreen => 0xA
    case LightCyan => 0xB
    case LightRed => 0xC
    case LightMagenta => 0xD
    case LightBrown => 0xE
    case White => 0xF
  }

  /** The colour with a given code, if there is one. */
  function ColorOf(v: bv16): (c: Option<VgaColor>)
    ensures c.Some? <==> v < 16
  {
    if v == 0x0 then Some(Black)
    else if v == 0x1 then Some(Blue)
    else if v == 0x2 then Some(Green)
    else if v == 0x3 then Some(Cyan)
    else if v == 0x4 then Some(Red)
    else if v == 0x5 then Some(Magenta)
    else if v == 0x6 then Some(Brown)
    else if v == 0x7 then Some(LightGrey)
    else if v == 0x8 then Some(DarkGrey)
    else if v == 0x9 then Some(LightBlue)
    else if v == 0xA then Some(LightGreen)
    else if v == 0xB then Some(LightCyan)
    else if v == 0xC then Some(LightRed)
    else if v == 0xD then Some(LightMagenta)
    else if v == 0xE then Some(LightBrown)
    else if v == 0xF then Some(White)
    else None
  }

  /** Each colour has its own code, and the codes are exactly 0 to 15. */
  lemma ColorRoundTrip(c: VgaColor, v: bv16)
    ensures ColorOf(ColorCode(c)) == Some(c)
    ensures ColorOf(v).Some? ==> ColorCode(ColorOf(v).value) == v
  {}

  // ----- Cells -----

  /** The character byte of a cell. */
  function CellChar(v: bv16): bv8
  {
    (v & 0x00FF) as bv8
  }

  /** The text colour code of a cell. */
  function CellText(v: bv16): bv16
  {
    (v >> 8) & 0xF
  }

  /** The background colour code of a cell. */
  function CellBackground(v: bv16): bv16
  {
    v >> 12
  }

  /** The cell `clear` writes: `((background as u16) << 12) & 0xF000`. */
  function BlankCell(bg: VgaColor): bv16
  {
    (ColorCode(bg) << 12) & 0xF000
  }

  /** The cell `putc` writes over `prev`: `prev & 0xF000 | c as u16 | ((text as u16) << 8) & 0x0F00`. */
  function PrintedCell(prev: bv16, c: bv8, text: VgaColor): bv16
  {
    (prev & 0xF000) | (c as bv16) | ((ColorCode(text) << 8) & 0x0F00)
  }

  lemma BlankCellBits(k: bv16)
    requires k < 16
    ensures CellChar((k << 12) & 0xF000) == 0
    ensures CellText((k << 12) & 0xF000) == 0
    ensures CellBackground((k << 12) & 0xF000) == k
  {}

  /** A blank cell holds character 0 in black on the background colour. */
  lemma BlankCellFields(bg: VgaColor)
    ensures CellChar(BlankCell(bg)) == 0
    ensures ColorOf(CellText(BlankCell(bg))) == Some(Black)
    ensures ColorOf(CellBackground(BlankCell(bg))) == Some(bg)
  {
    BlankCellBits(ColorCode(bg));
    ColorRoundTrip(bg, 0);
  }

  lemma PrintedCellBits(prev: bv16, c: bv8, k: bv16)
    requires k < 16
    ensures CellChar((prev & 0xF000) | (c as bv16) | ((k << 8) & 0x0F00)) == c
    ensures CellText((prev & 0xF000) | (c as bv16) | ((k << 8) & 0x0F00)) == k
    ensures CellBackground((prev & 0xF000) | (c as bv16) | ((k << 8) & 0x0F00)) == CellBackground(prev)
  {}

  /**
   * A printed cell holds the character in the text colour and keeps the
   * background colour the cell had.
   */
  lemma PrintedCellFields(prev: bv16, c: bv8, text: VgaColor)
    ensures CellChar(PrintedCell(prev, c, text)) == c
    ensures ColorOf(CellText(PrintedCell(prev, c, text))) == Some(text)
    ensures CellBackground(PrintedCell(prev, c, text)) == CellBackground(prev)
  {
    PrintedCellBits(prev, c, ColorCode(text));
    ColorRoundTrip(text, 0);
  }

  // ----- What the writer does, on values -----

  /** The cells and the cursor of a writer. */
  datatype Screen = Screen(cells: seq<bv16>, pos: nat)

  /** The shape every writer keeps: 2000 cells and the cursor within them. */
  predicate ValidScreen(s: Screen)
  {
    |s.cells| == VGA_BUFFER_LEN && s.pos <= |s.cells|
  }

  /** `putc` writes only the printable ASCII bytes, space to tilde. */
  predicate Printable(c: bv8)
  {
    0x20 <= c < 0x7F
  }

  /** `clear(bg)`: every cell blank on `bg`, the cursor at the start. */
  function Cleared(bg: VgaColor): (s: Screen)
    ensures ValidScreen(s) && s.pos == 0
  {
    Screen(seq(VGA_BUFFER_LEN, _ => BlankCell(bg)), 0)
  }

  /** `putc(c, text)`: dropped at the end of the screen or for an unprintable byte. */
  function PutChar(s: Screen, c: bv8, text: VgaColor): Screen
  {
    if s.pos >= |s.cells| || !Printable(c) then s
    else Screen(s.cells[s.pos := PrintedCell(s.cells[s.pos], c, text)], s.pos + 1)
  }

  /** `putc` for each byte of `str` in turn. */
  function PutString(s: Screen, str: seq<bv8>, text: VgaColor): Screen
    decreases |str|
  {
    if str == [] then s else PutString(PutChar(s, str[0], text), str[1..], text)
  }

  /** A cleared screen: blank cells on `bg`, the cursor at the start. */
  lemma ClearedScreen(bg: VgaColor, k: nat)
    requires k < VGA_BUFFER_LEN
    ensures Cleared(bg).pos == 0
    ensures CellChar(Cleared(bg).cells[k]) == 0
    ensures ColorOf(CellBackground(Cleared(bg).cells[k])) == Some(bg)
  {
    BlankCellFields(bg);
  }

  /**
   * `putc` on a full screen or with an unprintable byte changes nothing;
   * otherwise it prints at the cursor, keeps the cell's background, moves the
   * cursor one cell on, and leaves every other cell as it was.
   */
  lemma PutCharEffect(s: Screen, c: bv8, text: VgaColor)
    ensures s.pos >= |s.cells| || !Printable(c) ==> PutChar(s, c, text) == s
    ensures s.pos < |s.cells| && Printable(c) ==>
      var r := PutChar(s, c, text);
      && |r.cells| == |s.cells|
      && r.pos == s.pos + 1
      && CellChar(r.cells[s.pos]) == c
      && ColorOf(CellText(r.cells[s.pos])) == Some(text)
      && CellBackground(r.cells[s.pos]) == CellBackground(s.cells[s.pos])
      && (forall k :: 0 <= k < |s.cells| && k != s.pos ==> r.cells[k] == s.cells[k])
  {
    if s.pos < |s.cells| && Printable(c) {
      PrintedCellFields(s.cells[s.pos], c, text);
    }
  }

  /** `putc` keeps the cursor within the screen and the screen's size. */
  lemma PutCharKeepsShape(s: Screen, c: bv8, text: VgaColor)
    requires ValidScreen(s)
    ensures ValidScreen(PutChar(s, c, text))
  {}

  /** Writing any bytes keeps the shape, and moves the cursor by at most one cell per byte. */
  lemma {:induction false} PutStringKeepsShape(s: Screen, str: seq<bv8>, text: VgaColor)
    requires ValidScreen(s)
    ensures ValidScreen(PutString(s, str, text))
    ensures s.pos <= PutString(s, str, text).pos <= s.pos + |str|
    decreases |str|
  {
    if str != [] {
      PutStringKeepsShape(PutChar(s, str[0], text), str[1..], text);
    }
  }

  /** There is no scrolling: once the cursor is at the end, every byte is dropped. */
  lemma {:induction false} PutStringWhenFull(s: Screen, str: seq<bv8>, text: VgaColor)
    requires s.pos >= |s.cells|
    ensures PutString(s, str, text) == s
    decreases |str|
  {
    if str != [] {
      PutStringWhenFull(PutChar(s, str[0], text), str[1..], text);
    }
  }

  /**
   * Printable bytes that fit are written one per cell from the cursor on: the
   * cursor ends `|str|` cells further, cell `s.pos + k` shows `str[k]` in the
   * text colour on the background it had, and the cells outside that run are
   * untouched.
   */
  lemma {:induction false} PutStringPrints(s: Screen, str: seq<bv8>, text: VgaColor)
    requires s.pos + |str| <= |s.cells|
    requires forall k :: 0 <= k < |str| ==> Printable(str[k])
    ensures |PutString(s, str, text).cells| == |s.cells|
    ensures PutString(s, str, text).pos == s.pos + |str|
    ensures forall k :: 0 <= k < |str| ==>
      CellChar(PutString(s, str, text).cells[s.pos + k]) == str[k]
      && ColorOf(CellText(PutString(s, str, text).cells[s.pos + k])) == Some(text)
      && CellBackground(PutString(s, str, text).cells[s.pos + k]) == CellBackground(s.cells[s.pos + k])
    ensures forall k :: 0 <= k < |s.cells| && !(s.pos <= k < s.pos + |str|) ==>
      PutString(s, str, text).cells[k] == s.cells[k]
    decreases |str|
  {
    if str != [] {
      var t := PutChar(s, str[0], text);
      PutCharEffect(s, str[0], text);
      PutStringPrints(t, str[1..], text);
      var r := PutString(s, str, text);
      assert r == PutString(t, str[1..], text);
      forall k | 0 <= k < |str|
        ensures CellChar(r.cells[s.pos + k]) == str[k]
        ensures ColorOf(CellText(r.cells[s.pos + k])) == Some(text)
        ensures CellBackground(r.cells[s.pos + k]) == CellBackground(s.cells[s.pos + k])
      {
        if k > 0 {
          assert str[1..][k - 1] == str[k];
          assert t.pos + (k - 1) == s.pos + k;
        }
      }
    }
  }

  /**
   * After `clear`, `n <= 2000` printable bytes leave the cursor at `n`, and
   * printable bytes beyond the 2000th are dropped: the cursor stops at the end.
   */
  lemma {:induction false} PrintAfterClear(bg: VgaColor, str: seq<bv8>, text: VgaColor)
    requires forall k :: 0 <= k < |str| ==> Printable(str[k])
    ensures |str| <= VGA_BUFFER_LEN ==> PutString(Cleared(bg), str, text).pos == |str|
    ensures |str| > VGA_BUFFER_LEN ==>
      PutString(Cleared(bg), str, text) == PutString(Cleared(bg), str[..VGA_BUFFER_LEN], text)
      && PutString(Cleared(bg), str, text).pos == VGA_BUFFER_LEN
  {
    if |str| <= VGA_BUFFER_LEN {
      PutStringPrints(Cleared(bg), str, text);
    } else {
      var head := str[..VGA_BUFFER_LEN];
      PutStringPrints(Cleared(bg), head, text);
      var full := PutString(Cleared(bg), head, text);
      PutStringConcat(Cleared(bg), head, str[VGA_BUFFER_LEN..], text);
      assert head + str[VGA_BUFFER_LEN..] == str;
      PutStringWhenFull(full, str[VGA_BUFFER_LEN..], text);
    }
  }

  /** Writing `a + b` is writing `a`, then `b`. */
  lemma {:induction false} PutStringConcat(s: Screen, a: seq<bv8>, b: seq<bv8>, text: VgaColor)
    ensures PutString(s, a + b, text) == PutString(PutString(s, a, text), b, text)
    decreases |a|
  {
    if a != [] {
      assert (a + b)[0] == a[0];
      assert (a + b)[1..] == a[1..] + b;
      assert PutString(s, a + b, text) == PutString(PutChar(s, a[0], text), a[1..] + b, text);
      PutStringConcat(PutChar(s, a[0], text), a[1..], b, text);
    } else {
      assert a + b == b;
    }
  }

  // ----- The writer, in place -----

  /**
   * `VGA_NESTING`: the number of live writers.  `live` is the set of writers
   * not yet dropped; it is only for the proofs.
   */
  class Nesting {
    var count: int
    ghost var live: set<VgaWriter>

    /** Each live writer is counted once, and there is at most one. */
    ghost predicate Valid()
      reads this
    {
      count == |live| && count <= 1
    }

    /** The counter starts at 0. */
    constructor ()
      ensures count == 0 && live == {} && Valid()
    {
      count := 0;
      live := {};
    }
  }

  class VgaWriter {
    /** The cursor: the index of the next cell `putc` writes. */
    var pos: nat
    /** The 2000 cells of the text buffer. */
    const buf: array<bv16>

    /** The writer's cells and cursor as a value. */
    ghost function State(): Screen
      reads this, buf
    {
      Screen(buf[..], pos)
    }

    ghost predicate Valid()
      reads this
    {
      buf.Length == VGA_BUFFER_LEN && pos <= buf.Length
    }

    /** A writer over `screen` with its cursor at the start. */
    constructor Over(screen: array<bv16>)
      ensures buf == screen && pos == 0
    {
      buf := screen;
      pos := 0;
    }

    /**
     * `VgaWriter::new()`: `None` while the counter is positive, with nothing
     * changed; otherwise a writer over `screen` (the text buffer at 0xB8000)
     * with its cursor at 0, and the counter one higher.  From a valid counter
     * the counter stays valid, so a second `new` before a drop fails.
     */
    static method New(nesting: Nesting, screen: array<bv16>) returns (w: Option<VgaWriter>)
      requires screen.Length == VGA_BUFFER_LEN
      modifies nesting
      ensures old(nesting.count) > 0 ==>
        w.None? && nesting.count == old(nesting.count) && nesting.live == old(nesting.live)
      ensures old(nesting.count) <= 0 ==>
        && w.Some? && fresh(w.value)
        && w.value.buf == screen && w.value.pos == 0 && w.value.Valid()
        && nesting.count == old(nesting.count) + 1
        && nesting.live == old(nesting.live) + {w.value}
      ensures old(nesting.Valid()) ==> nesting.Valid()
    {
      if nesting.count > 0 {
        return None;
      }
      var writer := new VgaWriter.Over(screen);
      nesting.count := nesting.count + 1;
      nesting.live := nesting.live + {writer};
      w := Some(writer);
    }

    /** `clear(bg)`: every cell blank on `bg`, the cursor at 0. */
    method Clear(bg: VgaColor)
      requires buf.Length == VGA_BUFFER_LEN
      modifies this, buf
      ensures State() == Cleared(bg) && Valid()
    {
      var cell := BlankCell(bg);
      var i := 0;
      while i < buf.Length
        invariant i <= buf.Length
        invariant forall k :: 0 <= k < i ==> buf[k] == cell
      {
        buf[i] := cell;
        i := i + 1;
      }
      pos := 0;
      assert buf[..] == seq(VGA_BUFFER_LEN, _ => BlankCell(bg));
    }

    /** `putc(c, text)`, as `PutChar` says. */
    method Putc(c: bv8, text: VgaColor)
      modifies this, buf
      ensures State() == PutChar(old(State()), c, text)
      ensures old(Valid()) ==> Valid()
    {
      if pos >= buf.Length || c < 0x20 || c >= 127 {
        return;
      }
      buf[pos] := PrintedCell(buf[pos], c, text);
      pos := pos + 1;
    }

    /** `drop`: the counter one lower and this writer no longer live. */
    method Drop(nesting: Nesting)
      requires this in nesting.live
      modifies nesting
      ensures nesting.count == old(nesting.count) - 1
      ensures nesting.live == old(nesting.live) - {this}
      ensures old(nesting.Valid()) ==> nesting.Valid() && nesting.count == 0
    {
      nesting.count := nesting.count - 1;
      nesting.live := nesting.live - {this};
    }
  }
}

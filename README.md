# deimos boot layer, modelled in Dafny

This project models the boot layer of the deimos x86-64 kernel. That is the
Rust code that runs between the Multiboot2 loader and `kernel_main`:

- the Global Descriptor Table and its register image (`src/arch/x86/gdt.rs`);
- the 4 KiB paging entries and the identity-mapped boot page table
  (`src/arch/x86/pages.rs`);
- the Multiboot2 request header, its checksum and its tags (`src/multiboot2.rs`);
- the VGA text-mode writer with its single-writer guard (`src/arch/x86/vga.rs`);
- the 16550-style serial port driver (`src/arch/x86/serial.rs`).

Each source file is one module:

| file | module | form |
|---|---|---|
| `gdt.dfy` | `Gdt` | pure: descriptor words (`bv64`), their decoded records, the builder chains, the packed table and `Gdtr64` images |
| `pages.dfy` | `Pages` | mixed: entry layouts and `init()` templates as pure functions; `identity()` as a method with a loop over an array |
| `multiboot2.dfy` | `Multiboot2` | pure: the header and tag records, their byte images, and the checksum expression with each cast written out |
| `vga.dfy` | `Vga` | imperative: the class `VgaWriter` over a 2000-cell array, and the class `Nesting` for `VGA_NESTING`, proved against pure screen functions |
| `serial.dfy` | `Serial` | mixed: flag-byte codecs and builders as pure functions; `init`, `putc` and `getc` as methods appending to a port trace |

Three modules are shared by the others:
- `bytes.dfy` (`Bytes`): little-endian byte images of 16-, 32- and 64-bit words.
- `bitlayout.dfy` (`BitLayout`): the sums of the field widths of a bit-field record.
- `wrappers.dfy` (`Wrappers`): `Option` and `Result`.

Bit-field records follow one pattern. A word is a bit-vector of the backing
integer's width. A `Decode…` function cuts the fields out of the word into a
datatype, and an `Encode…` function puts them back. Each `with_*` builder is a
function on words, and its `…Updates` lemma proves that it sets exactly its own field.

## Behaviour of the code worth noting

The model follows the code as written, including where its behaviour is
surprising.

- **Identity page table.** `identity()` (`src/arch/x86/pages.rs:183-190`)
  maps index 0 too, and stores `i * 4096` in `page_paddr`.
  - All 512 entries are present and writable, and `page_paddr` holds
    `i * 4096` (`Pages.Identity`).
  - `page_paddr` is a frame number, so entry `i` points at physical address
    `i * 2^24` and not at `i * 4096`. `Pages.IdentityFrameAddress` records
    this as it stands.
- **Checksum.** The checksum of `Multiboot2Header::new()` is a constant
  expression. It fails to compile when the `u32` sum overflows or is the bit
  pattern of `i32::MIN`, so it is not defined for every header length.
  `Multiboot2.ChecksumSumsToZero` states exactly when it is defined.
- **No boot checks or tag iterator.** The code has no kernel-size check at
  entry and no iterator over the boot information: `Multiboot2Info` is empty
  and `kernel_main` only halts. The model contains neither.
- **VGA putc.** `putc` (`src/arch/x86/vga.rs:62-69`) does not expand tabs,
  handle newline or backspace, scroll, or move the hardware cursor. It drops
  any byte outside 0x20..0x7E and every byte once the screen is full.
  `Vga.PutCharEffect` and `Vga.PutStringWhenFull` state this.

## Model

| member | source | states |
|---|---|---|
| Gdt.WidthsFillWord | src/arch/x86/gdt.rs:7-27 | The descriptor's sixteen field widths sum to 64, and their running sums are the shift list `FieldShifts`. The masks written in `Decode`, `Encode` and the builders are not tied to that list by a proof; `DescriptorWords` checks them against the expected words. |
| Gdt.DecodeEncode | src/arch/x86/gdt.rs:7-27 | Encoding a decoded descriptor record and decoding it again gives the record back. |
| Gdt.EncodeDecode | src/arch/x86/gdt.rs:7-27 | Every 64-bit word is the encoding of its own fields: `from_bits` and `into_bits` lose nothing. |
| Gdt.DecodeInjective | src/arch/x86/gdt.rs:7-27 | Two descriptor words with equal fields are equal. |
| Gdt.WithLimitLowUpdates | src/arch/x86/gdt.rs:9 | `with_limit_low(v)` sets `limit_low` to v and leaves every other field unchanged. |
| Gdt.WithRwUpdates | src/arch/x86/gdt.rs:13 | `with_rw(v)` sets `rw` and nothing else. |
| Gdt.WithDirectionConformingUpdates | src/arch/x86/gdt.rs:14 | `with_direction_conforming(v)` sets that bit and nothing else. |
| Gdt.WithExecutableUpdates | src/arch/x86/gdt.rs:15 | `with_executable(v)` sets that bit and nothing else. |
| Gdt.WithTypeUpdates | src/arch/x86/gdt.rs:16 | `with_type_(v)` sets that bit and nothing else. |
| Gdt.WithDplUpdates | src/arch/x86/gdt.rs:17-18 | `with_dpl(v)` sets the 2-bit privilege level and nothing else. |
| Gdt.WithPresentUpdates | src/arch/x86/gdt.rs:19 | `with_present(v)` sets that bit and nothing else. |
| Gdt.WithLimitHighUpdates | src/arch/x86/gdt.rs:20-21 | `with_limit_high(v)` sets the 4-bit high limit and nothing else. |
| Gdt.WithLongModeUpdates | src/arch/x86/gdt.rs:23 | `with_long_mode(v)` sets that bit and nothing else. |
| Gdt.WithSizeUpdates | src/arch/x86/gdt.rs:24 | `with_size(v)` sets that bit and nothing else. |
| Gdt.WithGranularityUpdates | src/arch/x86/gdt.rs:25 | `with_granularity(v)` sets that bit and nothing else. |
| Gdt.NullIsZero | src/arch/x86/gdt.rs:30 | The null descriptor has every field zero. |
| Gdt.BaseFields | src/arch/x86/gdt.rs:32-41 | The template has limit 0xFFFFF, rw, type, present, long mode, size and granularity set. Its base, accessed, conforming, dpl and reserved fields are zero. |
| Gdt.CodeAndDataFromBase | src/arch/x86/gdt.rs:43-44 | CODE and DATA are the template with `executable` set and cleared, and they differ. |
| Gdt.PrivilegeLevels | src/arch/x86/gdt.rs:45-48 | The kernel descriptors have dpl 0 and the user descriptors dpl 3. No other field differs from CODE or DATA. |
| Gdt.DescriptorWords | src/arch/x86/gdt.rs:32-48 | The concrete words: 0x00EF9A000000FFFF, 0x00EF92000000FFFF, 0x00EFFA000000FFFF and 0x00EFF2000000FFFF. |
| Gdt.Entries | src/arch/x86/gdt.rs:51-58 | A table has exactly five descriptors. |
| Gdt.TableBytes | src/arch/x86/gdt.rs:51-58 | The packed image of a table is 40 bytes. |
| Gdt.EntryAtOffset | src/arch/x86/gdt.rs:51-69 | Descriptor i of any table occupies bytes 8i to 8i+8 of the image and reads back from them. |
| Gdt.SelectorsReachKernelDescriptors | src/main.rs:121-132 | In `Gdt::new()`'s image, selector 0x08 reaches kernel code (dpl 0), 0x10 reaches kernel data, and offset 0 holds the null descriptor. |
| Gdt.GdtrBytes | src/arch/x86/gdt.rs:76-80 | The packed `Gdtr64` image is 10 bytes. |
| Gdt.InitialGdtr | src/arch/x86/gdt.rs:82-87 | The initial register has size 39, one less than the table's 40 bytes, and base 0. |
| Gdt.GdtrLayout | src/arch/x86/gdt.rs:76-80 | In any image the size sits at bytes 0-1 and the base at bytes 2-9, which are the bytes `[GDTR+2]` addresses. |
| Gdt.PatchedBase | src/main.rs:105-107 | Storing a 32-bit address at `GDTR+2` in the initial image yields the image whose base is that address and whose size is unchanged. |
| Pages.NonLeafWidthsFillWord | src/arch/x86/pages.rs:6-23 | The non-leaf widths sum to 64, and by their running sums the fields after `accessed` start at bits 6 (the `__` padding), 9, 12, 52 and 63. The literal masks of the codec are not tied to these sums by a proof; `NonLeafInitIsPresentOnly` checks one value. |
| Pages.DecodeNonLeafEncodeNonLeaf | src/arch/x86/pages.rs:6-23 | Decoding an encoded non-leaf record gives it back. |
| Pages.EncodeNonLeafDecodeNonLeaf | src/arch/x86/pages.rs:6-23 | Every 64-bit non-leaf word is the encoding of its fields. |
| Pages.DecodeNonLeafInjective | src/arch/x86/pages.rs:6-23 | Two non-leaf words with equal fields are equal. |
| Pages.NonLeafWithPresentUpdates | src/arch/x86/pages.rs:8 | `with_present(v)` sets `present` and leaves every other field unchanged. |
| Pages.NonLeafWithRwUpdates | src/arch/x86/pages.rs:9 | `with_rw(v)` sets that bit and nothing else. |
| Pages.NonLeafWithUserUpdates | src/arch/x86/pages.rs:10 | `with_user(v)` sets that bit and nothing else. |
| Pages.NonLeafWithWriteThroughUpdates | src/arch/x86/pages.rs:11 | `with_write_through(v)` sets that bit and nothing else. |
| Pages.NonLeafWithCacheDisableUpdates | src/arch/x86/pages.rs:12 | `with_cache_disable(v)` sets that bit and nothing else. |
| Pages.NonLeafWithAccessedUpdates | src/arch/x86/pages.rs:13 | `with_accessed(v)` sets that bit and nothing else. |
| Pages.NonLeafWithNxUpdates | src/arch/x86/pages.rs:22 | `with_nx(v)` sets bit 63 and nothing else. |
| Pages.NonLeafInitIsPresentOnly | src/arch/x86/pages.rs:26-35 | The `init()` of each of Pml5te4k, Pml4te4k, Pdpte4k and Pdte4k (their chains are identical) sets only `present`, so the raw word is 1. |
| Pages.PteWidthsFillWord | src/arch/x86/pages.rs:134-154 | The leaf widths (nine 1-bit fields, then 3, 40, 7, 4 and 1 bits) sum to 64. |
| Pages.DecodePteEncodePte | src/arch/x86/pages.rs:134-154 | Decoding an encoded leaf record gives it back. |
| Pages.EncodePteDecodePte | src/arch/x86/pages.rs:134-154 | Every 64-bit leaf word is the encoding of its fields. |
| Pages.DecodePteInjective | src/arch/x86/pages.rs:134-154 | Two leaf words with equal fields are equal. |
| Pages.PteWithPresentUpdates | src/arch/x86/pages.rs:136 | `with_present(v)` sets that bit and nothing else. |
| Pages.PteWithRwUpdates | src/arch/x86/pages.rs:137 | `with_rw`/`set_rw(v)` sets that bit and nothing else. |
| Pages.PteWithUserUpdates | src/arch/x86/pages.rs:138 | `with_user(v)` sets that bit and nothing else. |
| Pages.PteWithWriteThroughUpdates | src/arch/x86/pages.rs:139 | `with_write_through(v)` sets that bit and nothing else. |
| Pages.PteWithCacheDisableUpdates | src/arch/x86/pages.rs:140 | `with_cache_disable(v)` sets that bit and nothing else. |
| Pages.PteWithAccessedUpdates | src/arch/x86/pages.rs:141 | `with_accessed(v)` sets that bit and nothing else. |
| Pages.PteWithPageSizeUpdates | src/arch/x86/pages.rs:144 | `with_page_size(v)` sets that bit and nothing else. |
| Pages.PteWithPagePaddrUpdates | src/arch/x86/pages.rs:147-148 | `with_page_paddr`/`set_page_paddr(v)` sets the 40-bit frame field and nothing else. |
| Pages.PteWithNxUpdates | src/arch/x86/pages.rs:153 | `with_nx(v)` sets bit 63 and nothing else. |
| Pages.PteInitIsPresentOnly | src/arch/x86/pages.rs:157-167 | `Pte::init()` sets only `present`, so the raw word is 1. |
| Pages.FrameAddress | src/arch/x86/pages.rs:147-148 | The address an entry's frame field denotes is 4 KiB aligned and below 2^52. |
| Pages.PagePaddrFits | src/arch/x86/pages.rs:186 | For every index below 512, `i * 4096` is below 2^40, so the cast into the 40-bit field loses no bits. |
| Pages.WritableStep | src/arch/x86/pages.rs:186-187 | Setting `page_paddr` to p and then `rw` on a copy of `Pte::init()` gives an entry that is present and writable, maps p, and has every other field zero. |
| Pages.MapEntry | src/arch/x86/pages.rs:186-187 | One loop step: entry i becomes that writable entry for `i * 4096`, and every other entry keeps its value. |
| Pages.Identity | src/arch/x86/pages.rs:181-192 | `identity()` gives 512 entries. Every entry i, index 0 included, is present and writable with `page_paddr == i * 4096`, and all its other fields are zero. |
| Pages.WritableEntryFields | src/arch/x86/pages.rs:134-154 | A writable entry sets only `present`, `rw` and `page_paddr`. |
| Pages.IdentityEntryWord | src/arch/x86/pages.rs:183-189 | The raw word of identity entry i is `3 + (i * 4096) * 2^12`. |
| Pages.IdentityFrameAddress | src/arch/x86/pages.rs:186 | Identity entry i addresses physical memory at `i * 2^24`, because the frame field holds `i * 4096`. |
| Multiboot2.ArchRoundTrip | src/multiboot2.rs:36-39 | `Multiboot2Arch` has the single code 0 for protected mode, and codes and variants correspond one to one. |
| Multiboot2.TagTypeRoundTrip | src/multiboot2.rs:41-45 | The tag types are coded 0 (final) and 5 (framebuffer), one to one. |
| Multiboot2.TagBaseBytes | src/multiboot2.rs:47-52 | The packed tag header is 8 bytes. |
| Multiboot2.TagBaseLayout | src/multiboot2.rs:47-52 | The tag header has type at bytes 0-1, flags at 2-3 and size at 4-7, and each reads back. |
| Multiboot2.FinalTagValue | src/multiboot2.rs:73-84 | `Multiboot2FinalTag::new()` has type 0, flags 0 and size 8, which is the length of its image. Its bytes are 0,0,0,0,8,0,0,0. |
| Multiboot2.FramebufferTagBytes | src/multiboot2.rs:54-60 | The packed framebuffer tag is 20 bytes. |
| Multiboot2.FramebufferTagLayout | src/multiboot2.rs:54-60 | Width, height and depth sit at bytes 8, 12 and 16 after the tag header, and each reads back. |
| Multiboot2.FramebufferTagValue | src/multiboot2.rs:62-71 | `Multiboot2FramebufferTag::new()` has type 5, flags 0, size 20 (its length), 1024 by 768, depth 32. |
| Multiboot2.U32AsI32 | src/multiboot2.rs:17 | `as i32` keeps the value modulo 2^32. |
| Multiboot2.I32AsU32 | src/multiboot2.rs:17 | `as u32` keeps the value modulo 2^32. |
| Multiboot2.ChecksumSumsToZero | src/multiboot2.rs:17 | For all magic, arch and length, a defined checksum makes the four fields sum to 0 modulo 2^32. It is defined iff the `u32` sum does not overflow and is not 0x80000000. |
| Multiboot2.HeaderBytes | src/multiboot2.rs:1-9 | The packed header, with its final tag, is 24 bytes. |
| Multiboot2.HeaderLayout | src/multiboot2.rs:1-9 | Magic, architecture, header length and checksum sit at bytes 0, 4, 8 and 12, and the tags start at 16. |
| Multiboot2.HeaderValue | src/multiboot2.rs:11-24 | `Multiboot2Header::new()` evaluates, with magic 0xE85250D6, arch 0, header_length 24 (the image's length), checksum 0x17ADAF12 and the final tag. Its fields sum to 0 modulo 2^32. |
| Vga.ColorCode | src/arch/x86/vga.rs:11-30 | Every colour's code is below 16. |
| Vga.ColorRoundTrip | src/arch/x86/vga.rs:11-30 | The sixteen colours have distinct codes, exactly 0 to 15. |
| Vga.BlankCellFields | src/arch/x86/vga.rs:56 | The cell `clear` writes holds character 0 in black on the background colour. |
| Vga.PrintedCellFields | src/arch/x86/vga.rs:67 | The cell `putc` writes holds the character in the text colour and keeps the background of the cell it overwrites. |
| Vga.Cleared | src/arch/x86/vga.rs:54-60 | A cleared screen has 2000 cells and its cursor at 0. |
| Vga.ClearedScreen | src/arch/x86/vga.rs:54-60 | Every one of the 2000 cleared cells is blank on the background colour. |
| Vga.PutCharEffect | src/arch/x86/vga.rs:62-69 | `putc` changes nothing at the end of the screen or for a byte outside 0x20 to 0x7E. Otherwise it prints at the cursor, keeps that cell's background, advances the cursor by one, and leaves every other cell as it was. |
| Vga.PutCharKeepsShape | src/arch/x86/vga.rs:62-69 | `putc` keeps 2000 cells and the cursor at most 2000. |
| Vga.PutStringKeepsShape | src/arch/x86/vga.rs:62-69 | Any sequence of `putc` keeps that shape and advances the cursor by at most one cell per byte. |
| Vga.PutStringWhenFull | src/arch/x86/vga.rs:63-65 | With the cursor at the end of the screen, every further byte is dropped (there is no scrolling). |
| Vga.PutStringPrints | src/arch/x86/vga.rs:62-69 | Printable bytes that fit go into consecutive cells from the cursor, in the text colour, on the background each cell had. The cursor moves by their number, and no other cell changes. |
| Vga.PutStringConcat | src/arch/x86/vga.rs:62-69 | Writing a + b is writing a, then b. |
| Vga.PrintAfterClear | src/arch/x86/vga.rs:54-69 | After `clear`, n ≤ 2000 printable bytes leave the cursor at n. Printable bytes past the 2000th are dropped and the cursor stays at 2000. |
| Vga.VgaWriter.New | src/arch/x86/vga.rs:38-52 | While the counter is positive the result is `None` and nothing changes. Otherwise it is a fresh writer over the buffer with the cursor at 0, and the counter goes up by one. A valid counter stays valid. |
| Vga.VgaWriter.Clear | src/arch/x86/vga.rs:54-60 | The writer's state becomes `Cleared(bg)`: all 2000 cells are `(bg << 12) & 0xF000` and the cursor is 0. |
| Vga.VgaWriter.Putc | src/arch/x86/vga.rs:62-69 | The writer's state becomes `PutChar` of its old state, and the cursor bound is kept. |
| Vga.VgaWriter.Drop | src/arch/x86/vga.rs:72-76 | The counter goes down by one and the writer is no longer live. In a valid counter it returns to 0. |
| Vga.Nesting.constructor | src/arch/x86/vga.rs:32 | `VGA_NESTING` starts at 0 with no live writer. |
| Serial.Offset | src/arch/x86/serial.rs:126-137 | Every register offset is below 8. |
| Serial.Com.Port | src/arch/x86/serial.rs:139-150 | A register's port is the base plus its offset, within base to base+7. |
| Serial.ComPorts | src/arch/x86/serial.rs:6-7 | RX, TX and DIV_LSB are at base+0, INT_ENABLE and DIV_MSB at +1, INT_ID and FIFO_CTRL at +2, then LINE_CTRL +3, MODEM_CTRL +4, LINE_STATUS +5, MODEM_STATUS +6, SCRATCH +7. COM1 is at 0x3F8 and COM2 at 0x2F8. |
| Serial.IntEnableWidthsFillByte | src/arch/x86/serial.rs:19-27 | The `IntEnableFlags` widths fill one byte. |
| Serial.IntEnableCodec | src/arch/x86/serial.rs:19-43 | `from_bits` and `into_bits` of `IntEnableFlags` undo each other, so every byte round-trips. |
| Serial.IntEnableWithRxAvailableUpdates | src/arch/x86/serial.rs:21 | `with_rx_available(v)` sets that bit and nothing else. |
| Serial.IntEnableWithTxEmptyUpdates | src/arch/x86/serial.rs:22 | `with_tx_empty(v)` sets that bit and nothing else. |
| Serial.IntEnableWithRxLineStatusUpdates | src/arch/x86/serial.rs:23 | `with_rx_line_status(v)` sets that bit and nothing else. |
| Serial.IntEnableWithModemStatusUpdates | src/arch/x86/serial.rs:24 | `with_modem_status(v)` sets that bit and nothing else. |
| Serial.LineCtrlWidthsFillByte | src/arch/x86/serial.rs:47-56 | The `LineCtrlFlags` widths fill the byte, and by their running sums data_bits starts at bit 0, stop at 2, parity at 3, break at 6 and dlab at 7. The codec's literal masks are not tied to these sums by a proof; `InitValues` checks them against the bytes `init` writes. |
| Serial.LineCtrlCodec | src/arch/x86/serial.rs:47-72 | Every `LineCtrlFlags` byte round-trips through its fields. |
| Serial.LineCtrlWithDataBitsUpdates | src/arch/x86/serial.rs:49-50 | `with_data_bits(v)` sets the 2-bit field and nothing else. |
| Serial.LineCtrlWithStopBitsUpdates | src/arch/x86/serial.rs:51 | `with_stop_bits(v)` sets that bit and nothing else. |
| Serial.LineCtrlWithParityBitsUpdates | src/arch/x86/serial.rs:52-53 | `with_parity_bits(v)` sets the 3-bit field and nothing else. |
| Serial.LineCtrlWithDlabUpdates | src/arch/x86/serial.rs:55 | `with_dlab(v)` sets bit 7 and nothing else. |
| Serial.FifoCtrlWidthsFillByte | src/arch/x86/serial.rs:76-86 | The `FifoCtrlFlags` widths fill one byte, with the trigger level at bits 6-7. |
| Serial.FifoCtrlCodec | src/arch/x86/serial.rs:76-94 | Every `FifoCtrlFlags` byte round-trips through its fields. |
| Serial.FifoCtrlWithEnableUpdates | src/arch/x86/serial.rs:78 | `with_enable(v)` sets that bit and nothing else. |
| Serial.FifoCtrlWithClearRxUpdates | src/arch/x86/serial.rs:79 | `with_clear_rx(v)` sets that bit and nothing else. |
| Serial.FifoCtrlWithClearTxUpdates | src/arch/x86/serial.rs:80 | `with_clear_tx(v)` sets that bit and nothing else. |
| Serial.FifoCtrlWithInterruptTriggerLevelUpdates | src/arch/x86/serial.rs:84-85 | `with_interrupt_trigger_level(v)` sets bits 6-7 and nothing else. |
| Serial.ModemCtrlWidthsFillByte | src/arch/x86/serial.rs:98-107 | The `ModemCtrlFlags` widths fill one byte. |
| Serial.ModemCtrlCodec | src/arch/x86/serial.rs:98-123 | Every `ModemCtrlFlags` byte round-trips through its fields. |
| Serial.ModemCtrlWithDtrUpdates | src/arch/x86/serial.rs:100 | `with_dtr(v)` sets that bit and nothing else. |
| Serial.ModemCtrlWithRtsUpdates | src/arch/x86/serial.rs:101 | `with_rts(v)` sets that bit and nothing else. |
| Serial.ModemCtrlWithOut1Updates | src/arch/x86/serial.rs:102 | `with_out1(v)` sets that bit and nothing else. |
| Serial.ModemCtrlWithIrqEnableUpdates | src/arch/x86/serial.rs:103 | `with_irq_enable(v)` sets that bit and nothing else. |
| Serial.ModemCtrlWithLoopbackUpdates | src/arch/x86/serial.rs:104 | `with_loopback(v)` sets that bit and nothing else. |
| Serial.InitValues | src/arch/x86/serial.rs:160-175 | The values `init` writes, with their fields: interrupts off 0x00, DLAB 0x80, 8N1 0x03, FIFO 0xC7, then modem control 0x0B, loopback 0x1E and operate 0x0F. |
| Serial.InitProbeEvents | src/arch/x86/serial.rs:160-171 | `init` issues, in order, INT_ENABLE←0x00, LINE_CTRL←0x80, DIV_LSB←3, DIV_MSB←0, LINE_CTRL←0x03, FIFO_CTRL←0xC7, MODEM_CTRL←0x0B, MODEM_CTRL←0x1E and TX←0xEE, then one read of RX. |
| Serial.Com1InitProbe | src/arch/x86/serial.rs:160-171 | The same sequence on COM1's port numbers, 0x3F8 to 0x3FC. |
| Serial.PortBus.WriteByte | src/arch/x86/serial.rs:4 | A port write appends exactly one write event. |
| Serial.PortBus.ReadByte | src/arch/x86/serial.rs:4 | A port read appends exactly one read event and returns the byte the hardware supplies. |
| Serial.Com.Init | src/arch/x86/serial.rs:158-178 | After the probe, if the byte read back is not 0xEE, `init` returns `Err(FaultyHardware)` with no further events. Otherwise it appends MODEM_CTRL←0x0F and returns `Ok`. |
| Serial.Com.Putc | src/arch/x86/serial.rs:180-182 | `putc(c)` appends exactly TX←c. |
| Serial.Com.Getc | src/arch/x86/serial.rs:184-186 | `getc` appends exactly one read of RX and returns the byte read. |

## Left out

- Inline assembly is not part of this model: the mode switch in `src/main.rs` and the port instructions in `src/arch/x86/ports.rs`.
  - `src/main.rs` is used only for the selector values 0x08 and 0x10 and for the `[GDTR+2]` store.
  - A port access is one trace event keyed by its port number. What the hardware does with it is not modelled.
- `#[repr(align(4096))]` on the page tables, and where any table or buffer is placed in memory, are not modelled. Static storage and the raw pointer 0xB8000 are replaced by values and an owned array.
- The `sizeof!` macro is not modelled. Its uses become literal constants (40, 24, 20, 8), and lemmas check each against the length of the packed image. The build's misspelling `size_of!` and the `mod multiboot` declaration are left aside.
- Pages.Identity: the `usize` loop counter is an unbounded natural, because it stops at 512 and cannot wrap.
- Pages: the code never ORs a next-table address into the non-leaf entries; the assembly does that. Only their `init()` value is modelled.
- Gdt, Pages: the model makes no hardware-validity judgement. It records that `BASE` sets both `long_mode` and `size` (`Gdt.BaseFields`), and that `identity()` stores `i * 4096` in the 40-bit frame field, so entry i maps physical `i * 2^24` (`Pages.IdentityFrameAddress`).
- Gdt, Pages, Serial: only the `with_*` builders that the `init()` chains and `identity()` call are modelled. The getters on words are the `Decode…` functions.
- Gdt, Pages, Serial: the bit-field macro's range check on `with_*` arguments is captured by the field types (`bv2`, `bv4`, `bv40`, …), because an out-of-range value cannot be written; the source's setters take a `u64` or `u8`. Its failure for out-of-range constants is not modelled.
- Serial: the typed register reads (`IntEnableReg::read` and the like) are left out; `init`, `putc` and `getc` never call them.
- Serial.ComBase: the model is stricter than the source for bases 0xFFF9-0xFFFF. The source evaluates `BASE + offset` only for the offsets a call uses: `init` uses offsets up to 4 and `putc`/`getc` only offset 0, so for example `Com<0xFFFB>::init` and `Com<0xFFFF>::putc` compile. The type admits only bases whose eight register ports all fit in a `u16`.
- Vga.Nesting: `VGA_NESTING` is a plain integer. Atomic ordering is left out because the code is single-threaded. The `live` set is a proof device, standing in for Rust's guarantee that each writer is dropped once.
- Vga.VgaWriter.New: the buffer is a parameter that stands for the memory at 0xB8000, and its length is required to be 2000. That length is the safety condition `new` states.
- Multiboot2: `Multiboot2Info` is empty, so no boot-information parsing is modelled. The framebuffer tag is commented out of the header, so it is modelled only as a record.

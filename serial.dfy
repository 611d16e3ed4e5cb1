/**
 * The 16550-style serial port driver of src/arch/x86/serial.rs.
 *
 * A port `Com` is a base I/O port number; its registers sit at fixed offsets
 * from the base.  Four of them take one-byte bit-field records, declared here
 * as a decoded record, its codec, and the `with_*` builders that `init` uses.
 *
 * Port I/O is a trace: a `PortBus` records each byte written to a port and
 * each read of a port, in order, and the byte a read returns is an argument
 * of the method that reads.  `init`, `putc` and `getc` are proved to emit
 * exactly the events the driver issues.
 */
module Serial {
  import opened Wrappers
  import opened BitLayout

  // ----- Ports and registers -----

  const U16_LIMIT: int := 0x1_0000

  /** An I/O port number, a `u16`. */
  type U16 = p: int | 0 <= p < U16_LIMIT

  /**
   * A base port whose eight register ports are all `u16` values: for any other
   * the additions `BASE + offset` overflow, which fails to compile.
   */
  type ComBase = b: int | 0 <= b <= U16_LIMIT - 8

  /** `COM1_PORT_BASE`. */
  const COM1_PORT_BASE: ComBase := 0x03F8

  /** `COM2_PORT_BASE`. */
  const COM2_PORT_BASE: ComBase := 0x02F8

  /** The registers of `Com`, one per port constant. */
  datatype Register =
    | Rx | Tx | DivLsb | IntEnable | DivMsb | IntId | FifoCtrl | LineCtrl
    | ModemCtrl | LineStatus | ModemStatus | Scratch

  /** The `…_OFFSET` constants. */
  function Offset(r: Register): (k: nat)
    ensures k < 8
  {
    match r
    case Rx => 0
    case Tx => 0
    case DivLsb => 0
    case IntEnable => 1
    case DivMsb => 1
    case IntId => 2
    case FifoCtrl => 2
    case LineCtrl => 3
    case ModemCtrl => 4
    case LineStatus => 5
    case ModemStatus => 6
    case Scratch => 7
  }

  /** One port's trace event. */
  datatype PortEvent = Write(port: U16, value: bv8) | Read(port: U16)

  /** `ComInitError`. */
  datatype ComInitError = FaultyHardware

  // ----- IntEnableFlags -----

  datatype IntEnableFields = IntEnableFields(
    rxAvailable: bool,          // bit 0
    txEmpty: bool,              // bit 1
    rxLineStatus: bool,         // bit 2
    modemStatus: bool,          // bit 3
    padding: bv4)               // bits 4-7, the unnamed `__` field

  const IntEnableWidths: seq<nat> := [1, 1, 1, 1, 4]

  /** The widths fill the byte; the padding starts at bit 4. */
  lemma IntEnableWidthsFillByte()
    ensures SumTo(IntEnableWidths, |IntEnableWidths|) == 8
    ensures SumTo(IntEnableWidths, 4) == 4
  {
    assert SumTo(IntEnableWidths, 4) == 4;
  }

  function DecodeIntEnable(w: bv8): IntEnableFields
  {
    IntEnableFields(w & 0x1 != 0, w & 0x2 != 0, w & 0x4 != 0, w & 0x8 != 0, (w >> 4) as bv4)
  }

  function EncodeIntEnable(f: IntEnableFields): bv8
  {
    (if f.rxAvailable then 0x1 else 0) | (if f.txEmpty then 0x2 else 0) |
    (if f.rxLineStatus then 0x4 else 0) | (if f.modemStatus then 0x8 else 0) |
    ((f.padding as bv8) << 4)
  }

  /** `from_bits` and `into_bits` through the fields: each undoes the other. */
  lemma IntEnableCodec(w: bv8, f: IntEnableFields)
    ensures DecodeIntEnable(EncodeIntEnable(f)) == f
    ensures EncodeIntEnable(DecodeIntEnable(w)) == w
  {}

  function IntEnableWithRxAvailable(w: bv8, v: bool): bv8
  {
    (w & !0x1) | (if v then 0x1 else 0)
  }

  function IntEnableWithTxEmpty(w: bv8, v: bool): bv8
  {
    (w & !0x2) | (if v then 0x2 else 0)
  }

  function IntEnableWithRxLineStatus(w: bv8, v: bool): bv8
  {
    (w & !0x4) | (if v then 0x4 else 0)
  }

  function IntEnableWithModemStatus(w: bv8, v: bool): bv8
  {
    (w & !0x8) | (if v then 0x8 else 0)
  }

  /** Each builder sets its own field and no other. */
  lemma IntEnableWithRxAvailableUpdates(w: bv8, v: bool)
    ensures DecodeIntEnable(IntEnableWithRxAvailable(w, v)) == DecodeIntEnable(w).(rxAvailable := v)
  {}

  lemma IntEnableWithTxEmptyUpdates(w: bv8, v: bool)
    ensures DecodeIntEnable(IntEnableWithTxEmpty(w, v)) == DecodeIntEnable(w).(txEmpty := v)
  {}

  lemma IntEnableWithRxLineStatusUpdates(w: bv8, v: bool)
    ensures DecodeIntEnable(IntEnableWithRxLineStatus(w, v)) == DecodeIntEnable(w).(rxLineStatus := v)
  {}

  lemma IntEnableWithModemStatusUpdates(w: bv8, v: bool)
    ensures DecodeIntEnable(IntEnableWithModemStatus(w, v)) == DecodeIntEnable(w).(modemStatus := v)
  {}

  // ----- LineCtrlFlags -----

  datatype LineCtrlFields = LineCtrlFields(
    dataBits: bv2,              // bits 0-1
    stopBits: bool,             // bit 2
    parityBits: bv3,            // bits 3-5
    breakEnable: bool,          // bit 6
    dlab: bool)                 // bit 7

  const LineCtrlWidths: seq<nat> := [2, 1, 3, 1, 1]

  /** The widths fill the byte; the fields start at bits 0, 2, 3, 6 and 7. */
  lemma LineCtrlWidthsFillByte()
    ensures SumTo(LineCtrlWidths, |LineCtrlWidths|) == 8
    ensures [SumTo(LineCtrlWidths, 0), SumTo(LineCtrlWidths, 1), SumTo(LineCtrlWidths, 2),
             SumTo(LineCtrlWidths, 3), SumTo(LineCtrlWidths, 4)] == [0, 2, 3, 6, 7]
  {
    assert SumTo(LineCtrlWidths, 4) == 7;
  }

  function DecodeLineCtrl(w: bv8): LineCtrlFields
  {
    LineCtrlFields((w & 0x3) as bv2, w & 0x4 != 0, ((w >> 3) & 0x7) as bv3, w & 0x40 != 0, w & 0x80 != 0)
  }

  function EncodeLineCtrl(f: LineCtrlFields): bv8
  {
    (f.dataBits as bv8) | (if f.stopBits then 0x4 else 0) | ((f.parityBits as bv8) << 3) |
    (if f.breakEnable then 0x40 else 0) | (if f.dlab then 0x80 else 0)
  }

  lemma LineCtrlCodec(w: bv8, f: LineCtrlFields)
    ensures DecodeLineCtrl(EncodeLineCtrl(f)) == f
    ensures EncodeLineCtrl(DecodeLineCtrl(w)) == w
  {}

  function LineCtrlWithDataBits(w: bv8, v: bv2): bv8
  {
    (w & !0x3) | (v as bv8)
  }

  function LineCtrlWithStopBits(w: bv8, v: bool): bv8
  {
    (w & !0x4) | (if v then 0x4 else 0)
  }

  function LineCtrlWithParityBits(w: bv8, v: bv3): bv8
  {
    (w & !0x38) | ((v as bv8) << 3)
  }

  function LineCtrlWithDlab(w: bv8, v: bool): bv8
  {
    (w & !0x80) | (if v then 0x80 else 0)
  }

  lemma LineCtrlWithDataBitsUpdates(w: bv8, d: bv2)
    ensures DecodeLineCtrl(LineCtrlWithDataBits(w, d)) == DecodeLineCtrl(w).(dataBits := d)
  {}

  lemma LineCtrlWithStopBitsUpdates(w: bv8, b: bool)
    ensures DecodeLineCtrl(LineCtrlWithStopBits(w, b)) == DecodeLineCtrl(w).(stopBits := b)
  {}

  lemma LineCtrlWithParityBitsUpdates(w: bv8, p: bv3)
    ensures DecodeLineCtrl(LineCtrlWithParityBits(w, p)) == DecodeLineCtrl(w).(parityBits := p)
  {}

  lemma LineCtrlWithDlabUpdates(w: bv8, b: bool)
    ensures DecodeLineCtrl(LineCtrlWithDlab(w, b)) == DecodeLineCtrl(w).(dlab := b)
  {}

  // ----- FifoCtrlFlags -----

  datatype FifoCtrlFields = FifoCtrlFields(
    enable: bool,               // bit 0
    clearRx: bool,              // bit 1
    clearTx: bool,              // bit 2
    dmaModeSelect: bool,        // bit 3
    padding: bv2,               // bits 4-5, the unnamed `__` field
    interruptTriggerLevel: bv2) // bits 6-7

  const FifoCtrlWidths: seq<nat> := [1, 1, 1, 1, 2, 2]

  /** The widths fill the byte; the trigger level starts at bit 6. */
  lemma FifoCtrlWidthsFillByte()
    ensures SumTo(FifoCtrlWidths, |FifoCtrlWidths|) == 8
    ensures SumTo(FifoCtrlWidths, 5) == 6
  {
    assert SumTo(FifoCtrlWidths, 5) == 6;
  }

  function DecodeFifoCtrl(w: bv8): FifoCtrlFields
  {
    FifoCtrlFields(w & 0x1 != 0, w & 0x2 != 0, w & 0x4 != 0, w & 0x8 != 0,
      ((w >> 4) & 0x3) as bv2, (w >> 6) as bv2)
  }

  function EncodeFifoCtrl(f: FifoCtrlFields): bv8
  {
    (if f.enable then 0x1 else 0) | (if f.clearRx then 0x2 else 0) |
    (if f.clearTx then 0x4 else 0) | (if f.dmaModeSelect then 0x8 else 0) |
    ((f.padding as bv8) << 4) | ((f.interruptTriggerLevel as bv8) << 6)
  }

  lemma FifoCtrlCodec(w: bv8, f: FifoCtrlFields)
    ensures DecodeFifoCtrl(EncodeFifoCtrl(f)) == f
    ensures EncodeFifoCtrl(DecodeFifoCtrl(w)) == w
  {}

  function FifoCtrlWithEnable(w: bv8, v: bool): bv8
  {
    (w & !0x1) | (if v then 0x1 else 0)
  }

  function FifoCtrlWithClearRx(w: bv8, v: bool): bv8
  {
    (w & !0x2) | (if v then 0x2 else 0)
  }

  function FifoCtrlWithClearTx(w: bv8, v: bool): bv8
  {
    (w & !0x4) | (if v then 0x4 else 0)
  }

  function FifoCtrlWithInterruptTriggerLevel(w: bv8, v: bv2): bv8
  {
    (w & !0xC0) | ((v as bv8) << 6)
  }

  lemma FifoCtrlWithEnableUpdates(w: bv8, b: bool)
    ensures DecodeFifoCtrl(FifoCtrlWithEnable(w, b)) == DecodeFifoCtrl(w).(enable := b)
  {}

  lemma FifoCtrlWithClearRxUpdates(w: bv8, b: bool)
    ensures DecodeFifoCtrl(FifoCtrlWithClearRx(w, b)) == DecodeFifoCtrl(w).(clearRx := b)
  {}

  lemma FifoCtrlWithClearTxUpdates(w: bv8, b: bool)
    ensures DecodeFifoCtrl(FifoCtrlWithClearTx(w, b)) == DecodeFifoCtrl(w).(clearTx := b)
  {}

  lemma FifoCtrlWithInterruptTriggerLevelUpdates(w: bv8, t: bv2)
    ensures DecodeFifoCtrl(FifoCtrlWithInterruptTriggerLevel(w, t)) == DecodeFifoCtrl(w).(interruptTriggerLevel := t)
  {}

  // ----- ModemCtrlFlags -----

  datatype ModemCtrlFields = ModemCtrlFields(
    dtr: bool,                  // bit 0
    rts: bool,                  // bit 1
    out1: bool,                 // bit 2
    irqEnable: bool,            // bit 3
    loopback: bool,             // bit 4
    padding: bv3)               // bits 5-7, the unnamed `__` field

  const ModemCtrlWidths: seq<nat> := [1, 1, 1, 1, 1, 3]

  /** The widths fill the byte; the padding starts at bit 5. */
  lemma ModemCtrlWidthsFillByte()
    ensures SumTo(ModemCtrlWidths, |ModemCtrlWidths|) == 8
    ensures SumTo(ModemCtrlWidths, 5) == 5
  {
    assert SumTo(ModemCtrlWidths, 5) == 5;
  }

  function DecodeModemCtrl(w: bv8): ModemCtrlFields
  {
    ModemCtrlFields(w & 0x1 != 0, w & 0x2 != 0, w & 0x4 != 0, w & 0x8 != 0, w & 0x10 != 0, (w >> 5) as bv3)
  }

  function EncodeModemCtrl(f: ModemCtrlFields): bv8
  {
    (if f.dtr then 0x1 else 0) | (if f.rts then 0x2 else 0) | (if f.out1 then 0x4 else 0) |
    (if f.irqEnable then 0x8 else 0) | (if f.loopback then 0x10 else 0) | ((f.padding as bv8) << 5)
  }

  lemma ModemCtrlCodec(w: bv8, f: ModemCtrlFields)
    ensures DecodeModemCtrl(EncodeModemCtrl(f)) == f
    ensures EncodeModemCtrl(DecodeModemCtrl(w)) == w
  {}

  function ModemCtrlWithDtr(w: bv8, v: bool): bv8
  {
    (w & !0x1) | (if v then 0x1 else 0)
  }

  function ModemCtrlWithRts(w: bv8, v: bool): bv8
  {
    (w & !0x2) | (if v then 0x2 else 0)
  }

  function ModemCtrlWithOut1(w: bv8, v: bool): bv8
  {
    (w & !0x4) | (if v then 0x4 else 0)
  }

  function ModemCtrlWithIrqEnable(w: bv8, v: bool): bv8
  {
    (w & !0x8) | (if v then 0x8 else 0)
  }

  function ModemCtrlWithLoopback(w: bv8, v: bool): bv8
  {
    (w & !0x10) | (if v then 0x10 else 0)
  }

  lemma ModemCtrlWithDtrUpdates(w: bv8, v: bool)
    ensures DecodeModemCtrl(ModemCtrlWithDtr(w, v)) == DecodeModemCtrl(w).(dtr := v)
  {}

  lemma ModemCtrlWithRtsUpdates(w: bv8, v: bool)
    ensures DecodeModemCtrl(ModemCtrlWithRts(w, v)) == DecodeModemCtrl(w).(rts := v)
  {}

  lemma ModemCtrlWithOut1Updates(w: bv8, v: bool)
    ensures DecodeModemCtrl(ModemCtrlWithOut1(w, v)) == DecodeModemCtrl(w).(out1 := v)
  {}

  lemma ModemCtrlWithIrqEnableUpdates(w: bv8, v: bool)
    ensures DecodeModemCtrl(ModemCtrlWithIrqEnable(w, v)) == DecodeModemCtrl(w).(irqEnable := v)
  {}

  lemma ModemCtrlWithLoopbackUpdates(w: bv8, v: bool)
    ensures DecodeModemCtrl(ModemCtrlWithLoopback(w, v)) == DecodeModemCtrl(w).(loopback := v)
  {}

  // ----- The values `init` writes -----

  /** Every interrupt source off. */
  const INTERRUPTS_OFF: bv8 :=
    IntEnableWithModemStatus(IntEnableWithRxLineStatus(IntEnableWithTxEmpty(
      IntEnableWithRxAvailable(0, false), false), false), false)

  /** The divisor latch open. */
  const LINE_DLAB: bv8 := LineCtrlWithDlab(0, true)

  /** Eight data bits, no parity, one stop bit, the latch closed. */
  const LINE_8N1: bv8 :=
    LineCtrlWithDataBits(LineCtrlWithStopBits(LineCtrlWithParityBits(LineCtrlWithDlab(0, false), 0), false), 3)

  /** The FIFOs on and cleared, interrupt at the highest trigger level. */
  const FIFO_ON: bv8 :=
    FifoCtrlWithInterruptTriggerLevel(FifoCtrlWithClearTx(FifoCtrlWithClearRx(FifoCtrlWithEnable(0, true), true), true), 3)

  /** DTR, RTS and the interrupt line. */
  const MODEM_READY: bv8 := ModemCtrlWithIrqEnable(ModemCtrlWithRts(ModemCtrlWithDtr(0, true), true), true)

  /** RTS, OUT1, the interrupt line, and the loopback test mode. */
  const MODEM_LOOPBACK: bv8 :=
    ModemCtrlWithLoopback(ModemCtrlWithOut1(ModemCtrlWithIrqEnable(ModemCtrlWithRts(0, true), true), true), true)

  /** DTR, RTS, OUT1 and the interrupt line, loopback off: normal operation. */
  const MODEM_OPERATE: bv8 :=
    ModemCtrlWithLoopback(ModemCtrlWithIrqEnable(ModemCtrlWithOut1(ModemCtrlWithRts(ModemCtrlWithDtr(0, true), true), true), true), false)

  /** The fields each value sets, and its byte. */
  lemma InitValues()
    ensures DecodeIntEnable(INTERRUPTS_OFF) == IntEnableFields(false, false, false, false, 0) && INTERRUPTS_OFF == 0x00
    ensures DecodeLineCtrl(LINE_DLAB) == LineCtrlFields(0, false, 0, false, true) && LINE_DLAB == 0x80
    ensures DecodeLineCtrl(LINE_8N1) == LineCtrlFields(3, false, 0, false, false) && LINE_8N1 == 0x03
    ensures DecodeFifoCtrl(FIFO_ON) == FifoCtrlFields(true, true, true, false, 0, 3) && FIFO_ON == 0xC7
    ensures DecodeModemCtrl(MODEM_READY) == ModemCtrlFields(true, true, false, true, false, 0) && MODEM_READY == 0x0B
    ensures DecodeModemCtrl(MODEM_LOOPBACK) == ModemCtrlFields(false, true, true, true, true, 0) && MODEM_LOOPBACK == 0x1E
    ensures DecodeModemCtrl(MODEM_OPERATE) == ModemCtrlFields(true, true, true, true, false, 0) && MODEM_OPERATE == 0x0F
  {}

  /** The divisor `init` programs: 3, for 38400 baud from the 115200 baud clock. */
  const DIVISOR_LSB: bv8 := 3
  const DIVISOR_MSB: bv8 := 0

  /** The byte `init` sends through the loopback and expects back. */
  const LOOPBACK_PROBE: bv8 := 0xEE

  // ----- The port trace -----

  /** Every port access so far, oldest first. */
  class PortBus {
    var trace: seq<PortEvent>

    constructor ()
      ensures trace == []
    {
      trace := [];
    }

    /** `outb`: one write event. */
    method WriteByte(port: U16, value: bv8)
      modifies this
      ensures trace == old(trace) + [Write(port, value)]
    {
      trace := trace + [Write(port, value)];
    }

    /** `inb`: one read event; the hardware's answer is `input`. */
    method ReadByte(port: U16, input: bv8) returns (b: bv8)
      modifies this
      ensures b == input
      ensures trace == old(trace) + [Read(port)]
    {
      trace := trace + [Read(port)];
      b := input;
    }
  }

  // ----- The driver -----

  /**
   * The events of `init` up to and including the loopback read, on the
   * registers of a port at `base`.
   */
  function InitProbe(base: ComBase): seq<PortEvent>
  {
    [ Write(base + Offset(IntEnable), INTERRUPTS_OFF),
      Write(base + Offset(LineCtrl), LINE_DLAB),
      Write(base + Offset(DivLsb), DIVISOR_LSB),
      Write(base + Offset(DivMsb), DIVISOR_MSB),
      Write(base + Offset(LineCtrl), LINE_8N1),
      Write(base + Offset(FifoCtrl), FIFO_ON),
      Write(base + Offset(ModemCtrl), MODEM_READY),
      Write(base + Offset(ModemCtrl), MODEM_LOOPBACK),
      Write(base + Offset(Tx), LOOPBACK_PROBE),
      Read(base + Offset(Rx)) ]
  }

  /** The probe as raw port numbers and bytes. */
  lemma InitProbeEvents(base: ComBase)
    ensures InitProbe(base) ==
      [ Write(base + 1, 0x00), Write(base + 3, 0x80), Write(base, 3), Write(base + 1, 0),
        Write(base + 3, 0x03), Write(base + 2, 0xC7), Write(base + 4, 0x0B), Write(base + 4, 0x1E),
        Write(base, 0xEE), Read(base) ]
  {
    InitValues();
  }

  /** `init` on COM1: the ports 0x3F8 to 0x3FC. */
  lemma Com1InitProbe()
    ensures InitProbe(COM1_PORT_BASE) ==
      [ Write(0x3F9, 0x00), Write(0x3FB, 0x80), Write(0x3F8, 3), Write(0x3F9, 0),
        Write(0x3FB, 0x03), Write(0x3FA, 0xC7), Write(0x3FC, 0x0B), Write(0x3FC, 0x1E),
        Write(0x3F8, 0xEE), Read(0x3F8) ]
  {
    InitProbeEvents(COM1_PORT_BASE);
  }

  /** `Com<BASE>`: a serial port, known by its base. */
  datatype Com = Com(base: ComBase)
  {
    /** The port of a register: `BASE + offset`. */
    function Port(r: Register): (p: U16)
      ensures base <= p <= base + 7
      ensures p - base == Offset(r)
    {
      base + Offset(r)
    }

    /**
     * `init()`: program the line for 38400 baud 8N1 with FIFOs, switch to
     * loopback and send 0xEE.  If the byte read back (`rx`) is not 0xEE the
     * port is faulty and nothing more happens; otherwise the modem control is set
     * for normal operation.
     */
    method Init(bus: PortBus, rx: bv8) returns (r: Result<(), ComInitError>)
      modifies bus
      ensures rx == LOOPBACK_PROBE ==>
        r == Ok(()) && bus.trace == old(bus.trace) + InitProbe(base) + [Write(Port(ModemCtrl), MODEM_OPERATE)]
      ensures rx != LOOPBACK_PROBE ==>
        r == Err(FaultyHardware) && bus.trace == old(bus.trace) + InitProbe(base)
    {
      bus.WriteByte(Port(IntEnable), INTERRUPTS_OFF);
      bus.WriteByte(Port(LineCtrl), LINE_DLAB);
      bus.WriteByte(Port(DivLsb), DIVISOR_LSB);
      bus.WriteByte(Port(DivMsb), DIVISOR_MSB);
      bus.WriteByte(Port(LineCtrl), LINE_8N1);
      bus.WriteByte(Port(FifoCtrl), FIFO_ON);
      bus.WriteByte(Port(ModemCtrl), MODEM_READY);
      bus.WriteByte(Port(ModemCtrl), MODEM_LOOPBACK);
      bus.WriteByte(Port(Tx), LOOPBACK_PROBE);
      var echo := bus.ReadByte(Port(Rx), rx);
      assert bus.trace == old(bus.trace) + InitProbe(base);
      if echo != LOOPBACK_PROBE {
        return Err(FaultyHardware);
      }
      bus.WriteByte(Port(ModemCtrl), MODEM_OPERATE);
      r := Ok(());
    }

    /** `putc(c)`: one byte to the transmit register. */
    method Putc(bus: PortBus, c: bv8)
      modifies bus
      ensures bus.trace == old(bus.trace) + [Write(Port(Tx), c)]
    {
      bus.WriteByte(Port(Tx), c);
    }

    /** `getc()`: one read of the receive register, returning what it holds. */
    method Getc(bus: PortBus, rx: bv8) returns (c: bv8)
      modifies bus
      ensures c == rx
      ensures bus.trace == old(bus.trace) + [Read(Port(Rx))]
    {
      c := bus.ReadByte(Port(Rx), rx);
    }
  }

  /** `com1()` and `com2()`. */
  const COM1: Com := Com(COM1_PORT_BASE)
  const COM2: Com := Com(COM2_PORT_BASE)

  /**
   * The register ports: receive, transmit and the divisor's low byte share
   * the base; the others follow at 1 to 7.  On COM1
   * and COM2 these are 0x3F8 to 0x3FF and 0x2F8 to 0x2FF.
   */
  lemma ComPorts(com: Com)
    ensures com.Port(Rx) == com.Port(Tx) == com.Port(DivLsb) == com.base
    ensures com.Port(IntEnable) == com.Port(DivMsb) == com.base + 1
    ensures com.Port(IntId) == com.Port(FifoCtrl) == com.base + 2
    ensures com.Port(LineCtrl) == com.base + 3
    ensures com.Port(ModemCtrl) == com.base + 4
    ensures com.Port(LineStatus) == com.base + 5
    ensures com.Port(ModemStatus) == com.base + 6
    ensures com.Port(Scratch) == com.base + 7
    ensures COM1.base == 0x3F8 && COM2.base == 0x2F8
  {}
}

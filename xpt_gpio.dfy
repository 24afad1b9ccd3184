/**
 * The XPT2046 resistive-touch ADC driven over a bit-banged serial link
 * (four GPIO pins: CS, CLK, DIN towards the chip and DOUT from it), as the
 * R61526 board's touch driver does it.
 *
 * Every pin write of this driver ignores its error, so the meaning of a
 * write table is simply the writes that reach a wired pin (`Emitted`). A
 * nil pin is skipped on write and reads 0. What the chip answers on DOUT is
 * the sampling oracle of the connection's wiring.
 */
module XptGpio {
  import opened PinBus
  import opened Common
  import TouchFilter

  // Control-byte fields (XPT2046 datasheet, command format).
  const StartBit: bv8 := 0x80
  const ChannelX: bv8 := 0x50
  const ChannelY: bv8 := 0x10
  const ChannelZ1: bv8 := 0x30
  const ChannelZ2: bv8 := 0x40
  const ChannelTemp0: bv8 := 0x00
  const ChannelTemp1: bv8 := 0x70
  const ChannelBattery: bv8 := 0x20
  const ChannelAux: bv8 := 0x60
  const Conversion8Bit: bv8 := 0x08
  const Conversion12Bit: bv8 := 0x00
  /** The ready-made "read Y" command. */
  const CmdReadY: bv8 := 0x90

  /** Conversions per filtered reading. */
  const ReadTimes: nat := 10
  /** Clock cycles read back per conversion. */
  const SampleBits: nat := 12

  function ControlByte(channel: bv8, conversion: bv8): bv8 {
    StartBit | channel | conversion
  }

  /** The start bit is always set, and a channel and a conversion mode that
      stay in their own fields can be read back from the control byte. */
  lemma ControlByteFields(channel: bv8, conversion: bv8)
    requires channel & 0x8F == 0 && conversion & 0xF7 == 0
    ensures ControlByte(channel, conversion) & 0x80 == 0x80
    ensures ControlByte(channel, conversion) & 0x70 == channel
    ensures ControlByte(channel, conversion) & 0x08 == conversion
  {
  }

  /** The control bytes both touch drivers send: X, Y, Z1 and Z2 in 12-bit
      mode (Y being the ready-made 0x90), and X and Z1 in 8-bit mode. */
  lemma ControlByteValues()
    ensures ControlByte(ChannelX, Conversion12Bit) == 0xD0
    ensures ControlByte(ChannelY, Conversion12Bit) == CmdReadY == 0x90
    ensures ControlByte(ChannelZ1, Conversion12Bit) == 0xB0
    ensures ControlByte(ChannelZ2, Conversion12Bit) == 0xC0
    ensures ControlByte(ChannelX, Conversion8Bit) == 0xD8
    ensures ControlByte(ChannelZ1, Conversion8Bit) == 0xB8
  {
  }

  // ---------------------------------------------------------------------
  // Pin writes. Every write of this driver ignores its error, so a write
  // records its event on a wired pin and nothing on a nil one.

  function Out(wired: set<Role>, role: Role, level: int): seq<Event> {
    if role in wired then [Drive(role, level)] else []
  }

  /** Start of a transaction: CLK low, CS high, DIN high, CLK high, CS low. */
  function StartEvents(wired: set<Role>): seq<Event> {
    Out(wired, CLK, Low) + Out(wired, CS, High) + Out(wired, DIN, High)
    + Out(wired, CLK, High) + Out(wired, CS, Low)
  }

  /** One clock pulse. */
  function PulseEvents(wired: set<Role>): seq<Event> {
    Out(wired, CLK, High) + Out(wired, CLK, Low)
  }

  /** One command bit: DIN set to it, then a falling and a rising clock
      edge (the chip latches DIN on the rising edge). */
  function BitEvents(wired: set<Role>, level: int): seq<Event> {
    Out(wired, DIN, level) + Out(wired, CLK, Low) + Out(wired, CLK, High)
  }

  /** Sending the first `k` bits of a command byte, most significant first,
      after CLK is pulled low. */
  function SendEvents(wired: set<Role>, dat: bv8, k: nat): seq<Event>
    requires k <= 8
  {
    if k == 0 then Out(wired, CLK, Low)
    else SendEvents(wired, dat, k - 1) + BitEvents(wired, Level(dat, 8 - k))
  }

  lemma {:induction false} SendShape(wired: set<Role>, dat: bv8, k: nat)
    requires k <= 8 && CLK in wired && DIN in wired
    ensures |SendEvents(wired, dat, k)| == 3 * k + 1
    ensures SendEvents(wired, dat, k)[0] == Drive(CLK, Low)
    ensures forall i :: 0 <= i < k ==> SendEvents(wired, dat, k)[3 * i + 1] == Drive(DIN, Level(dat, 7 - i))
    ensures forall i :: 0 <= i < k ==> SendEvents(wired, dat, k)[3 * i + 2] == Drive(CLK, Low)
    ensures forall i :: 0 <= i < k ==> SendEvents(wired, dat, k)[3 * i + 3] == Drive(CLK, High)
  {
    if k > 0 {
      SendShape(wired, dat, k - 1);
    }
  }

  /** With CLK and DIN wired a command byte goes out as 25 writes: CLK low,
      then for each bit from the most significant down, DIN set to the bit,
      CLK low, CLK high. */
  lemma SendByte(wired: set<Role>, dat: bv8)
    requires CLK in wired && DIN in wired
    ensures |SendEvents(wired, dat, 8)| == 25
    ensures forall i :: 0 <= i < 8 ==> SendEvents(wired, dat, 8)[3 * i + 1] == Drive(DIN, Level(dat, 7 - i))
    ensures forall i :: 0 <= i < 8 ==> SendEvents(wired, dat, 8)[3 * i + 3] == Drive(CLK, High)
  {
    SendShape(wired, dat, 8);
  }

  /** The byte shifted left `k` times, as the send loop shifts it. */
  function Shl(v: bv8, k: nat): bv8 {
    if k == 0 then v else Shl(v, k - 1) << 1
  }

  lemma ShlBit(v: bv8, j: nat)
    requires j < 7
    ensures Level(v << 1, j + 1) == Level(v, j)
  {
    if j == 0 {
    } else if j == 1 {
    } else if j == 2 {
    } else if j == 3 {
    } else if j == 4 {
    } else if j == 5 {
    } else {
    }
  }

  lemma {:induction false} ShlFirst(v: bv8, k: nat)
    ensures Shl(v, k + 1) == Shl(v << 1, k)
  {
    if k > 0 {
      ShlFirst(v, k - 1);
    }
  }

  /** After `i` shifts the top bit is bit `7 - i` of the original byte. */
  lemma {:induction false} ShlTopBit(v: bv8, i: nat)
    requires i < 8
    ensures Level(Shl(v, i), 7) == Level(v, 7 - i)
    decreases i
  {
    if i > 0 {
      ShlFirst(v, i - 1);
      ShlTopBit(v << 1, i - 1);
      ShlBit(v, 7 - i);
    }
  }

  // ---------------------------------------------------------------------
  // What a read transaction records and yields

  /** Events recorded and the value yielded by a stretch of the protocol. */
  datatype Gathered = Gathered(events: seq<Event>, value: int)

  /** Events recorded and values yielded by a run of stages. */
  datatype Batch = Batch(events: seq<Event>, values: seq<int>)

  /** `k` stages run one after the other from trace position `n`; stage `i`
      started at trace position `m` is `stage(i, m)`. */
  function Chain(stage: (nat, nat) -> Gathered, k: nat, n: nat): (b: Batch)
    ensures |b.values| == k
  {
    if k == 0 then Batch([], [])
    else
      var before := Chain(stage, k - 1, n);
      var g := stage(k - 1, n + |before.events|);
      Batch(before.events + g.events, before.values + [g.value])
  }

  /** One read cycle: a clock pulse, then a sample of DOUT; a nil DOUT pin
      reads 0 and records nothing. */
  function Cycle(w: Wiring, n: nat): Gathered {
    var pulse := PulseEvents(w.wired);
    var m := n + |pulse|;
    if DOUT in w.wired then Gathered(pulse + [Sample(DOUT, SampleValue(w, m))], SampleValue(w, m))
    else Gathered(pulse, Low)
  }

  function CycleStage(w: Wiring): (nat, nat) -> Gathered {
    (i: nat, m: nat) => Cycle(w, m)
  }

  /** Bits shifted in most significant first: `dat <<= 1; dat |= bit`. */
  function ShiftIn(bits: seq<int>): int {
    if bits == [] then 0 else ShiftIn(bits[..|bits| - 1]) * 2 + bits[|bits| - 1]
  }

  /** The `k` low bits of `v`, most significant first. */
  function Bits(v: int, k: nat): seq<int>
    decreases k
  {
    if k == 0 then [] else Bits(v / 2, k - 1) + [v % 2]
  }

  function Pow2(k: nat): nat {
    if k == 0 then 1 else 2 * Pow2(k - 1)
  }

  /** Reading a sample: CLK low, then twelve read cycles; the value is the
      twelve samples shifted in most significant first. */
  function SpiReadSpec(w: Wiring, n: nat): Gathered {
    var head := Out(w.wired, CLK, Low);
    var cycles := Chain(CycleStage(w), SampleBits, n + |head|);
    Gathered(head + cycles.events, ShiftIn(cycles.values))
  }

  /** One conversion: send the command, one clock pulse to clear BUSY, then
      read the sample. */
  function Conversion(w: Wiring, cmd: bv8, n: nat): Gathered {
    var sent := SendEvents(w.wired, cmd, 8) + PulseEvents(w.wired);
    var r := SpiReadSpec(w, n + |sent|);
    Gathered(sent + r.events, r.value)
  }

  function ConversionStage(w: Wiring, cmd: bv8): (nat, nat) -> Gathered {
    (i: nat, m: nat) => Conversion(w, cmd, m)
  }

  /** Go's uint16 conversion. */
  function Uint16(v: int): int {
    v % 0x1_0000
  }

  /** A filtered reading: CLK low, CS low, ten conversions, CS high; the
      value is the filter of the ten samples (before its uint16 conversion). */
  function ReadDataSpec(w: Wiring, cmd: bv8, n: nat): Gathered {
    var head := Out(w.wired, CLK, Low) + Out(w.wired, CS, Low);
    var convs := Chain(ConversionStage(w, cmd), ReadTimes, n + |head|);
    Gathered(head + convs.events + Out(w.wired, CS, High), TouchFilter.FilterValue(convs.values))
  }

  // ---------------------------------------------------------------------
  // Lemmas about the read specification

  lemma ChainNext(stage: (nat, nat) -> Gathered, i: nat, next: nat, n: nat)
    requires next == i + 1
    ensures Chain(stage, next, n).events
      == Chain(stage, i, n).events + stage(i, n + |Chain(stage, i, n).events|).events
    ensures Chain(stage, next, n).values
      == Chain(stage, i, n).values + [stage(i, n + |Chain(stage, i, n).events|).value]
  {
  }

  /** Stages whose values all lie in `[lo, hi]` yield only such values. */
  lemma {:induction false} ChainRange(stage: (nat, nat) -> Gathered, k: nat, n: nat, lo: int, hi: int)
    requires forall i, m :: lo <= stage(i, m).value <= hi
    ensures forall j :: 0 <= j < k ==> lo <= Chain(stage, k, n).values[j] <= hi
  {
    if k > 0 {
      ChainRange(stage, k - 1, n, lo, hi);
    }
  }

  /** Stages that each record `size` events record `k * size`. */
  lemma {:induction false} ChainSize(stage: (nat, nat) -> Gathered, k: nat, n: nat, size: nat)
    requires forall i, m :: |stage(i, m).events| == size
    ensures |Chain(stage, k, n).events| == k * size
  {
    if k > 0 {
      ChainSize(stage, k - 1, n, size);
    }
  }

  lemma ShiftInNext(bits: seq<int>, b: int)
    ensures ShiftIn(bits + [b]) == ShiftIn(bits) * 2 + b
  {
    assert (bits + [b])[..|bits|] == bits;
  }

  /** Shifting in 0/1 bits gives a value below `2^|bits|`. */
  lemma {:induction false} ShiftInBound(bits: seq<int>)
    requires forall j :: 0 <= j < |bits| ==> 0 <= bits[j] <= 1
    ensures 0 <= ShiftIn(bits) < Pow2(|bits|)
  {
    if bits != [] {
      ShiftInBound(bits[..|bits| - 1]);
    }
  }

  /** The value shifted in determines the bits: reading back its low bits
      most significant first gives the samples again. */
  lemma {:induction false} ShiftInBits(bits: seq<int>)
    requires forall j :: 0 <= j < |bits| ==> 0 <= bits[j] <= 1
    ensures Bits(ShiftIn(bits), |bits|) == bits
  {
    if bits != [] {
      var front := bits[..|bits| - 1];
      ShiftInBits(front);
      var v := ShiftIn(bits);
      assert v / 2 == ShiftIn(front) && v % 2 == bits[|bits| - 1];
      assert bits == front + [bits[|bits| - 1]];
    }
  }

  /** A sample reads 0 or 1. */
  lemma CycleBit(w: Wiring, n: nat)
    ensures Cycle(w, n).value == Low || Cycle(w, n).value == High
  {
  }

  /** A sample read back lies in `[0, 4095]`. */
  lemma SpiReadRange(w: Wiring, n: nat)
    ensures 0 <= SpiReadSpec(w, n).value <= 4095
  {
    var m := n + |Out(w.wired, CLK, Low)|;
    forall i: nat, k: nat
      ensures 0 <= CycleStage(w)(i, k).value <= 1
    {
      CycleBit(w, k);
    }
    ChainRange(CycleStage(w), SampleBits, m, 0, 1);
    ShiftInBound(Chain(CycleStage(w), SampleBits, m).values);
    assert Pow2(SampleBits) == 4096;
  }

  /** A filtered reading lies in `[0, 4095]`, between the smallest and the
      largest of its ten samples; its uint16 conversion is therefore exact. */
  lemma ReadDataRange(w: Wiring, cmd: bv8, n: nat)
    ensures 0 <= ReadDataSpec(w, cmd, n).value <= 4095
  {
    var head := Out(w.wired, CLK, Low) + Out(w.wired, CS, Low);
    var s := Chain(ConversionStage(w, cmd), ReadTimes, n + |head|).values;
    forall i: nat, k: nat
      ensures 0 <= ConversionStage(w, cmd)(i, k).value <= 4095
    {
      ConversionRange(w, cmd, k);
    }
    ChainRange(ConversionStage(w, cmd), ReadTimes, n + |head|, 0, 4095);
    TouchFilter.FilterRange(s, 0, 4095);
    assert ReadDataSpec(w, cmd, n).value == TouchFilter.FilterValue(s);
  }

  lemma ConversionRange(w: Wiring, cmd: bv8, n: nat)
    ensures 0 <= Conversion(w, cmd, n).value <= 4095
  {
    SpiReadRange(w, n + |SendEvents(w.wired, cmd, 8) + PulseEvents(w.wired)|);
  }

  /** With all four pins wired, a conversion records 64 events: 25 for the
      command, 2 for the BUSY pulse, 1 + 12 * 3 for the read. */
  lemma ConversionSize(w: Wiring, cmd: bv8, n: nat)
    requires {CLK, CS, DIN, DOUT} <= w.wired
    ensures |Conversion(w, cmd, n).events| == 64
  {
    SendShape(w.wired, cmd, 8);
    var sent := SendEvents(w.wired, cmd, 8) + PulseEvents(w.wired);
    forall i: nat, m: nat
      ensures |CycleStage(w)(i, m).events| == 3
    {
    }
    ChainSize(CycleStage(w), SampleBits, n + |sent| + 1, 3);
  }

  /** With all four pins wired, a filtered reading records 643 events. */
  lemma ReadDataSize(w: Wiring, cmd: bv8, n: nat)
    requires {CLK, CS, DIN, DOUT} <= w.wired
    ensures |ReadDataSpec(w, cmd, n).events| == 643
  {
    forall i: nat, m: nat
      ensures |ConversionStage(w, cmd)(i, m).events| == 64
    {
      ConversionSize(w, cmd, m);
    }
    ChainSize(ConversionStage(w, cmd), ReadTimes, n + 2, 64);
  }

  // ---------------------------------------------------------------------
  // Coordinate acceptance

  datatype Point = Point(x: int, y: int)

  /** uint16 subtraction, which wraps around. */
  function Sub16(a: int, b: int): int {
    (a - b) % 0x1_0000
  }

  /** uint16 `(a + b) / 2`: the sum wraps around before the halving. */
  function Mid16(a: int, b: int): int {
    ((a + b) % 0x1_0000) / 2
  }

  /** `v & 0xFFF0` for a uint16 `v`: the low nibble cleared. */
  function ClearNibble(v: int): int {
    v - v % 16
  }

  /** The acceptance rule of a touch reading from two X and two Y uint16
      samples: the differences `x1 - x2` and `y1 - y2` wrap around, and the
      averages have their low nibble cleared. `None` is the error result
      (with coordinates 0, 0). */
  function Accept(x1: int, y1: int, x2: int, y2: int): Option<Point> {
    if Sub16(x1, x2) > 50 || Sub16(y1, y2) > 50 then None
    else
      var x := ClearNibble(Mid16(x1, x2));
      var y := ClearNibble(Mid16(y1, y2));
      if x < 100 || y > 4000 then None else Some(Point(x, y))
  }

  /** With 12-bit samples, the wrapping difference is at most 50 exactly
      when the first sample is at most 50 above the second and not below it. */
  lemma DeltaSmall(a: int, b: int)
    requires 0 <= a < 4096 && 0 <= b < 4096
    ensures Sub16(a, b) <= 50 <==> b <= a <= b + 50
  {
  }

  /** With 12-bit samples, a second X or Y sample larger than the first
      always rejects the reading. */
  lemma AcceptRejectsRising(x1: int, y1: int, x2: int, y2: int)
    requires 0 <= x1 < 4096 && 0 <= y1 < 4096 && 0 <= x2 < 4096 && 0 <= y2 < 4096
    requires x2 > x1 || y2 > y1
    ensures Accept(x1, y1, x2, y2) == None
  {
    DeltaSmall(x1, x2);
    DeltaSmall(y1, y2);
  }

  /** With 12-bit samples, a reading is accepted exactly when each second
      sample is at most 50 below the first and not above it, and the
      averages, rounded down to a multiple of 16, lie in the window
      `x >= 100`, `y <= 4000`. */
  lemma AcceptTwelveBit(x1: int, y1: int, x2: int, y2: int)
    requires 0 <= x1 < 4096 && 0 <= y1 < 4096 && 0 <= x2 < 4096 && 0 <= y2 < 4096
    ensures Accept(x1, y1, x2, y2).Some? <==>
      x2 <= x1 <= x2 + 50 && y2 <= y1 <= y2 + 50
      && ClearNibble((x1 + x2) / 2) >= 100 && ClearNibble((y1 + y2) / 2) <= 4000
  {
    DeltaSmall(x1, x2);
    DeltaSmall(y1, y2);
    assert Mid16(x1, x2) == (x1 + x2) / 2;
    assert Mid16(y1, y2) == (y1 + y2) / 2;
  }

  /** An accepted point is a multiple of 16 in each coordinate and lies in
      the window `x >= 100`, `y <= 4000`. */
  lemma AcceptedPoint(x1: int, y1: int, x2: int, y2: int)
    requires Accept(x1, y1, x2, y2).Some?
    ensures Accept(x1, y1, x2, y2).value.x % 16 == 0
    ensures Accept(x1, y1, x2, y2).value.y % 16 == 0
    ensures Accept(x1, y1, x2, y2).value.x >= 100
    ensures Accept(x1, y1, x2, y2).value.y <= 4000
  {
  }

  /** The four readings of a touch, made X, Y, X, Y in that order. */
  function ReadStage(w: Wiring, xCmd: bv8, yCmd: bv8): (nat, nat) -> Gathered {
    (i: nat, m: nat) => ReadDataSpec(w, if i % 2 == 0 then xCmd else yCmd, m)
  }

  /** A touch reading: the start sequence, the readings X, Y, X, Y, and the
      acceptance rule over their uint16 values. */
  datatype Touched = Touched(events: seq<Event>, point: Option<Point>)

  function ReadXYSpec(w: Wiring, conversion: bv8, n: nat): Touched {
    var start := StartEvents(w.wired);
    var stage := ReadStage(w, ControlByte(ChannelX, conversion), ControlByte(ChannelY, conversion));
    var readings := Chain(stage, 4, n + |start|);
    var v := readings.values;
    Touched(start + readings.events, Accept(Uint16(v[0]), Uint16(v[1]), Uint16(v[2]), Uint16(v[3])))
  }

  // ---------------------------------------------------------------------
  // The driver

  /** The pins of the touch controller and the connection they are driven
      through. */
  class TouchPins {
    const conn: Connection

    constructor (conn: Connection)
      ensures this.conn == conn
    {
      this.conn := conn;
    }

    /** Drive one pin, ignoring the error. */
    method Drive1(role: Role, level: int)
      modifies conn
      ensures conn.trace == old(conn.trace) + Out(conn.wiring.wired, role, level)
    {
      var _ := conn.Write(role, level);
    }

    /** One clock pulse. */
    method Pulse()
      modifies conn
      ensures conn.trace == old(conn.trace) + PulseEvents(conn.wiring.wired)
    {
      Drive1(CLK, High);
      Drive1(CLK, Low);
    }

    /** Start of a transaction; it never fails. */
    method Start() returns (failed: bool)
      modifies conn
      ensures conn.trace == old(conn.trace) + StartEvents(conn.wiring.wired)
      ensures !failed
    {
      Drive1(CLK, Low);
      Drive1(CS, High);
      Drive1(DIN, High);
      Drive1(CLK, High);
      Drive1(CS, Low);
      failed := false;
    }

    /** Send a command byte, most significant bit first: the top bit of the
        byte goes to DIN, then the byte shifts left. */
    method SpiWrite(dat: bv8)
      modifies conn
      ensures conn.trace == old(conn.trace) + SendEvents(conn.wiring.wired, dat, 8)
    {
      ghost var t0 := old(conn.trace);
      ghost var wired := conn.wiring.wired;
      Drive1(CLK, Low);
      var d := dat;
      var i := 0;
      while i < 8
        invariant i <= 8
        invariant d == Shl(dat, i)
        invariant conn.trace == t0 + SendEvents(wired, dat, i)
      {
        ghost var t := conn.trace;
        ShlTopBit(dat, i);
        Drive1(DIN, Level(d, 7));
        d := d << 1;
        Drive1(CLK, Low);
        Drive1(CLK, High);
        var next := i + 1;
        SendNext(wired, dat, i, next, t0, t, conn.trace);
        i := next;
      }
    }

    /** One read cycle: a clock pulse, then a sample of DOUT. */
    method ReadBit() returns (bit: int)
      modifies conn
      ensures conn.trace == old(conn.trace) + Cycle(conn.wiring, |old(conn.trace)|).events
      ensures bit == Cycle(conn.wiring, |old(conn.trace)|).value
    {
      Pulse();
      ghost var tp := conn.trace;
      bit := conn.Read(DOUT);
      if DOUT in conn.wiring.wired {
        Assoc(old(conn.trace), PulseEvents(conn.wiring.wired), [Sample(DOUT, bit)]);
      }
    }

    /** Read a 12-bit sample. The value is built as the Go driver builds it,
        `dat <<= 1` then `dat |= bit`; OR-ing a 0/1 bit into an even number
        adds it. */
    method SpiRead() returns (dat: int)
      modifies conn
      ensures var r := SpiReadSpec(conn.wiring, |old(conn.trace)|);
        conn.trace == old(conn.trace) + r.events && dat == r.value
    {
      Drive1(CLK, Low);
      ghost var t1 := conn.trace;
      ghost var w := conn.wiring;
      dat := 0;
      var i := 0;
      while i < SampleBits
        invariant i <= SampleBits
        invariant conn.trace == t1 + Chain(CycleStage(w), i, |t1|).events
        invariant dat == ShiftIn(Chain(CycleStage(w), i, |t1|).values)
      {
        ghost var t := conn.trace;
        ghost var before := Chain(CycleStage(w), i, |t1|).values;
        dat := dat * 2;
        var bit := ReadBit();
        dat := dat + bit;
        var next := i + 1;
        assert CycleStage(w)(i, |t|) == Cycle(w, |t|);
        ChainStep(CycleStage(w), i, next, t1, t, conn.trace);
        ShiftInNext(before, bit);
        i := next;
      }
      Assoc(old(conn.trace), Out(w.wired, CLK, Low), Chain(CycleStage(w), SampleBits, |t1|).events);
    }

    /** One conversion: send the command, one clock pulse to clear BUSY,
        then read the sample. */
    method Convert(cmd: bv8) returns (sample: int)
      modifies conn
      ensures conn.trace == old(conn.trace) + Conversion(conn.wiring, cmd, |old(conn.trace)|).events
      ensures sample == Conversion(conn.wiring, cmd, |old(conn.trace)|).value
    {
      ghost var wired := conn.wiring.wired;
      SpiWrite(cmd);
      Pulse();
      ghost var ts := conn.trace;
      sample := SpiRead();
      Assoc(old(conn.trace), SendEvents(wired, cmd, 8), PulseEvents(wired));
      Assoc(old(conn.trace), SendEvents(wired, cmd, 8) + PulseEvents(wired),
            SpiReadSpec(conn.wiring, |ts|).events);
    }

    /** The ten conversions of one filtered reading, stored in `samples`. */
    method Gather(cmd: bv8, samples: array<int>)
      requires samples.Length == ReadTimes
      modifies conn, samples
      ensures var batch := Chain(ConversionStage(conn.wiring, cmd), ReadTimes, |old(conn.trace)|);
        conn.trace == old(conn.trace) + batch.events && samples[..] == batch.values
    {
      ghost var w := conn.wiring;
      ghost var t1 := conn.trace;
      var i := 0;
      while i < ReadTimes
        invariant i <= ReadTimes
        invariant conn.trace == t1 + Chain(ConversionStage(w, cmd), i, |t1|).events
        invariant samples[..i] == Chain(ConversionStage(w, cmd), i, |t1|).values
      {
        ghost var t := conn.trace;
        var s := Convert(cmd);
        samples[i] := s;
        var next := i + 1;
        assert ConversionStage(w, cmd)(i, |t|) == Conversion(w, cmd, |t|);
        ChainStep(ConversionStage(w, cmd), i, next, t1, t, conn.trace);
        i := next;
      }
      assert samples[..] == samples[..i];
    }

    /** One filtered reading of the channel `cmd` selects; it never fails. */
    method ReadData(cmd: bv8) returns (value: int, failed: bool)
      modifies conn
      ensures var r := ReadDataSpec(conn.wiring, cmd, |old(conn.trace)|);
        conn.trace == old(conn.trace) + r.events && value == Uint16(r.value)
      ensures !failed
    {
      var samples := new int[ReadTimes];
      ghost var w := conn.wiring;
      Drive1(CLK, Low);
      Drive1(CS, Low);
      ghost var t1 := conn.trace;
      Gather(cmd, samples);
      ghost var batch := Chain(ConversionStage(w, cmd), ReadTimes, |t1|);
      assert samples[..ReadTimes] == samples[..] == batch.values;
      Drive1(CS, High);
      var filtered := TouchFilter.Filter(samples, ReadTimes);
      value := Uint16(filtered);
      failed := false;
      ReadDataDone(w, cmd, old(conn.trace), t1, conn.trace);
    }

    /** The four readings X, Y, X, Y of one touch sample. */
    method ReadFour(xCmd: bv8, yCmd: bv8) returns (x1: int, y1: int, x2: int, y2: int)
      modifies conn
      ensures var r := Chain(ReadStage(conn.wiring, xCmd, yCmd), 4, |old(conn.trace)|);
        conn.trace == old(conn.trace) + r.events
        && x1 == Uint16(r.values[0]) && y1 == Uint16(r.values[1])
        && x2 == Uint16(r.values[2]) && y2 == Uint16(r.values[3])
    {
      ghost var w := conn.wiring;
      ghost var t1 := conn.trace;
      var x1Failed, y1Failed, x2Failed, y2Failed;
      x1, x1Failed := ReadData(xCmd);
      ghost var ta := conn.trace;
      y1, y1Failed := ReadData(yCmd);
      ghost var tb := conn.trace;
      x2, x2Failed := ReadData(xCmd);
      ghost var tc := conn.trace;
      y2, y2Failed := ReadData(yCmd);
      var stage := ReadStage(w, xCmd, yCmd);
      assert stage(0, |t1|) == ReadDataSpec(w, xCmd, |t1|);
      assert stage(1, |ta|) == ReadDataSpec(w, yCmd, |ta|);
      assert stage(2, |tb|) == ReadDataSpec(w, xCmd, |tb|);
      assert stage(3, |tc|) == ReadDataSpec(w, yCmd, |tc|);
      ChainFour(stage, 4, t1, ta, tb, tc, conn.trace);
    }
  }

  lemma SendNext(wired: set<Role>, dat: bv8, i: nat, next: nat,
                 t0: seq<Event>, t: seq<Event>, t2: seq<Event>)
    requires i < 8 && next == i + 1
    requires t == t0 + SendEvents(wired, dat, i)
    requires t2 == t + Out(wired, DIN, Level(dat, 7 - i)) + Out(wired, CLK, Low) + Out(wired, CLK, High)
    ensures t2 == t0 + SendEvents(wired, dat, next)
  {
    var b := BitEvents(wired, Level(dat, 7 - i));
    assert t2 == t + b;
    assert SendEvents(wired, dat, next) == SendEvents(wired, dat, i) + b;
    Assoc(t0, SendEvents(wired, dat, i), b);
  }

  lemma Assoc(a: seq<Event>, b: seq<Event>, c: seq<Event>)
    ensures (a + b) + c == a + (b + c)
  {
  }

  /** One more stage performed at the end of the trace. */
  lemma ChainStep(stage: (nat, nat) -> Gathered, i: nat, next: nat,
                  t0: seq<Event>, t: seq<Event>, t2: seq<Event>)
    requires next == i + 1
    requires t == t0 + Chain(stage, i, |t0|).events
    requires t2 == t + stage(i, |t|).events
    ensures t2 == t0 + Chain(stage, next, |t0|).events
    ensures Chain(stage, next, |t0|).values == Chain(stage, i, |t0|).values + [stage(i, |t|).value]
  {
    ChainNext(stage, i, next, |t0|);
    Assoc(t0, Chain(stage, i, |t0|).events, stage(i, |t|).events);
  }

  lemma ReadDataDone(w: Wiring, cmd: bv8, t0: seq<Event>, t1: seq<Event>, t2: seq<Event>)
    requires t1 == t0 + Out(w.wired, CLK, Low) + Out(w.wired, CS, Low)
    requires t2 == t1 + Chain(ConversionStage(w, cmd), ReadTimes, |t1|).events + Out(w.wired, CS, High)
    ensures t2 == t0 + ReadDataSpec(w, cmd, |t0|).events
    ensures ReadDataSpec(w, cmd, |t0|).value
      == TouchFilter.FilterValue(Chain(ConversionStage(w, cmd), ReadTimes, |t1|).values)
  {
    var head := Out(w.wired, CLK, Low) + Out(w.wired, CS, Low);
    var convs := Chain(ConversionStage(w, cmd), ReadTimes, |t1|).events;
    var tail := Out(w.wired, CS, High);
    Assoc(t0, Out(w.wired, CLK, Low), Out(w.wired, CS, Low));
    Assoc(t1, convs, tail);
    Assoc(t0, head, convs + tail);
    Assoc(head, convs, tail);
  }

  /** The touch controller: its conversion mode and its pins. */
  class Touch {
    var conversion: bv8
    const dev: TouchPins

    /** A controller with the zero conversion mode (which is 12-bit). */
    constructor (dev: TouchPins)
      ensures this.dev == dev && conversion == 0
    {
      this.dev := dev;
      conversion := 0;
    }

    /** Select 12-bit conversions; it never fails. */
    method Init() returns (failed: bool)
      modifies this
      ensures conversion == Conversion12Bit && !failed
    {
      conversion := Conversion12Bit;
      failed := false;
    }

    method SetMode(c: bv8)
      modifies this
      ensures conversion == c
    {
      conversion := c;
    }

    /** One touch reading: start, read X, Y, X, Y, then the acceptance rule. */
    method ReadXY() returns (point: Option<Point>)
      modifies dev.conn
      ensures var r := ReadXYSpec(dev.conn.wiring, conversion, |old(dev.conn.trace)|);
        dev.conn.trace == old(dev.conn.trace) + r.events && point == r.point
    {
      var xCmd := ControlByte(ChannelX, conversion);
      var yCmd := ControlByte(ChannelY, conversion);
      ghost var w := dev.conn.wiring;
      var started := dev.Start();
      ghost var t1 := dev.conn.trace;
      var x1, y1, x2, y2 := dev.ReadFour(xCmd, yCmd);
      point := Accept(x1, y1, x2, y2);
      Assoc(old(dev.conn.trace), StartEvents(w.wired), Chain(ReadStage(w, xCmd, yCmd), 4, |t1|).events);
    }
  }

  /** Four stages performed one after the other at the end of the trace
      (`k` is 4; it is a parameter so that the chain is not unrolled
      eagerly). */
  lemma ChainFour(stage: (nat, nat) -> Gathered, k: nat,
                  t1: seq<Event>, ta: seq<Event>, tb: seq<Event>, tc: seq<Event>, td: seq<Event>)
    requires k == 4
    requires ta == t1 + stage(0, |t1|).events
    requires tb == ta + stage(1, |ta|).events
    requires tc == tb + stage(2, |tb|).events
    requires td == tc + stage(3, |tc|).events
    ensures td == t1 + Chain(stage, k, |t1|).events
    ensures Chain(stage, k, |t1|).values[0] == stage(0, |t1|).value
    ensures Chain(stage, k, |t1|).values[1] == stage(1, |ta|).value
    ensures Chain(stage, k, |t1|).values[2] == stage(2, |tb|).value
    ensures Chain(stage, k, |t1|).values[3] == stage(3, |tc|).value
  {
    assert t1 == t1 + Chain(stage, k - 4, |t1|).events;
    ChainStep(stage, k - 4, k - 3, t1, t1, ta);
    ChainStep(stage, k - 3, k - 2, t1, ta, tb);
    ChainStep(stage, k - 2, k - 1, t1, tb, tc);
    ChainStep(stage, k - 1, k, t1, tc, td);
    var v1, v2, v3, v4 := Chain(stage, k - 3, |t1|).values, Chain(stage, k - 2, |t1|).values,
      Chain(stage, k - 1, |t1|).values, Chain(stage, k, |t1|).values;
    assert v4[0] == v3[0] == v2[0] == v1[0];
    assert v4[1] == v3[1] == v2[1];
    assert v4[2] == v3[2];
  }




}

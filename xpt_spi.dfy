/** The XPT2046 touch-screen ADC driven over an SPI bus (the convertor
    package). Each reading sends a three-byte frame `[control, 0, 0]`; the
    bus answers in place with the first two bytes of the big-endian
    response. The bus itself is foreign code, modelled as an oracle: the
    exchanges it fails and the two bytes it answers on each exchange. */
module XptSpi {
  import opened Common
  import TouchFilter
  import XptGpio

  /** Readings filtered per channel. */
  const ReadTimes: nat := 10

  // ---------------------------------------------------------------------
  // The bus

  /** What the bus does on its `k`-th exchange: fail when `k in failing`,
      otherwise answer `reply(k)` as the first two bytes of the buffer. */
  datatype Oracle = Oracle(failing: set<nat>, reply: nat -> (bv8, bv8))

  /** An SPI bus: the frames handed to it so far, in order. */
  class SpiBus {
    const oracle: Oracle
    var sent: seq<seq<bv8>>

    constructor (oracle: Oracle)
      ensures this.oracle == oracle && sent == []
    {
      this.oracle := oracle;
      sent := [];
    }

    /** Exchange `data` in place: it is logged; on success its first two
        bytes become the bus's answer; on failure it is left as it was. */
    method TransferAndReceiveData(data: array<bv8>) returns (failed: bool)
      requires data.Length >= 2
      modifies this, data
      ensures sent == old(sent) + [old(data[..])]
      ensures failed == (|old(sent)| in oracle.failing)
      ensures !failed ==> data[..] == old(data[..])[0 := oracle.reply(|old(sent)|).0][1 := oracle.reply(|old(sent)|).1]
      ensures failed ==> data[..] == old(data[..])
    {
      var k := |sent|;
      sent := sent + [data[..]];
      failed := k in oracle.failing;
      if !failed {
        data[0] := oracle.reply(k).0;
        data[1] := oracle.reply(k).1;
      }
    }
  }

  // ---------------------------------------------------------------------
  // Specification

  /** The frame that asks for one conversion. */
  function Frame(control: bv8): seq<bv8> {
    [control, 0, 0]
  }

  /** `k` copies of the frame for `control`. */
  function Frames(control: bv8, k: nat): (s: seq<seq<bv8>>)
    ensures |s| == k && forall i :: 0 <= i < k ==> s[i] == Frame(control)
  {
    seq(k, _ => Frame(control))
  }

  /** The big-endian 16-bit value of two bytes, `uint16(hi)<<8 | uint16(lo)`
      (the two bytes do not overlap, so the or is an addition). */
  function Assemble(hi: bv8, lo: bv8): int {
    hi as int * 256 + lo as int
  }

  /** A response is a uint16, and its two bytes can be read back from it. */
  lemma AssembleBytes(hi: bv8, lo: bv8)
    ensures 0 <= Assemble(hi, lo) <= 0xFFFF
    ensures Assemble(hi, lo) / 256 == hi as int && Assemble(hi, lo) % 256 == lo as int
  {
  }

  /** The outcome of one reading. */
  datatype Reading = Reading(value: int, failed: bool)

  /** The reading at exchange `k`: `(0, error)` on a failed transfer, the
      assembled response otherwise. */
  function ReadingAt(o: Oracle, k: nat): (r: Reading)
    ensures r.failed <==> k in o.failing
    ensures r.failed ==> r.value == 0
    ensures 0 <= r.value <= 0xFFFF
  {
    if k in o.failing then Reading(0, true)
    else
      AssembleBytes(o.reply(k).0, o.reply(k).1);
      Reading(Assemble(o.reply(k).0, o.reply(k).1), false)
  }

  /** The number of failed exchanges among the `k` exchanges from `n` on. */
  function Failures(o: Oracle, n: nat, k: nat): (c: nat)
    ensures c <= k
  {
    if k == 0 then 0
    else Failures(o, n, k - 1) + (if n + k - 1 in o.failing then 1 else 0)
  }

  /** The filtered reading: it keeps a sample for every FAILED exchange and
      none for a successful one, so it filters `Failures` zeros. */
  function FilterSpec(o: Oracle, n: nat): int
    requires Failures(o, n, ReadTimes) != 4
  {
    TouchFilter.FilterValue(seq(Failures(o, n, ReadTimes), _ => 0))
  }

  /** Every sample the filter keeps is 0, so it always yields 0. */
  lemma FilterSpecZero(o: Oracle, n: nat)
    requires Failures(o, n, ReadTimes) != 4
    ensures FilterSpec(o, n) == 0
  {
    TouchFilter.FilterZeros(seq(Failures(o, n, ReadTimes), _ => 0));
  }

  /** The acceptance rule of a touch reading on plain ints: the two X
      readings and the two Y readings must each differ by at most 50, the
      averages (truncated) must have `x >= 100` and `y <= 4000`. */
  function Accept(x1: int, y1: int, x2: int, y2: int): Option<XptGpio.Point> {
    if Abs(x1 - x2) > 50 || Abs(y1 - y2) > 50 then None
    else
      var x := TouchFilter.GoDiv(x1 + x2, 2);
      var y := TouchFilter.GoDiv(y1 + y2, 2);
      if x < 100 || y > 4000 then None else Some(XptGpio.Point(x, y))
  }

  function Abs(d: int): (r: nat)
    ensures r == d || r == -d
  {
    if d < 0 then -d else d
  }

  /** For non-negative readings, a touch is accepted exactly when both pairs
      agree within 50 and the averages are in range; the accepted point is
      the pair of averages. */
  lemma AcceptExactly(x1: nat, y1: nat, x2: nat, y2: nat)
    ensures Accept(x1, y1, x2, y2).Some? <==>
      x2 - 50 <= x1 <= x2 + 50 && y2 - 50 <= y1 <= y2 + 50
      && (x1 + x2) / 2 >= 100 && (y1 + y2) / 2 <= 4000
    ensures Accept(x1, y1, x2, y2).Some? ==>
      Accept(x1, y1, x2, y2).value == XptGpio.Point((x1 + x2) / 2, (y1 + y2) / 2)
  {
  }

  /** Unlike the bit-banged driver, the order of the two readings of a pair
      does not matter. */
  lemma AcceptSymmetric(x1: int, y1: int, x2: int, y2: int)
    ensures Accept(x1, y1, x2, y2) == Accept(x2, y2, x1, y1)
  {
    assert x1 + x2 == x2 + x1 && y1 + y2 == y2 + y1;
  }

  /** Readings that are all 0 are always rejected (the average 0 is below
      100). */
  lemma AcceptZeros()
    ensures Accept(0, 0, 0, 0) == None
  {
  }

  /** The pressure estimate `(x / div) * ((z2 / z1) - 1)`, with `z1 = 0`
      replaced by 1 and `div` 256 in 8-bit mode, 4096 otherwise. */
  function Pressure(x: nat, z1: nat, z2: nat, conversion: bv8): int {
    var z := if z1 == 0 then 1 else z1;
    var div := if conversion == XptGpio.Conversion8Bit then 256 else 4096;
    (x / div) * ((z2 / z) - 1)
  }

  /** A zero Z1 reading behaves as a Z1 reading of 1. */
  lemma PressureZ1Zero(x: nat, z2: nat, conversion: bv8)
    ensures Pressure(x, 0, z2, conversion) == Pressure(x, 1, z2, conversion)
  {
  }

  /** The estimate is never below `-(x / div)`; it equals that exactly when
      Z2 is smaller than Z1 (or X is below the divisor). */
  lemma PressureLowerBound(x: nat, z1: nat, z2: nat, conversion: bv8)
    ensures var div := if conversion == XptGpio.Conversion8Bit then 256 else 4096;
      Pressure(x, z1, z2, conversion) >= -(x / div)
    ensures var div := if conversion == XptGpio.Conversion8Bit then 256 else 4096;
      z2 < z1 ==> Pressure(x, z1, z2, conversion) == -(x / div)
  {
    var z := if z1 == 0 then 1 else z1;
    var div := if conversion == XptGpio.Conversion8Bit then 256 else 4096;
    assert z2 / z >= 0;
    MulNonNeg(x / div, z2 / z);
  }

  lemma MulNonNeg(a: int, b: int)
    requires a >= 0 && b >= 0
    ensures a * (b - 1) >= -a
  {
    assert a * (b - 1) == a * b - a;
  }

  // ---------------------------------------------------------------------
  // The driver

  class Xpt {
    var conversion: bv8
    const bus: SpiBus

    constructor (conversion: bv8, bus: SpiBus)
      ensures this.conversion == conversion && this.bus == bus
    {
      this.conversion := conversion;
      this.bus := bus;
    }

    method SetMode(c: bv8)
      modifies this
      ensures conversion == c
    {
      conversion := c;
    }

    /** One reading of `channel`: the frame is exchanged, and the response
        (or 0 with an error) is the reading at that exchange. */
    method ReadValue(channel: bv8) returns (value: int, failed: bool)
      modifies bus
      ensures bus.sent == old(bus.sent) + [Frame(XptGpio.ControlByte(channel, conversion))]
      ensures Reading(value, failed) == ReadingAt(bus.oracle, |old(bus.sent)|)
    {
      var data := new bv8[3];
      data[0] := XptGpio.ControlByte(channel, conversion);
      data[1] := 0;
      data[2] := 0;
      assert data[..] == Frame(XptGpio.ControlByte(channel, conversion));
      failed := bus.TransferAndReceiveData(data);
      if failed {
        value := 0;
        return;
      }
      value := Assemble(data[0], data[1]);
    }

    /** Ten readings of `channel`, filtered. A sample is stored only when the
        reading FAILED (and is then 0), so the filter sees only zeros and the
        value is 0; four failures make the average divide by zero, which
        panics in Go. The error result is always nil. */
    method ReadFilterValue(channel: bv8) returns (value: int, failed: bool)
      requires Failures(bus.oracle, |bus.sent|, ReadTimes) != 4
      modifies bus
      ensures bus.sent == old(bus.sent) + Frames(XptGpio.ControlByte(channel, conversion), ReadTimes)
      ensures value == FilterSpec(bus.oracle, |old(bus.sent)|) == 0
      ensures !failed
    {
      ghost var n := |bus.sent|;
      var samples := new int[ReadTimes](_ => 0);
      var count := Collect(channel, samples);
      ghost var zeros := seq(count, _ => 0);
      assert samples[..count] == zeros;
      value := TouchFilter.Filter(samples, count);
      FilterSpecZero(bus.oracle, n);
      failed := false;
    }

    /** The collecting loop of the filter: ten readings, each failed one
        stored (as 0) at the next free place. */
    method Collect(channel: bv8, samples: array<int>) returns (count: nat)
      requires samples.Length == ReadTimes
      requires forall k :: 0 <= k < ReadTimes ==> samples[k] == 0
      modifies bus, samples
      ensures bus.sent == old(bus.sent) + Frames(XptGpio.ControlByte(channel, conversion), ReadTimes)
      ensures count == Failures(bus.oracle, |old(bus.sent)|, ReadTimes)
      ensures forall k :: 0 <= k < ReadTimes ==> samples[k] == 0
    {
      ghost var n := |bus.sent|;
      ghost var control := XptGpio.ControlByte(channel, conversion);
      count := 0;
      var i := 0;
      while i < ReadTimes
        invariant i <= ReadTimes && count == Failures(bus.oracle, n, i)
        invariant bus.sent == old(bus.sent) + Frames(control, i)
        invariant forall k :: 0 <= k < ReadTimes ==> samples[k] == 0
      {
        count := CollectOne(channel, samples, count);
        assert Frames(control, i + 1) == Frames(control, i) + [Frame(control)];
        i := i + 1;
      }
    }

    /** One reading of the collecting loop: a failed reading is stored at
        `count`, which then advances. */
    method CollectOne(channel: bv8, samples: array<int>, count: nat) returns (next: nat)
      requires count < samples.Length
      requires forall k :: 0 <= k < samples.Length ==> samples[k] == 0
      modifies bus, samples
      ensures bus.sent == old(bus.sent) + [Frame(XptGpio.ControlByte(channel, conversion))]
      ensures next == count + if |old(bus.sent)| in bus.oracle.failing then 1 else 0
      ensures forall k :: 0 <= k < samples.Length ==> samples[k] == 0
    {
      var v, err := ReadValue(channel);
      next := count;
      if err {
        samples[count] := v;
        next := count + 1;
      }
    }

    /** One touch reading: X, Y, X, Y filtered, then the acceptance rule.
        The filtered readings are all 0, so the reading is always rejected. */
    method ReadXY() returns (point: Option<XptGpio.Point>)
      requires forall j :: 0 <= j < 4 ==> Failures(bus.oracle, |bus.sent| + j * ReadTimes, ReadTimes) != 4
      modifies bus
      ensures var xs := Frames(XptGpio.ControlByte(XptGpio.ChannelX, conversion), ReadTimes);
        var ys := Frames(XptGpio.ControlByte(XptGpio.ChannelY, conversion), ReadTimes);
        bus.sent == old(bus.sent) + xs + ys + xs + ys
      ensures point == None
    {
      ghost var n := |bus.sent|;
      assert Failures(bus.oracle, n + 0 * ReadTimes, ReadTimes) != 4;
      var x1, e1 := ReadFilterValue(XptGpio.ChannelX);
      assert Failures(bus.oracle, n + 1 * ReadTimes, ReadTimes) != 4;
      var y1, e2 := ReadFilterValue(XptGpio.ChannelY);
      assert Failures(bus.oracle, n + 2 * ReadTimes, ReadTimes) != 4;
      var x2, e3 := ReadFilterValue(XptGpio.ChannelX);
      assert Failures(bus.oracle, n + 3 * ReadTimes, ReadTimes) != 4;
      var y2, e4 := ReadFilterValue(XptGpio.ChannelY);
      point := Accept(x1, y1, x2, y2);
      AcceptZeros();
    }

    /** The pressure estimate from one reading each of X, Z1 and Z2 (their
        errors are ignored: a failed reading counts as 0). */
    method ReadTouchPressure() returns (result: int, failed: bool)
      modifies bus
      ensures bus.sent == old(bus.sent) + [Frame(XptGpio.ControlByte(XptGpio.ChannelX, conversion)),
        Frame(XptGpio.ControlByte(XptGpio.ChannelZ1, conversion)),
        Frame(XptGpio.ControlByte(XptGpio.ChannelZ2, conversion))]
      ensures var n := |old(bus.sent)|;
        result == Pressure(ReadingAt(bus.oracle, n).value, ReadingAt(bus.oracle, n + 1).value,
          ReadingAt(bus.oracle, n + 2).value, conversion)
      ensures !failed
    {
      var x, ex := ReadValue(XptGpio.ChannelX);
      var z1, ez1 := ReadValue(XptGpio.ChannelZ1);
      var z2, ez2 := ReadValue(XptGpio.ChannelZ2);
      result := Pressure(x, z1, z2, conversion);
      failed := false;
    }
  }
}

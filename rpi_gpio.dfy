/**
 * Raspberry Pi (BCM283x) digital pins driven through the memory-mapped GPIO
 * register window.
 *
 * The window is 1024 32-bit words. Per pin `n`:
 *   - function select: word n/10, 3-bit field at bit (n%10)*3 (000 input,
 *     001 output);
 *   - output set / clear: words n/32+7 / n/32+10, written with a one-hot word;
 *   - level: word n/32+13;
 *   - pull control: word 37 (low 2 bits), pull clock: word n/32+38.
 * Every store to the window is also appended to a ghost log, so the order of
 * stores (which the peripheral observes) is part of each contract.
 */
module RpiGpio {
  import opened Common

  const WindowWords: nat := 1024

  const PullOff: int := 0
  const PullDown: int := 1
  const PullUp: int := 2

  const PullReg: nat := 37

  datatype Direction = In | Out

  datatype GpioError = NotMapped | SysfsFailure | NotImplemented

  /** One store to the register window. */
  datatype Store = Store(index: nat, value: bv32)

  /** Word holding the function-select field of pin `n`. */
  function FselIndex(n: nat): nat { n / 10 }

  /** Position of that field inside its word. */
  function FselShift(n: nat): (s: bv32)
    ensures s <= 27
  {
    ((n % 10) * 3) as bv32
  }

  function SetIndex(n: nat): nat { n / 32 + 7 }

  function ClearIndex(n: nat): nat { n / 32 + 10 }

  function LevelIndex(n: nat): nat { n / 32 + 13 }

  /** A 32-bit one shifted left by `k`; Go gives 0 for a shift of 32 or more. */
  function Bit(k: bv32): bv32 {
    if k < 32 then 1 << k else 0
  }

  /** `p & 31` for the pin number taken as an unsigned integer. */
  function Low5(n: nat): bv32 { (n % 32) as bv32 }

  /** `uint8(p)`: the pin number truncated to 8 bits. */
  function Uint8(n: nat): bv32 { (n % 256) as bv32 }

  /** The one-hot word selecting pin `n` inside its bank: `1 << (n & 31)`. */
  function PinMask(n: nat): bv32 {
    Bit(Low5(n))
  }

  /** The pin mask has exactly one bit set, bit n % 32. */
  lemma PinMaskOneHot(n: nat)
    ensures PinMask(n) != 0 && PinMask(n) & (PinMask(n) - 1) == 0
    ensures (PinMask(n) >> Low5(n)) & 1 == 1
  {
    OneHot(Low5(n));
  }

  lemma OneHot(k: bv32)
    requires k < 32
    ensures ((1 as bv32) << k) != 0 && ((1 as bv32) << k) & (((1 as bv32) << k) - 1) == 0
    ensures (((1 as bv32) << k) >> k) & 1 == 1
  {
  }

  /** A word with the 3-bit field at `shift` cleared (input), then, for an
      output, set to 001. */
  function FunctionSelect(word: bv32, shift: bv32, output: bool): bv32
    requires shift <= 27
  {
    var cleared := word & !(7 << shift);
    if output then cleared | (1 << shift) else cleared
  }

  /** The pin's field reads 000 for an input and 001 for an output. */
  lemma FunctionSelectField(word: bv32, shift: bv32, output: bool)
    requires shift <= 27
    ensures (FunctionSelect(word, shift, output) >> shift) & 7 == (if output then 1 else 0)
  {
    if output {
      FieldSet(word, shift);
    } else {
      FieldCleared(word, shift);
    }
  }

  lemma FieldCleared(word: bv32, shift: bv32)
    requires shift <= 27
    ensures ((word & !(7 << shift)) >> shift) & 7 == 0
  {
  }

  lemma FieldSet(word: bv32, shift: bv32)
    requires shift <= 27
    ensures (((word & !(7 << shift)) | (1 << shift)) >> shift) & 7 == 1
  {
  }

  /** Every bit outside the pin's field keeps its value. */
  lemma FunctionSelectKeeps(word: bv32, shift: bv32, output: bool)
    requires shift <= 27
    ensures FunctionSelect(word, shift, output) & !(7 << shift) == word & !(7 << shift)
  {
    var m: bv32 := 7 << shift;
    if output {
      LowBitInField(shift);
      ReplaceBits(word, m, 1 << shift);
    } else {
      ClearTwice(word, m);
    }
  }

  /** Clearing the field before selecting an output, as SetDirection(Out)
      does, gives the same word as selecting it directly. */
  lemma SelectAfterClear(word: bv32, shift: bv32)
    requires shift <= 27
    ensures FunctionSelect(FunctionSelect(word, shift, false), shift, true) == FunctionSelect(word, shift, true)
  {
    ClearTwice(word, 7 << shift);
  }

  lemma LowBitInField(shift: bv32)
    requires shift <= 27
    ensures ((1 as bv32) << shift) & !((7 as bv32) << shift) == 0
  {
  }

  /** Bits outside mask `m` survive replacing the bits inside it. */
  lemma ReplaceBits(word: bv32, m: bv32, v: bv32)
    requires v & !m == 0
    ensures ((word & !m) | v) & !m == word & !m
  {
  }

  lemma ClearTwice(word: bv32, m: bv32)
    ensures (word & !m) & !m == word & !m
  {
  }

  /** The level read for a pin whose number truncates to the byte `b`: the
      mask `1 << b` is not reduced modulo 32. */
  function LevelOfByte(word: bv32, b: bv32): (v: int)
    ensures v == 0 || v == 1
  {
    if word & Bit(b) != 0 then 1 else 0
  }

  /** Read's level of pin `n` in a level word. */
  function LevelOf(word: bv32, n: nat): (v: int)
    ensures v == 0 || v == 1
  {
    LevelOfByte(word, Uint8(n))
  }

  /** A pin reads high exactly when its truncated number is below 32 and that
      bit of the level word is set. */
  lemma LevelOfBit(word: bv32, b: bv32)
    ensures LevelOfByte(word, b) == 1 <==> b < 32 && (word >> b) & 1 == 1
  {
    LevelHighBit(word, b);
    BitLevelHigh(word, b);
  }

  lemma LevelHighBit(word: bv32, b: bv32)
    ensures LevelOfByte(word, b) == 1 ==> b < 32 && (word >> b) & 1 == 1
  {
    if b < 32 {
      BitSetShifted(word, b);
    }
  }

  lemma BitLevelHigh(word: bv32, b: bv32)
    ensures b < 32 && (word >> b) & 1 == 1 ==> LevelOfByte(word, b) == 1
  {
    if b < 32 {
      ShiftedBitSet(word, b);
    }
  }

  lemma BitSetShifted(word: bv32, k: bv32)
    requires k < 32
    ensures word & (1 << k) != 0 ==> (word >> k) & 1 == 1
  {
  }

  lemma ShiftedBitSet(word: bv32, k: bv32)
    requires k < 32
    ensures (word >> k) & 1 == 1 ==> word & (1 << k) != 0
  {
  }

  /** Pins 32 to 255 never read high, whatever the level register says. */
  lemma HighPinsReadLow(word: bv32, n: nat)
    requires 32 <= n < 256
    ensures LevelOf(word, n) == 0
  {
  }

  /** For a pin of the first bank, Read gives bit n of the level word, the
      bit that Write's mask selects. */
  lemma LowPinsReadBit(word: bv32, n: nat)
    requires n < 32
    ensures LevelOf(word, n) == 1 <==> (word >> Low5(n)) & 1 == 1
  {
    LowPinHigh(word, n);
    LowBitHigh(word, n);
  }

  lemma LowPinHigh(word: bv32, n: nat)
    requires n < 32
    ensures LevelOf(word, n) == 1 ==> (word >> Low5(n)) & 1 == 1
  {
    SmallPin(n);
    LevelHighBit(word, Uint8(n));
  }

  lemma LowBitHigh(word: bv32, n: nat)
    requires n < 32
    ensures (word >> Low5(n)) & 1 == 1 ==> LevelOf(word, n) == 1
  {
    SmallPin(n);
    BitLevelHigh(word, Uint8(n));
  }

  lemma SmallPin(n: nat)
    requires n < 32
    ensures Uint8(n) == Low5(n) && Uint8(n) < 32
  {
  }

  /** Word 37 with its low 2 bits cleared. */
  function PullCleared(word: bv32): (r: bv32)
    ensures r & 3 == 0
  {
    word & !3
  }

  /** Word 37 with its low 2 bits replaced by a pull code. */
  function PullSelect(word: bv32, pull: int): (r: bv32)
    requires pull == PullDown || pull == PullUp
    ensures r & 3 == pull as bv32
  {
    (word & !3) | pull as bv32
  }

  /** Writing the code keeps the other 30 bits of word 37. */
  lemma PullSelectKeeps(word: bv32, pull: int)
    requires pull == PullDown || pull == PullUp
    ensures PullSelect(word, pull) & !3 == word & !3
  {
    ReplaceBits(word, 3, pull as bv32);
  }

  /** Word 37 after the switch of gpioPullMode; an unknown pull value leaves
      it alone. */
  function PullCode(w37: bv32, pull: int): bv32 {
    if pull == PullDown || pull == PullUp then PullSelect(w37, pull)
    else if pull == PullOff then PullCleared(w37)
    else w37
  }

  /** Whatever the pull value, gpioPullMode leaves word 37 as it found it
      apart from the low 2 bits, which end cleared. */
  lemma PullEndsCleared(w37: bv32, pull: int)
    ensures PullCleared(PullCode(w37, pull)) == PullCleared(w37)
  {
    if pull == PullDown || pull == PullUp {
      ClearAfterSet(w37, pull as bv32);
    } else if pull == PullOff {
      ClearTwice(w37, 3);
    }
  }

  lemma ClearAfterSet(word: bv32, code: bv32)
    requires code & !3 == 0
    ensures ((word & !3) | code) & !3 == word & !3
  {
  }

  /** The stores of gpioPullMode for BCM pin `b` (the low 8 bits of the pin
      number), starting from pull word `w37`: the code (only for a known pull
      value), the clock pulse for the pin, then both registers cleared. */
  function PullStores(w37: bv32, b: nat, pull: int): (s: seq<Store>)
    requires b < 256
    ensures |s| == if 0 <= pull <= 2 then 4 else 3
  {
    var code := PullCode(w37, pull);
    (if 0 <= pull <= 2 then [Store(PullReg, code)] else [])
    + [Store(b / 32 + 38, PinMask(b)), Store(PullReg, PullCleared(code)), Store(b / 32 + 38, 0)]
  }

  /** The mapped GPIO window and the global flag saying it was mapped. */
  class GpioMemory {
    var mapped: bool
    const words: array<bv32>
    ghost var stores: seq<Store>

    ghost predicate Valid()
      reads this
    {
      words.Length == WindowWords
    }

    /** A window as left by the package initialisation: mapped or not. */
    constructor (mapped: bool)
      ensures Valid() && this.mapped == mapped && stores == []
      ensures fresh(words)
    {
      this.mapped := mapped;
      words := new bv32[WindowWords];
      stores := [];
    }

    /** One 32-bit store into the window. */
    method Put(k: nat, v: bv32)
      requires k < words.Length
      modifies this, words
      ensures words[k] == v
      ensures forall i :: 0 <= i < words.Length && i != k ==> words[i] == old(words[i])
      ensures stores == old(stores) + [Store(k, v)] && mapped == old(mapped)
    {
      words[k] := v;
      stores := stores + [Store(k, v)];
    }
  }

  /** The switch of gpioPullMode: the pull code, or cleared bits for
      PullOff, stored into word 37; nothing for an unknown pull value. */
  method StorePullCode(mem: GpioMemory, pull: int)
    requires mem.Valid() && mem.mapped
    modifies mem, mem.words
    ensures mem.words[PullReg] == PullCode(old(mem.words[PullReg]), pull)
    ensures mem.stores == old(mem.stores)
      + if 0 <= pull <= 2 then [Store(PullReg, PullCode(old(mem.words[PullReg]), pull))] else []
    ensures forall i :: 0 <= i < WindowWords && i != PullReg ==> mem.words[i] == old(mem.words[i])
    ensures mem.mapped == old(mem.mapped)
  {
    var w37 := mem.words[PullReg];
    if pull == PullDown || pull == PullUp {
      mem.Put(PullReg, PullSelect(w37, pull));
    } else if pull == PullOff {
      mem.Put(PullReg, PullCleared(w37));
    }
  }

  /** gpioPullMode: pull code into word 37, clock the pin in through word
      n/32+38, then clear both. The pin number is taken as a uint8. */
  method PullMode(mem: GpioMemory, n: nat, pull: int)
    requires mem.Valid() && mem.mapped
    modifies mem, mem.words
    ensures mem.stores == old(mem.stores) + PullStores(old(mem.words[PullReg]), n % 256, pull)
    ensures mem.words[PullReg] == PullCleared(old(mem.words[PullReg]))
    ensures mem.words[(n % 256) / 32 + 38] == 0
    ensures forall i :: 0 <= i < WindowWords && i != PullReg && i != (n % 256) / 32 + 38 ==>
      mem.words[i] == old(mem.words[i])
    ensures mem.mapped == old(mem.mapped)
  {
    var b := n % 256;
    var clk := b / 32 + 38;
    ghost var w37 := mem.words[PullReg];
    StorePullCode(mem, pull);
    ghost var coded := mem.stores;
    mem.Put(clk, PinMask(b));
    mem.Put(PullReg, PullCleared(mem.words[PullReg]));
    mem.Put(clk, 0);
    assert mem.stores == coded + [Store(clk, PinMask(b)), Store(PullReg, PullCleared(PullCode(w37, pull))), Store(clk, 0)];
    PullEndsCleared(w37, pull);
  }

  /** One digital pin; `initialized` records that the pin was exported. */
  class Pin {
    const n: nat
    const mem: GpioMemory
    var initialized: bool

    constructor (n: nat, mem: GpioMemory)
      ensures this.n == n && this.mem == mem && !initialized
    {
      this.n := n;
      this.mem := mem;
      initialized := false;
    }

    /** init: nothing to do once initialized; fails while the window is not
        mapped; otherwise the sysfs export and the active-low file (outcomes
        `exportOk`, `openOk`) decide. */
    method Init(exportOk: bool, openOk: bool) returns (err: Option<GpioError>)
      modifies this
      ensures old(initialized) ==> err == None && initialized
      ensures !old(initialized) && !mem.mapped ==> err == Some(NotMapped) && !initialized
      ensures !old(initialized) && mem.mapped ==>
        (err == None <==> exportOk && openOk) && initialized == (err == None)
      ensures err.Some? ==> err.value != NotImplemented
    {
      if initialized {
        return None;
      }
      if !mem.mapped {
        return Some(NotMapped);
      }
      if !exportOk || !openOk {
        return Some(SysfsFailure);
      }
      initialized := true;
      err := None;
    }

    /** SetDirection: rewrites the pin's function-select field; an output is
        made by first clearing the field, then setting it to 001. */
    method SetDirection(dir: Direction, exportOk: bool, openOk: bool) returns (err: Option<GpioError>)
      requires mem.Valid() && FselIndex(n) < WindowWords
      modifies this, mem, mem.words
      ensures err.None? <==> old(initialized) || (mem.mapped && exportOk && openOk)
      ensures !old(initialized) && !mem.mapped ==> err == Some(NotMapped)
      ensures initialized == (old(initialized) || (mem.mapped && exportOk && openOk))
      ensures err.None? ==>
        var f := FselIndex(n);
        var cleared := FunctionSelect(old(mem.words[f]), FselShift(n), false);
        mem.stores == old(mem.stores)
          + (if dir == In then [Store(f, cleared)] else [Store(f, cleared), Store(f, FunctionSelect(cleared, FselShift(n), true))])
      ensures err.None? ==> mem.words[FselIndex(n)] == FunctionSelect(old(mem.words[FselIndex(n)]), FselShift(n), dir == Out)
      ensures err.None? ==> forall i :: 0 <= i < WindowWords && i != FselIndex(n) ==> mem.words[i] == old(mem.words[i])
      ensures err.Some? ==> unchanged(mem.words) && mem.stores == old(mem.stores)
      ensures mem.mapped == old(mem.mapped)
    {
      err := Init(exportOk, openOk);
      if err.Some? {
        return;
      }
      var f := FselIndex(n);
      var shift := FselShift(n);
      mem.Put(f, FunctionSelect(mem.words[f], shift, false));
      if dir == Out {
        mem.Put(f, FunctionSelect(mem.words[f], shift, true));
        SelectAfterClear(old(mem.words[f]), shift);
      }
    }

    /** Read: the pin's bit of the level register (see `LevelOf`). */
    method Read(exportOk: bool, openOk: bool) returns (v: int, err: Option<GpioError>)
      requires mem.Valid() && LevelIndex(n) < WindowWords
      modifies this
      ensures err.None? <==> old(initialized) || (mem.mapped && exportOk && openOk)
      ensures !old(initialized) && !mem.mapped ==> err == Some(NotMapped)
      ensures initialized == (old(initialized) || (mem.mapped && exportOk && openOk))
      ensures err.None? ==> v == LevelOf(mem.words[LevelIndex(n)], n)
      ensures err.Some? ==> v == 0
    {
      err := Init(exportOk, openOk);
      if err.Some? {
        return 0, err;
      }
      v := LevelOf(mem.words[LevelIndex(n)], n);
    }

    /** Write: a one-hot store into the clear register for Low (0), into the
        set register for any other value; no read-modify-write. */
    method Write(val: int, exportOk: bool, openOk: bool) returns (err: Option<GpioError>)
      requires mem.Valid() && (if val == 0 then ClearIndex(n) else SetIndex(n)) < WindowWords
      modifies this, mem, mem.words
      ensures err.None? <==> old(initialized) || (mem.mapped && exportOk && openOk)
      ensures !old(initialized) && !mem.mapped ==> err == Some(NotMapped)
      ensures initialized == (old(initialized) || (mem.mapped && exportOk && openOk))
      ensures err.None? ==>
        var k := if val == 0 then ClearIndex(n) else SetIndex(n);
        mem.words[k] == PinMask(n) && mem.stores == old(mem.stores) + [Store(k, PinMask(n))]
        && forall i :: 0 <= i < WindowWords && i != k ==> mem.words[i] == old(mem.words[i])
      ensures err.Some? ==> unchanged(mem.words) && mem.stores == old(mem.stores)
      ensures mem.mapped == old(mem.mapped)
    {
      err := Init(exportOk, openOk);
      if err.Some? {
        return;
      }
      if val == 0 {
        mem.Put(ClearIndex(n), PinMask(n));
      } else {
        mem.Put(SetIndex(n), PinMask(n));
      }
    }

    /** PullUp: runs the pull sequence without checking that the pin is
        initialized, and always reports success. Go indexes the window
        without looking at the mapped flag, so an unmapped window panics. */
    method PullUpPin() returns (err: Option<GpioError>)
      requires mem.Valid() && mem.mapped
      modifies mem, mem.words
      ensures err == None
      ensures mem.stores == old(mem.stores) + PullStores(old(mem.words[PullReg]), n % 256, PullUp)
      ensures mem.words[PullReg] == PullCleared(old(mem.words[PullReg]))
      ensures mem.words[(n % 256) / 32 + 38] == 0
      ensures forall i :: 0 <= i < WindowWords && i != PullReg && i != (n % 256) / 32 + 38 ==>
        mem.words[i] == old(mem.words[i])
      ensures mem.mapped
    {
      PullMode(mem, n, PullUp);
      err := None;
    }

    /** PullDown: as PullUp with the pull-down code. */
    method PullDownPin() returns (err: Option<GpioError>)
      requires mem.Valid() && mem.mapped
      modifies mem, mem.words
      ensures err == None
      ensures mem.stores == old(mem.stores) + PullStores(old(mem.words[PullReg]), n % 256, PullDown)
      ensures mem.words[PullReg] == PullCleared(old(mem.words[PullReg]))
      ensures mem.words[(n % 256) / 32 + 38] == 0
      ensures forall i :: 0 <= i < WindowWords && i != PullReg && i != (n % 256) / 32 + 38 ==>
        mem.words[i] == old(mem.words[i])
      ensures mem.mapped
    {
      PullMode(mem, n, PullDown);
      err := None;
    }

    /** Watch is not implemented. */
    method Watch() returns (err: Option<GpioError>)
      ensures err == Some(NotImplemented)
    {
      err := Some(NotImplemented);
    }

    /** StopWatching is not implemented. */
    method StopWatching() returns (err: Option<GpioError>)
      ensures err == Some(NotImplemented)
    {
      err := Some(NotImplemented);
    }

    /** Close: StopWatching fails first, so the pin is never unregistered,
        unexported or marked uninitialized. */
    method Close() returns (err: Option<GpioError>)
      ensures err == Some(NotImplemented)
    {
      err := StopWatching();
    }
  }
}

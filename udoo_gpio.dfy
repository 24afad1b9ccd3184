/**
 * UDOO Neo (i.MX6 SoloX) digital pins driven through seven memory-mapped GPIO
 * banks and the IOMUXC pad-control window.
 *
 * Pin `n` lives in bank n/32 + 1 at bit n % 32. Each bank has data (DR),
 * direction (GDIR) and read-only pad-status (PSR) registers at word offsets
 * 0, 1 and 2. A write to a register either ORs the pin's bit in (high) or
 * XORs it (low), so a "low" write toggles the bit rather than clearing it.
 * The pad-control offset of each registered pin is a parameter of the model.
 */
module UdooGpio {
  import opened Common

  /** Words in each mapped window (16 KiB of 32-bit words). */
  const BankWords: nat := 16 * 1024

  const PullOff: int := -1
  const Pus100KPD: int := 0
  const Pus470KPU: int := 1
  const Pus100KPU: int := 2
  const Pus22KPU: int := 3

  datatype Direction = In | Out

  datatype GpioError =
    | BankInvalid | IoInvalid | NotMapped | ReadOnlyReg | SysfsFailure
    | PadNotRegistered | UnregisterFailed

  /** A bank register: its word offset from the bank base and whether the
      data sheet forbids writing it. */
  datatype GpioReg = GpioReg(offset: nat, readOnly: bool)

  const Dr := GpioReg(0, false)
  const Gdir := GpioReg(1, false)
  const Psr := GpioReg(2, true)
  const Icr1 := GpioReg(3, false)
  const Icr2 := GpioReg(4, false)
  const Imr := GpioReg(5, false)
  const Isr := GpioReg(6, false)
  const EdgeSel := GpioReg(7, false)

  /** A registered pin and the byte offset of its pad-control register. */
  datatype PadPin = PadPin(n: nat, padOffset: nat)

  /** The pin numbers of the pad table, in table order: GPIO1_IO00..02,
      GPIO1_IO04..25 and GPIO4_IO00..11. */
  const PadPinNumbers: seq<nat> :=
    seq(37, i requires 0 <= i < 37 => if i < 3 then i else if i < 25 then i + 1 else i + 71)

  /** The first table entry for pin `n`, if any. */
  function FindPad(table: seq<PadPin>, n: nat): (r: Option<nat>)
    ensures r.Some? ==> r.value < |table| && table[r.value].n == n
    ensures r.Some? ==> forall j :: 0 <= j < r.value ==> table[j].n != n
    ensures r.None? ==> forall j :: 0 <= j < |table| ==> table[j].n != n
  {
    if table == [] then None
    else if table[0].n == n then Some(0)
    else match FindPad(table[1..], n)
      case None => None
      case Some(k) => Some(k + 1)
  }

  /** Pin 3 (GPIO1_IO03) has no pad-control entry. */
  lemma PadThreeMissing(table: seq<PadPin>)
    requires |table| == |PadPinNumbers|
    requires forall i :: 0 <= i < |table| ==> table[i].n == PadPinNumbers[i]
    ensures FindPad(table, 3) == None
  {
    forall i | 0 <= i < |table| ensures table[i].n != 3 {
      assert table[i].n == PadPinNumbers[i];
    }
  }

  /** Every pin of GPIO1_IO04..25 has a pad-control entry. */
  lemma PadBankOneRegistered(table: seq<PadPin>, n: nat)
    requires |table| == |PadPinNumbers|
    requires forall i :: 0 <= i < |table| ==> table[i].n == PadPinNumbers[i]
    requires 4 <= n <= 25
    ensures FindPad(table, n).Some?
  {
    assert table[n - 1].n == PadPinNumbers[n - 1] == n;
  }

  /** The bank and bit of pin `n`. */
  function BankOf(n: nat): nat { n / 32 + 1 }

  function IoOf(n: nat): nat { n % 32 }

  /** `1 << io` as a 32-bit word. */
  function IoBit(k: bv32): bv32
    requires k < 32
  {
    1 << k
  }

  /** The register word after a write of pin bit `k`: OR for high, XOR for low. */
  function WriteBit(word: bv32, k: bv32, high: bool): bv32
    requires k < 32
  {
    if high then word | IoBit(k) else word ^ IoBit(k)
  }

  /** The shift amount of an io number below 32. */
  function Shift(io: nat): (k: bv32)
    requires io < 32
    ensures k < 32
  {
    io as bv32
  }

  /** The value readGpioReg extracts from a register word: bit `k`, moved
      down to bit 0. */
  function BitValue(word: bv32, k: bv32): bv32
    requires k < 32
  {
    (word & IoBit(k)) >> k
  }

  lemma BitValueIsBit(word: bv32, k: bv32)
    requires k < 32
    ensures BitValue(word, k) == (word >> k) & 1
  {
  }

  lemma BitValueBinary(word: bv32, k: bv32)
    requires k < 32
    ensures BitValue(word, k) <= 1
  {
  }

  /** A high write sets the pin's bit. */
  lemma OrSetsBit(word: bv32, k: bv32)
    requires k < 32
    ensures ((word | IoBit(k)) >> k) & 1 == 1
  {
  }

  /** A low write flips the pin's bit. */
  lemma XorFlipsBit(word: bv32, k: bv32)
    requires k < 32
    ensures ((word ^ IoBit(k)) >> k) & 1 == ((word >> k) & 1) ^ 1
  {
  }

  /** In particular a low write to a bit that is already 0 makes it 1. */
  lemma LowWriteOnClearBitSetsIt(word: bv32, k: bv32)
    requires k < 32
    requires (word >> k) & 1 == 0
    ensures ((word ^ IoBit(k)) >> k) & 1 == 1
  {
    XorFlipsBit(word, k);
  }

  /** Neither write touches the other 31 bits. */
  lemma OrKeepsOthers(word: bv32, k: bv32)
    requires k < 32
    ensures (word | IoBit(k)) & !IoBit(k) == word & !IoBit(k)
  {
  }

  lemma XorKeepsOthers(word: bv32, k: bv32)
    requires k < 32
    ensures (word ^ IoBit(k)) & !IoBit(k) == word & !IoBit(k)
  {
  }

  /** The pad-control value gpioPullMode computes from the current one: with
      a pull setting, PKE (bit 12) cleared, PUE (bit 13) set and the setting
      in PUS (bits 14 and up); for PullOff only PKE cleared. */
  function PadPullValue(val: bv32, pull: int): bv32 {
    if pull != PullOff then
      var v := (val & !(1 << 12)) | (1 << 13);
      ((pull % 0x1_0000_0000) as bv32 << 14) | (v & 0x3FFF)
    else val & !(1 << 12)
  }

  /** For a two-bit pull setting: bits 0-11 kept, PKE 0, PUE 1, PUS the
      setting, nothing above bit 15. */
  lemma PadPullFields(val: bv32, pull: int)
    requires 0 <= pull <= 3
    ensures PadPullValue(val, pull) & 0xFFF == val & 0xFFF
    ensures PadPullValue(val, pull) & 0x3000 == 0x2000
    ensures PadPullValue(val, pull) >> 14 == pull as bv32
  {
    var p := pull as bv32;
    assert (pull % 0x1_0000_0000) as bv32 == p;
    PadPullLow(val, p);
    PadPullMid(val, p);
    PadPullHigh(val, p);
  }

  lemma PadPullLow(val: bv32, p: bv32)
    requires p <= 3
    ensures ((p << 14) | (((val & !(1 << 12)) | (1 << 13)) & 0x3FFF)) & 0xFFF == val & 0xFFF
  {
  }

  lemma PadPullMid(val: bv32, p: bv32)
    requires p <= 3
    ensures ((p << 14) | (((val & !(1 << 12)) | (1 << 13)) & 0x3FFF)) & 0x3000 == 0x2000
  {
  }

  lemma PadPullHigh(val: bv32, p: bv32)
    requires p <= 3
    ensures ((p << 14) | (((val & !(1 << 12)) | (1 << 13)) & 0x3FFF)) >> 14 == p
  {
  }

  /** PullOff clears only PKE. */
  lemma PadPullOff(val: bv32)
    ensures PadPullValue(val, PullOff) & !0x1000 == val & !0x1000
    ensures PadPullValue(val, PullOff) & 0x1000 == 0
  {
  }

  /** The seven GPIO banks, the IOMUXC window, the pad table and the global
      flag saying that every window was mapped. */
  class GpioMemory {
    const banks: seq<array<bv32>>
    const iomuxc: array<bv32>
    const pads: seq<PadPin>
    var initialized: bool

    ghost predicate Valid()
      reads this
    {
      && |banks| == 7
      && (forall i :: 0 <= i < 7 ==> banks[i].Length == BankWords)
      && (forall i, j :: 0 <= i < j < 7 ==> banks[i] != banks[j])
      && (forall i :: 0 <= i < 7 ==> banks[i] != iomuxc)
      && iomuxc.Length == BankWords
      && |pads| == |PadPinNumbers|
      && (forall i :: 0 <= i < |pads| ==> pads[i].n == PadPinNumbers[i])
      && (forall i :: 0 <= i < |pads| ==> pads[i].padOffset / 4 < BankWords)
    }

    constructor (banks: seq<array<bv32>>, iomuxc: array<bv32>, pads: seq<PadPin>, initialized: bool)
      ensures this.banks == banks && this.iomuxc == iomuxc && this.pads == pads
      ensures this.initialized == initialized
    {
      this.banks := banks;
      this.iomuxc := iomuxc;
      this.pads := pads;
      this.initialized := initialized;
    }

    /** bankBase: the window of banks 1 to 7. */
    function BankBase(bank: int): (r: Result<array<bv32>, GpioError>)
      reads this
      requires |banks| == 7
      ensures r.Ok? <==> 1 <= bank <= 7
      ensures r.Ok? ==> r.value == banks[bank - 1]
      ensures r.Err? ==> r.error == BankInvalid
    {
      if bank <= 0 || bank > 7 then Err(BankInvalid) else Ok(banks[bank - 1])
    }

    /** readGpioReg: bit `io` of a bank register, after checking the io range,
        then the mapping, then the bank. */
    function ReadGpioReg(bank: int, io: nat, reg: GpioReg): (r: Result<bv32, GpioError>)
      reads this, banks
      requires Valid() && reg.offset < 8
      ensures r.Ok? <==> 1 <= io <= 31 && initialized && 1 <= bank <= 7
      ensures io == 0 || io > 31 ==> r == Err(IoInvalid)
      ensures 1 <= io <= 31 && !initialized ==> r == Err(NotMapped)
      ensures r.Ok? ==> r.value == BitValue(banks[bank - 1][reg.offset], Shift(io))
    {
      if io <= 0 || io > 31 then Err(IoInvalid)
      else if !initialized then Err(NotMapped)
      else match BankBase(bank)
        case Err(e) => Err(e)
        case Ok(vAddr) => Ok(BitValue(vAddr[reg.offset], Shift(io)))
    }

    /** A read of a valid register is 0 or 1, and is the register's bit. */
    lemma ReadGpioRegBit(bank: int, io: nat, reg: GpioReg)
      requires Valid() && reg.offset < 8
      ensures ReadGpioReg(bank, io, reg).Ok? ==>
        ReadGpioReg(bank, io, reg).value <= 1
        && ReadGpioReg(bank, io, reg).value == (banks[bank - 1][reg.offset] >> Shift(io)) & 1
    {
      if ReadGpioReg(bank, io, reg).Ok? {
        BitValueBinary(banks[bank - 1][reg.offset], Shift(io));
        BitValueIsBit(banks[bank - 1][reg.offset], Shift(io));
      }
    }

    /** writeGpioReg: checks the bank, the io range, the mapping and the
        read-only flag, in that order, then ORs the pin's bit into the
        register (high) or XORs it (low). */
    method WriteGpioReg(bank: int, io: nat, reg: GpioReg, high: bool) returns (err: Option<GpioError>)
      requires Valid() && reg.offset < 8
      modifies banks
      ensures err.None? <==> 1 <= bank <= 7 && 1 <= io <= 31 && initialized && !reg.readOnly
      ensures (bank <= 0 || bank > 7) ==> err == Some(BankInvalid)
      ensures 1 <= bank <= 7 && (io == 0 || io > 31) ==> err == Some(IoInvalid)
      ensures 1 <= bank <= 7 && 1 <= io <= 31 && !initialized ==> err == Some(NotMapped)
      ensures 1 <= bank <= 7 && 1 <= io <= 31 && initialized && reg.readOnly ==> err == Some(ReadOnlyReg)
      ensures err.None? ==>
        var w := old(banks[bank - 1][reg.offset]);
        banks[bank - 1][reg.offset] == WriteBit(w, Shift(io), high)
      ensures forall i, k ::
        (0 <= i < 7 && 0 <= k < BankWords && (err.Some? || i != bank - 1 || k != reg.offset)) ==> banks[i][k] == old(banks[i][k])
    {
      if bank <= 0 || bank > 7 {
        return Some(BankInvalid);
      }
      if io <= 0 || io > 31 {
        return Some(IoInvalid);
      }
      if !initialized {
        return Some(NotMapped);
      }
      if reg.readOnly {
        return Some(ReadOnlyReg);
      }
      var vAddr := banks[bank - 1];
      vAddr[reg.offset] := WriteBit(vAddr[reg.offset], Shift(io), high);
      err := None;
    }

    /** readGpioPadCtl: the pad-control word of the first table entry for pin
        `n`, found by a linear search. */
    method ReadGpioPadCtl(n: nat) returns (v: bv32, err: Option<GpioError>)
      requires Valid()
      requires initialized || FindPad(pads, n).None?
      ensures err.None? <==> FindPad(pads, n).Some?
      ensures err.Some? ==> err.value == PadNotRegistered && v == 0
      ensures err.None? ==> v == iomuxc[pads[FindPad(pads, n).value].padOffset / 4]
    {
      var i := 0;
      while i < |pads|
        invariant 0 <= i <= |pads|
        invariant forall j :: 0 <= j < i ==> pads[j].n != n
      {
        if pads[i].n == n {
          FindPadFirst(pads, n, i);
          return iomuxc[pads[i].padOffset / 4], None;
        }
        i := i + 1;
      }
      return 0, Some(PadNotRegistered);
    }

    /** writeGpioPadCtl: stores into the pad-control word of the first table
        entry for pin `n`. */
    method WriteGpioPadCtl(n: nat, val: bv32) returns (err: Option<GpioError>)
      requires Valid()
      requires initialized || FindPad(pads, n).None?
      modifies iomuxc
      ensures err.None? <==> FindPad(pads, n).Some?
      ensures err.Some? ==> err.value == PadNotRegistered && unchanged(iomuxc)
      ensures err.None? ==>
        var k := pads[FindPad(pads, n).value].padOffset / 4;
        iomuxc[k] == val && forall j :: 0 <= j < BankWords && j != k ==> iomuxc[j] == old(iomuxc[j])
      ensures forall i, k :: 0 <= i < 7 && 0 <= k < BankWords ==> banks[i][k] == old(banks[i][k])
    {
      var i := 0;
      while i < |pads|
        invariant 0 <= i <= |pads|
        invariant forall j :: 0 <= j < i ==> pads[j].n != n
      {
        if pads[i].n == n {
          FindPadFirst(pads, n, i);
          iomuxc[pads[i].padOffset / 4] := val;
          return None;
        }
        i := i + 1;
      }
      return Some(PadNotRegistered);
    }

    /** gpioPullMode: looks up the pad-control word and computes the new pull
        configuration (`PadPullValue`), but never stores it back; only the
        lookup's error is reported. */
    method GpioPullMode(n: nat, pull: int) returns (err: Option<GpioError>)
      requires Valid()
      requires initialized || FindPad(pads, n).None?
      ensures err.None? <==> FindPad(pads, n).Some?
      ensures err.Some? ==> err.value == PadNotRegistered
    {
      var val;
      val, err := ReadGpioPadCtl(n);
      if err.Some? {
        return;
      }
      val := PadPullValue(val, pull);
    }
  }

  /** The entry found by a left-to-right scan is the first one. */
  lemma FindPadFirst(table: seq<PadPin>, n: nat, i: nat)
    requires i < |table| && table[i].n == n
    requires forall j :: 0 <= j < i ==> table[j].n != n
    ensures FindPad(table, n) == Some(i)
  {
    match FindPad(table, n)
    case None =>
    case Some(k) =>
  }

  /** One digital pin. */
  class Pin {
    const n: nat
    const mem: GpioMemory
    var initialized: bool

    constructor (n: nat, mem: GpioMemory)
      ensures this.n == n && this.mem == mem && !initialized
    {
      this.n := n;
      this.mem := mem;
      initialized := false;
    }

    /** init: nothing to do once initialized; fails while the windows are not
        mapped; otherwise the sysfs export and the value and active-low files
        (outcome `sysfsOk`) decide. */
    method Init(sysfsOk: bool) returns (err: Option<GpioError>)
      modifies this
      ensures old(initialized) ==> err == None && initialized
      ensures !old(initialized) && !mem.initialized ==> err == Some(NotMapped) && !initialized
      ensures !old(initialized) && mem.initialized ==>
        (err == None <==> sysfsOk) && initialized == sysfsOk
      ensures err.Some? ==> err.value == NotMapped || err.value == SysfsFailure
    {
      if initialized {
        return None;
      }
      if !mem.initialized {
        return Some(NotMapped);
      }
      if !sysfsOk {
        return Some(SysfsFailure);
      }
      initialized := true;
      err := None;
    }

    /** SetDirection: ORs the pin's bit into GDIR for an output and XORs it
        for an input. */
    method SetDirection(dir: Direction, sysfsOk: bool) returns (err: Option<GpioError>)
      requires mem.Valid()
      modifies this, mem.banks
      ensures var ready := old(initialized) || (mem.initialized && sysfsOk);
        err.None? <==> ready && mem.initialized && BankOf(n) <= 7 && IoOf(n) != 0
      ensures !old(initialized) && !mem.initialized ==> err == Some(NotMapped)
      ensures initialized == (old(initialized) || (mem.initialized && sysfsOk))
      ensures (old(initialized) || (mem.initialized && sysfsOk)) && IoOf(n) == 0 ==>
        err == Some(if BankOf(n) <= 7 then IoInvalid else BankInvalid)
      ensures err.None? ==>
        var w := old(mem.banks[BankOf(n) - 1][Gdir.offset]);
        mem.banks[BankOf(n) - 1][Gdir.offset] == WriteBit(w, Shift(IoOf(n)), dir == Out)
      ensures forall i, k ::
        (0 <= i < 7 && 0 <= k < BankWords && (err.Some? || i != BankOf(n) - 1 || k != Gdir.offset)) ==> mem.banks[i][k] == old(mem.banks[i][k])
    {
      err := Init(sysfsOk);
      if err.Some? {
        return;
      }
      err := mem.WriteGpioReg(BankOf(n), IoOf(n), Gdir, dir == Out);
    }

    /** Read: PSR bit of the pin, 0 on any error. */
    method Read(sysfsOk: bool) returns (v: int, err: Option<GpioError>)
      requires mem.Valid()
      modifies this
      ensures var ready := old(initialized) || (mem.initialized && sysfsOk);
        err.None? <==> ready && mem.initialized && BankOf(n) <= 7 && IoOf(n) != 0
      ensures !old(initialized) && !mem.initialized ==> err == Some(NotMapped)
      ensures initialized == (old(initialized) || (mem.initialized && sysfsOk))
      ensures err.None? ==> v == (if mem.banks[BankOf(n) - 1][Psr.offset] & IoBit(Shift(IoOf(n))) != 0 then 1 else 0)
      ensures err.Some? ==> v == 0
    {
      err := Init(sysfsOk);
      if err.Some? {
        return 0, err;
      }
      v, err := ReadLevel();
    }

    /** The part of Read after init: the pin's PSR bit through readGpioReg. */
    method ReadLevel() returns (v: int, err: Option<GpioError>)
      requires mem.Valid()
      ensures err.None? <==> mem.initialized && BankOf(n) <= 7 && IoOf(n) != 0
      ensures err.None? ==> v == (if mem.banks[BankOf(n) - 1][Psr.offset] & IoBit(Shift(IoOf(n))) != 0 then 1 else 0)
      ensures err.Some? ==> v == 0
    {
      var r := mem.ReadGpioReg(BankOf(n), IoOf(n), Psr);
      if r.Err? {
        return 0, Some(r.error);
      }
      ReadValue(mem.banks[BankOf(n) - 1][Psr.offset], Shift(IoOf(n)));
      v := if r.value == 1 then 1 else 0;
      err := None;
    }

    /** Write: Low (0) takes the XOR path on DR, anything else the OR path. */
    method Write(val: int, sysfsOk: bool) returns (err: Option<GpioError>)
      requires mem.Valid()
      modifies this, mem.banks
      ensures var ready := old(initialized) || (mem.initialized && sysfsOk);
        err.None? <==> ready && mem.initialized && BankOf(n) <= 7 && IoOf(n) != 0
      ensures !old(initialized) && !mem.initialized ==> err == Some(NotMapped)
      ensures initialized == (old(initialized) || (mem.initialized && sysfsOk))
      ensures err.None? ==>
        var w := old(mem.banks[BankOf(n) - 1][Dr.offset]);
        mem.banks[BankOf(n) - 1][Dr.offset] == WriteBit(w, Shift(IoOf(n)), val != 0)
      ensures forall i, k ::
        (0 <= i < 7 && 0 <= k < BankWords && (err.Some? || i != BankOf(n) - 1 || k != Dr.offset)) ==> mem.banks[i][k] == old(mem.banks[i][k])
    {
      err := Init(sysfsOk);
      if err.Some? {
        return;
      }
      err := mem.WriteGpioReg(BankOf(n), IoOf(n), Dr, val != 0);
    }

    /** PullUp: runs gpioPullMode with the 100K pull-up setting and reports
        success whatever it returned. */
    method PullUp() returns (err: Option<GpioError>)
      requires mem.Valid()
      requires mem.initialized || FindPad(mem.pads, n).None?
      ensures err == None
    {
      var _ := mem.GpioPullMode(n, Pus100KPU);
      err := None;
    }

    /** PullDown: as PullUp with the 100K pull-down setting. */
    method PullDown() returns (err: Option<GpioError>)
      requires mem.Valid()
      requires mem.initialized || FindPad(mem.pads, n).None?
      ensures err == None
    {
      var _ := mem.GpioPullMode(n, Pus100KPD);
      err := None;
    }

    /** Close: unregisters the pin (outcome `unregisterOk`); an initialized pin
        then closes its files and unexports (outcome `releaseOk`) and only then
        becomes uninitialized. */
    method Close(unregisterOk: bool, releaseOk: bool) returns (err: Option<GpioError>)
      modifies this
      ensures err.None? <==> unregisterOk && (!old(initialized) || releaseOk)
      ensures initialized == (old(initialized) && err.Some?)
    {
      if !unregisterOk {
        return Some(UnregisterFailed);
      }
      if !initialized {
        return None;
      }
      if !releaseOk {
        return Some(SysfsFailure);
      }
      initialized := false;
      err := None;
    }
  }

  /** The value Read converts to an int is the PSR bit. */
  lemma ReadValue(word: bv32, k: bv32)
    requires k < 32
    ensures BitValue(word, k) == 1 <==> word & IoBit(k) != 0
    ensures BitValue(word, k) == 0 || BitValue(word, k) == 1
  {
    ReadValueHigh(word, k);
    ReadValueSet(word, k);
    BitValueBinary(word, k);
  }

  lemma ReadValueHigh(word: bv32, k: bv32)
    requires k < 32
    ensures BitValue(word, k) == 1 ==> word & IoBit(k) != 0
  {
  }

  lemma ReadValueSet(word: bv32, k: bv32)
    requires k < 32
    ensures word & IoBit(k) != 0 ==> BitValue(word, k) == 1
  {
  }
}

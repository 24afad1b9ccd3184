/**
 * The R61526 TFT controller driven over a bit-banged 8080 parallel bus:
 * command and data transactions, the cursor window, user commands, the
 * full-screen clear and the colour-channel conversion.
 *
 * Every transaction is a step table (see `PinBus`); a method performing a
 * transaction is proved to leave exactly the trace `Play` gives for its table,
 * and the lemmas say what those tables put on the bus.
 */
module R61526 {
  import opened PinBus
  import opened Common

  const LcdWidth: nat := 319
  const LcdHeight: nat := 479

  const CmdSetColumnAddr: bv8 := 0x2A
  const CmdSetPageAddr: bv8 := 0x2B
  const CmdWriteMemory: bv8 := 0x2C

  /** The roles of an 8080 bus; any of them may be left nil. */
  const BusRoles: set<Role> :=
    {CS, WR, RST, RS, RD, DB(0), DB(1), DB(2), DB(3), DB(4), DB(5), DB(6), DB(7)}

  /** fillDB8: DB0..DB7 receive bits 0..7 in ascending order, each write
      checked. */
  function Db8Steps(v: bv8): seq<Step> {
    seq(8, i requires 0 <= i < 8 => Put(DB(i), Level(v, i), true))
  }

  /** WriteCmd: the error of the closing CS write is ignored. */
  function CmdSteps(cmd: bv8): seq<Step> {
    [Put(CS, Low, true), Put(RD, High, true), Put(RS, Low, true), Put(WR, Low, true)]
    + Db8Steps(cmd)
    + [Put(WR, High, true), Put(CS, High, false)]
  }

  /** WriteData: the errors of the closing WR and CS writes are ignored. */
  function DataSteps(dat: bv8): seq<Step> {
    [Put(CS, Low, true), Put(RD, High, true), Put(RS, High, true), Put(WR, Low, true)]
    + Db8Steps(dat)
    + [Put(WR, High, false), Put(CS, High, false)]
  }

  function HighByte(v: bv16): bv8 { (v >> 8) as bv8 }

  function LowByte(v: bv16): bv8 { (v & 0xFF) as bv8 }

  /** WriteData16: the high byte, then the low byte, each latched by its own
      WR strobe whose rising edge is unchecked. */
  function Data16Steps(val: bv16): seq<Step> {
    [Put(CS, Low, true), Put(RD, High, true), Put(RS, High, true)]
    + Db8Steps(HighByte(val)) + [Put(WR, Low, true), Put(WR, High, false)]
    + Db8Steps(LowByte(val)) + [Put(WR, Low, true), Put(WR, High, false), Put(CS, High, false)]
  }

  /** The `i`-th of the seven calls of SetCursor. */
  function CursorPart(i: nat, xStart: bv16, yStart: bv16, xEnd: bv16, yEnd: bv16): seq<Step>
    requires i < 7
  {
    match i
    case 0 => CmdSteps(CmdSetColumnAddr)
    case 1 => Data16Steps(xStart)
    case 2 => Data16Steps(xEnd)
    case 3 => CmdSteps(CmdSetPageAddr)
    case 4 => Data16Steps(yStart)
    case 5 => Data16Steps(yEnd)
    case _ => CmdSteps(CmdWriteMemory)
  }

  /** The calls 0..k of SetCursor, one after the other. */
  function CursorPrefix(k: nat, xStart: bv16, yStart: bv16, xEnd: bv16, yEnd: bv16): seq<Step>
    requires k < 7
  {
    if k == 0 then CursorPart(0, xStart, yStart, xEnd, yEnd)
    else CursorPrefix(k - 1, xStart, yStart, xEnd, yEnd) + CursorPart(k, xStart, yStart, xEnd, yEnd)
  }

  /** SetCursor: the column window, the page window, then the memory-write
      command. */
  function CursorSteps(xStart: bv16, yStart: bv16, xEnd: bv16, yEnd: bv16): seq<Step> {
    CursorPrefix(6, xStart, yStart, xEnd, yEnd)
  }

  /** ExecUserCmd: the command, then one data write per parameter. */
  function UserSteps(cmd: bv8, params: seq<bv8>): seq<Step> {
    if params == [] then CmdSteps(cmd)
    else UserSteps(cmd, params[..|params| - 1]) + DataSteps(params[|params| - 1])
  }

  /** TFT_Changegrb: moves the top 5-bit field of an RGB565 colour to the
      bottom, the bottom field to the top and the 6-bit middle field up by one
      bit, so that the middle field's top bit and the bottom field's lowest bit
      are merged into bit 11 and bit 5 is always clear. */
  function ChangeGrb(color: bv16): (p: bv16)
    ensures p & 0x1F == color >> 11
    ensures (p >> 5) & 1 == 0
    ensures (p >> 6) & 0x1F == (color >> 5) & 0x1F
    ensures (p >> 11) & 1 == (color & 1) | ((color >> 10) & 1)
    ensures p >> 12 == (color >> 1) & 0xF
  {
    var red := color & 0x1F;
    var green := (color >> 5) & 0x3F;
    var blue := (color >> 11) & 0x1F;
    (red << 11) | (green << 6) | blue
  }

  /** fillDB8 puts the whole byte on the data lines: reading the lines back
      after its writes gives the byte. */
  lemma Db8RoundTrip(v: bv8)
    ensures Lines8(Ideal(Db8Steps(v))) == v
  {
    var e := Ideal(Db8Steps(v));
    assert LineBit(e[0]) == v & 1;
    assert LineBit(e[1]) == v & 2;
    assert LineBit(e[2]) == v & 4;
    assert LineBit(e[3]) == v & 8;
    assert LineBit(e[4]) == v & 16;
    assert LineBit(e[5]) == v & 32;
    assert LineBit(e[6]) == v & 64;
    assert LineBit(e[7]) == v & 128;
  }

  /** The two halves of WriteData16 carry the whole 16-bit value. */
  lemma Data16Halves(v: bv16)
    ensures ((HighByte(v) as bv16) << 8) | (LowByte(v) as bv16) == v
  {
  }

  /** Every step of a bus table names a bus role; with them all wired and no
      failing write in its range, the table emits all of its writes. */
  lemma WiredIdeal(w: Wiring, steps: seq<Step>, n: nat)
    requires BusRoles <= w.wired
    requires forall i :: 0 <= i < |steps| ==> steps[i].role in BusRoles
    requires forall k :: n <= k < n + |steps| ==> k !in w.failing
    ensures Play(w, steps, n) == Run(Ideal(steps), true)
    ensures |Ideal(steps)| == |steps|
  {
    PlayReliable(w, steps, n);
    EmittedAllWired(w.wired, steps);
  }

  /** With every bus role wired and no failing write, WriteCmd emits CS=0,
      RD=1, RS=0, WR=0, the writes of the command byte to DB0..DB7, WR=1,
      CS=1. */
  lemma WriteCmdEmits(w: Wiring, cmd: bv8, n: nat)
    requires BusRoles <= w.wired
    requires forall k :: n <= k < n + 14 ==> k !in w.failing
    ensures Play(w, CmdSteps(cmd), n)
      == Run([Drive(CS, Low), Drive(RD, High), Drive(RS, Low), Drive(WR, Low)]
             + Ideal(Db8Steps(cmd)) + [Drive(WR, High), Drive(CS, High)], true)
  {
    DbRoles(cmd);
    WiredIdeal(w, CmdSteps(cmd), n);
  }

  /** The closing CS write of WriteCmd is unchecked: its failure alone does not
      make the command fail. */
  lemma WriteCmdIgnoresFinalCs(w: Wiring, cmd: bv8, n: nat)
    requires BusRoles <= w.wired
    requires forall k :: n <= k < n + 13 ==> k !in w.failing
    ensures Play(w, CmdSteps(cmd), n).ok
    ensures |Play(w, CmdSteps(cmd), n).events| == 14
  {
    var body := CmdSteps(cmd)[..13];
    var last := [Put(CS, High, false)];
    DbRoles(cmd);
    assert CmdSteps(cmd) == body + last;
    PlayAppend(w, body, last, n);
    WiredIdeal(w, body, n);
    assert Play(w, last, n + 13) == Run([Drive(CS, High)], true);
  }

  /** WriteData differs from WriteCmd only in RS (high: data), and a failing
      WR=1 or CS=1 at its end still counts as success. */
  lemma WriteDataEmits(w: Wiring, dat: bv8, n: nat)
    requires BusRoles <= w.wired
    requires forall k :: n <= k < n + 12 ==> k !in w.failing
    ensures Play(w, DataSteps(dat), n)
      == Run([Drive(CS, Low), Drive(RD, High), Drive(RS, High), Drive(WR, Low)]
             + Ideal(Db8Steps(dat)) + [Drive(WR, High), Drive(CS, High)], true)
  {
    var head := [Put(CS, Low, true), Put(RD, High, true), Put(RS, High, true), Put(WR, Low, true)];
    var body := head + Db8Steps(dat);
    var tail := [Put(WR, High, false), Put(CS, High, false)];
    DbRoles(dat);
    PlayAppend(w, body, tail, n);
    WiredIdeal(w, body, n);
    PlayUnchecked(w, tail, n + 12);
    EmittedAllWired(w.wired, tail);
  }

  /** With RD left nil, WriteData emits no RD event and nothing else is lost. */
  lemma WriteDataWithoutRd(w: Wiring, dat: bv8, n: nat)
    requires w.wired == BusRoles - {RD}
    requires forall k :: n <= k < n + 14 ==> k !in w.failing
    ensures Play(w, DataSteps(dat), n)
      == Run([Drive(CS, Low), Drive(RS, High), Drive(WR, Low)]
             + Ideal(Db8Steps(dat)) + [Drive(WR, High), Drive(CS, High)], true)
  {
    var cs := [Put(CS, Low, true)];
    var rd := [Put(RD, High, true)];
    var rsWr := [Put(RS, High, true), Put(WR, Low, true)];
    var db := Db8Steps(dat);
    var tail := [Put(WR, High, false), Put(CS, High, false)];
    assert DataSteps(dat) == cs + rd + rsWr + db + tail;
    DbRoles(dat);
    PlayReliable(w, DataSteps(dat), n);
    EmittedAppend(w.wired, cs + rd + rsWr + db, tail);
    EmittedAppend(w.wired, cs + rd + rsWr, db);
    EmittedAppend(w.wired, cs + rd, rsWr);
    EmittedAppend(w.wired, cs, rd);
    EmittedAllWired(w.wired, cs);
    EmittedAllWired(w.wired, rsWr);
    EmittedAllWired(w.wired, db);
    EmittedAllWired(w.wired, tail);
  }

  /** With every bus role wired and no failing write, WriteData16 emits CS=0,
      RD=1, RS=1, the writes of the high byte, a WR strobe, the writes of the
      low byte, a WR strobe and CS=1. */
  lemma WriteData16Emits(w: Wiring, val: bv16, n: nat)
    requires BusRoles <= w.wired
    requires forall k :: n <= k < n + 24 ==> k !in w.failing
    ensures Play(w, Data16Steps(val), n)
      == Run([Drive(CS, Low), Drive(RD, High), Drive(RS, High)]
             + Ideal(Db8Steps(HighByte(val))) + [Drive(WR, Low), Drive(WR, High)]
             + Ideal(Db8Steps(LowByte(val))) + [Drive(WR, Low), Drive(WR, High), Drive(CS, High)], true)
  {
    DbRoles(HighByte(val));
    DbRoles(LowByte(val));
    WiredIdeal(w, Data16Steps(val), n);
  }

  /** The writes of WriteData16, in order, when every role is wired. */
  lemma Data16Ideal(v: bv16)
    ensures Ideal(Data16Steps(v))
      == [Drive(CS, Low), Drive(RD, High), Drive(RS, High)] + Ideal(Db8Steps(HighByte(v)))
         + [Drive(WR, Low), Drive(WR, High)] + Ideal(Db8Steps(LowByte(v)))
         + [Drive(WR, Low), Drive(WR, High), Drive(CS, High)]
  {
  }

  /** In WriteData16 WR falls exactly twice and rises twice: one strobe per
      byte. */
  lemma Data16WrStrobes(v: bv16)
    ensures CountPuts(Data16Steps(v), WR, Low) == 2
    ensures CountPuts(Data16Steps(v), WR, High) == 2
  {
    Data16Ideal(v);
    DbOnly(HighByte(v));
    DbOnly(LowByte(v));
  }

  /** In WriteData16 CS is asserted once and released once. */
  lemma Data16Select(v: bv16)
    ensures CountPuts(Data16Steps(v), CS, Low) == 1
    ensures CountPuts(Data16Steps(v), CS, High) == 1
  {
    Data16Ideal(v);
    DbOnly(HighByte(v));
    DbOnly(LowByte(v));
  }

  /** The writes of fillDB8 go to data lines only. */
  lemma DbOnly(v: bv8)
    ensures forall r: Role, l: int :: !r.DB? ==> Drive(r, l) !in Ideal(Db8Steps(v))
  {
  }

  /** After call `k` of SetCursor: either the calls so far all succeeded, or
      the cursor as a whole has failed with the trace it has. */
  lemma CursorNext(w: Wiring, t0: seq<Event>, k: nat, xStart: bv16, yStart: bv16, xEnd: bv16, yEnd: bv16,
                   t: seq<Event>, t2: seq<Event>, ok: bool)
    requires 1 <= k < 7
    requires Ran(w, t0, CursorPrefix(k - 1, xStart, yStart, xEnd, yEnd), t, true)
    requires Ran(w, t, CursorPart(k, xStart, yStart, xEnd, yEnd), t2, ok)
    ensures ok ==> Ran(w, t0, CursorPrefix(k, xStart, yStart, xEnd, yEnd), t2, true)
    ensures !ok ==> Ran(w, t0, CursorSteps(xStart, yStart, xEnd, yEnd), t2, false)
  {
    RanThen(w, t0, CursorPrefix(k - 1, xStart, yStart, xEnd, yEnd), t,
            CursorPart(k, xStart, yStart, xEnd, yEnd), t2, ok);
    if !ok {
      CursorStop(w, t0, t2, k, xStart, yStart, xEnd, yEnd);
    }
  }

  /** A failure in call `k` of SetCursor is the failure of the whole cursor. */
  lemma {:induction false} CursorStop(w: Wiring, t0: seq<Event>, t: seq<Event>, k: nat,
                                      xStart: bv16, yStart: bv16, xEnd: bv16, yEnd: bv16)
    requires k < 7
    requires Ran(w, t0, CursorPrefix(k, xStart, yStart, xEnd, yEnd), t, false)
    ensures Ran(w, t0, CursorSteps(xStart, yStart, xEnd, yEnd), t, false)
    decreases 7 - k
  {
    if k < 6 {
      RanStop(w, t0, CursorPrefix(k, xStart, yStart, xEnd, yEnd), t, CursorPart(k + 1, xStart, yStart, xEnd, yEnd));
      CursorStop(w, t0, t, k + 1, xStart, yStart, xEnd, yEnd);
    }
  }

  /** After parameter `i` of ExecUserCmd: either every call so far succeeded,
      or the whole command has failed with the trace it has. */
  lemma UserNext(w: Wiring, t0: seq<Event>, cmd: bv8, params: seq<bv8>, i: nat,
                 t: seq<Event>, t2: seq<Event>, ok: bool)
    requires i < |params|
    requires Ran(w, t0, UserSteps(cmd, params[..i]), t, true)
    requires Ran(w, t, DataSteps(params[i]), t2, ok)
    ensures ok ==> Ran(w, t0, UserSteps(cmd, params[..i + 1]), t2, true)
    ensures !ok ==> Ran(w, t0, UserSteps(cmd, params), t2, false)
  {
    assert params[..i + 1][..i] == params[..i];
    RanThen(w, t0, UserSteps(cmd, params[..i]), t, DataSteps(params[i]), t2, ok);
    if !ok {
      UserStop(w, t0, t2, cmd, params, i + 1);
    }
  }

  /** A failure after `k` calls of ExecUserCmd is the failure of the whole
      command. */
  lemma {:induction false} UserStop(w: Wiring, t0: seq<Event>, t: seq<Event>, cmd: bv8, params: seq<bv8>, k: nat)
    requires k <= |params|
    requires Ran(w, t0, UserSteps(cmd, params[..k]), t, false)
    ensures Ran(w, t0, UserSteps(cmd, params), t, false)
    decreases |params| - k
  {
    if k < |params| {
      assert params[..k + 1][..k] == params[..k];
      RanStop(w, t0, UserSteps(cmd, params[..k]), t, DataSteps(params[k]));
      UserStop(w, t0, t, cmd, params, k + 1);
    } else {
      assert params[..k] == params;
    }
  }

  /** ExecUserCmd has one command phase (RS low) and one data phase (RS high)
      per parameter. */
  lemma {:induction false} UserPhases(cmd: bv8, params: seq<bv8>)
    ensures CountPuts(UserSteps(cmd, params), RS, Low) == 1
    ensures CountPuts(UserSteps(cmd, params), RS, High) == |params|
    decreases |params|
  {
    if params == [] {
      CmdPhase(cmd);
    } else {
      var init := params[..|params| - 1];
      var last := params[|params| - 1];
      UserPhases(cmd, init);
      CountPutsAppend(UserSteps(cmd, init), DataSteps(last), RS, Low);
      CountPutsAppend(UserSteps(cmd, init), DataSteps(last), RS, High);
      DataPhase(last);
    }
  }

  /** A command transaction sets RS low once and never high. */
  lemma CmdPhase(v: bv8)
    ensures CountPuts(CmdSteps(v), RS, Low) == 1
    ensures CountPuts(CmdSteps(v), RS, High) == 0
  {
    assert Ideal(CmdSteps(v)) == [Drive(CS, Low), Drive(RD, High), Drive(RS, Low), Drive(WR, Low)]
      + Ideal(Db8Steps(v)) + [Drive(WR, High), Drive(CS, High)];
    DbOnly(v);
  }

  /** A data transaction sets RS high once and never low. */
  lemma DataPhase(v: bv8)
    ensures CountPuts(DataSteps(v), RS, High) == 1
    ensures CountPuts(DataSteps(v), RS, Low) == 0
  {
    assert Ideal(DataSteps(v)) == [Drive(CS, Low), Drive(RD, High), Drive(RS, High), Drive(WR, Low)]
      + Ideal(Db8Steps(v)) + [Drive(WR, High), Drive(CS, High)];
    DbOnly(v);
  }

  /** fillDB8 writes only to DB0..DB7, the `i`-th write to DB`i`. */
  lemma DbRoles(v: bv8)
    ensures forall i :: 0 <= i < |Db8Steps(v)| ==> Db8Steps(v)[i].role in BusRoles
  {
    forall i | 0 <= i < 8 ensures Db8Steps(v)[i].role in BusRoles {
      assert i in {0, 1, 2, 3, 4, 5, 6, 7};
    }
  }

  /** With every bus role wired and no failing write, Clear emits, after the
      cursor, exactly 479 x 319 complete WriteData16 transactions. */
  lemma ClearIdeal(w: Wiring, color: bv16, n: nat)
    requires BusRoles <= w.wired
    requires w.failing == {}
    ensures Repeat(w, Data16Steps(ChangeGrb(color)), LcdHeight * LcdWidth, n)
      == Copies(Ideal(Data16Steps(ChangeGrb(color))), LcdHeight * LcdWidth)
    ensures |Repeat(w, Data16Steps(ChangeGrb(color)), LcdHeight * LcdWidth, n)| == 479 * 319 * 24
  {
    var steps := Data16Steps(ChangeGrb(color));
    DbRoles(HighByte(ChangeGrb(color)));
    DbRoles(LowByte(ChangeGrb(color)));
    assert AllWired(w, steps);
    RepeatIdeal(w, steps, LcdHeight * LcdWidth, n);
  }

  /** The cursor Clear sets: the whole screen. */
  function ClearCursor(): seq<Step> {
    CursorSteps(0, 0, LcdWidth as bv16, LcdHeight as bv16)
  }

  /** The bus of one display: the recorder of its pins. */
  class Parallel8080 {
    const conn: Connection

    constructor (conn: Connection)
      ensures this.conn == conn
    {
      this.conn := conn;
    }

    method FillDB8(value: bv8) returns (ok: bool)
      modifies conn
      ensures Did(conn, old(conn.trace), Db8Steps(value), ok)
    {
      ok := conn.Transfer(Db8Steps(value));
    }

    method WriteCmd(cmd: bv8) returns (ok: bool)
      modifies conn
      ensures Did(conn, old(conn.trace), CmdSteps(cmd), ok)
    {
      ok := conn.Transfer(CmdSteps(cmd));
    }

    method WriteData(dat: bv8) returns (ok: bool)
      modifies conn
      ensures Did(conn, old(conn.trace), DataSteps(dat), ok)
    {
      ok := conn.Transfer(DataSteps(dat));
    }

    method WriteData16(val: bv16) returns (ok: bool)
      modifies conn
      ensures Did(conn, old(conn.trace), Data16Steps(val), ok)
    {
      ok := conn.Transfer(Data16Steps(val));
    }
  }

  /** The display: a bus plus the drawing operations built on it. */
  class Lcd {
    const hd: Parallel8080

    constructor (hd: Parallel8080)
      ensures this.hd == hd
    {
      this.hd := hd;
    }

    /** The column window, then the page window, then the memory-write
        command, stopping at the first call that fails. */
    method SetCursor(xStart: bv16, yStart: bv16, xEnd: bv16, yEnd: bv16) returns (ok: bool)
      modifies hd.conn
      ensures Did(hd.conn, old(hd.conn.trace), CursorSteps(xStart, yStart, xEnd, yEnd), ok)
    {
      ghost var t0 := hd.conn.trace;
      ghost var w := hd.conn.wiring;
      ok := hd.WriteCmd(CmdSetColumnAddr);
      if !ok {
        CursorStop(w, t0, hd.conn.trace, 0, xStart, yStart, xEnd, yEnd);
        return;
      }
      ghost var t := hd.conn.trace;
      ok := hd.WriteData16(xStart);
      CursorNext(w, t0, 1, xStart, yStart, xEnd, yEnd, t, hd.conn.trace, ok);
      if !ok { return; }
      t := hd.conn.trace;
      ok := hd.WriteData16(xEnd);
      CursorNext(w, t0, 2, xStart, yStart, xEnd, yEnd, t, hd.conn.trace, ok);
      if !ok { return; }
      t := hd.conn.trace;
      ok := hd.WriteCmd(CmdSetPageAddr);
      CursorNext(w, t0, 3, xStart, yStart, xEnd, yEnd, t, hd.conn.trace, ok);
      if !ok { return; }
      t := hd.conn.trace;
      ok := hd.WriteData16(yStart);
      CursorNext(w, t0, 4, xStart, yStart, xEnd, yEnd, t, hd.conn.trace, ok);
      if !ok { return; }
      t := hd.conn.trace;
      ok := hd.WriteData16(yEnd);
      CursorNext(w, t0, 5, xStart, yStart, xEnd, yEnd, t, hd.conn.trace, ok);
      if !ok { return; }
      t := hd.conn.trace;
      ok := hd.WriteCmd(CmdWriteMemory);
      CursorNext(w, t0, 6, xStart, yStart, xEnd, yEnd, t, hd.conn.trace, ok);
    }

    /** The command, then each parameter as a data write, in order, stopping
        at the first call that fails. */
    method ExecUserCmd(cmd: bv8, params: seq<bv8>) returns (ok: bool)
      modifies hd.conn
      ensures Did(hd.conn, old(hd.conn.trace), UserSteps(cmd, params), ok)
    {
      ghost var t0 := hd.conn.trace;
      ghost var w := hd.conn.wiring;
      ok := hd.WriteCmd(cmd);
      if !ok {
        assert params[..0] == [];
        UserStop(w, t0, hd.conn.trace, cmd, params, 0);
        return;
      }
      assert params[..0] == [];
      var i := 0;
      while i < |params|
        invariant 0 <= i <= |params|
        invariant Did(hd.conn, t0, UserSteps(cmd, params[..i]), true)
      {
        ghost var t := hd.conn.trace;
        ok := hd.WriteData(params[i]);
        UserNext(w, t0, cmd, params, i, t, hd.conn.trace, ok);
        if !ok {
          return;
        }
        i := i + 1;
      }
      assert params[..i] == params;
    }

    /** Clear: the whole-screen cursor (its error returned), then 479 rows of
        319 WriteData16 calls of the converted colour, their errors ignored. */
    method Clear(color: bv16) returns (ok: bool)
      modifies hd.conn
      ensures Play(hd.conn.wiring, ClearCursor(), |old(hd.conn.trace)|).ok == ok
      ensures !ok ==> Did(hd.conn, old(hd.conn.trace), ClearCursor(), false)
      ensures ok ==> var t1 := old(hd.conn.trace) + Play(hd.conn.wiring, ClearCursor(), |old(hd.conn.trace)|).events;
        hd.conn.trace == t1 + Repeat(hd.conn.wiring, Data16Steps(ChangeGrb(color)), LcdHeight * LcdWidth, |t1|)
    {
      var grb := ChangeGrb(color);
      ok := SetCursor(0, 0, LcdWidth as bv16, LcdHeight as bv16);
      assert CursorSteps(0, 0, LcdWidth as bv16, LcdHeight as bv16) == ClearCursor();
      if !ok {
        return;
      }
      FillScreen(grb);
    }

    /** The pixel loop of Clear: 479 rows of 319 WriteData16 calls of one
        colour, each call made whatever the previous one returned. */
    method FillScreen(grb: bv16)
      modifies hd.conn
      ensures hd.conn.trace
        == old(hd.conn.trace) + Repeat(hd.conn.wiring, Data16Steps(grb), LcdHeight * LcdWidth, |old(hd.conn.trace)|)
    {
      ghost var t1 := hd.conn.trace;
      ghost var w := hd.conn.wiring;
      ghost var calls := 0;
      var i := 0;
      while i < LcdHeight
        invariant 0 <= i <= LcdHeight && calls == i * 319
        invariant hd.conn.trace == t1 + Repeat(w, Data16Steps(grb), calls, |t1|)
      {
        var j := 0;
        while j < LcdWidth
          invariant 0 <= j <= LcdWidth && calls == i * 319 + j
          invariant hd.conn.trace == t1 + Repeat(w, Data16Steps(grb), calls, |t1|)
        {
          ghost var t := hd.conn.trace;
          var _ := hd.WriteData16(grb);
          RepeatNext(w, Data16Steps(grb), calls, t1, t, hd.conn.trace);
          calls := calls + 1;
          j := j + 1;
        }
        i := i + 1;
      }
    }
  }

  /** newGPIOPins: every non-nil key is turned into a pin (which may fail),
      then every collected pin is set to output, in the unspecified order of
      a Go map; the first failure aborts. */
  method NewGpioPins(keys: seq<Option<nat>>, creates: nat -> bool, setsOut: nat -> bool)
    returns (pins: set<nat>, outputs: set<nat>, ok: bool)
    ensures ok <==> forall i :: 0 <= i < |keys| && keys[i].Some? ==>
      creates(keys[i].value) && setsOut(keys[i].value)
    ensures ok ==> pins == KeySet(keys) && outputs == pins
    ensures !ok ==> pins == {}
    ensures forall p :: p in outputs ==> p in KeySet(keys) && setsOut(p)
  {
    pins, outputs := {}, {};
    var i := 0;
    while i < |keys|
      invariant 0 <= i <= |keys|
      invariant pins == KeySet(keys[..i])
      invariant forall j :: 0 <= j < i && keys[j].Some? ==> creates(keys[j].value)
    {
      assert keys[..i + 1] == keys[..i] + [keys[i]];
      KeySetSnoc(keys[..i], keys[i]);
      match keys[i] {
        case None =>
        case Some(key) =>
          if !creates(key) {
            pins, ok := {}, false;
            return;
          }
          pins := pins + {key};
      }
      i := i + 1;
    }
    assert keys[..i] == keys;
    var remaining := pins;
    while remaining != {}
      invariant remaining <= pins
      invariant outputs == pins - remaining
      invariant forall p :: p in outputs ==> setsOut(p)
      decreases remaining
    {
      var p :| p in remaining;
      if !setsOut(p) {
        var j := KeySetWitness(keys, p);
        pins, ok := {}, false;
        return;
      }
      outputs := outputs + {p};
      remaining := remaining - {p};
    }
    ok := true;
  }

  /** The identifiers of the non-nil keys. */
  function KeySet(keys: seq<Option<nat>>): set<nat> {
    set i | 0 <= i < |keys| && keys[i].Some? :: keys[i].value
  }

  lemma KeySetSnoc(keys: seq<Option<nat>>, k: Option<nat>)
    ensures KeySet(keys + [k]) == KeySet(keys) + (if k.Some? then {k.value} else {})
  {
    var ks := keys + [k];
    forall p | p in KeySet(ks) ensures p in KeySet(keys) + (if k.Some? then {k.value} else {}) {
      var i :| 0 <= i < |ks| && ks[i].Some? && ks[i].value == p;
      if i < |keys| { assert keys[i] == ks[i]; }
    }
    forall p | p in KeySet(keys) ensures p in KeySet(ks) {
      var i :| 0 <= i < |keys| && keys[i].Some? && keys[i].value == p;
      assert ks[i] == keys[i];
    }
    if k.Some? {
      assert ks[|keys|] == k;
    }
  }

  lemma KeySetWitness(keys: seq<Option<nat>>, p: nat) returns (i: nat)
    requires p in KeySet(keys)
    ensures i < |keys| && keys[i] == Some(p)
  {
    i :| 0 <= i < |keys| && keys[i].Some? && keys[i].value == p;
  }
}

/**
 * The ST7565 monochrome LCD controller on a bit-banged parallel bus: command
 * and data transactions, the page/column address commands and the clear loop.
 *
 * The data lines are written upper nibble first (DB4..DB7, then DB0..DB3).
 * A command transaction stops at its first failing pin write; a data
 * transaction ignores every error, although the data-line fill inside it
 * still stops at its own first failure. Neither transaction releases CS.
 */
module St7565 {
  import opened PinBus
  import opened Common

  const CmdSetPageAddr: bv8 := 0xB0
  const CmdSetColumnUpper: bv8 := 0x10
  const CmdSetColumnLower: bv8 := 0x00

  /** The highest page and column address the controller accepts. */
  const MaxPage: bv8 := 8
  const MaxColumn: bv8 := 0x83

  /** The column Clear starts every page at, and the data writes per page. */
  const ClearColumn: bv8 := 0x04
  const PageWidth: nat := 128
  const Pages: nat := 8

  /** The pins of the bus; a nil pin would make every transaction panic, so
      all of them are wired. */
  const BusRoles: set<Role> :=
    {CS, WR, RST, DCX, DB(0), DB(1), DB(2), DB(3), DB(4), DB(5), DB(6), DB(7)}

  datatype PageError = PageTooLarge | ColumnTooLarge | BusFailure

  /** The data line written `i`-th by fillDB8: DB4, DB5, DB6, DB7, DB0, DB1,
      DB2, DB3. */
  function DbOrder(i: nat): (d: nat)
    ensures d < 8
  {
    (i + 4) % 8
  }

  /** fillDB8: each line receives its own bit of the byte, every write checked. */
  function Db8Steps(v: bv8): seq<Step> {
    seq(8, i requires 0 <= i < 8 => Put(DB(DbOrder(i)), Level(v, DbOrder(i)), true))
  }

  /** WriteCmd: CS=0, DCX=0 (command), WR=0, the byte, WR=1, each write
      checked; CS stays asserted. */
  function CmdSteps(cmd: bv8): seq<Step> {
    [Put(CS, Low, true), Put(DCX, Low, true), Put(WR, Low, true)] + Db8Steps(cmd) + [Put(WR, High, true)]
  }

  /** The writes of WriteData around the data lines, whose errors it ignores. */
  const DataHead: seq<Step> := [Put(CS, Low, false), Put(DCX, High, false), Put(WR, Low, false)]
  const DataTail: seq<Step> := [Put(WR, High, false)]

  /** The events of WriteData with data-line fill `db` started at trace
      position `n`: the fill may stop early, but the WR strobe that follows is
      still written. */
  function DataTrace(w: Wiring, db: seq<Step>, n: nat): seq<Event> {
    var head := Play(w, DataHead, n).events;
    var fill := Play(w, db, n + |head|).events;
    head + fill + Play(w, DataTail, n + |head| + |fill|).events
  }

  /** The writes of one complete WriteData transaction with fill `db`. */
  function DataIdeal(db: seq<Step>): seq<Event> {
    [Drive(CS, Low), Drive(DCX, High), Drive(WR, Low)] + Ideal(db) + [Drive(WR, High)]
  }

  /** write8: WR=1, CS=0, DCX (low for a command, high for data), the byte,
      a WR strobe and CS=1, stopping at the first failing write. */
  function Write8Steps(isCmd: bool, value: bv8): seq<Step> {
    [Put(WR, High, true), Put(CS, Low, true), Put(DCX, if isCmd then Low else High, true)]
    + Db8Steps(value)
    + [Put(WR, Low, true), Put(WR, High, true), Put(CS, High, true)]
  }

  /** The page address command. */
  function PageCmd(page: bv8): bv8 { page | CmdSetPageAddr }

  /** The two column address commands: upper nibble, then lower nibble. */
  function ColumnUpper(column: bv8): bv8 { ((column & 0xF0) >> 4) | CmdSetColumnUpper }

  function ColumnLower(column: bv8): bv8 { (column & 0x0F) | CmdSetColumnLower }

  /** The commands setPage sends for a page within range: the page command,
      then, only for a column within range, the two column commands. */
  function PageSteps(page: bv8, column: bv8): seq<Step> {
    if column > MaxColumn then CmdSteps(PageCmd(page))
    else CmdSteps(PageCmd(page)) + CmdSteps(ColumnUpper(column)) + CmdSteps(ColumnLower(column))
  }

  /** A page number as the byte setPage takes: Go's byte(p). */
  function PageByte(p: nat): bv8 {
    (p % 256) as bv8
  }

  lemma PageByteSmall(p: nat)
    requires p < Pages
    ensures PageByte(p) <= MaxPage
  {
  }

  /** The address commands of page `p` of Clear: setPage(byte(p), 4). */
  function ClearTable(p: nat): seq<Step> {
    PageSteps(PageByte(p), ClearColumn)
  }

  /** The events of `k` WriteData calls with fill `db`, each made whatever the
      previous one did. */
  function DataRepeat(w: Wiring, db: seq<Step>, k: nat, n: nat): seq<Event> {
    if k == 0 then []
    else
      var before := DataRepeat(w, db, k - 1, n);
      before + DataTrace(w, db, n + |before|)
  }

  /** One page of Clear started at trace position `m`: the page's address
      commands `table`, whose failure ends Clear, then 128 data writes with
      fill `db`. */
  function PageRun(w: Wiring, table: seq<Step>, db: seq<Step>, m: nat): Run {
    var page := Play(w, table, m);
    Then(page, Run(DataRepeat(w, db, PageWidth, m + |page.events|), true))
  }

  /** Page `p` of Clear started at trace position `m`: its address commands
      and 128 zero data writes. */
  function ClearPageRun(w: Wiring, p: nat, m: nat): Run {
    PageRun(w, ClearTable(p), Db8Steps(0), m)
  }

  /** The pages of Clear as a series of stages. */
  function ClearPage(w: Wiring): (nat, nat) -> Run {
    (p: nat, m: nat) => ClearPageRun(w, p, m)
  }

  /** The events and outcome of the first `k` of a series of stages, stage
      `p` started at trace position `m` being `stage(p, m)`; a failing stage
      ends the series. */
  function Stages(stage: (nat, nat) -> Run, k: nat, n: nat): Run {
    if k == 0 then Run([], true)
    else
      var before := Stages(stage, k - 1, n);
      Then(before, stage(k - 1, n + |before.events|))
  }

  /** The page command carries the page in its low nibble and 0xB in its high
      nibble. */
  lemma PageCmdFields(page: bv8)
    requires page <= MaxPage
    ensures PageCmd(page) & 0x0F == page & 0x0F
    ensures PageCmd(page) >> 4 == 0xB
  {
  }

  /** Page 8 is 0xB8, page 0 is 0xB0. */
  lemma PageCmdRange(page: bv8)
    requires page <= MaxPage
    ensures 0xB0 <= PageCmd(page) <= 0xB8
  {
  }

  /** The two column commands carry the column: the upper command's low nibble
      is its upper nibble, the lower command is its lower nibble. */
  lemma ColumnRoundTrip(column: bv8)
    ensures ((ColumnUpper(column) & 0x0F) << 4) | ColumnLower(column) == column
  {
  }

  /** The upper column command is always 0x10..0x1F and the lower one 0x00..0x0F. */
  lemma ColumnCommandRanges(column: bv8)
    ensures ColumnUpper(column) >> 4 == 1
    ensures ColumnLower(column) >> 4 == 0
  {
  }

  /** fillDB8 writes only to the data lines. */
  lemma DbRoles(v: bv8)
    ensures forall i :: 0 <= i < |Db8Steps(v)| ==> Db8Steps(v)[i].role in BusRoles
    ensures forall i :: 0 <= i < |Db8Steps(v)| ==> Db8Steps(v)[i].role.DB?
  {
    forall i | 0 <= i < 8 ensures Db8Steps(v)[i].role in BusRoles {
      assert DbOrder(i) in {0, 1, 2, 3, 4, 5, 6, 7};
    }
  }

  /** fillDB8 writes every data line exactly once, in the order DB4..DB7,
      DB0..DB3, each with its own bit. */
  lemma Db8Order(v: bv8)
    ensures Ideal(Db8Steps(v))
      == [Drive(DB(4), Level(v, 4)), Drive(DB(5), Level(v, 5)), Drive(DB(6), Level(v, 6)), Drive(DB(7), Level(v, 7)),
          Drive(DB(0), Level(v, 0)), Drive(DB(1), Level(v, 1)), Drive(DB(2), Level(v, 2)), Drive(DB(3), Level(v, 3))]
  {
  }

  /** fillDB8 puts the whole byte on the data lines whatever the order. */
  lemma Db8RoundTrip(v: bv8)
    ensures Lines8(Ideal(Db8Steps(v))) == v
  {
    var e := Ideal(Db8Steps(v));
    assert LineBit(e[0]) == v & 16;
    assert LineBit(e[1]) == v & 32;
    assert LineBit(e[2]) == v & 64;
    assert LineBit(e[3]) == v & 128;
    assert LineBit(e[4]) == v & 1;
    assert LineBit(e[5]) == v & 2;
    assert LineBit(e[6]) == v & 4;
    assert LineBit(e[7]) == v & 8;
  }

  /** Every step of a bus table names a bus role; with them all wired and no
      failing write in its range, the table emits all of its writes. */
  lemma WiredIdeal(w: Wiring, steps: seq<Step>, n: nat)
    requires BusRoles <= w.wired
    requires forall i :: 0 <= i < |steps| ==> steps[i].role in BusRoles
    requires forall k :: n <= k < n + |steps| ==> k !in w.failing
    ensures Play(w, steps, n) == Run(Ideal(steps), true)
    ensures |Ideal(steps)| == |steps|
  {
    PlayReliable(w, steps, n);
    EmittedAllWired(w.wired, steps);
  }

  /** With no failing write, WriteCmd emits CS=0, DCX=0, WR=0, the byte and
      WR=1. */
  lemma WriteCmdEmits(w: Wiring, cmd: bv8, n: nat)
    requires BusRoles <= w.wired
    requires forall k :: n <= k < n + 12 ==> k !in w.failing
    ensures Play(w, CmdSteps(cmd), n)
      == Run([Drive(CS, Low), Drive(DCX, Low), Drive(WR, Low)] + Ideal(Db8Steps(cmd)) + [Drive(WR, High)], true)
  {
    DbRoles(cmd);
    WiredIdeal(w, CmdSteps(cmd), n);
  }

  /** A command transaction selects the chip once and never releases it. */
  lemma WriteCmdKeepsSelect(cmd: bv8)
    ensures CountPuts(CmdSteps(cmd), CS, Low) == 1
    ensures CountPuts(CmdSteps(cmd), CS, High) == 0
  {
    assert Ideal(CmdSteps(cmd)) == [Drive(CS, Low), Drive(DCX, Low), Drive(WR, Low)] + Ideal(Db8Steps(cmd)) + [Drive(WR, High)];
    DbOnly(cmd);
  }

  /** The writes of fillDB8 go to data lines only. */
  lemma DbOnly(v: bv8)
    ensures forall r: Role, l: int :: !r.DB? ==> Drive(r, l) !in Ideal(Db8Steps(v))
  {
  }

  /** With no failing write, WriteData emits CS=0, DCX=1, WR=0, the byte and
      WR=1. */
  lemma WriteDataEmits(w: Wiring, dat: bv8, n: nat)
    requires BusRoles <= w.wired
    requires forall k :: n <= k < n + 12 ==> k !in w.failing
    ensures DataTrace(w, Db8Steps(dat), n)
      == [Drive(CS, Low), Drive(DCX, High), Drive(WR, Low)] + Ideal(Db8Steps(dat)) + [Drive(WR, High)]
  {
    DbRoles(dat);
    DataTraceIdeal(w, Db8Steps(dat), n);
  }

  lemma DataTraceIdeal(w: Wiring, db: seq<Step>, n: nat)
    requires BusRoles <= w.wired
    requires |db| == 8 && forall i :: 0 <= i < |db| ==> db[i].role in BusRoles
    requires forall k :: n <= k < n + 12 ==> k !in w.failing
    ensures DataTrace(w, db, n) == DataIdeal(db)
    ensures |DataIdeal(db)| == 12
  {
    WiredIdeal(w, DataHead, n);
    assert Play(w, DataHead, n).events == [Drive(CS, Low), Drive(DCX, High), Drive(WR, Low)];
    WiredIdeal(w, db, n + 3);
    WiredIdeal(w, DataTail, n + 11);
    assert Play(w, DataTail, n + 11).events == [Drive(WR, High)];
  }

  /** Whatever fails, WriteData opens with CS=0, DCX=1, WR=0 and closes with
      the WR=1 strobe, and writes at most the eight data lines in between. */
  lemma WriteDataFrame(w: Wiring, dat: bv8, n: nat)
    requires BusRoles <= w.wired
    ensures DataTrace(w, Db8Steps(dat), n)[..3] == [Drive(CS, Low), Drive(DCX, High), Drive(WR, Low)]
    ensures DataTrace(w, Db8Steps(dat), n)[|DataTrace(w, Db8Steps(dat), n)| - 1] == Drive(WR, High)
    ensures 4 <= |DataTrace(w, Db8Steps(dat), n)| <= 12
  {
    DbRoles(dat);
    DataTraceFrame(w, Db8Steps(dat), n);
  }

  lemma DataTraceFrame(w: Wiring, db: seq<Step>, n: nat)
    requires BusRoles <= w.wired
    requires |db| == 8 && forall i :: 0 <= i < |db| ==> db[i].role in BusRoles
    ensures DataTrace(w, db, n)[..3] == [Drive(CS, Low), Drive(DCX, High), Drive(WR, Low)]
    ensures DataTrace(w, db, n)[|DataTrace(w, db, n)| - 1] == Drive(WR, High)
    ensures 4 <= |DataTrace(w, db, n)| <= 12
  {
    PlayUnchecked(w, DataHead, n);
    EmittedAllWired(w.wired, DataHead);
    var head := Play(w, DataHead, n).events;
    assert head == [Drive(CS, Low), Drive(DCX, High), Drive(WR, Low)];
    var fill := Play(w, db, n + 3).events;
    PlayPrefix(w, db, n + 3);
    EmittedAllWired(w.wired, db);
    assert |fill| <= 8;
    var tail := Play(w, DataTail, n + 3 + |fill|).events;
    PlayUnchecked(w, DataTail, n + 3 + |fill|);
    EmittedAllWired(w.wired, DataTail);
    assert tail == [Drive(WR, High)];
    var e := DataTrace(w, db, n);
    assert e == head + fill + tail;
    assert e[..3] == head;
  }

  /** With no failing write, write8 emits WR=1, CS=0, DCX, the byte, a WR
      strobe and CS=1; DCX is low for a command and high for data. */
  lemma Write8Emits(w: Wiring, isCmd: bool, value: bv8, n: nat)
    requires BusRoles <= w.wired
    requires forall k :: n <= k < n + 14 ==> k !in w.failing
    ensures Play(w, Write8Steps(isCmd, value), n)
      == Run([Drive(WR, High), Drive(CS, Low), Drive(DCX, if isCmd then Low else High)]
             + Ideal(Db8Steps(value)) + [Drive(WR, Low), Drive(WR, High), Drive(CS, High)], true)
  {
    DbRoles(value);
    WiredIdeal(w, Write8Steps(isCmd, value), n);
  }

  /** Unlike WriteCmd, write8 releases the chip select at its end. */
  lemma Write8Releases(isCmd: bool, value: bv8)
    ensures CountPuts(Write8Steps(isCmd, value), CS, Low) == 1
    ensures CountPuts(Write8Steps(isCmd, value), CS, High) == 1
  {
    assert Ideal(Write8Steps(isCmd, value))
      == [Drive(WR, High), Drive(CS, Low), Drive(DCX, if isCmd then Low else High)]
         + Ideal(Db8Steps(value)) + [Drive(WR, Low), Drive(WR, High), Drive(CS, High)];
    DbOnly(value);
  }

  /** For a column within range, setPage sends the page command, then the
      upper and lower column commands, as three command transactions. */
  lemma PageStepsCommands(page: bv8, column: bv8)
    requires column <= MaxColumn
    ensures PageSteps(page, column) == CmdSteps(PageCmd(page)) + CmdSteps(ColumnUpper(column)) + CmdSteps(ColumnLower(column))
    ensures |PageSteps(page, column)| == 36
  {
  }

  /** With no failing write, repeated WriteData calls emit complete data
      transactions of 12 writes each. */
  lemma {:induction false} DataRepeatIdeal(w: Wiring, db: seq<Step>, k: nat, n: nat)
    requires BusRoles <= w.wired
    requires |db| == 8 && forall i :: 0 <= i < |db| ==> db[i].role in BusRoles
    requires w.failing == {}
    ensures DataRepeat(w, db, k, n) == Copies(DataIdeal(db), k)
    ensures |DataRepeat(w, db, k, n)| == 12 * k
  {
    if k > 0 {
      var before := DataRepeat(w, db, k - 1, n);
      DataRepeatIdeal(w, db, k - 1, n);
      DataTraceIdeal(w, db, n + |before|);
      assert DataRepeat(w, db, k, n) == before + DataIdeal(db);
    }
  }

  /** One more WriteData call, made at the end of the trace. */
  lemma DataRepeatNext(w: Wiring, db: seq<Step>, k: nat, next: nat, t1: seq<Event>, t: seq<Event>, t2: seq<Event>)
    requires next == k + 1
    requires t == t1 + DataRepeat(w, db, k, |t1|)
    requires t2 == t + DataTrace(w, db, |t|)
    ensures t2 == t1 + DataRepeat(w, db, next, |t1|)
  {
  }


  /** Stages that all succeed with `size` events each: `k` of them succeed
      with `k * size` events. */
  lemma {:induction false} StagesIdeal(stage: (nat, nat) -> Run, k: nat, n: nat, size: nat)
    requires forall p, m :: stage(p, m).ok && |stage(p, m).events| == size
    ensures Stages(stage, k, n).ok
    ensures |Stages(stage, k, n).events| == k * size
  {
    if k > 0 {
      StagesIdeal(stage, k - 1, n, size);
      assert k * size == (k - 1) * size + size;
    }
  }

  /** Stages that all succeed, each emitting `x` exactly `c` times: `k` of
      them emit it `k * c` times. */
  lemma {:induction false} StagesCount(stage: (nat, nat) -> Run, k: nat, n: nat, x: Event, c: nat)
    requires forall p, m :: stage(p, m).ok && multiset(stage(p, m).events)[x] == c
    ensures Stages(stage, k, n).ok
    ensures multiset(Stages(stage, k, n).events)[x] == k * c
  {
    if k > 0 {
      StagesCount(stage, k - 1, n, x, c);
      assert k * c == (k - 1) * c + c;
    }
  }

  /** Stage `i`, run after the earlier stages succeeded, ends the series
      with its outcome and its events. */
  lemma StageNext(stage: (nat, nat) -> Run, i: nat, t0: seq<Event>, t: seq<Event>, r: Run, t2: seq<Event>)
    requires Stages(stage, i, |t0|).ok && t == t0 + Stages(stage, i, |t0|).events
    requires r == stage(i, |t|) && t2 == t + r.events
    ensures Stages(stage, i + 1, |t0|).ok == r.ok && t2 == t0 + Stages(stage, i + 1, |t0|).events
  {
    ChainRuns(t0, Stages(stage, i, |t0|), t, r, t2);
  }

  /** Once a stage has failed, the later stages are not attempted. */
  lemma {:induction false} StagesStop(stage: (nat, nat) -> Run, i: nat, j: nat, n: nat)
    requires i <= j
    requires !Stages(stage, i, n).ok
    ensures Stages(stage, j, n) == Stages(stage, i, n)
    decreases j - i
  {
    if i < j {
      StagesStop(stage, i, j - 1, n);
    }
  }

  /** Each page of Clear sends three address commands, 36 writes to bus pins,
      none of them raising DCX. */
  lemma ClearTableShape(p: nat)
    ensures |ClearTable(p)| == 36
    ensures forall i :: 0 <= i < |ClearTable(p)| ==> ClearTable(p)[i].role in BusRoles
    ensures Drive(DCX, High) !in Ideal(ClearTable(p))
  {
    var page := PageByte(p);
    PageStepsCommands(page, ClearColumn);
    DbRoles(PageCmd(page));
    DbRoles(ColumnUpper(ClearColumn));
    DbRoles(ColumnLower(ClearColumn));
    CmdKeepsDcxLow(PageCmd(page));
    CmdKeepsDcxLow(ColumnUpper(ClearColumn));
    CmdKeepsDcxLow(ColumnLower(ClearColumn));
    IdealAppend(CmdSteps(PageCmd(page)), CmdSteps(ColumnUpper(ClearColumn)));
    IdealAppend(CmdSteps(PageCmd(page)) + CmdSteps(ColumnUpper(ClearColumn)), CmdSteps(ColumnLower(ClearColumn)));
  }

  /** A command transaction never raises DCX. */
  lemma CmdKeepsDcxLow(cmd: bv8)
    ensures Drive(DCX, High) !in Ideal(CmdSteps(cmd))
  {
    assert Ideal(CmdSteps(cmd)) == [Drive(CS, Low), Drive(DCX, Low), Drive(WR, Low)] + Ideal(Db8Steps(cmd)) + [Drive(WR, High)];
    DbOnly(cmd);
  }

  /** With no failing write, a page of Clear emits its 36 command writes and
      its 128 data transactions. */
  lemma PageRunIdeal(w: Wiring, table: seq<Step>, db: seq<Step>, m: nat)
    requires BusRoles <= w.wired
    requires w.failing == {}
    requires |table| == 36 && forall i :: 0 <= i < |table| ==> table[i].role in BusRoles
    requires |db| == 8 && forall i :: 0 <= i < |db| ==> db[i].role in BusRoles
    ensures PageRun(w, table, db, m)
      == Run(Ideal(table) + Copies(DataIdeal(db), PageWidth), true)
    ensures |PageRun(w, table, db, m).events| == 36 + PageWidth * 12
  {
    WiredIdeal(w, table, m);
    DataRepeatIdeal(w, db, PageWidth, m + 36);
  }

  lemma CopiesCount(e: seq<Event>, k: nat, x: Event)
    ensures multiset(Copies(e, k))[x] == k * multiset(e)[x]
  {
    if k > 0 {
      CopiesCount(e, k - 1, x);
    }
  }

  /** A page of Clear raises DCX once per data transaction. */
  lemma PageDataCount(table: seq<Step>, db: seq<Step>)
    requires Drive(DCX, High) !in Ideal(table)
    requires forall i :: 0 <= i < |db| ==> db[i].role.DB?
    ensures multiset(Ideal(table) + Copies(DataIdeal(db), PageWidth))[Drive(DCX, High)] == PageWidth
  {
    var x := Drive(DCX, High);
    CopiesCount(DataIdeal(db), PageWidth, x);
    assert x !in Ideal(db);
    assert multiset(DataIdeal(db))[x] == 1;
  }


  /** With no failing write, a page of Clear succeeds with 36 + 128 x 12
      writes, raising DCX once per data write. */
  lemma ClearPageIdeal(w: Wiring, p: nat, m: nat)
    requires BusRoles <= w.wired
    requires w.failing == {}
    ensures ClearPage(w)(p, m).ok
    ensures |ClearPage(w)(p, m).events| == 36 + PageWidth * 12
    ensures multiset(ClearPage(w)(p, m).events)[Drive(DCX, High)] == PageWidth
  {
    ClearTableShape(p);
    DbRoles(0);
    PageRunIdeal(w, ClearTable(p), Db8Steps(0), m);
    PageDataCount(ClearTable(p), Db8Steps(0));
  }

  /** Clear as written: with no failing write it sends 8 pages of address
      commands and makes 1024 data writes, 8 x (36 + 128 x 12) writes before
      its final CS=1. */
  lemma ClearIdeal(w: Wiring, n: nat)
    requires BusRoles <= w.wired
    requires w.failing == {}
    ensures Stages(ClearPage(w), Pages, n).ok
    ensures |Stages(ClearPage(w), Pages, n).events| == 8 * (36 + 128 * 12)
    ensures multiset(Stages(ClearPage(w), Pages, n).events)[Drive(DCX, High)] == 1024
  {
    forall p, m
      ensures ClearPage(w)(p, m).ok
      ensures |ClearPage(w)(p, m).events| == 36 + PageWidth * 12
      ensures multiset(ClearPage(w)(p, m).events)[Drive(DCX, High)] == PageWidth
    {
      ClearPageIdeal(w, p, m);
    }
    StagesIdeal(ClearPage(w), Pages, n, 36 + PageWidth * 12);
    StagesCount(ClearPage(w), Pages, n, Drive(DCX, High), PageWidth);
  }


  /** Page `i` of Clear, run after the earlier pages succeeded, ends the
      first `i + 1` pages with its outcome and its events. */
  lemma ClearAdvance(w: Wiring, i: nat, next: nat, t0: seq<Event>, t: seq<Event>, t2: seq<Event>, ok: bool)
    requires next == i + 1
    requires Stages(ClearPage(w), i, |t0|).ok && t == t0 + Stages(ClearPage(w), i, |t0|).events
    requires t2 == t + ClearPageRun(w, i, |t|).events && ok == ClearPageRun(w, i, |t|).ok
    ensures Stages(ClearPage(w), next, |t0|).ok == ok
    ensures t2 == t0 + Stages(ClearPage(w), next, |t0|).events
  {
    StageNext(ClearPage(w), i, t0, t, ClearPageRun(w, i, |t|), t2);
  }

  /** The address commands of a page of Clear failed: so has the page. */
  lemma PageFail(w: Wiring, table: seq<Step>, db: seq<Step>, t: seq<Event>, t2: seq<Event>)
    requires Ran(w, t, table, t2, false)
    ensures t2 == t + PageRun(w, table, db, |t|).events && !PageRun(w, table, db, |t|).ok
  {
  }

  /** The address commands of a page of Clear went out and its data writes
      followed: the page succeeded. */
  lemma PageDone(w: Wiring, table: seq<Step>, db: seq<Step>, t: seq<Event>, t2: seq<Event>, t3: seq<Event>)
    requires Ran(w, t, table, t2, true)
    requires t3 == t2 + DataRepeat(w, db, PageWidth, |t2|)
    ensures t3 == t + PageRun(w, table, db, |t|).events && PageRun(w, table, db, |t|).ok
  {
    ChainRuns(t, Play(w, table, |t|), t2, Run(DataRepeat(w, db, PageWidth, |t2|), true), t3);
  }

  /** The display on its bus. */
  class Display {
    const conn: Connection

    constructor (conn: Connection)
      ensures this.conn == conn
    {
      this.conn := conn;
    }

    /** fillDB8: upper nibble first, stopping at the first failing write. */
    method FillDB8(value: bv8) returns (ok: bool)
      requires BusRoles <= conn.wiring.wired
      modifies conn
      ensures Did(conn, old(conn.trace), Db8Steps(value), ok)
    {
      ok := conn.Transfer(Db8Steps(value));
    }

    method WriteCmd(cmd: bv8) returns (ok: bool)
      requires BusRoles <= conn.wiring.wired
      modifies conn
      ensures Did(conn, old(conn.trace), CmdSteps(cmd), ok)
    {
      ok := conn.Transfer(CmdSteps(cmd));
    }

    /** WriteData returns nothing: every error is dropped. */
    method WriteData(dat: bv8)
      requires BusRoles <= conn.wiring.wired
      modifies conn
      ensures conn.trace == old(conn.trace) + DataTrace(conn.wiring, Db8Steps(dat), |old(conn.trace)|)
    {
      var _ := conn.Transfer(DataHead);
      var _ := FillDB8(dat);
      var _ := conn.Transfer(DataTail);
    }

    method Write8(isCmd: bool, value: bv8) returns (ok: bool)
      requires BusRoles <= conn.wiring.wired
      modifies conn
      ensures Did(conn, old(conn.trace), Write8Steps(isCmd, value), ok)
    {
      ok := conn.Transfer(Write8Steps(isCmd, value));
    }

    /** setPage: a page above 8 is refused before any write; a column above
        0x83 is refused only after the page command went out. */
    method SetPage(page: bv8, column: bv8) returns (err: Option<PageError>)
      requires BusRoles <= conn.wiring.wired
      modifies conn
      ensures page > MaxPage ==> err == Some(PageTooLarge) && conn.trace == old(conn.trace)
      ensures page <= MaxPage ==>
        var r := Play(conn.wiring, PageSteps(page, column), |old(conn.trace)|);
        conn.trace == old(conn.trace) + r.events
        && err == (if !r.ok then Some(BusFailure) else if column > MaxColumn then Some(ColumnTooLarge) else None)
    {
      if page > MaxPage {
        return Some(PageTooLarge);
      }
      ghost var t0 := conn.trace;
      ghost var w := conn.wiring;
      var ok := WriteCmd(PageCmd(page));
      if !ok {
        if column <= MaxColumn {
          RanStop(w, t0, CmdSteps(PageCmd(page)), conn.trace, CmdSteps(ColumnUpper(column)));
          RanStop(w, t0, CmdSteps(PageCmd(page)) + CmdSteps(ColumnUpper(column)), conn.trace, CmdSteps(ColumnLower(column)));
        }
        return Some(BusFailure);
      }
      if column > MaxColumn {
        return Some(ColumnTooLarge);
      }
      ghost var t1 := conn.trace;
      ok := WriteCmd(ColumnUpper(column));
      RanThen(w, t0, CmdSteps(PageCmd(page)), t1, CmdSteps(ColumnUpper(column)), conn.trace, ok);
      if !ok {
        RanStop(w, t0, CmdSteps(PageCmd(page)) + CmdSteps(ColumnUpper(column)), conn.trace, CmdSteps(ColumnLower(column)));
        return Some(BusFailure);
      }
      ghost var t2 := conn.trace;
      ok := WriteCmd(ColumnLower(column));
      RanThen(w, t0, CmdSteps(PageCmd(page)) + CmdSteps(ColumnUpper(column)), t2, CmdSteps(ColumnLower(column)), conn.trace, ok);
      err := if ok then None else Some(BusFailure);
    }

    /** Clear: for pages 0..7, setPage(page, 4) (its failure returned) and 128
        zero data writes; then CS=1 with its error ignored. */
    method Clear() returns (ok: bool)
      requires BusRoles <= conn.wiring.wired
      modifies conn
      ensures var r := Stages(ClearPage(conn.wiring), Pages, |old(conn.trace)|);
        ok == r.ok
        && conn.trace == old(conn.trace) + r.events + (if ok then [Drive(CS, High)] else [])
    {
      ghost var t0 := conn.trace;
      var i: nat := 0;
      ok := true;
      while i < Pages && ok
        invariant i <= Pages
        invariant ok == Stages(ClearPage(conn.wiring), i, |t0|).ok
        invariant conn.trace == t0 + Stages(ClearPage(conn.wiring), i, |t0|).events
      {
        ghost var t := conn.trace;
        ok := ClearOnePage(i);
        var next := i + 1;
        ClearAdvance(conn.wiring, i, next, t0, t, conn.trace, ok);
        i := next;
      }
      if !ok {
        StagesStop(ClearPage(conn.wiring), i, Pages, |t0|);
        return;
      }
      var _ := conn.Write(CS, High);
    }

    /** Page `p` of Clear: setPage(p, 4), whose failure ends Clear, then 128
        zero data writes. */
    method ClearOnePage(p: nat) returns (ok: bool)
      requires p < Pages
      requires BusRoles <= conn.wiring.wired
      modifies conn
      ensures conn.trace == old(conn.trace) + ClearPageRun(conn.wiring, p, |old(conn.trace)|).events
      ensures ok == ClearPageRun(conn.wiring, p, |old(conn.trace)|).ok
    {
      ghost var t := conn.trace;
      PageByteSmall(p);
      var err := SetPage(PageByte(p), ClearColumn);
      if err.Some? {
        PageFail(conn.wiring, ClearTable(p), Db8Steps(0), t, conn.trace);
        return false;
      }
      ghost var t2 := conn.trace;
      FillPage(0);
      PageDone(conn.wiring, ClearTable(p), Db8Steps(0), t, t2, conn.trace);
      ok := true;
    }

    /** The 128 data writes of one page of Clear. */
    method FillPage(dat: bv8)
      requires BusRoles <= conn.wiring.wired
      modifies conn
      ensures conn.trace == old(conn.trace) + DataRepeat(conn.wiring, Db8Steps(dat), PageWidth, |old(conn.trace)|)
    {
      ghost var t1 := conn.trace;
      var j := 0;
      while j < PageWidth
        invariant 0 <= j <= PageWidth
        invariant conn.trace == t1 + DataRepeat(conn.wiring, Db8Steps(dat), j, |t1|)
      {
        ghost var t := conn.trace;
        WriteData(dat);
        var next := j + 1;
        DataRepeatNext(conn.wiring, Db8Steps(dat), j, next, t1, t, conn.trace);
        j := next;
      }
    }
  }
}

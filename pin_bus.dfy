/**
 * Pin-level bus recorder shared by the bit-banged controllers (the 8080
 * parallel bus of the R61526, the ST7565 bus and the XPT2046 soft SPI).
 *
 * A connection owns a set of wired pin roles (a role whose pin is nil is not
 * wired) and records, in order, every level driven on a wired pin and every
 * level sampled from one. Which pin writes fail is an oracle indexed by the
 * position of the write in the trace; which level a sampled pin shows is an
 * oracle indexed the same way.
 *
 * A write sequence of the Go drivers is described by a table of steps: `Put`
 * drives a level; its `checked` flag says whether the Go driver returns on that
 * write's error. `Play` is the meaning of a table.
 */
module PinBus {

  datatype Role = CS | WR | RD | RS | RST | DCX | DB(bit: nat) | CLK | DIN | DOUT

  const Low: int := 0
  const High: int := 1

  datatype Event = Drive(role: Role, level: int) | Sample(role: Role, value: int)

  datatype Step = Put(role: Role, level: int, checked: bool)

  /** `failing`: the trace positions whose pin write reports an error;
      `high`: the trace positions whose sampled pin reads high. */
  datatype Wiring = Wiring(wired: set<Role>, failing: set<nat>, high: set<nat>)

  /** The events a table emits and whether it ran to the end. */
  datatype Run = Run(events: seq<Event>, ok: bool)

  /** Run `a`, and `b` after it unless `a` stopped early. */
  function Then(a: Run, b: Run): Run {
    if a.ok then Run(a.events + b.events, b.ok) else a
  }

  function SampleValue(w: Wiring, k: nat): int {
    if k in w.high then High else Low
  }

  /** The meaning of one step at trace position `n`. */
  function StepRun(w: Wiring, s: Step, n: nat): Run {
    if s.role !in w.wired then Run([], true)
    else Run([Drive(s.role, s.level)], !(s.checked && n in w.failing))
  }

  /** The meaning of a step table started at trace position `n`. */
  function Play(w: Wiring, steps: seq<Step>, n: nat): (r: Run)

    decreases |steps|
  {
    if steps == [] then Run([], true)
    else
      var head := StepRun(w, steps[0], n);
      Then(head, Play(w, steps[1..], n + |head.events|))
  }

  /** The events of a table when every role is wired and no write fails. */
  function Ideal(steps: seq<Step>): seq<Event>
  {
    seq(|steps|, i requires 0 <= i < |steps| => Drive(steps[i].role, steps[i].level))
  }

  /** Every role of the table is wired. */
  predicate AllWired(w: Wiring, steps: seq<Step>) {
    forall i :: 0 <= i < |steps| ==> steps[i].role in w.wired
  }

  lemma ThenAssoc(a: Run, b: Run, c: Run)
    ensures Then(Then(a, b), c) == Then(a, Then(b, c))
  {
  }

  /** Running two tables one after the other is running their concatenation:
      the second starts where the first left off, and only if it finished. */
  lemma {:induction false} PlayAppend(w: Wiring, s1: seq<Step>, s2: seq<Step>, n: nat)
    ensures Play(w, s1 + s2, n) == Then(Play(w, s1, n), Play(w, s2, n + |Play(w, s1, n).events|))
    decreases |s1|
  {
    if s1 == [] {
      assert s1 + s2 == s2;
    } else {
      var head := StepRun(w, s1[0], n);
      var m := n + |head.events|;
      var r1 := Play(w, s1[1..], m);
      var r2 := Play(w, s2, m + |r1.events|);
      assert (s1 + s2)[0] == s1[0] && (s1 + s2)[1..] == s1[1..] + s2;
      PlayAppend(w, s1[1..], s2, m);
      assert Play(w, s1 + s2, n) == Then(head, Play(w, s1[1..] + s2, m));
      assert Play(w, s1, n) == Then(head, r1);
      ThenShift(head, r1, r2, Play(w, s2, n + |Then(head, r1).events|));
    }
  }

  /** Regrouping a run of three parts, where the third only counts if the
      first finished. */
  lemma ThenShift(a: Run, b: Run, c: Run, x: Run)
    requires a.ok ==> x == c
    ensures Then(a, Then(b, c)) == Then(Then(a, b), x)
  {
  }

  /** A failure only cuts the trace short: the events are a prefix of the
      writes to wired pins, all of them when the table finished, and otherwise
      the last event is the write that failed. */
  lemma {:induction false} PlayPrefix(w: Wiring, steps: seq<Step>, n: nat)
    ensures Play(w, steps, n).events <= Emitted(w.wired, steps)
    ensures Play(w, steps, n).ok ==> Play(w, steps, n).events == Emitted(w.wired, steps)
    ensures !Play(w, steps, n).ok ==> EndsInFailure(Play(w, steps, n).events, n, w.failing)
  {
    PlayEmits(w, steps, n);
    PlayFailsLast(w, steps, n);
  }

  lemma {:induction false} PlayEmits(w: Wiring, steps: seq<Step>, n: nat)
    ensures Play(w, steps, n).events <= Emitted(w.wired, steps)
    ensures Play(w, steps, n).ok ==> Play(w, steps, n).events == Emitted(w.wired, steps)
    decreases |steps|
  {
    if steps != [] {
      var head := StepRun(w, steps[0], n);
      var m := n + |head.events|;
      PlayEmits(w, steps[1..], m);
      var tail := Play(w, steps[1..], m);
      if steps[0].role !in w.wired {
        assert Emitted(w.wired, steps) == Emitted(w.wired, steps[1..]);
        assert Play(w, steps, n) == tail;
      } else {
        var d := Drive(steps[0].role, steps[0].level);
        assert Emitted(w.wired, steps) == [d] + Emitted(w.wired, steps[1..]);
        if head.ok {
          assert Play(w, steps, n) == Run([d] + tail.events, tail.ok);
        } else {
          assert Play(w, steps, n) == Run([d], false);
        }
      }
    }
  }

  /** The last event of `e` (started at trace position `n`) is a write that
      failed. */
  ghost predicate EndsInFailure(e: seq<Event>, n: nat, failing: set<nat>) {
    |e| > 0 && e[|e| - 1].Drive? && n + |e| - 1 in failing
  }

  lemma EndsInFailureShift(prefix: seq<Event>, e: seq<Event>, n: nat, m: nat, failing: set<nat>)
    requires m == n + |prefix| && EndsInFailure(e, m, failing)
    ensures EndsInFailure(prefix + e, n, failing)
  {
    assert (prefix + e)[|prefix + e| - 1] == e[|e| - 1];
  }

  lemma {:induction false} PlayFailsLast(w: Wiring, steps: seq<Step>, n: nat)
    ensures !Play(w, steps, n).ok ==> EndsInFailure(Play(w, steps, n).events, n, w.failing)
    decreases |steps|
  {
    if steps != [] {
      var head := StepRun(w, steps[0], n);
      var m := n + |head.events|;
      PlayFailsLast(w, steps[1..], m);
      var tail := Play(w, steps[1..], m);
      if !head.ok {
        assert Play(w, steps, n) == head;
      } else if !tail.ok {
        assert Play(w, steps, n) == Run(head.events + tail.events, false);
        EndsInFailureShift(head.events, tail.events, n, m, w.failing);
      }
    }
  }

  /** The writes of a table that reach a wired pin, in order. */
  function Emitted(wired: set<Role>, steps: seq<Step>): seq<Event> {
    if steps == [] then []
    else if steps[0].role in wired then [Drive(steps[0].role, steps[0].level)] + Emitted(wired, steps[1..])
    else Emitted(wired, steps[1..])
  }

  /** With no failing write, a table emits exactly its writes to wired pins,
      in order, and finishes: a nil pin is silently skipped. */
  lemma {:induction false} PlayReliable(w: Wiring, steps: seq<Step>, n: nat)
    requires forall k :: n <= k < n + |steps| ==> k !in w.failing
    ensures Play(w, steps, n) == Run(Emitted(w.wired, steps), true)
    decreases |steps|
  {
    if steps != [] {
      if steps[0].role in w.wired {
        PlayReliable(w, steps[1..], n + 1);
      } else {
        PlayReliable(w, steps[1..], n);
      }
    }
  }

  /** When every pin of the table is wired, nothing is skipped. */
  lemma {:induction false} EmittedAllWired(wired: set<Role>, steps: seq<Step>)
    requires forall i :: 0 <= i < |steps| ==> steps[i].role in wired
    ensures Emitted(wired, steps) == Ideal(steps)
    decreases |steps|
  {
    if steps != [] {
      EmittedAllWired(wired, steps[1..]);
      assert Ideal(steps) == [Drive(steps[0].role, steps[0].level)] + Ideal(steps[1..]);
    }
  }

  lemma {:induction false} EmittedAppend(wired: set<Role>, a: seq<Step>, b: seq<Step>)
    ensures Emitted(wired, a + b) == Emitted(wired, a) + Emitted(wired, b)
    decreases |a|
  {
    if a == [] {
      assert a + b == b;
    } else {
      assert (a + b)[0] == a[0] && (a + b)[1..] == a[1..] + b;
      EmittedAppend(wired, a[1..], b);
    }
  }

  lemma IdealAppend(a: seq<Step>, b: seq<Step>)
    ensures Ideal(a + b) == Ideal(a) + Ideal(b)
  {
  }


  /** A table whose write errors are all ignored always finishes, and emits
      its writes to the wired pins in order whatever fails. */
  lemma {:induction false} PlayUnchecked(w: Wiring, steps: seq<Step>, n: nat)
    requires forall i :: 0 <= i < |steps| ==> !steps[i].checked
    ensures Play(w, steps, n) == Run(Emitted(w.wired, steps), true)
    decreases |steps|
  {
    if steps != [] {
      if steps[0].role in w.wired {
        PlayUnchecked(w, steps[1..], n + 1);
      } else {
        PlayUnchecked(w, steps[1..], n);
      }
    }
  }

  /** No event ever names an unwired role. */
  lemma {:induction false} PlayOnlyWired(w: Wiring, steps: seq<Step>, n: nat)
    ensures forall i :: 0 <= i < |Play(w, steps, n).events| ==> Play(w, steps, n).events[i].role in w.wired
    decreases |steps|
  {
    if steps != [] {
      var m := if steps[0].role in w.wired then n + 1 else n;
      PlayOnlyWired(w, steps[1..], m);
    }
  }

  /** Number of writes of `level` to `role` in a table. */
  function CountPuts(steps: seq<Step>, role: Role, level: int): nat {
    multiset(Ideal(steps))[Drive(role, level)]
  }

  lemma CountPutsAppend(a: seq<Step>, b: seq<Step>, role: Role, level: int)
    ensures CountPuts(a + b, role, level) == CountPuts(a, role, level) + CountPuts(b, role, level)
  {
    IdealAppend(a, b);
  }

  /** The events of `k` performances of a table, each made whether or not the
      previous one failed. */
  function Repeat(w: Wiring, steps: seq<Step>, k: nat, n: nat): seq<Event> {
    if k == 0 then []
    else
      var before := Repeat(w, steps, k - 1, n);
      before + Play(w, steps, n + |before|).events
  }

  /** `k` copies of an event sequence. */
  function Copies(e: seq<Event>, k: nat): seq<Event> {
    if k == 0 then [] else Copies(e, k - 1) + e
  }

  /** With every role wired and no failing write, repeating a write table
      emits exactly `k` copies of its writes. */
  lemma {:induction false} RepeatIdeal(w: Wiring, steps: seq<Step>, k: nat, n: nat)
    requires AllWired(w, steps)
    requires w.failing == {}
    ensures Repeat(w, steps, k, n) == Copies(Ideal(steps), k)
    ensures |Repeat(w, steps, k, n)| == k * |steps|
  {
    if k > 0 {
      var before := Repeat(w, steps, k - 1, n);
      RepeatIdeal(w, steps, k - 1, n);
      PlayReliable(w, steps, n + |before|);
      EmittedAllWired(w.wired, steps);
      assert Repeat(w, steps, k, n) == before + Ideal(steps);
      assert k * |steps| == (k - 1) * |steps| + |steps|;
    }
  }

  /** The byte with only bit `i` set. */
  function BitMask(i: nat): bv8
    requires i < 8
  {
    match i
    case 0 => 0x01
    case 1 => 0x02
    case 2 => 0x04
    case 3 => 0x08
    case 4 => 0x10
    case 5 => 0x20
    case 6 => 0x40
    case _ => 0x80
  }

  /** Level of bit `i` of a byte: `(v >> i) & 1`. */
  function Level(v: bv8, i: nat): int
    requires i < 8
  {
    if v & BitMask(i) == 0 then Low else High
  }

  /** The level a data-line event sets its line to, as a bit of the byte on
      the bus. */
  function LineBit(e: Event): bv8 {
    if e.Drive? && e.role.DB? && e.role.bit < 8 && e.level == High then BitMask(e.role.bit) else 0
  }

  /** The byte eight data-line writes put on the bus, each line written once,
      starting from all lines low. */
  function Lines8(e: seq<Event>): bv8
    requires |e| == 8
  {
    LineBit(e[0]) | LineBit(e[1]) | LineBit(e[2]) | LineBit(e[3])
    | LineBit(e[4]) | LineBit(e[5]) | LineBit(e[6]) | LineBit(e[7])
  }

  /** A table that never writes `role` counts no write of it. */
  lemma CountPutsNone(steps: seq<Step>, role: Role, level: int)
    requires forall i :: 0 <= i < |steps| ==> steps[i].role != role
    ensures CountPuts(steps, role, level) == 0
  {
    assert Drive(role, level) !in Ideal(steps);
  }


  /** One more repetition of a table, performed at the end of the trace. */
  lemma RepeatNext(w: Wiring, steps: seq<Step>, k: nat, t1: seq<Event>, t: seq<Event>, t2: seq<Event>)
    requires t == t1 + Repeat(w, steps, k, |t1|)
    requires t2 == t + Play(w, steps, |t|).events
    ensures t2 == t1 + Repeat(w, steps, k + 1, |t1|)
  {
  }

  /** Performing `steps` from trace `before` leads to trace `after` with
      outcome `ok`. */
  ghost predicate Ran(w: Wiring, before: seq<Event>, steps: seq<Step>, after: seq<Event>, ok: bool) {
    var r := Play(w, steps, |before|);
    after == before + r.events && ok == r.ok
  }

  /** `c` performed `steps` from trace `before`, with outcome `ok`. */
  ghost predicate Did(c: Connection, before: seq<Event>, steps: seq<Step>, ok: bool)
    reads c
  {
    Ran(c.wiring, before, steps, c.trace, ok)
  }

  /** Nothing performed, nothing changed. */
  lemma RanNothing(w: Wiring, t: seq<Event>)
    ensures Ran(w, t, [], t, true)
  {
  }

  /** A call made after a run that finished extends it by the call's table. */
  lemma RanThen(w: Wiring, t0: seq<Event>, done: seq<Step>, t1: seq<Event>,
                next: seq<Step>, t2: seq<Event>, ok: bool)
    requires Ran(w, t0, done, t1, true) && Ran(w, t1, next, t2, ok)
    ensures Ran(w, t0, done + next, t2, ok)
  {
    PlayAppend(w, done, next, |t0|);
    ChainRuns(t0, Play(w, done, |t0|), t1, Play(w, next, |t1|), t2);
  }

  lemma ChainRuns(t0: seq<Event>, r1: Run, t1: seq<Event>, r2: Run, t2: seq<Event>)
    requires t1 == t0 + r1.events && r1.ok && t2 == t1 + r2.events
    ensures t2 == t0 + Then(r1, r2).events && Then(r1, r2).ok == r2.ok
  {
  }

  /** After a run that failed, the calls that follow are not made. */
  lemma RanStop(w: Wiring, t0: seq<Event>, done: seq<Step>, t: seq<Event>, rest: seq<Step>)
    requires Ran(w, t0, done, t, false)
    ensures Ran(w, t0, done + rest, t, false)
  {
    PlayAppend(w, done, rest, |t0|);
    assert Play(w, done + rest, |t0|) == Play(w, done, |t0|);
  }

  /** The recorder of one bus: the pins it drives and what happened on them. */
  class Connection {
    const wiring: Wiring
    var trace: seq<Event>

    constructor (wiring: Wiring)
      ensures this.wiring == wiring && trace == []
    {
      this.wiring := wiring;
      trace := [];
    }

    /** Drive one pin; a nil (unwired) pin is skipped and reports success. */
    method Write(role: Role, level: int) returns (ok: bool)
      modifies this
      ensures role in wiring.wired ==>
        trace == old(trace) + [Drive(role, level)] && ok == (|old(trace)| !in wiring.failing)
      ensures role !in wiring.wired ==> trace == old(trace) && ok
    {
      if role in wiring.wired {
        ok := |trace| !in wiring.failing;
        trace := trace + [Drive(role, level)];
      } else {
        ok := true;
      }
    }

    /** Sample one pin; a nil (unwired) pin reads Low. */
    method Read(role: Role) returns (v: int)
      modifies this
      ensures role in wiring.wired ==>
        v == SampleValue(wiring, |old(trace)|) && trace == old(trace) + [Sample(role, v)]
      ensures role !in wiring.wired ==> trace == old(trace) && v == Low
    {
      if role in wiring.wired {
        v := SampleValue(wiring, |trace|);
        trace := trace + [Sample(role, v)];
      } else {
        v := Low;
      }
    }

    /** Perform one step. */
    method Perform(s: Step) returns (r: Run)
      modifies this
      ensures r == StepRun(wiring, s, |old(trace)|)
      ensures trace == old(trace) + r.events
    {
      var n := |trace|;
      var wrote := Write(s.role, s.level);
      r := Run(trace[n..], !(s.checked && !wrote));
    }

    /** Perform a step table, returning on the first failing checked write. */
    method Transfer(steps: seq<Step>) returns (ok: bool)
      modifies this
      ensures trace == old(trace) + Play(wiring, steps, |old(trace)|).events
      ensures ok == Play(wiring, steps, |old(trace)|).ok
      decreases |steps|
    {
      if steps == [] {
        return true;
      }
      ghost var n := |trace|;
      var head := Perform(steps[0]);
      ghost var tail := Play(wiring, steps[1..], n + |head.events|);
      assert Play(wiring, steps, n) == Then(head, tail);
      if !head.ok {
        return false;
      }
      ok := Transfer(steps[1..]);
      assert trace == old(trace) + (head.events + tail.events);
    }
  }
}

/** The fixed-rate repeater for Bluetooth sources (src/proxy/repeat.rs). */
module Repeat {
  import opened Arith
  import opened Model

  datatype RepeatMode = Passthrough | SeqOnly | SeqAndTimestamp

  datatype RepeatTarget = Ds5Usb | Ds4Usb

  type Bytes = seq<Byte>

  datatype Repeater = Repeater(
    interval: nat, delta: nat, mode: RepeatMode, target: RepeatTarget,
    nextTick: Option<Time>, lastReport: Option<Bytes>)

  const TWO_TO_32: nat := 0x1_0000_0000

  // ------------------------------------------------------------ report fields

  /** The little-endian sensor timestamp of a DS5 USB report. */
  function Timestamp(report: Bytes): (t: nat)
    requires |report| >= 32
    ensures t < TWO_TO_32
  {
    report[28] as nat + report[29] as nat * 0x100 + report[30] as nat * 0x1_0000 + report[31] as nat * 0x100_0000
  }

  function LittleEndian(t: nat): (r: Bytes)
    requires t < TWO_TO_32
    ensures |r| == 4
  {
    [(t % 0x100) as Byte, (t / 0x100 % 0x100) as Byte, (t / 0x1_0000 % 0x100) as Byte, (t / 0x100_0000) as Byte]
  }

  lemma LittleEndianValue(t: nat)
    requires t < TWO_TO_32
    ensures var r := LittleEndian(t);
            r[0] as nat + r[1] as nat * 0x100 + r[2] as nat * 0x1_0000 + r[3] as nat * 0x100_0000 == t
  {
    var a, b, c := t / 0x100, t / 0x1_0000, t / 0x100_0000;
    assert t == a * 0x100 + t % 0x100;
    assert a == b * 0x100 + a % 0x100;
    assert b == c * 0x100 + b % 0x100;
  }

  function PutTimestamp(report: Bytes, t: nat): (r: Bytes)
    requires |report| >= 32 && t < TWO_TO_32
    ensures |r| == |report| && Timestamp(r) == t
    ensures r[..28] == report[..28] && r[32..] == report[32..]
  {
    LittleEndianValue(t);
    report[..28] + LittleEndian(t) + report[32..]
  }

  function NextByte(b: Byte): Byte {
    ((b as nat + 1) % 256) as Byte
  }

  /** What a runtime refresh must not disturb: the repeater's own counters. */
  function Preserve(previous: Bytes, updated: Bytes, mode: RepeatMode, target: RepeatTarget): Bytes {
    match target
    case Ds5Usb =>
      if |previous| < 32 || |updated| < 32 then updated
      else if mode.SeqAndTimestamp? then PutTimestamp(updated[7 := previous[7]], Timestamp(previous))
      else updated[7 := previous[7]]
    case Ds4Usb =>
      if |previous| < 35 || |updated| < 35 then updated
      else
        updated[7 := (updated[7] as nat % 4 + previous[7] as nat / 4 * 4) as Byte]
               [10 := previous[10]][11 := previous[11]][34 := previous[34]]
  }

  /** One emission's change to the report and to the sequence counter. */
  function Advanced(report: Bytes, seqNo: Byte, delta: nat, mode: RepeatMode, target: RepeatTarget): (Bytes, Byte) {
    match target
    case Ds5Usb =>
      if |report| < 32 then (report, seqNo) else
      var n := NextByte(seqNo);
      var numbered := report[7 := n];
      if mode.SeqOnly? then (numbered, n)
      else (PutTimestamp(numbered, (Timestamp(report) + delta) % TWO_TO_32), n)
    case Ds4Usb =>
      if |report| < 35 then (report, seqNo) else
      var n := (NextByte(seqNo) as nat % 64) as Byte;
      (report[7 := (report[7] as nat % 4 + n as nat * 4) as Byte][10 := n][11 := 0][34 := n], n)
  }

  function FirstFuture(deadline: Time, now: Time, interval: nat): Time
    requires interval > 0
  {
    var remainder := Since(now, deadline) % interval;
    now + if remainder == 0 then interval else interval - remainder
  }

  /** The next deadline is the first grid point after `now`. */
  lemma FirstFutureOnGrid(deadline: Time, now: Time, interval: nat)
    requires interval > 0 && deadline <= now
    ensures var next := FirstFuture(deadline, now, interval);
            && next == deadline + Floor(now - deadline, interval) + interval
            && now < next <= now + interval
  {
  }

  // ------------------------------------------------------------- operations

  predicate WellFormed(r: Repeater) {
    r.interval > 0 && r.delta < TWO_TO_32 && (r.nextTick.Some? <==> r.lastReport.Some?)
  }

  function Stored(r: Repeater, report: Bytes, now: Time): Repeater {
    r.(nextTick := if r.lastReport.None? || r.nextTick.None? then Some(now) else r.nextTick,
       lastReport := Some(report))
  }

  function Refreshed(r: Repeater, report: Bytes): Repeater
    requires r.lastReport.Some?
  {
    r.(lastReport := Some(Preserve(r.lastReport.value, report, r.mode, r.target)))
  }

  function Cleared(r: Repeater): Repeater {
    r.(nextTick := None, lastReport := None)
  }

  datatype Prepared = Prepared(repeater: Repeater, seqNo: Byte, report: Option<Bytes>)

  function Prepare(r: Repeater, now: Time, seqNo: Byte): Prepared
    requires r.interval > 0
  {
    if NoneDueBy(r.nextTick, now) then Prepared(r, seqNo, None) else
    var ticked := r.(nextTick := Some(FirstFuture(r.nextTick.value, now, r.interval)));
    if r.lastReport.None? then Prepared(ticked, seqNo, None) else
    var (report, n) := Advanced(r.lastReport.value, seqNo, r.delta, r.mode, r.target);
    Prepared(ticked.(lastReport := Some(report)), n, Some(report))
  }

  class RepeatInput {
    const interval: nat
    const delta: nat
    const mode: RepeatMode
    const target: RepeatTarget
    var nextTick: Option<Time>
    var lastReport: Option<Bytes>

    function View(): Repeater
      reads this
    {
      Repeater(interval, delta, mode, target, nextTick, lastReport)
    }

    /** `hz` has passed the 1..=2000 range check of the environment parser. */
    constructor (hz: nat, mode: RepeatMode, target: RepeatTarget)
      requires 1 <= hz <= 2000
      ensures WellFormed(View()) && View() == Cleared(View())
      ensures View().mode == mode && View().target == target
      ensures interval * hz <= 1_000_000_000 < interval * hz + hz
      ensures delta == if interval / 333 < 1 then 1 else interval / 333
    {
      this.mode, this.target := mode, target;
      var period := 1_000_000_000 / hz;
      DivMod(1_000_000_000, hz);
      QuotientBelow(1_000_000_000, hz, 1);
      interval := period;
      delta := if period / 333 < 1 then 1 else period / 333;
      QuotientAtMost(1_000_000_000, hz);
      nextTick, lastReport := None, None;
    }

    method StoreSource(report: Bytes, now: Time)
      modifies this
      ensures View() == Stored(old(View()), report, now)
    {
      if lastReport.None? || nextTick.None? {
        nextTick := Some(now);
      }
      lastReport := Some(report);
    }

    /** The source unwraps the cached report here; the precondition is that unwrap. */
    method StoreRuntime(report: Bytes)
      requires lastReport.Some?
      modifies this
      ensures View() == Refreshed(old(View()), report)
    {
      var updated := Preserve(lastReport.value, report, mode, target);
      lastReport := Some(updated);
    }

    method PrepareReport(now: Time, seqNo: Byte) returns (report: Option<Bytes>, seqNo': Byte)
      requires interval > 0
      modifies this
      ensures Prepared(View(), seqNo', report) == Prepare(old(View()), now, seqNo)
    {
      report, seqNo' := None, seqNo;
      if nextTick.None? {
        return;
      }
      var deadline := nextTick.value;
      if now < deadline {
        return;
      }
      nextTick := Some(FirstFuture(deadline, now, interval));
      if lastReport.None? {
        return;
      }
      var bytes;
      bytes, seqNo' := AdvanceReport(lastReport.value, seqNo, delta, mode, target);
      lastReport := Some(bytes);
      report := lastReport;
    }

    method Clear()
      modifies this
      ensures View() == Cleared(old(View()))
    {
      nextTick, lastReport := None, None;
    }
  }

  /** The in-place field updates of one emission, applied to a copy of the report. */
  method AdvanceReport(report: Bytes, seqNo: Byte, delta: nat, mode: RepeatMode, target: RepeatTarget)
    returns (report': Bytes, seqNo': Byte)
    ensures (report', seqNo') == Advanced(report, seqNo, delta, mode, target)
  {
    report', seqNo' := report, seqNo;
    match target {
      case Ds5Usb =>
        if |report| < 32 {
          return;
        }
        seqNo' := NextByte(seqNo);
        report' := report'[7 := seqNo'];
        if mode.SeqOnly? {
          return;
        }
        var timestamp := (Timestamp(report') + delta) % TWO_TO_32;
        report' := PutTimestamp(report', timestamp);
      case Ds4Usb =>
        if |report| < 35 {
          return;
        }
        seqNo' := (NextByte(seqNo) as nat % 64) as Byte;
        report' := report'[7 := (report'[7] as nat % 4 + seqNo' as nat * 4) as Byte];
        report' := report'[10 := seqNo'][11 := 0];
        report' := report'[34 := seqNo'];
    }
  }

  // --------------------------------------------------------- whole cadences

  /** `Counted` is a controller read that uses up a number of the shared sequence counter. */
  datatype RepeatOp =
    | FromSource(report: Bytes, at: Time)
    | FromRuntime(report: Bytes, at: Time)
    | Counted(at: Time)
    | Tick(at: Time)

  /** A repeater, the shared sequence counter and everything emitted so far. */
  datatype Cadence = Cadence(repeater: Repeater, seqNo: Byte, emitted: seq<Bytes>)

  predicate Started(c: Cadence) {
    WellFormed(c.repeater) && c.repeater.lastReport.Some?
  }

  function Act(c: Cadence, op: RepeatOp): (c': Cadence)
    requires Started(c)
    ensures Started(c')
  {
    match op
    case FromSource(report, at) => c.(repeater := Stored(c.repeater, report, at))
    case Counted(at) => c.(seqNo := NextByte(c.seqNo))
    case FromRuntime(report, at) => c.(repeater := Refreshed(c.repeater, report))
    case Tick(at) =>
      var p := Prepare(c.repeater, at, c.seqNo);
      Cadence(p.repeater, p.seqNo, if p.report.Some? then c.emitted + [p.report.value] else c.emitted)
  }

  function Play(c: Cadence, ops: seq<RepeatOp>): (c': Cadence)
    requires Started(c)
    ensures Started(c')
  {
    if ops == [] then c else Act(Play(c, ops[..|ops| - 1]), ops[|ops| - 1])
  }

  /** The cadence that the first source report after a clear starts at `t0`. */
  predicate Begins(c: Cadence, t0: Time) {
    Started(c) && c.repeater.nextTick == Some(t0)
  }

  predicate Ordered(ops: seq<RepeatOp>, from: Time) {
    forall i :: 0 <= i < |ops| ==> from <= ops[i].at && forall j :: 0 <= j < i ==> ops[j].at <= ops[i].at
  }

  function LastTime(ops: seq<RepeatOp>, t0: Time): Time {
    if ops == [] then t0 else ops[|ops| - 1].at
  }

  /** Every deadline is a whole number `k` of intervals after the first, and at most `k` more reports went out. */
  lemma {:induction false} CadenceGrid(c: Cadence, t0: Time, ops: seq<RepeatOp>) returns (k: nat)
    requires Begins(c, t0) && Ordered(ops, t0)
    ensures Play(c, ops).repeater.interval == c.repeater.interval
    ensures Play(c, ops).repeater.nextTick == Some(t0 + k * c.repeater.interval)
    ensures |c.emitted| <= |Play(c, ops).emitted| <= |c.emitted| + k
    ensures k > 0 ==> t0 + k * c.repeater.interval <= LastTime(ops, t0) + c.repeater.interval
  {
    k := 0;
    if ops != [] {
      hide Act, Begins, Started, Ordered;
      var init, last := ops[..|ops| - 1], ops[|ops| - 1];
      OrderedInit(ops, t0);
      var j := CadenceGrid(c, t0, init);
      assert Play(c, ops) == Act(Play(c, init), last);
      k := ActOnGrid(Play(c, init), last, t0, j);
    }
  }

  lemma OrderedInit(ops: seq<RepeatOp>, t0: Time)
    requires ops != [] && Ordered(ops, t0)
    ensures Ordered(ops[..|ops| - 1], t0) && LastTime(ops[..|ops| - 1], t0) <= ops[|ops| - 1].at
  {
  }

  /** One operation stays on the grid; only an emission needs a new grid point. */
  lemma ActOnGrid(c: Cadence, op: RepeatOp, t0: Time, j: nat) returns (k: nat)
    requires Started(c) && c.repeater.nextTick == Some(t0 + j * c.repeater.interval)
    ensures var c' := Act(c, op);
            && c'.repeater.interval == c.repeater.interval
            && c'.repeater.nextTick == Some(t0 + k * c.repeater.interval)
            && |c.emitted| <= |c'.emitted| <= |c.emitted| + k - j
    ensures k == j || (k > j && t0 + k * c.repeater.interval <= op.at + c.repeater.interval)
  {
    hide Advanced, Preserve, FirstFuture;
    k := j;
    if op.Tick? && c.repeater.nextTick.value <= op.at {
      k := NextOnGrid(t0, j, op.at, c.repeater.interval);
    }
  }

  lemma NextOnGrid(t0: Time, j: nat, now: Time, interval: nat) returns (k: nat)
    requires interval > 0 && t0 + j * interval <= now
    ensures k > j && FirstFuture(t0 + j * interval, now, interval) == t0 + k * interval
    ensures t0 + k * interval <= now + interval
  {
    var deadline := t0 + j * interval;
    var q := (now - deadline) / interval;
    k := j + q + 1;
    DivMod(now - deadline, interval);
    FirstFutureOnGrid(deadline, now, interval);
    assert k * interval == j * interval + q * interval + interval;
  }

  lemma OneLess(k: nat, d: nat)
    requires k > 0
    ensures k * d == (k - 1) * d + d
  {
  }

  /** The rate bound: by time `now`, at most one report per elapsed interval, plus the first. */
  lemma RateBound(c: Cadence, t0: Time, ops: seq<RepeatOp>, now: Time)
    requires Begins(c, t0) && Ordered(ops, t0) && LastTime(ops, t0) <= now
    ensures |Play(c, ops).emitted| - |c.emitted| <= (now - t0) / c.repeater.interval + 1
  {
    var k := CadenceGrid(c, t0, ops);
    if k > 0 {
      OneLess(k, c.repeater.interval);
      QuotientAtLeast(now - t0, c.repeater.interval, k - 1);
    }
  }

  predicate NoSource(ops: seq<RepeatOp>) {
    forall i :: 0 <= i < |ops| ==> !ops[i].FromSource?
  }

  predicate FullReports(ops: seq<RepeatOp>) {
    forall i :: 0 <= i < |ops| && ops[i].FromRuntime? ==> |ops[i].report| >= 32
  }

  /** The source timestamp plus `n` deltas, wrapped to 32 bits. */
  function NthStamp(stamp: nat, n: nat, delta: nat): nat {
    (stamp + n * delta) % TWO_TO_32
  }

  lemma NextStamp(stamp: nat, n: nat, delta: nat)
    ensures (NthStamp(stamp, n, delta) + delta) % TWO_TO_32 == NthStamp(stamp, n + 1, delta)
  {
    OneLess(n + 1, delta);
    WrapTwice(stamp + n * delta, delta);
  }

  lemma WrapTwice(x: nat, d: nat)
    ensures (x % TWO_TO_32 + d) % TWO_TO_32 == (x + d) % TWO_TO_32
  {
  }

  /** `n` reports after a source report stamped `stamp`, the cached report carries the nth stamp. */
  predicate Carries(c: Cadence, stamp: nat, n: nat) {
    && Started(c)
    && c.repeater.mode == SeqAndTimestamp && c.repeater.target == Ds5Usb
    && |c.repeater.lastReport.value| >= 32
    && Timestamp(c.repeater.lastReport.value) == NthStamp(stamp, n, c.repeater.delta)
  }

  lemma ActCarries(c: Cadence, op: RepeatOp, stamp: nat, n: nat)
    requires Carries(c, stamp, n) && !op.FromSource? && (op.FromRuntime? ==> |op.report| >= 32)
    ensures var c' := Act(c, op);
            if |c'.emitted| == |c.emitted| then Carries(c', stamp, n) && c'.emitted == c.emitted
            else Carries(c', stamp, n + 1) && c'.emitted == c.emitted + [c'.repeater.lastReport.value]
  {
    NextStamp(stamp, n, c.repeater.delta);
  }

  /** In `seq_ts` mode the nth report since a source report carries its timestamp plus n deltas. */
  lemma {:induction false} NthTimestamp(c: Cadence, stamp: nat, ops: seq<RepeatOp>)
    requires Carries(c, stamp, 0) && NoSource(ops) && FullReports(ops)
    ensures var c' := Play(c, ops);
            && c.emitted <= c'.emitted
            && Carries(c', stamp, |c'.emitted| - |c.emitted|)
            && c'.repeater.delta == c.repeater.delta
            && forall i :: |c.emitted| <= i < |c'.emitted| ==>
                 |c'.emitted[i]| >= 32
                 && Timestamp(c'.emitted[i]) == NthStamp(stamp, i + 1 - |c.emitted|, c.repeater.delta)
  {
    if ops != [] {
      var init, last := ops[..|ops| - 1], ops[|ops| - 1];
      NthTimestamp(c, stamp, init);
      ActCarries(Play(c, init), last, stamp, |Play(c, init).emitted| - |c.emitted|);
    }
  }
}

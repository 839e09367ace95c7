/** Which reports the virtual device gets, and what is in them (src/proxy/mod.rs, src/proxy/repeat.rs). */
module Delivery {
  import opened Arith
  import opened Model
  import opened Mapping
  import opened Runtime
  import opened Pipeline
  import opened PipelineRuns
  import opened Layers
  import opened Repeat
  import opened Session
  import Codec
  import Wire = WireFormat

  // ------------------------------------------------- the repeater's own fields

  /** The bytes of a report that are wholly the repeater's: counters, and on a DS5 the generated sensor time. */
  predicate Owned(i: nat, mode: RepeatMode, target: RepeatTarget) {
    match target
    case Ds5Usb => i == 7 || (!mode.SeqOnly? && 28 <= i < 32)
    case Ds4Usb => i == 10 || i == 11 || i == 34
  }

  /** `report` agrees with `source` outside the repeater's fields; a DS4 counter leaves the low two bits of byte 7. */
  predicate Carried(report: Bytes, source: Bytes, mode: RepeatMode, target: RepeatTarget) {
    && |report| == |source|
    && (forall i :: 0 <= i < |report| && !Owned(i, mode, target) && !(target.Ds4Usb? && i == 7) ==> report[i] == source[i])
    && (target.Ds4Usb? && |report| > 7 ==> report[7] as nat % 4 == source[7] as nat % 4)
  }

  /** The sequence number goes up by one, to 8 or 6 bits, and the report shows it. */
  predicate Numbered(report: Bytes, before: Byte, after: Byte, target: RepeatTarget) {
    match target
    case Ds5Usb =>
      if |report| < 32 then after == before
      else after as nat == (before as nat + 1) % 256 && report[7] == after
    case Ds4Usb =>
      if |report| < 35 then after == before
      else
        && after as nat == (before as nat + 1) % 64
        && report[7] as nat / 4 == after as nat && report[10] == after && report[11] == 0 && report[34] == after
  }

  /** The sensor clock, in thirds of a microsecond: bytes 28 to 31, little-endian. */
  function SensorTime(report: Bytes): nat
    requires |report| >= 32
  {
    report[28] as nat + 0x100 * report[29] as nat + 0x1_0000 * report[30] as nat + 0x100_0000 * report[31] as nat
  }

  /** In `seq_ts` mode a DS5 report's sensor time is the last one's plus the delta, wrapped to 32 bits. */
  predicate Stamped(report: Bytes, last: Bytes, delta: nat, mode: RepeatMode, target: RepeatTarget) {
    target.Ds5Usb? && mode.SeqAndTimestamp? && |report| >= 32 && |last| >= 32 ==>
      SensorTime(report) == (SensorTime(last) + delta) % 0x1_0000_0000
  }

  /** The repeater's fields are those of the last report. */
  predicate Kept(report: Bytes, last: Bytes, mode: RepeatMode, target: RepeatTarget) {
    match target
    case Ds5Usb =>
      |report| >= 32 && |last| >= 32 ==>
        report[7] == last[7] && (mode.SeqAndTimestamp? ==> SensorTime(report) == SensorTime(last))
    case Ds4Usb =>
      |report| >= 35 && |last| >= 35 ==>
        && report[7] as nat / 4 == last[7] as nat / 4
        && report[10] == last[10] && report[11] == last[11] && report[34] == last[34]
  }

  /** `next` is the first point after `now` of the grid that `deadline` is on. */
  predicate NextPoint(deadline: Time, next: Time, now: Time, interval: nat)
    requires interval > 0
  {
    now < next <= now + interval && deadline <= next && (next - deadline) % interval == 0
  }

  lemma CarriedSame(report: Bytes, mode: RepeatMode, target: RepeatTarget)
    ensures Carried(report, report, mode, target)
  {
  }

  lemma CarriedThrough(a: Bytes, b: Bytes, c: Bytes, mode: RepeatMode, target: RepeatTarget)
    requires Carried(a, b, mode, target) && Carried(b, c, mode, target)
    ensures Carried(a, c, mode, target)
  {
  }

  lemma RefreshLaw(previous: Bytes, updated: Bytes, mode: RepeatMode, target: RepeatTarget)
    ensures var r := Preserve(previous, updated, mode, target);
            Carried(r, updated, mode, target) && Kept(r, previous, mode, target)
  {
    hide PutTimestamp;
  }

  lemma AdvanceLaw(report: Bytes, n: Byte, delta: nat, mode: RepeatMode, target: RepeatTarget)
    ensures var (r, n') := Advanced(report, n, delta, mode, target);
            && |r| == |report| && Carried(r, report, mode, target)
            && Numbered(r, n, n', target) && Stamped(r, report, delta, mode, target)
  {
    hide PutTimestamp;
  }

  lemma NextMultiple(x: nat, d: nat)
    requires d > 0 && x % d == 0
    ensures (x + d) % d == 0
  {
    DivMod(x, d);
    QuotientUnique(x + d, d, x / d + 1);
    DivMod(x + d, d);
  }

  lemma GridLaw(deadline: Time, now: Time, interval: nat)
    requires interval > 0 && deadline <= now
    ensures NextPoint(deadline, FirstFuture(deadline, now, interval), now, interval)
  {
    hide Floor, FirstFuture;
    var floor := Floor(now - deadline, interval);
    FirstFutureOnGrid(deadline, now, interval);
    MultipleHasNoRemainder(now - deadline, interval);
    NextMultiple(floor, interval);
    assert FirstFuture(deadline, now, interval) - deadline == floor + interval;
  }

  // ------------------------------------------------------ what a report shows

  /** What presses a button in the output. */
  ghost predicate AsksFor(b: Button, rules: seq<RemapRule>, l1: GamepadState, view: Runtimes) {
    || TargetsButton(b, rules, l1)
    || ComboAsks(view.combo, b)
    || PlaysButton(view.macros, b)
    || (l1.Pressed(b) && !Mapping.FromSource(b, rules, l1))
  }

  /** The state has the buttons, triggers and sticks that the first layer, rules, combos and macros ask for. */
  ghost predicate Meets(st: GamepadState, rules: seq<RemapRule>, l1: GamepadState, view: Runtimes) {
    && (forall b :: st.Pressed(b) <==> AsksFor(b, rules, l1, view))
    && TriggerShown(st.l2Analog, rules, l1, view.combo, TriggerL2, l1.l2Analog)
    && TriggerShown(st.r2Analog, rules, l1, view.combo, TriggerR2, l1.r2Analog)
    && (forall axis :: StickShown(st.Stick(axis), rules, l1, view.combo, axis))
  }

  /** The report is this frame, numbered `n`, with its state replaced by one that shows what is asked for. */
  ghost predicate Made(codecs: Codecs, rules: seq<RemapRule>, report: Bytes, frame: ControllerFrame, n: Byte,
                       l1: GamepadState, view: Runtimes) {
    exists st :: Meets(st, rules, l1, view) && report == codecs.encode(frame.(state := st), n)
  }

  function NumberAfter(n: Byte): (n': Byte)
    ensures n' as nat == (n as nat + 1) % 256
  {
    if n == 255 then 0 else n + 1
  }

  /** The state that a transform gives is one that shows what is asked for. */
  lemma TransformMade(codecs: Codecs, mapping: MappingConfig, frame: ControllerFrame, r: Runtimes, n: Byte, now: Time,
                      observe: bool)
    requires RuntimesOk(r, mapping)
    ensures var o := Transform(frame, mapping, r, now, observe);
            Made(codecs, mapping.rules, codecs.encode(frame.(state := o.output.state), n), frame, n,
                 Filter(frame, mapping, r, now, observe).l1, o.runtimes)
  {
    TransformPointwise(frame, mapping, r, now, observe);
    hide Transform, Filter, RuntimesOk, TargetsButton, ComboAsks, PlaysButton, Mapping.FromSource, TriggerShown, StickShown;
    assert Meets(Transform(frame, mapping, r, now, observe).output.state, mapping.rules,
                 Filter(frame, mapping, r, now, observe).l1, Transform(frame, mapping, r, now, observe).runtimes);
  }

  // ------------------------------------------------------------ one input

  /**
   * A decoded frame uses up one sequence number and makes one report. Without a repeater that report is
   * sent, at once and alone; with one it is cached, and starts the schedule if none is running.
   */
  lemma FrameDelivered(codecs: Codecs, mapping: MappingConfig, s: Surface, bytes: Bytes, at: Time) returns (report: Bytes)
    requires Sound(s, mapping) && Decodes(codecs, bytes)
    ensures var frame, s' := codecs.decode(bytes).value, HasRead(codecs, mapping, s, bytes, at);
            && Made(codecs, mapping.rules, report, frame, NumberAfter(s.seqNo),
                    Filter(frame, mapping, s.view, at, true).l1, s'.view)
            && s'.frame == Some(frame) && s'.seqNo == NumberAfter(s.seqNo)
            && (s.repeater.None? ==> s'.repeater.None? && s'.sent == s.sent + [report])
            && (s.repeater.Some? ==>
                  var r := s.repeater.value;
                  && s'.sent == s.sent
                  && s'.repeater == Some(r.(lastReport := Some(report),
                                            nextTick := if r.nextTick.None? then Some(at) else r.nextTick)))
  {
    var frame := codecs.decode(bytes).value;
    TransformMade(codecs, mapping, frame, s.view, NumberAfter(s.seqNo), at, true);
    hide Made, Transform, Filter, RuntimesOk, MappingSafe;
    report := Encoded(codecs, mapping, s.(seqNo := NextByte(s.seqNo)), frame, at, true);
  }

  /** Any other read makes no report: a full-sized one still uses up a sequence number. */
  lemma NothingDelivered(codecs: Codecs, mapping: MappingConfig, s: Surface, bytes: Bytes, at: Time)
    requires Sound(s, mapping) && !Decodes(codecs, bytes)
    ensures HasRead(codecs, mapping, s, bytes, at) == if |bytes| < codecs.inputSize then s else s.(seqNo := NumberAfter(s.seqNo))
  {
  }

  /**
   * What a tick does to the repeater: it sends one report exactly when its deadline has come, moves the
   * deadline to the next point of its grid, and sends nothing and counts nothing otherwise. The report
   * is the latest one, refreshed by `replay` if there is one, with only the repeater's fields changed.
   */
  predicate Repeats(s: Surface, s': Surface, replay: Option<Bytes>, now: Time)
    requires s.repeater.Some? && s.repeater.value.interval > 0 && s'.repeater.Some?
  {
    var r, r' := s.repeater.value, s'.repeater.value;
    && r' == r.(nextTick := r'.nextTick, lastReport := r'.lastReport)
    && (r'.lastReport.Some? <==> r.lastReport.Some?) && (r'.nextTick.Some? <==> r.nextTick.Some?)
    && (r.lastReport.Some? ==>
          Carried(r'.lastReport.value, if replay.Some? then replay.value else r.lastReport.value, r.mode, r.target))
    && if r.lastReport.Some? && r.nextTick.Some? && r.nextTick.value <= now then
         && s'.sent == s.sent + [r'.lastReport.value]
         && NextPoint(r.nextTick.value, r'.nextTick.value, now, r.interval)
         && Numbered(r'.lastReport.value, s.seqNo, s'.seqNo, r.target)
         && Stamped(r'.lastReport.value, r.lastReport.value, r.delta, r.mode, r.target)
       else
         && s'.sent == s.sent && s'.seqNo == s.seqNo && r'.nextTick == r.nextTick
         && (r.lastReport.Some? ==> Kept(r'.lastReport.value, r.lastReport.value, r.mode, r.target))
  }

  /** A tick makes a report exactly when a runtime is due; without a repeater it is sent, at once and alone. */
  lemma TickDelivered(codecs: Codecs, mapping: MappingConfig, s: Surface, now: Time) returns (replay: Option<Bytes>)
    requires Sound(s, mapping)
    ensures replay.Some? <==> RuntimeDue(s, now)
    ensures var s' := Ticked(codecs, mapping, s, now);
            && (replay.Some? ==>
                  && s.frame.Some?
                  && Made(codecs, mapping.rules, replay.value, s.frame.value,
                          if s.repeater.None? then NumberAfter(s.seqNo) else s.seqNo,
                          Filter(s.frame.value, mapping, s.view, now, false).l1, s'.view))
            && (s.repeater.None? ==>
                  && s'.repeater.None?
                  && s'.seqNo == (if replay.Some? then NumberAfter(s.seqNo) else s.seqNo)
                  && s'.sent == if replay.Some? then s.sent + [replay.value] else s.sent)
            && (s.repeater.Some? ==> s'.repeater.Some? && s.repeater.value.interval > 0 && Repeats(s, s', replay, now))
  {
    hide Made, Transform, Filter, RuntimesOk, MappingSafe, RuntimesDeadline, Repeats;
    var n := if s.repeater.None? then NextByte(s.seqNo) else s.seqNo;
    var step := Replayed(codecs, mapping, s, now);
    replay := step.report;
    if RuntimeDue(s, now) {
      DueMeansRunning(s.view, now);
      TransformMade(codecs, mapping, s.frame.value, s.view, n, now, false);
    }
    if s.repeater.Some? {
      EmitRepeats(s, step.surface, replay, now);
    }
  }

  lemma EmitRepeats(s: Surface, replayed: Surface, replay: Option<Bytes>, now: Time)
    requires s.repeater.Some? && WellFormed(s.repeater.value) && replayed.repeater == s.repeater
    requires replayed.seqNo == s.seqNo && replayed.sent == s.sent
    requires replay.Some? ==> s.repeater.value.lastReport.Some?
    ensures var s' := Emitted(replayed, replay, now);
            s'.repeater.Some? && Repeats(s, s', replay, now)
  {
    hide Carried, Kept, Numbered, Stamped, NextPoint, FirstFuture, Advanced, Preserve;
    var r := s.repeater.value;
    if r.lastReport.Some? {
      var last, due := r.lastReport.value, r.nextTick.value <= now;
      CarriedSame(last, r.mode, r.target);
      var current := if replay.Some? then Preserve(last, replay.value, r.mode, r.target) else last;
      if replay.Some? {
        RefreshLaw(last, replay.value, r.mode, r.target);
      } else {
        KeptSame(last, r.mode, r.target);
      }
      if due {
        GridLaw(r.nextTick.value, now, r.interval);
        AdvanceLaw(current, s.seqNo, r.delta, r.mode, r.target);
        var next := Advanced(current, s.seqNo, r.delta, r.mode, r.target).0;
        CarriedThrough(next, current, if replay.Some? then replay.value else last, r.mode, r.target);
        StampedFrom(next, current, last, r.delta, r.mode, r.target);
      }
    }
  }

  lemma KeptSame(last: Bytes, mode: RepeatMode, target: RepeatTarget)
    ensures Kept(last, last, mode, target)
  {
  }

  lemma StampedFrom(report: Bytes, current: Bytes, last: Bytes, delta: nat, mode: RepeatMode, target: RepeatTarget)
    requires Stamped(report, current, delta, mode, target) && Kept(current, last, mode, target) && |report| == |current|
    ensures Stamped(report, last, delta, mode, target)
  {
  }

  // ------------------------------------------------------------ whole runs

  /** The session after the first `k` inputs. */
  function Upto(codecs: Codecs, mapping: MappingConfig, s: Surface, inputs: seq<Input>, k: nat): (s': Surface)
    requires Sound(s, mapping) && k <= |inputs|
    ensures Sound(s', mapping)
  {
    Served(codecs, mapping, s, inputs[..k])
  }

  /** The input makes a report: it is a frame, or a timer event at which a runtime is due. */
  predicate Makes(codecs: Codecs, s: Surface, input: Input) {
    match input
    case Controller(bytes, _) => Decodes(codecs, bytes)
    case Timer(at) => RuntimeDue(s, at)
  }

  /** `report` is what the input makes of the frame it brings, or of the cached one, between `s` and `s'`. */
  ghost predicate MadeBy(codecs: Codecs, mapping: MappingConfig, report: Bytes, s: Surface, input: Input, s': Surface)
    requires Sound(s, mapping)
  {
    match input
    case Controller(bytes, at) =>
      && Decodes(codecs, bytes)
      && var frame := codecs.decode(bytes).value;
         Made(codecs, mapping.rules, report, frame, NumberAfter(s.seqNo), Filter(frame, mapping, s.view, at, true).l1, s'.view)
    case Timer(at) =>
      && s.frame.Some?
      && Made(codecs, mapping.rules, report, s.frame.value, if s.repeater.None? then NumberAfter(s.seqNo) else s.seqNo,
              Filter(s.frame.value, mapping, s.view, at, false).l1, s'.view)
  }

  /** The input sends a report: what it makes without a repeater, and with one the repeater's own due report. */
  predicate Sends(codecs: Codecs, s: Surface, input: Input) {
    if s.repeater.None? then Makes(codecs, s, input)
    else input.Timer? && s.repeater.value.nextTick.Some? && s.repeater.value.nextTick.value <= input.at
  }

  /** What is sent: the report the input makes, or the cached one as the repeater left it. */
  ghost predicate SentBy(codecs: Codecs, mapping: MappingConfig, report: Bytes, s: Surface, input: Input, s': Surface)
    requires Sound(s, mapping)
  {
    if s.repeater.None? then MadeBy(codecs, mapping, report, s, input, s')
    else s'.repeater.Some? && s'.repeater.value.lastReport == Some(report)
  }

  /** One input sends at most one report, exactly when `Sends` says so. */
  lemma InputDelivers(codecs: Codecs, mapping: MappingConfig, s: Surface, input: Input) returns (report: Bytes)
    requires Sound(s, mapping)
    ensures Sends(codecs, s, input) ==> SentBy(codecs, mapping, report, s, input, Next(codecs, mapping, s, input))
    ensures Next(codecs, mapping, s, input).sent == if Sends(codecs, s, input) then s.sent + [report] else s.sent
    ensures Next(codecs, mapping, s, input).repeater.None? <==> s.repeater.None?
  {
    hide Made, Filter, MappingSafe, RuntimesOk, HasRead, Ticked, RuntimeDue, Carried, Kept, Numbered, Stamped, NextPoint;
    report := [];
    match input
    case Controller(bytes, at) =>
      if Decodes(codecs, bytes) {
        report := FrameDelivered(codecs, mapping, s, bytes, at);
      } else {
        NothingDelivered(codecs, mapping, s, bytes, at);
      }
    case Timer(at) =>
      var replay := TickDelivered(codecs, mapping, s, at);
      if s.repeater.None? {
        report := if replay.Some? then replay.value else [];
      } else if Sends(codecs, s, input) {
        report := Ticked(codecs, mapping, s, at).repeater.value.lastReport.value;
      }
  }

  function Next(codecs: Codecs, mapping: MappingConfig, s: Surface, input: Input): Surface
    requires Sound(s, mapping)
  {
    match input
    case Controller(bytes, at) => HasRead(codecs, mapping, s, bytes, at)
    case Timer(at) => Ticked(codecs, mapping, s, at)
  }

  lemma UptoNext(codecs: Codecs, mapping: MappingConfig, s: Surface, inputs: seq<Input>)
    requires Sound(s, mapping) && inputs != []
    ensures var n := |inputs| - 1;
            Served(codecs, mapping, s, inputs) == Next(codecs, mapping, Upto(codecs, mapping, s, inputs, n), inputs[n])
  {
    hide Sound, HasRead, Ticked;
  }

  /** `made` lists, in order, the inputs that send. */
  ghost predicate Senders(codecs: Codecs, mapping: MappingConfig, s: Surface, inputs: seq<Input>, made: seq<nat>)
    requires Sound(s, mapping)
  {
    && (forall i :: 0 <= i < |made| ==> made[i] < |inputs| && forall j :: 0 <= j < i ==> made[j] < made[i])
    && (forall k :: 0 <= k < |inputs| ==> (k in made <==> Sends(codecs, Upto(codecs, mapping, s, inputs, k), inputs[k])))
  }

  /** Input `k` of the run sent this report. */
  ghost predicate SentAt(codecs: Codecs, mapping: MappingConfig, s: Surface, inputs: seq<Input>, k: nat, report: Bytes)
    requires Sound(s, mapping)
  {
    && k < |inputs|
    && SentBy(codecs, mapping, report, Upto(codecs, mapping, s, inputs, k), inputs[k], Upto(codecs, mapping, s, inputs, k + 1))
  }

  /** Each of these inputs sent one report, and these are all that were sent since `s`. */
  ghost predicate Entries(codecs: Codecs, mapping: MappingConfig, s: Surface, inputs: seq<Input>, made: seq<nat>,
                          sent: seq<Bytes>)
    requires Sound(s, mapping)
  {
    && s.sent <= sent && |sent| == |s.sent| + |made|
    && forall i :: 0 <= i < |made| ==> SentAt(codecs, mapping, s, inputs, made[i], sent[|s.sent| + i])
  }

  ghost predicate Log(codecs: Codecs, mapping: MappingConfig, s: Surface, inputs: seq<Input>, made: seq<nat>)
    requires Sound(s, mapping)
  {
    Entries(codecs, mapping, s, inputs, made, Served(codecs, mapping, s, inputs).sent)
  }

  /**
   * The reports of a whole run, exactly: one for each input that sends, in the order of the inputs. Without a
   * repeater every decoded frame and every due timer event has its report, made from the transformed state;
   * with one every timer event at or past the deadline has, and no other input.
   */
  lemma {:induction false} SessionLog(codecs: Codecs, mapping: MappingConfig, s: Surface, inputs: seq<Input>)
    returns (made: seq<nat>)
    requires Sound(s, mapping)
    ensures Served(codecs, mapping, s, inputs).repeater.None? <==> s.repeater.None?
    ensures Senders(codecs, mapping, s, inputs, made) && Log(codecs, mapping, s, inputs, made)
  {
    hide Sound, Next, Sends, SentBy, Log, Senders, Upto;
    if inputs == [] {
      made := [];
      NothingLogged(codecs, mapping, s);
    } else {
      var n := |inputs| - 1;
      var before := SessionLog(codecs, mapping, s, inputs[..n]);
      UptoNext(codecs, mapping, s, inputs);
      var was := Upto(codecs, mapping, s, inputs, n);
      assert was == Served(codecs, mapping, s, inputs[..n]) by { UptoInit(codecs, mapping, s, inputs); }
      var report := InputDelivers(codecs, mapping, was, inputs[n]);
      var sends := Sends(codecs, was, inputs[n]);
      made := if sends then before + [n] else before;
      SendersNext(codecs, mapping, s, inputs, before);
      LogNext(codecs, mapping, s, inputs, before, report);
    }
  }

  lemma UptoInit(codecs: Codecs, mapping: MappingConfig, s: Surface, inputs: seq<Input>)
    requires Sound(s, mapping) && inputs != []
    ensures Upto(codecs, mapping, s, inputs, |inputs| - 1) == Served(codecs, mapping, s, inputs[..|inputs| - 1])
  {
    hide Sound, Served;
  }

  lemma NothingLogged(codecs: Codecs, mapping: MappingConfig, s: Surface)
    requires Sound(s, mapping)
    ensures Senders(codecs, mapping, s, [], []) && Log(codecs, mapping, s, [], [])
  {
    hide Sound;
  }

  lemma SendersNext(codecs: Codecs, mapping: MappingConfig, s: Surface, inputs: seq<Input>, before: seq<nat>)
    requires Sound(s, mapping) && inputs != [] && Senders(codecs, mapping, s, inputs[..|inputs| - 1], before)
    ensures var n := |inputs| - 1;
            var sends := Sends(codecs, Upto(codecs, mapping, s, inputs, n), inputs[n]);
            Senders(codecs, mapping, s, inputs, if sends then before + [n] else before)
  {
    hide Sound, Sends, Upto;
    var n, init := |inputs| - 1, inputs[..|inputs| - 1];
    var made := if Sends(codecs, Upto(codecs, mapping, s, inputs, n), inputs[n]) then before + [n] else before;
    forall k | 0 <= k < |inputs|
      ensures k in made <==> Sends(codecs, Upto(codecs, mapping, s, inputs, k), inputs[k])
    {
      if k < n {
        UptoEither(codecs, mapping, s, inputs, k);
      } else {
        assert n !in before;
      }
    }
  }

  lemma LogNext(codecs: Codecs, mapping: MappingConfig, s: Surface, inputs: seq<Input>, before: seq<nat>, report: Bytes)
    requires Sound(s, mapping) && inputs != [] && Log(codecs, mapping, s, inputs[..|inputs| - 1], before)
    requires var n, s' := |inputs| - 1, Served(codecs, mapping, s, inputs);
             var was := Upto(codecs, mapping, s, inputs, n);
             && s'.sent == (if Sends(codecs, was, inputs[n]) then was.sent + [report] else was.sent)
             && (Sends(codecs, was, inputs[n]) ==> SentBy(codecs, mapping, report, was, inputs[n], s'))
    ensures var n := |inputs| - 1;
            var sends := Sends(codecs, Upto(codecs, mapping, s, inputs, n), inputs[n]);
            Log(codecs, mapping, s, inputs, if sends then before + [n] else before)
  {
    hide Sound, Sends, SentBy, Served, Upto, SentAt, Entries;
    var n, init := |inputs| - 1, inputs[..|inputs| - 1];
    var was := Upto(codecs, mapping, s, inputs, n);
    UptoInit(codecs, mapping, s, inputs);
    EntriesEarlier(codecs, mapping, s, inputs, before, was.sent);
    if Sends(codecs, was, inputs[n]) {
      SentLast(codecs, mapping, s, inputs, report);
      EntriesMore(codecs, mapping, s, inputs, before, was.sent, n, report);
    }
  }

  lemma EntriesEarlier(codecs: Codecs, mapping: MappingConfig, s: Surface, inputs: seq<Input>, made: seq<nat>, sent: seq<Bytes>)
    requires Sound(s, mapping) && inputs != [] && Entries(codecs, mapping, s, inputs[..|inputs| - 1], made, sent)
    ensures Entries(codecs, mapping, s, inputs, made, sent)
  {
    hide Sound, SentAt;
    forall i | 0 <= i < |made| ensures SentAt(codecs, mapping, s, inputs, made[i], sent[|s.sent| + i]) {
      SentEarlier(codecs, mapping, s, inputs, made[i], sent[|s.sent| + i]);
    }
  }

  lemma EntriesMore(codecs: Codecs, mapping: MappingConfig, s: Surface, inputs: seq<Input>, made: seq<nat>, sent: seq<Bytes>,
                    k: nat, report: Bytes)
    requires Sound(s, mapping) && Entries(codecs, mapping, s, inputs, made, sent)
    requires SentAt(codecs, mapping, s, inputs, k, report)
    ensures Entries(codecs, mapping, s, inputs, made + [k], sent + [report])
  {
    hide Sound, SentAt;
  }

  lemma SentLast(codecs: Codecs, mapping: MappingConfig, s: Surface, inputs: seq<Input>, report: Bytes)
    requires Sound(s, mapping) && inputs != []
    requires var n, s' := |inputs| - 1, Served(codecs, mapping, s, inputs);
             SentBy(codecs, mapping, report, Upto(codecs, mapping, s, inputs, n), inputs[n], s')
    ensures SentAt(codecs, mapping, s, inputs, |inputs| - 1, report)
  {
    hide Sound, Served, Upto, SentBy;
    UptoAll(codecs, mapping, s, inputs);
  }

  lemma SentEarlier(codecs: Codecs, mapping: MappingConfig, s: Surface, inputs: seq<Input>, k: nat, report: Bytes)
    requires Sound(s, mapping) && inputs != [] && SentAt(codecs, mapping, s, inputs[..|inputs| - 1], k, report)
    ensures SentAt(codecs, mapping, s, inputs, k, report)
  {
    hide Sound, Served, Upto, SentBy;
    UptoEither(codecs, mapping, s, inputs, k);
    UptoEither(codecs, mapping, s, inputs, k + 1);
  }

  lemma UptoAll(codecs: Codecs, mapping: MappingConfig, s: Surface, inputs: seq<Input>)
    requires Sound(s, mapping)
    ensures Upto(codecs, mapping, s, inputs, |inputs|) == Served(codecs, mapping, s, inputs)
  {
    hide Sound, Served;
    assert inputs[..|inputs|] == inputs;
  }

  lemma UptoEither(codecs: Codecs, mapping: MappingConfig, s: Surface, inputs: seq<Input>, k: nat)
    requires Sound(s, mapping) && inputs != [] && k < |inputs|
    ensures Upto(codecs, mapping, s, inputs[..|inputs| - 1], k) == Upto(codecs, mapping, s, inputs, k)
  {
    hide Sound;
    assert inputs[..|inputs| - 1][..k] == inputs[..k];
  }

  // ------------------------------------------------- the cached report, over runs

  predicate SameSetup(s: Surface, s': Surface)
    requires s.repeater.Some?
  {
    && s'.repeater.Some?
    && s'.repeater.value.mode == s.repeater.value.mode && s'.repeater.value.target == s.repeater.value.target
    && s'.repeater.value.interval == s.repeater.value.interval && s'.repeater.value.delta == s.repeater.value.delta
  }

  /** The cached report agrees with this one outside the repeater's fields. */
  predicate CachedShows(s: Surface, report: Bytes) {
    && s.repeater.Some? && s.repeater.value.lastReport.Some?
    && Carried(s.repeater.value.lastReport.value, report, s.repeater.value.mode, s.repeater.value.target)
  }

  /** An input that makes a report has it cached; any other leaves the cached one but for the repeater's fields. */
  lemma InputCaches(codecs: Codecs, mapping: MappingConfig, s: Surface, input: Input) returns (report: Bytes)
    requires Sound(s, mapping) && s.repeater.Some?
    ensures var s' := Next(codecs, mapping, s, input);
            && SameSetup(s, s')
            && (Makes(codecs, s, input) ==> MadeBy(codecs, mapping, report, s, input, s') && CachedShows(s', report))
            && (!Makes(codecs, s, input) && s.repeater.value.lastReport.Some? ==>
                  CachedShows(s', s.repeater.value.lastReport.value))
  {
    hide Made, Filter, MappingSafe, RuntimesOk, HasRead, Ticked, Carried, Kept, Numbered, Stamped, NextPoint;
    report := [];
    var r := s.repeater.value;
    match input
    case Controller(bytes, at) =>
      if Decodes(codecs, bytes) {
        report := FrameDelivered(codecs, mapping, s, bytes, at);
        CarriedSame(report, r.mode, r.target);
      } else {
        NothingDelivered(codecs, mapping, s, bytes, at);
        if r.lastReport.Some? {
          CarriedSame(r.lastReport.value, r.mode, r.target);
        }
      }
    case Timer(at) =>
      var replay := TickDelivered(codecs, mapping, s, at);
      report := if replay.Some? then replay.value else [];
  }

  /**
   * With a repeater, the cached report, which is the one a due timer event sends, is at any moment of a run
   * the report that the latest source frame or runtime refresh made, outside the repeater's own fields.
   */
  lemma {:induction false} CachedIsLatest(codecs: Codecs, mapping: MappingConfig, s: Surface, inputs: seq<Input>, k: nat)
    returns (report: Bytes)
    requires Sound(s, mapping) && s.repeater.Some?
    requires k < |inputs| && Makes(codecs, Upto(codecs, mapping, s, inputs, k), inputs[k])
    requires forall j :: k < j < |inputs| ==> !Makes(codecs, Upto(codecs, mapping, s, inputs, j), inputs[j])
    ensures MadeBy(codecs, mapping, report, Upto(codecs, mapping, s, inputs, k), inputs[k],
                   Upto(codecs, mapping, s, inputs, k + 1))
    ensures SameSetup(s, Served(codecs, mapping, s, inputs))
    ensures CachedShows(Served(codecs, mapping, s, inputs), report)
    decreases |inputs|
  {
    hide Sound, Next, Makes, MadeBy, Upto, Served, Carried, SameSetup;
    var n, init := |inputs| - 1, inputs[..|inputs| - 1];
    UptoNext(codecs, mapping, s, inputs);
    UptoInit(codecs, mapping, s, inputs);
    SetupLasts(codecs, mapping, s, init);
    var was := Upto(codecs, mapping, s, inputs, n);
    RepeaterStays(s, was);
    report := InputCaches(codecs, mapping, was, inputs[n]);
    SetupThrough(s, was, Served(codecs, mapping, s, inputs));
    if k == n {
      UptoAll(codecs, mapping, s, inputs);
    } else {
      forall j | 0 <= j <= n ensures Upto(codecs, mapping, s, init, j) == Upto(codecs, mapping, s, inputs, j) {
        UptoEither(codecs, mapping, s, inputs, j);
      }
      report := CachedIsLatest(codecs, mapping, s, init, k);
      ShowsThrough(was, Served(codecs, mapping, s, inputs), report);
    }
  }

  lemma RepeaterStays(s: Surface, s': Surface)
    requires s.repeater.Some? && SameSetup(s, s')
    ensures s'.repeater.Some?
  {
  }

  lemma SetupThrough(s: Surface, s': Surface, s'': Surface)
    requires s.repeater.Some? && SameSetup(s, s') && SameSetup(s', s'')
    ensures SameSetup(s, s'')
  {
  }

  lemma ShowsThrough(s: Surface, s': Surface, report: Bytes)
    requires CachedShows(s, report) && SameSetup(s, s') && CachedShows(s', s.repeater.value.lastReport.value)
    ensures CachedShows(s', report)
  {
    hide Carried;
    CarriedThrough(s'.repeater.value.lastReport.value, s.repeater.value.lastReport.value, report,
                   s.repeater.value.mode, s.repeater.value.target);
  }

  lemma {:induction false} SetupLasts(codecs: Codecs, mapping: MappingConfig, s: Surface, inputs: seq<Input>)
    requires Sound(s, mapping) && s.repeater.Some?
    ensures SameSetup(s, Served(codecs, mapping, s, inputs))
  {
    hide Sound, Next, HasRead, Ticked;
    if inputs != [] {
      SetupLasts(codecs, mapping, s, inputs[..|inputs| - 1]);
      UptoNext(codecs, mapping, s, inputs);
      UptoInit(codecs, mapping, s, inputs);
      var _ := InputCaches(codecs, mapping, Upto(codecs, mapping, s, inputs, |inputs| - 1), inputs[|inputs| - 1]);
    }
  }

  // --------------------------------------------------- DualSense to DualSense

  /** A DualSense over USB served to a virtual DualSense. */
  function Ds5Codecs(): Codecs {
    Codecs(64, raw => Codec.DecodeUsb(raw), (frame: ControllerFrame, n: Byte) => Codec.Encoded(frame.raw, frame.state, n))
  }

  /** The opposite directions that a hat cannot show together. */
  ghost predicate Opposed(rules: seq<RemapRule>, l1: GamepadState, view: Runtimes) {
    || (AsksFor(DpadUp, rules, l1, view) && AsksFor(DpadDown, rules, l1, view))
    || (AsksFor(DpadLeft, rules, l1, view) && AsksFor(DpadRight, rules, l1, view))
  }

  /**
   * The bits of a report made for a virtual DualSense: each flag is set exactly when something asks for its
   * button, the hat shows the directions asked for unless opposite ones are, triggers and sticks have the
   * values asked for, and all from byte 12 on is what the controller sent.
   */
  lemma ReportBits(rules: seq<RemapRule>, report: Bytes, frame: ControllerFrame, n: Byte, l1: GamepadState, view: Runtimes)
    requires Made(Ds5Codecs(), rules, report, frame, n, l1, view)
    ensures |report| == 64 && report[0] == 0x01 && report[7] == n && report[12..] == frame.raw[12..]
    ensures var shown := Codec.ParsedState(report);
            && (forall b :: Wire.HasFlag(b) ==> (shown.Pressed(b) <==> AsksFor(b, rules, l1, view)))
            && (forall b :: Wire.IsDpad(b) ==> (shown.Pressed(b) <==> AsksFor(b, rules, l1, view) && !Opposed(rules, l1, view)))
            && TriggerShown(shown.l2Analog, rules, l1, view.combo, TriggerL2, l1.l2Analog)
            && TriggerShown(shown.r2Analog, rules, l1, view.combo, TriggerR2, l1.r2Analog)
            && (forall axis :: StickShown(shown.Stick(axis), rules, l1, view.combo, axis))
  {
    hide AsksFor, TriggerShown, StickShown, Codec.Encoded, Codec.ParsedState, Wire.HasFlag, Wire.IsDpad;
    var st :| Meets(st, rules, l1, view) && report == Ds5Codecs().encode(frame.(state := st), n);
    assert report == Codec.Encoded(frame.raw, st, n);
    Wire.EncodeThenParse(frame.raw, st, n);
    Wire.EncodedBytes(frame.raw, st, n);
    var shown := Codec.ParsedState(report);
    forall axis: Axis ensures shown.Stick(axis) == st.Stick(axis) {
      match axis
      case LeftX =>
      case LeftY =>
      case RightX =>
      case RightY =>
    }
  }
}

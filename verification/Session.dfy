/** What a proxy session does to its reports, as values: the contract of the proxy's methods (src/proxy/mod.rs). */
module Session {
  import opened Model
  import opened Mapping
  import opened Runtime
  import opened Pipeline
  import opened PipelineRuns
  import opened Layers
  import opened Repeat

  /** The source and target codecs of a session. */
  datatype Codecs = Codecs(
    inputSize: nat,
    decode: Bytes -> Option<ControllerFrame>,
    encode: (ControllerFrame, Byte) -> Bytes)

  /** The part of the proxy that decides which reports the virtual device gets, and the keys last asked for. */
  datatype Surface = Surface(
    frame: Option<ControllerFrame>, view: Runtimes, repeater: Option<Repeater>, seqNo: Byte,
    sent: seq<Bytes>, keys: set<nat>)

  /** A running turbo or macro has a frame to replay and, when repeating, a report to refresh. */
  predicate Cached(s: Surface) {
    && (s.view.Running() ==> s.frame.Some?)
    && (s.repeater.Some? ==> WellFormed(s.repeater.value) && (s.frame.Some? ==> s.repeater.value.lastReport.Some?))
  }

  predicate Sound(s: Surface, mapping: MappingConfig) {
    MappingSafe(mapping) && RuntimesOk(s.view, mapping) && Cached(s)
  }

  /** What the timing engine needs at `now`. */
  function RuntimeDue(s: Surface, now: Time): bool {
    !NoneDueBy(RuntimesDeadline(s.view), now)
  }

  function Encoded(codecs: Codecs, mapping: MappingConfig, s: Surface, frame: ControllerFrame, now: Time, observe: bool): Bytes
    requires RuntimesOk(s.view, mapping)
  {
    codecs.encode(frame.(state := Transform(frame, mapping, s.view, now, observe).output.state), s.seqNo)
  }

  datatype Refresh = Refresh(surface: Surface, report: Option<Bytes>)

  /** The cached frame replayed through the due runtimes. */
  function Replayed(codecs: Codecs, mapping: MappingConfig, s: Surface, now: Time): Refresh
    requires RuntimesOk(s.view, mapping)
  {
    if !RuntimeDue(s, now) || s.frame.None? then Refresh(s, None) else
    var numbered := s.(seqNo := if s.repeater.None? then NextByte(s.seqNo) else s.seqNo);
    var o := Transform(s.frame.value, mapping, s.view, now, false);
    Refresh(numbered.(view := o.runtimes, keys := o.output.keyboard),
            Some(Encoded(codecs, mapping, numbered, s.frame.value, now, false)))
  }

  /** What goes out after a replay: the repeater's due report, or without a repeater the replay itself. */
  function Emitted(s: Surface, report: Option<Bytes>, now: Time): Surface
    requires s.repeater.Some? ==> s.repeater.value.interval > 0 && (report.Some? ==> s.repeater.value.lastReport.Some?)
  {
    if s.repeater.None? then s.(sent := if report.Some? then s.sent + [report.value] else s.sent) else
    var r := if report.Some? then Refreshed(s.repeater.value, report.value) else s.repeater.value;
    var p := Prepare(r, now, s.seqNo);
    s.(repeater := Some(p.repeater), seqNo := p.seqNo,
       sent := if p.report.Some? then s.sent + [p.report.value] else s.sent)
  }

  /** One timer tick whose write succeeds. */
  function Ticked(codecs: Codecs, mapping: MappingConfig, s: Surface, now: Time): Surface
    requires Sound(s, mapping)
  {
    var replayed := Replayed(codecs, mapping, s, now);
    Emitted(replayed.surface, replayed.report, now)
  }

  /** One decoded frame whose write, if it causes one, succeeds. */
  function Fed(codecs: Codecs, mapping: MappingConfig, s: Surface, frame: ControllerFrame, at: Time): Surface
    requires RuntimesOk(s.view, mapping)
  {
    var report := Encoded(codecs, mapping, s, frame, at, true);
    var o := Transform(frame, mapping, s.view, at, true);
    s.(frame := Some(frame), view := o.runtimes, keys := o.output.keyboard,
       repeater := if s.repeater.None? then None else Some(Stored(s.repeater.value, report, at)),
       sent := if s.repeater.None? then s.sent + [report] else s.sent)
  }

  /** One controller read: a short one is ignored, an undecodable one only uses up a sequence number. */
  function HasRead(codecs: Codecs, mapping: MappingConfig, s: Surface, bytes: Bytes, at: Time): Surface
    requires RuntimesOk(s.view, mapping)
  {
    if |bytes| < codecs.inputSize then s else
    var numbered := s.(seqNo := NextByte(s.seqNo));
    match codecs.decode(bytes)
    case None => numbered
    case Some(frame) => Fed(codecs, mapping, numbered, frame, at)
  }

  // ------------------------------------------------------ one step at a time

  lemma DueMeansRunning(r: Runtimes, now: Time)
    requires !NoneDueBy(RuntimesDeadline(r), now)
    ensures r.Running()
  {
    DeadlineParts(r, now);
  }

  /** No busy loop: after a tick nothing is due, and the tick sent at most one report. */
  lemma TickSettles(codecs: Codecs, mapping: MappingConfig, s: Surface, now: Time)
    requires Sound(s, mapping)
    ensures var s' := Ticked(codecs, mapping, s, now);
            && Sound(s', mapping) && s'.frame == s.frame
            && !RuntimeDue(s', now)
            && (s'.repeater.Some? ==> NoneDueBy(s'.repeater.value.nextTick, now))
            && s.sent <= s'.sent && |s'.sent| <= |s.sent| + 1
  {
    hide Transform, RuntimesOk, RuntimesDeadline, MappingSafe;
    if RuntimeDue(s, now) {
      DueMeansRunning(s.view, now);
      TransformKeepsOk(s.frame.value, mapping, s.view, now, false);
      TimerNotDue(s.frame.value, mapping, s.view, now);
    }
  }

  lemma FeedKeepsSound(codecs: Codecs, mapping: MappingConfig, s: Surface, bytes: Bytes, at: Time)
    requires Sound(s, mapping)
    ensures Sound(HasRead(codecs, mapping, s, bytes, at), mapping)
  {
    hide Transform, RuntimesOk, MappingSafe;
    var frame := codecs.decode(bytes);
    if frame.Some? {
      TransformKeepsOk(frame.value, mapping, s.view, at, true);
    }
  }

  // ------------------------------------------------------------- whole runs

  datatype Input = Controller(bytes: Bytes, at: Time) | Timer(at: Time)

  function Served(codecs: Codecs, mapping: MappingConfig, s: Surface, inputs: seq<Input>): (s': Surface)
    requires Sound(s, mapping)
    ensures Sound(s', mapping)
  {
    if inputs == [] then s else
    var before, last := Served(codecs, mapping, s, inputs[..|inputs| - 1]), inputs[|inputs| - 1];
    match last
    case Controller(bytes, at) =>
      FeedKeepsSound(codecs, mapping, before, bytes, at);
      HasRead(codecs, mapping, before, bytes, at)
    case Timer(at) =>
      TickSettles(codecs, mapping, before, at);
      Ticked(codecs, mapping, before, at)
  }

  predicate InputsOrdered(inputs: seq<Input>, from: Time) {
    forall i :: 0 <= i < |inputs| ==> from <= inputs[i].at && forall j :: 0 <= j < i ==> inputs[j].at <= inputs[i].at
  }

  predicate Decodes(codecs: Codecs, bytes: Bytes) {
    |bytes| >= codecs.inputSize && codecs.decode(bytes).Some?
  }

  /** The same run as seen by an engine that is polled on every timer event, due or not. */
  function AsPolled(codecs: Codecs, inputs: seq<Input>): seq<Event> {
    if inputs == [] then [] else
    var before, last := AsPolled(codecs, inputs[..|inputs| - 1]), inputs[|inputs| - 1];
    match last
    case Timer(at) => before + [Poll(at)]
    case Controller(bytes, at) =>
      if Decodes(codecs, bytes) then before + [Source(codecs.decode(bytes).value, at)] else before
  }

  function LastAt(events: seq<Event>, start: Time): Time {
    if events == [] then start else events[|events| - 1].at
  }

  lemma {:induction false} PolledNoLater(codecs: Codecs, inputs: seq<Input>, start: Time, now: Time)
    requires InputsOrdered(inputs, start) && start <= now
    requires inputs != [] ==> inputs[|inputs| - 1].at <= now
    ensures LastAt(AsPolled(codecs, inputs), start) <= now
  {
    if inputs != [] {
      var n := |inputs| - 1;
      PolledNoLater(codecs, inputs[..n], start, now);
    }
  }

  /** A session from its start or from a configuration switch on; `sent` is what went out before. */
  function Fresh(mapping: MappingConfig, start: Time, repeater: Option<Repeater>, seqNo: Byte, sent: seq<Bytes>): Surface {
    Surface(None, FreshRuntimes(mapping, start), repeater, seqNo, sent, {})
  }

  predicate Restarted(repeater: Option<Repeater>) {
    repeater.Some? ==> WellFormed(repeater.value) && repeater.value == Cleared(repeater.value)
  }

  lemma FreshSound(mapping: MappingConfig, start: Time, repeater: Option<Repeater>, seqNo: Byte, sent: seq<Bytes>)
    requires MappingSafe(mapping) && Restarted(repeater)
    ensures Sound(Fresh(mapping, start, repeater, seqNo, sent), mapping)
  {
    FreshOk(mapping, start);
  }

  /**
   * The timing engine runs only when its deadline has passed, yet after every run of reads and timer
   * events its frame and runtimes are those of an engine polled at every single timer event.
   */
  lemma {:induction false} DeadlinesSuffice(codecs: Codecs, mapping: MappingConfig, start: Time, repeater: Option<Repeater>,
                                            seqNo: Byte, sent: seq<Bytes>, inputs: seq<Input>)
    requires MappingSafe(mapping) && Restarted(repeater) && InputsOrdered(inputs, start)
    ensures Sound(Fresh(mapping, start, repeater, seqNo, sent), mapping)
    ensures var s := Served(codecs, mapping, Fresh(mapping, start, repeater, seqNo, sent), inputs);
            Engine(s.frame, s.view) == Run(mapping, start, AsPolled(codecs, inputs))
  {
    hide HasRead, Ticked, Run, MappingSafe, RuntimesOk, FreshRuntimes, Sound;
    FreshSound(mapping, start, repeater, seqNo, sent);
    if inputs == [] {
      RunNothing(mapping, start);
    } else {
      var init, last := inputs[..|inputs| - 1], inputs[|inputs| - 1];
      DeadlinesSuffice(codecs, mapping, start, repeater, seqNo, sent, init);
      var before := Served(codecs, mapping, Fresh(mapping, start, repeater, seqNo, sent), init);
      PolledNoLater(codecs, init, start, last.at);
      NextPolled(codecs, mapping, start, before, AsPolled(codecs, init), last);
    }
  }

  lemma RunNothing(mapping: MappingConfig, start: Time)
    requires MappingSafe(mapping)
    ensures Run(mapping, start, []) == Engine(None, FreshRuntimes(mapping, start))
  {
  }

  lemma NextPolled(codecs: Codecs, mapping: MappingConfig, start: Time, before: Surface, events: seq<Event>, last: Input)
    requires Sound(before, mapping) && LastAt(events, start) <= last.at
    requires Engine(before.frame, before.view) == Run(mapping, start, events)
    ensures last.Timer? ==>
      var s := Ticked(codecs, mapping, before, last.at);
      Engine(s.frame, s.view) == Run(mapping, start, events + [Poll(last.at)])
    ensures last.Controller? && Decodes(codecs, last.bytes) ==>
      var s := HasRead(codecs, mapping, before, last.bytes, last.at);
      Engine(s.frame, s.view) == Run(mapping, start, events + [Source(codecs.decode(last.bytes).value, last.at)])
    ensures last.Controller? && !Decodes(codecs, last.bytes) ==>
      var s := HasRead(codecs, mapping, before, last.bytes, last.at);
      Engine(s.frame, s.view) == Run(mapping, start, events)
  {
    hide Transform, RuntimesDeadline, MappingSafe, RuntimesOk, Run, Emitted;
    match last
    case Timer(at) =>
      if RuntimeDue(before, at) {
        RunSnoc(mapping, start, events, Poll(at));
      } else {
        ExtraPollUnseen(mapping, start, events, at);
      }
      EmittingKeeps(codecs, mapping, before, at);
    case Controller(bytes, at) =>
      if Decodes(codecs, bytes) {
        RunSnoc(mapping, start, events, Source(codecs.decode(bytes).value, at));
      }
  }

  lemma EmittingKeeps(codecs: Codecs, mapping: MappingConfig, s: Surface, now: Time)
    requires Sound(s, mapping)
    ensures var s', replayed := Ticked(codecs, mapping, s, now), Replayed(codecs, mapping, s, now).surface;
            s'.frame == replayed.frame && s'.view == replayed.view && s'.keys == replayed.keys
    ensures RuntimeDue(s, now) ==> s.frame.Some?
  {
    hide Transform, RuntimesDeadline, MappingSafe, RuntimesOk;
    if RuntimeDue(s, now) {
      DueMeansRunning(s.view, now);
    }
  }

  // --------------------------------------------------------- the keys shown

  /** Until the next deadline the keys last asked for are those that a poll would ask for. */
  lemma {:induction false} KeysStayShown(codecs: Codecs, mapping: MappingConfig, start: Time, repeater: Option<Repeater>,
                                         seqNo: Byte, sent: seq<Bytes>, inputs: seq<Input>, now: Time)
    requires MappingSafe(mapping) && Restarted(repeater) && InputsOrdered(inputs, start) && start <= now
    requires inputs != [] ==> inputs[|inputs| - 1].at <= now
    requires Sound(Fresh(mapping, start, repeater, seqNo, sent), mapping)
    requires !RuntimeDue(Served(codecs, mapping, Fresh(mapping, start, repeater, seqNo, sent), inputs), now)
    ensures var s := Served(codecs, mapping, Fresh(mapping, start, repeater, seqNo, sent), inputs);
            s.keys == KeysAt(s, mapping, now)
  {
    hide HasRead, Ticked, MappingSafe, RuntimesOk, FreshRuntimes, RuntimesDeadline, KeysAt;
    var s0 := Fresh(mapping, start, repeater, seqNo, sent);
    if inputs == [] {
      NoKeysYet(s0, mapping, now);
    } else {
      var init, last := inputs[..|inputs| - 1], inputs[|inputs| - 1];
      var before := Served(codecs, mapping, s0, init);
      if !RuntimeDue(before, last.at) {
        KeysStayShown(codecs, mapping, start, repeater, seqNo, sent, init, last.at);
      }
      if !RuntimeDue(before, now) {
        KeysStayShown(codecs, mapping, start, repeater, seqNo, sent, init, now);
      }
      NextKeys(codecs, mapping, before, last, now);
    }
  }

  /** The keys a poll at `now` asks for; none before the first frame. */
  function KeysAt(s: Surface, mapping: MappingConfig, now: Time): set<nat>
    requires RuntimesOk(s.view, mapping)
  {
    if s.frame.None? then {} else Transform(s.frame.value, mapping, s.view, now, false).output.keyboard
  }

  lemma NoKeysYet(s: Surface, mapping: MappingConfig, now: Time)
    requires RuntimesOk(s.view, mapping) && s.frame.None?
    ensures KeysAt(s, mapping, now) == {}
  {
  }

  lemma NextKeys(codecs: Codecs, mapping: MappingConfig, before: Surface, last: Input, now: Time)
    requires Sound(before, mapping) && last.at <= now
    requires !RuntimeDue(before, now) ==> before.keys == KeysAt(before, mapping, now)
    ensures last.Timer? ==>
      var s := Ticked(codecs, mapping, before, last.at);
      Sound(s, mapping) && (!RuntimeDue(s, now) ==> s.keys == KeysAt(s, mapping, now))
    ensures last.Controller? ==>
      var s := HasRead(codecs, mapping, before, last.bytes, last.at);
      Sound(s, mapping) && (!RuntimeDue(s, now) ==> s.keys == KeysAt(s, mapping, now))
  {
    hide Transform, RuntimesDeadline, MappingSafe, RuntimesOk, Emitted;
    match last
    case Timer(at) =>
      TickSettles(codecs, mapping, before, at);
      EmittingKeeps(codecs, mapping, before, at);
      var s := Ticked(codecs, mapping, before, at);
      if RuntimeDue(before, at) && !RuntimeDue(s, now) {
        PollIsNoOp(before.frame.value, mapping, before.view, at, now);
      }
    case Controller(bytes, at) =>
      FeedKeepsSound(codecs, mapping, before, bytes, at);
      var s := HasRead(codecs, mapping, before, bytes, at);
      if Decodes(codecs, bytes) && !RuntimeDue(s, now) {
        SourceStaysShown(codecs.decode(bytes).value, mapping, before.view, at, now);
      }
  }

  /** From input `n` on, a frame with nothing pressed, every frame shows nothing pressed. */
  predicate QuietFrom(codecs: Codecs, mapping: MappingConfig, inputs: seq<Input>, n: nat) {
    && n < |inputs| && inputs[n].Controller? && Decodes(codecs, inputs[n].bytes)
    && forall i :: n <= i < |inputs| && inputs[i].Controller? && Decodes(codecs, inputs[i].bytes) ==>
         Quiet(codecs.decode(inputs[i].bytes).value, mapping)
  }

  lemma {:induction false} AsPolledConcat(codecs: Codecs, a: seq<Input>, b: seq<Input>)
    ensures AsPolled(codecs, a + b) == AsPolled(codecs, a) + AsPolled(codecs, b)
    decreases |b|
  {
    if b == [] {
      assert a + b == a;
    } else {
      AsPolledConcat(codecs, a, b[..|b| - 1]);
      assert (a + b)[..|a + b| - 1] == a + b[..|b| - 1];
    }
  }

  lemma {:induction false} AsPolledQuiet(codecs: Codecs, mapping: MappingConfig, inputs: seq<Input>)
    requires forall i :: 0 <= i < |inputs| && inputs[i].Controller? && Decodes(codecs, inputs[i].bytes) ==>
               Quiet(codecs.decode(inputs[i].bytes).value, mapping)
    ensures AllQuiet(AsPolled(codecs, inputs), mapping)
  {
    hide Quiet, Decodes;
    if inputs != [] {
      AsPolledQuiet(codecs, mapping, inputs[..|inputs| - 1]);
    }
  }

  lemma {:induction false} AsPolledOrdered(codecs: Codecs, inputs: seq<Input>, start: Time)
    requires InputsOrdered(inputs, start)
    ensures InOrder(AsPolled(codecs, inputs), start)
    ensures inputs == [] ==> AsPolled(codecs, inputs) == []
    ensures forall i :: 0 <= i < |AsPolled(codecs, inputs)| ==> AsPolled(codecs, inputs)[i].at <= inputs[|inputs| - 1].at
  {
    hide Decodes;
    if inputs != [] {
      AsPolledOrdered(codecs, inputs[..|inputs| - 1], start);
    }
  }

  /**
   * No stuck keys in a session: once only frames with nothing pressed came since input `n`, the largest
   * release time after it has passed and nothing is due any more, the session asks for no key at all.
   */
  lemma QuietSession(codecs: Codecs, mapping: MappingConfig, start: Time, repeater: Option<Repeater>,
                     seqNo: Byte, sent: seq<Bytes>, inputs: seq<Input>, n: nat, now: Time)
    requires MappingSafe(mapping) && Restarted(repeater) && InputsOrdered(inputs, start)
    requires QuietFrom(codecs, mapping, inputs, n) && inputs[|inputs| - 1].at <= now
    requires LastReleasePassed(mapping, inputs[n].at, now)
    ensures Sound(Fresh(mapping, start, repeater, seqNo, sent), mapping)
    ensures var s := Served(codecs, mapping, Fresh(mapping, start, repeater, seqNo, sent), inputs);
            !RuntimeDue(s, now) ==> s.keys == {}
  {
    hide HasRead, Ticked, MappingSafe, RuntimesOk, Transform, FreshRuntimes, Sound, RuntimesDeadline, Run, AsPolled, Served;
    hide LastReleasePassed, Decodes, Quiet, InOrder, AllQuiet;
    FreshSound(mapping, start, repeater, seqNo, sent);
    var s := Served(codecs, mapping, Fresh(mapping, start, repeater, seqNo, sent), inputs);
    DeadlinesSuffice(codecs, mapping, start, repeater, seqNo, sent, inputs);
    var frame := QuietRunOf(codecs, mapping, start, inputs, n, now);
    if !RuntimeDue(s, now) {
      KeysStayShown(codecs, mapping, start, repeater, seqNo, sent, inputs, now);
    }
  }

  /** The engine of such a run: its cached frame is quiet and a poll of it outputs nothing. */
  lemma QuietRunOf(codecs: Codecs, mapping: MappingConfig, start: Time, inputs: seq<Input>, n: nat, now: Time)
    returns (frame: ControllerFrame)
    requires MappingSafe(mapping) && InputsOrdered(inputs, start)
    requires QuietFrom(codecs, mapping, inputs, n) && LastReleasePassed(mapping, inputs[n].at, now)
    ensures var e := Run(mapping, start, AsPolled(codecs, inputs));
            && e.frame == Some(frame)
            && Transform(frame, mapping, e.runtimes, now, false).output.keyboard == {}
            && Transform(frame, mapping, e.runtimes, now, false).output.state.buttons == {}
  {
    hide MappingSafe, RuntimesOk, Transform, Run, LastReleasePassed, Quiet, AllQuiet;
    var before, first, rest := inputs[..n], inputs[n], inputs[n + 1..];
    var events, quiet := AsPolled(codecs, before), AsPolled(codecs, rest);
    var source := codecs.decode(first.bytes).value;
    SplitAround(codecs, inputs, n);
    assert InputsOrdered(before, start);
    AsPolledOrdered(codecs, before, start);
    AsPolledQuiet(codecs, mapping, rest);
    hide AsPolled, InOrder, Decodes;
    QuietRun(mapping, start, events, source, first.at, quiet);
    frame := Run(mapping, start, events + [Source(source, first.at)] + quiet).frame.value;
    NoStuckOutput(mapping, start, events, source, first.at, quiet, frame, now, false);
  }

  lemma SplitAround(codecs: Codecs, inputs: seq<Input>, n: nat)
    requires n < |inputs| && inputs[n].Controller? && Decodes(codecs, inputs[n].bytes)
    ensures AsPolled(codecs, inputs) == AsPolled(codecs, inputs[..n])
              + [Source(codecs.decode(inputs[n].bytes).value, inputs[n].at)] + AsPolled(codecs, inputs[n + 1..])
  {
    var upTo := inputs[..n + 1];
    assert upTo[..n] == inputs[..n] && upTo[n] == inputs[n];
    assert inputs == upTo + inputs[n + 1..];
    AsPolledConcat(codecs, upTo, inputs[n + 1..]);
    assert upTo[..|upTo| - 1] == inputs[..n];
  }

  // ------------------------------------------------------------ the cadence

  /** The repeater's part of a session: what the rate and timestamp results speak about. */
  function CadenceOf(s: Surface): Cadence
    requires s.repeater.Some?
  {
    Cadence(s.repeater.value, s.seqNo, s.sent)
  }

  /** What one input asks of the repeater. */
  function Asked(codecs: Codecs, mapping: MappingConfig, s: Surface, input: Input): seq<RepeatOp>
    requires Sound(s, mapping)
  {
    match input
    case Controller(bytes, at) =>
      if |bytes| < codecs.inputSize then []
      else if codecs.decode(bytes).None? then [Counted(at)]
      else
        var numbered := s.(seqNo := NextByte(s.seqNo));
        [Counted(at), FromSource(Encoded(codecs, mapping, numbered, codecs.decode(bytes).value, at, true), at)]
    case Timer(at) =>
      var report := Replayed(codecs, mapping, s, at).report;
      if report.Some? then [FromRuntime(report.value, at), Tick(at)] else [Tick(at)]
  }

  function AskedAll(codecs: Codecs, mapping: MappingConfig, s: Surface, inputs: seq<Input>): seq<RepeatOp>
    requires Sound(s, mapping)
  {
    if inputs == [] then [] else
    var init := inputs[..|inputs| - 1];
    AskedAll(codecs, mapping, s, init) + Asked(codecs, mapping, Served(codecs, mapping, s, init), inputs[|inputs| - 1])
  }

  lemma PlayMore(c: Cadence, ops: seq<RepeatOp>, more: seq<RepeatOp>)
    requires Started(c) && |more| <= 2
    ensures |more| == 0 ==> Play(c, ops + more) == Play(c, ops)
    ensures |more| == 1 ==> Play(c, ops + more) == Act(Play(c, ops), more[0])
    ensures |more| == 2 ==> Play(c, ops + more) == Act(Act(Play(c, ops), more[0]), more[1])
  {
    hide Act, Started;
    var all := ops + more;
    if |more| == 0 {
      assert all == ops;
    } else if |more| == 1 {
      assert all[..|all| - 1] == ops;
    } else {
      var some := ops + [more[0]];
      assert some[..|some| - 1] == ops && all[..|all| - 1] == some;
    }
  }

  /** In repeat mode every input acts on the repeater exactly as the operations it asks for. */
  lemma OneCadence(codecs: Codecs, mapping: MappingConfig, s: Surface, input: Input)
    requires Sound(s, mapping) && s.repeater.Some? && s.repeater.value.lastReport.Some?
    ensures var ops := Asked(codecs, mapping, s, input);
            var s' := match input
                      case Controller(bytes, at) => HasRead(codecs, mapping, s, bytes, at)
                      case Timer(at) => Ticked(codecs, mapping, s, at);
            && s'.repeater.Some? && s'.repeater.value.lastReport.Some?
            && Started(CadenceOf(s))
            && CadenceOf(s') == Play(CadenceOf(s), ops)
  {
    hide Transform, RuntimesDeadline, MappingSafe, RuntimesOk, Play;
    var ops := Asked(codecs, mapping, s, input);
    PlayMore(CadenceOf(s), [], ops);
    assert [] + ops == ops;
    PlayNothing(CadenceOf(s));
  }

  lemma PlayNothing(c: Cadence)
    requires Started(c)
    ensures Play(c, []) == c
  {
  }

  lemma {:induction false} PlayConcat(c: Cadence, a: seq<RepeatOp>, b: seq<RepeatOp>)
    requires Started(c)
    ensures Play(c, a + b) == Play(Play(c, a), b)
    decreases |b|
  {
    if b == [] {
      assert a + b == a;
    } else {
      PlayConcat(c, a, b[..|b| - 1]);
      assert (a + b)[..|a + b| - 1] == a + b[..|b| - 1];
    }
  }

  /** A session's reports are those of one cadence, in which frames, replays and ticks interleave. */
  lemma {:induction false} SessionIsCadence(codecs: Codecs, mapping: MappingConfig, s: Surface, inputs: seq<Input>)
    requires Sound(s, mapping) && s.repeater.Some? && s.repeater.value.lastReport.Some?
    ensures var s' := Served(codecs, mapping, s, inputs);
            && s'.repeater.Some? && s'.repeater.value.lastReport.Some?
            && CadenceOf(s') == Play(CadenceOf(s), AskedAll(codecs, mapping, s, inputs))
  {
    hide HasRead, Ticked, MappingSafe, RuntimesOk, Asked;
    if inputs == [] {
      PlayNothing(CadenceOf(s));
    } else {
      var init := inputs[..|inputs| - 1];
      SessionIsCadence(codecs, mapping, s, init);
      var before := Served(codecs, mapping, s, init);
      OneCadence(codecs, mapping, before, inputs[|inputs| - 1]);
      PlayConcat(CadenceOf(s), AskedAll(codecs, mapping, s, init), Asked(codecs, mapping, before, inputs[|inputs| - 1]));
    }
  }

  lemma {:induction false} AskedOrdered(codecs: Codecs, mapping: MappingConfig, s: Surface, inputs: seq<Input>, t0: Time, now: Time)
    requires Sound(s, mapping) && InputsOrdered(inputs, t0) && t0 <= now
    requires inputs != [] ==> inputs[|inputs| - 1].at <= now
    ensures Ordered(AskedAll(codecs, mapping, s, inputs), t0)
    ensures forall i :: 0 <= i < |AskedAll(codecs, mapping, s, inputs)| ==> AskedAll(codecs, mapping, s, inputs)[i].at <= now
  {
    hide MappingSafe, RuntimesOk, Asked, Ordered, HasRead, Ticked;
    if inputs == [] {
      NothingOrdered(t0);
    } else {
      var init, last := inputs[..|inputs| - 1], inputs[|inputs| - 1];
      AskedOrdered(codecs, mapping, s, init, t0, last.at);
      var before := Served(codecs, mapping, s, init);
      AskedAt(codecs, mapping, before, last);
      OrderedMore(AskedAll(codecs, mapping, s, init), Asked(codecs, mapping, before, last), t0, last.at);
    }
  }

  lemma NothingOrdered(t0: Time)
    ensures Ordered([], t0)
  {
  }

  lemma AskedAt(codecs: Codecs, mapping: MappingConfig, s: Surface, input: Input)
    requires Sound(s, mapping)
    ensures forall i :: 0 <= i < |Asked(codecs, mapping, s, input)| ==> Asked(codecs, mapping, s, input)[i].at == input.at
  {
    hide MappingSafe, RuntimesOk, Transform, Replayed, Encoded;
  }

  lemma OrderedMore(ops: seq<RepeatOp>, more: seq<RepeatOp>, t0: Time, at: Time)
    requires Ordered(ops, t0) && t0 <= at
    requires forall i :: 0 <= i < |ops| ==> ops[i].at <= at
    requires forall i :: 0 <= i < |more| ==> more[i].at == at
    ensures Ordered(ops + more, t0) && forall i :: 0 <= i < |ops + more| ==> (ops + more)[i].at <= at
  {
  }

  /**
   * The virtual device's report rate: from the source report that starts the repeater at `t0` until
   * `now`, at most one report per elapsed interval, plus the first, however many frames, runtime
   * refreshes and timer ticks the session serves and whatever it sent before.
   */
  lemma SessionRate(codecs: Codecs, mapping: MappingConfig, s: Surface, inputs: seq<Input>, t0: Time, now: Time)
    requires Sound(s, mapping) && s.repeater.Some? && s.repeater.value.lastReport.Some?
    requires s.repeater.value.nextTick == Some(t0)
    requires InputsOrdered(inputs, t0) && t0 <= now
    requires inputs != [] ==> inputs[|inputs| - 1].at <= now
    ensures |Served(codecs, mapping, s, inputs).sent| - |s.sent| <= (now - t0) / s.repeater.value.interval + 1
  {
    hide MappingSafe, RuntimesOk, Served, AskedAll, Play;
    SessionIsCadence(codecs, mapping, s, inputs);
    AskedOrdered(codecs, mapping, s, inputs, t0, now);
    RateBound(CadenceOf(s), t0, AskedAll(codecs, mapping, s, inputs), now);
  }

  lemma {:induction false} ServedConcat(codecs: Codecs, mapping: MappingConfig, s: Surface, a: seq<Input>, b: seq<Input>)
    requires Sound(s, mapping)
    ensures Served(codecs, mapping, s, a + b) == Served(codecs, mapping, Served(codecs, mapping, s, a), b)
    decreases |b|
  {
    hide Sound, HasRead, Ticked;
    if b == [] {
      assert a + b == a;
    } else {
      ServedConcat(codecs, mapping, s, a, b[..|b| - 1]);
      assert (a + b)[..|a + b| - 1] == a + b[..|b| - 1];
    }
  }

  /** The report that an input brings the repeater. */
  function SourceReport(codecs: Codecs, mapping: MappingConfig, s: Surface, first: Input): Bytes
    requires RuntimesOk(s.view, mapping) && first.Controller? && Decodes(codecs, first.bytes)
  {
    Encoded(codecs, mapping, s.(seqNo := NextByte(s.seqNo)), codecs.decode(first.bytes).value, first.at, true)
  }

  lemma FirstServed(codecs: Codecs, mapping: MappingConfig, s: Surface, inputs: seq<Input>)
    requires Sound(s, mapping) && s.repeater.Some?
    requires inputs != [] && inputs[0].Controller? && Decodes(codecs, inputs[0].bytes)
    ensures var s1 := HasRead(codecs, mapping, s, inputs[0].bytes, inputs[0].at);
            && Sound(s1, mapping)
            && Served(codecs, mapping, s, inputs) == Served(codecs, mapping, s1, inputs[1..])
            && s1.repeater == Some(Stored(s.repeater.value, SourceReport(codecs, mapping, s, inputs[0]), inputs[0].at))
            && s1.sent == s.sent
  {
    hide RuntimesOk, MappingSafe, Transform;
    FeedKeepsSound(codecs, mapping, s, inputs[0].bytes, inputs[0].at);
    assert inputs == [inputs[0]] + inputs[1..];
    ServedConcat(codecs, mapping, s, [inputs[0]], inputs[1..]);
    assert [inputs[0]][..0] == [];
  }

  /** The same bound from a cleared repeater, as after a configuration switch: its first frame starts the clock. */
  lemma RateFromFirstFrame(codecs: Codecs, mapping: MappingConfig, s: Surface, inputs: seq<Input>, now: Time)
    requires Sound(s, mapping) && s.repeater.Some? && Restarted(s.repeater)
    requires inputs != [] && inputs[0].Controller? && Decodes(codecs, inputs[0].bytes)
    requires InputsOrdered(inputs, inputs[0].at) && inputs[|inputs| - 1].at <= now
    ensures |Served(codecs, mapping, s, inputs).sent| - |s.sent|
            <= (now - inputs[0].at) / s.repeater.value.interval + 1
  {
    hide RuntimesOk, MappingSafe, Transform, Served, HasRead;
    FirstServed(codecs, mapping, s, inputs);
    SessionRate(codecs, mapping, HasRead(codecs, mapping, s, inputs[0].bytes, inputs[0].at), inputs[1..], inputs[0].at, now);
  }

  /** No input brings a new source report. */
  predicate NoFrame(codecs: Codecs, inputs: seq<Input>) {
    forall i :: 0 <= i < |inputs| && inputs[i].Controller? ==> !Decodes(codecs, inputs[i].bytes)
  }

  lemma {:induction false} AskedNoSource(codecs: Codecs, mapping: MappingConfig, s: Surface, inputs: seq<Input>)
    requires Sound(s, mapping) && NoFrame(codecs, inputs)
    requires forall frame, n :: |codecs.encode(frame, n)| >= 32
    ensures NoSource(AskedAll(codecs, mapping, s, inputs)) && FullReports(AskedAll(codecs, mapping, s, inputs))
  {
    hide MappingSafe, RuntimesOk, Transform, RuntimesDeadline, Served, Prepare, Stored;
    if inputs != [] {
      AskedNoSource(codecs, mapping, s, inputs[..|inputs| - 1]);
    }
  }

  /**
   * From a source report on, in `seq_ts` mode, until the next one: the nth report sent carries the
   * source report's timestamp plus n deltas, whatever runtime replays and dropped reads come between.
   */
  lemma SessionStamps(codecs: Codecs, mapping: MappingConfig, s: Surface, inputs: seq<Input>)
    requires Sound(s, mapping) && s.repeater.Some?
    requires s.repeater.value.mode == SeqAndTimestamp && s.repeater.value.target == Ds5Usb
    requires inputs != [] && inputs[0].Controller? && Decodes(codecs, inputs[0].bytes)
    requires NoFrame(codecs, inputs[1..]) && forall frame, n :: |codecs.encode(frame, n)| >= 32
    ensures var s' := Served(codecs, mapping, s, inputs);
            && s.sent <= s'.sent
            && forall i :: |s.sent| <= i < |s'.sent| ==>
                 |s'.sent[i]| >= 32
                 && Timestamp(s'.sent[i])
                    == NthStamp(Timestamp(SourceReport(codecs, mapping, s, inputs[0])), i + 1 - |s.sent|, s.repeater.value.delta)
  {
    hide MappingSafe, RuntimesOk, Served, AskedAll, Play, HasRead, Transform, FullReports, NoSource, NoFrame;
    FirstServed(codecs, mapping, s, inputs);
    var s1 := HasRead(codecs, mapping, s, inputs[0].bytes, inputs[0].at);
    var stamp := Timestamp(SourceReport(codecs, mapping, s, inputs[0]));
    StoredCarries(s1, stamp);
    SessionIsCadence(codecs, mapping, s1, inputs[1..]);
    AskedNoSource(codecs, mapping, s1, inputs[1..]);
    NthTimestamp(CadenceOf(s1), stamp, AskedAll(codecs, mapping, s1, inputs[1..]));
  }

  lemma StoredCarries(s: Surface, stamp: nat)
    requires s.repeater.Some? && WellFormed(s.repeater.value) && s.repeater.value.lastReport.Some?
    requires s.repeater.value.mode == SeqAndTimestamp && s.repeater.value.target == Ds5Usb
    requires |s.repeater.value.lastReport.value| >= 32 && Timestamp(s.repeater.value.lastReport.value) == stamp
    ensures Carries(CadenceOf(s), stamp, 0)
  {
  }
}

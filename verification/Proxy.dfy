/** The proxy between the controller, the virtual device and the timers (src/proxy/mod.rs). */
module Proxy {
  import opened Model
  import opened Mapping
  import opened Runtime
  import opened Pipeline
  import PipelineRuns
  import opened Repeat
  import opened Session
  import opened Haptics
  import opened Output
  import opened Keyboard
  import Config
  import ConfigCheck
  import ConfigCompile

  /** What one non-blocking read of the controller yields. */
  datatype Read = Data(bytes: Bytes, at: Time) | WouldBlock | Gone | Broken

  datatype Result = Done | NoCachedFrame | SendFailed | ReadFailed

  datatype Applied = Accepted | LoadFailed | ValidationFailed | MappingFailed

  datatype ProxyEvent =
    | ControllerReady(batch: seq<Read>)
    | SwitchRequested(source: string, parsed: Option<Config.ConfigFile>, at: Time)
    | PcmReady(frame: AudioFrame, at: Time)
    | TimerFired(at: Time)
    | HungUp

  /** The planned step happened, except that a report the virtual device refused is not among those sent. */
  predicate Attempted(planned: Surface, sent: seq<Bytes>, lost: seq<Bytes>, after: Surface, lost': seq<Bytes>, result: Result) {
    if result == Done then after == planned && lost' == lost
    else
      && result == SendFailed && sent < planned.sent
      && after == planned.(sent := sent) && lost' == lost + planned.sent[|sent|..]
  }

  /** How many reads precede the first that yields no data. */
  function Readable(batch: seq<Read>): (n: nat)
    ensures n <= |batch|
    ensures forall i :: 0 <= i < n ==> batch[i].Data? && batch[i].bytes != []
    ensures n < |batch| ==> !(batch[n].Data? && batch[n].bytes != [])
  {
    if batch != [] && batch[0].Data? && batch[0].bytes != [] then 1 + Readable(batch[1..]) else 0
  }

  /** The first read without data is this one. */
  predicate Stops(batch: seq<Read>, read: Read) {
    Readable(batch) < |batch| && batch[Readable(batch)] == read
  }

  /** End of file counts as a vanished controller. */
  predicate StopsGone(batch: seq<Read>) {
    Readable(batch) < |batch| && (batch[Readable(batch)].Gone? || batch[Readable(batch)].Data?)
  }

  function Arrived(batch: seq<Read>, n: nat): seq<Input>
    requires n <= Readable(batch)
  {
    seq(n, i requires 0 <= i < n => Controller(batch[i].bytes, batch[i].at))
  }

  /** Nothing is due after a tick, whether or not its write succeeded. */
  lemma AfterTick(codecs: Codecs, mapping: MappingConfig, s: Surface, now: Time, after: Surface,
                  lost: seq<Bytes>, lost': seq<Bytes>, result: Result)
    requires Sound(s, mapping) && Attempted(Ticked(codecs, mapping, s, now), s.sent, lost, after, lost', result)
    ensures RuntimesOk(after.view, mapping) && Cached(after.(seqNo := 0))
    ensures !RuntimeDue(after, now)
    ensures after.repeater.Some? ==> NoneDueBy(after.repeater.value.nextTick, now)
  {
    hide Ticked, RuntimesOk, MappingSafe, RuntimesDeadline;
    TickSettles(codecs, mapping, s, now);
  }

  lemma NothingDue(codecs: Codecs, mapping: MappingConfig, s: Surface, now: Time, lost: seq<Bytes>)
    requires Sound(s, mapping) && !RuntimeDue(s, now)
    requires s.repeater.Some? ==> NoneDueBy(s.repeater.value.nextTick, now)
    ensures Attempted(Ticked(codecs, mapping, s, now), s.sent, lost, s, lost, Done)
  {
    hide RuntimesOk, MappingSafe, RuntimesDeadline;
  }

  /** A read leaves the session sound, whether or not its write succeeded. */
  lemma AfterRead(codecs: Codecs, mapping: MappingConfig, s: Surface, bytes: Bytes, at: Time, after: Surface,
                  lost: seq<Bytes>, lost': seq<Bytes>, result: Result)
    requires Sound(s, mapping) && Attempted(HasRead(codecs, mapping, s, bytes, at), s.sent, lost, after, lost', result)
    ensures Cached(after.(seqNo := 0))
    ensures result == Done || result == SendFailed
    ensures result == Done ==> after == HasRead(codecs, mapping, s, bytes, at) && lost' == lost
    ensures result == SendFailed ==> lost < lost'
  {
    hide HasRead, RuntimesOk, MappingSafe;
    FeedKeepsSound(codecs, mapping, s, bytes, at);
  }

  lemma ServedNone(codecs: Codecs, mapping: MappingConfig, s: Surface, batch: seq<Read>)
    requires Sound(s, mapping)
    ensures Served(codecs, mapping, s, Arrived(batch, 0)) == s
  {
    hide HasRead, RuntimesOk, MappingSafe;
  }

  lemma ServedNext(codecs: Codecs, mapping: MappingConfig, s: Surface, batch: seq<Read>, i: nat)
    requires Sound(s, mapping) && i < Readable(batch)
    ensures Served(codecs, mapping, s, Arrived(batch, i + 1)) ==
            HasRead(codecs, mapping, Served(codecs, mapping, s, Arrived(batch, i)), batch[i].bytes, batch[i].at)
  {
    hide HasRead, RuntimesOk, MappingSafe;
    assert Arrived(batch, i + 1)[..i] == Arrived(batch, i);
  }

  class Proxy {
    const codecs: Codecs
    const repeat: RepeatInput?
    const audio: AudioOutput
    const keyboard: KeyboardDevice
    var mapping: MappingConfig
    var runtimes: MappingRuntimes
    var lastFrame: Option<ControllerFrame>
    var activeConfig: Option<string>
    var outputDevice: string
    var recreateUhid: bool
    /** Input reports the virtual device accepted. */
    ghost var uhid: seq<Bytes>
    /** Input reports whose write failed. */
    ghost var refused: seq<Bytes>

    /** The value of `runtimes`, kept in step with it. */
    ghost var view: Runtimes

    /** The values that decide which reports the virtual device gets, and the keys asked for. */
    ghost function SurfaceAt(seqNo: Byte): Surface
      reads this, repeat, keyboard
    {
      Surface(lastFrame, view, if repeat == null then None else Some(repeat.View()), seqNo, uhid, keyboard.wanted)
    }

    /** The runtimes are the ones the mapping in force asks for, and none of them can trip an assertion. */
    ghost predicate Timed()
      reads this, runtimes.turbo, runtimes.combo, runtimes.macros
    {
      runtimes.Valid() && runtimes.View() == view && RuntimesOk(view, mapping)
    }

    ghost predicate Valid()
      reads this, runtimes.turbo, runtimes.combo, runtimes.macros, repeat, keyboard, audio, audio.live
    {
      && MappingSafe(mapping) && Timed()
      && audio.Valid() && keyboard.Valid()
      && Cached(SurfaceAt(0))
    }

    /** These keys were asked for when those writes had been lost; `keyboard.Valid()` says what is held since. */
    ghost predicate KeysFollow(desired: set<nat>, lost: seq<KeyEvent>)
      reads keyboard
    {
      lost <= keyboard.refused && keyboard.wanted == desired && keyboard.since == |lost|
    }

    /** A tick on which the timing engine was due brings the keys in line; any other leaves them alone. */
    ghost predicate TickedKeys(before: Surface, held: set<nat>, lost: seq<KeyEvent>, now: Time)
      requires RuntimesOk(before.view, mapping)
      reads this, keyboard
    {
      if RuntimeDue(before, now) && before.frame.Some? then
        KeysFollow(Transform(before.frame.value, mapping, before.view, now, false).output.keyboard, lost)
      else keyboard.held == held && keyboard.refused == lost
    }

    /** The one-shot timer is armed for this instant. */
    function NextTimingDeadline(): Option<Time>
      reads this, runtimes.turbo, runtimes.combo, runtimes.macros, repeat, audio, audio.live
    {
      Earlier(RuntimesDeadline(runtimes.View()),
              Earlier(if repeat == null then None else repeat.nextTick, audio.live.deadline))
    }

    /** The instant the timer is armed for is due exactly when one of the three parts is, and is one of their deadlines. */
    lemma DeadlineLaw(now: Time)
      ensures NoneDueBy(NextTimingDeadline(), now) <==>
              && NoneDueBy(RuntimesDeadline(runtimes.View()), now)
              && (repeat != null ==> NoneDueBy(repeat.nextTick, now))
              && NoneDueBy(audio.live.deadline, now)
      ensures NextTimingDeadline().Some? ==>
        || NextTimingDeadline() == RuntimesDeadline(runtimes.View())
        || (repeat != null && NextTimingDeadline() == repeat.nextTick)
        || NextTimingDeadline() == audio.live.deadline
    {
      hide RuntimesDeadline, MappingRuntimes.View;
    }

    /** The audio part of a tick: the due frame, if any, is played and leaves the queue, or a refused write empties it. */
    ghost predicate AudioTicked(queue: Queue, active: bool, sent: seq<Command>, failed: nat, now: Time)
      reads audio, audio.live
    {
      var taken := Take(queue, now);
      if |audio.refused| == failed then
        && audio.live.View() == taken.queue
        && audio.sent == if taken.due.Some? then sent + LiveCommands(active, taken.due.value) else sent
      else audio.live.View() == EMPTY_QUEUE && !audio.speakerActive
    }

    constructor (codecs: Codecs, repeat: RepeatInput?, mapping: MappingConfig, activeConfig: Option<string>,
                 outputDevice: string, now: Time)
      requires MappingSafe(mapping)
      requires repeat != null ==> WellFormed(repeat.View()) && repeat.View() == Cleared(repeat.View())
      ensures Valid() && this.mapping == mapping && this.codecs == codecs && this.repeat == repeat
      ensures lastFrame.None? && !recreateUhid && uhid == [] && refused == []
      ensures SurfaceAt(0) == Fresh(mapping, now, SurfaceAt(0).repeater, 0, []) && Restarted(SurfaceAt(0).repeater)
      ensures fresh(audio) && fresh(audio.live) && fresh(keyboard)
      ensures fresh(runtimes.turbo) && fresh(runtimes.combo) && fresh(runtimes.macros)
    {
      FreshOk(mapping, now);
      this.codecs, this.repeat, this.mapping := codecs, repeat, mapping;
      this.activeConfig, this.outputDevice := activeConfig, outputDevice;
      audio := new AudioOutput();
      keyboard := new KeyboardDevice();
      runtimes := new MappingRuntimes.FromMapping(mapping, now);
      lastFrame, recreateUhid, uhid, refused, view := None, false, [], [], FreshRuntimes(mapping, now);
    }

    /** A virtual-device write that may fail. */
    method SendInput(report: Bytes) returns (ok: bool)
      modifies this`uhid, this`refused
      ensures uhid == if ok then old(uhid) + [report] else old(uhid)
      ensures refused == if ok then old(refused) else old(refused) + [report]
    {
      ok := *;
      if ok {
        uhid := uhid + [report];
      } else {
        refused := refused + [report];
      }
    }

    /** Transforms a frame, hands the keys to the keyboard and encodes the rest. */
    method EncodeFrame(frame: ControllerFrame, now: Time, timerTick: bool, seqNo: Byte)
      returns (report: Bytes)
      requires MappingSafe(mapping) && Timed() && keyboard.Valid()
      modifies this`view, runtimes.turbo, runtimes.combo, runtimes.macros, keyboard
      ensures Timed() && keyboard.Valid()
      ensures view == Transform(frame, mapping, old(view), now, !timerTick).runtimes
      ensures report == Encoded(codecs, mapping, old(SurfaceAt(seqNo)), frame, now, !timerTick)
      ensures KeysFollow(Transform(frame, mapping, old(view), now, !timerTick).output.keyboard, old(keyboard.refused))
    {
      hide Transform, RuntimesOk, KeyboardDevice.Consistent, Obeys, SyncedBy, MappingSafe;
      PipelineRuns.TransformKeepsOk(frame, mapping, view, now, !timerTick);
      var output := TransformInner(frame, mapping, runtimes, now, !timerTick);
      view := Transform(frame, mapping, view, now, !timerTick).runtimes;
      keyboard.Sync(output.keyboard);
      report := codecs.encode(frame.(state := output.state), seqNo);
    }

    /** The combined runtime, repeat and audio tick behind the one-shot timer. */
    method HandleTimingTick(seqNo: Byte, now: Time) returns (seqNo': Byte, result: Result)
      requires Valid()
      modifies this`view, this`uhid, this`refused, runtimes.turbo, runtimes.combo, runtimes.macros, keyboard, audio, audio.live, repeat
      ensures Valid()
      ensures result == Done && !audio.disconnected ==> NoneDueBy(NextTimingDeadline(), now)
      ensures Sound(old(SurfaceAt(seqNo)), mapping)
      ensures if old(audio.live.deadline).Some? && audio.disconnected
              then result == Done && SurfaceAt(seqNo') == old(SurfaceAt(seqNo)) && unchanged(keyboard)
              else Attempted(Ticked(codecs, mapping, old(SurfaceAt(seqNo)), now), old(uhid), old(refused),
                             SurfaceAt(seqNo'), refused, result)
                   && TickedKeys(old(SurfaceAt(seqNo)), old(keyboard.held), old(keyboard.refused), now)
      ensures AudioTicked(old(audio.live.View()), old(audio.speakerActive), old(audio.sent), |old(audio.refused)|, now)
    {
      hide Transform, RuntimesOk, RuntimesDeadline, MappingSafe, MappingRuntimes.View, Attempted, Ticked, Take, AudioOutput.Valid;
      hide KeyboardDevice.Valid, MappingRuntimes.Valid, LiveHaptics.View, KeysFollow, TickedKeys, WellFormed, LiveCommands;
      seqNo', result := seqNo, Done;
      var hapticsActive := audio.live.deadline.Some?;
      audio.HandleHapticsTick(now);
      if hapticsActive && audio.disconnected {
        return;
      }
      seqNo', result := ServeTick(now, seqNo);
    }

    /** The tick after its audio part. */
    method ServeTick(now: Time, seqNo: Byte) returns (seqNo': Byte, result: Result)
      requires Sound(SurfaceAt(seqNo), mapping) && Timed() && keyboard.Valid()
      modifies this`view, this`uhid, this`refused, runtimes.turbo, runtimes.combo, runtimes.macros, keyboard, repeat
      ensures Timed() && keyboard.Valid() && Cached(SurfaceAt(0))
      ensures NoneDueBy(RuntimesDeadline(view), now) && (repeat != null ==> NoneDueBy(repeat.nextTick, now))
      ensures Attempted(Ticked(codecs, mapping, old(SurfaceAt(seqNo)), now), old(uhid), old(refused), SurfaceAt(seqNo'), refused, result)
      ensures TickedKeys(old(SurfaceAt(seqNo)), old(keyboard.held), old(keyboard.refused), now)
    {
      hide Transform, RuntimesOk, RuntimesDeadline, MappingSafe, MappingRuntimes.View, Attempted, Ticked;
      hide KeyboardDevice.Valid, MappingRuntimes.Valid, KeysFollow;
      seqNo', result := seqNo, Done;
      ghost var s := SurfaceAt(seqNo);
      var runtimeDue := !NoneDueBy(RuntimesDeadline(runtimes.View()), now);
      var repeatDue := repeat != null && !NoneDueBy(repeat.nextTick, now);
      if !runtimeDue && !repeatDue {
        NothingDue(codecs, mapping, s, now, refused);
        return;
      }
      seqNo', result := ServeDue(runtimeDue, now, seqNo);
      AfterTick(codecs, mapping, s, now, SurfaceAt(seqNo'), old(refused), refused, result);
    }

    /** The runtime and repeat part of a tick on which at least one of them is due. */
    method ServeDue(runtimeDue: bool, now: Time, seqNo: Byte) returns (seqNo': Byte, result: Result)
      requires Sound(SurfaceAt(seqNo), mapping) && Timed() && keyboard.Valid()
      requires runtimeDue <==> RuntimeDue(SurfaceAt(seqNo), now)
      modifies this`view, this`uhid, this`refused, runtimes.turbo, runtimes.combo, runtimes.macros, keyboard, repeat
      ensures Timed() && keyboard.Valid()
      ensures Attempted(Ticked(codecs, mapping, old(SurfaceAt(seqNo)), now), old(uhid), old(refused), SurfaceAt(seqNo'), refused, result)
      ensures TickedKeys(old(SurfaceAt(seqNo)), old(keyboard.held), old(keyboard.refused), now)
    {
      hide Transform, RuntimesOk, RuntimesDeadline, MappingSafe, MappingRuntimes.View;
      hide KeyboardDevice.Valid, MappingRuntimes.Valid, KeysFollow;
      seqNo', result := seqNo, Done;
      var updated: Option<Bytes> := None;
      if runtimeDue {
        DueMeansRunning(view, now);
        seqNo', updated := RefreshFrame(now, seqNo');
        if updated.None? {
          return seqNo', NoCachedFrame;
        }
      }
      if repeat != null {
        seqNo', result := EmitRepeat(updated, now, seqNo');
      } else if updated.Some? {
        var ok := SendInput(updated.value);
        if !ok {
          result := SendFailed;
        }
      }
    }

    /** Replays the cached frame through the due runtimes; None when there is no frame to replay. */
    method RefreshFrame(now: Time, seqNo: Byte) returns (seqNo': Byte, updated: Option<Bytes>)
      requires MappingSafe(mapping) && Timed() && keyboard.Valid()
      requires RuntimeDue(SurfaceAt(seqNo), now)
      modifies this`view, runtimes.turbo, runtimes.combo, runtimes.macros, keyboard
      ensures Timed() && keyboard.Valid()
      ensures Refresh(SurfaceAt(seqNo'), updated) == Replayed(codecs, mapping, old(SurfaceAt(seqNo)), now)
      ensures lastFrame.Some? ==>
        KeysFollow(Transform(lastFrame.value, mapping, old(view), now, false).output.keyboard, old(keyboard.refused))
    {
      hide Transform, RuntimesOk, RuntimesDeadline;
      seqNo' := seqNo;
      if lastFrame.None? {
        return seqNo', None;
      }
      if repeat == null {
        seqNo' := NextByte(seqNo');
      }
      var report := EncodeFrame(lastFrame.value, now, true, seqNo');
      updated := Some(report);
    }

    /** Refreshes the cached report, then lets the repeater decide whether to send it. */
    method EmitRepeat(updated: Option<Bytes>, now: Time, seqNo: Byte) returns (seqNo': Byte, result: Result)
      requires repeat != null && repeat.interval > 0
      requires updated.Some? ==> repeat.lastReport.Some?
      modifies this`uhid, this`refused, repeat
      ensures Attempted(Emitted(old(SurfaceAt(seqNo)), updated, now), old(uhid), old(refused), SurfaceAt(seqNo'), refused, result)
    {
      result := Done;
      if updated.Some? {
        repeat.StoreRuntime(updated.value);
      }
      var report;
      report, seqNo' := repeat.PrepareReport(now, seqNo);
      if report.Some? {
        var ok := SendInput(report.value);
        if !ok {
          result := SendFailed;
        }
      }
    }

    /** A decoded controller frame: remembered, transformed, and cached or sent. */
    method TakeFrame(frame: ControllerFrame, now: Time, seqNo: Byte) returns (result: Result)
      requires Sound(SurfaceAt(seqNo), mapping) && Timed() && keyboard.Valid()
      modifies this`lastFrame, this`view, this`uhid, this`refused, runtimes.turbo, runtimes.combo, runtimes.macros, keyboard, repeat
      ensures Timed() && keyboard.Valid()
      ensures Attempted(Fed(codecs, mapping, old(SurfaceAt(seqNo)), frame, now), old(uhid), old(refused), SurfaceAt(seqNo), refused, result)
      ensures KeysFollow(Transform(frame, mapping, old(view), now, true).output.keyboard, old(keyboard.refused))
    {
      hide Transform, RuntimesOk, MappingSafe, MappingRuntimes.View;
      lastFrame := Some(frame);
      var report := EncodeFrame(frame, now, false, seqNo);
      result := Done;
      if repeat != null {
        repeat.StoreSource(report, now);
      } else {
        var ok := SendInput(report);
        result := if ok then Done else SendFailed;
      }
    }

    /** Reads the controller until it would block; an undecodable report only uses up a sequence number. */
    method HandleHidrawInput(batch: seq<Read>, seqNo: Byte) returns (seqNo': Byte, result: Result)
      requires Valid()
      modifies this`lastFrame, this`view, this`uhid, this`refused, runtimes.turbo, runtimes.combo, runtimes.macros, keyboard, repeat,
        audio`disconnected
      ensures Valid() && Sound(old(SurfaceAt(seqNo)), mapping)
      ensures result == Done || result == ReadFailed ==>
        SurfaceAt(seqNo') == Served(codecs, mapping, old(SurfaceAt(seqNo)), Arrived(batch, Readable(batch)))
      ensures if result == SendFailed then old(refused) < refused
              else refused == old(refused) && result == (if Stops(batch, Broken) then ReadFailed else Done)
      ensures result != SendFailed ==> audio.disconnected == (old(audio.disconnected) || StopsGone(batch))
    {
      hide Transform, RuntimesOk, MappingSafe, MappingRuntimes.View, Attempted, HasRead, Served, Readable;
      var gone;
      seqNo', result, gone := DrainReads(batch, seqNo);
      if gone {
        audio.disconnected := true;
      }
    }

    method DrainReads(batch: seq<Read>, seqNo: Byte) returns (seqNo': Byte, result: Result, gone: bool)
      requires MappingSafe(mapping) && Timed() && keyboard.Valid() && Cached(SurfaceAt(0))
      modifies this`lastFrame, this`view, this`uhid, this`refused, runtimes.turbo, runtimes.combo, runtimes.macros, keyboard, repeat
      ensures Timed() && keyboard.Valid() && Cached(SurfaceAt(0))
      ensures result == Done || result == ReadFailed ==>
        SurfaceAt(seqNo') == Served(codecs, mapping, old(SurfaceAt(seqNo)), Arrived(batch, Readable(batch)))
      ensures if result == SendFailed then old(refused) < refused
              else refused == old(refused) && result == (if Stops(batch, Broken) then ReadFailed else Done)
      ensures result != SendFailed ==> gone == StopsGone(batch)
    {
      hide Transform, RuntimesOk, MappingSafe, MappingRuntimes.View, Attempted, HasRead, Served, Readable;
      hide KeyboardDevice.Valid, MappingRuntimes.Valid;
      ghost var s := SurfaceAt(seqNo);
      seqNo', result, gone := seqNo, Done, false;
      ServedNone(codecs, mapping, s, batch);
      for i := 0 to |batch|
        invariant Timed() && keyboard.Valid() && Cached(SurfaceAt(0))
        invariant i <= Readable(batch) && result == Done && !gone && refused == old(refused)
        invariant SurfaceAt(seqNo') == Served(codecs, mapping, s, Arrived(batch, i))
      {
        match batch[i] {
          case WouldBlock => return;
          case Gone => return seqNo', Done, true;
          case Broken => return seqNo', ReadFailed, false;
          case Data(bytes, at) =>
            if |bytes| == 0 {
              return seqNo', Done, true;
            }
            ServedNext(codecs, mapping, s, batch, i);
            ghost var before, lost := SurfaceAt(seqNo'), refused;
            seqNo', result := TakeRead(bytes, at, seqNo');
            AfterRead(codecs, mapping, before, bytes, at, SurfaceAt(seqNo'), lost, refused, result);
            if result != Done {
              return;
            }
        }
      }
    }

    method TakeRead(bytes: Bytes, at: Time, seqNo: Byte) returns (seqNo': Byte, result: Result)
      requires Sound(SurfaceAt(seqNo), mapping) && Timed() && keyboard.Valid()
      modifies this`lastFrame, this`view, this`uhid, this`refused, runtimes.turbo, runtimes.combo, runtimes.macros, keyboard, repeat
      ensures Timed() && keyboard.Valid()
      ensures Attempted(HasRead(codecs, mapping, old(SurfaceAt(seqNo)), bytes, at), old(uhid), old(refused), SurfaceAt(seqNo'), refused, result)
    {
      hide Transform, RuntimesOk, MappingSafe, MappingRuntimes.View;
      seqNo', result := seqNo, Done;
      if |bytes| >= codecs.inputSize {
        seqNo' := NextByte(seqNo');
        var frame := codecs.decode(bytes);
        if frame.Some? {
          result := TakeFrame(frame.value, at, seqNo');
        }
      }
    }

    /** Switches to a new configuration, or refuses it and changes nothing. */
    method ApplyActiveConfig(source: string, parsed: Option<Config.ConfigFile>, keys: Config.KeyTable, now: Time)
      returns (result: Applied)
      requires Valid()
      modifies this, repeat, keyboard
      ensures Valid()
      ensures result == Accepted <==> parsed.Some? && ConfigCheck.Acceptable(parsed.value, keys)
      ensures result != MappingFailed
      ensures result != Accepted ==> unchanged(this) && unchanged(keyboard) && (repeat != null ==> unchanged(repeat))
      ensures result == Accepted ==>
        && ConfigCompile.CompiledFrom(parsed.value, keys, mapping)
        && view == FreshRuntimes(mapping, now) && !view.Running() && RuntimesDeadline(view).None?
        && (repeat != null ==> repeat.nextTick.None? && repeat.lastReport.None?)
        && lastFrame.None? && activeConfig == Some(source)
        && outputDevice == parsed.value.outputDevice
        && recreateUhid == (old(recreateUhid) || old(outputDevice) != parsed.value.outputDevice)
        && refused == old(refused) && KeysFollow({}, old(keyboard.refused))
        && SurfaceAt(0) == Fresh(mapping, now, SurfaceAt(0).repeater, 0, old(uhid)) && Restarted(SurfaceAt(0).repeater)
      ensures runtimes == old(runtimes) || (fresh(runtimes.turbo) && fresh(runtimes.combo) && fresh(runtimes.macros))
    {
      hide RuntimesOk, MappingSafe, MappingRuntimes.View, ConfigCheck.Acceptable, ConfigCompile.CompiledFrom, ConfigCompile.Compilable;
      if parsed.None? {
        return LoadFailed;
      }
      var verdict := ConfigCheck.Validate(parsed.value, keys);
      if verdict.Err? {
        return ValidationFailed;
      }
      ConfigCheck.AcceptableCompiles(parsed.value, keys);
      var compiled := ConfigCompile.ToMappingConfig(parsed.value, keys);
      if compiled.None? {
        return MappingFailed;
      }
      ConfigCheck.AcceptableIsSafe(parsed.value, keys, compiled.value);
      InstallMapping(source, parsed.value.outputDevice, compiled.value, now);
      result := Accepted;
    }

    /** Drops the cached frame, the repeat schedule and every held key. */
    method ForgetInput()
      requires keyboard.Valid() && (repeat != null ==> WellFormed(repeat.View()))
      modifies this`lastFrame, repeat, keyboard
      ensures keyboard.Valid() && lastFrame.None? && KeysFollow({}, old(keyboard.refused))
      ensures repeat != null ==> WellFormed(repeat.View()) && repeat.nextTick.None? && repeat.lastReport.None?
    {
      lastFrame := None;
      if repeat != null {
        repeat.Clear();
      }
      keyboard.Sync({});
    }

    /** Runtimes for the mapping in force, with nothing running. */
    method RebuildRuntimes(now: Time)
      requires MappingSafe(mapping) && audio.Valid() && keyboard.Valid() && lastFrame.None?
      requires repeat != null ==> WellFormed(repeat.View())
      modifies this`runtimes, this`view
      ensures Valid() && view == FreshRuntimes(mapping, now) && !view.Running() && RuntimesDeadline(view).None?
      ensures fresh(runtimes.turbo) && fresh(runtimes.combo) && fresh(runtimes.macros)
    {
      hide RuntimesOk, MappingSafe, RuntimesDeadline, FreshRuntimes, MappingRuntimes.View, AudioOutput.Valid, KeyboardDevice.Valid;
      FreshOk(mapping, now);
      runtimes := new MappingRuntimes.FromMapping(mapping, now);
      view := FreshRuntimes(mapping, now);
    }

    /** Another output device needs a new virtual device. */
    method RequestDevice(device: string)
      modifies this`recreateUhid, this`outputDevice
      ensures outputDevice == device
      ensures recreateUhid == (old(recreateUhid) || old(outputDevice) != device)
    {
      if device != outputDevice {
        recreateUhid := true;
      }
      outputDevice := device;
    }

    /** The commit half of a configuration switch. */
    method InstallMapping(source: string, device: string, newMapping: MappingConfig, now: Time)
      requires Valid() && MappingSafe(newMapping)
      modifies this, repeat, keyboard
      ensures Valid() && mapping == newMapping
      ensures view == FreshRuntimes(mapping, now) && !view.Running() && RuntimesDeadline(view).None?
      ensures repeat != null ==> repeat.nextTick.None? && repeat.lastReport.None?
      ensures lastFrame.None? && activeConfig == Some(source) && outputDevice == device
      ensures recreateUhid == (old(recreateUhid) || old(outputDevice) != device)
      ensures uhid == old(uhid) && refused == old(refused) && KeysFollow({}, old(keyboard.refused))
      ensures fresh(runtimes.turbo) && fresh(runtimes.combo) && fresh(runtimes.macros)
    {
      hide RuntimesOk, MappingSafe, RuntimesDeadline, FreshRuntimes, MappingRuntimes.View, AudioOutput.Valid, KeyboardDevice.Valid;
      hide MappingRuntimes.Valid, LiveHaptics.View, KeysFollow, KeyboardDevice.Consistent, AudioOutput.Consistent;
      mapping := newMapping;
      activeConfig := Some(source);
      ForgetInput();
      RequestDevice(device);
      RebuildRuntimes(now);
    }

    method ClearTimingState(now: Time)
      requires MappingSafe(mapping) && keyboard.Valid() && audio.Consistent()
      requires repeat != null ==> WellFormed(repeat.View())
      modifies this`lastFrame, this`runtimes, this`view, repeat, keyboard, audio, audio.live
      ensures Valid()
      ensures view == FreshRuntimes(mapping, now) && !view.Running() && lastFrame.None? && !audio.speakerActive
      ensures NextTimingDeadline().None? && KeysFollow({}, old(keyboard.refused))
      ensures old(audio.live.deadline).None? ==>
        audio.sent == old(audio.sent) || audio.sent == old(audio.sent) + [SpeakerMode(false)]
      ensures fresh(runtimes.turbo) && fresh(runtimes.combo) && fresh(runtimes.macros)
    {
      hide RuntimesOk, MappingSafe, RuntimesDeadline, FreshRuntimes, MappingRuntimes.View, AudioOutput.Consistent, KeyboardDevice.Valid;
      audio.StopLiveHaptics();
      ForgetInput();
      RebuildRuntimes(now);
    }

    /** The end of a session; a controller that is gone gets no farewell silence. */
    method Close(gone: bool, now: Time)
      requires Valid()
      modifies this`lastFrame, this`runtimes, this`view, repeat, keyboard, audio, audio.live
      ensures Valid() && !view.Running() && lastFrame.None? && !audio.speakerActive
      ensures NextTimingDeadline().None? && KeysFollow({}, old(keyboard.refused))
      ensures gone ==> audio.sent == old(audio.sent) || audio.sent == old(audio.sent) + [SpeakerMode(false)]
      ensures fresh(runtimes.turbo) && fresh(runtimes.combo) && fresh(runtimes.macros)
    {
      hide RuntimesOk, MappingSafe, RuntimesDeadline, FreshRuntimes, MappingRuntimes.View, KeyboardDevice.Valid, KeysFollow;
      if gone {
        audio.live.Reset();
      }
      ClearTimingState(now);
    }

    /** One wake-up of the event loop. */
    method Handle(event: ProxyEvent, keys: Config.KeyTable, seqNo: Byte) returns (seqNo': Byte, result: Result)
      requires Valid()
      modifies this, repeat, keyboard, audio, audio.live, runtimes.turbo, runtimes.combo, runtimes.macros
      ensures Valid() && result != NoCachedFrame
      ensures runtimes == old(runtimes) || (fresh(runtimes.turbo) && fresh(runtimes.combo) && fresh(runtimes.macros))
      ensures Sound(old(SurfaceAt(seqNo)), old(mapping))
      ensures !event.SwitchRequested? && result == Done && !audio.disconnected ==>
        mapping == old(mapping) && SurfaceAt(seqNo') == Served(codecs, mapping, old(SurfaceAt(seqNo)), Heard(event))
      ensures event.SwitchRequested? ==> result == Done && seqNo' == seqNo
      ensures event.SwitchRequested? ==>
        if event.parsed.Some? && ConfigCheck.Acceptable(event.parsed.value, keys) then
          && ConfigCompile.CompiledFrom(event.parsed.value, keys, mapping) && activeConfig == Some(event.source)
          && SurfaceAt(0) == Fresh(mapping, event.at, SurfaceAt(0).repeater, 0, old(uhid)) && Restarted(SurfaceAt(0).repeater)
        else unchanged(this) && unchanged(keyboard) && (repeat != null ==> unchanged(repeat))
      ensures event.TimerFired? ==>
        AudioTicked(old(audio.live.View()), old(audio.speakerActive), old(audio.sent), |old(audio.refused)|, event.at)
      ensures !event.TimerFired? ==> audio.sent == old(audio.sent)
      ensures !event.TimerFired? ==>
        audio.live.View() == if event.PcmReady? then Push(old(audio.live.View()), event.frame, event.at) else old(audio.live.View())
    {
      hide RuntimesOk, MappingSafe, RuntimesDeadline, FreshRuntimes, MappingRuntimes.View, Ticked, Served, Readable;
      hide ConfigCompile.CompiledFrom, ConfigCheck.Acceptable, AudioOutput.Consistent, KeyboardDevice.Valid, TickedKeys;
      seqNo', result := seqNo, Done;
      OneServed(codecs, mapping, SurfaceAt(seqNo), event);
      match event {
        case ControllerReady(batch) => seqNo', result := HandleHidrawInput(batch, seqNo);
        case SwitchRequested(source, parsed, at) => var _ := ApplyActiveConfig(source, parsed, keys, at);
        case PcmReady(frame, at) => audio.PushFrame(frame, at);
        case TimerFired(at) => seqNo', result := HandleTimingTick(seqNo, at);
        case HungUp =>
      }
    }
  }

  lemma OneServed(codecs: Codecs, mapping: MappingConfig, s: Surface, event: ProxyEvent)
    requires Sound(s, mapping)
    ensures event.TimerFired? ==> Served(codecs, mapping, s, Heard(event)) == Ticked(codecs, mapping, s, event.at)
    ensures Heard(event) == [] ==> Served(codecs, mapping, s, Heard(event)) == s
  {
    hide RuntimesOk, MappingSafe, RuntimesDeadline, Ticked, HasRead;
  }

  /** What an event brings the timing engine. */
  function Heard(event: ProxyEvent): seq<Input> {
    match event
    case ControllerReady(batch) => Arrived(batch, Readable(batch))
    case TimerFired(at) => [Timer(at)]
    case _ => []
  }

  /** A timer event is one timer input, a ready controller the reads up to the first that brings no data. */
  lemma HeardLaw(event: ProxyEvent)
    ensures event.TimerFired? ==> Heard(event) == [Timer(event.at)]
    ensures !event.TimerFired? && !event.ControllerReady? ==> Heard(event) == []
    ensures event.ControllerReady? ==>
      var batch, n := event.batch, |Heard(event)|;
      && n <= |batch|
      && (forall i :: 0 <= i < n ==>
            batch[i].Data? && batch[i].bytes != [] && Heard(event)[i] == Controller(batch[i].bytes, batch[i].at))
      && (n < |batch| ==> !batch[n].Data? || batch[n].bytes == [])
  {
    hide Readable;
  }

  function AllHeard(events: seq<ProxyEvent>): seq<Input> {
    if events == [] then [] else AllHeard(events[..|events| - 1]) + Heard(events[|events| - 1])
  }

  method MakeRepeater(setup: Option<(nat, RepeatMode, RepeatTarget)>) returns (repeat: RepeatInput?)
    requires setup.Some? ==> 1 <= setup.value.0 <= 2000
    ensures (repeat != null) == setup.Some?
    ensures repeat != null ==> fresh(repeat) && WellFormed(repeat.View()) && repeat.View() == Cleared(repeat.View())
  {
    repeat := null;
    if setup.Some? {
      repeat := new RepeatInput(setup.value.0, setup.value.1, setup.value.2);
    }
  }

  /**
   * A whole session: events in any order, with any device write failing. The error paths that the
   * source guards with an expect or an error return are never taken, and the session ends with
   * nothing running, nothing due, the speaker released and, but for releases refused at the very end,
   * no key held.
   */
  method RunSession(codecs: Codecs, repeatSetup: Option<(nat, RepeatMode, RepeatTarget)>, mapping: MappingConfig,
                    keys: Config.KeyTable, events: seq<ProxyEvent>, start: Time)
    returns (proxy: Proxy, result: Result)
    requires MappingSafe(mapping)
    requires repeatSetup.Some? ==> 1 <= repeatSetup.value.0 <= 2000
    ensures result != NoCachedFrame
    ensures fresh(proxy) && proxy.Valid()
    ensures !proxy.view.Running() && proxy.NextTimingDeadline().None? && !proxy.audio.speakerActive
    ensures proxy.keyboard.wanted == {}
  {
    hide RuntimesOk, MappingSafe, RuntimesDeadline, FreshRuntimes, MappingRuntimes.View, Served, Heard;
    hide ConfigCompile.CompiledFrom, ConfigCheck.Acceptable, AudioOutput.Valid, KeyboardDevice.Valid, Cached;
    var repeat := MakeRepeater(repeatSetup);
    proxy := new Proxy(codecs, repeat, mapping, None, "auto", start);
    var seqNo: Byte, gone := 0, false;
    result := Done;
    for i := 0 to |events|
      invariant result == Done
      invariant fresh(proxy) && proxy.Valid()
      invariant fresh(proxy.audio) && fresh(proxy.audio.live) && fresh(proxy.keyboard)
      invariant proxy.repeat != null ==> fresh(proxy.repeat)
      invariant fresh(proxy.runtimes.turbo) && fresh(proxy.runtimes.combo) && fresh(proxy.runtimes.macros)
    {
      seqNo, result := proxy.Handle(events[i], keys, seqNo);
      gone := result == Done && (proxy.audio.disconnected || events[i].HungUp?);
      if result != Done || gone || proxy.recreateUhid {
        break;
      }
    }
    proxy.Close(gone, start);
  }

  /** Every key that is still held was to be released in the last synchronisation, and that write was refused. */
  ghost predicate OnlyStuckKeys(keyboard: KeyboardDevice)
    reads keyboard
  {
    && keyboard.since <= |keyboard.refused|
    && forall code :: code in keyboard.held ==> KeyEvent(code, false) in keyboard.refused[keyboard.since..]
  }

  lemma WantingNothing(keyboard: KeyboardDevice)
    requires keyboard.Valid() && keyboard.wanted == {}
    ensures OnlyStuckKeys(keyboard)
  {
  }

  /**
   * A session between switches, still open: its surface is that of the inputs it was given, and no key
   * gets stuck: once only frames with nothing pressed came since input `n`, the largest release time
   * has passed and nothing is due any more, the keyboard holds nothing but keys whose release was refused.
   */
  method RunOpenSession(codecs: Codecs, repeatSetup: Option<(nat, RepeatMode, RepeatTarget)>, mapping: MappingConfig,
                        keys: Config.KeyTable, events: seq<ProxyEvent>, start: Time)
    returns (proxy: Proxy, seqNo: Byte, open: bool, ghost s0: Surface)
    requires MappingSafe(mapping)
    requires repeatSetup.Some? ==> 1 <= repeatSetup.value.0 <= 2000
    requires forall i :: 0 <= i < |events| ==> !events[i].SwitchRequested? && !events[i].HungUp?
    ensures fresh(proxy) && proxy.Valid()
    ensures s0 == Fresh(mapping, start, s0.repeater, 0, []) && Sound(s0, mapping)
    ensures Restarted(s0.repeater) && s0.repeater.Some? == repeatSetup.Some?
    ensures open ==> proxy.SurfaceAt(seqNo) == Served(codecs, mapping, s0, AllHeard(events))
    ensures open ==> forall n: nat, now ::
      QuietBy(codecs, mapping, start, AllHeard(events), n, now) && !RuntimeDue(proxy.SurfaceAt(seqNo), now) ==>
        OnlyStuckKeys(proxy.keyboard)
  {
    hide RuntimesOk, MappingSafe, RuntimesDeadline, FreshRuntimes, MappingRuntimes.View, Served, Heard;
    hide ConfigCompile.CompiledFrom, ConfigCheck.Acceptable, AudioOutput.Valid, KeyboardDevice.Valid, Cached, QuietBy;
    var repeat := MakeRepeater(repeatSetup);
    proxy := new Proxy(codecs, repeat, mapping, None, "auto", start);
    s0 := proxy.SurfaceAt(0);
    FreshSound(mapping, start, s0.repeater, 0, []);
    ServedNothing(codecs, mapping, s0);
    seqNo, open := 0, true;
    for i := 0 to |events|
      invariant open && fresh(proxy) && proxy.Valid() && proxy.mapping == mapping && proxy.codecs == codecs
      invariant fresh(proxy.audio) && fresh(proxy.audio.live) && fresh(proxy.keyboard)
      invariant proxy.repeat != null ==> fresh(proxy.repeat)
      invariant fresh(proxy.runtimes.turbo) && fresh(proxy.runtimes.combo) && fresh(proxy.runtimes.macros)
      invariant proxy.SurfaceAt(seqNo) == Served(codecs, mapping, s0, AllHeard(events[..i]))
    {
      assert events[..i + 1][..i] == events[..i];
      ServedConcat(codecs, mapping, s0, AllHeard(events[..i]), Heard(events[i]));
      var result;
      seqNo, result := proxy.Handle(events[i], keys, seqNo);
      open := result == Done && !proxy.audio.disconnected;
      if !open {
        return;
      }
    }
    assert events[..|events|] == events;
    forall n: nat, now | QuietBy(codecs, mapping, start, AllHeard(events), n, now) && !RuntimeDue(proxy.SurfaceAt(seqNo), now)
      ensures OnlyStuckKeys(proxy.keyboard)
    {
      NothingAsked(codecs, mapping, start, s0.repeater, AllHeard(events), n, now);
      WantingNothing(proxy.keyboard);
    }
  }

  lemma ServedNothing(codecs: Codecs, mapping: MappingConfig, s: Surface)
    requires Sound(s, mapping)
    ensures Served(codecs, mapping, s, []) == s
  {
  }

  /** The premises of `QuietSession`. */
  predicate QuietBy(codecs: Codecs, mapping: MappingConfig, start: Time, inputs: seq<Input>, n: nat, now: Time) {
    && InputsOrdered(inputs, start) && QuietFrom(codecs, mapping, inputs, n)
    && inputs[|inputs| - 1].at <= now && PipelineRuns.LastReleasePassed(mapping, inputs[n].at, now)
  }

  lemma NothingAsked(codecs: Codecs, mapping: MappingConfig, start: Time, repeater: Option<Repeater>, inputs: seq<Input>,
                     n: nat, now: Time)
    requires MappingSafe(mapping) && Restarted(repeater) && QuietBy(codecs, mapping, start, inputs, n, now)
    ensures Sound(Fresh(mapping, start, repeater, 0, []), mapping)
    ensures var s := Served(codecs, mapping, Fresh(mapping, start, repeater, 0, []), inputs);
            !RuntimeDue(s, now) ==> s.keys == {}
  {
    hide MappingSafe, Sound, Served, RuntimesDeadline, FreshRuntimes, QuietFrom, InputsOrdered;
    QuietSession(codecs, mapping, start, repeater, 0, [], inputs, n, now);
  }
}

/** Speaker mode and live audio writes to the physical controller (src/proxy/output.rs). */
module Output {
  import opened Model
  import opened Haptics

  datatype Command = SpeakerMode(on: bool) | Audio(haptics: seq<int>, speaker: seq<Byte>) | Samples(haptics: seq<int>)

  /** The speaker mode the controller is in after the writes that succeeded. */
  function DeviceMode(sent: seq<Command>): bool {
    if sent == [] then false
    else if sent[|sent| - 1].SpeakerMode? then sent[|sent| - 1].on
    else DeviceMode(sent[..|sent| - 1])
  }

  /** The writes one live frame calls for: a mode switch if the mode changes, then the frame itself. */
  function LiveCommands(speakerActive: bool, frame: AudioFrame): seq<Command> {
    (if speakerActive != frame.speaker.Some? then [SpeakerMode(frame.speaker.Some?)] else [])
    + [if frame.speaker.Some? then Audio(frame.haptics, frame.speaker.value) else Samples(frame.haptics)]
  }

  /** The audio among the writes, without the mode switches. */
  function Payloads(sent: seq<Command>): seq<Command> {
    if sent == [] then []
    else if sent[|sent| - 1].SpeakerMode? then Payloads(sent[..|sent| - 1])
    else Payloads(sent[..|sent| - 1]) + [sent[|sent| - 1]]
  }

  /** The write that carries a frame's own samples, and its speaker block if it has one. */
  predicate PlaysFrame(command: Command, frame: AudioFrame) {
    match command
    case SpeakerMode(_) => false
    case Audio(haptics, speaker) => haptics == frame.haptics && frame.speaker == Some(speaker)
    case Samples(haptics) => haptics == frame.haptics && frame.speaker == None
  }

  lemma PayloadsSnoc(sent: seq<Command>, command: Command)
    ensures Payloads(sent + [command]) == Payloads(sent) + if command.SpeakerMode? then [] else [command]
  {
    assert (sent + [command])[..|sent|] == sent;
  }

  /**
   * The writes of one frame play that frame and no other, with the speaker in the mode the frame needs;
   * a mode that already fits is not written again.
   */
  lemma FramePlayed(sent: seq<Command>, active: bool, frame: AudioFrame)
    ensures var commands := LiveCommands(active, frame);
            var after := sent + commands;
            && commands != [] && PlaysFrame(commands[|commands| - 1], frame)
            && Payloads(after) == Payloads(sent) + [commands[|commands| - 1]]
            && (DeviceMode(sent) == active ==> DeviceMode(after) == frame.speaker.Some?)
            && (active == frame.speaker.Some? ==> |commands| == 1) && |commands| <= 2
  {
    hide Payloads, DeviceMode;
    var commands := LiveCommands(active, frame);
    var mode, play := commands[..|commands| - 1], commands[|commands| - 1];
    if mode == [] {
      assert sent + commands == sent + [play];
      PayloadsSnoc(sent, play);
      Appended(sent, play);
    } else {
      assert sent + commands == sent + [mode[0]] + [play];
      PayloadsSnoc(sent, mode[0]);
      PayloadsSnoc(sent + [mode[0]], play);
      Appended(sent, mode[0]);
      Appended(sent + [mode[0]], play);
    }
  }

  /** All the commands went out in order, or those before the first one refused. */
  ghost predicate Delivered(sent: seq<Command>, commands: seq<Command>, refused: seq<Command>,
                            sent': seq<Command>, refused': seq<Command>, ok: bool) {
    if ok then sent' == sent + commands && refused' == refused
    else exists n :: 0 <= n < |commands| && sent' == sent + commands[..n] && refused' == refused + [commands[n]]
  }

  lemma LostFirst(sent: seq<Command>, commands: seq<Command>, refused: seq<Command>)
    requires commands != []
    ensures Delivered(sent, commands, refused, sent, refused + [commands[0]], false)
  {
    assert commands[..0] == [] && sent + [] == sent;
  }

  /** With all but the last command out, the last one decides. */
  lemma LastDelivered(sent: seq<Command>, commands: seq<Command>, refused: seq<Command>)
    requires commands != []
    ensures var n := |commands| - 1;
            && Delivered(sent, commands, refused, sent + commands[..n] + [commands[n]], refused, true)
            && Delivered(sent, commands, refused, sent + commands[..n], refused + [commands[n]], false)
  {
    assert commands[..|commands| - 1] + [commands[|commands| - 1]] == commands;
  }

  /** No speaker block ever went to a controller whose speaker was not switched on. */
  predicate SpeakerBlocksHeard(sent: seq<Command>) {
    forall i :: 0 <= i < |sent| && sent[i].Audio? ==> DeviceMode(sent[..i])
  }

  lemma Appended(sent: seq<Command>, command: Command)
    ensures DeviceMode(sent + [command]) == if command.SpeakerMode? then command.on else DeviceMode(sent)
    ensures SpeakerBlocksHeard(sent) && (command.Audio? ==> DeviceMode(sent)) ==> SpeakerBlocksHeard(sent + [command])
  {
    assert (sent + [command])[..|sent|] == sent;
    forall i | 0 <= i < |sent| ensures (sent + [command])[..i] == sent[..i] {}
  }

  /** The mode switch, if there is one, comes first and the frame last. */
  lemma LiveOrder(active: bool, frame: AudioFrame)
    ensures var commands, n := LiveCommands(active, frame), |LiveCommands(active, frame)| - 1;
            && n >= 0
            && commands[..n] == (if frame.speaker.Some? != active then [SpeakerMode(frame.speaker.Some?)] else [])
            && (n > 0 ==> commands[0] == SpeakerMode(frame.speaker.Some?))
            && commands[n] == if frame.speaker.Some? then Audio(frame.haptics, frame.speaker.value) else Samples(frame.haptics)
  {
  }

  class AudioOutput {
    const live: LiveHaptics
    var speakerActive: bool
    var disconnected: bool
    /** Writes that reached the controller, and whether a switch-off was lost on the way. */
    ghost var sent: seq<Command>
    ghost var stopLost: bool
    /** Writes that failed. */
    ghost var refused: seq<Command>

    ghost predicate Valid()
      reads this, live
    {
      && (speakerActive ==> live.deadline.Some?)
      && Consistent()
    }

    /** The part that also holds between a failed write and the recovery from it. */
    ghost predicate Consistent()
      reads this, live
    {
      && (live.deadline.None? ==> live.frames == [])
      && (speakerActive ==> DeviceMode(sent))
      && (DeviceMode(sent) ==> speakerActive || stopLost)
      && SpeakerBlocksHeard(sent)
    }

    constructor ()
      ensures Valid() && fresh(live) && live.View() == EMPTY_QUEUE
      ensures !speakerActive && !disconnected && sent == [] && refused == [] && !stopLost
    {
      live := new LiveHaptics();
      speakerActive, disconnected, sent, refused, stopLost := false, false, [], [], false;
    }

    /** A device write that may fail, and may find the controller gone. */
    method SendCommand(command: Command) returns (ok: bool)
      modifies this`disconnected, this`sent, this`refused
      ensures ok ==> sent == old(sent) + [command] && refused == old(refused) && disconnected == old(disconnected)
      ensures !ok ==> sent == old(sent) && refused == old(refused) + [command] && (old(disconnected) ==> disconnected)
    {
      ok := *;
      if ok {
        sent := sent + [command];
      } else {
        refused := refused + [command];
        var gone: bool := *;
        disconnected := disconnected || gone;
      }
    }

    /** Brings the controller's speaker mode in line with the next frame. */
    method SwitchSpeaker(wanted: bool) returns (ok: bool)
      requires Consistent()
      modifies this`disconnected, this`sent, this`refused, this`speakerActive
      ensures Consistent()
      ensures ok ==> speakerActive == wanted
      ensures ok ==> sent == old(sent) + if wanted != old(speakerActive) then [SpeakerMode(wanted)] else []
      ensures refused == if ok then old(refused) else old(refused) + [SpeakerMode(wanted)]
      ensures !ok ==> sent == old(sent) && speakerActive == old(speakerActive) && wanted != speakerActive
      ensures old(disconnected) ==> disconnected
    {
      ok := true;
      if wanted != speakerActive {
        Appended(sent, SpeakerMode(wanted));
        ok := SendCommand(SpeakerMode(wanted));
        if !ok {
          return;
        }
        speakerActive := wanted;
      }
    }

    method SendLiveAudio(frame: AudioFrame) returns (ok: bool)
      requires Consistent()
      modifies this`disconnected, this`sent, this`refused, this`speakerActive
      ensures Consistent()
      ensures ok ==> speakerActive == frame.speaker.Some?
      ensures Delivered(old(sent), LiveCommands(old(speakerActive), frame), old(refused), sent, refused, ok)
      ensures old(disconnected) ==> disconnected
    {
      hide Delivered, DeviceMode, SpeakerBlocksHeard, LiveCommands;
      ghost var commands := LiveCommands(speakerActive, frame);
      LiveOrder(speakerActive, frame);
      LostFirst(sent, commands, refused);
      LastDelivered(sent, commands, refused);
      ok := SwitchSpeaker(frame.speaker.Some?);
      if !ok {
        return;
      }
      var command := if frame.speaker.Some? then Audio(frame.haptics, frame.speaker.value) else Samples(frame.haptics);
      Appended(sent, command);
      ok := SendCommand(command);
    }

    method StopSpeaker()
      requires Consistent()
      modifies this
      ensures Consistent() && !speakerActive
      ensures old(disconnected) ==> disconnected
      ensures if !old(speakerActive) || old(disconnected) then sent == old(sent) && refused == old(refused)
              else Delivered(old(sent), [SpeakerMode(false)], old(refused), sent, refused, sent != old(sent))
      ensures |refused| == |old(refused)| ==> disconnected == old(disconnected)
      ensures old(speakerActive) && sent == old(sent) ==> stopLost
      ensures stopLost ==> old(stopLost) || old(speakerActive)
    {
      if speakerActive {
        speakerActive := false;
        stopLost := true;
        if !disconnected {
          Appended(sent, SpeakerMode(false));
          assert [SpeakerMode(false)][..0] == [];
          var ok := SendCommand(SpeakerMode(false));
          stopLost := if ok then old(stopLost) else true;
        }
      }
    }

    /** One tick of the audio queue. */
    method HandleHapticsTick(now: Time)
      requires Valid()
      modifies this, live
      ensures Valid()
      ensures var taken := Take(old(live.View()), now);
              && (taken.due.None? ==> live.View() == taken.queue && unchanged(this))
              && (taken.due.Some? ==>
                    if |refused| == |old(refused)| then
                      live.View() == taken.queue && sent == old(sent) + LiveCommands(old(speakerActive), taken.due.value)
                    else
                      live.View() == EMPTY_QUEUE && !speakerActive && old(refused) < refused)
      ensures NoneDueBy(live.deadline, now) && old(sent) <= sent && old(refused) <= refused
      ensures old(live.deadline).None? ==> live.deadline.None? && unchanged(this)
      ensures old(disconnected) ==> disconnected
    {
      hide DeviceMode, SpeakerBlocksHeard, Zeros, AllSilent, Missed, Periods;
      TakeNotDue(live.View(), now);
      if !NoneDueBy(live.deadline, now) {
        TakeShape(live.View(), now);
      }
      var due := live.TakeDueFrame(now);
      if due.Some? {
        var ok := SendLiveAudio(due.value);
        if !ok {
          StopSpeaker();
          live.Reset();
        }
      }
    }

    /** Stopping leaves the queue empty and the speaker off. */
    method StopLiveHaptics()
      requires Consistent()
      modifies this, live
      ensures Valid() && live.View() == EMPTY_QUEUE && !speakerActive
      ensures !old(disconnected) && |refused| == |old(refused)| ==>
        sent == old(sent) + (if old(speakerActive) then [SpeakerMode(false)] else [])
                + (if old(live.deadline).Some? then [Samples(SILENCE.haptics)] else [])
      ensures old(disconnected) ==> disconnected && sent == old(sent)
      ensures old(live.deadline).None? ==> sent == old(sent) || sent == old(sent) + [SpeakerMode(false)]
      ensures old(sent) <= sent && old(refused) <= refused
    {
      hide DeviceMode, SpeakerBlocksHeard, Zeros;
      StopSpeaker();
      var active := live.deadline.Some?;
      live.Reset();
      if active && !disconnected {
        Appended(sent, Samples(SILENCE.haptics));
        var _ := SendCommand(Samples(SILENCE.haptics));
      }
    }

    method PushFrame(frame: AudioFrame, now: Time)
      requires Valid()
      modifies live
      ensures Valid()
      ensures live.View() == Push(old(live.View()), frame, now)
    {
      hide DeviceMode, SpeakerBlocksHeard, Zeros;
      live.PushFrame(frame, now);
    }
  }

  datatype AudioEvent = Received(frame: AudioFrame, at: Time) | TimerTick(at: Time) | Stop

  /** The queue operations of a run without stops. */
  function AsOps(events: seq<AudioEvent>): seq<QueueOp> {
    if events == [] then [] else
    var before := AsOps(events[..|events| - 1]);
    match events[|events| - 1]
    case Received(frame, at) => before + [PushOp(frame, at)]
    case TimerTick(at) => before + [TakeOp(at)]
    case Stop => before
  }

  /** One write per frame handed out, carrying that frame, in order. */
  ghost predicate Plays(payloads: seq<Command>, emitted: seq<Emission>) {
    |payloads| == |emitted| && forall i :: 0 <= i < |emitted| ==> PlaysFrame(payloads[i], emitted[i].frame)
  }

  predicate NeverStops(events: seq<AudioEvent>) {
    forall i :: 0 <= i < |events| ==> !events[i].Stop?
  }

  lemma AsOpsNext(events: seq<AudioEvent>, i: nat)
    requires i < |events|
    ensures NeverStops(events[..i + 1]) <==> NeverStops(events[..i]) && !events[i].Stop?
    ensures var log := PlayQueue(AsOps(events[..i]));
            match events[i]
            case Received(frame, at) => PlayQueue(AsOps(events[..i + 1])) == Step(log, PushOp(frame, at))
            case TimerTick(at) => PlayQueue(AsOps(events[..i + 1])) == Step(log, TakeOp(at))
            case Stop => true
  {
    hide Step;
    var some := events[..i + 1];
    assert some[..|some| - 1] == events[..i] && some[|some| - 1] == events[i];
    var ops := AsOps(some);
    if !events[i].Stop? {
      assert ops[..|ops| - 1] == AsOps(events[..i]);
    }
  }

  lemma PushPlays(log: Log, frame: AudioFrame, at: Time)
    ensures Step(log, PushOp(frame, at)).emitted == log.emitted
    ensures (log.queue.deadline.None? ==> log.queue.frames == []) ==>
              Step(log, PushOp(frame, at)).queue == Push(log.queue, frame, at)
  {
  }

  /** A tick whose writes go out plays what the queue hands out. */
  lemma TickPlays(log: Log, at: Time, sent: seq<Command>, active: bool)
    requires Plays(Payloads(sent), log.emitted)
    ensures var taken, log' := Take(log.queue, at), Step(log, TakeOp(at));
            && log'.queue == taken.queue
            && (taken.due.None? ==> log'.emitted == log.emitted)
            && (taken.due.Some? ==> Plays(Payloads(sent + LiveCommands(active, taken.due.value)), log'.emitted))
  {
    hide Payloads, LiveCommands, PlaysFrame, Missed, Periods, Zeros, AllSilent;
    var taken := Take(log.queue, at);
    if taken.due.Some? {
      FramePlayed(sent, active, taken.due.value);
    }
  }

  /** Any run of frames, ticks and stops, with any writes failing, keeps the speaker tied to the queue. */
  method RunAudio(events: seq<AudioEvent>) returns (out: AudioOutput)
    ensures out.speakerActive ==> out.live.deadline.Some?
    ensures out.live.deadline.None? ==> out.live.frames == []
    ensures out.speakerActive ==> DeviceMode(out.sent)
    ensures DeviceMode(out.sent) ==> out.speakerActive || out.stopLost
    ensures SpeakerBlocksHeard(out.sent)
    ensures NeverStops(events) && out.refused == [] ==> Plays(Payloads(out.sent), PlayQueue(AsOps(events)).emitted)
  {
    hide Plays, Payloads, PlaysFrame, LiveCommands, DeviceMode, SpeakerBlocksHeard;
    hide PlayQueue, AsOps, NeverStops, Push, Take, Step, Zeros;
    out := new AudioOutput();
    NothingPlayed();
    for i := 0 to |events|
      invariant out.Valid() && fresh(out) && fresh(out.live)
      invariant NeverStops(events[..i]) && out.refused == [] ==>
                  && out.live.View() == PlayQueue(AsOps(events[..i])).queue
                  && Plays(Payloads(out.sent), PlayQueue(AsOps(events[..i])).emitted)
    {
      AsOpsNext(events, i);
      ghost var log := PlayQueue(AsOps(events[..i]));
      match events[i]
      case Received(frame, at) =>
        PushPlays(log, frame, at);
        out.PushFrame(frame, at);
      case TimerTick(at) =>
        if Plays(Payloads(out.sent), log.emitted) {
          TickPlays(log, at, out.sent, out.speakerActive);
        }
        out.HandleHapticsTick(at);
      case Stop => out.StopLiveHaptics();
    }
    assert events[..|events|] == events;
  }

  lemma NothingPlayed()
    ensures Plays(Payloads([]), PlayQueue(AsOps([])).emitted) && PlayQueue(AsOps([])).queue == EMPTY_QUEUE
  {
  }
}

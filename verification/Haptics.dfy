/** The paced queue of live audio frames (src/proxy/haptics.rs). */
module Haptics {
  import opened Model

  /** One block of interleaved haptics samples with an optional encoded speaker block. */
  datatype AudioFrame = AudioFrame(haptics: seq<int>, speaker: Option<seq<Byte>>)

  const PCM_SAMPLES: nat := 64

  const SILENCE: AudioFrame := AudioFrame(Zeros(PCM_SAMPLES), None)

  function Zeros(n: nat): seq<int> {
    if n == 0 then [] else Zeros(n - 1) + [0]
  }

  /** 32 samples at 3 kHz, rounded up to a nanosecond. */
  const PCM_PERIOD: nat := 10_666_667

  /** `n` periods, and the whole periods in a delay, with the literal in sight of the solver. */
  function Periods(n: nat): (r: nat)
    ensures n == 1 ==> r == PCM_PERIOD
  {
    n * 10_666_667
  }

  function Missed(late: nat): (n: nat)
    ensures Periods(n) <= late < Periods(n + 1)
  {
    late / 10_666_667
  }

  const CAPACITY: nat := 3

  datatype Queue = Queue(frames: seq<AudioFrame>, deadline: Option<Time>)

  const EMPTY_QUEUE: Queue := Queue([], None)

  function Push(q: Queue, frame: AudioFrame, now: Time): Queue {
    if q.deadline.None? && frame == SILENCE then q else
    var deadline := if q.deadline.Some? then q.deadline.value else now + PCM_PERIOD;
    if |q.frames| == CAPACITY then Queue(q.frames[1..] + [frame], Some(deadline + PCM_PERIOD))
    else Queue(q.frames + [frame], Some(deadline))
  }

  predicate AllSilent(frames: seq<AudioFrame>) {
    forall i :: 0 <= i < |frames| ==> frames[i] == SILENCE
  }

  datatype Taken = Taken(queue: Queue, due: Option<AudioFrame>)

  /** The frame due at `now`, if any: whole periods already missed are dropped first. */
  function Take(q: Queue, now: Time): Taken {
    if NoneDueBy(q.deadline, now) then Taken(q, None) else
    var late := now - q.deadline.value;
    var rest := if Missed(late) < |q.frames| then q.frames[Missed(late)..] else [];
    if rest == [] then Taken(EMPTY_QUEUE, Some(SILENCE))
    else if AllSilent(rest) then Taken(EMPTY_QUEUE, Some(rest[0]))
    else Taken(Queue(rest[1..], Some(q.deadline.value + Periods(Missed(late) + 1))), Some(rest[0]))
  }

  lemma AllSilentHead(frames: seq<AudioFrame>)
    requires frames != []
    ensures AllSilent(frames) <==> frames[0] == SILENCE && AllSilent(frames[1..])
  {
    if frames[0] == SILENCE && AllSilent(frames[1..]) {
      assert forall i :: 1 <= i < |frames| ==> frames[i] == frames[1..][i - 1];
    }
  }

  class LiveHaptics {
    var frames: seq<AudioFrame>
    var deadline: Option<Time>

    function View(): Queue
      reads this
    {
      Queue(frames, deadline)
    }

    constructor ()
      ensures View() == EMPTY_QUEUE
    {
      frames, deadline := [], None;
    }

    method PushFrame(frame: AudioFrame, now: Time)
      modifies this
      ensures View() == Push(old(View()), frame, now)
    {
      if deadline.None? && frame == SILENCE {
        return;
      }
      if deadline.None? {
        deadline := Some(now + PCM_PERIOD);
      }
      if |frames| == CAPACITY {
        frames := frames[1..];
        deadline := Some(deadline.value + PCM_PERIOD);
      }
      frames := frames + [frame];
    }

    method TakeDueFrame(now: Time) returns (due: Option<AudioFrame>)
      modifies this
      ensures Taken(View(), due) == Take(old(View()), now)
    {
      hide Periods, Missed, AllSilent, Zeros;
      if deadline.None? {
        return None;
      }
      var start := deadline.value;
      if now < start {
        return None;
      }
      var skipped := Missed(now - start);
      var drops := if skipped < |frames| then skipped else |frames|;
      for i := 0 to drops
        invariant frames == old(frames)[i..] && deadline == old(deadline)
      {
        frames := frames[1..];
      }
      if frames != [] {
        AllSilentHead(frames);
        assert frames == old(frames)[skipped..];
        var frame := frames[0];
        frames := frames[1..];
        if frame == SILENCE && AllSilent(frames) {
          frames, deadline := [], None;
        } else {
          deadline := Some(start + Periods(skipped + 1));
        }
        due := Some(frame);
      } else {
        deadline := None;
        due := Some(SILENCE);
      }
    }

    /** The source replaces the queue by a default one. */
    method Reset()
      modifies this
      ensures View() == EMPTY_QUEUE
    {
      frames, deadline := [], None;
    }
  }

  /** After a take nothing is due at that instant. */
  lemma TakeNotDue(q: Queue, now: Time)
    ensures NoneDueBy(Take(q, now).queue.deadline, now)
  {
  }

  // -------------------------------------------------------- slot discipline

  /** An accepted frame and the instant it was scheduled for when it was accepted. */
  datatype Slotted = Slotted(frame: AudioFrame, slot: Time)

  /** An emitted frame: the slot it used and, unless it is the closing silence, which accepted frame it is. */
  datatype Emission = Emission(id: Option<nat>, frame: AudioFrame, slot: Time, at: Time)

  datatype Log = Log(queue: Queue, accepted: seq<Slotted>, emitted: seq<Emission>)

  datatype QueueOp = PushOp(frame: AudioFrame, at: Time) | TakeOp(at: Time)

  function SlotOf(q: Queue, i: nat): Time
    requires q.deadline.Some?
  {
    q.deadline.value + Periods(i)
  }

  function Step(log: Log, op: QueueOp): Log {
    match op
    case PushOp(frame, at) =>
      var q := Push(log.queue, frame, at);
      if q.deadline.None? then log
      else Log(q, log.accepted + [Slotted(frame, SlotOf(q, if |q.frames| == 0 then 0 else |q.frames| - 1))], log.emitted)
    case TakeOp(at) =>
      var taken := Take(log.queue, at);
      if taken.due.None? then log else
      var start := log.queue.deadline.value;
      var skipped := Missed(at - start);
      var id := if skipped < |log.queue.frames| && |log.queue.frames| <= |log.accepted|
                then Some(|log.accepted| - |log.queue.frames| + skipped) else None;
      Log(taken.queue, log.accepted, log.emitted + [Emission(id, taken.due.value, start + Periods(Missed(at - start)), at)])
  }

  /** The queue is a suffix of what was accepted, every frame still at the slot it was given. */
  predicate Scheduled(q: Queue, accepted: seq<Slotted>) {
    && |q.frames| <= CAPACITY && |q.frames| <= |accepted|
    && (q.deadline.None? ==> q.frames == [])
    && forall i :: 0 <= i < |q.frames| ==>
         accepted[|accepted| - |q.frames| + i] == Slotted(q.frames[i], SlotOf(q, i))
  }

  /** Each emission happened inside its slot and is the accepted frame scheduled there. */
  predicate InSlot(e: Emission, accepted: seq<Slotted>) {
    && e.slot <= e.at < e.slot + PCM_PERIOD
    && (e.id.Some? ==> e.id.value < |accepted| && accepted[e.id.value] == Slotted(e.frame, e.slot))
    && (e.id.None? ==> e.frame == SILENCE)
  }

  /** Emissions use distinct slots, at least a period apart, in order of acceptance. */
  predicate Spaced(emitted: seq<Emission>) {
    forall i, j :: 0 <= i < j < |emitted| ==>
      && emitted[i].slot + PCM_PERIOD <= emitted[j].slot
      && emitted[i].at <= emitted[j].at
      && (emitted[i].id.Some? && emitted[j].id.Some? ==> emitted[i].id.value < emitted[j].id.value)
  }

  /** Nothing emitted so far can collide with what the queue still holds or will accept. */
  predicate AheadOf(log: Log, now: Time) {
    forall i :: 0 <= i < |log.emitted| ==>
      && log.emitted[i].at <= now
      && (log.queue.deadline.Some? ==> log.emitted[i].slot + PCM_PERIOD <= log.queue.deadline.value)
      && (log.emitted[i].id.Some? ==> log.emitted[i].id.value < |log.accepted| - |log.queue.frames|)
  }

  /** With no deadline the last thing handed out, if anything, was silence. */
  predicate EndsQuiet(log: Log) {
    log.queue.deadline.None? && log.emitted != [] ==> log.emitted[|log.emitted| - 1].frame == SILENCE
  }

  predicate Disciplined(log: Log, now: Time) {
    && Scheduled(log.queue, log.accepted)
    && (forall i :: 0 <= i < |log.emitted| ==> InSlot(log.emitted[i], log.accepted))
    && Spaced(log.emitted) && AheadOf(log, now) && EndsQuiet(log)
  }

  lemma PushDisciplined(log: Log, before: Time, frame: AudioFrame, at: Time)
    requires Disciplined(log, before) && before <= at
    ensures Disciplined(Step(log, PushOp(frame, at)), at)
  {
    PushScheduled(log, frame, at);
    hide Scheduled, Zeros, Periods;
    var log' := Step(log, PushOp(frame, at));
    assert forall i :: 0 <= i < |log.emitted| ==> InSlot(log.emitted[i], log.accepted);
    assert forall i :: 0 <= i < |log.emitted| ==> InSlot(log.emitted[i], log'.accepted);
  }

  /** A push leaves every queued frame at its slot and gives the new one the next. */
  lemma PushScheduled(log: Log, frame: AudioFrame, at: Time)
    requires Scheduled(log.queue, log.accepted)
    ensures Scheduled(Step(log, PushOp(frame, at)).queue, Step(log, PushOp(frame, at)).accepted)
    ensures |Step(log, PushOp(frame, at)).queue.frames| <= CAPACITY
    ensures |Step(log, PushOp(frame, at)).accepted| - |Step(log, PushOp(frame, at)).queue.frames|
            >= |log.accepted| - |log.queue.frames| >= 0
  {
    hide Zeros;
  }

  lemma EmptyScheduled(accepted: seq<Slotted>)
    ensures Scheduled(EMPTY_QUEUE, accepted)
  {
  }

  /** What a take leaves behind is still on schedule. */
  lemma TakeScheduled(q: Queue, accepted: seq<Slotted>, at: Time)
    requires Scheduled(q, accepted)
    ensures Scheduled(Take(q, at).queue, accepted)
  {
    hide Periods, Missed, Scheduled, AllSilent, Zeros;
    var q' := Take(q, at).queue;
    EmptyScheduled(accepted);
    if q' != q && q'.deadline.Some? {
      Shifted(q, accepted, Missed(at - q.deadline.value) + 1, q');
    }
  }

  /** Dropping `n` frames and moving the deadline `n` periods leaves every other slot where it was. */
  lemma Shifted(q: Queue, accepted: seq<Slotted>, n: nat, q': Queue)
    requires Scheduled(q, accepted) && q.deadline.Some? && n <= |q.frames|
    requires q' == Queue(q.frames[n..], Some(q.deadline.value + Periods(n)))
    ensures Scheduled(q', accepted)
  {
    forall i | 0 <= i < |q'.frames|
      ensures accepted[|accepted| - |q'.frames| + i] == Slotted(q'.frames[i], SlotOf(q', i))
    {
      assert accepted[|accepted| - |q.frames| + (n + i)] == Slotted(q.frames[n + i], SlotOf(q, n + i));
    }
  }

  /** A taken frame is the one scheduled for the current slot; the closing silence is nobody's. */
  lemma TakeInSlot(log: Log, at: Time)
    requires Scheduled(log.queue, log.accepted) && log.queue.deadline.Some? && log.queue.deadline.value <= at
    ensures var log' := Step(log, TakeOp(at));
            && |log'.emitted| == |log.emitted| + 1
            && InSlot(log'.emitted[|log.emitted|], log.accepted)
            && log'.emitted[|log.emitted|].at == at
            && log'.emitted[|log.emitted|].slot >= log.queue.deadline.value
            && (log'.emitted[|log.emitted|].id.Some? ==>
                  |log.accepted| - |log.queue.frames| <= log'.emitted[|log.emitted|].id.value < |log.accepted| - |log'.queue.frames|)
            && (log'.queue.deadline.Some? ==>
                  log'.emitted[|log.emitted|].slot + PCM_PERIOD <= log'.queue.deadline.value)
            && (log'.queue.deadline.None? ==> log'.emitted[|log.emitted|].frame == SILENCE)
            && |log'.queue.frames| <= |log.queue.frames|
            && log' == Log(Take(log.queue, at).queue, log.accepted, log.emitted + [log'.emitted[|log.emitted|]])
  {
    hide Take, Periods, AllSilent, Zeros;
    var q, skipped := log.queue, Missed(at - log.queue.deadline.value);
    NextPeriod(skipped);
    TakeShape(q, at);
    if skipped < |q.frames| {
      assert log.accepted[|log.accepted| - |q.frames| + skipped] == Slotted(q.frames[skipped], SlotOf(q, skipped));
    }
    hide Scheduled;
  }

  /** What a due take hands out and leaves behind, by the number of frames it came too late for. */
  lemma TakeShape(q: Queue, at: Time)
    requires q.deadline.Some? && q.deadline.value <= at
    ensures var taken, skipped := Take(q, at), Missed(at - q.deadline.value);
            && taken.due.Some?
            && (if skipped < |q.frames| then
                  taken.due.value == q.frames[skipped] && |taken.queue.frames| + skipped < |q.frames|
                else taken == Taken(EMPTY_QUEUE, Some(SILENCE)))
            && (if taken.queue.deadline.Some? then taken.queue.deadline.value == q.deadline.value + Periods(skipped + 1)
                else taken.due.value == SILENCE)
  {
    hide Periods, Missed, AllSilent, Zeros;
    if Missed(at - q.deadline.value) < |q.frames| {
      AllSilentHead(q.frames[Missed(at - q.deadline.value)..]);
    }
  }

  lemma NextPeriod(n: nat)
    ensures Periods(n + 1) == Periods(n) + PCM_PERIOD
  {
  }

  /** An emission in the current slot fits the record so far. */
  lemma EmitDisciplined(log: Log, before: Time, at: Time, log': Log)
    requires Disciplined(log, before) && before <= at && log.queue.deadline.Some?
    requires |log'.emitted| == |log.emitted| + 1 && log'.emitted[..|log.emitted|] == log.emitted
    requires log'.accepted == log.accepted && Scheduled(log'.queue, log.accepted)
    requires var e := log'.emitted[|log.emitted|];
             && InSlot(e, log.accepted) && e.at == at && e.slot >= log.queue.deadline.value
             && (e.id.Some? ==> |log.accepted| - |log.queue.frames| <= e.id.value < |log.accepted| - |log'.queue.frames|)
             && (log'.queue.deadline.Some? ==> e.slot + PCM_PERIOD <= log'.queue.deadline.value)
             && (log'.queue.deadline.None? ==> e.frame == SILENCE)
    requires |log'.queue.frames| <= |log.queue.frames|
    ensures Disciplined(log', at)
  {
    hide Scheduled, InSlot, Zeros, AllSilent;
    var n := |log.emitted|;
    assert forall i :: 0 <= i < n ==> log'.emitted[i] == log.emitted[i];
    forall i | 0 <= i < n
      ensures log'.emitted[i].slot + PCM_PERIOD <= log'.emitted[n].slot && log'.emitted[i].at <= at
    {
      assert log.emitted[i].slot + PCM_PERIOD <= log.queue.deadline.value;
    }
  }

  lemma TakeDisciplined(log: Log, before: Time, at: Time)
    requires Disciplined(log, before) && before <= at
    ensures Disciplined(Step(log, TakeOp(at)), at)
  {
    TakeScheduled(log.queue, log.accepted, at);
    if log.queue.deadline.Some? && log.queue.deadline.value <= at {
      hide Step, Take, Scheduled, InSlot, Spaced, AheadOf, EndsQuiet;
      TakeInSlot(log, at);
      EmitDisciplined(log, before, at, Step(log, TakeOp(at)));
    } else {
      hide Scheduled, InSlot, Spaced;
    }
  }

  function PlayQueue(ops: seq<QueueOp>): Log {
    if ops == [] then Log(EMPTY_QUEUE, [], []) else Step(PlayQueue(ops[..|ops| - 1]), ops[|ops| - 1])
  }

  predicate OrderedOps(ops: seq<QueueOp>) {
    forall i, j :: 0 <= i < j < |ops| ==> ops[i].at <= ops[j].at
  }

  /** Slot discipline over every run of pushes and takes. */
  lemma {:induction false} SlotDiscipline(ops: seq<QueueOp>)
    requires OrderedOps(ops)
    ensures Disciplined(PlayQueue(ops), if ops == [] then 0 else ops[|ops| - 1].at)
  {
    if ops != [] {
      var init, last := ops[..|ops| - 1], ops[|ops| - 1];
      SlotDiscipline(init);
      match last
      case PushOp(frame, at) => PushDisciplined(PlayQueue(init), if init == [] then 0 else init[|init| - 1].at, frame, at);
      case TakeOp(at) => TakeDisciplined(PlayQueue(init), if init == [] then 0 else init[|init| - 1].at, at);
    }
  }

  /** A queued frame's slot is the one it was accepted for, however long it waits. */
  lemma {:induction false} SlotNeverMoves(ops: seq<QueueOp>, more: seq<QueueOp>)
    ensures PlayQueue(ops).accepted <= PlayQueue(ops + more).accepted
    ensures PlayQueue(ops).emitted <= PlayQueue(ops + more).emitted
    decreases |more|
  {
    if more == [] {
      assert ops + more == ops;
    } else {
      SlotNeverMoves(ops, more[..|more| - 1]);
      assert (ops + more)[..|ops + more| - 1] == ops + more[..|more| - 1];
    }
  }

  /** Playback always ends quiet: an idle queue is empty and the last frame it handed out was silence. */
  lemma PlaybackEndsQuiet(ops: seq<QueueOp>)
    requires OrderedOps(ops)
    ensures var log := PlayQueue(ops);
            log.queue.deadline.None? ==>
              log.queue.frames == []
              && (log.emitted != [] ==> log.emitted[|log.emitted| - 1].frame == SILENCE)
  {
    SlotDiscipline(ops);
  }
}

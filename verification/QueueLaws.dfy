/** What every push and every take of a live audio run does, frame by frame (src/proxy/haptics.rs). */
module QueueLaws {
  import opened Model
  import opened Haptics

  /** One period is the time 32 samples last at 3 kHz, rounded up to a whole nanosecond; a frame is those samples in stereo. */
  lemma PeriodIsOneBlock()
    ensures (PCM_PERIOD - 1) * 3000 < 32 * 1_000_000_000 <= PCM_PERIOD * 3000
    ensures PCM_SAMPLES == 2 * 32
  {
  }

  lemma {:induction false} ZerosAre(n: nat)
    ensures |Zeros(n)| == n && forall i :: 0 <= i < n ==> Zeros(n)[i] == 0
  {
    if n > 0 {
      ZerosAre(n - 1);
    }
  }

  /** Silence is a full block of zero samples without a speaker block. */
  lemma SilenceIs()
    ensures |SILENCE.haptics| == 64 && SILENCE.speaker.None?
    ensures forall i :: 0 <= i < 64 ==> SILENCE.haptics[i] == 0
  {
    ZerosAre(64);
  }

  lemma PeriodsAre(n: nat)
    ensures Periods(n) == n * 10_666_667
  {
  }

  lemma PlayOne(ops: seq<QueueOp>, op: QueueOp)
    ensures PlayQueue(ops + [op]) == Step(PlayQueue(ops), op)
  {
    assert (ops + [op])[..|ops|] == ops;
  }

  /** The queue of a run holds at most three frames, the last ones accepted, and none while idle. */
  lemma QueueIsTail(ops: seq<QueueOp>)
    requires OrderedOps(ops)
    ensures var log := PlayQueue(ops);
            && |log.queue.frames| <= 3 && |log.queue.frames| <= |log.accepted|
            && (log.queue.deadline.None? ==> log.queue.frames == [])
            && forall i :: 0 <= i < |log.queue.frames| && log.queue.deadline.Some? ==>
                 log.accepted[|log.accepted| - |log.queue.frames| + i]
                 == Slotted(log.queue.frames[i], log.queue.deadline.value + i * 10_666_667)
  {
    hide InSlot, Spaced, AheadOf, EndsQuiet, PlayQueue, Zeros;
    SlotDiscipline(ops);
    forall i ensures i >= 0 ==> Periods(i) == i * 10_666_667 {
      if i >= 0 {
        PeriodsAre(i);
      }
    }
  }

  /**
   * Every push of a run: silence on an idle queue changes nothing. Any other frame is accepted, into the slot
   * one period ahead on an idle queue and into the next free slot otherwise; a full queue of three gives up
   * its oldest frame for it, and no other push gives up any.
   */
  lemma PushLaw(ops: seq<QueueOp>, frame: AudioFrame, at: Time)
    requires OrderedOps(ops)
    ensures var log, log' := PlayQueue(ops), PlayQueue(ops + [PushOp(frame, at)]);
            var queued := log.queue.frames;
            if log.queue.deadline.None? && frame == SILENCE then log' == log
            else
              var slot := if log.queue.deadline.None? then at + 10_666_667
                          else log.queue.deadline.value + |queued| * 10_666_667;
              && log'.accepted == log.accepted + [Slotted(frame, slot)] && log'.emitted == log.emitted
              && log'.queue.frames == (if |queued| == 3 then queued[1..] else queued) + [frame]
              && log'.queue.deadline == Some(slot - (|log'.queue.frames| - 1) * 10_666_667)
  {
    hide PlayQueue, Zeros;
    PlayOne(ops, PushOp(frame, at));
    QueueIsTail(ops);
  }

  /** A take before the first slot, or from an idle queue, changes nothing. */
  lemma EarlyTake(ops: seq<QueueOp>, at: Time)
    requires PlayQueue(ops).queue.deadline.Some? ==> at < PlayQueue(ops).queue.deadline.value
    ensures PlayQueue(ops + [TakeOp(at)]) == PlayQueue(ops)
  {
    hide PlayQueue;
    PlayOne(ops, TakeOp(at));
  }

  /**
   * Every take inside the slot of a frame still queued: exactly that frame is handed out, the earlier ones
   * are given up and the later ones stay for their own slots, unless only silence is left, which ends playback.
   */
  lemma TakeLaw(ops: seq<QueueOp>, k: nat, at: Time)
    requires OrderedOps(ops) && k < |PlayQueue(ops).accepted|
    requires |PlayQueue(ops).accepted| - |PlayQueue(ops).queue.frames| <= k
    requires var slot := PlayQueue(ops).accepted[k].slot; slot <= at < slot + 10_666_667
    ensures var log, log' := PlayQueue(ops), PlayQueue(ops + [TakeOp(at)]);
            var frame, slot, i := log.accepted[k].frame, log.accepted[k].slot, k - (|log.accepted| - |log.queue.frames|);
            && log'.accepted == log.accepted && log'.emitted == log.emitted + [Emission(Some(k), frame, slot, at)]
            && log'.queue == if forall j :: i <= j < |log.queue.frames| ==> log.queue.frames[j] == SILENCE then Queue([], None)
                             else Queue(log.queue.frames[i + 1..], Some(slot + 10_666_667))
  {
    hide PlayQueue, Zeros, Missed, Periods, AllSilent, Take, OrderedOps;
    PlayOne(ops, TakeOp(at));
    QueueIsTail(ops);
    var log := PlayQueue(ops);
    var q, i := log.queue, k - (|log.accepted| - |log.queue.frames|);
    assert log.accepted[k] == Slotted(q.frames[i], q.deadline.value + i * 10_666_667);
    TakeInside(q, i, at);
  }

  lemma TakeInside(q: Queue, i: nat, at: Time)
    requires q.deadline.Some? && i < |q.frames|
    requires q.deadline.value + i * 10_666_667 <= at < q.deadline.value + i * 10_666_667 + 10_666_667
    ensures Missed(at - q.deadline.value) == i && Periods(i) == i * 10_666_667
    ensures Take(q, at) == Taken(if forall j :: i <= j < |q.frames| ==> q.frames[j] == SILENCE then Queue([], None)
                                 else Queue(q.frames[i + 1..], Some(q.deadline.value + i * 10_666_667 + 10_666_667)),
                                 Some(q.frames[i]))
  {
    hide Zeros, Missed, Periods, AllSilent;
    MissedIs(at - q.deadline.value, i);
    PeriodsAre(i);
    PeriodsAre(i + 1);
    TailSilent(q.frames, i);
  }

  lemma MissedIs(late: nat, n: nat)
    requires n * 10_666_667 <= late < n * 10_666_667 + 10_666_667
    ensures Missed(late) == n
  {
  }

  lemma TailSilent(frames: seq<AudioFrame>, i: nat)
    requires i < |frames|
    ensures AllSilent(frames[i..]) <==> forall j :: i <= j < |frames| ==> frames[j] == SILENCE
  {
    hide Zeros;
    if AllSilent(frames[i..]) {
      forall j | i <= j < |frames| ensures frames[j] == SILENCE {
        assert frames[i..][j - i] == frames[j];
      }
    }
  }

  /** A take after the last slot gives up all that is queued, hands out silence and ends playback. */
  lemma LateTake(ops: seq<QueueOp>, at: Time)
    requires OrderedOps(ops) && PlayQueue(ops).queue.deadline.Some?
    requires var q := PlayQueue(ops).queue; q.deadline.value + |q.frames| * 10_666_667 <= at
    ensures var log, log' := PlayQueue(ops), PlayQueue(ops + [TakeOp(at)]);
            && log'.queue == Queue([], None) && log'.accepted == log.accepted
            && |log'.emitted| == |log.emitted| + 1 && log'.emitted[..|log.emitted|] == log.emitted
            && log'.emitted[|log.emitted|].frame == SILENCE && log'.emitted[|log.emitted|].id == None
  {
    hide PlayQueue, Zeros, Missed, Periods, AllSilent;
    PlayOne(ops, TakeOp(at));
    var q := PlayQueue(ops).queue;
    MissedAtLeast(at - q.deadline.value, |q.frames|);
  }

  lemma MissedAtLeast(late: nat, n: nat)
    requires n * 10_666_667 <= late
    ensures n <= Missed(late)
  {
  }

  /** A sound that comes while nothing plays is heard one period later by a tick that is less than a period late. */
  lemma FirstSoundHeard(ops: seq<QueueOp>, frame: AudioFrame, at: Time, tick: Time)
    requires OrderedOps(ops + [PushOp(frame, at)])
    requires PlayQueue(ops).queue.deadline.None? && frame != SILENCE
    requires at + 10_666_667 <= tick < at + 2 * 10_666_667
    ensures var log, log' := PlayQueue(ops), PlayQueue(ops + [PushOp(frame, at)] + [TakeOp(tick)]);
            log'.emitted == log.emitted + [Emission(Some(|log.accepted|), frame, at + 10_666_667, tick)]
  {
    hide PlayQueue, Zeros;
    var pushed := ops + [PushOp(frame, at)];
    assert OrderedOps(ops) by {
      assert forall i :: 0 <= i < |ops| ==> ops[i] == pushed[i];
    }
    QueueIsTail(ops);
    PushLaw(ops, frame, at);
    TakeLaw(pushed, |PlayQueue(ops).accepted|, tick);
  }
}

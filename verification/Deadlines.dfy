/** Deadlines are not only early enough but also never needless (src/proxy/runtime.rs). */
module Deadlines {
  import opened Arith
  import opened Model
  import opened Mapping
  import opened Runtime

  /** At its deadline a turbo does change: toggling starts, or the phase flips. */
  lemma TurboDeadlineChanges(t: Turbo)
    requires t.active && TurboSafe(t)
    ensures TurboDeadline(t).Some?
    ensures var t' := TurboAt(t, TurboDeadline(t).value);
            && (!t.turboActive ==> t'.turboActive && t'.phase == t.phase && TurboDeadline(t).value == t.pressTime + Ms(t.delayMs))
            && (t.turboActive ==> t'.phase != t.phase && TurboDeadline(t).value == t.lastToggle + Ms(t.intervalMs))
  {
    hide Floor, OddTimes, Ms;
    if t.turboActive {
      OneInterval(t.intervalMs);
    } else {
      NoInterval(t.intervalMs);
    }
  }

  lemma OneInterval(ms: nat)
    requires ms > 0
    ensures Ms(ms) > 0 && OddTimes(Ms(ms), Ms(ms))
  {
    var d := Ms(ms);
    QuotientUnique(d, d, 1);
  }

  lemma NoInterval(ms: nat)
    requires ms > 0
    ensures Ms(ms) > 0 && !OddTimes(0, Ms(ms))
  {
    DivideLess(0, Ms(ms));
  }

  /** `k` milliseconds into its run some step is due to be pressed or released. */
  predicate Boundary(m: MacroState, k: nat, i: nat)
    requires i < |m.steps| && MaxRelease(m.steps) > 0
  {
    var at := if m.mode.Hold? then k % MaxRelease(m.steps) else k;
    at == m.steps[i].pressMs
    || at == if m.mode.Hold? then m.steps[i].releaseMs % MaxRelease(m.steps) else m.steps[i].releaseMs
  }

  /** An advanced macro's deadline is the boundary of some step, after `now`. */
  lemma MacroDeadlineIsBoundary(m: MacroState, now: Time) returns (i: nat, k: nat)
    requires MacroSafe(m) && m.active
    ensures CycleSafe(m) && MaxRelease(m.steps) > 0
    ensures var m' := MacroAt(m, now);
            m'.active ==> m'.next == Some(m.stepStart + Ms(k)) && now < m.stepStart + Ms(k) && i < |m.steps| && Boundary(m, k, i)
  {
    hide MacroAt, Boundary;
    SafeCycle(m);
    assert m.steps[0].releaseMs <= MaxRelease(m.steps);
    i, k := 0, 0;
    if MacroAt(m, now).active {
      if m.mode.Single? {
        i, k := SingleBoundary(m, now);
      } else {
        i, k := HoldBoundary(m, now);
      }
    }
  }

  lemma PickEarliest(dues: seq<Option<Time>>, j: nat) returns (n: nat)
    requires j < |dues| && dues[j].Some?
    ensures n < |dues| && dues[n].Some? && Earliest(dues) == dues[n]
  {
    assert Earliest(dues).Some?;
    n :| 0 <= n < |dues| && dues[n] == Earliest(dues);
  }

  lemma SingleBoundary(m: MacroState, now: Time) returns (i: nat, k: nat)
    requires MacroSafe(m) && m.active && m.mode.Single? && MacroAt(m, now).active && MaxRelease(m.steps) > 0
    ensures MacroAt(m, now).next == Some(m.stepStart + Ms(k)) && now < m.stepStart + Ms(k) && i < |m.steps| && Boundary(m, k, i)
  {
    hide Earliest, MaxRelease, Ms, SettleStep, SingleDue;
    var e := ElapsedMs(m, now);
    var steps := SettleSteps(m.steps, Single, e);
    var dues := SingleDues(steps, m.stepStart, now);
    var j :| 0 <= j < |steps| && !steps[j].done;
    SingleStepDue(m, now, j);
    i := PickEarliest(dues, j);
    SingleStepDue(m, now, i);
    k := if steps[i].pressed then m.steps[i].releaseMs else m.steps[i].pressMs;
  }

  /** A step that is not done is due at its next boundary, which is ahead. */
  lemma SingleStepDue(m: MacroState, now: Time, i: nat)
    requires MacroSafe(m) && i < |m.steps|
    ensures var step := SettleStep(m.steps[i], Single, ElapsedMs(m, now));
            var k := if step.pressed then m.steps[i].releaseMs else m.steps[i].pressMs;
            if step.done then SingleDue(step, m.stepStart, now).None?
            else SingleDue(step, m.stepStart, now) == Some(m.stepStart + Ms(k)) && now < m.stepStart + Ms(k)
  {
    ElapsedBelow(now, m.stepStart, m.steps[i].releaseMs);
    if m.steps[i].pressMs > 0 {
      ElapsedBelow(now, m.stepStart, m.steps[i].pressMs);
    }
  }

  lemma HoldBoundary(m: MacroState, now: Time) returns (i: nat, k: nat)
    requires MacroSafe(m) && m.active && m.mode.Hold? && CycleSafe(m) && MaxRelease(m.steps) > 0
    ensures MacroAt(m, now).next == Some(m.stepStart + Ms(k)) && now < m.stepStart + Ms(k) && i < |m.steps| && Boundary(m, k, i)
  {
    hide Floor, MaxRelease, Earliest, HoldDues, SettleSteps, ElapsedMs, Ms, MacroAt, Boundary;
    var e, cycle := ElapsedMs(m, now), MaxRelease(m.steps);
    HoldNext(m, now);
    FloorAndRest(e, cycle);
    MultipleHasNoRemainder(e, cycle);
    i, k := HoldBoundaryAt(m, cycle, e % cycle, Floor(e, cycle), now);
  }

  lemma HoldBoundaryAt(m: MacroState, cycle: nat, at: nat, base: nat, now: Time) returns (i: nat, k: nat)
    requires MacroSafe(m) && m.mode.Hold? && cycle == MaxRelease(m.steps) > 0
    requires base + at == ElapsedMs(m, now) && at < cycle && base % cycle == 0
    ensures Earliest(HoldDues(SettleSteps(m.steps, Hold, at), at, cycle, m.stepStart + Ms(base), now)) == Some(m.stepStart + Ms(k))
    ensures now < m.stepStart + Ms(k) && i < |m.steps| && Boundary(m, k, i)
  {
    hide Earliest, SettleStep, HoldOffset, ElapsedMs, Ms, Boundary, MaxRelease;
    var steps := SettleSteps(m.steps, Hold, at);
    var dues := HoldDues(steps, at, cycle, m.stepStart + Ms(base), now);
    HoldAlwaysDue(m, cycle, at, base, now);
    i := PickEarliest(dues, 0);
    var offset := HoldOffset(steps[i], at, cycle);
    k := base + offset;
    OffsetIsBoundary(m, cycle, at, base, i);
    MsSum(base, offset);
  }

  lemma MsSum(a: nat, b: nat)
    ensures Ms(a + b) == Ms(a) + Ms(b)
  {
  }

  lemma OffsetIsBoundary(m: MacroState, cycle: nat, at: nat, base: nat, i: nat)
    requires MacroSafe(m) && m.mode.Hold? && cycle == MaxRelease(m.steps) > 0 && i < |m.steps|
    requires at < cycle && base % cycle == 0
    ensures Boundary(m, base + HoldOffset(SettleStep(m.steps[i], Hold, at), at, cycle), i)
  {
    var press, release := m.steps[i].pressMs, m.steps[i].releaseMs;
    assert press < release <= cycle;
    hide MaxRelease;
    WholeCycles(base, press, cycle);
    WholeCycles(base, release, cycle);
    SelfMod(cycle);
    WholeCycles(cycle, press, cycle);
    WholeCycles(base, cycle + press, cycle);
    InCycle(press, cycle);
  }

  lemma HoldAlwaysDue(m: MacroState, cycle: nat, at: nat, base: nat, now: Time)
    requires MacroSafe(m) && cycle == MaxRelease(m.steps) > 0
    requires base + at == ElapsedMs(m, now) && at < cycle
    ensures var dues := HoldDues(SettleSteps(m.steps, Hold, at), at, cycle, m.stepStart + Ms(base), now);
            |dues| == |m.steps| > 0 && dues[0].Some?
  {
    hide Earliest;
    var step := SettleStep(m.steps[0], Hold, at);
    var offset := HoldOffset(step, at, cycle);
    assert m.steps[0].releaseMs <= cycle;
    assert at < offset;
    ElapsedBelow(now, m.stepStart, base + offset);
  }

  lemma WholeCycles(base: nat, x: nat, cycle: nat)
    requires cycle > 0 && base % cycle == 0
    ensures (base + x) % cycle == x % cycle
  {
    DivMod(base, cycle);
    DivMod(x, cycle);
    DivMod(base + x, cycle);
    var p, q := base / cycle, x / cycle;
    assert (p + q) * cycle == p * cycle + q * cycle;
    SameMultiple((base + x) / cycle, (base + x) % cycle, p + q, x % cycle, cycle);
  }

  lemma SelfMod(cycle: nat)
    requires cycle > 0
    ensures cycle % cycle == 0
  {
    QuotientUnique(cycle, cycle, 1);
    DivMod(cycle, cycle);
  }

  lemma InCycle(x: nat, cycle: nat)
    requires x < cycle
    ensures x % cycle == x
  {
    DivideLess(x, cycle);
    DivMod(x, cycle);
  }
}

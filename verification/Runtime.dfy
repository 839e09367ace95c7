/** The timed state machines behind turbo, combo and macro mappings (src/proxy/runtime.rs). */
module Runtime {
  import opened Model
  import opened Mapping
  import opened Arith

  // ---------------------------------------------------------------- turbo

  datatype Turbo = Turbo(
    src: Button, intervalMs: nat, delayMs: nat,
    active: bool, turboActive: bool, phase: bool,
    pressTime: Time, lastToggle: Time)

  /** The instant toggling counts from: the last toggle, or the end of the initial delay. */
  function TurboOrigin(t: Turbo): Time {
    if t.turboActive then t.lastToggle else t.pressTime + Ms(t.delayMs)
  }

  /** The source asserts a non-zero interval once toggling has started. */
  predicate TurboSafe(t: Turbo) {
    t.active ==> t.intervalMs > 0
  }

  /** The turbo state at `now` in closed form: one phase flip per whole interval since the origin. */
  function TurboAt(t: Turbo, now: Time): Turbo
    requires TurboSafe(t)
  {
    if !t.active || now < TurboOrigin(t) then t else
    var elapsed, interval := now - TurboOrigin(t), Ms(t.intervalMs);
    t.(turboActive := true,
       phase := t.phase != OddTimes(elapsed, interval),
       lastToggle := TurboOrigin(t) + Floor(elapsed, interval))
  }

  function TurboDeadline(t: Turbo): Option<Time> {
    if !t.active then None
    else if t.turboActive then Some(t.lastToggle + Ms(t.intervalMs))
    else Some(t.pressTime + Ms(t.delayMs))
  }

  class TurboRuntime {
    const src: Button
    const intervalMs: nat
    const delayMs: nat
    var active: bool
    var turboActive: bool
    var phase: bool
    var pressTime: Time
    var lastToggle: Time

    function View(): Turbo
      reads this
    {
      Turbo(src, intervalMs, delayMs, active, turboActive, phase, pressTime, lastToggle)
    }

    constructor (cfg: TurboConfig, now: Time)
      ensures View() == FreshTurbo(cfg, now)
    {
      src, intervalMs, delayMs := cfg.src, cfg.intervalMs, cfg.delayMs;
      active, turboActive, phase := false, false, false;
      pressTime, lastToggle := now, now;
    }

    method Advance(now: Time)
      requires TurboSafe(View())
      modifies this
      ensures View() == TurboAt(old(View()), now)
    {
      if !active {
        return;
      }
      if !turboActive {
        var start := pressTime + Ms(delayMs);
        if now < start {
          return;
        }
        turboActive := true;
        lastToggle := start;
      }
      hide Floor, Ms;
      var interval := Ms(intervalMs);
      var elapsed := Since(now, lastToggle);
      FloorAndRest(elapsed, interval);
      var intervals := elapsed / interval;
      if intervals == 0 {
        QuotientBelow(elapsed, interval, 1);
        DivideLess(elapsed, interval);
        return;
      }
      if intervals % 2 == 1 {
        phase := !phase;
      }
      var rest := elapsed % interval;
      lastToggle := now - rest;
    }
  }

  function FreshTurbo(cfg: TurboConfig, now: Time): Turbo {
    Turbo(cfg.src, cfg.intervalMs, cfg.delayMs, false, false, false, now, now)
  }

  /** The phase rule: the last toggle is the latest grid point, less than one interval ago. */
  lemma TurboGrid(t: Turbo, now: Time)
    requires t.active && TurboSafe(t) && TurboOrigin(t) <= now
    ensures var r := TurboAt(t, now);
            && r.lastToggle <= now < r.lastToggle + Ms(t.intervalMs)
            && TurboDeadline(r) == Some(r.lastToggle + Ms(t.intervalMs))
  {
  }

  /** Path independence: an extra advance at an earlier time changes nothing. */
  lemma TurboCompose(t: Turbo, a: Time, b: Time)
    requires TurboSafe(t) && a <= b
    ensures TurboAt(TurboAt(t, a), b) == TurboAt(t, b)
  {
    hide Floor, OddTimes, Ms;
    if t.active && TurboOrigin(t) <= a {
      DivideInTwo(a - TurboOrigin(t), b - TurboOrigin(t), Ms(t.intervalMs));
      ParityInTwo(a - TurboOrigin(t), b - TurboOrigin(t), Ms(t.intervalMs));
    }
  }

  /** Advanced at each of the given times in turn. */
  function TurboThrough(t: Turbo, times: seq<Time>): Turbo
    requires TurboSafe(t)
    decreases |times|
  {
    if times == [] then t else TurboThrough(TurboAt(t, times[0]), times[1..])
  }

  predicate NonDecreasing(times: seq<Time>) {
    forall i, j :: 0 <= i < j < |times| ==> times[i] <= times[j]
  }

  /** However often a turbo was looked at on the way, only the last time counts. */
  lemma {:induction false} TurboPathIndependent(t: Turbo, times: seq<Time>)
    requires TurboSafe(t) && times != [] && NonDecreasing(times)
    ensures TurboThrough(t, times) == TurboAt(t, times[|times| - 1])
    decreases |times|
  {
    if |times| > 1 {
      TurboPathIndependent(TurboAt(t, times[0]), times[1..]);
      TurboCompose(t, times[0], times[|times| - 1]);
    }
  }

  /** The phase of a turbo pressed at `press`, by whatever path `now` was reached. */
  lemma TurboPhase(t: Turbo, press: Time, times: seq<Time>)
    requires t.active && !t.turboActive && t.phase && t.pressTime == press && t.intervalMs > 0
    requires times != [] && NonDecreasing(times) && press + Ms(t.delayMs) <= times[|times| - 1]
    ensures var now, r := times[|times| - 1], TurboThrough(t, times);
            && (r.phase <==> (now - press - Ms(t.delayMs)) / Ms(t.intervalMs) % 2 == 0)
            && r.turboActive && r.lastToggle <= now < r.lastToggle + Ms(t.intervalMs)
            && (r.lastToggle - press - Ms(t.delayMs)) % Ms(t.intervalMs) == 0
  {
    TurboPathIndependent(t, times);
    var d := Ms(t.intervalMs);
    MultipleHasNoRemainder(times[|times| - 1] - press - Ms(t.delayMs), d);
  }

  /** Nothing happens strictly before the deadline. */
  lemma TurboIdle(t: Turbo, now: Time)
    requires TurboSafe(t) && NoneDueBy(TurboDeadline(t), now)
    ensures TurboAt(t, now) == t
  {
    if t.active && TurboOrigin(t) <= now {
      DivideLess(now - TurboOrigin(t), Ms(t.intervalMs));
    }
  }

  // ---------------------------------------------------------------- combos

  datatype ComboState = ComboState(modifier: Button, key: Button, output: Target, active: bool)

  function FreshCombo(rule: ComboRule): ComboState {
    ComboState(rule.modifier, rule.key, rule.output, false)
  }

  class ComboRuntime {
    const modifier: Button
    const key: Button
    const output: Target
    var active: bool

    function View(): ComboState
      reads this
    {
      ComboState(modifier, key, output, active)
    }

    constructor (rule: ComboRule)
      ensures View() == FreshCombo(rule)
    {
      modifier, key, output, active := rule.modifier, rule.key, rule.output, false;
    }
  }

  // ---------------------------------------------------------------- macros

  datatype Step = Step(action: StepTarget, pressMs: nat, releaseMs: nat, pressed: bool, done: bool)

  datatype MacroState = MacroState(
    name: string, trigger: Button, mode: MacroMode, source: MacroSource,
    steps: seq<Step>, active: bool, stepStart: Time, next: Option<Time>)

  function FreshStep(step: MacroStep): Step {
    Step(step.action, step.pressMs, step.releaseMs, false, false)
  }

  function FreshSteps(steps: seq<MacroStep>): seq<Step> {
    seq(|steps|, i requires 0 <= i < |steps| => FreshStep(steps[i]))
  }

  function FreshMacro(rule: MacroRule, now: Time): MacroState {
    MacroState(rule.name, rule.trigger, rule.mode, rule.source, FreshSteps(rule.steps), false, now, None)
  }

  function ResetSteps(steps: seq<Step>): seq<Step> {
    seq(|steps|, i requires 0 <= i < |steps| => steps[i].(pressed := false, done := false))
  }

  /** A step's state `at` milliseconds into the run (single) or into the cycle (hold). */
  function SettleStep(step: Step, mode: MacroMode, at: nat): Step {
    step.(pressed := step.pressMs <= at < step.releaseMs,
          done := mode.Single? && step.releaseMs <= at)
  }

  function SettleSteps(steps: seq<Step>, mode: MacroMode, at: nat): seq<Step> {
    seq(|steps|, i requires 0 <= i < |steps| => SettleStep(steps[i], mode, at))
  }

  function MaxRelease(steps: seq<Step>): (r: nat)
    ensures forall i :: 0 <= i < |steps| ==> steps[i].releaseMs <= r
    ensures steps != [] ==> exists i :: 0 <= i < |steps| && steps[i].releaseMs == r
  {
    if steps == [] then 0 else
    var rest := MaxRelease(steps[1..]);
    assert forall i :: 1 <= i < |steps| ==> steps[i] == steps[1..][i - 1];
    if steps[0].releaseMs <= rest && steps[1..] != [] then
      var i :| 0 <= i < |steps[1..]| && steps[1..][i].releaseMs == rest;
      assert steps[i + 1].releaseMs == rest;
      rest
    else steps[0].releaseMs
  }

  /** The cycle length a hold macro divides by must exist and be positive. */
  predicate CycleSafe(m: MacroState) {
    m.active && m.mode.Hold? ==> m.steps != [] && MaxRelease(m.steps) > 0
  }

  /** What validation guarantees about every macro. */
  predicate MacroSafe(m: MacroState) {
    m.steps != [] && forall i :: 0 <= i < |m.steps| ==> m.steps[i].pressMs < m.steps[i].releaseMs
  }

  function ElapsedMs(m: MacroState, now: Time): nat {
    Since(now, m.stepStart) / NS_PER_MS
  }

  function After(d: Time, now: Time): Option<Time> {
    if now < d then Some(d) else None
  }

  /** When a settled step of a single macro changes next. */
  function SingleDue(step: Step, start: Time, now: Time): Option<Time> {
    if step.done then None
    else After(start + Ms(if step.pressed then step.releaseMs else step.pressMs), now)
  }

  function SingleDues(steps: seq<Step>, start: Time, now: Time): seq<Option<Time>> {
    seq(|steps|, i requires 0 <= i < |steps| => SingleDue(steps[i], start, now))
  }

  function HoldOffset(step: Step, at: nat, cycleMs: nat): nat {
    if at < step.pressMs then step.pressMs
    else if at < step.releaseMs then step.releaseMs
    else cycleMs + step.pressMs
  }

  function HoldDues(steps: seq<Step>, at: nat, cycleMs: nat, cycleStart: Time, now: Time): seq<Option<Time>> {
    seq(|steps|, i requires 0 <= i < |steps| => After(cycleStart + Ms(HoldOffset(steps[i], at, cycleMs)), now))
  }

  predicate AllDone(steps: seq<Step>) {
    forall i :: 0 <= i < |steps| ==> steps[i].done
  }

  function Stopped(m: MacroState): MacroState {
    m.(steps := ResetSteps(m.steps), active := false, next := None)
  }

  function PressDues(steps: seq<Step>, now: Time): seq<Option<Time>> {
    seq(|steps|, i requires 0 <= i < |steps| => Some(now + Ms(steps[i].pressMs)))
  }

  function Activated(m: MacroState, now: Time): MacroState {
    if m.active then m else
    m.(active := true, stepStart := now, steps := ResetSteps(m.steps), next := Earliest(PressDues(m.steps, now)))
  }

  /** The macro at `now`: a function of its start time alone, not of earlier advances. */
  function MacroAt(m: MacroState, now: Time): MacroState
    requires CycleSafe(m)
  {
    if !m.active then m else
    var elapsed := ElapsedMs(m, now);
    match m.mode
    case Single =>
      var steps := SettleSteps(m.steps, Single, elapsed);
      if AllDone(steps) then Stopped(m)
      else m.(steps := steps, next := Earliest(SingleDues(steps, m.stepStart, now)))
    case Hold =>
      var cycle := MaxRelease(m.steps);
      HoldAt(m, cycle, elapsed % cycle, Floor(elapsed, cycle), now)
  }

  /** A hold macro `at` milliseconds into the cycle that began `base` milliseconds after its start. */
  function HoldAt(m: MacroState, cycle: nat, at: nat, base: nat, now: Time): MacroState {
    var steps := SettleSteps(m.steps, Hold, at);
    m.(steps := steps, next := Earliest(HoldDues(steps, at, cycle, m.stepStart + Ms(base), now)))
  }

  function MacroDeadline(m: MacroState): Option<Time> {
    if m.active then m.next else None
  }

  function StepButtons(steps: seq<Step>): set<Button> {
    set s | s in steps && s.pressed && s.action.StepButton? :: s.action.button
  }

  function StepKeys(steps: seq<Step>): set<nat> {
    set s | s in steps && s.pressed && s.action.StepKey? :: s.action.code
  }

  function Contribution(intent: Intent, steps: seq<Step>): Intent {
    intent.(buttons := intent.buttons + StepButtons(steps), keys := intent.keys + StepKeys(steps))
  }

  lemma SamePresses(steps: seq<Step>, now: Time)
    ensures PressDues(ResetSteps(steps), now) == PressDues(steps, now)
  {
  }

  class MacroRuntime {
    const name: string
    const trigger: Button
    const mode: MacroMode
    const source: MacroSource
    var steps: seq<Step>
    var active: bool
    var stepStart: Time
    var nextTransition: Option<Time>

    function View(): MacroState
      reads this
    {
      MacroState(name, trigger, mode, source, steps, active, stepStart, nextTransition)
    }

    constructor (rule: MacroRule, now: Time)
      ensures View() == FreshMacro(rule, now)
    {
      name, trigger, mode, source := rule.name, rule.trigger, rule.mode, rule.source;
      steps := FreshSteps(rule.steps);
      active, stepStart, nextTransition := false, now, None;
    }

    method ClearSteps()
      modifies this`steps
      ensures steps == ResetSteps(old(steps))
    {
      for i := 0 to |steps|
        invariant |steps| == |old(steps)|
        invariant forall j :: 0 <= j < i ==> steps[j] == old(steps)[j].(pressed := false, done := false)
        invariant forall j :: i <= j < |steps| ==> steps[j] == old(steps)[j]
      {
        steps := steps[i := steps[i].(pressed := false, done := false)];
      }
    }

    method Activate(now: Time)
      modifies this
      ensures View() == Activated(old(View()), now)
    {
      hide Earliest, ResetSteps;
      if active {
        return;
      }
      active, stepStart := true, now;
      ClearSteps();
      nextTransition := Earliest(PressDues(steps, now));
      SamePresses(old(steps), now);
    }

    method Deactivate()
      modifies this
      ensures View() == Stopped(old(View()))
    {
      ClearSteps();
      active := false;
      nextTransition := None;
    }

    method Advance(now: Time)
      requires CycleSafe(View())
      modifies this
      ensures View() == MacroAt(old(View()), now)
    {
      if !active {
        return;
      }
      if mode.Single? {
        AdvanceSingle(now);
      } else {
        AdvanceHold(now);
      }
    }

    method AdvanceSingle(now: Time)
      requires active && mode.Single?
      modifies this
      ensures View() == MacroAt(old(View()), now)
    {
      var elapsed := Since(now, stepStart) / NS_PER_MS;
      for i := 0 to |steps|
        invariant |steps| == |old(steps)|
        invariant View() == old(View()).(steps := steps)
        invariant forall j :: 0 <= j < i ==> steps[j] == SettleStep(old(steps)[j], Single, elapsed)
        invariant forall j :: i <= j < |steps| ==> steps[j] == old(steps)[j]
      {
        var step := steps[i];
        step := step.(done := elapsed >= step.releaseMs);
        step := step.(pressed := elapsed >= step.pressMs && !step.done);
        steps := steps[i := step];
      }
      assert steps == SettleSteps(old(steps), Single, elapsed);
      if AllDone(steps) {
        assert ResetSteps(steps) == ResetSteps(old(steps));
        Deactivate();
        return;
      }
      nextTransition := Earliest(SingleDues(steps, stepStart, now));
    }

    method AdvanceHold(now: Time)
      requires active && mode.Hold? && CycleSafe(View())
      modifies this
      ensures View() == MacroAt(old(View()), now)
    {
      hide Floor, MaxRelease, Earliest, HoldDues, Ms, SettleStep, SettleSteps;
      var cycle := MaxRelease(steps);
      var elapsed := Since(now, stepStart) / NS_PER_MS;
      DivMod(elapsed, cycle);
      FloorAndRest(elapsed, cycle);
      var position := elapsed % cycle;
      var cycleStart := stepStart + Ms(elapsed / cycle * cycle);
      SettleHold(position);
      nextTransition := Earliest(HoldDues(steps, position, cycle, cycleStart, now));
    }

    /** Every step's state at this position of the cycle. */
    method SettleHold(position: nat)
      modifies this`steps
      ensures steps == SettleSteps(old(steps), Hold, position)
    {
      for i := 0 to |steps|
        invariant |steps| == |old(steps)|
        invariant forall j :: 0 <= j < i ==> steps[j] == SettleStep(old(steps)[j], Hold, position)
        invariant forall j :: i <= j < |steps| ==> steps[j] == old(steps)[j]
      {
        var step := steps[i];
        steps := steps[i := step.(pressed := step.pressMs <= position && position < step.releaseMs, done := false)];
      }
    }

    method Contribute(intent: OutputIntent)
      modifies intent
      ensures intent.View() == Contribution(old(intent.View()), steps)
    {
      hide StepButtons, StepKeys;
      StepsNone();
      for i := 0 to |steps|
        invariant intent.View().buttons == old(intent.buttons) + StepButtons(steps[..i])
        invariant intent.View().keys == old(intent.keyboard) + StepKeys(steps[..i])
        invariant intent.View() == old(intent.View()).(buttons := intent.buttons, keys := intent.keyboard)
      {
        StepsSnoc(steps, i);
        if steps[i].pressed {
          intent.PressStep(steps[i].action);
        }
      }
      assert steps[..|steps|] == steps;
    }
  }

  lemma StepsNone()
    ensures StepButtons([]) == {} && StepKeys([]) == {}
  {
  }

  lemma StepsSnoc(steps: seq<Step>, i: nat)
    requires i < |steps|
    ensures StepButtons(steps[..i + 1]) == StepButtons(steps[..i])
              + if steps[i].pressed && steps[i].action.StepButton? then {steps[i].action.button} else {}
    ensures StepKeys(steps[..i + 1]) == StepKeys(steps[..i])
              + if steps[i].pressed && steps[i].action.StepKey? then {steps[i].action.code} else {}
  {
    assert steps[..i + 1] == steps[..i] + [steps[i]];
  }

  /** A millisecond count stays below `n` exactly until `n` milliseconds after the start. */
  lemma ElapsedBelow(now: Time, start: Time, n: nat)
    requires n > 0
    ensures Since(now, start) / NS_PER_MS < n <==> now < start + Ms(n)
  {
  }

  lemma SingleCompose(m: MacroState, a: Time, b: Time)
    requires m.active && m.mode.Single? && a <= b
    ensures MacroAt(MacroAt(m, a), b) == MacroAt(m, b)
  {
    var steps, e' := SettleSteps(m.steps, Single, ElapsedMs(m, a)), ElapsedMs(m, b);
    assert SettleSteps(steps, Single, e') == SettleSteps(m.steps, Single, e');
    assert ResetSteps(steps) == ResetSteps(m.steps);
    if AllDone(steps) {
      assert forall i :: 0 <= i < |m.steps| ==> steps[i].done;
      assert AllDone(SettleSteps(m.steps, Single, e'));
    }
  }

  lemma HoldCompose(m: MacroState, a: Time, b: Time)
    requires m.active && m.mode.Hold? && CycleSafe(m)
    ensures CycleSafe(MacroAt(m, a)) && MacroAt(MacroAt(m, a), b) == MacroAt(m, b)
  {
    var m', cycle := MacroAt(m, a), MaxRelease(m.steps);
    SameReleases(m.steps, m'.steps);
    HoldAgain(m, m', cycle, ElapsedMs(m, b) % cycle, Floor(ElapsedMs(m, b), cycle), b);
  }

  /** What the steps were and when the next transition was due is forgotten by an advance. */
  lemma HoldAgain(m: MacroState, m': MacroState, cycle: nat, at: nat, base: nat, now: Time)
    requires m' == m.(steps := m'.steps, next := m'.next) && |m'.steps| == |m.steps|
    requires forall i :: 0 <= i < |m.steps| ==>
               m'.steps[i] == m.steps[i].(pressed := m'.steps[i].pressed, done := m'.steps[i].done)
    ensures HoldAt(m', cycle, at, base, now) == HoldAt(m, cycle, at, base, now)
  {
    hide Earliest, HoldDues, Ms;
    assert SettleSteps(m'.steps, Hold, at) == SettleSteps(m.steps, Hold, at);
  }

  /** Path independence for macros, across completion of a single run. */
  lemma MacroCompose(m: MacroState, a: Time, b: Time)
    requires CycleSafe(m) && a <= b
    ensures CycleSafe(MacroAt(m, a))
    ensures MacroAt(MacroAt(m, a), b) == MacroAt(m, b)
  {
    if m.active && m.mode.Single? {
      SingleCompose(m, a, b);
    } else if m.active {
      HoldCompose(m, a, b);
    }
  }

  function MacroThrough(m: MacroState, times: seq<Time>): MacroState
    requires MacroSafe(m)
    decreases |times|
  {
    SafeCycle(m);
    if times == [] then m else MacroThrough(MacroAt(m, times[0]), times[1..])
  }

  lemma {:induction false} MacroPathIndependent(m: MacroState, times: seq<Time>)
    requires MacroSafe(m) && times != [] && NonDecreasing(times)
    ensures CycleSafe(m) && MacroThrough(m, times) == MacroAt(m, times[|times| - 1])
    decreases |times|
  {
    SafeCycle(m);
    if |times| > 1 {
      MacroPathIndependent(MacroAt(m, times[0]), times[1..]);
      MacroCompose(m, times[0], times[|times| - 1]);
    }
  }

  lemma SameReleases(s: seq<Step>, t: seq<Step>)
    requires |s| == |t| && forall i :: 0 <= i < |s| ==> s[i].releaseMs == t[i].releaseMs
    ensures MaxRelease(s) == MaxRelease(t)
  {
    if s != [] {
      var i :| 0 <= i < |s| && s[i].releaseMs == MaxRelease(s);
      var j :| 0 <= j < |t| && t[j].releaseMs == MaxRelease(t);
      assert t[i].releaseMs <= MaxRelease(t) && s[j].releaseMs <= MaxRelease(s);
    }
  }

  /** Nothing happens to an advanced macro strictly before its next transition. */
  lemma MacroIdle(m: MacroState, now: Time, t: Time)
    requires MacroSafe(m) && CycleSafe(m) && now <= t
    requires NoneDueBy(MacroDeadline(MacroAt(m, now)), t)
    ensures CycleSafe(MacroAt(m, now)) && MacroAt(MacroAt(m, now), t) == MacroAt(m, now)
  {
    var m' := MacroAt(m, now);
    MacroCompose(m, now, t);
    if m'.active && m.mode.Single? {
      SingleIdle(m, now, t);
    } else if m'.active {
      HoldIdle(m, now, t);
    }
  }

  lemma SingleIdle(m: MacroState, now: Time, t: Time)
    requires MacroSafe(m) && m.active && m.mode.Single? && now <= t
    requires MacroAt(m, now).active && NoneDueBy(MacroAt(m, now).next, t)
    ensures MacroAt(m, t) == MacroAt(m, now)
  {
    var e, e' := ElapsedMs(m, now), ElapsedMs(m, t);
    var steps, steps' := SettleSteps(m.steps, Single, e), SettleSteps(m.steps, Single, e');
    var dues := SingleDues(steps, m.stepStart, now);
    forall i | 0 <= i < |steps|
      ensures steps'[i] == steps[i]
      ensures SingleDue(steps[i], m.stepStart, t) == dues[i]
    {
      if !steps[i].done {
        var offset := if steps[i].pressed then steps[i].releaseMs else steps[i].pressMs;
        ElapsedBelow(now, m.stepStart, offset);
        assert dues[i].Some?;
        ElapsedBelow(t, m.stepStart, offset);
      }
    }
    assert steps' == steps;
    assert SingleDues(steps', m.stepStart, t) == dues;
  }

  lemma DueAhead(steps: seq<Step>, at: nat, cycleMs: nat, cycleStart: Time, now: Time, t: Time, i: nat)
    requires i < |steps| && now < cycleStart + Ms(HoldOffset(steps[i], at, cycleMs))
    requires NoneDueBy(Earliest(HoldDues(steps, at, cycleMs, cycleStart, now)), t)
    ensures t < cycleStart + Ms(HoldOffset(steps[i], at, cycleMs))
  {
    var dues := HoldDues(steps, at, cycleMs, cycleStart, now);
    assert dues[i].Some?;
  }

  lemma HoldNext(m: MacroState, now: Time)
    requires m.active && m.mode.Hold? && CycleSafe(m)
    ensures var e, cycle := ElapsedMs(m, now), MaxRelease(m.steps);
            MacroAt(m, now).next == Earliest(HoldDues(SettleSteps(m.steps, Hold, e % cycle), e % cycle, cycle,
                                                      m.stepStart + Ms(Floor(e, cycle)), now))
  {
    hide Earliest, HoldDues, SettleSteps, MaxRelease, ElapsedMs, Floor, Ms;
  }

  /** Before the earliest due time every step's own due time is still ahead. */
  lemma HoldAhead(m: MacroState, now: Time, t: Time, i: nat)
    requires m.active && m.mode.Hold? && CycleSafe(m) && now <= t && i < |m.steps|
    requires m.steps[i].pressMs < m.steps[i].releaseMs
    requires NoneDueBy(MacroAt(m, now).next, t)
    ensures var cycle := MaxRelease(m.steps);
            var e := ElapsedMs(m, now);
            var offset := Floor(e, cycle) + HoldOffset(SettleStep(m.steps[i], Hold, e % cycle), e % cycle, cycle);
            ElapsedMs(m, t) < offset && t < m.stepStart + Ms(offset)
  {
    var e, cycle := ElapsedMs(m, now), MaxRelease(m.steps);
    hide MacroAt, Earliest, HoldDues, MaxRelease, ElapsedMs, HoldOffset, SettleSteps, SettleStep, NoneDueBy, Ms, Floor;
    HoldNext(m, now);
    FloorAndRest(e, cycle);
    StepAhead(m, e % cycle, Floor(e, cycle), cycle, now, t, i);
  }

  lemma StepAhead(m: MacroState, at: nat, base: nat, cycle: nat, now: Time, t: Time, i: nat)
    requires now <= t && i < |m.steps| && m.steps[i].pressMs < m.steps[i].releaseMs
    requires base + at == ElapsedMs(m, now) && at < cycle
    requires NoneDueBy(Earliest(HoldDues(SettleSteps(m.steps, Hold, at), at, cycle, m.stepStart + Ms(base), now)), t)
    ensures var offset := base + HoldOffset(SettleStep(m.steps[i], Hold, at), at, cycle);
            ElapsedMs(m, t) < offset && t < m.stepStart + Ms(offset)
  {
    hide Earliest, HoldDues;
    var steps := SettleSteps(m.steps, Hold, at);
    var offset := base + HoldOffset(steps[i], at, cycle);
    ElapsedBelow(now, m.stepStart, offset);
    DueAhead(steps, at, cycle, m.stepStart + Ms(base), now, t, i);
    ElapsedBelow(t, m.stepStart, offset);
  }

  lemma HoldSameCycle(m: MacroState, now: Time, t: Time)
    requires MacroSafe(m) && m.active && m.mode.Hold? && CycleSafe(m) && now <= t
    requires NoneDueBy(MacroAt(m, now).next, t)
    ensures var cycle := MaxRelease(m.steps);
            Floor(ElapsedMs(m, t), cycle) == Floor(ElapsedMs(m, now), cycle)
  {
    var cycle := MaxRelease(m.steps);
    var last :| 0 <= last < |m.steps| && m.steps[last].releaseMs == cycle;
    HoldAhead(m, now, t, last);
    FloorStays(ElapsedMs(m, now), ElapsedMs(m, t), cycle);
  }

  lemma HoldIdle(m: MacroState, now: Time, t: Time)
    requires MacroSafe(m) && m.active && m.mode.Hold? && CycleSafe(m) && now <= t
    requires NoneDueBy(MacroAt(m, now).next, t)
    ensures MacroAt(m, t) == MacroAt(m, now)
  {
    var e, e', cycle := ElapsedMs(m, now), ElapsedMs(m, t), MaxRelease(m.steps);
    HoldSameCycle(m, now, t);
    forall i | 0 <= i < |m.steps|
      ensures var offset := HoldOffset(SettleStep(m.steps[i], Hold, e % cycle), e % cycle, cycle);
              e' % cycle < offset && t < m.stepStart + Ms(Floor(e, cycle)) + Ms(offset)
    {
      HoldAhead(m, now, t, i);
    }
    SameWindow(m, cycle, e % cycle, e' % cycle, Floor(e, cycle), now, t);
  }

  lemma SameWindow(m: MacroState, cycle: nat, at: nat, at': nat, base: nat, now: Time, t: Time)
    requires at <= at' && now <= t
    requires forall i :: 0 <= i < |m.steps| ==>
               var offset := HoldOffset(SettleStep(m.steps[i], Hold, at), at, cycle);
               at' < offset && t < m.stepStart + Ms(base) + Ms(offset)
    requires forall i :: 0 <= i < |m.steps| ==> at' < cycle && m.steps[i].pressMs < m.steps[i].releaseMs
    ensures HoldAt(m, cycle, at', base, t) == HoldAt(m, cycle, at, base, now)
  {
    hide Earliest;
    var steps, steps' := SettleSteps(m.steps, Hold, at), SettleSteps(m.steps, Hold, at');
    var start := m.stepStart + Ms(base);
    forall i | 0 <= i < |steps| ensures steps'[i] == steps[i] && HoldOffset(steps[i], at', cycle) == HoldOffset(steps[i], at, cycle) {
      assert steps[i] == SettleStep(m.steps[i], Hold, at);
    }
    hide Ms, HoldOffset;
    assert steps' == steps;
    assert HoldDues(steps', at', cycle, start, t) == HoldDues(steps, at, cycle, start, now);
  }

  /** An advanced macro is never due at the instant it was advanced to. */
  lemma MacroNotDue(m: MacroState, now: Time)
    requires CycleSafe(m)
    ensures m.active ==> NoneDueBy(MacroDeadline(MacroAt(m, now)), now)
  {
  }

  // --------------------------------------------------- all runtimes together

  datatype Runtimes = Runtimes(turbo: seq<Turbo>, combo: seq<ComboState>, macros: seq<MacroState>)
  {
    predicate Running() {
      (exists i :: 0 <= i < |turbo| && turbo[i].active) || (exists i :: 0 <= i < |macros| && macros[i].active)
    }
  }

  function FreshRuntimes(mapping: MappingConfig, now: Time): Runtimes {
    Runtimes(
      seq(|mapping.turboConfigs|, i requires 0 <= i < |mapping.turboConfigs| =>
        FreshTurbo(mapping.turboConfigs[i], now)),
      seq(|mapping.comboConfigs|, i requires 0 <= i < |mapping.comboConfigs| =>
        FreshCombo(mapping.comboConfigs[i])),
      seq(|mapping.macroConfigs|, i requires 0 <= i < |mapping.macroConfigs| =>
        FreshMacro(mapping.macroConfigs[i], now)))
  }

  function TurboDeadlines(turbo: seq<Turbo>): seq<Option<Time>> {
    seq(|turbo|, i requires 0 <= i < |turbo| => TurboDeadline(turbo[i]))
  }

  function MacroDeadlines(macros: seq<MacroState>): seq<Option<Time>> {
    seq(|macros|, i requires 0 <= i < |macros| => MacroDeadline(macros[i]))
  }

  function RuntimesDeadline(r: Runtimes): Option<Time> {
    Earliest(TurboDeadlines(r.turbo) + MacroDeadlines(r.macros))
  }

  lemma DeadlineParts(r: Runtimes, now: Time)
    ensures NoneDueBy(RuntimesDeadline(r), now) <==>
            && (forall i :: 0 <= i < |r.turbo| ==> NoneDueBy(TurboDeadline(r.turbo[i]), now))
            && (forall i :: 0 <= i < |r.macros| ==> NoneDueBy(MacroDeadline(r.macros[i]), now))
    ensures RuntimesDeadline(r).Some? ==> r.Running()
  {
    var all := TurboDeadlines(r.turbo) + MacroDeadlines(r.macros);
    assert forall i :: 0 <= i < |r.turbo| ==> all[i] == TurboDeadline(r.turbo[i]);
    assert forall i :: 0 <= i < |r.macros| ==> all[|r.turbo| + i] == MacroDeadline(r.macros[i]);
    assert forall i :: |r.turbo| <= i < |all| ==> all[i] == MacroDeadline(r.macros[i - |r.turbo|]);
  }

  /** The rules a runtime was built from, read back from it. */
  function TurboRule(t: Turbo): TurboConfig {
    TurboConfig(t.src, t.intervalMs, t.delayMs)
  }

  predicate SameSteps(steps: seq<Step>, rule: seq<MacroStep>) {
    |steps| == |rule| && forall i :: 0 <= i < |steps| ==>
      MacroStep(steps[i].action, steps[i].pressMs, steps[i].releaseMs) == rule[i]
  }

  predicate MacroMatches(m: MacroState, rule: MacroRule) {
    m.name == rule.name && m.trigger == rule.trigger && m.mode == rule.mode && m.source == rule.source
    && SameSteps(m.steps, rule.steps)
  }

  predicate Matches(r: Runtimes, mapping: MappingConfig) {
    && |r.turbo| == |mapping.turboConfigs|
    && |r.combo| == |mapping.comboConfigs|
    && |r.macros| == |mapping.macroConfigs|
    && (forall i :: 0 <= i < |r.turbo| ==> TurboRule(r.turbo[i]) == mapping.turboConfigs[i])
    && (forall i :: 0 <= i < |r.combo| ==> r.combo[i].(active := false) == FreshCombo(mapping.comboConfigs[i]))
    && (forall i :: 0 <= i < |r.macros| ==> MacroMatches(r.macros[i], mapping.macroConfigs[i]))
  }

  /** What an accepted configuration guarantees about its timed rules. */
  predicate MappingSafe(mapping: MappingConfig) {
    && (forall i :: 0 <= i < |mapping.turboConfigs| ==>
          mapping.turboConfigs[i].intervalMs > 0
          || (mapping.splitTouchpad && mapping.turboConfigs[i].src == Touchpad))
    && (forall i :: 0 <= i < |mapping.macroConfigs| ==> RuleSafe(mapping.macroConfigs[i]))
  }

  predicate RuleSafe(rule: MacroRule) {
    rule.steps != [] && forall i :: 0 <= i < |rule.steps| ==> rule.steps[i].pressMs < rule.steps[i].releaseMs
  }

  /** The run invariant: the runtimes belong to the mapping and no assertion can trip. */
  predicate RuntimesOk(r: Runtimes, mapping: MappingConfig) {
    && Matches(r, mapping)
    && (forall i :: 0 <= i < |r.turbo| ==> TurboSafe(r.turbo[i]))
    && (forall i :: 0 <= i < |r.macros| ==> MacroSafe(r.macros[i]))
  }

  lemma SafeCycle(m: MacroState)
    requires MacroSafe(m)
    ensures CycleSafe(m)
  {
    assert m.steps[0].releaseMs <= MaxRelease(m.steps);
  }

  lemma FreshOk(mapping: MappingConfig, now: Time)
    requires MappingSafe(mapping)
    ensures RuntimesOk(FreshRuntimes(mapping, now), mapping)
    ensures !FreshRuntimes(mapping, now).Running()
    ensures RuntimesDeadline(FreshRuntimes(mapping, now)).None?
  {
    var r := FreshRuntimes(mapping, now);
    forall i | 0 <= i < |r.macros| ensures MacroSafe(r.macros[i]) {
      assert RuleSafe(mapping.macroConfigs[i]);
      assert forall j :: 0 <= j < |r.macros[i].steps| ==>
        r.macros[i].steps[j] == FreshStep(mapping.macroConfigs[i].steps[j]);
    }
    DeadlineParts(r, 0);
  }

  ghost predicate Distinct(s: seq<object>) {
    forall i, j :: 0 <= i < j < |s| ==> s[i] != s[j]
  }

  function TurboViews(ts: seq<TurboRuntime>): seq<Turbo>
    reads ts
  {
    seq(|ts|, i requires 0 <= i < |ts| reads ts => ts[i].View())
  }

  function ComboViews(cs: seq<ComboRuntime>): seq<ComboState>
    reads cs
  {
    seq(|cs|, i requires 0 <= i < |cs| reads cs => cs[i].View())
  }

  function MacroViews(ms: seq<MacroRuntime>): seq<MacroState>
    reads ms
  {
    seq(|ms|, i requires 0 <= i < |ms| reads ms => ms[i].View())
  }

  class MappingRuntimes {
    const turbo: seq<TurboRuntime>
    const combo: seq<ComboRuntime>
    const macros: seq<MacroRuntime>

    ghost predicate Valid() {
      Distinct(turbo) && Distinct(combo) && Distinct(macros)
    }

    function View(): Runtimes
      reads turbo, combo, macros
    {
      Runtimes(TurboViews(turbo), ComboViews(combo), MacroViews(macros))
    }

    constructor FromMapping(mapping: MappingConfig, now: Time)
      ensures Valid()
      ensures View() == FreshRuntimes(mapping, now)
      ensures fresh(turbo) && fresh(combo) && fresh(macros)
    {
      hide FreshMacro, FreshTurbo, FreshCombo;
      var ts := NewTurbos(mapping.turboConfigs, now);
      var cs := NewCombos(mapping.comboConfigs);
      var ms := NewMacros(mapping.macroConfigs, now);
      turbo, combo, macros := ts, cs, ms;
    }
  }

  method NewTurbos(configs: seq<TurboConfig>, now: Time) returns (ts: seq<TurboRuntime>)
    ensures |ts| == |configs| && Distinct(ts) && fresh(ts)
    ensures forall j :: 0 <= j < |ts| ==> ts[j].View() == FreshTurbo(configs[j], now)
  {
    hide FreshTurbo;
    ts := [];
    for i := 0 to |configs|
      invariant |ts| == i && Distinct(ts) && fresh(ts)
      invariant forall j :: 0 <= j < |ts| ==> ts[j].View() == FreshTurbo(configs[j], now)
    {
      var t := new TurboRuntime(configs[i], now);
      ts := ts + [t];
    }
  }

  method NewCombos(rules: seq<ComboRule>) returns (cs: seq<ComboRuntime>)
    ensures |cs| == |rules| && Distinct(cs) && fresh(cs)
    ensures forall j :: 0 <= j < |cs| ==> cs[j].View() == FreshCombo(rules[j])
  {
    hide FreshCombo;
    cs := [];
    for i := 0 to |rules|
      invariant |cs| == i && Distinct(cs) && fresh(cs)
      invariant forall j :: 0 <= j < |cs| ==> cs[j].View() == FreshCombo(rules[j])
    {
      var c := new ComboRuntime(rules[i]);
      cs := cs + [c];
    }
  }

  method NewMacros(rules: seq<MacroRule>, now: Time) returns (ms: seq<MacroRuntime>)
    ensures |ms| == |rules| && Distinct(ms) && fresh(ms)
    ensures forall j :: 0 <= j < |ms| ==> ms[j].View() == FreshMacro(rules[j], now)
  {
    hide FreshMacro;
    ms := [];
    for i := 0 to |rules|
      invariant |ms| == i && Distinct(ms) && fresh(ms)
      invariant forall j :: 0 <= j < |ms| ==> ms[j].View() == FreshMacro(rules[j], now)
    {
      var m := new MacroRuntime(rules[i], now);
      ms := ms + [m];
    }
  }
}

/** One controller frame or timer tick through turbo, combo, remap and macro stages (src/proxy/pipeline.rs). */
module Pipeline {
  import opened Model
  import opened Mapping
  import opened Runtime

  datatype PipelineOutput = PipelineOutput(state: GamepadState, snapshot: GamepadState, keyboard: set<nat>)

  datatype Outcome = Outcome(output: PipelineOutput, runtimes: Runtimes)

  function Suppress(state: GamepadState, buttons: set<Button>): GamepadState {
    state.(buttons := state.buttons - buttons,
           l2Analog := if L2 in buttons then 0 else state.l2Analog,
           r2Analog := if R2 in buttons then 0 else state.r2Analog)
  }

  /** The physical buttons as the mapping sees them, with a split touchpad click moved to its half. */
  function Snapshot(frame: ControllerFrame, mapping: MappingConfig): GamepadState {
    if !mapping.splitTouchpad then frame.state else
    var state := frame.state.Set(Touchpad, false);
    match TouchpadSplitButton(frame.raw)
    case None => state
    case Some(side) => state.Set(side, true)
  }

  // ------------------------------------------------------------ turbo stage

  function TurboNext(t: Turbo, snapshot: GamepadState, now: Time, observe: bool): Turbo
    requires TurboSafe(t)
  {
    var pressed := snapshot.Pressed(t.src);
    if observe && pressed && !t.active then
      t.(active := true, turboActive := false, phase := true, pressTime := now)
    else if observe && !pressed && t.active then
      t.(active := false, turboActive := false)
    else TurboAt(t, now)
  }

  function TurbosNext(ts: seq<Turbo>, snapshot: GamepadState, now: Time, observe: bool): seq<Turbo>
    requires forall i :: 0 <= i < |ts| ==> TurboSafe(ts[i])
  {
    seq(|ts|, i requires 0 <= i < |ts| => TurboNext(ts[i], snapshot, now, observe))
  }

  /** What one turbo does to the state: its source follows the phase while it is held. */
  function TurboEffect(state: GamepadState, wasActive: bool, t: Turbo): GamepadState {
    if t.active then Suppress(state, {t.src}).Set(t.src, t.phase)
    else if wasActive then Suppress(state, {t.src})
    else state
  }

  function TurboEffects(state: GamepadState, before: seq<Turbo>, after: seq<Turbo>): GamepadState
    requires |before| == |after|
    decreases |after|
  {
    if after == [] then state else
    var n := |after| - 1;
    TurboEffect(TurboEffects(state, before[..n], after[..n]), before[n].active, after[n])
  }

  // ------------------------------------------------------------ combo stage

  function CombosNext(cs: seq<ComboState>, pre: GamepadState): seq<ComboState> {
    seq(|cs|, i requires 0 <= i < |cs| =>
      cs[i].(active := pre.Pressed(cs[i].modifier) && pre.Pressed(cs[i].key)))
  }

  function ComboHeld(cs: seq<ComboState>, pre: GamepadState): set<Button> {
    (set c | c in cs && pre.Pressed(c.modifier) :: c.modifier)
    + (set c | c in cs && pre.Pressed(c.modifier) :: c.key)
  }

  function Triggered(cs: seq<ComboState>): seq<Target> {
    if cs == [] then [] else
    var before, c := Triggered(cs[..|cs| - 1]), cs[|cs| - 1];
    if c.active then before + [c.output] else before
  }

  predicate ComboFires(name: string, cs: seq<ComboState>) {
    exists c :: c in cs && c.active && c.output == Target.Macro(name)
  }

  function PressAll(intent: Intent, targets: seq<Target>): Intent {
    if targets == [] then intent
    else PressAll(intent, targets[..|targets| - 1]).Press(targets[|targets| - 1])
  }

  function PushAll(state: GamepadState, targets: seq<Target>): GamepadState {
    if targets == [] then state
    else PushStick(PushAll(state, targets[..|targets| - 1]), targets[|targets| - 1])
  }

  // ------------------------------------------------------------ macro stage

  /** A macro after the frame's triggers were looked at, before it is advanced. */
  function MacroArmed(m: MacroState, l1: GamepadState, cs: seq<ComboState>, now: Time, observe: bool): MacroState {
    match m.source
    case Physical =>
      if observe && l1.Pressed(m.trigger) then Activated(m, now)
      else if observe && m.active && m.mode.Hold? then Stopped(m)
      else m
    case Combo =>
      if ComboFires(m.name, cs) then (if observe then Activated(m, now) else m)
      else if m.active && m.mode.Hold? then Stopped(m)
      else m
  }

  function MacrosArmed(ms: seq<MacroState>, l1: GamepadState, cs: seq<ComboState>, now: Time, observe: bool): seq<MacroState> {
    seq(|ms|, i requires 0 <= i < |ms| => MacroArmed(ms[i], l1, cs, now, observe))
  }

  function MacrosAt(ms: seq<MacroState>, now: Time): seq<MacroState>
    requires forall i :: 0 <= i < |ms| ==> CycleSafe(ms[i])
  {
    seq(|ms|, i requires 0 <= i < |ms| => MacroAt(ms[i], now))
  }

  function Contributions(intent: Intent, armed: seq<MacroState>, after: seq<MacroState>): Intent
    requires |armed| == |after|
    decreases |after|
  {
    if after == [] then intent else
    var n := |after| - 1;
    var before := Contributions(intent, armed[..n], after[..n]);
    if armed[n].active then Contribution(before, after[n].steps) else before
  }

  lemma ArmedSafe(m: MacroState, l1: GamepadState, cs: seq<ComboState>, now: Time, observe: bool)
    requires MacroSafe(m)
    ensures MacroSafe(MacroArmed(m, l1, cs, now, observe))
    ensures CycleSafe(MacroArmed(m, l1, cs, now, observe))
  {
    SafeCycle(MacroArmed(m, l1, cs, now, observe));
  }

  lemma AllArmedSafe(ms: seq<MacroState>, l1: GamepadState, cs: seq<ComboState>, now: Time, observe: bool)
    requires forall i :: 0 <= i < |ms| ==> MacroSafe(ms[i])
    ensures forall i :: 0 <= i < |ms| ==> CycleSafe(MacrosArmed(ms, l1, cs, now, observe)[i])
  {
    forall i | 0 <= i < |ms| ensures CycleSafe(MacrosArmed(ms, l1, cs, now, observe)[i]) {
      ArmedSafe(ms[i], l1, cs, now, observe);
    }
  }

  // ---------------------------------------------------------- the whole step

  /** The state and runtimes after the turbo, combo and block stages. */
  datatype FirstStage = FirstStage(l1: GamepadState, turbo: seq<Turbo>, combo: seq<ComboState>)

  function Filter(frame: ControllerFrame, mapping: MappingConfig, r: Runtimes, now: Time, observe: bool): FirstStage
    requires forall i :: 0 <= i < |r.turbo| ==> TurboSafe(r.turbo[i])
  {
    var snapshot := Snapshot(frame, mapping);
    var turbo := TurbosNext(r.turbo, snapshot, now, observe);
    var pre := TurboEffects(snapshot, r.turbo, turbo);
    var blocked := set b | b in mapping.blockedButtons;
    FirstStage(Suppress(Suppress(pre, ComboHeld(r.combo, pre)), blocked), turbo, CombosNext(r.combo, pre))
  }

  function Transform(frame: ControllerFrame, mapping: MappingConfig, r: Runtimes, now: Time, observe: bool): Outcome
    requires RuntimesOk(r, mapping)
  {
    var first := Filter(frame, mapping, r, now, observe);
    var armed := MacrosArmed(r.macros, first.l1, first.combo, now, observe);
    AllArmedSafe(r.macros, first.l1, first.combo, now, observe);
    Assemble(Snapshot(frame, mapping), mapping, first, armed, MacrosAt(armed, now))
  }

  /** The remap, the combo outputs and the playing macros put together on the first-layer state. */
  function Assemble(snapshot: GamepadState, mapping: MappingConfig, first: FirstStage,
                    armed: seq<MacroState>, macros: seq<MacroState>): Outcome
    requires |armed| == |macros|
  {
    var targets := Triggered(first.combo);
    var pressed := PressAll(Gather(mapping.rules, first.l1, NO_INTENT), targets);
    var intent := Contributions(pressed, armed, macros);
    var state := PushAll(GatherState(mapping.rules, first.l1, first.l1), targets);
    Outcome(PipelineOutput(intent.ApplyTo(state), snapshot, intent.keys),
            Runtimes(first.turbo, first.combo, macros))
  }

  // ------------------------------------------------------------ the passes

  method SuppressButton(state: GamepadState, button: Button) returns (state': GamepadState)
    ensures state' == Suppress(state, {button})
  {
    state' := state.Set(button, false);
    match button
    case L2 => state' := state'.(l2Analog := 0);
    case R2 => state' := state'.(r2Analog := 0);
    case _ =>
  }

  /** One turbo's share of the frame. */
  method StepTurbo(turbo: TurboRuntime, snapshot: GamepadState, state: GamepadState, now: Time, observe: bool)
    returns (state': GamepadState)
    requires TurboSafe(turbo.View())
    modifies turbo
    ensures turbo.View() == TurboNext(old(turbo.View()), snapshot, now, observe)
    ensures state' == TurboEffect(state, old(turbo.active), turbo.View())
  {
    state' := state;
    var pressed := snapshot.Pressed(turbo.src);
    var wasActive := turbo.active;
    if turbo.active || (observe && pressed) {
      state' := SuppressButton(state', turbo.src);
    }
    if observe {
      if pressed && !turbo.active {
        turbo.active, turbo.turboActive, turbo.phase, turbo.pressTime := true, false, true, now;
        state' := state'.Set(turbo.src, true);
      } else if !pressed && turbo.active {
        turbo.active, turbo.turboActive := false, false;
        state' := state'.Set(turbo.src, false);
      }
    }
    if turbo.active && (!observe || wasActive) {
      turbo.Advance(now);
    }
    if turbo.active {
      state' := state'.Set(turbo.src, turbo.phase);
    }
    assert state'.buttons == TurboEffect(state, wasActive, turbo.View()).buttons;
  }

  /** The loop has replaced the first `i` views by their successors. */
  ghost predicate TurbosDone(ts: seq<TurboRuntime>, before: seq<Turbo>, after: seq<Turbo>, i: nat)
    requires |ts| == |before| == |after|
    reads ts
  {
    && (forall j :: 0 <= j < i && j < |ts| ==> ts[j].View() == after[j])
    && (forall j :: i <= j < |ts| ==> ts[j].View() == before[j])
  }

  lemma EffectsSnoc(state: GamepadState, before: seq<Turbo>, after: seq<Turbo>, i: nat)
    requires i < |before| == |after|
    ensures TurboEffects(state, before[..i + 1], after[..i + 1])
            == TurboEffect(TurboEffects(state, before[..i], after[..i]), before[i].active, after[i])
  {
    assert before[..i + 1][..i] == before[..i] && after[..i + 1][..i] == after[..i];
  }

  method TurboPass(runtimes: MappingRuntimes, snapshot: GamepadState, state: GamepadState, now: Time, observe: bool)
    returns (state': GamepadState)
    requires runtimes.Valid()
    requires forall i :: 0 <= i < |runtimes.turbo| ==> TurboSafe(TurboViews(runtimes.turbo)[i])
    modifies runtimes.turbo
    ensures TurboViews(runtimes.turbo) == TurbosNext(old(TurboViews(runtimes.turbo)), snapshot, now, observe)
    ensures state' == TurboEffects(state, old(TurboViews(runtimes.turbo)), TurboViews(runtimes.turbo))
  {
    state' := state;
    var ts := runtimes.turbo;
    ghost var before := TurboViews(ts);
    ghost var after := TurbosNext(before, snapshot, now, observe);
    for i := 0 to |ts|
      invariant TurbosDone(ts, before, after, i)
      invariant state' == TurboEffects(state, before[..i], after[..i])
    {
      assert ts[i].View() == before[i];
      state' := StepTurbo(ts[i], snapshot, state', now, observe);
      EffectsSnoc(state, before, after, i);
    }
    assert before[..|before|] == before && after[..|after|] == after;
    assert TurboViews(ts) == after;
  }

  ghost predicate CombosDone(cs: seq<ComboRuntime>, before: seq<ComboState>, after: seq<ComboState>, i: nat)
    requires |cs| == |before| == |after|
    reads cs
  {
    && (forall j :: 0 <= j < i && j < |cs| ==> cs[j].View() == after[j])
    && (forall j :: i <= j < |cs| ==> cs[j].View() == before[j])
  }

  method StepCombo(combo: ComboRuntime, pre: GamepadState, state: GamepadState) returns (state': GamepadState)
    modifies combo
    ensures combo.View() == old(combo.View()).(active := pre.Pressed(combo.modifier) && pre.Pressed(combo.key))
    ensures SuppressedTo(state', state, if pre.Pressed(combo.modifier) then {combo.modifier, combo.key} else {})
  {
    state' := state;
    var modifierHeld := pre.Pressed(combo.modifier);
    var keyHeld := pre.Pressed(combo.key);
    if modifierHeld {
      state' := SuppressButton(state', combo.modifier);
      state' := SuppressButton(state', combo.key);
    }
    combo.active := modifierHeld && keyHeld;
  }

  lemma SuppressMore(a: GamepadState, b: GamepadState, c: GamepadState, s: set<Button>, t: set<Button>)
    requires SuppressedTo(b, a, s) && SuppressedTo(c, b, t)
    ensures SuppressedTo(c, a, s + t)
  {
  }

  method ComboPass(runtimes: MappingRuntimes, state: GamepadState)
    returns (state': GamepadState, triggers: seq<Target>)
    requires runtimes.Valid()
    modifies runtimes.combo
    ensures ComboViews(runtimes.combo) == CombosNext(old(ComboViews(runtimes.combo)), state)
    ensures state' == Suppress(state, ComboHeld(old(ComboViews(runtimes.combo)), state))
    ensures triggers == Triggered(ComboViews(runtimes.combo))
  {
    hide SuppressedTo, ComboHeld;
    state', triggers := state, [];
    var cs := runtimes.combo;
    ghost var before := ComboViews(cs);
    ghost var after := CombosNext(before, state);
    HeldNone(state);
    for i := 0 to |cs|
      invariant CombosDone(cs, before, after, i)
      invariant SuppressedTo(state', state, ComboHeld(before[..i], state))
      invariant triggers == Triggered(after[..i])
    {
      assert cs[i].View() == before[i];
      HeldSnoc(before, i, state);
      ghost var was := state';
      state' := StepCombo(cs[i], state, state');
      SuppressMore(state, was, state', ComboHeld(before[..i], state),
                   if state.Pressed(cs[i].modifier) then {cs[i].modifier, cs[i].key} else {});
      assert after[..i + 1][..i] == after[..i];
      if cs[i].active {
        triggers := triggers + [cs[i].output];
      }
    }
    assert before[..|before|] == before && after[..|after|] == after;
    assert ComboViews(cs) == after;
    SuppressedMeans(state', state, ComboHeld(before, state));
  }

  lemma HeldNone(state: GamepadState)
    ensures SuppressedTo(state, state, ComboHeld([], state))
  {
  }

  lemma SuppressedMeans(state': GamepadState, state: GamepadState, buttons: set<Button>)
    requires SuppressedTo(state', state, buttons)
    ensures state' == Suppress(state, buttons)
  {
  }

  /** `state'` is `state` with these buttons suppressed, said field by field. */
  ghost predicate SuppressedTo(state': GamepadState, state: GamepadState, buttons: set<Button>) {
    && state'.buttons == state.buttons - buttons
    && state' == Suppress(state, buttons).(buttons := state'.buttons)
  }

  lemma HeldSnoc(cs: seq<ComboState>, i: nat, pre: GamepadState)
    requires i < |cs|
    ensures ComboHeld(cs[..i + 1], pre) ==
            ComboHeld(cs[..i], pre) + if pre.Pressed(cs[i].modifier) then {cs[i].modifier, cs[i].key} else {}
  {
    assert cs[..i + 1] == cs[..i] + [cs[i]];
  }

  method BlockPass(blocked: seq<Button>, state: GamepadState) returns (state': GamepadState)
    ensures state' == Suppress(state, set b | b in blocked)
  {
    state' := state;
    for i := 0 to |blocked|
      invariant SuppressedTo(state', state, set b | b in blocked[..i])
    {
      assert blocked[..i + 1] == blocked[..i] + [blocked[i]];
      state' := SuppressButton(state', blocked[i]);
    }
    assert blocked[..|blocked|] == blocked;
  }

  ghost predicate MacrosDone(ms: seq<MacroRuntime>, before: seq<MacroState>, after: seq<MacroState>, i: nat)
    requires |ms| == |before| == |after|
    reads ms
  {
    && (forall j :: 0 <= j < i && j < |ms| ==> ms[j].View() == after[j])
    && (forall j :: i <= j < |ms| ==> ms[j].View() == before[j])
  }

  /** The three macro passes of a frame, one macro at a time. */
  function MacroDetected(m: MacroState, l1: GamepadState, now: Time, observe: bool): MacroState {
    if !observe || m.source.Combo? then m
    else if l1.Pressed(m.trigger) then Activated(m, now)
    else if m.active && m.mode.Hold? then Stopped(m)
    else m
  }

  function MacroInjected(m: MacroState, triggers: seq<Target>, now: Time, observe: bool): MacroState {
    if observe && m.source.Combo? && Target.Macro(m.name) in triggers then Activated(m, now) else m
  }

  function MacroReleased(m: MacroState, cs: seq<ComboState>): MacroState {
    if m.source.Combo? && m.active && m.mode.Hold? && !ComboFires(m.name, cs) then Stopped(m) else m
  }

  lemma {:induction false} TriggeredFires(cs: seq<ComboState>, name: string)
    ensures Target.Macro(name) in Triggered(cs) <==> ComboFires(name, cs)
  {
    if cs != [] {
      TriggeredFires(cs[..|cs| - 1], name);
      assert cs == cs[..|cs| - 1] + [cs[|cs| - 1]];
    }
  }

  lemma PassesArm(m: MacroState, l1: GamepadState, cs: seq<ComboState>, now: Time, observe: bool)
    ensures MacroReleased(MacroInjected(MacroDetected(m, l1, now, observe), Triggered(cs), now, observe), cs)
            == MacroArmed(m, l1, cs, now, observe)
  {
    TriggeredFires(cs, m.name);
  }

  method Detect(runtime: MacroRuntime, l1: GamepadState, now: Time)
    modifies runtime
    ensures runtime.View() == MacroDetected(old(runtime.View()), l1, now, true)
  {
    if runtime.source == Physical {
      var pressed := l1.Pressed(runtime.trigger);
      if pressed && !runtime.active {
        runtime.Activate(now);
      }
      if !pressed && runtime.active && runtime.mode.Hold? {
        runtime.Deactivate();
      }
    }
  }

  method DetectPass(ms: seq<MacroRuntime>, l1: GamepadState, now: Time)
    requires Distinct(ms)
    modifies ms
    ensures forall i :: 0 <= i < |ms| ==>
      MacroViews(ms)[i] == MacroDetected(old(MacroViews(ms))[i], l1, now, true)
  {
    hide MacroDetected, MacroRuntime.View;
    ghost var before := MacroViews(ms);
    ghost var after := seq(|ms|, i requires 0 <= i < |ms| => MacroDetected(before[i], l1, now, true));
    for i := 0 to |ms|
      invariant MacrosDone(ms, before, after, i)
    {
      assert ms[i].View() == before[i];
      Detect(ms[i], l1, now);
    }
  }

  method Inject(runtime: MacroRuntime, name: string, now: Time)
    modifies runtime
    ensures runtime.View() == MacroInjected(old(runtime.View()), [Target.Macro(name)], now, true)
  {
    if runtime.name == name && runtime.source == Combo {
      runtime.Activate(now);
    }
  }

  method ActivateNamed(ms: seq<MacroRuntime>, name: string, now: Time)
    requires Distinct(ms)
    modifies ms
    ensures forall i :: 0 <= i < |ms| ==>
      MacroViews(ms)[i] == MacroInjected(old(MacroViews(ms))[i], [Target.Macro(name)], now, true)
  {
    hide MacroInjected, MacroRuntime.View;
    ghost var before := MacroViews(ms);
    ghost var after := seq(|ms|, i requires 0 <= i < |ms| => MacroInjected(before[i], [Target.Macro(name)], now, true));
    for i := 0 to |ms|
      invariant MacrosDone(ms, before, after, i)
    {
      assert ms[i].View() == before[i];
      Inject(ms[i], name, now);
    }
  }

  method InjectPass(ms: seq<MacroRuntime>, triggers: seq<Target>, state: GamepadState, intent: OutputIntent,
                    now: Time, observe: bool)
    returns (state': GamepadState)
    requires Distinct(ms)
    modifies ms, intent
    ensures forall i :: 0 <= i < |ms| ==>
      MacroViews(ms)[i] == MacroInjected(old(MacroViews(ms))[i], triggers, now, observe)
    ensures state' == PushAll(state, triggers)
    ensures intent.View() == PressAll(old(intent.View()), triggers)
  {
    hide MacroInjected, MacroRuntime.View, OutputIntent.View;
    state' := state;
    ghost var before := MacroViews(ms);
    forall i | 0 <= i < |ms| {
      InjectedNone(before[i], now, observe);
    }
    for k := 0 to |triggers|
      invariant forall i :: 0 <= i < |ms| ==> MacroViews(ms)[i] == MacroInjected(before[i], triggers[..k], now, observe)
      invariant state' == PushAll(state, triggers[..k])
      invariant intent.View() == PressAll(old(intent.View()), triggers[..k])
    {
      assert triggers[..k + 1] == triggers[..k] + [triggers[k]];
      forall i | 0 <= i < |ms| {
        InjectedSnoc(before[i], triggers[..k], triggers[k], now, observe);
      }
      PressNothing(PressAll(old(intent.View()), triggers[..k]), triggers[k]);
      if triggers[k].Macro? {
        if observe {
          ActivateNamed(ms, triggers[k].name, now);
        }
      } else {
        state' := intent.PressTarget(state', triggers[k]);
      }
    }
    assert triggers[..|triggers|] == triggers;
  }

  lemma InjectedNone(m: MacroState, now: Time, observe: bool)
    ensures MacroInjected(m, [], now, observe) == m
  {
  }

  lemma InjectedSnoc(m: MacroState, triggers: seq<Target>, trigger: Target, now: Time, observe: bool)
    ensures MacroInjected(m, triggers + [trigger], now, observe) ==
            if trigger.Macro? && observe then MacroInjected(MacroInjected(m, triggers, now, observe), [trigger], now, true)
            else MacroInjected(m, triggers, now, observe)
  {
  }

  lemma PressNothing(intent: Intent, target: Target)
    ensures target.Macro? ==> intent.Press(target) == intent
  {
    assert intent.buttons + {} == intent.buttons && intent.keys + {} == intent.keys;
  }

  method ReleaseOne(runtime: MacroRuntime, cs: seq<ComboRuntime>)
    modifies runtime
    ensures runtime.View() == MacroReleased(old(runtime.View()), old(ComboViews(cs)))
  {
    if runtime.source == Combo && runtime.active && runtime.mode.Hold? {
      var anyComboActive := exists c :: c in cs && c.active && c.output == Target.Macro(runtime.name);
      FiresView(cs, runtime.name);
      hide ComboFires;
      if !anyComboActive {
        runtime.Deactivate();
      }
    }
  }

  method ReleasePass(ms: seq<MacroRuntime>, cs: seq<ComboRuntime>)
    requires Distinct(ms)
    modifies ms
    ensures forall i :: 0 <= i < |ms| ==> MacroViews(ms)[i] == MacroReleased(old(MacroViews(ms))[i], ComboViews(cs))
  {
    hide MacroReleased, MacroRuntime.View;
    ghost var before := MacroViews(ms);
    ghost var combos := ComboViews(cs);
    ghost var after := seq(|ms|, i requires 0 <= i < |ms| => MacroReleased(before[i], combos));
    for i := 0 to |ms|
      invariant MacrosDone(ms, before, after, i)
      invariant ComboViews(cs) == combos
    {
      assert ms[i].View() == before[i];
      ReleaseOne(ms[i], cs);
    }
  }

  lemma FiresView(cs: seq<ComboRuntime>, name: string)
    ensures ComboFires(name, ComboViews(cs)) <==> exists c :: c in cs && c.active && c.output == Target.Macro(name)
  {
    if c :| c in cs && c.active && c.output == Target.Macro(name) {
      var i :| 0 <= i < |cs| && cs[i] == c;
      assert ComboViews(cs)[i] in ComboViews(cs);
    }
    if v :| v in ComboViews(cs) && v.active && v.output == Target.Macro(name) {
      var i :| 0 <= i < |cs| && ComboViews(cs)[i] == v;
      assert cs[i] in cs;
    }
  }

  method AdvanceOne(runtime: MacroRuntime, intent: OutputIntent, now: Time)
    requires CycleSafe(runtime.View())
    modifies runtime, intent
    ensures runtime.View() == MacroAt(old(runtime.View()), now)
    ensures intent.View() == if old(runtime.View()).active then Contribution(old(intent.View()), runtime.View().steps)
                             else old(intent.View())
  {
    hide CycleSafe, Contribution;
    if runtime.active {
      runtime.Advance(now);
      runtime.Contribute(intent);
    }
  }

  method AdvancePass(ms: seq<MacroRuntime>, intent: OutputIntent, now: Time)
    requires Distinct(ms)
    requires forall i :: 0 <= i < |ms| ==> CycleSafe(MacroViews(ms)[i])
    modifies ms, intent
    ensures MacroViews(ms) == MacrosAt(old(MacroViews(ms)), now)
    ensures intent.View() == Contributions(old(intent.View()), old(MacroViews(ms)), MacroViews(ms))
  {
    hide MacroAt, CycleSafe, Contribution, MacroRuntime.View, OutputIntent.View;
    ghost var before := MacroViews(ms);
    ghost var after := MacrosAt(before, now);
    for i := 0 to |ms|
      invariant MacrosDone(ms, before, after, i)
      invariant intent.View() == Contributions(old(intent.View()), before[..i], after[..i])
    {
      assert ms[i].View() == before[i];
      assert before[..i + 1][..i] == before[..i] && after[..i + 1][..i] == after[..i];
      AdvanceOne(ms[i], intent, now);
    }
    assert before[..|before|] == before && after[..|after|] == after;
    assert MacroViews(ms) == after;
  }

  method SplitTouchpad(frame: ControllerFrame, mapping: MappingConfig) returns (state: GamepadState)
    ensures state == Snapshot(frame, mapping)
  {
    state := frame.state;
    if mapping.splitTouchpad {
      state := state.Set(Touchpad, false);
      var side := TouchpadSplitButton(frame.raw);
      if side.Some? {
        state := state.Set(side.value, true);
      }
    }
  }

  /** Turbo, combo suppression and explicit blocks: the stages that produce the first-layer state. */
  method FilterPass(runtimes: MappingRuntimes, mapping: MappingConfig, snapshot: GamepadState, now: Time, observe: bool,
                    ghost frame: ControllerFrame)
    returns (l1: GamepadState, triggers: seq<Target>)
    requires runtimes.Valid() && RuntimesOk(runtimes.View(), mapping) && snapshot == Snapshot(frame, mapping)
    modifies runtimes.turbo, runtimes.combo
    ensures FirstStage(l1, TurboViews(runtimes.turbo), ComboViews(runtimes.combo))
            == Filter(frame, mapping, old(runtimes.View()), now, observe)
    ensures triggers == Triggered(ComboViews(runtimes.combo))
    ensures MacroViews(runtimes.macros) == old(MacroViews(runtimes.macros))
  {
    hide TurbosNext, TurboEffects, CombosNext, ComboHeld, Suppress, Triggered, Snapshot, MacroSafe;
    l1 := TurboPass(runtimes, snapshot, snapshot, now, observe);
    l1, triggers := ComboPass(runtimes, l1);
    l1 := BlockPass(mapping.blockedButtons, l1);
  }

  /** Macro detection, remapping and combo injection on top of the first-layer state. */
  method ArmPasses(ms: seq<MacroRuntime>, cs: seq<ComboRuntime>, mapping: MappingConfig, l1: GamepadState,
                   triggers: seq<Target>, intent: OutputIntent, now: Time, observe: bool)
    returns (state: GamepadState)
    requires Distinct(ms)
    requires triggers == Triggered(ComboViews(cs)) && intent.View() == NO_INTENT
    modifies ms, intent
    ensures state == PushAll(GatherState(mapping.rules, l1, l1), triggers)
    ensures intent.View() == PressAll(Gather(mapping.rules, l1, NO_INTENT), triggers)
    ensures MacroViews(ms) == MacrosArmed(old(MacroViews(ms)), l1, ComboViews(cs), now, observe)
    ensures ComboViews(cs) == old(ComboViews(cs))
  {
    hide MacroDetected, MacroInjected, MacroReleased, MacroArmed, MacroRuntime.View, ComboRuntime.View, OutputIntent.View;
    hide PushAll, PressAll, Gather, GatherState, Triggered;
    ghost var m0, combos := MacroViews(ms), ComboViews(cs);
    if observe {
      DetectPass(ms, l1, now);
    } else {
      UnobservedIdle(m0, l1, now);
    }
    ghost var m1 := MacroViews(ms);
    state := Collect(mapping, l1, l1, intent);
    state := InjectPass(ms, triggers, state, intent, now, observe);
    ghost var m2 := MacroViews(ms);
    ReleasePass(ms, cs);
    ghost var m3 := MacroViews(ms);
    ArmedInThree(m0, m1, m2, m3, l1, combos, now, observe);
  }

  lemma UnobservedIdle(ms: seq<MacroState>, l1: GamepadState, now: Time)
    ensures forall i :: 0 <= i < |ms| ==> MacroDetected(ms[i], l1, now, false) == ms[i]
  {
  }

  lemma ArmedInThree(m0: seq<MacroState>, m1: seq<MacroState>, m2: seq<MacroState>, m3: seq<MacroState>,
                     l1: GamepadState, cs: seq<ComboState>, now: Time, observe: bool)
    requires |m0| == |m1| == |m2| == |m3|
    requires forall i :: 0 <= i < |m0| ==> m1[i] == MacroDetected(m0[i], l1, now, observe)
    requires forall i :: 0 <= i < |m0| ==> m2[i] == MacroInjected(m1[i], Triggered(cs), now, observe)
    requires forall i :: 0 <= i < |m0| ==> m3[i] == MacroReleased(m2[i], cs)
    ensures m3 == MacrosArmed(m0, l1, cs, now, observe)
  {
    forall i | 0 <= i < |m0| ensures m3[i] == MacroArmed(m0[i], l1, cs, now, observe) {
      PassesArm(m0[i], l1, cs, now, observe);
    }
  }

  /** Both macro passes; the turbo and combo runtimes stay as the filter left them. */
  method MacroPass(runtimes: MappingRuntimes, mapping: MappingConfig, l1: GamepadState, triggers: seq<Target>,
                   intent: OutputIntent, now: Time, observe: bool, ghost armed: seq<MacroState>)
    returns (state: GamepadState)
    requires runtimes.Valid()
    requires triggers == Triggered(ComboViews(runtimes.combo)) && intent.View() == NO_INTENT
    requires armed == MacrosArmed(MacroViews(runtimes.macros), l1, ComboViews(runtimes.combo), now, observe)
    requires forall i :: 0 <= i < |armed| ==> CycleSafe(armed[i])
    modifies runtimes.macros, intent
    ensures state == PushAll(GatherState(mapping.rules, l1, l1), triggers)
    ensures MacroViews(runtimes.macros) == MacrosAt(armed, now)
    ensures TurboViews(runtimes.turbo) == old(TurboViews(runtimes.turbo))
    ensures ComboViews(runtimes.combo) == old(ComboViews(runtimes.combo))
    ensures intent.View() == Contributions(PressAll(Gather(mapping.rules, l1, NO_INTENT), triggers),
                                           armed, MacrosAt(armed, now))
  {
    hide PushAll, GatherState, PressAll, Gather, Contributions, MacroArmed, CycleSafe, MacroAt, Triggered;
    state := ArmPasses(runtimes.macros, runtimes.combo, mapping, l1, triggers, intent, now, observe);
    AdvancePass(runtimes.macros, intent, now);
  }

  /** The source's `transform_inner`: `observe` is true for controller frames and false for timer ticks. */
  method TransformInner(frame: ControllerFrame, mapping: MappingConfig, runtimes: MappingRuntimes, now: Time, observe: bool)
    returns (output: PipelineOutput)
    requires runtimes.Valid() && RuntimesOk(runtimes.View(), mapping)
    modifies runtimes.turbo, runtimes.combo, runtimes.macros
    ensures Outcome(output, runtimes.View()) == Transform(frame, mapping, old(runtimes.View()), now, observe)
  {
    ghost var r, first := runtimes.View(), Filter(frame, mapping, runtimes.View(), now, observe);
    var snapshot := SplitTouchpad(frame, mapping);
    var l1, triggers := FilterPass(runtimes, mapping, snapshot, now, observe, frame);
    ghost var armed := MacrosArmed(r.macros, first.l1, first.combo, now, observe);
    AllArmedSafe(r.macros, first.l1, first.combo, now, observe);
    var intent := new OutputIntent();
    var state := MacroPass(runtimes, mapping, l1, triggers, intent, now, observe, armed);
    state := intent.ApplyToState(state);
    output := PipelineOutput(state, snapshot, intent.keyboard);
    assert runtimes.View() == Runtimes(first.turbo, first.combo, MacrosAt(armed, now));
    assert Outcome(output, runtimes.View()) == Assemble(snapshot, mapping, first, armed, MacrosAt(armed, now));
  }
}

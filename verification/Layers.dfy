/** What a transform outputs, button by button and key by key, without its passes (src/proxy/pipeline.rs). */
module Layers {
  import opened Model
  import opened Mapping
  import opened Runtime
  import opened Pipeline
  import opened PipelineRuns

  // ------------------------------------------------------- the first layer

  /** Turbo `i` speaks for this button: it runs, or this frame released it. */
  predicate Touches(before: seq<Turbo>, after: seq<Turbo>, i: nat, b: Button)
    requires |before| == |after|
  {
    i < |after| && (before[i].active || after[i].active) && after[i].src == b
  }

  predicate Touched(before: seq<Turbo>, after: seq<Turbo>, b: Button)
    requires |before| == |after|
  {
    exists i :: 0 <= i < |after| && Touches(before, after, i, b)
  }

  predicate LastTouch(before: seq<Turbo>, after: seq<Turbo>, i: nat, b: Button)
    requires |before| == |after|
  {
    Touches(before, after, i, b) && forall j :: i < j < |after| ==> !Touches(before, after, j, b)
  }

  /** A touched button shows the phase of the last turbo on it, any other button the physical press. */
  predicate TurboShows(shown: GamepadState, physical: GamepadState, before: seq<Turbo>, after: seq<Turbo>, b: Button)
    requires |before| == |after|
  {
    && (!Touched(before, after, b) ==> (shown.Pressed(b) <==> physical.Pressed(b)))
    && forall i :: 0 <= i < |after| && LastTouch(before, after, i, b) ==>
         (shown.Pressed(b) <==> after[i].active && after[i].phase)
  }

  function Zeroed(physical: Byte, hidden: bool): Byte {
    if hidden then 0 else physical
  }

  lemma TouchesInit(before: seq<Turbo>, after: seq<Turbo>, b: Button)
    requires |before| == |after| > 0
    ensures var n := |after| - 1;
            && (forall i :: 0 <= i < n ==> (Touches(before[..n], after[..n], i, b) <==> Touches(before, after, i, b)))
            && (Touched(before, after, b) <==> Touched(before[..n], after[..n], b) || Touches(before, after, n, b))
  {
    var n := |after| - 1;
    assert forall i :: 0 <= i < n ==> before[..n][i] == before[i] && after[..n][i] == after[i];
    if i :| 0 <= i < n && Touches(before[..n], after[..n], i, b) {
      assert Touches(before, after, i, b);
    }
  }

  /** The turbo stage, button by button. */
  lemma {:induction false} TurboStage(physical: GamepadState, before: seq<Turbo>, after: seq<Turbo>, b: Button)
    requires |before| == |after|
    ensures TurboShows(TurboEffects(physical, before, after), physical, before, after, b)
    decreases |after|
  {
    if after != [] {
      var n := |after| - 1;
      var was := TurboEffects(physical, before[..n], after[..n]);
      TurboStage(physical, before[..n], after[..n], b);
      EffectOn(was, before[n].active, after[n], b);
      hide TurboEffect, TurboShows;
      ShowsNext(was, TurboEffects(physical, before, after), physical, before, after, b);
    }
  }

  lemma ShowsNext(was: GamepadState, shown: GamepadState, physical: GamepadState, before: seq<Turbo>, after: seq<Turbo>,
                  b: Button)
    requires |before| == |after| > 0
    requires TurboShows(was, physical, before[..|after| - 1], after[..|after| - 1], b)
    requires var n := |after| - 1;
             shown.Pressed(b) <==>
               if Touches(before, after, n, b) then after[n].active && after[n].phase else was.Pressed(b)
    ensures TurboShows(shown, physical, before, after, b)
  {
    hide LastTouch, Touched, Touches;
    TouchesInit(before, after, b);
    LastTouchInit(before, after, b);
  }

  lemma EffectOn(s: GamepadState, wasActive: bool, t: Turbo, b: Button)
    ensures TurboEffect(s, wasActive, t).Pressed(b) <==>
            if (wasActive || t.active) && t.src == b then t.active && t.phase else s.Pressed(b)
  {
  }

  lemma LastTouchInit(before: seq<Turbo>, after: seq<Turbo>, b: Button)
    requires |before| == |after| > 0
    ensures var n := |after| - 1;
            forall i :: 0 <= i <= n ==>
              (LastTouch(before, after, i, b) <==>
                (if i < n then !Touches(before, after, n, b) && LastTouch(before[..n], after[..n], i, b)
                 else Touches(before, after, n, b)))
  {
    TouchesInit(before, after, b);
  }

  lemma {:induction false} TurboAnalogs(physical: GamepadState, before: seq<Turbo>, after: seq<Turbo>)
    requires |before| == |after|
    ensures var shown := TurboEffects(physical, before, after);
            && shown.l2Analog == Zeroed(physical.l2Analog, Touched(before, after, L2))
            && shown.r2Analog == Zeroed(physical.r2Analog, Touched(before, after, R2))
            && shown == physical.(buttons := shown.buttons, l2Analog := shown.l2Analog, r2Analog := shown.r2Analog)
    decreases |after|
  {
    if after != [] {
      var n := |after| - 1;
      TurboAnalogs(physical, before[..n], after[..n]);
      TouchesInit(before, after, L2);
      TouchesInit(before, after, R2);
    }
  }

  /** A held combo modifier hides itself and its key. */
  predicate ComboHides(cs: seq<ComboState>, shown: GamepadState, b: Button) {
    exists c :: c in cs && shown.Pressed(c.modifier) && b in {c.modifier, c.key}
  }

  predicate Hidden(cs: seq<ComboState>, shown: GamepadState, mapping: MappingConfig, b: Button) {
    ComboHides(cs, shown, b) || b in mapping.blockedButtons
  }

  /**
   * The first layer: `shown` is what the turbo stage shows of the physical buttons; combos and explicit
   * blocks then hide some of it, together with the analog value of a hidden trigger.
   */
  lemma FirstLayer(frame: ControllerFrame, mapping: MappingConfig, r: Runtimes, now: Time, observe: bool)
    returns (shown: GamepadState)
    requires RuntimesOk(r, mapping)
    ensures var first, physical := Filter(frame, mapping, r, now, observe), Snapshot(frame, mapping);
            && |first.turbo| == |r.turbo|
            && (forall b :: TurboShows(shown, physical, r.turbo, first.turbo, b))
            && (forall b :: first.l1.Pressed(b) <==> shown.Pressed(b) && !Hidden(r.combo, shown, mapping, b))
            && first.l1.l2Analog
               == Zeroed(physical.l2Analog, Touched(r.turbo, first.turbo, L2) || Hidden(r.combo, shown, mapping, L2))
            && first.l1.r2Analog
               == Zeroed(physical.r2Analog, Touched(r.turbo, first.turbo, R2) || Hidden(r.combo, shown, mapping, R2))
            && (forall axis :: first.l1.Stick(axis) == physical.Stick(axis))
            && (forall i :: 0 <= i < |r.combo| ==>
                  i < |first.combo| && (first.combo[i].active <==>
                    shown.Pressed(r.combo[i].modifier) && shown.Pressed(r.combo[i].key)))
  {
    var first, physical := Filter(frame, mapping, r, now, observe), Snapshot(frame, mapping);
    shown := TurboEffects(physical, r.turbo, first.turbo);
    forall b ensures TurboShows(shown, physical, r.turbo, first.turbo, b) {
      TurboStage(physical, r.turbo, first.turbo, b);
    }
    TurboAnalogs(physical, r.turbo, first.turbo);
    hide TurboNext, TurboEffects, RuntimesOk, Snapshot, Touched;
    forall b ensures b in ComboHeld(r.combo, shown) <==> ComboHides(r.combo, shown, b) {}
  }

  // ------------------------------------------------------- the whole output

  ghost predicate ComboAsks(cs: seq<ComboState>, b: Button) {
    exists c :: c in cs && c.active && b in TargetButtons(c.output)
  }

  ghost predicate ComboAsksKey(cs: seq<ComboState>, k: nat) {
    exists c :: c in cs && c.active && k in TargetKeys(c.output)
  }

  lemma {:induction false} TriggeredMembers(cs: seq<ComboState>)
    ensures forall t :: t in Triggered(cs) <==> exists c :: c in cs && c.active && c.output == t
  {
    if cs != [] {
      TriggeredMembers(cs[..|cs| - 1]);
      assert cs == cs[..|cs| - 1] + [cs[|cs| - 1]];
    }
  }

  lemma {:induction false} PressedPointwise(intent: Intent, targets: seq<Target>)
    ensures var out := PressAll(intent, targets);
            && (forall b :: b in out.buttons <==> b in intent.buttons || exists t :: t in targets && b in TargetButtons(t))
            && (forall k :: k in out.keys <==> k in intent.keys || exists t :: t in targets && k in TargetKeys(t))
            && out.l2Cleared == intent.l2Cleared && out.r2Cleared == intent.r2Cleared
            && (forall trigger :: out.Analog(trigger) ==
                  if TriggerFull(trigger) in targets then Some(255) else intent.Analog(trigger))
  {
    if targets != [] {
      PressedPointwise(intent, targets[..|targets| - 1]);
      assert targets == targets[..|targets| - 1] + [targets[|targets| - 1]];
      FullPress(PressAll(intent, targets[..|targets| - 1]), targets[|targets| - 1]);
    }
  }

  /** A full press outbids any other contribution. */
  lemma FullPress(intent: Intent, t: Target)
    ensures forall trigger :: intent.Press(t).Analog(trigger) ==
              if t == TriggerFull(trigger) then Some(255) else intent.Analog(trigger)
  {
    forall trigger ensures intent.Press(t).Analog(trigger) ==
                             if t == TriggerFull(trigger) then Some(255) else intent.Analog(trigger)
    {
      match trigger
      case TriggerL2 =>
      case TriggerR2 =>
    }
  }

  lemma {:induction false} PushKeeps(state: GamepadState, targets: seq<Target>)
    ensures var out := PushAll(state, targets);
            out.buttons == state.buttons && out.l2Analog == state.l2Analog && out.r2Analog == state.r2Analog
  {
    if targets != [] {
      PushKeeps(state, targets[..|targets| - 1]);
    }
  }

  /** A trigger's value: 255 when a combo presses it fully, else what the fired rules and the first layer give. */
  ghost predicate TriggerShown(v: Byte, rules: seq<RemapRule>, l1: GamepadState, cs: seq<ComboState>, trigger: Trigger, analog: Byte) {
    if exists c :: c in cs && c.active && c.output == TriggerFull(trigger) then v == 255
    else IsTrigger(v, rules, l1, trigger, analog)
  }

  predicate TargetWrites(t: Target, axis: Axis) {
    t.Stick? && StickWrite(t.dir).0 == axis
  }

  /** A stick axis: an active combo's push, else a fired rule's push, else the first layer's value. */
  ghost predicate StickShown(v: Byte, rules: seq<RemapRule>, l1: GamepadState, cs: seq<ComboState>, axis: Axis) {
    || (exists c :: c in cs && c.active && TargetWrites(c.output, axis) && StickWrite(c.output.dir).1 == v)
    || ((forall c :: c in cs && c.active ==> !TargetWrites(c.output, axis))
        && ((exists r :: Fires(r, rules, l1) && Writes(r, axis) && StickWrite(r.dst.dir).1 == v)
            || (v == l1.Stick(axis) && forall r :: Fires(r, rules, l1) ==> !Writes(r, axis))))
  }

  lemma {:induction false} PushPointwise(state: GamepadState, targets: seq<Target>, axis: Axis)
    ensures var v := PushAll(state, targets).Stick(axis);
            || (exists t :: t in targets && TargetWrites(t, axis) && StickWrite(t.dir).1 == v)
            || (v == state.Stick(axis) && forall t :: t in targets ==> !TargetWrites(t, axis))
  {
    if targets != [] {
      PushPointwise(state, targets[..|targets| - 1], axis);
      assert targets == targets[..|targets| - 1] + [targets[|targets| - 1]];
    }
  }

  lemma SticksPointwise(rules: seq<RemapRule>, l1: GamepadState, cs: seq<ComboState>, axis: Axis)
    ensures StickShown(PushAll(GatherState(rules, l1, l1), Triggered(cs)).Stick(axis), rules, l1, cs, axis)
  {
    TriggeredMembers(cs);
    PushPointwise(GatherState(rules, l1, l1), Triggered(cs), axis);
    StickFromRule(rules, l1, l1, axis);
    hide GatherState, PushAll, Triggered;
  }

  /**
   * The whole output: a button is on exactly when a fired rule or an active combo targets it, a playing
   * macro step presses it, or the first layer shows it and no fired rule takes it as its source. Keys
   * come from the same three places; triggers and sticks as the predicates above say.
   */
  lemma TransformPointwise(frame: ControllerFrame, mapping: MappingConfig, r: Runtimes, now: Time, observe: bool)
    requires RuntimesOk(r, mapping)
    ensures var l1 := Filter(frame, mapping, r, now, observe).l1;
            var o := Transform(frame, mapping, r, now, observe);
            && (forall b :: o.output.state.Pressed(b) <==>
                  || TargetsButton(b, mapping.rules, l1)
                  || ComboAsks(o.runtimes.combo, b)
                  || PlaysButton(o.runtimes.macros, b)
                  || (l1.Pressed(b) && !FromSource(b, mapping.rules, l1)))
            && (forall k :: k in o.output.keyboard <==>
                  || TargetsKey(k, mapping.rules, l1)
                  || ComboAsksKey(o.runtimes.combo, k)
                  || PlaysKey(o.runtimes.macros, k))
            && TriggerShown(o.output.state.l2Analog, mapping.rules, l1, o.runtimes.combo, TriggerL2, l1.l2Analog)
            && TriggerShown(o.output.state.r2Analog, mapping.rules, l1, o.runtimes.combo, TriggerR2, l1.r2Analog)
            && (forall axis :: StickShown(o.output.state.Stick(axis), mapping.rules, l1, o.runtimes.combo, axis))
  {
    var first := Filter(frame, mapping, r, now, observe);
    var armed := MacrosArmed(r.macros, first.l1, first.combo, now, observe);
    AllArmedSafe(r.macros, first.l1, first.combo, now, observe);
    assert Transform(frame, mapping, r, now, observe)
           == Assemble(Snapshot(frame, mapping), mapping, first, armed, MacrosAt(armed, now));
    hide Filter, MacrosAt, MacrosArmed, MacroSafe, RuntimesOk, Transform, Assemble, StickShown, TriggerShown;
    AssembledDigital(Snapshot(frame, mapping), mapping, first, armed, now);
    AssembledAnalog(Snapshot(frame, mapping), mapping, first, armed, MacrosAt(armed, now));
  }

  lemma AssembledDigital(snapshot: GamepadState, mapping: MappingConfig, first: FirstStage, armed: seq<MacroState>, now: Time)
    requires forall i :: 0 <= i < |armed| ==> CycleSafe(armed[i])
    ensures var rules, l1, cs, macros := mapping.rules, first.l1, first.combo, MacrosAt(armed, now);
            var o := Assemble(snapshot, mapping, first, armed, macros);
            && o.runtimes == Runtimes(first.turbo, cs, macros)
            && (forall b :: o.output.state.Pressed(b) <==>
                  || TargetsButton(b, rules, l1) || ComboAsks(cs, b) || PlaysButton(macros, b)
                  || (l1.Pressed(b) && !FromSource(b, rules, l1)))
            && (forall k :: k in o.output.keyboard <==>
                  || TargetsKey(k, rules, l1) || ComboAsksKey(cs, k) || PlaysKey(macros, k))
  {
    var rules, l1, targets := mapping.rules, first.l1, Triggered(first.combo);
    var gathered := Gather(rules, l1, NO_INTENT);
    var pressed := PressAll(gathered, targets);
    hide Gather, GatherState, PushAll, PressAll, Triggered, Contributions, MacrosAt, CycleSafe;
    GatherPointwise(rules, l1);
    GatherStatePointwise(rules, l1, l1);
    TriggeredMembers(first.combo);
    PressedPointwise(gathered, targets);
    PushKeeps(GatherState(rules, l1, l1), targets);
    ContributionsSettled(pressed, armed, now);
    ContributionsPointwise(pressed, MacrosAt(armed, now));
  }

  lemma AssembledAnalog(snapshot: GamepadState, mapping: MappingConfig, first: FirstStage, armed: seq<MacroState>,
                        macros: seq<MacroState>)
    requires |armed| == |macros|
    ensures var rules, l1, cs := mapping.rules, first.l1, first.combo;
            var state := Assemble(snapshot, mapping, first, armed, macros).output.state;
            && TriggerShown(state.l2Analog, rules, l1, cs, TriggerL2, l1.l2Analog)
            && TriggerShown(state.r2Analog, rules, l1, cs, TriggerR2, l1.r2Analog)
            && (forall axis :: StickShown(state.Stick(axis), rules, l1, cs, axis))
  {
    var rules, l1, targets := mapping.rules, first.l1, Triggered(first.combo);
    var pressed := PressAll(Gather(rules, l1, NO_INTENT), targets);
    var pushed := PushAll(GatherState(rules, l1, l1), targets);
    var intent := Contributions(pressed, armed, macros);
    hide Gather, GatherState, PushAll, PressAll, Triggered, Contributions, StickShown, TriggerShown;
    MacrosLeaveTriggers(pressed, armed, macros);
    TriggersPointwise(rules, l1, first.combo);
    forall axis ensures StickShown(intent.ApplyTo(pushed).Stick(axis), rules, l1, first.combo, axis) {
      SticksPointwise(rules, l1, first.combo, axis);
      assert intent.ApplyTo(pushed).Stick(axis) == pushed.Stick(axis);
    }
  }

  lemma {:induction false} MacrosLeaveTriggers(intent: Intent, armed: seq<MacroState>, macros: seq<MacroState>)
    requires |armed| == |macros|
    ensures var out := Contributions(intent, armed, macros);
            out == intent.(buttons := out.buttons, keys := out.keys)
    decreases |macros|
  {
    if macros != [] {
      MacrosLeaveTriggers(intent, armed[..|macros| - 1], macros[..|macros| - 1]);
    }
  }

  lemma TriggersPointwise(rules: seq<RemapRule>, l1: GamepadState, cs: seq<ComboState>)
    ensures var pressed := PressAll(Gather(rules, l1, NO_INTENT), Triggered(cs));
            var out := pressed.ApplyTo(PushAll(GatherState(rules, l1, l1), Triggered(cs)));
            && TriggerShown(out.l2Analog, rules, l1, cs, TriggerL2, l1.l2Analog)
            && TriggerShown(out.r2Analog, rules, l1, cs, TriggerR2, l1.r2Analog)
  {
    hide Gather, GatherState, IsTrigger;
    var gathered, targets := Gather(rules, l1, NO_INTENT), Triggered(cs);
    PressedPointwise(gathered, targets);
    PushKeeps(GatherState(rules, l1, l1), targets);
    TriggeredMembers(cs);
    RemapPointwise(rules, l1, l1);
    GatherStatePointwise(rules, l1, l1);
    assert PressAll(gathered, targets).Analog(TriggerL2) == PressAll(gathered, targets).l2;
    assert PressAll(gathered, targets).Analog(TriggerR2) == PressAll(gathered, targets).r2;
  }

  /** Rules fire by the first layer's buttons alone. */
  lemma SameLayerFires(rules: seq<RemapRule>, l1: GamepadState, l1': GamepadState)
    requires l1.buttons == l1'.buttons
    ensures forall b :: TargetsButton(b, rules, l1) <==> TargetsButton(b, rules, l1')
    ensures forall b :: FromSource(b, rules, l1) <==> FromSource(b, rules, l1')
    ensures forall k :: TargetsKey(k, rules, l1) <==> TargetsKey(k, rules, l1')
  {
    forall r ensures Fires(r, rules, l1) <==> Fires(r, rules, l1') {}
  }

  /** Until the next deadline the buttons and keys shown after a source frame are those a poll would show. */
  lemma SourceStaysShown(frame: ControllerFrame, mapping: MappingConfig, r: Runtimes, now: Time, t: Time)
    requires MappingSafe(mapping) && RuntimesOk(r, mapping) && now <= t
    requires NoneDueBy(RuntimesDeadline(Transform(frame, mapping, r, now, true).runtimes), t)
    ensures var o := Transform(frame, mapping, r, now, true);
            && RuntimesOk(o.runtimes, mapping)
            && Transform(frame, mapping, o.runtimes, t, false).output.keyboard == o.output.keyboard
            && Transform(frame, mapping, o.runtimes, t, false).output.state.buttons == o.output.state.buttons
  {
    hide Transform, Filter, Matches, TurboSafe, MacroSafe, MappingSafe, TargetsButton, TargetsKey, FromSource, ComboAsks;
    hide ComboAsksKey;
    hide PlaysButton, PlaysKey, TriggerShown, StickShown, RuntimesDeadline;
    var o := Transform(frame, mapping, r, now, true);
    PollAfterSource(frame, mapping, r, now, t);
    PollSeesSameLayer(frame, mapping, r, now, t);
    var o' := Transform(frame, mapping, o.runtimes, t, false);
    TransformPointwise(frame, mapping, r, now, true);
    TransformPointwise(frame, mapping, o.runtimes, t, false);
    SameLayerFires(mapping.rules, Filter(frame, mapping, r, now, true).l1, Filter(frame, mapping, o.runtimes, t, false).l1);
    assert forall b :: o.output.state.Pressed(b) <==> o'.output.state.Pressed(b);
    forall b ensures b in o.output.state.buttons <==> b in o'.output.state.buttons {
      assert o.output.state.Pressed(b) <==> o'.output.state.Pressed(b);
    }
  }

  // ------------------------------------------------------- macro lifecycles

  /** What starts or holds a macro: its own button in the first layer, or a combo that names it. */
  predicate Triggers(m: MacroState, l1: GamepadState, cs: seq<ComboState>) {
    if m.source.Physical? then l1.Pressed(m.trigger) else exists c :: c in cs && c.active && c.output == Target.Macro(m.name)
  }

  /** How far into its steps a macro is: since the start, or within the current cycle of a hold macro. */
  function StepPosition(m: MacroState, start: Time, now: Time): nat
    requires MaxRelease(m.steps) > 0
  {
    if m.mode.Hold? then Since(now, start) / NS_PER_MS % MaxRelease(m.steps) else Since(now, start) / NS_PER_MS
  }

  /** The life of one macro across a transform. */
  ghost predicate Lives(m: MacroState, m': MacroState, triggered: bool, now: Time, observe: bool)
    requires MaxRelease(m.steps) > 0
  {
    var start := if m.active then m.stepStart else now;
    && (m'.active <==>
          if m.mode.Hold? then (if observe then triggered else m.active && (m.source.Physical? || triggered))
          else (m.active || (observe && triggered)) && Since(now, start) / NS_PER_MS < MaxRelease(m.steps))
    && |m'.steps| == |m.steps|
    && (m'.active ==>
          && m'.stepStart == start
          && forall j :: 0 <= j < |m.steps| ==>
               (m'.steps[j].pressed <==> m.steps[j].pressMs <= StepPosition(m, start, now) < m.steps[j].releaseMs))
  }

  /**
   * Every macro across every transform: a hold macro plays exactly while it is triggered and presses its
   * steps in their windows of the cycle; a single macro plays from its trigger until its last release,
   * whatever is pressed meanwhile. A timer tick starts nothing.
   */
  lemma MacroLifecycle(frame: ControllerFrame, mapping: MappingConfig, r: Runtimes, now: Time, observe: bool, i: nat)
    requires RuntimesOk(r, mapping) && i < |r.macros|
    ensures MaxRelease(r.macros[i].steps) > 0
    ensures var first, o := Filter(frame, mapping, r, now, observe), Transform(frame, mapping, r, now, observe);
            && i < |o.runtimes.macros|
            && Lives(r.macros[i], o.runtimes.macros[i], Triggers(r.macros[i], first.l1, first.combo), now, observe)
  {
    var first, m := Filter(frame, mapping, r, now, observe), r.macros[i];
    assert m.steps[0].releaseMs <= MaxRelease(m.steps);
    var armed := MacrosArmed(r.macros, first.l1, first.combo, now, observe);
    AllArmedSafe(r.macros, first.l1, first.combo, now, observe);
    assert Transform(frame, mapping, r, now, observe).runtimes.macros[i] == MacroAt(armed[i], now);
    OneLife(m, first.l1, first.combo, now, observe);
  }

  lemma OneLife(m: MacroState, l1: GamepadState, cs: seq<ComboState>, now: Time, observe: bool)
    requires MacroSafe(m) && MaxRelease(m.steps) > 0
    ensures CycleSafe(MacroArmed(m, l1, cs, now, observe))
    ensures Lives(m, MacroAt(MacroArmed(m, l1, cs, now, observe), now), Triggers(m, l1, cs), now, observe)
  {
    hide MacroAt, MacroSafe, MaxRelease;
    var armed := MacroArmed(m, l1, cs, now, observe);
    ArmedSafe(m, l1, cs, now, observe);
    SameReleases(armed.steps, m.steps);
    if armed.active {
      Playing(armed, now);
    } else {
      NotPlaying(armed, now);
    }
  }

  lemma NotPlaying(m: MacroState, now: Time)
    requires !m.active
    ensures CycleSafe(m) && MacroAt(m, now) == m
  {
  }

  /** A playing macro at `now`, by its steps' windows. */
  lemma Playing(m: MacroState, now: Time)
    requires MacroSafe(m) && m.active && MaxRelease(m.steps) > 0
    ensures CycleSafe(m)
    ensures var m' := MacroAt(m, now);
            && |m'.steps| == |m.steps|
            && (m'.active <==> m.mode.Hold? || Since(now, m.stepStart) / NS_PER_MS < MaxRelease(m.steps))
            && (m'.active ==>
                  && m'.stepStart == m.stepStart
                  && forall j :: 0 <= j < |m.steps| ==>
                       (m'.steps[j].pressed <==> m.steps[j].pressMs <= StepPosition(m, m.stepStart, now) < m.steps[j].releaseMs))
  {
    var steps := SettleSteps(m.steps, m.mode, StepPosition(m, m.stepStart, now));
    if m.mode.Single? {
      var last :| 0 <= last < |m.steps| && m.steps[last].releaseMs == MaxRelease(m.steps);
      assert steps[last] == SettleStep(m.steps[last], Single, ElapsedMs(m, now));
      assert AllDone(steps) <==> MaxRelease(m.steps) <= ElapsedMs(m, now);
    }
  }
}

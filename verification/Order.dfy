/** When the order in which a configuration's sections were visited can show (src/config/compile.rs, src/proxy/pipeline.rs). */
module Order {
  import opened Model
  import opened Mapping
  import opened Runtime
  import opened Pipeline
  import opened PipelineRuns
  import opened Layers

  /** The same members, in any order and however often. */
  ghost predicate Same<T(!new)>(s: seq<T>, t: seq<T>) {
    forall x :: x in s <==> x in t
  }

  ghost predicate AlikeMappings(m: MappingConfig, m': MappingConfig) {
    && m.splitTouchpad == m'.splitTouchpad
    && Same(m.rules, m'.rules) && Same(m.blockedButtons, m'.blockedButtons)
    && Same(m.turboConfigs, m'.turboConfigs) && Same(m.comboConfigs, m'.comboConfigs)
    && Same(m.macroConfigs, m'.macroConfigs)
  }

  ghost predicate AlikeRuntimes(r: Runtimes, r': Runtimes) {
    Same(r.turbo, r'.turbo) && Same(r.combo, r'.combo) && Same(r.macros, r'.macros)
  }

  /** No button has two different turbos. */
  predicate OneTurboEach(ts: seq<Turbo>) {
    forall t, u :: t in ts && u in ts && t.src == u.src ==> t == u
  }

  // ------------------------------------------------------- the first layer

  lemma TurboKeepsSource(t: Turbo, snapshot: GamepadState, now: Time, observe: bool)
    requires TurboSafe(t)
    ensures TurboNext(t, snapshot, now, observe).src == t.src
  {
  }

  /** Every advanced turbo comes from one before. */
  lemma TurboImage(ts: seq<Turbo>, snapshot: GamepadState, now: Time, observe: bool)
    requires forall t :: t in ts ==> TurboSafe(t)
    ensures forall i :: 0 <= i < |ts| ==> TurboSafe(ts[i])
    ensures forall u :: u in TurbosNext(ts, snapshot, now, observe) <==>
              exists t :: t in ts && TurboNext(t, snapshot, now, observe) == u
  {
    var next := TurbosNext(ts, snapshot, now, observe);
    hide TurboNext;
    forall t | t in ts ensures TurboNext(t, snapshot, now, observe) in next {
      var i :| 0 <= i < |ts| && ts[i] == t;
      assert next[i] == TurboNext(t, snapshot, now, observe);
    }
  }

  lemma TurbosAlike(ts: seq<Turbo>, ts': seq<Turbo>, snapshot: GamepadState, now: Time, observe: bool)
    requires Same(ts, ts') && OneTurboEach(ts) && forall t :: t in ts ==> TurboSafe(t)
    ensures forall i :: 0 <= i < |ts| ==> TurboSafe(ts[i])
    ensures forall i :: 0 <= i < |ts'| ==> TurboSafe(ts'[i])
    ensures Same(TurbosNext(ts, snapshot, now, observe), TurbosNext(ts', snapshot, now, observe))
    ensures OneTurboEach(TurbosNext(ts, snapshot, now, observe))
  {
    TurboImage(ts, snapshot, now, observe);
    TurboImage(ts', snapshot, now, observe);
    var next := TurbosNext(ts, snapshot, now, observe);
    hide TurboNext, TurbosNext;
    forall u, v | u in next && v in next && u.src == v.src ensures u == v {
      var t :| t in ts && TurboNext(t, snapshot, now, observe) == u;
      var s :| s in ts && TurboNext(s, snapshot, now, observe) == v;
      TurboKeepsSource(t, snapshot, now, observe);
      TurboKeepsSource(s, snapshot, now, observe);
    }
  }

  /** The turbo that decides a touched button, found from its last touch. */
  lemma {:induction false} LastTouchExists(before: seq<Turbo>, after: seq<Turbo>, b: Button) returns (i: nat)
    requires |before| == |after| && Touched(before, after, b)
    ensures i < |after| && LastTouch(before, after, i, b)
    decreases |after|
  {
    var n := |after| - 1;
    TouchesInit(before, after, b);
    LastTouchInit(before, after, b);
    if Touches(before, after, n, b) {
      i := n;
    } else {
      i := LastTouchExists(before[..n], after[..n], b);
    }
  }

  /** A turbo touches its button in one order exactly when it does in the other. */
  lemma TouchedAlike(ts: seq<Turbo>, ts': seq<Turbo>, snapshot: GamepadState, now: Time, observe: bool, b: Button)
    requires Same(ts, ts') && forall t :: t in ts ==> TurboSafe(t)
    requires forall i :: 0 <= i < |ts| ==> TurboSafe(ts[i])
    requires forall i :: 0 <= i < |ts'| ==> TurboSafe(ts'[i])
    ensures Touched(ts, TurbosNext(ts, snapshot, now, observe), b) ==> Touched(ts', TurbosNext(ts', snapshot, now, observe), b)
  {
    hide TurboNext;
    var next, next' := TurbosNext(ts, snapshot, now, observe), TurbosNext(ts', snapshot, now, observe);
    if i :| 0 <= i < |next| && Touches(ts, next, i, b) {
      assert ts[i] in ts';
      var j :| 0 <= j < |ts'| && ts'[j] == ts[i];
      assert next'[j] == next[i];
      assert Touches(ts', next', j, b);
    }
  }

  lemma ShownAlike(ts: seq<Turbo>, ts': seq<Turbo>, snapshot: GamepadState, now: Time, observe: bool)
    requires Same(ts, ts') && OneTurboEach(ts) && forall t :: t in ts ==> TurboSafe(t)
    requires forall i :: 0 <= i < |ts| ==> TurboSafe(ts[i])
    requires forall i :: 0 <= i < |ts'| ==> TurboSafe(ts'[i])
    ensures TurboEffects(snapshot, ts, TurbosNext(ts, snapshot, now, observe))
            == TurboEffects(snapshot, ts', TurbosNext(ts', snapshot, now, observe))
  {
    var next, next' := TurbosNext(ts, snapshot, now, observe), TurbosNext(ts', snapshot, now, observe);
    var shown, shown' := TurboEffects(snapshot, ts, next), TurboEffects(snapshot, ts', next');
    forall b: Button
      ensures Touched(ts, next, b) <==> Touched(ts', next', b)
      ensures b in shown.buttons <==> b in shown'.buttons
    {
      ButtonAlike(ts, ts', snapshot, now, observe, b);
      assert shown.Pressed(b) <==> shown'.Pressed(b);
    }
    assert shown.buttons == shown'.buttons;
    TurboAnalogs(snapshot, ts, next);
    TurboAnalogs(snapshot, ts', next');
  }

  lemma ButtonAlike(ts: seq<Turbo>, ts': seq<Turbo>, snapshot: GamepadState, now: Time, observe: bool, b: Button)
    requires Same(ts, ts') && OneTurboEach(ts) && forall t :: t in ts ==> TurboSafe(t)
    requires forall i :: 0 <= i < |ts| ==> TurboSafe(ts[i])
    requires forall i :: 0 <= i < |ts'| ==> TurboSafe(ts'[i])
    ensures var next, next' := TurbosNext(ts, snapshot, now, observe), TurbosNext(ts', snapshot, now, observe);
            && (Touched(ts, next, b) <==> Touched(ts', next', b))
            && (TurboEffects(snapshot, ts, next).Pressed(b) <==> TurboEffects(snapshot, ts', next').Pressed(b))
  {
    var next, next' := TurbosNext(ts, snapshot, now, observe), TurbosNext(ts', snapshot, now, observe);
    TouchedAlike(ts, ts', snapshot, now, observe, b);
    TouchedAlike(ts', ts, snapshot, now, observe, b);
    TurboStage(snapshot, ts, next, b);
    TurboStage(snapshot, ts', next', b);
    if Touched(ts, next, b) {
      var i := LastTouchExists(ts, next, b);
      var j := LastTouchExists(ts', next', b);
      TurboKeepsSource(ts[i], snapshot, now, observe);
      TurboKeepsSource(ts'[j], snapshot, now, observe);
      assert ts'[j] in ts && ts[i] in ts;
      assert ts[i] == ts'[j] && next[i] == next'[j];
    }
    hide TurboEffects, TurboNext, Touched, LastTouch;
  }

  lemma CombosAlike(cs: seq<ComboState>, cs': seq<ComboState>, pre: GamepadState)
    requires Same(cs, cs')
    ensures Same(CombosNext(cs, pre), CombosNext(cs', pre)) && ComboHeld(cs, pre) == ComboHeld(cs', pre)
  {
    ComboImage(cs, pre);
    ComboImage(cs', pre);
  }

  function ComboNext(c: ComboState, pre: GamepadState): ComboState {
    c.(active := pre.Pressed(c.modifier) && pre.Pressed(c.key))
  }

  lemma ComboImage(cs: seq<ComboState>, pre: GamepadState)
    ensures forall d :: d in CombosNext(cs, pre) <==> exists c :: c in cs && ComboNext(c, pre) == d
  {
    var next := CombosNext(cs, pre);
    forall c | c in cs ensures ComboNext(c, pre) in next {
      var i :| 0 <= i < |cs| && cs[i] == c;
      assert next[i] == ComboNext(c, pre);
    }
    forall d | d in next ensures exists c :: c in cs && ComboNext(c, pre) == d {
      var i :| 0 <= i < |next| && next[i] == d;
      assert cs[i] in cs && ComboNext(cs[i], pre) == d;
    }
  }

  /** The first layer does not depend on any order. */
  lemma FirstLayerAlike(frame: ControllerFrame, m: MappingConfig, m': MappingConfig, r: Runtimes, r': Runtimes,
                        now: Time, observe: bool)
    requires RuntimesOk(r, m) && RuntimesOk(r', m') && AlikeRuntimes(r, r') && OneTurboEach(r.turbo)
    requires m.splitTouchpad == m'.splitTouchpad && Same(m.blockedButtons, m'.blockedButtons)
    ensures var first, first' := Filter(frame, m, r, now, observe), Filter(frame, m', r', now, observe);
            && first.l1 == first'.l1
            && Same(first.turbo, first'.turbo) && OneTurboEach(first.turbo)
            && Same(first.combo, first'.combo)
  {
    hide TurboNext, TurboEffects, CombosNext, ComboHeld, MacroSafe, Matches;
    var snapshot := Snapshot(frame, m);
    assert forall t :: t in r.turbo ==> TurboSafe(t);
    TurbosAlike(r.turbo, r'.turbo, snapshot, now, observe);
    ShownAlike(r.turbo, r'.turbo, snapshot, now, observe);
    var pre := TurboEffects(snapshot, r.turbo, TurbosNext(r.turbo, snapshot, now, observe));
    CombosAlike(r.combo, r'.combo, pre);
    assert (set b | b in m.blockedButtons) == (set b | b in m'.blockedButtons);
  }

  // ------------------------------------------------------- the macro stage

  lemma FiresAlike(cs: seq<ComboState>, cs': seq<ComboState>, name: string)
    requires Same(cs, cs')
    ensures ComboFires(name, cs) <==> ComboFires(name, cs')
  {
  }

  lemma ArmedAlike(m: MacroState, l1: GamepadState, cs: seq<ComboState>, cs': seq<ComboState>, now: Time, observe: bool)
    requires Same(cs, cs')
    ensures MacroArmed(m, l1, cs, now, observe) == MacroArmed(m, l1, cs', now, observe)
  {
    FiresAlike(cs, cs', m.name);
  }

  lemma MacroImage(ms: seq<MacroState>, l1: GamepadState, cs: seq<ComboState>, now: Time, observe: bool)
    requires forall m :: m in ms ==> MacroSafe(m)
    ensures forall i :: 0 <= i < |ms| ==> CycleSafe(MacrosArmed(ms, l1, cs, now, observe)[i])
    ensures forall m :: m in ms ==> CycleSafe(MacroArmed(m, l1, cs, now, observe))
    ensures forall u :: u in MacrosAt(MacrosArmed(ms, l1, cs, now, observe), now) <==>
              exists m :: m in ms && MacroAt(MacroArmed(m, l1, cs, now, observe), now) == u
  {
    AllArmedSafe(ms, l1, cs, now, observe);
    hide MacroAt, MacroArmed, CycleSafe, MacroSafe;
    var armed := MacrosArmed(ms, l1, cs, now, observe);
    forall m | m in ms ensures CycleSafe(MacroArmed(m, l1, cs, now, observe)) {
      var i :| 0 <= i < |ms| && ms[i] == m;
      assert armed[i] == MacroArmed(m, l1, cs, now, observe);
    }
    var next := MacrosAt(armed, now);
    forall m | m in ms ensures MacroAt(MacroArmed(m, l1, cs, now, observe), now) in next {
      var i :| 0 <= i < |ms| && ms[i] == m;
      assert next[i] == MacroAt(armed[i], now);
    }
    forall u | u in next ensures exists m :: m in ms && MacroAt(MacroArmed(m, l1, cs, now, observe), now) == u {
      var i :| 0 <= i < |next| && next[i] == u;
      assert ms[i] in ms && armed[i] == MacroArmed(ms[i], l1, cs, now, observe);
    }
  }

  lemma MacrosAlike(ms: seq<MacroState>, ms': seq<MacroState>, l1: GamepadState, cs: seq<ComboState>, cs': seq<ComboState>,
                    now: Time, observe: bool)
    requires Same(ms, ms') && Same(cs, cs') && forall m :: m in ms ==> MacroSafe(m)
    ensures forall i :: 0 <= i < |ms| ==> CycleSafe(MacrosArmed(ms, l1, cs, now, observe)[i])
    ensures forall i :: 0 <= i < |ms'| ==> CycleSafe(MacrosArmed(ms', l1, cs', now, observe)[i])
    ensures Same(MacrosAt(MacrosArmed(ms, l1, cs, now, observe), now), MacrosAt(MacrosArmed(ms', l1, cs', now, observe), now))
  {
    MacroImage(ms, l1, cs, now, observe);
    MacroImage(ms', l1, cs', now, observe);
    hide MacroAt, MacroArmed, CycleSafe, MacroSafe, MacrosAt, MacrosArmed;
    forall m | m in ms ensures MacroArmed(m, l1, cs, now, observe) == MacroArmed(m, l1, cs', now, observe) {
      ArmedAlike(m, l1, cs, cs', now, observe);
    }
  }

  // ------------------------------------------------------- the whole output

  /** Active combos push this stick axis to different ends. */
  ghost predicate CombosClash(cs: seq<ComboState>, axis: Axis) {
    exists c, d :: c in cs && d in cs && c.active && d.active
      && TargetWrites(c.output, axis) && TargetWrites(d.output, axis)
      && StickWrite(c.output.dir) != StickWrite(d.output.dir)
  }

  ghost predicate ComboWrites(cs: seq<ComboState>, axis: Axis) {
    exists c :: c in cs && c.active && TargetWrites(c.output, axis)
  }

  /** Fired rules push this stick axis to different ends. */
  ghost predicate RulesClash(rules: seq<RemapRule>, l1: GamepadState, axis: Axis) {
    exists r, s :: ClashOn(r, s, axis, rules, l1)
  }

  /** Exactly when order can show on an axis: combos disagree on it, or none writes it and rules disagree. */
  ghost predicate Clash(rules: seq<RemapRule>, l1: GamepadState, cs: seq<ComboState>, axis: Axis) {
    if ComboWrites(cs, axis) then CombosClash(cs, axis) else RulesClash(rules, l1, axis)
  }

  lemma StickAlike(rules: seq<RemapRule>, rules': seq<RemapRule>, l1: GamepadState, cs: seq<ComboState>, cs': seq<ComboState>,
                   axis: Axis, v: Byte, v': Byte)
    requires Same(rules, rules') && Same(cs, cs') && !Clash(rules, l1, cs, axis)
    requires StickShown(v, rules, l1, cs, axis) && StickShown(v', rules', l1, cs', axis)
    ensures v == v'
  {
    forall r ensures Fires(r, rules, l1) <==> Fires(r, rules', l1) {}
    if !ComboWrites(cs, axis) {
      if r, s :| Fires(r, rules, l1) && Writes(r, axis) && Fires(s, rules, l1) && Writes(s, axis)
                 && StickWrite(r.dst.dir) != StickWrite(s.dst.dir) {
        assert ClashOn(r, s, axis, rules, l1);
      }
    }
  }

  lemma TriggerAlike(rules: seq<RemapRule>, rules': seq<RemapRule>, l1: GamepadState, cs: seq<ComboState>, cs': seq<ComboState>,
                     trigger: Trigger, analog: Byte, v: Byte, v': Byte)
    requires Same(rules, rules') && Same(cs, cs')
    requires TriggerShown(v, rules, l1, cs, trigger, analog) && TriggerShown(v', rules', l1, cs', trigger, analog)
    ensures v == v'
  {
    forall r ensures Fires(r, rules, l1) <==> Fires(r, rules', l1) {}
    assert FromSource(TriggerButton(trigger), rules, l1) <==> FromSource(TriggerButton(trigger), rules', l1);
  }

  lemma DigitalAlike(rules: seq<RemapRule>, rules': seq<RemapRule>, l1: GamepadState, cs: seq<ComboState>, cs': seq<ComboState>,
                     ms: seq<MacroState>, ms': seq<MacroState>)
    requires Same(rules, rules') && Same(cs, cs') && Same(ms, ms')
    ensures forall b :: TargetsButton(b, rules, l1) <==> TargetsButton(b, rules', l1)
    ensures forall b :: FromSource(b, rules, l1) <==> FromSource(b, rules', l1)
    ensures forall k :: TargetsKey(k, rules, l1) <==> TargetsKey(k, rules', l1)
    ensures forall b :: ComboAsks(cs, b) <==> ComboAsks(cs', b)
    ensures forall k :: ComboAsksKey(cs, k) <==> ComboAsksKey(cs', k)
    ensures forall b :: PlaysButton(ms, b) <==> PlaysButton(ms', b)
    ensures forall k :: PlaysKey(ms, k) <==> PlaysKey(ms', k)
  {
    forall r ensures Fires(r, rules, l1) <==> Fires(r, rules', l1) {}
    PlaysOneWay(ms, ms');
    PlaysOneWay(ms', ms);
  }

  lemma PlaysOneWay(ms: seq<MacroState>, ms': seq<MacroState>)
    requires Same(ms, ms')
    ensures forall b :: PlaysButton(ms, b) ==> PlaysButton(ms', b)
    ensures forall k :: PlaysKey(ms, k) ==> PlaysKey(ms', k)
  {
    hide StepButtons, StepKeys;
    forall b | PlaysButton(ms, b) ensures PlaysButton(ms', b) {
      var i :| 0 <= i < |ms| && ms[i].active && b in StepButtons(ms[i].steps);
      assert ms[i] in ms';
      var j :| 0 <= j < |ms'| && ms'[j] == ms[i];
    }
    forall k | PlaysKey(ms, k) ensures PlaysKey(ms', k) {
      var i :| 0 <= i < |ms| && ms[i].active && k in StepKeys(ms[i].steps);
      assert ms[i] in ms';
      var j :| 0 <= j < |ms'| && ms'[j] == ms[i];
    }
  }

  /** What a transform does not compute, it passes on from the first layer. */
  predicate Rest(s: GamepadState, l1: GamepadState) {
    s == l1.(buttons := s.buttons, leftX := s.leftX, leftY := s.leftY, rightX := s.rightX, rightY := s.rightY,
             l2Analog := s.l2Analog, r2Analog := s.r2Analog)
  }

  lemma {:induction false} PushRest(state: GamepadState, targets: seq<Target>, l1: GamepadState)
    requires Rest(state, l1)
    ensures Rest(PushAll(state, targets), l1)
  {
    if targets != [] {
      PushRest(state, targets[..|targets| - 1], l1);
    }
  }

  lemma TransformRest(frame: ControllerFrame, mapping: MappingConfig, r: Runtimes, now: Time, observe: bool)
    requires RuntimesOk(r, mapping)
    ensures Rest(Transform(frame, mapping, r, now, observe).output.state, Filter(frame, mapping, r, now, observe).l1)
  {
    hide Filter, MacrosAt, MacrosArmed, Gather, PressAll, Contributions, GatherState, PushAll, MacroSafe;
    var first := Filter(frame, mapping, r, now, observe);
    GatherStateKeeps(mapping.rules, first.l1, first.l1);
    PushRest(GatherState(mapping.rules, first.l1, first.l1), Triggered(first.combo), first.l1);
    AllArmedSafe(r.macros, first.l1, first.combo, now, observe);
  }

  /** The runtimes after a transform hold the same members, whatever the order before. */
  lemma RuntimesStayAlike(frame: ControllerFrame, m: MappingConfig, m': MappingConfig, r: Runtimes, r': Runtimes,
                          now: Time, observe: bool)
    requires RuntimesOk(r, m) && RuntimesOk(r', m') && AlikeRuntimes(r, r') && OneTurboEach(r.turbo)
    requires m.splitTouchpad == m'.splitTouchpad && Same(m.blockedButtons, m'.blockedButtons)
    ensures var o, o' := Transform(frame, m, r, now, observe), Transform(frame, m', r', now, observe);
            AlikeRuntimes(o.runtimes, o'.runtimes) && OneTurboEach(o.runtimes.turbo)
  {
    hide Same, OneTurboEach, Matches, TurboSafe, Filter, MacrosArmed, MacrosAt;
    FirstLayerAlike(frame, m, m', r, r', now, observe);
    var first, first' := Filter(frame, m, r, now, observe), Filter(frame, m', r', now, observe);
    assert forall x :: x in r.macros ==> MacroSafe(x);
    hide MacroSafe;
    MacrosAlike(r.macros, r'.macros, first.l1, first.combo, first'.combo, now, observe);
  }

  /**
   * Order of the compiled lists does not show: the outputs of two orderings agree in everything but the
   * stick axes that clash, and the runtimes they leave are again the same but for their order.
   */
  lemma OrderHidden(frame: ControllerFrame, m: MappingConfig, m': MappingConfig, r: Runtimes, r': Runtimes,
                    now: Time, observe: bool)
    requires RuntimesOk(r, m) && RuntimesOk(r', m') && AlikeMappings(m, m') && AlikeRuntimes(r, r') && OneTurboEach(r.turbo)
    ensures var o, o' := Transform(frame, m, r, now, observe), Transform(frame, m', r', now, observe);
            var l1 := Filter(frame, m, r, now, observe).l1;
            && AlikeRuntimes(o.runtimes, o'.runtimes) && OneTurboEach(o.runtimes.turbo)
            && AgreeBut(o.output, o'.output, m.rules, l1, o.runtimes.combo)
  {
    hide Transform, Filter, Matches, TurboSafe, MacroSafe, Same, OneTurboEach, TargetsButton, FromSource, TargetsKey;
    hide PlaysButton, PlaysKey, TriggerShown, StickShown, Clash, ComboAsks, ComboAsksKey;
    var o, o' := Transform(frame, m, r, now, observe), Transform(frame, m', r', now, observe);
    RuntimesStayAlike(frame, m, m', r, r', now, observe);
    FirstLayerAlike(frame, m, m', r, r', now, observe);
    TransformPointwise(frame, m, r, now, observe);
    TransformPointwise(frame, m', r', now, observe);
    TransformRest(frame, m, r, now, observe);
    TransformRest(frame, m', r', now, observe);
    var l1 := Filter(frame, m, r, now, observe).l1;
    var s, s' := o.output.state, o'.output.state;
    DigitalAlike(m.rules, m'.rules, l1, o.runtimes.combo, o'.runtimes.combo, o.runtimes.macros, o'.runtimes.macros);
    TriggerAlike(m.rules, m'.rules, l1, o.runtimes.combo, o'.runtimes.combo, TriggerL2, l1.l2Analog, s.l2Analog, s'.l2Analog);
    TriggerAlike(m.rules, m'.rules, l1, o.runtimes.combo, o'.runtimes.combo, TriggerR2, l1.r2Analog, s.r2Analog, s'.r2Analog);
    forall axis: Axis | !Clash(m.rules, l1, o.runtimes.combo, axis) ensures s.Stick(axis) == s'.Stick(axis) {
      StickAlike(m.rules, m'.rules, l1, o.runtimes.combo, o'.runtimes.combo, axis, s.Stick(axis), s'.Stick(axis));
    }
    forall b: Button ensures b in s.buttons <==> b in s'.buttons {
      assert s.Pressed(b) <==> s'.Pressed(b);
    }
    assert s.buttons == s'.buttons && o.output.keyboard == o'.output.keyboard;
  }

  /** Two outputs that agree in everything but the axes on which order can show. */
  ghost predicate AgreeBut(o: PipelineOutput, o': PipelineOutput, rules: seq<RemapRule>, l1: GamepadState, cs: seq<ComboState>) {
    && o.keyboard == o'.keyboard
    && o.state == o'.state.(leftX := o.state.leftX, leftY := o.state.leftY, rightX := o.state.rightX, rightY := o.state.rightY)
    && forall axis :: !Clash(rules, l1, cs, axis) ==> o.state.Stick(axis) == o'.state.Stick(axis)
  }

  /** Without a clash on any axis the outputs are the same. */
  lemma NoClashSameState(o: PipelineOutput, o': PipelineOutput, rules: seq<RemapRule>, l1: GamepadState, cs: seq<ComboState>)
    requires AgreeBut(o, o', rules, l1, cs) && forall axis :: !Clash(rules, l1, cs, axis)
    ensures o.state == o'.state && o.keyboard == o'.keyboard
  {
    hide Clash;
    assert o.state.Stick(LeftX) == o'.state.Stick(LeftX) && o.state.Stick(LeftY) == o'.state.Stick(LeftY);
    assert o.state.Stick(RightX) == o'.state.Stick(RightX) && o.state.Stick(RightY) == o'.state.Stick(RightY);
  }

  // ------------------------------------------------------- where order shows

  /** The same lists in another order, combo runtimes along with their rules. */
  ghost predicate Reordered(m: MappingConfig, r: Runtimes, m': MappingConfig, r': Runtimes) {
    && multiset(m'.rules) == multiset(m.rules) && multiset(m'.comboConfigs) == multiset(m.comboConfigs)
    && m' == m.(rules := m'.rules, comboConfigs := m'.comboConfigs)
    && multiset(r'.combo) == multiset(r.combo)
    && r' == r.(combo := r'.combo)
    && RuntimesOk(r', m')
  }

  function LastIs<T>(s: seq<T>, i: nat): (t: seq<T>)
    requires i < |s|
    ensures |t| == |s| && t[|t| - 1] == s[i]
    ensures forall k :: 0 <= k < |s| - 1 ==> t[k] == if k < i then s[k] else s[k + 1]
  {
    s[..i] + s[i + 1..] + [s[i]]
  }

  lemma LastIsPermutes<T>(s: seq<T>, i: nat)
    requires i < |s|
    ensures multiset(LastIs(s, i)) == multiset(s)
  {
    assert s == s[..i] + [s[i]] + s[i + 1..];
  }

  /** The last rule wins an axis that no combo writes. */
  lemma LastRuleWins(frame: ControllerFrame, m: MappingConfig, r: Runtimes, now: Time, observe: bool, axis: Axis)
    requires RuntimesOk(r, m) && m.rules != []
    requires var first, rule := Filter(frame, m, r, now, observe), m.rules[|m.rules| - 1];
             !ComboWrites(first.combo, axis) && first.l1.Pressed(rule.src) && Writes(rule, axis)
    ensures Transform(frame, m, r, now, observe).output.state.Stick(axis)
            == StickWrite(m.rules[|m.rules| - 1].dst.dir).1
  {
    var first, rule := Filter(frame, m, r, now, observe), m.rules[|m.rules| - 1];
    hide Filter, MacrosAt, MacrosArmed, Gather, PressAll, Contributions, MacroSafe;
    AllArmedSafe(r.macros, first.l1, first.combo, now, observe);
    var gathered := GatherState(m.rules, first.l1, first.l1);
    TriggeredMembers(first.combo);
    PushPointwise(gathered, Triggered(first.combo), axis);
    hide PushAll, Triggered;
    var before := GatherState(m.rules[..|m.rules| - 1], first.l1, first.l1);
    assert gathered == PushStick(before.Set(rule.src, false), rule.dst);
  }

  /** The last active combo wins an axis it writes. */
  lemma LastComboWins(frame: ControllerFrame, m: MappingConfig, r: Runtimes, now: Time, observe: bool, axis: Axis)
    requires RuntimesOk(r, m)
    requires var cs := Filter(frame, m, r, now, observe).combo;
             cs != [] && cs[|cs| - 1].active && TargetWrites(cs[|cs| - 1].output, axis)
    ensures var cs := Filter(frame, m, r, now, observe).combo;
            Transform(frame, m, r, now, observe).output.state.Stick(axis) == StickWrite(cs[|cs| - 1].output.dir).1
  {
    var first := Filter(frame, m, r, now, observe);
    hide Filter, MacrosAt, MacrosArmed, Gather, GatherState, PressAll, Contributions, MacroSafe;
    AllArmedSafe(r.macros, first.l1, first.combo, now, observe);
    var targets := Triggered(first.combo);
    assert targets == Triggered(first.combo[..|first.combo| - 1]) + [first.combo[|first.combo| - 1].output];
    var gathered := GatherState(m.rules, first.l1, first.l1);
    assert PushAll(gathered, targets)
           == PushStick(PushAll(gathered, targets[..|targets| - 1]), targets[|targets| - 1]);
    hide PushAll, Triggered;
  }

  /** A mapping reordered so that this rule comes last. */
  lemma RuleLast(frame: ControllerFrame, m: MappingConfig, r: Runtimes, now: Time, observe: bool, axis: Axis, rule: RemapRule)
    returns (m': MappingConfig)
    requires RuntimesOk(r, m)
    requires !ComboWrites(Filter(frame, m, r, now, observe).combo, axis)
    requires Fires(rule, m.rules, Filter(frame, m, r, now, observe).l1) && Writes(rule, axis)
    ensures Reordered(m, r, m', r)
    ensures Transform(frame, m', r, now, observe).output.state.Stick(axis) == StickWrite(rule.dst.dir).1
  {
    hide Filter, ComboWrites, MacroSafe, TurboSafe, Transform;
    m' := m.(rules := MoveLast(m.rules, rule));
    SameFilter(frame, m, m', r, now, observe);
    LastRuleWins(frame, m', r, now, observe, axis);
  }

  lemma SameFilter(frame: ControllerFrame, m: MappingConfig, m': MappingConfig, r: Runtimes, now: Time, observe: bool)
    requires forall i :: 0 <= i < |r.turbo| ==> TurboSafe(r.turbo[i])
    requires m' == m.(rules := m'.rules)
    ensures Filter(frame, m', r, now, observe) == Filter(frame, m, r, now, observe)
  {
    hide TurboSafe;
  }

  /** A mapping and runtimes reordered so that the ith combo comes last. */
  lemma ComboLast(frame: ControllerFrame, m: MappingConfig, r: Runtimes, now: Time, observe: bool, axis: Axis, i: nat)
    returns (m': MappingConfig, r': Runtimes)
    requires RuntimesOk(r, m)
    requires var cs := Filter(frame, m, r, now, observe).combo;
             i < |cs| && cs[i].active && TargetWrites(cs[i].output, axis)
    ensures Reordered(m, r, m', r')
    ensures Transform(frame, m', r', now, observe).output.state.Stick(axis)
            == StickWrite(Filter(frame, m, r, now, observe).combo[i].output.dir).1
  {
    hide Filter, Transform, MacroSafe, TurboSafe, LastIs;
    CombosCounted(frame, m, r, now, observe);
    m' := m.(comboConfigs := LastIs(m.comboConfigs, i));
    r' := r.(combo := LastIs(r.combo, i));
    LastIsPermutes(m.comboConfigs, i);
    LastIsPermutes(r.combo, i);
    ReorderOk(m, r, i);
    hide RuntimesOk;
    ShownByCombos(frame, m, m', r, r', now, observe, i);
    LastComboWins(frame, m', r', now, observe, axis);
  }

  lemma CombosCounted(frame: ControllerFrame, m: MappingConfig, r: Runtimes, now: Time, observe: bool)
    requires RuntimesOk(r, m)
    ensures |Filter(frame, m, r, now, observe).combo| == |r.combo| == |m.comboConfigs|
  {
    hide TurbosNext, TurboEffects, MacroSafe, ComboHeld, Suppress;
  }

  /** Combo runtimes that move along with their rules still match them. */
  lemma ReorderOk(m: MappingConfig, r: Runtimes, i: nat)
    requires RuntimesOk(r, m) && i < |r.combo|
    ensures RuntimesOk(r.(combo := LastIs(r.combo, i)), m.(comboConfigs := LastIs(m.comboConfigs, i)))
  {
    hide MacroSafe, TurboSafe, MacroMatches, FreshCombo;
    var r' := r.(combo := LastIs(r.combo, i));
    var m' := m.(comboConfigs := LastIs(m.comboConfigs, i));
    forall k | 0 <= k < |r'.combo| ensures r'.combo[k].(active := false) == FreshCombo(m'.comboConfigs[k]) {
      var j := if k == |r.combo| - 1 then i else if k < i then k else k + 1;
      assert r'.combo[k] == r.combo[j] && m'.comboConfigs[k] == m.comboConfigs[j];
    }
    hide LastIs;
  }

  lemma ShownByCombos(frame: ControllerFrame, m: MappingConfig, m': MappingConfig, r: Runtimes, r': Runtimes,
                      now: Time, observe: bool, i: nat)
    requires RuntimesOk(r, m) && RuntimesOk(r', m') && m' == m.(comboConfigs := m'.comboConfigs)
    requires i < |r.combo| && r' == r.(combo := LastIs(r.combo, i))
    ensures var cs, cs' := Filter(frame, m, r, now, observe).combo, Filter(frame, m', r', now, observe).combo;
            |cs'| == |cs| == |r.combo| && cs'[|cs'| - 1] == cs[i]
  {
    hide TurbosNext, TurboEffects, MacroSafe, Matches, ComboHeld, Suppress;
  }

  /** Where the axis clashes some reordering shows: the condition of `OrderHidden` is exact. */
  lemma ClashShows(frame: ControllerFrame, m: MappingConfig, r: Runtimes, now: Time, observe: bool, axis: Axis)
    returns (m1: MappingConfig, r1: Runtimes, m2: MappingConfig, r2: Runtimes)
    requires RuntimesOk(r, m)
    requires Clash(m.rules, Filter(frame, m, r, now, observe).l1, Filter(frame, m, r, now, observe).combo, axis)
    ensures Reordered(m, r, m1, r1) && Reordered(m, r, m2, r2)
    ensures Transform(frame, m1, r1, now, observe).output.state.Stick(axis)
            != Transform(frame, m2, r2, now, observe).output.state.Stick(axis)
  {
    hide Filter, Transform, MacroSafe, TurboSafe, Matches;
    var first := Filter(frame, m, r, now, observe);
    if ComboWrites(first.combo, axis) {
      var c, d :| c in first.combo && d in first.combo && c.active && d.active
                  && TargetWrites(c.output, axis) && TargetWrites(d.output, axis)
                  && StickWrite(c.output.dir) != StickWrite(d.output.dir);
      var i :| 0 <= i < |first.combo| && first.combo[i] == c;
      var j :| 0 <= j < |first.combo| && first.combo[j] == d;
      m1, r1 := ComboLast(frame, m, r, now, observe, axis, i);
      m2, r2 := ComboLast(frame, m, r, now, observe, axis, j);
    } else {
      var a, b :| ClashOn(a, b, axis, m.rules, first.l1);
      m1 := RuleLast(frame, m, r, now, observe, axis, a);
      m2 := RuleLast(frame, m, r, now, observe, axis, b);
      r1, r2 := r, r;
    }
  }

  // --------------------------------------------------------------- whole runs

  /** No button has two different turbo configurations. */
  predicate OneTurboConfigEach(configs: seq<TurboConfig>) {
    forall c, d :: c in configs && d in configs && c.src == d.src ==> c == d
  }

  lemma FreshTurbosAlike(m: MappingConfig, m': MappingConfig, now: Time)
    requires Same(m.turboConfigs, m'.turboConfigs)
    ensures forall t :: t in FreshRuntimes(m, now).turbo ==> t in FreshRuntimes(m', now).turbo
  {
    var ts, ts' := FreshRuntimes(m, now).turbo, FreshRuntimes(m', now).turbo;
    forall t | t in ts ensures t in ts' {
      var i :| 0 <= i < |ts| && ts[i] == t;
      assert m.turboConfigs[i] in m'.turboConfigs;
      var j :| 0 <= j < |m'.turboConfigs| && m'.turboConfigs[j] == m.turboConfigs[i];
      assert ts'[j] == t;
    }
  }

  lemma FreshCombosAlike(m: MappingConfig, m': MappingConfig, now: Time)
    requires Same(m.comboConfigs, m'.comboConfigs)
    ensures forall c :: c in FreshRuntimes(m, now).combo ==> c in FreshRuntimes(m', now).combo
  {
    var cs, cs' := FreshRuntimes(m, now).combo, FreshRuntimes(m', now).combo;
    forall c | c in cs ensures c in cs' {
      var i :| 0 <= i < |cs| && cs[i] == c;
      assert m.comboConfigs[i] in m'.comboConfigs;
      var j :| 0 <= j < |m'.comboConfigs| && m'.comboConfigs[j] == m.comboConfigs[i];
      assert cs'[j] == c;
    }
  }

  lemma FreshMacrosAlike(m: MappingConfig, m': MappingConfig, now: Time)
    requires Same(m.macroConfigs, m'.macroConfigs)
    ensures forall x :: x in FreshRuntimes(m, now).macros ==> x in FreshRuntimes(m', now).macros
  {
    hide FreshSteps;
    var ms, ms' := FreshRuntimes(m, now).macros, FreshRuntimes(m', now).macros;
    forall x | x in ms ensures x in ms' {
      var i :| 0 <= i < |ms| && ms[i] == x;
      assert m.macroConfigs[i] in m'.macroConfigs;
      var j :| 0 <= j < |m'.macroConfigs| && m'.macroConfigs[j] == m.macroConfigs[i];
      assert ms'[j] == x;
    }
  }

  lemma FreshAlike(m: MappingConfig, m': MappingConfig, now: Time)
    requires AlikeMappings(m, m') && OneTurboConfigEach(m.turboConfigs)
    ensures AlikeRuntimes(FreshRuntimes(m, now), FreshRuntimes(m', now))
    ensures OneTurboEach(FreshRuntimes(m, now).turbo)
  {
    FreshTurbosAlike(m, m', now);
    FreshTurbosAlike(m', m, now);
    FreshCombosAlike(m, m', now);
    FreshCombosAlike(m', m, now);
    FreshMacrosAlike(m, m', now);
    FreshMacrosAlike(m', m, now);
    var ts := FreshRuntimes(m, now).turbo;
    forall t, u | t in ts && u in ts && t.src == u.src ensures t == u {
      var i :| 0 <= i < |ts| && ts[i] == t;
      var j :| 0 <= j < |ts| && ts[j] == u;
      assert m.turboConfigs[i] == m.turboConfigs[j];
    }
  }

  /** Over every run two orderings keep the same frame and the same runtimes but for their order. */
  lemma {:induction false} RunsAlike(m: MappingConfig, m': MappingConfig, start: Time, events: seq<Event>)
    requires MappingSafe(m) && MappingSafe(m') && AlikeMappings(m, m') && OneTurboConfigEach(m.turboConfigs)
    ensures var e, e' := Run(m, start, events), Run(m', start, events);
            e.frame == e'.frame && AlikeRuntimes(e.runtimes, e'.runtimes) && OneTurboEach(e.runtimes.turbo)
  {
    hide MappingSafe, RuntimesOk, Transform, FreshRuntimes, Same, OneTurboEach, OneTurboConfigEach;
    if events == [] {
      FreshAlike(m, m', start);
    } else {
      var init, last := events[..|events| - 1], events[|events| - 1];
      RunsAlike(m, m', start, init);
      var e, e' := Run(m, start, init), Run(m', start, init);
      match last
      case Source(frame, at) => RuntimesStayAlike(frame, m, m', e.runtimes, e'.runtimes, at, true);
      case Poll(at) =>
        if e.frame.Some? {
          RuntimesStayAlike(e.frame.value, m, m', e.runtimes, e'.runtimes, at, false);
        }
    }
  }
}

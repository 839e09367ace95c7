/** Compiled mapping rules and the reducer that merges their output (src/mapping.rs). */
module Mapping {
  import opened Model

  datatype Trigger = TriggerL2 | TriggerR2

  datatype StickDir = LsUp | LsDown | LsLeft | LsRight | RsUp | RsDown | RsLeft | RsRight

  datatype Target =
    | ToButton(button: Button)
    | TriggerFull(trigger: Trigger)
    | Stick(dir: StickDir)
    | Macro(name: string)
    | Keyboard(code: nat)

  datatype StepTarget = StepButton(button: Button) | StepKey(code: nat)

  datatype RemapRule = RemapRule(src: Button, dst: Target)

  datatype TurboConfig = TurboConfig(src: Button, intervalMs: nat, delayMs: nat)

  datatype ComboRule = ComboRule(modifier: Button, key: Button, output: Target)

  datatype MacroMode = Hold | Single

  datatype MacroSource = Physical | Combo

  datatype MacroStep = MacroStep(action: StepTarget, pressMs: nat, releaseMs: nat)

  datatype MacroRule = MacroRule(
    trigger: Button, name: string, mode: MacroMode, steps: seq<MacroStep>, source: MacroSource)

  datatype MappingConfig = MappingConfig(
    rules: seq<RemapRule>,
    splitTouchpad: bool,
    turboConfigs: seq<TurboConfig>,
    blockedButtons: seq<Button>,
    comboConfigs: seq<ComboRule>,
    macroConfigs: seq<MacroRule>)

  const EMPTY_MAPPING: MappingConfig := MappingConfig([], false, [], [], [], [])

  // ------------------------------------------------- what one target asks for

  function TriggerButton(t: Trigger): Button {
    match t
    case TriggerL2 => L2
    case TriggerR2 => R2
  }

  function TargetButtons(t: Target): set<Button> {
    match t
    case ToButton(b) => {b}
    case TriggerFull(trigger) => {TriggerButton(trigger)}
    case _ => {}
  }

  function TargetKeys(t: Target): set<nat> {
    match t
    case Keyboard(code) => {code}
    case _ => {}
  }

  function TargetAnalog(t: Target, trigger: Trigger): Option<Byte> {
    if t == TriggerFull(trigger) then Some(255) else None
  }

  function StickWrite(dir: StickDir): (Axis, Byte) {
    match dir
    case LsUp => (LeftY, 0)
    case LsDown => (LeftY, 255)
    case LsLeft => (LeftX, 0)
    case LsRight => (LeftX, 255)
    case RsUp => (RightY, 0)
    case RsDown => (RightY, 255)
    case RsLeft => (RightX, 0)
    case RsRight => (RightX, 255)
  }

  function PushStick(state: GamepadState, t: Target): GamepadState {
    match t
    case Stick(dir) => state.SetStick(StickWrite(dir).0, StickWrite(dir).1)
    case _ => state
  }

  /** The analog value a fired rule gives a trigger: its source's own value, or a full press. */
  function RuleAnalog(r: RemapRule, l1: GamepadState, trigger: Trigger): Option<Byte> {
    if r.dst == ToButton(TriggerButton(trigger)) && r.src == L2 then Some(l1.l2Analog)
    else if r.dst == ToButton(TriggerButton(trigger)) && r.src == R2 then Some(l1.r2Analog)
    else TargetAnalog(r.dst, trigger)
  }

  // ------------------------------------------------------------ the reducer

  datatype Intent = Intent(
    buttons: set<Button>, keys: set<nat>,
    l2: Option<Byte>, r2: Option<Byte>, l2Cleared: bool, r2Cleared: bool)
  {
    function Analog(trigger: Trigger): Option<Byte> {
      match trigger
      case TriggerL2 => l2
      case TriggerR2 => r2
    }

    function Contribute(trigger: Trigger, value: Option<Byte>): Intent {
      match trigger
      case TriggerL2 => this.(l2 := MaxOption(l2, value))
      case TriggerR2 => this.(r2 := MaxOption(r2, value))
    }

    function Press(t: Target): Intent {
      Contribute(TriggerL2, TargetAnalog(t, TriggerL2))
      .Contribute(TriggerR2, TargetAnalog(t, TriggerR2))
      .(buttons := buttons + TargetButtons(t), keys := keys + TargetKeys(t))
    }

    function PressStep(t: StepTarget): Intent {
      match t
      case StepButton(b) => this.(buttons := buttons + {b})
      case StepKey(code) => this.(keys := keys + {code})
    }

    function Fire(r: RemapRule, l1: GamepadState): Intent {
      Contribute(TriggerL2, RuleAnalog(r, l1, TriggerL2))
      .Contribute(TriggerR2, RuleAnalog(r, l1, TriggerR2))
      .(buttons := buttons + TargetButtons(r.dst),
        keys := keys + TargetKeys(r.dst),
        l2Cleared := l2Cleared || r.src == L2,
        r2Cleared := r2Cleared || r.src == R2)
    }

    function Base(state: GamepadState, trigger: Trigger): Byte {
      match trigger
      case TriggerL2 => if l2Cleared then 0 else state.l2Analog
      case TriggerR2 => if r2Cleared then 0 else state.r2Analog
    }

    function ApplyTo(state: GamepadState): GamepadState {
      state.(buttons := state.buttons + buttons,
             l2Analog := MaxOption(Some(Base(state, TriggerL2)), l2).value,
             r2Analog := MaxOption(Some(Base(state, TriggerR2)), r2).value)
    }
  }

  const NO_INTENT: Intent := Intent({}, {}, None, None, false, false)

  /** All fired rules of `rules` reduced in order. */
  function Gather(rules: seq<RemapRule>, l1: GamepadState, intent: Intent): Intent {
    if rules == [] then intent else
    var r, before := rules[|rules| - 1], Gather(rules[..|rules| - 1], l1, intent);
    if l1.Pressed(r.src) then before.Fire(r, l1) else before
  }

  /** The state side of the same reduction: sources released, sticks pushed in rule order. */
  function GatherState(rules: seq<RemapRule>, l1: GamepadState, state: GamepadState): GamepadState {
    if rules == [] then state else
    var r, before := rules[|rules| - 1], GatherState(rules[..|rules| - 1], l1, state);
    if l1.Pressed(r.src) then PushStick(before.Set(r.src, false), r.dst) else before
  }

  class OutputIntent {
    var buttons: set<Button>
    var keyboard: set<nat>
    var l2Analog: Option<Byte>
    var r2Analog: Option<Byte>
    var l2Cleared: bool
    var r2Cleared: bool

    function View(): Intent
      reads this
    {
      Intent(buttons, keyboard, l2Analog, r2Analog, l2Cleared, r2Cleared)
    }

    constructor ()
      ensures View() == NO_INTENT
    {
      buttons, keyboard := {}, {};
      l2Analog, r2Analog := None, None;
      l2Cleared, r2Cleared := false, false;
    }

    method ContributeAnalog(trigger: Trigger, value: Byte)
      modifies this
      ensures View() == old(View()).Contribute(trigger, Some(value))
    {
      match trigger
      case TriggerL2 =>
        l2Analog := Some(if l2Analog.Some? then MaxByte(l2Analog.value, value) else value);
      case TriggerR2 =>
        r2Analog := Some(if r2Analog.Some? then MaxByte(r2Analog.value, value) else value);
    }

    method ClearSource(state: GamepadState, source: Button) returns (state': GamepadState)
      modifies this
      ensures state' == state.Set(source, false)
      ensures View() == old(View()).(l2Cleared := old(l2Cleared) || source == L2,
                                     r2Cleared := old(r2Cleared) || source == R2)
    {
      state' := state.Set(source, false);
      match source
      case L2 => l2Cleared := true;
      case R2 => r2Cleared := true;
      case _ =>
    }

    method PressTarget(state: GamepadState, target: Target) returns (state': GamepadState)
      modifies this
      ensures state' == PushStick(state, target)
      ensures View() == old(View()).Press(target)
    {
      state' := state;
      match target
      case ToButton(button) => buttons := buttons + {button};
      case TriggerFull(trigger) =>
        buttons := buttons + {TriggerButton(trigger)};
        ContributeAnalog(trigger, 255);
      case Stick(dir) => state' := state.SetStick(StickWrite(dir).0, StickWrite(dir).1);
      case Keyboard(code) => keyboard := keyboard + {code};
      case Macro(_) =>
    }

    method PressStep(target: StepTarget)
      modifies this
      ensures View() == old(View()).PressStep(target)
    {
      match target
      case StepButton(button) => buttons := buttons + {button};
      case StepKey(code) => keyboard := keyboard + {code};
    }

    method ApplyToState(state: GamepadState) returns (state': GamepadState)
      ensures state' == View().ApplyTo(state)
    {
      var l2Base := if l2Cleared then 0 else state.l2Analog;
      var r2Base := if r2Cleared then 0 else state.r2Analog;
      state' := state.(l2Analog := if l2Analog.Some? then MaxByte(l2Base, l2Analog.value) else l2Base);
      state' := state'.(r2Analog := if r2Analog.Some? then MaxByte(r2Base, r2Analog.value) else r2Base);
      ghost var analog := state';
      var left := buttons;
      while left != {}
        invariant left <= buttons
        invariant state'.buttons == state.buttons + (buttons - left)
        invariant state' == analog.(buttons := state'.buttons)
      {
        var button :| button in left;
        state' := state'.Set(button, true);
        left := left - {button};
      }
      assert state'.buttons == state.buttons + buttons;
    }
  }

  /** The body of the rule loop, for a rule whose source is pressed. */
  method FireRule(rule: RemapRule, l1: GamepadState, state: GamepadState, intent: OutputIntent)
    returns (state': GamepadState)
    modifies intent
    ensures state' == PushStick(state.Set(rule.src, false), rule.dst)
    ensures intent.View() == old(intent.View()).Fire(rule, l1)
  {
    state' := intent.ClearSource(state, rule.src);
    if rule.src == L2 && rule.dst == ToButton(L2) {
      intent.ContributeAnalog(TriggerL2, l1.l2Analog);
    } else if rule.src == L2 && rule.dst == ToButton(R2) {
      intent.ContributeAnalog(TriggerR2, l1.l2Analog);
    } else if rule.src == R2 && rule.dst == ToButton(L2) {
      intent.ContributeAnalog(TriggerL2, l1.r2Analog);
    } else if rule.src == R2 && rule.dst == ToButton(R2) {
      intent.ContributeAnalog(TriggerR2, l1.r2Analog);
    }
    state' := intent.PressTarget(state', rule.dst);
  }

  method Collect(mapping: MappingConfig, l1: GamepadState, state: GamepadState, intent: OutputIntent)
    returns (state': GamepadState)
    modifies intent
    ensures state' == GatherState(mapping.rules, l1, state)
    ensures intent.View() == Gather(mapping.rules, l1, old(intent.View()))
  {
    state' := state;
    var rules := mapping.rules;
    for i := 0 to |rules|
      invariant state' == GatherState(rules[..i], l1, state)
      invariant intent.View() == Gather(rules[..i], l1, old(intent.View()))
    {
      assert rules[..i + 1][..i] == rules[..i];
      if l1.Pressed(rules[i].src) {
        state' := FireRule(rules[i], l1, state', intent);
      }
    }
    assert rules[..|rules|] == rules;
  }

  method Apply(mapping: MappingConfig, l1: GamepadState, state: GamepadState)
    returns (state': GamepadState, keyboard: set<nat>)
    ensures (state', keyboard) == Remap(mapping.rules, l1, state)
  {
    var intent := new OutputIntent();
    state' := Collect(mapping, l1, state, intent);
    state' := intent.ApplyToState(state');
    keyboard := intent.keyboard;
  }

  /** The remapped state and the keyboard keys that go with it. */
  function Remap(rules: seq<RemapRule>, l1: GamepadState, state: GamepadState): (GamepadState, set<nat>) {
    var intent := Gather(rules, l1, NO_INTENT);
    (intent.ApplyTo(GatherState(rules, l1, state)), intent.keys)
  }

  // ---------------------------------------------- pointwise meaning of a remap

  predicate Fires(r: RemapRule, rules: seq<RemapRule>, l1: GamepadState) {
    r in rules && l1.Pressed(r.src)
  }

  ghost predicate TargetsButton(b: Button, rules: seq<RemapRule>, l1: GamepadState) {
    exists r :: Fires(r, rules, l1) && b in TargetButtons(r.dst)
  }

  ghost predicate FromSource(b: Button, rules: seq<RemapRule>, l1: GamepadState) {
    exists r :: Fires(r, rules, l1) && r.src == b
  }

  ghost predicate TargetsKey(k: nat, rules: seq<RemapRule>, l1: GamepadState) {
    exists r :: Fires(r, rules, l1) && k in TargetKeys(r.dst)
  }

  /** `m` is the largest contribution the fired rules make to a trigger, if any make one. */
  ghost predicate IsLargest(m: Option<Byte>, rules: seq<RemapRule>, l1: GamepadState, trigger: Trigger) {
    && (m.Some? ==> exists r :: Fires(r, rules, l1) && RuleAnalog(r, l1, trigger) == m)
    && forall r :: Fires(r, rules, l1) && RuleAnalog(r, l1, trigger).Some? ==>
         m.Some? && RuleAnalog(r, l1, trigger).value <= m.value
  }

  /** The rule writes the axis when it fires. */
  predicate Writes(r: RemapRule, axis: Axis) {
    r.dst.Stick? && StickWrite(r.dst.dir).0 == axis
  }

  lemma FiresInit(rules: seq<RemapRule>, l1: GamepadState)
    requires rules != []
    ensures forall r :: Fires(r, rules, l1) <==>
              Fires(r, rules[..|rules| - 1], l1) || (r == rules[|rules| - 1] && l1.Pressed(r.src))
  {
    assert rules == rules[..|rules| - 1] + [rules[|rules| - 1]];
  }

  lemma {:induction false} GatherPointwise(rules: seq<RemapRule>, l1: GamepadState)
    ensures var intent := Gather(rules, l1, NO_INTENT);
            && (forall b :: b in intent.buttons <==> TargetsButton(b, rules, l1))
            && (forall k :: k in intent.keys <==> TargetsKey(k, rules, l1))
            && (intent.l2Cleared <==> FromSource(L2, rules, l1))
            && (intent.r2Cleared <==> FromSource(R2, rules, l1))
  {
    if rules != [] {
      GatherPointwise(rules[..|rules| - 1], l1);
      FiresInit(rules, l1);
    }
  }

  lemma {:induction false} GatherLargest(rules: seq<RemapRule>, l1: GamepadState, trigger: Trigger)
    ensures IsLargest(Gather(rules, l1, NO_INTENT).Analog(trigger), rules, l1, trigger)
  {
    if rules != [] {
      GatherLargest(rules[..|rules| - 1], l1, trigger);
      FiresInit(rules, l1);
    }
  }

  lemma NothingFired(l1: GamepadState)
    ensures forall b :: !FromSource(b, [], l1)
  {
  }

  lemma SourcesInit(rules: seq<RemapRule>, l1: GamepadState)
    requires rules != []
    ensures forall b :: FromSource(b, rules, l1) <==>
              FromSource(b, rules[..|rules| - 1], l1) || (b == rules[|rules| - 1].src && l1.Pressed(b))
  {
    FiresInit(rules, l1);
    var r := rules[|rules| - 1];
    assert l1.Pressed(r.src) ==> Fires(r, rules, l1);
  }

  lemma {:induction false} GatherStatePointwise(rules: seq<RemapRule>, l1: GamepadState, state: GamepadState)
    ensures var out := GatherState(rules, l1, state);
            && (forall b :: out.Pressed(b) <==> state.Pressed(b) && !FromSource(b, rules, l1))
            && out.l2Analog == state.l2Analog && out.r2Analog == state.r2Analog
  {
    if rules == [] {
      NothingFired(l1);
    } else {
      hide FromSource;
      GatherStatePointwise(rules[..|rules| - 1], l1, state);
      SourcesInit(rules, l1);
    }
  }

  /** A remap, read pointwise: buttons, keys and both triggers. */
  lemma RemapPointwise(rules: seq<RemapRule>, l1: GamepadState, state: GamepadState)
    ensures var (out, keys) := Remap(rules, l1, state);
            && (forall b :: out.Pressed(b) <==>
                  TargetsButton(b, rules, l1) || (state.Pressed(b) && !FromSource(b, rules, l1)))
            && (forall k :: k in keys <==> TargetsKey(k, rules, l1))
            && IsTrigger(out.l2Analog, rules, l1, TriggerL2, state.l2Analog)
            && IsTrigger(out.r2Analog, rules, l1, TriggerR2, state.r2Analog)
  {
    GatherPointwise(rules, l1);
    GatherStatePointwise(rules, l1, state);
    GatherLargest(rules, l1, TriggerL2);
    GatherLargest(rules, l1, TriggerR2);
  }

  /** `v` is the larger of the contributions and the base, which is 0 once a fired rule took the source. */
  ghost predicate IsTrigger(v: Byte, rules: seq<RemapRule>, l1: GamepadState, trigger: Trigger, analog: Byte) {
    var base := if FromSource(TriggerButton(trigger), rules, l1) then 0 else analog;
    && (v == base || exists r :: Fires(r, rules, l1) && RuleAnalog(r, l1, trigger) == Some(v))
    && base <= v
    && forall r :: Fires(r, rules, l1) && RuleAnalog(r, l1, trigger).Some? ==>
         RuleAnalog(r, l1, trigger).value <= v
  }

  // ---------------------------------------------------------- rule order

  /** Two fired rules push one stick axis to different ends. */
  ghost predicate Conflict(rules: seq<RemapRule>, l1: GamepadState) {
    exists r, s, axis :: ClashOn(r, s, axis, rules, l1)
  }

  predicate ClashOn(r: RemapRule, s: RemapRule, axis: Axis, rules: seq<RemapRule>, l1: GamepadState) {
    && Fires(r, rules, l1) && Fires(s, rules, l1)
    && Writes(r, axis) && Writes(s, axis) && StickWrite(r.dst.dir) != StickWrite(s.dst.dir)
  }

  /** The last fired rule on an axis decides it. */
  lemma {:induction false} StickFromRule(rules: seq<RemapRule>, l1: GamepadState, state: GamepadState, axis: Axis)
    ensures var out := GatherState(rules, l1, state).Stick(axis);
            (exists r :: Fires(r, rules, l1) && Writes(r, axis) && StickWrite(r.dst.dir).1 == out)
            || (out == state.Stick(axis) && forall r :: Fires(r, rules, l1) ==> !Writes(r, axis))
  {
    if rules != [] {
      StickFromRule(rules[..|rules| - 1], l1, state, axis);
      FiresInit(rules, l1);
      var r := rules[|rules| - 1];
      assert Fires(r, rules, l1) <==> l1.Pressed(r.src);
    }
  }

  /** Everything but buttons, triggers and sticks passes a remap untouched. */
  lemma {:induction false} GatherStateKeeps(rules: seq<RemapRule>, l1: GamepadState, state: GamepadState)
    ensures var out := GatherState(rules, l1, state);
            out.(buttons := state.buttons, leftX := state.leftX, leftY := state.leftY,
                 rightX := state.rightX, rightY := state.rightY) == state
  {
    if rules != [] {
      GatherStateKeeps(rules[..|rules| - 1], l1, state);
    }
  }

  /** Without a stick conflict the order of the rules does not matter. */
  lemma OrderIrrelevant(rules: seq<RemapRule>, rules': seq<RemapRule>, l1: GamepadState, state: GamepadState)
    requires forall r :: r in rules <==> r in rules'
    requires !Conflict(rules, l1)
    ensures Remap(rules, l1, state) == Remap(rules', l1, state)
  {
    hide Gather, GatherState;
    var (out, keys) := Remap(rules, l1, state);
    var (out', keys') := Remap(rules', l1, state);
    SameButtons(rules, rules', l1, state);
    SameTriggers(rules, rules', l1, state);
    GatherStateKeeps(rules, l1, state);
    GatherStateKeeps(rules', l1, state);
    forall axis: Axis ensures out.Stick(axis) == out'.Stick(axis) {
      SameStick(rules, rules', l1, state, axis);
    }
    assert out.Stick(LeftX) == out'.Stick(LeftX) && out.Stick(LeftY) == out'.Stick(LeftY);
    assert out.Stick(RightX) == out'.Stick(RightX) && out.Stick(RightY) == out'.Stick(RightY);
  }

  lemma SameTriggers(rules: seq<RemapRule>, rules': seq<RemapRule>, l1: GamepadState, state: GamepadState)
    requires forall r :: r in rules <==> r in rules'
    ensures var out, out' := Remap(rules, l1, state).0, Remap(rules', l1, state).0;
            out.l2Analog == out'.l2Analog && out.r2Analog == out'.r2Analog
  {
    hide Remap, Gather, GatherState, TargetsButton;
    RemapPointwise(rules, l1, state);
    RemapPointwise(rules', l1, state);
    forall r ensures Fires(r, rules, l1) <==> Fires(r, rules', l1) {}
  }

  lemma SameButtons(rules: seq<RemapRule>, rules': seq<RemapRule>, l1: GamepadState, state: GamepadState)
    requires forall r :: r in rules <==> r in rules'
    ensures Remap(rules, l1, state).0.buttons == Remap(rules', l1, state).0.buttons
    ensures Remap(rules, l1, state).1 == Remap(rules', l1, state).1
    ensures forall r :: Fires(r, rules, l1) <==> Fires(r, rules', l1)
  {
    hide Remap, Gather, GatherState;
    var (out, keys) := Remap(rules, l1, state);
    var (out', keys') := Remap(rules', l1, state);
    RemapPointwise(rules, l1, state);
    RemapPointwise(rules', l1, state);
    forall r ensures Fires(r, rules, l1) <==> Fires(r, rules', l1) {}
    forall b ensures b in out.buttons <==> b in out'.buttons {
      assert out.Pressed(b) <==> b in out.buttons;
      assert out'.Pressed(b) <==> b in out'.buttons;
      assert TargetsButton(b, rules, l1) <==> TargetsButton(b, rules', l1);
      assert FromSource(b, rules, l1) <==> FromSource(b, rules', l1);
    }
    assert out.buttons == out'.buttons;
    assert keys == keys';
  }

  lemma SameStick(rules: seq<RemapRule>, rules': seq<RemapRule>, l1: GamepadState, state: GamepadState, axis: Axis)
    requires forall r :: Fires(r, rules, l1) <==> Fires(r, rules', l1)
    requires !Conflict(rules, l1)
    ensures GatherState(rules, l1, state).Stick(axis) == GatherState(rules', l1, state).Stick(axis)
  {
    StickFromRule(rules, l1, state, axis);
    StickFromRule(rules', l1, state, axis);
    forall r, s | Fires(r, rules, l1) && Fires(s, rules, l1) && Writes(r, axis) && Writes(s, axis)
      ensures StickWrite(r.dst.dir) == StickWrite(s.dst.dir)
    {
      assert !ClashOn(r, s, axis, rules, l1);
    }
  }

  /** With a conflict it does: some reordering gives a different state. */
  lemma ConflictMatters(rules: seq<RemapRule>, l1: GamepadState, state: GamepadState)
    returns (p: seq<RemapRule>, q: seq<RemapRule>)
    requires Conflict(rules, l1)
    ensures multiset(p) == multiset(rules) && multiset(q) == multiset(rules)
    ensures Remap(p, l1, state) != Remap(q, l1, state)
  {
    var r, s, axis :| ClashOn(r, s, axis, rules, l1);
    p := MoveLast(MoveLast(rules, s), r);
    q := MoveLast(MoveLast(rules, r), s);
    var before, before' := GatherState(p[..|p| - 1], l1, state), GatherState(q[..|q| - 1], l1, state);
    assert GatherState(p, l1, state) == PushStick(before.Set(r.src, false), r.dst);
    assert GatherState(q, l1, state) == PushStick(before'.Set(s.src, false), s.dst);
    assert Remap(p, l1, state).0.Stick(axis) == StickWrite(r.dst.dir).1;
    assert Remap(q, l1, state).0.Stick(axis) == StickWrite(s.dst.dir).1;
  }

  ghost function MoveLast(rules: seq<RemapRule>, r: RemapRule): (p: seq<RemapRule>)
    requires r in rules
    ensures multiset(p) == multiset(rules)
    ensures p != [] && p[|p| - 1] == r
    ensures forall x :: x in rules ==> x in p
  {
    var i :| 0 <= i < |rules| && rules[i] == r;
    assert rules == rules[..i] + [r] + rules[i + 1..];
    rules[..i] + rules[i + 1..] + [r]
  }
}

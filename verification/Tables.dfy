/** What each target, rule, step and touchpad click stands for, entry by entry (src/mapping.rs, src/proxy/pipeline.rs). */
module Tables {
  import opened Model
  import opened Mapping
  import opened Runtime
  import opened Pipeline

  /** The button and the key each target presses. */
  lemma TargetPresses(t: Target, b: Button, k: nat)
    ensures b in TargetButtons(t)
            <==> t == ToButton(b) || (t == TriggerFull(TriggerL2) && b == L2) || (t == TriggerFull(TriggerR2) && b == R2)
    ensures k in TargetKeys(t) <==> t == Keyboard(k)
  {
  }

  /** The axis a stick direction moves, and which end it moves it to; up and left are the low ends. */
  lemma StickEnds(dir: StickDir)
    ensures var (axis, value) := StickWrite(dir);
            && (axis == LeftX <==> dir == LsLeft || dir == LsRight) && (axis == LeftY <==> dir == LsUp || dir == LsDown)
            && (axis == RightX <==> dir == RsLeft || dir == RsRight) && (axis == RightY <==> dir == RsUp || dir == RsDown)
            && value == if dir == LsUp || dir == LsLeft || dir == RsUp || dir == RsLeft then 0 else 255
  {
  }

  /** A fired rule's bid for a trigger: the analog value of the trigger it takes, or all of it for a full press. */
  predicate Bids(r: RemapRule, l1: GamepadState, trigger: Button, v: Byte) {
    || (r == RemapRule(L2, ToButton(trigger)) && v == l1.l2Analog)
    || (r == RemapRule(R2, ToButton(trigger)) && v == l1.r2Analog)
    || (r.dst == TriggerFull(if trigger == L2 then TriggerL2 else TriggerR2) && v == 255)
  }

  lemma RuleBids(r: RemapRule, l1: GamepadState, v: Byte)
    ensures RuleAnalog(r, l1, TriggerL2) == Some(v) <==> Bids(r, l1, L2, v)
    ensures RuleAnalog(r, l1, TriggerR2) == Some(v) <==> Bids(r, l1, R2, v)
  {
  }

  /** The highest of the bids and the value left to the trigger itself, which is none once a fired rule takes it. */
  ghost predicate Highest(v: Byte, rules: seq<RemapRule>, l1: GamepadState, trigger: Button, analog: Byte) {
    var own := if exists r :: r in rules && l1.Pressed(r.src) && r.src == trigger then 0 else analog;
    && own <= v && (v == own || exists r :: r in rules && l1.Pressed(r.src) && Bids(r, l1, trigger, v))
    && forall r, bid :: r in rules && l1.Pressed(r.src) && Bids(r, l1, trigger, bid) ==> bid <= v
  }

  lemma TriggerIsHighest(v: Byte, rules: seq<RemapRule>, l1: GamepadState, analog: Byte)
    ensures IsTrigger(v, rules, l1, TriggerL2, analog) ==> Highest(v, rules, l1, L2, analog)
    ensures IsTrigger(v, rules, l1, TriggerR2, analog) ==> Highest(v, rules, l1, R2, analog)
  {
    hide RuleAnalog, Bids;
    forall r, bid ensures RuleAnalog(r, l1, TriggerL2) == Some(bid) <==> Bids(r, l1, L2, bid) {
      RuleBids(r, l1, bid);
    }
    forall r, bid ensures RuleAnalog(r, l1, TriggerR2) == Some(bid) <==> Bids(r, l1, R2, bid) {
      RuleBids(r, l1, bid);
    }
    TakenBy(rules, l1, L2);
    TakenBy(rules, l1, R2);
    hide FromSource;
  }

  lemma TakenBy(rules: seq<RemapRule>, l1: GamepadState, b: Button)
    ensures FromSource(b, rules, l1) <==> exists r :: r in rules && l1.Pressed(r.src) && r.src == b
  {
    if r :| r in rules && l1.Pressed(r.src) && r.src == b {
      assert Fires(r, rules, l1);
    }
  }

  /** The triggers of a remapped state. */
  lemma RemapTriggers(rules: seq<RemapRule>, l1: GamepadState, state: GamepadState)
    ensures var out := Remap(rules, l1, state).0;
            Highest(out.l2Analog, rules, l1, L2, state.l2Analog) && Highest(out.r2Analog, rules, l1, R2, state.r2Analog)
  {
    hide Remap, IsTrigger, Highest;
    RemapPointwise(rules, l1, state);
    var out := Remap(rules, l1, state).0;
    TriggerIsHighest(out.l2Analog, rules, l1, state.l2Analog);
    TriggerIsHighest(out.r2Analog, rules, l1, state.r2Analog);
  }

  /** The buttons and keys of macro steps are those of the steps that are pressed. */
  lemma StepPresses(steps: seq<Step>, b: Button, k: nat)
    ensures b in StepButtons(steps) <==> exists i :: 0 <= i < |steps| && steps[i].pressed && steps[i].action == StepButton(b)
    ensures k in StepKeys(steps) <==> exists i :: 0 <= i < |steps| && steps[i].pressed && steps[i].action == StepKey(k)
  {
    if b in StepButtons(steps) {
      var s :| s in steps && s.pressed && s.action.StepButton? && s.action.button == b;
      var i :| 0 <= i < |steps| && steps[i] == s;
    }
    if k in StepKeys(steps) {
      var s :| s in steps && s.pressed && s.action.StepKey? && s.action.code == k;
      var i :| 0 <= i < |steps| && steps[i] == s;
    }
  }

  /** The first finger that touches the pad, by the two contact records of the report. */
  predicate TouchesLeft(raw: Report) {
    if raw[33] < 0x80 then raw[35] as nat % 16 * 256 + raw[34] as nat < 960
    else raw[37] < 0x80 && raw[39] as nat % 16 * 256 + raw[38] as nat < 960
  }

  predicate TouchesRight(raw: Report) {
    if raw[33] < 0x80 then raw[35] as nat % 16 * 256 + raw[34] as nat >= 960
    else raw[37] < 0x80 && raw[39] as nat % 16 * 256 + raw[38] as nat >= 960
  }

  /** A split touchpad turns its click into a click of the half the first finger touches; nothing else moves. */
  lemma SnapshotLaw(frame: ControllerFrame, mapping: MappingConfig, b: Button)
    ensures var shown, raw := Snapshot(frame, mapping), frame.raw;
            && shown == frame.state.(buttons := shown.buttons)
            && (!mapping.splitTouchpad ==> (shown.Pressed(b) <==> frame.state.Pressed(b)))
            && (mapping.splitTouchpad ==> (shown.Pressed(b) <==>
                  if b == Touchpad then false
                  else || frame.state.Pressed(b)
                       || (b == TouchpadLeft && raw[10] as nat / 2 % 2 == 1 && TouchesLeft(raw))
                       || (b == TouchpadRight && raw[10] as nat / 2 % 2 == 1 && TouchesRight(raw))))
  {
  }
}

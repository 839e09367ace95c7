/** What the pipeline guarantees over whole runs of frames and timer ticks. */
module PipelineRuns {
  import opened Model
  import opened Mapping
  import opened Runtime
  import opened Pipeline

  // ------------------------------------------------------- the run invariant

  lemma SnapshotHidesParent(frame: ControllerFrame, mapping: MappingConfig)
    requires mapping.splitTouchpad
    ensures !Snapshot(frame, mapping).Pressed(Touchpad)
  {
  }

  /** Every transform, of a frame or of a timer tick, keeps the runtimes matched and safe. */
  lemma TransformKeepsOk(frame: ControllerFrame, mapping: MappingConfig, r: Runtimes, now: Time, observe: bool)
    requires RuntimesOk(r, mapping)
    requires observe ==> MappingSafe(mapping)
    ensures RuntimesOk(Transform(frame, mapping, r, now, observe).runtimes, mapping)
  {
    hide TurboNext, TurboSafe, TurboRule, MacroArmed, MacroAt, MacroMatches, MacroSafe, CycleSafe, TurboEffects, Suppress;
    hide ComboHeld, Assemble, Snapshot, FreshCombo, MappingSafe;
    var r' := Transform(frame, mapping, r, now, observe).runtimes;
    var first := Filter(frame, mapping, r, now, observe);
    AssembledRuntimes(frame, mapping, r, now, observe);
    forall i | 0 <= i < |r.turbo|
      ensures TurboRule(r'.turbo[i]) == TurboRule(r.turbo[i]) && TurboSafe(r'.turbo[i])
    {
      TurboKept(frame, mapping, r.turbo[i], i, now, observe);
    }
    forall i | 0 <= i < |r.macros|
      ensures MacroMatches(r'.macros[i], mapping.macroConfigs[i]) && MacroSafe(r'.macros[i])
    {
      MacroKept(r.macros[i], mapping.macroConfigs[i], first.l1, first.combo, now, observe);
    }
  }

  /** The runtimes a transform leaves, stage by stage. */
  lemma AssembledRuntimes(frame: ControllerFrame, mapping: MappingConfig, r: Runtimes, now: Time, observe: bool)
    requires RuntimesOk(r, mapping)
    ensures var first := Filter(frame, mapping, r, now, observe);
            var armed := MacrosArmed(r.macros, first.l1, first.combo, now, observe);
            && (forall i :: 0 <= i < |armed| ==> CycleSafe(armed[i]))
            && Transform(frame, mapping, r, now, observe).runtimes
               == Runtimes(first.turbo, first.combo, MacrosAt(armed, now))
  {
    hide Filter, MacroArmed, MacroAt, MacroSafe, CycleSafe;
    var first := Filter(frame, mapping, r, now, observe);
    AllArmedSafe(r.macros, first.l1, first.combo, now, observe);
  }

  lemma TurboKept(frame: ControllerFrame, mapping: MappingConfig, t: Turbo, i: nat, now: Time, observe: bool)
    requires TurboSafe(t) && i < |mapping.turboConfigs| && TurboRule(t) == mapping.turboConfigs[i]
    requires observe ==> MappingSafe(mapping)
    ensures var t' := TurboNext(t, Snapshot(frame, mapping), now, observe);
            TurboRule(t') == TurboRule(t) && TurboSafe(t')
  {
    if observe && mapping.splitTouchpad && mapping.turboConfigs[i].src == Touchpad {
      SnapshotHidesParent(frame, mapping);
    }
  }

  lemma MacroKept(m: MacroState, rule: MacroRule, l1: GamepadState, cs: seq<ComboState>, now: Time, observe: bool)
    requires MacroMatches(m, rule) && MacroSafe(m)
    ensures var armed := MacroArmed(m, l1, cs, now, observe);
            CycleSafe(armed) && MacroMatches(MacroAt(armed, now), rule) && MacroSafe(MacroAt(armed, now))
  {
    hide MacroAt;
    ArmedSafe(m, l1, cs, now, observe);
    assert MacroMatches(MacroArmed(m, l1, cs, now, observe), rule);
    AdvancedKept(MacroArmed(m, l1, cs, now, observe), rule, now);
  }

  lemma AdvancedKept(m: MacroState, rule: MacroRule, now: Time)
    requires MacroMatches(m, rule) && MacroSafe(m) && CycleSafe(m)
    ensures MacroMatches(MacroAt(m, now), rule) && MacroSafe(MacroAt(m, now))
  {
  }

  // ------------------------------------------- event-driven equals polled

  /** A timer transform looks at no presses, so it only moves runtimes forward in time. */
  lemma TimerTurbo(ts: seq<Turbo>, snapshot: GamepadState, state: GamepadState, now: Time)
    requires forall i :: 0 <= i < |ts| ==> TurboSafe(ts[i])
    ensures var after := TurbosNext(ts, snapshot, now, false);
            TurboEffects(state, ts, after) == TurboEffects(state, after, after)
    decreases |ts|
  {
    if ts != [] {
      var n := |ts| - 1;
      var after := TurbosNext(ts, snapshot, now, false);
      TimerTurbo(ts[..n], snapshot, state, now);
      assert after[..n] == TurbosNext(ts[..n], snapshot, now, false);
    }
  }

  lemma TurbosIdle(ts: seq<Turbo>, snapshot: GamepadState, t: Time)
    requires forall i :: 0 <= i < |ts| ==> TurboSafe(ts[i]) && NoneDueBy(TurboDeadline(ts[i]), t)
    ensures TurbosNext(ts, snapshot, t, false) == ts
  {
    forall i | 0 <= i < |ts| ensures TurboNext(ts[i], snapshot, t, false) == ts[i] {
      TurboIdle(ts[i], t);
    }
  }

  /** Advancing neither starts a macro nor changes what it is, and what it leaves can be advanced again. */
  lemma AdvanceKeeps(m: MacroState, now: Time)
    requires CycleSafe(m)
    ensures var m' := MacroAt(m, now);
            && m'.name == m.name && m'.source == m.source && m'.mode == m.mode && m'.trigger == m.trigger
            && (m'.active ==> m.active) && CycleSafe(m')
  {
    if m.active {
      SameReleases(MacroAt(m, now).steps, m.steps);
    }
  }

  /** A second look at an already armed and advanced macro, before it is due, finds nothing to do. */
  lemma MacroSettled(m: MacroState, l1: GamepadState, cs: seq<ComboState>, now: Time, t: Time)
    requires MacroSafe(m) && now <= t
    requires CycleSafe(MacroArmed(m, l1, cs, now, false))
    requires NoneDueBy(MacroDeadline(MacroAt(MacroArmed(m, l1, cs, now, false), now)), t)
    ensures var m' := MacroAt(MacroArmed(m, l1, cs, now, false), now);
            MacroArmed(m', l1, cs, t, false) == m' && CycleSafe(m') && MacroAt(m', t) == m'
  {
    hide MacroAt, MacroSafe, CycleSafe, MacroDeadline, ComboFires;
    var armed := MacroArmed(m, l1, cs, now, false);
    ArmedSafe(m, l1, cs, now, false);
    MacroIdle(armed, now, t);
    AdvanceKeeps(armed, now);
  }

  lemma StoppedContributesNothing(m: MacroState, intent: Intent)
    ensures Contribution(intent, Stopped(m).steps) == intent
  {
    var steps := Stopped(m).steps;
    assert forall i :: 0 <= i < |steps| ==> !steps[i].pressed;
    assert StepButtons(steps) == {} && StepKeys(steps) == {};
    assert intent.buttons + {} == intent.buttons && intent.keys + {} == intent.keys;
  }

  /** A run that completes at `now` contributes the same whether it is counted or not. */
  lemma ContributionsSettled(intent: Intent, armed: seq<MacroState>, now: Time)
    requires forall i :: 0 <= i < |armed| ==> CycleSafe(armed[i])
    ensures var after := MacrosAt(armed, now);
            Contributions(intent, armed, after) == Contributions(intent, after, after)
    decreases |armed|
  {
    if armed != [] {
      var n := |armed| - 1;
      var after := MacrosAt(armed, now);
      ContributionsSettled(intent, armed[..n], now);
      assert after[..n] == MacrosAt(armed[..n], now);
      if armed[n].active && !after[n].active {
        StoppedContributesNothing(armed[n], Contributions(intent, armed[..n], after[..n]));
      }
    }
  }

  lemma MacrosSettled(ms: seq<MacroState>, l1: GamepadState, cs: seq<ComboState>, now: Time, t: Time)
    requires forall i :: 0 <= i < |ms| ==> MacroSafe(ms[i])
    requires now <= t
    requires var armed := MacrosArmed(ms, l1, cs, now, false);
             forall i :: 0 <= i < |ms| ==> CycleSafe(armed[i]) && NoneDueBy(MacroDeadline(MacroAt(armed[i], now)), t)
    ensures var after := MacrosAt(MacrosArmed(ms, l1, cs, now, false), now);
            && MacrosArmed(after, l1, cs, t, false) == after
            && (forall i :: 0 <= i < |after| ==> CycleSafe(after[i]))
            && MacrosAt(after, t) == after
  {
    hide MacroAt, MacroArmed, MacroSafe, CycleSafe, MacroDeadline;
    var armed := MacrosArmed(ms, l1, cs, now, false);
    var after := MacrosAt(armed, now);
    forall i | 0 <= i < |ms|
      ensures MacroArmed(after[i], l1, cs, t, false) == after[i] && CycleSafe(after[i]) && MacroAt(after[i], t) == after[i]
    {
      assert after[i] == MacroAt(armed[i], now) && armed[i] == MacroArmed(ms[i], l1, cs, now, false);
      MacroSettled(ms[i], l1, cs, now, t);
    }
    assert MacrosArmed(after, l1, cs, t, false) == after;
  }

  lemma FilterIdle(frame: ControllerFrame, mapping: MappingConfig, r: Runtimes, r': Runtimes, now: Time, t: Time)
    requires RuntimesOk(r, mapping) && now <= t
    requires r' == Transform(frame, mapping, r, now, false).runtimes
    requires forall i :: 0 <= i < |r'.turbo| ==> TurboSafe(r'.turbo[i]) && NoneDueBy(TurboDeadline(r'.turbo[i]), t)
    ensures Filter(frame, mapping, r', t, false) == Filter(frame, mapping, r, now, false)
  {
    var snapshot := Snapshot(frame, mapping);
    TimerTurbo(r.turbo, snapshot, snapshot, now);
    TurbosIdle(r'.turbo, snapshot, t);
    var pre := TurboEffects(snapshot, r.turbo, r'.turbo);
    assert CombosNext(r'.combo, pre) == r'.combo;
    SameHeld(r.combo, r'.combo, pre);
  }

  lemma SameHeld(cs: seq<ComboState>, cs': seq<ComboState>, pre: GamepadState)
    requires |cs| == |cs'| && forall i :: 0 <= i < |cs| ==> cs'[i] == cs[i].(active := cs'[i].active)
    ensures ComboHeld(cs', pre) == ComboHeld(cs, pre)
  {
    forall b | b in ComboHeld(cs, pre) ensures b in ComboHeld(cs', pre) {
      var i :| 0 <= i < |cs| && pre.Pressed(cs[i].modifier) && (b == cs[i].modifier || b == cs[i].key);
      assert cs'[i] in cs';
    }
    forall b | b in ComboHeld(cs', pre) ensures b in ComboHeld(cs, pre) {
      var i :| 0 <= i < |cs| && pre.Pressed(cs'[i].modifier) && (b == cs'[i].modifier || b == cs'[i].key);
      assert cs[i] in cs;
    }
  }

  /** Event-driven equals polled: before the next deadline another timer transform is a no-op. */
  lemma PollIsNoOp(frame: ControllerFrame, mapping: MappingConfig, r: Runtimes, now: Time, t: Time)
    requires RuntimesOk(r, mapping) && now <= t
    requires NoneDueBy(RuntimesDeadline(Transform(frame, mapping, r, now, false).runtimes), t)
    ensures RuntimesOk(Transform(frame, mapping, r, now, false).runtimes, mapping)
    ensures Transform(frame, mapping, Transform(frame, mapping, r, now, false).runtimes, t, false)
            == Transform(frame, mapping, r, now, false)
  {
    hide MacroAt, MacroArmed, MacroSafe, TurboSafe, CycleSafe, Matches, Filter, RuntimesDeadline;
    var first := Filter(frame, mapping, r, now, false);
    var r' := Transform(frame, mapping, r, now, false).runtimes;
    TransformKeepsOk(frame, mapping, r, now, false);
    AssembledRuntimes(frame, mapping, r, now, false);
    DeadlineParts(r', t);
    FilterIdle(frame, mapping, r, r', now, t);
    var armed := MacrosArmed(r.macros, first.l1, first.combo, now, false);
    assert forall i :: 0 <= i < |armed| ==> r'.macros[i] == MacroAt(armed[i], now);
    MacrosSettled(r.macros, first.l1, first.combo, now, t);
    ContributionsSettled(PressAll(Gather(mapping.rules, first.l1, NO_INTENT), Triggered(first.combo)), armed, now);
  }

  /** After a timer transform nothing is due at that same instant. */
  lemma TimerNotDue(frame: ControllerFrame, mapping: MappingConfig, r: Runtimes, now: Time)
    requires RuntimesOk(r, mapping)
    ensures NoneDueBy(RuntimesDeadline(Transform(frame, mapping, r, now, false).runtimes), now)
  {
    var r' := Transform(frame, mapping, r, now, false).runtimes;
    var first := Filter(frame, mapping, r, now, false);
    var armed := MacrosArmed(r.macros, first.l1, first.combo, now, false);
    AllArmedSafe(r.macros, first.l1, first.combo, now, false);
    forall i | 0 <= i < |r'.turbo| ensures NoneDueBy(TurboDeadline(r'.turbo[i]), now) {
      if r.turbo[i].active && TurboOrigin(r.turbo[i]) <= now {
        TurboGrid(r.turbo[i], now);
      }
    }
    forall i | 0 <= i < |r'.macros| ensures NoneDueBy(MacroDeadline(r'.macros[i]), now) {
      MacroNotDue(armed[i], now);
    }
    DeadlineParts(r', now);
  }

  // ---------------------------- polls are invisible to a whole run of events

  /** A source frame released a turbo on this button. */
  predicate Releases(before: seq<Turbo>, after: seq<Turbo>, b: Button)
    requires |before| == |after|
  {
    exists i :: 0 <= i < |after| && before[i].active && !after[i].active && after[i].src == b
  }

  lemma ObservedActive(t: Turbo, snapshot: GamepadState, now: Time)
    requires TurboSafe(t)
    ensures var t' := TurboNext(t, snapshot, now, true);
            t'.src == t.src && (t'.active <==> snapshot.Pressed(t.src))
  {
  }

  /** States that can differ only in the trigger analogs, with buttons among the physical ones. */
  predicate AnalogOnly(s: GamepadState, s': GamepadState, snapshot: GamepadState) {
    && s.buttons == s'.buttons && s.buttons <= snapshot.buttons
    && s' == s.(l2Analog := s'.l2Analog, r2Analog := s'.r2Analog)
  }

  lemma EffectAlike(s: GamepadState, s': GamepadState, snapshot: GamepadState, wasActive: bool, t: Turbo)
    requires AnalogOnly(s, s', snapshot) && (t.active <==> snapshot.Pressed(t.src))
    ensures var e, e' := TurboEffect(s, wasActive, t), TurboEffect(s', t.active, t);
            && AnalogOnly(e, e', snapshot)
            && (s'.l2Analog == s.l2Analog && !(wasActive && !t.active && t.src == L2) ==> e'.l2Analog == e.l2Analog)
            && (s'.r2Analog == s.r2Analog && !(wasActive && !t.active && t.src == R2) ==> e'.r2Analog == e.r2Analog)
  {
  }

  /** After a source frame the turbo stage differs from a later poll only in the analog of released triggers. */
  lemma SourceTurbo(ts: seq<Turbo>, snapshot: GamepadState, now: Time)
    requires forall i :: 0 <= i < |ts| ==> TurboSafe(ts[i])
    ensures var after := TurbosNext(ts, snapshot, now, true);
            var s, s' := TurboEffects(snapshot, ts, after), TurboEffects(snapshot, after, after);
            && AnalogOnly(s, s', snapshot)
            && (!Releases(ts, after, L2) ==> s'.l2Analog == s.l2Analog)
            && (!Releases(ts, after, R2) ==> s'.r2Analog == s.r2Analog)
    decreases |ts|
  {
    if ts != [] {
      hide TurboNext, TurboEffect, AnalogOnly;
      var n := |ts| - 1;
      var after := TurbosNext(ts, snapshot, now, true);
      SourceTurbo(ts[..n], snapshot, now);
      assert after[..n] == TurbosNext(ts[..n], snapshot, now, true);
      ObservedActive(ts[n], snapshot, now);
      EffectAlike(TurboEffects(snapshot, ts[..n], after[..n]), TurboEffects(snapshot, after[..n], after[..n]),
                  snapshot, ts[n].active, after[n]);
      assert ts[n].active && !after[n].active ==> Releases(ts, after, after[n].src);
    }
  }

  lemma SourceMacroSettled(m: MacroState, l1: GamepadState, l1': GamepadState, cs: seq<ComboState>, now: Time, t: Time)
    requires MacroSafe(m) && now <= t
    requires CycleSafe(MacroArmed(m, l1, cs, now, true))
    requires NoneDueBy(MacroDeadline(MacroAt(MacroArmed(m, l1, cs, now, true), now)), t)
    ensures var m' := MacroAt(MacroArmed(m, l1, cs, now, true), now);
            MacroArmed(m', l1', cs, t, false) == m' && CycleSafe(m') && MacroAt(m', t) == m'
  {
    hide MacroAt, MacroSafe, CycleSafe, MacroDeadline, ComboFires;
    var armed := MacroArmed(m, l1, cs, now, true);
    ArmedSafe(m, l1, cs, now, true);
    MacroIdle(armed, now, t);
    AdvanceKeeps(armed, now);
  }

  lemma CombosUnmoved(cs: seq<ComboState>, pre: GamepadState, pre': GamepadState)
    requires pre.buttons == pre'.buttons
    ensures CombosNext(CombosNext(cs, pre), pre') == CombosNext(cs, pre)
  {
  }

  lemma SourceMacrosSettled(ms: seq<MacroState>, l1: GamepadState, l1': GamepadState, cs: seq<ComboState>, now: Time, t: Time)
    requires now <= t && forall i :: 0 <= i < |ms| ==> MacroSafe(ms[i])
    requires forall i :: 0 <= i < |ms| ==> CycleSafe(MacrosArmed(ms, l1, cs, now, true)[i])
    requires forall i :: 0 <= i < |ms| ==>
               NoneDueBy(MacroDeadline(MacrosAt(MacrosArmed(ms, l1, cs, now, true), now)[i]), t)
    ensures var ms' := MacrosAt(MacrosArmed(ms, l1, cs, now, true), now);
            && MacrosArmed(ms', l1', cs, t, false) == ms'
            && (forall i :: 0 <= i < |ms'| ==> CycleSafe(ms'[i]))
            && MacrosAt(ms', t) == ms'
  {
    hide MacroAt, MacroArmed, MacroSafe;
    var armed := MacrosArmed(ms, l1, cs, now, true);
    var ms' := MacrosAt(armed, now);
    forall i | 0 <= i < |ms|
      ensures MacroArmed(ms'[i], l1', cs, t, false) == ms'[i] && CycleSafe(ms'[i]) && MacroAt(ms'[i], t) == ms'[i]
    {
      assert ms'[i] == MacroAt(armed[i], now) && armed[i] == MacroArmed(ms[i], l1, cs, now, true);
      SourceMacroSettled(ms[i], l1, l1', cs, now, t);
    }
  }

  /** A poll between a source frame and the next deadline leaves every runtime alone. */
  lemma PollAfterSource(frame: ControllerFrame, mapping: MappingConfig, r: Runtimes, now: Time, t: Time)
    requires MappingSafe(mapping) && RuntimesOk(r, mapping) && now <= t
    requires NoneDueBy(RuntimesDeadline(Transform(frame, mapping, r, now, true).runtimes), t)
    ensures var r' := Transform(frame, mapping, r, now, true).runtimes;
            && RuntimesOk(r', mapping)
            && Transform(frame, mapping, r', t, false).runtimes == r'
  {
    hide MacrosAt, MacrosArmed, TurbosNext, TurboEffects, CombosNext, MappingSafe, MacroSafe, MacroMatches;
    hide Suppress, ComboHeld, Snapshot, Gather, GatherState, PressAll, PushAll, Contributions;
    var first := Filter(frame, mapping, r, now, true);
    var r' := Transform(frame, mapping, r, now, true).runtimes;
    TransformKeepsOk(frame, mapping, r, now, true);
    DeadlineParts(r', t);
    var snapshot := Snapshot(frame, mapping);
    TurbosIdle(r'.turbo, snapshot, t);
    SourceTurbo(r.turbo, snapshot, now);
    var pre, pre' := TurboEffects(snapshot, r.turbo, r'.turbo), TurboEffects(snapshot, r'.turbo, r'.turbo);
    CombosUnmoved(r.combo, pre, pre');
    AllArmedSafe(r.macros, first.l1, first.combo, now, true);
    var first' := Filter(frame, mapping, r', t, false);
    SourceMacrosSettled(r.macros, first.l1, first'.l1, first.combo, now, t);
  }

  /** A poll soon after a source frame sees the same buttons in the first layer. */
  lemma PollSeesSameLayer(frame: ControllerFrame, mapping: MappingConfig, r: Runtimes, now: Time, t: Time)
    requires MappingSafe(mapping) && RuntimesOk(r, mapping) && now <= t
    requires NoneDueBy(RuntimesDeadline(Transform(frame, mapping, r, now, true).runtimes), t)
    ensures var r' := Transform(frame, mapping, r, now, true).runtimes;
            && RuntimesOk(r', mapping)
            && Filter(frame, mapping, r', t, false).l1.buttons == Filter(frame, mapping, r, now, true).l1.buttons
  {
    hide MacrosAt, MacrosArmed, TurbosNext, TurboEffects, MappingSafe, MacroSafe, MacroMatches;
    hide ComboHeld, Snapshot, Gather, GatherState, PressAll, PushAll, Contributions, CombosNext;
    var r' := Transform(frame, mapping, r, now, true).runtimes;
    TransformKeepsOk(frame, mapping, r, now, true);
    DeadlineParts(r', t);
    var snapshot := Snapshot(frame, mapping);
    TurbosIdle(r'.turbo, snapshot, t);
    SourceTurbo(r.turbo, snapshot, now);
    var pre, pre' := TurboEffects(snapshot, r.turbo, r'.turbo), TurboEffects(snapshot, r'.turbo, r'.turbo);
    CombosHoldAlike(r.combo, pre, pre');
  }

  lemma CombosHoldAlike(cs: seq<ComboState>, pre: GamepadState, pre': GamepadState)
    requires pre.buttons == pre'.buttons
    ensures ComboHeld(CombosNext(cs, pre), pre') == ComboHeld(cs, pre)
  {
    SameHeld(cs, CombosNext(cs, pre), pre);
    hide CombosNext;
    assert forall b :: pre.Pressed(b) <==> pre'.Pressed(b);
  }

  datatype Event = Source(frame: ControllerFrame, at: Time) | Poll(at: Time)

  /** The engine between events: the last frame seen and the runtimes. */
  datatype Engine = Engine(frame: Option<ControllerFrame>, runtimes: Runtimes)

  function React(mapping: MappingConfig, e: Engine, event: Event): Engine
    requires RuntimesOk(e.runtimes, mapping)
  {
    match event
    case Source(frame, at) => Engine(Some(frame), Transform(frame, mapping, e.runtimes, at, true).runtimes)
    case Poll(at) =>
      if e.frame.None? then e
      else e.(runtimes := Transform(e.frame.value, mapping, e.runtimes, at, false).runtimes)
  }

  lemma ReactKeepsOk(mapping: MappingConfig, e: Engine, event: Event)
    requires MappingSafe(mapping) && RuntimesOk(e.runtimes, mapping)
    ensures RuntimesOk(React(mapping, e, event).runtimes, mapping)
  {
    match event
    case Source(frame, at) => TransformKeepsOk(frame, mapping, e.runtimes, at, true);
    case Poll(at) =>
      if e.frame.Some? {
        TransformKeepsOk(e.frame.value, mapping, e.runtimes, at, false);
      }
  }

  /** The engine after a run of events from start-up. */
  function Run(mapping: MappingConfig, start: Time, events: seq<Event>): (e: Engine)
    requires MappingSafe(mapping)
    ensures RuntimesOk(e.runtimes, mapping)
  {
    FreshOk(mapping, start);
    if events == [] then Engine(None, FreshRuntimes(mapping, start)) else
    var before := Run(mapping, start, events[..|events| - 1]);
    ReactKeepsOk(mapping, before, events[|events| - 1]);
    React(mapping, before, events[|events| - 1])
  }

  /** In every run an extra poll before the next deadline leaves the engine exactly as it was. */
  lemma ExtraPollUnseen(mapping: MappingConfig, start: Time, events: seq<Event>, t: Time)
    requires MappingSafe(mapping)
    requires NoneDueBy(RuntimesDeadline(Run(mapping, start, events).runtimes), t)
    requires events != [] ==> events[|events| - 1].at <= t
    ensures Run(mapping, start, events + [Poll(t)]) == Run(mapping, start, events)
  {
    hide Transform, RuntimesOk, MappingSafe, RuntimesDeadline, FreshRuntimes;
    RunSnoc(mapping, start, events, Poll(t));
    if events != [] {
      var before := Run(mapping, start, events[..|events| - 1]);
      match events[|events| - 1]
      case Source(frame, at) => PollAfterSource(frame, mapping, before.runtimes, at, t);
      case Poll(at) =>
        if before.frame.Some? {
          PollIsNoOp(before.frame.value, mapping, before.runtimes, at, t);
        }
    }
  }

  lemma SplitLast<T>(s: seq<T>, t: seq<T>)
    requires t != []
    ensures s + t == s + t[..|t| - 1] + [t[|t| - 1]]
  {
  }

  lemma RunSnoc(mapping: MappingConfig, start: Time, events: seq<Event>, event: Event)
    requires MappingSafe(mapping)
    ensures Run(mapping, start, events + [event]) == React(mapping, Run(mapping, start, events), event)
  {
    assert (events + [event])[..|events|] == events;
  }

  /** So whatever happens afterwards happens the same with or without the extra poll. */
  lemma {:induction false} ExtraPollsUnseen(mapping: MappingConfig, start: Time, events: seq<Event>, t: Time, later: seq<Event>)
    requires MappingSafe(mapping)
    requires NoneDueBy(RuntimesDeadline(Run(mapping, start, events).runtimes), t)
    requires events != [] ==> events[|events| - 1].at <= t
    ensures Run(mapping, start, events + [Poll(t)] + later) == Run(mapping, start, events + later)
    decreases |later|
  {
    hide Run, React, RuntimesDeadline, MappingSafe;
    if later == [] {
      ExtraPollUnseen(mapping, start, events, t);
      assert events + [Poll(t)] + later == events + [Poll(t)] && events + later == events;
    } else {
      var n := |later| - 1;
      ExtraPollsUnseen(mapping, start, events, t, later[..n]);
      RunSnoc(mapping, start, events + [Poll(t)] + later[..n], later[n]);
      RunSnoc(mapping, start, events + later[..n], later[n]);
      SplitLast(events + [Poll(t)], later);
      SplitLast(events, later);
    }
  }

  // ------------------------------------------------------- no stuck output

  predicate Quiet(frame: ControllerFrame, mapping: MappingConfig) {
    Snapshot(frame, mapping).buttons == {}
  }

  /** Only single-shot macros, begun by `since`, are still playing. */
  predicate WindingDown(r: Runtimes, since: Time) {
    && (forall i :: 0 <= i < |r.turbo| ==> !r.turbo[i].active)
    && (forall i :: 0 <= i < |r.combo| ==> !r.combo[i].active)
    && (forall i :: 0 <= i < |r.macros| && r.macros[i].active ==>
          r.macros[i].mode.Single? && r.macros[i].stepStart <= since)
  }

  /** Every running macro began by `now`. */
  predicate BegunBy(r: Runtimes, now: Time) {
    forall i :: 0 <= i < |r.macros| && r.macros[i].active ==> r.macros[i].stepStart <= now
  }

  /** The buttons and keys of the macros still playing. */
  predicate PlaysButton(ms: seq<MacroState>, b: Button) {
    exists i :: 0 <= i < |ms| && ms[i].active && b in StepButtons(ms[i].steps)
  }

  predicate PlaysKey(ms: seq<MacroState>, k: nat) {
    exists i :: 0 <= i < |ms| && ms[i].active && k in StepKeys(ms[i].steps)
  }

  lemma {:induction false} ContributionsPointwise(intent: Intent, ms: seq<MacroState>)
    ensures var out := Contributions(intent, ms, ms);
            && (forall b :: b in out.buttons <==> b in intent.buttons || PlaysButton(ms, b))
            && (forall k :: k in out.keys <==> k in intent.keys || PlaysKey(ms, k))
            && out == intent.(buttons := out.buttons, keys := out.keys)
    decreases |ms|
  {
    if ms != [] {
      var n := |ms| - 1;
      ContributionsPointwise(intent, ms[..n]);
      forall b ensures PlaysButton(ms, b) <==> PlaysButton(ms[..n], b) || (ms[n].active && b in StepButtons(ms[n].steps)) {
        assert forall i :: 0 <= i < n ==> ms[i] == ms[..n][i];
      }
      forall k ensures PlaysKey(ms, k) <==> PlaysKey(ms[..n], k) || (ms[n].active && k in StepKeys(ms[n].steps)) {
        assert forall i :: 0 <= i < n ==> ms[i] == ms[..n][i];
      }
    }
  }

  lemma {:induction false} NothingFires(rules: seq<RemapRule>, l1: GamepadState)
    requires l1.buttons == {}
    ensures Gather(rules, l1, NO_INTENT) == NO_INTENT && GatherState(rules, l1, l1) == l1
  {
    if rules != [] {
      NothingFires(rules[..|rules| - 1], l1);
    }
  }

  lemma {:induction false} NothingTriggers(cs: seq<ComboState>)
    requires forall i :: 0 <= i < |cs| ==> !cs[i].active
    ensures Triggered(cs) == []
  {
    if cs != [] {
      NothingTriggers(cs[..|cs| - 1]);
    }
  }

  lemma {:induction false} EffectsOnlyRelease(state: GamepadState, before: seq<Turbo>, after: seq<Turbo>)
    requires |before| == |after| && forall i :: 0 <= i < |after| ==> !after[i].active
    ensures TurboEffects(state, before, after).buttons <= state.buttons
    decreases |after|
  {
    if after != [] {
      EffectsOnlyRelease(state, before[..|after| - 1], after[..|after| - 1]);
    }
  }

  /** With no button down, the first stage of a source frame (or of a poll while winding down) is empty. */
  lemma QuietFilter(frame: ControllerFrame, mapping: MappingConfig, r: Runtimes, since: Time, now: Time, observe: bool)
    requires RuntimesOk(r, mapping) && Quiet(frame, mapping)
    requires observe || WindingDown(r, since)
    ensures var first := Filter(frame, mapping, r, now, observe);
            && first.l1.buttons == {}
            && (forall i :: 0 <= i < |first.turbo| ==> !first.turbo[i].active)
            && (forall i :: 0 <= i < |first.combo| ==> !first.combo[i].active)
  {
    var first := Filter(frame, mapping, r, now, observe);
    EffectsOnlyRelease(Snapshot(frame, mapping), r.turbo, first.turbo);
  }

  /** A frame with nothing pressed outputs exactly what single-shot macros still play. */
  lemma QuietFrame(frame: ControllerFrame, mapping: MappingConfig, r: Runtimes, since: Time, now: Time, observe: bool)
    requires RuntimesOk(r, mapping) && Quiet(frame, mapping)
    requires BegunBy(r, since) && (observe || WindingDown(r, since))
    ensures var o := Transform(frame, mapping, r, now, observe);
            && WindingDown(o.runtimes, since)
            && (forall b :: b in o.output.state.buttons <==> PlaysButton(o.runtimes.macros, b))
            && (forall k :: k in o.output.keyboard <==> PlaysKey(o.runtimes.macros, k))
  {
    hide MacroAt, MacroArmed, MacroSafe, Filter, StepButtons, StepKeys;
    var first := Filter(frame, mapping, r, now, observe);
    QuietFilter(frame, mapping, r, since, now, observe);
    NothingFires(mapping.rules, first.l1);
    NothingTriggers(first.combo);
    var armed := MacrosArmed(r.macros, first.l1, first.combo, now, observe);
    AllArmedSafe(r.macros, first.l1, first.combo, now, observe);
    var macros := MacrosAt(armed, now);
    forall i | 0 <= i < |r.macros| {
      WindingMacro(r.macros[i], first.l1, first.combo, since, now, observe);
    }
    ContributionsSettled(NO_INTENT, armed, now);
    ContributionsPointwise(NO_INTENT, macros);
  }

  /** With nothing pressed no macro starts and every hold macro stops. */
  lemma WindingMacro(m: MacroState, l1: GamepadState, cs: seq<ComboState>, since: Time, now: Time, observe: bool)
    requires MacroSafe(m) && l1.buttons == {} && forall i :: 0 <= i < |cs| ==> !cs[i].active
    requires m.active ==> m.stepStart <= since && (observe || m.mode.Single?)
    ensures CycleSafe(MacroArmed(m, l1, cs, now, observe))
    ensures var m' := MacroAt(MacroArmed(m, l1, cs, now, observe), now);
            m'.active ==> m'.mode.Single? && m'.stepStart <= since
  {
    ArmedSafe(m, l1, cs, now, observe);
    assert !ComboFires(m.name, cs);
  }

  /** Once every macro's last release has passed, nothing at all is output. */
  lemma QuietAfterLastRelease(frame: ControllerFrame, mapping: MappingConfig, r: Runtimes, since: Time, now: Time, observe: bool)
    requires RuntimesOk(r, mapping) && Quiet(frame, mapping) && WindingDown(r, since)
    requires forall i :: 0 <= i < |r.macros| ==> since + Ms(MaxRelease(r.macros[i].steps)) <= now
    ensures var o := Transform(frame, mapping, r, now, observe);
            && o.output.state.buttons == {} && o.output.keyboard == {}
            && !o.runtimes.Running()
  {
    hide MacroAt, MacroArmed, MacroSafe, Filter, StepButtons, StepKeys, Transform, Quiet;
    QuietFrame(frame, mapping, r, since, now, observe);
    var o := Transform(frame, mapping, r, now, observe);
    var first := Filter(frame, mapping, r, now, observe);
    QuietFilter(frame, mapping, r, since, now, observe);
    AssembledRuntimes(frame, mapping, r, now, observe);
    forall i | 0 <= i < |r.macros| ensures !o.runtimes.macros[i].active {
      PlayedOut(r.macros[i], first.l1, first.combo, now, observe);
    }
    assert forall b :: !PlaysButton(o.runtimes.macros, b);
    assert forall k :: !PlaysKey(o.runtimes.macros, k);
  }

  lemma PlayedOut(m: MacroState, l1: GamepadState, cs: seq<ComboState>, now: Time, observe: bool)
    requires MacroSafe(m) && l1.buttons == {} && forall i :: 0 <= i < |cs| ==> !cs[i].active
    requires m.active ==> m.mode.Single? && m.stepStart + Ms(MaxRelease(m.steps)) <= now
    ensures CycleSafe(MacroArmed(m, l1, cs, now, observe))
    ensures !MacroAt(MacroArmed(m, l1, cs, now, observe), now).active
  {
    hide MaxRelease, MacroSafe;
    var armed := MacroArmed(m, l1, cs, now, observe);
    ArmedSafe(m, l1, cs, now, observe);
    assert !ComboFires(m.name, cs);
    if armed.active {
      assert armed == m;
      AllReleased(armed, now);
    }
  }

  /** A single macro is over once its last release has passed. */
  lemma AllReleased(m: MacroState, now: Time)
    requires m.active && m.mode.Single? && m.stepStart + Ms(MaxRelease(m.steps)) <= now
    ensures !MacroAt(m, now).active
  {
    var steps := SettleSteps(m.steps, Single, ElapsedMs(m, now));
    forall i | 0 <= i < |steps| ensures steps[i].done {
      assert m.steps[i].releaseMs <= MaxRelease(m.steps);
    }
  }

  /** `now` is at least the largest release time of any macro step after `since`. */
  predicate LastReleasePassed(mapping: MappingConfig, since: Time, now: Time) {
    forall i, j :: 0 <= i < |mapping.macroConfigs| && 0 <= j < |mapping.macroConfigs[i].steps| ==>
      since + Ms(mapping.macroConfigs[i].steps[j].releaseMs) <= now
  }

  predicate InOrder(events: seq<Event>, from: Time) {
    forall i :: 0 <= i < |events| ==>
      from <= events[i].at && (forall j :: 0 <= j < i ==> events[j].at <= events[i].at)
  }

  predicate AllQuiet(events: seq<Event>, mapping: MappingConfig) {
    forall i :: 0 <= i < |events| && events[i].Source? ==> Quiet(events[i].frame, mapping)
  }

  lemma ReactBegun(mapping: MappingConfig, e: Engine, event: Event, before: Time)
    requires RuntimesOk(e.runtimes, mapping) && BegunBy(e.runtimes, before) && before <= event.at
    ensures BegunBy(React(mapping, e, event).runtimes, event.at)
  {
    hide MacroAt, MacroArmed, MacroSafe, Filter;
    match event
    case Source(frame, at) => TransformBegun(frame, mapping, e.runtimes, before, at, true);
    case Poll(at) =>
      if e.frame.Some? {
        TransformBegun(e.frame.value, mapping, e.runtimes, before, at, false);
      }
  }

  lemma TransformBegun(frame: ControllerFrame, mapping: MappingConfig, r: Runtimes, before: Time, at: Time, observe: bool)
    requires RuntimesOk(r, mapping) && BegunBy(r, before) && before <= at
    ensures BegunBy(Transform(frame, mapping, r, at, observe).runtimes, at)
  {
    hide MacroAt, MacroArmed, Filter;
    var first := Filter(frame, mapping, r, at, observe);
    AllArmedSafe(r.macros, first.l1, first.combo, at, observe);
    forall i | 0 <= i < |r.macros| {
      StartKept(r.macros[i], first.l1, first.combo, at, observe);
    }
  }

  lemma StartKept(m: MacroState, l1: GamepadState, cs: seq<ComboState>, at: Time, observe: bool)
    requires MacroSafe(m) && (m.active ==> m.stepStart <= at)
    ensures CycleSafe(MacroArmed(m, l1, cs, at, observe))
    ensures var m' := MacroAt(MacroArmed(m, l1, cs, at, observe), at);
            m'.active ==> m'.stepStart <= at
  {
    ArmedSafe(m, l1, cs, at, observe);
  }

  lemma {:induction false} RunBegun(mapping: MappingConfig, start: Time, events: seq<Event>, now: Time)
    requires MappingSafe(mapping) && InOrder(events, start)
    requires start <= now && (events != [] ==> events[|events| - 1].at <= now)
    ensures BegunBy(Run(mapping, start, events).runtimes, now)
  {
    if events != [] {
      var init, last := events[..|events| - 1], events[|events| - 1];
      RunBegun(mapping, start, init, last.at);
      ReactBegun(mapping, Run(mapping, start, init), last, last.at);
    }
  }

  /** The engine has seen a quiet frame since which only quiet events arrived. */
  predicate Settling(e: Engine, mapping: MappingConfig, since: Time) {
    && RuntimesOk(e.runtimes, mapping)
    && e.frame.Some? && Quiet(e.frame.value, mapping)
    && WindingDown(e.runtimes, since)
  }

  lemma ReactSettling(mapping: MappingConfig, e: Engine, event: Event, since: Time)
    requires MappingSafe(mapping) && RuntimesOk(e.runtimes, mapping)
    requires event.Source? ==> Quiet(event.frame, mapping) && BegunBy(e.runtimes, since)
    requires event.Poll? ==> Settling(e, mapping, since)
    ensures Settling(React(mapping, e, event), mapping, since)
  {
    ReactKeepsOk(mapping, e, event);
    match event
    case Source(frame, at) => QuietFrame(frame, mapping, e.runtimes, since, at, true);
    case Poll(at) => QuietFrame(e.frame.value, mapping, e.runtimes, since, at, false);
  }

  /** After any run, a quiet frame and quiet events from then on keep the engine settling. */
  lemma {:induction false} QuietRun(mapping: MappingConfig, start: Time, events: seq<Event>, frame: ControllerFrame, since: Time, quiet: seq<Event>)
    requires MappingSafe(mapping) && InOrder(events, start) && start <= since
    requires events != [] ==> events[|events| - 1].at <= since
    requires Quiet(frame, mapping) && AllQuiet(quiet, mapping)
    ensures Settling(Run(mapping, start, events + [Source(frame, since)] + quiet), mapping, since)
    decreases |quiet|
  {
    hide React, RuntimesOk, MappingSafe, Run, Quiet;
    var heard := events + [Source(frame, since)];
    if quiet == [] {
      RunBegun(mapping, start, events, since);
      RunSnoc(mapping, start, events, Source(frame, since));
      ReactSettling(mapping, Run(mapping, start, events), Source(frame, since), since);
      assert heard + quiet == heard;
    } else {
      var n := |quiet| - 1;
      QuietRun(mapping, start, events, frame, since, quiet[..n]);
      SplitLast(heard, quiet);
      RunSnoc(mapping, start, heard + quiet[..n], quiet[n]);
      ReactSettling(mapping, Run(mapping, start, heard + quiet[..n]), quiet[n], since);
    }
  }

  /** No stuck output: once the last release after a quiet frame has passed, any quiet frame or poll outputs nothing. */
  lemma NoStuckOutput(mapping: MappingConfig, start: Time, events: seq<Event>, frame: ControllerFrame, since: Time,
                      quiet: seq<Event>, last: ControllerFrame, now: Time, observe: bool)
    requires MappingSafe(mapping) && InOrder(events, start) && start <= since
    requires events != [] ==> events[|events| - 1].at <= since
    requires Quiet(frame, mapping) && AllQuiet(quiet, mapping) && Quiet(last, mapping)
    requires LastReleasePassed(mapping, since, now)
    ensures var r := Run(mapping, start, events + [Source(frame, since)] + quiet).runtimes;
            var o := Transform(last, mapping, r, now, observe);
            o.output.state.buttons == {} && o.output.keyboard == {} && !o.runtimes.Running()
  {
    QuietRun(mapping, start, events, frame, since, quiet);
    var r := Run(mapping, start, events + [Source(frame, since)] + quiet).runtimes;
    forall i | 0 <= i < |r.macros| ensures since + Ms(MaxRelease(r.macros[i].steps)) <= now {
      var steps := r.macros[i].steps;
      assert MacroMatches(r.macros[i], mapping.macroConfigs[i]);
      assert forall j :: 0 <= j < |steps| ==> steps[j].releaseMs == mapping.macroConfigs[i].steps[j].releaseMs;
    }
    QuietAfterLastRelease(last, mapping, r, since, now, observe);
  }
}

/** The order in which a file's sections are visited, and exactly when it shows (src/config/compile.rs). */
module Visit {
  import opened Model
  import opened Mapping
  import opened Runtime
  import opened Pipeline
  import opened PipelineRuns
  import opened Layers
  import opened Order
  import opened Config
  import opened ConfigCompile
  import opened ConfigCheck

  // --------------------------------------------------------- the last write

  /** The end an axis is pushed to by the last combo that is held and writes it. */
  function LastPush(rules: seq<ComboRule>, shown: GamepadState, axis: Axis): Option<Byte> {
    if rules == [] then None else
    var r := rules[|rules| - 1];
    if shown.Pressed(r.modifier) && shown.Pressed(r.key) && TargetWrites(r.output, axis)
    then Some(StickWrite(r.output.dir).1)
    else LastPush(rules[..|rules| - 1], shown, axis)
  }

  /** The end an axis is pushed to by the last rule that fires and writes it. */
  function LastRule(rules: seq<RemapRule>, l1: GamepadState, axis: Axis): Option<Byte> {
    if rules == [] then None else
    var r := rules[|rules| - 1];
    if l1.Pressed(r.src) && Writes(r, axis) then Some(StickWrite(r.dst.dir).1)
    else LastRule(rules[..|rules| - 1], l1, axis)
  }

  function Else<T>(first: Option<T>, second: Option<T>): Option<T> {
    if first.Some? then first else second
  }

  lemma {:induction false} LastPushConcat(a: seq<ComboRule>, b: seq<ComboRule>, shown: GamepadState, axis: Axis)
    ensures LastPush(a + b, shown, axis) == Else(LastPush(b, shown, axis), LastPush(a, shown, axis))
    decreases |b|
  {
    if b == [] {
      assert a + b == a;
    } else {
      LastPushConcat(a, b[..|b| - 1], shown, axis);
      assert (a + b)[..|a + b| - 1] == a + b[..|b| - 1];
    }
  }

  lemma {:induction false} LastRuleConcat(a: seq<RemapRule>, b: seq<RemapRule>, l1: GamepadState, axis: Axis)
    ensures LastRule(a + b, l1, axis) == Else(LastRule(b, l1, axis), LastRule(a, l1, axis))
    decreases |b|
  {
    if b == [] {
      assert a + b == a;
    } else {
      LastRuleConcat(a, b[..|b| - 1], l1, axis);
      assert (a + b)[..|a + b| - 1] == a + b[..|b| - 1];
    }
  }

  // ------------------------------------------------ an axis of the output

  /** The state the combos are detected against. */
  function ShownLayer(frame: ControllerFrame, mapping: MappingConfig, r: Runtimes, now: Time, observe: bool): GamepadState
    requires forall i :: 0 <= i < |r.turbo| ==> TurboSafe(r.turbo[i])
  {
    var snapshot := Snapshot(frame, mapping);
    TurboEffects(snapshot, r.turbo, TurbosNext(r.turbo, snapshot, now, observe))
  }

  lemma {:induction false} GatheredAxis(rules: seq<RemapRule>, l1: GamepadState, axis: Axis)
    ensures GatherState(rules, l1, l1).Stick(axis) == Else(LastRule(rules, l1, axis), Some(l1.Stick(axis))).value
  {
    if rules != [] {
      GatheredAxis(rules[..|rules| - 1], l1, axis);
    }
  }

  predicate ComboOf(c: ComboState, rule: ComboRule, shown: GamepadState) {
    c == ComboState(rule.modifier, rule.key, rule.output, shown.Pressed(rule.modifier) && shown.Pressed(rule.key))
  }

  lemma {:induction false} PushedAxis(cs: seq<ComboState>, rules: seq<ComboRule>, shown: GamepadState, state: GamepadState, axis: Axis)
    requires |cs| == |rules| && forall i :: 0 <= i < |cs| ==> ComboOf(cs[i], rules[i], shown)
    ensures PushAll(state, Triggered(cs)).Stick(axis) == Else(LastPush(rules, shown, axis), Some(state.Stick(axis))).value
    decreases |cs|
  {
    if cs != [] {
      hide ComboOf;
      var n := |cs| - 1;
      PushedAxis(cs[..n], rules[..n], shown, state, axis);
      PushOneMore(cs, rules[n], shown, state, axis);
    }
  }

  lemma PushOneMore(cs: seq<ComboState>, rule: ComboRule, shown: GamepadState, state: GamepadState, axis: Axis)
    requires cs != [] && ComboOf(cs[|cs| - 1], rule, shown)
    ensures var before := PushAll(state, Triggered(cs[..|cs| - 1])).Stick(axis);
            PushAll(state, Triggered(cs)).Stick(axis)
            == if shown.Pressed(rule.modifier) && shown.Pressed(rule.key) && TargetWrites(rule.output, axis)
               then StickWrite(rule.output.dir).1 else before
  {
    var n := |cs| - 1;
    var before := Triggered(cs[..n]);
    if cs[n].active {
      assert Triggered(cs) == before + [cs[n].output];
      assert (before + [cs[n].output])[..|before|] == before;
    }
  }

  lemma CombosOfRules(m: MappingConfig, r: Runtimes, shown: GamepadState)
    requires RuntimesOk(r, m)
    ensures var cs := CombosNext(r.combo, shown);
            |cs| == |m.comboConfigs| && forall i :: 0 <= i < |cs| ==> ComboOf(cs[i], m.comboConfigs[i], shown)
  {
    hide MacroSafe, TurboSafe, MacroMatches;
    var cs := CombosNext(r.combo, shown);
    forall i | 0 <= i < |cs| ensures ComboOf(cs[i], m.comboConfigs[i], shown) {
      assert r.combo[i].(active := false) == FreshCombo(m.comboConfigs[i]);
    }
  }

  /** An axis as an ordered list of writes leaves it: the last combo, else the last rule, else the first layer. */
  function AxisValue(m: MappingConfig, l1: GamepadState, shown: GamepadState, axis: Axis): Byte {
    Else(LastPush(m.comboConfigs, shown, axis), Else(LastRule(m.rules, l1, axis), Some(l1.Stick(axis)))).value
  }

  lemma AxisIs(frame: ControllerFrame, m: MappingConfig, r: Runtimes, now: Time, observe: bool, axis: Axis)
    requires RuntimesOk(r, m)
    ensures Transform(frame, m, r, now, observe).output.state.Stick(axis)
            == AxisValue(m, Filter(frame, m, r, now, observe).l1, ShownLayer(frame, m, r, now, observe), axis)
  {
    var first, shown := Filter(frame, m, r, now, observe), ShownLayer(frame, m, r, now, observe);
    assert first.combo == CombosNext(r.combo, shown);
    CombosOfRules(m, r, shown);
    AllArmedSafe(r.macros, first.l1, first.combo, now, observe);
    hide Filter, ShownLayer, CombosNext, MacrosAt, MacrosArmed, Gather, PressAll, Contributions, MacroSafe, Matches;
    hide GatherState, PushAll, Triggered, LastPush, LastRule, ComboOf;
    PushedAxis(first.combo, m.comboConfigs, shown, GatherState(m.rules, first.l1, first.l1), axis);
    GatheredAxis(m.rules, first.l1, axis);
  }

  // ------------------------------------------------------- votes by section

  /** What the last section in the order with an opinion says. */
  function LastOf(order: seq<string>, vote: string -> Option<Byte>): Option<Byte> {
    if order == [] then None
    else Else(vote(order[|order| - 1]), LastOf(order[..|order| - 1], vote))
  }

  function ComboVote(cfg: ConfigFile, keys: KeyTable, shown: GamepadState, axis: Axis): string -> Option<Byte> {
    name => LastPush(SectionCombos(name, cfg, keys), shown, axis)
  }

  function RuleVote(cfg: ConfigFile, keys: KeyTable, l1: GamepadState, axis: Axis): string -> Option<Byte> {
    name => LastRule(SectionRules(name, cfg, keys), l1, axis)
  }

  lemma {:induction false} CombosInLast(order: seq<string>, cfg: ConfigFile, keys: KeyTable, shown: GamepadState, axis: Axis)
    ensures LastPush(CombosIn(order, cfg, keys), shown, axis) == LastOf(order, ComboVote(cfg, keys, shown, axis))
  {
    hide SectionCombos, LastPush;
    if order == [] {
      NoPush(shown, axis);
    } else {
      var init, last := order[..|order| - 1], order[|order| - 1];
      CombosInLast(init, cfg, keys, shown, axis);
      LastPushConcat(CombosIn(init, cfg, keys), SectionCombos(last, cfg, keys), shown, axis);
    }
  }

  lemma NoPush(shown: GamepadState, axis: Axis)
    ensures LastPush([], shown, axis) == None
  {
  }

  lemma {:induction false} RulesInLast(order: seq<string>, cfg: ConfigFile, keys: KeyTable, l1: GamepadState, axis: Axis)
    ensures LastRule(RulesIn(order, cfg, keys), l1, axis) == LastOf(order, RuleVote(cfg, keys, l1, axis))
  {
    hide SectionRules, LastRule;
    if order == [] {
      NoRule(l1, axis);
    } else {
      var init, last := order[..|order| - 1], order[|order| - 1];
      RulesInLast(init, cfg, keys, l1, axis);
      LastRuleConcat(RulesIn(init, cfg, keys), SectionRules(last, cfg, keys), l1, axis);
    }
  }

  lemma NoRule(l1: GamepadState, axis: Axis)
    ensures LastRule([], l1, axis) == None
  {
  }

  /** Two sections say different things. */
  ghost predicate Disagree(names: set<string>, vote: string -> Option<Byte>) {
    exists a, b :: a in names && b in names && vote(a).Some? && vote(b).Some? && vote(a) != vote(b)
  }

  ghost predicate SomeVote(names: set<string>, vote: string -> Option<Byte>) {
    exists a :: a in names && vote(a).Some?
  }

  lemma {:induction false} LastOfIsAVote(order: seq<string>, vote: string -> Option<Byte>)
    ensures if LastOf(order, vote).Some? then exists a :: a in order && vote(a) == LastOf(order, vote)
            else forall a :: a in order ==> vote(a).None?
  {
    if order != [] {
      LastOfIsAVote(order[..|order| - 1], vote);
      assert order == order[..|order| - 1] + [order[|order| - 1]];
    }
  }

  /** Without disagreement every visit ends with the same vote. */
  lemma VotesAgree(order: seq<string>, order': seq<string>, names: set<string>, vote: string -> Option<Byte>)
    requires Visits(order, names) && Visits(order', names) && !Disagree(names, vote)
    ensures LastOf(order, vote) == LastOf(order', vote)
    ensures LastOf(order, vote).Some? <==> SomeVote(names, vote)
  {
    LastOfIsAVote(order, vote);
    LastOfIsAVote(order', vote);
  }

  lemma VoteExists(order: seq<string>, names: set<string>, vote: string -> Option<Byte>)
    requires Visits(order, names)
    ensures LastOf(order, vote).Some? <==> SomeVote(names, vote)
  {
    LastOfIsAVote(order, vote);
  }

  /** A visit that comes to this section last. */
  lemma VisitLast(order: seq<string>, names: set<string>, last: string) returns (order': seq<string>)
    requires Visits(order, names) && last in names
    ensures Visits(order', names) && order' != [] && order'[|order'| - 1] == last
  {
    var i :| 0 <= i < |order| && order[i] == last;
    order' := order[..i] + order[i + 1..] + [last];
    forall name ensures name in order' <==> name in names {
      if name in order {
        var j :| 0 <= j < |order| && order[j] == name;
        if j < i {
          assert order'[j] == name;
        } else if j > i {
          assert order'[j - 1] == name;
        } else {
          assert order'[|order'| - 1] == name;
        }
      }
    }
  }

  // ------------------------------------------------------- the exact condition

  /**
   * When the visiting order shows on an axis: two sections' held combos push it to different ends; or no
   * combo writes it, no half of a split touchpad does, and two sections' fired rules push it differently.
   */
  ghost predicate VisitClash(cfg: ConfigFile, keys: KeyTable, l1: GamepadState, shown: GamepadState, axis: Axis) {
    var names := cfg.buttons.Keys;
    if SomeVote(names, ComboVote(cfg, keys, shown, axis)) then Disagree(names, ComboVote(cfg, keys, shown, axis))
    else LastRule(ChildRules(cfg, keys), l1, axis).None? && Disagree(names, RuleVote(cfg, keys, l1, axis))
  }

  lemma AxisByVotes(cfg: ConfigFile, keys: KeyTable, order: seq<string>, m: MappingConfig, l1: GamepadState,
                    shown: GamepadState, axis: Axis)
    requires CompiledIn(order, cfg, keys, m)
    ensures AxisValue(m, l1, shown, axis)
            == Else(LastOf(order, ComboVote(cfg, keys, shown, axis)),
                    Else(LastRule(ChildRules(cfg, keys), l1, axis),
                         Else(LastOf(order, RuleVote(cfg, keys, l1, axis)), Some(l1.Stick(axis))))).value
  {
    hide LastPush, LastRule, LastOf, ComboVote, RuleVote, ChildRules, RulesIn, CombosIn, Visits;
    CombosInLast(order, cfg, keys, shown, axis);
    LastRuleConcat(RulesIn(order, cfg, keys), ChildRules(cfg, keys), l1, axis);
    RulesInLast(order, cfg, keys, l1, axis);
  }

  /** No clash: two visits leave the axis alike. */
  lemma AxisAgrees(cfg: ConfigFile, keys: KeyTable, order: seq<string>, order': seq<string>, m: MappingConfig, m': MappingConfig,
                   l1: GamepadState, shown: GamepadState, axis: Axis)
    requires CompiledIn(order, cfg, keys, m) && CompiledIn(order', cfg, keys, m')
    requires !VisitClash(cfg, keys, l1, shown, axis)
    ensures AxisValue(m, l1, shown, axis) == AxisValue(m', l1, shown, axis)
  {
    var names, combos, rules := cfg.buttons.Keys, ComboVote(cfg, keys, shown, axis), RuleVote(cfg, keys, l1, axis);
    AxisByVotes(cfg, keys, order, m, l1, shown, axis);
    AxisByVotes(cfg, keys, order', m', l1, shown, axis);
    hide AxisValue, LastPush, LastRule, LastOf, ComboVote, RuleVote, ChildRules, RulesIn, CombosIn, Visits;
    VoteExists(order, names, combos);
    VoteExists(order', names, combos);
    if SomeVote(names, combos) {
      VotesAgree(order, order', names, combos);
    } else if LastRule(ChildRules(cfg, keys), l1, axis).None? {
      VotesAgree(order, order', names, rules);
    }
  }

  /** A clash: some visit ends the axis with a given section's vote. */
  lemma AxisDecided(cfg: ConfigFile, keys: KeyTable, order: seq<string>, m: MappingConfig,
                    l1: GamepadState, shown: GamepadState, axis: Axis)
    requires CompiledIn(order, cfg, keys, m) && order != []
    ensures var last := order[|order| - 1];
            && (ComboVote(cfg, keys, shown, axis)(last).Some? ==>
                  Some(AxisValue(m, l1, shown, axis)) == ComboVote(cfg, keys, shown, axis)(last))
            && (!SomeVote(cfg.buttons.Keys, ComboVote(cfg, keys, shown, axis))
                && LastRule(ChildRules(cfg, keys), l1, axis).None? && RuleVote(cfg, keys, l1, axis)(last).Some? ==>
                  Some(AxisValue(m, l1, shown, axis)) == RuleVote(cfg, keys, l1, axis)(last))
  {
    AxisByVotes(cfg, keys, order, m, l1, shown, axis);
    hide AxisValue, LastPush, LastRule, ComboVote, RuleVote, ChildRules, RulesIn, CombosIn, Visits;
    VoteExists(order, cfg.buttons.Keys, ComboVote(cfg, keys, shown, axis));
  }

  // --------------------------------------------------------- compilations

  /** A mapping that compiling the file can give, for some visiting order. */
  ghost predicate Compilation(cfg: ConfigFile, keys: KeyTable, m: MappingConfig) {
    CompiledFrom(cfg, keys, m) && exists order :: CompiledIn(order, cfg, keys, m)
  }

  lemma CompilationsAlike(cfg: ConfigFile, keys: KeyTable, m: MappingConfig, m': MappingConfig)
    requires CompiledFrom(cfg, keys, m) && CompiledFrom(cfg, keys, m')
    ensures AlikeMappings(m, m')
  {
    hide IsRuleOf, IsChildRule, IsBlockOf, IsComboOf, IsTurboOf, FromMacro, CompilesSplit;
  }

  /** Section names are canonical, so no button has two turbos. */
  lemma OneTurboPerButton(cfg: ConfigFile, keys: KeyTable, m: MappingConfig)
    requires Acceptable(cfg, keys) && CompiledFrom(cfg, keys, m)
    ensures OneTurboConfigEach(m.turboConfigs)
  {
    hide IsRuleOf, IsChildRule, IsBlockOf, IsComboOf, FromMacro, CompilesSplit, MacroOk, SplitOk, FromName, Name;
    forall c, d | c in m.turboConfigs && d in m.turboConfigs && c.src == d.src ensures c == d {
      var a :| a in cfg.buttons && IsTurboOf(c, a, cfg.buttons[a]);
      var b :| b in cfg.buttons && IsTurboOf(d, b, cfg.buttons[b]);
      assert ButtonOk(a, cfg.buttons[a], cfg.macros, keys) && ButtonOk(b, cfg.buttons[b], cfg.macros, keys);
      assert a == Name(c.src) && b == Name(d.src);
    }
  }

  lemma {:induction false} RulesInMembers(order: seq<string>, cfg: ConfigFile, keys: KeyTable)
    ensures forall rule :: rule in RulesIn(order, cfg, keys) <==>
              exists name :: name in order && rule in SectionRules(name, cfg, keys)
  {
    hide SectionRules;
    if order != [] {
      RulesInMembers(order[..|order| - 1], cfg, keys);
      assert order == order[..|order| - 1] + [order[|order| - 1]];
    }
  }

  lemma {:induction false} CombosInMembers(order: seq<string>, cfg: ConfigFile, keys: KeyTable)
    ensures forall rule :: rule in CombosIn(order, cfg, keys) <==>
              exists name :: name in order && rule in SectionCombos(name, cfg, keys)
  {
    hide SectionCombos;
    if order != [] {
      CombosInMembers(order[..|order| - 1], cfg, keys);
      assert order == order[..|order| - 1] + [order[|order| - 1]];
    }
  }

  /** The same compilation with its sections visited in another order. */
  lemma Revisited(cfg: ConfigFile, keys: KeyTable, m: MappingConfig, order: seq<string>, order': seq<string>)
    returns (m': MappingConfig)
    requires CompiledFrom(cfg, keys, m) && CompiledIn(order, cfg, keys, m) && Visits(order', cfg.buttons.Keys)
    ensures CompiledFrom(cfg, keys, m') && CompiledIn(order', cfg, keys, m')
  {
    hide IsRuleOf, IsChildRule, IsBlockOf, IsComboOf, IsTurboOf, FromMacro, CompilesSplit, SectionRules, SectionCombos;
    hide RulesIn, CombosIn, ChildRules;
    m' := m.(rules := RulesIn(order', cfg, keys) + ChildRules(cfg, keys), comboConfigs := CombosIn(order', cfg, keys));
    RulesInMembers(order, cfg, keys);
    RulesInMembers(order', cfg, keys);
    CombosInMembers(order, cfg, keys);
    CombosInMembers(order', cfg, keys);
    assert forall name :: name in order <==> name in order';
    assert forall rule :: rule in m'.rules <==> rule in m.rules;
    assert forall rule :: rule in m'.comboConfigs <==> rule in m.comboConfigs;
    hide Visits;
  }

  // -------------------------------------------------------------- whole runs

  /** One stick axis of a transform after a run. */
  function AxisAfter(m: MappingConfig, start: Time, events: seq<Event>, frame: ControllerFrame, now: Time, observe: bool,
                     axis: Axis): Byte
    requires MappingSafe(m)
  {
    Transform(frame, m, Run(m, start, events).runtimes, now, observe).output.state.Stick(axis)
  }

  /** The first layer and the state the combos see after a run. */
  function LayerAfter(m: MappingConfig, start: Time, events: seq<Event>, frame: ControllerFrame, now: Time, observe: bool): GamepadState
    requires MappingSafe(m)
  {
    Filter(frame, m, Run(m, start, events).runtimes, now, observe).l1
  }

  function ShownAfter(m: MappingConfig, start: Time, events: seq<Event>, frame: ControllerFrame, now: Time, observe: bool): GamepadState
    requires MappingSafe(m)
  {
    ShownLayer(frame, m, Run(m, start, events).runtimes, now, observe)
  }

  /** Two compilations of one file show the same layers after the same run. */
  lemma LayersAgree(cfg: ConfigFile, keys: KeyTable, m: MappingConfig, m': MappingConfig, start: Time, events: seq<Event>,
                    frame: ControllerFrame, now: Time, observe: bool)
    requires Acceptable(cfg, keys) && CompiledFrom(cfg, keys, m) && CompiledFrom(cfg, keys, m')
    ensures MappingSafe(m) && MappingSafe(m')
    ensures LayerAfter(m, start, events, frame, now, observe) == LayerAfter(m', start, events, frame, now, observe)
    ensures ShownAfter(m, start, events, frame, now, observe) == ShownAfter(m', start, events, frame, now, observe)
  {
    AcceptableIsSafe(cfg, keys, m);
    AcceptableIsSafe(cfg, keys, m');
    CompilationsAlike(cfg, keys, m, m');
    OneTurboPerButton(cfg, keys, m);
    hide Acceptable, CompiledFrom, MappingSafe, Run, OneTurboEach, OneTurboConfigEach;
    RunsAlike(m, m', start, events);
    var r, r' := Run(m, start, events).runtimes, Run(m', start, events).runtimes;
    FirstLayerAlike(frame, m, m', r, r', now, observe);
    assert forall t :: t in r.turbo ==> TurboSafe(t);
    hide Matches, MacroSafe, TurboSafe, TurbosNext, TurboEffects, Filter;
    ShownAlike(r.turbo, r'.turbo, Snapshot(frame, m), now, observe);
  }

  /** An axis after a run, from the compiled lists and the layers. */
  lemma AxisAfterIs(cfg: ConfigFile, keys: KeyTable, m: MappingConfig, start: Time, events: seq<Event>, frame: ControllerFrame,
                    now: Time, observe: bool, axis: Axis)
    requires MappingSafe(m)
    ensures AxisAfter(m, start, events, frame, now, observe, axis)
            == AxisValue(m, LayerAfter(m, start, events, frame, now, observe), ShownAfter(m, start, events, frame, now, observe), axis)
  {
    hide Run, Transform, Filter, ShownLayer, AxisValue;
    AxisIs(frame, m, Run(m, start, events).runtimes, now, observe, axis);
  }

  /** Two compilations of the file can leave the axis differently. */
  ghost predicate OrderShows(cfg: ConfigFile, keys: KeyTable, start: Time, events: seq<Event>, frame: ControllerFrame,
                             now: Time, observe: bool, axis: Axis) {
    exists m1, m2 :: Compilation(cfg, keys, m1) && Compilation(cfg, keys, m2) && MappingSafe(m1) && MappingSafe(m2)
      && AxisAfter(m1, start, events, frame, now, observe, axis) != AxisAfter(m2, start, events, frame, now, observe, axis)
  }

  /** The visiting order shows on an axis, after a run, exactly when the layers clash there. */
  lemma OrderShowsExactly(cfg: ConfigFile, keys: KeyTable, m: MappingConfig, start: Time, events: seq<Event>,
                          frame: ControllerFrame, now: Time, observe: bool, axis: Axis)
    requires Acceptable(cfg, keys) && Compilation(cfg, keys, m)
    ensures MappingSafe(m)
    ensures OrderShows(cfg, keys, start, events, frame, now, observe, axis) <==>
            VisitClash(cfg, keys, LayerAfter(m, start, events, frame, now, observe),
                       ShownAfter(m, start, events, frame, now, observe), axis)
  {
    hide Acceptable, CompiledFrom, CompiledIn, MappingSafe, AxisAfter, LayerAfter, ShownAfter, VisitClash, AxisValue, Run;
    AcceptableIsSafe(cfg, keys, m);
    var l1, shown := LayerAfter(m, start, events, frame, now, observe), ShownAfter(m, start, events, frame, now, observe);
    if OrderShows(cfg, keys, start, events, frame, now, observe, axis) {
      var m1, m2 :| Compilation(cfg, keys, m1) && Compilation(cfg, keys, m2) && MappingSafe(m1) && MappingSafe(m2)
        && AxisAfter(m1, start, events, frame, now, observe, axis) != AxisAfter(m2, start, events, frame, now, observe, axis);
      var o1 :| CompiledIn(o1, cfg, keys, m1);
      var o2 :| CompiledIn(o2, cfg, keys, m2);
      LayersAgree(cfg, keys, m, m1, start, events, frame, now, observe);
      LayersAgree(cfg, keys, m, m2, start, events, frame, now, observe);
      AxisAfterIs(cfg, keys, m1, start, events, frame, now, observe, axis);
      AxisAfterIs(cfg, keys, m2, start, events, frame, now, observe, axis);
      if !VisitClash(cfg, keys, l1, shown, axis) {
        AxisAgrees(cfg, keys, o1, o2, m1, m2, l1, shown, axis);
      }
    }
    if VisitClash(cfg, keys, l1, shown, axis) {
      ClashIsSeen(cfg, keys, m, start, events, frame, now, observe, axis);
    }
  }

  /** The two sections that clash, and which votes decide. */
  lemma ClashingSections(cfg: ConfigFile, keys: KeyTable, l1: GamepadState, shown: GamepadState, axis: Axis)
    returns (a: string, b: string)
    requires VisitClash(cfg, keys, l1, shown, axis)
    ensures a in cfg.buttons && b in cfg.buttons
    ensures
      var combos, rules := ComboVote(cfg, keys, shown, axis), RuleVote(cfg, keys, l1, axis);
      || (combos(a).Some? && combos(b).Some? && combos(a) != combos(b))
      || (!SomeVote(cfg.buttons.Keys, combos) && LastRule(ChildRules(cfg, keys), l1, axis).None?
          && rules(a).Some? && rules(b).Some? && rules(a) != rules(b))
  {
    var combos, rules := ComboVote(cfg, keys, shown, axis), RuleVote(cfg, keys, l1, axis);
    hide ComboVote, RuleVote, LastRule, ChildRules;
    if SomeVote(cfg.buttons.Keys, combos) {
      a, b :| a in cfg.buttons.Keys && b in cfg.buttons.Keys && combos(a).Some? && combos(b).Some? && combos(a) != combos(b);
    } else {
      a, b :| a in cfg.buttons.Keys && b in cfg.buttons.Keys && rules(a).Some? && rules(b).Some? && rules(a) != rules(b);
    }
  }

  lemma ClashIsSeen(cfg: ConfigFile, keys: KeyTable, m: MappingConfig, start: Time, events: seq<Event>,
                    frame: ControllerFrame, now: Time, observe: bool, axis: Axis)
    requires Acceptable(cfg, keys) && Compilation(cfg, keys, m) && MappingSafe(m)
    requires VisitClash(cfg, keys, LayerAfter(m, start, events, frame, now, observe),
                        ShownAfter(m, start, events, frame, now, observe), axis)
    ensures OrderShows(cfg, keys, start, events, frame, now, observe, axis)
  {
    hide Acceptable, CompiledFrom, MappingSafe, AxisAfter, LayerAfter, ShownAfter, VisitClash, Visits;
    hide ComboVote, RuleVote, LastRule, ChildRules, AxisValue, Run, SomeVote, RulesIn, CombosIn;
    var l1, shown := LayerAfter(m, start, events, frame, now, observe), ShownAfter(m, start, events, frame, now, observe);
    var order :| CompiledIn(order, cfg, keys, m);
    assert Visits(order, cfg.buttons.Keys);
    hide CompiledIn;
    var a, b := ClashingSections(cfg, keys, l1, shown, axis);
    var m1 := DecidedBy(cfg, keys, m, order, start, events, frame, now, observe, axis, a);
    var m2 := DecidedBy(cfg, keys, m, order, start, events, frame, now, observe, axis, b);
    assert AxisAfter(m1, start, events, frame, now, observe, axis) != AxisAfter(m2, start, events, frame, now, observe, axis);
  }

  /** A compilation in which this section comes last and so decides an axis it votes on. */
  lemma DecidedBy(cfg: ConfigFile, keys: KeyTable, m: MappingConfig, order: seq<string>, start: Time, events: seq<Event>,
                  frame: ControllerFrame, now: Time, observe: bool, axis: Axis, last: string)
    returns (m': MappingConfig)
    requires Acceptable(cfg, keys) && CompiledFrom(cfg, keys, m) && CompiledIn(order, cfg, keys, m) && MappingSafe(m)
    requires Visits(order, cfg.buttons.Keys) && last in cfg.buttons
    ensures Compilation(cfg, keys, m') && MappingSafe(m')
    ensures var l1, shown := LayerAfter(m, start, events, frame, now, observe), ShownAfter(m, start, events, frame, now, observe);
            var combos, rules := ComboVote(cfg, keys, shown, axis), RuleVote(cfg, keys, l1, axis);
            && (combos(last).Some? ==> Some(AxisAfter(m', start, events, frame, now, observe, axis)) == combos(last))
            && (!SomeVote(cfg.buttons.Keys, combos) && LastRule(ChildRules(cfg, keys), l1, axis).None? && rules(last).Some? ==>
                  Some(AxisAfter(m', start, events, frame, now, observe, axis)) == rules(last))
  {
    hide Acceptable, CompiledFrom, CompiledIn, MappingSafe, AxisAfter, LayerAfter, ShownAfter, Visits;
    hide ComboVote, RuleVote, LastRule, ChildRules, AxisValue;
    var order' := VisitLast(order, cfg.buttons.Keys, last);
    m' := Revisited(cfg, keys, m, order, order');
    LayersAgree(cfg, keys, m, m', start, events, frame, now, observe);
    AxisAfterIs(cfg, keys, m', start, events, frame, now, observe, axis);
    AxisDecided(cfg, keys, order', m', LayerAfter(m, start, events, frame, now, observe),
                ShownAfter(m, start, events, frame, now, observe), axis);
  }

  /**
   * Two compilations of one accepted file, its sections visited in any orders: after every run every
   * output agrees but for the stick axes on which the order shows.
   */
  lemma VisitOrderHidden(cfg: ConfigFile, keys: KeyTable, m: MappingConfig, m': MappingConfig, start: Time, events: seq<Event>,
                         frame: ControllerFrame, now: Time, observe: bool)
    requires Acceptable(cfg, keys) && Compilation(cfg, keys, m) && Compilation(cfg, keys, m')
    ensures MappingSafe(m) && MappingSafe(m')
    ensures var o := Transform(frame, m, Run(m, start, events).runtimes, now, observe);
            var o' := Transform(frame, m', Run(m', start, events).runtimes, now, observe);
            var s, s' := o.output.state, o'.output.state;
            && o.output.keyboard == o'.output.keyboard
            && s == s'.(leftX := s.leftX, leftY := s.leftY, rightX := s.rightX, rightY := s.rightY)
            && forall axis :: s.Stick(axis) == s'.Stick(axis)
                              || VisitClash(cfg, keys, LayerAfter(m, start, events, frame, now, observe),
                                            ShownAfter(m, start, events, frame, now, observe), axis)
  {
    hide Acceptable, CompiledFrom, CompiledIn, MappingSafe, Run, Transform, VisitClash, Clash, OneTurboConfigEach, Filter;
    hide ShownLayer, AlikeMappings, AlikeRuntimes, OneTurboEach;
    AcceptableIsSafe(cfg, keys, m);
    AcceptableIsSafe(cfg, keys, m');
    CompilationsAlike(cfg, keys, m, m');
    OneTurboPerButton(cfg, keys, m);
    RunsAlike(m, m', start, events);
    OrderHidden(frame, m, m', Run(m, start, events).runtimes, Run(m', start, events).runtimes, now, observe);
    forall axis: Axis
      ensures AxisAfter(m, start, events, frame, now, observe, axis) == AxisAfter(m', start, events, frame, now, observe, axis)
              || VisitClash(cfg, keys, LayerAfter(m, start, events, frame, now, observe),
                            ShownAfter(m, start, events, frame, now, observe), axis)
    {
      OrderShowsExactly(cfg, keys, m, start, events, frame, now, observe, axis);
    }
  }
}

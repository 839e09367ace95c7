/** Two accepted files and a frame on which the visiting order shows. */
module ClashExample {
  import opened Model
  import opened Mapping
  import opened Runtime
  import opened Pipeline
  import opened PipelineRuns
  import opened Layers
  import opened Config
  import opened ConfigCompile
  import opened ConfigCheck
  import opened Visit

  function Remapped(remap: string, combos: seq<ComboConfig>): ButtonConfig {
    ButtonConfig(Some(remap), false, 0, 0, combos)
  }

  /** Cross pushes the left stick up, circle pushes it down. */
  const RULES_FILE: ConfigFile :=
    ConfigFile(2, "auto", map["cross" := Remapped("ls_up", []), "circle" := Remapped("ls_down", [])], map[])

  const RULES_MAPPING: MappingConfig :=
    MappingConfig([RemapRule(Cross, Stick(LsUp)), RemapRule(Circle, Stick(LsDown))], false, [], [], [], [])

  /** L1 with cross pushes the left stick up, R1 with circle pushes it down. */
  const COMBOS_FILE: ConfigFile :=
    ConfigFile(2, "auto", map["l1" := Remapped("combo", [ComboConfig("cross", "ls_up")]),
                              "r1" := Remapped("combo", [ComboConfig("circle", "ls_down")])], map[])

  const COMBOS_MAPPING: MappingConfig :=
    MappingConfig([], false, [], [], [ComboRule(L1, Cross, Stick(LsUp)), ComboRule(R1, Circle, Stick(LsDown))], [])

  /** All four buttons held. */
  function HeldFrame(): ControllerFrame {
    ControllerFrame(NEUTRAL.(buttons := {Cross, Circle, L1, R1}), seq(REPORT_SIZE, _ => 0))
  }

  lemma Spelled()
    ensures FromName("cross") == Some(Cross) && FromName("circle") == Some(Circle)
    ensures FromName("l1") == Some(L1) && FromName("r1") == Some(R1)
  {
    assert Lower("cross") == "cross" && Lower("circle") == "circle";
    assert Lower("l1") == "l1" && Lower("r1") == "r1";
  }

  lemma Targets(macros: Macros, keys: KeyTable)
    ensures ParseTarget("ls_up", macros, keys) == Some(StickTarget(LsUp))
    ensures ParseTarget("ls_down", macros, keys) == Some(StickTarget(LsDown))
    ensures ParseTarget("combo", macros, keys) == Some(ComboMode)
  {
  }

  /** A visit of two sections. */
  lemma TwoSections(a: string, b: string, cfg: ConfigFile, keys: KeyTable)
    requires a != b && cfg.buttons.Keys == {a, b}
    ensures Visits([a, b], cfg.buttons.Keys)
    ensures RulesIn([a, b], cfg, keys) == SectionRules(a, cfg, keys) + SectionRules(b, cfg, keys)
    ensures CombosIn([a, b], cfg, keys) == SectionCombos(a, cfg, keys) + SectionCombos(b, cfg, keys)
  {
    hide SectionRules, SectionCombos;
    var both, one := [a, b], [a];
    assert both[..1] == one && one[..0] == [];
    assert RulesIn(one, cfg, keys) == SectionRules(a, cfg, keys);
    assert CombosIn(one, cfg, keys) == SectionCombos(a, cfg, keys);
  }

  /** With no turbos, combos' effects or blocks in the way every layer is the physical state. */
  lemma PlainLayers(m: MappingConfig, start: Time, now: Time)
    requires MappingSafe(m) && !m.splitTouchpad && m.turboConfigs == [] && m.blockedButtons == []
    ensures ShownAfter(m, start, [], HeldFrame(), now, true) == HeldFrame().state
    ensures m.comboConfigs == [] ==> LayerAfter(m, start, [], HeldFrame(), now, true).buttons == HeldFrame().state.buttons
  {
    var r := Run(m, start, []).runtimes;
    assert r == FreshRuntimes(m, start);
    assert TurbosNext(r.turbo, Snapshot(HeldFrame(), m), now, true) == [];
  }

  // ------------------------------------------------------------ clashing rules

  lemma RulesFileAcceptable(keys: KeyTable)
    ensures Acceptable(RULES_FILE, keys)
  {
    Spelled();
    TouchpadNames();
    Targets(map[], keys);
    hide FromName, ParseTarget;
    assert ButtonOk("cross", RULES_FILE.buttons["cross"], map[], keys);
    assert ButtonOk("circle", RULES_FILE.buttons["circle"], map[], keys);
  }

  lemma RulesFileSections(keys: KeyTable)
    ensures !CompilesSplit(RULES_FILE) && ChildRules(RULES_FILE, keys) == []
    ensures SectionRules("cross", RULES_FILE, keys) == [RemapRule(Cross, Stick(LsUp))]
    ensures SectionRules("circle", RULES_FILE, keys) == [RemapRule(Circle, Stick(LsDown))]
    ensures SectionCombos("cross", RULES_FILE, keys) == [] == SectionCombos("circle", RULES_FILE, keys)
  {
    Spelled();
    Targets(map[], keys);
    hide FromName, ParseTarget;
  }

  lemma RulesFileMembers(keys: KeyTable)
    ensures CompiledFrom(RULES_FILE, keys, RULES_MAPPING)
  {
    RulesFileSections(keys);
    Targets(map[], keys);
    hide FromName, ParseTarget, CompilesSplit, SectionRules, SectionCombos;
    SectionMembers("cross", RULES_FILE, keys);
    SectionMembers("circle", RULES_FILE, keys);
    hide IsRuleOf, IsComboOf;
  }

  lemma RulesFileCompiles(keys: KeyTable)
    ensures Compilation(RULES_FILE, keys, RULES_MAPPING)
  {
    RulesFileMembers(keys);
    RulesFileSections(keys);
    TwoSections("cross", "circle", RULES_FILE, keys);
    hide SectionRules, SectionCombos, ChildRules, RulesIn, CombosIn, Visits, CompiledFrom;
    assert CompiledIn(["cross", "circle"], RULES_FILE, keys, RULES_MAPPING);
  }

  lemma RulesVotes(keys: KeyTable, l1: GamepadState, shown: GamepadState)
    requires l1.Pressed(Cross) && l1.Pressed(Circle)
    ensures VisitClash(RULES_FILE, keys, l1, shown, LeftY)
  {
    RulesFileSections(keys);
    hide SectionRules, SectionCombos, ChildRules, CompilesSplit;
    var votes := RuleVote(RULES_FILE, keys, l1, LeftY);
    assert votes("cross") == Some(0) && votes("circle") == Some(255);
    assert "cross" in RULES_FILE.buttons.Keys && "circle" in RULES_FILE.buttons.Keys;
    assert Disagree(RULES_FILE.buttons.Keys, votes);
    assert !SomeVote(RULES_FILE.buttons.Keys, ComboVote(RULES_FILE, keys, shown, LeftY));
  }

  /** An accepted file whose two remaps fight over the left stick: which one wins depends on the visiting order. */
  lemma RulesClashInAFile(keys: KeyTable, start: Time, now: Time)
    ensures Acceptable(RULES_FILE, keys)
    ensures OrderShows(RULES_FILE, keys, start, [], HeldFrame(), now, true, LeftY)
  {
    RulesFileAcceptable(keys);
    RulesFileCompiles(keys);
    hide Acceptable, Compilation, OrderShows, VisitClash;
    OrderShowsExactly(RULES_FILE, keys, RULES_MAPPING, start, [], HeldFrame(), now, true, LeftY);
    PlainLayers(RULES_MAPPING, start, now);
    hide LayerAfter, ShownAfter, MappingSafe;
    RulesVotes(keys, LayerAfter(RULES_MAPPING, start, [], HeldFrame(), now, true),
               ShownAfter(RULES_MAPPING, start, [], HeldFrame(), now, true));
  }

  // ----------------------------------------------------------- clashing combos

  lemma CombosFileAcceptable(keys: KeyTable)
    ensures Acceptable(COMBOS_FILE, keys)
  {
    Spelled();
    TouchpadNames();
    Targets(map[], keys);
    hide FromName, ParseTarget;
    assert ButtonOk("l1", COMBOS_FILE.buttons["l1"], map[], keys);
    assert ButtonOk("r1", COMBOS_FILE.buttons["r1"], map[], keys);
  }

  lemma CombosFileSections(keys: KeyTable)
    ensures !CompilesSplit(COMBOS_FILE) && ChildRules(COMBOS_FILE, keys) == []
    ensures SectionRules("l1", COMBOS_FILE, keys) == [] == SectionRules("r1", COMBOS_FILE, keys)
    ensures SectionCombos("l1", COMBOS_FILE, keys) == [ComboRule(L1, Cross, Stick(LsUp))]
    ensures SectionCombos("r1", COMBOS_FILE, keys) == [ComboRule(R1, Circle, Stick(LsDown))]
  {
    Spelled();
    Targets(map[], keys);
    hide FromName, ParseTarget;
    assert !CompilesSplit(COMBOS_FILE);
    OneCombo(L1, ComboConfig("cross", "ls_up"), keys);
    OneCombo(R1, ComboConfig("circle", "ls_down"), keys);
  }

  lemma OneCombo(src: Button, combo: ComboConfig, keys: KeyTable)
    ensures CombosOf(src, [combo], map[], keys)
            == match ComboRuleOf(src, combo, map[], keys) case Some(rule) => [rule] case None => []
  {
    assert [combo][..0] == [];
    assert CombosOf(src, [], map[], keys) == [];
  }

  lemma CombosFileMembers(keys: KeyTable)
    ensures CompiledFrom(COMBOS_FILE, keys, COMBOS_MAPPING)
  {
    CombosFileSections(keys);
    Targets(map[], keys);
    hide FromName, ParseTarget, CompilesSplit, SectionRules, SectionCombos;
    SectionMembers("l1", COMBOS_FILE, keys);
    SectionMembers("r1", COMBOS_FILE, keys);
    hide IsRuleOf, IsComboOf;
  }

  lemma CombosFileCompiles(keys: KeyTable)
    ensures Compilation(COMBOS_FILE, keys, COMBOS_MAPPING)
  {
    CombosFileMembers(keys);
    CombosFileSections(keys);
    TwoSections("l1", "r1", COMBOS_FILE, keys);
    hide SectionRules, SectionCombos, ChildRules, RulesIn, CombosIn, Visits, CompiledFrom;
    assert CompiledIn(["l1", "r1"], COMBOS_FILE, keys, COMBOS_MAPPING);
  }

  lemma CombosVotes(keys: KeyTable, l1: GamepadState, shown: GamepadState)
    requires shown.Pressed(Cross) && shown.Pressed(Circle) && shown.Pressed(L1) && shown.Pressed(R1)
    ensures VisitClash(COMBOS_FILE, keys, l1, shown, LeftY)
  {
    CombosFileSections(keys);
    hide SectionRules, SectionCombos, ChildRules, CompilesSplit;
    var votes := ComboVote(COMBOS_FILE, keys, shown, LeftY);
    assert votes("l1") == Some(0) && votes("r1") == Some(255);
    assert "l1" in COMBOS_FILE.buttons.Keys && "r1" in COMBOS_FILE.buttons.Keys;
    assert SomeVote(COMBOS_FILE.buttons.Keys, votes);
    assert Disagree(COMBOS_FILE.buttons.Keys, votes);
  }

  /** The same with two combos and no remap at all. */
  lemma CombosClashInAFile(keys: KeyTable, start: Time, now: Time)
    ensures Acceptable(COMBOS_FILE, keys) && COMBOS_MAPPING.rules == []
    ensures OrderShows(COMBOS_FILE, keys, start, [], HeldFrame(), now, true, LeftY)
  {
    CombosFileAcceptable(keys);
    CombosFileCompiles(keys);
    hide Acceptable, Compilation, OrderShows, VisitClash;
    OrderShowsExactly(COMBOS_FILE, keys, COMBOS_MAPPING, start, [], HeldFrame(), now, true, LeftY);
    PlainLayers(COMBOS_MAPPING, start, now);
    hide LayerAfter, ShownAfter, MappingSafe;
    CombosVotes(keys, LayerAfter(COMBOS_MAPPING, start, [], HeldFrame(), now, true),
                ShownAfter(COMBOS_MAPPING, start, [], HeldFrame(), now, true));
  }
}

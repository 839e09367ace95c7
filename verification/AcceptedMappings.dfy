/** What the mapping of any accepted file is like, whatever the file says (src/config/validate.rs). */
module AcceptedMappings {
  import opened Model
  import opened Mapping
  import opened Config
  import opened ConfigCompile
  import opened ConfigCheck

  /** Buttons that no target may press. */
  const UNBINDABLE: set<Button> :=
    {FnLeft, FnRight, LeftPaddle, RightPaddle, Mic, TouchpadLeft, TouchpadRight, L2Analog, R2Analog}

  lemma TargetsBindable(parsed: ParsedTarget, b: Button)
    requires b in UNBINDABLE
    ensures IntoMappingTarget(parsed) != Some(ToButton(b))
  {
  }

  /** No rule of a compiled file presses one of the nine buttons that have no place on the virtual device, and no combo. */
  lemma NothingUnbindable(cfg: ConfigFile, keys: KeyTable, mapping: MappingConfig, b: Button)
    requires CompiledFrom(cfg, keys, mapping) && b in UNBINDABLE
    ensures forall rule :: rule in mapping.rules ==> rule.dst != ToButton(b)
    ensures forall rule :: rule in mapping.comboConfigs ==> rule.output != ToButton(b)
  {
    hide IntoMappingTarget, ParseTarget, FromName, SkippedBySplit, CompilesSplit, IsChildRule, IsRuleOf, IsComboOf;
    forall rule | rule in mapping.rules ensures rule.dst != ToButton(b) {
      if IsChildRule(rule, cfg, keys) {
        ChildBindable(rule, cfg, keys, b);
      } else {
        var name :| name in cfg.buttons && IsRuleOf(rule, name, cfg, keys);
        RuleBindable(rule, name, cfg, keys, b);
      }
    }
    forall rule | rule in mapping.comboConfigs ensures rule.output != ToButton(b) {
      var name :| name in cfg.buttons && IsComboOf(rule, name, cfg, keys);
      ComboBindable(rule, name, cfg, keys, b);
    }
  }

  lemma ChildBindable(rule: RemapRule, cfg: ConfigFile, keys: KeyTable, b: Button)
    requires IsChildRule(rule, cfg, keys) && b in UNBINDABLE
    ensures rule.dst != ToButton(b)
  {
    hide IntoMappingTarget, ParseTarget, CompilesSplit;
    forall parsed ensures IntoMappingTarget(parsed) != Some(ToButton(b)) {
      TargetsBindable(parsed, b);
    }
  }

  lemma RuleBindable(rule: RemapRule, name: string, cfg: ConfigFile, keys: KeyTable, b: Button)
    requires name in cfg.buttons && IsRuleOf(rule, name, cfg, keys) && b in UNBINDABLE
    ensures rule.dst != ToButton(b)
  {
    hide IntoMappingTarget, ParsedRemap, FromName, SkippedBySplit;
    TargetsBindable(ParsedRemap(cfg.buttons[name], cfg.macros, keys).value, b);
  }

  lemma ComboBindable(rule: ComboRule, name: string, cfg: ConfigFile, keys: KeyTable, b: Button)
    requires name in cfg.buttons && IsComboOf(rule, name, cfg, keys) && b in UNBINDABLE
    ensures rule.output != ToButton(b)
  {
    hide IntoMappingTarget, ParseTarget, ParsedRemap, FromName, SkippedBySplit;
    forall parsed ensures IntoMappingTarget(parsed) != Some(ToButton(b)) {
      TargetsBindable(parsed, b);
    }
  }

  /** The section names of an accepted file are the buttons' own names, so no button has two sections. */
  lemma OneSection(cfg: ConfigFile, keys: KeyTable, name: string, name': string)
    requires Acceptable(cfg, keys) && name in cfg.buttons && name' in cfg.buttons
    ensures FromName(name).Some? && FromName(name).value !in {Mic, L2Analog, R2Analog}
    ensures FromName(name) == FromName(name') ==> name == name'
  {
    hide Name, CombosOk, TurboOk, RemapOk, MacroOk, SplitOk, ParsedRemap;
    assert ButtonOk(name, cfg.buttons[name], cfg.macros, keys);
    assert ButtonOk(name', cfg.buttons[name'], cfg.macros, keys);
    UnusableNames(name);
  }

  lemma UnusableNames(name: string)
    requires SourceOk(name)
    ensures FromName(name).value !in {Mic, L2Analog, R2Analog}
  {
    hide FromName;
  }

  /**
   * The combos of an accepted file: modifier and key differ, neither is a touchpad half nor a button without
   * a bit of its own, no FN button is combined with a face button, and two combos on the same pair are the same.
   */
  lemma CombosAreSound(cfg: ConfigFile, keys: KeyTable, mapping: MappingConfig, c: ComboRule, d: ComboRule)
    requires Acceptable(cfg, keys) && CompiledFrom(cfg, keys, mapping)
    requires c in mapping.comboConfigs && d in mapping.comboConfigs
    ensures c.modifier != c.key
    ensures c.modifier !in {Mic, L2Analog, R2Analog, TouchpadLeft, TouchpadRight}
    ensures c.key !in {Mic, L2Analog, R2Analog, TouchpadLeft, TouchpadRight}
    ensures c.modifier in {FnLeft, FnRight} ==> c.key !in {Cross, Circle, Square, Triangle}
    ensures c.modifier == d.modifier && c.key == d.key ==> c == d
  {
    hide FromName, Name, ParseTarget, IntoMappingTarget, ParsedRemap, SkippedBySplit, CompilesSplit, ButtonOk, MacroOk, SplitOk;
    var name :| name in cfg.buttons && IsComboOf(c, name, cfg, keys);
    var name' :| name' in cfg.buttons && IsComboOf(d, name', cfg, keys);
    OneSection(cfg, keys, name, name');
    ComboSectionOk(cfg, keys, name);
    ModifierNames(name);
    var combos := cfg.buttons[name].combos;
    var i :| 0 <= i < |combos| && ComboRuleOf(c.modifier, combos[i], cfg.macros, keys) == Some(c);
    assert ComboOk(name, combos[i], cfg.macros, keys);
    if c.modifier == d.modifier && c.key == d.key {
      var j :| 0 <= j < |combos| && ComboRuleOf(c.modifier, combos[j], cfg.macros, keys) == Some(d);
      assert i == j;
    }
  }

  lemma ComboSectionOk(cfg: ConfigFile, keys: KeyTable, name: string)
    requires Acceptable(cfg, keys) && name in cfg.buttons
    requires ParsedRemap(cfg.buttons[name], cfg.macros, keys) == Some(ComboMode)
    ensures SourceOk(name) && !IsPartition(name) && CombosOk(name, cfg.buttons[name].combos, cfg.macros, keys)
  {
    hide Name, CombosOk, TurboOk, RemapOk, MacroOk, SplitOk, ParsedRemap, FromName;
    assert ButtonOk(name, cfg.buttons[name], cfg.macros, keys);
  }

  lemma ModifierNames(name: string)
    requires SourceOk(name)
    ensures Name(FromName(name).value) == name
    ensures FromName(name) == Some(FnLeft) <==> name == "left_fn"
    ensures FromName(name) == Some(FnRight) <==> name == "right_fn"
    ensures !IsPartition(name) ==> FromName(name).value !in {TouchpadLeft, TouchpadRight}
  {
    hide FromName;
  }

  /** Each button has one job: at most one rule, and none if it is blocked or the modifier of a combo. */
  lemma OneJob(cfg: ConfigFile, keys: KeyTable, mapping: MappingConfig, rule: RemapRule)
    requires Acceptable(cfg, keys) && CompiledFrom(cfg, keys, mapping) && rule in mapping.rules
    ensures rule.src !in {Mic, L2Analog, R2Analog}
    ensures forall other :: other in mapping.rules && other.src == rule.src ==> other == rule
    ensures rule.src !in mapping.blockedButtons
    ensures forall c :: c in mapping.comboConfigs ==> c.modifier != rule.src
  {
    hide FromName, ParseTarget, IntoMappingTarget, ParsedRemap, CompilesSplit, ButtonOk, MacroOk, SplitOk, ChildTarget;
    NoOtherTargets();
    if IsChildRule(rule, cfg, keys) {
      HalvesSkipped(cfg, keys, rule);
    } else {
      var name :| name in cfg.buttons && IsRuleOf(rule, name, cfg, keys);
      OneSection(cfg, keys, name, name);
    }
    forall other | other in mapping.rules && other.src == rule.src ensures other == rule {
      RuleSection(cfg, keys, mapping, rule, other);
    }
    forall name | name in cfg.buttons && IsBlockOf(rule.src, name, cfg, keys) ensures false {
      SameSection(cfg, keys, rule, name);
    }
    forall c | c in mapping.comboConfigs ensures c.modifier != rule.src {
      var name :| name in cfg.buttons && IsComboOf(c, name, cfg, keys);
      if c.modifier == rule.src {
        SameSection(cfg, keys, rule, name);
      }
    }
  }

  /** A rule that is not a touchpad half's comes from the one section of its source. */
  lemma SameSection(cfg: ConfigFile, keys: KeyTable, rule: RemapRule, name: string)
    requires Acceptable(cfg, keys) && name in cfg.buttons && !SkippedBySplit(name, cfg) && FromName(name) == Some(rule.src)
    requires IsChildRule(rule, cfg, keys) || exists from :: from in cfg.buttons && IsRuleOf(rule, from, cfg, keys)
    ensures IsRuleOf(rule, name, cfg, keys)
  {
    hide FromName, ParseTarget, IntoMappingTarget, ParsedRemap, CompilesSplit, ButtonOk, MacroOk, SplitOk, ChildTarget;
    if from :| from in cfg.buttons && IsRuleOf(rule, from, cfg, keys) {
      OneSection(cfg, keys, name, from);
    }
  }

  lemma RuleSection(cfg: ConfigFile, keys: KeyTable, mapping: MappingConfig, rule: RemapRule, other: RemapRule)
    requires Acceptable(cfg, keys) && CompiledFrom(cfg, keys, mapping)
    requires rule in mapping.rules && other in mapping.rules && other.src == rule.src
    ensures other == rule
  {
    hide FromName, ParseTarget, IntoMappingTarget, ParsedRemap, CompilesSplit, ButtonOk, MacroOk, SplitOk, ChildTarget;
    if name :| name in cfg.buttons && IsRuleOf(rule, name, cfg, keys) {
      SameSection(cfg, keys, other, name);
    } else if name :| name in cfg.buttons && IsRuleOf(other, name, cfg, keys) {
      SameSection(cfg, keys, rule, name);
    }
  }

  lemma HalvesSkipped(cfg: ConfigFile, keys: KeyTable, rule: RemapRule)
    requires IsChildRule(rule, cfg, keys)
    ensures rule.src in {TouchpadLeft, TouchpadRight}
    ensures forall name :: FromName(name) == Some(rule.src) ==> SkippedBySplit(name, cfg)
  {
    hide FromName;
  }

  /** A turbo has an interval, no button has two, and none runs beside a macro on its own button. */
  lemma TurbosAreSound(cfg: ConfigFile, keys: KeyTable, mapping: MappingConfig, turbo: TurboConfig)
    requires Acceptable(cfg, keys) && CompiledFrom(cfg, keys, mapping) && turbo in mapping.turboConfigs
    ensures (mapping.splitTouchpad && turbo.src == Touchpad) || turbo.intervalMs > 0
    ensures forall other :: other in mapping.turboConfigs && other.src == turbo.src ==> other == turbo
    ensures forall rule :: rule in mapping.macroConfigs && rule.source.Physical? ==> rule.trigger != turbo.src
  {
    hide FromName, ParseTarget, IntoMappingTarget, ParsedRemap, CompilesSplit, ButtonOk, MacroOk, SplitOk, ChildTarget;
    hide CompileMacro;
    var name :| name in cfg.buttons && IsTurboOf(turbo, name, cfg.buttons[name]);
    TurboRuleSafe(cfg, keys, name, turbo);
    forall other | other in mapping.turboConfigs && other.src == turbo.src ensures other == turbo {
      var name' :| name' in cfg.buttons && IsTurboOf(other, name', cfg.buttons[name']);
      OneSection(cfg, keys, name, name');
    }
    forall rule | rule in mapping.macroConfigs && rule.source.Physical? ensures rule.trigger != turbo.src {
      var b :| b in cfg.buttons && (IsPhysicalMacroOf(rule, b, cfg, keys) || IsComboMacroOf(rule, cfg.buttons[b], cfg, keys));
      OneSection(cfg, keys, name, b);
    }
  }

  /** The macros of an accepted file: what the file says they are, with real steps of positive length. */
  lemma MacrosAreSound(cfg: ConfigFile, keys: KeyTable, mapping: MappingConfig, rule: MacroRule)
    requires Acceptable(cfg, keys) && CompiledFrom(cfg, keys, mapping) && rule in mapping.macroConfigs
    ensures rule.name in cfg.macros && FromName(rule.name).None?
    ensures var conf := cfg.macros[rule.name];
            && |rule.steps| == |conf.sequence| > 0
            && (rule.mode == Hold <==> conf.mode == "hold") && (rule.mode == Single <==> conf.mode == "single")
            && forall i :: 0 <= i < |rule.steps| ==>
                 && rule.steps[i].pressMs == conf.sequence[i].pressMs && rule.steps[i].releaseMs == conf.sequence[i].releaseMs
                 && rule.steps[i].pressMs < rule.steps[i].releaseMs
                 && !(rule.steps[i].action.StepButton?
                      && rule.steps[i].action.button in {Mic, L2Analog, R2Analog, TouchpadLeft, TouchpadRight})
  {
    hide FromName, ParseTarget, ParsedRemap, CompilesSplit, ButtonOk, SplitOk, PhysicalUse, ComboUse, IsReservedMacroName;
    var conf := cfg.macros[rule.name];
    assert MacroOk(rule.name, conf, keys);
    forall i | 0 <= i < |conf.sequence| ensures StepOk(conf.sequence[i], keys) {}
    hide ResolveStepTarget;
    forall i | 0 <= i < |conf.sequence| {
      StepsBindable(conf.sequence[i].key, keys);
    }
  }

  lemma StepsBindable(key: string, keys: KeyTable)
    ensures var step := ResolveStepTarget(key, keys);
            step.Some? && step.value.StepButton? ==>
              step.value.button !in {Mic, L2Analog, R2Analog, TouchpadLeft, TouchpadRight}
  {
    hide ParseTarget;
  }

  // ------------------------------------------------------- what is refused

  /** A file without sections is accepted exactly by its version and device. */
  lemma BareFile(version: nat, device: string, keys: KeyTable)
    ensures Acceptable(ConfigFile(version, device, map[], map[]), keys)
            <==> version == 2 && (device == "auto" || device == "dualsense" || device == "dualshock4")
  {
  }

  /**
   * A section without combos is accepted exactly when its name is some button's own name, that button can be a
   * source, its target is passthrough, block or one the virtual device has, and a turbo on it has an interval,
   * a target other than a trigger's own or passthrough, and no macro.
   */
  lemma PlainSection(name: string, conf: ButtonConfig, macros: Macros, keys: KeyTable)
    requires conf.combos == [] && !(name == "touchpad" && conf.remap == Some("split"))
    ensures var target := if conf.remap.None? || conf.remap.value == "" then Some(Passthrough)
                          else ParseTarget(conf.remap.value, macros, keys);
            ButtonOk(name, conf, macros, keys) <==>
            && FromName(name).Some? && name == Name(FromName(name).value) && name !in {"mic", "l2_analog", "r2_analog"}
            && target.Some?
            && (target.value == Passthrough || target.value == Block || IntoMappingTarget(target.value).Some?)
            && (conf.turbo ==>
                  && conf.turboIntervalMs > 0 && !target.value.MacroRef? && conf.remap != Some("passthrough")
                  && !((name == "l2" || name == "r2") && conf.remap in {None, Some(""), Some("l2"), Some("r2")}))
  {
    hide FromName, Name, IntoMappingTarget, Builtin;
    OneSpelling(if conf.remap.Some? then conf.remap.value else "", macros, keys);
    SplitHasNoTarget();
    hide ParseTarget;
  }

  lemma SplitHasNoTarget()
    ensures IntoMappingTarget(Split).None? && IntoMappingTarget(ComboMode).None?
  {
  }

  /** What makes a section with combos unacceptable whatever else it says. */
  lemma ComboRefusals(name: string, conf: ButtonConfig, macros: Macros, keys: KeyTable, i: nat, j: nat)
    requires i < |conf.combos| && j < |conf.combos| && name != "touchpad"
    ensures conf.remap != Some("combo") ==> !ButtonOk(name, conf, macros, keys)
    ensures name == "touchpad_left" || name == "touchpad_right" ==> !ButtonOk(name, conf, macros, keys)
    ensures FromName(conf.combos[i].key).None? ==> !ButtonOk(name, conf, macros, keys)
    ensures FromName(conf.combos[i].key) == FromName(name) ==> !ButtonOk(name, conf, macros, keys)
    ensures i != j && FromName(conf.combos[i].key) == FromName(conf.combos[j].key) ==> !ButtonOk(name, conf, macros, keys)
    ensures ParseTarget(conf.combos[i].output, macros, keys).None? ==> !ButtonOk(name, conf, macros, keys)
    ensures conf.turbo && conf.turboIntervalMs == 0 ==> !ButtonOk(name, conf, macros, keys)
    ensures conf.turbo && NamesMacro(ParseTarget(conf.combos[i].output, macros, keys)) ==> !ButtonOk(name, conf, macros, keys)
  {
    hide FromName, Name, IntoMappingTarget, Builtin;
    OneSpelling(if conf.remap.Some? then conf.remap.value else "", macros, keys);
    hide ParseTarget;
    if ButtonOk(name, conf, macros, keys) {
      assert ComboOk(name, conf.combos[i], macros, keys);
    }
  }

  /** The touchpad's halves have sections exactly when it is split, and then a rule each. */
  lemma HalvesGoWithSplit(cfg: ConfigFile, keys: KeyTable, mapping: MappingConfig)
    requires Acceptable(cfg, keys) && CompiledFrom(cfg, keys, mapping)
    ensures mapping.splitTouchpad <==> "touchpad" in cfg.buttons && cfg.buttons["touchpad"].remap == Some("split")
    ensures mapping.splitTouchpad <==> "touchpad_left" in cfg.buttons
    ensures mapping.splitTouchpad <==> "touchpad_right" in cfg.buttons
    ensures mapping.splitTouchpad ==> exists left, right ::
              RemapRule(TouchpadLeft, left) in mapping.rules && RemapRule(TouchpadRight, right) in mapping.rules
  {
    hide FromName, ParseTarget, IntoMappingTarget, ButtonOk, MacroOk, CompilesSplit, HasSplit, Compilable, ChildTarget;
    SplitAgrees(cfg, keys);
    SplitMeans(cfg, keys);
    if mapping.splitTouchpad {
      ChildrenHaveTargets(cfg, keys);
      var left, right := ChildTarget("touchpad_left", cfg, keys).value, ChildTarget("touchpad_right", cfg, keys).value;
      assert IsChildRule(RemapRule(TouchpadLeft, left), cfg, keys) && IsChildRule(RemapRule(TouchpadRight, right), cfg, keys);
      assert RemapRule(TouchpadLeft, left) in mapping.rules && RemapRule(TouchpadRight, right) in mapping.rules;
    }
  }

  lemma SplitMeans(cfg: ConfigFile, keys: KeyTable)
    ensures HasSplit(cfg, keys) <==> "touchpad" in cfg.buttons && cfg.buttons["touchpad"].remap == Some("split")
  {
    if "touchpad" in cfg.buttons && cfg.buttons["touchpad"].remap.Some? {
      OneSpelling(cfg.buttons["touchpad"].remap.value, cfg.macros, keys);
    }
    hide ParseTarget;
  }

  lemma ChildrenHaveTargets(cfg: ConfigFile, keys: KeyTable)
    requires Acceptable(cfg, keys) && CompilesSplit(cfg)
    ensures ChildTarget("touchpad_left", cfg, keys).Some? && ChildTarget("touchpad_right", cfg, keys).Some?
  {
    hide CompilesSplit, ChildTarget, Acceptable;
    AcceptableCompiles(cfg, keys);
  }
}

/** Compilation of a configuration into mapping rules (src/config/compile.rs). */
module ConfigCompile {
  import opened Model
  import opened Mapping
  import opened Config

  // --------------------------------------------------------------- macros

  function CompileMode(mode: string): Option<MacroMode> {
    if mode == "hold" then Some(Hold) else if mode == "single" then Some(Single) else None
  }

  predicate StepsResolve(steps: seq<StepConfig>, keys: KeyTable) {
    forall i :: 0 <= i < |steps| ==> ResolveStepTarget(steps[i].key, keys).Some?
  }

  function CompileSteps(steps: seq<StepConfig>, keys: KeyTable): seq<MacroStep>
    requires StepsResolve(steps, keys)
  {
    seq(|steps|, i requires 0 <= i < |steps| =>
      MacroStep(ResolveStepTarget(steps[i].key, keys).value, steps[i].pressMs, steps[i].releaseMs))
  }

  function CompileMacro(conf: MacroConfig, keys: KeyTable): Option<(MacroMode, seq<MacroStep>)> {
    if CompileMode(conf.mode).Some? && StepsResolve(conf.sequence, keys)
    then Some((CompileMode(conf.mode).value, CompileSteps(conf.sequence, keys)))
    else None
  }

  // ----------------------------------------------------- when it succeeds

  predicate SplitsTouchpad(name: string, conf: ButtonConfig) {
    FromName(name) == Some(Touchpad) && conf.remap == Some("split")
  }

  predicate CompilesSplit(cfg: ConfigFile) {
    exists name :: name in cfg.buttons && SplitsTouchpad(name, cfg.buttons[name])
  }

  /** The sections a split touchpad takes out of the ordinary rule loop. */
  predicate SkippedBySplit(name: string, cfg: ConfigFile) {
    CompilesSplit(cfg) && FromName(name) in {Some(Touchpad), Some(TouchpadLeft), Some(TouchpadRight)}
  }

  function ComboTarget(combo: ComboConfig, macros: Macros, keys: KeyTable): Option<Target> {
    match ParseTarget(combo.output, macros, keys)
    case Some(parsed) => IntoMappingTarget(parsed)
    case None => None
  }

  /** The rule one combo entry compiles to. */
  function ComboRuleOf(modifier: Button, combo: ComboConfig, macros: Macros, keys: KeyTable): Option<ComboRule> {
    var key, output := FromName(combo.key), ComboTarget(combo, macros, keys);
    if key.Some? && output.Some? then Some(ComboRule(modifier, key.value, output.value)) else None
  }

  predicate ComboCompilable(combo: ComboConfig, macros: Macros, keys: KeyTable) {
    FromName(combo.key).Some? && ComboTarget(combo, macros, keys).Some?
  }

  predicate ButtonCompilable(name: string, cfg: ConfigFile, keys: KeyTable)
    requires name in cfg.buttons
  {
    var conf := cfg.buttons[name];
    FromName(name).Some? &&
    (SkippedBySplit(name, cfg) ||
     match ParsedRemap(conf, cfg.macros, keys)
     case None => false
     case Some(ComboMode) => forall i :: 0 <= i < |conf.combos| ==> ComboCompilable(conf.combos[i], cfg.macros, keys)
     case Some(Passthrough) => true
     case Some(Block) => true
     case Some(parsed) => IntoMappingTarget(parsed).Some?)
  }

  function ChildTarget(child: string, cfg: ConfigFile, keys: KeyTable): Option<Target> {
    if child !in cfg.buttons || cfg.buttons[child].remap.None? then None else
    match ParseTarget(cfg.buttons[child].remap.value, cfg.macros, keys)
    case Some(parsed) => IntoMappingTarget(parsed)
    case None => None
  }

  /** The macro a physical button plays, if it is not a turbo button. */
  function PhysicalMacro(conf: ButtonConfig, macros: Macros, keys: KeyTable): Option<string> {
    if conf.turbo || conf.remap.None? then None else
    match ParseTarget(conf.remap.value, macros, keys)
    case Some(MacroRef(name)) => Some(name)
    case _ => None
  }

  function ComboMacro(combo: ComboConfig, macros: Macros, keys: KeyTable): Option<string> {
    match ParseTarget(combo.output, macros, keys)
    case Some(MacroRef(name)) => Some(name)
    case _ => None
  }

  /** A macro name that is looked up during compilation. */
  predicate UsesMacro(name: string, cfg: ConfigFile, keys: KeyTable) {
    exists b :: b in cfg.buttons &&
      (PhysicalUse(name, b, cfg, keys) || ComboUse(name, cfg.buttons[b], cfg.macros, keys))
  }

  predicate PhysicalUse(name: string, b: string, cfg: ConfigFile, keys: KeyTable)
    requires b in cfg.buttons
  {
    FromName(b).Some? && PhysicalMacro(cfg.buttons[b], cfg.macros, keys) == Some(name)
  }

  predicate ComboUse(name: string, conf: ButtonConfig, macros: Macros, keys: KeyTable) {
    conf.remap == Some("combo") &&
    exists i :: 0 <= i < |conf.combos| && ComboMacro(conf.combos[i], macros, keys) == Some(name)
  }

  predicate Compilable(cfg: ConfigFile, keys: KeyTable) {
    && (forall name :: name in cfg.buttons ==> ButtonCompilable(name, cfg, keys))
    && (CompilesSplit(cfg) ==>
          ChildTarget("touchpad_left", cfg, keys).Some? && ChildTarget("touchpad_right", cfg, keys).Some?)
    && (forall name :: name in cfg.macros && UsesMacro(name, cfg, keys) ==> CompileMacro(cfg.macros[name], keys).Some?)
  }

  // --------------------------------------------------- what it compiles to

  predicate IsRuleOf(rule: RemapRule, name: string, cfg: ConfigFile, keys: KeyTable)
    requires name in cfg.buttons
  {
    && !SkippedBySplit(name, cfg)
    && FromName(name) == Some(rule.src)
    && var parsed := ParsedRemap(cfg.buttons[name], cfg.macros, keys);
       parsed.Some? && IntoMappingTarget(parsed.value) == Some(rule.dst)
  }

  predicate IsChildRule(rule: RemapRule, cfg: ConfigFile, keys: KeyTable) {
    CompilesSplit(cfg) &&
    ((rule.src == TouchpadLeft && ChildTarget("touchpad_left", cfg, keys) == Some(rule.dst))
     || (rule.src == TouchpadRight && ChildTarget("touchpad_right", cfg, keys) == Some(rule.dst)))
  }

  predicate IsBlockOf(b: Button, name: string, cfg: ConfigFile, keys: KeyTable)
    requires name in cfg.buttons
  {
    !SkippedBySplit(name, cfg) && FromName(name) == Some(b)
    && ParsedRemap(cfg.buttons[name], cfg.macros, keys) == Some(Block)
  }

  predicate IsComboOf(rule: ComboRule, name: string, cfg: ConfigFile, keys: KeyTable)
    requires name in cfg.buttons
  {
    && !SkippedBySplit(name, cfg)
    && FromName(name) == Some(rule.modifier)
    && ParsedRemap(cfg.buttons[name], cfg.macros, keys) == Some(ComboMode)
    && exists c :: c in cfg.buttons[name].combos && ComboRuleOf(rule.modifier, c, cfg.macros, keys) == Some(rule)
  }

  predicate IsTurboOf(turbo: TurboConfig, name: string, conf: ButtonConfig) {
    conf.turbo && FromName(name) == Some(turbo.src)
    && turbo.intervalMs == conf.turboIntervalMs && turbo.delayMs == conf.turboDelayMs
  }

  /** The rule plays the configured macro of that name. */
  predicate PlaysMacro(rule: MacroRule, cfg: ConfigFile, keys: KeyTable) {
    rule.name in cfg.macros && CompileMacro(cfg.macros[rule.name], keys) == Some((rule.mode, rule.steps))
  }

  predicate IsPhysicalMacroOf(rule: MacroRule, b: string, cfg: ConfigFile, keys: KeyTable)
    requires b in cfg.buttons
  {
    && PlaysMacro(rule, cfg, keys) && rule.source.Physical?
    && FromName(b) == Some(rule.trigger) && PhysicalUse(rule.name, b, cfg, keys)
  }

  /** Combo macros have no trigger of their own; the compiler stores a placeholder. */
  predicate IsComboMacroOf(rule: MacroRule, conf: ButtonConfig, cfg: ConfigFile, keys: KeyTable) {
    && PlaysMacro(rule, cfg, keys) && rule.source.Combo?
    && rule.trigger == Cross && ComboUse(rule.name, conf, cfg.macros, keys)
  }

  predicate FromMacro(rule: MacroRule, cfg: ConfigFile, keys: KeyTable) {
    exists b :: b in cfg.buttons &&
      (IsPhysicalMacroOf(rule, b, cfg, keys) || IsComboMacroOf(rule, cfg.buttons[b], cfg, keys))
  }

  /** The compiled rules, whatever order the sections were visited in. */
  ghost predicate CompiledFrom(cfg: ConfigFile, keys: KeyTable, mapping: MappingConfig) {
    && mapping.splitTouchpad == CompilesSplit(cfg)
    && (forall rule :: rule in mapping.rules <==>
          IsChildRule(rule, cfg, keys) || exists name :: name in cfg.buttons && IsRuleOf(rule, name, cfg, keys))
    && (forall b :: b in mapping.blockedButtons <==>
          exists name :: name in cfg.buttons && IsBlockOf(b, name, cfg, keys))
    && (forall rule :: rule in mapping.comboConfigs <==>
          exists name :: name in cfg.buttons && IsComboOf(rule, name, cfg, keys))
    && (forall turbo :: turbo in mapping.turboConfigs <==>
          exists name :: name in cfg.buttons && IsTurboOf(turbo, name, cfg.buttons[name]))
    && (forall rule :: rule in mapping.macroConfigs <==> FromMacro(rule, cfg, keys))
  }

  /** A section's combos, in the order the file lists them. */
  function CombosOf(src: Button, combos: seq<ComboConfig>, macros: Macros, keys: KeyTable): seq<ComboRule> {
    if combos == [] then [] else
    var before := CombosOf(src, combos[..|combos| - 1], macros, keys);
    match ComboRuleOf(src, combos[|combos| - 1], macros, keys)
    case Some(rule) => before + [rule]
    case None => before
  }

  /** What one section adds to the rules: at most one. */
  function SectionRules(name: string, cfg: ConfigFile, keys: KeyTable): seq<RemapRule> {
    if name !in cfg.buttons || SkippedBySplit(name, cfg) then [] else
    match (FromName(name), ParsedRemap(cfg.buttons[name], cfg.macros, keys))
    case (Some(src), Some(parsed)) =>
      (match IntoMappingTarget(parsed) case Some(dst) => [RemapRule(src, dst)] case None => [])
    case _ => []
  }

  function SectionCombos(name: string, cfg: ConfigFile, keys: KeyTable): seq<ComboRule> {
    if name !in cfg.buttons || SkippedBySplit(name, cfg) then [] else
    match (FromName(name), ParsedRemap(cfg.buttons[name], cfg.macros, keys))
    case (Some(src), Some(ComboMode)) => CombosOf(src, cfg.buttons[name].combos, cfg.macros, keys)
    case _ => []
  }

  /** The halves of a split touchpad: left, then right. */
  function ChildRules(cfg: ConfigFile, keys: KeyTable): seq<RemapRule> {
    if !CompilesSplit(cfg) then [] else
    match (ChildTarget("touchpad_left", cfg, keys), ChildTarget("touchpad_right", cfg, keys))
    case (Some(left), Some(right)) => [RemapRule(TouchpadLeft, left), RemapRule(TouchpadRight, right)]
    case _ => []
  }

  function RulesIn(order: seq<string>, cfg: ConfigFile, keys: KeyTable): seq<RemapRule> {
    if order == [] then [] else RulesIn(order[..|order| - 1], cfg, keys) + SectionRules(order[|order| - 1], cfg, keys)
  }

  function CombosIn(order: seq<string>, cfg: ConfigFile, keys: KeyTable): seq<ComboRule> {
    if order == [] then [] else CombosIn(order[..|order| - 1], cfg, keys) + SectionCombos(order[|order| - 1], cfg, keys)
  }

  /** A visit of all sections, each once. */
  ghost predicate Visits(order: seq<string>, names: set<string>) {
    && (forall name :: name in order <==> name in names)
    && forall i, j :: 0 <= i < j < |order| ==> order[i] != order[j]
  }

  /** The lists whose order can matter, as a visit in this order pushes them. */
  ghost predicate CompiledIn(order: seq<string>, cfg: ConfigFile, keys: KeyTable, mapping: MappingConfig) {
    && Visits(order, cfg.buttons.Keys)
    && mapping.rules == RulesIn(order, cfg, keys) + ChildRules(cfg, keys)
    && mapping.comboConfigs == CombosIn(order, cfg, keys)
  }

  // ---------------------------------------------------------- the compiler

  /** One section's share of the rules, or None when the section does not compile. */
  datatype Share = Share(rules: seq<RemapRule>, blocked: seq<Button>, combos: seq<ComboRule>)

  method CompileCombos(src: Button, combos: seq<ComboConfig>, macros: Macros, keys: KeyTable)
    returns (r: Option<seq<ComboRule>>)
    ensures r.Some? <==> forall i :: 0 <= i < |combos| ==> ComboRuleOf(src, combos[i], macros, keys).Some?
    ensures r.Some? ==> r.value == CombosOf(src, combos, macros, keys)
  {
    hide ComboTarget, FromName;
    var rules: seq<ComboRule> := [];
    for i := 0 to |combos|
      invariant rules == CombosOf(src, combos[..i], macros, keys)
      invariant forall j :: 0 <= j < i ==> ComboRuleOf(src, combos[j], macros, keys).Some?
    {
      assert combos[..i + 1][..i] == combos[..i];
      var key := FromName(combos[i].key);
      var output := ComboTarget(combos[i], macros, keys);
      if key.None? || output.None? {
        return None;
      }
      rules := rules + [ComboRule(src, key.value, output.value)];
    }
    assert combos[..|combos|] == combos;
    return Some(rules);
  }

  lemma {:induction false} CombosOfMembers(src: Button, combos: seq<ComboConfig>, macros: Macros, keys: KeyTable)
    ensures forall rule :: rule in CombosOf(src, combos, macros, keys) <==>
              exists c :: c in combos && ComboRuleOf(src, c, macros, keys) == Some(rule)
  {
    hide ComboRuleOf;
    if combos != [] {
      CombosOfMembers(src, combos[..|combos| - 1], macros, keys);
      assert combos == combos[..|combos| - 1] + [combos[|combos| - 1]];
    }
  }

  /** The ordered lists of a section hold exactly the rules it asks for. */
  lemma SectionMembers(name: string, cfg: ConfigFile, keys: KeyTable)
    requires name in cfg.buttons
    ensures forall rule :: rule in SectionRules(name, cfg, keys) <==> IsRuleOf(rule, name, cfg, keys)
    ensures forall rule :: rule in SectionCombos(name, cfg, keys) <==> IsComboOf(rule, name, cfg, keys)
  {
    hide CombosOf, ComboRuleOf, SkippedBySplit, FromName, ParseTarget;
    if FromName(name).Some? {
      CombosOfMembers(FromName(name).value, cfg.buttons[name].combos, cfg.macros, keys);
      forall c ensures ComboRuleOf(FromName(name).value, c, cfg.macros, keys).Some? ==>
                         ComboRuleOf(FromName(name).value, c, cfg.macros, keys).value.modifier == FromName(name).value
      {
        ComboRuleSource(FromName(name).value, c, cfg.macros, keys);
      }
    }
  }

  lemma ComboRuleSource(modifier: Button, combo: ComboConfig, macros: Macros, keys: KeyTable)
    ensures var rule := ComboRuleOf(modifier, combo, macros, keys);
            rule.Some? ==> rule.value.modifier == modifier
  {
  }

  ghost predicate ShareOf(share: Share, name: string, cfg: ConfigFile, keys: KeyTable)
    requires name in cfg.buttons
  {
    && (forall rule :: rule in share.rules <==> IsRuleOf(rule, name, cfg, keys))
    && (forall b :: b in share.blocked <==> IsBlockOf(b, name, cfg, keys))
    && (forall rule :: rule in share.combos <==> IsComboOf(rule, name, cfg, keys))
    && share.rules == SectionRules(name, cfg, keys) && share.combos == SectionCombos(name, cfg, keys)
  }

  lemma CompilableRules(src: Button, combos: seq<ComboConfig>, macros: Macros, keys: KeyTable)
    ensures forall i :: 0 <= i < |combos| ==>
              (ComboCompilable(combos[i], macros, keys) <==> ComboRuleOf(src, combos[i], macros, keys).Some?)
  {
  }

  lemma NoOtherTargets()
    ensures IntoMappingTarget(Passthrough).None? && IntoMappingTarget(Block).None? && IntoMappingTarget(ComboMode).None?
  {
  }

  method CompileButton(name: string, cfg: ConfigFile, keys: KeyTable, split: bool) returns (r: Option<Share>)
    requires name in cfg.buttons && split == CompilesSplit(cfg)
    ensures r.Some? <==> ButtonCompilable(name, cfg, keys)
    ensures r.Some? ==> ShareOf(r.value, name, cfg, keys)
  {
    hide CombosOf, IsRuleOf, IsComboOf, ComboRuleOf, ComboCompilable, ParsedRemap, FromName, CompilesSplit, IntoMappingTarget;
    SectionMembers(name, cfg, keys);
    NoOtherTargets();
    var conf := cfg.buttons[name];
    var named := FromName(name);
    if named.None? {
      return None;
    }
    var src := named.value;
    CompilableRules(src, conf.combos, cfg.macros, keys);
    if split && src in {Touchpad, TouchpadLeft, TouchpadRight} {
      return Some(Share([], [], []));
    }
    var parsed := ParsedRemap(conf, cfg.macros, keys);
    if parsed.None? {
      return None;
    }
    if parsed.value.ComboMode? {
      var combos := CompileCombos(src, conf.combos, cfg.macros, keys);
      if combos.None? {
        return None;
      }
      return Some(Share([], [], combos.value));
    }
    if parsed.value.Passthrough? {
      return Some(Share([], [], []));
    }
    if parsed.value.Block? {
      return Some(Share([], [src], []));
    }
    var dst := IntoMappingTarget(parsed.value);
    if dst.None? {
      return None;
    }
    return Some(Share([RemapRule(src, dst.value)], [], []));
  }

  /** The sections visited so far account for exactly these rules. */
  ghost predicate SharesOf(share: Share, done: set<string>, cfg: ConfigFile, keys: KeyTable)
    requires done <= cfg.buttons.Keys
  {
    && (forall rule :: rule in share.rules <==> exists name :: name in done && IsRuleOf(rule, name, cfg, keys))
    && (forall b :: b in share.blocked <==> exists name :: name in done && IsBlockOf(b, name, cfg, keys))
    && (forall rule :: rule in share.combos <==> exists name :: name in done && IsComboOf(rule, name, cfg, keys))
  }

  lemma SharesNone(cfg: ConfigFile, keys: KeyTable)
    ensures SharesOf(Share([], [], []), {}, cfg, keys)
  {
  }

  lemma SharesGrow(share: Share, done: set<string>, more: Share, name: string, cfg: ConfigFile, keys: KeyTable)
    requires done <= cfg.buttons.Keys && name in cfg.buttons
    requires SharesOf(share, done, cfg, keys) && ShareOf(more, name, cfg, keys)
    ensures SharesOf(Share(share.rules + more.rules, share.blocked + more.blocked, share.combos + more.combos),
                     done + {name}, cfg, keys)
  {
  }

  method CompileButtons(cfg: ConfigFile, keys: KeyTable, split: bool) returns (r: Option<Share>, ghost order: seq<string>)
    requires split == CompilesSplit(cfg)
    ensures r.Some? <==> forall name :: name in cfg.buttons ==> ButtonCompilable(name, cfg, keys)
    ensures r.Some? ==> SharesOf(r.value, cfg.buttons.Keys, cfg, keys)
    ensures r.Some? ==> Visits(order, cfg.buttons.Keys)
    ensures r.Some? ==> r.value.rules == RulesIn(order, cfg, keys) && r.value.combos == CombosIn(order, cfg, keys)
  {
    hide ButtonCompilable, SharesOf, CompilesSplit, IsRuleOf, IsBlockOf, IsComboOf, SectionRules, SectionCombos;
    var share := Share([], [], []);
    order := [];
    SharesNone(cfg, keys);
    assert cfg.buttons.Keys - cfg.buttons.Keys == {};
    var names := cfg.buttons.Keys;
    while names != {}
      invariant names <= cfg.buttons.Keys
      invariant forall name :: name in cfg.buttons && name !in names ==> ButtonCompilable(name, cfg, keys)
      invariant SharesOf(share, cfg.buttons.Keys - names, cfg, keys)
      invariant Visits(order, cfg.buttons.Keys - names)
      invariant share.rules == RulesIn(order, cfg, keys) && share.combos == CombosIn(order, cfg, keys)
    {
      var name :| name in names;
      var one := CompileButton(name, cfg, keys, split);
      if one.None? {
        return None, order;
      }
      SharesGrow(share, cfg.buttons.Keys - names, one.value, name, cfg, keys);
      assert cfg.buttons.Keys - names + {name} == cfg.buttons.Keys - (names - {name});
      assert (order + [name])[..|order|] == order;
      share := Share(share.rules + one.value.rules, share.blocked + one.value.blocked, share.combos + one.value.combos);
      names := names - {name};
      order := order + [name];
    }
    assert cfg.buttons.Keys - {} == cfg.buttons.Keys;
    return Some(share), order;
  }

  method BuildTurboConfigs(cfg: ConfigFile) returns (configs: seq<TurboConfig>)
    ensures forall turbo :: turbo in configs <==>
              exists name :: name in cfg.buttons && IsTurboOf(turbo, name, cfg.buttons[name])
  {
    configs := [];
    var names := cfg.buttons.Keys;
    while names != {}
      invariant names <= cfg.buttons.Keys
      invariant forall turbo :: turbo in configs <==>
        exists name :: name in cfg.buttons && name !in names && IsTurboOf(turbo, name, cfg.buttons[name])
    {
      var name :| name in names;
      names := names - {name};
      var conf, src := cfg.buttons[name], FromName(name);
      if conf.turbo && src.Some? {
        var turbo := TurboConfig(src.value, conf.turboIntervalMs, conf.turboDelayMs);
        assert IsTurboOf(turbo, name, conf);
        configs := configs + [turbo];
      }
    }
  }

  predicate PhysicalMacroCompiles(b: string, cfg: ConfigFile, keys: KeyTable)
    requires b in cfg.buttons
  {
    forall name :: name in cfg.macros && PhysicalUse(name, b, cfg, keys) ==> CompileMacro(cfg.macros[name], keys).Some?
  }

  predicate ComboMacrosCompile(conf: ButtonConfig, cfg: ConfigFile, keys: KeyTable) {
    forall name :: name in cfg.macros && ComboUse(name, conf, cfg.macros, keys) ==> CompileMacro(cfg.macros[name], keys).Some?
  }

  method BuildPhysicalMacros(cfg: ConfigFile, keys: KeyTable) returns (r: Option<seq<MacroRule>>)
    ensures r.Some? <==> forall b :: b in cfg.buttons ==> PhysicalMacroCompiles(b, cfg, keys)
    ensures r.Some? ==> forall rule :: rule in r.value <==>
              exists b :: b in cfg.buttons && IsPhysicalMacroOf(rule, b, cfg, keys)
  {
    var configs: seq<MacroRule> := [];
    var names := cfg.buttons.Keys;
    while names != {}
      invariant names <= cfg.buttons.Keys
      invariant forall b :: b in cfg.buttons && b !in names ==> PhysicalMacroCompiles(b, cfg, keys)
      invariant forall rule :: rule in configs <==>
        exists b :: b in cfg.buttons && b !in names && IsPhysicalMacroOf(rule, b, cfg, keys)
    {
      var b :| b in names;
      names := names - {b};
      var trigger, name := FromName(b), PhysicalMacro(cfg.buttons[b], cfg.macros, keys);
      if trigger.Some? && name.Some? && name.value in cfg.macros {
        assert PhysicalUse(name.value, b, cfg, keys);
        var compiled := CompileMacro(cfg.macros[name.value], keys);
        if compiled.None? {
          assert !PhysicalMacroCompiles(b, cfg, keys);
          return None;
        }
        var rule := MacroRule(trigger.value, name.value, compiled.value.0, compiled.value.1, Physical);
        assert IsPhysicalMacroOf(rule, b, cfg, keys);
        configs := configs + [rule];
      }
    }
    return Some(configs);
  }

  /** The macro rule one combo entry adds, if its output names a configured macro. */
  function ComboMacroRule(combo: ComboConfig, cfg: ConfigFile, keys: KeyTable): Option<MacroRule> {
    var name := ComboMacro(combo, cfg.macros, keys);
    if name.None? || name.value !in cfg.macros then None else
    match CompileMacro(cfg.macros[name.value], keys)
    case Some(compiled) => Some(MacroRule(Cross, name.value, compiled.0, compiled.1, Combo))
    case None => None
  }

  predicate ComboMacroCompiles(combo: ComboConfig, cfg: ConfigFile, keys: KeyTable) {
    var name := ComboMacro(combo, cfg.macros, keys);
    name.Some? && name.value in cfg.macros ==> CompileMacro(cfg.macros[name.value], keys).Some?
  }

  method BuildSectionMacros(combos: seq<ComboConfig>, cfg: ConfigFile, keys: KeyTable) returns (r: Option<seq<MacroRule>>)
    ensures r.Some? <==> forall i :: 0 <= i < |combos| ==> ComboMacroCompiles(combos[i], cfg, keys)
    ensures r.Some? ==> forall rule :: rule in r.value <==>
              exists i :: 0 <= i < |combos| && ComboMacroRule(combos[i], cfg, keys) == Some(rule)
  {
    hide ComboMacroCompiles, ComboMacroRule;
    var configs: seq<MacroRule> := [];
    for i := 0 to |combos|
      invariant forall j :: 0 <= j < i ==> ComboMacroCompiles(combos[j], cfg, keys)
      invariant forall rule :: rule in configs <==>
        exists j :: 0 <= j < i && ComboMacroRule(combos[j], cfg, keys) == Some(rule)
    {
      var added: Option<MacroRule>;
      var ok;
      ok, added := BuildComboMacro(combos[i], cfg, keys);
      if !ok {
        return None;
      }
      if added.Some? {
        configs := configs + [added.value];
      }
    }
    return Some(configs);
  }

  /** One combo entry: an unknown or absent macro is skipped, an uncompilable one is an error. */
  method BuildComboMacro(combo: ComboConfig, cfg: ConfigFile, keys: KeyTable) returns (ok: bool, added: Option<MacroRule>)
    ensures ok <==> ComboMacroCompiles(combo, cfg, keys)
    ensures ok ==> added == ComboMacroRule(combo, cfg, keys)
  {
    var name := ComboMacro(combo, cfg.macros, keys);
    if name.None? || name.value !in cfg.macros {
      return true, None;
    }
    var compiled := CompileMacro(cfg.macros[name.value], keys);
    if compiled.None? {
      return false, None;
    }
    return true, Some(MacroRule(Cross, name.value, compiled.value.0, compiled.value.1, Combo));
  }

  lemma SectionMacros(rule: MacroRule, conf: ButtonConfig, cfg: ConfigFile, keys: KeyTable)
    requires conf.remap == Some("combo")
    ensures (exists i :: 0 <= i < |conf.combos| && ComboMacroRule(conf.combos[i], cfg, keys) == Some(rule))
            <==> IsComboMacroOf(rule, conf, cfg, keys)
  {
    if IsComboMacroOf(rule, conf, cfg, keys) {
      var i :| 0 <= i < |conf.combos| && ComboMacro(conf.combos[i], cfg.macros, keys) == Some(rule.name);
      assert ComboMacroRule(conf.combos[i], cfg, keys) == Some(rule);
    }
  }

  lemma SectionCompiles(conf: ButtonConfig, cfg: ConfigFile, keys: KeyTable)
    requires conf.remap == Some("combo")
    ensures (forall i :: 0 <= i < |conf.combos| ==> ComboMacroCompiles(conf.combos[i], cfg, keys))
            <==> ComboMacrosCompile(conf, cfg, keys)
  {
    if i :| 0 <= i < |conf.combos| && !ComboMacroCompiles(conf.combos[i], cfg, keys) {
      var name := ComboMacro(conf.combos[i], cfg.macros, keys).value;
      assert ComboUse(name, conf, cfg.macros, keys);
    } else {
      forall name | name in cfg.macros && ComboUse(name, conf, cfg.macros, keys)
        ensures CompileMacro(cfg.macros[name], keys).Some?
      {
        var i :| 0 <= i < |conf.combos| && ComboMacro(conf.combos[i], cfg.macros, keys) == Some(name);
        assert ComboMacroCompiles(conf.combos[i], cfg, keys);
      }
    }
  }

  method BuildComboMacros(cfg: ConfigFile, keys: KeyTable) returns (r: Option<seq<MacroRule>>)
    ensures r.Some? <==> forall b :: b in cfg.buttons ==> ComboMacrosCompile(cfg.buttons[b], cfg, keys)
    ensures r.Some? ==> forall rule :: rule in r.value <==>
              exists b :: b in cfg.buttons && IsComboMacroOf(rule, cfg.buttons[b], cfg, keys)
  {
    var configs: seq<MacroRule> := [];
    var names := cfg.buttons.Keys;
    while names != {}
      invariant names <= cfg.buttons.Keys
      invariant forall b :: b in cfg.buttons && b !in names ==> ComboMacrosCompile(cfg.buttons[b], cfg, keys)
      invariant forall rule :: rule in configs <==>
        exists b :: b in cfg.buttons && b !in names && IsComboMacroOf(rule, cfg.buttons[b], cfg, keys)
    {
      var b :| b in names;
      names := names - {b};
      var conf := cfg.buttons[b];
      if conf.remap == Some("combo") {
        var section := BuildSectionMacros(conf.combos, cfg, keys);
        SectionCompiles(conf, cfg, keys);
        if section.None? {
          return None;
        }
        forall rule ensures rule in section.value <==> IsComboMacroOf(rule, conf, cfg, keys) {
          SectionMacros(rule, conf, cfg, keys);
        }
        configs := configs + section.value;
      }
    }
    return Some(configs);
  }

  lemma MacrosCompile(cfg: ConfigFile, keys: KeyTable)
    ensures (forall name :: name in cfg.macros && UsesMacro(name, cfg, keys) ==> CompileMacro(cfg.macros[name], keys).Some?)
            <==> (forall b :: b in cfg.buttons ==>
                    PhysicalMacroCompiles(b, cfg, keys) && ComboMacrosCompile(cfg.buttons[b], cfg, keys))
  {
    if forall name :: name in cfg.macros && UsesMacro(name, cfg, keys) ==> CompileMacro(cfg.macros[name], keys).Some? {
      forall b | b in cfg.buttons
        ensures PhysicalMacroCompiles(b, cfg, keys) && ComboMacrosCompile(cfg.buttons[b], cfg, keys)
      {
        assert forall name :: PhysicalUse(name, b, cfg, keys) ==> UsesMacro(name, cfg, keys);
        assert forall name :: ComboUse(name, cfg.buttons[b], cfg.macros, keys) ==> UsesMacro(name, cfg, keys);
      }
    }
  }

  /** The split children are pushed last, left then right. */
  method CompileChildren(cfg: ConfigFile, keys: KeyTable) returns (r: Option<seq<RemapRule>>)
    requires CompilesSplit(cfg)
    ensures r.Some? <==> ChildTarget("touchpad_left", cfg, keys).Some? && ChildTarget("touchpad_right", cfg, keys).Some?
    ensures r.Some? ==> forall rule :: rule in r.value <==> IsChildRule(rule, cfg, keys)
    ensures r.Some? ==> r.value == ChildRules(cfg, keys)
  {
    var left, right := ChildTarget("touchpad_left", cfg, keys), ChildTarget("touchpad_right", cfg, keys);
    if left.None? || right.None? {
      return None;
    }
    return Some([RemapRule(TouchpadLeft, left.value), RemapRule(TouchpadRight, right.value)]);
  }

  ghost predicate TurbosFrom(turbos: seq<TurboConfig>, cfg: ConfigFile) {
    forall turbo :: turbo in turbos <==> exists name :: name in cfg.buttons && IsTurboOf(turbo, name, cfg.buttons[name])
  }

  ghost predicate ChildrenFrom(children: seq<RemapRule>, cfg: ConfigFile, keys: KeyTable) {
    forall rule :: rule in children <==> IsChildRule(rule, cfg, keys)
  }

  ghost predicate MacrosFrom(macros: seq<MacroRule>, cfg: ConfigFile, keys: KeyTable) {
    forall rule :: rule in macros <==> FromMacro(rule, cfg, keys)
  }

  lemma MacrosJoin(physical: seq<MacroRule>, combo: seq<MacroRule>, cfg: ConfigFile, keys: KeyTable)
    requires forall rule :: rule in physical <==> exists b :: b in cfg.buttons && IsPhysicalMacroOf(rule, b, cfg, keys)
    requires forall rule :: rule in combo <==> exists b :: b in cfg.buttons && IsComboMacroOf(rule, cfg.buttons[b], cfg, keys)
    ensures MacrosFrom(physical + combo, cfg, keys)
  {
  }

  lemma Assembled(cfg: ConfigFile, keys: KeyTable, share: Share, children: seq<RemapRule>,
                  turbos: seq<TurboConfig>, macros: seq<MacroRule>)
    requires SharesOf(share, cfg.buttons.Keys, cfg, keys) && ChildrenFrom(children, cfg, keys)
    requires TurbosFrom(turbos, cfg) && MacrosFrom(macros, cfg, keys)
    ensures CompiledFrom(cfg, keys, MappingConfig(share.rules + children, CompilesSplit(cfg), turbos,
                                                  share.blocked, share.combos, macros))
  {
  }

  method BuildMacroConfigs(cfg: ConfigFile, keys: KeyTable) returns (r: Option<seq<MacroRule>>)
    ensures r.Some? <==> forall name :: name in cfg.macros && UsesMacro(name, cfg, keys) ==> CompileMacro(cfg.macros[name], keys).Some?
    ensures r.Some? ==> MacrosFrom(r.value, cfg, keys)
  {
    MacrosCompile(cfg, keys);
    var physical := BuildPhysicalMacros(cfg, keys);
    if physical.None? {
      return None;
    }
    var combo := BuildComboMacros(cfg, keys);
    if combo.None? {
      return None;
    }
    MacrosJoin(physical.value, combo.value, cfg, keys);
    return Some(physical.value + combo.value);
  }

  method ToMappingConfig(cfg: ConfigFile, keys: KeyTable) returns (r: Option<MappingConfig>)
    ensures r.Some? <==> Compilable(cfg, keys)
    ensures r.Some? ==> CompiledFrom(cfg, keys, r.value)
    ensures r.Some? ==> exists order :: CompiledIn(order, cfg, keys, r.value)
  {
    hide SharesOf, Visits, RulesIn, CombosIn, ChildTarget, CompiledFrom, MacrosFrom;
    var split := CompilesSplit(cfg);
    var share, order := CompileButtons(cfg, keys, split);
    if share.None? {
      return None;
    }
    var children: seq<RemapRule> := [];
    if split {
      var compiled := CompileChildren(cfg, keys);
      if compiled.None? {
        return None;
      }
      children := compiled.value;
    }
    var turbos := BuildTurboConfigs(cfg);
    var macros := BuildMacroConfigs(cfg, keys);
    if macros.None? {
      return None;
    }
    Assembled(cfg, keys, share.value, children, turbos, macros.value);
    var mapping := MappingConfig(share.value.rules + children, split, turbos,
                                 share.value.blocked, share.value.combos, macros.value);
    assert CompiledIn(order, cfg, keys, mapping);
    return Some(mapping);
  }
}

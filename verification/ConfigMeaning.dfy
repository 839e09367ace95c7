/** What each entry of an accepted configuration file makes of its button (src/config/compile.rs). */
module ConfigMeaning {
  import opened Model
  import opened Mapping
  import opened Config
  import opened ConfigCompile
  import opened ConfigCheck
  import opened AcceptedMappings
  import opened Names

  /** The section of a button that is not part of a split touchpad. */
  predicate HasSection(cfg: ConfigFile, src: Button) {
    && Name(src) in cfg.buttons && src !in {TouchpadLeft, TouchpadRight}
    && !(src == Touchpad && cfg.buttons[Name(src)].remap == Some("split"))
  }

  lemma OwnSection(cfg: ConfigFile, keys: KeyTable, src: Button)
    requires Acceptable(cfg, keys) && HasSection(cfg, src)
    ensures FromName(Name(src)) == Some(src) && !SkippedBySplit(Name(src), cfg)
  {
    hide Name, FromName, ButtonOk, MacroOk, SplitOk, ParseTarget, CompilesSplit, HasSplit;
    NameRoundTrip(src);
    SplitAgrees(cfg, keys);
    SplitMeans(cfg, keys);
    TouchpadIsItself();
  }

  lemma TouchpadIsItself()
    ensures Name(Touchpad) == "touchpad"
  {
  }

  /** The target that a section's `remap` names. */
  lemma RemapMeans(cfg: ConfigFile, keys: KeyTable, mapping: MappingConfig, src: Button, parsed: ParsedTarget, dst: Target)
    requires Acceptable(cfg, keys) && CompiledFrom(cfg, keys, mapping) && HasSection(cfg, src)
    requires ParsedRemap(cfg.buttons[Name(src)], cfg.macros, keys) == Some(parsed) && IntoMappingTarget(parsed) == Some(dst)
    ensures RemapRule(src, dst) in mapping.rules
  {
    hide Name, FromName, ParseTarget, IntoMappingTarget, ParsedRemap, SkippedBySplit, CompilesSplit, Acceptable;
    OwnSection(cfg, keys, src);
    assert IsRuleOf(RemapRule(src, dst), Name(src), cfg, keys);
  }

  /** A button's name as `remap` gives exactly the rule to that button. */
  lemma ButtonRemap(cfg: ConfigFile, keys: KeyTable, mapping: MappingConfig, src: Button, dst: Button)
    requires Acceptable(cfg, keys) && CompiledFrom(cfg, keys, mapping) && HasSection(cfg, src)
    requires cfg.buttons[Name(src)].remap == Some(Name(dst)) && dst !in UNBINDABLE
    ensures RemapRule(src, ToButton(dst)) in mapping.rules
    ensures forall rule :: rule in mapping.rules && rule.src == src ==> rule.dst == ToButton(dst)
  {
    hide Name, FromName, ParseTarget, CompiledFrom, Acceptable;
    ButtonTargets(dst, cfg.macros, keys);
    FirstLetter(dst);
    RemapMeans(cfg, keys, mapping, src, ButtonTarget(dst), ToButton(dst));
    OneJob(cfg, keys, mapping, RemapRule(src, ToButton(dst)));
  }

  /** A trigger, stick, key or macro target gives exactly that rule. */
  lemma OtherRemap(cfg: ConfigFile, keys: KeyTable, mapping: MappingConfig, src: Button, target: string, dst: Target)
    requires Acceptable(cfg, keys) && CompiledFrom(cfg, keys, mapping) && HasSection(cfg, src)
    requires cfg.buttons[Name(src)].remap == Some(target) && target != ""
    requires match ParseTarget(target, cfg.macros, keys)
             case Some(TriggerTarget(trigger)) => dst == TriggerFull(trigger)
             case Some(StickTarget(dir)) => dst == Stick(dir)
             case Some(KeyTarget(code)) => dst == Keyboard(code)
             case Some(MacroRef(name)) => dst == Target.Macro(name)
             case _ => false
    ensures RemapRule(src, dst) in mapping.rules
    ensures forall rule :: rule in mapping.rules && rule.src == src ==> rule.dst == dst
  {
    hide Name, FromName, ParseTarget, CompiledFrom, Acceptable;
    RemapMeans(cfg, keys, mapping, src, ParseTarget(target, cfg.macros, keys).value, dst);
    OneJob(cfg, keys, mapping, RemapRule(src, dst));
  }

  /** `block` blocks the button and gives it no rule. */
  lemma BlockMeans(cfg: ConfigFile, keys: KeyTable, mapping: MappingConfig, src: Button)
    requires Acceptable(cfg, keys) && CompiledFrom(cfg, keys, mapping) && HasSection(cfg, src)
    ensures cfg.buttons[Name(src)].remap == Some("block") ==> src in mapping.blockedButtons
    ensures cfg.buttons[Name(src)].remap == Some("block") ==> forall rule :: rule in mapping.rules ==> rule.src != src
  {
    hide Name, FromName, CompiledFrom, Acceptable, SkippedBySplit, ParseTarget;
    if cfg.buttons[Name(src)].remap == Some("block") {
      KeywordTargets(cfg.macros, keys);
      BlockSection(cfg, keys, mapping, src);
      forall rule | rule in mapping.rules ensures rule.src != src {
        OneJob(cfg, keys, mapping, rule);
      }
    }
  }

  /** An absent, empty or `passthrough` entry leaves the button alone. */
  lemma PassthroughMeans(cfg: ConfigFile, keys: KeyTable, mapping: MappingConfig, src: Button)
    requires Acceptable(cfg, keys) && CompiledFrom(cfg, keys, mapping) && HasSection(cfg, src)
    requires cfg.buttons[Name(src)].remap in {None, Some(""), Some("passthrough")}
    ensures src !in mapping.blockedButtons
    ensures forall rule :: rule in mapping.rules ==> rule.src != src
    ensures forall c :: c in mapping.comboConfigs ==> c.modifier != src
  {
    hide Name, FromName, ParseTarget, CompiledFrom, Acceptable;
    KeywordTargets(cfg.macros, keys);
    UntouchedSection(cfg, keys, mapping, src);
  }

  lemma UntouchedSection(cfg: ConfigFile, keys: KeyTable, mapping: MappingConfig, src: Button)
    requires Acceptable(cfg, keys) && CompiledFrom(cfg, keys, mapping)
    requires HasSection(cfg, src) && Name(src) in cfg.buttons
    requires ParsedRemap(cfg.buttons[Name(src)], cfg.macros, keys) == Some(Passthrough)
    ensures src !in mapping.blockedButtons
    ensures forall rule :: rule in mapping.rules ==> rule.src != src
    ensures forall c :: c in mapping.comboConfigs ==> c.modifier != src
  {
    hide Name, FromName, ParseTarget, ParsedRemap, IntoMappingTarget, SkippedBySplit, Acceptable, ComboRuleOf, IsChildRule;
    NoOtherTargets();
    OwnSection(cfg, keys, src);
    forall name | name in cfg.buttons && FromName(name) == Some(src) ensures name == Name(src) {
      OneSection(cfg, keys, name, Name(src));
    }
    forall rule | rule in mapping.rules ensures rule.src != src {
      if IsChildRule(rule, cfg, keys) {
        HalvesSkipped(cfg, keys, rule);
      } else {
        var name :| name in cfg.buttons && IsRuleOf(rule, name, cfg, keys);
      }
    }
  }

  lemma BlockSection(cfg: ConfigFile, keys: KeyTable, mapping: MappingConfig, src: Button)
    requires Acceptable(cfg, keys) && CompiledFrom(cfg, keys, mapping) && HasSection(cfg, src)
    requires ParsedRemap(cfg.buttons[Name(src)], cfg.macros, keys) == Some(Block)
    ensures src in mapping.blockedButtons
  {
    hide Name, FromName, ParseTarget, ParsedRemap, SkippedBySplit, CompilesSplit, Acceptable;
    OwnSection(cfg, keys, src);
    assert IsBlockOf(src, Name(src), cfg, keys);
  }

  /** Each combo entry gives its rule, between the buttons it names. */
  lemma ComboMeans(cfg: ConfigFile, keys: KeyTable, mapping: MappingConfig, src: Button, i: nat, key: Button, dst: Button)
    requires Acceptable(cfg, keys) && CompiledFrom(cfg, keys, mapping) && HasSection(cfg, src)
    requires cfg.buttons[Name(src)].remap == Some("combo") && i < |cfg.buttons[Name(src)].combos|
    requires cfg.buttons[Name(src)].combos[i] == ComboConfig(Name(key), Name(dst)) && dst !in UNBINDABLE
    ensures ComboRule(src, key, ToButton(dst)) in mapping.comboConfigs
  {
    hide Name, FromName, ParseTarget, SkippedBySplit, CompilesSplit, Acceptable;
    OwnSection(cfg, keys, src);
    NameRoundTrip(key);
    KeywordTargets(cfg.macros, keys);
    ButtonTargets(dst, cfg.macros, keys);
    assert ComboRuleOf(src, cfg.buttons[Name(src)].combos[i], cfg.macros, keys) == Some(ComboRule(src, key, ToButton(dst)));
    assert IsComboOf(ComboRule(src, key, ToButton(dst)), Name(src), cfg, keys);
  }

  /** `turbo` gives the button a turbo with the file's times, and only it does. */
  lemma TurboMeans(cfg: ConfigFile, keys: KeyTable, mapping: MappingConfig, src: Button)
    requires Acceptable(cfg, keys) && CompiledFrom(cfg, keys, mapping) && Name(src) in cfg.buttons
    ensures var conf := cfg.buttons[Name(src)];
            && (conf.turbo ==> TurboConfig(src, conf.turboIntervalMs, conf.turboDelayMs) in mapping.turboConfigs)
            && (!conf.turbo ==> forall turbo :: turbo in mapping.turboConfigs ==> turbo.src != src)
  {
    hide Name, FromName, Acceptable;
    var conf := cfg.buttons[Name(src)];
    NameRoundTrip(src);
    if conf.turbo {
      assert IsTurboOf(TurboConfig(src, conf.turboIntervalMs, conf.turboDelayMs), Name(src), conf);
    } else {
      forall turbo | turbo in mapping.turboConfigs ensures turbo.src != src {
        var name :| name in cfg.buttons && IsTurboOf(turbo, name, cfg.buttons[name]);
        OneSection(cfg, keys, name, Name(src));
      }
    }
  }

  /** A macro's name as `remap` gives the button that macro, played by the button itself. */
  lemma MacroMeans(cfg: ConfigFile, keys: KeyTable, mapping: MappingConfig, src: Button, name: string)
    returns (rule: MacroRule)
    requires Acceptable(cfg, keys) && CompiledFrom(cfg, keys, mapping) && Name(src) in cfg.buttons
    requires cfg.buttons[Name(src)].remap == Some(name) && !cfg.buttons[Name(src)].turbo
    requires ParseTarget(name, cfg.macros, keys) == Some(MacroRef(name))
    ensures rule in mapping.macroConfigs && rule.trigger == src && rule.name == name && rule.source.Physical?
  {
    hide Name, FromName, ParseTarget, ButtonOk, SplitOk, MacroOk, CompileMacro;
    NameRoundTrip(src);
    NamedMacro(name, cfg.macros, keys);
    assert MacroOk(name, cfg.macros[name], keys);
    MacroCompiles(name, cfg.macros[name], keys);
    var (mode, steps) := CompileMacro(cfg.macros[name], keys).value;
    rule := MacroRule(src, name, mode, steps, Physical);
    assert IsPhysicalMacroOf(rule, Name(src), cfg, keys);
    assert FromMacro(rule, cfg, keys);
  }

  lemma NamedMacro(name: string, macros: Macros, keys: KeyTable)
    requires ParseTarget(name, macros, keys) == Some(MacroRef(name))
    ensures name in macros
  {
    hide FromName;
  }
}

/** The configuration validator (src/config/validate.rs). */
module ConfigCheck {
  import opened Model
  import opened Mapping
  import opened Config
  import opened ConfigCompile
  import opened Runtime

  datatype ConfigError = BadDevice | BadButton(name: string) | BadMacro(name: string) | BadSplit | BadVersion

  datatype Verdict = Ok | Err(error: ConfigError)

  // -------------------------------------------- what an acceptable file is

  predicate SourceOk(name: string) {
    IsValidSrc(name) && name == Name(FromName(name).value)
  }

  predicate IsPartition(name: string) {
    name == "touchpad_left" || name == "touchpad_right"
  }

  predicate ComboOk(name: string, combo: ComboConfig, macros: Macros, keys: KeyTable) {
    var key := FromName(combo.key);
    && key.Some?
    && Name(key.value) != name
    && key.value !in {Mic, L2Analog, R2Analog, TouchpadLeft, TouchpadRight}
    && (var output := ParseTarget(combo.output, macros, keys);
        output.Some? && IntoMappingTarget(output.value).Some?)
    && !((name == "left_fn" || name == "right_fn") && key.value in {Cross, Circle, Square, Triangle})
  }

  predicate CombosOk(name: string, combos: seq<ComboConfig>, macros: Macros, keys: KeyTable) {
    && (forall i :: 0 <= i < |combos| ==> ComboOk(name, combos[i], macros, keys))
    && forall i, j :: 0 <= i < j < |combos| ==> FromName(combos[i].key) != FromName(combos[j].key)
  }

  predicate NamesMacro(parsed: Option<ParsedTarget>) {
    parsed.Some? && parsed.value.MacroRef?
  }

  predicate HasMacroOutput(conf: ButtonConfig, macros: Macros, keys: KeyTable) {
    var parsed := ParsedRemap(conf, macros, keys);
    || NamesMacro(parsed)
    || (parsed == Some(ComboMode)
        && exists i :: 0 <= i < |conf.combos| && NamesMacro(ParseTarget(conf.combos[i].output, macros, keys)))
  }

  predicate TurboOk(name: string, conf: ButtonConfig, macros: Macros, keys: KeyTable) {
    var remap := if conf.remap.Some? then conf.remap.value else "";
    conf.turbo ==>
      && !((name == "l2" || name == "r2") && (remap == "l2" || remap == "r2" || remap == ""))
      && conf.turboIntervalMs > 0
      && !HasMacroOutput(conf, macros, keys)
      && conf.remap != Some("passthrough")
  }

  predicate RemapOk(conf: ButtonConfig, macros: Macros, keys: KeyTable) {
    var parsed := ParsedRemap(conf, macros, keys);
    parsed.Some? && (parsed.value in {Passthrough, Block, ComboMode} || IntoMappingTarget(parsed.value).Some?)
  }

  predicate IsSplit(name: string, conf: ButtonConfig, macros: Macros, keys: KeyTable) {
    name == "touchpad" && ParsedRemap(conf, macros, keys) == Some(Split)
  }

  predicate ButtonOk(name: string, conf: ButtonConfig, macros: Macros, keys: KeyTable) {
    var parsed := ParsedRemap(conf, macros, keys);
    SourceOk(name) &&
    (IsSplit(name, conf, macros, keys) ||
      (&& !(IsPartition(name) && parsed == Some(ComboMode))
       && (parsed == Some(ComboMode) <==> conf.combos != [])
       && CombosOk(name, conf.combos, macros, keys)
       && TurboOk(name, conf, macros, keys)
       && RemapOk(conf, macros, keys)))
  }

  predicate StepOk(step: StepConfig, keys: KeyTable) {
    ResolveStepTarget(step.key, keys).Some? && step.pressMs < step.releaseMs
  }

  predicate MacroOk(name: string, conf: MacroConfig, keys: KeyTable) {
    && FromName(name).None?
    && name != "passthrough"
    && !IsReservedMacroName(name, keys)
    && (conf.mode == "hold" || conf.mode == "single")
    && conf.sequence != []
    && forall i :: 0 <= i < |conf.sequence| ==> StepOk(conf.sequence[i], keys)
  }

  predicate HasSplit(cfg: ConfigFile, keys: KeyTable) {
    "touchpad" in cfg.buttons && IsSplit("touchpad", cfg.buttons["touchpad"], cfg.macros, keys)
  }

  predicate ChildOk(child: string, cfg: ConfigFile, keys: KeyTable) {
    child in cfg.buttons &&
    var conf := cfg.buttons[child];
    var parsed := ParseTarget(if conf.remap.Some? then conf.remap.value else "block", cfg.macros, keys);
    parsed.Some? && !parsed.value.Block? && IntoMappingTarget(parsed.value).Some?
  }

  predicate SplitOk(cfg: ConfigFile, keys: KeyTable) {
    if HasSplit(cfg, keys) then ChildOk("touchpad_left", cfg, keys) && ChildOk("touchpad_right", cfg, keys)
    else "touchpad_left" !in cfg.buttons && "touchpad_right" !in cfg.buttons
  }

  predicate DeviceOk(cfg: ConfigFile) {
    cfg.outputDevice in {"auto", "dualsense", "dualshock4"}
  }

  /** Every check made before the final trial compilation. */
  predicate Acceptable(cfg: ConfigFile, keys: KeyTable) {
    && DeviceOk(cfg)
    && (forall name :: name in cfg.buttons ==> ButtonOk(name, cfg.buttons[name], cfg.macros, keys))
    && (forall name :: name in cfg.macros ==> MacroOk(name, cfg.macros[name], keys))
    && SplitOk(cfg, keys)
    && cfg.version == 2
  }

  // ----------------------------------------------- acceptable files compile

  lemma CanonicalTouchpad(name: string)
    requires SourceOk(name)
    ensures FromName(name) == Some(Touchpad) <==> name == "touchpad"
    ensures FromName(name) == Some(TouchpadLeft) <==> name == "touchpad_left"
    ensures FromName(name) == Some(TouchpadRight) <==> name == "touchpad_right"
  {
    hide FromName;
    TouchpadNames();
  }

  /** The validator and the compiler agree on whether the touchpad is split. */
  lemma SplitAgrees(cfg: ConfigFile, keys: KeyTable)
    requires Acceptable(cfg, keys)
    ensures CompilesSplit(cfg) <==> HasSplit(cfg, keys)
  {
    if HasSplit(cfg, keys) {
      OneSpelling(cfg.buttons["touchpad"].remap.value, cfg.macros, keys);
      TouchpadNames();
      assert SplitsTouchpad("touchpad", cfg.buttons["touchpad"]);
    }
    if name :| name in cfg.buttons && SplitsTouchpad(name, cfg.buttons[name]) {
      assert ButtonOk(name, cfg.buttons[name], cfg.macros, keys);
      CanonicalTouchpad(name);
      OneSpelling("split", cfg.macros, keys);
    }
  }

  lemma MacroCompiles(name: string, conf: MacroConfig, keys: KeyTable)
    requires MacroOk(name, conf, keys)
    ensures CompileMacro(conf, keys).Some?
  {
    assert forall i :: 0 <= i < |conf.sequence| ==> StepOk(conf.sequence[i], keys);
  }

  lemma ButtonCompiles(name: string, cfg: ConfigFile, keys: KeyTable)
    requires Acceptable(cfg, keys) && name in cfg.buttons
    ensures ButtonCompilable(name, cfg, keys)
  {
    var conf := cfg.buttons[name];
    assert ButtonOk(name, conf, cfg.macros, keys);
    SplitAgrees(cfg, keys);
    CanonicalTouchpad(name);
    if ParsedRemap(conf, cfg.macros, keys) == Some(ComboMode) {
      forall i | 0 <= i < |conf.combos| ensures ComboCompilable(conf.combos[i], cfg.macros, keys) {
        assert ComboOk(name, conf.combos[i], cfg.macros, keys);
      }
    }
  }

  /** The checks before the last line already imply that compilation succeeds. */
  lemma AcceptableCompiles(cfg: ConfigFile, keys: KeyTable)
    requires Acceptable(cfg, keys)
    ensures Compilable(cfg, keys)
  {
    forall name | name in cfg.buttons ensures ButtonCompilable(name, cfg, keys) {
      ButtonCompiles(name, cfg, keys);
    }
    forall name | name in cfg.macros ensures CompileMacro(cfg.macros[name], keys).Some? {
      MacroCompiles(name, cfg.macros[name], keys);
    }
    SplitAgrees(cfg, keys);
  }

  lemma CompiledStepsSafe(name: string, conf: MacroConfig, keys: KeyTable)
    requires MacroOk(name, conf, keys)
    ensures var compiled := CompileMacro(conf, keys);
            compiled.Some? && compiled.value.1 != []
            && forall i :: 0 <= i < |compiled.value.1| ==> compiled.value.1[i].pressMs < compiled.value.1[i].releaseMs
  {
    assert forall i :: 0 <= i < |conf.sequence| ==> StepOk(conf.sequence[i], keys);
  }

  lemma TurboRuleSafe(cfg: ConfigFile, keys: KeyTable, name: string, turbo: TurboConfig)
    requires Acceptable(cfg, keys) && name in cfg.buttons && IsTurboOf(turbo, name, cfg.buttons[name])
    ensures turbo.intervalMs > 0 || (CompilesSplit(cfg) && turbo.src == Touchpad)
  {
    assert ButtonOk(name, cfg.buttons[name], cfg.macros, keys);
    SplitAgrees(cfg, keys);
    TouchpadNames();
  }

  /** What it compiles to can never trip a timing assertion. */
  lemma AcceptableIsSafe(cfg: ConfigFile, keys: KeyTable, mapping: MappingConfig)
    requires Acceptable(cfg, keys) && CompiledFrom(cfg, keys, mapping)
    ensures MappingSafe(mapping)
  {
    forall i | 0 <= i < |mapping.turboConfigs|
      ensures mapping.turboConfigs[i].intervalMs > 0
              || (mapping.splitTouchpad && mapping.turboConfigs[i].src == Touchpad)
    {
      var turbo := mapping.turboConfigs[i];
      assert turbo in mapping.turboConfigs;
      var name :| name in cfg.buttons && IsTurboOf(turbo, name, cfg.buttons[name]);
      TurboRuleSafe(cfg, keys, name, turbo);
    }
    forall i | 0 <= i < |mapping.macroConfigs| ensures RuleSafe(mapping.macroConfigs[i]) {
      var rule := mapping.macroConfigs[i];
      assert rule in mapping.macroConfigs;
      MacroRuleSafe(cfg, keys, rule);
    }
  }

  lemma MacroRuleSafe(cfg: ConfigFile, keys: KeyTable, rule: MacroRule)
    requires Acceptable(cfg, keys) && FromMacro(rule, cfg, keys)
    ensures RuleSafe(rule)
  {
    hide CompileMacro, MacroOk, ButtonOk, SplitOk, PhysicalUse, ComboUse, FromName;
    CompiledStepsSafe(rule.name, cfg.macros[rule.name], keys);
  }

  // ---------------------------------------------------------- the validator

  /** One more entry is fine when it is fine itself and its key was not used before. */
  lemma CombosSnoc(name: string, combos: seq<ComboConfig>, i: nat, macros: Macros, keys: KeyTable)
    requires i < |combos| && CombosOk(name, combos[..i], macros, keys)
    ensures CombosOk(name, combos[..i + 1], macros, keys) <==>
            ComboOk(name, combos[i], macros, keys)
            && forall c :: c in combos[..i] ==> FromName(c.key) != FromName(combos[i].key)
    ensures !CombosOk(name, combos[..i + 1], macros, keys) ==> !CombosOk(name, combos, macros, keys)
  {
    hide ComboOk, FromName;
    var some, before := combos[..i + 1], combos[..i];
    assert some == before + [combos[i]];
    if CombosOk(name, some, macros, keys) {
      forall c | c in before ensures FromName(c.key) != FromName(combos[i].key) {
        var j :| 0 <= j < i && before[j] == c;
        assert some[j] == c && some[i] == combos[i];
      }
      assert ComboOk(name, some[i], macros, keys);
    }
    if CombosOk(name, combos, macros, keys) {
      assert forall j :: 0 <= j <= i ==> some[j] == combos[j];
    }
  }

  method CheckCombos(name: string, combos: seq<ComboConfig>, macros: Macros, keys: KeyTable) returns (ok: bool)
    ensures ok <==> CombosOk(name, combos, macros, keys)
  {
    hide CombosOk, FromName, Name, ParseTarget, IntoMappingTarget;
    NoCombosOk(name, macros, keys);
    var seen: set<Button> := {};
    var isFn := name == "left_fn" || name == "right_fn";
    for i := 0 to |combos|
      invariant CombosOk(name, combos[..i], macros, keys)
      invariant forall c :: c in combos[..i] ==> FromName(c.key).Some? && FromName(c.key).value in seen
      invariant forall b :: b in seen ==> exists c :: c in combos[..i] && FromName(c.key) == Some(b)
    {
      CombosSnoc(name, combos, i, macros, keys);
      var combo := combos[i];
      assert combos[..i + 1] == combos[..i] + [combo];
      var key := FromName(combo.key);
      if key.None? {
        return false;
      }
      if Name(key.value) == name {
        return false;
      }
      if key.value in {Mic, L2Analog, R2Analog, TouchpadLeft, TouchpadRight} {
        return false;
      }
      var output := ParseTarget(combo.output, macros, keys);
      if output.None? || output == Some(Passthrough) || IntoMappingTarget(output.value).None? {
        PassthroughHasNoTarget();
        return false;
      }
      if key.value in seen {
        return false;
      }
      seen := seen + {key.value};
      if isFn && key.value in {Cross, Circle, Square, Triangle} {
        return false;
      }
    }
    assert combos[..|combos|] == combos;
    return true;
  }

  lemma NoCombosOk(name: string, macros: Macros, keys: KeyTable)
    ensures CombosOk(name, [], macros, keys)
  {
  }

  lemma PassthroughHasNoTarget()
    ensures IntoMappingTarget(Passthrough).None?
  {
  }

  /** Some output of a turbo section is a macro: its own target, or that of one of its combos. */
  method FindMacroOutput(conf: ButtonConfig, parsed: Option<ParsedTarget>, macros: Macros, keys: KeyTable) returns (found: bool)
    requires parsed == ParsedRemap(conf, macros, keys)
    ensures found == HasMacroOutput(conf, macros, keys)
  {
    hide ParseTarget, ParsedRemap;
    match parsed {
      case Some(MacroRef(_)) => return true;
      case Some(ComboMode) =>
        for i := 0 to |conf.combos|
          invariant forall j :: 0 <= j < i ==> !NamesMacro(ParseTarget(conf.combos[j].output, macros, keys))
        {
          var output := ParseTarget(conf.combos[i].output, macros, keys);
          if output.Some? && output.value.MacroRef? {
            return true;
          }
        }
        return false;
      case _ => return false;
    }
  }

  method CheckTurbo(name: string, conf: ButtonConfig, parsed: Option<ParsedTarget>, macros: Macros, keys: KeyTable)
    returns (ok: bool)
    requires parsed == ParsedRemap(conf, macros, keys)
    ensures ok == TurboOk(name, conf, macros, keys)
  {
    hide ParsedRemap, HasMacroOutput;
    var remap := if conf.remap.Some? then conf.remap.value else "";
    if conf.turbo && (name == "l2" || name == "r2") {
      var targetIsTrigger := remap == "l2" || remap == "r2" || remap == "";
      if targetIsTrigger {
        return false;
      }
    }
    if conf.turbo && conf.turboIntervalMs == 0 {
      return false;
    }
    if conf.turbo {
      var macroOutput := FindMacroOutput(conf, parsed, macros, keys);
      if macroOutput || conf.remap == Some("passthrough") {
        return false;
      }
    }
    return true;
  }

  method CheckButton(name: string, conf: ButtonConfig, macros: Macros, keys: KeyTable) returns (ok: bool, split: bool)
    ensures ok <==> ButtonOk(name, conf, macros, keys)
    ensures ok ==> split == IsSplit(name, conf, macros, keys)
  {
    hide CombosOk, TurboOk, ParseTarget, IntoMappingTarget;
    ok, split := false, false;
    if !IsValidSrc(name) {
      return;
    }
    var button := FromName(name).value;
    if Lower(name) == Name(button) && name != Name(button) {
      return;
    }
    var remap := if conf.remap.Some? then conf.remap.value else "";
    var parsed := if remap == "" then Some(Passthrough) else ParseTarget(remap, macros, keys);
    if name == "touchpad" && parsed == Some(Split) {
      return true, true;
    }
    var isCombo := name != "touchpad_left" && name != "touchpad_right" && parsed == Some(ComboMode);
    if IsPartition(name) && parsed == Some(ComboMode) {
      return;
    }
    if isCombo && conf.combos == [] {
      return;
    }
    if !isCombo && conf.combos != [] {
      return;
    }
    var combosOk := CheckCombos(name, conf.combos, macros, keys);
    if !combosOk {
      return;
    }
    var turboOk := CheckTurbo(name, conf, parsed, macros, keys);
    if !turboOk {
      return;
    }
    match parsed {
      case None => return;
      case Some(target) =>
        ok := target.Passthrough? || target.Block? || target.ComboMode? || IntoMappingTarget(target).Some?;
    }
  }

  /** One half of a split touchpad, whose remap defaults to a block. */
  method CheckChild(child: string, cfg: ConfigFile, keys: KeyTable) returns (ok: bool)
    requires child in cfg.buttons
    ensures ok == ChildOk(child, cfg, keys)
  {
    hide ParseTarget, IntoMappingTarget;
    var conf := cfg.buttons[child];
    var remap := if conf.remap.Some? then conf.remap.value else "block";
    var parsed := ParseTarget(remap, cfg.macros, keys);
    if parsed.None? || parsed.value.Block? {
      return false;
    }
    return IntoMappingTarget(parsed.value).Some?;
  }

  /** Trigger and stick names are reserved anyway. */
  lemma ReservedBuiltins(name: string, keys: KeyTable)
    ensures ParseTarget(name, map[], keys).Some? ==> IsReservedMacroName(name, keys)
  {
  }

  method CheckMacro(name: string, conf: MacroConfig, keys: KeyTable) returns (ok: bool)
    ensures ok <==> MacroOk(name, conf, keys)
  {
    ReservedBuiltins(name, keys);
    hide FromName, ParseTarget, IsReservedMacroName, ResolveStepTarget;
    if FromName(name).Some? || name == "passthrough" {
      return false;
    }
    var builtin := ParseTarget(name, map[], keys);
    if builtin.Some? && (builtin.value.TriggerTarget? || builtin.value.StickTarget?) {
      return false;
    }
    if IsReservedMacroName(name, keys) {
      return false;
    }
    if conf.mode != "hold" && conf.mode != "single" {
      return false;
    }
    if conf.sequence == [] {
      return false;
    }
    for i := 0 to |conf.sequence|
      invariant forall j :: 0 <= j < i ==> StepOk(conf.sequence[j], keys)
    {
      var step := conf.sequence[i];
      if ResolveStepTarget(step.key, keys).None? || step.releaseMs <= step.pressMs {
        return false;
      }
    }
    return true;
  }

  /** Checks every section, in whatever order the maps yield them, then compiles once on trial. */
  method Validate(cfg: ConfigFile, keys: KeyTable) returns (verdict: Verdict)
    ensures verdict.Ok? <==> Acceptable(cfg, keys)
    ensures match verdict
            case Err(BadDevice) => !DeviceOk(cfg)
            case Err(BadButton(name)) => name in cfg.buttons && !ButtonOk(name, cfg.buttons[name], cfg.macros, keys)
            case Err(BadMacro(name)) => name in cfg.macros && !MacroOk(name, cfg.macros[name], keys)
            case Err(BadSplit) => !SplitOk(cfg, keys)
            case Err(BadVersion) => cfg.version != 2
            case Ok => true
  {
    hide ButtonOk, MacroOk, ParsedRemap, ParseTarget, IntoMappingTarget, CompiledFrom, CompiledIn, Compilable;
    if cfg.outputDevice != "auto" && cfg.outputDevice != "dualsense" && cfg.outputDevice != "dualshock4" {
      return Err(BadDevice);
    }
    var hasSplit, hasLeft, hasRight := false, false, false;
    var names := cfg.buttons.Keys;
    while names != {}
      invariant names <= cfg.buttons.Keys
      invariant forall name :: name in cfg.buttons && name !in names ==>
        ButtonOk(name, cfg.buttons[name], cfg.macros, keys)
      invariant hasSplit <==> "touchpad" !in names && HasSplit(cfg, keys)
      invariant hasLeft <==> "touchpad_left" in cfg.buttons && "touchpad_left" !in names
      invariant hasRight <==> "touchpad_right" in cfg.buttons && "touchpad_right" !in names
    {
      var name :| name in names;
      names := names - {name};
      var ok, split := CheckButton(name, cfg.buttons[name], cfg.macros, keys);
      if !ok {
        return Err(BadButton(name));
      }
      hasSplit := hasSplit || split;
      hasLeft := hasLeft || name == "touchpad_left";
      hasRight := hasRight || name == "touchpad_right";
    }
    names := cfg.macros.Keys;
    while names != {}
      invariant names <= cfg.macros.Keys
      invariant forall name :: name in cfg.macros && name !in names ==> MacroOk(name, cfg.macros[name], keys)
    {
      var name :| name in names;
      names := names - {name};
      var ok := CheckMacro(name, cfg.macros[name], keys);
      if !ok {
        return Err(BadMacro(name));
      }
    }
    if hasSplit {
      if !hasLeft || !hasRight {
        return Err(BadSplit);
      }
      var leftOk := CheckChild("touchpad_left", cfg, keys);
      if !leftOk {
        return Err(BadSplit);
      }
      var rightOk := CheckChild("touchpad_right", cfg, keys);
      if !rightOk {
        return Err(BadSplit);
      }
    } else if hasLeft || hasRight {
      return Err(BadSplit);
    }
    if cfg.version != 2 {
      return Err(BadVersion);
    }
    AcceptableCompiles(cfg, keys);
    var trial := ToMappingConfig(cfg, keys);
    // The last line cannot reject what the checks accepted.
    assert trial.Some?;
    return Ok;
  }
}

/** A parsed configuration file and the names its entries may use (src/config/schema.rs, src/config/targets.rs). */
module Config {
  import opened Model
  import opened Mapping

  datatype ComboConfig = ComboConfig(key: string, output: string)

  datatype ButtonConfig = ButtonConfig(
    remap: Option<string>, turbo: bool, turboIntervalMs: nat, turboDelayMs: nat, combos: seq<ComboConfig>)

  datatype StepConfig = StepConfig(key: string, pressMs: nat, releaseMs: nat)

  datatype MacroConfig = MacroConfig(mode: string, sequence: seq<StepConfig>)

  type Macros = map<string, MacroConfig>

  /** The keyboard key table, left as a parameter. */
  type KeyTable = string -> Option<nat>

  datatype ConfigFile = ConfigFile(
    version: nat, outputDevice: string, buttons: map<string, ButtonConfig>, macros: Macros)

  // -------------------------------------------------------------- names

  function LowerChar(c: char): char {
    if 'A' <= c <= 'Z' then c - 'A' + 'a' else c
  }

  function Lower(s: string): string {
    seq(|s|, i requires 0 <= i < |s| => LowerChar(s[i]))
  }

  function Name(b: Button): string {
    match b
    case Square => "square"
    case Cross => "cross"
    case Circle => "circle"
    case Triangle => "triangle"
    case L1 => "l1"
    case R1 => "r1"
    case L2 => "l2"
    case R2 => "r2"
    case Create => "create"
    case Options => "options"
    case L3 => "l3"
    case R3 => "r3"
    case PS => "ps"
    case Touchpad => "touchpad"
    case TouchpadLeft => "touchpad_left"
    case TouchpadRight => "touchpad_right"
    case Mic => "mic"
    case DpadUp => "dpad_up"
    case DpadDown => "dpad_down"
    case DpadLeft => "dpad_left"
    case DpadRight => "dpad_right"
    case FnLeft => "left_fn"
    case FnRight => "right_fn"
    case LeftPaddle => "left_paddle"
    case RightPaddle => "right_paddle"
    case L2Analog => "l2_analog"
    case R2Analog => "r2_analog"
  }

  /** The button whose name is exactly `s`. */
  function Named(s: string): (r: Option<Button>)
    ensures r.Some? ==> Name(r.value) == s
  {
    if s == "square" then Some(Square)
    else if s == "cross" then Some(Cross)
    else if s == "circle" then Some(Circle)
    else if s == "triangle" then Some(Triangle)
    else if s == "l1" then Some(L1)
    else if s == "r1" then Some(R1)
    else if s == "l2" then Some(L2)
    else NamedB(s)
  }

  function NamedB(s: string): (r: Option<Button>)
    ensures r.Some? ==> Name(r.value) == s
  {
    if s == "r2" then Some(R2)
    else if s == "create" then Some(Create)
    else if s == "options" then Some(Options)
    else if s == "l3" then Some(L3)
    else if s == "r3" then Some(R3)
    else if s == "ps" then Some(PS)
    else if s == "touchpad" then Some(Touchpad)
    else NamedC(s)
  }

  function NamedC(s: string): (r: Option<Button>)
    ensures r.Some? ==> Name(r.value) == s
  {
    if s == "touchpad_left" then Some(TouchpadLeft)
    else if s == "touchpad_right" then Some(TouchpadRight)
    else if s == "mic" then Some(Mic)
    else if s == "dpad_up" then Some(DpadUp)
    else if s == "dpad_down" then Some(DpadDown)
    else if s == "dpad_left" then Some(DpadLeft)
    else if s == "dpad_right" then Some(DpadRight)
    else NamedD(s)
  }

  function NamedD(s: string): (r: Option<Button>)
    ensures r.Some? ==> Name(r.value) == s
  {
    if s == "left_fn" then Some(FnLeft)
    else if s == "right_fn" then Some(FnRight)
    else if s == "left_paddle" then Some(LeftPaddle)
    else if s == "right_paddle" then Some(RightPaddle)
    else if s == "l2_analog" then Some(L2Analog)
    else if s == "r2_analog" then Some(R2Analog)
    else None
  }

  /** Names are looked up without regard to case. */
  function FromName(name: string): Option<Button> {
    Named(Lower(name))
  }

  lemma TouchpadNames()
    ensures FromName("touchpad") == Some(Touchpad)
    ensures FromName("touchpad_left") == Some(TouchpadLeft)
    ensures FromName("touchpad_right") == Some(TouchpadRight)
  {
    assert Lower("touchpad") == "touchpad";
    assert Lower("touchpad_left") == "touchpad_left";
    assert Lower("touchpad_right") == "touchpad_right";
  }

  predicate IsValidSrc(name: string) {
    FromName(name).Some? && name != "mic" && name != "l2_analog" && name != "r2_analog"
  }

  // ------------------------------------------------------------- targets

  datatype ParsedTarget =
    | Passthrough | Block | Split | ComboMode
    | ButtonTarget(button: Button)
    | TriggerTarget(trigger: Trigger)
    | StickTarget(dir: StickDir)
    | KeyTarget(code: nat)
    | MacroRef(name: string)

  function Builtin(name: string): Option<ParsedTarget> {
    if name == "passthrough" then Some(Passthrough)
    else if name == "block" then Some(Block)
    else if name == "split" then Some(Split)
    else if name == "combo" then Some(ComboMode)
    else if name == "l2_full" then Some(TriggerTarget(TriggerL2))
    else if name == "r2_full" then Some(TriggerTarget(TriggerR2))
    else if name == "ls_up" then Some(StickTarget(LsUp))
    else if name == "ls_down" then Some(StickTarget(LsDown))
    else if name == "ls_left" then Some(StickTarget(LsLeft))
    else if name == "ls_right" then Some(StickTarget(LsRight))
    else if name == "rs_up" then Some(StickTarget(RsUp))
    else if name == "rs_down" then Some(StickTarget(RsDown))
    else if name == "rs_left" then Some(StickTarget(RsLeft))
    else if name == "rs_right" then Some(StickTarget(RsRight))
    else None
  }

  const KEY_PREFIX: string := "key:"

  function ParseTarget(name: string, macros: Macros, keys: KeyTable): Option<ParsedTarget> {
    if Builtin(name).Some? then Builtin(name)
    else if KEY_PREFIX <= name then
      (match keys(name[4..]) case Some(code) => Some(KeyTarget(code)) case None => None)
    else if FromName(name).Some? then Some(ButtonTarget(FromName(name).value))
    else if name in macros then Some(MacroRef(name))
    else None
  }

  predicate IsAllowedButtonTarget(b: Button) {
    b !in {FnLeft, FnRight, LeftPaddle, RightPaddle, Mic, TouchpadLeft, TouchpadRight, L2Analog, R2Analog}
  }

  function IntoMappingTarget(parsed: ParsedTarget): Option<Target> {
    match parsed
    case ButtonTarget(b) => if IsAllowedButtonTarget(b) then Some(ToButton(b)) else None
    case TriggerTarget(trigger) => Some(TriggerFull(trigger))
    case StickTarget(dir) => Some(Stick(dir))
    case KeyTarget(code) => Some(Keyboard(code))
    case MacroRef(name) => Some(Target.Macro(name))
    case _ => None
  }

  predicate IsReservedMacroName(name: string, keys: KeyTable) {
    KEY_PREFIX <= name || name == "macro" || ParseTarget(name, map[], keys).Some?
  }

  function ResolveStepTarget(key: string, keys: KeyTable): Option<StepTarget> {
    match ParseTarget(key, map[], keys)
    case Some(ButtonTarget(b)) =>
      if b in {Mic, L2Analog, R2Analog, TouchpadLeft, TouchpadRight} then None else Some(StepButton(b))
    case Some(KeyTarget(code)) => Some(StepKey(code))
    case _ => None
  }

  /** What a button's `remap` entry asks for; an absent or empty entry is a passthrough. */
  function ParsedRemap(conf: ButtonConfig, macros: Macros, keys: KeyTable): Option<ParsedTarget> {
    if conf.remap.None? || conf.remap.value == "" then Some(Passthrough)
    else ParseTarget(conf.remap.value, macros, keys)
  }

  /** `split` and `combo` have exactly one spelling. */
  lemma OneSpelling(name: string, macros: Macros, keys: KeyTable)
    ensures ParseTarget(name, macros, keys) == Some(Split) <==> name == "split"
    ensures ParseTarget(name, macros, keys) == Some(ComboMode) <==> name == "combo"
  {
  }
}

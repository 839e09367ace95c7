/** Every button has one name, found again in any case (src/config/targets.rs). */
module Names {
  import opened Model
  import opened Mapping
  import opened Config

  /** No capital letters. */
  predicate Small(s: string) {
    forall i :: 0 <= i < |s| ==> !('A' <= s[i] <= 'Z')
  }

  lemma SmallStays(s: string)
    requires Small(s)
    ensures Lower(s) == s
  {
  }

  lemma NamedFace(b: Button)
    requires b in {Square, Cross, Circle, Triangle}
    ensures Small(Name(b)) && Named(Name(b)) == Some(b)
  {
  }

  lemma NamedShoulder(b: Button)
    requires b in {L1, R1, L2, R2}
    ensures Small(Name(b)) && Named(Name(b)) == Some(b)
  {
  }

  lemma NamedMenu(b: Button)
    requires b in {Create, Options, L3, R3, PS, Touchpad}
    ensures Small(Name(b)) && Named(Name(b)) == Some(b)
  {
  }

  lemma NamedHalf(b: Button)
    requires b in {TouchpadLeft, TouchpadRight, Mic}
    ensures Small(Name(b)) && Named(Name(b)) == Some(b)
  {
  }

  lemma NamedDpad(b: Button)
    requires b in {DpadUp, DpadDown, DpadLeft, DpadRight}
    ensures Small(Name(b)) && Named(Name(b)) == Some(b)
  {
  }

  lemma NamedFn(b: Button)
    requires b in {FnLeft, FnRight}
    ensures Small(Name(b)) && Named(Name(b)) == Some(b)
  {
  }

  lemma NamedPaddle(b: Button)
    requires b in {LeftPaddle, RightPaddle}
    ensures Small(Name(b)) && Named(Name(b)) == Some(b)
  {
  }

  lemma NamedAnalog(b: Button)
    requires b in {L2Analog, R2Analog}
    ensures Small(Name(b)) && Named(Name(b)) == Some(b)
  {
  }

  lemma NamedAgain(b: Button)
    ensures Small(Name(b)) && Named(Name(b)) == Some(b)
  {
    hide Small, Name, Named;
    if b in {Square, Cross, Circle, Triangle} {
      NamedFace(b);
    } else if b in {L1, R1, L2, R2} {
      NamedShoulder(b);
    } else if b in {Create, Options, L3, R3, PS, Touchpad} {
      NamedMenu(b);
    } else if b in {TouchpadLeft, TouchpadRight, Mic} {
      NamedHalf(b);
    } else if b in {DpadUp, DpadDown, DpadLeft, DpadRight} {
      NamedDpad(b);
    } else if b in {FnLeft, FnRight} {
      NamedFn(b);
    } else if b in {LeftPaddle, RightPaddle} {
      NamedPaddle(b);
    } else {
      NamedAnalog(b);
    }
  }

  /** Looking a button's name up gives that button. */
  lemma NameRoundTrip(b: Button)
    ensures FromName(Name(b)) == Some(b)
  {
    hide Named, Small, Lower;
    NamedAgain(b);
    SmallStays(Name(b));
  }

  /** A name means a button exactly when it is that button's name in some mix of upper and lower case. */
  lemma NameMeans(s: string, b: Button)
    ensures FromName(s) == Some(b) <==> Lower(s) == Name(b)
  {
    hide Named, Name, Lower;
    NamedAgain(b);
  }

  // ------------------------------------------------------------- targets

  /** The names that are neither a button's nor a macro's. */
  lemma KeywordTargets(macros: Macros, keys: KeyTable)
    ensures ParseTarget("passthrough", macros, keys) == Some(Passthrough) && ParseTarget("block", macros, keys) == Some(Block)
    ensures ParseTarget("split", macros, keys) == Some(Split) && ParseTarget("combo", macros, keys) == Some(ComboMode)
    ensures ParseTarget("l2_full", macros, keys) == Some(TriggerTarget(TriggerL2))
    ensures ParseTarget("r2_full", macros, keys) == Some(TriggerTarget(TriggerR2))
  {
    hide FromName;
  }

  lemma LeftStickTargets(macros: Macros, keys: KeyTable)
    ensures ParseTarget("ls_up", macros, keys) == Some(StickTarget(LsUp))
    ensures ParseTarget("ls_down", macros, keys) == Some(StickTarget(LsDown))
    ensures ParseTarget("ls_left", macros, keys) == Some(StickTarget(LsLeft))
    ensures ParseTarget("ls_right", macros, keys) == Some(StickTarget(LsRight))
  {
    hide FromName;
  }

  lemma RightStickTargets(macros: Macros, keys: KeyTable)
    ensures ParseTarget("rs_up", macros, keys) == Some(StickTarget(RsUp))
    ensures ParseTarget("rs_down", macros, keys) == Some(StickTarget(RsDown))
    ensures ParseTarget("rs_left", macros, keys) == Some(StickTarget(RsLeft))
    ensures ParseTarget("rs_right", macros, keys) == Some(StickTarget(RsRight))
  {
    hide FromName;
  }

  /** The eight stick directions. */
  lemma StickTargets(macros: Macros, keys: KeyTable)
    ensures ParseTarget("ls_up", macros, keys) == Some(StickTarget(LsUp))
    ensures ParseTarget("ls_down", macros, keys) == Some(StickTarget(LsDown))
    ensures ParseTarget("ls_left", macros, keys) == Some(StickTarget(LsLeft))
    ensures ParseTarget("ls_right", macros, keys) == Some(StickTarget(LsRight))
    ensures ParseTarget("rs_up", macros, keys) == Some(StickTarget(RsUp))
    ensures ParseTarget("rs_down", macros, keys) == Some(StickTarget(RsDown))
    ensures ParseTarget("rs_left", macros, keys) == Some(StickTarget(RsLeft))
    ensures ParseTarget("rs_right", macros, keys) == Some(StickTarget(RsRight))
  {
    hide ParseTarget;
    LeftStickTargets(macros, keys);
    RightStickTargets(macros, keys);
  }

  /** Any other target is a key behind its prefix, a button in any case, or a macro; in that order. */
  lemma OtherTargets(name: string, macros: Macros, keys: KeyTable)
    requires name !in {"passthrough", "block", "split", "combo", "l2_full", "r2_full"}
    requires name !in {"ls_up", "ls_down", "ls_left", "ls_right", "rs_up", "rs_down", "rs_left", "rs_right"}
    ensures ParseTarget(name, macros, keys) ==
            if "key:" <= name then (if keys(name[4..]).Some? then Some(KeyTarget(keys(name[4..]).value)) else None)
            else if FromName(name).Some? then Some(ButtonTarget(FromName(name).value))
            else if name in macros then Some(MacroRef(name)) else None
  {
    hide FromName;
  }

  lemma NoKeywords(b: Button)
    ensures Builtin(Name(b)).None?
  {
    hide Builtin, Name;
    if b in {Square, Cross, Circle, Triangle, L1, R1, L2, R2, Create, Options, L3, R3, PS} {
      NoKeywordsPad(b);
    } else {
      NoKeywordsRest(b);
    }
  }

  lemma NoKeywordsPad(b: Button)
    requires b in {Square, Cross, Circle, Triangle, L1, R1, L2, R2, Create, Options, L3, R3, PS}
    ensures Builtin(Name(b)).None?
  {
  }

  lemma NoKeywordsRest(b: Button)
    requires b !in {Square, Cross, Circle, Triangle, L1, R1, L2, R2, Create, Options, L3, R3, PS}
    ensures Builtin(Name(b)).None?
  {
  }

  lemma FirstLetter(b: Button)
    ensures Name(b) != "" && Name(b)[0] != 'k'
  {
  }

  lemma Behind(s: string)
    requires "key:" <= s
    ensures s != "" && s[0] == 'k'
  {
    assert s[0] == "key:"[0];
  }

  /** As a target a button's name means that button. */
  lemma ButtonTargets(b: Button, macros: Macros, keys: KeyTable)
    ensures ParseTarget(Name(b), macros, keys) == Some(ButtonTarget(b))
  {
    hide Name, FromName, Builtin;
    NoKeywords(b);
    FirstLetter(b);
    if "key:" <= Name(b) {
      Behind(Name(b));
    }
    NameRoundTrip(b);
  }
}

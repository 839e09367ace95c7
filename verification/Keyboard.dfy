/** The virtual keyboard's held keys (src/keyboard.rs). */
module Keyboard {
  import opened Model

  datatype KeyEvent = KeyEvent(code: nat, down: bool)

  /** The keys down after a history of successful events. */
  function HeldAfter(events: seq<KeyEvent>): set<nat> {
    if events == [] then {} else
    var before, last := HeldAfter(events[..|events| - 1]), events[|events| - 1];
    if last.down then before + {last.code} else before - {last.code}
  }

  /** Every successful event changes its key: presses and releases of one key strictly alternate. */
  predicate Alternates(events: seq<KeyEvent>) {
    forall i :: 0 <= i < |events| ==> (events[i].down <==> events[i].code !in HeldAfter(events[..i]))
  }

  /** All presses or all releases, in ascending key order. */
  predicate Ascending(log: seq<KeyEvent>, down: bool) {
    && (forall i :: 0 <= i < |log| ==> log[i].down == down)
    && forall i, j :: 0 <= i < j < |log| ==> log[i].code < log[j].code
  }

  predicate BelowAll(log: seq<KeyEvent>, codes: set<nat>) {
    forall i, code :: 0 <= i < |log| && code in codes ==> log[i].code < code
  }

  function Codes(log: seq<KeyEvent>): set<nat> {
    set e | e in log :: e.code
  }

  /** Every key is as desired, unless the write that would have made it so was refused. */
  ghost predicate Obeys(held: set<nat>, desired: set<nat>, refused: seq<KeyEvent>) {
    forall code :: (code in held <==> code in desired) || KeyEvent(code, code in desired) in refused
  }

  lemma EventAppended(events: seq<KeyEvent>, event: KeyEvent)
    ensures HeldAfter(events + [event]) ==
            if event.down then HeldAfter(events) + {event.code} else HeldAfter(events) - {event.code}
    ensures Alternates(events) && (event.down <==> event.code !in HeldAfter(events)) ==> Alternates(events + [event])
  {
    assert (events + [event])[..|events|] == events;
    forall i | 0 <= i < |events| ensures (events + [event])[..i] == events[..i] {}
  }

  /** Every code of `codes` outside `rest` was tried once, in ascending order: `log` succeeded, `lost` failed. */
  ghost predicate Tried(codes: set<nat>, rest: set<nat>, log: seq<KeyEvent>, lost: seq<KeyEvent>, down: bool) {
    && rest <= codes
    && Ascending(log, down) && BelowAll(log, rest)
    && Ascending(lost, down) && BelowAll(lost, rest)
    && Codes(log) !! Codes(lost) && Codes(log) + Codes(lost) == codes - rest
  }

  lemma TriedNone(codes: set<nat>, down: bool)
    ensures Tried(codes, codes, [], [], down) && Codes([]) == {}
  {
  }

  lemma TriedMore(codes: set<nat>, rest: set<nat>, log: seq<KeyEvent>, lost: seq<KeyEvent>, down: bool, code: nat)
    requires Tried(codes, rest, log, lost, down)
    requires code in rest && forall x :: x in rest ==> code <= x
    ensures Tried(codes, rest - {code}, log + [KeyEvent(code, down)], lost, down)
    ensures Tried(codes, rest - {code}, log, lost + [KeyEvent(code, down)], down)
    ensures Codes(log + [KeyEvent(code, down)]) == Codes(log) + {code}
  {
    hide Codes;
    OneMoreCode(log, KeyEvent(code, down));
    OneMoreCode(lost, KeyEvent(code, down));
    StillAscending(log, rest, down, code);
    StillAscending(lost, rest, down, code);
    hide Ascending, BelowAll;
  }

  lemma StillAscending(log: seq<KeyEvent>, rest: set<nat>, down: bool, code: nat)
    requires Ascending(log, down) && BelowAll(log, rest)
    requires code in rest && forall x :: x in rest ==> code <= x
    ensures BelowAll(log, rest - {code})
    ensures Ascending(log + [KeyEvent(code, down)], down) && BelowAll(log + [KeyEvent(code, down)], rest - {code})
  {
  }

  class KeyboardDevice {
    var held: set<nat>
    /** Key events whose write succeeded. */
    ghost var events: seq<KeyEvent>
    /** Key events whose write failed. */
    ghost var refused: seq<KeyEvent>
    /** The keys last asked for, and how many writes had failed before that. */
    ghost var wanted: set<nat>
    ghost var since: nat

    /** The held keys are what the successful events left down. */
    ghost predicate Consistent()
      reads this`held, this`events
    {
      held == HeldAfter(events) && Alternates(events)
    }

    /** Every key is as last asked for, unless the write that would have made it so was refused then. */
    ghost predicate Valid()
      reads this
    {
      Consistent() && since <= |refused| && Obeys(held, wanted, refused[since..])
    }

    constructor ()
      ensures Valid() && held == {} && events == [] && refused == [] && wanted == {}
    {
      held, events, refused, wanted, since := {}, [], [], {}, 0;
    }

    /** A device write that may fail. */
    method SendEvent(code: nat, down: bool) returns (ok: bool)
      modifies this`events, this`refused
      ensures events == if ok then old(events) + [KeyEvent(code, down)] else old(events)
      ensures refused == if ok then old(refused) else old(refused) + [KeyEvent(code, down)]
    {
      ok := *;
      if ok {
        events := events + [KeyEvent(code, down)];
      } else {
        refused := refused + [KeyEvent(code, down)];
      }
    }

    method Press(code: nat) returns (ok: bool)
      requires Consistent()
      modifies this`held, this`events, this`refused
      ensures Consistent()
      ensures held == if ok then old(held) + {code} else old(held)
      ensures code in old(held) ==> ok && events == old(events)
      ensures events == if code !in old(held) && ok then old(events) + [KeyEvent(code, true)] else old(events)
      ensures refused == if ok then old(refused) else old(refused) + [KeyEvent(code, true)]
    {
      if code in held {
        return true;
      }
      EventAppended(events, KeyEvent(code, true));
      ok := SendEvent(code, true);
      if ok {
        held := held + {code};
      }
    }

    method Release(code: nat) returns (ok: bool)
      requires Consistent()
      modifies this`held, this`events, this`refused
      ensures Consistent()
      ensures held == if ok then old(held) - {code} else old(held)
      ensures code !in old(held) ==> ok && events == old(events)
      ensures events == if code in old(held) && ok then old(events) + [KeyEvent(code, false)] else old(events)
      ensures refused == if ok then old(refused) else old(refused) + [KeyEvent(code, false)]
    {
      if code !in held {
        return true;
      }
      EventAppended(events, KeyEvent(code, false));
      ok := SendEvent(code, false);
      if ok {
        held := held - {code};
      }
    }

    /** Releases the given held keys in ascending order, one write each; `lost` are the writes that failed. */
    method ReleaseAll(codes: set<nat>) returns (ghost log: seq<KeyEvent>, ghost lost: seq<KeyEvent>)
      requires Consistent() && codes <= held
      modifies this`held, this`events, this`refused
      ensures Consistent() && held == old(held) - Codes(log)
      ensures events == old(events) + log && refused == old(refused) + lost
      ensures Tried(codes, {}, log, lost, false)
    {
      hide KeyboardDevice.Consistent, Tried, Codes;
      log, lost := [], [];
      TriedNone(codes, false);
      var releases := codes;
      while releases != {}
        invariant Consistent() && releases <= held && held == old(held) - Codes(log)
        invariant events == old(events) + log && refused == old(refused) + lost
        invariant Tried(codes, releases, log, lost, false)
      {
        var code := Smallest(releases);
        TriedMore(codes, releases, log, lost, false, code);
        var ok := Release(code);
        releases := releases - {code};
        if ok {
          log := log + [KeyEvent(code, false)];
        } else {
          lost := lost + [KeyEvent(code, false)];
        }
      }
    }

    /** Presses the given missing keys in ascending order, one write each; `lost` are the writes that failed. */
    method PressAll(codes: set<nat>) returns (ghost log: seq<KeyEvent>, ghost lost: seq<KeyEvent>)
      requires Consistent() && codes !! held
      modifies this`held, this`events, this`refused
      ensures Consistent() && held == old(held) + Codes(log)
      ensures events == old(events) + log && refused == old(refused) + lost
      ensures Tried(codes, {}, log, lost, true)
    {
      hide KeyboardDevice.Consistent, Tried, Codes;
      log, lost := [], [];
      TriedNone(codes, true);
      var presses := codes;
      while presses != {}
        invariant Consistent() && presses !! held && held == old(held) + Codes(log)
        invariant events == old(events) + log && refused == old(refused) + lost
        invariant Tried(codes, presses, log, lost, true)
      {
        var code := Smallest(presses);
        TriedMore(codes, presses, log, lost, true, code);
        var ok := Press(code);
        presses := presses - {code};
        if ok {
          log := log + [KeyEvent(code, true)];
        } else {
          lost := lost + [KeyEvent(code, true)];
        }
      }
    }

    /**
     * Releases what is no longer wanted, then presses what is missing, each once and in ascending order.
     * A key ends up as desired unless its write was refused, and then it stays as it was.
     */
    method Sync(desired: set<nat>)
      requires Consistent()
      modifies this
      ensures Valid() && wanted == desired && since == |old(refused)|
      ensures old(events) <= events && old(refused) <= refused
      ensures SyncedBy(old(held), desired, events[|old(events)|..], refused[|old(refused)|..], held)
    {
      hide KeyboardDevice.Consistent, Tried;
      wanted, since := desired, |refused|;
      var releases := held - desired;
      ghost var log1, lost1 := ReleaseAll(releases);
      var presses := desired - held;
      ghost var log2, lost2 := PressAll(presses);
      assert events[|old(events)|..] == log1 + log2 && refused[since..] == lost1 + lost2;
      TwoPasses(old(held), desired, log1, lost1, log2, lost2, held);
    }

    /** Releases every key; only those whose write was refused stay held. */
    method FlushHeld()
      requires Consistent()
      modifies this
      ensures Valid() && wanted == {} && since == |old(refused)|
      ensures held <= old(held) && old(refused) <= refused
    {
      hide KeyboardDevice.Consistent;
      wanted, since := {}, |refused|;
      var rest := held;
      ghost var lost: seq<KeyEvent> := [];
      while rest != {}
        invariant Consistent() && rest <= held <= old(held)
        invariant refused == old(refused) + lost && since == |old(refused)| && wanted == {}
        invariant forall code :: code in held - rest ==> KeyEvent(code, false) in lost
      {
        var code :| code in rest;
        var ok := Release(code);
        rest := rest - {code};
        if !ok {
          lost := lost + [KeyEvent(code, false)];
        }
      }
      assert refused[since..] == lost;
    }
  }

  /** One synchronisation: every differing key was tried once, releases first, and only successes took effect. */
  ghost predicate SyncedBy(before: set<nat>, desired: set<nat>, log: seq<KeyEvent>, lost: seq<KeyEvent>, held: set<nat>) {
    && Codes(log) !! Codes(lost)
    && Codes(log) + Codes(lost) == (before - desired) + (desired - before)
    && held == before - (Codes(log) - desired) + (Codes(log) * desired)
    && ReleasesThenPresses(log)
  }

  lemma TwoPasses(before: set<nat>, desired: set<nat>, log1: seq<KeyEvent>, lost1: seq<KeyEvent>,
                  log2: seq<KeyEvent>, lost2: seq<KeyEvent>, held: set<nat>)
    requires Tried(before - desired, {}, log1, lost1, false)
    requires Tried(desired - (before - Codes(log1)), {}, log2, lost2, true)
    requires held == before - Codes(log1) + Codes(log2)
    ensures SyncedBy(before, desired, log1 + log2, lost1 + lost2, held)
    ensures Obeys(held, desired, lost1 + lost2)
  {
    var log, lost := log1 + log2, lost1 + lost2;
    CodesOfBoth(log1, log2);
    CodesOfBoth(lost1, lost2);
    assert log[..|log1|] == log1 && log[|log1|..] == log2;
    forall code | (code in held) != (code in desired) ensures KeyEvent(code, code in desired) in lost {
      assert code in Codes(lost1) || code in Codes(lost2);
      LostCode(lost1, false, code);
      LostCode(lost2, true, code);
    }
  }

  lemma LostCode(lost: seq<KeyEvent>, down: bool, code: nat)
    requires Ascending(lost, down)
    ensures code in Codes(lost) <==> KeyEvent(code, down) in lost
  {
  }

  lemma CodesOfBoth(a: seq<KeyEvent>, b: seq<KeyEvent>)
    ensures Codes(a + b) == Codes(a) + Codes(b)
  {
  }

  /** All the releases come first; both parts are in ascending order. */
  ghost predicate ReleasesThenPresses(log: seq<KeyEvent>) {
    exists n :: 0 <= n <= |log| && Ascending(log[..n], false) && Ascending(log[n..], true)
  }

  lemma OneMoreCode(log: seq<KeyEvent>, event: KeyEvent)
    ensures Codes(log + [event]) == Codes(log) + {event.code}
  {
  }

  /** The source sorts the keys first; taking the smallest each time visits them in the same order. */
  method Smallest(s: set<nat>) returns (least: nat)
    requires s != {}
    ensures least in s && forall x :: x in s ==> least <= x
  {
    least :| least in s;
    var rest := s - {least};
    while rest != {}
      invariant rest <= s && least in s
      invariant forall x :: x in s && x !in rest ==> least <= x
    {
      var x :| x in rest;
      if x < least {
        least := x;
      }
      rest := rest - {x};
    }
  }
}

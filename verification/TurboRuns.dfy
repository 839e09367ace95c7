/** How a turbo plays over a whole run, from the press that starts it (src/proxy/pipeline.rs, src/proxy/runtime.rs). */
module TurboRuns {
  import opened Arith
  import opened Model
  import opened Mapping
  import opened Runtime
  import opened Pipeline
  import opened PipelineRuns

  /** The last source frame of a run, if there was one, shows this button pressed. */
  predicate LastShows(events: seq<Event>, mapping: MappingConfig, b: Button) {
    events != [] &&
    var last := events[|events| - 1];
    if last.Source? then Snapshot(last.frame, mapping).Pressed(b) else LastShows(events[..|events| - 1], mapping, b)
  }

  /** No source frame of the run shows this button released. */
  predicate KeepsShowing(events: seq<Event>, mapping: MappingConfig, b: Button) {
    forall i :: 0 <= i < |events| && events[i].Source? ==> Snapshot(events[i].frame, mapping).Pressed(b)
  }

  lemma ReactTurbo(mapping: MappingConfig, e: Engine, event: Event, i: nat)
    requires MappingSafe(mapping) && RuntimesOk(e.runtimes, mapping) && i < |e.runtimes.turbo|
    ensures var after, t := React(mapping, e, event).runtimes.turbo, e.runtimes.turbo[i];
            && |after| == |e.runtimes.turbo| && TurboSafe(t)
            && (event.Source? ==> after[i] == TurboNext(t, Snapshot(event.frame, mapping), event.at, true))
            && (event.Poll? && e.frame.Some? ==> after[i] == TurboNext(t, Snapshot(e.frame.value, mapping), event.at, false))
            && (event.Poll? && e.frame.None? ==> after[i] == t)
  {
    hide MacroSafe, Matches, TurboNext, TurboSafe, MacroAt, MacroArmed, TurboEffects, Suppress, Snapshot;
    if event.Source? {
      AssembledRuntimes(event.frame, mapping, e.runtimes, event.at, true);
    } else if e.frame.Some? {
      AssembledRuntimes(e.frame.value, mapping, e.runtimes, event.at, false);
    }
  }

  /** Over every run a turbo is active exactly while the last source frame shows its button pressed. */
  lemma {:induction false} ActiveIffShown(mapping: MappingConfig, start: Time, events: seq<Event>, i: nat)
    requires MappingSafe(mapping) && i < |mapping.turboConfigs|
    ensures var ts := Run(mapping, start, events).runtimes.turbo;
            && |ts| == |mapping.turboConfigs| && ts[i].src == mapping.turboConfigs[i].src
            && TurboRule(ts[i]) == mapping.turboConfigs[i]
            && (ts[i].active <==> LastShows(events, mapping, mapping.turboConfigs[i].src))
  {
    hide React, Snapshot, MacroSafe, MappingSafe;
    if events == [] {
      FreshOk(mapping, start);
      RunStarts(mapping, start);
    } else {
      var init, last := events[..|events| - 1], events[|events| - 1];
      ActiveIffShown(mapping, start, init, i);
      var e := Run(mapping, start, init);
      ReactTurbo(mapping, e, last, i);
      assert Run(mapping, start, events) == React(mapping, e, last);
    }
  }

  lemma RunStarts(mapping: MappingConfig, start: Time)
    requires MappingSafe(mapping)
    ensures Run(mapping, start, []) == Engine(None, FreshRuntimes(mapping, start))
  {
  }

  /** A turbo just pressed. */
  predicate JustPressed(t: Turbo, rule: TurboConfig, press: Time) {
    t.active && !t.turboActive && t.phase && t.pressTime == press && TurboRule(t) == rule && TurboSafe(t)
  }

  /** While the button stays pressed a turbo is its just-pressed self advanced to the last event. */
  lemma {:induction false} HeldTurbo(mapping: MappingConfig, start: Time, before: seq<Event>, frame: ControllerFrame, press: Time,
                                     held: seq<Event>, i: nat)
    returns (t0: Turbo)
    requires MappingSafe(mapping) && i < |mapping.turboConfigs|
    requires Snapshot(frame, mapping).Pressed(mapping.turboConfigs[i].src)
    requires !LastShows(before, mapping, mapping.turboConfigs[i].src)
    requires InOrder(held, press) && KeepsShowing(held, mapping, mapping.turboConfigs[i].src)
    ensures JustPressed(t0, mapping.turboConfigs[i], press)
    ensures var e := Run(mapping, start, before + [Source(frame, press)] + held);
            && e.frame.Some? && i < |e.runtimes.turbo|
            && e.runtimes.turbo[i] == if held == [] then t0 else TurboAt(t0, held[|held| - 1].at)
    decreases |held|
  {
    hide React, Snapshot, MacroSafe, MappingSafe, TurboAt;
    var first := before + [Source(frame, press)];
    if held == [] {
      ActiveIffShown(mapping, start, before, i);
      var e := Run(mapping, start, before);
      ReactTurbo(mapping, e, Source(frame, press), i);
      RunSnoc(mapping, start, before, Source(frame, press));
      assert first + held == first;
      t0 := Run(mapping, start, first).runtimes.turbo[i];
      PressStarts(e.runtimes.turbo[i], Snapshot(frame, mapping), press, t0);
      SourceCached(mapping, e, frame, press);
    } else {
      var n := |held| - 1;
      t0 := HeldTurbo(mapping, start, before, frame, press, held[..n], i);
      var e := Run(mapping, start, first + held[..n]);
      ReactTurbo(mapping, e, held[n], i);
      SplitLast(first, held);
      RunSnoc(mapping, start, first + held[..n], held[n]);
      if n > 0 {
        AtStaysActive(t0, held[n - 1].at);
      }
      StaysPressed(e.runtimes.turbo[i], mapping, e.frame.value, held[n]);
      if n > 0 {
        TurboCompose(t0, held[n - 1].at, held[n].at);
      }
      StillCached(mapping, e, held[n]);
    }
  }

  lemma PressStarts(t: Turbo, snapshot: GamepadState, press: Time, t0: Turbo)
    requires TurboSafe(t) && !t.active && snapshot.Pressed(t.src) && t0 == TurboNext(t, snapshot, press, true)
    requires TurboSafe(t0)
    ensures JustPressed(t0, TurboRule(t), press)
  {
  }

  lemma AtStaysActive(t: Turbo, now: Time)
    requires TurboSafe(t)
    ensures TurboAt(t, now).active == t.active && TurboRule(TurboAt(t, now)) == TurboRule(t)
  {
  }

  lemma StaysPressed(t: Turbo, mapping: MappingConfig, frame: ControllerFrame, event: Event)
    requires TurboSafe(t) && t.active
    requires event.Source? ==> Snapshot(event.frame, mapping).Pressed(t.src)
    ensures event.Source? ==> TurboNext(t, Snapshot(event.frame, mapping), event.at, true) == TurboAt(t, event.at)
    ensures event.Poll? ==> TurboNext(t, Snapshot(frame, mapping), event.at, false) == TurboAt(t, event.at)
  {
    hide Snapshot, TurboAt;
  }

  lemma SourceCached(mapping: MappingConfig, e: Engine, frame: ControllerFrame, at: Time)
    requires RuntimesOk(e.runtimes, mapping)
    ensures React(mapping, e, Source(frame, at)).frame.Some?
  {
  }

  lemma StillCached(mapping: MappingConfig, e: Engine, event: Event)
    requires RuntimesOk(e.runtimes, mapping) && e.frame.Some?
    ensures React(mapping, e, event).frame.Some?
  {
  }

  /**
   * The turbo law over a run: pressed at `press` by a source frame, after one that did not show it or none,
   * and kept pressed by whatever frames and polls follow, a turbo is on at the last event exactly during
   * the delay and then in every even interval, counted from the end of the delay.
   */
  lemma TurboLaw(mapping: MappingConfig, start: Time, before: seq<Event>, frame: ControllerFrame, press: Time,
                 held: seq<Event>, i: nat)
    requires MappingSafe(mapping) && i < |mapping.turboConfigs|
    requires Snapshot(frame, mapping).Pressed(mapping.turboConfigs[i].src)
    requires !LastShows(before, mapping, mapping.turboConfigs[i].src)
    requires InOrder(held, press) && KeepsShowing(held, mapping, mapping.turboConfigs[i].src)
    ensures mapping.turboConfigs[i].intervalMs > 0
    ensures var c, now := mapping.turboConfigs[i], if held == [] then press else held[|held| - 1].at;
            var ts := Run(mapping, start, before + [Source(frame, press)] + held).runtimes.turbo;
            && i < |ts| && ts[i].active && ts[i].pressTime == press
            && (ts[i].phase <==>
                  now < press + c.delayMs * 1_000_000
                  || (now - press - c.delayMs * 1_000_000) / (c.intervalMs * 1_000_000) % 2 == 0)
  {
    var c := mapping.turboConfigs[i];
    var t0 := HeldTurbo(mapping, start, before, frame, press, held, i);
    hide Run, MappingSafe, Snapshot, KeepsShowing, LastShows;
    if held == [] {
      ZeroIntervals(c);
    } else {
      PhaseLaw(t0, c, press, held[|held| - 1].at);
    }
  }

  lemma ZeroIntervals(c: TurboConfig)
    requires c.intervalMs > 0
    ensures c.delayMs == 0 ==> (0 - c.delayMs * 1_000_000) / (c.intervalMs * 1_000_000) % 2 == 0
  {
    DivideLess(0, c.intervalMs * 1_000_000);
  }

  lemma PhaseLaw(t0: Turbo, c: TurboConfig, press: Time, now: Time)
    requires JustPressed(t0, c, press) && press <= now
    ensures c.intervalMs > 0
    ensures var t := TurboAt(t0, now);
            && t.active && t.pressTime == press
            && (t.phase <==>
                  now < press + c.delayMs * 1_000_000
                  || (now - press - c.delayMs * 1_000_000) / (c.intervalMs * 1_000_000) % 2 == 0)
  {
    if press + Ms(c.delayMs) <= now {
      TurboPhase(t0, press, [now]);
      assert TurboThrough(t0, [now]) == TurboThrough(TurboAt(t0, now), []);
    }
  }
}

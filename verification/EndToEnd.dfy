/** From an accepted configuration file to every run of the engine built from it. */
module EndToEnd {
  import opened Model
  import opened Mapping
  import opened Runtime
  import opened Pipeline
  import opened PipelineRuns
  import opened Config
  import opened ConfigCompile
  import opened ConfigCheck

  /**
   * For every accepted configuration and every run of frames and timer ticks, none of the three
   * assertions of the timing engine can trip: an active turbo has a non-zero interval, and a hold macro
   * about to be advanced has a step and a positive cycle length.
   */
  lemma AcceptedRunsNeverTrip(cfg: ConfigFile, keys: KeyTable, mapping: MappingConfig, start: Time, events: seq<Event>,
                              frame: ControllerFrame, now: Time, observe: bool)
    requires Acceptable(cfg, keys) && CompiledFrom(cfg, keys, mapping)
    ensures MappingSafe(mapping)
    ensures var r := Run(mapping, start, events).runtimes;
            && (forall i :: 0 <= i < |r.turbo| && r.turbo[i].active ==> r.turbo[i].intervalMs > 0)
            && (var first := Filter(frame, mapping, r, now, observe);
                var armed := MacrosArmed(r.macros, first.l1, first.combo, now, observe);
                forall i :: 0 <= i < |armed| && armed[i].active && armed[i].mode.Hold? ==>
                  armed[i].steps != [] && MaxRelease(armed[i].steps) > 0)
  {
    AcceptableIsSafe(cfg, keys, mapping);
    var r := Run(mapping, start, events).runtimes;
    var first := Filter(frame, mapping, r, now, observe);
    AllArmedSafe(r.macros, first.l1, first.combo, now, observe);
  }

  /** The parent of a split touchpad, whose turbo interval is never checked, never starts a turbo. */
  lemma {:induction false} SplitParentNeverTurbos(mapping: MappingConfig, start: Time, events: seq<Event>, i: nat)
    requires MappingSafe(mapping) && mapping.splitTouchpad && i < |mapping.turboConfigs|
    requires mapping.turboConfigs[i].src == Touchpad
    ensures i < |Run(mapping, start, events).runtimes.turbo|
    ensures !Run(mapping, start, events).runtimes.turbo[i].active
  {
    if events == [] {
      FreshOk(mapping, start);
    } else {
      var init, last := events[..|events| - 1], events[|events| - 1];
      SplitParentNeverTurbos(mapping, start, init, i);
      var before := Run(mapping, start, init);
      assert TurboRule(before.runtimes.turbo[i]) == mapping.turboConfigs[i];
      if last.Source? {
        SnapshotHidesParent(last.frame, mapping);
      }
    }
  }
}

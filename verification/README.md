# edgemap: verified model of the DualSense proxy

edgemap reads a DualSense controller, remaps its reports and replays them through a virtual device. This
project models the deterministic part of that proxy and of its daemon in Dafny and proves what they keep
over whole runs. Nothing here was executed; every statement is a proof about the model.

Time is a natural number of nanoseconds and every clock reading is an input. A device write, a socket send
or an encoder call may fail: failure is a nondeterministic choice or an input, and ghost logs record what
was written and what was refused, so a contract can say that something holds unless a write was refused.
Objects that the source updates in place are classes; each has a value, its methods are proved against a
function on that value, and the lemmas speak about those functions.

Main results:

- Advancing the timing engine only when a deadline has passed is indistinguishable from advancing it at
  every moment (`Session.DeadlinesSuffice`, `PipelineRuns.PollIsNoOp`), and the deadline is always strictly
  ahead afterwards (`Proxy.Proxy.HandleTimingTick`).
- What a transform outputs is characterised button by button, key by key, trigger by trigger and axis by
  axis, with no reference to its passes (`Layers.FirstLayer`, `Layers.TransformPointwise`,
  `Layers.MacroLifecycle`).
- No output gets stuck, in the engine (`PipelineRuns.NoStuckOutput`) and on the keyboard of a whole session with
  failing writes (`Session.QuietSession`, `Proxy.RunOpenSession`).
- Every accepted configuration compiles, and no run of it reaches an assertion of the timing engine
  (`ConfigCheck.AcceptableCompiles`, `EndToEnd.AcceptedRunsNeverTrip`). A whole session never reaches the
  error paths guarded by an `expect` or an error return (`Proxy.RunSession`).
- Over a whole session the virtual device gets exactly the reports that its inputs call for, in order, each with
  the buttons, triggers and sticks the transform asks for, down to the bits of a DualSense report
  (`Delivery.SessionLog`, `Delivery.CachedIsLatest`, `Delivery.ReportBits`); the repeater's rate is bounded above
  (`Session.SessionRate`) and a due report always goes out (`Delivery.TickDelivered`).
- What is pressed starts when it should: turbos from the frame that presses them (`TurboRuns.TurboLaw`), macros by
  their triggers (`Layers.MacroLifecycle`), sounds in the slot they were accepted for (`QueueLaws.PushLaw`,
  `QueueLaws.TakeLaw`), configuration requests at the first registered client that asks (`ControlLaws.DrainLaw`).
- What the validator accepts and what each entry of an accepted file makes of its button, in the file's own words
  (`AcceptedMappings.PlainSection`, `AcceptedMappings.OneJob`, `ConfigMeaning.ButtonRemap`).
- The repeater's timestamps, CRC error detection, the passthrough and encode-parse round trips, the capture
  framing, the filter's impulse response, config switching and control-state agreement.

The order in which the sections of a file are visited is a map iteration order, and a plain claim that it does
not show would be false, for rules and for combos alike: `ClashExample` has an accepted file for each. It can
show on a stick axis only. `Visit.OrderShowsExactly` gives the exact condition for a file, after every run, and
`Order.OrderHidden` with `Order.ClashShows` the one for compiled lists in any order.

Files: `Arith` and `Model` (arithmetic, shared data), `Mapping`, `Runtime`, `Pipeline`, `PipelineRuns`, `Layers`,
`TurboRuns`, `Deadlines` and `Tables` (remap engine), `Repeat`, `Haptics`, `QueueLaws`, `Output` and `Keyboard`
(emitters), `Session`, `Delivery` and `Proxy` (event handling), `Config`, `Names`, `ConfigCompile`, `ConfigCheck`,
`AcceptedMappings`, `ConfigMeaning` and `EndToEnd` (configuration), `Order`, `Visit` and `ClashExample` (visiting order), `Crc`,
`CrcValues`, `Codec` and `WireFormat` (wire formats), `Capture` and `CaptureLaws` (audio), `ApplyTracker`, `Control`
and `ControlLaws` (control side).

## Model

| member | source | states |
|---|---|---|
| Session.DeadlinesSuffice | src/proxy/mod.rs:328-398 | The proxy advances its timing engine only when a deadline has passed, yet from its start or any configuration switch on, whatever was sent before, after every run of controller reads and timer events its cached frame and all its turbo, combo and macro runtimes equal those of an engine advanced at every timer event |
| Session.KeysStayShown | src/proxy/mod.rs:328-398 | Until the next deadline the keys a session last asked for are those a transform at that moment would ask for |
| Session.QuietSession | src/proxy/pipeline.rs:55-169 | Once only frames with nothing pressed came, the largest release time after the first of them has passed and nothing is due, a session asks for no key at all |
| PipelineRuns.PollIsNoOp | src/proxy/pipeline.rs:27-176 | Between a timer transform and the next deadline, another timer transform of the same frame gives the same output state, the same key set and leaves every runtime unchanged |
| PipelineRuns.PollAfterSource | src/proxy/pipeline.rs:18-176 | Between a source transform and the next deadline, a timer transform leaves every runtime unchanged |
| PipelineRuns.PollSeesSameLayer | src/proxy/pipeline.rs:55-112 | A timer transform between a source transform and the next deadline freezes the same first-layer buttons |
| PipelineRuns.ExtraPollsUnseen | src/proxy/pipeline.rs:27-176 | In every run, dropping an advance that comes before the next deadline changes nothing that happens afterwards |
| PipelineRuns.TimerNotDue | src/proxy/runtime.rs:363-369 | After a timer transform no runtime deadline is due at that instant |
| PipelineRuns.TransformKeepsOk | src/proxy/pipeline.rs:36-176 | Every transform keeps the runtimes matched to the mapping and clear of the zero-interval and empty-cycle assertions |
| PipelineRuns.QuietFrame | src/proxy/pipeline.rs:55-169 | With nothing pressed, a transform outputs exactly the buttons and keys of single-shot macros still playing, and only those keep running |
| PipelineRuns.NoStuckOutput | src/proxy/pipeline.rs:55-169 | After any run, once a frame with nothing pressed was seen and the largest release time has passed, every transform without a press outputs no button and no key and nothing keeps running |
| PipelineRuns.Run | src/proxy/pipeline.rs:18-34 | In every reachable state of the engine the runtimes match the mapping and cannot trip an assertion |
| Layers.FirstLayer | src/proxy/pipeline.rs:45-98 | The frozen first layer button by button: physical press or the phase of the turbo on it, minus held combos and blocks; triggers zeroed exactly when hidden; combos active exactly when both buttons show |
| Layers.TransformPointwise | src/proxy/pipeline.rs:100-169 | The whole output: a button is on iff a fired rule or an active combo targets it, a playing macro step presses it, or the first layer shows it and no fired rule takes it as source; likewise every key, both triggers and all four stick axes |
| Layers.MacroLifecycle | src/proxy/pipeline.rs:100-165 | Across every transform: a hold macro plays exactly while triggered, pressing each step iff press <= elapsed ms mod cycle < release; a single macro plays from its trigger to its last release; a timer tick starts nothing |
| Layers.TurboStage | src/proxy/pipeline.rs:55-84 | A button with a turbo on it shows that turbo's phase, any other button its physical press |
| Layers.SourceStaysShown | src/proxy/pipeline.rs:18-176 | Until the next deadline a timer transform shows the same buttons and keys as the source transform before it |
| TurboRuns.TurboLaw | src/proxy/pipeline.rs:56-83 | Over every run: pressed at p by a source frame after one that did not show it, and kept pressed, a turbo is on at the last event iff that event is within the delay or (now - p - delay) / interval is even, counted in whole intervals; its press time is p |
| TurboRuns.ActiveIffShown | src/proxy/pipeline.rs:60-76 | Over every run a turbo is active exactly while the last source frame shows its button pressed |
| Deadlines.TurboDeadlineChanges | src/proxy/runtime.rs:36-95 | Deadlines are never needless: at a turbo's deadline toggling starts or the phase flips |
| Deadlines.MacroDeadlineIsBoundary | src/proxy/runtime.rs:201-297 | An advanced macro's deadline is strictly ahead and is the press or release time of one of its steps |
| Tables.SnapshotLaw | src/proxy/pipeline.rs:41-50 | Button by button, what a split touchpad makes of a click, by the bytes of the two contact records; nothing else changes |
| Pipeline.TransformInner | src/proxy/pipeline.rs:36-176 | The imperative passes over state, intent and runtimes compute exactly the transform that the lemmas speak about |
| Pipeline.SuppressButton | src/proxy/pipeline.rs:178-185 | Suppressing a button releases it and zeroes its analog value |
| Pipeline.StepTurbo | src/proxy/pipeline.rs:56-83 | One turbo's part of the frame: its new runtime and its effect on the state |
| Pipeline.TurboPass | src/proxy/pipeline.rs:55-84 | All turbos in order, each seeing the physical snapshot |
| Pipeline.ComboPass | src/proxy/pipeline.rs:86-105 | Combos are detected against the state before any combo suppressed anything, and their targets collected in order |
| Pipeline.BlockPass | src/proxy/pipeline.rs:107-110 | All explicitly blocked buttons are suppressed |
| Pipeline.DetectPass | src/proxy/pipeline.rs:114-128 | Physical macros start on their button and hold macros stop without it |
| Pipeline.InjectPass | src/proxy/pipeline.rs:133-147 | Combo targets are pressed and combo macros of that name started |
| Pipeline.ReleasePass | src/proxy/pipeline.rs:149-161 | Hold macros whose combos are all released stop |
| Pipeline.AdvancePass | src/proxy/pipeline.rs:163-169 | Active macros advance and contribute their pressed steps |
| Pipeline.SplitTouchpad | src/proxy/pipeline.rs:45-50 | The snapshot: the parent click moved to the touched half |
| Runtime.TurboRuntime.Advance | src/proxy/runtime.rs:49-95 | An advance brings the runtime to its closed form: one phase flip per whole interval since the delay ended |
| Runtime.TurboPathIndependent | src/proxy/runtime.rs:49-95 | Any non-decreasing sequence of advances leaves the same turbo as the last one alone |
| Runtime.TurboPhase | src/proxy/runtime.rs:49-95 | The phase is the parity of floor((now - press - delay) / interval), by whatever path now was reached, with last_toggle on the grid and less than one interval ago |
| Runtime.TurboIdle | src/proxy/runtime.rs:36-95 | Before its deadline a turbo does not change |
| Runtime.MacroRuntime.Advance | src/proxy/runtime.rs:190-199 | An advance brings the macro to a function of its start time alone |
| Runtime.MacroRuntime.AdvanceSingle | src/proxy/runtime.rs:201-239 | Single-shot advance: steps settle by elapsed time, the run ends when all are done, else the next transition is the earliest ahead |
| Runtime.MacroRuntime.AdvanceHold | src/proxy/runtime.rs:241-289 | Hold advance: steps settle by position in the cycle, and the next transition is the earliest ahead |
| Runtime.MacroRuntime.Activate | src/proxy/runtime.rs:164-179 | A start resets every step and schedules the first press; an active macro ignores it |
| Runtime.MacroRuntime.Deactivate | src/proxy/runtime.rs:181-188 | A stop clears every step and the schedule |
| Runtime.MacroRuntime.Contribute | src/proxy/runtime.rs:299-305 | Exactly the pressed steps' buttons and keys are added to the intent |
| Runtime.MacroPathIndependent | src/proxy/runtime.rs:190-289 | Any non-decreasing sequence of advances leaves the same macro as the last one alone |
| Runtime.MacroIdle | src/proxy/runtime.rs:201-297 | Before its deadline an advanced macro does not change |
| Runtime.MacroNotDue | src/proxy/runtime.rs:201-297 | An advanced macro is never due at the instant it was advanced to |
| Runtime.MappingRuntimes.FromMapping | src/proxy/runtime.rs:342-361 | The runtimes of a mapping, all idle, every object distinct |
| Runtime.FreshOk | src/proxy/runtime.rs:342-361 | Fresh runtimes match their mapping, nothing runs and nothing is due |
| Runtime.DeadlineParts | src/proxy/runtime.rs:363-369 | The combined deadline is due exactly when one of the parts is, and only running runtimes have one |
| Mapping.RemapPointwise | src/mapping.rs:202-239 | A button is on iff a fired rule targets it, or it was on and no fired rule has it as source; keys likewise; each trigger is the maximum of its contributions and its base, the base being 0 once a fired rule took its source |
| Tables.RemapTriggers | src/mapping.rs:214-239 | Each trigger of a remapped state is the highest of the bids of the fired rules (the analog value of the trigger a rule takes, or 255 for a full press) and its own value, which is 0 once a fired rule takes it |
| Tables.TargetPresses | src/mapping.rs:120-139 | The button and the key that each target presses |
| Tables.StickEnds | src/mapping.rs:167-178 | The axis and the end of it that each stick direction writes |
| Tables.StepPresses | src/mapping.rs:141-150 | The buttons and keys of macro steps are those of the pressed steps |
| Mapping.OrderIrrelevant | src/mapping.rs:214-239 | The remap stage alone: without a stick conflict any reordering of the rules remaps alike |
| Mapping.ConflictMatters | src/mapping.rs:167-178 | The remap stage alone: with a stick conflict some reordering gives a different state |
| Order.OrderHidden | src/proxy/pipeline.rs:36-176 | The whole transform of two mappings with the same rules, blocks and runtimes in any order: same buttons, keys, triggers and everything else, the same runtimes but for order, and the same stick axes except one on which two active combos disagree, or which no active combo writes and two fired rules disagree on |
| Order.NoClashSameState | src/proxy/pipeline.rs:130-171 | Outputs that agree but on clashing axes are equal when no axis clashes |
| Order.ClashShows | src/proxy/pipeline.rs:130-147 | The converse: on such an axis two reorderings of the rules or combos, combo runtimes moved along, give different outputs |
| Order.RunsAlike | src/proxy/pipeline.rs:18-34 | Over every run two orderings of one mapping keep the same cached frame and the same runtimes but for order |
| Visit.OrderShowsExactly | src/config/compile.rs:39-138 | For an accepted file, after every run: two compilations that visit its sections in different orders can leave a stick axis differently iff held combos of two sections push it differently, or no combo and no half of a split touchpad writes it and fired rules of two sections push it differently |
| Visit.VisitOrderHidden | src/config/compile.rs:39-138 | Two compilations of one accepted file agree after every run in every output but for the axes of OrderShowsExactly |
| Visit.AxisIs | src/proxy/pipeline.rs:130-147 | A stick axis is what the last held combo writing it says, else the last fired rule, else the first layer |
| ClashExample.RulesClashInAFile | src/config/compile.rs:48-97 | An accepted file with two remaps and a frame for which the visiting order shows on the left stick |
| ClashExample.CombosClashInAFile | src/config/compile.rs:48-80 | An accepted file with two combos, no remap at all and a frame for which the visiting order shows on the left stick |
| Mapping.GatherStateKeeps | src/mapping.rs:214-239 | Everything but buttons, triggers and sticks passes a remap untouched |
| Mapping.OutputIntent.ContributeAnalog | src/mapping.rs:103-109 | A contribution raises a trigger to the maximum |
| Mapping.OutputIntent.ClearSource | src/mapping.rs:111-118 | A fired source is released in the state and, for triggers, marked cleared |
| Mapping.OutputIntent.PressTarget | src/mapping.rs:120-139 | What pressing one target does to the intent and, for sticks, to the state |
| Mapping.OutputIntent.PressStep | src/mapping.rs:141-150 | A macro step adds its button or key |
| Mapping.OutputIntent.ApplyToState | src/mapping.rs:152-160 | Intended buttons are switched on and triggers become the maximum of base and contribution |
| Mapping.Collect | src/mapping.rs:214-239 | The reducer loop over the rules computes the remap that the lemmas speak about |
| Mapping.Apply | src/mapping.rs:202-212 | One remap, start to finish |
| Session.SessionRate | src/proxy/repeat.rs:98-148 | From any start t0 of the repeater until now the virtual device gets at most floor((now - t0) / interval) + 1 more reports, however many frames, runtime refreshes and ticks the session serves and whatever it sent before |
| Session.RateFromFirstFrame | src/proxy/repeat.rs:98-148 | The same bound from a cleared repeater on, as after a configuration switch, counted from its first decoded frame |
| Session.SessionStamps | src/proxy/repeat.rs:98-124 | In seq_ts mode, from a source report until the next one, the nth report sent carries the source report timestamp plus n deltas modulo 2^32, whatever runtime replays and dropped reads come between |
| Session.SessionIsCadence | src/proxy/mod.rs:375-398 | A session's reports are those of one cadence in which source frames, runtime replays and ticks interleave |
| Repeat.CadenceGrid | src/proxy/repeat.rs:115-148 | From the start of a cadence at t0 every deadline is t0 + k intervals and at most k more reports went out |
| Repeat.RateBound | src/proxy/repeat.rs:98-148 | At most floor((now - t0) / interval) + 1 more reports from t0 until now |
| Repeat.NthTimestamp | src/proxy/repeat.rs:150-170 | The nth report since a source report carries its timestamp plus n deltas modulo 2^32 |
| Repeat.FirstFutureOnGrid | src/proxy/repeat.rs:132-148 | A late deadline moves to the first grid point after now |
| Repeat.RepeatInput.constructor | src/proxy/repeat.rs:48-79 | The interval is the rounded-down period of the configured rate, never zero, and the timestamp delta is the larger of 1 and interval / 333 |
| Repeat.RepeatInput.StoreSource | src/proxy/repeat.rs:98-103 | A source report replaces the cached one and starts the schedule only when there is none |
| Repeat.RepeatInput.StoreRuntime | src/proxy/repeat.rs:105-113 | A runtime refresh keeps the repeater's own sequence and timestamp fields |
| Repeat.RepeatInput.PrepareReport | src/proxy/repeat.rs:115-124 | At most one report per call, emitted iff the deadline has passed and a report is cached |
| Repeat.RepeatInput.Clear | src/proxy/repeat.rs:126-129 | Clearing drops the report and the schedule |
| Repeat.AdvanceReport | src/proxy/repeat.rs:222-262 | The per-target field updates of one emission |
| Delivery.FrameDelivered | src/proxy/mod.rs:651-713 | A decoded frame uses up one sequence number and makes one report, the frame encoded with that number in a state that meets the pointwise conditions of the transform: without a repeater it is sent at once and alone, with one it is cached and starts the schedule only when none runs |
| Delivery.NothingDelivered | src/proxy/mod.rs:665-690 | Any other read makes no report; a full-sized one uses up a sequence number |
| Delivery.TickDelivered | src/proxy/mod.rs:362-398 | A tick makes a report iff a runtime is due; without a repeater it is sent; with one exactly one report is sent iff the repeater's deadline has come and a report is cached, it is the latest one outside the repeater's fields, its sequence number is one more than the counter before, and the deadline moves to the first grid point ahead |
| Delivery.SessionLog | src/proxy/mod.rs:362-398 | The reports of a whole run exactly: one for each input that sends, in input order, each made from the transformed state, or the repeater's cached one |
| Delivery.CachedIsLatest | src/proxy/repeat.rs:98-124 | With a repeater the cached report is at any moment of a run the one the latest source frame or runtime refresh made, outside the repeater's fields |
| Delivery.ReportBits | src/codec/ds5_usb.rs:98-154 | The bits of a report for a virtual DualSense: each flag is set iff something asks for its button, the hat shows the directions asked for unless opposite ones are, triggers and sticks as asked for, all from byte 12 on as the controller sent it |
| Delivery.AdvanceLaw | src/proxy/repeat.rs:222-262 | One emission changes only the repeater's bytes; the sequence number goes up by one modulo 256 or 64 and is what the report shows; the sensor time goes up by the delta modulo 2^32 |
| Delivery.RefreshLaw | src/proxy/repeat.rs:150-172 | A runtime refresh is the new report outside the repeater's bytes and the old one inside |
| Delivery.GridLaw | src/proxy/repeat.rs:132-148 | The next deadline is the first point after now on the grid of the old one |
| Haptics.SlotDiscipline | src/proxy/haptics.rs:36-76 | Over every run of pushes and takes: at most 3 queued frames, each still at the slot it was accepted for; emissions happen inside their slot, one per slot, in push order as a subsequence of what was accepted |
| Haptics.SlotNeverMoves | src/proxy/haptics.rs:36-76 | Later pushes and takes never alter what was accepted or emitted before |
| Haptics.PlaybackEndsQuiet | src/proxy/haptics.rs:54-76 | Whenever the queue has no deadline it is empty and the last frame it handed out was silence |
| QueueLaws.PushLaw | src/proxy/haptics.rs:36-48 | Every push of a run: silence on an idle queue changes nothing; any other frame is accepted, one period ahead on an idle queue and in the next free slot otherwise; a queue of three gives up its oldest frame for it and no other push gives up any |
| QueueLaws.TakeLaw | src/proxy/haptics.rs:54-76 | Every take inside the slot of a queued frame hands out exactly that frame, gives up the earlier ones and keeps the later ones, or ends playback when only silence is left |
| QueueLaws.EarlyTake | src/proxy/haptics.rs:54-58 | A take before the first slot or from an idle queue changes nothing |
| QueueLaws.LateTake | src/proxy/haptics.rs:59-76 | A take after the last slot hands out silence and ends playback |
| QueueLaws.FirstSoundHeard | src/proxy/haptics.rs:36-76 | A sound that comes while nothing plays is handed out by a tick one period later |
| QueueLaws.QueueIsTail | src/proxy/haptics.rs:36-76 | The queue of a run is the last frames accepted, at most three, in slots one period apart, and empty while idle |
| Haptics.LiveHaptics.PushFrame | src/proxy/haptics.rs:36-48 | A push: idle silence ignored, overflow drops the oldest frame and moves the deadline one period |
| Haptics.LiveHaptics.TakeDueFrame | src/proxy/haptics.rs:54-76 | A take: whole missed periods are dropped, underrun or all-silent rest ends playback |
| Output.AudioOutput.SendLiveAudio | src/proxy/output.rs:38-59 | The writes of one frame: a mode switch iff the mode changes, then the frame; the first refused write ends it |
| Output.FramePlayed | src/proxy/output.rs:38-59 | The writes of one frame end with that frame's own samples and speaker block, in the speaker mode it needs; a mode that fits is not written again |
| Output.AudioOutput.StopSpeaker | src/proxy/output.rs:61-72 | The speaker is off afterwards; a switch-off is written iff it was on and the controller is still there |
| Output.AudioOutput.HandleHapticsTick | src/proxy/output.rs:74-82 | One tick: without a refused write the queue advances and the frame is written; with one the queue is emptied and the speaker off; never anything due afterwards |
| Output.AudioOutput.StopLiveHaptics | src/proxy/output.rs:84-91 | Stopping writes switch-off and silence as far as they are called for and leaves the queue empty |
| Output.RunAudio | src/proxy/output.rs:38-91 | Over every run of frames, ticks and stops with any writes failing: an active speaker implies a deadline, an idle queue is empty, and no speaker block ever went to a controller whose speaker was off; without stops and refusals the audio written is, frame for frame, what the queue handed out |
| Session.TickSettles | src/proxy/mod.rs:356-398 | No busy loop: after a tick neither the runtimes nor the repeater are due and at most one report was sent |
| Proxy.Proxy.constructor | src/proxy/mod.rs:118-165 | A new proxy is idle, with the runtimes of its mapping |
| Proxy.Proxy.HandleTimingTick | src/proxy/mod.rs:356-398 | The tick performs exactly the planned step, or the planned step with its report refused; afterwards nothing is due unless the controller vanished; the keys follow the transform iff the runtimes were due; the missing-frame error is never returned |
| Proxy.Proxy.EncodeFrame | src/proxy/mod.rs:270-311 | The report encodes the transformed frame, the runtimes advance, and the keyboard holds the transform's keys but for refused writes |
| Proxy.Proxy.RefreshFrame | src/proxy/mod.rs:375-386 | A due replay uses the cached frame and takes a new sequence number only without a repeater |
| Proxy.Proxy.EmitRepeat | src/proxy/mod.rs:388-394 | The repeater, refreshed by the replay, is the only sender in repeat mode |
| Proxy.Proxy.TakeFrame | src/proxy/mod.rs:676-688 | A decoded frame is remembered, transformed and cached or sent |
| Proxy.Proxy.HandleHidrawInput | src/proxy/mod.rs:651-713 | A batch of reads has exactly the effect of its decodable reports in order up to the first read without data, keys included; undecodable ones only use up a sequence number |
| Proxy.Proxy.ApplyActiveConfig | src/proxy/mod.rs:175-229 | A configuration is accepted iff it parses and passes every check; a refused one changes nothing; an accepted one starts a fresh session: no runtime or repeat deadline, no cached frame, no key asked for |
| Proxy.Proxy.InstallMapping | src/proxy/mod.rs:203-228 | The commit half: new mapping, fresh runtimes, repeater cleared, keys released, recreation requested iff the device changed |
| Proxy.Proxy.ClearTimingState | src/proxy/mod.rs:400-409 | Nothing running, nothing due, keys released, speaker off |
| Proxy.Proxy.Close | src/proxy/mod.rs:613-620 | The end of a session: nothing running or due, no key asked for, and no farewell silence when the controller is gone |
| Proxy.Proxy.Handle | src/proxy/mod.rs:497-610 | Every event keeps the invariant: runtimes match the mapping, a running runtime has a cached frame and, when repeating, a cached report; it has exactly the effect of the inputs it brings, a received frame is pushed onto the queue, a timer event ticks the audio, and a switch request installs the configuration iff it is acceptable |
| Proxy.HeardLaw | src/proxy/mod.rs:651-713 | The inputs an event brings: a timer event one tick, a ready controller its reads up to the first without data |
| Proxy.Proxy.DeadlineLaw | src/proxy/mod.rs:328-339 | The instant the timer is armed for is due iff a runtime, the repeater or the audio queue is, and is one of their deadlines |
| Proxy.RunSession | src/proxy/mod.rs:411-621 | Any session, with any device write failing, never reaches the missing-frame error or the expect of the repeater and ends with nothing running, nothing due, the speaker off and no key asked for, so that only keys whose release was refused in the very last synchronisation stay held |
| Proxy.RunOpenSession | src/proxy/mod.rs:411-608 | Between switches and with any writes failing, the proxy ends up exactly where its inputs put it; and in the situation of QuietSession the keyboard holds nothing but keys whose release was refused in the last synchronisation |
| ConfigCheck.AcceptableCompiles | src/config/validate.rs:11-252 | The checks before the last line already imply that compilation succeeds, whatever the map iteration order |
| ConfigCheck.AcceptableIsSafe | src/config/validate.rs:135-216 | What an accepted configuration compiles to has positive turbo intervals (but for the parent of a split touchpad) and only non-empty macros with press before release |
| ConfigCheck.Validate | src/config/validate.rs:11-252 | The validator accepts exactly the acceptable configurations, names a section that really fails, and its final trial compilation never rejects |
| ConfigCheck.CheckButton | src/config/validate.rs:26-176 | One button section is accepted iff it meets every button rule |
| ConfigCheck.CheckTurbo | src/config/validate.rs:126-163 | A section passes the turbo checks iff its turbo is sound |
| ConfigCheck.CheckChild | src/config/validate.rs:227-242 | A half of a split touchpad is accepted iff its target is known, bindable and not a block |
| ConfigCheck.CheckCombos | src/config/validate.rs:79-124 | A section's combos are accepted iff each is sound and no key is used twice |
| ConfigCheck.CheckMacro | src/config/validate.rs:178-218 | One macro section is accepted iff its name is free and its steps resolve with press before release |
| ConfigCheck.SplitAgrees | src/config/validate.rs:49-52 | The validator and the compiler agree on whether the touchpad is split |
| EndToEnd.AcceptedRunsNeverTrip | src/proxy/runtime.rs:71-75 | For every accepted configuration and every run of frames and ticks: an active turbo has a non-zero interval and a hold macro about to be advanced has a step and a positive cycle |
| EndToEnd.SplitParentNeverTurbos | src/proxy/pipeline.rs:45-50 | The split parent, whose turbo interval is never checked, never starts a turbo in any run |
| AcceptedMappings.CombosAreSound | src/config/validate.rs:79-124 | Every combo of an accepted file: modifier and key differ, neither is a touchpad half or a button without a place in a combo, no FN button with a face button, and no pair twice |
| AcceptedMappings.OneJob | src/config/compile.rs:48-128 | Every button of an accepted file has at most one rule, and none if it is blocked or a combo modifier |
| AcceptedMappings.NothingUnbindable | src/config/targets.rs:25-91 | No rule or combo presses one of the nine buttons that have no place on the virtual device |
| AcceptedMappings.TurbosAreSound | src/config/validate.rs:126-163 | Every turbo of an accepted file has an interval (but for the parent of a split touchpad), no button has two, and none has a macro of its own |
| AcceptedMappings.MacrosAreSound | src/config/validate.rs:178-218 | Every macro of an accepted file is the configured one, with its mode, in order, steps that resolve and press before release |
| Names.NameRoundTrip | src/model.rs:66-100 | Looking a button's name up gives that button |
| ConfigMeaning.ButtonRemap | src/config/compile.rs:48-97 | In an accepted file a button's name as remap gives exactly the rule to that button |
| ConfigMeaning.OtherRemap | src/config/compile.rs:48-97 | And a trigger, stick, key or macro target exactly the rule to it |
| ConfigMeaning.BlockMeans | src/config/compile.rs:52-62 | block blocks the button and gives it no rule |
| ConfigMeaning.PassthroughMeans | src/config/compile.rs:52-62 | An absent, empty or passthrough entry gives no rule, no block and no combo |
| ConfigMeaning.ComboMeans | src/config/compile.rs:67-82 | Each combo entry gives the combo between the buttons it names |
| ConfigMeaning.TurboMeans | src/config/compile.rs:140-157 | A button has a turbo, with the file's times, exactly when its section asks for one |
| ConfigMeaning.MacroMeans | src/config/compile.rs:159-215 | A macro's name as remap gives the button that macro, played by the button itself |
| AcceptedMappings.PlainSection | src/config/validate.rs:26-176 | A section without combos is accepted iff its name is a button's own, the button can be a source, its target is passthrough, block or bindable, and a turbo on it has an interval, a target other than passthrough or a trigger's own, and no macro |
| AcceptedMappings.ComboRefusals | src/config/validate.rs:54-163 | What makes a section with combos unacceptable: another remap, a touchpad half, an unknown, own or repeated key, an unknown output, a turbo without interval or with a macro |
| AcceptedMappings.HalvesGoWithSplit | src/config/validate.rs:220-246 | The touchpad's halves have sections exactly when it is split, and then a rule each |
| AcceptedMappings.BareFile | src/config/validate.rs:11-20 | A file without sections is accepted iff its version is 2 and its device one of the three |
| Names.OtherTargets | src/config/targets.rs:40-73 | Any target that is no keyword is a key behind its prefix, else a button, else a macro |
| Names.StickTargets | src/config/targets.rs:40-73 | The names of the eight stick directions |
| Names.KeywordTargets | src/config/targets.rs:40-73 | The keyword targets and the two full trigger presses |
| Names.ButtonTargets | src/config/targets.rs:63-64 | As a target a button's name means that button |
| Names.NameMeans | src/model.rs:66-100 | A name means a button iff it is that button's name but for case |
| ConfigCompile.ToMappingConfig | src/config/compile.rs:39-138 | Compilation succeeds iff the file is compilable, and then holds exactly the rules, blocks, combos, turbos and macros its sections ask for, rules and combos in the order of some visit of the sections |
| ConfigCompile.CompileButtons | src/config/compile.rs:48-97 | The button sections' rules, blocks and combos, in any visiting order |
| ConfigCompile.CompileButton | src/config/compile.rs:48-97 | One section's share of the mapping, or failure |
| ConfigCompile.SectionMembers | src/config/compile.rs:48-97 | The ordered rules and combos of a section are exactly those it asks for |
| ConfigCompile.CompileCombos | src/config/compile.rs:67-82 | The combos of a section compile iff each does, in file order |
| ConfigCompile.CompileChildren | src/config/compile.rs:99-128 | The two rules of a split touchpad's halves |
| ConfigCompile.BuildTurboConfigs | src/config/compile.rs:140-157 | Exactly the enabled turbos whose names resolve |
| ConfigCompile.BuildMacroConfigs | src/config/compile.rs:159-215 | Exactly the macro rules that physical buttons and combos use, or failure when a used macro does not compile |
| Config.OneSpelling | src/config/targets.rs:40-73 | A target name that parses to a built-in keyword is spelled exactly that way |
| Codec.BurstRejected | src/codec/ds5_bt.rs:33-67 | Changing any run of up to four adjacent bytes of an accepted report, checksum bytes included, makes it rejected |
| Codec.SingleByteRejected | src/codec/ds5_bt.rs:33-67 | Changing any one of the 78 checked bytes of an accepted report makes it rejected |
| Codec.IntactByResidue | src/codec/ds5_bt.rs:33-40 | A report is intact iff all 78 bytes leave one fixed residue |
| Crc.Crc32LeUpdate | src/codec/ds5_bt.rs:19-31 | The bitwise loop computes the CRC state update |
| Crc.UpdateInjective | src/codec/ds5_bt.rs:19-31 | Over any bytes the CRC step is injective on 32-bit states |
| Crc.BurstChangesState | src/codec/ds5_bt.rs:19-31 | Messages that differ only within four adjacent bytes leave different states |
| Crc.Residue | src/codec/ds5_bt.rs:33-40 | A message carries its own seeded checksum iff message and checksum together leave the fixed residue |
| CrcValues.CheckValue | src/codec/ds5_bt.rs:19-36 | The checksum of the nine ASCII digits is the published check value 0xCBF43926 |
| CrcValues.ResidueValue | src/codec/ds5_bt.rs:19-40 | The fixed residue is the published 0xDEBB20E3 |
| CrcValues.AcceptedMeans | src/codec/ds5_bt.rs:51-66 | A Bluetooth report is accepted iff it has 78 bytes, report id 0x31 and, behind the seed 0xA1, the published residue |
| CrcValues.InsideIs | src/codec/ds5_bt.rs:42-49 | The report inside is report id 0x01 and the payload from byte 2 on |
| Codec.UsbPassthrough | src/codec/ds5_usb.rs:6-154 | Decode, empty mapping and encode return the same 64 bytes except the sequence byte, bit 3 of byte 10, the high nibble of byte 11 and hats above 8 |
| Codec.BtPassthrough | src/codec/ds5_bt.rs:42-77 | A valid Bluetooth wrapping of a report passes through to the same bytes as over USB |
| Codec.EmptyMappingPasses | src/proxy/pipeline.rs:36-176 | With nothing configured a frame's state comes out as it went in |
| Codec.DecodeBtInput | src/codec/ds5_bt.rs:51-77 | A Bluetooth report decodes iff length, id and checksum hold, to the frame of the USB report inside it |
| Codec.DecodeUsbInput | src/codec/ds5_usb.rs:196-209 | A USB report decodes iff length and id hold |
| Codec.ParseInput | src/codec/ds5_usb.rs:6-76 | Every button, stick, trigger and battery field of the state is the report bit or byte it is read from |
| Codec.ApplyState | src/codec/ds5_usb.rs:98-154 | The state is written over its report, all other bytes kept |
| Codec.EncodeAfterParse | src/codec/ds5_usb.rs:6-154 | Encoding a parsed state into its own report changes only the listed fields |
| WireFormat.EncodeThenParse | src/codec/ds5_usb.rs:6-154 | Parsing an encoded report gives back the state: every flagged button, both sticks and triggers and the sequence number; the dpad exactly when a hat can show it |
| WireFormat.FaceBits | src/codec/ds5_usb.rs:22-26 | The four face buttons are bits 4 to 7 of byte 8 |
| WireFormat.ShoulderBits | src/codec/ds5_usb.rs:51-59 | The shoulder, menu and stick buttons are the eight bits of byte 9 |
| WireFormat.SystemBits | src/codec/ds5_usb.rs:61-64 | The home, touchpad and mute buttons are bits 0 to 2 of byte 10 |
| WireFormat.EdgeBits | src/codec/ds5_usb.rs:65-68 | The Edge buttons are bits 4 to 7 of byte 10 |
| WireFormat.HatBits | src/codec/ds5_usb.rs:27-49 | The hat runs clockwise from up; each direction is reported by its three hat values |
| WireFormat.SplitByFirstFinger | src/codec/types.rs:104-116 | The half of a touchpad click is that of the first active contact, the halves meeting at x = 960 |
| WireFormat.DpadSurvives | src/codec/ds5_usb.rs:78-96 | A pressed direction survives the hat iff no opposite directions are pressed |
| Capture.RunCapture | src/bin/edgemap/daemon/audio.rs:139-208 | However the stream is split into reads, frame k holds the 32 decimated outputs of samples 512k..512k+511 and, with a speaker, that block's audio iff it is encoded; the capture ends early exactly at the first block the encoder fails on |
| Capture.RearPcm.Push | src/bin/edgemap/daemon/audio.rs:52-76 | Every 16th quad yields the rounded, clamped dot product of the 255 coefficients with the last 255 rear samples, oldest first and zero-padded |
| Capture.Speaker.Push | src/bin/edgemap/daemon/audio/speaker.rs:115-125 | A quad appends its clamped front pair to the block |
| Capture.Speaker.FinishBlock | src/bin/edgemap/daemon/audio/speaker.rs:127-163 | A full block is quiet, or resampled 16:15 for the encoder, by loudness and silent tail |
| Capture.EncodesNearLoud | src/bin/edgemap/daemon/audio/speaker.rs:127-136 | A block is encoded iff it or one of the eight before it was loud |
| CaptureLaws.Impulse | src/bin/edgemap/daemon/audio.rs:52-76 | The impulse response of the filter: a sample heard some samples ago comes out weighted with the coefficient that many places from the last, and after 255 samples not at all |
| CaptureLaws.Additive | src/bin/edgemap/daemon/audio.rs:68-74 | The filter is linear |
| CaptureLaws.Quantised | src/bin/edgemap/daemon/audio.rs:75 | Outputs are the nearest whole 128th as a signed byte, ties away from zero, out of range to the nearest end |
| CaptureLaws.StraightStays | src/bin/edgemap/daemon/audio/speaker.rs:138-146 | Point i of a resampled block stands at 16 i / 15: a straight line is resampled exactly |
| CaptureLaws.OnlyNeighbours | src/bin/edgemap/daemon/audio/speaker.rs:138-146 | Each resampled point depends only on the two samples around it |
| CaptureLaws.Channels | src/bin/edgemap/daemon/audio.rs:53-61 | The four channels of a quad by their stream bytes, finite values pulled into [-1, 1], anything else silence |
| CaptureLaws.LoudMeans | src/bin/edgemap/daemon/audio/speaker.rs:130-131 | A block is loud iff one of its 512 front samples is not zero |
| Capture.Bridge.TakeQuad | src/bin/edgemap/daemon/audio.rs:168-203 | One quad keeps frame, filter and speaker at the same point of the stream, so each finished block holds exactly 512 samples |
| Capture.Bridge.OfferBlock | src/bin/edgemap/daemon/audio.rs:175-203 | A finished block is offered with its audio, or the encoder's failure ends the capture |
| Capture.Bridge.FinishSpeaker | src/bin/edgemap/daemon/audio.rs:179-182 | The finished block is quiet, encoded or failed exactly as its loudness and the silent tail say |
| ApplyTracker.AcknowledgedSettles | src/bin/edgemap/daemon/mod.rs:177-270 | After an acknowledged apply the same selection and load results never lead to another request or a newly reported failure |
| ApplyTracker.SettledForever | src/bin/edgemap/daemon/mod.rs:177-257 | And stay that way however often the daemon looks again |
| ApplyTracker.OtherPlansSettle | src/bin/edgemap/daemon/mod.rs:177-257 | A plan without a request settles at once |
| ApplyTracker.RequestsExactlyWhen | src/bin/edgemap/daemon/mod.rs:177-257 | When a request is made and for which path: the base only when it is itself selected or the selected path fails to load |
| ApplyTracker.LookLaw | src/bin/edgemap/daemon/mod.rs:177-257 | Every look, case by case; a selection that cannot be loaded, with nothing to fall back to, is recorded with its exact message and reported iff that is not the failure on record |
| ApplyTracker.FirstFailureReported | src/bin/edgemap/daemon/mod.rs:171-257 | The first failing look of a run is reported and the same look again is not |
| ApplyTracker.AnswerLaw | src/bin/edgemap/daemon/mod.rs:259-284 | After any run an acknowledgement leaves the put-off failure on record and a refusal its own message |
| ApplyTracker.EffectiveIsAcknowledged | src/bin/edgemap/daemon/mod.rs:166-285 | In every reachable state the effective path is that of the last acknowledgement unless all was forgotten since |
| ApplyTracker.ConfigApplyTracker.PreparePlan | src/bin/edgemap/daemon/mod.rs:177-257 | The plan and the new tracker state for every combination of selection, knowledge and load results |
| ApplyTracker.ConfigApplyTracker.Acknowledge | src/bin/edgemap/daemon/mod.rs:259-270 | An acknowledgement sets selection, effective path and failure, and reports whether the failure changed |
| ApplyTracker.ConfigApplyTracker.RecordRequestFailure | src/bin/edgemap/daemon/mod.rs:272-284 | A failed request changes only the recorded failure |
| ApplyTracker.ConfigApplyTracker.ForceUnknown | src/bin/edgemap/daemon/mod.rs:166-169 | Forgetting drops the effective path and forces the next apply |
| ApplyTracker.ConfigApplyTracker.SetFailure | src/bin/edgemap/daemon/mod.rs:171-175 | A failure is stored and reported iff it differs |
| Control.RunServer | src/control/server.rs:80-216 | Over any run of wake-ups, state changes and replies with any sends failing: at most 16 clients, and the last state packet that reached each parses back to exactly the current state |
| Control.ControlServer.SetState | src/control/server.rs:89-104 | A changed state is sent to every client once; exactly the unreachable ones are dropped |
| Control.ControlServer.DrainRequests | src/control/server.rs:106-163 | One wake-up, event by event: which clients stay, which single request is taken and what clients are told |
| Control.RequestIsGenuine | src/control/server.rs:106-163 | At most one request per drain: the first well-formed packet of a client in good standing |
| ControlLaws.DrainLaw | src/control/server.rs:106-163 | Unless the listener fails, a wake-up takes a request iff some event asks for a configuration from a client registered at that event, and then the first such request; the clients afterwards are those who joined, without those an undelivered rejection removed, and exactly the hung-up and offending ones are to be dropped |
| ControlLaws.DrainFails | src/control/server.rs:113-117 | A wake-up fails exactly when an accept of one of its listener events does |
| ControlLaws.AcceptLaw | src/control/server.rs:183-215 | Of at most 16 accepts, up to the first that finds nobody or fails, whoever is greeted and watched joins while there are fewer than 16 clients |
| ControlLaws.JoinedBounds | src/control/server.rs:183-215 | Nobody is dropped for a newcomer, no one joins beyond 16, and a good newcomer is left out only then |
| ControlLaws.RequestText | src/control/protocol.rs:171-193 | The texts that are a request for a configuration: exactly one for each configuration within bounds, and no other |
| ControlLaws.EventSays | src/control/server.rs:106-215 | What one more event of a wake-up gets through to clients: hello or word of a full server to each newcomer it can reach, one error packet to a served client whose packet is rejected, nothing to anybody else |
| ControlLaws.AnswerTexts | src/control/server.rs:165-172 | The texts of an acknowledgement and of an error answer |
| ControlLaws.StatusTexts | src/control/protocol.rs:88-106 | The exact texts of hello and state packets |
| Control.ControlServer.AcceptClients | src/control/server.rs:183-215 | At most 16 accepts a wake-up, at most 16 clients; only greeted and watched ones are registered |
| Control.ControlServer.Reply | src/control/server.rs:165-181 | A reply is never mistaken for a state packet; an unreachable client is dropped |
| Control.ControlServer.Serve | src/control/server.rs:127-156 | What one received packet leads to |
| Control.StateRoundTrip | src/control/protocol.rs:88-168 | Every hello and state packet parses back to the state it was made from |
| Control.RequestRoundTrip | src/control/protocol.rs:56-70 | A request survives the wire iff its source is non-empty, free of NUL and the UTF-8 sizes of both parts are in bounds |
| Control.AnswersAreNotStatus | src/control/protocol.rs:142-168 | No reply parses as a hello or state packet |
| Keyboard.KeyboardDevice.Sync | src/keyboard.rs:128-140 | Every differing key is tried once, releases first, each pass in ascending order; a key ends as desired unless its write was refused, and then stays as it was |
| Keyboard.KeyboardDevice.Press | src/keyboard.rs:104-114 | A held key is not pressed again; the key is held iff the write succeeds |
| Keyboard.KeyboardDevice.Release | src/keyboard.rs:116-126 | A key that is not held is not released again; it stays held when the write fails |
| Keyboard.KeyboardDevice.FlushHeld | src/keyboard.rs:147-152 | Every held key is released unless its write was refused |
| Keyboard.EventAppended | src/keyboard.rs:104-126 | The successful events of each key strictly alternate between press and release |

## Left out

- Descriptors and event sources (epoll, timerfd, hidraw, UHID, uinput, sockets, inotify): only the order of events and the success or failure of reads and writes remain; kernel events and feature reports of the virtual device have no model.
- Durations and instants are unbounded: the `checked_add` overflow branches and the 32-bit truncation of the missed-period count in `take_due_frame` have no counterpart.
- The DualShock 4 target encoder, motion and raw touchpad values: a session's codecs are parameters of the proxy model, and the passthrough results are about the DualSense formats. Output report encoding towards the controller has no model beyond which command is written.
- Float rounding and the filter design: samples and coefficients are reals, the coefficient vector and the reading of four bytes as a float are parameters.
- libopus: whether the encoder yields a packet for a block is an input; packet bytes have no model.
- Stop requests, send failures and end of file in the capture loop: the model follows one stream to its end or to an encoder failure. Its byte and frame buffers are sequences, so copying within a buffer is not captured.
- TOML parsing and the key code table: the configuration arrives parsed and the table is a parameter. Names are sequences of characters, and lower-casing covers ASCII only, which no button name leaves.
- Error texts: a configuration error says which section or which kind of check failed, not how it is worded, and the answer to an unknown command leaves out the command. Packets are sequences of characters, measured by their UTF-8 sizes; whether received bytes are UTF-8 is an input.
- HashMap order and multiplicity: maps are visited in arbitrary order; rules and combos are described with their order, blocks, turbos and macros by membership, not by how often one occurs.
- GamepadState is a value that passes through the methods rather than an object updated in place.
- A key write that fails after the key event but before its synchronisation event counts as refused.
- A session starts from a mapping whose intervals and steps are sound, as an accepted configuration or the empty one provides.
- The run-level results about a session speak of a stretch between configuration switches; `Proxy.Proxy.ApplyActiveConfig` states that an accepted switch starts such a stretch.
- Clock readings inside one handler are one reading, including those taken while runtimes are built.
- Path independence is per runtime and between deadlines; a turbo used as a combo modifier makes skipped phases observable, and the source does not promise otherwise.
- Logging, notifications, the graphical editor, profile matching and process scanning.

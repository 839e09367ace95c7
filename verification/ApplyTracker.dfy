/** Which configuration the daemon has in force, and what to ask for next (src/bin/edgemap/daemon/mod.rs). */
module ApplyTracker {
  import opened Model

  datatype Failure = Failure(selectedPath: string, message: string)

  datatype Loaded = LoadOk(config: string) | LoadErr(error: string)

  /** What loading each path yields while nothing on disk changes. */
  type Loader = string -> Loaded

  datatype Pending = Pending(selectedPath: string, targetPath: string, config: string, failureAfterAck: Option<Failure>)

  datatype Plan = NoChange | Retain(failureChanged: bool) | Request(pending: Pending)

  datatype Tracker = Tracker(
    selected: Option<string>, effective: Option<string>, lastFailure: Option<Failure>, force: bool)

  const START: Tracker := Tracker(None, None, None, false)

  datatype Prepared = Prepared(tracker: Tracker, plan: Plan)

  /** The configuration already in force is the wanted one, as far as the tracker knows. */
  predicate InForce(t: Tracker, path: string) {
    !t.force && t.effective == Some(path)
  }

  function Failed(t: Tracker, failure: Failure): Prepared {
    Prepared(t.(lastFailure := Some(failure)), Retain(t.lastFailure != Some(failure)))
  }

  predicate FailedBefore(t: Tracker, selected: string) {
    t.lastFailure.Some? && t.lastFailure.value.selectedPath == selected
  }

  function Prepare(t: Tracker, selected: string, base: string, load: Loader): Prepared {
    if InForce(t, selected) && !FailedBefore(t, selected) then Prepared(t.(lastFailure := None), NoChange)
    else match load(selected)
      case LoadOk(config) =>
        if InForce(t, selected) then Prepared(t.(lastFailure := None), NoChange)
        else Prepared(t, Request(Pending(selected, selected, config, None)))
      case LoadErr(error) =>
        if selected == base || InForce(t, base) then Failed(t, Failure(selected, error))
        else match load(base)
          case LoadOk(config) => Prepared(t, Request(Pending(selected, base, config, Some(Failure(selected, error)))))
          case LoadErr(second) => Failed(t, Failure(selected, error + "; default config unavailable: " + second))
  }

  function Acknowledged(t: Tracker, p: Pending): Tracker {
    Tracker(Some(p.selectedPath), Some(p.targetPath), p.failureAfterAck, false)
  }

  function RequestFailed(t: Tracker, p: Pending, message: string): Tracker {
    t.(lastFailure := Some(Failure(p.selectedPath,
         if p.failureAfterAck.Some?
         then p.failureAfterAck.value.message + "; failed to apply default config: " + message
         else message)))
  }

  class ConfigApplyTracker {
    var selectedPath: Option<string>
    var effectivePath: Option<string>
    var lastFailure: Option<Failure>
    var force: bool

    function View(): Tracker
      reads this
    {
      Tracker(selectedPath, effectivePath, lastFailure, force)
    }

    constructor ()
      ensures View() == START
    {
      selectedPath, effectivePath, lastFailure, force := None, None, None, false;
    }

    method ForceUnknown()
      modifies this
      ensures View() == old(View()).(effective := None, force := true)
    {
      effectivePath, force := None, true;
    }

    method SetFailure(failure: Failure) returns (changed: bool)
      modifies this`lastFailure
      ensures View() == old(View()).(lastFailure := Some(failure))
      ensures changed <==> old(lastFailure) != Some(failure)
    {
      changed := lastFailure != Some(failure);
      lastFailure := Some(failure);
    }

    method PreparePlan(selected: string, base: string, load: Loader) returns (plan: Plan)
      modifies this`lastFailure
      ensures Prepared(View(), plan) == Prepare(old(View()), selected, base, load)
    {
      var failedSelectionIsCurrent := lastFailure.Some? && lastFailure.value.selectedPath == selected;
      if !force && effectivePath == Some(selected) && !failedSelectionIsCurrent {
        lastFailure := None;
        return NoChange;
      }
      var first := load(selected);
      if first.LoadOk? {
        if !force && effectivePath == Some(selected) {
          lastFailure := None;
          return NoChange;
        }
        return Request(Pending(selected, selected, first.config, None));
      }
      if selected == base {
        var changed := SetFailure(Failure(selected, first.error));
        return Retain(changed);
      }
      if !force && effectivePath == Some(base) {
        var changed := SetFailure(Failure(selected, first.error));
        return Retain(changed);
      }
      var second := load(base);
      if second.LoadOk? {
        return Request(Pending(selected, base, second.config, Some(Failure(selected, first.error))));
      }
      var changed := SetFailure(Failure(selected, first.error + "; default config unavailable: " + second.error));
      return Retain(changed);
    }

    method Acknowledge(pending: Pending) returns (failureChanged: bool)
      modifies this
      ensures View() == Acknowledged(old(View()), pending)
      ensures failureChanged <==> pending.failureAfterAck.Some? && old(lastFailure) != pending.failureAfterAck
    {
      selectedPath := Some(pending.selectedPath);
      effectivePath := Some(pending.targetPath);
      force := false;
      if pending.failureAfterAck.Some? {
        failureChanged := SetFailure(pending.failureAfterAck.value);
      } else {
        lastFailure := None;
        failureChanged := false;
      }
    }

    method RecordRequestFailure(pending: Pending, message: string) returns (changed: bool)
      modifies this`lastFailure
      ensures View() == RequestFailed(old(View()), pending, message)
      ensures changed <==> old(lastFailure) != lastFailure
    {
      var full := if pending.failureAfterAck.Some?
        then pending.failureAfterAck.value.message + "; failed to apply default config: " + message
        else message;
      changed := SetFailure(Failure(pending.selectedPath, full));
    }
  }

  // -------------------------------------------------------------- it settles

  /** Another look changes nothing and reports nothing. */
  predicate Settled(t: Tracker, selected: string, base: string, load: Loader) {
    var p := Prepare(t, selected, base, load);
    p.tracker == t && !p.plan.Request? && (p.plan.Retain? ==> !p.plan.failureChanged)
  }

  /** Once a request is acknowledged, the same selection and load results never lead to another. */
  lemma AcknowledgedSettles(t: Tracker, selected: string, base: string, load: Loader)
    requires Prepare(t, selected, base, load).plan.Request?
    ensures Settled(Acknowledged(Prepare(t, selected, base, load).tracker, Prepare(t, selected, base, load).plan.pending),
                    selected, base, load)
  {
  }

  /** A plan that is not a request settles at once. */
  lemma OtherPlansSettle(t: Tracker, selected: string, base: string, load: Loader)
    requires !Prepare(t, selected, base, load).plan.Request?
    ensures Settled(Prepare(t, selected, base, load).tracker, selected, base, load)
  {
  }

  function PrepareAgain(t: Tracker, selected: string, base: string, load: Loader, times: nat): Tracker {
    if times == 0 then t else Prepare(PrepareAgain(t, selected, base, load, times - 1), selected, base, load).tracker
  }

  /** So however often the daemon looks again, it stays quiet. */
  lemma {:induction false} SettledForever(t: Tracker, selected: string, base: string, load: Loader, times: nat)
    requires Settled(t, selected, base, load)
    ensures PrepareAgain(t, selected, base, load, times) == t
    ensures Settled(PrepareAgain(t, selected, base, load, times), selected, base, load)
  {
    if times > 0 {
      SettledForever(t, selected, base, load, times - 1);
    }
  }

  /** When and what is requested. */
  lemma RequestsExactlyWhen(t: Tracker, selected: string, base: string, load: Loader)
    ensures var plan := Prepare(t, selected, base, load).plan;
            && (plan.Request? <==>
                  && (InForce(t, selected) ==> FailedBefore(t, selected) && load(selected).LoadErr?)
                  && (load(selected).LoadErr? ==> selected != base && !InForce(t, base) && load(base).LoadOk?))
            && (plan.Request? ==>
                  && plan.pending.selectedPath == selected
                  && plan.pending.targetPath in {selected, base}
                  && load(plan.pending.targetPath) == LoadOk(plan.pending.config)
                  && (plan.pending.targetPath == base ==> selected == base || load(selected).LoadErr?)
                  && (plan.pending.targetPath != selected <==> plan.pending.failureAfterAck.Some?))
  {
  }

  // --------------------------------------------------------------- whole runs

  datatype TrackerOp =
    | Look(selected: string, base: string, load: Loader)
    | Ack(pending: Pending)
    | RequestFail(pending: Pending, message: string)
    | Forget

  function Apply(t: Tracker, op: TrackerOp): Tracker {
    match op
    case Look(selected, base, load) => Prepare(t, selected, base, load).tracker
    case Ack(pending) => Acknowledged(t, pending)
    case RequestFail(pending, message) => RequestFailed(t, pending, message)
    case Forget => t.(effective := None, force := true)
  }

  function TrackerAfter(ops: seq<TrackerOp>): Tracker {
    if ops == [] then START else Apply(TrackerAfter(ops[..|ops| - 1]), ops[|ops| - 1])
  }

  /** The path of the last acknowledgement, unless everything was forgotten since. */
  function LastAcknowledged(ops: seq<TrackerOp>): Option<string> {
    if ops == [] then None
    else match ops[|ops| - 1]
      case Ack(pending) => Some(pending.targetPath)
      case Forget => None
      case _ => LastAcknowledged(ops[..|ops| - 1])
  }

  /** In every reachable state the effective path is the last one acknowledged, and forcing means none is known. */
  lemma {:induction false} EffectiveIsAcknowledged(ops: seq<TrackerOp>)
    ensures TrackerAfter(ops).effective == LastAcknowledged(ops)
    ensures TrackerAfter(ops).force ==> TrackerAfter(ops).effective.None?
  {
    if ops != [] {
      EffectiveIsAcknowledged(ops[..|ops| - 1]);
    }
  }

  // ------------------------------------------------------- what is reported

  /** The message a look records when it has to keep what is in force. */
  predicate FailureText(message: string, t: Tracker, selected: string, base: string, load: Loader) {
    && load(selected).LoadErr?
    && if selected == base || (!t.force && t.effective == Some(base)) then message == load(selected).error
       else load(base).LoadErr? && message == load(selected).error + "; default config unavailable: " + load(base).error
  }

  /**
   * Every look, case by case: a request leaves the tracker alone; nothing to do forgets the last failure;
   * and a selection that cannot be loaded, with no default to fall back to, is recorded with its message
   * and reported exactly when it is not the failure already on record.
   */
  lemma LookLaw(t: Tracker, selected: string, base: string, load: Loader)
    ensures var p := Prepare(t, selected, base, load);
            match p.plan
            case Request(pending) =>
              p.tracker == t
              && (pending.targetPath != selected ==>
                    load(selected).LoadErr? && pending.failureAfterAck == Some(Failure(selected, load(selected).error)))
            case NoChange =>
              p.tracker == Tracker(t.selected, Some(selected), None, false) && t.effective == Some(selected) && !t.force
            case Retain(reported) =>
              exists message ::
                && FailureText(message, t, selected, base, load)
                && p.tracker == Tracker(t.selected, t.effective, Some(Failure(selected, message)), t.force)
                && (reported <==> t.lastFailure != Some(Failure(selected, message)))
  {
    var p := Prepare(t, selected, base, load);
    if p.plan.Retain? {
      assert FailureText(p.tracker.lastFailure.value.message, t, selected, base, load);
    }
  }

  /** The operation records no failure. */
  predicate FailureFree(t: Tracker, op: TrackerOp) {
    match op
    case Look(selected, base, load) => !Prepare(t, selected, base, load).plan.Retain?
    case Ack(pending) => pending.failureAfterAck.None?
    case RequestFail(_, _) => false
    case Forget => true
  }

  lemma {:induction false} NothingRecorded(ops: seq<TrackerOp>)
    requires forall i :: 0 <= i < |ops| ==> FailureFree(TrackerAfter(ops[..i]), ops[i])
    ensures TrackerAfter(ops).lastFailure.None?
  {
    hide Prepare;
    if ops != [] {
      var n := |ops| - 1;
      forall i | 0 <= i < n ensures ops[..n][..i] == ops[..i] {}
      NothingRecorded(ops[..n]);
      if ops[n].Look? {
        LookLaw(TrackerAfter(ops[..n]), ops[n].selected, ops[n].base, ops[n].load);
      }
    }
  }

  /** The first failing look of a run is reported; looking again at the same failure is not. */
  lemma FirstFailureReported(ops: seq<TrackerOp>, selected: string, base: string, load: Loader)
    requires forall i :: 0 <= i < |ops| ==> FailureFree(TrackerAfter(ops[..i]), ops[i])
    requires Prepare(TrackerAfter(ops), selected, base, load).plan.Retain?
    ensures var p := Prepare(TrackerAfter(ops), selected, base, load);
            && p.plan.failureChanged && p.tracker.lastFailure.Some?
            && Prepare(p.tracker, selected, base, load) == Prepared(p.tracker, Retain(false))
  {
    hide TrackerAfter, FailureFree;
    NothingRecorded(ops);
    LookLaw(TrackerAfter(ops), selected, base, load);
    OtherPlansSettle(TrackerAfter(ops), selected, base, load);
    var t := Prepare(TrackerAfter(ops), selected, base, load).tracker;
    LookLaw(t, selected, base, load);
  }

  /** What an answer to a request leaves on record: the failure that was put off, or the refusal itself. */
  lemma AnswerLaw(ops: seq<TrackerOp>, pending: Pending, message: string)
    ensures var t := TrackerAfter(ops);
            && TrackerAfter(ops + [Ack(pending)])
               == Tracker(Some(pending.selectedPath), Some(pending.targetPath), pending.failureAfterAck, false)
            && TrackerAfter(ops + [RequestFail(pending, message)])
               == t.(lastFailure := Some(Failure(pending.selectedPath,
                      match pending.failureAfterAck
                      case None => message
                      case Some(first) => first.message + "; failed to apply default config: " + message)))
  {
    assert (ops + [Ack(pending)])[..|ops|] == ops && (ops + [RequestFail(pending, message)])[..|ops|] == ops;
  }
}

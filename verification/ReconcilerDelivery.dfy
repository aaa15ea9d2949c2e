/** What one reconcile does when nobody interferes.
 *
 *  Each theorem takes any reachable state in which the name is queued and no reconcile is under way,
 *  and gives a run of that one reconcile, with an up-to-date read and writes that take effect, and
 *  the object it leaves behind. */
module ReconcilerDelivery {
  import opened Wrappers
  import opened Reconciler
  import opened ReconcilerInvariant
  import opened ReconcilerTheorems

  /** The name is about to be reconciled, and this is its object. */
  predicate Due(s: State, dm: DM) {
    s.pc.Idle? && s.queued && Cur(s.api) == Some(dm)
  }

  /** A reconcile that has just read the current version. */
  predicate Read(s: State, dm: DM) {
    s.api.hist != [] && s.pc == Fetched(|s.api.hist| - 1, dm) && Cur(s.api) == Some(dm)
  }

  lemma ReadNow(s: State, dm: DM) returns (u: State)
    requires Reachable(s) && Due(s, dm)
    ensures Steps(s, [Fetch(|s.api.hist| - 1)], u)
    ensures u == s.(queued := false, cache := |s.api.hist| - 1, pc := Fetched(|s.api.hist| - 1, dm)) && Read(u, dm)
  {
    ReachableInv(s);
    var a := Fetch(|s.api.hist| - 1);
    u := s.(queued := false, cache := |s.api.hist| - 1, pc := Fetched(|s.api.hist| - 1, dm));
    assert Do(s, a) == u;
    OneStep(s, a, u);
  }

  lemma OneStep(s: State, a: Action, t: State)
    requires Enabled(s, a) && Do(s, a) == t
    ensures Steps(s, [a], t)
  {
    assert [a][1..] == [] && Steps(t, [a][1..], t);
  }

  lemma TwoSteps(s: State, a: Action, u: State, b: Action, t: State)
    requires Enabled(s, a) && Do(s, a) == u && Enabled(u, b) && Do(u, b) == t
    ensures Steps(s, [a, b], t)
  {
    OneStep(u, b, t);
    assert [a, b][1..] == [b];
  }

  /** A reconcile waits for the answer to a write it has just sent, computed from the current version. */
  predicate Asked(s: State, dm: DM, change: Change) {
    && AwaitsAnswer(s.pc) && Cur(s.api) == Some(dm)
    && Write(s.pc.id, |s.api.hist| - 1, change) in s.net.sent && s.api.hist != []
  }

  /** The write takes effect and is acknowledged. */
  function Confirm(s: State, change: Change): seq<Action>
    requires AwaitsAnswer(s.pc) && s.api.hist != []
  {
    [Land(Write(s.pc.id, |s.api.hist| - 1, change), true), Acknowledge]
  }

  lemma Confirmed(s: State, dm: DM, change: Change) returns (t: State)
    requires Asked(s, dm, change)
    ensures Steps(s, Confirm(s, change), t)
    ensures t.api.hist == s.api.hist + [Effect(dm, change)] && t.api.birth == s.api.birth
    ensures t.log == s.log && t.entry == s.entry && t.gos == s.gos && t.cancelled == s.cancelled
    ensures s.pc.AwaitFinalizerAdded? || s.pc.AwaitFinalizerRemoved? ==> t.pc.Idle?
    ensures s.pc.AwaitEarlyCancel? ==> t.pc == CheckStopped(|s.api.hist|, s.pc.dm)
    ensures s.pc.AwaitStart? ==> t.pc == Launching(|s.api.hist|, s.pc.dm)
    ensures s.pc.AwaitDeferred? ==> t.pc.Idle? && t.queued
  {
    var w := Write(s.pc.id, |s.api.hist| - 1, change);
    var u := Do(s, Land(w, true));
    t := Do(u, Acknowledge);
    TwoSteps(s, Land(w, true), u, Acknowledge, t);
  }

  lemma Then(r: State, acts: seq<Action>, s: State, more: seq<Action>, t: State) returns (all: seq<Action>)
    requires Steps(r, acts, s) && Steps(s, more, t)
    ensures Steps(r, all, t) && |all| == |acts| + |more|
  {
    StepsChain(r, acts, s, more, t);
    all := acts + more;
  }

  // ---------------------------------------------------------------- the finalizer is added

  /** An object without the finalizer gets it, and nothing else changes. */
  lemma FinalizerIsAdded(s: State, dm: DM) returns (acts: seq<Action>, t: State)
    requires Reachable(s) && Due(s, dm) && !dm.deleting && !dm.dmFin
    ensures Steps(s, acts, t) && |acts| == 4
    ensures t.pc.Idle? && Cur(t.api) == Some(dm.(dmFin := true)) && t.log == s.log && t.entry == s.entry
  {
    var u := ReadNow(s, dm);
    var w := Do(u, Handle);
    OneStep(u, Handle, w);
    t := Confirmed(w, dm, AddFinalizer);
    acts := Then(s, [Fetch(|s.api.hist| - 1)], u, [Handle], w);
    acts := Then(s, acts, w, Confirm(w, AddFinalizer), t);
  }

  // ---------------------------------------------------------------- a command is started

  /** An object that calls for a command: live, with the finalizer, not finished and not cancelled. */
  predicate Startable(dm: DM) {
    !dm.deleting && dm.dmFin && !dm.cancel && !dm.status.state.Finished?
  }

  /** A start that finds the object running counts as a restart. */
  function Again(dm: DM): nat {
    dm.status.restarts + (if dm.status.state.Running? then 1 else 0)
  }

  lemma Decided(s: State, dm: DM) returns (acts: seq<Action>, t: State)
    requires Reachable(s) && Due(s, dm) && Startable(dm) && s.entry.None?
    ensures Steps(s, acts, t) && |acts| == 3
    ensures t == s.(queued := false, cache := |s.api.hist| - 1, pc := t.pc) && t.pc.Preparing?
    ensures t.pc.v == |s.api.hist| - 1 && t.pc.dm == dm.(status := dm.status.(restarts := Again(dm)))
  {
    var u := ReadNow(s, dm);
    var w := Do(u, Handle);
    t := Do(w, Handle);
    TwoSteps(u, Handle, w, Handle, t);
    acts := Then(s, [Fetch(|s.api.hist| - 1)], u, [Handle, Handle], t);
  }

  /** The status that records a start. */
  predicate IsStart(before: Status, restarts: nat, command: int, st: Status) {
    st == before.(state := Running, started := true, restarts := restarts, command := command)
  }

  lemma StartRecorded(s: State, dm: DM, command: int) returns (acts: seq<Action>, t: State)
    requires s.pc.Preparing? && s.pc.v == |s.api.hist| - 1 && s.api.hist != [] && Cur(s.api) == Some(dm)
    requires s.pc.dm == dm.(status := s.pc.dm.status)
    ensures Steps(s, acts, t) && |acts| == 3
    ensures t.pc.Launching? && t.log == s.log && t.entry == s.entry && t.gos == s.gos
    ensures t.pc.dm == dm.(status := t.pc.dm.status) && Cur(t.api) == Some(t.pc.dm)
    ensures IsStart(s.pc.dm.status, s.pc.dm.status.restarts, command, t.pc.dm.status)
  {
    var w := Do(s, PrepareDone(command));
    OneStep(s, PrepareDone(command), w);
    var change := SetStatus(w.pc.dm.status);
    t := Confirmed(w, dm, change);
    acts := Then(s, [PrepareDone(command)], w, Confirm(w, change), t);
  }

  lemma Spawned(s: State, progress: bool) returns (t: State)
    requires s.pc.Launching?
    ensures Steps(s, [Handle, Spawn(progress)], t)
    ensures t.pc.Idle? && t.api == s.api && t.log.runs == s.log.runs + [Pending] && t.log.mark == s.log.mark
    ensures t.entry == Some(Entry(|s.log.runs|, None)) && Active(t, |s.log.runs|)
    ensures t.gos[|s.log.runs|].main.Executing? && (progress <==> t.gos[|s.log.runs|].collector.Waiting?)
  {
    var w := Do(s, Handle);
    t := Do(w, Spawn(progress));
    TwoSteps(s, Handle, w, Spawn(progress), t);
  }

  /** An object that calls for a command and is not tracked gets one: the start is recorded first, as a
      restart if the object was running, and then exactly one command is launched and tracked. */
  lemma CommandIsStarted(s: State, dm: DM, command: int, progress: bool) returns (acts: seq<Action>, t: State)
    requires Reachable(s) && Due(s, dm) && Startable(dm) && s.entry.None?
    ensures Steps(s, acts, t) && |acts| == 8
    ensures t.pc.Idle? && t.log.runs == s.log.runs + [Pending]
    ensures t.entry == Some(Entry(|s.log.runs|, None)) && Active(t, |s.log.runs|)
    ensures Cur(t.api).Some? && Cur(t.api).value == dm.(status := Cur(t.api).value.status)
    ensures IsStart(dm.status, Again(dm), command, Cur(t.api).value.status)
  {
    var u, v, first, second;
    first, u := Decided(s, dm);
    second, v := StartRecorded(u, dm, command);
    t := Spawned(v, progress);
    acts := Then(s, first, u, second, v);
    acts := Then(s, acts, v, [Handle, Spawn(progress)], t);
  }

  /** When the preparation fails instead, the object ends as invalid with the message, and the name is
      queued again. */
  lemma FailureIsRecorded(s: State, dm: DM, message: int) returns (acts: seq<Action>, t: State)
    requires Reachable(s) && Due(s, dm) && Startable(dm) && s.entry.None?
    ensures Steps(s, acts, t) && |acts| == 7
    ensures t.pc.Idle? && t.queued && t.log == s.log && t.entry.None?
    ensures Cur(t.api) == Some(dm.(status := dm.status.(state := Finished, reason := Invalid, restarts := Again(dm), message := message)))
  {
    var u, first;
    first, u := Decided(s, dm);
    var v := Do(u, PrepareFails);
    OneStep(u, PrepareFails, v);
    acts := Then(s, first, u, [PrepareFails], v);
    var more;
    more, t := ErrorWritten(v, dm, message);
    acts := Then(s, acts, v, more, t);
  }

  lemma ErrorWritten(s: State, dm: DM, message: int) returns (acts: seq<Action>, t: State)
    requires s.pc.Failing? && s.pc.v == |s.api.hist| - 1 && s.api.hist != [] && Cur(s.api) == Some(dm)
    ensures Steps(s, acts, t) && |acts| == 3
    ensures t.pc.Idle? && t.queued && t.log == s.log && t.entry == s.entry
    ensures Cur(t.api) == Some(dm.(status := s.pc.dm.status.(message := message)))
  {
    var w := Do(s, Defer(message));
    OneStep(s, Defer(message), w);
    var change := SetStatus(s.pc.dm.status.(message := message));
    t := Confirmed(w, dm, change);
    acts := Then(s, [Defer(message)], w, Confirm(w, change), t);
  }

  /** A write that is answered with an error and has not taken effect leads to the error being written
      to the object, and to another reconcile. */
  lemma ErrorIsReported(s: State, dm: DM, message: int) returns (acts: seq<Action>, t: State)
    requires Reachable(s) && AwaitsAnswer(s.pc) && !s.pc.AwaitDeferred? && s.pc.v == Version(s.api) && Cur(s.api) == Some(dm)
    ensures Steps(s, acts, t) && |acts| == 4
    ensures t.pc.Idle? && t.queued && t.entry == s.entry && t.log == s.log
    ensures Cur(t.api) == Some(dm.(status := s.pc.dm.status.(message := message)))
  {
    ReachableInv(s);
    var v := Do(s, Refuse);
    OneStep(s, Refuse, v);
    var more;
    more, t := ErrorWritten(v, dm, message);
    acts := Then(s, [Refuse], v, more, t);
  }

  // ---------------------------------------------------------------- nothing is left to do

  /** An object that is finished, or that runs and is tracked, is left as it is. */
  lemma NothingIsDone(s: State, dm: DM) returns (acts: seq<Action>, t: State)
    requires Reachable(s) && Due(s, dm) && !dm.deleting && dm.dmFin && (s.entry.Some? ==> s.entry.value.result.None?)
    requires dm.status.state.Finished? || (dm.status.state.Running? && !dm.cancel && s.entry.Some?)
    ensures Steps(s, acts, t) && |acts| == 3
    ensures t == s.(queued := false, cache := |s.api.hist| - 1)
  {
    var u := ReadNow(s, dm);
    var w := Do(u, Handle);
    t := Do(w, Handle);
    TwoSteps(u, Handle, w, Handle, t);
    acts := Then(s, [Fetch(|s.api.hist| - 1)], u, [Handle, Handle], t);
  }

  // ---------------------------------------------------------------- the finalizer is removed

  /** What is left of an object when the finalizer goes. */
  function Without(dm: DM): Option<DM> {
    if dm.otherFin then Some(dm.(dmFin := false)) else None
  }

  lemma Unpinned(s: State, dm: DM) returns (acts: seq<Action>, t: State)
    requires s.api.hist != [] && s.pc == ReleaseFinalizer(|s.api.hist| - 1, dm) && Cur(s.api) == Some(dm) && dm.deleting && dm.dmFin
    ensures Steps(s, acts, t) && |acts| == 3
    ensures t.pc.Idle? && t.entry == s.entry && t.log == s.log && t.api.hist == s.api.hist + [Without(dm)]
  {
    var w := Do(s, Handle);
    OneStep(s, Handle, w);
    t := Confirmed(w, dm, RemoveFinalizer);
    acts := Then(s, [Handle], w, Confirm(w, RemoveFinalizer), t);
  }

  /** The map is looked at before the finalizer goes, and a stored result is dropped. */
  lemma Checked(s: State, dm: DM) returns (acts: seq<Action>, t: State)
    requires s.api.hist != [] && s.pc == CheckStopped(|s.api.hist| - 1, dm) && Cur(s.api) == Some(dm)
    requires s.entry.Some? ==> s.entry.value.result.Some?
    ensures Steps(s, acts, t) && 1 <= |acts| <= 2
    ensures t == s.(entry := None, pc := ReleaseFinalizer(|s.api.hist| - 1, dm))
  {
    var w := Do(s, Handle);
    OneStep(s, Handle, w);
    if s.entry.None? {
      return [Handle], w;
    }
    t := Do(w, Handle);
    OneStep(w, Handle, t);
    acts := Then(s, [Handle], w, [Handle], t);
  }

  lemma CheckedAndUnpinned(s: State, dm: DM) returns (acts: seq<Action>, t: State)
    requires s.api.hist != [] && s.pc == CheckStopped(|s.api.hist| - 1, dm) && Cur(s.api) == Some(dm) && dm.deleting && dm.dmFin
    requires s.entry.Some? ==> s.entry.value.result.Some?
    ensures Steps(s, acts, t) && |acts| <= 5
    ensures t.pc.Idle? && t.entry.None? && t.log == s.log && t.api.hist == s.api.hist + [Without(dm)]
  {
    var first, second, u;
    first, u := Checked(s, dm);
    second, t := Unpinned(u, dm);
    acts := Then(s, first, u, second, t);
  }

  /** A started object that is being deleted loses the finalizer once no command of it runs, and is gone
      if that was the last one; a stored result is dropped with it. */
  lemma StoppedObjectGoes(s: State, dm: DM) returns (acts: seq<Action>, t: State)
    requires Reachable(s) && Due(s, dm) && dm.deleting && dm.dmFin && dm.status.started
    requires s.entry.Some? ==> s.entry.value.result.Some?
    ensures Steps(s, acts, t) && |acts| <= 7
    ensures t.pc.Idle? && t.entry.None? && t.log == s.log && Cur(t.api) == Without(dm)
  {
    var w, more;
    acts, w := StoppedRead(s, dm);
    more, t := CheckedAndUnpinned(w, dm);
    acts := Then(s, acts, w, more, t);
  }

  lemma StoppedRead(s: State, dm: DM) returns (acts: seq<Action>, t: State)
    requires Reachable(s) && Due(s, dm) && dm.deleting && dm.status.started
    requires s.entry.Some? ==> s.entry.value.result.Some?
    ensures Steps(s, acts, t) && |acts| == 2
    ensures s.api.hist != [] && t.pc == CheckStopped(|s.api.hist| - 1, dm) && t.api == s.api && t.entry == s.entry && t.log == s.log
  {
    var u := ReadNow(s, dm);
    t := Do(u, Handle);
    OneStep(u, Handle, t);
    acts := Then(s, [Fetch(|s.api.hist| - 1)], u, [Handle], t);
  }

  /** The status of an object that is cancelled before its start. */
  function Early(dm: DM): DM {
    dm.(status := dm.status.(state := Finished, reason := Cancelled, started := true, ended := true))
  }

  lemma EarlyRecorded(s: State, dm: DM) returns (acts: seq<Action>, t: State)
    requires Reachable(s) && Due(s, dm) && dm.deleting && !dm.status.started
    ensures Steps(s, acts, t) && |acts| == 4
    ensures t.entry == s.entry && t.log == s.log && t.api.hist == s.api.hist + [Some(Early(dm))]
    ensures t.pc == CheckStopped(|s.api.hist|, Early(dm))
  {
    var u := ReadNow(s, dm);
    var w := Do(u, Handle);
    OneStep(u, Handle, w);
    acts := Then(s, [Fetch(|s.api.hist| - 1)], u, [Handle], w);
    var change := SetStatus(Early(dm).status);
    t := Confirmed(w, dm, change);
    acts := Then(s, acts, w, Confirm(w, change), t);
  }

  /** An object deleted before it was started is first recorded as finished and cancelled, with both
      times, and then loses the finalizer without a command ever having been launched for it. */
  lemma UnstartedObjectGoes(s: State, dm: DM) returns (acts: seq<Action>, t: State)
    requires Reachable(s) && Due(s, dm) && dm.deleting && dm.dmFin && !dm.status.started
    ensures Steps(s, acts, t) && |acts| <= 9
    ensures t.pc.Idle? && t.entry.None? && t.log == s.log
    ensures t.api.hist == s.api.hist + [Some(Early(dm))] + [Without(Early(dm))]
  {
    ReachableInv(s);
    var u, first, second;
    first, u := EarlyRecorded(s, dm);
    second, t := CheckedAndUnpinned(u, Early(dm));
    acts := Then(s, first, u, second, t);
  }

  // ---------------------------------------------------------------- the result

  /** The result of a command is the status it was started with, ended: with the final command status,
      with the message unless it was cancelled, and with the reason by its exit and its context. */
  lemma ResultIsComputed(s: State, g: nat, message: int, command: int)
    requires g in s.gos && s.gos[g].main.Collected? && g < |s.log.runs|
    ensures Enabled(s, Sample(g, message, command))
    ensures var go, t, cancelled := s.gos[g], Do(s, Sample(g, message, command)), g in s.cancelled;
      && t.log.runs == s.log.runs[g := Sampled(go.main.ok, cancelled)]
      && g in t.gos && t.gos[g].main ==
           Computed(go.start.(state := Finished, ended := true, command := command,
                              reason := if cancelled then Cancelled else if go.main.ok then Success else Failed,
                              message := if cancelled then go.start.message else message))
  {
  }

  // ---------------------------------------------------------------- progress is reported

  /** A progress report that takes effect changes the command status of the object and nothing else. */
  lemma ProgressIsReported(s: State, dm: DM, g: nat, command: int) returns (acts: seq<Action>, t: State)
    requires Reachable(s) && g in s.gos && s.gos[g].collector.Reading? && Cur(s.api) == Some(dm)
    ensures Steps(s, acts, t) && |acts| == 2
    ensures Cur(t.api) == Some(dm.(status := dm.status.(command := command)))
    ensures t.log == s.log && t.entry == s.entry && t.pc == s.pc
  {
    ReachableInv(s);
    var v := |s.api.hist| - 1;
    var u := Do(s, Report(g, v, command));
    var w := Write(s.net.nextId, v, SetStatus(dm.status.(command := command)));
    assert w in u.net.sent;
    t := Do(u, Land(w, true));
    TwoSteps(s, Report(g, v, command), u, Land(w, true), t);
    acts := [Report(g, v, command), Land(w, true)];
  }

  /** A collector that is told that the command is done goes through its output once more. */
  lemma LastLookIsTaken(s: State, g: nat)
    requires g in s.gos && s.gos[g].collector.Waiting? && s.gos[g].done
    ensures Enabled(s, TakeDone(g))
    ensures var t := Do(s, TakeDone(g)); g in t.gos && t.gos[g] == s.gos[g].(collector := Reading(true), done := false)
  {
  }

  /** It hands over only after that last look, and after the report it made of it, if any, was
      answered. */
  lemma HandsOverAfterLastLook(s: State, a: Action, g: nat)
    requires Enabled(s, a) && g in s.gos && !s.gos[g].collector.Handing?
    requires g in Do(s, a).gos && Do(s, a).gos[g].collector.Handing?
    ensures || (a == SkipReport(g) && s.gos[g].collector == Reading(true))
            || (a == ReportAnswered(g) && s.gos[g].collector == Reporting(true))
  {
  }
}

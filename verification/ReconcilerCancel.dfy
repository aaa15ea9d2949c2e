/** What a request to stop does to the command that runs. */
module ReconcilerCancel {
  import opened Wrappers
  import opened Reconciler
  import opened ReconcilerInvariant
  import opened ReconcilerTheorems

  /** The reconcile is about to act on a request to stop: the copy it read asks for cancellation and is
      not finished, or is being deleted and was started. */
  predicate AboutToCancel(pc: Pc) {
    || (pc.Deciding? && pc.dm.cancel && !pc.dm.status.state.Finished?)
    || (pc.Fetched? && pc.dm.deleting && pc.dm.status.started)
  }

  /** That step cancels the command that runs, and no other launch. */
  lemma CancelReachesCommand(s: State, g: nat)
    requires Reachable(s) && Active(s, g) && AboutToCancel(s.pc)
    ensures Enabled(s, Handle) && Do(s, Handle).cancelled == s.cancelled + {g}
    ensures Do(s, Handle).entry == s.entry && Do(s, Handle).gos == s.gos && Do(s, Handle).api == s.api
  {
    RunningCommandIsTracked(s, g);
  }

  lemma OnlyHandleCancels(s: State, a: Action)
    requires Enabled(s, a) && !a.Handle?
    ensures Do(s, a).cancelled <= s.cancelled
  {
  }

  lemma HandleCancels(s: State, g: nat)
    requires Enabled(s, Handle) && g in Do(s, Handle).cancelled && g !in s.cancelled
    ensures AboutToCancel(s.pc) && s.entry == Some(Entry(g, None))
  {
  }

  /** Nothing else does. */
  lemma OnlyRequestsCancel(s: State, a: Action, g: nat)
    requires Enabled(s, a) && g in Do(s, a).cancelled && g !in s.cancelled
    ensures a.Handle? && AboutToCancel(s.pc) && s.entry == Some(Entry(g, None))
  {
    if a.Handle? {
      HandleCancels(s, g);
    } else {
      OnlyHandleCancels(s, a);
    }
  }

  /** The name is reconciled with an up-to-date read that asks to stop. */
  predicate AsksNow(s: State) {
    s.pc.Idle? && s.queued && Cur(s.api).Some? && (Cur(s.api).value.cancel || Cur(s.api).value.deleting)
  }

  lemma RunningCommandIsRead(s: State, g: nat) returns (u: State)
    requires Reachable(s) && Active(s, g) && AsksNow(s)
    ensures Enabled(s, Fetch(|s.api.hist| - 1)) && u == Do(s, Fetch(|s.api.hist| - 1))
    ensures Reachable(u) && Active(u, g) && u.api == s.api && u.entry == s.entry == Some(Entry(g, None)) && u.cancelled == s.cancelled
    ensures u.pc == Fetched(|s.api.hist| - 1, Cur(s.api).value)
    ensures var dm := Cur(s.api).value; dm.dmFin && dm.status.state.Running? && dm.status.started
  {
    ReachableInv(s);
    RunningCommandIsTracked(s, g);
    u := Do(s, Fetch(|s.api.hist| - 1));
    ReachableStep(s, Fetch(|s.api.hist| - 1));
  }

  /** Two more moves of a reconcile that read a running object which is asked to stop. */
  lemma CancelHandled(u: State, g: nat) returns (t: State)
    requires Reachable(u) && Active(u, g) && u.pc.Fetched? && u.entry == Some(Entry(g, None))
    requires var dm := u.pc.dm; dm.dmFin && dm.status.state.Running? && dm.status.started && (dm.cancel || dm.deleting)
    ensures Steps(u, [Handle, Handle], t)
    ensures t.pc.Idle? && t.cancelled == u.cancelled + {g} && t.entry == u.entry && t.api == u.api && t.net == u.net
  {
    var acts := [Handle, Handle];
    var w := Do(u, Handle);
    t := Do(w, Handle);
    assert Steps(t, acts[1..][1..], t);
    assert Steps(w, acts[1..], t);
  }

  /** A request to stop a running command is delivered by the next undisturbed reconcile: it cancels
      that command and leaves the object, its finalizer and the map entry alone. */
  lemma CancelIsDelivered(s: State, g: nat) returns (acts: seq<Action>, t: State)
    requires Reachable(s) && Active(s, g) && AsksNow(s)
    ensures Steps(s, acts, t) && |acts| == 3
    ensures t.pc.Idle? && t.cancelled == s.cancelled + {g} && t.entry == s.entry && t.api == s.api
  {
    var u := RunningCommandIsRead(s, g);
    t := CancelHandled(u, g);
    acts := [Fetch(|s.api.hist| - 1)] + [Handle, Handle];
    assert acts[1..] == [Handle, Handle];
  }

  // ---------------------------------------------------------------- the command that was cancelled

  predicate BeforeSample(m: Main) {
    m.Executing? || m.Exited? || m.Signalled? || m.Collected?
  }

  /** The launch has not been sampled, or was sampled as cancelled; as long as its goroutine can sample
      it, its context is cancelled; a result stored for it says so. */
  predicate Marked(s: State, g: nat) {
    && g < |s.log.runs|
    && (s.log.runs[g].Pending? || s.log.runs[g].cancelled)
    && (g in s.gos && BeforeSample(s.gos[g].main) ==> g in s.cancelled)
    && (s.entry.Some? && s.entry.value.launch == g && s.entry.value.result.Some? ==> s.entry.value.result.value.reason.Cancelled?)
  }

  lemma MarkedSample(s: State, a: Action, g: nat)
    requires Enabled(s, a) && a.Sample? && Marked(s, g)
    ensures Marked(Do(s, a), g)
  {
  }

  lemma MarkedSpawn(s: State, a: Action, g: nat)
    requires Inv(s) && Enabled(s, a) && a.Spawn? && Marked(s, g)
    ensures Marked(Do(s, a), g)
  {
  }

  lemma MarkedStore(s: State, a: Action, g: nat)
    requires Inv(s) && Enabled(s, a) && a.StoreResult? && Marked(s, g)
    ensures Marked(Do(s, a), g)
  {
    assert GoOk(s.log, s.entry, a.g, s.gos[a.g]) && WorkOk(s.api, s.log, s.entry, a.g, s.gos[a.g]);
  }

  /** What the other actions leave as it is. */
  lemma OthersLeaveMarks(s: State, a: Action)
    requires Enabled(s, a) && !a.Sample? && !a.Spawn? && !a.StoreResult? && !a.Crash?
    ensures Do(s, a).log.runs == s.log.runs && s.cancelled <= Do(s, a).cancelled
    ensures Do(s, a).entry == s.entry || Do(s, a).entry.None? || Do(s, a).entry.value.result.None?
  {
  }

  lemma OthersDoNotGoBack(s: State, a: Action, g: nat)
    requires Enabled(s, a) && !a.Spawn? && !a.Crash?
    ensures g in Do(s, a).gos && BeforeSample(Do(s, a).gos[g].main) ==> g in s.gos && BeforeSample(s.gos[g].main)
  {
  }

  lemma MarkedStep(s: State, a: Action, g: nat)
    requires Inv(s) && Enabled(s, a) && Marked(s, g)
    ensures Marked(Do(s, a), g)
  {
    if a.Sample? {
      MarkedSample(s, a, g);
    } else if a.Spawn? {
      MarkedSpawn(s, a, g);
    } else if a.StoreResult? {
      MarkedStore(s, a, g);
    } else if !a.Crash? {
      OthersLeaveMarks(s, a);
      OthersDoNotGoBack(s, a, g);
    }
  }

  lemma {:induction false} MarkedRun(s: State, acts: seq<Action>, t: State, g: nat)
    requires Inv(s) && Steps(s, acts, t) && Marked(s, g)
    ensures Inv(t) && Marked(t, g)
    decreases |acts|
  {
    if acts != [] {
      MarkedStep(s, acts[0], g);
      StepKeeps(s, acts[0]);
      MarkedRun(Do(s, acts[0]), acts[1..], t, g);
    }
  }

  /** A command cancelled before its end was sampled is never taken for one that was not: in every
      continuation, with any crashes, its outcome is unknown or cancelled, a result stored for it says
      Cancelled, and while it is the last launch the object is not recorded as Success or Failed. */
  lemma CancelledIsRecorded(s: State, acts: seq<Action>, t: State, g: nat)
    requires Reachable(s) && Active(s, g) && g in s.cancelled && g < |s.log.runs| && s.log.runs[g].Pending?
    requires Steps(s, acts, t)
    ensures g < |t.log.runs| && (t.log.runs[g].Pending? || t.log.runs[g].cancelled)
    ensures t.entry.Some? && t.entry.value.launch == g && t.entry.value.result.Some? ==>
      t.entry.value.result.value.reason.Cancelled?
    ensures g == |t.log.runs| - 1 && Cur(t.api).Some? && Cur(t.api).value.status.state.Finished? ==>
      !Cur(t.api).value.status.reason.Success? && !Cur(t.api).value.status.reason.Failed?
  {
    ReachableInv(s);
    RunningCommandIsTracked(s, g);
    MarkedRun(s, acts, t, g);
    MarkedIsNotUncancelled(t, g);
  }

  lemma MarkedIsNotUncancelled(t: State, g: nat)
    requires Inv(t) && Marked(t, g)
    ensures g == |t.log.runs| - 1 && Cur(t.api).Some? && Cur(t.api).value.status.state.Finished? ==>
      !Cur(t.api).value.status.reason.Success? && !Cur(t.api).value.status.reason.Failed?
  {
  }
}

/** What holds over every run of the data-movement reconciler. */
module ReconcilerTheorems {
  import opened Wrappers
  import opened Reconciler
  import opened ReconcilerInvariant
  import opened ReconcilerSteps

  lemma FetchedKeeps(s: State, a: Action)
    requires Inv(s) && a.Handle? && s.pc.Fetched? && Enabled(s, a)
    ensures Inv(Do(s, a))
  {
    var dm := s.pc.dm;
    if dm.deleting {
      if dm.status.started { FetchedCancelKeeps(s, a); } else { FetchedDeletingKeeps(s, a); }
    } else if !dm.dmFin { FetchedBareKeeps(s, a); }
    else if s.entry.Some? && s.entry.value.result.Some? { FetchedResultKeeps(s, a); }
    else { FetchedPlainKeeps(s, a); }
  }

  lemma DecidingKeeps(s: State, a: Action)
    requires Inv(s) && a.Handle? && s.pc.Deciding? && Enabled(s, a)
    ensures Inv(Do(s, a))
  {
    var dm := s.pc.dm;
    if dm.status.state.Finished? { DecidingStopKeeps(s, a); }
    else if dm.cancel { DecidingCancelKeeps(s, a); }
    else if dm.status.state.Running? && s.entry.Some? { DecidingStopKeeps(s, a); }
    else { DecidingGoKeeps(s, a); }
  }

  lemma HandleKeeps(s: State, a: Action)
    requires Inv(s) && a.Handle? && Enabled(s, a)
    ensures Inv(Do(s, a))
  {
    match s.pc
    case Fetched(_, _) => FetchedKeeps(s, a);
    case CheckStopped(_, _) =>
      if s.entry.Some? { CheckStoppedTrackedKeeps(s, a); } else { CheckStoppedFreeKeeps(s, a); }
    case DropForDelete(_, _) => HandleDropForDeleteKeeps(s, a);
    case ReleaseFinalizer(_, _) => ReleaseKeeps(s, a);
    case DropWritten(_, _) => HandleDropWrittenKeeps(s, a);
    case Deciding(_, _) => DecidingKeeps(s, a);
    case Launching(_, _) => HandleLaunchingKeeps(s, a);
  }

  lemma AnswerKeeps(s: State, a: Action)
    requires Inv(s) && (a.Acknowledge? || a.Refuse?) && Enabled(s, a)
    ensures Inv(Do(s, a))
  {
    match s.pc
    case AwaitFinalizerAdded(_, _, _) => AnswerFinalizerAddedKeeps(s, a);
    case AwaitEarlyCancel(_, _, _) => AnswerEarlyCancelKeeps(s, a);
    case AwaitFinalizerRemoved(_, _, _) => AnswerFinalizerRemovedKeeps(s, a);
    case AwaitResult(_, _, _) => AnswerResultKeeps(s, a);
    case AwaitStart(_, _, _) => AnswerStartKeeps(s, a);
    case AwaitDeferred(_, _, _) => AnswerDeferredKeeps(s, a);
  }

  lemma EnvironmentKeeps(s: State, a: Action)
    requires Inv(s) && Enabled(s, a)
    requires a.Create? || a.EditSpec? || a.RequestDelete? || a.Land? || a.Wake? || a.Crash? || a.FetchFails? || a.Fetch?
    ensures Inv(Do(s, a))
  {
    match a
    case Create(_) => CreateKeeps(s, a);
    case EditSpec(_, _) => EditKeeps(s, a);
    case RequestDelete => EditKeeps(s, a);
    case Land(_, bumps) => if bumps { LandKeeps(s, a); } else { LandStillKeeps(s, a); }
    case Wake => WakeKeeps(s, a);
    case Crash => CrashKeeps(s, a);
    case FetchFails =>
    case Fetch(_) => FetchKeeps(s, a);
  }

  lemma MainKeeps(s: State, a: Action)
    requires Inv(s) && Enabled(s, a)
    requires a.CommandExits? || a.Signal? || a.Meet? || a.Sample? || a.LoadEntry? || a.StoreResult? || a.SendEvent?
    ensures Inv(Do(s, a))
  {
    match a
    case CommandExits(_, _) => CommandExitsKeeps(s, a);
    case Signal(_) => SignalKeeps(s, a);
    case Meet(_) => MeetKeeps(s, a);
    case Sample(_, _, _) => SampleKeeps(s, a);
    case LoadEntry(_) => LoadEntryKeeps(s, a);
    case StoreResult(_) => StoreResultKeeps(s, a);
    case SendEvent(_) => SendEventKeeps(s, a);
  }

  lemma CollectorKeeps(s: State, a: Action)
    requires Inv(s) && Enabled(s, a)
    requires a.Tick? || a.TakeDone? || a.SkipReport? || a.Report? || a.ReportAnswered?
    ensures Inv(Do(s, a))
  {
    match a
    case Tick(_) => TickKeeps(s, a);
    case TakeDone(_) => TakeDoneKeeps(s, a);
    case SkipReport(_) => SkipReportKeeps(s, a);
    case Report(_, _, _) => ReportKeeps(s, a);
    case ReportAnswered(_) => ReportAnsweredKeeps(s, a);
  }

  lemma ReconcileKeeps(s: State, a: Action)
    requires Inv(s) && Enabled(s, a)
    requires a.Handle? || a.Acknowledge? || a.Refuse? || a.PrepareFails? || a.PrepareDone? || a.Defer? || a.Spawn?
    ensures Inv(Do(s, a))
  {
    match a
    case Handle => HandleKeeps(s, a);
    case Acknowledge => AnswerKeeps(s, a);
    case Refuse => AnswerKeeps(s, a);
    case PrepareFails => PrepareFailsKeeps(s, a);
    case PrepareDone(_) => PrepareDoneKeeps(s, a);
    case Defer(_) => DeferKeeps(s, a);
    case Spawn(_) => SpawnKeeps(s, a);
  }

  lemma StepKeeps(s: State, a: Action)
    requires Inv(s) && Enabled(s, a)
    ensures Inv(Do(s, a))
  {
    if a.CommandExits? || a.Signal? || a.Meet? || a.Sample? || a.LoadEntry? || a.StoreResult? || a.SendEvent? {
      MainKeeps(s, a);
    } else if a.Tick? || a.TakeDone? || a.SkipReport? || a.Report? || a.ReportAnswered? {
      CollectorKeeps(s, a);
    } else if a.Handle? || a.Acknowledge? || a.Refuse? || a.PrepareFails? || a.PrepareDone? || a.Defer? || a.Spawn? {
      ReconcileKeeps(s, a);
    } else {
      EnvironmentKeeps(s, a);
    }
  }

  lemma {:induction false} RunKeeps(s: State, acts: seq<Action>, t: State)
    requires Inv(s) && Steps(s, acts, t)
    ensures Inv(t)
    decreases |acts|
  {
    if acts != [] {
      StepKeeps(s, acts[0]);
      RunKeeps(Do(s, acts[0]), acts[1..], t);
    }
  }

  lemma ReachableInv(t: State)
    requires Reachable(t)
    ensures Inv(t)
  {
    var s, acts :| Init(s) && Steps(s, acts, t);
    InitKeeps(s);
    RunKeeps(s, acts, t);
  }

  // ---------------------------------------------------------------- one command at a time

  /** A command that has not delivered its result is the one the map tracks, its object
      still exists with the data-movement finalizer, and the API says Running. */
  lemma RunningCommandIsTracked(s: State, g: nat)
    requires Reachable(s) && Active(s, g)
    ensures s.entry == Some(Entry(g, None))
    ensures Cur(s.api).Some? && Cur(s.api).value.dmFin && Cur(s.api).value.status.state.Running?
  {
    ReachableInv(s);
    assert WorkOk(s.api, s.log, s.entry, g, s.gos[g]);
  }

  lemma AtMostOneCommand(s: State, g: nat, h: nat)
    requires Reachable(s) && Active(s, g) && Active(s, h)
    ensures g == h
  {
    RunningCommandIsTracked(s, g);
    RunningCommandIsTracked(s, h);
  }

  // ---------------------------------------------------------------- number of launches

  /** However often the process crashes, an object sees at most one launch more than its
      recorded restarts, and none before its state says so. */
  lemma LaunchesAreCounted(s: State)
    requires Reachable(s) && Cur(s.api).Some?
    ensures 0 <= Launched(s.log) <= Cur(s.api).value.status.restarts + 1
    ensures Cur(s.api).value.status.state.Unset? ==> Launched(s.log) == 0
  {
    ReachableInv(s);
  }

  // ---------------------------------------------------------------- finished is final

  /** What a later status may say about an object that had finished. */
  predicate Settled(c: Status, later: DM) {
    later.status.state.Finished? &&
    ((later.status.reason == c.reason && later.status.started == c.started) ||
     (c.reason.Invalid? && !c.started && later.status.reason.Cancelled? && later.status.started && later.deleting))
  }

  /** Only an object in state Running has work going on or about to start. */
  lemma OnlyRunningWorks(s: State)
    requires Inv(s) && (Cur(s.api).Some? ==> !Cur(s.api).value.status.state.Running?)
    ensures !LaunchPending(s.pc, s.net)
    ensures forall g :: g in s.gos ==> !Working(s.gos[g])
  {
    forall g | g in s.gos
      ensures !Working(s.gos[g])
    {
      assert WorkOk(s.api, s.log, s.entry, g, s.gos[g]);
    }
  }

  lemma FinishedLand(s: State, a: Action, c: Status)
    requires Inv(s) && Enabled(s, a) && a.Land?
    requires Cur(s.api).Some? ==> Settled(c, Cur(s.api).value)
    ensures Cur(Do(s, a).api).Some? ==> Cur(s.api).Some? && Settled(c, Cur(Do(s, a).api).value)
  {
    assert WriteOk(s.api, s.entry, s.log, a.w);
  }

  lemma FinishedStep(s: State, a: Action, c: Status)
    requires Inv(s) && Enabled(s, a) && !a.Create?
    requires Cur(s.api).Some? ==> Settled(c, Cur(s.api).value)
    ensures Do(s, a).log == s.log
    ensures Cur(Do(s, a).api).Some? ==> Cur(s.api).Some? && Settled(c, Cur(Do(s, a).api).value)
  {
    if a.Land? {
      FinishedLand(s, a, c);
    } else {
      OnlyRunningWorks(s);
    }
  }

  lemma {:induction false} FinishedRun(s: State, acts: seq<Action>, t: State, c: Status)
    requires Inv(s) && Steps(s, acts, t) && (forall a :: a in acts ==> !a.Create?)
    requires Cur(s.api).Some? ==> Settled(c, Cur(s.api).value)
    ensures t.log == s.log
    ensures Cur(t.api).Some? ==> Settled(c, Cur(t.api).value)
    decreases |acts|
  {
    if acts != [] {
      var u := Do(s, acts[0]);
      FinishedStep(s, acts[0], c);
      StepKeeps(s, acts[0]);
      forall a | a in acts[1..] ensures !a.Create? { assert a in acts; }
      FinishedRun(u, acts[1..], t, c);
    }
  }

  /** Once an object has finished it stays finished, nothing is launched for it any more,
      and its reason can only turn from Invalid into Cancelled, when it is deleted without
      ever having been started. */
  lemma FinishedIsFinal(s: State, acts: seq<Action>, t: State)
    requires Reachable(s) && Cur(s.api).Some? && Cur(s.api).value.status.state.Finished?
    requires Steps(s, acts, t) && (forall a :: a in acts ==> !a.Create?)
    ensures t.log.runs == s.log.runs
    ensures Cur(t.api).Some? ==>
              var st, st' := Cur(s.api).value.status, Cur(t.api).value.status;
              st'.state.Finished? &&
              (st'.reason == st.reason ||
               (st.reason.Invalid? && !st.started && st'.reason.Cancelled? && Cur(t.api).value.deleting))
  {
    ReachableInv(s);
    FinishedRun(s, acts, t, Cur(s.api).value.status);
  }

  // ---------------------------------------------------------------- results are not lost

  lemma ResultMeansNoWork(s: State)
    requires Inv(s) && s.entry.Some? && s.entry.value.result.Some?
    ensures forall g :: g in s.gos ==> !Working(s.gos[g])
  {
    forall g | g in s.gos
      ensures !Working(s.gos[g])
    {
      assert WorkOk(s.api, s.log, s.entry, g, s.gos[g]);
    }
  }

  /** A result leaves the map only when the process dies, when exactly that status is in
      the object's history, or when the object is being deleted. */
  lemma ResultLeavesOnlyWritten(s: State, a: Action)
    requires Reachable(s) && Enabled(s, a)
    requires s.entry.Some? && s.entry.value.result.Some? && Do(s, a).entry != s.entry
    ensures Do(s, a).entry.None?
    ensures || a.Crash?
            || (Cur(s.api).Some? && Cur(s.api).value.deleting)
            || exists v :: s.api.birth <= v < |s.api.hist| && s.api.hist[v].Some? &&
                           s.api.hist[v].value.status == s.entry.value.result.value
  {
    ReachableInv(s);
    ResultMeansNoWork(s);
    if a.Handle? && s.pc.DropWritten? {
      assert s.api.hist[s.pc.v].value.status == s.entry.value.result.value;
    }
  }

  /** Until then somebody still has to look at it. */
  lemma ResultIsOwedAReconcile(s: State)
    requires Reachable(s) && s.entry.Some? && s.entry.value.result.Some?
    ensures Owed(s.queued, s.pc, s.entry, s.gos)
  {
    ReachableInv(s);
  }

  /** The five moves by which a reconcile delivers result `r` when nobody interferes. */
  function Delivery(v: nat, id: nat, r: Status): seq<Action> {
    [Fetch(v), Handle, Land(Write(id, v, SetStatus(r)), true), Acknowledge, Handle]
  }

  lemma DeliveryWrites(s: State, v: nat, dm: DM, r: Status) returns (t: State)
    requires v == Version(s.api) && Cur(s.api) == Some(dm) && dm.dmFin && !dm.deleting
    requires s.pc == Fetched(v, dm) && s.entry.Some? && s.entry.value.result == Some(r)
    ensures Steps(s, Delivery(v, s.net.nextId, r)[1..3], t)
    ensures t.pc == AwaitResult(v, dm.(status := r), s.net.nextId) && t.entry == s.entry
    ensures s.net.nextId in t.net.landed && Cur(t.api) == Some(dm.(status := r))
  {
    var id := s.net.nextId;
    var acts := Delivery(v, id, r)[1..3];
    var s2 := Ask(s, v, SetStatus(r), AwaitResult(v, dm.(status := r), id));
    assert acts == [Handle, Land(Write(id, v, SetStatus(r)), true)];
    t := Do(s2, acts[1]);
    assert Steps(t, acts[1..][1..], t);
    assert Steps(s2, acts[1..], t);
  }

  lemma DeliveryForgets(s: State, dm: DM) returns (t: State)
    requires s.pc.AwaitResult? && s.pc.id in s.net.landed && s.pc.dm == dm
    ensures Steps(s, [Acknowledge, Handle], t)
    ensures t.pc.Idle? && t.entry.None? && t.api == s.api
  {
    var acts := [Acknowledge, Handle];
    var s4 := Do(s, Acknowledge);
    t := Do(s4, Handle);
    assert Steps(t, acts[1..][1..], t);
    assert Steps(s4, acts[1..], t);
  }

  lemma {:induction false} StepsChain(r: State, acts: seq<Action>, s: State, more: seq<Action>, t: State)
    requires Steps(r, acts, s) && Steps(s, more, t)
    ensures Steps(r, acts + more, t)
    decreases |acts|
  {
    if acts == [] {
      assert acts + more == more;
    } else {
      assert (acts + more)[0] == acts[0] && (acts + more)[1..] == acts[1..] + more;
      StepsChain(Do(r, acts[0]), acts[1..], s, more, t);
    }
  }

  lemma DeliverySteps(s: State, v: nat, dm: DM, r: Status) returns (t: State)
    requires v == Version(s.api) && Cur(s.api) == Some(dm) && dm.dmFin && !dm.deleting
    requires s.pc.Idle? && s.queued && s.cache <= v && s.entry.Some? && s.entry.value.result == Some(r)
    ensures Steps(s, Delivery(v, s.net.nextId, r), t)
    ensures t.pc.Idle? && t.entry.None? && Cur(t.api) == Some(dm.(status := r))
  {
    var acts := Delivery(v, s.net.nextId, r);
    var s1 := s.(queued := false, cache := v, pc := Fetched(v, dm));
    var s3 := DeliveryWrites(s1, v, dm, r);
    t := DeliveryForgets(s3, dm.(status := r));
    StepsChain(s1, acts[1..3], s3, [Acknowledge, Handle], t);
    assert acts[1..] == acts[1..3] + [Acknowledge, Handle];
  }

  /** A reconcile that is left alone records exactly the result of the map entry, and then
      forgets the entry. */
  lemma UndisturbedReconcileDelivers(s: State) returns (t: State)
    requires Reachable(s) && s.pc.Idle? && s.queued && s.entry.Some? && s.entry.value.result.Some?
    requires Cur(s.api).Some? && !Cur(s.api).value.deleting
    ensures exists acts :: Steps(s, acts, t) && |acts| == 5
    ensures t.pc.Idle? && t.entry.None?
    ensures Cur(t.api) == Some(Cur(s.api).value.(status := s.entry.value.result.value))
  {
    ReachableInv(s);
    t := DeliverySteps(s, |s.api.hist| - 1, Cur(s.api).value, s.entry.value.result.value);
  }

  // ---------------------------------------------------------------- what the reason means

  /** The recorded reason is the truth about the last launched command. */
  lemma ReasonIsTrue(s: State)
    requires Reachable(s) && Cur(s.api).Some? && Cur(s.api).value.status.state.Finished?
    ensures var log, reason := s.log, Cur(s.api).value.status.reason;
            && (reason.Success? ==> Launched(log) > 0 && log.runs[|log.runs| - 1] == Sampled(true, false))
            && (reason.Failed? ==> Launched(log) > 0 && log.runs[|log.runs| - 1] == Sampled(false, false))
            && (reason.Cancelled? ==> Requested(s.api))
            && (reason.Cancelled? && Launched(log) > 0 ==>
                  log.runs[|log.runs| - 1].Sampled? && log.runs[|log.runs| - 1].cancelled)
            && (!reason.Invalid? ==> Cur(s.api).value.status.started && Cur(s.api).value.status.ended)
            && !reason.NoReason?
  {
    ReachableInv(s);
  }

  // ---------------------------------------------------------------- progress hand-shake

  predicate PastCollection(m: Main) {
    m.Collected? || m.Computed? || m.Loaded? || m.Stored? || m.Sent?
  }

  predicate IsCollectorAction(a: Action, g: nat) {
    (a.Tick? || a.TakeDone? || a.SkipReport? || a.Report? || a.ReportAnswered?) && a.g == g
  }

  /** The launch is over as far as its collector is concerned. */
  predicate CollectorOver(s: State, g: nat) {
    g < |s.log.runs| && (g in s.gos ==> PastCollection(s.gos[g].main))
  }

  /** The only steps that change the goroutine of launch `g`, its beginning and its end apart. */
  lemma OthersLeaveGo(s: State, a: Action, g: nat)
    requires Enabled(s, a) && g in s.gos && !a.Crash? && !(a.Spawn? && s.pc.launch == g)
    requires !(IsCollectorAction(a, g) || IsMainAction(a, g))
    ensures g in Do(s, a).gos && Do(s, a).gos[g] == s.gos[g]
  {
  }

  predicate IsMainAction(a: Action, g: nat) {
    (a.CommandExits? || a.Signal? || a.Meet? || a.Sample? || a.LoadEntry? || a.StoreResult? || a.SendEvent?) && a.g == g
  }

  lemma MainStaysPast(s: State, a: Action, g: nat)
    requires Enabled(s, a) && g in s.gos && PastCollection(s.gos[g].main) && IsMainAction(a, g)
    ensures g in Do(s, a).gos && PastCollection(Do(s, a).gos[g].main)
  {
  }

  lemma CollectorIsGone(s: State, a: Action, g: nat)
    requires Enabled(s, a) && g in s.gos && PastCollection(s.gos[g].main) && ShakeOk(s.gos[g])
    ensures !IsCollectorAction(a, g)
  {
  }

  lemma NewGo(s: State, a: Action, g: nat)
    requires Enabled(s, a) && g !in s.gos && !(a.Spawn? && s.pc.launch == g)
    ensures g !in Do(s, a).gos && !IsCollectorAction(a, g)
  {
  }

  lemma RunsGrow(s: State, a: Action)
    requires Enabled(s, a)
    ensures |s.log.runs| <= |Do(s, a).log.runs|
  {
  }

  lemma CollectorStepOver(s: State, a: Action, g: nat)
    requires Enabled(s, a) && CollectorOver(s, g) && (g in s.gos ==> ShakeOk(s.gos[g]))
    requires s.pc.Spawning? ==> s.pc.launch == |s.log.runs|
    ensures !IsCollectorAction(a, g) && CollectorOver(Do(s, a), g)
  {
    RunsGrow(s, a);
    if g in s.gos {
      CollectorIsGone(s, a, g);
      if IsMainAction(a, g) {
        MainStaysPast(s, a, g);
      } else if !a.Crash? {
        OthersLeaveGo(s, a, g);
      }
    } else {
      NewGo(s, a, g);
    }
  }

  lemma {:induction false} CollectorStaysOver(s: State, acts: seq<Action>, t: State, g: nat)
    requires Inv(s) && Steps(s, acts, t) && CollectorOver(s, g)
    ensures forall i :: 0 <= i < |acts| ==> !IsCollectorAction(acts[i], g)
    decreases |acts|
  {
    if acts != [] {
      StepKeeps(s, acts[0]);
      if g in s.gos { assert GoOk(s.log, s.entry, g, s.gos[g]); }
      CollectorStepOver(s, acts[0], g);
      CollectorStaysOver(Do(s, acts[0]), acts[1..], t, g);
      forall i | 0 <= i < |acts|
        ensures !IsCollectorAction(acts[i], g)
      {
        if i > 0 { assert acts[i] == acts[1..][i - 1]; }
      }
    }
  }

  /** Once the final status can be computed the collector never acts again. */
  lemma CollectorReturnsFirst(s: State, acts: seq<Action>, t: State, g: nat)
    requires Reachable(s) && g in s.gos && PastCollection(s.gos[g].main) && Steps(s, acts, t)
    ensures forall i :: 0 <= i < |acts| ==> !IsCollectorAction(acts[i], g)
  {
    ReachableInv(s);
    assert GoOk(s.log, s.entry, g, s.gos[g]);
    CollectorStaysOver(s, acts, t, g);
  }

  /** An action of launch `g` itself that brings it nearer to its end. */
  function Advance(go: Go, g: nat): Action
    requires !go.main.Sent?
  {
    match go.main
    case Executing => CommandExits(g, true)
    case Exited(_) => Signal(g)
    case Signalled(_) =>
      (match go.collector
       case Reading(_) => SkipReport(g)
       case Reporting(_) => ReportAnswered(g)
       case Handing => Meet(g)
       case _ => TakeDone(g))
    case Collected(_) => Sample(g, 0, 0)
    case Computed(_) => LoadEntry(g)
    case Loaded(_, _) => StoreResult(g)
    case Stored => SendEvent(g)
  }

  function StepsToGo(go: Go): nat {
    match go.main
    case Executing => 12
    case Exited(_) => 11
    case Signalled(_) =>
      (match go.collector
       case Reading(false) => 9
       case Reporting(false) => 9
       case Reading(true) => 7
       case Reporting(true) => 7
       case Handing => 6
       case _ => 8)
    case Collected(_) => 4
    case Computed(_) => 3
    case Loaded(_, _) => 2
    case Stored => 1
    case Sent => 0
  }

  lemma ShakeAdvances(s: State, g: nat)
    requires g in s.gos && !s.gos[g].main.Sent? && ShakeOk(s.gos[g]) && g < |s.log.runs|
    ensures Enabled(s, Advance(s.gos[g], g))
    ensures g in Do(s, Advance(s.gos[g], g)).gos
    ensures StepsToGo(Do(s, Advance(s.gos[g], g)).gos[g]) < StepsToGo(s.gos[g]) <= 12
  {
  }

  /** No deadlock: whatever the collector is doing, the two goroutines of a launch can
      always move on by themselves, and need at most twelve more moves to be done. */
  lemma HandshakeNeverBlocks(s: State, g: nat)
    requires Reachable(s) && g in s.gos && !s.gos[g].main.Sent?
    ensures Enabled(s, Advance(s.gos[g], g))
    ensures g in Do(s, Advance(s.gos[g], g)).gos
    ensures StepsToGo(Do(s, Advance(s.gos[g], g)).gos[g]) < StepsToGo(s.gos[g]) <= 12
  {
    ReachableInv(s);
    assert GoOk(s.log, s.entry, g, s.gos[g]);
    ShakeAdvances(s, g);
  }

  predicate HasResult(s: State, g: nat) {
    s.entry.Some? && s.entry.value.launch == g && s.entry.value.result.Some?
  }

  /** A launch is at work until its result is stored. */
  lemma AdvanceWorks(s: State, g: nat)
    requires g in s.gos && Working(s.gos[g]) && !s.gos[g].main.Loaded? && Enabled(s, Advance(s.gos[g], g))
    ensures Active(Do(s, Advance(s.gos[g], g)), g)
  {
  }

  lemma AdvanceStores(s: State, g: nat)
    requires Inv(s) && g in s.gos && s.gos[g].main.Loaded?
    ensures Advance(s.gos[g], g) == StoreResult(g)
    ensures var t := Do(s, StoreResult(g)); g in t.gos && t.gos[g].main.Stored? && HasResult(t, g)
  {
    assert GoOk(s.log, s.entry, g, s.gos[g]) && WorkOk(s.api, s.log, s.entry, g, s.gos[g]);
  }

  lemma AdvanceSends(s: State, g: nat)
    requires g in s.gos && s.gos[g].main.Stored?
    ensures Advance(s.gos[g], g) == SendEvent(g)
    ensures var t := Do(s, SendEvent(g)); g in t.gos && t.gos[g].main.Sent? && t.queued && t.entry == s.entry
  {
  }

  lemma AdvanceIsOwn(go: Go, g: nat)
    requires !go.main.Sent?
    ensures IsCollectorAction(Advance(go, g), g) || IsMainAction(Advance(go, g), g)
  {
  }

  lemma OwnMove(s: State, g: nat) returns (a: Action, u: State)
    requires Reachable(s) && g in s.gos && !s.gos[g].main.Sent?
    ensures Enabled(s, a) && u == Do(s, a) && Reachable(u) && (IsCollectorAction(a, g) || IsMainAction(a, g))
    ensures g in u.gos && StepsToGo(u.gos[g]) < StepsToGo(s.gos[g]) <= 12 && (u.gos[g].main.Sent? ==> u.queued)
    ensures Active(s, g) && !Active(u, g) ==> HasResult(u, g)
    ensures !Active(s, g) ==> !Active(u, g) && u.entry == s.entry
  {
    HandshakeNeverBlocks(s, g);
    a := Advance(s.gos[g], g);
    u := Do(s, a);
    ReachableStep(s, a);
    AdvanceIsOwn(s.gos[g], g);
    if s.gos[g].main.Loaded? {
      ReachableInv(s);
      AdvanceStores(s, g);
    } else if s.gos[g].main.Stored? {
      AdvanceSends(s, g);
    } else {
      AdvanceWorks(s, g);
    }
  }

  /** So from every reachable state there is a run of at most twelve steps, all of that launch, after
      which its event has been sent; a launch that was working has then left its result in the map. */
  lemma {:induction false} HandshakeFinishes(s: State, g: nat) returns (acts: seq<Action>, t: State)
    requires Reachable(s) && g in s.gos
    ensures Steps(s, acts, t) && |acts| <= StepsToGo(s.gos[g]) <= 12
    ensures forall i :: 0 <= i < |acts| ==> IsCollectorAction(acts[i], g) || IsMainAction(acts[i], g)
    ensures g in t.gos && t.gos[g].main.Sent? && (acts != [] ==> t.queued)
    ensures Active(s, g) ==> HasResult(t, g)
    ensures !Active(s, g) ==> t.entry == s.entry
    decreases StepsToGo(s.gos[g])
  {
    if s.gos[g].main.Sent? {
      return [], s;
    }
    var a, u := OwnMove(s, g);
    var rest;
    rest, t := HandshakeFinishes(u, g);
    acts := [a] + rest;
    assert acts[1..] == rest;
  }

  lemma {:induction false} ReachableRun(s: State, acts: seq<Action>, t: State)
    requires Reachable(s) && Steps(s, acts, t)
    ensures Reachable(t)
  {
    var r, before :| Init(r) && Steps(r, before, s);
    StepsChain(r, before, s, acts, t);
  }

  /** The result that a working launch leaves in the map is final, has both times, and its reason is
      how the command was sampled. */
  lemma ResultIsStored(s: State, g: nat) returns (acts: seq<Action>, t: State)
    requires Reachable(s) && Active(s, g)
    ensures Steps(s, acts, t) && |acts| <= 12 && t.queued
    ensures HasResult(t, g) && g < |t.log.runs| && t.log.runs[g].Sampled?
    ensures var r, out := t.entry.value.result.value, t.log.runs[g];
      && r.state.Finished? && r.started && r.ended
      && (r.reason.Cancelled? <==> out.cancelled)
      && (r.reason.Success? <==> out.exitOk && !out.cancelled)
      && (r.reason.Failed? <==> !out.exitOk && !out.cancelled)
  {
    ReachableInv(s);
    assert WorkOk(s.api, s.log, s.entry, g, s.gos[g]);
    acts, t := HandshakeFinishes(s, g);
    OwnActionsKeepRuns(s, acts, t, g);
    ReachableRun(s, acts, t);
    ReachableInv(t);
  }

  lemma {:induction false} OwnActionsKeepRuns(s: State, acts: seq<Action>, t: State, g: nat)
    requires Steps(s, acts, t) && forall i :: 0 <= i < |acts| ==> IsCollectorAction(acts[i], g) || IsMainAction(acts[i], g)
    ensures |t.log.runs| == |s.log.runs| && t.log.mark == s.log.mark
    decreases |acts|
  {
    if acts != [] {
      assert IsCollectorAction(acts[0], g) || IsMainAction(acts[0], g);
      assert forall i :: 0 <= i < |acts| - 1 ==> acts[1..][i] == acts[i + 1];
      OwnActionsKeepRuns(Do(s, acts[0]), acts[1..], t, g);
    }
  }

  // ---------------------------------------------------------------- stale reads do reach the start

  lemma ReachableStep(t: State, a: Action)
    requires Reachable(t) && Enabled(t, a)
    ensures Reachable(Do(t, a))
  {
    var s, acts :| Init(s) && Steps(s, acts, t);
    assert [a][1..] == [] && Steps(Do(t, a), [a][1..], Do(t, a));
    StepsChain(s, acts, t, [a], Do(t, a));
  }

  const Fresh: DM := DM(false, true, false, false, Blank)

  /** A fresh object that has just been read. */
  lemma FirstFetch() returns (s: State)
    ensures Reachable(s)
    ensures s == State(Api([None, Some(Fresh)], 1), Net({}, map[], 0), Log([], 0),
                       1, false, Fetched(1, Fresh), None, map[], {})
  {
    var s0 := State(Api([None], 0), Net({}, map[], 0), Log([], 0), 0, false, Idle, None, map[], {});
    assert Steps(s0, [], s0);
    var s1 := Do(s0, Create(Fresh)); ReachableStep(s0, Create(Fresh));
    var s2 := Do(s1, Wake); ReachableStep(s1, Wake);
    s := Do(s2, Fetch(1)); ReachableStep(s2, Fetch(1));
  }

  /** A fresh object about to have its start recorded. */
  lemma FirstStart() returns (s: State)
    ensures Reachable(s)
    ensures s == State(Api([None, Some(Fresh)], 1), Net({Write(0, 1, SetStatus(Started(Blank, 7)))}, map[], 1), Log([], 0),
                       1, false, AwaitStart(1, Fresh.(status := Started(Blank, 7)), 0), None, map[], {})
  {
    var s3 := FirstFetch();
    var s4 := Do(s3, Handle); ReachableStep(s3, Handle);
    var s5 := Do(s4, Handle); ReachableStep(s4, Handle);
    s := Do(s5, PrepareDone(7)); ReachableStep(s5, PrepareDone(7));
  }

  /** The start of a fresh object has been recorded. */
  lemma FirstRecorded() returns (s: State)
    ensures Reachable(s) && s.pc == Launching(2, Fresh.(status := Started(Blank, 7))) && s.cache == 1
    ensures s.log == Log([], 0) && s.gos == map[]
    ensures |s.api.hist| == 3 && s.api.hist[1] == Some(Fresh)
  {
    var s6 := FirstStart();
    var w := Write(0, 1, SetStatus(Started(Blank, 7)));
    var s7 := Do(s6, Land(w, true)); ReachableStep(s6, Land(w, true));
    s := Do(s7, Acknowledge); ReachableStep(s7, Acknowledge);
  }

  /** Its command runs. */
  lemma FirstLaunch() returns (s: State)
    ensures Reachable(s) && Active(s, 0) && s.pc.Idle? && s.cache == 1 && s.entry == Some(Entry(0, None))
    ensures |s.api.hist| == 3 && s.api.hist[1] == Some(Fresh)
  {
    var s8 := FirstRecorded();
    var s9 := Do(s8, Handle); ReachableStep(s8, Handle);
    s := Do(s9, Spawn(true)); ReachableStep(s9, Spawn(true));
  }

  /** A second reconcile reads the version before the start. */
  lemma StaleFetch() returns (s: State)
    ensures Reachable(s) && Active(s, 0) && s.pc == Fetched(1, Fresh) && s.entry == Some(Entry(0, None)) && |s.api.hist| == 3
  {
    var s0 := FirstLaunch();
    var s1 := Do(s0, Wake); ReachableStep(s0, Wake);
    s := Do(s1, Fetch(1)); ReachableStep(s1, Fetch(1));
  }

  lemma StaleDecision() returns (s: State)
    ensures Reachable(s) && Active(s, 0) && s.pc == Preparing(1, Fresh) && |s.api.hist| == 3
  {
    var s2 := StaleFetch();
    var s3 := Do(s2, Handle); ReachableStep(s2, Handle);
    s := Do(s3, Handle); ReachableStep(s3, Handle);
  }

  /** The hazard is real: a stale read walks all the way to recording a second start while
      the first command is still running.  Only the version check stops it. */
  lemma StaleReadReachesStart()
    ensures exists s :: Reachable(s) && Active(s, 0) && s.pc.AwaitStart? && s.pc.v < Version(s.api)
  {
    var s4 := StaleDecision();
    var s5 := Do(s4, PrepareDone(8)); ReachableStep(s4, PrepareDone(8));
    assert Active(s5, 0) && s5.pc.AwaitStart?;
  }
}

/** Every action keeps the reconciler's invariant. */
module ReconcilerSteps {
  import opened Wrappers
  import opened Reconciler
  import opened ReconcilerInvariant

  lemma InitKeeps(s: State)
    requires Init(s)
    ensures Inv(s)
  {
  }

  /** A request to stop stays on record when the history grows. */
  lemma RequestStays(a: Api, b: Api)
    requires Requested(a) && a.birth == b.birth && |a.hist| <= |b.hist| && a.hist == b.hist[..|a.hist|]
    ensures Requested(b)
  {
    var v :| a.birth <= v < |a.hist| && AsksToStop(a.hist[v]);
    assert b.hist[v] == a.hist[v];
  }

  lemma CreateKeeps(s: State, a: Action)
    requires Inv(s) && a.Create? && Enabled(s, a)
    ensures Inv(Do(s, a))
  {
  }

  lemma WakeKeeps(s: State, a: Action)
    requires Inv(s) && a.Wake? && Enabled(s, a)
    ensures Inv(Do(s, a))
  {
  }

  lemma CrashKeeps(s: State, a: Action)
    requires Inv(s) && a.Crash? && Enabled(s, a)
    ensures Inv(Do(s, a))
  {
  }

  lemma FetchKeeps(s: State, a: Action)
    requires Inv(s) && a.Fetch? && Enabled(s, a)
    ensures Inv(Do(s, a))
  {
  }

  lemma HandleDropForDeleteKeeps(s: State, a: Action)
    requires Inv(s) && a.Handle? && s.pc.DropForDelete? && Enabled(s, a)
    ensures Inv(Do(s, a))
  {
  }

  lemma HandleDropWrittenKeeps(s: State, a: Action)
    requires Inv(s) && a.Handle? && s.pc.DropWritten? && Enabled(s, a)
    ensures Inv(Do(s, a))
  {
  }

  lemma HandleLaunchingKeeps(s: State, a: Action)
    requires Inv(s) && a.Handle? && s.pc.Launching? && Enabled(s, a)
    ensures Inv(Do(s, a))
  {
  }

  lemma AnswerFinalizerAddedKeeps(s: State, a: Action)
    requires Inv(s) && (a.Acknowledge? || a.Refuse?) && s.pc.AwaitFinalizerAdded? && Enabled(s, a)
    ensures Inv(Do(s, a))
  {
  }

  lemma AnswerEarlyCancelKeeps(s: State, a: Action)
    requires Inv(s) && (a.Acknowledge? || a.Refuse?) && s.pc.AwaitEarlyCancel? && Enabled(s, a)
    ensures Inv(Do(s, a))
  {
  }

  lemma AnswerFinalizerRemovedKeeps(s: State, a: Action)
    requires Inv(s) && (a.Acknowledge? || a.Refuse?) && s.pc.AwaitFinalizerRemoved? && Enabled(s, a)
    ensures Inv(Do(s, a))
  {
  }

  lemma AnswerResultKeeps(s: State, a: Action)
    requires Inv(s) && (a.Acknowledge? || a.Refuse?) && s.pc.AwaitResult? && Enabled(s, a)
    ensures Inv(Do(s, a))
  {
  }

  lemma AnswerStartKeeps(s: State, a: Action)
    requires Inv(s) && (a.Acknowledge? || a.Refuse?) && s.pc.AwaitStart? && Enabled(s, a)
    ensures Inv(Do(s, a))
  {
  }

  lemma AnswerDeferredKeeps(s: State, a: Action)
    requires Inv(s) && (a.Acknowledge? || a.Refuse?) && s.pc.AwaitDeferred? && Enabled(s, a)
    ensures Inv(Do(s, a))
  {
  }

  lemma PrepareFailsKeeps(s: State, a: Action)
    requires Inv(s) && a.PrepareFails? && Enabled(s, a)
    ensures Inv(Do(s, a))
  {
  }

  lemma StartInv(s: State, st: Status, command: int)
    requires Inv(s) && s.pc.Preparing? && st == Started(s.pc.dm.status, command)
    ensures Inv(Ask(s, s.pc.v, SetStatus(st), AwaitStart(s.pc.v, s.pc.dm.(status := st), s.net.nextId)))
  {
  }

  lemma PrepareDoneKeeps(s: State, a: Action)
    requires Inv(s) && a.PrepareDone? && Enabled(s, a)
    ensures Inv(Do(s, a))
  {
    StartInv(s, Started(s.pc.dm.status, a.command), a.command);
  }

  lemma DeferInv(s: State, st: Status, message: int)
    requires Inv(s) && s.pc.Failing? && st == s.pc.dm.status.(message := message)
    ensures Inv(Ask(s, s.pc.v, SetStatus(st), AwaitDeferred(s.pc.v, s.pc.dm.(status := st), s.net.nextId)))
  {
  }

  lemma DeferKeeps(s: State, a: Action)
    requires Inv(s) && a.Defer? && Enabled(s, a)
    ensures Inv(Do(s, a))
  {
    DeferInv(s, s.pc.dm.status.(message := a.message), a.message);
  }

  lemma SpawnInv(s: State, go: Go)
    requires Inv(s) && s.pc.Spawning? && go.main.Executing? && !go.done && go.start == s.pc.dm.status
    requires go.collector.Waiting? || go.collector.Off?
    ensures Inv(WithGo(s, s.pc.launch, go).(log := s.log.(runs := s.log.runs + [Pending]), pc := Idle))
  {
  }

  lemma SpawnKeeps(s: State, a: Action)
    requires Inv(s) && a.Spawn? && Enabled(s, a)
    ensures Inv(Do(s, a))
  {
    SpawnInv(s, Do(s, a).gos[s.pc.launch]);
  }

  lemma CommandExitsKeeps(s: State, a: Action)
    requires Inv(s) && a.CommandExits? && Enabled(s, a)
    ensures Inv(Do(s, a))
  {
  }

  lemma SignalKeeps(s: State, a: Action)
    requires Inv(s) && a.Signal? && Enabled(s, a)
    ensures Inv(Do(s, a))
  {
  }

  lemma MeetKeeps(s: State, a: Action)
    requires Inv(s) && a.Meet? && Enabled(s, a)
    ensures Inv(Do(s, a))
  {
  }

  lemma LoadEntryKeeps(s: State, a: Action)
    requires Inv(s) && a.LoadEntry? && Enabled(s, a)
    ensures Inv(Do(s, a))
  {
  }

  lemma StoreInv(s: State, g: nat, entry: Option<Entry>)
    requires Inv(s) && g in s.gos && s.gos[g].main.Loaded?
    requires entry == if s.gos[g].main.found.Some? then Some(s.gos[g].main.found.value.(result := Some(s.gos[g].main.result))) else s.entry
    ensures Inv(WithGo(s, g, s.gos[g].(main := Stored)).(entry := entry))
  {
  }

  lemma StoreResultKeeps(s: State, a: Action)
    requires Inv(s) && a.StoreResult? && Enabled(s, a)
    ensures Inv(Do(s, a))
  {
    StoreInv(s, a.g, Do(s, a).entry);
  }

  lemma SendInv(s: State, g: nat)
    requires Inv(s) && g in s.gos && s.gos[g].main.Stored?
    ensures Inv(WithGo(s, g, s.gos[g].(main := Sent)).(queued := true))
  {
  }

  lemma SendEventKeeps(s: State, a: Action)
    requires Inv(s) && a.SendEvent? && Enabled(s, a)
    ensures Inv(Do(s, a))
  {
    SendInv(s, a.g);
  }

  lemma TickKeeps(s: State, a: Action)
    requires Inv(s) && a.Tick? && Enabled(s, a)
    ensures Inv(Do(s, a))
  {
  }

  lemma TakeDoneKeeps(s: State, a: Action)
    requires Inv(s) && a.TakeDone? && Enabled(s, a)
    ensures Inv(Do(s, a))
  {
  }

  lemma SkipReportKeeps(s: State, a: Action)
    requires Inv(s) && a.SkipReport? && Enabled(s, a)
    ensures Inv(Do(s, a))
  {
  }

  lemma ReportAnsweredKeeps(s: State, a: Action)
    requires Inv(s) && a.ReportAnswered? && Enabled(s, a)
    ensures Inv(Do(s, a))
  {
  }

  // ---------------------------------------------------------------- a new version appears

  /** No write that was already sent can land on a version that has just appeared. */
  lemma PushSent(api: Api, o: Option<DM>, entry: Option<Entry>, log: Log, sent: set<Write>)
    requires SentOk(api, entry, log, sent)
    ensures SentOk(Push(api, o), entry, log, sent)
  {
  }

  lemma PushPc(api: Api, o: Option<DM>, net: Net, pc: Pc)
    requires PcOk(api, net, pc)
    ensures PcOk(Push(api, o), net, pc)
  {
  }

  lemma PushPcEntry(api: Api, o: Option<DM>, net: Net, log: Log, cache: nat, pc: Pc, entry: Option<Entry>)
    requires PcOk(api, net, pc) && PcEntryOk(api, net, log, cache, pc, entry)
    ensures PcEntryOk(Push(api, o), net, log, cache, pc, entry)
  {
  }

  lemma PushRequest(api: Api, o: Option<DM>, log: Log, cancelled: set<nat>)
    requires RequestOk(api, log, cancelled)
    ensures RequestOk(Push(api, o), log, cancelled)
  {
    if Requested(api) { RequestStays(api, Push(api, o)); }
  }

  /** What the API server and the users may do to the object without a write of the process. */
  predicate Edited(dm: DM, o: Option<DM>) {
    if o.None? then !dm.dmFin
    else o.value.dmFin == dm.dmFin && o.value.status == dm.status && (dm.deleting ==> o.value.deleting)
  }

  lemma EditApi(api: Api, o: Option<DM>, log: Log)
    requires HistOk(api) && ApiOk(api, log) && Cur(api).Some? && Edited(Cur(api).value, o)
    ensures HistOk(Push(api, o)) && ApiOk(Push(api, o), log)
  {
    if Requested(api) { RequestStays(api, Push(api, o)); }
  }

  lemma EditTracked(s: State, o: Option<DM>)
    requires Inv(s) && Cur(s.api).Some? && Edited(Cur(s.api).value, o)
    ensures EntryOk(Push(s.api, o), s.log, s.entry, s.gos)
    ensures WorksOk(Push(s.api, o), s.log, s.entry, s.gos)
    ensures PendingOk(Push(s.api, o), s.net, s.log, s.cache, s.pc, s.entry)
  {
  }

  lemma EditKeeps(s: State, a: Action)
    requires Inv(s) && (a.EditSpec? || a.RequestDelete?) && Enabled(s, a)
    ensures Inv(Do(s, a))
  {
    var dm := Cur(s.api).value;
    var o := if a.EditSpec? then Settle(dm.(cancel := a.cancel, otherFin := a.otherFin)) else Settle(dm.(deleting := true));
    PushSent(s.api, o, s.entry, s.log, s.net.sent);
    PushPc(s.api, o, s.net, s.pc);
    PushPcEntry(s.api, o, s.net, s.log, s.cache, s.pc, s.entry);
    PushRequest(s.api, o, s.log, s.cancelled);
    EditApi(s.api, o, s.log);
    EditTracked(s, o);
  }

  // ---------------------------------------------------------------- a write lands

  function LandedNet(net: Net, w: Write, at: nat): Net {
    net.(sent := net.sent - {w}, landed := net.landed[w.id := at])
  }

  lemma LandNet(s: State, w: Write, o: Option<DM>)
    requires Inv(s) && w in s.net.sent
    ensures NetOk(Push(s.api, o), LandedNet(s.net, w, |s.api.hist|))
    ensures SentOk(Push(s.api, o), s.entry, s.log, s.net.sent - {w})
  {
    PushSent(s.api, o, s.entry, s.log, s.net.sent);
  }

  lemma LandPc(s: State, w: Write)
    requires Inv(s) && Enabled(s, Land(w, true))
    ensures PcOk(Push(s.api, Effect(Cur(s.api).value, w.change)), LandedNet(s.net, w, |s.api.hist|), s.pc)
  {
  }

  lemma LandPcEntry(s: State, w: Write)
    requires Inv(s) && Enabled(s, Land(w, true))
    ensures PcEntryOk(Push(s.api, Effect(Cur(s.api).value, w.change)), LandedNet(s.net, w, |s.api.hist|), s.log, s.cache, s.pc, s.entry)
  {
    var api, net := Push(s.api, Effect(Cur(s.api).value, w.change)), LandedNet(s.net, w, |s.api.hist|);
    PushPcEntry(s.api, Effect(Cur(s.api).value, w.change), s.net, s.log, s.cache, s.pc, s.entry);
    if s.pc.AwaitFinalizerAdded? && s.entry.Some? {
      assert w.id != s.pc.id;
    }
  }

  lemma LandApi(s: State, w: Write)
    requires Inv(s) && Enabled(s, Land(w, true))
    ensures HistOk(Push(s.api, Effect(Cur(s.api).value, w.change)))
    ensures ApiOk(Push(s.api, Effect(Cur(s.api).value, w.change)), s.log)
  {
    var api := Push(s.api, Effect(Cur(s.api).value, w.change));
    if Requested(s.api) { RequestStays(s.api, api); }
    if Cur(s.api).value.deleting { assert AsksToStop(s.api.hist[|s.api.hist| - 1]); }
    assert WriteOk(s.api, s.entry, s.log, w);
    if LastMatches(s.log, Cancelled) { assert s.log.runs[|s.log.runs| - 1].cancelled; }
  }

  lemma LandTracked(s: State, w: Write)
    requires Inv(s) && Enabled(s, Land(w, true))
    ensures EntryOk(Push(s.api, Effect(Cur(s.api).value, w.change)), s.log, s.entry, s.gos)
    ensures WorksOk(Push(s.api, Effect(Cur(s.api).value, w.change)), s.log, s.entry, s.gos)
  {
    assert WriteOk(s.api, s.entry, s.log, w);
  }

  lemma LandPending(s: State, w: Write)
    requires Inv(s) && Enabled(s, Land(w, true))
    ensures PendingOk(Push(s.api, Effect(Cur(s.api).value, w.change)), LandedNet(s.net, w, |s.api.hist|), s.log, s.cache, s.pc, s.entry)
    ensures QuietOk(s.pc, LandedNet(s.net, w, |s.api.hist|), s.gos)
  {
    assert WriteOk(s.api, s.entry, s.log, w);
  }

  lemma LandKeeps(s: State, a: Action)
    requires Inv(s) && a.Land? && a.bumps && Enabled(s, a)
    ensures Inv(Do(s, a))
  {
    var o := Effect(Cur(s.api).value, a.w.change);
    LandNet(s, a.w, o);
    LandPc(s, a.w);
    LandPcEntry(s, a.w);
    LandApi(s, a.w);
    LandTracked(s, a.w);
    LandPending(s, a.w);
    PushRequest(s.api, o, s.log, s.cancelled);
  }

  /** A write that changes nothing may be accepted without a new version; a start never is one. */
  lemma LandStillKeeps(s: State, a: Action)
    requires Inv(s) && a.Land? && !a.bumps && Enabled(s, a)
    ensures Inv(Do(s, a))
  {
    var t := Do(s, a);
    assert PcOk(t.api, t.net, t.pc);
    assert LaunchPending(t.pc, t.net) ==> LaunchPending(s.pc, s.net);
  }

  lemma FetchedDeletingKeeps(s: State, a: Action)
    requires Inv(s) && a.Handle? && s.pc.Fetched? && s.pc.dm.deleting && !s.pc.dm.status.started && Enabled(s, a)
    ensures Inv(Do(s, a))
  {
  }

  lemma FetchedCancelKeeps(s: State, a: Action)
    requires Inv(s) && a.Handle? && s.pc.Fetched? && s.pc.dm.deleting && s.pc.dm.status.started && Enabled(s, a)
    ensures Inv(Do(s, a))
  {
  }

  lemma FetchedBareKeeps(s: State, a: Action)
    requires Inv(s) && a.Handle? && s.pc.Fetched? && !s.pc.dm.deleting && !s.pc.dm.dmFin && Enabled(s, a)
    ensures Inv(Do(s, a))
  {
  }

  lemma FetchedResultKeeps(s: State, a: Action)
    requires Inv(s) && a.Handle? && s.pc.Fetched? && !s.pc.dm.deleting && s.pc.dm.dmFin && s.entry.Some? && s.entry.value.result.Some? && Enabled(s, a)
    ensures Inv(Do(s, a))
  {
  }

  lemma FetchedPlainKeeps(s: State, a: Action)
    requires Inv(s) && a.Handle? && s.pc.Fetched? && !s.pc.dm.deleting && s.pc.dm.dmFin && !(s.entry.Some? && s.entry.value.result.Some?) && Enabled(s, a)
    ensures Inv(Do(s, a))
  {
  }

  lemma CancelInv(s: State)
    requires Inv(s) && s.pc.Deciding? && s.pc.dm.cancel
    ensures Inv(s.(cancelled := CancelTracked(s), pc := Idle))
  {
  }

  lemma DecidingCancelKeeps(s: State, a: Action)
    requires Inv(s) && a.Handle? && s.pc.Deciding? && s.pc.dm.cancel && !s.pc.dm.status.state.Finished? && Enabled(s, a)
    ensures Inv(Do(s, a))
  {
    CancelInv(s);
    assert Do(s, a) == s.(cancelled := CancelTracked(s), pc := Idle);
  }

  lemma DecidingStopKeeps(s: State, a: Action)
    requires Inv(s) && a.Handle? && s.pc.Deciding? && (s.pc.dm.status.state.Finished? || (!s.pc.dm.cancel && s.pc.dm.status.state.Running? && s.entry.Some?)) && Enabled(s, a)
    ensures Inv(Do(s, a))
  {
  }

  lemma DecidingGoKeeps(s: State, a: Action)
    requires Inv(s) && a.Handle? && s.pc.Deciding? && !s.pc.dm.cancel && !s.pc.dm.status.state.Finished? && !(s.pc.dm.status.state.Running? && s.entry.Some?) && Enabled(s, a)
    ensures Inv(Do(s, a))
  {
    assert PcEntryOk(s.api, s.net, s.log, s.cache, Do(s, a).pc, s.entry);
  }

  lemma CheckStoppedTrackedKeeps(s: State, a: Action)
    requires Inv(s) && a.Handle? && s.pc.CheckStopped? && s.entry.Some? && Enabled(s, a)
    ensures Inv(Do(s, a))
  {
  }

  lemma CheckStoppedFreeKeeps(s: State, a: Action)
    requires Inv(s) && a.Handle? && s.pc.CheckStopped? && s.entry.None? && Enabled(s, a)
    ensures Inv(Do(s, a))
  {
  }

  // ---------------------------------------------------------------- a write is sent

  lemma IssueSent(api: Api, net: Net, entry: Option<Entry>, log: Log, v: nat, change: Change)
    requires NetOk(api, net) && SentOk(api, entry, log, net.sent)
    requires WriteOk(api, entry, log, Write(net.nextId, v, change))
    ensures NetOk(api, Issue(net, v, change)) && SentOk(api, entry, log, Issue(net, v, change).sent)
  {
  }

  /** Somebody else's write does not disturb a reconcile that is not about to launch. */
  lemma IssuePc(api: Api, net: Net, pc: Pc, v: nat, change: Change)
    requires NetOk(api, net) && PcOk(api, net, pc)
    ensures PcOk(api, Issue(net, v, change), pc)
  {
  }

  lemma ReleaseKeeps(s: State, a: Action)
    requires Inv(s) && a.Handle? && s.pc.ReleaseFinalizer? && Enabled(s, a)
    ensures Inv(Do(s, a))
  {
    if s.pc.dm.dmFin {
      IssueSent(s.api, s.net, s.entry, s.log, s.pc.v, RemoveFinalizer);
    }
  }

  // ---------------------------------------------------------------- a goroutine moves

  lemma UpdateGo(log: Log, entry: Option<Entry>, gos: map<nat, Go>, g: nat, go: Go)
    requires GosOk(log, entry, gos) && GoOk(log, entry, g, go)
    ensures GosOk(log, entry, gos[g := go])
  {
  }

  /** The write that reports progress. */
  lemma ReportSent(s: State, v: nat, change: Change, command: int)
    requires Inv(s) && Readable(s, v) && s.api.hist[v].Some?
    requires change == SetStatus(s.api.hist[v].value.status.(command := command))
    ensures NetOk(s.api, Issue(s.net, v, change)) && SentOk(s.api, s.entry, s.log, Issue(s.net, v, change).sent)
    ensures PcOk(s.api, Issue(s.net, v, change), s.pc)
  {
    IssueSent(s.api, s.net, s.entry, s.log, v, change);
    IssuePc(s.api, s.net, s.pc, v, change);
  }

  lemma ReportInv(s: State, g: nat, v: nat, change: Change, command: int)
    requires Inv(s) && g in s.gos && s.gos[g].collector.Reading? && Readable(s, v) && s.api.hist[v].Some?
    requires change == SetStatus(s.api.hist[v].value.status.(command := command))
    ensures Inv(WithGo(s, g, s.gos[g].(collector := Reporting(s.gos[g].collector.final))).(net := Issue(s.net, v, change), cache := v))
  {
    ReportSent(s, v, change, command);
    assert Working(s.gos[g]);
    UpdateGo(s.log, s.entry, s.gos, g, s.gos[g].(collector := Reporting(s.gos[g].collector.final)));
  }

  lemma ReportKeeps(s: State, a: Action)
    requires Inv(s) && a.Report? && Enabled(s, a)
    ensures Inv(Do(s, a))
  {
    ReportInv(s, a.g, a.v, SetStatus(s.api.hist[a.v].value.status.(command := a.command)), a.command);
  }

  function SampledLog(s: State, g: nat): Log
    requires g in s.gos && s.gos[g].main.Collected? && g < |s.log.runs|
  {
    s.log.(runs := s.log.runs[g := Sampled(s.gos[g].main.ok, g in s.cancelled)])
  }

  lemma SampleLog(s: State, g: nat)
    requires Inv(s) && g in s.gos && s.gos[g].main.Collected? && g < |s.log.runs|
    ensures SentOk(s.api, s.entry, SampledLog(s, g), s.net.sent)
    ensures ApiOk(s.api, SampledLog(s, g)) && RequestOk(s.api, SampledLog(s, g), s.cancelled)
  {
    assert Working(s.gos[g]);
    var log := SampledLog(s, g);
    forall w | w in s.net.sent
      ensures WriteOk(s.api, s.entry, log, w)
    {
      assert WriteOk(s.api, s.entry, s.log, w);
    }
  }

  lemma SampleInv(s: State, g: nat, message: int, command: int)
    requires Inv(s) && g in s.gos && s.gos[g].main.Collected? && g < |s.log.runs|
    ensures var go := s.gos[g];
      Inv(WithGo(s, g, go.(main := Computed(Final(go.start, go.main.ok, g in s.cancelled, message, command))))
          .(log := SampledLog(s, g)))
  {
    assert Working(s.gos[g]);
    SampleLog(s, g);
  }

  lemma SampleKeeps(s: State, a: Action)
    requires Inv(s) && a.Sample? && Enabled(s, a)
    ensures Inv(Do(s, a))
  {
    SampleInv(s, a.g, a.message, a.command);
  }
}

/** What every step of the data-movement reconciler keeps. */
module ReconcilerInvariant {
  import opened Wrappers
  import opened Reconciler

  /** The command may still be running, or its result is not in the map yet. */
  predicate Working(go: Go) {
    !go.main.Stored? && !go.main.Sent?
  }

  predicate Active(s: State, g: nat) {
    g in s.gos && Working(s.gos[g])
  }

  /** The start has been recorded in the API by the reconcile that is about to launch. */
  predicate LaunchPending(pc: Pc, net: Net) {
    pc.Launching? || pc.Spawning? || (pc.AwaitStart? && pc.id in net.landed)
  }

  function LaunchVersion(pc: Pc, net: Net): int
    requires LaunchPending(pc, net)
  {
    if pc.AwaitStart? then net.landed[pc.id] else pc.v
  }

  predicate Matches(reason: Reason, out: Outcome) {
    out.Sampled? && reason == Verdict(out.exitOk, out.cancelled)
  }

  predicate LastMatches(log: Log, reason: Reason) {
    Launched(log) > 0 && Matches(reason, log.runs[|log.runs| - 1])
  }

  predicate AsksToStop(o: Option<DM>) {
    o.Some? && (o.value.cancel || o.value.deleting)
  }

  /** Some version of the current object asked for cancellation or deletion. */
  ghost predicate Requested(api: Api) {
    exists v :: api.birth <= v < |api.hist| && AsksToStop(api.hist[v])
  }

  // ---------------------------------------------------------------- writes that may still land

  predicate Touches(c: Status, st: Status) {
    st == c.(message := st.message, command := st.command)
  }

  predicate LegalEarlyCancel(entry: Option<Entry>, log: Log, dm: DM, st: Status) {
    dm.deleting && !dm.status.started && entry.None? && Launched(log) == 0 &&
    st.state.Finished? && st.reason.Cancelled? && st.started && st.ended
  }

  predicate LegalResult(entry: Option<Entry>, log: Log, dm: DM, st: Status) {
    LastMatches(log, st.reason) && st.state.Finished? && st.started && st.ended &&
    (dm.status.state.Running? || (dm.status.state.Finished? && dm.status.reason == st.reason)) &&
    Launched(log) <= st.restarts + 1 &&
    (entry.Some? ==> entry.value.result.Some?)
  }

  predicate LegalStart(entry: Option<Entry>, log: Log, dm: DM, st: Status) {
    !dm.status.state.Finished? && entry.None? && dm.dmFin && !dm.deleting &&
    st.state.Running? && st.started && st.reason.NoReason? && Launched(log) <= st.restarts &&
    (dm.status.state.Running? ==> st.restarts == dm.status.restarts + 1)
  }

  predicate LegalReject(entry: Option<Entry>, log: Log, dm: DM, st: Status) {
    !dm.status.state.Finished? && entry.None? &&
    st.state.Finished? && st.reason.Invalid? && Launched(log) <= st.restarts + 1 && st.started == dm.status.started
  }

  predicate LegalStatus(entry: Option<Entry>, log: Log, dm: DM, st: Status) {
    Touches(dm.status, st) || LegalEarlyCancel(entry, log, dm, st) || LegalResult(entry, log, dm, st) ||
    LegalStart(entry, log, dm, st) || LegalReject(entry, log, dm, st)
  }

  predicate Legal(entry: Option<Entry>, log: Log, dm: DM, change: Change) {
    match change
    case SetStatus(st) => LegalStatus(entry, log, dm, st)
    case AddFinalizer => !dm.deleting
    case RemoveFinalizer => dm.deleting && entry.None?
  }

  /** A write that could land right now is one the protocol accepts right now. */
  predicate WriteOk(api: Api, entry: Option<Entry>, log: Log, w: Write) {
    w.base < |api.hist| &&
    (w.base == Version(api) && Cur(api).Some? ==> Legal(entry, log, Cur(api).value, w.change))
  }

  ghost predicate SentOk(api: Api, entry: Option<Entry>, log: Log, sent: set<Write>) {
    forall w :: w in sent ==> WriteOk(api, entry, log, w)
  }

  ghost predicate NetOk(api: Api, net: Net) {
    && (forall w :: w in net.sent ==> w.id < net.nextId)
    && (forall id :: id in net.landed ==> id < net.nextId && net.landed[id] < |api.hist|)
  }

  // ---------------------------------------------------------------- API object

  ghost predicate Justified(api: Api, log: Log, reason: Reason) {
    match reason
    case NoReason => false
    case Success => LastMatches(log, reason)
    case Failed => LastMatches(log, reason)
    case Invalid => true
    case Cancelled => Requested(api) && (Launched(log) > 0 ==> LastMatches(log, reason))
  }

  ghost predicate ApiOk(api: Api, log: Log) {
    Cur(api).Some? ==>
      var st := Cur(api).value.status;
      && Launched(log) <= st.restarts + 1
      && (Launched(log) > 0 ==> st.started)
      && (st.state.Running? ==> st.started)
      && (st.started ==> !st.state.Unset?)
      && (!st.state.Finished? ==> st.reason.NoReason?)
      && (st.state.Finished? ==> Justified(api, log, st.reason))
      && (st.state.Finished? && !(st.started && st.ended) ==> st.reason.Invalid?)
  }

  ghost predicate HistOk(api: Api) {
    && api.birth < |api.hist|
    && (Cur(api).Some? ==> forall v :: api.birth <= v < |api.hist| ==>
          api.hist[v].Some? && (api.hist[v].value.deleting ==> Cur(api).value.deleting))
  }

  ghost predicate RequestOk(api: Api, log: Log, cancelled: set<nat>) {
    && log.mark <= |log.runs|
    && (forall g :: g in cancelled ==> g < |log.runs|)
    && (forall g :: log.mark <= g < |log.runs| && (g in cancelled || (log.runs[g].Sampled? && log.runs[g].cancelled)) ==> Requested(api))
  }

  // ---------------------------------------------------------------- map entry and goroutines

  predicate ResultOk(log: Log, r: Status) {
    LastMatches(log, r.reason) && r.state.Finished? && r.started && r.ended && Launched(log) <= r.restarts + 1
  }

  predicate EntryOk(api: Api, log: Log, entry: Option<Entry>, gos: map<nat, Go>) {
    entry.Some? ==>
      var e := entry.value;
      && Cur(api).Some? && Cur(api).value.dmFin && Cur(api).value.status.started
      && (e.result.Some? ==>
            && ResultOk(log, e.result.value)
            && e.launch in gos && !Working(gos[e.launch])
            && (Cur(api).value.status.state.Running? ||
                (Cur(api).value.status.state.Finished? && Cur(api).value.status.reason == e.result.value.reason)))
  }

  /** An entry without a result belongs to a working goroutine or one about to be spawned. */
  predicate TrackOk(pc: Pc, entry: Option<Entry>, gos: map<nat, Go>) {
    entry.Some? && entry.value.result.None? && !pc.Spawning? ==>
      entry.value.launch in gos && Working(gos[entry.value.launch])
  }

  /** While the name is tracked, reads see the object that was launched. */
  predicate FreshOk(api: Api, cache: nat, pc: Pc, entry: Option<Entry>) {
    && cache < |api.hist|
    && (entry.Some? ==> cache >= api.birth && (!pc.Idle? ==> pc.v >= api.birth))
  }

  /** The two goroutines of a launch agree on where they are in the hand-shake. */
  predicate ShakeOk(go: Go) {
    match go.main
    case Executing => !go.done && !go.collector.Gone? && !Closing(go.collector)
    case Exited(_) => !go.done && !go.collector.Gone? && !Closing(go.collector)
    case Signalled(_) => !go.collector.Off? && !go.collector.Gone? && (go.done <==> !Closing(go.collector))
    case _ => go.collector.Off? || go.collector.Gone?
  }

  /** The collector has taken the done signal. */
  predicate Closing(c: Collector) {
    match c
    case Reading(final) => final
    case Reporting(final) => final
    case Handing => true
    case _ => false
  }

  predicate WorkOk(api: Api, log: Log, entry: Option<Entry>, g: nat, go: Go) {
    Working(go) ==>
      && g == |log.runs| - 1 && g >= log.mark
      && entry == Some(Entry(g, None))
      && Cur(api).Some? && Cur(api).value.dmFin && Cur(api).value.status.state.Running?
      && go.start.started && Launched(log) <= go.start.restarts + 1
  }

  predicate GoOk(log: Log, entry: Option<Entry>, g: nat, go: Go) {
    && g < |log.runs|
    && ShakeOk(go)
    && (go.main.Computed? ==> ResultOk(log, go.main.result))
    && (go.main.Loaded? ==> ResultOk(log, go.main.result) && go.main.found == entry)
  }

  ghost predicate GosOk(log: Log, entry: Option<Entry>, gos: map<nat, Go>) {
    forall g :: g in gos ==> GoOk(log, entry, g, gos[g])
  }

  ghost predicate WorksOk(api: Api, log: Log, entry: Option<Entry>, gos: map<nat, Go>) {
    forall g :: g in gos ==> WorkOk(api, log, entry, g, gos[g])
  }

  ghost predicate QuietOk(pc: Pc, net: Net, gos: map<nat, Go>) {
    LaunchPending(pc, net) ==> forall g :: g in gos ==> !Working(gos[g])
  }

  // ---------------------------------------------------------------- reconcile

  ghost predicate Linked(net: Net, pc: Pc, change: Change)
    requires AwaitsAnswer(pc)
  {
    pc.id < net.nextId && forall w :: w in net.sent && w.id == pc.id ==> w.base == pc.v && w.change == change
  }

  /** A write that took effect left the reconcile's local copy as the stored version. */
  predicate LandedAs(api: Api, net: Net, pc: Pc)
    requires AwaitsAnswer(pc)
  {
    pc.id in net.landed ==>
      pc.v <= net.landed[pc.id] < |api.hist| && api.hist[net.landed[pc.id]] == Some(pc.dm)
  }

  predicate StartableFrom(o: DM) {
    !o.deleting && o.dmFin && !o.status.state.Finished?
  }

  /** What the local copy of the reconcile has to do with the version it was read from. */
  ghost predicate PcOk(api: Api, net: Net, pc: Pc) {
    !pc.Idle? ==>
      var v, dm := pc.v, pc.dm;
      && v < |api.hist| && api.hist[v].Some?
      && var o := api.hist[v].value;
      match pc
      case Idle => true
      case Fetched(_, _) => dm == o
      case AwaitFinalizerAdded(_, _, _) => dm == o && !o.deleting && Linked(net, pc, AddFinalizer)
      case AwaitEarlyCancel(_, _, _) =>
        o.deleting && !o.status.started && dm == o.(status := EarlyCancel(o.status)) &&
        Linked(net, pc, SetStatus(dm.status)) && LandedAs(api, net, pc)
      case CheckStopped(_, _) => dm == o && o.deleting
      case DropForDelete(_, _) => dm == o && o.deleting
      case ReleaseFinalizer(_, _) => dm == o && o.deleting
      case AwaitFinalizerRemoved(_, _, _) => dm == o && o.deleting && Linked(net, pc, RemoveFinalizer)
      case AwaitResult(_, _, _) =>
        dm == o.(status := dm.status) && Linked(net, pc, SetStatus(dm.status)) && LandedAs(api, net, pc)
      case DropWritten(_, _) => dm == o
      case Deciding(_, _) => dm == o && !o.deleting && o.dmFin
      case Preparing(_, _) => StartableFrom(o) && dm == o.(status := Restarted(o.status))
      case AwaitStart(_, _, _) =>
        StartableFrom(o) && dm == o.(status := Started(Restarted(o.status), dm.status.command)) &&
        Linked(net, pc, SetStatus(dm.status)) && LandedAs(api, net, pc)
      case Launching(_, _) => dm == o
      case Spawning(_, _, _) => dm == o
      case Failing(_, _) => true
      case AwaitDeferred(_, _, id) => id < net.nextId
  }

  /** What the reconcile knows about the map entry. */
  predicate PcEntryOk(api: Api, net: Net, log: Log, cache: nat, pc: Pc, entry: Option<Entry>) {
    match pc
    case AwaitFinalizerAdded(v, _, id) => entry.Some? ==> v < Version(api) && id !in net.landed
    case DropForDelete(_, _) => entry.Some? && entry.value.result.Some?
    case ReleaseFinalizer(_, _) => entry.None?
    case AwaitFinalizerRemoved(_, _, _) => entry.None?
    case AwaitResult(_, dm, _) => entry.Some? && entry.value.result == Some(dm.status)
    case DropWritten(_, dm) => entry.Some? && entry.value.result == Some(dm.status)
    case Preparing(v, _) => v == Version(api) ==> entry.None?
    case AwaitStart(v, _, _) => v == Version(api) ==> entry.None?
    case Launching(_, _) => entry.None?
    case Spawning(_, _, launch) => launch == |log.runs| && entry == Some(Entry(launch, None))
    case Failing(v, dm) => v == Version(api) && Cur(api).Some? ==> LegalStatus(entry, log, Cur(api).value, dm.status)
    case _ => true
  }

  /** A reconcile on its way to a launch read the version through the cache. */
  predicate PcCacheOk(cache: nat, pc: Pc) {
    pc.Fetched? || pc.Deciding? || pc.Preparing? || pc.AwaitStart? ==> pc.v <= cache
  }

  ghost predicate PendingOk(api: Api, net: Net, log: Log, cache: nat, pc: Pc, entry: Option<Entry>) {
    LaunchPending(pc, net) ==>
      var v := LaunchVersion(pc, net);
      && Cur(api).Some?
      && var dm := Cur(api).value;
      && dm.dmFin && dm.status.state.Running? && dm.status.started
      && Launched(log) <= dm.status.restarts
      && Launched(log) <= pc.dm.status.restarts && pc.dm.status.started
      && api.birth <= v <= Version(api) && cache >= api.birth
      && (pc.Spawning? || entry.None?)
      && (forall w :: w in net.sent ==> w.base < v)
  }

  // ---------------------------------------------------------------- results are not forgotten

  /** The reconcile will still look at the map entry, or end with an error that requeues the name. */
  predicate WillLook(pc: Pc) {
    pc.Fetched? || pc.AwaitFinalizerAdded? || pc.AwaitEarlyCancel? || pc.CheckStopped? || pc.DropForDelete? ||
    pc.AwaitResult? || pc.DropWritten? || pc.Failing? || pc.AwaitDeferred?
  }

  /** The goroutine has not sent its event, the name is queued, or a reconcile is at it. */
  predicate Owed(queued: bool, pc: Pc, entry: Option<Entry>, gos: map<nat, Go>) {
    queued || WillLook(pc) ||
    (entry.Some? && entry.value.launch in gos && !gos[entry.value.launch].main.Sent?)
  }

  predicate OwedOk(queued: bool, pc: Pc, entry: Option<Entry>, gos: map<nat, Go>) {
    entry.Some? && entry.value.result.Some? ==> Owed(queued, pc, entry, gos)
  }

  ghost predicate Inv(s: State) {
    && HistOk(s.api)
    && NetOk(s.api, s.net)
    && SentOk(s.api, s.entry, s.log, s.net.sent)
    && ApiOk(s.api, s.log)
    && RequestOk(s.api, s.log, s.cancelled)
    && EntryOk(s.api, s.log, s.entry, s.gos)
    && TrackOk(s.pc, s.entry, s.gos)
    && FreshOk(s.api, s.cache, s.pc, s.entry)
    && GosOk(s.log, s.entry, s.gos)
    && WorksOk(s.api, s.log, s.entry, s.gos)
    && QuietOk(s.pc, s.net, s.gos)
    && PcOk(s.api, s.net, s.pc)
    && PcEntryOk(s.api, s.net, s.log, s.cache, s.pc, s.entry)
    && PcCacheOk(s.cache, s.pc)
    && PendingOk(s.api, s.net, s.log, s.cache, s.pc, s.entry)
    && OwedOk(s.queued, s.pc, s.entry, s.gos)
  }
}

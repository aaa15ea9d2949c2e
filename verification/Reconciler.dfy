/** The data-movement reconciler as a step system for one NnfDataMovement name.
 *
 *  Five parties share the state: the API server (a history of object versions), the
 *  users, one reconcile at a time, the goroutine of every launched command together
 *  with its progress collector, and the network between the process and the API server.
 *  A write is sent, may take effect at any later moment as long as the version it was
 *  computed from is still the current one, and is answered with success only after it
 *  took effect but with an error at any time.  Conflicts, lost acknowledgements, writes
 *  that take effect late, and writes that outlive the process that sent them are all
 *  instances of this one rule.
 */
module Reconciler {
  import opened Wrappers

  // ---------------------------------------------------------------- API object

  datatype Phase = Unset | Running | Finished

  datatype Reason = NoReason | Success | Failed | Invalid | Cancelled

  /** `message` and `command` stand for free text: the message with the resource error,
      and the command status. */
  datatype Status = Status(state: Phase, reason: Reason, started: bool, ended: bool,
                           restarts: nat, message: int, command: int)

  const Blank: Status := Status(Unset, NoReason, false, false, 0, 0, 0)

  datatype DM = DM(deleting: bool, dmFin: bool, otherFin: bool, cancel: bool, status: Status)

  /** The API server drops a deleted object together with its last finalizer. */
  function Settle(dm: DM): Option<DM> {
    if dm.deleting && !dm.dmFin && !dm.otherFin then None else Some(dm)
  }

  /** Status updates touch the status only, ordinary updates the metadata only. */
  datatype Change = SetStatus(status: Status) | AddFinalizer | RemoveFinalizer

  function Effect(dm: DM, change: Change): Option<DM> {
    match change
    case SetStatus(st) => Some(dm.(status := st))
    case AddFinalizer => Some(dm.(dmFin := true))
    case RemoveFinalizer => Settle(dm.(dmFin := false))
  }

  /** Every version the name has had, the last one being current, and the version at
      which the current object was created. */
  datatype Api = Api(hist: seq<Option<DM>>, birth: nat)

  function Cur(api: Api): Option<DM> {
    if api.hist == [] then None else api.hist[|api.hist| - 1]
  }

  function Version(api: Api): int {
    |api.hist| - 1
  }

  function Push(api: Api, o: Option<DM>): Api {
    api.(hist := api.hist + [o])
  }

  // ---------------------------------------------------------------- network

  /** A write computed from version `base` of the object. */
  datatype Write = Write(id: nat, base: nat, change: Change)

  /** Writes that have not taken effect (some never will), and for those that have, the
      version that holds their effect. */
  datatype Net = Net(sent: set<Write>, landed: map<nat, nat>, nextId: nat)

  function Issue(net: Net, base: nat, change: Change): Net {
    net.(sent := net.sent + {Write(net.nextId, base, change)}, nextId := net.nextId + 1)
  }

  // ---------------------------------------------------------------- launches

  /** What became of a launched command when its goroutine sampled it. */
  datatype Outcome = Pending | Sampled(exitOk: bool, cancelled: bool)

  /** Every command ever launched, and how many there were when the current object was created. */
  datatype Log = Log(runs: seq<Outcome>, mark: nat)

  /** Number of commands launched for the current object. */
  function Launched(log: Log): int {
    |log.runs| - log.mark
  }

  // ---------------------------------------------------------------- process

  /** An entry of the `contexts` map: which launch it belongs to, and its result. */
  datatype Entry = Entry(launch: nat, result: Option<Status>)

  datatype Main =
    | Executing
    | Exited(ok: bool)
    | Signalled(ok: bool)
    | Collected(ok: bool)
    | Computed(result: Status)
    | Loaded(result: Status, found: Option<Entry>)
    | Stored
    | Sent

  datatype Collector =
    | Off
    | Waiting
    | Reading(final: bool)
    | Reporting(final: bool)
    | Handing
    | Gone

  /** A command goroutine, its collector and the buffered `chCommandDone` channel. */
  datatype Go = Go(main: Main, collector: Collector, done: bool, start: Status)

  /** Where the reconcile stands between two accesses to shared state; `v` is the version
      of the object it read, `dm` its local copy. */
  datatype Pc =
    | Idle
    | Fetched(v: nat, dm: DM)
    | AwaitFinalizerAdded(v: nat, dm: DM, id: nat)
    | AwaitEarlyCancel(v: nat, dm: DM, id: nat)
    | CheckStopped(v: nat, dm: DM)
    | DropForDelete(v: nat, dm: DM)
    | ReleaseFinalizer(v: nat, dm: DM)
    | AwaitFinalizerRemoved(v: nat, dm: DM, id: nat)
    | AwaitResult(v: nat, dm: DM, id: nat)
    | DropWritten(v: nat, dm: DM)
    | Deciding(v: nat, dm: DM)
    | Preparing(v: nat, dm: DM)
    | AwaitStart(v: nat, dm: DM, id: nat)
    | Launching(v: nat, dm: DM)
    | Spawning(v: nat, dm: DM, launch: nat)
    | Failing(v: nat, dm: DM)
    | AwaitDeferred(v: nat, dm: DM, id: nat)

  datatype State = State(
    api: Api,
    net: Net,
    log: Log,
    cache: nat,                 // cached reads never go back behind this version
    queued: bool,               // the name waits in the work queue
    pc: Pc,
    entry: Option<Entry>,       // the name's entry in the contexts map
    gos: map<nat, Go>,          // goroutines by launch
    cancelled: set<nat>         // launches whose context has been cancelled
  )

  predicate Init(s: State) {
    s == State(Api([None], 0), Net({}, map[], 0), Log([], 0), 0, false, Idle, None, map[], {})
  }

  // ---------------------------------------------------------------- actions

  datatype Action =
    // users and API server
    | Create(dm: DM)
    | EditSpec(cancel: bool, otherFin: bool)
    | RequestDelete
    | Land(w: Write, bumps: bool)
    // process
    | Wake
    | Crash
    // reconcile
    | FetchFails
    | Fetch(v: nat)
    | Handle
    | Acknowledge
    | Refuse
    | PrepareFails
    | PrepareDone(command: int)
    | Defer(message: int)
    | Spawn(progress: bool)
    // command goroutine
    | CommandExits(g: nat, ok: bool)
    | Signal(g: nat)
    | Meet(g: nat)
    | Sample(g: nat, message: int, command: int)
    | LoadEntry(g: nat)
    | StoreResult(g: nat)
    | SendEvent(g: nat)
    // progress collector
    | Tick(g: nat)
    | TakeDone(g: nat)
    | SkipReport(g: nat)
    | Report(g: nat, v: nat, command: int)
    | ReportAnswered(g: nat)

  predicate AwaitsAnswer(pc: Pc) {
    pc.AwaitFinalizerAdded? || pc.AwaitEarlyCancel? || pc.AwaitFinalizerRemoved? ||
    pc.AwaitResult? || pc.AwaitStart? || pc.AwaitDeferred?
  }

  predicate Continues(pc: Pc) {
    pc.Fetched? || pc.CheckStopped? || pc.DropForDelete? || pc.ReleaseFinalizer? ||
    pc.DropWritten? || pc.Deciding? || pc.Launching?
  }

  predicate Readable(s: State, v: nat) {
    s.cache <= v < |s.api.hist|
  }

  predicate Enabled(s: State, a: Action) {
    match a
    case Create(dm) => Cur(s.api).None? && s.api.hist != [] && dm.status == Blank && !dm.deleting
    case EditSpec(_, otherFin) =>
      Cur(s.api).Some? && (Cur(s.api).value.deleting && otherFin ==> Cur(s.api).value.otherFin)
    case RequestDelete => Cur(s.api).Some?
    case Land(w, bumps) =>
      w in s.net.sent && w.base == Version(s.api) && Cur(s.api).Some? &&
      (bumps || Effect(Cur(s.api).value, w.change) == Cur(s.api))
    case Wake => true
    case Crash => true
    case FetchFails => s.pc.Idle? && s.queued
    case Fetch(v) => s.pc.Idle? && s.queued && Readable(s, v)
    case Handle => Continues(s.pc)
    case Acknowledge => AwaitsAnswer(s.pc) && s.pc.id in s.net.landed
    case Refuse => AwaitsAnswer(s.pc)
    case PrepareFails => s.pc.Preparing?
    case PrepareDone(_) => s.pc.Preparing?
    case Defer(_) => s.pc.Failing?
    case Spawn(_) => s.pc.Spawning?
    case CommandExits(g, _) => g in s.gos && s.gos[g].main.Executing?
    case Signal(g) => g in s.gos && s.gos[g].main.Exited?
    case Meet(g) => g in s.gos && s.gos[g].main.Signalled? && s.gos[g].collector.Handing?
    case Sample(g, _, _) => g in s.gos && s.gos[g].main.Collected? && g < |s.log.runs|
    case LoadEntry(g) => g in s.gos && s.gos[g].main.Computed?
    case StoreResult(g) => g in s.gos && s.gos[g].main.Loaded?
    case SendEvent(g) => g in s.gos && s.gos[g].main.Stored?
    case Tick(g) => g in s.gos && s.gos[g].collector.Waiting?
    case TakeDone(g) => g in s.gos && s.gos[g].collector.Waiting? && s.gos[g].done
    case SkipReport(g) => g in s.gos && s.gos[g].collector.Reading?
    case Report(g, v, _) => g in s.gos && s.gos[g].collector.Reading? && Readable(s, v) && s.api.hist[v].Some?
    case ReportAnswered(g) => g in s.gos && s.gos[g].collector.Reporting?
  }

  // ---------------------------------------------------------------- status values

  /** Status of an object deleted before its data movement started. */
  function EarlyCancel(st: Status): Status {
    st.(state := Finished, reason := Cancelled, started := true, ended := true)
  }

  function Restarted(st: Status): Status {
    if st.state.Running? then st.(restarts := st.restarts + 1) else st
  }

  function Started(st: Status, command: int): Status {
    st.(started := true, state := Running, command := command)
  }

  function Rejected(st: Status): Status {
    st.(state := Finished, reason := Invalid)
  }

  /** The reason a goroutine records: cancellation wins over the exit code. */
  function Verdict(exitOk: bool, cancelled: bool): Reason {
    if cancelled then Cancelled else if exitOk then Success else Failed
  }

  function Final(start: Status, exitOk: bool, cancelled: bool, message: int, command: int): Status {
    start.(state := Finished, ended := true, command := command, reason := Verdict(exitOk, cancelled),
           message := if cancelled then start.message else message)
  }

  // ---------------------------------------------------------------- effects on the state

  /** Contexts cancelled by `cancel()`: the tracked one, unless its result is already there. */
  function CancelTracked(s: State): set<nat> {
    if s.entry.Some? && s.entry.value.result.None? then s.cancelled + {s.entry.value.launch} else s.cancelled
  }

  /** Sends a write computed from version `v` and waits at `pc` for the answer. */
  function Ask(s: State, v: nat, change: Change, pc: Pc): State {
    s.(net := Issue(s.net, v, change), pc := pc)
  }

  function Continue(s: State): State
    requires Continues(s.pc)
  {
    var v, dm, id := s.pc.v, s.pc.dm, s.net.nextId;
    match s.pc
    case Fetched(_, _) =>
      if dm.deleting then
        if !dm.status.started then
          var st := EarlyCancel(dm.status);
          Ask(s, v, SetStatus(st), AwaitEarlyCancel(v, dm.(status := st), id))
        else
          s.(cancelled := CancelTracked(s), pc := CheckStopped(v, dm))
      else if !dm.dmFin then
        Ask(s, v, AddFinalizer, AwaitFinalizerAdded(v, dm, id))
      else if s.entry.Some? && s.entry.value.result.Some? then
        var st := s.entry.value.result.value;
        Ask(s, v, SetStatus(st), AwaitResult(v, dm.(status := st), id))
      else
        s.(pc := Deciding(v, dm))
    case CheckStopped(_, _) =>
      if s.entry.None? then s.(pc := ReleaseFinalizer(v, dm))
      else if s.entry.value.result.None? then s.(pc := Idle)
      else s.(pc := DropForDelete(v, dm))
    case DropForDelete(_, _) =>
      s.(entry := None, pc := ReleaseFinalizer(v, dm))
    case ReleaseFinalizer(_, _) =>
      if dm.dmFin then Ask(s, v, RemoveFinalizer, AwaitFinalizerRemoved(v, dm, id)) else s.(pc := Idle)
    case DropWritten(_, _) =>
      s.(entry := None, pc := Idle)
    case Deciding(_, _) =>
      if dm.status.state.Finished? then s.(pc := Idle)
      else if dm.cancel then s.(cancelled := CancelTracked(s), pc := Idle)
      else if dm.status.state.Running? && s.entry.Some? then s.(pc := Idle)
      else s.(pc := Preparing(v, dm.(status := Restarted(dm.status))))
    case Launching(_, _) =>
      s.(entry := Some(Entry(|s.log.runs|, None)), pc := Spawning(v, dm, |s.log.runs|))
  }

  function Answered(s: State): State
    requires AwaitsAnswer(s.pc) && s.pc.id in s.net.landed
  {
    var v, dm := s.net.landed[s.pc.id], s.pc.dm;
    match s.pc
    case AwaitFinalizerAdded(_, _, _) => s.(pc := Idle)
    case AwaitEarlyCancel(_, _, _) => s.(pc := CheckStopped(v, dm))
    case AwaitFinalizerRemoved(_, _, _) => s.(pc := Idle)
    case AwaitResult(_, _, _) => s.(pc := DropWritten(v, dm))
    case AwaitStart(_, _, _) => s.(pc := Launching(v, dm))
    case AwaitDeferred(_, _, _) => s.(pc := Idle, queued := true)
  }

  function WithGo(s: State, g: nat, go: Go): State {
    s.(gos := s.gos[g := go])
  }

  /** After the last report the collector hands over on the unbuffered channel. */
  function AfterReport(final: bool): Collector {
    if final then Handing else Waiting
  }

  function Do(s: State, a: Action): State
    requires Enabled(s, a)
  {
    match a
    case Create(dm) => s.(api := Api(s.api.hist + [Some(dm)], |s.api.hist|), log := s.log.(mark := |s.log.runs|))
    case EditSpec(cancel, otherFin) =>
      s.(api := Push(s.api, Settle(Cur(s.api).value.(cancel := cancel, otherFin := otherFin))))
    case RequestDelete => s.(api := Push(s.api, Settle(Cur(s.api).value.(deleting := true))))
    case Land(w, bumps) =>
      var at := if bumps then |s.api.hist| else |s.api.hist| - 1;
      s.(api := if bumps then Push(s.api, Effect(Cur(s.api).value, w.change)) else s.api,
         net := s.net.(sent := s.net.sent - {w}, landed := s.net.landed[w.id := at]))
    case Wake => s.(queued := true)
    case Crash => s.(cache := 0, queued := true, pc := Idle, entry := None, gos := map[], cancelled := {})
    case FetchFails => s
    case Fetch(v) =>
      var o := s.api.hist[v];
      s.(queued := false, cache := v, pc := if o.None? then Idle else Fetched(v, o.value))
    case Handle => Continue(s)
    case Acknowledge => Answered(s)
    case Refuse =>
      if s.pc.AwaitDeferred? then s.(pc := Idle, queued := true) else s.(pc := Failing(s.pc.v, s.pc.dm))
    case PrepareFails => s.(pc := Failing(s.pc.v, s.pc.dm.(status := Rejected(s.pc.dm.status))))
    case PrepareDone(command) =>
      var st := Started(s.pc.dm.status, command);
      Ask(s, s.pc.v, SetStatus(st), AwaitStart(s.pc.v, s.pc.dm.(status := st), s.net.nextId))
    case Defer(message) =>
      var st := s.pc.dm.status.(message := message);
      Ask(s, s.pc.v, SetStatus(st), AwaitDeferred(s.pc.v, s.pc.dm.(status := st), s.net.nextId))
    case Spawn(progress) =>
      WithGo(s, s.pc.launch, Go(Executing, if progress then Waiting else Off, false, s.pc.dm.status))
      .(log := s.log.(runs := s.log.runs + [Pending]), pc := Idle)
    case CommandExits(g, ok) => WithGo(s, g, s.gos[g].(main := Exited(ok)))
    case Signal(g) =>
      var go := s.gos[g];
      WithGo(s, g, if go.collector.Off? then go.(main := Collected(go.main.ok))
                   else go.(main := Signalled(go.main.ok), done := true))
    case Meet(g) => WithGo(s, g, s.gos[g].(main := Collected(s.gos[g].main.ok), collector := Gone))
    case Sample(g, message, command) =>
      var go, cancelled := s.gos[g], g in s.cancelled;
      WithGo(s, g, go.(main := Computed(Final(go.start, go.main.ok, cancelled, message, command))))
      .(log := s.log.(runs := s.log.runs[g := Sampled(go.main.ok, cancelled)]))
    case LoadEntry(g) => WithGo(s, g, s.gos[g].(main := Loaded(s.gos[g].main.result, s.entry)))
    case StoreResult(g) =>
      var m := s.gos[g].main;
      WithGo(s, g, s.gos[g].(main := Stored))
      .(entry := if m.found.Some? then Some(m.found.value.(result := Some(m.result))) else s.entry)
    case SendEvent(g) => WithGo(s, g, s.gos[g].(main := Sent)).(queued := true)
    case Tick(g) => WithGo(s, g, s.gos[g].(collector := Reading(false)))
    case TakeDone(g) => WithGo(s, g, s.gos[g].(collector := Reading(true), done := false))
    case SkipReport(g) => WithGo(s, g, s.gos[g].(collector := AfterReport(s.gos[g].collector.final)))
    case Report(g, v, command) =>
      WithGo(s, g, s.gos[g].(collector := Reporting(s.gos[g].collector.final)))
      .(net := Issue(s.net, v, SetStatus(s.api.hist[v].value.status.(command := command))), cache := v)
    case ReportAnswered(g) => WithGo(s, g, s.gos[g].(collector := AfterReport(s.gos[g].collector.final)))
  }

  // ---------------------------------------------------------------- runs

  /** `s` leads to `t` by taking the actions in order, each one enabled in its turn. */
  ghost predicate Steps(s: State, acts: seq<Action>, t: State)
    decreases |acts|
  {
    if acts == [] then s == t
    else Enabled(s, acts[0]) && Steps(Do(s, acts[0]), acts[1..], t)
  }

  ghost predicate Reachable(t: State) {
    exists s, acts :: Init(s) && Steps(s, acts, t)
  }
}

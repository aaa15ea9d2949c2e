/** The copy-offload daemon's request registry as a step system.
 *
 *  Requests, status readers (each with its helper goroutine asleep on the condition
 *  variable) and cancel requests run concurrently over the two shared tables.  A request
 *  name is recorded at most once, and the daemon is the only writer of the status of the
 *  objects it created; others may delete such an object at any time.
 */
module Registry {
  import opened Wrappers
  import opened StatusResponse

  type Key = string

  // ---------------------------------------------------------------- the two shared tables

  /** `contexts`, with the recorded names whose context has been cancelled, and `completions`. */
  datatype Tables = Tables(contexts: set<Key>, cancelled: set<Key>, completions: set<Key>)

  function Recorded(t: Tables, key: Key): Tables {
    t.(contexts := t.contexts + {key}, cancelled := t.cancelled - {key})
  }

  function Dropped(t: Tables, key: Key): Tables {
    t.(contexts := t.contexts - {key}, cancelled := t.cancelled - {key})
  }

  function Noted(t: Tables, key: Key): Tables {
    t.(completions := t.completions + {key})
  }

  function Reaped(t: Tables, key: Key): Tables {
    t.(completions := t.completions - {key})
  }

  function Stopped(t: Tables, key: Key): Tables {
    if key in t.contexts then t.(cancelled := t.cancelled + {key}) else t
  }

  // ---------------------------------------------------------------- threads

  /** Where the thread that owns a request stands. */
  datatype Stage =
    | Filed                          // recorded, start not written yet
    | StartFailed                    // the start could not be written
    | Executing
    | Exited                         // command and collector are done
    | Abandoned                      // the object could not be read: returns, leaving the record
    | Finishing(copy: ApiStatus)     // the object was read
    | Concluded(final: ApiStatus)    // final status computed from that
    | Written                        // final status write is over, one way or the other
    | HandingOff                     // record dropped, completion not noted yet
    | Rousing                        // completion noted, waiters not woken yet
    | Done

  /** `ended`: the final status had reached the API when the call that wrote it returned; `late`: it
      did so afterwards.  `pending`: the status of a failed write that may still take effect. */
  datatype Job = Job(stage: Stage, ended: bool, late: bool, pending: Option<ApiStatus>)

  datatype Helper =
    | NoHelper                       // the request does not wait
    | NeedsLock
    | Checking
    | Enrolling                      // found nothing, still holds the lock
    | Asleep
    | Signalled

  datatype Reader =
    | Waiting
    | TimedOut                       // timeout flag set, broadcast to come
    | Rereading(released: bool)      // released: by completion rather than by the timer
    | Responding(released: bool, answer: Answer)
    | Replied(released: bool, answer: Answer)

  /** A status request and the helper goroutine it waits for, if it does. */
  datatype Request = Request(key: Key, reader: Reader, helper: Helper, timeout: bool)

  datatype Cancel =
    | Missed(key: Key, known: bool)  // not in `contexts`; known: it had been recorded by then
    | Settled(key: Key, found: bool)

  datatype Lock = Free | HeldBy(rid: nat)

  datatype State = State(
    tables: Tables,
    lock: Lock,                      // the condition variable's mutex
    objs: map<Key, ApiStatus>,       // objects of the daemon that exist in the API
    jobs: map<Key, Job>,
    reqs: map<nat, Request>,
    cancels: map<nat, Cancel>,
    reaped: set<Key>,                // completions that have been removed again
    notes: multiset<Key>             // every notification that was made
  )

  predicate Init(s: State) {
    s == State(Tables({}, {}, {}), Free, map[], map[], map[], map[], {}, multiset{})
  }

  // ---------------------------------------------------------------- actions

  datatype Action =
    | Record(key: Key)
    | ObjectDeleted(key: Key)
    | SpecCancelled(key: Key)
    | WriteStart(key: Key, landed: bool, error: bool)
    | DropFailed(key: Key)
    | CommandEnds(key: Key)
    | ReadFinal(key: Key, error: bool)
    | Conclude(key: Key, failed: bool)
    | WriteFinal(key: Key, landed: bool)
    | LateWrite(key: Key)
    | DropRecord(key: Key)
    | NoteCompletion(key: Key)
    | Broadcast(key: Key)
    | StatusArrives(rid: nat, key: Key)
    | StatusAtOnce(rid: nat, key: Key)
    | HelperLocks(rid: nat)
    | HelperChecks(rid: nat)
    | HelperSleeps(rid: nat)
    | TimerFires(rid: nat)
    | TimeoutBroadcast(rid: nat)
    | Release(rid: nat)
    | Reread(rid: nat)
    | Reply(rid: nat)
    | ReapMissing(key: Key)
    | CancelArrives(cid: nat, key: Key)
    | CancelChecks(cid: nat)

  predicate At(jobs: map<Key, Job>, key: Key, stage: Stage) {
    key in jobs && jobs[key].stage == stage
  }

  predicate Enabled(s: State, a: Action) {
    match a
    case Record(key) => key !in s.jobs && key !in s.objs
    case ObjectDeleted(key) => key in s.objs
    case SpecCancelled(key) => key in s.objs
    case WriteStart(key, landed, error) => At(s.jobs, key, Filed) && (landed ==> key in s.objs) && (!landed && !error ==> key !in s.objs)
    case DropFailed(key) => At(s.jobs, key, StartFailed)
    case CommandEnds(key) => At(s.jobs, key, Executing)
    case ReadFinal(key, error) => At(s.jobs, key, Exited) && (!error ==> key in s.objs)
    case Conclude(key, _) => key in s.jobs && s.jobs[key].stage.Finishing?
    case WriteFinal(key, landed) => key in s.jobs && s.jobs[key].stage.Concluded? && (landed ==> key in s.objs)
    case LateWrite(key) => key in s.jobs && s.jobs[key].pending.Some? && key in s.objs
    case DropRecord(key) => At(s.jobs, key, Written)
    case NoteCompletion(key) => At(s.jobs, key, HandingOff) && s.lock.Free?
    case Broadcast(key) => At(s.jobs, key, Rousing)
    case StatusArrives(rid, key) => rid !in s.reqs && key in s.objs && !s.objs[key].ended
    case StatusAtOnce(rid, key) => rid !in s.reqs && key in s.objs
    case HelperLocks(rid) => rid in s.reqs && s.reqs[rid].helper.NeedsLock? && s.lock.Free?
    case HelperChecks(rid) => rid in s.reqs && s.reqs[rid].helper.Checking?
    case HelperSleeps(rid) => rid in s.reqs && s.reqs[rid].helper.Enrolling?
    case TimerFires(rid) => rid in s.reqs && s.reqs[rid].reader.Waiting?
    case TimeoutBroadcast(rid) => rid in s.reqs && s.reqs[rid].reader.TimedOut?
    case Release(rid) => rid in s.reqs && s.reqs[rid].reader.Waiting? && s.reqs[rid].helper.Signalled?
    case Reread(rid) => rid in s.reqs && s.reqs[rid].reader.Rereading?
    case Reply(rid) => rid in s.reqs && s.reqs[rid].reader.Responding? && s.lock.Free?
    case ReapMissing(key) => key !in s.objs && s.lock.Free?
    case CancelArrives(cid, key) => cid !in s.cancels
    case CancelChecks(cid) => cid in s.cancels && s.cancels[cid].Missed? && s.lock.Free?
  }

  // ---------------------------------------------------------------- effects

  function Move(s: State, key: Key, stage: Stage): State
    requires key in s.jobs
  {
    s.(jobs := s.jobs[key := s.jobs[key].(stage := stage)])
  }

  function WithReq(s: State, rid: nat, r: Request): State {
    s.(reqs := s.reqs[rid := r])
  }

  /** A broadcast wakes every sleeping helper, whatever name it waits for. */
  function Woken(reqs: map<nat, Request>): map<nat, Request> {
    map rid | rid in reqs :: if reqs[rid].helper.Asleep? then reqs[rid].(helper := NeedsLock) else reqs[rid]
  }

  function Reap(s: State, key: Key): State {
    s.(tables := Reaped(s.tables, key),
       reaped := if key in s.tables.completions then s.reaped + {key} else s.reaped)
  }

  /** The reason that is recorded: a cancelled context goes over the error. */
  function FinalReason(cancelled: bool, failed: bool): string {
    if cancelled then "Cancelled" else if failed then "Failed" else "Success"
  }

  function Do(s: State, a: Action): State
    requires Enabled(s, a)
  {
    match a
    case Record(key) =>
      s.(tables := Recorded(s.tables, key), objs := s.objs[key := Untouched], jobs := s.jobs[key := Job(Filed, false, false, None)])
    case ObjectDeleted(key) => s.(objs := s.objs - {key})
    case SpecCancelled(key) => s.(objs := s.objs[key := s.objs[key].(cancel := true)])
    case WriteStart(key, landed, error) =>
      var pending := if error && !landed && key in s.objs then Some(Begun(s.objs[key])) else None;
      s.(jobs := s.jobs[key := s.jobs[key].(stage := if error then StartFailed else Executing, pending := pending)],
         objs := if landed then s.objs[key := Begun(s.objs[key])] else s.objs)
    case DropFailed(key) => Move(s, key, HandingOff).(tables := Dropped(s.tables, key))
    case CommandEnds(key) => Move(s, key, Exited)
    case ReadFinal(key, error) => Move(s, key, if error then Abandoned else Finishing(s.objs[key]))
    case Conclude(key, failed) =>
      Move(s, key, Concluded(Ended(s.jobs[key].stage.copy, FinalReason(key in s.tables.cancelled, failed))))
    case WriteFinal(key, landed) =>
      var st := s.jobs[key].stage.final;
      s.(jobs := s.jobs[key := Job(Written, landed, false, if landed then None else Some(st))],
         objs := if landed then s.objs[key := st.(cancel := s.objs[key].cancel)] else s.objs)
    case LateWrite(key) =>
      var job := s.jobs[key];
      var st := job.pending.value;
      s.(jobs := s.jobs[key := job.(pending := None, late := st.ended)],
         objs := s.objs[key := st.(cancel := s.objs[key].cancel)])
    case DropRecord(key) => Move(s, key, HandingOff).(tables := Dropped(s.tables, key))
    case NoteCompletion(key) =>
      Move(s, key, Rousing).(tables := Noted(s.tables, key), notes := s.notes + multiset{key})
    case Broadcast(key) => Move(s, key, Done).(reqs := Woken(s.reqs))
    case StatusArrives(rid, key) => WithReq(s, rid, Request(key, Waiting, NeedsLock, false))
    case StatusAtOnce(rid, key) =>
      WithReq(s, rid, Request(key, Responding(false, Build(s.objs[key])), NoHelper, false))
    case HelperLocks(rid) => WithReq(s, rid, s.reqs[rid].(helper := Checking)).(lock := HeldBy(rid))
    case HelperChecks(rid) =>
      var r := s.reqs[rid];
      if r.key in s.tables.completions || r.timeout then WithReq(s, rid, r.(helper := Signalled)).(lock := Free)
      else WithReq(s, rid, r.(helper := Enrolling))
    case HelperSleeps(rid) => WithReq(s, rid, s.reqs[rid].(helper := Asleep)).(lock := Free)
    case TimerFires(rid) => WithReq(s, rid, s.reqs[rid].(reader := TimedOut, timeout := true))
    case TimeoutBroadcast(rid) =>
      s.(reqs := Woken(s.reqs[rid := s.reqs[rid].(reader := Rereading(false))]))
    case Release(rid) => WithReq(s, rid, s.reqs[rid].(reader := Rereading(true)))
    case Reread(rid) =>
      var r := s.reqs[rid];
      var answer := if r.key in s.objs then Build(s.objs[r.key]) else NotFound;
      WithReq(s, rid, r.(reader := Responding(r.reader.released, answer)))
    case Reply(rid) =>
      var r := s.reqs[rid];
      var t := WithReq(s, rid, r.(reader := Replied(r.reader.released, r.reader.answer)));
      if IsFinal(r.reader.answer) then Reap(t, r.key) else t
    case ReapMissing(key) => Reap(s, key)
    case CancelArrives(cid, key) =>
      s.(tables := Stopped(s.tables, key),
         cancels := s.cancels[cid := if key in s.tables.contexts then Settled(key, true) else Missed(key, key in s.jobs)])
    case CancelChecks(cid) =>
      var key := s.cancels[cid].key;
      s.(cancels := s.cancels[cid := Settled(key, key in s.tables.completions)])
  }

  ghost predicate Steps(s: State, acts: seq<Action>, t: State)
    decreases |acts|
  {
    if acts == [] then s == t
    else Enabled(s, acts[0]) && Steps(Do(s, acts[0]), acts[1..], t)
  }

  ghost predicate Reachable(t: State) {
    exists s, acts :: Init(s) && Steps(s, acts, t)
  }
}

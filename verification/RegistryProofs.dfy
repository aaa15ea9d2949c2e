/** What every step of the request registry keeps, and what follows for every run. */
module RegistryProofs {
  import opened Wrappers
  import opened StatusResponse
  import opened Registry

  // ---------------------------------------------------------------- invariant

  /** The request still has its record in `contexts`. */
  predicate OnRecord(stage: Stage) {
    !stage.HandingOff? && !stage.Rousing? && !stage.Done?
  }

  /** The completion has been noted. */
  predicate Notified(stage: Stage) {
    stage.Rousing? || stage.Done?
  }

  ghost predicate TablesOk(tables: Tables, jobs: map<Key, Job>, reaped: set<Key>) {
    && (forall k :: k in tables.contexts <==> k in jobs && OnRecord(jobs[k].stage))
    && (forall k :: k in tables.completions || k in reaped <==> k in jobs && Notified(jobs[k].stage))
    && tables.completions !! reaped
  }

  ghost predicate NotesOk(jobs: map<Key, Job>, notes: multiset<Key>) {
    forall k :: notes[k] == if k in jobs && Notified(jobs[k].stage) then 1 else 0
  }

  predicate Holds(helper: Helper) {
    helper.Checking? || helper.Enrolling?
  }

  ghost predicate LockOk(lock: Lock, reqs: map<nat, Request>) {
    && (lock.HeldBy? ==> lock.rid in reqs && Holds(reqs[lock.rid].helper))
    && (forall rid :: rid in reqs && Holds(reqs[rid].helper) ==> lock == HeldBy(rid))
  }

  predicate WakeOk(completions: set<Key>, jobs: map<Key, Job>, r: Request) {
    && (r.helper.Enrolling? ==> r.key !in completions)
    && (r.helper.Asleep? && r.key in completions ==> At(jobs, r.key, Rousing))
  }

  ghost predicate WakesOk(completions: set<Key>, jobs: map<Key, Job>, reqs: map<nat, Request>) {
    forall rid :: rid in reqs ==> WakeOk(completions, jobs, reqs[rid])
  }

  /** The final status had taken effect before the hand-off, or did so later. */
  predicate Over(job: Job) {
    job.ended || job.late
  }

  predicate AnswerOk(job: Job, answer: Answer) {
    answer.NotFound? || ((job.ended ==> IsFinal(answer)) && (IsFinal(answer) ==> Over(job)))
  }

  /** A reader released by completion has had its request notified, and learns the truth. */
  predicate ReaderOk(jobs: map<Key, Job>, r: Request) {
    && (r.reader.Waiting? ==> !r.timeout)
    && (r.reader.TimedOut? ==> r.timeout)
    && (r.reader.Waiting? || r.reader.TimedOut? ==> !r.helper.NoHelper?)
    && ((r.reader.Waiting? && r.helper.Signalled?) || (!r.reader.Waiting? && !r.reader.TimedOut? && r.reader.released) ==>
          r.key in jobs && Notified(jobs[r.key].stage))
    && ((r.reader.Responding? || r.reader.Replied?) && r.reader.released ==>
          r.key in jobs && AnswerOk(jobs[r.key], r.reader.answer))
  }

  ghost predicate ReadersOk(jobs: map<Key, Job>, reqs: map<nat, Request>) {
    forall rid :: rid in reqs ==> ReaderOk(jobs, reqs[rid])
  }

  /** The start reached the API, unless the object was gone by then. */
  predicate WasStarted(stage: Stage) {
    stage.Executing? || stage.Exited? || stage.Finishing? || stage.Concluded? || stage.Written?
  }

  /** The final write has been attempted, or never will be. */
  predicate Finished(stage: Stage) {
    stage.Written? || stage.HandingOff? || stage.Rousing? || stage.Done?
  }

  predicate FinalStatus(st: ApiStatus) {
    st.state == "Finished" && st.started && st.ended && st.reason in {"Success", "Failed", "Cancelled"}
  }

  predicate ObjOk(job: Job, st: ApiStatus) {
    && (Over(job) ==> Finished(job.stage) && FinalStatus(st))
    && (!Over(job) ==> !st.ended)
    && (WasStarted(job.stage) ==> st.started)
    && (job.stage.Finishing? ==> job.stage.copy.started)
    && (job.stage.Concluded? ==> FinalStatus(job.stage.final))
    && (job.pending.Some? ==> PendingOk(job))
  }

  /** What may still take effect is a start that failed, or the final status. */
  predicate PendingOk(job: Job)
    requires job.pending.Some?
  {
    && !Over(job) && (job.stage.StartFailed? || Finished(job.stage))
    && (job.pending.value.ended ==> Finished(job.stage) && FinalStatus(job.pending.value))
    && job.pending.value.started
  }

  ghost predicate ObjsOk(jobs: map<Key, Job>, objs: map<Key, ApiStatus>) {
    forall k :: k in objs ==> k in jobs && ObjOk(jobs[k], objs[k])
  }

  ghost predicate Inv(s: State) {
    && TablesOk(s.tables, s.jobs, s.reaped)
    && NotesOk(s.jobs, s.notes)
    && LockOk(s.lock, s.reqs)
    && WakesOk(s.tables.completions, s.jobs, s.reqs)
    && ReadersOk(s.jobs, s.reqs)
    && ObjsOk(s.jobs, s.objs)
    && CancelsOk(s.jobs, s.cancels)
  }

  /** A name that a cancel request has not found so far is unknown, in its hand-off
      window, or has been notified. */
  ghost predicate CancelsOk(jobs: map<Key, Job>, cancels: map<nat, Cancel>) {
    forall cid :: cid in cancels ==> CancelOk(jobs, cancels[cid])
  }

  predicate CancelOk(jobs: map<Key, Job>, c: Cancel) {
    c.Missed? && c.known ==> c.key in jobs && !OnRecord(jobs[c.key].stage)
  }

  // ---------------------------------------------------------------- every step keeps it

  /** Readers and helpers do not notice a request that has not been notified yet. */
  lemma JobUnseen(completions: set<Key>, jobs: map<Key, Job>, reqs: map<nat, Request>, key: Key, job: Job)
    requires key in jobs ==> !Notified(jobs[key].stage)
    requires ReadersOk(jobs, reqs) && WakesOk(completions, jobs, reqs)
    ensures ReadersOk(jobs[key := job], reqs) && WakesOk(completions, jobs[key := job], reqs)
  {
    forall rid | rid in reqs
      ensures ReaderOk(jobs[key := job], reqs[rid]) && WakeOk(completions, jobs[key := job], reqs[rid])
    {
      assert ReaderOk(jobs, reqs[rid]) && WakeOk(completions, jobs, reqs[rid]);
    }
  }

  lemma ReqChange(s: State, rid: nat, r: Request)
    requires Inv(s) && ReaderOk(s.jobs, r) && WakeOk(s.tables.completions, s.jobs, r)
    ensures ReadersOk(s.jobs, s.reqs[rid := r]) && WakesOk(s.tables.completions, s.jobs, s.reqs[rid := r])
  {
  }

  lemma WokenReaders(jobs: map<Key, Job>, reqs: map<nat, Request>)
    requires ReadersOk(jobs, reqs)
    ensures ReadersOk(jobs, Woken(reqs))
  {
    forall rid | rid in reqs
      ensures ReaderOk(jobs, Woken(reqs)[rid])
    {
      assert ReaderOk(jobs, reqs[rid]);
    }
  }

  lemma WokenLock(lock: Lock, reqs: map<nat, Request>)
    requires LockOk(lock, reqs)
    ensures LockOk(lock, Woken(reqs))
  {
  }

  /** A request that moves on without leaving or entering a table. */
  lemma StageMoves(s: State, key: Key, job: Job)
    requires Inv(s) && key in s.jobs
    requires OnRecord(job.stage) == OnRecord(s.jobs[key].stage) && Notified(job.stage) == Notified(s.jobs[key].stage)
    ensures TablesOk(s.tables, s.jobs[key := job], s.reaped)
    ensures NotesOk(s.jobs[key := job], s.notes)
    ensures CancelsOk(s.jobs[key := job], s.cancels)
  {
    assert forall cid :: cid in s.cancels ==> CancelOk(s.jobs, s.cancels[cid]);
  }

  /** The object of a request that moves on. */
  lemma ObjMoves(jobs: map<Key, Job>, objs: map<Key, ApiStatus>, key: Key, job: Job, objs': map<Key, ApiStatus>)
    requires ObjsOk(jobs, objs) && key in jobs
    requires forall k :: k in objs' && k != key ==> k in objs && objs'[k] == objs[k]
    requires key in objs' ==> ObjOk(job, objs'[key])
    ensures ObjsOk(jobs[key := job], objs')
  {
  }

  lemma LeavesRecord(jobs: map<Key, Job>, cancels: map<nat, Cancel>, key: Key, job: Job)
    requires CancelsOk(jobs, cancels) && !OnRecord(job.stage)
    ensures CancelsOk(jobs[key := job], cancels)
  {
    assert forall cid :: cid in cancels ==> CancelOk(jobs, cancels[cid]);
  }

  lemma RecordKeeps(s: State, a: Action)
    requires Inv(s) && Enabled(s, a) && a.Record?
    ensures Inv(Do(s, a))
  {
    JobUnseen(s.tables.completions, s.jobs, s.reqs, a.key, Do(s, a).jobs[a.key]);
  }

  lemma ObjectDeletedKeeps(s: State, a: Action)
    requires Inv(s) && Enabled(s, a) && a.ObjectDeleted?
    ensures Inv(Do(s, a))
  {
  }

  lemma SpecCancelledKeeps(s: State, a: Action)
    requires Inv(s) && Enabled(s, a) && a.SpecCancelled?
    ensures Inv(Do(s, a))
  {
  }

  lemma WriteStartKeeps(s: State, a: Action)
    requires Inv(s) && Enabled(s, a) && a.WriteStart?
    ensures Inv(Do(s, a))
  {
    var t := Do(s, a);
    JobUnseen(s.tables.completions, s.jobs, s.reqs, a.key, t.jobs[a.key]);
    StageMoves(s, a.key, t.jobs[a.key]);
    if a.key in s.objs { assert ObjOk(s.jobs[a.key], s.objs[a.key]); }
    ObjMoves(s.jobs, s.objs, a.key, t.jobs[a.key], t.objs);
  }

  lemma DropFailedKeeps(s: State, a: Action)
    requires Inv(s) && Enabled(s, a) && a.DropFailed?
    ensures Inv(Do(s, a))
  {
    var t := Do(s, a);
    JobUnseen(s.tables.completions, s.jobs, s.reqs, a.key, t.jobs[a.key]);
    if a.key in s.objs { assert ObjOk(s.jobs[a.key], s.objs[a.key]); }
    ObjMoves(s.jobs, s.objs, a.key, t.jobs[a.key], t.objs);
    LeavesRecord(s.jobs, s.cancels, a.key, t.jobs[a.key]);
  }

  lemma CommandEndsKeeps(s: State, a: Action)
    requires Inv(s) && Enabled(s, a) && a.CommandEnds?
    ensures Inv(Do(s, a))
  {
    var t := Do(s, a);
    JobUnseen(s.tables.completions, s.jobs, s.reqs, a.key, t.jobs[a.key]);
    StageMoves(s, a.key, t.jobs[a.key]);
    if a.key in s.objs { assert ObjOk(s.jobs[a.key], s.objs[a.key]); }
    ObjMoves(s.jobs, s.objs, a.key, t.jobs[a.key], t.objs);
  }

  lemma ReadFinalKeeps(s: State, a: Action)
    requires Inv(s) && Enabled(s, a) && a.ReadFinal?
    ensures Inv(Do(s, a))
  {
    var t := Do(s, a);
    JobUnseen(s.tables.completions, s.jobs, s.reqs, a.key, t.jobs[a.key]);
    StageMoves(s, a.key, t.jobs[a.key]);
    if a.key in s.objs { assert ObjOk(s.jobs[a.key], s.objs[a.key]); }
    ObjMoves(s.jobs, s.objs, a.key, t.jobs[a.key], t.objs);
  }

  lemma ConcludeKeeps(s: State, a: Action)
    requires Inv(s) && Enabled(s, a) && a.Conclude?
    ensures Inv(Do(s, a))
  {
    var t := Do(s, a);
    JobUnseen(s.tables.completions, s.jobs, s.reqs, a.key, t.jobs[a.key]);
    StageMoves(s, a.key, t.jobs[a.key]);
    if a.key in s.objs { assert ObjOk(s.jobs[a.key], s.objs[a.key]); }
    ObjMoves(s.jobs, s.objs, a.key, t.jobs[a.key], t.objs);
  }

  lemma WriteFinalKeeps(s: State, a: Action)
    requires Inv(s) && Enabled(s, a) && a.WriteFinal?
    ensures Inv(Do(s, a))
  {
    var t := Do(s, a);
    JobUnseen(s.tables.completions, s.jobs, s.reqs, a.key, t.jobs[a.key]);
    StageMoves(s, a.key, t.jobs[a.key]);
    if a.key in s.objs { assert ObjOk(s.jobs[a.key], s.objs[a.key]); }
    ObjMoves(s.jobs, s.objs, a.key, t.jobs[a.key], t.objs);
  }

  /** A write that takes effect late only lets more answers be final. */
  lemma JobLate(completions: set<Key>, jobs: map<Key, Job>, reqs: map<nat, Request>, key: Key, job: Job)
    requires key in jobs && job.stage == jobs[key].stage && job.ended == jobs[key].ended && (Over(jobs[key]) ==> Over(job))
    requires ReadersOk(jobs, reqs) && WakesOk(completions, jobs, reqs)
    ensures ReadersOk(jobs[key := job], reqs) && WakesOk(completions, jobs[key := job], reqs)
  {
    forall rid | rid in reqs
      ensures ReaderOk(jobs[key := job], reqs[rid]) && WakeOk(completions, jobs[key := job], reqs[rid])
    {
      assert ReaderOk(jobs, reqs[rid]) && WakeOk(completions, jobs, reqs[rid]);
    }
  }

  lemma LateWriteKeeps(s: State, a: Action)
    requires Inv(s) && Enabled(s, a) && a.LateWrite?
    ensures Inv(Do(s, a))
  {
    var t := Do(s, a);
    assert ObjOk(s.jobs[a.key], s.objs[a.key]);
    JobLate(s.tables.completions, s.jobs, s.reqs, a.key, t.jobs[a.key]);
    StageMoves(s, a.key, t.jobs[a.key]);
    ObjMoves(s.jobs, s.objs, a.key, t.jobs[a.key], t.objs);
  }

  lemma DropRecordKeeps(s: State, a: Action)
    requires Inv(s) && Enabled(s, a) && a.DropRecord?
    ensures Inv(Do(s, a))
  {
    var t := Do(s, a);
    JobUnseen(s.tables.completions, s.jobs, s.reqs, a.key, t.jobs[a.key]);
    if a.key in s.objs { assert ObjOk(s.jobs[a.key], s.objs[a.key]); }
    ObjMoves(s.jobs, s.objs, a.key, t.jobs[a.key], t.objs);
    LeavesRecord(s.jobs, s.cancels, a.key, t.jobs[a.key]);
  }

  lemma NoteTables(tables: Tables, jobs: map<Key, Job>, reaped: set<Key>, notes: multiset<Key>, key: Key)
    requires TablesOk(tables, jobs, reaped) && NotesOk(jobs, notes) && At(jobs, key, HandingOff)
    ensures TablesOk(Noted(tables, key), jobs[key := jobs[key].(stage := Rousing)], reaped)
    ensures NotesOk(jobs[key := jobs[key].(stage := Rousing)], notes + multiset{key})
  {
  }

  /** A helper that sleeps when its completion is noted will be woken; none is about to sleep, as that
      takes the lock. */
  lemma NoteWakes(s: State, key: Key)
    requires Inv(s) && At(s.jobs, key, HandingOff) && s.lock.Free?
    ensures WakesOk(s.tables.completions + {key}, s.jobs[key := s.jobs[key].(stage := Rousing)], s.reqs)
  {
    forall rid | rid in s.reqs
      ensures WakeOk(s.tables.completions + {key}, s.jobs[key := s.jobs[key].(stage := Rousing)], s.reqs[rid])
    {
      assert WakeOk(s.tables.completions, s.jobs, s.reqs[rid]);
    }
  }

  lemma NoteCompletionKeeps(s: State, a: Action)
    requires Inv(s) && Enabled(s, a) && a.NoteCompletion?
    ensures Inv(Do(s, a))
  {
    var job := s.jobs[a.key].(stage := Rousing);
    NoteTables(s.tables, s.jobs, s.reaped, s.notes, a.key);
    NoteWakes(s, a.key);
    JobUnseen(s.tables.completions, s.jobs, s.reqs, a.key, job);
    if a.key in s.objs { assert ObjOk(s.jobs[a.key], s.objs[a.key]); }
    ObjMoves(s.jobs, s.objs, a.key, job, s.objs);
    LeavesRecord(s.jobs, s.cancels, a.key, job);
  }

  /** A broadcast leaves nobody asleep. */
  lemma WokenWakes(completions: set<Key>, jobs: map<Key, Job>, reqs: map<nat, Request>)
    requires WakesOk(completions, jobs, reqs)
    ensures forall jobs' :: WakesOk(completions, jobs', Woken(reqs))
  {
    forall jobs', rid | rid in reqs
      ensures WakeOk(completions, jobs', Woken(reqs)[rid])
    {
      assert WakeOk(completions, jobs, reqs[rid]);
    }
  }

  lemma DoneReaders(jobs: map<Key, Job>, reqs: map<nat, Request>, key: Key)
    requires ReadersOk(jobs, reqs) && key in jobs && jobs[key].stage.Rousing?
    ensures ReadersOk(jobs[key := jobs[key].(stage := Done)], reqs)
  {
    forall rid | rid in reqs
      ensures ReaderOk(jobs[key := jobs[key].(stage := Done)], reqs[rid])
    {
      assert ReaderOk(jobs, reqs[rid]);
    }
  }

  lemma BroadcastKeeps(s: State, a: Action)
    requires Inv(s) && Enabled(s, a) && a.Broadcast?
    ensures Inv(Do(s, a))
  {
    var job := s.jobs[a.key].(stage := Done);
    StageMoves(s, a.key, job);
    if a.key in s.objs { assert ObjOk(s.jobs[a.key], s.objs[a.key]); }
    ObjMoves(s.jobs, s.objs, a.key, job, s.objs);
    WokenLock(s.lock, s.reqs);
    WokenWakes(s.tables.completions, s.jobs, s.reqs);
    DoneReaders(s.jobs, s.reqs, a.key);
    WokenReaders(s.jobs[a.key := job], s.reqs);
  }

  lemma StatusArrivesKeeps(s: State, a: Action)
    requires Inv(s) && Enabled(s, a) && a.StatusArrives?
    ensures Inv(Do(s, a))
  {
  }

  lemma StatusAtOnceKeeps(s: State, a: Action)
    requires Inv(s) && Enabled(s, a) && a.StatusAtOnce?
    ensures Inv(Do(s, a))
  {
    ReqChange(s, a.rid, Do(s, a).reqs[a.rid]);
  }

  lemma HelperLocksKeeps(s: State, a: Action)
    requires Inv(s) && Enabled(s, a) && a.HelperLocks?
    ensures Inv(Do(s, a))
  {
    ReqChange(s, a.rid, Do(s, a).reqs[a.rid]);
  }

  /** The holder of the lock keeps it, or lets it go. */
  lemma HolderMoves(lock: Lock, reqs: map<nat, Request>, rid: nat, r: Request)
    requires LockOk(lock, reqs) && rid in reqs && Holds(reqs[rid].helper)
    ensures LockOk(if Holds(r.helper) then lock else Free, reqs[rid := r])
  {
  }

  lemma HelperChecksKeeps(s: State, a: Action)
    requires Inv(s) && Enabled(s, a) && a.HelperChecks?
    ensures Inv(Do(s, a))
  {
    var r := s.reqs[a.rid];
    assert ReaderOk(s.jobs, r);
    var r' := r.(helper := if r.key in s.tables.completions || r.timeout then Signalled else Enrolling);
    HolderMoves(s.lock, s.reqs, a.rid, r');
    ReqChange(s, a.rid, r');
    assert Do(s, a) == s.(reqs := s.reqs[a.rid := r'], lock := if Holds(r'.helper) then s.lock else Free);
  }

  lemma HelperSleepsKeeps(s: State, a: Action)
    requires Inv(s) && Enabled(s, a) && a.HelperSleeps?
    ensures Inv(Do(s, a))
  {
    ReqChange(s, a.rid, Do(s, a).reqs[a.rid]);
  }

  lemma TimerFiresKeeps(s: State, a: Action)
    requires Inv(s) && Enabled(s, a) && a.TimerFires?
    ensures Inv(Do(s, a))
  {
    ReqChange(s, a.rid, Do(s, a).reqs[a.rid]);
  }

  lemma TimeoutBroadcastKeeps(s: State, a: Action)
    requires Inv(s) && Enabled(s, a) && a.TimeoutBroadcast?
    ensures Inv(Do(s, a))
  {
    var r := s.reqs[a.rid].(reader := Rereading(false));
    assert ReaderOk(s.jobs, s.reqs[a.rid]);
    ReqChange(s, a.rid, r);
    WokenReaders(s.jobs, s.reqs[a.rid := r]);
    WokenLock(s.lock, s.reqs[a.rid := r]);
  }

  lemma ReleaseKeeps(s: State, a: Action)
    requires Inv(s) && Enabled(s, a) && a.Release?
    ensures Inv(Do(s, a))
  {
    ReqChange(s, a.rid, Do(s, a).reqs[a.rid]);
  }

  lemma RereadKeeps(s: State, a: Action)
    requires Inv(s) && Enabled(s, a) && a.Reread?
    ensures Inv(Do(s, a))
  {
    ReqChange(s, a.rid, Do(s, a).reqs[a.rid]);
  }

  lemma ReplyKeeps(s: State, a: Action)
    requires Inv(s) && Enabled(s, a) && a.Reply?
    ensures Inv(Do(s, a))
  {
    var r := s.reqs[a.rid].(reader := Replied(s.reqs[a.rid].reader.released, s.reqs[a.rid].reader.answer));
    ReqChange(s, a.rid, r);
  }

  lemma ReapMissingKeeps(s: State, a: Action)
    requires Inv(s) && Enabled(s, a) && a.ReapMissing?
    ensures Inv(Do(s, a))
  {
  }

  lemma CancelArrivesKeeps(s: State, a: Action)
    requires Inv(s) && Enabled(s, a) && a.CancelArrives?
    ensures Inv(Do(s, a))
  {
  }

  lemma CancelChecksKeeps(s: State, a: Action)
    requires Inv(s) && Enabled(s, a) && a.CancelChecks?
    ensures Inv(Do(s, a))
  {
  }

  /** A step of the thread that owns a request, or of its object. */
  predicate OfJob(a: Action) {
    a.Record? || a.ObjectDeleted? || a.SpecCancelled? || a.WriteStart? || a.DropFailed? || a.CommandEnds? ||
    a.ReadFinal? || a.Conclude? || a.WriteFinal? || a.LateWrite? || a.DropRecord? || a.NoteCompletion? || a.Broadcast?
  }

  lemma JobStepKeeps(s: State, a: Action)
    requires Inv(s) && Enabled(s, a) && OfJob(a)
    ensures Inv(Do(s, a))
  {
    match a
    case Record(_) => RecordKeeps(s, a);
    case ObjectDeleted(_) => ObjectDeletedKeeps(s, a);
    case SpecCancelled(_) => SpecCancelledKeeps(s, a);
    case WriteStart(_, _, _) => WriteStartKeeps(s, a);
    case DropFailed(_) => DropFailedKeeps(s, a);
    case CommandEnds(_) => CommandEndsKeeps(s, a);
    case ReadFinal(_, _) => ReadFinalKeeps(s, a);
    case Conclude(_, _) => ConcludeKeeps(s, a);
    case WriteFinal(_, _) => WriteFinalKeeps(s, a);
    case LateWrite(_) => LateWriteKeeps(s, a);
    case DropRecord(_) => DropRecordKeeps(s, a);
    case NoteCompletion(_) => NoteCompletionKeeps(s, a);
    case Broadcast(_) => BroadcastKeeps(s, a);
  }

  lemma ClientStepKeeps(s: State, a: Action)
    requires Inv(s) && Enabled(s, a) && !OfJob(a)
    ensures Inv(Do(s, a))
  {
    match a
    case StatusArrives(_, _) => StatusArrivesKeeps(s, a);
    case StatusAtOnce(_, _) => StatusAtOnceKeeps(s, a);
    case HelperLocks(_) => HelperLocksKeeps(s, a);
    case HelperChecks(_) => HelperChecksKeeps(s, a);
    case HelperSleeps(_) => HelperSleepsKeeps(s, a);
    case TimerFires(_) => TimerFiresKeeps(s, a);
    case TimeoutBroadcast(_) => TimeoutBroadcastKeeps(s, a);
    case Release(_) => ReleaseKeeps(s, a);
    case Reread(_) => RereadKeeps(s, a);
    case Reply(_) => ReplyKeeps(s, a);
    case ReapMissing(_) => ReapMissingKeeps(s, a);
    case CancelArrives(_, _) => CancelArrivesKeeps(s, a);
    case CancelChecks(_) => CancelChecksKeeps(s, a);
  }

  lemma StepKeeps(s: State, a: Action)
    requires Inv(s) && Enabled(s, a)
    ensures Inv(Do(s, a))
  {
    if OfJob(a) {
      JobStepKeeps(s, a);
    } else {
      ClientStepKeeps(s, a);
    }
  }

  lemma {:induction false} RunKeeps(s: State, acts: seq<Action>, t: State)
    requires Inv(s) && Steps(s, acts, t)
    ensures Inv(t)
    decreases |acts|
  {
    if acts != [] {
      StepKeeps(s, acts[0]);
      RunKeeps(Do(s, acts[0]), acts[1..], t);
    }
  }

  lemma ReachableInv(t: State)
    requires Reachable(t)
    ensures Inv(t)
  {
    var s, acts :| Init(s) && Steps(s, acts, t);
    RunKeeps(s, acts, t);
  }

  lemma {:induction false} StepsChain(r: State, acts: seq<Action>, s: State, more: seq<Action>, t: State)
    requires Steps(r, acts, s) && Steps(s, more, t)
    ensures Steps(r, acts + more, t)
    decreases |acts|
  {
    if acts == [] {
      assert acts + more == more;
    } else {
      assert (acts + more)[0] == acts[0] && (acts + more)[1..] == acts[1..] + more;
      StepsChain(Do(r, acts[0]), acts[1..], s, more, t);
    }
  }

  lemma OneStep(s: State, a: Action, t: State)
    requires Enabled(s, a) && Do(s, a) == t
    ensures Steps(s, [a], t)
  {
    assert [a][1..] == [] && Steps(t, [a][1..], t);
  }

  lemma ReachableStep(t: State, a: Action)
    requires Reachable(t) && Enabled(t, a)
    ensures Reachable(Do(t, a))
  {
    var s, acts :| Init(s) && Steps(s, acts, t);
    OneStep(t, a, Do(t, a));
    StepsChain(s, acts, t, [a], Do(t, a));
  }

  lemma ReachableRun(s: State, acts: seq<Action>, t: State)
    requires Reachable(s) && Steps(s, acts, t)
    ensures Reachable(t)
  {
    var r, before :| Init(r) && Steps(r, before, s);
    StepsChain(r, before, s, acts, t);
  }

  // ---------------------------------------------------------------- theorems

  /** No lost wake-up: once a completion is noted and its broadcast done, no helper for
      that name sleeps or is about to, as long as the completion has not been reaped. */
  lemma NoLostWakeup(s: State, rid: nat)
    requires Reachable(s) && rid in s.reqs && s.reqs[rid].key in s.tables.completions
    requires !At(s.jobs, s.reqs[rid].key, Rousing)
    ensures !s.reqs[rid].helper.Asleep? && !s.reqs[rid].helper.Enrolling?
  {
    ReachableInv(s);
    assert WakeOk(s.tables.completions, s.jobs, s.reqs[rid]);
  }

  /** A name is never in both tables; it is in `contexts` until its thread drops the
      record, and afterwards in `completions` from the notification until it is reaped. */
  lemma TablesAreDisjoint(s: State, key: Key)
    requires Reachable(s)
    ensures !(key in s.tables.contexts && key in s.tables.completions)
    ensures key in s.tables.contexts <==> key in s.jobs && OnRecord(s.jobs[key].stage)
    ensures key in s.tables.completions <==> key in s.jobs && Notified(s.jobs[key].stage) && key !in s.reaped
  {
    ReachableInv(s);
  }

  /** A request is notified at most once, exactly once when its thread has reached the
      end of the hand-off, and never when it returned early. */
  lemma NotifiedAtMostOnce(s: State, key: Key)
    requires Reachable(s)
    ensures s.notes[key] <= 1
    ensures At(s.jobs, key, Done) ==> s.notes[key] == 1
    ensures At(s.jobs, key, Abandoned) ==> s.notes[key] == 0 && key in s.tables.contexts
  {
    ReachableInv(s);
  }

  /** A cancel request answers "not found" only for a name that had not been recorded when
      it looked, one in its hand-off window, or one whose completion was reaped. */
  lemma CancelMissesOnly(s: State, cid: nat)
    requires Reachable(s) && Enabled(s, CancelChecks(cid))
    requires Do(s, CancelChecks(cid)).cancels[cid] == Settled(s.cancels[cid].key, false)
    ensures !s.cancels[cid].known || At(s.jobs, s.cancels[cid].key, HandingOff) || s.cancels[cid].key in s.reaped
  {
    ReachableInv(s);
  }

  /** A status request released by completion finds the object gone, or reports "completed" with an
      end time: always when the final status write took effect before its call returned, and
      otherwise only when it took effect later. */
  lemma ReleasedReaderLearnsTheEnd(s: State, rid: nat)
    requires Reachable(s) && rid in s.reqs
    requires s.reqs[rid].reader.Responding? || s.reqs[rid].reader.Replied?
    requires s.reqs[rid].reader.released
    ensures s.reqs[rid].key in s.jobs
    ensures s.reqs[rid].reader.answer.NotFound? ||
            ((s.jobs[s.reqs[rid].key].ended ==> IsFinal(s.reqs[rid].reader.answer)) &&
             (IsFinal(s.reqs[rid].reader.answer) ==> s.jobs[s.reqs[rid].key].ended || s.jobs[s.reqs[rid].key].late))
  {
    ReachableInv(s);
    assert ReaderOk(s.jobs, s.reqs[rid]);
  }
}

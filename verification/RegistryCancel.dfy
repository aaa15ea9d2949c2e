/** What a cancel request does to a request of the copy-offload daemon. */
module RegistryCancel {
  import opened Wrappers
  import opened StatusResponse
  import opened Registry
  import opened RegistryProofs

  /** A cancel request that finds a record cancels the context of that name and no other, and is
      answered at once; one that finds none cancels nothing. */
  lemma CancelMarks(s: State, cid: nat, key: Key)
    requires Enabled(s, CancelArrives(cid, key))
    ensures var t := Do(s, CancelArrives(cid, key));
      && t.tables.contexts == s.tables.contexts && t.tables.completions == s.tables.completions
      && (key in s.tables.contexts ==>
            t.tables.cancelled == s.tables.cancelled + {key} && t.cancels[cid] == Settled(key, true))
      && (key !in s.tables.contexts ==> t.tables.cancelled == s.tables.cancelled && t.cancels[cid] == Missed(key, key in s.jobs))
  {
  }

  /** No other step cancels a context. */
  lemma OnlyCancelMarks(s: State, a: Action, key: Key)
    requires Enabled(s, a) && key in Do(s, a).tables.cancelled && key !in s.tables.cancelled
    ensures a.CancelArrives? && a.key == key && key in s.tables.contexts
  {
  }

  /** Only dropping the record forgets that its context was cancelled. */
  lemma MarkLastsWithRecord(s: State, a: Action, key: Key)
    requires Reachable(s) && Enabled(s, a)
    requires key in s.tables.contexts && key in s.tables.cancelled && key !in Do(s, a).tables.cancelled
    ensures (a.DropRecord? || a.DropFailed?) && a.key == key && key !in Do(s, a).tables.contexts
  {
    TablesAreDisjoint(s, key);
  }

  /** The second look of a cancel request that found no record. */
  lemma CancelAnswers(s: State, cid: nat)
    requires Enabled(s, CancelChecks(cid))
    ensures Do(s, CancelChecks(cid)).cancels[cid] == Settled(s.cancels[cid].key, s.cancels[cid].key in s.tables.completions)
    ensures Do(s, CancelChecks(cid)).tables == s.tables
  {
  }

  // ---------------------------------------------------------------- a cancelled request ends as cancelled

  /** The final status has not been computed yet. */
  predicate Undecided(stage: Stage) {
    stage.Filed? || stage.Executing? || stage.Exited? || stage.Finishing?
  }

  predicate SaysCancelled(st: ApiStatus) {
    st.ended ==> st.reason == "Cancelled"
  }

  /** Whatever final status this request gets says Cancelled. */
  predicate Doomed(s: State, key: Key) {
    && key in s.jobs
    && (Undecided(s.jobs[key].stage) ==> key in s.tables.cancelled)
    && (s.jobs[key].stage.Concluded? ==> SaysCancelled(s.jobs[key].stage.final))
    && (s.jobs[key].pending.Some? ==> SaysCancelled(s.jobs[key].pending.value))
    && (key in s.objs ==> SaysCancelled(s.objs[key]))
  }

  /** A step of another request or of a client leaves this request alone. */
  lemma OthersLeaveRequest(s: State, a: Action, key: Key)
    requires Enabled(s, a) && !(OfJob(a) && a.key == key)
    ensures key in Do(s, a).jobs <==> key in s.jobs
    ensures key in s.jobs ==> Do(s, a).jobs[key] == s.jobs[key]
    ensures key in Do(s, a).objs <==> key in s.objs
    ensures key in s.objs ==> Do(s, a).objs[key] == s.objs[key]
  {
  }

  lemma OthersKeepMark(s: State, a: Action, key: Key)
    requires Enabled(s, a) && !(OfJob(a) && a.key == key)
    ensures key in s.tables.cancelled ==> key in Do(s, a).tables.cancelled
    ensures key !in s.tables.cancelled && key in Do(s, a).tables.cancelled ==> a.CancelArrives? && a.key == key && key in s.tables.contexts
  {
  }

  lemma DoomedStart(s: State, a: Action, key: Key)
    requires Inv(s) && Enabled(s, a) && a.WriteStart? && a.key == key && Doomed(s, key)
    ensures Doomed(Do(s, a), key)
  {
    if key in s.objs { assert ObjOk(s.jobs[key], s.objs[key]); }
  }

  lemma DoomedOwn(s: State, a: Action, key: Key)
    requires Enabled(s, a) && OfJob(a) && a.key == key && !a.WriteStart? && Doomed(s, key)
    ensures Doomed(Do(s, a), key)
  {
  }

  lemma DoomedStep(s: State, a: Action, key: Key)
    requires Inv(s) && Enabled(s, a) && Doomed(s, key)
    ensures Doomed(Do(s, a), key)
  {
    if !(OfJob(a) && a.key == key) {
      OthersLeaveRequest(s, a, key);
      OthersKeepMark(s, a, key);
    } else if a.WriteStart? {
      DoomedStart(s, a, key);
    } else {
      DoomedOwn(s, a, key);
    }
  }

  lemma {:induction false} DoomedRun(s: State, acts: seq<Action>, t: State, key: Key)
    requires Inv(s) && Steps(s, acts, t) && Doomed(s, key)
    ensures Inv(t) && Doomed(t, key)
    decreases |acts|
  {
    if acts != [] {
      DoomedStep(s, acts[0], key);
      StepKeeps(s, acts[0]);
      DoomedRun(Do(s, acts[0]), acts[1..], t, key);
    }
  }

  /** A request cancelled before its final status was computed never ends as anything else: in every
      continuation its object has no end time yet, or says Cancelled. */
  lemma CancelledEndsCancelled(s: State, acts: seq<Action>, t: State, key: Key)
    requires Reachable(s) && key in s.jobs && Undecided(s.jobs[key].stage) && key in s.tables.cancelled
    requires s.jobs[key].pending.None?
    requires Steps(s, acts, t) && key in t.objs
    ensures t.objs[key].ended ==> t.objs[key].reason == "Cancelled"
  {
    ReachableInv(s);
    if key in s.objs { assert ObjOk(s.jobs[key], s.objs[key]); }
    DoomedRun(s, acts, t, key);
  }

  // ---------------------------------------------------------------- and only a cancelled one does

  /** A cancel request for the name has been answered as found. */
  ghost predicate Asked(cancels: map<nat, Cancel>, key: Key) {
    exists cid :: cid in cancels && cancels[cid] == Settled(key, true)
  }

  predicate Uncancelled(st: ApiStatus) {
    st.reason != "Cancelled"
  }

  /** Nothing about the request says Cancelled. */
  predicate Unasked(s: State, key: Key) {
    && key !in s.tables.cancelled
    && (key in s.jobs && s.jobs[key].stage.Finishing? ==> Uncancelled(s.jobs[key].stage.copy))
    && (key in s.jobs && s.jobs[key].stage.Concluded? ==> Uncancelled(s.jobs[key].stage.final))
    && (key in s.jobs && s.jobs[key].pending.Some? ==> Uncancelled(s.jobs[key].pending.value))
    && (key in s.objs ==> Uncancelled(s.objs[key]))
  }

  lemma AskedStays(s: State, a: Action, key: Key)
    requires Enabled(s, a) && Asked(s.cancels, key)
    ensures Asked(Do(s, a).cancels, key)
  {
    var cid :| cid in s.cancels && s.cancels[cid] == Settled(key, true);
    assert cid in Do(s, a).cancels && Do(s, a).cancels[cid] == Settled(key, true);
  }

  lemma FoundIsAsked(s: State, a: Action, key: Key)
    requires Enabled(s, a) && a.CancelArrives? && a.key == key && key in s.tables.contexts
    ensures Asked(Do(s, a).cancels, key)
  {
    assert Do(s, a).cancels[a.cid] == Settled(key, true);
  }

  lemma UnaskedOwn(s: State, a: Action, key: Key)
    requires Enabled(s, a) && OfJob(a) && a.key == key && Unasked(s, key)
    ensures Unasked(Do(s, a), key)
  {
  }

  lemma UnaskedStep(s: State, a: Action, key: Key)
    requires Enabled(s, a) && Unasked(s, key) && !Asked(Do(s, a).cancels, key)
    ensures Unasked(Do(s, a), key)
  {
    if OfJob(a) && a.key == key {
      UnaskedOwn(s, a, key);
    } else {
      OthersLeaveRequest(s, a, key);
      OthersKeepMark(s, a, key);
      if a.CancelArrives? && key in s.tables.contexts && a.key == key {
        FoundIsAsked(s, a, key);
      }
    }
  }

  lemma {:induction false} UnaskedRun(s: State, acts: seq<Action>, t: State, key: Key)
    requires Steps(s, acts, t) && Unasked(s, key)
    ensures Asked(t.cancels, key) || Unasked(t, key)
    decreases |acts|
  {
    if acts != [] {
      var u := Do(s, acts[0]);
      if Asked(u.cancels, key) {
        AskedRun(u, acts[1..], t, key);
      } else {
        UnaskedStep(s, acts[0], key);
        UnaskedRun(u, acts[1..], t, key);
      }
    }
  }

  lemma {:induction false} AskedRun(s: State, acts: seq<Action>, t: State, key: Key)
    requires Steps(s, acts, t) && Asked(s.cancels, key)
    ensures Asked(t.cancels, key)
    decreases |acts|
  {
    if acts != [] {
      AskedStays(s, acts[0], key);
      AskedRun(Do(s, acts[0]), acts[1..], t, key);
    }
  }

  /** An object says Cancelled only if a cancel request for it has been answered as found. */
  lemma OnlyCancelledEndsCancelled(t: State, key: Key)
    requires Reachable(t) && key in t.objs && t.objs[key].reason == "Cancelled"
    ensures Asked(t.cancels, key)
  {
    var s, acts :| Init(s) && Steps(s, acts, t);
    UnaskedRun(s, acts, t, key);
  }
}

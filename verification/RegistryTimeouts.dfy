/** What becomes of the helper goroutine of a status request whose timer has fired. */
module RegistryTimeouts {
  import opened Wrappers
  import opened StatusResponse
  import opened Registry
  import opened RegistryProofs

  /** The timer has fired and the helper is not on its way to sleep: it has yet to look at the flag,
      or has been let go. */
  predicate Awake(s: State, rid: nat) {
    rid in s.reqs && s.reqs[rid].timeout &&
    (s.reqs[rid].helper.NeedsLock? || s.reqs[rid].helper.Checking? || s.reqs[rid].helper.Signalled?)
  }

  lemma AwakeStep(s: State, a: Action, rid: nat)
    requires Enabled(s, a) && Awake(s, rid)
    ensures Awake(Do(s, a), rid)
  {
  }

  lemma {:induction false} AwakeRun(s: State, acts: seq<Action>, t: State, rid: nat)
    requires Steps(s, acts, t) && Awake(s, rid)
    ensures Awake(t, rid)
    decreases |acts|
  {
    if acts != [] {
      AwakeStep(s, acts[0], rid);
      AwakeRun(Do(s, acts[0]), acts[1..], t, rid);
    }
  }

  /** A run from `s` in which the helper of `rid` falls asleep. */
  ghost predicate MaySleep(s: State, rid: nat) {
    exists acts, t :: Steps(s, acts, t) && rid in t.reqs && t.reqs[rid].helper.Asleep?
  }

  lemma EnrolledMaySleep(s: State, rid: nat)
    requires Enabled(s, HelperSleeps(rid))
    ensures MaySleep(s, rid)
  {
    var acts, t := [HelperSleeps(rid)], Do(s, HelperSleeps(rid));
    assert Steps(t, acts[1..], t);
    assert Steps(s, acts, t);
  }

  lemma AwakeNeverSleeps(s: State, rid: nat)
    requires Awake(s, rid)
    ensures !MaySleep(s, rid)
  {
    forall acts, t | Steps(s, acts, t)
      ensures Awake(t, rid)
    {
      AwakeRun(s, acts, t, rid);
    }
  }

  /** The helper of a request that timed out can be asleep after its own broadcast exactly when it was
      about to sleep at that broadcast: it had seen the flag unset, and the broadcast does not take
      the lock. */
  lemma SleepsPastTimeout(s: State, rid: nat)
    requires Reachable(s) && Enabled(s, TimeoutBroadcast(rid))
    ensures MaySleep(Do(s, TimeoutBroadcast(rid)), rid) <==> s.reqs[rid].helper.Enrolling?
  {
    ReachableInv(s);
    assert ReaderOk(s.jobs, s.reqs[rid]);
    if s.reqs[rid].helper.Enrolling? {
      EnrolledMaySleep(Do(s, TimeoutBroadcast(rid)), rid);
    } else {
      AwakeNeverSleeps(Do(s, TimeoutBroadcast(rid)), rid);
    }
  }

  function Lone(request: Request, lock: Lock): State {
    State(Tables({"k"}, {}, {}), lock, map["k" := Untouched], map["k" := Job(Filed, false, false, None)],
          map[0 := request], map[], {}, multiset{})
  }

  function Alone(): State {
    State(Tables({"k"}, {}, {}), Free, map["k" := Untouched], map["k" := Job(Filed, false, false, None)],
          map[], map[], {}, multiset{})
  }

  lemma AloneIsReachable()
    ensures Reachable(Alone())
  {
    var s0 := State(Tables({}, {}, {}), Free, map[], map[], map[], map[], {}, multiset{});
    assert Steps(s0, [], s0);
    ReachableStep(s0, Record("k"));
    assert Do(s0, Record("k")) == Alone();
  }

  /** The request arrives after its name has been recorded. */
  lemma LoneArrives()
    ensures Reachable(Lone(Request("k", Waiting, NeedsLock, false), Free))
  {
    AloneIsReachable();
    ReachableStep(Alone(), StatusArrives(0, "k"));
    assert Do(Alone(), StatusArrives(0, "k")) == Lone(Request("k", Waiting, NeedsLock, false), Free);
  }

  lemma LoneStep(r: Request, lock: Lock, a: Action, r': Request, lock': Lock)
    requires Reachable(Lone(r, lock)) && Enabled(Lone(r, lock), a)
    requires a.HelperLocks? || a.HelperChecks? || a.HelperSleeps? || a.TimerFires? || a.TimeoutBroadcast?
    requires Do(Lone(r, lock), a).reqs == map[0 := r'] && Do(Lone(r, lock), a).lock == lock'
    ensures Reachable(Lone(r', lock'))
  {
    ReachableStep(Lone(r, lock), a);
    assert Do(Lone(r, lock), a) == Lone(r', lock');
  }

  lemma HelperLooks()
    ensures Reachable(Lone(Request("k", Waiting, Checking, false), HeldBy(0)))
  {
    LoneArrives();
    LoneStep(Request("k", Waiting, NeedsLock, false), Free, HelperLocks(0),
             Request("k", Waiting, Checking, false), HeldBy(0));
  }

  /** Its helper finds nothing and is about to sleep. */
  lemma HelperEnrols()
    ensures Reachable(Lone(Request("k", Waiting, Enrolling, false), HeldBy(0)))
  {
    HelperLooks();
    LoneStep(Request("k", Waiting, Checking, false), HeldBy(0), HelperChecks(0),
             Request("k", Waiting, Enrolling, false), HeldBy(0));
  }

  lemma TimerComesFirst()
    ensures Reachable(Lone(Request("k", TimedOut, Enrolling, true), HeldBy(0)))
  {
    HelperEnrols();
    LoneStep(Request("k", Waiting, Enrolling, false), HeldBy(0), TimerFires(0),
             Request("k", TimedOut, Enrolling, true), HeldBy(0));
  }

  /** The timer fires and broadcasts before it sleeps. */
  lemma BroadcastComesFirst()
    ensures Reachable(Lone(Request("k", Rereading(false), Enrolling, true), HeldBy(0)))
  {
    TimerComesFirst();
    LoneStep(Request("k", TimedOut, Enrolling, true), HeldBy(0), TimeoutBroadcast(0),
             Request("k", Rereading(false), Enrolling, true), HeldBy(0));
  }

  /** It happens: a helper sleeps although its request has timed out and has done its broadcast. */
  lemma HelperSleepsOn()
    ensures exists s :: Reachable(s) && 0 in s.reqs && s.reqs[0].helper.Asleep? && s.reqs[0].timeout && s.reqs[0].reader.Rereading?
  {
    BroadcastComesFirst();
    var r := Request("k", Rereading(false), Asleep, true);
    LoneStep(Request("k", Rereading(false), Enrolling, true), HeldBy(0), HelperSleeps(0), r, Free);
    assert Lone(r, Free).reqs[0] == r;
  }
}

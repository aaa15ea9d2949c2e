/** What the threads of the copy-offload daemon bring about when they are left alone. */
module RegistryDelivery {
  import opened Wrappers
  import opened StatusResponse
  import opened Registry
  import opened RegistryProofs

  lemma Then(r: State, acts: seq<Action>, s: State, a: Action) returns (all: seq<Action>, t: State)
    requires Steps(r, acts, s) && Enabled(s, a)
    ensures t == Do(s, a) && Steps(r, all, t) && |all| == |acts| + 1
  {
    t := Do(s, a);
    OneStep(s, a, t);
    StepsChain(r, acts, s, [a], t);
    all := acts + [a];
  }

  // ---------------------------------------------------------------- a request is carried out

  /** The start of a recorded request is written, and its command runs. */
  lemma RequestStarts(s: State, key: Key)
    requires At(s.jobs, key, Filed) && key in s.objs
    ensures Enabled(s, WriteStart(key, true, false))
    ensures var t := Do(s, WriteStart(key, true, false));
      && At(t.jobs, key, Executing) && t.tables == s.tables
      && t.objs == s.objs[key := s.objs[key].(state := "Running", started := true)]
  {
  }

  lemma FailedStartIsDropped(s: State, key: Key, landed: bool) returns (t: State)
    requires At(s.jobs, key, Filed) && s.lock.Free? && (landed ==> key in s.objs)
    ensures Steps(s, [WriteStart(key, landed, true), DropFailed(key)], t)
    ensures At(t.jobs, key, HandingOff) && t.lock.Free? && t.jobs[key].ended == s.jobs[key].ended
    ensures t.tables.contexts == s.tables.contexts - {key}
  {
    var acts, u := Then(s, [], s, WriteStart(key, landed, true));
    OneStep(u, DropFailed(key), Do(u, DropFailed(key)));
    t := Do(u, DropFailed(key));
    assert [WriteStart(key, landed, true), DropFailed(key)][1..] == [DropFailed(key)];
  }

  /** A start that cannot be written runs no command: the request goes straight to its hand-off. */
  lemma FailedStartRunsNothing(s: State, key: Key, landed: bool) returns (acts: seq<Action>, t: State)
    requires At(s.jobs, key, Filed) && s.lock.Free? && (landed ==> key in s.objs)
    ensures Steps(s, acts, t) && acts == [WriteStart(key, landed, true), DropFailed(key), NoteCompletion(key), Broadcast(key)]
    ensures At(t.jobs, key, Done) && t.jobs[key].ended == s.jobs[key].ended
    ensures key in t.tables.completions && key !in t.tables.contexts
  {
    var w := FailedStartIsDropped(s, key, landed);
    t := HandedOff(w, key);
    var first := [WriteStart(key, landed, true), DropFailed(key)];
    StepsChain(s, first, w, [NoteCompletion(key), Broadcast(key)], t);
    acts := first + [NoteCompletion(key), Broadcast(key)];
  }

  lemma CompletionNoted(s: State, key: Key)
    requires At(s.jobs, key, HandingOff) && s.lock.Free?
    ensures Enabled(s, NoteCompletion(key))
    ensures Do(s, NoteCompletion(key)) ==
      s.(jobs := s.jobs[key := s.jobs[key].(stage := Rousing)],
         tables := s.tables.(completions := s.tables.completions + {key}), notes := s.notes + multiset{key})
  {
  }

  lemma EverybodyWoken(s: State, key: Key)
    requires At(s.jobs, key, Rousing)
    ensures Enabled(s, Broadcast(key))
    ensures var t := Do(s, Broadcast(key));
      && t == s.(jobs := s.jobs[key := s.jobs[key].(stage := Done)], reqs := t.reqs)
      && t.reqs.Keys == s.reqs.Keys
      && forall rid :: rid in t.reqs ==> !t.reqs[rid].helper.Asleep? && t.reqs[rid].reader == s.reqs[rid].reader
  {
  }

  /** The second half of the hand-off: the completion is noted and every waiter is woken. */
  lemma HandedOff(s: State, key: Key) returns (t: State)
    requires At(s.jobs, key, HandingOff) && s.lock.Free?
    ensures Steps(s, [NoteCompletion(key), Broadcast(key)], t)
    ensures t.jobs == s.jobs[key := s.jobs[key].(stage := Done)] && t.objs == s.objs
    ensures t.tables.completions == s.tables.completions + {key} && t.tables.contexts == s.tables.contexts
    ensures t.reqs.Keys == s.reqs.Keys
    ensures forall rid :: rid in t.reqs ==> !t.reqs[rid].helper.Asleep? && t.reqs[rid].reader == s.reqs[rid].reader
  {
    CompletionNoted(s, key);
    var u := Do(s, NoteCompletion(key));
    EverybodyWoken(u, key);
    t := Do(u, Broadcast(key));
    OneStep(u, Broadcast(key), t);
    assert [NoteCompletion(key), Broadcast(key)][1..] == [Broadcast(key)];
  }

  /** How the end of a command is told. */
  function ToldReason(cancelled: bool, failed: bool): string {
    if cancelled then "Cancelled" else if failed then "Failed" else "Success"
  }

  lemma EndRecorded(s: State, key: Key, failed: bool) returns (acts: seq<Action>, t: State)
    requires At(s.jobs, key, Executing) && key in s.objs
    ensures Steps(s, acts, t) && |acts| == 4
    ensures At(t.jobs, key, Written) && t.jobs[key].ended && t.tables == s.tables && t.reqs == s.reqs && t.lock == s.lock
    ensures t.objs == s.objs[key := s.objs[key].(state := "Finished", ended := true, reason := ToldReason(key in s.tables.cancelled, failed))]
  {
    acts := [];
    var u := s;
    acts, u := Then(s, acts, u, CommandEnds(key));
    acts, u := Then(s, acts, u, ReadFinal(key, false));
    acts, u := Then(s, acts, u, Conclude(key, failed));
    acts, t := Then(s, acts, u, WriteFinal(key, true));
  }

  /** A running request comes to its end: its object says finished, with an end time and how it ended,
      its record is gone, its completion is noted, and nobody is left asleep. */
  lemma RequestIsCarriedOut(s: State, key: Key, failed: bool) returns (acts: seq<Action>, t: State)
    requires At(s.jobs, key, Executing) && key in s.objs && s.lock.Free?
    ensures Steps(s, acts, t) && |acts| == 7
    ensures At(t.jobs, key, Done) && t.jobs[key].ended
    ensures t.tables.contexts == s.tables.contexts - {key} && t.tables.completions == s.tables.completions + {key}
    ensures t.objs == s.objs[key := s.objs[key].(state := "Finished", ended := true, reason := ToldReason(key in s.tables.cancelled, failed))]
    ensures forall rid :: rid in t.reqs ==> !t.reqs[rid].helper.Asleep?
  {
    var u, w;
    acts, u := EndRecorded(s, key, failed);
    acts, w := Then(s, acts, u, DropRecord(key));
    t := HandedOff(w, key);
    StepsChain(s, acts, w, [NoteCompletion(key), Broadcast(key)], t);
    acts := acts + [NoteCompletion(key), Broadcast(key)];
  }

  // ---------------------------------------------------------------- a request is abandoned

  /** An object that cannot be read at the end makes the thread return, and leaves the record. */
  lemma UnreadableIsAbandoned(s: State, key: Key)
    requires At(s.jobs, key, Exited)
    ensures Enabled(s, ReadFinal(key, true))
    ensures At(Do(s, ReadFinal(key, true)).jobs, key, Abandoned) && Do(s, ReadFinal(key, true)).tables == s.tables
  {
  }

  lemma AbandonedStep(s: State, a: Action, key: Key)
    requires Enabled(s, a) && At(s.jobs, key, Abandoned)
    ensures At(Do(s, a).jobs, key, Abandoned)
  {
  }

  /** It stays so for ever: the name is cancellable in every continuation, and never notified. */
  lemma {:induction false} AbandonedForGood(s: State, acts: seq<Action>, t: State, key: Key)
    requires Reachable(s) && At(s.jobs, key, Abandoned) && Steps(s, acts, t)
    ensures At(t.jobs, key, Abandoned) && key in t.tables.contexts && t.notes[key] == 0
    decreases |acts|
  {
    if acts == [] {
      NotifiedAtMostOnce(s, key);
    } else {
      AbandonedStep(s, acts[0], key);
      ReachableStep(s, acts[0]);
      AbandonedForGood(Do(s, acts[0]), acts[1..], t, key);
    }
  }

  // ---------------------------------------------------------------- a status request is answered

  /** A reply with a final answer reaps the completion of that name, any other reply leaves the tables. */
  lemma ReplyReaps(s: State, rid: nat)
    requires Enabled(s, Reply(rid))
    ensures var r, t := s.reqs[rid], Do(s, Reply(rid));
      && t.tables.contexts == s.tables.contexts && t.reqs[rid].reader == Replied(r.reader.released, r.reader.answer)
      && t.tables.completions == (if IsFinal(r.reader.answer) then s.tables.completions - {r.key} else s.tables.completions)
  {
  }

  /** A name whose object is gone is reaped by whoever asks for it. */
  lemma MissingIsReaped(s: State, key: Key)
    requires key !in s.objs && s.lock.Free?
    ensures Enabled(s, ReapMissing(key)) && key !in Do(s, ReapMissing(key)).tables.completions
  {
  }

  /** A request that does not wait is answered from the object as it is. */
  lemma AtOnceIsAnswered(s: State, rid: nat, key: Key)
    requires rid !in s.reqs && key in s.objs
    ensures Enabled(s, StatusAtOnce(rid, key))
    ensures var t := Do(s, StatusAtOnce(rid, key));
      rid in t.reqs && t.reqs[rid].reader == Responding(false, Build(s.objs[key])) && t.tables == s.tables && t.lock == s.lock
  {
  }

  lemma SleeperLetsGo(s: State, h: nat) returns (acts: seq<Action>, t: State)
    requires h in s.reqs && s.reqs[h].helper.Enrolling?
    ensures Steps(s, acts, t) && |acts| == 1
    ensures t == s.(lock := Free, reqs := s.reqs[h := s.reqs[h].(helper := Asleep)])
  {
    acts, t := Then(s, [], s, HelperSleeps(h));
  }

  lemma CheckerMoves(s: State, h: nat) returns (acts: seq<Action>, t: State)
    requires h in s.reqs && s.reqs[h].helper.Checking?
    ensures Steps(s, acts, t) && |acts| == 1
    ensures var found := s.reqs[h].key in s.tables.completions || s.reqs[h].timeout;
      t == s.(lock := if found then Free else s.lock, reqs := s.reqs[h := s.reqs[h].(helper := if found then Signalled else Enrolling)])
  {
    acts, t := Then(s, [], s, HelperChecks(h));
  }

  /** Whoever holds the lock can let go of it in at most two steps, without a change to the others. */
  lemma LockIsFreed(s: State, rid: nat) returns (acts: seq<Action>, t: State)
    requires Reachable(s) && rid in s.reqs && !Holds(s.reqs[rid].helper)
    ensures Steps(s, acts, t) && |acts| <= 2
    ensures t.lock.Free? && rid in t.reqs && t.reqs[rid] == s.reqs[rid]
    ensures t.tables == s.tables && t.jobs == s.jobs && t.objs == s.objs
  {
    if s.lock.Free? {
      return [], s;
    }
    ReachableInv(s);
    var h := s.lock.rid;
    if s.reqs[h].helper.Enrolling? {
      acts, t := SleeperLetsGo(s, h);
    } else {
      var u, more;
      acts, u := CheckerMoves(s, h);
      if u.lock.Free? {
        return acts, u;
      }
      more, t := SleeperLetsGo(u, h);
      StepsChain(s, acts, u, more, t);
      acts := acts + more;
    }
  }

  /** The helper of a name that has been noted finds it and lets its reader go. */
  lemma HelperFinds(s: State, rid: nat) returns (acts: seq<Action>, t: State)
    requires rid in s.reqs && s.reqs[rid].reader.Waiting? && s.reqs[rid].key in s.tables.completions
    requires (s.reqs[rid].helper.NeedsLock? && s.lock.Free?) || s.reqs[rid].helper.Checking?
    ensures Steps(s, acts, t) && |acts| <= 2
    ensures t.lock.Free? && t.reqs == s.reqs[rid := s.reqs[rid].(helper := Signalled)]
    ensures t.tables == s.tables && t.jobs == s.jobs && t.objs == s.objs
  {
    acts, t := [], s;
    if s.reqs[rid].helper.NeedsLock? {
      acts, t := Then(s, acts, t, HelperLocks(rid));
    }
    acts, t := Then(s, acts, t, HelperChecks(rid));
  }

  /** The answer that an object gives, or the lack of one. */
  function AnswerOf(objs: map<Key, ApiStatus>, key: Key): Answer {
    if key in objs then Build(objs[key]) else NotFound
  }

  /** A reader that was let go reads the object again and replies with what it says. */
  lemma ReaderReplies(s: State, rid: nat) returns (acts: seq<Action>, t: State)
    requires rid in s.reqs && s.reqs[rid].reader.Rereading? && s.lock.Free?
    ensures Steps(s, acts, t) && |acts| == 2
    ensures rid in t.reqs && t.reqs[rid].reader == Replied(s.reqs[rid].reader.released, AnswerOf(s.objs, s.reqs[rid].key))
  {
    acts, t := Then(s, [], s, Reread(rid));
    acts, t := Then(s, acts, t, Reply(rid));
  }

  lemma ReaderGoes(s: State, rid: nat) returns (acts: seq<Action>, t: State)
    requires rid in s.reqs && s.reqs[rid].reader.Waiting? && s.reqs[rid].helper.Signalled? && s.lock.Free?
    ensures Steps(s, acts, t) && |acts| == 3
    ensures rid in t.reqs && t.reqs[rid].reader == Replied(true, AnswerOf(s.objs, s.reqs[rid].key))
  {
    var u, more;
    acts, u := Then(s, [], s, Release(rid));
    more, t := ReaderReplies(u, rid);
    StepsChain(s, acts, u, more, t);
    acts := acts + more;
  }

  lemma HelperIsSignalled(s: State, rid: nat) returns (acts: seq<Action>, t: State)
    requires Reachable(s) && rid in s.reqs && s.reqs[rid].reader.Waiting?
    requires s.reqs[rid].key in s.tables.completions && !At(s.jobs, s.reqs[rid].key, Rousing)
    ensures Steps(s, acts, t) && |acts| <= 4
    ensures t.lock.Free? && rid in t.reqs && t.reqs[rid] == s.reqs[rid].(helper := Signalled) && t.objs == s.objs
  {
    NoLostWakeup(s, rid);
    ReachableInv(s);
    assert ReaderOk(s.jobs, s.reqs[rid]);
    if s.reqs[rid].helper.Checking? {
      acts, t := HelperFinds(s, rid);
      return;
    }
    var u;
    acts, u := LockIsFreed(s, rid);
    if s.reqs[rid].helper.Signalled? {
      return acts, u;
    }
    var more;
    more, t := HelperFinds(u, rid);
    StepsChain(s, acts, u, more, t);
    acts := acts + more;
  }

  /** A waiting status request of a name that has been notified can always be answered, in at most seven
      steps of the helpers and its own, with what its object then says. */
  lemma WaiterIsAnswered(s: State, rid: nat) returns (acts: seq<Action>, t: State)
    requires Reachable(s) && rid in s.reqs && s.reqs[rid].reader.Waiting?
    requires s.reqs[rid].key in s.tables.completions && !At(s.jobs, s.reqs[rid].key, Rousing)
    ensures Steps(s, acts, t) && |acts| <= 7
    ensures rid in t.reqs && t.reqs[rid].reader == Replied(true, AnswerOf(s.objs, s.reqs[rid].key))
  {
    var u, more;
    acts, u := HelperIsSignalled(s, rid);
    more, t := ReaderGoes(u, rid);
    StepsChain(s, acts, u, more, t);
    acts := acts + more;
  }

  lemma TimesOut(s: State, rid: nat) returns (acts: seq<Action>, t: State)
    requires rid in s.reqs && s.reqs[rid].reader.Waiting?
    ensures Steps(s, acts, t) && |acts| == 2
    ensures rid in t.reqs && t.reqs[rid].reader == Rereading(false) && t.reqs[rid].key == s.reqs[rid].key
    ensures t.objs == s.objs && t.lock == s.lock
  {
    acts, t := Then(s, [], s, TimerFires(rid));
    acts, t := Then(s, acts, t, TimeoutBroadcast(rid));
  }

  /** A status request that times out is answered too, whatever its helper does. */
  lemma TimeoutIsAnswered(s: State, rid: nat) returns (acts: seq<Action>, t: State)
    requires rid in s.reqs && s.reqs[rid].reader.Waiting? && s.lock.Free?
    ensures Steps(s, acts, t) && |acts| == 4
    ensures rid in t.reqs && t.reqs[rid].reader == Replied(false, AnswerOf(s.objs, s.reqs[rid].key))
  {
    var u, more;
    acts, u := TimesOut(s, rid);
    more, t := ReaderReplies(u, rid);
    StepsChain(s, acts, u, more, t);
    acts := acts + more;
  }
}

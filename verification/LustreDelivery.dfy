/** What the steps of a manager pass bring about when nobody interferes. */
module LustreDelivery {
  import opened Wrappers
  import opened Lustre
  import opened LustreProofs

  lemma OneStep(s: State, a: Action, t: State)
    requires Enabled(s, a) && Do(s, a) == t
    ensures Steps(s, [a], t)
  {
    assert [a][1..] == [] && Steps(t, [a][1..], t);
  }

  /** The list shows the file system as it now is. */
  predicate ShownNow(view: View, fss: map<Uid, History>, uid: Uid, fs: Fs) {
    uid in view && uid in fss && view[uid].v + 1 == |fss[uid]| && view[uid].fs == fs
  }

  // ---------------------------------------------------------------- pinning

  /** A pass begins with every listed file system still to be handled. */
  lemma PassBegins(s: State, view: View)
    requires Enabled(s, Begin(view))
    ensures var t := Do(s, Begin(view)); t.pass == Pinning(view, view.Keys) && t.fss == s.fss && t.templates == s.templates
  {
  }

  /** A live file system that has not changed since it was listed gets the finalizer, and nothing else
      of it changes; one that is being deleted gets none. */
  lemma PinIsDelivered(s: State, uid: Uid, fs: Fs)
    requires s.pass.Pinning? && uid in s.pass.todo && ShownNow(s.pass.first, s.fss, uid, fs)
    ensures Enabled(s, Pin(uid, true, true))
    ensures var t := Do(s, Pin(uid, true, true));
      && t.fss == s.fss[uid := t.fss[uid]] && Now(t.fss[uid]) == Some(if fs.deleting then fs else fs.(dmFin := true))
      && t.pass == Pinning(s.pass.first, s.pass.todo - {uid})
  {
  }

  // ---------------------------------------------------------------- the template

  predicate Live(view: View, uid: Uid) {
    uid in view && !view[uid].fs.deleting
  }

  /** When the pass goes on after the template, the template mounts exactly the live file systems of its
      second list, each under its name. */
  lemma TemplateMountsTheLive(s: State, a: Action, uid: Uid)
    requires s.pass.Templating? && Enabled(s, a) && Do(s, a).pass.Templated?
    ensures Mounts(Template(Do(s, a).templates), uid) <==> Live(s.pass.second, uid)
    ensures forall vol :: vol in Template(Do(s, a).templates) ==>
      Live(s.pass.second, vol.uid) && vol.name == s.pass.second[vol.uid].fs.name
  {
    var vols := Template(Do(s, a).templates);
    assert vols == Volumes(s.pass.second);
    if Live(s.pass.second, uid) {
      assert Vol(s.pass.second[uid].fs.name, uid) in vols;
    }
  }

  /** The template can always be written, and then a worker that starts once it has been observed runs
      it. */
  lemma TemplateIsWritten(s: State)
    requires s.pass.Templating?
    ensures Enabled(s, WriteTemplate(true, true))
    ensures var t := Do(s, WriteTemplate(true, true));
      && t.pass.Templated? && t.fss == s.fss && t.cluster == s.cluster
      && |t.templates| == |s.templates| + 1 && |t.ds| == |s.ds| + 1
      && t.ds[|s.ds|].gen == |s.templates| && t.dsFrom == |s.ds|
  {
  }

  // ---------------------------------------------------------------- releasing

  /** No deleting file system of the list has its name in the template. */
  predicate Unblocked(third: View, vols: set<Vol>) {
    forall uid, vol :: uid in third && third[uid].fs.deleting && vol in vols ==> vol.name != third[uid].fs.name
  }

  lemma Compared(s: State, uid: Uid)
    requires s.pass.Releasing? && s.ds != [] && Unblocked(s.pass.third, Template(s.templates))
    requires uid in s.pass.third && s.pass.third[uid].fs.deleting
    ensures Enabled(s, Compare)
    ensures var t := Do(s, Compare);
      && t == s.(pass := t.pass) && t.pass.Releasable?
      && (forall u :: u in t.pass.picks <==> u in s.pass.third && s.pass.third[u].fs.deleting)
      && (forall u :: u in t.pass.picks ==> t.pass.picks[u] == s.pass.third[u])
  {
    assert uid in Doomed(s.pass.third);
    assert !Blocked(s.pass.third, Template(s.templates));
  }

  lemma ReadyGoesOn(s: State, i: nat)
    requires s.pass.Releasable? && s.dsFrom <= i < |s.ds| && Ready(s.ds[i])
    ensures Enabled(s, CheckReady(i))
    ensures var t := Do(s, CheckReady(i));
      && t == s.(pass := t.pass) && t.pass.Unpinning? && t.pass.picks == s.pass.picks
      && forall u :: u in t.pass.left <==> u in s.pass.picks && s.pass.picks[u].fs.dmFin
  {
  }

  lemma UnpinIsDelivered(s: State, uid: Uid, fs: Fs)
    requires s.pass.Unpinning? && uid in s.pass.left && ShownNow(s.pass.picks, s.fss, uid, fs) && fs.deleting
    ensures Enabled(s, Unpin(uid, true, true))
    ensures var t := Do(s, Unpin(uid, true, true));
      && t.fss == s.fss[uid := s.fss[uid] + [if fs.otherFin then Some(fs.(dmFin := false)) else None]]
      && t.released == s.released + {uid} && t.pass == Unpinning(s.pass.picks, s.pass.left - {uid})
  {
  }

  /** A deleting file system that nothing blocks is released: when the list shows it as it is and the
      DaemonSet is ready, three steps of the pass take its finalizer away, and it is gone unless another
      finalizer holds it.  No other file system changes. */
  lemma ReleaseIsDelivered(s: State, uid: Uid, fs: Fs, i: nat) returns (acts: seq<Action>, t: State)
    requires Reachable(s) && s.pass.Releasing? && Unblocked(s.pass.third, Template(s.templates))
    requires s.dsFrom <= i < |s.ds| && Ready(s.ds[i])
    requires ShownNow(s.pass.third, s.fss, uid, fs) && fs.deleting && fs.dmFin
    ensures Steps(s, acts, t) && acts == [Compare, CheckReady(i), Unpin(uid, true, true)]
    ensures !Carries(t.fss, uid) && uid in t.released
    ensures t.fss == s.fss[uid := s.fss[uid] + [if fs.otherFin then Some(fs.(dmFin := false)) else None]]
  {
    Compared(s, uid);
    var u := Do(s, Compare);
    ReadyGoesOn(u, i);
    var v := Do(u, CheckReady(i));
    UnpinIsDelivered(v, uid, fs);
    t := Do(v, Unpin(uid, true, true));
    acts := [Compare, CheckReady(i), Unpin(uid, true, true)];
    Chain3(s, acts[0], u, acts[1], v, acts[2], t);
  }

  lemma Chain3(s: State, a: Action, u: State, b: Action, v: State, c: Action, t: State)
    requires Enabled(s, a) && Do(s, a) == u && Enabled(u, b) && Do(u, b) == v && Enabled(v, c) && Do(v, c) == t
    ensures Steps(s, [a, b, c], t)
  {
    OneStep(v, c, t);
    assert [a, b, c][1..][1..] == [c];
    assert Steps(u, [a, b, c][1..], t);
  }

  /** Nothing is released while the DaemonSet is not ready, or when nothing is being deleted. */
  lemma NothingIsReleased(s: State, a: Action)
    requires Enabled(s, a)
    requires || (a.CheckReady? && !Ready(s.ds[a.i]))
             || (a.Compare? && forall uid :: uid in s.pass.third ==> !s.pass.third[uid].fs.deleting)
    ensures Do(s, a) == s.(pass := Resting)
  {
    if a.Compare? {
      assert Doomed(s.pass.third) == map[];
    }
  }
}

/** What every step of the Lustre finalizer protocol keeps, and what follows for every run. */
module LustreProofs {
  import opened Wrappers
  import opened Lustre

  // ---------------------------------------------------------------- invariant

  predicate Dying(o: Option<Fs>) {
    o.Some? ==> o.value.deleting
  }

  /** Deletion is never taken back, names never change, and what is gone stays gone. */
  ghost predicate Orderly(h: History) {
    h != [] &&
    forall i, j :: 0 <= i <= j < |h| ==>
      (Dying(h[i]) ==> Dying(h[j])) && (h[j].Some? ==> h[i].Some? && h[i].value.name == h[j].value.name)
  }

  /** Only the manager removes the finalizer. */
  ghost predicate Sticky(h: History) {
    forall i :: 0 <= i < |h| && h[i].Some? && h[i].value.dmFin ==> Now(h).Some? && Now(h).value.dmFin
  }

  /** The finalizer has never been there. */
  ghost predicate NeverPinned(h: History) {
    forall i :: 0 <= i < |h| && h[i].Some? ==> !h[i].value.dmFin
  }

  ghost predicate FsOk(seen: map<Uid, nat>, released: set<Uid>, uid: Uid, h: History) {
    && Orderly(h)
    && (uid !in released ==> Sticky(h))
    && (uid !in seen ==> NeverPinned(h))
    && (uid in seen ==> seen[uid] < |h|)
    && (uid in released ==> uid in seen && seen[uid] < |h| && Dying(h[seen[uid]]))
  }

  ghost predicate FssOk(fss: map<Uid, History>, seen: map<Uid, nat>, released: set<Uid>) {
    && (forall uid :: uid in fss ==> FsOk(seen, released, uid, fss[uid]))
    && (forall uid :: uid in seen || uid in released ==> uid in fss)
  }

  ghost predicate VolOk(fss: map<Uid, History>, vol: Vol) {
    vol.uid in fss && |fss[vol.uid]| > 0 && fss[vol.uid][0].Some? && fss[vol.uid][0].value.name == vol.name
  }

  ghost predicate VolsOk(fss: map<Uid, History>, vols: set<Vol>) {
    forall vol :: vol in vols ==> VolOk(fss, vol)
  }

  ghost predicate TemplatesOk(fss: map<Uid, History>, templates: seq<set<Vol>>, ds: seq<DaemonSet>, dsFrom: nat) {
    && templates != []
    && (forall g :: 0 <= g < |templates| ==> VolsOk(fss, templates[g]))
    && (ds == [] ==> dsFrom == 0)
    && (ds != [] ==> dsFrom < |ds|)
    && (forall i :: dsFrom <= i < |ds| ==> ds[i].gen == |templates| - 1)
  }

  ghost predicate ClusterOk(templates: seq<set<Vol>>, c: Cluster) {
    && c.observed < |templates|
    && c.pods.Keys <= c.nodes
    && (forall n :: n in c.pods ==> c.pods[n].gen <= c.observed)
  }

  /** Every worker pod runs the current template, and so will new ones. */
  predicate RolledOut(templates: seq<set<Vol>>, c: Cluster) {
    c.observed == |templates| - 1 && forall n :: n in c.pods ==> c.pods[n].gen == |templates| - 1
  }

  ghost predicate StatusOk(templates: seq<set<Vol>>, ds: seq<DaemonSet>, dsFrom: nat, c: Cluster) {
    forall i :: dsFrom <= i < |ds| ==>
      ds[i].status.observed <= c.observed && (Ready(ds[i]) ==> RolledOut(templates, c))
  }

  /** No worker mounts it, nor will one that starts from any template still in use. */
  predicate Unmounted(templates: seq<set<Vol>>, c: Cluster, uid: Uid) {
    && (forall g :: c.observed <= g < |templates| ==> !Mounts(templates[g], uid))
    && (forall n :: n in c.pods && c.pods[n].gen < |templates| ==> !Mounts(templates[c.pods[n].gen], uid))
  }

  ghost predicate SafeOk(templates: seq<set<Vol>>, c: Cluster, released: set<Uid>) {
    forall uid :: uid in released ==> Unmounted(templates, c, uid)
  }

  ghost predicate ItemOk(fss: map<Uid, History>, seen: map<Uid, nat>, uid: Uid, item: Item) {
    && uid in fss && item.v < |fss[uid]| && fss[uid][item.v] == Some(item.fs)
    && uid in seen && item.v <= seen[uid]
  }

  ghost predicate ViewOk(fss: map<Uid, History>, seen: map<Uid, nat>, view: View) {
    forall uid :: uid in view ==> ItemOk(fss, seen, uid, view[uid])
  }

  predicate Carries(fss: map<Uid, History>, uid: Uid) {
    uid in fss && Now(fss[uid]).Some? && Now(fss[uid]).value.dmFin
  }

  /** The live file systems of the first list that have been handled carry the finalizer;
      a file system that is not on the list is gone or unknown. */
  ghost predicate FirstOk(fss: map<Uid, History>, seen: map<Uid, nat>, released: set<Uid>, first: View, todo: set<Uid>) {
    && ViewOk(fss, seen, first)
    && (forall uid :: uid in first && uid !in todo && !first[uid].fs.deleting ==> Carries(fss, uid))
    && (forall uid :: uid in first && !first[uid].fs.deleting ==> uid !in released)
    && (forall uid :: uid in seen && uid !in first ==> uid in fss && seen[uid] < |fss[uid]| && fss[uid][seen[uid]].None?)
  }

  ghost predicate SecondOk(fss: map<Uid, History>, seen: map<Uid, nat>, released: set<Uid>, first: View, second: View) {
    && ViewOk(fss, seen, second)
    && (forall uid :: uid in second && !second[uid].fs.deleting ==>
          && uid !in released
          && (if uid in first then Carries(fss, uid) else NeverPinned(fss[uid])))
  }

  ghost predicate PicksOk(fss: map<Uid, History>, seen: map<Uid, nat>, templates: seq<set<Vol>>, picks: View) {
    && ViewOk(fss, seen, picks)
    && (forall uid :: uid in picks ==> picks[uid].fs.deleting && !Mounts(Template(templates), uid))
  }

  ghost predicate PassOk(s: State) {
    match s.pass
    case Resting => true
    case Pinning(first, todo) => FirstOk(s.fss, s.seen, s.released, first, todo)
    case Pinned(first) => FirstOk(s.fss, s.seen, s.released, first, {})
    case Templating(first, second) => SecondOk(s.fss, s.seen, s.released, first, second)
    case Templated => true
    case Releasing(third) => ViewOk(s.fss, s.seen, third)
    case Releasable(picks) => PicksOk(s.fss, s.seen, s.templates, picks)
    case Unpinning(picks, left) => PicksOk(s.fss, s.seen, s.templates, picks) && RolledOut(s.templates, s.cluster)
  }

  ghost predicate Inv(s: State) {
    && FssOk(s.fss, s.seen, s.released)
    && TemplatesOk(s.fss, s.templates, s.ds, s.dsFrom)
    && ClusterOk(s.templates, s.cluster)
    && StatusOk(s.templates, s.ds, s.dsFrom, s.cluster)
    && SafeOk(s.templates, s.cluster, s.released)
    && PassOk(s)
  }

  // ---------------------------------------------------------------- every step keeps it

  /** A file-system history gains its first or a further version. */
  predicate Extends(fss: map<Uid, History>, fss': map<Uid, History>) {
    forall uid :: uid in fss ==> uid in fss' && fss[uid] <= fss'[uid]
  }

  lemma ExtendTemplates(fss: map<Uid, History>, fss': map<Uid, History>, templates: seq<set<Vol>>, ds: seq<DaemonSet>, dsFrom: nat)
    requires Extends(fss, fss') && TemplatesOk(fss, templates, ds, dsFrom)
    ensures TemplatesOk(fss', templates, ds, dsFrom)
  {
    forall g | 0 <= g < |templates|
      ensures VolsOk(fss', templates[g])
    {
      assert VolsOk(fss, templates[g]);
    }
  }

  /** What may follow the current version of a file system. */
  predicate Follows(now: Option<Fs>, o: Option<Fs>) {
    && now.Some?
    && (Dying(now) ==> Dying(o))
    && (o.Some? ==> o.value.name == now.value.name)
  }

  lemma AppendFs(fss: map<Uid, History>, seen: map<Uid, nat>, released: set<Uid>, uid: Uid, o: Option<Fs>)
    requires FssOk(fss, seen, released) && uid in fss && Follows(Now(fss[uid]), o)
    requires uid !in released && Now(fss[uid]).value.dmFin ==> o.Some? && o.value.dmFin
    requires uid !in seen ==> o.None? || !o.value.dmFin
    ensures FssOk(fss[uid := fss[uid] + [o]], seen, released)
    ensures Extends(fss, fss[uid := fss[uid] + [o]])
  {
    var h, h' := fss[uid], fss[uid] + [o];
    assert FsOk(seen, released, uid, h);
    forall i, j | 0 <= i <= j < |h'|
      ensures (Dying(h'[i]) ==> Dying(h'[j])) && (h'[j].Some? ==> h'[i].Some? && h'[i].value.name == h'[j].value.name)
    {
      assert Dying(h[if i < |h| then i else |h| - 1]) ==> Dying(Now(h));
    }
  }

  lemma SeeOwn(fss: map<Uid, History>, seen: map<Uid, nat>, released: set<Uid>, uid: Uid, v: nat)
    requires FssOk(fss, seen, released) && uid in seen && seen[uid] <= v < |fss[uid]|
    ensures FssOk(fss, seen[uid := v], released)
  {
    assert FsOk(seen, released, uid, fss[uid]);
  }

  lemma ReleaseFs(fss: map<Uid, History>, seen: map<Uid, nat>, released: set<Uid>, uid: Uid, v: nat)
    requires FssOk(fss, seen, released) && uid in seen && v <= seen[uid] && Dying(fss[uid][v])
    ensures FssOk(fss, seen, released + {uid})
  {
    assert FsOk(seen, released, uid, fss[uid]);
  }

  lemma ExtendViews(fss: map<Uid, History>, fss': map<Uid, History>, seen: map<Uid, nat>, seen': map<Uid, nat>, view: View)
    requires ViewOk(fss, seen, view) && Extends(fss, fss')
    requires forall uid :: uid in seen ==> uid in seen' && seen[uid] <= seen'[uid]
    ensures ViewOk(fss', seen', view)
  {
    forall uid | uid in view
      ensures ItemOk(fss', seen', uid, view[uid])
    {
      assert ItemOk(fss, seen, uid, view[uid]);
    }
  }

  lemma UserFirst(s: State, uid: Uid, o: Option<Fs>, first: View, todo: set<Uid>)
    requires Inv(s) && uid in s.fss && Follows(Now(s.fss[uid]), o)
    requires if o.Some? then o.value.dmFin == Now(s.fss[uid]).value.dmFin else !Now(s.fss[uid]).value.dmFin
    requires FirstOk(s.fss, s.seen, s.released, first, todo)
    ensures FirstOk(WithFs(s, uid, o).fss, s.seen, s.released, first, todo)
  {
    ExtendViews(s.fss, WithFs(s, uid, o).fss, s.seen, s.seen, first);
  }

  lemma UserSecond(s: State, uid: Uid, o: Option<Fs>, first: View, second: View)
    requires Inv(s) && uid in s.fss && Follows(Now(s.fss[uid]), o)
    requires if o.Some? then o.value.dmFin == Now(s.fss[uid]).value.dmFin else !Now(s.fss[uid]).value.dmFin
    requires SecondOk(s.fss, s.seen, s.released, first, second)
    ensures SecondOk(WithFs(s, uid, o).fss, s.seen, s.released, first, second)
  {
    ExtendViews(s.fss, WithFs(s, uid, o).fss, s.seen, s.seen, second);
  }

  lemma UserPass(s: State, uid: Uid, o: Option<Fs>)
    requires Inv(s) && uid in s.fss && Follows(Now(s.fss[uid]), o)
    requires if o.Some? then o.value.dmFin == Now(s.fss[uid]).value.dmFin else !Now(s.fss[uid]).value.dmFin
    ensures PassOk(WithFs(s, uid, o))
  {
    var t := WithFs(s, uid, o);
    match s.pass
    case Resting =>
    case Pinning(first, todo) => UserFirst(s, uid, o, first, todo);
    case Pinned(first) => UserFirst(s, uid, o, first, {});
    case Templating(first, second) => UserSecond(s, uid, o, first, second);
    case Templated =>
    case Releasing(third) => ExtendViews(s.fss, t.fss, s.seen, s.seen, third);
    case Releasable(picks) => ExtendViews(s.fss, t.fss, s.seen, s.seen, picks);
    case Unpinning(picks, _) => ExtendViews(s.fss, t.fss, s.seen, s.seen, picks);
  }

  /** A user's change to a file system. */
  lemma UserKeeps(s: State, uid: Uid, o: Option<Fs>)
    requires Inv(s) && uid in s.fss && Follows(Now(s.fss[uid]), o)
    requires if o.Some? then o.value.dmFin == Now(s.fss[uid]).value.dmFin else !Now(s.fss[uid]).value.dmFin
    ensures Inv(WithFs(s, uid, o))
  {
    assert FsOk(s.seen, s.released, uid, s.fss[uid]);
    AppendFs(s.fss, s.seen, s.released, uid, o);
    ExtendTemplates(s.fss, WithFs(s, uid, o).fss, s.templates, s.ds, s.dsFrom);
    UserPass(s, uid, o);
  }

  /** All nodes are counted only if there is nothing else. */
  lemma FullCount(part: set<Node>, all: set<Node>)
    requires part <= all && |part| == |all|
    ensures part == all
  {
    assert |all - part| == |all| - |part|;
  }

  /** What a list shows of a released file system is its deletion. */
  lemma ListedReleased(s: State, view: View, uid: Uid)
    requires Inv(s) && Listable(s, view) && uid in view && uid in s.released
    ensures view[uid].fs.deleting
  {
    assert FsOk(s.seen, s.released, uid, s.fss[uid]);
  }

  lemma SawKeeps(s: State, view: View)
    requires Inv(s) && Listable(s, view)
    ensures FssOk(s.fss, Saw(s, view), s.released) && ViewOk(s.fss, Saw(s, view), view)
  {
    var seen := Saw(s, view);
    forall uid | uid in s.fss
      ensures FsOk(seen, s.released, uid, s.fss[uid])
    {
      assert FsOk(s.seen, s.released, uid, s.fss[uid]);
    }
  }

  /** A mounted file system that is being deleted blocks, because its volume has its name. */
  lemma MountedBlocks(s: State, view: View, uid: Uid)
    requires Inv(s) && ViewOk(s.fss, s.seen, view) && uid in view && view[uid].fs.deleting
    requires Mounts(Template(s.templates), uid)
    ensures Blocked(view, Template(s.templates))
  {
    var vol :| vol in Template(s.templates) && vol.uid == uid;
    assert VolsOk(s.fss, s.templates[|s.templates| - 1]);
    assert FsOk(s.seen, s.released, uid, s.fss[uid]) && ItemOk(s.fss, s.seen, uid, view[uid]);
    assert vol.name == view[uid].fs.name;
    assert NameUsed(Template(s.templates), view[uid].fs.name);
  }

  /** A new file system is in no view of the pass. */
  lemma NewFsPass(s: State, uid: Uid, fs: Fs)
    requires Inv(s) && uid !in s.fss
    ensures PassOk(s.(fss := s.fss[uid := [Some(fs)]]))
  {
  }

  lemma NewFsOk(s: State, uid: Uid, fs: Fs)
    requires Inv(s) && uid !in s.fss && !fs.dmFin
    ensures FssOk(s.fss[uid := [Some(fs)]], s.seen, s.released)
    ensures TemplatesOk(s.fss[uid := [Some(fs)]], s.templates, s.ds, s.dsFrom)
  {
    assert Orderly([Some(fs)]);
    ExtendTemplates(s.fss, s.fss[uid := [Some(fs)]], s.templates, s.ds, s.dsFrom);
  }

  lemma CreateFsKeeps(s: State, a: Action)
    requires Inv(s) && Enabled(s, a) && a.CreateFs?
    ensures Inv(Do(s, a))
  {
    NewFsOk(s, a.uid, Fs(a.name, false, false, a.otherFin));
    NewFsPass(s, a.uid, Fs(a.name, false, false, a.otherFin));
  }

  lemma DeleteFsKeeps(s: State, a: Action)
    requires Inv(s) && Enabled(s, a) && a.DeleteFs?
    ensures Inv(Do(s, a))
  {
    UserKeeps(s, a.uid, Settle(Now(s.fss[a.uid]).value.(deleting := true)));
  }

  lemma SetOtherFinalizerKeeps(s: State, a: Action)
    requires Inv(s) && Enabled(s, a) && a.SetOtherFinalizer?
    ensures Inv(Do(s, a))
  {
    UserKeeps(s, a.uid, Settle(Now(s.fss[a.uid]).value.(otherFin := a.present)));
  }

  lemma NodeJoinsKeeps(s: State, a: Action)
    requires Inv(s) && Enabled(s, a) && a.NodeJoins?
    ensures Inv(Do(s, a))
  {
  }

  lemma NodeLeavesKeeps(s: State, a: Action)
    requires Inv(s) && Enabled(s, a) && a.NodeLeaves?
    ensures Inv(Do(s, a))
  {
  }

  lemma ObserveKeeps(s: State, a: Action)
    requires Inv(s) && Enabled(s, a) && a.Observe?
    ensures Inv(Do(s, a))
  {
  }

  lemma PodStartsKeeps(s: State, a: Action)
    requires Inv(s) && Enabled(s, a) && a.PodStarts?
    ensures Inv(Do(s, a))
  {
  }

  lemma PodReadyKeeps(s: State, a: Action)
    requires Inv(s) && Enabled(s, a) && a.PodReady?
    ensures Inv(Do(s, a))
  {
  }

  lemma PodStopsKeeps(s: State, a: Action)
    requires Inv(s) && Enabled(s, a) && a.PodStops?
    ensures Inv(Do(s, a))
  {
  }

  lemma PublishKeeps(s: State, a: Action)
    requires Inv(s) && Enabled(s, a) && a.Publish?
    ensures Inv(Do(s, a))
  {
    var c := s.cluster;
    if |UpdatedNodes(c)| == |c.nodes| {
      FullCount(UpdatedNodes(c), c.nodes);
    }
  }

  lemma BeginKeeps(s: State, a: Action)
    requires Inv(s) && Enabled(s, a) && a.Begin?
    ensures Inv(Do(s, a))
  {
    SawKeeps(s, a.view);
    forall uid | uid in a.view && uid in s.released
      ensures a.view[uid].fs.deleting
    {
      ListedReleased(s, a.view, uid);
    }
  }

  /** The version that a pin writes. */
  function PinnedFs(fs: Fs): Fs {
    fs.(dmFin := fs.dmFin || !fs.deleting)
  }

  /** The first list still shows the current version of a file system that is to be pinned. */
  predicate MayPin(s: State, uid: Uid) {
    s.pass.Pinning? && uid in s.pass.todo && uid in s.pass.first && uid in s.fss && s.pass.first[uid].v == |s.fss[uid]| - 1
  }

  /** A pin took effect. */
  lemma PinLands(s: State, uid: Uid)
    requires Inv(s) && MayPin(s, uid)
    ensures var fss := s.fss[uid := s.fss[uid] + [Some(PinnedFs(s.pass.first[uid].fs))]];
      && FssOk(fss, s.seen, s.released) && Extends(s.fss, fss)
      && TemplatesOk(fss, s.templates, s.ds, s.dsFrom)
  {
    var fs := s.pass.first[uid].fs;
    assert ItemOk(s.fss, s.seen, uid, s.pass.first[uid]);
    assert FsOk(s.seen, s.released, uid, s.fss[uid]);
    AppendFs(s.fss, s.seen, s.released, uid, Some(PinnedFs(fs)));
    ExtendTemplates(s.fss, s.fss[uid := s.fss[uid] + [Some(PinnedFs(fs))]], s.templates, s.ds, s.dsFrom);
  }

  /** It then carries the finalizer, unless it is being deleted without. */
  lemma PinCarries(s: State, uid: Uid)
    requires Inv(s) && MayPin(s, uid)
    ensures uid in s.seen && s.seen[uid] <= |s.fss[uid]|
    ensures !s.pass.first[uid].fs.deleting || Carries(s.fss, uid) ==>
      Carries(s.fss[uid := s.fss[uid] + [Some(PinnedFs(s.pass.first[uid].fs))]], uid)
  {
    assert ItemOk(s.fss, s.seen, uid, s.pass.first[uid]);
    assert FsOk(s.seen, s.released, uid, s.fss[uid]);
  }

  /** The pass goes on to the next file system. */
  lemma PinPass(s: State, uid: Uid, fss: map<Uid, History>)
    requires Inv(s) && MayPin(s, uid)
    requires fss == s.fss[uid := s.fss[uid] + [Some(PinnedFs(s.pass.first[uid].fs))]]
    ensures FirstOk(fss, s.seen[uid := |s.fss[uid]|], s.released, s.pass.first, s.pass.todo - {uid})
  {
    var first, seen := s.pass.first, s.seen[uid := |s.fss[uid]|];
    PinCarries(s, uid);
    ExtendViews(s.fss, fss, s.seen, seen, first);
    forall u | u in first && u !in s.pass.todo - {uid} && !first[u].fs.deleting
      ensures Carries(fss, u)
    {
      if u != uid { assert Carries(s.fss, u); }
    }
  }

  lemma PinInv(s: State, uid: Uid, fss: map<Uid, History>)
    requires Inv(s) && MayPin(s, uid)
    requires fss == s.fss[uid := s.fss[uid] + [Some(PinnedFs(s.pass.first[uid].fs))]]
    ensures Inv(s.(fss := fss, seen := s.seen[uid := |s.fss[uid]|], pass := Pinning(s.pass.first, s.pass.todo - {uid})))
  {
    PinLands(s, uid);
    PinCarries(s, uid);
    SeeOwn(fss, s.seen, s.released, uid, |s.fss[uid]|);
    PinPass(s, uid, fss);
  }

  lemma PinKeeps(s: State, a: Action)
    requires Inv(s) && Enabled(s, a) && a.Pin?
    ensures Inv(Do(s, a))
  {
    if a.landed {
      if a.ok {
        PinInv(s, a.uid, Do(s, a).fss);
      } else {
        PinLands(s, a.uid);
      }
    }
  }

  lemma PinsDoneKeeps(s: State, a: Action)
    requires Inv(s) && Enabled(s, a) && a.PinsDone?
    ensures Inv(Do(s, a))
  {
  }

  /** The second list: what is live on it is not released, and was pinned or is new. */
  lemma SecondList(s: State, second: View, uid: Uid)
    requires Inv(s) && s.pass.Pinned? && Listable(s, second) && uid in second && !second[uid].fs.deleting
    ensures uid !in s.released && (if uid in s.pass.first then Carries(s.fss, uid) else NeverPinned(s.fss[uid]))
  {
    if uid in s.released { ListedReleased(s, second, uid); }
    assert FsOk(s.seen, s.released, uid, s.fss[uid]);
    if uid in s.pass.first { assert ItemOk(s.fss, s.seen, uid, s.pass.first[uid]); }
  }

  lemma ListAgainKeeps(s: State, a: Action)
    requires Inv(s) && Enabled(s, a) && a.ListAgain?
    ensures Inv(Do(s, a))
  {
    SawKeeps(s, a.view);
    forall uid | uid in a.view && !a.view[uid].fs.deleting
      ensures uid !in s.released && (if uid in s.pass.first then Carries(s.fss, uid) else NeverPinned(s.fss[uid]))
    {
      SecondList(s, a.view, uid);
    }
    assert SecondOk(s.fss, Saw(s, a.view), s.released, s.pass.first, a.view);
  }

  lemma WriteTemplateKeeps(s: State, a: Action)
    requires Inv(s) && Enabled(s, a) && a.WriteTemplate?
    ensures Inv(Do(s, a))
  {
  }

  lemma KeepTemplateKeeps(s: State, a: Action)
    requires Inv(s) && Enabled(s, a) && a.KeepTemplate?
    ensures Inv(Do(s, a))
  {
  }

  lemma ListLastKeeps(s: State, a: Action)
    requires Inv(s) && Enabled(s, a) && a.ListLast?
    ensures Inv(Do(s, a))
  {
    SawKeeps(s, a.view);
  }

  lemma CompareKeeps(s: State, a: Action)
    requires Inv(s) && Enabled(s, a) && a.Compare?
    ensures Inv(Do(s, a))
  {
    if s.ds != [] && !Blocked(s.pass.third, Template(s.templates)) {
      forall uid | uid in Doomed(s.pass.third)
        ensures !Mounts(Template(s.templates), uid)
      {
        if Mounts(Template(s.templates), uid) { MountedBlocks(s, s.pass.third, uid); }
      }
    }
  }

  lemma CheckReadyKeeps(s: State, a: Action)
    requires Inv(s) && Enabled(s, a) && a.CheckReady?
    ensures Inv(Do(s, a))
  {
  }

  lemma UnpinLands(s: State, a: Action)
    requires Inv(s) && Enabled(s, a) && a.Unpin? && a.landed
    ensures FssOk(Do(s, a).fss, s.seen, s.released + {a.uid}) && Extends(s.fss, Do(s, a).fss)
    ensures TemplatesOk(Do(s, a).fss, s.templates, s.ds, s.dsFrom)
    ensures Unmounted(s.templates, s.cluster, a.uid) && a.uid in s.seen && s.seen[a.uid] <= |s.fss[a.uid]|
  {
    var uid, fs := a.uid, s.pass.picks[a.uid].fs;
    assert ItemOk(s.fss, s.seen, uid, s.pass.picks[uid]);
    assert FsOk(s.seen, s.released, uid, s.fss[uid]);
    ReleaseFs(s.fss, s.seen, s.released, uid, s.pass.picks[uid].v);
    AppendFs(s.fss, s.seen, s.released + {uid}, uid, Settle(fs.(dmFin := false)));
    ExtendTemplates(s.fss, Do(s, a).fss, s.templates, s.ds, s.dsFrom);
  }

  lemma UnpinPicks(s: State, uid: Uid, fss: map<Uid, History>)
    requires Inv(s) && s.pass.Unpinning? && uid in s.fss && uid in s.seen && s.seen[uid] <= |s.fss[uid]| && Extends(s.fss, fss)
    ensures PicksOk(fss, s.seen[uid := |s.fss[uid]|], s.templates, s.pass.picks)
  {
    ExtendViews(s.fss, fss, s.seen, s.seen[uid := |s.fss[uid]|], s.pass.picks);
  }

  lemma UnpinInv(s: State, uid: Uid, t: State)
    requires Inv(s) && Enabled(s, Unpin(uid, true, true))
    requires FssOk(t.fss, s.seen, t.released) && Extends(s.fss, t.fss) && TemplatesOk(t.fss, s.templates, s.ds, s.dsFrom)
    requires SafeOk(s.templates, s.cluster, t.released) && uid in s.seen && s.seen[uid] <= |s.fss[uid]| < |t.fss[uid]|
    requires t == s.(fss := t.fss, released := t.released, seen := s.seen[uid := |s.fss[uid]|],
                     pass := Unpinning(s.pass.picks, s.pass.left - {uid}))
    ensures Inv(t)
  {
    SeeOwn(t.fss, s.seen, t.released, uid, |s.fss[uid]|);
    UnpinPicks(s, uid, t.fss);
  }

  lemma UnpinKeeps(s: State, a: Action)
    requires Inv(s) && Enabled(s, a) && a.Unpin?
    ensures Inv(Do(s, a))
  {
    if a.landed {
      UnpinLands(s, a);
      assert SafeOk(s.templates, s.cluster, Do(s, a).released);
      if a.ok {
        UnpinInv(s, a.uid, Do(s, a));
      }
    }
  }

  lemma AbortKeeps(s: State, a: Action)
    requires Inv(s) && Enabled(s, a) && a.Abort?
    ensures Inv(Do(s, a))
  {
  }

  /** A step outside the manager's passes. */
  predicate Outside(a: Action) {
    a.CreateFs? || a.DeleteFs? || a.SetOtherFinalizer? || a.NodeJoins? || a.NodeLeaves? || a.Observe? ||
    a.PodStarts? || a.PodReady? || a.PodStops? || a.Publish?
  }

  lemma OutsideKeeps(s: State, a: Action)
    requires Inv(s) && Enabled(s, a) && Outside(a)
    ensures Inv(Do(s, a))
  {
    match a
    case CreateFs(_, _, _) => CreateFsKeeps(s, a);
    case DeleteFs(_) => DeleteFsKeeps(s, a);
    case SetOtherFinalizer(_, _) => SetOtherFinalizerKeeps(s, a);
    case NodeJoins(_) => NodeJoinsKeeps(s, a);
    case NodeLeaves(_) => NodeLeavesKeeps(s, a);
    case Observe(_) => ObserveKeeps(s, a);
    case PodStarts(_) => PodStartsKeeps(s, a);
    case PodReady(_) => PodReadyKeeps(s, a);
    case PodStops(_) => PodStopsKeeps(s, a);
    case Publish => PublishKeeps(s, a);
  }

  lemma StepKeeps(s: State, a: Action)
    requires Inv(s) && Enabled(s, a)
    ensures Inv(Do(s, a))
  {
    if Outside(a) {
      OutsideKeeps(s, a);
    } else {
      PassKeeps(s, a);
    }
  }

  lemma PassKeeps(s: State, a: Action)
    requires Inv(s) && Enabled(s, a) && !Outside(a)
    ensures Inv(Do(s, a))
  {
    match a
    case Begin(_) => BeginKeeps(s, a);
    case Pin(_, _, _) => PinKeeps(s, a);
    case PinsDone => PinsDoneKeeps(s, a);
    case ListAgain(_) => ListAgainKeeps(s, a);
    case WriteTemplate(_, _) => WriteTemplateKeeps(s, a);
    case KeepTemplate => KeepTemplateKeeps(s, a);
    case ListLast(_) => ListLastKeeps(s, a);
    case Compare => CompareKeeps(s, a);
    case CheckReady(_) => CheckReadyKeeps(s, a);
    case Unpin(_, _, _) => UnpinKeeps(s, a);
    case Abort => AbortKeeps(s, a);
  }

  lemma {:induction false} RunKeeps(s: State, acts: seq<Action>, t: State)
    requires Inv(s) && Steps(s, acts, t)
    ensures Inv(t)
    decreases |acts|
  {
    if acts != [] {
      StepKeeps(s, acts[0]);
      RunKeeps(Do(s, acts[0]), acts[1..], t);
    }
  }

  lemma ReachableInv(t: State)
    requires Reachable(t)
    ensures Inv(t)
  {
    var s, acts :| Init(s) && Steps(s, acts, t);
    RunKeeps(s, acts, t);
  }

  // ---------------------------------------------------------------- theorems

  lemma {:induction false} ReleasedForGood(s: State, acts: seq<Action>, t: State)
    requires Steps(s, acts, t)
    ensures s.released <= t.released
    decreases |acts|
  {
    if acts != [] {
      ReleasedForGood(Do(s, acts[0]), acts[1..], t);
    }
  }

  lemma {:induction false} StepsChain(r: State, acts: seq<Action>, s: State, more: seq<Action>, t: State)
    requires Steps(r, acts, s) && Steps(s, more, t)
    ensures Steps(r, acts + more, t)
    decreases |acts|
  {
    if acts == [] {
      assert acts + more == more;
    } else {
      assert (acts + more)[0] == acts[0] && (acts + more)[1..] == acts[1..] + more;
      StepsChain(Do(r, acts[0]), acts[1..], s, more, t);
    }
  }

  /** A published status that passes the readiness test says that there are nodes and that each of
      them had a ready worker pod of the current generation. */
  lemma ReadyMeansAllWorkers(c: Cluster)
    ensures Ready(DaemonSet(c.observed, Tally(c))) <==>
              c.nodes != {} && forall n :: n in c.nodes ==> n in c.pods && c.pods[n] == Pod(c.observed, true)
  {
    if |UpdatedNodes(c)| == |c.nodes| { FullCount(UpdatedNodes(c), c.nodes); }
    if |ReadyNodes(c)| == |c.nodes| { FullCount(ReadyNodes(c), c.nodes); }
    if forall n :: n in c.nodes ==> n in c.pods && c.pods[n] == Pod(c.observed, true) {
      assert UpdatedNodes(c) == c.nodes && ReadyNodes(c) == c.nodes;
    }
  }

  /** From the moment a file system loses the finalizer, and for the rest of every run, no
      worker pod mounts it and the pod template does not mention it. */
  lemma ReleasedIsUnmounted(s: State, acts: seq<Action>, t: State, uid: Uid)
    requires Reachable(s) && uid in s.released && Steps(s, acts, t)
    ensures !Mounts(Template(t.templates), uid)
    ensures forall n :: n in t.cluster.pods ==>
              t.cluster.pods[n].gen < |t.templates| && !Mounts(t.templates[t.cluster.pods[n].gen], uid)
  {
    var r, before :| Init(r) && Steps(r, before, s);
    StepsChain(r, before, s, acts, t);
    ReachableInv(t);
    ReleasedForGood(s, acts, t);
    assert Unmounted(t.templates, t.cluster, uid);
    assert !Mounts(t.templates[|t.templates| - 1], uid);
  }

  /** Only four actions touch a file system that exists. */
  lemma OthersLeaveFs(s: State, a: Action, uid: Uid)
    requires Enabled(s, a) && uid in s.fss
    requires !((a.DeleteFs? || a.SetOtherFinalizer? || a.Pin? || a.Unpin?) && a.uid == uid)
    ensures uid in Do(s, a).fss && Do(s, a).fss[uid] == s.fss[uid]
  {
  }

  lemma UserKeepsFinalizer(s: State, a: Action, uid: Uid)
    requires Enabled(s, a) && Carries(s.fss, uid) && (a.DeleteFs? || a.SetOtherFinalizer?) && a.uid == uid
    ensures Carries(Do(s, a).fss, uid)
  {
  }

  /** The finalizer of a file system that has it disappears only by an unpin, which
      records it as released. */
  lemma OnlyUnpinReleases(s: State, a: Action, uid: Uid)
    requires Reachable(s) && Enabled(s, a) && Carries(s.fss, uid) && !Carries(Do(s, a).fss, uid)
    ensures a.Unpin? && a.uid == uid && uid in Do(s, a).released
  {
    if a.DeleteFs? || a.SetOtherFinalizer? {
      if a.uid == uid { UserKeepsFinalizer(s, a, uid); } else { OthersLeaveFs(s, a, uid); }
    } else if a.Pin? && a.uid == uid {
      ReachableInv(s);
      if a.landed { PinCarries(s, uid); }
    } else if !(a.Unpin? && a.uid == uid) {
      OthersLeaveFs(s, a, uid);
    }
  }

  /** One listed file system that is being deleted while its volume is still in the
      template ends the pass before anything is released. */
  lemma OneBlocksAll(s: State, uid: Uid)
    requires Reachable(s) && s.pass.Releasing? && uid in s.pass.third && s.pass.third[uid].fs.deleting
    requires Mounts(Template(s.templates), uid)
    ensures Do(s, Compare).pass.Resting? && Do(s, Compare).fss == s.fss
  {
    ReachableInv(s);
    MountedBlocks(s, s.pass.third, uid);
  }

  /** When a pass is about to put a file system into the template, that file system carries
      the finalizer exactly if it was on the list the pass began with. */
  lemma MountedCarriesIffListedFirst(s: State, uid: Uid)
    requires Reachable(s) && s.pass.Templating? && Mounts(Volumes(s.pass.second), uid)
    ensures Carries(s.fss, uid) <==> uid in s.pass.first
  {
    ReachableInv(s);
    assert uid in s.pass.second && !s.pass.second[uid].fs.deleting;
    assert ItemOk(s.fss, s.seen, uid, s.pass.second[uid]);
  }

  lemma ReachableStep(t: State, a: Action)
    requires Reachable(t) && Enabled(t, a)
    ensures Reachable(Do(t, a))
  {
    var s, acts :| Init(s) && Steps(s, acts, t);
    assert [a][1..] == [] && Steps(Do(t, a), [a][1..], Do(t, a));
    StepsChain(s, acts, t, [a], Do(t, a));
  }

  /** A pass that began with an empty list. */
  lemma EmptyPassBegins() returns (s: State)
    ensures Reachable(s)
    ensures s == State(map[], map[], [{}], [], 0, Cluster({}, map[], 0), Pinned(map[]), {})
  {
    var s0 := State(map[], map[], [{}], [], 0, Cluster({}, map[], 0), Resting, {});
    assert Steps(s0, [], s0);
    var none: View := map[];
    ReachableStep(s0, Begin(none));
    assert Saw(s0, none) == map[] && none.Keys == {};
    var s1 := s0.(pass := Pinning(none, {}));
    assert Do(s0, Begin(none)) == s1;
    ReachableStep(s1, PinsDone);
    s := s1.(pass := Pinned(none));
  }

  const Late: Fs := Fs("fs", false, false, false)

  /** A file system is created after the first list of a pass. */
  lemma LateFileSystem() returns (s: State)
    ensures Reachable(s)
    ensures s == State(map[0 := [Some(Late)]], map[0 := 0], [{}], [], 0, Cluster({}, map[], 0),
                       Templating(map[], map[0 := Item(0, Late)]), {})
  {
    var s2 := EmptyPassBegins();
    var view: View := map[0 := Item(0, Late)];
    ReachableStep(s2, CreateFs(0, "fs", false));
    var s3 := s2.(fss := map[0 := [Some(Late)]]);
    assert Do(s2, CreateFs(0, "fs", false)) == s3;
    ReachableStep(s3, ListAgain(view));
    assert Saw(s3, view) == map[0 := 0];
    s := s3.(seen := map[0 := 0], pass := Templating(map[], view));
  }

  lemma LateFileSystemMounted() returns (s: State)
    ensures Reachable(s) && s.fss == map[0 := [Some(Late)]] && Mounts(Template(s.templates), 0)
    ensures |s.templates| == 2 && s.cluster == Cluster({}, map[], 0)
  {
    var s4 := LateFileSystem();
    ReachableStep(s4, WriteTemplate(true, true));
    s := Do(s4, WriteTemplate(true, true));
    var view := s4.pass.second;
    assert 0 in view && !view[0].fs.deleting && Vol(view[0].fs.name, 0) in Volumes(view);
    assert Template(s.templates) == Volumes(s4.pass.second);
  }

  /** The condition is needed: a file system created after the first list of a pass gets
      into the template without the finalizer. */
  lemma LateFileSystemIsMountedUnpinned()
    ensures exists s :: Reachable(s) && Mounts(Template(s.templates), 0) && 0 in s.fss && Now(s.fss[0]).Some? && !Carries(s.fss, 0)
  {
    var s := LateFileSystemMounted();
    assert !Carries(s.fss, 0);
  }

  // ---------------------------------------------------------------- file systems that are gone

  /** The file system has had the finalizer at some time. */
  ghost predicate EverPinned(fss: map<Uid, History>, uid: Uid) {
    uid in fss && !NeverPinned(fss[uid])
  }

  predicate Gone(fss: map<Uid, History>, uid: Uid) {
    uid in fss && Now(fss[uid]).None?
  }

  /** What the finalizer is for: in every reachable state, a file system that is gone and ever had the
      finalizer is mounted by no worker pod, and by none that may still start. */
  lemma GoneIsUnmounted(s: State, uid: Uid)
    requires Reachable(s) && Gone(s.fss, uid) && EverPinned(s.fss, uid)
    ensures forall n :: n in s.cluster.pods ==>
              s.cluster.pods[n].gen < |s.templates| && !Mounts(s.templates[s.cluster.pods[n].gen], uid)
    ensures forall g :: s.cluster.observed <= g < |s.templates| ==> !Mounts(s.templates[g], uid)
    ensures !Mounts(Template(s.templates), uid)
  {
    ReachableInv(s);
    assert FsOk(s.seen, s.released, uid, s.fss[uid]);
    assert uid in s.released;
    assert Unmounted(s.templates, s.cluster, uid);
    assert !Mounts(s.templates[|s.templates| - 1], uid);
  }

  predicate MountedOn(s: State, n: Node, uid: Uid) {
    n in s.cluster.pods && s.cluster.pods[n].gen < |s.templates| && Mounts(s.templates[s.cluster.pods[n].gen], uid)
  }

  lemma LatePodRuns() returns (s: State)
    ensures Reachable(s) && s.fss == map[0 := [Some(Late)]] && |s.templates| == 2 && Mounts(s.templates[1], 0)
    ensures 7 in s.cluster.pods && s.cluster.pods[7].gen == 1
  {
    var s5 := LateFileSystemMounted();
    ReachableStep(s5, NodeJoins(7));
    var s6 := s5.(cluster := Cluster({7}, map[], 0));
    assert Do(s5, NodeJoins(7)) == s6;
    ReachableStep(s6, Observe(1));
    var s7 := s6.(cluster := Cluster({7}, map[], 1));
    assert Do(s6, Observe(1)) == s7;
    ReachableStep(s7, PodStarts(7));
    s := Do(s7, PodStarts(7));
  }

  /** A file system that never had it can be gone while a worker pod mounts it. */
  lemma GoneWhileMounted()
    ensures exists s, n :: Reachable(s) && Gone(s.fss, 0) && MountedOn(s, n, 0)
  {
    var s8 := LatePodRuns();
    ReachableStep(s8, DeleteFs(0));
    var s9 := Do(s8, DeleteFs(0));
    assert Gone(s9.fss, 0) && MountedOn(s9, 7, 0);
  }
}

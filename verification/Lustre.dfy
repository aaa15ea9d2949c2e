/** The Lustre finalizer protocol of the data-movement manager as a step system.
 *
 *  Users create and delete LustreFileSystems, the DaemonSet controller rolls worker pods
 *  from one template generation to the next and publishes counters, and the manager makes
 *  its passes: pin every live file system with the finalizer, rebuild the pod template
 *  from the live ones, and unpin deleted ones once no worker mounts them.
 *
 *  Reads of a file system never go back behind what the manager has read or written
 *  before, but may be arbitrarily behind the users; reads of the DaemonSet are not older
 *  than its last template change.  A write has taken effect or never will by the time its
 *  call returns, whatever the call returned.
 */
module Lustre {
  import opened Wrappers

  type Uid = nat
  type Node = nat

  datatype Fs = Fs(name: string, deleting: bool, dmFin: bool, otherFin: bool)

  function Settle(fs: Fs): Option<Fs> {
    if fs.deleting && !fs.dmFin && !fs.otherFin then None else Some(fs)
  }

  /** Every version a file system has had; None once it is gone. */
  type History = seq<Option<Fs>>

  function Now(h: History): Option<Fs> {
    if h == [] then None else h[|h| - 1]
  }

  /** A volume of the pod template, made for one particular file system object. */
  datatype Vol = Vol(name: string, uid: Uid)

  datatype Counters = Counters(observed: nat, desired: nat, updated: nat, ready: nat)

  /** A version of the DaemonSet: template generation and published status. */
  datatype DaemonSet = DaemonSet(gen: nat, status: Counters)

  datatype Pod = Pod(gen: nat, ready: bool)

  /** The cluster as the DaemonSet controller runs it: one worker pod per node at most. */
  datatype Cluster = Cluster(nodes: set<Node>, pods: map<Node, Pod>, observed: nat)

  // ---------------------------------------------------------------- manager pass

  /** One listed file system and the version the list showed. */
  datatype Item = Item(v: nat, fs: Fs)

  type View = map<Uid, Item>

  datatype Pass =
    | Resting
    | Pinning(first: View, todo: set<Uid>)
    | Pinned(first: View)
    | Templating(first: View, second: View)
    | Templated
    | Releasing(third: View)
    | Releasable(picks: View)
    | Unpinning(picks: View, left: set<Uid>)

  datatype State = State(
    fss: map<Uid, History>,
    seen: map<Uid, nat>,        // file-system reads never go back behind these versions
    templates: seq<set<Vol>>,   // volumes by template generation; generation 0 is before the DaemonSet exists
    ds: seq<DaemonSet>,         // versions of the DaemonSet
    dsFrom: nat,                // first version that has the current template
    cluster: Cluster,
    pass: Pass,
    released: set<Uid>          // file systems the manager has unpinned
  )

  predicate Init(s: State) {
    s == State(map[], map[], [{}], [], 0, Cluster({}, map[], 0), Resting, {})
  }

  /** The volumes set up for the file systems of a list that are not being deleted. */
  function Volumes(view: View): set<Vol> {
    set uid | uid in view && !view[uid].fs.deleting :: Vol(view[uid].fs.name, uid)
  }

  /** The current template. */
  function Template(templates: seq<set<Vol>>): set<Vol> {
    if templates == [] then {} else templates[|templates| - 1]
  }

  predicate Mounts(vols: set<Vol>, uid: Uid) {
    exists vol :: vol in vols && vol.uid == uid
  }

  predicate NameUsed(vols: set<Vol>, name: string) {
    exists vol :: vol in vols && vol.name == name
  }

  /** The listed file systems that are being deleted. */
  function Doomed(view: View): View {
    map uid | uid in view && view[uid].fs.deleting :: view[uid]
  }

  /** A file system being deleted whose name is still among the template's volumes. */
  predicate Blocked(view: View, vols: set<Vol>) {
    exists uid :: uid in view && view[uid].fs.deleting && NameUsed(vols, view[uid].fs.name)
  }

  /** The test inside `isDaemonSetReady`. */
  predicate Ready(d: DaemonSet) {
    d.status.observed == d.gen && d.status.desired >= 1 &&
    d.status.updated == d.status.desired && d.status.ready == d.status.desired
  }

  // ---------------------------------------------------------------- actions

  datatype Action =
    // users
    | CreateFs(uid: Uid, name: string, otherFin: bool)
    | DeleteFs(uid: Uid)
    | SetOtherFinalizer(uid: Uid, present: bool)
    // cluster
    | NodeJoins(n: Node)
    | NodeLeaves(n: Node)
    | Observe(gen: nat)
    | PodStarts(n: Node)
    | PodReady(n: Node)
    | PodStops(n: Node)
    | Publish
    // manager
    | Begin(view: View)
    | Pin(uid: Uid, landed: bool, ok: bool)
    | PinsDone
    | ListAgain(view: View)
    | WriteTemplate(landed: bool, ok: bool)
    | KeepTemplate
    | ListLast(view: View)
    | Compare
    | CheckReady(i: nat)
    | Unpin(uid: Uid, landed: bool, ok: bool)
    | Abort

  /** What a list may show: each file system at some version not behind `seen`, and every
      file system known before unless it is gone. */
  predicate Listable(s: State, view: View) {
    && (forall uid :: uid in view ==>
          uid in s.fss && view[uid].v < |s.fss[uid]| && s.fss[uid][view[uid].v] == Some(view[uid].fs) &&
          (uid in s.seen ==> s.seen[uid] <= view[uid].v))
    && (forall uid :: uid in s.seen && uid !in view ==> uid in s.fss && Now(s.fss[uid]).None?)
  }

  predicate Enabled(s: State, a: Action) {
    match a
    case CreateFs(uid, _, _) => uid !in s.fss
    case DeleteFs(uid) => uid in s.fss && Now(s.fss[uid]).Some?
    case SetOtherFinalizer(uid, present) =>
      uid in s.fss && Now(s.fss[uid]).Some? && (Now(s.fss[uid]).value.deleting && present ==> Now(s.fss[uid]).value.otherFin)
    case NodeJoins(n) => n !in s.cluster.nodes
    case NodeLeaves(n) => n in s.cluster.nodes
    case Observe(gen) => s.cluster.observed < gen < |s.templates|
    case PodStarts(n) => n in s.cluster.nodes && n !in s.cluster.pods && s.cluster.observed > 0
    case PodReady(n) => n in s.cluster.pods
    case PodStops(n) => n in s.cluster.pods
    case Publish => s.ds != []
    case Begin(view) => s.pass.Resting? && Listable(s, view)
    case Pin(uid, landed, ok) =>
      s.pass.Pinning? && uid in s.pass.todo && uid in s.pass.first && (ok ==> landed) &&
      (landed ==> uid in s.fss && s.pass.first[uid].v == |s.fss[uid]| - 1)
    case PinsDone => s.pass.Pinning? && s.pass.todo == {}
    case ListAgain(view) => s.pass.Pinned? && Listable(s, view)
    case WriteTemplate(_, ok) => s.pass.Templating? && (ok ==> a.landed)
    case KeepTemplate => s.pass.Templating? && s.ds != [] && Template(s.templates) == Volumes(s.pass.second)
    case ListLast(view) => s.pass.Templated? && Listable(s, view)
    case Compare => s.pass.Releasing?
    case CheckReady(i) => s.pass.Releasable? && s.dsFrom <= i < |s.ds|
    case Unpin(uid, landed, ok) =>
      s.pass.Unpinning? && uid in s.pass.left && uid in s.pass.picks && (ok ==> landed) &&
      (landed ==> uid in s.fss && s.pass.picks[uid].v == |s.fss[uid]| - 1)
    case Abort => true
  }

  // ---------------------------------------------------------------- effects

  function WithFs(s: State, uid: Uid, o: Option<Fs>): State
    requires uid in s.fss
  {
    s.(fss := s.fss[uid := s.fss[uid] + [o]])
  }

  /** Reads never go back behind a list the manager has seen; what it did not show is gone. */
  function Saw(s: State, view: View): map<Uid, nat>
    requires Listable(s, view)
  {
    map uid | uid in s.seen.Keys + view.Keys :: if uid in view then view[uid].v else LastOf(s.fss[uid])
  }

  function LastOf(h: History): nat {
    if h == [] then 0 else |h| - 1
  }

  function UpdatedNodes(c: Cluster): set<Node> {
    set n | n in c.nodes && n in c.pods && c.pods[n].gen == c.observed
  }

  function ReadyNodes(c: Cluster): set<Node> {
    set n | n in c.nodes && n in c.pods && c.pods[n].ready
  }

  function Tally(c: Cluster): Counters {
    Counters(c.observed, |c.nodes|, |UpdatedNodes(c)|, |ReadyNodes(c)|)
  }

  /** A new template generation; the published status does not know it yet. */
  function NewTemplate(s: State, vols: set<Vol>): State {
    var status := if s.ds == [] then Counters(0, 0, 0, 0) else s.ds[|s.ds| - 1].status;
    s.(templates := s.templates + [vols], ds := s.ds + [DaemonSet(|s.templates|, status)], dsFrom := |s.ds|)
  }

  function Do(s: State, a: Action): State
    requires Enabled(s, a)
  {
    match a
    case CreateFs(uid, name, otherFin) => s.(fss := s.fss[uid := [Some(Fs(name, false, false, otherFin))]])
    case DeleteFs(uid) => WithFs(s, uid, Settle(Now(s.fss[uid]).value.(deleting := true)))
    case SetOtherFinalizer(uid, present) => WithFs(s, uid, Settle(Now(s.fss[uid]).value.(otherFin := present)))
    case NodeJoins(n) => s.(cluster := s.cluster.(nodes := s.cluster.nodes + {n}))
    case NodeLeaves(n) => s.(cluster := s.cluster.(nodes := s.cluster.nodes - {n}, pods := s.cluster.pods - {n}))
    case Observe(gen) => s.(cluster := s.cluster.(observed := gen))
    case PodStarts(n) => s.(cluster := s.cluster.(pods := s.cluster.pods[n := Pod(s.cluster.observed, false)]))
    case PodReady(n) => s.(cluster := s.cluster.(pods := s.cluster.pods[n := s.cluster.pods[n].(ready := true)]))
    case PodStops(n) => s.(cluster := s.cluster.(pods := s.cluster.pods - {n}))
    case Publish => s.(ds := s.ds + [DaemonSet(s.ds[|s.ds| - 1].gen, Tally(s.cluster))])
    case Begin(view) => s.(seen := Saw(s, view), pass := Pinning(view, view.Keys))
    case Pin(uid, landed, ok) =>
      var fs := s.pass.first[uid].fs;
      var t := if landed then WithFs(s, uid, Some(fs.(dmFin := fs.dmFin || !fs.deleting))) else s;
      if ok then t.(seen := t.seen[uid := |s.fss[uid]|], pass := Pinning(s.pass.first, s.pass.todo - {uid}))
      else t.(pass := Resting)
    case PinsDone => s.(pass := Pinned(s.pass.first))
    case ListAgain(view) => s.(seen := Saw(s, view), pass := Templating(s.pass.first, view))
    case WriteTemplate(landed, ok) =>
      var t := if landed then NewTemplate(s, Volumes(s.pass.second)) else s;
      t.(pass := if ok then Templated else Resting)
    case KeepTemplate => s.(pass := Templated)
    case ListLast(view) => s.(seen := Saw(s, view), pass := Releasing(view))
    case Compare =>
      if s.ds == [] || Blocked(s.pass.third, Template(s.templates)) || Doomed(s.pass.third) == map[]
      then s.(pass := Resting)
      else s.(pass := Releasable(Doomed(s.pass.third)))
    case CheckReady(i) =>
      if Ready(s.ds[i]) then s.(pass := Unpinning(s.pass.picks, set uid | uid in s.pass.picks && s.pass.picks[uid].fs.dmFin))
      else s.(pass := Resting)
    case Unpin(uid, landed, ok) =>
      var t := if landed then WithFs(s, uid, Settle(s.pass.picks[uid].fs.(dmFin := false))).(released := s.released + {uid}) else s;
      if ok then t.(seen := t.seen[uid := |s.fss[uid]|], pass := Unpinning(s.pass.picks, s.pass.left - {uid}))
      else t.(pass := Resting)
    case Abort => s.(pass := Resting)
  }

  ghost predicate Steps(s: State, acts: seq<Action>, t: State)
    decreases |acts|
  {
    if acts == [] then s == t
    else Enabled(s, acts[0]) && Steps(Do(s, acts[0]), acts[1..], t)
  }

  ghost predicate Reachable(t: State) {
    exists s, acts :: Init(s) && Steps(s, acts, t)
  }
}

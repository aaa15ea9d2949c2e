/** Choosing, rewriting and creating the destination of a data movement. */
module Destination {
  import opened Wrappers
  import opened Text
  import opened Paths
  import opened IndexMount

  /** What a stat command on a worker says of a path. */
  datatype FileType = File | Directory
  type Stat = string -> Option<FileType>

  /** What the storage reference of the source leads to. */
  datatype Storage = NotStorage | LookupFailed | Found(fsType: string)

  function SourceIsFile(stat: Stat, source: string): Option<bool> {
    match stat(source)
    case None => None
    case Some(t) => Some(t == File)
  }

  /** A destination that is not there is taken for a file unless it ends in a slash. */
  predicate DestIsFile(stat: Stat, dest: string) {
    match stat(dest)
    case None => !HasSuffix(dest, Slash)
    case Some(t) => t == File
  }

  predicate FileToFile(stat: Stat, source: string, dest: string) {
    SourceIsFile(stat, source) == Some(true) && DestIsFile(stat, dest)
  }

  function GetDestinationDir(stat: Stat, source: string, dest: string): Option<string> {
    if SourceIsFile(stat, source).None? then None
    else Some(Clean(if FileToFile(stat, source, dest) then Dir(dest) else dest))
  }

  function CheckIndexMountDir(storage: Storage, source: string, ns: string): Option<string> {
    match storage
    case LookupFailed => None
    case NotStorage => Some("")
    case Found(fsType) =>
      if fsType == "gfs2" || fsType == "xfs" then ExtractIndexMountDir(source, ns) else Some("")
  }

  /** The destination with the index mount directory put in. */
  function Rewritten(stat: Stat, source: string, dest: string, mountDir: string): string {
    (if FileToFile(stat, source, dest) then JoinPaths(mountDir, Base(dest)) else mountDir) +
    (if HasSuffix(dest, Slash) then Slash else "")
  }

  /** The directory to create and the destination to move to. */
  datatype Plan = Plan(dir: string, final: string)

  function Planned(stat: Stat, source: string, dest: string, storage: Storage, ns: string): Option<Plan> {
    match (GetDestinationDir(stat, source, dest), CheckIndexMountDir(storage, source, ns))
    case (Some(dir), Some(mount)) =>
      if mount == "" then Some(Plan(dir, dest))
      else
        var mountDir := JoinPaths(dir, mount);
        Some(Plan(mountDir, Rewritten(stat, source, dest, mountDir)))
    case _ => None
  }

  /** The part of a data movement's spec that is read and rewritten here. */
  class Movement {
    const namespace: string
    const source: string
    var destination: string

    constructor (namespace: string, source: string, destination: string)
      ensures this.namespace == namespace && this.source == source && this.destination == destination
    {
      this.namespace, this.source, this.destination := namespace, source, destination;
    }

    /** Puts the index mount directory into the destination, unless the source ends in it. */
    method HandleIndexMountDir(stat: Stat, destDir: string, mount: string) returns (dir: Option<string>)
      modifies this
      ensures HasSuffix(source, mount) ==> dir == Some(destDir) && destination == old(destination)
      ensures !HasSuffix(source, mount) ==>
        if SourceIsFile(stat, source).None? then dir == None && destination == old(destination)
        else
          && dir == Some(JoinPaths(destDir, mount))
          && destination == Rewritten(stat, source, old(destination), dir.value)
    {
      if HasSuffix(source, mount) {
        return Some(destDir);
      }
      var mountDir := JoinPaths(destDir, mount);
      var dmDest := mountDir;
      var srcIsFile := SourceIsFile(stat, source);
      if srcIsFile.None? {
        return None;
      }
      var destIsFile := DestIsFile(stat, destination);
      if srcIsFile.value && destIsFile {
        dmDest := JoinPaths(mountDir, Base(destination));
      }
      if HasSuffix(destination, Slash) {
        dmDest := dmDest + Slash;
      } else {
        assert dmDest + "" == dmDest;
      }
      destination := dmDest;
      return Some(mountDir);
    }

    /** Returns the directory that was asked for, or none when nothing was to be done or a step
        failed. The destination is rewritten before the directory is created. */
    method PrepareDestination(stat: Stat, createDestDir: bool, storage: Storage, create: string -> bool)
      returns (dir: Option<string>, ok: bool)
      modifies this
      ensures !createDestDir ==> ok && dir == None && destination == old(destination)
      ensures createDestDir ==>
        match Planned(stat, source, old(destination), storage, namespace)
        case None => !ok && dir == None && destination == old(destination)
        case Some(plan) => destination == plan.final && dir == Some(plan.dir) && ok == create(plan.dir)
    {
      if !createDestDir {
        return None, true;
      }
      var destDir := GetDestinationDir(stat, source, destination);
      if destDir.None? {
        return None, false;
      }
      var mount := CheckIndexMountDir(storage, source, namespace);
      if mount.None? {
        return None, false;
      }
      dir := destDir;
      if mount.value != "" {
        ExtractedMount(source, namespace);
        dir := HandleIndexMountDir(stat, destDir.value, mount.value);
        if dir.None? {
          return None, false;
        }
      }
      ok := create(dir.value);
    }
  }

  /** The index mount that is needed never stops the rewriting at its first test. */
  lemma NeededMountIsNeverTheEnd(storage: Storage, source: string, ns: string)
    requires CheckIndexMountDir(storage, source, ns).Some?
    requires CheckIndexMountDir(storage, source, ns).value != ""
    ensures IsMountName(CheckIndexMountDir(storage, source, ns).value, ns)
    ensures !HasSuffix(source, CheckIndexMountDir(storage, source, ns).value)
  {
    ExtractedMount(source, ns);
  }

  /** Components of the directory under which the index mount goes. */
  lemma DestinationDirIsClean(stat: Stat, source: string, dest: string) returns (rooted: bool, names: seq<string>)
    requires GetDestinationDir(stat, source, dest).Some?
    ensures Normal(rooted, names) && GetDestinationDir(stat, source, dest).value == Render(rooted, names)
  {
    var path := if FileToFile(stat, source, dest) then Dir(dest) else dest;
    ComponentsNormal(path);
    rooted, names := Rooted(path), Components(path);
  }

  lemma NormalMore(rooted: bool, names: seq<string>, name: string)
    requires Normal(rooted, names) && Ordinary(name)
    ensures Normal(rooted, names + [name])
    ensures Entered(rooted, names, name) == names + [name]
  {
  }

  /** Two printed paths differ when one has more components. */
  lemma LongerDiffers(rooted: bool, a: seq<string>, b: seq<string>)
    requires Normal(rooted, a) && Normal(rooted, b) && |a| != |b|
    ensures Render(rooted, a) != Render(rooted, b)
  {
    RenderReads(rooted, a);
    RenderReads(rooted, b);
  }

  /** When the parent of a rewritten file destination is the directory that is created. */
  predicate KeepsItsParent(dest: string) {
    if HasSuffix(dest, Slash) then Base(dest) == "." || Base(dest) == Slash else Ordinary(Base(dest))
  }

  lemma {:induction false} LastNamesParent(rooted: bool, names: seq<string>, mount: string, last: string)
    requires Normal(rooted, names) && Ordinary(mount)
    requires Kept(last) || last == "."
    ensures var dir := Render(rooted, names + [mount]);
      dir == Dir(JoinPaths(dir, last)) <==> Ordinary(last)
  {
    var all := names + [mount];
    NormalMore(rooted, names, mount);
    JoinRender(rooted, all, last);
    if Ordinary(last) {
      DirRender(rooted, all, last);
    } else if last == "." {
      DirRender(rooted, names, mount);
      LongerDiffers(rooted, names, all);
    } else {
      assert Entered(rooted, all, last) == names;
      ParentIsShorter(rooted, names, mount);
    }
  }

  lemma ParentIsShorter(rooted: bool, names: seq<string>, mount: string)
    requires Normal(rooted, names) && Ordinary(mount)
    ensures Dir(Render(rooted, names)) != Render(rooted, names + [mount])
  {
    var n := |names|;
    NormalMore(rooted, names, mount);
    if n == 0 {
      DirOfNothing(rooted);
      LongerDiffers(rooted, names, names + [mount]);
      assert names == [];
    } else {
      assert names == names[..n - 1] + [names[n - 1]];
      DirRender(rooted, names[..n - 1], names[n - 1]);
      LongerDiffers(rooted, names[..n - 1], names + [mount]);
    }
  }

  lemma DirOfNothing(rooted: bool)
    ensures Dir(Render(rooted, [])) == Render(rooted, [])
  {
    if rooted {
      CleanRender(true, []);
      assert Render(true, []) == Slash;
      LastSlash(Slash, 0);
    } else {
      NoSlash(".");
      WalkOne(false, [], "");
    }
  }

  /** With a slash kept at the end, the parent is the whole joined path. */
  lemma SlashedParent(rooted: bool, names: seq<string>, mount: string, last: string)
    requires Normal(rooted, names) && Ordinary(mount)
    requires Kept(last) || last == "." || last == Slash
    ensures var dir := Render(rooted, names + [mount]);
      dir == Dir(JoinPaths(dir, last) + Slash) <==> last == "." || last == Slash
  {
    var all := names + [mount];
    var dir := Render(rooted, all);
    NormalMore(rooted, names, mount);
    var entered := if last == Slash then all else Entered(rooted, all, last);
    if last == Slash {
      JoinSlash(rooted, all);
    } else {
      JoinRender(rooted, all, last);
      EnteredNormal(rooted, all, last);
    }
    var final := Render(rooted, entered);
    RenderReads(rooted, entered);
    DirAppend(final, "");
    assert final + Slash + "" == final + Slash;
    TrailingSlash(final);
    CleanRender(rooted, entered);
    if |entered| != |all| {
      LongerDiffers(rooted, entered, all);
    }
  }

  lemma JoinSlash(rooted: bool, names: seq<string>)
    requires Normal(rooted, names)
    ensures JoinPaths(Render(rooted, names), Slash) == Render(rooted, names)
  {
    var a := Render(rooted, names);
    RenderReads(rooted, names);
    TrailingSlash(a);
    TrailingSlash(a + Slash);
    CleanRender(rooted, names);
  }

  /** The directory of a plain path is clean already. */
  lemma DirIsClean(path: string)
    ensures Clean(Dir(path)) == Dir(path)
  {
    CleanTwice(path[..AfterSlash(path)]);
  }

  /** Where the index mount goes: right under the directory that would be created without it. */
  lemma {:induction false} MountGoesUnder(stat: Stat, source: string, dest: string, mount: string)
    requires GetDestinationDir(stat, source, dest).Some? && Ordinary(mount)
    ensures var dir := JoinPaths(GetDestinationDir(stat, source, dest).value, mount);
      Base(dir) == mount && Dir(dir) == GetDestinationDir(stat, source, dest).value
  {
    var rooted, names := DestinationDirIsClean(stat, source, dest);
    JoinRender(rooted, names, mount);
    DirRender(rooted, names, mount);
    BaseRender(rooted, names, mount);
  }

  /** A move that is not file to file creates its cleaned destination. */
  lemma {:induction false} MountedDirectory(stat: Stat, source: string, dest: string, mount: string)
    requires GetDestinationDir(stat, source, dest).Some? && Ordinary(mount)
    requires !FileToFile(stat, source, dest)
    ensures var dir := JoinPaths(GetDestinationDir(stat, source, dest).value, mount);
      dir == Clean(Rewritten(stat, source, dest, dir))
  {
    var rooted, names := DestinationDirIsClean(stat, source, dest);
    JoinRender(rooted, names, mount);
    NormalMore(rooted, names, mount);
    RenderReads(rooted, names + [mount]);
    CleanRender(rooted, names + [mount]);
    TrailingSlash(Render(rooted, names + [mount]));
    var dir := Render(rooted, names + [mount]);
    assert dir + "" == dir;
  }

  /** A file that goes to a file under an index mount. */
  lemma {:induction false} MountedFile(stat: Stat, source: string, dest: string, mount: string)
    requires GetDestinationDir(stat, source, dest).Some? && Ordinary(mount)
    requires FileToFile(stat, source, dest)
    ensures var dir := JoinPaths(GetDestinationDir(stat, source, dest).value, mount);
      var final := Rewritten(stat, source, dest, dir);
      && (dir == Dir(final) <==> KeepsItsParent(dest))
      && (Ordinary(Base(dest)) && !HasSuffix(dest, Slash) ==> Base(final) == Base(dest))
  {
    var rooted, names := DestinationDirIsClean(stat, source, dest);
    var last := Base(dest);
    JoinRender(rooted, names, mount);
    NormalMore(rooted, names, mount);
    BaseIsName(dest);
    var dir := Render(rooted, names + [mount]);
    if HasSuffix(dest, Slash) {
      SlashedParent(rooted, names, mount, last);
    } else {
      LastNamesParent(rooted, names, mount, last);
      assert JoinPaths(dir, last) + "" == JoinPaths(dir, last);
      if Ordinary(last) {
        JoinRender(rooted, names + [mount], last);
        BaseRender(rooted, names + [mount], last);
      }
    }
  }

  /** What is created, for every source, destination, file type answer and storage: the parent of
      the final destination for a file that goes to a file, the cleaned final destination for any
      other move. An index mount changes that only for a file destination whose last name is not
      ordinary or that ends in a slash. */
  lemma {:induction false} CreatedDirectory(stat: Stat, source: string, dest: string, storage: Storage, ns: string, plan: Plan)
    requires '/' !in ns
    ensures Planned(stat, source, dest, storage, ns) == Some(plan) ==>
      var mounted := CheckIndexMountDir(storage, source, ns) != Some("");
      && (!FileToFile(stat, source, dest) ==> plan.dir == Clean(plan.final))
      && (!mounted ==> plan.final == dest)
      && (FileToFile(stat, source, dest) && !mounted ==> plan.dir == Dir(plan.final))
      && (FileToFile(stat, source, dest) && mounted ==> (plan.dir == Dir(plan.final) <==> KeepsItsParent(dest)))
  {
    if Planned(stat, source, dest, storage, ns) == Some(plan) {
      var mount := CheckIndexMountDir(storage, source, ns).value;
      if mount != "" {
        NeededMountIsNeverTheEnd(storage, source, ns);
        MountIsOrdinary(mount, ns);
        if FileToFile(stat, source, dest) {
          MountedFile(stat, source, dest, mount);
        } else {
          MountedDirectory(stat, source, dest, mount);
        }
      } else {
        DirIsClean(dest);
      }
    }
  }

  /** There is no plan exactly when the source cannot be examined, its storage cannot be looked up, or
      its file system has index mounts and no part of its path looks like one. */
  lemma {:induction false} PlanFails(stat: Stat, source: string, dest: string, storage: Storage, ns: string)
    ensures Planned(stat, source, dest, storage, ns).None? <==>
      || stat(source).None?
      || storage.LookupFailed?
      || (storage.Found? && storage.fsType in {"gfs2", "xfs"} && forall i, e :: 0 <= i ==> !MountAt(source, ns, i, e))
  {
    ExtractedMount(source, ns);
  }

  /** The mount is the last name of the directory, right under the one that would be created
      without it, and a file keeps its name. */
  lemma {:induction false} MountIsInserted(stat: Stat, source: string, dest: string, storage: Storage, ns: string)
    requires '/' !in ns
    requires Planned(stat, source, dest, storage, ns).Some?
    requires CheckIndexMountDir(storage, source, ns).value != ""
    ensures var plan := Planned(stat, source, dest, storage, ns).value;
      && Base(plan.dir) == CheckIndexMountDir(storage, source, ns).value
      && Dir(plan.dir) == GetDestinationDir(stat, source, dest).value
      && (FileToFile(stat, source, dest) && Ordinary(Base(dest)) && !HasSuffix(dest, Slash) ==>
            Base(plan.final) == Base(dest) && Dir(Dir(plan.final)) == Dir(dest))
  {
    var mount := CheckIndexMountDir(storage, source, ns).value;
    NeededMountIsNeverTheEnd(storage, source, ns);
    MountIsOrdinary(mount, ns);
    MountGoesUnder(stat, source, dest, mount);
    if FileToFile(stat, source, dest) {
      MountedFile(stat, source, dest, mount);
      DirIsClean(dest);
    }
  }

  /** A missing destination that ends in a dot is taken for a file, and the directory created under
      an index mount is then not its parent. */
  lemma {:induction false} DotIsMisplaced(stat: Stat, source: string, storage: Storage, ns: string)
    requires '/' !in ns && stat(source) == Some(File) && stat("/out/.") == None
    requires CheckIndexMountDir(storage, source, ns).Some? && CheckIndexMountDir(storage, source, ns).value != ""
    ensures var plan := Planned(stat, source, "/out/.", storage, ns);
      plan.Some? && plan.value.dir != Dir(plan.value.final)
  {
    BaseAppend("/out", ".");
    assert "/out" + Slash + "." == "/out/.";
    CreatedDirectory(stat, source, "/out/.", storage, ns, Planned(stat, source, "/out/.", storage, ns).value);
  }
}

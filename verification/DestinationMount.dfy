/** The destination plan in the terms of what a data movement says and what stat answers. */
module DestinationMount {
  import opened Wrappers
  import opened Text
  import opened Paths
  import opened IndexMount
  import opened Destination

  /** A file moves to a file: the source is one, and the destination is one or is missing without a
      slash at its end. */
  lemma FileToFileMeans(stat: Stat, source: string, dest: string)
    ensures FileToFile(stat, source, dest) <==>
      stat(source) == Some(File) &&
      (stat(dest) == Some(File) || (stat(dest) == None && !HasSuffix(dest, Slash)))
  {
  }

  /** The directory that is created without an index mount. */
  lemma PlainDirectory(stat: Stat, source: string, dest: string)
    requires stat(source).Some?
    ensures GetDestinationDir(stat, source, dest) ==
      Some(if FileToFile(stat, source, dest) then Dir(dest) else Clean(dest))
  {
    DirIsClean(dest);
  }

  /** The source lies on a file system with index mounts, and this is the mount in its path. */
  ghost predicate Mounted(storage: Storage, source: string, ns: string, i: int, e: int) {
    && storage.Found? && storage.fsType in {"gfs2", "xfs"}
    && LeftmostMount(source, ns, i, e) && !HasSuffix(source, source[i..e])
  }

  lemma MountIsNeeded(storage: Storage, source: string, ns: string, i: int, e: int)
    requires Mounted(storage, source, ns, i, e)
    ensures CheckIndexMountDir(storage, source, ns) == Some(source[i..e]) && IsMountName(source[i..e], ns)
  {
    LeftmostIsFound(source, ns, i, e);
    MountText(source, ns, i, e);
  }

  lemma MountIsNotNeeded(storage: Storage, source: string, ns: string)
    requires CheckIndexMountDir(storage, source, ns).Some? && forall i, e :: !Mounted(storage, source, ns, i, e)
    ensures CheckIndexMountDir(storage, source, ns) == Some("")
  {
    if storage.Found? && storage.fsType in {"gfs2", "xfs"} {
      ExtractedMount(source, ns);
      var i, e :| LeftmostMount(source, ns, i, e) &&
        var mount := ExtractIndexMountDir(source, ns).value;
        if HasSuffix(source, source[i..e]) then mount == "" else mount == source[i..e] && e < |source| && source[e] == '/';
      assert !Mounted(storage, source, ns, i, e);
    }
  }

  /** With an index mount: its name is the last one of the directory, right under the one that would be
      created without it; the destination becomes that directory, or the file in it, and keeps its
      slash. */
  lemma {:induction false} MountedPlan(stat: Stat, source: string, dest: string, storage: Storage, ns: string, i: int, e: int)
    requires '/' !in ns && stat(source).Some? && Mounted(storage, source, ns, i, e)
    ensures var plan := Planned(stat, source, dest, storage, ns);
      && plan.Some?
      && Base(plan.value.dir) == source[i..e]
      && Dir(plan.value.dir) == (if FileToFile(stat, source, dest) then Dir(dest) else Clean(dest))
      && plan.value.final ==
           (if FileToFile(stat, source, dest) then JoinPaths(plan.value.dir, Base(dest)) else plan.value.dir) +
           (if HasSuffix(dest, Slash) then Slash else "")
  {
    MountIsNeeded(storage, source, ns, i, e);
    MountIsOrdinary(source[i..e], ns);
    PlainDirectory(stat, source, dest);
    MountGoesUnder(stat, source, dest, source[i..e]);
  }

  /** Without one the destination stays, and the directory is the plain one. */
  lemma UnmountedPlan(stat: Stat, source: string, dest: string, storage: Storage, ns: string)
    requires Planned(stat, source, dest, storage, ns).Some? && forall i, e :: !Mounted(storage, source, ns, i, e)
    ensures Planned(stat, source, dest, storage, ns).value ==
      Plan(if FileToFile(stat, source, dest) then Dir(dest) else Clean(dest), dest)
  {
    MountIsNotNeeded(storage, source, ns);
    PlainDirectory(stat, source, dest);
  }

  // ---------------------------------------------------------------- a mount moves the destination

  lemma PrintedDir(path: string) returns (rooted: bool, names: seq<string>)
    ensures Normal(rooted, names) && Dir(path) == Render(rooted, names)
  {
    var front := path[..AfterSlash(path)];
    ComponentsNormal(front);
    rooted, names := Rooted(front), Components(front);
  }

  lemma SlashedDir(path: string)
    requires path != ""
    ensures Dir(path + Slash) == Clean(path)
  {
    DirAppend(path, "");
    assert path + Slash + "" == path + Slash;
    TrailingSlash(path);
  }

  /** A destination that is no file moves. */
  lemma DirectoryMoves(dest: string, mount: string, slash: string)
    requires Ordinary(mount) && (slash == "" || slash == Slash)
    ensures JoinPaths(Clean(dest), mount) + slash != dest
  {
    var rooted, names := Rooted(dest), Components(dest);
    ComponentsNormal(dest);
    NormalMore(rooted, names, mount);
    JoinRender(rooted, names, mount);
    var dir := Render(rooted, names + [mount]);
    RenderReads(rooted, names + [mount]);
    CleanRender(rooted, names + [mount]);
    TrailingSlash(dir);
    assert dir + "" == dir;
    LongerDiffers(rooted, names, names + [mount]);
    assert Clean(dir + slash) == dir && Clean(dest) == Render(rooted, names);
  }

  /** So does a file destination without a slash at its end. */
  lemma FileMoves(dest: string, mount: string)
    requires Ordinary(mount) && !HasSuffix(dest, Slash)
    ensures JoinPaths(JoinPaths(Dir(dest), mount), Base(dest)) != dest
  {
    var rooted, names := PrintedDir(dest);
    var all, last := names + [mount], Base(dest);
    NormalMore(rooted, names, mount);
    JoinRender(rooted, names, mount);
    BaseIsName(dest);
    JoinRender(rooted, all, last);
    if Ordinary(last) {
      DirRender(rooted, all, last);
      LongerDiffers(rooted, all, names);
    } else if last == "." {
      BaseRender(rooted, names, mount);
    } else {
      assert Entered(rooted, all, last) == names;
      NoOwnParent(rooted, names);
    }
  }

  /** A printed path that is its own directory does not end in a step up. */
  lemma NoOwnParent(rooted: bool, names: seq<string>)
    requires Normal(rooted, names)
    ensures Dir(Render(rooted, names)) != Render(rooted, names) || Base(Render(rooted, names)) != ".."
  {
    if names == [] {
      if rooted {
        assert Render(true, []) == Slash;
        BaseIsName(Slash);
      } else {
        NoSlash(".");
      }
    } else {
      var n := |names| - 1;
      assert names == names[..n] + [names[n]];
      DirRender(rooted, names[..n], names[n]);
      LongerDiffers(rooted, names[..n], names);
    }
  }

  /** What a mount directory and the last name of the destination print to. */
  lemma JoinedUnderMount(rooted: bool, names: seq<string>, mount: string, last: string) returns (entered: seq<string>)
    requires Normal(rooted, names) && Ordinary(mount) && (Kept(last) || last == "." || last == Slash)
    ensures Normal(rooted, entered)
    ensures JoinPaths(JoinPaths(Render(rooted, names), mount), last) == Render(rooted, entered)
    ensures if last == ".." then entered == names else |entered| > |names|
  {
    var all := names + [mount];
    NormalMore(rooted, names, mount);
    JoinRender(rooted, names, mount);
    if last == Slash {
      JoinSlash(rooted, all);
      return all;
    }
    entered := Entered(rooted, all, last);
    JoinRender(rooted, all, last);
    EnteredNormal(rooted, all, last);
    assert last == ".." ==> entered == names;
  }

  lemma SlashedRender(rooted: bool, names: seq<string>)
    requires Normal(rooted, names)
    ensures Dir(Render(rooted, names) + Slash) == Render(rooted, names)
  {
    RenderReads(rooted, names);
    SlashedDir(Render(rooted, names));
    CleanRender(rooted, names);
  }

  /** One with a slash at its end moves too, unless it is a clean path up. */
  lemma SlashedFileMoves(dest: string, mount: string)
    requires Ordinary(mount) && HasSuffix(dest, Slash)
    ensures JoinPaths(JoinPaths(Dir(dest), mount), Base(dest)) + Slash == dest <==>
      Base(dest) == ".." && dest == Dir(dest) + Slash
  {
    var rooted, names := PrintedDir(dest);
    BaseIsName(dest);
    var entered := JoinedUnderMount(rooted, names, mount, Base(dest));
    SlashedRender(rooted, entered);
    if Base(dest) != ".." {
      LongerDiffers(rooted, entered, names);
    }
  }

  /** A file is moved to the directory above, under its name there. */
  predicate StepsUp(stat: Stat, source: string, dest: string) {
    FileToFile(stat, source, dest) && HasSuffix(dest, Slash) && Base(dest) == ".." && dest == Dir(dest) + Slash
  }

  /** An index mount changes every destination but a clean path up with a slash, at which a file is
      reported. */
  lemma {:induction false} MountMovesDestination(stat: Stat, source: string, dest: string, storage: Storage, ns: string, i: int, e: int)
    requires '/' !in ns && stat(source).Some? && Mounted(storage, source, ns, i, e)
    ensures Planned(stat, source, dest, storage, ns).Some?
    ensures Planned(stat, source, dest, storage, ns).value.final == dest <==> StepsUp(stat, source, dest)
  {
    var mount := source[i..e];
    MountIsNeeded(storage, source, ns, i, e);
    MountIsOrdinary(mount, ns);
    PlainDirectory(stat, source, dest);
    if !FileToFile(stat, source, dest) {
      DirectoryMoves(dest, mount, if HasSuffix(dest, Slash) then Slash else "");
    } else if HasSuffix(dest, Slash) {
      SlashedFileMoves(dest, mount);
    } else {
      FileMoves(dest, mount);
      var final := JoinPaths(JoinPaths(Dir(dest), mount), Base(dest));
      assert final + "" == final;
    }
  }
}

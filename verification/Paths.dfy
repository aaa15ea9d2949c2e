/** Slash-separated paths as Go's filepath package treats them on Linux. */
module Paths {
  import opened Text

  const Slash: string := "/"

  predicate Rooted(path: string) {
    path != "" && path[0] == '/'
  }

  /** Goes through the parts of a path, keeping the stack of components that remain. */
  function Walk(rooted: bool, stack: seq<string>, parts: seq<string>): seq<string>
    decreases |parts|
  {
    if parts == [] then stack
    else Walk(rooted, Entered(rooted, stack, parts[0]), parts[1..])
  }

  function Entered(rooted: bool, stack: seq<string>, part: string): seq<string> {
    if part == "" || part == "." then stack
    else if part != ".." then stack + [part]
    else if stack != [] && stack[|stack| - 1] != ".." then stack[..|stack| - 1]
    else if rooted then stack
    else stack + [part]
  }

  function Components(path: string): seq<string> {
    Walk(Rooted(path), [], Split(path, Slash))
  }

  function Render(rooted: bool, components: seq<string>): string {
    if rooted then Slash + Join(components, Slash)
    else if components == [] then "."
    else Join(components, Slash)
  }

  function Clean(path: string): string {
    Render(Rooted(path), Components(path))
  }

  /** The position after the last slash. */
  function AfterSlash(path: string): (r: nat)
    ensures r <= |path|
    ensures r > 0 ==> path[r - 1] == '/'
    ensures forall i :: r <= i < |path| ==> path[i] != '/'
  {
    if path == "" then 0
    else if path[|path| - 1] == '/' then |path|
    else AfterSlash(path[..|path| - 1])
  }

  function Dir(path: string): string {
    Clean(path[..AfterSlash(path)])
  }

  function WithoutSlashes(path: string): string {
    if path != "" && path[|path| - 1] == '/' then WithoutSlashes(path[..|path| - 1]) else path
  }

  function Base(path: string): string {
    var bare := WithoutSlashes(path);
    if path == "" then "."
    else if bare == "" then Slash
    else bare[AfterSlash(bare)..]
  }

  function JoinPaths(a: string, b: string): string {
    if a != "" then Clean(a + Slash + b)
    else if b != "" then Clean(b)
    else ""
  }

  /** A name that a walk does not skip. */
  predicate Kept(name: string) {
    name != "" && name != "." && '/' !in name
  }

  /** A name that is neither skipped nor steps up. */
  predicate Ordinary(name: string) {
    Kept(name) && name != ".."
  }

  /** What a walk leaves: ordinary names, after steps up when the path is relative. */
  predicate Normal(rooted: bool, components: seq<string>) {
    && (forall i :: 0 <= i < |components| ==> Kept(components[i]))
    && (forall i, j :: 0 <= i <= j < |components| && components[j] == ".." ==> !rooted && components[i] == "..")
  }

  lemma EnteredNormal(rooted: bool, stack: seq<string>, part: string)
    requires Normal(rooted, stack) && '/' !in part
    ensures Normal(rooted, Entered(rooted, stack, part))
  {
    var r := Entered(rooted, stack, part);
    assert forall i :: 0 <= i < |r| && i < |stack| ==> r[i] == stack[i];
    assert |r| > |stack| ==> r == stack + [part] && Kept(part);
  }

  lemma {:induction false} WalkNormal(rooted: bool, stack: seq<string>, parts: seq<string>)
    requires Normal(rooted, stack)
    requires forall p :: p in parts ==> '/' !in p
    ensures Normal(rooted, Walk(rooted, stack, parts))
    decreases |parts|
  {
    if parts != [] {
      EnteredNormal(rooted, stack, parts[0]);
      WalkNormal(rooted, Entered(rooted, stack, parts[0]), parts[1..]);
    }
  }

  lemma ComponentsNormal(path: string)
    ensures Normal(Rooted(path), Components(path))
  {
    SplitParts(path, '/');
    WalkNormal(Rooted(path), [], Split(path, Slash));
  }

  lemma {:induction false} WalkAppend(rooted: bool, stack: seq<string>, a: seq<string>, b: seq<string>)
    ensures Walk(rooted, stack, a + b) == Walk(rooted, Walk(rooted, stack, a), b)
    decreases |a|
  {
    if a == [] {
      assert a + b == b;
    } else {
      assert (a + b)[1..] == a[1..] + b;
      WalkAppend(rooted, Entered(rooted, stack, a[0]), a[1..], b);
    }
  }

  /** A walk over normal components keeps them all. */
  lemma {:induction false} WalkKeeps(rooted: bool, stack: seq<string>, parts: seq<string>)
    requires Normal(rooted, stack + parts)
    ensures Walk(rooted, stack, parts) == stack + parts
    decreases |parts|
  {
    if parts != [] {
      var n := |stack|;
      assert (stack + parts)[n] == parts[0];
      assert n > 0 ==> (stack + parts)[n - 1] == stack[n - 1];
      assert stack + [parts[0]] + parts[1..] == stack + parts;
      WalkKeeps(rooted, stack + [parts[0]], parts[1..]);
    }
  }

  /** What follows a slash is walked after what precedes it. */
  lemma ComponentsAppend(a: string, b: string)
    requires a != ""
    ensures Rooted(a + Slash + b) == Rooted(a)
    ensures Components(a + Slash + b) == Walk(Rooted(a), Components(a), Split(b, Slash))
  {
    SplitAppend(a, '/', b);
    WalkAppend(Rooted(a), [], Split(a, Slash), Split(b, Slash));
  }

  /** A slash in front only makes a path rooted. */
  lemma ComponentsRooted(b: string)
    ensures Components(Slash + b) == Walk(true, [], Split(b, Slash))
  {
    NoSeparator("", '/');
    SplitAppend("", '/', b);
    assert "" + Slash + b == Slash + b;
    WalkAppend(true, [], [""], Split(b, Slash));
    assert Walk(true, [], [""]) == [];
  }

  /** One part without a slash enters as itself. */
  lemma WalkOne(rooted: bool, stack: seq<string>, part: string)
    requires '/' !in part
    ensures Walk(rooted, stack, Split(part, Slash)) == Entered(rooted, stack, part)
  {
    NoSeparator(part, '/');
    assert Walk(rooted, stack, [part]) == Walk(rooted, Entered(rooted, stack, part), []);
  }

  /** A slash at the end changes nothing. */
  lemma TrailingSlash(a: string)
    requires a != ""
    ensures Clean(a + Slash) == Clean(a)
  {
    ComponentsAppend(a, "");
    WalkOne(Rooted(a), Components(a), "");
    assert a + Slash + "" == a + Slash;
  }

  lemma {:induction false} JoinHasNoEmptyStart(components: seq<string>)
    requires components != [] && components[0] != ""
    ensures Join(components, Slash) != "" && Join(components, Slash)[0] == components[0][0]
  {
  }

  /** Printed components are read back. */
  lemma RenderReads(rooted: bool, components: seq<string>)
    requires Normal(rooted, components)
    ensures Render(rooted, components) != ""
    ensures Rooted(Render(rooted, components)) == rooted
    ensures Components(Render(rooted, components)) == components
  {
    if components == [] {
      if rooted {
        ComponentsRooted("");
        WalkOne(true, [], "");
      } else {
        WalkOne(false, [], ".");
      }
    } else {
      var text := Join(components, Slash);
      SplitJoin(components, '/');
      WalkKeeps(rooted, [], components);
      assert [] + components == components;
      JoinHasNoEmptyStart(components);
      if rooted {
        ComponentsRooted(text);
      }
    }
  }

  lemma CleanRender(rooted: bool, components: seq<string>)
    requires Normal(rooted, components)
    ensures Clean(Render(rooted, components)) == Render(rooted, components)
  {
    RenderReads(rooted, components);
  }

  /** Cleaning twice is cleaning once. */
  lemma CleanTwice(path: string)
    ensures Clean(Clean(path)) == Clean(path)
  {
    ComponentsNormal(path);
    CleanRender(Rooted(path), Components(path));
  }

  lemma LastSlash(path: string, i: nat)
    requires i < |path| && path[i] == '/' && forall k :: i < k < |path| ==> path[k] != '/'
    ensures AfterSlash(path) == i + 1
  {
    var r := AfterSlash(path);
    assert r > i;
    assert path[r - 1] == '/';
  }

  lemma NoSlash(path: string)
    requires '/' !in path
    ensures AfterSlash(path) == 0
  {
  }

  /** Cuts a path at its last slash. */
  lemma DirAppend(a: string, b: string)
    requires '/' !in b
    ensures Dir(a + Slash + b) == Clean(a + Slash)
  {
    var path := a + Slash + b;
    assert path[|a|] == '/';
    forall k | |a| < k < |path|
      ensures path[k] != '/'
    {
      assert path[k] == b[k - |a| - 1];
    }
    LastSlash(path, |a|);
    assert path[..|a| + 1] == a + Slash;
  }

  lemma DirOfOne(rooted: bool, last: string)
    requires Kept(last)
    ensures Dir(Render(rooted, [last])) == Render(rooted, [])
  {
    if rooted {
      assert Render(true, [last]) == "" + Slash + last;
      DirAppend("", last);
      assert "" + Slash == Render(true, []);
      CleanRender(true, []);
    } else {
      NoSlash(last);
      WalkOne(false, [], "");
    }
  }

  lemma RenderLast(rooted: bool, init: seq<string>, last: string)
    requires init != []
    ensures Render(rooted, init + [last]) == Render(rooted, init) + Slash + last
  {
    JoinLast(init, last, Slash);
  }

  /** The directory of a printed path is the path without its last component. */
  lemma DirRender(rooted: bool, init: seq<string>, last: string)
    requires Normal(rooted, init) && Kept(last)
    ensures Dir(Render(rooted, init + [last])) == Render(rooted, init)
  {
    if init == [] {
      DirOfOne(rooted, last);
      assert init + [last] == [last];
    } else {
      RenderLast(rooted, init, last);
      DirAppend(Render(rooted, init), last);
      RenderReads(rooted, init);
      TrailingSlash(Render(rooted, init));
    }
  }

  /** Joining onto a printed path enters one more part. */
  lemma JoinRender(rooted: bool, components: seq<string>, part: string)
    requires Normal(rooted, components) && '/' !in part
    ensures JoinPaths(Render(rooted, components), part) == Render(rooted, Entered(rooted, components, part))
  {
    RenderReads(rooted, components);
    ComponentsAppend(Render(rooted, components), part);
    WalkOne(rooted, components, part);
  }

  /** The last name of a path has no slash, unless the path is nothing but slashes. */
  lemma {:induction false} BaseIsName(path: string)
    ensures Base(path) != ""
    ensures Base(path) == Slash || '/' !in Base(path)
    ensures Base(path) == Slash ==> HasSuffix(path, Slash)
  {
    Stripped(path);
  }

  lemma {:induction false} Stripped(path: string)
    ensures WithoutSlashes(path) != "" ==> WithoutSlashes(path)[|WithoutSlashes(path)| - 1] != '/'
    ensures WithoutSlashes(path) != path ==> HasSuffix(path, Slash)
  {
    if path != "" && path[|path| - 1] == '/' {
      Stripped(path[..|path| - 1]);
      assert path[|path| - 1..] == Slash;
    }
  }

  /** The last name of a printed path is its last component. */
  lemma BaseRender(rooted: bool, init: seq<string>, last: string)
    requires Kept(last)
    ensures Base(Render(rooted, init + [last])) == last
  {
    if init == [] {
      assert init + [last] == [last];
      if rooted {
        BaseAppend("", last);
        assert "" + Slash + last == Render(true, [last]);
      } else {
        NoSlash(last);
      }
    } else {
      RenderLast(rooted, init, last);
      BaseAppend(Render(rooted, init), last);
    }
  }

  lemma BaseAppend(a: string, b: string)
    requires '/' !in b && b != ""
    ensures Base(a + Slash + b) == b
  {
    var path := a + Slash + b;
    assert path[|a|] == '/' && path[|path| - 1] == b[|b| - 1];
    forall k | |a| < k < |path|
      ensures path[k] != '/'
    {
      assert path[k] == b[k - |a| - 1];
    }
    LastSlash(path, |a|);
    assert path[|a| + 1..] == b;
  }
}

/** Finding the index mount directory in a source path. */
module IndexMount {
  import opened Wrappers
  import opened Text
  import opened Paths

  predicate IsDigit(c: char) {
    '0' <= c <= '9'
  }

  /** The end of the run of digits that starts at `i`. */
  function DigitsEnd(path: string, i: nat): (e: nat)
    requires i <= |path|
    ensures i <= e <= |path|
    ensures forall k :: i <= k < e ==> IsDigit(path[k])
    ensures e < |path| ==> !IsDigit(path[e])
    decreases |path| - i
  {
    if i < |path| && IsDigit(path[i]) then DigitsEnd(path, i + 1) else i
  }

  /** The namespace, a dash and digits stand at `i`, up to a slash or the end of the path at `e`. */
  predicate MountAt(path: string, ns: string, i: int, e: int) {
    && 0 <= i && i + |ns| + 1 < e <= |path|
    && path[i..i + |ns| + 1] == ns + "-"
    && (forall k :: i + |ns| + 1 <= k < e ==> IsDigit(path[k]))
    && (e == |path| || path[e] == '/')
  }

  /** The pattern written out: the namespace, a dash and at least one digit, before a slash or the end. */
  lemma MountReading(a: string, ns: string, digits: string, rest: string)
    requires digits != "" && forall k :: 0 <= k < |digits| ==> '0' <= digits[k] <= '9'
    ensures MountAt(a + ns + "-" + digits + rest, ns, |a|, |a| + |ns| + 1 + |digits|) <==> rest == "" || rest[0] == '/'
  {
    var path := a + ns + "-" + digits + rest;
    var b := |a| + |ns| + 1;
    assert path[|a|..b] == ns + "-";
    assert forall k :: b <= k < b + |digits| ==> path[k] == digits[k - b];
    assert rest != "" ==> path[b + |digits|] == rest[0];
  }

  /** Every match reads so. */
  lemma MountIsReading(path: string, ns: string, i: int, e: int) returns (a: string, digits: string, rest: string)
    requires MountAt(path, ns, i, e)
    ensures path == a + ns + "-" + digits + rest && |a| == i && |a| + |ns| + 1 + |digits| == e
    ensures digits != "" && (forall k :: 0 <= k < |digits| ==> '0' <= digits[k] <= '9') && (rest == "" || rest[0] == '/')
  {
    var b := i + |ns| + 1;
    a, digits, rest := path[..i], path[b..e], path[e..];
    assert path == path[..i] + path[i..b] + path[b..e] + path[e..];
    assert a + (ns + "-") == a + ns + "-";
    forall k | 0 <= k < |digits|
      ensures '0' <= digits[k] <= '9'
    {
      assert IsDigit(path[b + k]);
    }
  }

  /** The leftmost match at `i` or later. */
  function FindMount(path: string, ns: string, i: nat): (r: Option<(nat, nat)>)
    ensures r.Some? ==>
      i <= r.value.0 && MountAt(path, ns, r.value.0, r.value.1) &&
      forall j, f :: i <= j < r.value.0 ==> !MountAt(path, ns, j, f)
    ensures r.None? ==> forall j, f :: i <= j ==> !MountAt(path, ns, j, f)
    decreases |path| - i
  {
    var digits := i + |ns| + 1;
    if digits >= |path| then None
    else
      var e := DigitsEnd(path, digits);
      MountEndsAt(path, ns, i);
      if MountAt(path, ns, i, e) then Some((i, e)) else FindMount(path, ns, i + 1)
  }

  /** A match is as long as its digits go. */
  lemma MountEndsAt(path: string, ns: string, i: nat)
    requires i + |ns| + 1 < |path|
    ensures forall f :: MountAt(path, ns, i, f) ==> f == DigitsEnd(path, i + |ns| + 1)
  {
    var e := DigitsEnd(path, i + |ns| + 1);
    forall f | MountAt(path, ns, i, f)
      ensures f == e
    {
      assert f < |path| ==> !IsDigit(path[f]);
    }
  }

  /** The mount to append to the destination: none to be found, empty when the path already ends in
      it, or its name. */
  function ExtractIndexMountDir(path: string, ns: string): Option<string> {
    match FindMount(path, ns, 0)
    case None => None
    case Some(m) =>
      var mount := path[m.0..m.1];
      Some(if HasSuffix(path, mount) then "" else mount)
  }

  predicate IsMountName(mount: string, ns: string) {
    && |mount| > |ns| + 1
    && mount[..|ns| + 1] == ns + "-"
    && forall k :: |ns| + 1 <= k < |mount| ==> IsDigit(mount[k])
  }

  /** A match that no other precedes. */
  ghost predicate LeftmostMount(path: string, ns: string, i: int, e: int) {
    MountAt(path, ns, i, e) && forall j, f :: 0 <= j < i ==> !MountAt(path, ns, j, f)
  }

  lemma LeftmostIsFound(path: string, ns: string, i: int, e: int)
    requires LeftmostMount(path, ns, i, e)
    ensures FindMount(path, ns, 0) == Some((i, e))
  {
    var r := FindMount(path, ns, 0);
    assert r.Some? && MountAt(path, ns, r.value.0, r.value.1);
    assert r.value.0 == i;
    MountEndsAt(path, ns, i);
  }

  /** What is extracted: nothing exactly when nothing matches; otherwise the text of the leftmost
      match, or the empty string exactly when the path ends in that text, here or elsewhere.  The text
      is the namespace, a dash and digits, and when it is not how the path ends a slash follows it. */
  lemma {:induction false} ExtractedMount(path: string, ns: string)
    ensures ExtractIndexMountDir(path, ns).None? <==> forall i, e :: 0 <= i ==> !MountAt(path, ns, i, e)
    ensures ExtractIndexMountDir(path, ns).Some? ==> exists i, e ::
      && LeftmostMount(path, ns, i, e)
      && IsMountName(path[i..e], ns)
      && var mount := ExtractIndexMountDir(path, ns).value;
         if HasSuffix(path, path[i..e]) then mount == "" else mount == path[i..e] && e < |path| && path[e] == '/'
  {
    var r := FindMount(path, ns, 0);
    if r.Some? {
      var i, e := r.value.0, r.value.1;
      MountText(path, ns, i, e);
      assert e == |path| ==> HasSuffix(path, path[i..e]);
      assert LeftmostMount(path, ns, i, e);
    }
  }

  lemma MountText(path: string, ns: string, i: int, e: int)
    requires MountAt(path, ns, i, e)
    ensures IsMountName(path[i..e], ns)
  {
    var mount := path[i..e];
    assert mount[..|ns| + 1] == path[i..i + |ns| + 1];
    forall k | |ns| + 1 <= k < |mount|
      ensures IsDigit(mount[k])
    {
      assert mount[k] == path[i + k];
    }
  }

  /** A mount of a namespace without a slash is an ordinary name. */
  lemma MountIsOrdinary(mount: string, ns: string)
    requires IsMountName(mount, ns) && '/' !in ns
    ensures Ordinary(mount)
  {
    assert IsDigit(mount[|mount| - 1]);
    forall k | 0 <= k < |mount|
      ensures mount[k] != '/'
    {
      if k <= |ns| {
        assert mount[k] == (ns + "-")[k];
      } else {
        assert IsDigit(mount[k]);
      }
    }
  }

  /** A whole component of the path stands between `i` and `e`. */
  predicate ComponentAt(path: string, i: int, e: int) {
    && 0 <= i <= e <= |path| && '/' !in path[i..e]
    && (i == 0 || path[i - 1] == '/') && (e == |path| || path[e] == '/')
  }

  lemma NameIsSplitOff(name: string, rest: string)
    requires '/' !in name
    ensures name in Split(name, Slash) && name in Split(name + Slash + rest, Slash)
  {
    NoSeparator(name, '/');
    FirstSeparator(name, '/', rest);
    assert ([name] + Split(rest, Slash))[0] == name;
  }

  lemma Cut(path: string, e: nat)
    requires e < |path|
    ensures path == path[..e] + [path[e]] + path[e + 1..]
  {
  }

  lemma HeadIsSplitOff(path: string, e: nat)
    requires e <= |path| && '/' !in path[..e] && (e == |path| || path[e] == '/')
    ensures path[..e] in Split(path, Slash)
  {
    if e == |path| {
      assert path[..e] == path;
      NameIsSplitOff(path, "");
    } else {
      Cut(path, e);
      NameIsSplitOff(path[..e], path[e + 1..]);
    }
  }

  lemma TailIsSplitOff(path: string, i: nat)
    requires 1 <= i <= |path| && path[i - 1] == '/'
    ensures forall p :: p in Split(path[i..], Slash) ==> p in Split(path, Slash)
  {
    SplitAppend(path[..i - 1], '/', path[i..]);
    assert path == path[..i - 1] + Slash + path[i..];
  }

  lemma ComponentIsSplitOff(path: string, i: int, e: int)
    requires ComponentAt(path, i, e)
    ensures path[i..e] in Split(path, Slash)
  {
    var tail := path[i..];
    assert tail[..e - i] == path[i..e];
    HeadIsSplitOff(tail, e - i);
    if i == 0 {
      assert tail == path;
    } else {
      TailIsSplitOff(path, i);
    }
  }

  /** A match is a whole component exactly when the path starts with it or a slash precedes it: the
      pattern does not look to the left. */
  lemma MountIsComponent(path: string, ns: string, i: int, e: int)
    requires MountAt(path, ns, i, e) && '/' !in ns
    ensures ComponentAt(path, i, e) <==> i == 0 || path[i - 1] == '/'
    ensures ComponentAt(path, i, e) ==> path[i..e] in Split(path, Slash)
  {
    MountText(path, ns, i, e);
    MountIsOrdinary(path[i..e], ns);
    if ComponentAt(path, i, e) {
      ComponentIsSplitOff(path, i, e);
    }
  }

  /** So the end of a longer name is taken for a mount. */
  lemma EndOfNameIsTaken()
    ensures ExtractIndexMountDir("xns-3/f", "ns") == Some("ns-3")
    ensures !ComponentAt("xns-3/f", 1, 5)
  {
    var path := "xns-3/f";
    assert path[1..4] == "ns" + "-";
    assert MountAt(path, "ns", 1, 5);
    forall f
      ensures !MountAt(path, "ns", 0, f)
    {
      assert path[0..3][0] != ("ns" + "-")[0];
    }
    LeftmostIsFound(path, "ns", 1, 5);
    assert path[1..5] == "ns-3" && path[3..] == "-3/f";
    assert !HasSuffix(path, "ns-3");
  }
}

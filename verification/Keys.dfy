/** The daemon's request keys: a namespace and a name joined by two dashes. */
module Keys {
  import opened Wrappers
  import opened Text

  const Dashes: string := "--"

  function DmKey(ns: string, name: string): string {
    ns + Dashes + name
  }

  /** The first two parts of a key; none stands for the index out of range with which the source ends
      when there is only one. */
  function DmKeySplit(key: string): Option<(string, string)> {
    var parts := Split(key, Dashes);
    if |parts| < 2 then None else Some((parts[0], parts[1]))
  }

  /** A namespace that the split finds again: no two dashes in it, and none at its end to make two
      with the first dash of the separator. */
  predicate PlainNamespace(ns: string) {
    !Contains(ns, Dashes) && (ns == "" || ns[|ns| - 1] != '-')
  }

  predicate PlainName(name: string) {
    !Contains(name, Dashes)
  }

  lemma DashesAt(s: string, i: int)
    ensures OccursAt(s, Dashes, i) <==> 0 <= i < |s| - 1 && s[i] == '-' && s[i + 1] == '-'
  {
    if 0 <= i < |s| - 1 {
      assert s[i..i + 2] == [s[i], s[i + 1]];
    }
  }

  /** The first two dashes of a key stand after the namespace exactly when it is plain. */
  lemma FirstDashes(ns: string, name: string)
    ensures 0 <= Index(DmKey(ns, name), Dashes) <= |ns|
    ensures Index(DmKey(ns, name), Dashes) == |ns| <==> PlainNamespace(ns)
  {
    var key := DmKey(ns, name);
    var k := Index(key, Dashes);
    DashesAt(key, |ns|);
    if PlainNamespace(ns) {
      forall i | 0 <= i < |ns|
        ensures !OccursAt(key, Dashes, i)
      {
        DashesAt(key, i);
        DashesAt(ns, i);
      }
    } else if Contains(ns, Dashes) {
      var i :| 0 <= i <= |ns| && OccursAt(ns, Dashes, i);
      DashesAt(key, i);
      DashesAt(ns, i);
    } else {
      DashesAt(key, |ns| - 1);
    }
  }

  /** A name sent by a client can be split exactly when it has two dashes in it. */
  lemma SplitsIfDashed(key: string)
    ensures DmKeySplit(key).Some? <==> Contains(key, Dashes)
  {
    var i := Index(key, Dashes);
    if i >= 0 {
      assert OccursAt(key, Dashes, i);
      assert |Split(key[i + 2..], Dashes)| >= 1;
    }
  }

  lemma SecondPart(name: string)
    ensures Split(name, Dashes)[0] == name <==> PlainName(name)
  {
    var i := Index(name, Dashes);
    if i >= 0 {
      assert OccursAt(name, Dashes, i);
      assert |name[..i]| < |name|;
    }
  }

  /** Splitting a key gives back what it was made of exactly for plain namespaces and names. */
  lemma KeyRoundTrip(ns: string, name: string)
    ensures DmKeySplit(DmKey(ns, name)) == Some((ns, name)) <==> PlainNamespace(ns) && PlainName(name)
    ensures DmKeySplit(DmKey(ns, name)).Some?
  {
    var key := DmKey(ns, name);
    var k := Index(key, Dashes);
    FirstDashes(ns, name);
    SplitsIfDashed(key);
    SecondPart(name);
    assert Split(key, Dashes)[0] == key[..k];
    assert |key[..k]| == k;
    if k == |ns| {
      assert key[..k] == ns && key[k + 2..] == name;
    }
  }

  /** A namespace with two dashes, as Kubernetes allows, is not found again. */
  lemma DashedNamespaceIsLost()
    ensures DmKeySplit(DmKey("a--b", "c")) != Some(("a--b", "c"))
  {
    DashesAt("a--b", 1);
    assert Contains("a--b", Dashes);
    KeyRoundTrip("a--b", "c");
  }

  /** Two requests with one key. */
  lemma SharedKey()
    ensures DmKey("a--b", "c") == DmKey("a", "b--c")
  {
  }

  /** Two plain requests share a key only if they are the same. */
  lemma KeysAreDistinct(ns: string, name: string, ns': string, name': string)
    requires DmKey(ns, name) == DmKey(ns', name')
    requires PlainNamespace(ns) && PlainNamespace(ns')
    ensures ns == ns' && name == name'
  {
    FirstDashes(ns, name);
    FirstDashes(ns', name');
    var key := DmKey(ns, name);
    assert ns == key[..|ns|] && name == key[|ns| + 2..];
    assert ns' == key[..|ns|] && name' == key[|ns| + 2..];
  }

  /** A namespace and a name share their key with no others exactly when their dashes cannot be
      read in two ways. */
  lemma KeyIsUnique(ns: string, name: string)
    ensures (forall ns', name' :: DmKey(ns', name') == DmKey(ns, name) ==> ns' == ns && name' == name) <==>
      PlainNamespace(ns) && PlainName(name) && !HasPrefix(name, "-")
  {
    var key := DmKey(ns, name);
    FirstDashes(ns, name);
    if PlainNamespace(ns) && PlainName(name) && !HasPrefix(name, "-") {
      forall ns', name' | DmKey(ns', name') == key
        ensures ns' == ns && name' == name
      {
        SameSplit(ns, name, ns', name');
      }
    } else {
      var i := OtherDashes(ns, name);
      var ns', name' := key[..i], key[i + 2..];
      CutAtDashes(key, i);
      assert |ns'| != |ns|;
      assert DmKey(ns', name') == DmKey(ns, name) && ns' != ns;
    }
  }

  lemma CutAtDashes(key: string, i: nat)
    requires OccursAt(key, Dashes, i)
    ensures DmKey(key[..i], key[i + 2..]) == key
  {
    assert key == key[..i] + key[i..i + 2] + key[i + 2..];
  }

  lemma OtherDashes(ns: string, name: string) returns (i: nat)
    requires !(PlainNamespace(ns) && PlainName(name) && !HasPrefix(name, "-"))
    ensures i != |ns| && OccursAt(DmKey(ns, name), Dashes, i)
  {
    var key := DmKey(ns, name);
    FirstDashes(ns, name);
    if !PlainNamespace(ns) {
      i := Index(key, Dashes);
    } else if HasPrefix(name, "-") {
      i := |ns| + 1;
      DashesAt(key, i);
    } else {
      var k :| 0 <= k <= |name| && OccursAt(name, Dashes, k);
      i := |ns| + 2 + k;
      DashesAt(name, k);
      DashesAt(key, i);
    }
  }

  lemma SameSplit(ns: string, name: string, ns': string, name': string)
    requires DmKey(ns', name') == DmKey(ns, name)
    requires PlainNamespace(ns) && PlainName(name) && !HasPrefix(name, "-")
    ensures ns' == ns && name' == name
  {
    var key := DmKey(ns, name);
    FirstDashes(ns, name);
    FirstDashes(ns', name');
    DashesAt(key, |ns'|);
    assert OccursAt(key, Dashes, |ns'|);
    if |ns'| == |ns| {
      assert ns == key[..|ns|] && name == key[|ns| + 2..];
      assert ns' == key[..|ns|] && name' == key[|ns| + 2..];
    } else {
      NoLaterDashes(ns, name, |ns'|);
    }
  }

  lemma NoLaterDashes(ns: string, name: string, i: nat)
    requires PlainName(name) && !HasPrefix(name, "-")
    requires OccursAt(DmKey(ns, name), Dashes, i)
    ensures i <= |ns|
  {
    var key := DmKey(ns, name);
    DashesAt(key, i);
    assert name != "" ==> key[|ns| + 2] == name[0];
    assert name != "" && name[0] == '-' ==> HasPrefix(name, "-");
    if i > |ns| + 1 {
      DashesAt(name, i - |ns| - 2);
    }
  }
}

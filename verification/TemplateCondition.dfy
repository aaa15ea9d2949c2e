/** Exactly which values may be substituted pass by pass. */
module TemplateCondition {
  import opened Text
  import opened Template

  /** Values in the order of the placeholders. */
  function Values(hostfile: string, uid: nat, gid: nat, source: string, dest: string): (r: seq<string>)
    ensures |r| == 5
  {
    [hostfile, Decimal(uid), Decimal(gid), source, dest]
  }

  predicate ClearHostfile(hostfile: string) {
    forall k :: 1 <= k < 5 ==> Clear(hostfile, Names[k])
  }

  predicate ClearSource(source: string) {
    Clear(source, Names[4])
  }

  /** Not empty, no dollar in it and no capital at its start. */
  predicate Plain(v: string) {
    v != "" && '$' !in v && !('A' <= v[0] <= 'Z')
  }

  lemma PlainIsClear(v: string, k: nat)
    requires k < 5 && Plain(v)
    ensures Clear(v, Names[k])
  {
    var name := Names[k];
    NamesShape(k);
    forall i | 0 <= i < |v|
      ensures !Comparable(v[i..], name)
    {
      assert v[i..][0] != name[0];
    }
    forall m | 1 <= m < |name|
      ensures !Comparable(v, name[m..])
    {
      assert v[0] != name[m..][0];
    }
  }

  lemma DecimalIsPlain(n: nat)
    ensures Plain(Decimal(n))
  {
    assert Decimal(n)[0] in Decimal(n);
  }

  /** Clear paths give the substitution, whatever the ids and the destination are. */
  lemma ClearPathsSubstitute(t: string, hostfile: string, uid: nat, gid: nat, source: string, dest: string)
    requires ClearHostfile(hostfile) && ClearSource(source)
    ensures Sequential(t, Values(hostfile, uid, gid, source, dest)) ==
      Simultaneous(t, Values(hostfile, uid, gid, source, dest))
  {
    var values := Values(hostfile, uid, gid, source, dest);
    DecimalIsPlain(uid);
    DecimalIsPlain(gid);
    forall j, k | 0 <= j < k < 5
      ensures Clear(values[j], Names[k])
    {
      if j == 1 || j == 2 {
        PlainIsClear(values[j], k);
      }
    }
    PassesAreOneSubstitution(t, values);
  }

  lemma CopiedChar(c: char, t: string, values: seq<string>)
    requires |values| == 5 && Which([c] + t) == -1
    ensures Simultaneous([c] + t, values) == [c] + Simultaneous(t, values)
  {
    assert ([c] + t)[1..] == t;
  }

  lemma NotADollar(c: char, t: string)
    requires c != '$'
    ensures Which([c] + t) == -1
  {
    if Which([c] + t) >= 0 {
      NamesShape(Which([c] + t));
    }
  }

  /** Text without a dollar is copied. */
  lemma {:induction false} CopiedText(x: string, t: string, values: seq<string>)
    requires |values| == 5 && '$' !in x
    ensures Simultaneous(x + t, values) == x + Simultaneous(t, values)
    decreases |x|
  {
    if x == "" {
      assert x + t == t;
    } else {
      var c, y := x[0], x[1..];
      assert x == [c] + y;
      NotADollar(c, y + t);
      CopiedChar(c, y + t, values);
      CopiedText(y, t, values);
      Assoc([c], y, t);
      Assoc([c], y, Simultaneous(t, values));
    }
  }

  lemma WhichName(j: nat, w: string)
    requires j < 5
    ensures Which(Names[j] + w) == j
  {
    var s := Names[j] + w;
    assert s[..|Names[j]|] == Names[j];
    var i := Which(s);
    NamesShape(j);
    assert i >= 0;
    NamesShape(i);
    assert s[1] == Names[i][1] && s[1] == Names[j][1];
  }

  /** A text that starts with a placeholder has its dollar only at its start. */
  lemma StartsWithName(s: string, i: nat, m: nat)
    requires i < 5 && m >= 1 && HasPrefix(s, Names[i]) && m < |s| && s[m] == '$'
    ensures |Names[i]| <= m && s[1] == Names[i][1]
  {
    NamesShape(i);
    assert forall n :: 0 <= n < |Names[i]| ==> s[n] == Names[i][n];
  }

  /** A placeholder that breaks off is none. */
  lemma BrokenOff(k: nat, m: nat, t: string)
    requires k < 5 && 1 <= m < |Names[k]| && t != "" && t[0] == '$'
    ensures Which(Names[k][..m] + t) == -1
  {
    var s := Names[k][..m] + t;
    NamesShape(k);
    if Which(s) >= 0 {
      StartsWithName(s, Which(s), m);
    }
  }

  lemma NameThenText(j: nat, w: string, values: seq<string>)
    requires j < 5 && '$' !in w && |values| == 5
    ensures Simultaneous(Names[j] + w, values) == values[j] + w
  {
    CopiedText(w, "", values);
    assert w + "" == w;
    WhichName(j, w);
    NamesShape(j);
    assert (Names[j] + w)[|Names[j]|..] == w;
  }

  lemma BrokenOffIsCopied(k: nat, m: nat, t: string, values: seq<string>)
    requires k < 5 && m < |Names[k]| && t != "" && t[0] == '$' && |values| == 5
    ensures Simultaneous(Names[k][..m] + t, values) == Names[k][..m] + Simultaneous(t, values)
  {
    var u := Names[k][..m];
    if m == 0 {
      assert u + t == t;
    } else {
      NamesShape(k);
      BrokenOff(k, m, t);
      var y := u[1..];
      assert u == [u[0]] + y;
      Assoc([u[0]], y, t);
      CopiedChar(u[0], y + t, values);
      CopiedText(y, t, values);
      Assoc([u[0]], y, Simultaneous(t, values));
    }
  }

  /** A placeholder between the start of one and the end of one is substituted, and nothing else. */
  lemma Around(k: nat, m: nat, j: nat, n: nat, values: seq<string>)
    requires k < 5 && j < 5 && m < |Names[k]| && 1 <= n <= |Names[k]| && |values| == 5
    ensures Simultaneous(Names[k][..m] + Names[j] + Names[k][n..], values) ==
      Names[k][..m] + values[j] + Names[k][n..]
  {
    var u, w := Names[k][..m], Names[k][n..];
    NamesShape(k);
    NamesShape(j);
    NameThenText(j, w, values);
    BrokenOffIsCopied(k, m, Names[j] + w, values);
    Assoc(u, Names[j], w);
    Assoc(u, values[j], w);
  }

  /** What is not clear of a placeholder can be completed to it. */
  lemma Completes(v: string, k: nat) returns (m: nat, n: nat, at: nat)
    requires k < 5 && !Clear(v, Names[k])
    ensures m < |Names[k]| && 1 <= n <= |Names[k]|
    ensures OccursAt(Names[k][..m] + v + Names[k][n..], Names[k], at)
  {
    var name := Names[k];
    NamesShape(k);
    if i :| 0 <= i < |v| && Comparable(v[i..], name) {
      m, at := 0, i;
      n := EndsWithin(v, i, name);
    } else {
      m :| 1 <= m < |name| && Comparable(v, name[m..]);
      at := 0;
      n := StartsWithin(v, m, name);
    }
  }

  lemma EndsWithin(v: string, i: nat, name: string) returns (n: nat)
    requires i < |v| && name != "" && Comparable(v[i..], name)
    ensures 1 <= n <= |name| && OccursAt(name[..0] + v + name[n..], name, i)
  {
    n := if HasPrefix(v[i..], name) then |name| else |v| - i;
    var s := v + name[n..];
    assert name[..0] + v + name[n..] == s;
    assert s[i..i + |name|] == name;
  }

  lemma StartsWithin(v: string, m: nat, name: string) returns (n: nat)
    requires 1 <= m < |name| && Comparable(v, name[m..])
    ensures 1 <= n <= |name| && OccursAt(name[..m] + v + name[n..], name, 0)
  {
    n := if HasPrefix(v, name[m..]) then |name| else m + |v|;
    var s := name[..m] + v + name[n..];
    assert s[..|name|] == name;
  }

  lemma {:induction false} PassShrinks(s: string, name: string, x: string)
    requires |x| < |name|
    ensures |ReplaceAll(s, name, x)| <= |s|
    ensures |ReplaceAll(s, name, x)| == |s| ==> ReplaceAll(s, name, x) == s && forall i :: !OccursAt(s, name, i)
    decreases |s|
  {
    if s != "" {
      if HasPrefix(s, name) {
        PassShrinks(s[|name|..], name, x);
      } else {
        PassShrinks(s[1..], name, x);
        Shift(s, name);
        assert s == [s[0]] + s[1..];
      }
    }
  }

  predicate ShortAfter(values: seq<string>, j: nat)
    requires |values| == 5
  {
    forall i :: j < i < 5 ==> |values[i]| < |Names[i]|
  }

  /** From the pass in which a placeholder appears, short values can only shrink the text, and the
      pass for that placeholder does. */
  lemma {:induction false} PassesShrink(t: string, values: seq<string>, j: nat, k: nat, at: nat, n: nat)
    requires |values| == 5 && j < k < 5 && j < n <= 5 && ShortAfter(values, j)
    requires OccursAt(Passes(t, values, j + 1), Names[k], at)
    ensures |Passes(t, values, n)| <= |Passes(t, values, j + 1)|
    ensures |Passes(t, values, n)| == |Passes(t, values, j + 1)| ==>
      n <= k && Passes(t, values, n) == Passes(t, values, j + 1)
  {
    if n > j + 1 {
      PassesShrink(t, values, j, k, at, n - 1);
      PassShrinks(Passes(t, values, n - 1), Names[n - 1], values[n - 1]);
    }
  }

  /** A value that is not clear of a later placeholder is found out by some template. */
  lemma Exposed(values: seq<string>, j: nat, k: nat) returns (t: string)
    requires |values| == 5 && j < k < 5 && !Clear(values[j], Names[k])
    requires ClearValues(values, j + 1) && ShortAfter(values, j)
    ensures Sequential(t, values) != Simultaneous(t, values)
  {
    var m, n, at := Completes(values[j], k);
    t := Names[k][..m] + Names[j] + Names[k][n..];
    Around(k, m, j, n, values);
    Around(k, m, j, n, Partly(values, j + 1));
    PassesPartly(t, values, j + 1);
    PassesShrink(t, values, j, k, at, 5);
  }

  lemma SmallValues()
    ensures Plain("/") && Decimal(0) == "0"
  {
  }

  /** The hostfiles that every template accepts are those clear of the other placeholders. */
  lemma HostfileCondition(hostfile: string)
    ensures ClearHostfile(hostfile) <==>
      forall t, uid, gid, source, dest :: ClearSource(source) ==>
        Sequential(t, Values(hostfile, uid, gid, source, dest)) ==
        Simultaneous(t, Values(hostfile, uid, gid, source, dest))
  {
    if ClearHostfile(hostfile) {
      forall t, uid, gid, source, dest | ClearSource(source)
        ensures Sequential(t, Values(hostfile, uid, gid, source, dest)) ==
          Simultaneous(t, Values(hostfile, uid, gid, source, dest))
      {
        ClearPathsSubstitute(t, hostfile, uid, gid, source, dest);
      }
    } else {
      var k :| 1 <= k < 5 && !Clear(hostfile, Names[k]);
      SmallValues();
      PlainIsClear("/", 4);
      var t := Exposed(Values(hostfile, 0, 0, "/", ""), 0, k);
    }
  }

  /** The sources that every template accepts are those clear of the destination's placeholder. */
  lemma SourceCondition(source: string)
    ensures ClearSource(source) <==>
      forall t, hostfile, uid, gid, dest :: ClearHostfile(hostfile) ==>
        Sequential(t, Values(hostfile, uid, gid, source, dest)) ==
        Simultaneous(t, Values(hostfile, uid, gid, source, dest))
  {
    if ClearSource(source) {
      forall t, hostfile, uid, gid, dest | ClearHostfile(hostfile)
        ensures Sequential(t, Values(hostfile, uid, gid, source, dest)) ==
          Simultaneous(t, Values(hostfile, uid, gid, source, dest))
      {
        ClearPathsSubstitute(t, hostfile, uid, gid, source, dest);
      }
    } else {
      SmallValues();
      forall k | 0 <= k < 5
        ensures Clear("/", Names[k]) && Clear("0", Names[k])
      {
        PlainIsClear("/", k);
        PlainIsClear("0", k);
      }
      var t := Exposed(Values("/", 0, 0, source, ""), 3, 4);
    }
  }

  /** Paths that are not empty, have no dollar and start with no capital are substituted as meant. */
  lemma PlainPathsSubstitute(t: string, hostfile: string, uid: nat, gid: nat, source: string, dest: string)
    requires Plain(hostfile) && Plain(source)
    ensures Sequential(t, Values(hostfile, uid, gid, source, dest)) ==
      Simultaneous(t, Values(hostfile, uid, gid, source, dest))
  {
    forall k | 0 <= k < 5
      ensures Clear(hostfile, Names[k]) && Clear(source, Names[k])
    {
      PlainIsClear(hostfile, k);
      PlainIsClear(source, k);
    }
    ClearPathsSubstitute(t, hostfile, uid, gid, source, dest);
  }

  /** None of the three demands on a plain path can be dropped. */
  lemma UnclearSources()
    ensures !ClearSource("") && !ClearSource("/a/$") && !ClearSource("DEST")
  {
    var name := Names[4];
    assert Comparable("", name[1..]);
    assert "/a/$"[3..] == "$" && Comparable("/a/$"[3..], name);
    assert name[1..] == "DEST" && Comparable("DEST", name[1..]);
  }
}

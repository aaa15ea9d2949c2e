/** Substituting values into a command template: five passes, one after the other, against all
    placeholders at once. */
module Template {
  import opened Text

  const Names: seq<string> := ["$HOSTFILE", "$UID", "$GID", "$SRC", "$DEST"]

  /** The text after the first `k` passes: each replaces one placeholder all over the text that the
      pass before it left. */
  function Passes(s: string, values: seq<string>, k: nat): string
    requires |values| == 5 && k <= 5
  {
    if k == 0 then s else ReplaceAll(Passes(s, values, k - 1), Names[k - 1], values[k - 1])
  }

  /** What the code does: five passes in the order of the placeholders. */
  function Sequential(s: string, values: seq<string>): string
    requires |values| == 5
  {
    Passes(s, values, 5)
  }

  /** Which placeholder the text starts with. */
  function Which(s: string): (r: int)
    ensures -1 <= r < 5
    ensures r >= 0 ==> HasPrefix(s, Names[r])
    ensures r == -1 ==> forall i :: 0 <= i < 5 ==> !HasPrefix(s, Names[i])
  {
    if HasPrefix(s, Names[0]) then 0
    else if HasPrefix(s, Names[1]) then 1
    else if HasPrefix(s, Names[2]) then 2
    else if HasPrefix(s, Names[3]) then 3
    else if HasPrefix(s, Names[4]) then 4
    else -1
  }

  /** What a template means: every placeholder of the template, and nothing else, becomes its value. */
  function Simultaneous(s: string, values: seq<string>): string
    requires |values| == 5
    decreases |s|
  {
    if s == "" then ""
    else
      var i := Which(s);
      if i >= 0 then values[i] + Simultaneous(s[|Names[i]|..], values)
      else [s[0]] + Simultaneous(s[1..], values)
  }

  /** One of the two is how the other starts. */
  predicate Comparable(a: string, b: string) {
    HasPrefix(a, b) || HasPrefix(b, a)
  }

  /** No text in which `v` stands can have an occurrence of `name` that overlaps it. */
  predicate Clear(v: string, name: string) {
    && (forall i :: 0 <= i < |v| ==> !Comparable(v[i..], name))
    && (forall m :: 1 <= m < |name| ==> !Comparable(v, name[m..]))
  }

  /** How the placeholders look: a dollar and letters, told apart by the first letter. */
  lemma NamesShape(k: nat)
    requires k < 5
    ensures |Names[k]| >= 4 && Names[k][0] == '$'
    ensures forall m :: 1 <= m < |Names[k]| ==> 'A' <= Names[k][m] <= 'Z'
    ensures forall j :: 0 <= j < 5 && j != k ==> |Names[j]| >= 2 && Names[j][1] != Names[k][1]
  {
  }

  lemma NamesAreClear(j: nat, k: nat)
    requires j < 5 && k < 5 && j != k
    ensures Clear(Names[j], Names[k])
  {
    NamesShape(j);
    NamesShape(k);
    var a, b := Names[j], Names[k];
    forall i | 0 <= i < |a|
      ensures !Comparable(a[i..], b)
    {
      if i == 0 {
        assert a[i..][1] != b[1];
      } else {
        assert a[i..][0] != b[0];
      }
    }
    forall m | 1 <= m < |b|
      ensures !Comparable(a, b[m..])
    {
      assert a[0] != b[m..][0];
    }
  }

  lemma StartsTogether(a: string, t: string, b: string)
    requires HasPrefix(a + t, b)
    ensures Comparable(a, b)
  {
    if |b| <= |a| {
      assert (a + t)[..|b|] == a[..|b|];
    } else {
      assert a == (a + t)[..|a|] == b[..|a|];
    }
  }

  lemma StartsApart(a: string, t: string, b: string)
    requires !Comparable(a, b)
    ensures !HasPrefix(a + t, b)
  {
    if HasPrefix(a + t, b) {
      StartsTogether(a, t, b);
    }
  }

  /** A pass goes over a text in which the placeholder cannot start. */
  lemma {:induction false} PassOver(v: string, t: string, name: string, x: string)
    requires name != "" && forall i :: 0 <= i < |v| ==> !Comparable(v[i..], name)
    ensures ReplaceAll(v + t, name, x) == v + ReplaceAll(t, name, x)
    decreases |v|
  {
    if v == "" {
      assert v + t == t;
    } else {
      assert v[0..] == v;
      StartsApart(v, t, name);
      assert (v + t)[1..] == v[1..] + t;
      forall i | 0 <= i < |v[1..]|
        ensures !Comparable(v[1..][i..], name)
      {
        assert v[1..][i..] == v[i + 1..];
      }
      PassOver(v[1..], t, name, x);
    }
  }

  /** The rest of a placeholder shows up in the substituted text only where the template has it. */
  lemma {:induction false} RunIsPlain(s: string, values: seq<string>, k: nat, m: nat)
    requires k < 5 && 1 <= m <= |Names[k]|
    requires |values| == 5 && values[k] == Names[k]
    requires forall j :: 0 <= j < 5 && j != k ==> Clear(values[j], Names[k])
    requires HasPrefix(Simultaneous(s, values), Names[k][m..])
    ensures HasPrefix(s, Names[k][m..])
    decreases |s|
  {
    var w := Names[k][m..];
    NamesShape(k);
    if w != "" {
      var i := Which(s);
      if i >= 0 {
        ValueStopsRun(values, i, k, m);
        StartsApart(values[i], Simultaneous(s[|Names[i]|..], values), w);
        assert false;
      } else {
        var rest := Simultaneous(s[1..], values);
        assert Simultaneous(s, values)[1..] == rest;
        assert s[0] == w[0];
        assert Names[k][m + 1..] == w[1..];
        assert rest[..|w| - 1] == w[1..];
        RunIsPlain(s[1..], values, k, m + 1);
        assert s == [s[0]] + s[1..];
        assert w == [w[0]] + w[1..];
      }
    }
  }

  lemma ValueStopsRun(values: seq<string>, i: nat, k: nat, m: nat)
    requires i < 5 && k < 5 && 1 <= m < |Names[k]|
    requires |values| == 5 && values[k] == Names[k]
    requires forall j :: 0 <= j < 5 && j != k ==> Clear(values[j], Names[k])
    ensures !Comparable(values[i], Names[k][m..])
  {
    if i == k {
      NamesShape(k);
      assert Names[k][0] != Names[k][m..][0];
    } else {
      assert Clear(values[i], Names[k]);
    }
  }

  /** One pass is one more placeholder substituted. */
  lemma {:induction false} Pass(s: string, values: seq<string>, k: nat, x: string)
    requires k < 5 && |values| == 5 && values[k] == Names[k]
    requires forall j :: 0 <= j < 5 && j != k ==> Clear(values[j], Names[k])
    ensures ReplaceAll(Simultaneous(s, values), Names[k], x) == Simultaneous(s, values[k := x])
    decreases |s|
  {
    if s != "" {
      var i := Which(s);
      if i == k {
        var rest := s[|Names[k]|..];
        Pass(rest, values, k, x);
        PassHere(Simultaneous(rest, values), Names[k], x);
      } else if i >= 0 {
        var rest := s[|Names[i]|..];
        Pass(rest, values, k, x);
        PassOver(values[i], Simultaneous(rest, values), Names[k], x);
      } else {
        Pass(s[1..], values, k, x);
        PassChar(s, values, k, x);
      }
    }
  }

  lemma PassHere(t: string, name: string, x: string)
    requires name != ""
    ensures ReplaceAll(name + t, name, x) == x + ReplaceAll(t, name, x)
  {
    assert (name + t)[..|name|] == name && (name + t)[|name|..] == t;
  }

  lemma PassChar(s: string, values: seq<string>, k: nat, x: string)
    requires k < 5 && |values| == 5 && values[k] == Names[k] && s != "" && Which(s) == -1
    requires forall j :: 0 <= j < 5 && j != k ==> Clear(values[j], Names[k])
    ensures ReplaceAll(Simultaneous(s, values), Names[k], x) ==
      [s[0]] + ReplaceAll(Simultaneous(s[1..], values), Names[k], x)
  {
    var t, name := Simultaneous(s, values), Names[k];
    assert t[1..] == Simultaneous(s[1..], values);
    if HasPrefix(t, name) {
      NamesShape(k);
      assert t[0] == s[0] == name[0];
      assert t[1..][..|name| - 1] == name[1..];
      RunIsPlain(s[1..], values, k, 1);
    }
  }

  /** Substituting the placeholders for themselves changes nothing. */
  lemma {:induction false} SubstituteNames(s: string)
    ensures Simultaneous(s, Names) == s
    decreases |s|
  {
    if s != "" {
      var i := Which(s);
      var n := if i >= 0 then |Names[i]| else 1;
      SubstituteNames(s[n..]);
      assert s == s[..n] + s[n..];
    }
  }

  /** Each of the first `n` placeholders is clear of the values substituted before it. */
  predicate ClearValues(values: seq<string>, n: nat)
    requires |values| == 5
  {
    forall j, k :: 0 <= j < k < n && k < 5 ==> Clear(values[j], Names[k])
  }

  /** The first `k` values and the placeholders that are left. */
  function Partly(values: seq<string>, k: nat): (r: seq<string>)
    requires |values| == 5 && k <= 5
    ensures |r| == 5
  {
    values[..k] + Names[k..]
  }

  lemma NextPass(s: string, values: seq<string>, k: nat)
    requires |values| == 5 && k < 5 && ClearValues(values, k + 1)
    ensures ReplaceAll(Simultaneous(s, Partly(values, k)), Names[k], values[k]) ==
      Simultaneous(s, Partly(values, k + 1))
  {
    var now := Partly(values, k);
    forall j | 0 <= j < 5 && j != k
      ensures Clear(now[j], Names[k])
    {
      if j > k {
        NamesAreClear(j, k);
      }
    }
    Pass(s, now, k, values[k]);
    assert now[k := values[k]] == Partly(values, k + 1);
  }

  lemma {:induction false} PassesPartly(s: string, values: seq<string>, k: nat)
    requires |values| == 5 && k <= 5 && ClearValues(values, k)
    ensures Passes(s, values, k) == Simultaneous(s, Partly(values, k))
  {
    if k == 0 {
      assert Partly(values, 0) == Names;
      SubstituteNames(s);
    } else {
      PassesPartly(s, values, k - 1);
      NextPass(s, values, k - 1);
    }
  }

  /** The five passes are one substitution when each value is clear of the placeholders after it. */
  lemma PassesAreOneSubstitution(s: string, values: seq<string>)
    requires |values| == 5 && ClearValues(values, 5)
    ensures Sequential(s, values) == Simultaneous(s, values)
  {
    PassesPartly(s, values, 5);
    assert Partly(values, 5) == values;
  }
}

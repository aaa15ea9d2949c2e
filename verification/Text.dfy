/** The string functions of the Go library that the helpers are built from. */
module Text {

  predicate HasPrefix(s: string, p: string) {
    |p| <= |s| && s[..|p|] == p
  }

  predicate HasSuffix(s: string, p: string) {
    |p| <= |s| && s[|s| - |p|..] == p
  }

  /** `sub` stands at position `i` of `s`. */
  predicate OccursAt(s: string, sub: string, i: int) {
    0 <= i <= |s| - |sub| && s[i..i + |sub|] == sub
  }

  predicate Contains(s: string, sub: string) {
    exists i :: 0 <= i <= |s| && OccursAt(s, sub, i)
  }

  lemma Shift(s: string, sub: string)
    requires s != ""
    ensures forall i :: 1 <= i <= |s| ==> (OccursAt(s, sub, i) <==> OccursAt(s[1..], sub, i - 1))
  {
    forall i | 1 <= i <= |s|
      ensures OccursAt(s, sub, i) <==> OccursAt(s[1..], sub, i - 1)
    {
      if i <= |s| - |sub| {
        var u, v := s[i..i + |sub|], s[1..][i - 1..i - 1 + |sub|];
        assert forall k :: 0 <= k < |sub| ==> u[k] == v[k];
      }
    }
  }

  /** A single character occurs where it stands. */
  lemma CharAt(s: string, c: char)
    ensures forall i :: OccursAt(s, [c], i) <==> 0 <= i < |s| && s[i] == c
  {
    forall i | 0 <= i < |s|
      ensures s[i..i + 1] == [s[i]]
    {
    }
  }

  /** The first position of `sub`, or -1. */
  function Index(s: string, sub: string): (r: int)
    ensures -1 <= r <= |s| - |sub| || r == -1
    ensures r >= 0 ==> OccursAt(s, sub, r) && forall i :: 0 <= i < r ==> !OccursAt(s, sub, i)
    ensures r == -1 ==> forall i :: 0 <= i <= |s| ==> !OccursAt(s, sub, i)
  {
    if |s| < |sub| then -1
    else if HasPrefix(s, sub) then 0
    else if s == "" then -1
    else
      var r := Index(s[1..], sub);
      Shift(s, sub);
      if r == -1 then -1 else r + 1
  }

  /** Splits around every occurrence of `sep`, from the left. */
  function Split(s: string, sep: string): (parts: seq<string>)
    requires sep != ""
    ensures parts != []
    decreases |s|
  {
    var i := Index(s, sep);
    if i == -1 then [s] else [s[..i]] + Split(s[i + |sep|..], sep)
  }

  function Join(parts: seq<string>, sep: string): string {
    if parts == [] then ""
    else if |parts| == 1 then parts[0]
    else parts[0] + sep + Join(parts[1..], sep)
  }

  lemma {:induction false} JoinLast(init: seq<string>, last: string, sep: string)
    requires init != []
    ensures Join(init + [last], sep) == Join(init, sep) + sep + last
  {
    var all := init + [last];
    assert all[0] == init[0] && all[1..] == init[1..] + [last];
    if |init| > 1 {
      JoinLast(init[1..], last, sep);
    } else {
      assert all[1..] == [last];
    }
  }

  /** Joining what was split gives the text back. */
  lemma {:induction false} JoinSplit(s: string, sep: string)
    requires sep != ""
    ensures Join(Split(s, sep), sep) == s
    decreases |s|
  {
    var i := Index(s, sep);
    if i != -1 {
      var rest := s[i + |sep|..];
      JoinSplit(rest, sep);
      assert Split(s, sep)[1..] == Split(rest, sep);
      assert s == s[..i] + sep + rest;
    }
  }

  /** A separator character that stands in a text is found where the part before it ends. */
  lemma FirstSeparator(a: string, c: char, b: string)
    requires c !in a
    ensures Index(a + [c] + b, [c]) == |a|
    ensures Split(a + [c] + b, [c]) == [a] + Split(b, [c])
  {
    var s := a + [c] + b;
    CharAt(s, c);
    assert s[|a|] == c && s[..|a|] == a && s[|a| + 1..] == b;
    assert forall i :: 0 <= i < |a| ==> s[i] == a[i];
    assert OccursAt(s, [c], |a|);
  }

  lemma NoSeparator(a: string, c: char)
    requires c !in a
    ensures Split(a, [c]) == [a]
  {
    CharAt(a, c);
  }

  /** A text with the separator in it is what stands before its first one and after. */
  lemma AtSeparator(a: string, c: char) returns (x: string, y: string)
    requires c in a
    ensures a == x + [c] + y && c !in x
  {
    CharAt(a, c);
    var i := Index(a, [c]);
    x, y := a[..i], a[i + 1..];
    assert forall k :: 0 <= k < i ==> !OccursAt(a, [c], k);
  }

  /** Splitting two joined texts is splitting each of them. */
  lemma {:induction false} SplitAppend(a: string, c: char, b: string)
    ensures Split(a + [c] + b, [c]) == Split(a, [c]) + Split(b, [c])
    decreases |a|
  {
    if c !in a {
      NoSeparator(a, c);
      FirstSeparator(a, c, b);
    } else {
      var x, y := AtSeparator(a, c);
      SplitAppend(y, c, b);
      SplitPrepend(x, c, y, b);
    }
  }

  lemma Assoc<T>(a: seq<T>, b: seq<T>, c: seq<T>)
    ensures (a + b) + c == a + (b + c)
  {
  }

  lemma SplitPrepend(x: string, c: char, y: string, b: string)
    requires c !in x
    requires Split(y + [c] + b, [c]) == Split(y, [c]) + Split(b, [c])
    ensures Split((x + [c] + y) + [c] + b, [c]) == Split(x + [c] + y, [c]) + Split(b, [c])
  {
    calc {
      Split((x + [c] + y) + [c] + b, [c]);
      { Assoc(x + [c], y, [c]); Assoc(x + [c], y + [c], b); }
      Split(x + [c] + (y + [c] + b), [c]);
      { FirstSeparator(x, c, y + [c] + b); }
      [x] + (Split(y, [c]) + Split(b, [c]));
      { Assoc([x], Split(y, [c]), Split(b, [c])); }
      ([x] + Split(y, [c])) + Split(b, [c]);
      { FirstSeparator(x, c, y); }
      Split(x + [c] + y, [c]) + Split(b, [c]);
    }
  }

  /** Splitting what was joined gives the parts back when none of them has the separator. */
  lemma {:induction false} SplitJoin(parts: seq<string>, c: char)
    requires parts != [] && forall p :: p in parts ==> c !in p
    ensures Split(Join(parts, [c]), [c]) == parts
  {
    NoSeparator(parts[0], c);
    if |parts| > 1 {
      SplitJoin(parts[1..], c);
      SplitAppend(parts[0], c, Join(parts[1..], [c]));
    }
  }

  /** No part of a split has the separator in it. */
  lemma {:induction false} SplitParts(s: string, c: char)
    ensures forall p :: p in Split(s, [c]) ==> c !in p
    decreases |s|
  {
    var i := Index(s, [c]);
    var n := if i == -1 then |s| else i;
    CharAt(s, c);
    assert forall k :: 0 <= k < n ==> !OccursAt(s, [c], k);
    if i == -1 {
      assert Split(s, [c]) == [s];
    } else {
      SplitParts(s[i + 1..], c);
      assert Split(s, [c]) == [s[..i]] + Split(s[i + 1..], [c]);
    }
  }

  /** Replaces every occurrence of `from`, scanning from the left. */
  function ReplaceAll(s: string, from: string, to: string): string
    requires from != ""
    decreases |s|
  {
    if s == "" then ""
    else if HasPrefix(s, from) then to + ReplaceAll(s[|from|..], from, to)
    else [s[0]] + ReplaceAll(s[1..], from, to)
  }

  lemma {:induction false} ReplaceAbsent(s: string, from: string, to: string)
    requires from != "" && forall i :: 0 <= i <= |s| ==> !OccursAt(s, from, i)
    ensures ReplaceAll(s, from, to) == s
    decreases |s|
  {
    if s != "" {
      Shift(s, from);
      assert !OccursAt(s, from, 0);
      forall i | 0 <= i <= |s| - 1
        ensures !OccursAt(s[1..], from, i)
      {
        assert !OccursAt(s, from, i + 1);
      }
      ReplaceAbsent(s[1..], from, to);
    }
  }

  lemma {:induction false} ReplaceFirst(s: string, from: string, to: string, i: nat)
    requires from != "" && OccursAt(s, from, i) && forall k :: 0 <= k < i ==> !OccursAt(s, from, k)
    ensures ReplaceAll(s, from, to) == s[..i] + to + ReplaceAll(s[i + |from|..], from, to)
  {
    if i > 0 {
      var t := s[1..];
      Shift(s, from);
      forall k | 0 <= k < i - 1
        ensures !OccursAt(t, from, k)
      {
        assert !OccursAt(s, from, k + 1);
      }
      assert !OccursAt(s, from, 0);
      var rest := ReplaceAll(s[i + |from|..], from, to);
      assert t[i - 1 + |from|..] == s[i + |from|..];
      calc {
        ReplaceAll(s, from, to);
        [s[0]] + ReplaceAll(t, from, to);
        { ReplaceFirst(t, from, to, i - 1); }
        [s[0]] + (t[..i - 1] + to + rest);
        { Assoc([s[0]], t[..i - 1] + to, rest); Assoc([s[0]], t[..i - 1], to); }
        [s[0]] + t[..i - 1] + to + rest;
        { assert [s[0]] + t[..i - 1] == s[..i]; }
        s[..i] + to + rest;
      }
    }
  }

  /** Replacing is splitting around the text and joining with the other. */
  lemma {:induction false} ReplaceIsSplitAndJoin(s: string, from: string, to: string)
    requires from != ""
    ensures ReplaceAll(s, from, to) == Join(Split(s, from), to)
    decreases |s|
  {
    var i := Index(s, from);
    if i == -1 {
      ReplaceAbsent(s, from, to);
    } else {
      var rest := s[i + |from|..];
      ReplaceFirst(s, from, to, i);
      ReplaceIsSplitAndJoin(rest, from, to);
      assert Split(s, from)[1..] == Split(rest, from);
    }
  }

  /** Decimal digits of a number, as printed by %d. */
  function Decimal(n: nat): (r: string)
    ensures r != "" && forall c :: c in r ==> '0' <= c <= '9'
  {
    if n < 10 then [Digit(n)] else Decimal(n / 10) + [Digit(n % 10)]
  }

  function Digit(d: nat): char
    requires d < 10
  {
    '0' + d as char
  }

  /** The number that digits stand for. */
  function Number(s: string): int {
    if s == "" then 0 else 10 * Number(s[..|s| - 1]) + (s[|s| - 1] as int - '0' as int)
  }

  lemma {:induction false} DecimalReads(n: nat)
    ensures Number(Decimal(n)) == n
  {
    var s := Decimal(n);
    if n < 10 {
      assert s[..0] == "";
    } else {
      DecimalReads(n / 10);
      assert s[..|s| - 1] == Decimal(n / 10);
    }
  }
}

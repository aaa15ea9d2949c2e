/** Where the options of a user end up in the command. */
module CommandLayout {
  import opened Wrappers
  import opened Text
  import opened Paths
  import opened Template
  import opened TemplateCondition
  import opened Command

  /** No start of the word is also its end. */
  predicate Borderless(word: string) {
    forall k :: 1 <= k < |word| ==> word[..k] != word[|word| - k..]
  }

  lemma WordsAreBorderless()
    ensures Borderless("dcp") && Borderless("mpirun")
  {
    forall k | 1 <= k < 3
      ensures "dcp"[..k] != "dcp"[3 - k..]
    {
      assert "dcp"[..k][0] != "dcp"[3 - k..][0];
    }
    forall k | 1 <= k < 6
      ensures "mpirun"[..k] != "mpirun"[6 - k..]
    {
      assert "mpirun"[..k][0] != "mpirun"[6 - k..][0];
    }
  }

  lemma OccursInFront(a: string, b: string, word: string, i: int)
    requires 0 <= i && i + |word| <= |a|
    ensures OccursAt(a + b, word, i) <==> OccursAt(a, word, i)
  {
    assert (a + b)[i..i + |word|] == a[i..i + |word|];
  }

  lemma OverlapIsBorder(a: string, word: string, b: string, i: int)
    requires OccursAt(a + word + b, word, i) && i < |a| < i + |word|
    ensures !Borderless(word)
  {
    var s := a + word + b;
    var k := i + |word| - |a|;
    var end := word[|word| - k..];
    assert s[|a|..|a| + |word|] == word;
    forall j | 0 <= j < k
      ensures end[j] == word[..k][j]
    {
      assert end[j] == s[i..i + |word|][|word| - k + j] == s[|a| + j] == word[j];
    }
    assert end == word[..k];
  }

  /** A word is found where it was put exactly when it does not stand in the text before it. */
  lemma OwnWord(a: string, word: string, b: string)
    requires word != "" && Borderless(word)
    ensures Index(a + word + b, word) == |a| <==> !Contains(a, word)
  {
    var s := a + word + b;
    Assoc(a, word, b);
    OccursWithin(a, word, b);
    if Contains(a, word) {
      var i :| 0 <= i <= |a| && OccursAt(a, word, i);
      OccursInFront(a, word + b, word, i);
    } else {
      forall i | 0 <= i < |a|
        ensures !OccursAt(s, word, i)
      {
        if i + |word| <= |a| {
          OccursInFront(a, word + b, word, i);
        } else if OccursAt(s, word, i) {
          OverlapIsBorder(a, word, b, i);
        }
      }
    }
  }

  lemma WhichIs(s: string, j: nat)
    requires j < 5 && HasPrefix(s, Names[j])
    ensures Which(s) == j
  {
    WhichName(j, s[|Names[j]|..]);
    assert s == Names[j] + s[|Names[j]|..];
  }

  /** No placeholder reaches over to a text that does not start with a capital. */
  lemma NoneReachesOver(a: string, b: string)
    requires a != "" && Which(a) == -1 && (b == "" || !('A' <= b[0] <= 'Z'))
    ensures Which(a + b) == -1
  {
    var i := Which(a + b);
    if i >= 0 {
      NamesShape(i);
      CutName(a, b, i);
    }
  }

  lemma CutName(a: string, b: string, i: nat)
    requires i < 5 && a != "" && HasPrefix(a + b, Names[i]) && (b == "" || !('A' <= b[0] <= 'Z'))
    ensures HasPrefix(a, Names[i])
  {
    NamesShape(i);
    var name := Names[i];
    assert forall n :: 0 <= n < |name| ==> (a + b)[n] == name[n];
    assert b != "" ==> (a + b)[|a|] == b[0];
    assert (a + b)[..|name|] == a[..|name|];
  }

  lemma AppendName(a: string, b: string, values: seq<string>)
    requires |values| == 5 && Which(a) >= 0
    ensures var n := |Names[Which(a)]|;
      n <= |a| && Simultaneous(a, values) == values[Which(a)] + Simultaneous(a[n..], values) &&
      Simultaneous(a + b, values) == values[Which(a)] + Simultaneous(a[n..] + b, values)
  {
    var n := |Names[Which(a)]|;
    NamesShape(Which(a));
    assert (a + b)[..n] == a[..n] && (a + b)[n..] == a[n..] + b;
    WhichIs(a + b, Which(a));
  }

  /** Substitution goes part by part where no placeholder is cut. */
  lemma {:induction false} SubstituteAppend(a: string, b: string, values: seq<string>)
    requires |values| == 5 && (b == "" || !('A' <= b[0] <= 'Z'))
    ensures Simultaneous(a + b, values) == Simultaneous(a, values) + Simultaneous(b, values)
    decreases |a|
  {
    if a == "" {
      assert a + b == b;
    } else if Which(a) >= 0 {
      var n := |Names[Which(a)]|;
      NamesShape(Which(a));
      AppendName(a, b, values);
      SubstituteAppend(a[n..], b, values);
      Assoc(values[Which(a)], Simultaneous(a[n..], values), Simultaneous(b, values));
    } else {
      var c, rest := a[0], a[1..];
      assert a == [c] + rest;
      NoneReachesOver(a, b);
      Assoc([c], rest, b);
      CopiedChar(c, rest, values);
      CopiedChar(c, rest + b, values);
      SubstituteAppend(rest, b, values);
      Assoc([c], Simultaneous(rest, values), Simultaneous(b, values));
    }
  }

  /** A plain word of the template stays in the command. */
  lemma SubstituteAround(a: string, word: string, c: string, values: seq<string>)
    requires |values| == 5 && word != "" && '$' !in word && !('A' <= word[0] <= 'Z')
    ensures Simultaneous(a + word + c, values) == Simultaneous(a, values) + word + Simultaneous(c, values)
  {
    Assoc(a, word, c);
    SubstituteAppend(a, word + c, values);
    CopiedText(word, c, values);
    Assoc(Simultaneous(a, values), word, Simultaneous(c, values));
  }

  /** The word of the template is the one that options are put after exactly when the text substituted
      before it does not have the word. */
  lemma TemplateWordIsFound(a: string, word: string, c: string, values: seq<string>)
    requires |values| == 5 && word in {"mpirun", "dcp"}
    ensures Index(Simultaneous(a + word + c, values), word) == |Simultaneous(a, values)| <==>
      !Contains(Simultaneous(a, values), word)
  {
    WordsAreBorderless();
    SubstituteAround(a, word, c, values);
    OwnWord(Simultaneous(a, values), word, Simultaneous(c, values));
  }

  lemma InsertAfterOwn(a: string, word: string, b: string, text: string)
    requires word != "" && Borderless(word) && !Contains(a, word)
    ensures InsertAfter(a + word + b, word, text) == a + word + text + b
  {
    OwnWord(a, word, b);
    var s, n := a + word + b, |a| + |word|;
    assert s[..n] == a + word && s[n..] == b;
  }

  /** The whole command: options and session directory follow the words of the template, when neither
      the text before the first nor the user's own options bring in the words earlier. */
  lemma {:induction false} WholeCommand(command: string, hostfile: string, usePermissions: bool, spec: Spec,
                                        a: string, b: string, c: string)
    requires spec.userConfig.None? || !spec.userConfig.value.dryrun
    requires ClearHostfile(hostfile) && ClearSource(spec.source)
    requires Prepared(command, usePermissions) == a + "mpirun" + (b + "dcp" + c)
    requires var values := SpecValues(hostfile, spec);
      && !Contains(Simultaneous(a, values), "mpirun")
      && !Contains(Simultaneous(a, values) + "mpirun" + (MpirunOptions(spec) + Simultaneous(b, values)), "dcp")
    ensures var values := SpecValues(hostfile, spec);
      Join(BuildDMCommand(command, hostfile, usePermissions, spec), " ") ==
        Simultaneous(a, values) + "mpirun" + TmpdirBase(hostfile) +
        (MpirunOptions(spec) + Simultaneous(b, values) + "dcp" + DcpOptions(spec) + Simultaneous(c, values))
  {
    var values := SpecValues(hostfile, spec);
    var A, B, C := Simultaneous(a, values), Simultaneous(b, values), Simultaneous(c, values);
    var m, d, t := MpirunOptions(spec), DcpOptions(spec), TmpdirBase(hostfile);
    ClearPathsSubstitute(Prepared(command, usePermissions), hostfile, spec.uid, spec.gid, spec.source, spec.dest);
    SubstituteAround(a, "mpirun", b + "dcp" + c, values);
    SubstituteAround(b, "dcp", c, values);
    WordsAreBorderless();
    Insertions(A, B, C, m, d, t);
    var cmd1 := InsertAfter(A + "mpirun" + (B + "dcp" + C), "mpirun", m);
    JoinSplit(InsertAfter(InsertAfter(cmd1, "dcp", d), "mpirun", t), " ");
  }

  lemma {:induction false} Insertions(A: string, B: string, C: string, m: string, d: string, t: string)
    requires !Contains(A, "mpirun") && !Contains(A + "mpirun" + (m + B), "dcp")
    ensures InsertAfter(InsertAfter(InsertAfter(A + "mpirun" + (B + "dcp" + C), "mpirun", m), "dcp", d), "mpirun", t) ==
      A + "mpirun" + t + (m + B + "dcp" + d + C)
  {
    WordsAreBorderless();
    InsertTwo(A, B, C, m, d, t, "mpirun", "dcp");
  }

  lemma {:induction false} InsertTwo(A: string, B: string, C: string, m: string, d: string, t: string, w: string, v: string)
    requires w != "" && v != "" && Borderless(w) && Borderless(v)
    requires !Contains(A, w) && !Contains(A + w + (m + B), v)
    ensures InsertAfter(InsertAfter(InsertAfter(A + w + (B + v + C), w, m), v, d), w, t) == A + w + t + (m + B + v + d + C)
  {
    calc {
      InsertAfter(InsertAfter(InsertAfter(A + w + (B + v + C), w, m), v, d), w, t);
      { InsertAfterOwn(A, w, B + v + C, m); RegroupLeft(A + w, m, B, v, C); }
      InsertAfter(InsertAfter((A + w + (m + B)) + v + C, v, d), w, t);
      { InsertAfterOwn(A + w + (m + B), v, C, d); RegroupRight(A + w, m + B, v, d, C); }
      InsertAfter(A + w + (m + B + v + d + C), w, t);
      { InsertAfterOwn(A, w, m + B + v + d + C, t); }
      A + w + t + (m + B + v + d + C);
    }
  }

  lemma RegroupLeft(x: string, m: string, b: string, v: string, c: string)
    ensures x + m + (b + v + c) == (x + (m + b)) + v + c
  {
    Assoc(x + m, b + v, c);
    Assoc(x + m, b, v);
    Assoc(x, m, b);
  }

  lemma RegroupRight(x: string, y: string, v: string, d: string, c: string)
    ensures (x + y) + v + d + c == x + (y + v + d + c)
  {
    Assoc(x, y, v);
    Assoc(x, y + v, d);
    Assoc(x, y + v + d, c);
  }

  /** A hostfile with "dcp" in its path, as that of a data movement with "dcp" in its name, takes the
      dcp options wherever the template names it before its own dcp. */
  lemma HostfileTakesOptions(a: string, b: string, c: string, values: seq<string>)
    requires |values| == 5 && Contains(values[0], "dcp")
    ensures Index(Simultaneous((a + "$HOSTFILE" + b) + "dcp" + c, values), "dcp") <
      |Simultaneous(a + "$HOSTFILE" + b, values)|
  {
    var A, B := Simultaneous(a, values), Simultaneous(b, values);
    var front := Simultaneous(a + "$HOSTFILE" + b, values);
    Assoc(a, "$HOSTFILE", b);
    SubstituteAppend(a, "$HOSTFILE" + b, values);
    WhichName(0, b);
    assert (Names[0] + b)[|Names[0]|..] == b;
    assert Simultaneous("$HOSTFILE" + b, values) == values[0] + B;
    assert front == A + (values[0] + B);
    ContainsWithin(A, values[0], B, "dcp");
    SubstituteAround(a + "$HOSTFILE" + b, "dcp", c, values);
    WordsAreBorderless();
    OwnWord(front, "dcp", Simultaneous(c, values));
    OccursWithin(front, "dcp", Simultaneous(c, values));
  }

  lemma ContainsWithin(a: string, b: string, c: string, word: string)
    requires Contains(b, word)
    ensures Contains(a + (b + c), word)
  {
    var i :| 0 <= i <= |b| && OccursAt(b, word, i);
    var s := a + (b + c);
    assert s[|a| + i..|a| + i + |word|] == b[i..i + |word|];
    assert OccursAt(s, word, |a| + i);
  }

  lemma NamedHostfile()
    ensures Contains("/tmp/dcp-1/hostfile", "dcp")
  {
    assert OccursAt("/tmp/dcp-1/hostfile", "dcp", 5);
  }

  // ---------------------------------------------------------------- the ids of the user

  const Uid: string := "--uid $UID"
  const Gid: string := "--gid $GID"

  lemma IdsAreBorderless()
    ensures Borderless(Uid) && Borderless(Gid)
  {
    forall k | 1 <= k < 10
      ensures Uid[..k] != Uid[10 - k..] && Gid[..k] != Gid[10 - k..]
    {
      assert k < 9 ==> Uid[..k][0] != Uid[10 - k..][0] && Gid[..k][0] != Gid[10 - k..][0];
      assert k == 9 ==> Uid[..k][1] != Uid[10 - k..][1] && Gid[..k][1] != Gid[10 - k..][1];
    }
  }

  /** Removing a text that stands once leaves what is before and after it. */
  lemma RemovedOnce(a: string, word: string, b: string)
    requires word != "" && Borderless(word) && !Contains(a, word) && !Contains(b, word)
    ensures ReplaceAll(a + word + b, word, "") == a + b
  {
    var s := a + word + b;
    OwnWord(a, word, b);
    ReplaceFirst(s, word, "", |a|);
    assert s[..|a|] == a && s[|a| + |word|..] == b;
    ReplaceAbsent(b, word, "");
    assert a + "" == a;
  }

  /** A mover that is root substitutes the profile's command as it stands, ids included. */
  lemma {:induction false} RootKeepsIds(command: string, hostfile: string, spec: Spec)
    requires spec.userConfig.None? || !spec.userConfig.value.dryrun
    requires ClearHostfile(hostfile) && ClearSource(spec.source)
    ensures WithoutInsertions(Join(BuildDMCommand(command, hostfile, true, spec), " "), hostfile, spec) ==
      Simultaneous(command, SpecValues(hostfile, spec))
  {
    CommandIsTheTemplate(command, hostfile, true, spec);
  }

  lemma IdsRemoved(a: string, b: string, c: string)
    requires !Contains(a, Uid) && !Contains(b + Gid + c, Uid) && !Contains(a + b, Gid) && !Contains(c, Gid)
    ensures Prepared(a + Uid + (b + Gid + c), false) == a + b + c
  {
    IdsAreBorderless();
    RemovedOnce(a, Uid, b + Gid + c);
    assert a + (b + Gid + c) == (a + b) + Gid + c;
    RemovedOnce(a + b, Gid, c);
  }

  /** One that is not root substitutes it without the two options for them, wherever they stand. */
  lemma {:induction false} OthersDropIds(a: string, b: string, c: string, hostfile: string, spec: Spec)
    requires spec.userConfig.None? || !spec.userConfig.value.dryrun
    requires ClearHostfile(hostfile) && ClearSource(spec.source)
    requires !Contains(a, Uid) && !Contains(b + Gid + c, Uid) && !Contains(a + b, Gid) && !Contains(c, Gid)
    ensures WithoutInsertions(Join(BuildDMCommand(a + Uid + (b + Gid + c), hostfile, false, spec), " "), hostfile, spec) ==
      Simultaneous(a + b + c, SpecValues(hostfile, spec))
  {
    IdsRemoved(a, b, c);
    CommandIsTheTemplate(a + Uid + (b + Gid + c), hostfile, false, spec);
  }

  /** A command without these options is the same for both. */
  lemma {:induction false} NoIdsNoDifference(command: string, hostfile: string, spec: Spec)
    requires !Contains(command, Uid) && !Contains(command, Gid)
    ensures BuildDMCommand(command, hostfile, false, spec) == BuildDMCommand(command, hostfile, true, spec)
  {
    ReplaceAbsent(command, Uid, "");
    ReplaceAbsent(command, Gid, "");
  }

  // ---------------------------------------------------------------- the command in full

  /** The configuration of a user who asks for these options. */
  predicate AsksFor(spec: Spec, mpirun: string, dcp: string) {
    || spec.userConfig == Some(UserConfig(false, mpirun, dcp))
    || (spec.userConfig.None? && mpirun == "" && dcp == "")
  }

  function Spaced(options: string): string {
    if options == "" then "" else " " + options
  }

  /** The command of a root mover, in the terms of the profile and the request: the text of the profile
      with its placeholders filled in, the hostfile's directory after mpirun, then the user's mpirun
      options, and the user's dcp options after dcp. */
  lemma {:induction false} RootCommand(a: string, b: string, c: string, hostfile: string, spec: Spec, mpirun: string, dcp: string)
    requires AsksFor(spec, mpirun, dcp) && ClearHostfile(hostfile) && ClearSource(spec.source)
    requires var values := Values(hostfile, spec.uid, spec.gid, spec.source, spec.dest);
      && !Contains(Simultaneous(a, values), "mpirun")
      && !Contains(Simultaneous(a, values) + "mpirun" + (Spaced(mpirun) + Simultaneous(b, values)), "dcp")
    ensures var values := Values(hostfile, spec.uid, spec.gid, spec.source, spec.dest);
      Join(BuildDMCommand(a + "mpirun" + (b + "dcp" + c), hostfile, true, spec), " ") ==
        Simultaneous(a, values) + "mpirun" + (" --mca orte_tmpdir_base " + Dir(hostfile)) +
        (Spaced(mpirun) + Simultaneous(b, values) + "dcp" + Spaced(dcp) + Simultaneous(c, values))
  {
    assert MpirunOptions(spec) == Spaced(mpirun) && DcpOptions(spec) == Spaced(dcp);
    WholeCommand(a + "mpirun" + (b + "dcp" + c), hostfile, true, spec, a, b, c);
  }

  /** A dry run runs nothing, whatever else is asked for. */
  lemma DryRunRunsNothing(command: string, hostfile: string, usePermissions: bool, spec: Spec)
    requires spec.userConfig.Some? && spec.userConfig.value.dryrun
    ensures BuildDMCommand(command, hostfile, usePermissions, spec) == ["true"]
  {
  }
}

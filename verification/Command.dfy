/** Building the data movement command from its profile's template. */
module Command {
  import opened Wrappers
  import opened Text
  import opened Paths
  import opened Template
  import opened TemplateCondition

  datatype UserConfig = UserConfig(dryrun: bool, mpirunOptions: string, dcpOptions: string)
  datatype Spec = Spec(uid: nat, gid: nat, source: string, dest: string, userConfig: Option<UserConfig>)

  /** Puts text after the first occurrence of a word, if there is one. */
  function InsertAfter(cmd: string, word: string, text: string): string {
    var i := Index(cmd, word);
    if i == -1 then cmd else cmd[..i + |word|] + text + cmd[i + |word|..]
  }

  /** Takes text of that length from after the first occurrence of a word. */
  function DeleteAfter(cmd: string, word: string, text: string): string {
    var i := Index(cmd, word);
    if i == -1 || |cmd| < i + |word| + |text| then cmd
    else cmd[..i + |word|] + cmd[i + |word| + |text|..]
  }

  function Options(options: string): string {
    if options == "" then "" else " " + options
  }

  function MpirunOptions(spec: Spec): string {
    if spec.userConfig.None? then "" else Options(spec.userConfig.value.mpirunOptions)
  }

  function DcpOptions(spec: Spec): string {
    if spec.userConfig.None? then "" else Options(spec.userConfig.value.dcpOptions)
  }

  function TmpdirBase(hostfile: string): string {
    " --mca orte_tmpdir_base " + Dir(hostfile)
  }

  function InjectOrteTmpdirBase(cmd: string, hostfile: string): string {
    InsertAfter(cmd, "mpirun", TmpdirBase(hostfile))
  }

  /** The profile's command, without the ids when the mover is not root. */
  function Prepared(command: string, usePermissions: bool): string {
    if usePermissions then command
    else ReplaceAll(ReplaceAll(command, "--uid $UID", ""), "--gid $GID", "")
  }

  function SpecValues(hostfile: string, spec: Spec): (r: seq<string>)
    ensures |r| == 5
  {
    Values(hostfile, spec.uid, spec.gid, spec.source, spec.dest)
  }

  function BuildDMCommand(command: string, hostfile: string, usePermissions: bool, spec: Spec): seq<string> {
    if spec.userConfig.Some? && spec.userConfig.value.dryrun then ["true"]
    else
      var cmd := Sequential(Prepared(command, usePermissions), SpecValues(hostfile, spec));
      var cmd1 := InsertAfter(cmd, "mpirun", MpirunOptions(spec));
      var cmd2 := InsertAfter(cmd1, "dcp", DcpOptions(spec));
      Split(InjectOrteTmpdirBase(cmd2, hostfile), " ")
  }

  /** An insertion leaves the first occurrence of its word where it was. */
  lemma InsertionKeepsIndex(cmd: string, word: string, text: string)
    ensures Index(InsertAfter(cmd, word, text), word) == Index(cmd, word)
  {
    var i := Index(cmd, word);
    if i != -1 {
      var s := InsertAfter(cmd, word, text);
      var end := i + |word|;
      assert s[..end] == cmd[..end];
      forall k | 0 <= k <= i
        ensures OccursAt(s, word, k) <==> OccursAt(cmd, word, k)
      {
        assert s[k..k + |word|] == s[..end][k..k + |word|];
        assert cmd[k..k + |word|] == cmd[..end][k..k + |word|];
      }
      assert OccursAt(s, word, i);
    }
  }

  lemma OccursWithin(a: string, b: string, c: string)
    ensures OccursAt(a + b + c, b, |a|)
  {
    assert (a + b + c)[|a|..|a| + |b|] == b;
  }

  /** An insertion that took place stands right after the word. */
  lemma {:induction false} InsertedText(cmd: string, word: string, text: string)
    requires Index(cmd, word) != -1
    ensures OccursAt(InsertAfter(cmd, word, text), word + text, Index(cmd, word))
  {
    var i := Index(cmd, word);
    var front, rest := cmd[..i], cmd[i + |word|..];
    calc {
      InsertAfter(cmd, word, text);
      { assert cmd[..i + |word|] == front + word; }
      (front + word) + text + rest;
      { Assoc(front, word, text); }
      front + (word + text) + rest;
    }
    OccursWithin(front, word + text, rest);
  }

  /** Taking out what was inserted gives the command back. */
  lemma {:induction false} InsertionUndone(cmd: string, word: string, text: string)
    ensures DeleteAfter(InsertAfter(cmd, word, text), word, text) == cmd
  {
    var i := Index(cmd, word);
    InsertionKeepsIndex(cmd, word, text);
    if i != -1 {
      var s := InsertAfter(cmd, word, text);
      var end := i + |word|;
      assert s[..end] == cmd[..end] && s[end + |text|..] == cmd[end..];
      assert cmd == cmd[..end] + cmd[end..];
    }
  }

  /** Removes the insertions in the reverse of their order. */
  function WithoutInsertions(cmd: string, hostfile: string, spec: Spec): string {
    DeleteAfter(
      DeleteAfter(
        DeleteAfter(cmd, "mpirun", TmpdirBase(hostfile)), "dcp", DcpOptions(spec)), "mpirun", MpirunOptions(spec))
  }

  /** The arguments, joined as they are recorded in the status, are the substituted command and the
      insertions. */
  lemma {:induction false} InsertionsOnlyAdd(command: string, hostfile: string, usePermissions: bool, spec: Spec)
    requires spec.userConfig.None? || !spec.userConfig.value.dryrun
    ensures WithoutInsertions(Join(BuildDMCommand(command, hostfile, usePermissions, spec), " "), hostfile, spec) ==
      Sequential(Prepared(command, usePermissions), SpecValues(hostfile, spec))
  {
    var cmd := Sequential(Prepared(command, usePermissions), SpecValues(hostfile, spec));
    var cmd1 := InsertAfter(cmd, "mpirun", MpirunOptions(spec));
    var cmd2 := InsertAfter(cmd1, "dcp", DcpOptions(spec));
    JoinSplit(InjectOrteTmpdirBase(cmd2, hostfile), " ");
    InsertionUndone(cmd2, "mpirun", TmpdirBase(hostfile));
    InsertionUndone(cmd1, "dcp", DcpOptions(spec));
    InsertionUndone(cmd, "mpirun", MpirunOptions(spec));
  }

  /** The command that is run: all placeholders of the template substituted at once, and the
      insertions, for every template, user, destination and option. */
  lemma {:induction false} CommandIsTheTemplate(command: string, hostfile: string, usePermissions: bool, spec: Spec)
    requires spec.userConfig.None? || !spec.userConfig.value.dryrun
    requires ClearHostfile(hostfile) && ClearSource(spec.source)
    ensures WithoutInsertions(Join(BuildDMCommand(command, hostfile, usePermissions, spec), " "), hostfile, spec) ==
      Simultaneous(Prepared(command, usePermissions), SpecValues(hostfile, spec))
  {
    InsertionsOnlyAdd(command, hostfile, usePermissions, spec);
    ClearPathsSubstitute(Prepared(command, usePermissions), hostfile, spec.uid, spec.gid, spec.source, spec.dest);
  }

  /** No argument has a space in it: a path with one is handed over in pieces. */
  lemma {:induction false} ArgumentsHaveNoSpaces(command: string, hostfile: string, usePermissions: bool, spec: Spec)
    ensures forall a :: a in BuildDMCommand(command, hostfile, usePermissions, spec) ==> ' ' !in a
  {
    if spec.userConfig.None? || !spec.userConfig.value.dryrun {
      var cmd := Sequential(Prepared(command, usePermissions), SpecValues(hostfile, spec));
      var cmd1 := InsertAfter(cmd, "mpirun", MpirunOptions(spec));
      var cmd2 := InsertAfter(cmd1, "dcp", DcpOptions(spec));
      SplitParts(InjectOrteTmpdirBase(cmd2, hostfile), ' ');
    }
  }

  /** The session directory of every command that has mpirun is the hostfile's own directory. */
  lemma SessionDirectoryIsIsolated(cmd: string, hostfile: string)
    ensures Index(cmd, "mpirun") >= 0 ==>
      OccursAt(InjectOrteTmpdirBase(cmd, hostfile), "mpirun" + TmpdirBase(hostfile), Index(cmd, "mpirun"))
    ensures Index(cmd, "mpirun") == -1 ==> InjectOrteTmpdirBase(cmd, hostfile) == cmd
  {
    if Index(cmd, "mpirun") >= 0 {
      InsertedText(cmd, "mpirun", TmpdirBase(hostfile));
    }
  }

  /** What each placeholder stands for. */
  lemma PlaceholdersMean(hostfile: string, spec: Spec)
    ensures Simultaneous("$HOSTFILE", SpecValues(hostfile, spec)) == hostfile
    ensures Number(Simultaneous("$UID", SpecValues(hostfile, spec))) == spec.uid
    ensures Number(Simultaneous("$GID", SpecValues(hostfile, spec))) == spec.gid
    ensures Simultaneous("$SRC", SpecValues(hostfile, spec)) == spec.source
    ensures Simultaneous("$DEST", SpecValues(hostfile, spec)) == spec.dest
  {
    var values := SpecValues(hostfile, spec);
    forall j | 0 <= j < 5
      ensures Simultaneous(Names[j], values) == values[j]
    {
      NameThenText(j, "", values);
      assert Names[j] + "" == Names[j] && values[j] + "" == values[j];
    }
    assert Names[0] == "$HOSTFILE" && Names[1] == "$UID" && Names[2] == "$GID" && Names[3] == "$SRC" && Names[4] == "$DEST";
    DecimalReads(spec.uid);
    DecimalReads(spec.gid);
  }
}

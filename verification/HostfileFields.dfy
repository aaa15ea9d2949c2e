/** Reading a hostfile by its lines and fields, without the loops of the program. */
module HostfileFields {
  import opened Wrappers
  import opened Text
  import opened Hostfile

  // ---------------------------------------------------------------- the settings of a line

  /** The number after a setting's name, if the line has the setting. */
  function ReadSetting(line: string, name: string): Option<int> {
    var i := Index(line, " " + name);
    if i == -1 then None
    else
      var rest := line[i + 1 + |name|..];
      Some(Number(rest[..WordEnd(rest)]))
  }

  /** No word that starts with this letter follows a space. */
  predicate StartsNo(x: string, c: char) {
    forall k :: 0 <= k < |x| && x[k] == ' ' ==> k + 1 < |x| && x[k + 1] != c
  }

  /** Where a space and a name stand in the middle of a text, and nowhere before. */
  lemma FoundAt(x: string, name: string, y: string)
    requires name != "" && StartsNo(x, name[0])
    ensures Index(x + (" " + name) + y, " " + name) == |x|
  {
    var w := " " + name;
    var s := x + w + y;
    assert s[|x|..|x| + |w|] == w;
    assert OccursAt(s, w, |x|);
    assert s[..|x|] == x && w[0] == ' ' && w[1] == name[0];
    forall k | 0 <= k < |x|
      ensures !OccursAt(s, w, k)
    {
      NotAt(s, w, k, x);
    }
  }

  lemma NotAt(s: string, w: string, k: nat, x: string)
    requires |w| >= 2 && k < |x| <= |s| && s[..|x|] == x
    requires x[k] != w[0] || (k + 1 < |x| && x[k + 1] != w[1])
    ensures !OccursAt(s, w, k)
  {
    assert s[k] == s[..|x|][k];
    assert k + 1 < |x| ==> s[k + 1] == s[..|x|][k + 1];
    if OccursAt(s, w, k) {
      HeadOf(s, w, k);
    }
  }

  lemma HeadOf(s: string, w: string, k: int)
    requires |w| >= 2 && OccursAt(s, w, k)
    ensures s[k] == w[0] && s[k + 1] == w[1]
  {
    assert s[k..k + |w|][0] == s[k] && s[k..k + |w|][1] == s[k + 1];
  }

  lemma DigitsAreWord(n: nat)
    ensures IsWord(Decimal(n))
  {
    var d := Decimal(n);
    forall i | 0 <= i < |d|
      ensures !IsSpace(d[i])
    {
      assert d[i] in d;
    }
  }

  /** A setting that is on a line after such a text is read as its number. */
  lemma ReadAt(x: string, name: string, n: int, y: string)
    requires n > 0 && name != "" && (y == "" || IsSpace(y[0]))
    requires StartsNo(x, name[0])
    ensures ReadSetting(x + Setting(name, n) + y, name) == Some(n)
  {
    var d := Decimal(n);
    var line := x + Setting(name, n) + y;
    assert line == x + (" " + name) + (d + y);
    FoundAt(x, name, d + y);
    assert line[|x| + 1 + |name|..] == d + y;
    DigitsAreWord(n);
    WordEndsAt(d, y);
    assert (d + y)[..|d|] == d;
    DecimalReads(n);
  }

  /** A name that starts no word after a space is not read. */
  lemma ReadNowhere(x: string, name: string)
    requires name != "" && StartsNo(x, name[0])
    ensures ReadSetting(x, name) == None
  {
    var i := Index(x, " " + name);
    if i >= 0 {
      HeadOf(x, " " + name, i);
    }
  }

  lemma WordStartsNone(host: string, c: char)
    requires IsWord(host)
    ensures StartsNo(host, c)
  {
    assert forall k :: 0 <= k < |host| ==> !IsSpace(host[k]);
  }

  /** A host and a setting before another one: the only space is followed by the setting's name. */
  lemma HostAndSetting(host: string, name: string, n: int, c: char)
    requires IsWord(host) && IsWord(name) && name[0] != c
    ensures StartsNo(host + Setting(name, n), c)
  {
    var a := Setting(name, n);
    var x := host + a;
    SettingShape(name, n);
    SettingStarts(name, n);
    assert forall k :: 0 <= k < |x| ==> x[k] == if k < |host| then host[k] else a[k - |host|];
    assert a != "" ==> x[|host| + 1] == name[0];
  }

  /** The numbers on the line of a host are read back: present exactly when they are positive. */
  lemma {:induction false} SettingsAreRead(host: string, slots: int, maxSlots: int)
    requires IsWord(host)
    ensures ReadSetting(Body(host, slots, maxSlots), "slots=") == if slots > 0 then Some(slots) else None
    ensures ReadSetting(Body(host, slots, maxSlots), "max_slots=") == if maxSlots > 0 then Some(maxSlots) else None
  {
    SlotsAreRead(host, slots, maxSlots);
    MaxSlotsAreRead(host, slots, maxSlots);
  }

  lemma {:induction false} SlotsAreRead(host: string, slots: int, maxSlots: int)
    requires IsWord(host)
    ensures ReadSetting(Body(host, slots, maxSlots), "slots=") == if slots > 0 then Some(slots) else None
  {
    var a, b := Setting("slots=", slots), Setting("max_slots=", maxSlots);
    SettingShape("max_slots=", maxSlots);
    WordStartsNone(host, 's');
    Assoc(host, a, b);
    if slots > 0 {
      ReadAt(host, "slots=", slots, b);
    } else {
      HostAndSetting(host, "max_slots=", maxSlots, 's');
      assert host + (a + b) == host + b;
      ReadNowhere(host + b, "slots=");
    }
  }

  lemma {:induction false} MaxSlotsAreRead(host: string, slots: int, maxSlots: int)
    requires IsWord(host)
    ensures ReadSetting(Body(host, slots, maxSlots), "max_slots=") == if maxSlots > 0 then Some(maxSlots) else None
  {
    var a, b := Setting("slots=", slots), Setting("max_slots=", maxSlots);
    HostAndSetting(host, "slots=", slots, 'm');
    Assoc(host, a, b);
    if maxSlots > 0 {
      ReadAt(host + a, "max_slots=", maxSlots, "");
      assert host + a + b + "" == host + (a + b);
    } else {
      assert host + (a + b) == host + a;
      ReadNowhere(host + a, "max_slots=");
    }
  }

  /** The number of a request goes over the profile's, unless it is negative; one that is not positive
      is not written. */
  function Wanted(request: int, profile: int): Option<int> {
    if request > 0 then Some(request) else if request < 0 && profile > 0 then Some(profile) else None
  }

  lemma {:induction false} RequestedSettings(host: string, request: int, profile: int, requestMax: int, profileMax: int)
    requires IsWord(host)
    ensures var line := Body(host, Effective(request, profile), Effective(requestMax, profileMax));
      ReadSetting(line, "slots=") == Wanted(request, profile) && ReadSetting(line, "max_slots=") == Wanted(requestMax, profileMax)
  {
    SettingsAreRead(host, Effective(request, profile), Effective(requestMax, profileMax));
  }

  // ---------------------------------------------------------------- the hosts of any text

  predicate Blank(s: string) {
    forall i :: 0 <= i < |s| ==> IsSpace(s[i])
  }

  /** The first word of a line, what is before it and what is after. */
  predicate FirstWord(line: string, a: string, w: string, c: string) {
    line == a + w + c && Blank(a) && IsWord(w) && (c == "" || IsSpace(c[0]))
  }

  lemma {:induction false} FieldIsFirstWord(line: string) returns (a: string, c: string)
    requires FirstField(line).Some?
    ensures FirstWord(line, a, FirstField(line).value, c)
  {
    if IsSpace(line[0]) {
      a, c := FieldIsFirstWord(line[1..]);
      a := [line[0]] + a;
    } else {
      var n := WordEnd(line);
      a, c := "", line[n..];
      assert line == line[..n] + line[n..];
    }
  }

  lemma {:induction false} BlankHasNoField(line: string)
    requires FirstField(line).None?
    ensures Blank(line)
  {
    if line != "" {
      BlankHasNoField(line[1..]);
      assert forall i :: 1 <= i < |line| ==> line[i] == line[1..][i - 1];
    }
  }

  /** The first field of a line is its first word, and exactly a blank line has none. */
  lemma {:induction false} FirstFieldMeans(line: string)
    ensures FirstField(line).None? <==> Blank(line)
    ensures FirstField(line).Some? ==> exists a, c :: FirstWord(line, a, FirstField(line).value, c)
  {
    if FirstField(line).None? {
      BlankHasNoField(line);
    } else {
      var a, c := FieldIsFirstWord(line);
      NotBlank(line, a, FirstField(line).value, c);
    }
  }

  lemma NotBlank(line: string, a: string, w: string, c: string)
    requires line == a + w + c && IsWord(w)
    ensures !Blank(line)
  {
    assert line[|a|] == w[0];
  }


  function Fields(lines: seq<string>): seq<string> {
    if lines == [] then [] else FieldOf(lines[0]) + Fields(lines[1..])
  }

  lemma {:induction false} FieldWithoutReturn(line: string)
    ensures FirstField(WithoutReturn(line)) == FirstField(line)
  {
    if line != "" && line[|line| - 1] == '\r' {
      var front := line[..|line| - 1];
      assert line == front + "\r";
      FieldBeforeSpace(front, '\r');
    }
  }

  lemma {:induction false} FieldBeforeSpace(front: string, c: char)
    requires IsSpace(c)
    ensures FirstField(front + [c]) == FirstField(front)
  {
    var line := front + [c];
    if front == "" {
      assert line == [c] && line[1..] == "";
    } else if IsSpace(front[0]) {
      FieldBeforeSpace(front[1..], c);
      assert line[1..] == front[1..] + [c];
    } else {
      var n := WordEnd(front);
      WordEndsAt(front[..n], front[n..] + [c]);
      assert line == front[..n] + (front[n..] + [c]);
      assert line[..n] == front[..n] && line[0] == front[0];
    }
  }

  /** The hosts of any text are the first fields of its lines, whether they end in a return or not. */
  lemma {:induction false} HostsByLine(text: string)
    ensures Hosts(text) == Fields(Split(text, "\n"))
    decreases |text|
  {
    var i := Index(text, "\n");
    if i == -1 {
      assert Split(text, "\n") == [text] && [text][1..] == [];
      FieldWithoutReturn(text);
      if text != "" {
        assert Hosts(text) == FieldOf(text) + Hosts("");
      }
    } else {
      var line, rest := text[..i], text[i + 1..];
      FieldWithoutReturn(line);
      HostsByLine(rest);
      assert Split(text, "\n") == [line] + Split(rest, "\n");
      assert ([line] + Split(rest, "\n"))[1..] == Split(rest, "\n");
      assert Hosts(text) == FieldOf(line) + Hosts(rest);
    }
  }
}

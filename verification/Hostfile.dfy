/** MPI hostfiles: printing one, and taking the hosts out of one. */
module Hostfile {
  import opened Wrappers
  import opened Text

  /** A request asks for slots with a number that is not negative. */
  function UserSlots(request: int): Option<int> {
    if request >= 0 then Some(request) else None
  }

  /** A user's setting goes over the profile's. */
  function ChosenSlots(user: Option<int>, profile: int): int {
    if user.Some? && user.value >= 0 then user.value else profile
  }

  function Effective(request: int, profile: int): int {
    ChosenSlots(UserSlots(request), profile)
  }

  function Setting(name: string, n: int): string {
    if n > 0 then " " + name + Decimal(n) else ""
  }

  function Settings(slots: int, maxSlots: int): string {
    Setting("slots=", slots) + Setting("max_slots=", maxSlots)
  }

  /** A line of the hostfile, without its newline. */
  function Body(host: string, slots: int, maxSlots: int): string {
    host + Settings(slots, maxSlots)
  }

  function Written(hosts: seq<string>, slots: int, maxSlots: int): string {
    if hosts == [] then ""
    else Written(hosts[..|hosts| - 1], slots, maxSlots) + Body(hosts[|hosts| - 1], slots, maxSlots) + "\n"
  }

  /** Every host once, where it came first. */
  function Distinct(hosts: seq<string>): (r: seq<string>)
    ensures forall h :: h in r <==> h in hosts
    ensures forall i, j :: 0 <= i < j < |r| ==> r[i] != r[j]
  {
    if hosts == [] then []
    else
      var init, last := hosts[..|hosts| - 1], hosts[|hosts| - 1];
      assert hosts == init + [last];
      if last in init then Distinct(init) else Distinct(init) + [last]
  }

  /** Where a host comes first. */
  function FirstAt(hosts: seq<string>, host: string): (r: nat)
    requires host in hosts
    ensures r < |hosts| && hosts[r] == host && host !in hosts[..r]
  {
    if hosts[0] == host then 0
    else
      var r := FirstAt(hosts[1..], host);
      assert hosts[..r + 1] == [hosts[0]] + hosts[1..][..r];
      r + 1
  }

  lemma FirstAtPrefix(init: seq<string>, last: string, host: string)
    requires host in init
    ensures FirstAt(init + [last], host) == FirstAt(init, host)
  {
    var all, i, j := init + [last], FirstAt(init + [last], host), FirstAt(init, host);
    assert all[j] == host && all[..j] == init[..j];
    assert forall k :: 0 <= k < i ==> all[..i][k] == all[k];
    assert forall k :: 0 <= k < j ==> all[..j][k] == all[k];
  }

  /** The distinct hosts are in the order of their first appearance. */
  lemma {:induction false} DistinctInOrder(hosts: seq<string>)
    ensures forall i, j :: 0 <= i < j < |Distinct(hosts)| ==>
      FirstAt(hosts, Distinct(hosts)[i]) < FirstAt(hosts, Distinct(hosts)[j])
  {
    if hosts != [] {
      var init, last := hosts[..|hosts| - 1], hosts[|hosts| - 1];
      var old', r := Distinct(init), Distinct(hosts);
      assert hosts == init + [last];
      DistinctInOrder(init);
      forall i, j | 0 <= i < j < |r|
        ensures FirstAt(hosts, r[i]) < FirstAt(hosts, r[j])
      {
        assert r[i] == old'[i] && old'[i] in init;
        FirstAtPrefix(init, last, r[i]);
        if j < |old'| {
          assert r[j] == old'[j] && old'[j] in init;
          FirstAtPrefix(init, last, r[j]);
        } else {
          assert last !in init && r[j] == last;
          assert FirstAt(hosts, last) == |init|;
        }
      }
    }
  }

  /** The text that is written to the hostfile. */
  method WriteMpiHostfile(hosts: seq<string>, slots: int, maxSlots: int) returns (text: string)
    ensures text == Written(Distinct(hosts), slots, maxSlots)
  {
    text := "";
    var uniqueHosts: set<string> := {};
    for i := 0 to |hosts|
      invariant forall h :: h in uniqueHosts <==> h in hosts[..i]
      invariant text == Written(Distinct(hosts[..i]), slots, maxSlots)
    {
      var host := hosts[i];
      DistinctNext(hosts, i);
      if host in uniqueHosts {
        continue;
      }
      uniqueHosts := uniqueHosts + {host};
      ghost var written := text;
      text := text + host;
      if slots > 0 {
        text := text + Setting("slots=", slots);
      }
      assert text == written + host + Setting("slots=", slots);
      if maxSlots > 0 {
        text := text + Setting("max_slots=", maxSlots);
      }
      assert text == written + host + Setting("slots=", slots) + Setting("max_slots=", maxSlots);
      text := text + "\n";
      WrittenNext(Distinct(hosts[..i]), host, slots, maxSlots);
    }
    assert hosts[..|hosts|] == hosts;
  }

  lemma DistinctNext(hosts: seq<string>, i: nat)
    requires i < |hosts|
    ensures Distinct(hosts[..i + 1]) ==
      if hosts[i] in hosts[..i] then Distinct(hosts[..i]) else Distinct(hosts[..i]) + [hosts[i]]
    ensures hosts[..i + 1] == hosts[..i] + [hosts[i]]
  {
    assert hosts[..i + 1][..i] == hosts[..i];
  }

  lemma WrittenNext(hosts: seq<string>, host: string, slots: int, maxSlots: int)
    ensures Written(hosts + [host], slots, maxSlots) ==
      Written(hosts, slots, maxSlots) + host + Setting("slots=", slots) + Setting("max_slots=", maxSlots) + "\n"
  {
    assert (hosts + [host])[..|hosts|] == hosts;
    var w, a, b := Written(hosts, slots, maxSlots), Setting("slots=", slots), Setting("max_slots=", maxSlots);
    assert w + (host + (a + b)) + "\n" == w + host + a + b + "\n";
  }

  /** White space as Unicode has it. */
  predicate IsSpace(c: char) {
    || '\t' <= c <= '\r' || c == ' ' || c == '\U{85}' || c == '\U{A0}' || c == '\U{1680}'
    || '\U{2000}' <= c <= '\U{200A}' || c == '\U{2028}' || c == '\U{2029}' || c == '\U{202F}'
    || c == '\U{205F}' || c == '\U{3000}'
  }

  predicate IsWord(s: string) {
    s != "" && forall i :: 0 <= i < |s| ==> !IsSpace(s[i])
  }

  /** The number of characters before the first white space. */
  function WordEnd(s: string): (n: nat)
    ensures n <= |s| && forall i :: 0 <= i < n ==> !IsSpace(s[i])
    ensures n < |s| ==> IsSpace(s[n])
  {
    if s == "" || IsSpace(s[0]) then 0
    else
      var n := WordEnd(s[1..]);
      assert forall i :: 1 <= i < n + 1 ==> s[i] == s[1..][i - 1];
      n + 1
  }

  /** The first field of a line. */
  function FirstField(line: string): (r: Option<string>)
    ensures r.Some? ==> IsWord(r.value)
  {
    if line == "" then None
    else if IsSpace(line[0]) then FirstField(line[1..])
    else Some(line[..WordEnd(line)])
  }

  /** A line without the carriage return at its end. */
  function WithoutReturn(line: string): string {
    if line != "" && line[|line| - 1] == '\r' then line[..|line| - 1] else line
  }

  /** The first line of a text and what comes after it. */
  function TakeLine(text: string): (r: (string, string))
    requires text != ""
    ensures |r.1| < |text|
  {
    var i := Index(text, "\n");
    if i == -1 then (WithoutReturn(text), "") else (WithoutReturn(text[..i]), text[i + 1..])
  }

  function FieldOf(line: string): seq<string> {
    match FirstField(line)
    case None => []
    case Some(host) => [host]
  }

  function Hosts(text: string): seq<string>
    decreases |text|
  {
    if text == "" then []
    else FieldOf(TakeLine(text).0) + Hosts(TakeLine(text).1)
  }

  /** Reads a hostfile line by line and keeps the first field of each that has one. */
  method GetPreBuiltHosts(text: string) returns (hosts: seq<string>)
    ensures hosts == Hosts(text)
  {
    hosts := [];
    var rest := text;
    while rest != ""
      invariant hosts + Hosts(rest) == Hosts(text)
      decreases |rest|
    {
      var (line, more) := TakeLine(rest);
      Assoc(hosts, FieldOf(line), Hosts(more));
      ghost var before := hosts;
      var fields := FirstField(line);
      if fields.Some? {
        hosts := hosts + [fields.value];
      }
      assert hosts == before + FieldOf(line);
      rest := more;
    }
  }

  /** Only words come out of a hostfile. */
  lemma {:induction false} HostsAreWords(text: string)
    ensures forall h :: h in Hosts(text) ==> IsWord(h)
    decreases |text|
  {
    if text != "" {
      HostsAreWords(TakeLine(text).1);
    }
  }

  lemma {:induction false} WordEndsAt(word: string, rest: string)
    requires forall i :: 0 <= i < |word| ==> !IsSpace(word[i])
    requires rest == "" || IsSpace(rest[0])
    ensures WordEnd(word + rest) == |word|
  {
    var s := word + rest;
    assert forall i :: 0 <= i < |word| ==> s[i] == word[i];
    assert rest != "" ==> s[|word|] == rest[0];
  }

  /** A setting is empty, or a space and a word. */
  lemma SettingShape(name: string, n: int)
    requires IsWord(name)
    ensures Setting(name, n) == "" || Setting(name, n)[0] == ' '
    ensures forall i :: 1 <= i < |Setting(name, n)| ==> !IsSpace(Setting(name, n)[i])
    ensures |Setting(name, n)| != 1
  {
    if n > 0 {
      var d, s := Decimal(n), Setting(name, n);
      forall i | 1 <= i < |s|
        ensures !IsSpace(s[i])
      {
        if i < |name| + 1 {
          assert s[i] == name[i - 1];
        } else {
          assert s[i] == d[i - |name| - 1] && s[i] in d;
        }
      }
    }
  }

  lemma SettingsShape(slots: int, maxSlots: int)
    ensures Settings(slots, maxSlots) == "" || Settings(slots, maxSlots)[0] == ' '
    ensures var s := Settings(slots, maxSlots);
      && (s != "" ==> !IsSpace(s[|s| - 1]))
      && forall i :: 0 <= i < |s| ==> !IsSpace(s[i]) || s[i] == ' '
  {
    SettingShape("slots=", slots);
    SettingShape("max_slots=", maxSlots);
  }

  lemma BodyHasOneLine(host: string, slots: int, maxSlots: int)
    requires IsWord(host)
    ensures '\n' !in Body(host, slots, maxSlots)
  {
    var s := Settings(slots, maxSlots);
    var body := host + s;
    SettingsShape(slots, maxSlots);
    forall i | 0 <= i < |body|
      ensures body[i] != '\n'
    {
      assert body[i] == if i < |host| then host[i] else s[i - |host|];
    }
  }

  lemma BodyHasNoReturn(host: string, slots: int, maxSlots: int)
    requires IsWord(host)
    ensures WithoutReturn(Body(host, slots, maxSlots)) == Body(host, slots, maxSlots)
  {
    var s := Settings(slots, maxSlots);
    var body := host + s;
    SettingsShape(slots, maxSlots);
    assert body[|body| - 1] == if s == "" then host[|host| - 1] else s[|s| - 1];
  }

  lemma {:induction false} WordIsFirst(word: string, rest: string)
    requires IsWord(word) && (rest == "" || IsSpace(rest[0]))
    ensures FirstField(word + rest) == Some(word)
  {
    WordEndsAt(word, rest);
    assert (word + rest)[0] == word[0] && (word + rest)[..|word|] == word;
  }

  /** The line of a host is read back as the host. */
  lemma {:induction false} BodyIsRead(host: string, slots: int, maxSlots: int)
    requires IsWord(host)
    ensures '\n' !in Body(host, slots, maxSlots)
    ensures WithoutReturn(Body(host, slots, maxSlots)) == Body(host, slots, maxSlots)
    ensures FirstField(Body(host, slots, maxSlots)) == Some(host)
  {
    BodyHasOneLine(host, slots, maxSlots);
    BodyHasNoReturn(host, slots, maxSlots);
    SettingsShape(slots, maxSlots);
    WordIsFirst(host, Settings(slots, maxSlots));
  }

  lemma LineIsRead(body: string, more: string)
    requires '\n' !in body && WithoutReturn(body) == body
    ensures TakeLine(body + "\n" + more) == (body, more)
  {
    var text := body + "\n" + more;
    FirstSeparator(body, '\n', more);
    assert text[..|body|] == body && text[|body| + 1..] == more;
  }

  lemma {:induction false} WrittenThenRead(hosts: seq<string>, slots: int, maxSlots: int, more: string)
    requires forall h :: h in hosts ==> IsWord(h)
    ensures Hosts(Written(hosts, slots, maxSlots) + more) == hosts + Hosts(more)
  {
    if hosts == [] {
      assert Written(hosts, slots, maxSlots) + more == more;
    } else {
      var n := |hosts| - 1;
      var init, last := hosts[..n], hosts[n];
      var next := Body(last, slots, maxSlots) + "\n" + more;
      assert hosts == init + [last];
      assert IsWord(last);
      calc {
        Hosts(Written(hosts, slots, maxSlots) + more);
        { WrittenBeforeMore(init, last, slots, maxSlots, more); }
        Hosts(Written(init, slots, maxSlots) + next);
        { WrittenThenRead(init, slots, maxSlots, next); }
        init + Hosts(next);
        { LineThenHosts(last, slots, maxSlots, more); }
        init + ([last] + Hosts(more));
        { Assoc(init, [last], Hosts(more)); }
        hosts + Hosts(more);
      }
    }
  }

  lemma WrittenBeforeMore(init: seq<string>, last: string, slots: int, maxSlots: int, more: string)
    ensures Written(init + [last], slots, maxSlots) + more ==
      Written(init, slots, maxSlots) + (Body(last, slots, maxSlots) + "\n" + more)
  {
    var w, body := Written(init, slots, maxSlots), Body(last, slots, maxSlots);
    assert (init + [last])[..|init|] == init;
    Assoc(w + body, "\n", more);
    Assoc(w, body, "\n" + more);
    Assoc(body, "\n", more);
  }

  lemma {:induction false} LineThenHosts(host: string, slots: int, maxSlots: int, more: string)
    requires IsWord(host)
    ensures Hosts(Body(host, slots, maxSlots) + "\n" + more) == [host] + Hosts(more)
  {
    BodyIsRead(host, slots, maxSlots);
    LineIsRead(Body(host, slots, maxSlots), more);
  }

  /** What is read from a written hostfile is every host once, in the order of their first
      appearance, exactly when all hosts are words. */
  lemma {:induction false} HostfileRoundTrip(hosts: seq<string>, slots: int, maxSlots: int)
    ensures Hosts(Written(Distinct(hosts), slots, maxSlots)) == Distinct(hosts) <==>
      forall h :: h in hosts ==> IsWord(h)
  {
    var once := Distinct(hosts);
    if forall h :: h in hosts ==> IsWord(h) {
      WrittenThenRead(once, slots, maxSlots, "");
      assert Written(once, slots, maxSlots) + "" == Written(once, slots, maxSlots);
      assert once + Hosts("") == once;
    } else {
      HostsAreWords(Written(once, slots, maxSlots));
    }
  }

  function Bodies(hosts: seq<string>, slots: int, maxSlots: int): (r: seq<string>)
    ensures |r| == |hosts| && forall i :: 0 <= i < |r| ==> r[i] == Body(hosts[i], slots, maxSlots)
  {
    if hosts == [] then []
    else Bodies(hosts[..|hosts| - 1], slots, maxSlots) + [Body(hosts[|hosts| - 1], slots, maxSlots)]
  }

  lemma JoinTwoMore(parts: seq<string>, body: string)
    ensures Join(parts + [body] + [""], "\n") == Join(parts + [""], "\n") + body + "\n"
  {
    JoinLast(parts + [body], "", "\n");
    if parts == [] {
      assert parts + [body] == [body] && parts + [""] == [""];
    } else {
      JoinLast(parts, body, "\n");
      JoinLast(parts, "", "\n");
    }
  }

  lemma {:induction false} WrittenIsJoined(hosts: seq<string>, slots: int, maxSlots: int)
    ensures Written(hosts, slots, maxSlots) == Join(Bodies(hosts, slots, maxSlots) + [""], "\n")
  {
    if hosts == [] {
      assert Bodies(hosts, slots, maxSlots) + [""] == [""];
    } else {
      var n := |hosts| - 1;
      WrittenIsJoined(hosts[..n], slots, maxSlots);
      JoinTwoMore(Bodies(hosts[..n], slots, maxSlots), Body(hosts[n], slots, maxSlots));
    }
  }

  /** The lines of a written hostfile: one for each host, with the settings after it. */
  lemma WrittenLines(hosts: seq<string>, slots: int, maxSlots: int)
    requires forall h :: h in hosts ==> IsWord(h)
    ensures Split(Written(hosts, slots, maxSlots), "\n") == Bodies(hosts, slots, maxSlots) + [""]
  {
    WrittenIsJoined(hosts, slots, maxSlots);
    var parts := Bodies(hosts, slots, maxSlots) + [""];
    forall i | 0 <= i < |parts|
      ensures '\n' !in parts[i]
    {
      if i < |hosts| {
        BodyIsRead(hosts[i], slots, maxSlots);
      }
    }
    SplitJoin(parts, '\n');
  }

  predicate SettingText(s: string) {
    s == "" || (|s| >= 2 && s[0] == ' ' && forall i :: 1 <= i < |s| ==> !IsSpace(s[i]))
  }

  /** A space and a letter stand only where a setting starts. */
  lemma SettingAt(a: string, b: string, w: string, k: int)
    requires SettingText(a) && SettingText(b) && |w| >= 2 && w[0] == ' ' && OccursAt(a + b, w, k)
    ensures (a != "" && a[1] == w[1]) || (b != "" && b[1] == w[1])
  {
    var s := a + b;
    assert s[k..k + |w|][0] == s[k] && s[k..k + |w|][1] == s[k + 1];
    assert forall i :: 0 <= i < |s| ==> s[i] == if i < |a| then a[i] else b[i - |a|];
  }

  /** A setting is found where it is, and nowhere if the settings have other names. */
  lemma SettingFound(a: string, b: string, w: string)
    requires SettingText(a) && SettingText(b) && |w| >= 2 && w[0] == ' '
    ensures HasPrefix(a, w) || HasPrefix(b, w) ==> Contains(a + b, w)
    ensures (a == "" || a[1] != w[1]) && (b == "" || b[1] != w[1]) ==> !Contains(a + b, w)
  {
    if HasPrefix(a, w) {
      assert (a + b)[0..|w|] == a[..|w|];
      assert OccursAt(a + b, w, 0);
    }
    if HasPrefix(b, w) {
      assert (a + b)[|a|..|a| + |w|] == b[..|w|];
      assert OccursAt(a + b, w, |a|);
    }
    if Contains(a + b, w) {
      var k :| 0 <= k <= |a + b| && OccursAt(a + b, w, k);
      SettingAt(a, b, w, k);
    }
  }

  lemma SettingStarts(name: string, n: int)
    requires IsWord(name)
    ensures SettingText(Setting(name, n))
    ensures n > 0 ==> HasPrefix(Setting(name, n), " " + name) && Setting(name, n)[1] == name[0]
  {
    SettingShape(name, n);
    if n > 0 {
      assert Setting(name, n) == (" " + name) + Decimal(n);
    }
  }

  /** Each setting is on the line exactly when the request asks for a positive number, or leaves it
      to a profile that does. */
  lemma SettingsShown(request: int, profile: int, requestMax: int, profileMax: int)
    ensures var s := Settings(Effective(request, profile), Effective(requestMax, profileMax));
      && (Contains(s, " " + "slots=") <==> request > 0 || (request < 0 && profile > 0))
      && (Contains(s, " " + "max_slots=") <==> requestMax > 0 || (requestMax < 0 && profileMax > 0))
  {
    var n, m := Effective(request, profile), Effective(requestMax, profileMax);
    var a, b := Setting("slots=", n), Setting("max_slots=", m);
    SettingStarts("slots=", n);
    SettingStarts("max_slots=", m);
    SettingFound(a, b, " " + "slots=");
    SettingFound(a, b, " " + "max_slots=");
  }
}

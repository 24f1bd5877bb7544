/** What the log reader of FRPC decides: the kind of a line, and whether a config names a proxy
    twice. */
module FrpcLogs {
  import opened Basics
  import opened Domain

  /** Which of the phrase groups of `classify` occur in a lower-cased line. */
  datatype Phrases = Phrases(
    login: bool, added: bool, started: bool, auth: bool, config: bool, conflict: bool,
    session: bool, dial: bool, localService: bool, generic: bool)

  datatype LogLine = LogLine(raw: string, proxyName: Option<string>, phrases: Phrases)

  ghost predicate Lifecycle(p: Phrases) {
    p.login || p.added || p.started
  }

  ghost predicate AnyBefore(p: Phrases) {
    Lifecycle(p) || p.auth || p.config
  }

  // A conflict reported by the server, or a broken session.
  ghost predicate Remote(p: Phrases) {
    p.conflict || p.session
  }

  /** The event of a line. A failover is triggered exactly by a node fault, and a node fault is a
      conflict under a config without duplicates or a broken session, on a line that carries no
      lifecycle, authentication or configuration phrase. */
  function Classify(line: LogLine, localDup: bool, generation: nat): (e: FrpcEvent)
    ensures e.generation == generation && e.raw == line.raw && e.proxyName == line.proxyName
    ensures e.triggersFailover <==> e.faultDomain.NodeFault?
    ensures e.triggersFailover <==>
            !AnyBefore(line.phrases) && (if line.phrases.conflict then !localDup else line.phrases.session)
    ensures e.faultDomain.AuthFault? <==> !Lifecycle(line.phrases) && line.phrases.auth
    ensures e.faultDomain.ConfigFault? <==>
            !Lifecycle(line.phrases) && !line.phrases.auth && (line.phrases.config || (line.phrases.conflict && localDup))
    ensures e.faultDomain.NetworkFault? <==> !AnyBefore(line.phrases) && !Remote(line.phrases) && line.phrases.dial
    ensures e.faultDomain.LocalFault? <==>
            !AnyBefore(line.phrases) && !Remote(line.phrases) && !line.phrases.dial && line.phrases.localService
  {
    var p := line.phrases;
    var (eventType, faultDomain, triggers) :=
      if p.login then (LoginSuccess, UnknownFault, false)
      else if p.added then (ProxyAdded, UnknownFault, false)
      else if p.started then (ProxyStarted, UnknownFault, false)
      else if p.auth then (AuthFailure, AuthFault, false)
      else if p.config then (ConfigMismatch, ConfigFault, false)
      else if p.conflict then
        if localDup then (LocalDuplicateProxy, ConfigFault, false) else (ServerProxyConflict, NodeFault, true)
      else if p.session then (ServerConnectionFailure, NodeFault, true)
      else if p.dial then (NetworkAmbiguous, NetworkFault, false)
      else if p.localService then (LocalServiceFailure, LocalFault, false)
      else if p.generic then (UnknownError, UnknownFault, false)
      else (Info, UnknownFault, false);
    FrpcEvent(generation, line.raw, line.proxyName, eventType, faultDomain, triggers)
  }

  // The phrase groups in the order in which they are looked for, and the kind each one stands for.
  function Groups(p: Phrases): seq<bool> {
    [p.login, p.added, p.started, p.auth, p.config, p.conflict, p.session, p.dial, p.localService, p.generic]
  }

  function Kinds(localDup: bool): seq<FrpcEventType> {
    [LoginSuccess, ProxyAdded, ProxyStarted, AuthFailure, ConfigMismatch,
     if localDup then LocalDuplicateProxy else ServerProxyConflict,
     ServerConnectionFailure, NetworkAmbiguous, LocalServiceFailure, UnknownError, Info]
  }

  function Domains(localDup: bool): seq<FaultDomain> {
    [UnknownFault, UnknownFault, UnknownFault, AuthFault, ConfigFault,
     if localDup then ConfigFault else NodeFault,
     NodeFault, NetworkFault, LocalFault, UnknownFault, UnknownFault]
  }

  /** The kind and the fault domain of a line are those of the first phrase group it contains, and
      `Info` of an unknown domain without any. */
  lemma FirstGroupDecides(line: LogLine, localDup: bool, generation: nat, i: nat)
    requires i <= |Groups(line.phrases)|
    requires i < |Groups(line.phrases)| ==> Groups(line.phrases)[i]
    requires forall j :: 0 <= j < i ==> !Groups(line.phrases)[j]
    ensures Classify(line, localDup, generation).eventType == Kinds(localDup)[i]
    ensures Classify(line, localDup, generation).faultDomain == Domains(localDup)[i]
  {
    var g := Groups(line.phrases);
    assert forall j :: 0 <= j < i ==> !g[j];
    assert i > 0 ==> !g[0];
    assert i > 1 ==> !g[1];
    assert i > 2 ==> !g[2];
    assert i > 3 ==> !g[3];
    assert i > 4 ==> !g[4];
    assert i > 5 ==> !g[5];
    assert i > 6 ==> !g[6];
    assert i > 7 ==> !g[7];
    assert i > 8 ==> !g[8];
    assert i > 9 ==> !g[9];
  }

  // ---------------------------------------------------------------- the proxy name of a line

  // A bracket opened just before `from` is still open at `n`.
  predicate Opens(line: string, from: nat, n: nat)
    requires n <= |line|
  {
    0 < from <= n && line[from - 1] == '[' && forall i :: from <= i < n ==> !IsBracket(line[i])
  }

  // Characters `from` to `to` stand between a pair of brackets without brackets inside.
  predicate IsGroup(line: string, from: nat, to: nat) {
    from < to < |line| && line[to] == ']' && Opens(line, from, to)
  }

  predicate Contains(s: string, part: string) {
    exists i :: 0 <= i <= |s| && part <= s[i..]
  }

  // Not a source file and not a log level.
  predicate MayBeName(group: string) {
    var g := Lower(group);
    !EndsWith(g, ".go") && !Contains(g, "service.go") && g !in {"i", "w", "e", "d", "info", "warn", "error"}
  }

  const LEVELS := ["i", "w", "e", "d", "info", "warn", "error"]

  ghost predicate IsLevel(group: string) {
    exists k :: 0 <= k < |LEVELS| && EqIgnoreCase(group, LEVELS[k])
  }

  ghost predicate MentionsAt(group: string, i: nat) {
    i + 10 <= |group| && EqIgnoreCase(group[i..i + 10], "service.go")
  }

  /** A group may be a name unless, in some spelling, it ends like a Go source file, has `service.go` in
      it, or is a log level. */
  lemma MayBeNameExactly(group: string)
    ensures MayBeName(group) <==>
            && !(|group| >= 3 && EqIgnoreCase(group[|group| - 3..], ".go"))
            && !(exists i: nat :: MentionsAt(group, i))
            && !IsLevel(group)
  {
    assert Lower(".go") == ".go";
    if |group| >= 3 {
      assert Lower(group)[|group| - 3..] == Lower(group[|group| - 3..]);
    }
    ContainsExactly(group);
    LevelExactly(group);
  }

  lemma ContainsExactly(group: string)
    ensures Contains(Lower(group), "service.go") <==> exists i: nat :: MentionsAt(group, i)
  {
    var g := Lower(group);
    assert Lower("service.go") == "service.go";
    forall i: nat | i + 10 <= |group|
      ensures "service.go" <= g[i..] <==> MentionsAt(group, i)
    {
      assert g[i..i + 10] == Lower(group[i..i + 10]);
      assert g[i..][..10] == g[i..i + 10];
    }
  }

  lemma LevelExactly(group: string)
    ensures Lower(group) in {"i", "w", "e", "d", "info", "warn", "error"} <==> IsLevel(group)
  {
    assert Lower("i") == "i" && Lower("w") == "w" && Lower("e") == "e" && Lower("d") == "d";
    assert Lower("info") == "info" && Lower("warn") == "warn" && Lower("error") == "error";
    assert LEVELS[0] == "i" && LEVELS[1] == "w" && LEVELS[2] == "e" && LEVELS[3] == "d";
    assert LEVELS[4] == "info" && LEVELS[5] == "warn" && LEVELS[6] == "error";
  }

  ghost predicate NamesAt(line: string, from: nat, to: nat) {
    IsGroup(line, from, to) && MayBeName(line[from..to])
  }

  // The last bracketed group that ends before `n` and may be a name.
  ghost predicate NameBefore(line: string, n: nat, name: Option<string>) {
    match name
    case None => forall from: nat, to: nat :: NamesAt(line, from, to) ==> to >= n
    case Some(g) => exists from: nat, to: nat :: LastName(line, n, g, from, to)
  }

  ghost predicate LastName(line: string, n: nat, g: string, from: nat, to: nat) {
    NamesAt(line, from, to) && to < n && line[from..to] == g && forall f: nat, t: nat :: NamesAt(line, f, t) ==> t <= to || t >= n
  }

  // The bracket that is open at `n`.
  ghost predicate OpenAt(line: string, n: nat, start: Option<nat>)
    requires n <= |line|
  {
    match start
    case None => forall s: nat :: !Opens(line, s, n)
    case Some(s) => Opens(line, s, n)
  }

  lemma OpenStep(line: string, n: nat, s: nat)
    requires n < |line|
    ensures Opens(line, s, n + 1) <==> if line[n] == '[' then s == n + 1 else line[n] != ']' && Opens(line, s, n)
  {
  }

  lemma StartStep(line: string, n: nat, start: Option<nat>)
    requires n < |line| && OpenAt(line, n, start)
    ensures OpenAt(line, n + 1, if line[n] == '[' then Some(n + 1) else if line[n] == ']' then None else start)
  {
    var next := n + 1;
    forall s: nat
      ensures Opens(line, s, next) <==> if line[n] == '[' then s == next else line[n] != ']' && Opens(line, s, n)
    {
      OpenStep(line, n, s);
    }
  }

  lemma OnlyOneOpen(line: string, n: nat, s: nat, t: nat)
    requires n <= |line| && Opens(line, s, n) && Opens(line, t, n)
    ensures s == t
  {
  }

  lemma NameStep(line: string, n: nat, start: Option<nat>, name: Option<string>)
    requires n < |line| && OpenAt(line, n, start) && NameBefore(line, n, name)
    ensures NameBefore(line, n + 1,
                       if line[n] == ']' && start.Some? && start.value < n && MayBeName(line[start.value..n])
                       then Some(line[start.value..n]) else name)
  {
    forall f: nat, t: nat | NamesAt(line, f, t) && t == n
      ensures start == Some(f) && line[n] == ']'
    {
      if start.Some? {
        OnlyOneOpen(line, n, start.value, f);
      }
    }
    if line[n] == ']' && start.Some? && start.value < n && MayBeName(line[start.value..n]) {
      assert LastName(line, n + 1, line[start.value..n], start.value, n);
    } else if name.Some? {
      var from: nat, to: nat :| LastName(line, n, name.value, from, to);
      assert LastName(line, n + 1, name.value, from, to);
    }
  }

  /** The proxy name is the last bracketed group that is neither a source file nor a log level. */
  method ExtractProxyName(line: string) returns (name: Option<string>)
    ensures NameBefore(line, |line|, name)
  {
    name := None;
    var start: Option<nat> := None;
    for i := 0 to |line|
      invariant OpenAt(line, i, start)
      invariant NameBefore(line, i, name)
    {
      NameStep(line, i, start, name);
      StartStep(line, i, start);
      var c := line[i];
      if c == '[' {
        start := Some(i + 1);
      } else if c == ']' {
        if start.Some? && start.value < i && MayBeName(line[start.value..i]) {
          name := Some(line[start.value..i]);
        }
        start := None;
      }
    }
  }

  // ---------------------------------------------------------------- duplicate proxy names

  function Lines(text: string): seq<string> {
    if text == "" then []
    else
      var rest := Lines(text[1..]);
      if text[0] == '\n' then [""] + rest
      else if rest == [] then [[text[0]]]
      else if text[1] == '\n' then [[text[0]]] + rest[1..]
      else [[text[0]] + rest[0]] + rest[1..]
  }

  datatype LineKind =
    | Ignored
    | ProxiesHeader              // [[proxies]]
    | OtherTable                 // any other [[...]]
    | Section(name: string)      // [name], name possibly empty
    | Entry(key: string, value: string)
    | Other

  predicate IsBracket(c: char) { c == '[' || c == ']' }
  predicate IsQuote(c: char) { c == '"' || c == '\'' }

  function IndexOf(s: string, c: char): (i: nat)
    ensures i <= |s|
    ensures i < |s| ==> s[i] == c
    ensures forall j :: 0 <= j < i ==> s[j] != c
  {
    if s == "" then 0 else if s[0] == c then 0 else 1 + IndexOf(s[1..], c)
  }

  function KindOf(raw: string): LineKind {
    var line := Trim(raw);
    if line == "" || line[0] == '#' || line[0] == ';' then Ignored
    else if line == "[[proxies]]" then ProxiesHeader
    else if StartsWith(line, "[[") && EndsWith(line, "]]") then OtherTable
    else if StartsWith(line, "[") && EndsWith(line, "]") && !StartsWith(line, "[[") then
      Section(Trim(TrimMatches(line, IsBracket)))
    else
      var i := IndexOf(line, '=');
      if i < |line| then Entry(Trim(line[..i]), TrimMatches(Trim(line[i + 1..]), IsQuote)) else Other
  }

  predicate IsHeader(k: LineKind) {
    k.ProxiesHeader? || k.OtherTable? || k.Section?
  }

  /** Line `i` lies in a `[[proxies]]` block: the nearest header above it is `[[proxies]]`. */
  ghost predicate InProxies(lines: seq<string>, i: nat)
    requires i <= |lines|
  {
    exists h :: 0 <= h < i && KindOf(lines[h]).ProxiesHeader? && forall j :: h < j < i ==> !IsHeader(KindOf(lines[j]))
  }

  /** Line `i` names proxy `name`: as an INI section other than `common`, or by the `name` key of
      a `[[proxies]]` block. */
  ghost predicate NamesProxy(lines: seq<string>, i: nat, name: string)
    requires i < |lines|
  {
    && name != ""
    && match KindOf(lines[i])
       case Section(n) => n == name && !EqIgnoreCase(n, "common")
       case Entry(key, value) => InProxies(lines, i) && key == "name" && value == name
       case _ => false
  }

  ghost predicate HasDuplicateNames(lines: seq<string>) {
    exists i, j, name :: 0 <= i < j < |lines| && NamesProxy(lines, i, name) && NamesProxy(lines, j, name)
  }

  ghost predicate SeenBefore(lines: seq<string>, k: nat, name: string)
    requires k <= |lines|
  {
    exists i :: 0 <= i < k && NamesProxy(lines, i, name)
  }

  // Crossing line `k` enters or leaves a proxies block exactly at headers.
  lemma InProxiesStep(lines: seq<string>, k: nat)
    requires k < |lines|
    ensures InProxies(lines, k + 1) <==>
            if IsHeader(KindOf(lines[k])) then KindOf(lines[k]).ProxiesHeader? else InProxies(lines, k)
  {
    var kind := KindOf(lines[k]);
    if InProxies(lines, k + 1) {
      var h :| 0 <= h < k + 1 && KindOf(lines[h]).ProxiesHeader? && forall j :: h < j < k + 1 ==> !IsHeader(KindOf(lines[j]));
      assert h < k ==> !IsHeader(kind);
    }
    if !IsHeader(kind) && InProxies(lines, k) {
      var h :| 0 <= h < k && KindOf(lines[h]).ProxiesHeader? && forall j :: h < j < k ==> !IsHeader(KindOf(lines[j]));
      assert forall j :: h < j < k + 1 ==> !IsHeader(KindOf(lines[j]));
    }
  }

  lemma RepeatFound(lines: seq<string>, k: nat, name: string)
    requires k < |lines| && SeenBefore(lines, k, name) && NamesProxy(lines, k, name)
    ensures HasDuplicateNames(lines)
  {
    var i :| 0 <= i < k && NamesProxy(lines, i, name);
    assert NamesProxy(lines, i, name) && NamesProxy(lines, k, name);
  }

  ghost predicate NamesOnce(lines: seq<string>, k: nat)
    requires k <= |lines|
  {
    forall i, j, name :: 0 <= i < j < k ==> !(NamesProxy(lines, i, name) && NamesProxy(lines, j, name))
  }

  lemma SeenStep(lines: seq<string>, k: nat)
    requires k < |lines|
    ensures forall name :: SeenBefore(lines, k + 1, name) <==> SeenBefore(lines, k, name) || NamesProxy(lines, k, name)
  {
  }

  lemma NamesOnceStep(lines: seq<string>, k: nat)
    requires k < |lines| && NamesOnce(lines, k)
    requires forall name :: NamesProxy(lines, k, name) ==> !SeenBefore(lines, k, name)
    ensures NamesOnce(lines, k + 1)
  {
    forall i, j, name | 0 <= i < j < k + 1 && NamesProxy(lines, i, name)
      ensures !NamesProxy(lines, j, name)
    {
      if j == k {
        assert SeenBefore(lines, k, name);
      }
    }
  }

  /** The scan with its early return agrees with the description, for every text. */
  method ConfigHasDuplicateProxyNames(config: string) returns (duplicate: bool)
    ensures duplicate <==> HasDuplicateNames(Lines(config))
  {
    var lines := Lines(config);
    var seen: set<string> := {};
    var inTomlProxy := false;
    for k := 0 to |lines|
      invariant inTomlProxy <==> InProxies(lines, k)
      invariant forall name :: name in seen <==> SeenBefore(lines, k, name)
      invariant NamesOnce(lines, k)
    {
      InProxiesStep(lines, k);
      SeenStep(lines, k);
      var found: Option<string> := None;
      match KindOf(lines[k]) {
        case ProxiesHeader =>
          inTomlProxy := true;
        case OtherTable =>
          inTomlProxy := false;
        case Section(name) =>
          inTomlProxy := false;
          if name != "" && !EqIgnoreCase(name, "common") {
            found := Some(name);
          }
        case Entry(key, value) =>
          if inTomlProxy && key == "name" && value != "" {
            found := Some(value);
          }
        case _ =>
      }
      assert forall name :: NamesProxy(lines, k, name) <==> found == Some(name);
      if found.Some? {
        if found.value in seen {
          RepeatFound(lines, k, found.value);
          return true;
        }
        seen := seen + {found.value};
      }
      NamesOnceStep(lines, k);
    }
    return false;
  }

  // ---------------------------------------------------------------- what a config looks like

  // The lines, each with its line end.
  function Terminated(lines: seq<string>): string {
    if lines == [] then "" else lines[0] + "\n" + Terminated(lines[1..])
  }

  // `text` is these lines, each with its line end; only the last may lack it.
  predicate MadeOf(text: string, lines: seq<string>) {
    || text == Terminated(lines)
    || (text != "" && text[|text| - 1] != '\n' && text + "\n" == Terminated(lines))
  }

  /** The lines of a text are what stands between its line ends; a line end after the last line does not
      matter. */
  lemma {:induction false} LinesExactly(text: string)
    ensures forall k :: 0 <= k < |Lines(text)| ==> '\n' !in Lines(text)[k]
    ensures MadeOf(text, Lines(text))
  {
    if text != "" {
      var rest := Lines(text[1..]);
      LinesExactly(text[1..]);
      if text[0] == '\n' {
        NewLine(text[1..], rest);
        assert text == "\n" + text[1..];
      } else if rest == [] {
        assert Lines(text)[1..] == [];
        assert text == [text[0]];
      } else if text[1] == '\n' {
        FirstLineEmpty(text[1..]);
        LongerLine(text[0], text[1..], rest);
        assert text == [text[0]] + text[1..] && [text[0]] + rest[0] == [text[0]];
      } else {
        LongerLine(text[0], text[1..], rest);
        assert text == [text[0]] + text[1..];
      }
    }
  }

  lemma NewLine(text: string, rest: seq<string>)
    requires MadeOf(text, rest)
    ensures MadeOf("\n" + text, [""] + rest)
  {
    assert ([""] + rest)[1..] == rest;
    assert Terminated([""] + rest) == "\n" + Terminated(rest);
    if text != Terminated(rest) {
      assert ("\n" + text) + "\n" == "\n" + (text + "\n");
    }
  }

  lemma LongerLine(c: char, text: string, rest: seq<string>)
    requires c != '\n' && rest != [] && MadeOf(text, rest) && text != ""
    ensures MadeOf([c] + text, [[c] + rest[0]] + rest[1..])
  {
    var lines := [[c] + rest[0]] + rest[1..];
    assert lines[1..] == rest[1..];
    assert Terminated(lines) == [c] + Terminated(rest);
    if text != Terminated(rest) {
      assert ([c] + text) + "\n" == [c] + (text + "\n");
    }
  }

  lemma FirstLineEmpty(text: string)
    requires text != "" && text[0] == '\n'
    ensures Lines(text) != [] && Lines(text)[0] == ""
  {
  }

  lemma Kept(s: string, p: char -> bool)
    requires s != "" ==> !p(s[0]) && !p(s[|s| - 1])
    ensures TrimMatches(s, p) == s
  {
    TrimmedExactly(s, p);
    assert s == "" + s + "" && forall c :: c in "" + "" ==> p(c);
    assert IsCore(s, s, p);
    OnlyOneCore(TrimMatches(s, p), s, s, p);
  }

  lemma Unwrapped(l: string, core: string, r: string, p: char -> bool)
    requires forall c :: c in l + r ==> p(c)
    requires core != "" ==> !p(core[0]) && !p(core[|core| - 1])
    ensures TrimMatches(l + core + r, p) == core
  {
    var s := l + core + r;
    TrimmedExactly(s, p);
    assert IsCore(core, s, p);
    OnlyOneCore(TrimMatches(s, p), core, s, p);
  }

  // A proxy name that can be written down: not blank at its ends, and no bracket, quote or line end.
  predicate Plain(name: string) {
    && name != "" && !IsSpace(name[0]) && !IsSpace(name[|name| - 1])
    && forall c :: c in name ==> c !in {'[', ']', '"', '\'', '\n'}
  }

  lemma SectionLine(name: string)
    requires Plain(name)
    ensures KindOf("[" + name + "]") == Section(name)
  {
    var line := "[" + name + "]";
    Kept(line, IsSpace);
    Kept(name, IsSpace);
    assert name[0] in name && name[|name| - 1] in name;
    Unwrapped("[", name, "]", IsBracket);
    assert line[1] == name[0];
  }

  lemma TableLine(table: string)
    ensures KindOf("[[" + table + "]]") == if table == "proxies" then ProxiesHeader else OtherTable
  {
    var line := "[[" + table + "]]";
    Kept(line, IsSpace);
    assert line[2..|line| - 2] == table;
    assert "[[proxies]]"[2..9] == "proxies";
    assert line[..2] == "[[" && line[|line| - 2..] == "]]";
  }

  // `key = "value"`
  function Assignment(key: string, value: string): string {
    key + " = \"" + value + "\""
  }

  lemma SplitAtEquals(before: string, after: string)
    requires '=' !in before
    ensures var line := before + "=" + after;
            IndexOf(line, '=') == |before| && line[..|before|] == before && line[|before| + 1..] == after
  {
    var line := before + "=" + after;
    assert line[|before|] == '=';
    assert forall j :: 0 <= j < |before| ==> line[j] == before[j] && before[j] in before;
  }

  lemma ValueOf(value: string)
    requires Plain(value)
    ensures TrimMatches(Trim(" \"" + value + "\""), IsQuote) == value
  {
    var quoted := "\"" + value + "\"";
    Unwrapped(" ", quoted, "", IsSpace);
    assert " \"" + value + "\"" == " " + quoted + "";
    assert value[0] in value && value[|value| - 1] in value;
    Unwrapped("\"", value, "\"", IsQuote);
  }

  lemma KeyOf(key: string)
    requires Plain(key)
    ensures Trim(key + " ") == key
  {
    Unwrapped("", key, " ", IsSpace);
    assert key + " " == "" + key + " ";
  }

  lemma OrdinaryLine(line: string)
    requires line != "" && line[0] !in {'[', '#', ';'} && Trim(line) == line
    ensures var i := IndexOf(line, '=');
            KindOf(line) == if i < |line| then Entry(Trim(line[..i]), TrimMatches(Trim(line[i + 1..]), IsQuote)) else Other
  {
    assert line != "[[proxies]]" by {
      assert "[[proxies]]"[0] == '[';
    }
    assert !StartsWith(line, "[[") && !StartsWith(line, "[");
  }

  lemma EntryLine(key: string, value: string)
    requires Plain(key) && Plain(value) && '=' !in key && key[0] !in {'#', ';'}
    ensures KindOf(Assignment(key, value)) == Entry(key, value)
  {
    var line := Assignment(key, value);
    assert line[0] == key[0] && key[0] in key;
    Kept(line, IsSpace);
    OrdinaryLine(line);
    AssignmentSplits(key, value);
    KeyOf(key);
    ValueOf(value);
  }

  lemma AssignmentSplits(key: string, value: string)
    requires '=' !in key
    ensures var line := Assignment(key, value);
            && IndexOf(line, '=') == |key| + 1 < |line|
            && line[..|key| + 1] == key + " " && line[|key| + 2..] == " \"" + value + "\""
  {
    var before, after := key + " ", " \"" + value + "\"";
    assert Assignment(key, value) == before + "=" + after;
    SplitAtEquals(before, after);
  }

  /** A line is passed over exactly when nothing but white space stands before its end or before a `#`
      or `;`. */
  lemma IgnoredExactly(raw: string)
    ensures KindOf(raw).Ignored? <==> exists i :: PassedOverAt(raw, i)
  {
    TrimmedExactly(raw, IsSpace);
    var i, j := CoreBounds(Trim(raw), raw, IsSpace);
    if i == j {
      assert forall k :: 0 <= k < |raw| ==> IsSpace(raw[k]);
      assert PassedOverAt(raw, |raw|);
    } else {
      assert Trim(raw)[0] == raw[i];
      assert KindOf(raw).Ignored? <==> PassedOverAt(raw, i);
    }
  }

  predicate PassedOverAt(raw: string, i: int) {
    0 <= i <= |raw| && (forall j :: 0 <= j < i ==> IsSpace(raw[j])) && (i == |raw| || raw[i] in {'#', ';'})
  }

  /** Configs of proxies with these names: one `[[proxies]]` block each, or one section each. */
  function TomlLines(names: seq<string>): seq<string> {
    seq(2 * |names|, i requires 0 <= i < 2 * |names| => if i % 2 == 0 then "[[proxies]]" else Assignment("name", names[i / 2]))
  }

  function IniLines(names: seq<string>): seq<string> {
    seq(|names|, i requires 0 <= i < |names| => "[" + names[i] + "]")
  }

  ghost predicate Repeats(names: seq<string>) {
    exists i, j :: 0 <= i < j < |names| && names[i] == names[j]
  }

  lemma TomlNames(names: seq<string>, i: nat, name: string)
    requires (forall k :: 0 <= k < |names| ==> Plain(names[k])) && i < 2 * |names|
    ensures NamesProxy(TomlLines(names), i, name) <==> i % 2 == 1 && names[i / 2] == name
  {
    if i % 2 == 0 {
      TomlHeader(names, i);
    } else {
      TomlHeader(names, i - 1);
      assert InProxies(TomlLines(names), i);
      EntryLine("name", names[i / 2]);
    }
  }

  lemma TomlHeader(names: seq<string>, i: nat)
    requires i < 2 * |names| && i % 2 == 0
    ensures KindOf(TomlLines(names)[i]).ProxiesHeader?
  {
    TableLine("proxies");
    assert TomlLines(names)[i] == "[[" + "proxies" + "]]";
  }

  /** The scan finds a duplicate in such a TOML config exactly when a name is repeated. */
  lemma TomlDuplicates(names: seq<string>)
    requires forall k :: 0 <= k < |names| ==> Plain(names[k])
    ensures HasDuplicateNames(TomlLines(names)) <==> Repeats(names)
  {
    if HasDuplicateNames(TomlLines(names)) {
      TomlRepeats(names);
    }
    if i, j :| 0 <= i < j < |names| && names[i] == names[j] {
      var x, y := 2 * i + 1, 2 * j + 1;
      TomlNames(names, x, names[i]);
      TomlNames(names, y, names[i]);
      assert x / 2 == i && y / 2 == j;
    }
  }

  lemma TomlRepeats(names: seq<string>)
    requires forall k :: 0 <= k < |names| ==> Plain(names[k])
    requires HasDuplicateNames(TomlLines(names))
    ensures Repeats(names)
  {
    var i, j, name :| 0 <= i < j < |TomlLines(names)| && NamesProxy(TomlLines(names), i, name) && NamesProxy(TomlLines(names), j, name);
    TomlNames(names, i, name);
    TomlNames(names, j, name);
    Halves(i, j);
  }

  lemma Halves(i: nat, j: nat)
    requires i < j && i % 2 == 1 && j % 2 == 1
    ensures i / 2 < j / 2
  {
  }

  /** The same for sections, where `common`, in any spelling, is not a proxy. */
  lemma IniDuplicates(names: seq<string>)
    requires forall k :: 0 <= k < |names| ==> Plain(names[k])
    ensures HasDuplicateNames(IniLines(names)) <==>
            exists i, j :: 0 <= i < j < |names| && names[i] == names[j] && !EqIgnoreCase(names[i], "common")
  {
    var lines := IniLines(names);
    forall i, name | 0 <= i < |lines|
      ensures NamesProxy(lines, i, name) <==> names[i] == name && !EqIgnoreCase(name, "common")
    {
      SectionLine(names[i]);
    }
    if i, j :| 0 <= i < j < |names| && names[i] == names[j] && !EqIgnoreCase(names[i], "common") {
      assert NamesProxy(lines, i, names[i]) && NamesProxy(lines, j, names[i]);
    }
  }
}

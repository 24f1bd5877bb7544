/** The ChmlFrp provider: remote tunnels, what a sync sends and the provider stores, and when a
    remote tunnel matches a plan. */
module ChmlFrp {
  import opened Basics
  import opened Domain
  import opened Journals

  datatype RemoteTunnel = RemoteTunnel(
    tunnelId: int,
    node: string,
    localIp: string,
    localPort: int,
    remoteEndpoint: string,
    portType: string,
    bandDomain: Option<string>,
    encryption: string,
    compression: string,
    extraParams: Option<string>,
    tunnelState: string)

  // The body of update_tunnel and create_tunnel (the token and the tunnel name aside).
  datatype Mutation = Mutation(
    node: string,
    portType: string,
    localIp: string,
    localPort: int,
    remotePort: int,
    encryption: bool,
    compression: bool,
    extraParams: string,
    bandDomain: string)

  // ---------------------------------------------------------------- port numbers

  const I64_MIN := -0x8000_0000_0000_0000
  const I64_MAX := 0x7FFF_FFFF_FFFF_FFFF

  predicate IsDigit(c: char) { '0' <= c <= '9' }

  predicate AllDigits(s: string) {
    forall i :: 0 <= i < |s| ==> IsDigit(s[i])
  }

  function DigitsValue(s: string): nat
    requires forall i :: 0 <= i < |s| ==> IsDigit(s[i])
  {
    if s == "" then 0
    else
      assert IsDigit(s[|s| - 1]);
      10 * DigitsValue(s[..|s| - 1]) + (s[|s| - 1] as int - '0' as int)
  }

  // `str::parse::<i64>`
  function ParseI64(s: string): Option<int> {
    var signed := |s| > 0 && (s[0] == '-' || s[0] == '+');
    var digits := if signed then s[1..] else s;
    if digits == "" || !AllDigits(digits) then None
    else
      var n: int := DigitsValue(digits);
      var v := if signed && s[0] == '-' then -n else n;
      if I64_MIN <= v <= I64_MAX then Some(v) else None
  }

  function Natural(n: nat): (s: string)
    ensures |s| > 0 && forall i :: 0 <= i < |s| ==> IsDigit(s[i])
  {
    var last := [('0' as int + n % 10) as char];
    if n < 10 then last else Natural(n / 10) + last
  }

  function Decimal(n: int): string {
    if n < 0 then "-" + Natural(-n) else Natural(n)
  }

  lemma {:induction false} NaturalValue(n: nat)
    ensures DigitsValue(Natural(n)) == n
  {
    if n >= 10 {
      NaturalValue(n / 10);
      var s := Natural(n);
      assert s[..|s| - 1] == Natural(n / 10);
    }
  }

  lemma DecimalRoundTrip(n: int)
    requires I64_MIN <= n <= I64_MAX
    ensures ParseI64(Decimal(n)) == Some(n)
  {
    if n < 0 {
      NaturalValue(-n);
      assert Decimal(n)[1..] == Natural(-n);
    } else {
      NaturalValue(n);
      assert IsDigit(Decimal(n)[0]);
    }
  }

  function Zeros(k: nat): (s: string)
    ensures |s| == k && forall i :: 0 <= i < k ==> IsDigit(s[i])
  {
    seq(k, i => '0')
  }

  // A sign, zeros, and the shortest spelling.
  ghost predicate SpelledAs(s: string, v: int, sign: string, k: nat) {
    && s == sign + (Zeros(k) + Natural(if v < 0 then -v else v))
    && ((sign == "-" && v <= 0) || (sign in {"", "+"} && v >= 0))
  }

  lemma {:induction false} DigitsCanonical(d: string) returns (k: nat)
    requires d != "" && forall i :: 0 <= i < |d| ==> IsDigit(d[i])
    ensures d == Zeros(k) + Natural(DigitsValue(d))
  {
    var front, last := d[..|d| - 1], d[|d| - 1];
    assert d == front + [last] && IsDigit(last);
    k := 0;
    if front != "" {
      k := DigitsCanonical(front);
      if DigitsValue(front) == 0 {
        assert Natural(0) == "0";
        assert Zeros(k) + "0" == Zeros(k + 1);
        k := k + 1;
      }
    }
  }

  lemma {:induction false} ZerosDoNotCount(k: nat, d: string)
    requires forall i :: 0 <= i < |d| ==> IsDigit(d[i])
    ensures AllDigits(Zeros(k) + d)
    ensures DigitsValue(Zeros(k) + d) == DigitsValue(d)
    decreases k + |d|
  {
    var all := Zeros(k) + d;
    if d != "" {
      ZerosDoNotCount(k, d[..|d| - 1]);
      assert all[..|all| - 1] == Zeros(k) + d[..|d| - 1];
      assert all[|all| - 1] == d[|d| - 1];
    } else if k > 0 {
      ZerosDoNotCount(k - 1, "");
      assert all[..|all| - 1] == Zeros(k - 1) + "";
    }
  }

  /** Exactly the spellings of 64-bit numbers are parsed. */
  lemma ParsedExactly(s: string, v: int)
    ensures ParseI64(s) == Some(v) <==> I64_MIN <= v <= I64_MAX && exists sign, k :: SpelledAs(s, v, sign, k)
  {
    if ParseI64(s) == Some(v) {
      ParsedIsSpelled(s, v);
    }
    if sign, k :| I64_MIN <= v <= I64_MAX && SpelledAs(s, v, sign, k) {
      SpelledIsParsed(s, v, sign, k);
    }
  }

  lemma ParsedIsSpelled(s: string, v: int)
    requires ParseI64(s) == Some(v)
    ensures exists sign, k :: SpelledAs(s, v, sign, k)
  {
    if |s| > 0 && (s[0] == '-' || s[0] == '+') {
      var digits := s[1..];
      assert s == [s[0]] + digits;
      SignedIsParsed(s[0], digits);
      var k := DigitsCanonical(digits);
      assert SpelledAs(s, v, [s[0]], k);
    } else {
      PlainIsParsed(s);
      var k := DigitsCanonical(s);
      assert s == "" + s;
      assert SpelledAs(s, v, "", k);
    }
  }

  lemma SpelledIsParsed(s: string, v: int, sign: string, k: nat)
    requires I64_MIN <= v <= I64_MAX && SpelledAs(s, v, sign, k)
    ensures ParseI64(s) == Some(v)
  {
    var n := if v < 0 then -v else v;
    var digits := Zeros(k) + Natural(n);
    ZerosDoNotCount(k, Natural(n));
    NaturalValue(n);
    if sign == "" {
      assert s == digits && IsDigit(digits[0]);
      PlainIsParsed(digits);
    } else {
      SignedIsParsed(sign[0], digits);
      assert s == [sign[0]] + digits;
    }
  }

  predicate IsNumeral(s: string) {
    s != "" && AllDigits(s)
  }

  function InI64(v: int): Option<int> {
    if I64_MIN <= v <= I64_MAX then Some(v) else None
  }

  lemma PlainIsParsed(digits: string)
    requires digits == "" || digits[0] !in {'+', '-'}
    ensures ParseI64(digits) == if IsNumeral(digits) then InI64(DigitsValue(digits)) else None
  {
  }

  lemma SignedIsParsed(sign: char, digits: string)
    requires sign in {'+', '-'}
    ensures ParseI64([sign] + digits) ==
            if !IsNumeral(digits) then None else InI64(if sign == '-' then 0 - DigitsValue(digits) else DigitsValue(digits))
  {
    assert ([sign] + digits)[1..] == digits;
  }

  // ---------------------------------------------------------------- rows and payloads

  function RemotePortNumber(r: RemoteTunnel): (n: int)
    ensures I64_MIN <= n <= I64_MAX
    ensures ParseI64(r.remoteEndpoint) == Some(n) || (ParseI64(r.remoteEndpoint).None? && n == 0)
  {
    ParseI64(r.remoteEndpoint).GetOr(0)
  }

  function EffectiveDomain(r: RemoteTunnel): string {
    if r.bandDomain.Some? then r.bandDomain.value
    else if IsWeb(r.portType) then r.remoteEndpoint
    else ""
  }

  predicate Boolish(value: string) {
    Lower(value) in {"1", "true", "yes", "on"}
  }

  predicate MatchesPlanOnNode(r: RemoteTunnel, plan: TunnelPlan, node: string) {
    && r.node == node
    && r.localIp == plan.localIp
    && r.localPort == plan.localPort
    && EqIgnoreCase(r.portType, plan.protocol)
    && (IsWeb(plan.protocol) ==> EqIgnoreCase(EffectiveDomain(r), plan.domain))
  }

  // What `sync_tunnel` sends for a plan, starting from the remote row it was given.
  function SyncPayload(remote: RemoteTunnel, plan: TunnelPlan, target: string): Mutation {
    var web := IsWeb(plan.protocol);
    Mutation(target, Lower(plan.protocol), plan.localIp, plan.localPort,
             if web then 0 else RemotePortNumber(remote),
             Boolish(remote.encryption), Boolish(remote.compression), remote.extraParams.GetOr(""),
             if web then plan.domain else EffectiveDomain(remote))
  }

  // What `create_tunnel` sends.
  function CreatePayload(plan: TunnelPlan, target: string): Mutation {
    Mutation(target, Lower(plan.protocol), plan.localIp, plan.localPort, 0, false, true, "", plan.domain)
  }

  function BoolText(b: bool): string {
    if b then "true" else "false"
  }

  /** How the provider stores a mutation. Rows come in two documented shapes: with a separate
      domain field, or with the domain of a web tunnel in the endpoint field. */
  function Stored(tunnelId: int, tunnelState: string, m: Mutation, domainField: bool): RemoteTunnel {
    RemoteTunnel(tunnelId, m.node, m.localIp, m.localPort,
                 if IsWeb(m.portType) then m.bandDomain else Decimal(m.remotePort),
                 m.portType,
                 if domainField then Some(m.bandDomain) else None,
                 BoolText(m.encryption), BoolText(m.compression), Some(m.extraParams), tunnelState)
  }

  function Synced(row: RemoteTunnel, m: Mutation, domainField: bool): RemoteTunnel {
    Stored(row.tunnelId, row.tunnelState, m, domainField)
  }

  predicate AllOn(tunnels: map<string, RemoteTunnel>, plans: seq<TunnelPlan>, node: string) {
    forall i :: 0 <= i < |plans| ==>
      plans[i].name in tunnels && MatchesPlanOnNode(tunnels[plans[i].name], plans[i], node)
  }

  // The spellings of true.
  predicate IsTrueText(value: string) {
    EqIgnoreCase(value, "1") || EqIgnoreCase(value, "true") || EqIgnoreCase(value, "yes") || EqIgnoreCase(value, "on")
  }

  lemma BoolishExactly(value: string)
    ensures Boolish(value) <==> IsTrueText(value)
  {
    assert Lower("1") == "1" && Lower("true") == "true" && Lower("yes") == "yes" && Lower("on") == "on";
  }

  /** Verification compares node, local address, type and, for http and https, the domain: the one in
      its own field, or else the one in the endpoint. Letter case does not matter for the last two. */
  lemma MatchesExactly(r: RemoteTunnel, plan: TunnelPlan, node: string)
    ensures MatchesPlanOnNode(r, plan, node) <==>
            && r.node == node && r.localIp == plan.localIp && r.localPort == plan.localPort
            && EqIgnoreCase(r.portType, plan.protocol)
            && (EqIgnoreCase(plan.protocol, "http") || EqIgnoreCase(plan.protocol, "https") ==>
                  EqIgnoreCase(if r.bandDomain.Some? then r.bandDomain.value else r.remoteEndpoint, plan.domain))
  {
    WebExactly(plan.protocol);
  }

  /** A row that holds what a sync sends: the plan's node, address, type and web domain; for other
      protocols the port and the domain of the row it started from; and that row's flags. */
  ghost predicate HoldsSync(row: RemoteTunnel, remote: RemoteTunnel, plan: TunnelPlan, target: string, domainField: bool) {
    && row.node == target && row.localIp == plan.localIp && row.localPort == plan.localPort
    && row.portType == Lower(plan.protocol)
    && (EqIgnoreCase(plan.protocol, "http") || EqIgnoreCase(plan.protocol, "https") ==>
          row.remoteEndpoint == plan.domain && row.bandDomain == (if domainField then Some(plan.domain) else None))
    && (!EqIgnoreCase(plan.protocol, "http") && !EqIgnoreCase(plan.protocol, "https") ==>
          && ParseI64(row.remoteEndpoint) == (if ParseI64(remote.remoteEndpoint).Some? then ParseI64(remote.remoteEndpoint) else Some(0))
          && (domainField ==>
                row.bandDomain == Some(if remote.bandDomain.Some? then remote.bandDomain.value
                                       else if EqIgnoreCase(remote.portType, "http") || EqIgnoreCase(remote.portType, "https")
                                       then remote.remoteEndpoint else "")))
    && (IsTrueText(row.encryption) <==> IsTrueText(remote.encryption))
    && (IsTrueText(row.compression) <==> IsTrueText(remote.compression))
    && row.extraParams == Some(remote.extraParams.GetOr(""))
  }

  lemma SyncedHolds(row: RemoteTunnel, remote: RemoteTunnel, plan: TunnelPlan, target: string, domainField: bool)
    ensures HoldsSync(Synced(row, SyncPayload(remote, plan, target), domainField), remote, plan, target, domainField)
  {
    WebExactly(plan.protocol);
    WebExactly(remote.portType);
    LowerIsLower(plan.protocol);
    DecimalRoundTrip(RemotePortNumber(remote));
    BoolishExactly(remote.encryption);
    BoolishExactly(remote.compression);
    BoolTextRead(Boolish(remote.encryption));
    BoolTextRead(Boolish(remote.compression));
    BoolishExactly(BoolText(Boolish(remote.encryption)));
    BoolishExactly(BoolText(Boolish(remote.compression)));
  }

  /** A new row: not encrypted, compressed, without a port of its own, at the plan's domain. */
  ghost predicate HoldsCreate(row: RemoteTunnel, plan: TunnelPlan, target: string, domainField: bool) {
    && row.node == target && row.localIp == plan.localIp && row.localPort == plan.localPort
    && row.portType == Lower(plan.protocol)
    && row.bandDomain == (if domainField then Some(plan.domain) else None)
    && row.remoteEndpoint ==
       (if EqIgnoreCase(plan.protocol, "http") || EqIgnoreCase(plan.protocol, "https") then plan.domain else "0")
    && !IsTrueText(row.encryption) && IsTrueText(row.compression) && row.extraParams == Some("")
  }

  lemma CreatedHolds(id: int, state: string, plan: TunnelPlan, target: string, domainField: bool)
    ensures HoldsCreate(Stored(id, state, CreatePayload(plan, target), domainField), plan, target, domainField)
  {
    WebExactly(plan.protocol);
    LowerIsLower(plan.protocol);
    BoolTextRead(true);
    BoolTextRead(false);
    BoolishExactly("true");
    BoolishExactly("false");
    assert Natural(0) == "0";
  }

  /** What a sync or a create stores is what verification accepts. */
  lemma SyncedMatches(row: RemoteTunnel, remote: RemoteTunnel, plan: TunnelPlan, target: string, domainField: bool)
    ensures MatchesPlanOnNode(Synced(row, SyncPayload(remote, plan, target), domainField), plan, target)
  {
    LowerIsLower(plan.protocol);
  }

  lemma CreatedMatches(id: int, state: string, plan: TunnelPlan, target: string, domainField: bool)
    ensures MatchesPlanOnNode(Stored(id, state, CreatePayload(plan, target), domainField), plan, target)
  {
    LowerIsLower(plan.protocol);
  }

  lemma BoolTextRead(b: bool)
    ensures Boolish(BoolText(b)) == b
  {
    assert Lower("true") == "true";
    assert Lower("false") == "false";
  }

  /** Equal up to letter case, boolean spelling and the spelling of a port number. */
  predicate SameTunnel(a: RemoteTunnel, b: RemoteTunnel) {
    && a.tunnelId == b.tunnelId && a.tunnelState == b.tunnelState
    && a.node == b.node && a.localIp == b.localIp && a.localPort == b.localPort
    && EqIgnoreCase(a.portType, b.portType)
    && EqIgnoreCase(EffectiveDomain(a), EffectiveDomain(b))
    && (!IsWeb(a.portType) ==> ParseI64(a.remoteEndpoint) == ParseI64(b.remoteEndpoint))
    && Boolish(a.encryption) == Boolish(b.encryption)
    && Boolish(a.compression) == Boolish(b.compression)
    && a.extraParams.GetOr("") == b.extraParams.GetOr("")
  }

  // The row left by the compensation of `plan`, whose row was `original` before the migration.
  function RolledBack(original: RemoteTunnel, plan: TunnelPlan, domainField: bool): RemoteTunnel {
    Synced(original, SyncPayload(original, plan, original.node), domainField)
  }

  // The snapshot matched its plan; a port tunnel had a readable port, and no domain that the
  // provider would not store.
  predicate Restorable(original: RemoteTunnel, plan: TunnelPlan, domainField: bool) {
    && MatchesPlanOnNode(original, plan, original.node)
    && (IsWeb(plan.protocol)
        || (ParseI64(original.remoteEndpoint).Some? && (domainField || EffectiveDomain(original) == "")))
  }

  /** Compensation re-sends the plan's local fields, so it restores a snapshot exactly when that
      snapshot matched its plan and, for a port tunnel, its port could be read and its domain, if
      any, is stored. */
  lemma RollbackRestoresExactly(original: RemoteTunnel, plan: TunnelPlan, domainField: bool)
    ensures SameTunnel(original, RolledBack(original, plan, domainField)) <==> Restorable(original, plan, domainField)
  {
    LowerIsLower(plan.protocol);
    DecimalRoundTrip(RemotePortNumber(original));
    BoolTextRead(Boolish(original.encryption));
    BoolTextRead(Boolish(original.compression));
    OnlyEmptyIsBlankDomain(EffectiveDomain(original));
    var r := RolledBack(original, plan, domainField);
    if EqIgnoreCase(original.portType, plan.protocol) {
      assert IsWeb(original.portType) == IsWeb(plan.protocol) == IsWeb(r.portType);
    }
  }

  lemma OnlyEmptyIsBlankDomain(domain: string)
    ensures EqIgnoreCase(domain, "") <==> domain == ""
  {
    assert |Lower(domain)| == |domain|;
  }

  // ---------------------------------------------------------------- the client

  // What a mutation call is for: to bring a tunnel to its plan, to move it, or to undo a move.
  datatype Purpose = Align | Move | Undo

  datatype Call = Call(tunnel: string, node: string, purpose: Purpose)

  /** What went wrong on the provider's side: mutations reported as done but not stored as sent, and
      mutation calls that failed. */
  datatype Mishaps = Mishaps(garbled: multiset<Call>, failed: multiset<Call>)

  function Failing(m: Mishaps, call: Call): Mishaps {
    m.(failed := m.failed + multiset{call})
  }

  function Garbling(m: Mishaps, call: Call): Mishaps {
    m.(garbled := m.garbled + multiset{call})
  }

  // Mishaps are only ever added.
  ghost predicate MoreMishaps(a: Mishaps, b: Mishaps) {
    forall c: Call :: a.garbled[c] <= b.garbled[c] && a.failed[c] <= b.failed[c]
  }

  // And a provider that answers adds none.
  ghost predicate MishapsWhile(answering: bool, a: Mishaps, b: Mishaps) {
    MoreMishaps(a, b) && (answering ==> b == a)
  }

  class ChmlFrpClient {
    const journal: Journal
    const configured: bool       // a token is set; credentials do not change during a job
    const domainField: bool
    const render: (map<string, RemoteTunnel>, string, seq<string>) -> string

    // While steady, calls succeed, mutations are applied and nodes answer from `directory` and
    // `nodes`.
    var steady: bool
    var directory: map<string, NodeInfo>
    var nodes: seq<NodeSummary>                // the node list, without quarantine marks

    var tunnels: map<string, RemoteTunnel>     // remote names are unique
    ghost var mishaps: Mishaps

    constructor (journal: Journal, configured: bool, domainField: bool,
                 render: (map<string, RemoteTunnel>, string, seq<string>) -> string)
      ensures this.journal == journal
    {
      this.journal, this.configured, this.domainField, this.render := journal, configured, domainField, render;
      steady, directory, nodes, tunnels, mishaps := false, map[], [], map[], Mishaps(multiset{}, multiset{});
    }

    ghost predicate Answering()
      reads `steady
    {
      configured && steady
    }

    method ListTunnels() returns (r: Option<map<string, RemoteTunnel>>)
      ensures r.Some? ==> r.value == tunnels
      ensures Answering() ==> r.Some?
    {
      var fails: bool := *;
      if !configured || (fails && !steady) {
        return None;
      }
      return Some(tunnels);
    }

    method ListNodes() returns (r: Option<seq<NodeSummary>>)
      ensures Answering() ==> r == Some(nodes)
    {
      r := *;
      if !configured {
        r := None;
      } else if steady {
        r := Some(nodes);
      }
    }

    method NodeInfo(node: string) returns (r: Option<NodeInfo>)
      requires journal.Valid()
      modifies journal
      ensures journal.Valid()
      ensures r.Some? ==> journal.Now() == Step(old(journal.Now()), Probed(node, r.value.realIp, r.value.state))
      ensures r.None? ==> journal.Now() == old(journal.Now())
      ensures journal.trace == old(journal.trace) + if r.Some? then [Probed(node, r.value.realIp, r.value.state)] else []
      ensures Answering() ==> r == if node in directory then Some(directory[node]) else None
    {
      var answer: Option<NodeInfo> := *;
      if !configured {
        return None;
      }
      r := if !steady then answer else if node in directory then Some(directory[node]) else None;
      if r.Some? {
        journal.Record(Probed(node, r.value.realIp, r.value.state));
      }
    }

    /** A failed call leaves the row as it was. A reported success normally stores what was sent,
        but the provider may store anything. */
    method SyncTunnel(remote: RemoteTunnel, plan: TunnelPlan, target: string, ghost purpose: Purpose) returns (ok: bool)
      requires journal.Valid()
      modifies `tunnels, `mishaps, journal
      ensures journal.Valid()
      ensures !ok ==> tunnels == old(tunnels) && journal.Now() == old(journal.Now())
      ensures !ok ==> mishaps == Failing(old(mishaps), Call(plan.name, target, purpose))
      ensures ok ==> mishaps == old(mishaps) || mishaps == Garbling(old(mishaps), Call(plan.name, target, purpose))
      ensures ok ==> plan.name in old(tunnels) && plan.name in tunnels
      ensures ok ==> tunnels == old(tunnels)[plan.name := tunnels[plan.name]]
      ensures ok && mishaps == old(mishaps) ==>
                tunnels[plan.name] == Synced(old(tunnels)[plan.name], SyncPayload(remote, plan, target), domainField)
      ensures ok && mishaps == old(mishaps) ==> HoldsSync(tunnels[plan.name], remote, plan, target, domainField)
      ensures ok ==> journal.Now() == Step(old(journal.Now()), TunnelChanged(plan.name))
      ensures Answering() && plan.name in old(tunnels) ==> ok && mishaps == old(mishaps)
    {
      var fails: bool := *;
      if !configured || plan.name !in tunnels || (fails && !steady) {
        mishaps := Failing(mishaps, Call(plan.name, target, purpose));
        return false;
      }
      var row := Synced(tunnels[plan.name], SyncPayload(remote, plan, target), domainField);
      SyncedHolds(tunnels[plan.name], remote, plan, target, domainField);
      var garbled: bool := *;
      if garbled && !steady {
        row := *;
        mishaps := Garbling(mishaps, Call(plan.name, target, purpose));
      }
      tunnels := tunnels[plan.name := row];
      journal.Record(TunnelChanged(plan.name));
      return true;
    }

    method CreateTunnel(plan: TunnelPlan, target: string) returns (r: Option<RemoteTunnel>)
      requires journal.Valid()
      modifies `tunnels, `mishaps, journal
      ensures journal.Valid()
      ensures r.None? ==> tunnels == old(tunnels) && journal.Now() == old(journal.Now())
      ensures r.None? ==> mishaps == Failing(old(mishaps), Call(plan.name, target, Align))
      ensures r.Some? ==> mishaps == old(mishaps) || mishaps == Garbling(old(mishaps), Call(plan.name, target, Align))
      ensures r.Some? ==> plan.name !in old(tunnels) && tunnels == old(tunnels)[plan.name := r.value]
      ensures r.Some? && mishaps == old(mishaps) ==>
                r.value == Stored(r.value.tunnelId, r.value.tunnelState, CreatePayload(plan, target), domainField)
      ensures r.Some? && mishaps == old(mishaps) ==> HoldsCreate(r.value, plan, target, domainField)
      ensures r.Some? ==> journal.Now() == Step(old(journal.Now()), TunnelChanged(plan.name))
      ensures Answering() && plan.name !in old(tunnels) ==> r.Some? && mishaps == old(mishaps)
    {
      var fails: bool := *;
      if !configured || plan.name in tunnels || (fails && !steady) {
        mishaps := Failing(mishaps, Call(plan.name, target, Align));
        return None;
      }
      var id: int, state: string := *, *;
      var row := Stored(id, state, CreatePayload(plan, target), domainField);
      CreatedHolds(id, state, plan, target, domainField);
      var garbled: bool := *;
      if garbled && !steady {
        row := *;
        mishaps := Garbling(mishaps, Call(plan.name, target, Align));
      }
      tunnels := tunnels[plan.name := row];
      journal.Record(TunnelChanged(plan.name));
      return Some(row);
    }

    method GeneratedConfig(node: string, names: seq<string>) returns (r: Option<string>)
      requires journal.Valid()
      modifies journal
      ensures journal.Valid()
      ensures r.Some? ==> r.value == render(tunnels, node, names)
      ensures journal.Now() == if r.Some? then Step(old(journal.Now()), ConfigGenerated(node, r.value)) else old(journal.Now())
      ensures Answering() ==> r.Some?
    {
      var fails: bool := *;
      if !configured || (fails && !steady) {
        return None;
      }
      r := Some(render(tunnels, node, names));
      journal.Record(ConfigGenerated(node, r.value));
    }
  }
}

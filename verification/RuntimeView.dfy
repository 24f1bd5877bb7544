/** What the accepted log lines of one FRPC generation amount to, and how proxy names are matched
    against plan names. */
module RuntimeViews {
  import opened Basics
  import opened Domain
  import opened FrpcLogs

  datatype TunnelStatus = Normal | Starting | LocalServiceDown | ServerConflict | NodeDown | ConfigBroken

  datatype TunnelState = TunnelState(status: TunnelStatus, lastEvent: FrpcEvent)

  datatype RuntimeView = RuntimeView(
    started: set<string>,
    states: map<string, TunnelState>,
    nodeFault: Option<FrpcEvent>,
    startupFault: Option<FrpcEvent>)

  const BLANK := RuntimeView({}, map[], None, None)

  function StatusOf(t: FrpcEventType): Option<TunnelStatus> {
    match t
    case ProxyStarted => Some(Normal)
    case ProxyAdded => Some(Starting)
    case LocalServiceFailure => Some(LocalServiceDown)
    case ServerProxyConflict => Some(ServerConflict)
    case ServerConnectionFailure => Some(NodeDown)
    case ConfigMismatch => Some(ConfigBroken)
    case LocalDuplicateProxy => Some(ConfigBroken)
    case _ => None
  }

  // The status that a line gives to the tunnel it names, by its first phrase group.
  function Statuses(localDup: bool): seq<Option<TunnelStatus>> {
    [None, Some(Starting), Some(Normal), None, Some(ConfigBroken),
     Some(if localDup then ConfigBroken else ServerConflict),
     Some(NodeDown), None, Some(LocalServiceDown), None, None]
  }

  lemma StatusOfKind(localDup: bool, i: nat)
    requires i <= 10
    ensures StatusOf(Kinds(localDup)[i]) == Statuses(localDup)[i]
  {
    var kinds := Kinds(localDup);
    if i == 0 { assert kinds[i] == LoginSuccess; }
    else if i == 1 { assert kinds[i] == ProxyAdded; }
    else if i == 2 { assert kinds[i] == ProxyStarted; }
    else if i == 3 { assert kinds[i] == AuthFailure; }
    else if i == 4 { assert kinds[i] == ConfigMismatch; }
    else if i == 5 { assert kinds[i] == if localDup then LocalDuplicateProxy else ServerProxyConflict; }
    else if i == 6 { assert kinds[i] == ServerConnectionFailure; }
    else if i == 7 { assert kinds[i] == NetworkAmbiguous; }
    else if i == 8 { assert kinds[i] == LocalServiceFailure; }
    else if i == 9 { assert kinds[i] == UnknownError; }
  }

  lemma FirstGroupShows(line: LogLine, localDup: bool, generation: nat, i: nat)
    requires i <= |Groups(line.phrases)|
    requires i < |Groups(line.phrases)| ==> Groups(line.phrases)[i]
    requires forall j :: 0 <= j < i ==> !Groups(line.phrases)[j]
    ensures StatusOf(Classify(line, localDup, generation).eventType) == Statuses(localDup)[i]
  {
    FirstGroupDecides(line, localDup, generation, i);
    StatusOfKind(localDup, i);
  }

  predicate IsNodeFault(e: FrpcEvent) {
    e.triggersFailover && e.faultDomain.NodeFault?
  }

  predicate IsStartupFault(e: FrpcEvent) {
    !IsNodeFault(e) && (e.faultDomain.AuthFault? || e.faultDomain.ConfigFault?)
  }

  predicate Starts(e: FrpcEvent, name: string) {
    e.eventType.ProxyStarted? && e.proxyName == Some(name)
  }

  predicate Reports(e: FrpcEvent, name: string) {
    e.proxyName == Some(name) && StatusOf(e.eventType).Some?
  }

  // The view after one more accepted event.
  function Absorb(v: RuntimeView, e: FrpcEvent): RuntimeView {
    var started := if e.eventType.ProxyStarted? && e.proxyName.Some? then v.started + {e.proxyName.value} else v.started;
    var marked := if IsNodeFault(e) then map n | n in v.states :: TunnelState(NodeDown, e) else v.states;
    var states := if e.proxyName.Some? && StatusOf(e.eventType).Some?
                  then marked[e.proxyName.value := TunnelState(StatusOf(e.eventType).value, e)] else marked;
    RuntimeView(started, states,
                if IsNodeFault(e) then Some(e) else v.nodeFault,
                if IsStartupFault(e) then Some(e) else v.startupFault)
  }

  /** What a line of the current generation does to the faults and the started proxies: login and proxy
      lines leave the faults alone; otherwise an authentication line is the new startup fault, and so
      is a configuration line or a conflict under a config with duplicates; a conflict without
      duplicates, or a broken session, is the new node fault; only a start line starts a proxy. */
  lemma LineAbsorbed(v: RuntimeView, line: LogLine, localDup: bool, generation: nat)
    ensures var e, p := Classify(line, localDup, generation), line.phrases;
            var after, quiet := Absorb(v, e), p.login || p.added || p.started;
            && after.startupFault ==
               (if !quiet && (p.auth || p.config || (p.conflict && localDup)) then Some(e) else v.startupFault)
            && after.nodeFault ==
               (if !quiet && !p.auth && !p.config && (if p.conflict then !localDup else p.session) then Some(e) else v.nodeFault)
            && after.started ==
               (if p.started && !p.login && !p.added && line.proxyName.Some? then v.started + {line.proxyName.value} else v.started)
  {
  }

  /** `views` are the successive views of a generation that accepted `events`. */
  ghost predicate IsReplay(views: seq<RuntimeView>, events: seq<FrpcEvent>) {
    && |views| == |events| + 1
    && views[0] == BLANK
    && forall i :: 0 <= i < |events| ==> views[i + 1] == Absorb(views[i], events[i])
  }

  lemma ReplayMore(views: seq<RuntimeView>, events: seq<FrpcEvent>, e: FrpcEvent)
    requires IsReplay(views, events)
    ensures IsReplay(views + [Absorb(views[|events|], e)], events + [e])
  {
  }

  /** A proxy counts as started exactly when a start line of this generation named it. */
  lemma {:induction false} StartedExactly(views: seq<RuntimeView>, events: seq<FrpcEvent>, k: nat, name: string)
    requires IsReplay(views, events) && k <= |events|
    ensures name in views[k].started <==> exists i :: 0 <= i < k && Starts(events[i], name)
  {
    if k > 0 {
      StartedExactly(views, events, k - 1, name);
      assert views[k] == Absorb(views[k - 1], events[k - 1]);
      if Starts(events[k - 1], name) {
        assert 0 <= k - 1 < k;
      }
    }
  }

  ghost predicate LastOf(events: seq<FrpcEvent>, k: nat, i: nat, p: FrpcEvent -> bool)
    requires k <= |events|
  {
    i < k && p(events[i]) && forall j :: i < j < k ==> !p(events[j])
  }

  /** The recorded faults are the last node fault and the last startup fault of the generation. */
  lemma {:induction false} FaultsExactly(views: seq<RuntimeView>, events: seq<FrpcEvent>, k: nat)
    requires IsReplay(views, events) && k <= |events|
    ensures match views[k].nodeFault
            case None => forall i :: 0 <= i < k ==> !IsNodeFault(events[i])
            case Some(e) => exists i: nat :: LastOf(events, k, i, IsNodeFault) && events[i] == e
    ensures match views[k].startupFault
            case None => forall i :: 0 <= i < k ==> !IsStartupFault(events[i])
            case Some(e) => exists i: nat :: LastOf(events, k, i, IsStartupFault) && events[i] == e
  {
    if k > 0 {
      FaultsExactly(views, events, k - 1);
      assert views[k] == Absorb(views[k - 1], events[k - 1]);
      if IsNodeFault(events[k - 1]) {
        assert LastOf(events, k, k - 1, IsNodeFault);
      } else if views[k].nodeFault.Some? {
        var i: nat :| LastOf(events, k - 1, i, IsNodeFault) && events[i] == views[k].nodeFault.value;
        assert LastOf(events, k, i, IsNodeFault);
      }
      if IsStartupFault(events[k - 1]) {
        assert LastOf(events, k, k - 1, IsStartupFault);
      } else if views[k].startupFault.Some? {
        var i: nat :| LastOf(events, k - 1, i, IsStartupFault) && events[i] == views[k].startupFault.value;
        assert LastOf(events, k, i, IsStartupFault);
      }
    }
  }

  // Event `i` decides the state of tunnel `name`: it reports on it, or it is a node fault after a report.
  ghost predicate Decides(events: seq<FrpcEvent>, i: nat, name: string)
    requires i < |events|
  {
    Reports(events[i], name) || (IsNodeFault(events[i]) && exists h :: 0 <= h < i && Reports(events[h], name))
  }

  /** Tunnel `name` has a row exactly when some event reported on it. */
  lemma {:induction false} RowsExactly(views: seq<RuntimeView>, events: seq<FrpcEvent>, k: nat, name: string)
    requires IsReplay(views, events) && k <= |events|
    ensures name in views[k].states <==> exists h :: 0 <= h < k && Reports(events[h], name)
  {
    if k > 0 {
      RowsExactly(views, events, k - 1, name);
      assert views[k] == Absorb(views[k - 1], events[k - 1]);
      if Reports(events[k - 1], name) {
        assert 0 <= k - 1 < k;
      }
    }
  }

  /** The row of a tunnel shows the last event that decides it. */
  lemma {:induction false} RowShowsLast(views: seq<RuntimeView>, events: seq<FrpcEvent>, k: nat, i: nat, name: string)
    requires IsReplay(views, events) && i < k <= |events|
    requires Decides(events, i, name)
    requires forall j: nat :: i < j < k ==> !Decides(events, j, name)
    ensures name in views[k].states
    ensures views[k].states[name] ==
            TunnelState(if Reports(events[i], name) then StatusOf(events[i].eventType).value else NodeDown, events[i])
    decreases k
  {
    var e := events[k - 1];
    assert views[k] == Absorb(views[k - 1], e);
    RowsExactly(views, events, k - 1, name);
    if i < k - 1 {
      RowShowsLast(views, events, k - 1, i, name);
      assert !Decides(events, k - 1, name);
    }
  }

  // ---------------------------------------------------------------- proxy names

  // ChmlFrp may prefix a proxy name with the user token and a dot.
  predicate ProxyNameMatches(actual: string, expected: string) {
    actual == expected || EndsWith(actual, "." + expected)
  }

  /** The expected name itself, or the expected name behind a prefix that ends with a dot. */
  lemma ProxyNameMatchesExactly(actual: string, expected: string)
    ensures ProxyNameMatches(actual, expected) <==> actual == expected || exists prefix :: actual == prefix + "." + expected
  {
    AffixesExactly(actual, "." + expected);
    if prefix :| actual == prefix + "." + expected {
      assert actual == prefix + ("." + expected);
    }
    if EndsWith(actual, "." + expected) {
      var front :| actual == front + ("." + expected);
      assert actual == front + "." + expected;
    }
  }

  predicate IsStarted(started: set<string>, expected: string) {
    exists actual :: actual in started && ProxyNameMatches(actual, expected)
  }

  predicate AllStarted(started: set<string>, expected: seq<string>) {
    forall i :: 0 <= i < |expected| ==> IsStarted(started, expected[i])
  }

  function Missing(started: set<string>, expected: seq<string>): (missing: seq<string>)
    ensures forall n :: n in missing <==> n in expected && !IsStarted(started, n)
    ensures missing == [] <==> AllStarted(started, expected)
  {
    if expected == [] then []
    else
      var rest := Missing(started, expected[1..]);
      assert forall i :: 1 <= i < |expected| ==> expected[i] == expected[1..][i - 1];
      if IsStarted(started, expected[0]) then rest else [expected[0]] + rest
  }

  predicate DotSuffix(suffix: string, name: string) {
    EndsWith(name, "." + suffix)
  }

  /** One started proxy can match two plan names exactly when one is a dot-suffix of the other. */
  lemma AmbiguousExactly(p: string, q: string)
    requires p != q
    ensures (exists actual :: ProxyNameMatches(actual, p) && ProxyNameMatches(actual, q))
            <==> DotSuffix(p, q) || DotSuffix(q, p)
  {
    forall actual | ProxyNameMatches(actual, p) && ProxyNameMatches(actual, q)
      ensures DotSuffix(p, q) || DotSuffix(q, p)
    {
      if |p| <= |q| {
        ShorterIsSuffix(actual, p, q);
      } else {
        ShorterIsSuffix(actual, q, p);
      }
    }
    if DotSuffix(p, q) {
      assert ProxyNameMatches(q, p) && ProxyNameMatches(q, q);
    } else if DotSuffix(q, p) {
      assert ProxyNameMatches(p, p) && ProxyNameMatches(p, q);
    }
  }

  lemma ShorterIsSuffix(actual: string, p: string, q: string)
    requires p != q && |p| <= |q|
    requires ProxyNameMatches(actual, p) && ProxyNameMatches(actual, q)
    ensures DotSuffix(p, q)
  {
    var n := |actual|;
    assert actual[n - |q|..] == q by {
      if actual != q {
        assert ("." + q)[1..] == q;
        assert actual[n - |q|..] == actual[n - |q| - 1..][1..];
      }
    }
    assert actual != p;
    assert actual[n - |p| - 1..] == "." + p;
    assert actual[n - |p|..] == p by {
      assert ("." + p)[1..] == p;
      assert actual[n - |p|..] == actual[n - |p| - 1..][1..];
    }
    assert |p| < |q|;
    assert q[|q| - |p| - 1..] == actual[n - |p| - 1..];
  }

  ghost predicate Unambiguous(names: seq<string>) {
    forall i, j :: 0 <= i < j < |names| ==>
      names[i] != names[j] && !DotSuffix(names[i], names[j]) && !DotSuffix(names[j], names[i])
  }

  /** Under unambiguous plan names, readiness of n plans means at least n started proxies. */
  lemma {:induction false} ReadyMeansManyProxies(started: set<string>, names: seq<string>)
    requires Unambiguous(names) && AllStarted(started, names)
    ensures |started| >= |names|
  {
    if names != [] {
      assert IsStarted(started, names[0]);
      var actual :| actual in started && ProxyNameMatches(actual, names[0]);
      var rest := names[1..];
      forall i | 0 <= i < |rest|
        ensures IsStarted(started - {actual}, rest[i])
      {
        assert rest[i] == names[i + 1];
        AmbiguousExactly(names[0], rest[i]);
        var other :| other in started && ProxyNameMatches(other, rest[i]);
      }
      ReadyMeansManyProxies(started - {actual}, rest);
    }
  }
}

/** One control plane at one moment, as a value. Contracts of the jobs relate the picture before to
    the picture after. */
module Pictures {
  import opened Basics
  import opened Domain
  import opened Journals
  import opened Databases
  import opened FrpcLogs
  import opened ChmlFrp
  import opened Cloudflare
  import opened RuntimeViews
  import opened FrpcRuntime
  import opened AppStates

  // What a job cannot change: what the providers would answer, and how the host behaves.
  datatype World = World(
    configured: bool,
    steady: bool,
    directory: map<string, NodeInfo>,
    nodes: seq<NodeSummary>,
    domainField: bool,
    render: (map<string, RemoteTunnel>, string, seq<string>) -> string,
    dnsConfigured: bool,
    reachable: bool,
    calm: bool)

  datatype Picture = Picture(
    world: World,
    plans: seq<TunnelPlan>,
    routing: RoutingState,
    quarantine: map<string, int>,
    clock: int,
    revisions: map<int, ConfigRevision>,
    tunnels: map<string, RemoteTunnel>,
    mishaps: Mishaps,
    zone: Zone,
    runtime: Runtime,
    watch: Watch)
  {
    function Wanted(): seq<TunnelPlan> {
      Enabled(plans)
    }
  }

  ghost function WorldOf(s: AppState): World
    reads s.chml`steady, s.chml`directory, s.chml`nodes, s.cf`reachable, s.frpc`calm
  {
    World(s.chml.configured, s.chml.steady, s.chml.directory, s.chml.nodes, s.chml.domainField, s.chml.render,
          s.cf.configured, s.cf.reachable, s.frpc.calm)
  }

  ghost function Pic(s: AppState): Picture
    requires s.journal.Valid()
    reads s.db`plans, s.db`routing, s.db`quarantine, s.db`clock, s.db`revisions
    reads s.chml`steady, s.chml`directory, s.chml`nodes, s.chml`tunnels, s.chml`mishaps, s.cf`reachable, s.cf`zone
    reads s.frpc, s.journal
  {
    Picture(WorldOf(s), s.db.plans, s.db.routing, s.db.quarantine, s.db.clock, s.db.revisions, s.chml.tunnels,
            s.chml.mishaps, s.cf.zone, s.frpc.State(), s.journal.Now())
  }

  // ---------------------------------------------------------------- the runtime

  predicate Serving(rt: Runtime, plans: seq<TunnelPlan>) {
    IsServing(rt, Names(plans))
  }

  // The config that the provider generates for these tunnels.
  ghost function Generated(w: World, tunnels: map<string, RemoteTunnel>, plans: seq<TunnelPlan>, node: string): string {
    w.render(tunnels, node, Names(plans))
  }

  // It names no proxy twice.
  ghost predicate Loadable(w: World, tunnels: map<string, RemoteTunnel>, plans: seq<TunnelPlan>, node: string) {
    !HasDuplicateNames(Lines(Generated(w, tunnels, plans, node)))
  }

  // Whatever the tunnels, so does no config that the provider generates.
  ghost predicate CleanConfigs(w: World, plans: seq<TunnelPlan>, node: string) {
    forall tunnels :: Loadable(w, tunnels, plans, node)
  }

  // The config file holds what the provider generates now, without a duplicate.
  ghost predicate Configured(p: Picture, plans: seq<TunnelPlan>, node: string) {
    && p.runtime.configFile == Some(Generated(p.world, p.tunnels, plans, node))
    && Loadable(p.world, p.tunnels, plans, node)
  }

  /** All enabled tunnels stand on `node`: they match there, its config is in place, the current call
      has verified them and then seen the runtime ready. On a calm host the runtime still serves. */
  ghost predicate Standing(p: Picture, plans: seq<TunnelPlan>, node: string) {
    && AllOn(p.tunnels, plans, node)
    && Configured(p, plans, node)
    && StandsOn(p.watch, node) && p.watch.stage.verified.value.plans == plans
    && (p.world.calm ==> Serving(p.runtime, plans))
  }

  // The provider's row serves the plan on the node.
  ghost predicate ServesPlan(row: RemoteTunnel, plan: TunnelPlan, node: string) {
    && row.node == node && row.localIp == plan.localIp && row.localPort == plan.localPort
    && EqIgnoreCase(row.portType, plan.protocol)
    && (EqIgnoreCase(plan.protocol, "http") || EqIgnoreCase(plan.protocol, "https") ==>
          EqIgnoreCase(if row.bandDomain.Some? then row.bandDomain.value else row.remoteEndpoint, plan.domain))
  }

  // A proxy of this name is among the started ones, perhaps behind a prefix that ends with a dot.
  ghost predicate StartedFor(started: set<string>, name: string) {
    name in started || exists prefix :: prefix + "." + name in started
  }

  /** What it means, plan by plan: the provider has a matching row for every enabled plan, the config file
      holds what it generates for their names, and on a calm host each of them has a started proxy in
      a connected runtime without a fault of its generation. */
  lemma StandingPlanByPlan(p: Picture, node: string)
    requires Standing(p, p.Wanted(), node)
    ensures forall q :: q in p.plans && q.enabled ==>
              && q.name in p.tunnels && ServesPlan(p.tunnels[q.name], q, node)
              && (p.world.calm ==> StartedFor(p.runtime.started, q.name))
    ensures exists names: seq<string> ::
              && |names| == |p.Wanted()| && (forall i :: 0 <= i < |names| ==> names[i] == p.Wanted()[i].name)
              && p.runtime.configFile == Some(p.world.render(p.tunnels, node, names))
    ensures p.world.calm ==> p.runtime.running && p.runtime.connected
  {
    var plans := p.Wanted();
    forall q | q in p.plans && q.enabled
      ensures q.name in p.tunnels && ServesPlan(p.tunnels[q.name], q, node)
      ensures p.world.calm ==> StartedFor(p.runtime.started, q.name)
    {
      assert q in plans;
      var i :| 0 <= i < |plans| && plans[i] == q;
      MatchesExactly(p.tunnels[q.name], q, node);
      if p.world.calm {
        assert IsStarted(p.runtime.started, Names(plans)[i]);
        StartedExactlyFor(p.runtime.started, q.name);
      }
    }
    assert |Names(plans)| == |plans|;
  }

  lemma StartedExactlyFor(started: set<string>, name: string)
    ensures IsStarted(started, name) <==> StartedFor(started, name)
  {
    if IsStarted(started, name) {
      var actual :| actual in started && ProxyNameMatches(actual, name);
      ProxyNameMatchesExactly(actual, name);
    }
    if prefix :| prefix + "." + name in started {
      ProxyNameMatchesExactly(prefix + "." + name, name);
    } else if name in started {
      ProxyNameMatchesExactly(name, name);
    }
  }

  // The runtime already serves everything on `node`.
  ghost predicate AlreadyServing(p: Picture, plans: seq<TunnelPlan>, node: string) {
    AllOn(p.tunnels, plans, node) && Configured(p, plans, node) && Serving(p.runtime, plans)
  }

  /** The runtime runs what the provider would generate from these tunnels, and is connected. */
  ghost predicate UpWith(p: Picture, tunnels: map<string, RemoteTunnel>, plans: seq<TunnelPlan>, node: string) {
    p.runtime.running && p.runtime.connected && p.runtime.configFile == Some(Generated(p.world, tunnels, plans, node))
  }

  // ---------------------------------------------------------------- the providers

  predicate Answering(w: World) {
    w.configured && w.steady
  }

  // The provider answers, and reports the node online with a usable address.
  ghost predicate NodeServes(w: World, plans: seq<TunnelPlan>, node: string) {
    && Answering(w) && node in w.directory
    && IsOnline(w.directory[node].state)
    && (AnyDns(plans) ==> !IsBlank(w.directory[node].realIp))
  }

  // No enabled plan has managed DNS.
  predicate Unmanaged(p: Picture) {
    forall i :: 0 <= i < |p.Wanted()| ==> !p.Wanted()[i].dnsManaged
  }

  /** The node is online and the provider answers; Cloudflare and the node's address are not asked for. */
  ghost predicate OnlineAt(w: World, node: string) {
    w.configured && w.steady && node in w.directory && IsOnline(w.directory[node].state)
  }

  ghost predicate DnsAnswers(w: World, zone: Zone, plans: seq<TunnelPlan>) {
    AnyDns(plans) ==> w.dnsConfigured && w.reachable && NoConflict(zone, plans)
  }

  // Providers and runtime answer without faults for the whole call.
  ghost predicate Undisturbed(p: Picture, plans: seq<TunnelPlan>, node: string) {
    NodeServes(p.world, plans, node) && p.world.calm && DnsAnswers(p.world, p.zone, plans)
  }

  // The current call's latest lookup found the node online at this address.
  predicate LookedUp(w: Watch, node: string, ip: string) {
    && w.stage.probe.Some? && w.stage.probe.value.node == node && w.stage.probe.value.ip == ip
    && IsOnline(w.stage.probe.value.state)
  }

  // The provider has generated this config for the node in the current call.
  predicate HasRendered(w: Watch, node: string, config: string) {
    w.stage.rendered == Some(Rendering(node, config))
  }

  // ---------------------------------------------------------------- what goes on

  /** The world, the plans and the quarantine table stay; generations and outside calls only grow. */
  ghost predicate SameDesk(a: Picture, b: Picture) {
    && b.world == a.world && b.plans == a.plans && b.quarantine == a.quarantine && b.clock == a.clock
    && b.runtime.generation >= a.runtime.generation && b.runtime.external >= a.runtime.external && b.runtime.now >= a.runtime.now
  }

  // Mishaps are only added, and a provider that answers adds none.
  ghost predicate MishapsGrow(a: Picture, b: Picture) {
    MishapsWhile(Answering(a.world), a.mishaps, b.mishaps)
  }

  // The process and its recorded config are untouched.
  ghost predicate RuntimeKept(a: Picture, b: Picture) {
    && b.runtime.generation == a.runtime.generation && b.runtime.child == a.runtime.child
    && b.runtime.configFile == a.runtime.configFile && b.runtime.configRevision == a.runtime.configRevision
    && b.revisions == a.revisions
  }

  // And it is as connected, and as faulty, as before.
  ghost predicate StaysUp(a: Picture, b: Picture) {
    RuntimeKept(a, b) && b.runtime.running && b.runtime.connected && Faultless(b.runtime) == Faultless(a.runtime)
  }

  /** What log lines, status polls and API calls may do to a picture. */
  ghost predicate Passed(a: Picture, b: Picture) {
    b == a.(runtime := b.runtime) && Elapsed(a.world.calm, a.runtime, b.runtime)
  }

  lemma ServingPasses(a: Picture, b: Picture, plans: seq<TunnelPlan>)
    requires Passed(a, b) && a.world.calm
    ensures Serving(a.runtime, plans) ==> Serving(b.runtime, plans)
    ensures Faultless(b.runtime) == Faultless(a.runtime)
  {
    ServesOn(a.runtime, b.runtime, Names(plans));
  }

  lemma StandingPasses(a: Picture, b: Picture, plans: seq<TunnelPlan>, node: string)
    requires Passed(a, b) && Standing(a, plans, node)
    ensures Standing(b, plans, node)
  {
    if a.world.calm {
      ServingPasses(a, b, plans);
    }
  }

  /** Time passes for the runtime while the coordinator waits for somebody else. */
  method LetTimePass(s: AppState)
    requires s.Sound()
    modifies s.frpc`generation, s.frpc`child, s.frpc`running, s.frpc`connected, s.frpc`lastError, s.frpc`startedProxies
    modifies s.frpc`tunnelStates, s.frpc`lastNodeFault, s.frpc`lastStartupFault, s.frpc`startGeneration
    modifies s.frpc`accepted, s.frpc`views, s.frpc`external, s.frpc`now
    ensures s.Sound() && (old(s.frpc.RunsFile()) ==> s.frpc.RunsFile())
    ensures Passed(old(Pic(s)), Pic(s))
  {
    s.frpc.Interfere();
  }
}

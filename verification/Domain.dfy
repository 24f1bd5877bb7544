/** The records exchanged between the stores: tunnel plans, the routing row, node summaries and
    classified FRPC events. */
module Domain {
  import opened Basics

  // One row of `tunnel_plans`; the Cloudflare record id lives in `Database.recordIds`.
  datatype TunnelPlan = TunnelPlan(
    id: int,
    name: string,
    localIp: string,
    localPort: int,
    protocol: string,
    domain: string,
    dnsManaged: bool,
    enabled: bool)

  datatype RoutingPhase = Idle | Failover | DnsSwitching | DegradedDns | Failed

  // The singleton row of `routing_state`.
  datatype RoutingState = RoutingState(
    activeNode: Option<string>,
    standbyNode: Option<string>,
    quarantineDays: int,
    failoverEnabled: bool,
    phase: RoutingPhase,
    revision: int)

  datatype NodeInfo = NodeInfo(state: string, realIp: string)

  datatype NodeSummary = NodeSummary(
    name: string,
    webSupported: bool,
    state: string,
    realIp: Option<string>,
    quarantined: bool)

  datatype FaultDomain = LocalFault | ConfigFault | AuthFault | NetworkFault | NodeFault | UnknownFault

  datatype FrpcEventType =
    | LoginSuccess
    | ProxyAdded
    | ProxyStarted
    | LocalServiceFailure
    | ConfigMismatch
    | LocalDuplicateProxy
    | ServerProxyConflict
    | ServerConnectionFailure
    | AuthFailure
    | NetworkAmbiguous
    | Info
    | UnknownError

  datatype FrpcEvent = FrpcEvent(
    generation: nat,
    raw: string,
    proxyName: Option<string>,
    eventType: FrpcEventType,
    faultDomain: FaultDomain,
    triggersFailover: bool)

  predicate IsOnline(state: string) {
    EqIgnoreCase(state, "online")
  }

  predicate IsWeb(protocol: string) {
    Lower(protocol) == "http" || Lower(protocol) == "https"
  }

  lemma OnlineExactly(state: string)
    ensures IsOnline(state) <==> |state| == 6 && forall i :: 0 <= i < 6 ==> SameLetter(state[i], "online"[i])
  {
    EqualUpToCase(state, "online");
  }

  lemma WebExactly(protocol: string)
    ensures IsWeb(protocol) <==> EqIgnoreCase(protocol, "http") || EqIgnoreCase(protocol, "https")
  {
    assert Lower("http") == "http" && Lower("https") == "https";
  }

  function Names(plans: seq<TunnelPlan>): (names: seq<string>)
  {
    seq(|plans|, i requires 0 <= i < |plans| => plans[i].name)
  }

  function Enabled(plans: seq<TunnelPlan>): (kept: seq<TunnelPlan>)
    ensures forall p :: p in kept <==> p in plans && p.enabled
  {
    if plans == [] then []
    else if plans[0].enabled then [plans[0]] + Enabled(plans[1..])
    else Enabled(plans[1..])
  }

  ghost predicate DistinctNames(plans: seq<TunnelPlan>) {
    forall i, j :: 0 <= i < j < |plans| ==> plans[i].name != plans[j].name
  }

  // Managed domains are stored in lower case and the managed-domain index makes them unique.
  ghost predicate CleanDomains(plans: seq<TunnelPlan>) {
    && (forall i :: 0 <= i < |plans| && plans[i].dnsManaged ==> plans[i].domain != "" && IsLower(plans[i].domain))
    && (forall i, j :: 0 <= i < j < |plans| && plans[i].dnsManaged && plans[j].dnsManaged
          ==> plans[i].domain != plans[j].domain)
  }

  // What every caller of `list_tunnels` may rely on.
  ghost predicate WellFormedPlans(plans: seq<TunnelPlan>) {
    DistinctNames(plans) && CleanDomains(plans)
  }

  lemma {:induction false} EnabledKeepsWellFormed(plans: seq<TunnelPlan>)
    requires WellFormedPlans(plans)
    ensures WellFormedPlans(Enabled(plans))
  {
    if plans != [] {
      var rest := plans[1..];
      EnabledKeepsWellFormed(rest);
      forall p | p in Enabled(rest)
        ensures p.name != plans[0].name
        ensures plans[0].dnsManaged && p.dnsManaged ==> p.domain != plans[0].domain
      {
        var k :| 0 <= k < |rest| && rest[k] == p;
        assert plans[k + 1] == p;
      }
    }
  }

  predicate AnyDns(plans: seq<TunnelPlan>) {
    exists i :: 0 <= i < |plans| && plans[i].dnsManaged
  }

  predicate AnyWeb(plans: seq<TunnelPlan>) {
    exists i :: 0 <= i < |plans| && plans[i].enabled && IsWeb(plans[i].protocol)
  }

  ghost predicate Manages(plans: seq<TunnelPlan>, domain: string) {
    exists i :: 0 <= i < |plans| && plans[i].dnsManaged && plans[i].domain == domain
  }
}

/** The SQLite tables: tunnel plans, the routing row, node quarantine and config revisions. */
module Databases {
  import opened Basics
  import opened Domain
  import opened Journals

  datatype ConfigRevision = ConfigRevision(node: string, text: string)

  datatype TunnelPlanInput = TunnelPlanInput(
    name: string, localIp: string, localPort: int, protocol: string, domain: string, dnsManaged: bool)

  const DAY := 86_400_000_000_000   // nanoseconds

  // `mark_routing_failed`: a committed job keeps its runtime truth, an idle one stays idle.
  function FailedPhase(phase: RoutingPhase): RoutingPhase {
    match phase
    case Idle => Idle
    case DnsSwitching => DegradedDns
    case _ => Failed
  }

  // The CHECK constraints of `tunnel_plans`.
  predicate RowAllowed(p: TunnelPlan) {
    && 1 <= p.localPort <= 65535
    && p.protocol in {"http", "https", "tcp", "udp"}
    && (p.domain != "" || (p.protocol in {"tcp", "udp"} && !p.dnsManaged))
  }

  // The UNIQUE constraints, for a row with this id.
  predicate KeysFree(plans: seq<TunnelPlan>, p: TunnelPlan) {
    forall i :: 0 <= i < |plans| && plans[i].id != p.id ==>
      plans[i].name != p.name && !(plans[i].dnsManaged && p.dnsManaged && p.domain != "" && plans[i].domain == p.domain)
  }

  // The table: constrained rows with lower-case domains.
  ghost predicate ValidRows(plans: seq<TunnelPlan>) {
    && WellFormedPlans(plans)
    && (forall i, j :: 0 <= i < j < |plans| ==> plans[i].id != plans[j].id)
    && (forall i :: 0 <= i < |plans| ==> RowAllowed(plans[i]) && IsLower(plans[i].domain))
  }

  lemma InsertedRow(plans: seq<TunnelPlan>, row: TunnelPlan)
    requires ValidRows(plans) && RowAllowed(row) && IsLower(row.domain) && KeysFree(plans, row)
    requires forall i :: 0 <= i < |plans| ==> plans[i].id != row.id
    ensures ValidRows(plans + [row])
  {
  }

  lemma ReplacedRow(plans: seq<TunnelPlan>, i: nat, row: TunnelPlan)
    requires ValidRows(plans) && RowAllowed(row) && IsLower(row.domain) && KeysFree(plans, row)
    requires i < |plans| && plans[i].id == row.id
    ensures ValidRows(plans[i := row])
  {
    var replaced := plans[i := row];
    forall a, b | 0 <= a < b < |plans|
      ensures replaced[a].name != replaced[b].name && replaced[a].id != replaced[b].id
      ensures replaced[a].dnsManaged && replaced[b].dnsManaged ==> replaced[a].domain != replaced[b].domain
    {
      assert plans[a].id != plans[b].id;
    }
  }

  lemma RemovedRow(plans: seq<TunnelPlan>, i: nat)
    requires ValidRows(plans) && i < |plans|
    ensures ValidRows(plans[..i] + plans[i + 1..])
  {
    var kept := plans[..i] + plans[i + 1..];
    forall k | 0 <= k < |kept|
      ensures kept[k] == plans[if k < i then k else k + 1]
    {
    }
  }

  // Both `create_tunnel` and `update_tunnel` normalise their input like this.
  function Normalised(id: int, input: TunnelPlanInput, enabled: bool): TunnelPlan {
    TunnelPlan(id, Trim(input.name), Trim(input.localIp), input.localPort, Lower(input.protocol),
               Lower(Trim(input.domain)), input.dnsManaged, enabled)
  }

  // The row that the table stores for an input.
  predicate FromInput(row: TunnelPlan, input: TunnelPlanInput, id: int, enabled: bool) {
    && row.id == id && row.enabled == enabled && row.dnsManaged == input.dnsManaged
    && row.name == Trim(input.name) && row.localIp == Trim(input.localIp) && row.localPort == input.localPort
    && row.protocol == Lower(input.protocol) && row.domain == Lower(Trim(input.domain))
  }

  /** What the table accepts: a port, one of four protocols in any spelling, and a domain, which only a
      tcp or udp tunnel without managed DNS may leave blank. */
  ghost predicate InputAllowed(input: TunnelPlanInput) {
    && 1 <= input.localPort <= 65535
    && (EqIgnoreCase(input.protocol, "http") || EqIgnoreCase(input.protocol, "https")
        || EqIgnoreCase(input.protocol, "tcp") || EqIgnoreCase(input.protocol, "udp"))
    && (IsBlank(input.domain) ==>
          !input.dnsManaged && (EqIgnoreCase(input.protocol, "tcp") || EqIgnoreCase(input.protocol, "udp")))
  }

  lemma AllowedExactly(id: int, input: TunnelPlanInput, enabled: bool)
    ensures RowAllowed(Normalised(id, input, enabled)) <==> InputAllowed(input)
    ensures FromInput(Normalised(id, input, enabled), input, id, enabled)
  {
    assert Lower("http") == "http" && Lower("https") == "https" && Lower("tcp") == "tcp" && Lower("udp") == "udp";
    assert |Lower(Trim(input.domain))| == |Trim(input.domain)|;
  }

  class Database {
    const journal: Journal
    var plans: seq<TunnelPlan>
    var recordIds: map<int, string>               // column cloudflare_record_id, by plan id
    var routing: RoutingState
    var quarantine: map<string, int>              // node_name -> quarantine_until
    var revisions: map<int, ConfigRevision>
    var clock: int                                // latest UTC instant read
    var lastPlan: int                             // AUTOINCREMENT counters
    var lastRevision: int

    ghost predicate Valid()
      reads `plans, `lastPlan, `revisions, `lastRevision
    {
      && ValidRows(plans)
      && (forall i :: 0 <= i < |plans| ==> plans[i].id <= lastPlan)
      && (forall id :: id in revisions ==> id <= lastRevision)
    }

    // In quarantine now.
    predicate Quarantined(node: string)
      reads `quarantine, `clock
    {
      node in quarantine && quarantine[node] > clock
    }

    constructor (journal: Journal)
      ensures Valid()
      ensures this.journal == journal
      ensures routing == RoutingState(None, None, 30, true, Idle, 0)
    {
      this.journal := journal;
      plans, recordIds, quarantine, revisions := [], map[], map[], map[];
      clock, lastPlan, lastRevision := 0, 0, 0;
      routing := RoutingState(None, None, 30, true, Idle, 0);
    }

    // ---------------------------------------------------------------- tunnel plans

    method CreateTunnel(input: TunnelPlanInput) returns (r: Option<TunnelPlan>)
      requires Valid()
      modifies `plans, `lastPlan
      ensures Valid()
      ensures r.Some? ==> FromInput(r.value, input, lastPlan, true) && plans == old(plans) + [r.value]
      ensures r.None? ==> plans == old(plans)
      ensures r.Some? <==> InputAllowed(input) && old(NameAndDomainFree(input))
    {
      var id := lastPlan + 1;
      var row := Normalised(id, input, true);
      AllowedExactly(id, input, true);
      if !RowAllowed(row) || !KeysFree(plans, row) {
        return None;
      }
      LowerIsLower(Trim(input.domain));
      InsertedRow(plans, row);
      plans, lastPlan := plans + [row], id;
      return Some(row);
    }

    ghost predicate NameAndDomainFree(input: TunnelPlanInput)
      reads `plans
    {
      forall i :: 0 <= i < |plans| ==>
        && plans[i].name != Trim(input.name)
        && !(plans[i].dnsManaged && input.dnsManaged && plans[i].domain == Lower(Trim(input.domain)))
    }

    // Row `i` has this id, and may become the normalised input.
    static predicate Replaceable(rows: seq<TunnelPlan>, i: nat, id: int, input: TunnelPlanInput)
      requires i < |rows|
    {
      && rows[i].id == id
      && forall j :: 0 <= j < |rows| && rows[j].id != id ==>
           && rows[j].name != Trim(input.name)
           && !(rows[j].dnsManaged && input.dnsManaged && rows[j].domain == Lower(Trim(input.domain)))
    }

    method UpdateTunnel(id: int, input: TunnelPlanInput) returns (r: Option<TunnelPlan>)
      requires Valid()
      modifies `plans
      ensures Valid()
      ensures |plans| == |old(plans)|
      ensures forall i :: 0 <= i < |plans| ==>
                if r.Some? && old(plans)[i].id == id then FromInput(plans[i], input, id, old(plans)[i].enabled) else plans[i] == old(plans)[i]
      ensures r.Some? ==> r.value in plans && r.value.id == id
      ensures r.Some? <==> InputAllowed(input) && exists i :: 0 <= i < |old(plans)| && Replaceable(old(plans), i, id, input)
    {
      var i := 0;
      while i < |plans| && plans[i].id != id
        invariant 0 <= i <= |plans|
        invariant forall j :: 0 <= j < i ==> plans[j].id != id
      {
        i := i + 1;
      }
      if i == |plans| {
        return None;
      }
      var row := Normalised(id, input, plans[i].enabled);
      AllowedExactly(id, input, plans[i].enabled);
      if !RowAllowed(row) || !KeysFree(plans, row) {
        return None;
      }
      assert Replaceable(plans, i, id, input);
      LowerIsLower(Trim(input.domain));
      ReplacedRow(plans, i, row);
      plans := plans[i := row];
      return Some(row);
    }

    method DeleteTunnel(id: int)
      requires Valid()
      modifies `plans
      ensures Valid()
      ensures forall p :: p in plans <==> p in old(plans) && p.id != id
    {
      var i := 0;
      while i < |plans| && plans[i].id != id
        invariant 0 <= i <= |plans|
        invariant forall j :: 0 <= j < i ==> plans[j].id != id
      {
        i := i + 1;
      }
      if i < |plans| {
        RemovedRow(plans, i);
        plans := plans[..i] + plans[i + 1..];
      }
    }

    method SetCloudflareRecordId(id: int, recordId: string)
      modifies `recordIds
      ensures recordIds == old(recordIds)[id := recordId]
    {
      recordIds := recordIds[id := recordId];
    }

    // ---------------------------------------------------------------- routing row

    method SetRoutingPhase(phase: RoutingPhase)
      modifies `routing
      ensures routing == old(routing).(phase := phase)
    {
      routing := routing.(phase := phase);
    }

    /** The routing form, with the checks of its handler: an active node that is set stays. */
    method UpdateRouting(active: Option<string>, standby: Option<string>, days: int, enabled: bool) returns (ok: bool)
      requires journal.Valid()
      modifies `routing, journal
      ensures journal.Valid()
      ensures journal.Now() == if ok then Step(old(journal.Now()), RoutingSet(active)) else old(journal.Now())
      ensures ok <==>
              && 1 <= days <= 3650 && (active.Some? ==> active != standby)
              && (old(routing).activeNode.Some? ==> old(routing).activeNode == active)
      ensures routing == if ok then RoutingState(active, standby, days, enabled, old(routing).phase, old(routing).revision + 1)
                         else old(routing)
    {
      ok := 1 <= days <= 3650 && !(active.Some? && active == standby)
      && !(routing.activeNode.Some? && routing.activeNode != active);
      if ok {
        routing := RoutingState(active, standby, days, enabled, routing.phase, routing.revision + 1);
        journal.Record(RoutingSet(active));
      }
    }

    method PromoteActiveNode(active: string, standby: Option<string>)
      requires journal.Valid()
      modifies `routing, journal
      ensures journal.Valid()
      ensures routing == old(routing).(activeNode := Some(active), standbyNode := standby, phase := DnsSwitching,
                                       revision := old(routing).revision + 1)
      ensures journal.Now() == Step(old(journal.Now()), Promoted(active))
    {
      routing := routing.(activeNode := Some(active), standbyNode := standby, phase := DnsSwitching,
      revision := routing.revision + 1);
      journal.Record(Promoted(active));
    }

    method FinalizeActiveNode()
      modifies `routing
      ensures routing == old(routing).(phase := Idle)
    {
      SetRoutingPhase(Idle);
    }

    method MarkRoutingFailed()
      modifies `routing
      ensures routing == old(routing).(phase := FailedPhase(old(routing).phase))
      ensures old(routing).phase == Idle ==> routing.phase == Idle
      ensures old(routing).phase == DnsSwitching ==> routing.phase == DegradedDns
      ensures old(routing).phase in {Failover, DegradedDns, Failed} ==> routing.phase == Failed
    {
      SetRoutingPhase(FailedPhase(routing.phase));
    }

    // ---------------------------------------------------------------- quarantine

    // Reading the wall clock; it does not run backwards.
    method Tick()
      modifies `clock
      ensures clock >= old(clock)
    {
      var passed: int :| passed >= 0;
      clock := clock + passed;
    }

    // Upsert: a quarantine in force is replaced by the new one.
    method QuarantineNode(node: string, days: int)
      modifies `quarantine, `clock
      ensures clock >= old(clock)
      ensures quarantine == old(quarantine)[node := clock + (if days > 1 then days else 1) * 86_400_000_000_000]
      ensures Quarantined(node)
    {
      Tick();
      var length := if days > 1 then days else 1;
      quarantine := quarantine[node := clock + length * DAY];
    }

    method ClearQuarantine(node: string)
      modifies `quarantine
      ensures quarantine == old(quarantine) - {node}
    {
      quarantine := quarantine - {node};
    }

    method QuarantineUntil(node: string) returns (until: Option<int>)
      modifies `clock
      ensures clock >= old(clock)
      ensures until == if Quarantined(node) then Some(quarantine[node]) else None
    {
      Tick();
      if node in quarantine && quarantine[node] > clock {
        return Some(quarantine[node]);
      }
      return None;
    }

    // ---------------------------------------------------------------- config revisions

    method SaveConfigRevision(node: string, text: string) returns (id: int)
      requires Valid() && journal.Valid()
      modifies `revisions, `lastRevision, journal
      ensures Valid() && journal.Valid()
      ensures id == lastRevision && id !in old(revisions) && revisions == old(revisions)[id := ConfigRevision(node, text)]
      ensures journal.Now() == Step(old(journal.Now()), RevisionSaved(id, node, text))
    {
      lastRevision := lastRevision + 1;
      id := lastRevision;
      revisions := revisions[id := ConfigRevision(node, text)];
      journal.Record(RevisionSaved(id, node, text));
    }
  }
}

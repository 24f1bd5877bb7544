/** Whole runs: any sequence of jobs, log events, API calls and provider answers. */
module Runs {
  import opened Basics
  import opened Domain
  import opened Journals
  import opened Databases
  import opened ChmlFrp
  import opened Cloudflare
  import opened ManagedDns
  import opened FrpcRuntime
  import opened AppStates
  import opened Pictures
  import opened Reconcile
  import opened Candidates
  import opened Coordination

  // ---------------------------------------------------------------- no ping-pong

  // The active node, and the nodes in quarantine.
  datatype Snapshot = Snapshot(active: string, barred: set<string>)

  ghost predicate Hop(a: Snapshot, b: Snapshot) {
    a.active != b.active && a.barred <= b.barred && a.active in b.barred && b.active !in b.barred
  }

  ghost predicate Stay(a: Snapshot, b: Snapshot) {
    a.active == b.active && a.barred <= b.barred
  }

  ghost predicate IsFailoverRun(run: seq<Snapshot>) {
    |run| > 0 && forall i :: 0 <= i < |run| - 1 ==> Hop(run[i], run[i + 1]) || Stay(run[i], run[i + 1])
  }

  // An active node that was left is barred ever after.
  lemma {:induction false} LeftIsBarred(run: seq<Snapshot>, i: nat, k: nat)
    requires IsFailoverRun(run) && i <= k < |run|
    ensures run[k].active != run[i].active ==> run[i].active in run[k].barred
    decreases k
  {
    if i < k {
      LeftIsBarred(run, i, k - 1);
      assert Hop(run[k - 1], run[k - 1 + 1]) || Stay(run[k - 1], run[k - 1 + 1]);
    }
  }

  /** No ping-pong: a node that becomes active was never active before in the run. */
  lemma NeverReturns(run: seq<Snapshot>, i: nat, k: nat)
    requires IsFailoverRun(run) && i < k < |run|
    requires run[k - 1].active != run[k].active
    ensures run[k].active != run[i].active
  {
    LeftIsBarred(run, i, k - 1);
    assert Hop(run[k - 1], run[k - 1 + 1]);
  }

  ghost function Hops(run: seq<Snapshot>, k: nat): nat
    requires k < |run|
  {
    if k == 0 then 0 else Hops(run, k - 1) + if run[k - 1].active != run[k].active then 1 else 0
  }

  ghost function EverActive(run: seq<Snapshot>, k: nat): set<string>
    requires k < |run|
  {
    set i | 0 <= i <= k :: run[i].active
  }

  lemma {:induction false} EachHopIsNew(run: seq<Snapshot>, k: nat)
    requires IsFailoverRun(run) && k < |run|
    ensures |EverActive(run, k)| == Hops(run, k) + 1
  {
    if k == 0 {
      assert EverActive(run, 0) == {run[0].active};
    } else {
      EachHopIsNew(run, k - 1);
      assert EverActive(run, k) == EverActive(run, k - 1) + {run[k].active};
      if run[k - 1].active != run[k].active {
        forall i | 0 <= i < k
          ensures run[i].active != run[k].active
        {
          NeverReturns(run, i, k);
        }
        assert run[k].active !in EverActive(run, k - 1);
      } else {
        assert run[k].active in EverActive(run, k - 1);
        assert EverActive(run, k) == EverActive(run, k - 1);
      }
    }
  }

  lemma SubsetSize<T>(a: set<T>, b: set<T>)
    requires a <= b
    ensures |a| <= |b|
  {
    assert b == a + (b - a);
  }

  /** There are fewer commits than node names. */
  lemma FewerHopsThanNodes(run: seq<Snapshot>, names: set<string>)
    requires IsFailoverRun(run)
    requires forall i :: 0 <= i < |run| ==> run[i].active in names
    ensures Hops(run, |run| - 1) < |names|
  {
    EachHopIsNew(run, |run| - 1);
    SubsetSize(EverActive(run, |run| - 1), names);
  }

  // ---------------------------------------------------------------- runs of pictures

  predicate Active(p: Picture, node: string) {
    p.routing.activeNode == Some(node)
  }

  /** A step either keeps the active node, or leaves it, quarantined, for a node that is not in
      quarantine. Quarantine only grows. */
  ghost predicate HopOrStay(a: Picture, b: Picture) {
    && a.routing.activeNode.Some? && b.routing.activeNode.Some?
    && QuarantineGrows(a, b)
    && (b.routing.activeNode != a.routing.activeNode ==>
          QuarantinedSince(a, b, a.routing.activeNode.value) && !Quarantined(b, b.routing.activeNode.value))
  }

  ghost predicate IsAutomaticRun(run: seq<Picture>) {
    |run| > 0 && run[0].routing.activeNode.Some? && forall i :: 0 <= i < |run| - 1 ==> HopOrStay(run[i], run[i + 1])
  }

  // A quarantine of the node that was in force in step `j`, or began in it, is over at its end.
  predicate Lapses(run: seq<Picture>, j: nat, node: string)
    requires j + 1 < |run|
  {
    QuarantinedSince(run[j], run[j + 1], node) && !Quarantined(run[j + 1], node)
  }

  // Active at `i`, left since, and active again from `k` on.
  predicate ComesBack(run: seq<Picture>, i: nat, k: nat, node: string)
    requires i < k < |run|
  {
    Active(run[i], node) && !Active(run[k - 1], node) && Active(run[k], node)
  }

  predicate LapsesBetween(run: seq<Picture>, i: nat, k: nat, node: string)
    requires i < k < |run|
  {
    exists j :: i <= j < k && Lapses(run, j, node)
  }

  // A node active at `i` and left since is in quarantine, unless its quarantine has lapsed.
  lemma {:induction false} LeftIsQuarantined(run: seq<Picture>, i: nat, k: nat, node: string)
    requires IsAutomaticRun(run) && i <= k < |run| && Active(run[i], node)
    requires forall j :: i <= j < k ==> !Lapses(run, j, node)
    ensures !Active(run[k], node) ==> Quarantined(run[k], node)
    decreases k
  {
    if i < k {
      LeftIsQuarantined(run, i, k - 1, node);
      assert HopOrStay(run[k - 1], run[k - 1 + 1]);
      assert !Lapses(run, k - 1, node);
    }
  }

  /** No ping-pong: a node comes back only after its own quarantine has lapsed. */
  lemma ReturnsOnlyAfterLapse(run: seq<Picture>, i: nat, k: nat, node: string)
    requires IsAutomaticRun(run) && i < k < |run|
    requires ComesBack(run, i, k, node)
    ensures LapsesBetween(run, i, k, node)
  {
    if forall j :: i <= j < k - 1 ==> !Lapses(run, j, node) {
      LeftIsQuarantined(run, i, k - 1, node);
      assert HopOrStay(run[k - 1], run[k - 1 + 1]);
      assert Lapses(run, k - 1, node);
    }
  }

  // The active node, and the nodes in quarantine at that moment.
  function Snap(p: Picture): Snapshot
    requires p.routing.activeNode.Some?
  {
    Snapshot(p.routing.activeNode.value, set n | n in p.quarantine && p.quarantine[n] > p.clock)
  }

  ghost function Stretch(run: seq<Picture>, from: nat, to: nat): (snaps: seq<Snapshot>)
    requires IsAutomaticRun(run) && from <= to < |run|
    ensures |snaps| == to - from + 1
  {
    AllActive(run);
    seq(to - from + 1, i requires 0 <= i <= to - from => Snap(run[from + i]))
  }

  lemma AllActive(run: seq<Picture>)
    requires IsAutomaticRun(run)
    ensures forall i :: 0 <= i < |run| ==> run[i].routing.activeNode.Some?
  {
    forall i | 0 < i < |run|
      ensures run[i].routing.activeNode.Some?
    {
      assert HopOrStay(run[i - 1], run[i - 1 + 1]);
    }
  }

  ghost predicate NothingLapses(run: seq<Picture>, from: nat, to: nat)
    requires to < |run|
  {
    forall j, node :: from <= j < to ==> !Lapses(run, j, node)
  }

  lemma HopOrStayOfSnaps(a: Picture, b: Picture)
    requires HopOrStay(a, b)
    requires forall n :: QuarantinedSince(a, b, n) ==> Quarantined(b, n)
    ensures Hop(Snap(a), Snap(b)) || Stay(Snap(a), Snap(b))
  {
    forall n | n in Snap(a).barred
      ensures n in Snap(b).barred
    {
      assert QuarantinedSince(a, b, n);
    }
  }

  /** Where nothing lapses, commits bar the node they leave. */
  lemma StretchIsFailoverRun(run: seq<Picture>, from: nat, to: nat)
    requires IsAutomaticRun(run) && from <= to < |run| && NothingLapses(run, from, to)
    ensures IsFailoverRun(Stretch(run, from, to))
  {
    var snaps := Stretch(run, from, to);
    forall i | 0 <= i < |snaps| - 1
      ensures Hop(snaps[i], snaps[i + 1]) || Stay(snaps[i], snaps[i + 1])
    {
      var j := from + i;
      var a, b := run[j], run[j + 1];
      assert HopOrStay(a, b);
      forall n | QuarantinedSince(a, b, n)
        ensures Quarantined(b, n)
      {
        assert !Lapses(run, j, n);
      }
      HopOrStayOfSnaps(a, b);
    }
  }

  // The commits of a stretch are one fewer than its active nodes.
  ghost predicate EveryCommitIsNew(run: seq<Picture>, from: nat, to: nat)
    requires IsAutomaticRun(run) && from <= to < |run|
  {
    Hops(Stretch(run, from, to), to - from) + 1 == |EverActive(Stretch(run, from, to), to - from)|
  }

  /** An automatic job either commits to a node that is not in quarantine, and leaves a quarantined one,
      or stays. */
  lemma JobIsHopOrStay(a: Picture, b: Picture, r: JobResult, f: Findings, end: JobEnd)
    requires a.routing.activeNode.Some? && FailedOver(a, b, true, r, f, end)
    ensures HopOrStay(a, b)
  {
    var former := a.routing.activeNode.value;
    if !end.Refused? {
      OneOutcome(Engaged(a, former, true), b, r, f.candidates, former, end);
    }
  }

  // ---------------------------------------------------------------- steps of a run

  // Log lines and runtime API calls, and changes on the providers' side.
  method WorldStep(s: AppState)
    requires s.Valid()
    modifies s.frpc, s.chml`steady, s.chml`directory, s.chml`nodes, s.chml`tunnels, s.cf`reachable, s.cf`zone, s.db`clock
    ensures s.Valid() && s.db.clock >= old(s.db.clock)
    ensures s.frpc.generation >= old(s.frpc.generation)
  {
    var choice: int := *;
    if choice == 0 {
      s.frpc.Interfere();
    } else if choice == 1 {
      s.frpc.calm, s.chml.steady, s.cf.reachable := *, *, *;
    } else if choice == 2 {
      s.chml.directory, s.chml.nodes, s.chml.tunnels := *, *, *;
    } else if choice == 3 {
      s.cf.zone := *;
    } else {
      s.db.Tick();
    }
  }

  // Tunnel plans and the routing form.
  method AdminStep(s: AppState)
    requires s.Valid()
    modifies s.db`plans, s.db`lastPlan, s.db`routing, s.journal
    ensures s.Valid()
    ensures old(s.db.routing).activeNode.Some? ==> s.db.routing.activeNode == old(s.db.routing).activeNode
  {
    var choice: int, id: int, input: TunnelPlanInput := *, *, *;
    if choice == 0 {
      var _ := s.db.CreateTunnel(input);
    } else if choice == 1 {
      var _ := s.db.UpdateTunnel(id, input);
    } else if choice == 2 {
      s.db.DeleteTunnel(id);
    } else {
      var active: Option<string>, standby: Option<string>, enabled: bool := *, *, *;
      var _ := s.db.UpdateRouting(active, standby, id, enabled);
    }
  }

  method AutomaticJob(c: Coordinator, event: FrpcEvent)
    requires c.state.Valid() && c.failoverJob == None && c.state.db.routing.activeNode.Some?
    requires event.generation <= c.state.frpc.generation
    modifies c`failoverJob, c.state.db, c.state.chml, c.state.cf, c.state.frpc, c.state.journal
    ensures c.state.Valid() && c.failoverJob == None
    ensures HopOrStay(old(Pic(c.state)), Pic(c.state))
  {
    ghost var a := Pic(c.state);
    ghost var r, f, end := c.QueuedGlobalFailover(event);
    JobIsHopOrStay(a, Pic(c.state), r, f, end);
  }

  // One step of a run without manual failovers and quarantine clearing.
  method AutomaticStep(c: Coordinator)
    requires c.state.Valid() && c.failoverJob == None && c.state.db.routing.activeNode.Some?
    modifies c`failoverJob, c.state.db, c.state.chml, c.state.cf, c.state.frpc, c.state.journal
    ensures c.state.Valid() && c.failoverJob == None && c.state.db.routing.activeNode.Some?
    ensures HopOrStay(old(Pic(c.state)), Pic(c.state))
  {
    var choice: int, event: FrpcEvent := *, *;
    if choice == 0 && event.generation <= c.state.frpc.generation {
      AutomaticJob(c, event);
    } else if choice == 1 {
      var _ := c.Reconcile();
    } else if choice == 2 {
      AdminStep(c.state);
    } else {
      WorldStep(c.state);
    }
  }

  /** Automatic failovers with anything but manual failovers and quarantine clearing in between, for any
      number of steps. A node becomes active again only after its own quarantine has lapsed, and in every
      stretch in which no quarantine lapses the commits are one fewer than the active nodes. */
  method AutomaticRun(c: Coordinator, steps: nat) returns (ghost run: seq<Picture>)
    requires c.state.Valid() && c.failoverJob == None && c.state.db.routing.activeNode.Some?
    modifies c`failoverJob, c.state.db, c.state.chml, c.state.cf, c.state.frpc, c.state.journal
    ensures c.state.Valid() && c.failoverJob == None
    ensures IsAutomaticRun(run) && |run| == steps + 1
    ensures run[0] == old(Pic(c.state)) && run[steps] == Pic(c.state)
    ensures forall i, k, node :: 0 <= i < k <= steps && ComesBack(run, i, k, node) ==> LapsesBetween(run, i, k, node)
    ensures forall from, to :: 0 <= from <= to <= steps && NothingLapses(run, from, to) ==> EveryCommitIsNew(run, from, to)
  {
    run := [Pic(c.state)];
    for step := 0 to steps
      invariant c.state.Valid() && c.failoverJob == None && c.state.db.routing.activeNode.Some?
      invariant IsAutomaticRun(run) && |run| == step + 1
      invariant run[0] == old(Pic(c.state)) && run[step] == Pic(c.state)
    {
      AutomaticStep(c);
      run := run + [Pic(c.state)];
    }
    OnlyLapsesBringBack(run);
  }

  lemma OnlyLapsesBringBack(run: seq<Picture>)
    requires IsAutomaticRun(run)
    ensures forall i, k, node :: 0 <= i < k < |run| && ComesBack(run, i, k, node) ==> LapsesBetween(run, i, k, node)
    ensures forall from, to :: 0 <= from <= to < |run| && NothingLapses(run, from, to) ==> EveryCommitIsNew(run, from, to)
  {
    forall i, k, node | 0 <= i < k < |run| && ComesBack(run, i, k, node)
      ensures LapsesBetween(run, i, k, node)
    {
      ReturnsOnlyAfterLapse(run, i, k, node);
    }
    forall from, to | 0 <= from <= to < |run| && NothingLapses(run, from, to)
      ensures EveryCommitIsNew(run, from, to)
    {
      StretchIsFailoverRun(run, from, to);
      EachHopIsNew(Stretch(run, from, to), to - from);
    }
  }

  // ---------------------------------------------------------------- every reachable trace

  /** A-record write `k` comes last: its own call, started at `c`, has verified its plans on one node
      and then seen them ready; it carries the address that the call's latest lookup returned for that
      node, which is the active node of the routing row. */
  ghost predicate ComesLast(trace: seq<Effect>, k: nat)
    requires k < |trace| && trace[k].DnsWritten?
  {
    exists c: nat, p: nat, v: nat, r: nat, a: nat ::
      && v < k && trace[v].PlansVerified? && VerifiedInCall(trace, c, v, r, k, trace[v].plans)
      && Manages(trace[v].plans, trace[k].domain)
      && c < p && LatestLookup(trace, p, k)
      && trace[p].node == NodeOf(trace[c]) && trace[p].ip == trace[k].address && !IsBlank(trace[k].address)
      && Routed(trace, a, k, Some(trace[p].node))
  }

  // Promotion `k` is to the node of its call, on which that call has verified everything.
  ghost predicate IsVerified(trace: seq<Effect>, k: nat)
    requires k < |trace| && trace[k].Promoted?
  {
    exists c: nat, v: nat, r: nat ::
      && v < k && trace[v].PlansVerified? && VerifiedInCall(trace, c, v, r, k, trace[v].plans)
      && NodeOf(trace[c]) == trace[k].target
  }

  // Runtime start `k` of the automatic job `j` runs a text that the provider has generated, and the job
  // saved, for a node that is neither condemned in the job nor, at that moment, the active one.
  ghost predicate StartsHealthy(trace: seq<Effect>, j: nat, k: nat)
    requires j < k < |trace|
  {
    exists g: nat, s: nat, c: nat ::
      && j < g < s < c < k && trace[c].ConfigWritten? && (forall i :: c < i < k ==> !trace[i].ConfigWritten?)
      && trace[s].RevisionSaved? && trace[c].revision == Some(trace[s].savedRevision)
      && trace[s].savedText == trace[c].written && GeneratedBefore(trace, g, s, trace[s].forNode, trace[c].written)
      && (forall i :: j < i < k ==> !Condemns(trace[i], trace[s].forNode))
      && forall a :: !Routed(trace, a, k, Some(trace[s].forNode))
  }

  // Candidate quarantine `k` rests on evidence that its own call, started at `c`, has found.
  ghost predicate HasEvidence(trace: seq<Effect>, k: nat)
    requires k < |trace| && trace[k].CandidateQuarantined?
  {
    exists c: nat, e: nat ::
      && InCall(trace, c, k) && NodeOf(trace[c]) == trace[k].candidate && c < e
      && (Faulted(trace, e, k)
          || (LatestLookup(trace, e, k) && trace[e].node == trace[k].candidate && !IsOnline(trace[e].state)))
  }

  // The writes of one call carry one address.
  ghost predicate SameAddress(trace: seq<Effect>, j: nat, k: nat)
    requires j < k < |trace| && trace[j].DnsWritten? && trace[k].DnsWritten?
  {
    (forall i :: j < i < k ==> !Boundary(trace[i])) ==> trace[j].address == trace[k].address
  }

  ghost predicate Orderly(trace: seq<Effect>) {
    && (forall k :: 0 <= k < |trace| && trace[k].DnsWritten? ==> ComesLast(trace, k))
    && (forall j, k :: 0 <= j < k < |trace| && trace[j].DnsWritten? && trace[k].DnsWritten? ==> SameAddress(trace, j, k))
    && (forall k :: 0 <= k < |trace| && trace[k].Promoted? ==> IsVerified(trace, k))
    && (forall k :: 0 <= k < |trace| && trace[k].CandidateQuarantined? ==> HasEvidence(trace, k))
    && (forall j, k :: 0 <= j < k < |trace| && InJob(trace, j, k) && trace[j].automatic && trace[k].RuntimeStarted?
          ==> StartsHealthy(trace, j, k))
    && (forall i, k :: 0 <= i < k < |trace| && trace[i].ActiveQuarantined? && trace[k].ActiveQuarantined?
          ==> trace[i].faultGeneration < trace[k].faultGeneration)
  }

  lemma WriteComesLast(trace: seq<Effect>, watches: seq<Watch>, k: nat)
    requires IsRun(trace, watches) && watches[|trace|].safe
    requires k < |trace| && trace[k].DnsWritten?
    ensures ComesLast(trace, k)
  {
    var c, p, v, r := DnsComesLast(trace, watches, k);
    var q, a := DnsFollowsRouting(trace, watches, k);
    assert q == p;
  }

  /** What the monitor's flag means for the trace itself. */
  lemma SafeIsOrderly(trace: seq<Effect>, watches: seq<Watch>)
    requires IsRun(trace, watches) && watches[|trace|].safe
    ensures Orderly(trace)
  {
    forall k | 0 <= k < |trace| && trace[k].DnsWritten?
      ensures ComesLast(trace, k)
    {
      WriteComesLast(trace, watches, k);
    }
    forall j, k | 0 <= j < k < |trace| && trace[j].DnsWritten? && trace[k].DnsWritten?
      ensures SameAddress(trace, j, k)
    {
      if forall i :: j < i < k ==> !Boundary(trace[i]) {
        OneAddressPerCall(trace, watches, j, k);
      }
    }
    forall k | 0 <= k < |trace| && trace[k].Promoted?
      ensures IsVerified(trace, k)
    {
      var c, v, r := PromotionIsVerified(trace, watches, k);
    }
    forall k | 0 <= k < |trace| && trace[k].CandidateQuarantined?
      ensures HasEvidence(trace, k)
    {
      var c, e := QuarantineHasEvidence(trace, watches, k);
    }
    forall j, k | 0 <= j < k < |trace| && InJob(trace, j, k) && trace[j].automatic && trace[k].RuntimeStarted?
      ensures StartsHealthy(trace, j, k)
    {
      var g, s, c := StartsOnHealthyNode(trace, watches, j, k);
    }
    forall i, k | 0 <= i < k < |trace| && trace[i].ActiveQuarantined? && trace[k].ActiveQuarantined?
      ensures trace[i].faultGeneration < trace[k].faultGeneration
    {
      OneFailoverPerGeneration(trace, watches, i, k);
    }
  }

  // One step of any run.
  method AnyStep(c: Coordinator)
    requires c.state.Valid() && c.failoverJob == None
    modifies c`failoverJob, c.state.db, c.state.chml, c.state.cf, c.state.frpc, c.state.journal
    ensures c.state.Valid() && c.failoverJob == None
  {
    var choice: int, event: FrpcEvent, node: string := *, *, *;
    if choice == 0 && event.generation <= c.state.frpc.generation {
      var _, _, _ := c.QueuedGlobalFailover(event);
    } else if choice == 1 {
      var _, _, _ := c.GlobalFailoverLocked(None);
    } else if choice == 2 {
      var _ := c.Reconcile();
    } else if choice == 3 {
      AdminStep(c.state);
    } else if choice == 4 {
      c.state.db.ClearQuarantine(node);
    } else if choice == 5 {
      var _ := c.ConfirmAmbiguousNetworkFault(event);
    } else {
      WorldStep(c.state);
    }
  }

  /** From an empty installation on, after any jobs, faults and outside changes: the trace is orderly,
      a live process runs the text in the config file, and a recorded revision is that text. */
  method AnyRun(chmlConfigured: bool, domainField: bool, render: (map<string, RemoteTunnel>, string, seq<string>) -> string,
                cfConfigured: bool, steps: nat)
    returns (s: AppState)
    ensures s.Valid()
    ensures Orderly(s.journal.trace)
    ensures s.frpc.child.Some? ==> s.frpc.configFile == s.frpc.child
    ensures s.RevisionMatches()
  {
    var journal := new Journal();
    var db := new Database(journal);
    var chml := new ChmlFrpClient(journal, chmlConfigured, domainField, render);
    var cf := new CloudflareClient(journal, cfConfigured);
    var frpc := new FrpcManager(journal);
    s := new AppState(db, chml, cf, frpc, journal);
    var c := new Coordinator(s);
    for step := 0 to steps
      invariant s.Valid() && c.state == s && c.failoverJob == None
      invariant fresh(c) && fresh(db) && fresh(chml) && fresh(cf) && fresh(frpc) && fresh(journal)
      invariant s.db == db && s.chml == chml && s.cf == cf && s.frpc == frpc && s.journal == journal
    {
      AnyStep(c);
    }
    SafeIsOrderly(s.journal.trace, s.journal.watches);
  }

  // ---------------------------------------------------------------- recovery

  lemma ServedIsSettled(zone: Zone, plans: seq<TunnelPlan>, ip: string)
    requires AllServedAt(zone, plans, ip)
    ensures Settled(zone, plans, ip, true)
  {
    forall i | 0 <= i < |plans| && plans[i].dnsManaged
      ensures AtMostOne(zone, plans[i].domain) && HeldAt(zone, plans[i].domain, ip, true)
    {
      assert ServedAt(zone, plans[i].domain, ip);
      var id :| Serves(zone, id, plans[i].domain) && zone[id].content == ip;
      assert Found(zone, id, plans[i].domain, true);
    }
  }

  // The world answers as long as it is asked, and the host is calm.
  ghost predicate Quiet(p: Picture) {
    && p.routing.activeNode.Some? && p.world.calm
    && NodeServes(p.world, p.Wanted(), p.routing.activeNode.value)
    && (AnyDns(p.Wanted()) ==> p.world.dnsConfigured && p.world.reachable)
  }

  // Everything is as a reconcile leaves it.
  ghost predicate InOrder(p: Picture)
    requires Quiet(p)
  {
    var active := p.routing.activeNode.value;
    && p.Wanted() != [] && p.routing.phase == Idle
    && AlreadyServing(p, p.Wanted(), active)
    && (AnyDns(p.Wanted()) ==> AllServedAt(p.zone, p.Wanted(), p.world.directory[active].realIp))
  }

  // What a reconcile could change.
  datatype Footprint = Footprint(
    tunnels: map<string, RemoteTunnel>, zone: Zone, generation: nat, child: Option<string>,
    configFile: Option<string>, configRevision: Option<int>, revisions: map<int, ConfigRevision>, routing: RoutingState)

  ghost function FootprintOf(p: Picture): Footprint {
    Footprint(p.tunnels, p.zone, p.runtime.generation, p.runtime.child, p.runtime.configFile, p.runtime.configRevision,
              p.revisions, p.routing)
  }

  // Log lines and polls of a runtime on a calm host.
  method Wait(s: AppState)
    requires s.Valid() && Quiet(Pic(s)) && InOrder(Pic(s))
    modifies s.frpc
    ensures s.Valid() && Quiet(Pic(s)) && InOrder(Pic(s))
    ensures FootprintOf(Pic(s)) == FootprintOf(old(Pic(s)))
  {
    ghost var a := Pic(s);
    LetTimePass(s);
    ServingPasses(a, Pic(s), a.Wanted());
  }

  lemma InOrderWhenReconciled(a: Picture, b: Picture)
    requires Quiet(a) && a.Wanted() != [] && Reconciled(a, b, a.Wanted(), a.routing.activeNode.value, true)
    ensures Quiet(b) && InOrder(b)
  {
  }

  method FirstReconcile(c: Coordinator) returns (ok: bool)
    requires c.state.Valid() && Quiet(Pic(c.state))
    modifies c.state.db`routing, c.state.db`recordIds, c.state.db`revisions, c.state.db`lastRevision
    modifies c.state.chml`tunnels, c.state.chml`mishaps, c.state.cf`zone, c.state.frpc, c.state.journal
    ensures c.state.Valid()
    ensures ok ==> Quiet(Pic(c.state)) && InOrder(Pic(c.state))
  {
    ghost var a := Pic(c.state);
    ok := c.Reconcile();
    if ok {
      InOrderWhenReconciled(a.(watch := Step(a.watch, JobStarted(false))), Pic(c.state));
    }
  }

  /** A reconcile of a runtime that already serves everything: it stays as it is, and only managed
      records change, if they were not in order. */
  ghost predicate LeftServing(a: Picture, b: Picture, active: string) {
    && b.routing == a.routing.(phase := Idle)
    && b.tunnels == a.tunnels && RuntimeKept(a, b)
    && (AnyDns(a.Wanted()) ==> active in a.world.directory && AllServedAt(b.zone, a.Wanted(), a.world.directory[active].realIp))
    && (b.zone != a.zone ==> active in a.world.directory && !Settled(a.zone, a.Wanted(), a.world.directory[active].realIp, true))
  }

  lemma ServingIsLeft(a: Picture, b: Picture, active: string, ok: bool)
    requires AlreadyServing(a, a.Wanted(), active) && Undisturbed(a, a.Wanted(), active)
    requires Reconciled(a, b, a.Wanted(), active, ok)
    ensures ok && LeftServing(a, b, active)
  {
  }

  // A reconcile of a runtime that already serves everything on the active node.
  method ReconcileServing(c: Coordinator, ghost active: string) returns (ok: bool)
    requires c.state.Valid() && Pic(c.state).Wanted() != [] && c.state.db.routing.activeNode == Some(active)
    requires AlreadyServing(Pic(c.state), Pic(c.state).Wanted(), active)
    requires Undisturbed(Pic(c.state), Pic(c.state).Wanted(), active)
    modifies c.state.db`routing, c.state.db`recordIds, c.state.db`revisions, c.state.db`lastRevision
    modifies c.state.chml`tunnels, c.state.chml`mishaps, c.state.cf`zone, c.state.frpc, c.state.journal
    ensures c.state.Valid()
    ensures ok && LeftServing(old(Pic(c.state)), Pic(c.state), active)
  {
    ghost var a := Pic(c.state);
    ok := c.Reconcile();
    ServingIsLeft(a.(watch := Step(a.watch, JobStarted(false))), Pic(c.state), active, ok);
  }

  /** A fault on record for a connected runtime with the generated text makes every reconcile fail, for
      as long as nothing else touches the runtime or the tunnels: the reconcile leaves both as they
      are. */
  method ReconcileStuck(c: Coordinator, ghost active: string) returns (ok: bool)
    requires c.state.Valid() && c.state.frpc.calm
    requires var p := Pic(c.state);
             && p.Wanted() != [] && p.routing.activeNode == Some(active)
             && AllOn(p.tunnels, p.Wanted(), active) && Stuck(p, p.tunnels, p.Wanted(), active)
    modifies c.state.db`routing, c.state.db`recordIds, c.state.db`revisions, c.state.db`lastRevision
    modifies c.state.chml`tunnels, c.state.chml`mishaps, c.state.cf`zone, c.state.frpc, c.state.journal
    ensures c.state.Valid()
    ensures var a, b := old(Pic(c.state)), Pic(c.state);
            && !ok && b.world == a.world && b.plans == a.plans && b.routing == a.routing && b.tunnels == a.tunnels
            && StaysUp(a, b) && Stuck(b, b.tunnels, b.Wanted(), active)
  {
    ok := c.Reconcile();
  }

  lemma NothingLeftToDo(a: Picture, b: Picture)
    requires Quiet(a) && InOrder(a) && LeftServing(a, b, a.routing.activeNode.value)
    ensures FootprintOf(b) == FootprintOf(a)
  {
    if AnyDns(a.Wanted()) {
      ServedIsSettled(a.zone, a.Wanted(), a.world.directory[a.routing.activeNode.value].realIp);
    }
  }

  lemma InOrderIsUndisturbed(p: Picture)
    requires Quiet(p) && InOrder(p)
    ensures Undisturbed(p, p.Wanted(), p.routing.activeNode.value)
  {
    if AnyDns(p.Wanted()) {
      ServedIsSettled(p.zone, p.Wanted(), p.world.directory[p.routing.activeNode.value].realIp);
    }
  }

  method ReconcileAgain(c: Coordinator) returns (ok: bool)
    requires c.state.Valid() && Quiet(Pic(c.state)) && InOrder(Pic(c.state))
    modifies c.state.db`routing, c.state.db`recordIds, c.state.db`revisions, c.state.db`lastRevision
    modifies c.state.chml`tunnels, c.state.chml`mishaps, c.state.cf`zone, c.state.frpc, c.state.journal
    ensures c.state.Valid() && ok
    ensures FootprintOf(Pic(c.state)) == FootprintOf(old(Pic(c.state)))
  {
    ghost var a := Pic(c.state);
    InOrderIsUndisturbed(a);
    ok := ReconcileServing(c, a.routing.activeNode.value);
    NothingLeftToDo(a, Pic(c.state));
  }

  /** Reconcile is idempotent: in a world that answers and does not change by itself, a second run
      after a success succeeds, changes no tunnel, keeps the FRPC generation, process and config
      file, and leaves every record as it is. */
  method ReconcileTwice(c: Coordinator) returns (first: bool, second: bool, ghost between: Footprint)
    requires c.state.Valid() && Quiet(Pic(c.state))
    modifies c.state.db`routing, c.state.db`recordIds, c.state.db`revisions, c.state.db`lastRevision
    modifies c.state.chml`tunnels, c.state.chml`mishaps, c.state.cf`zone, c.state.frpc, c.state.journal
    ensures c.state.Valid()
    ensures first ==> second && FootprintOf(Pic(c.state)) == between
  {
    second := false;
    first := FirstReconcile(c);
    between := FootprintOf(Pic(c.state));
    if first {
      Wait(c.state);
      second := ReconcileAgain(c);
    }
  }

  /** A failover that ended with DNS pending is finished by a reconcile without a bounce, as long as
      the runtime still serves and nothing disturbs the call: nothing but the managed records and the
      phase changes. */
  method RecoverDegraded(c: Coordinator, ghost start: Picture, ghost r: JobResult, ghost former: string, ghost target: string)
    returns (ok: bool)
    requires c.state.Valid()
    requires Carried(start, Pic(c.state)) && Degraded(start, Pic(c.state), r, former, target)
    requires Serving(c.state.frpc.State(), start.Wanted())
    requires Undisturbed(Pic(c.state), start.Wanted(), target)
    modifies c.state.db`routing, c.state.db`recordIds, c.state.db`revisions, c.state.db`lastRevision
    modifies c.state.chml`tunnels, c.state.chml`mishaps, c.state.cf`zone, c.state.frpc, c.state.journal
    ensures c.state.Valid()
    ensures ok && LeftServing(old(Pic(c.state)), Pic(c.state), target)
  {
    ok := ReconcileServing(c, target);
  }
}

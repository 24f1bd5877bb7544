/** The candidate loop of a global failover, with manual recovery of the original node. */
module Candidates {
  import opened Basics
  import opened Domain
  import opened Journals
  import opened ChmlFrp
  import opened Cloudflare
  import opened ManagedDns
  import opened FrpcRuntime
  import opened AppStates
  import opened Pictures
  import opened Reconcile
  import opened Migration
  import opened Commit

  // ---------------------------------------------------------------- what a job may do to the zone

  /** No record disappears; only the content of managed A records changes; new records are the A
      records that the stages create for managed domains; and when every managed domain had at most
      one A record, spelled like the domain, none has two afterwards. */
  ghost predicate ZoneFramed(before: Zone, after: Zone, plans: seq<TunnelPlan>) {
    && before.Keys <= after.Keys
    && (forall id :: id in before ==>
          after[id] == before[id] || (IsManaged(before, id, plans) && after[id] == before[id].(content := after[id].content)))
    && (forall id :: id in after && id !in before ==> MadeForManaged(after[id], plans))
    && (NoConflict(before, plans) && LookupIsSound(before, plans, false) ==> NoConflict(after, plans))
  }

  ghost predicate MadeForManaged(r: DnsRecord, plans: seq<TunnelPlan>) {
    exists i :: 0 <= i < |plans| && plans[i].dnsManaged && r == NewARecord(plans[i].domain, r.content)
  }

  lemma FramedIsZoneFramed(before: Zone, after: Zone, plans: seq<TunnelPlan>, ip: string)
    requires Framed(before, after, plans, ip)
    requires NoConflict(before, plans) && LookupIsSound(before, plans, false) ==> NoConflict(after, plans)
    ensures ZoneFramed(before, after, plans)
  {
    forall id | id in after && id !in before
      ensures MadeForManaged(after[id], plans)
    {
    }
  }

  // The stages only add records that are spelled like their domain.
  lemma SpellingKept(before: Zone, after: Zone, plans: seq<TunnelPlan>)
    requires ZoneFramed(before, after, plans) && CleanDomains(plans)
    requires LookupIsSound(before, plans, false)
    ensures LookupIsSound(after, plans, false)
  {
    forall i, id | 0 <= i < |plans| && plans[i].dnsManaged && Serves(after, id, plans[i].domain)
      ensures after[id].name == plans[i].domain
    {
      if id in before {
        assert Serves(before, id, plans[i].domain);
        assert SpelledExactly(before, plans[i].domain);
      } else {
        assert MadeForManaged(after[id], plans);
        var j :| 0 <= j < |plans| && plans[j].dnsManaged && after[id] == NewARecord(plans[j].domain, after[id].content);
        LowerIsLower(plans[i].domain);
        LowerIsLower(plans[j].domain);
      }
    }
  }

  lemma ZoneFramedTransitive(a: Zone, b: Zone, c: Zone, plans: seq<TunnelPlan>)
    requires ZoneFramed(a, b, plans) && ZoneFramed(b, c, plans) && CleanDomains(plans)
    ensures ZoneFramed(a, c, plans)
  {
    if LookupIsSound(a, plans, false) {
      SpellingKept(a, b, plans);
    }
    forall id | id in a
      ensures c[id] == a[id] || (IsManaged(a, id, plans) && c[id] == a[id].(content := c[id].content))
    {
      if IsManaged(b, id, plans) {
        var i :| 0 <= i < |plans| && plans[i].dnsManaged && Serves(b, id, plans[i].domain);
        assert Serves(a, id, plans[i].domain);
      }
    }
    forall id | id in c && id !in a
      ensures MadeForManaged(c[id], plans)
    {
      if id in b {
        assert MadeForManaged(b[id], plans);
        var i :| 0 <= i < |plans| && plans[i].dnsManaged && b[id] == NewARecord(plans[i].domain, b[id].content);
        assert c[id] == NewARecord(plans[i].domain, c[id].content);
      }
    }
  }

  // ---------------------------------------------------------------- what a job carries along

  /** Time only passes; no quarantine is shortened, except that one may be replaced by another that
      begins later. */
  ghost predicate QuarantineGrows(a: Picture, b: Picture) {
    && b.clock >= a.clock
    && forall n :: n in a.quarantine ==>
         n in b.quarantine && (b.quarantine[n] == a.quarantine[n] || b.quarantine[n] > a.clock)
  }

  // The node is in the table with a deadline after the moment of `a`.
  predicate QuarantinedSince(a: Picture, b: Picture, node: string) {
    node in b.quarantine && b.quarantine[node] > a.clock
  }

  /** The node was quarantined since `a` for the days of the routing row, but for at least one day. */
  predicate BarredFor(a: Picture, b: Picture, node: string) {
    && node in b.quarantine
    && var began := b.quarantine[node] - (if a.routing.quarantineDays > 1 then a.routing.quarantineDays else 1) * 86_400_000_000_000;
       a.clock <= began <= b.clock
  }

  predicate SameEntry(a: Picture, b: Picture, node: string) {
    (node in b.quarantine <==> node in a.quarantine) && (node in a.quarantine ==> b.quarantine[node] == a.quarantine[node])
  }

  lemma BarStays(a: Picture, b: Picture, c: Picture, node: string)
    requires BarredFor(a, b, node) && SameEntry(b, c, node) && b.clock <= c.clock
    ensures BarredFor(a, c, node)
  {
  }

  predicate Quarantined(p: Picture, node: string) {
    node in p.quarantine && p.quarantine[node] > p.clock
  }

  /** The job goes on in the same world; tunnels and records outside the plans are untouched, and
      quarantine only grows. */
  ghost predicate Carried(a: Picture, b: Picture) {
    && b.world == a.world && b.plans == a.plans
    && b.runtime.external >= a.runtime.external
    && b.watch.job.automatic == a.watch.job.automatic
    && QuarantineGrows(a, b) && MishapsGrow(a, b)
    && OthersKept(a.tunnels, b.tunnels, a.Wanted()) && ZoneFramed(a.zone, b.zone, a.Wanted())
  }

  lemma CarriedTransitive(a: Picture, b: Picture, c: Picture)
    requires WellFormedPlans(a.plans) && Carried(a, b) && Carried(b, c)
    ensures Carried(a, c)
  {
    EnabledKeepsWellFormed(a.plans);
    ZoneFramedTransitive(a.zone, b.zone, c.zone, a.Wanted());
  }

  lemma AttemptCarries(a: Picture, b: Picture, target: string, nextStandby: Option<string>, restorePrevious: bool, r: MigrationResult)
    requires Attempt(a, b, target, nextStandby, restorePrevious, r)
    ensures Carried(a, b)
  {
    if a.Wanted() != [] && Committing(r) && AnyDns(a.Wanted()) {
      FramedIsZoneFramed(a.zone, b.zone, a.Wanted(), b.watch.stage.probe.value.ip);
    }
  }

  lemma ReconcileCarries(a: Picture, b: Picture, active: string, ok: bool)
    requires Reconciled(a, b, a.Wanted(), active, ok)
    ensures Carried(a, b)
  {
    if b.zone != a.zone {
      FramedIsZoneFramed(a.zone, b.zone, a.Wanted(), b.watch.stage.probe.value.ip);
    }
  }

  // ---------------------------------------------------------------- recovery of the original node

  /** Nothing stands in the way of the original node: it is online with an address, providers answer,
      the zone has no conflict, and host and runtime are calm. */
  ghost predicate Homely(p: Picture, node: string) {
    p.Wanted() != [] && Undisturbed(p, p.Wanted(), node) && CleanConfigs(p.world, p.Wanted(), node)
  }

  /** A failed manual switch goes back to the original node, which is not known to be faulty; when
      that fails too, FRPC is stopped. */
  method RecoverManualOriginal(s: AppState, ghost former: string) returns (ok: bool)
    requires s.Valid() && !s.journal.Now().job.automatic
    requires s.db.routing.activeNode == Some(former)
    modifies s.db`routing, s.db`recordIds, s.db`revisions, s.db`lastRevision
    modifies s.chml`tunnels, s.chml`mishaps, s.cf`zone, s.frpc, s.journal
    ensures s.Valid()
    ensures Recovered(old(Pic(s)), Pic(s), former, ok)
  {
    ghost var a := Pic(s);
    ok := ReconcileAll(s);
    ghost var b := Pic(s);
    EndRecovery(s, ok);
    RecoveredByReconcile(a, b, Pic(s), former, ok);
  }

  method EndRecovery(s: AppState, ok: bool)
    requires s.Valid()
    modifies s.db`routing, s.frpc`generation, s.frpc`child, s.frpc`running, s.frpc`connected, s.journal
    ensures s.Valid()
    ensures var b := old(Pic(s)); Pic(s) == if ok then b.(routing := b.routing.(phase := Idle)) else Stopped(b)
  {
    if ok {
      SetPhase(s, Idle);
    } else {
      StopRuntime(s);
    }
  }

  method SetPhase(s: AppState, phase: RoutingPhase)
    requires s.Valid()
    modifies s.db`routing
    ensures s.Valid()
    ensures var a := old(Pic(s)); Pic(s) == a.(routing := a.routing.(phase := phase))
  {
    s.db.SetRoutingPhase(phase);
  }

  ghost predicate Recovered(a: Picture, b: Picture, former: string, ok: bool) {
    && Carried(a, b)
    && b.quarantine == a.quarantine && b.clock == a.clock
    && SameJob(b.watch, a.watch) && b.watch.active == a.watch.active
    && b.routing == (if ok then a.routing.(phase := Idle) else a.routing)
    && (ok ==> a.Wanted() != [] && Converged(b, a.Wanted(), former))
    && (!ok ==> !b.runtime.running)
    && (NoConflict(a.zone, a.Wanted()) ==> NoConflict(b.zone, a.Wanted()))
    && (Homely(a, former) && (Faultless(a.runtime) || !a.runtime.running) ==> ok)
  }

  lemma RecoveredByReconcile(a: Picture, b: Picture, c: Picture, former: string, ok: bool)
    requires a.routing.activeNode == Some(former)
    requires if a.Wanted() == [] then !ok && b == a else Reconciled(a, b, a.Wanted(), former, ok)
    requires c == if ok then b.(routing := b.routing.(phase := Idle)) else Stopped(b)
    ensures Recovered(a, c, former, ok)
  {
    if a.Wanted() != [] {
      ReconcileCarries(a, b, former, ok);
      if CleanConfigs(a.world, a.Wanted(), former) {
        assert Loadable(a.world, b.tunnels, a.Wanted(), former);
      }
    }
  }

  // ---------------------------------------------------------------- one candidate fails

  /** A candidate with a node-level failure: its runtime is stopped and it is quarantined. Nothing
      but evidence against the node leads here. */
  method CondemnCandidate(s: AppState, target: string)
    requires s.Valid() && Evidence(s.journal.Now(), target)
    modifies s.db`quarantine, s.db`clock, s.frpc`generation, s.frpc`child, s.frpc`running, s.frpc`connected, s.journal
    ensures s.Valid()
    ensures CandidateCondemned(old(Pic(s)), Pic(s), target)
  {
    StopRuntime(s);
    Quarantine(s, target);
  }

  method Quarantine(s: AppState, target: string)
    requires s.Valid() && Evidence(s.journal.Now(), target)
    modifies s.db`quarantine, s.db`clock, s.journal
    ensures s.Valid()
    ensures var a, b := old(Pic(s)), Pic(s);
            && b == a.(quarantine := b.quarantine, clock := b.clock, watch := Step(a.watch, CandidateQuarantined(target)))
            && Quarantined(b, target) && b.clock >= a.clock && BarredFor(a, b, target)
            && b.quarantine == a.quarantine[target := b.quarantine[target]]
  {
    s.db.QuarantineNode(target, s.db.routing.quarantineDays);
    s.journal.Record(CandidateQuarantined(target));
  }

  ghost predicate CandidateCondemned(a: Picture, b: Picture, target: string) {
    && b == Stopped(a).(quarantine := b.quarantine, clock := b.clock, watch := Step(Stopped(a).watch, CandidateQuarantined(target)))
    && Quarantined(b, target) && b.clock >= a.clock && BarredFor(a, b, target)
    && b.quarantine == a.quarantine[target := b.quarantine[target]]
  }

  // Back to the original node as the baseline for the next candidate of a manual job.
  method Rebase(s: AppState, ghost former: string) returns (ok: bool)
    requires s.Valid() && !s.journal.Now().job.automatic
    requires s.db.routing.activeNode == Some(former) && s.db.routing.phase == Failover
    modifies s.db`routing, s.db`recordIds, s.db`revisions, s.db`lastRevision
    modifies s.chml`tunnels, s.chml`mishaps, s.cf`zone, s.frpc, s.journal
    ensures s.Valid()
    ensures Rebased(old(Pic(s)), Pic(s), former, ok)
  {
    ghost var a := Pic(s);
    ok := RecoverManualOriginal(s, former);
    ghost var b := Pic(s);
    if ok {
      SetPhase(s, Failover);
    }
    RebasedByRecovery(a, b, former, ok);
  }

  lemma RebasedByRecovery(a: Picture, b: Picture, former: string, ok: bool)
    requires a.routing.phase == Failover && Recovered(a, b, former, ok)
    ensures Rebased(a, if ok then b.(routing := b.routing.(phase := Failover)) else b, former, ok)
  {
    if ok {
      StandingIgnoresRouting(b, b.(routing := b.routing.(phase := Failover)), b.Wanted(), former);
    }
  }

  ghost predicate Rebased(a: Picture, b: Picture, former: string, ok: bool) {
    && Carried(a, b)
    && b.quarantine == a.quarantine && b.clock == a.clock
    && SameJob(b.watch, a.watch) && b.watch.active == a.watch.active
    && b.routing == a.routing
    && (ok ==> a.Wanted() != [] && Standing(b, a.Wanted(), former) && DnsConverged(b, a.Wanted(), former))
    && (!ok ==> !b.runtime.running)
    && (NoConflict(a.zone, a.Wanted()) ==> NoConflict(b.zone, a.Wanted()))
    && (Homely(a, former) && (Faultless(a.runtime) || !a.runtime.running) ==> ok)
  }

  // ---------------------------------------------------------------- where the loop stands

  // No later candidate is quarantined, condemned, or the old active node; names are distinct.
  ghost predicate Eligibles(p: Picture, candidates: seq<NodeSummary>, from: nat, former: string) {
    && (forall k :: from <= k < |candidates| ==>
          && candidates[k].name != former
          && !Quarantined(p, candidates[k].name)
          && (p.watch.job.automatic ==> candidates[k].name !in p.watch.job.condemned))
    && (forall a, b :: 0 <= a < b < |candidates| ==> candidates[a].name != candidates[b].name)
  }

  /** Between two candidates: the job still holds the original routing row in phase failover. */
  ghost predicate Searching(p: Picture, candidates: seq<NodeSummary>, from: nat, former: string) {
    && p.routing.activeNode == Some(former) && p.routing.phase == Failover
    && Eligibles(p, candidates, from, former)
  }

  // The first later candidate with another name.
  function NextCandidate(candidates: seq<NodeSummary>, from: nat, name: string): (next: Option<string>)
    ensures next.Some? ==> next.value != name && exists k :: from <= k < |candidates| && candidates[k].name == next.value
    decreases |candidates| - from
  {
    if from >= |candidates| then None
    else if candidates[from].name != name then Some(candidates[from].name)
    else NextCandidate(candidates, from + 1, name)
  }

  // The new standby when candidate `at` is committed: the candidate after it, or the former active
  // node in a manual job.
  function StandbyFor(candidates: seq<NodeSummary>, at: nat, former: string, automatic: bool): Option<string> {
    if !automatic then Some(former)
    else if at + 1 < |candidates| then Some(candidates[at + 1].name)
    else None
  }

  // All planned tunnels are on one node.
  ghost predicate TogetherOn(tunnels: map<string, RemoteTunnel>, plans: seq<TunnelPlan>, node: string) {
    forall i :: 0 <= i < |plans| ==> plans[i].name in tunnels && tunnels[plans[i].name].node == node
  }

  ghost predicate Together(tunnels: map<string, RemoteTunnel>, plans: seq<TunnelPlan>) {
    exists node :: TogetherOn(tunnels, plans, node)
  }

  // No compensation was garbled, and none can have been given up.
  ghost predicate UndoneWell(a: Mishaps, b: Mishaps) {
    forall c: Call :: c.purpose.Undo? ==> b.garbled[c] == a.garbled[c] && b.failed[c] < a.failed[c] + 3
  }

  /** Planned tunnels that were on one node are on one node, unless a compensation went wrong. */
  ghost predicate StayTogether(a: Picture, b: Picture) {
    UndoneWell(a.mishaps, b.mishaps) && Together(a.tunnels, a.Wanted()) ==> Together(b.tunnels, a.Wanted())
  }

  lemma StayTogetherInSteps(a: Picture, b: Picture, c: Picture)
    requires b.plans == a.plans && MoreMishaps(a.mishaps, b.mishaps) && MoreMishaps(b.mishaps, c.mishaps)
    requires StayTogether(a, b) && StayTogether(b, c)
    ensures StayTogether(a, c)
  {
    if UndoneWell(a.mishaps, c.mishaps) {
      forall call: Call | call.purpose.Undo?
        ensures b.mishaps.garbled[call] == a.mishaps.garbled[call] == c.mishaps.garbled[call]
        ensures b.mishaps.failed[call] < a.mishaps.failed[call] + 3 && c.mishaps.failed[call] < b.mishaps.failed[call] + 3
      {
      }
    }
  }

  lemma AttemptStaysTogether(a: Picture, b: Picture, target: string, nextStandby: Option<string>, restorePrevious: bool,
                             r: MigrationResult)
    requires Attempt(a, b, target, nextStandby, restorePrevious, r)
    ensures StayTogether(a, b)
  {
    var plans := a.Wanted();
    if UndoneWell(a.mishaps, b.mishaps) && Together(a.tunnels, plans) && plans != [] {
      var node :| TogetherOn(a.tunnels, plans, node);
      assert AllPresent(a.tunnels, plans);
      if LeftMoved(r) {
        assert TogetherOn(b.tunnels, plans, target);
      } else {
        assert !AnyCompensationFailed(a.tunnels, plans, a.mishaps, b.mishaps);
        AttemptIsAllOrNothing(a, b, target, nextStandby, restorePrevious, r);
        forall i | 0 <= i < |plans|
          ensures plans[i].name in b.tunnels && b.tunnels[plans[i].name].node == node
        {
          assert BackHome(a.tunnels, b.tunnels, plans, i, target, a.mishaps, b.mishaps, a.world.domainField);
        }
        assert TogetherOn(b.tunnels, plans, node);
      }
    }
  }

  // ---------------------------------------------------------------- one candidate

  /** Why a job gives up: a candidate failed for a reason that does not blame the node; a manual job
      could not restore the original node between two candidates; or no candidate is left. */
  datatype Reason = NotTheNode | OriginalLost | NoneLeft

  datatype Ending = Switched(at: nat) | DnsPending(at: nat) | GaveUp(at: nat, why: Reason)

  datatype Verdict = TryNext | Finish(ending: Ending)

  // After a node-level failure of candidate `idx`.
  method AfterNodeFailure(s: AppState, candidates: seq<NodeSummary>, idx: nat, former: string, automatic: bool)
    returns (proceed: bool)
    requires s.Valid() && idx < |candidates| && Searching(Pic(s), candidates, idx, former)
    requires Evidence(s.journal.Now(), candidates[idx].name)
    requires automatic == s.journal.Now().job.automatic
    modifies s.db`routing, s.db`recordIds, s.db`revisions, s.db`lastRevision, s.db`quarantine, s.db`clock
    modifies s.chml`tunnels, s.chml`mishaps, s.cf`zone, s.frpc, s.journal
    ensures s.Valid()
    ensures Handled(old(Pic(s)), Pic(s), candidates, idx, former, proceed)
  {
    ghost var a := Pic(s);
    CondemnCandidate(s, candidates[idx].name);
    ghost var b := Pic(s);
    proceed := true;
    if !automatic && idx + 1 < |candidates| {
      proceed := Rebase(s, former);
      HandledManually(a, b, Pic(s), candidates, idx, former, proceed);
    } else {
      HandledByStop(a, b, candidates, idx, former);
    }
  }

  /** The candidate is quarantined. An automatic job, or one without further candidates, goes on with
      FRPC stopped; a manual job first serves the original node again, or cannot go on. */
  ghost predicate Handled(a: Picture, b: Picture, candidates: seq<NodeSummary>, idx: nat, former: string, proceed: bool)
    requires idx < |candidates|
  {
    var last := a.watch.job.automatic || idx + 1 == |candidates|;
    && Carried(a, b) && b.routing == a.routing
    && b.watch.job == a.watch.job.(condemned := a.watch.job.condemned + {candidates[idx].name})
    && BarredFor(a, b, candidates[idx].name) && (forall n :: n != candidates[idx].name ==> SameEntry(a, b, n))
    && (proceed ==> Searching(b, candidates, idx + 1, former))
    && (last ==> proceed && !b.runtime.running && b.zone == a.zone && b.tunnels == a.tunnels)
    && (!last && proceed ==> a.Wanted() != [] && Standing(b, a.Wanted(), former))
    && (!proceed ==> !b.runtime.running)
    && (NoConflict(a.zone, a.Wanted()) ==> NoConflict(b.zone, a.Wanted()))
    && (Homely(a, former) ==> proceed)
  }

  lemma CondemnedKeepsOthers(a: Picture, b: Picture, candidates: seq<NodeSummary>, idx: nat, former: string)
    requires idx < |candidates| && Searching(a, candidates, idx, former)
    requires CandidateCondemned(a, b, candidates[idx].name)
    ensures Searching(b, candidates, idx + 1, former)
  {
  }

  lemma HandledByStop(a: Picture, b: Picture, candidates: seq<NodeSummary>, idx: nat, former: string)
    requires idx < |candidates| && Searching(a, candidates, idx, former)
    requires a.watch.job.automatic || idx + 1 == |candidates|
    requires CandidateCondemned(a, b, candidates[idx].name)
    ensures Handled(a, b, candidates, idx, former, true)
  {
    CondemnedKeepsOthers(a, b, candidates, idx, former);
  }

  lemma HandledManually(a: Picture, b: Picture, c: Picture, candidates: seq<NodeSummary>, idx: nat, former: string, proceed: bool)
    requires idx + 1 < |candidates| && Searching(a, candidates, idx, former) && !a.watch.job.automatic
    requires CandidateCondemned(a, b, candidates[idx].name) && Rebased(b, c, former, proceed)
    ensures Handled(a, c, candidates, idx, former, proceed)
  {
    CondemnedKeepsOthers(a, b, candidates, idx, former);
    CarriedSinceCondemned(a, b, c, candidates[idx].name);
  }

  lemma CarriedSinceCondemned(a: Picture, b: Picture, c: Picture, target: string)
    requires CandidateCondemned(a, b, target) && Carried(b, c) && c.quarantine == b.quarantine && c.clock == b.clock
    ensures Carried(a, c)
    ensures BarredFor(a, c, target) && forall n :: n != target ==> SameEntry(a, c, n)
  {
  }

  // After any other failure of a candidate, or when none is left.
  method AfterOtherFailure(s: AppState, former: string, automatic: bool)
    requires s.Valid() && automatic == s.journal.Now().job.automatic
    requires s.db.routing.activeNode == Some(former) && s.db.routing.phase == Failover
    modifies s.db`routing, s.db`recordIds, s.db`revisions, s.db`lastRevision
    modifies s.chml`tunnels, s.chml`mishaps, s.cf`zone, s.frpc, s.journal
    ensures s.Valid()
    ensures Concluded(old(Pic(s)), Pic(s), former)
  {
    ghost var a := Pic(s);
    if automatic {
      StopRuntime(s);
    } else {
      var ok := RecoverManualOriginal(s, former);
    }
  }

  /** The original node keeps the routing row: an automatic job has stopped FRPC; a manual job has
      converged on it again, or has stopped FRPC after a failed recovery. */
  ghost predicate Concluded(a: Picture, b: Picture, former: string) {
    && Carried(a, b) && b.watch.job == a.watch.job
    && b.quarantine == a.quarantine && b.clock == a.clock
    && b.routing == a.routing.(phase := b.routing.phase)
    && (if a.watch.job.automatic
        then b.routing.phase == Failover && !b.runtime.running && b.zone == a.zone && b.tunnels == a.tunnels
        else if b.routing.phase == Idle then a.Wanted() != [] && Converged(b, a.Wanted(), former)
        else b.routing.phase == Failover && !b.runtime.running)
    && (!a.watch.job.automatic && Homely(a, former) && (Faultless(a.runtime) || !a.runtime.running) ==> b.routing.phase == Idle)
  }

  // ---------------------------------------------------------------- one candidate is tried

  /** The routing row names the target, on which everything stands, and the given standby: the former
      active node in a manual job, else a candidate not in quarantine. */
  ghost predicate CommittedTo(a: Picture, b: Picture, target: string, former: string, standby: Option<string>) {
    && target != former && !Quarantined(b, target)
    && b.routing == a.routing.(activeNode := Some(target), standbyNode := standby, revision := a.routing.revision + 1,
                               phase := b.routing.phase)
    && standby != Some(target)
    && (a.watch.job.automatic && standby.Some? ==> standby.value != former && !Quarantined(b, standby.value))
    && a.Wanted() != [] && Standing(b, a.Wanted(), target)
  }

  // Every managed domain found by its exact name holds the address looked up for the node.
  ghost predicate Published(p: Picture, plans: seq<TunnelPlan>, node: string) {
    AnyDns(plans) ==>
      && p.watch.stage.probe.Some? && p.watch.stage.probe.value.node == node
      && !IsBlank(p.watch.stage.probe.value.ip)
      && AllAt(p.zone, plans, p.watch.stage.probe.value.ip, false)
  }

  /** Evidence was found against these nodes and no other, and they were quarantined for it. Apart from
      nodes condemned before, no other entry of the quarantine table has changed. */
  ghost predicate FoundFaulty(a: Picture, b: Picture, nodes: set<string>) {
    && b.watch.job.blamed == a.watch.job.blamed + nodes
    && b.watch.job.condemned == a.watch.job.condemned + nodes
    && (forall n :: n in nodes ==> BarredFor(a, b, n))
    && (forall n :: n !in b.watch.job.condemned ==> SameEntry(a, b, n))
  }

  lemma NoMoreFaulty(a: Picture, b: Picture, c: Picture, nodes: set<string>)
    requires FoundFaulty(a, b, nodes) && FoundFaulty(b, c, {})
    requires b.clock <= c.clock && forall n :: SameEntry(b, c, n)
    ensures FoundFaulty(a, c, nodes)
  {
    forall n | n in nodes
      ensures BarredFor(a, c, n)
    {
      BarStays(a, b, c, n);
    }
    forall n | n !in c.watch.job.condemned
      ensures SameEntry(a, c, n)
    {
      assert SameEntry(a, b, n) && SameEntry(b, c, n);
    }
  }

  // The candidate failed itself.
  predicate CondemnsIt(v: Verdict) {
    v.TryNext? || (v.ending.GaveUp? && v.ending.why.OriginalLost?)
  }

  // What may have happened to a candidate that was tried.
  ghost predicate Tried(a: Picture, b: Picture, candidates: seq<NodeSummary>, idx: nat, former: string, v: Verdict)
    requires idx < |candidates|
  {
    var name := candidates[idx].name;
    && Carried(a, b)
    && b.watch.job.attempts == a.watch.job.attempts + [name]
    && (forall n :: n != name || !CondemnsIt(v) ==> SameEntry(a, b, n))
    && match v
       case TryNext => PassedOver(a, b, candidates, idx, former)
       case Finish(e) =>
         && e.at == idx
         && (!e.GaveUp? ==> SettledOn(a, b, candidates, idx, former, e))
         && (e.GaveUp? && !e.why.OriginalLost? ==>
               e.why.NotTheNode? && FoundFaulty(a, b, {}) && KeptBy(a, b, former))
         && (e.GaveUp? && e.why.OriginalLost? ==>
               && !a.watch.job.automatic && idx + 1 < |candidates|
               && FoundFaulty(a, b, {name})
               && b.routing == a.routing && !b.runtime.running)
  }

  // A node failure: the candidate is quarantined, and the next one may be tried.
  ghost predicate PassedOver(a: Picture, b: Picture, candidates: seq<NodeSummary>, idx: nat, former: string)
    requires idx < |candidates|
  {
    var last := a.watch.job.automatic || idx + 1 == |candidates|;
    && b.routing == a.routing
    && FoundFaulty(a, b, {candidates[idx].name})
    && Searching(b, candidates, idx + 1, former)
    && (last ==> !b.runtime.running && b.zone == a.zone && StayTogether(a, b))
    && (!last ==> a.Wanted() != [] && Standing(b, a.Wanted(), former))
    && (NoConflict(a.zone, a.Wanted()) ==> NoConflict(b.zone, a.Wanted()))
  }

  // The candidate was committed.
  ghost predicate SettledOn(a: Picture, b: Picture, candidates: seq<NodeSummary>, idx: nat, former: string, e: Ending)
    requires idx < |candidates| && !e.GaveUp?
  {
    && FoundFaulty(a, b, {})
    && CommittedTo(a, b, candidates[idx].name, former, StandbyFor(candidates, idx, former, a.watch.job.automatic))
    && b.routing.phase == (if e.Switched? then Idle else DnsSwitching)
    && (e.Switched? ==> Published(b, a.Wanted(), candidates[idx].name))
  }

  // The job ends on the original node.
  ghost predicate KeptBy(a: Picture, b: Picture, former: string) {
    && b.routing == a.routing.(phase := b.routing.phase)
    && (if a.watch.job.automatic
        then b.routing.phase == Failover && !b.runtime.running && b.zone == a.zone && StayTogether(a, b)
        else if b.routing.phase == Idle then a.Wanted() != [] && Converged(b, a.Wanted(), former)
        else b.routing.phase == Failover && !b.runtime.running)
  }

  /** When the verdict is known beforehand: a welcoming candidate is taken; one that is down is passed
      over, given that a manual job can go back to the original node first; one that the provider
      does not know ends a manual job on the original node. */
  ghost predicate TryPromises(a: Picture, b: Picture, candidates: seq<NodeSummary>, idx: nat, former: string, v: Verdict)
    requires idx < |candidates|
  {
    var name := candidates[idx].name;
    && (Welcoming(a, name) ==> v == Finish(Switched(idx)))
    && (Down(a, name) && (a.watch.job.automatic || idx + 1 == |candidates| || Homely(a, former)) ==> v.TryNext?)
    && (Unknown(a, name) && !a.watch.job.automatic && Homely(a, former) && (Faultless(a.runtime) || !a.runtime.running) ==>
          v == Finish(GaveUp(idx, NotTheNode)) && b.routing.phase == Idle)
  }

  method TryCandidate(s: AppState, candidates: seq<NodeSummary>, idx: nat, former: string, automatic: bool)
    returns (v: Verdict)
    requires s.Valid() && idx < |candidates| && Searching(Pic(s), candidates, idx, former)
    requires automatic == s.journal.Now().job.automatic
    modifies s.db`routing, s.db`recordIds, s.db`revisions, s.db`lastRevision, s.db`quarantine, s.db`clock
    modifies s.chml`tunnels, s.chml`mishaps, s.cf`zone, s.frpc, s.journal
    ensures s.Valid()
    ensures Tried(old(Pic(s)), Pic(s), candidates, idx, former, v)
    ensures TryPromises(old(Pic(s)), Pic(s), candidates, idx, former, v)
  {
    ghost var a := Pic(s);
    var target := candidates[idx].name;
    var nextStandby := if automatic then NextCandidate(candidates, idx + 1, target) else Some(former);
    var r := MigrateTo(s, target, nextStandby, !automatic);
    ghost var b := Pic(s);
    AttemptCarries(a, b, target, nextStandby, !automatic, r);
    AttemptStaysTogether(a, b, target, nextStandby, !automatic, r);
    if r.Migrated? {
      v := Finish(Switched(idx));
      TriedAndCommitted(a, b, candidates, idx, former, r);
    } else {
      v := AfterFailure(s, candidates, idx, former, automatic, r, a);
    }
  }

  // What follows a call of `migrate_to` that returned an error.
  method AfterFailure(s: AppState, candidates: seq<NodeSummary>, idx: nat, former: string, automatic: bool, r: MigrationResult,
                      ghost a: Picture)
    returns (v: Verdict)
    requires s.Valid() && idx < |candidates| && Searching(a, candidates, idx, former)
    requires automatic == a.watch.job.automatic && !r.Migrated?
    requires Attempt(a, Pic(s), candidates[idx].name, StandbyFor(candidates, idx, former, automatic), !automatic, r)
    requires Carried(a, Pic(s)) && StayTogether(a, Pic(s))
    modifies s.db`routing, s.db`recordIds, s.db`revisions, s.db`lastRevision, s.db`quarantine, s.db`clock
    modifies s.chml`tunnels, s.chml`mishaps, s.cf`zone, s.frpc, s.journal
    ensures s.Valid()
    ensures Tried(a, Pic(s), candidates, idx, former, v)
    ensures TryPromises(a, Pic(s), candidates, idx, former, v)
  {
    ghost var b := Pic(s);
    if r.TargetNodeFailed? {
      var proceed := AfterNodeFailure(s, candidates, idx, former, automatic);
      v := if proceed then TryNext else Finish(GaveUp(idx, OriginalLost));
      TriedAndHandled(a, b, Pic(s), candidates, idx, former, r, proceed);
    } else if s.db.routing.activeNode == Some(former) && s.db.routing.phase == Failover {
      AfterOtherFailure(s, former, automatic);
      v := Finish(GaveUp(idx, NotTheNode));
      TriedAndKept(a, b, Pic(s), candidates, idx, former, r);
    } else {
      v := Finish(DnsPending(idx));
      TriedAndCommitted(a, b, candidates, idx, former, r);
    }
  }

  lemma TriedAndCommitted(a: Picture, b: Picture, candidates: seq<NodeSummary>, idx: nat, former: string, r: MigrationResult)
    requires idx < |candidates| && Searching(a, candidates, idx, former)
    requires Attempt(a, b, candidates[idx].name, StandbyFor(candidates, idx, former, a.watch.job.automatic), !a.watch.job.automatic, r)
    requires Carried(a, b) && Committing(r)
    ensures var v := Finish(if r.Migrated? then Switched(idx) else DnsPending(idx));
            Tried(a, b, candidates, idx, former, v) && TryPromises(a, b, candidates, idx, former, v)
  {
  }

  lemma TriedAndHandled(a: Picture, b: Picture, c: Picture, candidates: seq<NodeSummary>, idx: nat, former: string, r: MigrationResult,
                        proceed: bool)
    requires idx < |candidates| && Searching(a, candidates, idx, former) && WellFormedPlans(a.plans)
    requires Attempt(a, b, candidates[idx].name, StandbyFor(candidates, idx, former, a.watch.job.automatic), !a.watch.job.automatic, r)
    requires Carried(a, b) && StayTogether(a, b) && r.TargetNodeFailed?
    requires Handled(b, c, candidates, idx, former, proceed)
    ensures var v := if proceed then TryNext else Finish(GaveUp(idx, OriginalLost));
            Tried(a, c, candidates, idx, former, v) && TryPromises(a, c, candidates, idx, former, v)
  {
    CarriedTransitive(a, b, c);
    OneFaulty(a, b, c, candidates[idx].name);
  }

  lemma OneFaulty(a: Picture, b: Picture, c: Picture, name: string)
    requires b.quarantine == a.quarantine && b.clock == a.clock && b.routing == a.routing
    requires b.watch.job.condemned == a.watch.job.condemned && b.watch.job.blamed == a.watch.job.blamed + {name}
    requires c.watch.job == b.watch.job.(condemned := b.watch.job.condemned + {name})
    requires BarredFor(b, c, name) && forall n :: n != name ==> SameEntry(b, c, n)
    ensures FoundFaulty(a, c, {name})
    ensures forall n :: n != name ==> SameEntry(a, c, n)
  {
    forall n | n != name
      ensures SameEntry(a, c, n)
    {
      assert SameEntry(b, c, n);
    }
  }

  lemma TriedAndKept(a: Picture, b: Picture, c: Picture, candidates: seq<NodeSummary>, idx: nat, former: string, r: MigrationResult)
    requires idx < |candidates| && Searching(a, candidates, idx, former) && WellFormedPlans(a.plans)
    requires Attempt(a, b, candidates[idx].name, StandbyFor(candidates, idx, former, a.watch.job.automatic), !a.watch.job.automatic, r)
    requires Carried(a, b) && StayTogether(a, b) && r.OtherFailure? && !Committing(r)
    requires Concluded(b, c, former)
    ensures var v := Finish(GaveUp(idx, NotTheNode));
            Tried(a, c, candidates, idx, former, v) && TryPromises(a, c, candidates, idx, former, v)
  {
    CarriedTransitive(a, b, c);
    if a.world.calm && Elapsed(true, a.runtime, b.runtime) {
      ServesOn(a.runtime, b.runtime, []);
    }
  }

  // ---------------------------------------------------------------- the loop

  function NamesUpTo(candidates: seq<NodeSummary>, n: nat): seq<string>
    requires n <= |candidates|
  {
    seq(n, i requires 0 <= i < n => candidates[i].name)
  }

  function NameSet(candidates: seq<NodeSummary>, n: nat): set<string>
    requires n <= |candidates|
  {
    set i | 0 <= i < n :: candidates[i].name
  }

  lemma OneMoreName(attempts: seq<string>, candidates: seq<NodeSummary>, n: nat)
    requires n < |candidates|
    ensures attempts + NamesUpTo(candidates, n + 1) == attempts + NamesUpTo(candidates, n) + [candidates[n].name]
  {
    assert NamesUpTo(candidates, n + 1) == NamesUpTo(candidates, n) + [candidates[n].name];
  }

  lemma OneMoreFaulty(a: Picture, b: Picture, c: Picture, candidates: seq<NodeSummary>, n: nat)
    requires n < |candidates|
    requires FoundFaulty(a, b, NameSet(candidates, n)) && FoundFaulty(b, c, {candidates[n].name})
    requires a.clock <= b.clock <= c.clock && b.routing.quarantineDays == a.routing.quarantineDays
    requires forall m :: m != candidates[n].name ==> SameEntry(b, c, m)
    requires forall j :: 0 <= j < n ==> candidates[j].name != candidates[n].name
    ensures FoundFaulty(a, c, NameSet(candidates, n + 1))
  {
    var name := candidates[n].name;
    assert NameSet(candidates, n + 1) == NameSet(candidates, n) + {name};
    forall m | m in NameSet(candidates, n)
      ensures BarredFor(a, c, m)
    {
      BarStays(a, b, c, m);
    }
    assert BarredFor(b, c, name);
    forall m | m !in c.watch.job.condemned
      ensures SameEntry(a, c, m)
    {
      assert SameEntry(a, b, m) && SameEntry(b, c, m);
    }
  }

  /** The first `n` candidates were tried in order, failed themselves, and are quarantined. */
  ghost predicate Progressed(a: Picture, b: Picture, candidates: seq<NodeSummary>, n: nat, former: string) {
    && n <= |candidates|
    && Carried(a, b) && b.routing == a.routing
    && b.watch.job.attempts == a.watch.job.attempts + NamesUpTo(candidates, n)
    && FoundFaulty(a, b, NameSet(candidates, n))
    && Searching(b, candidates, n, former) && SameEntry(a, b, former)
    && (NoConflict(a.zone, a.Wanted()) ==> NoConflict(b.zone, a.Wanted()))
    && (a.watch.job.automatic ==> b.zone == a.zone && StayTogether(a, b))
    && (n > 0 && (a.watch.job.automatic || n == |candidates|) ==> !b.runtime.running)
  }

  lemma NoProgress(a: Picture, candidates: seq<NodeSummary>, former: string)
    requires Searching(a, candidates, 0, former)
    ensures Progressed(a, a, candidates, 0, former)
  {
  }

  lemma ProgressStep(a: Picture, b: Picture, c: Picture, candidates: seq<NodeSummary>, n: nat, former: string)
    requires WellFormedPlans(a.plans) && n < |candidates| && Progressed(a, b, candidates, n, former)
    requires Tried(b, c, candidates, n, former, TryNext)
    ensures Progressed(a, c, candidates, n + 1, former)
  {
    assert candidates[n].name != former && SameEntry(b, c, former);
    CarriedTransitive(a, b, c);
    OneMoreName(a.watch.job.attempts, candidates, n);
    OneMoreFaulty(a, b, c, candidates, n);
  }

  /** What the job could count on at its start it can still count on. */
  lemma HopesCarried(a: Picture, b: Picture, candidates: seq<NodeSummary>, n: nat, former: string)
    requires Progressed(a, b, candidates, n, former)
    ensures forall node :: Welcoming(a, node) ==> Welcoming(b, node)
    ensures forall node :: Down(a, node) ==> Down(b, node)
    ensures Homely(a, former) ==> Homely(b, former)
  {
  }

  // The first `n` candidates are down, and a manual job can go back to the original node between them.
  ghost predicate Passable(p: Picture, candidates: seq<NodeSummary>, n: nat, former: string) {
    && n <= |candidates|
    && (forall j :: 0 <= j < n ==> Down(p, candidates[j].name))
    && (p.watch.job.automatic || n == 0 || (n == 1 && |candidates| == 1) || Homely(p, former))
  }

  // Candidate `at` is welcoming, and all before it are down.
  ghost predicate Reachable(p: Picture, candidates: seq<NodeSummary>, at: nat, former: string) {
    at < |candidates| && Passable(p, candidates, at, former) && Welcoming(p, candidates[at].name)
  }

  // The end of the loop at one candidate.
  ghost predicate EndedAt(a: Picture, b: Picture, candidates: seq<NodeSummary>, former: string, e: Ending) {
    && e.at < |candidates|
    && var name := candidates[e.at].name;
    && Carried(a, b)
    && b.watch.job.attempts == a.watch.job.attempts + NamesUpTo(candidates, e.at + 1)
    && (if e.GaveUp? && e.why.OriginalLost? then FoundFaulty(a, b, NameSet(candidates, e.at + 1))
        else FoundFaulty(a, b, NameSet(candidates, e.at)))
    && (!e.GaveUp? ==>
          && CommittedTo(a, b, name, former, StandbyFor(candidates, e.at, former, a.watch.job.automatic))
          && b.routing.phase == (if e.Switched? then Idle else DnsSwitching)
          && (e.Switched? ==> Published(b, a.Wanted(), name)))
    && (e.GaveUp? ==> !e.why.NoneLeft?)
    && (e.GaveUp? && e.why.NotTheNode? ==> KeptBy(a, b, former))
    && (e.GaveUp? && e.why.OriginalLost? ==>
          && !a.watch.job.automatic && e.at + 1 < |candidates|
          && b.routing == a.routing && !b.runtime.running)
  }

  lemma CommittedSince(a: Picture, b: Picture, c: Picture, target: string, former: string, standby: Option<string>)
    requires Carried(a, b) && b.routing == a.routing && CommittedTo(b, c, target, former, standby)
    ensures CommittedTo(a, c, target, former, standby)
  {
  }

  lemma KeptSince(a: Picture, b: Picture, c: Picture, candidates: seq<NodeSummary>, n: nat, former: string)
    requires Progressed(a, b, candidates, n, former) && KeptBy(b, c, former)
    requires MoreMishaps(b.mishaps, c.mishaps)
    ensures KeptBy(a, c, former)
  {
    if a.watch.job.automatic {
      StayTogetherInSteps(a, b, c);
    }
  }

  lemma EndedInSteps(a: Picture, b: Picture, c: Picture, candidates: seq<NodeSummary>, n: nat, former: string, e: Ending)
    requires WellFormedPlans(a.plans) && n < |candidates| && Progressed(a, b, candidates, n, former)
    requires Tried(b, c, candidates, n, former, Finish(e))
    ensures EndedAt(a, c, candidates, former, e) && SameEntry(a, c, former)
  {
    assert candidates[n].name != former && SameEntry(b, c, former);
    CarriedTransitive(a, b, c);
    if e.GaveUp? && e.why.OriginalLost? {
      OneMoreFaulty(a, b, c, candidates, n);
    } else {
      NoMoreFaulty(a, b, c, NameSet(candidates, n));
    }
    OneMoreName(a.watch.job.attempts, candidates, n);
    if !e.GaveUp? {
      CommittedSince(a, b, c, candidates[n].name, former, StandbyFor(candidates, n, former, a.watch.job.automatic));
    } else if e.why.NotTheNode? {
      KeptSince(a, b, c, candidates, n, former);
    }
  }

  // Candidates before `n` could not be reached as welcoming ones.
  ghost predicate MissedNone(p: Picture, candidates: seq<NodeSummary>, n: nat, former: string) {
    forall at :: 0 <= at < n ==> !Reachable(p, candidates, at, former)
  }

  lemma NothingMissed(a: Picture, b: Picture, c: Picture, candidates: seq<NodeSummary>, n: nat, former: string, v: Verdict)
    requires n < |candidates| && Progressed(a, b, candidates, n, former) && MissedNone(a, candidates, n, former)
    requires TryPromises(b, c, candidates, n, former, v)
    ensures v.TryNext? ==> MissedNone(a, candidates, n + 1, former)
    ensures v.Finish? ==> forall at :: Reachable(a, candidates, at, former) ==> v == Finish(Switched(at))
    ensures v.Finish? ==> !Passable(a, candidates, |candidates|, former)
  {
    HopesCarried(a, b, candidates, n, former);
    assert b.watch.job.automatic == a.watch.job.automatic;
    if Reachable(a, candidates, n, former) {
      assert Welcoming(b, candidates[n].name);
    }
    forall at | at > n && Passable(a, candidates, at, former)
      ensures v.TryNext?
    {
      assert Down(a, candidates[n].name);
      assert Down(b, candidates[n].name);
    }
  }

  /** The loop: it stops at the first candidate that ends the job. Giving up always has its reason:
      candidate `at` failed for a reason that does not blame the node, or the original node was lost;
      all candidates before it failed themselves and are quarantined. */
  method TryInOrder(s: AppState, candidates: seq<NodeSummary>, former: string, automatic: bool) returns (v: Verdict)
    requires s.Valid() && Searching(Pic(s), candidates, 0, former)
    requires automatic == s.journal.Now().job.automatic
    modifies s.db`routing, s.db`recordIds, s.db`revisions, s.db`lastRevision, s.db`quarantine, s.db`clock
    modifies s.chml`tunnels, s.chml`mishaps, s.cf`zone, s.frpc, s.journal
    ensures s.Valid()
    ensures SameEntry(old(Pic(s)), Pic(s), former)
    ensures v.TryNext? ==> Progressed(old(Pic(s)), Pic(s), candidates, |candidates|, former)
    ensures v.Finish? ==> EndedAt(old(Pic(s)), Pic(s), candidates, former, v.ending)
    ensures forall at :: Reachable(old(Pic(s)), candidates, at, former) ==> v == Finish(Switched(at))
    ensures Passable(old(Pic(s)), candidates, |candidates|, former) ==> v == TryNext
  {
    ghost var a := Pic(s);
    NoProgress(a, candidates, former);
    var idx := 0;
    v := TryNext;
    while idx < |candidates|
      invariant idx <= |candidates| && v == TryNext
      invariant s.Valid()
      invariant Progressed(a, Pic(s), candidates, idx, former)
      invariant MissedNone(a, candidates, idx, former)
    {
      ghost var b := Pic(s);
      v := TryCandidate(s, candidates, idx, former, automatic);
      NothingMissed(a, b, Pic(s), candidates, idx, former, v);
      if v.Finish? {
        EndedInSteps(a, b, Pic(s), candidates, idx, former, v.ending);
        return;
      }
      ProgressStep(a, b, Pic(s), candidates, idx, former);
      idx := idx + 1;
    }
  }

  /** The end of the candidate loop: at one candidate, or with none left. */
  ghost predicate LoopEnded(a: Picture, b: Picture, candidates: seq<NodeSummary>, former: string, e: Ending) {
    if e.GaveUp? && e.why.NoneLeft? then
      && e.at == |candidates|
      && Carried(a, b)
      && b.watch.job.attempts == a.watch.job.attempts + NamesUpTo(candidates, |candidates|)
      && FoundFaulty(a, b, NameSet(candidates, |candidates|))
      && KeptBy(a, b, former)
    else EndedAt(a, b, candidates, former, e)
  }

  /** When the end is known beforehand: the first welcoming candidate behind some that are down is
      taken; when all are down none is left, and a manual job goes back to the original node. */
  ghost predicate LoopPromises(a: Picture, b: Picture, candidates: seq<NodeSummary>, former: string, e: Ending) {
    && (forall at :: Reachable(a, candidates, at, former) ==> e == Switched(at))
    && (Passable(a, candidates, |candidates|, former) ==>
          && e == GaveUp(|candidates|, NoneLeft)
          && (!a.watch.job.automatic && Homely(a, former) ==> b.routing.phase == Idle))
  }

  /** Tries the candidates in order until one is committed, a failure that does not blame the node
      ends the job, or none is left; then a manual job goes back to the original node, and an
      automatic one stops. */
  method TryCandidates(s: AppState, candidates: seq<NodeSummary>, former: string, automatic: bool) returns (e: Ending)
    requires s.Valid() && candidates != [] && Searching(Pic(s), candidates, 0, former)
    requires automatic == s.journal.Now().job.automatic
    modifies s.db`routing, s.db`recordIds, s.db`revisions, s.db`lastRevision, s.db`quarantine, s.db`clock
    modifies s.chml`tunnels, s.chml`mishaps, s.cf`zone, s.frpc, s.journal
    ensures s.Valid()
    ensures SameEntry(old(Pic(s)), Pic(s), former)
    ensures LoopEnded(old(Pic(s)), Pic(s), candidates, former, e)
    ensures LoopPromises(old(Pic(s)), Pic(s), candidates, former, e)
  {
    ghost var a := Pic(s);
    var v := TryInOrder(s, candidates, former, automatic);
    if v.Finish? {
      e := v.ending;
    } else {
      ghost var b := Pic(s);
      AfterOtherFailure(s, former, automatic);
      e := GaveUp(|candidates|, NoneLeft);
      NoneWasLeft(a, b, Pic(s), candidates, former);
    }
  }

  lemma NoneWasLeft(a: Picture, b: Picture, c: Picture, candidates: seq<NodeSummary>, former: string)
    requires WellFormedPlans(a.plans) && candidates != [] && Progressed(a, b, candidates, |candidates|, former)
    requires Concluded(b, c, former)
    ensures LoopEnded(a, c, candidates, former, GaveUp(|candidates|, NoneLeft))
    ensures !a.watch.job.automatic && Homely(a, former) ==> c.routing.phase == Idle
  {
    CarriedTransitive(a, b, c);
    HopesCarried(a, b, candidates, |candidates|, former);
  }
}

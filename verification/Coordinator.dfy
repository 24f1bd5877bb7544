/** The coordinator: global failover and reconcile, one job at a time under one lock. */
module Coordination {
  import opened Basics
  import opened Domain
  import opened Journals
  import opened Databases
  import opened FailoverPolicy
  import opened Cloudflare
  import opened ManagedDns
  import opened FrpcRuntime
  import opened AppStates
  import opened Pictures
  import opened Reconcile
  import opened Migration
  import opened Commit
  import opened Candidates

  datatype JobResult = Completed | JobFailed | StaleEvent

  // Where a job that is not stale ends.
  datatype JobEnd = Refused | NoCandidate | Tried(ending: Ending)

  // What a survey of candidates has found: the nodes listed, the same with their quarantine marks,
  // and the candidates.
  datatype Findings = Findings(listing: seq<NodeSummary>, marked: seq<NodeSummary>, candidates: seq<NodeSummary>)

  const NOTHING := Findings([], [], [])

  // ---------------------------------------------------------------- the candidates

  /** The listed nodes with their quarantine marks, each taken between two moments; the mark of the
      former active node does not matter. */
  ghost predicate MarkedFrom(listing: seq<NodeSummary>, marked: seq<NodeSummary>, former: string, quarantine: map<string, int>,
                             from: int, to: int)
  {
    && |marked| == |listing|
    && forall i :: 0 <= i < |listing| ==>
         && marked[i] == listing[i].(quarantined := marked[i].quarantined)
         && (marked[i].name != former ==> MarkedRightly(marked[i], quarantine, from, to))
  }

  // A mark says that the quarantine was in force at some moment of the interval.
  ghost predicate MarkedRightly(node: NodeSummary, quarantine: map<string, int>, from: int, to: int) {
    if node.quarantined then node.name in quarantine && quarantine[node.name] > from
    else node.name in quarantine ==> quarantine[node.name] <= to
  }

  predicate Listed(w: World, node: string) {
    exists i :: 0 <= i < |w.nodes| && w.nodes[i].name == node
  }

  // A listed node that may take over from the active one, and is not in quarantine now.
  predicate MayTakeOver(p: Picture, i: nat, former: string)
    requires i < |p.world.nodes|
  {
    var n := p.world.nodes[i];
    n.name != former && IsOnline(n.state) && (AnyWeb(p.plans) ==> n.webSupported) && !Quarantined(p, n.name)
  }

  ghost predicate SomeMayTakeOver(p: Picture, former: string) {
    exists i :: 0 <= i < |p.world.nodes| && MayTakeOver(p, i, former)
  }

  /** What a survey finds: the candidate list of the nodes listed. A provider that answers lists all
      its nodes. */
  ghost predicate FoundBy(a: Picture, b: Picture, former: string, standby: Option<string>, f: Findings) {
    && IsCandidateList(f.candidates, former, standby, f.marked, AnyWeb(a.plans))
    && MarkedFrom(f.listing, f.marked, former, a.quarantine, a.clock, b.clock)
    && (Answering(a.world) ==> f.listing == a.world.nodes)
  }

  ghost predicate Surveyed(a: Picture, b: Picture, former: string, standby: Option<string>, found: bool, f: Findings) {
    && b.clock >= a.clock && Passed(a.(clock := b.clock), b)
    && (found ==> FoundBy(a, b, former, standby, f))
    && (!found ==> f == NOTHING)
    && (Answering(a.world) ==> found)
  }

  // Every candidate of a provider that answers is a listed node, and every node that may take over is
  // a candidate.
  lemma CandidatesListed(a: Picture, b: Picture, former: string, standby: Option<string>, f: Findings)
    requires FoundBy(a, b, former, standby, f) && Answering(a.world)
    ensures forall k :: 0 <= k < |f.candidates| ==> Listed(a.world, f.candidates[k].name)
    ensures forall i :: 0 <= i < |a.world.nodes| && MayTakeOver(a, i, former) ==> HasName(f.candidates, a.world.nodes[i].name)
  {
    CandidateProperties(f.candidates, former, standby, f.marked, AnyWeb(a.plans));
    forall k | 0 <= k < |f.candidates|
      ensures Listed(a.world, f.candidates[k].name)
    {
      assert f.candidates[k] in f.marked;
      var i :| 0 <= i < |f.marked| && f.marked[i] == f.candidates[k];
      assert a.world.nodes[i].name == f.candidates[k].name;
    }
    forall i | 0 <= i < |a.world.nodes| && MayTakeOver(a, i, former)
      ensures HasName(f.candidates, a.world.nodes[i].name)
    {
      assert MarkedRightly(f.marked[i], a.quarantine, a.clock, b.clock);
      assert f.marked[i].name == a.world.nodes[i].name && Eligible(f.marked[i], former, AnyWeb(a.plans));
    }
  }

  // Some enabled plan is for http or https.
  ghost predicate NeedsWeb(plans: seq<TunnelPlan>) {
    exists i :: 0 <= i < |plans| && plans[i].enabled
                && (EqIgnoreCase(plans[i].protocol, "http") || EqIgnoreCase(plans[i].protocol, "https"))
  }

  ghost predicate Fit(node: NodeSummary, former: string, needsWeb: bool) {
    node.name != former && EqIgnoreCase(node.state, "online") && (needsWeb ==> node.webSupported) && !node.quarantined
  }

  /** The candidates are fit nodes of the list, and every fit node has its name among them. */
  lemma CandidatesAreFit(a: Picture, b: Picture, former: string, standby: Option<string>, f: Findings)
    requires FoundBy(a, b, former, standby, f)
    ensures forall k :: 0 <= k < |f.candidates| ==> f.candidates[k] in f.marked && Fit(f.candidates[k], former, NeedsWeb(a.plans))
    ensures forall i :: 0 <= i < |f.marked| && Fit(f.marked[i], former, NeedsWeb(a.plans)) ==> HasName(f.candidates, f.marked[i].name)
  {
    NeedsWebExactly(a.plans);
    CandidateProperties(f.candidates, former, standby, f.marked, AnyWeb(a.plans));
  }

  lemma NeedsWebExactly(plans: seq<TunnelPlan>)
    ensures AnyWeb(plans) <==> NeedsWeb(plans)
  {
    forall i | 0 <= i < |plans|
      ensures IsWeb(plans[i].protocol) <==> EqIgnoreCase(plans[i].protocol, "http") || EqIgnoreCase(plans[i].protocol, "https")
    {
      WebExactly(plans[i].protocol);
    }
  }

  // Before the first candidate: the row names the former node, in phase failover.
  ghost predicate ReadyToSearch(p: Picture, former: string) {
    && p.routing.activeNode == Some(former) && p.routing.phase == Failover
    && (p.watch.job.automatic ==> p.watch.job.condemned == {former})
  }

  lemma SurveyIsSearch(a: Picture, b: Picture, former: string, standby: Option<string>, f: Findings)
    requires ReadyToSearch(a, former) && Surveyed(a, b, former, standby, true, f)
    ensures Searching(b, f.candidates, 0, former)
  {
    CandidateProperties(f.candidates, former, standby, f.marked, AnyWeb(a.plans));
    forall k | 0 <= k < |f.candidates|
      ensures !Quarantined(b, f.candidates[k].name)
    {
      assert f.candidates[k] in f.marked;
      var i :| 0 <= i < |f.marked| && f.marked[i] == f.candidates[k];
      assert MarkedRightly(f.marked[i], a.quarantine, a.clock, b.clock);
    }
  }

  // ---------------------------------------------------------------- promises

  /** Providers answer, hosts are calm, every listed node is welcoming or down, and a manual job can go
      back to the original node. */
  ghost predicate Fair(p: Picture, former: string) {
    && Answering(p.world)
    && (forall node :: Listed(p.world, node) ==> Welcoming(p, node) || Down(p, node))
    && (p.watch.job.automatic || Homely(p, former))
  }

  // Some node that may take over is welcoming.
  ghost predicate WayOpen(p: Picture, former: string) {
    && Fair(p, former)
    && exists i :: 0 <= i < |p.world.nodes| && MayTakeOver(p, i, former) && Welcoming(p, p.world.nodes[i].name)
  }

  // All listed nodes are down.
  ghost predicate WayClosed(p: Picture, former: string) {
    Fair(p, former) && forall node :: Listed(p.world, node) ==> Down(p, node)
  }

  lemma {:induction false} FirstWelcoming(p: Picture, candidates: seq<NodeSummary>, k: nat) returns (at: nat)
    requires k < |candidates| && Welcoming(p, candidates[k].name)
    requires forall j :: 0 <= j < |candidates| ==> Welcoming(p, candidates[j].name) || Down(p, candidates[j].name)
    ensures at <= k && Welcoming(p, candidates[at].name)
    ensures forall j :: 0 <= j < at ==> Down(p, candidates[j].name)
  {
    if j :| 0 <= j < k && !Down(p, candidates[j].name) {
      at := FirstWelcoming(p, candidates, j);
    } else {
      at := k;
    }
  }

  /** An open way leads to the first welcoming candidate. */
  lemma OpenWayIsTaken(a: Picture, b: Picture, former: string, standby: Option<string>, f: Findings)
    requires FoundBy(a, b, former, standby, f) && WayOpen(a, former)
    ensures exists at :: Reachable(a, f.candidates, at, former)
  {
    CandidatesListed(a, b, former, standby, f);
    var i :| 0 <= i < |a.world.nodes| && MayTakeOver(a, i, former) && Welcoming(a, a.world.nodes[i].name);
    var k :| 0 <= k < |f.candidates| && f.candidates[k].name == a.world.nodes[i].name;
    forall j | 0 <= j < |f.candidates|
      ensures Welcoming(a, f.candidates[j].name) || Down(a, f.candidates[j].name)
    {
      assert Listed(a.world, f.candidates[j].name);
    }
    var at := FirstWelcoming(a, f.candidates, k);
    assert Reachable(a, f.candidates, at, former);
  }

  lemma ClosedWayIsPassed(a: Picture, b: Picture, former: string, standby: Option<string>, f: Findings)
    requires FoundBy(a, b, former, standby, f) && WayClosed(a, former)
    ensures Passable(a, f.candidates, |f.candidates|, former)
  {
    CandidatesListed(a, b, former, standby, f);
  }

  // ---------------------------------------------------------------- from one picture to the next

  /** The job has not moved anything yet: only time has passed, and nodes were quarantined. */
  ghost predicate SameStart(a: Picture, b: Picture) {
    && b.world == a.world && b.plans == a.plans && b.routing == a.routing
    && b.tunnels == a.tunnels && b.zone == a.zone && b.mishaps == a.mishaps
    && b.runtime.external >= a.runtime.external && b.runtime.configFile == a.runtime.configFile
    && b.watch.job == a.watch.job
    && QuarantineGrows(a, b) && (forall n :: n !in a.watch.job.condemned ==> SameEntry(a, b, n))
  }

  // What the loop did since `b` it did since `a`.
  lemma LoopEndedSince(a: Picture, b: Picture, c: Picture, candidates: seq<NodeSummary>, former: string, e: Ending)
    requires SameStart(a, b) && LoopEnded(b, c, candidates, former, e)
    ensures LoopEnded(a, c, candidates, former, e)
  {
    CarriedSince(a, b, c);
    if e.GaveUp? && e.why.NoneLeft? {
      FaultySince(a, b, c, NameSet(candidates, |candidates|));
    } else if e.GaveUp? && e.why.OriginalLost? {
      FaultySince(a, b, c, NameSet(candidates, e.at + 1));
    } else {
      FaultySince(a, b, c, NameSet(candidates, e.at));
    }
  }

  lemma FaultySince(a: Picture, b: Picture, c: Picture, nodes: set<string>)
    requires SameStart(a, b) && FoundFaulty(b, c, nodes)
    ensures FoundFaulty(a, c, nodes)
  {
    forall n | n !in c.watch.job.condemned
      ensures SameEntry(a, c, n)
    {
      assert SameEntry(a, b, n) && SameEntry(b, c, n);
    }
    forall n | n in nodes
      ensures BarredFor(a, c, n)
    {
      assert BarredFor(b, c, n);
    }
  }

  lemma CarriedSince(a: Picture, b: Picture, c: Picture)
    requires SameStart(a, b) && Carried(b, c)
    ensures Carried(a, c)
  {
  }

  lemma LoopPromisedSince(a: Picture, b: Picture, c: Picture, candidates: seq<NodeSummary>, former: string, e: Ending)
    requires SameStart(a, b) && LoopPromises(b, c, candidates, former, e)
    ensures LoopPromises(a, c, candidates, former, e)
  {
    SameHopes(a, b);
  }

  // Hopes depend on the world, the plans, the tunnels and the zone only.
  lemma SameHopes(a: Picture, b: Picture)
    requires SameStart(a, b)
    ensures forall node :: Welcoming(a, node) == Welcoming(b, node) && Down(a, node) == Down(b, node) && Homely(a, node) == Homely(b, node)
  {
  }

  // ---------------------------------------------------------------- the search

  /** How the search for a new active node since `a` ended. */
  ghost predicate Searched(a: Picture, b: Picture, former: string, standby: Option<string>, f: Findings, end: JobEnd) {
    && !end.Refused?
    && QuarantineGrows(a, b)
    && (end.Tried? <==> f.candidates != [])
    && (end.Tried? || Answering(a.world) ==> FoundBy(a, b, former, standby, f))
    && (end.NoCandidate? ==> NotStarted(a, b))
    && (end.Tried? ==>
          LoopEnded(a, b, f.candidates, former, end.ending) && LoopPromises(a, b, f.candidates, former, end.ending))
  }

  // No candidate: nothing was moved. An automatic job had stopped FRPC before.
  ghost predicate NotStarted(a: Picture, b: Picture) {
    && SameStart(a, b.(routing := a.routing))
    && b.routing == a.routing.(phase := if a.watch.job.automatic then Failover else Idle)
    && (a.watch.job.automatic && b.runtime.external == a.runtime.external ==> !b.runtime.running)
  }

  lemma SearchedAfterSurvey(a: Picture, b: Picture, c: Picture, former: string, standby: Option<string>, found: bool, f: Findings,
                            ending: Ending)
    requires Surveyed(a, b, former, standby, found, f) && f.candidates != []
    requires LoopEnded(b, c, f.candidates, former, ending) && LoopPromises(b, c, f.candidates, former, ending)
    ensures Searched(a, c, former, standby, f, Tried(ending))
  {
    LoopEndedSince(a, b, c, f.candidates, former, ending);
    LoopPromisedSince(a, b, c, f.candidates, former, ending);
  }

  /** The picture of a job that has started: the routing row in phase failover, and, in an automatic
      job, the former active node condemned. */
  function Engaged(a: Picture, former: string, automatic: bool): Picture {
    a.(routing := a.routing.(phase := Failover), watch := a.watch.(job := JobInfo(automatic, if automatic then {former} else {}, [], {})))
  }

  // The former active node may have been quarantined; nothing else has happened.
  ghost predicate Begun(a: Picture, b: Picture, former: string) {
    && SameStart(a, b)
    && (if a.watch.job.automatic
        then BarredFor(a, b, former) && b.quarantine == a.quarantine[former := b.quarantine[former]] && !b.runtime.running
        else b.quarantine == a.quarantine)
  }

  lemma SearchedSince(a: Picture, b: Picture, c: Picture, former: string, standby: Option<string>, f: Findings, end: JobEnd)
    requires Begun(a, b, former) && Searched(b, c, former, standby, f, end)
    ensures Searched(a, c, former, standby, f, end)
  {
    if end.Tried? || Answering(a.world) {
      FoundSince(a, b, c, former, standby, f);
    }
    if end.Tried? {
      LoopEndedSince(a, b, c, f.candidates, former, end.ending);
      LoopPromisedSince(a, b, c, f.candidates, former, end.ending);
    }
  }

  lemma FoundSince(a: Picture, b: Picture, c: Picture, former: string, standby: Option<string>, f: Findings)
    requires Begun(a, b, former) && FoundBy(b, c, former, standby, f)
    ensures FoundBy(a, c, former, standby, f)
  {
    forall i | 0 <= i < |f.listing| && f.marked[i].name != former
      ensures MarkedRightly(f.marked[i], a.quarantine, a.clock, c.clock)
    {
      assert MarkedRightly(f.marked[i], b.quarantine, b.clock, c.clock);
    }
  }

  // ---------------------------------------------------------------- how a job ends

  /** Success: active, phase, tunnels, config file and DNS all agree on the target, and its runtime was
      seen ready in the job's last call. */
  ghost predicate SwitchedOver(a: Picture, b: Picture, r: JobResult, former: string, target: string) {
    && r.Completed? && b.routing.phase == Idle
    && CommittedTo(a, b, target, former, b.routing.standbyNode) && Published(b, a.Wanted(), target)
  }

  /** Committed, but DNS is not converged: everything else agrees on the target. */
  ghost predicate Degraded(a: Picture, b: Picture, r: JobResult, former: string, target: string) {
    r.JobFailed? && b.routing.phase == DegradedDns && CommittedTo(a, b, target, former, b.routing.standbyNode)
  }

  // Unless somebody used the runtime's API meanwhile, FRPC does not run.
  predicate LeftStopped(a: Picture, b: Picture) {
    b.runtime.external == a.runtime.external ==> !b.runtime.running
  }

  /** An automatic job that committed nothing: the faulty node keeps the routing row but is
      quarantined, FRPC is stopped, no record was changed, and the planned tunnels are still on one
      node. */
  ghost predicate HaltedOn(a: Picture, b: Picture, r: JobResult, former: string) {
    && r.JobFailed?
    && b.routing == a.routing.(phase := Failed)
    && BarredFor(a, b, former)
    && b.zone == a.zone && StayTogether(a, b)
    && LeftStopped(a, b)
  }

  /** A manual job that committed nothing: idle, because no candidate was tried or because the
      original node converged again; else failed with FRPC stopped. */
  ghost predicate BackOn(a: Picture, b: Picture, r: JobResult, former: string, tried: bool) {
    && r.JobFailed?
    && b.routing == a.routing.(phase := b.routing.phase)
    && (if b.routing.phase == Failed then tried && LeftStopped(a, b)
        else if tried then a.Wanted() != [] && Converged(b, a.Wanted(), former)
        else b.routing.phase == Idle && b.tunnels == a.tunnels && b.zone == a.zone)
  }

  /** The four ways in which a job that passes the enabled and active checks ends. */
  ghost predicate JobOutcome(a: Picture, b: Picture, r: JobResult, candidates: seq<NodeSummary>, former: string, end: JobEnd) {
    match end
    case Refused => false
    case Tried(Switched(at)) => at < |candidates| && SwitchedOver(a, b, r, former, candidates[at].name)
    case Tried(DnsPending(at)) => at < |candidates| && Degraded(a, b, r, former, candidates[at].name)
    case _ => if a.watch.job.automatic then HaltedOn(a, b, r, former) else BackOn(a, b, r, former, end.Tried?)
  }

  // The number of conditions that hold.
  function Count(a: bool, b: bool, c: bool, d: bool): nat {
    (if a then 1 else 0) + (if b then 1 else 0) + (if c then 1 else 0) + (if d then 1 else 0)
  }

  /** Exactly one of the four endings applies, and only the first two move the active node. */
  lemma OneOutcome(a: Picture, b: Picture, r: JobResult, candidates: seq<NodeSummary>, former: string, end: JobEnd)
    requires a.routing.activeNode == Some(former) && JobOutcome(a, b, r, candidates, former, end)
    ensures Count(exists t :: SwitchedOver(a, b, r, former, t), exists t :: Degraded(a, b, r, former, t),
                  a.watch.job.automatic && HaltedOn(a, b, r, former),
                  !a.watch.job.automatic && BackOn(a, b, r, former, end.Tried?)) == 1
    ensures b.routing.activeNode != Some(former) <==>
            (exists t :: SwitchedOver(a, b, r, former, t)) || (exists t :: Degraded(a, b, r, former, t))
    ensures r.Completed? <==> exists t :: SwitchedOver(a, b, r, former, t)
  {
    if end.Tried? && end.ending.Switched? {
      assert SwitchedOver(a, b, r, former, candidates[end.ending.at].name);
    } else if end.Tried? && end.ending.DnsPending? {
      assert Degraded(a, b, r, former, candidates[end.ending.at].name);
    }
  }

  /** The candidates tried are those up to the one where the job ended, in order. All before it failed
      themselves and are quarantined; so did the last one when the original node was lost or no
      candidate was left. The committed row names the next candidate as standby, or, in a manual job,
      the former active node. */
  ghost predicate Trail(a: Picture, b: Picture, candidates: seq<NodeSummary>, former: string, e: Ending) {
    && (if e.GaveUp? && e.why.NoneLeft? then e.at == |candidates| else e.at < |candidates|)
    && (var tried := if e.at < |candidates| then e.at + 1 else e.at;
        var failed := if e.GaveUp? && e.why.OriginalLost? then e.at + 1 else e.at;
        && b.watch.job.attempts == NamesUpTo(candidates, tried)
        && FoundFaulty(a, b, NameSet(candidates, failed)))
    && (e.GaveUp? && e.why.OriginalLost? ==>
          !a.watch.job.automatic && e.at + 1 < |candidates| && b.routing.phase == Failed)
    && (!e.GaveUp? ==> b.routing.standbyNode == StandbyFor(candidates, e.at, former, a.watch.job.automatic))
  }

  /** What could be known beforehand: the first welcoming candidate behind some that are down is
      taken, and when all listed nodes are down a manual job ends idle on the original node. */
  ghost predicate JobPromises(a: Picture, b: Picture, f: Findings, former: string, end: JobEnd) {
    && (WayOpen(a, former) ==> end.Tried? && end.ending.Switched?)
    && (WayClosed(a, former) ==>
          && (end.Tried? ==> end.ending == GaveUp(|f.candidates|, NoneLeft))
          && (!a.watch.job.automatic ==> b.routing.phase == Idle))
    && (end.Tried? ==> LoopPromises(a, b, f.candidates, former, end.ending))
    && (Answering(a.world) && SomeMayTakeOver(a, former) ==> end.Tried?)
  }

  /** A job that was neither stale nor refused: tunnels and records outside the plans are untouched,
      quarantine only grows, and the job ends in one of the four ways. */
  ghost predicate GlobalJob(a: Picture, b: Picture, f: Findings, former: string, r: JobResult, end: JobEnd) {
    && Carried(a, b)
    && (a.watch.job.automatic ==> BarredFor(a, b, former))
    && (forall n :: n !in b.watch.job.condemned ==> SameEntry(a, b, n))
    && JobOutcome(a, b, r, f.candidates, former, end)
    && (end.Tried? ==>
          && FoundBy(a, b, former, a.routing.standbyNode, f)
          && Trail(a, b, f.candidates, former, end.ending))
    && JobPromises(a, b, f, former, end)
  }

  // The end of a job: a failure is marked in the routing row.
  ghost predicate Closed(a: Picture, b: Picture, ok: bool) {
    && b == a.(runtime := b.runtime, routing := if ok then a.routing else a.routing.(phase := FailedPhase(a.routing.phase)))
    && Elapsed(a.world.calm, a.runtime, b.runtime)
  }

  lemma ClosedStanding(a: Picture, b: Picture, ok: bool, plans: seq<TunnelPlan>, node: string)
    requires Closed(a, b, ok) && Standing(a, plans, node)
    ensures Standing(b, plans, node)
  {
    StandingIgnoresRouting(a, a.(routing := b.routing), plans, node);
    StandingPasses(a.(routing := b.routing), b, plans, node);
  }

  lemma CommittedWhenClosed(a: Picture, b: Picture, c: Picture, candidates: seq<NodeSummary>, former: string, e: Ending)
    requires EndedAt(a, b, candidates, former, e) && !e.GaveUp? && Closed(b, c, e.Switched?)
    ensures JobOutcome(a, c, if e.Switched? then Completed else JobFailed, candidates, former, Tried(e))
  {
    ClosedStanding(b, c, e.Switched?, a.Wanted(), candidates[e.at].name);
  }

  lemma KeptWhenClosed(a: Picture, b: Picture, c: Picture, candidates: seq<NodeSummary>, former: string, e: Ending)
    requires KeptBy(a, b, former) && Carried(a, b) && e.GaveUp? && Closed(b, c, false)
    requires a.watch.job.automatic ==> BarredFor(a, b, former)
    ensures JobOutcome(a, c, JobFailed, candidates, former, Tried(e))
  {
    if !a.watch.job.automatic && b.routing.phase == Idle {
      ClosedStanding(b, c, false, a.Wanted(), former);
    }
  }

  lemma OutcomeWhenClosed(a: Picture, b: Picture, c: Picture, candidates: seq<NodeSummary>, former: string, e: Ending)
    requires LoopEnded(a, b, candidates, former, e) && Closed(b, c, e.Switched?)
    requires a.routing.phase == Failover && (a.watch.job.automatic ==> BarredFor(a, b, former))
    ensures JobOutcome(a, c, if e.Switched? then Completed else JobFailed, candidates, former, Tried(e))
  {
    if !e.GaveUp? {
      CommittedWhenClosed(a, b, c, candidates, former, e);
    } else if !e.why.OriginalLost? {
      KeptWhenClosed(a, b, c, candidates, former, e);
    }
  }

  lemma TrailWhenClosed(a: Picture, b: Picture, c: Picture, candidates: seq<NodeSummary>, former: string, e: Ending)
    requires LoopEnded(a, b, candidates, former, e) && Closed(b, c, e.Switched?)
    requires a.routing.phase == Failover && a.watch.job.attempts == [] && a.watch.job.blamed == {}
    ensures Trail(a, c, candidates, former, e)
  {
    var failed := if e.GaveUp? && e.why.OriginalLost? then e.at + 1 else e.at;
    FaultyWhenClosed(a, b, c, e.Switched?, NameSet(candidates, failed));
  }

  lemma FaultyWhenClosed(a: Picture, b: Picture, c: Picture, ok: bool, nodes: set<string>)
    requires FoundFaulty(a, b, nodes) && Closed(b, c, ok)
    ensures FoundFaulty(a, c, nodes)
  {
    forall n | n in nodes
      ensures BarredFor(a, c, n)
    {
      assert BarredFor(a, b, n);
    }
    forall n | n !in c.watch.job.condemned
      ensures SameEntry(a, c, n)
    {
      assert SameEntry(a, b, n);
    }
  }

  lemma PromisesKept(a: Picture, b: Picture, f: Findings, former: string, standby: Option<string>, end: JobEnd)
    requires Searched(a, b, former, standby, f, end) && a.routing.phase == Failover
    ensures JobPromises(a, b, f, former, end)
  {
    if WayOpen(a, former) {
      OpenWayIsTaken(a, b, former, standby, f);
    }
    if WayClosed(a, former) {
      ClosedWayIsPassed(a, b, former, standby, f);
    }
    if Answering(a.world) && SomeMayTakeOver(a, former) {
      CandidatesListed(a, b, former, standby, f);
    }
  }

  lemma PromisesWhenClosed(a: Picture, b: Picture, c: Picture, f: Findings, former: string, end: JobEnd)
    requires JobPromises(a, b, f, former, end) && Closed(b, c, end.Tried? && end.ending.Switched?)
    ensures JobPromises(a, c, f, former, end)
  {
  }

  lemma NotStartedWhenClosed(a: Picture, b: Picture, c: Picture, f: Findings, former: string)
    requires NotStarted(a, b) && Closed(b, c, false)
    requires a.routing.phase == Failover && (a.watch.job.automatic ==> BarredFor(a, b, former))
    ensures Carried(a, c) && JobOutcome(a, c, JobFailed, f.candidates, former, NoCandidate)
  {
  }

  /** The job in steps: the search, and what follows it. */
  lemma JobInSteps(a: Picture, b: Picture, c: Picture, f: Findings, former: string, end: JobEnd)
    requires a.routing.phase == Failover && a.watch.job.attempts == [] && a.watch.job.blamed == {}
    requires Searched(a, b, former, a.routing.standbyNode, f, end)
    requires a.watch.job.automatic ==> BarredFor(a, b, former)
    requires Closed(b, c, end.Tried? && end.ending.Switched?)
    ensures GlobalJob(a, c, f, former, if end.Tried? && end.ending.Switched? then Completed else JobFailed, end)
  {
    PromisesKept(a, b, f, former, a.routing.standbyNode, end);
    PromisesWhenClosed(a, b, c, f, former, end);
    if end.Tried? {
      OutcomeWhenClosed(a, b, c, f.candidates, former, end.ending);
      TrailWhenClosed(a, b, c, f.candidates, former, end.ending);
    } else {
      NotStartedWhenClosed(a, b, c, f, former);
    }
  }

  // ---------------------------------------------------------------- DNS after a success

  /** After a success, each managed domain has exactly one A record, at the target's address, if and
      only if before the job it had at most one, spelled like the domain. */
  lemma SwitchedOverDns(a: Picture, b: Picture, r: JobResult, former: string, target: string)
    requires WellFormedPlans(a.plans) && Carried(a, b) && SwitchedOver(a, b, r, former, target)
    requires AnyDns(a.Wanted())
    ensures DnsConverged(b, a.Wanted(), target) <==> NoConflict(a.zone, a.Wanted()) && LookupIsSound(a.zone, a.Wanted(), false)
  {
    if NoConflict(b.zone, a.Wanted()) {
      FoundExactlyIsServed(b.zone, a.Wanted(), b.watch.stage.probe.value.ip);
      UniqueSinceStart(a.zone, b.zone, a.Wanted(), b.watch.stage.probe.value.ip);
    }
  }

  lemma FoundExactlyIsServed(zone: Zone, plans: seq<TunnelPlan>, ip: string)
    requires NoConflict(zone, plans) && AllAt(zone, plans, ip, false)
    ensures AllServedAt(zone, plans, ip)
  {
    forall i | 0 <= i < |plans| && plans[i].dnsManaged
      ensures ServedAt(zone, plans[i].domain, ip)
    {
      assert HeldAt(zone, plans[i].domain, ip, false);
      var id :| Found(zone, id, plans[i].domain, false) && zone[id].content == ip;
      assert Serves(zone, id, plans[i].domain);
    }
  }

  // A second record that the exact lookup did not find would still be there.
  lemma UniqueSinceStart(before: Zone, after: Zone, plans: seq<TunnelPlan>, ip: string)
    requires ZoneFramed(before, after, plans)
    requires NoConflict(after, plans) && AllAt(after, plans, ip, false)
    ensures NoConflict(before, plans) && LookupIsSound(before, plans, false)
  {
    forall i, id | 0 <= i < |plans| && plans[i].dnsManaged && Serves(before, id, plans[i].domain)
      ensures Serves(after, id, plans[i].domain) && before[id].name == plans[i].domain
    {
      assert HeldAt(after, plans[i].domain, ip, false);
      var held :| Found(after, held, plans[i].domain, false) && after[held].content == ip;
      assert Serves(after, held, plans[i].domain) && Serves(after, id, plans[i].domain);
      assert AtMostOne(after, plans[i].domain);
    }
  }

  // ---------------------------------------------------------------- the start of a job

  // The job is on record; until it reads the routing row, time passes.
  ghost predicate JobOpened(a: Picture, b: Picture, automatic: bool) {
    && b == a.(runtime := b.runtime, watch := Step(a.watch, JobStarted(automatic)))
    && Elapsed(a.world.calm, a.runtime, b.runtime)
  }

  lemma BegunSinceOpened(a: Picture, b: Picture, c: Picture, former: string, automatic: bool)
    requires JobOpened(a, b, automatic) && Begun(Engaged(b, former, automatic), c, former)
    ensures Begun(Engaged(a, former, automatic), c, former)
  {
  }

  /** The active node is quarantined and FRPC does not run. */
  ghost predicate ActiveCondemned(a: Picture, b: Picture, former: string, faultGeneration: nat) {
    && b == a.(quarantine := b.quarantine, clock := b.clock, runtime := b.runtime, watch := b.watch)
    && b.clock >= a.clock && BarredFor(a, b, former) && b.quarantine == a.quarantine[former := b.quarantine[former]]
    && !b.runtime.running && b.runtime.external >= a.runtime.external && b.runtime.configFile == a.runtime.configFile
    && b.watch.job == a.watch.job.(condemned := a.watch.job.condemned + {former})
    && b.watch.lastFault == faultGeneration
  }

  ghost predicate Barred(a: Picture, b: Picture, former: string) {
    && b == a.(quarantine := b.quarantine, clock := b.clock, runtime := b.runtime, watch := b.watch)
    && b.clock >= a.clock && BarredFor(a, b, former) && b.quarantine == a.quarantine[former := b.quarantine[former]]
    && Elapsed(a.world.calm, a.runtime, b.runtime) && SameHistory(b.watch, a.watch)
  }

  // The routing row of a refused job, or of one whose event is stale.
  ghost predicate NothingDone(a: Picture, b: Picture, r: JobResult, automatic: bool) {
    if r.StaleEvent? then b == a
    else
      && r.JobFailed?
      && b == a.(routing := a.routing.(phase := FailedPhase(a.routing.phase)), runtime := b.runtime,
                 watch := Step(a.watch, JobStarted(automatic)))
      && Elapsed(a.world.calm, a.runtime, b.runtime)
  }

  // Automatic failover is off, or there is no active node.
  predicate RefusedFor(routing: RoutingState, automatic: bool) {
    (automatic && !routing.failoverEnabled) || routing.activeNode.None?
  }

  /** A failover: an event of an older FRPC generation changes nothing at all; a refused job changes at
      most the phase; any other ends in one of the four ways. */
  ghost predicate FailedOver(a: Picture, b: Picture, automatic: bool, r: JobResult, f: Findings, end: JobEnd) {
    && (r.StaleEvent? ==> end.Refused?)
    && (end.Refused? ==> NothingDone(a, b, r, automatic))
    && (!r.StaleEvent? ==> (end.Refused? <==> RefusedFor(a.routing, automatic)))
    && (!end.Refused? ==> GlobalJob(Engaged(a, a.routing.activeNode.value, automatic), b, f, a.routing.activeNode.value, r, end))
  }

  lemma RefusedIsFailedOver(a: Picture, b: Picture, c: Picture, automatic: bool, f: Findings)
    requires RefusedFor(a.routing, automatic) && JobOpened(a, b, automatic) && Closed(b, c, false)
    ensures FailedOver(a, c, automatic, JobFailed, f, Refused)
  {
  }

  lemma JobIsFailedOver(a: Picture, b: Picture, c: Picture, automatic: bool, f: Findings, end: JobEnd)
    requires !RefusedFor(a.routing, automatic) && !end.Refused?
    requires var former := a.routing.activeNode.value;
             && Searched(Engaged(a, former, automatic), b, former, a.routing.standbyNode, f, end)
             && (automatic ==> BarredFor(a, b, former))
    requires Closed(b, c, end.Tried? && end.ending.Switched?)
    ensures FailedOver(a, c, automatic, if end.Tried? && end.ending.Switched? then Completed else JobFailed, f, end)
  {
    JobInSteps(Engaged(a, a.routing.activeNode.value, automatic), b, c, f, a.routing.activeNode.value, end);
  }

  class Coordinator {
    const state: AppState
    var failoverJob: Option<int>

    constructor (state: AppState)
      ensures this.state == state && failoverJob == None
    {
      this.state := state;
      failoverJob := None;
    }

    // Marks the nodes that are in quarantine now.
    method WithQuarantine(nodes: seq<NodeSummary>) returns (marked: seq<NodeSummary>)
      modifies state.db`clock
      ensures state.db.clock >= old(state.db.clock)
      ensures |marked| == |nodes|
      ensures forall i :: 0 <= i < |nodes| ==>
                && marked[i] == nodes[i].(quarantined := marked[i].quarantined)
                && MarkedRightly(marked[i], state.db.quarantine, old(state.db.clock), state.db.clock)
    {
      marked := [];
      for k := 0 to |nodes|
        invariant state.db.clock >= old(state.db.clock)
        invariant |marked| == k
        invariant forall i :: 0 <= i < k ==>
                    && marked[i] == nodes[i].(quarantined := marked[i].quarantined)
                    && MarkedRightly(marked[i], state.db.quarantine, old(state.db.clock), state.db.clock)
      {
        var until := state.db.QuarantineUntil(nodes[k].name);
        marked := marked + [nodes[k].(quarantined := until.Some?)];
      }
    }

    /** Candidates for the switch: eligible nodes other than the active one, standby first. */
    method FindCandidates(former: string, standby: Option<string>) returns (candidates: Option<seq<NodeSummary>>, ghost f: Findings)
      requires state.journal.Valid()
      modifies state.db`clock
      ensures state.db.clock >= old(state.db.clock)
      ensures candidates.None? ==> f == NOTHING
      ensures candidates.Some? ==> f.candidates == candidates.value && FoundBy(old(Pic(state)), Pic(state), former, standby, f)
      ensures Answering(WorldOf(state)) ==> candidates.Some?
    {
      f := NOTHING;
      var requireWeb := AnyWeb(state.db.plans);
      var nodes := state.chml.ListNodes();
      if nodes.None? {
        return None, f;
      }
      var marked := WithQuarantine(nodes.value);
      var out := OrderedCandidates(former, standby, marked, requireWeb);
      f := Findings(nodes.value, marked, out);
      return Some(out), f;
    }

    // The runtime while the provider is asked, and the candidates.
    method Survey(former: string, standby: Option<string>) returns (candidates: Option<seq<NodeSummary>>, ghost f: Findings)
      requires state.Valid()
      modifies state.db`clock, state.frpc
      ensures state.Valid()
      ensures Surveyed(old(Pic(state)), Pic(state), former, standby, candidates.Some?, f)
      ensures candidates.Some? ==> candidates.value == f.candidates
    {
      LetTimePass(state);
      candidates, f := FindCandidates(former, standby);
    }

    // Its address is looked up for the record, and it is quarantined.
    method BarActive(former: string)
      requires state.Valid()
      modifies state.db`quarantine, state.db`clock, state.frpc, state.journal
      ensures state.Valid()
      ensures Barred(old(Pic(state)), Pic(state), former)
    {
      LookUpActive(former);
      state.db.QuarantineNode(former, state.db.routing.quarantineDays);
    }

    method LookUpActive(former: string)
      requires state.Valid()
      modifies state.frpc, state.journal
      ensures state.Valid()
      ensures Passed(old(Pic(state)).(watch := state.journal.Now()), Pic(state))
      ensures SameHistory(state.journal.Now(), old(state.journal.Now()))
    {
      var _ := state.chml.NodeInfo(former);
      LetTimePass(state);
    }

    /** A confirmed node failure: the active node is quarantined and FRPC is stopped before anything
        else, so that the known-bad node serves no more. */
    method CondemnActive(former: string, faultGeneration: nat)
      requires state.Valid()
      requires state.journal.Now().lastFault < faultGeneration <= state.frpc.generation
      modifies state.db`quarantine, state.db`clock, state.frpc, state.journal
      ensures state.Valid()
      ensures ActiveCondemned(old(Pic(state)), Pic(state), former, faultGeneration)
    {
      BarActive(former);
      StopFaulty(former, faultGeneration);
    }

    method StopFaulty(former: string, faultGeneration: nat)
      requires state.Valid()
      requires state.journal.Now().lastFault < faultGeneration <= state.frpc.generation
      modifies state.frpc`generation, state.frpc`child, state.frpc`running, state.frpc`connected, state.journal
      ensures state.Valid()
      ensures var a := old(Pic(state));
              Pic(state) == Stopped(a.(watch := Step(a.watch, ActiveQuarantined(former, faultGeneration))))
    {
      Accuse(former, faultGeneration);
      StopRuntime(state);
    }

    ghost method Accuse(former: string, faultGeneration: nat)
      requires state.Valid()
      requires state.journal.Now().lastFault < faultGeneration <= state.frpc.generation
      modifies state.journal
      ensures state.Sound()
      ensures var a := old(Pic(state)); Pic(state) == a.(watch := Step(a.watch, ActiveQuarantined(former, faultGeneration)))
    {
      state.journal.Record(ActiveQuarantined(former, faultGeneration));
    }

    // The routing row of an accepted job, and the fault of an automatic one.
    method Begin(former: string, trigger: Option<FrpcEvent>, ghost a: Picture)
      requires state.Valid() && state.db.routing.activeNode == Some(former)
      requires trigger.Some? ==> state.journal.Now().lastFault < trigger.value.generation <= state.frpc.generation
      requires JobOpened(a, Pic(state), trigger.Some?)
      modifies state.db`routing, state.db`quarantine, state.db`clock, state.frpc, state.journal
      ensures state.Valid()
      ensures Begun(Engaged(a, former, trigger.Some?), Pic(state), former)
    {
      ghost var b := Pic(state);
      SetPhase(state, Failover);
      if trigger.Some? {
        CondemnActive(former, trigger.value.generation);
      }
      BegunSinceOpened(a, b, Pic(state), former, trigger.Some?);
    }

    /** The part of a job after its checks: find candidates and try them. */
    method Switch(former: string, standby: Option<string>, automatic: bool) returns (ok: bool, ghost f: Findings, ghost end: JobEnd)
      requires state.Valid() && ReadyToSearch(Pic(state), former) && state.journal.Now().job.automatic == automatic
      requires automatic ==> !state.frpc.running
      modifies state.db`routing, state.db`recordIds, state.db`revisions, state.db`lastRevision, state.db`quarantine, state.db`clock
      modifies state.chml`tunnels, state.chml`mishaps, state.cf`zone, state.frpc, state.journal
      ensures state.Valid()
      ensures ok <==> end.Tried? && end.ending.Switched?
      ensures Searched(old(Pic(state)), Pic(state), former, standby, f, end) && SameEntry(old(Pic(state)), Pic(state), former)
    {
      ghost var a := Pic(state);
      var candidates;
      candidates, f := Survey(former, standby);
      ghost var b := Pic(state);
      if candidates.None? || candidates.value == [] {
        if !automatic {
          SetPhase(state, Idle);
        }
        ok, end := false, NoCandidate;
      } else {
        SurveyIsSearch(a, b, former, standby, f);
        var ending := TryCandidates(state, candidates.value, former, automatic);
        ok, end := ending.Switched?, Tried(ending);
        SearchedAfterSurvey(a, b, Pic(state), former, standby, true, f, ending);
      }
    }

    /** `run_global_failover`, in a job opened at picture `a`. */
    method RunGlobalFailover(trigger: Option<FrpcEvent>, ghost a: Picture) returns (ok: bool, ghost f: Findings, ghost end: JobEnd)
      requires state.Valid() && JobOpened(a, Pic(state), trigger.Some?)
      requires trigger.Some? ==> state.journal.Now().lastFault < trigger.value.generation <= state.frpc.generation
      modifies state.db`routing, state.db`recordIds, state.db`revisions, state.db`lastRevision, state.db`quarantine, state.db`clock
      modifies state.chml`tunnels, state.chml`mishaps, state.cf`zone, state.frpc, state.journal
      ensures state.Valid()
      ensures ok <==> end.Tried? && end.ending.Switched?
      ensures end.Refused? <==> RefusedFor(a.routing, trigger.Some?)
      ensures end.Refused? ==> Pic(state) == old(Pic(state))
      ensures !end.Refused? ==>
                var former := a.routing.activeNode.value;
                && Searched(Engaged(a, former, trigger.Some?), Pic(state), former, a.routing.standbyNode, f, end)
                && (trigger.Some? ==> BarredFor(a, Pic(state), former))
    {
      ok, f, end := false, NOTHING, Refused;
      var routing := state.db.routing;
      if (!trigger.Some? || routing.failoverEnabled) && routing.activeNode.Some? {
        var former := routing.activeNode.value;
        Begin(former, trigger, a);
        ghost var b := Pic(state);
        ok, f, end := Switch(former, routing.standbyNode, trigger.Some?);
        SearchedSince(Engaged(a, former, trigger.Some?), b, Pic(state), former, routing.standbyNode, f, end);
        if trigger.Some? {
          BarStays(a, b, Pic(state), former);
        }
      }
    }

    // The journal entry of a job, and what may happen before it reads the routing row.
    method OpenJob(automatic: bool)
      requires state.Valid()
      modifies state.frpc, state.journal
      ensures state.Valid()
      ensures JobOpened(old(Pic(state)), Pic(state), automatic)
    {
      state.journal.Record(JobStarted(automatic));
      LetTimePass(state);
    }

    // The routing row of a failed job, and what may happen before the job is over.
    method CloseJob(ok: bool)
      requires state.Valid()
      modifies state.db`routing, state.frpc
      ensures state.Valid()
      ensures Closed(old(Pic(state)), Pic(state), ok)
    {
      if !ok {
        state.db.MarkRoutingFailed();
      }
      LetTimePass(state);
    }

    // A job that is not stale.
    method AcceptedJob(trigger: Option<FrpcEvent>) returns (r: JobResult, ghost f: Findings, ghost end: JobEnd)
      requires state.Valid()
      requires trigger.Some? ==> state.journal.Now().lastFault < trigger.value.generation <= state.frpc.generation
      modifies state.db`routing, state.db`recordIds, state.db`revisions, state.db`lastRevision, state.db`quarantine, state.db`clock
      modifies state.chml`tunnels, state.chml`mishaps, state.cf`zone, state.frpc, state.journal
      ensures state.Valid()
      ensures !r.StaleEvent? && FailedOver(old(Pic(state)), Pic(state), trigger.Some?, r, f, end)
    {
      ghost var a := Pic(state);
      OpenJob(trigger.Some?);
      var ok;
      ok, f, end := RunGlobalFailover(trigger, a);
      ghost var b := Pic(state);
      CloseJob(ok);
      r := if ok then Completed else JobFailed;
      if end.Refused? {
        RefusedIsFailedOver(a, b, Pic(state), trigger.Some?, f);
      } else {
        JobIsFailedOver(a, b, Pic(state), trigger.Some?, f, end);
      }
    }

    /** The locked part of a failover. */
    method GlobalFailoverLocked(trigger: Option<FrpcEvent>) returns (r: JobResult, ghost f: Findings, ghost end: JobEnd)
      requires state.Valid() && failoverJob == None
      requires trigger.Some? ==> trigger.value.generation <= state.frpc.generation
      modifies this`failoverJob
      modifies state.db`routing, state.db`recordIds, state.db`revisions, state.db`lastRevision, state.db`quarantine, state.db`clock
      modifies state.chml`tunnels, state.chml`mishaps, state.cf`zone, state.frpc, state.journal
      ensures state.Valid() && failoverJob == None
      ensures r.StaleEvent? <==> trigger.Some? && trigger.value.generation != old(state.frpc.generation)
      ensures FailedOver(old(Pic(state)), Pic(state), trigger.Some?, r, f, end)
    {
      if trigger.Some? && trigger.value.generation != state.frpc.generation {
        r, f, end := StaleEvent, NOTHING, Refused;
      } else {
        var job: int := *;          // a fresh UUID
        failoverJob := Some(job);
        r, f, end := AcceptedJob(trigger);
        failoverJob := None;
      }
    }

    /** An automatic fault waits for the lock; a stale one is ignored then. */
    method QueuedGlobalFailover(event: FrpcEvent) returns (r: JobResult, ghost f: Findings, ghost end: JobEnd)
      requires state.Valid() && failoverJob == None
      requires event.generation <= state.frpc.generation
      modifies this`failoverJob
      modifies state.db`routing, state.db`recordIds, state.db`revisions, state.db`lastRevision, state.db`quarantine, state.db`clock
      modifies state.chml`tunnels, state.chml`mishaps, state.cf`zone, state.frpc, state.journal
      ensures state.Valid() && failoverJob == None
      ensures r.StaleEvent? <==> event.generation != old(state.frpc.generation)
      ensures FailedOver(old(Pic(state)), Pic(state), true, r, f, end)
    {
      if event.generation != state.frpc.generation {
        r, f, end := StaleEvent, NOTHING, Refused;
      } else {
        r, f, end := GlobalFailoverLocked(Some(event));
      }
    }

    /** An ambiguous network fault becomes a node fault only for the current generation, and only on a
        lookup of the active node, made now, that answers not online. */
    method ConfirmAmbiguousNetworkFault(event: FrpcEvent) returns (confirmed: Option<FrpcEvent>)
      requires state.Valid()
      modifies state.frpc, state.journal
      ensures state.Valid()
      ensures Passed(old(Pic(state)).(watch := state.journal.Now()), Pic(state))
      ensures confirmed.Some? ==>
                && event.generation == old(state.frpc.generation)
                && confirmed.value == event.(eventType := ServerConnectionFailure, faultDomain := NodeFault, triggersFailover := true)
                && |state.journal.trace| == |old(state.journal.trace)| + 1
                && var last := state.journal.trace[|state.journal.trace| - 1];
                   last.Probed? && Some(last.node) == state.db.routing.activeNode && !IsOnline(last.state)
      ensures Answering(WorldOf(state)) && event.generation == old(state.frpc.generation) && state.db.routing.activeNode.Some? ==>
                var active := state.db.routing.activeNode.value;
                confirmed.Some? <==> active in state.chml.directory && !IsOnline(state.chml.directory[active].state)
    {
      confirmed := None;
      if event.generation == state.frpc.generation && state.db.routing.activeNode.Some? {
        var info := state.chml.NodeInfo(state.db.routing.activeNode.value);
        LetTimePass(state);
        if info.Some? && !IsOnline(info.value.state) {
          confirmed := Some(event.(eventType := ServerConnectionFailure, faultDomain := NodeFault, triggersFailover := true));
        }
      }
    }

    method Reconcile() returns (ok: bool)
      requires state.Valid()
      modifies state.db`routing, state.db`recordIds, state.db`revisions, state.db`lastRevision
      modifies state.chml`tunnels, state.chml`mishaps, state.cf`zone, state.frpc, state.journal
      ensures state.Valid()
      ensures var a, b := old(Pic(state)), Pic(state);
              if a.routing.activeNode.None? || a.Wanted() == []
              then !ok && b == a.(watch := Step(a.watch, JobStarted(false)))
              else Reconciled(a.(watch := Step(a.watch, JobStarted(false))), b, a.Wanted(), a.routing.activeNode.value, ok)
    {
      state.journal.Record(JobStarted(false));
      ok := ReconcileAll(state);
    }
  }
}

/** The effects of the control plane, in the order they happen, and a monitor that follows them.
    Every store appends to the one journal, so a statement about a journal is a statement about
    whole runs: any number of jobs, with any answers from the providers. */
module Journals {
  import opened Basics
  import opened Domain

  datatype Effect =
    | JobStarted(automatic: bool)
    | MigrationStarted(onto: string)                          // a call of `migrate_to`
    | MigrationEnded
    | ReconcileStarted(around: string)                        // a call of `reconcile_all`
    | Probed(node: string, ip: string, state: string)         // an answered node lookup
    | TunnelChanged(tunnel: string)                           // ChmlFrp update or create
    | PlansVerified(on: string, plans: seq<TunnelPlan>)       // all plans read back on one node
    | ConfigGenerated(madeFor: string, generated: string)     // a config that the provider has returned
    | RevisionSaved(savedRevision: int, forNode: string, savedText: string)
    | ConfigWritten(revision: Option<int>, written: string)
    | RuntimeStopped
    | RuntimeStarted
    | RuntimeReady(names: seq<string>)
    | RuntimeFaulted                                          // a readiness poll saw a node fault
    | RoutingSet(named: Option<string>)                       // the routing form
    | Promoted(target: string)
    | DnsWritten(domain: string, address: string)
    | ActiveQuarantined(failed: string, faultGeneration: nat)
    | CandidateQuarantined(candidate: string)

  datatype Probe = Probe(node: string, ip: string, state: string)
  datatype Checked = Checked(node: string, plans: seq<TunnelPlan>)
  datatype Rendering = Rendering(node: string, text: string)
  datatype SavedConfig = SavedConfig(revision: int, config: Rendering)

  // What the current call has established; nothing survives into the next call.
  datatype Stage = Stage(
    node: Option<string>,
    probe: Option<Probe>,
    verified: Option<Checked>,
    rendered: Option<Rendering>,
    ready: bool,
    faulted: bool,
    published: Option<string>)

  const FRESH := Stage(None, None, None, None, false, false, None)

  // The running job: its mode, the nodes it quarantined, the nodes it called `migrate_to` for, and
  // those of them against which their call ended with evidence.
  datatype JobInfo = JobInfo(automatic: bool, condemned: set<string>, attempts: seq<string>, blamed: set<string>)

  /** What the monitor remembers. `safe` stays true as long as no effect broke a rule. */
  datatype Watch = Watch(
    stage: Stage,
    saved: Option<SavedConfig>,
    configNode: Option<string>,
    active: Option<string>,
    job: JobInfo,
    lastFault: int,
    safe: bool)

  const QUIET := Watch(FRESH, None, None, None, JobInfo(false, {}, [], {}), -1, true)

  // A started runtime of an automatic job runs a config that the provider has generated, in this job,
  // for a node that is neither condemned in it nor the active one.
  predicate StartAllowed(w: Watch) {
    w.job.automatic ==> w.configNode.Some? && MayRun(w, w.configNode.value)
  }

  // An automatic job may load the config of this node.
  predicate MayRun(w: Watch, node: string) {
    w.job.automatic ==> node !in w.job.condemned && w.active != Some(node)
  }

  // The current call is for `node`, and has verified its tunnels and runtime.
  predicate StandsOn(w: Watch, node: string) {
    w.stage.node == Some(node) && w.stage.ready && w.stage.verified.Some? && w.stage.verified.value.node == node
  }

  ghost predicate DnsAllowed(w: Watch, domain: string, ip: string) {
    && w.stage.verified.Some? && w.stage.probe.Some?
    && StandsOn(w, w.stage.verified.value.node)
    && w.stage.probe.value.node == w.stage.verified.value.node && w.stage.probe.value.ip == ip
    && w.active == Some(w.stage.verified.value.node)
    && (w.stage.published.Some? ==> w.stage.published == Some(ip))
    && !IsBlank(ip)
    && Manages(w.stage.verified.value.plans, domain)
  }

  // The current call is for `node` and has evidence against it: a node fault of its runtime, or a
  // latest lookup that answered not online.
  predicate Evidence(w: Watch, node: string) {
    && w.stage.node == Some(node)
    && (w.stage.faulted
        || (w.stage.probe.Some? && w.stage.probe.value.node == node && !IsOnline(w.stage.probe.value.state)))
  }

  // The node of the current call, if the call has evidence against it.
  function Accused(w: Watch): set<string> {
    if w.stage.node.Some? && Evidence(w, w.stage.node.value) then {w.stage.node.value} else {}
  }

  ghost function Step(w: Watch, e: Effect): Watch {
    match e
    case JobStarted(automatic) =>
      w.(stage := FRESH, saved := None, configNode := None, job := JobInfo(automatic, {}, [], {}))
    case MigrationStarted(node) =>
      w.(stage := FRESH.(node := Some(node)), job := w.job.(attempts := w.job.attempts + [node]))
    case MigrationEnded => w.(job := w.job.(blamed := w.job.blamed + Accused(w)))
    case ReconcileStarted(node) => w.(stage := FRESH.(node := Some(node)))
    case Probed(node, ip, state) => w.(stage := w.stage.(probe := Some(Probe(node, ip, state))))
    case TunnelChanged(_) => w.(stage := w.stage.(verified := None, rendered := None, ready := false))
    case PlansVerified(node, plans) => w.(stage := w.stage.(verified := Some(Checked(node, plans)), rendered := None, ready := false))
    case ConfigGenerated(node, text) => w.(stage := w.stage.(rendered := Some(Rendering(node, text))))
    case RevisionSaved(id, node, text) =>
      w.(saved := if w.stage.rendered == Some(Rendering(node, text)) then Some(SavedConfig(id, Rendering(node, text))) else None)
    case ConfigWritten(revision, text) =>
      w.(stage := w.stage.(ready := false),
      configNode := if revision.Some? && w.saved.Some? && w.saved.value.revision == revision.value && w.saved.value.config.text == text
                    then Some(w.saved.value.config.node) else None)
    case RuntimeStopped => w.(stage := w.stage.(ready := false))
    case RuntimeStarted => w.(stage := w.stage.(ready := false, faulted := false), safe := w.safe && StartAllowed(w))
    case RuntimeReady(names) =>
      w.(stage := w.stage.(ready := w.stage.verified.Some? && Names(w.stage.verified.value.plans) == names))
    case RuntimeFaulted => w.(stage := w.stage.(faulted := true))
    case RoutingSet(node) => w.(active := node)
    case Promoted(node) => w.(active := Some(node), safe := w.safe && StandsOn(w, node))
    case DnsWritten(domain, ip) =>
      w.(stage := w.stage.(published := Some(ip)), safe := w.safe && DnsAllowed(w, domain, ip))
    case ActiveQuarantined(node, generation) =>
      w.(job := w.job.(condemned := w.job.condemned + {node}), safe := w.safe && w.lastFault < generation,
      lastFault := generation)
    case CandidateQuarantined(node) =>
      w.(job := w.job.(condemned := w.job.condemned + {node}), safe := w.safe && Evidence(w, node))
  }

  /** The monitor's states along a trace. */
  ghost predicate IsRun(trace: seq<Effect>, watches: seq<Watch>) {
    && |watches| == |trace| + 1
    && watches[0] == QUIET
    && forall i :: 0 <= i < |trace| ==> watches[i + 1] == Step(watches[i], trace[i])
  }

  class Journal {
    ghost var trace: seq<Effect>
    ghost var watches: seq<Watch>

    ghost predicate Valid() reads this {
      IsRun(trace, watches)
    }

    ghost function Now(): Watch
      requires Valid()
      reads this
    {
      watches[|trace|]
    }

    constructor ()
      ensures Valid() && trace == [] && Now() == QUIET
    {
      trace := [];
      watches := [QUIET];
    }

    ghost method Record(e: Effect)
      requires Valid()
      modifies this
      ensures Valid()
      ensures trace == old(trace) + [e]
      ensures Now() == Step(old(Now()), e)
    {
      watches := watches + [Step(Now(), e)];
      trace := trace + [e];
    }
  }

  // ---------------------------------------------------------------- what a safe run means

  predicate ChangesRuntime(e: Effect) {
    e.ConfigWritten? || e.RuntimeStopped? || e.RuntimeStarted?
  }

  predicate StartsCall(e: Effect) {
    e.MigrationStarted? || e.ReconcileStarted?
  }

  predicate Boundary(e: Effect) {
    e.JobStarted? || StartsCall(e)
  }

  // The node a call is for.
  function NodeOf(e: Effect): string
    requires StartsCall(e)
  {
    if e.MigrationStarted? then e.onto else e.around
  }

  /** Effects after `c` up to `k` belong to the call that effect `c` starts. */
  ghost predicate InCall(trace: seq<Effect>, c: nat, k: nat) {
    c < k <= |trace| && StartsCall(trace[c]) && forall i :: c < i < k ==> !Boundary(trace[i])
  }

  /** Just before effect `k`, the call that effect `c` starts has all `plans` verified on its node
      since effect `v`, and their runtime ready since effect `r`. */
  ghost predicate VerifiedInCall(trace: seq<Effect>, c: nat, v: nat, r: nat, k: nat, plans: seq<TunnelPlan>) {
    && InCall(trace, c, k)
    && c < v < r < k
    && trace[v] == PlansVerified(NodeOf(trace[c]), plans)
    && trace[r] == RuntimeReady(Names(plans))
    && (forall i :: v < i < k ==> !trace[i].TunnelChanged?)
    && (forall i :: r < i < k ==> !ChangesRuntime(trace[i]))
  }

  // Effect `p` is the latest lookup before `k`.
  ghost predicate LatestLookup(trace: seq<Effect>, p: nat, k: nat) {
    p < k <= |trace| && trace[p].Probed? && forall i :: p < i < k ==> !trace[i].Probed?
  }

  lemma {:induction false} SafeEarlier(trace: seq<Effect>, watches: seq<Watch>, k: nat)
    requires IsRun(trace, watches) && k <= |trace|
    requires watches[|trace|].safe
    ensures watches[k].safe
    decreases |trace| - k
  {
    if k < |trace| {
      SafeEarlier(trace, watches, k + 1);
      assert watches[k + 1] == Step(watches[k], trace[k]);
    }
  }

  lemma {:induction false} CallSince(trace: seq<Effect>, watches: seq<Watch>, k: nat) returns (c: nat)
    requires IsRun(trace, watches) && k <= |trace|
    requires watches[k].stage.node.Some?
    ensures InCall(trace, c, k) && NodeOf(trace[c]) == watches[k].stage.node.value
  {
    assert watches[k] == Step(watches[k - 1], trace[k - 1]);
    if StartsCall(trace[k - 1]) {
      c := k - 1;
    } else {
      c := CallSince(trace, watches, k - 1);
    }
  }

  lemma {:induction false} VerifiedSince(trace: seq<Effect>, watches: seq<Watch>, k: nat) returns (v: nat)
    requires IsRun(trace, watches) && k <= |trace|
    requires watches[k].stage.verified.Some?
    ensures v < k
    ensures trace[v] == PlansVerified(watches[k].stage.verified.value.node, watches[k].stage.verified.value.plans)
    ensures forall i :: v < i < k ==> !trace[i].TunnelChanged? && !trace[i].PlansVerified? && !Boundary(trace[i])
  {
    assert watches[k] == Step(watches[k - 1], trace[k - 1]);
    if trace[k - 1].PlansVerified? {
      v := k - 1;
    } else {
      v := VerifiedSince(trace, watches, k - 1);
    }
  }

  lemma {:induction false} ReadySince(trace: seq<Effect>, watches: seq<Watch>, k: nat) returns (v: nat, r: nat)
    requires IsRun(trace, watches) && k <= |trace|
    requires watches[k].stage.ready
    ensures watches[k].stage.verified.Some?
    ensures v < r < k
    ensures trace[v] == PlansVerified(watches[k].stage.verified.value.node, watches[k].stage.verified.value.plans)
    ensures trace[r] == RuntimeReady(Names(watches[k].stage.verified.value.plans))
    ensures forall i :: v < i < k ==> !trace[i].TunnelChanged? && !Boundary(trace[i])
    ensures forall i :: r < i < k ==> !ChangesRuntime(trace[i])
  {
    assert watches[k] == Step(watches[k - 1], trace[k - 1]);
    if trace[k - 1].RuntimeReady? {
      r := k - 1;
      v := VerifiedSince(trace, watches, k - 1);
    } else {
      v, r := ReadySince(trace, watches, k - 1);
    }
  }

  lemma {:induction false} ProbedSince(trace: seq<Effect>, watches: seq<Watch>, k: nat) returns (p: nat)
    requires IsRun(trace, watches) && k <= |trace|
    requires watches[k].stage.probe.Some?
    ensures LatestLookup(trace, p, k)
    ensures trace[p] == Probed(watches[k].stage.probe.value.node, watches[k].stage.probe.value.ip, watches[k].stage.probe.value.state)
    ensures forall i :: p < i < k ==> !Boundary(trace[i])
  {
    assert watches[k] == Step(watches[k - 1], trace[k - 1]);
    if trace[k - 1].Probed? {
      p := k - 1;
    } else {
      p := ProbedSince(trace, watches, k - 1);
    }
  }

  // A call that stands verified on a node is a call for that node.
  lemma StandsSince(trace: seq<Effect>, watches: seq<Watch>, k: nat, node: string) returns (c: nat, v: nat, r: nat)
    requires IsRun(trace, watches) && k <= |trace|
    requires StandsOn(watches[k], node)
    ensures VerifiedInCall(trace, c, v, r, k, watches[k].stage.verified.value.plans) && NodeOf(trace[c]) == node
  {
    c := CallSince(trace, watches, k);
    v, r := ReadySince(trace, watches, k);
    assert Boundary(trace[c]);
  }

  /** Cloudflare comes last: in a safe run, every A-record write is for a domain managed by plans
      that its own call, earlier, verified on one node and then saw ready; it carries the nonblank
      address that the call's latest node lookup returned for that same node. */
  lemma DnsComesLast(trace: seq<Effect>, watches: seq<Watch>, k: nat) returns (c: nat, p: nat, v: nat, r: nat)
    requires IsRun(trace, watches) && watches[|trace|].safe
    requires k < |trace| && trace[k].DnsWritten?
    ensures v < k && trace[v].PlansVerified?
    ensures VerifiedInCall(trace, c, v, r, k, trace[v].plans)
    ensures c < p && LatestLookup(trace, p, k)
    ensures trace[p].node == NodeOf(trace[c]) && trace[p].ip == trace[k].address && !IsBlank(trace[k].address)
    ensures Manages(trace[v].plans, trace[k].domain)
  {
    SafeEarlier(trace, watches, k + 1);
    assert watches[k + 1] == Step(watches[k], trace[k]);
    p := ProbedSince(trace, watches, k);
    c, v, r := StandsSince(trace, watches, k, watches[k].stage.verified.value.node);
    assert Boundary(trace[c]);
  }

  lemma {:induction false} PublishedStays(trace: seq<Effect>, watches: seq<Watch>, j: nat, k: nat)
    requires IsRun(trace, watches) && watches[|trace|].safe
    requires j < k <= |trace| && trace[j].DnsWritten?
    requires forall i :: j < i < k ==> !Boundary(trace[i])
    ensures watches[k].stage.published == Some(trace[j].address)
    decreases k
  {
    SafeEarlier(trace, watches, k);
    assert watches[k] == Step(watches[k - 1], trace[k - 1]);
    if j < k - 1 {
      PublishedStays(trace, watches, j, k - 1);
    }
  }

  /** All A-record writes of one call carry one address. */
  lemma OneAddressPerCall(trace: seq<Effect>, watches: seq<Watch>, j: nat, k: nat)
    requires IsRun(trace, watches) && watches[|trace|].safe
    requires j < k < |trace| && trace[j].DnsWritten? && trace[k].DnsWritten?
    requires forall i :: j < i < k ==> !Boundary(trace[i])
    ensures trace[j].address == trace[k].address
  {
    PublishedStays(trace, watches, j, k);
    SafeEarlier(trace, watches, k + 1);
    assert watches[k + 1] == Step(watches[k], trace[k]);
  }

  /** The routing row is promoted only to the node of the promoting call, on which that call has
      verified everything. */
  lemma PromotionIsVerified(trace: seq<Effect>, watches: seq<Watch>, k: nat) returns (c: nat, v: nat, r: nat)
    requires IsRun(trace, watches) && watches[|trace|].safe
    requires k < |trace| && trace[k].Promoted?
    ensures v < k && trace[v].PlansVerified?
    ensures VerifiedInCall(trace, c, v, r, k, trace[v].plans) && NodeOf(trace[c]) == trace[k].target
  {
    SafeEarlier(trace, watches, k + 1);
    assert watches[k + 1] == Step(watches[k], trace[k]);
    c, v, r := StandsSince(trace, watches, k, trace[k].target);
  }

  // ---------------------------------------------------------------- the routing row

  // The active node of the routing row, as an effect sets it.
  function RoutedBy(e: Effect): Option<Option<string>> {
    match e
    case RoutingSet(node) => Some(node)
    case Promoted(node) => Some(Some(node))
    case _ => None
  }

  // Effect `a` set the active node that the row names just before `k`.
  ghost predicate Routed(trace: seq<Effect>, a: nat, k: nat, active: Option<string>) {
    a < k <= |trace| && RoutedBy(trace[a]) == Some(active) && forall i :: a < i < k ==> RoutedBy(trace[i]).None?
  }

  lemma {:induction false} RoutedSince(trace: seq<Effect>, watches: seq<Watch>, k: nat) returns (a: nat)
    requires IsRun(trace, watches) && k <= |trace|
    requires watches[k].active.Some?
    ensures Routed(trace, a, k, watches[k].active)
  {
    assert watches[k] == Step(watches[k - 1], trace[k - 1]);
    if RoutedBy(trace[k - 1]).Some? {
      a := k - 1;
    } else {
      a := RoutedSince(trace, watches, k - 1);
    }
  }

  lemma {:induction false} RoutedIsActive(trace: seq<Effect>, watches: seq<Watch>, a: nat, k: nat, active: Option<string>)
    requires IsRun(trace, watches) && Routed(trace, a, k, active)
    ensures watches[k].active == active
    decreases k
  {
    assert watches[k] == Step(watches[k - 1], trace[k - 1]);
    if a < k - 1 {
      RoutedIsActive(trace, watches, a, k - 1, active);
    }
  }

  /** Runtime truth comes before DNS: in a safe run, every A-record write carries the address of the
      node that the routing row names as active at that moment. */
  lemma DnsFollowsRouting(trace: seq<Effect>, watches: seq<Watch>, k: nat) returns (p: nat, a: nat)
    requires IsRun(trace, watches) && watches[|trace|].safe
    requires k < |trace| && trace[k].DnsWritten?
    ensures LatestLookup(trace, p, k) && trace[p].ip == trace[k].address
    ensures Routed(trace, a, k, Some(trace[p].node))
  {
    SafeEarlier(trace, watches, k + 1);
    assert watches[k + 1] == Step(watches[k], trace[k]);
    p := ProbedSince(trace, watches, k);
    a := RoutedSince(trace, watches, k);
  }

  // ---------------------------------------------------------------- quarantine

  // The effect condemns `node`.
  predicate Condemns(e: Effect, node: string) {
    e == CandidateQuarantined(node) || (e.ActiveQuarantined? && e.failed == node)
  }

  /** Effects after `j` up to `k` belong to the job that effect `j` starts. */
  ghost predicate InJob(trace: seq<Effect>, j: nat, k: nat) {
    && j < k <= |trace|
    && trace[j].JobStarted?
    && forall i :: j < i < k ==> !trace[i].JobStarted?
  }

  lemma {:induction false} CondemnedInJob(trace: seq<Effect>, watches: seq<Watch>, j: nat, k: nat, node: string)
    requires IsRun(trace, watches) && InJob(trace, j, k)
    ensures watches[k].job.automatic == trace[j].automatic
    ensures node in watches[k].job.condemned <==> exists i :: j < i < k && Condemns(trace[i], node)
    decreases k
  {
    assert watches[k] == Step(watches[k - 1], trace[k - 1]);
    if k - 1 > j {
      CondemnedInJob(trace, watches, j, k - 1, node);
      if Condemns(trace[k - 1], node) {
        assert j < k - 1 < k;
      }
    }
  }

  /** The blamed nodes are exactly those whose `migrate_to` call in the job ended with evidence. */
  lemma {:induction false} BlamedInJob(trace: seq<Effect>, watches: seq<Watch>, j: nat, k: nat, node: string)
    requires IsRun(trace, watches) && InJob(trace, j, k)
    ensures node in watches[k].job.blamed <==> exists i :: j < i < k && trace[i].MigrationEnded? && Evidence(watches[i], node)
    decreases k
  {
    assert watches[k] == Step(watches[k - 1], trace[k - 1]);
    if k - 1 > j {
      BlamedInJob(trace, watches, j, k - 1, node);
      if trace[k - 1].MigrationEnded? && Evidence(watches[k - 1], node) {
        assert j < k - 1 < k;
      }
    }
  }

  // Just before `k` the runtime has reported a node fault, at `f`, and was not started since.
  ghost predicate Faulted(trace: seq<Effect>, f: nat, k: nat) {
    f < k <= |trace| && trace[f].RuntimeFaulted? && forall i :: f < i < k ==> !trace[i].RuntimeStarted?
  }

  lemma {:induction false} FaultedSince(trace: seq<Effect>, watches: seq<Watch>, k: nat) returns (f: nat)
    requires IsRun(trace, watches) && k <= |trace|
    requires watches[k].stage.faulted
    ensures Faulted(trace, f, k)
    ensures forall i :: f < i < k ==> !Boundary(trace[i])
  {
    assert watches[k] == Step(watches[k - 1], trace[k - 1]);
    if trace[k - 1].RuntimeFaulted? {
      f := k - 1;
    } else {
      f := FaultedSince(trace, watches, k - 1);
    }
  }

  /** A candidate is quarantined only on evidence that its own call has found: a node fault of the
      runtime started last, or a latest lookup of this very node that answered not online. */
  lemma QuarantineHasEvidence(trace: seq<Effect>, watches: seq<Watch>, k: nat) returns (c: nat, e: nat)
    requires IsRun(trace, watches) && watches[|trace|].safe
    requires k < |trace| && trace[k].CandidateQuarantined?
    ensures InCall(trace, c, k) && NodeOf(trace[c]) == trace[k].candidate && c < e
    ensures Faulted(trace, e, k)
            || (LatestLookup(trace, e, k) && trace[e].node == trace[k].candidate && !IsOnline(trace[e].state))
  {
    SafeEarlier(trace, watches, k + 1);
    assert watches[k + 1] == Step(watches[k], trace[k]);
    c := CallSince(trace, watches, k);
    assert Boundary(trace[c]);
    if watches[k].stage.faulted {
      e := FaultedSince(trace, watches, k);
    } else {
      e := ProbedSince(trace, watches, k);
    }
  }

  // ---------------------------------------------------------------- runtime starts

  // The newest revision saved in the job just before `k`.
  /** Effect `g` is the config that the provider last generated for the node, in the call that effect
      `s` belongs to; no tunnel was changed since. */
  ghost predicate GeneratedBefore(trace: seq<Effect>, g: nat, s: nat, node: string, text: string) {
    && g < s <= |trace| && trace[g] == ConfigGenerated(node, text)
    && forall i :: g < i < s ==> !trace[i].ConfigGenerated? && !trace[i].TunnelChanged? && !Boundary(trace[i])
  }

  lemma {:induction false} RenderedSince(trace: seq<Effect>, watches: seq<Watch>, k: nat) returns (g: nat)
    requires IsRun(trace, watches) && k <= |trace|
    requires watches[k].stage.rendered.Some?
    ensures GeneratedBefore(trace, g, k, watches[k].stage.rendered.value.node, watches[k].stage.rendered.value.text)
  {
    assert watches[k] == Step(watches[k - 1], trace[k - 1]);
    if trace[k - 1].ConfigGenerated? {
      g := k - 1;
    } else {
      g := RenderedSince(trace, watches, k - 1);
    }
  }

  lemma {:induction false} SavedSince(trace: seq<Effect>, watches: seq<Watch>, j: nat, k: nat) returns (g: nat, s: nat)
    requires IsRun(trace, watches) && InJob(trace, j, k)
    requires watches[k].saved.Some?
    ensures j < g < s < k
    ensures var config := watches[k].saved.value.config;
            && trace[s] == RevisionSaved(watches[k].saved.value.revision, config.node, config.text)
            && GeneratedBefore(trace, g, s, config.node, config.text)
    decreases k
  {
    assert watches[k] == Step(watches[k - 1], trace[k - 1]);
    if trace[k - 1].RevisionSaved? {
      s := k - 1;
      g := RenderedSince(trace, watches, s);
      assert Boundary(trace[j]);
    } else {
      g, s := SavedSince(trace, watches, j, k - 1);
    }
  }

  lemma {:induction false} ConfigSince(trace: seq<Effect>, watches: seq<Watch>, j: nat, k: nat) returns (g: nat, s: nat, c: nat)
    requires IsRun(trace, watches) && InJob(trace, j, k)
    requires watches[k].configNode.Some?
    ensures j < g < s < c < k
    ensures trace[c].ConfigWritten? && trace[c].revision.Some?
    ensures trace[s] == RevisionSaved(trace[c].revision.value, watches[k].configNode.value, trace[c].written)
    ensures GeneratedBefore(trace, g, s, watches[k].configNode.value, trace[c].written)
    ensures forall i :: c < i < k ==> !trace[i].ConfigWritten?
    decreases k
  {
    assert watches[k] == Step(watches[k - 1], trace[k - 1]);
    if trace[k - 1].ConfigWritten? {
      c := k - 1;
      g, s := SavedSince(trace, watches, j, k - 1);
    } else {
      g, s, c := ConfigSince(trace, watches, j, k - 1);
    }
  }

  /** An automatic failover never resumes a known-bad node: in a safe run, whenever a runtime is
      started inside an automatic job, the text last written to the config file is one that the provider
      generated in this job for one node, saved as the revision that was written; nothing in the job has
      quarantined this node, and the routing row does not name it. */
  lemma StartsOnHealthyNode(trace: seq<Effect>, watches: seq<Watch>, j: nat, k: nat)
    returns (g: nat, s: nat, c: nat)
    requires IsRun(trace, watches) && watches[|trace|].safe
    requires InJob(trace, j, k) && k < |trace|
    requires trace[j].automatic && trace[k].RuntimeStarted?
    ensures j < g < s < c < k
    ensures trace[c].ConfigWritten? && trace[c].revision.Some?
    ensures forall i :: c < i < k ==> !trace[i].ConfigWritten?
    ensures trace[s].RevisionSaved? && trace[s].savedRevision == trace[c].revision.value && trace[s].savedText == trace[c].written
    ensures GeneratedBefore(trace, g, s, trace[s].forNode, trace[c].written)
    ensures forall i :: j < i < k ==> !Condemns(trace[i], trace[s].forNode)
    ensures forall a: nat, active :: Routed(trace, a, k, active) ==> active != Some(trace[s].forNode)
  {
    SafeEarlier(trace, watches, k + 1);
    assert watches[k + 1] == Step(watches[k], trace[k]);
    CondemnedInJob(trace, watches, j, k, "");
    g, s, c := ConfigSince(trace, watches, j, k);
    CondemnedInJob(trace, watches, j, k, trace[s].forNode);
    forall a: nat, active | Routed(trace, a, k, active)
      ensures watches[k].active == active
    {
      RoutedIsActive(trace, watches, a, k, active);
    }
  }

  lemma {:induction false} LastFaultBounds(trace: seq<Effect>, watches: seq<Watch>, i: nat, k: nat)
    requires IsRun(trace, watches) && watches[|trace|].safe
    requires i < k <= |trace| && trace[i].ActiveQuarantined?
    ensures trace[i].faultGeneration <= watches[k].lastFault
    decreases k
  {
    SafeEarlier(trace, watches, k);
    assert watches[k] == Step(watches[k - 1], trace[k - 1]);
    if i < k - 1 {
      LastFaultBounds(trace, watches, i, k - 1);
    }
  }

  /** At most one automatic failover per FRPC generation quarantines the active node. */
  lemma OneFailoverPerGeneration(trace: seq<Effect>, watches: seq<Watch>, i: nat, k: nat)
    requires IsRun(trace, watches) && watches[|trace|].safe
    requires i < k < |trace| && trace[i].ActiveQuarantined? && trace[k].ActiveQuarantined?
    ensures trace[i].faultGeneration < trace[k].faultGeneration
  {
    LastFaultBounds(trace, watches, i, k);
    SafeEarlier(trace, watches, k + 1);
    assert watches[k + 1] == Step(watches[k], trace[k]);
  }
}

/** Global reconcile: converge every enabled plan, the FRPC runtime and the managed A records on
    the active node. */
module Reconcile {
  import opened Basics
  import opened Domain
  import opened Journals
  import opened Databases
  import opened FrpcLogs
  import opened ChmlFrp
  import opened Cloudflare
  import opened ManagedDns
  import opened FrpcRuntime
  import opened AppStates
  import opened Pictures

  const READY_TIMEOUT := 20_000   // milliseconds

  // Everything `reconcile_all` checks before it changes anything.
  method Preflight(s: AppState, plans: seq<TunnelPlan>, active: string) returns (ip: Option<string>)
    requires s.Wired() && s.journal.Valid()
    modifies s.journal
    ensures s.journal.Valid()
    ensures SameHistory(s.journal.Now(), old(s.journal.Now()))
    ensures ip.Some? ==> LookedUp(s.journal.Now(), active, ip.value)
    ensures ip.Some? && AnyDns(plans) ==> NoConflict(s.cf.zone, plans) && !IsBlank(ip.value)
    ensures NodeServes(WorldOf(s), plans, active) && ip.Some? ==> ip.value == s.chml.directory[active].realIp
    ensures NodeServes(WorldOf(s), plans, active) && DnsAnswers(WorldOf(s), s.cf.zone, plans) ==> ip.Some?
  {
    var dnsRequired := AnyDns(plans);
    if dnsRequired && !s.cf.configured {
      return None;
    }
    if dnsRequired {
      var records := s.cf.ListARecords();
      if records.None? {
        return None;
      }
      SameConflicts(s.cf.zone, plans);
      var conflicts := EnsureUniqueManagedARecords(plans, records.value);
      if conflicts != [] {
        return None;
      }
    }
    var node := s.chml.NodeInfo(active);
    if node.None? || !IsOnline(node.value.state) || (dnsRequired && IsBlank(node.value.realIp)) {
      return None;
    }
    return Some(node.value.realIp);
  }

  // Brings the tunnel of plan `k` to the node, if it is not there yet.
  method SyncOne(s: AppState, plans: seq<TunnelPlan>, k: nat, active: string, remote: map<string, RemoteTunnel>) returns (ok: bool)
    requires s.Wired() && s.journal.Valid() && k < |plans|
    requires plans[k].name in s.chml.tunnels <==> plans[k].name in remote
    requires plans[k].name in remote ==> s.chml.tunnels[plans[k].name] == remote[plans[k].name]
    modifies s.chml`tunnels, s.chml`mishaps, s.journal
    ensures s.journal.Valid()
    ensures SameFindings(s.journal.Now(), old(s.journal.Now()))
    ensures MishapsWhile(s.chml.Answering(), old(s.chml.mishaps), s.chml.mishaps)
    ensures s.chml.tunnels == old(s.chml.tunnels)
            || (plans[k].name in s.chml.tunnels && s.chml.tunnels == old(s.chml.tunnels)[plans[k].name := s.chml.tunnels[plans[k].name]])
    ensures plans[k].name in remote && MatchesPlanOnNode(remote[plans[k].name], plans[k], active) ==>
              ok && s.chml.tunnels == old(s.chml.tunnels)
    ensures s.chml.Answering() ==>
              ok && plans[k].name in s.chml.tunnels && MatchesPlanOnNode(s.chml.tunnels[plans[k].name], plans[k], active)
  {
    var plan := plans[k];
    ok := true;
    if plan.name in remote {
      var existing := remote[plan.name];
      if !MatchesPlanOnNode(existing, plan, active) {
        ok := s.chml.SyncTunnel(existing, plan, active, Align);
        SyncedMatches(existing, existing, plan, active, s.chml.domainField);
      }
    } else {
      var created := s.chml.CreateTunnel(plan, active);
      ok := created.Some?;
      if ok {
        CreatedMatches(created.value.tunnelId, created.value.tunnelState, plan, active, s.chml.domainField);
      }
    }
  }

  // A tunnel that matches its plan on the node is not touched.
  ghost predicate MatchingKept(before: map<string, RemoteTunnel>, now: map<string, RemoteTunnel>, plans: seq<TunnelPlan>, node: string) {
    forall i :: 0 <= i < |plans| && plans[i].name in before && MatchesPlanOnNode(before[plans[i].name], plans[i], node) ==>
      plans[i].name in now && now[plans[i].name] == before[plans[i].name]
  }

  // The tunnels when the first `k` plans have been visited.
  ghost predicate SyncedUpTo(before: map<string, RemoteTunnel>, now: map<string, RemoteTunnel>, plans: seq<TunnelPlan>,
                             k: nat, active: string, answering: bool)
    requires k <= |plans|
  {
    && OthersKept(before, now, plans)
    && (forall i :: k <= i < |plans| ==>
          && (plans[i].name in now <==> plans[i].name in before)
          && (plans[i].name in before ==> now[plans[i].name] == before[plans[i].name]))
    && (answering ==> forall i :: 0 <= i < k ==> plans[i].name in now && MatchesPlanOnNode(now[plans[i].name], plans[i], active))
    && (AllOn(before, plans, active) ==> now == before) && MatchingKept(before, now, plans, active)
  }

  lemma SyncStep(before: map<string, RemoteTunnel>, now: map<string, RemoteTunnel>, after: map<string, RemoteTunnel>,
                 plans: seq<TunnelPlan>, k: nat, active: string, answering: bool)
    requires k < |plans| && DistinctNames(plans) && SyncedUpTo(before, now, plans, k, active, answering)
    requires after == now || (plans[k].name in after && after == now[plans[k].name := after[plans[k].name]])
    requires plans[k].name in before && MatchesPlanOnNode(before[plans[k].name], plans[k], active) ==> after == now
    requires answering ==> plans[k].name in after && MatchesPlanOnNode(after[plans[k].name], plans[k], active)
    ensures SyncedUpTo(before, after, plans, k + 1, active, answering)
  {
    assert PlanNamed(plans, plans[k].name);
    forall i | 0 <= i < |plans| && i != k
      ensures plans[i].name in after <==> plans[i].name in now
      ensures plans[i].name in now ==> after[plans[i].name] == now[plans[i].name]
    {
    }
  }

  /** Creates missing tunnels, syncs the drifted ones and reads everything back. Tunnels that
      already match are not touched. With a provider that answers it always succeeds. */
  method SyncAll(s: AppState, plans: seq<TunnelPlan>, active: string) returns (ok: bool)
    requires s.Wired() && s.journal.Valid() && DistinctNames(plans)
    modifies s.chml`tunnels, s.chml`mishaps, s.journal
    ensures s.journal.Valid()
    ensures OthersKept(old(s.chml.tunnels), s.chml.tunnels, plans)
    ensures old(AllOn(s.chml.tunnels, plans, active)) ==> s.chml.tunnels == old(s.chml.tunnels)
    ensures MatchingKept(old(s.chml.tunnels), s.chml.tunnels, plans, active)
    ensures ok ==> AllOn(s.chml.tunnels, plans, active) && s.journal.Now().stage.verified == Some(Checked(active, plans))
    ensures SameFindings(s.journal.Now(), old(s.journal.Now()))
    ensures MishapsWhile(s.chml.Answering(), old(s.chml.mishaps), s.chml.mishaps)
    ensures s.chml.Answering() ==> ok
  {
    ghost var before := s.chml.tunnels;
    var remote := s.chml.ListTunnels();
    if remote.None? {
      return false;
    }
    for k := 0 to |plans|
      invariant s.journal.Valid() && SameFindings(s.journal.Now(), old(s.journal.Now()))
      invariant MishapsWhile(s.chml.Answering(), old(s.chml.mishaps), s.chml.mishaps)
      invariant SyncedUpTo(before, s.chml.tunnels, plans, k, active, s.chml.Answering())
    {
      ghost var now := s.chml.tunnels;
      ok := SyncOne(s, plans, k, active, remote.value);
      SyncStep(before, now, s.chml.tunnels, plans, k, active, s.chml.Answering());
      if !ok {
        return;
      }
    }
    ok := VerifyOnNode(s.chml, plans, active);
  }

  // ---------------------------------------------------------------- the runtime layer

  // The config the provider generates now, if its proxy names are distinct.
  method FetchConfig(s: AppState, plans: seq<TunnelPlan>, active: string) returns (config: Option<string>)
    requires s.Sound()
    modifies s.journal
    ensures s.Sound()
    ensures Fetched(old(Pic(s)), Pic(s), plans, active, config)
  {
    config := AskConfig(s, plans, active);
    if config.Some? {
      var duplicate := ConfigHasDuplicateProxyNames(config.value);
      if duplicate {
        config := None;
      }
    }
  }

  method AskConfig(s: AppState, plans: seq<TunnelPlan>, active: string) returns (config: Option<string>)
    requires s.Sound()
    modifies s.journal
    ensures s.Sound()
    ensures var a, b := old(Pic(s)), Pic(s);
            && b == a.(watch := a.watch.(stage := a.watch.stage.(rendered := b.watch.stage.rendered)))
            && (config.Some? ==> config.value == Generated(a.world, a.tunnels, plans, active) && HasRendered(b.watch, active, config.value))
            && (Answering(a.world) ==> config.Some?)
  {
    config := s.chml.GeneratedConfig(active, Names(plans));
  }

  ghost predicate Fetched(a: Picture, b: Picture, plans: seq<TunnelPlan>, node: string, config: Option<string>) {
    && b == a.(watch := a.watch.(stage := a.watch.stage.(rendered := b.watch.stage.rendered)))
    && (config.Some? ==>
          && config.value == Generated(a.world, a.tunnels, plans, node) && Loadable(a.world, a.tunnels, plans, node)
          && HasRendered(b.watch, node, config.value))
    && (Answering(a.world) && Loadable(a.world, a.tunnels, plans, node) ==> config.Some?)
  }

  // Is this text in the config file, and its process running and connected?
  method InPlace(s: AppState, config: string) returns (readable: bool, inPlace: bool)
    requires s.Sound()
    modifies s.frpc`generation, s.frpc`child, s.frpc`running, s.frpc`connected, s.frpc`lastError, s.frpc`startedProxies
    modifies s.frpc`tunnelStates, s.frpc`lastNodeFault, s.frpc`lastStartupFault, s.frpc`startGeneration
    modifies s.frpc`accepted, s.frpc`views, s.frpc`external, s.frpc`now, s.frpc`hostFaults
    ensures s.Sound() && (old(s.frpc.RunsFile()) ==> s.frpc.RunsFile())
    ensures Peeked(old(Pic(s)), Pic(s), config, readable, inPlace)
  {
    ghost var a := Pic(s);
    LetTimePass(s);
    ghost var b := Pic(s);
    readable, inPlace := Look(s, config);
    PeekedAfterWaiting(a, b, Pic(s), config, readable, inPlace);
  }

  method ReadFile(s: AppState) returns (readable: bool, text: Option<string>)
    requires s.Sound()
    modifies s.frpc`hostFaults
    ensures s.Sound()
    ensures FileRead(old(Pic(s)), Pic(s), readable, text)
  {
    readable, text := s.frpc.ReadConfig();
  }

  ghost predicate FileRead(a: Picture, b: Picture, readable: bool, text: Option<string>) {
    var faults := a.runtime.hostFaults;
    && (readable ==> b == a && text == a.runtime.configFile)
    && (!readable ==> b == a.(runtime := a.runtime.(hostFaults := faults.(badReads := faults.badReads + 1))))
    && (a.world.calm ==> readable)
  }

  method Poll(s: AppState)
    requires s.Sound()
    modifies s.frpc`child, s.frpc`running, s.frpc`connected, s.frpc`lastError
    ensures s.Sound() && (old(s.frpc.RunsFile()) ==> s.frpc.RunsFile())
    ensures Polled(old(Pic(s)), Pic(s))
  {
    s.frpc.Status();
  }

  ghost predicate Polled(a: Picture, b: Picture) {
    && b == a.(runtime := a.runtime.(child := b.runtime.child, running := b.runtime.running, connected := b.runtime.connected))
    && (b.runtime.running ==> a.runtime.running && b.runtime == a.runtime)
    && (a.world.calm ==> b == a)
  }

  // Reads the file, then polls the process.
  method Look(s: AppState, config: string) returns (readable: bool, inPlace: bool)
    requires s.Sound()
    modifies s.frpc`child, s.frpc`running, s.frpc`connected, s.frpc`lastError, s.frpc`hostFaults
    ensures s.Sound() && (old(s.frpc.RunsFile()) ==> s.frpc.RunsFile())
    ensures Looked(old(Pic(s)), Pic(s), config, readable, inPlace)
  {
    var current;
    readable, current := ReadFile(s);
    Poll(s);
    inPlace := readable && current == Some(config) && s.frpc.running && s.frpc.connected;
  }

  ghost predicate Looked(a: Picture, b: Picture, config: string, readable: bool, inPlace: bool) {
    && b == a.(runtime := a.runtime.(child := b.runtime.child, running := b.runtime.running, connected := b.runtime.connected,
                                     hostFaults := b.runtime.hostFaults))
    && (inPlace <==> readable && a.runtime.configFile == Some(config) && b.runtime.running && b.runtime.connected)
    && (b.runtime.running ==> b.runtime.connected == a.runtime.connected)
    && (a.world.calm ==> readable && b.runtime == a.runtime)
  }

  lemma PeekedAfterWaiting(a: Picture, b: Picture, c: Picture, config: string, readable: bool, inPlace: bool)
    requires Passed(a, b) && Looked(b, c, config, readable, inPlace)
    ensures Peeked(a, c, config, readable, inPlace)
  {
    if a.world.calm {
      forall plans
        ensures Serving(a.runtime, plans) ==> Serving(c.runtime, plans)
      {
        ServingPasses(a, b, plans);
      }
      ServingPasses(a, b, []);
    }
  }

  ghost predicate Peeked(a: Picture, b: Picture, config: string, readable: bool, inPlace: bool) {
    && b == a.(runtime := b.runtime)
    && SameDesk(a, b)
    && b.runtime.configFile == a.runtime.configFile && b.runtime.configRevision == a.runtime.configRevision
    && (inPlace ==> readable && b.runtime.configFile == Some(config) && b.runtime.running)
    && (a.world.calm ==>
          && readable && b.runtime.generation == a.runtime.generation && b.runtime.child == a.runtime.child
          && b.runtime.running == a.runtime.running
          && Faultless(b.runtime) == Faultless(a.runtime)
          && (b.runtime.configFile == Some(config) && a.runtime.running && a.runtime.connected ==> inPlace && b.runtime.connected)
          && forall plans :: Serving(a.runtime, plans) ==> Serving(b.runtime, plans))
  }

  // Saves a revision of the node's config and writes it. Until the restart that follows, a process
  // that is still alive runs the previous text.
  method WriteRevision(s: AppState, node: string, config: string) returns (written: bool)
    requires s.Sound() && HasRendered(s.journal.Now(), node, config)
    modifies s.db`revisions, s.db`lastRevision, s.frpc`configFile, s.frpc`configRevision, s.frpc`hostFaults, s.journal
    ensures s.Sound()
    ensures s.db.lastRevision !in old(s.db.revisions)
    ensures Written(old(Pic(s)), Pic(s), s.db.lastRevision, node, config, written)
    ensures written ==> s.journal.Now().configNode == Some(node)
  {
    ghost var a := Pic(s);
    var revision := SaveRevision(s, node, config);
    ghost var b := Pic(s);
    written := WriteFile(s, config, Some(revision));
    WrittenInSteps(a, b, Pic(s), revision, node, config, written);
  }

  lemma WrittenInSteps(a: Picture, b: Picture, c: Picture, id: int, node: string, config: string, written: bool)
    requires HasRendered(a.watch, node, config)
    requires b == a.(revisions := a.revisions[id := ConfigRevision(node, config)], watch := Step(a.watch, RevisionSaved(id, node, config)))
    requires FileWritten(b, c, config, Some(id), written)
    ensures Written(a, c, id, node, config, written)
    ensures written ==> c.watch.configNode == Some(node)
  {
  }

  method SaveRevision(s: AppState, node: string, config: string) returns (id: int)
    requires s.Sound()
    modifies s.db`revisions, s.db`lastRevision, s.journal
    ensures s.Sound()
    ensures id == s.db.lastRevision && id !in old(s.db.revisions)
    ensures var a := old(Pic(s));
            Pic(s) == a.(revisions := a.revisions[id := ConfigRevision(node, config)],
                         watch := Step(a.watch, RevisionSaved(id, node, config)))
  {
    id := s.db.SaveConfigRevision(node, config);
  }

  // A text and its revision, read together, agree with the stored revisions.
  ghost predicate Recorded(revisions: map<int, ConfigRevision>, config: Option<string>, revision: Option<int>) {
    revision.Some? ==> revision.value in revisions && config == Some(revisions[revision.value].text)
  }

  method WriteFile(s: AppState, config: string, revision: Option<int>) returns (written: bool)
    requires s.Sound() && Recorded(s.db.revisions, Some(config), revision)
    modifies s.frpc`configFile, s.frpc`configRevision, s.frpc`hostFaults, s.journal
    ensures s.Sound()
    ensures FileWritten(old(Pic(s)), Pic(s), config, revision, written)
  {
    written := s.frpc.WriteConfig(config, revision);
  }

  ghost predicate FileWritten(a: Picture, b: Picture, config: string, revision: Option<int>, written: bool) {
    var faults := a.runtime.hostFaults;
    && (written ==> b == a.(runtime := a.runtime.(configFile := Some(config), configRevision := revision),
                            watch := Step(a.watch, ConfigWritten(revision, config))))
    && (!written ==> b == a.(runtime := a.runtime.(hostFaults := faults.(badWrites := faults.badWrites + 1))))
    && (a.world.calm ==> written)
  }

  ghost predicate Written(a: Picture, b: Picture, id: int, node: string, config: string, written: bool) {
    && RuntimeStage(a, b)
    && b.revisions == a.revisions[id := ConfigRevision(node, config)]
    && b.runtime == (var faults := a.runtime.hostFaults;
                     if written then a.runtime.(configFile := Some(config), configRevision := Some(id))
                     else a.runtime.(hostFaults := faults.(badWrites := faults.badWrites + 1)))
    && (a.world.calm ==> written)
  }

  /** Saves a revision of the node's config, writes it and restarts. */
  method WriteAndRestart(s: AppState, node: string, config: string) returns (written: bool, ok: bool)
    requires s.Sound() && s.frpc.RunsFile()
    requires MayRun(s.journal.Now(), node) && HasRendered(s.journal.Now(), node, config)
    modifies s.db`revisions, s.db`lastRevision, s.frpc, s.journal
    ensures s.Sound() && s.frpc.RunsFile()
    ensures s.db.lastRevision !in old(s.db.revisions)
    ensures Installed(old(Pic(s)), Pic(s), s.db.lastRevision, node, config, written, ok)
  {
    written := WriteRevision(s, node, config);
    ok := false;
    if written {
      ok := RestartRuntime(s);
    }
  }

  // Stop, a pause, start.
  method RestartRuntime(s: AppState) returns (ok: bool)
    requires s.Sound() && StartAllowed(s.journal.Now())
    modifies s.frpc, s.journal
    ensures s.Sound() && s.frpc.RunsFile()
    ensures Restarted(old(Pic(s)), Pic(s), ok)
  {
    ok := s.frpc.Restart();
  }

  method StopRuntime(s: AppState)
    requires s.Sound()
    modifies s.frpc`generation, s.frpc`child, s.frpc`running, s.frpc`connected, s.journal
    ensures s.Sound() && s.frpc.RunsFile()
    ensures Pic(s) == Stopped(old(Pic(s)))
  {
    s.frpc.Stop();
  }

  ghost function Stopped(a: Picture): Picture {
    a.(runtime := a.runtime.(generation := a.runtime.generation + 1, child := None, running := false, connected := false),
    watch := Step(a.watch, RuntimeStopped))
  }

  ghost predicate Restarted(a: Picture, b: Picture, ok: bool) {
    && RuntimeStage(a, b) && b.revisions == a.revisions && b.runtime.generation > a.runtime.generation
    && b.runtime.configFile == a.runtime.configFile && b.runtime.configRevision == a.runtime.configRevision
    && (ok ==> b.runtime.running && (b.runtime.external == a.runtime.external ==> Faultless(b.runtime)))
    && b.runtime.hostFaults ==
       (if ok then a.runtime.hostFaults else a.runtime.hostFaults.(badStarts := a.runtime.hostFaults.badStarts + 1))
    && (a.world.calm && a.runtime.configFile.Some? ==> ok && b.runtime.external == a.runtime.external)
  }

  // What a stage before DNS leaves alone besides the runtime.
  ghost predicate RuntimeStage(a: Picture, b: Picture) {
    && SameDesk(a, b)
    && b.routing == a.routing && b.zone == a.zone && b.tunnels == a.tunnels && b.mishaps == a.mishaps
    && SameFindings(b.watch, a.watch) && b.watch.stage.verified == a.watch.stage.verified
  }

  /** A config was written and FRPC restarted; a failed step left its trace on the host. */
  ghost predicate Installed(a: Picture, b: Picture, id: int, node: string, config: string, written: bool, ok: bool) {
    && RuntimeStage(a, b)
    && b.revisions == a.revisions[id := ConfigRevision(node, config)]
    && (written ==> b.runtime.configRevision == Some(id))
    && b.runtime.configFile == (if written then Some(config) else a.runtime.configFile)
    && (!written ==> b.runtime.configRevision == a.runtime.configRevision)
    && (ok ==> written && b.runtime.running && (b.runtime.external == a.runtime.external ==> Faultless(b.runtime)))
    && b.runtime.hostFaults ==
       (var faults := a.runtime.hostFaults;
        if !written then faults.(badWrites := faults.badWrites + 1)
        else if !ok then faults.(badStarts := faults.badStarts + 1)
        else faults)
    && (a.world.calm ==> ok && b.runtime.external == a.runtime.external)
  }

  /** Puts the generated config into the runtime, unless it is already there and connected. */
  method LoadConfig(s: AppState, plans: seq<TunnelPlan>, active: string) returns (ok: bool)
    requires s.Sound() && s.frpc.RunsFile()
    requires !s.journal.Now().job.automatic
    modifies s.db`revisions, s.db`lastRevision, s.frpc, s.journal
    ensures s.Sound() && s.frpc.RunsFile()
    ensures Loaded(old(Pic(s)), Pic(s), plans, active, ok)
  {
    ghost var a := Pic(s);
    var config := FetchConfig(s, plans, active);
    ghost var b := Pic(s);
    ok := false;
    if config.Some? {
      ok := PutConfig(s, plans, active, config.value);
      LoadedSinceFetch(a, b, Pic(s), plans, active, ok);
    }
  }

  // The same for a config at hand.
  method PutConfig(s: AppState, ghost plans: seq<TunnelPlan>, active: string, config: string) returns (ok: bool)
    requires s.Sound() && s.frpc.RunsFile()
    requires !s.journal.Now().job.automatic && HasRendered(s.journal.Now(), active, config)
    requires var a := Pic(s); config == Generated(a.world, a.tunnels, plans, active) && Loadable(a.world, a.tunnels, plans, active)
    modifies s.db`revisions, s.db`lastRevision, s.frpc, s.journal
    ensures s.Sound() && s.frpc.RunsFile()
    ensures Loaded(old(Pic(s)), Pic(s), plans, active, ok)
  {
    ghost var a := Pic(s);
    var readable, inPlace := InPlace(s, config);
    ghost var b := Pic(s);
    if inPlace {
      ok := true;
    } else if readable {
      var written, restarted := WriteAndRestart(s, active, config);
      ok := restarted;
      LoadedByRestart(a, b, Pic(s), plans, active, s.db.lastRevision, written, restarted);
    } else {
      ok := false;
    }
  }

  lemma LoadedSinceFetch(a: Picture, b: Picture, c: Picture, plans: seq<TunnelPlan>, active: string, ok: bool)
    requires b == a.(watch := a.watch.(stage := a.watch.stage.(rendered := b.watch.stage.rendered)))
    requires Loaded(b, c, plans, active, ok)
    ensures Loaded(a, c, plans, active, ok)
  {
  }

  /** What a stop and start is for: a runtime with a fault on record is restarted only when its text
      is not in place. */
  ghost predicate Loaded(a: Picture, b: Picture, plans: seq<TunnelPlan>, active: string, ok: bool) {
    && RuntimeStage(a, b)
    && (ok ==> Configured(b, plans, active))
    && (Configured(a, plans, active) ==> b.runtime.configFile == a.runtime.configFile)
    && (a.world.calm && UpWith(a, a.tunnels, plans, active) ==>
          StaysUp(a, b) && (Serving(a.runtime, plans) ==> Serving(b.runtime, plans)))
    && ((a.world.calm && Answering(a.world) && Loadable(a.world, a.tunnels, plans, active)
         && (Faultless(a.runtime) || !a.runtime.running || !Configured(a, plans, active)))
        ==> ok && b.runtime.running && Faultless(b.runtime))
  }

  lemma LoadedByRestart(a: Picture, b: Picture, c: Picture, plans: seq<TunnelPlan>, active: string, id: int,
                        written: bool, ok: bool)
    requires Loadable(a.world, a.tunnels, plans, active)
    requires var config := Generated(a.world, a.tunnels, plans, active);
             && Peeked(a, b, config, true, false) && Installed(b, c, id, active, config, written, ok)
    ensures Loaded(a, c, plans, active, ok)
  {
  }

  // ---------------------------------------------------------------- ChmlFrp and FRPC

  // The provider side, and what the runtime does meanwhile.
  method SyncStage(s: AppState, plans: seq<TunnelPlan>, active: string) returns (ok: bool)
    requires s.Sound() && s.frpc.RunsFile() && DistinctNames(plans)
    modifies s.chml`tunnels, s.chml`mishaps, s.frpc, s.journal
    ensures s.Sound() && s.frpc.RunsFile()
    ensures Synchronised(old(Pic(s)), Pic(s), plans, active, ok)
  {
    ok := SyncAll(s, plans, active);
    LetTimePass(s);
  }

  ghost predicate Synchronised(a: Picture, b: Picture, plans: seq<TunnelPlan>, active: string, ok: bool) {
    && Passed(a.(tunnels := b.tunnels, mishaps := b.mishaps, watch := b.watch), b)
    && SameFindings(b.watch, a.watch) && MishapsGrow(a, b)
    && OthersKept(a.tunnels, b.tunnels, plans)
    && (AllOn(a.tunnels, plans, active) ==> b.tunnels == a.tunnels) && MatchingKept(a.tunnels, b.tunnels, plans, active)
    && (ok ==> AllOn(b.tunnels, plans, active) && b.watch.stage.verified == Some(Checked(active, plans)))
    && (Answering(a.world) ==> ok)
  }

  /** The ChmlFrp and FRPC layers of a reconcile. */
  method Provision(s: AppState, plans: seq<TunnelPlan>, active: string) returns (ok: bool)
    requires s.Sound() && s.frpc.RunsFile() && DistinctNames(plans)
    requires !s.journal.Now().job.automatic
    modifies s.db`revisions, s.db`lastRevision, s.chml`tunnels, s.chml`mishaps, s.frpc, s.journal
    ensures s.Sound() && s.frpc.RunsFile()
    ensures Provisioned(old(Pic(s)), Pic(s), plans, active, ok)
  {
    ghost var a := Pic(s);
    ok := SyncStage(s, plans, active);
    ghost var b := Pic(s);
    if ok {
      ok := LoadConfig(s, plans, active);
      ProvisionedInSteps(a, b, Pic(s), plans, active, ok);
    } else if a.world.calm {
      ServingPasses(a.(tunnels := b.tunnels, mishaps := b.mishaps, watch := b.watch), b, plans);
    }
  }

  lemma ProvisionedInSteps(a: Picture, b: Picture, c: Picture, plans: seq<TunnelPlan>, active: string, ok: bool)
    requires Synchronised(a, b, plans, active, true) && Loaded(b, c, plans, active, ok)
    ensures Provisioned(a, c, plans, active, ok)
  {
    if a.world.calm {
      ServingPasses(a.(tunnels := b.tunnels, mishaps := b.mishaps, watch := b.watch), b, plans);
    }
  }

  // A fault of the current generation is on record for a runtime that would not be restarted.
  ghost predicate Stuck(a: Picture, tunnels: map<string, RemoteTunnel>, plans: seq<TunnelPlan>, active: string) {
    UpWith(a, tunnels, plans, active) && !Faultless(a.runtime)
  }

  // The runtime has no fault on record, or will be restarted.
  ghost predicate Startable(a: Picture, tunnels: map<string, RemoteTunnel>, plans: seq<TunnelPlan>, active: string) {
    || Faultless(a.runtime)
    || !a.runtime.running
    || a.runtime.configFile != Some(Generated(a.world, tunnels, plans, active))
  }

  ghost predicate Provisioned(a: Picture, b: Picture, plans: seq<TunnelPlan>, active: string, ok: bool) {
    && SameDesk(a, b) && b.routing == a.routing && b.zone == a.zone
    && SameFindings(b.watch, a.watch) && MishapsGrow(a, b)
    && OthersKept(a.tunnels, b.tunnels, plans)
    && (AllOn(a.tunnels, plans, active) ==> b.tunnels == a.tunnels) && MatchingKept(a.tunnels, b.tunnels, plans, active)
    && (ok ==> AllOn(b.tunnels, plans, active) && Configured(b, plans, active))
    && (ok ==> b.watch.stage.verified == Some(Checked(active, plans)))
    && (AllOn(a.tunnels, plans, active) && Configured(a, plans, active) ==> b.runtime.configFile == a.runtime.configFile)
    && (a.world.calm && UpWith(a, b.tunnels, plans, active) ==>
          StaysUp(a, b) && (Serving(a.runtime, plans) ==> Serving(b.runtime, plans)))
    && ((a.world.calm && Answering(a.world) && Loadable(b.world, b.tunnels, plans, active) && Startable(a, b.tunnels, plans, active))
        ==> ok && b.runtime.running && Faultless(b.runtime))
  }

  // ---------------------------------------------------------------- readiness and DNS

  /** Readiness of all plans on the node where they were verified. It is given up as timed out only when
      20 seconds have passed. */
  method AwaitRuntime(s: AppState, plans: seq<TunnelPlan>, node: string) returns (r: Readiness)
    requires s.Sound() && s.frpc.RunsFile()
    requires s.journal.Now().stage.verified == Some(Checked(node, plans)) && s.journal.Now().stage.node == Some(node)
    modifies s.frpc, s.journal
    ensures s.Sound() && s.frpc.RunsFile()
    ensures Awaited(old(Pic(s)), Pic(s), plans, node, r)
    ensures exists polls :: PolledUntil(polls, old(s.frpc.now), 20_000, s.frpc.now)
  {
    ghost var a := Pic(s);
    ghost var polls;
    r, polls := s.frpc.WaitReady(Names(plans), READY_TIMEOUT);
    ghost var b := Pic(s);
    assert Passed(a, b.(watch := a.watch));
    AwaitedByPolls(a, b, plans, node, r);
  }

  lemma AwaitedByPolls(a: Picture, b: Picture, plans: seq<TunnelPlan>, node: string, r: Readiness)
    requires Passed(a, b.(watch := a.watch))
    requires b.watch == (if r.Ready? then a.watch.(stage := a.watch.stage.(ready := true))
                         else if r.NodeFailure? then a.watch.(stage := a.watch.stage.(faulted := true))
                         else a.watch)
    requires r.Ready? ==> Serving(b.runtime, plans)
    requires r.TimedOut? ==> b.runtime.now >= a.runtime.now + 20_000
    requires r.StartupFailure? ==> StartupFailed(a.runtime, b.runtime)
    requires a.world.calm && a.runtime.running && Faultless(a.runtime) ==> r.Ready?
    ensures Awaited(a, b, plans, node, r)
  {
    if a.world.calm {
      ServingPasses(a, b.(watch := a.watch), plans);
    }
  }

  // The process was replaced or has gone, or has reported an authentication or configuration fault.
  predicate StartupFailed(a: Runtime, b: Runtime) {
    || b.generation != a.generation
    || !b.running
    || (b.startupFault.Some? && b.startupFault.value.generation == b.generation
        && b.startupFault.value.faultDomain in {AuthFault, ConfigFault})
  }

  ghost predicate Awaited(a: Picture, b: Picture, plans: seq<TunnelPlan>, node: string, r: Readiness) {
    && b == a.(runtime := b.runtime, watch := b.watch) && Elapsed(a.world.calm, a.runtime, b.runtime)
    && b.watch == (if r.Ready? then a.watch.(stage := a.watch.stage.(ready := true))
                   else if r.NodeFailure? then a.watch.(stage := a.watch.stage.(faulted := true))
                   else a.watch)
    && (r.Ready? ==> Serving(b.runtime, plans))
    && (r.TimedOut? ==> b.runtime.now >= a.runtime.now + 20_000)
    && (r.StartupFailure? ==> StartupFailed(a.runtime, b.runtime))
    && (a.world.calm ==>
          && (a.runtime.running && Faultless(a.runtime) ==> r.Ready?)
          && (!Faultless(a.runtime) ==> !r.Ready?))
  }

  // The Cloudflare layer, while everything stands verified on the active node.
  method PublishDns(s: AppState, plans: seq<TunnelPlan>, ip: string) returns (ok: bool)
    requires s.Sound() && CleanDomains(plans)
    requires DnsReady(s.journal.Now(), plans, ip)
    modifies s.db`recordIds, s.cf`zone, s.journal
    ensures s.Sound()
    ensures ZoneStep(old(Pic(s)), Pic(s), plans, ip, ok)
  {
    ok := WriteZone(s, plans, ip, true);
    if ok {
      ServedEverywhere(s.cf.zone, plans, ip);
    }
  }

  // The DNS stage of either call, as a picture.
  method WriteZone(s: AppState, plans: seq<TunnelPlan>, ip: string, ignoreCase: bool) returns (ok: bool)
    requires s.Sound() && CleanDomains(plans)
    requires DnsReady(s.journal.Now(), plans, ip)
    modifies s.db`recordIds, s.cf`zone, s.journal
    ensures s.Sound()
    ensures var a, b := old(Pic(s)), Pic(s);
            && b == a.(zone := b.zone, watch := b.watch)
            && OnlyPublished(a.watch, b.watch, ip)
            && Converging(a.zone, b.zone, plans, ip, ignoreCase, a.world.dnsConfigured && a.world.reachable, ok)
  {
    ok := ConvergeRecords(s.db, s.cf, plans, ip, ignoreCase);
  }

  ghost predicate ZoneStep(a: Picture, b: Picture, plans: seq<TunnelPlan>, ip: string, ok: bool) {
    && b == a.(zone := b.zone, watch := b.watch)
    && OnlyPublished(a.watch, b.watch, ip)
    && Framed(a.zone, b.zone, plans, ip)
    && (NoConflict(a.zone, plans) ==> NoConflict(b.zone, plans))
    && (Settled(a.zone, plans, ip, true) ==> b.zone == a.zone)
    && (ok ==> AllServedAt(b.zone, plans, ip))
    && (a.world.dnsConfigured && a.world.reachable && NoConflict(a.zone, plans) ==> ok)
  }

  ghost predicate AllServedAt(zone: Zone, plans: seq<TunnelPlan>, ip: string) {
    forall i :: 0 <= i < |plans| && plans[i].dnsManaged ==> ServedAt(zone, plans[i].domain, ip)
  }

  lemma ServedEverywhere(zone: Zone, plans: seq<TunnelPlan>, ip: string)
    requires NoConflict(zone, plans) && AllAt(zone, plans, ip, true)
    ensures AllServedAt(zone, plans, ip)
  {
    forall i | 0 <= i < |plans| && plans[i].dnsManaged
      ensures ServedAt(zone, plans[i].domain, ip)
    {
      assert HeldAt(zone, plans[i].domain, ip, true);
      var id :| Found(zone, id, plans[i].domain, true) && zone[id].content == ip;
      assert Serves(zone, id, plans[i].domain);
    }
  }

  /** Readiness, then the Cloudflare layer, which is always last. Meanwhile the runtime goes on: only
      a calm host promises that it still serves when the call returns. */
  method Publish(s: AppState, plans: seq<TunnelPlan>, active: string, ip: string) returns (ok: bool)
    requires s.Sound() && s.frpc.RunsFile() && CleanDomains(plans) && s.db.routing.activeNode == Some(active)
    requires s.journal.Now().stage.verified == Some(Checked(active, plans)) && s.journal.Now().stage.node == Some(active)
    requires LookedUp(s.journal.Now(), active, ip) && s.journal.Now().stage.published.None?
    requires AnyDns(plans) ==> !IsBlank(ip)
    modifies s.db`recordIds, s.cf`zone, s.frpc, s.journal
    ensures s.Sound() && s.frpc.RunsFile()
    ensures Announced(old(Pic(s)), Pic(s), plans, active, ip, ok)
  {
    ghost var a := Pic(s);
    var readiness := AwaitRuntime(s, plans, active);
    ghost var b := Pic(s);
    ok := readiness.Ready?;
    if ok {
      ok := Announce(s, plans, ip);
      AnnouncedReady(a, b, Pic(s), plans, active, ip, ok);
    }
  }

  // The Cloudflare layer, if it is needed, and what the runtime does meanwhile.
  method Announce(s: AppState, plans: seq<TunnelPlan>, ip: string) returns (ok: bool)
    requires s.Sound() && s.frpc.RunsFile() && CleanDomains(plans)
    requires AnyDns(plans) ==> DnsReady(s.journal.Now(), plans, ip)
    modifies s.db`recordIds, s.cf`zone, s.frpc, s.journal
    ensures s.Sound() && s.frpc.RunsFile()
    ensures Told(old(Pic(s)), Pic(s), plans, ip, ok)
  {
    ghost var a := Pic(s);
    ok := true;
    if AnyDns(plans) {
      ok := PublishDns(s, plans, ip);
    }
    ghost var b := Pic(s);
    LetTimePass(s);
    assert Passed(b, Pic(s));
  }

  ghost predicate Told(a: Picture, c: Picture, plans: seq<TunnelPlan>, ip: string, ok: bool) {
    exists b :: Passed(b, c) && if AnyDns(plans) then ZoneStep(a, b, plans, ip, ok) else ok && b == a
  }

  ghost predicate Announced(a: Picture, b: Picture, plans: seq<TunnelPlan>, active: string, ip: string, ok: bool) {
    && b == a.(runtime := b.runtime, zone := b.zone, watch := b.watch) && SameDesk(a, b)
    && b.runtime.configFile == a.runtime.configFile && b.runtime.configRevision == a.runtime.configRevision
    && SameCall(b.watch, a.watch)
    && b.watch.stage.probe == a.watch.stage.probe && b.watch.stage.verified == a.watch.stage.verified
    && (ok ==> b.watch.stage.ready)
    && (a.world.calm ==>
          && RuntimeKept(a, b) && (a.runtime.running && a.runtime.connected ==> StaysUp(a, b))
          && (ok ==> Serving(b.runtime, plans) && Faultless(a.runtime))
          && (a.runtime.running && Faultless(a.runtime) && DnsAnswers(a.world, a.zone, plans) ==> ok))
    && (b.zone == a.zone || Framed(a.zone, b.zone, plans, ip))
    && (NoConflict(a.zone, plans) ==> NoConflict(b.zone, plans))
    && (Settled(a.zone, plans, ip, true) ==> b.zone == a.zone)
    && (ok && AnyDns(plans) ==> AllServedAt(b.zone, plans, ip))
  }

  lemma AnnouncedReady(a: Picture, b: Picture, d: Picture, plans: seq<TunnelPlan>, active: string, ip: string, ok: bool)
    requires Awaited(a, b, plans, active, Ready) && Told(b, d, plans, ip, ok)
    ensures Announced(a, d, plans, active, ip, ok)
  {
    var c :| Passed(c, d) && if AnyDns(plans) then ZoneStep(b, c, plans, ip, ok) else ok && c == b;
    if a.world.calm {
      ServingPasses(c, d, plans);
    }
    AnnouncedInSteps(a, b, c, d, plans, active, ip, ok);
  }

  lemma AnnouncedInSteps(a: Picture, b: Picture, c: Picture, d: Picture, plans: seq<TunnelPlan>, active: string, ip: string, ok: bool)
    requires Awaited(a, b, plans, active, Ready) && Passed(c, d)
    requires if AnyDns(plans) then ZoneStep(b, c, plans, ip, ok) else ok && c == b
    requires a.world.calm ==> (Serving(c.runtime, plans) ==> Serving(d.runtime, plans)) && Faultless(d.runtime) == Faultless(c.runtime)
    ensures Announced(a, d, plans, active, ip, ok)
  {
  }

  // ---------------------------------------------------------------- the call

  // ChmlFrp, FRPC and Cloudflare, in this order, after the preflight returned `ip`.
  method ConvergeLayers(s: AppState, plans: seq<TunnelPlan>, active: string, ip: string) returns (ok: bool)
    requires s.Sound() && s.frpc.RunsFile() && WellFormedPlans(plans) && s.db.routing.activeNode == Some(active)
    requires !s.journal.Now().job.automatic
    requires LookedUp(s.journal.Now(), active, ip)
    requires s.journal.Now().stage.node == Some(active) && s.journal.Now().stage.published.None?
    requires AnyDns(plans) ==> !IsBlank(ip)
    modifies s.db`recordIds, s.db`revisions, s.db`lastRevision
    modifies s.chml`tunnels, s.chml`mishaps, s.cf`zone, s.frpc, s.journal
    ensures s.Sound() && s.frpc.RunsFile()
    ensures Agreed(old(Pic(s)), Pic(s), plans, active, ip, ok)
  {
    ghost var a := Pic(s);
    ok := Provision(s, plans, active);
    ghost var b := Pic(s);
    if ok {
      ok := Publish(s, plans, active, ip);
      AgreedInSteps(a, b, Pic(s), plans, active, ip, ok);
    }
  }

  /** All layers of `plans` agree on `active`, if `ok`; what is left alone in any case; and when the
      call must succeed or fail. */
  ghost predicate Agreed(a: Picture, b: Picture, plans: seq<TunnelPlan>, active: string, ip: string, ok: bool) {
    && SameDesk(a, b) && b.routing == a.routing && MishapsGrow(a, b)
    && SameCall(b.watch, a.watch) && b.watch.stage.probe == a.watch.stage.probe
    && (ok ==> Standing(b, plans, active) && (AnyDns(plans) ==> AllServedAt(b.zone, plans, ip)))
    && LeftAlone(a, b, plans, active)
    && ZoneKept(a.zone, b.zone, plans, ip)
    && MustSucceed(a, b, plans, active, ok)
  }

  /** What a reconcile of `plans` on `active` leaves alone. */
  ghost predicate LeftAlone(a: Picture, b: Picture, plans: seq<TunnelPlan>, active: string) {
    // Tunnels outside the plans stay; matching tunnels are not touched.
    && OthersKept(a.tunnels, b.tunnels, plans)
    && (AllOn(a.tunnels, plans, active) ==> b.tunnels == a.tunnels) && MatchingKept(a.tunnels, b.tunnels, plans, active)
    // A config that is already in place keeps its text; a connected runtime with the generated text is
    // not restarted.
    && (AllOn(a.tunnels, plans, active) && Configured(a, plans, active) ==> b.runtime.configFile == a.runtime.configFile)
    && (a.world.calm && UpWith(a, b.tunnels, plans, active) ==> StaysUp(a, b))
    && (NoConflict(a.zone, plans) ==> NoConflict(b.zone, plans))
  }

  // Only managed records change, only to the node's address; a settled zone does not change.
  ghost predicate ZoneKept(before: Zone, after: Zone, plans: seq<TunnelPlan>, ip: string) {
    after != before ==> Framed(before, after, plans, ip) && !Settled(before, plans, ip, true)
  }

  /** On a calm host whose providers answer, the call succeeds exactly unless a fault of the current
      generation stands in the way of a runtime that would not be restarted. */
  ghost predicate MustSucceed(a: Picture, b: Picture, plans: seq<TunnelPlan>, active: string, ok: bool) {
    && ((a.world.calm && Answering(a.world) && DnsAnswers(a.world, a.zone, plans)
         && Loadable(b.world, b.tunnels, plans, active) && Startable(a, b.tunnels, plans, active))
        ==> ok)
    && (a.world.calm && Stuck(a, b.tunnels, plans, active) ==> !ok)
  }

  lemma AgreedInSteps(a: Picture, b: Picture, c: Picture, plans: seq<TunnelPlan>, active: string, ip: string, ok: bool)
    requires a.watch.stage.node == Some(active)
    requires Provisioned(a, b, plans, active, true) && Announced(b, c, plans, active, ip, ok)
    ensures Agreed(a, c, plans, active, ip, ok)
  {
  }

  // The layers after a preflight that returned `ip`, and the end of the call.
  method ConvergeOn(s: AppState, plans: seq<TunnelPlan>, active: string, ip: string) returns (ok: bool)
    requires s.Valid() && !s.journal.Now().job.automatic
    requires WellFormedPlans(plans) && s.db.routing.activeNode == Some(active)
    requires LookedUp(s.journal.Now(), active, ip)
    requires s.journal.Now().stage.node == Some(active) && s.journal.Now().stage.published.None?
    requires AnyDns(plans) ==> !IsBlank(ip)
    modifies s.db`routing, s.db`recordIds, s.db`revisions, s.db`lastRevision
    modifies s.chml`tunnels, s.chml`mishaps, s.cf`zone, s.frpc, s.journal
    ensures s.Valid()
    ensures var a, b := old(Pic(s)), Pic(s);
            && Agreed(a, b.(routing := a.routing), plans, active, ip, ok)
            && b.routing == if ok then a.routing.(phase := Idle) else a.routing
  {
    ok := ConvergeLayers(s, plans, active, ip);
    if ok {
      s.db.FinalizeActiveNode();
    }
  }

  /** Success: the phase is idle, all plans stand on the active node, and each managed domain has
      exactly one A record, at the address looked up for the node. */
  ghost predicate Converged(p: Picture, plans: seq<TunnelPlan>, active: string) {
    && p.routing.activeNode == Some(active) && p.routing.phase == Idle
    && Standing(p, plans, active)
    && DnsConverged(p, plans, active)
  }

  ghost predicate DnsConverged(p: Picture, plans: seq<TunnelPlan>, active: string) {
    AnyDns(plans) ==>
      var probe := p.watch.stage.probe;
      && probe.Some? && probe.value.node == active && !IsBlank(probe.value.ip)
      && AllServedAt(p.zone, plans, probe.value.ip)
  }

  // The zone changes only to the address that the call has looked up.
  ghost predicate ZoneByCall(a: Picture, b: Picture, plans: seq<TunnelPlan>) {
    b.zone != a.zone ==> b.watch.stage.probe.Some? && ZoneKept(a.zone, b.zone, plans, b.watch.stage.probe.value.ip)
  }

  /** One call of `reconcile_all` for these plans. */
  ghost predicate Reconciled(a: Picture, b: Picture, plans: seq<TunnelPlan>, active: string, ok: bool) {
    && SameDesk(a, b) && MishapsGrow(a, b)
    && b.routing == (if ok then a.routing.(phase := Idle) else a.routing)
    && SameJob(b.watch, a.watch) && b.watch.active == a.watch.active
    && (ok ==> Converged(b, plans, active))
    && LeftAlone(a, b, plans, active) && ZoneByCall(a, b, plans)
    && ((NodeServes(a.world, plans, active) && a.world.calm && DnsAnswers(a.world, a.zone, plans)
         && Loadable(b.world, b.tunnels, plans, active) && Startable(a, b.tunnels, plans, active))
        ==> ok)
    && (a.world.calm && Stuck(a, b.tunnels, plans, active) ==> !ok)
    && (ok && NodeServes(a.world, plans, active) ==> LookedUp(b.watch, active, a.world.directory[active].realIp))
  }

  method ReconcileOn(s: AppState, plans: seq<TunnelPlan>, active: string) returns (ok: bool)
    requires s.Valid() && !s.journal.Now().job.automatic
    requires WellFormedPlans(plans) && s.db.routing.activeNode == Some(active)
    modifies s.db`routing, s.db`recordIds, s.db`revisions, s.db`lastRevision
    modifies s.chml`tunnels, s.chml`mishaps, s.cf`zone, s.frpc, s.journal
    ensures s.Valid()
    ensures Reconciled(old(Pic(s)), Pic(s), plans, active, ok)
  {
    ghost var a := Pic(s);
    var ip := OpenReconcile(s, plans, active);
    ghost var b := Pic(s);
    if ip.Some? {
      ok := ConvergeOn(s, plans, active, ip.value);
      ReconciledAfterPreflight(a, b, Pic(s), plans, active, ip.value, ok);
    } else {
      ok := false;
    }
  }

  // The start of the call, its preflight, and what the runtime does meanwhile.
  method OpenReconcile(s: AppState, plans: seq<TunnelPlan>, active: string) returns (ip: Option<string>)
    requires s.Valid()
    modifies s.frpc, s.journal
    ensures s.Valid()
    ensures Opened(old(Pic(s)), Pic(s), plans, active, ip)
  {
    s.journal.Record(ReconcileStarted(active));
    ip := Preflight(s, plans, active);
    LetTimePass(s);
  }

  ghost predicate Opened(a: Picture, b: Picture, plans: seq<TunnelPlan>, active: string, ip: Option<string>) {
    && Passed(a.(watch := b.watch), b)
    && SameJob(b.watch, a.watch) && b.watch.active == a.watch.active
    && b.watch.stage.node == Some(active) && b.watch.stage.published.None?
    && (ip.Some? ==> LookedUp(b.watch, active, ip.value))
    && (ip.Some? && AnyDns(plans) ==> NoConflict(a.zone, plans) && !IsBlank(ip.value))
    && (NodeServes(a.world, plans, active) && ip.Some? ==> ip.value == a.world.directory[active].realIp)
    && (NodeServes(a.world, plans, active) && DnsAnswers(a.world, a.zone, plans) ==> ip.Some?)
  }

  lemma ReconciledAfterPreflight(a: Picture, b: Picture, c: Picture, plans: seq<TunnelPlan>, active: string, ip: string, ok: bool)
    requires a.routing.activeNode == Some(active)
    requires Opened(a, b, plans, active, Some(ip))
    requires Agreed(b, c.(routing := b.routing), plans, active, ip, ok)
    requires c.routing == if ok then b.routing.(phase := Idle) else b.routing
    ensures Reconciled(a, c, plans, active, ok)
  {
    AgreedIsReconciled(b, c, plans, active, ip, ok);
    ReconciledSinceOpened(a, b, c, plans, active, ip, ok);
  }

  lemma AgreedIsReconciled(b: Picture, c: Picture, plans: seq<TunnelPlan>, active: string, ip: string, ok: bool)
    requires b.routing.activeNode == Some(active)
    requires LookedUp(b.watch, active, ip) && (AnyDns(plans) ==> !IsBlank(ip))
    requires NodeServes(b.world, plans, active) ==> ip == b.world.directory[active].realIp
    requires Agreed(b, c.(routing := b.routing), plans, active, ip, ok)
    requires c.routing == if ok then b.routing.(phase := Idle) else b.routing
    ensures Reconciled(b, c, plans, active, ok)
  {
    assert Standing(c.(routing := b.routing), plans, active) == Standing(c, plans, active);
  }

  lemma ReconciledSinceOpened(a: Picture, b: Picture, c: Picture, plans: seq<TunnelPlan>, active: string, ip: string, ok: bool)
    requires Opened(a, b, plans, active, Some(ip)) && Reconciled(b, c, plans, active, ok)
    ensures Reconciled(a, c, plans, active, ok)
  {
    if a.world.calm {
      ServingPasses(a.(watch := b.watch), b, plans);
    }
  }

  /** Without managed DNS no record changes; and on a calm host an answering provider, an online active
      node, and a runtime that can be started are enough to succeed. */
  ghost predicate UnmanagedReconcile(a: Picture, b: Picture, ok: bool) {
    Unmanaged(a) ==>
      && b.zone == a.zone
      && (a.routing.activeNode.Some? && a.Wanted() != [] && a.world.calm ==>
            var active := a.routing.activeNode.value;
            OnlineAt(a.world, active) && CleanConfigs(a.world, a.Wanted(), active) && Startable(a, b.tunnels, a.Wanted(), active) ==> ok)
  }

  lemma ReconciledWithoutDns(a: Picture, b: Picture, active: string, ok: bool)
    requires a.routing.activeNode == Some(active) && Reconciled(a, b, a.Wanted(), active, ok)
    ensures UnmanagedReconcile(a, b, ok)
  {
    if CleanConfigs(a.world, a.Wanted(), active) {
      assert Loadable(a.world, b.tunnels, a.Wanted(), active);
    }
    if Unmanaged(a) && b.zone != a.zone {
      UnmanagedIsFramed(a.zone, b.zone, a.Wanted(), b.watch.stage.probe.value.ip);
    }
  }

  lemma UnmanagedIsFramed(before: Zone, after: Zone, plans: seq<TunnelPlan>, ip: string)
    requires Framed(before, after, plans, ip) && forall i :: 0 <= i < |plans| ==> !plans[i].dnsManaged
    ensures after == before
  {
    forall id | id in after
      ensures id in before && after[id] == before[id]
    {
    }
  }

  /** Success means that ChmlFrp, FRPC and managed DNS agree on the active node again, whatever
      phase the routing row was in; a failure leaves the routing row as it was. In a world that
      answers without faults the call succeeds from whatever drift, unless a fault of the current
      FRPC generation is on record for a runtime that already runs the generated text: then it
      fails. Without an active node or enabled plans it changes nothing. */
  method ReconcileAll(s: AppState) returns (ok: bool)
    requires s.Valid() && !s.journal.Now().job.automatic
    modifies s.db`routing, s.db`recordIds, s.db`revisions, s.db`lastRevision
    modifies s.chml`tunnels, s.chml`mishaps, s.cf`zone, s.frpc, s.journal
    ensures s.Valid()
    ensures var a, b := old(Pic(s)), Pic(s);
            if a.routing.activeNode.None? || a.Wanted() == [] then !ok && b == a
            else Reconciled(a, b, a.Wanted(), a.routing.activeNode.value, ok)
    ensures UnmanagedReconcile(old(Pic(s)), Pic(s), ok)
  {
    ghost var a := Pic(s);
    ok := false;
    if s.db.routing.activeNode.Some? {
      var plans := Enabled(s.db.plans);
      EnabledKeepsWellFormed(s.db.plans);
      if plans != [] {
        ok := ReconcileOn(s, plans, s.db.routing.activeNode.value);
        ReconciledWithoutDns(a, Pic(s), a.routing.activeNode.value, ok);
      }
    }
  }
}

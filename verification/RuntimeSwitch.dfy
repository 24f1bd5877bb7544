/** Loading the target's config into FRPC, and the way back. */
module RuntimeSwitches {
  import opened Basics
  import opened Domain
  import opened Journals
  import opened ChmlFrp
  import opened FrpcRuntime
  import opened AppStates
  import opened Pictures
  import opened Reconcile
  import opened Migration

  // ---------------------------------------------------------------- the target's config

  datatype InstallResult = Unreadable | Unwritten | NotRestarted | Restarted

  /** Remembers the current config file and its revision, then writes the target's and restarts. */
  method InstallConfig(s: AppState, target: string, config: string)
    returns (r: InstallResult, previousConfig: Option<string>, previousRevision: Option<int>)
    requires s.Sound() && s.frpc.RunsFile()
    requires MayRun(s.journal.Now(), target) && HasRendered(s.journal.Now(), target, config)
    modifies s.db`revisions, s.db`lastRevision, s.frpc, s.journal
    ensures s.Sound() && s.frpc.RunsFile()
    ensures Recorded(s.db.revisions, previousConfig, previousRevision)
    ensures ConfigInstalled(old(Pic(s)), Pic(s), config, r, previousConfig, previousRevision)
  {
    ghost var a := Pic(s);
    var readable;
    readable, previousConfig, previousRevision := RememberConfig(s);
    ghost var b := Pic(s);
    if !readable {
      r := Unreadable;
    } else {
      var written, restarted := WriteAndRestart(s, target, config);
      r := if !written then Unwritten else if restarted then InstallResult.Restarted else NotRestarted;
      InstalledInSteps(a, b, Pic(s), s.db.lastRevision, target, config, written, restarted, r);
    }
  }

  // What the runtime does meanwhile, the text in the file, and the revision that a poll reports.
  method RememberConfig(s: AppState) returns (readable: bool, text: Option<string>, revision: Option<int>)
    requires s.Sound() && s.frpc.RunsFile()
    modifies s.frpc
    ensures s.Sound() && s.frpc.RunsFile()
    ensures Recorded(s.db.revisions, text, revision)
    ensures Remembered(old(Pic(s)), Pic(s), readable, text, revision)
  {
    LetTimePass(s);
    readable, text := ReadFile(s);
    revision := None;
    if readable {
      Poll(s);
      revision := s.frpc.configRevision;
    } else {
      text := None;
    }
  }

  ghost predicate Remembered(a: Picture, b: Picture, readable: bool, text: Option<string>, revision: Option<int>) {
    var faults := a.runtime.hostFaults;
    && b == a.(runtime := b.runtime) && SameDesk(a, b)
    && b.runtime.configFile == a.runtime.configFile && b.runtime.configRevision == a.runtime.configRevision
    && b.runtime.hostFaults == (if readable then faults else faults.(badReads := faults.badReads + 1))
    && (readable ==> text == a.runtime.configFile && revision == a.runtime.configRevision)
    && (a.world.calm ==> readable)
  }

  ghost predicate ConfigInstalled(a: Picture, b: Picture, config: string, r: InstallResult,
                                  previousConfig: Option<string>, previousRevision: Option<int>)
  {
    var faults := a.runtime.hostFaults;
    && RuntimeStage(a, b)
    && (!r.Unreadable? ==> previousConfig == a.runtime.configFile && previousRevision == a.runtime.configRevision)
    && (r.Unreadable? || r.Unwritten? ==>
          b.runtime.configFile == a.runtime.configFile && b.runtime.configRevision == a.runtime.configRevision)
    && (r.NotRestarted? || r.Restarted? ==> b.runtime.configFile == Some(config))
    && (r.Restarted? ==> b.runtime.running)
    && b.runtime.hostFaults == (match r
                                case Unreadable => faults.(badReads := faults.badReads + 1)
                                case Unwritten => faults.(badWrites := faults.badWrites + 1)
                                case NotRestarted => faults.(badStarts := faults.badStarts + 1)
                                case Restarted => faults)
    && (a.world.calm ==> r.Restarted? && Faultless(b.runtime))
  }

  lemma InstalledInSteps(a: Picture, b: Picture, c: Picture, id: int, target: string, config: string,
                         written: bool, restarted: bool, r: InstallResult)
    requires Remembered(a, b, true, a.runtime.configFile, a.runtime.configRevision)
    requires Installed(b, c, id, target, config, written, restarted)
    requires r == if !written then Unwritten else if restarted then InstallResult.Restarted else NotRestarted
    ensures ConfigInstalled(a, c, config, r, a.runtime.configFile, a.runtime.configRevision)
  {
  }

  // ---------------------------------------------------------------- the way back

  // A restore reads nothing; other failures are only ever added.
  predicate Grown(a: HostFaults, b: HostFaults) {
    b.badReads == a.badReads && a.badWrites <= b.badWrites && a.badStarts <= b.badStarts
  }

  /** `restore_previous_frpc`: only a manual job comes here. Unless the write or the start fails, the
      previous text runs again under its revision. */
  method RestorePreviousFrpc(s: AppState, config: Option<string>, revision: Option<int>)
    requires s.Sound() && s.frpc.RunsFile() && !s.journal.Now().job.automatic
    requires Recorded(s.db.revisions, config, revision)
    modifies s.frpc, s.journal
    ensures s.Sound() && s.frpc.RunsFile()
    ensures RuntimeRestored(old(Pic(s)), Pic(s), config, revision)
  {
    ghost var a := Pic(s);
    if config.Some? {
      var written := WriteFile(s, config.value, revision);
      ghost var b := Pic(s);
      if written {
        var restarted := RestartRuntime(s);
        RestoredByRestart(a, b, Pic(s), config.value, revision, restarted);
      }
    }
  }

  lemma RestoredByRestart(a: Picture, b: Picture, c: Picture, config: string, revision: Option<int>, restarted: bool)
    requires FileWritten(a, b, config, revision, true) && Reconcile.Restarted(b, c, restarted)
    ensures RuntimeRestored(a, c, Some(config), revision)
  {
  }

  ghost predicate RuntimeRestored(a: Picture, b: Picture, config: Option<string>, revision: Option<int>) {
    && RuntimeStage(a, b) && b.revisions == a.revisions && Grown(a.runtime.hostFaults, b.runtime.hostFaults)
    && (config.None? ==> b == a)
    && (config.Some? && b.runtime.hostFaults == a.runtime.hostFaults ==>
          b.runtime.running && b.runtime.configFile == config && b.runtime.configRevision == revision)
  }

  /** Undoes the provider move, then restores the previous runtime or, in an automatic job, stops. */
  method BackOut(s: AppState, plans: seq<TunnelPlan>, changed: Changes, restorePrevious: bool,
                 previousConfig: Option<string>, previousRevision: Option<int>,
                 ghost before: map<string, RemoteTunnel>, ghost target: string, ghost m0: Mishaps)
    requires s.Sound() && s.frpc.RunsFile() && DistinctNames(plans)
    requires restorePrevious ==> !s.journal.Now().job.automatic
    requires Recorded(s.db.revisions, previousConfig, previousRevision)
    requires ChangedFrom(changed, before, plans) && |changed| == |plans|
    requires MovingSince(before, s.chml.tunnels, plans, |plans|, target, m0, s.chml.mishaps, s.chml.domainField)
    modifies s.chml`tunnels, s.chml`mishaps, s.frpc, s.journal
    ensures s.Sound() && s.frpc.RunsFile()
    ensures BackedOut(old(Pic(s)), Pic(s), restorePrevious, previousConfig, previousRevision)
    ensures UndoneSince(before, s.chml.tunnels, plans, target, m0, s.chml.mishaps, s.chml.domainField)
  {
    ghost var a := Pic(s);
    UndoStage(s, changed, plans, before, target, m0);
    ghost var b := Pic(s);
    if restorePrevious {
      RestorePreviousFrpc(s, previousConfig, previousRevision);
      BackedOutByRestore(a, b, Pic(s), previousConfig, previousRevision);
    } else {
      StopRuntime(s);
      BackedOutByStop(a, b, previousConfig, previousRevision);
    }
  }

  lemma BackedOutByRestore(a: Picture, b: Picture, c: Picture, config: Option<string>, revision: Option<int>)
    requires TunnelStage(a, b) && RuntimeRestored(b, c, config, revision)
    ensures BackedOut(a, c, true, config, revision)
    ensures c.tunnels == b.tunnels && c.mishaps == b.mishaps
  {
  }

  lemma BackedOutByStop(a: Picture, b: Picture, config: Option<string>, revision: Option<int>)
    requires TunnelStage(a, b)
    ensures BackedOut(a, Stopped(b), false, config, revision)
  {
  }

  ghost predicate BackedOut(a: Picture, b: Picture, restorePrevious: bool, config: Option<string>, revision: Option<int>) {
    && SameDesk(a, b) && b.routing == a.routing && b.zone == a.zone && b.revisions == a.revisions
    && SameFindings(b.watch, a.watch)
    && Grown(a.runtime.hostFaults, b.runtime.hostFaults)
    && MishapsGrow(a, b)
    && (restorePrevious && config.Some? && b.runtime.hostFaults == a.runtime.hostFaults ==>
          b.runtime.running && b.runtime.configFile == config && b.runtime.configRevision == revision)
    && (!restorePrevious ==> !b.runtime.running)
  }

  // ---------------------------------------------------------------- readiness

  datatype Confirmation = Live | TargetDown(cause: NodeCause) | Unready

  /** Readiness of the target: a timeout counts as a node failure only when the provider answers that
      the target is not online. */
  method ConfirmRuntime(s: AppState, plans: seq<TunnelPlan>, target: string) returns (r: Confirmation)
    requires s.Sound() && s.frpc.RunsFile()
    requires s.journal.Now().stage.verified == Some(Checked(target, plans)) && s.journal.Now().stage.node == Some(target)
    modifies s.frpc, s.journal
    ensures s.Sound() && s.frpc.RunsFile()
    ensures Confirmed(old(Pic(s)), Pic(s), plans, target, r)
  {
    var readiness := AwaitRuntime(s, plans, target);
    match readiness {
      case Ready =>
        r := Live;
      case NodeFailure(_) =>
        r := TargetDown(RuntimeFault);
      case TimedOut(_, _) =>
        var offline := AskProvider(s, target);
        r := if offline then TargetDown(TimedOutOffline) else Unready;
      case StartupFailure =>
        r := Unready;
    }
  }

  // Does the provider answer that the node is not online? The runtime goes on meanwhile.
  method AskProvider(s: AppState, target: string) returns (offline: bool)
    requires s.Sound() && s.frpc.RunsFile()
    modifies s.frpc, s.journal
    ensures s.Sound() && s.frpc.RunsFile()
    ensures var a, b := old(Pic(s)), Pic(s);
            && Passed(a.(watch := b.watch), b)
            && b.watch == a.watch.(stage := a.watch.stage.(probe := b.watch.stage.probe))
            && (offline ==> var probe := b.watch.stage.probe;
                            probe.Some? && probe.value.node == target && !IsOnline(probe.value.state))
            && (!offline ==> NothingAgainst(a.watch, b.watch))
  {
    var info := s.chml.NodeInfo(target);
    offline := info.Some? && !IsOnline(info.value.state);
    LetTimePass(s);
  }

  ghost predicate Confirmed(a: Picture, b: Picture, plans: seq<TunnelPlan>, target: string, r: Confirmation) {
    && b == a.(runtime := b.runtime, watch := b.watch) && SameDesk(a, b)
    && b.runtime.configFile == a.runtime.configFile && b.runtime.configRevision == a.runtime.configRevision
    && b.runtime.hostFaults == a.runtime.hostFaults
    && SameHistory(b.watch, a.watch)
    && (r.Live? ==> b.watch == a.watch.(stage := a.watch.stage.(ready := true)) && Serving(b.runtime, plans))
    && (r.TargetDown? ==> Evidence(b.watch, target) && r.cause in {RuntimeFault, TimedOutOffline})
    && (r.Unready? && !Evidence(a.watch, target) ==> !Evidence(b.watch, target))
    && (r == TargetDown(TimedOutOffline) ==> b.runtime.now >= a.runtime.now + 20_000)
    && (r.Unready? ==> b.runtime.now >= a.runtime.now + 20_000 || StartupFailed(a.runtime, b.runtime))
    && (a.world.calm && a.runtime.running && Faultless(a.runtime) ==> r.Live?)
  }

  // ---------------------------------------------------------------- the switch

  /** Loads the target's config and waits for all tunnels. A node failure leaves everything for the
      caller; every other failure backs out, except that an unreadable config file is reported
      before anything was changed here, with the tunnels on the target. */
  method SwitchRuntime(s: AppState, plans: seq<TunnelPlan>, target: string, config: string, changed: Changes,
                       restorePrevious: bool, ghost before: map<string, RemoteTunnel>, ghost m0: Mishaps)
    returns (failure: Option<MigrationResult>)
    requires s.Sound() && s.frpc.RunsFile() && DistinctNames(plans)
    requires restorePrevious <==> !s.journal.Now().job.automatic
    requires MayRun(s.journal.Now(), target) && HasRendered(s.journal.Now(), target, config)
    requires s.journal.Now().stage.verified == Some(Checked(target, plans)) && s.journal.Now().stage.node == Some(target)
    requires ChangedFrom(changed, before, plans) && |changed| == |plans|
    requires MovingSince(before, s.chml.tunnels, plans, |plans|, target, m0, s.chml.mishaps, s.chml.domainField)
    modifies s.db`revisions, s.db`lastRevision, s.chml`tunnels, s.chml`mishaps, s.frpc, s.journal
    ensures s.Sound() && s.frpc.RunsFile()
    ensures Switched(old(Pic(s)), Pic(s), plans, target, config, restorePrevious, failure)
    ensures failure.Some? && !LeftMoved(failure.value) ==>
              UndoneSince(before, s.chml.tunnels, plans, target, m0, s.chml.mishaps, s.chml.domainField)
  {
    ghost var a := Pic(s);
    var installed, previousConfig, previousRevision := InstallConfig(s, target, config);
    ghost var b := Pic(s);
    match installed {
      case Unreadable =>
        failure := Some(OtherFailure(ConfigUnreadable));
        SwitchUnreadable(a, b, plans, target, config, restorePrevious, previousConfig, previousRevision);
      case Unwritten =>
        UndoStage(s, changed, plans, before, target, m0);
        failure := Some(OtherFailure(ConfigUnwritten));
        SwitchUnwritten(a, b, Pic(s), plans, target, config, restorePrevious, previousConfig, previousRevision);
      case NotRestarted =>
        BackOut(s, plans, changed, restorePrevious, previousConfig, previousRevision, before, target, m0);
        failure := Some(OtherFailure(RestartFailed));
        SwitchBackedOut(a, b, b, Pic(s), plans, target, config, restorePrevious, installed, RestartFailed);
      case Restarted =>
        failure := GoLive(s, plans, target, config, changed, restorePrevious, previousConfig, previousRevision, before, m0, a);
    }
  }

  // The rest of the switch, once the target's config has been started.
  method GoLive(s: AppState, plans: seq<TunnelPlan>, target: string, ghost config: string, changed: Changes, restorePrevious: bool,
                previousConfig: Option<string>, previousRevision: Option<int>,
                ghost before: map<string, RemoteTunnel>, ghost m0: Mishaps, ghost a: Picture)
    returns (failure: Option<MigrationResult>)
    requires s.Sound() && s.frpc.RunsFile() && DistinctNames(plans)
    requires restorePrevious <==> !s.journal.Now().job.automatic
    requires s.journal.Now().stage.verified == Some(Checked(target, plans)) && s.journal.Now().stage.node == Some(target)
    requires ChangedFrom(changed, before, plans) && |changed| == |plans|
    requires MovingSince(before, s.chml.tunnels, plans, |plans|, target, m0, s.chml.mishaps, s.chml.domainField)
    requires Recorded(s.db.revisions, previousConfig, previousRevision)
    requires ConfigInstalled(a, Pic(s), config, InstallResult.Restarted, previousConfig, previousRevision)
    modifies s.chml`tunnels, s.chml`mishaps, s.frpc, s.journal
    ensures s.Sound() && s.frpc.RunsFile()
    ensures Switched(a, Pic(s), plans, target, config, restorePrevious, failure)
    ensures failure.Some? && !LeftMoved(failure.value) ==>
              UndoneSince(before, s.chml.tunnels, plans, target, m0, s.chml.mishaps, s.chml.domainField)
  {
    ghost var b := Pic(s);
    var r := ConfirmRuntime(s, plans, target);
    ghost var c := Pic(s);
    match r {
      case Live =>
        failure := None;
      case TargetDown(cause) =>
        failure := Some(TargetNodeFailed(cause));
      case Unready =>
        BackOut(s, plans, changed, restorePrevious, previousConfig, previousRevision, before, target, m0);
        failure := Some(OtherFailure(NotReady));
        SwitchBackedOut(a, b, c, Pic(s), plans, target, config, restorePrevious, InstallResult.Restarted, NotReady);
    }
  }

  ghost predicate Switched(a: Picture, b: Picture, plans: seq<TunnelPlan>, target: string, config: string, restorePrevious: bool,
                           failure: Option<MigrationResult>)
  {
    && SameDesk(a, b) && b.routing == a.routing && b.zone == a.zone
    && SameHistory(b.watch, a.watch)
    && MishapsGrow(a, b)
    && (a.world.calm ==> failure.None?)
    && (failure == Some(TargetNodeFailed(TimedOutOffline)) ==> b.runtime.now >= a.runtime.now + 20_000)
    && FaultsFit(a.runtime.hostFaults, b.runtime.hostFaults, if failure.None? then Migrated else failure.value)
    && (failure.None? ==>
          && b.tunnels == a.tunnels && b.mishaps == a.mishaps
          && b.runtime.configFile == Some(config) && Serving(b.runtime, plans)
          && b.watch.stage.ready && b.watch.stage.verified == a.watch.stage.verified && b.watch.stage.probe == a.watch.stage.probe)
    && (failure.Some? ==>
          && !failure.value.Migrated? && !RuntimeUntouched(failure.value)
          && failure.value != OtherFailure(DnsFailed)
          && (LeftMoved(failure.value) ==> b.tunnels == a.tunnels && b.mishaps == a.mishaps)
          && (failure.value.TargetNodeFailed? ==> Evidence(b.watch, target))
          && RuntimeLeft(a, b, restorePrevious, failure.value))
    && (!Evidence(a.watch, target) && Evidence(b.watch, target) ==> failure.Some? && failure.value.TargetNodeFailed?)
  }

  /** The failures of the host that the result stands for. No other result has any. */
  predicate FaultsFit(a: HostFaults, b: HostFaults, r: MigrationResult) {
    match r
    case OtherFailure(ConfigUnreadable) => b == a.(badReads := a.badReads + 1)
    case OtherFailure(ConfigUnwritten) => b == a.(badWrites := a.badWrites + 1)
    case OtherFailure(RestartFailed) => Grown(a.(badStarts := a.badStarts + 1), b)
    case OtherFailure(NotReady) => Grown(a, b)
    case _ => b == a
  }

  /** The config file after a failed switch: as it was when it could not be read or written; as it
      was, and running, when a manual job could restore it. An automatic job has FRPC stopped. */
  ghost predicate RuntimeLeft(a: Picture, b: Picture, restorePrevious: bool, r: MigrationResult) {
    var faults := a.runtime.hostFaults;
    && (r in {OtherFailure(ConfigUnreadable), OtherFailure(ConfigUnwritten)} ==>
          b.runtime.configFile == a.runtime.configFile && b.runtime.configRevision == a.runtime.configRevision)
    && (r in {OtherFailure(RestartFailed), OtherFailure(NotReady)} ==>
          if restorePrevious then
            (a.runtime.configFile.Some?
             && b.runtime.hostFaults == (if r.cause.RestartFailed? then faults.(badStarts := faults.badStarts + 1) else faults)
             ==> b.runtime.running && b.runtime.configFile == a.runtime.configFile
                 && b.runtime.configRevision == a.runtime.configRevision)
          else !b.runtime.running)
  }

  lemma SwitchUnreadable(a: Picture, b: Picture, plans: seq<TunnelPlan>, target: string, config: string, restorePrevious: bool,
                         previousConfig: Option<string>, previousRevision: Option<int>)
    requires ConfigInstalled(a, b, config, InstallResult.Unreadable, previousConfig, previousRevision)
    ensures Switched(a, b, plans, target, config, restorePrevious, Some(OtherFailure(ConfigUnreadable)))
  {
  }

  lemma SwitchUnwritten(a: Picture, b: Picture, c: Picture, plans: seq<TunnelPlan>, target: string, config: string,
                        restorePrevious: bool, previousConfig: Option<string>, previousRevision: Option<int>)
    requires ConfigInstalled(a, b, config, InstallResult.Unwritten, previousConfig, previousRevision) && TunnelStage(b, c)
    ensures Switched(a, c, plans, target, config, restorePrevious, Some(OtherFailure(ConfigUnwritten)))
  {
  }

  lemma SwitchBackedOut(a: Picture, b: Picture, c: Picture, d: Picture, plans: seq<TunnelPlan>, target: string, config: string,
                        restorePrevious: bool, installed: InstallResult, cause: Cause)
    requires ConfigInstalled(a, b, config, installed, a.runtime.configFile, a.runtime.configRevision)
    requires || (installed.NotRestarted? && cause.RestartFailed? && c == b)
             || (installed.Restarted? && cause.NotReady? && Confirmed(b, c, plans, target, Unready))
    requires BackedOut(c, d, restorePrevious, a.runtime.configFile, a.runtime.configRevision)
    ensures Switched(a, d, plans, target, config, restorePrevious, Some(OtherFailure(cause)))
  {
  }
}

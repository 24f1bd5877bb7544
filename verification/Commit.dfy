/** `migrate_to`: bring every layer up on the target, then commit and publish DNS. */
module Commit {
  import opened Basics
  import opened Domain
  import opened Journals
  import opened ChmlFrp
  import opened Cloudflare
  import opened ManagedDns
  import opened FrpcRuntime
  import opened AppStates
  import opened Pictures
  import opened Reconcile
  import opened Migration
  import opened RuntimeSwitches

  datatype BroughtUp = Up(ip: string) | NotUp(r: MigrationResult)

  // What every stage before the commit keeps.
  ghost predicate BeforeCommit(a: Picture, b: Picture) {
    && SameDesk(a, b) && b.routing == a.routing && b.zone == a.zone && SameHistory(b.watch, a.watch)
    && MishapsGrow(a, b)
  }

  /** Everything before the commit: preflight, move, verify, config, runtime. */
  method BringUp(s: AppState, plans: seq<TunnelPlan>, target: string, restorePrevious: bool) returns (r: BroughtUp)
    requires s.Sound() && s.frpc.RunsFile() && WellFormedPlans(plans)
    requires restorePrevious <==> !s.journal.Now().job.automatic
    requires MayRun(s.journal.Now(), target) && s.journal.Now().stage == FRESH.(node := Some(target))
    modifies s.db`revisions, s.db`lastRevision, s.chml`tunnels, s.chml`mishaps, s.frpc, s.journal
    ensures s.Sound() && s.frpc.RunsFile()
    ensures Raised(old(Pic(s)), Pic(s), plans, target, restorePrevious, r)
  {
    ghost var a := Pic(s);
    var checked := OpenMigration(s, plans, target);
    ghost var b := Pic(s);
    match checked {
      case Rejected =>
        r := NotUp(OtherFailure(PreflightRefused));
      case NodeOffline =>
        r := NotUp(TargetNodeFailed(ReportedOffline));
      case Proceed(ip, snapshot) =>
        r := BringUpFrom(s, plans, target, restorePrevious, ip, snapshot);
        RaisedAfterPreflight(a, b, Pic(s), plans, target, restorePrevious, ip, snapshot, r);
    }
  }

  // The preflight, and what the runtime does meanwhile.
  method OpenMigration(s: AppState, plans: seq<TunnelPlan>, target: string) returns (r: Preflighted)
    requires s.Sound() && s.frpc.RunsFile()
    requires s.journal.Now().stage.node == Some(target)
    modifies s.frpc, s.journal
    ensures s.Sound() && s.frpc.RunsFile()
    ensures Preflown(old(Pic(s)), Pic(s), plans, target, r)
  {
    r := MigrationPreflight(s, plans, target);
    LetTimePass(s);
  }

  ghost predicate Preflown(a: Picture, b: Picture, plans: seq<TunnelPlan>, target: string, r: Preflighted) {
    && Passed(a.(watch := b.watch), b) && SameHistory(b.watch, a.watch)
    && (r.Proceed? ==> LookedUp(b.watch, target, r.ip) && r.snapshot == a.tunnels && AllPresent(a.tunnels, plans))
    && (r.Proceed? && AnyDns(plans) ==> NoConflict(a.zone, plans) && !IsBlank(r.ip))
    && (r.NodeOffline? ==> Evidence(b.watch, target))
    && (!r.NodeOffline? ==> NothingAgainst(a.watch, b.watch))
    && (NodeServes(a.world, plans, target) && DnsAnswers(a.world, a.zone, plans) && AllPresent(a.tunnels, plans) ==> r.Proceed?)
    && ((Answering(a.world) && DnsAnswers(a.world, a.zone, plans)
         && target in a.world.directory && !IsOnline(a.world.directory[target].state))
        ==> r.NodeOffline?)
    && (Answering(a.world) && DnsAnswers(a.world, a.zone, plans) && target !in a.world.directory ==> r.Rejected?)
  }

  /** The outcome of everything before the commit. */
  ghost predicate Raised(a: Picture, b: Picture, plans: seq<TunnelPlan>, target: string, restorePrevious: bool, r: BroughtUp) {
    && BeforeCommit(a, b)
    && Layout(a.tunnels, b.tunnels, plans, target, a.mishaps, b.mishaps, a.world.domainField, if r.Up? then Migrated else r.r)
    && FaultsFit(a.runtime.hostFaults, b.runtime.hostFaults, if r.Up? then Migrated else r.r)
    && (r.Up? ==>
          && Standing(b, plans, target) && Serving(b.runtime, plans)
          && LookedUp(b.watch, target, r.ip) && !b.watch.stage.faulted
          && (AnyDns(plans) ==> NoConflict(a.zone, plans) && !IsBlank(r.ip)))
    && (r.NotUp? ==>
          && !r.r.Migrated? && r.r !in {OtherFailure(DnsFailed), OtherFailure(NothingPlanned)}
          && (r.r.TargetNodeFailed? <==> Evidence(b.watch, target))
          && (RuntimeUntouched(r.r) ==> Elapsed(a.world.calm, a.runtime, b.runtime))
          && RuntimeLeft(a, b, restorePrevious, r.r))
    && (r == NotUp(TargetNodeFailed(TimedOutOffline)) ==> b.runtime.now >= a.runtime.now + 20_000)
    && (Undisturbed(a, plans, target) && AllPresent(a.tunnels, plans) && CleanConfigs(a.world, plans, target) ==> r.Up?)
    && ((Answering(a.world) && DnsAnswers(a.world, a.zone, plans)
         && target in a.world.directory && !IsOnline(a.world.directory[target].state))
        ==> r == NotUp(TargetNodeFailed(ReportedOffline)))
    && (Answering(a.world) && DnsAnswers(a.world, a.zone, plans) && target !in a.world.directory ==>
          r == NotUp(OtherFailure(PreflightRefused)))
  }

  method BringUpFrom(s: AppState, plans: seq<TunnelPlan>, target: string, restorePrevious: bool,
                     ip: string, snapshot: map<string, RemoteTunnel>)
    returns (r: BroughtUp)
    requires s.Sound() && s.frpc.RunsFile() && DistinctNames(plans)
    requires restorePrevious <==> !s.journal.Now().job.automatic
    requires MayRun(s.journal.Now(), target) && s.journal.Now().stage.node == Some(target)
    requires snapshot == s.chml.tunnels && AllPresent(snapshot, plans)
    modifies s.db`revisions, s.db`lastRevision, s.chml`tunnels, s.chml`mishaps, s.frpc, s.journal
    ensures s.Sound() && s.frpc.RunsFile()
    ensures RaisedFrom(old(Pic(s)), Pic(s), plans, target, restorePrevious, ip, r)
  {
    ghost var a := Pic(s);
    var moved, changed := MoveStage(s, plans, snapshot, target);
    if moved {
      r := RaiseMoved(s, plans, target, restorePrevious, ip, changed, a);
    } else {
      r := NotUp(OtherFailure(SyncStopped));
    }
  }

  // The rest, once all tunnels were moved.
  method RaiseMoved(s: AppState, plans: seq<TunnelPlan>, target: string, restorePrevious: bool, ip: string, changed: Changes,
                    ghost a: Picture)
    returns (r: BroughtUp)
    requires s.Sound() && s.frpc.RunsFile() && DistinctNames(plans)
    requires restorePrevious <==> !s.journal.Now().job.automatic
    requires MayRun(s.journal.Now(), target) && s.journal.Now().stage.node == Some(target)
    requires ChangedFrom(changed, a.tunnels, plans) && |changed| == |plans|
    requires MoveEnded(a, Pic(s), plans, target, true)
    modifies s.db`revisions, s.db`lastRevision, s.chml`tunnels, s.chml`mishaps, s.frpc, s.journal
    ensures s.Sound() && s.frpc.RunsFile()
    ensures RaisedFrom(a, Pic(s), plans, target, restorePrevious, ip, r)
  {
    ghost var b := Pic(s);
    var config := VerifyAndGenerate(s, plans, target, changed, a.tunnels, a.mishaps);
    if config.Obtained? {
      r := RaiseVerified(s, plans, target, restorePrevious, ip, changed, config.text, a, b);
    } else {
      r := NotUp(OtherFailure(if config.Unverified? then NotVerified else NoConfig));
      NotRaised(a, b, Pic(s), plans, target, restorePrevious, ip, config, r.r);
    }
  }

  // The runtime, once all tunnels were read back.
  method RaiseVerified(s: AppState, plans: seq<TunnelPlan>, target: string, restorePrevious: bool, ip: string, changed: Changes,
                       text: string, ghost a: Picture, ghost b: Picture)
    returns (r: BroughtUp)
    requires s.Sound() && s.frpc.RunsFile() && DistinctNames(plans)
    requires restorePrevious <==> !s.journal.Now().job.automatic
    requires MayRun(s.journal.Now(), target) && s.journal.Now().stage.node == Some(target)
    requires ChangedFrom(changed, a.tunnels, plans) && |changed| == |plans|
    requires MoveEnded(a, b, plans, target, true) && Generating(b, Pic(s), plans, target, Obtained(text))
    modifies s.db`revisions, s.db`lastRevision, s.chml`tunnels, s.chml`mishaps, s.frpc, s.journal
    ensures s.Sound() && s.frpc.RunsFile()
    ensures RaisedFrom(a, Pic(s), plans, target, restorePrevious, ip, r)
  {
    ghost var c := Pic(s);
    var failure := SwitchRuntime(s, plans, target, text, changed, restorePrevious, a.tunnels, a.mishaps);
    r := if failure.None? then Up(ip) else NotUp(failure.value);
    RaisedBySwitch(a, b, c, Pic(s), plans, target, text, restorePrevious, ip, failure);
  }

  ghost predicate RaisedFrom(a: Picture, b: Picture, plans: seq<TunnelPlan>, target: string, restorePrevious: bool, ip: string,
                             r: BroughtUp)
  {
    && BeforeCommit(a, b)
    && AllPresent(a.tunnels, plans)
    && Layout(a.tunnels, b.tunnels, plans, target, a.mishaps, b.mishaps, a.world.domainField, if r.Up? then Migrated else r.r)
    && FaultsFit(a.runtime.hostFaults, b.runtime.hostFaults, if r.Up? then Migrated else r.r)
    && (r.Up? ==>
          && r.ip == ip
          && AllOn(b.tunnels, plans, target) && Configured(b, plans, target) && Serving(b.runtime, plans)
          && b.watch.stage.ready && b.watch.stage.verified == Some(Checked(target, plans))
          && b.watch.stage.probe == a.watch.stage.probe)
    && (r.NotUp? ==>
          && !r.r.Migrated? && !Untouched(r.r) && r.r != OtherFailure(DnsFailed)
          && (r.r.TargetNodeFailed? ==> Evidence(b.watch, target))
          && (RuntimeUntouched(r.r) ==> Elapsed(a.world.calm, a.runtime, b.runtime))
          && RuntimeLeft(a, b, restorePrevious, r.r))
    && (!Evidence(a.watch, target) && Evidence(b.watch, target) ==> r.NotUp? && r.r.TargetNodeFailed?)
    && (r == NotUp(TargetNodeFailed(TimedOutOffline)) ==> b.runtime.now >= a.runtime.now + 20_000)
    && (a.world.calm && Answering(a.world) && CleanConfigs(a.world, plans, target) ==> r.Up?)
  }

  lemma NotRaised(a: Picture, b: Picture, c: Picture, plans: seq<TunnelPlan>, target: string, restorePrevious: bool, ip: string,
                  config: Config, r: MigrationResult)
    requires AllPresent(a.tunnels, plans)
    requires MoveEnded(a, b, plans, target, true) && Generating(b, c, plans, target, config) && !config.Obtained?
    requires UndoneSince(a.tunnels, c.tunnels, plans, target, a.mishaps, c.mishaps, a.world.domainField)
    requires r in {OtherFailure(NotVerified), OtherFailure(NoConfig)}
    ensures RaisedFrom(a, c, plans, target, restorePrevious, ip, NotUp(r))
  {
    OneTunnelStage(a, b, c);
    if Answering(a.world) && CleanConfigs(a.world, plans, target) {
      MovedCanBeLoaded(a, b, plans, target);
      assert false;
    }
    NotRaisedByStage(a, c, plans, target, restorePrevious, ip, r);
  }

  lemma OneTunnelStage(a: Picture, b: Picture, c: Picture)
    requires TunnelStage(a, b) && TunnelStage(b, c)
    ensures TunnelStage(a, c)
  {
  }

  lemma NotRaisedByStage(a: Picture, c: Picture, plans: seq<TunnelPlan>, target: string, restorePrevious: bool, ip: string,
                         r: MigrationResult)
    requires TunnelStage(a, c)
    requires UndoneSince(a.tunnels, c.tunnels, plans, target, a.mishaps, c.mishaps, a.world.domainField)
    requires !(Answering(a.world) && CleanConfigs(a.world, plans, target))
    requires r in {OtherFailure(NotVerified), OtherFailure(NoConfig)}
    ensures RaisedFrom(a, c, plans, target, restorePrevious, ip, NotUp(r))
  {
  }

  // With a provider that answers, all tunnels match after the move, and the config can be loaded.
  lemma MovedCanBeLoaded(a: Picture, b: Picture, plans: seq<TunnelPlan>, target: string)
    requires AllPresent(a.tunnels, plans) && MoveEnded(a, b, plans, target, true)
    requires Answering(a.world) && CleanConfigs(a.world, plans, target)
    ensures AllOn(b.tunnels, plans, target) && Loadable(b.world, b.tunnels, plans, target)
  {
    MovedMatches(a.tunnels, b.tunnels, plans, target, a.mishaps, b.mishaps, a.world.domainField);
    assert Loadable(a.world, b.tunnels, plans, target);
  }

  lemma RaisedBySwitch(a: Picture, b: Picture, c: Picture, d: Picture, plans: seq<TunnelPlan>, target: string, text: string,
                       restorePrevious: bool, ip: string, failure: Option<MigrationResult>)
    requires AllPresent(a.tunnels, plans)
    requires MoveEnded(a, b, plans, target, true) && Generating(b, c, plans, target, Obtained(text))
    requires Switched(c, d, plans, target, text, restorePrevious, failure)
    requires failure.Some? && !LeftMoved(failure.value) ==>
               UndoneSince(a.tunnels, d.tunnels, plans, target, a.mishaps, d.mishaps, a.world.domainField)
    ensures RaisedFrom(a, d, plans, target, restorePrevious, ip, if failure.None? then Up(ip) else NotUp(failure.value))
  {
    LaidOutBySwitch(a, b, c, d, plans, target, text, restorePrevious, failure);
  }

  lemma LaidOutBySwitch(a: Picture, b: Picture, c: Picture, d: Picture, plans: seq<TunnelPlan>, target: string, text: string,
                        restorePrevious: bool, failure: Option<MigrationResult>)
    requires AllPresent(a.tunnels, plans)
    requires MoveEnded(a, b, plans, target, true) && Generating(b, c, plans, target, Obtained(text))
    requires Switched(c, d, plans, target, text, restorePrevious, failure)
    requires failure.Some? && !LeftMoved(failure.value) ==>
               UndoneSince(a.tunnels, d.tunnels, plans, target, a.mishaps, d.mishaps, a.world.domainField)
    ensures Layout(a.tunnels, d.tunnels, plans, target, a.mishaps, d.mishaps, a.world.domainField,
                   if failure.None? then Migrated else failure.value)
  {
  }

  lemma RaisedAfterPreflight(a: Picture, b: Picture, c: Picture, plans: seq<TunnelPlan>, target: string, restorePrevious: bool,
                             ip: string, snapshot: map<string, RemoteTunnel>, r: BroughtUp)
    requires a.watch.stage == FRESH.(node := Some(target))
    requires Preflown(a, b, plans, target, Proceed(ip, snapshot)) && RaisedFrom(b, c, plans, target, restorePrevious, ip, r)
    ensures Raised(a, c, plans, target, restorePrevious, r)
  {
  }

  // ---------------------------------------------------------------- the commit

  method Promote(s: AppState, target: string, nextStandby: Option<string>)
    requires s.Sound() && StandsOn(s.journal.Now(), target)
    modifies s.db`routing, s.journal
    ensures s.Sound()
    ensures Pic(s) == PromotedTo(old(Pic(s)), target, nextStandby)
  {
    s.db.PromoteActiveNode(target, nextStandby);
  }

  // The routing row of a commit, while DNS is still to come.
  ghost function PromotedTo(a: Picture, target: string, nextStandby: Option<string>): Picture {
    a.(routing := a.routing.(activeNode := Some(target), standbyNode := nextStandby, phase := DnsSwitching,
                             revision := a.routing.revision + 1),
    watch := Step(a.watch, Promoted(target)))
  }

  // The DNS stage of a failover looks records up by their exact name.
  method ExactDns(s: AppState, plans: seq<TunnelPlan>, ip: string) returns (ok: bool)
    requires s.Sound() && CleanDomains(plans)
    requires DnsReady(s.journal.Now(), plans, ip)
    modifies s.db`recordIds, s.cf`zone, s.journal
    ensures s.Sound()
    ensures ExactZoneStep(old(Pic(s)), Pic(s), plans, ip, ok)
  {
    ok := WriteZone(s, plans, ip, false);
  }

  /** What the stage does to the zone. When it succeeds, no managed domain has two A records exactly
      if every existing record was spelled like its domain. */
  ghost predicate ExactZoneStep(a: Picture, b: Picture, plans: seq<TunnelPlan>, ip: string, ok: bool) {
    && b == a.(zone := b.zone, watch := b.watch)
    && OnlyPublished(a.watch, b.watch, ip)
    && ZoneWritten(a.zone, b.zone, plans, ip, ok)
    && (a.world.dnsConfigured && a.world.reachable && NoConflict(a.zone, plans) ==> ok)
  }

  ghost predicate ZoneWritten(before: Zone, after: Zone, plans: seq<TunnelPlan>, ip: string, ok: bool) {
    && Framed(before, after, plans, ip)
    && (NoConflict(before, plans) && LookupIsSound(before, plans, false) ==> NoConflict(after, plans))
    && (ok ==>
          && AllAt(after, plans, ip, false) && NoConflict(before, plans)
          && (NoConflict(after, plans) <==> LookupIsSound(before, plans, false)))
  }

  // The DNS stage, if it is needed, and what the runtime does meanwhile.
  method ExactAnnounce(s: AppState, plans: seq<TunnelPlan>, ip: string) returns (ok: bool)
    requires s.Sound() && s.frpc.RunsFile() && CleanDomains(plans)
    requires AnyDns(plans) ==> DnsReady(s.journal.Now(), plans, ip)
    modifies s.db`recordIds, s.cf`zone, s.frpc, s.journal
    ensures s.Sound() && s.frpc.RunsFile()
    ensures ExactTold(old(Pic(s)), Pic(s), plans, ip, ok)
  {
    ghost var a := Pic(s);
    ok := true;
    if AnyDns(plans) {
      ok := ExactDns(s, plans, ip);
    }
    ghost var b := Pic(s);
    LetTimePass(s);
    assert Passed(b, Pic(s));
  }

  ghost predicate ExactTold(a: Picture, c: Picture, plans: seq<TunnelPlan>, ip: string, ok: bool) {
    exists b :: Passed(b, c) && if AnyDns(plans) then ExactZoneStep(a, b, plans, ip, ok) else ok && b == a
  }

  /** The routing row changes before DNS. A Cloudflare failure leaves it at the new active node, in
      the DNS switching phase. */
  method CommitAndPublish(s: AppState, plans: seq<TunnelPlan>, target: string, nextStandby: Option<string>, ip: string)
    returns (ok: bool)
    requires s.Sound() && s.frpc.RunsFile() && CleanDomains(plans)
    requires Standing(Pic(s), plans, target) && LookedUp(s.journal.Now(), target, ip) && s.journal.Now().stage.published.None?
    requires AnyDns(plans) ==> !IsBlank(ip)
    modifies s.db`routing, s.db`recordIds, s.cf`zone, s.frpc, s.journal
    ensures s.Sound() && s.frpc.RunsFile()
    ensures CommitEnded(old(Pic(s)), Pic(s), plans, target, nextStandby, ip, ok)
  {
    ghost var a := Pic(s);
    Promote(s, target, nextStandby);
    ok := ExactAnnounce(s, plans, ip);
    ghost var c := Pic(s);
    if ok {
      Finalize(s);
    }
    CommittedInSteps(a, c, Pic(s), plans, target, nextStandby, ip, ok);
  }

  method Finalize(s: AppState)
    requires s.Sound() && s.frpc.RunsFile()
    modifies s.db`routing
    ensures s.Sound() && s.frpc.RunsFile()
    ensures var a := old(Pic(s)); Pic(s) == a.(routing := a.routing.(phase := Idle))
  {
    s.db.FinalizeActiveNode();
  }

  ghost predicate CommitEnded(a: Picture, b: Picture, plans: seq<TunnelPlan>, target: string, nextStandby: Option<string>,
                              ip: string, ok: bool)
  {
    && CommittedRow(a, b, target, nextStandby, if ok then Idle else DnsSwitching)
    && CommittedZone(a, b, plans, target, ip, ok)
    && Standing(b, plans, target)
  }

  // The routing row after the promotion. Tunnels and host are left alone.
  ghost predicate CommittedRow(a: Picture, b: Picture, target: string, nextStandby: Option<string>, phase: RoutingPhase) {
    && SameDesk(a, b) && b.tunnels == a.tunnels && b.mishaps == a.mishaps && b.runtime.hostFaults == a.runtime.hostFaults
    && SameJob(b.watch, a.watch)
    && b.routing == a.routing.(activeNode := Some(target), standbyNode := nextStandby, revision := a.routing.revision + 1,
                               phase := phase)
  }

  ghost predicate CommittedZone(a: Picture, b: Picture, plans: seq<TunnelPlan>, target: string, ip: string, ok: bool) {
    && LookedUp(b.watch, target, ip) && b.watch.stage.faulted == a.watch.stage.faulted
    && (if AnyDns(plans) then ZoneWritten(a.zone, b.zone, plans, ip, ok) else ok && b.zone == a.zone)
    && (DnsAnswers(a.world, a.zone, plans) ==> ok)
  }

  lemma CommittedInSteps(a: Picture, c: Picture, d: Picture, plans: seq<TunnelPlan>, target: string, nextStandby: Option<string>,
                         ip: string, ok: bool)
    requires Standing(a, plans, target) && LookedUp(a.watch, target, ip)
    requires ExactTold(PromotedTo(a, target, nextStandby), c, plans, ip, ok)
    requires d == c.(routing := d.routing) && d.routing == if ok then c.routing.(phase := Idle) else c.routing
    ensures CommitEnded(a, d, plans, target, nextStandby, ip, ok)
  {
    var p := PromotedTo(a, target, nextStandby);
    var b :| Passed(b, c) && if AnyDns(plans) then ExactZoneStep(p, b, plans, ip, ok) else ok && b == p;
    StandsAfterCommit(a, b, c, d, plans, target, nextStandby, ip, ok);
    CommittedStanding(a, b, c, d, plans, target, nextStandby, ip, ok);
  }

  lemma CommittedStanding(a: Picture, b: Picture, c: Picture, d: Picture, plans: seq<TunnelPlan>, target: string,
                          nextStandby: Option<string>, ip: string, ok: bool)
    requires LookedUp(a.watch, target, ip) && StandsOn(a.watch, target)
    requires var p := PromotedTo(a, target, nextStandby);
             if AnyDns(plans) then ExactZoneStep(p, b, plans, ip, ok) else ok && b == p
    requires Passed(b, c)
    requires d == c.(routing := d.routing) && d.routing == if ok then c.routing.(phase := Idle) else c.routing
    requires Standing(d, plans, target)
    ensures CommitEnded(a, d, plans, target, nextStandby, ip, ok)
  {
    ZoneAfterStage(a, b, plans, target, nextStandby, ip, ok);
    CommittedPasses(a, b, c, d, plans, target, nextStandby, ip, ok);
  }

  lemma ZoneAfterStage(a: Picture, b: Picture, plans: seq<TunnelPlan>, target: string, nextStandby: Option<string>, ip: string, ok: bool)
    requires LookedUp(a.watch, target, ip) && StandsOn(a.watch, target)
    requires var p := PromotedTo(a, target, nextStandby);
             if AnyDns(plans) then ExactZoneStep(p, b, plans, ip, ok) else ok && b == p
    ensures CommittedRow(a, b, target, nextStandby, DnsSwitching) && CommittedZone(a, b, plans, target, ip, ok)
  {
  }

  lemma CommittedPasses(a: Picture, b: Picture, c: Picture, d: Picture, plans: seq<TunnelPlan>, target: string,
                        nextStandby: Option<string>, ip: string, ok: bool)
    requires CommittedRow(a, b, target, nextStandby, DnsSwitching) && CommittedZone(a, b, plans, target, ip, ok)
    requires Passed(b, c)
    requires d == c.(routing := d.routing) && d.routing == if ok then c.routing.(phase := Idle) else c.routing
    ensures CommittedRow(a, d, target, nextStandby, if ok then Idle else DnsSwitching) && CommittedZone(a, d, plans, target, ip, ok)
  {
  }

  lemma StandsAfterCommit(a: Picture, b: Picture, c: Picture, d: Picture, plans: seq<TunnelPlan>, target: string,
                          nextStandby: Option<string>, ip: string, ok: bool)
    requires Standing(a, plans, target)
    requires var p := PromotedTo(a, target, nextStandby);
             if AnyDns(plans) then ExactZoneStep(p, b, plans, ip, ok) else ok && b == p
    requires Passed(b, c) && d == c.(routing := d.routing)
    ensures Standing(d, plans, target)
  {
    StandingPublished(a, b, plans, target, nextStandby, ip, ok);
    StandingPasses(b, c, plans, target);
    StandingIgnoresRouting(c, d, plans, target);
  }

  lemma StandingIgnoresRouting(c: Picture, d: Picture, plans: seq<TunnelPlan>, node: string)
    requires Standing(c, plans, node) && d == c.(routing := d.routing)
    ensures Standing(d, plans, node)
  {
  }

  lemma StandingPublished(a: Picture, b: Picture, plans: seq<TunnelPlan>, target: string, nextStandby: Option<string>, ip: string,
                          ok: bool)
    requires Standing(a, plans, target)
    requires var p := PromotedTo(a, target, nextStandby);
             if AnyDns(plans) then ExactZoneStep(p, b, plans, ip, ok) else ok && b == p
    ensures Standing(b, plans, target)
  {
  }

  // ---------------------------------------------------------------- the call

  // The result comes after the commit.
  predicate Committing(r: MigrationResult) {
    r.Migrated? || r == OtherFailure(DnsFailed)
  }

  /** One call of `migrate_to`. */
  ghost predicate Attempt(a: Picture, b: Picture, target: string, nextStandby: Option<string>, restorePrevious: bool,
                          r: MigrationResult)
  {
    && SameDesk(a, b)
    && b.watch.job == a.watch.job.(attempts := a.watch.job.attempts + [target],
                                   blamed := if r.TargetNodeFailed? then a.watch.job.blamed + {target} else a.watch.job.blamed)
    && b.watch.lastFault == a.watch.lastFault && b.watch.safe == a.watch.safe
    && (if a.Wanted() == [] then r == OtherFailure(NothingPlanned) && b == a.(watch := b.watch)
        else AttemptOutcome(a, b, a.Wanted(), target, nextStandby, restorePrevious, r)
             && AttemptPromises(a, b, a.Wanted(), target, r))
  }

  /** What the call leaves behind. */
  ghost predicate AttemptOutcome(a: Picture, b: Picture, plans: seq<TunnelPlan>, target: string, nextStandby: Option<string>,
                                 restorePrevious: bool, r: MigrationResult)
  {
    && r != OtherFailure(NothingPlanned)
    // All or nothing, and the way back.
    && Layout(a.tunnels, b.tunnels, plans, target, a.mishaps, b.mishaps, a.world.domainField, r)
    && FaultsFit(a.runtime.hostFaults, b.runtime.hostFaults, r)
    // The routing row and the zone change at the commit only.
    && (if Committing(r) then CommitOutcome(a, b, plans, target, nextStandby, r)
        else RuntimeLeft(a, b, restorePrevious, r) && b.routing == a.routing && b.zone == a.zone)
    // Evidence against the node, and nothing else, counts as its failure.
    && (r.TargetNodeFailed? <==> Evidence(b.watch, target)) && b.watch.stage.node == Some(target)
  }

  ghost predicate CommitOutcome(a: Picture, b: Picture, plans: seq<TunnelPlan>, target: string, nextStandby: Option<string>,
                                r: MigrationResult)
  {
    && Standing(b, plans, target)
    && b.routing == a.routing.(activeNode := Some(target), standbyNode := nextStandby, revision := a.routing.revision + 1,
                               phase := if r.Migrated? then Idle else DnsSwitching)
    && b.watch.stage.probe.Some? && b.watch.stage.probe.value.node == target
    && (if AnyDns(plans)
        then !IsBlank(b.watch.stage.probe.value.ip) && ZoneWritten(a.zone, b.zone, plans, b.watch.stage.probe.value.ip, r.Migrated?)
        else b.zone == a.zone)
  }

  /** When the outcome is known beforehand: a welcoming node is taken, one that is down is recognised,
      and what is not touched goes on. */
  ghost predicate AttemptPromises(a: Picture, b: Picture, plans: seq<TunnelPlan>, target: string, r: MigrationResult) {
    && (Undisturbed(a, plans, target) && AllPresent(a.tunnels, plans) && CleanConfigs(a.world, plans, target) ==> r.Migrated?)
    && ((Answering(a.world) && DnsAnswers(a.world, a.zone, plans)
         && target in a.world.directory && !IsOnline(a.world.directory[target].state))
        ==> r == TargetNodeFailed(ReportedOffline))
    && (Answering(a.world) && DnsAnswers(a.world, a.zone, plans) && target !in a.world.directory ==>
          r == OtherFailure(PreflightRefused))
    && (RuntimeUntouched(r) ==> Elapsed(a.world.calm, a.runtime, b.runtime))
    && (Answering(a.world) ==> b.mishaps == a.mishaps)
    && (r == TargetNodeFailed(TimedOutOffline) ==> b.runtime.now >= a.runtime.now + 20_000)
  }

  /** All or nothing: every planned tunnel matches its plan on the target, or, when no compensation was
      garbled or given up, every one is back where it was. Without evidence against the target, the
      tunnels stay moved exactly if the routing row was committed or the config file could not be
      read. */
  ghost predicate AllOrNothing(a: Picture, b: Picture, target: string, r: MigrationResult) {
    && (LeftMoved(r) ==> AllOn(b.tunnels, a.Wanted(), target))
    && (!LeftMoved(r) && AllPresent(a.tunnels, a.Wanted()) && !AnyCompensationFailed(a.tunnels, a.Wanted(), a.mishaps, b.mishaps)
        ==> BackWhereItWas(a.tunnels, b.tunnels, a.Wanted(), target, a.mishaps, b.mishaps, a.world.domainField))
    && (!Evidence(b.watch, target) ==>
          (LeftMoved(r) <==> b.routing != a.routing || b.runtime.hostFaults.badReads > a.runtime.hostFaults.badReads))
  }

  lemma AttemptIsAllOrNothing(a: Picture, b: Picture, target: string, nextStandby: Option<string>, restorePrevious: bool,
                              r: MigrationResult)
    requires Attempt(a, b, target, nextStandby, restorePrevious, r)
    ensures AllOrNothing(a, b, target, r)
  {
    var plans := a.Wanted();
    if plans != [] && AllPresent(a.tunnels, plans) && !AnyCompensationFailed(a.tunnels, plans, a.mishaps, b.mishaps) {
      NeverSplit(a.tunnels, b.tunnels, plans, target, a.mishaps, b.mishaps, a.world.domainField, r);
    }
    if !Evidence(b.watch, target) {
      MoveStays(a.routing, b.routing, a.runtime.hostFaults, b.runtime.hostFaults, r);
    }
  }

  // Whether the tunnels stay moved shows in the routing row, or in the count of failed reads.
  lemma MoveStays(before: RoutingState, after: RoutingState, m0: HostFaults, m1: HostFaults, r: MigrationResult)
    requires FaultsFit(m0, m1, r) && !r.TargetNodeFailed?
    requires if Committing(r) then after.revision == before.revision + 1 else after == before
    ensures LeftMoved(r) <==> after != before || m1.badReads > m0.badReads
  {
  }

  /** Without managed DNS no record changes; and on a calm host an answering provider and an online
      target with all tunnels are enough to commit. */
  ghost predicate UnmanagedAttempt(a: Picture, b: Picture, target: string, r: MigrationResult) {
    Unmanaged(a) ==>
      && b.zone == a.zone
      && ((a.Wanted() != [] && OnlineAt(a.world, target) && a.world.calm && AllPresent(a.tunnels, a.Wanted())
           && CleanConfigs(a.world, a.Wanted(), target))
          ==> r.Migrated?)
  }

  lemma AttemptWithoutDns(a: Picture, b: Picture, target: string, nextStandby: Option<string>, restorePrevious: bool,
                          r: MigrationResult)
    requires Attempt(a, b, target, nextStandby, restorePrevious, r)
    ensures UnmanagedAttempt(a, b, target, r)
  {
  }

  lemma AttemptMeans(a: Picture, b: Picture, target: string, nextStandby: Option<string>, restorePrevious: bool, r: MigrationResult)
    requires Attempt(a, b, target, nextStandby, restorePrevious, r)
    ensures AllOrNothing(a, b, target, r) && UnmanagedAttempt(a, b, target, r)
  {
    AttemptIsAllOrNothing(a, b, target, nextStandby, restorePrevious, r);
    AttemptWithoutDns(a, b, target, nextStandby, restorePrevious, r);
  }

  method MigrateTo(s: AppState, target: string, nextStandby: Option<string>, restorePrevious: bool) returns (r: MigrationResult)
    requires s.Valid()
    requires restorePrevious <==> !s.journal.Now().job.automatic
    requires MayRun(s.journal.Now(), target)
    modifies s.db`routing, s.db`recordIds, s.db`revisions, s.db`lastRevision
    modifies s.chml`tunnels, s.chml`mishaps, s.cf`zone, s.frpc, s.journal
    ensures s.Valid()
    ensures Attempt(old(Pic(s)), Pic(s), target, nextStandby, restorePrevious, r)
    ensures AllOrNothing(old(Pic(s)), Pic(s), target, r)
    ensures UnmanagedAttempt(old(Pic(s)), Pic(s), target, r)
  {
    ghost var a := Pic(s);
    r := MigrateMarked(s, target, nextStandby, restorePrevious);
    AttemptMeans(a, Pic(s), target, nextStandby, restorePrevious, r);
  }

  // The call between its marks.
  method MigrateMarked(s: AppState, target: string, nextStandby: Option<string>, restorePrevious: bool) returns (r: MigrationResult)
    requires s.Valid()
    requires restorePrevious <==> !s.journal.Now().job.automatic
    requires MayRun(s.journal.Now(), target)
    modifies s.db`routing, s.db`recordIds, s.db`revisions, s.db`lastRevision
    modifies s.chml`tunnels, s.chml`mishaps, s.cf`zone, s.frpc, s.journal
    ensures s.Valid()
    ensures Attempt(old(Pic(s)), Pic(s), target, nextStandby, restorePrevious, r)
  {
    ghost var a := Pic(s);
    Mark(s, MigrationStarted(target));
    var plans := Enabled(s.db.plans);
    EnabledKeepsWellFormed(s.db.plans);
    if plans == [] {
      r := OtherFailure(NothingPlanned);
    } else {
      r := MigratePlans(s, plans, target, nextStandby, restorePrevious);
      AttemptWhenStarted(a, Pic(s), target, nextStandby, restorePrevious, r);
    }
    Mark(s, MigrationEnded);
  }

  // The start or the end of a call.
  method Mark(s: AppState, ghost e: Effect)
    requires s.Valid() && (e.MigrationStarted? || e.MigrationEnded?)
    modifies s.journal
    ensures s.Valid()
    ensures var a := old(Pic(s)); Pic(s) == a.(watch := Step(a.watch, e))
  {
    s.journal.Record(e);
  }

  lemma AttemptWhenStarted(a: Picture, c: Picture, target: string, nextStandby: Option<string>, restorePrevious: bool,
                           r: MigrationResult)
    requires a.Wanted() != []
    requires var b := a.(watch := Step(a.watch, MigrationStarted(target)));
             && SameDesk(b, c) && SameJob(c.watch, b.watch)
             && AttemptOutcome(b, c, a.Wanted(), target, nextStandby, restorePrevious, r)
             && AttemptPromises(b, c, a.Wanted(), target, r)
    ensures Attempt(a, c.(watch := Step(c.watch, MigrationEnded)), target, nextStandby, restorePrevious, r)
  {
    var d := c.(watch := Step(c.watch, MigrationEnded));
    assert Standing(c, a.Wanted(), target) ==> Standing(d, a.Wanted(), target);
  }

  method MigratePlans(s: AppState, plans: seq<TunnelPlan>, target: string, nextStandby: Option<string>, restorePrevious: bool)
    returns (r: MigrationResult)
    requires s.Valid() && WellFormedPlans(plans)
    requires restorePrevious <==> !s.journal.Now().job.automatic
    requires MayRun(s.journal.Now(), target)
    requires s.journal.Now().stage == FRESH.(node := Some(target))
    modifies s.db`routing, s.db`recordIds, s.db`revisions, s.db`lastRevision
    modifies s.chml`tunnels, s.chml`mishaps, s.cf`zone, s.frpc, s.journal
    ensures s.Valid()
    ensures SameDesk(old(Pic(s)), Pic(s)) && SameJob(s.journal.Now(), old(s.journal.Now()))
    ensures AttemptOutcome(old(Pic(s)), Pic(s), plans, target, nextStandby, restorePrevious, r)
    ensures AttemptPromises(old(Pic(s)), Pic(s), plans, target, r)
  {
    ghost var a := Pic(s);
    var up := BringUp(s, plans, target, restorePrevious);
    ghost var b := Pic(s);
    match up {
      case NotUp(failure) =>
        r := failure;
      case Up(ip) =>
        var published := CommitAndPublish(s, plans, target, nextStandby, ip);
        r := if published then Migrated else OtherFailure(DnsFailed);
        AttemptedWithCommit(a, b, Pic(s), plans, target, nextStandby, restorePrevious, ip, published);
    }
  }

  lemma AttemptedWithCommit(a: Picture, b: Picture, c: Picture, plans: seq<TunnelPlan>, target: string, nextStandby: Option<string>,
                            restorePrevious: bool, ip: string, published: bool)
    requires Raised(a, b, plans, target, restorePrevious, Up(ip))
    requires CommitEnded(b, c, plans, target, nextStandby, ip, published)
    ensures var r := if published then Migrated else OtherFailure(DnsFailed);
            && SameDesk(a, c) && SameJob(c.watch, a.watch)
            && AttemptOutcome(a, c, plans, target, nextStandby, restorePrevious, r)
            && AttemptPromises(a, c, plans, target, r)
  {
    var r := if published then Migrated else OtherFailure(DnsFailed);
    CommitIsOutcome(a, b, c, plans, target, nextStandby, restorePrevious, ip, r);
  }

  lemma CommitIsOutcome(a: Picture, b: Picture, c: Picture, plans: seq<TunnelPlan>, target: string, nextStandby: Option<string>,
                        restorePrevious: bool, ip: string, r: MigrationResult)
    requires Raised(a, b, plans, target, restorePrevious, Up(ip))
    requires Committing(r) && CommitEnded(b, c, plans, target, nextStandby, ip, r.Migrated?)
    ensures AttemptOutcome(a, c, plans, target, nextStandby, restorePrevious, r)
  {
  }
}

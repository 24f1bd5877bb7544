/** The managed FRPC process: its config file, its generation-numbered runtime state, and the
    readiness poll. */
module FrpcRuntime {
  import opened Basics
  import opened Domain
  import opened FrpcLogs
  import opened Journals
  import opened RuntimeViews

  datatype Readiness =
    | Ready
    | NodeFailure(fault: FrpcEvent)
    | StartupFailure
    | TimedOut(connected: bool, missing: seq<string>)

  /** A line that changes no fault and no connection for the worse. */
  predicate Harmless(e: FrpcEvent) {
    !IsNodeFault(e) && !IsStartupFault(e) && !e.eventType.ServerConnectionFailure?
  }

  // The line tells of an authentication or configuration fault, and of nothing that comes first.
  predicate IsStartupLine(p: Phrases, localDup: bool) {
    !p.login && !p.added && !p.started && (p.auth || p.config || (p.conflict && localDup))
  }

  // Failed reads and writes of the config file, and failed starts, as the coordinator met them.
  datatype HostFaults = HostFaults(badReads: nat, badWrites: nat, badStarts: nat)

  datatype Runtime = Runtime(
    generation: nat,
    child: Option<string>,
    running: bool,
    connected: bool,
    started: set<string>,
    nodeFault: Option<FrpcEvent>,
    startupFault: Option<FrpcEvent>,
    configFile: Option<string>,
    configRevision: Option<int>,
    external: nat,
    now: nat,
    hostFaults: HostFaults)

  // No fault of the current generation is recorded.
  predicate Faultless(rt: Runtime) {
    && !(rt.nodeFault.Some? && rt.nodeFault.value.generation == rt.generation)
    && !(rt.startupFault.Some? && rt.startupFault.value.generation == rt.generation)
  }

  predicate IsServing(rt: Runtime, expected: seq<string>) {
    rt.running && rt.connected && Faultless(rt) && AllStarted(rt.started, expected)
  }

  /** What log lines, status polls and start or stop calls from the API may do, in any number and
      order. */
  predicate Elapsed(calm: bool, a: Runtime, b: Runtime) {
    && b.generation >= a.generation && b.external >= a.external && b.now >= a.now
    && b.configFile == a.configFile && b.configRevision == a.configRevision && b.hostFaults == a.hostFaults
    && (b.external == a.external ==>
          b.generation == a.generation && (b.running ==> a.running && b.child == a.child) && b.started >= a.started)
    && (calm ==>
          && b.external == a.external && b.running == a.running && b.child == a.child
          && (a.connected ==> b.connected)
          && b.nodeFault == a.nodeFault && b.startupFault == a.startupFault)
  }

  lemma ServesOn(a: Runtime, b: Runtime, expected: seq<string>)
    requires Elapsed(true, a, b)
    ensures IsServing(a, expected) ==> IsServing(b, expected)
    ensures Faultless(a) == Faultless(b)
  {
    if AllStarted(a.started, expected) {
      forall i | 0 <= i < |expected|
        ensures IsStarted(b.started, expected[i])
      {
        assert IsStarted(a.started, expected[i]);
      }
    }
  }

  // The poll instants of a readiness wait that began at `start`: one at once, then one after each
  // pause, and none after the first at which the timeout has passed.
  ghost predicate PolledUntil(polls: seq<nat>, start: nat, timeout: nat, end: nat) {
    && polls != [] && polls[0] == start && polls[|polls| - 1] == end
    && forall i :: 0 <= i < |polls| - 1 ==> polls[i] < start + timeout && polls[i] + 500 <= polls[i + 1]
  }

  class FrpcManager {
    const journal: Journal

    // While calm, the process does not exit, log lines are harmless, nobody uses the start/stop
    // API, the host does not fail, and a started process logs in and starts its proxies before the
    // first pause of a readiness poll ends. Never changed here.
    var calm: bool

    var generation: nat
    var child: Option<string>            // the config text the live process was started from
    var running: bool
    var connected: bool
    var lastError: Option<string>
    var configRevision: Option<int>
    var configFile: Option<string>
    var startedProxies: set<string>
    var tunnelStates: map<string, TunnelState>
    var lastNodeFault: Option<FrpcEvent>
    var lastStartupFault: Option<FrpcEvent>

    var startGeneration: nat             // generation carried by the newest log readers
    ghost var accepted: seq<FrpcEvent>   // events accepted since that start
    ghost var views: seq<RuntimeView>
    ghost var external: nat              // start/stop calls made from outside the coordinator
    var now: nat                         // milliseconds; this clock never runs backwards
    ghost var hostFaults: HostFaults

    ghost function View(): RuntimeView
      reads `startedProxies, `tunnelStates, `lastNodeFault, `lastStartupFault
    {
      RuntimeView(startedProxies, tunnelStates, lastNodeFault, lastStartupFault)
    }

    /** The runtime state is the replay of exactly the events accepted since the last real start,
        and all of them carry that start's generation. */
    ghost predicate Valid()
      reads `generation, `child, `running, `startGeneration
      reads `startedProxies, `tunnelStates, `lastNodeFault, `lastStartupFault, `accepted, `views
    {
      && startGeneration <= generation
      && (running <==> child.Some?)
      && (running ==> startGeneration == generation)
      && LogReplayed()
    }

    ghost predicate LogReplayed()
      reads `startedProxies, `tunnelStates, `lastNodeFault, `lastStartupFault, `startGeneration, `accepted, `views
    {
      && IsReplay(views, accepted)
      && View() == views[|accepted|]
      && (forall i :: 0 <= i < |accepted| ==> accepted[i].generation == startGeneration)
      && (lastNodeFault.Some? ==> IsNodeFault(lastNodeFault.value) && lastNodeFault.value.generation == startGeneration)
      && (lastStartupFault.Some? ==> IsStartupFault(lastStartupFault.value) && lastStartupFault.value.generation == startGeneration)
    }

    /** A live process was started from the text now in the config file. */
    ghost predicate RunsFile()
      reads `child, `configFile
    {
      child.Some? ==> configFile == child
    }

    ghost function State(): Runtime
      reads `generation, `child, `running, `connected, `startedProxies, `lastNodeFault, `lastStartupFault
      reads `configFile, `configRevision, `external, `now, `hostFaults
    {
      Runtime(generation, child, running, connected, startedProxies, lastNodeFault, lastStartupFault, configFile,
              configRevision, external, now, hostFaults)
    }

    predicate StartupFaulted()
      reads `generation, `lastStartupFault
    {
      lastStartupFault.Some? && lastStartupFault.value.generation == generation
    }

    constructor (journal: Journal)
      ensures Valid() && RunsFile()
      ensures this.journal == journal
      ensures generation == 0 && !running && configRevision == None
    {
      this.journal := journal;
      calm := false;
      generation, startGeneration, external, now, hostFaults := 0, 0, 0, 0, HostFaults(0, 0, 0);
      child, running, connected := None, false, false;
      lastError, configRevision, configFile := None, None, None;
      startedProxies, tunnelStates, lastNodeFault, lastStartupFault := {}, map[], None, None;
      accepted, views := [], [BLANK];
    }

    // ---------------------------------------------------------------- log lines

    method AcceptLine(line: LogLine, localDup: bool, lineGeneration: nat)
      requires Valid()
      requires lineGeneration <= startGeneration   // readers exist only for started processes
      modifies `connected, `lastError, `startedProxies, `tunnelStates, `lastNodeFault, `lastStartupFault, `accepted, `views
      ensures Valid()
      ensures lineGeneration != generation ==>
                View() == old(View()) && accepted == old(accepted) && connected == old(connected) && lastError == old(lastError)
      ensures lineGeneration == generation ==>
                && accepted == old(accepted) + [Classify(line, localDup, lineGeneration)]
                && View() == Absorb(old(View()), Classify(line, localDup, lineGeneration))
      ensures lineGeneration == generation && IsStartupLine(line.phrases, localDup) ==>
                && lastStartupFault == Some(accepted[|accepted| - 1]) && lastNodeFault == old(lastNodeFault)
                && lastStartupFault.value.raw == line.raw && StartupFaulted()
      ensures lineGeneration == generation && !IsStartupLine(line.phrases, localDup) ==> lastStartupFault == old(lastStartupFault)
      ensures lineGeneration == generation ==>
                var e := Classify(line, localDup, lineGeneration);
                && connected == (e.eventType.LoginSuccess? || (old(connected) && !e.eventType.ServerConnectionFailure?))
                && lastError == (if e.eventType.LoginSuccess? then None
                                 else if e.eventType in {ServerConnectionFailure, AuthFailure, ConfigMismatch} then Some(e.raw)
                                 else old(lastError))
      ensures startedProxies >= old(startedProxies)
      ensures lineGeneration == generation && Starts(Classify(line, localDup, lineGeneration), line.proxyName.GetOr("")) ==>
                line.proxyName.GetOr("") in startedProxies
      ensures Harmless(Classify(line, localDup, lineGeneration)) ==>
                && (old(connected) ==> connected)
                && lastNodeFault == old(lastNodeFault) && lastStartupFault == old(lastStartupFault)
    {
      if lineGeneration == generation {
        var event := Classify(line, localDup, lineGeneration);
        match event.eventType {
          case LoginSuccess =>
            connected, lastError := true, None;
          case ServerConnectionFailure =>
            connected, lastError := false, Some(event.raw);
          case AuthFailure =>
            lastError := Some(event.raw);
          case ConfigMismatch =>
            lastError := Some(event.raw);
          case _ =>
        }
        LineAbsorbed(View(), line, localDup, lineGeneration);
        NoteEvent(event);
      }
    }

    // The generation-scoped part of `accept_line`.
    method NoteEvent(event: FrpcEvent)
      requires LogReplayed() && event.generation == startGeneration
      requires event.triggersFailover <==> event.faultDomain.NodeFault?
      modifies `startedProxies, `tunnelStates, `lastNodeFault, `lastStartupFault, `accepted, `views
      ensures LogReplayed()
      ensures accepted == old(accepted) + [event]
      ensures View() == Absorb(old(View()), event)
    {
      ApplyEvent(event);
      ReplayMore(views, accepted, event);
      views := views + [Absorb(views[|accepted|], event)];
      accepted := accepted + [event];
    }

    method ApplyEvent(event: FrpcEvent)
      requires event.triggersFailover <==> event.faultDomain.NodeFault?
      modifies `startedProxies, `tunnelStates, `lastNodeFault, `lastStartupFault
      ensures View() == Absorb(old(View()), event)
    {
      if event.eventType.ProxyStarted? && event.proxyName.Some? {
        startedProxies := startedProxies + {event.proxyName.value};
      }
      if event.triggersFailover && event.faultDomain.NodeFault? {
        lastNodeFault := Some(event);
        tunnelStates := map n | n in tunnelStates :: TunnelState(NodeDown, event);
      } else if event.faultDomain.AuthFault? || event.faultDomain.ConfigFault? {
        lastStartupFault := Some(event);
      }
      if event.proxyName.Some? {
        var status := StatusOf(event.eventType);
        if status.Some? {
          tunnelStates := tunnelStates[event.proxyName.value := TunnelState(status.value, event)];
        }
      }
    }

    // ---------------------------------------------------------------- process control

    method Status()
      requires Valid()
      modifies `child, `running, `connected, `lastError
      ensures Valid()
      ensures running ==> old(running) && child == old(child) && connected == old(connected)
      ensures !running ==> child.None?
      ensures calm ==> running == old(running) && child == old(child) && connected == old(connected)
    {
      var exited: bool := *;
      if child.Some? && !calm && exited {
        child := None;
        running, connected := false, false;
        lastError := Some("FRPC exited");
      }
    }

    /** `start`, apart from the journal. A process that is still alive is left alone. */
    method Spawn() returns (ok: bool, started: bool)
      requires Valid()
      modifies `generation, `child, `running, `connected, `lastError, `startedProxies, `tunnelStates
      modifies `lastNodeFault, `lastStartupFault, `startGeneration, `accepted, `views
      ensures Valid()
      ensures generation >= old(generation) && startGeneration >= old(startGeneration)
      ensures started ==> ok && generation == old(generation) + 1 && running && child == configFile && accepted == [] && !connected
      ensures !started && running ==> old(running) && child == old(child) && generation == old(generation)
      ensures started ==> Faultless(State())
      ensures ok ==> running
      ensures calm && configFile.Some? ==> ok
      ensures old(RunsFile()) ==> RunsFile()
    {
      ok, started := false, false;
      var installed: bool, readable: bool := *, *;
      if (calm || (installed && readable)) && configFile.Some? {
        var clear := CheckChild();
        if clear && running {
          ok := true;
        } else if clear {
          started := Launch();
          ok := started;
        }
      }
    }

    // Is the previous process known to be alive (still running) or gone? The check itself may fail.
    method CheckChild() returns (clear: bool)
      requires Valid()
      modifies `child, `running, `connected, `lastError
      ensures Valid()
      ensures running ==> old(running) && child == old(child)
      ensures !clear ==> running
      ensures calm ==> clear
    {
      var checkFails: bool, exited: bool := *, *;
      if child.Some? && checkFails && !calm {
        return false;
      }
      if child.Some? && exited {
        child := None;
        running, connected := false, false;
        lastError := Some("FRPC exited before start request");
      }
      return true;
    }

    // Every real start opens a new generation; the spawn itself may still fail.
    method Launch() returns (started: bool)
      requires Valid() && !running && configFile.Some?
      modifies `generation, `child, `running, `connected, `lastError, `startedProxies, `tunnelStates
      modifies `lastNodeFault, `lastStartupFault, `startGeneration, `accepted, `views
      ensures Valid()
      ensures generation == startGeneration == old(generation) + 1
      ensures accepted == [] && Faultless(State())
      ensures started ==> running && child == configFile && !connected
      ensures !started ==> !running
      ensures calm ==> started
    {
      generation := generation + 1;
      startGeneration := generation;
      ClearLog();
      var spawned: bool := *;
      started := calm || spawned;
      if started {
        running, connected, lastError := true, false, None;
        child := configFile;
      }
    }

    method ClearLog()
      modifies `startedProxies, `tunnelStates, `lastNodeFault, `lastStartupFault, `accepted, `views
      ensures LogReplayed()
      ensures accepted == [] && View() == BLANK
    {
      tunnelStates, startedProxies, lastNodeFault, lastStartupFault := map[], {}, None, None;
      accepted, views := [], [BLANK];
    }

    /** `stop`, apart from the journal: the generation moves first, so late lines are stale. */
    method Halt()
      requires Valid()
      modifies `generation, `child, `running, `connected
      ensures Valid() && RunsFile()
      ensures generation == old(generation) + 1
      ensures !running && !connected
    {
      generation := generation + 1;
      child := None;
      running, connected := false, false;
    }

    method Start() returns (ok: bool)
      requires Valid() && journal.Valid()
      modifies `generation, `child, `running, `connected, `lastError, `startedProxies, `tunnelStates
      modifies `lastNodeFault, `lastStartupFault, `startGeneration, `accepted, `views, `hostFaults, journal
      ensures Valid() && journal.Valid()
      ensures generation >= old(generation)
      ensures startGeneration >= old(startGeneration)
      ensures ok ==> running
      ensures hostFaults == if ok then old(hostFaults) else old(hostFaults).(badStarts := old(hostFaults).badStarts + 1)
      ensures !ok && running ==> old(running)
      ensures ok && !old(running) ==> Faultless(State())
      ensures calm && configFile.Some? ==> ok
      ensures old(RunsFile()) ==> RunsFile()
      ensures journal.Now() == old(journal.Now()) || journal.Now() == Step(old(journal.Now()), RuntimeStarted)
    {
      var started;
      ok, started := Spawn();
      if started {
        journal.Record(RuntimeStarted);
      }
      if !ok {
        hostFaults := hostFaults.(badStarts := hostFaults.badStarts + 1);
      }
    }

    method Stop()
      requires Valid() && journal.Valid()
      modifies `generation, `child, `running, `connected, journal
      ensures Valid() && journal.Valid() && RunsFile()
      ensures generation == old(generation) + 1
      ensures !running && !connected
      ensures journal.Now() == Step(old(journal.Now()), RuntimeStopped)
    {
      Halt();
      journal.Record(RuntimeStopped);
    }

    method Restart() returns (ok: bool)
      requires Valid() && journal.Valid()
      modifies `generation, `child, `running, `connected, `lastError, `startedProxies, `tunnelStates
      modifies `lastNodeFault, `lastStartupFault, `startGeneration, `accepted, `views, `external, `now, `hostFaults, journal
      ensures Valid() && journal.Valid() && RunsFile()
      ensures generation > old(generation) && external >= old(external) && now >= old(now) + 300
      ensures ok ==> running && (external == old(external) ==> Faultless(State()))
      ensures hostFaults == if ok then old(hostFaults) else old(hostFaults).(badStarts := old(hostFaults).badStarts + 1)
      ensures !ok && external == old(external) ==> !running
      ensures calm && configFile.Some? ==> ok && external == old(external)
      ensures journal.Now() == Step(old(journal.Now()), RuntimeStopped)
           || journal.Now() == Step(Step(old(journal.Now()), RuntimeStopped), RuntimeStarted)
    {
      Stop();
      Sleep(300);
      ok := Start();
    }

    // ---------------------------------------------------------------- config file

    method ReadConfig() returns (ok: bool, text: Option<string>)
      modifies `hostFaults
      ensures ok ==> text == configFile
      ensures hostFaults == if ok then old(hostFaults) else old(hostFaults).(badReads := old(hostFaults).badReads + 1)
      ensures calm ==> ok
    {
      var fails: bool := *;
      if fails && !calm {
        hostFaults := hostFaults.(badReads := hostFaults.badReads + 1);
        return false, None;
      }
      return true, configFile;
    }

    /** Written to a temporary file and renamed: a failed write changes nothing. */
    method WriteConfig(text: string, revision: Option<int>) returns (ok: bool)
      requires journal.Valid()
      modifies `configFile, `configRevision, `hostFaults, journal
      ensures journal.Valid()
      ensures hostFaults == if ok then old(hostFaults) else old(hostFaults).(badWrites := old(hostFaults).badWrites + 1)
      ensures ok ==> configFile == Some(text) && configRevision == revision
                     && journal.Now() == Step(old(journal.Now()), ConfigWritten(revision, text))
      ensures !ok ==> configFile == old(configFile) && configRevision == old(configRevision)
                      && journal.Now() == old(journal.Now())
      ensures calm ==> ok
    {
      var fails: bool := *;
      if fails && !calm {
        hostFaults := hostFaults.(badWrites := hostFaults.badWrites + 1);
        return false;
      }
      configFile := Some(text);
      configRevision := revision;
      journal.Record(ConfigWritten(revision, text));
      return true;
    }

    // ---------------------------------------------------------------- everyone else

    /** What may happen to the runtime while the coordinator waits. */
    twostate predicate Disturbed()
      reads this
    {
      && Elapsed(calm, old(State()), State())
      && startGeneration >= old(startGeneration)
      && (external == old(external) ==> startGeneration == old(startGeneration) && old(accepted) <= accepted)
      && (old(RunsFile()) ==> RunsFile())
    }

    method Interfere()
      requires Valid()
      modifies `generation, `child, `running, `connected, `lastError, `startedProxies, `tunnelStates
      modifies `lastNodeFault, `lastStartupFault, `startGeneration, `accepted, `views, `external, `now
      ensures Valid()
      ensures Disturbed()
    {
      var steps: int :| steps >= 0;
      while steps > 0
        invariant Valid()
        invariant Disturbed()
      {
        EnvironmentStep();
        steps := steps - 1;
      }
    }

    method EnvironmentStep()
      requires Valid()
      modifies `generation, `child, `running, `connected, `lastError, `startedProxies, `tunnelStates
      modifies `lastNodeFault, `lastStartupFault, `startGeneration, `accepted, `views, `external, `now
      ensures Valid()
      ensures Disturbed()
    {
      var choice: int := *;
      if choice == 0 {
        Status();
      } else if choice == 1 && !calm {
        ApiStep();
      } else if choice == 2 {
        var passed: int :| passed >= 0;
        now := now + passed;
      } else {
        LineStep();
      }
    }

    // A start or stop request; a restart is both.
    method ApiStep()
      requires Valid() && !calm
      modifies `generation, `child, `running, `connected, `lastError, `startedProxies, `tunnelStates
      modifies `lastNodeFault, `lastStartupFault, `startGeneration, `accepted, `views, `external, `now
      ensures Valid()
      ensures Disturbed()
    {
      var stop: bool := *;
      if stop {
        Halt();
      } else {
        var _, _ := Spawn();
      }
      external := external + 1;
    }

    // A line from a reader of this or an earlier process.
    method LineStep()
      requires Valid()
      modifies `connected, `lastError, `startedProxies, `tunnelStates, `lastNodeFault, `lastStartupFault, `accepted, `views
      ensures Valid()
      ensures Disturbed()
    {
      var line: LogLine, localDup: bool, lineGeneration: int := *, *, *;
      if 0 <= lineGeneration <= startGeneration && (calm ==> Harmless(Classify(line, localDup, lineGeneration))) {
        AcceptLine(line, localDup, lineGeneration);
      }
    }

    // The lines of a process that comes up.
    method ComeUp(expected: seq<string>)
      requires Valid() && running
      modifies `connected, `lastError, `startedProxies, `tunnelStates, `lastNodeFault, `lastStartupFault, `accepted, `views
      ensures Valid()
      ensures connected && AllStarted(startedProxies, expected)
      ensures startedProxies >= old(startedProxies) && old(accepted) <= accepted
      ensures lastNodeFault == old(lastNodeFault) && lastStartupFault == old(lastStartupFault)
    {
      var silent := Phrases(false, false, false, false, false, false, false, false, false, false);
      AcceptLine(LogLine("", None, silent.(login := true)), false, generation);
      for k := 0 to |expected|
        invariant Valid() && connected
        invariant startedProxies >= old(startedProxies) && old(accepted) <= accepted
        invariant lastNodeFault == old(lastNodeFault) && lastStartupFault == old(lastStartupFault)
        invariant forall i :: 0 <= i < k ==> expected[i] in startedProxies
      {
        AcceptLine(LogLine("", Some(expected[k]), silent.(started := true)), false, generation);
      }
      forall i | 0 <= i < |expected|
        ensures IsStarted(startedProxies, expected[i])
      {
        assert ProxyNameMatches(expected[i], expected[i]);
      }
    }

    // ---------------------------------------------------------------- readiness

    // What one poll of the generation `current` concludes, if anything.
    method Inspect(expected: seq<string>, current: nat, expired: bool) returns (r: Option<Readiness>)
      requires Valid()
      modifies `child, `running, `connected, `lastError
      ensures Valid() && Disturbed()
      ensures r == Some(Ready) <==> generation == current && IsServing(State(), expected)
      ensures r.Some? && r.value.NodeFailure? <==>
              generation == current && lastNodeFault.Some? && lastNodeFault.value.generation == current
      ensures r.Some? && r.value.NodeFailure? ==> lastNodeFault == Some(r.value.fault) && IsNodeFault(r.value.fault)
      ensures r.Some? && r.value.StartupFailure? ==> generation != current || !running || StartupFaulted()
      ensures r.Some? && r.value.TimedOut? ==>
                && expired && running && generation == current && Faultless(State())
                && r.value.connected == connected && r.value.missing == Missing(startedProxies, expected)
                && (!r.value.connected || r.value.missing != [])
      ensures r.None? ==> !expired && running && generation == current && Faultless(State())
      ensures calm && old(running) && Faultless(old(State())) && generation == current ==>
                && running && Faultless(State()) && (r.None? || r.value.Ready? || r.value.TimedOut?)
                && (old(connected) && AllStarted(startedProxies, expected) ==> r == Some(Ready))
    {
      if generation != current {
        return Some(StartupFailure);
      }
      Status();
      if lastNodeFault.Some? && lastNodeFault.value.generation == current {
        return Some(NodeFailure(lastNodeFault.value));
      }
      if lastStartupFault.Some? && lastStartupFault.value.generation == current {
        return Some(StartupFailure);
      }
      if !running {
        return Some(StartupFailure);
      }
      if connected && AllStarted(startedProxies, expected) {
        return Some(Ready);
      }
      if expired {
        return Some(TimedOut(connected, Missing(startedProxies, expected)));
      }
      return None;
    }

    // `tokio::time::sleep`
    method Sleep(milliseconds: nat)
      requires Valid()
      modifies `generation, `child, `running, `connected, `lastError, `startedProxies, `tunnelStates
      modifies `lastNodeFault, `lastStartupFault, `startGeneration, `accepted, `views, `external, `now
      ensures Valid() && Disturbed()
      ensures now >= old(now) + milliseconds
    {
      Interfere();
      now := now + milliseconds;
    }

    // The pause between two polls.
    method Pause(expected: seq<string>)
      requires Valid() && running
      modifies `generation, `child, `running, `connected, `lastError, `startedProxies, `tunnelStates
      modifies `lastNodeFault, `lastStartupFault, `startGeneration, `accepted, `views, `external, `now
      ensures Valid() && Disturbed()
      ensures now >= old(now) + 500
      ensures calm ==> connected && AllStarted(startedProxies, expected)
    {
      Sleep(500);
      if calm {
        ComeUp(expected);
      }
    }

    /** Polls until the runtime of the current generation serves every expected tunnel. `Ready`
        means the last poll saw exactly that; a node failure is a node fault of this generation; a
        timeout comes at the first poll after the whole timeout has passed, and reports exactly the
        tunnels that did not start. */
    method WaitReady(expected: seq<string>, timeout: nat) returns (r: Readiness, ghost polls: seq<nat>)
      requires Valid() && journal.Valid()
      modifies `generation, `child, `running, `connected, `lastError, `startedProxies, `tunnelStates
      modifies `lastNodeFault, `lastStartupFault, `startGeneration, `accepted, `views, `external, `now, journal
      ensures Valid() && journal.Valid()
      ensures Disturbed()
      ensures LastPollSaw(r, expected, old(generation))
      ensures r.TimedOut? ==> now >= old(now) + timeout
      ensures PolledUntil(polls, old(now), timeout, now)
      ensures r.Ready? ==> journal.Now() == Step(old(journal.Now()), RuntimeReady(expected))
      ensures r.NodeFailure? ==> journal.Now() == Step(old(journal.Now()), RuntimeFaulted)
      ensures !r.Ready? && !r.NodeFailure? ==> journal.Now() == old(journal.Now())
      ensures calm && old(running) && Faultless(old(State())) && timeout > 0 ==> r.Ready?
    {
      r, polls := PollUntilDecided(expected, timeout);
      if r.Ready? {
        journal.Record(RuntimeReady(expected));
      } else if r.NodeFailure? {
        journal.Record(RuntimeFaulted);
      }
    }

    // What the last poll of the generation `current` saw.
    ghost predicate LastPollSaw(r: Readiness, expected: seq<string>, current: nat)
      reads `generation, `child, `running, `connected, `startedProxies, `lastNodeFault, `lastStartupFault
      reads `configFile, `configRevision, `external, `now, `hostFaults
    {
      && (r.Ready? ==> generation == current && IsServing(State(), expected))
      && (r.NodeFailure? ==>
            lastNodeFault == Some(r.fault) && IsNodeFault(r.fault) && r.fault.generation == generation == current)
      && (r.TimedOut? ==>
            && running && generation == current && Faultless(State())
            && r.connected == connected && r.missing == Missing(startedProxies, expected)
            && (!r.connected || r.missing != []))
      && (r.StartupFailure? ==> generation != current || !running || StartupFaulted())
    }

    // The loop of `wait_ready`.
    method PollUntilDecided(expected: seq<string>, timeout: nat) returns (r: Readiness, ghost polls: seq<nat>)
      requires Valid()
      modifies `generation, `child, `running, `connected, `lastError, `startedProxies, `tunnelStates
      modifies `lastNodeFault, `lastStartupFault, `startGeneration, `accepted, `views, `external, `now
      ensures Valid()
      ensures Disturbed()
      ensures LastPollSaw(r, expected, old(generation))
      ensures r.TimedOut? ==> now >= old(now) + timeout
      ensures PolledUntil(polls, old(now), timeout, now)
      ensures calm && old(running) && Faultless(old(State())) && timeout > 0 ==> r.Ready?
    {
      var current, start := generation, now;
      polls := [now];
      while true
        invariant Valid() && Disturbed()
        invariant calm && old(running) && Faultless(old(State())) ==>
                    && running && Faultless(State()) && generation == current
                    && (now > start ==> connected && AllStarted(startedProxies, expected))
        invariant generation >= current == old(generation) && now >= start == old(now)
        invariant PolledUntil(polls, start, timeout, now)
        decreases if now - start < timeout then timeout - (now - start) else 0
      {
        var verdict := Inspect(expected, current, now - start >= timeout);
        if verdict.Some? {
          return verdict.value, polls;
        }
        Pause(expected);
        polls := polls + [now];
      }
    }
  }
}

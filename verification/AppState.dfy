/** The stores of one control plane, and what holds of them between operations. */
module AppStates {
  import opened Basics
  import opened Domain
  import opened Journals
  import opened Databases
  import opened ChmlFrp
  import opened Cloudflare
  import opened FrpcLogs
  import opened FrpcRuntime

  class AppState {
    const db: Database
    const chml: ChmlFrpClient
    const cf: CloudflareClient
    const frpc: FrpcManager
    const journal: Journal

    constructor (db: Database, chml: ChmlFrpClient, cf: CloudflareClient, frpc: FrpcManager, journal: Journal)
      ensures this.db == db && this.chml == chml && this.cf == cf && this.frpc == frpc && this.journal == journal
    {
      this.db, this.chml, this.cf, this.frpc, this.journal := db, chml, cf, frpc, journal;
    }

    // All stores write to the one journal.
    ghost predicate Wired() {
      db.journal == journal && chml.journal == journal && cf.journal == journal && frpc.journal == journal
    }

    /** The recorded revision is the text in the config file. */
    ghost predicate RevisionMatches()
      reads db`revisions, frpc`configRevision, frpc`configFile
    {
      frpc.configRevision.Some? ==>
        && frpc.configRevision.value in db.revisions
        && frpc.configFile == Some(db.revisions[frpc.configRevision.value].text)
    }

    // Holds at every step of every job.
    ghost predicate Sound()
      reads db`plans, db`lastPlan, db`revisions, db`lastRevision, db`routing
      reads frpc`generation, frpc`child, frpc`running, frpc`startGeneration
      reads frpc`startedProxies, frpc`tunnelStates, frpc`lastNodeFault, frpc`lastStartupFault, frpc`accepted, frpc`views
      reads frpc`configRevision, frpc`configFile
      reads journal
    {
      Wired() && db.Valid() && frpc.Valid() && journal.Valid() && journal.Now().safe && RevisionMatches()
      && journal.Now().active == db.routing.activeNode
    }

    /** Holds between jobs: the effects so far broke no rule, a live process runs the text in the
        config file, and the current generation is newer than every fault already acted on. */
    ghost predicate Valid()
      reads db`plans, db`lastPlan, db`revisions, db`lastRevision, db`routing
      reads frpc`generation, frpc`child, frpc`running, frpc`startGeneration
      reads frpc`startedProxies, frpc`tunnelStates, frpc`lastNodeFault, frpc`lastStartupFault, frpc`accepted, frpc`views
      reads frpc`configRevision, frpc`configFile
      reads journal
    {
      Sound() && frpc.RunsFile() && journal.Now().lastFault < frpc.generation
    }

    ghost function Plans(): seq<TunnelPlan>
      reads db`plans
    {
      Enabled(db.plans)
    }

    // The config file holds what the provider generates now for these plans on this node, and its
    // proxy names are distinct.
    ghost predicate ConfiguredFor(plans: seq<TunnelPlan>, node: string)
      reads chml`tunnels, frpc`configFile
    {
      var text := chml.render(chml.tunnels, node, Names(plans));
      frpc.configFile == Some(text) && !HasDuplicateNames(Lines(text))
    }
  }

  // The job goes on, and no rule was broken.
  predicate SameJob(a: Watch, b: Watch) {
    a.job == b.job && a.lastFault == b.lastFault && a.safe == b.safe
  }

  // The call goes on, and the routing row names the same node.
  predicate SameCall(a: Watch, b: Watch) {
    SameJob(a, b) && a.active == b.active && a.stage.node == b.stage.node
  }

  // What every stage before the DNS stage leaves alone.
  predicate SameHistory(a: Watch, b: Watch) {
    SameCall(a, b) && a.stage.published == b.stage.published
  }

  // And nothing was found out about any node; a restart may have cleared a fault.
  predicate SameFindings(a: Watch, b: Watch) {
    SameHistory(a, b) && a.stage.probe == b.stage.probe && (a.stage.faulted ==> b.stage.faulted)
  }

  // A lookup may have been made, and it found no node offline.
  predicate NothingAgainst(a: Watch, b: Watch) {
    && b == a.(stage := a.stage.(probe := b.stage.probe))
    && (b.stage.probe == a.stage.probe || (b.stage.probe.Some? && IsOnline(b.stage.probe.value.state)))
  }

  predicate PlanNamed(plans: seq<TunnelPlan>, name: string) {
    exists i :: 0 <= i < |plans| && plans[i].name == name
  }

  /** Tunnels outside the plans are untouched, and no tunnel disappears. */
  ghost predicate OthersKept(before: map<string, RemoteTunnel>, after: map<string, RemoteTunnel>, plans: seq<TunnelPlan>) {
    && before.Keys <= after.Keys
    && forall name :: name in after && !PlanNamed(plans, name) ==> name in before && after[name] == before[name]
  }

  /** Reads all tunnels back and lists the plans that do not match on the node. Failover and
      reconcile verify with the same comparison. */
  method VerifyOnNode(chml: ChmlFrpClient, plans: seq<TunnelPlan>, node: string) returns (ok: bool)
    requires chml.journal.Valid()
    modifies chml.journal
    ensures chml.journal.Valid()
    ensures ok ==> AllOn(chml.tunnels, plans, node)
    ensures ok ==> chml.journal.Now() == Step(old(chml.journal.Now()), PlansVerified(node, plans))
    ensures !ok ==> chml.journal.Now() == old(chml.journal.Now())
    ensures chml.Answering() && AllOn(chml.tunnels, plans, node) ==> ok
  {
    var remote := chml.ListTunnels();
    if remote.None? {
      return false;
    }
    var problems: seq<string> := [];
    for k := 0 to |plans|
      invariant problems == [] <==>
                forall i :: 0 <= i < k ==>
                  plans[i].name in remote.value && MatchesPlanOnNode(remote.value[plans[i].name], plans[i], node)
    {
      var name := plans[k].name;
      if name !in remote.value || !MatchesPlanOnNode(remote.value[name], plans[k], node) {
        problems := problems + [name];
      }
    }
    if problems != [] {
      return false;
    }
    chml.journal.Record(PlansVerified(node, plans));
    return true;
  }
}

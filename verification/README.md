# Ashan FRP Control Center: a verified model

The control plane keeps four stores in step: the SQLite routing row and quarantine table, the tunnels
at the ChmlFrp provider, the managed FRPC process with its config file, and the Cloudflare A records.
One coordinator, holding one lock, moves all tunnels from a failing node to another one (global
failover) or brings everything back into agreement with the routing row (reconcile). This project
models that coordinator, its stores and the pure functions they rest on, and proves what a job may
leave behind, what no run can ever do, and when a job must succeed.

Check everything with `dafny verify dfyconfig.toml`.

## How it is built

- `Basics`, `Domain`: strings as the program uses them, and the records the stores exchange.
- `Failover`, `FrpcLog`, `RuntimeView`, `Timestamps`: candidate order, log lines and duplicate names,
  what a log amounts to, and the text order of quarantine deadlines.
- `Database`, `ChmlFrp`, `Cloudflare`, `FrpcRuntime`: one class per store, updated in place.
- `Journal`: every store appends its effects to one ghost journal. A monitor follows the effects; its
  flag `safe` stays true as long as no effect broke a rule, and the lemmas in this file turn the flag
  into statements about the whole trace.
- `AppState`, `Picture`: the stores together, and one moment of them as a value. The contract of a job
  step is one relation between the picture before and the picture after; lemmas about pictures put
  the steps together. `AppState.Valid` is what every operation keeps: the effects so far are safe, the
  table meets its constraints, the runtime state is the replay of its log, a live process runs the
  text in the config file, a recorded revision is that text, and the trace agrees with the routing row
  on the active node.
- `ManagedDns`, `Reconcile`, `Migration`, `RuntimeSwitch`, `Commit`, `Candidates`, `Coordinator`: the
  jobs, bottom up.
- `Runs`: whole runs from an empty installation, the no-ping-pong theorem, idempotence and recovery.

Where the Rust code waits (every stage that calls ChmlFrp or Cloudflare, the readiness polls, the pause
of a restart, the start and the end of a job), the model lets the runtime go on (`LetTimePass`,
`FrpcManager.Interfere`): any number of log lines of any generation, status polls, and start or stop
calls from the API. So no contract claims that the runtime serves when a job returns, except on a calm
host; the others say that it was seen ready in the job's last call.

## Assumptions

- Database writes succeed. A failed provider call leaves the remote row or record as it was.
- A sync or create that the provider reports as done may still have stored something else. The ghost
  field `mishaps` of the client counts these, and the mutation calls that failed, by tunnel, node and
  purpose (to align a tunnel with its plan, to move it, to undo a move); statements about moved and
  restored rows are in terms of it. Likewise `hostFaults` of the runtime counts failed reads, writes and
  starts.
- The journal holds what the coordinator and the routing form do. Starts and stops through the runtime's
  API are counted in `external` instead.
- Remote tunnel names and DNS record ids are unique (maps).
- The generated config is a function `render` of the tunnel table, the node and the names.
- `accept_line`, and one poll of `wait_ready`, are each one atomic step.
- Jobs run one at a time (the lock) and run to their end; credentials do not change during a job.
  Between jobs, tunnels, records, node answers and the plan table may change in any way; during a job
  only the job itself writes to the providers and the tables.
- The wall clock read for quarantine and the millisecond clock of the readiness poll do not run
  backwards. Generations do not overflow.
- Three flags describe a friendly world and are used only in statements that need one: `steady` (the
  provider answers, applies what it is sent, and reports nodes from a fixed directory), `reachable`
  (Cloudflare calls do not fail) and `calm` (the FRPC process does not exit, its log reports no fault,
  nobody uses its start and stop API, the host does not fail, and a started process brings its proxies
  up). Everything else holds for arbitrary answers.

## Where the code differs from what one would expect

- The failover DNS stage looks records up by exact name, reconcile ignores letter case.
  `Cloudflare.CapitalsAreDuplicated` is a zone where this makes a second record;
  `Cloudflare.ExactLookupKeepsUniqueness`, `ManagedDns.ConvergeRecords` and
  `Coordination.SwitchedOverDns` give the exact condition for one write, the stage and the job.
- An unreadable config file ends a migration without rolling the provider back
  (apps/server/src/coordinator.rs:639). `Commit.MigrateTo` has the exact condition: without evidence
  against the target, and before the commit, the tunnels stay on the target if and only if that read
  failed; in every other such case they are as they were, or compensated as far as the provider let
  them be.
- A rollback sends the local fields of the plan, not of the snapshot;
  `ChmlFrp.RollbackRestoresExactly` says when that restores the row.
- A manual failover without candidates returns to phase idle even from degraded DNS, and a refused
  automatic one turns degraded DNS into failed; the contracts state these phases exactly.
- Reconcile does not restart a runtime that runs the generated text and is connected, even with a
  fault on record for its generation, and then fails on that fault. `Reconcile.ReconcileAll` says when,
  on a calm host whose providers answer: it fails if at its start such a runtime is connected, and
  succeeds if there is no fault, nothing runs, or the file holds another text. With a runtime that is
  still connecting it depends on whether the connection is up when the file is compared.
  `Runs.ReconcileStuck` shows that further reconciles do not help.

## Model

| member | source | states |
|---|---|---|
| `Runs.AnyRun` | apps/server/src/coordinator.rs:87-138 | From an empty installation on, after any number of failovers, reconciles, faults, API calls and provider changes, with any answers: the effect trace is orderly (the six rules below), a live process runs the text in the config file, and a recorded revision is that text |
| `Runs.SafeIsOrderly` | apps/server/src/coordinator.rs:216-776 | A run that the monitor calls safe satisfies, for every position of its trace: A records are written last in their own call, at the one address looked up in it for the node the routing row names; promotions are to nodes verified in the promoting call; candidates are quarantined on evidence found in their own call; an automatic job starts no runtime on a condemned or active node; fault generations that quarantine the active node strictly increase |
| `Journals.DnsComesLast` | apps/server/src/coordinator.rs:608-772 | Every A-record write is preceded, within its own call of `migrate_to` or `reconcile_all`, by a read-back of all plans on the node of the call and by readiness of all of them, with no tunnel change since the read-back and no config write, stop or start since readiness; it carries the nonblank address of the latest lookup, which the same call made for that node, and its domain is managed by those plans |
| `Journals.OneAddressPerCall` | apps/server/src/coordinator.rs:750-772 | All A-record writes of one call carry the same address |
| `Journals.DnsFollowsRouting` | apps/server/src/coordinator.rs:729-775 | Runtime truth comes before DNS: every A-record write carries the address, from the latest lookup, of the node that the routing row names as active at that moment |
| `Journals.PromotionIsVerified` | apps/server/src/coordinator.rs:638-735 | The routing row is promoted only to the node of the promoting call, on which that call has read all plans back and seen them ready, with nothing changed since |
| `Journals.QuarantineHasEvidence` | apps/server/src/coordinator.rs:362-388 | A candidate is quarantined only when its own call has seen a node fault of the runtime started last, or has a latest lookup of this very node that answered not online |
| `Journals.BlamedInJob` | apps/server/src/coordinator.rs:690-727 | The nodes a job blames are exactly those whose `migrate_to` call in the job ended with such evidence |
| `Journals.StartsOnHealthyNode` | apps/server/src/coordinator.rs:260-267 | Before every runtime start by an automatic job, the text last written to the config file is one that the provider has generated in this job, with no tunnel changed between its generation and the saving of its revision, for a node that nothing in the job has quarantined and that the routing row does not name |
| `Journals.OneFailoverPerGeneration` | apps/server/src/coordinator.rs:126-138 | Any two automatic failovers that quarantine the active node act on strictly increasing FRPC generations |
| `Journals.CondemnedInJob` | apps/server/src/coordinator.rs:235-267 | The nodes the monitor holds condemned are exactly those quarantined since the current job began |
| `Runs.AutomaticRun` | apps/server/src/coordinator.rs:300-401 | No ping-pong, for any number of steps: in automatic failovers mixed with reconciles, admin edits and provider changes, a node becomes active again only after its own quarantine has lapsed in between; in every stretch of the run in which no quarantine lapses, the commits are one fewer than the distinct active nodes |
| `Runs.ReturnsOnlyAfterLapse` | apps/server/src/coordinator.rs:300-401 | In every run of such steps, a node that comes back has had a quarantine lapse between its two terms |
| `Runs.StretchIsFailoverRun` | apps/server/src/coordinator.rs:300-401 | Where nothing lapses, every commit bars the node it leaves and goes to one that is not barred, a node being barred while its quarantine is in force |
| `Runs.NeverReturns` | apps/server/src/coordinator.rs:300-401 | In every run whose steps either commit (old active barred, new active not barred) or keep the active node, a node that becomes active was never active before |
| `Runs.FewerHopsThanNodes` | crates/failover/src/lib.rs:3-23 | Such a run has fewer commits than there are node names |
| `Runs.JobIsHopOrStay` | apps/server/src/coordinator.rs:216-462 | An automatic job either commits to a node not in quarantine and leaves the old active node with a deadline after the job began, or keeps the active node; no quarantine is shortened but by one that begins later |
| `Runs.AutomaticStep` | apps/server/src/coordinator.rs:126-138 | So does every other step without a manual failover and without clearing quarantine |
| `Basics.EqualUpToCase` | crates/chmlfrp/src/lib.rs:475-486 | Comparison without case agrees letter by letter over the 26 letters and identifies no other characters |
| `Basics.BlankExactly` | apps/server/src/coordinator.rs:553-557 | A text is blank exactly when all its characters are among the 25 code points of white space |
| `Domain.OnlineExactly` | apps/server/src/coordinator.rs:546-551 | A node is online exactly when its state spells online in any case |
| `Runs.ReconcileAgain` | apps/server/src/reconcile.rs:298-461 | In an unchanged world that answers, a reconcile of a reconciled state succeeds and changes no tunnel, no record, no stored revision, no config file and neither the FRPC generation nor its process |
| `Runs.ReconcileServing` | apps/server/src/reconcile.rs:298-461 | A reconcile of a runtime that already serves everything on the active node succeeds in an answering world without touching tunnels, config file, process or revisions; a settled zone is not written |
| `Runs.ReconcileStuck` | apps/server/src/reconcile.rs:384-437 | On a calm host, a fault on record for a connected runtime with the generated text makes a reconcile fail and leaves runtime, tunnels and row as they were, so that every further reconcile fails too |
| `Runs.ReconcileTwice` | apps/server/src/reconcile.rs:298-461 | The state left by a first successful reconcile, after harmless log lines and polls, is such a state: the second run succeeds with the same footprint |
| `Runs.RecoverDegraded` | apps/server/src/coordinator.rs:729-775 | After a failover that ended with DNS pending, and as long as the runtime is still connected without a new fault, a reconcile whose calls succeed reaches idle with exactly one A record per managed domain at the active address; active, standby and revision, all tunnels, the config file, the FRPC generation and the process stay |
| `Coordination.Coordinator.GlobalFailoverLocked` | apps/server/src/coordinator.rs:185-214 | A stale event changes nothing at all; a job is refused exactly when it is automatic and failover is off or there is no active node, and then only the phase moves as `mark_routing_failed` says; every other job is a GlobalJob: one of the four endings, an exact record of the candidates tried, nothing touched outside the plans, and the ending that was known beforehand; in an automatic job the deadline of the former active node is the days of the routing row, but at least one day, after a moment of the job |
| `Coordination.Coordinator.QueuedGlobalFailover` | apps/server/src/coordinator.rs:126-138 | The same for a queued fault event, whose generation is compared once the lock is held |
| `Coordination.JobInSteps` | apps/server/src/coordinator.rs:216-462 | A job that searches from the picture of its start and then closes is a GlobalJob: its ending; its trail (candidates tried in order up to the one where it ended; exactly those before it had evidence against them, each is quarantined for the days of the routing row from a moment of the job on, and no other entry of the quarantine table has changed; the committed standby is the next candidate or, in manual mode, the former active node); and its promises |
| `Coordination.OneOutcome` | apps/server/src/coordinator.rs:216-462 | Exactly one of the four endings holds: switched over (idle), degraded DNS, halted (automatic: row kept, old node quarantined, zone unchanged, tunnels still on one node unless a compensation went wrong, FRPC stopped unless somebody used its API), back on the original node (manual: converged and idle, or failed and stopped); the active node moves in exactly the first two, and the job reports success in exactly the first |
| `Coordination.OpenWayIsTaken` | apps/server/src/coordinator.rs:284-341 | When a provider answers, every listed node is welcoming or offline and one that may take over is welcoming, some candidate is welcoming with only offline ones before it; the job contract then says that this candidate is committed and the job completes |
| `Coordination.ClosedWayIsPassed` | apps/server/src/coordinator.rs:362-442 | When every listed node is reported offline and, for a manual job, nothing stands in the way of the original node, every candidate is passed over; the job contract then says that a manual job ends idle and converged on the original node and an automatic one halted |
| `Coordination.CandidatesListed` | apps/server/src/coordinator.rs:284-309 | Every candidate of a provider that answers is a listed node, and every listed node that may take over, its quarantine lapsed or not, is a candidate |
| `Coordination.CandidatesAreFit` | crates/failover/src/lib.rs:3-23 | Every candidate is online, unmarked, not the former node, and supports web if some enabled plan is for http or https in any spelling; every such node has its name among the candidates |
| `Coordination.SwitchedOverDns` | apps/server/src/coordinator.rs:736-775 | After a success, each managed domain has exactly one A record, at the target address, if and only if before the job it had at most one, spelled like the domain |
| `Coordination.Coordinator.RunGlobalFailover` | apps/server/src/coordinator.rs:216-462 | Refusals change nothing; every other job has the active node quarantined in automatic mode and ends the search with no candidate, where nothing was moved, or as the candidate loop says |
| `Coordination.Coordinator.CondemnActive` | apps/server/src/coordinator.rs:235-267 | The active node is quarantined and FRPC stopped before candidates are sought; the fault generation becomes the newest one acted on; its deadline is max(1, days of the routing row) times 86,400 seconds after a moment of this step |
| `Coordination.Coordinator.FindCandidates` | apps/server/src/coordinator.rs:284-309 | The candidates are the candidate list of the nodes as listed, each marked by whether its quarantine was in force while it was looked up; a provider that answers lists all its nodes |
| `Coordination.SurveyIsSearch` | apps/server/src/coordinator.rs:284-309 | So no candidate is the active node, quarantined or condemned in the job, and their names are distinct |
| `Coordination.Coordinator.WithQuarantine` | apps/server/src/coordinator.rs:300-302 | Every node keeps its other fields and gets a mark that agrees with the quarantine table at a moment during the call |
| `Coordination.Coordinator.Switch` | apps/server/src/coordinator.rs:284-461 | A job without candidates leaves tunnels, zone and config file alone and, in manual mode, returns to idle; otherwise the candidate loop decides |
| `Coordination.Coordinator.CloseJob` | apps/server/src/coordinator.rs:195-213 | A failed job is marked in the routing row, a completed one is not; nothing else but time happens |
| `Coordination.Coordinator.ConfirmAmbiguousNetworkFault` | apps/server/src/coordinator.rs:140-175 | An ambiguous fault becomes a node fault only for the current generation and on a lookup of the active node, the one effect of this call, that answered not online; with a provider that answers it does exactly then |
| `Coordination.Coordinator.Reconcile` | apps/server/src/coordinator.rs:881-889 | A reconcile job has the result and frame of `reconcile_all` |
| `Candidates.TryCandidates` | apps/server/src/coordinator.rs:311-461 | The loop ends at one candidate or with none left. Switched or DNS pending: that candidate is committed. Given up: it failed without evidence against it, or the original node was lost after it failed itself, or all failed themselves. Exactly the candidates before it were found faulty and quarantined. The first welcoming candidate behind offline ones is taken; when all are offline none is left and a manual job is back on the original node |
| `Candidates.NothingMissed` | apps/server/src/coordinator.rs:311-435 | What the job could count on at its start it can still count on after any number of failed candidates, so no candidate that could be reached is missed |
| `Candidates.TryCandidate` | apps/server/src/coordinator.rs:311-435 | A candidate against which evidence was found is quarantined and the next one may be tried, with FRPC stopped or, between candidates of a manual job, the original node serving again; any other failure before the commit ends the job on the original node; a welcoming candidate is committed, an offline one passed over |
| `Candidates.AfterNodeFailure` | apps/server/src/coordinator.rs:362-405 | A candidate with a node failure is stopped and quarantined; a manual job with candidates left first serves the original node again, which succeeds when nothing stands in its way, and otherwise gives up with FRPC stopped |
| `Candidates.AfterOtherFailure` | apps/server/src/coordinator.rs:406-461 | After any other failure before the commit, a manual job converges on the original node or stops FRPC, and an automatic job stops FRPC |
| `Candidates.RecoverManualOriginal` | apps/server/src/coordinator.rs:464-501 | Success means everything converged on the original node and phase idle; failure leaves the row and stops FRPC. It succeeds when providers answer, the host is calm, the node is online with an address, its config can be loaded, and the runtime has no fault on record or does not run |
| `Candidates.CondemnCandidate` | apps/server/src/coordinator.rs:362-388 | Needs evidence against the node itself; the candidate is in quarantine afterwards, FRPC is stopped, and every other quarantine entry stays; its deadline is max(1, days of the routing row) times 86,400 seconds after a moment of this step |
| `Candidates.AttemptStaysTogether` | apps/server/src/coordinator.rs:592-637 | Planned tunnels that are on one node are on one node after every attempt, whatever its result, unless a compensation was garbled or given up |
| `Candidates.NextCandidate` | apps/server/src/coordinator.rs:312-321 | The standby offered to an automatic job has another name than the target and is a later candidate |
| `Candidates.ZoneFramedTransitive` | apps/server/src/coordinator.rs:750-772 | Frames of DNS stages compose, including that no managed domain gets a second A record when records are spelled exactly |
| `Candidates.SpellingKept` | apps/server/src/coordinator.rs:750-772 | Whatever the stages do, records that were all spelled like their domain stay so |
| `Commit.MigrateTo` | apps/server/src/coordinator.rs:503-776 | One attempt: the planned tunnels all match on the target, or, when no compensation was garbled or given up, each is on its old node, as it was or matching its plan, with its old content if that can be restored; without evidence against the target, they stay moved if and only if the routing row was committed or the config file could not be read; routing row and zone change at the commit only; the result blames the node if and only if the call ended with evidence against it; a welcoming target is committed and an offline one recognised; a failure before the switch leaves the runtime alone, and after a failed switch a manual job runs the previous config again unless a write or start failed, an automatic one has FRPC stopped; without managed DNS no record changes, and on a calm host an answering provider and an online target with all tunnels are enough to commit, whatever Cloudflare would answer; a timeout blames the target only after 20 seconds |
| `Migration.NeverSplit` | apps/server/src/coordinator.rs:592-637 | All or nothing: every planned tunnel matches on the target, or, when no compensation was garbled or given up, every one is on the node it was on before, as it was or matching its plan there, with its old content if that can be restored and its id and state were not lost to a garbled move; moves may have been garbled; the result of the attempt says which |
| `Migration.CompensatedIsBack` | apps/server/src/coordinator.rs:831-864 | Rows that were untouched or compensated are on their old node and as they were or matching their plan, with their old content if they are restorable and kept id and state |
| `Migration.MovedMatches` | apps/server/src/coordinator.rs:592-617 | What faithful syncs of all plans store is accepted by verification on the target |
| `Migration.MoveTunnels` | apps/server/src/coordinator.rs:606-617 | Success moves every plan, as sent unless that sync was garbled; a failed sync compensates the changed ones: each row is then untouched or compensated, or its own compensation was garbled or has three failed calls on record; tunnels outside the plans stay; a provider that answers makes it succeed |
| `Migration.RollbackProvider` | apps/server/src/coordinator.rs:831-864 | Goes through the changed rows from the last to the first; each holds afterwards what its compensation sends, whatever was there before, or that compensation was garbled, or has three failed calls on record and left the row alone; no tunnel outside the plans is touched and none disappears |
| `Migration.SyncWithRetry` | apps/server/src/coordinator.rs:778-797 | Failure is three more failed calls and changes nothing; success changes one row, as sent unless the provider garbled it |
| `Migration.MigrationPreflight` | apps/server/src/coordinator.rs:519-577 | Proceeding means DNS configured and free of conflicts, the target looked up with a usable address, and the row of every plan at hand; a node failure means that the lookup answered not online, and no other result does; with providers that answer, a usable node, an offline node and an unknown node are each recognised |
| `Migration.UnmanagedNeedsNoDns` | apps/server/src/coordinator.rs:522-557 | Without managed DNS a node is welcoming, offline or unknown whatever Cloudflare answers, whatever the zone holds, and whether or not the node has an address |
| `Migration.VerifyAndGenerate` | apps/server/src/coordinator.rs:619-637 | A config is handed out only after all plans were read back on the target and only without duplicate names; otherwise the move is undone, whether or not a garbled move was what the read-back found |
| `RuntimeSwitches.InstallConfig` | apps/server/src/coordinator.rs:639-672 | The previous text and revision, which still agree, are remembered; an unreadable or unwritten file stays as it was; each failure leaves its trace in the count of host faults |
| `RuntimeSwitches.SwitchRuntime` | apps/server/src/coordinator.rs:639-727 | Live means the target config is in the file and all tunnels serve; a node failure and an unreadable file leave the tunnels on the target; every other exit undoes the move and, in a manual job without a further host fault, runs the previous config again under its revision. The failed reads, writes and starts of the host are exactly those that the result stands for |
| `RuntimeSwitches.ConfirmRuntime` | apps/server/src/coordinator.rs:686-727 | A target counts as failed if and only if there is now evidence against it: a node fault of the current generation, or, after a timeout, a lookup that answered not online; either after 20 seconds; a target that is not ready and not blamed has used up the 20 seconds or has failed to start |
| `RuntimeSwitches.BackOut` | apps/server/src/coordinator.rs:654-662 | The provider move is undone; a manual job without a further host fault runs the previous config again, and an automatic job has FRPC stopped |
| `RuntimeSwitches.RestorePreviousFrpc` | apps/server/src/coordinator.rs:866-879 | Only a manual job comes here; unless the write or the start fails, the previous text runs again under its revision; without a previous text nothing happens |
| `Commit.BringUp` | apps/server/src/coordinator.rs:519-727 | Up means everything stands verified and serving on the target and the preflight found no DNS conflict; otherwise the tunnels are where the result says, and the result is tied to the host faults met and to the evidence against the target; a welcoming target comes up |
| `Commit.CommitAndPublish` | apps/server/src/coordinator.rs:729-775 | The row is promoted before DNS; a Cloudflare failure leaves it at the target in phase dns switching, success in idle with all managed domains at the address; on a calm host the runtime still serves |
| `Reconcile.ReconcileAll` | apps/server/src/reconcile.rs:298-461 | Success: all plans match on the active node, the generated config is in the file, its runtime was seen ready in this call and on a calm host still serves, each managed domain has exactly one A record at the active address, phase idle. Failure keeps the row. Outside the plans nothing changes, and what already agrees is left alone. In a calm world that answers it succeeds when no fault is on record, nothing runs or other text is in the file, and fails when a fault is on record for a connected runtime with the generated text in place. Without an active node or enabled plans it changes nothing; without managed DNS no record changes, and Cloudflare and the address of the node do not matter |
| `Reconcile.SyncAll` | apps/server/src/reconcile.rs:358-382 | Missing tunnels are created and drifted ones synced, the others not touched; success is a read-back of all plans on the node; a provider that answers makes it succeed |
| `Reconcile.Preflight` | apps/server/src/reconcile.rs:315-343 | Passing means the node was looked up and, with managed DNS, that its address is usable and no managed domain has two A records; an answering world passes |
| `Reconcile.LoadConfig` | apps/server/src/reconcile.rs:384-422 | Success puts the generated config into the file; a runtime that already serves it keeps generation, process, revision and stored revisions |
| `Reconcile.WriteAndRestart` | apps/server/src/reconcile.rs:411-421 | A new revision is stored; afterwards file, recorded revision and process agree, whether or not the write or the restart succeeded |
| `Reconcile.AwaitRuntime` | apps/server/src/reconcile.rs:424-437 | Readiness of all plans on the node where they were verified; on a calm host a running runtime gets ready exactly when it has no fault on record; it is given up as timed out only after 20,000 ms, and at the first poll after them |
| `Reconcile.Publish` | apps/server/src/reconcile.rs:424-442 | DNS is written only after readiness, and only managed records change; the runtime goes on meanwhile, and only a calm host promises that it still serves; a fault on record makes it fail there |
| `Reconcile.PublishDns` | apps/server/src/reconcile.rs:501-525 | Exactly one A record per managed domain at the address, from at most one; a settled zone does not change |
| `AppStates.VerifyOnNode` | apps/server/src/coordinator.rs:799-829 | True exactly when, for a provider that answers, every plan is present and matches on the node |
| `Pictures.StandingPlanByPlan` | apps/server/src/coordinator.rs:592-727 | What every success promises, plan by plan: a row on the node with the local address, type and web domain of each enabled plan, the config generated for exactly their names in the file, and on a calm host a connected runtime with a started proxy for each |
| `ManagedDns.ConvergeRecords` | apps/server/src/reconcile.rs:501-525 | All managed domains at the address on success; a conflict is refused; only managed A records change, only in their content; after a success no managed domain has two A records if and only if the lookup could find every earlier one; records already in place stay identical; after a success the id stored for each managed plan is that of a record found for its domain at the address |
| `ManagedDns.UniqueWasSpelledExactly` | apps/server/src/coordinator.rs:752-760 | When no managed domain has two A records after an exact-name stage, every earlier record was spelled like its domain |
| `ManagedDns.EnsureUniqueManagedARecords` | apps/server/src/reconcile.rs:527-546 | Reports exactly the managed domains that more than one A record serves |
| `ManagedDns.CreateStaysUnique` | migrations/0002_tunnel_plan_constraints.sql:46-48 | A record made for a domain that was not found duplicates no managed domain; this rests on lower-case, distinct managed domains |
| `Cloudflare.ExactLookupKeepsUniqueness` | apps/server/src/coordinator.rs:752-760 | The exact-name lookup of a failover keeps a domain unique if and only if every existing record of it is spelled like the domain |
| `Cloudflare.CapitalsAreDuplicated` | apps/server/src/coordinator.rs:752-760 | A record spelled in capitals is missed by that lookup, and the write makes a second A record |
| `Cloudflare.LookupsExactly` | apps/server/src/coordinator.rs:752-760 | Conflict counting and the reconcile lookup find the same A records, letter by letter up to case; the failover lookup those with the exact name |
| `Cloudflare.CloudflareClient.UpsertARecord` | crates/cloudflare/src/lib.rs:209-251 | Patches only the content of the existing record, else creates one under a new id; a failed call changes nothing |
| `Cloudflare.CloudflareClient.ListARecords` | crates/cloudflare/src/lib.rs:114-121 | Exactly the A records of the zone |
| `FrpcRuntime.FrpcManager.AcceptLine` | crates/frpc-runtime/src/lib.rs:333-432 | A line of another generation changes nothing; a line of this one is appended to the accepted events, and the view is their replay; connected and last error follow the event kind; an authentication or configuration line without an earlier phrase group is the new startup fault, and no other line is |
| `FrpcRuntime.FrpcManager.NoteEvent` | crates/frpc-runtime/src/lib.rs:359-422 | Started proxies, tunnel states and faults become exactly the replay with this event added |
| `FrpcRuntime.FrpcManager.Launch` | crates/frpc-runtime/src/lib.rs:184-224 | Every real start opens a new generation with an empty log, running the text now in the file, or not running when the spawn fails |
| `FrpcRuntime.FrpcManager.Spawn` | crates/frpc-runtime/src/lib.rs:154-224 | A live process is left alone; a real start raises the generation by one |
| `FrpcRuntime.FrpcManager.Stop` | crates/frpc-runtime/src/lib.rs:226-241 | Every stop raises the generation by one and leaves nothing running |
| `FrpcRuntime.FrpcManager.Restart` | crates/frpc-runtime/src/lib.rs:243-247 | The generation grows, and success means a process started from the config file, without faults on a calm host |
| `FrpcRuntime.FrpcManager.Status` | crates/frpc-runtime/src/lib.rs:87-110 | A vanished process is noticed; nothing is started |
| `FrpcRuntime.FrpcManager.WriteConfig` | crates/frpc-runtime/src/lib.rs:143-152 | A failed write keeps text and revision; a successful one replaces both |
| `FrpcRuntime.FrpcManager.WaitReady` | crates/frpc-runtime/src/lib.rs:255-318 | Ready means the last poll saw this generation running, connected, without fault and with every expected name started; a node failure is a node fault of this generation; any other startup failure means a changed generation, an exit or a startup fault; a timeout reports exactly the unmatched names, comes only when the whole timeout has passed, and comes at the first poll after that; polls are at least 500 ms apart |
| `FrpcRuntime.FrpcManager.Interfere` | crates/frpc-runtime/src/lib.rs:320-331 | Any number of log lines, polls and start or stop calls keeps the replay; the generation never falls |
| `FrpcRuntime.FrpcManager.Inspect` | crates/frpc-runtime/src/lib.rs:263-314 | One poll says ready if and only if this generation serves every expected name, and node failure if and only if this generation has a node fault on record |
| `RuntimeViews.LineAbsorbed` | crates/frpc-runtime/src/lib.rs:359-378 | What a line does to faults and started proxies, by its phrase groups: which lines replace the startup fault, which the node fault, and which start a proxy |
| `RuntimeViews.FirstGroupShows` | crates/frpc-runtime/src/lib.rs:380-422 | The status a line gives to its tunnel is that of its first phrase group |
| `RuntimeViews.StartedExactly` | crates/frpc-runtime/src/lib.rs:359-363 | A proxy counts as started exactly when a start line of this generation named it |
| `RuntimeViews.FaultsExactly` | crates/frpc-runtime/src/lib.rs:365-378 | The recorded faults are the last node fault and the last authentication or configuration fault of the generation |
| `RuntimeViews.RowsExactly` | crates/frpc-runtime/src/lib.rs:380-422 | A tunnel has a row exactly when some event of the generation reported on it |
| `RuntimeViews.RowShowsLast` | crates/frpc-runtime/src/lib.rs:365-422 | The row shows the last event that decides it: a report on the tunnel, or a later node fault |
| `RuntimeViews.AmbiguousExactly` | crates/frpc-runtime/src/lib.rs:435-437 | One started proxy can match two plan names if and only if one name is a dot-suffix of the other |
| `RuntimeViews.ProxyNameMatchesExactly` | crates/frpc-runtime/src/lib.rs:435-437 | A proxy matches a name exactly when it is that name, or that name behind a prefix and a dot |
| `RuntimeViews.ReadyMeansManyProxies` | crates/frpc-runtime/src/lib.rs:287-297 | Without such names, readiness of n plans means at least n started proxies |
| `RuntimeViews.Missing` | crates/frpc-runtime/src/lib.rs:299-309 | Lists exactly the expected names no started proxy matches, and is empty exactly when all match |
| `FrpcLogs.Classify` | crates/frpc-log/src/lib.rs:4-156 | The fault domain of a line, for every domain, is decided by its phrase groups: authentication without a lifecycle phrase, configuration or a conflict under a config with duplicates after that, node for a conflict without duplicates or a broken session, then network and local; a line triggers a failover exactly when its domain is the node |
| `FrpcLogs.FirstGroupDecides` | crates/frpc-log/src/lib.rs:4-156 | The kind and the fault domain of a line are those of the first phrase group it contains, a conflict being local or remote as the config scan says, and plain information of an unknown domain without any |
| `FrpcLogs.ExtractProxyName` | crates/frpc-log/src/lib.rs:162-184 | The last bracketed group of the line that is neither a source file nor a log level, and none exactly when there is no such group |
| `FrpcLogs.MayBeNameExactly` | crates/frpc-log/src/lib.rs:162-184 | A group may be a name unless, in any spelling, it ends with `.go`, mentions `service.go`, or is one of the seven log levels |
| `FrpcLogs.ConfigHasDuplicateProxyNames` | crates/frpc-log/src/lib.rs:186-232 | True exactly when two lines name the same proxy, as INI section other than common or as name key below a proxies header, for every text |
| `FrpcLogs.TomlDuplicates` | crates/frpc-log/src/lib.rs:186-232 | In a TOML config with one proxies block per name, written with quotes, the scan finds a duplicate exactly when a name is repeated |
| `FrpcLogs.IniDuplicates` | crates/frpc-log/src/lib.rs:186-232 | In an INI config with one section per name, exactly when a name other than common, in any spelling, is repeated |
| `FrpcLogs.LinesExactly` | crates/frpc-log/src/lib.rs:190 | The lines of a text hold no line end and, each with its own, make up the text; only the last may lack it |
| `FrpcLogs.IgnoredExactly` | crates/frpc-log/src/lib.rs:191-194 | A line is passed over exactly when nothing but white space stands before its end or before a hash or semicolon |
| `FailoverPolicy.OrderedCandidates` | crates/failover/src/lib.rs:3-23 | One node per eligible name, in strictly increasing rank, for every node list |
| `FailoverPolicy.CandidateProperties` | crates/failover/src/lib.rs:3-23 | Every entry is eligible, listed and not the active node; names are distinct; every eligible name occurs; an eligible standby is first; all others keep list order |
| `FailoverPolicy.CandidateListUnique` | crates/failover/src/lib.rs:3-23 | The description determines the list |
| `FailoverPolicy.ChooseTarget` | crates/failover/src/lib.rs:25-34 | The eligible standby, else the first eligible node; none exactly when no node is eligible |
| `ChmlFrp.RollbackRestoresExactly` | crates/chmlfrp/src/lib.rs:251-297 | The compensating sync restores a row, up to letter case, boolean and number spelling, if and only if the row matched its plan and, for a port tunnel, its port could be parsed and its domain, if any, is one that the provider stores |
| `ChmlFrp.SyncedMatches` | crates/chmlfrp/src/lib.rs:475-486 | What a sync stores is what verification accepts, for every row, plan and target |
| `ChmlFrp.SyncedHolds` | crates/chmlfrp/src/lib.rs:258-281 | A synced row holds the plan values on the target; for http and https the domain of the plan and no port of its own, for all other protocols the port and domain of the row it started from; the flags, read as booleans, and the extra parameters of that row |
| `ChmlFrp.MatchesExactly` | crates/chmlfrp/src/lib.rs:475-486 | Verification accepts a row exactly when node and local address are equal, the type is up to case, and, for http and https in any spelling, so is the domain, taken from its own field or else from the endpoint |
| `ChmlFrp.CreatedMatches` | crates/chmlfrp/src/lib.rs:555-569 | What a create stores is what verification accepts |
| `ChmlFrp.CreatedHolds` | crates/chmlfrp/src/lib.rs:555-569 | A created row holds the plan values on the target, not encrypted, compressed, without a remote port |
| `ChmlFrp.DecimalRoundTrip` | crates/chmlfrp/src/lib.rs:458-460 | Every 64-bit port number survives being printed and parsed |
| `ChmlFrp.ParsedExactly` | crates/chmlfrp/src/lib.rs:458-460 | Exactly the texts made of an optional sign, zeros and the shortest spelling of a 64-bit number are read as it |
| `ChmlFrp.RemotePortNumber` | crates/chmlfrp/src/lib.rs:458-460 | The parsed endpoint, or zero when it is not a 64-bit number |
| `ChmlFrp.ChmlFrpClient.SyncTunnel` | crates/chmlfrp/src/lib.rs:251-297 | A failed sync changes nothing; a successful one replaces one row, by what was sent unless the provider garbled it: for http and https the stored domain is the plan domain, for tcp and udp the stored port is the parsed one of the snapshot or zero |
| `ChmlFrp.ChmlFrpClient.CreateTunnel` | crates/chmlfrp/src/lib.rs:160-183 | Only a missing tunnel is created; a failed create changes nothing; unless garbled the new row is not encrypted, compressed, without a port and at the plan domain |
| `Databases.Database.CreateTunnel` | crates/database/src/lib.rs:206-220 | Succeeds exactly when the trimmed, lower-cased row meets the constraints and its name and managed domain are free; the table keeps its constraints |
| `Databases.Database.UpdateTunnel` | crates/database/src/lib.rs:222-237 | Succeeds exactly when the id exists and the trimmed, lower-cased row meets the constraints and takes no name or managed domain of another row; changes only that row, keeping its enabled flag |
| `Databases.Database.DeleteTunnel` | crates/database/src/lib.rs:239-245 | Removes exactly the row with that id |
| `Databases.AllowedExactly` | migrations/0002_tunnel_plan_constraints.sql:1-48 | An input is allowed exactly when its port is between 1 and 65535, its protocol is http, https, tcp or udp in any spelling, and its domain is not blank, unless it is tcp or udp without managed DNS; the row stored holds the trimmed and lower-cased input |
| `Databases.InsertedRow` | migrations/0002_tunnel_plan_constraints.sql:1-48 | A free, constrained, lower-case row keeps all names, ids and managed domains distinct |
| `Databases.ReplacedRow` | migrations/0002_tunnel_plan_constraints.sql:1-48 | Replacing the row of the same id does too |
| `Databases.Database.UpdateRouting` | apps/server/src/api.rs:1178-1200 | An active node that is set stays; the phase stays; active and standby differ |
| `Databases.Database.PromoteActiveNode` | crates/database/src/lib.rs:316-326 | New active and standby node in phase dns switching, with the next revision |
| `Databases.Database.MarkRoutingFailed` | crates/database/src/lib.rs:332-340 | Idle stays idle, dns switching becomes degraded, everything else failed; nothing else in the row changes |
| `Databases.Database.QuarantineNode` | crates/database/src/lib.rs:342-367 | The node is in quarantine for at least one day from now, whatever was stored before; other entries stay |
| `Databases.Database.QuarantineUntil` | crates/database/src/lib.rs:377-386 | The deadline exactly when it lies in the future |
| `Databases.Database.SaveConfigRevision` | crates/database/src/lib.rs:388-403 | A new id; earlier revisions stay |
| `Timestamps.TextOrderIsTimeOrder` | crates/database/src/lib.rs:350-386 | For all instants in years 0 to 9999, the stored texts compare like the times, although fractions have 0, 3, 6 or 9 digits |
| `Timestamps.TextReads` | crates/database/src/lib.rs:350-386 | The stored text is year, month and day in 4, 2 and 2 digits with hyphens, a T, and the time of day |
| `Timestamps.ClockReads` | crates/database/src/lib.rs:350-386 | The time of day is hour, minute and second in two digits each with colons, a fraction of 0, 3, 6 or 9 digits behind a dot, and +00:00 |
| `Timestamps.YearLength` | crates/database/src/lib.rs:350-365 | A year has 366 days if divisible by 4, except the centuries not divisible by 400 |
| `Timestamps.TailsInOrder` | crates/database/src/lib.rs:350-365 | The same for the fraction of a second and the offset that follows it |
| `Timestamps.DaysInOrder` | crates/database/src/lib.rs:350-365 | Dates compare by year, month and day as they do in days since year 0 |

## Left out

- Concerns outside the four stores: HTTP, JSON, SQL text, process spawning, SSE, activity logging, the
  web UI and the dashboard labels of `build_rows` and `overall_status`.
- Provider settings, token handling and the seeding from the environment, which are plain field copies.
- A crash, or a request dropped, in the middle of a job: nothing in the code repairs a phase left at
  failover or DNS switching.
- Changes by third parties to tunnels, records or plans while a job runs; `update_routing` runs
  between jobs and as one step, although the code does not take the lock for it.
- Failing database writes, and the early exits they cause.
- The Chinese and English phrases of `classify`: a line carries the set of phrase groups found in it.
- TOML beyond what the duplicate scan looks at, and byte offsets in `extract_proxy_name` (characters
  are used).
- The in-memory log deque, process ids, start times and the broadcast channel.
- FrpcLogs.Classify: severity and message texts are not part of the event.
- Coordination.Coordinator.ConfirmAmbiguousNetworkFault: runs between jobs here, outside the lock in the code.
- Coordination.Coordinator.Reconcile: the lock is held; the refusal when another job runs is not modelled.
- Runs.AutomaticRun: steps that clear a quarantine and manual failovers are not part of these runs; after either a node may come back at once.
- Timestamps.TextOrderIsTimeOrder: the `Databases` module keeps deadlines as numbers; the link to the stored text is this lemma, and assumes chrono's automatic fraction width.

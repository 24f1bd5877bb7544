/** Moving all enabled tunnels to one node, and the compensation that undoes a partial move. */
module Migration {
  import opened Basics
  import opened Domain
  import opened Journals
  import opened ChmlFrp
  import opened Cloudflare
  import opened ManagedDns
  import opened AppStates
  import opened Pictures
  import opened Reconcile

  /** How a call of `migrate_to` ends, and why. */
  datatype NodeCause = ReportedOffline | RuntimeFault | TimedOutOffline

  datatype Cause =
    | NothingPlanned
    | PreflightRefused
    | SyncStopped
    | NotVerified
    | NoConfig
    | ConfigUnreadable
    | ConfigUnwritten
    | RestartFailed
    | NotReady
    | DnsFailed

  datatype MigrationResult = Migrated | TargetNodeFailed(node: NodeCause) | OtherFailure(cause: Cause)

  // The planned tunnels were not touched.
  predicate Untouched(r: MigrationResult) {
    r in {TargetNodeFailed(ReportedOffline), OtherFailure(NothingPlanned), OtherFailure(PreflightRefused)}
  }

  // Nor was the runtime.
  predicate RuntimeUntouched(r: MigrationResult) {
    Untouched(r) || r in {OtherFailure(SyncStopped), OtherFailure(NotVerified), OtherFailure(NoConfig)}
  }

  // They stay on the target: the call succeeded or was committed, the target itself failed, or the
  // config file could not be read.
  predicate LeftMoved(r: MigrationResult) {
    || r.Migrated?
    || r in {TargetNodeFailed(RuntimeFault), TargetNodeFailed(TimedOutOffline)}
    || r in {OtherFailure(ConfigUnreadable), OtherFailure(DnsFailed)}
  }

  // The remote rows of all plans.
  predicate AllPresent(tunnels: map<string, RemoteTunnel>, plans: seq<TunnelPlan>) {
    forall i :: 0 <= i < |plans| ==> plans[i].name in tunnels
  }

  // ---------------------------------------------------------------- one sync

  // Nothing went wrong but with this call.
  ghost predicate OnlyWith(a: Mishaps, b: Mishaps, call: Call) {
    forall c: Call :: c != call ==> b.garbled[c] == a.garbled[c] && b.failed[c] == a.failed[c]
  }

  // Three more calls have failed, so the sync was given up.
  ghost predicate GivenUp(a: Mishaps, b: Mishaps, call: Call) {
    b.failed[call] >= a.failed[call] + 3
  }

  // The provider reported such a call as done, but did not store what was sent.
  ghost predicate Garbled(a: Mishaps, b: Mishaps, call: Call) {
    b.garbled[call] > a.garbled[call]
  }

  /** Giving up is three more failed calls and changes no row; success changes one row, and stores what
      was sent unless the call was garbled. */
  ghost predicate Retried(t0: map<string, RemoteTunnel>, t1: map<string, RemoteTunnel>, m0: Mishaps, m1: Mishaps,
                          remote: RemoteTunnel, plan: TunnelPlan, target: string, purpose: Purpose, domainField: bool, ok: bool)
  {
    var call := Call(plan.name, target, purpose);
    && MoreMishaps(m0, m1) && OnlyWith(m0, m1, call)
    && (!ok ==> t1 == t0 && m1.garbled == m0.garbled && GivenUp(m0, m1, call))
    && (ok ==>
          && plan.name in t0 && plan.name in t1 && t1 == t0[plan.name := t1[plan.name]]
          && (Garbled(m0, m1, call) || t1[plan.name] == Synced(t0[plan.name], SyncPayload(remote, plan, target), domainField)))
  }

  /** Up to three attempts; a failed attempt changes nothing. */
  method SyncWithRetry(s: AppState, remote: RemoteTunnel, plan: TunnelPlan, target: string, ghost purpose: Purpose)
    returns (ok: bool)
    requires s.Wired() && s.journal.Valid()
    modifies s.chml`tunnels, s.chml`mishaps, s.journal
    ensures s.journal.Valid()
    ensures Retried(old(s.chml.tunnels), s.chml.tunnels, old(s.chml.mishaps), s.chml.mishaps,
                    remote, plan, target, purpose, s.chml.domainField, ok)
    ensures !ok ==> s.journal.Now() == old(s.journal.Now())
    ensures ok ==> s.journal.Now() == Step(old(s.journal.Now()), TunnelChanged(plan.name))
    ensures s.chml.Answering() && plan.name in old(s.chml.tunnels) ==> ok && s.chml.mishaps == old(s.chml.mishaps)
  {
    ok := false;
    ghost var call := Call(plan.name, target, purpose);
    ghost var m := s.chml.mishaps;
    for attempt := 1 to 4
      invariant s.journal.Valid() && !ok
      invariant attempt > 1 ==> !(s.chml.Answering() && plan.name in s.chml.tunnels)
      invariant s.chml.tunnels == old(s.chml.tunnels) && s.journal.Now() == old(s.journal.Now())
      invariant s.chml.mishaps.garbled == m.garbled && OnlyWith(m, s.chml.mishaps, call)
      invariant s.chml.mishaps.failed[call] == m.failed[call] + attempt - 1
      invariant attempt == 1 ==> s.chml.mishaps == m
    {
      ok := s.chml.SyncTunnel(remote, plan, target, purpose);
      if ok {
        return;
      }
    }
  }

  // ---------------------------------------------------------------- all or nothing

  type Changes = seq<(TunnelPlan, RemoteTunnel)>

  // What a faithful sync to the target stores for plan `i`.
  function Moved(before: map<string, RemoteTunnel>, plans: seq<TunnelPlan>, i: nat, target: string, domainField: bool): RemoteTunnel
    requires i < |plans| && plans[i].name in before
  {
    var row := before[plans[i].name];
    Synced(row, SyncPayload(row, plans[i], target), domainField)
  }

  // The sync that moved plan `i` to the target was not stored as sent.
  ghost predicate MoveGarbled(plans: seq<TunnelPlan>, i: nat, target: string, m0: Mishaps, m1: Mishaps)
    requires i < |plans|
  {
    Garbled(m0, m1, Call(plans[i].name, target, Move))
  }

  // The first `k` rows are what a sync to the target stores, unless that sync was garbled.
  ghost predicate MovedUpTo(before: map<string, RemoteTunnel>, now: map<string, RemoteTunnel>, plans: seq<TunnelPlan>, k: nat,
                            target: string, m0: Mishaps, m1: Mishaps, domainField: bool)
    requires AllPresent(before, plans) && k <= |plans|
  {
    forall i :: 0 <= i < k ==>
      && plans[i].name in now
      && (MoveGarbled(plans, i, target, m0, m1) || now[plans[i].name] == Moved(before, plans, i, target, domainField))
  }

  // The original node of plan `i`.
  function HomeOf(before: map<string, RemoteTunnel>, plans: seq<TunnelPlan>, i: nat): string
    requires i < |plans| && plans[i].name in before
  {
    before[plans[i].name].node
  }

  // The call that compensates the move of plan `i`.
  function UndoOf(before: map<string, RemoteTunnel>, plans: seq<TunnelPlan>, i: nat): Call
    requires i < |plans| && plans[i].name in before
  {
    Call(plans[i].name, HomeOf(before, plans, i), Undo)
  }

  // The row holds what the compensation of plan `i` sends, whatever was there before.
  ghost predicate SentBack(before: map<string, RemoteTunnel>, now: map<string, RemoteTunnel>, plans: seq<TunnelPlan>, i: nat,
                           domainField: bool)
    requires i < |plans| && plans[i].name in before && plans[i].name in now
  {
    var row := now[plans[i].name];
    row == Synced(row, SyncPayload(before[plans[i].name], plans[i], HomeOf(before, plans, i)), domainField)
  }

  /** The row of plan `i` is untouched, or was compensated. Its id and state can only have been lost to
      a garbled move. */
  ghost predicate RowRestored(before: map<string, RemoteTunnel>, now: map<string, RemoteTunnel>, plans: seq<TunnelPlan>, i: nat,
                              target: string, m0: Mishaps, m1: Mishaps, domainField: bool)
    requires i < |plans| && plans[i].name in before
  {
    && plans[i].name in now
    && (|| now[plans[i].name] == before[plans[i].name]
        || (&& SentBack(before, now, plans, i, domainField)
            && (MoveGarbled(plans, i, target, m0, m1) || SameIdentity(before[plans[i].name], now[plans[i].name]))))
  }

  // The compensation of plan `i` was garbled, or the provider refused it three times.
  ghost predicate CompensationFailed(before: map<string, RemoteTunnel>, plans: seq<TunnelPlan>, i: nat, m0: Mishaps, m1: Mishaps)
    requires i < |plans| && plans[i].name in before
  {
    Garbled(m0, m1, UndoOf(before, plans, i)) || GivenUp(m0, m1, UndoOf(before, plans, i))
  }

  /** Every row is untouched or compensated, except those whose own compensation failed. */
  ghost predicate Compensated(before: map<string, RemoteTunnel>, now: map<string, RemoteTunnel>, plans: seq<TunnelPlan>,
                              target: string, m0: Mishaps, m1: Mishaps, domainField: bool)
    requires AllPresent(before, plans)
  {
    forall i :: 0 <= i < |plans| ==>
      || RowRestored(before, now, plans, i, target, m0, m1, domainField)
      || CompensationFailed(before, plans, i, m0, m1)
  }

  ghost predicate AnyCompensationFailed(before: map<string, RemoteTunnel>, plans: seq<TunnelPlan>, m0: Mishaps, m1: Mishaps)
    requires AllPresent(before, plans)
  {
    exists i :: 0 <= i < |plans| && CompensationFailed(before, plans, i, m0, m1)
  }

  /** The tunnel of plan `i` is on the node it was on. If it is not exactly as it was, it matches its
      plan there; and unless its id or state was lost to a garbled move, it has its old content if that
      can be restored. */
  ghost predicate BackHome(before: map<string, RemoteTunnel>, now: map<string, RemoteTunnel>, plans: seq<TunnelPlan>, i: nat,
                           target: string, m0: Mishaps, m1: Mishaps, domainField: bool)
    requires i < |plans| && plans[i].name in before
  {
    && plans[i].name in now
    && var was, row := before[plans[i].name], now[plans[i].name];
    && row.node == was.node
    && (row == was || MatchesPlanOnNode(row, plans[i], was.node))
    && (MoveGarbled(plans, i, target, m0, m1) || SameIdentity(was, row))
    && (SameIdentity(was, row) && Restorable(was, plans[i], domainField) ==> SameTunnel(was, row))
  }

  // Every planned tunnel is back.
  ghost predicate BackWhereItWas(before: map<string, RemoteTunnel>, now: map<string, RemoteTunnel>, plans: seq<TunnelPlan>,
                                 target: string, m0: Mishaps, m1: Mishaps, domainField: bool)
    requires AllPresent(before, plans)
  {
    forall i :: 0 <= i < |plans| ==> BackHome(before, now, plans, i, target, m0, m1, domainField)
  }

  lemma CompensatedIsBack(before: map<string, RemoteTunnel>, now: map<string, RemoteTunnel>, plans: seq<TunnelPlan>,
                          target: string, m0: Mishaps, m1: Mishaps, domainField: bool)
    requires AllPresent(before, plans) && Compensated(before, now, plans, target, m0, m1, domainField)
    requires !AnyCompensationFailed(before, plans, m0, m1)
    ensures BackWhereItWas(before, now, plans, target, m0, m1, domainField)
  {
    forall i | 0 <= i < |plans|
      ensures BackHome(before, now, plans, i, target, m0, m1, domainField)
    {
      var was := before[plans[i].name];
      assert RowRestored(before, now, plans, i, target, m0, m1, domainField);
      SyncedMatches(now[plans[i].name], was, plans[i], was.node, domainField);
      RollbackRestoresExactly(was, plans[i], domainField);
    }
  }

  lemma MovedMatches(before: map<string, RemoteTunnel>, now: map<string, RemoteTunnel>, plans: seq<TunnelPlan>,
                     target: string, m0: Mishaps, m1: Mishaps, domainField: bool)
    requires AllPresent(before, plans) && MovedUpTo(before, now, plans, |plans|, target, m0, m1, domainField)
    requires forall i :: 0 <= i < |plans| ==> !MoveGarbled(plans, i, target, m0, m1)
    ensures AllOn(now, plans, target)
  {
    forall i | 0 <= i < |plans|
      ensures plans[i].name in now && MatchesPlanOnNode(now[plans[i].name], plans[i], target)
    {
      SyncedMatches(before[plans[i].name], before[plans[i].name], plans[i], target, domainField);
    }
  }

  /** Where a migration attempt leaves the planned tunnels: on the target, as they were, or
      compensated one by one. Tunnels outside the plans stay. */
  ghost predicate Layout(before: map<string, RemoteTunnel>, now: map<string, RemoteTunnel>, plans: seq<TunnelPlan>, target: string,
                         m0: Mishaps, m1: Mishaps, domainField: bool, r: MigrationResult)
  {
    && OthersKept(before, now, plans) && MoreMishaps(m0, m1)
    && (Untouched(r) ==> now == before && m1 == m0)
    && (!Untouched(r) ==> AllPresent(before, plans))
    && (LeftMoved(r) ==> AllOn(now, plans, target) && MovedUpTo(before, now, plans, |plans|, target, m0, m1, domainField))
    && (!Untouched(r) && !LeftMoved(r) ==> Compensated(before, now, plans, target, m0, m1, domainField))
  }

  /** All or nothing: every planned tunnel matches its plan on the target, or, when no compensation was
      garbled or given up, every one is back on the node it was on before. Which of the two holds depends
      on the result. Moves may have been garbled. */
  lemma NeverSplit(before: map<string, RemoteTunnel>, now: map<string, RemoteTunnel>, plans: seq<TunnelPlan>, target: string,
                   m0: Mishaps, m1: Mishaps, domainField: bool, r: MigrationResult)
    requires AllPresent(before, plans) && Layout(before, now, plans, target, m0, m1, domainField, r)
    requires !AnyCompensationFailed(before, plans, m0, m1)
    ensures if LeftMoved(r) then AllOn(now, plans, target) else BackWhereItWas(before, now, plans, target, m0, m1, domainField)
  {
    if !LeftMoved(r) && !Untouched(r) {
      CompensatedIsBack(before, now, plans, target, m0, m1, domainField);
    } else if Untouched(r) {
      UntouchedIsBack(before, plans, target, m0, m1, domainField);
    }
  }

  lemma UntouchedIsBack(before: map<string, RemoteTunnel>, plans: seq<TunnelPlan>, target: string, m0: Mishaps, m1: Mishaps,
                        domainField: bool)
    requires AllPresent(before, plans)
    ensures BackWhereItWas(before, before, plans, target, m0, m1, domainField)
  {
  }

  // ---------------------------------------------------------------- moving and undoing

  // Same id and state, which is all that a sync keeps of a row.
  predicate SameIdentity(a: RemoteTunnel, b: RemoteTunnel) {
    a.tunnelId == b.tunnelId && a.tunnelState == b.tunnelState
  }

  // `changed` lists the first plans with their rows in `before`.
  ghost predicate ChangedFrom(changed: Changes, before: map<string, RemoteTunnel>, plans: seq<TunnelPlan>) {
    && |changed| <= |plans|
    && AllPresent(before, plans)
    && forall i :: 0 <= i < |changed| ==> changed[i] == (plans[i], before[plans[i].name])
  }

  // Row `i` was compensated and kept its id and state; or its compensation was garbled, or was given up
  // and left it as it was.
  ghost predicate RowUndone(before: map<string, RemoteTunnel>, start: map<string, RemoteTunnel>, now: map<string, RemoteTunnel>,
                            plans: seq<TunnelPlan>, i: nat, m0: Mishaps, m1: Mishaps, domainField: bool)
    requires AllPresent(before, plans) && AllPresent(start, plans) && AllPresent(now, plans) && i < |plans|
  {
    || Garbled(m0, m1, UndoOf(before, plans, i))
    || (GivenUp(m0, m1, UndoOf(before, plans, i)) && now[plans[i].name] == start[plans[i].name])
    || (SentBack(before, now, plans, i, domainField) && SameIdentity(start[plans[i].name], now[plans[i].name]))
  }

  /** The rollback from row `n` down to row `k`: each of these rows was compensated, or its compensation
      failed; the others are as they were when the rollback began. */
  ghost predicate RolledBackFrom(before: map<string, RemoteTunnel>, start: map<string, RemoteTunnel>, now: map<string, RemoteTunnel>,
                                 plans: seq<TunnelPlan>, k: nat, n: nat, m0: Mishaps, m1: Mishaps, domainField: bool)
    requires AllPresent(before, plans) && AllPresent(start, plans) && AllPresent(now, plans) && n <= |plans|
  {
    && (forall i :: 0 <= i < |plans| && !(k <= i < n) ==> now[plans[i].name] == start[plans[i].name])
    && (forall i :: k <= i < n ==> RowUndone(before, start, now, plans, i, m0, m1, domainField))
  }

  // Only rollbacks call for this purpose.
  ghost predicate OnlyUndoing(a: Mishaps, b: Mishaps) {
    && MoreMishaps(a, b)
    && forall c: Call :: !c.purpose.Undo? ==> b.garbled[c] == a.garbled[c] && b.failed[c] == a.failed[c]
  }

  ghost predicate NoUndoing(a: Mishaps, b: Mishaps) {
    && MoreMishaps(a, b)
    && forall c: Call :: c.purpose.Undo? ==> b.garbled[c] == a.garbled[c] && b.failed[c] == a.failed[c]
  }

  lemma RollbackStep(before: map<string, RemoteTunnel>, start: map<string, RemoteTunnel>, now: map<string, RemoteTunnel>,
                     after: map<string, RemoteTunnel>, plans: seq<TunnelPlan>, k: nat, n: nat,
                     m0: Mishaps, m1: Mishaps, m2: Mishaps, domainField: bool)
    requires DistinctNames(plans) && k < n <= |plans|
    requires AllPresent(before, plans) && AllPresent(start, plans) && AllPresent(now, plans) && AllPresent(after, plans)
    requires RolledBackFrom(before, start, now, plans, k + 1, n, m0, m1, domainField)
    requires MoreMishaps(m0, m1) && MoreMishaps(m1, m2)
    requires after == now[plans[k].name := after[plans[k].name]]
    requires RowUndone(before, now, after, plans, k, m1, m2, domainField)
    ensures RolledBackFrom(before, start, after, plans, k, n, m0, m2, domainField)
  {
    forall i | 0 <= i < |plans| && i != k
      ensures after[plans[i].name] == now[plans[i].name]
    {
      assert plans[i].name != plans[k].name;
    }
    forall i | k <= i < n
      ensures RowUndone(before, start, after, plans, i, m0, m2, domainField)
    {
      if i > k {
        assert RowUndone(before, start, now, plans, i, m0, m1, domainField);
      }
    }
  }

  /** Re-syncs the changed tunnels to their old nodes, last first. Whatever fails, nothing outside
      the plans is touched, and every changed row is compensated or its own compensation has failed. */
  method RollbackProvider(s: AppState, changed: Changes, plans: seq<TunnelPlan>, ghost before: map<string, RemoteTunnel>)
    requires s.Wired() && s.journal.Valid() && DistinctNames(plans)
    requires ChangedFrom(changed, before, plans)
    requires AllPresent(s.chml.tunnels, plans) && OthersKept(before, s.chml.tunnels, plans)
    modifies s.chml`tunnels, s.chml`mishaps, s.journal
    ensures s.journal.Valid()
    ensures SameFindings(s.journal.Now(), old(s.journal.Now()))
    ensures AllPresent(s.chml.tunnels, plans) && OthersKept(before, s.chml.tunnels, plans)
    ensures OnlyUndoing(old(s.chml.mishaps), s.chml.mishaps)
    ensures s.chml.Answering() ==> s.chml.mishaps == old(s.chml.mishaps)
    ensures RolledBackFrom(before, old(s.chml.tunnels), s.chml.tunnels, plans, 0, |changed|,
                           old(s.chml.mishaps), s.chml.mishaps, s.chml.domainField)
  {
    ghost var df, start, m0 := s.chml.domainField, s.chml.tunnels, s.chml.mishaps;
    ghost var w := s.journal.Now();
    var k := |changed|;
    while k > 0
      invariant 0 <= k <= |changed|
      invariant s.journal.Valid() && SameFindings(s.journal.Now(), w)
      invariant AllPresent(s.chml.tunnels, plans) && OthersKept(before, s.chml.tunnels, plans)
      invariant OnlyUndoing(m0, s.chml.mishaps)
      invariant s.chml.Answering() ==> s.chml.mishaps == m0
      invariant RolledBackFrom(before, start, s.chml.tunnels, plans, k, |changed|, m0, s.chml.mishaps, df)
    {
      k := k - 1;
      ghost var now, m1 := s.chml.tunnels, s.chml.mishaps;
      RollbackOne(s, changed[k].0, changed[k].1, plans, k, before);
      RollbackStep(before, start, now, s.chml.tunnels, plans, k, |changed|, m0, m1, s.chml.mishaps, df);
    }
  }

  // Compensates the row of plan `k`.
  method RollbackOne(s: AppState, plan: TunnelPlan, original: RemoteTunnel, ghost plans: seq<TunnelPlan>, ghost k: nat,
                     ghost before: map<string, RemoteTunnel>)
    requires s.Wired() && s.journal.Valid() && k < |plans| && plan == plans[k]
    requires AllPresent(before, plans) && original == before[plan.name]
    requires AllPresent(s.chml.tunnels, plans) && OthersKept(before, s.chml.tunnels, plans)
    modifies s.chml`tunnels, s.chml`mishaps, s.journal
    ensures s.journal.Valid()
    ensures SameFindings(s.journal.Now(), old(s.journal.Now()))
    ensures AllPresent(s.chml.tunnels, plans) && OthersKept(before, s.chml.tunnels, plans)
    ensures OnlyUndoing(old(s.chml.mishaps), s.chml.mishaps)
    ensures s.chml.Answering() ==> s.chml.mishaps == old(s.chml.mishaps)
    ensures s.chml.tunnels == old(s.chml.tunnels)[plan.name := s.chml.tunnels[plan.name]]
    ensures RowUndone(before, old(s.chml.tunnels), s.chml.tunnels, plans, k, old(s.chml.mishaps), s.chml.mishaps, s.chml.domainField)
  {
    assert PlanNamed(plans, plan.name);
    var _ := SyncWithRetry(s, original, plan, original.node, Undo);
  }

  /** Nothing but the first `k` planned tunnels was moved since `before` and `m0`, and nothing was
      compensated. */
  ghost predicate MovingSince(before: map<string, RemoteTunnel>, now: map<string, RemoteTunnel>, plans: seq<TunnelPlan>, k: nat,
                              target: string, m0: Mishaps, m1: Mishaps, domainField: bool)
    requires k <= |plans|
  {
    && AllPresent(before, plans) && AllPresent(now, plans) && OthersKept(before, now, plans)
    && NoUndoing(m0, m1)
    && MovedUpTo(before, now, plans, k, target, m0, m1, domainField)
    && (forall i :: k <= i < |plans| ==> now[plans[i].name] == before[plans[i].name])
  }

  lemma MoveStep(before: map<string, RemoteTunnel>, now: map<string, RemoteTunnel>, after: map<string, RemoteTunnel>,
                 plans: seq<TunnelPlan>, k: nat, target: string, m0: Mishaps, m1: Mishaps, m2: Mishaps, domainField: bool)
    requires DistinctNames(plans) && k < |plans|
    requires MovingSince(before, now, plans, k, target, m0, m1, domainField)
    requires Retried(now, after, m1, m2, before[plans[k].name], plans[k], target, Move, domainField, true)
    ensures MovingSince(before, after, plans, k + 1, target, m0, m2, domainField)
  {
    assert PlanNamed(plans, plans[k].name);
    forall i | 0 <= i < |plans| && i != k
      ensures after[plans[i].name] == now[plans[i].name]
    {
      assert plans[i].name != plans[k].name;
    }
  }

  lemma MoveRefused(before: map<string, RemoteTunnel>, now: map<string, RemoteTunnel>, after: map<string, RemoteTunnel>,
                    plans: seq<TunnelPlan>, k: nat, target: string, m0: Mishaps, m1: Mishaps, m2: Mishaps, domainField: bool)
    requires k < |plans| && MovingSince(before, now, plans, k, target, m0, m1, domainField)
    requires Retried(now, after, m1, m2, before[plans[k].name], plans[k], target, Move, domainField, false)
    ensures MovingSince(before, after, plans, k, target, m0, m2, domainField)
  {
  }

  // The move of `before` was undone.
  ghost predicate UndoneSince(before: map<string, RemoteTunnel>, now: map<string, RemoteTunnel>, plans: seq<TunnelPlan>,
                              target: string, m0: Mishaps, m1: Mishaps, domainField: bool)
  {
    && AllPresent(before, plans) && OthersKept(before, now, plans) && MoreMishaps(m0, m1)
    && Compensated(before, now, plans, target, m0, m1, domainField)
  }

  lemma UndoneByRollback(before: map<string, RemoteTunnel>, start: map<string, RemoteTunnel>, now: map<string, RemoteTunnel>,
                         plans: seq<TunnelPlan>, k: nat, target: string, m0: Mishaps, m1: Mishaps, m2: Mishaps, domainField: bool)
    requires k <= |plans| && MovingSince(before, start, plans, k, target, m0, m1, domainField)
    requires AllPresent(now, plans) && OnlyUndoing(m1, m2)
    requires RolledBackFrom(before, start, now, plans, 0, k, m1, m2, domainField)
    ensures MoreMishaps(m0, m2) && Compensated(before, now, plans, target, m0, m2, domainField)
  {
    forall i | 0 <= i < |plans|
      ensures RowRestored(before, now, plans, i, target, m0, m2, domainField) || CompensationFailed(before, plans, i, m0, m2)
    {
      if i < k {
        assert RowUndone(before, start, now, plans, i, m1, m2, domainField);
      }
    }
  }

  lemma MoveTried(before: map<string, RemoteTunnel>, now: map<string, RemoteTunnel>, after: map<string, RemoteTunnel>,
                  plans: seq<TunnelPlan>, k: nat, target: string, m0: Mishaps, m1: Mishaps, m2: Mishaps, domainField: bool, ok: bool)
    requires DistinctNames(plans) && k < |plans|
    requires MovingSince(before, now, plans, k, target, m0, m1, domainField)
    requires Retried(now, after, m1, m2, before[plans[k].name], plans[k], target, Move, domainField, ok)
    ensures MovingSince(before, after, plans, if ok then k + 1 else k, target, m0, m2, domainField)
  {
    if ok {
      MoveStep(before, now, after, plans, k, target, m0, m1, m2, domainField);
    } else {
      MoveRefused(before, now, after, plans, k, target, m0, m1, m2, domainField);
    }
  }

  // Moves the tunnel of plan `k`.
  method MoveOne(s: AppState, plans: seq<TunnelPlan>, k: nat, snapshot: map<string, RemoteTunnel>, target: string) returns (ok: bool)
    requires s.Wired() && s.journal.Valid() && k < |plans|
    requires plans[k].name in snapshot && plans[k].name in s.chml.tunnels
    modifies s.chml`tunnels, s.chml`mishaps, s.journal
    ensures s.journal.Valid()
    ensures SameFindings(s.journal.Now(), old(s.journal.Now()))
    ensures Retried(old(s.chml.tunnels), s.chml.tunnels, old(s.chml.mishaps), s.chml.mishaps,
                    snapshot[plans[k].name], plans[k], target, Move, s.chml.domainField, ok)
    ensures s.chml.Answering() ==> ok && s.chml.mishaps == old(s.chml.mishaps)
  {
    ok := SyncWithRetry(s, snapshot[plans[k].name], plans[k], target, Move);
  }

  // Undoes the moves of the first plans, as far as they went.
  method UndoMove(s: AppState, changed: Changes, plans: seq<TunnelPlan>, ghost before: map<string, RemoteTunnel>,
                  ghost target: string, ghost m0: Mishaps)
    requires s.Wired() && s.journal.Valid() && DistinctNames(plans)
    requires ChangedFrom(changed, before, plans)
    requires MovingSince(before, s.chml.tunnels, plans, |changed|, target, m0, s.chml.mishaps, s.chml.domainField)
    modifies s.chml`tunnels, s.chml`mishaps, s.journal
    ensures s.journal.Valid()
    ensures SameFindings(s.journal.Now(), old(s.journal.Now()))
    ensures UndoneSince(before, s.chml.tunnels, plans, target, m0, s.chml.mishaps, s.chml.domainField)
    ensures MoreMishaps(old(s.chml.mishaps), s.chml.mishaps)
    ensures s.chml.Answering() ==> s.chml.mishaps == old(s.chml.mishaps)
  {
    ghost var start, m1, df := s.chml.tunnels, s.chml.mishaps, s.chml.domainField;
    RollbackProvider(s, changed, plans, before);
    UndoneByRollback(before, start, s.chml.tunnels, plans, |changed|, target, m0, m1, s.chml.mishaps, df);
  }

  lemma ChangedStep(changed: Changes, before: map<string, RemoteTunnel>, plans: seq<TunnelPlan>, k: nat)
    requires |changed| == k < |plans| && ChangedFrom(changed, before, plans)
    ensures ChangedFrom(changed + [(plans[k], before[plans[k].name])], before, plans)
  {
  }

  // One sync per plan, up to the first that fails.
  method MoveEach(s: AppState, plans: seq<TunnelPlan>, snapshot: map<string, RemoteTunnel>, target: string)
    returns (ok: bool, changed: Changes)
    requires s.Wired() && s.journal.Valid() && DistinctNames(plans)
    requires snapshot == s.chml.tunnels && AllPresent(snapshot, plans)
    modifies s.chml`tunnels, s.chml`mishaps, s.journal
    ensures s.journal.Valid()
    ensures SameFindings(s.journal.Now(), old(s.journal.Now()))
    ensures ChangedFrom(changed, snapshot, plans) && (ok ==> |changed| == |plans|)
    ensures MovingSince(snapshot, s.chml.tunnels, plans, |changed|, target, old(s.chml.mishaps), s.chml.mishaps, s.chml.domainField)
    ensures s.chml.Answering() ==> ok && s.chml.mishaps == old(s.chml.mishaps)
  {
    ghost var w := s.journal.Now();
    ghost var m0 := s.chml.mishaps;
    ok, changed := true, [];
    for k := 0 to |plans|
      invariant s.journal.Valid() && SameFindings(s.journal.Now(), w)
      invariant ok && |changed| == k && ChangedFrom(changed, snapshot, plans)
      invariant MovingSince(snapshot, s.chml.tunnels, plans, k, target, m0, s.chml.mishaps, s.chml.domainField)
      invariant s.chml.Answering() ==> s.chml.mishaps == m0
    {
      ghost var now, m1 := s.chml.tunnels, s.chml.mishaps;
      ok := MoveOne(s, plans, k, snapshot, target);
      MoveTried(snapshot, now, s.chml.tunnels, plans, k, target, m0, m1, s.chml.mishaps, s.chml.domainField, ok);
      if !ok {
        return;
      }
      ChangedStep(changed, snapshot, plans, k);
      changed := changed + [(plans[k], snapshot[plans[k].name])];
    }
  }

  /** The migration loop of `migrate_to`, with the compensation of what was changed when a sync
      fails. */
  method MoveTunnels(s: AppState, plans: seq<TunnelPlan>, snapshot: map<string, RemoteTunnel>, target: string)
    returns (ok: bool, changed: Changes)
    requires s.Wired() && s.journal.Valid() && DistinctNames(plans)
    requires snapshot == s.chml.tunnels && AllPresent(snapshot, plans)
    modifies s.chml`tunnels, s.chml`mishaps, s.journal
    ensures s.journal.Valid()
    ensures SameFindings(s.journal.Now(), old(s.journal.Now()))
    ensures ok ==> ChangedFrom(changed, snapshot, plans) && |changed| == |plans|
    ensures ok ==> MovingSince(snapshot, s.chml.tunnels, plans, |plans|, target, old(s.chml.mishaps), s.chml.mishaps, s.chml.domainField)
    ensures !ok ==> UndoneSince(snapshot, s.chml.tunnels, plans, target, old(s.chml.mishaps), s.chml.mishaps, s.chml.domainField)
    ensures s.chml.Answering() ==> ok && s.chml.mishaps == old(s.chml.mishaps)
  {
    ghost var m0 := s.chml.mishaps;
    ok, changed := MoveEach(s, plans, snapshot, target);
    if !ok {
      UndoMove(s, changed, plans, snapshot, target, m0);
    }
  }

  // ---------------------------------------------------------------- the stages before the runtime

  datatype Preflighted =
    | Proceed(ip: string, snapshot: map<string, RemoteTunnel>)
    | NodeOffline
    | Rejected

  /** Nothing stands in the way of a move to the node: it is online with an address, providers
      answer, the zone has no conflict, every tunnel exists, and host and runtime are calm. */
  ghost predicate Welcoming(p: Picture, node: string) {
    && p.Wanted() != []
    && Undisturbed(p, p.Wanted(), node) && AllPresent(p.tunnels, p.Wanted()) && CleanConfigs(p.world, p.Wanted(), node)
  }

  /** Without managed DNS a node is welcoming or down whatever Cloudflare answers, whatever the zone
      holds, and whether or not the node has an address. */
  lemma UnmanagedNeedsNoDns(p: Picture, node: string)
    requires Unmanaged(p) && p.Wanted() != [] && p.world.configured && p.world.steady
    ensures OnlineAt(p.world, node) && p.world.calm && AllPresent(p.tunnels, p.Wanted()) && CleanConfigs(p.world, p.Wanted(), node)
            ==> Welcoming(p, node)
    ensures node in p.world.directory && !OnlineAt(p.world, node) ==> Down(p, node)
    ensures node !in p.world.directory ==> Unknown(p, node)
  {
  }

  /** Providers answer, and report the node not online. */
  ghost predicate Down(p: Picture, node: string) {
    && p.Wanted() != []
    && Answering(p.world) && DnsAnswers(p.world, p.zone, p.Wanted())
    && node in p.world.directory && !IsOnline(p.world.directory[node].state)
  }

  /** Providers answer, but do not know the node. */
  ghost predicate Unknown(p: Picture, node: string) {
    p.Wanted() != [] && Answering(p.world) && DnsAnswers(p.world, p.zone, p.Wanted()) && node !in p.world.directory
  }

  /** Everything `migrate_to` checks before its first mutation: DNS configured and conflict-free,
      target online with an address, and every planned tunnel present. */
  method MigrationPreflight(s: AppState, plans: seq<TunnelPlan>, target: string) returns (r: Preflighted)
    requires s.Wired() && s.journal.Valid()
    modifies s.journal
    ensures s.journal.Valid()
    ensures SameHistory(s.journal.Now(), old(s.journal.Now())) && (!r.NodeOffline? ==> NothingAgainst(old(s.journal.Now()), s.journal.Now()))
    ensures r.Proceed? ==> LookedUp(s.journal.Now(), target, r.ip)
    ensures r.Proceed? && AnyDns(plans) ==> NoConflict(s.cf.zone, plans) && !IsBlank(r.ip)
    ensures r.Proceed? ==> r.snapshot == s.chml.tunnels && AllPresent(r.snapshot, plans)
    ensures r.NodeOffline? ==>
              var probe := s.journal.Now().stage.probe; probe.Some? && probe.value.node == target && !IsOnline(probe.value.state)
    ensures NodeServes(WorldOf(s), plans, target) && DnsAnswers(WorldOf(s), s.cf.zone, plans) && AllPresent(s.chml.tunnels, plans) ==>
              r.Proceed?
    ensures (Answering(WorldOf(s)) && DnsAnswers(WorldOf(s), s.cf.zone, plans)
             && target in s.chml.directory && !IsOnline(s.chml.directory[target].state))
            ==> r.NodeOffline?
    ensures Answering(WorldOf(s)) && DnsAnswers(WorldOf(s), s.cf.zone, plans) && target !in s.chml.directory ==> r.Rejected?
  {
    var dnsRequired := AnyDns(plans);
    if dnsRequired {
      if !s.cf.configured {
        return Rejected;
      }
      var records := s.cf.ListARecords();
      if records.None? {
        return Rejected;
      }
      SameConflicts(s.cf.zone, plans);
      var conflicts := EnsureUniqueManagedARecords(plans, records.value);
      if conflicts != [] {
        return Rejected;
      }
    }
    var info := s.chml.NodeInfo(target);
    if info.None? {
      return Rejected;
    }
    if !IsOnline(info.value.state) {
      return NodeOffline;
    }
    if dnsRequired && IsBlank(info.value.realIp) {
      return Rejected;
    }
    var remote := s.chml.ListTunnels();
    if remote.None? || !AllPresent(remote.value, plans) {
      return Rejected;
    }
    return Proceed(info.value.realIp, remote.value);
  }

  // A stage that works on the provider's tunnels, and what the runtime does meanwhile.
  ghost predicate TunnelStage(a: Picture, b: Picture) {
    && Passed(a.(tunnels := b.tunnels, mishaps := b.mishaps, watch := b.watch), b)
    && SameFindings(b.watch, a.watch) && MishapsGrow(a, b)
  }

  method MoveStage(s: AppState, plans: seq<TunnelPlan>, snapshot: map<string, RemoteTunnel>, target: string)
    returns (ok: bool, changed: Changes)
    requires s.Sound() && s.frpc.RunsFile() && DistinctNames(plans)
    requires snapshot == s.chml.tunnels && AllPresent(snapshot, plans)
    modifies s.chml`tunnels, s.chml`mishaps, s.frpc, s.journal
    ensures s.Sound() && s.frpc.RunsFile()
    ensures ok ==> ChangedFrom(changed, snapshot, plans) && |changed| == |plans|
    ensures MoveEnded(old(Pic(s)), Pic(s), plans, target, ok)
  {
    ok, changed := MoveTunnels(s, plans, snapshot, target);
    LetTimePass(s);
  }

  ghost predicate MoveEnded(a: Picture, b: Picture, plans: seq<TunnelPlan>, target: string, ok: bool) {
    && TunnelStage(a, b)
    && (if ok then MovingSince(a.tunnels, b.tunnels, plans, |plans|, target, a.mishaps, b.mishaps, a.world.domainField)
        else UndoneSince(a.tunnels, b.tunnels, plans, target, a.mishaps, b.mishaps, a.world.domainField))
    && (Answering(a.world) ==> ok)
  }

  method UndoStage(s: AppState, changed: Changes, plans: seq<TunnelPlan>, ghost before: map<string, RemoteTunnel>,
                   ghost target: string, ghost m0: Mishaps)
    requires s.Sound() && s.frpc.RunsFile() && DistinctNames(plans)
    requires ChangedFrom(changed, before, plans) && |changed| == |plans|
    requires MovingSince(before, s.chml.tunnels, plans, |plans|, target, m0, s.chml.mishaps, s.chml.domainField)
    modifies s.chml`tunnels, s.chml`mishaps, s.frpc, s.journal
    ensures s.Sound() && s.frpc.RunsFile()
    ensures TunnelStage(old(Pic(s)), Pic(s))
    ensures UndoneSince(before, s.chml.tunnels, plans, target, m0, s.chml.mishaps, s.chml.domainField)
  {
    UndoMove(s, changed, plans, before, target, m0);
    LetTimePass(s);
  }

  datatype Config = Obtained(text: string) | Unverified | Unavailable

  /** Verification on the target and the target's config; on any failure the move is undone. */
  method VerifyAndGenerate(s: AppState, plans: seq<TunnelPlan>, target: string, changed: Changes,
                           ghost before: map<string, RemoteTunnel>, ghost m0: Mishaps)
    returns (config: Config)
    requires s.Sound() && s.frpc.RunsFile() && DistinctNames(plans)
    requires ChangedFrom(changed, before, plans) && |changed| == |plans|
    requires MovingSince(before, s.chml.tunnels, plans, |plans|, target, m0, s.chml.mishaps, s.chml.domainField)
    modifies s.chml`tunnels, s.chml`mishaps, s.frpc, s.journal
    ensures s.Sound() && s.frpc.RunsFile()
    ensures Generating(old(Pic(s)), Pic(s), plans, target, config)
    ensures !config.Obtained? ==> UndoneSince(before, s.chml.tunnels, plans, target, m0, s.chml.mishaps, s.chml.domainField)
  {
    config := Obtain(s, plans, target);
    if !config.Obtained? {
      UndoStage(s, changed, plans, before, target, m0);
    }
  }

  ghost predicate Generating(a: Picture, b: Picture, plans: seq<TunnelPlan>, target: string, config: Config) {
    && TunnelStage(a, b)
    && (config.Obtained? ==>
          && b.tunnels == a.tunnels && b.mishaps == a.mishaps
          && AllOn(b.tunnels, plans, target) && b.watch.stage.verified == Some(Checked(target, plans))
          && HasRendered(b.watch, target, config.text)
          && config.text == Generated(a.world, a.tunnels, plans, target) && Loadable(a.world, a.tunnels, plans, target))
    && (Answering(a.world) && AllOn(a.tunnels, plans, target) && Loadable(a.world, a.tunnels, plans, target) ==> config.Obtained?)
  }

  // The read-back and the generated config.
  method Obtain(s: AppState, plans: seq<TunnelPlan>, target: string) returns (config: Config)
    requires s.Sound() && s.frpc.RunsFile()
    modifies s.frpc, s.journal
    ensures s.Sound() && s.frpc.RunsFile()
    ensures Generating(old(Pic(s)), Pic(s), plans, target, config)
    ensures s.chml.tunnels == old(s.chml.tunnels) && s.chml.mishaps == old(s.chml.mishaps)
  {
    var verified := ReadBack(s, plans, target);
    config := Unverified;
    if verified {
      var text := FetchConfig(s, plans, target);
      config := if text.Some? then Obtained(text.value) else Unavailable;
    }
    LetTimePass(s);
  }

  method ReadBack(s: AppState, plans: seq<TunnelPlan>, target: string) returns (ok: bool)
    requires s.Sound()
    modifies s.journal
    ensures s.Sound()
    ensures var a, b := old(Pic(s)), Pic(s);
            && b == a.(watch := if ok then Step(a.watch, PlansVerified(target, plans)) else a.watch)
            && (ok ==> AllOn(a.tunnels, plans, target))
            && (Answering(a.world) && AllOn(a.tunnels, plans, target) ==> ok)
  {
    ok := VerifyOnNode(s.chml, plans, target);
  }
}

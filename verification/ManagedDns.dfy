/** The DNS stage: the conflict preflight and the convergence of all managed A records on one
    address. Failover and reconcile each carry a copy of this code; they differ only in the lookup. */
module ManagedDns {
  import opened Basics
  import opened Domain
  import opened Journals
  import opened Databases
  import opened Cloudflare

  lemma CountIsUniqueness(zone: Zone, domain: string)
    ensures |set id | id in zone && Serves(zone, id, domain)| > 1 <==> !AtMostOne(zone, domain)
  {
    var ids := set id | id in zone && Serves(zone, id, domain);
    if |ids| > 1 {
      var x :| x in ids;
      assert |ids - {x}| == |ids| - 1;
      var y :| y in ids - {x};
      assert Serves(zone, x, domain) && Serves(zone, y, domain);
    }
    if !AtMostOne(zone, domain) {
      var x, y :| Serves(zone, x, domain) && Serves(zone, y, domain) && x != y;
      assert {x, y} <= ids;
      assert |ids - {x, y}| == |ids| - 2;
    }
  }

  lemma SameConflicts(zone: Zone, plans: seq<TunnelPlan>)
    ensures NoConflict(ARecords(zone), plans) <==> NoConflict(zone, plans)
  {
    forall domain
      ensures AtMostOne(ARecords(zone), domain) <==> AtMostOne(zone, domain)
    {
      assert forall id :: Serves(ARecords(zone), id, domain) <==> Serves(zone, id, domain);
    }
  }

  lemma ManagesMore(plans: seq<TunnelPlan>, k: nat)
    requires k < |plans|
    ensures forall d :: Manages(plans[..k + 1], d) <==> Manages(plans[..k], d) || (plans[k].dnsManaged && plans[k].domain == d)
  {
    assert plans[..k + 1] == plans[..k] + [plans[k]];
    forall d | Manages(plans[..k], d)
      ensures Manages(plans[..k + 1], d)
    {
      var i :| 0 <= i < k && plans[..k][i].dnsManaged && plans[..k][i].domain == d;
      assert plans[..k + 1][i] == plans[..k][i];
    }
    if plans[k].dnsManaged {
      assert plans[..k + 1][k] == plans[k];
    }
  }

  /** Reports exactly the managed domains that more than one A record serves. */
  method EnsureUniqueManagedARecords(plans: seq<TunnelPlan>, records: Zone) returns (conflicts: seq<string>)
    ensures forall d :: d in conflicts <==> Manages(plans, d) && !AtMostOne(records, d)
    ensures conflicts == [] <==> NoConflict(records, plans)
  {
    conflicts := [];
    for k := 0 to |plans|
      invariant forall d :: d in conflicts <==> Manages(plans[..k], d) && !AtMostOne(records, d)
      invariant conflicts == [] <==> forall i :: 0 <= i < k && plans[i].dnsManaged ==> AtMostOne(records, plans[i].domain)
    {
      var plan := plans[k];
      if plan.dnsManaged {
        CountIsUniqueness(records, plan.domain);
        var count := |set id | id in records && Serves(records, id, plan.domain)|;
        if count > 1 {
          conflicts := conflicts + [plan.domain];
        }
      }
      ManagesMore(plans, k);
    }
    assert plans[..|plans|] == plans;
  }

  lemma SameLookup(zone: Zone, domain: string, ignoreCase: bool)
    ensures forall id :: Found(ARecords(zone), id, domain, ignoreCase) <==> Found(zone, id, domain, ignoreCase)
  {
  }

  // The stage's writes are allowed: the call has verified everything on its node, which the routing
  // row names and whose address is `ip`.
  ghost predicate DnsReady(w: Watch, plans: seq<TunnelPlan>, ip: string) {
    && w.stage.verified.Some? && w.stage.probe.Some?
    && StandsOn(w, w.stage.verified.value.node)
    && w.stage.verified.value.plans == plans
    && w.stage.probe.value.node == w.stage.verified.value.node && w.stage.probe.value.ip == ip
    && w.active == Some(w.stage.verified.value.node)
    && (w.stage.published.Some? ==> w.stage.published == Some(ip))
    && !IsBlank(ip)
  }

  // The same, but for writes of `ip`.
  ghost predicate OnlyPublished(before: Watch, after: Watch, ip: string) {
    after == before || after == before.(stage := before.stage.(published := Some(ip)))
  }

  ghost predicate LookupIsSound(zone: Zone, plans: seq<TunnelPlan>, ignoreCase: bool) {
    ignoreCase || forall i :: 0 <= i < |plans| && plans[i].dnsManaged ==> SpelledExactly(zone, plans[i].domain)
  }

  // Old records keep everything but the content of managed ones; new ones were made for a plan.
  ghost predicate Changed(before: Zone, zone: Zone, plans: seq<TunnelPlan>, k: nat, ip: string, ignoreCase: bool)
    requires k <= |plans|
  {
    && before.Keys <= zone.Keys
    && (forall id :: id in before ==>
          zone[id] == before[id] || (IsManaged(before, id, plans) && zone[id] == before[id].(content := ip)))
    && (forall id :: id in zone && id !in before ==> MadeFor(zone[id], plans, k, ip, before, ignoreCase))
  }

  // A new record was made for one of the first `k` plans, whose domain was not found before.
  ghost predicate MadeFor(r: DnsRecord, plans: seq<TunnelPlan>, k: nat, ip: string, before: Zone, ignoreCase: bool)
    requires k <= |plans|
  {
    exists i :: 0 <= i < k && plans[i].dnsManaged && r == NewARecord(plans[i].domain, ip)
                && NotFound(before, plans[i].domain, ignoreCase)
  }

  ghost predicate NotFound(zone: Zone, domain: string, ignoreCase: bool) {
    forall id :: !Found(zone, id, domain, ignoreCase)
  }

  ghost predicate HeldUpTo(zone: Zone, plans: seq<TunnelPlan>, k: nat, ip: string, ignoreCase: bool)
    requires k <= |plans|
  {
    forall i :: 0 <= i < k && plans[i].dnsManaged ==> HeldAt(zone, plans[i].domain, ip, ignoreCase)
  }

  ghost predicate Settled(zone: Zone, plans: seq<TunnelPlan>, ip: string, ignoreCase: bool) {
    NoConflict(zone, plans) && AllAt(zone, plans, ip, ignoreCase)
  }

  /** The zone after the first `k` plans. */
  ghost predicate Progress(before: Zone, zone: Zone, plans: seq<TunnelPlan>, k: nat, ip: string, ignoreCase: bool)
    requires k <= |plans|
  {
    && Changed(before, zone, plans, k, ip, ignoreCase)
    && HeldUpTo(zone, plans, k, ip, ignoreCase)
    && (NoConflict(before, plans) && LookupIsSound(before, plans, ignoreCase) ==> NoConflict(zone, plans))
    && (Settled(before, plans, ip, ignoreCase) ==> zone == before)
  }

  lemma ChangedLonger(before: Zone, zone: Zone, plans: seq<TunnelPlan>, k: nat, ip: string, ignoreCase: bool)
    requires k < |plans| && Changed(before, zone, plans, k, ip, ignoreCase)
    ensures Changed(before, zone, plans, k + 1, ip, ignoreCase)
  {
    forall id | id in zone && id !in before
      ensures MadeFor(zone[id], plans, k + 1, ip, before, ignoreCase)
    {
      assert MadeFor(zone[id], plans, k, ip, before, ignoreCase);
    }
  }

  lemma SkipStep(before: Zone, zone: Zone, plans: seq<TunnelPlan>, k: nat, ip: string, ignoreCase: bool)
    requires k < |plans| && Progress(before, zone, plans, k, ip, ignoreCase)
    requires !plans[k].dnsManaged
    ensures Progress(before, zone, plans, k + 1, ip, ignoreCase)
  {
    ChangedLonger(before, zone, plans, k, ip, ignoreCase);
  }

  // ---- writing an existing record: names and types stay

  lemma PatchStep(before: Zone, zone: Zone, plans: seq<TunnelPlan>, k: nat, ip: string, ignoreCase: bool, id: string)
    requires k < |plans| && Progress(before, zone, plans, k, ip, ignoreCase)
    requires plans[k].dnsManaged && Found(before, id, plans[k].domain, ignoreCase)
    ensures Progress(before, zone[id := zone[id].(content := ip)], plans, k + 1, ip, ignoreCase)
  {
    PatchChanged(before, zone, plans, k, ip, ignoreCase, id);
    PatchHeld(zone, plans, k, ip, ignoreCase, id);
    if NoConflict(zone, plans) {
      PatchUnique(zone, plans, ip, id);
    }
    if Settled(before, plans, ip, ignoreCase) {
      PatchSettled(before, plans, k, ip, ignoreCase, id);
    }
  }

  lemma PatchChanged(before: Zone, zone: Zone, plans: seq<TunnelPlan>, k: nat, ip: string, ignoreCase: bool, id: string)
    requires k < |plans| && Changed(before, zone, plans, k, ip, ignoreCase)
    requires plans[k].dnsManaged && Found(before, id, plans[k].domain, ignoreCase)
    ensures Found(zone, id, plans[k].domain, ignoreCase)
    ensures Changed(before, zone[id := zone[id].(content := ip)], plans, k + 1, ip, ignoreCase)
  {
    assert Serves(before, id, plans[k].domain);
    assert IsManaged(before, id, plans);
    ChangedLonger(before, zone, plans, k, ip, ignoreCase);
  }

  lemma PatchHeld(zone: Zone, plans: seq<TunnelPlan>, k: nat, ip: string, ignoreCase: bool, id: string)
    requires k < |plans| && HeldUpTo(zone, plans, k, ip, ignoreCase)
    requires plans[k].dnsManaged && Found(zone, id, plans[k].domain, ignoreCase)
    ensures HeldUpTo(zone[id := zone[id].(content := ip)], plans, k + 1, ip, ignoreCase)
  {
    var after := zone[id := zone[id].(content := ip)];
    forall i | 0 <= i < k + 1 && plans[i].dnsManaged
      ensures HeldAt(after, plans[i].domain, ip, ignoreCase)
    {
      var held :| Found(zone, held, plans[i].domain, ignoreCase) && (i < k ==> zone[held].content == ip) && (i == k ==> held == id);
      assert Found(after, held, plans[i].domain, ignoreCase);
    }
  }

  lemma PatchUnique(zone: Zone, plans: seq<TunnelPlan>, ip: string, id: string)
    requires NoConflict(zone, plans) && id in zone
    ensures NoConflict(zone[id := zone[id].(content := ip)], plans)
  {
    var after := zone[id := zone[id].(content := ip)];
    forall i | 0 <= i < |plans| && plans[i].dnsManaged
      ensures AtMostOne(after, plans[i].domain)
    {
      assert AtMostOne(zone, plans[i].domain);
      assert forall other :: Serves(after, other, plans[i].domain) ==> Serves(zone, other, plans[i].domain);
    }
  }

  lemma PatchSettled(before: Zone, plans: seq<TunnelPlan>, k: nat, ip: string, ignoreCase: bool, id: string)
    requires Settled(before, plans, ip, ignoreCase)
    requires k < |plans| && plans[k].dnsManaged && Found(before, id, plans[k].domain, ignoreCase)
    ensures before[id := before[id].(content := ip)] == before
  {
    assert HeldAt(before, plans[k].domain, ip, ignoreCase);
    var held :| Found(before, held, plans[k].domain, ignoreCase) && before[held].content == ip;
    assert Serves(before, held, plans[k].domain) && Serves(before, id, plans[k].domain);
    assert AtMostOne(before, plans[k].domain);
  }

  // ---- creating a record for a domain that was not found

  lemma CreateStep(before: Zone, zone: Zone, plans: seq<TunnelPlan>, k: nat, ip: string, ignoreCase: bool, id: string)
    requires k < |plans| && Progress(before, zone, plans, k, ip, ignoreCase)
    requires CleanDomains(plans)
    requires plans[k].dnsManaged && id !in zone && NotFound(before, plans[k].domain, ignoreCase)
    ensures Progress(before, zone[id := NewARecord(plans[k].domain, ip)], plans, k + 1, ip, ignoreCase)
  {
    var after := zone[id := NewARecord(plans[k].domain, ip)];
    ChangedLonger(before, zone, plans, k, ip, ignoreCase);
    assert MadeFor(after[id], plans, k + 1, ip, before, ignoreCase);
    assert Changed(before, after, plans, k + 1, ip, ignoreCase);
    CreateHeld(zone, plans, k, ip, ignoreCase, id);
    if NoConflict(before, plans) && LookupIsSound(before, plans, ignoreCase) {
      CreateStaysUnique(before, zone, plans, k, ip, ignoreCase, id);
    }
    NotSettled(before, plans, k, ip, ignoreCase);
  }

  lemma NotSettled(zone: Zone, plans: seq<TunnelPlan>, k: nat, ip: string, ignoreCase: bool)
    requires k < |plans| && plans[k].dnsManaged && NotFound(zone, plans[k].domain, ignoreCase)
    ensures !Settled(zone, plans, ip, ignoreCase)
  {
    assert !HeldAt(zone, plans[k].domain, ip, ignoreCase);
  }

  lemma CreateHeld(zone: Zone, plans: seq<TunnelPlan>, k: nat, ip: string, ignoreCase: bool, id: string)
    requires k < |plans| && HeldUpTo(zone, plans, k, ip, ignoreCase)
    requires plans[k].dnsManaged && id !in zone
    ensures HeldUpTo(zone[id := NewARecord(plans[k].domain, ip)], plans, k + 1, ip, ignoreCase)
  {
    var after := zone[id := NewARecord(plans[k].domain, ip)];
    forall i | 0 <= i < k + 1 && plans[i].dnsManaged
      ensures HeldAt(after, plans[i].domain, ip, ignoreCase)
    {
      if i == k {
        assert Found(after, id, plans[k].domain, ignoreCase);
      } else {
        var held :| Found(zone, held, plans[i].domain, ignoreCase) && zone[held].content == ip;
        assert Found(after, held, plans[i].domain, ignoreCase);
      }
    }
  }

  lemma CreateStaysUnique(before: Zone, zone: Zone, plans: seq<TunnelPlan>, k: nat, ip: string, ignoreCase: bool, id: string)
    requires k < |plans| && Changed(before, zone, plans, k, ip, ignoreCase)
    requires CleanDomains(plans)
    requires plans[k].dnsManaged && id !in zone && NotFound(before, plans[k].domain, ignoreCase)
    requires NoConflict(zone, plans) && LookupIsSound(before, plans, ignoreCase)
    ensures NoConflict(zone[id := NewARecord(plans[k].domain, ip)], plans)
  {
    var after := zone[id := NewARecord(plans[k].domain, ip)];
    forall i | 0 <= i < |plans| && plans[i].dnsManaged
      ensures AtMostOne(after, plans[i].domain)
    {
      assert AtMostOne(zone, plans[i].domain);
      LowerIsLower(plans[i].domain);
      LowerIsLower(plans[k].domain);
      forall other | Serves(after, other, plans[i].domain)
        ensures if i == k then other == id else Serves(zone, other, plans[i].domain)
      {
        if i == k && other != id {
          NotServedYet(before, zone, plans, k, ip, ignoreCase, other);
        }
      }
    }
  }

  // A domain that was not found before is not served by a record made for another plan either.
  lemma NotServedYet(before: Zone, zone: Zone, plans: seq<TunnelPlan>, k: nat, ip: string, ignoreCase: bool, id: string)
    requires k < |plans| && Changed(before, zone, plans, k, ip, ignoreCase)
    requires CleanDomains(plans) && LookupIsSound(before, plans, ignoreCase)
    requires plans[k].dnsManaged && NotFound(before, plans[k].domain, ignoreCase)
    ensures !Serves(zone, id, plans[k].domain)
  {
    if id in before {
      assert Serves(zone, id, plans[k].domain) ==> Serves(before, id, plans[k].domain);
      assert !Found(before, id, plans[k].domain, ignoreCase);
    } else if id in zone {
      assert MadeFor(zone[id], plans, k, ip, before, ignoreCase);
      var j :| 0 <= j < k && plans[j].dnsManaged && zone[id] == NewARecord(plans[j].domain, ip);
      LowerIsLower(plans[j].domain);
      LowerIsLower(plans[k].domain);
    }
  }

  lemma ProgressIsFramed(before: Zone, zone: Zone, plans: seq<TunnelPlan>, k: nat, ip: string, ignoreCase: bool)
    requires k <= |plans| && Progress(before, zone, plans, k, ip, ignoreCase)
    ensures Framed(before, zone, plans, ip)
  {
    forall id | id in zone && id !in before
      ensures exists i :: 0 <= i < |plans| && plans[i].dnsManaged && zone[id] == NewARecord(plans[i].domain, ip)
    {
      assert MadeFor(zone[id], plans, k, ip, before, ignoreCase);
    }
  }

  lemma DnsWriteAllowed(w: Watch, plans: seq<TunnelPlan>, k: nat, ip: string)
    requires k < |plans| && plans[k].dnsManaged
    ensures DnsReady(w, plans, ip) ==>
              Step(w, DnsWritten(plans[k].domain, ip)) == w.(stage := w.stage.(published := Some(ip)))
  {
    assert Manages(plans, plans[k].domain);
  }

  lemma UpsertStep(before: Zone, zone: Zone, after: Zone, plans: seq<TunnelPlan>, k: nat, ip: string, ignoreCase: bool,
                   existing: Option<string>, id: string)
    requires k < |plans| && Progress(before, zone, plans, k, ip, ignoreCase) && CleanDomains(plans) && plans[k].dnsManaged
    requires match existing
             case Some(e) => e == id && Found(before, id, plans[k].domain, ignoreCase)
                             && id in zone && after == zone[id := zone[id].(content := ip)]
             case None => NotFound(before, plans[k].domain, ignoreCase)
                          && id !in zone && after == zone[id := NewARecord(plans[k].domain, ip)]
    ensures Progress(before, after, plans, k + 1, ip, ignoreCase)
  {
    if existing.Some? {
      PatchStep(before, zone, plans, k, ip, ignoreCase, id);
    } else {
      CreateStep(before, zone, plans, k, ip, ignoreCase, id);
    }
  }

  /** A stage with the exact lookup that leaves no duplicates found every existing record spelled
      like its domain. */
  lemma UniqueWasSpelledExactly(before: Zone, zone: Zone, plans: seq<TunnelPlan>, ip: string)
    requires Framed(before, zone, plans, ip) && AllAt(zone, plans, ip, false) && NoConflict(zone, plans)
    ensures LookupIsSound(before, plans, false)
  {
    forall i, id | 0 <= i < |plans| && plans[i].dnsManaged && Serves(before, id, plans[i].domain)
      ensures before[id].name == plans[i].domain
    {
      assert HeldAt(zone, plans[i].domain, ip, false);
      var held :| Found(zone, held, plans[i].domain, false) && zone[held].content == ip;
      assert Serves(zone, held, plans[i].domain) && Serves(zone, id, plans[i].domain);
      assert AtMostOne(zone, plans[i].domain);
    }
  }

  method Lookup(records: Zone, domain: string, ignoreCase: bool) returns (existing: Option<string>)
    ensures existing.Some? ==> Found(records, existing.value, domain, ignoreCase)
    ensures existing.None? ==> NotFound(records, domain, ignoreCase)
  {
    if id :| id in records && Found(records, id, domain, ignoreCase) {
      return Some(id);
    }
    return None;
  }

  // Record `id` is an A record found for the domain, at the address.
  ghost predicate Holds(zone: Zone, id: string, domain: string, ip: string, ignoreCase: bool) {
    Found(zone, id, domain, ignoreCase) && zone[id].content == ip
  }

  // Records at the address stay as they are.
  ghost predicate StillHeld(before: Zone, after: Zone, ip: string) {
    forall id :: id in before && before[id].content == ip ==> id in after && after[id] == before[id]
  }

  /** The ids stored for the managed ones of the first `k` plans are those of their records. */
  ghost predicate IdsStored(ids: map<int, string>, zone: Zone, plans: seq<TunnelPlan>, k: nat, ip: string, ignoreCase: bool)
    requires k <= |plans|
  {
    forall i :: 0 <= i < k && plans[i].dnsManaged ==>
      plans[i].id in ids && Holds(zone, ids[plans[i].id], plans[i].domain, ip, ignoreCase)
  }

  ghost predicate DistinctIds(plans: seq<TunnelPlan>) {
    forall i, j :: 0 <= i < j < |plans| ==> plans[i].id != plans[j].id
  }

  // The stage has visited the first `k` plans.
  ghost predicate Written(before: Zone, zone: Zone, ids: map<int, string>, plans: seq<TunnelPlan>, k: nat, ip: string, ignoreCase: bool)
    requires k <= |plans|
  {
    && Progress(before, zone, plans, k, ip, ignoreCase)
    && (DistinctIds(plans) ==> IdsStored(ids, zone, plans, k, ip, ignoreCase))
  }

  // One record was patched or made for plan `k`.
  ghost predicate Upserted(before: Zone, zone: Zone, after: Zone, plan: TunnelPlan, ip: string, ignoreCase: bool,
                           existing: Option<string>, id: string)
  {
    match existing
    case Some(x) => x == id && Found(before, id, plan.domain, ignoreCase) && id in zone && after == zone[id := zone[id].(content := ip)]
    case None => NotFound(before, plan.domain, ignoreCase) && id !in zone && after == zone[id := NewARecord(plan.domain, ip)]
  }

  lemma IdsStep(ids: map<int, string>, zone: Zone, after: Zone, plans: seq<TunnelPlan>, k: nat, ip: string, ignoreCase: bool, id: string)
    requires k < |plans| && DistinctIds(plans) && IdsStored(ids, zone, plans, k, ip, ignoreCase)
    requires Holds(after, id, plans[k].domain, ip, ignoreCase) && StillHeld(zone, after, ip)
    ensures IdsStored(ids[plans[k].id := id], after, plans, k + 1, ip, ignoreCase)
  {
  }

  lemma UpsertHolds(before: Zone, zone: Zone, after: Zone, plans: seq<TunnelPlan>, k: nat, ip: string, ignoreCase: bool,
                    existing: Option<string>, id: string)
    requires k < |plans| && Progress(before, zone, plans, k, ip, ignoreCase)
    requires Upserted(before, zone, after, plans[k], ip, ignoreCase, existing, id)
    ensures Holds(after, id, plans[k].domain, ip, ignoreCase) && StillHeld(zone, after, ip)
  {
    assert Lower("A") == "a";
  }

  lemma RecordWritten(before: Zone, zone: Zone, after: Zone, ids: map<int, string>, plans: seq<TunnelPlan>, k: nat, ip: string,
                      ignoreCase: bool, existing: Option<string>, id: string)
    requires CleanDomains(plans) && k < |plans| && plans[k].dnsManaged
    requires Written(before, zone, ids, plans, k, ip, ignoreCase)
    requires Upserted(before, zone, after, plans[k], ip, ignoreCase, existing, id)
    ensures Written(before, after, ids[plans[k].id := id], plans, k + 1, ip, ignoreCase)
  {
    UpsertStep(before, zone, after, plans, k, ip, ignoreCase, existing, id);
    UpsertHolds(before, zone, after, plans, k, ip, ignoreCase, existing, id);
    if DistinctIds(plans) {
      IdsStep(ids, zone, after, plans, k, ip, ignoreCase, id);
    }
  }

  lemma PlanSkipped(before: Zone, zone: Zone, ids: map<int, string>, plans: seq<TunnelPlan>, k: nat, ip: string, ignoreCase: bool)
    requires k < |plans| && !plans[k].dnsManaged
    requires Written(before, zone, ids, plans, k, ip, ignoreCase)
    ensures Written(before, zone, ids, plans, k + 1, ip, ignoreCase)
  {
    SkipStep(before, zone, plans, k, ip, ignoreCase);
  }

  // The lookup and write for plan `k`, whose domain is managed.
  method WriteRecord(db: Database, cf: CloudflareClient, plans: seq<TunnelPlan>, k: nat, ip: string, ignoreCase: bool,
                     records: Zone, ghost before: Zone)
    returns (ok: bool)
    requires cf.journal.Valid() && CleanDomains(plans)
    requires k < |plans| && plans[k].dnsManaged
    requires records == ARecords(before) && Written(before, cf.zone, db.recordIds, plans, k, ip, ignoreCase)
    modifies cf`zone, db`recordIds, cf.journal
    ensures cf.journal.Valid()
    ensures ok ==> Written(before, cf.zone, db.recordIds, plans, k + 1, ip, ignoreCase)
    ensures !ok ==> cf.zone == old(cf.zone)
    ensures cf.Answering() ==> ok
    ensures old(DnsReady(cf.journal.Now(), plans, ip)) ==> OnlyPublished(old(cf.journal.Now()), cf.journal.Now(), ip)
  {
    var plan := plans[k];
    ghost var zone, ids := cf.zone, db.recordIds;
    var existing, record := UpsertFor(cf, plans, k, ip, ignoreCase, records, before);
    if record.None? {
      return false;
    }
    RecordWritten(before, zone, cf.zone, ids, plans, k, ip, ignoreCase, existing, record.value);
    if plan.id !in db.recordIds || db.recordIds[plan.id] != record.value {
      db.SetCloudflareRecordId(plan.id, record.value);
    }
    assert db.recordIds == ids[plan.id := record.value];
    return true;
  }

  method UpsertFor(cf: CloudflareClient, plans: seq<TunnelPlan>, k: nat, ip: string, ignoreCase: bool, records: Zone, ghost before: Zone)
    returns (existing: Option<string>, record: Option<string>)
    requires cf.journal.Valid() && k < |plans| && plans[k].dnsManaged
    requires records == ARecords(before) && before.Keys <= cf.zone.Keys
    modifies cf`zone, cf.journal
    ensures cf.journal.Valid()
    ensures record.Some? ==> Upserted(before, old(cf.zone), cf.zone, plans[k], ip, ignoreCase, existing, record.value)
    ensures record.None? ==> cf.zone == old(cf.zone)
    ensures cf.Answering() ==> record.Some?
    ensures old(DnsReady(cf.journal.Now(), plans, ip)) ==> OnlyPublished(old(cf.journal.Now()), cf.journal.Now(), ip)
  {
    var domain := plans[k].domain;
    SameLookup(before, domain, ignoreCase);
    DnsWriteAllowed(cf.journal.Now(), plans, k, ip);
    existing := Lookup(records, domain, ignoreCase);
    assert existing.Some? ==> Found(before, existing.value, domain, ignoreCase);
    assert existing.None? ==> NotFound(before, domain, ignoreCase);
    record := cf.UpsertARecord(domain, ip, existing);
  }

  lemma ProgressIsConverging(before: Zone, zone: Zone, plans: seq<TunnelPlan>, ip: string, ignoreCase: bool, answering: bool)
    requires CleanDomains(plans) && NoConflict(before, plans)
    requires Progress(before, zone, plans, |plans|, ip, ignoreCase)
    ensures Converging(before, zone, plans, ip, ignoreCase, answering, true)
  {
    ProgressIsFramed(before, zone, plans, |plans|, ip, ignoreCase);
    if !ignoreCase && NoConflict(zone, plans) {
      UniqueWasSpelledExactly(before, zone, plans, ip);
    }
  }

  lemma StoppedInside(before: Zone, zone: Zone, plans: seq<TunnelPlan>, k: nat, ip: string, ignoreCase: bool)
    requires k <= |plans| && Progress(before, zone, plans, k, ip, ignoreCase)
    ensures Converging(before, zone, plans, ip, ignoreCase, false, false)
  {
    ProgressIsFramed(before, zone, plans, k, ip, ignoreCase);
  }

  lemma NothingWritten(zone: Zone, plans: seq<TunnelPlan>, ip: string, ignoreCase: bool, answering: bool)
    requires answering ==> !NoConflict(zone, plans)
    ensures Converging(zone, zone, plans, ip, ignoreCase, answering, false)
  {
  }

  /** What the stage does to the zone. A conflict is refused; a success leaves every managed domain at
      the address, and then no managed domain has two A records exactly if the lookup could find
      every existing one. */
  ghost predicate Converging(before: Zone, after: Zone, plans: seq<TunnelPlan>, ip: string, ignoreCase: bool, answering: bool, ok: bool) {
    && Framed(before, after, plans, ip)
    && (ok ==>
          && NoConflict(before, plans) && AllAt(after, plans, ip, ignoreCase)
          && (NoConflict(after, plans) <==> LookupIsSound(before, plans, ignoreCase)))
    && (NoConflict(before, plans) && LookupIsSound(before, plans, ignoreCase) ==> NoConflict(after, plans))
    && (NoConflict(before, plans) && AllAt(before, plans, ip, ignoreCase) ==> after == before)
    && (answering && NoConflict(before, plans) ==> ok)
  }

  /** Fetches the A records, refuses a conflict, then writes every managed domain in plan order.
      Whatever fails, only managed records change, and only to the one address. */
  method ConvergeRecords(db: Database, cf: CloudflareClient, plans: seq<TunnelPlan>, ip: string, ignoreCase: bool)
    returns (ok: bool)
    requires cf.journal.Valid() && CleanDomains(plans)
    modifies cf`zone, db`recordIds, cf.journal
    ensures cf.journal.Valid()
    ensures Converging(old(cf.zone), cf.zone, plans, ip, ignoreCase, cf.Answering(), ok)
    ensures ok && DistinctIds(plans) ==> IdsStored(db.recordIds, cf.zone, plans, |plans|, ip, ignoreCase)
    ensures old(DnsReady(cf.journal.Now(), plans, ip)) ==> OnlyPublished(old(cf.journal.Now()), cf.journal.Now(), ip)
  {
    ghost var before := cf.zone;
    ghost var w := cf.journal.Now();
    var records := cf.ListARecords();
    if records.None? {
      NothingWritten(before, plans, ip, ignoreCase, cf.Answering());
      return false;
    }
    SameConflicts(cf.zone, plans);
    var conflicts := EnsureUniqueManagedARecords(plans, records.value);
    if conflicts != [] {
      NothingWritten(before, plans, ip, ignoreCase, cf.Answering());
      return false;
    }
    var byName := records.value;
    for k := 0 to |plans|
      invariant cf.journal.Valid()
      invariant Written(before, cf.zone, db.recordIds, plans, k, ip, ignoreCase)
      invariant DnsReady(w, plans, ip) ==> OnlyPublished(w, cf.journal.Now(), ip)
    {
      if plans[k].dnsManaged {
        var written := WriteRecord(db, cf, plans, k, ip, ignoreCase, byName, before);
        if !written {
          StoppedInside(before, cf.zone, plans, k, ip, ignoreCase);
          return false;
        }
      } else {
        PlanSkipped(before, cf.zone, db.recordIds, plans, k, ip, ignoreCase);
      }
    }
    ProgressIsConverging(before, cf.zone, plans, ip, ignoreCase, cf.Answering());
    return true;
  }
}

/** The Cloudflare zone: patch-or-create of A records, the uniqueness preflight and the DNS stage
    that ends a failover and a reconcile. */
module Cloudflare {
  import opened Basics
  import opened Domain
  import opened Journals

  datatype DnsRecord = DnsRecord(
    name: string,
    recordType: string,
    content: string,
    proxied: bool,
    ttl: int,
    priority: Option<int>,
    comment: Option<string>)

  type Zone = map<string, DnsRecord>     // by record id

  predicate IsA(r: DnsRecord) {
    EqIgnoreCase(r.recordType, "A")
  }

  lemma IsAExactly(r: DnsRecord)
    ensures IsA(r) <==> r.recordType == "A" || r.recordType == "a"
  {
    assert Lower("A") == "a" && Lower("a") == "a";
    if IsA(r) {
      assert |r.recordType| == |Lower(r.recordType)|;
      assert Lower(r.recordType)[0] == LowerChar(r.recordType[0]);
      assert r.recordType == [r.recordType[0]];
    }
  }

  function ARecords(zone: Zone): Zone {
    map id | id in zone && IsA(zone[id]) :: zone[id]
  }

  // Record `id` is an A record of this domain, in any spelling.
  predicate Serves(zone: Zone, id: string, domain: string) {
    id in zone && IsA(zone[id]) && EqIgnoreCase(zone[id].name, domain)
  }

  /** Conflicts are counted, and reconcile looks records up, ignoring letter case in name and type; a
      failover looks for the exact name. */
  lemma LookupsExactly(zone: Zone, id: string, domain: string)
    ensures Serves(zone, id, domain) <==> Found(zone, id, domain, true)
    ensures Found(zone, id, domain, true) <==>
            && id in zone && (zone[id].recordType == "A" || zone[id].recordType == "a")
            && |zone[id].name| == |domain| && forall i :: 0 <= i < |domain| ==> SameLetter(zone[id].name[i], domain[i])
    ensures Found(zone, id, domain, false) <==>
            id in zone && (zone[id].recordType == "A" || zone[id].recordType == "a") && zone[id].name == domain
  {
    if id in zone {
      IsAExactly(zone[id]);
      EqualUpToCase(zone[id].name, domain);
    }
  }

  ghost predicate AtMostOne(zone: Zone, domain: string) {
    forall x, y :: Serves(zone, x, domain) && Serves(zone, y, domain) ==> x == y
  }

  // Exactly one A record for the domain, holding this address.
  ghost predicate ServedAt(zone: Zone, domain: string, ip: string) {
    AtMostOne(zone, domain) && exists id :: Serves(zone, id, domain) && zone[id].content == ip
  }

  ghost predicate NoConflict(zone: Zone, plans: seq<TunnelPlan>) {
    forall i :: 0 <= i < |plans| && plans[i].dnsManaged ==> AtMostOne(zone, plans[i].domain)
  }

  function NewARecord(domain: string, ip: string): DnsRecord {
    DnsRecord(domain, "A", ip, false, 1, None, Some("Managed by Ashan FRP Control Center"))
  }

  /** The two stages look a domain up differently: reconcile ignores letter case, failover does
      not. */
  predicate Found(zone: Zone, id: string, domain: string, ignoreCase: bool) {
    id in zone && IsA(zone[id]) && if ignoreCase then EqIgnoreCase(zone[id].name, domain) else zone[id].name == domain
  }

  ghost predicate SpelledExactly(zone: Zone, domain: string) {
    forall id :: Serves(zone, id, domain) ==> zone[id].name == domain
  }

  /** Without a conflict, writing a domain through the exact lookup keeps its A record unique
      exactly when an existing record is spelled like the domain. */
  lemma ExactLookupKeepsUniqueness(zone: Zone, domain: string, ip: string, newId: string)
    requires AtMostOne(zone, domain) && newId !in zone
    requires forall id :: !Found(zone, id, domain, false)
    ensures AtMostOne(zone[newId := NewARecord(domain, ip)], domain) <==> SpelledExactly(zone, domain)
  {
    var after := zone[newId := NewARecord(domain, ip)];
    assert Serves(after, newId, domain);
    forall id | Serves(zone, id, domain)
      ensures !AtMostOne(after, domain)
    {
      assert Serves(after, id, domain);
    }
    if forall id :: !Serves(zone, id, domain) {
      assert forall id :: Serves(after, id, domain) ==> id == newId || Serves(zone, id, domain);
    }
    assert forall id :: Serves(zone, id, domain) && zone[id].name == domain ==> Found(zone, id, domain, false);
  }

  /** The failover stage would duplicate a record that an operator spelled in capitals. */
  lemma CapitalsAreDuplicated()
    ensures var zone: Zone := map["r1" := NewARecord("App.example.com", "192.0.2.1")];
            && AtMostOne(zone, "app.example.com")
            && (forall id :: !Found(zone, id, "app.example.com", false))
            && !AtMostOne(zone["r2" := NewARecord("app.example.com", "192.0.2.2")], "app.example.com")
  {
    var zone: Zone := map["r1" := NewARecord("App.example.com", "192.0.2.1")];
    assert Lower("App.example.com") == "app.example.com" == Lower("app.example.com");
    assert "App.example.com"[0] != "app.example.com"[0];
    assert Serves(zone, "r1", "app.example.com");
    ExactLookupKeepsUniqueness(zone, "app.example.com", "192.0.2.2", "r2");
  }

  // ---------------------------------------------------------------- the frame of a DNS stage

  /** From `before` to `after` no record disappears; only managed A records change, and only in
      their content, which becomes `ip`; new records are A records of managed domains at `ip`. */
  ghost predicate Framed(before: Zone, after: Zone, plans: seq<TunnelPlan>, ip: string) {
    && before.Keys <= after.Keys
    && (forall id :: id in before ==>
          || after[id] == before[id]
          || (IsManaged(before, id, plans) && after[id] == before[id].(content := ip)))
    && (forall id :: id in after && id !in before ==>
          exists i :: 0 <= i < |plans| && plans[i].dnsManaged && after[id] == NewARecord(plans[i].domain, ip))
  }

  ghost predicate IsManaged(zone: Zone, id: string, plans: seq<TunnelPlan>) {
    exists i :: 0 <= i < |plans| && plans[i].dnsManaged && Serves(zone, id, plans[i].domain)
  }

  // Every managed domain already has its record at `ip`.
  ghost predicate AllAt(zone: Zone, plans: seq<TunnelPlan>, ip: string, ignoreCase: bool) {
    forall i :: 0 <= i < |plans| && plans[i].dnsManaged ==> HeldAt(zone, plans[i].domain, ip, ignoreCase)
  }

  ghost predicate HeldAt(zone: Zone, domain: string, ip: string, ignoreCase: bool) {
    exists id :: Found(zone, id, domain, ignoreCase) && zone[id].content == ip
  }

  // ---------------------------------------------------------------- the client

  class CloudflareClient {
    const journal: Journal
    const configured: bool
    var reachable: bool          // while reachable, no call fails
    var zone: Zone

    constructor (journal: Journal, configured: bool)
      ensures this.journal == journal
    {
      this.journal, this.configured := journal, configured;
      reachable, zone := false, map[];
    }

    ghost predicate Answering()
      reads `reachable
    {
      configured && reachable
    }

    method ListARecords() returns (r: Option<Zone>)
      ensures r.Some? ==> configured && r.value == ARecords(zone)
      ensures r.Some? ==> forall id :: id in r.value <==> id in zone && (zone[id].recordType == "A" || zone[id].recordType == "a")
      ensures Answering() ==> r.Some?
    {
      var fails: bool := *;
      if !configured || (fails && !reachable) {
        return None;
      }
      forall id | id in zone
        ensures IsA(zone[id]) <==> zone[id].recordType == "A" || zone[id].recordType == "a"
      {
        IsAExactly(zone[id]);
      }
      return Some(ARecords(zone));
    }

    /** Patches the content of the existing record, or creates one; a failed call changes nothing. */
    method UpsertARecord(name: string, ip: string, existing: Option<string>) returns (r: Option<string>)
      requires journal.Valid()
      modifies `zone, journal
      ensures journal.Valid()
      ensures r.None? ==> zone == old(zone) && journal.Now() == old(journal.Now())
      ensures r.Some? && existing.Some? ==>
                r == existing && r.value in old(zone) && zone == old(zone)[r.value := old(zone)[r.value].(content := ip)]
      ensures r.Some? && existing.None? ==> r.value !in old(zone) && zone == old(zone)[r.value := NewARecord(name, ip)]
      ensures r.Some? && existing.None? ==>
                zone[r.value] == DnsRecord(name, "A", ip, false, 1, None, Some("Managed by Ashan FRP Control Center"))
      ensures r.Some? ==> journal.Now() == Step(old(journal.Now()), DnsWritten(name, ip))
      ensures Answering() && (existing.Some? ==> existing.value in old(zone)) ==> r.Some?
    {
      var fails: bool := *;
      if !configured || (fails && !reachable) {
        return None;
      }
      if existing.Some? {
        if existing.value !in zone {
          return None;
        }
        r := existing;
        zone := zone[r.value := zone[r.value].(content := ip)];
      } else {
        assert FreeId(zone.Keys) !in zone;
        var id :| id !in zone;
        r := Some(id);
        zone := zone[id := NewARecord(name, ip)];
      }
      journal.Record(DnsWritten(name, ip));
    }
  }

  // Some id is always free: one longer than every id in use.
  ghost function FreeId(ids: set<string>): (id: string)
    ensures id !in ids
  {
    seq(LongestOf(ids) + 1, i => 'r')
  }

  ghost function LongestOf(ids: set<string>): (n: nat)
    ensures forall id :: id in ids ==> |id| <= n
  {
    if ids == {} then 0
    else
      var one :| one in ids;
      var others := LongestOf(ids - {one});
      if |one| > others then |one| else others
  }
}

/** Candidate ordering for a global failover. */
module FailoverPolicy {
  import opened Basics
  import opened Domain

  predicate Eligible(node: NodeSummary, active: string, requireWeb: bool) {
    && node.name != active
    && (requireWeb ==> node.webSupported)
    && IsOnline(node.state)
    && !node.quarantined
  }

  // Position of the first eligible node with this name, or |nodes|.
  function FirstEligible(nodes: seq<NodeSummary>, name: string, active: string, requireWeb: bool): (i: nat)
    ensures i <= |nodes|
    ensures i < |nodes| ==> nodes[i].name == name && Eligible(nodes[i], active, requireWeb)
    ensures forall j :: 0 <= j < i ==> !(nodes[j].name == name && Eligible(nodes[j], active, requireWeb))
  {
    if nodes == [] then 0
    else if nodes[0].name == name && Eligible(nodes[0], active, requireWeb) then 0
    else
      var rest := nodes[1..];
      var i := FirstEligible(rest, name, active, requireWeb);
      assert forall j :: 1 <= j < i + 1 ==> nodes[j] == rest[j - 1];
      i + 1
  }

  // The preferred standby outranks every node; the others keep the order of the list.
  function Rank(nodes: seq<NodeSummary>, name: string, active: string, preferred: Option<string>, requireWeb: bool): int {
    if preferred == Some(name) then -1 else FirstEligible(nodes, name, active, requireWeb)
  }

  /** One node for each eligible name, in strictly increasing rank. */
  ghost predicate IsCandidateList(
    out: seq<NodeSummary>, active: string, preferred: Option<string>, nodes: seq<NodeSummary>, requireWeb: bool)
  {
    && (forall k :: 0 <= k < |out| ==>
          var i := FirstEligible(nodes, out[k].name, active, requireWeb);
          i < |nodes| && out[k] == nodes[i])
    && (forall a, b :: 0 <= a < b < |out| ==>
          Rank(nodes, out[a].name, active, preferred, requireWeb) < Rank(nodes, out[b].name, active, preferred, requireWeb))
    && (forall i :: 0 <= i < |nodes| && Eligible(nodes[i], active, requireWeb) ==> HasName(out, nodes[i].name))
  }

  predicate HasName(nodes: seq<NodeSummary>, name: string) {
    exists k :: 0 <= k < |nodes| && nodes[k].name == name
  }

  // The list after the first `n` nodes have been visited.
  ghost predicate Visited(
    out: seq<NodeSummary>, n: nat, active: string, preferred: Option<string>, nodes: seq<NodeSummary>, requireWeb: bool)
  {
    && (forall k :: 0 <= k < |out| ==>
          var i := FirstEligible(nodes, out[k].name, active, requireWeb);
          i < |nodes| && out[k] == nodes[i] && (i < n || preferred == Some(out[k].name)))
    && (forall a, b :: 0 <= a < b < |out| ==>
          Rank(nodes, out[a].name, active, preferred, requireWeb) < Rank(nodes, out[b].name, active, preferred, requireWeb))
    && (forall i :: 0 <= i < |nodes| && Eligible(nodes[i], active, requireWeb) && (i < n || preferred == Some(nodes[i].name))
          ==> HasName(out, nodes[i].name))
  }

  lemma VisitKnown(
    out: seq<NodeSummary>, n: nat, active: string, preferred: Option<string>, nodes: seq<NodeSummary>, requireWeb: bool)
    requires n < |nodes| && Visited(out, n, active, preferred, nodes, requireWeb)
    requires Eligible(nodes[n], active, requireWeb) ==> HasName(out, nodes[n].name)
    ensures Visited(out, n + 1, active, preferred, nodes, requireWeb)
  {
  }

  // A node whose name is not listed yet is the first eligible one of that name.
  lemma NewNameIsFirst(
    out: seq<NodeSummary>, n: nat, active: string, preferred: Option<string>, nodes: seq<NodeSummary>, requireWeb: bool)
    requires n < |nodes| && Visited(out, n, active, preferred, nodes, requireWeb)
    requires Eligible(nodes[n], active, requireWeb) && !HasName(out, nodes[n].name)
    ensures FirstEligible(nodes, nodes[n].name, active, requireWeb) == n
    ensures preferred != Some(nodes[n].name)
  {
    var first := FirstEligible(nodes, nodes[n].name, active, requireWeb);
    assert first <= n;
  }

  lemma VisitNew(
    out: seq<NodeSummary>, n: nat, active: string, preferred: Option<string>, nodes: seq<NodeSummary>, requireWeb: bool)
    requires n < |nodes| && Visited(out, n, active, preferred, nodes, requireWeb)
    requires Eligible(nodes[n], active, requireWeb) && !HasName(out, nodes[n].name)
    ensures Visited(out + [nodes[n]], n + 1, active, preferred, nodes, requireWeb)
  {
    NewNameIsFirst(out, n, active, preferred, nodes, requireWeb);
    var longer := out + [nodes[n]];
    forall k | 0 <= k < |longer|
      ensures var i := FirstEligible(nodes, longer[k].name, active, requireWeb);
              i < |nodes| && longer[k] == nodes[i] && (i < n + 1 || preferred == Some(longer[k].name))
    {
      if k < |out| {
        assert longer[k] == out[k];
      }
    }
    VisitOrdered(out, longer, n, active, preferred, nodes, requireWeb);
    VisitCovers(out, longer, n, active, preferred, nodes, requireWeb);
  }

  lemma VisitOrdered(
    out: seq<NodeSummary>, longer: seq<NodeSummary>, n: nat,
    active: string, preferred: Option<string>, nodes: seq<NodeSummary>, requireWeb: bool)
    requires n < |nodes| && Visited(out, n, active, preferred, nodes, requireWeb)
    requires longer == out + [nodes[n]]
    requires FirstEligible(nodes, nodes[n].name, active, requireWeb) == n && preferred != Some(nodes[n].name)
    ensures forall a, b :: 0 <= a < b < |longer| ==>
              Rank(nodes, longer[a].name, active, preferred, requireWeb) < Rank(nodes, longer[b].name, active, preferred, requireWeb)
  {
    forall a, b | 0 <= a < b < |longer|
      ensures Rank(nodes, longer[a].name, active, preferred, requireWeb) < Rank(nodes, longer[b].name, active, preferred, requireWeb)
    {
      assert longer[a] == out[a];
      if b < |out| {
        assert longer[b] == out[b];
      }
    }
  }

  lemma VisitCovers(
    out: seq<NodeSummary>, longer: seq<NodeSummary>, n: nat,
    active: string, preferred: Option<string>, nodes: seq<NodeSummary>, requireWeb: bool)
    requires n < |nodes| && Visited(out, n, active, preferred, nodes, requireWeb)
    requires longer == out + [nodes[n]]
    ensures forall i :: 0 <= i < |nodes| && Eligible(nodes[i], active, requireWeb) && (i < n + 1 || preferred == Some(nodes[i].name))
              ==> HasName(longer, nodes[i].name)
  {
    forall i | 0 <= i < |nodes| && Eligible(nodes[i], active, requireWeb) && (i < n + 1 || preferred == Some(nodes[i].name))
      ensures HasName(longer, nodes[i].name)
    {
      if i == n {
        assert longer[|out|].name == nodes[n].name;
      } else {
        var k :| 0 <= k < |out| && out[k].name == nodes[i].name;
        assert longer[k].name == nodes[i].name;
      }
    }
  }

  method OrderedCandidates(active: string, preferred: Option<string>, nodes: seq<NodeSummary>, requireWeb: bool)
    returns (out: seq<NodeSummary>)
    ensures IsCandidateList(out, active, preferred, nodes, requireWeb)
  {
    out := [];
    if preferred.Some? {
      var i := FirstEligible(nodes, preferred.value, active, requireWeb);
      if i < |nodes| {
        out := out + [nodes[i]];
        assert out[0].name == preferred.value;
      }
    }
    for n := 0 to |nodes|
      invariant Visited(out, n, active, preferred, nodes, requireWeb)
    {
      if Eligible(nodes[n], active, requireWeb) && !HasName(out, nodes[n].name) {
        VisitNew(out, n, active, preferred, nodes, requireWeb);
        out := out + [nodes[n]];
      } else {
        VisitKnown(out, n, active, preferred, nodes, requireWeb);
      }
    }
  }

  /** The list has each eligible name once and never the active node; an eligible preferred
      standby comes first, and all others keep the order in which they were listed. */
  lemma CandidateProperties(
    out: seq<NodeSummary>, active: string, preferred: Option<string>, nodes: seq<NodeSummary>, requireWeb: bool)
    requires IsCandidateList(out, active, preferred, nodes, requireWeb)
    ensures forall k :: 0 <= k < |out| ==> out[k] in nodes && Eligible(out[k], active, requireWeb) && out[k].name != active
    ensures forall a, b :: 0 <= a < b < |out| ==> out[a].name != out[b].name
    ensures forall i :: 0 <= i < |nodes| && Eligible(nodes[i], active, requireWeb) ==> HasName(out, nodes[i].name)
    ensures preferred.Some? && (exists i :: 0 <= i < |nodes| && nodes[i].name == preferred.value && Eligible(nodes[i], active, requireWeb))
            ==> |out| > 0 && out[0].name == preferred.value
    ensures forall a, b :: 0 <= a < b < |out| && Some(out[a].name) != preferred ==>
              FirstEligible(nodes, out[a].name, active, requireWeb) < FirstEligible(nodes, out[b].name, active, requireWeb)
  {
    if preferred.Some? {
      forall i | 0 <= i < |nodes| && nodes[i].name == preferred.value && Eligible(nodes[i], active, requireWeb)
        ensures |out| > 0 && out[0].name == preferred.value
      {
        assert HasName(out, nodes[i].name);
        var k :| 0 <= k < |out| && out[k].name == preferred.value;
        if k > 0 {
          assert Rank(nodes, out[0].name, active, preferred, requireWeb) < -1;
        }
      }
    }
  }

  /** `choose_target`: the preferred standby if it is eligible, else the first eligible node; nothing
      exactly when no node is eligible. */
  method ChooseTarget(active: string, preferred: Option<string>, nodes: seq<NodeSummary>, requireWeb: bool)
    returns (target: Option<NodeSummary>)
    ensures target.None? <==> forall i :: 0 <= i < |nodes| ==> !Eligible(nodes[i], active, requireWeb)
    ensures target.Some? ==> target.value in nodes && Eligible(target.value, active, requireWeb)
    ensures forall i :: 0 <= i < |nodes| && preferred == Some(nodes[i].name) && Eligible(nodes[i], active, requireWeb) ==>
              target.value.name == nodes[i].name
    ensures target.Some? && preferred != Some(target.value.name) ==>
              forall j :: 0 <= j < FirstEligible(nodes, target.value.name, active, requireWeb) ==> !Eligible(nodes[j], active, requireWeb)
  {
    var out := OrderedCandidates(active, preferred, nodes, requireWeb);
    CandidateProperties(out, active, preferred, nodes, requireWeb);
    if out == [] {
      return None;
    }
    target := Some(out[0]);
    if preferred != Some(out[0].name) {
      forall j | 0 <= j < |nodes| && Eligible(nodes[j], active, requireWeb)
        ensures FirstEligible(nodes, out[0].name, active, requireWeb) <= j
      {
        var k :| 0 <= k < |out| && out[k].name == nodes[j].name;
      }
    }
  }

  /** The description determines the list. */
  lemma CandidateListUnique(
    x: seq<NodeSummary>, y: seq<NodeSummary>,
    active: string, preferred: Option<string>, nodes: seq<NodeSummary>, requireWeb: bool)
    requires IsCandidateList(x, active, preferred, nodes, requireWeb)
    requires IsCandidateList(y, active, preferred, nodes, requireWeb)
    ensures x == y
  {
    CandidatePrefix(x, y, |x|, active, preferred, nodes, requireWeb);
    CandidatePrefix(y, x, |y|, active, preferred, nodes, requireWeb);
  }

  lemma {:induction false} CandidatePrefix(
    x: seq<NodeSummary>, y: seq<NodeSummary>, k: nat,
    active: string, preferred: Option<string>, nodes: seq<NodeSummary>, requireWeb: bool)
    requires IsCandidateList(x, active, preferred, nodes, requireWeb)
    requires IsCandidateList(y, active, preferred, nodes, requireWeb)
    requires k <= |x|
    ensures k <= |y| && x[..k] == y[..k]
  {
    if k > 0 {
      CandidatePrefix(x, y, k - 1, active, preferred, nodes, requireWeb);
      SameNext(x, y, k - 1, active, preferred, nodes, requireWeb);
      assert x[..k] == x[..k - 1] + [x[k - 1]];
      assert y[..k] == y[..k - 1] + [y[k - 1]];
    }
  }

  // Lists that agree up to `k` agree at `k`.
  lemma SameNext(
    x: seq<NodeSummary>, y: seq<NodeSummary>, k: nat,
    active: string, preferred: Option<string>, nodes: seq<NodeSummary>, requireWeb: bool)
    requires IsCandidateList(x, active, preferred, nodes, requireWeb)
    requires IsCandidateList(y, active, preferred, nodes, requireWeb)
    requires k < |x| && k <= |y| && x[..k] == y[..k]
    ensures k < |y| && x[k] == y[k]
  {
    var m := Locate(x, y, k, active, preferred, nodes, requireWeb);
    var n := Locate(y, x, k, active, preferred, nodes, requireWeb);
    var here := Rank(nodes, x[k].name, active, preferred, requireWeb);
    var there := Rank(nodes, y[k].name, active, preferred, requireWeb);
    assert here <= Rank(nodes, x[n].name, active, preferred, requireWeb) == there;
    assert there <= Rank(nodes, y[m].name, active, preferred, requireWeb) == here;
  }

  // The element at `k` of one list occurs in the other, not before `k` when the prefixes agree.
  lemma Locate(
    x: seq<NodeSummary>, y: seq<NodeSummary>, k: nat,
    active: string, preferred: Option<string>, nodes: seq<NodeSummary>, requireWeb: bool)
    returns (m: nat)
    requires IsCandidateList(x, active, preferred, nodes, requireWeb)
    requires IsCandidateList(y, active, preferred, nodes, requireWeb)
    requires k < |x| && k <= |y| && x[..k] == y[..k]
    ensures k <= m < |y| && y[m].name == x[k].name && y[m] == x[k]
  {
    var i := FirstEligible(nodes, x[k].name, active, requireWeb);
    assert HasName(y, nodes[i].name);
    m :| 0 <= m < |y| && y[m].name == x[k].name;
    assert forall h :: 0 <= h < k ==> x[h] == x[..k][h] && y[h] == y[..k][h];
  }
}

/**
 The workspace dependency graph: the depth-first cycle detector and exclusive capability
 ownership (tools/architecture_spike.py:213-247, 430-466).
 */
module Architecture {
  import opened Wrappers
  import opened Ordering

  // ----- graphs ------------------------------------------------------------------------

  type Graph = map<string, set<string>>

  /** Every dependency is itself a member. */
  ghost predicate Closed(graph: Graph) {
    forall n | n in graph :: graph[n] <= graph.Keys
  }

  predicate Edge(graph: Graph, a: string, b: string) {
    a in graph && b in graph[a]
  }

  predicate Walk(graph: Graph, w: seq<string>) {
    forall i | 0 <= i < |w| - 1 :: Edge(graph, w[i], w[i + 1])
  }

  predicate ClosedWalk(graph: Graph, w: seq<string>) {
    |w| >= 2 && w[0] == w[|w| - 1] && Walk(graph, w)
  }

  /** A closed walk that meets no node twice but its first, at its end. */
  predicate Cycle(graph: Graph, w: seq<string>) {
    ClosedWalk(graph, w) && Distinct(w[..|w| - 1])
  }

  ghost predicate Acyclic(graph: Graph) {
    forall w :: !ClosedWalk(graph, w)
  }

  /** No node stands twice, and every node's dependencies stand before it. */
  ghost predicate Topological(graph: Graph, order: seq<string>) {
    order == []
    || (var front, last := order[..|order| - 1], order[|order| - 1];
        && Topological(graph, front)
        && last in graph && last !in front && graph[last] <= TextSet(front))
  }

  ghost predicate AllCycles(graph: Graph, findings: seq<seq<string>>) {
    findings == []
    || (AllCycles(graph, findings[..|findings| - 1]) && Cycle(graph, findings[|findings| - 1]))
  }

  function IndexOf(s: seq<string>, x: string): (i: nat)
    requires x in s
    ensures i < |s| && s[i] == x && x !in s[..i]
  {
    if s[0] == x then 0 else 1 + IndexOf(s[1..], x)
  }

  lemma {:induction false} TopologicalAt(graph: Graph, order: seq<string>, i: nat)
    requires Topological(graph, order) && i < |order|
    ensures order[i] in graph && graph[order[i]] <= TextSet(order[..i])
  {
    var front := order[..|order| - 1];
    if i < |front| {
      TopologicalAt(graph, front, i);
      assert front[..i] == order[..i];
    } else {
      assert front == order[..i];
    }
  }

  lemma {:induction false} TopologicalIsDistinct(graph: Graph, order: seq<string>, i: nat, j: nat)
    requires Topological(graph, order) && i < j < |order|
    ensures order[i] != order[j]
  {
    if j < |order| - 1 {
      TopologicalIsDistinct(graph, order[..|order| - 1], i, j);
    }
  }

  /** Along a walk in an ordered graph, places in the order only go down. */
  lemma {:induction false} WalkDescends(graph: Graph, order: seq<string>, w: seq<string>, i: nat)
    requires Topological(graph, order) && Walk(graph, w)
    requires |w| >= 2 && i < |order| && order[i] == w[0]
    ensures w[|w| - 1] in order[..i]
  {
    assert Edge(graph, w[0], w[1]);
    TopologicalAt(graph, order, i);
    assert w[1] in TextSet(order[..i]);
    var j :| 0 <= j < i && order[j] == w[1];
    if |w| > 2 {
      forall k | 0 <= k < |w[1..]| - 1 ensures Edge(graph, w[1..][k], w[1..][k + 1]) {
        assert Edge(graph, w[k + 1], w[k + 1 + 1]);
      }
      WalkDescends(graph, order, w[1..], j);
    }
  }

  lemma OrderedIsAcyclic(graph: Graph, order: seq<string>)
    requires Topological(graph, order) && forall n | n in graph :: n in order
    ensures Acyclic(graph)
  {
    forall w ensures !ClosedWalk(graph, w) {
      if ClosedWalk(graph, w) {
        assert Edge(graph, w[0], w[1]);
        var i :| 0 <= i < |order| && order[i] == w[0];
        WalkDescends(graph, order, w, i);
        var j :| 0 <= j < i && order[j] == w[|w| - 1];
        TopologicalIsDistinct(graph, order, j, i);
      }
    }
  }

  lemma {:induction false} AllCyclesAt(graph: Graph, findings: seq<seq<string>>, i: nat)
    requires AllCycles(graph, findings) && i < |findings|
    ensures Cycle(graph, findings[i])
  {
    if i < |findings| - 1 {
      AllCyclesAt(graph, findings[..|findings| - 1], i);
    }
  }

  lemma WalkExtends(graph: Graph, w: seq<string>, next: string)
    requires Walk(graph, w) && (w == [] || Edge(graph, w[|w| - 1], next))
    ensures Walk(graph, w + [next])
  {
  }

  /** A trail that comes back to one of its nodes closes a cycle. */
  lemma TrailCloses(graph: Graph, trail: seq<string>, node: string)
    requires Walk(graph, trail + [node]) && Distinct(trail) && node in trail
    ensures Cycle(graph, trail[IndexOf(trail, node)..] + [node])
  {
    var i := IndexOf(trail, node);
    var w := trail[i..] + [node];
    forall k | 0 <= k < |w| - 1 ensures Edge(graph, w[k], w[k + 1]) {
      assert w[k] == (trail + [node])[i + k] && w[k + 1] == (trail + [node])[i + k + 1];
    }
    assert w[..|w| - 1] == trail[i..];
  }

  // ----- the detector ------------------------------------------------------------------

  lemma EndsInOrder(graph: Graph, ended: seq<string>, node: string, targets: seq<string>, clean: bool)
    requires node in graph && node !in ended && targets == Sorted(graph[node])
    requires clean ==> Topological(graph, ended) && forall k | 0 <= k < |targets| :: targets[k] in TextSet(ended)
    ensures TextSet(ended + [node]) == TextSet(ended) + {node}
    ensures clean ==> Topological(graph, ended + [node])
  {
    assert (ended + [node])[..|ended|] == ended;
    if clean {
      forall t | t in graph[node] ensures t in TextSet(ended) {
        assert t in targets;
      }
    }
  }

  lemma TrailExtends(trail: seq<string>, node: string)
    requires Distinct(trail) && node !in TextSet(trail)
    ensures Distinct(trail + [node]) && TextSet(trail + [node]) == TextSet(trail) + {node}
  {
    assert node !in trail;
  }

  lemma CycleIsElementary(graph: Graph, w: seq<string>)
    requires Cycle(graph, w)
    ensures |w| >= 2 && w[0] == w[|w| - 1]
    ensures forall j | 0 <= j < |w| - 1 :: w[j] in graph && w[j + 1] in graph[w[j]]
    ensures forall j, k | 0 <= j < k < |w| - 1 :: w[j] != w[k]
  {
    forall j | 0 <= j < |w| - 1 ensures w[j] in graph && w[j + 1] in graph[w[j]] {
      assert Edge(graph, w[j], w[j + 1]);
    }
    var front := w[..|w| - 1];
    forall j, k | 0 <= j < k < |w| - 1 ensures w[j] != w[k] {
      assert front[j] != front[k];
    }
  }

  lemma FindingsAreCycles(graph: Graph, findings: seq<seq<string>>)
    requires AllCycles(graph, findings)
    ensures forall i | 0 <= i < |findings| :: Cycle(graph, findings[i])
    ensures forall i | 0 <= i < |findings| ::
              var w := findings[i];
              && |w| >= 2 && w[0] == w[|w| - 1]
              && (forall j | 0 <= j < |w| - 1 :: w[j] in graph && w[j + 1] in graph[w[j]])
              && (forall j, k | 0 <= j < k < |w| - 1 :: w[j] != w[k])
  {
    hide AllCycles, Cycle;
    forall i | 0 <= i < |findings|
      ensures Cycle(graph, findings[i])
      ensures var w := findings[i];
              && |w| >= 2 && w[0] == w[|w| - 1]
              && (forall j | 0 <= j < |w| - 1 :: w[j] in graph && w[j + 1] in graph[w[j]])
              && (forall j, k | 0 <= j < k < |w| - 1 :: w[j] != w[k])
    {
      AllCyclesAt(graph, findings, i);
      CycleIsElementary(graph, findings[i]);
    }
  }

  lemma FindingsDecide(graph: Graph, findings: seq<seq<string>>, ended: seq<string>)
    requires AllCycles(graph, findings) && TextSet(ended) == graph.Keys
    requires findings == [] ==> Topological(graph, ended)
    ensures findings == [] <==> Acyclic(graph)
  {
    hide Topological, AllCycles, Walk, Distinct;
    if findings == [] {
      assert forall n | n in graph :: n in TextSet(ended);
      OrderedIsAcyclic(graph, ended);
    } else {
      AllCyclesAt(graph, findings, 0);
      assert ClosedWalk(graph, findings[0]);
    }
  }

  /** Findings are only ever added. */
  ghost predicate Kept(before: seq<seq<string>>, after: seq<seq<string>>) {
    before <= after
  }

  lemma KeptOnward(a: seq<seq<string>>, b: seq<seq<string>>, c: seq<seq<string>>)
    requires Kept(a, b) && Kept(b, c)
    ensures Kept(a, c)
    ensures c == [] ==> b == []
  {
  }

  /** The mutable state that `_check_cycles` closes over. */
  class CycleDetector {
    const graph: Graph
    var visiting: set<string>
    var complete: set<string>
    var findings: seq<seq<string>>
    /** Every expansion so far, and the nodes in the order in which their expansions ended. */
    ghost var expansions: multiset<string>
    ghost var ended: seq<string>

    ghost predicate Valid()
      reads this
    {
      && Closed(graph)
      && visiting !! complete && visiting + complete <= graph.Keys
      && expansions == multiset(visiting + complete)
      && TextSet(ended) == complete
      && (findings == [] ==> Topological(graph, ended))
      && AllCycles(graph, findings)
    }

    constructor (graph: Graph)
      requires Closed(graph)
      ensures Valid() && this.graph == graph
      ensures visiting == {} && complete == {} && findings == []
    {
      this.graph := graph;
      visiting, complete, findings, expansions, ended := {}, {}, [], multiset{}, [];
    }

    /** The trail has come back to a node that is still being expanded. */
    method Report(node: string, trail: seq<string>)
      requires Valid() && node in trail
      requires Walk(graph, trail + [node]) && Distinct(trail)
      modifies this`findings
      ensures Valid() && findings == old(findings) + [trail[IndexOf(trail, node)..] + [node]]
    {
      TrailCloses(graph, trail, node);
      findings := findings + [trail[IndexOf(trail, node)..] + [node]];
    }

    method Enter(node: string, trail: seq<string>)
      requires Valid() && node in graph && node !in visiting + complete
      requires Distinct(trail) && TextSet(trail) == visiting
      modifies this`visiting, this`expansions
      ensures Valid() && visiting == old(visiting) + {node}
      ensures Distinct(trail + [node]) && TextSet(trail + [node]) == visiting
      ensures graph.Keys - visiting - complete < old(graph.Keys - visiting - complete)
    {
      hide Topological, AllCycles, Walk, Closed, Distinct, TextSet;
      TrailExtends(trail, node);
      assert node in graph.Keys - visiting - complete;
      visiting := visiting + {node};
      expansions := expansions + multiset{node};
    }

    method Leave(node: string, targets: seq<string>)
      requires Valid() && node in visiting && node in graph && targets == Sorted(graph[node])
      requires findings == [] ==> forall k | 0 <= k < |targets| :: targets[k] in complete
      modifies this`visiting, this`complete, this`ended
      ensures Valid() && visiting == old(visiting) - {node} && complete == old(complete) + {node}
    {
      hide AllCycles, Topological, Closed, Walk;
      assert node !in TextSet(ended);
      EndsInOrder(graph, ended, node, targets, findings == []);
      visiting := visiting - {node};
      complete := complete + {node};
      ended := ended + [node];
    }

    /** `visit`: the trail is the path of nodes now being expanded. */
    method Visit(node: string, trail: seq<string>)
      requires Valid() && node in graph
      requires Walk(graph, trail + [node]) && Distinct(trail) && TextSet(trail) == visiting
      modifies this
      ensures Valid()
      ensures visiting == old(visiting) && old(complete) <= complete
      ensures Kept(old(findings), findings)
      ensures node in old(visiting) ==> findings == old(findings) + [trail[IndexOf(trail, node)..] + [node]]
      ensures node !in old(visiting) ==> node in complete
      decreases graph.Keys - visiting - complete, 1
    {
      if node in complete {
        return;
      }
      if node in visiting {
        Report(node, trail);
        return;
      }
      Expand(node, trail);
    }

    /** The expansion of a node that `visit` meets for the first time. */
    method Expand(node: string, trail: seq<string>)
      requires Valid() && node in graph && node !in visiting + complete
      requires Walk(graph, trail + [node]) && Distinct(trail) && TextSet(trail) == visiting
      modifies this
      ensures Valid()
      ensures visiting == old(visiting) && old(complete) + {node} <= complete
      ensures Kept(old(findings), findings)
      decreases graph.Keys - visiting - complete, 0
    {
      Enter(node, trail);
      var targets := Sorted(graph[node]);
      VisitTargets(targets, trail + [node]);
      Leave(node, targets);
    }

    /** The loop of `visit`, over the sorted dependencies of the trail's last node. */
    method VisitTargets(targets: seq<string>, trail: seq<string>)
      requires Valid() && Walk(graph, trail) && Distinct(trail) && TextSet(trail) == visiting
      requires trail != [] && trail[|trail| - 1] in graph && targets == Sorted(graph[trail[|trail| - 1]])
      modifies this
      ensures Valid()
      ensures visiting == old(visiting) && old(complete) <= complete
      ensures Kept(old(findings), findings)
      ensures findings == [] ==> forall k | 0 <= k < |targets| :: targets[k] in complete
      decreases graph.Keys - visiting - complete, 2
    {
      var i := 0;
      while i < |targets|
        invariant 0 <= i <= |targets|
        invariant Valid() && visiting == old(visiting)
        invariant old(complete) <= complete && Kept(old(findings), findings)
        invariant findings == [] ==> forall k | 0 <= k < i :: targets[k] in complete
      {
        assert graph.Keys - visiting - complete <= old(graph.Keys - visiting - complete);
        WalkExtends(graph, trail, targets[i]);
        ghost var before := findings;
        Visit(targets[i], trail);
        KeptOnward(old(findings), before, findings);
        i := i + 1;
      }
    }

    /** `_check_cycles` */
    method Check()
      requires Valid() && visiting == {} && complete == {} && findings == []
      modifies this
      ensures findings == [] <==> Acyclic(graph)
      ensures forall i | 0 <= i < |findings| :: Cycle(graph, findings[i])
      ensures forall i | 0 <= i < |findings| ::
                var w := findings[i];
                && |w| >= 2 && w[0] == w[|w| - 1]
                && (forall j | 0 <= j < |w| - 1 :: w[j] in graph && w[j + 1] in graph[w[j]])
                && (forall j, k | 0 <= j < k < |w| - 1 :: w[j] != w[k])
      ensures complete == graph.Keys && visiting == {}
      ensures expansions == multiset(graph.Keys)
    {
      hide AllCycles, Topological, Cycle, Acyclic, IndexOf;
      var nodes := Sorted(graph.Keys);
      var i := 0;
      while i < |nodes|
        invariant 0 <= i <= |nodes|
        invariant Valid() && visiting == {}
        invariant forall k | 0 <= k < i :: nodes[k] in complete
      {
        Visit(nodes[i], []);
        i := i + 1;
      }
      assert forall n | n in graph :: n in nodes;
      FindingsAreCycles(graph, findings);
      FindingsDecide(graph, findings, ended);
    }
  }

  // ----- policies ----------------------------------------------------------------------

  datatype Member = Member(
    distribution: string, moduleName: string, path: string, kind: string, role: string,
    internal: seq<string>, external: seq<string>, capabilities: seq<string>)

  /** The exclusive owners are a mapping, kept in the order in which it lists its keys. */
  datatype Policy = Policy(members: seq<Member>, owners: seq<(string, string)>)

  datatype PolicyError =
    | MembersNotSorted | MemberIdentityDuplicate | Kind | PathKind | ValuesNotClosed | PackageCapability
    | SelfDependency | UnknownDependency | UnknownCapabilityOwner | ExclusiveNotSorted

  function MemberError(m: Member, distributions: set<string>): Option<PolicyError> {
    if m.kind != "application" && m.kind != "package" then Some(Kind)
    else if !((if m.kind == "application" then "apps/" else "packages/") <= m.path) then Some(PathKind)
    else if !SortedSet(m.internal) || !SortedSet(m.external) || !SortedSet(m.capabilities) then Some(ValuesNotClosed)
    else if m.kind == "package" && m.capabilities != [] then Some(PackageCapability)
    else if m.distribution in m.internal then Some(SelfDependency)
    else if !(TextSet(m.internal) <= distributions) then Some(UnknownDependency)
    else None
  }

  function FirstMemberError(members: seq<Member>, distributions: set<string>): (r: Option<PolicyError>)
    ensures r.None? <==> forall m | m in members :: MemberError(m, distributions).None?
  {
    if members == [] then None
    else
      var first := MemberError(members[0], distributions);
      if first.Some? then first else FirstMemberError(members[1..], distributions)
  }

  /** `_validate_policy`: the first error it raises, if any. */
  function ValidatePolicy(policy: Policy): Option<PolicyError> {
    var members := policy.members;
    var distributions := set m | m in members :: m.distribution;
    if exists i, j | 0 <= i < j < |members| :: Before(members[j].distribution, members[i].distribution) then Some(MembersNotSorted)
    else if members == [] || |distributions| != |members| || |set m | m in members :: m.moduleName| != |members|
            || |set m | m in members :: m.path| != |members| || |set m | m in members :: m.role| != |members| then
      Some(MemberIdentityDuplicate)
    else
      var wrong := FirstMemberError(members, distributions);
      if wrong.Some? then wrong
      else if exists o | o in policy.owners :: o.1 !in distributions then Some(UnknownCapabilityOwner)
      else if exists i, j | 0 <= i < j < |policy.owners| :: Before(policy.owners[j].0, policy.owners[i].0) then Some(ExclusiveNotSorted)
      else None
  }

  /** Exactly one member declares the capability, and it is the named owner. */
  ghost predicate OwnedExactlyBy(members: seq<Member>, capability: string, owner: string) {
    exists i | 0 <= i < |members| :: Declares(members, i, capability) && members[i].distribution == owner
                                     && OnlyDeclarer(members, i, capability)
  }

  predicate Declares(members: seq<Member>, i: nat, capability: string)
    requires i < |members|
  {
    capability in members[i].capabilities
  }

  ghost predicate OnlyDeclarer(members: seq<Member>, i: nat, capability: string) {
    forall j | 0 <= j < |members| && Declares(members, j, capability) :: j == i
  }

  function Count(s: seq<string>, x: string): nat {
    if s == [] then 0 else Count(s[..|s| - 1], x) + (if s[|s| - 1] == x then 1 else 0)
  }

  function Repeat(x: string, n: nat): (r: seq<string>)
    ensures |r| == n
  {
    if n == 0 then [] else Repeat(x, n - 1) + [x]
  }

  /** The distribution of each member, once for each time that it lists the capability. */
  function Declarers(members: seq<Member>, capability: string): seq<string> {
    if members == [] then []
    else
      var last := members[|members| - 1];
      Declarers(members[..|members| - 1], capability) + Repeat(last.distribution, Count(last.capabilities, capability))
  }

  lemma {:induction false} CountInSet(s: seq<string>, x: string)
    requires forall i, j | 0 <= i < j < |s| :: s[i] != s[j]
    ensures Count(s, x) == if x in s then 1 else 0
  {
    if s != [] {
      CountInSet(s[..|s| - 1], x);
    }
  }

  lemma LastDeclares(members: seq<Member>, capability: string)
    requires members != [] && SortedSet(members[|members| - 1].capabilities)
    ensures var last := members[|members| - 1];
            Declarers(members, capability)
              == Declarers(members[..|members| - 1], capability) + (if capability in last.capabilities then [last.distribution] else [])
  {
    var last := members[|members| - 1];
    AscendingIsDistinct(last.capabilities);
    CountInSet(last.capabilities, capability);
    assert Repeat(last.distribution, 0) == [] && Repeat(last.distribution, 1) == [last.distribution];
  }

  lemma OneElement(front: seq<string>, last: string, only: string)
    ensures front + [last] == [only] <==> front == [] && last == only
  {
    if front + [last] == [only] {
      assert (front + [last])[|front|] == last && |front + [last]| == 1;
    }
  }

  /** With each member's capabilities distinct, one declarer in the list is one declaring member. */
  lemma {:induction false} DeclarersTell(members: seq<Member>, capability: string, owner: string)
    requires forall i | 0 <= i < |members| :: SortedSet(members[i].capabilities)
    ensures Declarers(members, capability) == [] <==> forall i | 0 <= i < |members| :: !Declares(members, i, capability)
    ensures Declarers(members, capability) == [owner] <==> OwnedExactlyBy(members, capability, owner)
  {
    if members != [] {
      var front, n := members[..|members| - 1], |members| - 1;
      DeclarersTell(front, capability, owner);
      LastDeclares(members, capability);
      assert forall i | 0 <= i < n :: Declares(front, i, capability) == Declares(members, i, capability);
      if Declares(members, n, capability) {
        OwnedByLast(members, capability, owner);
        OneElement(Declarers(front, capability), members[n].distribution, owner);
      } else {
        OwnedWithoutLast(members, capability, owner);
      }
    }
  }

  lemma OwnedByLast(members: seq<Member>, capability: string, owner: string)
    requires members != [] && Declares(members, |members| - 1, capability)
    ensures OwnedExactlyBy(members, capability, owner)
       <==> members[|members| - 1].distribution == owner && forall i | 0 <= i < |members| - 1 :: !Declares(members, i, capability)
  {
    var n := |members| - 1;
    if OwnedExactlyBy(members, capability, owner) {
      var i :| 0 <= i < |members| && Declares(members, i, capability) && members[i].distribution == owner && OnlyDeclarer(members, i, capability);
      assert i == n;
    } else if forall i | 0 <= i < n :: !Declares(members, i, capability) {
      assert OnlyDeclarer(members, n, capability);
    }
  }

  lemma OwnedWithoutLast(members: seq<Member>, capability: string, owner: string)
    requires members != [] && !Declares(members, |members| - 1, capability)
    ensures OwnedExactlyBy(members, capability, owner) <==> OwnedExactlyBy(members[..|members| - 1], capability, owner)
  {
    var front := members[..|members| - 1];
    assert forall i | 0 <= i < |front| :: Declares(front, i, capability) == Declares(members, i, capability);
    if OwnedExactlyBy(members, capability, owner) {
      var i :| 0 <= i < |members| && Declares(members, i, capability) && members[i].distribution == owner && OnlyDeclarer(members, i, capability);
      assert OnlyDeclarer(front, i, capability);
    }
    if OwnedExactlyBy(front, capability, owner) {
      var i :| 0 <= i < |front| && Declares(front, i, capability) && front[i].distribution == owner && OnlyDeclarer(front, i, capability);
      assert OnlyDeclarer(members, i, capability);
    }
  }

  /** `owners.setdefault(capability, []).append(distribution)` for each capability of one member. */
  method AppendOwner(before: map<string, seq<string>>, m: Member) returns (owners: map<string, seq<string>>)
    ensures forall c: string :: Listed(owners, c) == Listed(before, c) + Repeat(m.distribution, Count(m.capabilities, c))
  {
    owners := before;
    for j := 0 to |m.capabilities|
      invariant forall c: string :: Listed(owners, c) == Listed(before, c) + Repeat(m.distribution, Count(m.capabilities[..j], c))
    {
      ghost var was := owners;
      owners := owners[m.capabilities[j] := Listed(owners, m.capabilities[j]) + [m.distribution]];
      forall c: string
        ensures Listed(owners, c) == Listed(before, c) + Repeat(m.distribution, Count(m.capabilities[..j + 1], c))
      {
        OneMoreOwner(before, was, m, j, c);
      }
    }
    assert m.capabilities[..|m.capabilities|] == m.capabilities;
  }

  lemma OneMoreOwner(before: map<string, seq<string>>, owners: map<string, seq<string>>, m: Member, j: nat, c: string)
    requires j < |m.capabilities|
    requires Listed(owners, c) == Listed(before, c) + Repeat(m.distribution, Count(m.capabilities[..j], c))
    ensures Listed(owners[m.capabilities[j] := Listed(owners, m.capabilities[j]) + [m.distribution]], c)
         == Listed(before, c) + Repeat(m.distribution, Count(m.capabilities[..j + 1], c))
  {
    var d := m.capabilities[j];
    CountOneMore(m.capabilities, j, c);
    var n := Count(m.capabilities[..j], c);
    hide Count;
    if d == c {
      assert Repeat(m.distribution, n + 1) == Repeat(m.distribution, n) + [m.distribution];
    }
  }

  lemma CountOneMore(s: seq<string>, j: nat, c: string)
    requires j < |s|
    ensures Count(s[..j + 1], c) == Count(s[..j], c) + (if s[j] == c then 1 else 0)
  {
    assert s[..j + 1][..j] == s[..j];
  }

  method CollectOwners(members: seq<Member>) returns (owners: map<string, seq<string>>)
    ensures forall c: string :: Listed(owners, c) == Declarers(members, c)
  {
    owners := map[];
    for i := 0 to |members|
      invariant forall c: string :: Listed(owners, c) == Declarers(members[..i], c)
    {
      assert members[..i + 1][..i] == members[..i];
      owners := AppendOwner(owners, members[i]);
    }
    assert members[..|members|] == members;
  }

  function Listed(owners: map<string, seq<string>>, capability: string): seq<string> {
    if capability in owners then owners[capability] else []
  }

  /** The exclusive capabilities whose declarers are not their one owner, in the policy's order. */
  function Violations(members: seq<Member>, owners: seq<(string, string)>): (r: seq<string>)
    ensures r == [] <==> forall o | o in owners :: Declarers(members, o.0) == [o.1]
  {
    if owners == [] then []
    else
      var n := |owners| - 1;
      assert owners == owners[..n] + [owners[n]];
      Violations(members, owners[..n]) + (if Declarers(members, owners[n].0) == [owners[n].1] then [] else [owners[n].0])
  }

  predicate Wrong(members: seq<Member>, entry: (string, string)) {
    Declarers(members, entry.0) != [entry.1]
  }

  /** The list names the capabilities of exactly the wrong entries, in the policy's order; `wrong` are their places. */
  ghost predicate Marks(members: seq<Member>, owners: seq<(string, string)>, r: seq<string>, wrong: seq<int>) {
    Names(owners, r, wrong) && Places(members, owners, wrong)
  }

  /** The capabilities at these places, which ascend. */
  predicate Names(owners: seq<(string, string)>, r: seq<string>, wrong: seq<int>) {
    && |wrong| == |r|
    && (forall j, k | 0 <= j < k < |wrong| :: wrong[j] < wrong[k])
    && (forall j | 0 <= j < |wrong| :: 0 <= wrong[j] < |owners| && r[j] == owners[wrong[j]].0)
  }

  /** The places of the wrong entries and no others. */
  ghost predicate Places(members: seq<Member>, owners: seq<(string, string)>, wrong: seq<int>) {
    forall i :: i in wrong <==> 0 <= i < |owners| && Wrong(members, owners[i])
  }

  lemma NamesOneMore(owners: seq<(string, string)>, last: (string, string), r: seq<string>, wrong: seq<int>)
    requires Names(owners, r, wrong)
    ensures Names(owners + [last], r, wrong) && Names(owners + [last], r + [last.0], wrong + [|owners|])
  {
  }

  lemma PlacesOneMore(members: seq<Member>, owners: seq<(string, string)>, last: (string, string), wrong: seq<int>)
    requires Places(members, owners, wrong)
    ensures Places(members, owners + [last], if Wrong(members, last) then wrong + [|owners|] else wrong)
  {
    hide Wrong;
    var more := owners + [last];
    var places := if Wrong(members, last) then wrong + [|owners|] else wrong;
    forall i ensures i in places <==> 0 <= i < |more| && Wrong(members, more[i]) {
      if 0 <= i < |owners| {
        assert more[i] == owners[i];
      }
    }
  }

  lemma MarksOneMore(members: seq<Member>, owners: seq<(string, string)>, last: (string, string), r: seq<string>, wrong: seq<int>)
    requires Marks(members, owners, r, wrong)
    ensures Marks(members, owners + [last], if Wrong(members, last) then r + [last.0] else r,
                  if Wrong(members, last) then wrong + [|owners|] else wrong)
  {
    NamesOneMore(owners, last, r, wrong);
    PlacesOneMore(members, owners, last, wrong);
    hide Names, Places, Wrong;
  }

  lemma {:induction false} ViolationsAre(members: seq<Member>, owners: seq<(string, string)>) returns (wrong: seq<int>)
    ensures Marks(members, owners, Violations(members, owners), wrong)
  {
    hide Marks, Wrong, Violations;
    wrong := [];
    NothingMarked(members);
    if owners != [] {
      var n := |owners| - 1;
      var front := ViolationsAre(members, owners[..n]);
      MarksOneMore(members, owners[..n], owners[n], Violations(members, owners[..n]), front);
      assert owners == owners[..n] + [owners[n]];
      OneMoreViolation(members, owners);
      wrong := if Wrong(members, owners[n]) then front + [n] else front;
    }
  }

  lemma NothingMarked(members: seq<Member>)
    ensures Violations(members, []) == [] && Marks(members, [], [], [])
  {
  }

  lemma OneMoreViolation(members: seq<Member>, owners: seq<(string, string)>)
    requires owners != []
    ensures var n := |owners| - 1;
            Violations(members, owners)
            == if Wrong(members, owners[n]) then Violations(members, owners[..n]) + [owners[n].0] else Violations(members, owners[..n])
  {
  }

  /** What a loaded policy must be. */
  predicate PolicyHolds(policy: Policy) {
    var ms := policy.members;
    && ms != []
    && (forall i, j | 0 <= i < j < |ms| :: Before(ms[i].distribution, ms[j].distribution))
    && (forall i, j | 0 <= i < j < |ms| :: ms[i].moduleName != ms[j].moduleName && ms[i].path != ms[j].path && ms[i].role != ms[j].role)
    && (forall i | 0 <= i < |ms| :: MemberHolds(ms, ms[i]))
    && (forall o | o in policy.owners :: exists i | 0 <= i < |ms| :: ms[i].distribution == o.1)
    && (forall i, j | 0 <= i < j < |policy.owners| :: !Before(policy.owners[j].0, policy.owners[i].0))
  }

  /** An application under apps, or a package under packages without capabilities; its lists in strict order, its dependencies other members. */
  predicate MemberHolds(ms: seq<Member>, m: Member) {
    && ((m.kind == "application" && "apps/" <= m.path) || (m.kind == "package" && "packages/" <= m.path && m.capabilities == []))
    && Ascending(m.internal) && Ascending(m.external) && Ascending(m.capabilities)
    && forall d | d in m.internal :: d != m.distribution && exists i | 0 <= i < |ms| :: ms[i].distribution == d
  }

  lemma AscendingIsSortedSet(values: seq<string>)
    ensures SortedSet(values) <==> Ascending(values)
  {
    if Ascending(values) {
      AscendingIsUnique(values, Sorted(TextSet(values)));
    }
  }

  /** A list has as many different values as places exactly if no value stands twice. */
  lemma {:induction false} DifferentValues(values: seq<string>)
    ensures |TextSet(values)| <= |values|
    ensures |TextSet(values)| == |values| <==> Distinct(values)
  {
    if values != [] {
      var front, last := values[..|values| - 1], values[|values| - 1];
      DifferentValues(front);
      assert values == front + [last];
      assert TextSet(values) == TextSet(front) + {last};
      if last in front {
        assert TextSet(values) == TextSet(front);
        var i :| 0 <= i < |front| && front[i] == last;
        assert values[i] == values[|values| - 1];
      } else if Distinct(front) {
        forall i, j | 0 <= i < j < |values| ensures values[i] != values[j] {
          assert values[i] == front[i] && front[i] in front;
        }
      } else {
        var i, j :| 0 <= i < j < |front| && front[i] == front[j];
        assert values[i] == values[j];
      }
    }
  }

  lemma MemberIsHeld(ms: seq<Member>, m: Member)
    requires m in ms
    ensures MemberError(m, set x | x in ms :: x.distribution).None? <==> MemberHolds(ms, m)
  {
    AscendingIsSortedSet(m.internal);
    AscendingIsSortedSet(m.external);
    AscendingIsSortedSet(m.capabilities);
    hide SortedSet, Ascending;
    var distributions := set x | x in ms :: x.distribution;
    forall d ensures d in distributions <==> exists i | 0 <= i < |ms| :: ms[i].distribution == d {
      if i :| 0 <= i < |ms| && ms[i].distribution == d {
        assert ms[i] in ms;
      }
    }
    assert TextSet(m.internal) <= distributions <==> forall d | d in m.internal :: d in distributions by {
      assert forall d :: d in TextSet(m.internal) <==> d in m.internal;
    }
  }

  /** The values of one field, member by member. */
  function Distributions(ms: seq<Member>): (r: seq<string>)
    ensures |r| == |ms|
  {
    seq(|ms|, i requires 0 <= i < |ms| => ms[i].distribution)
  }

  function ModuleNames(ms: seq<Member>): (r: seq<string>)
    ensures |r| == |ms|
  {
    seq(|ms|, i requires 0 <= i < |ms| => ms[i].moduleName)
  }

  function Paths(ms: seq<Member>): (r: seq<string>)
    ensures |r| == |ms|
  {
    seq(|ms|, i requires 0 <= i < |ms| => ms[i].path)
  }

  function Roles(ms: seq<Member>): (r: seq<string>)
    ensures |r| == |ms|
  {
    seq(|ms|, i requires 0 <= i < |ms| => ms[i].role)
  }

  lemma FieldSets(ms: seq<Member>)
    ensures (set m | m in ms :: m.distribution) == TextSet(Distributions(ms))
    ensures (set m | m in ms :: m.moduleName) == TextSet(ModuleNames(ms))
    ensures (set m | m in ms :: m.path) == TextSet(Paths(ms))
    ensures (set m | m in ms :: m.role) == TextSet(Roles(ms))
  {
    forall m | m in ms
      ensures m.distribution in Distributions(ms) && m.moduleName in ModuleNames(ms) && m.path in Paths(ms) && m.role in Roles(ms)
    {
      var i :| 0 <= i < |ms| && ms[i] == m;
      assert Distributions(ms)[i] == m.distribution && ModuleNames(ms)[i] == m.moduleName && Paths(ms)[i] == m.path && Roles(ms)[i] == m.role;
    }
    forall i | 0 <= i < |ms| ensures ms[i] in ms {
    }
  }

  /** Each of the four identities stands once. */
  predicate Identified(ms: seq<Member>) {
    Distinct(Distributions(ms)) && Distinct(ModuleNames(ms)) && Distinct(Paths(ms)) && Distinct(Roles(ms))
  }

  lemma IdentifiedIs(ms: seq<Member>)
    ensures Identified(ms) <==>
              && |set m | m in ms :: m.distribution| == |ms| && |set m | m in ms :: m.moduleName| == |ms|
              && |set m | m in ms :: m.path| == |ms| && |set m | m in ms :: m.role| == |ms|
  {
    hide Distinct;
    FieldSets(ms);
    DifferentValues(Distributions(ms));
    DifferentValues(ModuleNames(ms));
    DifferentValues(Paths(ms));
    DifferentValues(Roles(ms));
  }

  lemma OrderIs(ms: seq<Member>)
    ensures Distinct(Distributions(ms)) && !(exists i, j | 0 <= i < j < |ms| :: Before(ms[j].distribution, ms[i].distribution))
       <==> forall i, j | 0 <= i < j < |ms| :: Before(ms[i].distribution, ms[j].distribution)
  {
    forall i, j | 0 <= i < j < |ms|
      ensures Before(ms[i].distribution, ms[j].distribution)
         <==> !Before(ms[j].distribution, ms[i].distribution) && Distributions(ms)[i] != Distributions(ms)[j]
    {
      BeforeTrichotomy(ms[i].distribution, ms[j].distribution);
    }
  }

  lemma OthersDiffer(ms: seq<Member>)
    ensures Distinct(ModuleNames(ms)) && Distinct(Paths(ms)) && Distinct(Roles(ms))
       <==> forall i, j | 0 <= i < j < |ms| :: ms[i].moduleName != ms[j].moduleName && ms[i].path != ms[j].path && ms[i].role != ms[j].role
  {
    assert forall i | 0 <= i < |ms| :: ModuleNames(ms)[i] == ms[i].moduleName && Paths(ms)[i] == ms[i].path && Roles(ms)[i] == ms[i].role;
  }

  lemma PolicyParts(policy: Policy)
    ensures var ms := policy.members;
            var distributions := set m | m in ms :: m.distribution;
            ValidatePolicy(policy).None? <==>
              && !(exists i, j | 0 <= i < j < |ms| :: Before(ms[j].distribution, ms[i].distribution))
              && ms != []
              && |distributions| == |ms| && |set m | m in ms :: m.moduleName| == |ms|
              && |set m | m in ms :: m.path| == |ms| && |set m | m in ms :: m.role| == |ms|
              && (forall m | m in ms :: MemberError(m, distributions).None?)
              && (forall o | o in policy.owners :: o.1 in distributions)
              && !(exists i, j | 0 <= i < j < |policy.owners| :: Before(policy.owners[j].0, policy.owners[i].0))
  {
    hide MemberError, Before;
  }

  lemma MembersAreHeld(ms: seq<Member>)
    ensures (forall m | m in ms :: MemberError(m, set x | x in ms :: x.distribution).None?)
       <==> forall i | 0 <= i < |ms| :: MemberHolds(ms, ms[i])
  {
    hide MemberError, MemberHolds;
    forall m | m in ms ensures MemberError(m, set x | x in ms :: x.distribution).None? <==> MemberHolds(ms, m) {
      MemberIsHeld(ms, m);
    }
    assert forall i | 0 <= i < |ms| :: ms[i] in ms;
  }

  lemma OwnersAreKnown(policy: Policy)
    ensures var ms := policy.members;
            (forall o | o in policy.owners :: o.1 in set m | m in ms :: m.distribution)
            <==> forall o | o in policy.owners :: exists i | 0 <= i < |ms| :: ms[i].distribution == o.1
  {
    var ms := policy.members;
    var distributions := set m | m in ms :: m.distribution;
    forall d ensures d in distributions <==> exists i | 0 <= i < |ms| :: ms[i].distribution == d {
      if i :| 0 <= i < |ms| && ms[i].distribution == d {
        assert ms[i] in ms;
      }
    }
  }

  /** A policy is loaded exactly if it holds. */
  lemma PolicyLoads(policy: Policy)
    ensures ValidatePolicy(policy).None? <==> PolicyHolds(policy)
  {
    hide ValidatePolicy, MemberError, MemberHolds, Before, Distinct;
    PolicyParts(policy);
    IdentifiedIs(policy.members);
    OrderIs(policy.members);
    OthersDiffer(policy.members);
    MembersAreHeld(policy.members);
    OwnersAreKnown(policy);
  }

  lemma ValidCapabilities(policy: Policy)
    requires ValidatePolicy(policy).None?
    ensures forall i | 0 <= i < |policy.members| :: SortedSet(policy.members[i].capabilities)
  {
    forall i | 0 <= i < |policy.members| ensures SortedSet(policy.members[i].capabilities) {
      assert policy.members[i] in policy.members;
    }
  }

  /** `_check_exclusive_capabilities`: silent, on a valid policy, exactly when each owner is the only declarer. */
  method CheckExclusiveCapabilities(policy: Policy) returns (findings: seq<string>)
    ensures findings == Violations(policy.members, policy.owners)
    ensures ValidatePolicy(policy).None? ==>
              && (findings == [] <==> forall o | o in policy.owners :: OwnedExactlyBy(policy.members, o.0, o.1))
              && (forall c :: c in findings <==> exists o | o in policy.owners :: o.0 == c && !OwnedExactlyBy(policy.members, o.0, o.1))
  {
    hide ValidatePolicy, Declarers, OwnedExactlyBy, SortedSet;
    var owners := CollectOwners(policy.members);
    findings := [];
    for i := 0 to |policy.owners|
      invariant findings == Violations(policy.members, policy.owners[..i])
    {
      var (capability, expected) := policy.owners[i];
      assert policy.owners[..i + 1][..i] == policy.owners[..i];
      if Listed(owners, capability) != [expected] {
        findings := findings + [capability];
      }
    }
    assert policy.owners[..|policy.owners|] == policy.owners;
    if ValidatePolicy(policy).None? {
      ValidCapabilities(policy);
      forall o | o in policy.owners ensures Declarers(policy.members, o.0) == [o.1] <==> OwnedExactlyBy(policy.members, o.0, o.1) {
        DeclarersTell(policy.members, o.0, o.1);
      }
      FoundAre(policy.members, policy.owners);
    }
  }

  lemma FoundAre(members: seq<Member>, owners: seq<(string, string)>)
    ensures forall c :: c in Violations(members, owners) <==> exists o | o in owners :: o.0 == c && Declarers(members, o.0) != [o.1]
  {
    hide Declarers, Violations;
    var wrong := ViolationsAre(members, owners);
    var r := Violations(members, owners);
    forall c ensures c in r <==> exists o | o in owners :: o.0 == c && Declarers(members, o.0) != [o.1] {
      if c in r {
        var j :| 0 <= j < |r| && r[j] == c;
        assert wrong[j] in wrong;
        assert owners[wrong[j]] in owners && Wrong(members, owners[wrong[j]]);
      }
      if o :| o in owners && o.0 == c && Declarers(members, o.0) != [o.1] {
        var i :| 0 <= i < |owners| && owners[i] == o;
        assert Wrong(members, owners[i]);
        assert i in wrong;
        var j :| 0 <= j < |wrong| && wrong[j] == i;
        assert r[j] == c;
      }
    }
  }
}

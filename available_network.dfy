// The network graph the path computation searches: switches (nodes) and the
// links between their ports (edges), built edge by edge, and the usage counters
// that diversity, PoP diversity and affinity with other flows' paths add to it.

module AvailableNetwork {
  import opened Wrappers

  /** A switch's datapath id, the number its textual form "00:00:00:22:3d:6c:00:b8" spells in hexadecimal. */
  type SwitchId = int

  /** A link is identified by its two switches and its two ports; cost and counters are not part of it. */
  datatype EdgeKey = EdgeKey(src: SwitchId, srcPort: int, dst: SwitchId, dstPort: int)

  /** The mutable attributes of a link. */
  datatype Edge = Edge(
    cost: int,
    latency: int,
    underMaintenance: bool,
    unstable: bool,
    diversityGroupUseCounter: nat,
    diversityGroupPerPopUseCounter: nat,
    affinityGroupUseCounter: nat)

  /**
   * A switch: its point of presence and its diversity counter. Its links in
   * and out are those of the network's links that start or end at it.
   */
  datatype Node = Node(pop: Option<string>, diversityGroupUseCounter: nat)

  /** A hop of another flow's path; `seqId` is its position in that path. */
  datatype PathSegment = PathSegment(
    srcSwitch: SwitchId, srcPort: int, destSwitch: SwitchId, destPort: int, seqId: nat,
    srcPop: Option<string>, destPop: Option<string>)

  function KeyOf(s: PathSegment): EdgeKey {
    EdgeKey(s.srcSwitch, s.srcPort, s.destSwitch, s.destPort)
  }

  // ---------------------------------------------------------------------------
  // What the counters become

  /** Whether a segment runs over the given link. */
  function EdgeHit(segment: PathSegment, k: EdgeKey): nat {
    if KeyOf(segment) == k then 1 else 0
  }

  /** How many of the segments run over the given link. */
  function EdgeHits(segments: seq<PathSegment>, k: EdgeKey): nat {
    if segments == [] then 0
    else EdgeHits(segments[..|segments| - 1], k) + EdgeHit(segments[|segments| - 1], k)
  }

  /**
   * How often diversity charges a switch for one segment: once if the segment
   * ends at it, and once more if it is a first segment starting at it, unless
   * the switch terminates the flow being computed.
   */
  function NodeHit(segment: PathSegment, terminating: set<SwitchId>, s: SwitchId): nat {
    (if segment.destSwitch == s && s !in terminating then 1 else 0)
      + (if segment.seqId == 0 && segment.srcSwitch == s && s !in terminating then 1 else 0)
  }

  /** How often diversity charges a switch for all the segments. */
  function NodeHits(segments: seq<PathSegment>, terminating: set<SwitchId>, s: SwitchId): nat {
    if segments == [] then 0
    else NodeHits(segments[..|segments| - 1], terminating, s) + NodeHit(segments[|segments| - 1], terminating, s)
  }

  /** Two segments charge what each of them charges. */
  lemma TwoSegmentHits(first: PathSegment, second: PathSegment, terminating: set<SwitchId>, s: SwitchId, k: EdgeKey)
    ensures EdgeHits([first, second], k) == EdgeHit(first, k) + EdgeHit(second, k)
    ensures NodeHits([first, second], terminating, s) == NodeHit(first, terminating, s) + NodeHit(second, terminating, s)
  {
    var both := [first, second];
    assert both[..|both| - 1] == [first] && both[|both| - 1] == second;
    assert [first][..0] == [];
    assert EdgeHits(both, k) == EdgeHits([first], k) + EdgeHit(second, k);
    assert NodeHits(both, terminating, s) == NodeHits([first], terminating, s) + NodeHit(second, terminating, s);
  }

  /** A link no segment runs over is never charged. */
  lemma {:induction false} EdgeHitsZero(segments: seq<PathSegment>, k: EdgeKey)
    ensures EdgeHits(segments, k) == 0 <==> forall i :: 0 <= i < |segments| ==> KeyOf(segments[i]) != k
    decreases |segments|
  {
    if segments != [] {
      var init := segments[..|segments| - 1];
      EdgeHitsZero(init, k);
      assert forall i :: 0 <= i < |init| ==> init[i] == segments[i];
    }
  }

  /** A terminating switch is never charged, and neither is a switch no segment touches. */
  lemma {:induction false} NodeHitsZero(segments: seq<PathSegment>, terminating: set<SwitchId>, s: SwitchId)
    ensures s in terminating ==> NodeHits(segments, terminating, s) == 0
    ensures (forall i :: 0 <= i < |segments| ==> segments[i].srcSwitch != s && segments[i].destSwitch != s)
      ==> NodeHits(segments, terminating, s) == 0
    decreases |segments|
  {
    if segments != [] {
      var init := segments[..|segments| - 1];
      NodeHitsZero(init, terminating, s);
      assert forall i :: 0 <= i < |init| ==> init[i] == segments[i];
    }
  }

  /** The PoPs of the switches a path passes through: the start of every segment but the first. */
  function TransitPops(segments: seq<PathSegment>): set<string> {
    set i | 1 <= i < |segments| && segments[i].srcPop.Some? :: segments[i].srcPop.value
  }

  /** A link touches a PoP when either of its switches sits in it. */
  predicate TouchesPops(nodes: map<SwitchId, Node>, k: EdgeKey, pops: set<string>)
    requires k.src in nodes && k.dst in nodes
  {
    (nodes[k.src].pop.Some? && nodes[k.src].pop.value in pops)
    || (nodes[k.dst].pop.Some? && nodes[k.dst].pop.value in pops)
  }

  /** Whether a link is one of the affinity path's links. */
  predicate OnPath(segments: seq<PathSegment>, k: EdgeKey) {
    exists i :: 0 <= i < |segments| && KeyOf(segments[i]) == k
  }

  /** A path of one segment or none has no transit switch, so no PoP is charged. */
  lemma ShortPathHasNoTransitPops(segments: seq<PathSegment>)
    requires |segments| <= 1
    ensures TransitPops(segments) == {}
  {
  }

  /**
   * A path whose transit switches have no PoP charges no link, whatever PoPs
   * the network's own switches are in.
   */
  lemma TransitWithoutPopsChargesNothing(segments: seq<PathSegment>, nodes: map<SwitchId, Node>, k: EdgeKey)
    requires forall i :: 1 <= i < |segments| ==> segments[i].srcPop.None?
    requires k.src in nodes && k.dst in nodes
    ensures !TouchesPops(nodes, k, TransitPops(segments))
  {
    assert TransitPops(segments) == {};
  }

  /**
   * The weight the path search gives a link: its cost, heavy penalties for
   * maintenance and instability, and penalties per use by diverse paths, by
   * diverse paths' PoPs and at its destination switch.
   */
  function Weight(e: Edge, destination: Node): int {
    e.cost + (if e.underMaintenance then 10000 else 0) + (if e.unstable then 10000 else 0)
      + e.diversityGroupUseCounter * 1000 + e.diversityGroupPerPopUseCounter * 1000
      + destination.diversityGroupUseCounter * 100
  }

  /**
   * A link after `n` more uses by diverse paths. Links and switches keep separate
   * counters of the same kind, so AddSwitchUses below charges a switch the same way.
   */
  function AddDiversityUses(e: Edge, n: nat): (r: Edge)
    ensures n == 0 ==> r == e
  {
    e.(diversityGroupUseCounter := e.diversityGroupUseCounter + n)
  }

  /** A link after one more use by a diverse path's PoP. */
  function AddPerPopUse(e: Edge): Edge {
    e.(diversityGroupPerPopUseCounter := e.diversityGroupPerPopUseCounter + 1)
  }

  /** A link after one more charge for lying off the affinity path. */
  function AddAffinityUse(e: Edge): Edge {
    e.(affinityGroupUseCounter := e.affinityGroupUseCounter + 1)
  }

  /** A switch after `n` more uses by diverse paths, counted as AddDiversityUses counts a link's. */
  function AddSwitchUses(node: Node, n: nat): (r: Node)
    ensures n == 0 ==> r == node
  {
    node.(diversityGroupUseCounter := node.diversityGroupUseCounter + n)
  }

  // ---------------------------------------------------------------------------
  // The network

  /** Every link joins two known switches. */
  ghost predicate WellFormed(nodes: map<SwitchId, Node>, edges: map<EdgeKey, Edge>) {
    forall k :: k in edges ==> k.src in nodes && k.dst in nodes
  }

  /** The links leaving a switch. */
  function OutgoingLinks(edges: map<EdgeKey, Edge>, s: SwitchId): set<EdgeKey> {
    set k | k in edges && k.src == s
  }

  /** The links entering a switch. */
  function IncomingLinks(edges: map<EdgeKey, Edge>, s: SwitchId): set<EdgeKey> {
    set k | k in edges && k.dst == s
  }

  /** The switches with the given one added, unless it is already there. */
  function WithNode(nodes: map<SwitchId, Node>, id: SwitchId, pop: Option<string>): map<SwitchId, Node> {
    if id in nodes then nodes else nodes[id := Node(pop, 0)]
  }

  /** The links with the given one added, unless one with the same ends and ports is already there. */
  function WithEdge(edges: map<EdgeKey, Edge>, k: EdgeKey, e: Edge): map<EdgeKey, Edge> {
    if k in edges then edges else edges[k := e]
  }

  class AvailableNetwork {
    var nodes: map<SwitchId, Node>
    var edges: map<EdgeKey, Edge>

    ghost predicate Valid()
      reads this
    {
      WellFormed(nodes, edges)
    }

    constructor ()
      ensures Valid() && nodes == map[] && edges == map[]
    {
      nodes := map[];
      edges := map[];
    }

    /** The switch with the given id, if the network has it. */
    function GetSwitch(id: SwitchId): (r: Option<Node>)
      reads this
      ensures r.Some? <==> id in nodes
      ensures r.Some? ==> r.value == nodes[id]
    {
      if id in nodes then Some(nodes[id]) else None
    }

    /** The switch with the given id; a new one, in the given PoP and uncharged, if it is missing. */
    method GetOrAddNode(id: SwitchId, pop: Option<string>)
      requires Valid()
      modifies this`nodes
      ensures Valid()
      ensures nodes == WithNode(old(nodes), id, pop)
    {
      if id !in nodes {
        nodes := nodes[id := Node(pop, 0)];
      }
    }

    /**
     * Adds a link between two switches, creating either switch as needed. A link
     * already known by the same switches and ports is left as it was.
     */
    method AddEdge(k: EdgeKey, e: Edge, srcPop: Option<string>, dstPop: Option<string>)
      requires Valid()
      modifies this
      ensures Valid()
      ensures nodes == WithNode(WithNode(old(nodes), k.src, srcPop), k.dst, dstPop)
      ensures edges == WithEdge(old(edges), k, e)
    {
      GetOrAddNode(k.src, srcPop);
      GetOrAddNode(k.dst, dstPop);
      if k !in edges {
        edges := edges[k := e];
      }
    }

    /**
     * Charges the network with another flow's path that the computed path should
     * avoid: every link of the path, every switch a segment ends at, and the
     * switch a first segment starts at, except the computed flow's own end switches.
     */
    method ProcessDiversitySegments(segments: seq<PathSegment>, terminating: set<SwitchId>)
      requires Valid()
      modifies this
      ensures Valid()
      ensures nodes.Keys == old(nodes).Keys && edges.Keys == old(edges).Keys
      ensures forall s :: s in nodes ==> nodes[s] == AddSwitchUses(old(nodes)[s], NodeHits(segments, terminating, s))
      ensures forall k :: k in edges ==> edges[k] == AddDiversityUses(old(edges)[k], EdgeHits(segments, k))
    {
      for i := 0 to |segments|
        invariant Valid()
        invariant nodes.Keys == old(nodes).Keys && edges.Keys == old(edges).Keys
        invariant forall s :: s in nodes ==> nodes[s] == AddSwitchUses(old(nodes)[s], NodeHits(segments[..i], terminating, s))
        invariant forall k :: k in edges ==> edges[k] == AddDiversityUses(old(edges)[k], EdgeHits(segments[..i], k))
      {
        ghost var nodesBefore, edgesBefore := nodes, edges;
        ChargeSegment(segments[i], terminating);
        assert segments[..i + 1][..i] == segments[..i];
        assert segments[..i + 1][i] == segments[i];
        forall s | s in nodes
          ensures nodes[s] == AddSwitchUses(old(nodes)[s], NodeHits(segments[..i + 1], terminating, s))
        {
          assert nodesBefore[s] == AddSwitchUses(old(nodes)[s], NodeHits(segments[..i], terminating, s));
        }
        forall k | k in edges
          ensures edges[k] == AddDiversityUses(old(edges)[k], EdgeHits(segments[..i + 1], k))
        {
          assert edgesBefore[k] == AddDiversityUses(old(edges)[k], EdgeHits(segments[..i], k));
        }
      }
      assert segments[..|segments|] == segments;
    }

    /** Charges the network with one segment of a diverse path. */
    method ChargeSegment(segment: PathSegment, terminating: set<SwitchId>)
      requires Valid()
      modifies this
      ensures Valid()
      ensures nodes.Keys == old(nodes).Keys && edges.Keys == old(edges).Keys
      ensures forall s :: s in nodes ==> nodes[s] == AddSwitchUses(old(nodes)[s], NodeHit(segment, terminating, s))
      ensures forall k :: k in edges ==> edges[k] == AddDiversityUses(old(edges)[k], EdgeHit(segment, k))
    {
      var charged := nodes;
      if segment.destSwitch !in terminating && segment.destSwitch in charged {
        charged := charged[segment.destSwitch := AddSwitchUses(charged[segment.destSwitch], 1)];
      }
      ghost var afterDest := charged;
      if segment.seqId == 0 && segment.srcSwitch !in terminating && segment.srcSwitch in charged {
        charged := charged[segment.srcSwitch := AddSwitchUses(charged[segment.srcSwitch], 1)];
      }
      forall s | s in charged
        ensures charged[s] == AddSwitchUses(nodes[s], NodeHit(segment, terminating, s))
      {
        if segment.destSwitch == s && s !in terminating {
          assert afterDest[s] == AddSwitchUses(nodes[s], 1);
        } else {
          assert afterDest[s] == nodes[s];
        }
      }
      var k := KeyOf(segment);
      var used := edges;
      if k in used {
        used := used[k := AddDiversityUses(used[k], 1)];
      }
      forall l | l in used
        ensures used[l] == AddDiversityUses(edges[l], EdgeHit(segment, l))
      {
      }
      assert charged.Keys == nodes.Keys && used.Keys == edges.Keys;
      assert WellFormed(charged, used);
      nodes, edges := charged, used;
    }

    /** Charges every link touching one of the given PoPs, visiting the links in any order. */
    method ChargePops(pops: set<string>)
      requires Valid()
      modifies this`edges
      ensures Valid()
      ensures edges.Keys == old(edges).Keys
      ensures forall k :: k in edges ==>
        edges[k] == if TouchesPops(nodes, k, pops) then AddPerPopUse(old(edges)[k]) else old(edges)[k]
    {
      var remaining := edges.Keys;
      while remaining != {}
        invariant Valid()
        invariant edges.Keys == old(edges).Keys && remaining <= edges.Keys
        invariant forall k :: k in edges ==>
          edges[k] == if k !in remaining && TouchesPops(nodes, k, pops) then AddPerPopUse(old(edges)[k]) else old(edges)[k]
        decreases |remaining|
      {
        var k :| k in remaining;
        if TouchesPops(nodes, k, pops) {
          edges := edges[k := AddPerPopUse(edges[k])];
        }
        remaining := remaining - {k};
      }
    }

    /**
     * Charges every link touching a PoP the other flow's path passes through,
     * so that the computed path avoids those PoPs; the path's end PoPs are not
     * charged.
     */
    method ProcessDiversitySegmentsWithPop(segments: seq<PathSegment>)
      requires Valid()
      modifies this`edges
      ensures Valid()
      ensures edges.Keys == old(edges).Keys
      ensures forall k :: k in edges ==>
        edges[k] == if TouchesPops(nodes, k, TransitPops(segments)) then AddPerPopUse(old(edges)[k]) else old(edges)[k]
    {
      if |segments| <= 1 {
        ShortPathHasNoTransitPops(segments);
        return;
      }
      ChargePops(TransitPops(segments));
    }

    /** Whether one of the segments runs over the link. */
    static method IsOnPath(segments: seq<PathSegment>, k: EdgeKey) returns (onPath: bool)
      ensures onPath == OnPath(segments, k)
    {
      onPath := false;
      for j := 0 to |segments|
        invariant onPath <==> exists m :: 0 <= m < j && KeyOf(segments[m]) == k
      {
        if KeyOf(segments[j]) == k {
          onPath := true;
        }
      }
    }

    /**
     * Charges every link that is not on the affinity path, so that the computed
     * path prefers the affinity path's links. The links are visited in any order.
     */
    method ProcessAffinitySegments(segments: seq<PathSegment>)
      requires Valid()
      modifies this`edges
      ensures Valid()
      ensures edges.Keys == old(edges).Keys
      ensures forall k :: k in edges ==>
        edges[k] == if OnPath(segments, k) then old(edges)[k] else AddAffinityUse(old(edges)[k])
    {
      var remaining := edges.Keys;
      while remaining != {}
        invariant Valid()
        invariant edges.Keys == old(edges).Keys && remaining <= edges.Keys
        invariant forall k :: k in edges ==>
          edges[k] == if k in remaining || OnPath(segments, k) then old(edges)[k] else AddAffinityUse(old(edges)[k])
        decreases |remaining|
      {
        var k :| k in remaining;
        var onPath := IsOnPath(segments, k);
        if !onPath {
          edges := edges[k := AddAffinityUse(edges[k])];
        }
        remaining := remaining - {k};
      }
    }

    /** A one-switch flow in the diversity group charges its switch once. */
    method ProcessDiversityGroupForSingleSwitchFlow(srcSwitch: SwitchId)
      requires Valid()
      modifies this`nodes
      ensures Valid()
      ensures nodes.Keys == old(nodes).Keys
      ensures forall s :: s in nodes ==> nodes[s] == if s == srcSwitch then AddSwitchUses(old(nodes)[s], 1) else old(nodes)[s]
    {
      if srcSwitch in nodes {
        nodes := nodes[srcSwitch := AddSwitchUses(nodes[srcSwitch], 1)];
      }
    }
  }

  // ---------------------------------------------------------------------------
  // Networks built link by link, as the path computation's callers build them

  const Cost := 700
  const SrcSwitch: SwitchId := 0x22_3d6c_00b8
  const DstSwitch: SwitchId := 0x22_3d5a_0487
  const OtherSwitches: set<SwitchId> := {1, 2}

  /** A fresh link: in service, stable and not yet charged by any other path. */
  function NewLink(cost: int, latency: int): Edge {
    Edge(cost, latency, false, false, 0, 0, 0)
  }

  /** A segment without PoPs. */
  function Segment(src: SwitchId, dst: SwitchId, srcPort: int, dstPort: int, seqId: nat): PathSegment {
    PathSegment(src, srcPort, dst, dstPort, seqId, None, None)
  }

  /** Adding the same link twice lists it once at each end. */
  method DuplicateLinksScenario() returns (srcOut: set<EdgeKey>, srcIn: set<EdgeKey>, dstOut: set<EdgeKey>, dstIn: set<EdgeKey>)
    ensures |srcOut| == 1 && srcIn == {} && dstOut == {} && |dstIn| == 1
  {
    var network := new AvailableNetwork();
    var k := EdgeKey(SrcSwitch, 7, DstSwitch, 60);
    network.AddEdge(k, NewLink(10, 3), None, None);
    network.AddEdge(k, NewLink(20, 5), None, None);
    srcOut := OutgoingLinks(network.edges, SrcSwitch);
    srcIn := IncomingLinks(network.edges, SrcSwitch);
    dstOut := OutgoingLinks(network.edges, DstSwitch);
    dstIn := IncomingLinks(network.edges, DstSwitch);
    assert srcOut == {k} && dstIn == {k};
  }

  /**
   * Links in opposite directions between two switches are two links, each
   * keeping its own cost, listed as outgoing at one end and incoming at the other.
   */
  method PairedLinksScenario() returns (srcOut: set<EdgeKey>, srcIn: set<EdgeKey>, dstIn: set<EdgeKey>, outCost: int, inCost: int)
    ensures srcOut == {EdgeKey(SrcSwitch, 7, DstSwitch, 60)}
    ensures srcIn == {EdgeKey(DstSwitch, 60, SrcSwitch, 7)}
    ensures dstIn == srcOut
    ensures outCost == 10 && inCost == 20
  {
    var network := new AvailableNetwork();
    var out := EdgeKey(SrcSwitch, 7, DstSwitch, 60);
    var back := EdgeKey(DstSwitch, 60, SrcSwitch, 7);
    network.AddEdge(out, NewLink(10, 3), None, None);
    network.AddEdge(back, NewLink(20, 3), None, None);
    srcOut := OutgoingLinks(network.edges, SrcSwitch);
    srcIn := IncomingLinks(network.edges, SrcSwitch);
    dstIn := IncomingLinks(network.edges, DstSwitch);
    outCost := network.edges[out].cost;
    inCost := network.edges[back].cost;
  }

  /**
   * A switch linked both ways to two neighbours has two outgoing and two
   * incoming links, one of each per neighbour.
   */
  method KeepLinksScenario() returns (srcOut: set<EdgeKey>, srcIn: set<EdgeKey>)
    ensures srcOut == {EdgeKey(SrcSwitch, 1, 0, 1), EdgeKey(SrcSwitch, 2, DstSwitch, 2)}
    ensures srcIn == {EdgeKey(DstSwitch, 1, SrcSwitch, 1), EdgeKey(0, 2, SrcSwitch, 2)}
    ensures |srcOut| == 2 && |srcIn| == 2
  {
    var network := new AvailableNetwork();
    network.AddEdge(EdgeKey(SrcSwitch, 1, 0, 1), NewLink(20, 5), None, None);
    network.AddEdge(EdgeKey(SrcSwitch, 2, DstSwitch, 2), NewLink(10, 3), None, None);
    network.AddEdge(EdgeKey(DstSwitch, 1, SrcSwitch, 1), NewLink(20, 5), None, None);
    network.AddEdge(EdgeKey(0, 2, SrcSwitch, 2), NewLink(10, 3), None, None);
    srcOut := OutgoingLinks(network.edges, SrcSwitch);
    srcIn := IncomingLinks(network.edges, SrcSwitch);
  }

  /**
   * One link and one diverse segment over it: the link is charged once, its
   * destination once and its source once when the segment is the path's
   * first, except for the computed flow's own end switches.
   */
  method OneLinkDiversityScenario(seqId: nat, terminating: set<SwitchId>) returns (edgeUses: nat, srcUses: nat, dstUses: nat)
    ensures edgeUses == 1
    ensures dstUses == if DstSwitch in terminating then 0 else 1
    ensures srcUses == if seqId == 0 && SrcSwitch !in terminating then 1 else 0
  {
    var network := new AvailableNetwork();
    var k := EdgeKey(SrcSwitch, 7, DstSwitch, 60);
    network.AddEdge(k, NewLink(10, 3), None, None);
    var segments := [Segment(SrcSwitch, DstSwitch, 7, 60, seqId)];
    assert segments[..0] == [];
    assert EdgeHits(segments, k) == 1;
    assert NodeHits(segments, terminating, DstSwitch) == if DstSwitch in terminating then 0 else 1;
    assert NodeHits(segments, terminating, SrcSwitch) == if seqId == 0 && SrcSwitch !in terminating then 1 else 0;
    network.ProcessDiversitySegments(segments, terminating);
    edgeUses := network.edges[k].diversityGroupUseCounter;
    srcUses := network.nodes[SrcSwitch].diversityGroupUseCounter;
    dstUses := network.nodes[DstSwitch].diversityGroupUseCounter;
  }

  /** Of three parallel links, only the one the affinity path uses is left uncharged. */
  method AffinityScenario() returns (onPathUses: nat, offPathUses: seq<nat>)
    ensures onPathUses == 0 && offPathUses == [1, 1]
  {
    var network := new AvailableNetwork();
    var used := EdgeKey(SrcSwitch, 7, DstSwitch, 60);
    var second := EdgeKey(SrcSwitch, 8, DstSwitch, 61);
    var third := EdgeKey(SrcSwitch, 9, DstSwitch, 62);
    network.AddEdge(used, NewLink(10, 3), None, None);
    network.AddEdge(second, NewLink(10, 3), None, None);
    network.AddEdge(third, NewLink(10, 3), None, None);
    var segments := [Segment(SrcSwitch, DstSwitch, 7, 60, 0)];
    assert OnPath(segments, used) && !OnPath(segments, second) && !OnPath(segments, third) by {
      assert KeyOf(segments[0]) == used;
    }
    assert network.edges[second] == NewLink(10, 3) && network.edges[third] == NewLink(10, 3);
    network.ProcessAffinitySegments(segments);
    onPathUses := network.edges[used].affinityGroupUseCounter;
    offPathUses := [network.edges[second].affinityGroupUseCounter, network.edges[third].affinityGroupUseCounter];
  }

  /**
   * A = B - C = D with a diverse path over A-B and C-D: the link B-C is not
   * charged, but C is, as the start of a first segment.
   */
  method PartiallyConnectedScenario() returns (linkUses: nat, switchUses: nat)
    ensures linkUses == 0 && switchUses == 1
  {
    var network := new AvailableNetwork();
    var bc := EdgeKey(0xB, 2, 0xC, 2);
    network.AddEdge(EdgeKey(0xA, 1, 0xB, 1), NewLink(10, 3), None, None);
    network.AddEdge(bc, NewLink(10, 3), None, None);
    assert network.nodes[0xC] == Node(None, 0);
    network.AddEdge(EdgeKey(0xC, 3, 0xD, 3), NewLink(10, 3), None, None);
    assert network.nodes[0xC] == Node(None, 0) && network.edges[bc] == NewLink(10, 3);
    var segments := [Segment(0xA, 0xB, 1, 1, 0), Segment(0xC, 0xD, 3, 3, 0)];
    TwoSegmentHits(segments[0], segments[1], OtherSwitches, 0xC, bc);
    assert EdgeHit(segments[0], bc) == 0 && EdgeHit(segments[1], bc) == 0;
    assert 0xC !in OtherSwitches;
    assert NodeHit(segments[0], OtherSwitches, 0xC) == 0 && NodeHit(segments[1], OtherSwitches, 0xC) == 1;
    network.ProcessDiversitySegments(segments, OtherSwitches);
    assert network.edges[bc] == AddDiversityUses(NewLink(10, 3), 0);
    assert network.nodes[0xC] == AddSwitchUses(Node(None, 0), 1);
    linkUses := network.edges[bc].diversityGroupUseCounter;
    switchUses := network.nodes[0xC].diversityGroupUseCounter;
  }

  /**
   * A diverse segment over ports the network has no link for charges no link,
   * but still charges both of its switches.
   */
  method AbsentSegmentScenario() returns (linkUses: nat, srcUses: nat, dstUses: nat)
    ensures linkUses == 0 && srcUses == 1 && dstUses == 1
  {
    var network := new AvailableNetwork();
    var k := EdgeKey(SrcSwitch, 7, DstSwitch, 60);
    network.AddEdge(k, NewLink(10, 3), None, None);
    var segments := [Segment(SrcSwitch, DstSwitch, 1, 2, 0)];
    assert segments[..0] == [];
    assert EdgeHits(segments, k) == 0;
    assert NodeHits(segments, OtherSwitches, SrcSwitch) == 1;
    assert NodeHits(segments, OtherSwitches, DstSwitch) == 1;
    network.ProcessDiversitySegments(segments, OtherSwitches);
    linkUses := network.edges[k].diversityGroupUseCounter;
    srcUses := network.nodes[SrcSwitch].diversityGroupUseCounter;
    dstUses := network.nodes[DstSwitch].diversityGroupUseCounter;
  }

  /** A one-switch flow charges its switch and not the switch's own loop link. */
  method SingleSwitchScenario() returns (switchUses: nat, linkUses: nat)
    ensures switchUses == 1 && linkUses == 0
  {
    var network := new AvailableNetwork();
    var s: SwitchId := 1;
    var loop := EdgeKey(s, 7, s, 60);
    network.AddEdge(loop, NewLink(10, 3), None, None);
    network.ProcessDiversityGroupForSingleSwitchFlow(s);
    switchUses := network.nodes[s].diversityGroupUseCounter;
    linkUses := network.edges[loop].diversityGroupUseCounter;
  }

  const Pop1 := "pop1"
  const Pop2 := "pop2"
  const Pop3 := "pop3"
  const Pop4 := "pop4"

  /** Every link as yet uncharged, and every switch. */
  ghost predicate Uncharged(nodes: map<SwitchId, Node>, edges: map<EdgeKey, Edge>) {
    && (forall k :: k in edges ==> edges[k] == NewLink(Cost, 5))
    && (forall s :: s in nodes ==> nodes[s].diversityGroupUseCounter == 0)
  }

  /**
   * On an uncharged network, PoP diversity adds 1000 to the weight of exactly
   * the links touching one of the charged PoPs.
   */
  lemma PopChargeWeights(nodes: map<SwitchId, Node>, before: map<EdgeKey, Edge>, after: map<EdgeKey, Edge>, pops: set<string>)
    requires WellFormed(nodes, before) && Uncharged(nodes, before)
    requires after.Keys == before.Keys
    requires forall k :: k in after ==>
      after[k] == if TouchesPops(nodes, k, pops) then AddPerPopUse(before[k]) else before[k]
    ensures forall k :: k in after ==>
      && k.src in nodes && k.dst in nodes
      && Weight(after[k], nodes[k.dst]) == (if TouchesPops(nodes, k, pops) then Cost + 1000 else Cost)
  {
  }

  /** Five switches in four PoPs, as the links below create them. */
  const PopSwitches: map<SwitchId, Node> := map[
    1 := Node(Some(Pop1), 0), 2 := Node(Some(Pop2), 0), 3 := Node(Some(Pop4), 0),
    4 := Node(Some(Pop4), 0), 5 := Node(Some(Pop3), 0)]

  /** Six links between the five switches, uncharged. */
  const PopLinks: map<EdgeKey, Edge> := map[
    EdgeKey(1, 1, 2, 2) := NewLink(Cost, 5), EdgeKey(1, 2, 3, 1) := NewLink(Cost, 5),
    EdgeKey(1, 3, 4, 1) := NewLink(Cost, 5), EdgeKey(5, 1, 4, 2) := NewLink(Cost, 5),
    EdgeKey(5, 2, 3, 2) := NewLink(Cost, 5), EdgeKey(5, 3, 2, 2) := NewLink(Cost, 5)]

  /** The network of the PoP test, built link by link as the test adds its links. */
  method BuildPopNetwork() returns (network: AvailableNetwork)
    ensures fresh(network)
    ensures network.Valid() && network.nodes == PopSwitches && network.edges == PopLinks
  {
    var link := NewLink(Cost, 5);
    network := new AvailableNetwork();
    network.AddEdge(EdgeKey(1, 1, 2, 2), link, Some(Pop1), Some(Pop2));
    assert network.nodes == map[1 := Node(Some(Pop1), 0), 2 := Node(Some(Pop2), 0)];
    network.AddEdge(EdgeKey(1, 2, 3, 1), link, Some(Pop1), Some(Pop4));
    assert network.nodes == map[1 := Node(Some(Pop1), 0), 2 := Node(Some(Pop2), 0), 3 := Node(Some(Pop4), 0)];
    network.AddEdge(EdgeKey(1, 3, 4, 1), link, Some(Pop1), Some(Pop4));
    assert network.nodes == PopSwitches - {5};
    network.AddEdge(EdgeKey(5, 1, 4, 2), link, Some(Pop3), Some(Pop4));
    assert network.nodes == PopSwitches;
    network.AddEdge(EdgeKey(5, 2, 3, 2), link, Some(Pop3), Some(Pop4));
    network.AddEdge(EdgeKey(5, 3, 2, 2), link, Some(Pop3), Some(Pop2));
  }

  /**
   * A diverse path 1 -> 3 -> 5 through pop4 over the network above: every link
   * touching pop4 weighs 1000 more, every other link its cost.
   */
  method PopPenaltyScenario() returns (network: AvailableNetwork)
    ensures network.edges.Keys == PopLinks.Keys && network.nodes == PopSwitches
    ensures forall k :: k in network.edges ==>
      && k.src in network.nodes && k.dst in network.nodes
      && Weight(network.edges[k], network.nodes[k.dst])
         == (if network.nodes[k.src].pop == Some(Pop4) || network.nodes[k.dst].pop == Some(Pop4) then Cost + 1000 else Cost)
  {
    network := BuildPopNetwork();
    assert Uncharged(PopSwitches, PopLinks);
    var segments := [
      PathSegment(1, 2, 3, 1, 0, Some(Pop1), Some(Pop4)),
      PathSegment(3, 2, 5, 2, 1, Some(Pop4), Some(Pop3))];
    assert TransitPops(segments) == {Pop4} by {
      assert segments[1].srcPop == Some(Pop4);
    }
    network.ProcessDiversitySegmentsWithPop(segments);
    PopChargeWeights(PopSwitches, PopLinks, network.edges, {Pop4});
  }

}

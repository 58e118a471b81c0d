// How much the paths of a flow share with the paths of the other flows of its
// diverse group, and the run of segments that a set of paths shares from their
// common source switch.

module IntersectionComputer {
  import opened Wrappers

  /** A hop between two switch ports, in the direction the path takes it. */
  datatype PathSegment = PathSegment(srcSwitch: string, srcPort: int, destSwitch: string, destPort: int)

  /** One direction of one flow: its id, its flow, its end switches and its hops in order. */
  datatype FlowPath = FlowPath(
    pathId: string, flowId: string, srcSwitch: string, destSwitch: string, segments: seq<PathSegment>)

  /** Shared islands and switches, as counts and as truncated percentages of the compared flow's own. */
  datatype OverlappingSegmentsStats = OverlappingSegmentsStats(
    islCount: nat, switchCount: nat, islPercent: nat, switchPercent: nat)

  const ZeroStats := OverlappingSegmentsStats(0, 0, 0, 0)

  // ---------------------------------------------------------------------------
  // Overlap statistics

  /** A switch port. */
  datatype Endpoint = Endpoint(switchId: string, port: int)

  /** An island link as a pair of ports, whichever direction a path takes it. */
  function EdgeOf(s: PathSegment): set<Endpoint> {
    {Endpoint(s.srcSwitch, s.srcPort), Endpoint(s.destSwitch, s.destPort)}
  }

  function Swapped(s: PathSegment): PathSegment {
    PathSegment(s.destSwitch, s.destPort, s.srcSwitch, s.srcPort)
  }

  /** A forward hop and the reverse hop over the same link are the same link. */
  lemma EdgeIgnoresDirection(s: PathSegment)
    ensures EdgeOf(Swapped(s)) == EdgeOf(s)
    ensures Swapped(Swapped(s)) == s
  {
  }

  /** The links of a path's hops. */
  function SegmentEdges(segments: seq<PathSegment>): set<set<Endpoint>> {
    if segments == [] then {}
    else SegmentEdges(segments[..|segments| - 1]) + {EdgeOf(segments[|segments| - 1])}
  }

  /** The switches at either end of a path's hops. */
  function SegmentSwitches(segments: seq<PathSegment>): set<string> {
    if segments == [] then {}
    else
      var last := segments[|segments| - 1];
      SegmentSwitches(segments[..|segments| - 1]) + {last.srcSwitch, last.destSwitch}
  }

  /** The links of a collection of paths. */
  function Edges(paths: seq<FlowPath>): set<set<Endpoint>> {
    if paths == [] then {}
    else Edges(paths[..|paths| - 1]) + SegmentEdges(paths[|paths| - 1].segments)
  }

  /** The switches of a collection of paths: their end switches and both ends of every hop. */
  function Switches(paths: seq<FlowPath>): set<string> {
    if paths == [] then {}
    else
      var last := paths[|paths| - 1];
      Switches(paths[..|paths| - 1]) + {last.srcSwitch, last.destSwitch} + SegmentSwitches(last.segments)
  }

  lemma {:induction false} SegmentEdgesMembers(segments: seq<PathSegment>)
    ensures forall e :: e in SegmentEdges(segments) <==> exists s :: s in segments && e == EdgeOf(s)
    decreases |segments|
  {
    if segments != [] {
      SegmentEdgesMembers(segments[..|segments| - 1]);
      assert segments == segments[..|segments| - 1] + [segments[|segments| - 1]];
    }
  }

  /** A link counts for a collection exactly when one of its paths takes it, in either direction. */
  lemma {:induction false} EdgesMembers(paths: seq<FlowPath>)
    ensures forall e :: e in Edges(paths) <==> exists p, s :: p in paths && s in p.segments && e == EdgeOf(s)
    decreases |paths|
  {
    if paths != [] {
      var init := paths[..|paths| - 1];
      var last := paths[|paths| - 1];
      EdgesMembers(init);
      SegmentEdgesMembers(last.segments);
      assert paths == init + [last];
      forall e | e in Edges(paths)
        ensures exists p, s :: p in paths && s in p.segments && e == EdgeOf(s)
      {
        if e in Edges(init) {
          var p, s :| p in init && s in p.segments && e == EdgeOf(s);
          assert p in paths;
        } else {
          var s :| s in last.segments && e == EdgeOf(s);
          assert last in paths;
        }
      }
    }
  }

  /** The paths with the given ids: the two directions of the compared flow. */
  function PathsWithIds(paths: seq<FlowPath>, forwardPathId: string, reversePathId: string): seq<FlowPath> {
    if paths == [] then []
    else
      var last := paths[|paths| - 1];
      PathsWithIds(paths[..|paths| - 1], forwardPathId, reversePathId)
        + (if last.pathId == forwardPathId || last.pathId == reversePathId then [last] else [])
  }

  /** The paths that belong to flows other than the given one. */
  function OtherFlowPaths(paths: seq<FlowPath>, flowId: string): seq<FlowPath> {
    if paths == [] then []
    else
      var last := paths[|paths| - 1];
      OtherFlowPaths(paths[..|paths| - 1], flowId) + (if last.flowId != flowId then [last] else [])
  }

  lemma {:induction false} PathsWithIdsMembers(paths: seq<FlowPath>, forwardPathId: string, reversePathId: string)
    ensures forall p :: p in PathsWithIds(paths, forwardPathId, reversePathId) <==>
      p in paths && (p.pathId == forwardPathId || p.pathId == reversePathId)
    decreases |paths|
  {
    if paths != [] {
      PathsWithIdsMembers(paths[..|paths| - 1], forwardPathId, reversePathId);
      assert paths == paths[..|paths| - 1] + [paths[|paths| - 1]];
    }
  }

  lemma {:induction false} OtherFlowPathsMembers(paths: seq<FlowPath>, flowId: string)
    ensures forall p :: p in OtherFlowPaths(paths, flowId) <==> p in paths && p.flowId != flowId
    decreases |paths|
  {
    if paths != [] {
      OtherFlowPathsMembers(paths[..|paths| - 1], flowId);
      assert paths == paths[..|paths| - 1] + [paths[|paths| - 1]];
    }
  }

  /** A share as a whole percentage, truncated; nothing of nothing is 0. */
  function Percent(n: nat, from: nat): nat {
    if from == 0 then 0 else n * 100 / from
  }

  /**
   * The percentage is the whole part of the share: it times the total is at most
   * a hundred times the part, one more would exceed it.
   */
  lemma PercentTruncates(n: nat, from: nat)
    requires from > 0
    ensures Percent(n, from) * from <= n * 100 < (Percent(n, from) + 1) * from
  {
    var r := n * 100 / from;
    assert n * 100 == r * from + n * 100 % from;
    assert (r + 1) * from == r * from + from;
  }

  /** A part of the total gives at most 100, and exactly 100 only for the whole of a non-empty total. */
  lemma PercentSpec(n: nat, from: nat)
    requires n <= from
    ensures Percent(n, from) <= 100
    ensures Percent(n, from) == 100 <==> from > 0 && n == from
  {
    if from > 0 {
      var r := Percent(n, from);
      PercentTruncates(n, from);
      if r > 100 {
        MulAtLeast(r, 101, from);
      }
      if r == 100 {
        assert 100 * from <= n * 100;
      }
      if n == from {
        assert (r + 1) * from > from * 100;
        if r < 100 {
          MulAtLeast(100, r + 1, from);
        }
      }
    }
  }

  lemma MulAtLeast(x: nat, y: nat, z: nat)
    requires x >= y
    ensures x * z >= y * z
  {
    assert x * z == y * z + (x - y) * z;
  }

  /**
   * The computer over the paths of a diverse group: the links and switches of
   * the compared flow's two paths, and the paths of the other flows.
   */
  datatype Computer = Computer(
    targetEdges: set<set<Endpoint>>, targetSwitches: set<string>, otherPaths: seq<FlowPath>)

  function NewComputer(flowId: string, forwardPathId: string, reversePathId: string, paths: seq<FlowPath>)
    : (c: Computer)
    ensures c.targetEdges == Edges(PathsWithIds(paths, forwardPathId, reversePathId))
    ensures c.targetSwitches == Switches(PathsWithIds(paths, forwardPathId, reversePathId))
    ensures forall p :: p in c.otherPaths <==> p in paths && p.flowId != flowId
  {
    OtherFlowPathsMembers(paths, flowId);
    var target := PathsWithIds(paths, forwardPathId, reversePathId);
    Computer(Edges(target), Switches(target), OtherFlowPaths(paths, flowId))
  }

  /** The counters for a chosen set of the other flows' paths. */
  function Counters(c: Computer, edges: set<set<Endpoint>>, switches: set<string>): OverlappingSegmentsStats {
    var islOverlap := |edges * c.targetEdges|;
    var switchOverlap := |switches * c.targetSwitches|;
    OverlappingSegmentsStats(islOverlap, switchOverlap,
      Percent(islOverlap, |c.targetEdges|), Percent(switchOverlap, |c.targetSwitches|))
  }

  /** The overlap of the compared flow with all other flows of the group. */
  function GetOverlappingStats(c: Computer): OverlappingSegmentsStats {
    Counters(c, Edges(c.otherPaths), Switches(c.otherPaths))
  }

  /** The overlap of the compared flow with the other-flow paths of the given ids. */
  function GetOverlappingStatsOf(c: Computer, forwardPathId: string, reversePathId: string): OverlappingSegmentsStats {
    var chosen := PathsWithIds(c.otherPaths, forwardPathId, reversePathId);
    Counters(c, Edges(chosen), Switches(chosen))
  }

  /** Counts never exceed the compared flow's own links and switches; percentages stay within 0..100. */
  lemma CountersBounded(c: Computer, edges: set<set<Endpoint>>, switches: set<string>)
    ensures var r := Counters(c, edges, switches);
      && r.islCount <= |c.targetEdges| && r.switchCount <= |c.targetSwitches|
      && r.islPercent <= 100 && r.switchPercent <= 100
      && (r.islPercent == 100 <==> c.targetEdges != {} && c.targetEdges <= edges)
      && (r.switchPercent == 100 <==> c.targetSwitches != {} && c.targetSwitches <= switches)
  {
    SubsetSize(edges * c.targetEdges, c.targetEdges);
    SubsetSize(switches * c.targetSwitches, c.targetSwitches);
    PercentSpec(|edges * c.targetEdges|, |c.targetEdges|);
    PercentSpec(|switches * c.targetSwitches|, |c.targetSwitches|);
    assert edges * c.targetEdges == c.targetEdges <==> c.targetEdges <= edges;
    assert switches * c.targetSwitches == c.targetSwitches <==> c.targetSwitches <= switches;
  }

  /** A part of a finite set is no larger, and as large only when it is the whole set. */
  lemma {:induction false} SubsetSize<T>(part: set<T>, whole: set<T>)
    requires part <= whole
    ensures |part| <= |whole|
    ensures |part| == |whole| <==> part == whole
    decreases |whole|
  {
    if part != whole {
      var x :| x in whole && x !in part;
      assert part <= whole - {x};
      SubsetSize(part, whole - {x});
    }
  }

  /**
   * Nothing to compare against gives zero counters: no paths at all, or only
   * paths of the compared flow itself, whichever paths are asked for.
   */
  lemma NoOtherFlowsGivesZeroStats(
    flowId: string, forwardPathId: string, reversePathId: string, paths: seq<FlowPath>,
    askedForward: string, askedReverse: string)
    requires forall i :: 0 <= i < |paths| ==> paths[i].flowId == flowId
    ensures var c := NewComputer(flowId, forwardPathId, reversePathId, paths);
      GetOverlappingStats(c) == ZeroStats && GetOverlappingStatsOf(c, askedForward, askedReverse) == ZeroStats
  {
    OwnPathsOnly(paths, flowId);
  }

  /** Only the compared flow's own paths leave no other-flow paths. */
  lemma {:induction false} OwnPathsOnly(paths: seq<FlowPath>, flowId: string)
    requires forall i :: 0 <= i < |paths| ==> paths[i].flowId == flowId
    ensures OtherFlowPaths(paths, flowId) == []
  {
    if paths != [] {
      OwnPathsOnly(paths[..|paths| - 1], flowId);
    }
  }

  /** Other paths whose ids are not asked for count as nothing. */
  lemma UnaskedPathsGiveZeroStats(c: Computer, askedForward: string, askedReverse: string)
    requires forall i :: 0 <= i < |c.otherPaths| ==>
      c.otherPaths[i].pathId != askedForward && c.otherPaths[i].pathId != askedReverse
    ensures GetOverlappingStatsOf(c, askedForward, askedReverse) == ZeroStats
  {
    PathsWithIdsMembers(c.otherPaths, askedForward, askedReverse);
  }

  // Each collection function distributes over concatenation, so that the
  // examples below can be computed one path at a time.

  lemma {:induction false} SegmentEdgesConcat(xs: seq<PathSegment>, ys: seq<PathSegment>)
    ensures SegmentEdges(xs + ys) == SegmentEdges(xs) + SegmentEdges(ys)
    decreases |ys|
  {
    if ys == [] {
      assert xs + ys == xs;
    } else {
      assert (xs + ys)[..|xs + ys| - 1] == xs + ys[..|ys| - 1];
      SegmentEdgesConcat(xs, ys[..|ys| - 1]);
    }
  }

  lemma {:induction false} SegmentSwitchesConcat(xs: seq<PathSegment>, ys: seq<PathSegment>)
    ensures SegmentSwitches(xs + ys) == SegmentSwitches(xs) + SegmentSwitches(ys)
    decreases |ys|
  {
    if ys == [] {
      assert xs + ys == xs;
    } else {
      assert (xs + ys)[..|xs + ys| - 1] == xs + ys[..|ys| - 1];
      SegmentSwitchesConcat(xs, ys[..|ys| - 1]);
    }
  }

  lemma {:induction false} EdgesConcat(xs: seq<FlowPath>, ys: seq<FlowPath>)
    ensures Edges(xs + ys) == Edges(xs) + Edges(ys)
    decreases |ys|
  {
    if ys == [] {
      assert xs + ys == xs;
    } else {
      assert (xs + ys)[..|xs + ys| - 1] == xs + ys[..|ys| - 1];
      EdgesConcat(xs, ys[..|ys| - 1]);
    }
  }

  lemma {:induction false} SwitchesConcat(xs: seq<FlowPath>, ys: seq<FlowPath>)
    ensures Switches(xs + ys) == Switches(xs) + Switches(ys)
    decreases |ys|
  {
    if ys == [] {
      assert xs + ys == xs;
    } else {
      assert (xs + ys)[..|xs + ys| - 1] == xs + ys[..|ys| - 1];
      SwitchesConcat(xs, ys[..|ys| - 1]);
    }
  }

  lemma {:induction false} PathsWithIdsConcat(xs: seq<FlowPath>, ys: seq<FlowPath>, forwardPathId: string, reversePathId: string)
    ensures PathsWithIds(xs + ys, forwardPathId, reversePathId)
      == PathsWithIds(xs, forwardPathId, reversePathId) + PathsWithIds(ys, forwardPathId, reversePathId)
    decreases |ys|
  {
    if ys == [] {
      assert xs + ys == xs;
    } else {
      assert (xs + ys)[..|xs + ys| - 1] == xs + ys[..|ys| - 1];
      PathsWithIdsConcat(xs, ys[..|ys| - 1], forwardPathId, reversePathId);
    }
  }

  lemma {:induction false} OtherFlowPathsConcat(xs: seq<FlowPath>, ys: seq<FlowPath>, flowId: string)
    ensures OtherFlowPaths(xs + ys, flowId) == OtherFlowPaths(xs, flowId) + OtherFlowPaths(ys, flowId)
    decreases |ys|
  {
    if ys == [] {
      assert xs + ys == xs;
    } else {
      assert (xs + ys)[..|xs + ys| - 1] == xs + ys[..|ys| - 1];
      OtherFlowPathsConcat(xs, ys[..|ys| - 1], flowId);
    }
  }

  /** The functions on a single path or a single hop. */
  lemma Singletons(p: FlowPath, s: PathSegment)
    ensures Edges([p]) == SegmentEdges(p.segments) && SegmentEdges([s]) == {EdgeOf(s)}
    ensures Switches([p]) == {p.srcSwitch, p.destSwitch} + SegmentSwitches(p.segments)
    ensures SegmentSwitches([s]) == {s.srcSwitch, s.destSwitch}
  {
    assert [p][..0] == [] && [s][..0] == [];
  }

  // The compared flow of the statistics examples runs A-B-C over ports 1 and 2,
  // forward and back; the other flow's paths are chosen per example.

  function Seg(a: string, ap: int, b: string, bp: int): PathSegment { PathSegment(a, ap, b, bp) }

  const ForwardAbc := FlowPath("old-path", "flow-id", "A", "C", [Seg("A", 1, "B", 1), Seg("B", 2, "C", 2)])
  const ReverseAbc := FlowPath("old-path-reverse", "flow-id", "A", "C", [Seg("C", 2, "B", 2), Seg("B", 1, "A", 1)])
  const LinkAb := {Endpoint("A", 1), Endpoint("B", 1)}
  const LinkBc := {Endpoint("B", 2), Endpoint("C", 2)}

  /** The links and switches of a path, computed hop by hop. */
  lemma TwoHopPath(p: FlowPath)
    requires |p.segments| == 2
    ensures Edges([p]) == {EdgeOf(p.segments[0]), EdgeOf(p.segments[1])}
    ensures Switches([p]) == {p.srcSwitch, p.destSwitch, p.segments[0].srcSwitch, p.segments[0].destSwitch,
      p.segments[1].srcSwitch, p.segments[1].destSwitch}
  {
    Singletons(p, p.segments[0]);
    Singletons(p, p.segments[1]);
    assert p.segments == [p.segments[0]] + [p.segments[1]];
    SegmentEdgesConcat([p.segments[0]], [p.segments[1]]);
    SegmentSwitchesConcat([p.segments[0]], [p.segments[1]]);
  }

  /** No path carries one of the ids: none is chosen. */
  lemma {:induction false} PathsWithIdsNone(paths: seq<FlowPath>, forwardPathId: string, reversePathId: string)
    requires forall i :: 0 <= i < |paths| ==> paths[i].pathId != forwardPathId && paths[i].pathId != reversePathId
    ensures PathsWithIds(paths, forwardPathId, reversePathId) == []
    decreases |paths|
  {
    if paths != [] {
      PathsWithIdsNone(paths[..|paths| - 1], forwardPathId, reversePathId);
    }
  }

  lemma AbcTargetAlone()
    ensures PathsWithIds([ForwardAbc, ReverseAbc], "old-path", "old-path-reverse") == [ForwardAbc, ReverseAbc]
  {
    PathsWithIdsConcat([ForwardAbc], [ReverseAbc], "old-path", "old-path-reverse");
    assert [ForwardAbc, ReverseAbc] == [ForwardAbc] + [ReverseAbc];
    assert PathsWithIds([ForwardAbc], "old-path", "old-path-reverse") == [ForwardAbc] by {
      assert [ForwardAbc][..0] == [];
    }
    assert PathsWithIds([ReverseAbc], "old-path", "old-path-reverse") == [ReverseAbc] by {
      assert [ReverseAbc][..0] == [];
    }
  }

  /** Only the two paths of the compared flow carry its path ids. */
  lemma AbcTarget(others: seq<FlowPath>)
    requires forall i :: 0 <= i < |others| ==> others[i].pathId != "old-path" && others[i].pathId != "old-path-reverse"
    ensures PathsWithIds([ForwardAbc, ReverseAbc] + others, "old-path", "old-path-reverse") == [ForwardAbc, ReverseAbc]
  {
    PathsWithIdsNone(others, "old-path", "old-path-reverse");
    var none := PathsWithIds(others, "old-path", "old-path-reverse");
    var both := [ForwardAbc, ReverseAbc];
    AbcTargetAlone();
    PathsWithIdsConcat(both, others, "old-path", "old-path-reverse");
    assert both + none == both;
  }

  lemma AbcEdges()
    ensures Edges([ForwardAbc, ReverseAbc]) == {LinkAb, LinkBc}
    ensures |{LinkAb, LinkBc}| == 2
  {
    assert [ForwardAbc, ReverseAbc] == [ForwardAbc] + [ReverseAbc];
    EdgesConcat([ForwardAbc], [ReverseAbc]);
    TwoHopPath(ForwardAbc);
    TwoHopPath(ReverseAbc);
    assert EdgeOf(ForwardAbc.segments[0]) == LinkAb && EdgeOf(ReverseAbc.segments[1]) == LinkAb;
    assert EdgeOf(ForwardAbc.segments[1]) == LinkBc && EdgeOf(ReverseAbc.segments[0]) == LinkBc;
    assert Endpoint("A", 1) in LinkAb && Endpoint("A", 1) !in LinkBc;
  }

  lemma AbcSwitches()
    ensures Switches([ForwardAbc, ReverseAbc]) == {"A", "B", "C"}
    ensures |{"A", "B", "C"}| == 3
  {
    assert [ForwardAbc, ReverseAbc] == [ForwardAbc] + [ReverseAbc];
    SwitchesConcat([ForwardAbc], [ReverseAbc]);
    TwoHopPath(ForwardAbc);
    TwoHopPath(ReverseAbc);
  }

  /** The compared flow of the examples has two links and three switches. */
  lemma CompareAbcFlow(others: seq<FlowPath>)
    requires forall i :: 0 <= i < |others| ==> others[i].pathId != "old-path" && others[i].pathId != "old-path-reverse"
    ensures var c := NewComputer("flow-id", "old-path", "old-path-reverse", [ForwardAbc, ReverseAbc] + others);
      && c.targetEdges == {LinkAb, LinkBc} && c.targetSwitches == {"A", "B", "C"}
      && |c.targetEdges| == 2 && |c.targetSwitches| == 3
  {
    AbcTarget(others);
    AbcEdges();
    AbcSwitches();
  }

  /** The other-flow paths with the asked ids, when the group holds the compared flow and then one other path. */
  lemma ChosenOfOne(other: FlowPath, askedForward: string, askedReverse: string)
    requires other.flowId != "flow-id" && other.pathId != "old-path" && other.pathId != "old-path-reverse"
    requires other.pathId == askedForward
    ensures var c := NewComputer("flow-id", "old-path", "old-path-reverse", [ForwardAbc, ReverseAbc, other]);
      c.otherPaths == [other] && PathsWithIds(c.otherPaths, askedForward, askedReverse) == [other]
  {
    assert [ForwardAbc, ReverseAbc, other] == [ForwardAbc] + [ReverseAbc] + [other];
    OtherFlowPathsConcat([ForwardAbc] + [ReverseAbc], [other], "flow-id");
    OtherFlowPathsConcat([ForwardAbc], [ReverseAbc], "flow-id");
    assert [ForwardAbc][..0] == [] && [ReverseAbc][..0] == [] && [other][..0] == [];
  }

  /** A one-hop path of another flow over the first link shares one of two links and two of three switches. */
  lemma PartialIntersectionExample()
    ensures var other := FlowPath("new-path", "new-flow-id", "A", "B", [Seg("A", 1, "B", 1)]);
      var c := NewComputer("flow-id", "old-path", "old-path-reverse", [ForwardAbc, ReverseAbc, other]);
      GetOverlappingStatsOf(c, "new-path", "new-path-reverse") == OverlappingSegmentsStats(1, 2, 50, 66)
  {
    var other := FlowPath("new-path", "new-flow-id", "A", "B", [Seg("A", 1, "B", 1)]);
    var paths := [ForwardAbc, ReverseAbc, other];
    assert paths == [ForwardAbc, ReverseAbc] + [other];
    CompareAbcFlow([other]);
    ChosenOfOne(other, "new-path", "new-path-reverse");
    var c := NewComputer("flow-id", "old-path", "old-path-reverse", paths);
    Singletons(other, other.segments[0]);
    assert Edges([other]) == {LinkAb} && Switches([other]) == {"A", "B"};
    PartialCounters(c);
  }

  lemma PartialCounters(c: Computer)
    requires c.targetEdges == {LinkAb, LinkBc} && c.targetSwitches == {"A", "B", "C"}
    requires |c.targetEdges| == 2 && |c.targetSwitches| == 3
    ensures Counters(c, {LinkAb}, {"A", "B"}) == OverlappingSegmentsStats(1, 2, 50, 66)
  {
    assert {LinkAb} * c.targetEdges == {LinkAb};
    assert {"A", "B"} * c.targetSwitches == {"A", "B"};
  }

  /** Another flow on exactly the same links shares everything. */
  lemma FullIntersectionExample()
    ensures var fwd := FlowPath("new-path", "new-flow-id", "A", "C", ForwardAbc.segments);
      var rev := FlowPath("new-path-reverse", "new-flow-id", "A", "C", ReverseAbc.segments);
      var c := NewComputer("flow-id", "old-path", "old-path-reverse", [ForwardAbc, ReverseAbc, fwd, rev]);
      GetOverlappingStatsOf(c, "new-path", "new-path-reverse") == OverlappingSegmentsStats(2, 3, 100, 100)
  {
    var fwd := FlowPath("new-path", "new-flow-id", "A", "C", ForwardAbc.segments);
    var rev := FlowPath("new-path-reverse", "new-flow-id", "A", "C", ReverseAbc.segments);
    var paths := [ForwardAbc, ReverseAbc, fwd, rev];
    assert paths == [ForwardAbc, ReverseAbc] + [fwd, rev];
    CompareAbcFlow([fwd, rev]);
    var c := NewComputer("flow-id", "old-path", "old-path-reverse", paths);
    OtherCopyOfAbcChosen(fwd, rev);
    OtherCopyOfAbcLinks(fwd, rev);
    FullCounters(c);
  }

  lemma FullCounters(c: Computer)
    requires c.targetEdges == {LinkAb, LinkBc} && c.targetSwitches == {"A", "B", "C"}
    requires |c.targetEdges| == 2 && |c.targetSwitches| == 3
    ensures Counters(c, {LinkAb, LinkBc}, {"A", "B", "C"}) == OverlappingSegmentsStats(2, 3, 100, 100)
  {
    assert {LinkAb, LinkBc} * c.targetEdges == c.targetEdges;
    assert {"A", "B", "C"} * c.targetSwitches == c.targetSwitches;
  }

  /** The other flow of the full-overlap example: both its paths are chosen. */
  lemma OtherCopyOfAbcChosen(fwd: FlowPath, rev: FlowPath)
    requires fwd == FlowPath("new-path", "new-flow-id", "A", "C", ForwardAbc.segments)
    requires rev == FlowPath("new-path-reverse", "new-flow-id", "A", "C", ReverseAbc.segments)
    ensures var c := NewComputer("flow-id", "old-path", "old-path-reverse", [ForwardAbc, ReverseAbc, fwd, rev]);
      PathsWithIds(c.otherPaths, "new-path", "new-path-reverse") == [fwd, rev]
  {
    var paths := [ForwardAbc, ReverseAbc, fwd, rev];
    assert paths == [ForwardAbc, ReverseAbc] + [fwd, rev];
    assert [ForwardAbc, ReverseAbc] == [ForwardAbc] + [ReverseAbc] && [fwd, rev] == [fwd] + [rev];
    OtherFlowPathsConcat([ForwardAbc, ReverseAbc], [fwd, rev], "flow-id");
    OtherFlowPathsConcat([ForwardAbc], [ReverseAbc], "flow-id");
    OtherFlowPathsConcat([fwd], [rev], "flow-id");
    assert [ForwardAbc][..0] == [] && [ReverseAbc][..0] == [] && [fwd][..0] == [] && [rev][..0] == [];
    assert OtherFlowPaths(paths, "flow-id") == [fwd, rev];
    PathsWithIdsConcat([fwd], [rev], "new-path", "new-path-reverse");
  }

  /** The other flow of the full-overlap example takes the same links and switches. */
  lemma OtherCopyOfAbcLinks(fwd: FlowPath, rev: FlowPath)
    requires fwd == FlowPath("new-path", "new-flow-id", "A", "C", ForwardAbc.segments)
    requires rev == FlowPath("new-path-reverse", "new-flow-id", "A", "C", ReverseAbc.segments)
    ensures Edges([fwd, rev]) == {LinkAb, LinkBc} && Switches([fwd, rev]) == {"A", "B", "C"}
  {
    assert [fwd, rev] == [fwd] + [rev];
    EdgesConcat([fwd], [rev]);
    SwitchesConcat([fwd], [rev]);
    TwoHopPath(fwd);
    TwoHopPath(rev);
    assert EdgeOf(fwd.segments[0]) == LinkAb && EdgeOf(fwd.segments[1]) == LinkBc;
    assert EdgeOf(rev.segments[0]) == LinkBc && EdgeOf(rev.segments[1]) == LinkAb;
  }

  /** A one-switch path of another flow at the source shares one of three switches and no link. */
  lemma OneSwitchAtSourceExample()
    ensures var other := FlowPath("new-path", "new-flow-id", "A", "A", []);
      var c := NewComputer("flow-id", "old-path", "old-path-reverse", [ForwardAbc, ReverseAbc, other]);
      && GetOverlappingStats(c) == OverlappingSegmentsStats(0, 1, 0, 33)
      && GetOverlappingStatsOf(c, "new-path", "new-path-reverse") == OverlappingSegmentsStats(0, 1, 0, 33)
  {
    var other := FlowPath("new-path", "new-flow-id", "A", "A", []);
    var paths := [ForwardAbc, ReverseAbc, other];
    assert paths == [ForwardAbc, ReverseAbc] + [other];
    CompareAbcFlow([other]);
    ChosenOfOne(other, "new-path", "new-path-reverse");
    var c := NewComputer("flow-id", "old-path", "old-path-reverse", paths);
    Singletons(other, Seg("A", 1, "A", 1));
    assert Edges([other]) == {} && Switches([other]) == {"A"};
    OneSwitchCounters(c);
  }

  lemma OneSwitchCounters(c: Computer)
    requires c.targetEdges == {LinkAb, LinkBc} && c.targetSwitches == {"A", "B", "C"}
    requires |c.targetEdges| == 2 && |c.targetSwitches| == 3
    ensures Counters(c, {}, {"A"}) == OverlappingSegmentsStats(0, 1, 0, 33)
  {
    assert {"A"} * c.targetSwitches == {"A"};
  }

  /** Two one-switch flows on the same switch share that switch entirely. */
  lemma TwoOneSwitchFlowsExample()
    ensures var first := FlowPath("old-path", "flow-id", "A", "A", []);
      var second := FlowPath("new-path", "new-flow-id", "A", "A", []);
      var c := NewComputer("flow-id", "old-path", "old-path-reverse", [first, second]);
      GetOverlappingStats(c) == OverlappingSegmentsStats(0, 1, 0, 100)
  {
    var first := FlowPath("old-path", "flow-id", "A", "A", []);
    var second := FlowPath("new-path", "new-flow-id", "A", "A", []);
    assert [first, second] == [first] + [second];
    assert [first][..0] == [] && [second][..0] == [];
    PathsWithIdsConcat([first], [second], "old-path", "old-path-reverse");
    OtherFlowPathsConcat([first], [second], "flow-id");
    Singletons(first, Seg("A", 1, "A", 1));
    Singletons(second, Seg("A", 1, "A", 1));
    var c := NewComputer("flow-id", "old-path", "old-path-reverse", [first, second]);
    assert c.targetEdges == {} && c.targetSwitches == {"A"};
    assert c.otherPaths == [second];
  }

  // ---------------------------------------------------------------------------
  // The path shared from the source

  /** Why paths have no common run from a source. */
  datatype IntersectionError = TooFewPaths | EmptyPath | DifferentSources

  /** Every path has a hop at the given position, and all those hops are the first path's. */
  predicate AgreeAt(paths: seq<FlowPath>, i: nat)
    requires paths != []
  {
    && i < |paths[0].segments|
    && forall k :: 0 <= k < |paths| ==> i < |paths[k].segments| && paths[k].segments[i] == paths[0].segments[i]
  }

  /** The hops from position `i` on, for as long as every path takes the same hop. */
  function CommonRun(paths: seq<FlowPath>, i: nat): seq<PathSegment>
    requires paths != []
    decreases |paths[0].segments| - i
  {
    if i < |paths[0].segments| && AgreeAt(paths, i) then [paths[0].segments[i]] + CommonRun(paths, i + 1)
    else []
  }

  /**
   * The hops every path shares from the common source switch. Fewer than two
   * paths, a path without hops, or a path starting elsewhere than the first is
   * an illegal argument.
   */
  function CalculatePathIntersectionFromSource(paths: seq<FlowPath>): Result<seq<PathSegment>, IntersectionError> {
    if |paths| < 2 then Err(TooFewPaths)
    else if exists k :: 0 <= k < |paths| && paths[k].segments == [] then Err(EmptyPath)
    else if exists k :: 0 <= k < |paths| && paths[k].segments[0].srcSwitch != paths[0].segments[0].srcSwitch
    then Err(DifferentSources)
    else Ok(CommonRun(paths, 0))
  }

  /** The common run from `i` is a run of the hops all paths share, and stops where they part or one ends. */
  lemma {:induction false} CommonRunSpec(paths: seq<FlowPath>, i: nat)
    requires paths != []
    requires forall k :: 0 <= k < |paths| ==> i <= |paths[k].segments|
    ensures var r := CommonRun(paths, i);
      && (forall k :: 0 <= k < |paths| ==> i + |r| <= |paths[k].segments| && paths[k].segments[i..i + |r|] == r)
      && !AgreeAt(paths, i + |r|)
    decreases |paths[0].segments| - i
  {
    if i < |paths[0].segments| && AgreeAt(paths, i) {
      CommonRunSpec(paths, i + 1);
      var rest := CommonRun(paths, i + 1);
      forall k | 0 <= k < |paths|
        ensures paths[k].segments[i..i + 1 + |rest|] == [paths[0].segments[i]] + rest
      {
        assert paths[k].segments[i..i + 1 + |rest|] == [paths[k].segments[i]] + paths[k].segments[i + 1..i + 1 + |rest|];
      }
    } else if i >= |paths[0].segments| {
      assert !(i < |paths[0].segments[..]|);
    }
  }

  /**
   * The shared path is the longest common leading run: a prefix of every path,
   * and either some path ends right after it or two paths take different next hops.
   */
  lemma SharedPathIsLongestCommonPrefix(paths: seq<FlowPath>)
    ensures CalculatePathIntersectionFromSource(paths).Err? <==>
      |paths| < 2
      || (exists k :: 0 <= k < |paths| && paths[k].segments == [])
      || (exists k :: 0 <= k < |paths| && paths[k].segments[0].srcSwitch != paths[0].segments[0].srcSwitch)
    ensures var r := CalculatePathIntersectionFromSource(paths);
      r.Ok? ==>
        && (forall k :: 0 <= k < |paths| ==> |r.value| <= |paths[k].segments| && paths[k].segments[..|r.value|] == r.value)
        && ((exists k :: 0 <= k < |paths| && |paths[k].segments| == |r.value|)
            || (exists k :: 0 <= k < |paths| && paths[k].segments[|r.value|] != paths[0].segments[|r.value|]))
  {
    if CalculatePathIntersectionFromSource(paths).Ok? {
      CommonRunSpec(paths, 0);
      var r := CommonRun(paths, 0);
      forall k | 0 <= k < |paths|
        ensures paths[k].segments[..|r|] == r
      {
        assert paths[k].segments[0..0 + |r|] == paths[k].segments[..|r|];
      }
    }
  }

  /** Paths parting after A-B share exactly the hop A-B. */
  lemma SharedSingleSegmentExample()
    ensures var first := FlowPath("old-path", "f", "A", "C", [Seg("A", 1, "B", 1), Seg("B", 2, "C", 2)]);
      var second := FlowPath("new-path", "f", "A", "D", [Seg("A", 1, "B", 1), Seg("B", 3, "D", 3)]);
      CalculatePathIntersectionFromSource([first, second]) == Ok([Seg("A", 1, "B", 1)])
  {
    var first := FlowPath("old-path", "f", "A", "C", [Seg("A", 1, "B", 1), Seg("B", 2, "C", 2)]);
    var second := FlowPath("new-path", "f", "A", "D", [Seg("A", 1, "B", 1), Seg("B", 3, "D", 3)]);
    var paths := [first, second];
    assert AgreeAt(paths, 0);
    assert !AgreeAt(paths, 1) by {
      assert paths[1].segments[1] != paths[0].segments[1];
    }
    assert CommonRun(paths, 0) == [Seg("A", 1, "B", 1)];
  }

  /** Paths with different first hops share nothing. */
  lemma NoSharedSegmentsExample()
    ensures var first := FlowPath("old-path", "f", "A", "C", [Seg("A", 1, "D", 1), Seg("D", 2, "C", 2)]);
      var second := FlowPath("new-path", "f", "A", "D", [Seg("A", 1, "B", 1), Seg("B", 3, "D", 3)]);
      CalculatePathIntersectionFromSource([first, second]) == Ok([])
  {
    var first := FlowPath("old-path", "f", "A", "C", [Seg("A", 1, "D", 1), Seg("D", 2, "C", 2)]);
    var second := FlowPath("new-path", "f", "A", "D", [Seg("A", 1, "B", 1), Seg("B", 3, "D", 3)]);
    var paths := [first, second];
    assert !AgreeAt(paths, 0) by {
      assert paths[1].segments[0] != paths[0].segments[0];
    }
  }

  /** A path that is a prefix of the other is shared whole. */
  lemma PrefixPathSharedWholeExample()
    ensures var first := FlowPath("old-path", "f", "A", "C", [Seg("A", 1, "B", 1), Seg("B", 2, "C", 2)]);
      var second := FlowPath("new-path", "f", "A", "D",
        [Seg("A", 1, "B", 1), Seg("B", 2, "C", 2), Seg("C", 3, "D", 3)]);
      CalculatePathIntersectionFromSource([first, second]) == Ok(first.segments)
  {
    var first := FlowPath("old-path", "f", "A", "C", [Seg("A", 1, "B", 1), Seg("B", 2, "C", 2)]);
    var second := FlowPath("new-path", "f", "A", "D",
      [Seg("A", 1, "B", 1), Seg("B", 2, "C", 2), Seg("C", 3, "D", 3)]);
    var paths := [first, second];
    assert AgreeAt(paths, 0);
    assert AgreeAt(paths, 1);
    assert !AgreeAt(paths, 2);
    assert CommonRun(paths, 1) == [Seg("B", 2, "C", 2)];
    assert CommonRun(paths, 0) == first.segments;
  }

  /** One path, or two paths from different switches, are rejected. */
  lemma RejectedInputsExample()
    ensures var first := FlowPath("old-path", "f", "A", "C", [Seg("A", 1, "B", 1), Seg("B", 2, "C", 2)]);
      var second := FlowPath("new-path", "f", "B", "D", [Seg("B", 1, "C", 1), Seg("C", 3, "D", 3)]);
      && CalculatePathIntersectionFromSource([first]) == Err(TooFewPaths)
      && CalculatePathIntersectionFromSource([first, second]) == Err(DifferentSources)
  {
    var first := FlowPath("old-path", "f", "A", "C", [Seg("A", 1, "B", 1), Seg("B", 2, "C", 2)]);
    var second := FlowPath("new-path", "f", "B", "D", [Seg("B", 1, "C", 1), Seg("C", 3, "D", 3)]);
    var paths := [first, second];
    assert paths[1].segments[0].srcSwitch != paths[0].segments[0].srcSwitch;
  }
}

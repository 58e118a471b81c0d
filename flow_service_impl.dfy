// The request checks and payload assembly of the northbound flow service: the
// body/path flow id check, the mirror-point id rule, the positive max_count rule,
// the flow path payload with its diverse groups, the flows a delete-all request
// deletes, and the deprecated push/unpush operations.

module FlowServiceImpl {
  import opened Wrappers
  import opened ErrorTypes
  import opened Text

  /** A northbound error: its category, its message and its longer description. */
  datatype MessageError = MessageError(errorType: ErrorType, message: string, description: string)

  // ---------------------------------------------------------------------------
  // Flow id of the body against the flow id of the path

  /** A request whose body names another flow than its path is invalid data. */
  function ValidateFlowId(requestFlowId: string, pathFlowId: string): (r: Option<MessageError>)
    ensures r.None? <==> requestFlowId == pathFlowId
    ensures r.Some? ==> r.value.errorType == DATA_INVALID
    ensures r.Some? ==>
      r.value.description == "Body flow_id: " + requestFlowId + ", path flow_id: " + pathFlowId
  {
    if requestFlowId == pathFlowId then None
    else Some(MessageError(DATA_INVALID, "flow_id from body and from path are different",
      "Body flow_id: " + requestFlowId + ", path flow_id: " + pathFlowId))
  }

  // ---------------------------------------------------------------------------
  // Mirror point id

  /** The longest mirror point id accepted. */
  const MaxMirrorPointIdLength := 100

  /** A character of the regular-expression class `\w` (ASCII letters, digits, underscore) or a hyphen. */
  predicate IsMirrorPointIdChar(c: char) {
    'a' <= c <= 'z' || 'A' <= c <= 'Z' || '0' <= c <= '9' || c == '_' || c == '-'
  }

  /** The rule the service states for mirror point ids: 1 to 100 allowed characters. */
  predicate IsValidMirrorPointId(id: string) {
    1 <= |id| <= MaxMirrorPointIdLength && forall i :: 0 <= i < |id| ==> IsMirrorPointIdChar(id[i])
  }

  /**
   * Whether the whole text matches a character class repeated between `min` and
   * `max` times, consuming one character per repetition as a regular-expression
   * matcher does for `[class]{min,max}` anchored at both ends.
   */
  predicate MatchesRepeated(s: string, min: nat, max: nat)
    decreases |s|
  {
    if s == [] then min == 0
    else max > 0 && IsMirrorPointIdChar(s[0]) && MatchesRepeated(s[1..], if min == 0 then 0 else min - 1, max - 1)
  }

  /** A repetition matcher accepts exactly the texts of allowed characters whose length lies in the bounds. */
  lemma {:induction false} MatchesRepeatedSpec(s: string, min: nat, max: nat)
    ensures MatchesRepeated(s, min, max) <==>
      min <= |s| <= max && forall i :: 0 <= i < |s| ==> IsMirrorPointIdChar(s[i])
    decreases |s|
  {
    if s != [] && max > 0 {
      MatchesRepeatedSpec(s[1..], if min == 0 then 0 else min - 1, max - 1);
      if forall i :: 0 <= i < |s| ==> IsMirrorPointIdChar(s[i]) {
        assert forall i :: 0 <= i < |s[1..]| ==> IsMirrorPointIdChar(s[1..][i]) by {
          forall i | 0 <= i < |s[1..]|
            ensures IsMirrorPointIdChar(s[1..][i])
          {
            assert s[1..][i] == s[i + 1];
          }
        }
      }
      if IsMirrorPointIdChar(s[0]) && forall i :: 0 <= i < |s[1..]| ==> IsMirrorPointIdChar(s[1..][i]) {
        forall i | 0 <= i < |s|
          ensures IsMirrorPointIdChar(s[i])
        {
          if i > 0 {
            assert s[i] == s[1..][i - 1];
          }
        }
      }
    }
  }

  /** The anchored pattern `^[\w-]{1,100}$` accepts exactly the ids the stated rule allows. */
  lemma PatternIsStatedRule(id: string)
    ensures MatchesRepeated(id, 1, MaxMirrorPointIdLength) <==> IsValidMirrorPointId(id)
  {
    MatchesRepeatedSpec(id, 1, MaxMirrorPointIdLength);
  }

  /**
   * The argument check of a mirror point create request: an id the pattern
   * rejects is an invalid parameter; an accepted id passes on unchanged.
   */
  function CheckMirrorPointId(id: string): (r: Result<string, MessageError>)
    ensures r.Ok? <==> IsValidMirrorPointId(id)
    ensures r.Ok? ==> r.value == id
    ensures r.Err? ==> r.error.errorType == PARAMETERS_INVALID
  {
    PatternIsStatedRule(id);
    if MatchesRepeated(id, 1, MaxMirrorPointIdLength) then Ok(id)
    else Err(MessageError(PARAMETERS_INVALID,
      "Mirror path ID can only consist of alphanumeric characters, underscore, and hyphen. "
      + "The length of this parameter must not exceed 100 characters.",
      "Can not parse arguments of the mirror point create request"))
  }

  /** Boundary cases: no id and a 101-character id are rejected, a 100-character id and a mixed id pass. */
  lemma MirrorPointIdBoundaries()
    ensures CheckMirrorPointId("").Err?
    ensures CheckMirrorPointId(seq(100, _ => 'a')).Ok?
    ensures CheckMirrorPointId(seq(101, _ => 'a')).Err?
    ensures CheckMirrorPointId("mirror_A-1").Ok?
    ensures CheckMirrorPointId("mirror point").Err?
  {
    assert "mirror point"[6] == ' ';
  }

  // ---------------------------------------------------------------------------
  // max_count of the history and status queries

  /** Decimal text of a Java int, with a leading minus for negative values. */
  function IntToString(n: int): string {
    if n < 0 then "-" + NatToString(-n) else NatToString(n)
  }

  /**
   * The argument check shared by the flow history and flow status queries: a
   * count below one is an invalid parameter.
   */
  function CheckMaxCount(maxCount: int): (r: Option<MessageError>)
    ensures r.None? <==> maxCount >= 1
    ensures r.Some? ==> r.value.errorType == PARAMETERS_INVALID
    ensures r.Some? ==> r.value.message == "Invalid `max_count` argument '" + IntToString(maxCount) + "'."
  {
    if maxCount < 1 then
      Some(MessageError(PARAMETERS_INVALID, "Invalid `max_count` argument '" + IntToString(maxCount) + "'.",
        "`max_count` argument must be positive."))
    else None
  }

  /** The two time-range queries that take a maximum count. */
  datatype HistoryQueryKind = FlowEvents | FlowStatuses

  /** The request a query sends on once its arguments are accepted. */
  datatype HistoryRequest = HistoryRequest(
    kind: HistoryQueryKind, flowId: string, timestampFrom: int, timestampTo: int, maxCount: int)

  /**
   * A flow events or flow statuses query: rejected for a count below one before
   * anything is sent, otherwise sent on with its arguments unchanged.
   */
  function HistoryQuery(kind: HistoryQueryKind, flowId: string, timestampFrom: int, timestampTo: int, maxCount: int)
    : (r: Result<HistoryRequest, MessageError>)
    ensures r.Ok? <==> maxCount >= 1
    ensures r.Ok? ==> r.value == HistoryRequest(kind, flowId, timestampFrom, timestampTo, maxCount)
    ensures r.Err? ==> r.error.errorType == PARAMETERS_INVALID
  {
    match CheckMaxCount(maxCount)
    case Some(e) => Err(e)
    case None => Ok(HistoryRequest(kind, flowId, timestampFrom, timestampTo, maxCount))
  }

  // ---------------------------------------------------------------------------
  // Flow path payload

  /** A switch/port hop of a path, opaque to the payload assembly. */
  datatype PathNode = PathNode(switchId: string, inputPort: int, outputPort: int)

  /** How much a path shares with the other paths of its diverse group. */
  datatype OverlappingSegmentsStats = OverlappingSegmentsStats(
    islCount: int, switchCount: int, islPercent: int, switchPercent: int)

  datatype ProtectedPathDto = ProtectedPathDto(
    forwardPath: seq<PathNode>, reversePath: seq<PathNode>, segmentsStats: OverlappingSegmentsStats)

  /**
   * One flow's paths as the path query returns them. `primaryPathCorrespondStat`
   * tells whether the record is compared with the asked flow's primary path
   * (otherwise with its protected path).
   */
  datatype FlowPathDto = FlowPathDto(
    id: string,
    forwardPath: seq<PathNode>,
    reversePath: seq<PathNode>,
    protectedPath: Option<ProtectedPathDto>,
    segmentsStats: OverlappingSegmentsStats,
    primaryPathCorrespondStat: bool)

  datatype FlowProtectedPath = FlowProtectedPath(forwardPath: seq<PathNode>, reversePath: seq<PathNode>)

  /** The paths of the other flows of a diverse group and the asked path's overlap with them. */
  datatype DiverseGroupPayload = DiverseGroupPayload(
    overlappingSegments: OverlappingSegmentsStats, otherFlows: seq<FlowPathDto>)

  datatype FlowPathPayload = FlowPathPayload(
    id: string,
    forwardPath: seq<PathNode>,
    reversePath: seq<PathNode>,
    protectedPath: Option<FlowProtectedPath>,
    diverseGroup: Option<DiverseGroupPayload>,
    diverseGroupProtected: Option<DiverseGroupPayload>)

  /** The first path record of the asked flow, if there is one. */
  function FindPath(paths: seq<FlowPathDto>, flowId: string): (r: Option<FlowPathDto>)
    ensures r.None? <==> forall i :: 0 <= i < |paths| ==> paths[i].id != flowId
    ensures r.Some? ==> r.value in paths && r.value.id == flowId
  {
    if paths == [] then None
    else if paths[0].id == flowId then Some(paths[0])
    else
      var r := FindPath(paths[1..], flowId);
      assert forall i :: 1 <= i < |paths| ==> paths[i] == paths[1..][i - 1];
      r
  }

  /**
   * The group members of one kind: the records of the other flows whose
   * comparison is against the primary path (`primary`) or the protected path,
   * in the order the query returned them.
   */
  function MapGroupPaths(paths: seq<FlowPathDto>, flowId: string, primary: bool): seq<FlowPathDto> {
    if paths == [] then []
    else
      var last := paths[|paths| - 1];
      MapGroupPaths(paths[..|paths| - 1], flowId, primary)
        + (if last.id != flowId && last.primaryPathCorrespondStat == primary then [last] else [])
  }

  /** Whether a record belongs to a group of the given kind. */
  predicate InGroup(p: FlowPathDto, flowId: string, primary: bool) {
    p.id != flowId && p.primaryPathCorrespondStat == primary
  }

  /** The other flows' records, of either kind. */
  function OtherPaths(paths: seq<FlowPathDto>, flowId: string): seq<FlowPathDto> {
    if paths == [] then []
    else
      var last := paths[|paths| - 1];
      OtherPaths(paths[..|paths| - 1], flowId) + (if last.id != flowId then [last] else [])
  }

  /** A group holds exactly the records of its kind, never the asked flow's. */
  lemma {:induction false} MapGroupPathsMembers(paths: seq<FlowPathDto>, flowId: string, primary: bool)
    ensures forall p :: p in MapGroupPaths(paths, flowId, primary) <==> p in paths && InGroup(p, flowId, primary)
    ensures forall p :: p in MapGroupPaths(paths, flowId, primary) ==> p.id != flowId
    decreases |paths|
  {
    if paths != [] {
      var init := paths[..|paths| - 1];
      MapGroupPathsMembers(init, flowId, primary);
      assert paths == init + [paths[|paths| - 1]];
    }
  }

  /**
   * The primary group and the protected group split the other flows' records
   * between them: together they hold each such record as often as the query
   * returned it.
   */
  lemma {:induction false} GroupsPartitionOtherPaths(paths: seq<FlowPathDto>, flowId: string)
    ensures multiset(MapGroupPaths(paths, flowId, true)) + multiset(MapGroupPaths(paths, flowId, false))
      == multiset(OtherPaths(paths, flowId))
    decreases |paths|
  {
    if paths != [] {
      GroupsPartitionOtherPaths(paths[..|paths| - 1], flowId);
    }
  }

  /**
   * The payload of a flow path query. It fails when no record has the asked id.
   * Otherwise the asked record gives the id, both directions and the protected
   * path. The diverse groups are filled only when the query returned more than
   * one record, the protected group only if the asked flow has a protected path.
   */
  function BuildFlowPathPayload(paths: seq<FlowPathDto>, flowId: string): (r: Result<FlowPathPayload, string>)
  {
    match FindPath(paths, flowId)
    case None => Err("Path for flow " + flowId + " is not found.")
    case Some(asked) =>
      var protectedPath :=
        if asked.protectedPath.Some?
        then Some(FlowProtectedPath(asked.protectedPath.value.forwardPath, asked.protectedPath.value.reversePath))
        else None;
      var diverseGroup :=
        if |paths| > 1
        then Some(DiverseGroupPayload(asked.segmentsStats, MapGroupPaths(paths, flowId, true)))
        else None;
      var diverseGroupProtected :=
        if |paths| > 1 && asked.protectedPath.Some?
        then Some(DiverseGroupPayload(asked.protectedPath.value.segmentsStats, MapGroupPaths(paths, flowId, false)))
        else None;
      Ok(FlowPathPayload(asked.id, asked.forwardPath, asked.reversePath, protectedPath,
        diverseGroup, diverseGroupProtected))
  }

  /** What the payload promises, for every list of records. */
  lemma FlowPathPayloadSpec(paths: seq<FlowPathDto>, flowId: string)
    ensures BuildFlowPathPayload(paths, flowId).Err? <==> forall i :: 0 <= i < |paths| ==> paths[i].id != flowId
    ensures var r := BuildFlowPathPayload(paths, flowId);
      r.Ok? ==>
        exists asked ::
          && asked in paths && asked.id == flowId
          && r.value.id == flowId
          && r.value.forwardPath == asked.forwardPath && r.value.reversePath == asked.reversePath
          && (r.value.protectedPath.Some? <==> asked.protectedPath.Some?)
          && (r.value.diverseGroup.Some? <==> |paths| > 1)
          && (r.value.diverseGroupProtected.Some? <==> |paths| > 1 && asked.protectedPath.Some?)
          && (r.value.diverseGroup.Some? ==> r.value.diverseGroup.value.overlappingSegments == asked.segmentsStats)
    ensures var r := BuildFlowPathPayload(paths, flowId);
      r.Ok? && r.value.diverseGroup.Some? ==>
        forall p :: p in r.value.diverseGroup.value.otherFlows <==> p in paths && InGroup(p, flowId, true)
    ensures var r := BuildFlowPathPayload(paths, flowId);
      r.Ok? && r.value.diverseGroupProtected.Some? ==>
        forall p :: p in r.value.diverseGroupProtected.value.otherFlows <==> p in paths && InGroup(p, flowId, false)
  {
    MapGroupPathsMembers(paths, flowId, true);
    MapGroupPathsMembers(paths, flowId, false);
    var found := FindPath(paths, flowId);
    if found.Some? {
      var asked := found.value;
      assert asked in paths && asked.id == flowId;
    }
  }

  /** A lone record of the asked flow gives its paths and no group at all. */
  lemma SinglePathHasNoGroups(p: FlowPathDto)
    ensures var r := BuildFlowPathPayload([p], p.id);
      r.Ok? && r.value.forwardPath == p.forwardPath && r.value.reversePath == p.reversePath
      && r.value.diverseGroup.None? && r.value.diverseGroupProtected.None?
  {
  }

  // ---------------------------------------------------------------------------
  // Delete all flows

  /** A flow as the flow dump returns it; sub-flows of a y-flow name their y-flow. */
  datatype FlowResponsePayload = FlowResponsePayload(id: string, yFlowId: Option<string>)

  /** The ids of the dumped flows that are not y-flow sub-flows, in dump order. */
  function DeletableFlowIds(flows: seq<FlowResponsePayload>): seq<string> {
    if flows == [] then []
    else
      var last := flows[|flows| - 1];
      DeletableFlowIds(flows[..|flows| - 1]) + (if last.yFlowId.None? then [last.id] else [])
  }

  /** A delete is sent exactly for each dumped flow without a y-flow id; never for a y-flow sub-flow. */
  lemma {:induction false} DeletableFlowIdsMembers(flows: seq<FlowResponsePayload>)
    ensures forall id :: id in DeletableFlowIds(flows) <==>
      exists i :: 0 <= i < |flows| && flows[i].id == id && flows[i].yFlowId.None?
    ensures |DeletableFlowIds(flows)| <= |flows|
    decreases |flows|
  {
    if flows != [] {
      var init := flows[..|flows| - 1];
      DeletableFlowIdsMembers(init);
      forall id
        ensures id in DeletableFlowIds(flows) <==>
          exists i :: 0 <= i < |flows| && flows[i].id == id && flows[i].yFlowId.None?
      {
        if id in DeletableFlowIds(init) {
          var i :| 0 <= i < |init| && init[i].id == id && init[i].yFlowId.None?;
          assert flows[i] == init[i];
        }
        if exists i :: 0 <= i < |flows| && flows[i].id == id && flows[i].yFlowId.None? {
          var i :| 0 <= i < |flows| && flows[i].id == id && flows[i].yFlowId.None?;
          if i < |init| {
            assert init[i] == flows[i];
          }
        }
      }
    }
  }

  /**
   * The loop of the delete-all request: walks the dumped flows in order, skips
   * y-flow sub-flows and issues one delete per remaining flow.
   */
  method DeleteAllFlows(flows: seq<FlowResponsePayload>) returns (deleted: seq<string>)
    ensures deleted == DeletableFlowIds(flows)
    ensures forall id :: id in deleted <==>
      exists i :: 0 <= i < |flows| && flows[i].id == id && flows[i].yFlowId.None?
  {
    deleted := [];
    for i := 0 to |flows|
      invariant deleted == DeletableFlowIds(flows[..i])
    {
      assert flows[..i + 1][..i] == flows[..i];
      if flows[i].yFlowId.Some? {
        // y-flow sub-flows are deleted with their y-flow
        continue;
      }
      deleted := deleted + [flows[i].id];
    }
    assert flows[..|flows|] == flows;
    DeletableFlowIdsMembers(flows);
  }

  // ---------------------------------------------------------------------------
  // Push and unpush

  datatype BatchOperation = Push | Unpush

  datatype BatchResults = BatchResults(failures: int, successes: int, messages: seq<string>)

  /** Both batch operations are deprecated: whatever the input, they fail as not permitted. */
  function RunBatchOperation(op: BatchOperation): (r: Result<BatchResults, MessageError>)
    ensures r.Err? && r.error.errorType == NOT_PERMITTED && r.error.message == "Operation not permitted"
    ensures r.error.description == (if op == Push then "Push flow operation is deprecated"
                                                  else "Unpush flow operation is deprecated")
  {
    match op
    case Push => Err(MessageError(NOT_PERMITTED, "Operation not permitted", "Push flow operation is deprecated"))
    case Unpush => Err(MessageError(NOT_PERMITTED, "Operation not permitted", "Unpush flow operation is deprecated"))
  }
}

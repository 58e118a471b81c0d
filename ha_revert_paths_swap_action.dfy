// The compensating HA-flow update action: puts the recorded old path ids back on
// the stored HA-flow and gives the old paths and sub-paths their saved statuses
// back, unless only endpoints are being updated.

module HaRevertPathsSwapAction {
  import opened Wrappers
  import opened FlowModel
  import opened HaFlowUpdateSaga

  const NO_PATH := "no path"

  /** The history record of a revert of one path of an HA-flow. */
  function RevertRecord(haFlowId: string, pathId: Option<PathId>): HistoryRecord {
    HistoryAction("Ha-flow was reverted to old paths",
                  Some("The ha-flow " + haFlowId + " was updated with "
                       + (if pathId.None? then NO_PATH else "the path " + pathId.value)))
  }

  /** The path statuses after a revert of both sides of a pair, forward first; an absent side is skipped. */
  function RevertSides(st: PathStatuses, pair: HaPathIdsPair): PathStatuses {
    var st1 := if pair.forward.Some? then RestoreSide(st, pair.forward.value.haPathId, SubPathIdSet(pair.forward)) else st;
    if pair.reverse.Some? then RestoreSide(st1, pair.reverse.value.haPathId, SubPathIdSet(pair.reverse)) else st1
  }

  /** The history records of a revert of a pair: one per side present, forward first. */
  function RevertRecords(haFlowId: string, pair: HaPathIdsPair): (r: seq<HistoryRecord>)
    ensures |r| == (if pair.forward.Some? then 1 else 0) + (if pair.reverse.Some? then 1 else 0)
  {
    (if pair.forward.Some? then [RevertRecord(haFlowId, pair.forward.value.haPathId)] else [])
    + (if pair.reverse.Some? then [RevertRecord(haFlowId, pair.reverse.value.haPathId)] else [])
  }

  /**
   * The HA-flow after its primary ids are reverted to a recorded pair: each side
   * present in the pair is restored to the recorded id, possibly none; an absent
   * side, or an absent pair, leaves the id as it is.
   */
  function RevertPrimaryIds(flow: HaFlow, pair: Option<HaPathIdsPair>): (r: HaFlow)
    ensures r.(forwardPathId := flow.forwardPathId, reversePathId := flow.reversePathId) == flow
    ensures r.forwardPathId == (if pair.Some? && pair.value.forward.Some? then ForwardId(pair) else flow.forwardPathId)
    ensures r.reversePathId == (if pair.Some? && pair.value.reverse.Some? then ReverseId(pair) else flow.reversePathId)
  {
    match pair
    case None => flow
    case Some(p) =>
      var f := if p.forward.Some? then flow.(forwardPathId := p.forward.value.haPathId) else flow;
      if p.reverse.Some? then f.(reversePathId := p.reverse.value.haPathId) else f
  }

  /** The HA-flow after its protected ids are reverted to a recorded pair, side by side as RevertPrimaryIds. */
  function RevertProtectedIds(flow: HaFlow, pair: Option<HaPathIdsPair>): (r: HaFlow)
    ensures r.(protectedForwardPathId := flow.protectedForwardPathId,
               protectedReversePathId := flow.protectedReversePathId) == flow
    ensures r.protectedForwardPathId ==
      (if pair.Some? && pair.value.forward.Some? then ForwardId(pair) else flow.protectedForwardPathId)
    ensures r.protectedReversePathId ==
      (if pair.Some? && pair.value.reverse.Some? then ReverseId(pair) else flow.protectedReversePathId)
  {
    match pair
    case None => flow
    case Some(p) =>
      var f := if p.forward.Some? then flow.(protectedForwardPathId := p.forward.value.haPathId) else flow;
      if p.reverse.Some? then f.(protectedReversePathId := p.reverse.value.haPathId) else f
  }

  /**
   * The revert undoes the swap on the HA-flow's ids: when the old ids were
   * recorded from the flow before the swap, whatever ids the swap put in place,
   * the revert gives back the flow as it was.
   */
  lemma RevertRestoresPathIds(flow: HaFlow, primary: Option<HaPathIdsPair>, protected: Option<HaPathIdsPair>,
                              newForward: Option<PathId>, newReverse: Option<PathId>,
                              newProtectedForward: Option<PathId>, newProtectedReverse: Option<PathId>)
    requires RecordedFrom(primary, flow.forwardPathId, flow.reversePathId)
    requires RecordedFrom(protected, flow.protectedForwardPathId, flow.protectedReversePathId)
    ensures var swapped := flow.(forwardPathId := newForward, reversePathId := newReverse,
                                 protectedForwardPathId := newProtectedForward,
                                 protectedReversePathId := newProtectedReverse);
      RevertProtectedIds(RevertPrimaryIds(swapped, primary), protected) == flow
  {
  }

  /** Gives a stored HA path that is not ACTIVE its saved status back. */
  method UpdatePathStatus(saga: HaFlowUpdateFsm, repository: HaFlowRepository, pathId: Option<PathId>)
    modifies repository`haPaths
    ensures repository.haPaths == RestorePath(old(repository.haPaths), pathId, saga.oldPathStatuses)
  {
    if pathId.Some? && pathId.value in repository.haPaths {
      var path := repository.haPaths[pathId.value];
      if path.status != Some(FlowPathStatus.ACTIVE) {
        repository.haPaths := repository.haPaths[pathId.value := path.(status := SavedStatus(saga.oldPathStatuses, pathId.value))];
      }
    }
  }

  /** Gives each stored sub-path with one of the ids, if not ACTIVE, its saved status back. */
  method UpdateSubPathStatuses(saga: HaFlowUpdateFsm, repository: HaFlowRepository, subPathIds: set<PathId>)
    modifies repository`subPaths
    ensures repository.subPaths == RestoreSubPaths(old(repository.subPaths), subPathIds, saga.oldPathStatuses)
  {
    var remaining := subPathIds;
    while remaining != {}
      invariant remaining <= subPathIds
      invariant repository.subPaths == RestoreSubPaths(old(repository.subPaths), subPathIds - remaining, saga.oldPathStatuses)
      decreases remaining
    {
      var id :| id in remaining;
      if id in repository.subPaths && repository.subPaths[id].status != Some(FlowPathStatus.ACTIVE) {
        repository.subPaths := repository.subPaths[id := repository.subPaths[id].(status := SavedStatus(saga.oldPathStatuses, id))];
      }
      remaining := remaining - {id};
    }
  }

  /** Reverts one side of a pair: the path's status, its sub-paths' statuses, in that order. */
  method RevertSide(saga: HaFlowUpdateFsm, repository: HaFlowRepository, side: HaFlowPathIds)
    modifies repository`haPaths, repository`subPaths
    ensures var st := RestoreSide(PathStatuses(saga.oldPathStatuses, old(repository.haPaths), old(repository.subPaths)),
                                  side.haPathId, SubPathIdSet(Some(side)));
      repository.haPaths == st.haPaths && repository.subPaths == st.subPaths
  {
    UpdatePathStatus(saga, repository, side.haPathId);
    UpdateSubPathStatuses(saga, repository, SubPathIdSet(Some(side)));
  }

  /**
   * Reverts the primary paths of the stored HA-flow to the recorded old pair,
   * side by side; no recorded pair, no change.
   */
  method UpdatePrimaryPaths(saga: HaFlowUpdateFsm, repository: HaFlowRepository)
    requires saga.haFlowId in repository.haFlows
    modifies saga`history, repository`haFlows, repository`haPaths, repository`subPaths
    ensures var flow := old(repository.haFlows[saga.haFlowId]);
      var st0 := PathStatuses(saga.oldPathStatuses, old(repository.haPaths), old(repository.subPaths));
      var st := if saga.oldPrimaryPathIds.Some? then RevertSides(st0, saga.oldPrimaryPathIds.value) else st0;
      && repository.haFlows == old(repository.haFlows)[saga.haFlowId := RevertPrimaryIds(flow, saga.oldPrimaryPathIds)]
      && repository.haPaths == st.haPaths && repository.subPaths == st.subPaths
      && saga.history == old(saga.history)
           + (if saga.oldPrimaryPathIds.Some? then RevertRecords(flow.haFlowId, saga.oldPrimaryPathIds.value) else [])
  {
    if saga.oldPrimaryPathIds.None? {
      return;
    }
    var pair := saga.oldPrimaryPathIds.value;
    var flow := repository.haFlows[saga.haFlowId];
    if pair.forward.Some? {
      RevertSide(saga, repository, pair.forward.value);
      flow := flow.(forwardPathId := pair.forward.value.haPathId);
      repository.haFlows := repository.haFlows[saga.haFlowId := flow];
      saga.history := saga.history + [RevertRecord(flow.haFlowId, pair.forward.value.haPathId)];
    }
    if pair.reverse.Some? {
      RevertSide(saga, repository, pair.reverse.value);
      flow := flow.(reversePathId := pair.reverse.value.haPathId);
      repository.haFlows := repository.haFlows[saga.haFlowId := flow];
      saga.history := saga.history + [RevertRecord(flow.haFlowId, pair.reverse.value.haPathId)];
    }
  }

  /** Reverts the protected paths of the stored HA-flow, as UpdatePrimaryPaths does the primary ones. */
  method UpdateProtectedPaths(saga: HaFlowUpdateFsm, repository: HaFlowRepository)
    requires saga.haFlowId in repository.haFlows
    modifies saga`history, repository`haFlows, repository`haPaths, repository`subPaths
    ensures var flow := old(repository.haFlows[saga.haFlowId]);
      var st0 := PathStatuses(saga.oldPathStatuses, old(repository.haPaths), old(repository.subPaths));
      var st := if saga.oldProtectedPathIds.Some? then RevertSides(st0, saga.oldProtectedPathIds.value) else st0;
      && repository.haFlows == old(repository.haFlows)[saga.haFlowId := RevertProtectedIds(flow, saga.oldProtectedPathIds)]
      && repository.haPaths == st.haPaths && repository.subPaths == st.subPaths
      && saga.history == old(saga.history)
           + (if saga.oldProtectedPathIds.Some? then RevertRecords(flow.haFlowId, saga.oldProtectedPathIds.value) else [])
  {
    if saga.oldProtectedPathIds.None? {
      return;
    }
    var pair := saga.oldProtectedPathIds.value;
    var flow := repository.haFlows[saga.haFlowId];
    if pair.forward.Some? {
      RevertSide(saga, repository, pair.forward.value);
      flow := flow.(protectedForwardPathId := pair.forward.value.haPathId);
      repository.haFlows := repository.haFlows[saga.haFlowId := flow];
      saga.history := saga.history + [RevertRecord(flow.haFlowId, pair.forward.value.haPathId)];
    }
    if pair.reverse.Some? {
      RevertSide(saga, repository, pair.reverse.value);
      flow := flow.(protectedReversePathId := pair.reverse.value.haPathId);
      repository.haFlows := repository.haFlows[saga.haFlowId := flow];
      saga.history := saga.history + [RevertRecord(flow.haFlowId, pair.reverse.value.haPathId)];
    }
  }

  /**
   * The action. With endpoints of a partial update pending it only records that
   * the revert is skipped. Otherwise, in one transaction, the primary and then the
   * protected paths are reverted; a missing HA-flow aborts the transaction with
   * nothing changed (found is false).
   */
  method Perform(saga: HaFlowUpdateFsm, repository: HaFlowRepository) returns (found: bool)
    modifies saga`history, repository`haFlows, repository`haPaths, repository`subPaths
    ensures saga.partialUpdateEndpoints != {} ==>
      && found
      && saga.history == old(saga.history) + [HistoryAction("Skip paths swap revert", None)]
      && repository.haFlows == old(repository.haFlows)
      && repository.haPaths == old(repository.haPaths) && repository.subPaths == old(repository.subPaths)
    ensures saga.partialUpdateEndpoints == {} ==> (found <==> saga.haFlowId in old(repository.haFlows))
    ensures saga.partialUpdateEndpoints == {} && !found ==>
      && saga.history == old(saga.history) && repository.haFlows == old(repository.haFlows)
      && repository.haPaths == old(repository.haPaths) && repository.subPaths == old(repository.subPaths)
    ensures saga.partialUpdateEndpoints == {} && found ==>
      var flow := old(repository.haFlows[saga.haFlowId]);
      var st0 := PathStatuses(saga.oldPathStatuses, old(repository.haPaths), old(repository.subPaths));
      var st1 := if saga.oldPrimaryPathIds.Some? then RevertSides(st0, saga.oldPrimaryPathIds.value) else st0;
      var st2 := if saga.oldProtectedPathIds.Some? then RevertSides(st1, saga.oldProtectedPathIds.value) else st1;
      && repository.haFlows == old(repository.haFlows)[saga.haFlowId :=
           RevertProtectedIds(RevertPrimaryIds(flow, saga.oldPrimaryPathIds), saga.oldProtectedPathIds)]
      && repository.haPaths == st2.haPaths && repository.subPaths == st2.subPaths
      && saga.history == old(saga.history)
           + (if saga.oldPrimaryPathIds.Some? then RevertRecords(flow.haFlowId, saga.oldPrimaryPathIds.value) else [])
           + (if saga.oldProtectedPathIds.Some? then RevertRecords(flow.haFlowId, saga.oldProtectedPathIds.value) else [])
  {
    if saga.partialUpdateEndpoints != {} {
      saga.history := saga.history + [HistoryAction("Skip paths swap revert", None)];
      return true;
    }
    if saga.haFlowId !in repository.haFlows {
      return false;
    }
    UpdatePrimaryPaths(saga, repository);
    UpdateProtectedPaths(saga, repository);
    found := true;
  }
}

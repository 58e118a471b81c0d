// The HA-flow update action that puts the newly allocated paths in place of the
// old ones: the old paths and their sub-paths become IN_PROGRESS after their
// statuses are saved, their resources are kept for a later release, and the
// stored HA-flow gets the new path ids.

module HaSwapFlowPathsAction {
  import opened Wrappers
  import opened FlowModel
  import opened HaFlowUpdateSaga

  /** No later sub-path of the sequence has the same HA sub-flow id as the i-th. */
  predicate LastOfSubFlow(subs: seq<SubPath>, i: int)
    requires 0 <= i < |subs|
  {
    forall j :: i < j < |subs| ==> subs[j].haSubFlowId != subs[i].haSubFlowId
  }

  /** Sub-path ids keyed by HA sub-flow id, filled in sub-path order. */
  function SubPathIdMap(subs: seq<SubPath>): map<string, PathId>
    decreases |subs|
  {
    if subs == [] then map[]
    else SubPathIdMap(subs[..|subs| - 1])[subs[|subs| - 1].haSubFlowId := subs[|subs| - 1].pathId]
  }

  /** Sub-path meters keyed by HA sub-flow id, filled the same way. */
  function SubPathMeterMap(subs: seq<SubPath>): map<string, Option<nat>>
    decreases |subs|
  {
    if subs == [] then map[]
    else SubPathMeterMap(subs[..|subs| - 1])[subs[|subs| - 1].haSubFlowId := subs[|subs| - 1].meterId]
  }

  /** The id map has one key per HA sub-flow of the sub-paths and no other; it is empty without sub-paths. */
  lemma {:induction false} SubPathIdMapKeys(subs: seq<SubPath>)
    ensures forall k :: k in SubPathIdMap(subs) <==> exists i :: 0 <= i < |subs| && subs[i].haSubFlowId == k
    ensures SubPathMeterMap(subs).Keys == SubPathIdMap(subs).Keys
    decreases |subs|
  {
    if subs != [] {
      var init := subs[..|subs| - 1];
      SubPathIdMapKeys(init);
      forall k | exists i :: 0 <= i < |subs| && subs[i].haSubFlowId == k
        ensures k in SubPathIdMap(subs)
      {
        var i :| 0 <= i < |subs| && subs[i].haSubFlowId == k;
        if i < |subs| - 1 {
          assert init[i].haSubFlowId == k;
        }
      }
      forall k | k in SubPathIdMap(subs)
        ensures exists i :: 0 <= i < |subs| && subs[i].haSubFlowId == k
      {
        if k != subs[|subs| - 1].haSubFlowId {
          var i :| 0 <= i < |init| && init[i].haSubFlowId == k;
          assert subs[i].haSubFlowId == k;
        }
      }
    }
  }

  /** Each HA sub-flow's entries are those of its last sub-path. */
  lemma {:induction false} SubPathMapsKeepLast(subs: seq<SubPath>, i: int)
    requires 0 <= i < |subs| && LastOfSubFlow(subs, i)
    ensures subs[i].haSubFlowId in SubPathIdMap(subs) && SubPathIdMap(subs)[subs[i].haSubFlowId] == subs[i].pathId
    ensures subs[i].haSubFlowId in SubPathMeterMap(subs) && SubPathMeterMap(subs)[subs[i].haSubFlowId] == subs[i].meterId
    decreases |subs|
  {
    if i < |subs| - 1 {
      var init := subs[..|subs| - 1];
      assert LastOfSubFlow(init, i);
      SubPathMapsKeepLast(init, i);
    }
  }

  /** Builds the sub-path id map in one pass over the sub-paths. */
  method BuildSubPathIdMap(subs: seq<SubPath>) returns (result: map<string, PathId>)
    ensures result == SubPathIdMap(subs)
  {
    result := map[];
    for i := 0 to |subs|
      invariant result == SubPathIdMap(subs[..i])
    {
      assert subs[..i + 1][..i] == subs[..i];
      result := result[subs[i].haSubFlowId := subs[i].pathId];
    }
    assert subs[..|subs|] == subs;
  }

  /** Builds the sub-path meter map in one pass over the sub-paths. */
  method BuildSubPathMeterIdMap(subs: seq<SubPath>) returns (result: map<string, Option<nat>>)
    ensures result == SubPathMeterMap(subs)
  {
    result := map[];
    for i := 0 to |subs|
      invariant result == SubPathMeterMap(subs[..i])
    {
      assert subs[..i + 1][..i] == subs[..i];
      result := result[subs[i].haSubFlowId := subs[i].meterId];
    }
    assert subs[..|subs|] == subs;
  }

  /** The resources kept for one old HA path. */
  function HaPathResourcesOf(path: HaFlowPath, subs: seq<SubPath>, encapsulation: Option<EncapsulationResources>): HaPathResources {
    HaPathResources(path.haPathId, path.sharedPointMeterId, path.yPointMeterId, path.yPointGroupId,
                    encapsulation, SubPathIdMap(subs), SubPathMeterMap(subs))
  }

  /** The resources kept for a pair of old HA paths; the cookie is the forward path's. */
  function HaFlowResourcesOf(forward: HaFlowPath, reverse: HaFlowPath, subPaths: map<PathId, SubPath>,
                             encapsulation: Option<EncapsulationResources>): HaFlowResources {
    HaFlowResources(forward.flowEffectiveId,
                    HaPathResourcesOf(forward, SubPathsOf(forward, subPaths), encapsulation),
                    HaPathResourcesOf(reverse, SubPathsOf(reverse, subPaths), encapsulation))
  }

  /**
   * The resources entries a swap of one pair appends: none when neither old path
   * is stored, otherwise one, whose missing side is filled by the other side.
   * The encapsulation comes from the resource manager, looked up by both path ids
   * and the flow's previous encapsulation type.
   */
  function OldResourcesOf(haPaths: map<PathId, HaFlowPath>, subPaths: map<PathId, SubPath>,
                          forwardId: Option<PathId>, reverseId: Option<PathId>,
                          encapsulationType: FlowEncapsulationType,
                          encapsulationOf: (PathId, PathId, FlowEncapsulationType) -> Option<EncapsulationResources>)
    : (r: seq<HaFlowResources>)
    ensures |r| <= 1
    ensures |r| == 1 <==> PathOf(haPaths, forwardId).Some? || PathOf(haPaths, reverseId).Some?
    ensures |r| == 1 ==>
      var forward := if PathOf(haPaths, forwardId).Some? then forwardId.value else reverseId.value;
      var reverse := if PathOf(haPaths, reverseId).Some? then reverseId.value else forwardId.value;
      && r[0].forward.pathId == haPaths[forward].haPathId
      && r[0].reverse.pathId == haPaths[reverse].haPathId
      && r[0].unmaskedCookie == haPaths[forward].flowEffectiveId
      && r[0].forward.encapsulationResources == r[0].reverse.encapsulationResources
         == encapsulationOf(haPaths[forward].haPathId, haPaths[reverse].haPathId, encapsulationType)
  {
    var oldForward := PathOf(haPaths, forwardId);
    var oldReverse := PathOf(haPaths, reverseId);
    if oldForward.None? && oldReverse.None? then []
    else
      var forward := if oldForward.Some? then oldForward.value else oldReverse.value;
      var reverse := if oldReverse.Some? then oldReverse.value else oldForward.value;
      [HaFlowResourcesOf(forward, reverse, subPaths, encapsulationOf(forward.haPathId, reverse.haPathId, encapsulationType))]
  }

  /** Collects the resources of a pair of old HA paths, building the sub-path maps in loops. */
  method BuildHaResources(forward: HaFlowPath, reverse: HaFlowPath, subPaths: map<PathId, SubPath>,
                          encapsulationType: FlowEncapsulationType,
                          encapsulationOf: (PathId, PathId, FlowEncapsulationType) -> Option<EncapsulationResources>)
    returns (resources: HaFlowResources)
    ensures resources == HaFlowResourcesOf(forward, reverse, subPaths,
                                           encapsulationOf(forward.haPathId, reverse.haPathId, encapsulationType))
  {
    var encapsulation := encapsulationOf(forward.haPathId, reverse.haPathId, encapsulationType);
    var forwardSubs := SubPathsOf(forward, subPaths);
    var reverseSubs := SubPathsOf(reverse, subPaths);
    var forwardIds := BuildSubPathIdMap(forwardSubs);
    var forwardMeters := BuildSubPathMeterIdMap(forwardSubs);
    var reverseIds := BuildSubPathIdMap(reverseSubs);
    var reverseMeters := BuildSubPathMeterIdMap(reverseSubs);
    resources := HaFlowResources(forward.flowEffectiveId,
      HaPathResources(forward.haPathId, forward.sharedPointMeterId, forward.yPointMeterId, forward.yPointGroupId,
                      encapsulation, forwardIds, forwardMeters),
      HaPathResources(reverse.haPathId, reverse.sharedPointMeterId, reverse.yPointMeterId, reverse.yPointGroupId,
                      encapsulation, reverseIds, reverseMeters));
  }

  /**
   * Saves the statuses of a stored HA path and of its stored sub-paths in the
   * saga, then marks the path and each of those sub-paths IN_PROGRESS.
   */
  method SaveAndSetInProgressStatuses(saga: HaFlowUpdateFsm, repository: HaFlowRepository, pathId: PathId)
    requires pathId in repository.haPaths
    modifies saga`oldPathStatuses, repository`haPaths, repository`subPaths
    ensures var st := SaveAndMark(PathStatuses(old(saga.oldPathStatuses), old(repository.haPaths), old(repository.subPaths)), pathId);
      saga.oldPathStatuses == st.saved && repository.haPaths == st.haPaths && repository.subPaths == st.subPaths
  {
    var haPaths, saved, original := repository.haPaths, saga.oldPathStatuses, repository.subPaths;
    var path := haPaths[pathId];
    var subPaths := original;
    var ids := path.subPathIds;
    for i := 0 to |ids|
      invariant subPaths == SubPathsInProgress(original, set j | 0 <= j < i :: ids[j])
    {
      assert (set j | 0 <= j < i + 1 :: ids[j]) == (set j | 0 <= j < i :: ids[j]) + {ids[i]};
      if ids[i] in subPaths {
        subPaths := subPaths[ids[i] := subPaths[ids[i]].(status := Some(FlowPathStatus.IN_PROGRESS))];
      }
    }
    assert (set j | 0 <= j < |ids| :: ids[j]) == SubPathIdsOf(path);
    saga.oldPathStatuses := SaveStatuses(saved, path, original);
    repository.haPaths := haPaths[pathId := path.(status := Some(FlowPathStatus.IN_PROGRESS))];
    repository.subPaths := subPaths;
  }

  /**
   * The part both swaps share: each stored old path of the pair has its statuses
   * saved and becomes IN_PROGRESS, and when either is stored the pair's resources
   * are kept for release.
   */
  method SaveOldPaths(saga: HaFlowUpdateFsm, repository: HaFlowRepository,
                      forwardId: Option<PathId>, reverseId: Option<PathId>,
                      encapsulationOf: (PathId, PathId, FlowEncapsulationType) -> Option<EncapsulationResources>)
    modifies saga`oldPathStatuses, saga`oldResources, repository`haPaths, repository`subPaths
    ensures var st := MarkOldPaths(PathStatuses(old(saga.oldPathStatuses), old(repository.haPaths), old(repository.subPaths)),
                                   forwardId, reverseId);
      saga.oldPathStatuses == st.saved && repository.haPaths == st.haPaths && repository.subPaths == st.subPaths
    ensures saga.oldResources == old(saga.oldResources)
      + OldResourcesOf(old(repository.haPaths), old(repository.subPaths), forwardId, reverseId,
                       saga.originalEncapsulationType, encapsulationOf)
  {
    var haPaths := repository.haPaths;
    var subPaths := repository.subPaths;
    var oldForward := PathOf(haPaths, forwardId);
    if oldForward.Some? {
      SaveAndSetInProgressStatuses(saga, repository, forwardId.value);
    }
    var oldReverse := PathOf(haPaths, reverseId);
    if oldReverse.Some? {
      SaveAndSetInProgressStatuses(saga, repository, reverseId.value);
    }
    if oldForward.Some? || oldReverse.Some? {
      var forward := if oldForward.Some? then oldForward.value else oldReverse.value;
      var reverse := if oldReverse.Some? then oldReverse.value else oldForward.value;
      var resources := BuildHaResources(forward, reverse, subPaths, saga.originalEncapsulationType, encapsulationOf);
      saga.oldResources := saga.oldResources + [resources];
    }
  }

  /** The history record of a swap of the paths of an HA-flow. */
  function SwapRecord(haFlowId: string, forwardId: PathId, reverseId: PathId): HistoryRecord {
    HistoryAction("Ha-flow was updated with new paths",
                  Some("The ha-flow " + haFlowId + " was updated with paths " + forwardId + " / " + reverseId))
  }

  /**
   * Swaps the primary paths, but only when both new primary path ids are known.
   * In one transaction the old primary paths are saved and marked, and the stored
   * HA-flow gets the new ids; the swap is then recorded. A missing HA-flow aborts
   * the transaction with nothing changed (found is false).
   */
  method SwapPrimaryPaths(saga: HaFlowUpdateFsm, repository: HaFlowRepository,
                          encapsulationOf: (PathId, PathId, FlowEncapsulationType) -> Option<EncapsulationResources>)
    returns (found: bool)
    requires saga.newPrimaryPathIds.forward.Some? && saga.newPrimaryPathIds.reverse.Some?
    modifies saga`oldPathStatuses, saga`oldResources, saga`history
    modifies repository`haFlows, repository`haPaths, repository`subPaths
    ensures var newForward := saga.newPrimaryPathIds.forward.value.haPathId;
      var newReverse := saga.newPrimaryPathIds.reverse.value.haPathId;
      if newForward.None? || newReverse.None? || saga.haFlowId !in old(repository.haFlows) then
        && found == (newForward.None? || newReverse.None?)
        && saga.oldPathStatuses == old(saga.oldPathStatuses) && saga.oldResources == old(saga.oldResources)
        && saga.history == old(saga.history) && repository.haFlows == old(repository.haFlows)
        && repository.haPaths == old(repository.haPaths) && repository.subPaths == old(repository.subPaths)
      else
        var flow := old(repository.haFlows[saga.haFlowId]);
        var st := MarkOldPaths(PathStatuses(old(saga.oldPathStatuses), old(repository.haPaths), old(repository.subPaths)),
                               flow.forwardPathId, flow.reversePathId);
        && found
        && saga.oldPathStatuses == st.saved && repository.haPaths == st.haPaths && repository.subPaths == st.subPaths
        && saga.oldResources == old(saga.oldResources)
             + OldResourcesOf(old(repository.haPaths), old(repository.subPaths), flow.forwardPathId, flow.reversePathId,
                              saga.originalEncapsulationType, encapsulationOf)
        && repository.haFlows == old(repository.haFlows)[saga.haFlowId := flow.(forwardPathId := newForward, reversePathId := newReverse)]
        && saga.history == old(saga.history) + [SwapRecord(saga.haFlowId, newForward.value, newReverse.value)]
  {
    var newForward := saga.newPrimaryPathIds.forward.value.haPathId;
    var newReverse := saga.newPrimaryPathIds.reverse.value.haPathId;
    if newForward.None? || newReverse.None? {
      return true;
    }
    if saga.haFlowId !in repository.haFlows {
      return false;
    }
    var flow := repository.haFlows[saga.haFlowId];
    SaveOldPaths(saga, repository, flow.forwardPathId, flow.reversePathId, encapsulationOf);
    repository.haFlows := repository.haFlows[saga.haFlowId := flow.(forwardPathId := newForward, reversePathId := newReverse)];
    saga.history := saga.history + [SwapRecord(saga.haFlowId, newForward.value, newReverse.value)];
    found := true;
  }

  /**
   * Swaps the protected paths, always: in one transaction the old protected paths
   * are saved and marked, and the stored HA-flow's protected ids are overwritten
   * with the new protected ids, or with none when none were allocated. The swap is
   * recorded only when both new protected ids are known.
   */
  method SwapProtectedPaths(saga: HaFlowUpdateFsm, repository: HaFlowRepository,
                            encapsulationOf: (PathId, PathId, FlowEncapsulationType) -> Option<EncapsulationResources>)
    returns (found: bool)
    modifies saga`oldPathStatuses, saga`oldResources, saga`history
    modifies repository`haFlows, repository`haPaths, repository`subPaths
    ensures found <==> saga.haFlowId in old(repository.haFlows)
    ensures !found ==>
      && saga.oldPathStatuses == old(saga.oldPathStatuses) && saga.oldResources == old(saga.oldResources)
      && saga.history == old(saga.history) && repository.haFlows == old(repository.haFlows)
      && repository.haPaths == old(repository.haPaths) && repository.subPaths == old(repository.subPaths)
    ensures found ==>
      var flow := old(repository.haFlows[saga.haFlowId]);
      var newForward := ForwardId(saga.newProtectedPathIds);
      var newReverse := ReverseId(saga.newProtectedPathIds);
      var st := MarkOldPaths(PathStatuses(old(saga.oldPathStatuses), old(repository.haPaths), old(repository.subPaths)),
                             flow.protectedForwardPathId, flow.protectedReversePathId);
      && saga.oldPathStatuses == st.saved && repository.haPaths == st.haPaths && repository.subPaths == st.subPaths
      && saga.oldResources == old(saga.oldResources)
           + OldResourcesOf(old(repository.haPaths), old(repository.subPaths),
                            flow.protectedForwardPathId, flow.protectedReversePathId,
                            saga.originalEncapsulationType, encapsulationOf)
      && repository.haFlows == old(repository.haFlows)[saga.haFlowId :=
           flow.(protectedForwardPathId := newForward, protectedReversePathId := newReverse)]
      && saga.history == old(saga.history)
           + (if newForward.Some? && newReverse.Some? then [SwapRecord(saga.haFlowId, newForward.value, newReverse.value)] else [])
  {
    if saga.haFlowId !in repository.haFlows {
      return false;
    }
    var flow := repository.haFlows[saga.haFlowId];
    SaveOldPaths(saga, repository, flow.protectedForwardPathId, flow.protectedReversePathId, encapsulationOf);
    var newForward := ForwardId(saga.newProtectedPathIds);
    var newReverse := ReverseId(saga.newProtectedPathIds);
    repository.haFlows := repository.haFlows[saga.haFlowId :=
      flow.(protectedForwardPathId := newForward, protectedReversePathId := newReverse)];
    if newForward.Some? && newReverse.Some? {
      saga.history := saga.history + [SwapRecord(saga.haFlowId, newForward.value, newReverse.value)];
    }
    found := true;
  }

  /**
   * The action: the primary swap, then the protected swap. A missing HA-flow stops
   * the action where it is found missing, with nothing changed. Otherwise the old
   * primary paths (when both new primary ids are known) and then the old protected
   * paths are saved and marked IN_PROGRESS, their resources are kept for release,
   * the stored HA-flow gets the new ids and each swap with both new ids is recorded.
   */
  method Perform(saga: HaFlowUpdateFsm, repository: HaFlowRepository,
                 encapsulationOf: (PathId, PathId, FlowEncapsulationType) -> Option<EncapsulationResources>)
    returns (found: bool)
    requires saga.newPrimaryPathIds.forward.Some? && saga.newPrimaryPathIds.reverse.Some?
    modifies saga`oldPathStatuses, saga`oldResources, saga`history
    modifies repository`haFlows, repository`haPaths, repository`subPaths
    ensures found <==> saga.haFlowId in old(repository.haFlows)
    ensures !found ==>
      && saga.oldPathStatuses == old(saga.oldPathStatuses) && saga.oldResources == old(saga.oldResources)
      && saga.history == old(saga.history) && repository.haFlows == old(repository.haFlows)
      && repository.haPaths == old(repository.haPaths) && repository.subPaths == old(repository.subPaths)
    ensures found ==>
      var flow := old(repository.haFlows[saga.haFlowId]);
      var newForward := saga.newPrimaryPathIds.forward.value.haPathId;
      var newReverse := saga.newPrimaryPathIds.reverse.value.haPathId;
      var primarySwapped := newForward.Some? && newReverse.Some?;
      repository.haFlows == old(repository.haFlows)[saga.haFlowId := flow.(
        forwardPathId := if primarySwapped then newForward else flow.forwardPathId,
        reversePathId := if primarySwapped then newReverse else flow.reversePathId,
        protectedForwardPathId := ForwardId(saga.newProtectedPathIds),
        protectedReversePathId := ReverseId(saga.newProtectedPathIds))]
    ensures found ==>
      var flow := old(repository.haFlows[saga.haFlowId]);
      var primarySwapped := saga.newPrimaryPathIds.forward.value.haPathId.Some?
                            && saga.newPrimaryPathIds.reverse.value.haPathId.Some?;
      var st0 := PathStatuses(old(saga.oldPathStatuses), old(repository.haPaths), old(repository.subPaths));
      var st1 := if primarySwapped then MarkOldPaths(st0, flow.forwardPathId, flow.reversePathId) else st0;
      var st2 := MarkOldPaths(st1, flow.protectedForwardPathId, flow.protectedReversePathId);
      && saga.oldPathStatuses == st2.saved && repository.haPaths == st2.haPaths && repository.subPaths == st2.subPaths
      && saga.oldResources == old(saga.oldResources)
           + (if primarySwapped
              then OldResourcesOf(st0.haPaths, st0.subPaths, flow.forwardPathId, flow.reversePathId,
                                  saga.originalEncapsulationType, encapsulationOf)
              else [])
           + OldResourcesOf(st1.haPaths, st1.subPaths, flow.protectedForwardPathId, flow.protectedReversePathId,
                            saga.originalEncapsulationType, encapsulationOf)
    ensures found ==>
      var newForward := saga.newPrimaryPathIds.forward.value.haPathId;
      var newReverse := saga.newPrimaryPathIds.reverse.value.haPathId;
      var newProtectedForward := ForwardId(saga.newProtectedPathIds);
      var newProtectedReverse := ReverseId(saga.newProtectedPathIds);
      saga.history == old(saga.history)
        + (if newForward.Some? && newReverse.Some? then [SwapRecord(saga.haFlowId, newForward.value, newReverse.value)] else [])
        + (if newProtectedForward.Some? && newProtectedReverse.Some?
           then [SwapRecord(saga.haFlowId, newProtectedForward.value, newProtectedReverse.value)] else [])
    ensures found ==> repository.haPaths.Keys == old(repository.haPaths.Keys)
    ensures found ==> repository.subPaths.Keys == old(repository.subPaths.Keys)
  {
    if saga.haFlowId in repository.haFlows {
      var flow := repository.haFlows[saga.haFlowId];
      MarkOldPathsSetsInProgress(PathStatuses(saga.oldPathStatuses, repository.haPaths, repository.subPaths),
                                 flow.forwardPathId, flow.reversePathId);
    }
    found := SwapPrimaryPaths(saga, repository, encapsulationOf);
    if !found {
      return;
    }
    ghost var afterPrimary := PathStatuses(saga.oldPathStatuses, repository.haPaths, repository.subPaths);
    found := SwapProtectedPaths(saga, repository, encapsulationOf);
    if found {
      MarkOldPathsSetsInProgress(afterPrimary, old(repository.haFlows[saga.haFlowId]).protectedForwardPathId,
                                 old(repository.haFlows[saga.haFlowId]).protectedReversePathId);
    }
  }
}

// The state the actions of an HA-flow update saga share: the stored HA-flow
// with its paths and sub-paths, and the saga's own bookkeeping (path-id pairs,
// saved path statuses, resources to release, pending speaker commands, history).
// The status bookkeeping of a path swap and of its revert is specified here by
// functions over the stored maps, with the lemmas that make the revert a
// compensation of the swap.

module HaFlowUpdateSaga {
  import opened Wrappers
  import opened FlowModel

  type PathId = string

  /** A sub-path of an HA path: a flow path of one HA sub-flow. */
  datatype SubPath = SubPath(
    pathId: PathId,
    haSubFlowId: string,
    meterId: Option<nat>,
    status: Option<FlowPathStatus>)

  /** One direction of an HA-flow; its sub-paths are referenced by path id. */
  datatype HaFlowPath = HaFlowPath(
    haPathId: PathId,
    flowEffectiveId: nat,
    sharedPointMeterId: Option<nat>,
    yPointMeterId: Option<nat>,
    yPointGroupId: Option<nat>,
    subPathIds: seq<PathId>,
    status: Option<FlowPathStatus>)

  /** The stored HA-flow: the ids of its primary and protected paths. */
  datatype HaFlow = HaFlow(
    haFlowId: string,
    forwardPathId: Option<PathId>,
    reversePathId: Option<PathId>,
    protectedForwardPathId: Option<PathId>,
    protectedReversePathId: Option<PathId>,
    encapsulationType: FlowEncapsulationType,
    status: FlowStatus)

  /** The id of one HA path and the ids of its sub-paths keyed by HA sub-flow id. */
  datatype HaFlowPathIds = HaFlowPathIds(haPathId: Option<PathId>, subPathIds: map<string, PathId>)

  /** The ids of a forward/reverse pair of HA paths; either side may be absent. */
  datatype HaPathIdsPair = HaPathIdsPair(forward: Option<HaFlowPathIds>, reverse: Option<HaFlowPathIds>)

  /** Transit encapsulation allocated to a pair of paths. */
  datatype EncapsulationResources = EncapsulationResources(transitEncapsulationId: nat, encapsulationType: FlowEncapsulationType)

  /** The resources of one HA path, kept so that they can be released later. */
  datatype HaPathResources = HaPathResources(
    pathId: PathId,
    sharedMeterId: Option<nat>,
    yPointMeterId: Option<nat>,
    yPointGroupId: Option<nat>,
    encapsulationResources: Option<EncapsulationResources>,
    subPathIds: map<string, PathId>,
    subPathMeters: map<string, Option<nat>>)

  /** The resources of a forward/reverse pair of HA paths. */
  datatype HaFlowResources = HaFlowResources(unmaskedCookie: nat, forward: HaPathResources, reverse: HaPathResources)

  /** A batch of speaker commands sent to one switch. */
  datatype SpeakerRequest = SpeakerRequest(switchId: string, commandCount: nat)

  /** The events the modelled actions fire on the HA-flow update saga. */
  datatype HaFlowUpdateEvent = UPDATE_ENDPOINT_RULES_ONLY

  /** The persisted HA-flows, HA paths and sub-paths, keyed by id. */
  class HaFlowRepository {
    var haFlows: map<string, HaFlow>
    var haPaths: map<PathId, HaFlowPath>
    var subPaths: map<PathId, SubPath>

    constructor (haFlows: map<string, HaFlow>, haPaths: map<PathId, HaFlowPath>, subPaths: map<PathId, SubPath>)
      ensures this.haFlows == haFlows && this.haPaths == haPaths && this.subPaths == subPaths
    {
      this.haFlows := haFlows;
      this.haPaths := haPaths;
      this.subPaths := subPaths;
    }
  }

  /** The saga of one HA-flow update, as far as the modelled actions read and write it. */
  class HaFlowUpdateFsm {
    const haFlowId: string
    /** Encapsulation type of the HA-flow before the update. */
    const originalEncapsulationType: FlowEncapsulationType
    var newPrimaryPathIds: HaPathIdsPair
    var newProtectedPathIds: Option<HaPathIdsPair>
    var oldPrimaryPathIds: Option<HaPathIdsPair>
    var oldProtectedPathIds: Option<HaPathIdsPair>
    /** Path statuses saved before the swap, for a revert. */
    var oldPathStatuses: map<PathId, Option<FlowPathStatus>>
    var oldResources: seq<HaFlowResources>
    var partialUpdateEndpoints: set<string>
    /** Speaker commands still awaited: command id to switch id. */
    var pendingCommands: map<string, string>
    var removeCommands: map<string, SpeakerRequest>
    var ingressCommands: map<string, SpeakerRequest>
    var nonIngressCommands: map<string, SpeakerRequest>
    var history: seq<HistoryRecord>
    var firedEvents: seq<HaFlowUpdateEvent>

    constructor (haFlowId: string, originalEncapsulationType: FlowEncapsulationType, newPrimaryPathIds: HaPathIdsPair)
      ensures this.haFlowId == haFlowId && this.originalEncapsulationType == originalEncapsulationType
      ensures this.newPrimaryPathIds == newPrimaryPathIds && newProtectedPathIds == None
      ensures oldPrimaryPathIds == None && oldProtectedPathIds == None
      ensures oldPathStatuses == map[] && oldResources == [] && partialUpdateEndpoints == {}
      ensures pendingCommands == map[] && removeCommands == map[] && ingressCommands == map[]
      ensures nonIngressCommands == map[] && history == [] && firedEvents == []
    {
      this.haFlowId := haFlowId;
      this.originalEncapsulationType := originalEncapsulationType;
      this.newPrimaryPathIds := newPrimaryPathIds;
      newProtectedPathIds := None;
      oldPrimaryPathIds := None;
      oldProtectedPathIds := None;
      oldPathStatuses := map[];
      oldResources := [];
      partialUpdateEndpoints := {};
      pendingCommands := map[];
      removeCommands := map[];
      ingressCommands := map[];
      nonIngressCommands := map[];
      history := [];
      firedEvents := [];
    }
  }

  /** The HA path an optional path id refers to, if it is stored. */
  function PathOf(haPaths: map<PathId, HaFlowPath>, id: Option<PathId>): (p: Option<HaFlowPath>)
    ensures p.Some? <==> id.Some? && id.value in haPaths
    ensures p.Some? ==> p.value == haPaths[id.value]
  {
    if id.Some? && id.value in haPaths then Some(haPaths[id.value]) else None
  }

  /** The stored sub-paths of an HA path, in the path's order. */
  function SubPathsOf(path: HaFlowPath, subPaths: map<PathId, SubPath>): (subs: seq<SubPath>)
    ensures |subs| <= |path.subPathIds|
    ensures forall s :: s in subs ==> exists id :: id in path.subPathIds && id in subPaths && subPaths[id] == s
    decreases |path.subPathIds|
  {
    if path.subPathIds == [] then []
    else
      var rest := SubPathsOf(path.(subPathIds := path.subPathIds[1..]), subPaths);
      var id := path.subPathIds[0];
      if id in subPaths then [subPaths[id]] + rest else rest
  }

  /** The status saved for a path id; nothing when none was saved. */
  function SavedStatus(saved: map<PathId, Option<FlowPathStatus>>, id: PathId): Option<FlowPathStatus> {
    if id in saved then saved[id] else None
  }

  /** The saved statuses after the statuses of a path and of its stored sub-paths are recorded. */
  function SaveStatuses(saved: map<PathId, Option<FlowPathStatus>>, path: HaFlowPath,
                        subPaths: map<PathId, SubPath>): (r: map<PathId, Option<FlowPathStatus>>)
    ensures forall id :: id in path.subPathIds && id in subPaths ==> id in r && r[id] == subPaths[id].status
    ensures path.haPathId !in path.subPathIds || path.haPathId !in subPaths ==>
      path.haPathId in r && r[path.haPathId] == path.status
    ensures forall id :: id in saved ==> id in r
    ensures forall id :: id in r && id != path.haPathId && !(id in path.subPathIds && id in subPaths) ==>
      id in saved && r[id] == saved[id]
  {
    saved[path.haPathId := path.status] + map id | id in path.subPathIds && id in subPaths :: subPaths[id].status
  }

  /** The sub-paths after those whose ids are given become IN_PROGRESS. */
  function SubPathsInProgress(subPaths: map<PathId, SubPath>, ids: set<PathId>): (r: map<PathId, SubPath>)
    ensures r.Keys == subPaths.Keys
    ensures forall k :: k in ids && k in subPaths ==> r[k] == subPaths[k].(status := Some(FlowPathStatus.IN_PROGRESS))
    ensures forall k :: k !in ids && k in subPaths ==> r[k] == subPaths[k]
  {
    map k | k in subPaths :: if k in ids then subPaths[k].(status := Some(FlowPathStatus.IN_PROGRESS)) else subPaths[k]
  }

  /**
   * The HA paths after a revert of the path with the given id: a stored path that
   * is not ACTIVE gets its saved status back; nothing else changes.
   */
  function RestorePath(haPaths: map<PathId, HaFlowPath>, id: Option<PathId>,
                       saved: map<PathId, Option<FlowPathStatus>>): (r: map<PathId, HaFlowPath>)
    ensures r.Keys == haPaths.Keys
    ensures forall k :: k in haPaths && (id != Some(k) || haPaths[k].status == Some(FlowPathStatus.ACTIVE)) ==>
      r[k] == haPaths[k]
    ensures id.Some? && id.value in haPaths && haPaths[id.value].status != Some(FlowPathStatus.ACTIVE) ==>
      r[id.value] == haPaths[id.value].(status := SavedStatus(saved, id.value))
  {
    if id.Some? && id.value in haPaths && haPaths[id.value].status != Some(FlowPathStatus.ACTIVE) then
      haPaths[id.value := haPaths[id.value].(status := SavedStatus(saved, id.value))]
    else haPaths
  }

  /** The sub-paths after a revert of those whose ids are given, path by path as RestorePath. */
  function RestoreSubPaths(subPaths: map<PathId, SubPath>, ids: set<PathId>,
                           saved: map<PathId, Option<FlowPathStatus>>): (r: map<PathId, SubPath>)
    ensures r.Keys == subPaths.Keys
    ensures forall k :: k in subPaths && (k !in ids || subPaths[k].status == Some(FlowPathStatus.ACTIVE)) ==>
      r[k] == subPaths[k]
    ensures forall k :: k in subPaths && k in ids && subPaths[k].status != Some(FlowPathStatus.ACTIVE) ==>
      r[k] == subPaths[k].(status := SavedStatus(saved, k))
  {
    map k | k in subPaths ::
      if k in ids && subPaths[k].status != Some(FlowPathStatus.ACTIVE) then subPaths[k].(status := SavedStatus(saved, k))
      else subPaths[k]
  }

  /**
   * Reverting the sub-paths a swap marked IN_PROGRESS, with the statuses the swap
   * saved, gives back the sub-paths as they were before the swap.
   */
  lemma {:induction false} SubPathRevertUndoesSwap(subPaths: map<PathId, SubPath>, ids: set<PathId>,
                                                   saved: map<PathId, Option<FlowPathStatus>>)
    requires forall k :: k in ids && k in subPaths ==> k in saved && saved[k] == subPaths[k].status
    ensures RestoreSubPaths(SubPathsInProgress(subPaths, ids), ids, saved) == subPaths
  {
    var marked := SubPathsInProgress(subPaths, ids);
    var r := RestoreSubPaths(marked, ids, saved);
    forall k | k in subPaths
      ensures r[k] == subPaths[k]
    {
      if k in ids {
        assert marked[k].status == Some(FlowPathStatus.IN_PROGRESS);
        assert r[k] == marked[k].(status := SavedStatus(saved, k));
      }
    }
    assert r.Keys == subPaths.Keys;
  }

  /**
   * Reverting a path the swap marked IN_PROGRESS, with the status the swap saved,
   * gives back the path as it was before the swap.
   */
  lemma PathRevertUndoesSwap(haPaths: map<PathId, HaFlowPath>, id: PathId, saved: map<PathId, Option<FlowPathStatus>>)
    requires id in haPaths && id in saved && saved[id] == haPaths[id].status
    ensures RestorePath(haPaths[id := haPaths[id].(status := Some(FlowPathStatus.IN_PROGRESS))], Some(id), saved) == haPaths
  {
  }

  /** A second revert with the same saved statuses changes nothing more. */
  lemma {:induction false} RestoreSubPathsIdempotent(subPaths: map<PathId, SubPath>, ids: set<PathId>,
                                                     saved: map<PathId, Option<FlowPathStatus>>)
    ensures RestoreSubPaths(RestoreSubPaths(subPaths, ids, saved), ids, saved) == RestoreSubPaths(subPaths, ids, saved)
  {
    var once := RestoreSubPaths(subPaths, ids, saved);
    var twice := RestoreSubPaths(once, ids, saved);
    forall k | k in once
      ensures twice[k] == once[k]
    {
      if k in ids && once[k].status != Some(FlowPathStatus.ACTIVE) {
        assert once[k] == subPaths[k].(status := SavedStatus(saved, k));
      }
    }
    assert twice.Keys == once.Keys;
  }

  /** The path statuses a swap and its revert work on: saved statuses, HA paths and sub-paths. */
  datatype PathStatuses = PathStatuses(
    saved: map<PathId, Option<FlowPathStatus>>,
    haPaths: map<PathId, HaFlowPath>,
    subPaths: map<PathId, SubPath>)

  /** The ids of the sub-paths an HA path lists. */
  function SubPathIdsOf(path: HaFlowPath): set<PathId> {
    set id | id in path.subPathIds
  }

  /** Saves the statuses of a stored HA path and its sub-paths, then marks them IN_PROGRESS. */
  function SaveAndMark(st: PathStatuses, id: PathId): PathStatuses
    requires id in st.haPaths
  {
    var path := st.haPaths[id];
    PathStatuses(SaveStatuses(st.saved, path, st.subPaths),
                 st.haPaths[id := path.(status := Some(FlowPathStatus.IN_PROGRESS))],
                 SubPathsInProgress(st.subPaths, SubPathIdsOf(path)))
  }

  /** SaveAndMark applied to the old forward path and then to the old reverse path, where stored. */
  function MarkOldPaths(st: PathStatuses, forwardId: Option<PathId>, reverseId: Option<PathId>): PathStatuses {
    var st1 := if forwardId.Some? && forwardId.value in st.haPaths then SaveAndMark(st, forwardId.value) else st;
    if reverseId.Some? && reverseId.value in st1.haPaths then SaveAndMark(st1, reverseId.value) else st1
  }

  /** Reverts one side of a pair: its HA path and the given sub-paths get their saved statuses back. */
  function RestoreSide(st: PathStatuses, id: Option<PathId>, subIds: set<PathId>): PathStatuses {
    PathStatuses(st.saved, RestorePath(st.haPaths, id, st.saved), RestoreSubPaths(st.subPaths, subIds, st.saved))
  }

  /**
   * After a swap, every old path that is stored and each of its stored sub-paths
   * is IN_PROGRESS; no path or sub-path appears or disappears, and the paths not
   * involved keep their status.
   */
  lemma MarkOldPathsSetsInProgress(st: PathStatuses, forwardId: Option<PathId>, reverseId: Option<PathId>)
    ensures var r := MarkOldPaths(st, forwardId, reverseId);
      && r.haPaths.Keys == st.haPaths.Keys && r.subPaths.Keys == st.subPaths.Keys
      && (forall id :: id in st.haPaths && (Some(id) == forwardId || Some(id) == reverseId) ==>
            && r.haPaths[id].status == Some(FlowPathStatus.IN_PROGRESS)
            && forall sub :: sub in st.haPaths[id].subPathIds && sub in st.subPaths ==>
                 r.subPaths[sub].status == Some(FlowPathStatus.IN_PROGRESS))
      && (forall id :: id in st.haPaths && Some(id) != forwardId && Some(id) != reverseId ==> r.haPaths[id] == st.haPaths[id])
  {
  }

  /**
   * The revert compensates the swap: marking the old forward and reverse paths
   * and then restoring both sides with the statuses the swap saved gives back
   * the paths and sub-paths as they were, provided no id is shared between the
   * two paths and their sub-paths.
   */
  lemma {:induction false} RevertUndoesSwap(st: PathStatuses, f: PathId, r: PathId)
    requires f in st.haPaths && r in st.haPaths && f != r
    requires st.haPaths[f].haPathId == f && st.haPaths[r].haPathId == r
    requires SubPathIdsOf(st.haPaths[f]) !! SubPathIdsOf(st.haPaths[r])
    requires f !in SubPathIdsOf(st.haPaths[f]) + SubPathIdsOf(st.haPaths[r])
    requires r !in SubPathIdsOf(st.haPaths[f]) + SubPathIdsOf(st.haPaths[r])
    ensures var swapped := MarkOldPaths(st, Some(f), Some(r));
      var reverted := RestoreSide(RestoreSide(swapped, Some(f), SubPathIdsOf(st.haPaths[f])),
                                  Some(r), SubPathIdsOf(st.haPaths[r]));
      reverted.haPaths == st.haPaths && reverted.subPaths == st.subPaths
  {
    var fSubs := SubPathIdsOf(st.haPaths[f]);
    var rSubs := SubPathIdsOf(st.haPaths[r]);
    var st1 := SaveAndMark(st, f);
    assert st1.haPaths[r] == st.haPaths[r];
    var st2 := SaveAndMark(st1, r);
    assert MarkOldPaths(st, Some(f), Some(r)) == st2;
    assert st2.subPaths == SubPathsInProgress(SubPathsInProgress(st.subPaths, fSubs), rSubs);
    // what the swap saved
    assert st1.saved[f] == st.haPaths[f].status;
    assert st2.saved[f] == st.haPaths[f].status;
    assert st2.saved[r] == st.haPaths[r].status;
    forall k | k in st.subPaths && k in fSubs + rSubs
      ensures k in st2.saved && st2.saved[k] == st.subPaths[k].status
    {
      if k in fSubs {
        assert k !in rSubs;
        assert st1.saved[k] == st.subPaths[k].status;
      }
    }
    PathsRevertUndoesSwap(st.haPaths, f, r, st2.saved);
    SubPathsRevertUndoesSwap(st.subPaths, fSubs, rSubs, st2.saved);
  }

  /** The HA-path half of RevertUndoesSwap: both marked paths get their saved statuses back. */
  lemma PathsRevertUndoesSwap(haPaths: map<PathId, HaFlowPath>, f: PathId, r: PathId,
                              saved: map<PathId, Option<FlowPathStatus>>)
    requires f in haPaths && r in haPaths && f != r
    requires f in saved && saved[f] == haPaths[f].status && r in saved && saved[r] == haPaths[r].status
    ensures var marked := haPaths[f := haPaths[f].(status := Some(FlowPathStatus.IN_PROGRESS))];
      var marked2 := marked[r := marked[r].(status := Some(FlowPathStatus.IN_PROGRESS))];
      RestorePath(RestorePath(marked2, Some(f), saved), Some(r), saved) == haPaths
  {
    var marked := haPaths[f := haPaths[f].(status := Some(FlowPathStatus.IN_PROGRESS))];
    var marked2 := marked[r := marked[r].(status := Some(FlowPathStatus.IN_PROGRESS))];
    var back1 := RestorePath(marked2, Some(f), saved);
    assert back1 == marked2[f := haPaths[f]];
    var back2 := RestorePath(back1, Some(r), saved);
    assert back2 == back1[r := haPaths[r]];
  }

  /** The sub-path half of RevertUndoesSwap, for two disjoint sets of sub-path ids. */
  lemma {:induction false} SubPathsRevertUndoesSwap(subPaths: map<PathId, SubPath>, fSubs: set<PathId>,
                                                    rSubs: set<PathId>, saved: map<PathId, Option<FlowPathStatus>>)
    requires fSubs !! rSubs
    requires forall k :: k in subPaths && k in fSubs + rSubs ==> k in saved && saved[k] == subPaths[k].status
    ensures var marked := SubPathsInProgress(SubPathsInProgress(subPaths, fSubs), rSubs);
      RestoreSubPaths(RestoreSubPaths(marked, fSubs, saved), rSubs, saved) == subPaths
  {
    var marked := SubPathsInProgress(SubPathsInProgress(subPaths, fSubs), rSubs);
    var back1 := RestoreSubPaths(marked, fSubs, saved);
    var back2 := RestoreSubPaths(back1, rSubs, saved);
    forall k | k in subPaths
      ensures back2[k] == subPaths[k]
    {
      if k in fSubs {
        assert k !in rSubs;
        assert marked[k].status == Some(FlowPathStatus.IN_PROGRESS);
      } else if k in rSubs {
        assert back1[k] == marked[k];
        assert marked[k].status == Some(FlowPathStatus.IN_PROGRESS);
      }
    }
    assert back2.Keys == subPaths.Keys;
  }

  /** The id of the forward HA path of an optional pair, if any. */
  function ForwardId(pair: Option<HaPathIdsPair>): (id: Option<PathId>)
    ensures id.Some? <==> pair.Some? && pair.value.forward.Some? && pair.value.forward.value.haPathId.Some?
  {
    if pair.Some? && pair.value.forward.Some? then pair.value.forward.value.haPathId else None
  }

  /** The id of the reverse HA path of an optional pair, if any. */
  function ReverseId(pair: Option<HaPathIdsPair>): (id: Option<PathId>)
    ensures id.Some? <==> pair.Some? && pair.value.reverse.Some? && pair.value.reverse.value.haPathId.Some?
  {
    if pair.Some? && pair.value.reverse.Some? then pair.value.reverse.value.haPathId else None
  }

  /** The sub-path ids of one side of a pair; none when the side is absent. */
  function SubPathIdSet(side: Option<HaFlowPathIds>): (ids: set<PathId>)
    ensures side.None? ==> ids == {}
  {
    if side.None? then {} else side.value.subPathIds.Values
  }

  /** The ids of a pair as they were recorded from a flow's two path ids. */
  predicate RecordedFrom(pair: Option<HaPathIdsPair>, forwardId: Option<PathId>, reverseId: Option<PathId>) {
    pair.Some? && pair.value.forward.Some? && pair.value.reverse.Some?
    && pair.value.forward.value.haPathId == forwardId && pair.value.reverse.value.haPathId == reverseId
  }
}

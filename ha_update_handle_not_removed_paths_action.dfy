// The HA-flow update action run when the old paths could not be removed: one
// history error for every old sub-path and every old HA path the saga recorded.

module HaUpdateHandleNotRemovedPathsAction {
  import opened Wrappers
  import opened Enumeration
  import opened FlowModel
  import opened HaFlowUpdateSaga

  /** The sub-path ids of both sides of a recorded pair; none without a pair. */
  function PairSubPathIds(pair: Option<HaPathIdsPair>): set<PathId> {
    if pair.None? then {} else SubPathIdSet(pair.value.forward) + SubPathIdSet(pair.value.reverse)
  }

  /** The HA path id of one side of a pair, when the side and its id are present. */
  function SidePathId(side: Option<HaFlowPathIds>): (ids: seq<PathId>)
    ensures |ids| <= 1
    ensures |ids| == 1 <==> side.Some? && side.value.haPathId.Some?
  {
    if side.Some? && side.value.haPathId.Some? then [side.value.haPathId.value] else []
  }

  /** The HA path ids of a recorded pair, forward first, absent ids left out. */
  function PairHaPathIds(pair: Option<HaPathIdsPair>): (ids: seq<PathId>)
    ensures |ids| <= 2
    ensures pair.None? ==> ids == []
  {
    if pair.None? then [] else SidePathId(pair.value.forward) + SidePathId(pair.value.reverse)
  }

  /** The error recorded for an old sub-path. */
  function SubPathRecord(id: PathId): HistoryRecord {
    HistoryError("Failed to remove the ha sub path " + id, None)
  }

  /** The error recorded for an old HA path. */
  function HaPathRecord(id: PathId): HistoryRecord {
    HistoryError("Failed to remove the ha flow path " + id, None)
  }

  /** The errors for the given sub-path ids, in order. */
  function SubPathRecords(ids: seq<PathId>): seq<HistoryRecord>
    decreases |ids|
  {
    if ids == [] then [] else SubPathRecords(ids[..|ids| - 1]) + [SubPathRecord(ids[|ids| - 1])]
  }

  /** The errors for the given HA path ids, in order. */
  function HaPathRecords(ids: seq<PathId>): seq<HistoryRecord>
    decreases |ids|
  {
    if ids == [] then [] else HaPathRecords(ids[..|ids| - 1]) + [HaPathRecord(ids[|ids| - 1])]
  }

  /** One sub-path error per id, the i-th naming the i-th id. */
  lemma {:induction false} SubPathRecordsMatch(ids: seq<PathId>)
    ensures |SubPathRecords(ids)| == |ids|
    ensures forall i :: 0 <= i < |ids| ==> SubPathRecords(ids)[i] == SubPathRecord(ids[i])
    decreases |ids|
  {
    if ids != [] {
      var init := ids[..|ids| - 1];
      SubPathRecordsMatch(init);
      assert SubPathRecords(ids) == SubPathRecords(init) + [SubPathRecord(ids[|ids| - 1])];
      forall i | 0 <= i < |ids|
        ensures SubPathRecords(ids)[i] == SubPathRecord(ids[i])
      {
        if i < |init| {
          assert ids[i] == init[i];
        }
      }
    }
  }

  /** One HA path error per id, the i-th naming the i-th id. */
  lemma {:induction false} HaPathRecordsMatch(ids: seq<PathId>)
    ensures |HaPathRecords(ids)| == |ids|
    ensures forall i :: 0 <= i < |ids| ==> HaPathRecords(ids)[i] == HaPathRecord(ids[i])
    decreases |ids|
  {
    if ids != [] {
      var init := ids[..|ids| - 1];
      HaPathRecordsMatch(init);
      assert HaPathRecords(ids) == HaPathRecords(init) + [HaPathRecord(ids[|ids| - 1])];
      forall i | 0 <= i < |ids|
        ensures HaPathRecords(ids)[i] == HaPathRecord(ids[i])
      {
        if i < |init| {
          assert ids[i] == init[i];
        }
      }
    }
  }

  /** Exactly one error per id, the i-th naming the i-th id. */
  lemma {:induction false} RecordsMatchIds(ids: seq<PathId>)
    ensures |SubPathRecords(ids)| == |ids| && |HaPathRecords(ids)| == |ids|
    ensures forall i :: 0 <= i < |ids| ==> SubPathRecords(ids)[i] == SubPathRecord(ids[i])
    ensures forall i :: 0 <= i < |ids| ==> HaPathRecords(ids)[i] == HaPathRecord(ids[i])
  {
    SubPathRecordsMatch(ids);
    HaPathRecordsMatch(ids);
  }

  /**
   * The errors the action records: one per sub-path id, in the order given, then
   * one per HA path id of the old primary pair and of the old protected pair.
   */
  function NotRemovedRecords(subPathOrder: seq<PathId>, primary: Option<HaPathIdsPair>,
                             protected: Option<HaPathIdsPair>): seq<HistoryRecord>
  {
    SubPathRecords(subPathOrder) + HaPathRecords(PairHaPathIds(primary) + PairHaPathIds(protected))
  }

  /**
   * One error per visited sub-path id, in the order visited, then one per present
   * old HA path id, primary pair first.
   */
  lemma NotRemovedRecordsShape(subPathOrder: seq<PathId>, primary: Option<HaPathIdsPair>, protected: Option<HaPathIdsPair>)
    ensures var r := NotRemovedRecords(subPathOrder, primary, protected);
      var haIds := PairHaPathIds(primary) + PairHaPathIds(protected);
      && |r| == |subPathOrder| + |haIds|
      && (forall i :: 0 <= i < |subPathOrder| ==> r[i] == SubPathRecord(subPathOrder[i]))
      && (forall i :: 0 <= i < |haIds| ==> r[|subPathOrder| + i] == HaPathRecord(haIds[i]))
  {
    var r := NotRemovedRecords(subPathOrder, primary, protected);
    var subRecords := SubPathRecords(subPathOrder);
    var haIds := PairHaPathIds(primary) + PairHaPathIds(protected);
    var haRecords := HaPathRecords(haIds);
    assert r == subRecords + haRecords;
    RecordsMatchIds(subPathOrder);
    RecordsMatchIds(haIds);
    forall i | 0 <= i < |haIds|
      ensures r[|subPathOrder| + i] == HaPathRecord(haIds[i])
    {
      assert r[|subRecords| + i] == haRecords[i];
    }
  }

  /**
   * When each pair's visit order enumerates that pair's sub-path ids, there is one
   * error per old sub-path of each pair (an id both pairs hold counts twice) and
   * per present old HA path id; without recorded pairs, none.
   */
  lemma NotRemovedRecordsCount(primaryOrder: seq<PathId>, protectedOrder: seq<PathId>,
                               primary: Option<HaPathIdsPair>, protected: Option<HaPathIdsPair>)
    requires Enumerates(primaryOrder, PairSubPathIds(primary))
    requires Enumerates(protectedOrder, PairSubPathIds(protected))
    ensures var r := NotRemovedRecords(primaryOrder + protectedOrder, primary, protected);
      && |r| == |PairSubPathIds(primary)| + |PairSubPathIds(protected)| + |PairHaPathIds(primary) + PairHaPathIds(protected)|
      && (primary.None? && protected.None? ==> r == [])
  {
    NotRemovedRecordsShape(primaryOrder + protectedOrder, primary, protected);
    EnumerationSize(primaryOrder, PairSubPathIds(primary));
    EnumerationSize(protectedOrder, PairSubPathIds(protected));
  }

  /** Records an error for each given sub-path id, in order. */
  method RecordSubPaths(saga: HaFlowUpdateFsm, ids: seq<PathId>)
    modifies saga`history
    ensures saga.history == old(saga.history) + SubPathRecords(ids)
  {
    for i := 0 to |ids|
      invariant saga.history == old(saga.history) + SubPathRecords(ids[..i])
    {
      assert ids[..i + 1][..i] == ids[..i];
      saga.history := saga.history + [SubPathRecord(ids[i])];
    }
    assert ids[..|ids|] == ids;
  }

  /** Records an error for each given HA path id, in order. */
  method RecordHaPaths(saga: HaFlowUpdateFsm, ids: seq<PathId>)
    modifies saga`history
    ensures saga.history == old(saga.history) + HaPathRecords(ids)
  {
    for i := 0 to |ids|
      invariant saga.history == old(saga.history) + HaPathRecords(ids[..i])
    {
      assert ids[..i + 1][..i] == ids[..i];
      saga.history := saga.history + [HaPathRecord(ids[i])];
    }
    assert ids[..|ids|] == ids;
  }

  /** Records the errors for the listed sub-path ids, then for the old HA path ids. */
  method RecordNotRemoved(saga: HaFlowUpdateFsm, subPathIds: seq<PathId>)
    modifies saga`history
    ensures saga.history == old(saga.history)
      + NotRemovedRecords(subPathIds, saga.oldPrimaryPathIds, saga.oldProtectedPathIds)
  {
    ghost var before := saga.history;
    RecordSubPaths(saga, subPathIds);
    var haFlowPathIds := PairHaPathIds(saga.oldPrimaryPathIds) + PairHaPathIds(saga.oldProtectedPathIds);
    RecordHaPaths(saga, haFlowPathIds);
    assert saga.history == before + (SubPathRecords(subPathIds) + HaPathRecords(haFlowPathIds));
  }

  /**
   * The action. The old sub-path ids are listed primary pair first, then protected
   * pair, duplicates kept; within a pair they come in the order the pair hands them
   * out (given as primaryOrder and protectedOrder). Only the history changes.
   */
  method Perform(saga: HaFlowUpdateFsm, primaryOrder: seq<PathId>, protectedOrder: seq<PathId>)
    requires Enumerates(primaryOrder, PairSubPathIds(saga.oldPrimaryPathIds))
    requires Enumerates(protectedOrder, PairSubPathIds(saga.oldProtectedPathIds))
    modifies saga`history
    ensures saga.history == old(saga.history)
      + NotRemovedRecords(primaryOrder + protectedOrder, saga.oldPrimaryPathIds, saga.oldProtectedPathIds)
  {
    RecordNotRemoved(saga, primaryOrder + protectedOrder);
  }
}

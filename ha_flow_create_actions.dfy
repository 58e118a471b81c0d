// Two failure handlers of the HA-flow create saga: the one that marks a flow
// that could not be created DOWN, and the one that records the resources that
// could not be deallocated.

module HaFlowCreateSaga {
  import opened Wrappers
  import opened FlowModel
  import opened HaFlowUpdateSaga

  datatype HaFlowCreateEvent = NEXT

  /** The part of the HA-flow create saga the failure handlers work on. */
  class HaFlowCreateFsm {
    const haFlowId: string
    /** Why the creation failed; absent when no reason was given. */
    var errorReason: Option<string>
    /** The resources allocated for the flow, in the order the collection hands them out. */
    var haFlowResources: seq<HaFlowResources>
    var history: seq<HistoryRecord>
    var firedEvents: seq<HaFlowCreateEvent>

    constructor (haFlowId: string, errorReason: Option<string>, haFlowResources: seq<HaFlowResources>)
      ensures this.haFlowId == haFlowId && this.errorReason == errorReason
      ensures this.haFlowResources == haFlowResources && history == [] && firedEvents == []
    {
      this.haFlowId := haFlowId;
      this.errorReason := errorReason;
      this.haFlowResources := haFlowResources;
      history := [];
      firedEvents := [];
    }
  }

  /** The flow status updates reported to the operations dashboard, in order. */
  class DashboardLog {
    var statusUpdates: seq<(string, FlowStatus)>

    constructor ()
      ensures statusUpdates == []
    {
      statusUpdates := [];
    }
  }
}

module HaCreateHandleNotCreatedHaFlowAction {
  import opened Wrappers
  import opened FlowModel
  import opened HaFlowUpdateSaga
  import opened HaFlowCreateSaga

  /**
   * The stored HA flows after the status of the given one is set to DOWN: a stored
   * flow becomes DOWN with nothing else changed; without one nothing changes.
   */
  function MarkedDown(haFlows: map<string, HaFlow>, haFlowId: string): (r: map<string, HaFlow>)
    ensures r.Keys == haFlows.Keys
    ensures haFlowId in haFlows ==> r[haFlowId] == haFlows[haFlowId].(status := FlowStatus.DOWN)
    ensures forall id :: id in haFlows && id != haFlowId ==> r[id] == haFlows[id]
  {
    if haFlowId in haFlows then haFlows[haFlowId := haFlows[haFlowId].(status := FlowStatus.DOWN)] else haFlows
  }

  /** Marking a flow DOWN a second time changes nothing more. */
  lemma MarkedDownIdempotent(haFlows: map<string, HaFlow>, haFlowId: string)
    ensures MarkedDown(MarkedDown(haFlows, haFlowId), haFlowId) == MarkedDown(haFlows, haFlowId)
  {
  }

  /** The history entry recorded for a flow that could not be created. */
  function NotCreatedRecord(errorReason: Option<string>): (r: HistoryRecord)
    ensures r.HistoryAction? && r.action == "Failed to create the flow" && r.description == errorReason
  {
    HistoryAction("Failed to create the flow", errorReason)
  }

  /**
   * The action: DOWN is reported to the dashboard and stored for the flow, the
   * failure is recorded with the saga's error reason, and NEXT is fired once.
   */
  method Perform(saga: HaFlowCreateFsm, repository: HaFlowRepository, dashboard: DashboardLog)
    modifies saga`history, saga`firedEvents, repository`haFlows, dashboard
    ensures dashboard.statusUpdates == old(dashboard.statusUpdates) + [(saga.haFlowId, FlowStatus.DOWN)]
    ensures repository.haFlows == MarkedDown(old(repository.haFlows), saga.haFlowId)
    ensures saga.history == old(saga.history) + [NotCreatedRecord(saga.errorReason)]
    ensures saga.firedEvents == old(saga.firedEvents) + [NEXT]
  {
    var haFlowId := saga.haFlowId;
    dashboard.statusUpdates := dashboard.statusUpdates + [(haFlowId, FlowStatus.DOWN)];
    repository.haFlows := MarkedDown(repository.haFlows, haFlowId);
    saga.history := saga.history + [NotCreatedRecord(saga.errorReason)];
    saga.firedEvents := saga.firedEvents + [NEXT];
  }
}

module HaCreateHandleNotDeallocatedResourcesAction {
  import opened Wrappers
  import opened FlowModel
  import opened HaFlowUpdateSaga
  import opened HaFlowCreateSaga

  const ACTION_MESSAGE := "Failed to deallocate resources"
  const DETAILS_PREFIX := "Failed to deallocate resources: "

  /** The error recorded for one resources entry, described by its text form. */
  function DeallocationRecord(description: string): (r: HistoryRecord)
    ensures r.HistoryError? && r.action == ACTION_MESSAGE && r.description.Some?
    ensures |r.description.value| == |DETAILS_PREFIX| + |description|
    ensures r.description.value[..|DETAILS_PREFIX|] == DETAILS_PREFIX
    ensures r.description.value[|DETAILS_PREFIX|..] == description
  {
    HistoryError(ACTION_MESSAGE, Some(DETAILS_PREFIX + description))
  }

  /** The errors for the resources entries in order; describe gives an entry's text form. */
  function DeallocationRecords(resources: seq<HaFlowResources>, describe: HaFlowResources -> string): seq<HistoryRecord>
    decreases |resources|
  {
    if resources == [] then []
    else DeallocationRecords(resources[..|resources| - 1], describe)
         + [DeallocationRecord(describe(resources[|resources| - 1]))]
  }

  /** One error per entry, in the collection's order; none for an empty collection. */
  lemma {:induction false} DeallocationRecordsMatchResources(resources: seq<HaFlowResources>,
                                                             describe: HaFlowResources -> string)
    ensures |DeallocationRecords(resources, describe)| == |resources|
    ensures forall i :: 0 <= i < |resources| ==>
      DeallocationRecords(resources, describe)[i] == DeallocationRecord(describe(resources[i]))
    decreases |resources|
  {
    if resources != [] {
      DeallocationRecordsMatchResources(resources[..|resources| - 1], describe);
    }
  }

  /** The action: one error per resources entry; the resources are left as they are. */
  method Perform(saga: HaFlowCreateFsm, describe: HaFlowResources -> string)
    modifies saga`history
    ensures saga.history == old(saga.history) + DeallocationRecords(saga.haFlowResources, describe)
  {
    var resources := saga.haFlowResources;
    for i := 0 to |resources|
      invariant saga.history == old(saga.history) + DeallocationRecords(resources[..i], describe)
    {
      assert resources[..i + 1][..i] == resources[..i];
      saga.history := saga.history + [DeallocationRecord(describe(resources[i]))];
    }
    assert resources[..|resources|] == resources;
  }
}

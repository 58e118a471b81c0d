// The first action of the flow-update saga: the guard sequence that decides
// whether an update may start, and the marking of the stored flow as being
// updated.

module ValidateFlowAction {
  import opened Wrappers
  import opened ErrorTypes
  import opened FlowModel
  import opened FlowUpdateFsm

  /** The part of a stored flow the action reads and writes. */
  datatype StoredFlow = StoredFlow(
    flowId: string,
    srcSwitch: nat,
    dstSwitch: nat,
    status: FlowStatus,
    statusInfo: string,
    forwardMirrorPoints: set<string>,
    reverseMirrorPoints: set<string>)

  /** What the flow validator concludes about the requested flow. */
  datatype ValidatorVerdict =
    | Valid
    | InvalidFlow(errorType: ErrorType, message: string)
    | UnavailableEndpoint(message: string)

  /** The update request carried by the saga context. */
  datatype UpdateRequest = UpdateRequest(targetFlow: RequestedFlow, bulkUpdateFlowIds: set<string>, doNotRevert: bool)

  const UpdateDisabled := Failure(NOT_PERMITTED, "Flow update feature is disabled")
  const MirrorPointsBlockSwitchChange := Failure(REQUEST_INVALID,
    "The current implementation of flow mirror points does not allow allocating paths. "
    + "Therefore, remove the flow mirror points before changing the endpoint switch.")

  /** The action of the history event saved when the guards pass. */
  const ValidatedEvent := "Flow was validated successfully"

  function FlowNotFound(flowId: string): Failure {
    Failure(NOT_FOUND, "Flow " + flowId + " not found")
  }

  function InProgress(flowId: string): Failure {
    Failure(REQUEST_INVALID, "Flow " + flowId + " is in progress now")
  }

  /** An endpoint switch changes while either path of the stored flow has mirror points. */
  predicate MirrorConflict(target: RequestedFlow, flow: StoredFlow) {
    (target.srcSwitch != flow.srcSwitch || target.dstSwitch != flow.dstSwitch)
    && (flow.forwardMirrorPoints != {} || flow.reverseMirrorPoints != {})
  }

  /**
   * The guards of the action, in the order the action evaluates them; the first
   * that fails decides the error. On success, the stored flow as found.
   */
  function Check(updateEnabled: bool, stored: Option<StoredFlow>, flowId: string,
                 request: UpdateRequest, verdict: ValidatorVerdict): (r: Result<StoredFlow, Failure>)
    ensures !updateEnabled ==> r == Err(UpdateDisabled)
    ensures updateEnabled && stored.None? ==> r == Err(FlowNotFound(flowId))
    ensures updateEnabled && stored.Some? && verdict.InvalidFlow? ==> r.Err? && r.error.errorType == verdict.errorType
    ensures updateEnabled && stored.Some? && verdict.UnavailableEndpoint? ==> r.Err? && r.error.errorType == DATA_INVALID
    ensures updateEnabled && stored.Some? && verdict.Valid? && MirrorConflict(request.targetFlow, stored.value) ==>
      r == Err(MirrorPointsBlockSwitchChange)
    ensures r.Ok? <==>
      updateEnabled && stored.Some? && verdict.Valid? && !MirrorConflict(request.targetFlow, stored.value)
      && !(stored.value.status == FlowStatus.IN_PROGRESS && request.bulkUpdateFlowIds == {})
    ensures r.Ok? ==> r.value == stored.value
  {
    if !updateEnabled then Err(UpdateDisabled)
    else if stored.None? then Err(FlowNotFound(flowId))
    else
      match verdict
      case InvalidFlow(t, m) => Err(Failure(t, m))
      case UnavailableEndpoint(m) => Err(Failure(DATA_INVALID, m))
      case Valid =>
        if MirrorConflict(request.targetFlow, stored.value) then Err(MirrorPointsBlockSwitchChange)
        else if stored.value.status == FlowStatus.IN_PROGRESS && request.bulkUpdateFlowIds == {} then
          Err(InProgress(flowId))
        else Ok(stored.value)
  }

  /** A flow already being updated may be updated again only as part of a bulk update. */
  lemma InProgressFlowNeedsBulkUpdate(stored: StoredFlow, flowId: string, request: UpdateRequest)
    requires stored.status == FlowStatus.IN_PROGRESS && !MirrorConflict(request.targetFlow, stored)
    ensures Check(true, Some(stored), flowId, request, Valid).Ok? <==> request.bulkUpdateFlowIds != {}
    ensures request.bulkUpdateFlowIds == {} ==>
      Check(true, Some(stored), flowId, request, Valid) == Err(InProgress(flowId))
  {
  }

  /** The stored flow after the action succeeded: being updated, with no status text. */
  function MarkInProgress(flow: StoredFlow): StoredFlow {
    flow.(status := FlowStatus.IN_PROGRESS, statusInfo := "")
  }

  /** The flows of the repository, keyed by flow id. */
  class FlowRepository {
    var flows: map<string, StoredFlow>

    constructor (flows: map<string, StoredFlow>)
      ensures this.flows == flows
    {
      this.flows := flows;
    }
  }

  /**
   * Runs the action on the saga for the request. On success the saga keeps the
   * flow's previous status and status text, the stored flow becomes IN_PROGRESS
   * and the saga saves the validated event; on failure the saga keeps the error
   * description as its error reason, the listeners hear of the error and no flow
   * changes. The saga's request fields are set as soon as the feature toggle
   * allows the update. No other saga field changes.
   */
  method PerformWithResponse(saga: FlowUpdateSaga, repository: FlowRepository, updateEnabled: bool,
                             request: UpdateRequest, verdict: ValidatorVerdict) returns (failure: Option<Failure>)
    modifies saga`targetFlow, saga`bulkUpdateFlowIds, saga`doNotRevert, saga`originalFlowStatus,
             saga`originalFlowStatusInfo, saga`errorReason, saga`notifications, saga`events, repository
    ensures var r := Check(updateEnabled, if saga.flowId in old(repository.flows) then Some(old(repository.flows)[saga.flowId]) else None,
                           saga.flowId, request, verdict);
      && (failure.None? <==> r.Ok?)
      && (failure.Some? ==> failure.value == r.error)
      && (r.Ok? ==>
            && repository.flows == old(repository.flows)[saga.flowId := MarkInProgress(r.value)]
            && saga.originalFlowStatus == Some(r.value.status)
            && saga.originalFlowStatusInfo == Some(r.value.statusInfo)
            && saga.errorReason == old(saga.errorReason)
            && saga.notifications == old(saga.notifications)
            && saga.events == old(saga.events) + [ValidatedEvent])
      && (r.Err? ==>
            && repository.flows == old(repository.flows)
            && saga.originalFlowStatus == old(saga.originalFlowStatus)
            && saga.originalFlowStatusInfo == old(saga.originalFlowStatusInfo)
            && saga.errorReason == r.error.description
            && saga.events == old(saga.events)
            && saga.notifications == old(saga.notifications)
               + seq(|saga.listeners|, i requires 0 <= i < |saga.listeners| =>
                       OnFailed(saga.listeners[i], saga.flowId, r.error.description, r.error.errorType)))
    ensures updateEnabled ==>
      saga.targetFlow == Some(request.targetFlow) && saga.bulkUpdateFlowIds == request.bulkUpdateFlowIds
      && saga.doNotRevert == request.doNotRevert
    ensures !updateEnabled ==>
      saga.targetFlow == old(saga.targetFlow) && saga.bulkUpdateFlowIds == old(saga.bulkUpdateFlowIds)
      && saga.doNotRevert == old(saga.doNotRevert)
    ensures saga.state == old(saga.state) && saga.newFlowStatus == old(saga.newFlowStatus)
      && saga.endpointUpdate == old(saga.endpointUpdate) && saga.flowLoopOperation == old(saga.flowLoopOperation)
      && saga.resultError == old(saga.resultError)
  {
    var stored := if saga.flowId in repository.flows then Some(repository.flows[saga.flowId]) else None;
    var outcome := Check(updateEnabled, stored, saga.flowId, request, verdict);
    if updateEnabled {
      saga.targetFlow := Some(request.targetFlow);
      saga.bulkUpdateFlowIds := request.bulkUpdateFlowIds;
      saga.doNotRevert := request.doNotRevert;
    }
    match outcome {
      case Ok(flow) =>
        // one transaction: keep the previous status for a revert, then mark the flow
        saga.originalFlowStatus := Some(flow.status);
        saga.originalFlowStatusInfo := Some(flow.statusInfo);
        repository.flows := repository.flows[saga.flowId := MarkInProgress(flow)];
        saga.events := saga.events + [ValidatedEvent];
        failure := None;
      case Err(f) =>
        saga.errorReason := f.description;
        NotifyListenersOnError(saga, f.errorType, f.description);
        failure := Some(f);
    }
  }

  /** Tells every listener of the saga that the operation failed. */
  method NotifyListenersOnError(saga: FlowUpdateSaga, errorType: ErrorType, errorReason: string)
    modifies saga`notifications
    ensures saga.notifications == old(saga.notifications)
      + seq(|saga.listeners|, i requires 0 <= i < |saga.listeners| =>
              OnFailed(saga.listeners[i], saga.flowId, errorReason, errorType))
  {
    var i := 0;
    while i < |saga.listeners|
      invariant 0 <= i <= |saga.listeners|
      invariant saga.notifications == old(saga.notifications)
        + seq(i, j requires 0 <= j < i => OnFailed(saga.listeners[j], saga.flowId, errorReason, errorType))
    {
      saga.notifications := saga.notifications + [OnFailed(saga.listeners[i], saga.flowId, errorReason, errorType)];
      i := i + 1;
    }
  }
}

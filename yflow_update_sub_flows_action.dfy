// The y-flow update action that fans the update out to the sub-flows: every
// requested sub-flow is registered, and only the main-affinity sub-flow is marked
// updating and started, with the y-flow's diverse flow id.

module YFlowUpdateSubFlowsAction {
  import opened Wrappers

  /** An update request for one sub-flow; only the fields the action reads or sets. */
  datatype RequestedSubFlow = RequestedSubFlow(flowId: string, diverseFlowId: Option<string>)

  /** A sub-flow update handed to the flow update service, under the y-flow's id. */
  datatype StartedUpdate = StartedUpdate(request: RequestedSubFlow, yFlowId: string)

  /** The part of the y-flow update saga the action works on. */
  class YFlowUpdateFsm {
    const yFlowId: string
    /** The sub-flow the others follow; absent when the y-flow has none. */
    const mainAffinityFlowId: Option<string>
    const diverseFlowId: Option<string>
    var requestedFlows: seq<RequestedSubFlow>
    var subFlows: set<string>
    var updatingSubFlows: set<string>
    /** onSubFlowProcessingStart notifications, as (y-flow id, sub-flow id). */
    var processingStarts: seq<(string, string)>
    var startedUpdates: seq<StartedUpdate>

    constructor (yFlowId: string, mainAffinityFlowId: Option<string>, diverseFlowId: Option<string>)
      ensures this.yFlowId == yFlowId && this.mainAffinityFlowId == mainAffinityFlowId
      ensures this.diverseFlowId == diverseFlowId
      ensures requestedFlows == [] && subFlows == {} && updatingSubFlows == {}
      ensures processingStarts == [] && startedUpdates == []
    {
      this.yFlowId := yFlowId;
      this.mainAffinityFlowId := mainAffinityFlowId;
      this.diverseFlowId := diverseFlowId;
      requestedFlows := [];
      subFlows := {};
      updatingSubFlows := {};
      processingStarts := [];
      startedUpdates := [];
    }
  }

  /** Whether a request is for the main-affinity sub-flow. */
  predicate IsMain(request: RequestedSubFlow, mainAffinityFlowId: Option<string>) {
    Some(request.flowId) == mainAffinityFlowId
  }

  /** The requests as the action leaves them: the main-affinity ones carry the diverse flow id. */
  function WithDiverseId(requests: seq<RequestedSubFlow>, mainAffinityFlowId: Option<string>,
                         diverseFlowId: Option<string>): seq<RequestedSubFlow>
    decreases |requests|
  {
    if requests == [] then []
    else
      var last := requests[|requests| - 1];
      WithDiverseId(requests[..|requests| - 1], mainAffinityFlowId, diverseFlowId)
      + [if IsMain(last, mainAffinityFlowId) then last.(diverseFlowId := diverseFlowId) else last]
  }

  /**
   * The stored requests are the requests in the same order with the same ids; a
   * main-affinity one carries the diverse flow id, the others keep their own.
   */
  lemma {:induction false} WithDiverseIdChangesOnlyMain(requests: seq<RequestedSubFlow>, mainAffinityFlowId: Option<string>,
                                                        diverseFlowId: Option<string>)
    ensures var r := WithDiverseId(requests, mainAffinityFlowId, diverseFlowId);
      && |r| == |requests|
      && (forall i :: 0 <= i < |requests| ==> r[i].flowId == requests[i].flowId)
      && (forall i :: 0 <= i < |requests| ==>
            r[i].diverseFlowId == if IsMain(requests[i], mainAffinityFlowId) then diverseFlowId else requests[i].diverseFlowId)
    decreases |requests|
  {
    if requests != [] {
      WithDiverseIdChangesOnlyMain(requests[..|requests| - 1], mainAffinityFlowId, diverseFlowId);
    }
  }

  /** The requests started, in order: the main-affinity ones, with the diverse flow id set. */
  function StartedRequests(requests: seq<RequestedSubFlow>, mainAffinityFlowId: Option<string>,
                           diverseFlowId: Option<string>): seq<RequestedSubFlow>
    decreases |requests|
  {
    if requests == [] then []
    else
      var last := requests[|requests| - 1];
      StartedRequests(requests[..|requests| - 1], mainAffinityFlowId, diverseFlowId)
      + (if IsMain(last, mainAffinityFlowId) then [last.(diverseFlowId := diverseFlowId)] else [])
  }

  /**
   * Only the main-affinity sub-flow is started, with the diverse flow id; it is
   * started as often as it is requested, so at most once when the requested ids
   * are distinct, and exactly once when it is requested once.
   */
  lemma {:induction false} StartedRequestsAreMain(requests: seq<RequestedSubFlow>, mainAffinityFlowId: Option<string>,
                                                  diverseFlowId: Option<string>)
    ensures var started := StartedRequests(requests, mainAffinityFlowId, diverseFlowId);
      && (forall r :: r in started ==> IsMain(r, mainAffinityFlowId) && r.diverseFlowId == diverseFlowId)
      && |started| == |set i | 0 <= i < |requests| && IsMain(requests[i], mainAffinityFlowId)|
    decreases |requests|
  {
    if requests != [] {
      var init := requests[..|requests| - 1];
      StartedRequestsAreMain(init, mainAffinityFlowId, diverseFlowId);
      var before := set i | 0 <= i < |init| && IsMain(init[i], mainAffinityFlowId);
      var after := set i | 0 <= i < |requests| && IsMain(requests[i], mainAffinityFlowId);
      if IsMain(requests[|requests| - 1], mainAffinityFlowId) {
        assert after == before + {|requests| - 1};
      } else {
        assert after == before;
      }
    }
  }

  /** The ids of the requested sub-flows. */
  function RequestedIds(requests: seq<RequestedSubFlow>): set<string>
    decreases |requests|
  {
    if requests == [] then {} else RequestedIds(requests[..|requests| - 1]) + {requests[|requests| - 1].flowId}
  }

  /** An id is among the requested ids exactly when some request is for it. */
  lemma {:induction false} RequestedIdsAreRequested(requests: seq<RequestedSubFlow>, id: string)
    ensures id in RequestedIds(requests) <==> exists i :: 0 <= i < |requests| && requests[i].flowId == id
    decreases |requests|
  {
    if requests != [] {
      var init := requests[..|requests| - 1];
      RequestedIdsAreRequested(init, id);
      if exists i :: 0 <= i < |requests| && requests[i].flowId == id {
        var i :| 0 <= i < |requests| && requests[i].flowId == id;
        if i < |init| {
          assert init[i].flowId == id;
        }
      }
    }
  }

  /** The sub-flows marked updating: the main-affinity one when it is requested, otherwise none. */
  function UpdatingIds(requests: seq<RequestedSubFlow>, mainAffinityFlowId: Option<string>): set<string>
    decreases |requests|
  {
    if requests == [] then {}
    else
      var last := requests[|requests| - 1];
      UpdatingIds(requests[..|requests| - 1], mainAffinityFlowId) + (if IsMain(last, mainAffinityFlowId) then {last.flowId} else {})
  }

  /**
   * Afterwards the updating set holds the main-affinity sub-flow when it was
   * requested and nothing else.
   */
  lemma {:induction false} UpdatingIsMainOnly(requests: seq<RequestedSubFlow>, mainAffinityFlowId: Option<string>)
    ensures var r := UpdatingIds(requests, mainAffinityFlowId);
      && (mainAffinityFlowId.None? ==> r == {})
      && (mainAffinityFlowId.Some? ==> r <= {mainAffinityFlowId.value})
      && forall id :: id in r <==> id in RequestedIds(requests) && Some(id) == mainAffinityFlowId
    decreases |requests|
  {
    if requests != [] {
      UpdatingIsMainOnly(requests[..|requests| - 1], mainAffinityFlowId);
    }
  }

  /** The update requests handed to the flow update service. */
  function Starts(requests: seq<RequestedSubFlow>, yFlowId: string): seq<StartedUpdate>
    decreases |requests|
  {
    if requests == [] then []
    else Starts(requests[..|requests| - 1], yFlowId) + [StartedUpdate(requests[|requests| - 1], yFlowId)]
  }

  /** The processing-start notifications for the given started requests. */
  function StartNotices(requests: seq<RequestedSubFlow>, yFlowId: string): seq<(string, string)>
    decreases |requests|
  {
    if requests == [] then []
    else StartNotices(requests[..|requests| - 1], yFlowId) + [(yFlowId, requests[|requests| - 1].flowId)]
  }

  /** How the action's results grow by one more request. */
  lemma StepLemma(requests: seq<RequestedSubFlow>, i: nat, mainAffinityFlowId: Option<string>,
                  diverseFlowId: Option<string>, yFlowId: string)
    requires i < |requests|
    ensures var prefix := requests[..i];
      var request := requests[i];
      var started := request.(diverseFlowId := diverseFlowId);
      var isMain := IsMain(request, mainAffinityFlowId);
      && WithDiverseId(requests[..i + 1], mainAffinityFlowId, diverseFlowId)
         == WithDiverseId(prefix, mainAffinityFlowId, diverseFlowId) + [if isMain then started else request]
      && RequestedIds(requests[..i + 1]) == RequestedIds(prefix) + {request.flowId}
      && UpdatingIds(requests[..i + 1], mainAffinityFlowId)
         == UpdatingIds(prefix, mainAffinityFlowId) + (if isMain then {request.flowId} else {})
      && StartedRequests(requests[..i + 1], mainAffinityFlowId, diverseFlowId)
         == StartedRequests(prefix, mainAffinityFlowId, diverseFlowId) + (if isMain then [started] else [])
  {
    assert requests[..i + 1][..i] == requests[..i];
    assert requests[..i + 1] == requests[..i] + [requests[i]];
  }

  /** Starts and notices of a run of started requests followed by one more. */
  lemma StartsAppend(started: seq<RequestedSubFlow>, more: seq<RequestedSubFlow>, yFlowId: string)
    requires |more| <= 1
    ensures Starts(started + more, yFlowId) == Starts(started, yFlowId) + Starts(more, yFlowId)
    ensures StartNotices(started + more, yFlowId) == StartNotices(started, yFlowId) + StartNotices(more, yFlowId)
  {
    if more != [] {
      assert (started + more)[..|started + more| - 1] == started;
    } else {
      assert started + more == started;
    }
  }

  /** The logs after one more request, as Register extends them. */
  lemma StartsStep(requests: seq<RequestedSubFlow>, i: nat, mainAffinityFlowId: Option<string>,
                   diverseFlowId: Option<string>, yFlowId: string,
                   starts0: seq<StartedUpdate>, notices0: seq<(string, string)>)
    requires i < |requests|
    ensures var more := if IsMain(requests[i], mainAffinityFlowId) then [requests[i].(diverseFlowId := diverseFlowId)] else [];
      var before := StartedRequests(requests[..i], mainAffinityFlowId, diverseFlowId);
      var after := StartedRequests(requests[..i + 1], mainAffinityFlowId, diverseFlowId);
      && starts0 + Starts(after, yFlowId) == starts0 + Starts(before, yFlowId) + Starts(more, yFlowId)
      && notices0 + StartNotices(after, yFlowId) == notices0 + StartNotices(before, yFlowId) + StartNotices(more, yFlowId)
  {
    StepLemma(requests, i, mainAffinityFlowId, diverseFlowId, yFlowId);
    var more := if IsMain(requests[i], mainAffinityFlowId) then [requests[i].(diverseFlowId := diverseFlowId)] else [];
    StartsAppend(StartedRequests(requests[..i], mainAffinityFlowId, diverseFlowId), more, yFlowId);
  }

  /**
   * Registers one request: its sub-flow is recorded, and a main-affinity request is
   * stored with the diverse flow id, marked as updating and started.
   */
  method Register(saga: YFlowUpdateFsm, request: RequestedSubFlow) returns (stored: RequestedSubFlow)
    modifies saga`subFlows, saga`updatingSubFlows, saga`processingStarts, saga`startedUpdates
    ensures var isMain := IsMain(request, saga.mainAffinityFlowId);
      var started := request.(diverseFlowId := saga.diverseFlowId);
      && stored == (if isMain then started else request)
      && saga.subFlows == old(saga.subFlows) + {request.flowId}
      && saga.updatingSubFlows == old(saga.updatingSubFlows) + (if isMain then {request.flowId} else {})
      && saga.processingStarts == old(saga.processingStarts) + StartNotices(if isMain then [started] else [], saga.yFlowId)
      && saga.startedUpdates == old(saga.startedUpdates) + Starts(if isMain then [started] else [], saga.yFlowId)
  {
    saga.subFlows := saga.subFlows + {request.flowId};
    stored := request;
    if Some(request.flowId) == saga.mainAffinityFlowId {
      saga.updatingSubFlows := saga.updatingSubFlows + {request.flowId};
      saga.processingStarts := saga.processingStarts + [(saga.yFlowId, request.flowId)];
      stored := request.(diverseFlowId := saga.diverseFlowId);
      saga.startedUpdates := saga.startedUpdates + [StartedUpdate(stored, saga.yFlowId)];
    }
  }

  /**
   * The action, with the requests the y-flow's target maps to given as requests.
   * The updating set is cleared first; every requested id joins the sub-flow set;
   * the main-affinity sub-flow alone is marked updating, announced and started
   * with the diverse flow id, which its stored request keeps.
   */
  method Perform(saga: YFlowUpdateFsm, requests: seq<RequestedSubFlow>)
    modifies saga`requestedFlows, saga`subFlows, saga`updatingSubFlows, saga`processingStarts, saga`startedUpdates
    ensures saga.requestedFlows == WithDiverseId(requests, saga.mainAffinityFlowId, saga.diverseFlowId)
    ensures saga.subFlows == old(saga.subFlows) + RequestedIds(requests)
    ensures saga.updatingSubFlows == UpdatingIds(requests, saga.mainAffinityFlowId)
    ensures var started := StartedRequests(requests, saga.mainAffinityFlowId, saga.diverseFlowId);
      && saga.startedUpdates == old(saga.startedUpdates) + Starts(started, saga.yFlowId)
      && saga.processingStarts == old(saga.processingStarts) + StartNotices(started, saga.yFlowId)
  {
    var yFlowId := saga.yFlowId;
    var mainId := saga.mainAffinityFlowId;
    var diverseId := saga.diverseFlowId;
    saga.updatingSubFlows := {};
    // the stored requests are the ones started; the main one's diverse id is set as it starts
    var stored: seq<RequestedSubFlow> := [];
    ghost var starts0 := saga.startedUpdates;
    ghost var notices0 := saga.processingStarts;
    for i := 0 to |requests|
      invariant stored == WithDiverseId(requests[..i], mainId, diverseId)
      invariant saga.subFlows == old(saga.subFlows) + RequestedIds(requests[..i])
      invariant saga.updatingSubFlows == UpdatingIds(requests[..i], mainId)
      invariant saga.startedUpdates == starts0 + Starts(StartedRequests(requests[..i], mainId, diverseId), yFlowId)
      invariant saga.processingStarts == notices0 + StartNotices(StartedRequests(requests[..i], mainId, diverseId), yFlowId)
    {
      StepLemma(requests, i, mainId, diverseId, yFlowId);
      StartsStep(requests, i, mainId, diverseId, yFlowId, starts0, notices0);
      var request := requests[i];
      var one := Register(saga, request);
      stored := stored + [one];
    }
    assert requests[..|requests|] == requests;
    saga.requestedFlows := stored;
  }
}

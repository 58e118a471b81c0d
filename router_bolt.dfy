// The flow-operation router: every incoming command is dispatched, by the kind
// of its payload and, for create/update requests, by the request type, to the
// output stream of the hub that serves it.

module RouterBolt {
  import opened Wrappers
  import opened Text

  /** The type of a flow, y-flow or HA-flow request; only CREATE and UPDATE are routed. */
  datatype RequestType = CREATE | UPDATE | OtherType(name: string)

  /** The payloads the router tells apart, with the flow id each one carries. */
  datatype Payload =
    | FlowRequest(flowId: string, requestType: RequestType)
    | FlowRerouteRequest(flowId: string)
    | FlowDeleteRequest(flowId: string)
    | FlowSyncRequest(flowId: string)
    | FlowPathSwapRequest(flowId: string)
    | SwapFlowEndpointRequest
    | CreateFlowLoopRequest(flowId: string)
    | DeleteFlowLoopRequest(flowId: string)
    | FlowMirrorPointCreateRequest(flowId: string)
    | FlowMirrorPointDeleteRequest(flowId: string)
    | FlowValidationRequest(flowId: string)
    | YFlowRequest(yFlowId: string, requestType: RequestType)
    | YFlowPartialUpdateRequest(yFlowId: string)
    | YFlowRerouteRequest(yFlowId: string)
    | YFlowDeleteRequest(yFlowId: string)
    | YFlowsDumpRequest
    | YFlowReadRequest
    | YFlowPathsReadRequest
    | SubFlowsReadRequest
    | YFlowValidationRequest(yFlowId: string)
    | YFlowSyncRequest(yFlowId: string)
    | YFlowPathSwapRequest(yFlowId: string)
    | HaFlowRequest(haFlowId: string, requestType: RequestType)
    | HaFlowPartialUpdateRequest(haFlowId: string)
    | HaFlowRerouteRequest(haFlowId: string)
    | HaFlowDeleteRequest(haFlowId: string)
    | HaFlowsDumpRequest
    | HaFlowReadRequest
    | HaFlowPathsReadRequest
    | HaFlowValidationRequest(haFlowId: string)
    | HaFlowPathSwapRequest(haFlowId: string)
    | OtherPayload

  /** The router's output streams. */
  datatype Stream =
    | ROUTER_TO_FLOW_CREATE_HUB | ROUTER_TO_FLOW_UPDATE_HUB | ROUTER_TO_FLOW_REROUTE_HUB
    | ROUTER_TO_FLOW_DELETE_HUB | ROUTER_TO_FLOW_PATH_SWAP_HUB | ROUTER_TO_FLOW_CREATE_MIRROR_POINT_HUB
    | ROUTER_TO_FLOW_DELETE_MIRROR_POINT_HUB | ROUTER_TO_FLOW_SYNC_HUB | ROUTER_TO_FLOW_SWAP_ENDPOINTS_HUB
    | ROUTER_TO_FLOW_VALIDATION_HUB
    | ROUTER_TO_YFLOW_CREATE_HUB | ROUTER_TO_YFLOW_UPDATE_HUB | ROUTER_TO_YFLOW_REROUTE_HUB
    | ROUTER_TO_YFLOW_DELETE_HUB | ROUTER_TO_YFLOW_SYNC_HUB | ROUTER_TO_YFLOW_READ
    | ROUTER_TO_YFLOW_VALIDATION_HUB | ROUTER_TO_YFLOW_PATH_SWAP_HUB
    | ROUTER_TO_HA_FLOW_CREATE_HUB | ROUTER_TO_HA_FLOW_UPDATE_HUB | ROUTER_TO_HA_FLOW_REROUTE_HUB
    | ROUTER_TO_HA_FLOW_DELETE_HUB | ROUTER_TO_HA_FLOW_READ | ROUTER_TO_HA_FLOW_VALIDATION_HUB
    | ROUTER_TO_HA_FLOW_PATH_SWAP_HUB

  /** The kind of flow a payload or a stream is about. */
  datatype FlowKind = Flow | YFlow | HaFlow | NoKind

  /** What handling one input yields. */
  datatype Outcome =
    | Inactive
    | Emitted(stream: Stream, key: string, flowId: Option<string>, payload: Payload)
    | Unsupported(message: string)
    | Unhandled

  function PayloadKind(data: Payload): FlowKind {
    match data
    case FlowRequest(_, _) | FlowRerouteRequest(_) | FlowDeleteRequest(_) | FlowSyncRequest(_)
      | FlowPathSwapRequest(_) | SwapFlowEndpointRequest | CreateFlowLoopRequest(_) | DeleteFlowLoopRequest(_)
      | FlowMirrorPointCreateRequest(_) | FlowMirrorPointDeleteRequest(_) | FlowValidationRequest(_) => Flow
    case YFlowRequest(_, _) | YFlowPartialUpdateRequest(_) | YFlowRerouteRequest(_) | YFlowDeleteRequest(_)
      | YFlowsDumpRequest | YFlowReadRequest | YFlowPathsReadRequest | SubFlowsReadRequest
      | YFlowValidationRequest(_) | YFlowSyncRequest(_) | YFlowPathSwapRequest(_) => YFlow
    case HaFlowRequest(_, _) | HaFlowPartialUpdateRequest(_) | HaFlowRerouteRequest(_) | HaFlowDeleteRequest(_)
      | HaFlowsDumpRequest | HaFlowReadRequest | HaFlowPathsReadRequest | HaFlowValidationRequest(_)
      | HaFlowPathSwapRequest(_) => HaFlow
    case OtherPayload => NoKind
  }

  function StreamKind(stream: Stream): FlowKind {
    match stream
    case ROUTER_TO_FLOW_CREATE_HUB | ROUTER_TO_FLOW_UPDATE_HUB | ROUTER_TO_FLOW_REROUTE_HUB
      | ROUTER_TO_FLOW_DELETE_HUB | ROUTER_TO_FLOW_PATH_SWAP_HUB | ROUTER_TO_FLOW_CREATE_MIRROR_POINT_HUB
      | ROUTER_TO_FLOW_DELETE_MIRROR_POINT_HUB | ROUTER_TO_FLOW_SYNC_HUB | ROUTER_TO_FLOW_SWAP_ENDPOINTS_HUB
      | ROUTER_TO_FLOW_VALIDATION_HUB => Flow
    case ROUTER_TO_YFLOW_CREATE_HUB | ROUTER_TO_YFLOW_UPDATE_HUB | ROUTER_TO_YFLOW_REROUTE_HUB
      | ROUTER_TO_YFLOW_DELETE_HUB | ROUTER_TO_YFLOW_SYNC_HUB | ROUTER_TO_YFLOW_READ
      | ROUTER_TO_YFLOW_VALIDATION_HUB | ROUTER_TO_YFLOW_PATH_SWAP_HUB => YFlow
    case ROUTER_TO_HA_FLOW_CREATE_HUB | ROUTER_TO_HA_FLOW_UPDATE_HUB | ROUTER_TO_HA_FLOW_REROUTE_HUB
      | ROUTER_TO_HA_FLOW_DELETE_HUB | ROUTER_TO_HA_FLOW_READ | ROUTER_TO_HA_FLOW_VALIDATION_HUB
      | ROUTER_TO_HA_FLOW_PATH_SWAP_HUB => HaFlow
  }

  /** The flow id a payload carries; absent for the payloads that carry none. */
  function PayloadFlowId(data: Payload): Option<string> {
    if data.SwapFlowEndpointRequest? || data.YFlowsDumpRequest? || data.YFlowReadRequest?
       || data.YFlowPathsReadRequest? || data.SubFlowsReadRequest? || data.HaFlowsDumpRequest?
       || data.HaFlowReadRequest? || data.HaFlowPathsReadRequest? || data.OtherPayload? then None
    else if PayloadKind(data) == Flow then Some(data.flowId)
    else if PayloadKind(data) == YFlow then Some(data.yFlowId)
    else Some(data.haFlowId)
  }

  /** Whether a payload is a create/update request, routed by its type. */
  predicate IsTypedRequest(data: Payload) {
    data.FlowRequest? || data.YFlowRequest? || data.HaFlowRequest?
  }

  /** The routing key: the input's own key, or the correlation id when that key is blank. */
  function EffectiveKey(key: Option<string>, correlationId: string): (k: string)
    ensures !IsBlank(key) ==> k == key.value
    ensures IsBlank(key) ==> k == correlationId
  {
    if IsBlank(key) then correlationId else key.value
  }

  /** The stream a create/update request goes to, or the message of the exception raised for another type. */
  function TypedStream(data: Payload): Result<Stream, string>
    requires IsTypedRequest(data)
  {
    match data.requestType
    case CREATE =>
      Ok(if data.FlowRequest? then ROUTER_TO_FLOW_CREATE_HUB
              else if data.YFlowRequest? then ROUTER_TO_YFLOW_CREATE_HUB else ROUTER_TO_HA_FLOW_CREATE_HUB)
    case UPDATE =>
      Ok(if data.FlowRequest? then ROUTER_TO_FLOW_UPDATE_HUB
              else if data.YFlowRequest? then ROUTER_TO_YFLOW_UPDATE_HUB else ROUTER_TO_HA_FLOW_UPDATE_HUB)
    case OtherType(name) =>
      Err((if data.FlowRequest? then "Flow" else if data.YFlowRequest? then "Y-flow" else "HA-flow")
              + " operation " + name + " is not supported")
  }

  /** The stream for every payload that is neither a typed request nor unknown. */
  function FixedStream(data: Payload): Stream
    requires !IsTypedRequest(data) && !data.OtherPayload?
  {
    match data
    case FlowRerouteRequest(_) => ROUTER_TO_FLOW_REROUTE_HUB
    case FlowDeleteRequest(_) => ROUTER_TO_FLOW_DELETE_HUB
    case FlowSyncRequest(_) => ROUTER_TO_FLOW_SYNC_HUB
    case FlowPathSwapRequest(_) => ROUTER_TO_FLOW_PATH_SWAP_HUB
    case SwapFlowEndpointRequest => ROUTER_TO_FLOW_SWAP_ENDPOINTS_HUB
    case CreateFlowLoopRequest(_) => ROUTER_TO_FLOW_UPDATE_HUB
    case DeleteFlowLoopRequest(_) => ROUTER_TO_FLOW_UPDATE_HUB
    case FlowMirrorPointCreateRequest(_) => ROUTER_TO_FLOW_CREATE_MIRROR_POINT_HUB
    case FlowMirrorPointDeleteRequest(_) => ROUTER_TO_FLOW_DELETE_MIRROR_POINT_HUB
    case FlowValidationRequest(_) => ROUTER_TO_FLOW_VALIDATION_HUB
    case YFlowPartialUpdateRequest(_) => ROUTER_TO_YFLOW_UPDATE_HUB
    case YFlowRerouteRequest(_) => ROUTER_TO_YFLOW_REROUTE_HUB
    case YFlowDeleteRequest(_) => ROUTER_TO_YFLOW_DELETE_HUB
    case YFlowsDumpRequest => ROUTER_TO_YFLOW_READ
    case YFlowReadRequest => ROUTER_TO_YFLOW_READ
    case YFlowPathsReadRequest => ROUTER_TO_YFLOW_READ
    case SubFlowsReadRequest => ROUTER_TO_YFLOW_READ
    case YFlowValidationRequest(_) => ROUTER_TO_YFLOW_VALIDATION_HUB
    case YFlowSyncRequest(_) => ROUTER_TO_YFLOW_SYNC_HUB
    case YFlowPathSwapRequest(_) => ROUTER_TO_YFLOW_PATH_SWAP_HUB
    case HaFlowPartialUpdateRequest(_) => ROUTER_TO_HA_FLOW_UPDATE_HUB
    case HaFlowRerouteRequest(_) => ROUTER_TO_HA_FLOW_REROUTE_HUB
    case HaFlowDeleteRequest(_) => ROUTER_TO_HA_FLOW_DELETE_HUB
    case HaFlowsDumpRequest => ROUTER_TO_HA_FLOW_READ
    case HaFlowReadRequest => ROUTER_TO_HA_FLOW_READ
    case HaFlowPathsReadRequest => ROUTER_TO_HA_FLOW_READ
    case HaFlowValidationRequest(_) => ROUTER_TO_HA_FLOW_VALIDATION_HUB
    case HaFlowPathSwapRequest(_) => ROUTER_TO_HA_FLOW_PATH_SWAP_HUB
  }

  /**
   * Handling one input: nothing while the bolt is inactive; otherwise the payload
   * is emitted, under the effective key and with the flow id it carries, to the
   * stream of a hub for the payload's own kind of flow. A create/update request
   * of any other type raises the unsupported-operation error, and an unknown
   * payload is handed to the unhandled-input path.
   */
  function Route(active: bool, key: Option<string>, correlationId: string, data: Payload): (r: Outcome)
    ensures !active ==> r == Inactive
    ensures active ==> (r.Unhandled? <==> data.OtherPayload?)
    ensures active ==> (r.Unsupported? <==> IsTypedRequest(data) && data.requestType.OtherType?)
    ensures r.Emitted? ==>
      && r.key == EffectiveKey(key, correlationId)
      && r.flowId == PayloadFlowId(data)
      && r.payload == data
      && StreamKind(r.stream) == PayloadKind(data)
  {
    if !active then Inactive
    else if data.OtherPayload? then Unhandled
    else
      var routedKey := EffectiveKey(key, correlationId);
      if IsTypedRequest(data) then
        match TypedStream(data)
        case Ok(stream) => Emitted(stream, routedKey, PayloadFlowId(data), data)
        case Err(message) => Unsupported(message)
      else Emitted(FixedStream(data), routedKey, PayloadFlowId(data), data)
  }

  /** CREATE goes to the create hub and UPDATE to the update hub of the request's kind of flow. */
  lemma TypedRequestsReachTheirHub(key: Option<string>, correlationId: string, data: Payload)
    requires IsTypedRequest(data) && !data.requestType.OtherType?
    ensures var r := Route(true, key, correlationId, data);
      && r.Emitted?
      && (data.requestType == CREATE <==>
            r.stream in {ROUTER_TO_FLOW_CREATE_HUB, ROUTER_TO_YFLOW_CREATE_HUB, ROUTER_TO_HA_FLOW_CREATE_HUB})
      && (data.requestType == UPDATE <==>
            r.stream in {ROUTER_TO_FLOW_UPDATE_HUB, ROUTER_TO_YFLOW_UPDATE_HUB, ROUTER_TO_HA_FLOW_UPDATE_HUB})
  {
  }

  /**
   * Flow-loop requests share the flow update hub, and partial updates share the
   * full update hub of their kind.
   */
  lemma SharedStreams(key: Option<string>, correlationId: string, data: Payload)
    ensures var r := Route(true, key, correlationId, data);
      && (data.CreateFlowLoopRequest? || data.DeleteFlowLoopRequest? ==> r.Emitted? && r.stream == ROUTER_TO_FLOW_UPDATE_HUB)
      && (data.YFlowPartialUpdateRequest? ==> r.Emitted? && r.stream == ROUTER_TO_YFLOW_UPDATE_HUB)
      && (data.HaFlowPartialUpdateRequest? ==> r.Emitted? && r.stream == ROUTER_TO_HA_FLOW_UPDATE_HUB)
  {
  }

  /** All read requests of a kind share one read stream, and nothing else goes there. */
  lemma ReadStreams(key: Option<string>, correlationId: string, data: Payload)
    ensures var r := Route(true, key, correlationId, data);
      (data.YFlowsDumpRequest? || data.YFlowReadRequest? || data.YFlowPathsReadRequest? || data.SubFlowsReadRequest?)
      <==> r.Emitted? && r.stream == ROUTER_TO_YFLOW_READ
    ensures var r := Route(true, key, correlationId, data);
      (data.HaFlowsDumpRequest? || data.HaFlowReadRequest? || data.HaFlowPathsReadRequest?)
      <==> r.Emitted? && r.stream == ROUTER_TO_HA_FLOW_READ
  {
  }
}

// The flow fetcher of the ping topology: a cache of the flows and HA flows that
// get periodic pings, kept up to date by enable/disable commands and by a
// time-gated refresh that expires entries no longer wanted, and the eligibility
// checks made before an on-demand ping of a flow, a Y-flow or an HA flow.

module FlowFetcher {
  import opened Wrappers
  import opened Enumeration
  import opened FlowModel

  /** A ping covers the forward and the reverse direction. */
  const DIRECTION_COUNT_PER_FLOW := 2

  datatype Flow = Flow(flowId: string, oneSwitchFlow: bool, forwardPathId: string, reversePathId: string,
                       encapsulationType: FlowEncapsulationType)
  datatype HaSubFlow = HaSubFlow(haSubFlowId: string, oneSwitchFlow: bool, endpointSwitchId: string)
  datatype HaFlow = HaFlow(haFlowId: string, forwardPathId: string, reversePathId: string,
                           encapsulationType: FlowEncapsulationType, haSubFlows: seq<HaSubFlow>,
                           yPointSwitchId: string)
  datatype YSubFlow = YSubFlow(subFlowId: string, flow: Flow)
  datatype YFlow = YFlow(yFlowId: string, subFlows: seq<YSubFlow>)
  datatype TransitEncapsulation = TransitEncapsulation(id: int, encapsulationType: FlowEncapsulationType)

  /**
   * The resources manager's lookup of the transit encapsulation of a pair of
   * paths: forward path id, reverse path id, encapsulation type.
   */
  type EncapsulationLookup = (string, string, FlowEncapsulationType) -> Option<TransitEncapsulation>

  /**
   * What the repositories answer: flows, Y-flows and HA flows by id, the Y-flow a
   * flow belongs to, and the flows and HA flows with periodic pings enabled, in
   * the order the queries return them.
   */
  datatype Persistence = Persistence(
    flows: map<string, Flow>,
    yFlowIdByFlowId: map<string, string>,
    yFlows: map<string, YFlow>,
    haFlows: map<string, HaFlow>,
    flowsWithPeriodicPings: seq<Flow>,
    haFlowsWithPeriodicPings: seq<HaFlow>)

  /**
   * The identity of a cache entry: the flow with its Y-flow id, or the HA flow.
   * The transit encapsulation is not part of it; the cache maps each identity to
   * the encapsulation stored with it.
   */
  datatype CacheKey = FlowKey(flow: Flow, yFlowId: Option<string>) | HaFlowKey(haFlow: HaFlow)

  datatype PingKind = PERIODIC | ON_DEMAND | ON_DEMAND_Y_FLOW | ON_DEMAND_HA_FLOW
  datatype PingContext = PingContext(kind: PingKind, groupSize: Option<nat>, flow: Option<Flow>,
                                     yFlowId: Option<string>, haFlow: Option<HaFlow>,
                                     transitEncapsulation: TransitEncapsulation, timeout: Option<int>)
  datatype Emission =
    | Ping(context: PingContext)
    | CacheExpire(expiredFlow: Option<Flow>)
    | FlowPingResponse(flowId: string, error: string)
    | YFlowPingResponse(yFlowId: string, yFlowError: string)
    | HaFlowPingResponse(haFlowId: string, haFlowError: string)

  datatype PeriodicCommand =
    | PeriodicPingCommand(flowId: string, enable: bool)
    | PeriodicHaPingCommand(haFlowId: string, haEnable: bool)

  datatype FlowPingRequest = FlowPingRequest(flowId: string, timeout: int)
  datatype YFlowPingRequest = YFlowPingRequest(yFlowId: string, timeout: int)
  datatype HaFlowPingRequest = HaFlowPingRequest(haFlowId: string, timeout: int)

  /** The repositories find each flow, HA flow and Y-flow under its own id. */
  predicate Consistent(db: Persistence) {
    && (forall id :: id in db.flows ==> db.flows[id].flowId == id)
    && (forall id :: id in db.haFlows ==> db.haFlows[id].haFlowId == id)
    && (forall id :: id in db.yFlows ==> db.yFlows[id].yFlowId == id)
  }

  function FlowTransit(lookup: EncapsulationLookup, flow: Flow): Option<TransitEncapsulation> {
    lookup(flow.forwardPathId, flow.reversePathId, flow.encapsulationType)
  }

  function HaFlowTransit(lookup: EncapsulationLookup, haFlow: HaFlow): Option<TransitEncapsulation> {
    lookup(haFlow.forwardPathId, haFlow.reversePathId, haFlow.encapsulationType)
  }

  function YFlowIdOf(db: Persistence, flowId: string): Option<string> {
    if flowId in db.yFlowIdByFlowId then Some(db.yFlowIdByFlowId[flowId]) else None
  }

  /** A flow can be pinged when it spans two switches and has encapsulation resources. */
  predicate Pingable(lookup: EncapsulationLookup, flow: Flow) {
    !flow.oneSwitchFlow && FlowTransit(lookup, flow).Some?
  }

  /** The cache entry of a flow: none for a one-switch flow or one without encapsulation. */
  function FlowCacheEntry(db: Persistence, lookup: EncapsulationLookup, flow: Flow)
    : (r: Option<(CacheKey, TransitEncapsulation)>)
    ensures r.Some? <==> Pingable(lookup, flow)
    ensures r.Some? ==> r.value.0 == FlowKey(flow, YFlowIdOf(db, flow.flowId)) &&
                        r.value.1 == FlowTransit(lookup, flow).value
  {
    if flow.oneSwitchFlow then None
    else
      match FlowTransit(lookup, flow)
      case None => None
      case Some(t) => Some((FlowKey(flow, YFlowIdOf(db, flow.flowId)), t))
  }

  /** The cache entry of an HA flow: none when it has no encapsulation. */
  function HaFlowCacheEntry(lookup: EncapsulationLookup, haFlow: HaFlow)
    : (r: Option<(CacheKey, TransitEncapsulation)>)
    ensures r.Some? <==> HaFlowTransit(lookup, haFlow).Some?
    ensures r.Some? ==> r.value.0 == HaFlowKey(haFlow) && r.value.1 == HaFlowTransit(lookup, haFlow).value
  {
    match HaFlowTransit(lookup, haFlow)
    case None => None
    case Some(t) => Some((HaFlowKey(haFlow), t))
  }

  /**
   * Adding to the cache as a set does: an entry whose identity is present already
   * is not added, so the stored encapsulation stays.
   */
  function Add(cache: map<CacheKey, TransitEncapsulation>, entry: Option<(CacheKey, TransitEncapsulation)>)
    : (r: map<CacheKey, TransitEncapsulation>)
    ensures entry.None? ==> r == cache
    ensures entry.Some? ==> r.Keys == cache.Keys + {entry.value.0}
    ensures entry.Some? && entry.value.0 !in cache ==> r[entry.value.0] == entry.value.1
    ensures forall k :: k in cache ==> k in r && r[k] == cache[k]
  {
    if entry.None? || entry.value.0 in cache then cache else cache[entry.value.0 := entry.value.1]
  }

  /** The entries of every flow with pings enabled, collected into the accumulator. */
  function CollectFlows(acc: map<CacheKey, TransitEncapsulation>, flows: seq<Flow>, db: Persistence,
                        lookup: EncapsulationLookup): map<CacheKey, TransitEncapsulation>
    decreases |flows|
  {
    if flows == [] then acc
    else Add(CollectFlows(acc, flows[..|flows| - 1], db, lookup), FlowCacheEntry(db, lookup, flows[|flows| - 1]))
  }

  function CollectHaFlows(acc: map<CacheKey, TransitEncapsulation>, haFlows: seq<HaFlow>,
                          lookup: EncapsulationLookup): map<CacheKey, TransitEncapsulation>
    decreases |haFlows|
  {
    if haFlows == [] then acc
    else Add(CollectHaFlows(acc, haFlows[..|haFlows| - 1], lookup), HaFlowCacheEntry(lookup, haFlows[|haFlows| - 1]))
  }

  /** The freshly loaded regular flows. */
  function FreshFlows(db: Persistence, lookup: EncapsulationLookup): map<CacheKey, TransitEncapsulation> {
    CollectFlows(map[], db.flowsWithPeriodicPings, db, lookup)
  }

  /** The cache as a refresh rebuilds it: the fresh regular flows, then the fresh HA flows. */
  function Refreshed(db: Persistence, lookup: EncapsulationLookup): map<CacheKey, TransitEncapsulation> {
    CollectHaFlows(FreshFlows(db, lookup), db.haFlowsWithPeriodicPings, lookup)
  }

  /** The identities a refresh expires: those cached before and not loaded again. */
  function ExpiredKeys(cache: map<CacheKey, TransitEncapsulation>, reloaded: map<CacheKey, TransitEncapsulation>)
    : (r: set<CacheKey>)
    ensures forall k :: k in r <==> k in cache && k !in reloaded
  {
    cache.Keys - reloaded.Keys
  }

  /** Disabling periodic pings of a flow: every entry of that flow id goes, nothing else. */
  function DisableFlow(cache: map<CacheKey, TransitEncapsulation>, flowId: string): map<CacheKey, TransitEncapsulation> {
    map k | k in cache && !(k.FlowKey? && k.flow.flowId == flowId) :: cache[k]
  }

  /** Disabling periodic pings of an HA flow: every entry of that HA-flow id goes, nothing else. */
  function DisableHaFlow(cache: map<CacheKey, TransitEncapsulation>, haFlowId: string): map<CacheKey, TransitEncapsulation> {
    map k | k in cache && !(k.HaFlowKey? && k.haFlow.haFlowId == haFlowId) :: cache[k]
  }

  /** The cache after a periodic-ping command. */
  function AfterCommand(cache: map<CacheKey, TransitEncapsulation>, cmd: PeriodicCommand, db: Persistence,
                        lookup: EncapsulationLookup): map<CacheKey, TransitEncapsulation>
  {
    match cmd
    case PeriodicPingCommand(flowId, enable) =>
      if !enable then DisableFlow(cache, flowId)
      else if flowId in db.flows then Add(cache, FlowCacheEntry(db, lookup, db.flows[flowId]))
      else cache
    case PeriodicHaPingCommand(haFlowId, enable) =>
      if !enable then DisableHaFlow(cache, haFlowId)
      else if haFlowId in db.haFlows then Add(cache, HaFlowCacheEntry(lookup, db.haFlows[haFlowId]))
      else cache
  }

  // ---- Properties of the cache operations ----------------------------------------

  /**
   * After disabling a flow no entry of it is left, and every other entry is kept
   * with its encapsulation.
   */
  lemma DisableFlowRemovesExactlyThatFlow(cache: map<CacheKey, TransitEncapsulation>, flowId: string)
    ensures forall k :: k in DisableFlow(cache, flowId) ==> !(k.FlowKey? && k.flow.flowId == flowId)
    ensures forall k :: k in cache && !(k.FlowKey? && k.flow.flowId == flowId) ==>
      k in DisableFlow(cache, flowId) && DisableFlow(cache, flowId)[k] == cache[k]
    ensures DisableFlow(cache, flowId).Keys <= cache.Keys
  {
  }

  /** Enabling then disabling a flow leaves the cache without it, as disabling alone would. */
  lemma EnableThenDisable(cache: map<CacheKey, TransitEncapsulation>, db: Persistence, lookup: EncapsulationLookup,
                          flowId: string)
    requires Consistent(db)
    ensures AfterCommand(AfterCommand(cache, PeriodicPingCommand(flowId, true), db, lookup),
                         PeriodicPingCommand(flowId, false), db, lookup)
         == DisableFlow(cache, flowId)
  {
    var enabled := AfterCommand(cache, PeriodicPingCommand(flowId, true), db, lookup);
    if flowId in db.flows {
      var entry := FlowCacheEntry(db, lookup, db.flows[flowId]);
      assert enabled == Add(cache, entry);
      if entry.Some? {
        assert entry.value.0.flow.flowId == flowId;
        assert DisableFlow(enabled, flowId).Keys == DisableFlow(cache, flowId).Keys;
      }
    }
  }

  /** Enabling then disabling an HA flow leaves the cache without it, as disabling alone would. */
  lemma EnableThenDisableHaFlow(cache: map<CacheKey, TransitEncapsulation>, db: Persistence,
                                lookup: EncapsulationLookup, haFlowId: string)
    requires Consistent(db)
    ensures AfterCommand(AfterCommand(cache, PeriodicHaPingCommand(haFlowId, true), db, lookup),
                         PeriodicHaPingCommand(haFlowId, false), db, lookup)
         == DisableHaFlow(cache, haFlowId)
  {
    var enabled := AfterCommand(cache, PeriodicHaPingCommand(haFlowId, true), db, lookup);
    if haFlowId in db.haFlows {
      var entry := HaFlowCacheEntry(lookup, db.haFlows[haFlowId]);
      assert enabled == Add(cache, entry);
      if entry.Some? {
        assert entry.value.0.haFlow.haFlowId == haFlowId;
        assert DisableHaFlow(enabled, haFlowId).Keys == DisableHaFlow(cache, haFlowId).Keys;
      }
    }
  }

  /**
   * Enabling adds an entry only for a stored flow that spans two switches and has
   * encapsulation, and then it is cached under that flow and its Y-flow id; an entry
   * already cached keeps the encapsulation it was stored with.
   */
  lemma EnableAddsOnlyPingableFlows(cache: map<CacheKey, TransitEncapsulation>, db: Persistence,
                                    lookup: EncapsulationLookup, flowId: string)
    requires Consistent(db)
    ensures var r := AfterCommand(cache, PeriodicPingCommand(flowId, true), db, lookup);
      && (forall k :: k in cache ==> k in r && r[k] == cache[k])
      && (forall k :: k in r && k !in cache ==>
            flowId in db.flows && Pingable(lookup, db.flows[flowId]) &&
            k == FlowKey(db.flows[flowId], YFlowIdOf(db, flowId)) && r[k] == FlowTransit(lookup, db.flows[flowId]).value)
      && (flowId in db.flows && Pingable(lookup, db.flows[flowId]) ==>
            FlowKey(db.flows[flowId], YFlowIdOf(db, flowId)) in r)
  {
    if flowId in db.flows {
      assert AfterCommand(cache, PeriodicPingCommand(flowId, true), db, lookup) ==
        Add(cache, FlowCacheEntry(db, lookup, db.flows[flowId]));
    }
  }

  /** The flow entries collected are those of the listed flows that can be pinged. */
  lemma {:induction false} CollectFlowsMembers(acc: map<CacheKey, TransitEncapsulation>, flows: seq<Flow>,
                                               db: Persistence, lookup: EncapsulationLookup, k: CacheKey)
    requires forall a :: a in acc ==> a.FlowKey?
    ensures k in CollectFlows(acc, flows, db, lookup) ==> k.FlowKey?
    ensures k in CollectFlows(acc, flows, db, lookup) <==>
      k in acc ||
      (k.FlowKey? && k.yFlowId == YFlowIdOf(db, k.flow.flowId) && Pingable(lookup, k.flow) &&
       exists i :: 0 <= i < |flows| && flows[i] == k.flow)
    decreases |flows|
  {
    if flows != [] {
      var init := flows[..|flows| - 1];
      CollectFlowsMembers(acc, init, db, lookup, k);
      if k.FlowKey? && exists i :: 0 <= i < |init| && init[i] == k.flow {
        var i :| 0 <= i < |init| && init[i] == k.flow;
        assert flows[i] == k.flow;
      }
      if k.FlowKey? && exists i :: 0 <= i < |flows| && flows[i] == k.flow {
        var i :| 0 <= i < |flows| && flows[i] == k.flow;
        if i < |init| {
          assert init[i] == k.flow;
        }
      }
    }
  }

  lemma {:induction false} CollectHaFlowsMembers(acc: map<CacheKey, TransitEncapsulation>, haFlows: seq<HaFlow>,
                                                 lookup: EncapsulationLookup, k: CacheKey)
    ensures k in CollectHaFlows(acc, haFlows, lookup) <==>
      k in acc ||
      (k.HaFlowKey? && HaFlowTransit(lookup, k.haFlow).Some? &&
       exists i :: 0 <= i < |haFlows| && haFlows[i] == k.haFlow)
    decreases |haFlows|
  {
    if haFlows != [] {
      var init := haFlows[..|haFlows| - 1];
      CollectHaFlowsMembers(acc, init, lookup, k);
      if k.HaFlowKey? && exists i :: 0 <= i < |init| && init[i] == k.haFlow {
        var i :| 0 <= i < |init| && init[i] == k.haFlow;
        assert haFlows[i] == k.haFlow;
      }
      if k.HaFlowKey? && exists i :: 0 <= i < |haFlows| && haFlows[i] == k.haFlow {
        var i :| 0 <= i < |haFlows| && haFlows[i] == k.haFlow;
        if i < |init| {
          assert init[i] == k.haFlow;
        }
      }
    }
  }

  /**
   * A refreshed cache holds exactly the flows with pings enabled that can be pinged
   * (under their Y-flow id) and the HA flows with pings enabled that have
   * encapsulation.
   */
  lemma RefreshedMembers(db: Persistence, lookup: EncapsulationLookup, k: CacheKey)
    ensures k in Refreshed(db, lookup) <==>
      (k.FlowKey? && k.yFlowId == YFlowIdOf(db, k.flow.flowId) && Pingable(lookup, k.flow) &&
       exists i :: 0 <= i < |db.flowsWithPeriodicPings| && db.flowsWithPeriodicPings[i] == k.flow) ||
      (k.HaFlowKey? && HaFlowTransit(lookup, k.haFlow).Some? &&
       exists i :: 0 <= i < |db.haFlowsWithPeriodicPings| && db.haFlowsWithPeriodicPings[i] == k.haFlow)
  {
    CollectFlowsMembers(map[], db.flowsWithPeriodicPings, db, lookup, k);
    CollectHaFlowsMembers(FreshFlows(db, lookup), db.haFlowsWithPeriodicPings, lookup, k);
  }

  // ---- What a periodic tick emits ------------------------------------------------

  /** A periodic ping of each regular flow entry, in the given order. */
  function FlowPings(cache: map<CacheKey, TransitEncapsulation>, order: seq<CacheKey>): seq<Emission>
    requires forall i :: 0 <= i < |order| ==> order[i] in cache
    decreases |order|
  {
    if order == [] then []
    else
      var k := order[|order| - 1];
      FlowPings(cache, order[..|order| - 1]) +
      (if k.FlowKey?
       then [Ping(PingContext(PERIODIC, Some(DIRECTION_COUNT_PER_FLOW), Some(k.flow), k.yFlowId, None, cache[k], None))]
       else [])
  }

  /** A periodic ping of each HA flow entry, in the given order. */
  function HaFlowPings(cache: map<CacheKey, TransitEncapsulation>, order: seq<CacheKey>): seq<Emission>
    requires forall i :: 0 <= i < |order| ==> order[i] in cache
    decreases |order|
  {
    if order == [] then []
    else
      var k := order[|order| - 1];
      HaFlowPings(cache, order[..|order| - 1]) +
      (if k.HaFlowKey? then [Ping(PingContext(PERIODIC, None, None, None, Some(k.haFlow), cache[k], None))] else [])
  }

  /** An expiry notice for each identity, carrying its flow (none for an HA flow). */
  function ExpireNotices(order: seq<CacheKey>): seq<Emission>
    decreases |order|
  {
    if order == [] then []
    else
      var k := order[|order| - 1];
      ExpireNotices(order[..|order| - 1]) + [CacheExpire(if k.FlowKey? then Some(k.flow) else None)]
  }

  /** Every entry of the cache gets exactly one periodic ping, of its own kind. */
  lemma {:induction false} PeriodicPingsCoverCache(cache: map<CacheKey, TransitEncapsulation>, order: seq<CacheKey>)
    requires forall i :: 0 <= i < |order| ==> order[i] in cache
    ensures |FlowPings(cache, order)| + |HaFlowPings(cache, order)| == |order|
    ensures forall e :: e in FlowPings(cache, order) ==>
      e.Ping? && e.context.flow.Some? && e.context.groupSize == Some(DIRECTION_COUNT_PER_FLOW) &&
      FlowKey(e.context.flow.value, e.context.yFlowId) in cache
    ensures forall e :: e in HaFlowPings(cache, order) ==>
      e.Ping? && e.context.haFlow.Some? && HaFlowKey(e.context.haFlow.value) in cache
    decreases |order|
  {
    if order != [] {
      var init := order[..|order| - 1];
      PeriodicPingsCoverCache(cache, init);
      var k := order[|order| - 1];
      if k.FlowKey? {
        assert FlowPings(cache, order) == FlowPings(cache, init) +
          [Ping(PingContext(PERIODIC, Some(DIRECTION_COUNT_PER_FLOW), Some(k.flow), k.yFlowId, None, cache[k], None))];
        assert HaFlowPings(cache, order) == HaFlowPings(cache, init);
      } else {
        assert FlowPings(cache, order) == FlowPings(cache, init);
        assert HaFlowPings(cache, order) == HaFlowPings(cache, init) +
          [Ping(PingContext(PERIODIC, None, None, None, Some(k.haFlow), cache[k], None))];
      }
    }
  }

  // ---- On-demand checks ----------------------------------------------------------

  /** The answer to an on-demand flow ping: a ping, or the first check that fails. */
  function OnDemandFlowPing(db: Persistence, lookup: EncapsulationLookup, request: FlowPingRequest): Emission {
    var id := request.flowId;
    if id !in db.flows then FlowPingResponse(id, "Flow " + id + " does not exist")
    else
      var flow := db.flows[id];
      if flow.oneSwitchFlow then FlowPingResponse(id, "Flow " + id + " should not be one-switch flow")
      else
        match FlowTransit(lookup, flow)
        case None => FlowPingResponse(id, "Encapsulation resource not found for flow " + id)
        case Some(t) =>
          Ping(PingContext(ON_DEMAND, Some(DIRECTION_COUNT_PER_FLOW), Some(flow), None, None, t, Some(request.timeout)))
  }

  /**
   * An on-demand flow ping goes out exactly for the flows the periodic cache would
   * accept; otherwise the answer names the first failed check: existence, then the
   * one-switch check, then the encapsulation.
   */
  lemma OnDemandFlowPingMatchesCache(db: Persistence, lookup: EncapsulationLookup, request: FlowPingRequest)
    ensures var r := OnDemandFlowPing(db, lookup, request);
      && (r.Ping? <==> request.flowId in db.flows && FlowCacheEntry(db, lookup, db.flows[request.flowId]).Some?)
      && (r.Ping? ==> r.context.flow == Some(db.flows[request.flowId]) &&
                      r.context.transitEncapsulation == FlowTransit(lookup, db.flows[request.flowId]).value &&
                      r.context.kind == ON_DEMAND && r.context.timeout == Some(request.timeout))
      && (!r.Ping? ==> r.FlowPingResponse? && r.flowId == request.flowId)
      && (request.flowId !in db.flows ==> r.error == "Flow " + request.flowId + " does not exist")
      && (request.flowId in db.flows && db.flows[request.flowId].oneSwitchFlow ==>
            r.error == "Flow " + request.flowId + " should not be one-switch flow")
  {
  }

  /** The sub-flows of a Y-flow that span two switches, in order. */
  function MultiSwitchSubFlows(subFlows: seq<YSubFlow>): (r: seq<YSubFlow>)
    ensures forall sf :: sf in r <==> sf in subFlows && !sf.flow.oneSwitchFlow
    decreases |subFlows|
  {
    if subFlows == [] then []
    else
      var sf := subFlows[|subFlows| - 1];
      MultiSwitchSubFlows(subFlows[..|subFlows| - 1]) + (if sf.flow.oneSwitchFlow then [] else [sf])
  }

  /** The first sub-flow, in order, without encapsulation. */
  function FirstWithoutEncapsulation(subFlows: seq<YSubFlow>, lookup: EncapsulationLookup): Option<YSubFlow>
    decreases |subFlows|
  {
    if subFlows == [] then None
    else if FlowTransit(lookup, subFlows[0].flow).None? then Some(subFlows[0])
    else FirstWithoutEncapsulation(subFlows[1..], lookup)
  }

  /** The ping of each sub-flow, sharing one group of the given size. */
  function SubFlowPings(subFlows: seq<YSubFlow>, yFlowId: string, groupSize: nat, timeout: int,
                        lookup: EncapsulationLookup): seq<PingContext>
    requires forall i :: 0 <= i < |subFlows| ==> FlowTransit(lookup, subFlows[i].flow).Some?
    decreases |subFlows|
  {
    if subFlows == [] then []
    else
      var sf := subFlows[|subFlows| - 1];
      SubFlowPings(subFlows[..|subFlows| - 1], yFlowId, groupSize, timeout, lookup) +
      [PingContext(ON_DEMAND_Y_FLOW, Some(groupSize), Some(sf.flow), Some(yFlowId), None,
                   FlowTransit(lookup, sf.flow).value, Some(timeout))]
  }

  function PingsOf(contexts: seq<PingContext>): seq<Emission>
    decreases |contexts|
  {
    if contexts == [] then [] else PingsOf(contexts[..|contexts| - 1]) + [Ping(contexts[|contexts| - 1])]
  }

  /**
   * The answer to an on-demand Y-flow ping: a response for the first failed check
   * (existence, sub-flows present, encapsulation of each sub-flow spanning two
   * switches, at least one such sub-flow), or one ping per such sub-flow.
   */
  function OnDemandYFlowPing(db: Persistence, lookup: EncapsulationLookup, request: YFlowPingRequest): seq<Emission> {
    var id := request.yFlowId;
    if id !in db.yFlows then [YFlowPingResponse(id, "Y-flow " + id + " does not exist")]
    else
      var yFlow := db.yFlows[id];
      if |yFlow.subFlows| == 0 then [YFlowPingResponse(id, "Y-flow " + id + " has no sub-flows")]
      else
        var multi := MultiSwitchSubFlows(yFlow.subFlows);
        match FirstWithoutEncapsulation(multi, lookup)
        case Some(sf) =>
          [YFlowPingResponse(id, "Encapsulation resource not found for sub flow " + sf.subFlowId +
                                 " of YFlow " + yFlow.yFlowId)]
        case None =>
          if multi == [] then [YFlowPingResponse(id, "Y-flow " + id + " has only one-switch sub-flows")]
          else
            AllEncapsulated(multi, lookup);
            PingsOf(SubFlowPings(multi, yFlow.yFlowId, |multi| * DIRECTION_COUNT_PER_FLOW, request.timeout, lookup))
  }

  /** With no sub-flow lacking encapsulation, every sub-flow has it. */
  lemma {:induction false} AllEncapsulated(subFlows: seq<YSubFlow>, lookup: EncapsulationLookup)
    requires FirstWithoutEncapsulation(subFlows, lookup).None?
    ensures forall i :: 0 <= i < |subFlows| ==> FlowTransit(lookup, subFlows[i].flow).Some?
    decreases |subFlows|
  {
    if subFlows != [] {
      AllEncapsulated(subFlows[1..], lookup);
      forall i | 1 <= i < |subFlows|
        ensures FlowTransit(lookup, subFlows[i].flow).Some?
      {
        assert subFlows[i] == subFlows[1..][i - 1];
      }
    }
  }

  /** The first sub-flow without encapsulation is the one after a run of encapsulated ones. */
  lemma {:induction false} FirstWithoutEncapsulationAt(subFlows: seq<YSubFlow>, lookup: EncapsulationLookup, i: int)
    requires 0 <= i < |subFlows| && FlowTransit(lookup, subFlows[i].flow).None?
    requires forall j :: 0 <= j < i ==> FlowTransit(lookup, subFlows[j].flow).Some?
    ensures FirstWithoutEncapsulation(subFlows, lookup) == Some(subFlows[i])
    decreases i
  {
    if i > 0 {
      FirstWithoutEncapsulationAt(subFlows[1..], lookup, i - 1);
    }
  }

  lemma {:induction false} SubFlowPingsShape(subFlows: seq<YSubFlow>, yFlowId: string, groupSize: nat, timeout: int,
                                             lookup: EncapsulationLookup)
    requires forall i :: 0 <= i < |subFlows| ==> FlowTransit(lookup, subFlows[i].flow).Some?
    ensures |PingsOf(SubFlowPings(subFlows, yFlowId, groupSize, timeout, lookup))| == |subFlows|
    ensures forall i :: 0 <= i < |subFlows| ==>
      PingsOf(SubFlowPings(subFlows, yFlowId, groupSize, timeout, lookup))[i] ==
      Ping(PingContext(ON_DEMAND_Y_FLOW, Some(groupSize), Some(subFlows[i].flow), Some(yFlowId), None,
                       FlowTransit(lookup, subFlows[i].flow).value, Some(timeout)))
    decreases |subFlows|
  {
    if subFlows != [] {
      var init := subFlows[..|subFlows| - 1];
      SubFlowPingsShape(init, yFlowId, groupSize, timeout, lookup);
      var c := SubFlowPings(subFlows, yFlowId, groupSize, timeout, lookup);
      assert c[..|c| - 1] == SubFlowPings(init, yFlowId, groupSize, timeout, lookup);
    }
  }

  /**
   * A Y-flow ping either answers with exactly one response, or pings every
   * sub-flow that spans two switches, in order, all in one group covering both
   * directions of each; it pings only when each of them has encapsulation.
   */
  lemma OnDemandYFlowPingShape(db: Persistence, lookup: EncapsulationLookup, request: YFlowPingRequest)
    requires Consistent(db)
    ensures var r := OnDemandYFlowPing(db, lookup, request);
      (|r| == 1 && r[0].YFlowPingResponse? && r[0].yFlowId == request.yFlowId) ||
      (request.yFlowId in db.yFlows &&
       var multi := MultiSwitchSubFlows(db.yFlows[request.yFlowId].subFlows);
       && multi != []
       && (forall i :: 0 <= i < |multi| ==> FlowTransit(lookup, multi[i].flow).Some?)
       && |r| == |multi|
       && forall i :: 0 <= i < |r| ==>
            r[i].Ping? && r[i].context.flow == Some(multi[i].flow) &&
            r[i].context.groupSize == Some(DIRECTION_COUNT_PER_FLOW * |r|) &&
            r[i].context.yFlowId == Some(request.yFlowId))
  {
    var id := request.yFlowId;
    if id in db.yFlows && |db.yFlows[id].subFlows| > 0 {
      var multi := MultiSwitchSubFlows(db.yFlows[id].subFlows);
      if FirstWithoutEncapsulation(multi, lookup).None? && multi != [] {
        YFlowPingsWhenEligible(db, lookup, request);
      } else {
        YFlowResponseOtherwise(db, lookup, request);
      }
    } else {
      YFlowResponseOtherwise(db, lookup, request);
    }
  }

  lemma YFlowResponseOtherwise(db: Persistence, lookup: EncapsulationLookup, request: YFlowPingRequest)
    requires !(request.yFlowId in db.yFlows && |db.yFlows[request.yFlowId].subFlows| > 0 &&
               MultiSwitchSubFlows(db.yFlows[request.yFlowId].subFlows) != [] &&
               FirstWithoutEncapsulation(MultiSwitchSubFlows(db.yFlows[request.yFlowId].subFlows), lookup).None?)
    ensures var r := OnDemandYFlowPing(db, lookup, request);
      |r| == 1 && r[0].YFlowPingResponse? && r[0].yFlowId == request.yFlowId
  {
  }

  lemma YFlowPingsWhenEligible(db: Persistence, lookup: EncapsulationLookup, request: YFlowPingRequest)
    requires Consistent(db)
    requires request.yFlowId in db.yFlows && |db.yFlows[request.yFlowId].subFlows| > 0
    requires MultiSwitchSubFlows(db.yFlows[request.yFlowId].subFlows) != []
    requires FirstWithoutEncapsulation(MultiSwitchSubFlows(db.yFlows[request.yFlowId].subFlows), lookup).None?
    ensures var r := OnDemandYFlowPing(db, lookup, request);
       var multi := MultiSwitchSubFlows(db.yFlows[request.yFlowId].subFlows);
       && (forall i :: 0 <= i < |multi| ==> FlowTransit(lookup, multi[i].flow).Some?)
       && |r| == |multi|
       && forall i :: 0 <= i < |r| ==>
            r[i].Ping? && r[i].context.flow == Some(multi[i].flow) &&
            r[i].context.groupSize == Some(DIRECTION_COUNT_PER_FLOW * |r|) &&
            r[i].context.yFlowId == Some(request.yFlowId)
  {
    var yFlow := db.yFlows[request.yFlowId];
    var multi := MultiSwitchSubFlows(yFlow.subFlows);
    AllEncapsulated(multi, lookup);
    var groupSize := |multi| * DIRECTION_COUNT_PER_FLOW;
    SubFlowPingsShape(multi, yFlow.yFlowId, groupSize, request.timeout, lookup);
    var pings := PingsOf(SubFlowPings(multi, yFlow.yFlowId, groupSize, request.timeout, lookup));
    var r := OnDemandYFlowPing(db, lookup, request);
    assert r == pings;
    assert yFlow.yFlowId == request.yFlowId;
    assert DIRECTION_COUNT_PER_FLOW * |r| == groupSize;
    forall i | 0 <= i < |r|
      ensures r[i].Ping? && r[i].context.flow == Some(multi[i].flow) &&
              r[i].context.groupSize == Some(DIRECTION_COUNT_PER_FLOW * |r|) &&
              r[i].context.yFlowId == Some(request.yFlowId)
    {
      assert r[i] == Ping(PingContext(ON_DEMAND_Y_FLOW, Some(groupSize), Some(multi[i].flow), Some(yFlow.yFlowId), None,
                                      FlowTransit(lookup, multi[i].flow).value, Some(request.timeout)));
    }
  }

  /** How many sub-flows end at the given switch. */
  function EndpointCount(subFlows: seq<HaSubFlow>, switchId: string): (r: nat)
    ensures r <= |subFlows|
    decreases |subFlows|
  {
    if subFlows == [] then 0
    else EndpointCount(subFlows[..|subFlows| - 1], switchId)
         + (if subFlows[|subFlows| - 1].endpointSwitchId == switchId then 1 else 0)
  }

  predicate AllOneSwitch(subFlows: seq<HaSubFlow>) {
    forall i :: 0 <= i < |subFlows| ==> subFlows[i].oneSwitchFlow
  }

  /**
   * The answer to an on-demand HA-flow ping: a response for the first failed check
   * (existence, sub-flows present, not all one-switch, not exactly one sub-flow
   * ending at the Y-point, encapsulation), or a ping.
   */
  function OnDemandHaFlowPing(db: Persistence, lookup: EncapsulationLookup, request: HaFlowPingRequest): Emission {
    var id := request.haFlowId;
    if id !in db.haFlows then HaFlowPingResponse(id, "HaFlow " + id + " does not exist")
    else
      var haFlow := db.haFlows[id];
      if |haFlow.haSubFlows| == 0 then HaFlowPingResponse(id, "HaFlow " + id + " has no sub-flows")
      else if AllOneSwitch(haFlow.haSubFlows) then
        HaFlowPingResponse(id, "HaFlow " + id + " has only one-switch sub-flows")
      else if EndpointCount(haFlow.haSubFlows, haFlow.yPointSwitchId) == 1 then
        HaFlowPingResponse(id, "Temporary disabled. HaFlow " + id +
                               " has one sub-flow with endpoint switch equals to Y-point switch")
      else
        match HaFlowTransit(lookup, haFlow)
        case None => HaFlowPingResponse(id, "Encapsulation resource not found for ha-flow " + id)
        case Some(t) => Ping(PingContext(ON_DEMAND_HA_FLOW, None, None, None, Some(haFlow), t, Some(request.timeout)))
  }

  /**
   * An HA-flow ping goes out exactly when the flow exists, has a sub-flow spanning
   * two switches, does not have exactly one sub-flow ending at the Y-point, and has
   * encapsulation; an HA flow the periodic cache accepts may still be refused here.
   */
  lemma OnDemandHaFlowPingConditions(db: Persistence, lookup: EncapsulationLookup, request: HaFlowPingRequest)
    ensures var r := OnDemandHaFlowPing(db, lookup, request);
      && (r.Ping? <==>
            request.haFlowId in db.haFlows &&
            var h := db.haFlows[request.haFlowId];
            && (exists i :: 0 <= i < |h.haSubFlows| && !h.haSubFlows[i].oneSwitchFlow)
            && EndpointCount(h.haSubFlows, h.yPointSwitchId) != 1
            && HaFlowCacheEntry(lookup, h).Some?)
      && (r.Ping? ==> r.context.haFlow == Some(db.haFlows[request.haFlowId]) && r.context.kind == ON_DEMAND_HA_FLOW)
      && (!r.Ping? ==> r.HaFlowPingResponse? && r.haFlowId == request.haFlowId)
  {
  }

  // ---- Findings ------------------------------------------------------------------

  /**
   * Disabling as the code is written: the removal predicate reads the flow id of
   * every entry visited (in the set's order), and an HA entry has no flow, so the
   * first HA entry visited raises a null-pointer error; HA-flow disabling fails the
   * same way on the first regular entry.
   */
  function DisableAsWritten(cache: map<CacheKey, TransitEncapsulation>, order: seq<CacheKey>, id: string, ha: bool)
    : Result<map<CacheKey, TransitEncapsulation>, string>
    decreases |order|
  {
    if order == [] then Ok(cache)
    else
      var k := order[0];
      if k.HaFlowKey? != ha then Err("NullPointerException")
      else
        var matches := if ha then k.haFlow.haFlowId == id else k.flow.flowId == id;
        DisableAsWritten(if matches then cache - {k} else cache, order[1..], id, ha)
  }

  /** As written, disabling fails whenever the cache holds an entry of the other kind. */
  lemma {:induction false} DisableAsWrittenFailsOnMixedCache(cache: map<CacheKey, TransitEncapsulation>,
                                                             order: seq<CacheKey>, id: string, ha: bool)
    requires exists i :: 0 <= i < |order| && order[i].HaFlowKey? != ha
    ensures DisableAsWritten(cache, order, id, ha).Err?
    decreases |order|
  {
    if order[0].HaFlowKey? == ha {
      var i :| 0 <= i < |order| && order[i].HaFlowKey? != ha;
      assert order[1..][i - 1] == order[i];
      var matches := if ha then order[0].haFlow.haFlowId == id else order[0].flow.flowId == id;
      DisableAsWrittenFailsOnMixedCache(if matches then cache - {order[0]} else cache, order[1..], id, ha);
    }
  }

  /**
   * A cache holding a flow and an HA flow: as written, disabling the flow fails,
   * while the corrected removal drops the flow and keeps the HA flow.
   */
  lemma MixedCacheDisableCounterexample(flow: Flow, haFlow: HaFlow, t: TransitEncapsulation)
    ensures var cache := map[FlowKey(flow, None) := t, HaFlowKey(haFlow) := t];
      && DisableAsWritten(cache, [FlowKey(flow, None), HaFlowKey(haFlow)], flow.flowId, false).Err?
      && DisableAsWritten(cache, [HaFlowKey(haFlow), FlowKey(flow, None)], haFlow.haFlowId, true).Err?
      && DisableFlow(cache, flow.flowId) == map[HaFlowKey(haFlow) := t]
      && DisableHaFlow(cache, haFlow.haFlowId) == map[FlowKey(flow, None) := t]
  {
    var cache := map[FlowKey(flow, None) := t, HaFlowKey(haFlow) := t];
    assert [FlowKey(flow, None), HaFlowKey(haFlow)][1].HaFlowKey?;
    assert ![HaFlowKey(haFlow), FlowKey(flow, None)][1].HaFlowKey?;
    DisableAsWrittenFailsOnMixedCache(cache, [FlowKey(flow, None), HaFlowKey(haFlow)], flow.flowId, false);
    DisableAsWrittenFailsOnMixedCache(cache, [HaFlowKey(haFlow), FlowKey(flow, None)], haFlow.haFlowId, true);
    assert DisableFlow(cache, flow.flowId).Keys == {HaFlowKey(haFlow)};
    assert DisableHaFlow(cache, haFlow.haFlowId).Keys == {FlowKey(flow, None)};
  }

  /**
   * The identities expired as the code is written: only the freshly loaded regular
   * flows are subtracted, so every cached HA flow is expired, reloaded or not.
   */
  function ExpiredKeysAsWritten(cache: map<CacheKey, TransitEncapsulation>, db: Persistence,
                                lookup: EncapsulationLookup): set<CacheKey>
  {
    ExpiredKeys(cache, FreshFlows(db, lookup))
  }

  /**
   * An HA flow that is cached and loaded again is expired as written, but not by
   * the corrected expiry, which expires exactly what the refresh drops.
   */
  lemma ExpiryAsWrittenDropsReloadedHaFlows(cache: map<CacheKey, TransitEncapsulation>, db: Persistence,
                                            lookup: EncapsulationLookup, haFlow: HaFlow)
    requires HaFlowKey(haFlow) in cache && HaFlowKey(haFlow) in Refreshed(db, lookup)
    ensures HaFlowKey(haFlow) in ExpiredKeysAsWritten(cache, db, lookup)
    ensures HaFlowKey(haFlow) !in ExpiredKeys(cache, Refreshed(db, lookup))
    ensures forall k :: k in ExpiredKeys(cache, Refreshed(db, lookup)) ==> k !in Refreshed(db, lookup)
  {
    CollectFlowsMembers(map[], db.flowsWithPeriodicPings, db, lookup, HaFlowKey(haFlow));
  }

  // ---- The bolt ------------------------------------------------------------------

  class FlowFetcher {
    /** The cache lifetime in milliseconds. */
    const periodicPingCacheExpiryInterval: int
    var flowsSet: map<CacheKey, TransitEncapsulation>
    var lastPeriodicPingCacheRefresh: int
    /** Everything emitted, in order. */
    var emitted: seq<Emission>

    /** The lifetime is configured in seconds. */
    constructor (expiryIntervalSeconds: int)
      ensures periodicPingCacheExpiryInterval == expiryIntervalSeconds * 1000
      ensures flowsSet == map[] && lastPeriodicPingCacheRefresh == 0 && emitted == []
    {
      periodicPingCacheExpiryInterval := expiryIntervalSeconds * 1000;
      flowsSet := map[];
      lastPeriodicPingCacheRefresh := 0;
      emitted := [];
    }

    /** Start-up: the cache is loaded without expiring anything. */
    method Init(db: Persistence, lookup: EncapsulationLookup, now: int)
      modifies this`flowsSet, this`lastPeriodicPingCacheRefresh
      ensures flowsSet == Refreshed(db, lookup) && lastPeriodicPingCacheRefresh == now
    {
      flowsSet := Refreshed(db, lookup);
      lastPeriodicPingCacheRefresh := now;
    }

    /** An enable or disable command for a flow or an HA flow. */
    method UpdatePeriodicPingHeap(cmd: PeriodicCommand, db: Persistence, lookup: EncapsulationLookup)
      modifies this`flowsSet
      ensures flowsSet == AfterCommand(old(flowsSet), cmd, db, lookup)
    {
      match cmd
      case PeriodicPingCommand(flowId, enable) =>
        if enable {
          if flowId in db.flows {
            flowsSet := Add(flowsSet, FlowCacheEntry(db, lookup, db.flows[flowId]));
          }
        } else {
          flowsSet := DisableFlow(flowsSet, flowId);
        }
      case PeriodicHaPingCommand(haFlowId, enable) =>
        if enable {
          if haFlowId in db.haFlows {
            flowsSet := Add(flowsSet, HaFlowCacheEntry(lookup, db.haFlows[haFlowId]));
          }
        } else {
          flowsSet := DisableHaFlow(flowsSet, haFlowId);
        }
    }

    /** Emits an expiry notice for each identity, in order. */
    method EmitCacheExpire(order: seq<CacheKey>)
      modifies this`emitted
      ensures emitted == old(emitted) + ExpireNotices(order)
    {
      for i := 0 to |order|
        invariant emitted == old(emitted) + ExpireNotices(order[..i])
      {
        assert order[..i + 1][..i] == order[..i];
        emitted := emitted + [CacheExpire(if order[i].FlowKey? then Some(order[i].flow) else None)];
      }
      assert order[..|order|] == order;
    }

    /** Emits the periodic pings of the regular entries, then those of the HA entries. */
    method EmitPeriodicPings(order: seq<CacheKey>)
      requires forall i :: 0 <= i < |order| ==> order[i] in flowsSet
      modifies this`emitted
      ensures emitted == old(emitted) + FlowPings(flowsSet, order) + HaFlowPings(flowsSet, order)
    {
      for i := 0 to |order|
        invariant emitted == old(emitted) + FlowPings(flowsSet, order[..i])
      {
        assert order[..i + 1][..i] == order[..i];
        var k := order[i];
        if k.FlowKey? {
          emitted := emitted + [Ping(PingContext(PERIODIC, Some(DIRECTION_COUNT_PER_FLOW), Some(k.flow), k.yFlowId,
                                                 None, flowsSet[k], None))];
        }
      }
      assert order[..|order|] == order;
      ghost var afterFlows := emitted;
      for i := 0 to |order|
        invariant emitted == afterFlows + HaFlowPings(flowsSet, order[..i])
      {
        assert order[..i + 1][..i] == order[..i];
        var k := order[i];
        if k.HaFlowKey? {
          emitted := emitted + [Ping(PingContext(PERIODIC, None, None, None, Some(k.haFlow), flowsSet[k], None))];
        }
      }
      assert order[..|order|] == order;
    }

    /**
     * A periodic tick. When the cache is older than its lifetime it is rebuilt:
     * the cached identities the rebuild drops are expired (in expireOrder) and the
     * refresh time becomes now. Then every cached entry is pinged (in pingOrder).
     */
    method HandlePeriodicRequest(now: int, db: Persistence, lookup: EncapsulationLookup,
                                 expireOrder: seq<CacheKey>, pingOrder: seq<CacheKey>)
      requires lastPeriodicPingCacheRefresh + periodicPingCacheExpiryInterval < now ==>
        Enumerates(expireOrder, ExpiredKeys(flowsSet, Refreshed(db, lookup)))
      requires Enumerates(pingOrder,
        (if lastPeriodicPingCacheRefresh + periodicPingCacheExpiryInterval < now then Refreshed(db, lookup) else flowsSet).Keys)
      modifies this`flowsSet, this`lastPeriodicPingCacheRefresh, this`emitted
      ensures var refresh := old(lastPeriodicPingCacheRefresh) + periodicPingCacheExpiryInterval < now;
        && lastPeriodicPingCacheRefresh == (if refresh then now else old(lastPeriodicPingCacheRefresh))
        && flowsSet == (if refresh then Refreshed(db, lookup) else old(flowsSet))
        && emitted == old(emitted) + (if refresh then ExpireNotices(expireOrder) else [])
                      + FlowPings(flowsSet, pingOrder) + HaFlowPings(flowsSet, pingOrder)
    {
      if lastPeriodicPingCacheRefresh + periodicPingCacheExpiryInterval < now {
        EmitCacheExpire(expireOrder);
        flowsSet := Refreshed(db, lookup);
        lastPeriodicPingCacheRefresh := now;
      }
      EmitPeriodicPings(pingOrder);
    }

    method HandleOnDemandRequest(request: FlowPingRequest, db: Persistence, lookup: EncapsulationLookup)
      modifies this`emitted
      ensures emitted == old(emitted) + [OnDemandFlowPing(db, lookup, request)]
    {
      emitted := emitted + [OnDemandFlowPing(db, lookup, request)];
    }

    /**
     * An on-demand Y-flow ping: the sub-flows spanning two switches are visited in
     * order and the first without encapsulation ends the request with a response;
     * the pings are emitted only after all of them passed.
     */
    method HandleOnDemandYFlowRequest(request: YFlowPingRequest, db: Persistence, lookup: EncapsulationLookup)
      modifies this`emitted
      ensures emitted == old(emitted) + OnDemandYFlowPing(db, lookup, request)
    {
      var id := request.yFlowId;
      if id !in db.yFlows {
        emitted := emitted + [YFlowPingResponse(id, "Y-flow " + id + " does not exist")];
        return;
      }
      var yFlow := db.yFlows[id];
      if |yFlow.subFlows| == 0 {
        emitted := emitted + [YFlowPingResponse(id, "Y-flow " + id + " has no sub-flows")];
        return;
      }
      var multi := MultiSwitchSubFlows(yFlow.subFlows);
      var groupSize := |multi| * DIRECTION_COUNT_PER_FLOW;
      var missing, requests := BuildSubFlowPings(multi, yFlow.yFlowId, groupSize, request.timeout, lookup);
      if missing.Some? {
        emitted := emitted + [YFlowPingResponse(id, "Encapsulation resource not found for sub flow " +
                                                    missing.value.subFlowId + " of YFlow " + yFlow.yFlowId)];
        return;
      }
      if requests == [] {
        emitted := emitted + [YFlowPingResponse(id, "Y-flow " + id + " has only one-switch sub-flows")];
        return;
      }
      for i := 0 to |requests|
        invariant emitted == old(emitted) + PingsOf(requests[..i])
      {
        assert requests[..i + 1][..i] == requests[..i];
        emitted := emitted + [Ping(requests[i])];
      }
      assert requests[..|requests|] == requests;
    }

    /**
     * Visits the sub-flows in order, building the ping of each; the first one
     * without encapsulation stops the visit and is returned.
     */
    method BuildSubFlowPings(multi: seq<YSubFlow>, yFlowId: string, groupSize: nat, timeout: int,
                             lookup: EncapsulationLookup)
      returns (missing: Option<YSubFlow>, requests: seq<PingContext>)
      ensures missing == FirstWithoutEncapsulation(multi, lookup)
      ensures missing.None? ==>
        (forall j :: 0 <= j < |multi| ==> FlowTransit(lookup, multi[j].flow).Some?) &&
        requests == SubFlowPings(multi, yFlowId, groupSize, timeout, lookup)
      ensures missing.None? ==> (requests == [] <==> multi == [])
    {
      requests := [];
      for i := 0 to |multi|
        invariant forall j :: 0 <= j < i ==> FlowTransit(lookup, multi[j].flow).Some?
        invariant requests == SubFlowPings(multi[..i], yFlowId, groupSize, timeout, lookup)
        invariant |requests| == i
      {
        assert multi[..i + 1][..i] == multi[..i];
        var transit := FlowTransit(lookup, multi[i].flow);
        if transit.None? {
          FirstWithoutEncapsulationAt(multi, lookup, i);
          return Some(multi[i]), requests;
        }
        requests := requests + [PingContext(ON_DEMAND_Y_FLOW, Some(groupSize), Some(multi[i].flow),
                                            Some(yFlowId), None, transit.value, Some(timeout))];
      }
      assert multi[..|multi|] == multi;
      FirstWithoutEncapsulationNone(multi, lookup);
      missing := None;
    }

    method HandleOnDemandHaFlowRequest(request: HaFlowPingRequest, db: Persistence, lookup: EncapsulationLookup)
      modifies this`emitted
      ensures emitted == old(emitted) + [OnDemandHaFlowPing(db, lookup, request)]
    {
      emitted := emitted + [OnDemandHaFlowPing(db, lookup, request)];
    }
  }

  /** When every sub-flow has encapsulation, none is reported missing. */
  lemma {:induction false} FirstWithoutEncapsulationNone(subFlows: seq<YSubFlow>, lookup: EncapsulationLookup)
    requires forall j :: 0 <= j < |subFlows| ==> FlowTransit(lookup, subFlows[j].flow).Some?
    ensures FirstWithoutEncapsulation(subFlows, lookup).None?
    decreases |subFlows|
  {
    if subFlows != [] {
      FirstWithoutEncapsulationNone(subFlows[1..], lookup);
    }
  }
}

# OpenKilda flow sagas and companions, in Dafny

This project models the core of OpenKilda, an SDN controller for OpenFlow switches, and proves properties of the model. It covers:

- **The flow-update saga.** The transition table of the saga that updates a flow, with its forward spine (validate, allocate, install and validate rules, swap paths, remove old rules, deallocate, update status) and its rollback spine, which always ends in `FINISHED_WITH_ERROR`. Also the listener calls made on reaching a final state, the configuration defaults, and the first action, which validates the update request.
- **HA-flow saga actions.**
  - The swap of an HA flow's paths and its compensating revert.
  - The handlers that give up on speaker commands that never completed (update and delete sagas).
  - The handlers for old paths that could not be removed, HA flows that could not be created, and resources that could not be deallocated.
  - The Y-flow action that fans an update out to its sub-flows.
- **Request routing.** The router that sends each flow-operation request to the hub serving it.
- **Switch discovery.** The switch state machine of the discovery topology, which reconciles its port map against the ports a speaker reports.
- **Ping scheduling.** The flow fetcher of the ping topology: a cache of flows with periodic pings, its time-gated refresh and expiry, and the on-demand eligibility checks for flows, Y-flows and HA flows.
- **Small components.**
  - The generator of the input-table ARP rule.
  - The encapsulation-type converter of the graph persistence.
  - The stats cache handler.
  - The single-record in-memory repositories.
  - The request checks and payload assembly of the northbound flow service.
- **Behaviour stated by tests.** Three components whose implementation is not part of this model, rebuilt from the behaviour their tests assert:
  - the path intersection computer;
  - the available-network graph of the path computation;
  - the port state machine of the network topology.

Each source file becomes one module. The form follows the source:
- A declarative table or an expression becomes a function.
- An object whose fields change becomes a class whose methods are proved against specification functions.
- A loop becomes a `while` or `for` loop with its invariants.

Persistence is an in-memory map. Each transaction body is one method.

## Model

| member | source | states |
|---|---|---|
| RouterBolt.EffectiveKey | src-java/flowhs-topology/flowhs-storm-topology/src/main/java/org/openkilda/wfm/topology/flowhs/bolts/RouterBolt.java:105-112 | a blank input key (absent, empty, or only characters that Character.isWhitespace accepts, the Unicode space separators included) is replaced by the command context's correlation id; any other key is used as it is |
| RouterBolt.Route | src-java/flowhs-topology/flowhs-storm-topology/src/main/java/org/openkilda/wfm/topology/flowhs/bolts/RouterBolt.java:104-290 | an inactive bolt routes nothing; an active one hands an unknown payload to the unhandled-input path, raises the unsupported-operation error exactly for a create/update request of another type, and otherwise emits the payload under the effective key, with the flow id it carries, to a hub stream of the payload's own kind of flow (flow, y-flow or HA-flow) |
| RouterBolt.TypedRequestsReachTheirHub | src-java/flowhs-topology/flowhs-storm-topology/src/main/java/org/openkilda/wfm/topology/flowhs/bolts/RouterBolt.java:118-250 | a CREATE request reaches a create hub and an UPDATE request an update hub, and only those |
| RouterBolt.SharedStreams | src-java/flowhs-topology/flowhs-storm-topology/src/main/java/org/openkilda/wfm/topology/flowhs/bolts/RouterBolt.java:157-275 | flow-loop requests go to the flow update hub and partial updates to the full update hub of their kind |
| RouterBolt.ReadStreams | src-java/flowhs-topology/flowhs-storm-topology/src/main/java/org/openkilda/wfm/topology/flowhs/bolts/RouterBolt.java:157-275 | exactly the dump, read, paths and sub-flows requests of a kind go to that kind's read stream |
| InputArpRuleGenerator.BuildArpInputCustomerFlowCommand | src-java/rule-manager/rule-manager-implementation/src/main/java/org/openkilda/rulemanager/factory/generator/flow/InputArpRuleGenerator.java:64-83 | the rule sits on the endpoint's switch in the input table at the ARP-input priority, with the port-colour cookie of the endpoint's port; it matches a packet exactly when the packet enters on that port with the ARP ether type, and goes to the pre-ingress table writing the ARP routing metadata |
| InputArpRuleGenerator.GenerateCommands | src-java/rule-manager/rule-manager-implementation/src/main/java/org/openkilda/rulemanager/factory/generator/flow/InputArpRuleGenerator.java:55-62 | at most one command; there is one exactly when the switch runs multi-table, the ingress endpoint tracks ARP devices and no overlapping ingress side detects ARP, and it is the ARP input rule |
| InputArpRuleGenerator.OverlappingArpDetectionSuppresses | src-java/rule-manager/rule-manager-implementation/src/main/java/org/openkilda/rulemanager/factory/generator/flow/InputArpRuleGenerator.java:57-58 | one overlapping side detecting ARP devices suppresses the rule whatever else holds |
| FlowEncapsulationTypeConverter.ValueOf | services/src/kilda-core/kilda-persistence-neo4j/src/main/java/org/openkilda/persistence/converters/FlowEncapsulationTypeConverter.java:40 | the lookup succeeds exactly for text that is the name of a constant, and then returns the constant with that name; other text is an illegal-argument error |
| FlowEncapsulationTypeConverter.ToGraphProperty | services/src/kilda-core/kilda-persistence-neo4j/src/main/java/org/openkilda/persistence/converters/FlowEncapsulationTypeConverter.java:28-33 | no type gives no text; a type gives its name, which is never blank |
| FlowEncapsulationTypeConverter.ToEntityAttribute | services/src/kilda-core/kilda-persistence-neo4j/src/main/java/org/openkilda/persistence/converters/FlowEncapsulationTypeConverter.java:36-41 | no text or blank text gives no type; a type read back was stored as exactly its name; the conversion fails exactly for non-blank text that names no constant |
| FlowEncapsulationTypeConverter.RoundTrip | services/src/kilda-core/kilda-persistence-neo4j/src/main/java/org/openkilda/persistence/converters/FlowEncapsulationTypeConverter.java:28-41 | storing a type, or no type, and reading it back gives it back |
| FlowEncapsulationTypeConverter.ReadBackIsStoredText | services/src/kilda-core/kilda-persistence-neo4j/src/main/java/org/openkilda/persistence/converters/FlowEncapsulationTypeConverter.java:36-41 | text that reads back as a type is that type's stored text; the lookup is case-sensitive, so "vxlan" fails |
| CacheAddUpdateHandler.Put | src-java/stats-topology/stats-storm-topology/src/main/java/org/openkilda/wfm/topology/stats/service/CacheAddUpdateHandler.java:33 | after a put the key maps to the entry, the keys are the old ones plus that key, and every other key keeps its entry |
| CacheAddUpdateHandler.PutIdempotent | src-java/stats-topology/stats-storm-topology/src/main/java/org/openkilda/wfm/topology/stats/service/CacheAddUpdateHandler.java:32-39 | putting the same entry twice leaves the map as one put does |
| CacheAddUpdateHandler.CacheAddUpdateHandler.constructor | src-java/stats-topology/stats-storm-topology/src/main/java/org/openkilda/wfm/topology/stats/service/CacheAddUpdateHandler.java:25-29 | the handler works on the two cache maps it is given |
| CacheAddUpdateHandler.CacheAddUpdateHandler.CookieCacheAction | src-java/stats-topology/stats-storm-topology/src/main/java/org/openkilda/wfm/topology/stats/service/CacheAddUpdateHandler.java:31-34 | the cookie map becomes the put of the entry under the key; the meter map is not touched |
| CacheAddUpdateHandler.CacheAddUpdateHandler.MeterCacheAction | src-java/stats-topology/stats-storm-topology/src/main/java/org/openkilda/wfm/topology/stats/service/CacheAddUpdateHandler.java:36-39 | the meter map becomes the put of the entry under the key; the cookie map is not touched |
| SingletonStore.Add | src-java/kilda-persistence-tinkerpop/src/test/java/org/openkilda/persistence/inmemory/repositories/InMemoryFeatureTogglesRepository.java:36-43 | adding is refused, with the duplicate-keys message for the frame label, exactly when a record is stored; otherwise the record is the only one stored |
| InMemoryFeatureTogglesRepository.InMemoryFeatureTogglesRepository.constructor | src-java/kilda-persistence-tinkerpop/src/test/java/org/openkilda/persistence/inmemory/repositories/InMemoryFeatureTogglesRepository.java:31-33 | a new repository holds no record |
| InMemoryFeatureTogglesRepository.InMemoryFeatureTogglesRepository.DoAdd | src-java/kilda-persistence-tinkerpop/src/test/java/org/openkilda/persistence/inmemory/repositories/InMemoryFeatureTogglesRepository.java:36-43 | fails with the duplicate-keys message, changing nothing, exactly when a record is stored; otherwise stores the record as the only one and returns it; at most one record is ever stored |
| InMemoryKildaConfigurationRepository.InMemoryKildaConfigurationRepository.constructor | src-java/kilda-persistence-tinkerpop/src/test/java/org/openkilda/persistence/inmemory/repositories/InMemoryKildaConfigurationRepository.java:30-32 | a new repository holds no record |
| InMemoryKildaConfigurationRepository.InMemoryKildaConfigurationRepository.DoAdd | src-java/kilda-persistence-tinkerpop/src/test/java/org/openkilda/persistence/inmemory/repositories/InMemoryKildaConfigurationRepository.java:35-42 | fails with the duplicate-keys message, changing nothing, exactly when a record is stored; otherwise stores the record as the only one and returns it; at most one record is ever stored |
| ValidateFlowAction.Check | src-java/flowhs-topology/flowhs-storm-topology/src/main/java/org/openkilda/wfm/topology/flowhs/fsm/update/actions/ValidateFlowAction.java:72-104 | the guards in the action's order: a disabled update toggle fails with NOT_PERMITTED, a missing flow with NOT_FOUND, a validator rejection keeps its own error type, an unavailable endpoint becomes DATA_INVALID, an endpoint-switch change while a path has mirror points is refused; the check passes exactly when the toggle is on, the flow exists, the validator accepts, there is no mirror conflict and the flow is not IN_PROGRESS outside a bulk update |
| ValidateFlowAction.InProgressFlowNeedsBulkUpdate | src-java/flowhs-topology/flowhs-storm-topology/src/main/java/org/openkilda/wfm/topology/flowhs/fsm/update/actions/ValidateFlowAction.java:101-104 | an IN_PROGRESS flow may be updated exactly when the bulk-update id set is non-empty, and is otherwise refused with the in-progress error |
| ValidateFlowAction.FlowRepository.constructor | src-java/flowhs-topology/flowhs-storm-topology/src/main/java/org/openkilda/wfm/topology/flowhs/fsm/update/actions/ValidateFlowAction.java:80 | the repository holds the given flows |
| ValidateFlowAction.PerformWithResponse | src-java/flowhs-topology/flowhs-storm-topology/src/main/java/org/openkilda/wfm/topology/flowhs/fsm/update/actions/ValidateFlowAction.java:60-131 | succeeds exactly when the guards pass; then the saga keeps the flow's previous status and status text, the stored flow becomes IN_PROGRESS with empty status text and the event "Flow was validated successfully" is saved; on failure no flow changes, the saga's error reason is the error's description (see Left out) and every listener hears of the error type and reason; the request fields are set once the toggle allows the update; on success no other saga field changes |
| ValidateFlowAction.NotifyListenersOnError | src-java/flowhs-topology/flowhs-storm-topology/src/main/java/org/openkilda/wfm/topology/flowhs/fsm/update/actions/ValidateFlowAction.java:126-131 | every listener, in order, is told the operation failed with the error type and reason |
| FlowUpdateFsm.FinalStatesAreTerminal | src-java/flowhs-topology/flowhs-storm-topology/src/main/java/org/openkilda/wfm/topology/flowhs/fsm/update/FlowUpdateFsm.java:394-402 | FINISHED and FINISHED_WITH_ERROR define no transition |
| FlowUpdateFsm.InternalTransitionsAccumulateResponses | src-java/flowhs-topology/flowhs-storm-topology/src/main/java/org/openkilda/wfm/topology/flowhs/fsm/update/FlowUpdateFsm.java:196-352 | RESPONSE_RECEIVED and ERROR_RECEIVED keep the state exactly in the installing, validating, removing and rule-reverting states, and no other transition keeps its state |
| FlowUpdateFsm.StepLowersRank | src-java/flowhs-topology/flowhs-storm-topology/src/main/java/org/openkilda/wfm/topology/flowhs/fsm/update/FlowUpdateFsm.java:149-402 | every transition that leaves its state moves down a ranking of the states: the table has no cycle |
| FlowUpdateFsm.AllocationFailures | src-java/flowhs-topology/flowhs-storm-topology/src/main/java/org/openkilda/wfm/topology/flowhs/fsm/update/FlowUpdateFsm.java:177-186 | in the resource-allocation states NO_PATH_FOUND goes to REVERTING_ALLOCATED_RESOURCES and TIMEOUT or ERROR to NEW_RULES_REVERTED |
| FlowUpdateFsm.InstallationFailures | src-java/flowhs-topology/flowhs-storm-topology/src/main/java/org/openkilda/wfm/topology/flowhs/fsm/update/FlowUpdateFsm.java:202-288 | failures in the non-ingress installation go to PATHS_SWAP_REVERTED, skipping the swap revert; failures from NON_INGRESS_RULES_VALIDATED through NEW_PATHS_INSTALLATION_COMPLETED go to REVERTING_PATHS_SWAP |
| FlowUpdateFsm.CleanupErrorsAreAbsorbed | src-java/flowhs-topology/flowhs-storm-topology/src/main/java/org/openkilda/wfm/topology/flowhs/fsm/update/FlowUpdateFsm.java:294-325 | an ERROR while removing old rules, after old path removal or after old resource release goes where success goes, never into the rollback spine |
| FlowUpdateFsm.RollbackIsClosed | src-java/flowhs-topology/flowhs-storm-topology/src/main/java/org/openkilda/wfm/topology/flowhs/fsm/update/FlowUpdateFsm.java:338-402 | from a rollback state every transition stays in the rollback spine or reaches FINISHED_WITH_ERROR |
| FlowUpdateFsm.CompletionEndsInFinalState | src-java/flowhs-topology/flowhs-storm-topology/src/main/java/org/openkilda/wfm/topology/flowhs/fsm/update/FlowUpdateFsm.java:149-402 | from every state the events of successful progress are all defined and end in a final state |
| FlowUpdateFsm.RollbackNeverSucceeds | src-java/flowhs-topology/flowhs-storm-topology/src/main/java/org/openkilda/wfm/topology/flowhs/fsm/update/FlowUpdateFsm.java:338-402 | no sequence of events leads from a rollback state to FINISHED |
| FlowUpdateFsm.RollbackEndsInFinishedWithError | src-java/flowhs-topology/flowhs-storm-topology/src/main/java/org/openkilda/wfm/topology/flowhs/fsm/update/FlowUpdateFsm.java:338-402 | following successful progress from any rollback state reaches FINISHED_WITH_ERROR |
| FlowUpdateFsm.FinalStatePredecessors | src-java/flowhs-topology/flowhs-storm-topology/src/main/java/org/openkilda/wfm/topology/flowhs/fsm/update/FlowUpdateFsm.java:149-402 | FINISHED_WITH_ERROR is entered only by NEXT from NOTIFY_FLOW_MONITOR_WITH_ERROR or by TIMEOUT from INITIALIZED; FINISHED only by NEXT from NOTIFY_FLOW_MONITOR |
| FlowUpdateFsm.ForwardCompletionSucceeds | src-java/flowhs-topology/flowhs-storm-topology/src/main/java/org/openkilda/wfm/topology/flowhs/fsm/update/FlowUpdateFsm.java:149-335 | from any state outside the rollback spine, successful progress ends in FINISHED |
| FlowUpdateFsm.EndpointOnlyShortcuts | src-java/flowhs-topology/flowhs-storm-topology/src/main/java/org/openkilda/wfm/topology/flowhs/fsm/update/FlowUpdateFsm.java:167-362 | UPDATE_ENDPOINT_RULES_ONLY goes from FLOW_UPDATED to RESOURCE_ALLOCATION_COMPLETED, from OLD_RULES_REMOVED to UPDATING_FLOW_STATUS and from NEW_RULES_REVERTED to REVERTING_FLOW |
| FlowUpdateFsm.EarlyTransitions | src-java/flowhs-topology/flowhs-storm-topology/src/main/java/org/openkilda/wfm/topology/flowhs/fsm/update/FlowUpdateFsm.java:149-157 | from INITIALIZED NEXT leads to FLOW_VALIDATED, TIMEOUT straight to FINISHED_WITH_ERROR and ERROR nowhere; from FLOW_VALIDATED TIMEOUT or ERROR lead to REVERTING_FLOW_STATUS |
| FlowUpdateFsm.ListenerCalls | src-java/flowhs-topology/flowhs-storm-topology/src/main/java/org/openkilda/wfm/topology/flowhs/fsm/update/FlowUpdateFsm.java:418-433 | a non-final state calls no listener, and a final state makes one call per listener |
| FlowUpdateFsm.DefaultConfig | src-java/flowhs-topology/flowhs-storm-topology/src/main/java/org/openkilda/wfm/topology/flowhs/fsm/update/FlowUpdateFsm.java:558-567 | the defaults are 3 speaker command retries, 10 path allocation retries, a 50 ms retry delay and 10 resource allocation retries |
| FlowUpdateFsm.FlowUpdateSaga.constructor | src-java/flowhs-topology/flowhs-storm-topology/src/main/java/org/openkilda/wfm/topology/flowhs/fsm/update/FlowUpdateFsm.java:410-413 | a new saga starts in INITIALIZED with no update fields set and no listener called |
| FlowUpdateFsm.FlowUpdateSaga.Fire | src-java/flowhs-topology/flowhs-storm-topology/src/main/java/org/openkilda/wfm/topology/flowhs/fsm/update/FlowUpdateFsm.java:418-433 | an event the table defines moves the saga and adds the listener calls for the state entered; an undefined one is declined and changes nothing |
| HaFlowUpdateSaga.PathOf | src-java/flowhs-topology/flowhs-storm-topology/src/main/java/org/openkilda/wfm/topology/flowhs/fsm/haflow/update/actions/RevertPathsSwapAction.java:130-133 | a path id gives a path exactly when it is present and stored, and then the stored path |
| HaFlowUpdateSaga.SubPathsOf | src-java/flowhs-topology/flowhs-storm-topology/src/main/java/org/openkilda/wfm/topology/flowhs/fsm/haflow/update/actions/SwapFlowPathsAction.java:192-195 | the sub-paths of an HA path are stored sub-paths the path lists, never more than it lists |
| HaFlowUpdateSaga.SaveStatuses | src-java/flowhs-topology/flowhs-storm-topology/src/main/java/org/openkilda/wfm/topology/flowhs/fsm/haflow/update/actions/SwapFlowPathsAction.java:188-189 | saving a path records its status and each stored sub-path's status and keeps every earlier saved status it does not overwrite |
| HaFlowUpdateSaga.SubPathsInProgress | src-java/flowhs-topology/flowhs-storm-topology/src/main/java/org/openkilda/wfm/topology/flowhs/fsm/haflow/update/actions/SwapFlowPathsAction.java:190-196 | the listed stored sub-paths become IN_PROGRESS, no sub-path appears or disappears, the others are untouched |
| HaFlowUpdateSaga.RestorePath | src-java/flowhs-topology/flowhs-storm-topology/src/main/java/org/openkilda/wfm/topology/flowhs/fsm/haflow/update/actions/RevertPathsSwapAction.java:130-139 | a stored path that is not ACTIVE gets its saved status back; an ACTIVE, absent or unnamed path and every other path are untouched |
| HaFlowUpdateSaga.RestoreSubPaths | src-java/flowhs-topology/flowhs-storm-topology/src/main/java/org/openkilda/wfm/topology/flowhs/fsm/haflow/update/actions/RevertPathsSwapAction.java:141-150 | each listed stored sub-path that is not ACTIVE gets its saved status back; the others are untouched |
| HaFlowUpdateSaga.SubPathRevertUndoesSwap | src-java/flowhs-topology/flowhs-storm-topology/src/main/java/org/openkilda/wfm/topology/flowhs/fsm/haflow/update/actions/RevertPathsSwapAction.java:141-150 | reverting sub-paths a swap marked IN_PROGRESS, with the statuses it saved, gives back the sub-paths as they were |
| HaFlowUpdateSaga.PathRevertUndoesSwap | src-java/flowhs-topology/flowhs-storm-topology/src/main/java/org/openkilda/wfm/topology/flowhs/fsm/haflow/update/actions/RevertPathsSwapAction.java:130-139 | reverting a path a swap marked IN_PROGRESS, with the status it saved, gives back the paths as they were |
| HaFlowUpdateSaga.RestoreSubPathsIdempotent | src-java/flowhs-topology/flowhs-storm-topology/src/main/java/org/openkilda/wfm/topology/flowhs/fsm/haflow/update/actions/RevertPathsSwapAction.java:141-150 | a second revert with the same saved statuses changes nothing more |
| HaFlowUpdateSaga.MarkOldPathsSetsInProgress | src-java/flowhs-topology/flowhs-storm-topology/src/main/java/org/openkilda/wfm/topology/flowhs/fsm/haflow/update/actions/SwapFlowPathsAction.java:70-79 | after a swap every stored old path and each of its stored sub-paths is IN_PROGRESS, no path appears or disappears, other paths keep their state |
| HaFlowUpdateSaga.RevertUndoesSwap | src-java/flowhs-topology/flowhs-storm-topology/src/main/java/org/openkilda/wfm/topology/flowhs/fsm/haflow/update/actions/RevertPathsSwapAction.java:64-94 | the revert compensates the swap: marking both old paths and restoring both sides gives back the paths and sub-paths as they were, when the two paths share no id |
| HaFlowUpdateSaga.PathsRevertUndoesSwap | src-java/flowhs-topology/flowhs-storm-topology/src/main/java/org/openkilda/wfm/topology/flowhs/fsm/haflow/update/actions/RevertPathsSwapAction.java:71-93 | restoring both marked HA paths with the saved statuses gives back the HA paths as they were |
| HaFlowUpdateSaga.SubPathsRevertUndoesSwap | src-java/flowhs-topology/flowhs-storm-topology/src/main/java/org/openkilda/wfm/topology/flowhs/fsm/haflow/update/actions/RevertPathsSwapAction.java:71-93 | restoring two disjoint sets of marked sub-paths gives back the sub-paths as they were |
| HaFlowUpdateSaga.ForwardId | src-java/flowhs-topology/flowhs-storm-topology/src/main/java/org/openkilda/wfm/topology/flowhs/fsm/haflow/update/actions/RevertPathsSwapAction.java:158-163 | the forward id is present exactly when the pair, its forward side and that side's path id are |
| HaFlowUpdateSaga.ReverseId | src-java/flowhs-topology/flowhs-storm-topology/src/main/java/org/openkilda/wfm/topology/flowhs/fsm/haflow/update/actions/RevertPathsSwapAction.java:165-170 | the reverse id is present exactly when the pair, its reverse side and that side's path id are |
| HaFlowUpdateSaga.SubPathIdSet | src-java/flowhs-topology/flowhs-storm-topology/src/main/java/org/openkilda/wfm/topology/flowhs/fsm/haflow/update/actions/RevertPathsSwapAction.java:172-192 | an absent side has no sub-path ids |
| HaSwapFlowPathsAction.SubPathIdMapKeys | src-java/flowhs-topology/flowhs-storm-topology/src/main/java/org/openkilda/wfm/topology/flowhs/fsm/haflow/update/actions/SwapFlowPathsAction.java:168-186 | the id map and the meter map have one key per HA sub-flow of the sub-paths and no other |
| HaSwapFlowPathsAction.SubPathMapsKeepLast | src-java/flowhs-topology/flowhs-storm-topology/src/main/java/org/openkilda/wfm/topology/flowhs/fsm/haflow/update/actions/SwapFlowPathsAction.java:168-186 | each HA sub-flow maps to the id and meter of its last sub-path |
| HaSwapFlowPathsAction.BuildSubPathIdMap | src-java/flowhs-topology/flowhs-storm-topology/src/main/java/org/openkilda/wfm/topology/flowhs/fsm/haflow/update/actions/SwapFlowPathsAction.java:168-176 | the loop builds the sub-path id map |
| HaSwapFlowPathsAction.BuildSubPathMeterIdMap | src-java/flowhs-topology/flowhs-storm-topology/src/main/java/org/openkilda/wfm/topology/flowhs/fsm/haflow/update/actions/SwapFlowPathsAction.java:178-186 | the loop builds the sub-path meter map |
| HaSwapFlowPathsAction.OldResourcesOf | src-java/flowhs-topology/flowhs-storm-topology/src/main/java/org/openkilda/wfm/topology/flowhs/fsm/haflow/update/actions/SwapFlowPathsAction.java:81-89 | one resources entry is kept exactly when an old path of the pair is stored; a missing side is filled by the other, the cookie is the forward path's, and both sides carry the encapsulation looked up by both path ids and the previous encapsulation type |
| HaSwapFlowPathsAction.BuildHaResources | src-java/flowhs-topology/flowhs-storm-topology/src/main/java/org/openkilda/wfm/topology/flowhs/fsm/haflow/update/actions/SwapFlowPathsAction.java:145-166 | the resources gathered from a pair of paths |
| HaSwapFlowPathsAction.SaveAndSetInProgressStatuses | src-java/flowhs-topology/flowhs-storm-topology/src/main/java/org/openkilda/wfm/topology/flowhs/fsm/haflow/update/actions/SwapFlowPathsAction.java:188-197 | the saga's saved statuses, the paths and the sub-paths afterwards are those of saving then marking the path |
| HaSwapFlowPathsAction.SaveOldPaths | src-java/flowhs-topology/flowhs-storm-topology/src/main/java/org/openkilda/wfm/topology/flowhs/fsm/haflow/update/actions/SwapFlowPathsAction.java:70-89 | both stored old paths are saved and marked, and the resources entry, if any, is appended |
| HaSwapFlowPathsAction.SwapPrimaryPaths | src-java/flowhs-topology/flowhs-storm-topology/src/main/java/org/openkilda/wfm/topology/flowhs/fsm/haflow/update/actions/SwapFlowPathsAction.java:64-99 | with both new primary ids known and the HA-flow stored, old primary paths are saved and marked, resources appended, the flow gets the new ids and one history record is added; otherwise nothing changes |
| HaSwapFlowPathsAction.SwapProtectedPaths | src-java/flowhs-topology/flowhs-storm-topology/src/main/java/org/openkilda/wfm/topology/flowhs/fsm/haflow/update/actions/SwapFlowPathsAction.java:101-143 | the old protected paths are saved and marked and the flow's protected ids are overwritten with the new ones, or none; history only when both new ids are known |
| HaSwapFlowPathsAction.Perform | src-java/flowhs-topology/flowhs-storm-topology/src/main/java/org/openkilda/wfm/topology/flowhs/fsm/haflow/update/actions/SwapFlowPathsAction.java:57-62 | a missing HA-flow changes nothing; otherwise the old primary paths (when both new primary ids are known) and then the old protected paths have their statuses saved and become IN_PROGRESS, their resources are appended for release, the stored flow gets the new primary ids (when both are known) and always the new protected ids, and the history gains one swap record per side whose two new ids are known |
| HaRevertPathsSwapAction.RevertRecords | src-java/flowhs-topology/flowhs-storm-topology/src/main/java/org/openkilda/wfm/topology/flowhs/fsm/haflow/update/actions/RevertPathsSwapAction.java:79-126 | one history record per side present in the recorded pair |
| HaRevertPathsSwapAction.RevertPrimaryIds | src-java/flowhs-topology/flowhs-storm-topology/src/main/java/org/openkilda/wfm/topology/flowhs/fsm/haflow/update/actions/RevertPathsSwapAction.java:64-94 | each side present in the recorded pair gets its recorded id back, possibly none; nothing else of the flow changes |
| HaRevertPathsSwapAction.RevertProtectedIds | src-java/flowhs-topology/flowhs-storm-topology/src/main/java/org/openkilda/wfm/topology/flowhs/fsm/haflow/update/actions/RevertPathsSwapAction.java:96-128 | the same for the protected ids |
| HaRevertPathsSwapAction.RevertRestoresPathIds | src-java/flowhs-topology/flowhs-storm-topology/src/main/java/org/openkilda/wfm/topology/flowhs/fsm/haflow/update/actions/RevertPathsSwapAction.java:64-128 | whatever ids the swap put in place, reverting to ids recorded from the flow gives back the flow as it was |
| HaRevertPathsSwapAction.UpdatePathStatus | src-java/flowhs-topology/flowhs-storm-topology/src/main/java/org/openkilda/wfm/topology/flowhs/fsm/haflow/update/actions/RevertPathsSwapAction.java:130-139 | the paths afterwards are RestorePath of the paths before |
| HaRevertPathsSwapAction.UpdateSubPathStatuses | src-java/flowhs-topology/flowhs-storm-topology/src/main/java/org/openkilda/wfm/topology/flowhs/fsm/haflow/update/actions/RevertPathsSwapAction.java:141-150 | the loop leaves the sub-paths as RestoreSubPaths of the sub-paths before |
| HaRevertPathsSwapAction.RevertSide | src-java/flowhs-topology/flowhs-storm-topology/src/main/java/org/openkilda/wfm/topology/flowhs/fsm/haflow/update/actions/RevertPathsSwapAction.java:71-81 | one side's path and sub-paths are restored |
| HaRevertPathsSwapAction.UpdatePrimaryPaths | src-java/flowhs-topology/flowhs-storm-topology/src/main/java/org/openkilda/wfm/topology/flowhs/fsm/haflow/update/actions/RevertPathsSwapAction.java:64-94 | no recorded pair, no change; otherwise each side present is restored, the flow gets its recorded ids and one history record per side is added |
| HaRevertPathsSwapAction.UpdateProtectedPaths | src-java/flowhs-topology/flowhs-storm-topology/src/main/java/org/openkilda/wfm/topology/flowhs/fsm/haflow/update/actions/RevertPathsSwapAction.java:96-128 | the same for the protected pair |
| HaRevertPathsSwapAction.Perform | src-java/flowhs-topology/flowhs-storm-topology/src/main/java/org/openkilda/wfm/topology/flowhs/fsm/haflow/update/actions/RevertPathsSwapAction.java:50-62 | with partial-update endpoints pending only "Skip paths swap revert" is recorded; a missing flow changes nothing; otherwise primary then protected paths are reverted |
| HaUpdateHandleNotCompletedCommandsAction.AsWrittenExchangesCommandAndAction | src-java/flowhs-topology/flowhs-storm-topology/src/main/java/org/openkilda/wfm/topology/flowhs/fsm/haflow/update/actions/HandleNotCompletedCommandsAction.java:54-57 | the message as formatted equals the intended message with command id and action name exchanged |
| HaUpdateHandleNotCompletedCommandsAction.AsWrittenMisnamesRemoveCommand | src-java/flowhs-topology/flowhs-storm-topology/src/main/java/org/openkilda/wfm/topology/flowhs/fsm/haflow/update/actions/HandleNotCompletedCommandsAction.java:54-57 | for pending remove command "c-1" the message as formatted does not name the remove action where the action belongs |
| HaUpdateHandleNotCompletedCommandsAction.NotFinishedDetailsPlacesArguments | src-java/flowhs-topology/flowhs-storm-topology/src/main/java/org/openkilda/wfm/topology/flowhs/fsm/haflow/update/actions/HandleNotCompletedCommandsAction.java:55-57 | the corrected message names the action after the fixed prefix and the command id after "commandId " |
| HaUpdateHandleNotCompletedCommandsAction.AbandonRecordsCount | src-java/flowhs-topology/flowhs-storm-topology/src/main/java/org/openkilda/wfm/topology/flowhs/fsm/haflow/update/actions/HandleNotCompletedCommandsAction.java:39-59 | every record is a "Command is not finished yet" error, at most one per pending command, and exactly one each when every request is known |
| HaUpdateHandleNotCompletedCommandsAction.IngressAfterLookups | src-java/flowhs-topology/flowhs-storm-topology/src/main/java/org/openkilda/wfm/topology/flowhs/fsm/haflow/update/actions/HandleNotCompletedCommandsAction.java:45-46 | the lookups keep every ingress request and add only the non-ingress request of a looked-up command that has no remove or ingress request |
| HaUpdateHandleNotCompletedCommandsAction.LookUp | src-java/flowhs-topology/flowhs-storm-topology/src/main/java/org/openkilda/wfm/topology/flowhs/fsm/haflow/update/actions/HandleNotCompletedCommandsAction.java:40-48 | the request found is the remove request if there is one, else the ingress request, else the non-ingress one; only in that last case do the ingress commands change, by a copy of it |
| HaUpdateHandleNotCompletedCommandsAction.LookupStep | src-java/flowhs-topology/flowhs-storm-topology/src/main/java/org/openkilda/wfm/topology/flowhs/fsm/haflow/update/actions/HandleNotCompletedCommandsAction.java:40-48 | a lookup finds the same request as with the ingress commands before any lookup, and extends them as computeIfAbsent does |
| HaUpdateHandleNotCompletedCommandsAction.RecordPendingCommands | src-java/flowhs-topology/flowhs-storm-topology/src/main/java/org/openkilda/wfm/topology/flowhs/fsm/haflow/update/actions/HandleNotCompletedCommandsAction.java:39-59 | the loop leaves the ingress commands and the history as the lookup and record functions say, with the corrected details text (see Left out) |
| HaUpdateHandleNotCompletedCommandsAction.Perform | src-java/flowhs-topology/flowhs-storm-topology/src/main/java/org/openkilda/wfm/topology/flowhs/fsm/haflow/update/actions/HandleNotCompletedCommandsAction.java:37-68 | afterwards nothing is pending, one error is recorded per command with a known request, and with partial-update endpoints "Skip paths and resources allocation" is recorded and UPDATE_ENDPOINT_RULES_ONLY fired; the details use the corrected text (see Left out) |
| HaUpdateHandleNotRemovedPathsAction.SidePathId | src-java/flowhs-topology/flowhs-storm-topology/src/main/java/org/openkilda/wfm/topology/flowhs/fsm/haflow/update/actions/HandleNotRemovedPathsAction.java:41-45 | a side gives its HA path id exactly when the side and its id are present |
| HaUpdateHandleNotRemovedPathsAction.PairHaPathIds | src-java/flowhs-topology/flowhs-storm-topology/src/main/java/org/openkilda/wfm/topology/flowhs/fsm/haflow/update/actions/HandleNotRemovedPathsAction.java:39-46 | a pair has at most two HA path ids, none without a pair |
| HaUpdateHandleNotRemovedPathsAction.RecordsMatchIds | src-java/flowhs-topology/flowhs-storm-topology/src/main/java/org/openkilda/wfm/topology/flowhs/fsm/haflow/update/actions/HandleNotRemovedPathsAction.java:48-57 | exactly one error per id, the i-th naming the i-th id |
| HaUpdateHandleNotRemovedPathsAction.NotRemovedRecordsShape | src-java/flowhs-topology/flowhs-storm-topology/src/main/java/org/openkilda/wfm/topology/flowhs/fsm/haflow/update/actions/HandleNotRemovedPathsAction.java:37-57 | the sub-path errors come first in visit order, then one per present old HA path id, primary pair first |
| HaUpdateHandleNotRemovedPathsAction.NotRemovedRecordsCount | src-java/flowhs-topology/flowhs-storm-topology/src/main/java/org/openkilda/wfm/topology/flowhs/fsm/haflow/update/actions/HandleNotRemovedPathsAction.java:37-57 | there is one error per old sub-path of each pair, an id both pairs hold counted twice, and per present old HA path id; without recorded pairs none |
| HaUpdateHandleNotRemovedPathsAction.RecordSubPaths | src-java/flowhs-topology/flowhs-storm-topology/src/main/java/org/openkilda/wfm/topology/flowhs/fsm/haflow/update/actions/HandleNotRemovedPathsAction.java:48-52 | the loop appends one sub-path error per id in order |
| HaUpdateHandleNotRemovedPathsAction.RecordHaPaths | src-java/flowhs-topology/flowhs-storm-topology/src/main/java/org/openkilda/wfm/topology/flowhs/fsm/haflow/update/actions/HandleNotRemovedPathsAction.java:53-57 | the loop appends one HA path error per id in order |
| HaUpdateHandleNotRemovedPathsAction.RecordNotRemoved | src-java/flowhs-topology/flowhs-storm-topology/src/main/java/org/openkilda/wfm/topology/flowhs/fsm/haflow/update/actions/HandleNotRemovedPathsAction.java:48-57 | the history gains one sub-path error per listed id, in list order, then one HA path error per present old HA path id, primary pair first |
| HaUpdateHandleNotRemovedPathsAction.Perform | src-java/flowhs-topology/flowhs-storm-topology/src/main/java/org/openkilda/wfm/topology/flowhs/fsm/haflow/update/actions/HandleNotRemovedPathsAction.java:36-58 | only the history changes: one error per sub-path id of the primary pair, then of the protected pair, duplicates kept, then one per HA path id, as NotRemovedRecords gives |
| HaDeleteHandleNotCompletedCommandsAction.AbandonRecord | src-java/flowhs-topology/flowhs-storm-topology/src/main/java/org/openkilda/wfm/topology/flowhs/fsm/haflow/delete/actions/HandleNotCompletedCommandsAction.java:36-39 | the error is "Command is not finished yet" and its details start with the fixed prefix followed by the command id and end with the switch id |
| HaDeleteHandleNotCompletedCommandsAction.AbandonRecordsMatchCommands | src-java/flowhs-topology/flowhs-storm-topology/src/main/java/org/openkilda/wfm/topology/flowhs/fsm/haflow/delete/actions/HandleNotCompletedCommandsAction.java:35-40 | one error per visited command, the i-th naming the i-th command and its switch |
| HaDeleteHandleNotCompletedCommandsAction.AbandonRecordsCount | src-java/flowhs-topology/flowhs-storm-topology/src/main/java/org/openkilda/wfm/topology/flowhs/fsm/haflow/delete/actions/HandleNotCompletedCommandsAction.java:35-40 | there are as many errors as pending commands |
| HaDeleteHandleNotCompletedCommandsAction.Perform | src-java/flowhs-topology/flowhs-storm-topology/src/main/java/org/openkilda/wfm/topology/flowhs/fsm/haflow/delete/actions/HandleNotCompletedCommandsAction.java:34-44 | afterwards nothing is pending and the history has gained exactly those errors |
| HaDeleteHandleNotCompletedCommandsAction.HaFlowDeleteFsm.constructor | src-java/flowhs-topology/flowhs-storm-topology/src/main/java/org/openkilda/wfm/topology/flowhs/fsm/haflow/delete/actions/HandleNotCompletedCommandsAction.java:35 | a saga starts with the given pending commands and an empty history |
| HaCreateHandleNotCreatedHaFlowAction.MarkedDown | src-java/flowhs-topology/flowhs-storm-topology/src/main/java/org/openkilda/wfm/topology/flowhs/fsm/haflow/create/actions/HandleNotCreatedHaFlowAction.java:47 | the stored flow with the id becomes DOWN; no flow appears or disappears and other flows are untouched |
| HaCreateHandleNotCreatedHaFlowAction.MarkedDownIdempotent | src-java/flowhs-topology/flowhs-storm-topology/src/main/java/org/openkilda/wfm/topology/flowhs/fsm/haflow/create/actions/HandleNotCreatedHaFlowAction.java:47 | marking a flow DOWN twice is marking it once |
| HaCreateHandleNotCreatedHaFlowAction.NotCreatedRecord | src-java/flowhs-topology/flowhs-storm-topology/src/main/java/org/openkilda/wfm/topology/flowhs/fsm/haflow/create/actions/HandleNotCreatedHaFlowAction.java:48 | the record is the action "Failed to create the flow" with the saga's error reason as description |
| HaCreateHandleNotCreatedHaFlowAction.Perform | src-java/flowhs-topology/flowhs-storm-topology/src/main/java/org/openkilda/wfm/topology/flowhs/fsm/haflow/create/actions/HandleNotCreatedHaFlowAction.java:43-50 | the dashboard logs the flow DOWN, the stored flow is marked DOWN, the failure is recorded and NEXT fired |
| HaCreateHandleNotDeallocatedResourcesAction.DeallocationRecord | src-java/flowhs-topology/flowhs-storm-topology/src/main/java/org/openkilda/wfm/topology/flowhs/fsm/haflow/create/actions/HandleNotDeallocatedResourcesAction.java:35-36 | the error "Failed to deallocate resources" whose details are the fixed prefix followed by the resource's description |
| HaCreateHandleNotDeallocatedResourcesAction.DeallocationRecordsMatchResources | src-java/flowhs-topology/flowhs-storm-topology/src/main/java/org/openkilda/wfm/topology/flowhs/fsm/haflow/create/actions/HandleNotDeallocatedResourcesAction.java:34-36 | one error per resource, the i-th describing the i-th resource |
| HaCreateHandleNotDeallocatedResourcesAction.Perform | src-java/flowhs-topology/flowhs-storm-topology/src/main/java/org/openkilda/wfm/topology/flowhs/fsm/haflow/create/actions/HandleNotDeallocatedResourcesAction.java:32-37 | only the history changes, by one error per resource in order |
| HaFlowCreateSaga.HaFlowCreateFsm.constructor | src-java/flowhs-topology/flowhs-storm-topology/src/main/java/org/openkilda/wfm/topology/flowhs/fsm/haflow/create/actions/HandleNotDeallocatedResourcesAction.java:34 | a saga starts with its flow id, error reason and resources and an empty history |
| YFlowUpdateSubFlowsAction.WithDiverseIdChangesOnlyMain | src-java/flowhs-topology/flowhs-storm-topology/src/main/java/org/openkilda/wfm/topology/flowhs/fsm/yflow/update/actions/UpdateSubFlowsAction.java:44-57 | the stored requests keep their order and ids; the main-affinity ones carry the diverse flow id and the others keep their own |
| YFlowUpdateSubFlowsAction.StartedRequestsAreMain | src-java/flowhs-topology/flowhs-storm-topology/src/main/java/org/openkilda/wfm/topology/flowhs/fsm/yflow/update/actions/UpdateSubFlowsAction.java:52-58 | only main-affinity requests are started, each with the diverse flow id, once per request for that sub-flow |
| YFlowUpdateSubFlowsAction.RequestedIdsAreRequested | src-java/flowhs-topology/flowhs-storm-topology/src/main/java/org/openkilda/wfm/topology/flowhs/fsm/yflow/update/actions/UpdateSubFlowsAction.java:49-51 | an id joins the sub-flows exactly when some request is for it |
| YFlowUpdateSubFlowsAction.UpdatingIsMainOnly | src-java/flowhs-topology/flowhs-storm-topology/src/main/java/org/openkilda/wfm/topology/flowhs/fsm/yflow/update/actions/UpdateSubFlowsAction.java:46-53 | afterwards the updating set holds the main-affinity sub-flow when it was requested and nothing else |
| YFlowUpdateSubFlowsAction.StepLemma | src-java/flowhs-topology/flowhs-storm-topology/src/main/java/org/openkilda/wfm/topology/flowhs/fsm/yflow/update/actions/UpdateSubFlowsAction.java:49-60 | one more request extends each result as the loop body does |
| YFlowUpdateSubFlowsAction.StartsAppend | src-java/flowhs-topology/flowhs-storm-topology/src/main/java/org/openkilda/wfm/topology/flowhs/fsm/yflow/update/actions/UpdateSubFlowsAction.java:54-58 | starts and notices of a run of requests and one more are those of the run followed by those of the one |
| YFlowUpdateSubFlowsAction.Register | src-java/flowhs-topology/flowhs-storm-topology/src/main/java/org/openkilda/wfm/topology/flowhs/fsm/yflow/update/actions/UpdateSubFlowsAction.java:50-59 | one request: its id joins the sub-flows; if main-affinity it is also marked updating, announced, given the diverse id and started |
| YFlowUpdateSubFlowsAction.Perform | src-java/flowhs-topology/flowhs-storm-topology/src/main/java/org/openkilda/wfm/topology/flowhs/fsm/yflow/update/actions/UpdateSubFlowsAction.java:41-61 | stored requests, sub-flows, updating set, notices and started updates afterwards are those the specification functions give |
| YFlowUpdateSubFlowsAction.YFlowUpdateFsm.constructor | src-java/flowhs-topology/flowhs-storm-topology/src/main/java/org/openkilda/wfm/topology/flowhs/fsm/yflow/update/actions/UpdateSubFlowsAction.java:41-44 | a saga starts with its ids and nothing requested, updating or started |
| SwitchFsm.Step | services/wfm/src/main/java/org/openkilda/wfm/topology/discovery/controller/sw/SwitchFsm.java:72-100 | the transition table of the builder: no transition enters INIT and none leaves DELETED |
| SwitchFsm.PortEventsOnlyWhileOnline | services/wfm/src/main/java/org/openkilda/wfm/topology/discovery/controller/sw/SwitchFsm.java:85-92 | port add, delete, up and down are handled only while ONLINE and keep the machine there |
| SwitchFsm.SetupEnteredOnOnline | services/wfm/src/main/java/org/openkilda/wfm/topology/discovery/controller/sw/SwitchFsm.java:75-98 | SETUP is entered exactly on ONLINE from INIT or OFFLINE |
| SwitchFsm.OnlineEnteredFromSetup | services/wfm/src/main/java/org/openkilda/wfm/topology/discovery/controller/sw/SwitchFsm.java:79-80 | ONLINE is entered from another state only by NEXT from SETUP |
| SwitchFsm.OfflineEntered | services/wfm/src/main/java/org/openkilda/wfm/topology/discovery/controller/sw/SwitchFsm.java:72-85 | OFFLINE is entered exactly by HISTORY from INIT or OFFLINE from ONLINE |
| SwitchFsm.DeletedIsFinal | services/wfm/src/main/java/org/openkilda/wfm/topology/discovery/controller/sw/SwitchFsm.java:99-100 | DELETED is entered only by SWITCH_REMOVE from OFFLINE and takes no event |
| SwitchFsm.MakePortRecord | services/wfm/src/main/java/org/openkilda/wfm/topology/discovery/controller/sw/SwitchFsm.java:334-357 | a new record carries its number and no link or history; it is physical exactly when BFD is not a feature or the number is below the offset, and a logical-BFD port's logical number is the number minus the offset |
| SwitchFsm.SpeakerNumbersMembers | services/wfm/src/main/java/org/openkilda/wfm/topology/discovery/controller/sw/SwitchFsm.java:149 | a number is reported exactly when some reported port has it |
| SwitchFsm.AddAllSpec | services/wfm/src/main/java/org/openkilda/wfm/topology/discovery/controller/sw/SwitchFsm.java:271-274 | adding ports puts each under its own number and leaves the other entries alone |
| SwitchFsm.RemoveAllSpec | services/wfm/src/main/java/org/openkilda/wfm/topology/discovery/controller/sw/SwitchFsm.java:276-279 | removing numbers drops exactly those entries and leaves the others unchanged |
| SwitchFsm.AddedPortsSpec | services/wfm/src/main/java/org/openkilda/wfm/topology/discovery/controller/sw/SwitchFsm.java:149-159 | the added ports are fresh records of exactly the reported numbers that are new or changed kind, each of the kind its number now has |
| SwitchFsm.LocatedRemovalsSpec | services/wfm/src/main/java/org/openkilda/wfm/topology/discovery/controller/sw/SwitchFsm.java:145-159 | the ports to delete are the stored ports not reported or of another kind, unchanged |
| SwitchFsm.RemovingRemovedLeavesKept | services/wfm/src/main/java/org/openkilda/wfm/topology/discovery/controller/sw/SwitchFsm.java:176-178 | deleting the ports to delete leaves exactly the kept stored ports |
| SwitchFsm.SetupPortsSpec | services/wfm/src/main/java/org/openkilda/wfm/topology/discovery/controller/sw/SwitchFsm.java:145-182 | after SETUP the map holds exactly the reported numbers, each under its own number and of the kind its number has now; kept ports are the stored records unchanged, the others fresh records with a link status |
| SwitchFsm.KindChangeRecreatesPort | services/wfm/src/main/java/org/openkilda/wfm/topology/discovery/controller/sw/SwitchFsm.java:154-156 | a reported port whose kind changed is both deleted and re-added in its new kind |
| SwitchFsm.SetupDeletesBeforeAdding | services/wfm/src/main/java/org/openkilda/wfm/topology/discovery/controller/sw/SwitchFsm.java:175-198 | SETUP reports every deletion before any addition, every addition before the online statuses, and those before the link modes |
| SwitchFsm.HistoryPorts | services/wfm/src/main/java/org/openkilda/wfm/topology/discovery/controller/sw/SwitchFsm.java:127-130 | history replay makes one physical port per outgoing link, at its source port and carrying the link |
| SwitchFsm.SwitchFsm.constructor | services/wfm/src/main/java/org/openkilda/wfm/topology/discovery/controller/sw/SwitchFsm.java:114-120 | a new machine is in INIT with no features, no ports and no output |
| SwitchFsm.SwitchFsm.Fire | services/wfm/src/main/java/org/openkilda/wfm/topology/discovery/controller/sw/SwitchFsm.java:72-100 | an event the table defines moves the machine; an undefined one is declined and changes nothing |
| SwitchFsm.SwitchFsm.AddPorts | services/wfm/src/main/java/org/openkilda/wfm/topology/discovery/controller/sw/SwitchFsm.java:180-182 | the ports are added and each addition is reported, in order |
| SwitchFsm.SwitchFsm.DeletePorts | services/wfm/src/main/java/org/openkilda/wfm/topology/discovery/controller/sw/SwitchFsm.java:176-178 | the ports are deleted and each deletion is reported, in order |
| SwitchFsm.SwitchFsm.EmitOnlineStatus | services/wfm/src/main/java/org/openkilda/wfm/topology/discovery/controller/sw/SwitchFsm.java:185-187 | the online status of each listed port is reported, in order |
| SwitchFsm.SwitchFsm.EmitLinkModes | services/wfm/src/main/java/org/openkilda/wfm/topology/discovery/controller/sw/SwitchFsm.java:190-198 | the link mode of each listed port is reported, in order |
| SwitchFsm.SwitchFsm.LocateChanges | services/wfm/src/main/java/org/openkilda/wfm/topology/discovery/controller/sw/SwitchFsm.java:145-173 | the loop finds the removals, additions and up and down ports the specification functions give |
| SwitchFsm.SwitchFsm.SetupEnter | services/wfm/src/main/java/org/openkilda/wfm/topology/discovery/controller/sw/SwitchFsm.java:134-199 | features become the reported ones, the map becomes SetupPorts and its keys the reported numbers, and the outputs gain deletions, additions, online statuses and link modes in that order |
| SwitchFsm.SwitchFsm.OnlineEnter | services/wfm/src/main/java/org/openkilda/wfm/topology/discovery/controller/sw/SwitchFsm.java:201-204 | the stored switch record, created when missing, becomes ACTIVE |
| SwitchFsm.SwitchFsm.OfflineEnter | services/wfm/src/main/java/org/openkilda/wfm/topology/discovery/controller/sw/SwitchFsm.java:206-213 | an existing stored record becomes INACTIVE, none is created, and every port is reported offline |
| SwitchFsm.SwitchFsm.ApplyHistory | services/wfm/src/main/java/org/openkilda/wfm/topology/discovery/controller/sw/SwitchFsm.java:124-132 | a physical port with its link is added and reported for each outgoing link |
| SwitchFsm.SwitchFsm.HandlePortAdd | services/wfm/src/main/java/org/openkilda/wfm/topology/discovery/controller/sw/SwitchFsm.java:215-222 | a new record of the port's kind replaces any old one and is reported added and online |
| SwitchFsm.SwitchFsm.HandlePortDel | services/wfm/src/main/java/org/openkilda/wfm/topology/discovery/controller/sw/SwitchFsm.java:224-233 | a known port is removed and reported deleted; an unknown port changes nothing |
| SwitchFsm.SwitchFsm.HandlePortLinkStateChange | services/wfm/src/main/java/org/openkilda/wfm/topology/discovery/controller/sw/SwitchFsm.java:235-256 | a known port gets the new link status and its link mode is reported; an unknown port changes nothing |
| SwitchFsm.SwitchFsm.RemovePortsFsm | services/wfm/src/main/java/org/openkilda/wfm/topology/discovery/controller/sw/SwitchFsm.java:261-267 | every port is deleted and reported, leaving no port |
| FlowFetcher.FlowCacheEntry | src-java/ping-topology/ping-storm-topology/src/main/java/org/openkilda/wfm/topology/ping/bolt/FlowFetcher.java:370-378 | a flow gets a cache entry exactly when it spans two switches and has transit encapsulation, keyed by the flow and its Y-flow id and carrying that encapsulation |
| FlowFetcher.HaFlowCacheEntry | src-java/ping-topology/ping-storm-topology/src/main/java/org/openkilda/wfm/topology/ping/bolt/FlowFetcher.java:380-384 | an HA flow gets a cache entry exactly when it has transit encapsulation, keyed by the HA flow |
| FlowFetcher.Add | src-java/ping-topology/ping-storm-topology/src/main/java/org/openkilda/wfm/topology/ping/bolt/FlowFetcher.java:485-493 | adding to the cache set keeps every cached entry with its encapsulation and adds the new identity only; an identity already present keeps its stored encapsulation, since equality ignores the encapsulation |
| FlowFetcher.ExpiredKeys | src-java/ping-topology/ping-storm-topology/src/main/java/org/openkilda/wfm/topology/ping/bolt/FlowFetcher.java:166-177 | the expired identities are exactly those cached before and not reloaded |
| FlowFetcher.DisableFlowRemovesExactlyThatFlow | src-java/ping-topology/ping-storm-topology/src/main/java/org/openkilda/wfm/topology/ping/bolt/FlowFetcher.java:140-144 | disabling a flow leaves no entry of that flow id and keeps every other entry with its encapsulation |
| FlowFetcher.EnableThenDisable | src-java/ping-topology/ping-storm-topology/src/main/java/org/openkilda/wfm/topology/ping/bolt/FlowFetcher.java:126-146 | enabling then disabling a flow gives the same cache as disabling it alone |
| FlowFetcher.EnableThenDisableHaFlow | src-java/ping-topology/ping-storm-topology/src/main/java/org/openkilda/wfm/topology/ping/bolt/FlowFetcher.java:148-163 | enabling then disabling an HA flow gives the same cache as disabling it alone |
| FlowFetcher.EnableAddsOnlyPingableFlows | src-java/ping-topology/ping-storm-topology/src/main/java/org/openkilda/wfm/topology/ping/bolt/FlowFetcher.java:126-139 | enabling never drops or alters an entry, and adds only the named stored flow, when it spans two switches and has encapsulation, under its Y-flow id |
| FlowFetcher.CollectFlowsMembers | src-java/ping-topology/ping-storm-topology/src/main/java/org/openkilda/wfm/topology/ping/bolt/FlowFetcher.java:179-185 | the collected flow entries are exactly the listed flows that can be pinged, each under its Y-flow id |
| FlowFetcher.CollectHaFlowsMembers | src-java/ping-topology/ping-storm-topology/src/main/java/org/openkilda/wfm/topology/ping/bolt/FlowFetcher.java:187-193 | the collected HA entries are exactly the listed HA flows that have encapsulation |
| FlowFetcher.RefreshedMembers | src-java/ping-topology/ping-storm-topology/src/main/java/org/openkilda/wfm/topology/ping/bolt/FlowFetcher.java:166-193 | a rebuilt cache holds exactly the ping-enabled flows that can be pinged and the ping-enabled HA flows with encapsulation |
| FlowFetcher.PeriodicPingsCoverCache | src-java/ping-topology/ping-storm-topology/src/main/java/org/openkilda/wfm/topology/ping/bolt/FlowFetcher.java:200-221 | each cached entry gets exactly one periodic ping of its own kind; flow pings form groups of two directions and carry a cached flow and Y-flow id |
| FlowFetcher.OnDemandFlowPingMatchesCache | src-java/ping-topology/ping-storm-topology/src/main/java/org/openkilda/wfm/topology/ping/bolt/FlowFetcher.java:224-256 | an on-demand flow ping goes out exactly for an existing flow the periodic cache would accept, with that flow, its encapsulation and the request timeout; otherwise the response names the missing flow or the one-switch flow |
| FlowFetcher.MultiSwitchSubFlows | src-java/ping-topology/ping-storm-topology/src/main/java/org/openkilda/wfm/topology/ping/bolt/FlowFetcher.java:277-279 | the kept sub-flows are exactly the sub-flows spanning two switches |
| FlowFetcher.AllEncapsulated | src-java/ping-topology/ping-storm-topology/src/main/java/org/openkilda/wfm/topology/ping/bolt/FlowFetcher.java:282-303 | when no sub-flow is reported without encapsulation, every sub-flow has it |
| FlowFetcher.FirstWithoutEncapsulationAt | src-java/ping-topology/ping-storm-topology/src/main/java/org/openkilda/wfm/topology/ping/bolt/FlowFetcher.java:282-303 | the sub-flow reported without encapsulation is the first such in order |
| FlowFetcher.SubFlowPingsShape | src-java/ping-topology/ping-storm-topology/src/main/java/org/openkilda/wfm/topology/ping/bolt/FlowFetcher.java:282-312 | one ping per sub-flow, in order, each carrying its sub-flow, the Y-flow id and the shared group size |
| FlowFetcher.OnDemandYFlowPingShape | src-java/ping-topology/ping-storm-topology/src/main/java/org/openkilda/wfm/topology/ping/bolt/FlowFetcher.java:258-313 | a Y-flow request answers with exactly one response, or pings each multi-switch sub-flow in order in one group of twice their number, only when all have encapsulation and there is at least one |
| FlowFetcher.YFlowResponseOtherwise | src-java/ping-topology/ping-storm-topology/src/main/java/org/openkilda/wfm/topology/ping/bolt/FlowFetcher.java:258-307 | a missing Y-flow, one without sub-flows, one without multi-switch sub-flows or one with a sub-flow lacking encapsulation gets a single response |
| FlowFetcher.YFlowPingsWhenEligible | src-java/ping-topology/ping-storm-topology/src/main/java/org/openkilda/wfm/topology/ping/bolt/FlowFetcher.java:282-312 | an eligible Y-flow gets one ping per multi-switch sub-flow, in order, in one group of twice their number |
| FlowFetcher.EndpointCount | src-java/ping-topology/ping-storm-topology/src/main/java/org/openkilda/wfm/topology/ping/bolt/FlowFetcher.java:345-349 | the count of sub-flows ending at a switch never exceeds the number of sub-flows |
| FlowFetcher.OnDemandHaFlowPingConditions | src-java/ping-topology/ping-storm-topology/src/main/java/org/openkilda/wfm/topology/ping/bolt/FlowFetcher.java:322-368 | an HA-flow ping goes out exactly when the HA flow exists, has a multi-switch sub-flow, does not have exactly one sub-flow ending at the Y-point and has encapsulation; otherwise a response for that HA flow |
| FlowFetcher.DisableAsWrittenFailsOnMixedCache | src-java/ping-topology/ping-storm-topology/src/main/java/org/openkilda/wfm/topology/ping/bolt/FlowFetcher.java:140-144 | as written, disabling fails when the cache holds an entry of the other kind |
| FlowFetcher.MixedCacheDisableCounterexample | src-java/ping-topology/ping-storm-topology/src/main/java/org/openkilda/wfm/topology/ping/bolt/FlowFetcher.java:140-161 | a cache of one flow and one HA flow: both disablings fail as written, while the corrected removal drops exactly the named entry |
| FlowFetcher.ExpiryAsWrittenDropsReloadedHaFlows | src-java/ping-topology/ping-storm-topology/src/main/java/org/openkilda/wfm/topology/ping/bolt/FlowFetcher.java:166-177 | as written, a cached HA flow that the refresh reloads is reported expired; the corrected expiry reports only identities the refresh drops |
| FlowFetcher.FirstWithoutEncapsulationNone | src-java/ping-topology/ping-storm-topology/src/main/java/org/openkilda/wfm/topology/ping/bolt/FlowFetcher.java:282-303 | with every sub-flow encapsulated none is reported missing |
| FlowFetcher.FlowFetcher.constructor | src-java/ping-topology/ping-storm-topology/src/main/java/org/openkilda/wfm/topology/ping/bolt/FlowFetcher.java:97-102 | the cache lifetime is the configured seconds times 1000, the cache starts empty |
| FlowFetcher.FlowFetcher.Init | src-java/ping-topology/ping-storm-topology/src/main/java/org/openkilda/wfm/topology/ping/bolt/FlowFetcher.java:470-483 | start-up loads the rebuilt cache and records the time, emitting nothing |
| FlowFetcher.FlowFetcher.UpdatePeriodicPingHeap | src-java/ping-topology/ping-storm-topology/src/main/java/org/openkilda/wfm/topology/ping/bolt/FlowFetcher.java:105-163 | the cache becomes the result of the enable or disable command (the corrected removal, see Left out) |
| FlowFetcher.FlowFetcher.EmitCacheExpire | src-java/ping-topology/ping-storm-topology/src/main/java/org/openkilda/wfm/topology/ping/bolt/FlowFetcher.java:426-433 | one expiry notice per identity in order, carrying the flow of a regular entry |
| FlowFetcher.FlowFetcher.EmitPeriodicPings | src-java/ping-topology/ping-storm-topology/src/main/java/org/openkilda/wfm/topology/ping/bolt/FlowFetcher.java:200-221 | the periodic pings of the regular entries, then of the HA entries |
| FlowFetcher.FlowFetcher.HandlePeriodicRequest | src-java/ping-topology/ping-storm-topology/src/main/java/org/openkilda/wfm/topology/ping/bolt/FlowFetcher.java:195-222 | an outdated cache is rebuilt, the identities the rebuilt cache drops are expired (the corrected expiry, see Left out) and the refresh time set to now; then every cached entry is pinged |
| FlowFetcher.FlowFetcher.HandleOnDemandRequest | src-java/ping-topology/ping-storm-topology/src/main/java/org/openkilda/wfm/topology/ping/bolt/FlowFetcher.java:224-256 | emits the on-demand flow answer |
| FlowFetcher.FlowFetcher.HandleOnDemandYFlowRequest | src-java/ping-topology/ping-storm-topology/src/main/java/org/openkilda/wfm/topology/ping/bolt/FlowFetcher.java:258-313 | the loop over the multi-switch sub-flows emits exactly the Y-flow answer: the first missing encapsulation stops it with a response, otherwise the pings |
| FlowFetcher.FlowFetcher.BuildSubFlowPings | src-java/ping-topology/ping-storm-topology/src/main/java/org/openkilda/wfm/topology/ping/bolt/FlowFetcher.java:282-303 | the loop returns the first sub-flow without encapsulation, or one ping per sub-flow in order |
| FlowFetcher.FlowFetcher.HandleOnDemandHaFlowRequest | src-java/ping-topology/ping-storm-topology/src/main/java/org/openkilda/wfm/topology/ping/bolt/FlowFetcher.java:322-368 | emits the on-demand HA-flow answer |
| FlowServiceImpl.ValidateFlowId | src-java/northbound-service/northbound/src/main/java/org/openkilda/northbound/service/impl/FlowServiceImpl.java:866-873 | a request passes exactly when the body and path flow ids agree; otherwise invalid data naming both ids |
| FlowServiceImpl.MatchesRepeatedSpec | src-java/northbound-service/northbound/src/main/java/org/openkilda/northbound/service/impl/FlowServiceImpl.java:809 | an anchored repetition of the character class accepts exactly the texts of allowed characters whose length lies within the bounds |
| FlowServiceImpl.PatternIsStatedRule | src-java/northbound-service/northbound/src/main/java/org/openkilda/northbound/service/impl/FlowServiceImpl.java:809-812 | the pattern `^[\w-]{1,100}$` accepts exactly the ids of 1 to 100 letters, digits, underscores and hyphens that the error message states |
| FlowServiceImpl.CheckMirrorPointId | src-java/northbound-service/northbound/src/main/java/org/openkilda/northbound/service/impl/FlowServiceImpl.java:806-818 | an id is accepted unchanged exactly when it follows the stated rule; otherwise an invalid-parameters error |
| FlowServiceImpl.MirrorPointIdBoundaries | src-java/northbound-service/northbound/src/main/java/org/openkilda/northbound/service/impl/FlowServiceImpl.java:809 | the empty id, a 101-character id and an id with a space are rejected; a 100-character id and a mixed id pass |
| FlowServiceImpl.CheckMaxCount | src-java/northbound-service/northbound/src/main/java/org/openkilda/northbound/service/impl/FlowServiceImpl.java:675-679 | a count passes exactly when it is at least one; otherwise an invalid-parameters error quoting it |
| FlowServiceImpl.HistoryQuery | src-java/northbound-service/northbound/src/main/java/org/openkilda/northbound/service/impl/FlowServiceImpl.java:670-720 | the flow events and flow statuses queries are sent on with their arguments unchanged exactly when the count is at least one, and rejected otherwise |
| FlowServiceImpl.FindPath | src-java/northbound-service/northbound/src/main/java/org/openkilda/northbound/service/impl/FlowServiceImpl.java:490-492 | finds a record of the asked flow exactly when one exists |
| FlowServiceImpl.MapGroupPathsMembers | src-java/northbound-service/northbound/src/main/java/org/openkilda/northbound/service/impl/FlowServiceImpl.java:527-534 | a group holds exactly the records of the other flows of its kind, never the asked flow's |
| FlowServiceImpl.GroupsPartitionOtherPaths | src-java/northbound-service/northbound/src/main/java/org/openkilda/northbound/service/impl/FlowServiceImpl.java:509-521 | the primary and protected groups together hold each other flow's record exactly once |
| FlowServiceImpl.FlowPathPayloadSpec | src-java/northbound-service/northbound/src/main/java/org/openkilda/northbound/service/impl/FlowServiceImpl.java:489-524 | the payload fails exactly when no record has the asked id; otherwise it carries the asked record's paths, a protected path when it has one, and the groups exactly when more than one record came back |
| FlowServiceImpl.SinglePathHasNoGroups | src-java/northbound-service/northbound/src/main/java/org/openkilda/northbound/service/impl/FlowServiceImpl.java:509 | a lone record of the asked flow gives its paths and no group |
| FlowServiceImpl.DeletableFlowIdsMembers | src-java/northbound-service/northbound/src/main/java/org/openkilda/northbound/service/impl/FlowServiceImpl.java:381-387 | a delete is due exactly for the dumped flows without a Y-flow id |
| FlowServiceImpl.DeleteAllFlows | src-java/northbound-service/northbound/src/main/java/org/openkilda/northbound/service/impl/FlowServiceImpl.java:372-396 | the loop issues one delete per dumped flow that is not a Y-flow sub-flow, in dump order, and no other |
| FlowServiceImpl.RunBatchOperation | src-java/northbound-service/northbound/src/main/java/org/openkilda/northbound/service/impl/FlowServiceImpl.java:538-552 | push and unpush always fail as not permitted, with their deprecation notice |
| IntersectionComputer.EdgeIgnoresDirection | src-java/base-topology/base-storm-topology/src/test/java/org/openkilda/wfm/share/service/IntersectionComputerTest.java:93-119 | a hop and its reverse are the same link, and reversing twice gives the hop back |
| IntersectionComputer.SegmentEdgesMembers | src-java/base-topology/base-storm-topology/src/test/java/org/openkilda/wfm/share/service/IntersectionComputerTest.java:181-198 | the links of a path are exactly the links of its hops |
| IntersectionComputer.EdgesMembers | src-java/base-topology/base-storm-topology/src/test/java/org/openkilda/wfm/share/service/IntersectionComputerTest.java:181-229 | a link counts for a collection exactly when one of its paths takes it in either direction |
| IntersectionComputer.PathsWithIdsMembers | src-java/base-topology/base-storm-topology/src/test/java/org/openkilda/wfm/share/service/IntersectionComputerTest.java:161-178 | the chosen paths are exactly those carrying one of the two ids |
| IntersectionComputer.OtherFlowPathsMembers | src-java/base-topology/base-storm-topology/src/test/java/org/openkilda/wfm/share/service/IntersectionComputerTest.java:121-139 | the other paths are exactly those of flows other than the compared one, so a path of the same flow never counts |
| IntersectionComputer.PercentTruncates | src-java/base-topology/base-storm-topology/src/test/java/org/openkilda/wfm/share/service/IntersectionComputerTest.java:181-198 | a percentage is the share times 100 rounded down |
| IntersectionComputer.PercentSpec | src-java/base-topology/base-storm-topology/src/test/java/org/openkilda/wfm/share/service/IntersectionComputerTest.java:220-229 | a part gives at most 100, and exactly 100 only for the whole of a non-empty total |
| IntersectionComputer.NewComputer | src-java/base-topology/base-storm-topology/src/test/java/org/openkilda/wfm/share/service/IntersectionComputerTest.java:71-79 | the computer holds the links and switches of the compared flow's two paths and exactly the paths of the other flows |
| IntersectionComputer.CountersBounded | src-java/base-topology/base-storm-topology/src/test/java/org/openkilda/wfm/share/service/IntersectionComputerTest.java:181-229 | counts never exceed the compared flow's links and switches, percentages stay within 0..100, and 100 means every link or switch is shared |
| IntersectionComputer.NoOtherFlowsGivesZeroStats | src-java/base-topology/base-storm-topology/src/test/java/org/openkilda/wfm/share/service/IntersectionComputerTest.java:71-90 | with no paths, or only paths of the compared flow, both queries give zero counters |
| IntersectionComputer.UnaskedPathsGiveZeroStats | src-java/base-topology/base-storm-topology/src/test/java/org/openkilda/wfm/share/service/IntersectionComputerTest.java:150-158 | other paths not carrying the asked ids give zero counters |
| IntersectionComputer.SegmentEdgesConcat | src-java/base-topology/base-storm-topology/src/test/java/org/openkilda/wfm/share/service/IntersectionComputerTest.java:420-449 | the links of two runs of hops are the union of their links |
| IntersectionComputer.EdgesConcat | src-java/base-topology/base-storm-topology/src/test/java/org/openkilda/wfm/share/service/IntersectionComputerTest.java:420-449 | the links of two collections are the union of their links |
| IntersectionComputer.SwitchesConcat | src-java/base-topology/base-storm-topology/src/test/java/org/openkilda/wfm/share/service/IntersectionComputerTest.java:420-449 | the switches of two collections are the union of their switches |
| IntersectionComputer.PartialIntersectionExample | src-java/base-topology/base-storm-topology/src/test/java/org/openkilda/wfm/share/service/IntersectionComputerTest.java:180-218 | one shared link of two and two shared switches of three give 1, 2, 50, 66 |
| IntersectionComputer.FullIntersectionExample | src-java/base-topology/base-storm-topology/src/test/java/org/openkilda/wfm/share/service/IntersectionComputerTest.java:220-229 | another flow on the same links gives 2, 3, 100, 100 |
| IntersectionComputer.OneSwitchAtSourceExample | src-java/base-topology/base-storm-topology/src/test/java/org/openkilda/wfm/share/service/IntersectionComputerTest.java:354-386 | a one-switch path at the source gives 0, 1, 0, 33 for both queries |
| IntersectionComputer.TwoOneSwitchFlowsExample | src-java/base-topology/base-storm-topology/src/test/java/org/openkilda/wfm/share/service/IntersectionComputerTest.java:388-418 | two one-switch flows on the same switch give 0, 1, 0, 100 |
| IntersectionComputer.CommonRunSpec | src-java/base-topology/base-storm-topology/src/test/java/org/openkilda/wfm/share/service/IntersectionComputerTest.java:231-315 | the common run is shared by every path from its start, and stops where a path ends or two paths part |
| IntersectionComputer.SharedPathIsLongestCommonPrefix | src-java/base-topology/base-storm-topology/src/test/java/org/openkilda/wfm/share/service/IntersectionComputerTest.java:231-352 | fewer than two paths, a path without hops or different sources are illegal arguments; otherwise the result is a prefix of every path after which some path ends or two paths take different hops |
| IntersectionComputer.SharedSingleSegmentExample | src-java/base-topology/base-storm-topology/src/test/java/org/openkilda/wfm/share/service/IntersectionComputerTest.java:231-258 | paths parting after the first hop share exactly that hop |
| IntersectionComputer.NoSharedSegmentsExample | src-java/base-topology/base-storm-topology/src/test/java/org/openkilda/wfm/share/service/IntersectionComputerTest.java:260-284 | paths with different first hops share nothing |
| IntersectionComputer.PrefixPathSharedWholeExample | src-java/base-topology/base-storm-topology/src/test/java/org/openkilda/wfm/share/service/IntersectionComputerTest.java:286-315 | a path that is a prefix of the other is shared whole |
| IntersectionComputer.RejectedInputsExample | src-java/base-topology/base-storm-topology/src/test/java/org/openkilda/wfm/share/service/IntersectionComputerTest.java:317-352 | one path, or two paths from different switches, are rejected |
| AvailableNetwork.TwoSegmentHits | src-java/kilda-pce/src/test/java/org/openkilda/pce/impl/AvailableNetworkTest.java:231-278 | two segments charge a link and a switch what each of them charges |
| AvailableNetwork.EdgeHitsZero | src-java/kilda-pce/src/test/java/org/openkilda/pce/impl/AvailableNetworkTest.java:326-341 | a link is charged by diversity exactly when some segment runs over it |
| AvailableNetwork.NodeHitsZero | src-java/kilda-pce/src/test/java/org/openkilda/pce/impl/AvailableNetworkTest.java:231-278 | a terminating switch, or one no segment touches, is never charged |
| AvailableNetwork.ShortPathHasNoTransitPops | src-java/kilda-pce/src/test/java/org/openkilda/pce/impl/AvailableNetworkTest.java:105-128 | a path of at most one segment passes through no PoP, so no link is charged for PoPs |
| AvailableNetwork.TransitWithoutPopsChargesNothing | src-java/kilda-pce/src/test/java/org/openkilda/pce/impl/AvailableNetworkTest.java:130-185 | a path whose transit switches have no PoP charges no link for PoPs |
| AvailableNetwork.AvailableNetwork.constructor | src-java/kilda-pce/src/test/java/org/openkilda/pce/impl/AvailableNetworkTest.java:69-81 | a new network has no switches and no links |
| AvailableNetwork.AvailableNetwork.GetSwitch | src-java/kilda-pce/src/test/java/org/openkilda/pce/impl/AvailableNetworkTest.java:372-391 | finds a switch exactly when the network has it |
| AvailableNetwork.AvailableNetwork.GetOrAddNode | src-java/kilda-pce/src/test/java/org/openkilda/pce/impl/AvailableNetworkTest.java:372-391 | a missing switch is added uncharged in its PoP; a present one is kept as it is |
| AvailableNetwork.AvailableNetwork.AddEdge | src-java/kilda-pce/src/test/java/org/openkilda/pce/impl/AvailableNetworkTest.java:69-93 | both end switches are added if missing, and the link is added unless one with the same ends and ports is present |
| AvailableNetwork.AvailableNetwork.ProcessDiversitySegments | src-java/kilda-pce/src/test/java/org/openkilda/pce/impl/AvailableNetworkTest.java:231-278 | each link gains one use per segment over it and each switch one per non-terminating segment end; nothing is added or removed |
| AvailableNetwork.AvailableNetwork.ChargeSegment | src-java/kilda-pce/src/test/java/org/openkilda/pce/impl/AvailableNetworkTest.java:231-278 | one segment charges its link and its non-terminating switches once, nothing else |
| AvailableNetwork.AvailableNetwork.ChargePops | src-java/kilda-pce/src/test/java/org/openkilda/pce/impl/AvailableNetworkTest.java:105-128 | exactly the links touching one of the PoPs gain one PoP use, whatever order the links are visited in |
| AvailableNetwork.AvailableNetwork.ProcessDiversitySegmentsWithPop | src-java/kilda-pce/src/test/java/org/openkilda/pce/impl/AvailableNetworkTest.java:105-185 | exactly the links touching a PoP the other path passes through gain one PoP use |
| AvailableNetwork.AvailableNetwork.IsOnPath | src-java/kilda-pce/src/test/java/org/openkilda/pce/impl/AvailableNetworkTest.java:280-298 | the loop answers whether one of the segments runs over the link |
| AvailableNetwork.AvailableNetwork.ProcessAffinitySegments | src-java/kilda-pce/src/test/java/org/openkilda/pce/impl/AvailableNetworkTest.java:280-298 | exactly the links off the affinity path gain one affinity use |
| AvailableNetwork.AvailableNetwork.ProcessDiversityGroupForSingleSwitchFlow | src-java/kilda-pce/src/test/java/org/openkilda/pce/impl/AvailableNetworkTest.java:343-370 | a one-switch flow charges its own switch once and nothing else |
| AvailableNetwork.DuplicateLinksScenario | src-java/kilda-pce/src/test/java/org/openkilda/pce/impl/AvailableNetworkTest.java:69-81 | adding the same link twice lists it once at each end |
| AvailableNetwork.PairedLinksScenario | src-java/kilda-pce/src/test/java/org/openkilda/pce/impl/AvailableNetworkTest.java:187-209 | a link and its reverse are listed at the right ends with their own costs |
| AvailableNetwork.OneLinkDiversityScenario | src-java/kilda-pce/src/test/java/org/openkilda/pce/impl/AvailableNetworkTest.java:211-278 | a diverse segment charges its link once, its destination unless terminating, and its source only as the first segment |
| AvailableNetwork.AffinityScenario | src-java/kilda-pce/src/test/java/org/openkilda/pce/impl/AvailableNetworkTest.java:280-298 | of three parallel links only the affinity path's link is left uncharged |
| AvailableNetwork.PartiallyConnectedScenario | src-java/kilda-pce/src/test/java/org/openkilda/pce/impl/AvailableNetworkTest.java:300-324 | a diverse path over A-B and C-D leaves the link B-C uncharged but charges C as the start of a first segment |
| AvailableNetwork.AbsentSegmentScenario | src-java/kilda-pce/src/test/java/org/openkilda/pce/impl/AvailableNetworkTest.java:326-341 | a segment over a link the network lacks charges no link, while its switches are charged |
| AvailableNetwork.SingleSwitchScenario | src-java/kilda-pce/src/test/java/org/openkilda/pce/impl/AvailableNetworkTest.java:343-370 | a one-switch flow charges its switch and not the switch's loop link |
| AvailableNetwork.PopChargeWeights | src-java/kilda-pce/src/test/java/org/openkilda/pce/impl/AvailableNetworkTest.java:49-61 | on an uncharged network PoP diversity adds 1000 to the weight of exactly the links touching a charged PoP |
| AvailableNetwork.PopPenaltyScenario | src-java/kilda-pce/src/test/java/org/openkilda/pce/impl/AvailableNetworkTest.java:105-128 | on the network built from the test's six links, a diverse path through pop4 makes every link touching pop4 weigh 1000 more and leaves the others at their cost |
| NetworkPortService.LastPollCommandAppend | src-java/network-topology/network-storm-topology/src/test/java/org/openkilda/wfm/topology/network/service/NetworkPortServiceTest.java:136-180 | the last poll command for a port in a longer log is the appended part's, or the earlier log's when the appended part has none |
| NetworkPortService.OtherPortsPollUntouched | src-java/network-topology/network-storm-topology/src/test/java/org/openkilda/wfm/topology/network/service/NetworkPortServiceTest.java:113-134 | calls about one port never enable or disable polling of another |
| NetworkPortService.OnlineModeKeepsPolling | src-java/network-topology/network-storm-topology/src/test/java/org/openkilda/wfm/topology/network/service/NetworkPortServiceTest.java:182-223 | an online-mode change keeps polling allowed only for an online, up, discovering port, talks only about that port, and the port is polled afterwards only if the carrier was last told to poll it |
| NetworkPortService.LinkStatusKeepsPolling | src-java/network-topology/network-storm-topology/src/test/java/org/openkilda/wfm/topology/network/service/NetworkPortServiceTest.java:136-180 | the same for a link status change |
| NetworkPortService.DiscoverySettingKeepsPolling | src-java/network-topology/network-storm-topology/src/test/java/org/openkilda/wfm/topology/network/service/NetworkPortServiceTest.java:225-288 | the same for a discovery setting change |
| NetworkPortService.LinkChangesNeedOnline | src-java/network-topology/network-storm-topology/src/test/java/org/openkilda/wfm/topology/network/service/NetworkPortServiceTest.java:182-223 | a port that is not online ignores its link entirely; an online port shows a link change on the dashboard exactly when the status differs from what it had |
| NetworkPortService.DisabledDiscoveryNeverPolls | src-java/network-topology/network-storm-topology/src/test/java/org/openkilda/wfm/topology/network/service/NetworkPortServiceTest.java:258-317 | while discovery is disabled no transition polls the port and no found link is passed on |
| NetworkPortService.RegionOutageSilencesPort | src-java/network-topology/network-storm-topology/src/test/java/org/openkilda/wfm/topology/network/service/NetworkPortServiceTest.java:360-390 | losing the region stops polling and silences failures and found links; back online the link is as before, and failures are reported again exactly when it is up |
| NetworkPortService.NetworkPortService.constructor | src-java/network-topology/network-storm-topology/src/test/java/org/openkilda/wfm/topology/network/service/NetworkPortServiceTest.java:113-134 | a new service has no ports, the stored settings given, and has said nothing |
| NetworkPortService.NetworkPortService.Apply | src-java/network-topology/network-storm-topology/src/test/java/org/openkilda/wfm/topology/network/service/NetworkPortServiceTest.java:136-180 | a transition replaces that port's state and appends what it told the carrier and the dashboard |
| NetworkPortService.NetworkPortService.Setup | src-java/network-topology/network-storm-topology/src/test/java/org/openkilda/wfm/topology/network/service/NetworkPortServiceTest.java:113-134 | a set-up port starts fresh with its stored discovery setting (enabled when none is stored) and gets its link handler set up |
| NetworkPortService.NetworkPortService.Remove | src-java/network-topology/network-storm-topology/src/test/java/org/openkilda/wfm/topology/network/service/NetworkPortServiceTest.java:113-134 | a removed port stops being polled, loses its link handler and is forgotten; an unknown port changes nothing |
| NetworkPortService.NetworkPortService.UpdateOnlineMode | src-java/network-topology/network-storm-topology/src/test/java/org/openkilda/wfm/topology/network/service/NetworkPortServiceTest.java:182-223 | a known port takes the online-mode transition; an unknown one changes nothing |
| NetworkPortService.NetworkPortService.UpdateLinkStatus | src-java/network-topology/network-storm-topology/src/test/java/org/openkilda/wfm/topology/network/service/NetworkPortServiceTest.java:136-180 | a known port takes the link status transition; an unknown one changes nothing |
| NetworkPortService.NetworkPortService.UpdatePortProperties | src-java/network-topology/network-storm-topology/src/test/java/org/openkilda/wfm/topology/network/service/NetworkPortServiceTest.java:225-288 | the setting is stored and announced, and a known port takes the discovery setting transition |
| NetworkPortService.NetworkPortService.Discovery | src-java/network-topology/network-storm-topology/src/test/java/org/openkilda/wfm/topology/network/service/NetworkPortServiceTest.java:290-317 | a found link is passed on only for a known port that is online, up and discovering |
| NetworkPortService.NetworkPortService.Fail | src-java/network-topology/network-storm-topology/src/test/java/org/openkilda/wfm/topology/network/service/NetworkPortServiceTest.java:360-390 | a failed round is reported only for a known port that is online and up |
| NetworkPortService.NewPortScenario | src-java/network-topology/network-storm-topology/src/test/java/org/openkilda/wfm/topology/network/service/NetworkPortServiceTest.java:113-134 | two ports set up, taken offline and removed each get one link handler set up, polling stopped and the handler removed |
| NetworkPortService.OperationalUpDownScenario | src-java/network-topology/network-storm-topology/src/test/java/org/openkilda/wfm/topology/network/service/NetworkPortServiceTest.java:136-180 | ports set up and brought online show nothing; a port going up then down is shown up then down, polled, unpolled and reported physically down |
| NetworkPortService.OperationalDownUpScenario | src-java/network-topology/network-storm-topology/src/test/java/org/openkilda/wfm/topology/network/service/NetworkPortServiceTest.java:136-180 | an online port going down then up is shown down then up, reported physically down, then polled |
| NetworkPortService.UnoperationalUpDownScenario | src-java/network-topology/network-storm-topology/src/test/java/org/openkilda/wfm/topology/network/service/NetworkPortServiceTest.java:182-223 | an offline port ignores its link; back online it records and polls the link changes |
| NetworkPortService.CreatePortPropertiesScenario | src-java/network-topology/network-storm-topology/src/test/java/org/openkilda/wfm/topology/network/service/NetworkPortServiceTest.java:225-256 | disabling discovery on an up port stores and announces it, stops polling and reports discovery failed; removal stops polling again and removes the handler |
| NetworkPortService.DisableDiscoveryWhenPortDownScenario | src-java/network-topology/network-storm-topology/src/test/java/org/openkilda/wfm/topology/network/service/NetworkPortServiceTest.java:258-288 | disabling discovery on a down port only stores and announces it; the port coming up is recorded but never polled |
| NetworkPortService.DiscoveryWhenDisabledScenario | src-java/network-topology/network-storm-topology/src/test/java/org/openkilda/wfm/topology/network/service/NetworkPortServiceTest.java:290-317 | a link found from a port whose discovery is disabled is not passed on |
| NetworkPortService.EnableDiscoveryAfterOfflineOnlineScenario | src-java/network-topology/network-storm-topology/src/test/java/org/openkilda/wfm/topology/network/service/NetworkPortServiceTest.java:319-358 | discovery stays disabled across an offline-online cycle; enabling it on the up port starts polling and passes found links on again |
| NetworkPortService.RegionOfflineScenario | src-java/network-topology/network-storm-topology/src/test/java/org/openkilda/wfm/topology/network/service/NetworkPortServiceTest.java:360-390 | losing the region stops polling and silences failures; back online with the link up, failures are reported again |
| AvailableNetwork.KeepLinksScenario | src-java/kilda-pce/src/test/java/org/openkilda/pce/impl/AvailableNetworkTest.java:83-93 | a switch linked both ways to two neighbours has two outgoing and two incoming links |

## Left out

- Storm plumbing is not modelled: tuple emission, stream declarations, lifecycle deferral, timeout callbacks and the composition of command keys. Outputs are modelled as logs of what would be emitted, with one log per class.
- Oracles become parameters or inputs: the path computer, the resource manager, the flow validator, the rule manager and the transaction manager. The flow fetcher's lookup of the transit encapsulation is a function parameter.
- The order in which Java iterates a hash map or hash set is an input: a sequence that lists every key exactly once (`Enumeration.Enumerates`).
- The clock is the `now` parameter, wherever the source calls `System.currentTimeMillis()`.
- History timestamps are left out.
- Micrometer timers and metrics in `FlowUpdateFsm.newInstance` are left out.
- Dashboard logging is left out in ValidateFlowAction (`onFlowUpdate`) and in the FlowUpdateFsm entry actions that take the dashboard logger. The dashboard update of HandleNotCreatedHaFlowAction is modelled.
- HaFlowUpdateFsm.java, HaFlowDeleteFsm.java and HaFlowCreateFsm.java are not part of this model. The saga fields the HA-flow actions read and write are rebuilt from those actions.
- IntersectionComputer.java, AvailableNetwork.java and NetworkPortService.java are not part of this model. Those three modules are rebuilt from the assertions of their tests, so behaviour no test pins down is a choice of the model:
  - In `AvailableNetwork`, a diverse segment charges its destination switch unless it is terminating, and charges its source switch only when it is the path's first segment.
  - In `AvailableNetwork`, affinity charges every link that no segment runs over.
  - In `NetworkPortService`, removing a port stops its polling.
  - In `NetworkPortService`, coming back online after a region outage keeps the link status but does not re-enable polling until the link changes.
  - In `NetworkPortService`, setting up a known port again starts it afresh.
  - In `NetworkPortService`, events for unknown ports are ignored.
  - In `IntersectionComputer`, a path with no segments is refused with `EmptyPath`. The tests pin only the refusal of a single path and of paths with different sources.
- IntersectionComputer.Percent: the shares are whole percentages truncated toward zero. The tests compare only whole statistics records, so the rounding of a fractional share is a choice of the model.
- FlowEncapsulationTypeConverter: the doc comment calls the lookup case-insensitive, but `valueOf` is case-sensitive. The model follows the code.
- FlowServiceImpl.FindPath: `findAny` may return any record with the asked id; the model takes the first. The payload properties are stated for any such record.
- FlowServiceImpl: only the pure helpers and the delete-all loop are modelled. The other northbound methods only build a message and chain a future.
- FlowServiceImpl.DeleteAllFlows: the collection of failed deletions is left out.
- FlowUpdateFsm.IsPartialUpdate has no lemma of its own: `isPartialUpdate` is a one-line enum test.
- SwitchFsm: of the switch record the speaker data is persisted into, only the status is kept; the address, hostname, OpenFlow version and description fields are left out.
- HaUpdateHandleNotCompletedCommandsAction.RecordPendingCommands: records the corrected details text (`NotFinishedDetails`), with the action name and the command id in their own slots. The source passes the two the other way round; `NotFinishedDetailsAsWritten` models that text (see Findings).
- HaUpdateHandleNotCompletedCommandsAction.Perform: its history records carry the corrected details text, as RecordPendingCommands above, not the swapped text of the source.
- FlowFetcher.FlowFetcher.HandlePeriodicRequest: expires the corrected `ExpiredKeys`, the cached keys the rebuilt cache drops. The source also reports every reloaded HA flow as expired; `ExpiryAsWrittenDropsReloadedHaFlows` models that (see Findings).
- ValidateFlowAction.PerformWithResponse: the base class's error handling (`super.handleError`, NbTrackableWithHistorySupportAction, not part of this model) is reduced to setting the saga's error reason to the failure's description. Any history event or northbound error response it produces is left out.
- HaSwapFlowPathsAction.Perform: modelled only when both new primary path pairs are set, which the model takes the earlier allocation step to guarantee. When either pair is missing, SwapFlowPathsAction.java:65-66 throws a NullPointerException; that failure is not modelled.
- FlowFetcher.FlowFetcher.UpdatePeriodicPingHeap: the `removeIf` predicates of the source dereference the other entry kind, and so fail on a cache holding both kinds. The disable branches use the corrected removal instead, as does the rest of the model (see Findings).
- FlowFetcher.YFlow: the sub-flows of a Y-flow are a sequence, listed in the order the source's set hands them out. The model does not exclude a sub-flow listed twice, which the source's set would hold once.

## Findings

| source | as written | input that shows it | evidently intended | confidence | as-written member | corrected member |
|---|---|---|---|---|---|---|
| src-java/flowhs-topology/flowhs-storm-topology/src/main/java/org/openkilda/wfm/topology/flowhs/fsm/haflow/update/actions/HandleNotCompletedCommandsAction.java:55-57 | the history details format puts the command id where the action name belongs and the action name where the command id belongs | a pending remove command with id "c-1": the details read "...although the c-1 command may not be finished yet: commandId remove, ..." | "...although the remove command may not be finished yet: commandId c-1, ..." | high, not executed | HaUpdateHandleNotCompletedCommandsAction.AsWrittenMisnamesRemoveCommand | HaUpdateHandleNotCompletedCommandsAction.NotFinishedDetailsPlacesArguments |
| src-java/ping-topology/ping-storm-topology/src/main/java/org/openkilda/wfm/topology/ping/bolt/FlowFetcher.java:143-161 | disabling a flow calls `getFlow().getFlowId()` on every cache entry, and disabling an HA flow calls `getHaFlow().getHaFlowId()` on every entry; an entry of the other kind has null there | a cache holding one flow and one HA flow, then a disable command for either | remove only the entries of the matching kind and id, and keep every other entry | high, not executed | FlowFetcher.MixedCacheDisableCounterexample | FlowFetcher.DisableFlowRemovesExactlyThatFlow |
| src-java/ping-topology/ping-storm-topology/src/main/java/org/openkilda/wfm/topology/ping/bolt/FlowFetcher.java:166-177 | a refresh expires the old entries that are not among the freshly loaded regular flows; the freshly loaded HA flows are added only afterwards, so every cached HA flow is reported expired | a cached HA flow with pings enabled and encapsulation, at a refresh | expire only the entries the refreshed cache drops | medium, not executed | FlowFetcher.ExpiryAsWrittenDropsReloadedHaFlows | FlowFetcher.ExpiredKeys |

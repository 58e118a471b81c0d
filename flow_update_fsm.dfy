// The flow-update saga: its transition table, the listener notifications sent
// when it reaches a final state, its configuration defaults, and one running
// instance whose saga fields the actions update.

module FlowUpdateFsm {
  import opened Wrappers
  import opened ErrorTypes
  import opened FlowModel

  datatype State =
    | INITIALIZED
    | FLOW_VALIDATED
    | FLOW_UPDATED
    | PRIMARY_RESOURCES_ALLOCATED
    | PROTECTED_RESOURCES_ALLOCATED
    | RESOURCE_ALLOCATION_COMPLETED
    | INSTALLING_NON_INGRESS_RULES
    | NON_INGRESS_RULES_INSTALLED
    | VALIDATING_NON_INGRESS_RULES
    | NON_INGRESS_RULES_VALIDATED
    | PATHS_SWAPPED
    | INSTALLING_INGRESS_RULES
    | INGRESS_RULES_INSTALLED
    | VALIDATING_INGRESS_RULES
    | INGRESS_RULES_VALIDATED
    | NEW_PATHS_INSTALLATION_COMPLETED
    | REMOVING_OLD_RULES
    | OLD_RULES_REMOVED
    | OLD_PATHS_REMOVAL_COMPLETED
    | DEALLOCATING_OLD_RESOURCES
    | OLD_RESOURCES_DEALLOCATED
    | UPDATING_FLOW_STATUS
    | FLOW_STATUS_UPDATED
    | FINISHED
    | REVERTING_PATHS_SWAP
    | PATHS_SWAP_REVERTED
    | REVERTING_NEW_RULES
    | NEW_RULES_REVERTED
    | REVERTING_ALLOCATED_RESOURCES
    | RESOURCES_ALLOCATION_REVERTED
    | REVERTING_FLOW_STATUS
    | REVERTING_FLOW
    | FINISHED_WITH_ERROR
    | NOTIFY_FLOW_MONITOR
    | NOTIFY_FLOW_MONITOR_WITH_ERROR
    | NOTIFY_FLOW_STATS_ON_NEW_PATHS
    | NOTIFY_FLOW_STATS_ON_REMOVED_PATHS

  datatype Event =
    | NEXT
    | UPDATE_ENDPOINT_RULES_ONLY
    | NO_PATH_FOUND
    | RESPONSE_RECEIVED
    | ERROR_RECEIVED
    | INGRESS_IS_SKIPPED
    | RULES_INSTALLED
    | RULES_VALIDATED
    | MISSING_RULE_FOUND
    | RULES_REMOVED
    | TIMEOUT
    | ERROR

  /** The two final states of the saga. */
  predicate IsFinal(s: State) {
    s == FINISHED || s == FINISHED_WITH_ERROR
  }

  /** States that wait for speaker responses and accumulate them in place. */
  predicate AccumulatesResponses(s: State) {
    s in {INSTALLING_NON_INGRESS_RULES, VALIDATING_NON_INGRESS_RULES, INSTALLING_INGRESS_RULES,
          VALIDATING_INGRESS_RULES, REMOVING_OLD_RULES, REVERTING_NEW_RULES}
  }

  predicate IsSpeakerResponse(e: Event) {
    e == RESPONSE_RECEIVED || e == ERROR_RECEIVED
  }

  predicate IsFailure(e: Event) {
    e == TIMEOUT || e == ERROR
  }

  /** Resource allocation states, where a missing path is told apart from other failures. */
  predicate IsAllocating(s: State) {
    s == PRIMARY_RESOURCES_ALLOCATED || s == PROTECTED_RESOURCES_ALLOCATED
  }

  /** Non-ingress installation, before the paths are swapped. */
  predicate IsBeforeSwap(s: State) {
    s in {INSTALLING_NON_INGRESS_RULES, NON_INGRESS_RULES_INSTALLED, VALIDATING_NON_INGRESS_RULES}
  }

  /** From the swap decision up to the completed installation of the new paths. */
  predicate IsAroundSwap(s: State) {
    s in {NON_INGRESS_RULES_VALIDATED, PATHS_SWAPPED, INSTALLING_INGRESS_RULES,
          INGRESS_RULES_INSTALLED, VALIDATING_INGRESS_RULES, INGRESS_RULES_VALIDATED,
          NEW_PATHS_INSTALLATION_COMPLETED}
  }

  /** Removal of the old paths and resources after the new ones are in place. */
  predicate IsCleanup(s: State) {
    s in {REMOVING_OLD_RULES, OLD_PATHS_REMOVAL_COMPLETED, OLD_RESOURCES_DEALLOCATED}
  }

  /** The rollback spine, from reverting the swap down to the failure notification. */
  predicate IsRollback(s: State) {
    s in {REVERTING_PATHS_SWAP, PATHS_SWAP_REVERTED, REVERTING_NEW_RULES, NEW_RULES_REVERTED,
          REVERTING_ALLOCATED_RESOURCES, RESOURCES_ALLOCATION_REVERTED, REVERTING_FLOW,
          REVERTING_FLOW_STATUS, NOTIFY_FLOW_MONITOR_WITH_ERROR}
  }

  /**
   * A position in the saga. Every transition that leaves its state moves to a
   * strictly lower rank, so the table has no cycle other than internal transitions.
   */
  function Rank(s: State): nat {
    match s
    case INITIALIZED => 34
    case FLOW_VALIDATED => 33
    case FLOW_UPDATED => 32
    case PRIMARY_RESOURCES_ALLOCATED => 31
    case PROTECTED_RESOURCES_ALLOCATED => 30
    case RESOURCE_ALLOCATION_COMPLETED => 29
    case INSTALLING_NON_INGRESS_RULES => 28
    case NON_INGRESS_RULES_INSTALLED => 27
    case VALIDATING_NON_INGRESS_RULES => 26
    case NON_INGRESS_RULES_VALIDATED => 25
    case PATHS_SWAPPED => 24
    case NOTIFY_FLOW_STATS_ON_NEW_PATHS => 23
    case INSTALLING_INGRESS_RULES => 22
    case INGRESS_RULES_INSTALLED => 21
    case VALIDATING_INGRESS_RULES => 20
    case INGRESS_RULES_VALIDATED => 19
    case NEW_PATHS_INSTALLATION_COMPLETED => 18
    case REMOVING_OLD_RULES => 17
    case OLD_RULES_REMOVED => 16
    case NOTIFY_FLOW_STATS_ON_REMOVED_PATHS => 15
    case OLD_PATHS_REMOVAL_COMPLETED => 14
    case DEALLOCATING_OLD_RESOURCES => 13
    case OLD_RESOURCES_DEALLOCATED => 12
    case UPDATING_FLOW_STATUS => 11
    case FLOW_STATUS_UPDATED => 10
    case REVERTING_PATHS_SWAP => 9
    case PATHS_SWAP_REVERTED => 8
    case REVERTING_NEW_RULES => 7
    case NEW_RULES_REVERTED => 6
    case REVERTING_ALLOCATED_RESOURCES => 5
    case RESOURCES_ALLOCATION_REVERTED => 4
    case REVERTING_FLOW => 3
    case REVERTING_FLOW_STATUS => 2
    case NOTIFY_FLOW_MONITOR => 1
    case NOTIFY_FLOW_MONITOR_WITH_ERROR => 1
    case FINISHED => 0
    case FINISHED_WITH_ERROR => 0
  }

  /**
   * The transition table. `None` is a pair the table leaves undefined (the state
   * machine declines the event); `Some(s)` for an internal transition of `s`.
   */
  function Step(s: State, e: Event): Option<State>
  {
    match s
    case INITIALIZED =>
      (match e
       case NEXT => Some(FLOW_VALIDATED)
       case TIMEOUT => Some(FINISHED_WITH_ERROR)
       case _ => None)
    case FLOW_VALIDATED =>
      (match e
       case NEXT => Some(FLOW_UPDATED)
       case TIMEOUT => Some(REVERTING_FLOW_STATUS)
       case ERROR => Some(REVERTING_FLOW_STATUS)
       case _ => None)
    case FLOW_UPDATED =>
      (match e
       case NEXT => Some(PRIMARY_RESOURCES_ALLOCATED)
       case TIMEOUT => Some(REVERTING_FLOW)
       case ERROR => Some(REVERTING_FLOW)
       case UPDATE_ENDPOINT_RULES_ONLY => Some(RESOURCE_ALLOCATION_COMPLETED)
       case _ => None)
    case PRIMARY_RESOURCES_ALLOCATED =>
      (match e
       case NEXT => Some(PROTECTED_RESOURCES_ALLOCATED)
       case TIMEOUT => Some(NEW_RULES_REVERTED)
       case ERROR => Some(NEW_RULES_REVERTED)
       case NO_PATH_FOUND => Some(REVERTING_ALLOCATED_RESOURCES)
       case _ => None)
    case PROTECTED_RESOURCES_ALLOCATED =>
      (match e
       case NEXT => Some(RESOURCE_ALLOCATION_COMPLETED)
       case TIMEOUT => Some(NEW_RULES_REVERTED)
       case ERROR => Some(NEW_RULES_REVERTED)
       case NO_PATH_FOUND => Some(REVERTING_ALLOCATED_RESOURCES)
       case _ => None)
    case RESOURCE_ALLOCATION_COMPLETED =>
      (match e
       case NEXT => Some(INSTALLING_NON_INGRESS_RULES)
       case TIMEOUT => Some(NEW_RULES_REVERTED)
       case ERROR => Some(NEW_RULES_REVERTED)
       case _ => None)
    case INSTALLING_NON_INGRESS_RULES =>
      (match e
       case RESPONSE_RECEIVED => Some(s)
       case ERROR_RECEIVED => Some(s)
       case RULES_INSTALLED => Some(NON_INGRESS_RULES_INSTALLED)
       case TIMEOUT => Some(PATHS_SWAP_REVERTED)
       case ERROR => Some(PATHS_SWAP_REVERTED)
       case _ => None)
    case NON_INGRESS_RULES_INSTALLED =>
      (match e
       case NEXT => Some(VALIDATING_NON_INGRESS_RULES)
       case TIMEOUT => Some(PATHS_SWAP_REVERTED)
       case ERROR => Some(PATHS_SWAP_REVERTED)
       case _ => None)
    case VALIDATING_NON_INGRESS_RULES =>
      (match e
       case RESPONSE_RECEIVED => Some(s)
       case ERROR_RECEIVED => Some(s)
       case RULES_VALIDATED => Some(NON_INGRESS_RULES_VALIDATED)
       case TIMEOUT => Some(PATHS_SWAP_REVERTED)
       case MISSING_RULE_FOUND => Some(PATHS_SWAP_REVERTED)
       case ERROR => Some(PATHS_SWAP_REVERTED)
       case _ => None)
    case NON_INGRESS_RULES_VALIDATED =>
      (match e
       case NEXT => Some(PATHS_SWAPPED)
       case TIMEOUT => Some(REVERTING_PATHS_SWAP)
       case ERROR => Some(REVERTING_PATHS_SWAP)
       case _ => None)
    case PATHS_SWAPPED =>
      (match e
       case NEXT => Some(NOTIFY_FLOW_STATS_ON_NEW_PATHS)
       case TIMEOUT => Some(REVERTING_PATHS_SWAP)
       case ERROR => Some(REVERTING_PATHS_SWAP)
       case _ => None)
    case NOTIFY_FLOW_STATS_ON_NEW_PATHS =>
      (match e
       case NEXT => Some(INSTALLING_INGRESS_RULES)
       case _ => None)
    case INSTALLING_INGRESS_RULES =>
      (match e
       case RESPONSE_RECEIVED => Some(s)
       case ERROR_RECEIVED => Some(s)
       case RULES_INSTALLED => Some(INGRESS_RULES_INSTALLED)
       case INGRESS_IS_SKIPPED => Some(INGRESS_RULES_VALIDATED)
       case TIMEOUT => Some(REVERTING_PATHS_SWAP)
       case ERROR => Some(REVERTING_PATHS_SWAP)
       case _ => None)
    case INGRESS_RULES_INSTALLED =>
      (match e
       case NEXT => Some(VALIDATING_INGRESS_RULES)
       case TIMEOUT => Some(REVERTING_PATHS_SWAP)
       case ERROR => Some(REVERTING_PATHS_SWAP)
       case _ => None)
    case VALIDATING_INGRESS_RULES =>
      (match e
       case RESPONSE_RECEIVED => Some(s)
       case ERROR_RECEIVED => Some(s)
       case RULES_VALIDATED => Some(INGRESS_RULES_VALIDATED)
       case TIMEOUT => Some(REVERTING_PATHS_SWAP)
       case MISSING_RULE_FOUND => Some(REVERTING_PATHS_SWAP)
       case ERROR => Some(REVERTING_PATHS_SWAP)
       case _ => None)
    case INGRESS_RULES_VALIDATED =>
      (match e
       case NEXT => Some(NEW_PATHS_INSTALLATION_COMPLETED)
       case TIMEOUT => Some(REVERTING_PATHS_SWAP)
       case ERROR => Some(REVERTING_PATHS_SWAP)
       case _ => None)
    case NEW_PATHS_INSTALLATION_COMPLETED =>
      (match e
       case NEXT => Some(REMOVING_OLD_RULES)
       case TIMEOUT => Some(REVERTING_PATHS_SWAP)
       case ERROR => Some(REVERTING_PATHS_SWAP)
       case _ => None)
    case REMOVING_OLD_RULES =>
      (match e
       case RESPONSE_RECEIVED => Some(s)
       case ERROR_RECEIVED => Some(s)
       case RULES_REMOVED => Some(OLD_RULES_REMOVED)
       case ERROR => Some(OLD_RULES_REMOVED)
       case _ => None)
    case OLD_RULES_REMOVED =>
      (match e
       case NEXT => Some(NOTIFY_FLOW_STATS_ON_REMOVED_PATHS)
       case UPDATE_ENDPOINT_RULES_ONLY => Some(UPDATING_FLOW_STATUS)
       case _ => None)
    case NOTIFY_FLOW_STATS_ON_REMOVED_PATHS =>
      (match e
       case NEXT => Some(OLD_PATHS_REMOVAL_COMPLETED)
       case _ => None)
    case OLD_PATHS_REMOVAL_COMPLETED =>
      (match e
       case NEXT => Some(DEALLOCATING_OLD_RESOURCES)
       case ERROR => Some(DEALLOCATING_OLD_RESOURCES)
       case _ => None)
    case DEALLOCATING_OLD_RESOURCES =>
      (match e
       case NEXT => Some(OLD_RESOURCES_DEALLOCATED)
       case _ => None)
    case OLD_RESOURCES_DEALLOCATED =>
      (match e
       case NEXT => Some(UPDATING_FLOW_STATUS)
       case ERROR => Some(UPDATING_FLOW_STATUS)
       case _ => None)
    case UPDATING_FLOW_STATUS =>
      (match e
       case NEXT => Some(FLOW_STATUS_UPDATED)
       case _ => None)
    case FLOW_STATUS_UPDATED =>
      (match e
       case NEXT => Some(NOTIFY_FLOW_MONITOR)
       case ERROR => Some(NOTIFY_FLOW_MONITOR_WITH_ERROR)
       case _ => None)
    case REVERTING_PATHS_SWAP =>
      (match e
       case NEXT => Some(PATHS_SWAP_REVERTED)
       case _ => None)
    case PATHS_SWAP_REVERTED =>
      (match e
       case NEXT => Some(REVERTING_NEW_RULES)
       case _ => None)
    case REVERTING_NEW_RULES =>
      (match e
       case RESPONSE_RECEIVED => Some(s)
       case ERROR_RECEIVED => Some(s)
       case RULES_REMOVED => Some(NEW_RULES_REVERTED)
       case ERROR => Some(NEW_RULES_REVERTED)
       case _ => None)
    case NEW_RULES_REVERTED =>
      (match e
       case NEXT => Some(REVERTING_ALLOCATED_RESOURCES)
       case UPDATE_ENDPOINT_RULES_ONLY => Some(REVERTING_FLOW)
       case _ => None)
    case REVERTING_ALLOCATED_RESOURCES =>
      (match e
       case NEXT => Some(RESOURCES_ALLOCATION_REVERTED)
       case _ => None)
    case RESOURCES_ALLOCATION_REVERTED =>
      (match e
       case NEXT => Some(REVERTING_FLOW)
       case ERROR => Some(REVERTING_FLOW)
       case _ => None)
    case REVERTING_FLOW =>
      (match e
       case NEXT => Some(REVERTING_FLOW_STATUS)
       case _ => None)
    case REVERTING_FLOW_STATUS =>
      (match e
       case NEXT => Some(NOTIFY_FLOW_MONITOR_WITH_ERROR)
       case _ => None)
    case NOTIFY_FLOW_MONITOR =>
      (match e
       case NEXT => Some(FINISHED)
       case _ => None)
    case NOTIFY_FLOW_MONITOR_WITH_ERROR =>
      (match e
       case NEXT => Some(FINISHED_WITH_ERROR)
       case _ => None)
    case FINISHED => None
    case FINISHED_WITH_ERROR => None
  }

  /** Final states define no transition. */
  lemma FinalStatesAreTerminal(s: State, e: Event)
    requires IsFinal(s)
    ensures Step(s, e) == None
  {
  }

  /**
   * Speaker responses are internal transitions exactly in the states that
   * accumulate them; no other transition keeps the state.
   */
  lemma InternalTransitionsAccumulateResponses(s: State, e: Event)
    ensures Step(s, e) == Some(s) <==> AccumulatesResponses(s) && IsSpeakerResponse(e)
  {
  }

  /** Every transition that leaves its state lowers the rank: the table is acyclic. */
  lemma StepLowersRank(s: State, e: Event)
    requires Step(s, e).Some? && Step(s, e).value != s
    ensures Rank(Step(s, e).value) < Rank(s)
  {
    if Rank(s) >= 28 {
      AllocationLowersRank(s, e);
    } else if Rank(s) >= 23 {
      NonIngressLowersRank(s, e);
    } else if Rank(s) >= 17 {
      IngressLowersRank(s, e);
    } else if Rank(s) >= 10 {
      CleanupLowersRank(s, e);
    } else {
      RollbackLowersRank(s, e);
    }
  }

  // StepLowersRank, one stretch of the saga at a time.

  lemma AllocationLowersRank(s: State, e: Event)
    requires Rank(s) >= 28 && Step(s, e).Some? && Step(s, e).value != s
    ensures Rank(Step(s, e).value) < Rank(s)
  {
  }

  lemma NonIngressLowersRank(s: State, e: Event)
    requires 23 <= Rank(s) < 28 && Step(s, e).Some? && Step(s, e).value != s
    ensures Rank(Step(s, e).value) < Rank(s)
  {
  }

  lemma IngressLowersRank(s: State, e: Event)
    requires 17 <= Rank(s) < 23 && Step(s, e).Some? && Step(s, e).value != s
    ensures Rank(Step(s, e).value) < Rank(s)
  {
  }

  lemma CleanupLowersRank(s: State, e: Event)
    requires 10 <= Rank(s) < 17 && Step(s, e).Some? && Step(s, e).value != s
    ensures Rank(Step(s, e).value) < Rank(s)
  {
  }

  lemma RollbackLowersRank(s: State, e: Event)
    requires Rank(s) < 10 && Step(s, e).Some? && Step(s, e).value != s
    ensures Rank(Step(s, e).value) < Rank(s)
  {
  }

  /** A missing path releases the allocated resources; other failures revert new rules first. */
  lemma AllocationFailures(s: State, e: Event)
    requires IsAllocating(s)
    ensures Step(s, NO_PATH_FOUND) == Some(REVERTING_ALLOCATED_RESOURCES)
    ensures IsFailure(e) ==> Step(s, e) == Some(NEW_RULES_REVERTED)
  {
  }

  /**
   * Failures before the swap skip the swap revert; failures from the swap
   * decision up to completed installation revert the swap.
   */
  lemma InstallationFailures(s: State, e: Event)
    requires IsFailure(e)
    ensures IsBeforeSwap(s) ==> Step(s, e) == Some(PATHS_SWAP_REVERTED)
    ensures IsAroundSwap(s) ==> Step(s, e) == Some(REVERTING_PATHS_SWAP)
  {
  }

  /** An error during cleanup never enters the rollback spine. */
  lemma CleanupErrorsAreAbsorbed(s: State)
    requires IsCleanup(s)
    ensures Step(s, ERROR).Some? && !IsRollback(Step(s, ERROR).value)
    ensures Step(s, ERROR) == Step(s, if s == REMOVING_OLD_RULES then RULES_REMOVED else NEXT)
  {
  }

  /** The rollback spine is closed: it only leads to itself or to FINISHED_WITH_ERROR. */
  lemma RollbackIsClosed(s: State, e: Event)
    requires IsRollback(s) && Step(s, e).Some?
    ensures IsRollback(Step(s, e).value) || Step(s, e).value == FINISHED_WITH_ERROR
  {
  }

  /** Feeds the events to the table one by one; `None` once an event is undefined. */
  function Run(s: State, es: seq<Event>): Option<State>
    decreases |es|
  {
    if es == [] then Some(s)
    else match Step(s, es[0])
      case None => None
      case Some(t) => Run(t, es[1..])
  }

  /** The event that completes the work of a non-final state successfully. */
  function Progress(s: State): Event {
    match s
    case INSTALLING_NON_INGRESS_RULES => RULES_INSTALLED
    case INSTALLING_INGRESS_RULES => RULES_INSTALLED
    case VALIDATING_NON_INGRESS_RULES => RULES_VALIDATED
    case VALIDATING_INGRESS_RULES => RULES_VALIDATED
    case REMOVING_OLD_RULES => RULES_REMOVED
    case REVERTING_NEW_RULES => RULES_REMOVED
    case _ => NEXT
  }

  /** The events a saga in `s` receives when every remaining step succeeds. */
  function Completion(s: State): (es: seq<Event>)
    decreases Rank(s)
  {
    match Step(s, Progress(s))
    case None => []
    case Some(t) =>
      if t == s then []
      else
        StepLowersRank(s, Progress(s));
        [Progress(s)] + Completion(t)
  }

  /** Every non-final state can be completed, and completion always ends in a final state. */
  lemma {:induction false} CompletionEndsInFinalState(s: State)
    ensures Run(s, Completion(s)).Some?
    ensures IsFinal(Run(s, Completion(s)).value)
    decreases Rank(s)
  {
    ProgressStopsOnlyWhenFinal(s);
    match Step(s, Progress(s))
    case None =>
    case Some(t) =>
      if t != s {
        StepLowersRank(s, Progress(s));
        CompletionEndsInFinalState(t);
        assert Completion(s) == [Progress(s)] + Completion(t);
        assert ([Progress(s)] + Completion(t))[1..] == Completion(t);
      }
  }

  /** Success moves every state on except the final ones. */
  lemma ProgressStopsOnlyWhenFinal(s: State)
    ensures IsFinal(s) <==> Step(s, Progress(s)).None? || Step(s, Progress(s)) == Some(s)
  {
  }

  /** Once in the rollback spine, no sequence of events can reach FINISHED. */
  lemma {:induction false} RollbackNeverSucceeds(s: State, es: seq<Event>)
    requires IsRollback(s) || s == FINISHED_WITH_ERROR
    ensures Run(s, es) != Some(FINISHED)
    decreases |es|
  {
    if es != [] {
      match Step(s, es[0])
      case None =>
      case Some(t) =>
        if s != FINISHED_WITH_ERROR {
          RollbackIsClosed(s, es[0]);
        }
        RollbackNeverSucceeds(t, es[1..]);
    }
  }

  /** From any rollback state the successful completion ends in FINISHED_WITH_ERROR. */
  lemma RollbackEndsInFinishedWithError(s: State)
    requires IsRollback(s)
    ensures Run(s, Completion(s)) == Some(FINISHED_WITH_ERROR)
  {
    CompletionEndsInFinalState(s);
    RollbackNeverSucceeds(s, Completion(s));
  }

  /**
   * FINISHED_WITH_ERROR is entered only after the flow monitor was told of the
   * failure, or by a timeout before validation; FINISHED only after the monitor
   * was told of the success.
   */
  lemma FinalStatePredecessors(s: State, e: Event)
    ensures Step(s, e) == Some(FINISHED_WITH_ERROR) ==>
      (s == NOTIFY_FLOW_MONITOR_WITH_ERROR && e == NEXT) || (s == INITIALIZED && e == TIMEOUT)
    ensures Step(s, e) == Some(FINISHED) ==> s == NOTIFY_FLOW_MONITOR && e == NEXT
  {
  }

  /**
   * Outside the rollback spine, the successful completion ends in FINISHED:
   * a saga that meets no failure finishes successfully.
   */
  lemma {:induction false} ForwardCompletionSucceeds(s: State)
    requires !IsRollback(s) && s != FINISHED_WITH_ERROR
    ensures Run(s, Completion(s)) == Some(FINISHED)
    decreases Rank(s)
  {
    if s != FINISHED {
      ProgressStopsOnlyWhenFinal(s);
      ProgressStaysForward(s);
      var t := Step(s, Progress(s)).value;
      StepLowersRank(s, Progress(s));
      ForwardCompletionSucceeds(t);
      assert Completion(s) == [Progress(s)] + Completion(t);
      assert ([Progress(s)] + Completion(t))[1..] == Completion(t);
    }
  }

  /** Success never leads a state outside the rollback spine into it. */
  lemma ProgressStaysForward(s: State)
    requires !IsRollback(s) && !IsFinal(s) && Step(s, Progress(s)).Some?
    ensures !IsRollback(Step(s, Progress(s)).value)
    ensures Step(s, Progress(s)).value != FINISHED_WITH_ERROR
  {
  }

  /** UPDATE_ENDPOINT_RULES_ONLY skips path allocation, old path removal and resource release. */
  lemma EndpointOnlyShortcuts()
    ensures Step(FLOW_UPDATED, UPDATE_ENDPOINT_RULES_ONLY) == Some(RESOURCE_ALLOCATION_COMPLETED)
    ensures Step(OLD_RULES_REMOVED, UPDATE_ENDPOINT_RULES_ONLY) == Some(UPDATING_FLOW_STATUS)
    ensures Step(NEW_RULES_REVERTED, UPDATE_ENDPOINT_RULES_ONLY) == Some(REVERTING_FLOW)
  {
  }

  /** Early transitions: a timeout before validation ends the saga at once. */
  lemma EarlyTransitions()
    ensures Step(INITIALIZED, NEXT) == Some(FLOW_VALIDATED)
    ensures Step(INITIALIZED, TIMEOUT) == Some(FINISHED_WITH_ERROR)
    ensures Step(INITIALIZED, ERROR) == None
    ensures Step(FLOW_VALIDATED, TIMEOUT) == Some(REVERTING_FLOW_STATUS)
    ensures Step(FLOW_VALIDATED, ERROR) == Some(REVERTING_FLOW_STATUS)
  {
  }

  // ---- listeners ----

  /** A call made on a flow-update event listener. */
  datatype Notification =
    | OnCompleted(listener: nat, flowId: string)
    | OnFailed(listener: nat, flowId: string, errorReason: string, errorType: ErrorType)

  /**
   * The calls made on the saga's listeners when a transition completes in
   * `target`. `resultError` is the type of the operation result when it is an
   * error message, `None` otherwise.
   */
  function ListenerCalls(target: State, flowId: string, listeners: seq<nat>,
                         resultError: Option<ErrorType>, errorReason: string): (calls: seq<Notification>)
    ensures !IsFinal(target) ==> calls == []
    ensures IsFinal(target) ==> |calls| == |listeners|
  {
    if |listeners| == 0 then []
    else
      match target
      case FINISHED => seq(|listeners|, i requires 0 <= i < |listeners| => OnCompleted(listeners[i], flowId))
      case FINISHED_WITH_ERROR =>
        var errorType := match resultError case Some(t) => t case None => INTERNAL_ERROR;
        seq(|listeners|, i requires 0 <= i < |listeners| => OnFailed(listeners[i], flowId, errorReason, errorType))
      case _ => []
  }

  // ---- configuration ----

  datatype EndpointUpdate = NONE | SOURCE | DESTINATION | BOTH
  {
    predicate IsPartialUpdate() { this != NONE }
  }

  datatype FlowLoopOperation = NO_LOOP_OPERATION | CREATE | DELETE

  datatype Config = Config(speakerCommandRetriesLimit: int, pathAllocationRetriesLimit: int,
                           pathAllocationRetryDelay: int, resourceAllocationRetriesLimit: int)

  function DefaultConfig(): (c: Config)
    ensures c.speakerCommandRetriesLimit == 3 && c.pathAllocationRetriesLimit == 10
    ensures c.pathAllocationRetryDelay == 50 && c.resourceAllocationRetriesLimit == 10
  {
    Config(3, 10, 50, 10)
  }

  // ---- a running saga ----

  /** The flow as requested by the update: its id and endpoints. */
  datatype RequestedFlow = RequestedFlow(flowId: string, srcSwitch: nat, dstSwitch: nat)

  /** One flow-update saga: its current state and the fields its actions set. */
  class FlowUpdateSaga {
    const flowId: string
    const listeners: seq<nat>
    var state: State
    var targetFlow: Option<RequestedFlow>
    var bulkUpdateFlowIds: set<string>
    var doNotRevert: bool
    var originalFlowStatus: Option<FlowStatus>
    var originalFlowStatusInfo: Option<string>
    var newFlowStatus: Option<FlowStatus>
    var endpointUpdate: EndpointUpdate
    var flowLoopOperation: FlowLoopOperation
    var resultError: Option<ErrorType>
    var errorReason: string
    /** Calls made on the listeners, in order. */
    var notifications: seq<Notification>
    /** The actions of the history events the saga saved, in order; each is an UPDATE event. */
    var events: seq<string>

    constructor (flowId: string, listeners: seq<nat>)
      ensures this.flowId == flowId && this.listeners == listeners
      ensures state == INITIALIZED && notifications == []
      ensures endpointUpdate == NONE && flowLoopOperation == NO_LOOP_OPERATION
      ensures targetFlow == None && originalFlowStatus == None && newFlowStatus == None
      ensures bulkUpdateFlowIds == {} && !doNotRevert && resultError == None && errorReason == ""
      ensures events == []
    {
      this.flowId := flowId;
      this.listeners := listeners;
      state := INITIALIZED;
      targetFlow := None;
      bulkUpdateFlowIds := {};
      doNotRevert := false;
      originalFlowStatus := None;
      originalFlowStatusInfo := None;
      newFlowStatus := None;
      endpointUpdate := NONE;
      flowLoopOperation := NO_LOOP_OPERATION;
      resultError := None;
      errorReason := "";
      notifications := [];
      events := [];
    }

    /**
     * Fires an event. A pair the table does not define is declined and changes
     * nothing; otherwise the saga moves and its listeners hear of a final state.
     */
    method Fire(e: Event) returns (accepted: bool)
      modifies this`state, this`notifications
      ensures accepted == Step(old(state), e).Some?
      ensures state == if accepted then Step(old(state), e).value else old(state)
      ensures notifications == old(notifications) +
        (if accepted then ListenerCalls(state, flowId, listeners, resultError, errorReason) else [])
    {
      var next := Step(state, e);
      if next.None? {
        return false;
      }
      state := next.value;
      notifications := notifications + ListenerCalls(state, flowId, listeners, resultError, errorReason);
      return true;
    }
  }
}

// The HA-flow update action that gives up waiting for speaker commands: each
// pending command whose request is known leaves an error in the history, the
// pending commands are dropped, and an endpoint-only update skips ahead.

module HaUpdateHandleNotCompletedCommandsAction {
  import opened Wrappers
  import opened Text
  import opened Enumeration
  import opened FlowModel
  import opened HaFlowUpdateSaga

  const ACTION_MESSAGE := "Command is not finished yet"
  const DETAILS_PREFIX := "Completing the update operation although the "
  const DETAILS_MIDDLE := " command may not be finished yet: commandId "

  /**
   * The details of the history error as the source formats them: the command id
   * fills the slot meant for the action name and the action name the slot meant
   * for the command id.
   */
  function NotFinishedDetailsAsWritten(commandId: string, actionName: string, switchId: string, commandCount: nat): string {
    DETAILS_PREFIX + commandId + DETAILS_MIDDLE + actionName + ", switch " + switchId
    + ", command count " + NatToString(commandCount)
  }

  /** The details of the history error with each argument in its own slot. */
  function NotFinishedDetails(commandId: string, actionName: string, switchId: string, commandCount: nat): string {
    DETAILS_PREFIX + actionName + DETAILS_MIDDLE + commandId + ", switch " + switchId
    + ", command count " + NatToString(commandCount)
  }

  /** The source's message is the intended one with command id and action name exchanged. */
  lemma AsWrittenExchangesCommandAndAction(commandId: string, actionName: string, switchId: string, commandCount: nat)
    ensures NotFinishedDetailsAsWritten(commandId, actionName, switchId, commandCount)
         == NotFinishedDetails(actionName, commandId, switchId, commandCount)
  {
  }

  /**
   * For a pending remove command "c-1", the source's message does not name the
   * remove action where the action belongs.
   */
  lemma AsWrittenMisnamesRemoveCommand()
    ensures var details := NotFinishedDetailsAsWritten("c-1", "remove", "sw-1", 2);
      |details| >= |DETAILS_PREFIX| + 6 && details[|DETAILS_PREFIX|..|DETAILS_PREFIX| + 6] != "remove"
  {
    var details := NotFinishedDetailsAsWritten("c-1", "remove", "sw-1", 2);
    assert details[|DETAILS_PREFIX|] == 'c';
    assert details[|DETAILS_PREFIX|..|DETAILS_PREFIX| + 6][0] == 'c';
  }

  /**
   * The corrected message names the action right after the fixed prefix and the
   * command id right after "commandId ".
   */
  lemma NotFinishedDetailsPlacesArguments(commandId: string, actionName: string, switchId: string, commandCount: nat)
    ensures var details := NotFinishedDetails(commandId, actionName, switchId, commandCount);
      var afterAction := |DETAILS_PREFIX| + |actionName|;
      var idStart := afterAction + |DETAILS_MIDDLE|;
      && |details| > idStart + |commandId|
      && details[..|DETAILS_PREFIX|] == DETAILS_PREFIX
      && details[|DETAILS_PREFIX|..afterAction] == actionName
      && details[afterAction..idStart] == DETAILS_MIDDLE
      && details[idStart..idStart + |commandId|] == commandId
  {
    var details := NotFinishedDetails(commandId, actionName, switchId, commandCount);
    var tail := ", switch " + switchId + ", command count " + NatToString(commandCount);
    assert details == DETAILS_PREFIX + actionName + DETAILS_MIDDLE + commandId + tail;
  }

  /**
   * The request of a pending command and the action it performs. A remove request
   * is looked up first; only without one is an install request looked up, in the
   * ingress commands and then in the non-ingress commands.
   */
  function RequestOf(removeCommands: map<string, SpeakerRequest>, ingressCommands: map<string, SpeakerRequest>,
                     nonIngressCommands: map<string, SpeakerRequest>, commandId: string): Option<(string, SpeakerRequest)> {
    if commandId in removeCommands then Some(("remove", removeCommands[commandId]))
    else if commandId in ingressCommands then Some(("install", ingressCommands[commandId]))
    else if commandId in nonIngressCommands then Some(("install", nonIngressCommands[commandId]))
    else None
  }

  /** The history error for one pending command; nothing when its request is unknown. */
  function RecordFor(removeCommands: map<string, SpeakerRequest>, ingressCommands: map<string, SpeakerRequest>,
                     nonIngressCommands: map<string, SpeakerRequest>, commandId: string): seq<HistoryRecord> {
    match RequestOf(removeCommands, ingressCommands, nonIngressCommands, commandId)
    case None => []
    case Some((actionName, request)) =>
      [HistoryError(ACTION_MESSAGE, Some(NotFinishedDetails(commandId, actionName, request.switchId, request.commandCount)))]
  }

  /** The history errors for the pending commands in the given order. */
  function AbandonRecords(removeCommands: map<string, SpeakerRequest>, ingressCommands: map<string, SpeakerRequest>,
                          nonIngressCommands: map<string, SpeakerRequest>, order: seq<string>): seq<HistoryRecord>
    decreases |order|
  {
    if order == [] then []
    else AbandonRecords(removeCommands, ingressCommands, nonIngressCommands, order[..|order| - 1])
         + RecordFor(removeCommands, ingressCommands, nonIngressCommands, order[|order| - 1])
  }

  /**
   * One error per pending command whose request is known and none for the others:
   * every record is a "Command is not finished yet" error, there are at most as
   * many as commands, and exactly as many when every request is known.
   */
  lemma {:induction false} AbandonRecordsCount(removeCommands: map<string, SpeakerRequest>,
                                               ingressCommands: map<string, SpeakerRequest>,
                                               nonIngressCommands: map<string, SpeakerRequest>, order: seq<string>)
    ensures var records := AbandonRecords(removeCommands, ingressCommands, nonIngressCommands, order);
      && |records| <= |order|
      && (forall r :: r in records ==> r.HistoryError? && r.action == ACTION_MESSAGE)
      && ((forall id :: id in order ==> RequestOf(removeCommands, ingressCommands, nonIngressCommands, id).Some?) ==>
            |records| == |order|)
    decreases |order|
  {
    if order != [] {
      var init := order[..|order| - 1];
      AbandonRecordsCount(removeCommands, ingressCommands, nonIngressCommands, init);
      assert forall id :: id in init ==> id in order;
    }
  }

  /** The ingress commands after the lookups: a non-ingress request is copied in for a command without one. */
  function IngressAfterLookups(removeCommands: map<string, SpeakerRequest>, ingressCommands: map<string, SpeakerRequest>,
                               nonIngressCommands: map<string, SpeakerRequest>, ids: set<string>): (r: map<string, SpeakerRequest>)
    ensures forall id :: id in ingressCommands ==> id in r && r[id] == ingressCommands[id]
    ensures forall id :: id in r && id !in ingressCommands ==>
      id in ids && id !in removeCommands && id in nonIngressCommands && r[id] == nonIngressCommands[id]
  {
    ingressCommands + map id | id in ids && id !in removeCommands && id !in ingressCommands && id in nonIngressCommands
                        :: nonIngressCommands[id]
  }

  /**
   * One more lookup extends the ingress commands the same way as the lookup
   * itself does, and finds the same request as with the ingress commands before
   * any lookup; a command looked up again changes nothing.
   */
  lemma LookupStep(removeCommands: map<string, SpeakerRequest>, ingressCommands: map<string, SpeakerRequest>,
                   nonIngressCommands: map<string, SpeakerRequest>, done: set<string>, commandId: string)
    ensures RequestOf(removeCommands, IngressAfterLookups(removeCommands, ingressCommands, nonIngressCommands, done),
                      nonIngressCommands, commandId)
            == RequestOf(removeCommands, ingressCommands, nonIngressCommands, commandId)
    ensures var current := IngressAfterLookups(removeCommands, ingressCommands, nonIngressCommands, done);
      IngressAfterLookups(removeCommands, ingressCommands, nonIngressCommands, done + {commandId})
      == if commandId !in removeCommands && commandId !in current && commandId in nonIngressCommands
         then current[commandId := nonIngressCommands[commandId]] else current
  {
    var current := IngressAfterLookups(removeCommands, ingressCommands, nonIngressCommands, done);
    var next := IngressAfterLookups(removeCommands, ingressCommands, nonIngressCommands, done + {commandId});
    var expected := if commandId !in removeCommands && commandId !in current && commandId in nonIngressCommands
                    then current[commandId := nonIngressCommands[commandId]] else current;
    assert next.Keys == expected.Keys;
  }

  /**
   * The lookup of one pending command's request: a remove request first, else an
   * install request from the ingress commands, where a missing one is first copied
   * in from the non-ingress commands (computeIfAbsent).
   */
  method LookUp(removeCommands: map<string, SpeakerRequest>, ingress: map<string, SpeakerRequest>,
                nonIngressCommands: map<string, SpeakerRequest>, commandId: string)
    returns (ingress': map<string, SpeakerRequest>, found: Option<(string, SpeakerRequest)>)
    ensures found == RequestOf(removeCommands, ingress, nonIngressCommands, commandId)
    ensures ingress' == if commandId !in removeCommands && commandId !in ingress && commandId in nonIngressCommands
                        then ingress[commandId := nonIngressCommands[commandId]] else ingress
  {
    ingress' := ingress;
    if commandId in removeCommands {
      found := Some(("remove", removeCommands[commandId]));
    } else {
      if commandId !in ingress' && commandId in nonIngressCommands {
        ingress' := ingress'[commandId := nonIngressCommands[commandId]];
      }
      found := if commandId in ingress' then Some(("install", ingress'[commandId])) else None;
    }
  }

  /** Records an error for each pending command, in the given order, whose request is found. */
  method RecordPendingCommands(saga: HaFlowUpdateFsm, order: seq<string>)
    modifies saga`history, saga`ingressCommands
    ensures saga.ingressCommands == IngressAfterLookups(saga.removeCommands, old(saga.ingressCommands),
                                                        saga.nonIngressCommands, set id | id in order)
    ensures saga.history == old(saga.history)
      + AbandonRecords(saga.removeCommands, old(saga.ingressCommands), saga.nonIngressCommands, order)
  {
    var removeCommands, nonIngressCommands := saga.removeCommands, saga.nonIngressCommands;
    var ingress0 := saga.ingressCommands;
    var ingress, history := ingress0, saga.history;
    for i := 0 to |order|
      invariant history == old(saga.history) + AbandonRecords(removeCommands, ingress0, nonIngressCommands, order[..i])
      invariant ingress == IngressAfterLookups(removeCommands, ingress0, nonIngressCommands, set j | 0 <= j < i :: order[j])
    {
      var commandId := order[i];
      ghost var done := set j | 0 <= j < i :: order[j];
      LookupStep(removeCommands, ingress0, nonIngressCommands, done, commandId);
      var found;
      ingress, found := LookUp(removeCommands, ingress, nonIngressCommands, commandId);
      if found.Some? {
        var (actionName, request) := found.value;
        history := history + [HistoryError(ACTION_MESSAGE,
          Some(NotFinishedDetails(commandId, actionName, request.switchId, request.commandCount)))];
      }
      assert order[..i + 1][..i] == order[..i];
      assert (set j | 0 <= j < i + 1 :: order[j]) == done + {commandId};
    }
    assert order[..|order|] == order;
    assert (set j | 0 <= j < |order| :: order[j]) == set id | id in order;
    saga.history, saga.ingressCommands := history, ingress;
  }

  /**
   * The action. The pending commands are visited in the order the saga's map hands
   * them out (given as order). Afterwards no command is pending; when only
   * endpoints are being updated the allocation is skipped by firing
   * UPDATE_ENDPOINT_RULES_ONLY.
   */
  method Perform(saga: HaFlowUpdateFsm, order: seq<string>)
    requires Enumerates(order, saga.pendingCommands.Keys)
    modifies saga`history, saga`ingressCommands, saga`pendingCommands, saga`firedEvents
    ensures saga.pendingCommands == map[]
    ensures saga.ingressCommands == IngressAfterLookups(saga.removeCommands, old(saga.ingressCommands),
                                                        saga.nonIngressCommands, old(saga.pendingCommands.Keys))
    ensures saga.history == old(saga.history)
      + AbandonRecords(saga.removeCommands, old(saga.ingressCommands), saga.nonIngressCommands, order)
      + (if saga.partialUpdateEndpoints != {} then [HistoryAction("Skip paths and resources allocation", None)] else [])
    ensures saga.firedEvents == old(saga.firedEvents)
      + (if saga.partialUpdateEndpoints != {} then [UPDATE_ENDPOINT_RULES_ONLY] else [])
  {
    RecordPendingCommands(saga, order);
    assert (set id | id in order) == old(saga.pendingCommands.Keys);
    saga.pendingCommands := map[];
    if saga.partialUpdateEndpoints != {} {
      saga.history := saga.history + [HistoryAction("Skip paths and resources allocation", None)];
      saga.firedEvents := saga.firedEvents + [UPDATE_ENDPOINT_RULES_ONLY];
    }
  }
}

// The HA-flow delete action that gives up waiting for speaker commands: every
// pending command leaves an error naming it and its switch in the history, and
// then no command is pending.

module HaDeleteHandleNotCompletedCommandsAction {
  import opened Wrappers
  import opened Enumeration
  import opened FlowModel

  /** The part of the HA-flow delete saga the action works on. */
  class HaFlowDeleteFsm {
    /** Pending speaker commands: command id to the switch it was sent to. */
    var pendingCommands: map<string, string>
    var history: seq<HistoryRecord>

    constructor (pendingCommands: map<string, string>)
      ensures this.pendingCommands == pendingCommands && history == []
    {
      this.pendingCommands := pendingCommands;
      history := [];
    }
  }

  const ACTION_MESSAGE := "Command is not finished yet"
  const DETAILS_PREFIX := "Completing the revert operation although the remove command may not be finished yet: commandId "

  /** The history error for one pending command sent to the given switch. */
  function AbandonRecord(commandId: string, switchId: string): (r: HistoryRecord)
    ensures r.HistoryError? && r.action == ACTION_MESSAGE && r.description.Some?
    ensures var details := r.description.value;
      && |details| >= |DETAILS_PREFIX| + |commandId| + |switchId|
      && details[..|DETAILS_PREFIX|] == DETAILS_PREFIX
      && details[|DETAILS_PREFIX|..|DETAILS_PREFIX| + |commandId|] == commandId
      && details[|details| - |switchId|..] == switchId
  {
    var details := DETAILS_PREFIX + commandId + ", switch " + switchId;
    assert details == DETAILS_PREFIX + commandId + (", switch " + switchId);
    assert details == (DETAILS_PREFIX + commandId + ", switch ") + switchId;
    HistoryError(ACTION_MESSAGE, Some(details))
  }

  /** The history errors for the pending commands visited in the given order. */
  function AbandonRecords(pending: map<string, string>, order: seq<string>): seq<HistoryRecord>
    requires forall id :: id in order ==> id in pending
    decreases |order|
  {
    if order == [] then []
    else AbandonRecords(pending, order[..|order| - 1]) + [AbandonRecord(order[|order| - 1], pending[order[|order| - 1]])]
  }

  /** One error per visited command, the i-th naming the i-th command and its switch. */
  lemma {:induction false} AbandonRecordsMatchCommands(pending: map<string, string>, order: seq<string>)
    requires forall id :: id in order ==> id in pending
    ensures |AbandonRecords(pending, order)| == |order|
    ensures forall i :: 0 <= i < |order| ==>
      AbandonRecords(pending, order)[i] == AbandonRecord(order[i], pending[order[i]])
    decreases |order|
  {
    if order != [] {
      var prev := order[..|order| - 1];
      AbandonRecordsMatchCommands(pending, prev);
      var records := AbandonRecords(pending, prev) + [AbandonRecord(order[|order| - 1], pending[order[|order| - 1]])];
      assert AbandonRecords(pending, order) == records;
      forall i | 0 <= i < |order|
        ensures records[i] == AbandonRecord(order[i], pending[order[i]])
      {
        if i < |prev| {
          assert order[i] == prev[i];
        }
      }
    }
  }

  /** When the order enumerates the pending commands, there are as many errors as pending commands. */
  lemma AbandonRecordsCount(pending: map<string, string>, order: seq<string>)
    requires Enumerates(order, pending.Keys)
    ensures |AbandonRecords(pending, order)| == |pending|
  {
    AbandonRecordsMatchCommands(pending, order);
    EnumerationSize(order, pending.Keys);
  }

  /**
   * The action. The pending commands are visited in the order the saga's map hands
   * them out (given as order); afterwards no command is pending. No event is fired.
   */
  method Perform(saga: HaFlowDeleteFsm, order: seq<string>)
    requires Enumerates(order, saga.pendingCommands.Keys)
    modifies saga
    ensures saga.pendingCommands == map[]
    ensures saga.history == old(saga.history) + AbandonRecords(old(saga.pendingCommands), order)
  {
    for i := 0 to |order|
      invariant saga.pendingCommands == old(saga.pendingCommands)
      invariant saga.history == old(saga.history) + AbandonRecords(saga.pendingCommands, order[..i])
    {
      assert order[..i + 1][..i] == order[..i];
      saga.history := saga.history + [AbandonRecord(order[i], saga.pendingCommands[order[i]])];
    }
    assert order[..|order|] == order;
    saga.pendingCommands := map[];
  }
}

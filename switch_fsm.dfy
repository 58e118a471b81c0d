// The switch discovery state machine: a five-state lifecycle, and the port map
// it keeps, which the SETUP entry reconciles against the ports a speaker reports
// (stale and re-kinded ports are deleted, new and re-kinded ones added), with
// each port classified as physical or logical-BFD by its number.

module SwitchFsm {
  import opened Wrappers
  import opened Enumeration

  datatype SwitchFsmState = INIT | OFFLINE | ONLINE | SETUP | DELETED

  datatype SwitchFsmEvent =
    | NEXT | HISTORY | ONLINE | OFFLINE
    | PORT_ADD | PORT_DEL | PORT_UP | SWITCH_REMOVE | PORT_DOWN

  /** The events handled inside ONLINE without leaving it. */
  predicate IsPortEvent(e: SwitchFsmEvent) {
    e == PORT_ADD || e == PORT_DEL || e == PORT_UP || e == PORT_DOWN
  }

  /** The transition table; none for a pair it does not define. */
  function Step(s: SwitchFsmState, e: SwitchFsmEvent): (r: Option<SwitchFsmState>)
    ensures r.Some? ==> r.value != INIT
    ensures s == DELETED ==> r.None?
  {
    if s == INIT && e == HISTORY then Some(SwitchFsmState.OFFLINE)
    else if s == INIT && e == SwitchFsmEvent.ONLINE then Some(SETUP)
    else if s == SETUP && e == NEXT then Some(SwitchFsmState.ONLINE)
    else if s == SwitchFsmState.ONLINE && e == SwitchFsmEvent.OFFLINE then Some(SwitchFsmState.OFFLINE)
    else if s == SwitchFsmState.ONLINE && IsPortEvent(e) then Some(SwitchFsmState.ONLINE)
    else if s == SwitchFsmState.OFFLINE && e == SwitchFsmEvent.ONLINE then Some(SETUP)
    else if s == SwitchFsmState.OFFLINE && e == SWITCH_REMOVE then Some(DELETED)
    else None
  }

  /** Port events are handled only while ONLINE, and leave the machine there. */
  lemma PortEventsOnlyWhileOnline(s: SwitchFsmState, e: SwitchFsmEvent)
    requires IsPortEvent(e)
    ensures Step(s, e) == if s == SwitchFsmState.ONLINE then Some(SwitchFsmState.ONLINE) else None
  {
  }

  /** SETUP is entered exactly when a switch that is new or offline comes online. */
  lemma SetupEnteredOnOnline(s: SwitchFsmState, e: SwitchFsmEvent)
    ensures Step(s, e) == Some(SETUP) <==>
      e == SwitchFsmEvent.ONLINE && (s == INIT || s == SwitchFsmState.OFFLINE)
  {
  }

  /** ONLINE is entered from outside only when SETUP completes. */
  lemma OnlineEnteredFromSetup(s: SwitchFsmState, e: SwitchFsmEvent)
    ensures (Step(s, e) == Some(SwitchFsmState.ONLINE) && s != SwitchFsmState.ONLINE) <==>
      (s == SETUP && e == NEXT)
  {
  }

  /** OFFLINE is entered from history replay or when an online switch goes away. */
  lemma OfflineEntered(s: SwitchFsmState, e: SwitchFsmEvent)
    ensures Step(s, e) == Some(SwitchFsmState.OFFLINE) <==>
      (s == INIT && e == HISTORY) || (s == SwitchFsmState.ONLINE && e == SwitchFsmEvent.OFFLINE)
  {
  }

  /** Only an offline switch can be removed, and a removed switch takes no event. */
  lemma DeletedIsFinal(s: SwitchFsmState, e: SwitchFsmEvent)
    ensures Step(s, e) == Some(DELETED) <==> s == SwitchFsmState.OFFLINE && e == SWITCH_REMOVE
    ensures Step(DELETED, e) == None
  {
  }

  // ---- Ports -------------------------------------------------------------------

  datatype Feature = BFD | OtherFeature(name: string)
  datatype LinkStatus = UP | DOWN
  /** The two kinds of port known: physical, and logical-BFD with its logical number. */
  datatype PortKind = Physical | LogicalBfd(logicalPortNumber: int)
  /** A link recorded in the history, leaving the switch at its source port. */
  datatype Isl = Isl(srcPort: int, dstSwitch: string, dstPort: int)
  datatype Port = Port(portNumber: int, kind: PortKind, linkStatus: Option<LinkStatus>, history: Option<Isl>)
  datatype SpeakerPort = SpeakerPort(number: int, state: LinkStatus)
  /** What the speaker reports about a switch coming online. */
  datatype SpeakerSwitchView = SpeakerSwitchView(features: set<Feature>, ports: seq<SpeakerPort>)
  /** A call made on the output carrier, with the port as it was at the call. */
  datatype PortOutput =
    | PortAdded(port: Port)
    | PortDeleted(port: Port)
    | OnlineStatus(port: Port, online: bool)
    | PortLinkMode(port: Port)
  datatype SwitchStatus = ACTIVE | INACTIVE

  /** With BFD only numbers below the offset are physical; without it, every port is. */
  predicate IsPhysicalPort(features: set<Feature>, offset: int, number: int) {
    BFD in features ==> number < offset
  }

  /** A fresh record for a port number: physical, or logical-BFD numbered from the offset. */
  function MakePortRecord(features: set<Feature>, offset: int, number: int): (r: Port)
    ensures r.portNumber == number && r.linkStatus == None && r.history == None
    ensures r.kind.Physical? <==> (BFD !in features || number < offset)
    ensures r.kind.LogicalBfd? ==> r.kind.logicalPortNumber == number - offset
  {
    if IsPhysicalPort(features, offset, number) then Port(number, Physical, None, None)
    else Port(number, LogicalBfd(number - offset), None, None)
  }

  /** The record for a port the speaker reports, carrying its link status. */
  function ActualPort(features: set<Feature>, offset: int, sp: SpeakerPort): Port {
    MakePortRecord(features, offset, sp.number).(linkStatus := Some(sp.state))
  }

  predicate SameKind(a: Port, b: Port) {
    a.kind.Physical? == b.kind.Physical?
  }

  /** Every port is stored under its own number, and a logical-BFD one is numbered from the offset. */
  predicate PortsWellFormed(ports: map<int, Port>, offset: int) {
    forall k :: k in ports ==>
      ports[k].portNumber == k &&
      (ports[k].kind.LogicalBfd? ==> ports[k].kind.logicalPortNumber == k - offset)
  }

  function SpeakerNumbers(ports: seq<SpeakerPort>): set<int>
    decreases |ports|
  {
    if ports == [] then {} else SpeakerNumbers(ports[..|ports| - 1]) + {ports[|ports| - 1].number}
  }

  function PortNumbers(ports: seq<Port>): set<int>
    decreases |ports|
  {
    if ports == [] then {} else PortNumbers(ports[..|ports| - 1]) + {ports[|ports| - 1].portNumber}
  }

  /** A stored port is kept when the speaker reports its number and its kind is unchanged. */
  predicate KeepsNumber(stored: map<int, Port>, features: set<Feature>, offset: int, number: int) {
    number in stored && SameKind(stored[number], MakePortRecord(features, offset, number))
  }

  /** The stored ports to delete: not reported, or reported with another kind. */
  function RemovedNumbers(stored: map<int, Port>, features: set<Feature>, offset: int,
                          ports: seq<SpeakerPort>): set<int>
  {
    set k | k in stored && !(k in SpeakerNumbers(ports) && KeepsNumber(stored, features, offset, k))
  }

  /** The stored ports that stay as they are. */
  function KeptPorts(stored: map<int, Port>, features: set<Feature>, offset: int,
                     ports: seq<SpeakerPort>): map<int, Port>
  {
    map k | k in stored && k in SpeakerNumbers(ports) && KeepsNumber(stored, features, offset, k) :: stored[k]
  }

  /** The records to add, in report order: ports new to the map or of a changed kind. */
  function AddedPorts(stored: map<int, Port>, features: set<Feature>, offset: int,
                      ports: seq<SpeakerPort>): seq<Port>
    decreases |ports|
  {
    if ports == [] then []
    else
      var sp := ports[|ports| - 1];
      AddedPorts(stored, features, offset, ports[..|ports| - 1])
      + (if KeepsNumber(stored, features, offset, sp.number) then [] else [ActualPort(features, offset, sp)])
  }

  /** The records of the reported ports in the given link status, in report order. */
  function LinkPorts(features: set<Feature>, offset: int, ports: seq<SpeakerPort>, status: LinkStatus): seq<Port>
    decreases |ports|
  {
    if ports == [] then []
    else
      var sp := ports[|ports| - 1];
      LinkPorts(features, offset, ports[..|ports| - 1], status)
      + (if sp.state == status then [ActualPort(features, offset, sp)] else [])
  }

  /** The stored ports left to delete after visiting the reported ports in order. */
  function LocatedRemovals(stored: map<int, Port>, features: set<Feature>, offset: int,
                           ports: seq<SpeakerPort>): map<int, Port>
    decreases |ports|
  {
    if ports == [] then stored
    else
      var sp := ports[|ports| - 1];
      var r := LocatedRemovals(stored, features, offset, ports[..|ports| - 1]);
      if KeepsNumber(stored, features, offset, sp.number) then r - {sp.number} else r
  }

  /** The map after putting each port under its number, in order. */
  function AddAll(m: map<int, Port>, ports: seq<Port>): map<int, Port>
    decreases |ports|
  {
    if ports == [] then m
    else
      var p := ports[|ports| - 1];
      AddAll(m, ports[..|ports| - 1])[p.portNumber := p]
  }

  /** The map after removing the given numbers, in order. */
  function RemoveAll(m: map<int, Port>, order: seq<int>): map<int, Port>
    decreases |order|
  {
    if order == [] then m else RemoveAll(m, order[..|order| - 1]) - {order[|order| - 1]}
  }

  /** The port map after SETUP: the kept ports, then the added ones put over them. */
  function SetupPorts(stored: map<int, Port>, features: set<Feature>, offset: int,
                      ports: seq<SpeakerPort>): map<int, Port>
  {
    AddAll(KeptPorts(stored, features, offset, ports), AddedPorts(stored, features, offset, ports))
  }

  function Deletions(m: map<int, Port>, order: seq<int>): seq<PortOutput>
    requires forall i :: 0 <= i < |order| ==> order[i] in m
    decreases |order|
  {
    if order == [] then [] else Deletions(m, order[..|order| - 1]) + [PortDeleted(m[order[|order| - 1]])]
  }

  function Additions(ports: seq<Port>): seq<PortOutput>
    decreases |ports|
  {
    if ports == [] then [] else Additions(ports[..|ports| - 1]) + [PortAdded(ports[|ports| - 1])]
  }

  function OnlineStatuses(m: map<int, Port>, order: seq<int>, online: bool): seq<PortOutput>
    requires forall i :: 0 <= i < |order| ==> order[i] in m
    decreases |order|
  {
    if order == [] then []
    else OnlineStatuses(m, order[..|order| - 1], online) + [OnlineStatus(m[order[|order| - 1]], online)]
  }

  function LinkModes(ports: seq<Port>): seq<PortOutput>
    decreases |ports|
  {
    if ports == [] then [] else LinkModes(ports[..|ports| - 1]) + [PortLinkMode(ports[|ports| - 1])]
  }

  /** The orders name ports of the stored map and of the map after SETUP respectively. */
  predicate SetupOutputsDefined(stored: map<int, Port>, speaker: SpeakerSwitchView, offset: int,
                                removalOrder: seq<int>, onlineOrder: seq<int>)
  {
    && (forall i :: 0 <= i < |removalOrder| ==> removalOrder[i] in stored)
    && (forall i :: 0 <= i < |onlineOrder| ==> onlineOrder[i] in SetupPorts(stored, speaker.features, offset, speaker.ports))
  }

  /**
   * The carrier calls of SETUP: deletions in the order the removed ports are handed
   * out, additions in report order, "online" for every port of the new map, then
   * the link modes of the reported ports, DOWN ones before UP ones.
   */
  function SetupOutputs(stored: map<int, Port>, speaker: SpeakerSwitchView, offset: int,
                        removalOrder: seq<int>, onlineOrder: seq<int>): seq<PortOutput>
    requires SetupOutputsDefined(stored, speaker, offset, removalOrder, onlineOrder)
  {
    Deletions(stored, removalOrder)
    + Additions(AddedPorts(stored, speaker.features, offset, speaker.ports))
    + OnlineStatuses(SetupPorts(stored, speaker.features, offset, speaker.ports), onlineOrder, true)
    + LinkModes(LinkPorts(speaker.features, offset, speaker.ports, DOWN))
    + LinkModes(LinkPorts(speaker.features, offset, speaker.ports, UP))
  }

  // ---- Lemmas about the reconciliation -------------------------------------------

  lemma {:induction false} SpeakerNumbersMembers(ports: seq<SpeakerPort>, n: int)
    ensures n in SpeakerNumbers(ports) <==> exists i :: 0 <= i < |ports| && ports[i].number == n
    decreases |ports|
  {
    if ports != [] {
      var init := ports[..|ports| - 1];
      SpeakerNumbersMembers(init, n);
      if exists i :: 0 <= i < |init| && init[i].number == n {
        var i :| 0 <= i < |init| && init[i].number == n;
        assert ports[i].number == n;
      }
      if exists i :: 0 <= i < |ports| && ports[i].number == n {
        var i :| 0 <= i < |ports| && ports[i].number == n;
        if i < |init| {
          assert init[i].number == n;
        }
      }
    }
  }

  /** Putting ports into a map: their numbers join the keys; other entries stay. */
  lemma {:induction false} AddAllSpec(m: map<int, Port>, ports: seq<Port>)
    ensures AddAll(m, ports).Keys == m.Keys + PortNumbers(ports)
    ensures forall k :: k in AddAll(m, ports) && k !in PortNumbers(ports) ==> AddAll(m, ports)[k] == m[k]
    ensures forall k :: k in PortNumbers(ports) ==>
      AddAll(m, ports)[k] in ports && AddAll(m, ports)[k].portNumber == k
    decreases |ports|
  {
    if ports != [] {
      var init := ports[..|ports| - 1];
      AddAllSpec(m, init);
      forall k | k in PortNumbers(ports)
        ensures AddAll(m, ports)[k] in ports && AddAll(m, ports)[k].portNumber == k
      {
        if k != ports[|ports| - 1].portNumber {
          var q := AddAll(m, init)[k];
          assert q in init;
          var j :| 0 <= j < |init| && init[j] == q;
          assert ports[j] == q;
        }
      }
    }
  }

  /** Removing numbers from a map: exactly those keys go; other entries stay. */
  lemma {:induction false} RemoveAllSpec(m: map<int, Port>, order: seq<int>)
    ensures RemoveAll(m, order).Keys == m.Keys - (set k | k in order)
    ensures forall k :: k in RemoveAll(m, order) ==> RemoveAll(m, order)[k] == m[k]
    decreases |order|
  {
    if order != [] {
      var init := order[..|order| - 1];
      RemoveAllSpec(m, init);
      assert order == init + [order[|order| - 1]];
      assert (set k | k in order) == (set k | k in init) + {order[|order| - 1]};
    }
  }

  /** The added records: fresh records of the reported ports that are not kept, in their new kind. */
  lemma {:induction false} AddedPortsSpec(stored: map<int, Port>, features: set<Feature>, offset: int,
                                          ports: seq<SpeakerPort>)
    ensures PortNumbers(AddedPorts(stored, features, offset, ports)) ==
      set n | n in SpeakerNumbers(ports) && !KeepsNumber(stored, features, offset, n)
    ensures forall p :: p in AddedPorts(stored, features, offset, ports) ==>
      p.kind == MakePortRecord(features, offset, p.portNumber).kind && p.history == None && p.linkStatus.Some?
    decreases |ports|
  {
    if ports != [] {
      var init := ports[..|ports| - 1];
      AddedPortsSpec(stored, features, offset, init);
      var sp := ports[|ports| - 1];
      var a := AddedPorts(stored, features, offset, init);
      if KeepsNumber(stored, features, offset, sp.number) {
        assert AddedPorts(stored, features, offset, ports) == a;
      } else {
        var b := AddedPorts(stored, features, offset, ports);
        assert b == a + [ActualPort(features, offset, sp)];
        assert b[..|b| - 1] == a;
        forall p | p in b
          ensures p.kind == MakePortRecord(features, offset, p.portNumber).kind && p.history == None && p.linkStatus.Some?
        {
          if p != ActualPort(features, offset, sp) {
            assert p in a;
          }
        }
      }
    }
  }

  /** The loop's removals are the stored ports of RemovedNumbers, unchanged. */
  lemma {:induction false} LocatedRemovalsSpec(stored: map<int, Port>, features: set<Feature>, offset: int,
                                               ports: seq<SpeakerPort>)
    ensures LocatedRemovals(stored, features, offset, ports).Keys == RemovedNumbers(stored, features, offset, ports)
    ensures forall k :: k in LocatedRemovals(stored, features, offset, ports) ==>
      LocatedRemovals(stored, features, offset, ports)[k] == stored[k]
    decreases |ports|
  {
    if ports != [] {
      var init := ports[..|ports| - 1];
      LocatedRemovalsSpec(stored, features, offset, init);
      var sp := ports[|ports| - 1];
      assert SpeakerNumbers(ports) == SpeakerNumbers(init) + {sp.number};
      if KeepsNumber(stored, features, offset, sp.number) {
        assert RemovedNumbers(stored, features, offset, ports) ==
          RemovedNumbers(stored, features, offset, init) - {sp.number};
      } else {
        assert RemovedNumbers(stored, features, offset, ports) == RemovedNumbers(stored, features, offset, init);
      }
    }
  }

  /** Deleting the removed ports from the stored map leaves exactly the kept ones. */
  lemma RemovingRemovedLeavesKept(stored: map<int, Port>, features: set<Feature>, offset: int,
                                  ports: seq<SpeakerPort>, removalOrder: seq<int>)
    requires Enumerates(removalOrder, RemovedNumbers(stored, features, offset, ports))
    ensures RemoveAll(stored, removalOrder) == KeptPorts(stored, features, offset, ports)
  {
    RemoveAllSpec(stored, removalOrder);
    var r := RemoveAll(stored, removalOrder);
    var kept := KeptPorts(stored, features, offset, ports);
    assert (set k | k in removalOrder) == RemovedNumbers(stored, features, offset, ports);
    assert r.Keys == kept.Keys;
  }

  /**
   * After SETUP the map holds exactly the reported port numbers, each under its own
   * number and of the kind its number has under the reported features; a kept port
   * is the stored record unchanged, every other one a fresh record.
   */
  lemma SetupPortsSpec(stored: map<int, Port>, features: set<Feature>, offset: int, ports: seq<SpeakerPort>)
    requires PortsWellFormed(stored, offset)
    ensures SetupPorts(stored, features, offset, ports).Keys == SpeakerNumbers(ports)
    ensures forall k :: k in SetupPorts(stored, features, offset, ports) ==>
      SetupPorts(stored, features, offset, ports)[k].portNumber == k &&
      SetupPorts(stored, features, offset, ports)[k].kind == MakePortRecord(features, offset, k).kind
    ensures forall k :: k in SpeakerNumbers(ports) && KeepsNumber(stored, features, offset, k) ==>
      SetupPorts(stored, features, offset, ports)[k] == stored[k]
    ensures forall k :: k in SpeakerNumbers(ports) && !KeepsNumber(stored, features, offset, k) ==>
      SetupPorts(stored, features, offset, ports)[k].history == None &&
      SetupPorts(stored, features, offset, ports)[k].linkStatus.Some?
    ensures PortsWellFormed(SetupPorts(stored, features, offset, ports), offset)
  {
    var kept := KeptPorts(stored, features, offset, ports);
    var added := AddedPorts(stored, features, offset, ports);
    var r := SetupPorts(stored, features, offset, ports);
    AddAllSpec(kept, added);
    AddedPortsSpec(stored, features, offset, ports);
    assert r.Keys == SpeakerNumbers(ports);
    forall k | k in r
      ensures r[k].portNumber == k && r[k].kind == MakePortRecord(features, offset, k).kind
    {
      if k !in PortNumbers(added) {
        assert r[k] == stored[k];
      }
    }
  }

  /** A reported port whose kind changed is both deleted and re-added in its new kind. */
  lemma KindChangeRecreatesPort(stored: map<int, Port>, features: set<Feature>, offset: int,
                                ports: seq<SpeakerPort>, k: int)
    requires PortsWellFormed(stored, offset)
    requires k in stored && k in SpeakerNumbers(ports)
    requires !SameKind(stored[k], MakePortRecord(features, offset, k))
    ensures k in RemovedNumbers(stored, features, offset, ports)
    ensures k in PortNumbers(AddedPorts(stored, features, offset, ports))
    ensures k in SetupPorts(stored, features, offset, ports) &&
      !SameKind(SetupPorts(stored, features, offset, ports)[k], stored[k])
  {
    AddedPortsSpec(stored, features, offset, ports);
    SetupPortsSpec(stored, features, offset, ports);
  }

  /** An output's place in the SETUP sequence: deletions, additions, statuses, link modes. */
  function OutputRank(o: PortOutput): nat {
    match o
    case PortDeleted(_) => 0
    case PortAdded(_) => 1
    case OnlineStatus(_, _) => 2
    case PortLinkMode(_) => 3
  }

  predicate RankSorted(s: seq<PortOutput>) {
    forall i, j :: 0 <= i < j < |s| ==> OutputRank(s[i]) <= OutputRank(s[j])
  }

  predicate AllOfRank(s: seq<PortOutput>, rank: nat) {
    forall i :: 0 <= i < |s| ==> OutputRank(s[i]) == rank
  }

  lemma ConcatSorted(a: seq<PortOutput>, b: seq<PortOutput>, rank: nat)
    requires RankSorted(a) && AllOfRank(b, rank)
    requires forall i :: 0 <= i < |a| ==> OutputRank(a[i]) <= rank
    ensures RankSorted(a + b)
    ensures forall i :: 0 <= i < |a + b| ==> OutputRank((a + b)[i]) <= rank
  {
  }

  lemma {:induction false} DeletionsRank(m: map<int, Port>, order: seq<int>)
    requires forall i :: 0 <= i < |order| ==> order[i] in m
    ensures |Deletions(m, order)| == |order| && AllOfRank(Deletions(m, order), 0)
    decreases |order|
  {
    if order != [] {
      DeletionsRank(m, order[..|order| - 1]);
    }
  }

  lemma {:induction false} AdditionsRank(ports: seq<Port>)
    ensures |Additions(ports)| == |ports| && AllOfRank(Additions(ports), 1)
    decreases |ports|
  {
    if ports != [] {
      AdditionsRank(ports[..|ports| - 1]);
    }
  }

  lemma {:induction false} OnlineStatusesRank(m: map<int, Port>, order: seq<int>, online: bool)
    requires forall i :: 0 <= i < |order| ==> order[i] in m
    ensures |OnlineStatuses(m, order, online)| == |order| && AllOfRank(OnlineStatuses(m, order, online), 2)
    decreases |order|
  {
    if order != [] {
      OnlineStatusesRank(m, order[..|order| - 1], online);
    }
  }

  lemma {:induction false} LinkModesRank(ports: seq<Port>)
    ensures |LinkModes(ports)| == |ports| && AllOfRank(LinkModes(ports), 3)
    decreases |ports|
  {
    if ports != [] {
      LinkModesRank(ports[..|ports| - 1]);
    }
  }

  /**
   * SETUP emits every deletion before any addition, every addition before the
   * online statuses, and those before the link modes.
   */
  lemma SetupDeletesBeforeAdding(stored: map<int, Port>, speaker: SpeakerSwitchView, offset: int,
                                 removalOrder: seq<int>, onlineOrder: seq<int>)
    requires SetupOutputsDefined(stored, speaker, offset, removalOrder, onlineOrder)
    ensures RankSorted(SetupOutputs(stored, speaker, offset, removalOrder, onlineOrder))
  {
    var f, ps := speaker.features, speaker.ports;
    var d := Deletions(stored, removalOrder);
    var a := Additions(AddedPorts(stored, f, offset, ps));
    var o := OnlineStatuses(SetupPorts(stored, f, offset, ps), onlineOrder, true);
    var l1 := LinkModes(LinkPorts(f, offset, ps, DOWN));
    var l2 := LinkModes(LinkPorts(f, offset, ps, UP));
    DeletionsRank(stored, removalOrder);
    AdditionsRank(AddedPorts(stored, f, offset, ps));
    OnlineStatusesRank(SetupPorts(stored, f, offset, ps), onlineOrder, true);
    LinkModesRank(LinkPorts(f, offset, ps, DOWN));
    LinkModesRank(LinkPorts(f, offset, ps, UP));
    ConcatSorted([], d, 0);
    assert [] + d == d;
    ConcatSorted(d, a, 1);
    ConcatSorted(d + a, o, 2);
    ConcatSorted(d + a + o, l1, 3);
    ConcatSorted(d + a + o + l1, l2, 3);
  }

  /** History replay adds a physical port carrying each outgoing link, at its source port. */
  function HistoryPorts(links: seq<Isl>): (r: seq<Port>)
    ensures |r| == |links|
    ensures forall i :: 0 <= i < |links| ==>
      r[i] == Port(links[i].srcPort, Physical, None, Some(links[i]))
    decreases |links|
  {
    if links == [] then []
    else
      var l := links[|links| - 1];
      HistoryPorts(links[..|links| - 1]) + [Port(l.srcPort, Physical, None, Some(l))]
  }

  // ---- The machine -------------------------------------------------------------

  class SwitchFsm {
    const switchId: string
    const bfdLogicalPortOffset: int
    var state: SwitchFsmState
    var features: set<Feature>
    var portByNumber: map<int, Port>
    /** The calls made on the output carrier, in order. */
    var outputs: seq<PortOutput>
    /** The status in the switch's stored record; none while no record exists. */
    var persistedStatus: Option<SwitchStatus>

    ghost predicate Valid()
      reads this
    {
      PortsWellFormed(portByNumber, bfdLogicalPortOffset)
    }

    constructor (switchId: string, bfdLogicalPortOffset: int, persistedStatus: Option<SwitchStatus>)
      ensures this.switchId == switchId && this.bfdLogicalPortOffset == bfdLogicalPortOffset
      ensures this.persistedStatus == persistedStatus
      ensures state == INIT && features == {} && portByNumber == map[] && outputs == []
      ensures Valid()
    {
      this.switchId := switchId;
      this.bfdLogicalPortOffset := bfdLogicalPortOffset;
      this.persistedStatus := persistedStatus;
      state := INIT;
      features := {};
      portByNumber := map[];
      outputs := [];
    }

    /** Fires an event: a pair the table does not define is declined and changes nothing. */
    method Fire(e: SwitchFsmEvent) returns (accepted: bool)
      modifies this`state
      ensures accepted == Step(old(state), e).Some?
      ensures state == if accepted then Step(old(state), e).value else old(state)
    {
      var next := Step(state, e);
      accepted := next.Some?;
      if accepted {
        state := next.value;
      }
    }

    /** Puts each port under its number and announces it, in order. */
    method AddPorts(ports: seq<Port>)
      modifies this`portByNumber, this`outputs
      ensures portByNumber == AddAll(old(portByNumber), ports)
      ensures outputs == old(outputs) + Additions(ports)
    {
      for i := 0 to |ports|
        invariant portByNumber == AddAll(old(portByNumber), ports[..i])
        invariant outputs == old(outputs) + Additions(ports[..i])
      {
        assert ports[..i + 1][..i] == ports[..i];
        portByNumber := portByNumber[ports[i].portNumber := ports[i]];
        outputs := outputs + [PortAdded(ports[i])];
      }
      assert ports[..|ports|] == ports;
    }

    /** Removes the ports of the snapshot in the given order, announcing each deletion. */
    method DeletePorts(snapshot: map<int, Port>, order: seq<int>)
      requires forall i :: 0 <= i < |order| ==> order[i] in snapshot
      requires forall k :: k in snapshot ==> snapshot[k].portNumber == k
      modifies this`portByNumber, this`outputs
      ensures portByNumber == RemoveAll(old(portByNumber), order)
      ensures outputs == old(outputs) + Deletions(snapshot, order)
    {
      for i := 0 to |order|
        invariant portByNumber == RemoveAll(old(portByNumber), order[..i])
        invariant outputs == old(outputs) + Deletions(snapshot, order[..i])
      {
        assert order[..i + 1][..i] == order[..i] && order[..i + 1][i] == order[i];
        var port := snapshot[order[i]];
        assert port.portNumber == order[i];
        portByNumber := portByNumber - {port.portNumber};
        outputs := outputs + [PortDeleted(port)];
      }
      assert order[..|order|] == order;
    }

    /** Announces the online mode of each port in the given order. */
    method EmitOnlineStatus(order: seq<int>, online: bool)
      requires forall i :: 0 <= i < |order| ==> order[i] in portByNumber
      modifies this`outputs
      ensures outputs == old(outputs) + OnlineStatuses(portByNumber, order, online)
    {
      for i := 0 to |order|
        invariant outputs == old(outputs) + OnlineStatuses(portByNumber, order[..i], online)
      {
        assert order[..i + 1][..i] == order[..i];
        outputs := outputs + [OnlineStatus(portByNumber[order[i]], online)];
      }
      assert order[..|order|] == order;
    }

    /** Announces the link mode of each port, in order. */
    method EmitLinkModes(ports: seq<Port>)
      modifies this`outputs
      ensures outputs == old(outputs) + LinkModes(ports)
    {
      for i := 0 to |ports|
        invariant outputs == old(outputs) + LinkModes(ports[..i])
      {
        assert ports[..i + 1][..i] == ports[..i];
        outputs := outputs + [PortLinkMode(ports[i])];
      }
      assert ports[..|ports|] == ports;
    }

    /**
     * Walks the reported ports: a kept port is struck from the removals, every
     * other one is to be added, and each is listed by its link status.
     */
    method LocateChanges(ports: seq<SpeakerPort>)
      returns (removed: map<int, Port>, added: seq<Port>, up: seq<Port>, down: seq<Port>)
      ensures removed == LocatedRemovals(portByNumber, features, bfdLogicalPortOffset, ports)
      ensures added == AddedPorts(portByNumber, features, bfdLogicalPortOffset, ports)
      ensures up == LinkPorts(features, bfdLogicalPortOffset, ports, UP)
      ensures down == LinkPorts(features, bfdLogicalPortOffset, ports, DOWN)
    {
      removed, added, up, down := portByNumber, [], [], [];
      for i := 0 to |ports|
        invariant removed == LocatedRemovals(portByNumber, features, bfdLogicalPortOffset, ports[..i])
        invariant added == AddedPorts(portByNumber, features, bfdLogicalPortOffset, ports[..i])
        invariant up == LinkPorts(features, bfdLogicalPortOffset, ports[..i], UP)
        invariant down == LinkPorts(features, bfdLogicalPortOffset, ports[..i], DOWN)
      {
        assert ports[..i + 1][..i] == ports[..i];
        var actualPort := ActualPort(features, bfdLogicalPortOffset, ports[i]);
        var number := ports[i].number;
        if number !in portByNumber || !SameKind(portByNumber[number], actualPort) {
          added := added + [actualPort];
        } else {
          removed := removed - {number};
        }
        match ports[i].state
        case UP => up := up + [actualPort];
        case DOWN => down := down + [actualPort];
      }
      assert ports[..|ports|] == ports;
    }

    /**
     * SETUP entry: takes the reported features, deletes the stored ports that are
     * gone or changed kind (in the order the map hands them out, removalOrder),
     * adds the new and re-kinded ones, reports every port of the new map online
     * (in onlineOrder), then the link modes of the reported ports.
     */
    method SetupEnter(speaker: SpeakerSwitchView, removalOrder: seq<int>, onlineOrder: seq<int>)
      requires Valid()
      requires Enumerates(removalOrder, RemovedNumbers(portByNumber, speaker.features, bfdLogicalPortOffset, speaker.ports))
      requires Enumerates(onlineOrder, SpeakerNumbers(speaker.ports))
      modifies this`features, this`portByNumber, this`outputs
      ensures Valid()
      ensures features == speaker.features
      ensures portByNumber == SetupPorts(old(portByNumber), speaker.features, bfdLogicalPortOffset, speaker.ports)
      ensures portByNumber.Keys == SpeakerNumbers(speaker.ports)
      ensures SetupOutputsDefined(old(portByNumber), speaker, bfdLogicalPortOffset, removalOrder, onlineOrder)
      ensures outputs == old(outputs) +
        SetupOutputs(old(portByNumber), speaker, bfdLogicalPortOffset, removalOrder, onlineOrder)
    {
      var stored, before := portByNumber, outputs;
      var offset := bfdLogicalPortOffset;
      var f, ps := speaker.features, speaker.ports;
      features := f;
      var removed, added, up, down := LocateChanges(ps);
      LocatedRemovalsSpec(stored, f, offset, ps);
      DeletePorts(removed, removalOrder);
      ghost var deleted := outputs;
      RemovingRemovedLeavesKept(stored, f, offset, ps, removalOrder);
      AddPorts(added);
      ghost var addedOut := outputs;
      SetupPortsSpec(stored, f, offset, ps);
      assert SetupOutputsDefined(stored, speaker, offset, removalOrder, onlineOrder);
      EmitOnlineStatus(onlineOrder, true);
      ghost var onlineOut := outputs;
      EmitLinkModes(down);
      EmitLinkModes(up);
      DeletionsAgree(removed, stored, removalOrder);
      assert deleted == before + Deletions(stored, removalOrder);
      assert addedOut == deleted + Additions(AddedPorts(stored, f, offset, ps));
      assert onlineOut == addedOut + OnlineStatuses(SetupPorts(stored, f, offset, ps), onlineOrder, true);
      AppendFive(before, Deletions(stored, removalOrder), Additions(AddedPorts(stored, f, offset, ps)),
                 OnlineStatuses(SetupPorts(stored, f, offset, ps), onlineOrder, true), LinkModes(down), LinkModes(up));
    }

    /** ONLINE entry: the stored record, created when missing, becomes ACTIVE. */
    method OnlineEnter()
      modifies this`persistedStatus
      ensures persistedStatus == Some(ACTIVE)
    {
      persistedStatus := Some(ACTIVE);
    }

    /**
     * OFFLINE entry: an existing stored record becomes INACTIVE (none is created),
     * and every port is reported offline, in the order the map hands them out.
     */
    method OfflineEnter(order: seq<int>)
      requires Enumerates(order, portByNumber.Keys)
      modifies this`persistedStatus, this`outputs
      ensures persistedStatus == if old(persistedStatus).Some? then Some(INACTIVE) else None
      ensures outputs == old(outputs) + OnlineStatuses(portByNumber, order, false)
    {
      if persistedStatus.Some? {
        persistedStatus := Some(INACTIVE);
      }
      EmitOnlineStatus(order, false);
    }

    /** History replay: a physical port with its link for each outgoing link, added in order. */
    method ApplyHistory(outgoingLinks: seq<Isl>)
      requires Valid()
      modifies this`portByNumber, this`outputs
      ensures Valid()
      ensures portByNumber == AddAll(old(portByNumber), HistoryPorts(outgoingLinks))
      ensures outputs == old(outputs) + Additions(HistoryPorts(outgoingLinks))
    {
      var ports := HistoryPorts(outgoingLinks);
      AddAllSpec(portByNumber, ports);
      AddPorts(ports);
    }

    /** A port reported added: a fresh record for its number, added and reported online. */
    method HandlePortAdd(portNumber: int)
      requires Valid()
      modifies this`portByNumber, this`outputs
      ensures Valid()
      ensures portByNumber == old(portByNumber)[portNumber := MakePortRecord(features, bfdLogicalPortOffset, portNumber)]
      ensures outputs == old(outputs) + [PortAdded(portByNumber[portNumber]), OnlineStatus(portByNumber[portNumber], true)]
    {
      var port := MakePortRecord(features, bfdLogicalPortOffset, portNumber);
      portByNumber := portByNumber[port.portNumber := port];
      outputs := outputs + [PortAdded(port), OnlineStatus(port, true)];
    }

    /** A port reported deleted: removed and announced; an unknown port changes nothing. */
    method HandlePortDel(portNumber: int)
      requires Valid()
      modifies this`portByNumber, this`outputs
      ensures Valid()
      ensures portNumber in old(portByNumber) ==>
        portByNumber == old(portByNumber) - {portNumber} &&
        outputs == old(outputs) + [PortDeleted(old(portByNumber)[portNumber])]
      ensures portNumber !in old(portByNumber) ==> portByNumber == old(portByNumber) && outputs == old(outputs)
    {
      if portNumber in portByNumber {
        var port := portByNumber[portNumber];
        portByNumber := portByNumber - {port.portNumber};
        outputs := outputs + [PortDeleted(port)];
      }
    }

    /**
     * A port reported up or down: its link status is set and its link mode
     * announced; an unknown port changes nothing.
     */
    method HandlePortLinkStateChange(portNumber: int, event: SwitchFsmEvent)
      requires Valid()
      requires event == PORT_UP || event == PORT_DOWN
      modifies this`portByNumber, this`outputs
      ensures Valid()
      ensures portNumber in old(portByNumber) ==>
        var port := old(portByNumber)[portNumber].(linkStatus := Some(if event == PORT_UP then UP else DOWN));
        portByNumber == old(portByNumber)[portNumber := port] && outputs == old(outputs) + [PortLinkMode(port)]
      ensures portNumber !in old(portByNumber) ==> portByNumber == old(portByNumber) && outputs == old(outputs)
    {
      if portNumber !in portByNumber {
        return;
      }
      var port := portByNumber[portNumber];
      if event == PORT_UP {
        port := port.(linkStatus := Some(UP));
      } else {
        port := port.(linkStatus := Some(DOWN));
      }
      portByNumber := portByNumber[portNumber := port];
      outputs := outputs + [PortLinkMode(port)];
    }

    /** SWITCH_REMOVE: every port is deleted, in the order the map hands them out. */
    method RemovePortsFsm(order: seq<int>)
      requires Valid()
      requires Enumerates(order, portByNumber.Keys)
      modifies this`portByNumber, this`outputs
      ensures Valid()
      ensures portByNumber == map[]
      ensures outputs == old(outputs) + Deletions(old(portByNumber), order)
    {
      var ports := portByNumber;
      DeletePorts(ports, order);
      RemoveAllSpec(ports, order);
      assert portByNumber.Keys == {};
    }
  }

  lemma AppendFive(x: seq<PortOutput>, a: seq<PortOutput>, b: seq<PortOutput>, c: seq<PortOutput>,
                   d: seq<PortOutput>, e: seq<PortOutput>)
    ensures x + (a + b + c + d + e) == x + a + b + c + d + e
  {
  }

  lemma {:induction false} DeletionsAgree(m1: map<int, Port>, m2: map<int, Port>, order: seq<int>)
    requires forall i :: 0 <= i < |order| ==> order[i] in m1 && order[i] in m2 && m1[order[i]] == m2[order[i]]
    ensures Deletions(m1, order) == Deletions(m2, order)
    decreases |order|
  {
    if order != [] {
      DeletionsAgree(m1, m2, order[..|order| - 1]);
    }
  }
}

// The network topology's port service: one state machine per switch port,
// driven by the switch's online mode, the port's link status, the port's
// discovery setting and the discovery results, and telling the rest of the
// topology (the carrier) and the dashboard what changed.

module NetworkPortService {
  import opened Wrappers

  /** A switch port: the switch's datapath id and the port number. */
  datatype Endpoint = Endpoint(datapath: nat, port: nat)

  /** The link known to have ended at the port before, handed to the port's link handler. */
  datatype IslReference = IslReference(remote: Endpoint)

  /** A discovered link, forwarded as it came. */
  datatype DiscoveryData = DiscoveryData(source: Endpoint, dest: Endpoint)

  /** The stored per-port settings. */
  datatype PortProperties = PortProperties(datapath: nat, port: nat, discoveryEnabled: bool)

  datatype OnlineStatus = ONLINE | OFFLINE | REGION_OFFLINE
  datatype LinkStatus = UP | DOWN
  datatype PortHistoryEvent = PORT_UP | PORT_DOWN

  /** What the service asks of the rest of the topology, in order. */
  datatype CarrierCall =
    | SetupUniIslHandler(endpoint: Endpoint, history: Option<IslReference>)
    | RemoveUniIslHandler(endpoint: Endpoint)
    | EnableDiscoveryPoll(endpoint: Endpoint)
    | DisableDiscoveryPoll(endpoint: Endpoint)
    | NotifyPortPhysicalDown(endpoint: Endpoint)
    | NotifyPortDiscovered(endpoint: Endpoint, data: DiscoveryData)
    | NotifyPortDiscoveryFailed(endpoint: Endpoint)
    | NotifyPortPropertiesChanged(properties: PortProperties)
    | SendPortStateChangedHistory(endpoint: Endpoint, event: PortHistoryEvent)

  /** What the service shows on the dashboard. */
  datatype DashboardEvent = PortUp(endpoint: Endpoint) | PortDown(endpoint: Endpoint)

  /** The port a carrier call is about. */
  function Subject(c: CarrierCall): Endpoint {
    match c
    case NotifyPortPropertiesChanged(p) => Endpoint(p.datapath, p.port)
    case _ => c.endpoint
  }

  // ---------------------------------------------------------------------------
  // One port's state machine

  /** Before the first online mode, online, offline, or cut off with its region. */
  datatype Mode = Init | Online | Offline | RegionOffline

  datatype Link = Unknown | Up | Down

  /**
   * A port: its mode, its link as last seen while online, whether discovery
   * is enabled for it and whether the service has the carrier poll it.
   */
  datatype PortState = PortState(mode: Mode, link: Link, discoveryEnabled: bool, polling: bool)

  /** A port's new state and what the transition told the carrier and the dashboard. */
  datatype Effects = Effects(port: PortState, calls: seq<CarrierCall>, dashboard: seq<DashboardEvent>)

  /** Polling only happens on an online port whose link is up and whose discovery is enabled. */
  predicate PollingAllowed(p: PortState) {
    p.polling ==> p.mode == Online && p.link == Up && p.discoveryEnabled
  }

  /** A port just set up: no mode yet, link unknown, discovery as stored, no polling. */
  function NewPort(discoveryEnabled: bool): PortState {
    PortState(Init, Unknown, discoveryEnabled, false)
  }

  /** Stops polling, if the port was polled. */
  function StopPolling(p: PortState, e: Endpoint): seq<CarrierCall> {
    if p.polling then [DisableDiscoveryPoll(e)] else []
  }

  /**
   * The switch's online mode changes. Coming online starts with the link
   * unknown, except after a region outage, when the port picks up where it
   * was; going offline or losing the region stops polling.
   */
  function OnOnlineMode(p: PortState, e: Endpoint, status: OnlineStatus): Effects {
    match status
    case ONLINE =>
      if p.mode == Online then Effects(p, [], [])
      else if p.mode == RegionOffline then Effects(p.(mode := Online), [], [])
      else Effects(p.(mode := Online, link := Unknown), [], [])
    case OFFLINE =>
      Effects(p.(mode := Offline, polling := false), StopPolling(p, e), [])
    case REGION_OFFLINE =>
      Effects(p.(mode := RegionOffline, polling := false), StopPolling(p, e), [])
  }

  /**
   * The port's link goes up or down. Only an online port reacts, and only to a
   * change: up is logged, recorded and polled if discovery is enabled; down is
   * logged, recorded, stops polling and is reported as a physical down.
   */
  function OnLinkStatus(p: PortState, e: Endpoint, status: LinkStatus): Effects {
    if p.mode != Online then Effects(p, [], [])
    else
      match status
      case UP =>
        if p.link == Up then Effects(p, [], [])
        else
          Effects(p.(link := Up, polling := p.discoveryEnabled),
                  [SendPortStateChangedHistory(e, PORT_UP)] + (if p.discoveryEnabled then [EnableDiscoveryPoll(e)] else []),
                  [PortUp(e)])
      case DOWN =>
        if p.link == Down then Effects(p, [], [])
        else
          Effects(p.(link := Down, polling := false),
                  [SendPortStateChangedHistory(e, PORT_DOWN), DisableDiscoveryPoll(e), NotifyPortPhysicalDown(e)],
                  [PortDown(e)])
  }

  /**
   * Discovery is switched on or off for the port. On an online port whose link
   * is up this starts polling, or stops it and reports discovery as failed.
   */
  function OnDiscoverySetting(p: PortState, e: Endpoint, enabled: bool): Effects {
    if p.discoveryEnabled == enabled then Effects(p, [], [])
    else if p.mode == Online && p.link == Up then
      if enabled then Effects(p.(discoveryEnabled := true, polling := true), [EnableDiscoveryPoll(e)], [])
      else Effects(p.(discoveryEnabled := false, polling := false),
                   [DisableDiscoveryPoll(e), NotifyPortDiscoveryFailed(e)], [])
    else Effects(p.(discoveryEnabled := enabled), [], [])
  }

  /** A link found from the port is passed on only while the port is online, up and discovering. */
  function OnDiscovery(p: PortState, e: Endpoint, data: DiscoveryData): seq<CarrierCall> {
    if p.mode == Online && p.link == Up && p.discoveryEnabled then [NotifyPortDiscovered(e, data)] else []
  }

  /** A failed discovery round is reported only while the port is online and up. */
  function OnFail(p: PortState, e: Endpoint): seq<CarrierCall> {
    if p.mode == Online && p.link == Up then [NotifyPortDiscoveryFailed(e)] else []
  }

  // ---------------------------------------------------------------------------
  // What the carrier was last told about polling a port

  /** Some(true) if the last poll command for the port enabled polling, Some(false) if it disabled it. */
  function LastPollCommand(calls: seq<CarrierCall>, e: Endpoint): Option<bool> {
    if calls == [] then None
    else
      var last := calls[|calls| - 1];
      if last == EnableDiscoveryPoll(e) then Some(true)
      else if last == DisableDiscoveryPoll(e) then Some(false)
      else LastPollCommand(calls[..|calls| - 1], e)
  }

  /** The last poll command of a longer log is the appended part's, if it has one. */
  lemma {:induction false} LastPollCommandAppend(before: seq<CarrierCall>, after: seq<CarrierCall>, e: Endpoint)
    ensures LastPollCommand(before + after, e)
      == if LastPollCommand(after, e).Some? then LastPollCommand(after, e) else LastPollCommand(before, e)
    decreases |after|
  {
    if after == [] {
      assert before + after == before;
    } else {
      var all := before + after;
      assert all[..|all| - 1] == before + after[..|after| - 1];
      assert all[|all| - 1] == after[|after| - 1];
      LastPollCommandAppend(before, after[..|after| - 1], e);
    }
  }

  /** Calls about one port say nothing about polling any other port. */
  lemma {:induction false} OtherPortsPollUntouched(calls: seq<CarrierCall>, e: Endpoint, other: Endpoint)
    requires forall i :: 0 <= i < |calls| ==> Subject(calls[i]) == e
    requires other != e
    ensures LastPollCommand(calls, other) == None
    decreases |calls|
  {
    if calls != [] {
      var init := calls[..|calls| - 1];
      assert forall i :: 0 <= i < |init| ==> init[i] == calls[i];
      OtherPortsPollUntouched(init, e, other);
    }
  }

  /** Every transition of a port only talks about that port. */
  predicate About(calls: seq<CarrierCall>, e: Endpoint) {
    forall i :: 0 <= i < |calls| ==> Subject(calls[i]) == e
  }

  /**
   * What every transition of a port promises: polling stays allowed, the calls
   * are about that port, and a port polled afterwards is one the carrier was
   * last told to poll, by this transition or, when it said nothing about
   * polling, before it.
   */
  predicate KeepsPolling(p: PortState, e: Endpoint, eff: Effects) {
    && PollingAllowed(eff.port)
    && About(eff.calls, e)
    && (eff.port.polling ==> LastPollCommand(eff.calls, e) == Some(true)
                             || (LastPollCommand(eff.calls, e) == None && p.polling))
  }

  lemma OnlineModeKeepsPolling(p: PortState, e: Endpoint, status: OnlineStatus)
    requires PollingAllowed(p)
    ensures KeepsPolling(p, e, OnOnlineMode(p, e, status))
  {
    var calls := OnOnlineMode(p, e, status).calls;
    if |calls| == 1 {
      assert calls[..0] == [];
    }
  }

  lemma LinkStatusKeepsPolling(p: PortState, e: Endpoint, status: LinkStatus)
    requires PollingAllowed(p)
    ensures KeepsPolling(p, e, OnLinkStatus(p, e, status))
  {
    var calls := OnLinkStatus(p, e, status).calls;
    if |calls| == 2 {
      assert calls[..|calls| - 1] == calls[..1] && calls[..1][..0] == [];
    } else if |calls| == 3 {
      assert calls[..|calls| - 1] == calls[..2] && calls[..2][..1] == calls[..1] && calls[..1][..0] == [];
    }
  }

  lemma DiscoverySettingKeepsPolling(p: PortState, e: Endpoint, enabled: bool)
    requires PollingAllowed(p)
    ensures KeepsPolling(p, e, OnDiscoverySetting(p, e, enabled))
  {
    var calls := OnDiscoverySetting(p, e, enabled).calls;
    if |calls| == 2 {
      assert calls[..1][..0] == [] && calls[..|calls| - 1] == calls[..1];
    } else if |calls| == 1 {
      assert calls[..0] == [];
    }
  }

  /**
   * A port that is not online ignores its link: no state change, nothing told
   * to anyone; an online port reacts exactly to a change of its link.
   */
  lemma LinkChangesNeedOnline(p: PortState, e: Endpoint, status: LinkStatus)
    ensures p.mode != Online ==> OnLinkStatus(p, e, status) == Effects(p, [], [])
    ensures p.mode == Online ==>
      (OnLinkStatus(p, e, status).dashboard == [] <==> p.link == (if status == UP then Up else Down))
  {
  }

  /**
   * While discovery is disabled for a port, no transition that leaves it
   * disabled polls the port, and no found link is passed on.
   */
  lemma DisabledDiscoveryNeverPolls(p: PortState, e: Endpoint, status: OnlineStatus, link: LinkStatus, data: DiscoveryData)
    requires PollingAllowed(p) && !p.discoveryEnabled
    ensures forall eff :: eff in {OnOnlineMode(p, e, status), OnLinkStatus(p, e, link), OnDiscoverySetting(p, e, false)} ==>
      EnableDiscoveryPoll(e) !in eff.calls && !eff.port.polling && !eff.port.discoveryEnabled
    ensures OnDiscovery(p, e, data) == []
  {
  }

  /**
   * Losing the region stops polling and silences failed discovery rounds;
   * coming back online keeps the link as it was, so failures are reported
   * again exactly when the link is up.
   */
  lemma RegionOutageSilencesPort(p: PortState, e: Endpoint, data: DiscoveryData)
    ensures var lost := OnOnlineMode(p, e, REGION_OFFLINE).port;
      && !lost.polling
      && OnFail(lost, e) == [] && OnDiscovery(lost, e, data) == []
      && var back := OnOnlineMode(lost, e, ONLINE).port;
         back.link == p.link && (OnFail(back, e) != [] <==> p.link == Up)
  {
  }

  // ---------------------------------------------------------------------------
  // The service

  class NetworkPortService {
    /** The port state machines, by port. */
    var ports: map<Endpoint, PortState>
    /** The stored port settings: discovery enabled or not, by port. */
    var storedProperties: map<Endpoint, bool>
    /** Everything the service asked of the carrier, in order. */
    var carrierCalls: seq<CarrierCall>
    /** Everything the service put on the dashboard, in order. */
    var dashboard: seq<DashboardEvent>

    /**
     * Every port polls only while online, up and discovering, and the carrier
     * was last told to poll every port the service polls.
     */
    ghost predicate Valid()
      reads this
    {
      forall e :: e in ports ==>
        PollingAllowed(ports[e]) && (ports[e].polling ==> LastPollCommand(carrierCalls, e) == Some(true))
    }

    constructor (stored: map<Endpoint, bool>)
      ensures Valid()
      ensures ports == map[] && storedProperties == stored && carrierCalls == [] && dashboard == []
    {
      ports := map[];
      storedProperties := stored;
      carrierCalls := [];
      dashboard := [];
    }

    /** Applies a transition to one port and records what it said. */
    method Apply(e: Endpoint, eff: Effects)
      requires Valid() && e in ports
      requires KeepsPolling(ports[e], e, eff)
      modifies this`ports, this`carrierCalls, this`dashboard
      ensures Valid()
      ensures ports == old(ports)[e := eff.port]
      ensures carrierCalls == old(carrierCalls) + eff.calls && dashboard == old(dashboard) + eff.dashboard
    {
      forall other | other in ports && other != e
        ensures LastPollCommand(carrierCalls + eff.calls, other) == LastPollCommand(carrierCalls, other)
      {
        OtherPortsPollUntouched(eff.calls, e, other);
        LastPollCommandAppend(carrierCalls, eff.calls, other);
      }
      LastPollCommandAppend(carrierCalls, eff.calls, e);
      ports := ports[e := eff.port];
      carrierCalls := carrierCalls + eff.calls;
      dashboard := dashboard + eff.dashboard;
    }

    /**
     * Starts handling a port: a new state machine with discovery as stored
     * (enabled when nothing is stored), and a link handler for it.
     */
    method Setup(e: Endpoint, history: Option<IslReference>)
      requires Valid()
      modifies this`ports, this`carrierCalls
      ensures Valid()
      ensures ports == old(ports)[e := NewPort(if e in storedProperties then storedProperties[e] else true)]
      ensures carrierCalls == old(carrierCalls) + [SetupUniIslHandler(e, history)]
    {
      var enabled := if e in storedProperties then storedProperties[e] else true;
      forall other | other in ports && other != e
        ensures LastPollCommand(carrierCalls + [SetupUniIslHandler(e, history)], other) == LastPollCommand(carrierCalls, other)
      {
        assert (carrierCalls + [SetupUniIslHandler(e, history)])[..|carrierCalls|] == carrierCalls;
      }
      ports := ports[e := NewPort(enabled)];
      carrierCalls := carrierCalls + [SetupUniIslHandler(e, history)];
    }

    /** Stops handling a port: its polling and its link handler go; an unknown port is ignored. */
    method Remove(e: Endpoint)
      requires Valid()
      modifies this`ports, this`carrierCalls
      ensures Valid()
      ensures e in old(ports) ==>
        && ports == old(ports) - {e}
        && carrierCalls == old(carrierCalls) + [DisableDiscoveryPoll(e), RemoveUniIslHandler(e)]
      ensures e !in old(ports) ==> ports == old(ports) && carrierCalls == old(carrierCalls)
    {
      if e in ports {
        var calls := [DisableDiscoveryPoll(e), RemoveUniIslHandler(e)];
        forall other | other in ports && other != e
          ensures LastPollCommand(carrierCalls + calls, other) == LastPollCommand(carrierCalls, other)
        {
          assert calls[..1][..0] == [] && calls[..|calls| - 1] == calls[..1];
          OtherPortsPollUntouched(calls, e, other);
          LastPollCommandAppend(carrierCalls, calls, other);
        }
        ports := ports - {e};
        carrierCalls := carrierCalls + calls;
      }
    }

    /** The switch's online mode changes for a port; an unknown port is ignored. */
    method UpdateOnlineMode(e: Endpoint, status: OnlineStatus)
      requires Valid()
      modifies this`ports, this`carrierCalls, this`dashboard
      ensures Valid()
      ensures e in old(ports) ==> var eff := OnOnlineMode(old(ports)[e], e, status);
        ports == old(ports)[e := eff.port] && carrierCalls == old(carrierCalls) + eff.calls && dashboard == old(dashboard)
      ensures e !in old(ports) ==> ports == old(ports) && carrierCalls == old(carrierCalls) && dashboard == old(dashboard)
    {
      if e in ports {
        OnlineModeKeepsPolling(ports[e], e, status);
        Apply(e, OnOnlineMode(ports[e], e, status));
      }
    }

    /** The port's link status changes; an unknown port is ignored. */
    method UpdateLinkStatus(e: Endpoint, status: LinkStatus)
      requires Valid()
      modifies this`ports, this`carrierCalls, this`dashboard
      ensures Valid()
      ensures e in old(ports) ==> var eff := OnLinkStatus(old(ports)[e], e, status);
        ports == old(ports)[e := eff.port] && carrierCalls == old(carrierCalls) + eff.calls
        && dashboard == old(dashboard) + eff.dashboard
      ensures e !in old(ports) ==> ports == old(ports) && carrierCalls == old(carrierCalls) && dashboard == old(dashboard)
    {
      if e in ports {
        LinkStatusKeepsPolling(ports[e], e, status);
        Apply(e, OnLinkStatus(ports[e], e, status));
      }
    }

    /**
     * Discovery is switched on or off for a port: the setting is stored, its
     * change announced, and a known port's state machine told.
     */
    method UpdatePortProperties(e: Endpoint, enabled: bool)
      requires Valid()
      modifies this`ports, this`storedProperties, this`carrierCalls, this`dashboard
      ensures Valid()
      ensures storedProperties == old(storedProperties)[e := enabled]
      ensures e in old(ports) ==> var eff := OnDiscoverySetting(old(ports)[e], e, enabled);
        ports == old(ports)[e := eff.port]
        && carrierCalls == old(carrierCalls) + [NotifyPortPropertiesChanged(PortProperties(e.datapath, e.port, enabled))] + eff.calls
        && dashboard == old(dashboard)
      ensures e !in old(ports) ==>
        && ports == old(ports) && dashboard == old(dashboard)
        && carrierCalls == old(carrierCalls) + [NotifyPortPropertiesChanged(PortProperties(e.datapath, e.port, enabled))]
    {
      storedProperties := storedProperties[e := enabled];
      var changed := NotifyPortPropertiesChanged(PortProperties(e.datapath, e.port, enabled));
      forall other | other in ports
        ensures LastPollCommand(carrierCalls + [changed], other) == LastPollCommand(carrierCalls, other)
      {
        assert (carrierCalls + [changed])[..|carrierCalls|] == carrierCalls;
      }
      carrierCalls := carrierCalls + [changed];
      if e in ports {
        DiscoverySettingKeepsPolling(ports[e], e, enabled);
        Apply(e, OnDiscoverySetting(ports[e], e, enabled));
      }
    }

    /** A link was found from the port. */
    method Discovery(e: Endpoint, data: DiscoveryData)
      requires Valid()
      modifies this`carrierCalls
      ensures Valid()
      ensures carrierCalls == old(carrierCalls) + (if e in ports then OnDiscovery(ports[e], e, data) else [])
    {
      if e in ports {
        var calls := OnDiscovery(ports[e], e, data);
        forall other | other in ports
          ensures LastPollCommand(carrierCalls + calls, other) == LastPollCommand(carrierCalls, other)
        {
          if calls != [] {
            assert (carrierCalls + calls)[..|carrierCalls|] == carrierCalls;
          } else {
            assert carrierCalls + calls == carrierCalls;
          }
        }
        carrierCalls := carrierCalls + calls;
      }
    }

    /** A discovery round from the port failed. */
    method Fail(e: Endpoint)
      requires Valid()
      modifies this`carrierCalls
      ensures Valid()
      ensures carrierCalls == old(carrierCalls) + (if e in ports then OnFail(ports[e], e) else [])
    {
      if e in ports {
        var calls := OnFail(ports[e], e);
        forall other | other in ports
          ensures LastPollCommand(carrierCalls + calls, other) == LastPollCommand(carrierCalls, other)
        {
          if calls != [] {
            assert (carrierCalls + calls)[..|carrierCalls|] == carrierCalls;
          } else {
            assert carrierCalls + calls == carrierCalls;
          }
        }
        carrierCalls := carrierCalls + calls;
      }
    }
  }

  // ---------------------------------------------------------------------------
  // The service's documented behaviour, on the switch with datapath id 1

  const Alpha: nat := 1

  /** What was appended to a log, in two parts, is the log past its old length. */
  lemma AppendedPart<T>(before: seq<T>, first: seq<T>, second: seq<T>)
    ensures (before + first + second)[|before|..] == first + second
  {
    assert before + first + second == before + (first + second);
  }

  /**
   * Two ports set up, taken offline and removed each get exactly one link
   * handler set up and one removed.
   */
  method NewPortScenario() returns (calls: seq<CarrierCall>)
    ensures calls == [SetupUniIslHandler(Endpoint(Alpha, 1), None), SetupUniIslHandler(Endpoint(Alpha, 2), None),
                      DisableDiscoveryPoll(Endpoint(Alpha, 1)), RemoveUniIslHandler(Endpoint(Alpha, 1)),
                      DisableDiscoveryPoll(Endpoint(Alpha, 2)), RemoveUniIslHandler(Endpoint(Alpha, 2))]
  {
    var port1, port2 := Endpoint(Alpha, 1), Endpoint(Alpha, 2);
    var service := new NetworkPortService(map[]);
    service.Setup(port1, None);
    service.UpdateOnlineMode(port1, OFFLINE);
    service.Setup(port2, None);
    service.UpdateOnlineMode(port2, OFFLINE);
    service.Remove(port1);
    service.Remove(port2);
    calls := service.carrierCalls;
  }

  /**
   * Setting ports up and bringing them online shows nothing on the dashboard.
   * Then a port going up then down is shown up then down, and is polled,
   * unpolled and reported physically down.
   */
  method OperationalUpDownScenario() returns (setupCalls: seq<CarrierCall>, setupDashboard: seq<DashboardEvent>,
                                              calls: seq<CarrierCall>, dashboard: seq<DashboardEvent>)
    ensures setupCalls == [SetupUniIslHandler(Endpoint(Alpha, 1), None), SetupUniIslHandler(Endpoint(Alpha, 2), None)]
    ensures setupDashboard == []
    ensures dashboard == [PortUp(Endpoint(Alpha, 1)), PortDown(Endpoint(Alpha, 1))]
    ensures calls == [SendPortStateChangedHistory(Endpoint(Alpha, 1), PORT_UP), EnableDiscoveryPoll(Endpoint(Alpha, 1)),
                      SendPortStateChangedHistory(Endpoint(Alpha, 1), PORT_DOWN), DisableDiscoveryPoll(Endpoint(Alpha, 1)),
                      NotifyPortPhysicalDown(Endpoint(Alpha, 1))]
  {
    var port1, port2 := Endpoint(Alpha, 1), Endpoint(Alpha, 2);
    var service := new NetworkPortService(map[]);
    service.Setup(port1, None);
    service.UpdateOnlineMode(port1, ONLINE);
    service.Setup(port2, None);
    service.UpdateOnlineMode(port2, ONLINE);
    setupCalls, setupDashboard := service.carrierCalls, service.dashboard;
    assert service.ports[port1] == PortState(Online, Unknown, true, false);

    var mark, shown := service.carrierCalls, service.dashboard;
    service.UpdateLinkStatus(port1, UP);
    ghost var upCalls := [SendPortStateChangedHistory(port1, PORT_UP), EnableDiscoveryPoll(port1)];
    assert service.carrierCalls == mark + upCalls;
    service.UpdateLinkStatus(port1, DOWN);
    AppendedPart(mark, upCalls, [SendPortStateChangedHistory(port1, PORT_DOWN), DisableDiscoveryPoll(port1), NotifyPortPhysicalDown(port1)]);
    AppendedPart(shown, [PortUp(port1)], [PortDown(port1)]);
    calls, dashboard := service.carrierCalls[|mark|..], service.dashboard[|shown|..];
  }

  /**
   * An online port going down then up is shown down then up, reported
   * physically down, and then polled.
   */
  method OperationalDownUpScenario() returns (calls: seq<CarrierCall>, dashboard: seq<DashboardEvent>)
    ensures dashboard == [PortDown(Endpoint(Alpha, 2)), PortUp(Endpoint(Alpha, 2))]
    ensures calls == [SendPortStateChangedHistory(Endpoint(Alpha, 2), PORT_DOWN), DisableDiscoveryPoll(Endpoint(Alpha, 2)),
                      NotifyPortPhysicalDown(Endpoint(Alpha, 2)),
                      SendPortStateChangedHistory(Endpoint(Alpha, 2), PORT_UP), EnableDiscoveryPoll(Endpoint(Alpha, 2))]
  {
    var port := Endpoint(Alpha, 2);
    var service := new NetworkPortService(map[]);
    service.Setup(port, None);
    service.UpdateOnlineMode(port, ONLINE);

    var mark, shown := service.carrierCalls, service.dashboard;
    service.UpdateLinkStatus(port, DOWN);
    ghost var downCalls := [SendPortStateChangedHistory(port, PORT_DOWN), DisableDiscoveryPoll(port), NotifyPortPhysicalDown(port)];
    assert service.carrierCalls == mark + downCalls;
    service.UpdateLinkStatus(port, UP);
    AppendedPart(mark, downCalls, [SendPortStateChangedHistory(port, PORT_UP), EnableDiscoveryPoll(port)]);
    AppendedPart(shown, [PortDown(port)], [PortUp(port)]);
    calls, dashboard := service.carrierCalls[|mark|..], service.dashboard[|shown|..];
  }

  /**
   * A port of a fresh service that came online and went offline again, and
   * what its link going up and down while offline told the carrier and the
   * dashboard.
   */
  method LinkChangesWhileOffline(port: Endpoint)
    returns (service: NetworkPortService, offlineCalls: seq<CarrierCall>, offlineDashboard: seq<DashboardEvent>)
    ensures fresh(service) && service.Valid()
    ensures service.ports == map[port := PortState(Offline, Unknown, true, false)]
    ensures service.carrierCalls == [SetupUniIslHandler(port, None)] && service.dashboard == []
    ensures offlineCalls == [] && offlineDashboard == []
  {
    service := new NetworkPortService(map[]);
    service.Setup(port, None);
    service.UpdateOnlineMode(port, ONLINE);
    assert service.ports[port] == PortState(Online, Unknown, true, false);

    var mark, shown := service.carrierCalls, service.dashboard;
    service.UpdateOnlineMode(port, OFFLINE);
    assert service.ports[port] == PortState(Offline, Unknown, true, false);
    service.UpdateLinkStatus(port, UP);
    service.UpdateLinkStatus(port, DOWN);
    offlineCalls, offlineDashboard := service.carrierCalls[|mark|..], service.dashboard[|shown|..];
  }

  /**
   * An offline port ignores its link entirely; once back online it logs,
   * records and polls the link changes as usual.
   */
  method UnoperationalUpDownScenario() returns (offlineCalls: seq<CarrierCall>, offlineDashboard: seq<DashboardEvent>,
                                                onlineCalls: seq<CarrierCall>, onlineDashboard: seq<DashboardEvent>)
    ensures offlineCalls == [] && offlineDashboard == []
    ensures onlineDashboard == [PortUp(Endpoint(Alpha, 1)), PortDown(Endpoint(Alpha, 1))]
    ensures onlineCalls == [SendPortStateChangedHistory(Endpoint(Alpha, 1), PORT_UP), EnableDiscoveryPoll(Endpoint(Alpha, 1)),
                            SendPortStateChangedHistory(Endpoint(Alpha, 1), PORT_DOWN), DisableDiscoveryPoll(Endpoint(Alpha, 1)),
                            NotifyPortPhysicalDown(Endpoint(Alpha, 1))]
  {
    var port := Endpoint(Alpha, 1);
    var service;
    service, offlineCalls, offlineDashboard := LinkChangesWhileOffline(port);

    var mark, shown := service.carrierCalls, service.dashboard;
    service.UpdateOnlineMode(port, ONLINE);
    assert service.ports[port] == PortState(Online, Unknown, true, false);
    service.UpdateLinkStatus(port, UP);
    ghost var upCalls := [SendPortStateChangedHistory(port, PORT_UP), EnableDiscoveryPoll(port)];
    assert service.carrierCalls == mark + upCalls;
    service.UpdateLinkStatus(port, DOWN);
    AppendedPart(mark, upCalls, [SendPortStateChangedHistory(port, PORT_DOWN), DisableDiscoveryPoll(port), NotifyPortPhysicalDown(port)]);
    AppendedPart(shown, [PortUp(port)], [PortDown(port)]);
    onlineCalls, onlineDashboard := service.carrierCalls[|mark|..], service.dashboard[|shown|..];
  }

  /** A port set up on a fresh service that comes online with its link up: it is polled. */
  method PortComesUp(port: Endpoint) returns (service: NetworkPortService)
    ensures fresh(service) && service.Valid()
    ensures service.ports == map[port := PortState(Online, Up, true, true)]
    ensures service.storedProperties == map[]
    ensures service.carrierCalls
      == [SetupUniIslHandler(port, None), SendPortStateChangedHistory(port, PORT_UP), EnableDiscoveryPoll(port)]
  {
    service := new NetworkPortService(map[]);
    service.Setup(port, None);
    service.UpdateOnlineMode(port, ONLINE);
    assert service.ports[port] == PortState(Online, Unknown, true, false);
    service.UpdateLinkStatus(port, UP);
  }

  /**
   * Disabling discovery on a port that is up stores the setting, announces
   * it, stops the polling and reports discovery as failed; removing the port
   * stops polling once more and removes its link handler.
   */
  method CreatePortPropertiesScenario() returns (upCalls: seq<CarrierCall>, calls: seq<CarrierCall>, stored: map<Endpoint, bool>)
    ensures upCalls == [SetupUniIslHandler(Endpoint(Alpha, 7), None),
                        SendPortStateChangedHistory(Endpoint(Alpha, 7), PORT_UP), EnableDiscoveryPoll(Endpoint(Alpha, 7))]
    ensures calls == upCalls + [NotifyPortPropertiesChanged(PortProperties(Alpha, 7, false)),
                                DisableDiscoveryPoll(Endpoint(Alpha, 7)), NotifyPortDiscoveryFailed(Endpoint(Alpha, 7)),
                                DisableDiscoveryPoll(Endpoint(Alpha, 7)), RemoveUniIslHandler(Endpoint(Alpha, 7))]
    ensures stored == map[Endpoint(Alpha, 7) := false]
  {
    var port := Endpoint(Alpha, 7);
    var service := PortComesUp(port);
    upCalls := service.carrierCalls;
    service.UpdatePortProperties(port, false);
    service.Remove(port);
    calls, stored := service.carrierCalls, service.storedProperties;
  }

  /**
   * Disabling discovery while the port is down only stores and announces the
   * setting; the port coming up afterwards is recorded but never polled.
   */
  method DisableDiscoveryWhenPortDownScenario() returns (downCalls: seq<CarrierCall>, calls: seq<CarrierCall>,
                                                         stored: map<Endpoint, bool>)
    ensures downCalls == [SetupUniIslHandler(Endpoint(Alpha, 7), None),
                          SendPortStateChangedHistory(Endpoint(Alpha, 7), PORT_DOWN), DisableDiscoveryPoll(Endpoint(Alpha, 7)),
                          NotifyPortPhysicalDown(Endpoint(Alpha, 7))]
    ensures calls == downCalls + [NotifyPortPropertiesChanged(PortProperties(Alpha, 7, false)),
                                  SendPortStateChangedHistory(Endpoint(Alpha, 7), PORT_UP),
                                  DisableDiscoveryPoll(Endpoint(Alpha, 7)), RemoveUniIslHandler(Endpoint(Alpha, 7))]
    ensures stored == map[Endpoint(Alpha, 7) := false]
  {
    var port := Endpoint(Alpha, 7);
    var service := new NetworkPortService(map[]);
    service.Setup(port, None);
    service.UpdateOnlineMode(port, ONLINE);
    service.UpdateLinkStatus(port, DOWN);
    downCalls := service.carrierCalls;
    assert service.ports[port] == PortState(Online, Down, true, false);
    service.UpdatePortProperties(port, false);
    assert service.ports[port] == PortState(Online, Down, false, false);
    service.UpdateLinkStatus(port, UP);
    service.Remove(port);
    calls, stored := service.carrierCalls, service.storedProperties;
  }

  /** A link found from a port whose discovery was disabled is not passed on. */
  method DiscoveryWhenDisabledScenario() returns (upCalls: seq<CarrierCall>, disabledCalls: seq<CarrierCall>,
                                                  calls: seq<CarrierCall>)
    ensures upCalls == [SetupUniIslHandler(Endpoint(Alpha, 1), None),
                        SendPortStateChangedHistory(Endpoint(Alpha, 1), PORT_UP), EnableDiscoveryPoll(Endpoint(Alpha, 1))]
    ensures disabledCalls == upCalls + [NotifyPortPropertiesChanged(PortProperties(Alpha, 1, false)),
                                        DisableDiscoveryPoll(Endpoint(Alpha, 1)), NotifyPortDiscoveryFailed(Endpoint(Alpha, 1))]
    ensures calls == disabledCalls
  {
    var port := Endpoint(Alpha, 1);
    var service := PortComesUp(port);
    upCalls := service.carrierCalls;
    service.UpdatePortProperties(port, false);
    disabledCalls := service.carrierCalls;
    assert service.ports[port] == PortState(Online, Up, false, false);
    service.Discovery(port, DiscoveryData(port, Endpoint(Alpha + 1, 1)));
    calls := service.carrierCalls;
  }

  /**
   * A port of a fresh service that came up, had its discovery disabled and
   * went through an offline-online cycle, and what each step told the carrier.
   */
  method DisabledThroughOfflineOnlineCycle(port: Endpoint)
    returns (service: NetworkPortService, upCalls: seq<CarrierCall>, disabledCalls: seq<CarrierCall>,
             cycledCalls: seq<CarrierCall>)
    ensures fresh(service) && service.Valid()
    ensures service.ports == map[port := PortState(Online, Up, false, false)]
    ensures service.storedProperties == map[port := false]
    ensures upCalls == [SetupUniIslHandler(port, None), SendPortStateChangedHistory(port, PORT_UP), EnableDiscoveryPoll(port)]
    ensures disabledCalls == [NotifyPortPropertiesChanged(PortProperties(port.datapath, port.port, false)),
                              DisableDiscoveryPoll(port), NotifyPortDiscoveryFailed(port)]
    ensures cycledCalls == [SendPortStateChangedHistory(port, PORT_UP)]
    ensures service.carrierCalls == upCalls + disabledCalls + cycledCalls
  {
    service := PortComesUp(port);
    upCalls := service.carrierCalls;
    service.UpdatePortProperties(port, false);
    disabledCalls := [NotifyPortPropertiesChanged(PortProperties(port.datapath, port.port, false)),
                      DisableDiscoveryPoll(port), NotifyPortDiscoveryFailed(port)];
    assert service.carrierCalls == upCalls + disabledCalls;
    assert service.ports[port] == PortState(Online, Up, false, false);

    service.UpdateOnlineMode(port, OFFLINE);
    assert service.ports[port] == PortState(Offline, Up, false, false);
    service.UpdateOnlineMode(port, ONLINE);
    assert service.ports[port] == PortState(Online, Unknown, false, false);
    service.UpdateLinkStatus(port, UP);
    cycledCalls := [SendPortStateChangedHistory(port, PORT_UP)];
  }

  /**
   * Discovery stays disabled across an offline-online cycle: the port coming
   * up again is recorded but not polled. Enabling discovery on the port that
   * is up then starts polling, and found links are passed on again. Each
   * result is what one step told the carrier.
   */
  method EnableDiscoveryAfterOfflineOnlineScenario()
    returns (upCalls: seq<CarrierCall>, disabledCalls: seq<CarrierCall>, cycledCalls: seq<CarrierCall>,
             enabledCalls: seq<CarrierCall>, discoveredCalls: seq<CarrierCall>)
    ensures upCalls == [SetupUniIslHandler(Endpoint(Alpha, 1), None),
                        SendPortStateChangedHistory(Endpoint(Alpha, 1), PORT_UP), EnableDiscoveryPoll(Endpoint(Alpha, 1))]
    ensures disabledCalls == [NotifyPortPropertiesChanged(PortProperties(Alpha, 1, false)),
                              DisableDiscoveryPoll(Endpoint(Alpha, 1)), NotifyPortDiscoveryFailed(Endpoint(Alpha, 1))]
    ensures cycledCalls == [SendPortStateChangedHistory(Endpoint(Alpha, 1), PORT_UP)]
    ensures enabledCalls == [NotifyPortPropertiesChanged(PortProperties(Alpha, 1, true)), EnableDiscoveryPoll(Endpoint(Alpha, 1))]
    ensures discoveredCalls == [NotifyPortDiscovered(Endpoint(Alpha, 1), DiscoveryData(Endpoint(Alpha, 1), Endpoint(Alpha + 1, 1)))]
  {
    var port := Endpoint(Alpha, 1);
    var service;
    service, upCalls, disabledCalls, cycledCalls := DisabledThroughOfflineOnlineCycle(port);

    var mark := service.carrierCalls;
    service.UpdatePortProperties(port, true);
    enabledCalls := service.carrierCalls[|mark|..];
    assert service.ports[port] == PortState(Online, Up, true, true);

    mark := service.carrierCalls;
    service.Discovery(port, DiscoveryData(port, Endpoint(Alpha + 1, 1)));
    discoveredCalls := service.carrierCalls[|mark|..];
  }

  /**
   * Losing the region stops polling and silences failed discovery rounds;
   * back online with the link still up, failures are reported again.
   */
  method RegionOfflineScenario()
    returns (upCalls: seq<CarrierCall>, regionOfflineCalls: seq<CarrierCall>, ignoredCalls: seq<CarrierCall>,
             backCalls: seq<CarrierCall>, calls: seq<CarrierCall>)
    ensures upCalls == [SetupUniIslHandler(Endpoint(Alpha, 8), None),
                        SendPortStateChangedHistory(Endpoint(Alpha, 8), PORT_UP), EnableDiscoveryPoll(Endpoint(Alpha, 8))]
    ensures regionOfflineCalls == upCalls + [DisableDiscoveryPoll(Endpoint(Alpha, 8))]
    ensures ignoredCalls == regionOfflineCalls
    ensures backCalls == regionOfflineCalls
    ensures calls == backCalls + [NotifyPortDiscoveryFailed(Endpoint(Alpha, 8))]
  {
    var port := Endpoint(Alpha, 8);
    var service := PortComesUp(port);
    upCalls := service.carrierCalls;
    service.UpdateOnlineMode(port, REGION_OFFLINE);
    regionOfflineCalls := service.carrierCalls;
    assert service.ports[port] == PortState(RegionOffline, Up, true, false);
    service.Fail(port);
    ignoredCalls := service.carrierCalls;
    service.UpdateOnlineMode(port, ONLINE);
    service.UpdateLinkStatus(port, UP);
    backCalls := service.carrierCalls;
    assert service.ports[port] == PortState(Online, Up, true, false);
    service.Fail(port);
    calls := service.carrierCalls;
  }
}

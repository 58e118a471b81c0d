// The rule generator for the input table's ARP rule: on a multi-table switch, an
// ingress endpoint that tracks ARP-connected devices gets one rule sending its
// ARP packets to the pre-ingress table with the ARP routing flag set.

module InputArpRuleGenerator {
  import opened Wrappers

  const ETH_TYPE_ARP: nat := 0x0806

  datatype OfTable = INPUT | PRE_INGRESS
  datatype Priority = ARP_INPUT_CUSTOMER_PRIORITY
  datatype CookieType = ARP_INPUT_CUSTOMER_TYPE
  datatype Field = IN_PORT | ETH_TYPE

  datatype FieldMatch = FieldMatch(field: Field, value: nat)
  datatype PortColourCookie = PortColourCookie(cookieType: CookieType, portNumber: nat)
  datatype OfMetadata = OfMetadata(value: nat, mask: nat)
  datatype Instructions = Instructions(goToTable: OfTable, writeMetadata: OfMetadata)

  datatype FlowSpeakerData = FlowSpeakerData(
    switchId: string,
    ofVersion: string,
    cookie: PortColourCookie,
    table: OfTable,
    priority: Priority,
    matches: set<FieldMatch>,
    instructions: Instructions)

  datatype Switch = Switch(switchId: string, ofVersion: string, features: set<string>)
  datatype FlowEndpoint = FlowEndpoint(switchId: string, portNumber: nat, trackArpConnectedDevices: bool)

  /** A flow side whose ingress overlaps with the endpoint, by whether it detects ARP devices. */
  datatype FlowSideAdapter = FlowSideAdapter(flowId: string, detectConnectedDevicesArp: bool)

  /** The generator's configuration. */
  datatype InputArpRuleGenerator = InputArpRuleGenerator(
    overlappingIngressAdapters: set<FlowSideAdapter>,
    ingressEndpoint: FlowEndpoint,
    multiTable: bool)

  /** Whether the rule is wanted: multi-table, ARP tracking on, and no overlapping side already detects ARP. */
  predicate Wanted(gen: InputArpRuleGenerator) {
    && gen.multiTable
    && gen.ingressEndpoint.trackArpConnectedDevices
    && forall a :: a in gen.overlappingIngressAdapters ==> !a.detectConnectedDevicesArp
  }

  /** A packet, by the two header fields the rule looks at. */
  datatype Packet = Packet(inPort: nat, ethType: nat)

  /** Whether a packet satisfies every field match of a rule. */
  predicate Matches(matches: set<FieldMatch>, packet: Packet) {
    forall m :: m in matches ==> (if m.field == IN_PORT then packet.inPort else packet.ethType) == m.value
  }

  /**
   * The ARP input rule for the endpoint on the switch; arpMetadata gives the
   * routing metadata with the ARP flag for the switch's features.
   */
  function BuildArpInputCustomerFlowCommand(sw: Switch, endpoint: FlowEndpoint,
                                            arpMetadata: set<string> -> OfMetadata): (r: FlowSpeakerData)
    ensures r.switchId == endpoint.switchId && r.ofVersion == sw.ofVersion
    ensures r.table == INPUT && r.priority == ARP_INPUT_CUSTOMER_PRIORITY
    ensures r.cookie == PortColourCookie(ARP_INPUT_CUSTOMER_TYPE, endpoint.portNumber)
    ensures forall p: Packet :: Matches(r.matches, p) <==> p.inPort == endpoint.portNumber && p.ethType == ETH_TYPE_ARP
    ensures r.instructions == Instructions(PRE_INGRESS, arpMetadata(sw.features))
  {
    var matches := {FieldMatch(IN_PORT, endpoint.portNumber), FieldMatch(ETH_TYPE, ETH_TYPE_ARP)};
    assert forall p: Packet :: Matches(matches, p) ==> p.inPort == endpoint.portNumber && p.ethType == ETH_TYPE_ARP by {
      forall p: Packet | Matches(matches, p)
        ensures p.inPort == endpoint.portNumber && p.ethType == ETH_TYPE_ARP
      {
        assert FieldMatch(IN_PORT, endpoint.portNumber) in matches;
        assert FieldMatch(ETH_TYPE, ETH_TYPE_ARP) in matches;
      }
    }
    FlowSpeakerData(endpoint.switchId, sw.ofVersion, PortColourCookie(ARP_INPUT_CUSTOMER_TYPE, endpoint.portNumber),
                    INPUT, ARP_INPUT_CUSTOMER_PRIORITY, matches, Instructions(PRE_INGRESS, arpMetadata(sw.features)))
  }

  /** The commands for a switch: the ARP input rule when it is wanted, otherwise none. */
  function GenerateCommands(gen: InputArpRuleGenerator, sw: Switch, arpMetadata: set<string> -> OfMetadata)
    : (r: seq<FlowSpeakerData>)
    ensures |r| <= 1
    ensures |r| == 1 <==> Wanted(gen)
    ensures |r| == 1 ==> r[0] == BuildArpInputCustomerFlowCommand(sw, gen.ingressEndpoint, arpMetadata)
  {
    if Wanted(gen) then [BuildArpInputCustomerFlowCommand(sw, gen.ingressEndpoint, arpMetadata)] else []
  }

  /**
   * One overlapping side that already detects ARP devices suppresses the rule,
   * whatever else is configured.
   */
  lemma OverlappingArpDetectionSuppresses(gen: InputArpRuleGenerator, sw: Switch,
                                          arpMetadata: set<string> -> OfMetadata, a: FlowSideAdapter)
    requires a in gen.overlappingIngressAdapters && a.detectConnectedDevicesArp
    ensures GenerateCommands(gen, sw, arpMetadata) == []
  {
  }
}

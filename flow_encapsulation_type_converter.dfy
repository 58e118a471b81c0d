// The graph-database converter between an encapsulation type and its stored
// text: the constant's name one way, an exact-name lookup the other.

module FlowEncapsulationTypeConverter {
  import opened Wrappers
  import opened FlowModel

  /** The name of an encapsulation type constant. */
  function Name(t: FlowEncapsulationType): string {
    match t
    case TRANSIT_VLAN => "TRANSIT_VLAN"
    case VXLAN => "VXLAN"
  }

  /** Whether Java's trim leaves nothing: every character is at most a space. */
  predicate TrimsToEmpty(s: string) {
    forall i :: 0 <= i < |s| ==> s[i] <= ' '
  }

  /** The constant with exactly the given name; any other text is an illegal argument. */
  function ValueOf(name: string): (r: Result<FlowEncapsulationType, string>)
    ensures r.Ok? <==> exists t :: Name(t) == name
    ensures r.Ok? ==> Name(r.value) == name
  {
    if name == "TRANSIT_VLAN" then assert Name(TRANSIT_VLAN) == name; Ok(TRANSIT_VLAN)
    else if name == "VXLAN" then assert Name(VXLAN) == name; Ok(VXLAN)
    else
      assert Name(TRANSIT_VLAN) != name && Name(VXLAN) != name;
      Err("No enum constant FlowEncapsulationType." + name)
  }

  /** The stored text of a type: its name; nothing for no type. */
  function ToGraphProperty(value: Option<FlowEncapsulationType>): (r: Option<string>)
    ensures r.None? <==> value.None?
    ensures value.Some? ==> !TrimsToEmpty(r.value)
  {
    if value.None? then None
    else
      var name := Name(value.value);
      assert name[0] > ' ';
      Some(name)
  }

  /**
   * The type stored as the given text: none for no text or text that trims to
   * nothing; otherwise the constant with exactly that name, or an error.
   */
  function ToEntityAttribute(value: Option<string>): (r: Result<Option<FlowEncapsulationType>, string>)
    ensures value.None? || TrimsToEmpty(value.value) ==> r == Ok(None)
    ensures r.Ok? && r.value.Some? ==> value == Some(Name(r.value.value))
    ensures r.Err? <==> value.Some? && !TrimsToEmpty(value.value) && forall t :: Name(t) != value.value
  {
    if value.None? || TrimsToEmpty(value.value) then Ok(None)
    else
      match ValueOf(value.value)
      case Ok(t) => Ok(Some(t))
      case Err(e) => Err(e)
  }

  /** Storing a type and reading it back gives the same type, also for no type. */
  lemma RoundTrip(value: Option<FlowEncapsulationType>)
    ensures ToEntityAttribute(ToGraphProperty(value)) == Ok(value)
  {
  }

  /**
   * Text that reads back as a type is exactly that type's stored text; the lookup
   * is case-sensitive, so a lower-case name is an error.
   */
  lemma ReadBackIsStoredText(text: string)
    ensures ToEntityAttribute(Some(text)).Ok? && ToEntityAttribute(Some(text)).value.Some? ==>
      ToGraphProperty(ToEntityAttribute(Some(text)).value) == Some(text)
    ensures ToEntityAttribute(Some("vxlan")).Err?
  {
    assert "vxlan"[0] > ' ';
  }
}

/**
 * The tooltip of an event marker: the translated event name followed by one
 * suffix, chosen by the first matching rule. Text is kept as a sequence of
 * tokens: what is shown, not how numbers are rendered.
 */
module EventTooltip {
  import opened Events

  /** The pieces a tooltip is made of. */
  datatype Token =
    | StatusIcon                                  // the status image every tooltip starts with
    | Text(s: string)                             // literal text
    | Tr(key: string)                             // text shown through the translation catalogue
    | GasName(mix: GasMix)                        // the display name of a gas
    | Cylinder(number: int)                       // " (cyl. N)", cylinders counted from 1
    | IcdNote(exceeds: bool, dHe: int, dN2: int)  // the counterdiffusion line: both changes, and > or < the limit
    | Mode(value: int)                            // ": " and the translated name of dive mode `value`
    | Setpoint(mbar: int)                         // ": " and the setpoint in bar with one decimal
    | CeilingDepth(metres: int)                   // ": " and the depth in the user's depth unit
    | Number(value: int)                          // ": " and the value

  /** A setpoint change abusing the pO2 event type (names compared exactly). */
  predicate IsSetpointChange(e: Event) {
    e.kind == SAMPLE_EVENT_PO2 && e.name == "SP change"
  }

  /** A planned waypoint that lies above the ceiling (names compared exactly). */
  predicate IsCeilingWaypoint(e: Event) {
    e.kind == SAMPLE_EVENT_CEILING && e.name == "planned waypoint above ceiling"
  }

  /** The value of a non-gas-change event with a nonzero value, formatted by its kind. */
  function ValueToken(e: Event): (t: Token)
    ensures t.Setpoint? <==> IsSetpointChange(e)
    ensures t.CeilingDepth? <==> !IsSetpointChange(e) && IsCeilingWaypoint(e)
    ensures t in {Setpoint(e.value), CeilingDepth(e.value), Number(e.value)}
  {
    if IsSetpointChange(e) then Setpoint(e.value)
    else if IsCeilingWaypoint(e) then CeilingDepth(e.value)
    else Number(e.value)
  }

  /** The suffix given by the begin and end flags; begin wins when both are set. */
  function FlagSuffix(flags: bv32): (s: seq<Token>)
    ensures flags & SAMPLE_FLAGS_BEGIN != 0 ==> s == [Tr(" begin")]
    ensures flags & SAMPLE_FLAGS_BEGIN == 0 && flags & SAMPLE_FLAGS_END != 0 ==> s == [Tr(" end")]
    ensures s == [] <==> flags & (SAMPLE_FLAGS_BEGIN | SAMPLE_FLAGS_END) == 0
  {
    if flags & SAMPLE_FLAGS_BEGIN != 0 then [Tr(" begin")]
    else if flags & SAMPLE_FLAGS_END != 0 then [Tr(" end")]
    else []
  }

  /** The event matches none of the four rules that precede the flag suffix. */
  predicate IsPlain(e: Event, d: Domain) {
    !d.isGasChange(e) && e.name != "modechange" && e.value == 0 && !IsSetpointChange(e)
  }

  /**
   * The tooltip text after the status image, for event `e` switching from
   * `lastMix` in the dive the functions `d` describe.
   */
  function ToolTipName(e: Event, lastMix: GasMix, d: Domain): (name: seq<Token>)
    // every tooltip starts with the event's translated name
    ensures |name| >= 1 && name[0] == Tr(e.name)
    // a gas change names its gas, its cylinder when it has one, and the counterdiffusion
    // line exactly when helium drops
    ensures d.isGasChange(e) ==> |name| >= 3 && name[1..3] == [Text(": "), GasName(d.gasMixOf(e))]
    ensures d.isGasChange(e) ==> (Cylinder(e.gasIndex + 1) in name <==> e.gasIndex >= 0)
    ensures d.isGasChange(e) ==>
              var icd := d.counterdiffusion(lastMix, d.gasMixOf(e));
              (IcdNote(icd.exceeds, icd.dHe, icd.dN2) in name <==> icd.dHe < 0)
    // and nothing else: the cylinder comes right after the gas, the counterdiffusion line last
    ensures d.isGasChange(e) ==>
              var icd := d.counterdiffusion(lastMix, d.gasMixOf(e));
              |name| == 3 + (if e.gasIndex >= 0 then 1 else 0) + (if icd.dHe < 0 then 1 else 0)
    ensures d.isGasChange(e) && e.gasIndex >= 0 ==> name[3] == Cylinder(e.gasIndex + 1)
    ensures d.isGasChange(e) ==>
              var icd := d.counterdiffusion(lastMix, d.gasMixOf(e));
              icd.dHe < 0 ==> name[|name| - 1] == IcdNote(icd.exceeds, icd.dHe, icd.dN2)
    // only gas changes mention gas, cylinder or counterdiffusion, and cylinders count from 1
    ensures (exists t :: t in name && (t.GasName? || t.Cylinder? || t.IcdNote?)) <==> d.isGasChange(e)
    ensures forall t :: t in name && t.Cylinder? ==> t.number >= 1
    // otherwise a mode change (exact name) shows its mode
    ensures !d.isGasChange(e) && e.name == "modechange" ==> name == [Tr(e.name), Mode(e.value)]
    // otherwise a nonzero value is shown
    ensures !d.isGasChange(e) && e.name != "modechange" && e.value != 0 ==>
              name == [Tr(e.name), ValueToken(e)]
    // otherwise a zero setpoint change is the manual switch to open circuit
    ensures !d.isGasChange(e) && e.name != "modechange" && e.value == 0 && IsSetpointChange(e) ==>
              name == [Tr(e.name), Text(":\n"), Tr("Manual switch to OC")]
    // otherwise only the flags add something
    ensures IsPlain(e, d) ==> name == [Tr(e.name)] + FlagSuffix(e.flags)
    ensures |name| == 1 <==> IsPlain(e, d) && e.flags & (SAMPLE_FLAGS_BEGIN | SAMPLE_FLAGS_END) == 0
  {
    var head := [Tr(e.name)];
    if d.isGasChange(e) then
      var mix := d.gasMixOf(e);
      var icd := d.counterdiffusion(lastMix, mix);
      var cylinder := if e.gasIndex >= 0 then [Cylinder(e.gasIndex + 1)] else [];
      var note := if icd.dHe < 0 then [IcdNote(icd.exceeds, icd.dHe, icd.dN2)] else [];
      var name := head + [Text(": "), GasName(mix)] + cylinder + note;
      assert name[2] == GasName(mix);
      name
    else if e.name == "modechange" then head + [Mode(e.value)]
    else if e.value != 0 then head + [ValueToken(e)]
    else if IsSetpointChange(e) then head + [Text(":\n"), Tr("Manual switch to OC")]
    else head + FlagSuffix(e.flags)
  }
}

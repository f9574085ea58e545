/**
 * The marker item itself: the event it shows, the depth found for it, and the
 * state the item sets through its setters (icon, icon offset, tooltip,
 * visibility and position).
 */
module EventItem {
  import opened Events
  import opened DepthLookup
  import opened EventIcon
  import opened EventTooltip

  /** A position on the profile scene. */
  datatype Point = Point(x: real, y: real)

  /** Where the icon is drawn relative to the item's position. */
  datatype Offset = AtPosition | RaisedByIconHeight

  class DiveEventItem {
    var ev: Option<Event>       // the event shown (None stands for a null event)
    var depth: int              // depth found for the event's time, or DEPTH_NOT_FOUND
    var icon: Option<Icon>      // None until an icon is set
    var offset: Offset
    var toolTip: seq<Token>
    var visible: bool
    var pos: Point

    /**
     * A marker for `e` on the plotted profile `pi`. `timeToX` and `depthToY`
     * are the current value-to-position maps of the time and depth axes, and
     * `isHidden` the user's choice of hidden events by name and flags.
     */
    constructor (e: Event, lastMix: GasMix, d: Domain, severitySupport: bool, pi: seq<PlotEntry>,
                 isHidden: (string, bv32) -> bool, timeToX: int -> real, depthToY: int -> real)
      requires Sorted(pi)
      ensures ev == Some(e) && depth == DepthAt(pi, e.time)
      ensures icon == Some(Classify(e, lastMix, d, severitySupport))
      ensures offset == if icon == Some(Bookmark) then RaisedByIconHeight else AtPosition
      ensures toolTip == [StatusIcon] + ToolTipName(e, lastMix, d)
      ensures visible <==> depth != DEPTH_NOT_FOUND && !isHidden(e.name, e.flags)
      ensures pos == if depth == DEPTH_NOT_FOUND then Point(0.0, 0.0) else Point(timeToX(e.time), depthToY(depth))
    {
      ev := Some(e);
      var found := DepthAtTime(pi, e.time);
      depth := found;
      icon := None;
      offset := AtPosition;
      toolTip := [];
      visible := true;
      pos := Point(0.0, 0.0);
      new;
      SetupPixmap(lastMix, d, severitySupport);
      SetupToolTipString(lastMix, d);
      RecalculatePos(isHidden, timeToX, depthToY);
    }

    /** Sets the icon the decision table picks; a bookmark's icon is raised above its position. */
    method SetupPixmap(lastMix: GasMix, d: Domain, severitySupport: bool)
      requires ev.Some?
      modifies this`icon, this`offset
      ensures icon == Some(Classify(ev.value, lastMix, d, severitySupport))
      ensures offset == if icon == Some(Bookmark) then RaisedByIconHeight else old(offset)
    {
      var chosen := Classify(ev.value, lastMix, d, severitySupport);
      icon := Some(chosen);
      if chosen == Bookmark {
        offset := RaisedByIconHeight;
      }
    }

    /** Builds the tooltip piece by piece, first matching rule wins. */
    method SetupToolTipString(lastMix: GasMix, d: Domain)
      requires ev.Some?
      modifies this`toolTip
      ensures toolTip == [StatusIcon] + ToolTipName(ev.value, lastMix, d)
    {
      var e := ev.value;
      var name := [Tr(e.name)];
      if d.isGasChange(e) {
        var mix := d.gasMixOf(e);
        name := name + [Text(": ")];
        name := name + [GasName(mix)];
        if e.gasIndex >= 0 {
          name := name + [Cylinder(e.gasIndex + 1)];
        }
        var icd := d.counterdiffusion(lastMix, mix);
        if icd.dHe < 0 {
          name := name + [IcdNote(icd.exceeds, icd.dHe, icd.dN2)];
        }
      } else if e.name == "modechange" {
        name := name + [Mode(e.value)];
      } else if e.value != 0 {
        if IsSetpointChange(e) {
          name := name + [Setpoint(e.value)];
        } else if IsCeilingWaypoint(e) {
          name := name + [CeilingDepth(e.value)];
        } else {
          name := name + [Number(e.value)];
        }
      } else if IsSetpointChange(e) {
        name := name + [Text(":\n"), Tr("Manual switch to OC")];
      } else if e.flags & SAMPLE_FLAGS_BEGIN != 0 {
        name := name + [Tr(" begin")];
      } else if e.flags & SAMPLE_FLAGS_END != 0 {
        name := name + [Tr(" end")];
      }
      toolTip := [StatusIcon] + name;
    }

    /**
     * Whether the user has chosen to hide this marker: decided by the event's
     * name and flags alone, whatever its time, value or depth.
     */
    function ShouldBeHidden(isHidden: (string, bv32) -> bool): (hidden: bool)
      reads this`ev
      requires ev.Some?
      ensures hidden <==> isHidden(ev.value.name, ev.value.flags)
    {
      isHidden(ev.value.name, ev.value.flags)
    }

    /**
     * Places the marker: nothing happens without an event; a marker whose
     * depth was not found is hidden where it is; any other one is shown unless
     * the user hides it, at its time and depth through the axes' maps.
     */
    method RecalculatePos(isHidden: (string, bv32) -> bool, timeToX: int -> real, depthToY: int -> real)
      modifies this`visible, this`pos
      ensures ev.None? ==> visible == old(visible) && pos == old(pos)
      ensures ev.Some? && depth == DEPTH_NOT_FOUND ==> !visible && pos == old(pos)
      ensures ev.Some? && depth != DEPTH_NOT_FOUND ==>
                visible == !ShouldBeHidden(isHidden) && pos == Point(timeToX(ev.value.time), depthToY(depth))
      // placing the marker never changes whether the user hides it
      ensures ev.Some? ==> ShouldBeHidden(isHidden) == old(ShouldBeHidden(isHidden))
    {
      if ev.None? {
        return;
      }
      if depth == DEPTH_NOT_FOUND {
        visible := false;
        return;
      }
      visible := !ShouldBeHidden(isHidden);
      var x := timeToX(ev.value.time);
      var y := depthToY(depth);
      pos := Point(x, y);
    }
  }

  /**
   * Two markers whose events agree in name and flags are hidden alike,
   * whatever their times, values, depths, icons, tooltips or positions.
   */
  lemma SameNameAndFlagsHiddenAlike(a: DiveEventItem, b: DiveEventItem, isHidden: (string, bv32) -> bool)
    requires a.ev.Some? && b.ev.Some?
    requires a.ev.value.name == b.ev.value.name && a.ev.value.flags == b.ev.value.flags
    ensures a.ShouldBeHidden(isHidden) == b.ShouldBeHidden(isHidden)
  {
  }

  /**
   * A mode change to value 0 (open circuit) that is not also a gas change gets
   * the bailout icon and a tooltip naming the mode.
   */
  lemma ModeChangeToOpenCircuit(e: Event, lastMix: GasMix, d: Domain, severitySupport: bool)
    requires e.name == "modechange" && e.value == 0 && !d.isGasChange(e)
    ensures Classify(e, lastMix, d, severitySupport) == Bailout
    ensures ToolTipName(e, lastMix, d) == [Tr("modechange"), Mode(0)]
  {
  }

  /**
   * A zero-valued setpoint change of the pO2 type that is not a gas change
   * ends its tooltip with the manual switch to open circuit.
   */
  lemma ZeroSetpointChangeIsManualSwitch(e: Event, lastMix: GasMix, d: Domain)
    requires e.name == "SP change" && e.kind == SAMPLE_EVENT_PO2 && e.value == 0 && !d.isGasChange(e)
    ensures var name := ToolTipName(e, lastMix, d); name[|name| - 1] == Tr("Manual switch to OC")
  {
  }
}

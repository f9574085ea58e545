/**
 * Which events are worth a marker at all: those inside the plotted time
 * window, except the spurious initial gas changes and the surface events at
 * the very start or end of a dive.
 */
module EventInterest {
  import opened Events
  import opened DepthLookup

  /** The drop rule for a gas change (exact name) that only tells the initial gas. */
  predicate IsInitialGasChange(e: Event, firstSampleTime: Option<int>, pi: seq<PlotEntry>, surfaceThreshold: int) {
    e.name == "gaschange" &&
    (e.time == 0 ||
     (firstSampleTime.Some? && e.time == firstSampleTime.value) ||
     DepthAt(pi, e.time) < surfaceThreshold)
  }

  /** The drop rule for a surface event (exact name) in the first or last 30 seconds of a dive. */
  predicate IsEdgeSurfaceEvent(e: Event, duration: int) {
    e.name == "surface" && (e.time <= 30 || e.time + 30 >= duration)
  }

  /**
   * Whether event `e` gets a marker on a plot showing [firstSecond, lastSecond)
   * of a dive of `duration` seconds. `firstSampleTime` is the time of the dive
   * computer's first sample (None when it has no sample array), `pi` the plotted
   * profile and `surfaceThreshold` the depth, in millimetres, below which a
   * sample counts as at the surface.
   */
  function IsInteresting(e: Event, firstSampleTime: Option<int>, pi: seq<PlotEntry>,
                         firstSecond: int, lastSecond: int, duration: int, surfaceThreshold: int): (r: bool)
    // outside the window: never
    ensures e.time < firstSecond || e.time >= lastSecond ==> !r
    // spurious initial gas changes: never
    ensures e.name == "gaschange" && e.time == 0 ==> !r
    ensures e.name == "gaschange" && firstSampleTime == Some(e.time) ==> !r
    ensures e.name == "gaschange" && DepthAt(pi, e.time) < surfaceThreshold ==> !r
    // surface events near either end of the dive: never
    ensures e.name == "surface" && (e.time <= 30 || e.time + 30 >= duration) ==> !r
    // everything else inside the window: always
    ensures (firstSecond <= e.time < lastSecond &&
             !IsInitialGasChange(e, firstSampleTime, pi, surfaceThreshold) &&
             !IsEdgeSurfaceEvent(e, duration)) ==> r
  {
    if e.time < firstSecond || e.time >= lastSecond then false
    else if IsInitialGasChange(e, firstSampleTime, pi, surfaceThreshold) then false
    else if e.name == "surface" then
      var time := e.time;
      !(time <= 30 || time + 30 >= duration)
    else true
  }

  /**
   * A gas change whose time has no plotted sample is dropped whenever the
   * surface threshold lies above the lookup's not-found sentinel.
   */
  lemma GasChangeWithoutSampleIsDropped(e: Event, firstSampleTime: Option<int>, pi: seq<PlotEntry>,
                                        firstSecond: int, lastSecond: int, duration: int, surfaceThreshold: int)
    requires e.name == "gaschange"
    requires forall j :: 0 <= j < |pi| ==> pi[j].sec != e.time
    requires DEPTH_NOT_FOUND < surfaceThreshold
    ensures !IsInteresting(e, firstSampleTime, pi, firstSecond, lastSecond, duration, surfaceThreshold)
  {
  }

  /**
   * Names other than "gaschange" and "surface" (compared exactly, so other
   * spellings included) are interesting exactly when inside the window.
   */
  lemma OtherNamesOnlyWindowed(e: Event, firstSampleTime: Option<int>, pi: seq<PlotEntry>,
                               firstSecond: int, lastSecond: int, duration: int, surfaceThreshold: int)
    requires e.name != "gaschange" && e.name != "surface"
    ensures IsInteresting(e, firstSampleTime, pi, firstSecond, lastSecond, duration, surfaceThreshold) <==>
            firstSecond <= e.time < lastSecond
  {
  }
}

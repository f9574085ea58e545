/**
 * Depth at an exact time of the plotted profile: a binary search for the
 * first sample not earlier than the time, accepted only when its time is
 * exactly the one asked for.
 */
module DepthLookup {
  import opened Events

  /** The plotted samples are in non-decreasing time order. */
  predicate Sorted(entries: seq<PlotEntry>) {
    forall i, j :: 0 <= i < j < |entries| ==> entries[i].sec <= entries[j].sec
  }

  /**
   * The samples are split by `t`: every sample earlier than `t` precedes every
   * sample that is not. This is all a lower-bound search needs.
   */
  predicate Partitioned(entries: seq<PlotEntry>, t: int) {
    forall i, j :: 0 <= i < j < |entries| && entries[j].sec < t ==> entries[i].sec < t
  }

  /** Index of the first sample whose time is exactly `t`, if there is one. */
  function FirstAt(entries: seq<PlotEntry>, t: int): (r: Option<nat>)
    ensures r.Some? ==> r.value < |entries| && entries[r.value].sec == t
    ensures r.Some? ==> forall j :: 0 <= j < r.value ==> entries[j].sec != t
    ensures r.None? ==> forall j :: 0 <= j < |entries| ==> entries[j].sec != t
    decreases |entries|
  {
    if |entries| == 0 then None
    else if entries[0].sec == t then Some(0)
    else
      match FirstAt(entries[1..], t)
      case None => None
      case Some(i) => Some(i + 1)
  }

  /**
   * The depth recorded at exactly time `t`: that of the first sample at `t`,
   * or DEPTH_NOT_FOUND when no sample lies at `t`.
   */
  function DepthAt(entries: seq<PlotEntry>, t: int): (d: int)
    ensures (forall j :: 0 <= j < |entries| ==> entries[j].sec != t) ==> d == DEPTH_NOT_FOUND
    ensures forall i :: (0 <= i < |entries| && entries[i].sec == t &&
                         forall j :: 0 <= j < i ==> entries[j].sec != t) ==> d == entries[i].depth
  {
    match FirstAt(entries, t)
    case None => DEPTH_NOT_FOUND
    case Some(i) => entries[i].depth
  }

  /** A time-sorted profile is split by every time. */
  lemma SortedIsPartitioned(entries: seq<PlotEntry>, t: int)
    requires Sorted(entries)
    ensures Partitioned(entries, t)
  {
  }

  /** The lower bound of `t`: the first index whose sample is not earlier than `t`. */
  method LowerBound(entries: seq<PlotEntry>, t: int) returns (k: nat)
    requires Partitioned(entries, t)
    ensures k <= |entries|
    ensures forall i :: 0 <= i < k ==> entries[i].sec < t
    ensures forall i :: k <= i < |entries| ==> entries[i].sec >= t
  {
    var lo, hi := 0, |entries|;
    while lo < hi
      invariant 0 <= lo <= hi <= |entries|
      invariant forall i :: 0 <= i < lo ==> entries[i].sec < t
      invariant forall i :: hi <= i < |entries| ==> entries[i].sec >= t
      decreases hi - lo
    {
      var mid := lo + (hi - lo) / 2;
      if entries[mid].sec < t {
        lo := mid + 1;
      } else {
        hi := mid;
      }
    }
    k := lo;
  }

  /**
   * The lookup the markers use: search for the lower bound of `t` and accept
   * it only when a sample exists there and its time is exactly `t`.
   */
  method DepthAtTime(entries: seq<PlotEntry>, t: int) returns (depth: int)
    requires Sorted(entries)
    ensures depth == DepthAt(entries, t)
  {
    SortedIsPartitioned(entries, t);
    var k := LowerBound(entries, t);
    if k == |entries| || entries[k].sec != t {
      depth := DEPTH_NOT_FOUND;
      return;
    }
    depth := entries[k].depth;
  }

  /** Any time past the last sample of a sorted profile is not found. */
  lemma AfterLastSampleNotFound(entries: seq<PlotEntry>, t: int)
    requires Sorted(entries)
    requires |entries| > 0 && t > entries[|entries| - 1].sec
    ensures DepthAt(entries, t) == DEPTH_NOT_FOUND
  {
  }

  /**
   * With real depths (never negative), the sentinel is returned exactly when
   * no sample lies at `t`.
   */
  lemma NotFoundIffNoSample(entries: seq<PlotEntry>, t: int)
    requires forall i :: 0 <= i < |entries| ==> entries[i].depth >= 0
    ensures DepthAt(entries, t) == DEPTH_NOT_FOUND <==>
            forall j :: 0 <= j < |entries| ==> entries[j].sec != t
  {
  }

  /** A three-sample profile: an exact time is found, a time between samples is not. */
  lemma ThreeSampleExample()
    ensures DepthAt([PlotEntry(0, 0), PlotEntry(10, 5), PlotEntry(20, 12)], 10) == 5
    ensures DepthAt([PlotEntry(0, 0), PlotEntry(10, 5), PlotEntry(20, 12)], 15) == DEPTH_NOT_FOUND
  {
  }
}

/**
 * Data model of the event markers drawn on a dive profile: the event record,
 * gas mixes, the plotted (time, depth) samples, and the functions of the dive
 * log that the markers consult but that are defined elsewhere.
 */
module Events {

  datatype Option<+T> = None | Some(value: T)

  /** Depth reported by the lookup when no plotted sample lies at the asked time. */
  const DEPTH_NOT_FOUND: int := -2342

  // Sample-event types and flag layout as libdivecomputer's parser.h defines them
  // (that header is not part of this model; only the values are used here).
  const SAMPLE_EVENT_CEILING: int := 4
  const SAMPLE_EVENT_BOOKMARK: int := 8
  const SAMPLE_EVENT_PO2: int := 20
  const SAMPLE_FLAGS_BEGIN: bv32 := 1
  const SAMPLE_FLAGS_END: bv32 := 2
  const SAMPLE_FLAGS_SEVERITY_SHIFT: int := 2
  const SAMPLE_FLAGS_SEVERITY_MASK: bv32 := 0x1C

  /** A breathing gas; both fractions are in per-mille. */
  datatype GasMix = GasMix(o2: int, he: int)

  /**
   * An event of a dive computer: its name, time offset in seconds, value,
   * type tag (`kind`), flag bits and the cylinder index of its gas (negative
   * when the event names no cylinder).
   */
  datatype Event = Event(name: string, time: int, value: int, kind: int, flags: bv32, gasIndex: int)

  /** One point of the plotted profile: time in seconds, depth in millimetres. */
  datatype PlotEntry = PlotEntry(sec: int, depth: int)

  /**
   * Outcome of the isobaric-counterdiffusion check of a gas switch: whether
   * the switch exceeds the limit, and the per-mille changes of nitrogen and helium.
   */
  datatype Icd = Icd(exceeds: bool, dN2: int, dHe: int)

  /**
   * The dive-log functions the markers rely on, taken as given:
   * whether an event is a gas change, the mix an event switches to (for the
   * dive at hand), whether a mix is air, and the counterdiffusion check of a
   * switch from a previous mix to a new one.
   */
  datatype Domain = Domain(
    isGasChange: Event -> bool,
    gasMixOf: Event -> GasMix,
    isAir: GasMix -> bool,
    counterdiffusion: (GasMix, GasMix) -> Icd)

  /** ASCII lower-casing, as the C library does in the "C" locale. */
  function Lower(c: char): (l: char)
    ensures !('A' <= l <= 'Z')
    ensures l == c || l as int == c as int + 32
    ensures 'a' <= c <= 'z' ==> l == c
    ensures !('A' <= c <= 'Z') ==> l == c
  {
    if 'A' <= c <= 'Z' then (c as int + 32) as char else c
  }

  /** Lower-casing twice is lower-casing once. */
  lemma LowerIsIdempotent(c: char)
    ensures Lower(Lower(c)) == Lower(c)
  {
  }

  /** Equality of two names when ASCII letter case is ignored. */
  predicate SameCaseInsensitive(a: string, b: string) {
    |a| == |b| && forall i :: 0 <= i < |a| ==> Lower(a[i]) == Lower(b[i])
  }

  lemma SameCaseInsensitiveIsEquivalence(a: string, b: string, c: string)
    ensures SameCaseInsensitive(a, a)
    ensures SameCaseInsensitive(a, b) ==> SameCaseInsensitive(b, a)
    ensures SameCaseInsensitive(a, b) && SameCaseInsensitive(b, c) ==> SameCaseInsensitive(a, c)
  {
  }
}

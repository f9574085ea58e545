/**
 * Choice of the icon that marks an event on the profile: an ordered decision
 * table in which the first matching rule wins and every event gets exactly one
 * icon.
 */
module EventIcon {
  import opened Events

  /** The four kinds of gas a gas-change icon can show. */
  datatype GasFamily = Trimix | Air | Oxygen | Ean

  /**
   * The closed set of marker icons. A gas-change icon is one of four gas
   * families, each in a plain and an isobaric-counterdiffusion (ICD) variant.
   */
  datatype Icon =
    | Warning
    | Bailout
    | OnCcrLoop
    | Bookmark
    | GasChange(family: GasFamily, icd: bool)
    | Transparent
    | Info
    | Violation

  /** Alarm names (generic, then those of the Uemis downloader) shown with the violation icon. */
  const VIOLATION_NAMES: seq<string> := [
    "violation", "Safety stop violation", "pO₂ ascend alarm", "RGT alert",
    "Dive time alert", "Low battery alert", "Speed alarm"]

  /** Names (generic, then the Uemis tank-change hint and the marker) shown with the info icon. */
  const INFO_NAMES: seq<string> := [
    "non stop time", "safety stop", "safety stop (voluntary)", "Tank change suggested", "Marker"]

  /** The name equals one of `names`, ignoring letter case. */
  predicate NameInList(name: string, names: seq<string>) {
    exists k :: 0 <= k < |names| && SameCaseInsensitive(name, names[k])
  }

  predicate IsModeChange(name: string) {
    SameCaseInsensitive(name, "modechange")
  }

  /** The three rules that precede the gas-change rule: empty name, mode change, bookmark. */
  predicate HeadApplies(e: Event) {
    |e.name| == 0 || IsModeChange(e.name) || e.kind == SAMPLE_EVENT_BOOKMARK
  }

  /**
   * Events that some dive computers emit as internals: a heading in every
   * sample, or a setpoint change at time 0 that only tells the dive type.
   */
  predicate IsInternalNoise(e: Event) {
    SameCaseInsensitive(e.name, "heading") || (SameCaseInsensitive(e.name, "SP change") && e.time == 0)
  }

  /** The severity field of the flag bits. */
  function Severity(flags: bv32): (s: int)
    ensures 0 <= s <= 7
    ensures flags & SAMPLE_FLAGS_SEVERITY_MASK == 0 ==> s == 0
  {
    ((flags & SAMPLE_FLAGS_SEVERITY_MASK) >> SAMPLE_FLAGS_SEVERITY_SHIFT) as int
  }

  /**
   * The severity the table consults: the flag field where the dive-computer
   * library supports severities, and none (0) where it does not.
   */
  function SeverityLevel(e: Event, severitySupport: bool): (s: int)
    ensures 0 <= s <= 7
    ensures !severitySupport ==> s == 0
  {
    if severitySupport then Severity(e.flags) else 0
  }

  /** The icon of a gas change to `mix`; `icd` says whether the switch fails the counterdiffusion check. */
  function GasChangeIcon(mix: GasMix, icd: bool, isAir: GasMix -> bool): (icon: Icon)
    ensures icon.GasChange? && icon.icd == icd
    ensures icon.family == Trimix <==> mix.he != 0
    ensures icon.family == Air <==> mix.he == 0 && isAir(mix)
    ensures icon.family == Oxygen <==> mix.he == 0 && !isAir(mix) && mix.o2 == 1000
    ensures icon.family == Ean <==> mix.he == 0 && !isAir(mix) && mix.o2 != 1000
  {
    var family :=
      if mix.he != 0 then Trimix
      else if isAir(mix) then Air
      else if mix.o2 == 1000 then Oxygen
      else Ean;
    GasChange(family, icd)
  }

  /** The rules after the gas-change rule, for events none of the earlier rules took. */
  function TailIcon(e: Event, severitySupport: bool): (icon: Icon)
    ensures icon == Transparent || icon == Info || icon == Warning || icon == Violation
    ensures icon == Transparent <==> IsInternalNoise(e) || SeverityLevel(e, severitySupport) == 1
    ensures icon != Transparent && SeverityLevel(e, severitySupport) == 2 ==> icon == Info
    ensures icon != Transparent && SeverityLevel(e, severitySupport) == 3 ==> icon == Warning
    ensures icon != Transparent && SeverityLevel(e, severitySupport) == 4 ==> icon == Violation
    ensures icon != Transparent && !(2 <= SeverityLevel(e, severitySupport) <= 4) ==>
              (icon == Violation <==> NameInList(e.name, VIOLATION_NAMES))
    ensures icon != Transparent && !(2 <= SeverityLevel(e, severitySupport) <= 4) &&
            !NameInList(e.name, VIOLATION_NAMES) ==>
              (icon == Info <==> NameInList(e.name, INFO_NAMES))
  {
    var level := SeverityLevel(e, severitySupport);
    if level == 1 || IsInternalNoise(e) then Transparent
    else if level == 2 then Info
    else if level == 3 then Warning
    else if level == 4 then Violation
    else if NameInList(e.name, VIOLATION_NAMES) then Violation
    else if NameInList(e.name, INFO_NAMES) then Info
    else Warning
  }

  /**
   * The whole table: the icon for event `e`, given the mix breathed before it
   * (`lastMix`), the dive-log functions `d` and whether severities are supported.
   */
  function Classify(e: Event, lastMix: GasMix, d: Domain, severitySupport: bool): (icon: Icon)
    ensures |e.name| == 0 ==> icon == Warning
    ensures icon == Bailout <==> |e.name| > 0 && IsModeChange(e.name) && e.value == 0
    ensures icon == OnCcrLoop <==> |e.name| > 0 && IsModeChange(e.name) && e.value != 0
    ensures icon == Bookmark <==> |e.name| > 0 && !IsModeChange(e.name) && e.kind == SAMPLE_EVENT_BOOKMARK
    ensures icon.GasChange? <==> !HeadApplies(e) && d.isGasChange(e)
    ensures icon.GasChange? ==>
              icon == GasChangeIcon(d.gasMixOf(e), d.counterdiffusion(lastMix, d.gasMixOf(e)).exceeds, d.isAir)
    ensures !HeadApplies(e) && !d.isGasChange(e) ==> icon == TailIcon(e, severitySupport)
  {
    if |e.name| == 0 then Warning
    else if IsModeChange(e.name) then (if e.value == 0 then Bailout else OnCcrLoop)
    else if e.kind == SAMPLE_EVENT_BOOKMARK then Bookmark
    else if d.isGasChange(e) then
      var mix := d.gasMixOf(e);
      GasChangeIcon(mix, d.counterdiffusion(lastMix, mix).exceeds, d.isAir)
    else TailIcon(e, severitySupport)
  }

  /**
   * Support for severities changes the icon only of events whose severity
   * field holds one of the four levels the table knows.
   */
  lemma SeveritySupportOnlyAffectsSeverityEvents(e: Event, lastMix: GasMix, d: Domain)
    ensures Classify(e, lastMix, d, true) != Classify(e, lastMix, d, false) ==>
              1 <= Severity(e.flags) <= 4
  {
  }

  /**
   * Without severity support the flag bits play no part in the icon: two
   * events that differ only in their flags (and that the dive log treats
   * alike) get the same icon.
   */
  lemma ClassifyIgnoresFlagsWithoutSeverity(e: Event, flags: bv32, lastMix: GasMix, d: Domain)
    requires d.isGasChange(e) == d.isGasChange(e.(flags := flags))
    requires d.gasMixOf(e) == d.gasMixOf(e.(flags := flags))
    ensures Classify(e, lastMix, d, false) == Classify(e.(flags := flags), lastMix, d, false)
  {
  }

  /**
   * Names are compared without regard to letter case: renaming an event to
   * the same name in another case does not change its icon.
   */
  lemma ClassifyIgnoresNameCase(e: Event, name: string, lastMix: GasMix, d: Domain, severitySupport: bool)
    requires SameCaseInsensitive(e.name, name)
    requires d.isGasChange(e) == d.isGasChange(e.(name := name))
    requires d.gasMixOf(e) == d.gasMixOf(e.(name := name))
    ensures Classify(e, lastMix, d, severitySupport) == Classify(e.(name := name), lastMix, d, severitySupport)
  {
  }
}

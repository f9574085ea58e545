# Dive event markers

This project models the event markers that the dive-profile view of the
Subsurface dive log draws on the depth-over-time plot (`DiveEventItem`). Each
marker stands for one event of a dive computer: a gas change, an alarm, a
mode change, a bookmark and so on. The model covers four parts of the marker:

- **Depth lookup** (`DepthLookup`). A binary search over the time-sorted
  plotted samples finds the depth recorded at the event's exact second. If no
  sample lies at that second, the lookup returns the sentinel
  `DEPTH_NOT_FOUND` (-2342).
- **Icon choice** (`EventIcon`). An ordered decision table, first match wins,
  maps an event to exactly one icon. The icons are warning, bailout,
  on-CCR-loop, bookmark, the gas-change icons (trimix, air, oxygen or EAN,
  each plain or ICD) and transparent, info and violation. ICD is the
  isobaric-counterdiffusion warning of a gas switch.
- **Interest filter** (`EventInterest`). This predicate decides whether an
  event gets a marker at all. It keeps events inside the plotted window. It
  drops the spurious initial gas changes and the surface events at either end
  of the dive.
- **Tooltip and placement** (`EventTooltip`, `EventItem`). The tooltip is the
  event's translated name plus one suffix, chosen first match wins. The
  `DiveEventItem` class holds the state the item sets through its setters:
  the icon and its offset, the tooltip, visibility and position.

`Events` holds the shared data model. The dive-log functions the marker
calls but that are defined elsewhere are fields of the `Domain` record:
- `event_is_gaschange`
- `get_gasmix_from_event`
- `gasmix_is_air`
- `isobaric_counterdiffusion`

Each is taken as an arbitrary function. The hidden-event check `is_event_hidden`
and the axes' value-to-position maps are parameters of the class's methods.
`DiveEventItem.ShouldBeHidden` applies the hidden-event check to the item's
event. `SURFACE_THRESHOLD` is a parameter of the interest filter.

Names in the icon table are compared ignoring ASCII letter case, as
`strcasecmp` does in the C locale. The interest filter and the tooltip compare
names exactly, as the source does with `strcmp`. So an event called
"ModeChange" gets a mode-change icon, but its tooltip does not take the
mode-change branch.

Among the severity levels only level 1 gets the transparent icon; levels 2, 3
and 4 get the info, warning and violation icons.

## Model

| member | source | states |
|---|---|---|
| DepthLookup.FirstAt | profile-widget/diveeventitem.cpp:182-192 | the index returned holds a sample at exactly the asked time and no earlier sample does; None means no sample lies at that time |
| DepthLookup.DepthAt | profile-widget/diveeventitem.cpp:182-192 | the depth of the first sample at the asked time, or DEPTH_NOT_FOUND when no sample lies there |
| DepthLookup.SortedIsPartitioned | profile-widget/diveeventitem.cpp:185-186 | a time-sorted profile satisfies the lower-bound search's precondition for every time |
| DepthLookup.LowerBound | profile-widget/diveeventitem.cpp:185-186 | the binary search returns the first index whose sample is not earlier than the time: all before are earlier, none from it on is |
| DepthLookup.DepthAtTime | profile-widget/diveeventitem.cpp:182-192 | on a sorted profile, checking the lower bound for an exact match gives the depth of the first sample at the time, or the sentinel |
| DepthLookup.AfterLastSampleNotFound | profile-widget/diveeventitem.cpp:187-189 | a time past the last sample of a sorted profile is not found |
| DepthLookup.NotFoundIffNoSample | profile-widget/diveeventitem.cpp:14-14 | with non-negative depths the sentinel is returned exactly when no sample lies at the time |
| DepthLookup.ThreeSampleExample | profile-widget/diveeventitem.cpp:182-192 | on samples (0,0),(10,5),(20,12), second 10 gives depth 5 and second 15 is not found |
| EventIcon.Severity | profile-widget/diveeventitem.cpp:86-86 | the severity field extracted from the flag bits lies in 0..7 and is 0 when the field's bits are clear |
| EventIcon.SeverityLevel | profile-widget/diveeventitem.cpp:85-108 | without severity support the table sees no severity |
| EventIcon.GasChangeIcon | profile-widget/diveeventitem.cpp:64-84 | the gas-change icon is trimix iff helium is nonzero, else air iff the mix is air, else oxygen iff 1000 per-mille O2, else EAN; the ICD variant iff the counterdiffusion check fails |
| EventIcon.TailIcon | profile-widget/diveeventitem.cpp:85-127 | transparent iff heading, "SP change" at time 0, or severity 1; severity 2/3/4 give info/warning/violation; then the violation list, then the info list; everything else warning |
| EventIcon.Classify | profile-widget/diveeventitem.cpp:48-127 | empty name gives warning; bailout and on-CCR-loop exactly for "modechange" (any case) with value 0 or not; bookmark exactly for bookmark-typed events past those; a gas-change icon exactly for gas changes past the first three rules; the tail rules otherwise |
| EventIcon.SeveritySupportOnlyAffectsSeverityEvents | profile-widget/diveeventitem.cpp:85-108 | turning severity support on changes only the icons of events with severity 1 to 4 |
| EventIcon.ClassifyIgnoresFlagsWithoutSeverity | profile-widget/diveeventitem.cpp:85-108 | without severity support the flag bits do not affect the icon |
| EventIcon.ClassifyIgnoresNameCase | profile-widget/diveeventitem.cpp:50-122 | renaming an event to the same name in another letter case does not change its icon |
| EventTooltip.ValueToken | profile-widget/diveeventitem.cpp:156-165 | a nonzero value is shown as a setpoint for pO2 "SP change", as a ceiling depth for a waypoint above the ceiling, and as a plain number otherwise |
| EventTooltip.FlagSuffix | profile-widget/diveeventitem.cpp:170-172 | " begin" when the begin flag is set, even if the end flag is also set; " end" for the end flag alone; nothing when neither is set |
| EventTooltip.ToolTipName | profile-widget/diveeventitem.cpp:130-173 | starts with the translated name; a gas change adds exactly ": ", the gas name, then the 1-based cylinder iff index >= 0, then the ICD line last iff dHe < 0, and only gas changes mention gas; otherwise mode text, value, manual OC switch, or flag suffix, in that order of precedence |
| EventInterest.IsInteresting | profile-widget/diveeventitem.cpp:194-225 | false outside [firstSecond, lastSecond); false for "gaschange" at time 0, at the first sample's time, or shallower than the threshold; false for "surface" within 30 s of either end; true for every other event in the window |
| EventInterest.GasChangeWithoutSampleIsDropped | profile-widget/diveeventitem.cpp:208-213 | a "gaschange" with no sample at its time is dropped whenever the threshold exceeds the sentinel |
| EventInterest.OtherNamesOnlyWindowed | profile-widget/diveeventitem.cpp:198-224 | any other name, including other spellings of those two, is interesting exactly inside the window |
| EventItem.DiveEventItem.constructor | profile-widget/diveeventitem.cpp:18-32 | the new item's depth is the lookup's result, its icon and tooltip are those of the table, and it is visible exactly when the depth was found and the event is not hidden, at the axes' position of (time, depth) |
| EventItem.DiveEventItem.SetupPixmap | profile-widget/diveeventitem.cpp:48-59 | sets the table's icon; only a bookmark icon is raised by its height |
| EventItem.DiveEventItem.SetupToolTipString | profile-widget/diveeventitem.cpp:130-175 | the tooltip built step by step is the status image followed by ToolTipName |
| EventItem.DiveEventItem.ShouldBeHidden | profile-widget/diveeventitem.cpp:227-230 | the answer reads only the item's event, so setting depth, icon, tooltip, visibility or position never changes it; it is the hidden-event check on the event's name and flags |
| EventItem.SameNameAndFlagsHiddenAlike | profile-widget/diveeventitem.cpp:227-230 | two markers whose events share name and flags are hidden alike, whatever their times, values, depths or placement |
| EventItem.DiveEventItem.RecalculatePos | profile-widget/diveeventitem.cpp:232-245 | no event: nothing changes; depth not found: hidden, position kept; otherwise visible iff not hidden and placed at the axes' position of (time, depth); placing never changes whether the marker is hidden by the user |
| EventItem.ModeChangeToOpenCircuit | profile-widget/diveeventitem.cpp:52-55 | "modechange" with value 0 gets the bailout icon and the tooltip "modechange" plus the mode name |
| EventItem.ZeroSetpointChangeIsManualSwitch | profile-widget/diveeventitem.cpp:166-169 | a zero pO2 "SP change" tooltip ends with "Manual switch to OC" |

## Left out

- Qt graphics plumbing is not modelled. This covers item flags, pixmap loading and caching, pixel offsets, the HTML image markup at the head of the tooltip, and the diagnostic log line of a failed lookup. The icon is an enumeration, the image markup is the `StatusIcon` token, and the offset and position are abstract values.
- Translation is not modelled: translated text is the opaque token `Tr(key)`.
- Number formatting is not modelled. This covers the ICD percentages and threshold, the setpoint in bar, and the ceiling depth in user units. The tokens `IcdNote`, `Setpoint` and `CeilingDepth` carry the raw integers.
- `divemode_text_ui[ev->value]` is an unchecked array index in the source. The model keeps it as the token `Mode(value)`, so an out-of-range read is not modelled.
- The external functions are taken as arbitrary functions, not defined. These are `event_is_gaschange`, `get_gasmix_from_event`, `gasmix_is_air`, `isobaric_counterdiffusion`, `gasname`, `is_event_hidden` and the axes' `posAtValue`. Their definitions are not part of this model. Axis positions are `real` rather than `double`.
- The event-type numbers and flag layout come from libdivecomputer's parser.h, which is not part of this model. These are types 4 (ceiling), 8 (bookmark) and 20 (pO2), begin bit 1, end bit 2, and a 3-bit severity field at shift 2. Only their distinctness and the flag layout matter to the proofs.
- `SAMPLE_FLAGS_SEVERITY_SHIFT` is a compile-time option in the source. Here it is the run-time flag `severitySupport`.
- Case-insensitive comparison folds only ASCII letters, as `strcasecmp` does in the C locale. Other locales are not modelled.
- A null event name is not modelled separately. The empty string stands for it, as `empty_string` and `same_string_caseinsensitive` treat it. The source's `strcmp` on a null name is undefined behaviour and is not modelled.
- Integers are unbounded. A 32-bit overflow of `time + 30` or of a time near the integer limits is not modelled.
- A sample whose recorded depth is exactly -2342 mm cannot be told apart from a failed lookup, as in the source. `DepthLookup.NotFoundIffNoSample` therefore assumes non-negative depths.
- DepthLookup.DepthAtTime requires a time-sorted profile. `std::lower_bound` only promises a meaningful result on a partitioned range, and the plotted profile is sorted.
- EventInterest.IsInteresting looks depths up with the first-match `DepthAt`, which agrees with the binary search only on a time-sorted profile. On a partitioned but unsorted profile such as (10 s, 5 mm), (5 s, 100 mm) the source's lookup of second 5 fails while `DepthAt` gives 100 mm; the plotted profile is always sorted.
- The constructor's `speed`, `parent` and pixmap-set arguments, the destructor, `getEvent`/`getEventMutable` and the empty `eventVisibilityChanged` stub have no behaviour to model.
- `isInteresting`'s dive argument is unused in the source and is omitted. Its dive-computer argument contributes only the first sample's time and the duration, which are parameters here.

# Street slider and URL query composition

This project models two pieces of a web application built around an
interactive income "street" chart.

**The street widget's controller (`StreetDrawService`).** Stripped of
drawing, it is a small state machine:

- three drag flags: `sliderLeftMove`, `sliderRightMove` and `draggingSliders`;
- the grab offsets of a track drag, captured once;
- the pre-drag snapshot `currentLowIncome` / `currentHighIncome`;
- the live income range `lowIncome` / `highIncome`, read back through the
  scale's inverse;
- the release handler `pressedSlider`, which either resets quietly or sends
  the new range on the `filter` subject.

Around the state machine sit pure pieces:

- the defaulting in `init`;
- the `uniqBy('_id')` / `sortBy('income')` of places in `drawScale`;
- the level-label ranges of `isDrawLabels`;
- the clamp of the right label in `drawScrollLabel`;
- the narrow-viewport guards that pin a handle at its extreme.

The quirks of the code are modelled as written, though they look unintended:

- The low handle is pinned at a width of 568 pixels, the high one at 566.
- The filter test of `drawRightSlider` (line 775) groups `&&` and `||`
  differently from `drawLeftSlider` (line 670).
- A filtered release can send two events.

**The URL parameters service (`UrlParametersService`).**

- Each visible parameter of a page is compared with its default.
- A scalar that differs becomes `name=value`.
- A country or region list becomes `name=a,b,...` when it holds an entry that
  the default list lacks.
- The non-empty cells are joined with `&` in the page's order.
- The line is prefixed with `?` only when it is non-empty.
- `parseString`, the change-detecting setters and the merge of
  `dispatchToStore` complete it.

Layout:

- `StreetModel` (street_model.dfy) and `UrlModel` (url_model.dfy) define the
  states and every operation as a function: state before to state after.
- `StreetService` and `UrlService` hold the two services as classes. Their
  methods update fields in place and are proved to produce exactly the state
  the model functions compute.
- `StreetProperties` and `UrlProperties` prove what the code promises,
  stated over the model functions.
- `Strings` models the JavaScript string and array operations the URL code
  uses. `Optional` holds an option type.

Dependencies that are passed in:

- The log scale is a pair of functions. `IsLogScale` says the pair is strictly
  increasing and that the second inverts the first.
- `MathService.roundIncome`, `encodeURI` and `utilsService.parseUrl` are
  function parameters.
- The SVG's width, `window.innerWidth`, the device flags and the two
  breakpoints (`SVG_DEFAULTS.mobileWidth` and `MOBILE_SIZE`, whose values are
  not part of this model) are arguments of the constructor or of `init`.
- Sent events are appended to the ghost sequence `emitted`.
- `location.replaceState` calls are appended to the ghost sequence `replaced`.

## Model

| member | source | states |
|---|---|---|
| Optional.First | src/shared/street/street.service.ts:100-101 | `xs[0]` of an array: nothing exactly when the array is empty, otherwise its first element |
| StreetModel.Round | src/shared/street/street.service.ts:1066-1067 | `Math.round`: the integer `r` with `r <= x + 0.5 < r + 1`, so halves round up |
| StreetModel.Filtered | src/shared/street/street.service.ts:670 | The filter test of `drawLeftSlider` and of the track drag: a thing other than Families, or a country or region other than World, off mobile |
| StreetModel.RightFilteredAsWritten | src/shared/street/street.service.ts:775 | The filter test of `drawRightSlider` as grouped there: a thing other than Families or a country other than World on any device, or a region other than World off mobile |
| StreetModel.LeftPinned | src/shared/street/street.service.ts:597-599 | The low handle ignores redraws at a viewport of at most 568 pixels with the rounded low income at `poor` |
| StreetModel.RightPinned | src/shared/street/street.service.ts:702-704 | The high handle ignores redraws at a viewport of at most 566 pixels with the rounded high income at `rich` |
| StreetModel.Initialized | src/shared/street/street.service.ts:98-132 | `init` changes only configuration and range: drag session, scene and places stay unchanged |
| StreetModel.UniqById | src/shared/street/street.service.ts:282-285 | `uniqBy('_id')` never lengthens the list (its other properties are the `UniqById*` lemmas) |
| StreetModel.InsertByIncome | src/shared/street/street.service.ts:282-286 | One step of the insertion sort: the result holds the old places plus the new one |
| StreetModel.InsertByIncomeSorted | src/shared/street/street.service.ts:282-286 | Inserting into a list sorted by income keeps it sorted |
| StreetModel.SortByIncome | src/shared/street/street.service.ts:282-286 | `sortBy('income')` yields places in ascending income that are a permutation of its input |
| StreetModel.LevelRanges | src/shared/street/street.service.ts:204-213 | No ranges exactly when `showLabels` is off; otherwise one range per level label |
| StreetModel.RightLabelIncome | src/shared/street/street.service.ts:881-884 | Right label's income: never above `rich`; the rounded high income (or `rich` when unset) whenever that is at most `rich` |
| StreetModel.ScrollLabelDrawn | src/shared/street/street.service.ts:878-978 | `drawScrollLabel` leaves both label texts created and showing an amount, and moves no shade |
| StreetModel.LeftPlaced | src/shared/street/street.service.ts:600-690 | Low income becomes `scale.invert(x)`; left border becomes `x`, or `leftPoint - 12` on a filtered snap; high side, session and places unchanged |
| StreetModel.LeftSliderDrawn | src/shared/street/street.service.ts:596-699 | `drawLeftSlider` never changes the high income, the right border, the session or the places |
| StreetModel.RightPlaced | src/shared/street/street.service.ts:705-800 | High income becomes `scale.invert(x)`; right border becomes `x`, or `rightPoint + 12` on a snap under line 775's grouping; low side, session and places unchanged |
| StreetModel.RightSliderDrawn | src/shared/street/street.service.ts:701-809 | `drawRightSlider` never changes the low income, the left border, the session or the places |
| StreetModel.ScaleDrawn | src/shared/street/street.service.ts:279-287 | `drawScale` changes neither the configuration nor the drag session |
| StreetModel.HandlesRedrawn | src/shared/street/street.service.ts:828-829 | Both handles redrawn at the current range (also lines 383-384 and 551-552): configuration, session and places unchanged |
| StreetModel.SlidersRemoved | src/shared/street/street.service.ts:853-859 | Both handles are forgotten; configuration and session stay as they were |
| StreetModel.SvgCleared | src/shared/street/street.service.ts:861-876 | Every cached scene element is forgotten; configuration and session stay as they were |
| StreetModel.HousesDrawn | src/shared/street/street.service.ts:980-981 | `drawHouses` only empties `placesArray`; range, borders, scene, session and chosen places stay |
| StreetModel.HoverHouseDrawn | src/shared/street/street.service.ts:523-552 | `drawHoverHouse` with no place does nothing; otherwise the handles are removed (line 528) and redrawn at the current range; configuration, session and places unchanged |
| StreetModel.ClearedAndRedrawn | src/shared/street/street.service.ts:811-832 | `clearAndRedraw` with no places does nothing; otherwise handles removed, houses drawn, hover house drawn, handles redrawn; configuration, session and chosen places unchanged |
| StreetModel.TrackPressed | src/shared/street/street.service.ts:330-333 | Pressing the track sets `draggingSliders` |
| StreetModel.LeftHandlePressed | src/shared/street/street.service.ts:661-664 | Pressing the low handle sets `sliderLeftMove` |
| StreetModel.RightHandlePressed | src/shared/street/street.service.ts:766-769 | Pressing the high handle sets `sliderRightMove` |
| StreetModel.Snapshotted | src/shared/street/street.service.ts:398-401 | The snapshot is the current range when either half is unset, and is kept otherwise |
| StreetModel.Rules | src/shared/street/street.service.ts:405-439 | The pixel constants of the mouse handler (lines 405-439) and of the touch handler (lines 463-497) |
| StreetModel.Breakpoint | src/shared/street/street.service.ts:393-395 | The mouse handler ignores viewports below `mobileWidth`, the touch handler (line 448) below `MOBILE_SIZE` |
| StreetModel.Grabbed | src/shared/street/street.service.ts:405-411 | A captured (non-zero) grab offset is never overwritten; flags and snapshot unchanged |
| StreetModel.BordersSet | src/shared/street/street.service.ts:43-44 | Both borders hold a number; until a handle is first drawn its border is `undefined` and the offset taken from it is `NaN` |
| StreetModel.TrackMoved | src/shared/street/street.service.ts:403-431 | After a track-drag move the session is the grabbed one and the configuration is unchanged |
| StreetModel.InLeftWindow | src/shared/street/street.service.ts:433 | The low handle's window: at least `leftMin` and at most the right border plus `leftReach`; empty while the right border is `undefined` |
| StreetModel.InRightWindow | src/shared/street/street.service.ts:437 | The high handle's window: from the left border plus `rightGap` to the width plus `rightReach`; empty while the left border is `undefined` |
| StreetModel.Dragged | src/shared/street/street.service.ts:403-439 | An effective move never changes the configuration |
| StreetModel.Moved | src/shared/street/street.service.ts:390-440 | Move handler of either pointer kind (touch: lines 446-498): never changes the configuration |
| StreetModel.QuietTrack | src/shared/street/street.service.ts:1014-1025 | A track press with neither grab offset captured (an unset or `NaN` offset is falsy) |
| StreetModel.QuietLeft | src/shared/street/street.service.ts:1027-1038 | A low-handle release with no snapshot or with the low income at its snapshot |
| StreetModel.QuietRight | src/shared/street/street.service.ts:1040-1051 | A high-handle release with no snapshot or with the high income at its snapshot |
| StreetModel.LabelsCleared | src/shared/street/street.service.ts:1019-1022 | When either label exists both texts are emptied; the cached elements stay |
| StreetModel.CappedHigh | src/shared/street/street.service.ts:1059-1061 | A high income above `rich` becomes `rich + 0.00002`; any other is kept |
| StreetModel.Released | src/shared/street/street.service.ts:1012-1090 | `pressedSlider` never changes the configuration or the low income |
| StreetModel.Emissions | src/shared/street/street.service.ts:1063-1089 | The three filtered tests in order (low below `minIncome`, high above `maxIncome`, both inside), or the one unfiltered event |
| StreetModel.ReleaseEvents | src/shared/street/street.service.ts:1063-1089 | A quiet release sends nothing, any other the `Emissions` of the low and the capped high income |
| StreetModel.UpIgnored | src/shared/street/street.service.ts:501-509 | mouseup and touchend do nothing below `MOBILE_SIZE` or with no drag flag set |
| StreetModel.Up | src/shared/street/street.service.ts:501-518 | mouseup / touchend never change the configuration |
| StreetModel.UpEvents | src/shared/street/street.service.ts:501-518 | An ignored mouseup sends nothing; any other sends the release's events |
| StreetProperties.UniqByIdKeepsIds | src/shared/street/street.service.ts:282-285 | `uniqBy` keeps every identifier of its input and adds none |
| StreetProperties.UniqByIdUnique | src/shared/street/street.service.ts:282-285 | No two places `uniqBy` keeps share an identifier |
| StreetProperties.UniqByIdKeepsOnlyFirst | src/shared/street/street.service.ts:282-285 | Every kept place is the first place in the input with its identifier |
| StreetProperties.UniqByIdKeepsEveryFirst | src/shared/street/street.service.ts:282-285 | The first place with each identifier is kept |
| StreetProperties.UniqueIdsPermutation | src/shared/street/street.service.ts:282-286 | Reordering (as `sortBy` does) keeps identifiers unique |
| StreetProperties.DrawScalePlaces | src/shared/street/street.service.ts:279-287 | With places given: `placesArray` has unique ids, ascends by income, and holds exactly the first place of each id |
| StreetProperties.LevelRangesContiguous | src/shared/street/street.service.ts:208-213 | Ranges run from `poor` to `rich`; range `i` ends at `axisLabel[i]`, where range `i+1` begins; range `i` is named `levelLabels[i]` |
| StreetProperties.InitLevelRanges | src/shared/street/street.service.ts:102-108 | With the labels `init` sets up, the four levels span poor-low, low-medium, medium-high and high-rich, with the four label names |
| StreetProperties.InitDefaults | src/shared/street/street.service.ts:110-118 | Falsy bounds fall back to `poor` / `rich`, others are kept; min/max income are `poor`/`rich`; width is the SVG's less 60 |
| StreetProperties.DrawScaleKeepsRange | src/shared/street/street.service.ts:383-384 | Drawing the handles at the current range's pixels gives back the same range (the scale's inverse undoes it) |
| StreetProperties.ClearAndRedrawEmptiesPlaces | src/shared/street/street.service.ts:811-832 | With places, `clearAndRedraw` leaves `placesArray` empty (through `drawHouses`, line 981); under a log scale it keeps the range |
| StreetProperties.HoverHouseRedrawsHandles | src/shared/street/street.service.ts:523-552 | After a hover house each handle is drawn exactly when it is not pinned; a pinned handle stays removed; under a log scale the range is kept; with no place nothing changes |
| StreetProperties.PinnedHandlesIgnoreRedraw | src/shared/street/street.service.ts:597-599 | A pinned handle (lines 597 and 702) ignores every redraw: the state is unchanged |
| StreetProperties.BreakpointsDiffer | src/shared/street/street.service.ts:702 | At 567 pixels, with both handles at their extremes, the low handle is pinned but the high one still moves (breakpoints 568 vs 566) |
| StreetProperties.RightGroupingAsWritten | src/shared/street/street.service.ts:775-798 | Mobile device, filtered thing: the high handle takes the filtered branch the low one does not, and its homes shade sits 1.5 px right of the street shade |
| StreetProperties.RightGroupingAgrees | src/shared/street/street.service.ts:670 | Off mobile, or on the unfiltered world page, both groupings agree; unfiltered, the two right shades coincide |
| StreetProperties.MoveIgnored | src/shared/street/street.service.ts:393-396 | Below the breakpoint, or with no drag flag set, a move changes nothing |
| StreetProperties.MoveSnapshot | src/shared/street/street.service.ts:398-401 | An effective move takes the snapshot from the range when either half is unset, and keeps it otherwise |
| StreetProperties.MoveKeepsSession | src/shared/street/street.service.ts:390-440 | A move never changes the drag flags, and a captured grab offset survives every move |
| StreetProperties.TrackDragCapturesOffsets | src/shared/street/street.service.ts:405-411 | First track-drag move: the left offset becomes `x - grabLeft - leftBorder`, the right one `rightBorder - (x - grabRight)` (touch: lines 463-469); against an `undefined` border the offset stays unset |
| StreetProperties.TrackOutOfBoundsMovesNothing | src/shared/street/street.service.ts:413-428 | A track move out of bounds, or with a border `undefined`, leaves range, borders, scene and chosen places unchanged |
| StreetProperties.TrackInBoundsMovesBoth | src/shared/street/street.service.ts:413-428 | A track move in bounds empties the chosen places and redraws both handles at the pointer less the grab offsets |
| StreetProperties.TrackKeepsGap | src/shared/street/street.service.ts:413-428 | With the offsets fixed, the two handle positions keep their distance and each moves exactly as far as the pointer |
| StreetProperties.UnsetBorderBlocksDrag | src/shared/street/street.service.ts:43-44 | While a border is `undefined`: the other handle's window is empty, a track drag moves neither range nor scene, and a high-handle move only takes the snapshot |
| StreetProperties.HandleDragKeepsOffsets | src/shared/street/street.service.ts:433-439 | A move that is not a track drag leaves both grab offsets as they were |
| StreetProperties.SingleHandleWindow | src/shared/street/street.service.ts:433-439 | Outside a track drag, a grabbed handle outside its window does not move: the move only takes the snapshot |
| StreetProperties.LeftHandleFollows | src/shared/street/street.service.ts:433-435 | Outside a track drag, inside its window the low handle is redrawn under the pointer: low income = invert of `x - 47` (mouse), high income unchanged |
| StreetProperties.RightHandleFollows | src/shared/street/street.service.ts:437-439 | Outside a track drag, with the pointer in its window and the low handle not moving (not grabbed, or outside its own window, as with both handles grabbed), the high handle is redrawn under the pointer; the low income is unchanged |
| StreetProperties.Windows | src/shared/street/street.service.ts:433-439 | Mouse windows `52 <= x <= rightBorder + 17` and `leftBorder + 87 <= x <= width + 57`; touch windows of lines 490-496; each needs the other border defined |
| StreetProperties.ReleaseQuietTrack | src/shared/street/street.service.ts:1014-1025 | Track press without offsets: nothing sent; `draggingSliders` and offsets cleared; handle flags, snapshot and high income kept |
| StreetProperties.ReleaseQuietHandle | src/shared/street/street.service.ts:1027-1051 | Handle release at its snapshot (or with none): nothing sent; that handle's flag and the snapshot cleared; everything else kept |
| StreetProperties.QuietReleaseClearsLabels | src/shared/street/street.service.ts:1019-1022 | A quiet release empties both labels when they exist |
| StreetProperties.ReleaseEndsSession | src/shared/street/street.service.ts:1053-1061 | Any other release clears all flags, offsets and the snapshot, keeps the scene, and caps the high income above `rich` at `rich + 0.00002` |
| StreetProperties.UnfilteredReleaseEmitsOnce | src/shared/street/street.service.ts:1084-1089 | An unfiltered release sends exactly one event: the rounded low and capped high income |
| StreetProperties.FilteredReleaseCount | src/shared/street/street.service.ts:1063-1083 | A filtered release sends two events when the low income is below `minIncome` and the high above `maxIncome`, and one otherwise |
| StreetProperties.FilteredReleaseSubstitutes | src/shared/street/street.service.ts:1064-1082 | Filtered release: `round(minIncome - 3)` replaces a low income below the range, `round(maxIncome + 5)` a high one above it; in range, the range itself |
| StreetProperties.UnfilteredHighAtMostRich | src/shared/street/street.service.ts:1059-1088 | With an integral `rich`, no unfiltered event carries a high income above `rich` |
| StreetProperties.UnfilteredLowBelowPoorSent | src/shared/street/street.service.ts:112-113 | After `init` with a truthy low income below `poor`, an unfiltered release (lines 1085-1088) sends one event whose low income is below `poor` |
| StreetProperties.UnfilteredInvertedRangeSent | src/shared/street/street.service.ts:112-113 | After `init` with a truthy low income above a truthy high one (at most `rich`), an unfiltered release sends one event with low above high |
| StreetProperties.FilteredHighAboveRich | src/shared/street/street.service.ts:1059-1076 | With `maxIncome` at an integral `rich`, a filtered release past `rich` sends `rich + 5` as its high income: the filtered branch keeps no bound at `rich` |
| StreetProperties.UpIgnoredChangesNothing | src/shared/street/street.service.ts:501-509 | A mouseup on a narrow viewport, or with nothing grabbed, changes nothing and sends nothing |
| StreetProperties.ClickIsQuiet | src/shared/street/street.service.ts:1014-1051 | Pressing a handle or the track and releasing with no move in between sends nothing; a track click ends idle |
| StreetProperties.LeftDragEmitsOnce | src/shared/street/street.service.ts:433-435 | Low-handle drag on a wide unfiltered page: press, one move in the window to a new income, release; low income follows the pointer, one event sent, session idle |
| StreetProperties.ScrollLabelConsistent | src/shared/street/street.service.ts:927-943 | `drawScrollLabel` keeps the labels exist-together invariant, and shows an amount only in a label that exists |
| StreetProperties.ScrollLabelAmounts | src/shared/street/street.service.ts:880-974 | On an unfiltered page the low label shows the rounded low income in the page's currency and the high label the clamped high income. The filtered case, with `minIncome` / `maxIncome` past the filter's points, restates the definition |
| StreetProperties.RightLabelAtMostRich | src/shared/street/street.service.ts:881-884 | Unfiltered with an integral `rich`: an unset high income, or one at or above `rich`, shows `rich` |
| StreetProperties.SlidersConsistent | src/shared/street/street.service.ts:596-809 | Both slider redraws keep the controller's invariant |
| StreetProperties.TrackMovedConsistent | src/shared/street/street.service.ts:403-431 | A track-drag move keeps the invariant |
| StreetProperties.MoveConsistent | src/shared/street/street.service.ts:390-440 | Every move keeps the invariant (labels together; offsets only during a track drag) |
| StreetProperties.UpConsistent | src/shared/street/street.service.ts:1012-1090 | `pressedSlider` and the mouseup handler keep the invariant |
| StreetProperties.SceneOperationsConsistent | src/shared/street/street.service.ts:853-876 | `drawScale`, `removeSliders` and `clearSvg` keep the invariant |
| StreetProperties.HandlesConsistent | src/shared/street/street.service.ts:828-829 | Redrawing both handles at the current range keeps the invariant |
| StreetProperties.RedrawsConsistent | src/shared/street/street.service.ts:811-832 | `drawHouses`, `drawHoverHouse` and `clearAndRedraw` keep the invariant |
| StreetProperties.PressesConsistent | src/shared/street/street.service.ts:330-333 | The three press handlers keep the session invariant |
| StreetService.StreetDrawService.constructor | src/shared/street/street.service.ts:43-96 | Fresh controller: injected `roundIncome`, device flag and breakpoints; both borders `undefined`; idle session, nothing drawn, nothing sent |
| StreetService.StreetDrawService.Init | src/shared/street/street.service.ts:98-132 | `init`: new state is `Initialized` of the old; nothing sent |
| StreetService.StreetDrawService.DrawScrollLabel | src/shared/street/street.service.ts:878-978 | Scene becomes `ScrollLabelDrawn` for the current range; nothing else changes |
| StreetService.StreetDrawService.PlaceLeftHandle | src/shared/street/street.service.ts:600-690 | The in-place updates produce `LeftPlaced` of the old state |
| StreetService.StreetDrawService.DrawLeftSlider | src/shared/street/street.service.ts:596-699 | Produces `LeftSliderDrawn` of the old state, keeps the invariant, sends nothing |
| StreetService.StreetDrawService.PlaceRightHandle | src/shared/street/street.service.ts:705-800 | The in-place updates produce `RightPlaced` of the old state |
| StreetService.StreetDrawService.DrawRightSlider | src/shared/street/street.service.ts:701-809 | Produces `RightSliderDrawn` of the old state, keeps the invariant, sends nothing |
| StreetService.StreetDrawService.DrawScale | src/shared/street/street.service.ts:279-287 | Produces `ScaleDrawn` of the old state (dedupe and sort, then both handles, lines 380-384); invariant kept |
| StreetService.StreetDrawService.RemoveSliders | src/shared/street/street.service.ts:853-859 | Produces `SlidersRemoved` of the old state |
| StreetService.StreetDrawService.ClearSvg | src/shared/street/street.service.ts:861-876 | Produces `SvgCleared` of the old state |
| StreetService.StreetDrawService.DrawHouses | src/shared/street/street.service.ts:980-981 | Produces `HousesDrawn` of the old state |
| StreetService.StreetDrawService.DrawHoverHouse | src/shared/street/street.service.ts:523-552 | Produces `HoverHouseDrawn` of the old state, keeps the invariant, sends nothing |
| StreetService.StreetDrawService.ClearAndRedraw | src/shared/street/street.service.ts:811-832 | Produces `ClearedAndRedrawn` of the old state, keeps the invariant, sends nothing |
| StreetService.StreetDrawService.PressTrack | src/shared/street/street.service.ts:330-333 | Only `draggingSliders` is set |
| StreetService.StreetDrawService.PressLeftHandle | src/shared/street/street.service.ts:661-664 | Only `sliderLeftMove` is set |
| StreetService.StreetDrawService.PressRightHandle | src/shared/street/street.service.ts:766-769 | Only `sliderRightMove` is set |
| StreetService.StreetDrawService.TakeSnapshot | src/shared/street/street.service.ts:398-401 | The session becomes that of `Snapshotted` |
| StreetService.StreetDrawService.Grab | src/shared/street/street.service.ts:405-411 | The session becomes that of `Grabbed` |
| StreetService.StreetDrawService.DragTrack | src/shared/street/street.service.ts:403-431 | Produces `TrackMoved`: offsets captured once, both handles redrawn when they stay in bounds |
| StreetService.StreetDrawService.Drag | src/shared/street/street.service.ts:403-439 | Produces `Dragged` of the old state, keeps the invariant |
| StreetService.StreetDrawService.PointerMove | src/shared/street/street.service.ts:390-440 | The move handler (mouse, or touch at lines 446-498): produces `Moved`, keeps the invariant, sends nothing |
| StreetService.StreetDrawService.ClearScrollLabels | src/shared/street/street.service.ts:1019-1022 | Scene becomes `LabelsCleared` of the old scene |
| StreetService.StreetDrawService.SendRange | src/shared/street/street.service.ts:1063-1089 | Appends the events for the current range to `emitted` |
| StreetService.StreetDrawService.EndDrag | src/shared/street/street.service.ts:1053-1061 | Session becomes idle; high income becomes `CappedHigh` of the old one |
| StreetService.StreetDrawService.ReleaseUnmovedTrack | src/shared/street/street.service.ts:1014-1025 | Track released with no offsets: produces `Released`, sends nothing |
| StreetService.StreetDrawService.ReleaseUnchangedLeft | src/shared/street/street.service.ts:1027-1038 | Low handle released at its snapshot: produces `Released`, sends nothing |
| StreetService.StreetDrawService.ReleaseUnchangedRight | src/shared/street/street.service.ts:1040-1051 | High handle released at its snapshot: produces `Released`, sends nothing |
| StreetService.StreetDrawService.ReleaseChanged | src/shared/street/street.service.ts:1053-1089 | Any other release: produces `Released` and sends exactly `ReleaseEvents` of the old state |
| StreetService.StreetDrawService.PressedSlider | src/shared/street/street.service.ts:1012-1090 | `pressedSlider`: produces `Released`, sends exactly `ReleaseEvents` of the old state, keeps the invariant |
| StreetService.StreetDrawService.PointerUp | src/shared/street/street.service.ts:501-518 | mouseup / touchend: produces `Up`, sends exactly `UpEvents` of the old state, keeps the invariant |
| Strings.IndexOf | src/url-parameters/url-parameters.service.ts:93 | `indexOf`: -1 exactly when the character is absent; otherwise the position of its first occurrence |
| Strings.Before | src/url-parameters/url-parameters.service.ts:102 | The text before the first separator contains no separator |
| Strings.BeforeAfter | src/url-parameters/url-parameters.service.ts:96 | The text before the first `?`, the `?`, and the slice after it make up the string |
| Strings.Join | src/url-parameters/url-parameters.service.ts:133 | `join` of a single part is that part |
| Strings.Split | src/url-parameters/url-parameters.service.ts:102 | `split` never gives an empty array; its first part is the text before the first separator; no part holds the separator |
| Strings.JoinSplit | src/url-parameters/url-parameters.service.ts:102 | Splitting and joining with the same separator gives back the string |
| Strings.SplitJoin | src/url-parameters/url-parameters.service.ts:133 | Joining separator-free parts and splitting again gives back the parts |
| Strings.LexLeReflexive | src/url-parameters/url-parameters.service.ts:114 | The default sort order (by code points) is reflexive |
| Strings.LexLeTotal | src/url-parameters/url-parameters.service.ts:114 | The default sort order is total |
| Strings.LexLeAntisymmetric | src/url-parameters/url-parameters.service.ts:114 | The default sort order is antisymmetric |
| Strings.LexLeTransitive | src/url-parameters/url-parameters.service.ts:114 | The default sort order is transitive |
| Strings.Insert | src/url-parameters/url-parameters.service.ts:114 | One insertion step keeps exactly the elements plus the inserted one |
| Strings.InsertSorted | src/url-parameters/url-parameters.service.ts:114 | Inserting into a sorted array keeps it sorted |
| Strings.Sort | src/url-parameters/url-parameters.service.ts:114 | `.sort()` is a permutation of its input |
| Strings.SortSorts | src/url-parameters/url-parameters.service.ts:114 | `.sort()` yields ascending order |
| Strings.SortSorted | src/url-parameters/url-parameters.service.ts:114 | Sorting an already sorted array leaves it unchanged |
| Strings.SortIdempotent | src/url-parameters/url-parameters.service.ts:117 | Sorting twice (as repeated calls do) is sorting once |
| Strings.Difference | src/url-parameters/url-parameters.service.ts:114 | `difference` is never longer than its first argument |
| Strings.DifferenceMembers | src/url-parameters/url-parameters.service.ts:114 | `difference(a, b)` holds exactly the elements of `a` that `b` lacks |
| Strings.DifferenceEmpty | src/url-parameters/url-parameters.service.ts:114 | The difference is empty exactly when `b` holds every element of `a` |
| UrlModel.Get | src/url-parameters/url-parameters.service.ts:120 | A present key reads its value; a missing key reads `undefined` |
| UrlModel.Assigned | src/url-parameters/url-parameters.service.ts:198 | Assigning one parameter sets that key and leaves every other key as it was |
| UrlModel.Cells | src/url-parameters/url-parameters.service.ts:127-132 | The reduce keeps only non-empty cells, never more than there are visible parameters |
| UrlModel.ListText | src/url-parameters/url-parameters.service.ts:113-118 | A list cell: `name=` and the entries comma-joined when the sorted list holds an entry the sorted default lacks, else empty |
| UrlModel.RawCell | src/url-parameters/url-parameters.service.ts:109-121 | The cell before encoding: the list text for `countries` / `regions`, `name=value` for a scalar unequal to its default, else empty |
| UrlModel.Cell | src/url-parameters/url-parameters.service.ts:122 | The raw cell passed through `encodeURI` |
| UrlModel.ParamsLine | src/url-parameters/url-parameters.service.ts:125-136 | The non-empty cells of the visible names, in order, joined with `&` |
| UrlModel.VisibleFor | src/url-parameters/url-parameters.service.ts:126 | The page's visible names, falling back to those of `other` |
| UrlModel.ParseString | src/url-parameters/url-parameters.service.ts:92-99 | The defaults when the URL has no `?`, else the defaults overlaid by `parseUrl` of the text after the first `?` |
| UrlModel.PathOf | src/url-parameters/url-parameters.service.ts:102 | The first `split('?')` part of the router URL |
| UrlModel.QueryLine | src/url-parameters/url-parameters.service.ts:105 | `?` and the line when the line is non-empty, else the empty line |
| UrlModel.Merged | src/url-parameters/url-parameters.service.ts:139 | `Object.assign({}, defaults, current, incoming)`: later sources win key by key |
| UrlProperties.ScalarCell | src/url-parameters/url-parameters.service.ts:119-122 | A scalar's cell is empty exactly when it equals its default; otherwise it is the encoded `name=value` |
| UrlProperties.ListCell | src/url-parameters/url-parameters.service.ts:113-118 | A country/region cell is empty exactly when the default list has every selected entry; otherwise encoded `name=` plus the sorted entries, comma-joined |
| UrlProperties.SortedAtKeeps | src/url-parameters/url-parameters.service.ts:114 | The in-place sort keeps every other parameter, keeps array values arrays with the same entries, and does not change their sorted form |
| UrlProperties.SortedAlongKeeps | src/url-parameters/url-parameters.service.ts:127-132 | A whole page's in-place sorts keep every scalar and every list's entries and sorted form |
| UrlProperties.CellIgnoresSorting | src/url-parameters/url-parameters.service.ts:127-132 | A cell computed after earlier cells' in-place sorts is the cell of the unsorted parameters |
| UrlProperties.SortedAlongRenderable | src/url-parameters/url-parameters.service.ts:114 | Earlier sorts keep every list value an array, so later `.sort()` calls stay defined |
| UrlProperties.SetterChangesOnly | src/url-parameters/url-parameters.service.ts:196-225 | A setter or remove stores its value under its key; no other scalar changes; every list keeps its entries |
| UrlProperties.CellsAppend | src/url-parameters/url-parameters.service.ts:127-133 | The cells of two name lists in a row are the cells of the first followed by those of the second |
| UrlProperties.CellsComplete | src/url-parameters/url-parameters.service.ts:127-133 | Every non-empty cell of a visible parameter is in the line, and every cell in the line belongs to a visible parameter |
| UrlProperties.LineSegments | src/url-parameters/url-parameters.service.ts:125-136 | When no cell holds `&`, splitting the line at `&` gives back exactly the cells, none of them empty |
| UrlProperties.LineEmpty | src/url-parameters/url-parameters.service.ts:133 | The line is empty exactly when no visible parameter has a cell |
| UrlProperties.VisibleFallback | src/url-parameters/url-parameters.service.ts:126 | A known page uses its own visible list; an unknown page uses that of `other` |
| UrlProperties.ParseWithoutQuery | src/url-parameters/url-parameters.service.ts:93-95 | With no `?` in the URL, `parseString` returns the defaults |
| UrlProperties.ParseOverlay | src/url-parameters/url-parameters.service.ts:96-98 | With a `?`: parsed keys (from after its first occurrence) win, every other key keeps its default |
| UrlProperties.PathIsPrefix | src/url-parameters/url-parameters.service.ts:102 | The path holds no `?`; it is the URL up to its first `?`, or the whole URL when there is none |
| UrlProperties.QueryPrefix | src/url-parameters/url-parameters.service.ts:105 | The query is `?` plus the params when non-empty, and empty exactly when they are |
| UrlProperties.MergePriority | src/url-parameters/url-parameters.service.ts:139 | Incoming values beat current ones, current ones beat the defaults |
| UrlService.UrlParametersService.constructor | src/url-parameters/url-parameters.service.ts:34 | Parameters start as a copy of the defaults; no URL replaced yet |
| UrlService.UrlParametersService.SortInPlace | src/url-parameters/url-parameters.service.ts:114 | The `.sort()` calls leave the parameter's and the default's arrays sorted, all else unchanged |
| UrlService.UrlParametersService.GetStringFromParams | src/url-parameters/url-parameters.service.ts:109-123 | Returns the cell of the parameters before the call; leaves `name`'s array, and its default, sorted in place |
| UrlService.UrlParametersService.GetParamsStringForPage | src/url-parameters/url-parameters.service.ts:125-136 | Returns the page's line of the parameters before the call; every visible list is left sorted in place |
| UrlService.UrlParametersService.CombineUrlPerPage | src/url-parameters/url-parameters.service.ts:101-107 | Replaces the location once: path of the router URL, with `?`-prefixed line of the current page |
| UrlService.UrlParametersService.SetGridPosition | src/url-parameters/url-parameters.service.ts:196-201 | Same `row`: nothing changes and nothing replaced; otherwise `row` assigned and URL recombined once |
| UrlService.UrlParametersService.SetActiveHouse | src/url-parameters/url-parameters.service.ts:203-208 | Same `activeHouse`: nothing changes; otherwise it is assigned and the URL recombined once |
| UrlService.UrlParametersService.RemoveActiveHouse | src/url-parameters/url-parameters.service.ts:210-213 | `activeHouse` becomes `undefined` and the URL is recombined once |
| UrlService.UrlParametersService.SetActiveImage | src/url-parameters/url-parameters.service.ts:215-220 | Argument equal to `activeHouse` (as written): nothing changes; otherwise `activeImage` assigned and URL recombined once |
| UrlService.UrlParametersService.RemoveActiveImage | src/url-parameters/url-parameters.service.ts:222-225 | `activeImage` becomes `undefined` and the URL is recombined once |
| UrlService.UrlParametersService.DispatchToStore | src/url-parameters/url-parameters.service.ts:139 | The parameters become the merge of defaults, current and incoming values |

## Left out

- d3/SVG scene construction and styling is not modelled: shapes, colours, the
  label-rectangle variants (lines 628, 733), the divider label fills (lines
  889-925) and `isDrawDividers` / `isDrawCurrency`. Only what the controller
  writes is modelled: which cached elements exist, the shades' positions and
  widths, and the labels' amounts.
- Text measurement (`getBBox`, lines 270-278 and 945-949) is browser layout,
  and is not modelled.
- The logarithm is not computed. `scaleLog` (lines 125-130) is a pair of
  functions, constrained by `IsLogScale` only where a lemma needs it.
- The rxjs and DOM plumbing is not modelled: `fromEvent`,
  `document.body.classList` and `preventDefault`. The handlers are methods,
  and `Subject.next` is an append to `emitted`.
- `drawScale` re-subscribes the mouseup and touchend handlers (lines 501-518)
  without unsubscribing the earlier ones. After several `drawScale` calls, one
  mouseup therefore runs `pressedSlider` several times. The model runs it
  once per `PointerUp`.
- `set(key, val)` (line 138) assigns a field by name and is not modelled as a
  method. The fields it is used for, such as `leftPoint`, `rightPoint` and the
  currency value, are part of `Config`, and every lemma holds for any `Config`.
- `removeHouses` only removes SVG nodes, and is not modelled. The icons that
  `drawHouses` and `drawHoverHouse` append are not modelled either. What
  these methods do to modelled state is modelled:
  - `drawHouses` empties `placesArray`;
  - `drawHoverHouse` removes both handles and redraws them at the current
    range;
  - `clearAndRedraw` does all of this, with whether `hoverPlace` is set
    passed in as a flag.

  The `chosenPlaces = []` of a track drag is modelled.
- The NaN guard `+lowIncome ? +lowIncome : 0` (line 880) is not modelled,
  because reals have no NaN. An unset low income (0) gives the same label.
- `_.get` fallbacks for missing divider fields (lines 102-113, 127-128) are
  not modelled: the dividers are a record with every field present. Where
  `init` falls back to a default, it uses the record's `poor` / `rich` field.
- `Strings.LexLe` orders strings by code points, since a Dafny `char` is a
  Unicode scalar value. JavaScript's `.sort()` compares UTF-16 code units, so
  two strings whose first difference is a character above U+FFFF against one
  in U+E000-U+FFFF sort the other way round. Country and region names do not
  reach that range.
- StreetModel.SortByIncome: the order among places of equal income, which
  lodash keeps from the input, is not stated.
- No `poor <= low <= high <= rich` bound is claimed for any release. Only an
  unfiltered high income of at most an integral `rich` is proved
  (`StreetProperties.UnfilteredHighAtMostRich`). There are two reasons:
  - the scale is passed in, with nothing anchoring it to `poor` / `rich` or
    `minIncome` / `maxIncome`;
  - `init` keeps any truthy low and high income as given (lines 112-113).

  The code as written sends such ranges, as these lemmas show:
  - a low income below `poor` (`StreetProperties.UnfilteredLowBelowPoorSent`);
  - an inverted range (`StreetProperties.UnfilteredInvertedRangeSent`);
  - on a filtered page, `round(maxIncome + 5)` above `rich`
    (`StreetProperties.FilteredHighAboveRich`).
- Offsets, snapshots and borders that JavaScript holds as `undefined`, `0` or
  `NaN` are 0.0 (offsets and snapshots) or `None` (borders). All three are
  falsy: an unset offset is recaptured at the next move either way, and a `NaN`
  offset fails every bounds test, which `BordersSet` encodes.
- The `.sort()` throw on a non-array is not modelled.
  `UrlService.UrlParametersService.GetStringFromParams`,
  `GetParamsStringForPage`, `CombineUrlPerPage` and the setters and removers
  that recombine the URL require every visible country and region value, and
  its default, to be an array (`Renderable`, `CanRender`).
- StreetService.StreetDrawService.PressLeftHandle and PressRightHandle require
  the handle to be drawn, since the listener exists only then (lines 651-665,
  756-770).
- UrlProperties.ScalarCell and UrlProperties.ListCell assume `encodeURI` maps
  exactly the empty string to the empty string (`PreservesEmptiness`), because
  `encodeURI` is a passed-in function.
- UrlProperties.LineSegments requires that no cell contains `&`, because
  `encodeURI` leaves `&` alone, so a value holding `&` adds a segment.
- `!==` between parameter values (line 120) is structural equality in the
  model. For a scalar holding an array, JavaScript compares references, which
  is not modelled.
- `Object.assign` copies shallowly, so the `countries` / `regions` arrays of
  `parameters` are shared with `DefaultUrlParameters`, and one `.sort()` sorts
  both. The model keeps two values and sorts each. After a call both are
  sorted either way, but the aliasing itself is not modelled.
- The setters take the argument's `toString()`: a number argument is given as
  its decimal string.
- `objToQuery`, the store dispatches of `dispatchToStore` (lines 141-188) and
  the store subscription in the constructor (lines 37-89) are ngrx glue, and
  are not modelled.
- The router and `Location` are reduced to the `routerUrl` field and the ghost
  log `replaced`. `getAllParameters` is a plain getter and is not modelled.
- `src/article/article.component.ts` and `test-e2e/app/Pages/MainPage.ts` are
  not part of this model.

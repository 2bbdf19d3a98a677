# Shenkeng trail map — a Dafny model of its state and filter logic

The trail map is a small bilingual web page. It shows two hiking routes
(trails) and seven points of interest (attractions) on one of three map
backends: an embedded iframe, a map-API widget, or a hand-drawn fallback map.
This project models the parts of the page that hold logic and proves what
they guarantee:

- **The fallback map's pan/zoom viewport**, in both versions of the
  component. The state is a scale, a screen offset (`position`), a dragging
  flag and a drag anchor (`startPosition`).
  - `FallbackMapComponent.jsx` adds zoom-in, zoom-out and reset buttons.
  - `FallbackMapComponent.tsx` adds two-finger pinch zoom. The previous
    pinch distance it keeps is explicit state here (`touchDistance`).

  The rules both versions share are pure transitions on a `View` value
  (module `Viewport`). Each component is a class (`FallbackJsx.FallbackMap`,
  `FallbackTsx.FallbackMap`) whose fields its handler methods update in
  place. Each method is proved to leave exactly the state the matching
  transition gives. The class invariant keeps the scale in [0.5, 5].
- **The page component** (`interactive-map-website.jsx`, module `Site`):
  - the static trail and attraction tables;
  - the trail filter and the attraction filter, whose proximity rule is a
    strict 0.005-degree box around every coordinate of every trail;
  - the UI state that the hover handlers and buttons change, and the choice
    of which map backend to render.
- **The map-API widget component** (`GoogleMapComponent.jsx`, module
  `GoogleMap`): its own attraction filter (it looks up each attraction's
  trail by id), the trail stroke opacity, when it falls back to the fallback
  map, and when and where it opens the info window. On everything modelled,
  `GoogleMapComponent.tsx` is the same code line for line:
  - filter: `.tsx` 61-68 is `.jsx` 45-52;
  - fallback decision: `.tsx` 50-52 and 71-75 are `.jsx` 34-36 and 55-59;
  - stroke opacity: `.tsx` 105-108 is `.jsx` 89-92;
  - info window: `.tsx` 130-144 is `.jsx` 114-128.

  So one module models both files.

Modules:
- `Seqs` holds `Filter` and `Find`, which model JavaScript's `Array.filter`
  and `Array.find`, plus their lemmas.
- `Records` holds the record types.

Scales, offsets and coordinates are `real`. A pinch distance is a `real`
input. Whether the map API is present and whether the map reported an
error are boolean inputs.

Only the pinch clamps the scale on both sides. The wheel and the buttons
clamp one side each, so they keep the scale in [0.5, 5] only from an
in-range start (`FallbackJsx.ButtonClampIsOneSided`). Because the state starts at scale 1,
every reachable scale is still in range (`FallbackJsx.ReachableScaleInRange`).

Behaviours the proofs bring out:
- The page renders the widget without the two filter flags. As wired, the
  widget's own filter is the identity and every trail is drawn fully opaque
  (`GoogleMap.PageWiringDisablesWidgetFilters`).
- The page's proximity rule checks the full trail table, not the
  family-filtered one (`Site.ProximityIgnoresTrailFilter`).
- Pinch ratios chain from sample to sample. After a clamp, pinching back to
  the starting distance does not restore the starting scale
  (`FallbackTsx.PinchDriftsAfterClamp`).
- The info window opens whenever a tooltip id is set and the list is
  non-empty, even when no attraction has that id. Its position and text are
  then absent (`GoogleMap.InfoWindowFor`).

## Model

| member | source | states |
|---|---|---|
| `Viewport.ScaledUp` | src/components/FallbackMapComponent.jsx:76 | `Math.min(s * factor, 5)`: at most 5 and at most `s * factor`, and equal to one of them |
| `Viewport.ScaledDown` | src/components/FallbackMapComponent.jsx:77 | `Math.max(s / factor, 0.5)`: at least 0.5 and at least `s / factor`, and equal to one of them |
| `Viewport.Clamp` | src/components/FallbackMapComponent.tsx:104 | the result is in [0.5, 5]; it is `x` when `x` is in range, 0.5 below the range and 5 above it |
| `Viewport.WheelScale` | src/components/FallbackMapComponent.jsx:74-77 | for every scale `s`: a negative `deltaY` gives `min(s * 1.1, 5)` (at most both, equal to one); any other `deltaY`, 0 included, gives `max(s / 1.1, 0.5)` (at least both, equal to one); from an in-range scale the result is in range and moves in the wheel's direction |
| `Viewport.MouseDown` | src/components/FallbackMapComponent.jsx:36-49 | the press starts a drag whose anchor plus the current offset is the pointer; scale and offset are unchanged |
| `Viewport.MouseMove` | src/components/FallbackMapComponent.jsx:51-65 | while dragging, the new offset plus the anchor is the pointer; when not dragging nothing changes; only the offset ever changes |
| `Viewport.MouseUp` | src/components/FallbackMapComponent.jsx:67-69 | the drag flag is cleared and nothing else changes |
| `Viewport.Wheel` | src/components/FallbackMapComponent.jsx:72-79 | the scale becomes the wheel rule's value and nothing else changes |
| `Viewport.DragFollowsPointer` | src/components/FallbackMapComponent.jsx:36-65 | after a press at `p`, a move to `q` sets the offset to old offset + (q − p) whatever the scale; a move back to `p` leaves the offset unchanged |
| `Viewport.DragIsRelativeToPress` | src/components/FallbackMapComponent.jsx:51-65 | successive moves are measured from the press point, not from the previous move |
| `Viewport.MoveWhileIdleIsNoop` | src/components/FallbackMapComponent.jsx:52 | a move while not dragging changes nothing |
| `Viewport.MouseUpIdempotent` | src/components/FallbackMapComponent.jsx:67-69 | mouse-up clears the dragging flag, changes nothing else and is idempotent |
| `Viewport.MoveAfterReleaseIsNoop` | src/components/FallbackMapComponent.jsx:51-69 | press, move, release, then move: the last move changes nothing |
| `Viewport.WheelChangesOnlyScale` | src/components/FallbackMapComponent.jsx:72-79 | a wheel turn changes only the scale and keeps an in-range scale in range |
| `FallbackJsx.ZoomIn` | src/components/FallbackMapComponent.jsx:100-102 | the new scale is `min(scale * 1.2, 5)`; offset and drag state are untouched |
| `FallbackJsx.ZoomOut` | src/components/FallbackMapComponent.jsx:104-106 | the new scale is `max(scale / 1.2, 0.5)`; offset and drag state are untouched |
| `FallbackJsx.ResetView` | src/components/FallbackMapComponent.jsx:108-111 | scale 1 and offset (0, 0) whatever the prior state; the drag flag and anchor are kept |
| `FallbackJsx.StepKeepsScaleInRange` | src/components/FallbackMapComponent.jsx:36-111 | each handler keeps an in-range scale in [0.5, 5] |
| `FallbackJsx.RunKeepsScaleInRange` | src/components/FallbackMapComponent.jsx:36-111 | every sequence of drag, wheel and button inputs keeps an in-range scale in [0.5, 5] |
| `FallbackJsx.ReachableScaleInRange` | src/components/FallbackMapComponent.jsx:29-32 | from the initial state (scale 1), no input sequence takes the scale out of [0.5, 5] |
| `FallbackJsx.ZoomsKeepOffsetAndDrag` | src/components/FallbackMapComponent.jsx:72-106 | any sequence of wheel and button zooms changes only the scale |
| `FallbackJsx.ButtonClampIsOneSided` | src/components/FallbackMapComponent.jsx:72-106 | the wheel and button clamps are one-sided: zooming out from 10 stays above 5, and zooming in from 0.1 stays below 0.5 |
| `FallbackJsx.FallbackMap.constructor` | src/components/FallbackMapComponent.jsx:29-32 | initial state: scale 1, offset (0, 0), not dragging, anchor (0, 0) |
| `FallbackJsx.FallbackMap.HandleMouseDown` | src/components/FallbackMapComponent.jsx:36-49 | sets dragging and anchor = pointer − offset, in place; scale stays in range |
| `FallbackJsx.FallbackMap.HandleMouseMove` | src/components/FallbackMapComponent.jsx:51-65 | while dragging, offset = pointer − anchor; otherwise no change |
| `FallbackJsx.FallbackMap.HandleMouseUp` | src/components/FallbackMapComponent.jsx:67-69 | clears the dragging flag in place |
| `FallbackJsx.FallbackMap.HandleWheel` | src/components/FallbackMapComponent.jsx:72-79 | updates the scale by the wheel rule and keeps it in [0.5, 5] |
| `FallbackJsx.FallbackMap.ZoomInClicked` | src/components/FallbackMapComponent.jsx:100-102 | applies the zoom-in rule in place |
| `FallbackJsx.FallbackMap.ZoomOutClicked` | src/components/FallbackMapComponent.jsx:104-106 | applies the zoom-out rule in place |
| `FallbackJsx.FallbackMap.ResetViewClicked` | src/components/FallbackMapComponent.jsx:108-111 | applies the reset in place |
| `FallbackTsx.TouchStart` | src/components/FallbackMapComponent.tsx:83-91 | with two or more touches it stores the distance; with fewer it changes nothing; the view is never touched |
| `FallbackTsx.OnTouchStart` | src/components/FallbackMapComponent.tsx:273-276 | the view becomes the mouse-down of the first touch (a drag anchored there); with two or more touches the distance is stored, otherwise the stored distance is kept |
| `FallbackTsx.PreviousDistance` | src/components/FallbackMapComponent.tsx:99-100 | `touchDistance \|\| newTouchDistance`: the stored distance when present and non-zero, otherwise the current one |
| `FallbackTsx.TouchMove` | src/components/FallbackMapComponent.tsx:93-109 | with fewer than two touches nothing changes; with two or more and a stored non-zero `d0` the scale becomes `clamp(scale * d / d0, 0.5, 5)`, with none (or a stored 0) it becomes `clamp(scale, 0.5, 5)`; the stored distance becomes the new one and nothing but the scale changes in the view |
| `FallbackTsx.PinchScalesByRatio` | src/components/FallbackMapComponent.tsx:99-104 | with stored distance `d0 ≠ 0`, a pinch to `d` sets the scale to `clamp(scale * d / d0)`: the product itself when in range, 0.5 below the range, 5 above it |
| `FallbackTsx.PinchWithoutBaselineOnlyClamps` | src/components/FallbackMapComponent.tsx:99-104 | with no stored distance, or a stored 0, the ratio is 1: the scale only gets clamped |
| `FallbackTsx.PinchToZeroBottomsOut` | src/components/FallbackMapComponent.tsx:93-107 | a pinch to distance 0 after a stored positive distance sends the scale to 0.5 and stores 0; the next pinch then has no baseline and only clamps |
| `FallbackTsx.PinchRatiosChain` | src/components/FallbackMapComponent.tsx:103-107 | two unclamped pinch moves from `d0` through `d1` to `d2` scale by `d2 / d0` in all, and leave `d2` stored |
| `FallbackTsx.PinchDriftsAfterClamp` | src/components/FallbackMapComponent.tsx:103-107 | from scale 4 with 1 stored, pinching to 2 and back to 1 ends at 2.5, not 4 |
| `FallbackTsx.PinchRestoresRange` | src/components/FallbackMapComponent.tsx:104 | one pinch move brings any scale into [0.5, 5] |
| `FallbackTsx.RunKeepsScaleInRange` | src/components/FallbackMapComponent.tsx:37-109 | every sequence of drag, wheel, touch-start and pinch inputs that avoids the `0 / 0` pinch keeps an in-range scale in [0.5, 5] |
| `FallbackTsx.FallbackMap.constructor` | src/components/FallbackMapComponent.tsx:30-33 | initial state: scale 1, offset (0, 0), not dragging, anchor (0, 0), no stored distance |
| `FallbackTsx.FallbackMap.HandleMouseDown` | src/components/FallbackMapComponent.tsx:37-50 | sets dragging and anchor = pointer − offset, in place |
| `FallbackTsx.FallbackMap.HandleMouseMove` | src/components/FallbackMapComponent.tsx:52-66 | while dragging, offset = pointer − anchor; otherwise no change |
| `FallbackTsx.FallbackMap.HandleMouseUp` | src/components/FallbackMapComponent.tsx:68-70 | clears the dragging flag in place |
| `FallbackTsx.FallbackMap.HandleWheel` | src/components/FallbackMapComponent.tsx:73-80 | updates the scale by the wheel rule and keeps it in [0.5, 5] |
| `FallbackTsx.FallbackMap.HandleTouchStart` | src/components/FallbackMapComponent.tsx:83-91 | stores the two-finger distance in place when there are two or more touches |
| `FallbackTsx.FallbackMap.HandleTouchMove` | src/components/FallbackMapComponent.tsx:93-109 | applies the pinch rule in place: clamped ratio scaling and a new stored distance |
| `FallbackTsx.FallbackMap.OnTouchStartEvent` | src/components/FallbackMapComponent.tsx:273-276 | runs the mouse-down handler, then the touch-start handler |
| `Site.FilteredTrails` | src/interactive-map-website.jsx:184-189 | without the family flag the result is all trails; with it, exactly the family-friendly trails; always an order-preserving subsequence |
| `Site.FilteredAttractions` | src/interactive-map-website.jsx:191-207 | an attraction is kept iff it is in the input, is family-friendly when that flag is set, and lies strictly within 0.005° on both axes of some coordinate of some trail when the trails-only flag is set; the result is an order-preserving subsequence, and the identity with no flag set |
| `Site.ToleranceIsStrict` | src/interactive-map-website.jsx:199-201 | a latitude difference of exactly 0.005 excludes the attraction; 0.0049 includes it |
| `Site.ProximityIgnoresTrailFilter` | src/interactive-map-website.jsx:196-203 | the proximity test uses the unfiltered trail table: an attraction next to a non-family trail is kept with both flags, and would be dropped against the family-filtered trails |
| `Site.Trails` | src/interactive-map-website.jsx:43-81 | the shipped trail table: two trails, ids 1 and 2; trail 1 is family-friendly and trail 2 is not |
| `Site.Attractions` | src/interactive-map-website.jsx:84-169 | the shipped attraction table: ids 1 to 7 in order; 1, 2, 3 and 7 are family-friendly and on trail 1, the others are on trail 2 |
| `Site.ShippedFamilyTrails` | src/interactive-map-website.jsx:43-81 | on the shipped table the family flag keeps trail 1 only |
| `Site.ShippedTrailsOnlyKeepsAll` | src/interactive-map-website.jsx:84-169 | on the shipped tables the trails-only flag alone hides no attraction |
| `Site.ShippedFamilyAttractions` | src/interactive-map-website.jsx:84-169 | on the shipped tables the family flag alone keeps attractions 1, 2, 3 and 7, in order |
| `Site.VisibleOnShippedTables` | src/interactive-map-website.jsx:184-207 | in every UI state the page hands the backends both trails and all seven attractions without the family flag, and trail 1 with attractions 1, 2, 3 and 7 with it: the trails-only flag never hides anything on the shipped tables |
| `Site.UiState.Hover` | src/interactive-map-website.jsx:171-173 | the tooltip id becomes the hovered id; nothing else changes |
| `Site.UiState.Leave` | src/interactive-map-website.jsx:175-177 | the tooltip is cleared; nothing else changes |
| `Site.UiState.ToggleLanguage` | src/interactive-map-website.jsx:179-181 | the language changes to the other one; nothing else changes |
| `Site.UiState.ToggleFamilyFriendly` | src/interactive-map-website.jsx:263 | the family-friendly flag is negated; nothing else changes |
| `Site.UiState.ToggleTrailsOnly` | src/interactive-map-website.jsx:272 | the trails-only flag is negated; nothing else changes |
| `Site.UiState.CheckGoogleMapsApi` | src/interactive-map-website.jsx:210-216 | `useFallbackMap` becomes true iff the map API is missing; nothing else changes |
| `Site.UiState.ToggleMapType` | src/interactive-map-website.jsx:224-232 | from the widget, `useFallbackMap` becomes true; from the fallback map it becomes true iff the API is missing; nothing else changes |
| `Site.UiState.ToggleEmbeddedMap` | src/interactive-map-website.jsx:235-237 | `useEmbeddedMap` is negated; nothing else changes |
| `Site.OtherLanguage` | src/interactive-map-website.jsx:179-181 | the toggled language differs from the current one |
| `Site.Mounted` | src/interactive-map-website.jsx:21-27 | the state after mounting: zh, no filters, no tooltip, embedded map on, and the fallback flag set iff the map API is missing |
| `Site.SelectBackend` | src/interactive-map-website.jsx:313-340 | embedded iff `useEmbeddedMap`; else fallback iff `useFallbackMap`; else the widget |
| `Site.TooltipLastWriterWins` | src/interactive-map-website.jsx:171-177 | hover sets the tooltip id and the last hover wins; leave clears it unconditionally and is idempotent |
| `Site.ToggleLanguageInvolution` | src/interactive-map-website.jsx:179-181 | the language toggle swaps zh and en; applied twice it is the identity |
| `Site.ToggleEmbeddedMapInvolution` | src/interactive-map-website.jsx:235-237 | the embedded-map toggle negates its flag; applied twice it is the identity |
| `Site.ToggleMapTypeSwitchesBackend` | src/interactive-map-website.jsx:224-232 | with the embedded map off: from the fallback map it goes to the widget iff the API is available; from the widget it always goes back to the fallback map |
| `Site.NoWidgetWithoutApi` | src/interactive-map-website.jsx:210-232 | without the map API, once on the fallback map no sequence of UI inputs selects the widget |
| `Site.InteractiveMap.constructor` | src/interactive-map-website.jsx:218-221 | mounting sets the initial values and runs the API check |
| `Site.InteractiveMap.HandleAttractionHover` | src/interactive-map-website.jsx:171-173 | sets the tooltip id in place |
| `Site.InteractiveMap.HandleAttractionLeave` | src/interactive-map-website.jsx:175-177 | clears the tooltip in place |
| `Site.InteractiveMap.ToggleLanguage` | src/interactive-map-website.jsx:179-181 | swaps the language in place |
| `Site.InteractiveMap.ToggleFamilyFriendly` | src/interactive-map-website.jsx:263 | negates the family-friendly flag in place |
| `Site.InteractiveMap.ToggleTrailsOnly` | src/interactive-map-website.jsx:272 | negates the trails-only flag in place |
| `Site.InteractiveMap.CheckGoogleMapsApi` | src/interactive-map-website.jsx:210-216 | sets `useFallbackMap` to the negation of API availability |
| `Site.InteractiveMap.ToggleMapType` | src/interactive-map-website.jsx:224-232 | from the fallback map, runs the API check; otherwise forces the fallback map |
| `Site.InteractiveMap.ToggleEmbeddedMap` | src/interactive-map-website.jsx:235-237 | negates `useEmbeddedMap` in place |
| `Seqs.Filter` | src/interactive-map-website.jsx:184-207 | `Array.filter`: the result is never longer than the input |
| `Seqs.FilterIsSubsequence` | src/interactive-map-website.jsx:184-207 | the filter result is the input with elements dropped and order kept |
| `Seqs.FilterMembers` | src/interactive-map-website.jsx:184-207 | an element is in the result iff it is in the input and passes the test |
| `Seqs.FilterKeepsAll` | src/interactive-map-website.jsx:184-207 | when every element passes, the result is the input itself |
| `Seqs.Find` | src/components/GoogleMapComponent.jsx:48 | `Array.find`: absent iff no element passes; otherwise the element at the first passing index |
| `GoogleMap.TrailAllows` | src/components/GoogleMapComponent.jsx:48-49 | true iff no trail has the attraction's `onTrail` id, or the first trail that has it is family-friendly |
| `GoogleMap.KeepMarker` | src/components/GoogleMapComponent.jsx:45-52 | always true without the family flag; otherwise true iff the attraction is family-friendly and, with the trails-only flag too, its listed trail allows it |
| `GoogleMap.FilteredAttractions` | src/components/GoogleMapComponent.jsx:45-52 | without the family flag (so with both flags off, or only trails-only) the result is the input; with it, every kept attraction is family-friendly; with both flags, also its listed trail allows it; an attraction meeting these conditions is kept; always an order-preserving subsequence |
| `GoogleMap.UnknownTrailIsKept` | src/components/GoogleMapComponent.jsx:47-50 | with both flags, a family-friendly attraction whose `onTrail` matches no trail is kept |
| `GoogleMap.HikingTrailAttractionIsDropped` | src/components/GoogleMapComponent.jsx:47-50 | with both flags, an attraction whose first matching trail is not family-friendly is dropped |
| `GoogleMap.FirstTrailWithIdDecides` | src/components/GoogleMapComponent.jsx:48 | only the first trail with the id is consulted: the same duplicates in the other order change the outcome |
| `GoogleMap.StrokeOpacity` | src/components/GoogleMapComponent.jsx:89-92 | the opacity is 0.5 or 1, and 0.5 iff trails-only, family-friendly and a non-family trail all hold |
| `GoogleMap.InfoWindowFor` | src/components/GoogleMapComponent.jsx:114-128 | shown iff a tooltip id is set and the list is non-empty; its position and name are those of the first attraction with that id, and both are absent when none has it |
| `GoogleMap.Render` | src/components/GoogleMapComponent.jsx:55-128 | the fallback map iff the API is not loaded or there is a map error; otherwise one polyline per trail with its opacity, one marker per filtered attraction, and the info window |
| `GoogleMap.PageWiringDisablesWidgetFilters` | src/interactive-map-website.jsx:330-339 | as the page renders it (no filter flags passed), the widget marks every attraction it gets and draws every trail at opacity 1 |

## Left out

- All JSX/SVG markup, CSS transform and transition strings, the legend,
  icons, tooltip labels and marker icons. These are presentation. This
  includes the different order of translate and scale in the two fallback
  components' transform strings.
- Window-level listener registration and teardown in `useEffect`. Handlers
  are modelled as direct method calls.
- React state batching, asynchrony and stale closures. Each handler is an
  immediate, sequential update.
- The kind of pointer event. A mouse event's client position and the first
  touch of a touch event are both the `Point` argument.
- `preventDefault` on wheel events. It is a host capability with no effect
  on the state.
- IEEE-754 rounding and NaN. Numbers are exact `real`s.
- `Math.hypot`. The two-finger distance is an input.
- FallbackTsx.TouchMove: requires that a pinch with two or more touches has
  a non-zero previous distance. That fails only for coincident touches
  (distance 0) with no usable stored distance. There the source computes
  `0 / 0`, which is NaN, and NaN is not a `real`. A pinch to distance 0 with
  a stored distance is modelled (`FallbackTsx.PinchToZeroBottomsOut`).
- FallbackTsx.FallbackMap.HandleTouchMove: the same `0 / 0` exclusion as
  `FallbackTsx.TouchMove`.
- FallbackTsx.RunKeepsScaleInRange: covers only input sequences that never
  reach the `0 / 0` pinch.
- `window.google` detection. It is a boolean input.
- The `@react-google-maps/api` components.
- The `onMapLoad` handler and the `map`/`mapLoaded` setters. `mapError` is
  an input. The component never sets it.
- The embedded-iframe component (`EmbeddedGoogleMapComponent`) and
  `window.open`. They are third-party embedding with no state logic.
- The 800 ms loading screen (`isLoading`) and `App.jsx`, a plain wrapper.
- Trail colours, URLs, difficulty, distance and time labels, and attraction
  type tags. No modelled logic reads them.

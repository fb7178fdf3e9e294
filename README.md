# MapCompass follow-user state machine, in Dafny

MapCompass is a small map app. It shows the user's position and heading, one
point-of-interest marker, and a Recenter button. This project models the part
of it that carries real logic: the follow-user / recenter state machine that
sits between the app's state and the map widget.

- The **map adapter** (`CompassMapView.swift`) pushes app state onto the map in
  `updateUIView`. Its coordinator pulls map changes back in `regionWillChange`
  and `regionDidChange`. One boolean, `isProgrammaticChange`, tells the app's
  own camera moves apart from the user's. A second boolean, `resetToken`,
  mirrors the app's `shouldResetTracking` flag.
- The **root view** (`ContentView.swift`) owns the state: the region, whether
  the map follows the user, whether the Recenter button shows, the reset flag
  and the selected marker. It moves the region on each location fix while
  following, and implements `recenterOnUser`.
- The **annotation record** (`MapLinkAnnotation.swift`) is immutable. Its
  equality and hash use the id alone.

Layout:

- `geo.dfy` (module `Geo`): regions as `real` fields and the approximate
  region comparison.
- `map_link_annotation.dfy` (module `Annotations`): the annotation record, its
  id-only equality and hash, its subtitle, and a factory that hands out fresh ids.
- `compass_map_view.dfy` (module `CompassMapView`): the map widget as a record
  (region, tracking mode, displayed marker ids, log of commands received), and
  every adapter operation as a function from one `Screen` state to the next.
- `content_view.dfy` (module `ContentView`): the launch state, the
  location-fix handler and `recenterOnUser`, as functions.
- `app.dfy` (module `App`): class `MapScreen` holds the same state in mutable
  fields. Its methods do each operation step by step, as the Swift code does.
  Each method is proved to end in the state the matching function describes.
- `scenarios.dfy` (module `Scenarios`): runs of events and the properties
  that hold over every run.
- `wrappers.dfy` (module `Wrappers`): `Option`.

MapKit's own reactions are inputs to the model:

- whether a gesture is active;
- whether user interaction is enabled;
- the region the map reports when it settles;
- which annotation was tapped;
- MapKit dropping follow-with-heading tracking by itself during a pan, which
  is an event of its own (`TrackingDropped`) that changes only the map's
  tracking mode.

The location service's last fix is an `Option<Coordinate>` parameter.

A recenter with no fix yet toggles only `shouldResetTracking`. The code treats
that toggle as a request to re-engage tracking, yet it never sets
`isFollowingUser`, so while the app is free the same render undoes it. The
Findings section records this. The model of the app follows the code as written;
`ContentView.RecenterOnUserIntended` is the corrected recenter, kept beside
it with its property proved.

## Model

| member | source | states |
|---|---|---|
| `Geo.IsApproximatelyEqual` | MapCompass/MapCompass/CompassMapView.swift:126-131 | identical regions always compare approximately equal, so a map already at the bound region is never sent it again |
| `Geo.ApproxEqualIffAllFieldsClose` | MapCompass/MapCompass/CompassMapView.swift:126-131 | regions compare equal iff all four absolute field differences (centre latitude, centre longitude, latitude span, longitude span) are below 0.0001 |
| `Geo.ApproxEqualFailsOnAnyFarField` | MapCompass/MapCompass/CompassMapView.swift:126-131 | any one field at least 0.0001 apart makes the comparison false |
| `Geo.ApproxEqualSymmetric` | MapCompass/MapCompass/CompassMapView.swift:126-131 | the comparison is symmetric |
| `Geo.ApproxEqualNotTransitive` | MapCompass/MapCompass/CompassMapView.swift:126-131 | two steps below the tolerance can add up to a difference that is not, so the comparison is not transitive |
| `Annotations.SubtitleDependsOnUrlOnly` | MapCompass/MapCompass/MapLinkAnnotation.swift:17-19 | annotations with the same URL have the same subtitle whatever their title, coordinate or id |
| `Annotations.EqualIffSameButData` | MapCompass/MapCompass/MapLinkAnnotation.swift:23-25 | two annotations are `==` exactly when they agree once title, coordinate and URL are made the same, that is, when only the id decides |
| `Annotations.EqualIgnoresData` | MapCompass/MapCompass/MapLinkAnnotation.swift:23-25 | replacing title, coordinate or URL on either side never changes the outcome of `==` |
| `Annotations.EqualIsEquivalence` | MapCompass/MapCompass/MapLinkAnnotation.swift:23-25 | `==` is reflexive, symmetric and transitive |
| `Annotations.EqualImpliesEqualHash` | MapCompass/MapCompass/MapLinkAnnotation.swift:27-29 | the hash reads only the id, so equal annotations hash equally under any hasher |
| `Annotations.AnnotationFactory.Make` | MapCompass/MapCompass/MapLinkAnnotation.swift:5-15 | construction stores coordinate, title and URL unchanged, under an id that no earlier construction received |
| `Annotations.MakeTwice` | MapCompass/MapCompass/MapLinkAnnotation.swift:5 | two annotations built from identical data are not `==` |
| `CompassMapView.CoversIffSubset` | MapCompass/MapCompass/CompassMapView.swift:75-77 | under id-only `==`, every annotation of one list has an equal partner in another exactly when its ids are a subset of the other's, so Swift's `Set` inclusion is id-set inclusion |
| `CompassMapView.SameSetIffSameIds` | MapCompass/MapCompass/CompassMapView.swift:75-77 | two lists form equal Swift `Set`s under id-only `==` exactly when their id sets are equal, so `existing != desired` is a comparison of id sets |
| `CompassMapView.SubtractingIsIdDifference` | MapCompass/MapCompass/CompassMapView.swift:78-79 | an annotation of `A` survives `A.subtracting(B)` (no `==` partner in `B`) exactly when its id is in `Ids(A) - Ids(B)` |
| `CompassMapView.Diff` | MapCompass/MapCompass/CompassMapView.swift:77-79 | the removed ids lie in the existing set and outside the desired set; the added ids lie in the desired set and outside the existing set; removing and then adding gives exactly the desired set |
| `CompassMapView.DiffIsUnique` | MapCompass/MapCompass/CompassMapView.swift:77-79 | those three properties force the removed set to be existing minus desired and the added set to be desired minus existing |
| `CompassMapView.EnsureAnnotations` | MapCompass/MapCompass/CompassMapView.swift:74-81 | afterwards the displayed ids equal the desired ids; when they already did, nothing changes and no command is sent; otherwise exactly one remove of existing minus desired and one add of desired minus existing are sent; nothing else changes |
| `CompassMapView.MakeUIView` | MapCompass/MapCompass/CompassMapView.swift:23-28 | the new map follows with heading, shows the bound region and displays every annotation |
| `CompassMapView.UpdateUIView` | MapCompass/MapCompass/CompassMapView.swift:33-62 | afterwards: the tracking mode is followWithHeading iff the app follows the user, even when the reset token flipped in the same call; the reset token equals `shouldResetTracking`; while following, the Recenter button is hidden and the map region is approximately the bound region; while free, the map region is unchanged; the programmatic mark is set iff it already was, or the token flipped, or the mode differed, or (following) the region was apart; the app state is not otherwise touched; the state is unchanged iff the map was already in sync |
| `CompassMapView.UpdateMarksCameraCommands` | MapCompass/MapCompass/CompassMapView.swift:41-61 | the command log only grows; the programmatic mark ends set iff it was set or a tracking-mode or region command was sent; a setRegion of the bound region is sent iff the app follows and the map is not approximately there; no setRegion of any other region is ever sent |
| `CompassMapView.UpdateUIViewIdempotent` | MapCompass/MapCompass/CompassMapView.swift:37-61 | a second `updateUIView` with nothing changed in between sends nothing and changes nothing |
| `CompassMapView.RegionWillChange` | MapCompass/MapCompass/CompassMapView.swift:83-89 | only `followUser` can change; it becomes false exactly when interaction is enabled, no programmatic change is pending and a gesture is active, and it never becomes true |
| `CompassMapView.RegionDidChange` | MapCompass/MapCompass/CompassMapView.swift:91-101 | the bound region always becomes the reported one; the mark ends cleared; with the mark set, `showRecenter` and `followUser` are unchanged; with it clear, `showRecenter` becomes true exactly when not following |
| `CompassMapView.TrackingDroppedByMap` | MapCompass/MapCompass/CompassMapView.swift:57 | MapKit's own action, not the app's: the map's tracking mode (the value line 57 reads) becomes none, and nothing else changes: no command, no mark, no app state |
| `CompassMapView.DidSelect` | MapCompass/MapCompass/CompassMapView.swift:117-121 | tapping a link annotation selects it and sends exactly one deselect of its id; tapping anything else changes nothing |
| `ContentView.InitialScreen` | MapCompass/MapCompass/ContentView.swift:10-20 | at launch: following, Recenter hidden, reset flag false, no selection, region centred at (51.5072, -0.1276) with span 0.01 x 0.01, both coordinator flags clear, and the map in sync |
| `ContentView.UpdateRegion` | MapCompass/MapCompass/ContentView.swift:70-72 | the bound region becomes the fix at the initial span; nothing else changes |
| `ContentView.OnLocation` | MapCompass/MapCompass/ContentView.swift:41-44 | a fix while not following changes nothing; while following, the bound region becomes (fix, initial span) and nothing else changes |
| `ContentView.RecenterOnUser` | MapCompass/MapCompass/ContentView.swift:74-85 | the reset flag always flips; with no fix nothing else changes; with a fix, following is on, Recenter is hidden and the region is (fix, initial span) |
| `ContentView.RecenterOnUserIntended` | MapCompass/MapCompass/ContentView.swift:74-85 | the corrected recenter: following is always on and Recenter hidden afterwards, the reset flag flips, and with a fix it equals `RecenterOnUser` |
| `ContentView.RecenterTwiceWithoutFixRestores` | MapCompass/MapCompass/ContentView.swift:75-77 | two recenters with no fix restore the whole state, the reset flag included |
| `ContentView.RecenterTwiceWithFix` | MapCompass/MapCompass/ContentView.swift:79-84 | two recenters with the same fix equal one, except that the reset flag is back where it started |
| `ContentView.LaunchNeedsNoCommands` | MapCompass/MapCompass/ContentView.swift:12-20 | the first `updateUIView` after launch sends nothing and changes nothing |
| `App.MapScreen.constructor` | MapCompass/MapCompass/ContentView.swift:10-28 | the object starts in the launch state with one freshly built listing annotation holding the source's coordinate, title and URL |
| `App.MapScreen.EnsureAnnotations` | MapCompass/MapCompass/CompassMapView.swift:74-81 | the in-place reconciliation ends in the state `CompassMapView.EnsureAnnotations` gives, with the displayed ids equal to the listing's |
| `App.MapScreen.UpdateUIView` | MapCompass/MapCompass/CompassMapView.swift:33-62 | the step-by-step update ends in the state `CompassMapView.UpdateUIView` gives: tracking mode matches `followUser`, the token is synced and, while following, the Recenter button is hidden and the map is approximately at the bound region |
| `App.MapScreen.RegionWillChange` | MapCompass/MapCompass/CompassMapView.swift:83-89 | ends in the state `CompassMapView.RegionWillChange` gives; `followUser` never goes from false to true |
| `App.MapScreen.RegionDidChange` | MapCompass/MapCompass/CompassMapView.swift:91-101 | ends in the state `CompassMapView.RegionDidChange` gives; the bound region is the reported one and the mark is clear |
| `App.MapScreen.DidSelect` | MapCompass/MapCompass/CompassMapView.swift:117-121 | ends in the state `CompassMapView.DidSelect` gives |
| `App.MapScreen.UpdateRegion` | MapCompass/MapCompass/ContentView.swift:70-72 | ends in the state `ContentView.UpdateRegion` gives |
| `App.MapScreen.OnLocation` | MapCompass/MapCompass/ContentView.swift:41-44 | ends in the state `ContentView.OnLocation` gives; a fix while not following leaves the region as it was |
| `App.MapScreen.RecenterOnUser` | MapCompass/MapCompass/ContentView.swift:74-85 | ends in the state `ContentView.RecenterOnUser` gives; the reset flag is flipped |
| `Scenarios.StaysFreeUntilRecenterWithFix` | MapCompass/MapCompass/ContentView.swift:79-81 | from a free state, any run with no recenter-with-fix stays free |
| `Scenarios.KeepsFollowingWithoutGesture` | MapCompass/MapCompass/CompassMapView.swift:83-89 | from a following state, any run with no user gesture (interaction enabled, gesture active) keeps following |
| `Scenarios.FixesNeverMoveFreeRegion` | MapCompass/MapCompass/ContentView.swift:41-44 | from a free state, any run with no settle and no recenter-with-fix leaves the bound region unchanged, however many fixes arrive |
| `Scenarios.RegionsStayValid` | MapCompass/MapCompass/ContentView.swift:10-15 | bound and map regions keep positive spans over any run in which the map only reports regions with positive spans |
| `Scenarios.PendingMoveSurvivesUntilSettled` | MapCompass/MapCompass/CompassMapView.swift:83-101 | while the app's own move is pending and it follows, any run without a settle keeps the mark, keeps following and keeps Recenter hidden |
| `Scenarios.RecenterSettlesAsProgrammatic` | MapCompass/MapCompass/ContentView.swift:79-84 | from a rendered state, recenter-with-fix and a render leave the mark pending through any events short of a settle; the settle that follows consumes it, and following stays on with Recenter hidden |
| `Scenarios.UserPanFreesMap` | MapCompass/MapCompass/CompassMapView.swift:83-101 | a gesture and a settle while following with no pending mark end following, show Recenter and take the reported region; the next render sets tracking to none |
| `Scenarios.PanRenderedBeforeSettleHidesRecenter` | MapCompass/MapCompass/CompassMapView.swift:56-60 | in sync and following, a gesture, then a render, then the settle, with the map still tracking: following ends but Recenter stays hidden, because the render's own setUserTrackingMode(.none) marks the settle as the app's |
| `Scenarios.PanWithDroppedTrackingShowsRecenter` | MapCompass/MapCompass/CompassMapView.swift:83-101 | in sync and following, a gesture during which MapKit drops tracking (before or after the gesture callback) ends following and shows Recenter in all four orders, whether the render comes before or after the settle; in each order the render sends nothing and changes nothing |
| `Scenarios.FixWhileFollowingSendsOneRegion` | MapCompass/MapCompass/CompassMapView.swift:52-55 | in sync and following, a fix that moves the region by more than the tolerance makes the next render send exactly one command: setRegion(fix, initial span) |
| `Scenarios.LaunchThenFix` | MapCompass/MapCompass/ContentView.swift:41-44 | from launch, a fix at (51.51, -0.12) makes the next render send exactly one setRegion centred there at the initial span |
| `Scenarios.RecenterWithoutFixWhileFree` | MapCompass/MapCompass/ContentView.swift:75-78 | in sync and free, a recenter with no fix and a render leave the app free with tracking none and Recenter as it was; the map receives followWithHeading and then none; a later fix does not move the region |
| `Scenarios.IntendedRecenterWithoutFixFollows` | MapCompass/MapCompass/CompassMapView.swift:41-51 | with the corrected recenter and no fix, the next render leaves the app following with tracking followWithHeading and Recenter hidden; a later fix moves the bound region onto it and the render after that puts the map approximately there |

## Left out

- Region comparison uses `real` arithmetic. IEEE double rounding in the subtractions and in `abs` is not modelled, and the tolerance 0.0001 is exact.
- MapKit's own behaviour is not modelled: whether and when `setRegion` or `setUserTrackingMode` fire the region callbacks, animation, and how MapKit fits a region to the view's aspect ratio. Whether MapKit drops tracking during a particular pan is not modelled; the `TrackingDropped` event lets a run say it did. The callbacks take the gesture state, the interaction flag and the reported region as inputs. A tracking-mode command leaves the map's region unchanged in the model.
- The gesture-recognizer state test in `regionWillChange` (`CompassMapView.swift:86`) is the boolean input `gestureActive`.
- The configuration in `makeUIView` other than tracking mode, region and annotations is not modelled: compass, user-location dot, rotation, pitch and point-of-interest filter. Marker rendering in `viewFor annotation` (`CompassMapView.swift:103-115`) is UI only and is also left out.
- `Scenarios.UserPanFreesMap` covers a gesture settled before the next render. When the render comes between the gesture and the settle and MapKit has not dropped tracking, the render's own setUserTrackingMode(.none) marks the settle as programmatic, and the app ends free with the Recenter button hidden (`Scenarios.PanRenderedBeforeSettleHidesRecenter`).
- `MapLinkAnnotation` subclasses `NSObject`, whose `isEqual:` and `hash` are what a Swift `Set` of it may use. The model assumes the id-only `==` and `hash(into:)` declared in `MapLinkAnnotation.swift:22-29` are the ones `Set` uses. Every annotation gets a fresh id, so object identity and id equality agree for every annotation the app builds.
- `ensureAnnotations` sees only link annotations, by id. Other annotations on the map, such as the user-location dot, are not part of the displayed set.
- `Annotations.AnnotationFactory.Make`: a UUID is modelled as a counter. Only "fresh and different from every earlier id" is kept.
- `Annotations.Subtitle`: URL parsing is not modelled. The `Url` record holds the parsed host, so the force-unwrapped `URL(string:)` in `ContentView.swift:26` cannot fail in the model.
- `Annotations.Hash`: Swift's seeded `Hasher` is a function parameter. The model shows only that the hash depends on the id alone.
- `LocationManager.swift` is not part of this model: permission prompts, start and stop of updates, the distance filter, and the hand-off to the main queue. A fix is only an input to `OnLocation` and `RecenterOnUser`.
- `SafariSheet.swift` is not part of this model. The browser sheet, its dismissal (which clears the selection), the Recenter button's layout, `withAnimation` and the previews are SwiftUI presentation.
- SwiftUI's re-rendering schedule is not modelled. `updateUIView` is an explicit event, and when SwiftUI calls it is up to the caller of the model.

## Findings

| source | as written | input that shows it | evidently intended | confidence | as-written member | corrected member |
|---|---|---|---|---|---|---|
| MapCompass/MapCompass/ContentView.swift:75-77 | with no fix, `recenterOnUser` only toggles `shouldResetTracking`; `updateUIView` re-engages followWithHeading for the toggle (`CompassMapView.swift:41-45`) and, since `isFollowingUser` is still false, sets tracking back to none in the same call (`CompassMapView.swift:56-60`) | a free, in-sync screen with no fix yet; tap Recenter; render; a fix arrives | the toggle's tracking is kept: following resumes, Recenter hides, and the next fix centres the map | medium, not executed | `Scenarios.RecenterWithoutFixWhileFree` | `ContentView.RecenterOnUserIntended`, with `Scenarios.IntendedRecenterWithoutFixFollows` |

/**
 * The root view: the app state it starts with, what it does with each
 * location fix, and the recenter command.
 */
module ContentView {

  import opened Wrappers
  import opened Geo
  import opened Annotations
  import opened CompassMapView

  /** The zoom level used whenever the app centres on the user. */
  const InitialSpan: Span := Span(0.01, 0.01)

  /** The region shown before any fix arrives: central London. */
  const InitialRegion: Region := Region(Coordinate(51.5072, -0.1276), InitialSpan)

  /** The one point of interest the app shows. */
  const ListingCoordinate: Coordinate := Coordinate(51.904181983991165, -2.076733453302931)
  const ListingTitle: Option<string> := Some("Rightmove Listing")
  const ListingUrl: Url := Url("https", Some("www.rightmove.co.uk"), "/properties/163231814", Some("/?channel=RES_BUY"))

  /**
   * The screen at launch: the root view's initial state, the coordinator's
   * two flags cleared, and the map as `makeUIView` configures it.
   */
  function InitialScreen(annotations: seq<MapLinkAnnotation>): (s: Screen)
    ensures s.followUser && !s.showRecenter && !s.shouldResetTracking && s.selectedAnnotation == None
    ensures s.region == InitialRegion && ValidRegion(s.region)
    ensures !s.isProgrammaticChange && !s.resetToken
    ensures InSync(s, annotations)
  {
    Screen(
      region := InitialRegion,
      followUser := true,
      shouldResetTracking := false,
      showRecenter := false,
      selectedAnnotation := None,
      isProgrammaticChange := false,
      resetToken := false,
      view := MakeUIView(InitialRegion, annotations))
  }

  /** `updateRegion(with:)`: centre the bound region on a fix at the initial zoom. */
  function UpdateRegion(s: Screen, location: Coordinate): (t: Screen)
    ensures t.region.center == location && t.region.span == InitialSpan && ValidRegion(t.region)
    ensures t == s.(region := t.region)
  {
    s.(region := Region(location, InitialSpan))
  }

  /** The location-fix handler: a fix moves the bound region only while following. */
  function OnLocation(s: Screen, location: Coordinate): (t: Screen)
    ensures !s.followUser ==> t == s
    ensures s.followUser ==> t.region == Region(location, InitialSpan) && t == s.(region := t.region)
  {
    if !s.followUser then s else UpdateRegion(s, location)
  }

  /**
   * `recenterOnUser`: with a last fix, follow the user again, hide the
   * control and centre on the fix; with or without one, flip the reset
   * token so that the map re-engages tracking.
   */
  function RecenterOnUser(s: Screen, lastLocation: Option<Coordinate>): (t: Screen)
    ensures t.shouldResetTracking == !s.shouldResetTracking
    ensures lastLocation.None? ==> t == s.(shouldResetTracking := t.shouldResetTracking)
    ensures lastLocation.Some? ==>
              && t.followUser && !t.showRecenter
              && t.region == Region(lastLocation.value, InitialSpan)
              && t == s.(followUser := true, showRecenter := false, region := t.region,
                         shouldResetTracking := t.shouldResetTracking)
  {
    match lastLocation
    case None => s.(shouldResetTracking := !s.shouldResetTracking)
    case Some(location) =>
      var s1 := s.(followUser := true, showRecenter := false);
      var s2 := UpdateRegion(s1, location);
      s2.(shouldResetTracking := !s2.shouldResetTracking)
  }

  /**
   * `recenterOnUser` as the reset token's handling in `updateUIView` implies
   * it was meant: without a fix it also resumes following and hides the
   * control, so that the tracking the token re-engages is kept; with a fix it
   * is `RecenterOnUser`.
   */
  function RecenterOnUserIntended(s: Screen, lastLocation: Option<Coordinate>): (t: Screen)
    ensures t.followUser && !t.showRecenter
    ensures t.shouldResetTracking == !s.shouldResetTracking
    ensures lastLocation.Some? ==> t == RecenterOnUser(s, lastLocation)
    ensures lastLocation.None? ==>
              t == s.(followUser := true, showRecenter := false, shouldResetTracking := t.shouldResetTracking)
  {
    match lastLocation
    case None => s.(followUser := true, showRecenter := false, shouldResetTracking := !s.shouldResetTracking)
    case Some(_) => RecenterOnUser(s, lastLocation)
  }

  /** Two recenters before any fix restore the state exactly; neither fails. */
  lemma RecenterTwiceWithoutFixRestores(s: Screen)
    ensures RecenterOnUser(RecenterOnUser(s, None), None) == s
  {
  }

  /** Two recenters with the same fix leave the reset token where it was. */
  lemma RecenterTwiceWithFix(s: Screen, location: Coordinate)
    ensures var t := RecenterOnUser(RecenterOnUser(s, Some(location)), Some(location));
            t == RecenterOnUser(s, Some(location)).(shouldResetTracking := s.shouldResetTracking)
  {
  }

  /** At launch the first `updateUIView` has nothing to send. */
  lemma LaunchNeedsNoCommands(annotations: seq<MapLinkAnnotation>)
    ensures UpdateUIView(InitialScreen(annotations), annotations) == InitialScreen(annotations)
  {
  }
}

/**
 * Sequences of events on the screen: what the follow-user state machine
 * guarantees over any run, and the scenarios the app must handle.
 */
module Scenarios {

  import opened Wrappers
  import opened Geo
  import opened Annotations
  import opened CompassMapView
  import opened ContentView

  /** One event on the UI queue. */
  datatype Event =
    | UpdateView                                             // SwiftUI re-renders the map adapter
    | WillChange(interactionEnabled: bool, gestureActive: bool)  // the map is about to move
    | DidChange(reported: Region)                            // the map settled on a region
    | Tap(tapped: Option<MapLinkAnnotation>)                 // a marker was selected
    | Fix(location: Coordinate)                              // the location service published a fix
    | Recenter(lastLocation: Option<Coordinate>)             // the Recenter button was pressed
    | TrackingDropped                                        // MapKit stopped tracking on its own

  function Step(s: Screen, annotations: seq<MapLinkAnnotation>, e: Event): Screen
  {
    match e
    case UpdateView => UpdateUIView(s, annotations)
    case WillChange(enabled, gesture) => RegionWillChange(s, enabled, gesture)
    case DidChange(r) => RegionDidChange(s, r)
    case Tap(a) => DidSelect(s, a)
    case Fix(location) => OnLocation(s, location)
    case Recenter(last) => RecenterOnUser(s, last)
    case TrackingDropped => TrackingDroppedByMap(s)
  }

  function Run(s: Screen, annotations: seq<MapLinkAnnotation>, events: seq<Event>): Screen
    decreases |events|
  {
    if events == [] then s else Run(Step(s, annotations, events[0]), annotations, events[1..])
  }

  /** Running two lists of events is running one after the other. */
  lemma {:induction false} RunAppend(s: Screen, annotations: seq<MapLinkAnnotation>, a: seq<Event>, b: seq<Event>)
    ensures Run(s, annotations, a + b) == Run(Run(s, annotations, a), annotations, b)
    decreases |a|
  {
    if a == [] {
      assert a + b == b;
    } else {
      assert (a + b)[0] == a[0] && (a + b)[1..] == a[1..] + b;
      RunAppend(Step(s, annotations, a[0]), annotations, a[1..], b);
    }
  }

  /** Running two events is stepping twice. */
  lemma RunTwo(s: Screen, annotations: seq<MapLinkAnnotation>, e1: Event, e2: Event)
    ensures Run(s, annotations, [e1, e2]) == Step(Step(s, annotations, e1), annotations, e2)
  {
    var s1 := Step(s, annotations, e1);
    assert [e1, e2][1..] == [e2];
    assert Run(s, annotations, [e1, e2]) == Run(s1, annotations, [e2]);
    assert [e2][1..] == [];
    assert Run(s1, annotations, [e2]) == Run(Step(s1, annotations, e2), annotations, []);
  }

  /** Running three events is stepping three times. */
  lemma RunThree(s: Screen, annotations: seq<MapLinkAnnotation>, e1: Event, e2: Event, e3: Event)
    ensures Run(s, annotations, [e1, e2, e3]) == Step(Step(Step(s, annotations, e1), annotations, e2), annotations, e3)
  {
    assert [e1, e2, e3][1..] == [e2, e3];
    RunTwo(Step(s, annotations, e1), annotations, e2, e3);
  }

  /** Running four events is stepping four times. */
  lemma RunFour(s: Screen, annotations: seq<MapLinkAnnotation>, e1: Event, e2: Event, e3: Event, e4: Event)
    ensures Run(s, annotations, [e1, e2, e3, e4]) ==
            Step(Step(Step(Step(s, annotations, e1), annotations, e2), annotations, e3), annotations, e4)
  {
    assert [e1, e2, e3, e4][1..] == [e2, e3, e4];
    RunThree(Step(s, annotations, e1), annotations, e2, e3, e4);
  }

  /** The only event that turns following back on. */
  predicate ResumesFollowing(e: Event)
  {
    e.Recenter? && e.lastLocation.Some?
  }

  /** The only event that turns following off: a gesture while interaction is enabled. */
  predicate IsUserGesture(e: Event)
  {
    e.WillChange? && e.interactionEnabled && e.gestureActive
  }

  /** Free to Following happens only through a recenter with a known fix. */
  lemma {:induction false} StaysFreeUntilRecenterWithFix(s: Screen, annotations: seq<MapLinkAnnotation>, events: seq<Event>)
    requires !s.followUser
    requires forall i :: 0 <= i < |events| ==> !ResumesFollowing(events[i])
    ensures !Run(s, annotations, events).followUser
    decreases |events|
  {
    if events != [] {
      StaysFreeUntilRecenterWithFix(Step(s, annotations, events[0]), annotations, events[1..]);
    }
  }

  /** Following to Free happens only through a user gesture. */
  lemma {:induction false} KeepsFollowingWithoutGesture(s: Screen, annotations: seq<MapLinkAnnotation>, events: seq<Event>)
    requires s.followUser
    requires forall i :: 0 <= i < |events| ==> !IsUserGesture(events[i])
    ensures Run(s, annotations, events).followUser
    decreases |events|
  {
    if events != [] {
      KeepsFollowingWithoutGesture(Step(s, annotations, events[0]), annotations, events[1..]);
    }
  }

  /**
   * While free, location fixes never move the bound region: only the map's
   * own reports (or a recenter with a fix) do.
   */
  lemma {:induction false} FixesNeverMoveFreeRegion(s: Screen, annotations: seq<MapLinkAnnotation>, events: seq<Event>)
    requires !s.followUser
    requires forall i :: 0 <= i < |events| ==> !ResumesFollowing(events[i]) && !events[i].DidChange?
    ensures Run(s, annotations, events).region == s.region
    decreases |events|
  {
    if events != [] {
      FixesNeverMoveFreeRegion(Step(s, annotations, events[0]), annotations, events[1..]);
    }
  }

  /** Both the bound region and the map's region cover a positive area. */
  predicate RegionsValid(s: Screen)
  {
    ValidRegion(s.region) && ValidRegion(s.view.region)
  }

  /** Regions keep positive spans as long as the map only reports such regions. */
  lemma {:induction false} RegionsStayValid(s: Screen, annotations: seq<MapLinkAnnotation>, events: seq<Event>)
    requires RegionsValid(s)
    requires forall i :: 0 <= i < |events| && events[i].DidChange? ==> ValidRegion(events[i].reported)
    ensures RegionsValid(Run(s, annotations, events))
    decreases |events|
  {
    if events != [] {
      RegionsStayValid(Step(s, annotations, events[0]), annotations, events[1..]);
    }
  }

  /**
   * While the app's own camera move is pending, following stays on and the
   * recenter control stays hidden whatever happens, until the map settles.
   */
  lemma {:induction false} PendingMoveSurvivesUntilSettled(s: Screen, annotations: seq<MapLinkAnnotation>, events: seq<Event>)
    requires s.isProgrammaticChange && s.followUser && !s.showRecenter
    requires forall i :: 0 <= i < |events| ==> !events[i].DidChange?
    ensures var t := Run(s, annotations, events);
            t.isProgrammaticChange && t.followUser && !t.showRecenter
    decreases |events|
  {
    if events != [] {
      PendingMoveSurvivesUntilSettled(Step(s, annotations, events[0]), annotations, events[1..]);
    }
  }

  /**
   * From a rendered state (reset token in step), recenter with a fix,
   * render, then any events short of the map settling:
   * the settle that follows is taken as the app's own move. The mark is
   * consumed, following stays on and the recenter control stays hidden.
   */
  lemma RecenterSettlesAsProgrammatic(s: Screen, annotations: seq<MapLinkAnnotation>, location: Coordinate,
                                      between: seq<Event>, reported: Region)
    requires s.resetToken == s.shouldResetTracking
    requires forall i :: 0 <= i < |between| ==> !between[i].DidChange?
    ensures Run(s, annotations, [Recenter(Some(location)), UpdateView] + between).isProgrammaticChange
    ensures var t := Run(s, annotations, [Recenter(Some(location)), UpdateView] + between + [DidChange(reported)]);
            t.followUser && !t.showRecenter && !t.isProgrammaticChange && t.region == reported
  {
    var s2 := Run(s, annotations, [Recenter(Some(location)), UpdateView]);
    RunTwo(s, annotations, Recenter(Some(location)), UpdateView);
    PendingMoveSurvivesUntilSettled(s2, annotations, between);
    RunAppend(s, annotations, [Recenter(Some(location)), UpdateView], between);
    RunAppend(s, annotations, [Recenter(Some(location)), UpdateView] + between, [DidChange(reported)]);
    assert [DidChange(reported)][1..] == [];
  }

  /** A pan while following: following ends, the control shows, and the next render stops tracking. */
  lemma UserPanFreesMap(s: Screen, annotations: seq<MapLinkAnnotation>, reported: Region)
    requires s.followUser && !s.isProgrammaticChange
    ensures var t := Run(s, annotations, [WillChange(true, true), DidChange(reported)]);
            && !t.followUser && t.showRecenter && t.region == reported
            && UpdateUIView(t, annotations).view.trackingMode == NoTracking
  {
    RunTwo(s, annotations, WillChange(true, true), DidChange(reported));
  }

  /**
   * A pan rendered before it settles, with the map still tracking: the
   * render stops tracking itself, so the settle is taken as the app's own
   * move and the recenter control stays hidden although following is off.
   */
  lemma PanRenderedBeforeSettleHidesRecenter(s: Screen, annotations: seq<MapLinkAnnotation>, reported: Region)
    requires InSync(s, annotations) && s.followUser && !s.isProgrammaticChange
    ensures var t := Run(s, annotations, [WillChange(true, true), UpdateView, DidChange(reported)]);
            && !t.followUser && !t.showRecenter && t.region == reported
  {
    RunThree(s, annotations, WillChange(true, true), UpdateView, DidChange(reported));
  }

  /**
   * A pan during which MapKit drops tracking by itself, before or after the
   * gesture is reported: in all four orders, whether the render comes before
   * or after the map settles, following ends and the recenter control shows,
   * and the render sends nothing.
   */
  lemma PanWithDroppedTrackingShowsRecenter(s: Screen, annotations: seq<MapLinkAnnotation>, reported: Region)
    requires InSync(s, annotations) && s.followUser && !s.isProgrammaticChange
    ensures var t := Run(s, annotations, [TrackingDropped, WillChange(true, true), UpdateView, DidChange(reported)]);
            !t.followUser && t.showRecenter && t.region == reported
    ensures var t := Run(s, annotations, [WillChange(true, true), TrackingDropped, UpdateView, DidChange(reported)]);
            !t.followUser && t.showRecenter && t.region == reported
    ensures var t := Run(s, annotations, [TrackingDropped, WillChange(true, true), DidChange(reported), UpdateView]);
            !t.followUser && t.showRecenter && t.region == reported
    ensures var t := Run(s, annotations, [WillChange(true, true), TrackingDropped, DidChange(reported), UpdateView]);
            !t.followUser && t.showRecenter && t.region == reported
    ensures var u := Run(s, annotations, [TrackingDropped, WillChange(true, true)]);
            UpdateUIView(u, annotations) == u
    ensures var u := Run(s, annotations, [WillChange(true, true), TrackingDropped]);
            UpdateUIView(u, annotations) == u
    ensures var u := Run(s, annotations, [TrackingDropped, WillChange(true, true), DidChange(reported)]);
            UpdateUIView(u, annotations) == u
    ensures var u := Run(s, annotations, [WillChange(true, true), TrackingDropped, DidChange(reported)]);
            UpdateUIView(u, annotations) == u
  {
    var u := Run(s, annotations, [TrackingDropped, WillChange(true, true)]);
    RunTwo(s, annotations, TrackingDropped, WillChange(true, true));
    assert InSync(u, annotations);
    RunFour(s, annotations, TrackingDropped, WillChange(true, true), UpdateView, DidChange(reported));
    RunFour(s, annotations, WillChange(true, true), TrackingDropped, UpdateView, DidChange(reported));
    RunFour(s, annotations, TrackingDropped, WillChange(true, true), DidChange(reported), UpdateView);
    RunFour(s, annotations, WillChange(true, true), TrackingDropped, DidChange(reported), UpdateView);
    RunTwo(s, annotations, WillChange(true, true), TrackingDropped);
    RunThree(s, annotations, TrackingDropped, WillChange(true, true), DidChange(reported));
    RunThree(s, annotations, WillChange(true, true), TrackingDropped, DidChange(reported));
  }

  /** A fix while following and in sync makes the next render send exactly one region. */
  lemma FixWhileFollowingSendsOneRegion(s: Screen, annotations: seq<MapLinkAnnotation>, location: Coordinate)
    requires InSync(s, annotations) && s.followUser
    requires !IsApproximatelyEqual(s.view.region, Region(location, InitialSpan))
    ensures var t := Run(s, annotations, [Fix(location), UpdateView]);
            && t.region == Region(location, InitialSpan) && t.view.region == t.region
            && Extends(s.view, t.view)
            && Issued(s.view, t.view) == [SetRegion(Region(location, InitialSpan))]
  {
    RunTwo(s, annotations, Fix(location), UpdateView);
    var u := OnLocation(s, location);
    assert PrepareCamera(u, annotations) == u;
    MatchRegionMarks(u);
  }

  /** At launch, a first fix at (51.51, -0.12) sends one region to the map, centred on it. */
  lemma LaunchThenFix(annotations: seq<MapLinkAnnotation>)
    ensures var s := InitialScreen(annotations);
            var t := Run(s, annotations, [Fix(Coordinate(51.51, -0.12)), UpdateView]);
            && t.region == Region(Coordinate(51.51, -0.12), InitialSpan)
            && Extends(s.view, t.view)
            && Issued(s.view, t.view) == [SetRegion(Region(Coordinate(51.51, -0.12), InitialSpan))]
  {
    var s := InitialScreen(annotations);
    ApproxEqualFailsOnAnyFarField(s.view.region, Region(Coordinate(51.51, -0.12), InitialSpan), 0);
    FixWhileFollowingSendsOneRegion(s, annotations, Coordinate(51.51, -0.12));
  }

  /**
   * Recenter before any fix while free: tracking is re-engaged and dropped
   * again in the same render, the app stays free, and a fix that arrives
   * afterwards does not move the region either.
   */
  lemma RecenterWithoutFixWhileFree(s: Screen, annotations: seq<MapLinkAnnotation>, location: Coordinate)
    requires InSync(s, annotations) && !s.followUser
    ensures Run(s, annotations, [Recenter(None), UpdateView, Fix(location)]).region == s.region
    ensures var t := Run(s, annotations, [Recenter(None), UpdateView]);
            && !t.followUser && t.showRecenter == s.showRecenter
            && t.view.trackingMode == NoTracking && t.isProgrammaticChange
            && Extends(s.view, t.view)
            && Issued(s.view, t.view) == [SetUserTrackingMode(FollowWithHeading), SetUserTrackingMode(NoTracking)]
  {
    RunTwo(s, annotations, Recenter(None), UpdateView);
    var u := RecenterOnUser(s, None);
    var r := ResetTracking(u);
    SendProgrammaticMarks(u.(resetToken := u.shouldResetTracking), SetUserTrackingMode(FollowWithHeading));
    SendProgrammaticMarks(r, SetUserTrackingMode(NoTracking));
    IssuedChain(s.view, r.view, MatchTrackingMode(r).view);
    RunThree(s, annotations, Recenter(None), UpdateView, Fix(location));
  }

  /**
   * The intended recenter before any fix: the next render keeps following
   * with heading and the control hidden, and a later fix moves the region
   * onto it and the render after that sends the map there.
   */
  lemma IntendedRecenterWithoutFixFollows(s: Screen, annotations: seq<MapLinkAnnotation>, location: Coordinate)
    ensures var t := UpdateUIView(RecenterOnUserIntended(s, None), annotations);
            && t.followUser && !t.showRecenter && t.view.trackingMode == FollowWithHeading
            && OnLocation(t, location).region == Region(location, InitialSpan)
            && IsApproximatelyEqual(UpdateUIView(OnLocation(t, location), annotations).view.region,
                                    Region(location, InitialSpan))
  {
  }
}

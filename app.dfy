/**
 * The running app as one object: the root view's state (which the map
 * adapter binds to), the coordinator's two flags, and the map widget it
 * drives. Each method performs one event the way the source does, step by
 * step, and is proved to end in the state the matching function of
 * `CompassMapView` or `ContentView` describes.
 */
module App {

  import opened Wrappers
  import opened Geo
  import opened Annotations
  import opened CompassMapView
  import opened ContentView

  class MapScreen {
    // Root view state, shared with the map adapter through bindings.
    var region: Region
    var followUser: bool
    var shouldResetTracking: bool
    var showRecenter: bool
    var selectedAnnotation: Option<MapLinkAnnotation>
    const annotations: seq<MapLinkAnnotation>

    // Coordinator state.
    var isProgrammaticChange: bool
    var resetToken: bool

    // The map widget.
    var mapRegion: Region
    var trackingMode: UserTrackingMode
    var displayed: set<AnnotationId>
    var commands: seq<MapCommand>

    /** The whole state as a value. */
    function Snapshot(): Screen
      reads this
    {
      Screen(region, followUser, shouldResetTracking, showRecenter, selectedAnnotation,
             isProgrammaticChange, resetToken,
             MapView(mapRegion, trackingMode, displayed, commands))
    }

    /** Launch: the root view's initial state, its one listing, and the configured map. */
    constructor (factory: AnnotationFactory)
      requires factory.Valid()
      modifies factory
      ensures factory.Valid()
      ensures |annotations| == 1 && annotations[0].id !in old(factory.issued)
      ensures annotations[0].coordinate == ListingCoordinate
      ensures annotations[0].title == ListingTitle && annotations[0].url == ListingUrl
      ensures Snapshot() == InitialScreen(annotations)
    {
      var listing := factory.Make(ListingCoordinate, ListingTitle, ListingUrl);
      annotations := [listing];
      region := InitialRegion;
      followUser := true;
      shouldResetTracking := false;
      showRecenter := false;
      selectedAnnotation := None;
      isProgrammaticChange := false;
      resetToken := false;
      mapRegion := InitialRegion;
      trackingMode := FollowWithHeading;
      displayed := {};
      commands := [];
      new;
      SendToMap(SetRegion(region));
      SendToMap(AddAnnotations(Ids(annotations)));
    }

    /** The map widget obeys one command and records it. */
    method SendToMap(c: MapCommand)
      modifies this
      ensures Snapshot() == old(Snapshot()).(view := Send(old(Snapshot()).view, c))
    {
      commands := commands + [c];
      match c
      case SetUserTrackingMode(mode) => trackingMode := mode;
      case SetRegion(r) => mapRegion := r;
      case RemoveAnnotations(ids) => displayed := displayed - ids;
      case AddAnnotations(ids) => displayed := displayed + ids;
      case DeselectAnnotation(_) =>
    }

    /** `ensureAnnotations`: reconcile the displayed markers with the listing. */
    method EnsureAnnotations()
      modifies this
      ensures Snapshot() == CompassMapView.EnsureAnnotations(old(Snapshot()), annotations)
      ensures displayed == Ids(annotations)
    {
      var existing := displayed;
      var desired := Ids(annotations);
      if existing != desired {
        var d := Diff(existing, desired);
        SendToMap(RemoveAnnotations(d.0));
        SendToMap(AddAnnotations(d.1));
      }
    }

    /** `updateUIView`: push the app state onto the map. */
    method UpdateUIView()
      modifies this
      ensures Snapshot() == CompassMapView.UpdateUIView(old(Snapshot()), annotations)
      ensures trackingMode == (if followUser then FollowWithHeading else NoTracking)
      ensures resetToken == shouldResetTracking && displayed == Ids(annotations)
      ensures followUser ==> !showRecenter && IsApproximatelyEqual(mapRegion, region)
    {
      ghost var s0 := Snapshot();
      EnsureAnnotations();
      if followUser {
        showRecenter := false;
      }
      ghost var s2 := Snapshot();
      assert s2 == HideRecenterWhileFollowing(CompassMapView.EnsureAnnotations(s0, annotations));
      if resetToken != shouldResetTracking {
        resetToken := shouldResetTracking;
        isProgrammaticChange := true;
        SendToMap(SetUserTrackingMode(FollowWithHeading));
      }
      ghost var s3 := Snapshot();
      assert s3 == ResetTracking(s2);
      if followUser {
        if trackingMode != FollowWithHeading {
          isProgrammaticChange := true;
          SendToMap(SetUserTrackingMode(FollowWithHeading));
        }
        assert Snapshot() == MatchTrackingMode(s3);
        if !IsApproximatelyEqual(mapRegion, region) {
          isProgrammaticChange := true;
          SendToMap(SetRegion(region));
        }
      } else {
        if trackingMode != NoTracking {
          isProgrammaticChange := true;
          SendToMap(SetUserTrackingMode(NoTracking));
        }
        assert Snapshot() == MatchTrackingMode(s3);
      }
    }

    /** `regionWillChange`: a user gesture ends following, unless the change is the app's own. */
    method RegionWillChange(interactionEnabled: bool, gestureActive: bool)
      modifies this
      ensures Snapshot() == CompassMapView.RegionWillChange(old(Snapshot()), interactionEnabled, gestureActive)
      ensures followUser ==> old(followUser)
    {
      if !interactionEnabled {
        return;
      }
      if isProgrammaticChange {
        return;
      }
      if gestureActive {
        followUser := false;
      }
    }

    /** `regionDidChange`: the map settled on `reported`; copy it and attribute the move. */
    method RegionDidChange(reported: Region)
      modifies this
      ensures Snapshot() == CompassMapView.RegionDidChange(old(Snapshot()), reported)
      ensures region == reported && !isProgrammaticChange
    {
      mapRegion := reported;
      if isProgrammaticChange {
        isProgrammaticChange := false;
        region := mapRegion;
        return;
      }
      region := mapRegion;
      if !followUser {
        showRecenter := true;
      }
    }

    /** `didSelect`: select a tapped link annotation and deselect it on the map. */
    method DidSelect(tapped: Option<MapLinkAnnotation>)
      modifies this
      ensures Snapshot() == CompassMapView.DidSelect(old(Snapshot()), tapped)
    {
      if tapped.None? {
        return;
      }
      selectedAnnotation := tapped;
      SendToMap(DeselectAnnotation(tapped.value.id));
    }

    /** `updateRegion(with:)`. */
    method UpdateRegion(location: Coordinate)
      modifies this
      ensures Snapshot() == ContentView.UpdateRegion(old(Snapshot()), location)
    {
      region := Region(location, InitialSpan);
    }

    /** The location-fix handler: acts only while following. */
    method OnLocation(location: Coordinate)
      modifies this
      ensures Snapshot() == ContentView.OnLocation(old(Snapshot()), location)
      ensures !old(followUser) ==> region == old(region)
    {
      if !followUser {
        return;
      }
      UpdateRegion(location);
    }

    /** `recenterOnUser`, given the location service's last fix. */
    method RecenterOnUser(lastLocation: Option<Coordinate>)
      modifies this
      ensures Snapshot() == ContentView.RecenterOnUser(old(Snapshot()), lastLocation)
      ensures shouldResetTracking == !old(shouldResetTracking)
    {
      if lastLocation.None? {
        shouldResetTracking := !shouldResetTracking;
        return;
      }
      followUser := true;
      showRecenter := false;
      region := Region(lastLocation.value, InitialSpan);
      shouldResetTracking := !shouldResetTracking;
    }
  }
}

/**
 * The map widget adapter: how app state is pushed onto the map
 * (`updateUIView`) and how the map's delegate callbacks pull changes back.
 *
 * Every operation is a function from one `Screen` (the bound app state, the
 * coordinator's two flags and the map widget) to the next. `App.MapScreen`
 * runs the same operations as methods on mutable fields.
 */
module CompassMapView {

  import opened Wrappers
  import opened Geo
  import opened Annotations

  /** The two camera tracking modes the app uses. */
  datatype UserTrackingMode = NoTracking | FollowWithHeading

  /** A command the app sends to the map widget. */
  datatype MapCommand =
    | SetUserTrackingMode(mode: UserTrackingMode)
    | SetRegion(region: Region)
    | RemoveAnnotations(removed: set<AnnotationId>)
    | AddAnnotations(added: set<AnnotationId>)
    | DeselectAnnotation(id: AnnotationId)

  /** Commands that move the camera, so that the map later reports a region change. */
  predicate MovesCamera(c: MapCommand)
  {
    c.SetUserTrackingMode? || c.SetRegion?
  }

  /**
   * The map widget, reduced to what the app reads and writes: the region it
   * shows, its tracking mode, the ids of the link annotations it displays,
   * and the commands it has received so far.
   */
  datatype MapView = MapView(
    region: Region,
    trackingMode: UserTrackingMode,
    displayed: set<AnnotationId>,
    log: seq<MapCommand>)

  /** The map obeys a command and records it. */
  function Send(m: MapView, c: MapCommand): MapView
  {
    var m' := m.(log := m.log + [c]);
    match c
    case SetUserTrackingMode(mode) => m'.(trackingMode := mode)
    case SetRegion(r) => m'.(region := r)
    case RemoveAnnotations(ids) => m'.(displayed := m.displayed - ids)
    case AddAnnotations(ids) => m'.(displayed := m.displayed + ids)
    case DeselectAnnotation(_) => m'
  }

  /**
   * Everything the adapter reads or writes: the five bindings into the
   * app's state, the coordinator's two flags, and the map widget.
   */
  datatype Screen = Screen(
    region: Region,
    followUser: bool,
    shouldResetTracking: bool,
    showRecenter: bool,
    selectedAnnotation: Option<MapLinkAnnotation>,
    isProgrammaticChange: bool,
    resetToken: bool,
    view: MapView)

  /** The later map has received every command the earlier one had, and maybe more. */
  predicate Extends(before: MapView, after: MapView)
  {
    |before.log| <= |after.log| && after.log[..|before.log|] == before.log
  }

  /** The commands sent between two states of the map. */
  function Issued(before: MapView, after: MapView): seq<MapCommand>
    requires |before.log| <= |after.log|
  {
    after.log[|before.log|..]
  }

  /** The ids of a list of annotations (a Swift `Set`, keyed by id). */
  function Ids(annotations: seq<MapLinkAnnotation>): set<AnnotationId>
  {
    set a | a in annotations :: a.id
  }

  /** Every annotation of `A` has an `==` partner in `B`: Swift's `A` is a subset of `B`. */
  predicate Covers(A: seq<MapLinkAnnotation>, B: seq<MapLinkAnnotation>)
  {
    forall a :: a in A ==> exists b :: b in B && Equal(a, b)
  }

  /** Set inclusion under id-only `==` is inclusion of the id sets. */
  lemma CoversIffSubset(A: seq<MapLinkAnnotation>, B: seq<MapLinkAnnotation>)
    ensures Covers(A, B) <==> Ids(A) <= Ids(B)
  {
    if Covers(A, B) {
      forall i | i in Ids(A) ensures i in Ids(B) {
        var a :| a in A && a.id == i;
        var b :| b in B && Equal(a, b);
      }
    }
    if Ids(A) <= Ids(B) {
      forall a | a in A ensures exists b :: b in B && Equal(a, b) {
        assert a.id in Ids(B);
        var b :| b in B && b.id == a.id;
        assert Equal(a, b);
      }
    }
  }

  /** Swift `Set(A) == Set(B)` holds exactly when the id sets agree. */
  lemma SameSetIffSameIds(A: seq<MapLinkAnnotation>, B: seq<MapLinkAnnotation>)
    ensures Covers(A, B) && Covers(B, A) <==> Ids(A) == Ids(B)
  {
    CoversIffSubset(A, B);
    CoversIffSubset(B, A);
  }

  /**
   * `A.subtracting(B)` keeps the annotations of `A` with no `==` partner in
   * `B`; their ids are exactly `Ids(A) - Ids(B)`.
   */
  lemma SubtractingIsIdDifference(A: seq<MapLinkAnnotation>, B: seq<MapLinkAnnotation>, a: MapLinkAnnotation)
    requires a in A
    ensures (forall b :: b in B ==> !Equal(a, b)) <==> a.id in Ids(A) - Ids(B)
  {
    if a.id in Ids(B) {
      var b :| b in B && b.id == a.id;
      assert Equal(a, b);
    }
  }

  /** What to remove from and what to add to `existing` to reach `desired`. */
  function Diff(existing: set<AnnotationId>, desired: set<AnnotationId>)
    : (d: (set<AnnotationId>, set<AnnotationId>))
    ensures d.0 <= existing && d.0 !! desired
    ensures d.1 <= desired && d.1 !! existing
    ensures (existing - d.0) + d.1 == desired
  {
    (existing - desired, desired - existing)
  }

  /** Any removal set and addition set with Diff's three properties are Diff's. */
  lemma DiffIsUnique(existing: set<AnnotationId>, desired: set<AnnotationId>,
                     toRemove: set<AnnotationId>, toAdd: set<AnnotationId>)
    requires toRemove <= existing && toRemove !! desired
    requires toAdd <= desired && toAdd !! existing
    requires (existing - toRemove) + toAdd == desired
    ensures (toRemove, toAdd) == Diff(existing, desired)
  {
    assert toRemove == existing - desired by {
      forall i | i in existing && i !in toRemove ensures i in desired {
        assert i in (existing - toRemove) + toAdd;
      }
    }
    assert toAdd == desired - existing;
  }

  /**
   * `ensureAnnotations`: bring the displayed link annotations in line with
   * the desired list, by id; send nothing when they already agree.
   */
  function EnsureAnnotations(s: Screen, annotations: seq<MapLinkAnnotation>): (t: Screen)
    ensures t.view.displayed == Ids(annotations)
    ensures t == s.(view := t.view)
    ensures t.view.region == s.view.region && t.view.trackingMode == s.view.trackingMode
    ensures s.view.displayed == Ids(annotations) ==> t == s
    ensures s.view.displayed != Ids(annotations) ==>
              t.view.log == s.view.log + [RemoveAnnotations(s.view.displayed - Ids(annotations)),
                                        AddAnnotations(Ids(annotations) - s.view.displayed)]
  {
    var existing, desired := s.view.displayed, Ids(annotations);
    if existing == desired then s
    else
      var d := Diff(existing, desired);
      s.(view := Send(Send(s.view, RemoveAnnotations(d.0)), AddAnnotations(d.1)))
  }

  /** Mark the next region change as the app's own, then send a camera command. */
  function SendProgrammatic(s: Screen, c: MapCommand): Screen
  {
    s.(isProgrammaticChange := true, view := Send(s.view, c))
  }

  /** The tracking mode that matches the follow-user flag. */
  function WantedMode(followUser: bool): UserTrackingMode
  {
    if followUser then FollowWithHeading else NoTracking
  }

  /** The map already shows what the app state asks for: `updateUIView` has nothing to do. */
  predicate InSync(s: Screen, annotations: seq<MapLinkAnnotation>)
  {
    && s.view.displayed == Ids(annotations)
    && s.resetToken == s.shouldResetTracking
    && s.view.trackingMode == WantedMode(s.followUser)
    && (s.followUser ==> !s.showRecenter && IsApproximatelyEqual(s.view.region, s.region))
  }

  /** While following, the recenter control is hidden. */
  function HideRecenterWhileFollowing(s: Screen): Screen
  {
    if s.followUser then s.(showRecenter := false) else s
  }

  /** A flipped reset token is copied and re-engages following with heading. */
  function ResetTracking(s: Screen): Screen
  {
    if s.resetToken != s.shouldResetTracking
    then SendProgrammatic(s.(resetToken := s.shouldResetTracking), SetUserTrackingMode(FollowWithHeading))
    else s
  }

  /** The map's tracking mode is set to the one the follow flag asks for, if it differs. */
  function MatchTrackingMode(s: Screen): Screen
  {
    if s.followUser && s.view.trackingMode != FollowWithHeading
    then SendProgrammatic(s, SetUserTrackingMode(FollowWithHeading))
    else if !s.followUser && s.view.trackingMode != NoTracking
    then SendProgrammatic(s, SetUserTrackingMode(NoTracking))
    else s
  }

  /** While following, the bound region is sent unless the map is already approximately there. */
  function MatchRegion(s: Screen): Screen
  {
    if s.followUser && !IsApproximatelyEqual(s.view.region, s.region)
    then SendProgrammatic(s, SetRegion(s.region))
    else s
  }

  /**
   * `updateUIView`: push the app state onto the map. Reconciles markers,
   * hides the recenter control while following, re-engages tracking when the
   * reset token flipped, then makes the tracking mode (and, while following,
   * the region) match the app state.
   */
  function UpdateUIView(s: Screen, annotations: seq<MapLinkAnnotation>): (t: Screen)
    ensures InSync(t, annotations)
    ensures t.view.trackingMode == (if s.followUser then FollowWithHeading else NoTracking)
    ensures t.resetToken == s.shouldResetTracking
    ensures t.region == s.region && t.followUser == s.followUser
    ensures t.shouldResetTracking == s.shouldResetTracking
    ensures t.selectedAnnotation == s.selectedAnnotation
    ensures t.showRecenter == (s.showRecenter && !s.followUser)
    ensures s.followUser ==> IsApproximatelyEqual(t.view.region, t.region)
    ensures !s.followUser ==> t.view.region == s.view.region
    ensures t.isProgrammaticChange ==
              (s.isProgrammaticChange || s.resetToken != s.shouldResetTracking
               || s.view.trackingMode != WantedMode(s.followUser)
               || (s.followUser && !IsApproximatelyEqual(s.view.region, s.region)))
    ensures t == s <==> InSync(s, annotations)
  {
    MatchRegion(MatchTrackingMode(ResetTracking(HideRecenterWhileFollowing(EnsureAnnotations(s, annotations)))))
  }

  /** A second `updateUIView` with nothing changed in between sends nothing and changes nothing. */
  lemma UpdateUIViewIdempotent(s: Screen, annotations: seq<MapLinkAnnotation>)
    ensures UpdateUIView(UpdateUIView(s, annotations), annotations) == UpdateUIView(s, annotations)
  {
  }

  /** Sending one command extends the log by exactly that command. */
  lemma SendAppends(m: MapView, c: MapCommand)
    ensures Extends(m, Send(m, c)) && Issued(m, Send(m, c)) == [c]
  {
  }

  /** Issued commands compose along a chain of map states. */
  lemma IssuedChain(a: MapView, b: MapView, c: MapView)
    requires Extends(a, b) && Extends(b, c)
    ensures Extends(a, c) && Issued(a, c) == Issued(a, b) + Issued(b, c)
  {
    assert c.log[..|a.log|] == c.log[..|b.log|][..|a.log|];
    assert c.log == b.log + Issued(b, c);
  }

  /**
   * Between two states the log only grew, and the programmatic mark is set
   * exactly when it was set before or a camera command was sent.
   */
  predicate MarksCamera(s: Screen, t: Screen)
  {
    && Extends(s.view, t.view)
    && t.isProgrammaticChange ==
         (s.isProgrammaticChange || exists c :: c in Issued(s.view, t.view) && MovesCamera(c))
  }

  lemma MarksCameraChain(a: Screen, b: Screen, c: Screen)
    requires MarksCamera(a, b) && MarksCamera(b, c)
    ensures MarksCamera(a, c) && Issued(a.view, c.view) == Issued(a.view, b.view) + Issued(b.view, c.view)
  {
    IssuedChain(a.view, b.view, c.view);
  }

  lemma SendProgrammaticMarks(s: Screen, c: MapCommand)
    requires MovesCamera(c)
    ensures MarksCamera(s, SendProgrammatic(s, c)) && Issued(s.view, SendProgrammatic(s, c).view) == [c]
  {
    SendAppends(s.view, c);
  }

  lemma EnsureAnnotationsMarks(s: Screen, annotations: seq<MapLinkAnnotation>)
    ensures MarksCamera(s, EnsureAnnotations(s, annotations))
    ensures forall c :: c in Issued(s.view, EnsureAnnotations(s, annotations).view) ==> !MovesCamera(c)
  {
  }

  lemma ResetTrackingMarks(s: Screen)
    ensures MarksCamera(s, ResetTracking(s))
    ensures var t := ResetTracking(s);
            t.region == s.region && t.view.region == s.view.region && t.followUser == s.followUser
    ensures forall c :: c in Issued(s.view, ResetTracking(s).view) ==> c.SetUserTrackingMode?
  {
    if s.resetToken != s.shouldResetTracking {
      SendProgrammaticMarks(s.(resetToken := s.shouldResetTracking), SetUserTrackingMode(FollowWithHeading));
    }
  }

  lemma MatchTrackingModeMarks(s: Screen)
    ensures MarksCamera(s, MatchTrackingMode(s))
    ensures var t := MatchTrackingMode(s);
            t.region == s.region && t.view.region == s.view.region && t.followUser == s.followUser
    ensures forall c :: c in Issued(s.view, MatchTrackingMode(s).view) ==> c.SetUserTrackingMode?
  {
    if MatchTrackingMode(s) != s {
      SendProgrammaticMarks(s, SetUserTrackingMode(WantedMode(s.followUser)));
    }
  }

  lemma MatchRegionMarks(s: Screen)
    ensures MarksCamera(s, MatchRegion(s))
    ensures Issued(s.view, MatchRegion(s).view) ==
              if s.followUser && !IsApproximatelyEqual(s.view.region, s.region) then [SetRegion(s.region)] else []
  {
    if MatchRegion(s) != s {
      SendProgrammaticMarks(s, SetRegion(s.region));
    }
  }

  /** The steps of `updateUIView` before the region step: they never move the region. */
  function PrepareCamera(s: Screen, annotations: seq<MapLinkAnnotation>): Screen
  {
    MatchTrackingMode(ResetTracking(HideRecenterWhileFollowing(EnsureAnnotations(s, annotations))))
  }

  /** No region command among the commands sent between two map states. */
  predicate SendsNoRegion(before: MapView, after: MapView)
  {
    Extends(before, after) && forall c :: c in Issued(before, after) ==> !c.SetRegion?
  }

  lemma SendsNoRegionChain(a: MapView, b: MapView, c: MapView)
    requires SendsNoRegion(a, b) && SendsNoRegion(b, c)
    ensures SendsNoRegion(a, c)
  {
    IssuedChain(a, b, c);
  }

  lemma {:induction false} PrepareCameraMarks(s: Screen, annotations: seq<MapLinkAnnotation>)
    ensures MarksCamera(s, PrepareCamera(s, annotations))
  {
    var s2 := HideRecenterWhileFollowing(EnsureAnnotations(s, annotations));
    EnsureAnnotationsMarks(s, annotations);
    assert MarksCamera(s, s2);
    var s3 := ResetTracking(s2);
    ResetTrackingMarks(s2);
    MarksCameraChain(s, s2, s3);
    MatchTrackingModeMarks(s3);
    MarksCameraChain(s, s3, MatchTrackingMode(s3));
  }

  lemma {:induction false} PrepareCameraSendsNoRegion(s: Screen, annotations: seq<MapLinkAnnotation>)
    ensures SendsNoRegion(s.view, PrepareCamera(s, annotations).view)
  {
    var s2 := HideRecenterWhileFollowing(EnsureAnnotations(s, annotations));
    EnsureAnnotationsMarks(s, annotations);
    assert SendsNoRegion(s.view, s2.view);
    var s3 := ResetTracking(s2);
    ResetTrackingMarks(s2);
    assert SendsNoRegion(s2.view, s3.view);
    SendsNoRegionChain(s.view, s2.view, s3.view);
    MatchTrackingModeMarks(s3);
    assert SendsNoRegion(s3.view, MatchTrackingMode(s3).view);
    SendsNoRegionChain(s.view, s3.view, MatchTrackingMode(s3).view);
  }

  lemma PrepareCameraKeepsRegion(s: Screen, annotations: seq<MapLinkAnnotation>)
    ensures var t := PrepareCamera(s, annotations);
            t.region == s.region && t.view.region == s.view.region && t.followUser == s.followUser
  {
    ResetTrackingMarks(HideRecenterWhileFollowing(EnsureAnnotations(s, annotations)));
    MatchTrackingModeMarks(ResetTracking(HideRecenterWhileFollowing(EnsureAnnotations(s, annotations))));
  }

  /**
   * Every camera command `updateUIView` sends comes with the programmatic
   * mark, and the mark is left as it was when none is sent; the bound region
   * is re-sent exactly when the app follows the user and the map is not
   * already approximately there, and no other region is ever sent.
   */
  lemma {:induction false} UpdateMarksCameraCommands(s: Screen, annotations: seq<MapLinkAnnotation>)
    ensures MarksCamera(s, UpdateUIView(s, annotations))
    ensures SetRegion(s.region) in Issued(s.view, UpdateUIView(s, annotations).view) <==>
              s.followUser && !IsApproximatelyEqual(s.view.region, s.region)
    ensures forall c :: c in Issued(s.view, UpdateUIView(s, annotations).view) && c.SetRegion? ==>
              c == SetRegion(s.region)
  {
    var s4 := PrepareCamera(s, annotations);
    PrepareCameraMarks(s, annotations);
    PrepareCameraSendsNoRegion(s, annotations);
    PrepareCameraKeepsRegion(s, annotations);
    MatchRegionMarks(s4);
    MarksCameraChain(s, s4, MatchRegion(s4));
    IssuedChain(s.view, s4.view, MatchRegion(s4).view);
  }

  /**
   * `regionWillChange`: a change the user drives with a gesture ends
   * following. Ignored while user interaction is off or while the app's own
   * change is pending.
   */
  function RegionWillChange(s: Screen, interactionEnabled: bool, gestureActive: bool): (t: Screen)
    ensures t == s.(followUser := t.followUser)
    ensures t.followUser == (s.followUser && !(interactionEnabled && !s.isProgrammaticChange && gestureActive))
  {
    if !interactionEnabled then s
    else if s.isProgrammaticChange then s
    else if gestureActive then s.(followUser := false)
    else s
  }

  /**
   * `regionDidChange`: the map settled on `reported`. The bound region takes
   * it in every case; a pending programmatic mark is consumed, otherwise the
   * move is the user's and, when not following, shows the recenter control.
   */
  function RegionDidChange(s: Screen, reported: Region): (t: Screen)
    ensures t.region == reported && t.view == s.view.(region := reported)
    ensures t.followUser == s.followUser && t.shouldResetTracking == s.shouldResetTracking
    ensures t.selectedAnnotation == s.selectedAnnotation && t.resetToken == s.resetToken
    ensures !t.isProgrammaticChange
    ensures t.showRecenter == (s.showRecenter || (!s.isProgrammaticChange && !s.followUser))
  {
    var s1 := s.(view := s.view.(region := reported));
    if s.isProgrammaticChange then s1.(isProgrammaticChange := false, region := reported)
    else
      var s2 := s1.(region := reported);
      if !s2.followUser then s2.(showRecenter := true) else s2
  }

  /**
   * MapKit itself drops follow-with-heading tracking when the user drags the
   * map. No delegate callback reports it and no command is sent: only the
   * map's tracking mode changes, which `updateUIView` re-reads on every render.
   */
  function TrackingDroppedByMap(s: Screen): (t: Screen)
    ensures t.view.trackingMode == NoTracking
    ensures t.view.log == s.view.log && t.view.region == s.view.region && t.view.displayed == s.view.displayed
    ensures t == s.(view := t.view)
  {
    s.(view := s.view.(trackingMode := NoTracking))
  }

  /**
   * `didSelect`: a tapped link annotation becomes the selection (which opens
   * the browser sheet) and is deselected on the map; a tap on anything else
   * (`None`: the user-location dot, a foreign annotation) changes nothing.
   */
  function DidSelect(s: Screen, tapped: Option<MapLinkAnnotation>): (t: Screen)
    ensures Extends(s.view, t.view)
    ensures tapped.None? ==> t == s
    ensures tapped.Some? ==>
              && t.selectedAnnotation == tapped
              && Issued(s.view, t.view) == [DeselectAnnotation(tapped.value.id)]
              && t == s.(selectedAnnotation := t.selectedAnnotation, view := t.view)
              && t.view == s.view.(log := t.view.log)
  {
    match tapped
    case None => s
    case Some(a) => s.(selectedAnnotation := Some(a), view := Send(s.view, DeselectAnnotation(a.id)))
  }

  /**
   * The map as `makeUIView` configures it: following with heading, showing
   * the bound region, with every annotation added.
   */
  function MakeUIView(region: Region, annotations: seq<MapLinkAnnotation>): (m: MapView)
    ensures m.trackingMode == FollowWithHeading && m.region == region && m.displayed == Ids(annotations)
  {
    var m0 := MapView(region, FollowWithHeading, {}, []);
    Send(Send(m0, SetRegion(region)), AddAnnotations(Ids(annotations)))
  }
}

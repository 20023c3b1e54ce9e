/**
 * The AR placement coordinator (`ARViewContainer.Coordinator`): which
 * landmarks are near enough to show, which of them still need an anchor,
 * where each anchor goes, and which landmark a tapped marker stands for.
 *
 * The AR scene is modelled by the sequence of anchors the coordinator has
 * added to it; an anchor carries the name its marker entity is given (the
 * landmark id), its position and the marker's colour, icon and label.
 */
module ARPlacement {
  import opened Wrappers
  import opened GeoMath
  import opened Landmarks

  /** The radius, in metres, of the neighbourhood searched on every location update. */
  const NearbyRadius: real := 2000.0

  /** Marker colour and icon for a landmark without a category. */
  const DefaultMarkerColor: string := "#3B82F6"
  const DefaultMarkerIcon: string := "📍"

  function LocationOf(landmark: Landmark): Location
  {
    Location(landmark.latitude, landmark.longitude)
  }

  /** The landmark is at most `radius` metres from the user (the bound is inclusive). */
  predicate IsNear(landmark: Landmark, user: Location, radius: real, num: Numerics)
  {
    num.distance(user, LocationOf(landmark)) <= radius
  }

  /** The set of ids of a sequence of landmarks. */
  function IdsOf(landmarks: seq<Landmark>): set<string>
  {
    set l | l in landmarks :: l.id
  }

  // ---------------------------------------------------------------------------
  // Proximity filter

  /** The landmarks within `radius` metres of `user`, in their original order. */
  function NearbyLandmarks(landmarks: seq<Landmark>, user: Location, radius: real, num: Numerics): (r: seq<Landmark>)
    ensures forall l :: l in r <==> l in landmarks && IsNear(l, user, radius, num)
    ensures |r| <= |landmarks|
  {
    if landmarks == [] then []
    else
      (if IsNear(landmarks[0], user, radius, num) then [landmarks[0]] else [])
      + NearbyLandmarks(landmarks[1..], user, radius, num)
  }

  /** The filter works element by element, so it keeps the input order. */
  lemma {:induction false} NearbyLandmarksDistributes(a: seq<Landmark>, b: seq<Landmark>, user: Location, radius: real, num: Numerics)
    ensures NearbyLandmarks(a + b, user, radius, num)
         == NearbyLandmarks(a, user, radius, num) + NearbyLandmarks(b, user, radius, num)
  {
    if a == [] {
      assert a + b == b;
    } else {
      assert (a + b)[1..] == a[1..] + b;
      NearbyLandmarksDistributes(a[1..], b, user, radius, num);
    }
  }

  /** A landmark that is near is kept; one that is not near is dropped. */
  lemma NearbyLandmarksSingleton(l: Landmark, user: Location, radius: real, num: Numerics)
    ensures NearbyLandmarks([l], user, radius, num) == if IsNear(l, user, radius, num) then [l] else []
  {
    assert [l][1..] == [];
  }

  // ---------------------------------------------------------------------------
  // Placement tracking

  /**
   * The landmarks of `nearby` that get an anchor when the ids in `placed`
   * already have one: each landmark whose id is neither in `placed` nor the
   * id of an earlier landmark of `nearby`, in order.
   */
  function NewPlacements(nearby: seq<Landmark>, placed: set<string>): (r: seq<Landmark>)
    ensures forall l :: l in r ==> l in nearby && l.id !in placed
    ensures forall i, j :: 0 <= i < j < |r| ==> r[i].id != r[j].id
    ensures IdsOf(r) == IdsOf(nearby) - placed
  {
    if nearby == [] then []
    else if nearby[0].id in placed then NewPlacements(nearby[1..], placed)
    else
      var rest := NewPlacements(nearby[1..], placed + {nearby[0].id});
      assert IdsOf(nearby) == {nearby[0].id} + IdsOf(nearby[1..]) by {
        assert nearby == [nearby[0]] + nearby[1..];
      }
      assert IdsOf([nearby[0]] + rest) == {nearby[0].id} + IdsOf(rest);
      [nearby[0]] + rest
  }

  /**
   * Repeating an update places nothing: once the ids of `nearby` are
   * recorded, the same neighbourhood yields no new placement.
   */
  lemma {:induction false} RepeatedUpdatePlacesNothing(nearby: seq<Landmark>, placed: set<string>)
    requires IdsOf(nearby) <= placed
    ensures NewPlacements(nearby, placed) == []
  {
    if nearby != [] {
      assert nearby[0] in nearby;
      assert IdsOf(nearby[1..]) <= IdsOf(nearby) by {
        forall id | id in IdsOf(nearby[1..]) ensures id in IdsOf(nearby) {
          var l :| l in nearby[1..] && l.id == id;
          assert l in nearby;
        }
      }
      RepeatedUpdatePlacesNothing(nearby[1..], placed);
    }
  }

  /** A landmark repeated within one neighbourhood is placed once: only its first occurrence counts. */
  lemma DuplicateInOneUpdatePlacedOnce(l: Landmark, placed: set<string>)
    requires l.id !in placed
    ensures NewPlacements([l, l], placed) == [l]
  {
    assert [l, l][1..] == [l];
    assert [l][1..] == [];
    assert NewPlacements([l], placed + {l.id}) == NewPlacements([], placed + {l.id});
  }

  /**
   * One step of `NewPlacements` at position `i` of the neighbourhood, for a
   * plan of which `done` is already carried out.
   */
  lemma NewPlacementsStep(nearby: seq<Landmark>, i: nat, placed: set<string>, done: seq<Landmark>, plan: seq<Landmark>)
    requires i < |nearby|
    requires plan == done + NewPlacements(nearby[i..], placed)
    ensures nearby[i].id in placed ==> plan == done + NewPlacements(nearby[i + 1..], placed)
    ensures nearby[i].id !in placed ==>
      plan == (done + [nearby[i]]) + NewPlacements(nearby[i + 1..], placed + {nearby[i].id})
  {
    assert nearby[i..][1..] == nearby[i + 1..];
    if nearby[i].id !in placed {
      var rest := NewPlacements(nearby[i + 1..], placed + {nearby[i].id});
      assert NewPlacements(nearby[i..], placed) == [nearby[i]] + rest;
      assert done + ([nearby[i]] + rest) == (done + [nearby[i]]) + rest;
    }
  }

  /** The ids of a prefix grow by one landmark at a time. */
  lemma IdsOfPrefixStep(nearby: seq<Landmark>, i: nat)
    requires i < |nearby|
    ensures IdsOf(nearby[..i + 1]) == IdsOf(nearby[..i]) + {nearby[i].id}
  {
    assert nearby[..i + 1] == nearby[..i] + [nearby[i]];
  }

  // ---------------------------------------------------------------------------
  // Where an anchor goes

  /** A marker: its entity name, its position in the local frame, and its look (the title is the text drawn under it). */
  datatype Anchor = Anchor(name: string, position: Vec3, color: string, icon: string, title: string)

  /**
   * The anchor for `landmark` seen from `user`: named by the landmark id,
   * at eye level, between 2 and 6 metres away horizontally, in the
   * landmark's bearing, coloured by its category or the default.
   */
  function PlacePOI(landmark: Landmark, user: Location, num: Numerics): (a: Anchor)
    ensures a.name == landmark.id && a.title == landmark.name
    ensures a.position.y == 0.0
    ensures num.Valid() ==>
      MinRadius * MinRadius <= a.position.x * a.position.x + a.position.z * a.position.z <= MaxRadius * MaxRadius
    ensures landmark.category.None? ==> a.color == DefaultMarkerColor && a.icon == DefaultMarkerIcon
    ensures landmark.category.Some? ==> a.color == landmark.category.value.color && a.icon == landmark.category.value.icon
  {
    var distance := num.distance(user, LocationOf(landmark));
    var bearing := CalculateBearing(user, LocationOf(landmark), num);
    var radius := ArRadius(distance);
    var position := LocalOffset(radius, bearing, num);
    assert num.Valid() ==> MinRadius * MinRadius <= radius * radius <= MaxRadius * MaxRadius by {
      if num.Valid() {
        ArRadiusSquaredBounded(distance);
      }
    }
    var color := if landmark.category.Some? then landmark.category.value.color else DefaultMarkerColor;
    var icon := if landmark.category.Some? then landmark.category.value.icon else DefaultMarkerIcon;
    Anchor(landmark.id, position, color, icon, landmark.name)
  }

  /**
   * Where exactly the marker goes: `ArRadius` of the real distance away
   * horizontally, in the direction of the bearing from the user to the
   * landmark.
   */
  lemma PlacePOIPosition(landmark: Landmark, user: Location, num: Numerics)
    requires num.Valid()
    ensures var p := PlacePOI(landmark, user, num).position;
      var radius := ArRadius(num.distance(user, LocationOf(landmark)));
      && p.x * p.x + p.z * p.z == radius * radius
      && OnBearingRay(p, radius, CalculateBearing(user, LocationOf(landmark), num), num)
  {
  }

  /** The squared horizontal distance of a marker lies between 4 and 36 square metres. */
  lemma ArRadiusSquaredBounded(distance: real)
    requires distance >= 0.0
    ensures MinRadius * MinRadius <= ArRadius(distance) * ArRadius(distance) <= MaxRadius * MaxRadius
  {
    ArRadiusBounded(distance);
    SquareBetween(MinRadius, ArRadius(distance), MaxRadius);
  }

  /** Squaring keeps the order of non-negative reals. */
  lemma SquareBetween(lo: real, x: real, hi: real)
    requires 0.0 <= lo <= x <= hi
    ensures lo * lo <= x * x <= hi * hi
  {
    assert lo * lo <= lo * x;
    assert lo * x <= x * x;
    assert x * x <= x * hi;
    assert x * hi <= hi * hi;
  }

  /** The anchors for a sequence of landmarks, in order. */
  function PlaceAll(landmarks: seq<Landmark>, user: Location, num: Numerics): (r: seq<Anchor>)
    ensures |r| == |landmarks|
  {
    seq(|landmarks|, i requires 0 <= i < |landmarks| => PlacePOI(landmarks[i], user, num))
  }

  /** The anchors placed for a sequence of landmarks are named by exactly the landmarks' ids. */
  lemma PlaceAllNames(landmarks: seq<Landmark>, user: Location, num: Numerics)
    ensures AnchorNames(PlaceAll(landmarks, user, num)) == IdsOf(landmarks)
  {
    var r := PlaceAll(landmarks, user, num);
    forall n | n in AnchorNames(r) ensures n in IdsOf(landmarks) {
      var k :| 0 <= k < |r| && r[k].name == n;
      assert landmarks[k] in landmarks;
    }
    forall n | n in IdsOf(landmarks) ensures n in AnchorNames(r) {
      var k :| 0 <= k < |landmarks| && landmarks[k].id == n;
      assert r[k] in r;
    }
  }

  /** The names of a sequence of anchors. */
  function AnchorNames(anchors: seq<Anchor>): set<string>
  {
    set a | a in anchors :: a.name
  }

  /** No two anchors carry the same name. */
  ghost predicate DistinctNames(anchors: seq<Anchor>)
  {
    forall i, j :: 0 <= i < j < |anchors| ==> anchors[i].name != anchors[j].name
  }

  /** Adding an anchor under a fresh name keeps the names distinct. */
  lemma AddAnchorKeepsNamesDistinct(anchors: seq<Anchor>, anchor: Anchor)
    requires DistinctNames(anchors) && anchor.name !in AnchorNames(anchors)
    ensures DistinctNames(anchors + [anchor])
    ensures AnchorNames(anchors + [anchor]) == AnchorNames(anchors) + {anchor.name}
  {
    assert forall k :: 0 <= k < |anchors| ==> anchors[k] in anchors;
  }

  /** Placing one more landmark appends its anchor. */
  lemma PlaceAllAppend(anchors0: seq<Anchor>, anchors: seq<Anchor>, done: seq<Landmark>, l: Landmark, user: Location, num: Numerics)
    requires anchors == anchors0 + PlaceAll(done, user, num)
    ensures anchors + [PlacePOI(l, user, num)] == anchors0 + PlaceAll(done + [l], user, num)
  {
    assert PlaceAll(done + [l], user, num) == PlaceAll(done, user, num) + [PlacePOI(l, user, num)];
  }

  // ---------------------------------------------------------------------------
  // Tap resolution

  /** The index of the first landmark whose id is `id`, if any. */
  function FirstIndexWithId(landmarks: seq<Landmark>, id: string): (r: Option<nat>)
    ensures r.Some? ==> r.value < |landmarks| && landmarks[r.value].id == id
    ensures r.Some? ==> forall j :: 0 <= j < r.value ==> landmarks[j].id != id
    ensures r.None? <==> forall j :: 0 <= j < |landmarks| ==> landmarks[j].id != id
  {
    if landmarks == [] then None
    else if landmarks[0].id == id then Some(0)
    else match FirstIndexWithId(landmarks[1..], id)
      case None => None
      case Some(k) => Some(k + 1)
  }

  // ---------------------------------------------------------------------------
  // The coordinator

  class Coordinator {
    /** Whether `makeUIView` has handed the coordinator its AR view. */
    var hasARView: bool
    var landmarks: seq<Landmark>
    var placedLandmarkIds: set<string>
    var currentLocation: Option<Location>
    /** The parent view's `selectedLandmark` binding. */
    var selectedLandmark: Option<Landmark>
    /** The anchors added to the AR scene, in the order they were added. */
    var anchors: seq<Anchor>

    /**
     * Every landmark id has at most one anchor in the scene, and the placed
     * set is exactly the set of ids that have one; nothing is placed before
     * there is an AR view.
     */
    ghost predicate Valid()
      reads this
    {
      && DistinctNames(anchors)
      && AnchorNames(anchors) == placedLandmarkIds
      && (!hasARView ==> anchors == [])
    }

    constructor ()
      ensures Valid()
      ensures !hasARView && landmarks == [] && placedLandmarkIds == {}
      ensures currentLocation == None && selectedLandmark == None && anchors == []
    {
      hasARView := false;
      landmarks := [];
      placedLandmarkIds := {};
      currentLocation := None;
      selectedLandmark := None;
      anchors := [];
    }

    /** `makeUIView`: the coordinator receives its AR view and the landmarks. */
    method MakeUIView(newLandmarks: seq<Landmark>)
      requires Valid() && !hasARView
      modifies this`hasARView, this`landmarks
      ensures Valid()
      ensures hasARView && landmarks == newLandmarks
    {
      hasARView := true;
      landmarks := newLandmarks;
    }

    /** `updateUIView`: the landmarks are replaced; what was placed stays placed. */
    method UpdateUIView(newLandmarks: seq<Landmark>)
      requires Valid()
      modifies this`landmarks
      ensures Valid()
      ensures landmarks == newLandmarks
      ensures placedLandmarkIds == old(placedLandmarkIds) && anchors == old(anchors)
    {
      landmarks := newLandmarks;
    }

    /** A location update: the last location of a non-empty batch becomes current, then the POIs are updated. */
    method DidUpdateLocations(locations: seq<Location>, num: Numerics)
      requires Valid()
      modifies this`currentLocation, this`placedLandmarkIds, this`anchors
      ensures Valid()
      ensures locations == [] ==> currentLocation == old(currentLocation)
      ensures locations == [] ==> placedLandmarkIds == old(placedLandmarkIds) && anchors == old(anchors)
      ensures locations != [] ==> currentLocation == Some(locations[|locations| - 1])
      ensures locations != [] && !hasARView ==> placedLandmarkIds == old(placedLandmarkIds) && anchors == old(anchors)
      ensures locations != [] && hasARView ==>
        var user := locations[|locations| - 1];
        var nearby := NearbyLandmarks(landmarks, user, NearbyRadius, num);
        && placedLandmarkIds == old(placedLandmarkIds) + IdsOf(nearby)
        && anchors == old(anchors) + PlaceAll(NewPlacements(nearby, old(placedLandmarkIds)), user, num)
    {
      if locations == [] {
        return;
      }
      currentLocation := Some(locations[|locations| - 1]);
      UpdatePOIs(num);
    }

    /**
     * Places an anchor for every nearby landmark whose id has none yet, and
     * records those ids; does nothing without an AR view or a location.
     */
    method UpdatePOIs(num: Numerics)
      requires Valid()
      modifies this`placedLandmarkIds, this`anchors
      ensures Valid()
      ensures !hasARView || currentLocation.None? ==>
        placedLandmarkIds == old(placedLandmarkIds) && anchors == old(anchors)
      ensures hasARView && currentLocation.Some? ==>
        var nearby := NearbyLandmarks(landmarks, currentLocation.value, NearbyRadius, num);
        && placedLandmarkIds == old(placedLandmarkIds) + IdsOf(nearby)
        && anchors == old(anchors) + PlaceAll(NewPlacements(nearby, old(placedLandmarkIds)), currentLocation.value, num)
    {
      if !hasARView || currentLocation.None? {
        return;
      }
      var userLocation := currentLocation.value;
      var nearby := NearbyLandmarks(landmarks, userLocation, NearbyRadius, num);
      PlaceAllNew(nearby, userLocation, num);
    }

    /**
     * The loop of `updatePOIs`: every landmark of `nearby` whose id has no
     * anchor yet gets one, in order, and its id is recorded.
     */
    method PlaceAllNew(nearby: seq<Landmark>, userLocation: Location, num: Numerics)
      requires Valid() && hasARView
      modifies this`placedLandmarkIds, this`anchors
      ensures Valid()
      ensures placedLandmarkIds == old(placedLandmarkIds) + IdsOf(nearby)
      ensures anchors == old(anchors) + PlaceAll(NewPlacements(nearby, old(placedLandmarkIds)), userLocation, num)
    {
      ghost var placed0 := placedLandmarkIds;
      ghost var anchors0 := anchors;
      ghost var done: seq<Landmark> := [];
      for i := 0 to |nearby|
        invariant placedLandmarkIds == placed0 + IdsOf(nearby[..i])
        invariant NewPlacements(nearby, placed0) == done + NewPlacements(nearby[i..], placedLandmarkIds)
        invariant anchors == anchors0 + PlaceAll(done, userLocation, num)
        invariant Valid()
      {
        var landmark := nearby[i];
        NewPlacementsStep(nearby, i, placedLandmarkIds, done, NewPlacements(nearby, placed0));
        IdsOfPrefixStep(nearby, i);
        if landmark.id !in placedLandmarkIds {
          PlaceAllAppend(anchors0, anchors, done, landmark, userLocation, num);
          PlaceLandmark(landmark, userLocation, num);
          done := done + [landmark];
        }
      }
      assert nearby[..|nearby|] == nearby;
    }

    /**
     * Adds the anchor for a landmark whose id has none yet and records the id.
     */
    method PlaceLandmark(landmark: Landmark, userLocation: Location, num: Numerics)
      requires Valid() && hasARView && landmark.id !in placedLandmarkIds
      modifies this`placedLandmarkIds, this`anchors
      ensures Valid()
      ensures anchors == old(anchors) + [PlacePOI(landmark, userLocation, num)]
      ensures placedLandmarkIds == old(placedLandmarkIds) + {landmark.id}
    {
      var anchor := PlacePOI(landmark, userLocation, num);
      AddAnchorKeepsNamesDistinct(anchors, anchor);
      anchors := anchors + [anchor];
      placedLandmarkIds := placedLandmarkIds + {landmark.id};
    }

    /**
     * A tap, given the names of the entities hit, nearest first: no hit
     * clears the selection; a hit whose name is a landmark id selects the
     * first landmark with that id; any other hit leaves the selection alone.
     */
    method HandleTap(hitNames: seq<string>)
      modifies this`selectedLandmark
      ensures hitNames == [] ==> selectedLandmark == None
      ensures hitNames != [] ==>
        match FirstIndexWithId(landmarks, hitNames[0])
        case Some(k) => selectedLandmark == Some(landmarks[k])
        case None => selectedLandmark == old(selectedLandmark)
    {
      if hitNames != [] {
        var entityName := hitNames[0];
        var found := FirstIndexWithId(landmarks, entityName);
        if found.Some? {
          selectedLandmark := Some(landmarks[found.value]);
        }
      } else {
        selectedLandmark := None;
      }
    }
  }
}

/**
 * The pure geometry of the AR placement coordinator: the compression curve
 * that maps a real-world distance to a radius in the AR scene, the local
 * offset of a marker from its radius and bearing, the initial great-circle
 * bearing, and the degree/radian conversions.
 *
 * Swift's `Float`/`Double` arithmetic is modelled over `real`. The foreign
 * numerics (CoreLocation's distance, the C library's sin, cos and atan2) are
 * uninterpreted: they are function-valued fields of `Numerics`.
 */
module GeoMath {

  /** `Double.pi`. */
  const Pi: real := 3.141592653589793

  /** Real-world distances (metres) at which the compression curve changes segment. */
  const NearLimit: real := 100.0
  const MidLimit: real := 500.0
  /** Beyond this distance every landmark is drawn at the maximum radius. */
  const FarLimit: real := 2000.0

  const MinRadius: real := 2.0
  const MaxRadius: real := 6.0

  /** A geographic coordinate in degrees. */
  datatype Location = Location(latitude: real, longitude: real)

  /** A position in the AR session's local frame, in metres. */
  datatype Vec3 = Vec3(x: real, y: real, z: real)

  /**
   * The foreign numerics the coordinator calls: `CLLocation.distance(from:)`
   * and the C library's `sin`, `cos` and `atan2`.
   */
  datatype Numerics = Numerics(
    distance: (Location, Location) -> real,
    sin: real -> real,
    cos: real -> real,
    atan2: (real, real) -> real)
  {
    /** The only facts about the foreign numerics the model relies on. */
    ghost predicate Valid()
    {
      && (forall a, b :: distance(a, b) >= 0.0)
      && (forall t :: sin(t) * sin(t) + cos(t) * cos(t) == 1.0)
    }
  }

  function DegreesToRadians(degrees: real): real
  {
    degrees * Pi / 180.0
  }

  function RadiansToDegrees(radians: real): real
  {
    radians * 180.0 / Pi
  }

  /** The two conversions are inverse to each other. */
  lemma DegreesRadiansRoundTrip(x: real)
    ensures RadiansToDegrees(DegreesToRadians(x)) == x
    ensures DegreesToRadians(RadiansToDegrees(x)) == x
  {
  }

  /** Degree-to-radian conversion is linear; half a turn is Pi. */
  lemma DegreesToRadiansLinear(a: real, b: real, k: real)
    ensures DegreesToRadians(a + b) == DegreesToRadians(a) + DegreesToRadians(b)
    ensures DegreesToRadians(k * a) == k * DegreesToRadians(a)
    ensures DegreesToRadians(180.0) == Pi
  {
  }

  function Min(a: real, b: real): real
  {
    if a <= b then a else b
  }

  /**
   * The AR radius at which a landmark `distance` metres away is drawn:
   * 2-3 m below 100 m, 3-4.5 m below 500 m, and 4.5-6 m beyond, clamped at
   * 6 m from 2000 m on.
   */
  function ArRadius(distance: real): (r: real)
    ensures 0.0 <= distance < NearLimit ==> MinRadius <= r < 3.0
    ensures NearLimit <= distance < MidLimit ==> 3.0 <= r < 4.5
    ensures MidLimit <= distance ==> 4.5 <= r <= MaxRadius
    ensures FarLimit <= distance <==> r == MaxRadius
  {
    if distance < NearLimit then
      2.0 + distance / 100.0 * 1.0
    else if distance < MidLimit then
      3.0 + (distance - 100.0) / 400.0 * 1.5
    else
      4.5 + Min((distance - 500.0) / 1500.0 * 1.5, 1.5)
  }

  /** For every non-negative distance the radius lies in [2, 6]. */
  lemma ArRadiusBounded(distance: real)
    requires distance >= 0.0
    ensures MinRadius <= ArRadius(distance) <= MaxRadius
  {
  }

  /** The curve meets itself at the segment boundaries: 3 m at 100 m, 4.5 m at 500 m. */
  lemma ArRadiusAtBoundaries()
    ensures ArRadius(NearLimit) == 3.0 && 2.0 + NearLimit / 100.0 * 1.0 == 3.0
    ensures ArRadius(MidLimit) == 4.5 && 3.0 + (MidLimit - 100.0) / 400.0 * 1.5 == 4.5
    ensures ArRadius(FarLimit) == MaxRadius
  {
  }

  /** A farther landmark is never drawn closer. */
  lemma ArRadiusMonotone(d1: real, d2: real)
    requires d1 <= d2
    ensures ArRadius(d1) <= ArRadius(d2)
  {
  }

  /**
   * The curve is continuous everywhere, in particular at 100 m and 500 m:
   * its value moves by at most one hundredth of the change in distance.
   */
  lemma ArRadiusLipschitz(d1: real, d2: real)
    requires d1 <= d2
    ensures 0.0 <= ArRadius(d2) - ArRadius(d1) <= (d2 - d1) / 100.0
  {
  }

  /**
   * The marker's offset from the viewer for an AR radius and a bearing
   * (radians clockwise from north): at eye level, `radius` metres away
   * horizontally, in the bearing's direction (north is -z).
   */
  function LocalOffset(radius: real, bearing: real, num: Numerics): (p: Vec3)
    ensures p.y == 0.0
    ensures num.Valid() ==> p.x * p.x + p.z * p.z == radius * radius
    ensures num.Valid() ==> OnBearingRay(p, radius, bearing, num)
  {
    var p := Vec3(radius * num.sin(bearing), 0.0, -radius * num.cos(bearing));
    assert num.Valid() ==> p.x * p.x + p.z * p.z == radius * radius && OnBearingRay(p, radius, bearing, num) by {
      if num.Valid() {
        var s, c := num.sin(bearing), num.cos(bearing);
        assert s * s + c * c == 1.0;
        calc {
          p.x * p.x + p.z * p.z;
          (radius * s) * (radius * s) + (radius * c) * (radius * c);
          radius * radius * (s * s + c * c);
          radius * radius;
        }
        calc {
          p.x * s - p.z * c;
          (radius * s) * s + (radius * c) * c;
          radius * (s * s + c * c);
          radius;
        }
        calc {
          p.x * c + p.z * s;
          (radius * s) * c - (radius * c) * s;
          0.0;
        }
      }
    }
    p
  }

  /**
   * `p` lies `radius` metres along the direction of `bearing` (clockwise from
   * north, north being -z): its component along (sin, -cos) is `radius`, and
   * its component across that direction is zero.
   */
  ghost predicate OnBearingRay(p: Vec3, radius: real, bearing: real, num: Numerics)
  {
    && p.x * num.sin(bearing) - p.z * num.cos(bearing) == radius
    && p.x * num.cos(bearing) + p.z * num.sin(bearing) == 0.0
  }

  /**
   * The initial great-circle bearing from `from` to `to`, as atan2 returns
   * it: the angle between north and the great circle, in (-Pi, Pi].
   */
  function CalculateBearing(from: Location, to: Location, num: Numerics): real
  {
    var lat1 := DegreesToRadians(from.latitude);
    var lon1 := DegreesToRadians(from.longitude);
    var lat2 := DegreesToRadians(to.latitude);
    var lon2 := DegreesToRadians(to.longitude);
    SphericalBearing(lat1, lat2, lon2 - lon1, num)
  }

  /** The spherical-trigonometry formula, on latitudes and a longitude difference in radians. */
  function SphericalBearing(lat1: real, lat2: real, dLon: real, num: Numerics): real
  {
    var y := num.sin(dLon) * num.cos(lat2);
    var x := num.cos(lat1) * num.sin(lat2) - num.sin(lat1) * num.cos(lat2) * num.cos(dLon);
    num.atan2(y, x)
  }

  /** The bearing sees the longitudes only through their difference. */
  lemma BearingIgnoresLongitudeShift(from: Location, to: Location, shift: real, num: Numerics)
    ensures CalculateBearing(Location(from.latitude, from.longitude + shift),
                             Location(to.latitude, to.longitude + shift), num)
         == CalculateBearing(from, to, num)
  {
    DegreesToRadiansLinear(from.longitude, shift, 1.0);
    DegreesToRadiansLinear(to.longitude, shift, 1.0);
  }
}

/** The point entity of Location.cpp: one position held in global cartesian, local cartesian and
    local spherical coordinates, with the operations that move it between frames. */
module Locations {
  import opened Numerics
  import opened Frames

  /** Radius, polar angle (from local +z) and azimuth (from local +x). */
  datatype Spherical = Spherical(rho: real, theta: real, phi: real)

  /** The selector of update_local_spherical: "r", "theta" or "phi". */
  datatype Coord = R | Theta | Phi

  function NormSquared(v: Vec3): real {
    v.x * v.x + v.y * v.y + v.z * v.z
  }

  lemma NormSquaredPositive(v: Vec3)
    requires v != Zero
    ensures NormSquared(v) > 0.0
  {
    var a, b, c := v.x * v.x, v.y * v.y, v.z * v.z;
    SquareSign(v.x, a);
    SquareSign(v.y, b);
    SquareSign(v.z, c);
    assert NormSquared(v) == a + b + c;
  }

  /** convert_to_spherical: rho = |v|, theta = acos(z / rho), and phi = atan2(y, x) shifted by
      2 pi and reduced with fmod into [0, 2 pi). The zero vector, which has no angles, is
      excluded. */
  function ToSpherical(m: MathLib, v: Vec3): (s: Spherical)
    requires SqrtSound(m) && v != Zero
    ensures s.rho > 0.0 && s.rho * s.rho == NormSquared(v)
    ensures Atan2Range(m) ==> 0.0 <= s.phi < 2.0 * PI
  {
    NormSquaredPositive(v);
    var rho := m.sqrt(NormSquared(v));
    SqrtPositive(m, NormSquared(v));
    var a := m.atan2(v.y, v.x);
    AzimuthRange(m, v.y, v.x);
    Spherical(rho, m.acos(v.z / rho), Fmod(a + 2.0 * PI, 2.0 * PI))
  }

  lemma AzimuthRange(m: MathLib, y: real, x: real)
    ensures Atan2Range(m) ==> 0.0 <= Fmod(m.atan2(y, x) + 2.0 * PI, 2.0 * PI) < 2.0 * PI
  {
    if Atan2Range(m) {
      NormalizedAngle(m.atan2(y, x));
    }
  }

  /** The local cartesian point update_local_spherical recomputes from (r, theta, phi). */
  function FromSpherical(m: MathLib, s: Spherical): Vec3 {
    Vec3(s.rho * m.sin(s.theta) * m.cos(s.phi), s.rho * m.sin(s.theta) * m.sin(s.phi), s.rho * m.cos(s.theta))
  }

  /** The law of the real sqrt, acos, atan2, sin and cos that rebuilding a non-zero point from
      its spherical coordinates gives the point back. */
  ghost predicate SphericalInverse(m: MathLib) {
    SqrtSound(m) && forall v: Vec3 :: v != Zero ==> FromSpherical(m, ToSpherical(m, v)) == v
  }

  /** `s` with the selected coordinate replaced by `value`. */
  function WithCoord(s: Spherical, c: Coord, value: real): Spherical {
    match c
    case R => s.(rho := value)
    case Theta => s.(theta := value)
    case Phi => s.(phi := value)
  }

  /** `s` and `t` agree on every coordinate but, possibly, `c`. */
  predicate SameExcept(s: Spherical, t: Spherical, c: Coord) {
    (c != R ==> s.rho == t.rho) && (c != Theta ==> s.theta == t.theta) && (c != Phi ==> s.phi == t.phi)
  }

  /** The selected coordinate of `s`. */
  function CoordOf(s: Spherical, c: Coord): real {
    match c
    case R => s.rho
    case Theta => s.theta
    case Phi => s.phi
  }

  /** Replacing a coordinate is exactly: the others are kept and the selected one reads `value`. */
  lemma WithCoordCharacterized(s: Spherical, t: Spherical, c: Coord, value: real)
    ensures t == WithCoord(s, c, value) <==> SameExcept(t, s, c) && CoordOf(t, c) == value
  {
  }

  class Location {
    var globalX: real
    var globalY: real
    var globalZ: real
    var localX: real
    var localY: real
    var localZ: real
    var localR: real
    var localTheta: real
    var localPhi: real

    function Global(): Vec3
      reads this
    {
      Vec3(globalX, globalY, globalZ)
    }

    function Local(): Vec3
      reads this
    {
      Vec3(localX, localY, localZ)
    }

    function LocalSpherical(): Spherical
      reads this
    {
      Spherical(localR, localTheta, localPhi)
    }

    /** A new point at global (x, y, z); before any rotation is known the local frame is the
        global one. */
    constructor (m: MathLib, x: real, y: real, z: real)
      requires SqrtSound(m) && Vec3(x, y, z) != Zero
      ensures Global() == Vec3(x, y, z) && Local() == Global()
      ensures LocalSpherical() == ToSpherical(m, Local())
    {
      globalX, globalY, globalZ := x, y, z;
      localX, localY, localZ := x, y, z;
      var s := ToSpherical(m, Vec3(x, y, z));
      localR, localTheta, localPhi := s.rho, s.theta, s.phi;
    }

    /** compute_local_coords: the local point is `rot` applied to the global point. */
    method ComputeLocalCoords(m: MathLib, rot: array2<real>)
      requires Is3x3(rot) && SqrtSound(m)
      requires Apply(Get(rot), Global()) != Zero
      modifies this
      ensures Local() == Apply(Get(rot), old(Global()))
      ensures Global() == old(Global())
      ensures LocalSpherical() == ToSpherical(m, Local())
    {
      localX, localY, localZ := globalX, globalY, globalZ;
      localX, localY, localZ := ApplyRotation(rot, localX, localY, localZ);
      var s := ToSpherical(m, Local());
      localR, localTheta, localPhi := s.rho, s.theta, s.phi;
    }

    /** rotate_local_coords: after the maneuvers the point lies on the local +z axis at its
        radius; the spherical coordinates are derived again from there. */
    method RotateLocalCoords(m: MathLib)
      requires SqrtSound(m) && localR != 0.0
      modifies this
      ensures Local() == Vec3(0.0, 0.0, old(localR))
      ensures LocalSpherical() == ToSpherical(m, Local())
      ensures Global() == old(Global())
      ensures old(localR) > 0.0 ==> localR == old(localR)
    {
      localX, localY, localZ := 0.0, 0.0, localR;
      var s := ToSpherical(m, Local());
      if localZ > 0.0 {
        SqrtUnique(m, NormSquared(Local()), localZ);
      }
      localR, localTheta, localPhi := s.rho, s.theta, s.phi;
    }

    /** compute_global_coords: the global point is `rotT` applied to the local point. */
    method ComputeGlobalCoords(rotT: array2<real>)
      requires Is3x3(rotT)
      modifies this
      ensures Global() == Apply(Get(rotT), old(Local()))
      ensures Local() == old(Local()) && LocalSpherical() == old(LocalSpherical())
    {
      globalX, globalY, globalZ := localX, localY, localZ;
      globalX, globalY, globalZ := ApplyRotation(rotT, globalX, globalY, globalZ);
    }

    /** update_local_spherical: the selected coordinate takes `value`, and the local cartesian
        point is recomputed from the three spherical coordinates. */
    method UpdateLocalSpherical(m: MathLib, coord: Coord, value: real)
      modifies this
      ensures LocalSpherical() == WithCoord(old(LocalSpherical()), coord, value)
      ensures Local() == FromSpherical(m, LocalSpherical())
      ensures Global() == old(Global())
    {
      match coord {
        case R => localR := value;
        case Theta => localTheta := value;
        case Phi => localPhi := value;
      }
      localX := localR * m.sin(localTheta) * m.cos(localPhi);
      localY := localR * m.sin(localTheta) * m.sin(localPhi);
      localZ := localR * m.cos(localTheta);
    }
  }

  /** Projecting a point into the local frame of an orthonormal `rot` and back with its
      transpose restores the global point. */
  method LocalGlobalRoundTrip(p: Location, m: MathLib, rot: array2<real>, rotT: array2<real>)
    requires Is3x3(rot) && Is3x3(rotT) && SqrtSound(m)
    requires Orthonormal(Get(rot)) && Get(rotT) == Transpose(Get(rot)) && p.Global() != Zero
    modifies p
    ensures p.Global() == old(p.Global())
  {
    OrthonormalNonZero(Get(rot), p.Global());
    p.ComputeLocalCoords(m, rot);
    p.ComputeGlobalCoords(rotT);
    OrthonormalInverse(Get(rot), old(p.Global()));
  }
}

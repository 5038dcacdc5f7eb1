/**
 * Volumes of space that test locations for containment: a sphere (strict
 * distance bound) and an axis-aligned box whose corners are normalised so that
 * the first is the componentwise minimum and the second the maximum.
 */
module Volumes {
  import opened Wrappers
  import opened JavaLang

  /** A world, compared by identity. */
  type WorldId = int

  /** A location: a world and real coordinates. */
  datatype Location = Location(world: WorldId, x: real, y: real, z: real)

  function Min(a: real, b: real): real { if a <= b then a else b }
  function Max(a: real, b: real): real { if a >= b then a else b }

  /**
   * A sphere keeps its own copy of the centre (locations are values here); a
   * box keeps its two normalised corners.
   */
  datatype Volume =
    | Sphere(centre: Location, radius: real)
    | Box(c1: Location, c2: Location)

  function DistanceSquared(a: Location, b: Location): (d: real)
    ensures d >= 0.0
  {
    (a.x - b.x) * (a.x - b.x) + (a.y - b.y) * (a.y - b.y) + (a.z - b.z) * (a.z - b.z)
  }

  /** The Box constructor: corners in different worlds raise IllegalArgumentException. */
  function MakeBox(corner1: Location, corner2: Location): (r: Result<Volume, Exception>)
    ensures r.Err? <==> corner1.world != corner2.world
    ensures r.Err? ==> r.error == IllegalArgument
    ensures r.Ok? ==> r.value.Box? && Normalised(r.value)
    ensures r.Ok? ==> r.value.c1.world == corner1.world && r.value.c2.world == corner2.world
  {
    if corner1.world != corner2.world then Err(IllegalArgument)
    else
      Ok(Box(Location(corner1.world, Min(corner1.x, corner2.x), Min(corner1.y, corner2.y), Min(corner1.z, corner2.z)),
             Location(corner2.world, Max(corner1.x, corner2.x), Max(corner1.y, corner2.y), Max(corner1.z, corner2.z))))
  }

  /** The box's first corner is below its second on every axis. */
  predicate Normalised(v: Volume)
    requires v.Box?
  {
    v.c1.x <= v.c2.x && v.c1.y <= v.c2.y && v.c1.z <= v.c2.z
  }

  /** The world a volume lies in. */
  function WorldOf(v: Volume): WorldId
  {
    match v
    case Sphere(centre, _) => centre.world
    case Box(c1, _) => c1.world
  }

  /** `contains(loc)` for either kind of volume. */
  predicate Contains(v: Volume, loc: Location): (b: bool)
    // Nothing in another world is contained.
    ensures b ==> loc.world == WorldOf(v)
    // A sphere of radius zero contains nothing.
    ensures v.Sphere? && v.radius == 0.0 ==> !b
  {
    match v
    case Sphere(centre, radius) =>
      loc.world == centre.world && DistanceSquared(loc, centre) < radius * radius
    case Box(c1, c2) =>
      loc.world == c1.world &&
      c1.x <= loc.x <= c2.x && c1.y <= loc.y <= c2.y && c1.z <= loc.z <= c2.z
  }

  function Between(a: real, b: real, t: real): bool { Min(a, b) <= t <= Max(a, b) }

  /** A box built from two corners contains exactly the points between them on every axis, in the corners' world. */
  lemma BoxContainsBetweenCorners(corner1: Location, corner2: Location, loc: Location)
    requires corner1.world == corner2.world
    ensures MakeBox(corner1, corner2).Ok?
    ensures Contains(MakeBox(corner1, corner2).value, loc) <==>
      loc.world == corner1.world &&
      Between(corner1.x, corner2.x, loc.x) && Between(corner1.y, corner2.y, loc.y) && Between(corner1.z, corner2.z, loc.z)
  {
  }

  /** Box containment does not depend on the order the corners are given in. */
  lemma BoxCornerOrderIrrelevant(corner1: Location, corner2: Location, loc: Location)
    requires corner1.world == corner2.world
    ensures MakeBox(corner1, corner2).Ok? && MakeBox(corner2, corner1).Ok?
    ensures Contains(MakeBox(corner1, corner2).value, loc) <==> Contains(MakeBox(corner2, corner1).value, loc)
  {
    BoxContainsBetweenCorners(corner1, corner2, loc);
    BoxContainsBetweenCorners(corner2, corner1, loc);
  }

  /** Only the square of the radius matters: a negative radius acts as its absolute value. */
  lemma SphereRadiusSign(centre: Location, radius: real, loc: Location)
    ensures Contains(Sphere(centre, radius), loc) == Contains(Sphere(centre, -radius), loc)
  {
    assert radius * radius == (-radius) * (-radius);
  }

  /** A larger sphere about the same centre contains everything a smaller one does. */
  lemma SphereGrows(centre: Location, r1: real, r2: real, loc: Location)
    requires 0.0 <= r1 <= r2
    requires Contains(Sphere(centre, r1), loc)
    ensures Contains(Sphere(centre, r2), loc)
  {
    assert r1 * r1 <= r1 * r2 <= r2 * r2;
  }

  /** The bound is strict: a point exactly one radius away along an axis is outside. */
  lemma SphereSurfaceOutside(centre: Location, radius: real)
    ensures !Contains(Sphere(centre, radius), Location(centre.world, centre.x + radius, centre.y, centre.z))
    ensures !Contains(Sphere(centre, radius), Location(centre.world, centre.x, centre.y - radius, centre.z))
  {
    var p := Location(centre.world, centre.x + radius, centre.y, centre.z);
    assert DistanceSquared(p, centre) == radius * radius;
    var q := Location(centre.world, centre.x, centre.y - radius, centre.z);
    assert DistanceSquared(q, centre) == (-radius) * (-radius) == radius * radius;
  }

  /** A box contains both its corners. */
  lemma BoxContainsCorners(corner1: Location, corner2: Location)
    requires corner1.world == corner2.world
    ensures MakeBox(corner1, corner2).Ok?
    ensures Contains(MakeBox(corner1, corner2).value, corner1) && Contains(MakeBox(corner1, corner2).value, corner2)
  {
  }
}

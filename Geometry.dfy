/**
 * Geometry derived from the parsed records: each arrow split into a cylindrical
 * shaft and a conical head, and the list of every vertex the records name.
 */
module Geometry {
  import opened Records

  /** A point or vector in space (a `QVector3D`, or the `(x, y, z)` tuples of `allVertices`). */
  datatype Point = Point(x: real, y: real, z: real)

  function Plus(p: Point, q: Point): Point { Point(p.x + q.x, p.y + q.y, p.z + q.z) }
  function Minus(p: Point, q: Point): Point { Point(p.x - q.x, p.y - q.y, p.z - q.z) }
  function Times(p: Point, k: real): Point { Point(p.x * k, p.y * k, p.z * k) }

  function Start(a: Arrow): Point { Point(a.x1, a.y1, a.z1) }
  function End(a: Arrow): Point { Point(a.x2, a.y2, a.z2) }

  /** The shaft: from the arrow's start, `rho` of the way towards its end, with radius `r1`. */
  function Shaft(a: Arrow): Cylinder {
    var p1 := Start(a);
    var p2 := Plus(p1, Times(Minus(End(a), p1), a.rho));
    Cylinder(a.color, p1.x, p1.y, p1.z, p2.x, p2.y, p2.z, a.r1)
  }

  /** The head: from `(1 - rho)` of the way back from the end, up to the end, with radius `r2`. */
  function Head(a: Arrow): Cone {
    var tip := End(a);
    var base := Plus(tip, Times(Minus(Start(a), tip), 1.0 - a.rho));
    Cone(a.color, base.x, base.y, base.z, tip.x, tip.y, tip.z, a.r2)
  }

  /** The shaft ends exactly where the head begins: no gap and no overlap. */
  lemma ShaftMeetsHead(a: Arrow)
    ensures var s, h := Shaft(a), Head(a);
            s.x2 == h.x1 && s.y2 == h.y1 && s.z2 == h.z1
  {
  }

  /** `cylindersFromArrows`: one shaft per arrow, in order. */
  function CylindersFromArrows(arrows: seq<Arrow>): (cs: seq<Cylinder>)
    ensures |cs| == |arrows|
    ensures forall i :: 0 <= i < |arrows| ==> cs[i] == Shaft(arrows[i])
  {
    if arrows == [] then [] else [Shaft(arrows[0])] + CylindersFromArrows(arrows[1..])
  }

  /** `conesFromArrows`: one head per arrow, in order. */
  function ConesFromArrows(arrows: seq<Arrow>): (cs: seq<Cone>)
    ensures |cs| == |arrows|
    ensures forall i :: 0 <= i < |arrows| ==> cs[i] == Head(arrows[i])
  {
    if arrows == [] then [] else [Head(arrows[0])] + ConesFromArrows(arrows[1..])
  }

  /**
   * The two generators decompose each arrow: the i-th shaft keeps the arrow's
   * colour, start and radius `r1`, the i-th head its colour, end and radius `r2`,
   * and the shaft's far end is the head's base.
   */
  lemma ArrowDecomposition(arrows: seq<Arrow>)
    ensures |CylindersFromArrows(arrows)| == |ConesFromArrows(arrows)| == |arrows|
    ensures forall i :: 0 <= i < |arrows| ==>
              var a, s, h := arrows[i], CylindersFromArrows(arrows)[i], ConesFromArrows(arrows)[i];
              && s.color == a.color && h.color == a.color
              && s.x1 == a.x1 && s.y1 == a.y1 && s.z1 == a.z1 && s.r == a.r1
              && h.x2 == a.x2 && h.y2 == a.y2 && h.z2 == a.z2 && h.r == a.r2
              && s.x2 == h.x1 && s.y2 == h.y1 && s.z2 == h.z1
  {
  }

  function Centre(s: Sphere): Point { Point(s.x, s.y, s.z) }
  function CylinderEnd1(c: Cylinder): Point { Point(c.x1, c.y1, c.z1) }
  function CylinderEnd2(c: Cylinder): Point { Point(c.x2, c.y2, c.z2) }

  function Centres(spheres: seq<Sphere>): (ps: seq<Point>)
    ensures |ps| == |spheres|
    ensures forall i :: 0 <= i < |spheres| ==> ps[i] == Centre(spheres[i])
  {
    if spheres == [] then [] else [Centre(spheres[0])] + Centres(spheres[1..])
  }

  function CylinderEnds(cylinders: seq<Cylinder>): (ps: seq<Point>)
    ensures |ps| == 2 * |cylinders|
    ensures forall i :: 0 <= i < |cylinders| ==> ps[2 * i] == CylinderEnd1(cylinders[i])
    ensures forall i :: 0 <= i < |cylinders| ==> ps[2 * i + 1] == CylinderEnd2(cylinders[i])
  {
    if cylinders == [] then []
    else
      var tail := cylinders[1..];
      var rest := CylinderEnds(tail);
      var ps := [CylinderEnd1(cylinders[0]), CylinderEnd2(cylinders[0])] + rest;
      assert forall i :: 1 <= i < |cylinders| ==> cylinders[i] == tail[i - 1];
      assert forall i :: 1 <= i < |cylinders| ==> ps[2 * i] == rest[2 * (i - 1)];
      assert forall i :: 1 <= i < |cylinders| ==> ps[2 * i + 1] == rest[2 * (i - 1) + 1];
      ps
  }

  function ArrowEnds(arrows: seq<Arrow>): (ps: seq<Point>)
    ensures |ps| == 2 * |arrows|
    ensures forall i :: 0 <= i < |arrows| ==> ps[2 * i] == Start(arrows[i])
    ensures forall i :: 0 <= i < |arrows| ==> ps[2 * i + 1] == End(arrows[i])
  {
    if arrows == [] then []
    else
      var tail := arrows[1..];
      var rest := ArrowEnds(tail);
      var ps := [Start(arrows[0]), End(arrows[0])] + rest;
      assert forall i :: 1 <= i < |arrows| ==> arrows[i] == tail[i - 1];
      assert forall i :: 1 <= i < |arrows| ==> ps[2 * i] == rest[2 * (i - 1)];
      assert forall i :: 1 <= i < |arrows| ==> ps[2 * i + 1] == rest[2 * (i - 1) + 1];
      ps
  }

  /**
   * `allVertices`: every sphere centre, then both ends of every cylinder, then
   * both ends of every arrow as read from the file (not of its shaft or head).
   */
  function AllVertices(spheres: seq<Sphere>, cylinders: seq<Cylinder>, arrows: seq<Arrow>): (ps: seq<Point>)
    ensures |ps| == |spheres| + 2 * |cylinders| + 2 * |arrows|
    ensures forall i :: 0 <= i < |spheres| ==> ps[i] == Centre(spheres[i])
    ensures forall i :: 0 <= i < |cylinders| ==>
              && ps[|spheres| + 2 * i] == CylinderEnd1(cylinders[i])
              && ps[|spheres| + 2 * i + 1] == CylinderEnd2(cylinders[i])
    ensures forall i :: 0 <= i < |arrows| ==>
              && ps[|spheres| + 2 * |cylinders| + 2 * i] == Start(arrows[i])
              && ps[|spheres| + 2 * |cylinders| + 2 * i + 1] == End(arrows[i])
  {
    Centres(spheres) + CylinderEnds(cylinders) + ArrowEnds(arrows)
  }
}

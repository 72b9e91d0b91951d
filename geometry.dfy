/**
 * Vertex coordinates and the axis-aligned box test that both revisions of the
 * range providers use. Coordinates are reals: the providers only compare them
 * and form center - scale and center + scale.
 */
module Geometry {

  /** A 3D vector, as mathutils.Vector with x, y and z. */
  datatype Vec3 = Vec3(x: real, y: real, z: real)

  /** Componentwise a + b. */
  function Plus(a: Vec3, b: Vec3): (r: Vec3)
    ensures r.x - a.x == b.x && r.y - a.y == b.y && r.z - a.z == b.z
  {
    Vec3(a.x + b.x, a.y + b.y, a.z + b.z)
  }

  /** Componentwise a - b. */
  function Minus(a: Vec3, b: Vec3): (r: Vec3)
    ensures r.x + b.x == a.x && r.y + b.y == a.y && r.z + b.z == a.z
  {
    Vec3(a.x - b.x, a.y - b.y, a.z - b.z)
  }

  /** The absolute value of a coordinate difference. */
  function Abs(v: real): (r: real)
    ensures r >= 0.0 && (r == v || r == -v)
  {
    if v < 0.0 then -v else v
  }

  /** The six comparisons of the range test: every face of the box counts as inside. */
  predicate InBox(co: Vec3, min: Vec3, max: Vec3)
  {
    co.x >= min.x && co.y >= min.y && co.z >= min.z &&
    co.x <= max.x && co.y <= max.y && co.z <= max.z
  }

  /** co lies within scale of center on every axis. */
  predicate WithinScale(co: Vec3, center: Vec3, scale: Vec3)
  {
    Abs(co.x - center.x) <= scale.x &&
    Abs(co.y - center.y) <= scale.y &&
    Abs(co.z - center.z) <= scale.z
  }

  /** A box given by center and scale is the box from center - scale to center + scale. */
  lemma CenterScaleBox(co: Vec3, center: Vec3, scale: Vec3)
    ensures InBox(co, Minus(center, scale), Plus(center, scale)) <==> WithinScale(co, center, scale)
  {
  }

  /** A box whose minimum exceeds its maximum on some axis contains no point. */
  lemma EmptyBox(co: Vec3, min: Vec3, max: Vec3)
    requires min.x > max.x || min.y > max.y || min.z > max.z
    ensures !InBox(co, min, max)
  {
  }

  /** The un-inverted range vector: entry i says whether position i is in the box. */
  function BoxMask(positions: seq<Vec3>, min: Vec3, max: Vec3): (r: seq<bool>)
    ensures |r| == |positions|
    ensures forall i :: 0 <= i < |r| ==> (r[i] <==>
      min.x <= positions[i].x <= max.x &&
      min.y <= positions[i].y <= max.y &&
      min.z <= positions[i].z <= max.z)
  {
    seq(|positions|, i requires 0 <= i < |positions| => InBox(positions[i], min, max))
  }

  /** With the minimum above the maximum on some axis, no entry of the box vector is set. */
  lemma BoxMaskOfEmptyBox(positions: seq<Vec3>, min: Vec3, max: Vec3)
    requires min.x > max.x || min.y > max.y || min.z > max.z
    ensures forall i :: 0 <= i < |positions| ==> !BoxMask(positions, min, max)[i]
  {
  }
}

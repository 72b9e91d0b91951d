/**
 * The edit-mode mesh as the core sees it: an ordered sequence of vertices,
 * each with a position the core only reads and a selection flag that the
 * write-back of selectVertices assigns.
 */
module Mesh {
  import opened Geometry

  /** A bmesh vertex: `co` is read by the range providers, `select` is written back. */
  class Vertex {
    const co: Vec3
    var select: bool

    constructor (co: Vec3, select: bool)
      ensures this.co == co && this.select == select
    {
      this.co := co;
      this.select := select;
    }
  }

  /** The vertices of a bmesh are distinct objects. */
  ghost predicate Distinct(verts: seq<Vertex>)
  {
    forall i, j :: 0 <= i < j < |verts| ==> verts[i] != verts[j]
  }

  /** The positions of the vertices, in vertex order. */
  function Positions(verts: seq<Vertex>): (r: seq<Vec3>)
    ensures |r| == |verts| && forall i :: 0 <= i < |verts| ==> r[i] == verts[i].co
  {
    seq(|verts|, i requires 0 <= i < |verts| => verts[i].co)
  }

  /** The selection state of the vertices, in vertex order. */
  ghost function Selection(verts: seq<Vertex>): (r: seq<bool>)
    reads set v | v in verts
    ensures |r| == |verts| && forall i :: 0 <= i < |verts| ==> r[i] == verts[i].select
  {
    seq(|verts|, i reads set v | v in verts requires 0 <= i < |verts| => verts[i].select)
  }

  /**
   * The selection after `for v, state in zip(verts, result): v.select = state`:
   * zip stops at the shorter sequence, so the first min(|flags|, |result|)
   * flags take the result and the others keep their value.
   */
  function Applied(flags: seq<bool>, result: seq<bool>): (r: seq<bool>)
    ensures |r| == |flags|
    ensures forall i :: 0 <= i < |flags| && i < |result| ==> r[i] == result[i]
    ensures forall i :: |result| <= i < |flags| ==> r[i] == flags[i]
  {
    if |result| >= |flags| then result[..|flags|] else result + flags[|result|..]
  }

  /** A result exactly as long as the mesh replaces the whole selection. */
  lemma AppliedFullLength(flags: seq<bool>, result: seq<bool>)
    requires |result| == |flags|
    ensures Applied(flags, result) == result
  {
  }

  /** Writing the same result back twice is the same as writing it once. */
  lemma AppliedIdempotent(flags: seq<bool>, result: seq<bool>)
    ensures Applied(Applied(flags, result), result) == Applied(flags, result)
  {
  }

  /** The write-back loop: vertex i takes result[i] while both sequences last. */
  method WriteBack(verts: seq<Vertex>, result: seq<bool>)
    requires Distinct(verts)
    modifies set v | v in verts
    ensures Selection(verts) == Applied(old(Selection(verts)), result)
  {
    var i := 0;
    while i < |verts| && i < |result|
      invariant 0 <= i <= |verts| && i <= |result|
      invariant forall j :: 0 <= j < i ==> verts[j].select == result[j]
      invariant forall j :: i <= j < |verts| ==> verts[j].select == old(verts[j].select)
    {
      verts[i].select := result[i];
      i := i + 1;
    }
  }
}

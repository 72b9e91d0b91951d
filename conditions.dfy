/**
 * The newer mask-derivation layer: three providers, each with an invert flag,
 * and the binder that collects their vectors into a map from condition name
 * to vector, the variables of the selection expression.
 */
module Conditions {
  import opened Geometry
  import opened BoolVectors
  import opened Mesh

  /**
   * The condition types: the binder knows "MASK" (a stored boolean attribute)
   * and "IN_RANGE"; "VERTEX_GROUP" and "DIRECTION" have no provider here and
   * are skipped.
   */
  datatype ConditionType = AttributeMask | InRange | VertexGroup | Direction

  /** How an IN_RANGE condition gives its box: "MIN_MAX", or anything else, read as center and scale. */
  datatype RangeType = MinMax | CenterScale

  /**
   * One configured condition. The core writes `outDated` (the mask provider),
   * `name` (the add operator) and `expanded` (the collapse operator); it only
   * reads the rest, so those are constants here.
   */
  class Condition {
    var name: string
    var expanded: bool
    var outDated: bool
    const kind: ConditionType
    const invert: bool
    const identifier: string
    const rangeType: RangeType
    const minVector: Vec3
    const maxVector: Vec3
    const centerVector: Vec3
    const scaleVector: Vec3

    /**
     * The element a collection's add() appends: the declared property defaults
     * for name, expanded, type, invert, range type and vectors; `identifier`
     * and `outDated` have no declared default and start as "" and false.
     */
    constructor Default()
      ensures name == "" && expanded && !outDated
      ensures kind == InRange && !invert && identifier == "" && rangeType == CenterScale
      ensures minVector == maxVector == centerVector == scaleVector == Vec3(0.0, 0.0, 0.0)
    {
      name, expanded, outDated := "", true, false;
      kind, invert, identifier, rangeType := InRange, false, "", CenterScale;
      minVector, maxVector := Vec3(0.0, 0.0, 0.0), Vec3(0.0, 0.0, 0.0);
      centerVector, scaleVector := Vec3(0.0, 0.0, 0.0), Vec3(0.0, 0.0, 0.0);
    }
  }

  /** Only MASK and IN_RANGE conditions are bound. */
  predicate Binds(kind: ConditionType)
  {
    kind == AttributeMask || kind == InRange
  }

  /** The object's data holds the attribute, and it has one entry per vertex. */
  predicate Fits(data: map<string, seq<bool>>, identifier: string, n: nat)
  {
    identifier in data && |data[identifier]| == n
  }

  /**
   * The vector of a MASK condition: the stored attribute when it fits the
   * mesh, all false otherwise; negated when inverted.
   */
  function MaskVector(data: map<string, seq<bool>>, identifier: string, n: nat, invert: bool): (r: seq<bool>)
    ensures |r| == n
    ensures Fits(data, identifier, n) ==> forall i :: 0 <= i < n ==> r[i] == (data[identifier][i] != invert)
    ensures !Fits(data, identifier, n) ==> r == Full(n, invert)
  {
    var stored := if Fits(data, identifier, n) then data[identifier] else Full(n, false);
    Inverted(stored, invert)
  }

  /** An inverted MASK vector is the negation of the plain one. */
  lemma MaskVectorInvert(data: map<string, seq<bool>>, identifier: string, n: nat)
    ensures MaskVector(data, identifier, n, true) == Not(MaskVector(data, identifier, n, false))
  {
  }

  /** The vector of an IN_RANGE condition given by its minimum and maximum corners. */
  function InRangeMask(positions: seq<Vec3>, min: Vec3, max: Vec3, invert: bool): (r: seq<bool>)
    ensures |r| == |positions|
    ensures forall i :: 0 <= i < |r| ==> r[i] == (InBox(positions[i], min, max) != invert)
  {
    Inverted(BoxMask(positions, min, max), invert)
  }

  /** An inverted range vector is the elementwise negation of the plain one. */
  lemma InRangeMaskInvert(positions: seq<Vec3>, min: Vec3, max: Vec3)
    ensures InRangeMask(positions, min, max, true) == Not(InRangeMask(positions, min, max, false))
  {
  }

  /**
   * Four vertices on the x axis at 0, 1, 2 and 3: the box from (0,0,0) to
   * (1.5,0,0) holds the first two, the box from (1,0,0) to (3,0,0) the last
   * three, the vertices on its faces included.
   */
  lemma RangeScenario()
    ensures var p := [Vec3(0.0, 0.0, 0.0), Vec3(1.0, 0.0, 0.0), Vec3(2.0, 0.0, 0.0), Vec3(3.0, 0.0, 0.0)];
      InRangeMask(p, Vec3(0.0, 0.0, 0.0), Vec3(1.5, 0.0, 0.0), false) == [true, true, false, false] &&
      InRangeMask(p, Vec3(1.0, 0.0, 0.0), Vec3(3.0, 0.0, 0.0), false) == [false, true, true, true]
  {
  }

  /** The mask provider: reads the stored attribute and records whether it is out of date. */
  method Mask(data: map<string, seq<bool>>, verts: seq<Vertex>, identifier: string, invert: bool, condition: Condition)
    returns (r: seq<bool>)
    modifies condition
    ensures r == MaskVector(data, identifier, |verts|, invert)
    ensures condition.outDated == !Fits(data, identifier, |verts|)
    ensures condition.name == old(condition.name) && condition.expanded == old(condition.expanded)
  {
    var mask: seq<bool>;
    if identifier in data && |data[identifier]| == |verts| {
      mask := data[identifier];
      condition.outDated := false;
    } else {
      mask := Full(|verts|, false);
      condition.outDated := true;
    }
    r := if invert then Not(mask) else mask;
  }

  /** The range provider: entry i is set when vertex i lies in the box from min to max, faces included. */
  method VerticesInRange(verts: seq<Vertex>, min: Vec3, max: Vec3, invert: bool) returns (r: seq<bool>)
    ensures r == InRangeMask(Positions(verts), min, max, invert)
  {
    var result := new bool[|verts|](_ => false);
    for i := 0 to |verts|
      invariant forall j :: 0 <= j < i ==> result[j] == InBox(verts[j].co, min, max)
      invariant forall j :: i <= j < |verts| ==> !result[j]
    {
      var co := verts[i].co;
      if co.x >= min.x && co.y >= min.y && co.z >= min.z && co.x <= max.x && co.y <= max.y && co.z <= max.z {
        result[i] := true;
      }
    }
    assert result[..] == BoxMask(Positions(verts), min, max);
    r := if invert then Not(result[..]) else result[..];
  }

  /** The range provider for a box given as center and scale. */
  method VerticesInRangeCenter(verts: seq<Vertex>, center: Vec3, scale: Vec3, invert: bool) returns (r: seq<bool>)
    ensures r == InRangeMask(Positions(verts), Minus(center, scale), Plus(center, scale), invert)
    ensures |r| == |verts|
    ensures forall i :: 0 <= i < |verts| ==> r[i] == (WithinScale(verts[i].co, center, scale) != invert)
  {
    r := VerticesInRange(verts, Minus(center, scale), Plus(center, scale), invert);
    forall i | 0 <= i < |verts|
      ensures r[i] == (WithinScale(verts[i].co, center, scale) != invert)
    {
      CenterScaleBox(verts[i].co, center, scale);
    }
  }

  /** The vector the binder computes for a condition it binds. */
  function ConditionVector(c: Condition, data: map<string, seq<bool>>, verts: seq<Vertex>): (r: seq<bool>)
    requires Binds(c.kind)
    ensures |r| == |verts|
  {
    if c.kind == AttributeMask then MaskVector(data, c.identifier, |verts|, c.invert)
    else if c.rangeType == MinMax then InRangeMask(Positions(verts), c.minVector, c.maxVector, c.invert)
    else InRangeMask(Positions(verts), Minus(c.centerVector, c.scaleVector), Plus(c.centerVector, c.scaleVector), c.invert)
  }

  /**
   * The variables the binder produces for the conditions in order: each
   * bound condition writes its vector under its name, so a later condition
   * overrides an earlier one of the same name.
   */
  ghost function Bound(conds: seq<Condition>, data: map<string, seq<bool>>, verts: seq<Vertex>): (r: map<string, seq<bool>>)
    reads set c | c in conds
    ensures forall k :: k in r ==> |r[k]| == |verts|
    ensures forall k :: k in r <==> exists i :: 0 <= i < |conds| && Binds(conds[i].kind) && conds[i].name == k
    decreases |conds|
  {
    if |conds| == 0 then map[]
    else
      var prev := Bound(conds[..|conds| - 1], data, verts);
      var c := conds[|conds| - 1];
      assert forall i :: 0 <= i < |conds| - 1 ==> conds[..|conds| - 1][i] == conds[i];
      if Binds(c.kind) then prev[c.name := ConditionVector(c, data, verts)] else prev
  }

  /** The name of a bound condition that no later bound condition reuses maps to that condition's vector. */
  lemma {:induction false} BoundLastWins(conds: seq<Condition>, data: map<string, seq<bool>>, verts: seq<Vertex>, i: nat)
    requires i < |conds| && Binds(conds[i].kind)
    requires forall j :: i < j < |conds| && Binds(conds[j].kind) ==> conds[j].name != conds[i].name
    ensures conds[i].name in Bound(conds, data, verts)
    ensures Bound(conds, data, verts)[conds[i].name] == ConditionVector(conds[i], data, verts)
    decreases |conds|
  {
    if i < |conds| - 1 {
      var prefix := conds[..|conds| - 1];
      BoundLastWins(prefix, data, verts, i);
    }
  }

  /** The binder: one provider call per MASK or IN_RANGE condition, in order. */
  method GetVariables(conditions: seq<Condition>, data: map<string, seq<bool>>, verts: seq<Vertex>)
    returns (variables: map<string, seq<bool>>)
    modifies set c | c in conditions
    ensures variables == old(Bound(conditions, data, verts))
    ensures forall c :: c in conditions ==> c.name == old(c.name) && c.expanded == old(c.expanded)
    ensures forall c :: c in conditions ==>
      c.outDated == if c.kind == AttributeMask then !Fits(data, c.identifier, |verts|) else old(c.outDated)
  {
    variables := map[];
    var i := 0;
    while i < |conditions|
      invariant 0 <= i <= |conditions|
      invariant variables == old(Bound(conditions[..i], data, verts))
      invariant forall c :: c in conditions ==> c.name == old(c.name) && c.expanded == old(c.expanded)
      invariant forall c :: c in conditions ==>
        c.outDated == if c.kind == AttributeMask && c in conditions[..i] then !Fits(data, c.identifier, |verts|) else old(c.outDated)
    {
      var condition := conditions[i];
      assert conditions[..i + 1][..i] == conditions[..i];
      if condition.kind == AttributeMask {
        var v := Mask(data, verts, condition.identifier, condition.invert, condition);
        variables := variables[condition.name := v];
      }
      if condition.kind == InRange {
        var v;
        if condition.rangeType == MinMax {
          v := VerticesInRange(verts, condition.minVector, condition.maxVector, condition.invert);
        } else {
          v := VerticesInRangeCenter(verts, condition.centerVector, condition.scaleVector, condition.invert);
        }
        variables := variables[condition.name := v];
      }
      i := i + 1;
    }
    assert conditions[..i] == conditions;
  }
}

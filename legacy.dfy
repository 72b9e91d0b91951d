/**
 * The older mask-derivation layer: a vertex-group provider and two box
 * providers, none with an invert flag, and the binder that collects them.
 * Looking up a vertex group that does not exist raises, and the exception
 * runs out of the binder and of selectVertices, so the binder here returns
 * a Result whose error is the missing group's name.
 */
module Legacy {
  import opened Results
  import opened Geometry
  import opened Mesh

  /** The mask types of this revision; DIRECTION has no provider and is never bound. */
  datatype MaskType = VertexGroup | InRange | Direction

  datatype RangeType = MinMax | CenterScale

  /** One configured selection mask, as the binder reads it. */
  datatype SelectionMask = SelectionMask(
    name: string,
    kind: MaskType,
    vertexGroupName: string,
    rangeType: RangeType,
    minVector: Vec3,
    maxVector: Vec3,
    centerVector: Vec3,
    scaleVector: Vec3)

  /** A vertex group: the weight of every vertex assigned to it. Any other index has no weight. */
  type Weights = map<int, real>

  /** vertexGroup.weight(i): the weight, or None where the host raises. */
  function Weight(group: Weights, i: int): (r: Option<real>)
    ensures r.Some? <==> i in group
  {
    if i in group then Some(group[i]) else None
  }

  /**
   * The vector of a VERTEX_GROUP mask over vertexCount vertices: entry i is
   * set exactly when the group has a weight for vertex i, whatever its value.
   * A group name the object does not have is an error.
   */
  function GroupMask(groups: map<string, Weights>, vertexCount: nat, name: string): (r: Result<seq<bool>, string>)
    ensures r.Ok? <==> name in groups
    ensures r.Err? ==> r.error == name
    ensures r.Ok? ==> |r.value| == vertexCount && forall i :: 0 <= i < vertexCount ==> (r.value[i] <==> i in groups[name])
  {
    if name in groups then Ok(seq(vertexCount, i => i in groups[name])) else Err(name)
  }

  /** A vertex whose assigned weight is zero is still a member. */
  lemma ZeroWeightIsMember(groups: map<string, Weights>, vertexCount: nat, name: string, i: nat)
    requires name in groups && i < vertexCount && i in groups[name] && groups[name][i] == 0.0
    ensures GroupMask(groups, vertexCount, name).Ok? && GroupMask(groups, vertexCount, name).value[i]
  {
  }

  /**
   * The vertex-group provider. vertexCount is len(object.data.vertices), the
   * vertex count of the mesh data block, which is where the group's weights live.
   */
  method InVertexGroup(groups: map<string, Weights>, vertexCount: nat, name: string)
    returns (r: Result<seq<bool>, string>)
    ensures r == GroupMask(groups, vertexCount, name)
  {
    if name !in groups {
      return Err(name);
    }
    var vertexGroup := groups[name];
    var weights := new bool[vertexCount](_ => false);
    for i := 0 to vertexCount
      invariant forall j :: 0 <= j < i ==> weights[j] == (j in vertexGroup)
      invariant forall j :: i <= j < vertexCount ==> !weights[j]
    {
      match Weight(vertexGroup, i)
      case Some(_) => weights[i] := true;
      case None =>
    }
    assert weights[..] == GroupMask(groups, vertexCount, name).value;
    r := Ok(weights[..]);
  }

  /** The box provider of this revision, without invert. */
  method VerticesInRangeMaxMin(verts: seq<Vertex>, min: Vec3, max: Vec3) returns (r: seq<bool>)
    ensures r == BoxMask(Positions(verts), min, max)
  {
    var result := new bool[|verts|](_ => false);
    for i := 0 to |verts|
      invariant forall j :: 0 <= j < i ==> result[j] == InBox(verts[j].co, min, max)
      invariant forall j :: i <= j < |verts| ==> !result[j]
    {
      var co := verts[i].co;
      if co.x >= min.x && co.y >= min.y && co.z >= min.z && co.x <= max.x && co.y <= max.y && co.z <= max.z {
        result[i] := true;
      }
    }
    r := result[..];
  }

  /** The box provider for a box given as center and scale. */
  method VerticesInRangeCenterScale(verts: seq<Vertex>, center: Vec3, scale: Vec3) returns (r: seq<bool>)
    ensures r == BoxMask(Positions(verts), Minus(center, scale), Plus(center, scale))
    ensures |r| == |verts|
    ensures forall i :: 0 <= i < |verts| ==> r[i] == WithinScale(verts[i].co, center, scale)
  {
    r := VerticesInRangeMaxMin(verts, Minus(center, scale), Plus(center, scale));
    forall i | 0 <= i < |verts|
      ensures r[i] == WithinScale(verts[i].co, center, scale)
    {
      CenterScaleBox(verts[i].co, center, scale);
    }
  }

  /** Only VERTEX_GROUP and IN_RANGE masks are bound. */
  predicate Binds(kind: MaskType)
  {
    kind == VertexGroup || kind == InRange
  }

  /** A VERTEX_GROUP mask naming a group the object does not have: binding it raises. */
  predicate Missing(m: SelectionMask, groups: map<string, Weights>)
  {
    m.kind == VertexGroup && m.vertexGroupName !in groups
  }

  /** The vector the binder computes for a mask it binds, or the missing group's name. */
  function SelectionMaskVector(m: SelectionMask, groups: map<string, Weights>, vertexCount: nat, verts: seq<Vertex>)
    : (r: Result<seq<bool>, string>)
    requires Binds(m.kind)
    ensures r.Err? <==> Missing(m, groups)
    ensures r.Err? ==> r.error == m.vertexGroupName
    ensures r.Ok? ==> |r.value| == if m.kind == VertexGroup then vertexCount else |verts|
  {
    if m.kind == VertexGroup then GroupMask(groups, vertexCount, m.vertexGroupName)
    else if m.rangeType == MinMax then Ok(BoxMask(Positions(verts), m.minVector, m.maxVector))
    else Ok(BoxMask(Positions(verts), Minus(m.centerVector, m.scaleVector), Plus(m.centerVector, m.scaleVector)))
  }

  /**
   * The binder's outcome for the masks in order: the first mask whose group
   * is missing stops it; otherwise each bound mask writes its vector under
   * its name, and a later mask overrides an earlier one of the same name.
   */
  function Bound(masks: seq<SelectionMask>, groups: map<string, Weights>, vertexCount: nat, verts: seq<Vertex>)
    : (r: Result<map<string, seq<bool>>, string>)
    ensures r.Err? <==> exists i :: 0 <= i < |masks| && Missing(masks[i], groups)
    ensures r.Err? ==> exists i :: 0 <= i < |masks| && Missing(masks[i], groups) && r.error == masks[i].vertexGroupName
                                   && forall j :: 0 <= j < i ==> !Missing(masks[j], groups)
    ensures r.Ok? ==> forall k :: k in r.value <==> exists i :: 0 <= i < |masks| && Binds(masks[i].kind) && masks[i].name == k
    ensures r.Ok? && vertexCount == |verts| ==> forall k :: k in r.value ==> |r.value[k]| == |verts|
    decreases |masks|
  {
    if |masks| == 0 then Ok(map[])
    else
      var prefix := masks[..|masks| - 1];
      var m := masks[|masks| - 1];
      assert forall i :: 0 <= i < |masks| - 1 ==> prefix[i] == masks[i];
      match Bound(prefix, groups, vertexCount, verts)
      case Err(e) => Err(e)
      case Ok(prev) =>
        if !Binds(m.kind) then Ok(prev)
        else match SelectionMaskVector(m, groups, vertexCount, verts)
          case Err(e) => Err(e)
          case Ok(v) => Ok(prev[m.name := v])
  }

  /** The name of a bound mask that no later bound mask reuses maps to that mask's vector. */
  lemma {:induction false} BoundLastWins(masks: seq<SelectionMask>, groups: map<string, Weights>, vertexCount: nat,
                                         verts: seq<Vertex>, i: nat)
    requires i < |masks| && Binds(masks[i].kind)
    requires forall j :: i < j < |masks| && Binds(masks[j].kind) ==> masks[j].name != masks[i].name
    requires Bound(masks, groups, vertexCount, verts).Ok?
    ensures SelectionMaskVector(masks[i], groups, vertexCount, verts).Ok?
    ensures masks[i].name in Bound(masks, groups, vertexCount, verts).value
    ensures Bound(masks, groups, vertexCount, verts).value[masks[i].name] == SelectionMaskVector(masks[i], groups, vertexCount, verts).value
    decreases |masks|
  {
    var prefix := masks[..|masks| - 1];
    assert forall j :: 0 <= j < |masks| - 1 ==> prefix[j] == masks[j];
    if i < |masks| - 1 {
      BoundLastWins(prefix, groups, vertexCount, verts, i);
    }
  }

  /** The binder: one provider call per VERTEX_GROUP or IN_RANGE mask, in order; a missing group raises. */
  method GetVariables(masks: seq<SelectionMask>, groups: map<string, Weights>, vertexCount: nat, verts: seq<Vertex>)
    returns (r: Result<map<string, seq<bool>>, string>)
    ensures r == Bound(masks, groups, vertexCount, verts)
  {
    var variables := map[];
    var i := 0;
    while i < |masks|
      invariant 0 <= i <= |masks|
      invariant Bound(masks[..i], groups, vertexCount, verts) == Ok(variables)
    {
      var mask := masks[i];
      assert masks[..i + 1][..i] == masks[..i];
      if mask.kind == VertexGroup {
        var v := InVertexGroup(groups, vertexCount, mask.vertexGroupName);
        if v.Err? {
          assert masks[..i + 1] == masks[..i] + [mask];
          BoundErrPersists(masks, groups, vertexCount, verts, i + 1);
          return Err(v.error);
        }
        variables := variables[mask.name := v.value];
      }
      if mask.kind == InRange {
        var v;
        if mask.rangeType == MinMax {
          v := VerticesInRangeMaxMin(verts, mask.minVector, mask.maxVector);
        } else {
          v := VerticesInRangeCenterScale(verts, mask.centerVector, mask.scaleVector);
        }
        variables := variables[mask.name := v];
      }
      i := i + 1;
    }
    assert masks[..i] == masks;
    return Ok(variables);
  }

  /** Once a prefix of the masks fails, the whole sequence fails with the same error. */
  lemma {:induction false} BoundErrPersists(masks: seq<SelectionMask>, groups: map<string, Weights>, vertexCount: nat,
                                            verts: seq<Vertex>, n: nat)
    requires n <= |masks| && Bound(masks[..n], groups, vertexCount, verts).Err?
    ensures Bound(masks, groups, vertexCount, verts) == Bound(masks[..n], groups, vertexCount, verts)
    decreases |masks| - n
  {
    if n < |masks| {
      assert masks[..n + 1][..n] == masks[..n];
      BoundErrPersists(masks, groups, vertexCount, verts, n + 1);
    } else {
      assert masks[..n] == masks;
    }
  }

  /**
   * selectVertices: bind, evaluate, write back. A missing group raises before
   * anything is written; evaluate is the expression evaluator, None where it
   * raises. raised reports either exception, which leaves the selection as it was.
   */
  method SelectVertices(masks: seq<SelectionMask>, groups: map<string, Weights>, vertexCount: nat, verts: seq<Vertex>,
                        expression: string, evaluate: (string, map<string, seq<bool>>) -> Option<seq<bool>>)
    returns (raised: bool)
    requires Distinct(verts)
    modifies set v | v in verts
    ensures var b := Bound(masks, groups, vertexCount, verts);
      raised == (b.Err? || evaluate(expression, b.value).None?)
    ensures Bound(masks, groups, vertexCount, verts).Err? ==> Selection(verts) == old(Selection(verts))
    ensures Bound(masks, groups, vertexCount, verts).Ok? ==>
      var result := evaluate(expression, Bound(masks, groups, vertexCount, verts).value);
      Selection(verts) == if result.Some? then Applied(old(Selection(verts)), result.value) else old(Selection(verts))
  {
    var variables := GetVariables(masks, groups, vertexCount, verts);
    if variables.Err? {
      return true;
    }
    var result := evaluate(expression, variables.value);
    raised := result.None?;
    if result.Some? {
      WriteBack(verts, result.value);
    }
  }
}

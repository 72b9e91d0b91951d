# Selection Logic: the mask-derivation layer

Selection Logic is a Blender add-on. It selects mesh vertices by combining named
boolean masks through a logical expression. This project models the layer that
produces the masks, plus the small operators around it:

- **Providers** turn the mesh into a boolean vector with one entry per vertex.
  The box test is inclusive, and the box is given either by min/max corners or
  by center ± scale. The vertex-group test is true exactly where the group has
  a weight. The stored-attribute mask falls back to all false when the
  attribute is missing or has the wrong length.
- **Binders** (`getVariables`) collect the vectors into a map from mask name to
  vector. This map is what the expression evaluator reads.
- **The write-back** copies the evaluator's result onto the vertices' select
  flags.
- **Operators** add, remove and collapse entries of the object's mask
  collection.

The code comes in two revisions, and both are modelled:

- `conditions.py` with `operators.py` is the newer revision. Every provider has
  an invert flag, and the MASK provider marks its condition out of date. It is
  modelled by the modules `Conditions` and `Operators`.
- `__init__.py` is the older revision. It has no invert flag, and a vertex-group
  lookup that raises. It is modelled by the module `Legacy`.

Both revisions share `Geometry` (vectors and the box test), `BoolVectors`
(numpy's `full` and `~`), `Mesh` (vertices, their selection state and the
write-back) and `Results` (Option and Result).

Modelling choices:

- A vertex is a class. Its position `co` is constant, and its `select` flag is
  a field that the write-back assigns.
- A newer-revision condition is a class. The core writes three of its fields:
  `outDated` (the MASK provider), `name` (add) and `expanded` (collapse). The
  core only reads the other fields, so they are constants.
- The object holding the collection is the class `Operators.SelectionObject`.
  Its `conditions` field is a sequence that add and remove reassign.
- Older-revision masks are only read by their binder, so they are datatype
  values.
- A vertex group is a `map<int, real>` from vertex index to weight. An absent
  key is the case where `vertexGroup.weight(i)` raises.
- The object's custom data is a `map<string, seq<bool>>`.
- The expression evaluator is not part of this model. It is a parameter
  `evaluate` that returns `None` where it raises.
- An exception inside `selectVertices` (a missing vertex group, or the
  evaluator raising) is reported by the out-parameter `raised` of the two
  `SelectVertices` methods. Nothing has been written to the mesh at that
  point, so the selection stays as it was.

The model follows the code as written in these places:

- The write-back uses `zip`, so it stops at the shorter of the mesh and the
  result. It neither rejects nor pads a result of another length (`Mesh.Applied`).
- In the older revision, a mask whose vertex group is missing does not give an
  all-false vector. The lookup `object.vertex_groups[name]` raises, and the
  whole binding fails (`Legacy.Bound` returns `Err`).
- The older providers have no invert flag. Only the newer binder marks
  conditions out of date, and only those of type MASK.
- The older vertex-group vector has `len(object.data.vertices)` entries, which
  is the mesh data block's count and not the edit mesh's. The model keeps that
  count as its own parameter, `vertexCount`.

## Model

| member | source | states |
|---|---|---|
| `Geometry.BoxMask` | conditions.py:31-36 | one entry per position; entry i is true iff min ≤ co ≤ max on all three axes, faces included |
| `Geometry.BoxMaskOfEmptyBox` | conditions.py:34-36 | if min > max on some axis, no entry of the un-inverted box vector is true |
| `Geometry.EmptyBox` | conditions.py:34-35 | no point lies in a box whose minimum exceeds its maximum on some axis |
| `Geometry.CenterScaleBox` | conditions.py:39-40 | a point is in the box from center − scale to center + scale iff it is within scale of center on every axis |
| `Geometry.Plus` | conditions.py:40 | componentwise sum of two vectors |
| `Geometry.Minus` | conditions.py:40 | componentwise difference of two vectors |
| `BoolVectors.Full` | conditions.py:26 | `numpy.full(n, b)`: n copies of b |
| `BoolVectors.Not` | conditions.py:37 | `~v`: same length, every entry negated |
| `BoolVectors.Inverted` | conditions.py:28 | the invert flag: entry i is `v[i] != invert` |
| `Mesh.Positions` | conditions.py:32-33 | the vertices' coordinates, in vertex order |
| `Mesh.Applied` | operators.py:12-13 | after the write-back, flag i is result[i] for i < min(len(verts), len(result)); every later flag keeps its value; the length is the vertex count |
| `Mesh.AppliedFullLength` | operators.py:12-13 | a result exactly as long as the mesh replaces the whole selection |
| `Mesh.AppliedIdempotent` | operators.py:12-13 | writing the same result back twice equals writing it once |
| `Mesh.WriteBack` | operators.py:12-13 | the loop leaves the selection equal to `Applied(old selection, result)`; positions are not touched |
| `Conditions.Condition.Default` | ui.py:19-35 | a new condition has the declared defaults: expanded, type IN_RANGE, not inverted, range type CENTER_SCALE, empty name, zero vectors; `identifier` "" and `outDated` false are the model's own starting values, since ui.py declares neither |
| `Conditions.MaskVector` | conditions.py:21-28 | length N in both branches; if the attribute exists and has N entries, the result is the stored vector (negated if invert); otherwise N copies of false (N copies of true if invert) |
| `Conditions.MaskVectorInvert` | conditions.py:28 | the inverted MASK vector is the elementwise negation of the plain one |
| `Conditions.Mask` | conditions.py:21-28 | returns `MaskVector`; sets `outDated` to false exactly when the attribute exists with N entries, and to true otherwise; name and expanded unchanged |
| `Conditions.InRangeMask` | conditions.py:30-37 | length N; entry i is `InBox(co_i, min, max) != invert` |
| `Conditions.InRangeMaskInvert` | conditions.py:37 | with invert the range vector is the elementwise negation of the one without |
| `Conditions.RangeScenario` | conditions.py:34-36 | vertices at x = 0, 1, 2, 3: box [0, 1.5] gives [T, T, F, F] and box [1, 3] gives [F, T, T, T], face points included |
| `Conditions.VerticesInRange` | conditions.py:30-37 | the preallocate-and-set loop returns exactly `InRangeMask` of the vertex positions |
| `Conditions.VerticesInRangeCenter` | conditions.py:39-40 | equals `VerticesInRange` on the box center − scale .. center + scale; so entry i is true iff vertex i is within scale of center on every axis (xor invert) |
| `Conditions.ConditionVector` | conditions.py:6-18 | the vector bound for a MASK or IN_RANGE condition has one entry per vertex |
| `Conditions.Bound` | conditions.py:3-19 | the names bound are exactly those of MASK and IN_RANGE conditions; every bound vector has length N |
| `Conditions.BoundLastWins` | conditions.py:5-18 | a name is bound to the vector of the last MASK or IN_RANGE condition that has it |
| `Conditions.GetVariables` | conditions.py:3-19 | the loop returns `Bound` of the conditions as they were; each MASK condition's `outDated` records whether its attribute fits; other conditions' flags, names and expanded flags unchanged |
| `Legacy.Weight` | __init__.py:142 | the weight lookup succeeds exactly for vertices assigned to the group |
| `Legacy.GroupMask` | __init__.py:137-144 | error iff the group name is missing; otherwise the vector has `len(object.data.vertices)` entries, and entry i is true iff the group has a weight for vertex i |
| `Legacy.ZeroWeightIsMember` | __init__.py:142 | a vertex with weight 0 is still a member |
| `Legacy.InVertexGroup` | __init__.py:137-144 | the try/except loop returns exactly `GroupMask` |
| `Legacy.VerticesInRangeMaxMin` | __init__.py:146-153 | the loop returns the inclusive box vector `BoxMask` of the vertex positions |
| `Legacy.VerticesInRangeCenterScale` | __init__.py:155-156 | equals `VerticesInRangeMaxMin` on center − scale .. center + scale; entry i is true iff vertex i is within scale of center on every axis |
| `Legacy.SelectionMaskVector` | __init__.py:161-169 | error exactly for a VERTEX_GROUP mask whose group is missing, with that name; vector length is the data vertex count for a group and N for a range |
| `Legacy.Bound` | __init__.py:158-170 | fails iff some VERTEX_GROUP mask names a missing group, with the first such group's name; on success the names bound are exactly those of VERTEX_GROUP and IN_RANGE masks (never DIRECTION), and with matching vertex counts every vector has length N |
| `Legacy.BoundLastWins` | __init__.py:160-169 | on success, a name is bound to the vector of the last VERTEX_GROUP or IN_RANGE mask that has it |
| `Legacy.BoundErrPersists` | __init__.py:138 | once a prefix of the masks raises, the whole binding raises with the same error |
| `Legacy.GetVariables` | __init__.py:158-170 | the loop returns exactly `Bound`, stopping at the first missing group |
| `Legacy.SelectVertices` | __init__.py:172-179 | reports a raise exactly when binding fails on a missing group or `evaluate` raises, and then the selection is unchanged; otherwise the selection is the result of `evaluate` written back with `Applied` |
| `Operators.Letter` | operators.py:21 | candidate j is a lower-case letter |
| `Operators.LetterIsAlphabet` | operators.py:21 | candidate j is the j-th character of "abcdefghijklmnopqrstuvwxyz", so the search tries the letters in alphabetical order |
| `Operators.Names` | operators.py:23 | the list of the masks' names, in order |
| `Operators.FirstFree` | operators.py:24-27 | the first letter index from k on whose name is unused, with every earlier one used; None iff all are used |
| `Operators.FirstFreeAt` | operators.py:24-27 | a free letter with all earlier letters taken is the one the search finds |
| `Operators.FreeLetter` | operators.py:24-27 | the `for ... break` search over the alphabet returns exactly `FirstFree(usedNames, 0)` |
| `Operators.FirstFreeIgnoresDefault` | operators.py:22-23 | the appended mask's default name "" (in usedNames because the list is built after `add()`) changes no letter's availability |
| `Operators.NewName` | operators.py:24-27 | the name the add operator gives: "" exactly when all 26 letters are taken, otherwise one lower-case letter that is not among the used names |
| `Operators.NewNameIsFresh` | operators.py:24-27 | when a letter is free, the new name is one lower-case letter and differs from every existing name |
| `Operators.NewNameWhenFull` | operators.py:24-27 | with all 26 letters taken, the name stays at its default "" |
| `Operators.RemoveAt` | operators.py:36 | one element fewer; the elements before the index are unchanged and those after move down by one, in order; the same multiset minus the removed element |
| `Operators.ToggleAt` | operators.py:46 | flips flag i and no other |
| `Operators.ToggleAtTwice` | operators.py:46 | toggling the same flag twice restores the flags |
| `Operators.SelectionObject.Add` | operators.py:20-28 | appends exactly one fresh mask and leaves the earlier ones unchanged; the new mask has the defaults of `Conditions.Condition.Default` (expanded, not out of date, IN_RANGE, not inverted, CENTER_SCALE, empty identifier, zero vectors), and its name is the first letter no mask uses (or "" if none is free); when a letter was free, it differs from every other name |
| `Operators.SelectionObject.Remove` | operators.py:35-37 | for an index in range, exactly that mask is removed and the others keep their order; any other index changes nothing and reports failure |
| `Operators.SelectionObject.Collapse` | operators.py:44-47 | for an index in range, the expanded flags become `ToggleAt(old, index)`; names and out-of-date flags are unchanged; any other index changes nothing |
| `Operators.SelectionObject.SelectVertices` | operators.py:7-14 | reports a raise exactly when `evaluate` raises, and then the selection is unchanged; otherwise the selection becomes `Applied(old selection, evaluate(expression, Bound(conditions)))`; MASK conditions' out-of-date flags are updated in both cases |

## Left out

- The expression parser and evaluator (`parse_expression`, `parser`) are not part of this model. `evaluate` is a parameter, and the model gives it no grammar or semantics.
- ui.py is left out: it only draws panels, declares properties and registers classes. Only the property defaults of an added condition (ui.py:19-35) appear, in `Conditions.Condition.Default`.
- ui.py and conditions.py do not match. ui.py offers the types IN_RANGE, VERTEX_GROUP and DIRECTION (ui.py:5-9), with no MASK type. Its property group (ui.py:19-42) declares neither `identifier` nor `outDated`, and conditions.py reads or writes both (conditions.py:6-7, 24, 27). The model's `ConditionType` has all four types. A new condition's `identifier` "" and `outDated` false are the model's own starting values, not declared defaults.
- The panel, drawing and registration code of `__init__.py` (lines 28-90 and 193-227) is left out, because it is UI and Blender glue. The same goes for `SelectByExpressionOperator` and `autoUpdate` (lines 181-191), which only call `selectVertices`.
- `VertexGroupFromSelection` (`__init__.py:125-135`, `operators.py:49-59`) is left out. It consists of host calls whose effects are not in the source.
- The DIRECTION type is declared but has no provider in the code. Both binders skip it, and the model computes no angles. The newer binder also skips VERTEX_GROUP conditions (conditions.py:6-10), and `Conditions.Bound` binds neither type.
- The bmesh plumbing, the `autoUpdate` trigger and the `auto_update` flag are left out: `bmesh.from_edit_mesh`, `bmesh.update_edit_mesh`. The mesh is a parameter `verts`, and the object's data and expression are parameters.
- The add, remove and collapse operators of `__init__.py` (lines 92-123) are left out as separate members. They are the same statements as `operators.py:16-47` and are modelled once, by `Operators.SelectionObject.Add`, `Remove` and `Collapse`, over the newer condition record.
- `Operators.SelectionObject.Add`: its clauses on the type, range type and invert flag hold only for the newer revision. In the older revision, `selection_masks.add()` at `__init__.py:98` appends a `SelectionMaskOptions` of `__init__.py:193-214`, whose defaults differ: type VERTEX_GROUP, range type MIN_MAX (the first item), and no invert property.
- `Operators.SelectionObject.Add` runs the letter search through `Operators.FreeLetter`, which returns the first free letter; `Add` then writes the name. The source writes the name inside the loop. `Add` also searches the names of the collection with the new element appended, and stores the element once it is named. The source appends first. The resulting state is the same.
- `Operators.SelectionObject.Remove` and `Operators.SelectionObject.Collapse` treat an index outside 0..n−1 as a failure that changes nothing. In the source, an index of n or more raises. For Collapse, a negative index would wrap around, because the collection is subscripted with `[-1]` elsewhere (operators.py:58, __init__.py:134); `selection_masks[self.index]` would then flip mask n+index. The source does not show what `selection_masks.remove(self.index)` (operators.py:36) does with a negative index. Negative indices are not modelled for either operator, because the panel passes only the `enumerate` indices 0..n−1 (ui.py:56-58, 80-85).
- conditions.py reads `object.selection_conditions` but operators.py reads `object.selection_masks`. The model treats both as the one collection `SelectionObject.conditions`.
- Coordinates are exact reals. The floating-point rounding of center ± scale, and of the comparisons, is not modelled.
- The stored attribute is modelled as a sequence of booleans. The conversion `numpy.array(..., dtype=bool)` from other element types is not modelled.
- `Mesh.WriteBack` requires the vertices to be distinct objects, as bmesh vertices are.

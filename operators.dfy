/**
 * The operators on an object's collection of conditions (add, remove,
 * collapse) and selectVertices, which binds the conditions, evaluates the
 * object's expression and writes the result back onto the mesh.
 */
module Operators {
  import opened Results
  import opened Geometry
  import opened Mesh
  import opened Conditions

  /** The add operator tries the names "a" to "z", in alphabetical order. */
  const LetterCount: nat := 26

  /** The j-th candidate letter: 'a' for 0, 'z' for 25. */
  function Letter(j: nat): (c: char)
    requires j < LetterCount
    ensures 'a' <= c <= 'z'
  {
    ('a' as int + j) as char
  }

  /** The candidates are the letters of "abcdefghijklmnopqrstuvwxyz", in that order. */
  lemma LetterIsAlphabet(j: nat)
    requires j < LetterCount
    ensures Letter(j) == "abcdefghijklmnopqrstuvwxyz"[j]
  {
  }

  /** The names of the conditions, in order (the list usedNames of the add operator). */
  function Names(conds: seq<Condition>): (r: seq<string>)
    reads set c | c in conds
    ensures |r| == |conds| && forall i :: 0 <= i < |conds| ==> r[i] == conds[i].name
  {
    seq(|conds|, i reads set c | c in conds requires 0 <= i < |conds| => conds[i].name)
  }

  /** The expanded flags of the conditions, in order. */
  ghost function ExpandedFlags(conds: seq<Condition>): (r: seq<bool>)
    reads set c | c in conds
    ensures |r| == |conds| && forall i :: 0 <= i < |conds| ==> r[i] == conds[i].expanded
  {
    seq(|conds|, i reads set c | c in conds requires 0 <= i < |conds| => conds[i].expanded)
  }

  /** The out-of-date flags of the conditions, in order. */
  ghost function OutDatedFlags(conds: seq<Condition>): (r: seq<bool>)
    reads set c | c in conds
    ensures |r| == |conds| && forall i :: 0 <= i < |conds| ==> r[i] == conds[i].outDated
  {
    seq(|conds|, i reads set c | c in conds requires 0 <= i < |conds| => conds[i].outDated)
  }

  /** The one-letter name of letter j is among used. */
  predicate Taken(used: seq<string>, j: nat)
    requires j < LetterCount
  {
    [Letter(j)] in used
  }

  /**
   * The index of the first letter, from position k on, whose one-letter name
   * is not among used; None when all of them are taken.
   */
  function FirstFree(used: seq<string>, k: nat): (r: Option<nat>)
    requires k <= LetterCount
    ensures r.Some? ==> k <= r.value < LetterCount && !Taken(used, r.value)
    ensures r.Some? ==> forall j :: k <= j < r.value ==> Taken(used, j)
    ensures r.None? ==> forall j :: k <= j < LetterCount ==> Taken(used, j)
    decreases LetterCount - k
  {
    if k == LetterCount then None
    else if !Taken(used, k) then Some(k)
    else FirstFree(used, k + 1)
  }

  /** The name the add operator gives a new condition: the first free letter, or the default "". */
  function NewName(used: seq<string>): (r: string)
    ensures r == "" <==> forall j :: 0 <= j < LetterCount ==> Taken(used, j)
    ensures r != "" ==> |r| == 1 && 'a' <= r[0] <= 'z' && r !in used
  {
    match FirstFree(used, 0)
    case Some(k) => [Letter(k)]
    case None => ""
  }

  /** The default name "" is not a letter, so having it among the used names frees no letter and takes none. */
  lemma {:induction false} FirstFreeIgnoresDefault(used: seq<string>, k: nat)
    requires k <= LetterCount
    ensures FirstFree(used + [""], k) == FirstFree(used, k)
    decreases LetterCount - k
  {
    if k < LetterCount {
      assert Taken(used + [""], k) <==> Taken(used, k) by {
        assert [Letter(k)] != "";
      }
      FirstFreeIgnoresDefault(used, k + 1);
    }
  }

  /**
   * The add operator's search: the first letter, in order, whose one-letter
   * name is not among usedNames, or None when all 26 are taken.
   */
  method FreeLetter(usedNames: seq<string>) returns (r: Option<nat>)
    ensures r == FirstFree(usedNames, 0)
  {
    r := None;
    var k := 0;
    while k < LetterCount
      invariant 0 <= k <= LetterCount
      invariant forall j :: 0 <= j < k ==> Taken(usedNames, j)
    {
      if !Taken(usedNames, k) {
        FirstFreeAt(usedNames, k);
        return Some(k);
      }
      k := k + 1;
    }
  }

  /** A free letter k with every earlier letter taken is the one FirstFree finds. */
  lemma FirstFreeAt(used: seq<string>, k: nat)
    requires k < LetterCount && !Taken(used, k)
    requires forall j :: 0 <= j < k ==> Taken(used, j)
    ensures FirstFree(used, 0) == Some(k)
  {
  }

  /** When a letter is free, the new name is a letter that no existing condition has. */
  lemma NewNameIsFresh(used: seq<string>)
    requires exists j :: 0 <= j < LetterCount && !Taken(used, j)
    ensures |NewName(used)| == 1 && 'a' <= NewName(used)[0] <= 'z'
    ensures forall i :: 0 <= i < |used| ==> used[i] != NewName(used)
  {
  }

  /** When all 26 letters are taken, the new condition keeps the default name. */
  lemma NewNameWhenFull(used: seq<string>)
    requires forall j :: 0 <= j < LetterCount ==> Taken(used, j)
    ensures NewName(used) == ""
  {
  }

  /** The sequence without its element at index i, the others in their order. */
  function RemoveAt<T>(s: seq<T>, i: nat): (r: seq<T>)
    requires i < |s|
    ensures |r| == |s| - 1
    ensures forall j :: 0 <= j < i ==> r[j] == s[j]
    ensures forall j :: i <= j < |r| ==> r[j] == s[j + 1]
    ensures multiset(r) + multiset{s[i]} == multiset(s)
  {
    assert s == s[..i] + [s[i]] + s[i + 1..];
    s[..i] + s[i + 1..]
  }

  /** The flags with the one at index i flipped. */
  function ToggleAt(flags: seq<bool>, i: nat): (r: seq<bool>)
    requires i < |flags|
    ensures |r| == |flags| && r[i] == !flags[i]
    ensures forall j :: 0 <= j < |flags| && j != i ==> r[j] == flags[j]
  {
    flags[i := !flags[i]]
  }

  /** Collapsing the same condition twice restores every flag. */
  lemma ToggleAtTwice(flags: seq<bool>, i: nat)
    requires i < |flags|
    ensures ToggleAt(ToggleAt(flags, i), i) == flags
  {
  }

  /** A Blender object with its collection of conditions. */
  class SelectionObject {
    var conditions: seq<Condition>

    /** The elements of a collection are distinct. */
    ghost predicate Valid()
      reads this
    {
      forall i, j :: 0 <= i < j < |conditions| ==> conditions[i] != conditions[j]
    }

    constructor ()
      ensures Valid() && conditions == []
    {
      conditions := [];
    }

    /**
     * The add operator: appends a default condition and names it with the
     * first letter that no condition uses.
     */
    method Add()
      requires Valid()
      modifies this
      ensures Valid()
      ensures |conditions| == |old(conditions)| + 1 && conditions[..|old(conditions)|] == old(conditions)
      ensures fresh(conditions[|old(conditions)|])
      ensures unchanged(old(conditions))
      ensures var c := conditions[|old(conditions)|];
        c.name == NewName(old(Names(conditions))) &&
        c.expanded && !c.outDated && c.kind == InRange && !c.invert && c.identifier == "" && c.rangeType == CenterScale &&
        c.minVector == c.maxVector == c.centerVector == c.scaleVector == Vec3(0.0, 0.0, 0.0)
      ensures (exists j :: 0 <= j < LetterCount && !Taken(old(Names(conditions)), j)) ==>
        forall i :: 0 <= i < |old(conditions)| ==> conditions[i].name != conditions[|old(conditions)|].name
    {
      ghost var oldNames := Names(conditions);
      var selectionMask := new Condition.Default();
      assert selectionMask !in conditions;
      // usedNames lists the names of the collection with the new element
      // appended; the element is stored in the collection once it is named.
      var usedNames := Names(conditions + [selectionMask]);
      var free := FreeLetter(usedNames);
      assert free == FirstFree(oldNames, 0) by {
        assert usedNames == oldNames + [""];
        FirstFreeIgnoresDefault(oldNames, 0);
      }
      if free.Some? {
        selectionMask.name := [Letter(free.value)];
      }
      assert selectionMask.name == NewName(oldNames);
      if exists j :: 0 <= j < LetterCount && !Taken(oldNames, j) {
        NewNameIsFresh(oldNames);
      }
      conditions := conditions + [selectionMask];
    }

    /** The remove operator: deletes the condition at index; an index out of range changes nothing. */
    method Remove(index: int) returns (ok: bool)
      requires Valid()
      modifies this
      ensures Valid()
      ensures ok == (0 <= index < |old(conditions)|)
      ensures conditions == if ok then RemoveAt(old(conditions), index) else old(conditions)
    {
      ok := 0 <= index < |conditions|;
      if ok {
        conditions := RemoveAt(conditions, index);
      }
    }

    /** The collapse operator: flips the expanded flag of the condition at index and of no other. */
    method Collapse(index: int) returns (ok: bool)
      requires Valid()
      modifies if 0 <= index < |conditions| then {conditions[index]} else {}
      ensures ok == (0 <= index < |conditions|)
      ensures ExpandedFlags(conditions) ==
        if ok then ToggleAt(old(ExpandedFlags(conditions)), index) else old(ExpandedFlags(conditions))
      ensures Names(conditions) == old(Names(conditions))
      ensures OutDatedFlags(conditions) == old(OutDatedFlags(conditions))
    {
      ok := 0 <= index < |conditions|;
      if ok {
        var mask := conditions[index];
        mask.expanded := if mask.expanded then false else true;
      }
    }

    /**
     * selectVertices: binds the conditions (marking MASK conditions out of
     * date or not), evaluates the expression, and writes the result back.
     * evaluate is the expression evaluator, None where it raises; raised
     * reports that exception, which leaves the selection as it was.
     */
    method SelectVertices(verts: seq<Vertex>, data: map<string, seq<bool>>, expression: string,
                          evaluate: (string, map<string, seq<bool>>) -> Option<seq<bool>>)
      returns (raised: bool)
      requires Distinct(verts)
      modifies set c | c in conditions, set v | v in verts
      ensures raised == evaluate(expression, old(Bound(conditions, data, verts))).None?
      ensures var result := evaluate(expression, old(Bound(conditions, data, verts)));
        Selection(verts) == if result.Some? then Applied(old(Selection(verts)), result.value) else old(Selection(verts))
      ensures Names(conditions) == old(Names(conditions))
      ensures ExpandedFlags(conditions) == old(ExpandedFlags(conditions))
      ensures forall c :: c in conditions ==>
        c.outDated == if c.kind == AttributeMask then !Fits(data, c.identifier, |verts|) else old(c.outDated)
    {
      var variables := GetVariables(conditions, data, verts);
      var result := evaluate(expression, variables);
      raised := result.None?;
      if result.Some? {
        WriteBack(verts, result.value);
      }
    }
  }
}

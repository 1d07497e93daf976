/**
 * The children list editor of the onboarding form: adding a child (up to a
 * maximum, ten by default), removing the child at an index, and changing one
 * field of the child at an index. Each handler builds a new list.
 */
module ChildrenInput {
  import opened Common

  datatype Child = Child(age: int, isCohabiting: bool)

  /** A field of `Child` and the value written to it. */
  datatype ChildChange = Age(age: int) | Cohabiting(isCohabiting: bool)

  const DefaultMaxChildren: int := 10
  const NewChild := Child(0, true)

  /** `handleAdd`: appends a child aged 0 living at home while the list is below the maximum. */
  function HandleAdd(children: seq<Child>, maxChildren: int): (r: seq<Child>)
    ensures |r| >= |children| && r[..|children|] == children
    ensures |children| < maxChildren ==> |r| == |children| + 1 && r[|children|] == NewChild
    ensures |children| >= maxChildren ==> r == children
  {
    if |children| < maxChildren then children + [NewChild] else children
  }

  /** `handleRemove(index)`: `children.filter((_, i) => i !== index)`, written as a walk with the index counting down. */
  function HandleRemove(children: seq<Child>, index: int): (r: seq<Child>)
    ensures 0 <= index < |children| ==> r == children[..index] + children[index + 1..]
    ensures !(0 <= index < |children|) ==> r == children
    decreases |children|
  {
    if |children| == 0 then []
    else
      var rest := HandleRemove(children[1..], index - 1);
      assert children == [children[0]] + children[1..];
      if index == 0 then rest else [children[0]] + rest
  }

  /** `{ ...child, [field]: value }`. */
  function Apply(c: Child, change: ChildChange): (r: Child)
    ensures change.Age? ==> r.age == change.age && r.isCohabiting == c.isCohabiting
    ensures change.Cohabiting? ==> r.isCohabiting == change.isCohabiting && r.age == c.age
  {
    match change
    case Age(a) => c.(age := a)
    case Cohabiting(b) => c.(isCohabiting := b)
  }

  /** `handleChange(index, field, value)`: `children.map((c, i) => i === index ? ... : c)`. */
  function HandleChange(children: seq<Child>, index: int, change: ChildChange): (r: seq<Child>)
    ensures |r| == |children|
    ensures forall i :: 0 <= i < |r| ==> r[i] == if i == index then Apply(children[i], change) else children[i]
    decreases |children|
  {
    if |children| == 0 then []
    else [if index == 0 then Apply(children[0], change) else children[0]] + HandleChange(children[1..], index - 1, change)
  }

  /** None of the handlers takes a list within the maximum beyond it. */
  lemma HandlersKeepBound(children: seq<Child>, maxChildren: int, index: int, change: ChildChange)
    requires |children| <= maxChildren
    ensures |HandleAdd(children, maxChildren)| <= maxChildren
    ensures |HandleRemove(children, index)| <= maxChildren
    ensures |HandleChange(children, index, change)| <= maxChildren
  {
  }

  /** Removing the child just added gives back the list. */
  lemma RemoveUndoesAdd(children: seq<Child>, maxChildren: int)
    requires |children| < maxChildren
    ensures HandleRemove(HandleAdd(children, maxChildren), |children|) == children
  {
    var added := HandleAdd(children, maxChildren);
    assert added[|children| + 1..] == [];
  }

  /** A change that leaves the child at the index as it is leaves the whole list as it is. */
  lemma ChangeToSameIsIdentity(children: seq<Child>, index: int, change: ChildChange)
    requires 0 <= index < |children| && Apply(children[index], change) == children[index]
    ensures HandleChange(children, index, change) == children
  {
    var r := HandleChange(children, index, change);
    assert forall i :: 0 <= i < |r| ==> r[i] == children[i];
  }
}

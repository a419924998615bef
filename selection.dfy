/**
 * The interest picker (src/components/InterestSelector.tsx): a list of
 * physics topics, each badge toggling its topic in or out of the selection.
 * The toggle is shared with the physicist picker.
 */
module Selection {
  import opened Common

  const PhysicsInterests: seq<string> := [
    "Mechanics", "Thermodynamics", "Electromagnetism", "Optics", "Quantum Physics",
    "Relativity", "Nuclear Physics", "Astrophysics", "Fluid Dynamics", "Acoustics",
    "Particle Physics", "String Theory", "Atomic Physics", "Condensed Matter", "Plasma Physics"
  ]

  /** `xs.filter(x => x !== item)`. */
  function Without<T(==)>(xs: seq<T>, item: T): (r: seq<T>)
    ensures forall i :: 0 <= i < |r| ==> r[i] != item && r[i] in xs
    ensures forall i :: 0 <= i < |xs| && xs[i] != item ==> multiset(r)[xs[i]] == multiset(xs)[xs[i]]
  {
    Filter(xs, x => x != item)
  }

  /**
   * `toggleInterest`: a selected item is removed, every copy of it; an
   * unselected one is appended at the end.
   */
  function Toggle<T(==)>(selection: seq<T>, item: T): (r: seq<T>)
    ensures item in r <==> item !in selection
    ensures forall i :: 0 <= i < |r| ==> r[i] == item || r[i] in selection
    ensures forall i :: 0 <= i < |selection| && selection[i] != item ==>
      multiset(r)[selection[i]] == multiset(selection)[selection[i]]
    ensures item !in selection ==> |r| == |selection| + 1 && r[..|selection|] == selection && r[|selection|] == item
  {
    if item in selection then Without(selection, item) else selection + [item]
  }

  /** Toggling an item never changes where the other items stand relative to each other. */
  lemma ToggleKeepsOthersInOrder<T>(selection: seq<T>, item: T)
    ensures Without(Toggle(selection, item), item) == Without(selection, item)
  {
    var ne := x => x != item;
    if item in selection {
      FilterIdempotent(selection, ne);
    } else {
      FilterAppend(selection, [item], ne);
      assert Filter([item], ne) == [];
    }
  }

  /** Toggling an unselected item twice gives back the same selection. */
  lemma ToggleTwiceRestores<T>(selection: seq<T>, item: T)
    requires item !in selection
    ensures Toggle(Toggle(selection, item), item) == selection
  {
    var ne := x => x != item;
    FilterAppend(selection, [item], ne);
    assert Filter([item], ne) == [];
    FilterKeepsAll(selection, ne);
  }

  /** Toggling a selected item twice moves it, once, to the end. */
  lemma ToggleTwiceMovesToEnd<T>(selection: seq<T>, item: T)
    requires item in selection
    ensures Toggle(Toggle(selection, item), item) == Without(selection, item) + [item]
  {
  }

  /** A selection built by toggling never holds an item twice. */
  lemma ToggleKeepsDistinct<T>(selection: seq<T>, item: T)
    requires Distinct(selection)
    ensures Distinct(Toggle(selection, item))
  {
    if item in selection {
      FilterDistinct(selection, x => x != item);
    }
  }

  /** The badge of a topic: `"default"` when selected, `"outline"` otherwise. */
  function BadgeVariant(selection: seq<string>, interest: string): string {
    if interest in selection then "default" else "outline"
  }

  /** A click flips the badge it was made on, and only that one. */
  lemma ToggleFlipsBadge(selection: seq<string>, interest: string, other: string)
    ensures BadgeVariant(Toggle(selection, interest), interest) != BadgeVariant(selection, interest)
    ensures other != interest ==> BadgeVariant(Toggle(selection, interest), other) == BadgeVariant(selection, other)
  {
    var r := Toggle(selection, interest);
    if other != interest && other in selection {
      var i :| 0 <= i < |selection| && selection[i] == other;
      assert multiset(r)[other] == multiset(selection)[other];
      assert other in multiset(selection);
    }
  }

  /** The fifteen topics offered, no two alike. */
  lemma InterestsAreDistinct()
    ensures |PhysicsInterests| == 15 && Distinct(PhysicsInterests)
  {
  }
}

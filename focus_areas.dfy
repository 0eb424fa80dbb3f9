/** The focus-area list both briefing forms keep: checking a box appends its value,
    unchecking removes every copy of it. */
module FocusAreas {
  import opened Wrappers
  import opened Sequences

  /** `areas.filter(area => area !== v)`. */
  function Without(areas: seq<string>, v: string): (r: seq<string>)
    ensures v !in r
    ensures forall x :: x != v ==> multiset(r)[x] == multiset(areas)[x]
    ensures IsSubsequence(r, areas)
    ensures v !in areas ==> r == areas
    decreases |areas|
  {
    if areas == [] then []
    else
      var rest := Without(areas[1..], v);
      assert areas == [areas[0]] + areas[1..];
      if areas[0] == v then rest else [areas[0]] + rest
  }

  /** The list after a check (`checked`) or an uncheck of `v`. */
  function Toggled(areas: seq<string>, checked: bool, v: string): (r: seq<string>)
    ensures checked ==> |r| == |areas| + 1 && r[..|areas|] == areas && r[|areas|] == v
    ensures !checked ==> v !in r && forall x :: x != v ==> multiset(r)[x] == multiset(areas)[x]
  {
    if checked then areas + [v] else Without(areas, v)
  }

  /** `areas.length > 0 ? areas : null` (or `undefined`): how the list leaves the form. */
  function AsOptional(areas: seq<string>): (r: Option<seq<string>>)
    ensures r.None? <==> areas == []
    ensures r.Some? ==> r.value == areas
  {
    if |areas| > 0 then Some(areas) else None
  }

  /** Checking never deduplicates: each check adds one more copy. */
  lemma CheckAddsCopy(areas: seq<string>, v: string)
    ensures multiset(Toggled(areas, true, v))[v] == multiset(areas)[v] + 1
  {
    assert Toggled(areas, true, v) == areas + [v];
  }

  /** Unchecking a value right after checking it gives what unchecking alone gives;
      when the value was absent before, the list is back to what it was. */
  lemma {:induction false} UncheckUndoesCheck(areas: seq<string>, v: string)
    ensures Without(areas + [v], v) == Without(areas, v)
    ensures v !in areas ==> Toggled(Toggled(areas, true, v), false, v) == areas
    decreases |areas|
  {
    if areas == [] {
      assert [] + [v] == [v];
      assert [v][1..] == [];
    } else {
      assert (areas + [v])[1..] == areas[1..] + [v];
      UncheckUndoesCheck(areas[1..], v);
    }
  }

  /** Unchecking twice is unchecking once. */
  lemma {:induction false} UncheckIdempotent(areas: seq<string>, v: string)
    ensures Without(Without(areas, v), v) == Without(areas, v)
  {
  }

  /** Unchecking shortens the list by exactly the number of copies of the value. */
  lemma {:induction false} WithoutCountsRemoved(areas: seq<string>, v: string)
    ensures |Without(areas, v)| == |areas| - multiset(areas)[v]
    decreases |areas|
  {
    if areas != [] {
      assert areas == [areas[0]] + areas[1..];
      WithoutCountsRemoved(areas[1..], v);
    }
  }
}

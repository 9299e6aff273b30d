/** The id-keyed list updates the section editors apply to their local copy of a
    section: replace the rows with a given id, and remove the rows with a given id.
    Ids are compared with `===`, which on the model's values is equality. */
module SectionLists {
  import opened Js

  /** `items.map(item => item.id === id ? replacement : item)`. */
  function ReplaceById<T>(items: seq<T>, idOf: T -> Val, id: Val, replacement: T): (r: seq<T>)
    ensures |r| == |items|
    ensures forall i :: 0 <= i < |items| && idOf(items[i]) == id ==> r[i] == replacement
    ensures forall i :: 0 <= i < |items| && idOf(items[i]) != id ==> r[i] == items[i]
    decreases |items|
  {
    if items == [] then []
    else
      var init := ReplaceById(items[..|items| - 1], idOf, id, replacement);
      var last := items[|items| - 1];
      init + [if idOf(last) == id then replacement else last]
  }

  /** `items.filter(item => item.id !== id)`. */
  function RemoveById<T>(items: seq<T>, idOf: T -> Val, id: Val): (r: seq<T>)
    ensures |r| <= |items|
    ensures forall i :: 0 <= i < |r| ==> r[i] in items && idOf(r[i]) != id
    ensures forall i :: 0 <= i < |items| && idOf(items[i]) != id ==> items[i] in r
    decreases |items|
  {
    if items == [] then []
    else
      var init := RemoveById(items[..|items| - 1], idOf, id);
      var last := items[|items| - 1];
      if idOf(last) != id then init + [last] else init
  }

  /** Removal works piecewise, so the kept rows stay in their original order. */
  lemma {:induction false} RemoveByIdAppend<T>(a: seq<T>, b: seq<T>, idOf: T -> Val, id: Val)
    ensures RemoveById(a + b, idOf, id) == RemoveById(a, idOf, id) + RemoveById(b, idOf, id)
    decreases |b|
  {
    if b == [] {
      assert a + b == a;
    } else {
      var init := b[..|b| - 1];
      RemoveByIdAppend(a, init, idOf, id);
      assert (a + b)[..|a + b| - 1] == a + init;
      assert (a + b)[|a + b| - 1] == b[|b| - 1];
    }
  }

  /** Rows without the id are all kept, in order. */
  lemma {:induction false} RemoveByIdAbsent<T>(items: seq<T>, idOf: T -> Val, id: Val)
    requires forall i :: 0 <= i < |items| ==> idOf(items[i]) != id
    ensures RemoveById(items, idOf, id) == items
    decreases |items|
  {
    if items != [] {
      RemoveByIdAbsent(items[..|items| - 1], idOf, id);
    }
  }

  /** Removing is exactly dropping the matching rows: one matching row in the middle of
      rows that do not match leaves the rows before and after it, joined. */
  lemma RemoveOne<T>(before: seq<T>, x: T, after: seq<T>, idOf: T -> Val)
    requires forall i :: 0 <= i < |before| ==> idOf(before[i]) != idOf(x)
    requires forall i :: 0 <= i < |after| ==> idOf(after[i]) != idOf(x)
    ensures RemoveById(before + [x] + after, idOf, idOf(x)) == before + after
  {
    RemoveByIdAppend(before + [x], after, idOf, idOf(x));
    RemoveByIdAppend(before, [x], idOf, idOf(x));
    RemoveByIdAbsent(before, idOf, idOf(x));
    RemoveByIdAbsent(after, idOf, idOf(x));
    assert [x][..0] == [];
  }
}

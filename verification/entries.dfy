/** The three list operations every section editor performs on its entries,
    written once over any entry type with an id: append, `map` that rewrites
    the entries whose id matches, and `filter` that drops them. */
module Entries {

  /** The ids of a list, in order. */
  function Ids<T>(xs: seq<T>, key: T -> string): (ids: seq<string>)
    ensures |ids| == |xs|
    ensures forall i :: 0 <= i < |xs| ==> ids[i] == key(xs[i])
  {
    seq(|xs|, i requires 0 <= i < |xs| => key(xs[i]))
  }

  /** No two entries share an id. */
  predicate DistinctIds<T>(xs: seq<T>, key: T -> string) {
    forall i, j :: 0 <= i < j < |xs| ==> key(xs[i]) != key(xs[j])
  }

  /** `xs.map(x => key(x) === id ? edit(x) : x)`. */
  function UpdateWhere<T>(xs: seq<T>, key: T -> string, id: string, edit: T -> T): (r: seq<T>)
    ensures |r| == |xs|
    ensures forall i :: 0 <= i < |xs| ==> r[i] == if key(xs[i]) == id then edit(xs[i]) else xs[i]
  {
    if xs == [] then []
    else [if key(xs[0]) == id then edit(xs[0]) else xs[0]] + UpdateWhere(xs[1..], key, id, edit)
  }

  /** `xs.filter(x => key(x) !== id)`. */
  function RemoveWhere<T>(xs: seq<T>, key: T -> string, id: string): (r: seq<T>)
    ensures |r| <= |xs|
    ensures forall i :: 0 <= i < |r| ==> r[i] in xs && key(r[i]) != id
    ensures forall i :: 0 <= i < |xs| && key(xs[i]) != id ==> xs[i] in r
  {
    if xs == [] then []
    else if key(xs[0]) == id then RemoveWhere(xs[1..], key, id)
    else [xs[0]] + RemoveWhere(xs[1..], key, id)
  }

  /** An update whose id matches nothing leaves the list as it was. */
  lemma UpdateAbsent<T>(xs: seq<T>, key: T -> string, id: string, edit: T -> T)
    requires id !in Ids(xs, key)
    ensures UpdateWhere(xs, key, id, edit) == xs
  {
    var r := UpdateWhere(xs, key, id, edit);
    forall i | 0 <= i < |xs| ensures r[i] == xs[i] {
      assert Ids(xs, key)[i] == key(xs[i]);
    }
  }

  /** An update that keeps ids keeps the id list, hence distinctness. */
  lemma UpdateKeepsIds<T>(xs: seq<T>, key: T -> string, id: string, edit: T -> T)
    requires forall x :: key(edit(x)) == key(x)
    ensures Ids(UpdateWhere(xs, key, id, edit), key) == Ids(xs, key)
    ensures DistinctIds(xs, key) ==> DistinctIds(UpdateWhere(xs, key, id, edit), key)
  {
    var r := UpdateWhere(xs, key, id, edit);
    assert forall i :: 0 <= i < |xs| ==> key(r[i]) == key(xs[i]);
  }

  /** Removal distributes over concatenation: the survivors keep their order. */
  lemma {:induction false} RemoveAppend<T>(xs: seq<T>, ys: seq<T>, key: T -> string, id: string)
    ensures RemoveWhere(xs + ys, key, id) == RemoveWhere(xs, key, id) + RemoveWhere(ys, key, id)
  {
    if xs == [] {
      assert xs + ys == ys;
    } else {
      assert (xs + ys)[0] == xs[0];
      assert (xs + ys)[1..] == xs[1..] + ys;
      RemoveAppend(xs[1..], ys, key, id);
    }
  }

  /** Distinctness depends on the ids alone. */
  lemma SameIdsDistinct<T>(xs: seq<T>, ys: seq<T>, key: T -> string)
    requires Ids(ys, key) == Ids(xs, key) && DistinctIds(xs, key)
    ensures DistinctIds(ys, key)
  {
    forall i, j | 0 <= i < j < |ys| ensures key(ys[i]) != key(ys[j]) {
      assert Ids(ys, key)[i] == key(xs[i]) && Ids(ys, key)[j] == key(xs[j]);
    }
  }

  /** After a removal no entry carries the id. */
  lemma RemoveDropsId<T>(xs: seq<T>, key: T -> string, id: string)
    ensures id !in Ids(RemoveWhere(xs, key, id), key)
  {
    var r := RemoveWhere(xs, key, id);
    forall i | 0 <= i < |r| ensures Ids(r, key)[i] != id {
      assert Ids(r, key)[i] == key(r[i]);
    }
  }

  /** Removing an id that no entry has leaves the list as it was. */
  lemma {:induction false} RemoveAbsent<T>(xs: seq<T>, key: T -> string, id: string)
    requires id !in Ids(xs, key)
    ensures RemoveWhere(xs, key, id) == xs
  {
    if xs != [] {
      assert key(xs[0]) == Ids(xs, key)[0];
      assert Ids(xs[1..], key) == Ids(xs, key)[1..];
      RemoveAbsent(xs[1..], key, id);
      assert xs == [xs[0]] + xs[1..];
    }
  }

  /** Removal drops exactly the entries that carry the id: the length falls by
      their number. */
  lemma {:induction false} RemoveCount<T>(xs: seq<T>, key: T -> string, id: string)
    ensures |RemoveWhere(xs, key, id)| == |xs| - multiset(Ids(xs, key))[id]
  {
    if xs != [] {
      RemoveCount(xs[1..], key, id);
      assert Ids(xs, key) == [key(xs[0])] + Ids(xs[1..], key);
    }
  }

  /** Appending an entry with a fresh id, then removing that id, restores the list. */
  lemma AddThenRemove<T>(xs: seq<T>, x: T, key: T -> string)
    requires key(x) !in Ids(xs, key)
    ensures RemoveWhere(xs + [x], key, key(x)) == xs
  {
    RemoveAppend(xs, [x], key, key(x));
    RemoveAbsent(xs, key, key(x));
    assert RemoveWhere([x], key, key(x)) == [];
  }

  /** Appending an entry with a fresh id keeps the ids distinct. */
  lemma AddKeepsDistinct<T>(xs: seq<T>, x: T, key: T -> string)
    requires DistinctIds(xs, key)
    requires key(x) !in Ids(xs, key)
    ensures DistinctIds(xs + [x], key)
  {
    forall i, j | 0 <= i < j < |xs + [x]| ensures key((xs + [x])[i]) != key((xs + [x])[j]) {
      if j == |xs| {
        assert Ids(xs, key)[i] == key(xs[i]);
      }
    }
  }

  /** Removal keeps the ids distinct. */
  lemma {:induction false} RemoveKeepsDistinct<T>(xs: seq<T>, key: T -> string, id: string)
    requires DistinctIds(xs, key)
    ensures DistinctIds(RemoveWhere(xs, key, id), key)
  {
    if xs != [] {
      RemoveKeepsDistinct(xs[1..], key, id);
      var rest := RemoveWhere(xs[1..], key, id);
      if key(xs[0]) != id {
        forall j | 0 <= j < |rest| ensures key(xs[0]) != key(rest[j]) {
          var k :| 0 <= k < |xs[1..]| && xs[1..][k] == rest[j];
          assert xs[k + 1] == rest[j];
        }
      }
    }
  }
}

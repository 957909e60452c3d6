// Small types and predicates shared by the whole model.
module Prelude {
  datatype Option<+T> = None | Some(value: T)

  datatype Result<+T, +E> = Ok(value: T) | Err(error: E)

  predicate Distinct<T(==)>(s: seq<T>) { forall i, j :: 0 <= i < j < |s| ==> s[i] != s[j] }

  function Sum<T>(items: seq<T>, f: T -> int): int {
    if items == [] then 0 else f(items[0]) + Sum(items[1..], f)
  }

  lemma {:induction false} SumSnoc<T>(items: seq<T>, last: T, f: T -> int)
    ensures Sum(items + [last], f) == Sum(items, f) + f(last)
  {
    if items == [] {
      assert items + [last] == [last] && [last][1..] == [];
    } else {
      assert (items + [last])[1..] == items[1..] + [last];
      SumSnoc(items[1..], last, f);
    }
  }

  lemma SumOfOne<T>(item: T, f: T -> int)
    ensures Sum([item], f) == f(item)
  {
    assert [item][1..] == [];
  }
}

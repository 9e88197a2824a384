/** Filtering a list in place order, as the repository's cleanup loops do. */
module Filters {

  function Filter<T>(items: seq<T>, keep: T -> bool): (r: seq<T>) {
    if items == [] then []
    else
      var rest := Filter(items[..|items| - 1], keep);
      if keep(items[|items| - 1]) then rest + [items[|items| - 1]] else rest
  }

  lemma FilterMore<T>(items: seq<T>, x: T, keep: T -> bool)
    ensures Filter(items + [x], keep) == if keep(x) then Filter(items, keep) + [x] else Filter(items, keep)
  {
    assert (items + [x])[..|items|] == items;
  }

  lemma {:induction false} FilterMember<T>(items: seq<T>, keep: T -> bool, x: T)
    ensures x in Filter(items, keep) <==> x in items && keep(x)
    decreases |items|
  {
    if items != [] {
      FilterMember(items[..|items| - 1], keep, x);
      assert items == items[..|items| - 1] + [items[|items| - 1]];
    }
  }

  /** Filtering twice keeps what both keep. */
  lemma {:induction false} FilterTwice<T>(items: seq<T>, first: T -> bool, second: T -> bool, both: T -> bool)
    requires forall x <- items :: both(x) <==> first(x) && second(x)
    ensures Filter(Filter(items, first), second) == Filter(items, both)
    decreases |items|
  {
    if items != [] {
      var init, last := items[..|items| - 1], items[|items| - 1];
      FilterTwice(init, first, second, both);
      FilterMore(Filter(init, first), last, second);
    }
  }

  lemma {:induction false} FilterSame<T>(items: seq<T>, keep: T -> bool, also: T -> bool)
    requires forall x <- items :: keep(x) <==> also(x)
    ensures Filter(items, keep) == Filter(items, also)
    decreases |items|
  {
    if items != [] {
      FilterSame(items[..|items| - 1], keep, also);
    }
  }

  lemma {:induction false} FilterAll<T>(items: seq<T>, keep: T -> bool)
    requires forall x <- items :: keep(x)
    ensures Filter(items, keep) == items
    decreases |items|
  {
    if items != [] {
      FilterAll(items[..|items| - 1], keep);
    }
  }

  lemma {:induction false} FilterNone<T>(items: seq<T>, keep: T -> bool)
    requires forall x <- items :: !keep(x)
    ensures Filter(items, keep) == []
    decreases |items|
  {
    if items != [] {
      FilterNone(items[..|items| - 1], keep);
    }
  }
}

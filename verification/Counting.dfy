/** Counting and summing over a list, to say what the counters of the service stand for. */
module Counting {

  /** How many places of a list hold an item that counts. */
  ghost function HowMany<T(!new)>(items: seq<T>, counts: T -> bool): nat {
    |Places(items, counts)|
  }

  ghost function Places<T(!new)>(items: seq<T>, counts: T -> bool): set<int> {
    set i | 0 <= i < |items| && counts(items[i])
  }

  lemma HowManyMore<T(!new)>(items: seq<T>, x: T, counts: T -> bool)
    ensures HowMany(items + [x], counts) == HowMany(items, counts) + if counts(x) then 1 else 0
  {
    var more := if counts(x) then {|items|} else {};
    assert Places(items + [x], counts) == Places(items, counts) + more;
  }

  function Sum<T>(items: seq<T>, f: T -> int): int {
    if items == [] then 0 else Sum(items[..|items| - 1], f) + f(items[|items| - 1])
  }
}

/** sort.Slice: some arrangement of the items in which no item comes before a lesser one. */
module Sorting {

  /** What sort.Slice asks of `less`. */
  ghost predicate StrictWeakOrder<T(!new)>(less: (T, T) -> bool) {
    && (forall a :: !less(a, a))
    && (forall a, b, c :: less(a, b) && less(b, c) ==> less(a, c))
    && (forall a, b, c :: less(a, c) ==> less(a, b) || less(b, c))
  }

  ghost predicate SortedBy<T>(items: seq<T>, less: (T, T) -> bool) {
    forall i, j :: 0 <= i < j < |items| ==> !less(items[j], items[i])
  }

  ghost predicate Arrangement<T>(sorted: seq<T>, items: seq<T>, less: (T, T) -> bool) {
    multiset(sorted) == multiset(items) && SortedBy(sorted, less)
  }

  function Insert<T>(x: T, items: seq<T>, less: (T, T) -> bool): (r: seq<T>)
    ensures multiset(r) == multiset(items) + multiset{x}
  {
    if items == [] then [x]
    else if less(items[0], x) then
      assert items == [items[0]] + items[1..];
      [items[0]] + Insert(x, items[1..], less)
    else [x] + items
  }

  lemma {:induction false} InsertSorted<T(!new)>(x: T, items: seq<T>, less: (T, T) -> bool)
    requires StrictWeakOrder(less) && SortedBy(items, less)
    ensures SortedBy(Insert(x, items, less), less)
  {
    if items != [] && less(items[0], x) {
      var rest := Insert(x, items[1..], less);
      InsertSorted(x, items[1..], less);
      forall i | 0 <= i < |rest| ensures !less(rest[i], items[0]) {
        assert rest[i] in multiset(items[1..]) + multiset{x};
        assert rest[i] == x || rest[i] in items[1..];
      }
    }
  }

  /** The callers rely on the contract alone, so ties may come out in any order. */
  method SortSlice<T(!new)>(items: seq<T>, less: (T, T) -> bool) returns (sorted: seq<T>)
    requires StrictWeakOrder(less)
    ensures Arrangement(sorted, items, less)
  {
    sorted := [];
    for i := 0 to |items|
      invariant multiset(sorted) == multiset(items[..i]) && SortedBy(sorted, less)
    {
      assert items[..i + 1] == items[..i] + [items[i]];
      InsertSorted(items[i], sorted, less);
      sorted := Insert(items[i], sorted, less);
    }
    assert items[..|items|] == items;
  }

  lemma ArrangementMembers<T>(sorted: seq<T>, items: seq<T>)
    requires multiset(sorted) == multiset(items)
    ensures |sorted| == |items|
    ensures forall x :: x in sorted <==> x in items
  {
    assert |multiset(sorted)| == |sorted|;
    forall x ensures x in sorted <==> x in items {
      assert x in multiset(sorted) <==> x in multiset(items);
    }
  }

  /** The last item of one arrangement, found and taken out of another. */
  lemma TakeOut<T>(a: seq<T>, b: seq<T>) returns (i: nat)
    requires a != [] && multiset(a) == multiset(b)
    ensures i < |b| && b[i] == a[|a| - 1]
    ensures multiset(a[..|a| - 1]) == multiset(b[..i] + b[i + 1..])
    ensures b == b[..i] + [b[i]] + b[i + 1..]
  {
    var x := a[|a| - 1];
    assert a == a[..|a| - 1] + [x];
    assert x in multiset(a);
    assert x in multiset(b);
    i :| 0 <= i < |b| && b[i] == x;
    assert b == b[..i] + [x] + b[i + 1..];
    assert multiset(a[..|a| - 1]) == multiset(a) - multiset{x} == multiset(b[..i] + b[i + 1..]);
  }

  // ---- Items with distinct keys ----

  ghost predicate DistinctKeys<T>(items: seq<T>, key: T -> string) {
    forall i, j :: 0 <= i < j < |items| ==> key(items[i]) != key(items[j])
  }

  lemma KeyDetermines<T>(items: seq<T>, key: T -> string, i: nat, x: T)
    requires DistinctKeys(items, key) && i < |items| && x in items && key(items[i]) == key(x)
    ensures items[i] == x
  {
    var j: nat :| j < |items| && items[j] == x;
    if items[i] != x {
      KeysDiffer(items, key, i, j);
    }
  }

  lemma KeysDiffer<T>(items: seq<T>, key: T -> string, i: nat, j: nat)
    requires DistinctKeys(items, key) && i < |items| && j < |items| && i != j
    ensures key(items[i]) != key(items[j])
  {
  }

  lemma {:induction false} OnceEach<T>(items: seq<T>, key: T -> string, x: T)
    requires DistinctKeys(items, key)
    ensures multiset(items)[x] <= 1
    decreases |items|
  {
    if items != [] {
      var init, last := items[..|items| - 1], items[|items| - 1];
      OnceEach(init, key, x);
      assert items == init + [last];
      if last == x {
        assert forall i | 0 <= i < |init| :: key(items[i]) != key(items[|items| - 1]);
        assert x !in init;
      }
    }
  }

  lemma Twice<T>(items: seq<T>, i: nat, j: nat)
    requires i < j < |items| && items[i] == items[j]
    ensures multiset(items)[items[i]] >= 2
  {
    assert items == items[..j] + [items[j]] + items[j + 1..];
    assert items[i] == items[..j][i];
    assert items[i] in multiset(items[..j]);
  }

  /** Rearranging items keeps their keys distinct. */
  lemma DistinctKeysKept<T>(sorted: seq<T>, items: seq<T>, key: T -> string)
    requires multiset(sorted) == multiset(items) && DistinctKeys(items, key)
    ensures DistinctKeys(sorted, key)
  {
    ArrangementMembers(sorted, items);
    forall i, j | 0 <= i < j < |sorted| ensures key(sorted[i]) != key(sorted[j]) {
      assert sorted[i] in items && sorted[j] in items;
      OnceEach(items, key, sorted[i]);
      if key(sorted[i]) == key(sorted[j]) {
        Twice(sorted, i, j);
      }
    }
  }

  // ---- Strings in byte order ----

  predicate StringLess(a: string, b: string) {
    if b == "" then false
    else if a == "" then true
    else a[0] < b[0] || (a[0] == b[0] && StringLess(a[1..], b[1..]))
  }

  lemma StringLessTotal(a: string, b: string)
    ensures StringLess(a, b) || StringLess(b, a) || a == b
    ensures !(StringLess(a, b) && StringLess(b, a))
    ensures !StringLess(a, a)
  {
    if a != "" && b != "" {
      StringLessTotal(a[1..], b[1..]);
      assert a == [a[0]] + a[1..] && b == [b[0]] + b[1..];
    }
    StringLessIrreflexive(a);
  }

  lemma StringLessIrreflexive(a: string)
    ensures !StringLess(a, a)
  {
  }

  lemma StringLessTransitive(a: string, b: string, c: string)
    requires StringLess(a, b) && StringLess(b, c)
    ensures StringLess(a, c)
  {
  }

  lemma StringOrder(a: string, b: string, c: string)
    ensures !StringLess(a, a)
    ensures StringLess(a, b) && StringLess(b, c) ==> StringLess(a, c)
    ensures StringLess(a, c) ==> StringLess(a, b) || StringLess(b, c)
  {
    hide StringLess;
    StringLessTotal(a, b);
    StringLessTotal(b, c);
    if StringLess(a, b) && StringLess(b, c) {
      StringLessTransitive(a, b, c);
    }
    if StringLess(a, c) && StringLess(c, b) {
      StringLessTransitive(a, c, b);
    }
  }

  /** Where two texts part: after `k` bytes they share, the first ends or has the lesser byte. */
  predicate PartsAt(a: string, b: string, k: nat) {
    && k <= |a| && k < |b| && a[..k] == b[..k]
    && (k == |a| || a[k] < b[k])
  }

  lemma {:induction false} StringLessExactly(a: string, b: string)
    ensures StringLess(a, b) <==> exists k: nat :: PartsAt(a, b, k)
    decreases |a|
  {
    if a == "" || b == "" || a[0] != b[0] {
      if StringLess(a, b) {
        assert PartsAt(a, b, 0);
      }
    } else {
      StringLessExactly(a[1..], b[1..]);
      if k: nat :| PartsAt(a[1..], b[1..], k) {
        assert a[..k + 1] == [a[0]] + a[1..][..k] && b[..k + 1] == [b[0]] + b[1..][..k];
        assert PartsAt(a, b, k + 1);
      }
      if k: nat :| PartsAt(a, b, k) {
        assert k > 0;
        assert a[1..][..k - 1] == a[..k][1..] && b[1..][..k - 1] == b[..k][1..];
        assert PartsAt(a[1..], b[1..], k - 1);
      }
    }
  }
}

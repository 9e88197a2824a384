/** Visiting the elements of a set in an arbitrary order. */
module Sets {

  /** The next element that a Go map iteration visits. */
  method AnyOf<K(==)>(keys: set<K>) returns (key: K)
    requires keys != {}
    ensures key in keys
  {
    key :| key in keys;
  }
}

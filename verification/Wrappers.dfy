/** The two result types the other modules share. */
module Wrappers {
  datatype Option<+T> = None | Some(value: T)

  datatype Result<+T, +E> = Success(value: T) | Failure(error: E)

  // Go ranges over the keys of a map in no particular order.
  method AnyOf<T>(keys: set<T>) returns (key: T)
    requires keys != {}
    ensures key in keys
  {
    key :| key in keys;
  }

  ghost function AnElement<T>(s: set<T>): (x: T)
    requires s != {}
    ensures x in s
  {
    var x :| x in s; x
  }

  // One key less to do is one key more done.
  lemma OneLess<T>(keys: set<T>, todo: set<T>, key: T)
    requires key in todo && todo <= keys
    ensures keys - todo + {key} == keys - (todo - {key})
  {
  }
}

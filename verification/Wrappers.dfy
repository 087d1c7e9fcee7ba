/** What several modules need: a value that may be missing, and a name that is not taken. */
module Wrappers {

  datatype Option<+T> = None | Some(value: T)

  lemma {:induction false} UpperBound(names: set<nat>) returns (n: nat)
    ensures forall x | x in names :: x < n
    decreases |names|
  {
    if names == {} {
      n := 0;
    } else {
      var x :| x in names;
      var m := UpperBound(names - {x});
      n := if x < m then m else x + 1;
      assert forall y | y in names :: y == x || y in names - {x};
    }
  }
}

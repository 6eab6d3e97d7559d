/** What several modules share. */
module Basics {
  datatype Option<T> = None | Some(value: T)

  /** Go's `time.Second`: durations and instants are in nanoseconds. */
  const SECOND := 1_000_000_000

  lemma {:induction false} SubsetSize<T>(a: set<T>, b: set<T>)
    requires a <= b
    ensures |a| <= |b|
    decreases a
  {
    if a != {} {
      var x :| x in a;
      SubsetSize(a - {x}, b - {x});
    }
  }

  /** A number above all those taken. */
  lemma {:induction false} Above(taken: set<nat>) returns (n: nat)
    ensures forall x :: x in taken ==> x < n
  {
    if taken == {} {
      n := 0;
    } else {
      var x :| x in taken;
      var k := Above(taken - {x});
      n := if x < k then k else x + 1;
      assert forall y :: y in taken ==> y == x || y in taken - {x};
    }
  }
}

/** Small datatypes shared by the other modules. */
module Wrappers {
  datatype Option<+T> = None | Some(value: T)

  datatype Result<+T> = Ok(value: T) | Err

  predicate IsLeast(m: nat, s: set<nat>) {
    m in s && forall x :: x in s ==> m <= x
  }

  /** The least element of a set of numbers, if there is one. */
  function SetMin(s: set<nat>): (r: Option<nat>)
    ensures r.None? <==> s == {}
    ensures r.Some? ==> IsLeast(r.value, s)
  {
    if s == {} then None
    else
      LeastExists(s);
      var m :| IsLeast(m, s);
      Some(m)
  }

  lemma {:induction false} LeastExists(s: set<nat>)
    requires s != {}
    ensures exists m :: IsLeast(m, s)
    decreases s
  {
    var y :| y in s;
    var smaller := set x | x in s && x < y;
    assert forall x :: x in s ==> x >= y || x in smaller;
    if smaller != {} {
      LeastExists(smaller);
      var m :| IsLeast(m, smaller);
      assert IsLeast(m, s);
    } else {
      assert IsLeast(y, s);
    }
  }

  lemma Associates<T>(a: seq<T>, b: seq<T>, c: seq<T>)
    ensures a + (b + c) == a + b + c
  {
  }
}

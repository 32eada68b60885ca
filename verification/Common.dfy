/** What several of the models share. */
module Common {

  datatype Option<+T> = None | Some(value: T)

  function Larger(a: nat, b: nat): nat {
    if a >= b then a else b
  }

  function Smaller(a: nat, b: nat): nat {
    if a <= b then a else b
  }

  ghost predicate Distinct<T>(xs: seq<T>) {
    forall i, j :: 0 <= i < j < |xs| ==> xs[i] != xs[j]
  }
}

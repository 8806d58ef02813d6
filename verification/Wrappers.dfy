/** Option and Result, and three small facts, shared by every component. */
module Wrappers {

  datatype Option<+T> = None | Some(value: T)

  datatype Result<+T, +E> = Ok(value: T) | Err(error: E)

  function Bit(b: bool): nat { if b then 1 else 0 }

  lemma InhabitedNat(s: set<nat>)
    ensures s == {} || exists n :: n in s
  {
    if forall n :: n !in s {
      assert s == {};
    }
  }

  lemma TimesInOrder(a: int, b: int, c: nat)
    requires a <= b
    ensures a * c <= b * c
  {
  }
}

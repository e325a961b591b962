/** Types shared by every part of the model. */
module Prelude {

  type u8 = x: int | 0 <= x < 0x100
  type u16 = x: int | 0 <= x < 0x1_0000
  type i64 = x: int | -0x8000_0000_0000_0000 <= x < 0x8000_0000_0000_0000

  datatype Option<+T> = None | Some(value: T)

  /** The errors of the packet engine that ustunet tells apart. */
  datatype Error = Dropped | Unrecognized | Exhausted | OtherError

  datatype Result<+T> = Ok(value: T) | Err(error: Error)

  lemma UnusedExists(used: set<nat>)
    ensures exists n: nat :: n !in used
  {
    var bound := BoundOf(used);
    assert bound !in used;
  }

  lemma {:induction false} BoundOf(used: set<nat>) returns (bound: nat)
    ensures forall n :: n in used ==> n < bound
    decreases |used|
  {
    bound := 0;
    if used != {} {
      var n :| n in used;
      var rest := BoundOf(used - {n});
      bound := if rest <= n then n + 1 else rest;
      forall m | m in used
        ensures m < bound
      {
        assert m == n || m in used - {n};
      }
    }
  }
}

/** Small things shared by the other modules. */
module Basics {

  datatype Option<+T> = None | Some(value: T)

  datatype Result<+T> = Ok(value: T) | Err(reason: string)

  function Abs(x: real): real {
    if x < 0.0 then -x else x
  }

  predicate IsDigit(c: char) {
    '0' <= c <= '9'
  }

  lemma {:induction false} Assoc<T>(a: seq<T>, b: seq<T>, c: seq<T>)
    ensures (a + b) + c == a + (b + c)
  {
  }

  /** Always true. A fact guarded by it stays out of a proof until the proof mentions it. */
  predicate Peek(k: nat) {
    true
  }
}

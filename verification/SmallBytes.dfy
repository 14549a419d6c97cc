/** Small integers as bytes and back. */
module SmallBytes {

  function ByteOf(n: int): bv8
    requires 0 <= n < 256
  {
    n as bv8
  }

  function Plain(b: bv8): int {
    b as int
  }

  /** A byte read as a signed one. */
  function Signed(b: bv8): int {
    if b < 128 then b as int else b as int - 256
  }

  lemma {:induction false} Next(b: bv8)
    requires b as int < 255
    ensures (b + 1) as int == b as int + 1
  {
  }

  lemma {:induction false} Spelled(n: int) returns (b: bv8)
    requires 0 <= n < 256
    ensures b as int == n
    decreases n
  {
    if n == 0 {
      b := 0;
    } else {
      var c := Spelled(n - 1);
      Next(c);
      b := c + 1;
    }
  }

  lemma {:induction false} SameByte(n: int, b: bv8)
    requires b as int == n
    ensures n as bv8 == b
  {
  }

  lemma {:induction false} PlainBack(n: int)
    requires 0 <= n < 256
    ensures Plain(ByteOf(n)) == n
  {
    var b := Spelled(n);
    SameByte(n, b);
  }

  lemma {:induction false} SignedBack(n: int)
    requires 0 <= n < 128
    ensures Signed(ByteOf(n)) == n
  {
    PlainBack(n);
  }

  lemma {:induction false} SixBits(n: int)
    requires 0 <= n < 64
    ensures ByteOf(n) < 64
  {
  }
}

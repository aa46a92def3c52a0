/** The 32-bit signed integer that `static_cast<int>` produces. */
module Int32 {

  const Modulus := 0x1_0000_0000
  const Limit := 0x8000_0000

  /** The low 32 bits of a count. */
  function Low(x: nat): (low: nat)
    ensures low < Modulus && (x < Modulus ==> low == x)
  {
    if x < Modulus then x else Low(x - Modulus)
  }

  lemma {:induction false} LowIsRemainder(x: nat)
    ensures Low(x) == x % Modulus
  {
    if x >= Modulus {
      LowIsRemainder(x - Modulus);
      assert x % Modulus == (x - Modulus) % Modulus;
    }
  }

  /** The low 32 bits, read as two's complement. */
  function Cast(x: nat): (r: int)
    ensures r <= x && -Limit <= r < Limit && (r == x <==> x < Limit)
  {
    var low := Low(x);
    if low < Limit then low else low - Modulus
  }

  /** It is the only 32-bit value that differs from `x` by a multiple of 2^32. */
  lemma CastExact(x: nat, r: int)
    ensures r == Cast(x) <==> -Limit <= r < Limit && (r - x) % Modulus == 0
  {
    LowIsRemainder(x);
    assert (Cast(x) - x) % Modulus == 0;
    if -Limit <= r < Limit && (r - x) % Modulus == 0 {
      assert (r - Cast(x)) % Modulus == 0;
    }
  }

  /** Below a count whose cast is not negative, casting commutes with subtraction. */
  lemma CastMinus(x: nat, w: nat)
    requires w <= Cast(x)
    ensures w <= x && Cast(x - w) == Cast(x) - w
  {
    CastExact(x, Cast(x));
    CastExact(x - w, Cast(x) - w);
  }
}

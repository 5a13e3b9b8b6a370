/** Small arithmetic used in several places. Products and quotients have names so that proofs can treat them as wholes. */
module Arithmetic {
  function Min(p: nat, q: nat): nat {
    if p <= q then p else q
  }

  function Sum(s: seq<int>): int {
    if s == [] then 0 else s[0] + Sum(s[1..])
  }

  function Mul(p: int, q: int): int {
    p * q
  }

  function Times(x: real, y: real): real {
    x * y
  }

  function Over(x: real, y: real): real
    requires y != 0.0
  {
    x / y
  }
}

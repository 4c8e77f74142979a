/** Python's round(x, n) over exact numbers: to the nearest multiple of 1/scale, ties to the even one. */
module Rounding {
  function RoundInt(x: real): int {
    var low := x.Floor;
    if x - low as real < 0.5 then low
    else if x - low as real > 0.5 then low + 1
    else if low % 2 == 0 then low else low + 1
  }

  function Round(x: real, scale: nat): real
    requires 0 < scale
  {
    RoundInt(x * scale as real) as real / scale as real
  }

  function Round1(x: real): real { Round(x, 10) }

  function Round3(x: real): real { Round(x, 1000) }

  lemma RoundIntNear(x: real)
    ensures x - 0.5 <= RoundInt(x) as real <= x + 0.5
  {
  }

  lemma RoundIntMonotone(x: real, y: real)
    requires x <= y
    ensures RoundInt(x) <= RoundInt(y)
  {
  }

  lemma RoundIntOfInt(n: int)
    ensures RoundInt(n as real) == n
  {
  }

  /** Rounding moves a number by at most half a unit, keeps order, and keeps multiples of the unit. */
  lemma Round3Near(x: real)
    ensures x - 0.0005 <= Round3(x) <= x + 0.0005
  {
    RoundIntNear(x * 1000.0);
  }

  lemma Round3Monotone(x: real, y: real)
    requires x <= y
    ensures Round3(x) <= Round3(y)
  {
    RoundIntMonotone(x * 1000.0, y * 1000.0);
  }

  lemma Round3Exact(n: int)
    ensures Round3(n as real / 1000.0) == n as real / 1000.0
  {
    assert n as real / 1000.0 * 1000.0 == n as real;
    RoundIntOfInt(n);
  }

  /** A tie goes to the even neighbour, on both sides. */
  lemma TiesToEven(n: int)
    ensures RoundInt(2.0 * n as real + 0.5) == 2 * n == RoundInt(2.0 * n as real - 0.5)
  {
    assert (2.0 * n as real + 0.5).Floor == 2 * n && (2.0 * n as real - 0.5).Floor == 2 * n - 1;
  }
}

/** Small value types shared by the filter, the gesture detector and the controller. */
module Common {

  /** A value that may be absent; models Python's `None` in optional fields and arguments. */
  datatype Option<+T> = None | Some(value: T)

  /** Absolute value of a real, as Python's `abs` on a float. */
  function Abs(x: real): (r: real)
    ensures r >= 0.0
    ensures r == x || r == -x
  {
    if x < 0.0 then -x else x
  }

  /** Squaring is increasing on the non-negative reals, strictly where its arguments differ. */
  lemma SquareMonotone(a: real, b: real)
    requires 0.0 <= a <= b
    ensures a * a <= b * b
    ensures a < b ==> a * a < b * b
  {
    assert a * (b - a) >= 0.0;
    assert a * (b - a) == a * b - a * a;
    assert b * (b - a) == b * b - a * b;
    if a < b {
      assert b * (b - a) > 0.0;
    }
  }

  /** A square is never negative. */
  lemma SquareNonnegative(a: real)
    ensures 0.0 <= a * a
  {
    if a < 0.0 {
      assert a * a == (-a) * (-a);
    }
  }

  /** Squared length of the vector `(dx, dy)`, so also the squared distance of two points. */
  function SqNorm(dx: real, dy: real): real {
    dx * dx + dy * dy
  }

  /** A length compares with a non-negative bound as its square compares with the bound's square. */
  lemma CompareBySquare(sq: real, len: real, bound: real)
    requires 0.0 <= len && len * len == sq && 0.0 <= bound
    ensures sq <= bound * bound <==> len <= bound
    ensures sq < bound * bound <==> len < bound
  {
    if len > bound {
      SquareMonotone(bound, len);
    } else {
      SquareMonotone(len, bound);
    }
  }
}

// Types shared by every module of the model.
module Common {

  datatype Option<+T> = None | Some(value: T)

  datatype Result<+T, +E> = Ok(value: T) | Err(error: E)

  // One octet of a byte stream or of a packed picture.
  type byte = b: int | 0 <= b < 256

  function Min(a: int, b: int): int { if a <= b then a else b }

  function Max(a: int, b: int): int { if a >= b then a else b }

  function Abs(x: real): real { if x < 0.0 then -x else x }

  // Quotient and remainder are the only pair that recompose the dividend.
  lemma DivModUnique(a: int, b: int, q: int, r: int)
    requires 0 <= r < b && a == b * q + r
    ensures a / b == q && a % b == r
  {
    var d := a / b - q;
    assert b * d == r - a % b by {
      assert a == b * (a / b) + a % b;
      assert b * d == b * (a / b) - b * q;
    }
    MultipleOfPositive(b, d);
  }

  lemma MultipleOfPositive(b: int, d: int)
    requires b > 0
    ensures d >= 1 ==> b * d >= b
    ensures d <= -1 ==> b * d <= -b
  {
    if d >= 1 {
      assert b * (d - 1) >= 0;
    } else if d <= -1 {
      assert b * (d + 1) <= 0;
    }
  }

  lemma ProductNonNegative(x: real, y: real)
    requires x >= 0.0 && y >= 0.0
    ensures x * y >= 0.0
  {
  }
}

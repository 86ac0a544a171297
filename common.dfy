/** Values shared by every part of the model: an optional value (JavaScript's
    `null`), a grid coordinate, and the random draw that stands for one call of
    `Math.random()`. */
module Common {

  datatype Option<+T> = None | Some(value: T)

  /** A cell of the coordinate grid: `x` goes across, `y` goes up. */
  datatype Coord = Coord(x: int, y: int)

  /** One result of `Math.random()`, a number in [0, 1), given as the exact
      fraction `num / den`. */
  datatype RandomDraw = RandomDraw(num: nat, den: nat)

  predicate IsDraw(r: RandomDraw) {
    r.num < r.den
  }

  /** `Math.floor(Math.random() * n)`: a uniformly drawn index below `n`.
      For `n <= 0` the JavaScript expression yields a value in [n, 0]. */
  function RandomIndex(r: RandomDraw, n: int): (i: int)
    requires IsDraw(r)
    ensures n > 0 ==> 0 <= i < n
    ensures n <= 0 ==> n <= i <= 0
  {
    ScaleBelow(r.num, r.den, n);
    (r.num * n) / r.den
  }

  lemma ScaleBelow(num: nat, den: nat, n: int)
    requires num < den
    ensures n > 0 ==> 0 <= (num * n) / den < n
    ensures n <= 0 ==> n <= (num * n) / den <= 0
  {
    var a := num * n;
    var q := a / den;
    assert a == den * q + a % den && 0 <= a % den < den;
    if n > 0 {
      MulLess(num, den, n);
      assert 0 <= a < den * n;
      if q >= n {
        MulMonotone(den, n, q);
        assert false;
      }
    } else {
      MulLess(num, den, -n);
      assert den * n <= a <= 0;
      if q > 0 {
        MulMonotone(den, 1, q);
        assert false;
      }
      if q < n {
        MulMonotone(den, q + 1, n);
        assert false;
      }
    }
  }

  lemma MulLess(a: nat, b: nat, k: nat)
    requires a < b
    ensures a * k <= b * k
    ensures k > 0 ==> a * k < b * k
  {
    if k > 0 {
      MulLess(a, b, k - 1);
      assert a * k == a * (k - 1) + a;
      assert b * k == b * (k - 1) + b;
    }
  }

  lemma MulMonotone(d: nat, lo: int, hi: int)
    requires lo <= hi
    ensures d * lo <= d * hi
  {
    var k := hi - lo;
    assert d * hi == d * lo + d * k;
    assert d * k >= 0 by {
      if k > 0 { MulLess(0, d + 1, k); }
    }
  }
}

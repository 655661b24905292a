/** Python's integer `//` and `%` (rounding toward negative infinity, remainder with
    the divisor's sign) and the cell a grid layout puts item `i` in. */
module Grid {

  /** Python `a // b`. */
  function FloorDiv(a: int, b: int): (q: int)
    requires b != 0
    ensures b > 0 ==> b * q <= a < b * q + b
    ensures b < 0 ==> b * q + b < a <= b * q
  {
    if b > 0 then a / b else (-a) / (-b)
  }

  /** Python `a % b`. */
  function FloorMod(a: int, b: int): (r: int)
    requires b != 0
    ensures a == b * FloorDiv(a, b) + r
    ensures b > 0 ==> 0 <= r < b
    ensures b < 0 ==> b < r <= 0
  {
    a - b * FloorDiv(a, b)
  }

  /** Quotient and remainder are the only ones with the remainder in range. */
  lemma {:induction false} FloorDivModUnique(a: int, b: int, q: int, r: int)
    requires b > 0 && 0 <= r < b && a == b * q + r
    ensures FloorDiv(a, b) == q && FloorMod(a, b) == r
  {
    var q' := FloorDiv(a, b);
    if q' < q {
      MulMonotone(b, q' + 1, q);
    } else if q < q' {
      MulMonotone(b, q + 1, q');
    }
  }

  lemma MulMonotone(b: int, s: int, t: int)
    requires b > 0 && s <= t
    ensures b * s <= b * t
  {
  }

  /** Column of item `i`: `i % cols`. */
  function Col(i: int, cols: int): int
    requires cols != 0
  {
    FloorMod(i, cols)
  }

  /** Row of item `i`: `i // cols`. */
  function Row(i: int, cols: int): int
    requires cols != 0
  {
    FloorDiv(i, cols)
  }

  function GridX(i: int, cols: int, startX: int, spacingX: int): int
    requires cols != 0
  {
    startX + Col(i, cols) * spacingX
  }

  function GridY(i: int, cols: int, startY: int, spacingY: int): int
    requires cols != 0
  {
    startY + Row(i, cols) * spacingY
  }

  /** Different items never share a cell: the cell determines the item. */
  lemma CellDeterminesItem(i: int, j: int, cols: int)
    requires cols != 0
    requires Col(i, cols) == Col(j, cols) && Row(i, cols) == Row(j, cols)
    ensures i == j
  {
  }

  /** With non-zero spacing on both axes, two items never land on the same position. */
  lemma {:induction false} GridPositionsDistinct(i: int, j: int, cols: int, startX: int, startY: int,
                                                 spacingX: int, spacingY: int)
    requires cols != 0 && spacingX != 0 && spacingY != 0 && i != j
    ensures GridX(i, cols, startX, spacingX) != GridX(j, cols, startX, spacingX)
         || GridY(i, cols, startY, spacingY) != GridY(j, cols, startY, spacingY)
  {
    if GridX(i, cols, startX, spacingX) == GridX(j, cols, startX, spacingX)
       && GridY(i, cols, startY, spacingY) == GridY(j, cols, startY, spacingY) {
      MulCancel(Col(i, cols), Col(j, cols), spacingX);
      MulCancel(Row(i, cols), Row(j, cols), spacingY);
      CellDeterminesItem(i, j, cols);
    }
  }

  lemma MulCancel(a: int, b: int, c: int)
    requires c != 0 && a * c == b * c
    ensures a == b
  {
    assert (a - b) * c == 0;
  }

  /** Items fill a row left to right, `spacingX` apart; after the last column the
      next item starts the next row, `spacingY` lower, at `startX`. */
  lemma {:induction false} GridNext(i: nat, cols: int, startX: int, startY: int, spacingX: int, spacingY: int)
    requires cols > 0
    ensures Col(i, cols) < cols - 1 ==>
              GridX(i + 1, cols, startX, spacingX) == GridX(i, cols, startX, spacingX) + spacingX
              && GridY(i + 1, cols, startY, spacingY) == GridY(i, cols, startY, spacingY)
    ensures Col(i, cols) == cols - 1 ==>
              GridX(i + 1, cols, startX, spacingX) == startX
              && GridY(i + 1, cols, startY, spacingY) == GridY(i, cols, startY, spacingY) + spacingY
  {
    var q, r := Row(i, cols), Col(i, cols);
    if r < cols - 1 {
      FloorDivModUnique(i + 1, cols, q, r + 1);
    } else {
      FloorDivModUnique(i + 1, cols, q + 1, 0);
    }
  }
}

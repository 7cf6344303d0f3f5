/**
 * `RecyclerItemDecorator`
 * (toolbox/src/main/java/in/windrunner/android_toolbox/recycler_view/decorator/RecyclerItemDecorator.kt):
 * the four paddings of one list item, from its adapter position and the
 * number of columns. Kotlin's `Int` division truncates toward zero, so the
 * model spells it out rather than using Dafny's Euclidean `/`. No step can
 * leave the 32-bit range (every quotient and remainder is at most its
 * dividend in size), so unbounded integers give the same values.
 */
module ItemDecorator {

  function Abs(x: int): nat { if x < 0 then -x else x }

  /** Kotlin's `a / b` on `Int`: the quotient rounded toward zero. */
  function TruncDiv(a: int, b: int): (q: int)
    requires b != 0
    ensures var rem := a - q * b;
      && Abs(rem) < Abs(b)
      && (a >= 0 ==> rem >= 0)
      && (a < 0 ==> rem <= 0)
  {
    if a >= 0 then (if b > 0 then a / b else -(a / -b))
    else (if b > 0 then -((-a) / b) else (-a) / (-b))
  }

  /** `p / 2`: the reduced padding. */
  function Half(p: int): (h: int)
    ensures Abs(h) <= Abs(p)
    ensures p >= 0 ==> 0 <= h && h + h <= p <= h + h + 1
    ensures p < 0 ==> h <= 0 && h + h - 1 <= p <= h + h
  {
    TruncDiv(p, 2)
  }

  /** `viewIndex - (viewIndex / columnsCount * columnsCount)`: the index's place in its row. */
  function RowRemainder(viewIndex: int, columnsCount: int): (rem: int)
    requires columnsCount > 1
    ensures -columnsCount < rem < columnsCount
    ensures viewIndex >= 0 ==> rem >= 0
    ensures viewIndex < 0 ==> rem <= 0
  {
    viewIndex - (TruncDiv(viewIndex, columnsCount) * columnsCount)
  }

  predicate IsFirstRow(viewIndex: int, columnsCount: int) {
    viewIndex <= columnsCount
  }

  predicate IsFirstInRow(viewIndex: int, columnsCount: int)
    requires columnsCount > 1
  {
    RowRemainder(viewIndex, columnsCount) == 1
  }

  predicate IsLastInRow(viewIndex: int, columnsCount: int)
    requires columnsCount > 1
  {
    RowRemainder(viewIndex, columnsCount) == 0
  }

  /** The four sides of `android.graphics.Rect`, updated in place. */
  class Rect {
    var left: int
    var top: int
    var right: int
    var bottom: int

    constructor ()
      ensures left == 0 && top == 0 && right == 0 && bottom == 0
    {
      left, top, right, bottom := 0, 0, 0, 0;
    }
  }

  /** The four paddings an item gets. */
  datatype Insets = Insets(left: int, top: int, right: int, bottom: int)

  class RecyclerItemDecorator {
    const paddingLeft: int
    const paddingRight: int
    const paddingTop: int
    const paddingBottom: int
    const columnsCount: int

    constructor (paddingLeft: int, paddingRight: int, paddingTop: int, paddingBottom: int, columnsCount: int)
      ensures this.paddingLeft == paddingLeft && this.paddingRight == paddingRight
      ensures this.paddingTop == paddingTop && this.paddingBottom == paddingBottom
      ensures this.columnsCount == columnsCount
    {
      this.paddingLeft := paddingLeft;
      this.paddingRight := paddingRight;
      this.paddingTop := paddingTop;
      this.paddingBottom := paddingBottom;
      this.columnsCount := columnsCount;
    }

    /**
     * The paddings of the item at `viewIndex`: every side is either the full
     * padding or its half, and the bottom is always half.
     */
    function Offsets(viewIndex: int): (r: Insets)
      ensures r.bottom == Half(paddingBottom)
      ensures r.left == paddingLeft || r.left == Half(paddingLeft)
      ensures r.right == paddingRight || r.right == Half(paddingRight)
      ensures r.top == paddingTop || r.top == Half(paddingTop)
      ensures columnsCount <= 1 ==>
        && r.left == paddingLeft && r.right == paddingRight
        && (viewIndex == 1 ==> r.top == paddingTop)
        && (viewIndex != 1 ==> r.top == Half(paddingTop))
      ensures columnsCount > 1 ==>
        && (viewIndex <= columnsCount ==> r.top == paddingTop)
        && (viewIndex > columnsCount ==> r.top == Half(paddingTop))
        && (IsFirstInRow(viewIndex, columnsCount) ==> r.left == paddingLeft)
        && (!IsFirstInRow(viewIndex, columnsCount) ==> r.left == Half(paddingLeft))
        && (IsLastInRow(viewIndex, columnsCount) ==> r.right == paddingRight)
        && (!IsLastInRow(viewIndex, columnsCount) ==> r.right == Half(paddingRight))
    {
      if columnsCount > 1 then
        Insets(
          if IsFirstInRow(viewIndex, columnsCount) then paddingLeft else Half(paddingLeft),
          if IsFirstRow(viewIndex, columnsCount) then paddingTop else Half(paddingTop),
          if IsLastInRow(viewIndex, columnsCount) then paddingRight else Half(paddingRight),
          Half(paddingBottom))
      else
        Insets(paddingLeft, if viewIndex == 1 then paddingTop else Half(paddingTop), paddingRight, Half(paddingBottom))
    }

    /** `getItemOffsets`, with the adapter position of the view given directly. */
    method GetItemOffsets(outRect: Rect, viewIndex: int)
      modifies outRect
      ensures Insets(outRect.left, outRect.top, outRect.right, outRect.bottom) == Offsets(viewIndex)
    {
      if columnsCount > 1 {
        var isFirstRow := viewIndex <= columnsCount;
        var isFirstInRow := (viewIndex - (TruncDiv(viewIndex, columnsCount) * columnsCount)) == 1;
        var isLastInRow := (viewIndex - (TruncDiv(viewIndex, columnsCount) * columnsCount)) == 0;
        SetMultiColumn(outRect, isFirstRow, isFirstInRow, isLastInRow);
      } else {
        SetSingleColumn(outRect, viewIndex == 1);
      }
    }

    method SetMultiColumn(outRect: Rect, isFirstRow: bool, isFirstInRow: bool, isLastInRow: bool)
      modifies outRect
      ensures outRect.left == if isFirstInRow then paddingLeft else Half(paddingLeft)
      ensures outRect.top == if isFirstRow then paddingTop else Half(paddingTop)
      ensures outRect.right == if isLastInRow then paddingRight else Half(paddingRight)
      ensures outRect.bottom == Half(paddingBottom)
    {
      outRect.left := if isFirstInRow then paddingLeft else Half(paddingLeft);
      outRect.top := if isFirstRow then paddingTop else Half(paddingTop);
      outRect.right := if isLastInRow then paddingRight else Half(paddingRight);
      outRect.bottom := Half(paddingBottom);
    }

    method SetSingleColumn(outRect: Rect, isFirstItem: bool)
      modifies outRect
      ensures outRect.left == paddingLeft && outRect.right == paddingRight
      ensures outRect.top == if isFirstItem then paddingTop else Half(paddingTop)
      ensures outRect.bottom == Half(paddingBottom)
    {
      outRect.left := paddingLeft;
      outRect.top := if isFirstItem then paddingTop else Half(paddingTop);
      outRect.right := paddingRight;
      outRect.bottom := Half(paddingBottom);
    }
  }

  /** Left and right are never both the full padding in a multi-column layout. */
  lemma NeverFirstAndLastInRow(viewIndex: int, columnsCount: int)
    requires columnsCount > 1
    ensures !(IsFirstInRow(viewIndex, columnsCount) && IsLastInRow(viewIndex, columnsCount))
  {
  }

  /** Position 0 counts as the last item of its row, so it gets the full right padding and half the left. */
  lemma PositionZeroIsLastInRow(d: RecyclerItemDecorator)
    requires d.columnsCount > 1
    ensures IsLastInRow(0, d.columnsCount) && !IsFirstInRow(0, d.columnsCount)
    ensures d.Offsets(0) == Insets(Half(d.paddingLeft), d.paddingTop, d.paddingRight, Half(d.paddingBottom))
  {
  }

  /** A non-zero multiple of a positive `c` is at least `c` in size. */
  lemma {:induction false} MultipleBounds(k: int, c: int)
    requires c > 0
    ensures k >= 1 ==> k * c >= c
    ensures k <= -1 ==> k * c <= -c
  {
    assert k * c == c + (k - 1) * c;
    assert (k - 1) * c == k * c - c;
  }

  /** A multiple of `c` strictly between `-c` and `c` is zero. */
  lemma {:induction false} SmallMultipleIsZero(k: int, c: int)
    requires c > 0 && -c < k * c < c
    ensures k == 0
  {
    MultipleBounds(k, c);
  }

  /** Dafny's Euclidean `%` is the unique remainder in `[0, c)`. */
  lemma {:induction false} EuclideanRemainder(v: int, c: int, k: int, r: int)
    requires c > 0 && v == k * c + r && 0 <= r < c
    ensures v % c == r
  {
    var k', r' := v / c, v % c;
    assert v == k' * c + r';
    assert (k - k') * c == r' - r;
    SmallMultipleIsZero(k - k', c);
  }

  /** For a non-negative position the remainder is Dafny's Euclidean `%`. */
  lemma {:induction false} RemainderOfNonNegative(viewIndex: int, columnsCount: int)
    requires columnsCount > 1 && viewIndex >= 0
    ensures RowRemainder(viewIndex, columnsCount) == viewIndex % columnsCount
    ensures IsFirstInRow(viewIndex, columnsCount) <==> viewIndex % columnsCount == 1
    ensures IsLastInRow(viewIndex, columnsCount) <==> viewIndex % columnsCount == 0
  {
    var q := TruncDiv(viewIndex, columnsCount);
    var rem := RowRemainder(viewIndex, columnsCount);
    assert viewIndex == q * columnsCount + rem;
    EuclideanRemainder(viewIndex, columnsCount, q, rem);
  }

  /**
   * A negative position is never first in its row; it is last in its row exactly
   * when it is a multiple of the column count (its truncated remainder is then 0,
   * otherwise negative and one column count below the Euclidean one).
   */
  lemma {:induction false} RemainderOfNegative(viewIndex: int, columnsCount: int)
    requires columnsCount > 1 && viewIndex < 0
    ensures !IsFirstInRow(viewIndex, columnsCount)
    ensures IsLastInRow(viewIndex, columnsCount) <==> viewIndex % columnsCount == 0
    ensures viewIndex % columnsCount != 0 ==>
      RowRemainder(viewIndex, columnsCount) == viewIndex % columnsCount - columnsCount
  {
    var q := TruncDiv(viewIndex, columnsCount);
    var rem := RowRemainder(viewIndex, columnsCount);
    assert viewIndex == q * columnsCount + rem;
    if rem == 0 {
      EuclideanRemainder(viewIndex, columnsCount, q, 0);
    } else {
      assert viewIndex == (q - 1) * columnsCount + (rem + columnsCount);
      EuclideanRemainder(viewIndex, columnsCount, q - 1, rem + columnsCount);
    }
  }

  /** `NO_POSITION` (-1) in a grid gets half padding on both sides. */
  lemma NoPositionIndexGetsHalfSides(d: RecyclerItemDecorator)
    requires d.columnsCount > 1
    ensures d.Offsets(-1).left == Half(d.paddingLeft) && d.Offsets(-1).right == Half(d.paddingRight)
  {
    RemainderOfNegative(-1, d.columnsCount);
  }
}

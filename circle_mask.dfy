/**
 * The inverted circular mask laid over a luminance-flickered stimulus. The
 * grid is indexed by offsets -r0 .. r0 - 1 from its centre, r0 = size / 2
 * rounded down; a cell is -1 (transparent: the stimulus shows through) when
 * it lies within distance size / 2 of the centre and +1 (opaque, in the
 * background colour) otherwise.
 */
module CircleMask {
  /** (x, y) lies within distance size / 2 of the origin, compared in whole numbers. */
  predicate Inside(x: int, y: int, size: nat) {
    4 * (x * x + y * y) <= size * size
  }

  /** `int(size / 2)` for a non-negative size. */
  function HalfSize(size: nat): nat { size / 2 }

  function BoolToInt(b: bool): int { if b then 1 else 0 }

  /** `~(rsq <= radius ** 2) * 2 - 1` for one cell: -1 inside the circle, +1 outside. */
  function MaskCell(x: int, y: int, size: nat): (v: int)
    ensures v == -1 <==> Inside(x, y, size)
    ensures v == 1 <==> !Inside(x, y, size)
  {
    BoolToInt(!Inside(x, y, size)) * 2 - 1
  }

  /** The mask over the open grid of offsets -r0 .. r0 - 1 in both directions. */
  function InvCircleMask(size: nat): (m: seq<seq<int>>)
    ensures |m| == 2 * HalfSize(size)
    ensures forall i :: 0 <= i < |m| ==> |m[i]| == |m|
    ensures forall i, j :: 0 <= i < |m| && 0 <= j < |m| ==>
      m[i][j] == MaskCell(i - HalfSize(size), j - HalfSize(size), size)
    ensures forall i, j :: 0 <= i < |m| && 0 <= j < |m| ==>
      (m[i][j] == -1 <==> Inside(i - HalfSize(size), j - HalfSize(size), size)) &&
      (m[i][j] == 1 <==> !Inside(i - HalfSize(size), j - HalfSize(size), size))
  {
    var r0 := HalfSize(size);
    seq(2 * r0, i =>
      seq(2 * r0, j => MaskCell(i - r0, j - r0, size)))
  }

  /** The mask is symmetric about its main diagonal. */
  lemma MaskSymmetric(size: nat, i: nat, j: nat)
    requires i < 2 * HalfSize(size) && j < 2 * HalfSize(size)
    ensures InvCircleMask(size)[i][j] == InvCircleMask(size)[j][i]
  {
    var r0 := HalfSize(size);
    assert Inside(i - r0, j - r0, size) <==> Inside(j - r0, i - r0, size);
  }

  lemma SquareMonotone(a: int, b: int)
    requires -b <= a <= b
    ensures a * a <= b * b
  {
    if a >= 0 {
      assert a * a <= a * b <= b * b;
    } else {
      assert a * a == (-a) * (-a);
      assert (-a) * (-a) <= (-a) * b <= b * b;
    }
  }

  /** The transparent cells form a disk: a cell nearer the centre on both axes than a transparent cell is transparent. */
  lemma MaskIsDisk(size: nat, i: nat, j: nat, i': nat, j': nat)
    requires i < 2 * HalfSize(size) && j < 2 * HalfSize(size)
    requires i' < 2 * HalfSize(size) && j' < 2 * HalfSize(size)
    requires InvCircleMask(size)[i][j] == -1
    requires Abs(i' - HalfSize(size)) <= Abs(i - HalfSize(size))
    requires Abs(j' - HalfSize(size)) <= Abs(j - HalfSize(size))
    ensures InvCircleMask(size)[i'][j'] == -1
  {
    var r0 := HalfSize(size);
    InsideNearer(i - r0, j - r0, i' - r0, j' - r0, size);
  }

  /** A point no farther from the origin on either axis than an inside point is inside. */
  lemma InsideNearer(x: int, y: int, x': int, y': int, size: nat)
    requires Inside(x, y, size)
    requires Abs(x') <= Abs(x) && Abs(y') <= Abs(y)
    ensures Inside(x', y', size)
  {
    SquareMonotone(x', Abs(x));
    SquareMonotone(y', Abs(y));
    assert Abs(x) * Abs(x) == x * x;
    assert Abs(y) * Abs(y) == y * y;
  }

  function Abs(x: int): nat { if x < 0 then -x else x }

  /** Once size >= 4, the offset (-r0, -r0) lies outside the circle. */
  lemma CornerOutside(size: nat, r0: int)
    requires size >= 4 && r0 == HalfSize(size)
    ensures !Inside(-r0, -r0, size)
  {
    assert r0 >= 2 && size <= 2 * r0 + 1;
    SquareMonotone(size, 2 * r0 + 1);
    var d := r0 * r0;
    assert (2 * r0 + 1) * (2 * r0 + 1) == 4 * d + 4 * r0 + 1;
    assert 4 * ((-r0) * (-r0) + (-r0) * (-r0)) == 8 * d;
    assert d == r0 * (r0 - 2) + 2 * r0;
    assert r0 * (r0 - 2) >= 0;
  }

  /** The centre cell is transparent and the corner nearest (-r0, -r0) is opaque once size >= 4. */
  lemma MaskCentreAndCorner(size: nat)
    requires size >= 2
    ensures InvCircleMask(size)[HalfSize(size)][HalfSize(size)] == -1
    ensures size >= 4 ==> InvCircleMask(size)[0][0] == 1
  {
    assert Inside(0, 0, size);
    if size >= 4 {
      CornerOutside(size, HalfSize(size));
    }
  }

  /** For a stimulus of 8 pixels: an 8 x 8 grid, transparent at the centre, opaque in all four corners. */
  lemma MaskOfSize8()
    ensures |InvCircleMask(8)| == 8
    ensures InvCircleMask(8)[4][4] == -1
    ensures InvCircleMask(8)[0][0] == 1 && InvCircleMask(8)[0][7] == 1
    ensures InvCircleMask(8)[7][0] == 1 && InvCircleMask(8)[7][7] == 1
  {
    assert Inside(0, 0, 8);
    assert !Inside(-4, -4, 8) && !Inside(-4, 3, 8) && !Inside(3, -4, 8) && !Inside(3, 3, 8);
  }

  /**
   * Small stimuli. The grid offsets run from -r0 to r0 - 1, so the corner
   * [0][0] lies farther from the centre than the opposite corner: sizes 0 and
   * 1 give an empty mask, size 2 is opaque only at [0][0], size 3 is
   * transparent throughout, and size 4 is transparent at its far corner.
   */
  lemma MaskOfSmallSizes()
    ensures InvCircleMask(0) == [] && InvCircleMask(1) == []
    ensures InvCircleMask(2) == [[1, -1], [-1, -1]]
    ensures InvCircleMask(3) == [[-1, -1], [-1, -1]]
    ensures InvCircleMask(4)[0][0] == 1 && InvCircleMask(4)[3][3] == -1
  {
    assert !Inside(-1, -1, 2) && Inside(-1, 0, 2) && Inside(0, -1, 2) && Inside(0, 0, 2);
    assert Inside(-1, -1, 3) && Inside(-1, 0, 3) && Inside(0, -1, 3) && Inside(0, 0, 3);
    assert InvCircleMask(2)[0] == [1, -1] && InvCircleMask(2)[1] == [-1, -1];
    assert InvCircleMask(3)[0] == [-1, -1] && InvCircleMask(3)[1] == [-1, -1];
    assert !Inside(-2, -2, 4) && Inside(1, 1, 4);
  }
}

/**
 * Packing of the twelve sub-frame samples of one host frame. The projector
 * shows its sub-frames colour channel outer, quadrant inner:
 *
 *     for channel in (red, green, blue):
 *       for quadrant in 0 .. 3: show(quadrant, channel)
 *
 * so sample i must reach channel i / 4 of quadrant i % 4.
 */
module Multiplexer {
  import opened Stimuli

  /** A channel x quadrant grid, stored row by row. */
  type Grid = seq<seq<real>>

  predicate IsGrid(g: Grid) {
    |g| == 3 && forall c :: 0 <= c < 3 ==> |g[c]| == 4
  }

  /** `np.reshape(samples, [3, 4], order='C')`. */
  function Reshape(s: seq<real>): (g: Grid)
    requires |s| == 12
    ensures IsGrid(g)
    ensures forall i :: 0 <= i < 12 ==> g[i / 4][i % 4] == s[i]
    ensures forall c, q :: 0 <= c < 3 && 0 <= q < 4 ==> g[c][q] == s[4 * c + q]
  {
    [s[0..4], s[4..8], s[8..12]]
  }

  /** The grid read back in row-major order. */
  function Flatten(g: Grid): (s: seq<real>)
    requires IsGrid(g)
    ensures |s| == 12
  {
    g[0] + g[1] + g[2]
  }

  lemma FlattenReshape(s: seq<real>)
    requires |s| == 12
    ensures Flatten(Reshape(s)) == s
  {
    assert s == s[0..4] + s[4..8] + s[8..12];
  }

  lemma ReshapeFlatten(g: Grid)
    requires IsGrid(g)
    ensures Reshape(Flatten(g)) == g
  {
    var s := Flatten(g);
    assert s[0..4] == g[0] && s[4..8] == g[1] && s[8..12] == g[2];
  }

  /** Samples numbered 0 .. 11 land as [[0,1,2,3],[4,5,6,7],[8,9,10,11]]. */
  lemma ReshapeOfIndices()
    ensures Reshape([0.0, 1.0, 2.0, 3.0, 4.0, 5.0, 6.0, 7.0, 8.0, 9.0, 10.0, 11.0])
         == [[0.0, 1.0, 2.0, 3.0], [4.0, 5.0, 6.0, 7.0], [8.0, 9.0, 10.0, 11.0]]
  {
    var s := [0.0, 1.0, 2.0, 3.0, 4.0, 5.0, 6.0, 7.0, 8.0, 9.0, 10.0, 11.0];
    assert s[0..4] == [0.0, 1.0, 2.0, 3.0];
    assert s[4..8] == [4.0, 5.0, 6.0, 7.0];
    assert s[8..12] == [8.0, 9.0, 10.0, 11.0];
  }

  /** Column q of the grid as a colour: the three channel values of quadrant q. */
  function Columns(g: Grid): (cs: seq<Color>)
    requires IsGrid(g)
    ensures |cs| == 4
    ensures forall q, k :: 0 <= q < 4 && 0 <= k < 3 ==> Channel(cs[q], k) == g[k][q]
  {
    seq(4, q requires 0 <= q < 4 => Color(g[0][q], g[1][q], g[2][q]))
  }

  /** Opacity in [0, 1] becomes a colour value in [-1, 1]; this is invertible. */
  function Rescale(v: real): (r: real)
    ensures (r + 1.0) / 2.0 == v
    ensures 0.0 <= v <= 1.0 <==> -1.0 <= r <= 1.0
  {
    v * 2.0 - 1.0
  }

  /** `grid * 2 - 1`, entry by entry. */
  function RescaleGrid(g: Grid): (r: Grid)
    requires IsGrid(g)
    ensures IsGrid(r)
    ensures forall c, q :: 0 <= c < 3 && 0 <= q < 4 ==> (r[c][q] + 1.0) / 2.0 == g[c][q]
  {
    seq(3, c requires 0 <= c < 3 => seq(4, q requires 0 <= q < 4 => Rescale(g[c][q])))
  }

  predicate AllInRange(s: seq<real>, lo: real, hi: real) {
    forall i :: 0 <= i < |s| ==> lo <= s[i] <= hi
  }

  /**
   * Opacity mode, end to end: sub-frame i of the projector (channel i / 4 of
   * quadrant i % 4) shows sample i, and every colour value stays in [0, 1].
   */
  lemma OpacityDelivery(s: seq<real>)
    requires |s| == 12
    ensures forall i :: 0 <= i < 12 ==> Channel(Columns(Reshape(s))[i % 4], i / 4) == s[i]
    ensures AllInRange(s, 0.0, 1.0) ==>
      forall q, k :: 0 <= q < 4 && 0 <= k < 3 ==> 0.0 <= Channel(Columns(Reshape(s))[q], k) <= 1.0
  {
    var g := Reshape(s);
    forall i | 0 <= i < 12
      ensures Channel(Columns(g)[i % 4], i / 4) == s[i]
    {
      assert Channel(Columns(g)[i % 4], i / 4) == g[i / 4][i % 4];
    }
  }

  /**
   * Luminance mode, end to end: sub-frame i shows sample i rescaled to
   * `2 * s[i] - 1`, and every colour value stays in [-1, 1].
   */
  lemma LuminanceDelivery(s: seq<real>)
    requires |s| == 12
    ensures forall i :: 0 <= i < 12 ==>
      Channel(Columns(RescaleGrid(Reshape(s)))[i % 4], i / 4) == 2.0 * s[i] - 1.0
    ensures AllInRange(s, 0.0, 1.0) ==>
      forall q, k :: 0 <= q < 4 && 0 <= k < 3 ==> -1.0 <= Channel(Columns(RescaleGrid(Reshape(s)))[q], k) <= 1.0
  {
    var g := Reshape(s);
    var r := RescaleGrid(g);
    forall i | 0 <= i < 12
      ensures Channel(Columns(r)[i % 4], i / 4) == 2.0 * s[i] - 1.0
    {
      assert Channel(Columns(r)[i % 4], i / 4) == r[i / 4][i % 4];
      assert g[i / 4][i % 4] == s[i];
    }
    if AllInRange(s, 0.0, 1.0) {
      forall q, k | 0 <= q < 4 && 0 <= k < 3
        ensures -1.0 <= Channel(Columns(r)[q], k) <= 1.0
      {
        assert g[k][q] == s[4 * k + q];
        assert 0.0 <= g[k][q] <= 1.0;
      }
    }
  }
}

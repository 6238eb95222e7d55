/**
 * Screen geometry of the Propixx quad mode. The projector shows the
 * 1920 x 1080 host frame as four 960 x 540 sub-frames, numbered
 *
 *     0 1
 *     2 3
 *
 * Positions are in pixels, with the origin at the centre of the screen,
 * x growing to the right and y growing upward. A stimulus placed in
 * sub-frame 0 is copied into the other three by fixed offsets.
 */
module Layout {
  datatype Pos = Pos(x: real, y: real)

  /** Resolution of the whole host frame. */
  const FullWidth: real := 1920.0
  const FullHeight: real := 1080.0

  /** Each sub-frame fills a quarter of the screen. */
  const FrameWidth: real := FullWidth / 2.0
  const FrameHeight: real := FullHeight / 2.0

  /** Column (0 left, 1 right) and row (0 top, 1 bottom) of quadrant q. */
  function QuadCol(q: nat): nat { q % 2 }
  function QuadRow(q: nat): nat { q / 2 }

  /**
   * The four positions of one logical stimulus: the base position, one frame
   * to the right, one frame down, and both.
   */
  function QuadLayout(p: Pos): (ps: seq<Pos>)
    ensures |ps| == 4
    ensures forall q :: 0 <= q < 4 ==>
      ps[q] == Pos(p.x + QuadCol(q) as real * FrameWidth, p.y - QuadRow(q) as real * FrameHeight)
  {
    [p,
     Pos(p.x + FrameWidth, p.y),
     Pos(p.x, p.y - FrameHeight),
     Pos(p.x + FrameWidth, p.y - FrameHeight)]
  }

  predicate OnScreen(p: Pos) {
    -FullWidth / 2.0 <= p.x < FullWidth / 2.0 && -FullHeight / 2.0 < p.y <= FullHeight / 2.0
  }

  /** The quadrant a point of the screen falls in. */
  function QuadrantOf(p: Pos): nat {
    (if p.y > 0.0 then 0 else 2) + (if p.x < 0.0 then 0 else 1)
  }

  /** Centre of quadrant q; that of quadrant 0 is (-480, 270). */
  function FrameCenter(q: nat): Pos {
    Pos(-FrameWidth / 2.0 + QuadCol(q) as real * FrameWidth,
        FrameHeight / 2.0 - QuadRow(q) as real * FrameHeight)
  }

  /** A point's position relative to the centre of its own quadrant. */
  function Local(p: Pos): Pos {
    var c := FrameCenter(QuadrantOf(p));
    Pos(p.x - c.x, p.y - c.y)
  }

  /**
   * A stimulus placed inside sub-frame 0 is copied so that copy q lies in
   * quadrant q, at the same place within that quadrant.
   */
  lemma QuadLayoutTiles(p: Pos)
    requires OnScreen(p) && QuadrantOf(p) == 0
    ensures forall q :: 0 <= q < 4 ==>
      OnScreen(QuadLayout(p)[q]) && QuadrantOf(QuadLayout(p)[q]) == q && Local(QuadLayout(p)[q]) == Local(p)
  {
  }
}

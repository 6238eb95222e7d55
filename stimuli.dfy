/**
 * Stimuli of the presentation layer, seen as plain records: the kind of
 * drawable, its position and its other attributes by name.
 */
module Stimuli {
  import opened Layout

  /** An RGB colour triple, one real per channel. */
  datatype Color = Color(r: real, g: real, b: real)

  /** Channel k of a colour: 0 red, 1 green, 2 blue. */
  function Channel(c: Color, k: nat): real
    requires k < 3
  {
    if k == 0 then c.r else if k == 1 then c.g else c.b
  }

  /** Attribute values a stimulus is constructed with or assigned. */
  datatype Value =
    | Coord(p: Pos)
    | Rgb(c: Color)
    | Size(w: nat, h: nat)
    | Ones(rows: nat, cols: nat)
    | Mask(m: seq<seq<int>>)
    | Window(background: Color)
    | Word(s: string)
    | Number(n: real)

  datatype Stim = Stim(kind: string, pos: Pos, attrs: map<string, Value>)

  /** The drawable built by `kind(**kwargs)`. */
  function Build(kind: string, kwargs: map<string, Value>): (s: Stim)
    requires "pos" in kwargs && kwargs["pos"].Coord?
    ensures s.pos == kwargs["pos"].p && s.kind == kind
    ensures "pos" !in s.attrs
    ensures forall a :: a in kwargs && a != "pos" ==> a in s.attrs && s.attrs[a] == kwargs[a]
  {
    Stim(kind, kwargs["pos"].p, kwargs - {"pos"})
  }

  /** Stimulus s after `s.color = c`. */
  function Recolored(s: Stim, c: Color): (r: Stim)
    ensures r.kind == s.kind && r.pos == s.pos
    ensures "color" in r.attrs && r.attrs["color"] == Rgb(c)
    ensures r.attrs - {"color"} == s.attrs - {"color"}
  {
    s.(attrs := s.attrs["color" := Rgb(c)])
  }

  /**
   * Stimuli ss after stimulus q is given colour cs[q], for every q: the
   * colours change and nothing else.
   */
  function Painted(ss: seq<Stim>, cs: seq<Color>): (r: seq<Stim>)
    requires |ss| == |cs|
    ensures |r| == |ss|
    ensures forall q :: 0 <= q < |r| ==>
      r[q].kind == ss[q].kind && r[q].pos == ss[q].pos &&
      "color" in r[q].attrs && r[q].attrs["color"] == Rgb(cs[q]) &&
      r[q].attrs - {"color"} == ss[q].attrs - {"color"}
  {
    seq(|ss|, q requires 0 <= q < |ss| => Recolored(ss[q], cs[q]))
  }

  function Positions(ss: seq<Stim>): (ps: seq<Pos>)
    ensures |ps| == |ss|
    ensures forall q :: 0 <= q < |ss| ==> ps[q] == ss[q].pos
  {
    seq(|ss|, q requires 0 <= q < |ss| => ss[q].pos)
  }
  /** All four copies share kind and attributes; they differ at most in position. */
  predicate Uniform(ss: seq<Stim>) {
    forall q, q' :: 0 <= q < |ss| && 0 <= q' < |ss| ==> ss[q].kind == ss[q'].kind && ss[q].attrs == ss[q'].attrs
  }

  /** The four copies moved to the quadrant positions of p, nothing else changed. */
  function Moved(ss: seq<Stim>, p: Pos): (r: seq<Stim>)
    requires |ss| == 4
    ensures |r| == 4 && Positions(r) == QuadLayout(p)
    ensures forall q :: 0 <= q < 4 ==> r[q].kind == ss[q].kind && r[q].attrs == ss[q].attrs
  {
    seq(4, q requires 0 <= q < 4 => ss[q].(pos := QuadLayout(p)[q]))
  }

  /** The four copies after `setattr(stim, a, v)` on each: all carry v for a, nothing else changed. */
  function Assigned(ss: seq<Stim>, a: string, v: Value): (r: seq<Stim>)
    requires |ss| == 4 && a != "pos"
    ensures |r| == 4 && Positions(r) == Positions(ss)
    ensures forall q :: 0 <= q < 4 ==>
      r[q].kind == ss[q].kind && a in r[q].attrs && r[q].attrs[a] == v &&
      r[q].attrs - {a} == ss[q].attrs - {a}
  {
    seq(4, q requires 0 <= q < 4 => ss[q].(attrs := ss[q].attrs[a := v]))
  }

  /** Moving to the same place twice is moving once. */
  lemma MovedTwice(ss: seq<Stim>, p: Pos)
    requires |ss| == 4
    ensures Moved(Moved(ss, p), p) == Moved(ss, p)
  {
  }

  /** Moving keeps the four copies identical apart from position. */
  lemma MovedKeepsUniform(ss: seq<Stim>, p: Pos)
    requires |ss| == 4 && Uniform(ss)
    ensures Uniform(Moved(ss, p))
  {
  }

  /** Broadcasting an attribute keeps the four copies identical apart from position. */
  lemma AssignedKeepsUniform(ss: seq<Stim>, a: string, v: Value)
    requires |ss| == 4 && Uniform(ss) && a != "pos"
    ensures Uniform(Assigned(ss, a, v))
  {
    var r := Assigned(ss, a, v);
    forall q, q' | 0 <= q < 4 && 0 <= q' < 4
      ensures r[q].attrs == r[q'].attrs
    {
      assert r[q].attrs == ss[q].attrs[a := v];
      assert r[q'].attrs == ss[q'].attrs[a := v];
    }
  }
}

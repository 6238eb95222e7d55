/**
 * The presentation layer as seen by the flicker stimuli: a global OpenGL
 * blend function and the ordered record of what was drawn and of every
 * change of blend function.
 */
module Presentation {
  import opened Stimuli

  datatype Factor = SrcAlpha | OneMinusSrcAlpha | DstColor | Zero

  /** A blend function: the factors for the source and the destination colour. */
  datatype Blend = Blend(src: Factor, dst: Factor)

  /** Ordinary alpha blending, the context's default. */
  const Default: Blend := Blend(SrcAlpha, OneMinusSrcAlpha)

  /** Destination multiplied by source, source discarded: a filter darkens what lies under it. */
  const Modulate: Blend := Blend(DstColor, Zero)

  datatype Event = Drew(stim: Stim) | SetBlend(blend: Blend)

  /** A stimulus drawn together with the blend function in force when it was drawn. */
  datatype Drawing = Drawing(stim: Stim, blend: Blend)

  /** Draw calls for the stimuli, in order. */
  function DrawAll(ss: seq<Stim>): (es: seq<Event>)
    ensures |es| == |ss|
    ensures forall i :: 0 <= i < |ss| ==> es[i] == Drew(ss[i])
  {
    if ss == [] then [] else [Drew(ss[0])] + DrawAll(ss[1..])
  }

  /** The blend function in force after the events, starting from b. */
  function BlendAfter(b: Blend, es: seq<Event>): Blend
    decreases |es|
  {
    if es == [] then b
    else match es[0]
      case Drew(_) => BlendAfter(b, es[1..])
      case SetBlend(b') => BlendAfter(b', es[1..])
  }

  /** Everything drawn by the events, each with the blend function it was drawn under. */
  function DrawnUnder(b: Blend, es: seq<Event>): seq<Drawing>
    decreases |es|
  {
    if es == [] then []
    else match es[0]
      case Drew(s) => [Drawing(s, b)] + DrawnUnder(b, es[1..])
      case SetBlend(b') => DrawnUnder(b', es[1..])
  }

  /** The stimuli, all drawn under blend function b. */
  function AllUnder(ss: seq<Stim>, b: Blend): (ds: seq<Drawing>)
    ensures |ds| == |ss|
    ensures forall i :: 0 <= i < |ss| ==> ds[i] == Drawing(ss[i], b)
  {
    seq(|ss|, i requires 0 <= i < |ss| => Drawing(ss[i], b))
  }

  lemma {:induction false} BlendAfterAppend(b: Blend, es: seq<Event>, fs: seq<Event>)
    ensures BlendAfter(b, es + fs) == BlendAfter(BlendAfter(b, es), fs)
    decreases |es|
  {
    if es == [] {
      assert es + fs == fs;
    } else {
      assert (es + fs)[0] == es[0];
      assert (es + fs)[1..] == es[1..] + fs;
      match es[0]
      case Drew(_) => BlendAfterAppend(b, es[1..], fs);
      case SetBlend(b') => BlendAfterAppend(b', es[1..], fs);
    }
  }

  lemma {:induction false} DrawnUnderAppend(b: Blend, es: seq<Event>, fs: seq<Event>)
    ensures DrawnUnder(b, es + fs) == DrawnUnder(b, es) + DrawnUnder(BlendAfter(b, es), fs)
    decreases |es|
  {
    if es == [] {
      assert es + fs == fs;
    } else {
      assert (es + fs)[0] == es[0];
      assert (es + fs)[1..] == es[1..] + fs;
      match es[0]
      case Drew(_) => DrawnUnderAppend(b, es[1..], fs);
      case SetBlend(b') => DrawnUnderAppend(b', es[1..], fs);
    }
  }

  /** Drawing never changes the blend function, and every stimulus is drawn under the one in force. */
  lemma {:induction false} DrawAllUnder(b: Blend, ss: seq<Stim>)
    ensures BlendAfter(b, DrawAll(ss)) == b
    ensures DrawnUnder(b, DrawAll(ss)) == AllUnder(ss, b)
  {
    if ss != [] {
      DrawAllUnder(b, ss[1..]);
      assert DrawAll(ss)[1..] == DrawAll(ss[1..]);
    }
  }

  /**
   * The events of one luminance-mode draw: the stimuli, a switch to the
   * modulating blend, the filters, the switch back to the default, and the
   * masks when there are any.
   */
  function LuminanceTrace(base: seq<Stim>, filters: seq<Stim>, masks: seq<Stim>, masked: bool): seq<Event> {
    DrawAll(base) + [SetBlend(Modulate)] + DrawAll(filters) + [SetBlend(Default)]
      + (if masked then DrawAll(masks) else [])
  }

  /** Where each event of a luminance-mode draw sits in its trace. */
  lemma LuminanceTraceOrder(base: seq<Stim>, filters: seq<Stim>, masks: seq<Stim>, masked: bool)
    ensures var t := LuminanceTrace(base, filters, masks, masked);
      |t| == |base| + 1 + |filters| + 1 + (if masked then |masks| else 0) &&
      (forall i :: 0 <= i < |base| ==> t[i] == Drew(base[i])) &&
      t[|base|] == SetBlend(Modulate) &&
      (forall i :: 0 <= i < |filters| ==> t[|base| + 1 + i] == Drew(filters[i])) &&
      t[|base| + 1 + |filters|] == SetBlend(Default) &&
      (masked ==> forall i :: 0 <= i < |masks| ==> t[|base| + 2 + |filters| + i] == Drew(masks[i]))
  {
  }

  /** The luminance-mode events appended one group at a time to an earlier trace. */
  lemma AppendLuminanceTrace(t: seq<Event>, base: seq<Stim>, filters: seq<Stim>, masks: seq<Stim>, masked: bool)
    ensures t + DrawAll(base) + [SetBlend(Modulate)] + DrawAll(filters) + [SetBlend(Default)]
          + (if masked then DrawAll(masks) else [])
         == t + LuminanceTrace(base, filters, masks, masked)
  {
  }

  /** The masks' part of a luminance-mode draw, if any, under the default blend. */
  function MaskPart(masks: seq<Stim>, masked: bool): seq<Drawing> {
    if masked then AllUnder(masks, Default) else []
  }

  /** After the filters: restoring the default blend, then the masks if any. */
  lemma RestoreThenMasks(b: Blend, masks: seq<Stim>, masked: bool)
    ensures var tail := [SetBlend(Default)] + (if masked then DrawAll(masks) else []);
      BlendAfter(b, tail) == Default && DrawnUnder(b, tail) == MaskPart(masks, masked)
  {
    var e5 := if masked then DrawAll(masks) else [];
    var tail := [SetBlend(Default)] + e5;
    DrawAllUnder(Default, masks);
    assert tail[1..] == e5;
  }

  /** From the switch to the modulating blend onward. */
  lemma ModulateThenRest(b: Blend, filters: seq<Stim>, masks: seq<Stim>, masked: bool)
    ensures var mid := [SetBlend(Modulate)] + (DrawAll(filters) + ([SetBlend(Default)] + (if masked then DrawAll(masks) else [])));
      BlendAfter(b, mid) == Default &&
      DrawnUnder(b, mid) == AllUnder(filters, Modulate) + MaskPart(masks, masked)
  {
    var e3 := DrawAll(filters);
    var tail := [SetBlend(Default)] + (if masked then DrawAll(masks) else []);
    var rest := e3 + tail;
    var mid := [SetBlend(Modulate)] + rest;
    DrawAllUnder(Modulate, filters);
    RestoreThenMasks(Modulate, masks, masked);
    BlendAfterAppend(Modulate, e3, tail);
    DrawnUnderAppend(Modulate, e3, tail);
    assert mid[1..] == rest;
  }

  /** The luminance-mode events as the stimuli followed by everything from the blend switch on. */
  lemma LuminanceTraceSplit(base: seq<Stim>, filters: seq<Stim>, masks: seq<Stim>, masked: bool)
    ensures LuminanceTrace(base, filters, masks, masked)
         == DrawAll(base) + ([SetBlend(Modulate)] + (DrawAll(filters) + ([SetBlend(Default)] + (if masked then DrawAll(masks) else []))))
  {
  }

  /**
   * Whatever the blend function before a luminance-mode draw, the stimuli
   * are drawn under it, the filters under the modulating blend, the masks
   * (if any) under the default, and the default is in force afterwards.
   */
  lemma LuminanceTraceBlending(b: Blend, base: seq<Stim>, filters: seq<Stim>, masks: seq<Stim>, masked: bool)
    ensures BlendAfter(b, LuminanceTrace(base, filters, masks, masked)) == Default
    ensures DrawnUnder(b, LuminanceTrace(base, filters, masks, masked))
         == AllUnder(base, b) + AllUnder(filters, Modulate) + MaskPart(masks, masked)
  {
    var e1 := DrawAll(base);
    var mid := [SetBlend(Modulate)] + (DrawAll(filters) + ([SetBlend(Default)] + (if masked then DrawAll(masks) else [])));
    LuminanceTraceSplit(base, filters, masks, masked);
    DrawAllUnder(b, base);
    ModulateThenRest(BlendAfter(b, e1), filters, masks, masked);
    BlendAfterAppend(b, e1, mid);
    DrawnUnderAppend(b, e1, mid);
  }

  /** The graphics context: the blend function in force and everything issued so far. */
  class Gl {
    var blend: Blend
    var trace: seq<Event>
    ghost const initial: Blend

    ghost predicate Valid()
      reads this
    {
      blend == BlendAfter(initial, trace)
    }

    constructor ()
      ensures Valid() && blend == Default && trace == []
    {
      blend := Default;
      trace := [];
      initial := Default;
    }

    /** `glBlendFunc(src, dst)`. */
    method BlendFunc(src: Factor, dst: Factor)
      requires Valid()
      modifies this
      ensures Valid() && blend == Blend(src, dst)
      ensures trace == old(trace) + [SetBlend(Blend(src, dst))]
    {
      BlendAfterAppend(initial, trace, [SetBlend(Blend(src, dst))]);
      blend := Blend(src, dst);
      trace := trace + [SetBlend(blend)];
    }

    /** `stim.draw()`. */
    method Draw(s: Stim)
      requires Valid()
      modifies this
      ensures Valid() && blend == old(blend)
      ensures trace == old(trace) + [Drew(s)]
    {
      BlendAfterAppend(initial, trace, [Drew(s)]);
      trace := trace + [Drew(s)];
    }
  }
}

/**
 * Flickering stimuli for the Propixx projector in its 1440 Hz mode: a
 * stimulus is tiled over the four quadrants of the host frame and, on each
 * host frame, twelve samples of an oscillator are packed into the colour
 * channels of the four copies (opacity mode) or of four filter overlays
 * drawn over them (luminance mode).
 *
 * The module-level frame-rate state becomes a Session object, drawables are
 * Stim records, and the waveform `0.5 * (1 + cos(phase))` is a parameter of
 * the oscillator whose only known property is its range.
 */
module PropixxFlicker {
  import opened Wrappers
  import opened Layout
  import opened Stimuli
  import opened Phase
  import opened Multiplexer
  import opened CircleMask
  import opened Presentation

  datatype FlickerError =
    | NegativeFrequency  // the assertion in flicker() fails
    | ZeroFrameRate      // flicker() divides by a frame rate init() never set
    | UnsupportedMask    // luminance mode with a mask other than 'circle'

  /** Whether the projector was switched to 1440 Hz, and the host frame rate. */
  class Session {
    var propixxOn: bool
    var outputFrameRate: nat

    constructor ()
      ensures !propixxOn && outputFrameRate == 0
    {
      propixxOn := false;
      outputFrameRate := 0;
    }

    /** `init(use_propixx)`: the projector mode switch itself is external. */
    method Init(usePropixx: bool := true)
      modifies this
      ensures usePropixx ==> propixxOn && outputFrameRate == 120
      ensures !usePropixx ==> propixxOn == old(propixxOn) && outputFrameRate == 60
    {
      if usePropixx {
        propixxOn := true;
        outputFrameRate := 120;
      } else {
        outputFrameRate := 60;
      }
    }
  }

  /** The oscillator's fields: the flag, the phase, the frequency in Hz and the increment per sub-frame. */
  datatype OscState = OscState(flickering: bool, phase: real, flickerFreq: real, freq: real)

  datatype Armed = Armed(state: OscState, err: Option<FlickerError>)

  /**
   * `flicker(f)` on oscillator state s with host frame rate `rate`. A
   * negative frequency is refused before any field is touched. Otherwise the
   * phase restarts at 0 and the frequency is recorded; with a frame rate of
   * 0 the division fails at that point, leaving the increment and the flag
   * as they were; else the increment makes `f` full turns per second of
   * `12 * rate` sub-frames and the oscillator flickers exactly when f > 0.
   */
  function Arm(s: OscState, f: real, rate: nat): (a: Armed)
    ensures a.err == Some(NegativeFrequency) <==> f < 0.0
    ensures a.err == None <==> f >= 0.0 && rate > 0
    ensures f < 0.0 ==> a.state == s
    ensures f >= 0.0 ==> a.state.phase == 0.0 && a.state.flickerFreq == f
    ensures f >= 0.0 && rate == 0 ==>
      a.err == Some(ZeroFrameRate) && a.state.freq == s.freq && a.state.flickering == s.flickering
    ensures a.err == None ==>
      a.state.flickering == (f > 0.0) && a.state.freq >= 0.0 &&
      a.state.freq * (SubFrames * rate) as real == f * TwoPi
  {
    if f < 0.0 then Armed(s, Some(NegativeFrequency))
    else
      var reset := s.(phase := 0.0, flickerFreq := f);
      if rate == 0 then Armed(reset, Some(ZeroFrameRate))
      else Armed(reset.(freq := Increment(f, rate), flickering := f > 0.0), None)
  }

  /** The oscillator and the multiplexer driving it. */
  class Oscillator {
    var flickering: bool
    var phase: real
    var flickerFreq: real
    var freq: real
    const wave: real -> real

    function State(): OscState
      reads this
    {
      OscState(flickering, phase, flickerFreq, freq)
    }

    ghost predicate Valid()
      reads this
    {
      0.0 <= phase < TwoPi && WaveformInRange(wave)
    }

    constructor (wave: real -> real)
      requires WaveformInRange(wave)
      ensures Valid() && this.wave == wave
      ensures State() == OscState(false, 0.0, 0.0, 0.0)
    {
      flickering := false;
      phase := 0.0;
      flickerFreq := 0.0;
      freq := 0.0;
      this.wave := wave;
    }

    /** `flicker(f)`, reading the frame rate from the session. */
    method Flicker(f: real, rate: nat) returns (err: Option<FlickerError>)
      requires Valid()
      modifies this
      ensures Valid()
      ensures State() == Arm(old(State()), f, rate).state
      ensures err == Arm(old(State()), f, rate).err
    {
      if f < 0.0 {
        return Some(NegativeFrequency);
      }
      phase := 0.0;
      flickerFreq := f;
      if rate == 0 {
        return Some(ZeroFrameRate);
      }
      freq := flickerFreq * TwoPi / rate as real / 12.0;
      flickering := flickerFreq > 0.0;
      err := None;
    }

    /** `_next()`: advance and wrap the phase, then sample the waveform there. */
    method Next() returns (v: real)
      requires Valid()
      modifies this`phase
      ensures Valid()
      ensures phase == Wrap(old(phase) + freq)
      ensures v == wave(phase) && 0.0 <= v <= 1.0
    {
      phase := phase + freq;
      phase := Wrap(phase);
      v := wave(phase);
    }

    /**
     * The sampling half of `_multiplex()`: nothing when the oscillator is
     * idle; otherwise twelve samples, in order, packed into the channel x
     * quadrant grid.
     */
    method Cycle() returns (grid: Option<Grid>)
      requires Valid()
      modifies this`phase
      ensures Valid()
      ensures !flickering ==> grid == None && phase == old(phase)
      ensures flickering ==>
        phase == PhaseAfter(old(phase), freq, SubFrames) &&
        grid == Some(Reshape(Samples(wave, old(phase), freq, SubFrames)))
    {
      if !flickering {
        return None;
      }
      var samples: seq<real> := [];
      var i := 0;
      while i < SubFrames
        invariant 0 <= i <= SubFrames
        invariant Valid()
        invariant phase == PhaseAfter(old(phase), freq, i)
        invariant samples == Samples(wave, old(phase), freq, i)
      {
        var v := Next();
        samples := samples + [v];
        i := i + 1;
      }
      grid := Some(Reshape(samples));
    }
  }

  /** One drawable copied into the four quadrants. */
  class QuadStim {
    var stimuli: seq<Stim>

    ghost predicate Valid()
      reads this
    {
      |stimuli| == 4
    }

    /** Four drawables of `kind` built from kwargs, moved to their quadrant positions. */
    constructor (kind: string, kwargs: map<string, Value>)
      requires "pos" in kwargs && kwargs["pos"].Coord?
      ensures Valid() && Uniform(stimuli)
      ensures stimuli == Moved(seq(4, _ => Build(kind, kwargs)), kwargs["pos"].p)
    {
      stimuli := seq(4, _ => Build(kind, kwargs));
      new;
      SetPos(kwargs["pos"].p);
    }

    /** `set_pos(p)`: copy q goes to quadrant q's offset from p. */
    method SetPos(p: Pos)
      requires Valid()
      modifies this
      ensures Valid()
      ensures stimuli == Moved(old(stimuli), p)
      ensures Uniform(old(stimuli)) ==> Uniform(stimuli)
    {
      stimuli := stimuli[0 := stimuli[0].(pos := p)];
      stimuli := stimuli[1 := stimuli[1].(pos := Pos(p.x + FrameWidth, p.y))];
      stimuli := stimuli[2 := stimuli[2].(pos := Pos(p.x, p.y - FrameHeight))];
      stimuli := stimuli[3 := stimuli[3].(pos := Pos(p.x + FrameWidth, p.y - FrameHeight))];
      if Uniform(old(stimuli)) {
        MovedKeepsUniform(old(stimuli), p);
      }
    }

    /** `draw()`: the four copies, in quadrant order. */
    method Draw(gl: Gl)
      requires Valid() && gl.Valid()
      modifies gl
      ensures gl.Valid() && gl.blend == old(gl.blend)
      ensures gl.trace == old(gl.trace) + DrawAll(stimuli)
    {
      for i := 0 to 4
        invariant gl.Valid() && gl.blend == old(gl.blend)
        invariant gl.trace == old(gl.trace) + DrawAll(stimuli[..i])
      {
        gl.Draw(stimuli[i]);
        assert DrawAll(stimuli[..i + 1]) == DrawAll(stimuli[..i]) + [Drew(stimuli[i])];
      }
      assert stimuli[..4] == stimuli;
    }

    /** `set(attr, value)`: a position is laid out; any other attribute goes to all four copies. */
    method Set(attr: string, value: Value)
      requires Valid()
      requires attr == "pos" ==> value.Coord?
      modifies this
      ensures Valid()
      ensures attr == "pos" ==> stimuli == Moved(old(stimuli), value.p)
      ensures attr != "pos" ==> stimuli == Assigned(old(stimuli), attr, value)
      ensures Uniform(old(stimuli)) ==> Uniform(stimuli)
    {
      if attr == "pos" {
        SetPos(value.p);
      } else {
        for i := 0 to 4
          invariant |stimuli| == 4
          invariant forall q :: 0 <= q < i ==> stimuli[q] == old(stimuli[q]).(attrs := old(stimuli[q]).attrs[attr := value])
          invariant forall q :: i <= q < 4 ==> stimuli[q] == old(stimuli[q])
        {
          stimuli := stimuli[i := stimuli[i].(attrs := stimuli[i].attrs[attr := value])];
        }
        if Uniform(old(stimuli)) {
          AssignedKeepsUniform(old(stimuli), attr, value);
        }
      }
    }
  }

  /** The colours one multiplexer cycle gives the four quadrants in opacity mode. */
  function OpacityColors(wave: real -> real, phase: real, freq: real): (cs: seq<Color>)
    ensures |cs| == 4
    ensures forall i :: 0 <= i < 12 ==>
      Channel(cs[i % 4], i / 4) == wave(PhaseAfter(phase, freq, i + 1))
  {
    var s := Samples(wave, phase, freq, SubFrames);
    OpacityDelivery(s);
    Columns(Reshape(s))
  }

  /** The filter colours one multiplexer cycle gives the four quadrants in luminance mode. */
  function LuminanceColors(wave: real -> real, phase: real, freq: real): (cs: seq<Color>)
    ensures |cs| == 4
    ensures forall i :: 0 <= i < 12 ==>
      Channel(cs[i % 4], i / 4) == 2.0 * wave(PhaseAfter(phase, freq, i + 1)) - 1.0
  {
    var s := Samples(wave, phase, freq, SubFrames);
    LuminanceDelivery(s);
    Columns(RescaleGrid(Reshape(s)))
  }

  /** A stimulus whose opacity flickers: its copies' colours carry the sub-frame samples. */
  class OpacityFlickerStim {
    const base: QuadStim
    const osc: Oscillator

    ghost predicate Valid()
      reads this, base, osc
    {
      base.Valid() && osc.Valid()
    }

    constructor (kind: string, kwargs: map<string, Value>, wave: real -> real)
      requires "pos" in kwargs && kwargs["pos"].Coord?
      requires WaveformInRange(wave)
      ensures Valid() && fresh(base) && fresh(osc)
      ensures base.stimuli == Moved(seq(4, _ => Build(kind, kwargs)), kwargs["pos"].p)
      ensures osc.wave == wave && osc.State() == OscState(false, 0.0, 0.0, 0.0)
    {
      base := new QuadStim(kind, kwargs);
      osc := new Oscillator(wave);
    }

    method SetPos(p: Pos)
      requires Valid()
      modifies base
      ensures Valid()
      ensures base.stimuli == Moved(old(base.stimuli), p)
    {
      base.SetPos(p);
    }

    method Set(attr: string, value: Value)
      requires Valid()
      requires attr == "pos" ==> value.Coord?
      modifies base
      ensures Valid()
      ensures attr == "pos" ==> base.stimuli == Moved(old(base.stimuli), value.p)
      ensures attr != "pos" ==> base.stimuli == Assigned(old(base.stimuli), attr, value)
    {
      base.Set(attr, value);
    }

    method Flicker(session: Session, f: real := 0.0) returns (err: Option<FlickerError>)
      requires Valid()
      modifies osc
      ensures Valid()
      ensures osc.State() == Arm(old(osc.State()), f, session.outputFrameRate).state
      ensures err == Arm(old(osc.State()), f, session.outputFrameRate).err
    {
      err := osc.Flicker(f, session.outputFrameRate);
    }

    /** `_assign_mux_colors(g)`: quadrant q takes column q of the grid as its colour. */
    method AssignMuxColors(g: Grid)
      requires Valid() && IsGrid(g)
      modifies base
      ensures Valid()
      ensures base.stimuli == Painted(old(base.stimuli), Columns(g))
    {
      var colors := Columns(g);
      for q := 0 to 4
        invariant |base.stimuli| == 4
        invariant forall k :: 0 <= k < q ==> base.stimuli[k] == Recolored(old(base.stimuli[k]), colors[k])
        invariant forall k :: q <= k < 4 ==> base.stimuli[k] == old(base.stimuli[k])
      {
        base.stimuli := base.stimuli[q := Recolored(base.stimuli[q], colors[q])];
      }
    }

    /** `_multiplex()`: frozen when idle, otherwise one cycle's colours. */
    method Multiplex()
      requires Valid()
      modifies base, osc`phase
      ensures Valid()
      ensures !old(osc.flickering) ==> base.stimuli == old(base.stimuli) && osc.phase == old(osc.phase)
      ensures old(osc.flickering) ==>
        osc.phase == PhaseAfter(old(osc.phase), osc.freq, SubFrames) &&
        base.stimuli == Painted(old(base.stimuli), OpacityColors(osc.wave, old(osc.phase), osc.freq))
    {
      var grid := osc.Cycle();
      if grid.Some? {
        AssignMuxColors(grid.value);
      }
    }

    /** `draw()`: multiplex, then draw the four copies. */
    method Draw(gl: Gl)
      requires Valid() && gl.Valid()
      modifies base, osc`phase, gl
      ensures Valid() && gl.Valid() && gl.blend == old(gl.blend)
      ensures !old(osc.flickering) ==> base.stimuli == old(base.stimuli) && osc.phase == old(osc.phase)
      ensures old(osc.flickering) ==>
        osc.phase == PhaseAfter(old(osc.phase), osc.freq, SubFrames) &&
        base.stimuli == Painted(old(base.stimuli), OpacityColors(osc.wave, old(osc.phase), osc.freq))
      ensures gl.trace == old(gl.trace) + DrawAll(base.stimuli)
    {
      Multiplex();
      base.Draw(gl);
    }
  }

  /** kwargs of the filter overlays: the stimulus's own, with a blank image of its size. */
  function FilterParams(kwargs: map<string, Value>): (r: map<string, Value>)
    requires "size" in kwargs && kwargs["size"].Size?
    ensures r.Keys == kwargs.Keys + {"image"}
    ensures r["image"] == Ones(kwargs["size"].w, kwargs["size"].h)
    ensures forall k :: k in kwargs && k != "image" ==> r[k] == kwargs[k]
  {
    kwargs["image" := Ones(kwargs["size"].w, kwargs["size"].h)]
  }

  /**
   * kwargs of the mask overlays: a blank image of the stimulus's size, in the
   * window's background colour, cut by the inverted circle mask.
   */
  function MaskParams(kwargs: map<string, Value>): (r: map<string, Value>)
    requires "size" in kwargs && kwargs["size"].Size?
    requires "win" in kwargs && kwargs["win"].Window?
    ensures r.Keys == kwargs.Keys + {"image", "color", "mask"}
    ensures r["image"] == Ones(kwargs["size"].w, kwargs["size"].h)
    ensures r["color"] == Rgb(kwargs["win"].background)
    ensures r["mask"] == Mask(InvCircleMask(kwargs["size"].w))
    ensures forall k :: k in kwargs && k !in {"image", "color", "mask"} ==> r[k] == kwargs[k]
  {
    kwargs["image" := Ones(kwargs["size"].w, kwargs["size"].h)]
          ["color" := Rgb(kwargs["win"].background)]
          ["mask" := Mask(InvCircleMask(kwargs["size"].w))]
  }

  /** Luminance mode accepts no mask, or a circular one. */
  predicate MaskSupported(kwargs: map<string, Value>): (ok: bool)
    ensures "mask" !in kwargs ==> ok
    ensures "mask" in kwargs && kwargs["mask"] == Word("circle") ==> ok
    ensures !ok ==> "mask" in kwargs && kwargs["mask"] != Word("circle")
  {
    "mask" in kwargs ==> kwargs["mask"] == Word("circle")
  }

  /**
   * A stimulus whose luminance flickers: filter overlays drawn over it with a
   * modulating blend carry the sub-frame samples, and an optional circular
   * mask restores its round edge.
   */
  class BrightnessFlickerStim {
    const base: QuadStim
    const osc: Oscillator
    const filters: QuadStim
    const masks: QuadStim?
    const masked: bool

    ghost predicate Valid()
      reads this, base, osc, filters, masks
    {
      base.Valid() && osc.Valid() && filters.Valid() &&
      base != filters &&
      (masked <==> masks != null) &&
      (masks != null ==> masks.Valid() && masks != base && masks != filters)
    }

    /** The mask copies, or none. */
    function MaskStimuli(): seq<Stim>
      reads this, masks
    {
      if masks == null then [] else masks.stimuli
    }

    /**
     * The filters (and the mask, and the masked flag) are set up before the
     * stimulus itself is placed, so that placing it also places them.
     */
    constructor (kind: string, kwargs: map<string, Value>, wave: real -> real)
      requires "pos" in kwargs && kwargs["pos"].Coord?
      requires "size" in kwargs && kwargs["size"].Size?
      requires MaskSupported(kwargs)
      requires "mask" in kwargs ==> "win" in kwargs && kwargs["win"].Window?
      requires WaveformInRange(wave)
      ensures Valid() && fresh(base) && fresh(osc) && fresh(filters)
      ensures masked == ("mask" in kwargs) && (masks != null ==> fresh(masks))
      ensures base.stimuli == Moved(seq(4, _ => Build(kind, kwargs)), kwargs["pos"].p)
      ensures filters.stimuli == Moved(seq(4, _ => Build("ImageStim", FilterParams(kwargs))), kwargs["pos"].p)
      ensures masked ==> MaskStimuli() == Moved(seq(4, _ => Build("ImageStim", MaskParams(kwargs))), kwargs["pos"].p)
      ensures osc.wave == wave && osc.State() == OscState(false, 0.0, 0.0, 0.0)
    {
      filters := new QuadStim("ImageStim", FilterParams(kwargs));
      if "mask" in kwargs {
        masked := true;
        masks := new QuadStim("ImageStim", MaskParams(kwargs));
      } else {
        masked := false;
        masks := null;
      }
      base := new QuadStim(kind, kwargs);
      osc := new Oscillator(wave);
      new;
      var p := kwargs["pos"].p;
      ghost var built := seq(4, _ => Build(kind, kwargs));
      ghost var filterBuilt := seq(4, _ => Build("ImageStim", FilterParams(kwargs)));
      SetPos(p);
      MovedTwice(built, p);
      MovedTwice(filterBuilt, p);
      if masked {
        MovedTwice(seq(4, _ => Build("ImageStim", MaskParams(kwargs))), p);
      }
    }

    /** `set_pos(p)`: the stimulus, its filters and, when masked, its masks, all at the same quadrant positions. */
    method SetPos(p: Pos)
      requires Valid()
      modifies base, filters, masks
      ensures Valid()
      ensures base.stimuli == Moved(old(base.stimuli), p)
      ensures filters.stimuli == Moved(old(filters.stimuli), p)
      ensures masked ==> MaskStimuli() == Moved(old(MaskStimuli()), p)
    {
      base.SetPos(p);
      filters.SetPos(p);
      if masked {
        masks.SetPos(p);
      }
    }

    /** The inherited `set`: a position goes through the cascading `set_pos`, anything else to the stimulus only. */
    method Set(attr: string, value: Value)
      requires Valid()
      requires attr == "pos" ==> value.Coord?
      modifies base, filters, masks
      ensures Valid()
      ensures attr == "pos" ==>
        base.stimuli == Moved(old(base.stimuli), value.p) &&
        filters.stimuli == Moved(old(filters.stimuli), value.p) &&
        (masked ==> MaskStimuli() == Moved(old(MaskStimuli()), value.p))
      ensures attr != "pos" ==>
        base.stimuli == Assigned(old(base.stimuli), attr, value) &&
        filters.stimuli == old(filters.stimuli) && MaskStimuli() == old(MaskStimuli())
    {
      if attr == "pos" {
        SetPos(value.p);
      } else {
        base.Set(attr, value);
      }
    }

    method Flicker(session: Session, f: real := 0.0) returns (err: Option<FlickerError>)
      requires Valid()
      modifies osc
      ensures Valid()
      ensures osc.State() == Arm(old(osc.State()), f, session.outputFrameRate).state
      ensures err == Arm(old(osc.State()), f, session.outputFrameRate).err
    {
      err := osc.Flicker(f, session.outputFrameRate);
    }

    /** `_assign_mux_colors(g)`: the grid rescaled to [-1, 1]; filter q takes column q. */
    method AssignMuxColors(g: Grid)
      requires Valid() && IsGrid(g)
      modifies filters
      ensures Valid()
      ensures filters.stimuli == Painted(old(filters.stimuli), Columns(RescaleGrid(g)))
    {
      var colors := Columns(RescaleGrid(g));
      for q := 0 to 4
        invariant |filters.stimuli| == 4
        invariant forall k :: 0 <= k < q ==> filters.stimuli[k] == Recolored(old(filters.stimuli[k]), colors[k])
        invariant forall k :: q <= k < 4 ==> filters.stimuli[k] == old(filters.stimuli[k])
      {
        filters.stimuli := filters.stimuli[q := Recolored(filters.stimuli[q], colors[q])];
      }
    }

    /** The inherited `_multiplex()`, dispatching to this class's colour assignment. */
    method Multiplex()
      requires Valid()
      modifies filters, osc`phase
      ensures Valid()
      ensures !old(osc.flickering) ==> filters.stimuli == old(filters.stimuli) && osc.phase == old(osc.phase)
      ensures old(osc.flickering) ==>
        osc.phase == PhaseAfter(old(osc.phase), osc.freq, SubFrames) &&
        filters.stimuli == Painted(old(filters.stimuli), LuminanceColors(osc.wave, old(osc.phase), osc.freq))
    {
      var grid := osc.Cycle();
      if grid.Some? {
        AssignMuxColors(grid.value);
      }
    }

    /**
     * `draw()`: multiplex; draw the stimulus; switch to the modulating blend;
     * draw the filters; restore the default blend; draw the masks if any.
     */
    method Draw(gl: Gl)
      requires Valid() && gl.Valid()
      modifies filters, osc`phase, gl
      ensures Valid() && gl.Valid()
      ensures base.stimuli == old(base.stimuli) && MaskStimuli() == old(MaskStimuli())
      ensures !old(osc.flickering) ==> filters.stimuli == old(filters.stimuli) && osc.phase == old(osc.phase)
      ensures old(osc.flickering) ==>
        osc.phase == PhaseAfter(old(osc.phase), osc.freq, SubFrames) &&
        filters.stimuli == Painted(old(filters.stimuli), LuminanceColors(osc.wave, old(osc.phase), osc.freq))
      ensures gl.trace == old(gl.trace) + LuminanceTrace(base.stimuli, filters.stimuli, MaskStimuli(), masked)
      ensures gl.blend == Default
    {
      Multiplex();
      ghost var t0 := gl.trace;
      ghost var b := DrawAll(base.stimuli);
      ghost var f := DrawAll(filters.stimuli);
      base.Draw(gl);
      assert gl.trace == t0 + b;
      gl.BlendFunc(DstColor, Zero);
      assert gl.trace == t0 + b + [SetBlend(Modulate)];
      filters.Draw(gl);
      assert gl.trace == t0 + b + [SetBlend(Modulate)] + f;
      gl.BlendFunc(SrcAlpha, OneMinusSrcAlpha);
      ghost var t1 := gl.trace;
      assert t1 == t0 + b + [SetBlend(Modulate)] + f + [SetBlend(Default)];
      if masked {
        masks.Draw(gl);
      }
      assert gl.trace == t1 + (if masked then DrawAll(MaskStimuli()) else []);
      AppendLuminanceTrace(t0, base.stimuli, filters.stimuli, MaskStimuli(), masked);
    }
  }

  /**
   * Luminance-mode construction: refused with UnsupportedMask, before any
   * drawing, when the mask is anything but 'circle'.
   */
  method NewBrightnessFlickerStim(kind: string, kwargs: map<string, Value>, wave: real -> real)
    returns (r: Result<BrightnessFlickerStim, FlickerError>)
    requires "pos" in kwargs && kwargs["pos"].Coord?
    requires "size" in kwargs && kwargs["size"].Size?
    requires "mask" in kwargs && kwargs["mask"] == Word("circle") ==> "win" in kwargs && kwargs["win"].Window?
    requires WaveformInRange(wave)
    ensures r.Err? <==> !MaskSupported(kwargs)
    ensures r.Err? ==> r.error == UnsupportedMask
    ensures r.Ok? ==> fresh(r.value) && r.value.Valid() && r.value.masked == ("mask" in kwargs)
    ensures r.Ok? ==> fresh(r.value.base) && fresh(r.value.osc) && fresh(r.value.filters)
    ensures r.Ok? && r.value.masks != null ==> fresh(r.value.masks)
    ensures r.Ok? ==> r.value.base.stimuli == Moved(seq(4, _ => Build(kind, kwargs)), kwargs["pos"].p)
    ensures r.Ok? ==> r.value.filters.stimuli == Moved(seq(4, _ => Build("ImageStim", FilterParams(kwargs))), kwargs["pos"].p)
    ensures r.Ok? && r.value.masked ==>
      r.value.MaskStimuli() == Moved(seq(4, _ => Build("ImageStim", MaskParams(kwargs))), kwargs["pos"].p)
    ensures r.Ok? ==> r.value.osc.wave == wave && r.value.osc.State() == OscState(false, 0.0, 0.0, 0.0)
  {
    if !MaskSupported(kwargs) {
      return Err(UnsupportedMask);
    }
    var stim := new BrightnessFlickerStim(kind, kwargs, wave);
    r := Ok(stim);
  }
}

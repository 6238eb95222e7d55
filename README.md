# Propixx flicker: a verified model of the sub-frame multiplexing engine

`propixx_flicker.py` drives a Propixx projector in its 1440 Hz mode. Each host
frame (120 Hz) is split by the projector into twelve grey-scale sub-frames.
Each of the four screen quadrants carries one sub-frame in each of its three
colour channels. The projector shows them with the colour channel as the outer
loop and the quadrant as the inner loop. To make a stimulus flicker at an
arbitrary frequency, the code does four things:

- it tiles the stimulus over the four quadrants (`QuadStim`);
- on every draw, while the stimulus is flickering, it advances an oscillator
  twelve times (`_next`); an idle stimulus keeps its phase and colours;
- it packs the twelve samples into a 3 x 4 channel x quadrant grid (`_multiplex`);
- it turns column q of the grid into a colour. In opacity mode that colour goes
  to quadrant q's copy of the stimulus (`OpacityFlickerStim`). In luminance mode
  the grid is first rescaled to [-1, 1], and the colour goes to a filter overlay
  drawn with a modulating blend function, with an optional circular mask on top
  (`BrightnessFlickerStim`).

The Dafny modules follow those parts:

| file | module | contents |
|---|---|---|
| layout.dfy | `Layout` | quadrant offsets, screen quadrants |
| stimuli.dfy | `Stimuli` | drawables as records; moving, broadcasting and recolouring four copies |
| phase.dfy | `Phase` | phase increment, wrap, phases and samples after n steps, alternative waveforms |
| multiplexer.dfy | `Multiplexer` | the 3 x 4 reshape, grid columns as colours, the `v * 2 - 1` rescale |
| circle_mask.dfy | `CircleMask` | the inverted circular mask |
| presentation.dfy | `Presentation` | the blend function, the draw trace, what is drawn under which blend |
| propixx_flicker.dfy | `PropixxFlicker` | the classes: `Session`, `Oscillator`, `QuadStim`, `OpacityFlickerStim`, `BrightnessFlickerStim` |

Stateful parts are classes whose methods update fields in place, as in the
source:

- the module globals `propixx_on` and `output_frame_rate` live in a `Session`;
- a stimulus list is a `seq<Stim>` field of `QuadStim`;
- the oscillator fields live in `Oscillator`;
- the graphics context is a `Gl` object holding the blend function and the
  ordered trace of draw and blend calls.

Python's inheritance (QuadStim, then OpacityFlickerStim, then
BrightnessFlickerStim) becomes composition. Each flicker class owns a
`QuadStim` and an `Oscillator`. The luminance class also owns the filter
`QuadStim` and, when masked, the mask `QuadStim`. The calls that Python
dispatches on the subclass (`set_pos` from `set` and `__init__`,
`_assign_mux_colors` from `_multiplex`) are written out in each class.

Arithmetic is exact real arithmetic. `TwoPi` is 6.283185307179586, the shortest
decimal that rounds to the double `2 * np.pi`. The waveform `0.5 * (1 + cos(phase))` is a parameter of the
oscillator. All the model knows about it is that it maps [0, 2*pi) into [0, 1].

Three details of the code that the model keeps:

- `_inv_circle_mask` gives -1 to every cell within `size / 2` of the centre,
  the centre cell included, and +1 to every other cell
  (propixx_flicker.py:263-266). The grid offsets run from `-r0` to `r0 - 1`
  (propixx_flicker.py:261-262), so the circle sits half a cell off the grid's
  middle. The corner `[0][0]` is +1 for size 2 and for every size from 4 up.
  The opposite corner, one cell nearer the centre, can still be -1 (it is for
  size 4). Size 3 gives a 2 x 2 mask that is -1 throughout. Sizes 0 and 1 give
  an empty mask.
- The mask's side is `2 * (size // 2)`, so it is one cell shorter than `size`
  when `size` is odd.
- When `init` has not run, `flicker` divides by a frame rate of 0. That raises
  after `phase` and `flicker_freq` have already been written
  (propixx_flicker.py:176-179). `Arm` models exactly that partial update.

## Model

| member | source | states |
|---|---|---|
| Layout.QuadLayout | propixx_flicker.py:74-80 | copy q sits at the base position, moved one frame width (960) right when q is 1 or 3 and one frame height (540) down when q is 2 or 3 (quadrants numbered 0 1 / 2 3) |
| Layout.QuadLayoutTiles | propixx_flicker.py:28-30 | a stimulus inside sub-frame 0 gets copy q inside quadrant q, at the same place relative to that quadrant's centre |
| Stimuli.Build | propixx_flicker.py:68-70 | a drawable built from kwargs takes its position from `pos` and every other keyword as an attribute |
| Stimuli.Moved | propixx_flicker.py:74-80 | after moving, the four positions are the quadrant layout of p; kind and attributes are unchanged |
| Stimuli.Assigned | propixx_flicker.py:93-95 | after a broadcast, all four copies hold the value for the attribute; every other attribute, the kind and the position are unchanged |
| Stimuli.Recolored | propixx_flicker.py:170 | the stimulus's colour becomes c; its kind, position and every other attribute stay as they were |
| Stimuli.Painted | propixx_flicker.py:166-170 | copy q's colour becomes colour q; nothing else about it changes |
| Stimuli.MovedTwice | propixx_flicker.py:216-220 | placing at the same position twice equals placing once (the luminance constructor places the filters twice) |
| Stimuli.MovedKeepsUniform | propixx_flicker.py:74-80 | moving keeps the four copies identical except in position |
| Stimuli.AssignedKeepsUniform | propixx_flicker.py:88-95 | broadcasting an attribute keeps the four copies identical except in position |
| Phase.Wrap | propixx_flicker.py:139 | the wrapped phase lies in [0, 2*pi) and equals the input when the input already lies there |
| Phase.WrapShift | propixx_flicker.py:139 | adding any whole number of turns leaves the wrapped phase unchanged |
| Phase.WrapAdd | propixx_flicker.py:138-139 | wrapping after each addition gives the same phase as wrapping once at the end |
| Phase.Increment | propixx_flicker.py:178-180 | 12 * rate increments (one second of sub-frames) add up to exactly f * 2*pi; the increment is non-negative for f >= 0 and zero exactly when f is zero |
| Phase.Unwrapped | propixx_flicker.py:138 | n unwrapped advances from p reach p + n * inc |
| Phase.PhaseAfter | propixx_flicker.py:138-139 | the phase after n `_next` calls: the start itself for n = 0, and inside [0, 2*pi) once at least one step was taken or the start already was |
| Phase.PhaseAfterClosedForm | propixx_flicker.py:138-139 | the phase after n samples is the wrap of p + n * inc |
| Phase.PhaseReturns | propixx_flicker.py:138-139 | when n increments make a whole number of turns, the phase after n samples equals the start |
| Phase.PeriodInSamples | propixx_flicker.py:172-181 | at f > 0 Hz, after 12 * rate / f samples (when that is whole) the phase is back at its start |
| Phase.OneSecond | propixx_flicker.py:178-180 | one second of sub-frames advances the phase by exactly f turns |
| Phase.WholeHertzInPhaseEachSecond | propixx_flicker.py:178-180 | a whole-hertz flicker is back at its starting phase after every second |
| Phase.Samples | propixx_flicker.py:158 | a run of n samples has n values, and sample i is the waveform at the phase after i + 1 advances |
| Phase.SamplesInRange | propixx_flicker.py:141-144 | every sample of an in-range waveform lies in [0, 1] |
| Phase.Square | propixx_flicker.py:128-132 | the square wave is 1 on [0, pi] and 0 above pi |
| Phase.Sawtooth | propixx_flicker.py:134-135 | the sawtooth is the phase as a fraction of a turn, in [0, 1) |
| Phase.AlternativeWaveformsInRange | propixx_flicker.py:126-135 | both alternative waveforms map [0, 2*pi) into [0, 1] |
| Multiplexer.Reshape | propixx_flicker.py:160-162 | sample i lands at row i / 4, column i % 4; grid cell (c, q) holds sample 4c + q |
| Multiplexer.FlattenReshape | propixx_flicker.py:162 | reading the grid back row by row gives the twelve samples in order |
| Multiplexer.ReshapeFlatten | propixx_flicker.py:162 | every 3 x 4 grid is the reshape of its row-major reading |
| Multiplexer.ReshapeOfIndices | propixx_flicker.py:6-10 | samples numbered 0 to 11 give [[0,1,2,3],[4,5,6,7],[8,9,10,11]] |
| Multiplexer.Columns | propixx_flicker.py:168-169 | channel k of quadrant q's colour is grid cell (k, q) |
| Multiplexer.Rescale | propixx_flicker.py:226-227 | `v * 2 - 1` is inverted by `(r + 1) / 2` and maps [0, 1] onto [-1, 1] |
| Multiplexer.RescaleGrid | propixx_flicker.py:226-227 | every rescaled cell maps back to the original cell |
| Multiplexer.OpacityDelivery | propixx_flicker.py:6-10 | in opacity mode, channel i / 4 of quadrant i % 4 (sub-frame i) shows sample i; samples in [0, 1] give colours in [0, 1] |
| Multiplexer.LuminanceDelivery | propixx_flicker.py:222-231 | in luminance mode, sub-frame i shows 2 * sample i - 1; samples in [0, 1] give filter colours in [-1, 1] |
| CircleMask.MaskCell | propixx_flicker.py:263-266 | a cell is -1 exactly when it lies within size / 2 of the centre, otherwise +1 |
| CircleMask.InvCircleMask | propixx_flicker.py:256-267 | the mask is a square of side 2 * (size // 2); cell (i, j) is -1 exactly when (i - r0, j - r0) lies within size / 2 of the origin, +1 otherwise |
| CircleMask.MaskSymmetric | propixx_flicker.py:260-263 | the mask is symmetric about its diagonal |
| CircleMask.MaskIsDisk | propixx_flicker.py:263-264 | a cell at least as near the centre on both axes as a transparent cell is transparent |
| CircleMask.MaskCentreAndCorner | propixx_flicker.py:256-267 | for size >= 2 the centre cell is -1; for size >= 4 the first corner is +1 |
| CircleMask.MaskOfSmallSizes | propixx_flicker.py:256-267 | sizes 0 and 1 give an empty mask; size 2 gives [[1, -1], [-1, -1]]; size 3 gives a 2 x 2 mask of -1; size 4 is +1 at [0][0] but -1 at the far corner [3][3] |
| CircleMask.MaskOfSize8 | propixx_flicker.py:256-267 | size 8 gives an 8 x 8 grid with -1 at [4][4] and +1 in all four corners |
| Presentation.DrawAll | propixx_flicker.py:82-86 | draw event i draws stimulus i, one event per stimulus |
| Presentation.DrawAllUnder | propixx_flicker.py:82-86 | drawing leaves the blend function as it was, and each stimulus is drawn under it |
| Presentation.LuminanceTraceOrder | propixx_flicker.py:239-253 | `LuminanceTrace`, the luminance draw's events, lists in order: the stimulus copies, the switch to (DST_COLOR, ZERO), the filter copies, the switch back to (SRC_ALPHA, ONE_MINUS_SRC_ALPHA), then the mask copies only when masked |
| Presentation.RestoreThenMasks | propixx_flicker.py:248-253 | after the restore, the default blend is in force and the masks, if any, are drawn under it |
| Presentation.ModulateThenRest | propixx_flicker.py:243-253 | after the switch, the filters are drawn under the modulating blend and the default is in force at the end |
| Presentation.LuminanceTraceBlending | propixx_flicker.py:233-253 | in a luminance draw, from any prior blend, the stimuli are drawn under that blend, the filters under (DST_COLOR, ZERO) and the masks under the default; the default is in force afterwards |
| Presentation.Gl.constructor | propixx_flicker.py:241-250 | a fresh context has the default blend (SRC_ALPHA, ONE_MINUS_SRC_ALPHA) and an empty trace |
| Presentation.Gl.BlendFunc | propixx_flicker.py:244-245 | the blend function becomes (src, dst) and the call is appended to the trace |
| Presentation.Gl.Draw | propixx_flicker.py:85-86 | the draw is appended to the trace and the blend function is unchanged |
| PropixxFlicker.Session.constructor | propixx_flicker.py:34-35 | the projector is not ready and the frame rate is 0 |
| PropixxFlicker.Session.Init | propixx_flicker.py:38-47 | `use_propixx` defaults to true; with the projector, it is ready and the rate is 120; without it, the rate is 60 and the ready flag is unchanged |
| PropixxFlicker.Arm | propixx_flicker.py:172-181 | a negative frequency fails with nothing changed. Otherwise phase becomes 0 and the frequency is recorded. At rate 0 the call then fails with the increment and flag unchanged. Else 12 * rate increments make f turns, and flickering holds exactly when f > 0 |
| PropixxFlicker.Oscillator.constructor | propixx_flicker.py:108-113 | not flickering, phase 0, frequency 0, increment 0 |
| PropixxFlicker.Oscillator.Flicker | propixx_flicker.py:172-181 | the new state and the error are those given by `Arm` |
| PropixxFlicker.Oscillator.Next | propixx_flicker.py:138-144 | the phase becomes the wrap of phase + increment; the result is the waveform there, in [0, 1]; no other field changes |
| PropixxFlicker.Oscillator.Cycle | propixx_flicker.py:154-162 | when idle: no grid and the phase unchanged. Otherwise the phase advances exactly 12 times and the grid is the reshape of the 12 samples in order |
| PropixxFlicker.QuadStim.constructor | propixx_flicker.py:68-72 | four identical drawables from kwargs, moved to the quadrant layout of `pos` |
| PropixxFlicker.QuadStim.SetPos | propixx_flicker.py:74-80 | the copies are moved to the quadrant layout of p; nothing else changes |
| PropixxFlicker.QuadStim.Draw | propixx_flicker.py:82-86 | the four copies are drawn in quadrant order; the blend function is unchanged |
| PropixxFlicker.QuadStim.Set | propixx_flicker.py:88-95 | `pos` is exactly SetPos; any other attribute gets the same value on all four copies and nothing else changes |
| PropixxFlicker.OpacityColors | propixx_flicker.py:158-170 | channel i / 4 of quadrant i % 4 gets the waveform at the phase after i + 1 advances |
| PropixxFlicker.LuminanceColors | propixx_flicker.py:222-231 | channel i / 4 of filter i % 4 gets twice the waveform at the phase after i + 1 advances, minus 1 |
| PropixxFlicker.OpacityFlickerStim.constructor | propixx_flicker.py:108-113 | copies laid out at `pos`; oscillator idle with phase 0 |
| PropixxFlicker.OpacityFlickerStim.SetPos | propixx_flicker.py:74-80 | the copies are moved to the quadrant layout of p |
| PropixxFlicker.OpacityFlickerStim.Set | propixx_flicker.py:88-95 | `pos` moves the copies; anything else is broadcast to them |
| PropixxFlicker.OpacityFlickerStim.Flicker | propixx_flicker.py:172-181 | the frequency defaults to 0; the oscillator is armed as `Arm` says, at the session's frame rate |
| PropixxFlicker.OpacityFlickerStim.AssignMuxColors | propixx_flicker.py:166-170 | quadrant q's colour becomes (g[0][q], g[1][q], g[2][q]) |
| PropixxFlicker.OpacityFlickerStim.Multiplex | propixx_flicker.py:146-164 | when idle, the phase and the colours are frozen. Otherwise the phase advances 12 times and the copies get the opacity colours of the cycle |
| PropixxFlicker.OpacityFlickerStim.Draw | propixx_flicker.py:115-117 | multiplexes, then draws the four recoloured copies; the blend function is unchanged |
| PropixxFlicker.FilterParams | propixx_flicker.py:196-197 | the filter kwargs are the stimulus kwargs plus a blank image of its size; every other keyword keeps its value |
| PropixxFlicker.MaskParams | propixx_flicker.py:203-206 | the mask kwargs add a blank image, the window background colour and the inverted circle mask of the stimulus width; every other keyword keeps its value |
| PropixxFlicker.MaskSupported | propixx_flicker.py:200-201 | no mask, or the mask 'circle', is accepted; anything else is refused |
| PropixxFlicker.BrightnessFlickerStim.constructor | propixx_flicker.py:194-214 | stimulus, filters and (only with a mask) mask copies all sit at the quadrant layout of `pos`; masked exactly when a mask was given; oscillator idle |
| PropixxFlicker.BrightnessFlickerStim.SetPos | propixx_flicker.py:216-220 | the stimulus, the filters and, only when masked, the masks are moved to the same quadrant positions |
| PropixxFlicker.BrightnessFlickerStim.Set | propixx_flicker.py:88-95 | `pos` cascades to filters and masks; anything else is broadcast to the stimulus only |
| PropixxFlicker.BrightnessFlickerStim.Flicker | propixx_flicker.py:172-181 | the frequency defaults to 0; the oscillator is armed as `Arm` says, at the session's frame rate |
| PropixxFlicker.BrightnessFlickerStim.AssignMuxColors | propixx_flicker.py:222-231 | filter q's colour becomes column q of the grid rescaled by `v * 2 - 1`; the stimulus is not touched |
| PropixxFlicker.BrightnessFlickerStim.Multiplex | propixx_flicker.py:146-164 | when idle, the phase and the filter colours are frozen. Otherwise the phase advances 12 times and the filters get the luminance colours of the cycle |
| PropixxFlicker.BrightnessFlickerStim.Draw | propixx_flicker.py:233-253 | the trace is: the stimulus, blend (DST_COLOR, ZERO), the filters, blend (SRC_ALPHA, ONE_MINUS_SRC_ALPHA), then the masks only if masked. The default blend is in force afterwards. The stimulus and mask copies are unchanged |
| PropixxFlicker.NewBrightnessFlickerStim | propixx_flicker.py:199-211 | construction fails with UnsupportedMask exactly when a mask other than 'circle' is given. Otherwise it gives what the constructor promises: fresh parts, stimulus, filter and (only when masked) mask copies at the quadrant layout of `pos`, masked exactly when a mask was given, and an idle oscillator |

## Left out

- `close`, `_set_propixx_mode` and `_call_matlab` (propixx_flicker.py:50-53, 270-291) are not modelled. They start MATLAB through a shell and sleep for five seconds. `init` is modelled without that call and without its `print`.
- mlab.py is not part of this model: it is the same shell wrapper, with no logic.
- examples/minimal_example.py is not part of this model: it is an experiment script (window set-up, key polling, timing loops).
- Psychopy drawables are records (kind, position, attributes). Whether Psychopy accepts an attribute, how it renders, and the real effect of `glBlendFunc` are left out. Draws and blend changes appear only as trace events.
- `copy.copy` of the kwargs is not modelled because maps are values here, so no copy is needed.
- The waveform `0.5 * (1 + cos(phase))` is a parameter with range [0, 1] on [0, 2*pi). Cosine itself is not modelled. Swapping the waveform by overriding `_next` in a subclass becomes passing a different function.
- Floating point is not modelled. Phases, increments and colours are exact reals, so the periodicity lemmas hold for the real-valued model, not bit for bit for IEEE doubles.
- Passing a numpy float64 frequency would turn the division by a zero frame rate into `inf` (or `nan` for a frequency of 0) instead of an exception. The model assumes plain Python numbers.
- Running Python with `-O` strips the `assert` in `flicker`. The model always performs the check.
- Stimulus sizes are whole numbers of pixels (`nat`), not arbitrary floats.
- PropixxFlicker.QuadStim.constructor, and the constructors of the flicker classes, require a `pos` keyword (and in luminance mode a `size` keyword, plus a `win` keyword when a mask is given). The source fails with a `KeyError` without them, and that error path is not modelled.

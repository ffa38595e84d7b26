# Audio visualiser sketches: history, playhead and geometry

A Dafny model of the sample-history and playhead engine of the `magic-wand` p5 sketch, with two
smaller sketches of the same repository: `visualization` and `simple-melody-app`.

**magic-wand.** Each frame, the sketch does three things:

- It records the song's amplitude into `volumeHistory`. This is a FIFO of 800 entries. An entry is a
  sample or `undefined`, modelled as `Option<real>`. The FIFO is reset to 800 absent entries when
  the song is stopped.
- It works out whether the last three samples were loud.
- It draws the history in one of two modes:
  - **linear mode:** the history is split at the user-dragged playhead `magicBorderX` into `lines`
    (the settled trace) and `dots` (the live edge), each with its own x formula;
  - **circular mode:** the history is drawn on two rings, with the angle `index mod 360`, and each
    ring hides the points the border circle culls.

Dots and inner-ring points always get 10 (after a loud moment) or 3 random noise vertices. Line
and outer-ring points get noise only on a coin flip: three vertices around a line point, one
around an outer-ring point.

Modules:

- `MagicWand`: the history, playhead, loudness, maximum, segmentation and circular geometry, as
  values.
- `WandRender`: the four drawing loops, as methods. Their output is the vertices they feed to
  `curveVertex`.
- `WandSketch.Sketch`: the sketch state, `volumeHistory` and `magicBorderX`, and the handlers that
  update it in place.
- `Noise`: `drawNoise` and the random helpers.
- `History`: the "most recent entries up to a capacity" that both sketches' buffers keep.
- `Js` and `P5`: the runtime semantics the sketch relies on: `Array.prototype.slice`,
  truncation of a fractional index, `Math.max` over no arguments (`-Infinity`, here `None`) and
  `p.map`.

**visualization.** A history that always appends and is capped at `(400/3)*2`. That bound is not
a whole number, so the history holds at most 266 entries. The history is emptied on pause.

**simple-melody-app** (module `SimpleMelody`). The exact rational Pythagorean major scale, eight
50×100 keys, the hit test that appends a key index to the melody, the scale selection that
throws on an unknown note, and the delays at which `play` schedules the notes.

Inputs from outside the sketches are parameters:

- whether the song is playing;
- the frame's amplitude;
- the pointer position (`real`);
- the degree-mode `cos`/`sin`, about which nothing is assumed;
- `Math.random`, as an oracle `rand: nat -> real` whose n-th draw lies in [0, 1). Each method that
  draws takes the index of its first draw and returns the index after its last draw.

Behaviour of the code worth knowing:

- `recentVolumeWasLoud` takes `slice(length - 3)`. With exactly two entries the start is -1, so
  only the newest entry is inspected (`MagicWand.TwoEntryHistoryIgnoresOlder`).
- The maximum of an all-absent history is `Math.max()` of nothing, `-Infinity` (`None`). A
  playing frame never meets this case, because it records before it draws
  (`MagicWand.PlayingFrameHasMaximum`).
- `recordHistory` evicts at most one entry per call. The magic-wand history always holds exactly
  800 entries, so one eviction always suffices.
- The two ring cull tests are not complements: a point can be kept by both rings
  (`MagicWand.CullsAreNotComplementary`).

## Model

| member | source | states |
|---|---|---|
| `Js.Truncate` | projects/magic-wand/src/main.ts:160-161 | a fractional playhead used as a slice index is truncated toward zero: the integer part of a non-negative position |
| `Js.RelativeIndex` | projects/magic-wand/src/main.ts:312 | slice indices are clamped to [0, length]; a negative index counts back from the end |
| `Js.SliceSplits` | projects/magic-wand/src/main.ts:160-161 | `slice(0, k) + slice(k)` is the whole sequence for every k, and the head has the resolved index's length |
| `Js.Slice` | projects/magic-wand/src/main.ts:160 | `s.slice(start)`: the suffix from the resolved start index |
| `Js.SliceRange` | projects/magic-wand/src/main.ts:161 | `s.slice(start, end)`: the entries between the resolved indices, empty when they cross |
| `Js.Max` | projects/magic-wand/src/main.ts:151 | `Math.max` over a spread gives no value exactly for no arguments; otherwise it returns an argument that bounds all the others |
| `P5.MapRange` | projects/magic-wand/src/main.ts:152 | `p.map` sends the first range's start and stop to the second range's start and stop |
| `Noise.RandomInt` | projects/magic-wand/src/main.ts:322-324 | `getRandomInt(max)` lies in [0, max) for max > 0 and is 0 for max 0 |
| `Noise.RandomRgb` | projects/magic-wand/src/main.ts:326-331 | every channel of a random colour lies in [0, 254] |
| `Noise.AddOrSubtract` | projects/magic-wand/src/main.ts:333-335 | the sign is ±1, negative exactly when the draw is below one half |
| `Noise.ShiftedPosition` | projects/magic-wand/src/main.ts:317-320 | the offset lies strictly within (-max, max), or is 0 when max is 0; a non-zero offset has the drawn sign |
| `Noise.NoiseVertex` | projects/magic-wand/src/main.ts:294-301 | each noise vertex is scattered within the shift bounds around the origin and coloured from the palette |
| `Noise.DrawNoise` | projects/magic-wand/src/main.ts:281-302 | exactly `intensity` vertices: the k-th is built from draws at+7k…at+7k+6, all within the shift bounds; seven draws are used per vertex |
| `History.Latest` | projects/magic-wand/src/main.ts:106-114 | the most recent `cap` entries, in order: the suffix of length `cap`, or the whole input when it is shorter |
| `History.LatestDropsFirst` | projects/magic-wand/src/main.ts:111-113 | dropping the oldest entry of an over-capacity sequence keeps the same latest entries |
| `MagicWand.Truthy` | projects/magic-wand/src/main.ts:165 | the `if (volume)` test of all four loops (also lines 178, 215, 243): a present, non-zero sample |
| `MagicWand.InitialHistory` | projects/magic-wand/src/main.ts:102-104 | 800 entries, all absent |
| `MagicWand.Recorded` | projects/magic-wand/src/main.ts:106-114 | `recordHistory` on a value: push the volume only while playing, then drop the first entry if over 800 |
| `MagicWand.RecordHistoryStep` | projects/magic-wand/src/main.ts:106-114 | from length ≤ 800 the result stays ≤ 800; a full history stays full; not playing leaves it unchanged; playing and full gives `old[1..] + [volume]`; playing and not full appends |
| `MagicWand.RecordAllKeepsLatest` | projects/magic-wand/src/main.ts:106-114 | after any number of playing frames the history is the last 800 of everything pushed, in arrival order |
| `MagicWand.ClampedBorderX` | projects/magic-wand/src/main.ts:141-147 | pointer x ≤ 0 gives 0, ≥ 800 gives 797, otherwise the pointer x; always within [0, 800) |
| `MagicWand.UpdatedBorderX` | projects/magic-wand/src/main.ts:136-148 | a pointer below y = 480 leaves the playhead; otherwise it is clamped; the range [0, 800) is preserved |
| `MagicWand.LoudWindow` | projects/magic-wand/src/main.ts:311-312 | the entries `slice(length - 3)` leaves |
| `MagicWand.IsLoud` | projects/magic-wand/src/main.ts:313 | `v && v > 0.3`: a truthy sample above the threshold |
| `MagicWand.RecentVolumeWasLoud` | projects/magic-wand/src/main.ts:308-314 | some entry of the loudness window is loud |
| `MagicWand.LoudWindowIsTail` | projects/magic-wand/src/main.ts:311-312 | the loudness window is the last 3 entries when there are 3 or more, only the last one when there are 2, and all of them otherwise |
| `MagicWand.RecentlyLoudIff` | projects/magic-wand/src/main.ts:308-314 | with ≥ 3 entries: loud iff one of the last three is a present sample above 0.3 |
| `MagicWand.TwoEntryHistoryIgnoresOlder` | projects/magic-wand/src/main.ts:311-313 | for two entries, a loud older entry is ignored and a loud newer one counts |
| `MagicWand.Defined` | projects/magic-wand/src/main.ts:151 | the filter keeps exactly the present values, zero included |
| `MagicWand.MaxVolume` | projects/magic-wand/src/main.ts:151 | no maximum iff every entry is absent; otherwise a present value that bounds every present value |
| `MagicWand.LinearTranslateY` | projects/magic-wand/src/main.ts:152-158 | the shift is finite iff the maximum is; for a maximum in [0, 1] it lies in [-200, 0], and 0 for maximum 1 |
| `MagicWand.PlayingFrameHasMaximum` | projects/magic-wand/src/main.ts:48-55 | after recording while playing, the maximum and the translation exist |
| `MagicWand.TwoLevelHistoryMaximum` | projects/magic-wand/src/main.ts:151-158 | a history of 0.1/0.9 samples with some 0.9 has maximum 0.9 and translation -20 |
| `MagicWand.Dots` | projects/magic-wand/src/main.ts:160 | `volumeHistory.slice(magicBorderX)`, with the fractional playhead truncated |
| `MagicWand.Lines` | projects/magic-wand/src/main.ts:161 | `volumeHistory.slice(0, magicBorderX)`, with the fractional playhead truncated |
| `MagicWand.DotX` | projects/magic-wand/src/main.ts:166 | `canvasWidth - dots.length + index` |
| `MagicWand.LineX` | projects/magic-wand/src/main.ts:179 | `canvasWidth - lines.length + index - dots.length` |
| `MagicWand.SplitIndex` | projects/magic-wand/src/main.ts:160-161 | the split point is the playhead rounded down, capped at the history length |
| `MagicWand.Segmentation` | projects/magic-wand/src/main.ts:160-161 | `lines + dots == volumeHistory`; `dots` is the suffix from the split point and `lines` the prefix before it |
| `MagicWand.MiddlePlayheadHalves` | projects/magic-wand/src/main.ts:160-161 | a full history split at the initial playhead 400 gives 400 dots and 400 line entries |
| `MagicWand.PlotXIsHistoryPosition` | projects/magic-wand/src/main.ts:160-179 | the dot and line x formulas both equal 800 − \|history\| + the entry's index in the whole history |
| `MagicWand.FullHistoryPlotsAtIndex` | projects/magic-wand/src/main.ts:164-179 | on a full history, each entry is plotted at its own index |
| `MagicWand.Degree` | projects/magic-wand/src/main.ts:216-217 | the degree lies in [0, 360) and is congruent to the index modulo 360 |
| `MagicWand.DegreeWraps` | projects/magic-wand/src/main.ts:216-217 | indices that differ by a multiple of 360 get the same degree |
| `MagicWand.BorderCircleDiameter` | projects/magic-wand/src/main.ts:304-306 | the diameter is half the playhead, hence in [0, 400) for a playhead in [0, 800) |
| `MagicWand.Abs` | projects/magic-wand/src/main.ts:227-228 | `Math.abs`: the magnitude of a coordinate (also lines 255-256) |
| `MagicWand.InnerCulled` | projects/magic-wand/src/main.ts:226-231 | the inner ring skips a point beyond the border-circle point on both axes |
| `MagicWand.OuterCulled` | projects/magic-wand/src/main.ts:254-259 | no point is skipped by both the outer-ring test and the inner-ring test |
| `MagicWand.CullsAreNotComplementary` | projects/magic-wand/src/main.ts:226-259 | every point beyond the border-circle point on exactly one axis is skipped by neither ring |
| `WandRender.LinearY` | projects/magic-wand/src/main.ts:167 | `map(volume, 0, 1, 400, 0)`, the y of a dot or a line vertex (also line 180) |
| `WandRender.LinearYRange` | projects/magic-wand/src/main.ts:167 | volume 0 at the bottom, 1 at the top, within the canvas for volumes in [0, 1] |
| `WandRender.RingRadius` | projects/magic-wand/src/main.ts:219-247 | `map(volume, 0, 1, 10, 200)` on the inner ring and `map(volume, 0, 1, 10, 400)` on the outer |
| `WandRender.RingRadiusRange` | projects/magic-wand/src/main.ts:219-247 | the inner ring maps a volume in [0, 1] into [10, 200], the outer ring into [10, 400]; volume 0 gives radius 10 |
| `WandRender.RingPoint` | projects/magic-wand/src/main.ts:219-224 | the ring point of a volume at a degree: its radius times cos and sin (also lines 247-249) |
| `WandRender.CirclePoint` | projects/magic-wand/src/main.ts:223-224 | the border circle's point at a degree: the border radius times cos and sin (also lines 251-252) |
| `WandRender.DotNoiseIntensity` | projects/magic-wand/src/main.ts:171 | `wasLoud ? 10 : 3`, the noise count around a dot or inner-ring point (also line 236) |
| `WandRender.NoiseShiftBound` | projects/magic-wand/src/main.ts:190-191 | `wasLoud ? 150 : 50`, the bound of the random shift around a line or outer-ring point (also lines 271-272) |
| `WandRender.MaybeNoise` | projects/magic-wand/src/main.ts:184-193 | one coin draw: below one half, two shift bounds and `intensity` vertices follow; otherwise there is no noise and one draw was used; all noise lies within the 150/50 bound |
| `WandRender.DrawDots` | projects/magic-wand/src/main.ts:163-174 | one plot per truthy dot, in order, at x = 800 − \|dots\| + index, grey, with 10 (loud) or 3 noise vertices within the default shift |
| `WandRender.DrawLines` | projects/magic-wand/src/main.ts:176-196 | one plot per truthy line entry, in order, at x = 800 − \|lines\| + index − \|dots\|, white, with 0 or 3 noise vertices within the 150/50 bound |
| `WandRender.DrawMusicInLinear` | projects/magic-wand/src/main.ts:150-198 | nothing and no draws when not playing; when playing, the translation from the maximum and the dot and line plots of the two slices |
| `WandRender.LinearFrameCoversHistory` | projects/magic-wand/src/main.ts:160-196 | on a full history every plotted vertex sits at its history index over a truthy entry, and every truthy entry is plotted on its side of the playhead |
| `WandRender.TruthyEntriesDrawnAtIndex` | projects/magic-wand/src/main.ts:160-196 | on a full history every truthy entry is drawn, as a dot or a line vertex, at x = its index |
| `WandRender.DotsCoverSuffix` | projects/magic-wand/src/main.ts:163-174 | the dot plots are exactly the truthy entries from the split point, each at x = its history index |
| `WandRender.LinesCoverPrefix` | projects/magic-wand/src/main.ts:176-196 | the line plots are exactly the truthy entries before the split point, each at x = its history index |
| `WandRender.RingEntry` | projects/magic-wand/src/main.ts:214-275 | a truthy entry is plotted iff its ring's cull test keeps it; a skipped entry uses no draws |
| `WandRender.DrawRing` | projects/magic-wand/src/main.ts:213-277 | one plot per kept entry in history order, at r·cos/r·sin of its degree, with the ring's stroke and noise |
| `WandRender.DrawMusicInCircular` | projects/magic-wand/src/main.ts:200-279 | nothing when not playing; otherwise the inner and outer ring plots, against the border radius = diameter / 2 |
| `WandRender.EveryTruthyEntryOnSomeRing` | projects/magic-wand/src/main.ts:219-259 | every truthy, non-negative sample is drawn on at least one ring |
| `WandRender.InnerRadiusBelowOuter` | projects/magic-wand/src/main.ts:219-249 | for a positive volume the inner-ring point is no farther out than the outer-ring point on either axis |
| `WandSketch.Sketch.constructor` | projects/magic-wand/src/main.ts:15-27 | the playhead starts at 400 and the history at 800 absent entries |
| `WandSketch.Sketch.InitializeHistory` | projects/magic-wand/src/main.ts:102-104 | the history becomes 800 absent entries |
| `WandSketch.Sketch.RecordHistory` | projects/magic-wand/src/main.ts:106-114 | the new history is the recorded one: unchanged when not playing, `old[1..] + [volume]` when full; capacity kept |
| `WandSketch.Sketch.ToggleMusic` | projects/magic-wand/src/main.ts:84-91 | stopping resets the history; starting leaves it; the playing state flips |
| `WandSketch.Sketch.UpdatePlayLineX` | projects/magic-wand/src/main.ts:136-148 | the playhead follows the clamped pointer unless the pointer is over the controls |
| `WandSketch.Sketch.Draw` | projects/magic-wand/src/main.ts:41-57 | records the frame, then emits the border (line at the playhead or circle of the playhead-derived diameter) and the selected mode's drawing; the history stays at 800 entries, and in linear mode every truthy entry is drawn at x = its index |
| `Visualization.ExceedsThresholdIff` | projects/visualization/src/main.ts:59 | a length exceeds (400/3)·2 exactly when it is over 266 |
| `Visualization.Recorded` | projects/visualization/src/main.ts:56-62 | `recordHistory` on a value: push the volume, then drop the first entry if the length exceeds (400/3)·2 |
| `Visualization.RecordHistoryStep` | projects/visualization/src/main.ts:56-62 | from ≤ 266 entries the result stays ≤ 266; below 266 it appends; at 266 it gives `old[1..] + [volume]` |
| `Visualization.RecordAllKeepsLatest` | projects/visualization/src/main.ts:56-62 | after any number of frames the history is the last (at most 266) samples, in arrival order |
| `Visualization.VolumeY` | projects/visualization/src/main.ts:85 | `map(volume, 0, 1, 200, 0)`: the y of a volume-line vertex |
| `Visualization.LineTranslateY` | projects/visualization/src/main.ts:74-81 | the translation is finite iff the history is non-empty, and lies in [-100, 0] for samples in [0, 1] |
| `Visualization.DrawnHistoryHasMaximum` | projects/visualization/src/main.ts:26-35 | the history drawn after a record is never empty, so the translation is finite |
| `Visualization.Sketch.constructor` | projects/visualization/src/main.ts:12 | the history starts empty |
| `Visualization.Sketch.RecordHistory` | projects/visualization/src/main.ts:56-62 | always appends, evicting the oldest entry at capacity; at most 266 entries are kept |
| `Visualization.Sketch.ToggleMusic` | projects/visualization/src/main.ts:47-54 | pausing a playing song empties the history; playing leaves it untouched |
| `Visualization.Sketch.DrawPlayLine` | projects/visualization/src/main.ts:64-71 | while playing, the play line is at x = the history length, which is on the canvas |
| `Visualization.Sketch.DrawVolumeLine` | projects/visualization/src/main.ts:73-90 | while playing, one vertex per entry; the i-th has x = i and y = map(volume, 0, 1, 200, 0) |
| `SimpleMelody.Name` | projects/simple-melody-app/src/main.ts:4-17 | the key of each note in `octave4NoteAndFq`, the strings `Object.keys(...).includes` tests at line 107 |
| `SimpleMelody.Frequency` | projects/simple-melody-app/src/main.ts:4-17 | every fourth-octave base frequency lies between 261 and 494 Hz |
| `SimpleMelody.ParseNote` | projects/simple-melody-app/src/main.ts:107 | a recognised name is the name of the note it returns |
| `SimpleMelody.ParseName` | projects/simple-melody-app/src/main.ts:100-107 | each of the twelve note names is recognised as its own note |
| `SimpleMelody.PythagoreanMajorScale` | projects/simple-melody-app/src/main.ts:19-28 | 8 values; the first is the base and the last twice the base; strictly increasing for a positive base |
| `SimpleMelody.ScaleSteps` | projects/simple-melody-app/src/main.ts:19-28 | consecutive degrees differ by a whole tone 9/8, except the limma 256/243 at E–F and B–C |
| `SimpleMelody.Notes` | projects/simple-melody-app/src/main.ts:137-139 | the selected scale's eight notes, from its base frequency to twice it, strictly increasing |
| `SimpleMelody.KeyWidth` | projects/simple-melody-app/src/main.ts:141-147 | a key is 400 / 8 = 50 wide |
| `SimpleMelody.KeyPosition` | projects/simple-melody-app/src/main.ts:149-156 | key i sits at (50·i, 150) |
| `SimpleMelody.InsideKey` | projects/simple-melody-app/src/main.ts:183-188 | the pointer is inside key i iff 50·i < x < 50·i + 50 and 150 < y < 250 |
| `SimpleMelody.HitKeys` | projects/simple-melody-app/src/main.ts:181-192 | the keys below n whose rectangle contains the pointer, in index order |
| `SimpleMelody.KeysDisjoint` | projects/simple-melody-app/src/main.ts:183-188 | no point is strictly inside two keys |
| `SimpleMelody.HitKeysMembers` | projects/simple-melody-app/src/main.ts:181-192 | the keys a press hits are exactly those whose rectangle strictly contains the pointer, at most one |
| `SimpleMelody.PressHitsAtMostOneKey` | projects/simple-melody-app/src/main.ts:177-193 | among the eight keys the hit list is [i] iff the pointer is inside key i, and empty iff it is inside none |
| `SimpleMelody.Melody.constructor` | projects/simple-melody-app/src/main.ts:52-56 | the melody starts in C with an empty record |
| `SimpleMelody.Melody.Record` | projects/simple-melody-app/src/main.ts:177-193 | the record gains the hit key, if any: at most one entry, in [0, 8), with the old record as a prefix |
| `SimpleMelody.Melody.ResetRecord` | projects/simple-melody-app/src/main.ts:195-197 | the record becomes empty |
| `SimpleMelody.Melody.HandleScaleChange` | projects/simple-melody-app/src/main.ts:105-113 | a known note sets the scale and empties the record; an unknown one fails with the source's message and changes nothing |
| `SimpleMelody.Melody.Play` | projects/simple-melody-app/src/main.ts:131-135 | one timer per recorded key; the i-th fires after 500·i ms, so delays are non-decreasing in record order |

## Left out

- p5 drawing calls (`stroke`, `curveVertex`, `beginShape`, `translate`, `line`, `circle`, `rect`,
  `background`): only the coordinates, colours and counts they receive are modelled.
- Floating point: numbers are exact `real`s. NaN, infinities other than the empty `Math.max`, and
  JavaScript's `-0` from `0 * -1` are not modelled.
- Trigonometry: `p.cos`/`p.sin` in degree mode are parameters with no assumed properties.
- Audio: `p5.SoundFile`, `p5.Amplitude`, the oscillator and envelope, and `playNote`. Whether
  the song plays and the frame's amplitude are parameters. `playNote` and its frequency lookup are
  not modelled.
- DOM widgets: `putToggleButton`, `putModeSelector`, `updateButtonVisibility`,
  `putPlayButton`, `putResetButton`, `putScaleSelector`, and the selector's current value, which
  is a parameter.
- `drawKeys`: its highlight compares a note with the oscillator's float frequency.
- `setTimeout`: `Play` returns the timers it would set; running them is not modelled.
- `Math.random`: an injected oracle replaces true randomness.
- projects/handpose/src/main.ts is not part of this model. It is model loading, webcam capture
  and a readiness poll.
- The vertical `p.map` of a volume, in the magic-wand dots and line trace
  (projects/magic-wand/src/main.ts:167 and 180) and the visualization volume line
  (projects/visualization/src/main.ts:85), is modelled as the exact
  affine map. No property beyond its endpoints is stated.
- `WandRender.EveryTruthyEntryOnSomeRing`: requires a non-negative sample, which amplitude
  readings are. For negative values the outer radius can be smaller than the inner one.

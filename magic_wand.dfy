/** The sample history, playhead and geometry of the magic-wand sketch, as values. The state that
    the sketch updates in place lives in WandSketch; the per-frame drawing loops in WandRender. */
module MagicWand {
  import opened Wrappers
  import Js
  import P5
  import History

  const CanvasWidth: nat := 800
  const CanvasHeight: nat := 400
  /** canvasHeight * 1.2: pointer positions below this line are over the controls. */
  const ControllerPositionY: real := 480.0
  const MagicBorderWidth: nat := 3
  /** Initial playhead, canvasWidth / 2. */
  const InitialBorderX: real := 400.0
  const LoudThreshold: real := 0.3
  const Reactivity: nat := 3

  /** One history entry: an amplitude, or `None` for JavaScript's `undefined`. */
  type Sample = Option<real>

  /** JavaScript truthiness of an entry: `undefined` and 0 are falsy. */
  predicate Truthy(s: Sample) { s.Some? && s.value != 0.0 }

  // ---------------------------------------------------------------- history buffer

  /** `initializeHistory`: canvasWidth absent entries. */
  function InitialHistory(): (h: seq<Sample>)
    ensures |h| == CanvasWidth
    ensures forall i :: 0 <= i < |h| ==> h[i] == None
  {
    seq(CanvasWidth, _ => None)
  }

  /** The history after `recordHistory(volume)` with the song playing or not. */
  function Recorded(h: seq<Sample>, volume: real, playing: bool): seq<Sample>
  {
    var pushed := if playing then h + [Some(volume)] else h;
    if |pushed| > CanvasWidth then pushed[1..] else pushed
  }

  /** What one `recordHistory` call does to a history within capacity. */
  lemma RecordHistoryStep(h: seq<Sample>, volume: real, playing: bool)
    requires |h| <= CanvasWidth
    ensures |Recorded(h, volume, playing)| <= CanvasWidth
    ensures |h| == CanvasWidth ==> |Recorded(h, volume, playing)| == CanvasWidth
    ensures !playing ==> Recorded(h, volume, playing) == h
    ensures playing && |h| == CanvasWidth ==> Recorded(h, volume, playing) == h[1..] + [Some(volume)]
    ensures playing && |h| < CanvasWidth ==> Recorded(h, volume, playing) == h + [Some(volume)]
  {
  }

  /** The entries as pushed, one per frame. */
  function Samples(volumes: seq<real>): (s: seq<Sample>)
    ensures |s| == |volumes|
    ensures forall i :: 0 <= i < |s| ==> s[i] == Some(volumes[i])
  {
    seq(|volumes|, i requires 0 <= i < |volumes| => Some(volumes[i]))
  }

  /** Successive frames while the song plays. */
  function RecordAll(h: seq<Sample>, volumes: seq<real>): seq<Sample>
    decreases |volumes|
  {
    if volumes == [] then h else RecordAll(Recorded(h, volumes[0], true), volumes[1..])
  }

  /** The history buffer keeps exactly the most recent canvasWidth entries, oldest evicted first:
      however many frames are recorded, the buffer is the tail of everything pushed. */
  lemma {:induction false} RecordAllKeepsLatest(h: seq<Sample>, volumes: seq<real>)
    requires |h| <= CanvasWidth
    ensures RecordAll(h, volumes) == History.Latest(h + Samples(volumes), CanvasWidth)
    decreases |volumes|
  {
    if volumes == [] {
      assert h + Samples(volumes) == h;
    } else {
      var v, rest := volumes[0], volumes[1..];
      var all := h + Samples(volumes);
      assert all == (h + [Some(v)]) + Samples(rest) by { SamplesSplit(h, volumes); }
      var h' := Recorded(h, v, true);
      RecordAllKeepsLatest(h', rest);
      if |h| == CanvasWidth {
        assert h' + Samples(rest) == all[1..];
        History.LatestDropsFirst(all, CanvasWidth);
      } else {
        assert h' + Samples(rest) == all;
      }
    }
  }

  lemma SamplesSplit(h: seq<Sample>, volumes: seq<real>)
    requires volumes != []
    ensures h + [Some(volumes[0])] + Samples(volumes[1..]) == h + Samples(volumes)
  {
    assert Samples(volumes) == [Some(volumes[0])] + Samples(volumes[1..]);
  }

  // ---------------------------------------------------------------- playhead

  /** The playhead position `updatePlayLineX` sets for a pointer x over the canvas. */
  function ClampedBorderX(mouseX: real): (x: real)
    ensures 0.0 <= x < CanvasWidth as real
    ensures mouseX <= 0.0 ==> x == 0.0
    ensures mouseX >= CanvasWidth as real ==> x == (CanvasWidth - MagicBorderWidth) as real
    ensures 0.0 < mouseX < CanvasWidth as real ==> x == mouseX
  {
    if mouseX <= 0.0 then 0.0
    else if mouseX >= CanvasWidth as real then (CanvasWidth - MagicBorderWidth) as real
    else mouseX
  }

  /** `updatePlayLineX`: a pointer over the controls leaves the playhead where it was. */
  function UpdatedBorderX(borderX: real, mouseX: real, mouseY: real): (x: real)
    ensures mouseY > ControllerPositionY ==> x == borderX
    ensures mouseY <= ControllerPositionY ==> x == ClampedBorderX(mouseX)
    ensures 0.0 <= borderX < CanvasWidth as real ==> 0.0 <= x < CanvasWidth as real
  {
    if mouseY > ControllerPositionY then borderX else ClampedBorderX(mouseX)
  }

  // ---------------------------------------------------------------- loudness

  /** The entries `recentVolumeWasLoud` inspects: `slice(length - 3)`. */
  function LoudWindow(h: seq<Sample>): seq<Sample>
  {
    Js.Slice(h, |h| - Reactivity)
  }

  /** The test inside `.some(...)`: `v && v > 0.3`. */
  predicate IsLoud(s: Sample) { Truthy(s) && s.value > LoudThreshold }

  predicate RecentVolumeWasLoud(h: seq<Sample>)
  {
    var w := LoudWindow(h);
    exists i :: 0 <= i < |w| && IsLoud(w[i])
  }

  /** The window is the last three entries once there are three; with two entries the negative
      start -1 leaves only the last one; with fewer it is the whole history. */
  lemma LoudWindowIsTail(h: seq<Sample>)
    ensures |h| >= Reactivity ==> LoudWindow(h) == h[|h| - Reactivity..]
    ensures |h| == 2 ==> LoudWindow(h) == h[1..]
    ensures |h| <= 1 ==> LoudWindow(h) == h
  {
  }

  /** Loud iff one of the last three entries is a present sample above the threshold. */
  lemma RecentlyLoudIff(h: seq<Sample>)
    requires |h| >= Reactivity
    ensures RecentVolumeWasLoud(h) <==>
      exists i :: |h| - Reactivity <= i < |h| && h[i].Some? && h[i].value > LoudThreshold
  {
    var n := |h| - Reactivity;
    var w := LoudWindow(h);
    assert w == h[n..] by { LoudWindowIsTail(h); }
    if RecentVolumeWasLoud(h) {
      var i :| 0 <= i < |w| && IsLoud(w[i]);
      assert h[n + i] == w[i];
    }
    if exists i :: n <= i < |h| && h[i].Some? && h[i].value > LoudThreshold {
      var i :| n <= i < |h| && h[i].Some? && h[i].value > LoudThreshold;
      assert IsLoud(w[i - n]);
    }
  }

  /** With two entries only the newer one is looked at: a loud older entry does not count. */
  lemma TwoEntryHistoryIgnoresOlder()
    ensures !RecentVolumeWasLoud([Some(0.5), Some(0.1)])
    ensures RecentVolumeWasLoud([Some(0.1), Some(0.5)])
  {
    LoudWindowIsTail([Some(0.5), Some(0.1)]);
    LoudWindowIsTail([Some(0.1), Some(0.5)]);
    assert LoudWindow([Some(0.1), Some(0.5)])[0] == Some(0.5);
  }

  // ---------------------------------------------------------------- max volume

  /** `volumeHistory.filter((v) => v !== undefined)`: zero is kept. */
  function Defined(h: seq<Sample>): (vs: seq<real>)
    ensures forall v :: v in vs <==> Some(v) in h
  {
    if h == [] then []
    else
      assert h == [h[0]] + h[1..];
      (if h[0].Some? then [h[0].value] else []) + Defined(h[1..])
  }

  /** `Math.max(...defined entries)`; `None` is the -Infinity of a history with no sample. */
  function MaxVolume(h: seq<Sample>): (m: Option<real>)
    ensures m == None <==> forall i :: 0 <= i < |h| ==> h[i] == None
    ensures m.Some? ==> Some(m.value) in h
    ensures m.Some? ==> forall i :: 0 <= i < |h| && h[i].Some? ==> h[i].value <= m.value
  {
    var m := Js.Max(Defined(h));
    forall i | 0 <= i < |h| && h[i].Some? ensures h[i].value in Defined(h) {
      assert h[i] in h;
    }
    m
  }

  /** The vertical translation of the linear drawing, -(canvasHeight / 2) + maxHeight / 2, with
      maxHeight = map(maxVolume, 0, 1, 0, canvasHeight); `None` when maxVolume is -Infinity. */
  function LinearTranslateY(maxVolume: Option<real>): (dy: Option<real>)
    ensures dy.Some? <==> maxVolume.Some?
    ensures maxVolume.Some? && 0.0 <= maxVolume.value <= 1.0 ==>
      -(CanvasHeight as real) / 2.0 <= dy.value <= 0.0
    ensures maxVolume == Some(1.0) ==> dy == Some(0.0)
  {
    match maxVolume
    case None => None
    case Some(v) =>
      var maxHeight := P5.MapRange(v, 0.0, 1.0, 0.0, CanvasHeight as real);
      Some(-(CanvasHeight as real / 2.0) + maxHeight / 2.0)
  }

  /** A frame records before it draws, so a playing frame always has a maximum: the -Infinity of
      an all-absent history never reaches the translation. */
  lemma PlayingFrameHasMaximum(h: seq<Sample>, volume: real)
    requires |h| <= CanvasWidth
    ensures MaxVolume(Recorded(h, volume, true)).Some?
    ensures LinearTranslateY(MaxVolume(Recorded(h, volume, true))).Some?
  {
    var r := Recorded(h, volume, true);
    assert r[|r| - 1] == Some(volume);
  }

  /** A full history of samples of 0.1 and 0.9, at least one of them 0.9: the maximum is 0.9 and
      the drawing is shifted up by 20 pixels. */
  lemma TwoLevelHistoryMaximum(h: seq<Sample>)
    requires forall i :: 0 <= i < |h| ==> h[i] == Some(0.1) || h[i] == Some(0.9)
    requires exists i :: 0 <= i < |h| && h[i] == Some(0.9)
    ensures MaxVolume(h) == Some(0.9)
    ensures LinearTranslateY(MaxVolume(h)) == Some(-20.0)
  {
    var i :| 0 <= i < |h| && h[i] == Some(0.9);
    var m := MaxVolume(h);
    assert m.Some? by { assert h[i] != None; }
    assert 0.9 <= m.value;
    var j :| 0 <= j < |h| && h[j] == Some(m.value);
  }

  // ---------------------------------------------------------------- linear segmentation

  /** `volumeHistory.slice(magicBorderX)`: the live edge. */
  function Dots(h: seq<Sample>, borderX: real): seq<Sample>
  {
    Js.Slice(h, Js.Truncate(borderX))
  }

  /** `volumeHistory.slice(0, magicBorderX)`: the settled trace. */
  function Lines(h: seq<Sample>, borderX: real): seq<Sample>
  {
    Js.SliceRange(h, 0, Js.Truncate(borderX))
  }

  /** Where the history is split: the playhead rounded down, at most the history length. */
  function SplitIndex(h: seq<Sample>, borderX: real): (p: nat)
    requires 0.0 <= borderX
    ensures p <= |h|
    ensures p as real <= borderX
    ensures p < |h| ==> borderX < p as real + 1.0
  {
    var k := Js.Truncate(borderX);
    if k < |h| then k else |h|
  }

  /** The playhead splits the history in two: `lines + dots == volumeHistory`, `dots` is the
      suffix from the playhead. */
  lemma Segmentation(h: seq<Sample>, borderX: real)
    requires 0.0 <= borderX
    ensures Lines(h, borderX) + Dots(h, borderX) == h
    ensures Dots(h, borderX) == h[SplitIndex(h, borderX)..]
    ensures Lines(h, borderX) == h[..SplitIndex(h, borderX)]
  {
    Js.SliceSplits(h, Js.Truncate(borderX));
  }

  /** x of the index-th dot: `canvasWidth - dots.length + index`. */
  function DotX(dotsLength: nat, index: nat): int
  {
    CanvasWidth - dotsLength + index
  }

  /** x of the index-th line vertex: `canvasWidth - lines.length + index - dots.length`. */
  function LineX(linesLength: nat, dotsLength: nat, index: nat): int
  {
    CanvasWidth - linesLength + index - dotsLength
  }

  /** Both formulas place an entry at canvasWidth - |history| + its position in the whole history,
      which is the position itself when the history is full. */
  lemma PlotXIsHistoryPosition(h: seq<Sample>, borderX: real, k: nat)
    requires 0.0 <= borderX
    ensures var dots, lines := Dots(h, borderX), Lines(h, borderX);
      k < |dots| ==> dots[k] == h[|lines| + k] && DotX(|dots|, k) == CanvasWidth - |h| + (|lines| + k)
    ensures var dots, lines := Dots(h, borderX), Lines(h, borderX);
      k < |lines| ==> lines[k] == h[k] && LineX(|lines|, |dots|, k) == CanvasWidth - |h| + k
  {
    Segmentation(h, borderX);
  }

  /** The linear drawing places every entry of a full history at its own index, from 0 to 799. */
  lemma FullHistoryPlotsAtIndex(h: seq<Sample>, borderX: real, k: nat)
    requires |h| == CanvasWidth && 0.0 <= borderX
    ensures k < |Dots(h, borderX)| ==> DotX(|Dots(h, borderX)|, k) == |Lines(h, borderX)| + k < CanvasWidth
    ensures k < |Lines(h, borderX)| ==> LineX(|Lines(h, borderX)|, |Dots(h, borderX)|, k) == k
  {
    PlotXIsHistoryPosition(h, borderX, k);
    Segmentation(h, borderX);
  }

  /** A full history split at the middle of the canvas: 400 dots and 400 line entries. */
  lemma MiddlePlayheadHalves(h: seq<Sample>)
    requires |h| == CanvasWidth
    ensures |Dots(h, InitialBorderX)| == 400 && |Lines(h, InitialBorderX)| == 400
  {
    Segmentation(h, InitialBorderX);
  }

  // ---------------------------------------------------------------- circular geometry

  /** `index - 360 * Math.floor(index / 360)`. */
  function Degree(index: nat): (d: nat)
    ensures d < 360
    ensures d <= index && (index - d) % 360 == 0
  {
    index - 360 * (index / 360)
  }

  /** The angle wraps every 360 entries. */
  lemma {:induction false} DegreeWraps(index: nat, turns: nat)
    ensures Degree(index + 360 * turns) == Degree(index)
  {
    if turns > 0 {
      DegreeWraps(index, turns - 1);
      var j := index + 360 * (turns - 1);
      assert (j + 360) / 360 == j / 360 + 1;
      assert index + 360 * turns == j + 360;
    }
  }

  /** `getMagicBorderCircleDiameter`: map(magicBorderX, 0, canvasWidth, 0, canvasHeight). */
  function BorderCircleDiameter(borderX: real): (d: real)
    ensures d == borderX / 2.0
    ensures 0.0 <= borderX < CanvasWidth as real ==> 0.0 <= d < CanvasHeight as real
  {
    P5.MapRange(borderX, 0.0, CanvasWidth as real, 0.0, CanvasHeight as real)
  }

  function Abs(r: real): real { if r < 0.0 then -r else r }

  /** The inner (dot) ring skips a point outside the border circle's point on both axes. */
  predicate InnerCulled(x: real, y: real, circleX: real, circleY: real)
  {
    Abs(x) > Abs(circleX) && Abs(y) > Abs(circleY)
  }

  /** The outer (line) ring skips a point inside the border circle's point on both axes; no point
      is skipped by both rings. */
  predicate OuterCulled(x: real, y: real, circleX: real, circleY: real)
    ensures OuterCulled(x, y, circleX, circleY) ==> !InnerCulled(x, y, circleX, circleY)
  {
    Abs(x) <= Abs(circleX) && Abs(y) <= Abs(circleY)
  }

  /** The two tests are not complements: a point beyond the border on exactly one axis is kept
      by both rings. */
  lemma CullsAreNotComplementary(x: real, y: real, circleX: real, circleY: real)
    requires (Abs(x) > Abs(circleX)) != (Abs(y) > Abs(circleY))
    ensures !InnerCulled(x, y, circleX, circleY) && !OuterCulled(x, y, circleX, circleY)
  {
  }
}

/** The per-frame drawing loops of the magic-wand sketch (`drawMusicInLinear`,
    `drawMusicInCircular`). Each loop is modelled by the vertices it feeds to `curveVertex`: one
    Plot per entry drawn, holding the entry's own vertex and the noise vertices drawn around it.
    cos and sin (degree mode) are parameters; nothing about them is assumed. */
module WandRender {
  import opened Wrappers
  import opened Noise
  import opened MagicWand
  import P5

  const DotStroke: Color := Color(214, 214, 214)
  const LineStroke: Color := Color(255, 255, 255)
  const LineNoiseIntensity: nat := 3
  const OuterNoiseIntensity: nat := 1

  /** A drawn history entry: its index in the loop's sequence, its vertex and its noise. */
  datatype Plot = Plot(index: nat, base: Vertex, noise: seq<Vertex>)

  function Indices(plots: seq<Plot>): (r: seq<nat>)
    ensures |r| == |plots|
    ensures forall j :: 0 <= j < |plots| ==> r[j] == plots[j].index
  {
    seq(|plots|, j requires 0 <= j < |plots| => plots[j].index)
  }

  /** The indices below n that `keep` admits, in increasing order: the order a loop visits them. */
  function Select(n: nat, keep: nat -> bool): (r: seq<nat>)
    ensures forall k: nat :: k in r <==> k < n && keep(k)
    ensures forall i, j :: 0 <= i < j < |r| ==> r[i] < r[j]
  {
    if n == 0 then []
    else
      var earlier := Select(n - 1, keep);
      assert forall i :: 0 <= i < |earlier| ==> earlier[i] in earlier;
      earlier + (if keep(n - 1) then [n - 1] else [])
  }

  /** The entries `if (volume)` lets through. */
  function TruthyAt(segment: seq<Sample>): nat -> bool
  {
    (i: nat) => i < |segment| && Truthy(segment[i])
  }

  /** Noise intensity around a dot: 10 after a loud moment, 3 otherwise. */
  function DotNoiseIntensity(wasLoud: bool): nat
  {
    if wasLoud then 10 else 3
  }

  /** Bound of the random shift around a line vertex: getRandomInt(wasLoud ? 150 : 50). */
  function NoiseShiftBound(wasLoud: bool): nat
  {
    if wasLoud then 150 else 50
  }

  /** `p.map(volume, 0, 1, canvasHeight, 0)`. */
  function LinearY(volume: real): real
  {
    P5.MapRange(volume, 0.0, 1.0, CanvasHeight as real, 0.0)
  }

  /** Volume 0 sits at the bottom of the canvas and 1 at the top; volumes in [0, 1] stay on it. */
  lemma LinearYRange(volume: real)
    ensures volume == 0.0 ==> LinearY(volume) == CanvasHeight as real
    ensures volume == 1.0 ==> LinearY(volume) == 0.0
    ensures 0.0 <= volume <= 1.0 ==> 0.0 <= LinearY(volume) <= CanvasHeight as real
  {
  }

  /** The coin-flipped noise of a line vertex: one draw decides, below one half it draws two shift
      bounds and then `intensity` noise vertices. */
  method MaybeNoise(x: real, y: real, intensity: nat, wasLoud: bool, rand: nat -> real, at: nat)
    returns (noise: seq<Vertex>, next: nat)
    requires IsUnitOracle(rand)
    ensures rand(at) < 0.5 ==> |noise| == intensity && next == at + 3 + DrawsPerVertex * intensity
    ensures rand(at) >= 0.5 ==> noise == [] && next == at + 1
    ensures forall v :: v in noise ==> Scattered(v, x, y, NoiseShiftBound(wasLoud), NoiseShiftBound(wasLoud))
  {
    var showNoise := rand(at) < 0.5;
    next := at + 1;
    noise := [];
    if showNoise {
      var bound := NoiseShiftBound(wasLoud);
      var shiftX := RandomInt(rand(next), bound);
      var shiftY := RandomInt(rand(next + 1), bound);
      noise, next := DrawNoise(x, y, intensity, shiftX, shiftY, rand, next + 2);
      forall v | v in noise ensures Scattered(v, x, y, bound, bound) {
        WithinLooserShift(v.x - x, shiftX, bound);
        WithinLooserShift(v.y - y, shiftY, bound);
      }
    }
  }

  // ---------------------------------------------------------------- linear mode

  /** A dot of the live edge: at x = canvasWidth - dots.length + index, light grey, with 10 or 3
      noise vertices at the default shift. */
  predicate DotPlotted(dots: seq<Sample>, wasLoud: bool, p: Plot)
  {
    p.index < |dots| && Truthy(dots[p.index]) &&
    p.base == Vertex(DotX(|dots|, p.index) as real, LinearY(dots[p.index].value), DotStroke) &&
    |p.noise| == DotNoiseIntensity(wasLoud) &&
    forall v :: v in p.noise ==> Scattered(v, p.base.x, p.base.y, DefaultShift, DefaultShift)
  }

  /** A vertex of the settled trace: at x = canvasWidth - lines.length + index - dots.length,
      white, with either no noise or three noise vertices within the 150/50 bound. */
  predicate LinePlotted(lines: seq<Sample>, dotsLength: nat, wasLoud: bool, p: Plot)
  {
    p.index < |lines| && Truthy(lines[p.index]) &&
    p.base == Vertex(LineX(|lines|, dotsLength, p.index) as real, LinearY(lines[p.index].value), LineStroke) &&
    (p.noise == [] || |p.noise| == LineNoiseIntensity) &&
    forall v :: v in p.noise ==> Scattered(v, p.base.x, p.base.y, NoiseShiftBound(wasLoud), NoiseShiftBound(wasLoud))
  }

  /** The POINTS shape of `drawMusicInLinear`: every truthy dot, in order. */
  method DrawDots(dots: seq<Sample>, wasLoud: bool, rand: nat -> real, at: nat)
    returns (plots: seq<Plot>, next: nat)
    requires IsUnitOracle(rand)
    ensures Indices(plots) == Select(|dots|, TruthyAt(dots))
    ensures forall p :: p in plots ==> DotPlotted(dots, wasLoud, p)
    ensures at <= next
  {
    plots, next := [], at;
    for index := 0 to |dots|
      invariant Indices(plots) == Select(index, TruthyAt(dots))
      invariant forall p :: p in plots ==> DotPlotted(dots, wasLoud, p)
      invariant at <= next
    {
      var volume := dots[index];
      if Truthy(volume) {
        var x := DotX(|dots|, index) as real;
        var y := LinearY(volume.value);
        var noise;
        noise, next := DrawNoise(x, y, DotNoiseIntensity(wasLoud), DefaultShift, DefaultShift, rand, next);
        var plot := Plot(index, Vertex(x, y, DotStroke), noise);
        assert Indices(plots + [plot]) == Indices(plots) + [index];
        plots := plots + [plot];
      }
    }
  }

  /** The TESS shape of `drawMusicInLinear`: every truthy line entry, in order. */
  method DrawLines(lines: seq<Sample>, dotsLength: nat, wasLoud: bool, rand: nat -> real, at: nat)
    returns (plots: seq<Plot>, next: nat)
    requires IsUnitOracle(rand)
    ensures Indices(plots) == Select(|lines|, TruthyAt(lines))
    ensures forall p :: p in plots ==> LinePlotted(lines, dotsLength, wasLoud, p)
    ensures at <= next
  {
    plots, next := [], at;
    for index := 0 to |lines|
      invariant Indices(plots) == Select(index, TruthyAt(lines))
      invariant forall p :: p in plots ==> LinePlotted(lines, dotsLength, wasLoud, p)
      invariant at <= next
    {
      var volume := lines[index];
      if Truthy(volume) {
        var x := LineX(|lines|, dotsLength, index) as real;
        var y := LinearY(volume.value);
        var noise;
        noise, next := MaybeNoise(x, y, LineNoiseIntensity, wasLoud, rand, next);
        var plot := Plot(index, Vertex(x, y, LineStroke), noise);
        assert Indices(plots + [plot]) == Indices(plots) + [index];
        plots := plots + [plot];
      }
    }
  }

  /** What a playing frame of `drawMusicInLinear` draws. */
  datatype LinearFrame = LinearFrame(translateY: Option<real>, dots: seq<Plot>, lines: seq<Plot>)

  predicate IsLinearFrame(h: seq<Sample>, borderX: real, f: LinearFrame)
  {
    var dots, lines, wasLoud := Dots(h, borderX), Lines(h, borderX), RecentVolumeWasLoud(h);
    f.translateY == LinearTranslateY(MaxVolume(h)) &&
    Indices(f.dots) == Select(|dots|, TruthyAt(dots)) &&
    (forall p :: p in f.dots ==> DotPlotted(dots, wasLoud, p)) &&
    Indices(f.lines) == Select(|lines|, TruthyAt(lines)) &&
    (forall p :: p in f.lines ==> LinePlotted(lines, |dots|, wasLoud, p))
  }

  /** `drawMusicInLinear`: nothing while the song is not playing. */
  method DrawMusicInLinear(h: seq<Sample>, borderX: real, playing: bool, rand: nat -> real, at: nat)
    returns (frame: Option<LinearFrame>, next: nat)
    requires IsUnitOracle(rand) && 0.0 <= borderX
    ensures !playing ==> frame == None && next == at
    ensures playing ==> frame.Some? && IsLinearFrame(h, borderX, frame.value)
  {
    var translateY := LinearTranslateY(MaxVolume(h));
    var wasLoud := RecentVolumeWasLoud(h);
    frame, next := None, at;
    if playing {
      var dots := Dots(h, borderX);
      var lines := Lines(h, borderX);
      var dotPlots, linePlots;
      dotPlots, next := DrawDots(dots, wasLoud, rand, next);
      linePlots, next := DrawLines(lines, |dots|, wasLoud, rand, next);
      frame := Some(LinearFrame(translateY, dotPlots, linePlots));
    }
  }

  /** On a full history every drawn vertex of a linear frame sits at x = the entry's index in the
      history, that entry is truthy, and every truthy entry of the history is drawn: dots right of
      the playhead, line vertices left of it. */
  lemma LinearFrameCoversHistory(h: seq<Sample>, borderX: real, f: LinearFrame)
    requires |h| == CanvasWidth && 0.0 <= borderX
    requires IsLinearFrame(h, borderX, f)
    ensures forall p :: p in f.dots ==>
      var i := SplitIndex(h, borderX) + p.index; i < |h| && Truthy(h[i]) && p.base.x == i as real
    ensures forall p :: p in f.lines ==>
      p.index < SplitIndex(h, borderX) && Truthy(h[p.index]) && p.base.x == p.index as real
    ensures forall i :: SplitIndex(h, borderX) <= i < |h| && Truthy(h[i]) ==>
      i - SplitIndex(h, borderX) in Indices(f.dots)
    ensures forall i :: 0 <= i < SplitIndex(h, borderX) && Truthy(h[i]) ==> i in Indices(f.lines)
  {
    var wasLoud := RecentVolumeWasLoud(h);
    DotsCoverSuffix(h, borderX, wasLoud, f.dots);
    LinesCoverPrefix(h, borderX, wasLoud, f.lines);
  }

  /** On a full history every truthy entry is drawn, as a dot or a line vertex, at x = its index. */
  lemma TruthyEntriesDrawnAtIndex(h: seq<Sample>, borderX: real, f: LinearFrame)
    requires |h| == CanvasWidth && 0.0 <= borderX
    requires IsLinearFrame(h, borderX, f)
    ensures forall i :: 0 <= i < |h| && Truthy(h[i]) ==>
      exists p :: (p in f.dots || p in f.lines) && p.base.x == i as real
  {
    LinearFrameCoversHistory(h, borderX, f);
    var split := SplitIndex(h, borderX);
    forall i | 0 <= i < |h| && Truthy(h[i])
      ensures exists p :: (p in f.dots || p in f.lines) && p.base.x == i as real
    {
      if i < split {
        var j :| 0 <= j < |f.lines| && Indices(f.lines)[j] == i;
        assert f.lines[j] in f.lines;
      } else {
        var j :| 0 <= j < |f.dots| && Indices(f.dots)[j] == i - split;
        assert f.dots[j] in f.dots;
      }
    }
  }

  lemma DotsCoverSuffix(h: seq<Sample>, borderX: real, wasLoud: bool, plots: seq<Plot>)
    requires |h| == CanvasWidth && 0.0 <= borderX
    requires Indices(plots) == Select(|Dots(h, borderX)|, TruthyAt(Dots(h, borderX)))
    requires forall p :: p in plots ==> DotPlotted(Dots(h, borderX), wasLoud, p)
    ensures forall p :: p in plots ==>
      var i := SplitIndex(h, borderX) + p.index; i < |h| && Truthy(h[i]) && p.base.x == i as real
    ensures forall i :: SplitIndex(h, borderX) <= i < |h| && Truthy(h[i]) ==>
      i - SplitIndex(h, borderX) in Indices(plots)
  {
    DotPlotsAtHistoryIndex(h, borderX, wasLoud, plots);
    TruthySuffixPlotted(h, borderX, plots);
  }

  lemma DotPlotsAtHistoryIndex(h: seq<Sample>, borderX: real, wasLoud: bool, plots: seq<Plot>)
    requires |h| == CanvasWidth && 0.0 <= borderX
    requires forall p :: p in plots ==> DotPlotted(Dots(h, borderX), wasLoud, p)
    ensures forall p :: p in plots ==>
      var i := SplitIndex(h, borderX) + p.index; i < |h| && Truthy(h[i]) && p.base.x == i as real
  {
    Segmentation(h, borderX);
    var split := SplitIndex(h, borderX);
    forall p | p in plots
      ensures var i := split + p.index; i < |h| && Truthy(h[i]) && p.base.x == i as real
    {
      FullHistoryPlotsAtIndex(h, borderX, p.index);
    }
  }

  lemma TruthySuffixPlotted(h: seq<Sample>, borderX: real, plots: seq<Plot>)
    requires 0.0 <= borderX
    requires Indices(plots) == Select(|Dots(h, borderX)|, TruthyAt(Dots(h, borderX)))
    ensures forall i :: SplitIndex(h, borderX) <= i < |h| && Truthy(h[i]) ==>
      i - SplitIndex(h, borderX) in Indices(plots)
  {
    var split, dots := SplitIndex(h, borderX), Dots(h, borderX);
    assert dots == h[split..] by { Segmentation(h, borderX); }
    forall i | split <= i < |h| && Truthy(h[i]) ensures i - split in Indices(plots) {
      var k: nat := i - split;
      assert dots[k] == h[i];
      assert TruthyAt(dots)(k);
    }
  }

  lemma LinesCoverPrefix(h: seq<Sample>, borderX: real, wasLoud: bool, plots: seq<Plot>)
    requires |h| == CanvasWidth && 0.0 <= borderX
    requires Indices(plots) == Select(|Lines(h, borderX)|, TruthyAt(Lines(h, borderX)))
    requires forall p :: p in plots ==> LinePlotted(Lines(h, borderX), |Dots(h, borderX)|, wasLoud, p)
    ensures forall p :: p in plots ==>
      p.index < SplitIndex(h, borderX) && Truthy(h[p.index]) && p.base.x == p.index as real
    ensures forall i :: 0 <= i < SplitIndex(h, borderX) && Truthy(h[i]) ==> i in Indices(plots)
  {
    LinePlotsAtHistoryIndex(h, borderX, wasLoud, plots);
    TruthyPrefixPlotted(h, borderX, plots);
  }

  lemma LinePlotsAtHistoryIndex(h: seq<Sample>, borderX: real, wasLoud: bool, plots: seq<Plot>)
    requires |h| == CanvasWidth && 0.0 <= borderX
    requires forall p :: p in plots ==> LinePlotted(Lines(h, borderX), |Dots(h, borderX)|, wasLoud, p)
    ensures forall p :: p in plots ==>
      p.index < SplitIndex(h, borderX) && Truthy(h[p.index]) && p.base.x == p.index as real
  {
    Segmentation(h, borderX);
    var split := SplitIndex(h, borderX);
    forall p | p in plots
      ensures p.index < split && Truthy(h[p.index]) && p.base.x == p.index as real
    {
      FullHistoryPlotsAtIndex(h, borderX, p.index);
    }
  }

  lemma TruthyPrefixPlotted(h: seq<Sample>, borderX: real, plots: seq<Plot>)
    requires 0.0 <= borderX
    requires Indices(plots) == Select(|Lines(h, borderX)|, TruthyAt(Lines(h, borderX)))
    ensures forall i :: 0 <= i < SplitIndex(h, borderX) && Truthy(h[i]) ==> i in Indices(plots)
  {
    var split, lines := SplitIndex(h, borderX), Lines(h, borderX);
    assert lines == h[..split] by { Segmentation(h, borderX); }
    forall i | 0 <= i < split && Truthy(h[i]) ensures i in Indices(plots) {
      assert lines[i] == h[i];
      assert TruthyAt(lines)(i);
    }
  }

  // ---------------------------------------------------------------- circular mode

  datatype Ring = Inner | Outer

  /** The radius map of each ring: map(volume, 0, 1, 10, canvasHeight / 2) for the dots and
      map(volume, 0, 1, 10, canvasHeight) for the line. */
  function RingRadius(ring: Ring, volume: real): real
  {
    P5.MapRange(volume, 0.0, 1.0, 10.0, if ring == Inner then CanvasHeight as real / 2.0 else CanvasHeight as real)
  }

  /** Volume 0 gives radius 10; volumes in [0, 1] give radii up to 200 (inner) or 400 (outer). */
  lemma RingRadiusRange(ring: Ring, volume: real)
    ensures volume == 0.0 ==> RingRadius(ring, volume) == 10.0
    ensures 0.0 <= volume <= 1.0 ==>
      10.0 <= RingRadius(ring, volume) <= (if ring == Inner then CanvasHeight as real / 2.0 else CanvasHeight as real)
  {
  }

  /** The point of a volume on a ring at a given angle, and the border-circle point there. */
  function RingPoint(ring: Ring, volume: real, degree: nat, cos: nat -> real, sin: nat -> real): (real, real)
  {
    var r := RingRadius(ring, volume);
    (r * cos(degree), r * sin(degree))
  }

  function CirclePoint(playCircleR: real, degree: nat, cos: nat -> real, sin: nat -> real): (real, real)
  {
    (playCircleR * cos(degree), playCircleR * sin(degree))
  }

  /** Whether a ring draws entry i: truthy, and not skipped by that ring's cull test. */
  predicate RingShows(h: seq<Sample>, ring: Ring, playCircleR: real, cos: nat -> real, sin: nat -> real, i: nat)
  {
    i < |h| && Truthy(h[i]) &&
    var (x, y) := RingPoint(ring, h[i].value, Degree(i), cos, sin);
    var (cx, cy) := CirclePoint(playCircleR, Degree(i), cos, sin);
    if ring == Inner then !InnerCulled(x, y, cx, cy) else !OuterCulled(x, y, cx, cy)
  }

  function RingAt(h: seq<Sample>, ring: Ring, playCircleR: real, cos: nat -> real, sin: nat -> real): nat -> bool
  {
    (i: nat) => RingShows(h, ring, playCircleR, cos, sin, i)
  }

  /** A drawn ring entry: at its ring point, grey with 10/3 default-shift noise on the inner
      ring, white with no noise or one noise vertex within the 150/50 bound on the outer ring. */
  predicate RingPlotted(h: seq<Sample>, ring: Ring, playCircleR: real, cos: nat -> real, sin: nat -> real,
                        wasLoud: bool, p: Plot)
  {
    RingShows(h, ring, playCircleR, cos, sin, p.index) &&
    var (x, y) := RingPoint(ring, h[p.index].value, Degree(p.index), cos, sin);
    if ring == Inner then
      p.base == Vertex(x, y, DotStroke) && |p.noise| == DotNoiseIntensity(wasLoud) &&
      forall v :: v in p.noise ==> Scattered(v, x, y, DefaultShift, DefaultShift)
    else
      p.base == Vertex(x, y, LineStroke) && (p.noise == [] || |p.noise| == OuterNoiseIntensity) &&
      forall v :: v in p.noise ==> Scattered(v, x, y, NoiseShiftBound(wasLoud), NoiseShiftBound(wasLoud))
  }

  /** The body of either loop of `drawMusicInCircular` for a truthy entry: `None` when the ring's
      cull test skips it (`continue`). */
  method RingEntry(h: seq<Sample>, ring: Ring, playCircleR: real, wasLoud: bool,
                   cos: nat -> real, sin: nat -> real, rand: nat -> real, index: nat, at: nat)
    returns (plot: Option<Plot>, next: nat)
    requires IsUnitOracle(rand)
    requires index < |h| && Truthy(h[index])
    ensures plot.Some? <==> RingShows(h, ring, playCircleR, cos, sin, index)
    ensures plot.Some? ==> plot.value.index == index && RingPlotted(h, ring, playCircleR, cos, sin, wasLoud, plot.value)
    ensures plot == None ==> next == at
    ensures at <= next
  {
    var time := index / 360;
    var degree := index - 360 * time;
    var (x, y) := RingPoint(ring, h[index].value, degree, cos, sin);
    var (playCircleX, playCircleY) := CirclePoint(playCircleR, degree, cos, sin);
    plot, next := None, at;
    if ring == Inner && InnerCulled(x, y, playCircleX, playCircleY) {
      return;
    }
    if ring == Outer && OuterCulled(x, y, playCircleX, playCircleY) {
      return;
    }
    var noise;
    if ring == Inner {
      noise, next := DrawNoise(x, y, DotNoiseIntensity(wasLoud), DefaultShift, DefaultShift, rand, next);
    } else {
      noise, next := MaybeNoise(x, y, OuterNoiseIntensity, wasLoud, rand, next);
    }
    plot := Some(Plot(index, Vertex(x, y, if ring == Inner then DotStroke else LineStroke), noise));
  }

  /** One of the two loops of `drawMusicInCircular` over the whole history. */
  method DrawRing(h: seq<Sample>, ring: Ring, playCircleR: real, wasLoud: bool,
                  cos: nat -> real, sin: nat -> real, rand: nat -> real, at: nat)
    returns (plots: seq<Plot>, next: nat)
    requires IsUnitOracle(rand)
    ensures Indices(plots) == Select(|h|, RingAt(h, ring, playCircleR, cos, sin))
    ensures forall p :: p in plots ==> RingPlotted(h, ring, playCircleR, cos, sin, wasLoud, p)
    ensures at <= next
  {
    plots, next := [], at;
    for index := 0 to |h|
      invariant Indices(plots) == Select(index, RingAt(h, ring, playCircleR, cos, sin))
      invariant forall p :: p in plots ==> RingPlotted(h, ring, playCircleR, cos, sin, wasLoud, p)
      invariant at <= next
    {
      if Truthy(h[index]) {
        var plot;
        plot, next := RingEntry(h, ring, playCircleR, wasLoud, cos, sin, rand, index, next);
        if plot.Some? {
          assert Indices(plots + [plot.value]) == Indices(plots) + [index];
          plots := plots + [plot.value];
        }
      }
    }
  }

  /** What a playing frame of `drawMusicInCircular` draws (after translating to the centre). */
  datatype CircularFrame = CircularFrame(inner: seq<Plot>, outer: seq<Plot>)

  predicate IsCircularFrame(h: seq<Sample>, borderX: real, cos: nat -> real, sin: nat -> real, f: CircularFrame)
  {
    var playCircleR, wasLoud := BorderCircleDiameter(borderX) / 2.0, RecentVolumeWasLoud(h);
    Indices(f.inner) == Select(|h|, RingAt(h, Inner, playCircleR, cos, sin)) &&
    (forall p :: p in f.inner ==> RingPlotted(h, Inner, playCircleR, cos, sin, wasLoud, p)) &&
    Indices(f.outer) == Select(|h|, RingAt(h, Outer, playCircleR, cos, sin)) &&
    (forall p :: p in f.outer ==> RingPlotted(h, Outer, playCircleR, cos, sin, wasLoud, p))
  }

  /** `drawMusicInCircular`: nothing while the song is not playing. */
  method DrawMusicInCircular(h: seq<Sample>, borderX: real, playing: bool,
                             cos: nat -> real, sin: nat -> real, rand: nat -> real, at: nat)
    returns (frame: Option<CircularFrame>, next: nat)
    requires IsUnitOracle(rand)
    ensures !playing ==> frame == None && next == at
    ensures playing ==> frame.Some? && IsCircularFrame(h, borderX, cos, sin, frame.value)
  {
    var diameter := BorderCircleDiameter(borderX);
    var playCircleR := diameter / 2.0;
    var wasLoud := RecentVolumeWasLoud(h);
    frame, next := None, at;
    if playing {
      var inner, outer;
      inner, next := DrawRing(h, Inner, playCircleR, wasLoud, cos, sin, rand, next);
      outer, next := DrawRing(h, Outer, playCircleR, wasLoud, cos, sin, rand, next);
      frame := Some(CircularFrame(inner, outer));
    }
  }

  /** No history entry is skipped by both rings: every truthy entry with a non-negative volume
      (amplitudes lie in [0, 1]) is drawn on at least one. */
  lemma {:induction false} EveryTruthyEntryOnSomeRing(h: seq<Sample>, borderX: real, cos: nat -> real, sin: nat -> real,
                                                      f: CircularFrame, i: nat)
    requires IsCircularFrame(h, borderX, cos, sin, f)
    requires i < |h| && Truthy(h[i]) && 0.0 <= h[i].value
    ensures i in Indices(f.inner) || i in Indices(f.outer)
  {
    var playCircleR := BorderCircleDiameter(borderX) / 2.0;
    var (cx, cy) := CirclePoint(playCircleR, Degree(i), cos, sin);
    var (xi, yi) := RingPoint(Inner, h[i].value, Degree(i), cos, sin);
    var (xo, yo) := RingPoint(Outer, h[i].value, Degree(i), cos, sin);
    if !RingAt(h, Inner, playCircleR, cos, sin)(i) {
      assert InnerCulled(xi, yi, cx, cy);
      InnerRadiusBelowOuter(h[i].value, Degree(i), cos, sin);
      assert !OuterCulled(xo, yo, cx, cy);
      assert RingAt(h, Outer, playCircleR, cos, sin)(i);
    }
  }

  /** For a positive volume the outer ring's point lies farther out on both axes than the inner
      ring's (radius 10 + 390v against 10 + 190v). */
  lemma InnerRadiusBelowOuter(volume: real, degree: nat, cos: nat -> real, sin: nat -> real)
    requires volume > 0.0
    ensures var (xi, yi) := RingPoint(Inner, volume, degree, cos, sin);
      var (xo, yo) := RingPoint(Outer, volume, degree, cos, sin);
      Abs(xi) <= Abs(xo) && Abs(yi) <= Abs(yo)
  {
    var ri, ro := RingRadius(Inner, volume), RingRadius(Outer, volume);
    assert 0.0 < ri <= ro;
    AbsScale(ri, ro, cos(degree));
    AbsScale(ri, ro, sin(degree));
  }

  lemma AbsScale(a: real, b: real, c: real)
    requires 0.0 <= a <= b
    ensures Abs(a * c) <= Abs(b * c)
  {
    if c >= 0.0 {
      assert a * c <= b * c;
    } else {
      assert a * c >= b * c;
    }
  }
}

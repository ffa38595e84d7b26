/** The simpler visualization sketch: a history that grows by one sample every frame, is capped
    at two thirds of the canvas width and is emptied when the song is paused. */
module Visualization {
  import opened Wrappers
  import Js
  import P5
  import History

  const CanvasWidth: nat := 400
  const CanvasHeight: nat := 200

  /** (canvasWidth / 3) * 2, which is not a whole number. */
  const EvictionThreshold: real := (CanvasWidth as real / 3.0) * 2.0

  /** The largest length the history reaches from empty. */
  const Capacity: nat := 266

  /** A length exceeds the threshold exactly when it is over 266. */
  lemma ExceedsThresholdIff(n: nat)
    ensures n as real > EvictionThreshold <==> n > Capacity
  {
    assert EvictionThreshold == 800.0 / 3.0;
  }

  /** The history after `recordHistory(volume)`. */
  function Recorded(h: seq<real>, volume: real): seq<real>
  {
    var pushed := h + [volume];
    if |pushed| as real > EvictionThreshold then pushed[1..] else pushed
  }

  /** One record keeps the history within 266 entries: below capacity it appends, at capacity it
      drops the oldest entry and appends (first in, first out). */
  lemma RecordHistoryStep(h: seq<real>, volume: real)
    requires |h| <= Capacity
    ensures |Recorded(h, volume)| <= Capacity
    ensures |h| < Capacity ==> Recorded(h, volume) == h + [volume]
    ensures |h| == Capacity ==> Recorded(h, volume) == h[1..] + [volume]
  {
    ExceedsThresholdIff(|h| + 1);
  }

  /** `p.map(volume, 0, 1, canvasHeight, 0)`. */
  function VolumeY(volume: real): real
  {
    P5.MapRange(volume, 0.0, 1.0, CanvasHeight as real, 0.0)
  }

  /** -(canvasHeight / 2) + lineHeight / 2 with lineHeight = map(Math.max(...history), 0, 1, 0,
      canvasHeight); `None` for the -Infinity of an empty history. */
  function LineTranslateY(h: seq<real>): (dy: Option<real>)
    ensures dy.Some? <==> h != []
    ensures (forall i :: 0 <= i < |h| ==> 0.0 <= h[i] <= 1.0) && h != [] ==>
      -(CanvasHeight as real) / 2.0 <= dy.value <= 0.0
  {
    match Js.Max(h)
    case None => None
    case Some(maxVolume) =>
      var lineHeight := P5.MapRange(maxVolume, 0.0, 1.0, 0.0, CanvasHeight as real);
      Some(-(CanvasHeight as real / 2.0) + lineHeight / 2.0)
  }

  /** `draw` records before it draws the line, so the line's translation is always finite. */
  lemma DrawnHistoryHasMaximum(h: seq<real>, volume: real)
    requires |h| <= Capacity
    ensures LineTranslateY(Recorded(h, volume)).Some?
  {
    RecordHistoryStep(h, volume);
  }

  /** What `drawVolumeLine` draws: the translation and the TESS vertices. */
  datatype VolumeLine = VolumeLine(translateY: Option<real>, vertices: seq<(real, real)>)

  class Sketch {
    var history: seq<real>

    ghost predicate Valid()
      reads this
    {
      |history| <= Capacity
    }

    constructor ()
      ensures Valid() && history == []
    {
      history := [];
    }

    /** `recordHistory(volume)`: always push, then evict one entry when over the threshold. */
    method RecordHistory(volume: real)
      requires Valid()
      modifies this
      ensures Valid()
      ensures history == Recorded(old(history), volume)
      ensures |old(history)| == Capacity ==> history == old(history)[1..] + [volume]
    {
      RecordHistoryStep(history, volume);
      history := history + [volume];
      if |history| as real > EvictionThreshold {
        history := history[1..];
      }
    }

    /** `toggleMusic`: pausing a playing song empties the history; playing leaves it. The result
        is whether the song plays afterwards. */
    method ToggleMusic(playing: bool) returns (nowPlaying: bool)
      requires Valid()
      modifies this
      ensures Valid()
      ensures nowPlaying == !playing
      ensures playing ==> history == []
      ensures !playing ==> history == old(history)
    {
      if playing {
        history := [];
      }
      nowPlaying := !playing;
    }

    /** `drawPlayLine`: a vertical line at x = the history length, drawn while playing. It always
        lies on the canvas. */
    method DrawPlayLine(playing: bool) returns (x: Option<real>)
      requires Valid()
      ensures !playing ==> x == None
      ensures playing ==> x == Some(|history| as real)
      ensures x.Some? ==> 0.0 <= x.value < CanvasWidth as real
    {
      var currentX := |history|;
      x := if playing then Some(currentX as real) else None;
    }

    /** `drawVolumeLine`: while playing, one vertex per entry, the i-th at x = i. */
    method DrawVolumeLine(playing: bool) returns (line: Option<VolumeLine>)
      ensures !playing ==> line == None
      ensures playing ==> line.Some? && line.value.translateY == LineTranslateY(history)
      ensures playing ==> |line.value.vertices| == |history|
      ensures playing ==> forall i :: 0 <= i < |history| ==>
        line.value.vertices[i] == (i as real, VolumeY(history[i]))
    {
      var translateY := LineTranslateY(history);
      line := None;
      if playing {
        var vertices := [];
        for index := 0 to |history|
          invariant |vertices| == index
          invariant forall i :: 0 <= i < index ==> vertices[i] == (i as real, VolumeY(history[i]))
        {
          var y := VolumeY(history[index]);
          vertices := vertices + [(index as real, y)];
        }
        line := Some(VolumeLine(translateY, vertices));
      }
    }
  }

  /** Successive frames starting from the empty history of a paused song. */
  function RecordAll(h: seq<real>, volumes: seq<real>): seq<real>
    decreases |volumes|
  {
    if volumes == [] then h else RecordAll(Recorded(h, volumes[0]), volumes[1..])
  }

  /** However many frames are recorded, the history is the most recent (at most 266) samples in
      the order they arrived. */
  lemma {:induction false} RecordAllKeepsLatest(h: seq<real>, volumes: seq<real>)
    requires |h| <= Capacity
    ensures RecordAll(h, volumes) == History.Latest(h + volumes, Capacity)
    decreases |volumes|
  {
    if volumes == [] {
      assert h + volumes == h;
    } else {
      var v, rest := volumes[0], volumes[1..];
      RecordHistoryStep(h, v);
      var h' := Recorded(h, v);
      RecordAllKeepsLatest(h', rest);
      assert h + volumes == (h + [v]) + rest;
      if |h| == Capacity {
        assert h' + rest == (h + volumes)[1..];
        History.LatestDropsFirst(h + volumes, Capacity);
      } else {
        assert h' + rest == h + volumes;
      }
    }
  }
}

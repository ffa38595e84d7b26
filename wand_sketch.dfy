/** The state of the magic-wand sketch, `volumeHistory` and `magicBorderX`, and the handlers that
    update it in place. Whether the song is playing comes from the audio library and is a
    parameter, as is the amplitude of the frame. */
module WandSketch {
  import opened Wrappers
  import opened Noise
  import opened MagicWand
  import opened WandRender

  datatype Mode = Linear | Circular

  /** What one `p.draw` call emits: the magic border (the line's x, or the circle's diameter),
      when the song plays, and the music drawing. */
  datatype Frame =
    | LinearMode(borderLineX: Option<real>, linear: Option<LinearFrame>)
    | CircularMode(borderCircleDiameter: Option<real>, circular: Option<CircularFrame>)

  class Sketch {
    var history: seq<Sample>
    var borderX: real

    ghost predicate Valid()
      reads this
    {
      |history| == CanvasWidth && 0.0 <= borderX < CanvasWidth as real
    }

    /** The sketch's declarations followed by `p.preload`, which calls `initializeHistory`. */
    constructor ()
      ensures Valid()
      ensures history == InitialHistory() && borderX == InitialBorderX
    {
      history := InitialHistory();
      borderX := InitialBorderX;
    }

    /** `initializeHistory`. */
    method InitializeHistory()
      requires Valid()
      modifies this`history
      ensures Valid()
      ensures history == InitialHistory()
    {
      history := InitialHistory();
    }

    /** `recordHistory(volume)`: push while playing, then evict one entry from the front if the
        history is over capacity. */
    method RecordHistory(volume: real, playing: bool)
      requires Valid()
      modifies this`history
      ensures Valid()
      ensures history == Recorded(old(history), volume, playing)
      ensures |old(history)| == CanvasWidth ==> |history| == CanvasWidth
      ensures !playing ==> history == old(history)
      ensures playing && |old(history)| == CanvasWidth ==> history == old(history)[1..] + [Some(volume)]
    {
      if playing {
        history := history + [Some(volume)];
      }
      if |history| > CanvasWidth {
        history := history[1..];
      }
    }

    /** `toggleMusic`: stopping a playing song resets the history; starting one leaves it. The
        result is whether the song plays afterwards. */
    method ToggleMusic(playing: bool) returns (nowPlaying: bool)
      requires Valid()
      modifies this`history
      ensures Valid()
      ensures nowPlaying == !playing
      ensures playing ==> history == InitialHistory()
      ensures !playing ==> history == old(history)
    {
      if playing {
        InitializeHistory();
      }
      nowPlaying := !playing;
    }

    /** `updatePlayLineX`, run on every drag. */
    method UpdatePlayLineX(mouseX: real, mouseY: real)
      requires Valid()
      modifies this`borderX
      ensures Valid()
      ensures borderX == UpdatedBorderX(old(borderX), mouseX, mouseY)
      ensures mouseY > ControllerPositionY ==> borderX == old(borderX)
    {
      if mouseY > ControllerPositionY {
        return;
      }
      if mouseX <= 0.0 {
        borderX := 0.0;
      } else if mouseX >= CanvasWidth as real {
        borderX := (CanvasWidth - MagicBorderWidth) as real;
      } else {
        borderX := mouseX;
      }
    }

    /** `p.draw`: record the frame's amplitude, then draw the border and the music in the
        selected mode. */
    method Draw(volume: real, playing: bool, mode: Mode, cos: nat -> real, sin: nat -> real,
                rand: nat -> real, at: nat)
      returns (frame: Frame, next: nat)
      requires Valid() && IsUnitOracle(rand)
      modifies this`history
      ensures Valid()
      ensures history == Recorded(old(history), volume, playing)
      ensures mode == Linear ==>
        frame.LinearMode? &&
        frame.borderLineX == (if playing then Some(borderX) else None) &&
        (playing ==> frame.linear.Some? && IsLinearFrame(history, borderX, frame.linear.value)) &&
        (!playing ==> frame.linear == None)
      ensures mode == Circular ==>
        frame.CircularMode? &&
        frame.borderCircleDiameter == (if playing then Some(BorderCircleDiameter(borderX)) else None) &&
        (playing ==> frame.circular.Some? && IsCircularFrame(history, borderX, cos, sin, frame.circular.value)) &&
        (!playing ==> frame.circular == None)
      ensures mode == Linear && playing ==> forall i :: 0 <= i < |history| && Truthy(history[i]) ==>
        exists p :: (p in frame.linear.value.dots || p in frame.linear.value.lines) && p.base.x == i as real
    {
      RecordHistory(volume, playing);
      if mode == Circular {
        var diameter := BorderCircleDiameter(borderX);
        var music;
        music, next := DrawMusicInCircular(history, borderX, playing, cos, sin, rand, at);
        frame := CircularMode(if playing then Some(diameter) else None, music);
      } else {
        var music;
        music, next := DrawMusicInLinear(history, borderX, playing, rand, at);
        frame := LinearMode(if playing then Some(borderX) else None, music);
        if playing {
          TruthyEntriesDrawnAtIndex(history, borderX, music.value);
        }
      }
    }
  }
}

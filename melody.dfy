/** The simple-melody app: a Pythagorean major scale over a fourth-octave note, a row of eight
    piano keys, a recorded melody of key indices and the delays its notes are played at. */
module SimpleMelody {
  import opened Wrappers

  /** The keys of `octave4NoteAndFq`, in their declaration order. */
  datatype Note = C | CSharp | D | DSharp | E | F | FSharp | G | GSharp | A | ASharp | B

  function Name(n: Note): string
  {
    match n
    case C => "C" case CSharp => "C#" case D => "D" case DSharp => "D#"
    case E => "E" case F => "F" case FSharp => "F#" case G => "G"
    case GSharp => "G#" case A => "A" case ASharp => "A#" case B => "B"
  }

  /** The fourth-octave frequency of each note, in Hz. */
  function Frequency(n: Note): (hz: real)
    ensures 261.0 < hz < 494.0
  {
    match n
    case C => 261.63 case CSharp => 277.18 case D => 293.66 case DSharp => 311.13
    case E => 329.63 case F => 349.23 case FSharp => 369.99 case G => 392.0
    case GSharp => 415.3 case A => 440.0 case ASharp => 466.16 case B => 493.88
  }

  /** `Object.keys(octave4NoteAndFq).includes(s)`, answering with the note named `s`. */
  function ParseNote(s: string): (r: Option<Note>)
    ensures r.Some? ==> Name(r.value) == s
  {
    if s == "C" then Some(C) else if s == "C#" then Some(CSharp)
    else if s == "D" then Some(D) else if s == "D#" then Some(DSharp)
    else if s == "E" then Some(E) else if s == "F" then Some(F)
    else if s == "F#" then Some(FSharp) else if s == "G" then Some(G)
    else if s == "G#" then Some(GSharp) else if s == "A" then Some(A)
    else if s == "A#" then Some(ASharp) else if s == "B" then Some(B)
    else None
  }

  /** Every note's name is recognised as that note, so ParseNote accepts exactly the twelve names. */
  lemma ParseName(n: Note)
    ensures ParseNote(Name(n)) == Some(n)
  {
  }

  /** `getPythagoreanMajorScale(baseFq)`: the ratios 1, 9/8, 81/64, 4/3, 3/2, 27/16, 243/128, 2. */
  function PythagoreanMajorScale(baseFq: real): (scale: seq<real>)
    ensures |scale| == 8
    ensures scale[0] == baseFq && scale[7] == 2.0 * baseFq
    ensures baseFq > 0.0 ==> forall i, j :: 0 <= i < j < |scale| ==> scale[i] < scale[j]
  {
    [baseFq, (baseFq * 9.0) / 8.0, (baseFq * 81.0) / 64.0, (baseFq * 4.0) / 3.0,
     (baseFq * 3.0) / 2.0, (baseFq * 27.0) / 16.0, (baseFq * 243.0) / 128.0, baseFq * 2.0]
  }

  /** Consecutive degrees are a whole tone (9/8) apart, except E-F and B-C, a limma (256/243). */
  lemma ScaleSteps(baseFq: real, i: nat)
    requires i < 7
    ensures var s := PythagoreanMajorScale(baseFq);
      s[i + 1] == s[i] * (if i == 2 || i == 6 then 256.0 / 243.0 else 9.0 / 8.0)
  {
  }

  /** The notes of the selected scale, `getNotes`. */
  function Notes(scale: Note): (notes: seq<real>)
    ensures |notes| == 8
    ensures notes[0] == Frequency(scale) && notes[7] == 2.0 * Frequency(scale)
    ensures forall i, j :: 0 <= i < j < |notes| ==> notes[i] < notes[j]
  {
    PythagoreanMajorScale(Frequency(scale))
  }

  const CanvasWidth: real := 400.0

  /** `getKeyWidth`: the canvas width shared by the eight notes of the scale. */
  function KeyWidth(scale: Note): (w: real)
    ensures w == 50.0
  {
    CanvasWidth / |Notes(scale)| as real
  }

  datatype Point = Point(x: real, y: real)

  /** `getKeyPosition(index)`: keys sit side by side, their top at three key widths. */
  function KeyPosition(scale: Note, index: int): (p: Point)
    ensures p == Point(50.0 * index as real, 150.0)
  {
    var keyWidth := KeyWidth(scale);
    Point(index as real * keyWidth, keyWidth * 3.0)
  }

  /** The hit test of `record`: strictly inside the key's width-by-two-widths rectangle. */
  predicate InsideKey(scale: Note, mouseX: real, mouseY: real, index: int)
    ensures InsideKey(scale, mouseX, mouseY, index) <==>
      50.0 * index as real < mouseX < 50.0 * index as real + 50.0 && 150.0 < mouseY < 250.0
  {
    var p, keyWidth := KeyPosition(scale, index), KeyWidth(scale);
    mouseX > p.x && mouseX < p.x + keyWidth && mouseY > p.y && mouseY < p.y + keyWidth * 2.0
  }

  /** The keys below n that a press at (mouseX, mouseY) hits, in index order. */
  function HitKeys(scale: Note, mouseX: real, mouseY: real, n: nat): seq<int>
  {
    if n == 0 then []
    else HitKeys(scale, mouseX, mouseY, n - 1) + (if InsideKey(scale, mouseX, mouseY, n - 1) then [n - 1] else [])
  }

  /** Keys do not overlap: no point is strictly inside two of them. */
  lemma KeysDisjoint(scale: Note, mouseX: real, mouseY: real, i: int, j: int)
    requires InsideKey(scale, mouseX, mouseY, i) && InsideKey(scale, mouseX, mouseY, j)
    ensures i == j
  {
  }

  lemma {:induction false} HitKeysMembers(scale: Note, mouseX: real, mouseY: real, n: nat)
    ensures forall k :: k in HitKeys(scale, mouseX, mouseY, n) <==> 0 <= k < n && InsideKey(scale, mouseX, mouseY, k)
    ensures |HitKeys(scale, mouseX, mouseY, n)| <= 1
  {
    if n > 0 {
      HitKeysMembers(scale, mouseX, mouseY, n - 1);
      var earlier := HitKeys(scale, mouseX, mouseY, n - 1);
      if InsideKey(scale, mouseX, mouseY, n - 1) && |earlier| == 1 {
        assert earlier[0] in earlier;
        KeysDisjoint(scale, mouseX, mouseY, earlier[0], n - 1);
      }
    }
  }

  /** A press hits at most one of the eight keys: the hit list is [i] exactly when the pointer is
      strictly inside key i, and empty when it is inside none. */
  lemma PressHitsAtMostOneKey(scale: Note, mouseX: real, mouseY: real)
    ensures |HitKeys(scale, mouseX, mouseY, 8)| <= 1
    ensures forall i :: HitKeys(scale, mouseX, mouseY, 8) == [i] <==> 0 <= i < 8 && InsideKey(scale, mouseX, mouseY, i)
    ensures HitKeys(scale, mouseX, mouseY, 8) == [] <==> forall i :: 0 <= i < 8 ==> !InsideKey(scale, mouseX, mouseY, i)
  {
    HitKeysMembers(scale, mouseX, mouseY, 8);
    var hits := HitKeys(scale, mouseX, mouseY, 8);
    forall i ensures hits == [i] <==> 0 <= i < 8 && InsideKey(scale, mouseX, mouseY, i) {
      if hits == [i] {
        assert i in hits;
      }
      if 0 <= i < 8 && InsideKey(scale, mouseX, mouseY, i) {
        assert i in hits;
        assert hits[0] in hits;
        KeysDisjoint(scale, mouseX, mouseY, hits[0], i);
        assert hits == [hits[0]];
      }
    }
    if hits != [] {
      var k := hits[0];
      assert k in hits;
      assert 0 <= k < 8 && InsideKey(scale, mouseX, mouseY, k);
    } else {
      forall i | 0 <= i < 8 ensures !InsideKey(scale, mouseX, mouseY, i) {
        assert i !in hits;
      }
    }
  }

  /** A timer `play` sets: after `delayMs` milliseconds the note at key `key` of the scale
      selected at that moment is played. */
  datatype Timer = Timer(delayMs: real, key: int)

  const Tempo: nat := 120

  /** `noteDuration = 60 / melody.tempo`, in seconds. */
  const NoteDuration: real := 60.0 / Tempo as real

  class Melody {
    var scale: Note
    var record: seq<int>

    ghost predicate Valid()
      reads this
    {
      forall i :: 0 <= i < |record| ==> 0 <= record[i] < 8
    }

    /** The initial `melody` object: scale C, empty record, tempo 120. */
    constructor ()
      ensures Valid() && scale == C && record == []
    {
      scale := C;
      record := [];
    }

    /** `record`, on a mouse press: appends the index of the key under the pointer, if any. */
    method Record(mouseX: real, mouseY: real)
      requires Valid()
      modifies this`record
      ensures Valid()
      ensures record == old(record) + HitKeys(scale, mouseX, mouseY, 8)
      ensures |old(record)| <= |record| <= |old(record)| + 1
      ensures record[..|old(record)|] == old(record)
    {
      var keyWidth := KeyWidth(scale);
      var numOfNotes := |Notes(scale)|;
      ghost var before := record;
      for index := 0 to numOfNotes
        invariant record == before + HitKeys(scale, mouseX, mouseY, index)
      {
        var p := KeyPosition(scale, index);
        if mouseX > p.x && mouseX < p.x + keyWidth && mouseY > p.y && mouseY < p.y + keyWidth * 2.0 {
          record := record + [index];
        }
      }
      HitKeysMembers(scale, mouseX, mouseY, 8);
      assert record[..|before|] == before;
      forall i | |before| <= i < |record| ensures 0 <= record[i] < 8 {
        assert record[i] in HitKeys(scale, mouseX, mouseY, 8);
      }
    }

    /** `resetRecord`. */
    method ResetRecord()
      modifies this`record
      ensures Valid()
      ensures record == []
    {
      record := [];
    }

    /** `handleScaleChange`: a known note becomes the scale and clears the record; anything else
        throws and changes nothing. */
    method HandleScaleChange(selected: string) returns (outcome: Outcome<string>)
      requires Valid()
      modifies this
      ensures Valid()
      ensures ParseNote(selected).Some? ==> outcome == Pass && scale == ParseNote(selected).value && record == []
      ensures ParseNote(selected).None? ==>
        outcome == Fail("invalid scale selected `" + selected + "`") && scale == old(scale) && record == old(record)
    {
      match ParseNote(selected)
      case Some(note) =>
        scale := note;
        ResetRecord();
        outcome := Pass;
      case None =>
        outcome := Fail("invalid scale selected `" + selected + "`");
    }

    /** `play`: one timer per recorded key, the i-th after noteDuration * 1000 * i milliseconds, so
        the keys sound in recorded order, half a second apart. */
    method Play() returns (timers: seq<Timer>)
      ensures |timers| == |record|
      ensures forall i :: 0 <= i < |record| ==> timers[i] == Timer(500.0 * i as real, record[i])
      ensures forall i, j :: 0 <= i <= j < |timers| ==> timers[i].delayMs <= timers[j].delayMs
    {
      timers := [];
      for index := 0 to |record|
        invariant |timers| == index
        invariant forall i :: 0 <= i < index ==> timers[i] == Timer(500.0 * i as real, record[i])
      {
        timers := timers + [Timer(NoteDuration * 1000.0 * index as real, record[index])];
      }
    }
  }
}

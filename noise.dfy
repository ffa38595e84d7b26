/** The random helpers of the magic-wand sketch and `drawNoise`, with Math.random replaced by an
    injected oracle: the n-th call of Math.random() returns `rand(n)`, and every operation that
    draws takes the position `at` of its first draw and returns the position `next` after its last. */
module Noise {

  /** What Math.random promises: every draw lies in [0, 1). */
  ghost predicate IsUnitOracle(rand: nat -> real)
  {
    forall n: nat :: 0.0 <= rand(n) < 1.0
  }

  datatype Color = Color(r: int, g: int, b: int)

  /** One `curveVertex` call: a position and the stroke colour in force when it was emitted. */
  datatype Vertex = Vertex(x: real, y: real, stroke: Color)

  /** Default of drawNoise's shiftX and shiftY options. */
  const DefaultShift: nat := 100

  /** Draws one noise vertex consumes: three for the colour, two per axis (sign, then magnitude). */
  const DrawsPerVertex: nat := 7

  /** `getRandomInt(max)` = Math.floor(draw * max). */
  function RandomInt(draw: real, max: nat): (k: nat)
    requires 0.0 <= draw < 1.0
    ensures max == 0 ==> k == 0
    ensures max > 0 ==> k < max
  {
    ProductBelow(draw, max);
    (draw * max as real).Floor
  }

  lemma ProductBelow(draw: real, max: nat)
    requires 0.0 <= draw < 1.0
    ensures 0.0 <= draw * max as real
    ensures max > 0 ==> draw * max as real < max as real
    ensures max == 0 ==> draw * max as real == 0.0
  {
  }

  predicate IsChannel(c: int) { 0 <= c <= 254 }

  predicate InPalette(color: Color) { IsChannel(color.r) && IsChannel(color.g) && IsChannel(color.b) }

  /** `getRandomRBG()`: three draws, each channel Math.floor(draw * 255). */
  function RandomRgb(r: real, g: real, b: real): (color: Color)
    requires 0.0 <= r < 1.0 && 0.0 <= g < 1.0 && 0.0 <= b < 1.0
    ensures InPalette(color)
  {
    Color(RandomInt(r, 255), RandomInt(g, 255), RandomInt(b, 255))
  }

  /** `addOrSubtract()`: -1 when the draw is below one half, 1 otherwise. */
  function AddOrSubtract(draw: real): (sign: int)
    ensures sign * sign == 1
    ensures sign < 0 <==> draw < 0.5
  {
    if draw < 0.5 then -1 else 1
  }

  /** An offset allowed by a shift bound: strictly inside (-shift, shift), or exactly 0 when the
      bound is 0. */
  predicate WithinShift(offset: real, shift: nat)
  {
    if shift == 0 then offset == 0.0 else -(shift as real) < offset < shift as real
  }

  /** `getShiftedPosition(max)`: the sign is drawn first, then the magnitude. */
  function ShiftedPosition(signDraw: real, magnitudeDraw: real, max: nat): (offset: int)
    requires 0.0 <= magnitudeDraw < 1.0
    ensures WithinShift(offset as real, max)
    ensures offset == 0 || AddOrSubtract(signDraw) * offset > 0
  {
    RandomInt(magnitudeDraw, max) * AddOrSubtract(signDraw)
  }

  /** A noise vertex scattered around (x, y) within the shift bounds, in the RGB palette. */
  predicate Scattered(v: Vertex, x: real, y: real, shiftX: nat, shiftY: nat)
  {
    WithinShift(v.x - x, shiftX) && WithinShift(v.y - y, shiftY) && InPalette(v.stroke)
  }

  /** The vertex drawNoise emits from the seven draws starting at `at`. */
  function NoiseVertex(x: real, y: real, shiftX: nat, shiftY: nat, rand: nat -> real, at: nat): (v: Vertex)
    requires IsUnitOracle(rand)
    ensures Scattered(v, x, y, shiftX, shiftY)
  {
    var color := RandomRgb(rand(at), rand(at + 1), rand(at + 2));
    var dx := ShiftedPosition(rand(at + 3), rand(at + 4), shiftX);
    var dy := ShiftedPosition(rand(at + 5), rand(at + 6), shiftY);
    Vertex(x + dx as real, y + dy as real, color)
  }

  /** A looser bound admits everything a tighter one does. */
  lemma WithinLooserShift(offset: real, shift: nat, bound: nat)
    requires WithinShift(offset, shift)
    requires shift <= bound && 0 < bound
    ensures WithinShift(offset, bound)
  {
  }

  /** `drawNoise`: emits exactly `intensity` vertices around (x, y), the k-th built from the
      draws at `at + 7k`. */
  method DrawNoise(x: real, y: real, intensity: nat, shiftX: nat, shiftY: nat, rand: nat -> real, at: nat)
    returns (vertices: seq<Vertex>, next: nat)
    requires IsUnitOracle(rand)
    ensures |vertices| == intensity
    ensures next == at + DrawsPerVertex * intensity
    ensures forall k :: 0 <= k < intensity ==> vertices[k] == NoiseVertex(x, y, shiftX, shiftY, rand, at + DrawsPerVertex * k)
    ensures forall v :: v in vertices ==> Scattered(v, x, y, shiftX, shiftY)
  {
    vertices, next := [], at;
    for k := 0 to intensity
      invariant |vertices| == k
      invariant next == at + DrawsPerVertex * k
      invariant forall j :: 0 <= j < k ==> vertices[j] == NoiseVertex(x, y, shiftX, shiftY, rand, at + DrawsPerVertex * j)
    {
      var rgb := RandomRgb(rand(next), rand(next + 1), rand(next + 2));
      var randX := ShiftedPosition(rand(next + 3), rand(next + 4), shiftX);
      var randY := ShiftedPosition(rand(next + 5), rand(next + 6), shiftY);
      vertices := vertices + [Vertex(x + randX as real, y + randY as real, rgb)];
      next := next + DrawsPerVertex;
    }
  }
}

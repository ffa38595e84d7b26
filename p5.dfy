/** The one p5 helper whose value the sketches compute with. */
module P5 {

  /** `p.map(v, start1, stop1, start2, stop2)`: the affine map sending start1 to start2 and
      stop1 to stop2, not clamped. */
  function MapRange(v: real, start1: real, stop1: real, start2: real, stop2: real): (r: real)
    requires start1 != stop1
    ensures v == start1 ==> r == start2
    ensures v == stop1 ==> r == stop2
  {
    (v - start1) / (stop1 - start1) * (stop2 - start2) + start2
  }
}

/**
 * The two pure computations inside cube.py's Paint: the screen projection
 * `__fit` and the colour of an edge. Python's `round` is not modelled; it is
 * supplied as a parameter.
 */
module Paint {
  import opened Geometry
  import opened Body

  /** `self.__size`: the window is 900 x 900. */
  const FrameSize: seq<int> := [900, 900]

  /** Pixels per unit of length. */
  const Scale: real := 70.0

  function Min(a: nat, b: nat): (m: nat)
  {
    if a <= b then a else b
  }

  /**
   * `[round(70 * coordinate + frame / 2) for coordinate, frame in zip(vec, size)]`:
   * zip stops at the shorter input.
   */
  function FitZip(round: real -> int, coords: seq<real>, frame: seq<int>): (p: seq<int>)
    ensures |p| == Min(|coords|, |frame|)
    ensures forall i :: 0 <= i < |p| ==> p[i] == round(Scale * coords[i] + frame[i] as real / 2.0)
  {
    if coords == [] || frame == [] then []
    else [round(Scale * coords[0] + frame[0] as real / 2.0)] + FitZip(round, coords[1..], frame[1..])
  }

  /** `__fit(vec)` for a 3-D point. */
  function Fit(round: real -> int, v: Vec3): (p: seq<int>)
    ensures |p| == 2
  {
    FitZip(round, [v.x, v.y, v.z], FrameSize)
  }

  /**
   * A point maps to exactly two pixel coordinates, x and y each scaled by 70
   * and moved to the centre of the frame.
   */
  lemma FitCoordinates(round: real -> int, v: Vec3)
    ensures Fit(round, v) == [round(70.0 * v.x + 450.0), round(70.0 * v.y + 450.0)]
  {
    var p := Fit(round, v);
    assert |p| == 2;
    assert p[0] == round(Scale * v.x + 900 as real / 2.0);
  }

  /** The z coordinate is ignored. */
  lemma FitIgnoresZ(round: real -> int, v: Vec3, z: real)
    ensures Fit(round, v) == Fit(round, Vec3(v.x, v.y, z))
  {
    FitCoordinates(round, v);
    FitCoordinates(round, Vec3(v.x, v.y, z));
  }

  function Abs(r: real): (a: real)
  {
    if r < 0.0 then -r else r
  }

  /** An RGB colour, before the drawing library clamps it to 0..255. */
  datatype Colour = Colour(red: real, green: real, blue: real)

  /** The colour of the line drawn for edge s, from its endpoints' x coordinates. */
  function EdgeColour(s: Segment): (c: Colour)
    ensures c.red >= 0.0 && c.green >= 0.0 && c.blue >= 0.0
  {
    Colour(Abs(s.start.x * 30.0 + 0.3 * s.end.x * 100.0),
           Abs(s.end.x * 120.0 * 0.6 - 117.0 * 0.4 * s.start.x),
           Abs(0.2 * 145.0 * s.end.x))
  }

  /**
   * In exact arithmetic the three channels are |30 sx + 30 ex|,
   * |72 ex - 46.8 sx| and |29 ex|, for sx and ex the endpoints' x coordinates;
   * y and z play no part.
   */
  lemma EdgeColourLinear(s: Segment)
    ensures var sx, ex := s.start.x, s.end.x;
      EdgeColour(s) == Colour(Abs(30.0 * sx + 30.0 * ex), Abs(72.0 * ex - 46.8 * sx), Abs(29.0 * ex))
  {
  }

  /** Start (1,0,0) and end (0,0,0) give the colour (30, 46.8, 0). */
  lemma EdgeColourExample()
    ensures EdgeColour(Segment(Vec3(1.0, 0.0, 0.0), Vec3(0.0, 0.0, 0.0))) == Colour(30.0, 46.8, 0.0)
  {
  }
}

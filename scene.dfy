/**
 * What cube.py's `main` sets up: the 10-vertex cube it builds and draws, the key table
 * `params` and `keys_handler`, which turns the body once per held key.
 */
module Scene {
  import opened Geometry
  import opened Body

  /** A pygame key code; the six used here are the letters' ASCII codes. */
  type KeyCode = int

  const KeyQ: KeyCode := 113
  const KeyW: KeyCode := 119
  const KeyA: KeyCode := 97
  const KeyS: KeyCode := 115
  const KeyZ: KeyCode := 122
  const KeyX: KeyCode := 120

  /** Radians per frame while a key is held. */
  const CounterClockwise: real := 0.005
  const Clockwise: real := -CounterClockwise

  /** One entry of `params`: a key and the arguments it passes to rotate. */
  datatype Binding = Binding(key: KeyCode, axis: nat, delta: real)

  /** `params`, in the dictionary's insertion (and so iteration) order. */
  const Params: seq<Binding> := [
    Binding(KeyQ, X, Clockwise),
    Binding(KeyW, X, CounterClockwise),
    Binding(KeyA, Y, Clockwise),
    Binding(KeyS, Y, CounterClockwise),
    Binding(KeyZ, Z, Clockwise),
    Binding(KeyX, Z, CounterClockwise)
  ]

  predicate AxesInRange(table: seq<Binding>)
  {
    forall i :: 0 <= i < |table| ==> table[i].axis < 3
  }

  /** The angles after walking table in order and turning once per pressed key. */
  function Handled(angles: seq<real>, table: seq<Binding>, pressed: KeyCode -> bool): (r: seq<real>)
    requires |angles| == 3 && AxesInRange(table)
    ensures |r| == 3
  {
    if table == [] then angles
    else
      var before := Handled(angles, table[..|table| - 1], pressed);
      var b := table[|table| - 1];
      if pressed(b.key) then Turned(before, b.axis, b.delta) else before
  }

  /**
   * The shape of params: six distinct keys, two per axis in the order X, Y,
   * Z, the clockwise step first and the counter-clockwise step second.
   */
  lemma ParamsTable()
    ensures |Params| == 6
    ensures forall i :: 0 <= i < |Params| ==>
      Params[i].axis == i / 2 && Params[i].delta == (if i % 2 == 0 then Clockwise else CounterClockwise)
    ensures forall i, j :: 0 <= i < j < |Params| ==> Params[i].key != Params[j].key
  {
  }

  /** Every entry of params names one of the three axes. */
  lemma ParamsAxesInRange()
    ensures AxesInRange(Params)
  {
  }

  /** What binding b contributes to axis when the keys in pressed are held. */
  function Contribution(b: Binding, pressed: KeyCode -> bool, axis: nat): (step: real)
  {
    if pressed(b.key) && b.axis == axis then b.delta else 0.0
  }

  /** The sum of the steps of the pressed keys of table that act on axis. */
  function PressedSum(table: seq<Binding>, pressed: KeyCode -> bool, axis: nat): (sum: real)
  {
    if table == [] then 0.0
    else PressedSum(table[..|table| - 1], pressed, axis) + Contribution(table[|table| - 1], pressed, axis)
  }

  /** PressedSum of params, one entry at a time. */
  lemma ParamsPressedSum(pressed: KeyCode -> bool, axis: nat)
    ensures PressedSum(Params, pressed, axis)
         == Contribution(Params[0], pressed, axis) + Contribution(Params[1], pressed, axis)
          + Contribution(Params[2], pressed, axis) + Contribution(Params[3], pressed, axis)
          + Contribution(Params[4], pressed, axis) + Contribution(Params[5], pressed, axis)
  {
    assert Params[..6] == Params;
    forall n | 1 <= n <= 6
      ensures PressedSum(Params[..n], pressed, axis)
           == PressedSum(Params[..n - 1], pressed, axis) + Contribution(Params[n - 1], pressed, axis)
    {
      assert Params[..n][..n - 1] == Params[..n - 1];
    }
    assert Params[..0] == [];
  }

  /** Handling a table moves each angle by the sum of its pressed steps. */
  lemma {:induction false} HandledSums(angles: seq<real>, table: seq<Binding>, pressed: KeyCode -> bool, k: nat)
    requires |angles| == 3 && AxesInRange(table)
    requires k < 3
    ensures Handled(angles, table, pressed)[k] == angles[k] + PressedSum(table, pressed, k)
  {
    if table != [] {
      HandledSums(angles, table[..|table| - 1], pressed, k);
    }
  }

  /** 1 for a held key, 0 otherwise. */
  function Held(pressed: KeyCode -> bool, key: KeyCode): (n: real)
    ensures n == 0.0 || n == 1.0
  {
    if pressed(key) then 1.0 else 0.0
  }

  /**
   * The net step of one axis: 0.005 times (1 if its counter-clockwise key is
   * held) minus (1 if its clockwise key is held).
   */
  function NetStep(pressed: KeyCode -> bool, ccw: KeyCode, cw: KeyCode): (step: real)
  {
    CounterClockwise * (Held(pressed, ccw) - Held(pressed, cw))
  }

  /** The steps of params summed per axis. */
  lemma ParamsAxisSums(pressed: KeyCode -> bool)
    ensures PressedSum(Params, pressed, X) == NetStep(pressed, KeyW, KeyQ)
    ensures PressedSum(Params, pressed, Y) == NetStep(pressed, KeyS, KeyA)
    ensures PressedSum(Params, pressed, Z) == NetStep(pressed, KeyX, KeyZ)
  {
    ParamsPressedSum(pressed, X);
    ParamsPressedSum(pressed, Y);
    ParamsPressedSum(pressed, Z);
  }

  /** The three angles after handling a table, in terms of the pressed sums. */
  lemma HandledTotals(angles: seq<real>, table: seq<Binding>, pressed: KeyCode -> bool)
    requires |angles| == 3 && AxesInRange(table)
    ensures Handled(angles, table, pressed) == [
      angles[0] + PressedSum(table, pressed, X),
      angles[1] + PressedSum(table, pressed, Y),
      angles[2] + PressedSum(table, pressed, Z)]
  {
    var r := Handled(angles, table, pressed);
    HandledSums(angles, table, pressed, X);
    HandledSums(angles, table, pressed, Y);
    HandledSums(angles, table, pressed, Z);
    assert r == [r[0], r[1], r[2]];
  }

  /** HandledTotals with the three sums already known. */
  lemma HandledTotalsAre(angles: seq<real>, table: seq<Binding>, pressed: KeyCode -> bool, sx: real, sy: real, sz: real)
    requires |angles| == 3 && AxesInRange(table)
    requires PressedSum(table, pressed, X) == sx
    requires PressedSum(table, pressed, Y) == sy
    requires PressedSum(table, pressed, Z) == sz
    ensures Handled(angles, table, pressed) == [angles[0] + sx, angles[1] + sy, angles[2] + sz]
  {
    HandledTotals(angles, table, pressed);
  }

  /**
   * The net change of each axis is 0.005 times the number of its held
   * counter-clockwise keys minus the number of its held clockwise keys.
   */
  lemma ParamsNetChange(angles: seq<real>, pressed: KeyCode -> bool)
    requires |angles| == 3
    ensures AxesInRange(Params)
    ensures Handled(angles, Params, pressed) == [
      angles[0] + NetStep(pressed, KeyW, KeyQ),
      angles[1] + NetStep(pressed, KeyS, KeyA),
      angles[2] + NetStep(pressed, KeyX, KeyZ)]
  {
    ParamsAxesInRange();
    ParamsAxisSums(pressed);
    HandledTotalsAre(angles, Params, pressed,
      NetStep(pressed, KeyW, KeyQ), NetStep(pressed, KeyS, KeyA), NetStep(pressed, KeyX, KeyZ));
  }

  /** With no key of the table held, the angles are unchanged. */
  lemma {:induction false} IdleHandling(angles: seq<real>, table: seq<Binding>, pressed: KeyCode -> bool)
    requires |angles| == 3 && AxesInRange(table)
    requires forall i :: 0 <= i < |table| ==> !pressed(table[i].key)
    ensures Handled(angles, table, pressed) == angles
  {
    if table != [] {
      IdleHandling(angles, table[..|table| - 1], pressed);
    }
  }

  /** keys_handler: one Rotate per held key of params, in table order. */
  method KeysHandler(body: PhysicalBody, pressed: KeyCode -> bool)
    requires body.Valid()
    modifies body.rotation
    ensures AxesInRange(Params)
    ensures body.rotation[..] == Handled(old(body.rotation[..]), Params, pressed)
  {
    for i := 0 to |Params|
      invariant body.rotation[..] == Handled(old(body.rotation[..]), Params[..i], pressed)
    {
      var b := Params[i];
      assert Params[..i + 1][..i] == Params[..i];
      if pressed(b.key) {
        body.Rotate(b.axis, b.delta);
      }
    }
    assert Params[..|Params|] == Params;
  }

  /** The vertices of the cube `main` builds: a cube with one corner cut into three. */
  const CubeVertices: seq<Vec3> := [
    Vec3(2.0, 2.0, 1.6), Vec3(2.0, 2.0, -2.0), Vec3(2.0, -2.0, 2.0), Vec3(2.0, -2.0, -2.0),
    Vec3(-2.0, 2.0, 2.0), Vec3(-2.0, 2.0, -2.0), Vec3(-2.0, -2.0, 2.0), Vec3(-2.0, -2.0, -2.0),
    Vec3(2.0, 1.6, 2.0), Vec3(1.6, 2.0, 2.0)
  ]

  /** The cube's fifteen edges, each with its endpoints in the order written. */
  const CubeEdges: seq<Edge> := [
    Edge(0, 1), Edge(0, 9), Edge(0, 8), Edge(1, 3), Edge(3, 2), Edge(2, 8), Edge(8, 9), Edge(1, 5),
    Edge(5, 4), Edge(4, 9), Edge(4, 6), Edge(6, 7), Edge(7, 5), Edge(7, 3), Edge(6, 2)
  ]

  /** The cube `main` builds meets the body's construction precondition. */
  lemma CubeFits()
    ensures |CubeVertices| == 10 && |CubeEdges| == 15
    ensures EdgesInRange(CubeEdges, |CubeVertices|)
  {
  }

  /** The body `main` builds, unrotated, over the cube's vertices and edges. */
  method MakeCube() returns (cube: PhysicalBody)
    ensures fresh(cube.rotation) && cube.Valid()
    ensures cube.vertices == CubeVertices && cube.edges == CubeEdges
    ensures cube.rotation[..] == [0.0, 0.0, 0.0]
  {
    CubeFits();
    cube := new PhysicalBody(CubeVertices, CubeEdges);
  }
}

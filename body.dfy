/**
 * The rotatable rigid body of cube.py (class PhysicalBody): a fixed vertex
 * array, a fixed tuple of edges and a three-slot rotation accumulator.
 */
module Body {
  import opened Geometry

  /**
   * An edge joins two distinct vertices. The source stores each edge as a
   * two-element set; here the two indices are an ordered pair, and which of
   * them plays the start is whatever order the caller wrote them in.
   */
  datatype Edge = Edge(v1: nat, v2: nat)

  /** One yielded pair of transformed endpoints. */
  datatype Segment = Segment(start: Vec3, end: Vec3)

  /** An edge of a body with n vertices: two distinct indices, both in range. */
  predicate EdgeFits(e: Edge, n: nat)
  {
    e.v1 != e.v2 && e.v1 < n && e.v2 < n
  }

  predicate EdgesInRange(edges: seq<Edge>, n: nat)
  {
    forall i :: 0 <= i < |edges| ==> EdgeFits(edges[i], n)
  }

  /**
   * `vertices.dot(m)`: the N x 3 vertex array times the 3 x 3 matrix, that is,
   * every vertex as a row vector times m, kept in vertex order.
   */
  function Transform(vertices: seq<Vec3>, m: Mat3): (location: seq<Vec3>)
    ensures |location| == |vertices|
    ensures forall k :: 0 <= k < |vertices| ==> location[k] == RowTimes(vertices[k], m)
  {
    if vertices == [] then [] else [RowTimes(vertices[0], m)] + Transform(vertices[1..], m)
  }

  /** The generator `((location[v1], location[v2]) for v1, v2 in edges)`, drained. */
  function EdgePairs(location: seq<Vec3>, edges: seq<Edge>): (pairs: seq<Segment>)
    requires EdgesInRange(edges, |location|)
    ensures |pairs| == |edges|
    ensures forall i :: 0 <= i < |edges| ==>
              pairs[i] == Segment(location[edges[i].v1], location[edges[i].v2])
  {
    if edges == [] then []
    else [Segment(location[edges[0].v1], location[edges[0].v2])] + EdgePairs(location, edges[1..])
  }

  /** The pairs `lines` yields for a body with these vertices, edges and angles. */
  function LinesOf(vertices: seq<Vec3>, edges: seq<Edge>, angles: seq<real>, t: Trig): (pairs: seq<Segment>)
    requires |angles| == 3
    requires EdgesInRange(edges, |vertices|)
    ensures |pairs| == |edges|
  {
    EdgePairs(Transform(vertices, RotationMatrix(t, angles[0], angles[1], angles[2])), edges)
  }

  /**
   * One pair per stored edge, in stored edge order; pair i holds the two
   * endpoints of edge i, each turned by r_m of the current angles.
   */
  lemma LinesOfPairs(vertices: seq<Vec3>, edges: seq<Edge>, angles: seq<real>, t: Trig)
    requires |angles| == 3
    requires EdgesInRange(edges, |vertices|)
    ensures var m := RotationMatrix(t, angles[0], angles[1], angles[2]);
      var pairs := LinesOf(vertices, edges, angles, t);
      && |pairs| == |edges|
      && forall i :: 0 <= i < |edges| ==>
           pairs[i] == Segment(RowTimes(vertices[edges[i].v1], m), RowTimes(vertices[edges[i].v2], m))
  {
  }

  /**
   * The order of the pairs is the order of the edges whatever the angles:
   * the lines of a concatenated edge list are the concatenated lines.
   */
  lemma {:induction false} LinesOfConcat(vertices: seq<Vec3>, e1: seq<Edge>, e2: seq<Edge>, angles: seq<real>, t: Trig)
    requires |angles| == 3
    requires EdgesInRange(e1, |vertices|) && EdgesInRange(e2, |vertices|)
    ensures EdgesInRange(e1 + e2, |vertices|)
    ensures LinesOf(vertices, e1 + e2, angles, t) == LinesOf(vertices, e1, angles, t) + LinesOf(vertices, e2, angles, t)
  {
    assert forall i :: 0 <= i < |e1 + e2| ==> (e1 + e2)[i] == if i < |e1| then e1[i] else e2[i - |e1|];
    var whole := LinesOf(vertices, e1 + e2, angles, t);
    var parts := LinesOf(vertices, e1, angles, t) + LinesOf(vertices, e2, angles, t);
    assert |whole| == |parts|;
    forall i | 0 <= i < |whole|
      ensures whole[i] == parts[i]
    {
      if i < |e1| {
        assert (e1 + e2)[i] == e1[i];
      } else {
        assert (e1 + e2)[i] == e2[i - |e1|];
      }
    }
  }

  /**
   * An unrotated body yields the original vertex coordinates, paired per
   * stored edge, in stored edge order.
   */
  lemma LinesOfUnrotated(vertices: seq<Vec3>, edges: seq<Edge>, t: Trig)
    requires ExactAtZero(t)
    requires EdgesInRange(edges, |vertices|)
    ensures var pairs := LinesOf(vertices, edges, [0.0, 0.0, 0.0], t);
      && |pairs| == |edges|
      && forall i :: 0 <= i < |edges| ==>
           pairs[i] == Segment(vertices[edges[i].v1], vertices[edges[i].v2])
  {
    RotationMatrixAtZero(t);
    forall k | 0 <= k < |vertices|
      ensures RowTimes(vertices[k], Identity()) == vertices[k]
    {
      RowTimesIdentity(vertices[k]);
    }
  }

  /**
   * The sign convention: a quarter turn about Z (any angle c with cos c = 0
   * and sin c = 1) takes (1,0,0) to (0,-1,0) and (0,1,0) to (1,0,0) under the
   * row-vector product.
   */
  lemma QuarterTurnAboutZ(t: Trig, c: real)
    requires ExactAtZero(t)
    requires t.cos(c) == 0.0 && t.sin(c) == 1.0
    ensures LinesOf([Vec3(1.0, 0.0, 0.0), Vec3(0.0, 1.0, 0.0)], [Edge(0, 1)], [0.0, 0.0, c], t)
         == [Segment(Vec3(0.0, -1.0, 0.0), Vec3(1.0, 0.0, 0.0))]
  {
    var pairs := LinesOf([Vec3(1.0, 0.0, 0.0), Vec3(0.0, 1.0, 0.0)], [Edge(0, 1)], [0.0, 0.0, c], t);
    assert |pairs| == 1;
  }

  /** The accumulator after adding delta to slot axis. */
  function Turned(angles: seq<real>, axis: nat, delta: real): (r: seq<real>)
    requires axis < |angles|
    ensures |r| == |angles|
    ensures r[axis] == angles[axis] + delta
    ensures forall k :: 0 <= k < |angles| && k != axis ==> r[k] == angles[k]
  {
    angles[axis := angles[axis] + delta]
  }

  /** Two turns about one axis accumulate: the same as one turn by the sum. */
  lemma TurnedTwice(angles: seq<real>, axis: nat, a: real, b: real)
    requires axis < |angles|
    ensures Turned(Turned(angles, axis, a), axis, b) == Turned(angles, axis, a + b)
  {
    var lhs, rhs := Turned(Turned(angles, axis, a), axis, b), Turned(angles, axis, a + b);
    assert |lhs| == |rhs|;
    assert forall k :: 0 <= k < |lhs| ==> lhs[k] == rhs[k];
  }

  /** Turns about two axes may be made in either order. */
  lemma TurnedCommute(angles: seq<real>, i: nat, a: real, j: nat, b: real)
    requires i < |angles| && j < |angles|
    ensures Turned(Turned(angles, i, a), j, b) == Turned(Turned(angles, j, b), i, a)
  {
    var lhs, rhs := Turned(Turned(angles, i, a), j, b), Turned(Turned(angles, j, b), i, a);
    assert |lhs| == |rhs|;
    assert forall k :: 0 <= k < |lhs| ==> lhs[k] == rhs[k];
  }

  /** cube.py's PhysicalBody. */
  class PhysicalBody {
    const vertices: seq<Vec3>
    const edges: seq<Edge>
    /** Radians around X, Y and Z. */
    const rotation: array<real>

    ghost predicate Valid()
      reads this
    {
      rotation.Length == 3 && EdgesInRange(edges, |vertices|)
    }

    /** A new body keeps the given geometry and starts unrotated. */
    constructor (vertices: seq<Vec3>, edges: seq<Edge>)
      requires EdgesInRange(edges, |vertices|)
      ensures Valid() && fresh(rotation)
      ensures this.vertices == vertices && this.edges == edges
      ensures rotation[..] == [0.0, 0.0, 0.0]
    {
      this.vertices := vertices;
      this.edges := edges;
      var r := new real[3];
      r[0], r[1], r[2] := 0.0, 0.0, 0.0;
      rotation := r;
      new;
      assert rotation[..] == [rotation[0], rotation[1], rotation[2]];
    }

    /** Adds theta to the angle about axis; nothing else changes. */
    method Rotate(axis: nat, theta: real)
      requires Valid()
      requires axis < 3
      modifies rotation
      ensures rotation[..] == Turned(old(rotation[..]), axis, theta)
    {
      rotation[axis] := rotation[axis] + theta;
    }

    /**
     * The `lines` property. It is a function of vertices, edges and the
     * current angles, so two reads with no Rotate between them are equal.
     * numpy rejects `dot` on an empty vertex array, hence the second requires.
     */
    function Lines(t: Trig): (pairs: seq<Segment>)
      reads this, rotation
      requires Valid()
      requires |vertices| > 0
      ensures |pairs| == |edges|
    {
      LinesOf(vertices, edges, rotation[..], t)
    }
  }

  /** Two turns about one axis leave that angle at old + a + b, exactly. */
  method RotateTwice(body: PhysicalBody, axis: nat, a: real, b: real)
    requires body.Valid()
    requires axis < 3
    modifies body.rotation
    ensures body.rotation[axis] == old(body.rotation[axis]) + a + b
    ensures forall k :: 0 <= k < 3 && k != axis ==> body.rotation[k] == old(body.rotation[k])
    ensures body.rotation[..] == Turned(old(body.rotation[..]), axis, a + b)
  {
    body.Rotate(axis, a);
    body.Rotate(axis, b);
    TurnedTwice(old(body.rotation[..]), axis, a, b);
  }

  /**
   * `location` is computed when `lines` is read: the pairs taken before a
   * Rotate are the pairs of the old angles, and a read after it sees the new.
   */
  method ReadThenRotate(body: PhysicalBody, t: Trig, axis: nat, theta: real)
      returns (before: seq<Segment>, after: seq<Segment>)
    requires body.Valid() && |body.vertices| > 0
    requires axis < 3
    modifies body.rotation
    ensures body.rotation[..] == Turned(old(body.rotation[..]), axis, theta)
    ensures before == old(body.Lines(t))
    ensures after == LinesOf(body.vertices, body.edges, Turned(old(body.rotation[..]), axis, theta), t)
  {
    before := body.Lines(t);
    body.Rotate(axis, theta);
    after := body.Lines(t);
  }

  /**
   * A freshly built body has not been turned, so its first read of `lines`
   * gives the original vertex coordinates per stored edge, in stored order.
   */
  method FreshBodyLines(vertices: seq<Vec3>, edges: seq<Edge>, t: Trig) returns (pairs: seq<Segment>)
    requires ExactAtZero(t)
    requires |vertices| > 0 && EdgesInRange(edges, |vertices|)
    ensures |pairs| == |edges|
    ensures forall i :: 0 <= i < |edges| ==> pairs[i] == Segment(vertices[edges[i].v1], vertices[edges[i].v2])
  {
    var body := new PhysicalBody(vertices, edges);
    pairs := body.Lines(t);
    LinesOfUnrotated(vertices, edges, t);
  }
}

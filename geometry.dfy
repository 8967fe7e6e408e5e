/** geometry.py: the sphere mesh and its triangle-strip index buffer, the
    orbit-ring polyline, the pixel-to-NDC mapping and the stepped turn rate. */
module Geometry {
  import opened Wrappers
  import opened Numerics

  const RADIUS: real := 1.0
  /** Vertical divisions of the sphere mesh. */
  const STACKS: nat := 20
  /** Horizontal divisions of the sphere mesh. */
  const SECTORS: nat := 30

  // ---------------------------------------------------------------------
  // Sphere index buffer
  // ---------------------------------------------------------------------

  /** Entry `k` of the index buffer in closed form: the k-th pair is
      (k, k + sectors + 1), a vertex and the one a row above it. */
  function StripIndex(k: nat, sectors: nat): nat {
    k / 2 + (if k % 2 == 0 then 0 else sectors + 1)
  }

  /** The whole index buffer for a `stacks` x `sectors` sphere. */
  function IndexBuffer(stacks: nat, sectors: nat): (ib: seq<nat>)
    ensures |ib| == 2 * (stacks * (sectors + 1))
    ensures forall k :: 0 <= k < |ib| ==> ib[k] == StripIndex(k, sectors)
  {
    seq(2 * (stacks * (sectors + 1)), k requires 0 <= k => StripIndex(k, sectors))
  }

  /** get_sphere_indices: the nested loops over stacks and sectors that
      append the pair (first, second) for every vertex of rows 0..stacks-1. */
  method SphereIndices(stacks: nat := STACKS, sectors: nat := SECTORS) returns (indices: seq<nat>)
    ensures indices == IndexBuffer(stacks, sectors)
  {
    indices := [];
    for i := 0 to stacks
      invariant |indices| == 2 * (i * (sectors + 1))
      invariant forall k :: 0 <= k < |indices| ==> indices[k] == StripIndex(k, sectors)
    {
      for j := 0 to sectors + 1
        invariant |indices| == 2 * (i * (sectors + 1) + j)
        invariant forall k :: 0 <= k < |indices| ==> indices[k] == StripIndex(k, sectors)
      {
        var first := i * (sectors + 1) + j;
        var second := first + sectors + 1;
        indices := indices + [first, second];
      }
      assert (i + 1) * (sectors + 1) == i * (sectors + 1) + (sectors + 1);
    }
  }

  /** Pair k of the buffer is (k, k + sectors + 1): consecutive entries of a
      pair differ by exactly one row of the vertex grid. */
  lemma IndexPairs(stacks: nat, sectors: nat, k: nat)
    requires k < stacks * (sectors + 1)
    ensures 2 * k + 1 < |IndexBuffer(stacks, sectors)|
    ensures IndexBuffer(stacks, sectors)[2 * k] == k
    ensures IndexBuffer(stacks, sectors)[2 * k + 1] == k + sectors + 1
  {
  }

  /** The draw loop issues `stacks` strips of `2 * (sectors + 1)` indices at
      offsets 0, per, 2 per, ...; together they cover the buffer exactly, and
      strip i zigzags between row i and row i + 1 of the vertex grid. */
  lemma StripLayout(stacks: nat, sectors: nat, i: nat, j: nat)
    requires i < stacks && j <= sectors
    ensures var per := 2 * (sectors + 1);
      && stacks * per == |IndexBuffer(stacks, sectors)|
      && (i + 1) * per <= |IndexBuffer(stacks, sectors)|
      && IndexBuffer(stacks, sectors)[i * per + 2 * j] == i * (sectors + 1) + j
      && IndexBuffer(stacks, sectors)[i * per + 2 * j + 1] == (i + 1) * (sectors + 1) + j
  {
    StripArith(stacks, sectors + 1, i, j);
    IndexPairs(stacks, sectors, i * (sectors + 1) + j);
  }

  /** The offset arithmetic of StripLayout, for rows of `row` vertices. */
  lemma StripArith(stacks: nat, row: nat, i: nat, j: nat)
    requires i < stacks && j < row
    ensures i * (2 * row) + 2 * j == 2 * (i * row + j)
    ensures stacks * (2 * row) == 2 * (stacks * row)
    ensures (i + 1) * (2 * row) <= 2 * (stacks * row)
    ensures i * row + j < stacks * row
    ensures (i + 1) * row + j == i * row + j + row
  {
    MulMonotone(i + 1, stacks, row);
  }

  /** Multiplying by the same natural keeps the order; StripArith needs it
      to place the last strip inside the buffer. */
  lemma MulMonotone(a: nat, b: nat, c: nat)
    requires a <= b
    ensures a * c <= b * c
  {
  }

  /** Every index names a vertex of get_sphere_vertices, which has
      (stacks + 1) * (sectors + 1) of them. */
  lemma IndicesInRange(stacks: nat, sectors: nat)
    ensures forall k :: 0 <= k < |IndexBuffer(stacks, sectors)| ==>
      IndexBuffer(stacks, sectors)[k] < (stacks + 1) * (sectors + 1)
  {
  }

  /** Every vertex of the grid is referenced by some index (for at least one
      stack): rows 0..stacks-1 as first entries, the top row as second ones. */
  lemma EveryVertexReferenced(stacks: nat, sectors: nat, v: nat)
    requires 0 < stacks && v < (stacks + 1) * (sectors + 1)
    ensures exists k :: 0 <= k < |IndexBuffer(stacks, sectors)| && IndexBuffer(stacks, sectors)[k] == v
  {
    var ib := IndexBuffer(stacks, sectors);
    var rows := stacks * (sectors + 1);
    assert (stacks + 1) * (sectors + 1) == rows + sectors + 1;
    if v < rows {
      IndexPairs(stacks, sectors, v);
      assert ib[2 * v] == v;
    } else {
      var w := v - (sectors + 1);
      assert rows == (stacks - 1) * (sectors + 1) + sectors + 1;
      assert 0 <= w < rows;
      IndexPairs(stacks, sectors, w);
      assert ib[2 * w + 1] == v;
    }
  }

  /** With STACKS = 20 and SECTORS = 30 the buffer holds 1240 indices, all
      below 651, so each fits the uint32 numpy stores it as. */
  lemma SphereIndexConstants()
    ensures |IndexBuffer(STACKS, SECTORS)| == 1240
    ensures forall k :: 0 <= k < 1240 ==> IndexBuffer(STACKS, SECTORS)[k] < 651 < 0x1_0000_0000
  {
    IndicesInRange(STACKS, SECTORS);
  }

  // ---------------------------------------------------------------------
  // Sphere and orbit-ring vertices
  // ---------------------------------------------------------------------

  /** Latitude of row i of the sphere mesh: from -pi/2 (i = 0) to pi/2 (i = stacks). */
  function Latitude(stacks: nat, trig: Trig, i: int): real
    requires 0 < stacks
  {
    trig.pi * i as real / stacks as real - trig.pi / 2.0
  }

  /** Longitude of column j of the sphere mesh: from 0 (j = 0) to 2 pi (j = sectors). */
  function Longitude(sectors: nat, trig: Trig, j: int): real
    requires 0 < sectors
  {
    2.0 * trig.pi * j as real / sectors as real
  }

  /** The vertex in row i (latitude phi from -90 to +90 degrees) and column j
      (longitude theta from 0 to 360 degrees) of the sphere mesh. */
  function SpherePoint(stacks: nat, sectors: nat, trig: Trig, i: int, j: int): Vec3
    requires 0 < stacks && 0 < sectors
  {
    var phi := Latitude(stacks, trig, i);
    var y := RADIUS * trig.sin(phi);
    var r := RADIUS * trig.cos(phi);
    var theta := Longitude(sectors, trig, j);
    Vec3(r * trig.cos(theta), y, r * trig.sin(theta))
  }

  /** get_sphere_vertices: (stacks + 1) * (sectors + 1) vertices, three
      floats each, row by row; vertex i * (sectors + 1) + j is SpherePoint(i, j). */
  method SphereVertices(trig: Trig, stacks: nat := STACKS, sectors: nat := SECTORS) returns (vertices: seq<real>)
    requires 0 < stacks && 0 < sectors
    ensures |vertices| == 3 * ((stacks + 1) * (sectors + 1))
    ensures forall i, j :: 0 <= i <= stacks && 0 <= j <= sectors ==>
      VertexIs(vertices, i * (sectors + 1) + j, SpherePoint(stacks, sectors, trig, i, j))
  {
    vertices := [];
    for i := 0 to stacks + 1
      invariant |vertices| == 3 * (i * (sectors + 1))
      invariant forall i', j' :: 0 <= i' < i && 0 <= j' <= sectors ==>
        VertexIs(vertices, i' * (sectors + 1) + j', SpherePoint(stacks, sectors, trig, i', j'))
    {
      var phi := Latitude(stacks, trig, i);
      var y := RADIUS * trig.sin(phi);
      var r := RADIUS * trig.cos(phi);
      for j := 0 to sectors + 1
        invariant |vertices| == 3 * (i * (sectors + 1) + j)
        invariant forall i', j' :: ((0 <= i' < i && 0 <= j' <= sectors) || (i' == i && 0 <= j' < j)) ==>
          VertexIs(vertices, i' * (sectors + 1) + j', SpherePoint(stacks, sectors, trig, i', j'))
      {
        var theta := Longitude(sectors, trig, j);
        var x := r * trig.cos(theta);
        var z := r * trig.sin(theta);
        ghost var p := SpherePoint(stacks, sectors, trig, i, j);
        assert Vec3(x, y, z) == p;
        ghost var before := vertices;
        vertices := vertices + [x, y, z];
        VertexAppended(before, i * (sectors + 1) + j, p);
        forall i', j' | (0 <= i' < i && 0 <= j' <= sectors) || (i' == i && 0 <= j' < j)
          ensures VertexIs(vertices, i' * (sectors + 1) + j', SpherePoint(stacks, sectors, trig, i', j'))
        {
          VertexKept(before, [x, y, z], i' * (sectors + 1) + j', SpherePoint(stacks, sectors, trig, i', j'));
        }
      }
      assert (i + 1) * (sectors + 1) == i * (sectors + 1) + (sectors + 1);
    }
  }

  /** Angle of point i of a ring of `segments` segments. */
  function RingAngle(segments: int, trig: Trig, i: int): real
    requires segments != 0
  {
    2.0 * trig.pi * i as real / segments as real
  }

  /** Point i of a ring of `segments` segments: angle 2 pi i / segments in the
      orbital (y = 0) plane. */
  function RingPoint(radius: real, segments: int, trig: Trig, i: int): (p: Vec3)
    requires segments != 0
  {
    var angle := RingAngle(segments, trig, i);
    Vec3(radius * trig.cos(angle), 0.0, radius * trig.sin(angle))
  }

  /** get_orbit_ring_vertices: segments + 1 points (the first repeated at the
      end to close the loop), none when `segments` is negative, and every
      y-component is zero. */
  method OrbitRingVertices(radius: real, trig: Trig, segments: int := 100) returns (vertices: seq<real>)
    requires segments != 0
    ensures |vertices| == 3 * (if segments < 0 then 0 else segments + 1)
    ensures forall i :: 0 <= i <= segments ==> VertexIs(vertices, i, RingPoint(radius, segments, trig, i))
    ensures forall k :: 0 <= k < |vertices| && k % 3 == 1 ==> vertices[k] == 0.0
  {
    vertices := [];
    var n := if segments < 0 then 0 else segments + 1;
    for i := 0 to n
      invariant |vertices| == 3 * i
      invariant forall i' :: 0 <= i' < i ==> VertexIs(vertices, i', RingPoint(radius, segments, trig, i'))
      invariant forall k :: 0 <= k < |vertices| && k % 3 == 1 ==> vertices[k] == 0.0
    {
      var angle := RingAngle(segments, trig, i);
      var x := radius * trig.cos(angle);
      var z := radius * trig.sin(angle);
      ghost var p := RingPoint(radius, segments, trig, i);
      ghost var before := vertices;
      vertices := vertices + [x, 0.0, z];
      VertexAppended(before, i, p);
      forall i' | 0 <= i' < i
        ensures VertexIs(vertices, i', RingPoint(radius, segments, trig, i'))
      {
        VertexKept(before, [x, 0.0, z], i', RingPoint(radius, segments, trig, i'));
      }
    }
  }

  // ---------------------------------------------------------------------
  // Screen coordinates
  // ---------------------------------------------------------------------

  /** get_ndc: a pixel coordinate in [0, size] mapped linearly onto
      normalised device coordinates [-1, 1]. Mapping the result back onto
      pixels, (r + 1) * size / 2, returns the input. */
  function Ndc(x: real, size: real): (r: real)
    requires size != 0.0
    ensures (r + 1.0) * size / 2.0 == x
  {
    (2.0 * x) / size - 1.0
  }

  /** The two edges and the centre of the screen. */
  lemma NdcLandmarks(size: real)
    requires size != 0.0
    ensures Ndc(0.0, size) == -1.0
    ensures Ndc(size / 2.0, size) == 0.0
    ensures Ndc(size, size) == 1.0
  {
  }

  /** The values the unit test pins down. */
  lemma NdcTestValues()
    ensures Ndc(100.0, 100.0) == 1.0
    ensures Ndc(50.0, 100.0) == 0.0
  {
  }

  /** On a screen of positive size the mapping is strictly increasing. */
  lemma NdcStrictlyIncreasing(x1: real, x2: real, size: real)
    requires 0.0 < size && x1 < x2
    ensures Ndc(x1, size) < Ndc(x2, size)
  {
  }

  /** A pixel lies on the screen exactly when its NDC lies in [-1, 1]. */
  lemma NdcRange(x: real, size: real)
    requires 0.0 < size
    ensures 0.0 <= x <= size <==> -1.0 <= Ndc(x, size) <= 1.0
  {
    NdcLandmarks(size);
    var r := Ndc(x, size);
    assert x == (r + 1.0) * size / 2.0;
    if 0.0 <= x <= size {
      if x > 0.0 { NdcStrictlyIncreasing(0.0, x, size); }
      if x < size { NdcStrictlyIncreasing(x, size, size); }
    } else if x < 0.0 {
      NdcStrictlyIncreasing(x, 0.0, size);
    } else {
      NdcStrictlyIncreasing(size, x, size);
    }
  }

  // ---------------------------------------------------------------------
  // Stepped turn rate
  // ---------------------------------------------------------------------

  /** calculate_turn_amout: the turn per frame for a normalised
      coordinate: nothing when unset or within the 0.10 dead band, then 0.1,
      0.2 or 0.3 in magnitude, with the sign of the coordinate. */
  function TurnAmount(coordinate: Option<real>): (r: real)
    ensures r in {-0.3, -0.2, -0.1, 0.0, 0.1, 0.2, 0.3}
    ensures coordinate.None? ==> r == 0.0
    ensures coordinate.Some? ==> (0.0 < r <==> 0.10 < coordinate.value)
    ensures coordinate.Some? ==> (r < 0.0 <==> coordinate.value < -0.10)
  {
    match coordinate
    case None => 0.0
    case Some(c) =>
      if c > 0.10 then
        if c > 0.40 then (if c > 0.70 then 0.3 else 0.2) else 0.1
      else if c < -0.10 then
        if c < -0.40 then (if c < -0.70 then -0.3 else -0.2) else -0.1
      else 0.0
  }

  /** Each band, with the thresholds belonging to the band below them. */
  lemma TurnAmountBands(c: real)
    ensures -0.10 <= c <= 0.10 <==> TurnAmount(Some(c)) == 0.0
    ensures 0.10 < c <= 0.40 <==> TurnAmount(Some(c)) == 0.1
    ensures 0.40 < c <= 0.70 <==> TurnAmount(Some(c)) == 0.2
    ensures 0.70 < c <==> TurnAmount(Some(c)) == 0.3
    ensures -0.40 <= c < -0.10 <==> TurnAmount(Some(c)) == -0.1
    ensures -0.70 <= c < -0.40 <==> TurnAmount(Some(c)) == -0.2
    ensures c < -0.70 <==> TurnAmount(Some(c)) == -0.3
  {
  }

  /** Turning is symmetric: mirroring the coordinate mirrors the turn. */
  lemma TurnAmountOdd(c: real)
    ensures TurnAmount(Some(-c)) == -TurnAmount(Some(c))
  {
  }

  /** A larger coordinate never turns less. */
  lemma TurnAmountMonotone(a: real, b: real)
    requires a <= b
    ensures TurnAmount(Some(a)) <= TurnAmount(Some(b))
  {
  }
}

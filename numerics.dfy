/** Plain-real stand-ins for the numpy values the renderer passes around:
    3-vectors, flat vertex arrays, 4x4 matrices, and the trigonometry the
    model cannot compute itself. */
module Numerics {

  datatype Vec3 = Vec3(x: real, y: real, z: real)

  const Origin: Vec3 := Vec3(0.0, 0.0, 0.0)

  /** numpy's `pi`, `cos` and `sin`. Transcendental functions are outside
      what the model computes, so every operation that needs them receives
      them from its caller; any fact about them (such as cos 0 = 1) is a
      precondition of the lemma that uses it. */
  datatype Trig = Trig(pi: real, cos: real -> real, sin: real -> real)

  /** Vertex `n` of a flat `[x0, y0, z0, x1, y1, z1, ...]` array is `p`. */
  predicate VertexIs(v: seq<real>, n: int, p: Vec3) {
    0 <= n && 3 * n + 2 < |v| && v[3 * n] == p.x && v[3 * n + 1] == p.y && v[3 * n + 2] == p.z
  }

  /** Appending to a flat vertex array keeps the vertices already there. */
  lemma VertexKept(v: seq<real>, w: seq<real>, n: int, p: Vec3)
    requires VertexIs(v, n, p)
    ensures VertexIs(v + w, n, p)
  {
  }

  /** Appending the three coordinates of `p` to an array of n vertices makes
      `p` vertex n. */
  lemma VertexAppended(v: seq<real>, n: nat, p: Vec3)
    requires |v| == 3 * n
    ensures VertexIs(v + [p.x, p.y, p.z], n, p)
  {
  }

  /** A 4x4 matrix as a sequence of rows, as numpy holds it. */
  predicate IsMat4(m: seq<seq<real>>) {
    |m| == 4 && forall i :: 0 <= i < 4 ==> |m[i]| == 4
  }

  type Mat4 = m: seq<seq<real>> | IsMat4(m)
    witness [[1.0, 0.0, 0.0, 0.0], [0.0, 1.0, 0.0, 0.0], [0.0, 0.0, 1.0, 0.0], [0.0, 0.0, 0.0, 1.0]]

  /** Two matrices with the same entries are the same matrix. */
  lemma Mat4Ext(a: Mat4, b: Mat4)
    requires forall i, j :: 0 <= i < 4 && 0 <= j < 4 ==> a[i][j] == b[i][j]
    ensures a == b
  {
    forall i | 0 <= i < 4
      ensures a[i] == b[i]
    {
      assert forall j :: 0 <= j < 4 ==> a[i][j] == b[i][j];
    }
  }

  /** Entry (i, j) of the product `a @ b`. */
  function ProductEntry(a: Mat4, b: Mat4, i: nat, j: nat): real
    requires i < 4 && j < 4
  {
    a[i][0] * b[0][j] + a[i][1] * b[1][j] + a[i][2] * b[2][j] + a[i][3] * b[3][j]
  }

  /** numpy's matrix product `a @ b` on 4x4 matrices. */
  function Mul(a: Mat4, b: Mat4): (c: Mat4)
    ensures forall i, j :: 0 <= i < 4 && 0 <= j < 4 ==> c[i][j] == ProductEntry(a, b, i, j)
  {
    seq(4, i requires 0 <= i < 4 => seq(4, j requires 0 <= j < 4 => ProductEntry(a, b, i, j)))
  }

  /** The identity with `p` in the first three rows of the last column. */
  function Translation(p: Vec3): Mat4 {
    [[1.0, 0.0, 0.0, p.x],
     [0.0, 1.0, 0.0, p.y],
     [0.0, 0.0, 1.0, p.z],
     [0.0, 0.0, 0.0, 1.0]]
  }

  /** The identity with `s` on the first three diagonal entries. */
  function Scale(s: real): Mat4 {
    [[s, 0.0, 0.0, 0.0],
     [0.0, s, 0.0, 0.0],
     [0.0, 0.0, s, 0.0],
     [0.0, 0.0, 0.0, 1.0]]
  }

  /** Rotation about the y axis, given the cosine `c` and sine `s` of its angle. */
  function RotationY(c: real, s: real): Mat4 {
    [[c, 0.0, s, 0.0],
     [0.0, 1.0, 0.0, 0.0],
     [-s, 0.0, c, 0.0],
     [0.0, 0.0, 0.0, 1.0]]
  }
}

/** Three-component real vectors and 3x3 tensors, the value types that
    positions, velocities, forces and virials are made of. Reals are exact,
    so the arithmetic here is the idealised form of the simulator's doubles. */
module Vectors {

  datatype Real3D = Real3D(x: real, y: real, z: real)

  const Zero: Real3D := Real3D(0.0, 0.0, 0.0)

  function Add(a: Real3D, b: Real3D): Real3D
  {
    Real3D(a.x + b.x, a.y + b.y, a.z + b.z)
  }

  function Sub(a: Real3D, b: Real3D): Real3D
  {
    Real3D(a.x - b.x, a.y - b.y, a.z - b.z)
  }

  function Neg(a: Real3D): Real3D
  {
    Real3D(-a.x, -a.y, -a.z)
  }

  /** `a * k`, a vector scaled by a scalar. */
  function Scale(a: Real3D, k: real): Real3D
  {
    Real3D(a.x * k, a.y * k, a.z * k)
  }

  /** `a * b` between two vectors: the scalar product. */
  function Dot(a: Real3D, b: Real3D): real
  {
    a.x * b.x + a.y * b.y + a.z * b.z
  }

  /** The square of a scalar, `r * r`. */
  function Square(r: real): real
  {
    r * r
  }

  /** `a.sqr()`: the squared length. */
  function Sqr(a: Real3D): real
  {
    Dot(a, a)
  }

  function Cross(a: Real3D, b: Real3D): Real3D
  {
    Real3D(a.y * b.z - a.z * b.y, a.z * b.x - a.x * b.z, a.x * b.y - a.y * b.x)
  }

  /** A scaled vector is parallel to the original one. */
  lemma CrossScaleSelf(a: Real3D, k: real)
    ensures Cross(Scale(a, k), a) == Zero
  {
  }

  /** The sum of a sequence of vectors, accumulated from the front. */
  function Sum(s: seq<Real3D>): Real3D
    decreases |s|
  {
    if |s| == 0 then Zero else Add(Sum(s[..|s| - 1]), s[|s| - 1])
  }

  /** A sequence of zero vectors sums to zero. */
  lemma {:induction false} SumZeros(s: seq<Real3D>)
    requires forall k :: 0 <= k < |s| ==> s[k] == Zero
    ensures Sum(s) == Zero
    decreases |s|
  {
    if |s| > 0 {
      SumZeros(s[..|s| - 1]);
    }
  }

  /** Overwriting one slot of a sequence changes its sum by the difference. */
  lemma {:induction false} SumUpdate(s: seq<Real3D>, i: nat, v: Real3D)
    requires i < |s|
    ensures Sum(s[i := v]) == Add(Sub(Sum(s), s[i]), v)
    decreases |s|
  {
    var n := |s| - 1;
    if i == n {
      assert s[i := v][..n] == s[..n];
    } else {
      assert s[i := v][..n] == s[..n][i := v];
      SumUpdate(s[..n], i, v);
    }
  }

  /** Adding f to one entry adds f to the total. */
  lemma AddSumUpdate(force: seq<Real3D>, i: nat, f: Real3D)
    requires i < |force|
    ensures Sum(force[i := Add(force[i], f)]) == Add(Sum(force), f)
  {
    SumUpdate(force, i, Add(force[i], f));
  }

  /** Subtracting f from one entry subtracts f from the total. */
  lemma SubSumUpdate(force: seq<Real3D>, i: nat, f: Real3D)
    requires i < |force|
    ensures Sum(force[i := Sub(force[i], f)]) == Sub(Sum(force), f)
  {
    SumUpdate(force, i, Sub(force[i], f));
  }

  /** A general (not necessarily symmetric) 3x3 tensor, row by row. */
  datatype Tensor = Tensor(xx: real, xy: real, xz: real,
                           yx: real, yy: real, yz: real,
                           zx: real, zy: real, zz: real)

  const ZeroTensor: Tensor := Tensor(0.0, 0.0, 0.0, 0.0, 0.0, 0.0, 0.0, 0.0, 0.0)

  function TAdd(a: Tensor, b: Tensor): Tensor
  {
    Tensor(a.xx + b.xx, a.xy + b.xy, a.xz + b.xz,
           a.yx + b.yx, a.yy + b.yy, a.yz + b.yz,
           a.zx + b.zx, a.zy + b.zy, a.zz + b.zz)
  }

  function TSub(a: Tensor, b: Tensor): Tensor
  {
    Tensor(a.xx - b.xx, a.xy - b.xy, a.xz - b.xz,
           a.yx - b.yx, a.yy - b.yy, a.yz - b.yz,
           a.zx - b.zx, a.zy - b.zy, a.zz - b.zz)
  }

  /** `Tensor(a, b)`: the outer product, entry (i, j) is a_i * b_j. */
  function Outer(a: Real3D, b: Real3D): Tensor
  {
    Tensor(a.x * b.x, a.x * b.y, a.x * b.z,
           a.y * b.x, a.y * b.y, a.y * b.z,
           a.z * b.x, a.z * b.y, a.z * b.z)
  }

  function Trace(t: Tensor): real
  {
    t.xx + t.yy + t.zz
  }
}

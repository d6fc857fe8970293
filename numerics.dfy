/**
 * The numpy operations the core uses for its index arithmetic, over exact
 * reals: `linspace`, `meshgrid` with its default 'xy' indexing, row-major
 * `flatten`, whole-row views and assignments of a 2-D array, and `round`.
 */
module Numerics {
  import opened Wrappers

  /**
   * `numpy.linspace(lo, hi, n)`: `lo + i*step` with `step = (hi-lo)/(n-1)`,
   * the last point overwritten by `hi` when there are at least two points;
   * a single point is `lo`.
   */
  function Linspace(lo: real, hi: real, n: nat): (v: seq<real>)
    ensures |v| == n
  {
    seq(n, i => if n > 1 && i == n - 1 then hi
                else if n > 1 then lo + (i as real) * ((hi - lo) / ((n - 1) as real))
                else lo)
  }

  /** The end points of a linspace are the requested bounds. */
  lemma LinspaceEnds(lo: real, hi: real, n: nat)
    requires 0 < n
    ensures Linspace(lo, hi, n)[0] == lo
    ensures n > 1 ==> Linspace(lo, hi, n)[n - 1] == hi
  {
  }

  /** The points are evenly spaced: the overwritten last point lies where the formula puts it. */
  lemma {:induction false} LinspaceUniform(lo: real, hi: real, n: nat, i: nat)
    requires i + 1 < n
    ensures Linspace(lo, hi, n)[i + 1] - Linspace(lo, hi, n)[i] == (hi - lo) / ((n - 1) as real)
  {
    var step := (hi - lo) / ((n - 1) as real);
    assert ((n - 1) as real) * step == hi - lo;
    if i + 1 == n - 1 {
      calc {
        Linspace(lo, hi, n)[i + 1] - Linspace(lo, hi, n)[i];
        hi - (lo + (i as real) * step);
        { assert (i as real) * step == ((n - 1) as real) * step - step; }
        step;
      }
    }
  }

  /** Every point lies between the bounds. */
  lemma {:induction false} LinspaceBounded(lo: real, hi: real, n: nat, i: nat)
    requires lo <= hi && i < n
    ensures lo <= Linspace(lo, hi, n)[i] <= hi
  {
    if n > 1 && i < n - 1 {
      var step := (hi - lo) / ((n - 1) as real);
      var rest := ((n - 1 - i) as real);
      assert 0.0 <= step && 0.0 <= rest;
      assert 0.0 <= (i as real) * step;
      assert 0.0 <= rest * step;
      assert ((n - 1) as real) * step == (i as real) * step + rest * step;
      assert ((n - 1) as real) * step == hi - lo;
    }
  }

  /** `X` of `numpy.meshgrid(xv, yv)`: `|yv|` rows, each a copy of `xv`. */
  function MeshgridX(xv: seq<real>, yv: seq<real>): (m: seq<seq<real>>)
    ensures |m| == |yv|
    ensures forall r :: 0 <= r < |m| ==> m[r] == xv
  {
    seq(|yv|, r => xv)
  }

  /** `Y` of `numpy.meshgrid(xv, yv)`: row `r` is `yv[r]` repeated `|xv|` times. */
  function MeshgridY(xv: seq<real>, yv: seq<real>): (m: seq<seq<real>>)
    ensures |m| == |yv|
    ensures forall r :: 0 <= r < |m| ==> |m[r]| == |xv| && forall c :: 0 <= c < |xv| ==> m[r][c] == yv[r]
  {
    seq(|yv|, r requires 0 <= r < |yv| => seq(|xv|, c => yv[r]))
  }

  /** Row-major `flatten` of a 2-D array given as its rows. */
  function Flatten(m: seq<seq<real>>): seq<real>
  {
    if m == [] then [] else m[0] + Flatten(m[1..])
  }

  lemma MulAtLeast(n: int, z: int)
    requires 0 < n && 1 <= z
    ensures n <= n * z
  {
    assert n * z == n * (z - 1) + n;
    assert 0 <= n * (z - 1);
  }

  /** Quotient and remainder are the unique ones. */
  lemma DivModUnique(a: int, n: int, q: int, r: int)
    requires 0 < n && 0 <= r < n && a == n * q + r
    ensures a / n == q && a % n == r
  {
    var q0, r0 := a / n, a % n;
    assert n * (q - q0) == r0 - r;
    assert n * (q0 - q) == r - r0;
    if q - q0 >= 1 {
      MulAtLeast(n, q - q0);
    } else if q0 - q >= 1 {
      MulAtLeast(n, q0 - q);
    }
  }

  lemma DivModShift(k: nat, n: nat)
    requires 0 < n && n <= k
    ensures (k - n) / n == k / n - 1 && (k - n) % n == k % n
  {
    var q, r := k / n, k % n;
    assert k == n * q + r;
    assert k - n == n * (q - 1) + r;
    DivModUnique(k - n, n, q - 1, r);
  }

  /** A flat index below `rows * n` has its row below `rows`. */
  lemma DivBelow(k: nat, n: nat, rows: nat)
    requires k < rows * n
    ensures 0 < n && k / n < rows
  {
    if n != 0 {
      var q := k / n;
      assert n * q <= k;
      assert n * q == n * (q - rows) + n * rows;
      if q - rows >= 1 {
        MulAtLeast(n, q - rows);
      }
    }
  }

  /** Element `k` of a flattened `rows × n` array is at row `k div n`, column `k mod n`. */
  lemma {:induction false} FlattenAt(m: seq<seq<real>>, n: nat, k: nat)
    requires forall r :: 0 <= r < |m| ==> |m[r]| == n
    requires k < |m| * n
    ensures 0 < n && k / n < |m|
    ensures |Flatten(m)| == |m| * n
    ensures Flatten(m)[k] == m[k / n][k % n]
  {
    DivBelow(k, n, |m|);
    FlattenLength(m, n);
    if k < n {
      assert k / n == 0 && k % n == k;
    } else {
      assert |m[1..]| * n == |m| * n - n;
      FlattenLength(m[1..], n);
      FlattenAt(m[1..], n, k - n);
      DivModShift(k, n);
    }
  }

  lemma {:induction false} FlattenLength(m: seq<seq<real>>, n: nat)
    requires forall r :: 0 <= r < |m| ==> |m[r]| == n
    ensures |Flatten(m)| == |m| * n
  {
    if m != [] {
      FlattenLength(m[1..], n);
    }
  }

  /**
   * `meshgrid` followed by `flatten`: the point at flat index `k` of an
   * `|yv| × |xv|` grid is `(xv[k mod |xv|], yv[k div |xv|])`.
   */
  lemma FlatMeshgridAt(xv: seq<real>, yv: seq<real>, k: nat)
    requires k < |yv| * |xv|
    ensures |Flatten(MeshgridX(xv, yv))| == |yv| * |xv|
    ensures |Flatten(MeshgridY(xv, yv))| == |yv| * |xv|
    ensures Flatten(MeshgridX(xv, yv))[k] == xv[k % |xv|]
    ensures Flatten(MeshgridY(xv, yv))[k] == yv[k / |xv|]
  {
    FlattenAt(MeshgridX(xv, yv), |xv|, k);
    FlattenAt(MeshgridY(xv, yv), |xv|, k);
  }

  /** The flattened meshgrid outputs have one entry per grid point. */
  lemma FlatMeshgridLength(xv: seq<real>, yv: seq<real>)
    ensures |Flatten(MeshgridX(xv, yv))| == |yv| * |xv|
    ensures |Flatten(MeshgridY(xv, yv))| == |yv| * |xv|
  {
    FlattenLength(MeshgridX(xv, yv), |xv|);
    FlattenLength(MeshgridY(xv, yv), |xv|);
  }

  /** Row `i` of a 2-D array, as the numpy view `a[i]`. */
  function Row(a: array2<real>, i: nat): (r: seq<real>)
    requires i < a.Length0
    reads a
    ensures |r| == a.Length1
    ensures forall j :: 0 <= j < |r| ==> r[j] == a[i, j]
  {
    seq(a.Length1, j requires 0 <= j < a.Length1 reads a => a[i, j])
  }

  /** The numpy assignment `a[i, :] = v`: row `i` becomes `v`, nothing else changes. */
  method AssignRow(a: array2<real>, i: nat, v: seq<real>)
    requires i < a.Length0 && |v| == a.Length1
    modifies a
    ensures forall j :: 0 <= j < a.Length1 ==> a[i, j] == v[j]
    ensures forall r, j :: 0 <= r < a.Length0 && r != i && 0 <= j < a.Length1 ==> a[r, j] == old(a[r, j])
  {
    for j := 0 to a.Length1
      invariant forall c :: 0 <= c < j ==> a[i, c] == v[c]
      invariant forall r, c :: 0 <= r < a.Length0 && 0 <= c < a.Length1 && (r != i || j <= c) ==> a[r, c] == old(a[r, c])
    {
      a[i, j] := v[j];
    }
  }

  /**
   * Python's subscript of a sequence of length `len` by `i`: negative indices
   * count from the end, and anything outside `[-len, len)` raises IndexError.
   */
  function PyIndex(i: int, len: nat): (r: Option<nat>)
    ensures r.Some? <==> -(len as int) <= i < len
    ensures r.Some? ==> r.value < len && (r.value == i || r.value == i + len)
  {
    if 0 <= i < len then Some(i)
    else if -(len as int) <= i < 0 then Some(i + len)
    else None
  }

  /** `numpy.round`: the nearest integer, ties going to the even one. */
  function RoundHalfEven(x: real): (n: int)
    ensures -0.5 <= n as real - x <= 0.5
    ensures (n as real - x == 0.5 || x - n as real == 0.5) ==> n % 2 == 0
  {
    var f := x.Floor;
    var d := x - f as real;
    if d < 0.5 then f
    else if d > 0.5 then f + 1
    else if f % 2 == 0 then f
    else f + 1
  }
}

/**
 * blowout/electrons.py: the plasma-electron swarm. Four `(num_steps × num_parts)`
 * arrays hold the positions `x`, `y` and the normalised velocities `bx`, `by`
 * of every particle at every slice; an initialiser fills row 0 and the
 * simulation fills the rest. Two initialisers exist: a square grid and a
 * quadrant-symmetric random swarm, whose uniform draws are inputs here.
 */
module Electrons {
  import opened Wrappers
  import opened Support
  import opened Numerics
  import opened Plasma

  /** The initialiser that built a swarm; the grid reports its particle count as `num_pts²`. */
  datatype Layout =
    | Plain
    | GridLayout(numPts: nat, xMag: real, yMag: real)
    | RandomLayout(xMag: real, yMag: real)

  /** `n` zeros: the assignment `a[0, :] = 0`. */
  function Zeros(n: nat): (v: seq<real>)
    ensures |v| == n
    ensures forall k :: 0 <= k < n ==> v[k] == 0.0
  {
    seq(n, k => 0.0)
  }

  // ---------------------------------------------------------------------
  // The grid initialiser
  // ---------------------------------------------------------------------

  /** The grid's `x` axis: `linspace(-x_mag, x_mag, num_pts)`. */
  function GridAxis(mag: real, numPts: nat): seq<real>
  {
    Linspace(-mag, mag, numPts)
  }

  /** Row 0 of `x` for a grid on the axes `xv`, `yv`: the flattened first meshgrid output. */
  function GridX(xv: seq<real>, yv: seq<real>): (v: seq<real>)
    ensures |v| == |yv| * |xv|
  {
    FlatMeshgridLength(xv, yv);
    Flatten(MeshgridX(xv, yv))
  }

  /** Row 0 of `y` for a grid on the axes `xv`, `yv`: the flattened second meshgrid output. */
  function GridY(xv: seq<real>, yv: seq<real>): (v: seq<real>)
    ensures |v| == |yv| * |xv|
  {
    FlatMeshgridLength(xv, yv);
    Flatten(MeshgridY(xv, yv))
  }

  /** Grid particle `k` of a square `n × n` grid sits at column `k mod n`, row `k div n`. */
  lemma GridAt(xv: seq<real>, yv: seq<real>, n: nat, k: nat)
    requires |xv| == n && |yv| == n && k < n * n
    ensures 0 < n && k / n < n
    ensures GridX(xv, yv)[k] == xv[k % n]
    ensures GridY(xv, yv)[k] == yv[k / n]
  {
    DivBelow(k, n, n);
    FlatMeshgridAt(xv, yv, k);
  }

  /** The row and column of grid particle `k` of a square `n × n` grid. */
  lemma GridIndex(n: nat, k: nat) returns (r: nat, c: nat)
    requires k < n * n
    ensures 0 < n && r == k / n && c == k % n && r < n && c < n
  {
    DivBelow(k, n, n);
    r, c := k / n, k % n;
  }

  /** The grid spans the whole box: its axes run from `-mag` to `mag`. */
  lemma GridAxisEnds(mag: real, numPts: nat)
    requires 1 < numPts
    ensures GridAxis(mag, numPts)[0] == -mag
    ensures GridAxis(mag, numPts)[numPts - 1] == mag
  {
    LinspaceEnds(-mag, mag, numPts);
  }

  /** Every grid point lies in the box `[-x_mag, x_mag] × [-y_mag, y_mag]`. */
  lemma GridInBox(numPts: nat, xMag: real, yMag: real, k: nat)
    requires 0.0 <= xMag && 0.0 <= yMag && k < numPts * numPts
    ensures -xMag <= GridX(GridAxis(xMag, numPts), GridAxis(yMag, numPts))[k] <= xMag
    ensures -yMag <= GridY(GridAxis(xMag, numPts), GridAxis(yMag, numPts))[k] <= yMag
  {
    var xv, yv := GridAxis(xMag, numPts), GridAxis(yMag, numPts);
    GridAt(xv, yv, numPts, k);
    GridAxisBounded(xMag, numPts, k % numPts);
    GridAxisBounded(yMag, numPts, k / numPts);
  }

  lemma GridAxisBounded(mag: real, numPts: nat, c: nat)
    requires 0.0 <= mag && c < numPts
    ensures -mag <= GridAxis(mag, numPts)[c] <= mag
  {
    LinspaceBounded(-mag, mag, numPts, c);
  }

  // ---------------------------------------------------------------------
  // The quadrant-symmetric random initialiser
  // ---------------------------------------------------------------------

  /** The particle count actually used: `4 * int(num_parts / 4)`, a multiple of 4 within 4 of the request. */
  function QuadrantCount(requested: nat): (n: nat)
    ensures n % 4 == 0
    ensures n <= requested < n + 4
  {
    4 * (requested / 4)
  }

  /** `rand(q) * mag`: the uniform draws `u` scaled to the box. */
  function ScaleDraws(u: seq<real>, mag: real): (v: seq<real>)
    ensures |v| == |u|
    ensures forall k :: 0 <= k < |u| ==> v[k] == u[k] * mag
  {
    seq(|u|, k requires 0 <= k < |u| => u[k] * mag)
  }

  function Negate(v: seq<real>): (w: seq<real>)
    ensures |w| == |v|
    ensures forall k :: 0 <= k < |v| ==> w[k] == -v[k]
  {
    seq(|v|, k requires 0 <= k < |v| => -v[k])
  }

  /** `concatenate((x, -x, x, -x))`. */
  function MirrorX(v: seq<real>): seq<real>
  {
    v + Negate(v) + v + Negate(v)
  }

  /** `concatenate((y, y, -y, -y))`. */
  function MirrorY(v: seq<real>): seq<real>
  {
    v + v + Negate(v) + Negate(v)
  }

  /** The four blocks of `x` are the draws, mirrored in `y = 0` in the second and fourth block. */
  lemma MirrorXAt(v: seq<real>, k: nat)
    requires k < |v|
    ensures var q, m := |v|, MirrorX(v);
            |m| == 4 * q && m[k] == v[k] && m[k + 2 * q] == m[k] && m[k + q] == -m[k] && m[k + 3 * q] == -m[k]
  {
  }

  /** The four blocks of `y` are the draws, mirrored in `x = 0` in the third and fourth block. */
  lemma MirrorYAt(v: seq<real>, k: nat)
    requires k < |v|
    ensures var q, m := |v|, MirrorY(v);
            |m| == 4 * q && m[k] == v[k] && m[k + q] == m[k] && m[k + 2 * q] == -m[k] && m[k + 3 * q] == -m[k]
  {
  }

  /** Draws in `[0, 1)` scaled by a positive magnitude and mirrored stay strictly inside `(-mag, mag)`. */
  lemma MirroredDrawsBounded(u: seq<real>, mag: real)
    requires 0.0 < mag
    requires forall k :: 0 <= k < |u| ==> 0.0 <= u[k] < 1.0
    ensures forall k :: 0 <= k < |MirrorX(ScaleDraws(u, mag))| ==> -mag < MirrorX(ScaleDraws(u, mag))[k] < mag
    ensures forall k :: 0 <= k < |MirrorY(ScaleDraws(u, mag))| ==> -mag < MirrorY(ScaleDraws(u, mag))[k] < mag
  {
    var v := ScaleDraws(u, mag);
    forall k | 0 <= k < |u|
      ensures -mag < v[k] < mag
    {
      assert u[k] * mag < 1.0 * mag;
    }
  }

  // ---------------------------------------------------------------------
  // The swarm
  // ---------------------------------------------------------------------

  class PlasmaE {
    const params: PlasmaParams
    const numParts: nat
    const layout: Layout
    const xCoords: array2<real>
    const yCoords: array2<real>
    const bxCoords: array2<real>
    const byCoords: array2<real>
    var stamp: Option<Time>

    /** Each array has one row per slice and one column per particle, and they are four distinct arrays. */
    ghost predicate Valid()
    {
      && xCoords.Length0 == params.NumSteps() && xCoords.Length1 == numParts
      && yCoords.Length0 == params.NumSteps() && yCoords.Length1 == numParts
      && bxCoords.Length0 == params.NumSteps() && bxCoords.Length1 == numParts
      && byCoords.Length0 == params.NumSteps() && byCoords.Length1 == numParts
      && xCoords != yCoords && xCoords != bxCoords && xCoords != byCoords
      && yCoords != bxCoords && yCoords != byCoords && bxCoords != byCoords
      && (layout.GridLayout? ==> numParts == layout.numPts * layout.numPts)
    }

    /** Row 0 holds the flattened grid and zero velocities. */
    ghost predicate GridRowZero(numPts: nat, xMag: real, yMag: real)
      requires Valid() && 0 < params.NumSteps() && numParts == numPts * numPts
      reads xCoords, yCoords, bxCoords, byCoords
    {
      forall k :: 0 <= k < numParts ==>
        && xCoords[0, k] == GridX(GridAxis(xMag, numPts), GridAxis(yMag, numPts))[k]
        && yCoords[0, k] == GridY(GridAxis(xMag, numPts), GridAxis(yMag, numPts))[k]
        && bxCoords[0, k] == 0.0 && byCoords[0, k] == 0.0
    }

    /** Row 0 holds the mirrored draws and zero velocities. */
    ghost predicate RandomRowZero(u: seq<real>, v: seq<real>, xMag: real, yMag: real)
      requires Valid() && 0 < params.NumSteps() && numParts == 4 * |u| && |v| == |u|
      reads xCoords, yCoords, bxCoords, byCoords
    {
      forall k :: 0 <= k < numParts ==>
        && xCoords[0, k] == MirrorX(ScaleDraws(u, xMag))[k]
        && yCoords[0, k] == MirrorY(ScaleDraws(v, yMag))[k]
        && bxCoords[0, k] == 0.0 && byCoords[0, k] == 0.0
    }

    /** The base constructor: four uninitialised `(num_steps × num_parts)` arrays and no timestamp. */
    constructor (params: PlasmaParams, numParts: nat)
      ensures this.params == params && this.numParts == numParts && layout == Plain
      ensures Valid()
      ensures fresh(xCoords) && fresh(yCoords) && fresh(bxCoords) && fresh(byCoords)
      ensures Timestamp() == Failure(RuntimeError(NoTimestamp))
    {
      var steps := params.NumSteps();
      this.params := params;
      this.numParts := numParts;
      layout := Plain;
      xCoords := new real[steps, numParts];
      yCoords := new real[steps, numParts];
      bxCoords := new real[steps, numParts];
      byCoords := new real[steps, numParts];
      stamp := None;
    }

    /** The grid initialiser with its particle count `num_pts * num_pts`, on a grid with at least one slice. */
    constructor Grid(numPts: nat, xMag: real, yMag: real, params: PlasmaParams)
      requires 0 < params.NumSteps()
      ensures this.params == params && numParts == numPts * numPts && layout == GridLayout(numPts, xMag, yMag)
      ensures Valid() && GridRowZero(numPts, xMag, yMag)
      ensures NumParts() == numPts * numPts
      ensures fresh(xCoords) && fresh(yCoords) && fresh(bxCoords) && fresh(byCoords)
      ensures Timestamp() == Failure(RuntimeError(NoTimestamp))
    {
      var steps, n := params.NumSteps(), numPts * numPts;
      var xa := new real[steps, n];
      var ya := new real[steps, n];
      var bxa := new real[steps, n];
      var bya := new real[steps, n];
      AssignRow(xa, 0, GridX(GridAxis(xMag, numPts), GridAxis(yMag, numPts)));
      AssignRow(ya, 0, GridY(GridAxis(xMag, numPts), GridAxis(yMag, numPts)));
      AssignRow(bxa, 0, Zeros(n));
      AssignRow(bya, 0, Zeros(n));
      this.params := params;
      numParts := n;
      layout := GridLayout(numPts, xMag, yMag);
      xCoords, yCoords, bxCoords, byCoords := xa, ya, bxa, bya;
      stamp := None;
    }

    /**
     * The quadrant-symmetric random initialiser: `u` and `v` are the
     * `int(num_parts / 4)` uniform draws for `x` and `y`.
     */
    constructor Random(requested: nat, xMag: real, yMag: real, params: PlasmaParams, u: seq<real>, v: seq<real>)
      requires 0 < params.NumSteps()
      requires |u| == requested / 4 && |v| == requested / 4
      ensures this.params == params && numParts == QuadrantCount(requested) && layout == RandomLayout(xMag, yMag)
      ensures Valid() && RandomRowZero(u, v, xMag, yMag)
      ensures NumParts() == QuadrantCount(requested)
      ensures fresh(xCoords) && fresh(yCoords) && fresh(bxCoords) && fresh(byCoords)
      ensures Timestamp() == Failure(RuntimeError(NoTimestamp))
    {
      var steps, n := params.NumSteps(), 4 * (requested / 4);
      var xa := new real[steps, n];
      var ya := new real[steps, n];
      var bxa := new real[steps, n];
      var bya := new real[steps, n];
      AssignRow(xa, 0, MirrorX(ScaleDraws(u, xMag)));
      AssignRow(ya, 0, MirrorY(ScaleDraws(v, yMag)));
      AssignRow(bxa, 0, Zeros(n));
      AssignRow(bya, 0, Zeros(n));
      this.params := params;
      numParts := n;
      layout := RandomLayout(xMag, yMag);
      xCoords, yCoords, bxCoords, byCoords := xa, ya, bxa, bya;
      stamp := None;
    }

    /** The `num_parts` property: the grid reports `num_pts**2`, the others the stored count; either way the array width. */
    function NumParts(): (n: nat)
      ensures Valid() ==> n == xCoords.Length1 && n == byCoords.Length1
    {
      match layout
      case GridLayout(numPts, _, _) => numPts * numPts
      case _ => numParts
    }

    /** The `timestamp` property inherited from the Timestamp base class. */
    function Timestamp(): Result<Time, Error>
      reads this
    {
      ReadStamp(stamp)
    }

    /** `_set_timestamp`: stamps both the swarm and its plasma parameters. */
    method SetTimestamp(t: Time)
      modifies this, params
      ensures stamp == Some(t) && Timestamp() == Success(t)
      ensures params.Timestamp() == Some(t)
    {
      stamp := Some(t);
      params.SetTimestamp(t);
    }
  }

  /**
   * `PlasmaE_Grid(num_pts, x_mag, y_mag, PlasmaParams)` with the particle
   * count it evidently means, `num_pts * num_pts`: writing row 0 raises
   * IndexError when there are no slices.
   */
  method NewGrid(numPts: nat, xMag: real, yMag: real, params: PlasmaParams) returns (r: Result<PlasmaE, Error>)
    ensures r.Failure? <==> params.NumSteps() == 0
    ensures r.Failure? ==> r.error == IndexError
    ensures r.Success? ==> fresh(r.value) && r.value.Valid() && r.value.params == params
    ensures r.Success? ==> r.value.numParts == numPts * numPts && r.value.GridRowZero(numPts, xMag, yMag)
  {
    if params.NumSteps() == 0 {
      return Failure(IndexError);
    }
    var e := new PlasmaE.Grid(numPts, xMag, yMag, params);
    return Success(e);
  }

  /**
   * `PlasmaE_Grid` as written: the base constructor is passed the name
   * `num_parts`, which is not defined in the initialiser, so every call
   * raises NameError before anything is allocated.
   */
  method NewGridAsWritten(numPts: nat, xMag: real, yMag: real, params: PlasmaParams) returns (r: Result<PlasmaE, Error>)
    ensures r == Failure(NameError("num_parts"))
  {
    return Failure(NameError("num_parts"));
  }

  /** `PlasmaE_Random(num_parts, x_mag, y_mag, PlasmaParams)` with its draws given. */
  method NewRandom(requested: nat, xMag: real, yMag: real, params: PlasmaParams, u: seq<real>, v: seq<real>)
    returns (r: Result<PlasmaE, Error>)
    requires |u| == requested / 4 && |v| == requested / 4
    ensures r.Failure? <==> params.NumSteps() == 0
    ensures r.Failure? ==> r.error == IndexError
    ensures r.Success? ==> fresh(r.value) && r.value.Valid() && r.value.params == params
    ensures r.Success? ==> r.value.numParts == QuadrantCount(requested) && r.value.RandomRowZero(u, v, xMag, yMag)
  {
    if params.NumSteps() == 0 {
      return Failure(IndexError);
    }
    var e := new PlasmaE.Random(requested, xMag, yMag, params, u, v);
    return Success(e);
  }
}

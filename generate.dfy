/**
 * blowout/generate.py: the older generation of the simulation objects. Its
 * drive bunch and its plasma-electron swarm carry the slice grid themselves
 * (there is no separate parameter object), its `timestamp` properties raise
 * while no timestamp is set, and its filename derivation returns an explicit
 * name unchanged.
 */
module Generate {
  import opened Wrappers
  import opened Support
  import opened Numerics
  import Formulas
  import Electrons

  // ---------------------------------------------------------------------
  // The drive bunch
  // ---------------------------------------------------------------------

  /** `Drive(sx, sy, sz, charge, gamma)`: the drive-bunch parameters and a timestamp that is never set. */
  class Drive {
    const sx: real
    const sy: real
    const sz: real
    const charge: real
    const gamma: real
    var stamp: Option<Time>

    constructor (sx: real, sy: real, sz: real, charge: real, gamma: real)
      ensures this.sx == sx && this.sy == sy && this.sz == sz && this.charge == charge && this.gamma == gamma
      ensures Timestamp() == Failure(RuntimeError(NoTimestamp))
    {
      this.sx, this.sy, this.sz := sx, sy, sz;
      this.charge, this.gamma := charge, gamma;
      stamp := None;
    }

    /** The `timestamp` property, as ReadStamp gives it. */
    function Timestamp(): Result<Time, Error>
      reads this
    {
      ReadStamp(stamp)
    }
  }

  // ---------------------------------------------------------------------
  // The plasma-electron swarm
  // ---------------------------------------------------------------------

  /** Which constructor built a swarm: the base class, the square grid or the plain random box. */
  datatype Kind = Base | Grid(numPts: nat) | Random

  /** `rand(n) * (2 * mag) - mag`: the uniform draws `u` spread over the box `[-mag, mag)`. */
  function Spread(u: seq<real>, mag: real): (v: seq<real>)
    ensures |v| == |u|
  {
    seq(|u|, k requires 0 <= k < |u| => u[k] * (2.0 * mag) - mag)
  }

  /** Draws in `[0, 1)` land in `[-mag, mag)`, and each draw can be read back from its position. */
  lemma SpreadAt(u: seq<real>, mag: real, k: nat)
    requires 0.0 < mag && k < |u| && 0.0 <= u[k] < 1.0
    ensures -mag <= Spread(u, mag)[k] < mag
    ensures u[k] == (Spread(u, mag)[k] + mag) / (2.0 * mag)
  {
    var x := Spread(u, mag)[k];
    assert x == u[k] * (2.0 * mag) - mag;
    assert u[k] * (2.0 * mag) < 1.0 * (2.0 * mag);
  }

  class PlasmaE {
    const xiStart: real
    const xiEnd: real
    const dxi: real
    const np: real
    /** The longitudinal slices; `scisalt.numpy.linspacestep` is not modelled, so the grid is given. */
    const xiBubble: seq<real>
    const dt: real
    const numParts: nat
    const kind: Kind
    const xCoords: array2<real>
    const yCoords: array2<real>
    const bxCoords: array2<real>
    const byCoords: array2<real>
    var stamp: Option<Time>

    /** Four distinct arrays with one row per slice and one column per particle. */
    ghost predicate Valid()
    {
      && xCoords.Length0 == |xiBubble| && xCoords.Length1 == numParts
      && yCoords.Length0 == |xiBubble| && yCoords.Length1 == numParts
      && bxCoords.Length0 == |xiBubble| && bxCoords.Length1 == numParts
      && byCoords.Length0 == |xiBubble| && byCoords.Length1 == numParts
      && xCoords != yCoords && xCoords != bxCoords && xCoords != byCoords
      && yCoords != bxCoords && yCoords != byCoords && bxCoords != byCoords
      && (kind.Grid? ==> numParts == kind.numPts * kind.numPts)
    }

    /** Row 0 of the velocities is zero. */
    ghost predicate AtRest()
      requires Valid() && 0 < |xiBubble|
      reads bxCoords, byCoords
    {
      forall k :: 0 <= k < numParts ==> bxCoords[0, k] == 0.0 && byCoords[0, k] == 0.0
    }

    /** Row 0 of the positions is the flattened `num_pts × num_pts` grid over the box. */
    ghost predicate OnGrid(numPts: nat, xMag: real, yMag: real)
      requires Valid() && 0 < |xiBubble| && numParts == numPts * numPts
      reads xCoords, yCoords
    {
      forall k :: 0 <= k < numParts ==>
        && xCoords[0, k] == Electrons.GridX(Electrons.GridAxis(xMag, numPts), Electrons.GridAxis(yMag, numPts))[k]
        && yCoords[0, k] == Electrons.GridY(Electrons.GridAxis(xMag, numPts), Electrons.GridAxis(yMag, numPts))[k]
    }

    /** Row 0 of the positions is the draws `u`, `v` spread over the box. */
    ghost predicate Spreaded(u: seq<real>, v: seq<real>, xMag: real, yMag: real)
      requires Valid() && 0 < |xiBubble| && |u| == numParts && |v| == numParts
      reads xCoords, yCoords
    {
      forall k :: 0 <= k < numParts ==> xCoords[0, k] == Spread(u, xMag)[k] && yCoords[0, k] == Spread(v, yMag)[k]
    }

    /**
     * `PlasmaE(xi_start, xi_end, dxi, num_parts, np)`: the time step `dxi / c`,
     * four uninitialised `(len(xi_bubble) × num_parts)` arrays, no timestamp.
     */
    constructor (xiStart: real, xiEnd: real, dxi: real, numParts: nat, np: real, xiBubble: seq<real>)
      ensures this.xiStart == xiStart && this.xiEnd == xiEnd && this.dxi == dxi && this.np == np
      ensures this.xiBubble == xiBubble && this.numParts == numParts && kind == Base
      ensures dt * Formulas.C == dxi
      ensures Valid()
      ensures fresh(xCoords) && fresh(yCoords) && fresh(bxCoords) && fresh(byCoords)
      ensures Timestamp() == Failure(RuntimeError(NoTimestamp))
    {
      this.xiStart, this.xiEnd, this.dxi, this.np := xiStart, xiEnd, dxi, np;
      this.xiBubble := xiBubble;
      dt := dxi / Formulas.C;
      this.numParts := numParts;
      kind := Base;
      xCoords := new real[|xiBubble|, numParts];
      yCoords := new real[|xiBubble|, numParts];
      bxCoords := new real[|xiBubble|, numParts];
      byCoords := new real[|xiBubble|, numParts];
      stamp := None;
    }

    /** `PlasmaE_Grid(num_pts, x_mag, y_mag, …)`: `num_pts²` particles on the grid, at rest. */
    constructor Grid(numPts: nat, xMag: real, yMag: real, xiStart: real, xiEnd: real, dxi: real, np: real,
                     xiBubble: seq<real>)
      requires 0 < |xiBubble|
      ensures this.xiStart == xiStart && this.xiEnd == xiEnd && this.dxi == dxi && this.np == np
      ensures this.xiBubble == xiBubble && numParts == numPts * numPts && kind == Kind.Grid(numPts)
      ensures dt * Formulas.C == dxi
      ensures Valid() && OnGrid(numPts, xMag, yMag) && AtRest()
      ensures NumParts() == Success(numPts * numPts)
      ensures fresh(xCoords) && fresh(yCoords) && fresh(bxCoords) && fresh(byCoords)
      ensures Timestamp() == Failure(RuntimeError(NoTimestamp))
    {
      var steps, n := |xiBubble|, numPts * numPts;
      var xa := new real[steps, n];
      var ya := new real[steps, n];
      var bxa := new real[steps, n];
      var bya := new real[steps, n];
      var xv, yv := Electrons.GridAxis(xMag, numPts), Electrons.GridAxis(yMag, numPts);
      AssignRow(xa, 0, Electrons.GridX(xv, yv));
      AssignRow(ya, 0, Electrons.GridY(xv, yv));
      AssignRow(bxa, 0, Electrons.Zeros(n));
      AssignRow(bya, 0, Electrons.Zeros(n));
      this.xiStart, this.xiEnd, this.dxi, this.np := xiStart, xiEnd, dxi, np;
      this.xiBubble := xiBubble;
      dt := dxi / Formulas.C;
      numParts := n;
      kind := Kind.Grid(numPts);
      xCoords, yCoords, bxCoords, byCoords := xa, ya, bxa, bya;
      stamp := None;
    }

    /** `PlasmaE_Random(num_parts, x_mag, y_mag, …)` with its two rounds of `num_parts` draws given. */
    constructor Random(numParts: nat, xMag: real, yMag: real, xiStart: real, xiEnd: real, dxi: real, np: real,
                       xiBubble: seq<real>, u: seq<real>, v: seq<real>)
      requires 0 < |xiBubble| && |u| == numParts && |v| == numParts
      ensures this.xiStart == xiStart && this.xiEnd == xiEnd && this.dxi == dxi && this.np == np
      ensures this.xiBubble == xiBubble && this.numParts == numParts && kind == Kind.Random
      ensures dt * Formulas.C == dxi
      ensures Valid() && Spreaded(u, v, xMag, yMag) && AtRest()
      ensures NumParts() == Success(numParts)
      ensures fresh(xCoords) && fresh(yCoords) && fresh(bxCoords) && fresh(byCoords)
      ensures Timestamp() == Failure(RuntimeError(NoTimestamp))
    {
      var steps := |xiBubble|;
      var xa := new real[steps, numParts];
      var ya := new real[steps, numParts];
      var bxa := new real[steps, numParts];
      var bya := new real[steps, numParts];
      AssignRow(xa, 0, Spread(u, xMag));
      AssignRow(ya, 0, Spread(v, yMag));
      AssignRow(bxa, 0, Electrons.Zeros(numParts));
      AssignRow(bya, 0, Electrons.Zeros(numParts));
      this.xiStart, this.xiEnd, this.dxi, this.np := xiStart, xiEnd, dxi, np;
      this.xiBubble := xiBubble;
      dt := dxi / Formulas.C;
      this.numParts := numParts;
      kind := Kind.Random;
      xCoords, yCoords, bxCoords, byCoords := xa, ya, bxa, bya;
      stamp := None;
    }

    /**
     * The `num_parts` property, defined by the two subclasses only: the grid
     * reports `num_pts**2`, the random box its stored count, and the base
     * class has no such attribute.
     */
    function NumParts(): (r: Result<nat, Error>)
      ensures r.Failure? <==> kind == Base
      ensures r.Failure? ==> r.error == AttributeError
      ensures r.Success? && Valid() ==> r.value == xCoords.Length1
    {
      match kind
      case Base => Failure(AttributeError)
      case Grid(numPts) => Success(numPts * numPts)
      case Random => Success(numParts)
    }

    /** The `timestamp` property, as ReadStamp gives it. */
    function Timestamp(): Result<Time, Error>
      reads this
    {
      ReadStamp(stamp)
    }
  }

  /** Every particle of a random box starts inside the box `[-x_mag, x_mag) × [-y_mag, y_mag)`. */
  lemma RandomInBox(e: PlasmaE, u: seq<real>, v: seq<real>, xMag: real, yMag: real, k: nat)
    requires e.Valid() && 0 < |e.xiBubble| && |u| == e.numParts && |v| == e.numParts
    requires e.Spreaded(u, v, xMag, yMag)
    requires 0.0 < xMag && 0.0 < yMag && k < e.numParts
    requires 0.0 <= u[k] < 1.0 && 0.0 <= v[k] < 1.0
    ensures -xMag <= e.xCoords[0, k] < xMag && -yMag <= e.yCoords[0, k] < yMag
  {
    SpreadAt(u, xMag, k);
    SpreadAt(v, yMag, k);
  }

  /** Grid particle `k` sits at column `c = k mod num_pts` and row `r = k div num_pts` of the axes. */
  lemma GridParticle(e: PlasmaE, numPts: nat, xMag: real, yMag: real, k: nat) returns (r: nat, c: nat)
    requires e.Valid() && 0 < |e.xiBubble| && e.numParts == numPts * numPts
    requires e.OnGrid(numPts, xMag, yMag) && k < e.numParts
    ensures r == k / numPts && c == k % numPts && c < numPts && r < numPts
    ensures e.xCoords[0, k] == Electrons.GridAxis(xMag, numPts)[c]
    ensures e.yCoords[0, k] == Electrons.GridAxis(yMag, numPts)[r]
  {
    r, c := Electrons.GridIndex(numPts, k);
    Electrons.GridAt(Electrons.GridAxis(xMag, numPts), Electrons.GridAxis(yMag, numPts), numPts, k);
  }

  /** `PlasmaE_Grid(…)`: writing row 0 raises IndexError when there are no slices. */
  method NewGrid(numPts: nat, xMag: real, yMag: real, xiStart: real, xiEnd: real, dxi: real, np: real,
                 xiBubble: seq<real>) returns (r: Result<PlasmaE, Error>)
    ensures r.Failure? <==> |xiBubble| == 0
    ensures r.Failure? ==> r.error == IndexError
    ensures r.Success? ==> fresh(r.value) && r.value.Valid() && r.value.xiBubble == xiBubble
    ensures r.Success? ==> r.value.numParts == numPts * numPts && r.value.OnGrid(numPts, xMag, yMag) && r.value.AtRest()
  {
    if |xiBubble| == 0 {
      return Failure(IndexError);
    }
    var e := new PlasmaE.Grid(numPts, xMag, yMag, xiStart, xiEnd, dxi, np, xiBubble);
    return Success(e);
  }

  /** `PlasmaE_Random(…)`: writing row 0 raises IndexError when there are no slices. */
  method NewRandom(numParts: nat, xMag: real, yMag: real, xiStart: real, xiEnd: real, dxi: real, np: real,
                   xiBubble: seq<real>, u: seq<real>, v: seq<real>) returns (r: Result<PlasmaE, Error>)
    requires |u| == numParts && |v| == numParts
    ensures r.Failure? <==> |xiBubble| == 0
    ensures r.Failure? ==> r.error == IndexError
    ensures r.Success? ==> fresh(r.value) && r.value.Valid() && r.value.xiBubble == xiBubble
    ensures r.Success? ==> r.value.numParts == numParts && r.value.Spreaded(u, v, xMag, yMag) && r.value.AtRest()
  {
    if |xiBubble| == 0 {
      return Failure(IndexError);
    }
    var e := new PlasmaE.Random(numParts, xMag, yMag, xiStart, xiEnd, dxi, np, xiBubble, u, v);
    return Success(e);
  }

  // ---------------------------------------------------------------------
  // Filename derivation
  // ---------------------------------------------------------------------

  /**
   * `_timestamp2filename(cls, ftype, filename)` of this file: an explicit name
   * is returned as it is; otherwise the timestamp read from `cls` (`read`),
   * or the local time `now` when that read raised RuntimeError, is
   * formatted with the pattern for `ftype`.
   */
  function TimestampToFilenameLegacy(read: Result<Time, Error>, ftype: string, filename: Option<string>, now: Time)
    : (r: Result<string, Error>)
    ensures filename.Some? ==> r == Success(filename.value)
    ensures filename.None? && read.Success? ==> r == Success(FormatName(ftype, read.value))
    ensures filename.None? && read.Failure? && read.error.RuntimeError? ==> r == Success(FormatName(ftype, now))
    ensures r.Failure? <==> filename.None? && read.Failure? && !read.error.RuntimeError?
  {
    if filename.Some? then Success(filename.value)
    else
      match read
      case Success(t) => Success(FormatName(ftype, t))
      case Failure(e) => if e.RuntimeError? then Success(FormatName(ftype, now)) else Failure(e)
  }

  /** A drive or swarm of this file can always name its file: reading its timestamp raises only RuntimeError. */
  lemma LegacyFilenameTotal(stamp: Option<Time>, ftype: string, filename: Option<string>, now: Time)
    ensures TimestampToFilenameLegacy(ReadStamp(stamp), ftype, filename, now).Success?
    ensures stamp.None? && filename.None? ==>
              TimestampToFilenameLegacy(ReadStamp(stamp), ftype, filename, now) == Success(FormatName(ftype, now))
  {
  }

  /**
   * The two derivations agree when they build the name from a timestamp,
   * and differ on an explicit name: this one keeps it bare, the one in
   * blowout/support.py appends the record-type suffix.
   */
  lemma LegacyAgreesOnDerivedNames(stamp: Option<Time>, ftype: string, name: string, now: Time)
    ensures TimestampToFilenameLegacy(ReadStamp(stamp), ftype, None, now)
            == TimestampToFilename(RaisingRead(stamp), ftype, None, now)
    ensures TimestampToFilename(RaisingRead(stamp), ftype, Some(name), now).value
            == TimestampToFilenameLegacy(ReadStamp(stamp), ftype, Some(name), now).value + Suffix(ftype)
  {
  }
}

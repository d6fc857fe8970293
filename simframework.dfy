/**
 * blowout/simframework.py: the simulation driver. Row `i + 1` of the
 * electron arrays is obtained from row `i`: positions move by `β c dt`, then
 * each particle's velocity is kicked by the drive's field through
 * `dbetadt`. Before the kick the ion cavity of row `i` is extracted, and
 * after the loop that of the last row; on completion one timestamp is given
 * to the electrons, the ions, the drive and the frame itself.
 */
module SimFramework {
  import opened Wrappers
  import opened Support
  import opened Numerics
  import Formulas
  import opened Electrons
  import opened Ions

  // ---------------------------------------------------------------------
  // The ion cavity calls of one simulation
  // ---------------------------------------------------------------------

  /** The slots after a run of calls, how many calls succeeded, and whether one failed. */
  datatype Fed = Fed(slots: seq<Slot>, count: nat, out: Outcome<Error>)

  /**
   * The calls `add_ion_ellipse(xs[k], ys[k])` for `k = 0, 1, …` from counter
   * `ind`, stopping at the first error.
   */
  function Feed(slots: seq<Slot>, ind: nat, xs: seq<seq<real>>, ys: seq<seq<real>>, p: Pipeline): (r: Fed)
    requires |xs| == |ys|
    ensures |r.slots| == |slots|
    ensures r.out.Pass? ==> r.count == |xs|
    ensures r.out.Fail? ==> r.count < |xs| && r.out.error == IndexError
    decreases |xs|
  {
    if xs == [] then Fed(slots, 0, Pass)
    else
      var k := |xs| - 1;
      var prev := Feed(slots, ind, xs[..k], ys[..k], p);
      if prev.out.Fail? then prev
      else
        var (after, out) := AddAt(prev.slots, ind + k, xs[k], ys[k], p);
        if out.Failure? then Fed(after, k, Fail(out.error)) else Fed(after, k + 1, Pass)
  }

  /** Once a call has failed, later rows change nothing. */
  lemma {:induction false} FeedExtend(slots: seq<Slot>, ind: nat, xs: seq<seq<real>>, ys: seq<seq<real>>, p: Pipeline, i: nat)
    requires |xs| == |ys| && i <= |xs| && Feed(slots, ind, xs[..i], ys[..i], p).out.Fail?
    ensures Feed(slots, ind, xs, ys, p) == Feed(slots, ind, xs[..i], ys[..i], p)
    decreases |xs| - i
  {
    if i < |xs| {
      assert xs[..i + 1][..i] == xs[..i] && ys[..i + 1][..i] == ys[..i];
      FeedExtend(slots, ind, xs, ys, p, i + 1);
    } else {
      assert xs[..i] == xs && ys[..i] == ys;
    }
  }

  /** One more call after a run of successful ones. */
  lemma FeedStep(slots: seq<Slot>, ind: nat, xs: seq<seq<real>>, ys: seq<seq<real>>, p: Pipeline, i: nat)
    requires |xs| == |ys| && i < |xs| && Feed(slots, ind, xs[..i], ys[..i], p).out.Pass?
    ensures var prev := Feed(slots, ind, xs[..i], ys[..i], p);
            var (after, out) := AddAt(prev.slots, ind + i, xs[i], ys[i], p);
            Feed(slots, ind, xs[..i + 1], ys[..i + 1], p)
              == if out.Failure? then Fed(after, i, Fail(out.error)) else Fed(after, i + 1, Pass)
  {
    assert xs[..i + 1][..i] == xs[..i] && ys[..i + 1][..i] == ys[..i];
    assert xs[..i + 1][i] == xs[i] && ys[..i + 1][i] == ys[i];
  }

  /** A call of `add_ion_ellipse` with effect `step` leaves the slots `after` and reports `r`. */
  ghost predicate Added(step: (seq<Slot>, Result<Record, Error>), after: seq<Slot>, r: Outcome<Error>)
  {
    after == step.0 && r == if step.1.Failure? then Fail(step.1.error) else Pass
  }

  /** Two sequences that agree on their first `i + 1` items agree on the first `i` and on item `i`. */
  lemma PrefixAgree<T>(a: seq<T>, b: seq<T>, i: nat)
    requires i < |a| && i < |b| && a[..i + 1] == b[..i + 1]
    ensures a[..i] == b[..i] && a[i] == b[i]
  {
    assert a[..i] == a[..i + 1][..i] && b[..i] == b[..i + 1][..i];
    assert a[i] == a[..i + 1][i] && b[i] == b[..i + 1][i];
  }

  /**
   * The run of calls on rows `0 … i - 1` succeeded and left `slots`; the call
   * on row `i` leaves `after` and reports `r`. Rows `xs'` agree with `xs` up
   * to row `i`. Then the run on rows `0 … i` of `xs'` either succeeded, or
   * failed at row `i`, which then stands for the run over all of `xs'`.
   */
  lemma FeedAdvance(slots0: seq<Slot>, ind0: nat, xs: seq<seq<real>>, ys: seq<seq<real>>,
                    xs': seq<seq<real>>, ys': seq<seq<real>>, p: Pipeline, i: nat,
                    slots: seq<Slot>, after: seq<Slot>, r: Outcome<Error>)
    requires |xs| == |ys| && |xs'| == |xs| && |ys'| == |xs| && i < |xs|
    requires xs'[..i + 1] == xs[..i + 1] && ys'[..i + 1] == ys[..i + 1]
    requires Feed(slots0, ind0, xs[..i], ys[..i], p) == Fed(slots, i, Pass)
    requires Added(AddAt(slots, ind0 + i, xs[i], ys[i], p), after, r)
    ensures r.Pass? ==> Feed(slots0, ind0, xs'[..i + 1], ys'[..i + 1], p) == Fed(after, i + 1, Pass)
    ensures r.Fail? ==> Feed(slots0, ind0, xs', ys', p) == Fed(after, i, r)
  {
    PrefixAgree(xs', xs, i);
    PrefixAgree(ys', ys, i);
    FeedStep(slots0, ind0, xs', ys', p, i);
    if r.Fail? {
      FeedExtend(slots0, ind0, xs', ys', p, i + 1);
    }
  }

  /**
   * Each slot is written by at most one call: with the counter starting at
   * `ind`, the calls that succeeded filled the slots `ind … ind + count - 1`
   * with results, and every slot outside the range the calls reached keeps
   * what it held.
   */
  lemma {:induction false} FeedSlots(slots: seq<Slot>, ind: nat, xs: seq<seq<real>>, ys: seq<seq<real>>, p: Pipeline)
    requires |xs| == |ys|
    ensures var r := Feed(slots, ind, xs, ys, p);
            var reached := if r.out.Pass? then r.count else r.count + 1;
            && (forall t :: 0 <= t < |slots| && !(ind <= t < ind + reached) ==> r.slots[t] == slots[t])
            && (forall t :: 0 <= t < |slots| && ind <= t < ind + r.count ==> r.slots[t].result.Some?)
            && (r.out.Pass? && xs != [] ==> ind + r.count <= |slots|)
    decreases |xs|
  {
    if xs != [] {
      var k := |xs| - 1;
      FeedSlots(slots, ind, xs[..k], ys[..k], p);
      var prev := Feed(slots, ind, xs[..k], ys[..k], p);
      if prev.out.Pass? {
        var after := AddAt(prev.slots, ind + k, xs[k], ys[k], p);
        assert Feed(slots, ind, xs, ys, p)
               == if after.1.Failure? then Fed(after.0, k, Fail(after.1.error)) else Fed(after.0, k + 1, Pass);
        if ind + k < |slots| {
          var ex := Extract(prev.slots[ind + k], xs[k], ys[k], p);
          ExtractEffect(prev.slots[ind + k], xs[k], ys[k], p);
          if ex.1.Success? {
            assert ex.0.result == Some(ex.1.value);
          }
        } else {
          assert after.1 == Failure(IndexError);
        }
      }
    }
  }

  // ---------------------------------------------------------------------
  // One step of the particle push
  // ---------------------------------------------------------------------

  /**
   * The velocity change rate of one particle at slice `xi`: the drive's
   * field at the particle, scaled by the drive's `gamma`, through
   * `dbetadt` with the particle's own Lorentz factor `gammaOf(betaX, betaY)`.
   */
  function Kick(x: real, y: real, betaX: real, betaY: real, xi: real, eFields: (real, real, real) -> Formulas.Vec2,
                gammaOf: (real, real) -> real, driveGamma: real): (a: Formulas.Vec2)
    requires 0.0 < gammaOf(betaX, betaY)
    ensures eFields(x, y, xi) == Formulas.Vec2(0.0, 0.0) ==> a == Formulas.Vec2(0.0, 0.0)
    ensures driveGamma == 0.0 ==> a == Formulas.Vec2(0.0, 0.0)
  {
    Accel(x, y, betaX, betaY, DriveField(x, y, xi, eFields, driveGamma), gammaOf(betaX, betaY))
  }

  /** Line 55: the drive's field at the particle, times the drive's `gamma`, as the pair `(Ex, Ey)`. */
  function DriveField(x: real, y: real, xi: real, eFields: (real, real, real) -> Formulas.Vec2, driveGamma: real): Formulas.Vec2
  {
    var e := eFields(x, y, xi);
    Formulas.Vec2(e.x * driveGamma, e.y * driveGamma)
  }

  /** Line 60: `dbetadt` of the field components `(Ex, Ey)` at Lorentz factor `g`. */
  function Accel(x: real, y: real, betaX: real, betaY: real, field: Formulas.Vec2, g: real): Formulas.Vec2
    requires 0.0 < g
  {
    Formulas.DBetaDt(x, y, betaX, betaY, field.x, field.y, g)
  }

  /** Lines 65-66: a particle's velocity one slice later, `β + dt · dβ/dt`. */
  function Advance(x: real, y: real, betaX: real, betaY: real, xi: real, dt: real, eFields: (real, real, real) -> Formulas.Vec2,
                   gammaOf: (real, real) -> real, driveGamma: real): (v: Formulas.Vec2)
    requires 0.0 < gammaOf(betaX, betaY)
    ensures eFields(x, y, xi) == Formulas.Vec2(0.0, 0.0) ==> v == Formulas.Vec2(betaX, betaY)
  {
    Step(betaX, betaY, Kick(x, y, betaX, betaY, xi, eFields, gammaOf, driveGamma), dt)
  }

  /** One Euler step of the velocity: `β + a · dt`. */
  function Step(betaX: real, betaY: real, a: Formulas.Vec2, dt: real): Formulas.Vec2
  {
    Formulas.Vec2(betaX + a.x * dt, betaY + a.y * dt)
  }

  /** Lines 44-45 for one coordinate: `r + b c dt`, particle by particle. */
  function Drift(r: seq<real>, b: seq<real>, dt: real): (d: seq<real>)
    requires |b| == |r|
    ensures |d| == |r|
    ensures forall j :: 0 <= j < |r| ==> d[j] == r[j] + b[j] * Formulas.C * dt
  {
    seq(|r|, j requires 0 <= j < |r| => r[j] + b[j] * Formulas.C * dt)
  }

  /** Particles at rest do not move. */
  lemma DriftAtRest(r: seq<real>, b: seq<real>, dt: real)
    requires |b| == |r| && forall j :: 0 <= j < |b| ==> b[j] == 0.0
    ensures Drift(r, b, dt) == r
  {
    assert forall j :: 0 <= j < |r| ==> Drift(r, b, dt)[j] == r[j];
  }

  /** The velocity rows one slice later, particle by particle (built up from the left, as the loop writes them). */
  function KickRows(x: seq<real>, y: seq<real>, bxr: seq<real>, byr: seq<real>, xi: real, dt: real,
                    eFields: (real, real, real) -> Formulas.Vec2, gammaOf: (real, real) -> real, driveGamma: real)
    : (v: (seq<real>, seq<real>))
    requires |y| == |x| && |bxr| == |x| && |byr| == |x|
    requires forall betaX, betaY :: 0.0 < gammaOf(betaX, betaY)
    ensures |v.0| == |x| && |v.1| == |x|
    decreases |x|
  {
    if |x| == 0 then ([], [])
    else
      var n := |x| - 1;
      var prev := KickRows(x[..n], y[..n], bxr[..n], byr[..n], xi, dt, eFields, gammaOf, driveGamma);
      var a := Advance(x[n], y[n], bxr[n], byr[n], xi, dt, eFields, gammaOf, driveGamma);
      (prev.0 + [a.x], prev.1 + [a.y])
  }

  /** Each particle's new velocity is its own kick, independent of the others. */
  lemma {:induction false} KickRowsAt(x: seq<real>, y: seq<real>, bxr: seq<real>, byr: seq<real>, xi: real, dt: real,
                                      eFields: (real, real, real) -> Formulas.Vec2, gammaOf: (real, real) -> real, driveGamma: real)
    requires |y| == |x| && |bxr| == |x| && |byr| == |x|
    requires forall betaX, betaY :: 0.0 < gammaOf(betaX, betaY)
    ensures var v := KickRows(x, y, bxr, byr, xi, dt, eFields, gammaOf, driveGamma);
            forall j :: 0 <= j < |x| ==>
              Formulas.Vec2(v.0[j], v.1[j]) == Advance(x[j], y[j], bxr[j], byr[j], xi, dt, eFields, gammaOf, driveGamma)
    decreases |x|
  {
    if |x| > 0 {
      var n := |x| - 1;
      KickRowsAt(x[..n], y[..n], bxr[..n], byr[..n], xi, dt, eFields, gammaOf, driveGamma);
    }
  }

  /** Where the drive's field vanishes at every particle, the velocities do not change. */
  lemma KickRowsFieldFree(x: seq<real>, y: seq<real>, bxr: seq<real>, byr: seq<real>, xi: real, dt: real,
                          eFields: (real, real, real) -> Formulas.Vec2, gammaOf: (real, real) -> real, driveGamma: real)
    requires |y| == |x| && |bxr| == |x| && |byr| == |x|
    requires forall betaX, betaY :: 0.0 < gammaOf(betaX, betaY)
    requires forall j :: 0 <= j < |x| ==> eFields(x[j], y[j], xi) == Formulas.Vec2(0.0, 0.0)
    ensures KickRows(x, y, bxr, byr, xi, dt, eFields, gammaOf, driveGamma) == (bxr, byr)
  {
    var v := KickRows(x, y, bxr, byr, xi, dt, eFields, gammaOf, driveGamma);
    KickRowsAt(x, y, bxr, byr, xi, dt, eFields, gammaOf, driveGamma);
    forall j | 0 <= j < |x|
      ensures v.0[j] == bxr[j] && v.1[j] == byr[j]
    {
      assert Formulas.Vec2(v.0[j], v.1[j]) == Formulas.Vec2(bxr[j], byr[j]);
    }
    assert v.0 == bxr && v.1 == byr;
  }

  // ---------------------------------------------------------------------
  // Line 60: reading the field's components
  // ---------------------------------------------------------------------

  /**
   * What a field function hands to line 60: numpy's complex scalar
   * `re + i·im`, which is what `E_complex` (blowout/Efield.py:8-15) and so
   * `E_fields` (blowout/drive.py:65) return, or an indexable pair `(Ex, Ey)`.
   */
  datatype FieldValue = ComplexScalar(re: real, im: real) | FieldPair(ex: real, ey: real)

  /** `E * gamma` at line 55: both parts, or both entries, scaled. */
  function ScaleField(v: FieldValue, g: real): FieldValue
  {
    match v
    case ComplexScalar(re, im) => ComplexScalar(re * g, im * g)
    case FieldPair(ex, ey) => FieldPair(ex * g, ey * g)
  }

  /** numpy's `E[k]`: a pair has the entries `-2 … 1`; a scalar has no axis to index and raises IndexError. */
  function IndexField(v: FieldValue, k: int): (r: Result<real, Error>)
    ensures r.Success? <==> v.FieldPair? && -2 <= k < 2
    ensures r.Failure? ==> r.error == IndexError
    ensures v.FieldPair? && (k == 0 || k == -2) ==> r == Success(v.ex)
    ensures v.FieldPair? && (k == 1 || k == -1) ==> r == Success(v.ey)
  {
    match v
    case ComplexScalar(_, _) => Failure(IndexError)
    case FieldPair(ex, ey) =>
      match PyIndex(k, 2)
      case None => Failure(IndexError)
      case Some(i) => Success(if i == 0 then ex else ey)
  }

  /**
   * Lines 55-66 as written for one particle, given the value `v` that
   * `E_fields` returned there and the particle's Lorentz factor `g`: the
   * field times the drive's gamma, `E[0]` and `E[1]` read from it, then
   * `β + dt · dbetadt(…)`.
   */
  function KickOneAsWritten(x: real, y: real, betaX: real, betaY: real, v: FieldValue, dt: real, g: real, driveGamma: real)
    : (r: Result<Formulas.Vec2, Error>)
    requires 0.0 < g
    ensures r.Success? <==> v.FieldPair?
    ensures r.Failure? ==> r.error == IndexError
  {
    var e := ScaleField(v, driveGamma);
    var ex, ey := IndexField(e, 0), IndexField(e, 1);
    // `E[1]` can fail only where `E[0]` already has.
    if ex.Failure? then Failure(ex.error)
    else Success(Step(betaX, betaY, Accel(x, y, betaX, betaY, Formulas.Vec2(ex.value, ey.value), g), dt))
  }

  /** Reading `E[0]` and `E[1]` off a scaled pair gives the scaled entries. */
  lemma ReadScaledPair(ex: real, ey: real, driveGamma: real)
    ensures var e := ScaleField(FieldPair(ex, ey), driveGamma);
            IndexField(e, 0) == Success(ex * driveGamma) && IndexField(e, 1) == Success(ey * driveGamma)
  {
    assert ScaleField(FieldPair(ex, ey), driveGamma) == FieldPair(ex * driveGamma, ey * driveGamma);
  }

  /** Handed the pair of real and imaginary parts, one particle's step is the model's `Advance`. */
  lemma KickOneFromParts(x: real, y: real, betaX: real, betaY: real, xi: real, dt: real,
                         eFields: (real, real, real) -> Formulas.Vec2, gammaOf: (real, real) -> real, driveGamma: real)
    requires 0.0 < gammaOf(betaX, betaY)
    ensures var e := eFields(x, y, xi);
            KickOneAsWritten(x, y, betaX, betaY, FieldPair(e.x, e.y), dt, gammaOf(betaX, betaY), driveGamma)
              == Success(Advance(x, y, betaX, betaY, xi, dt, eFields, gammaOf, driveGamma))
  {
    var e := eFields(x, y, xi);
    ReadScaledPair(e.x, e.y, driveGamma);
    assert DriveField(x, y, xi, eFields, driveGamma) == Formulas.Vec2(e.x * driveGamma, e.y * driveGamma);
  }

  /**
   * The particle loop of lines 51-66 as written, for a field function
   * `fields`: particle by particle, the velocity is advanced; the first
   * failed read of `E[0]` or `E[1]` ends the loop.
   */
  function KickRowsAsWritten(x: seq<real>, y: seq<real>, bxr: seq<real>, byr: seq<real>, xi: real, dt: real,
                             fields: (real, real, real) -> FieldValue, gammaOf: (real, real) -> real, driveGamma: real)
    : (r: Result<(seq<real>, seq<real>), Error>)
    requires |y| == |x| && |bxr| == |x| && |byr| == |x|
    requires forall betaX, betaY :: 0.0 < gammaOf(betaX, betaY)
    ensures r.Success? ==> |r.value.0| == |x| && |r.value.1| == |x|
    ensures r.Failure? ==> r.error == IndexError
    decreases |x|
  {
    if |x| == 0 then Success(([], []))
    else
      var n := |x| - 1;
      match KickRowsAsWritten(x[..n], y[..n], bxr[..n], byr[..n], xi, dt, fields, gammaOf, driveGamma)
      case Failure(err) => Failure(err)
      case Success(prev) =>
        match KickOneAsWritten(x[n], y[n], bxr[n], byr[n], fields(x[n], y[n], xi), dt, gammaOf(bxr[n], byr[n]), driveGamma)
        case Failure(err) => Failure(err)
        case Success(v) => Success((prev.0 + [v.x], prev.1 + [v.y]))
  }

  /**
   * As written, `E_fields` returns one complex number, so with at least one
   * particle the loop raises IndexError at the first `E[0]`.
   */
  lemma {:induction false} KickRowsAsWrittenRaises(x: seq<real>, y: seq<real>, bxr: seq<real>, byr: seq<real>, xi: real, dt: real,
                                                   fields: (real, real, real) -> FieldValue, gammaOf: (real, real) -> real,
                                                   driveGamma: real)
    requires |y| == |x| && |bxr| == |x| && |byr| == |x|
    requires forall betaX, betaY :: 0.0 < gammaOf(betaX, betaY)
    requires forall a, b, c :: fields(a, b, c).ComplexScalar?
    ensures KickRowsAsWritten(x, y, bxr, byr, xi, dt, fields, gammaOf, driveGamma).Failure? <==> 0 < |x|
    decreases |x|
  {
    if 0 < |x| {
      var n := |x| - 1;
      KickRowsAsWrittenRaises(x[..n], y[..n], bxr[..n], byr[..n], xi, dt, fields, gammaOf, driveGamma);
      assert KickOneAsWritten(x[n], y[n], bxr[n], byr[n], fields(x[n], y[n], xi), dt, gammaOf(bxr[n], byr[n]), driveGamma).Failure?;
    }
  }

  /**
   * The reading the model uses: `(Ex, Ey)` are the real and imaginary parts
   * of the field, as `E_x` and `E_y` of blowout/Efield.py:18-23 take them.
   * The loop, handed that pair, completes and writes exactly `KickRows`.
   */
  lemma {:induction false} KickRowsFromParts(x: seq<real>, y: seq<real>, bxr: seq<real>, byr: seq<real>, xi: real, dt: real,
                                             fields: (real, real, real) -> FieldValue,
                                             eFields: (real, real, real) -> Formulas.Vec2, gammaOf: (real, real) -> real,
                                             driveGamma: real)
    requires |y| == |x| && |bxr| == |x| && |byr| == |x|
    requires forall betaX, betaY :: 0.0 < gammaOf(betaX, betaY)
    requires forall a, b, c :: fields(a, b, c) == FieldPair(eFields(a, b, c).x, eFields(a, b, c).y)
    ensures KickRowsAsWritten(x, y, bxr, byr, xi, dt, fields, gammaOf, driveGamma)
              == Success(KickRows(x, y, bxr, byr, xi, dt, eFields, gammaOf, driveGamma))
    decreases |x|
  {
    if 0 < |x| {
      var n := |x| - 1;
      KickRowsFromParts(x[..n], y[..n], bxr[..n], byr[..n], xi, dt, fields, eFields, gammaOf, driveGamma);
      KickOneFromParts(x[n], y[n], bxr[n], byr[n], xi, dt, eFields, gammaOf, driveGamma);
    }
  }

  /** Row `i + 1` of the positions came from drifting row `i`. */
  ghost predicate DriftedAt(xr: seq<seq<real>>, yr: seq<seq<real>>, bxr: seq<seq<real>>, byr: seq<seq<real>>, dt: real, i: nat)
  {
    && i + 1 < |xr| && i + 1 < |yr| && i < |bxr| && i < |byr| && |bxr[i]| == |xr[i]| && |byr[i]| == |yr[i]|
    && xr[i + 1] == Drift(xr[i], bxr[i], dt) && yr[i + 1] == Drift(yr[i], byr[i], dt)
  }

  /** Rows `1 … upto` of the positions came from drifting the row before. */
  ghost predicate Drifted(xr: seq<seq<real>>, yr: seq<seq<real>>, bxr: seq<seq<real>>, byr: seq<seq<real>>, dt: real, upto: nat)
  {
    forall i :: 0 <= i < upto && i + 1 < |xr| ==> DriftedAt(xr, yr, bxr, byr, dt, i)
  }

  /** Row `i + 1` of the velocities came from kicking row `i` at slice `xiBubble[i]`. */
  ghost predicate KickedAt(xr: seq<seq<real>>, yr: seq<seq<real>>, bxr: seq<seq<real>>, byr: seq<seq<real>>, xiBubble: seq<real>,
                           dt: real, eFields: (real, real, real) -> Formulas.Vec2, gammaOf: (real, real) -> real, driveGamma: real,
                           i: nat)
    requires forall betaX, betaY :: 0.0 < gammaOf(betaX, betaY)
  {
    && i < |xr| && i < |yr| && i + 1 < |bxr| && i + 1 < |byr| && i < |xiBubble|
    && |yr[i]| == |xr[i]| && |bxr[i]| == |xr[i]| && |byr[i]| == |xr[i]|
    && (bxr[i + 1], byr[i + 1]) == KickRows(xr[i], yr[i], bxr[i], byr[i], xiBubble[i], dt, eFields, gammaOf, driveGamma)
  }

  /** Rows `1 … upto` of the velocities came from kicking the row before at its slice. */
  ghost predicate Kicked(xr: seq<seq<real>>, yr: seq<seq<real>>, bxr: seq<seq<real>>, byr: seq<seq<real>>, xiBubble: seq<real>,
                         dt: real, eFields: (real, real, real) -> Formulas.Vec2, gammaOf: (real, real) -> real, driveGamma: real,
                         upto: nat)
    requires forall betaX, betaY :: 0.0 < gammaOf(betaX, betaY)
  {
    forall i :: 0 <= i < upto && i + 1 < |bxr| ==> KickedAt(xr, yr, bxr, byr, xiBubble, dt, eFields, gammaOf, driveGamma, i)
  }

  /** Drifting row `i` into row `i + 1` extends the drifted prefix by one row. */
  lemma DriftStep(xr: seq<seq<real>>, yr: seq<seq<real>>, bxr: seq<seq<real>>, byr: seq<seq<real>>, dt: real, i: nat)
    requires Drifted(xr, yr, bxr, byr, dt, i)
    requires i + 1 < |xr| && i + 1 < |yr| && i < |bxr| && i < |byr| && |bxr[i]| == |xr[i]| && |byr[i]| == |yr[i]|
    ensures Drifted(xr[i + 1 := Drift(xr[i], bxr[i], dt)], yr[i + 1 := Drift(yr[i], byr[i], dt)], bxr, byr, dt, i + 1)
  {
    var xr', yr' := xr[i + 1 := Drift(xr[i], bxr[i], dt)], yr[i + 1 := Drift(yr[i], byr[i], dt)];
    forall k | 0 <= k < i + 1 && k + 1 < |xr'|
      ensures DriftedAt(xr', yr', bxr, byr, dt, k)
    {
      if k < i {
        assert DriftedAt(xr, yr, bxr, byr, dt, k);
      }
    }
  }

  /** Writing a velocity row past the drifted prefix leaves the prefix drifted. */
  lemma DriftedUnderKick(xr: seq<seq<real>>, yr: seq<seq<real>>, bxr: seq<seq<real>>, byr: seq<seq<real>>, dt: real, i: nat,
                         nbx: seq<real>, nby: seq<real>)
    requires Drifted(xr, yr, bxr, byr, dt, i + 1) && i + 1 < |bxr| && i + 1 < |byr|
    ensures Drifted(xr, yr, bxr[i + 1 := nbx], byr[i + 1 := nby], dt, i + 1)
  {
    var bxr', byr' := bxr[i + 1 := nbx], byr[i + 1 := nby];
    forall k | 0 <= k < i + 1 && k + 1 < |xr|
      ensures DriftedAt(xr, yr, bxr', byr', dt, k)
    {
      assert DriftedAt(xr, yr, bxr, byr, dt, k);
    }
  }

  /** Kicking row `i` into row `i + 1` extends the kicked prefix by one row. */
  lemma KickStep(xr: seq<seq<real>>, yr: seq<seq<real>>, bxr: seq<seq<real>>, byr: seq<seq<real>>, xiBubble: seq<real>,
                 dt: real, eFields: (real, real, real) -> Formulas.Vec2, gammaOf: (real, real) -> real, driveGamma: real, i: nat)
    requires forall betaX, betaY :: 0.0 < gammaOf(betaX, betaY)
    requires Kicked(xr, yr, bxr, byr, xiBubble, dt, eFields, gammaOf, driveGamma, i)
    requires i < |xr| && i < |yr| && i + 1 < |bxr| && i + 1 < |byr| && i < |xiBubble|
    requires |yr[i]| == |xr[i]| && |bxr[i]| == |xr[i]| && |byr[i]| == |xr[i]|
    ensures var v := KickRows(xr[i], yr[i], bxr[i], byr[i], xiBubble[i], dt, eFields, gammaOf, driveGamma);
            Kicked(xr, yr, bxr[i + 1 := v.0], byr[i + 1 := v.1], xiBubble, dt, eFields, gammaOf, driveGamma, i + 1)
  {
    var v := KickRows(xr[i], yr[i], bxr[i], byr[i], xiBubble[i], dt, eFields, gammaOf, driveGamma);
    var bxr', byr' := bxr[i + 1 := v.0], byr[i + 1 := v.1];
    forall k | 0 <= k < i + 1 && k + 1 < |bxr'|
      ensures KickedAt(xr, yr, bxr', byr', xiBubble, dt, eFields, gammaOf, driveGamma, k)
    {
      if k < i {
        assert KickedAt(xr, yr, bxr, byr, xiBubble, dt, eFields, gammaOf, driveGamma, k);
      }
    }
  }

  /** Writing a position row past the kicked prefix leaves the prefix kicked. */
  lemma KickedUnderDrift(xr: seq<seq<real>>, yr: seq<seq<real>>, bxr: seq<seq<real>>, byr: seq<seq<real>>, xiBubble: seq<real>,
                         dt: real, eFields: (real, real, real) -> Formulas.Vec2, gammaOf: (real, real) -> real, driveGamma: real,
                         i: nat, nx: seq<real>, ny: seq<real>)
    requires forall betaX, betaY :: 0.0 < gammaOf(betaX, betaY)
    requires Kicked(xr, yr, bxr, byr, xiBubble, dt, eFields, gammaOf, driveGamma, i) && i + 1 < |xr| && i + 1 < |yr|
    ensures Kicked(xr[i + 1 := nx], yr[i + 1 := ny], bxr, byr, xiBubble, dt, eFields, gammaOf, driveGamma, i)
  {
    var xr', yr' := xr[i + 1 := nx], yr[i + 1 := ny];
    forall k | 0 <= k < i && k + 1 < |bxr|
      ensures KickedAt(xr', yr', bxr, byr, xiBubble, dt, eFields, gammaOf, driveGamma, k)
    {
      assert KickedAt(xr, yr, bxr, byr, xiBubble, dt, eFields, gammaOf, driveGamma, k);
    }
  }

  /**
   * The rows `sim()` leaves after `count` successful extractions, against the
   * rows `x0 … by0` it started from: the positions are drifted through row
   * `count + 1`, the velocities kicked through row `count`, and every later
   * row, and row 0, is as it was.
   */
  ghost predicate Ran(x0: seq<seq<real>>, y0: seq<seq<real>>, bx0: seq<seq<real>>, by0: seq<seq<real>>,
                      xr: seq<seq<real>>, yr: seq<seq<real>>, bxr: seq<seq<real>>, byr: seq<seq<real>>, count: nat,
                      xiBubble: seq<real>, dt: real, eFields: (real, real, real) -> Formulas.Vec2,
                      gammaOf: (real, real) -> real, driveGamma: real)
    requires forall betaX, betaY :: 0.0 < gammaOf(betaX, betaY)
  {
    && |xr| == |x0| && |yr| == |x0| && |bxr| == |x0| && |byr| == |x0|
    && |y0| == |x0| && |bx0| == |x0| && |by0| == |x0|
    && Drifted(xr, yr, bxr, byr, dt, count + 1)
    && Kicked(xr, yr, bxr, byr, xiBubble, dt, eFields, gammaOf, driveGamma, count)
    && (forall k :: 0 <= k < |x0| && (k == 0 || k > count + 1) ==> xr[k] == x0[k] && yr[k] == y0[k])
    && (forall k :: 0 <= k < |x0| && (k == 0 || k > count) ==> bxr[k] == bx0[k] && byr[k] == by0[k])
  }

  /** With no rows past `count + 1`, one more successful extraction leaves nothing more to drift or kick. */
  lemma RanBeyond(x0: seq<seq<real>>, y0: seq<seq<real>>, bx0: seq<seq<real>>, by0: seq<seq<real>>,
                  xr: seq<seq<real>>, yr: seq<seq<real>>, bxr: seq<seq<real>>, byr: seq<seq<real>>, count: nat,
                  xiBubble: seq<real>, dt: real, eFields: (real, real, real) -> Formulas.Vec2,
                  gammaOf: (real, real) -> real, driveGamma: real)
    requires forall betaX, betaY :: 0.0 < gammaOf(betaX, betaY)
    requires Ran(x0, y0, bx0, by0, xr, yr, bxr, byr, count, xiBubble, dt, eFields, gammaOf, driveGamma)
    requires count + 1 >= |x0|
    ensures Ran(x0, y0, bx0, by0, xr, yr, bxr, byr, count + 1, xiBubble, dt, eFields, gammaOf, driveGamma)
  {
  }

  /**
   * With no field anywhere and every particle at rest in row 0, each row the
   * run reached equals row 0: the positions through row `count + 1`, the
   * velocities through row `count`.
   */
  lemma {:induction false} RanAtRest(x0: seq<seq<real>>, y0: seq<seq<real>>, bx0: seq<seq<real>>, by0: seq<seq<real>>,
                                     xr: seq<seq<real>>, yr: seq<seq<real>>, bxr: seq<seq<real>>, byr: seq<seq<real>>, count: nat,
                                     xiBubble: seq<real>, dt: real, eFields: (real, real, real) -> Formulas.Vec2,
                                     gammaOf: (real, real) -> real, driveGamma: real, k: nat)
    requires forall betaX, betaY :: 0.0 < gammaOf(betaX, betaY)
    requires Ran(x0, y0, bx0, by0, xr, yr, bxr, byr, count, xiBubble, dt, eFields, gammaOf, driveGamma)
    requires forall x, y, xi :: eFields(x, y, xi) == Formulas.Vec2(0.0, 0.0)
    requires 0 < |x0|
    requires forall j :: 0 <= j < |bx0[0]| ==> bx0[0][j] == 0.0
    requires forall j :: 0 <= j < |by0[0]| ==> by0[0][j] == 0.0
    requires k < |x0| && k <= count + 1
    ensures xr[k] == x0[0] && yr[k] == y0[0]
    ensures k <= count ==> bxr[k] == bx0[0] && byr[k] == by0[0]
    decreases k
  {
    if k > 0 {
      RanAtRest(x0, y0, bx0, by0, xr, yr, bxr, byr, count, xiBubble, dt, eFields, gammaOf, driveGamma, k - 1);
      assert DriftedAt(xr, yr, bxr, byr, dt, k - 1);
      DriftAtRest(xr[k - 1], bxr[k - 1], dt);
      DriftAtRest(yr[k - 1], byr[k - 1], dt);
      if k <= count {
        assert KickedAt(xr, yr, bxr, byr, xiBubble, dt, eFields, gammaOf, driveGamma, k - 1);
        KickRowsFieldFree(xr[k - 1], yr[k - 1], bxr[k - 1], byr[k - 1], xiBubble[k - 1], dt, eFields, gammaOf, driveGamma);
      }
    }
  }

  /**
   * The rows after the loop of `sim()` has completed the slices `0 … i - 1`:
   * drifted and kicked through row `i`, and row 0 and every row past `i` as
   * they started.
   */
  ghost predicate Progress(x0: seq<seq<real>>, y0: seq<seq<real>>, bx0: seq<seq<real>>, by0: seq<seq<real>>,
                           xr: seq<seq<real>>, yr: seq<seq<real>>, bxr: seq<seq<real>>, byr: seq<seq<real>>, i: nat,
                           xiBubble: seq<real>, dt: real, eFields: (real, real, real) -> Formulas.Vec2,
                           gammaOf: (real, real) -> real, driveGamma: real)
    requires forall betaX, betaY :: 0.0 < gammaOf(betaX, betaY)
  {
    && |xr| == |x0| && |yr| == |x0| && |bxr| == |x0| && |byr| == |x0|
    && |y0| == |x0| && |bx0| == |x0| && |by0| == |x0|
    && Drifted(xr, yr, bxr, byr, dt, i)
    && Kicked(xr, yr, bxr, byr, xiBubble, dt, eFields, gammaOf, driveGamma, i)
    && (forall k :: 0 <= k < |x0| && (k == 0 || k > i) ==>
          xr[k] == x0[k] && yr[k] == y0[k] && bxr[k] == bx0[k] && byr[k] == by0[k])
  }

  /**
   * The rows after one pass over slice `i`: row `i + 1` of the positions is
   * row `i` drifted; row `i + 1` of the velocities is row `i` kicked when the
   * extraction passed, and no velocity changes when it failed.
   */
  function SliceStep(xr: seq<seq<real>>, yr: seq<seq<real>>, bxr: seq<seq<real>>, byr: seq<seq<real>>,
                     i: nat, passed: bool, xiBubble: seq<real>, dt: real,
                     eFields: (real, real, real) -> Formulas.Vec2, gammaOf: (real, real) -> real, driveGamma: real)
    : (seq<seq<real>>, seq<seq<real>>, seq<seq<real>>, seq<seq<real>>)
    requires i + 1 < |xr| && |yr| == |xr| && |bxr| == |xr| && |byr| == |xr| && i < |xiBubble|
    requires |yr[i]| == |xr[i]| && |bxr[i]| == |xr[i]| && |byr[i]| == |xr[i]|
    requires forall betaX, betaY :: 0.0 < gammaOf(betaX, betaY)
  {
    var xr', yr' := xr[i + 1 := Drift(xr[i], bxr[i], dt)], yr[i + 1 := Drift(yr[i], byr[i], dt)];
    if passed then
      var v := KickRows(xr[i], yr[i], bxr[i], byr[i], xiBubble[i], dt, eFields, gammaOf, driveGamma);
      (xr', yr', bxr[i + 1 := v.0], byr[i + 1 := v.1])
    else
      (xr', yr', bxr, byr)
  }

  /** A completed slice `i` extends the progress, and the shape of the rows, by one slice. */
  lemma ProgressStep(x0: seq<seq<real>>, y0: seq<seq<real>>, bx0: seq<seq<real>>, by0: seq<seq<real>>,
                     xr: seq<seq<real>>, yr: seq<seq<real>>, bxr: seq<seq<real>>, byr: seq<seq<real>>, i: nat,
                     xr': seq<seq<real>>, yr': seq<seq<real>>, bxr': seq<seq<real>>, byr': seq<seq<real>>,
                     n: nat, m: nat, xiBubble: seq<real>, dt: real, eFields: (real, real, real) -> Formulas.Vec2,
                     gammaOf: (real, real) -> real, driveGamma: real)
    requires forall betaX, betaY :: 0.0 < gammaOf(betaX, betaY)
    requires Shaped(xr, yr, bxr, byr, n, m)
    requires Progress(x0, y0, bx0, by0, xr, yr, bxr, byr, i, xiBubble, dt, eFields, gammaOf, driveGamma)
    requires i + 1 < n && i < |xiBubble|
    requires (xr', yr', bxr', byr') == SliceStep(xr, yr, bxr, byr, i, true, xiBubble, dt, eFields, gammaOf, driveGamma)
    ensures Shaped(xr', yr', bxr', byr', n, m)
    ensures Progress(x0, y0, bx0, by0, xr', yr', bxr', byr', i + 1, xiBubble, dt, eFields, gammaOf, driveGamma)
  {
    var nx, ny := Drift(xr[i], bxr[i], dt), Drift(yr[i], byr[i], dt);
    DriftStep(xr, yr, bxr, byr, dt, i);
    KickedUnderDrift(xr, yr, bxr, byr, xiBubble, dt, eFields, gammaOf, driveGamma, i, nx, ny);
    assert xr'[i] == xr[i] && yr'[i] == yr[i];
    KickStep(xr', yr', bxr, byr, xiBubble, dt, eFields, gammaOf, driveGamma, i);
    var v := KickRows(xr[i], yr[i], bxr[i], byr[i], xiBubble[i], dt, eFields, gammaOf, driveGamma);
    DriftedUnderKick(xr', yr', bxr, byr, dt, i, v.0, v.1);
  }

  /** A failed extraction at slice `i` leaves the rows as `sim()` reports them after `i` successful extractions. */
  lemma ProgressFailed(x0: seq<seq<real>>, y0: seq<seq<real>>, bx0: seq<seq<real>>, by0: seq<seq<real>>,
                       xr: seq<seq<real>>, yr: seq<seq<real>>, bxr: seq<seq<real>>, byr: seq<seq<real>>, i: nat,
                       xr': seq<seq<real>>, yr': seq<seq<real>>, bxr': seq<seq<real>>, byr': seq<seq<real>>,
                       n: nat, m: nat, xiBubble: seq<real>, dt: real, eFields: (real, real, real) -> Formulas.Vec2,
                       gammaOf: (real, real) -> real, driveGamma: real)
    requires forall betaX, betaY :: 0.0 < gammaOf(betaX, betaY)
    requires Progress(x0, y0, bx0, by0, xr, yr, bxr, byr, i, xiBubble, dt, eFields, gammaOf, driveGamma)
    requires Shaped(xr, yr, bxr, byr, n, m) && i + 1 < n && i < |xiBubble|
    requires (xr', yr', bxr', byr') == SliceStep(xr, yr, bxr, byr, i, false, xiBubble, dt, eFields, gammaOf, driveGamma)
    ensures Ran(x0, y0, bx0, by0, xr', yr', bxr', byr', i, xiBubble, dt, eFields, gammaOf, driveGamma)
  {
    var nx, ny := Drift(xr[i], bxr[i], dt), Drift(yr[i], byr[i], dt);
    DriftStep(xr, yr, bxr, byr, dt, i);
    KickedUnderDrift(xr, yr, bxr, byr, xiBubble, dt, eFields, gammaOf, driveGamma, i, nx, ny);
  }

  /** With every slice but the last completed, the rows are those of a run with `n - 1` successful extractions. */
  lemma ProgressDone(x0: seq<seq<real>>, y0: seq<seq<real>>, bx0: seq<seq<real>>, by0: seq<seq<real>>,
                     xr: seq<seq<real>>, yr: seq<seq<real>>, bxr: seq<seq<real>>, byr: seq<seq<real>>, n: nat,
                     xiBubble: seq<real>, dt: real, eFields: (real, real, real) -> Formulas.Vec2,
                     gammaOf: (real, real) -> real, driveGamma: real)
    requires forall betaX, betaY :: 0.0 < gammaOf(betaX, betaY)
    requires 0 < n == |x0|
    requires Progress(x0, y0, bx0, by0, xr, yr, bxr, byr, n - 1, xiBubble, dt, eFields, gammaOf, driveGamma)
    ensures Ran(x0, y0, bx0, by0, xr, yr, bxr, byr, n - 1, xiBubble, dt, eFields, gammaOf, driveGamma)
  {
  }

  /**
   * What `sim()` leaves before stamping, from the rows `x0 … by0`, the ion
   * slots `slots0` and the counter `ind0` it started from: the run of
   * extractions over the final position rows gives the outcome, the slots
   * and the counter, and the rows are those of that many successful
   * extractions.
   */
  ghost predicate Pushed(x0: seq<seq<real>>, y0: seq<seq<real>>, bx0: seq<seq<real>>, by0: seq<seq<real>>,
                         slots0: seq<Slot>, ind0: nat,
                         xr: seq<seq<real>>, yr: seq<seq<real>>, bxr: seq<seq<real>>, byr: seq<seq<real>>,
                         slots: seq<Slot>, ind: nat, r: Outcome<Error>, p: Pipeline,
                         xiBubble: seq<real>, dt: real, eFields: (real, real, real) -> Formulas.Vec2,
                         gammaOf: (real, real) -> real, driveGamma: real)
    requires forall betaX, betaY :: 0.0 < gammaOf(betaX, betaY)
    requires |xr| == |yr|
  {
    var fed := Feed(slots0, ind0, xr, yr, p);
    && r == fed.out
    && slots == fed.slots
    && ind == ind0 + (if fed.out.Pass? then fed.count else fed.count + 1)
    && Ran(x0, y0, bx0, by0, xr, yr, bxr, byr, fed.count, xiBubble, dt, eFields, gammaOf, driveGamma)
  }

  /** A failed extraction inside the loop: the run of extractions over the final rows stops at it. */
  lemma PushedAfterFail(x0: seq<seq<real>>, y0: seq<seq<real>>, bx0: seq<seq<real>>, by0: seq<seq<real>>,
                        slots0: seq<Slot>, ind0: nat,
                        xr: seq<seq<real>>, yr: seq<seq<real>>, bxr: seq<seq<real>>, byr: seq<seq<real>>,
                        slots: seq<Slot>, ind: nat, r: Outcome<Error>, count: nat, p: Pipeline,
                        xiBubble: seq<real>, dt: real, eFields: (real, real, real) -> Formulas.Vec2,
                        gammaOf: (real, real) -> real, driveGamma: real)
    requires forall betaX, betaY :: 0.0 < gammaOf(betaX, betaY)
    requires |xr| == |yr|
    requires Ran(x0, y0, bx0, by0, xr, yr, bxr, byr, count, xiBubble, dt, eFields, gammaOf, driveGamma)
    requires Feed(slots0, ind0, xr, yr, p) == Fed(slots, count, r) && r.Fail? && ind == ind0 + count + 1
    ensures Pushed(x0, y0, bx0, by0, slots0, ind0, xr, yr, bxr, byr, slots, ind, r, p, xiBubble, dt, eFields, gammaOf, driveGamma)
  {
  }

  /** The extraction of the last row after a loop that completed every slice. */
  lemma PushedAfterLast(x0: seq<seq<real>>, y0: seq<seq<real>>, bx0: seq<seq<real>>, by0: seq<seq<real>>,
                        slots0: seq<Slot>, ind0: nat,
                        xr: seq<seq<real>>, yr: seq<seq<real>>, bxr: seq<seq<real>>, byr: seq<seq<real>>,
                        slots: seq<Slot>, ind: nat, r: Outcome<Error>, n: nat, p: Pipeline,
                        xiBubble: seq<real>, dt: real, eFields: (real, real, real) -> Formulas.Vec2,
                        gammaOf: (real, real) -> real, driveGamma: real)
    requires forall betaX, betaY :: 0.0 < gammaOf(betaX, betaY)
    requires 0 < n == |xr| == |yr|
    requires Ran(x0, y0, bx0, by0, xr, yr, bxr, byr, n - 1, xiBubble, dt, eFields, gammaOf, driveGamma)
    requires r.Pass? ==> Feed(slots0, ind0, xr, yr, p) == Fed(slots, n, Pass)
    requires r.Fail? ==> Feed(slots0, ind0, xr, yr, p) == Fed(slots, n - 1, r)
    requires ind == ind0 + n
    ensures Pushed(x0, y0, bx0, by0, slots0, ind0, xr, yr, bxr, byr, slots, ind, r, p, xiBubble, dt, eFields, gammaOf, driveGamma)
  {
    assert xr[..n] == xr && yr[..n] == yr;
    if r.Pass? {
      RanBeyond(x0, y0, bx0, by0, xr, yr, bxr, byr, n - 1, xiBubble, dt, eFields, gammaOf, driveGamma);
    }
  }

  /** Four `n × m` tables of rows. */
  ghost predicate Shaped(xr: seq<seq<real>>, yr: seq<seq<real>>, bxr: seq<seq<real>>, byr: seq<seq<real>>, n: nat, m: nat)
  {
    && |xr| == n && |yr| == n && |bxr| == n && |byr| == n
    && forall k :: 0 <= k < n ==> |xr[k]| == m && |yr[k]| == m && |bxr[k]| == m && |byr[k]| == m
  }

  /** The value of every row of `a`. */
  ghost function Rows(a: array2<real>): (r: seq<seq<real>>)
    reads a
    ensures |r| == a.Length0
    ensures forall i :: 0 <= i < |r| ==> r[i] == Row(a, i)
  {
    seq(a.Length0, i requires 0 <= i < a.Length0 reads a => Row(a, i))
  }

  /** The drive: its `gamma` and the timestamp it inherits from the Timestamp base class. */
  class Drive {
    const gamma: real
    const stamp: Support.Timestamp

    constructor (gamma: real)
      ensures this.gamma == gamma && stamp.Read() == Failure(RuntimeError(NoTimestamp))
      ensures fresh(stamp)
    {
      this.gamma := gamma;
      stamp := new Support.Timestamp();
    }
  }

  class SimFrame {
    const drive: Drive
    const plasmaE: PlasmaE
    const plasmaIons: PlasmaIons
    var stamp: Option<Time>

    /** `SimFrame(Drive, PlasmaE, PlasmaIons)`: no timestamp until `sim` completes. */
    constructor (drive: Drive, plasmaE: PlasmaE, plasmaIons: PlasmaIons)
      ensures this.drive == drive && this.plasmaE == plasmaE && this.plasmaIons == plasmaIons
      ensures stamp == None
    {
      this.drive := drive;
      this.plasmaE := plasmaE;
      this.plasmaIons := plasmaIons;
      stamp := None;
    }

    ghost predicate Valid()
    {
      plasmaE.Valid() && plasmaIons.Valid()
    }

    /** Lines 44-45: row `i + 1` of the positions is row `i` drifted; nothing else changes. */
    method PushPositions(i: nat)
      requires Valid() && i + 1 < plasmaE.params.NumSteps()
      modifies plasmaE.xCoords, plasmaE.yCoords
      ensures Rows(plasmaE.xCoords)
              == old(Rows(plasmaE.xCoords))[i + 1 := Drift(old(Row(plasmaE.xCoords, i)), Row(plasmaE.bxCoords, i), plasmaE.params.dt)]
      ensures Rows(plasmaE.yCoords)
              == old(Rows(plasmaE.yCoords))[i + 1 := Drift(old(Row(plasmaE.yCoords, i)), Row(plasmaE.byCoords, i), plasmaE.params.dt)]
    {
      var e, dt := plasmaE, plasmaE.params.dt;
      ghost var x0, y0 := Rows(e.xCoords), Rows(e.yCoords);
      var nx := Drift(Row(e.xCoords, i), Row(e.bxCoords, i), dt);
      var ny := Drift(Row(e.yCoords, i), Row(e.byCoords, i), dt);
      AssignRow(e.xCoords, i + 1, nx);
      AssignRow(e.yCoords, i + 1, ny);
      forall k | 0 <= k < e.xCoords.Length0
        ensures Rows(e.xCoords)[k] == x0[i + 1 := nx][k] && Rows(e.yCoords)[k] == y0[i + 1 := ny][k]
      {
        if k != i + 1 {
          assert Row(e.xCoords, k) == x0[k];
          assert Row(e.yCoords, k) == y0[k];
        }
      }
    }

    /** Lines 51-66: the per-particle loop writing cell `(i + 1, j)` of the velocities from cell `(i, j)`; nothing else changes. */
    method KickCells(i: nat, eFields: (real, real, real) -> Formulas.Vec2, gammaOf: (real, real) -> real)
      requires plasmaE.Valid() && i + 1 < plasmaE.params.NumSteps()
      requires forall betaX, betaY :: 0.0 < gammaOf(betaX, betaY)
      modifies plasmaE.bxCoords, plasmaE.byCoords
      ensures forall c :: 0 <= c < plasmaE.numParts ==>
                Formulas.Vec2(plasmaE.bxCoords[i + 1, c], plasmaE.byCoords[i + 1, c])
                  == Advance(plasmaE.xCoords[i, c], plasmaE.yCoords[i, c], old(plasmaE.bxCoords[i, c]), old(plasmaE.byCoords[i, c]),
                             plasmaE.params.xiBubble[i], plasmaE.params.dt, eFields, gammaOf, drive.gamma)
      ensures forall k, c :: 0 <= k < plasmaE.params.NumSteps() && k != i + 1 && 0 <= c < plasmaE.numParts ==>
                plasmaE.bxCoords[k, c] == old(plasmaE.bxCoords[k, c]) && plasmaE.byCoords[k, c] == old(plasmaE.byCoords[k, c])
    {
      var e, dt, xi := plasmaE, plasmaE.params.dt, plasmaE.params.xiBubble[i];
      for j := 0 to e.numParts
        invariant forall c :: 0 <= c < j ==>
                    Formulas.Vec2(e.bxCoords[i + 1, c], e.byCoords[i + 1, c])
                      == Advance(e.xCoords[i, c], e.yCoords[i, c], old(e.bxCoords[i, c]), old(e.byCoords[i, c]),
                                 xi, dt, eFields, gammaOf, drive.gamma)
        invariant forall k, c :: 0 <= k < e.params.NumSteps() && 0 <= c < e.numParts && (k != i + 1 || j <= c) ==>
                    e.bxCoords[k, c] == old(e.bxCoords[k, c]) && e.byCoords[k, c] == old(e.byCoords[k, c])
      {
        var x, y, betaX, betaY := e.xCoords[i, j], e.yCoords[i, j], e.bxCoords[i, j], e.byCoords[i, j];
        var v := Advance(x, y, betaX, betaY, xi, dt, eFields, gammaOf, drive.gamma);
        e.bxCoords[i + 1, j] := v.x;
        e.byCoords[i + 1, j] := v.y;
      }
    }

    /** Lines 51-66 row by row: row `i + 1` of the velocities is row `i` kicked; nothing else changes. */
    method PushVelocities(i: nat, eFields: (real, real, real) -> Formulas.Vec2, gammaOf: (real, real) -> real)
      requires plasmaE.Valid() && i + 1 < plasmaE.params.NumSteps()
      requires forall betaX, betaY :: 0.0 < gammaOf(betaX, betaY)
      modifies plasmaE.bxCoords, plasmaE.byCoords
      ensures var v := KickRows(Row(plasmaE.xCoords, i), Row(plasmaE.yCoords, i), old(Row(plasmaE.bxCoords, i)),
                                old(Row(plasmaE.byCoords, i)), plasmaE.params.xiBubble[i], plasmaE.params.dt,
                                eFields, gammaOf, drive.gamma);
              && Rows(plasmaE.bxCoords) == old(Rows(plasmaE.bxCoords))[i + 1 := v.0]
              && Rows(plasmaE.byCoords) == old(Rows(plasmaE.byCoords))[i + 1 := v.1]
    {
      var e, dt, xi := plasmaE, plasmaE.params.dt, plasmaE.params.xiBubble[i];
      ghost var bx0, by0 := Rows(e.bxCoords), Rows(e.byCoords);
      ghost var xr, yr, bxr, byr := Row(e.xCoords, i), Row(e.yCoords, i), Row(e.bxCoords, i), Row(e.byCoords, i);
      KickCells(i, eFields, gammaOf);
      ghost var nv := KickRows(xr, yr, bxr, byr, xi, dt, eFields, gammaOf, drive.gamma);
      KickRowsAt(xr, yr, bxr, byr, xi, dt, eFields, gammaOf, drive.gamma);
      forall k | 0 <= k < e.bxCoords.Length0
        ensures Rows(e.bxCoords)[k] == bx0[i + 1 := nv.0][k] && Rows(e.byCoords)[k] == by0[i + 1 := nv.1][k]
      {
        if k != i + 1 {
          assert Row(e.bxCoords, k) == bx0[k];
          assert Row(e.byCoords, k) == by0[k];
        } else {
          assert Row(e.bxCoords, k) == nv.0;
          assert Row(e.byCoords, k) == nv.1;
        }
      }
    }

    /**
     * One pass of the loop at lines 39-66 for slice `i`: drift, extract the
     * cavity of row `i`, kick. The ghost rows in and out are the arrays'
     * rows before and after.
     */
    method SimStep(i: nat, eFields: (real, real, real) -> Formulas.Vec2, gammaOf: (real, real) -> real, p: Pipeline,
                   ghost ind0: nat, ghost slotsIn: seq<Slot>, ghost xr: seq<seq<real>>, ghost yr: seq<seq<real>>,
                   ghost bxr: seq<seq<real>>, ghost byr: seq<seq<real>>)
      returns (r: Outcome<Error>, ghost xr': seq<seq<real>>, ghost yr': seq<seq<real>>,
               ghost bxr': seq<seq<real>>, ghost byr': seq<seq<real>>, ghost slots: seq<Slot>)
      requires Valid() && i + 1 < plasmaE.params.NumSteps()
      requires forall betaX, betaY :: 0.0 < gammaOf(betaX, betaY)
      requires xr == Rows(plasmaE.xCoords) && yr == Rows(plasmaE.yCoords)
      requires bxr == Rows(plasmaE.bxCoords) && byr == Rows(plasmaE.byCoords)
      requires slotsIn == plasmaIons.Slots() && plasmaIons.stepInd == ind0 + i
      modifies plasmaE.xCoords, plasmaE.yCoords, plasmaE.bxCoords, plasmaE.byCoords
      modifies plasmaIons, plasmaIons.img, plasmaIons.xind, plasmaIons.yind
      modifies plasmaIons.closedEllipse, plasmaIons.prop, plasmaIons.bounds, plasmaIons.results
      ensures xr' == Rows(plasmaE.xCoords) && yr' == Rows(plasmaE.yCoords)
      ensures bxr' == Rows(plasmaE.bxCoords) && byr' == Rows(plasmaE.byCoords)
      ensures slots == plasmaIons.Slots() && plasmaIons.stepInd == ind0 + i + 1
      ensures plasmaIons.resultsFlat == old(plasmaIons.resultsFlat) && plasmaIons.stamp == old(plasmaIons.stamp)
      ensures (xr', yr', bxr', byr') == SliceStep(xr, yr, bxr, byr, i, r.Pass?,
                                                  plasmaE.params.xiBubble, plasmaE.params.dt, eFields, gammaOf, drive.gamma)
      ensures xr'[..i + 1] == xr[..i + 1] && yr'[..i + 1] == yr[..i + 1]
      ensures Added(AddAt(slotsIn, ind0 + i, xr[i], yr[i], p), slots, r)
    {
      xr', yr' := DriftStage(i, xr, yr, bxr, byr);
      bxr', byr' := bxr, byr;
      r, slots := CavityStage(i, p, ind0, slotsIn, xr', yr');
      if r.Fail? {
        return;
      }
      bxr', byr' := KickStage(i, eFields, gammaOf, xr', yr', bxr, byr);
    }

    /** Line 50: the cavity of row `i` of the positions goes to the ions' next slot. */
    method CavityStage(i: nat, p: Pipeline, ghost ind0: nat, ghost slotsIn: seq<Slot>,
                       ghost xr: seq<seq<real>>, ghost yr: seq<seq<real>>)
      returns (r: Outcome<Error>, ghost slots: seq<Slot>)
      requires Valid() && i < plasmaE.params.NumSteps()
      requires xr == Rows(plasmaE.xCoords) && yr == Rows(plasmaE.yCoords)
      requires slotsIn == plasmaIons.Slots() && plasmaIons.stepInd == ind0 + i
      modifies plasmaIons, plasmaIons.img, plasmaIons.xind, plasmaIons.yind
      modifies plasmaIons.closedEllipse, plasmaIons.prop, plasmaIons.bounds, plasmaIons.results
      ensures slots == plasmaIons.Slots() && plasmaIons.stepInd == ind0 + i + 1
      ensures plasmaIons.resultsFlat == old(plasmaIons.resultsFlat) && plasmaIons.stamp == old(plasmaIons.stamp)
      ensures Added(AddAt(slotsIn, ind0 + i, xr[i], yr[i], p), slots, r)
    {
      var added := plasmaIons.AddIonEllipse(Row(plasmaE.xCoords, i), Row(plasmaE.yCoords, i), None, p);
      slots := plasmaIons.Slots();
      r := if added.Failure? then Fail(added.error) else Pass;
    }

    /** The drift half of a pass: row `i + 1` of the positions from row `i` of the positions and the velocities. */
    method DriftStage(i: nat, ghost xr: seq<seq<real>>, ghost yr: seq<seq<real>>, ghost bxr: seq<seq<real>>, ghost byr: seq<seq<real>>)
      returns (ghost xr': seq<seq<real>>, ghost yr': seq<seq<real>>)
      requires Valid() && i + 1 < plasmaE.params.NumSteps()
      requires xr == Rows(plasmaE.xCoords) && yr == Rows(plasmaE.yCoords)
      requires bxr == Rows(plasmaE.bxCoords) && byr == Rows(plasmaE.byCoords)
      modifies plasmaE.xCoords, plasmaE.yCoords
      ensures xr' == Rows(plasmaE.xCoords) && yr' == Rows(plasmaE.yCoords)
      ensures xr' == xr[i + 1 := Drift(xr[i], bxr[i], plasmaE.params.dt)]
      ensures yr' == yr[i + 1 := Drift(yr[i], byr[i], plasmaE.params.dt)]
      ensures xr'[..i] == xr[..i] && yr'[..i] == yr[..i]
      ensures xr'[..i + 1] == xr[..i + 1] && yr'[..i + 1] == yr[..i + 1]
    {
      PushPositions(i);
      xr', yr' := xr[i + 1 := Drift(xr[i], bxr[i], plasmaE.params.dt)], yr[i + 1 := Drift(yr[i], byr[i], plasmaE.params.dt)];
      assert xr'[..i] == xr[..i] && yr'[..i] == yr[..i];
      assert xr'[..i + 1] == xr[..i + 1] && yr'[..i + 1] == yr[..i + 1];
    }

    /** The kick half of a pass: row `i + 1` of the velocities from row `i` and the fields at row `i`. */
    method KickStage(i: nat, eFields: (real, real, real) -> Formulas.Vec2, gammaOf: (real, real) -> real,
                     ghost xr: seq<seq<real>>, ghost yr: seq<seq<real>>, ghost bxr: seq<seq<real>>, ghost byr: seq<seq<real>>)
      returns (ghost bxr': seq<seq<real>>, ghost byr': seq<seq<real>>)
      requires Valid() && i + 1 < plasmaE.params.NumSteps()
      requires forall betaX, betaY :: 0.0 < gammaOf(betaX, betaY)
      requires xr == Rows(plasmaE.xCoords) && yr == Rows(plasmaE.yCoords)
      requires bxr == Rows(plasmaE.bxCoords) && byr == Rows(plasmaE.byCoords)
      modifies plasmaE.bxCoords, plasmaE.byCoords
      ensures bxr' == Rows(plasmaE.bxCoords) && byr' == Rows(plasmaE.byCoords)
      ensures |yr[i]| == |xr[i]| && |bxr[i]| == |xr[i]| && |byr[i]| == |xr[i]|
      ensures var v := KickRows(xr[i], yr[i], bxr[i], byr[i], plasmaE.params.xiBubble[i], plasmaE.params.dt,
                                eFields, gammaOf, drive.gamma);
              bxr' == bxr[i + 1 := v.0] && byr' == byr[i + 1 := v.1]
    {
      PushVelocities(i, eFields, gammaOf);
      ghost var v := KickRows(xr[i], yr[i], bxr[i], byr[i], plasmaE.params.xiBubble[i], plasmaE.params.dt,
                              eFields, gammaOf, drive.gamma);
      bxr', byr' := bxr[i + 1 := v.0], byr[i + 1 := v.1];
    }

    /** The stamping at the end of `sim()`: one timestamp for the swarm, the ions, the drive and the frame. */
    method Complete(now: Time)
      requires Valid()
      modifies this, drive.stamp, plasmaE, plasmaE.params, plasmaIons, plasmaIons.params
      ensures stamp == Some(now) && drive.stamp.Read() == Success(now)
      ensures plasmaE.Timestamp() == Success(now) && plasmaE.params.Timestamp() == Some(now)
      ensures plasmaIons.Timestamp() == Success(now) && plasmaIons.params.Timestamp() == Some(now)
      ensures plasmaIons.stepInd == old(plasmaIons.stepInd) && plasmaIons.resultsFlat == old(plasmaIons.resultsFlat)
    {
      stamp := Some(now);
      plasmaE.SetTimestamp(now);
      plasmaIons.SetTimestamp(now);
      drive.stamp.SetTimestamp(now);
    }

    /**
     * `sim()`: for every slice but the last, drift row `i + 1` of the
     * positions, extract the ion cavity of row `i`, and kick row `i + 1` of
     * the velocities; then extract the cavity of the last row and give one
     * timestamp `now` to the electrons, the ions, the drive and the frame.
     * An IndexError from an extraction aborts the run where it stands, and
     * with no slices `x_coords[-1]` raises before any extraction.
     */
    method Sim(eFields: (real, real, real) -> Formulas.Vec2, gammaOf: (real, real) -> real, p: Pipeline, now: Time)
      returns (r: Outcome<Error>)
      requires Valid()
      requires forall betaX, betaY :: 0.0 < gammaOf(betaX, betaY)
      modifies this, drive.stamp, plasmaE, plasmaE.params
      modifies plasmaE.xCoords, plasmaE.yCoords, plasmaE.bxCoords, plasmaE.byCoords
      modifies plasmaIons, plasmaIons.params, plasmaIons.img, plasmaIons.xind, plasmaIons.yind
      modifies plasmaIons.closedEllipse, plasmaIons.prop, plasmaIons.bounds, plasmaIons.results
      ensures plasmaIons.resultsFlat == old(plasmaIons.resultsFlat)
      ensures plasmaE.params.NumSteps() == 0 ==>
                && r == Fail(IndexError)
                && plasmaIons.Slots() == old(plasmaIons.Slots()) && plasmaIons.stepInd == old(plasmaIons.stepInd)
      ensures plasmaE.params.NumSteps() > 0 ==>
                var fed := Feed(old(plasmaIons.Slots()), old(plasmaIons.stepInd), Rows(plasmaE.xCoords), Rows(plasmaE.yCoords), p);
                && r == fed.out
                && plasmaIons.Slots() == fed.slots
                && plasmaIons.stepInd == old(plasmaIons.stepInd) + (if fed.out.Pass? then fed.count else fed.count + 1)
                && Ran(old(Rows(plasmaE.xCoords)), old(Rows(plasmaE.yCoords)), old(Rows(plasmaE.bxCoords)), old(Rows(plasmaE.byCoords)),
                       Rows(plasmaE.xCoords), Rows(plasmaE.yCoords), Rows(plasmaE.bxCoords), Rows(plasmaE.byCoords),
                       fed.count, plasmaE.params.xiBubble, plasmaE.params.dt, eFields, gammaOf, drive.gamma)
      ensures r.Pass? ==>
                && stamp == Some(now) && drive.stamp.Read() == Success(now)
                && plasmaE.Timestamp() == Success(now) && plasmaE.params.Timestamp() == Some(now)
                && plasmaIons.Timestamp() == Success(now) && plasmaIons.params.Timestamp() == Some(now)
      ensures r.Fail? ==>
                && stamp == old(stamp) && drive.stamp.stamp == old(drive.stamp.stamp)
                && plasmaE.stamp == old(plasmaE.stamp) && plasmaE.params.stamp == old(plasmaE.params.stamp)
                && plasmaIons.stamp == old(plasmaIons.stamp) && plasmaIons.params.stamp == old(plasmaIons.params.stamp)
    {
      if plasmaE.params.NumSteps() == 0 {
        return Fail(IndexError);
      }
      ghost var slots0, ind0 := plasmaIons.Slots(), plasmaIons.stepInd;
      ghost var x0, y0, bx0, by0 := Rows(plasmaE.xCoords), Rows(plasmaE.yCoords), Rows(plasmaE.bxCoords), Rows(plasmaE.byCoords);
      ghost var xr, yr, bxr, byr, slotsN, indN;
      r, xr, yr, bxr, byr, slotsN, indN := Push(eFields, gammaOf, p, slots0, ind0, x0, y0, bx0, by0);
      if r.Fail? {
        return r;
      }
      Complete(now);
      assert plasmaIons.Slots() == slotsN;
    }

    /**
     * Line 68: after the loop, the cavity of the last row goes to the ions'
     * next slot. The calls on the rows before it all succeeded; after this
     * one the run of calls on every row has either succeeded throughout or
     * failed at the last row.
     */
    method ExtractLast(p: Pipeline, ghost slots0: seq<Slot>, ghost ind0: nat, ghost xr: seq<seq<real>>, ghost yr: seq<seq<real>>)
      returns (r: Outcome<Error>, ghost slots: seq<Slot>)
      requires Valid() && plasmaE.params.NumSteps() > 0
      requires xr == Rows(plasmaE.xCoords) && yr == Rows(plasmaE.yCoords)
      requires Feed(slots0, ind0, xr[..plasmaE.params.NumSteps() - 1], yr[..plasmaE.params.NumSteps() - 1], p)
               == Fed(plasmaIons.Slots(), plasmaE.params.NumSteps() - 1, Pass)
      requires plasmaIons.stepInd == ind0 + (plasmaE.params.NumSteps() - 1)
      modifies plasmaIons, plasmaIons.img, plasmaIons.xind, plasmaIons.yind
      modifies plasmaIons.closedEllipse, plasmaIons.prop, plasmaIons.bounds, plasmaIons.results
      ensures slots == plasmaIons.Slots() && plasmaIons.stepInd == ind0 + plasmaE.params.NumSteps()
      ensures plasmaIons.resultsFlat == old(plasmaIons.resultsFlat) && plasmaIons.stamp == old(plasmaIons.stamp)
      ensures unchanged(plasmaE.xCoords, plasmaE.yCoords, plasmaE.bxCoords, plasmaE.byCoords)
      ensures r.Pass? ==> Feed(slots0, ind0, xr, yr, p) == Fed(slots, plasmaE.params.NumSteps(), Pass)
      ensures r.Fail? ==> Feed(slots0, ind0, xr, yr, p) == Fed(slots, plasmaE.params.NumSteps() - 1, r)
    {
      var i := plasmaE.params.NumSteps() - 1;
      ghost var before := plasmaIons.Slots();
      r, slots := CavityStage(i, p, ind0, before, xr, yr);
      FeedAdvance(slots0, ind0, xr, yr, xr, yr, p, i, before, slots, r);
      assert xr[..i + 1] == xr && yr[..i + 1] == yr;
    }

    /** The loop of `sim()` and the extraction of the last row, without the stamping. */
    method Push(eFields: (real, real, real) -> Formulas.Vec2, gammaOf: (real, real) -> real, p: Pipeline,
                ghost slots0: seq<Slot>, ghost ind0: nat, ghost x0: seq<seq<real>>, ghost y0: seq<seq<real>>,
                ghost bx0: seq<seq<real>>, ghost by0: seq<seq<real>>)
      returns (r: Outcome<Error>, ghost xr: seq<seq<real>>, ghost yr: seq<seq<real>>,
               ghost bxr: seq<seq<real>>, ghost byr: seq<seq<real>>, ghost slots: seq<Slot>, ghost ind: nat)
      requires Valid() && plasmaE.params.NumSteps() > 0
      requires forall betaX, betaY :: 0.0 < gammaOf(betaX, betaY)
      requires slots0 == plasmaIons.Slots() && ind0 == plasmaIons.stepInd
      requires x0 == Rows(plasmaE.xCoords) && y0 == Rows(plasmaE.yCoords)
      requires bx0 == Rows(plasmaE.bxCoords) && by0 == Rows(plasmaE.byCoords)
      modifies plasmaE.xCoords, plasmaE.yCoords, plasmaE.bxCoords, plasmaE.byCoords
      modifies plasmaIons, plasmaIons.img, plasmaIons.xind, plasmaIons.yind
      modifies plasmaIons.closedEllipse, plasmaIons.prop, plasmaIons.bounds, plasmaIons.results
      ensures xr == Rows(plasmaE.xCoords) && yr == Rows(plasmaE.yCoords)
      ensures bxr == Rows(plasmaE.bxCoords) && byr == Rows(plasmaE.byCoords)
      ensures slots == plasmaIons.Slots() && ind == plasmaIons.stepInd
      ensures plasmaIons.resultsFlat == old(plasmaIons.resultsFlat) && plasmaIons.stamp == old(plasmaIons.stamp)
      ensures |xr| == |yr|
      ensures Pushed(x0, y0, bx0, by0, slots0, ind0, xr, yr, bxr, byr, slots, ind, r, p,
                     plasmaE.params.xiBubble, plasmaE.params.dt, eFields, gammaOf, drive.gamma)
    {
      var e := plasmaE;
      var n := e.params.NumSteps();
      ghost var count;
      r, xr, yr, bxr, byr, count := Slices(eFields, gammaOf, p, slots0, ind0, x0, y0, bx0, by0);
      if r.Fail? {
        slots, ind := plasmaIons.Slots(), plasmaIons.stepInd;
        PushedAfterFail(x0, y0, bx0, by0, slots0, ind0, xr, yr, bxr, byr, slots, ind, r, count, p,
                        e.params.xiBubble, e.params.dt, eFields, gammaOf, drive.gamma);
        return;
      }
      r, slots := ExtractLast(p, slots0, ind0, xr, yr);
      ind := plasmaIons.stepInd;
      PushedAfterLast(x0, y0, bx0, by0, slots0, ind0, xr, yr, bxr, byr, slots, ind, r, n, p,
                      e.params.xiBubble, e.params.dt, eFields, gammaOf, drive.gamma);
    }

    /**
     * The loop of `sim()` over the slices `0 … n - 2`, on the rows `x0 … by0`
     * and the slots `slots0` it starts from. It stops at the first failed
     * extraction; `count` is the number of extractions that succeeded.
     */
    method Slices(eFields: (real, real, real) -> Formulas.Vec2, gammaOf: (real, real) -> real, p: Pipeline,
                  ghost slots0: seq<Slot>, ghost ind0: nat, ghost x0: seq<seq<real>>, ghost y0: seq<seq<real>>,
                  ghost bx0: seq<seq<real>>, ghost by0: seq<seq<real>>)
      returns (r: Outcome<Error>, ghost xr: seq<seq<real>>, ghost yr: seq<seq<real>>,
               ghost bxr: seq<seq<real>>, ghost byr: seq<seq<real>>, ghost count: nat)
      requires Valid() && plasmaE.params.NumSteps() > 0
      requires forall betaX, betaY :: 0.0 < gammaOf(betaX, betaY)
      requires slots0 == plasmaIons.Slots() && ind0 == plasmaIons.stepInd
      requires x0 == Rows(plasmaE.xCoords) && y0 == Rows(plasmaE.yCoords)
      requires bx0 == Rows(plasmaE.bxCoords) && by0 == Rows(plasmaE.byCoords)
      modifies plasmaE.xCoords, plasmaE.yCoords, plasmaE.bxCoords, plasmaE.byCoords
      modifies plasmaIons, plasmaIons.img, plasmaIons.xind, plasmaIons.yind
      modifies plasmaIons.closedEllipse, plasmaIons.prop, plasmaIons.bounds, plasmaIons.results
      ensures xr == Rows(plasmaE.xCoords) && yr == Rows(plasmaE.yCoords)
      ensures bxr == Rows(plasmaE.bxCoords) && byr == Rows(plasmaE.byCoords)
      ensures plasmaIons.resultsFlat == old(plasmaIons.resultsFlat) && plasmaIons.stamp == old(plasmaIons.stamp)
      ensures Ran(x0, y0, bx0, by0, xr, yr, bxr, byr, count, plasmaE.params.xiBubble, plasmaE.params.dt, eFields, gammaOf, drive.gamma)
      ensures r.Pass? ==>
                && count == plasmaE.params.NumSteps() - 1
                && Feed(slots0, ind0, xr[..plasmaE.params.NumSteps() - 1], yr[..plasmaE.params.NumSteps() - 1], p)
                   == Fed(plasmaIons.Slots(), plasmaE.params.NumSteps() - 1, Pass)
                && plasmaIons.stepInd == ind0 + (plasmaE.params.NumSteps() - 1)
      ensures r.Fail? ==>
                && Feed(slots0, ind0, xr, yr, p) == Fed(plasmaIons.Slots(), count, r)
                && plasmaIons.stepInd == ind0 + count + 1
    {
      var e := plasmaE;
      var n := e.params.NumSteps();
      var dt, m := e.params.dt, e.numParts;
      xr, yr, bxr, byr := x0, y0, bx0, by0;
      for i := 0 to n - 1
        invariant xr == Rows(e.xCoords) && yr == Rows(e.yCoords) && bxr == Rows(e.bxCoords) && byr == Rows(e.byCoords)
        invariant Shaped(xr, yr, bxr, byr, n, m)
        invariant Feed(slots0, ind0, xr[..i], yr[..i], p) == Fed(plasmaIons.Slots(), i, Pass)
        invariant plasmaIons.stepInd == ind0 + i
        invariant Progress(x0, y0, bx0, by0, xr, yr, bxr, byr, i, e.params.xiBubble, dt, eFields, gammaOf, drive.gamma)
        invariant plasmaIons.resultsFlat == old(plasmaIons.resultsFlat) && plasmaIons.stamp == old(plasmaIons.stamp)
      {
        ghost var xr0, yr0, bxr0, byr0 := xr, yr, bxr, byr;
        ghost var before := plasmaIons.Slots();
        ghost var after;
        r, xr, yr, bxr, byr, after := SimStep(i, eFields, gammaOf, p, ind0, before, xr, yr, bxr, byr);
        FeedAdvance(slots0, ind0, xr0, yr0, xr, yr, p, i, before, after, r);
        if r.Fail? {
          ProgressFailed(x0, y0, bx0, by0, xr0, yr0, bxr0, byr0, i, xr, yr, bxr, byr, n, m, e.params.xiBubble, dt, eFields, gammaOf, drive.gamma);
          count := i;
          return;
        }
        ProgressStep(x0, y0, bx0, by0, xr0, yr0, bxr0, byr0, i, xr, yr, bxr, byr, n, m, e.params.xiBubble, dt, eFields, gammaOf, drive.gamma);
      }
      ProgressDone(x0, y0, bx0, by0, xr, yr, bxr, byr, n, e.params.xiBubble, dt, eFields, gammaOf, drive.gamma);
      r, count := Pass, n - 1;
    }
  }
}

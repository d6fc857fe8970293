/**
 * blowout/formulas.py: the relativistic factor of an electron and the time
 * derivative of its normalised transverse velocity under an electric field.
 *
 * `gamma(betaX, betaY) = (1 - betaX² - betaY²)^(-1/2)` needs a square root, so the model
 * does not compute it: a gamma is a positive real `g` with
 * `g² (1 - betaX² - betaY²) == 1` (IsGamma), and DBetaDt takes that `g` as an input.
 */
module Formulas {

  /** `scipy.constants.speed_of_light` (m/s). */
  const C: real := 299792458.0
  /** `scipy.constants.elementary_charge` (C), CODATA 2018. */
  const E: real := 1.602176634 / 10000000000000000000.0
  /** `scipy.constants.electron_mass` (kg), CODATA 2018. */
  const ME: real := 9.1093837015 / 10000000000000000000000000000000.0

  datatype Vec2 = Vec2(x: real, y: real)

  function Scale(k: real, v: Vec2): Vec2
  {
    Vec2(k * v.x, k * v.y)
  }

  function Dot(u: Vec2, v: Vec2): real
  {
    u.x * v.x + u.y * v.y
  }

  /** `g` is `gamma(betaX, betaY)`: positive, and its square is `1 / (1 - betaX² - betaY²)`. */
  ghost predicate IsGamma(g: real, betaX: real, betaY: real)
  {
    0.0 < g && g * g * (1.0 - betaX * betaX - betaY * betaY) == 1.0
  }

  /** A positive factor of a product equal to 1 has a positive cofactor. */
  lemma PositiveCofactor(a: real, b: real)
    requires 0.0 < a && a * b == 1.0
    ensures 0.0 < b
  {
    assert b == (a * b) / a;
  }

  /** Multiplying by a positive number keeps a strict order. */
  lemma MulBelow(a: real, b: real, c: real)
    requires 0.0 < a && b < c
    ensures a * b < a * c
  {
    assert a * c - a * b == a * (c - b);
  }

  /** A positive number whose square is at least 1 is at least 1. */
  lemma AtLeastOneFromSquare(g: real)
    requires 0.0 < g && 1.0 <= g * g
    ensures 1.0 <= g
  {
    if g < 1.0 {
      MulBelow(g, g, 1.0);
    }
  }

  /** A positive number whose square is at most 1 is at most 1. */
  lemma AtMostOneFromSquare(g: real)
    requires 0.0 < g && g * g <= 1.0
    ensures g <= 1.0
  {
    if 1.0 < g {
      MulBelow(g, 1.0, g);
    }
  }

  /** `gamma(0, 0) == 1`. */
  lemma GammaAtRest(g: real)
    ensures IsGamma(g, 0.0, 0.0) <==> g == 1.0
  {
    if IsGamma(g, 0.0, 0.0) {
      assert g * g == 1.0;
      AtLeastOneFromSquare(g);
      AtMostOneFromSquare(g);
    }
  }

  /** A gamma exists only below the speed of light, and is at least 1 there. */
  lemma GammaAtLeastOne(g: real, betaX: real, betaY: real)
    requires IsGamma(g, betaX, betaY)
    ensures betaX * betaX + betaY * betaY < 1.0
    ensures 1.0 <= g
  {
    var s := betaX * betaX + betaY * betaY;
    assert 0.0 <= s;
    assert 0.0 < g * g;
    assert g * g * (1.0 - s) == 1.0;
    PositiveCofactor(g * g, 1.0 - s);
    assert 1.0 <= g * g by {
      assert g * g == 1.0 + g * g * s;
      assert 0.0 <= g * g * s;
    }
    AtLeastOneFromSquare(g);
  }

  /** The relation fixes gamma: two gammas for the same velocity are equal. */
  lemma GammaUnique(g1: real, g2: real, betaX: real, betaY: real)
    requires IsGamma(g1, betaX, betaY) && IsGamma(g2, betaX, betaY)
    ensures g1 == g2
  {
    var d := 1.0 - betaX * betaX - betaY * betaY;
    GammaAtLeastOne(g1, betaX, betaY);
    assert g1 * g1 * d == g2 * g2 * d;
    assert g1 * g1 == g2 * g2;
    assert (g1 - g2) * (g1 + g2) == 0.0;
  }

  /** Gamma depends only on the squared speed: invariant under sign flips and under swapping the axes. */
  lemma GammaSymmetric(g: real, betaX: real, betaY: real)
    ensures IsGamma(g, betaX, betaY) <==> IsGamma(g, -betaX, betaY)
    ensures IsGamma(g, betaX, betaY) <==> IsGamma(g, betaX, -betaY)
    ensures IsGamma(g, betaX, betaY) <==> IsGamma(g, betaY, betaX)
  {
  }

  /**
   * `dbetadt(x, y, betaX, betaY, Ex, Ey)` with `g` standing for `gamma(betaX, betaY)`:
   * `e/(g m c) · (Ex (betaY² + g⁻²) − Ey betaX betaY,  Ey (betaX² + g⁻²) − Ex betaX betaY)`.
   * The position `(x, y)` is accepted and not used.
   */
  function DBetaDt(x: real, y: real, betaX: real, betaY: real, ex: real, ey: real, g: real): (r: Vec2)
    requires 0.0 < g
    ensures ex == 0.0 && ey == 0.0 ==> r == Vec2(0.0, 0.0)
  {
    var g2inv := 1.0 / (g * g);
    var gmc := g * ME * C;
    Vec2(E / gmc * (ex * (betaY * betaY + g2inv) - ey * betaX * betaY),
         E / gmc * (ey * (betaX * betaX + g2inv) - ex * betaX * betaY))
  }

  /**
   * With `g` the particle's gamma, the derivative is the textbook
   * transverse Lorentz-force form `e/(g m c) · (E − β (β·E))`.
   */
  lemma DBetaDtLorentzForm(x: real, y: real, betaX: real, betaY: real, ex: real, ey: real, g: real)
    requires IsGamma(g, betaX, betaY)
    ensures var beta, field := Vec2(betaX, betaY), Vec2(ex, ey);
            DBetaDt(x, y, betaX, betaY, ex, ey, g)
              == Scale(E / (g * ME * C), Vec2(ex - betaX * Dot(beta, field), ey - betaY * Dot(beta, field)))
  {
    var g2inv := 1.0 / (g * g);
    assert g2inv == 1.0 - betaX * betaX - betaY * betaY by {
      assert g * g * (1.0 - betaX * betaX - betaY * betaY) == 1.0;
    }
    var k := E / (g * ME * C);
    assert ex * (betaY * betaY + g2inv) - ey * betaX * betaY == ex - betaX * (betaX * ex + betaY * ey);
    assert ey * (betaX * betaX + g2inv) - ex * betaX * betaY == ey - betaY * (betaX * ex + betaY * ey);
  }

  /**
   * The work done by the field: `β · dβ/dt == e/(g m c) · (β·E) (1 − β²)`,
   * so the speed grows exactly when the field has a component along the velocity.
   */
  lemma DBetaDtPower(x: real, y: real, betaX: real, betaY: real, ex: real, ey: real, g: real)
    requires IsGamma(g, betaX, betaY)
    ensures Dot(Vec2(betaX, betaY), DBetaDt(x, y, betaX, betaY, ex, ey, g))
              == E / (g * ME * C) * (betaX * ex + betaY * ey) * (1.0 - betaX * betaX - betaY * betaY)
  {
    var k, r := E / (g * ME * C), DBetaDt(x, y, betaX, betaY, ex, ey, g);
    DBetaDtLorentzForm(x, y, betaX, betaY, ex, ey, g);
    PowerAlgebra(betaX, betaY, ex, ey, k, r);
    assert Dot(Vec2(betaX, betaY), r) == k * (betaX * ex + betaY * ey) * (1.0 - betaX * betaX - betaY * betaY);
  }

  lemma PowerAlgebra(bx: real, bv: real, ex: real, ey: real, k: real, r: Vec2)
    requires r == Scale(k, Vec2(ex - bx * Dot(Vec2(bx, bv), Vec2(ex, ey)), ey - bv * Dot(Vec2(bx, bv), Vec2(ex, ey))))
    ensures Dot(Vec2(bx, bv), r) == k * (bx * ex + bv * ey) * (1.0 - bx * bx - bv * bv)
  {
    var p := bx * ex + bv * ey;
    assert r.x == k * (ex - bx * p) && r.y == k * (ey - bv * p);
    assert bx * (k * (ex - bx * p)) == k * (bx * ex) - k * p * (bx * bx);
    assert bv * (k * (ey - bv * p)) == k * (bv * ey) - k * p * (bv * bv);
    assert k * (bx * ex) + k * (bv * ey) == k * p;
  }

  /** The derivative is linear in the field: scaling `(Ex, Ey)` by `k` scales it by `k`. */
  lemma DBetaDtLinear(x: real, y: real, betaX: real, betaY: real, ex: real, ey: real, g: real, k: real)
    requires 0.0 < g
    ensures DBetaDt(x, y, betaX, betaY, k * ex, k * ey, g) == Scale(k, DBetaDt(x, y, betaX, betaY, ex, ey, g))
  {
    var g2inv := 1.0 / (g * g);
    var q := E / (g * ME * C);
    assert q * (k * ex * (betaY * betaY + g2inv) - k * ey * betaX * betaY) == k * (q * (ex * (betaY * betaY + g2inv) - ey * betaX * betaY));
    assert q * (k * ey * (betaX * betaX + g2inv) - k * ex * betaX * betaY) == k * (q * (ey * (betaX * betaX + g2inv) - ex * betaX * betaY));
  }

  /** An electron at rest (`g == 1`) is pushed along the field by `e/(m c)`. */
  lemma DBetaDtAtRest(x: real, y: real, ex: real, ey: real)
    ensures DBetaDt(x, y, 0.0, 0.0, ex, ey, 1.0) == Scale(E / (ME * C), Vec2(ex, ey))
  {
    assert 1.0 * ME * C == ME * C;
  }

  /** Swapping the axes of both velocity and field swaps the two components. */
  lemma DBetaDtSwap(x: real, y: real, betaX: real, betaY: real, ex: real, ey: real, g: real)
    requires 0.0 < g
    ensures var r, s := DBetaDt(x, y, betaX, betaY, ex, ey, g), DBetaDt(y, x, betaY, betaX, ey, ex, g);
            s.x == r.y && s.y == r.x
  {
  }

  /** The position does not enter the derivative. */
  lemma DBetaDtIgnoresPosition(x1: real, y1: real, x2: real, y2: real, betaX: real, betaY: real, ex: real, ey: real, g: real)
    requires 0.0 < g
    ensures DBetaDt(x1, y1, betaX, betaY, ex, ey, g) == DBetaDt(x2, y2, betaX, betaY, ex, ey, g)
  {
  }
}

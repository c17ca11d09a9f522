/** One step of the Langevin velocity-Verlet integrator, un_paso_verlet
    (integracion.c:21-49), its per-run coefficients a and b
    (integracion.c:84-85) and the thermal noise array betta
    (integracion.c:113-115).

    With c = alpha dt / (2m), b = 1 / (1 + c) and a = (1 - c) / (1 + c):
      x'[i] = x[i] + v[i] dt b + F[i] dt^2 b / (2m) + b dt betta[i]
      F'    = the force law applied to x'
      v'[i] = a v[i] + (a F[i] + F'[i]) dt / (2m) + b betta[i] / m */
module Integrator {
  import opened RealMath
  import opened Chain
  import opened Forces

  // ----------------------------------------------------------- coefficients

  /** The denominators of a, b and the step are non-zero: m != 0 and 1 + c != 0. */
  predicate CoefficientsDefined(alpha: real, dt: real, m: real)
  {
    m != 0.0 && 1.0 + alpha * dt / (2.0 * m) != 0.0
  }

  /** b = 1 / (1 + alpha dt / (2m)). */
  function CoefB(alpha: real, dt: real, m: real): real
    requires CoefficientsDefined(alpha, dt, m)
  {
    1.0 / (1.0 + alpha * dt / (2.0 * m))
  }

  /** a = (1 - alpha dt / (2m)) / (1 + alpha dt / (2m)). */
  function CoefA(alpha: real, dt: real, m: real): real
    requires CoefficientsDefined(alpha, dt, m)
  {
    (1.0 - alpha * dt / (2.0 * m)) / (1.0 + alpha * dt / (2.0 * m))
  }

  /** The two coefficients as verlet_trayectoria computes them before its loop. */
  method Coefficients(alpha: real, dt: real, m: real) returns (a: real, b: real)
    requires CoefficientsDefined(alpha, dt, m)
    ensures a == CoefA(alpha, dt, m) && b == CoefB(alpha, dt, m)
  {
    a := (1.0 - alpha * dt / (2.0 * m)) / (1.0 + alpha * dt / (2.0 * m));
    b := 1.0 / (1.0 + alpha * dt / (2.0 * m));
  }

  /** Without friction the scheme is plain velocity Verlet: a = b = 1. */
  lemma UndampedCoefficients(dt: real, m: real)
    requires m != 0.0
    ensures CoefficientsDefined(0.0, dt, m)
    ensures CoefA(0.0, dt, m) == 1.0 && CoefB(0.0, dt, m) == 1.0
  {
    assert 0.0 * dt / (2.0 * m) == 0.0;
  }

  /** The two coefficients are tied by a = 2b - 1. */
  lemma CoefficientsRelated(alpha: real, dt: real, m: real)
    requires CoefficientsDefined(alpha, dt, m)
    ensures CoefA(alpha, dt, m) == 2.0 * CoefB(alpha, dt, m) - 1.0
  {
    var c := alpha * dt / (2.0 * m);
    var d := 1.0 + c;
    assert (1.0 - c) / d == (2.0 - d) / d;
    assert (2.0 - d) / d == 2.0 / d - d / d;
  }

  /** With positive friction, timestep and mass the coefficients are damping
      factors: 0 < b < 1 and -1 < a < b. */
  lemma DampedCoefficientBounds(alpha: real, dt: real, m: real)
    requires alpha > 0.0 && dt > 0.0 && m > 0.0
    ensures CoefficientsDefined(alpha, dt, m)
    ensures 0.0 < CoefB(alpha, dt, m) < 1.0
    ensures -1.0 < CoefA(alpha, dt, m) < CoefB(alpha, dt, m)
  {
    var c := alpha * dt / (2.0 * m);
    assert alpha * dt > 0.0 by { ProductPositive(alpha, dt); }
    assert c > 0.0;
    assert CoefficientsDefined(alpha, dt, m);
    var b := 1.0 / (1.0 + c);
    assert b * (1.0 + c) == 1.0;
    assert 0.0 < b < 1.0 by { BoundsOfReciprocal(c); }
    CoefficientsRelated(alpha, dt, m);
  }

  /** For c > 0, 0 < 1/(1+c) < 1. */
  lemma BoundsOfReciprocal(c: real)
    requires c > 0.0
    ensures 0.0 < 1.0 / (1.0 + c) < 1.0
  {
    ReciprocalBelowOne(1.0 + c);
  }

  // ------------------------------------------------------------------ noise

  /** The noise amplitude sqrt(2 alpha T kb dt) that scales each standard-normal sample. */
  function NoiseScale(alpha: real, temp: real, kb: real, dt: real, sqrt: real -> real): real
  {
    sqrt(2.0 * alpha * temp * kb * dt)
  }

  /** The noise of one step: entry i is g[i] * sqrt(2 alpha T kb dt) for the
      3N samples g (NoiseAt). */
  function Noise(g: seq<real>, alpha: real, temp: real, kb: real, dt: real, sqrt: real -> real)
    : (betta: seq<real>)
    ensures |betta| == |g|
  {
    NoisePrefix(g, alpha, temp, kb, dt, sqrt, |g|)
  }

  function NoisePrefix(g: seq<real>, alpha: real, temp: real, kb: real, dt: real, sqrt: real -> real,
                       len: nat): (betta: seq<real>)
    requires len <= |g|
    ensures |betta| == len
  {
    if len == 0 then []
    else NoisePrefix(g, alpha, temp, kb, dt, sqrt, len - 1) + [g[len - 1] * NoiseScale(alpha, temp, kb, dt, sqrt)]
  }

  lemma {:induction false} NoisePrefixAt(g: seq<real>, alpha: real, temp: real, kb: real, dt: real,
                                         sqrt: real -> real, len: nat, i: nat)
    requires i < len <= |g|
    ensures NoisePrefix(g, alpha, temp, kb, dt, sqrt, len)[i] == g[i] * NoiseScale(alpha, temp, kb, dt, sqrt)
    decreases len
  {
    if i < len - 1 {
      NoisePrefixAt(g, alpha, temp, kb, dt, sqrt, len - 1, i);
    }
  }

  lemma NoiseAt(g: seq<real>, alpha: real, temp: real, kb: real, dt: real, sqrt: real -> real, i: nat)
    requires i < |g|
    ensures Noise(g, alpha, temp, kb, dt, sqrt)[i] == g[i] * NoiseScale(alpha, temp, kb, dt, sqrt)
  {
    NoisePrefixAt(g, alpha, temp, kb, dt, sqrt, |g|, i);
  }

  /** The noise loop of verlet_trayectoria: one sample per entry of betta,
      scaled by sqrt(2 alpha T kb dt). */
  method FillNoise(betta: array<real>, g: seq<real>, alpha: real, temp: real, kb: real, dt: real,
                   sqrt: real -> real)
    requires |g| == betta.Length
    modifies betta
    ensures betta[..] == Noise(g, alpha, temp, kb, dt, sqrt)
  {
    var i := 0;
    while i < betta.Length
      invariant 0 <= i <= betta.Length
      invariant forall j :: 0 <= j < i ==> betta[j] == g[j] * NoiseScale(alpha, temp, kb, dt, sqrt)
    {
      betta[i] := g[i] * sqrt(2.0 * alpha * temp * kb * dt);
      i := i + 1;
    }
    forall j | 0 <= j < betta.Length
      ensures betta[..][j] == Noise(g, alpha, temp, kb, dt, sqrt)[j]
    {
      NoiseAt(g, alpha, temp, kb, dt, sqrt, j);
    }
  }

  /** No friction or zero temperature: every noise entry is zero, whatever
      samples were drawn. */
  lemma NoNoiseWhenColdOrUndamped(g: seq<real>, alpha: real, temp: real, kb: real, dt: real,
                                  sqrt: real -> real)
    requires IsSqrt(sqrt) && (alpha == 0.0 || temp == 0.0)
    ensures forall i :: 0 <= i < |g| ==> Noise(g, alpha, temp, kb, dt, sqrt)[i] == 0.0
  {
    assert 2.0 * alpha * temp * kb * dt == 0.0;
    SqrtZero(sqrt);
    assert NoiseScale(alpha, temp, kb, dt, sqrt) == 0.0;
    forall i | 0 <= i < |g|
      ensures Noise(g, alpha, temp, kb, dt, sqrt)[i] == 0.0
    {
      NoiseAt(g, alpha, temp, kb, dt, sqrt, i);
    }
  }

  // -------------------------------------------------------------- the step

  /** The new position of entry i. */
  function NextPosition(xs: seq<real>, vs: seq<real>, fs: seq<real>, betta: seq<real>,
                        b: real, dt: real, m: real, i: nat): real
    requires i < |xs| && i < |vs| && i < |fs| && i < |betta| && m != 0.0
  {
    xs[i] + vs[i] * dt * b + fs[i] * dt * dt * b / (2.0 * m) + b * dt * betta[i]
  }

  function NextPositions(xs: seq<real>, vs: seq<real>, fs: seq<real>, betta: seq<real>,
                         b: real, dt: real, m: real): (xn: seq<real>)
    requires |vs| == |xs| && |fs| == |xs| && |betta| == |xs| && m != 0.0
    ensures |xn| == |xs|
  {
    PositionsPrefix(xs, vs, fs, betta, b, dt, m, |xs|)
  }

  function PositionsPrefix(xs: seq<real>, vs: seq<real>, fs: seq<real>, betta: seq<real>,
                           b: real, dt: real, m: real, len: nat): (xn: seq<real>)
    requires |vs| == |xs| && |fs| == |xs| && |betta| == |xs| && m != 0.0 && len <= |xs|
    ensures |xn| == len
  {
    if len == 0 then []
    else PositionsPrefix(xs, vs, fs, betta, b, dt, m, len - 1) + [NextPosition(xs, vs, fs, betta, b, dt, m, len - 1)]
  }

  lemma {:induction false} PositionsPrefixAt(xs: seq<real>, vs: seq<real>, fs: seq<real>, betta: seq<real>,
                                             b: real, dt: real, m: real, len: nat, i: nat)
    requires |vs| == |xs| && |fs| == |xs| && |betta| == |xs| && m != 0.0 && i < len <= |xs|
    ensures PositionsPrefix(xs, vs, fs, betta, b, dt, m, len)[i] == NextPosition(xs, vs, fs, betta, b, dt, m, i)
    decreases len
  {
    if i < len - 1 {
      PositionsPrefixAt(xs, vs, fs, betta, b, dt, m, len - 1, i);
    }
  }

  lemma NextPositionsAt(xs: seq<real>, vs: seq<real>, fs: seq<real>, betta: seq<real>,
                        b: real, dt: real, m: real, i: nat)
    requires |vs| == |xs| && |fs| == |xs| && |betta| == |xs| && m != 0.0 && i < |xs|
    ensures NextPositions(xs, vs, fs, betta, b, dt, m)[i] == NextPosition(xs, vs, fs, betta, b, dt, m, i)
  {
    PositionsPrefixAt(xs, vs, fs, betta, b, dt, m, |xs|, i);
  }

  /** The new velocity of entry i, from the old and new forces. */
  function NextVelocity(vs: seq<real>, fs: seq<real>, fn: seq<real>, betta: seq<real>,
                        a: real, b: real, dt: real, m: real, i: nat): real
    requires i < |vs| && i < |fs| && i < |fn| && i < |betta| && m != 0.0
  {
    a * vs[i] + (a * fs[i] + fn[i]) * dt / (2.0 * m) + b * betta[i] / m
  }

  function NextVelocities(vs: seq<real>, fs: seq<real>, fn: seq<real>, betta: seq<real>,
                          a: real, b: real, dt: real, m: real): (vn: seq<real>)
    requires |fs| == |vs| && |fn| == |vs| && |betta| == |vs| && m != 0.0
    ensures |vn| == |vs|
  {
    VelocitiesPrefix(vs, fs, fn, betta, a, b, dt, m, |vs|)
  }

  function VelocitiesPrefix(vs: seq<real>, fs: seq<real>, fn: seq<real>, betta: seq<real>,
                            a: real, b: real, dt: real, m: real, len: nat): (vn: seq<real>)
    requires |fs| == |vs| && |fn| == |vs| && |betta| == |vs| && m != 0.0 && len <= |vs|
    ensures |vn| == len
  {
    if len == 0 then []
    else VelocitiesPrefix(vs, fs, fn, betta, a, b, dt, m, len - 1) + [NextVelocity(vs, fs, fn, betta, a, b, dt, m, len - 1)]
  }

  lemma {:induction false} VelocitiesPrefixAt(vs: seq<real>, fs: seq<real>, fn: seq<real>, betta: seq<real>,
                                              a: real, b: real, dt: real, m: real, len: nat, i: nat)
    requires |fs| == |vs| && |fn| == |vs| && |betta| == |vs| && m != 0.0 && i < len <= |vs|
    ensures VelocitiesPrefix(vs, fs, fn, betta, a, b, dt, m, len)[i] == NextVelocity(vs, fs, fn, betta, a, b, dt, m, i)
    decreases len
  {
    if i < len - 1 {
      VelocitiesPrefixAt(vs, fs, fn, betta, a, b, dt, m, len - 1, i);
    }
  }

  lemma NextVelocitiesAt(vs: seq<real>, fs: seq<real>, fn: seq<real>, betta: seq<real>,
                         a: real, b: real, dt: real, m: real, i: nat)
    requires |fs| == |vs| && |fn| == |vs| && |betta| == |vs| && m != 0.0 && i < |vs|
    ensures NextVelocities(vs, fs, fn, betta, a, b, dt, m)[i] == NextVelocity(vs, fs, fn, betta, a, b, dt, m, i)
  {
    VelocitiesPrefixAt(vs, fs, fn, betta, a, b, dt, m, |vs|, i);
  }

  /** The position loop of un_paso_verlet. */
  method UpdatePositions(b: real, betta: array<real>, xOld: array<real>, xNew: array<real>,
                         vOld: array<real>, fOld: array<real>, dt: real, m: real)
    requires xNew.Length == xOld.Length && vOld.Length == xOld.Length
    requires fOld.Length == xOld.Length && betta.Length == xOld.Length
    requires xNew != xOld && xNew != vOld && xNew != fOld && xNew != betta && m != 0.0
    modifies xNew
    ensures xNew[..] == NextPositions(xOld[..], vOld[..], fOld[..], betta[..], b, dt, m)
  {
    var i := 0;
    while i < xNew.Length
      invariant 0 <= i <= xNew.Length
      invariant forall j :: 0 <= j < i ==>
                  xNew[j] == NextPosition(xOld[..], vOld[..], fOld[..], betta[..], b, dt, m, j)
    {
      xNew[i] := xOld[i] + vOld[i] * dt * b + fOld[i] * dt * dt * b / (2.0 * m) + b * dt * betta[i];
      i := i + 1;
    }
    forall j | 0 <= j < xNew.Length
      ensures xNew[..][j] == NextPositions(xOld[..], vOld[..], fOld[..], betta[..], b, dt, m)[j]
    {
      NextPositionsAt(xOld[..], vOld[..], fOld[..], betta[..], b, dt, m, j);
    }
  }

  /** The velocity loop of un_paso_verlet. */
  method UpdateVelocities(a: real, b: real, betta: array<real>, vOld: array<real>, vNew: array<real>,
                          fOld: array<real>, fNew: array<real>, dt: real, m: real)
    requires vNew.Length == vOld.Length && fOld.Length == vOld.Length
    requires fNew.Length == vOld.Length && betta.Length == vOld.Length
    requires vNew != vOld && vNew != fOld && vNew != fNew && vNew != betta && m != 0.0
    modifies vNew
    ensures vNew[..] == NextVelocities(vOld[..], fOld[..], fNew[..], betta[..], a, b, dt, m)
  {
    var i := 0;
    while i < vNew.Length
      invariant 0 <= i <= vNew.Length
      invariant forall j :: 0 <= j < i ==>
                  vNew[j] == NextVelocity(vOld[..], fOld[..], fNew[..], betta[..], a, b, dt, m, j)
    {
      vNew[i] := a * vOld[i] + (a * fOld[i] + fNew[i]) * dt / (2.0 * m) + b * betta[i] / m;
      i := i + 1;
    }
    forall j | 0 <= j < vNew.Length
      ensures vNew[..][j] == NextVelocities(vOld[..], fOld[..], fNew[..], betta[..], a, b, dt, m)[j]
    {
      NextVelocitiesAt(vOld[..], fOld[..], fNew[..], betta[..], a, b, dt, m, j);
    }
  }

  /** un_paso_verlet: positions from the old state, then the force law on the
      new positions (into F_nuevo, whose previous contents the anchored law
      keeps on bead 0), then velocities from the old and new forces. The old
      arrays and the noise are only read. */
  method VerletStep(betta: array<real>, b: real, a: real, n: nat,
                    xOld: array<real>, xNew: array<real>, vOld: array<real>, vNew: array<real>,
                    fOld: array<real>, fNew: array<real>, dt: real, m: real, k: real,
                    mode: ForceMode, sqrt: real -> real)
    requires betta.Length == 3 * n && xOld.Length == 3 * n && xNew.Length == 3 * n
    requires vOld.Length == 3 * n && vNew.Length == 3 * n
    requires fOld.Length == 3 * n && fNew.Length == 3 * n
    requires xNew != xOld && xNew != vOld && xNew != fOld && xNew != betta && xNew != vNew && xNew != fNew
    requires vNew != xOld && vNew != vOld && vNew != fOld && vNew != betta && vNew != fNew
    requires fNew != xOld && fNew != vOld && fNew != fOld && fNew != betta
    requires m != 0.0 && (mode.Anchored? ==> n >= 1)
    requires BondsNonDegenerate(NextPositions(xOld[..], vOld[..], fOld[..], betta[..], b, dt, m),
                                n, FirstBond(mode), sqrt)
    modifies xNew, vNew, fNew
    ensures xNew[..] == NextPositions(xOld[..], vOld[..], fOld[..], betta[..], b, dt, m)
    ensures fNew[..] == ForceField(xNew[..], old(fNew[..]), n, k, mode, sqrt)
    ensures vNew[..] == NextVelocities(vOld[..], fOld[..], fNew[..], betta[..], a, b, dt, m)
  {
    UpdatePositions(b, betta, xOld, xNew, vOld, fOld, dt, m);
    ghost var prior := fNew[..];
    BondForces(n, xNew, fNew, k, mode, sqrt);
    FieldFromPointwise(fNew[..], xNew[..], prior, n, k, mode, sqrt);
    UpdateVelocities(a, b, betta, vOld, vNew, fOld, fNew, dt, m);
  }

  // ---------------------------------------------------------- step properties

  /** The "fixed" bead is not held in place: in anchored mode its force entries
      are zero, yet its position still advances by the velocity and noise terms,
      so it moves whenever it has velocity or receives noise. */
  lemma AnchoredBeadStillMoves(xs: seq<real>, vs: seq<real>, fs: seq<real>, betta: seq<real>,
                               b: real, dt: real, m: real, c: nat)
    requires |vs| == |xs| && |fs| == |xs| && |betta| == |xs| && m != 0.0 && c < 3 && c < |xs|
    requires fs[c] == 0.0
    ensures NextPosition(xs, vs, fs, betta, b, dt, m, c) == xs[c] + b * (vs[c] * dt + dt * betta[c])
    ensures vs[c] == 0.0 && b != 0.0 && dt != 0.0 && betta[c] != 0.0 ==>
              NextPosition(xs, vs, fs, betta, b, dt, m, c) != xs[c]
  {
    assert 0.0 * dt * dt * b / (2.0 * m) == 0.0;
    if vs[c] == 0.0 && b != 0.0 && dt != 0.0 && betta[c] != 0.0 {
      NonZeroProduct3(b, dt, betta[c]);
    }
  }

  /** Without friction (a = b = 1) and without noise the step is the
      textbook velocity-Verlet scheme. */
  lemma UndampedStepIsVelocityVerlet(xs: seq<real>, vs: seq<real>, fs: seq<real>, fn: seq<real>,
                                     betta: seq<real>, dt: real, m: real, i: nat)
    requires |vs| == |xs| && |fs| == |xs| && |fn| == |xs| && |betta| == |xs| && i < |xs|
    requires m != 0.0 && betta[i] == 0.0
    ensures CoefficientsDefined(0.0, dt, m)
    ensures NextPosition(xs, vs, fs, betta, CoefB(0.0, dt, m), dt, m, i) ==
              xs[i] + vs[i] * dt + fs[i] * dt * dt / (2.0 * m)
    ensures NextVelocity(vs, fs, fn, betta, CoefA(0.0, dt, m), CoefB(0.0, dt, m), dt, m, i) ==
              vs[i] + (fs[i] + fn[i]) * dt / (2.0 * m)
  {
    UndampedCoefficients(dt, m);
  }

  /** A chain at rest, with no force acting and no noise, does not move:
      the step leaves positions unchanged and velocities at zero when the
      new forces are zero too. */
  lemma RestIsStationary(xs: seq<real>, vs: seq<real>, fs: seq<real>, fn: seq<real>,
                         betta: seq<real>, a: real, b: real, dt: real, m: real)
    requires |vs| == |xs| && |fs| == |xs| && |fn| == |xs| && |betta| == |xs| && m != 0.0
    requires forall i :: 0 <= i < |xs| ==> vs[i] == 0.0 && fs[i] == 0.0 && fn[i] == 0.0 && betta[i] == 0.0
    ensures NextPositions(xs, vs, fs, betta, b, dt, m) == xs
    ensures forall i :: 0 <= i < |xs| ==> NextVelocities(vs, fs, fn, betta, a, b, dt, m)[i] == 0.0
  {
    forall i | 0 <= i < |xs|
      ensures NextPositions(xs, vs, fs, betta, b, dt, m)[i] == xs[i]
      ensures NextVelocities(vs, fs, fn, betta, a, b, dt, m)[i] == 0.0
    {
      assert 0.0 * dt * dt * b / (2.0 * m) == 0.0;
      assert (a * 0.0 + 0.0) * dt / (2.0 * m) == 0.0;
      assert b * 0.0 / m == 0.0;
      NextPositionsAt(xs, vs, fs, betta, b, dt, m, i);
      NextVelocitiesAt(vs, fs, fn, betta, a, b, dt, m, i);
    }
  }
}

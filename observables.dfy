/** The instantaneous observables the trajectory driver records for each frame
    (funciones_oscilador.c:117-140 and 192-221, integracion.c:135): kinetic,
    potential and total energy, radius of gyration and end-to-end extension.
    Each C function is a read-only accumulation loop, modelled as a method
    whose loop is proved against a recursive specification function. */
module Observables {
  import opened RealMath
  import opened Chain

  // ---------------------------------------------------------------- kinetic

  /** Sum of (1/2) m v[i]^2 over the entries i < upto, in the loop's order. */
  function KineticSum(v: seq<real>, m: real, upto: nat): real
    requires upto <= |v|
  {
    if upto == 0 then 0.0 else KineticSum(v, m, upto - 1) + 0.5 * m * v[upto - 1] * v[upto - 1]
  }

  /** Sum of v[i]^2 over i < upto, the squared Euclidean norm of a prefix. */
  function SquaredNorm(v: seq<real>, upto: nat): (s: real)
    requires upto <= |v|
    ensures s >= 0.0
  {
    if upto == 0 then 0.0 else SquaredNorm(v, upto - 1) + Square(v[upto - 1])
  }

  /** Energia_cinetica_instantanea: K = sum over the 3N velocity entries of 0.5*m*v[i]*v[i]. */
  method KineticEnergy(n: nat, v: array<real>, m: real) returns (ek: real)
    requires v.Length == 3 * n
    ensures ek == KineticSum(v[..], m, 3 * n)
  {
    ek := 0.0;
    var i := 0;
    while i < 3 * n
      invariant 0 <= i <= 3 * n
      invariant ek == KineticSum(v[..], m, i)
    {
      ek := ek + 0.5 * m * v[i] * v[i];
      i := i + 1;
    }
  }

  /** The loop's sum is (m/2) times the squared norm of the velocity vector. */
  lemma {:induction false} KineticIsHalfMassNorm(v: seq<real>, m: real, upto: nat)
    requires upto <= |v|
    ensures KineticSum(v, m, upto) == 0.5 * m * SquaredNorm(v, upto)
  {
    if upto > 0 {
      KineticIsHalfMassNorm(v, m, upto - 1);
    }
  }

  /** With a non-negative mass the kinetic energy is non-negative. */
  lemma KineticNonNegative(v: seq<real>, m: real)
    requires m >= 0.0
    ensures KineticSum(v, m, |v|) >= 0.0
  {
    KineticIsHalfMassNorm(v, m, |v|);
  }

  /** A squared norm vanishes exactly when every entry does. */
  lemma {:induction false} SquaredNormZero(v: seq<real>, upto: nat)
    requires upto <= |v|
    ensures SquaredNorm(v, upto) == 0.0 <==> forall i :: 0 <= i < upto ==> v[i] == 0.0
  {
    if upto > 0 {
      SquaredNormZero(v, upto - 1);
      if SquaredNorm(v, upto) == 0.0 {
        SquareZero(v[upto - 1]);
      }
    }
  }

  /** With a positive mass the kinetic energy is zero exactly when every bead is at rest. */
  lemma KineticZeroIffAtRest(v: seq<real>, m: real)
    requires m > 0.0
    ensures KineticSum(v, m, |v|) == 0.0 <==> forall i :: 0 <= i < |v| ==> v[i] == 0.0
  {
    KineticIsHalfMassNorm(v, m, |v|);
    SquaredNormZero(v, |v|);
  }

  // -------------------------------------------------------------- potential

  /** Energy of bond j, (1/2) K (r - L_0)^2 with r = sqrt(dx*dx + dy*dy + dz*dz). */
  function BondEnergy(xs: seq<real>, j: nat, k: real, sqrt: real -> real): real
    requires 3 * (j + 1) + 2 < |xs|
  {
    var r := sqrt(BondSq(xs, j));
    0.5 * k * (r - L0) * (r - L0)
  }

  /** Sum of the energies of bonds 0 <= j < upto. */
  function PotentialSum(xs: seq<real>, n: nat, k: real, sqrt: real -> real, upto: nat): real
    requires |xs| == 3 * n && upto <= n && (upto == 0 || upto < n)
  {
    if upto == 0 then 0.0 else PotentialSum(xs, n, k, sqrt, upto - 1) + BondEnergy(xs, upto - 1, k, sqrt)
  }

  /** The number of bonds of an N-bead chain, N - 1 (none when N = 0). */
  function Bonds(n: nat): nat
  {
    if n == 0 then 0 else n - 1
  }

  /** Energia_potencial_instantanea: V = sum of 0.5*K*(r-L_0)^2 over every bond
      (i, i+1), i < N-1, bond (0,1) included in both modes. The mass
      argument m is accepted and not used, as in the C code. */
  method PotentialEnergy(n: nat, x: array<real>, m: real, k: real, sqrt: real -> real)
    returns (ep: real)
    requires x.Length == 3 * n
    ensures ep == PotentialSum(x[..], n, k, sqrt, Bonds(n))
  {
    ghost var xs := x[..];
    ep := 0.0;
    var i := 0;
    while i + 1 < n
      invariant i <= Bonds(n)
      invariant ep == PotentialSum(xs, n, k, sqrt, i)
    {
      var dx := x[3 * (i + 1)] - x[3 * i];
      var dy := x[3 * (i + 1) + 1] - x[3 * i + 1];
      var dz := x[3 * (i + 1) + 2] - x[3 * i + 2];
      assert dx * dx + dy * dy + dz * dz == BondSq(xs, i);
      var r := sqrt(dx * dx + dy * dy + dz * dz);
      ep := ep + 0.5 * k * (r - L0) * (r - L0);
      i := i + 1;
    }
  }

  /** With a non-negative spring constant the potential energy is non-negative,
      whatever the bond lengths. */
  lemma {:induction false} PotentialNonNegative(xs: seq<real>, n: nat, k: real, sqrt: real -> real,
                                                upto: nat)
    requires k >= 0.0 && |xs| == 3 * n && upto <= n && (upto == 0 || upto < n)
    ensures PotentialSum(xs, n, k, sqrt, upto) >= 0.0
  {
    if upto > 0 {
      PotentialNonNegative(xs, n, k, sqrt, upto - 1);
      var r := sqrt(BondSq(xs, upto - 1));
      assert (r - L0) * (r - L0) >= 0.0;
      assert BondEnergy(xs, upto - 1, k, sqrt) == (0.5 * k) * ((r - L0) * (r - L0));
    }
  }

  /** A chain whose bonds all have length L_0 stores no elastic energy. */
  lemma {:induction false} RestChainHasNoPotential(xs: seq<real>, n: nat, k: real,
                                                   sqrt: real -> real, upto: nat)
    requires |xs| == 3 * n && upto <= n && (upto == 0 || upto < n)
    requires forall j: nat :: j + 1 < n ==> sqrt(BondSq(xs, j)) == L0
    ensures PotentialSum(xs, n, k, sqrt, upto) == 0.0
  {
    if upto > 0 {
      RestChainHasNoPotential(xs, n, k, sqrt, upto - 1);
      assert sqrt(BondSq(xs, upto - 1)) == L0;
    }
  }

  /** The straight unit-spaced chain the driver leaves behind has zero potential energy. */
  lemma StraightChainHasNoPotential(n: nat, k: real, sqrt: real -> real)
    requires IsSqrt(sqrt)
    ensures PotentialSum(StraightChain(n), n, k, sqrt, Bonds(n)) == 0.0
  {
    forall j: nat | j + 1 < n
      ensures sqrt(BondSq(StraightChain(n), j)) == L0
    {
      StraightChainBonds(n, j);
      SqrtOfSquare(sqrt, 1.0);
    }
    RestChainHasNoPotential(StraightChain(n), n, k, sqrt, Bonds(n));
  }

  // ------------------------------------------------------------------ total

  /** Energia_total_instantanea: E = kinetic + potential energy. */
  method TotalEnergy(n: nat, x: array<real>, v: array<real>, m: real, k: real, sqrt: real -> real)
    returns (et: real)
    requires x.Length == 3 * n && v.Length == 3 * n
    ensures et == KineticSum(v[..], m, 3 * n) + PotentialSum(x[..], n, k, sqrt, Bonds(n))
  {
    var ek := KineticEnergy(n, v, m);
    var ep := PotentialEnergy(n, x, m, k, sqrt);
    et := ek + ep;
  }

  /** With m, K >= 0 the total energy is non-negative, and it is zero for the
      straight chain at rest. */
  lemma TotalEnergyNonNegative(xs: seq<real>, vs: seq<real>, n: nat, m: real, k: real,
                               sqrt: real -> real)
    requires m >= 0.0 && k >= 0.0 && |xs| == 3 * n && |vs| == 3 * n
    ensures KineticSum(vs, m, 3 * n) + PotentialSum(xs, n, k, sqrt, Bonds(n)) >= 0.0
  {
    KineticNonNegative(vs, m);
    PotentialNonNegative(xs, n, k, sqrt, Bonds(n));
  }

  // ------------------------------------------------------ radius of gyration

  /** Component c of the centroid of beads 0..N-1 (x_cm, y_cm, z_cm). */
  function Centroid(xs: seq<real>, n: nat, c: nat): real
    requires n >= 1 && |xs| == 3 * n && c < 3
  {
    AxisTotal(xs, c, 0, n) / (n as real)
  }

  /** Squared distance of bead i from the point (cx, cy, cz). */
  function DeviationSq(xs: seq<real>, i: nat, cx: real, cy: real, cz: real): (d: real)
    requires 3 * i + 2 < |xs|
    ensures d >= 0.0
  {
    var dx := xs[3 * i] - cx;
    var dy := xs[3 * i + 1] - cy;
    var dz := xs[3 * i + 2] - cz;
    assert dx * dx >= 0.0 && dy * dy >= 0.0 && dz * dz >= 0.0;
    dx * dx + dy * dy + dz * dz
  }

  /** DeviationSq in terms of the three coordinate differences the loop computes. */
  lemma DeviationOf(xs: seq<real>, i: nat, cx: real, cy: real, cz: real, dx: real, dy: real, dz: real)
    requires 3 * i + 2 < |xs|
    requires dx == xs[3 * i] - cx && dy == xs[3 * i + 1] - cy && dz == xs[3 * i + 2] - cz
    ensures dx * dx + dy * dy + dz * dz == DeviationSq(xs, i, cx, cy, cz)
  {
  }

  /** Sum over beads i < upto of their squared distance from (cx, cy, cz). */
  function Spread(xs: seq<real>, cx: real, cy: real, cz: real, upto: nat): (s: real)
    requires 3 * upto <= |xs|
    ensures s >= 0.0
  {
    if upto == 0 then 0.0 else Spread(xs, cx, cy, cz, upto - 1) + DeviationSq(xs, upto - 1, cx, cy, cz)
  }

  /** Rg^2: the mean squared distance of the beads from their centroid. */
  function GyrationSq(xs: seq<real>, n: nat): real
    requires n >= 1 && |xs| == 3 * n
  {
    Spread(xs, Centroid(xs, n, 0), Centroid(xs, n, 1), Centroid(xs, n, 2), n) / (n as real)
  }

  /** calcula_radio_giro: centroid loop, then the Rg^2 loop, then sqrt(Rg^2). */
  method RadiusOfGyration(n: nat, x: array<real>, sqrt: real -> real) returns (rg: real)
    requires n >= 1 && x.Length == 3 * n
    ensures rg == sqrt(GyrationSq(x[..], n))
  {
    ghost var xs := x[..];
    var xcm, ycm, zcm := 0.0, 0.0, 0.0;
    var i := 0;
    while i < n
      invariant 0 <= i <= n
      invariant xcm == AxisTotal(xs, 0, 0, i) && ycm == AxisTotal(xs, 1, 0, i)
      invariant zcm == AxisTotal(xs, 2, 0, i)
    {
      xcm := xcm + x[3 * i];
      ycm := ycm + x[3 * i + 1];
      zcm := zcm + x[3 * i + 2];
      i := i + 1;
    }
    xcm := xcm / (n as real);
    ycm := ycm / (n as real);
    zcm := zcm / (n as real);
    var rg2 := 0.0;
    i := 0;
    while i < n
      invariant 0 <= i <= n
      invariant rg2 == Spread(xs, xcm, ycm, zcm, i)
    {
      var dx := x[3 * i] - xcm;
      var dy := x[3 * i + 1] - ycm;
      var dz := x[3 * i + 2] - zcm;
      DeviationOf(xs, i, xcm, ycm, zcm, dx, dy, dz);
      rg2 := rg2 + (dx * dx + dy * dy + dz * dz);
      i := i + 1;
    }
    rg2 := rg2 / (n as real);
    rg := sqrt(rg2);
  }

  /** Rg^2 >= 0, so the final sqrt is taken of a non-negative number and Rg >= 0. */
  lemma GyrationNonNegative(xs: seq<real>, n: nat, sqrt: real -> real)
    requires n >= 1 && |xs| == 3 * n
    ensures GyrationSq(xs, n) >= 0.0
    ensures IsSqrt(sqrt) ==> sqrt(GyrationSq(xs, n)) >= 0.0
  {
    var s := Spread(xs, Centroid(xs, n, 0), Centroid(xs, n, 1), Centroid(xs, n, 2), n);
    assert s >= 0.0;
    assert s / (n as real) >= 0.0;
  }

  /** Entry 3 i + c of a coordinate vector is coordinate c of bead i. */
  lemma BeadCoordinate(i: nat, c: nat)
    requires c < 3
    ensures (3 * i + c) % 3 == c && (3 * i + c) / 3 == i
  {
  }

  /** The three entries of bead i and their coordinates. */
  lemma BeadEntries(i: nat)
    ensures (3 * i) % 3 == 0 && (3 * i + 1) % 3 == 1 && (3 * i + 2) % 3 == 2
  {
    BeadCoordinate(i, 1);
    BeadCoordinate(i, 2);
  }

  /** A bead at the point itself is at distance 0 from it. */
  lemma AtPoint(xs: seq<real>, i: nat, cx: real, cy: real, cz: real)
    requires 3 * i + 2 < |xs|
    requires xs[3 * i] == cx && xs[3 * i + 1] == cy && xs[3 * i + 2] == cz
    ensures DeviationSq(xs, i, cx, cy, cz) == 0.0
  {
  }

  /** ys is xs with the vector t added to every bead. */
  ghost predicate Translated(xs: seq<real>, ys: seq<real>, n: nat, t: seq<real>)
  {
    |xs| == 3 * n && |ys| == 3 * n && |t| == 3 &&
    forall q :: 0 <= q < 3 * n ==> ys[q] == xs[q] + t[q % 3]
  }

  /** Translating every bead by t adds upto * t[c] to the axis-c total of the first upto beads. */
  lemma {:induction false} AxisTotalTranslated(xs: seq<real>, ys: seq<real>, n: nat, t: seq<real>,
                                               c: nat, upto: nat)
    requires Translated(xs, ys, n, t) && c < 3 && upto <= n
    ensures AxisTotal(ys, c, 0, upto) == AxisTotal(xs, c, 0, upto) + Multiple(upto, t[c])
  {
    if upto > 0 {
      AxisTotalTranslated(xs, ys, n, t, c, upto - 1);
      var q := 3 * (upto - 1) + c;
      BeadCoordinate(upto - 1, c);
      assert ys[q] == xs[q] + t[c];
    }
  }

  /** The centroid moves with the beads. */
  lemma CentroidTranslated(xs: seq<real>, ys: seq<real>, n: nat, t: seq<real>, c: nat)
    requires Translated(xs, ys, n, t) && c < 3 && n >= 1
    ensures Centroid(ys, n, c) == Centroid(xs, n, c) + t[c]
  {
    AxisTotalTranslated(xs, ys, n, t, c, n);
    MeanOfShifted(AxisTotal(xs, c, 0, n), t[c], n);
  }

  /** Distances from a point are unchanged when the beads and the point move together. */
  lemma {:induction false} SpreadTranslated(xs: seq<real>, ys: seq<real>, n: nat, t: seq<real>,
                                            cx: real, cy: real, cz: real, upto: nat)
    requires Translated(xs, ys, n, t) && upto <= n
    ensures Spread(ys, cx + t[0], cy + t[1], cz + t[2], upto) == Spread(xs, cx, cy, cz, upto)
  {
    if upto > 0 {
      SpreadTranslated(xs, ys, n, t, cx, cy, cz, upto - 1);
      DeviationTranslated(xs, ys, n, t, cx, cy, cz, upto - 1);
    }
  }

  /** One bead's distance from a point is unchanged when both move by t. */
  lemma DeviationTranslated(xs: seq<real>, ys: seq<real>, n: nat, t: seq<real>,
                            cx: real, cy: real, cz: real, i: nat)
    requires Translated(xs, ys, n, t) && i < n
    ensures DeviationSq(ys, i, cx + t[0], cy + t[1], cz + t[2]) == DeviationSq(xs, i, cx, cy, cz)
  {
    BeadEntries(i);
    assert ys[3 * i] - (cx + t[0]) == xs[3 * i] - cx;
    assert ys[3 * i + 1] - (cy + t[1]) == xs[3 * i + 1] - cy;
    assert ys[3 * i + 2] - (cz + t[2]) == xs[3 * i + 2] - cz;
  }

  /** Rg is unchanged when the same vector is added to every bead's position. */
  lemma GyrationTranslationInvariant(xs: seq<real>, ys: seq<real>, n: nat, t: seq<real>)
    requires Translated(xs, ys, n, t) && n >= 1
    ensures GyrationSq(ys, n) == GyrationSq(xs, n)
  {
    CentroidTranslated(xs, ys, n, t, 0);
    CentroidTranslated(xs, ys, n, t, 1);
    CentroidTranslated(xs, ys, n, t, 2);
    SpreadTranslated(xs, ys, n, t, Centroid(xs, n, 0), Centroid(xs, n, 1), Centroid(xs, n, 2), n);
  }

  /** Beads that all sit at one point have Rg = 0. */
  lemma {:induction false} CoincidentBeadsHaveNoSpread(xs: seq<real>, p: seq<real>, upto: nat)
    requires |p| == 3 && 3 * upto <= |xs|
    requires forall q :: 0 <= q < 3 * upto ==> xs[q] == p[q % 3]
    ensures Spread(xs, p[0], p[1], p[2], upto) == 0.0
  {
    if upto > 0 {
      CoincidentBeadsHaveNoSpread(xs, p, upto - 1);
      var i := upto - 1;
      BeadEntries(i);
      assert xs[3 * i] == p[0] && xs[3 * i + 1] == p[1] && xs[3 * i + 2] == p[2];
      AtPoint(xs, i, p[0], p[1], p[2]);
    }
  }

  /** All beads at one point: Rg^2 = 0. */
  lemma CoincidentBeadsHaveNoGyration(xs: seq<real>, n: nat, p: seq<real>)
    requires n >= 1 && |xs| == 3 * n && |p| == 3
    requires forall q :: 0 <= q < 3 * n ==> xs[q] == p[q % 3]
    ensures GyrationSq(xs, n) == 0.0
  {
    CoincidentCentroid(xs, n, p, 0);
    CoincidentCentroid(xs, n, p, 1);
    CoincidentCentroid(xs, n, p, 2);
    CoincidentBeadsHaveNoSpread(xs, p, n);
    ZeroDividend(n as real);
  }

  /** All beads at one point: the centroid is that point. */
  lemma CoincidentCentroid(xs: seq<real>, n: nat, p: seq<real>, c: nat)
    requires n >= 1 && |xs| == 3 * n && |p| == 3 && c < 3
    requires forall q :: 0 <= q < 3 * n ==> xs[q] == p[q % 3]
    ensures Centroid(xs, n, c) == p[c]
  {
    ConstantAxisTotal(xs, n, p, c, n);
    MeanOfMultiple(p[c], n);
  }

  lemma {:induction false} ConstantAxisTotal(xs: seq<real>, n: nat, p: seq<real>, c: nat, upto: nat)
    requires |p| == 3 && |xs| == 3 * n && c < 3 && upto <= n
    requires forall q :: 0 <= q < 3 * n ==> xs[q] == p[q % 3]
    ensures AxisTotal(xs, c, 0, upto) == Multiple(upto, p[c])
  {
    if upto > 0 {
      ConstantAxisTotal(xs, n, p, c, upto - 1);
      var q := 3 * (upto - 1) + c;
      BeadCoordinate(upto - 1, c);
      assert xs[q] == p[c];
    }
  }

  // ------------------------------------------------------------ extension

  /** Ree = z of the last bead minus z of the first bead (integracion.c:135). */
  function EndToEnd(xs: seq<real>, n: nat): real
    requires n >= 1 && |xs| == 3 * n
  {
    xs[3 * (n - 1) + 2] - xs[2]
  }

  /** Ree is unchanged when every bead moves by the same vector. */
  lemma EndToEndTranslationInvariant(xs: seq<real>, ys: seq<real>, n: nat, t: seq<real>)
    requires Translated(xs, ys, n, t) && n >= 1
    ensures EndToEnd(ys, n) == EndToEnd(xs, n)
  {
    assert (3 * (n - 1) + 2) % 3 == 2;
    assert ys[2] == xs[2] + t[2];
    assert ys[3 * (n - 1) + 2] == xs[3 * (n - 1) + 2] + t[2];
  }
}

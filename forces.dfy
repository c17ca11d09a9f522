/** The harmonic bond force law, Fuerza_verlet (funciones_oscilador.c:44-111).

    Both build-time variants are one method here, selected by ForceMode:
    Free is the chain without an anchor (lines 46-75), Anchored(fcte) is the
    FIXED build (lines 79-111), where bead 0 is held in place and a constant
    force fcte pulls the last bead along z. */
module Forces {
  import opened RealMath
  import opened Chain

  datatype ForceMode = Free | Anchored(fcte: real)

  /** The first bond the force loop visits: 0 when free, 1 when bead 0 is anchored. */
  function FirstBond(mode: ForceMode): nat
  {
    if mode.Free? then 0 else 1
  }

  /** One past the last bond the loop `for (i = lo; i < N - 1; i++)` visits. */
  function BondEnd(n: nat, lo: nat): nat
  {
    if n >= lo + 1 then n - 1 else lo
  }

  /** sqrt gives every bond lo <= j < N-1 a non-zero length, so that the
      division by r in the force law is defined. */
  ghost predicate BondsNonDegenerate(xs: seq<real>, n: nat, lo: nat, sqrt: real -> real)
  {
    |xs| == 3 * n &&
    forall j: nat :: lo <= j && j + 1 < n ==> sqrt(BondSq(xs, j)) != 0.0
  }

  /** fac = K (r - L_0) / r of bond j, with r = sqrt(dx*dx + dy*dy + dz*dz). */
  function Fac(xs: seq<real>, j: nat, k: real, sqrt: real -> real): real
    requires 3 * (j + 1) + 2 < |xs| && sqrt(BondSq(xs, j)) != 0.0
  {
    var r := sqrt(BondSq(xs, j));
    k * (r - L0) / r
  }

  /** Component c of the force bond j puts on bead j (and, negated, on bead j+1). */
  function BondTerm(xs: seq<real>, j: nat, c: nat, k: real, sqrt: real -> real): real
    requires c < 3 && 3 * (j + 1) + 2 < |xs| && sqrt(BondSq(xs, j)) != 0.0
  {
    Fac(xs, j, k, sqrt) * Delta(xs, j, c)
  }

  /** The force bond b puts on its left bead b, once bonds lo <= j < upto are done. */
  function Push(xs: seq<real>, n: nat, k: real, sqrt: real -> real,
                lo: nat, upto: nat, b: int, c: nat): real
    requires c < 3 && lo <= upto <= BondEnd(n, lo)
    requires BondsNonDegenerate(xs, n, lo, sqrt)
  {
    if lo <= b < upto then BondTerm(xs, b, c, k, sqrt) else 0.0
  }

  /** Component c of bead b's force once bonds lo <= j < upto have been added:
      the push of its right bond minus the push of its left bond. */
  function Accumulated(xs: seq<real>, n: nat, k: real, sqrt: real -> real,
                       lo: nat, upto: nat, b: int, c: nat): real
    requires c < 3 && lo <= upto <= BondEnd(n, lo)
    requires BondsNonDegenerate(xs, n, lo, sqrt)
  {
    Push(xs, n, k, sqrt, lo, upto, b, c) - Push(xs, n, k, sqrt, lo, upto, b - 1, c)
  }

  /** Component c of the force the force law leaves on bead b, given positions
      xs and the force buffer's previous contents prior (which survive on
      bead 0 in anchored mode). */
  function ForceAt(xs: seq<real>, prior: seq<real>, n: nat, k: real, mode: ForceMode,
                   sqrt: real -> real, b: nat, c: nat): real
    requires |prior| == 3 * n && b < n && c < 3
    requires BondsNonDegenerate(xs, n, FirstBond(mode), sqrt)
  {
    match mode
    case Free => Accumulated(xs, n, k, sqrt, 0, BondEnd(n, 0), b, c)
    case Anchored(fcte) =>
      (if b == 0 then prior[c] else Accumulated(xs, n, k, sqrt, 1, BondEnd(n, 1), b, c))
      + (if b == n - 1 && c == 2 then fcte else 0.0)
  }

  /** The whole force vector: entry 3b + c is ForceAt(b, c) (ForceFieldAt). */
  function ForceField(xs: seq<real>, prior: seq<real>, n: nat, k: real, mode: ForceMode,
                      sqrt: real -> real): (f: seq<real>)
    requires |prior| == 3 * n
    requires BondsNonDegenerate(xs, n, FirstBond(mode), sqrt)
    ensures |f| == 3 * n
  {
    Table(3 * n, (i: nat) requires i < 3 * n => ForceAt(xs, prior, n, k, mode, sqrt, i / 3, i % 3))
  }

  /** Entry i of the force vector is component i % 3 of the force on bead i / 3. */
  lemma ForceFieldAt(xs: seq<real>, prior: seq<real>, n: nat, k: real, mode: ForceMode,
                     sqrt: real -> real, i: nat)
    requires |prior| == 3 * n && i < 3 * n
    requires BondsNonDegenerate(xs, n, FirstBond(mode), sqrt)
    ensures ForceField(xs, prior, n, k, mode, sqrt)[i] == ForceAt(xs, prior, n, k, mode, sqrt, i / 3, i % 3)
  {
    TableAt(3 * n, (i: nat) requires i < 3 * n => ForceAt(xs, prior, n, k, mode, sqrt, i / 3, i % 3), i);
  }

  /** A vector whose entries agree bead by bead with ForceAt is ForceField. */
  lemma FieldFromPointwise(f: seq<real>, xs: seq<real>, prior: seq<real>, n: nat, k: real,
                           mode: ForceMode, sqrt: real -> real)
    requires |f| == 3 * n && |prior| == 3 * n
    requires BondsNonDegenerate(xs, n, FirstBond(mode), sqrt)
    requires forall b, c :: 0 <= b < n && 0 <= c < 3 ==>
               f[3 * b + c] == ForceAt(xs, prior, n, k, mode, sqrt, b, c)
    ensures f == ForceField(xs, prior, n, k, mode, sqrt)
  {
    var g := ForceField(xs, prior, n, k, mode, sqrt);
    forall i | 0 <= i < 3 * n
      ensures f[i] == g[i]
    {
      var b, c := i / 3, i % 3;
      assert i == 3 * b + c;
      ForceFieldAt(xs, prior, n, k, mode, sqrt, i);
    }
  }

  /** Adding bond j to the accumulated forces changes beads j and j+1 only. */
  lemma AccumulatedStep(xs: seq<real>, n: nat, k: real, sqrt: real -> real,
                        lo: nat, j: nat, b: int, c: nat)
    requires c < 3 && lo <= j && j + 1 < n
    requires BondsNonDegenerate(xs, n, lo, sqrt)
    ensures Accumulated(xs, n, k, sqrt, lo, j + 1, b, c) ==
              Accumulated(xs, n, k, sqrt, lo, j, b, c)
              + (if b == j then BondTerm(xs, j, c, k, sqrt) else 0.0)
              - (if b == j + 1 then BondTerm(xs, j, c, k, sqrt) else 0.0)
  {
  }

  /** The six updates of one loop iteration of Fuerza_verlet take the
      force vector from bonds lo..j-1 to bonds lo..j. */
  lemma AddBond(before: seq<real>, after: seq<real>, xs: seq<real>, n: nat, k: real,
                sqrt: real -> real, lo: nat, j: nat, next: nat)
    requires |before| == |after| == 3 * n && lo <= j && j + 1 < n
    requires BondsNonDegenerate(xs, n, lo, sqrt)
    requires forall b, c :: lo <= b < n && 0 <= c < 3 ==>
               before[3 * b + c] == Accumulated(xs, n, k, sqrt, lo, j, b, c)
    requires after[3 * j] == before[3 * j] + BondTerm(xs, j, 0, k, sqrt)
    requires after[3 * j + 1] == before[3 * j + 1] + BondTerm(xs, j, 1, k, sqrt)
    requires after[3 * j + 2] == before[3 * j + 2] + BondTerm(xs, j, 2, k, sqrt)
    requires after[3 * (j + 1)] == before[3 * (j + 1)] - BondTerm(xs, j, 0, k, sqrt)
    requires after[3 * (j + 1) + 1] == before[3 * (j + 1) + 1] - BondTerm(xs, j, 1, k, sqrt)
    requires after[3 * (j + 1) + 2] == before[3 * (j + 1) + 2] - BondTerm(xs, j, 2, k, sqrt)
    requires forall q :: 0 <= q < 3 * n && (q < 3 * j || 3 * (j + 1) + 3 <= q) ==> after[q] == before[q]
    requires next == j + 1
    ensures forall b, c :: lo <= b < n && 0 <= c < 3 ==>
              after[3 * b + c] == Accumulated(xs, n, k, sqrt, lo, next, b, c)
  {
    forall b, c | lo <= b < n && 0 <= c < 3
      ensures after[3 * b + c] == Accumulated(xs, n, k, sqrt, lo, next, b, c)
    {
      AccumulatedStep(xs, n, k, sqrt, lo, j, b, c);
      if b != j && b != j + 1 {
        assert 3 * b + c < 3 * j || 3 * (j + 1) + 3 <= 3 * b + c;
      }
    }
  }

  /** The body of Fuerza_verlet's bond loop for bond j: r, fac = K (r - L_0) / r,
      (Fx, Fy, Fz) = fac * Delta, then F_j += (Fx, Fy, Fz) and F_{j+1} -= (Fx, Fy, Fz). */
  method AddBondForce(n: nat, x: array<real>, f: array<real>, k: real, sqrt: real -> real, j: nat)
    requires x.Length == 3 * n && f.Length == 3 * n && x != f && j + 1 < n
    requires sqrt(BondSq(x[..], j)) != 0.0
    modifies f
    ensures forall q :: 0 <= q < 3 * n && (q < 3 * j || 3 * (j + 1) + 3 <= q) ==> f[q] == old(f[q])
    ensures f[3 * j] == old(f[3 * j]) + BondTerm(x[..], j, 0, k, sqrt)
    ensures f[3 * j + 1] == old(f[3 * j + 1]) + BondTerm(x[..], j, 1, k, sqrt)
    ensures f[3 * j + 2] == old(f[3 * j + 2]) + BondTerm(x[..], j, 2, k, sqrt)
    ensures f[3 * (j + 1)] == old(f[3 * (j + 1)]) - BondTerm(x[..], j, 0, k, sqrt)
    ensures f[3 * (j + 1) + 1] == old(f[3 * (j + 1) + 1]) - BondTerm(x[..], j, 1, k, sqrt)
    ensures f[3 * (j + 1) + 2] == old(f[3 * (j + 1) + 2]) - BondTerm(x[..], j, 2, k, sqrt)
  {
    ghost var xs := x[..];
    var i3, j3 := 3 * j, 3 * (j + 1);
    var dx := x[j3] - x[i3];
    var dy := x[j3 + 1] - x[i3 + 1];
    var dz := x[j3 + 2] - x[i3 + 2];
    assert dx == Delta(xs, j, 0) && dy == Delta(xs, j, 1) && dz == Delta(xs, j, 2);
    assert dx * dx + dy * dy + dz * dz == BondSq(xs, j);
    var r := sqrt(dx * dx + dy * dy + dz * dz);
    var fac := k * (r - L0) / r;
    assert fac == Fac(xs, j, k, sqrt);
    var fx, fy, fz := fac * dx, fac * dy, fac * dz;
    assert fx == BondTerm(xs, j, 0, k, sqrt);
    assert fy == BondTerm(xs, j, 1, k, sqrt);
    assert fz == BondTerm(xs, j, 2, k, sqrt);
    f[i3] := f[i3] + fx;
    f[i3 + 1] := f[i3 + 1] + fy;
    f[i3 + 2] := f[i3 + 2] + fz;
    f[j3] := f[j3] - fx;
    f[j3 + 1] := f[j3 + 1] - fy;
    f[j3 + 2] := f[j3 + 2] - fz;
  }

  /** The zeroing loop of Fuerza_verlet: F[q] = 0 for start <= q < len(F). */
  method ClearForces(f: array<real>, start: nat)
    requires start <= f.Length
    modifies f
    ensures forall q :: 0 <= q < start ==> f[q] == old(f[q])
    ensures forall q :: start <= q < f.Length ==> f[q] == 0.0
  {
    var i := start;
    while i < f.Length
      invariant start <= i <= f.Length
      invariant forall q :: start <= q < i ==> f[q] == 0.0
      invariant forall q :: 0 <= q < start ==> f[q] == old(f[q])
    {
      f[i] := 0.0;
      i := i + 1;
    }
  }

  /** The bond loop of Fuerza_verlet, `for (i = lo; i < N - 1; i++)`, run on a
      force vector that is zero from bead lo on: afterwards every bead b >= lo
      holds the sum of the pushes of its bonds lo <= j < N-1. */
  method AccumulateBonds(n: nat, x: array<real>, f: array<real>, k: real, sqrt: real -> real, lo: nat)
    requires x.Length == 3 * n && f.Length == 3 * n && x != f && lo <= 1
    requires BondsNonDegenerate(x[..], n, lo, sqrt)
    requires forall q :: 3 * lo <= q < 3 * n ==> f[q] == 0.0
    modifies f
    ensures forall b, c :: lo <= b < n && 0 <= c < 3 ==>
              f[3 * b + c] == Accumulated(x[..], n, k, sqrt, lo, BondEnd(n, lo), b, c)
    ensures forall q :: 0 <= q < 3 * lo && q < 3 * n ==> f[q] == old(f[q])
  {
    ghost var xs := x[..];
    var j := lo;
    while j + 1 < n
      invariant lo <= j <= BondEnd(n, lo)
      invariant forall b, c :: lo <= b < n && 0 <= c < 3 ==>
                  f[3 * b + c] == Accumulated(xs, n, k, sqrt, lo, j, b, c)
      invariant forall q :: 0 <= q < 3 * lo && q < 3 * n ==> f[q] == old(f[q])
    {
      ghost var before := f[..];
      AddBondForce(n, x, f, k, sqrt, j);
      AddBond(before, f[..], xs, n, k, sqrt, lo, j, j + 1);
      j := j + 1;
    }
  }

  /** Fuerza_verlet. Zeroes F (all of it, or from index 3 on when anchored),
      adds each bond's force to its left bead and subtracts it from its right
      bead, and in anchored mode finally adds fcte to F[3(N-1)+2]. */
  method BondForces(n: nat, x: array<real>, f: array<real>, k: real, mode: ForceMode,
                    sqrt: real -> real)
    requires x.Length == 3 * n && f.Length == 3 * n && x != f
    requires mode.Anchored? ==> n >= 1
    requires BondsNonDegenerate(x[..], n, FirstBond(mode), sqrt)
    modifies f
    ensures forall b, c :: 0 <= b < n && 0 <= c < 3 ==>
              f[3 * b + c] == ForceAt(x[..], old(f[..]), n, k, mode, sqrt, b, c)
    ensures mode.Anchored? && n >= 2 ==> f[0] == old(f[0]) && f[1] == old(f[1]) && f[2] == old(f[2])
  {
    var lo := FirstBond(mode);
    ClearForces(f, 3 * lo);
    AccumulateBonds(n, x, f, k, sqrt, lo);
    if mode.Anchored? {
      f[3 * (n - 1) + 2] := f[3 * (n - 1) + 2] + mode.fcte;
    }
  }

  /** Free chain: each bond adds fac * Delta to bead j and subtracts it from
      bead j+1, with fac = K (r - L_0) / r; a bead's force is the sum from its
      (at most two) bonds. */
  lemma FreeForceIsBondSum(xs: seq<real>, prior: seq<real>, n: nat, k: real,
                           sqrt: real -> real, b: nat, c: nat)
    requires |prior| == 3 * n && b < n && c < 3
    requires BondsNonDegenerate(xs, n, 0, sqrt)
    ensures ForceAt(xs, prior, n, k, Free, sqrt, b, c) ==
              (if b + 1 < n then Fac(xs, b, k, sqrt) * Delta(xs, b, c) else 0.0)
              - (if b >= 1 then Fac(xs, b - 1, k, sqrt) * Delta(xs, b - 1, c) else 0.0)
  {
  }

  /** Anchored chain: bead 0's force is whatever the buffer held (plus fcte
      when the chain is a single bead), bead 1 feels nothing from bond (0,1),
      and fcte is added on the z axis of the last bead. */
  lemma AnchoredForceIsBondSum(xs: seq<real>, prior: seq<real>, n: nat, k: real, fcte: real,
                               sqrt: real -> real, b: nat, c: nat)
    requires |prior| == 3 * n && b < n && c < 3
    requires BondsNonDegenerate(xs, n, 1, sqrt)
    ensures ForceAt(xs, prior, n, k, Anchored(fcte), sqrt, b, c) ==
              (if b == 0 then prior[c]
               else (if b + 1 < n then Fac(xs, b, k, sqrt) * Delta(xs, b, c) else 0.0)
                    - (if b >= 2 then Fac(xs, b - 1, k, sqrt) * Delta(xs, b - 1, c) else 0.0))
              + (if b == n - 1 && c == 2 then fcte else 0.0)
  {
  }

  /** Anchored mode: the forces on beads 1..N-1 do not depend on where bead 0 is. */
  lemma AnchoredIgnoresBeadZero(xs: seq<real>, ys: seq<real>, prior: seq<real>, n: nat, k: real,
                                fcte: real, sqrt: real -> real, b: nat, c: nat)
    requires |xs| == |ys| == |prior| == 3 * n && 1 <= b < n && c < 3
    requires forall q :: 3 <= q < 3 * n ==> xs[q] == ys[q]
    requires BondsNonDegenerate(xs, n, 1, sqrt)
    ensures BondsNonDegenerate(ys, n, 1, sqrt)
    ensures ForceAt(xs, prior, n, k, Anchored(fcte), sqrt, b, c) ==
            ForceAt(ys, prior, n, k, Anchored(fcte), sqrt, b, c)
  {
    SameBondsNonDegenerate(xs, ys, n, sqrt);
    SamePush(xs, ys, n, k, sqrt, b, c);
    SamePush(xs, ys, n, k, sqrt, b - 1, c);
  }

  /** Bond b's push in anchored mode is the same for two chains that differ
      only in bead 0. */
  lemma SamePush(xs: seq<real>, ys: seq<real>, n: nat, k: real, sqrt: real -> real, b: nat, c: nat)
    requires |xs| == |ys| == 3 * n && c < 3
    requires forall q :: 3 <= q < 3 * n ==> xs[q] == ys[q]
    requires BondsNonDegenerate(xs, n, 1, sqrt) && BondsNonDegenerate(ys, n, 1, sqrt)
    ensures Push(xs, n, k, sqrt, 1, BondEnd(n, 1), b, c) == Push(ys, n, k, sqrt, 1, BondEnd(n, 1), b, c)
  {
    if 1 <= b < BondEnd(n, 1) {
      SameBond(xs, ys, n, b);
    }
  }

  /** Moving bead 0 does not collapse any bond the anchored force law reads. */
  lemma SameBondsNonDegenerate(xs: seq<real>, ys: seq<real>, n: nat, sqrt: real -> real)
    requires |xs| == |ys| == 3 * n
    requires forall q :: 3 <= q < 3 * n ==> xs[q] == ys[q]
    requires BondsNonDegenerate(xs, n, 1, sqrt)
    ensures BondsNonDegenerate(ys, n, 1, sqrt)
  {
    forall j: nat | 1 <= j && j + 1 < n
      ensures BondSq(xs, j) == BondSq(ys, j)
    {
      SameBond(xs, ys, n, j);
    }
  }

  /** A bond that does not touch bead 0 reads only entries from index 3 on. */
  lemma SameBond(xs: seq<real>, ys: seq<real>, n: nat, j: nat)
    requires |xs| == |ys| == 3 * n && 1 <= j && j + 1 < n
    requires forall q :: 3 <= q < 3 * n ==> xs[q] == ys[q]
    ensures BondSq(xs, j) == BondSq(ys, j)
    ensures forall c :: 0 <= c < 3 ==> Delta(xs, j, c) == Delta(ys, j, c)
  {
    assert xs[3 * j] == ys[3 * j] && xs[3 * j + 1] == ys[3 * j + 1] && xs[3 * j + 2] == ys[3 * j + 2];
    assert xs[3 * (j + 1)] == ys[3 * (j + 1)] && xs[3 * (j + 1) + 1] == ys[3 * (j + 1) + 1];
    assert xs[3 * (j + 1) + 2] == ys[3 * (j + 1) + 2];
  }

  /** Telescoping step for the free-chain sum: beads below `upper` add up to
      the push of bond upper-1. */
  lemma {:induction false} FreePartialSum(f: seq<real>, xs: seq<real>, prior: seq<real>, n: nat,
                                          k: real, sqrt: real -> real, c: nat, upper: nat)
    requires |f| == 3 * n && |prior| == 3 * n && c < 3 && upper <= n
    requires BondsNonDegenerate(xs, n, 0, sqrt)
    requires forall b :: 0 <= b < n ==> f[3 * b + c] == ForceAt(xs, prior, n, k, Free, sqrt, b, c)
    ensures AxisTotal(f, c, 0, upper) == Push(xs, n, k, sqrt, 0, BondEnd(n, 0), upper - 1, c)
  {
    if upper > 0 {
      FreePartialSum(f, xs, prior, n, k, sqrt, c, upper - 1);
      assert f[3 * (upper - 1) + c] == ForceAt(xs, prior, n, k, Free, sqrt, upper - 1, c);
    }
  }

  /** Newton's third law for the free chain: on every axis the forces on all
      beads sum to zero. */
  lemma NewtonThirdLawFree(f: seq<real>, xs: seq<real>, prior: seq<real>, n: nat,
                           k: real, sqrt: real -> real)
    requires |f| == 3 * n && |prior| == 3 * n
    requires BondsNonDegenerate(xs, n, 0, sqrt)
    requires forall b, c :: 0 <= b < n && 0 <= c < 3 ==>
               f[3 * b + c] == ForceAt(xs, prior, n, k, Free, sqrt, b, c)
    ensures forall c :: 0 <= c < 3 ==> AxisTotal(f, c, 0, n) == 0.0
  {
    forall c | 0 <= c < 3
      ensures AxisTotal(f, c, 0, n) == 0.0
    {
      FreePartialSum(f, xs, prior, n, k, sqrt, c, n);
    }
  }

  /** Telescoping step for the anchored sum over beads 1 <= b < upper. */
  lemma {:induction false} AnchoredPartialSum(f: seq<real>, xs: seq<real>, prior: seq<real>,
                                              n: nat, k: real, fcte: real, sqrt: real -> real,
                                              c: nat, upper: nat)
    requires |f| == 3 * n && |prior| == 3 * n && c < 3 && 1 <= upper <= n
    requires BondsNonDegenerate(xs, n, 1, sqrt)
    requires forall b :: 0 <= b < n ==>
               f[3 * b + c] == ForceAt(xs, prior, n, k, Anchored(fcte), sqrt, b, c)
    ensures AxisTotal(f, c, 1, upper) ==
              Push(xs, n, k, sqrt, 1, BondEnd(n, 1), upper - 1, c)
              + (if c == 2 && upper == n && n >= 2 then fcte else 0.0)
  {
    if upper > 1 {
      AnchoredPartialSum(f, xs, prior, n, k, fcte, sqrt, c, upper - 1);
      assert f[3 * (upper - 1) + c] == ForceAt(xs, prior, n, k, Anchored(fcte), sqrt, upper - 1, c);
    }
  }

  /** Newton's third law for the anchored chain: over beads 1..N-1 the forces
      sum to zero on x and y and to exactly fcte on z. */
  lemma NewtonThirdLawAnchored(f: seq<real>, xs: seq<real>, prior: seq<real>, n: nat,
                               k: real, fcte: real, sqrt: real -> real)
    requires n >= 2 && |f| == 3 * n && |prior| == 3 * n
    requires BondsNonDegenerate(xs, n, 1, sqrt)
    requires forall b, c :: 0 <= b < n && 0 <= c < 3 ==>
               f[3 * b + c] == ForceAt(xs, prior, n, k, Anchored(fcte), sqrt, b, c)
    ensures AxisTotal(f, 0, 1, n) == 0.0 && AxisTotal(f, 1, 1, n) == 0.0
    ensures AxisTotal(f, 2, 1, n) == fcte
  {
    AnchoredPartialSum(f, xs, prior, n, k, fcte, sqrt, 0, n);
    AnchoredPartialSum(f, xs, prior, n, k, fcte, sqrt, 1, n);
    AnchoredPartialSum(f, xs, prior, n, k, fcte, sqrt, 2, n);
  }

  /** When every bond is at its natural length L_0, the free chain feels no
      force on any bead. */
  lemma RestChainFeelsNoForce(xs: seq<real>, prior: seq<real>, n: nat, k: real,
                              sqrt: real -> real)
    requires |xs| == 3 * n && |prior| == 3 * n
    requires forall j: nat :: j + 1 < n ==> sqrt(BondSq(xs, j)) == L0
    ensures BondsNonDegenerate(xs, n, 0, sqrt)
    ensures forall b, c :: 0 <= b < n && 0 <= c < 3 ==>
              ForceAt(xs, prior, n, k, Free, sqrt, b, c) == 0.0
  {
    assert BondsNonDegenerate(xs, n, 0, sqrt);
    forall b, c | 0 <= b < n && 0 <= c < 3
      ensures ForceAt(xs, prior, n, k, Free, sqrt, b, c) == 0.0
    {
      if b + 1 < n {
        assert Fac(xs, b, k, sqrt) == 0.0;
      }
      if b >= 1 {
        assert Fac(xs, b - 1, k, sqrt) == 0.0;
      }
    }
  }

  /** The straight chain with unit spacing is a rest configuration. */
  lemma StraightChainFeelsNoForce(n: nat, prior: seq<real>, k: real, sqrt: real -> real)
    requires IsSqrt(sqrt) && |prior| == 3 * n
    ensures BondsNonDegenerate(StraightChain(n), n, 0, sqrt)
    ensures forall b, c :: 0 <= b < n && 0 <= c < 3 ==>
              ForceAt(StraightChain(n), prior, n, k, Free, sqrt, b, c) == 0.0
  {
    forall j: nat | j + 1 < n
      ensures sqrt(BondSq(StraightChain(n), j)) == L0
    {
      StraightChainBonds(n, j);
      SqrtOfSquare(sqrt, 1.0);
    }
    RestChainFeelsNoForce(StraightChain(n), prior, n, k, sqrt);
  }

  /** A single stretched bond (N = 2, free): the two beads feel opposite
      forces of magnitude K |r - L_0|. */
  lemma SingleBondBalance(f: seq<real>, xs: seq<real>, prior: seq<real>, k: real,
                          sqrt: real -> real)
    requires IsSqrt(sqrt) && |f| == 6 && |prior| == 6
    requires BondsNonDegenerate(xs, 2, 0, sqrt)
    requires forall b, c :: 0 <= b < 2 && 0 <= c < 3 ==>
               f[3 * b + c] == ForceAt(xs, prior, 2, k, Free, sqrt, b, c)
    ensures forall c :: 0 <= c < 3 ==> f[c] == -f[3 + c]
    ensures var r := sqrt(BondSq(xs, 0));
            f[0] * f[0] + f[1] * f[1] + f[2] * f[2] == k * k * (r - L0) * (r - L0)
  {
    var r := sqrt(BondSq(xs, 0));
    var fac := Fac(xs, 0, k, sqrt);
    var d0, d1, d2 := Delta(xs, 0, 0), Delta(xs, 0, 1), Delta(xs, 0, 2);
    assert f[0] == fac * d0 && f[1] == fac * d1 && f[2] == fac * d2 by {
      assert f[3 * 0 + 0] == ForceAt(xs, prior, 2, k, Free, sqrt, 0, 0);
      assert f[3 * 0 + 1] == ForceAt(xs, prior, 2, k, Free, sqrt, 0, 1);
      assert f[3 * 0 + 2] == ForceAt(xs, prior, 2, k, Free, sqrt, 0, 2);
    }
    assert f[3] == -(fac * d0) && f[4] == -(fac * d1) && f[5] == -(fac * d2) by {
      assert f[3 * 1 + 0] == ForceAt(xs, prior, 2, k, Free, sqrt, 1, 0);
      assert f[3 * 1 + 1] == ForceAt(xs, prior, 2, k, Free, sqrt, 1, 1);
      assert f[3 * 1 + 2] == ForceAt(xs, prior, 2, k, Free, sqrt, 1, 2);
    }
    assert r * r == d0 * d0 + d1 * d1 + d2 * d2;
    assert r != 0.0;
    assert fac * r == k * (r - L0);
    calc {
      f[0] * f[0] + f[1] * f[1] + f[2] * f[2];
      fac * fac * (d0 * d0 + d1 * d1 + d2 * d2);
      fac * fac * (r * r);
      (fac * r) * (fac * r);
      k * k * (r - L0) * (r - L0);
    }
  }
}

/** The flat layout of a chain of N beads (funciones_oscilador.c, integracion.c):
    a vector of 3N reals holding (x, y, z) of bead b at offsets 3b, 3b+1, 3b+2.
    Positions, velocities and forces all share this layout. */
module Chain {

  /** Natural bond length, L_0 in funciones_oscilador.h. */
  const L0: real := 1.0

  /** Component c of the separation vector of bond j, bead j+1 minus bead j. */
  function Delta(xs: seq<real>, j: nat, c: nat): real
    requires c < 3 && 3 * (j + 1) + 2 < |xs|
  {
    xs[3 * (j + 1) + c] - xs[3 * j + c]
  }

  /** Squared length of bond j, dx*dx + dy*dy + dz*dz. */
  function BondSq(xs: seq<real>, j: nat): (d2: real)
    requires 3 * (j + 1) + 2 < |xs|
    ensures d2 >= 0.0
  {
    var dx := Delta(xs, j, 0);
    var dy := Delta(xs, j, 1);
    var dz := Delta(xs, j, 2);
    assert dx * dx >= 0.0 && dy * dy >= 0.0 && dz * dz >= 0.0;
    dx * dx + dy * dy + dz * dz
  }

  /** Sum over beads lo <= b < hi of component c: the per-axis total of a
      force or position vector. */
  function AxisTotal(f: seq<real>, c: nat, lo: nat, hi: nat): real
    requires c < 3 && 3 * hi <= |f|
    decreases hi
  {
    if hi <= lo then 0.0 else AxisTotal(f, c, lo, hi - 1) + f[3 * (hi - 1) + c]
  }

  /** The vector [f(0), ..., f(len - 1)]: the per-entry formulas of the model
      (force law, step, noise) are tabulated with it, and TableAt reads an
      entry back. */
  function Table(len: nat, f: nat --> real): (t: seq<real>)
    requires forall i :: 0 <= i < len ==> f.requires(i)
    ensures |t| == len
  {
    if len == 0 then [] else Table(len - 1, f) + [f(len - 1)]
  }

  lemma {:induction false} TableAt(len: nat, f: nat --> real, i: nat)
    requires forall i :: 0 <= i < len ==> f.requires(i)
    requires i < len
    ensures Table(len, f)[i] == f(i)
    decreases len
  {
    if i < len - 1 {
      TableAt(len - 1, f, i);
    }
  }

  /** The straight chain the trajectory driver leaves in the caller's buffer:
      bead i at (i, 0, 0) (integracion.c:147-150). */
  function StraightChain(n: nat): (xs: seq<real>)
    ensures |xs| == 3 * n
  {
    seq(3 * n, k => if k % 3 == 0 then (k / 3) as real else 0.0)
  }

  /** A vector of n zeros. */
  function Zeros(n: nat): (zs: seq<real>)
    ensures |zs| == n && forall k :: 0 <= k < n ==> zs[k] == 0.0
  {
    seq(n, k => 0.0)
  }

  /** Every bond of the straight chain is at separation (1, 0, 0). */
  lemma StraightChainBonds(n: nat, j: nat)
    requires j + 1 < n
    ensures Delta(StraightChain(n), j, 0) == 1.0
    ensures Delta(StraightChain(n), j, 1) == 0.0 && Delta(StraightChain(n), j, 2) == 0.0
    ensures BondSq(StraightChain(n), j) == 1.0
  {
    var xs := StraightChain(n);
    assert (3 * (j + 1)) % 3 == 0 && (3 * (j + 1)) / 3 == j + 1;
    assert (3 * j) % 3 == 0 && (3 * j) / 3 == j;
    assert (3 * (j + 1) + 1) % 3 == 1 && (3 * j + 1) % 3 == 1;
    assert (3 * (j + 1) + 2) % 3 == 2 && (3 * j + 2) % 3 == 2;
  }
}

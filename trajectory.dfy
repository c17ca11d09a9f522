/** The trajectory driver verlet_trayectoria (integracion.c:66-158).

    The driver copies the caller's initial state x_0, v_0 into its own
    buffers, computes the initial forces, and then for each step draws 3N
    noise samples, performs one integrator step, advances a sampling counter
    by dt and, once the counter reaches 0.1, records a frame of the new state
    with its observables and resets the counter. After each step the "new"
    buffers are copied into the "old" ones. When the loop ends it overwrites
    the caller's x_0 with the straight chain (bead i at (i, 0, 0)) and v_0 with
    zeros.

    The standard-normal samples gaussian() would return are an input:
    draws[p] holds the 3N samples step p draws, in the order the noise loop
    uses them. Opening the output file is an input flag; the file's lines are
    the returned header and frames. */
module Trajectory {
  import opened Wrappers
  import opened RealMath
  import opened Chain
  import opened Forces
  import opened Observables
  import opened Integrator

  /** A frame is recorded once the counter reaches this much simulated time. */
  const SampleInterval: real := 0.1

  /** The run's parameters, as verlet_trayectoria receives them. */
  datatype Config = Config(kb: real, temp: real, alpha: real, n: nat, dt: real, m: real,
                           steps: int, k: real, mode: ForceMode, input: string)

  /** What the driver needs to be defined: at least one bead (Rg and Ree read
      bead 0 and divide by N) and non-zero denominators in a, b and the step. */
  predicate WellFormed(cfg: Config)
  {
    cfg.n >= 1 && CoefficientsDefined(cfg.alpha, cfg.dt, cfg.m)
  }

  /** One sampled line: time stamp, 3N positions, 3N velocities, Ek, Ep, Et, Rg, Ree. */
  datatype Frame = Frame(time: real, x: seq<real>, v: seq<real>,
                         ek: real, ep: real, et: real, rg: real, ree: real)

  /** The first line of the trajectory file: dt, the step count and the
      parameter file's name. */
  datatype Header = Header(dt: real, steps: int, input: string)

  datatype Outcome = OpenFailed | Written(header: Header, frames: seq<Frame>)

  /** The driver's state between steps: the "old" buffers, the contents of the
      F_nuevo buffer (which the anchored force law partly keeps), the counter
      and the frames written so far. */
  datatype State = State(x: seq<real>, v: seq<real>, f: seq<real>, fNext: seq<real>,
                         counter: real, frames: seq<Frame>)

  /** The time stamp paso * dt of step paso, as a repeated sum. */
  function Time(paso: nat, dt: real): real
  {
    Multiple(paso, dt)
  }

  /** The time stamp the C code writes for step paso: paso * dt. */
  method StepTime(paso: nat, dt: real) returns (t: real)
    ensures t == Time(paso, dt)
  {
    t := (paso as real) * dt;
    MultipleIsProduct(paso, dt);
  }

  /** The number of iterations of `for (paso = 0; paso < pasos; paso++)`. */
  function StepCount(steps: int): nat
  {
    if steps > 0 then steps else 0
  }

  predicate Shaped(cfg: Config, s: State)
  {
    |s.x| == 3 * cfg.n && |s.v| == 3 * cfg.n && |s.f| == 3 * cfg.n && |s.fNext| == 3 * cfg.n
  }

  /** The frame recorded for positions xs and velocities vs at time t. */
  function Observe(cfg: Config, t: real, xs: seq<real>, vs: seq<real>, sqrt: real -> real): Frame
    requires cfg.n >= 1 && |xs| == 3 * cfg.n && |vs| == 3 * cfg.n
  {
    var ek := KineticSum(vs, cfg.m, 3 * cfg.n);
    var ep := PotentialSum(xs, cfg.n, cfg.k, sqrt, Bonds(cfg.n));
    Frame(t, xs, vs, ek, ep, ek + ep, sqrt(GyrationSq(xs, cfg.n)), EndToEnd(xs, cfg.n))
  }

  /** The state before the first step: copies of x_0 and v_0, the force law
      applied to x_0 on a zeroed buffer, a zeroed F_nuevo, counter 0, no
      frames; None when x_0 already has a collapsed bond. */
  ghost function Initial(cfg: Config, x0: seq<real>, v0: seq<real>, sqrt: real -> real): (r: Option<State>)
    requires |x0| == 3 * cfg.n && |v0| == 3 * cfg.n && (cfg.mode.Anchored? ==> cfg.n >= 1)
    ensures r.Some? ==> Shaped(cfg, r.value)
  {
    if BondsNonDegenerate(x0, cfg.n, FirstBond(cfg.mode), sqrt) then
      Some(State(x0, v0, ForceField(x0, Zeros(3 * cfg.n), cfg.n, cfg.k, cfg.mode, sqrt),
                 Zeros(3 * cfg.n), 0.0, []))
    else None
  }

  /** The noise of one step, from its 3N standard-normal draws. */
  function StepNoise(cfg: Config, g: seq<real>, sqrt: real -> real): seq<real>
  {
    Noise(g, cfg.alpha, cfg.temp, cfg.kb, cfg.dt, sqrt)
  }

  /** The positions one step moves s to. */
  function StepPositions(cfg: Config, s: State, g: seq<real>, sqrt: real -> real): (xn: seq<real>)
    requires WellFormed(cfg) && Shaped(cfg, s) && |g| == 3 * cfg.n
    ensures |xn| == 3 * cfg.n
  {
    NextPositions(s.x, s.v, s.f, StepNoise(cfg, g, sqrt), CoefB(cfg.alpha, cfg.dt, cfg.m), cfg.dt, cfg.m)
  }

  /** The velocities of the step, given its new forces fn. */
  function StepVelocities(cfg: Config, s: State, g: seq<real>, fn: seq<real>, sqrt: real -> real)
    : (vn: seq<real>)
    requires WellFormed(cfg) && Shaped(cfg, s) && |g| == 3 * cfg.n && |fn| == 3 * cfg.n
    ensures |vn| == 3 * cfg.n
  {
    NextVelocities(s.v, s.f, fn, StepNoise(cfg, g, sqrt), CoefA(cfg.alpha, cfg.dt, cfg.m),
                   CoefB(cfg.alpha, cfg.dt, cfg.m), cfg.dt, cfg.m)
  }

  /** The end of a step at time t once xn, vn and fn are known: advance the
      counter, record a frame and restart the counter once it reaches
      SampleInterval, and rotate the buffers (F_nuevo keeps fn). */
  function Record(cfg: Config, s: State, t: real, xn: seq<real>, vn: seq<real>, fn: seq<real>,
                  sqrt: real -> real): (r: State)
    requires cfg.n >= 1 && |xn| == 3 * cfg.n && |vn| == 3 * cfg.n
  {
    var c := s.counter + cfg.dt;
    if c >= SampleInterval then
      State(xn, vn, fn, fn, 0.0, s.frames + [Observe(cfg, t, xn, vn, sqrt)])
    else
      State(xn, vn, fn, fn, c, s.frames)
  }

  /** One step of the loop, at time t: noise, integrator step, counter,
      optional frame, rotation of the buffers. None when the new positions
      collapse a bond. */
  ghost function Advance(cfg: Config, s: State, t: real, g: seq<real>, sqrt: real -> real)
    : (r: Option<State>)
    requires WellFormed(cfg) && Shaped(cfg, s) && |g| == 3 * cfg.n
    ensures r.Some? ==> Shaped(cfg, r.value)
  {
    var xn := StepPositions(cfg, s, g, sqrt);
    if !BondsNonDegenerate(xn, cfg.n, FirstBond(cfg.mode), sqrt) then None
    else
      var fn := ForceField(xn, s.fNext, cfg.n, cfg.k, cfg.mode, sqrt);
      Some(Record(cfg, s, t, xn, StepVelocities(cfg, s, g, fn, sqrt), fn, sqrt))
  }

  /** One step of the loop as a total function of the step number and the
      state: None also when the state or the step's draws have the wrong shape. */
  ghost function StepAt(cfg: Config, draws: seq<seq<real>>, sqrt: real -> real, j: nat, s: State)
    : (r: Option<State>)
    ensures r.Some? ==> WellFormed(cfg) && Shaped(cfg, s) && Shaped(cfg, r.value)
    ensures r.Some? ==> j < |draws| && |draws[j]| == 3 * cfg.n
  {
    if WellFormed(cfg) && Shaped(cfg, s) && j < |draws| && |draws[j]| == 3 * cfg.n then
      Advance(cfg, s, Time(j, cfg.dt), draws[j], sqrt)
    else None
  }

  /** The step function of a run, for given draws. */
  ghost function Next(cfg: Config, draws: seq<seq<real>>, sqrt: real -> real): (nat, State) -> Option<State>
  {
    (j: nat, s: State) => StepAt(cfg, draws, sqrt, j, s)
  }

  /** Each state of T follows from the one before by next. */
  ghost predicate Linked(next: (nat, State) -> Option<State>, T: seq<State>)
  {
    forall j: nat {:trigger next(j, T[j])} :: j < |T| - 1 ==> next(j, T[j]) == Some(T[j + 1])
  }

  /** A linked sequence stays one when the state its last one steps to is appended. */
  lemma ExtendLinked(next: (nat, State) -> Option<State>, P: seq<State>, s: State)
    requires |P| >= 1 && Linked(next, P) && next(|P| - 1, P[|P| - 1]) == Some(s)
    ensures Linked(next, P + [s])
  {
    var T := P + [s];
    forall j: nat | j < |T| - 1
      ensures next(j, T[j]) == Some(T[j + 1])
    {
      assert T[j] == P[j];
      if j < |P| - 1 {
        assert T[j + 1] == P[j + 1];
      }
    }
  }

  /** T is a sequence of consecutive loop states of a run with these draws. */
  ghost predicate Follows(cfg: Config, draws: seq<seq<real>>, sqrt: real -> real, T: seq<State>)
  {
    |T| >= 1 && Linked(Next(cfg, draws, sqrt), T)
  }

  /** The states of the first k steps from start under next: start and the
      state after each step, or None if start is None or a step gives None. */
  ghost function Iterate(next: (nat, State) -> Option<State>, start: Option<State>, k: nat)
    : (r: Option<seq<State>>)
    ensures r.Some? ==> |r.value| == k + 1
  {
    if k == 0 then
      match start
      case None => None
      case Some(s) => Some([s])
    else
      match Iterate(next, start, k - 1)
      case None => None
      case Some(T) =>
        match next(k - 1, T[k - 1])
        case None => None
        case Some(s) => Some(T + [s])
  }

  /** What Iterate produces starts from start and is linked by next. */
  lemma {:induction false} IterateLinked(next: (nat, State) -> Option<State>, start: Option<State>, k: nat)
    requires Iterate(next, start, k).Some?
    ensures start.Some? && Iterate(next, start, k).value[0] == start.value
    ensures Linked(next, Iterate(next, start, k).value)
  {
    if k > 0 {
      IterateLinked(next, start, k - 1);
      var P := Iterate(next, start, k - 1).value;
      var T := Iterate(next, start, k).value;
      assert T == P + [T[k]];
      ExtendLinked(next, P, T[k]);
    }
  }

  /** The states of the first k steps of verlet_trayectoria: the initial state
      and the state after each step, or None if a bond collapsed on the way. */
  ghost function Trace(cfg: Config, x0: seq<real>, v0: seq<real>, draws: seq<seq<real>>,
                       sqrt: real -> real, k: nat): (r: Option<seq<State>>)
    requires WellFormed(cfg) && |x0| == 3 * cfg.n && |v0| == 3 * cfg.n
    ensures r.Some? ==> |r.value| == k + 1
  {
    Iterate(Next(cfg, draws, sqrt), Initial(cfg, x0, v0, sqrt), k)
  }

  /** A trace starts from the initial state and is a sequence of consecutive
      loop states. */
  lemma TraceFollows(cfg: Config, x0: seq<real>, v0: seq<real>, draws: seq<seq<real>>,
                     sqrt: real -> real, k: nat)
    requires WellFormed(cfg) && |x0| == 3 * cfg.n && |v0| == 3 * cfg.n
    requires Trace(cfg, x0, v0, draws, sqrt, k).Some?
    ensures Initial(cfg, x0, v0, sqrt).Some?
    ensures Trace(cfg, x0, v0, draws, sqrt, k).value[0] == Initial(cfg, x0, v0, sqrt).value
    ensures Follows(cfg, draws, sqrt, Trace(cfg, x0, v0, draws, sqrt, k).value)
  {
    IterateLinked(Next(cfg, draws, sqrt), Initial(cfg, x0, v0, sqrt), k);
  }

  // ------------------------------------------------------------- the driver

  /** The copy loop at the end of each step: old := new for x, v and F. */
  method Rotate(xa: array<real>, xn: array<real>, va: array<real>, vn: array<real>,
                fa: array<real>, fn: array<real>)
    requires xn.Length == xa.Length && va.Length == xa.Length && vn.Length == xa.Length
    requires fa.Length == xa.Length && fn.Length == xa.Length
    requires xa != xn && xa != vn && xa != fn && va != xn && va != vn && va != fn
    requires fa != xn && fa != vn && fa != fn && xa != va && xa != fa && va != fa
    modifies xa, va, fa
    ensures xa[..] == xn[..] && va[..] == vn[..] && fa[..] == fn[..]
  {
    var i := 0;
    while i < xa.Length
      invariant 0 <= i <= xa.Length
      invariant forall j :: 0 <= j < i ==> xa[j] == xn[j] && va[j] == vn[j] && fa[j] == fn[j]
    {
      xa[i] := xn[i];
      va[i] := vn[i];
      fa[i] := fn[i];
      i := i + 1;
    }
  }

  /** The end-of-run reset of the caller's buffers: x_0[3i] = i, the other
      position entries and all of v_0 zero. */
  method ResetInitialState(n: nat, x0: array<real>, v0: array<real>)
    requires x0.Length == 3 * n && v0.Length == 3 * n && x0 != v0
    modifies x0, v0
    ensures x0[..] == StraightChain(n) && v0[..] == Zeros(3 * n)
  {
    var i := 0;
    while i < n
      invariant 0 <= i <= n
      invariant forall q :: 0 <= q < 3 * i ==> x0[q] == StraightChain(n)[q] && v0[q] == 0.0
    {
      x0[3 * i] := i as real;
      x0[3 * i + 1] := 0.0;
      x0[3 * i + 2] := 0.0;
      v0[3 * i] := 0.0;
      v0[3 * i + 1] := 0.0;
      v0[3 * i + 2] := 0.0;
      assert (3 * i) % 3 == 0 && (3 * i) / 3 == i && (3 * i + 1) % 3 == 1 && (3 * i + 2) % 3 == 2;
      i := i + 1;
    }
    assert forall q :: 0 <= q < 3 * n ==> x0[..][q] == StraightChain(n)[q];
    assert forall q :: 0 <= q < 3 * n ==> v0[..][q] == Zeros(3 * n)[q];
  }

  /** The observables of one sampled line, computed as the C code does. */
  method Sample(cfg: Config, t: real, xn: array<real>, vn: array<real>, sqrt: real -> real)
    returns (fr: Frame)
    requires cfg.n >= 1 && xn.Length == 3 * cfg.n && vn.Length == 3 * cfg.n
    ensures fr == Observe(cfg, t, xn[..], vn[..], sqrt)
  {
    var n := cfg.n;
    var ek := KineticEnergy(n, vn, cfg.m);
    var ep := PotentialEnergy(n, xn, cfg.m, cfg.k, sqrt);
    var et := TotalEnergy(n, xn, vn, cfg.m, cfg.k, sqrt);
    var rg := RadiusOfGyration(n, xn, sqrt);
    var ree := xn[3 * (n - 1) + 2] - xn[2];
    fr := Frame(t, xn[..], vn[..], ek, ep, et, rg, ree);
  }

  /** The driver's seven work arrays: 3N entries each, no two the same array. */
  predicate Buffers(len: nat, betta: array<real>, xa: array<real>, xn: array<real>, va: array<real>,
                    vn: array<real>, fa: array<real>, fn: array<real>)
  {
    betta.Length == len && xa.Length == len && xn.Length == len && va.Length == len &&
    vn.Length == len && fa.Length == len && fn.Length == len &&
    betta != xa && betta != xn && betta != va && betta != vn && betta != fa && betta != fn &&
    xa != xn && xa != va && xa != vn && xa != fa && xa != fn &&
    xn != va && xn != vn && xn != fa && xn != fn &&
    va != vn && va != fa && va != fn && vn != fa && vn != fn && fa != fn
  }

  /** One iteration of the step loop, on the driver's buffers. */
  method StepOnce(cfg: Config, a: real, b: real, g: seq<real>, paso: nat, sqrt: real -> real,
                  betta: array<real>, xa: array<real>, xn: array<real>, va: array<real>,
                  vn: array<real>, fa: array<real>, fn: array<real>,
                  counter: real, frames: seq<Frame>)
    returns (newCounter: real, newFrames: seq<Frame>)
    requires WellFormed(cfg) && |g| == 3 * cfg.n
    requires a == CoefA(cfg.alpha, cfg.dt, cfg.m) && b == CoefB(cfg.alpha, cfg.dt, cfg.m)
    requires Buffers(3 * cfg.n, betta, xa, xn, va, vn, fa, fn)
    requires Advance(cfg, State(xa[..], va[..], fa[..], fn[..], counter, frames), Time(paso, cfg.dt), g, sqrt).Some?
    modifies betta, xa, xn, va, vn, fa, fn
    ensures Advance(cfg, old(State(xa[..], va[..], fa[..], fn[..], counter, frames)), Time(paso, cfg.dt), g, sqrt)
            == Some(State(xa[..], va[..], fa[..], fn[..], newCounter, newFrames))
  {
    var n := cfg.n;
    ghost var s := State(xa[..], va[..], fa[..], fn[..], counter, frames);
    assert BondsNonDegenerate(StepPositions(cfg, s, g, sqrt), n, FirstBond(cfg.mode), sqrt);
    FillNoise(betta, g, cfg.alpha, cfg.temp, cfg.kb, cfg.dt, sqrt);
    VerletStep(betta, b, a, n, xa, xn, va, vn, fa, fn, cfg.dt, cfg.m, cfg.k, cfg.mode, sqrt);
    ghost var xs, vs, fs := xn[..], vn[..], fn[..];
    assert betta[..] == StepNoise(cfg, g, sqrt);
    assert xs == StepPositions(cfg, s, g, sqrt);
    assert vs == StepVelocities(cfg, s, g, fs, sqrt);
    var t := StepTime(paso, cfg.dt);
    newCounter := counter + cfg.dt;
    newFrames := frames;
    if newCounter >= SampleInterval {
      var fr := Sample(cfg, t, xn, vn, sqrt);
      newFrames := frames + [fr];
      newCounter := 0.0;
      assert Record(cfg, s, t, xs, vs, fs, sqrt) == State(xs, vs, fs, fs, newCounter, newFrames);
    } else {
      assert Record(cfg, s, t, xs, vs, fs, sqrt) == State(xs, vs, fs, fs, newCounter, newFrames);
    }
    Rotate(xa, xn, va, vn, fa, fn);
    AdvanceFrom(cfg, s, t, g, sqrt, xs, vs, fs);
    assert Record(cfg, s, t, xs, vs, fs, sqrt) == State(xa[..], va[..], fa[..], fn[..], newCounter, newFrames);
  }

  /** Advance in terms of the step's computed positions, velocities and forces. */
  lemma AdvanceFrom(cfg: Config, s: State, t: real, g: seq<real>, sqrt: real -> real,
                    xs: seq<real>, vs: seq<real>, fs: seq<real>)
    requires WellFormed(cfg) && Shaped(cfg, s) && |g| == 3 * cfg.n
    requires xs == StepPositions(cfg, s, g, sqrt)
    requires BondsNonDegenerate(xs, cfg.n, FirstBond(cfg.mode), sqrt)
    requires fs == ForceField(xs, s.fNext, cfg.n, cfg.k, cfg.mode, sqrt)
    requires vs == StepVelocities(cfg, s, g, fs, sqrt)
    ensures Advance(cfg, s, t, g, sqrt) == Some(Record(cfg, s, t, xs, vs, fs, sqrt))
  {
  }

  /** The copy loop of the set-up: x, v take x_0, v_0; F and F_nuevo are zeroed. */
  method CopyIn(x0: array<real>, v0: array<real>, xa: array<real>, va: array<real>,
                fa: array<real>, fn: array<real>)
    requires v0.Length == x0.Length && xa.Length == x0.Length && va.Length == x0.Length
    requires fa.Length == x0.Length && fn.Length == x0.Length
    requires xa != va && xa != fa && xa != fn && va != fa && va != fn && fa != fn
    requires xa != x0 && xa != v0 && va != x0 && va != v0 && fa != x0 && fa != v0 && fn != x0 && fn != v0
    modifies xa, va, fa, fn
    ensures xa[..] == x0[..] && va[..] == v0[..] && fa[..] == Zeros(x0.Length) && fn[..] == Zeros(x0.Length)
  {
    var i := 0;
    while i < x0.Length
      invariant 0 <= i <= x0.Length
      invariant forall j :: 0 <= j < i ==> xa[j] == x0[j] && va[j] == v0[j] && fa[j] == 0.0 && fn[j] == 0.0
    {
      xa[i] := x0[i];
      va[i] := v0[i];
      fa[i] := 0.0;
      fn[i] := 0.0;
      i := i + 1;
    }
    assert xa[..] == x0[..] && va[..] == v0[..];
    assert fa[..] == Zeros(x0.Length) && fn[..] == Zeros(x0.Length);
  }

  /** The initial state once its force vector is known. */
  lemma InitialFrom(cfg: Config, x0: seq<real>, v0: seq<real>, sqrt: real -> real, f: seq<real>)
    requires |x0| == 3 * cfg.n && |v0| == 3 * cfg.n && cfg.n >= 1
    requires BondsNonDegenerate(x0, cfg.n, FirstBond(cfg.mode), sqrt)
    requires f == ForceField(x0, Zeros(3 * cfg.n), cfg.n, cfg.k, cfg.mode, sqrt)
    ensures Initial(cfg, x0, v0, sqrt) == Some(State(x0, v0, f, Zeros(3 * cfg.n), 0.0, []))
  {
  }

  /** The set-up before the step loop: the driver's own copies of x_0 and v_0,
      F computed by the force law on a zeroed buffer, F_nuevo zeroed. */
  method Setup(cfg: Config, x0: array<real>, v0: array<real>, sqrt: real -> real)
    returns (xa: array<real>, va: array<real>, fa: array<real>, fn: array<real>)
    requires WellFormed(cfg) && x0.Length == 3 * cfg.n && v0.Length == 3 * cfg.n
    requires BondsNonDegenerate(x0[..], cfg.n, FirstBond(cfg.mode), sqrt)
    ensures fresh(xa) && fresh(va) && fresh(fa) && fresh(fn)
    ensures xa != va && xa != fa && xa != fn && va != fa && va != fn && fa != fn
    ensures xa.Length == 3 * cfg.n && va.Length == 3 * cfg.n && fa.Length == 3 * cfg.n
    ensures fn.Length == 3 * cfg.n
    ensures Initial(cfg, x0[..], v0[..], sqrt) == Some(State(xa[..], va[..], fa[..], fn[..], 0.0, []))
  {
    var n := cfg.n;
    xa := new real[3 * n];
    va := new real[3 * n];
    fa := new real[3 * n];
    fn := new real[3 * n];
    CopyIn(x0, v0, xa, va, fa, fn);
    BondForces(n, xa, fa, cfg.k, cfg.mode, sqrt);
    FieldFromPointwise(fa[..], xa[..], Zeros(3 * n), n, cfg.k, cfg.mode, sqrt);
    InitialFrom(cfg, x0[..], v0[..], sqrt, fa[..]);
  }

  /** Step paso of the loop: from state T[paso] to state T[paso + 1]. */
  method LoopStep(cfg: Config, draws: seq<seq<real>>, ghost T: seq<State>, sqrt: real -> real,
                  a: real, b: real, paso: nat,
                  betta: array<real>, xa: array<real>, xn: array<real>, va: array<real>,
                  vn: array<real>, fa: array<real>, fn: array<real>,
                  counter: real, frames: seq<Frame>)
    returns (newCounter: real, newFrames: seq<Frame>)
    requires WellFormed(cfg) && Follows(cfg, draws, sqrt, T) && paso < |T| - 1
    requires a == CoefA(cfg.alpha, cfg.dt, cfg.m) && b == CoefB(cfg.alpha, cfg.dt, cfg.m)
    requires Buffers(3 * cfg.n, betta, xa, xn, va, vn, fa, fn)
    requires T[paso] == State(xa[..], va[..], fa[..], fn[..], counter, frames)
    modifies betta, xa, xn, va, vn, fa, fn
    ensures T[paso + 1] == State(xa[..], va[..], fa[..], fn[..], newCounter, newFrames)
  {
    assert Next(cfg, draws, sqrt)(paso, T[paso]) == Some(T[paso + 1]);
    newCounter, newFrames := StepOnce(cfg, a, b, draws[paso], paso, sqrt, betta, xa, xn, va, vn, fa, fn,
                                      counter, frames);
  }

  /** The step loop of verlet_trayectoria, from the set-up state T[0] to the
      last state of T. */
  method StepLoop(cfg: Config, draws: seq<seq<real>>, ghost T: seq<State>, sqrt: real -> real,
                  betta: array<real>, xa: array<real>, xn: array<real>, va: array<real>,
                  vn: array<real>, fa: array<real>, fn: array<real>)
    returns (frames: seq<Frame>)
    requires WellFormed(cfg) && Follows(cfg, draws, sqrt, T) && |T| == StepCount(cfg.steps) + 1
    requires Buffers(3 * cfg.n, betta, xa, xn, va, vn, fa, fn)
    requires T[0] == State(xa[..], va[..], fa[..], fn[..], 0.0, [])
    modifies betta, xa, xn, va, vn, fa, fn
    ensures frames == T[|T| - 1].frames
  {
    var a, b := Coefficients(cfg.alpha, cfg.dt, cfg.m);
    var counter := 0.0;
    frames := [];
    var paso := 0;
    while paso < cfg.steps
      invariant 0 <= paso < |T|
      invariant T[paso] == State(xa[..], va[..], fa[..], fn[..], counter, frames)
    {
      counter, frames := LoopStep(cfg, draws, T, sqrt, a, b, paso, betta, xa, xn, va, vn, fa, fn,
                                  counter, frames);
      paso := paso + 1;
    }
    assert paso == |T| - 1;
  }

  /** The body of verlet_trayectoria between opening the file and the final
      reset: set-up and the step loop. It only reads x_0 and v_0, and the
      frames it writes are those of the last state of the trace. */
  method Simulate(cfg: Config, draws: seq<seq<real>>, x0: array<real>, v0: array<real>, sqrt: real -> real)
    returns (frames: seq<Frame>)
    requires WellFormed(cfg) && x0.Length == 3 * cfg.n && v0.Length == 3 * cfg.n
    requires Trace(cfg, x0[..], v0[..], draws, sqrt, StepCount(cfg.steps)).Some?
    ensures frames == Trace(cfg, x0[..], v0[..], draws, sqrt, StepCount(cfg.steps)).value[StepCount(cfg.steps)].frames
  {
    ghost var T := Trace(cfg, x0[..], v0[..], draws, sqrt, StepCount(cfg.steps)).value;
    TraceFollows(cfg, x0[..], v0[..], draws, sqrt, StepCount(cfg.steps));
    var xa, va, fa, fn := Setup(cfg, x0, v0, sqrt);
    var xn := new real[3 * cfg.n];
    var vn := new real[3 * cfg.n];
    var betta := new real[3 * cfg.n];
    frames := StepLoop(cfg, draws, T, sqrt, betta, xa, xn, va, vn, fa, fn);
  }

  /** verlet_trayectoria. If the output cannot be opened nothing happens and
      OpenFailed is returned. Otherwise the returned header and frames are
      those of the last state of the trace, and the caller's x_0 and v_0 are left
      holding the straight chain at rest. */
  method VerletTrajectory(cfg: Config, draws: seq<seq<real>>, outputOpens: bool,
                          x0: array<real>, v0: array<real>, sqrt: real -> real)
    returns (out: Outcome)
    requires WellFormed(cfg) && x0.Length == 3 * cfg.n && v0.Length == 3 * cfg.n && x0 != v0
    requires outputOpens ==> Trace(cfg, x0[..], v0[..], draws, sqrt, StepCount(cfg.steps)).Some?
    modifies x0, v0
    ensures !outputOpens ==> out == OpenFailed && x0[..] == old(x0[..]) && v0[..] == old(v0[..])
    ensures outputOpens ==>
              out == Written(Header(cfg.dt, cfg.steps, cfg.input),
                             Trace(cfg, old(x0[..]), old(v0[..]), draws, sqrt, StepCount(cfg.steps))
                               .value[StepCount(cfg.steps)].frames)
    ensures outputOpens ==> x0[..] == StraightChain(cfg.n) && v0[..] == Zeros(3 * cfg.n)
  {
    if !outputOpens {
      return OpenFailed;
    }
    var header := Header(cfg.dt, cfg.steps, cfg.input);
    var frames := Simulate(cfg, draws, x0, v0, sqrt);
    ResetInitialState(cfg.n, x0, v0);
    out := Written(header, frames);
  }
}

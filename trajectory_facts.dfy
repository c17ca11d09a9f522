/** What the trajectory driver's runs satisfy: the sampling counter, the
    frames it writes, the anchored bead, the single-bead anchored quirk and
    a chain at rest. Each property is stated for any sequence of consecutive
    loop states (Follows) and proved by induction over the steps; the trace
    of verlet_trayectoria is one such sequence (TraceFollows), so each holds
    for every run. */
module TrajectoryFacts {
  import opened Wrappers
  import opened RealMath
  import opened Chain
  import opened Forces
  import opened Observables
  import opened Integrator
  import opened Trajectory

  // ------------------------------------------------------------- one step

  /** Two neighbouring states of a trace are related by Advance. */
  lemma Link(cfg: Config, draws: seq<seq<real>>, sqrt: real -> real, T: seq<State>, j: nat)
    requires Follows(cfg, draws, sqrt, T) && j < |T| - 1
    ensures WellFormed(cfg) && Shaped(cfg, T[j]) && Shaped(cfg, T[j + 1])
    ensures j < |draws| && |draws[j]| == 3 * cfg.n
    ensures Advance(cfg, T[j], Time(j, cfg.dt), draws[j], sqrt) == Some(T[j + 1])
  {
    assert Next(cfg, draws, sqrt)(j, T[j]) == Some(T[j + 1]);
  }

  /** What one step does: the new positions, new forces against the old
      F_nuevo, new velocities, and the counter either reaching 0.1, when the
      frame of the new state is appended and the counter reset, or growing
      by dt with the frames unchanged. */
  lemma AdvanceEffect(cfg: Config, s: State, t: real, g: seq<real>, sqrt: real -> real, s': State)
    requires WellFormed(cfg) && Shaped(cfg, s) && |g| == 3 * cfg.n
    requires Advance(cfg, s, t, g, sqrt) == Some(s')
    ensures s'.x == StepPositions(cfg, s, g, sqrt)
    ensures BondsNonDegenerate(s'.x, cfg.n, FirstBond(cfg.mode), sqrt)
    ensures s'.f == ForceField(s'.x, s.fNext, cfg.n, cfg.k, cfg.mode, sqrt) && s'.fNext == s'.f
    ensures s'.v == StepVelocities(cfg, s, g, s'.f, sqrt)
    ensures s.counter + cfg.dt >= SampleInterval ==>
              s'.counter == 0.0 && s'.frames == s.frames + [Observe(cfg, t, s'.x, s'.v, sqrt)]
    ensures s.counter + cfg.dt < SampleInterval ==>
              s'.counter == s.counter + cfg.dt && s'.frames == s.frames
  {
  }

  /** The positions part of AdvanceEffect alone. */
  lemma AdvancePositions(cfg: Config, s: State, t: real, g: seq<real>, sqrt: real -> real, s': State)
    requires WellFormed(cfg) && Shaped(cfg, s) && |g| == 3 * cfg.n
    requires Advance(cfg, s, t, g, sqrt) == Some(s')
    ensures s'.x == StepPositions(cfg, s, g, sqrt)
  {
  }

  /** The initial state holds copies of x_0 and v_0, the forces at x_0 on a
      zeroed buffer, a zeroed F_nuevo, counter 0 and no frames. */
  lemma InitialState(cfg: Config, x0: seq<real>, v0: seq<real>, sqrt: real -> real, s: State)
    requires WellFormed(cfg) && |x0| == 3 * cfg.n && |v0| == 3 * cfg.n
    requires Initial(cfg, x0, v0, sqrt) == Some(s)
    ensures BondsNonDegenerate(x0, cfg.n, FirstBond(cfg.mode), sqrt)
    ensures s.x == x0 && s.v == v0 && s.fNext == Zeros(3 * cfg.n)
    ensures s.f == ForceField(x0, Zeros(3 * cfg.n), cfg.n, cfg.k, cfg.mode, sqrt)
    ensures s.counter == 0.0 && s.frames == []
  {
  }

  /** A frame records its time stamp, the new state, Et = Ek + Ep, a
      non-negative Rg and Ree = z of the last bead minus z of bead 0. */
  lemma ObserveFields(cfg: Config, t: real, xs: seq<real>, vs: seq<real>, sqrt: real -> real)
    requires cfg.n >= 1 && |xs| == 3 * cfg.n && |vs| == 3 * cfg.n && IsSqrt(sqrt)
    ensures var fr := Observe(cfg, t, xs, vs, sqrt);
            fr.time == t && fr.x == xs && fr.v == vs && fr.et == fr.ek + fr.ep && fr.rg >= 0.0 &&
            fr.ree == xs[3 * (cfg.n - 1) + 2] - xs[2]
  {
    GyrationNonNegative(xs, cfg.n, sqrt);
  }

  // ------------------------------------------------------ the counter

  /** With dt >= 0 the counter stays in [0, 0.1) at the top of every
      iteration. */
  lemma {:induction false} CounterInRange(cfg: Config, draws: seq<seq<real>>, sqrt: real -> real,
                                          T: seq<State>, j: nat)
    requires Follows(cfg, draws, sqrt, T) && T[0].counter == 0.0 && cfg.dt >= 0.0 && j < |T|
    ensures 0.0 <= T[j].counter < SampleInterval
    decreases j
  {
    if j > 0 {
      CounterInRange(cfg, draws, sqrt, T, j - 1);
      Link(cfg, draws, sqrt, T, j - 1);
      AdvanceEffect(cfg, T[j - 1], Time(j - 1, cfg.dt), draws[j - 1], sqrt, T[j]);
    }
  }

  /** At most one frame per step; exactly one per step when dt >= 0.1. */
  lemma {:induction false} FrameCount(cfg: Config, draws: seq<seq<real>>, sqrt: real -> real,
                                      T: seq<State>, j: nat)
    requires Follows(cfg, draws, sqrt, T) && T[0].counter == 0.0 && T[0].frames == [] && j < |T|
    ensures |T[j].frames| <= j
    ensures cfg.dt >= SampleInterval ==> |T[j].frames| == j
    decreases j
  {
    if j > 0 {
      FrameCount(cfg, draws, sqrt, T, j - 1);
      Link(cfg, draws, sqrt, T, j - 1);
      AdvanceEffect(cfg, T[j - 1], Time(j - 1, cfg.dt), draws[j - 1], sqrt, T[j]);
      if cfg.dt >= SampleInterval {
        CounterInRange(cfg, draws, sqrt, T, j - 1);
      }
    }
  }

  /** Frames are only ever appended: the frames after i steps begin the
      frames after j >= i steps. */
  lemma {:induction false} FramesOnlyGrow(cfg: Config, draws: seq<seq<real>>, sqrt: real -> real,
                                          T: seq<State>, i: nat, j: nat)
    requires Follows(cfg, draws, sqrt, T) && i <= j < |T|
    ensures T[i].frames <= T[j].frames
    decreases j
  {
    if i < j {
      FramesOnlyGrow(cfg, draws, sqrt, T, i, j - 1);
      Link(cfg, draws, sqrt, T, j - 1);
      AdvanceEffect(cfg, T[j - 1], Time(j - 1, cfg.dt), draws[j - 1], sqrt, T[j]);
    }
  }

  /** The frame times are strictly increasing. */
  ghost predicate TimesIncrease(frames: seq<Frame>)
  {
    forall p, q :: 0 <= p < q < |frames| ==> frames[p].time < frames[q].time
  }

  /** With dt > 0 the frames after j steps carry strictly increasing time
      stamps, all before j dt. */
  lemma {:induction false} FrameTimes(cfg: Config, draws: seq<seq<real>>, sqrt: real -> real,
                                      T: seq<State>, j: nat)
    requires Follows(cfg, draws, sqrt, T) && T[0].frames == [] && cfg.dt > 0.0 && j < |T|
    ensures TimesIncrease(T[j].frames)
    ensures forall p :: 0 <= p < |T[j].frames| ==> T[j].frames[p].time < Time(j, cfg.dt)
    decreases j
  {
    if j > 0 {
      FrameTimes(cfg, draws, sqrt, T, j - 1);
      Link(cfg, draws, sqrt, T, j - 1);
      var s, s' := T[j - 1], T[j];
      AdvanceEffect(cfg, s, Time(j - 1, cfg.dt), draws[j - 1], sqrt, s');
      assert Time(j, cfg.dt) == Time(j - 1, cfg.dt) + cfg.dt;
      if s.counter + cfg.dt >= SampleInterval {
        var fr := Observe(cfg, Time(j - 1, cfg.dt), s'.x, s'.v, sqrt);
        assert fr.time == Time(j - 1, cfg.dt);
        AppendLater(s.frames, fr);
      }
    }
  }

  /** Appending a frame later than all others keeps the times increasing. */
  lemma AppendLater(frames: seq<Frame>, fr: Frame)
    requires TimesIncrease(frames)
    requires forall p :: 0 <= p < |frames| ==> frames[p].time < fr.time
    ensures TimesIncrease(frames + [fr])
  {
    var all := frames + [fr];
    forall p, q | 0 <= p < q < |all|
      ensures all[p].time < all[q].time
    {
      assert all[p] == frames[p];
      if q < |frames| {
        assert all[q] == frames[q];
      }
    }
  }

  /** Frame fr is the observation of the state after step p < j, stamped
      with time p dt. */
  ghost predicate RecordedAt(cfg: Config, T: seq<State>, sqrt: real -> real, j: nat, fr: Frame)
  {
    exists p: nat :: p < j && p + 1 < |T| && cfg.n >= 1 && Shaped(cfg, T[p + 1]) &&
                     fr == Observe(cfg, Time(p, cfg.dt), T[p + 1].x, T[p + 1].v, sqrt)
  }

  /** Every frame written in the first j steps is the observation of the
      state after one of those steps, at that step's time. */
  lemma {:induction false} FramesAreObservations(cfg: Config, draws: seq<seq<real>>, sqrt: real -> real,
                                                 T: seq<State>, j: nat)
    requires Follows(cfg, draws, sqrt, T) && T[0].frames == [] && j < |T|
    ensures forall q :: 0 <= q < |T[j].frames| ==> RecordedAt(cfg, T, sqrt, j, T[j].frames[q])
    decreases j
  {
    if j > 0 {
      FramesAreObservations(cfg, draws, sqrt, T, j - 1);
      Link(cfg, draws, sqrt, T, j - 1);
      var s, s' := T[j - 1], T[j];
      AdvanceEffect(cfg, s, Time(j - 1, cfg.dt), draws[j - 1], sqrt, s');
      forall q | 0 <= q < |s'.frames|
        ensures RecordedAt(cfg, T, sqrt, j, s'.frames[q])
      {
        if q < |s.frames| {
          assert s'.frames[q] == s.frames[q];
          LaterRecord(cfg, T, sqrt, j - 1, s.frames[q]);
        } else {
          assert s'.frames[q] == Observe(cfg, Time(j - 1, cfg.dt), T[j].x, T[j].v, sqrt);
          assert RecordedAt(cfg, T, sqrt, j, s'.frames[q]) by {
            assert (j - 1) + 1 == j;
          }
        }
      }
    }
  }

  lemma LaterRecord(cfg: Config, T: seq<State>, sqrt: real -> real, j: nat, fr: Frame)
    requires RecordedAt(cfg, T, sqrt, j, fr)
    ensures RecordedAt(cfg, T, sqrt, j + 1, fr)
  {
    var p: nat :| p < j && p + 1 < |T| && cfg.n >= 1 && Shaped(cfg, T[p + 1]) &&
                  fr == Observe(cfg, Time(p, cfg.dt), T[p + 1].x, T[p + 1].v, sqrt);
    assert p < j + 1;
  }

  // ------------------------------------------------------ anchored mode

  /** Anchored chain of two or more beads: bead 0's force entries start at
      zero and stay zero, since the force law never writes them. */
  lemma {:induction false} AnchoredHeadFeelsNoForce(cfg: Config, draws: seq<seq<real>>,
                                                    sqrt: real -> real, T: seq<State>, j: nat)
    requires Follows(cfg, draws, sqrt, T) && cfg.mode.Anchored? && cfg.n >= 2 && Shaped(cfg, T[0])
    requires forall c :: 0 <= c < 3 ==> T[0].f[c] == 0.0 && T[0].fNext[c] == 0.0
    requires j < |T|
    ensures Shaped(cfg, T[j])
    ensures forall c :: 0 <= c < 3 ==> T[j].f[c] == 0.0 && T[j].fNext[c] == 0.0
    decreases j
  {
    if j > 0 {
      AnchoredHeadFeelsNoForce(cfg, draws, sqrt, T, j - 1);
      Link(cfg, draws, sqrt, T, j - 1);
      var s, s' := T[j - 1], T[j];
      AdvanceEffect(cfg, s, Time(j - 1, cfg.dt), draws[j - 1], sqrt, s');
      forall c | 0 <= c < 3
        ensures s'.f[c] == 0.0
      {
        ForceFieldAt(s'.x, s.fNext, cfg.n, cfg.k, cfg.mode, sqrt, c);
        BeadCoordinate(0, c);
      }
    }
  }

  /** Anchored mode does not hold bead 0 in place: with its force at zero,
      each step still moves it by b (v dt + dt betta), so it moves whenever
      it has a velocity or receives noise. */
  lemma AnchoredHeadStillMoves(cfg: Config, draws: seq<seq<real>>, sqrt: real -> real,
                               T: seq<State>, j: nat, c: nat)
    requires Follows(cfg, draws, sqrt, T) && cfg.mode.Anchored? && cfg.n >= 2 && Shaped(cfg, T[0])
    requires forall c :: 0 <= c < 3 ==> T[0].f[c] == 0.0 && T[0].fNext[c] == 0.0
    requires j < |T| - 1 && c < 3
    ensures WellFormed(cfg) && j < |draws| && |draws[j]| == 3 * cfg.n
    ensures Shaped(cfg, T[j]) && Shaped(cfg, T[j + 1])
    ensures var b, betta := CoefB(cfg.alpha, cfg.dt, cfg.m), StepNoise(cfg, draws[j], sqrt);
            T[j + 1].x[c] == T[j].x[c] + b * (T[j].v[c] * cfg.dt + cfg.dt * betta[c])
  {
    AnchoredHeadFeelsNoForce(cfg, draws, sqrt, T, j);
    Link(cfg, draws, sqrt, T, j);
    var s, s' := T[j], T[j + 1];
    AdvancePositions(cfg, s, Time(j, cfg.dt), draws[j], sqrt, s');
    var b, betta := CoefB(cfg.alpha, cfg.dt, cfg.m), StepNoise(cfg, draws[j], sqrt);
    NextPositionsAt(s.x, s.v, s.f, betta, b, cfg.dt, cfg.m, c);
    AnchoredBeadStillMoves(s.x, s.v, s.f, betta, b, cfg.dt, cfg.m, c);
  }

  /** Anchored single bead: bead 0 is also the last bead, and since the force
      law never clears it, the constant pull is added on top of what F_nuevo
      already held at every step, so the z force after j >= 1 steps is
      j * fcte rather than fcte. */
  lemma {:induction false} SingleAnchoredBeadForceGrows(cfg: Config, draws: seq<seq<real>>,
                                                        sqrt: real -> real, T: seq<State>, j: nat)
    requires Follows(cfg, draws, sqrt, T) && cfg.mode.Anchored? && cfg.n == 1 && Shaped(cfg, T[0])
    requires T[0].fNext[2] == 0.0 && 1 <= j < |T|
    ensures Shaped(cfg, T[j])
    ensures T[j].f[2] == Multiple(j, cfg.mode.fcte) && T[j].fNext[2] == Multiple(j, cfg.mode.fcte)
    decreases j
  {
    if j > 1 {
      SingleAnchoredBeadForceGrows(cfg, draws, sqrt, T, j - 1);
    }
    Link(cfg, draws, sqrt, T, j - 1);
    var s, s' := T[j - 1], T[j];
    AdvanceEffect(cfg, s, Time(j - 1, cfg.dt), draws[j - 1], sqrt, s');
    ForceFieldAt(s'.x, s.fNext, cfg.n, cfg.k, cfg.mode, sqrt, 2);
  }

  // ------------------------------------------------------ a chain at rest

  /** Every bond at its natural length L_0, with no velocity and no force:
      a free chain's resting state. */
  ghost predicate AtRest(cfg: Config, s: State, sqrt: real -> real)
  {
    && |s.x| == 3 * cfg.n
    && (forall j: nat :: j + 1 < cfg.n ==> sqrt(BondSq(s.x, j)) == L0)
    && s.v == Zeros(3 * cfg.n) && s.f == Zeros(3 * cfg.n)
  }

  /** A free chain at rest, without noise (no friction or zero temperature),
      stays at rest at the same positions for the whole run. */
  lemma {:induction false} RestChainStaysAtRest(cfg: Config, draws: seq<seq<real>>, sqrt: real -> real,
                                                T: seq<State>, j: nat)
    requires Follows(cfg, draws, sqrt, T) && IsSqrt(sqrt)
    requires cfg.mode == Free && (cfg.alpha == 0.0 || cfg.temp == 0.0)
    requires AtRest(cfg, T[0], sqrt) && j < |T|
    ensures AtRest(cfg, T[j], sqrt) && T[j].x == T[0].x
    decreases j
  {
    if j > 0 {
      RestChainStaysAtRest(cfg, draws, sqrt, T, j - 1);
      Link(cfg, draws, sqrt, T, j - 1);
      RestStep(cfg, T[j - 1], Time(j - 1, cfg.dt), draws[j - 1], sqrt, T[j]);
    }
  }

  /** From rest, without noise, the positions do not move, so the step
      collapses no bond and is defined. */
  lemma RestAdvances(cfg: Config, s: State, t: real, g: seq<real>, sqrt: real -> real)
    requires WellFormed(cfg) && Shaped(cfg, s) && |g| == 3 * cfg.n && IsSqrt(sqrt)
    requires cfg.mode == Free && (cfg.alpha == 0.0 || cfg.temp == 0.0)
    requires AtRest(cfg, s, sqrt)
    ensures StepPositions(cfg, s, g, sqrt) == s.x
    ensures Advance(cfg, s, t, g, sqrt).Some?
  {
    var betta := StepNoise(cfg, g, sqrt);
    var b := CoefB(cfg.alpha, cfg.dt, cfg.m);
    NoNoiseWhenColdOrUndamped(g, cfg.alpha, cfg.temp, cfg.kb, cfg.dt, sqrt);
    RestIsStationary(s.x, s.v, s.f, Zeros(3 * cfg.n), betta, CoefA(cfg.alpha, cfg.dt, cfg.m), b,
                     cfg.dt, cfg.m);
    RestChainFeelsNoForce(s.x, s.fNext, cfg.n, cfg.k, sqrt);
  }

  /** One step from rest, without noise, ends at rest at the same positions. */
  lemma RestStep(cfg: Config, s: State, t: real, g: seq<real>, sqrt: real -> real, s': State)
    requires WellFormed(cfg) && Shaped(cfg, s) && |g| == 3 * cfg.n && IsSqrt(sqrt)
    requires cfg.mode == Free && (cfg.alpha == 0.0 || cfg.temp == 0.0)
    requires AtRest(cfg, s, sqrt) && Advance(cfg, s, t, g, sqrt) == Some(s')
    ensures AtRest(cfg, s', sqrt) && s'.x == s.x
  {
    AdvanceEffect(cfg, s, t, g, sqrt, s');
    RestAdvances(cfg, s, t, g, sqrt);
    var n := cfg.n;
    var betta := StepNoise(cfg, g, sqrt);
    var a, b := CoefA(cfg.alpha, cfg.dt, cfg.m), CoefB(cfg.alpha, cfg.dt, cfg.m);
    NoNoiseWhenColdOrUndamped(g, cfg.alpha, cfg.temp, cfg.kb, cfg.dt, sqrt);
    RestChainField(s.x, n, s.fNext, cfg.k, sqrt);
    RestIsStationary(s.x, s.v, s.f, s'.f, betta, a, b, cfg.dt, cfg.m);
    assert s'.v == Zeros(3 * n);
  }

  /** The free force law gives a chain whose bonds all have length L_0 a
      zero force vector. */
  lemma RestChainField(xs: seq<real>, n: nat, prior: seq<real>, k: real, sqrt: real -> real)
    requires |xs| == 3 * n && |prior| == 3 * n
    requires forall j: nat :: j + 1 < n ==> sqrt(BondSq(xs, j)) == L0
    ensures BondsNonDegenerate(xs, n, 0, sqrt)
    ensures ForceField(xs, prior, n, k, Free, sqrt) == Zeros(3 * n)
  {
    RestChainFeelsNoForce(xs, prior, n, k, sqrt);
    var f := ForceField(xs, prior, n, k, Free, sqrt);
    forall i | 0 <= i < 3 * n
      ensures f[i] == 0.0
    {
      ForceFieldAt(xs, prior, n, k, Free, sqrt, i);
    }
  }

  /** Every bond of the straight chain (the reset state) has length L_0. */
  lemma StraightChainBondsAtRest(n: nat, sqrt: real -> real)
    requires IsSqrt(sqrt)
    ensures forall j: nat :: j + 1 < n ==> sqrt(BondSq(StraightChain(n), j)) == L0
  {
    forall j: nat | j + 1 < n
      ensures sqrt(BondSq(StraightChain(n), j)) == L0
    {
      StraightChainBonds(n, j);
      SqrtOfSquare(sqrt, 1.0);
    }
  }

  /** The free force law gives the straight chain a zero force vector. */
  lemma StraightChainField(n: nat, prior: seq<real>, k: real, sqrt: real -> real)
    requires IsSqrt(sqrt) && |prior| == 3 * n
    ensures BondsNonDegenerate(StraightChain(n), n, 0, sqrt)
    ensures ForceField(StraightChain(n), prior, n, k, Free, sqrt) == Zeros(3 * n)
  {
    StraightChainBondsAtRest(n, sqrt);
    RestChainField(StraightChain(n), n, prior, k, sqrt);
  }

  // ------------------------------------------------------ runs

  /** Every run of verlet_trayectoria that does not collapse a bond: the
      counter stays in [0, 0.1) when dt >= 0, at most one frame per step is
      written (one per step when dt >= 0.1), and each written frame is the
      observation of a state the run reached, at that step's time. */
  lemma RunFrames(cfg: Config, x0: seq<real>, v0: seq<real>, draws: seq<seq<real>>,
                  sqrt: real -> real, k: nat)
    requires WellFormed(cfg) && |x0| == 3 * cfg.n && |v0| == 3 * cfg.n
    requires Trace(cfg, x0, v0, draws, sqrt, k).Some?
    ensures var T := Trace(cfg, x0, v0, draws, sqrt, k).value;
            && (cfg.dt >= 0.0 ==> forall j :: 0 <= j <= k ==> 0.0 <= T[j].counter < SampleInterval)
            && |T[k].frames| <= k
            && (cfg.dt >= SampleInterval ==> |T[k].frames| == k)
            && (forall q :: 0 <= q < |T[k].frames| ==> RecordedAt(cfg, T, sqrt, k, T[k].frames[q]))
            && (cfg.dt > 0.0 ==> TimesIncrease(T[k].frames))
  {
    TraceFollows(cfg, x0, v0, draws, sqrt, k);
    var T := Trace(cfg, x0, v0, draws, sqrt, k).value;
    InitialState(cfg, x0, v0, sqrt, T[0]);
    if cfg.dt >= 0.0 {
      forall j | 0 <= j <= k
        ensures 0.0 <= T[j].counter < SampleInterval
      {
        CounterInRange(cfg, draws, sqrt, T, j);
      }
    }
    FrameCount(cfg, draws, sqrt, T, k);
    FramesAreObservations(cfg, draws, sqrt, T, k);
    if cfg.dt > 0.0 {
      FrameTimes(cfg, draws, sqrt, T, k);
    }
  }

  /** Bead 0 feels no force in state s. */
  ghost predicate HeadForceFree(cfg: Config, s: State)
  {
    Shaped(cfg, s) && cfg.n >= 1 && forall c :: 0 <= c < 3 ==> s.f[c] == 0.0
  }

  /** Every anchored run of two or more beads keeps bead 0's force at zero in
      every state it reaches. */
  lemma RunAnchoredHead(cfg: Config, x0: seq<real>, v0: seq<real>, draws: seq<seq<real>>,
                        sqrt: real -> real, k: nat)
    requires WellFormed(cfg) && |x0| == 3 * cfg.n && |v0| == 3 * cfg.n
    requires cfg.mode.Anchored? && cfg.n >= 2
    requires Trace(cfg, x0, v0, draws, sqrt, k).Some?
    ensures forall j :: 0 <= j <= k ==> HeadForceFree(cfg, Trace(cfg, x0, v0, draws, sqrt, k).value[j])
  {
    TraceFollows(cfg, x0, v0, draws, sqrt, k);
    var T := Trace(cfg, x0, v0, draws, sqrt, k).value;
    InitialHead(cfg, x0, v0, sqrt, T[0]);
    forall j | 0 <= j <= k
      ensures HeadForceFree(cfg, T[j])
    {
      AnchoredHeadFeelsNoForce(cfg, draws, sqrt, T, j);
    }
  }

  /** The anchored initial state of two or more beads has no force on bead 0. */
  lemma InitialHead(cfg: Config, x0: seq<real>, v0: seq<real>, sqrt: real -> real, s: State)
    requires WellFormed(cfg) && |x0| == 3 * cfg.n && |v0| == 3 * cfg.n
    requires cfg.mode.Anchored? && cfg.n >= 2
    requires Initial(cfg, x0, v0, sqrt) == Some(s)
    ensures Shaped(cfg, s)
    ensures forall c :: 0 <= c < 3 ==> s.f[c] == 0.0 && s.fNext[c] == 0.0
  {
    InitialState(cfg, x0, v0, sqrt, s);
    forall c | 0 <= c < 3
      ensures s.f[c] == 0.0
    {
      ForceFieldAt(x0, Zeros(3 * cfg.n), cfg.n, cfg.k, cfg.mode, sqrt, c);
      BeadCoordinate(0, c);
    }
  }

  /** Every anchored run of a single bead: after j >= 1 steps the z force on
      the bead is j * fcte. */
  lemma RunSingleAnchoredBead(cfg: Config, x0: seq<real>, v0: seq<real>, draws: seq<seq<real>>,
                              sqrt: real -> real, k: nat)
    requires WellFormed(cfg) && |x0| == 3 * cfg.n && |v0| == 3 * cfg.n
    requires cfg.mode.Anchored? && cfg.n == 1
    requires Trace(cfg, x0, v0, draws, sqrt, k).Some?
    ensures var T := Trace(cfg, x0, v0, draws, sqrt, k).value;
            forall j :: 1 <= j <= k ==> |T[j].f| == 3 && T[j].f[2] == Multiple(j, cfg.mode.fcte)
  {
    TraceFollows(cfg, x0, v0, draws, sqrt, k);
    var T := Trace(cfg, x0, v0, draws, sqrt, k).value;
    InitialState(cfg, x0, v0, sqrt, T[0]);
    forall j | 1 <= j <= k
      ensures |T[j].f| == 3 && T[j].f[2] == Multiple(j, cfg.mode.fcte)
    {
      SingleAnchoredBeadForceGrows(cfg, draws, sqrt, T, j);
    }
  }

  /** A free run without noise that starts with every bond at L_0 and zero
      velocity (the reset state is one, by StraightChainBondsAtRest) stays at
      rest at its starting positions in every state it reaches. */
  lemma RestRunStaysAtRest(cfg: Config, x0: seq<real>, draws: seq<seq<real>>, sqrt: real -> real, k: nat)
    requires WellFormed(cfg) && IsSqrt(sqrt) && |x0| == 3 * cfg.n
    requires cfg.mode == Free && (cfg.alpha == 0.0 || cfg.temp == 0.0)
    requires forall j: nat :: j + 1 < cfg.n ==> sqrt(BondSq(x0, j)) == L0
    ensures Trace(cfg, x0, Zeros(3 * cfg.n), draws, sqrt, k).Some? ==>
              forall j :: 0 <= j <= k ==>
                var s := Trace(cfg, x0, Zeros(3 * cfg.n), draws, sqrt, k).value[j];
                AtRest(cfg, s, sqrt) && s.x == x0
  {
    var v0 := Zeros(3 * cfg.n);
    if Trace(cfg, x0, v0, draws, sqrt, k).Some? {
      TraceFollows(cfg, x0, v0, draws, sqrt, k);
      var T := Trace(cfg, x0, v0, draws, sqrt, k).value;
      InitialState(cfg, x0, v0, sqrt, T[0]);
      RestChainField(x0, cfg.n, Zeros(3 * cfg.n), cfg.k, sqrt);
      forall j | 0 <= j <= k
        ensures AtRest(cfg, T[j], sqrt) && T[j].x == x0
      {
        RestChainStaysAtRest(cfg, draws, sqrt, T, j);
      }
    }
  }

  /** Such a run never stops early: its trace exists for every k whose steps
      all have their 3N draws. */
  lemma {:induction false} RestRunExists(cfg: Config, x0: seq<real>, draws: seq<seq<real>>,
                                         sqrt: real -> real, k: nat)
    requires WellFormed(cfg) && IsSqrt(sqrt) && |x0| == 3 * cfg.n
    requires cfg.mode == Free && (cfg.alpha == 0.0 || cfg.temp == 0.0)
    requires forall j: nat :: j + 1 < cfg.n ==> sqrt(BondSq(x0, j)) == L0
    requires k <= |draws| && forall j :: 0 <= j < k ==> |draws[j]| == 3 * cfg.n
    ensures Trace(cfg, x0, Zeros(3 * cfg.n), draws, sqrt, k).Some?
    decreases k
  {
    var v0 := Zeros(3 * cfg.n);
    if k == 0 {
      RestChainField(x0, cfg.n, v0, cfg.k, sqrt);
    } else {
      RestRunExists(cfg, x0, draws, sqrt, k - 1);
      RestRunLast(cfg, x0, draws, sqrt, k - 1);
      var s := Trace(cfg, x0, v0, draws, sqrt, k - 1).value[k - 1];
      assert |draws[k - 1]| == 3 * cfg.n;
      RestAdvances(cfg, s, Time(k - 1, cfg.dt), draws[k - 1], sqrt);
      TraceExtends(cfg, x0, v0, draws, sqrt, k);
    }
  }

  /** A trace of k - 1 steps whose last state can step is a trace of k steps. */
  lemma TraceExtends(cfg: Config, x0: seq<real>, v0: seq<real>, draws: seq<seq<real>>,
                     sqrt: real -> real, k: nat)
    requires WellFormed(cfg) && |x0| == 3 * cfg.n && |v0| == 3 * cfg.n && k >= 1
    requires Trace(cfg, x0, v0, draws, sqrt, k - 1).Some?
    requires StepAt(cfg, draws, sqrt, k - 1, Trace(cfg, x0, v0, draws, sqrt, k - 1).value[k - 1]).Some?
    ensures Trace(cfg, x0, v0, draws, sqrt, k).Some?
  {
    var next, start := Next(cfg, draws, sqrt), Initial(cfg, x0, v0, sqrt);
    assert next(k - 1, Iterate(next, start, k - 1).value[k - 1]).Some?;
    IterateExtends(next, start, k);
  }

  /** Iterating one step further is defined when the last state can step. */
  lemma IterateExtends(next: (nat, State) -> Option<State>, start: Option<State>, k: nat)
    requires k >= 1 && Iterate(next, start, k - 1).Some?
    requires next(k - 1, Iterate(next, start, k - 1).value[k - 1]).Some?
    ensures Iterate(next, start, k).Some?
  {
  }

  /** The last state of such a run has the shape of the buffers and is at rest. */
  lemma RestRunLast(cfg: Config, x0: seq<real>, draws: seq<seq<real>>, sqrt: real -> real, k: nat)
    requires WellFormed(cfg) && IsSqrt(sqrt) && |x0| == 3 * cfg.n
    requires cfg.mode == Free && (cfg.alpha == 0.0 || cfg.temp == 0.0)
    requires forall j: nat :: j + 1 < cfg.n ==> sqrt(BondSq(x0, j)) == L0
    requires Trace(cfg, x0, Zeros(3 * cfg.n), draws, sqrt, k).Some?
    ensures var s := Trace(cfg, x0, Zeros(3 * cfg.n), draws, sqrt, k).value[k];
            Shaped(cfg, s) && AtRest(cfg, s, sqrt)
  {
    var v0 := Zeros(3 * cfg.n);
    RestRunStaysAtRest(cfg, x0, draws, sqrt, k);
    TraceFollows(cfg, x0, v0, draws, sqrt, k);
    var T := Trace(cfg, x0, v0, draws, sqrt, k).value;
    if k > 0 {
      Link(cfg, draws, sqrt, T, k - 1);
    }
  }
}

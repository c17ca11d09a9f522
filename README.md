# Bead-spring chain under Langevin dynamics: a Dafny model

This project models the numerical core of a C simulator. The simulator follows a linear
chain of N beads joined by harmonic springs of natural length L_0 = 1 and integrates
the chain with a Langevin velocity-Verlet scheme. The model covers:

- the force law `Fuerza_verlet`, in both build variants;
- the observables: kinetic, potential and total energy, radius of gyration and end-to-end
  extension;
- one integrator step `un_paso_verlet`;
- the trajectory driver `verlet_trayectoria`;
- the trajectory reducer `procesar_trayectoria`, which averages the observables of a run;
- `leer_N_desde_parametros`, which reads N back from a parameter file;
- the line dispatch of `generar_grafica`, which turns a results file into one row of the
  final graph.

Positions, velocities and forces are flat vectors of 3N reals. Bead b sits at offsets
3b, 3b+1 and 3b+2.

Each module is described below.

- **Chain** (`chain.dfy`): the layout, bond vectors, per-axis sums and the straight chain.
- **RealMath** (`real_math.dfy`): real arithmetic shared by all modules. Two of its names
  matter for reading the contracts:
  - `IsSqrt(sqrt)` is the meaning assumed of the square root.
  - `Multiple(n, x)` is n·x written as a repeated sum.
- **Forces** (`forces.dfy`): `Fuerza_verlet`.
  - The build switch `FIXED` becomes the runtime flag `ForceMode = Free | Anchored(fcte)`.
  - `BondForces` is the method. It clears the buffer, then adds every bond's six updates
    in place.
  - It is proved against the closed form `ForceAt` / `ForceField`.
  - Newton's third law, the rest-length and straight-chain zero-force results, and the
    anchored variant's untouched bead 0 are lemmas about that closed form.
- **Observables** (`observables.dfy`): the four accumulation loops are methods over
  arrays. Each is proved equal to a recursive specification function. Lemmas about those
  functions give:
  - non-negativity;
  - zero kinetic energy exactly at rest;
  - translation invariance of Rg and Ree.
- **Integrator** (`integrator.dfy`): `un_paso_verlet`, plus the run constants a, b and
  the noise vector.
  - `VerletStep` does positions, then forces at the new positions, then velocities.
  - It changes only the three "new" buffers.
- **Trajectory** (`trajectory.dfy`): `verlet_trayectoria` as an imperative driver.
  - The driver owns its six buffers and a sampling counter.
  - It is proved against `Trace`. `Trace` is the sequence of states that the per-step
    function `Advance` generates from `Initial`.
- **TrajectoryFacts** (`trajectory_facts.dfy`): properties of `Trace`:
  - the counter stays in [0, 0.1);
  - frames are observations of the state at their step, their times increase, and their
    number is bounded by the step count;
  - the anchored head feels no force but still moves;
  - a chain at rest without noise stays at rest.
- **Text** (`text.dfy`): whitespace fields, `%d` printing and scanning, and substring
  search (`strstr`).
- **Reducer** (`reducer.dfy`): `procesar_trayectoria`.
  - It walks the columns, converts four values, and accumulates eight moment sums.
  - It is proved against `Reduced`, which is defined through the numbered lines kept
    (`Tallied`) and the statistics of the kept readings (`Summarize`).
  - Lemmas about `Summarize`:
    - variance is non-negative;
    - the error is its square root;
    - a constant input has mean c and error 0.
- **TrajectoryFile** (`trajectory_file.dfy`): links the driver to the reducer.
  - It gives the line the driver prints for each frame.
  - It proves the reducer reads back exactly the four printed values of each frame
    beyond the first N_start − 1 frames.
  - From this, reducing the file of any run gives `NoData` or the summary of those frames.
- **Parameters** (`parameters.dfy`): `leer_N_desde_parametros`, and the head of the
  parameter file that `escribe_input_verlet` writes.
  - Reading N back from such a file gives the N that was written.
- **Graph** (`graph.dfy`): the results file `procesar_trayectoria` writes and
  `generar_grafica`'s `else if` chain of `strstr` tests.
  - Reading a results file back routes every line to the intended variable.
  - The row then carries the summary's Ree (anchored) or Rg (free) statistics.

Points where the model follows the code's own behaviour, which may surprise a reader:

- **The reducer's line numbers.** They start at 1 with the trajectory header. Lines
  1..N_start are skipped, so only the first N_start − 1 frames are dropped, not N_start
  (`Codigos_en_C/funciones_oscilador.c:249-251`).
- **The anchored variant with N = 1.** Its bond loop is empty, yet it still adds F_cte to
  F[2]. F[2] was never cleared, so the bead's force grows by F_cte on every call of the
  force law. `TrajectoryFacts.RunSingleAnchoredBead` states this.
- **The anchored variant's first bond.** It skips bond (0, 1) for forces, but the
  potential energy still counts it.

## Model

| member | source | states |
|---|---|---|
| Chain.BondSq | Codigos_en_C/funciones_oscilador.c:56-60 | the squared bond length dx·dx + dy·dy + dz·dz is never negative |
| Chain.StraightChain | Codigos_en_C/integracion.c:147-150 | the reset chain has 3N entries |
| Chain.StraightChainBonds | Codigos_en_C/integracion.c:147-150 | every bond of the reset chain is the vector (1, 0, 0), so its squared length is 1 |
| Chain.Zeros | Codigos_en_C/integracion.c:151-153 | the reset velocity vector has n entries, all zero |
| Forces.ForceField | Codigos_en_C/funciones_oscilador.c:46-111 | the force law produces 3N entries |
| Forces.ForceFieldAt | Codigos_en_C/funciones_oscilador.c:46-111 | entry i of the force vector is component i mod 3 of the force on bead i / 3 |
| Forces.FieldFromPointwise | Codigos_en_C/funciones_oscilador.c:46-111 | a vector that agrees with the per-bead force on every bead and axis is the force vector |
| Forces.AccumulatedStep | Codigos_en_C/funciones_oscilador.c:67-73 | adding bond j changes only bead j (by +fac·Δ) and bead j+1 (by −fac·Δ) |
| Forces.AddBond | Codigos_en_C/funciones_oscilador.c:67-73 | the six updates of one loop pass take the buffer from the sum over bonds lo..j−1 to the sum over bonds lo..j |
| Forces.AddBondForce | Codigos_en_C/funciones_oscilador.c:53-73 | bead j gains fac·(dx, dy, dz) and bead j+1 loses it, with fac = K(r − L_0)/r; every other entry is unchanged |
| Forces.ClearForces | Codigos_en_C/funciones_oscilador.c:49-50 | entries from the start offset on are zero (offset 0 in the free variant, 3 in the anchored one, lines 82-83), and earlier entries are unchanged |
| Forces.AccumulateBonds | Codigos_en_C/funciones_oscilador.c:52-74 | after the bond loop over i = lo..N−2 (lo = 1 in the anchored variant, lines 85-107), each bead holds the pushes of its two bonds, and the entries below 3·lo are unchanged |
| Forces.BondForces | Codigos_en_C/funciones_oscilador.c:46-111 | the buffer holds the closed-form force of every bead and axis; in the anchored variant with N ≥ 2, F[0..2] keeps its old contents |
| Forces.FreeForceIsBondSum | Codigos_en_C/funciones_oscilador.c:52-74 | free variant: the force on bead b is its right bond's fac·Δ minus its left bond's fac·Δ, each present only when that bond exists |
| Forces.AnchoredForceIsBondSum | Codigos_en_C/funciones_oscilador.c:79-111 | anchored variant: bead 0 keeps the previous buffer contents; other beads get the bond sum over bonds 1..N−2 only, and F_cte is added to the z component of bead N−1 |
| Forces.AnchoredIgnoresBeadZero | Codigos_en_C/funciones_oscilador.c:85-107 | anchored variant: the forces on beads 1..N−1 do not depend on bead 0's position |
| Forces.SameBond | Codigos_en_C/funciones_oscilador.c:86-93 | a bond j ≥ 1 has the same separation and length whatever bead 0's position is |
| Forces.NewtonThirdLawFree | Codigos_en_C/funciones_oscilador.c:67-73 | free variant: on every axis, the forces summed over all N beads are 0 |
| Forces.NewtonThirdLawAnchored | Codigos_en_C/funciones_oscilador.c:100-110 | anchored variant, N ≥ 2: summed over beads 1..N−1, forces are 0 on x and y and exactly F_cte on z |
| Forces.RestChainFeelsNoForce | Codigos_en_C/funciones_oscilador.c:60-61 | when every bond has length L_0, the free-variant force is zero on every bead and axis |
| Forces.StraightChainFeelsNoForce | Codigos_en_C/funciones_oscilador.c:46-75 | the straight chain (bead i at (i, 0, 0)) feels no free-variant force |
| Forces.SingleBondBalance | Codigos_en_C/funciones_oscilador.c:60-73 | for two beads, the forces are equal and opposite, and their squared magnitude is K²(r − L_0)² |
| Observables.KineticEnergy | Codigos_en_C/funciones_oscilador.c:117-123 | returns the sum of ½·m·v[i]² over the 3N entries |
| Observables.KineticIsHalfMassNorm | Codigos_en_C/funciones_oscilador.c:117-123 | that sum equals ½·m·\|v\|² |
| Observables.KineticNonNegative | Codigos_en_C/funciones_oscilador.c:117-123 | kinetic energy is ≥ 0 when m ≥ 0 |
| Observables.KineticZeroIffAtRest | Codigos_en_C/funciones_oscilador.c:117-123 | for m > 0, kinetic energy is 0 if and only if every velocity entry is 0 |
| Observables.PotentialEnergy | Codigos_en_C/funciones_oscilador.c:124-134 | returns the sum of ½·K·(r − L_0)² over all N−1 bonds, bond (0, 1) included |
| Observables.PotentialNonNegative | Codigos_en_C/funciones_oscilador.c:124-134 | potential energy is ≥ 0 when K ≥ 0 |
| Observables.RestChainHasNoPotential | Codigos_en_C/funciones_oscilador.c:126-132 | when every bond has length L_0, potential energy is 0 |
| Observables.StraightChainHasNoPotential | Codigos_en_C/funciones_oscilador.c:124-134 | the straight chain has potential energy 0 |
| Observables.TotalEnergy | Codigos_en_C/funciones_oscilador.c:136-140 | returns kinetic plus potential energy |
| Observables.TotalEnergyNonNegative | Codigos_en_C/funciones_oscilador.c:136-140 | total energy is ≥ 0 when m ≥ 0 and K ≥ 0 |
| Observables.RadiusOfGyration | Codigos_en_C/funciones_oscilador.c:192-221 | returns sqrt of the mean squared distance of the beads from their centroid |
| Observables.GyrationNonNegative | Codigos_en_C/funciones_oscilador.c:208-220 | Rg² is ≥ 0, and so Rg is ≥ 0 |
| Observables.CentroidTranslated | Codigos_en_C/funciones_oscilador.c:198-206 | adding a vector t to every bead moves the centroid by t |
| Observables.GyrationTranslationInvariant | Codigos_en_C/funciones_oscilador.c:192-221 | Rg² is unchanged when the same vector is added to every bead |
| Observables.CoincidentCentroid | Codigos_en_C/funciones_oscilador.c:198-206 | when all beads are at one point p, the centroid is p |
| Observables.CoincidentBeadsHaveNoGyration | Codigos_en_C/funciones_oscilador.c:192-221 | when all beads are at one point, Rg² is 0 |
| Observables.EndToEndTranslationInvariant | Codigos_en_C/integracion.c:135 | Ree = x[3(N−1)+2] − x[2] is unchanged by a common translation |
| Integrator.Coefficients | Codigos_en_C/integracion.c:84-85 | returns a = (1 − c)/(1 + c) and b = 1/(1 + c), with c = α·dt/(2m) |
| Integrator.UndampedCoefficients | Codigos_en_C/integracion.c:84-85 | α = 0 gives a = b = 1 |
| Integrator.CoefficientsRelated | Codigos_en_C/integracion.c:84-85 | a = 2b − 1 for every α |
| Integrator.DampedCoefficientBounds | Codigos_en_C/integracion.c:84-85 | α, dt, m > 0 give 0 < b < 1 and −1 < a < b |
| Integrator.Noise | Codigos_en_C/integracion.c:113-115 | one noise entry per sample drawn |
| Integrator.NoiseAt | Codigos_en_C/integracion.c:113-115 | betta[i] = g[i]·sqrt(2·α·T·kb·dt) |
| Integrator.FillNoise | Codigos_en_C/integracion.c:113-115 | fills the betta array with exactly that noise vector |
| Integrator.NoNoiseWhenColdOrUndamped | Codigos_en_C/integracion.c:114 | α = 0 or T = 0 makes every betta[i] zero, whatever the samples |
| Integrator.NextPositions | Codigos_en_C/integracion.c:34-36 | the position update produces one entry per old position |
| Integrator.NextPositionsAt | Codigos_en_C/integracion.c:34-36 | entry i is x[i] + v[i]·dt·b + F[i]·dt²·b/(2m) + b·dt·betta[i] |
| Integrator.NextVelocities | Codigos_en_C/integracion.c:46-48 | the velocity update produces one entry per old velocity |
| Integrator.NextVelocitiesAt | Codigos_en_C/integracion.c:46-48 | entry i is a·v[i] + (a·F[i] + F_new[i])·dt/(2m) + b·betta[i]/m |
| Integrator.UpdatePositions | Codigos_en_C/integracion.c:34-36 | the x_nuevo array holds the updated positions and nothing else changes |
| Integrator.UpdateVelocities | Codigos_en_C/integracion.c:46-48 | the v_nuevo array holds the updated velocities and nothing else changes |
| Integrator.VerletStep | Codigos_en_C/integracion.c:22-49 | x_nuevo is the position update; F_nuevo is the force law at the updated x_nuevo (from its previous contents); v_nuevo is the velocity update using that F_nuevo; only these three arrays change |
| Integrator.AnchoredBeadStillMoves | Codigos_en_C/integracion.c:35 | a coordinate with zero force still moves by b·(v·dt + dt·betta); it changes when v = 0 and b, dt and betta are non-zero |
| Integrator.UndampedStepIsVelocityVerlet | Codigos_en_C/integracion.c:34-48 | with α = 0 and no noise, the step is plain velocity Verlet: x + v·dt + F·dt²/(2m), and v + (F + F_new)·dt/(2m) |
| Integrator.RestIsStationary | Codigos_en_C/integracion.c:34-48 | with zero velocities, forces and noise, the positions stay and the velocities stay zero |
| Trajectory.StepTime | Codigos_en_C/integracion.c:128 | the time stamp is paso·dt |
| Trajectory.Initial | Codigos_en_C/integracion.c:99-110 | the initial state, when defined, has 3N entries in every buffer |
| Trajectory.Advance | Codigos_en_C/integracion.c:113-144 | one step of the driver, when defined, keeps every buffer at 3N entries |
| Trajectory.StepAt | Codigos_en_C/integracion.c:112-145 | step j is defined only with a well-formed run, a shaped state and 3N samples drawn for step j |
| Trajectory.Trace | Codigos_en_C/integracion.c:112-145 | a run of k steps, when defined, passes through k + 1 states |
| Trajectory.TraceFollows | Codigos_en_C/integracion.c:99-145 | the run starts at the initial state, and each state is the step of the previous one |
| Trajectory.Rotate | Codigos_en_C/integracion.c:140-144 | after the copy, the old arrays equal the new ones, which are unchanged |
| Trajectory.ResetInitialState | Codigos_en_C/integracion.c:147-154 | the caller's x_0 becomes the straight chain (x_0[3i] = i, other entries 0) and v_0 becomes all zeros |
| Trajectory.Sample | Codigos_en_C/integracion.c:128-136 | the frame holds the time, the new positions and velocities, and Ek, Ep, Et, Rg and Ree of the new state |
| Trajectory.StepOnce | Codigos_en_C/integracion.c:113-144 | noise, step, counter, sampling and rotation together perform exactly Advance on the state held in the buffers |
| Trajectory.AdvanceFrom | Codigos_en_C/integracion.c:113-144 | Advance records the step from the new positions, the force at them and the new velocities |
| Trajectory.CopyIn | Codigos_en_C/integracion.c:99-104 | the old buffers hold x_0 and v_0, and both force buffers are zero |
| Trajectory.InitialFrom | Codigos_en_C/integracion.c:99-110 | the initial state is the copy-in followed by the force law on x_0, with counter 0 and no frames |
| Trajectory.Setup | Codigos_en_C/integracion.c:89-110 | allocates four distinct fresh buffers of 3N entries holding the initial state |
| Trajectory.LoopStep | Codigos_en_C/integracion.c:112-145 | one pass of the step loop takes the buffers from state paso to state paso + 1 of the run |
| Trajectory.StepLoop | Codigos_en_C/integracion.c:112-145 | the whole step loop returns the frames of the run's last state |
| Trajectory.Simulate | Codigos_en_C/integracion.c:89-145 | the frames written are those of the run's final state |
| Trajectory.VerletTrajectory | Codigos_en_C/integracion.c:66-158 | if the output cannot be opened, nothing runs and x_0, v_0 are unchanged; otherwise the file holds the header and the run's frames, and x_0, v_0 are reset |
| TrajectoryFacts.Link | Codigos_en_C/integracion.c:112-145 | consecutive states of a run are related by one Advance with step j's samples |
| TrajectoryFacts.AdvanceEffect | Codigos_en_C/integracion.c:113-144 | a step sets the positions, the force at them, and the velocities; when counter + dt ≥ 0.1 it appends the new state's frame and resets the counter to 0; otherwise it adds dt to the counter and appends nothing |
| TrajectoryFacts.InitialState | Codigos_en_C/integracion.c:99-110 | the initial state holds x_0, v_0, the force at x_0 (the F_nuevo buffer zero), counter 0 and no frames |
| TrajectoryFacts.ObserveFields | Codigos_en_C/integracion.c:128-136 | a frame has Et = Ek + Ep, Rg ≥ 0 and Ree = x[3(N−1)+2] − x[2] |
| TrajectoryFacts.CounterInRange | Codigos_en_C/integracion.c:125-138 | with dt ≥ 0, 0 ≤ counter < 0.1 at the top of every iteration |
| TrajectoryFacts.FrameCount | Codigos_en_C/integracion.c:125-138 | after j steps there are at most j frames, and exactly j when dt ≥ 0.1 |
| TrajectoryFacts.FramesOnlyGrow | Codigos_en_C/integracion.c:125-138 | frames once written stay: earlier frame lists are prefixes of later ones |
| TrajectoryFacts.FrameTimes | Codigos_en_C/integracion.c:125-128 | with dt > 0, frame times strictly increase and precede the current step's time |
| TrajectoryFacts.FramesAreObservations | Codigos_en_C/integracion.c:125-136 | every frame is the observation of the run's state just after some earlier step, stamped with that step's time |
| TrajectoryFacts.AnchoredHeadFeelsNoForce | Codigos_en_C/funciones_oscilador.c:81-83 | anchored variant, N ≥ 2: bead 0's entries of both force buffers stay zero throughout a run |
| TrajectoryFacts.AnchoredHeadStillMoves | Codigos_en_C/integracion.c:34-36 | anchored variant, N ≥ 2: bead 0's next coordinate is x + b·(v·dt + dt·betta), because velocity and noise still apply |
| TrajectoryFacts.SingleAnchoredBeadForceGrows | Codigos_en_C/funciones_oscilador.c:110 | anchored variant with N = 1: because the F_nuevo buffer is never cleared at F[2], the state after step j ≥ 1 has F[2] = j·F_cte |
| TrajectoryFacts.RestChainStaysAtRest | Codigos_en_C/integracion.c:112-145 | free variant with α = 0 or T = 0, starting at rest (every bond of length L_0, zero velocity and force): every state of the run is at rest at the starting positions |
| TrajectoryFacts.RestStep | Codigos_en_C/integracion.c:112-124 | free variant without noise: one step from rest keeps the positions and ends at rest |
| TrajectoryFacts.RestAdvances | Codigos_en_C/integracion.c:112-121 | free variant without noise: from rest the new positions equal the old ones, so the step collapses no bond and is defined |
| TrajectoryFacts.RestChainField | Codigos_en_C/funciones_oscilador.c:46-75 | the free force on any chain whose bonds all have length L_0 is the zero vector |
| TrajectoryFacts.StraightChainBondsAtRest | Codigos_en_C/integracion.c:147-154 | every bond of the reset chain (beads one unit apart along x) has length L_0 |
| TrajectoryFacts.StraightChainField | Codigos_en_C/funciones_oscilador.c:46-75 | the free force on the straight chain is the zero vector |
| TrajectoryFacts.RunFrames | Codigos_en_C/integracion.c:125-138 | for a whole run: the counter bounds, the frame count bounds, every frame an observation, and increasing times |
| TrajectoryFacts.RunAnchoredHead | Codigos_en_C/funciones_oscilador.c:81-83 | for a whole anchored run with N ≥ 2, bead 0 feels no force in any state |
| TrajectoryFacts.RunSingleAnchoredBead | Codigos_en_C/funciones_oscilador.c:110 | for a whole anchored run with N = 1, every state j ≥ 1 has F[2] = j·F_cte |
| TrajectoryFacts.RestRunStaysAtRest | Codigos_en_C/integracion.c:112-154 | free variant with α = 0 or T = 0: a run from any chain whose bonds all have length L_0, such as the reset state, with zero velocity, stays at rest at its starting positions |
| TrajectoryFacts.RestRunExists | Codigos_en_C/integracion.c:112-145 | such a run is defined for every number of steps whose draws all have 3N entries |
| Text.Fields | Codigos_en_C/funciones_oscilador.c:261 | every whitespace-separated field is non-empty |
| Text.WordLength | Codigos_en_C/funciones_oscilador.c:261 | a token read by sscanf ends at the first isspace character (blank, tab, newline, \r, \v, \f) or terminator, and not before |
| Text.FormatInt | Codigos_en_C/integracion.c:236 | %d prints an optional '-' followed by digits |
| Text.ScanFormatted | Codigos_en_C/funciones_oscilador.c:406 | %d reads back the integer %d printed, whatever follows it |
| Text.ScanAfterSpace | Codigos_en_C/funciones_oscilador.c:406 | %d skips a leading blank |
| Reducer.ColumnWalkStops | Codigos_en_C/funciones_oscilador.c:256 | the walk across a column stops at the first blank, tab, terminator or newline, and not before |
| Reducer.GapWalkStops | Codigos_en_C/funciones_oscilador.c:257 | the walk over a gap stops at the first character that is neither blank nor tab, and not before |
| Reducer.SkipColumns | Codigos_en_C/funciones_oscilador.c:253-258 | the pointer ends where DropColumns, the column walk over 1 + 6N columns, ends |
| Reducer.ScanReading | Codigos_en_C/funciones_oscilador.c:261 | the four values are read if and only if there are at least five fields and the first five convert |
| Reducer.ScanLine | Codigos_en_C/funciones_oscilador.c:253-264 | a line's reading is exactly LineReading's: walk 1 + 6N columns, then convert Ek, Ep, (Et), Rg, Ree |
| Reducer.ProcessTrajectory | Codigos_en_C/funciones_oscilador.c:228-289 | the report is Unreadable for a file that does not open, NoData when no line is kept, and otherwise the summary of the kept readings, with the list of rejected line numbers |
| Reducer.Statistics | Codigos_en_C/funciones_oscilador.c:280-288 | from the eight sums, the means and errors are those of the kept readings |
| Reducer.TallyStep | Codigos_en_C/funciones_oscilador.c:249-271 | line number k is skipped when k ≤ N_start; otherwise it is kept or added to the rejected list |
| Reducer.AccumulateReading | Codigos_en_C/funciones_oscilador.c:266-270 | adding a reading adds its value and square to each pair of sums |
| Reducer.SummaryOfSums | Codigos_en_C/funciones_oscilador.c:280-288 | the summary is the count, and for each quantity the mean sum/n and error sqrt((sum2/n − mean²)/n) |
| Reducer.TallyCounts | Codigos_en_C/funciones_oscilador.c:249-271 | kept plus rejected lines are exactly the lines after N_start |
| Reducer.RejectedAreFailed | Codigos_en_C/funciones_oscilador.c:261-264 | a line number is reported if and only if it is after N_start and its reading fails |
| Reducer.RejectedIncreasing | Codigos_en_C/funciones_oscilador.c:249-264 | reported line numbers are strictly increasing |
| Reducer.VarianceIsDeviation | Codigos_en_C/funciones_oscilador.c:285-288 | sum2/n − mean² equals the mean squared deviation from the mean |
| Reducer.VarianceNonNegative | Codigos_en_C/funciones_oscilador.c:285-288 | the variance term, and that term divided by n, are ≥ 0 |
| Reducer.ErrorIsRoot | Codigos_en_C/funciones_oscilador.c:285-288 | the error is ≥ 0 and squares to variance / n |
| Reducer.ConstantInput | Codigos_en_C/funciones_oscilador.c:280-288 | constant readings c give mean c and error 0 |
| Reducer.MeanBetween | Codigos_en_C/funciones_oscilador.c:280-283 | the mean lies between any lower and upper bound of the readings |
| TrajectoryFile.FrameLines | Codigos_en_C/integracion.c:128-136 | one printed line per frame, in order |
| TrajectoryFile.FileLines | Codigos_en_C/integracion.c:87 | the file is the header line followed by one line per frame |
| TrajectoryFile.FrameLineRead | Codigos_en_C/integracion.c:128-136 | the reducer reads back from a printed frame line exactly its printed Ek, Ep, Rg and Ree |
| TrajectoryFile.FileRead | Codigos_en_C/funciones_oscilador.c:249-271 | from a written trajectory file, the reducer keeps the frames after the first N_start − 1 and rejects no line |
| TrajectoryFile.OutcomeReduced | Codigos_en_C/funciones_oscilador.c:233-279 | reducing a written file gives NoData when no frame is kept, and otherwise the summary of the kept frames with nothing rejected |
| TrajectoryFile.RunReduced | Codigos_en_C/funciones_oscilador.c:228-289 | reducing the file of any run gives NoData or the summary of its kept frames, with nothing rejected |
| Parameters.ReadParameterN | Codigos_en_C/funciones_oscilador.c:393-413 | returns −1 when the file does not open; otherwise ParameterN's value: the N of the first line starting with "N ", or −1 |
| Parameters.FirstNLine | Codigos_en_C/funciones_oscilador.c:403-408 | the first line starting with "N " decides, whatever follows |
| Parameters.NoNLine | Codigos_en_C/funciones_oscilador.c:401-412 | with no line starting with "N ", the result is −1 |
| Parameters.WrittenNRead | Codigos_en_C/integracion.c:226-236 | reading N from a parameter file as escribe_input_verlet writes it gives back the N it wrote |
| Graph.ReadResults | Codigos_en_C/funciones_oscilador.c:461-468 | the read loop leaves each variable at the value Collected, the fold of the dispatch over the lines, gives |
| Graph.GraphPoint | Codigos_en_C/funciones_oscilador.c:471-476 | anchored: a row exists if and only if F_cte, Prom_Ree and Error_Ree were read; free: if and only if N_particulas, Prom_Rg and Error_Rg were read |
| Graph.UnlabeledLines | Codigos_en_C/funciones_oscilador.c:461-468 | lines containing none of the six labels change nothing |
| Graph.LabeledRead | Codigos_en_C/funciones_oscilador.c:462-466 | "LABEL value" contains LABEL, and its sscanf reads the value |
| Graph.PromReeLine | Codigos_en_C/funciones_oscilador.c:464 | a PROMEDIO_R_EE line assigns Prom_Ree only, although "PROMEDIO_R_G" and "ERROR_R_G" are tested first |
| Graph.ErrReeLine | Codigos_en_C/funciones_oscilador.c:465 | an ERROR_R_EE line assigns Error_Ree only |
| Graph.PromRgLine | Codigos_en_C/funciones_oscilador.c:462 | a PROMEDIO_R_G line assigns Prom_Rg only |
| Graph.ErrRgLine | Codigos_en_C/funciones_oscilador.c:463 | an ERROR_R_G line assigns Error_Rg only |
| Graph.FCteLine | Codigos_en_C/funciones_oscilador.c:466 | an F_cte line assigns F_cte only |
| Graph.ParticlesLine | Codigos_en_C/funciones_oscilador.c:467 | an N_particulas line assigns the printed N only |
| Graph.EnergyLinesRead | Codigos_en_C/funciones_oscilador.c:316-319 | the four energy lines of the results file change nothing |
| Graph.SizeLinesRead | Codigos_en_C/funciones_oscilador.c:320-324 | the Ree and Rg lines (ERROR_R_G twice) set exactly the four size variables to the printed values |
| Graph.ResultsRead | Codigos_en_C/funciones_oscilador.c:316-328 | reading back a results file yields every value printed in it, and F_cte only in the anchored variant |
| Graph.SummaryGraphed | Codigos_en_C/funciones_oscilador.c:461-476 | the graph row of a results file is (F_cte, Prom_Ree, Error_Ree) when anchored and (N, Prom_Rg, Error_Rg) when free, each the printed value read back |

## Left out

- File and directory I/O is not modelled. This covers fopen, fgets, fprintf on real
  files, opendir/readdir, mkdir, output paths and console messages. A file is the list
  of its lines, or None when it cannot be opened. The trajectory output is the returned
  header and frames.
- `escribir_tiempo_en_ultimo_archivo`, `procesar_trayectorias_carpeta`, the
  "first free V_k.txt" search of `escribe_input_verlet`, and the directory walk of
  `generar_grafica` are not modelled. All of them are directory plumbing.
- Arithmetic is over Dafny reals, not IEEE doubles. Rounding is not modelled, and neither
  is whether the counter reaches 0.1 after an exact number of steps in doubles.
- sqrt is a parameter of the model. Members that need its meaning require
  `RealMath.IsSqrt(sqrt)`: it is non-negative and squares back on non-negative input.
  C's NaN for negative input is not modelled.
- A collapsed bond (r = 0) makes the force law divide by zero, and C silently produces
  NaN. That case is excluded by the precondition `BondsNonDegenerate`. A run whose step
  collapses a bond has no Trace, and the driver requires that its run has one.
- `gaussian()` and `inicializa_PR` come from code not part of this model. The
  standard-normal samples are the input `draws`: 3N per step, in the order the noise
  loop uses them.
- `%.6f` printing is the parameter `fmt`, `%g` is `gfmt`, and `%lf` conversion is
  `parseReal` applied to a whole whitespace-separated token. strtod's acceptance of a
  numeric prefix of a token is not modelled.
- The 256- and 32768-byte fgets buffers are not modelled. Lines longer than the buffer,
  which fgets splits, are read whole.
- The C code leaves `Prom_Rg`, `F_cte` and the other generar_grafica variables
  uninitialized. The model gives them None until they are assigned, and `GraphPoint` is
  None where C would print indeterminate values.
- The text of a grafica.txt row is not modelled; a row is a `Graph.Point` value.
- Only the head of the parameter file (comments, K, kb, Temperatura, alfa and the N line)
  is modelled. The lines after it are an arbitrary `rest`.
- `procesar_trayectoria` writes its results under an `ESCALA` folder even in the
  anchored build, while `generar_grafica` reads a `FIJOS` folder. This is directory I/O
  and is not modelled.
- `Fuerza_euler` has no body in the sources, and `Codigos_en_C/oscilador.c` is parameter
  sweeps and timing. The Python plotting scripts are not part of this model.
- A few preconditions are stronger than the C code, which has no guard at all: their
  callers always meet them (`Codigos_en_C/oscilador.c` sets m = 1, dt = 0.001, α = 0.5 and
  N ≥ 4). `Integrator.CoefficientsDefined` needs m ≠ 0 and 1 + α·dt/(2m) ≠ 0, so the
  coefficients a and b exist. `Trajectory.WellFormed` needs N ≥ 1.
  `Observables.RadiusOfGyration` needs N ≥ 1, where C would divide by zero.
- Text.ScanInt: reads %d into an unbounded integer. C's behaviour when the value
  overflows an int is not modelled.
- Trajectory.VerletTrajectory: it requires that its run never collapses a bond, because
  the C code then goes on with NaN values that the model does not represent.

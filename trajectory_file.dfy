/** The trajectory file as text: what verlet_trayectoria prints
    (integracion.c:87 and 125-138) and what procesar_trayectoria reads back
    from it.

    %.6f is the parameter fmt. The only thing the model needs of it is that
    it prints a number as a token of digits, '.' and '-' (NumericFormat),
    which holds for every finite double. parseReal is the %lf conversion,
    as in the reducer. */
module TrajectoryFile {
  import opened Wrappers
  import opened Text
  import opened Trajectory
  import opened TrajectoryFacts
  import opened Reducer

  /** fprintf(archivo, "%.6f %d\t%s\n", dt, pasos, filename_input). */
  function HeaderLine(h: Header, fmt: real -> string): string
  {
    fmt(h.dt) + " " + FormatInt(h.steps) + "\t" + h.input + "\n"
  }

  function Printed(vs: seq<real>, fmt: real -> string): (ts: seq<string>)
    ensures |ts| == |vs| && forall i :: 0 <= i < |vs| ==> ts[i] == fmt(vs[i])
  {
    seq(|vs|, i requires 0 <= i < |vs| => fmt(vs[i]))
  }

  /** The columns the reducer walks past: the time, 3N positions and 3N velocities. */
  function Lead(fr: Frame): seq<real>
  {
    [fr.time] + fr.x + fr.v
  }

  /** "%.6f" for the time, " %.6f" for each position and velocity, then
      " %.6f %.6f %.6f %.6f %.6f\n" for Ek, Ep, Et, Rg and Ree: every number
      but the last followed by one blank, the last by the newline. */
  function FrameLine(fr: Frame, fmt: real -> string): string
  {
    Spaced(Printed(Lead(fr), fmt)) + Spaced(Printed([fr.ek, fr.ep, fr.et, fr.rg], fmt)) + fmt(fr.ree) + "\n"
  }

  function FrameLines(frames: seq<Frame>, fmt: real -> string): (ls: seq<string>)
    ensures |ls| == |frames| && forall i :: 0 <= i < |frames| ==> ls[i] == FrameLine(frames[i], fmt)
  {
    seq(|frames|, i requires 0 <= i < |frames| => FrameLine(frames[i], fmt))
  }

  /** The lines of the file a run leaves behind; None when it was never opened. */
  function TrajectoryLines(out: Outcome, fmt: real -> string): Option<seq<string>>
  {
    match out
    case OpenFailed => None
    case Written(h, frames) => Some(FileLines(h, frames, fmt))
  }

  // ---------------------------------------------------------------------
  // Reading a frame line back
  // ---------------------------------------------------------------------

  /** A frame carries 3N positions and 3N velocities. */
  predicate FrameOf(fr: Frame, n: nat)
  {
    |fr.x| == 3 * n && |fr.v| == 3 * n
  }

  /** The reading the reducer should get from a frame: the printed and
      re-read Ek, Ep, Rg and Ree. */
  function FrameReading(fr: Frame, fmt: real -> string, parseReal: string -> Option<real>): Reading
    requires ParsesPrinted(fmt, parseReal)
  {
    Reading(Reread(fr.ek, fmt, parseReal), Reread(fr.ep, fmt, parseReal),
            Reread(fr.rg, fmt, parseReal), Reread(fr.ree, fmt, parseReal))
  }

  /** The column walk passes a printed number and the blank after it. */
  lemma DropToken(t: string, r: string)
    requires NumericToken(t)
    requires |r| == 0 || !IsGap(r[0])
    ensures DropGaps(DropColumn(t + (" " + r))) == r
  {
    DropTokenColumn(t, " " + r);
    DropBlank(r);
  }

  lemma DropBlank(r: string)
    requires |r| == 0 || !IsGap(r[0])
    ensures DropGaps(" " + r) == r
  {
    assert (" " + r)[1..] == r;
  }

  lemma {:induction false} DropTokenColumn(t: string, r: string)
    requires NumericToken(t)
    requires |r| >= 1 && EndsColumn(r[0])
    ensures DropColumn(t + r) == r
    decreases |t|
  {
    assert (t + r)[0] == t[0] && IsNumeral(t[0]);
    assert (t + r)[1..] == t[1..] + r;
    if |t| > 1 {
      DropTokenColumn(t[1..], r);
    }
  }

  /** Walking |ts| columns of spaced numbers leaves what follows them. */
  lemma {:induction false} DropSpaced(ts: seq<string>, r: string)
    requires forall i :: 0 <= i < |ts| ==> NumericToken(ts[i])
    requires |r| == 0 || !IsGap(r[0])
    ensures DropColumns(Spaced(ts) + r, |ts|) == r
  {
    if |ts| > 0 {
      var rest := Spaced(ts[1..]) + r;
      assert Spaced(ts) + r == ts[0] + (" " + rest);
      if |ts| > 1 {
        assert rest[0] == ts[1][0] && IsNumeral(ts[1][0]);
      } else {
        assert rest == r;
      }
      DropToken(ts[0], rest);
      DropSpaced(ts[1..], r);
    } else {
      assert Spaced(ts) + r == r;
    }
  }

  /** The reducer reads a frame line back as the frame's re-read Ek, Ep, Rg
      and Ree, whatever the chain's positions and velocities. */
  lemma FrameLineRead(fr: Frame, n: nat, fmt: real -> string, parseReal: string -> Option<real>)
    requires FrameOf(fr, n) && NumericFormat(fmt) && ParsesPrinted(fmt, parseReal)
    ensures LineReading(FrameLine(fr, fmt), n, parseReal) == Some(FrameReading(fr, fmt, parseReal))
  {
    var lead := Printed(Lead(fr), fmt);
    var tail := Spaced(Printed([fr.ek, fr.ep, fr.et, fr.rg], fmt)) + fmt(fr.ree) + "\n";
    assert FrameLine(fr, fmt) == Spaced(lead) + tail;
    assert |lead| == SkipCount(n);
    forall i | 0 <= i < |lead|
      ensures NumericToken(lead[i])
    {
      var v := Lead(fr)[i];
      assert NumericToken(fmt(v));
      assert lead[i] == fmt(v);
    }
    TailFields(fr, fmt);
    assert IsNumeral(tail[0]);
    DropSpaced(lead, tail);
  }

  /** The five numbers after the walked columns are the line's fields. */
  lemma TailFields(fr: Frame, fmt: real -> string)
    requires NumericFormat(fmt)
    ensures var tail := Spaced(Printed([fr.ek, fr.ep, fr.et, fr.rg], fmt)) + fmt(fr.ree) + "\n";
            tail[0] == fmt(fr.ek)[0] &&
            Fields(tail) == [fmt(fr.ek), fmt(fr.ep), fmt(fr.et), fmt(fr.rg), fmt(fr.ree)]
  {
    var ts := Printed([fr.ek, fr.ep, fr.et, fr.rg], fmt);
    var last := fmt(fr.ree) + "\n";
    assert Spaced(ts) + fmt(fr.ree) + "\n" == Spaced(ts) + last;
    FieldsOfSpaced(ts, last);
    FieldsOfLastToken(fmt(fr.ree));
    assert ts == [fmt(fr.ek), fmt(fr.ep), fmt(fr.et), fmt(fr.rg)];
    assert Spaced(ts) == fmt(fr.ek) + " " + Spaced(ts[1..]);
  }

  // ---------------------------------------------------------------------
  // Reading the whole file back
  // ---------------------------------------------------------------------

  /** The readings of the frames, in order. */
  function FrameReadings(frames: seq<Frame>, fmt: real -> string, parseReal: string -> Option<real>)
    : (rs: seq<Reading>)
    requires ParsesPrinted(fmt, parseReal)
    ensures |rs| == |frames| && forall i :: 0 <= i < |frames| ==> rs[i] == FrameReading(frames[i], fmt, parseReal)
  {
    seq(|frames|, i requires 0 <= i < |frames| => FrameReading(frames[i], fmt, parseReal))
  }

  /** The frames the reducer keeps: those after the first N_start - 1 (the
      header is line 1, so N_start lines hold the header and N_start - 1 frames). */
  function Kept(frames: seq<Frame>, nStart: int): seq<Frame>
    requires nStart >= 1
  {
    if nStart - 1 >= |frames| then [] else frames[nStart - 1..]
  }

  /** The header line and one line per frame. */
  function FileLines(h: Header, frames: seq<Frame>, fmt: real -> string): (ls: seq<string>)
    ensures |ls| == |frames| + 1
  {
    [HeaderLine(h, fmt)] + FrameLines(frames, fmt)
  }

  /** Dropping a file's last line drops its last frame. */
  lemma FileLinesSplit(h: Header, frames: seq<Frame>, fmt: real -> string)
    requires |frames| > 0
    ensures FileLines(h, frames, fmt)[..|frames|] == FileLines(h, frames[..|frames| - 1], fmt)
    ensures FileLines(h, frames, fmt)[|frames|] == FrameLine(frames[|frames| - 1], fmt)
  {
    var ls := FileLines(h, frames, fmt);
    var ps := FileLines(h, frames[..|frames| - 1], fmt);
    forall i | 0 <= i < |frames|
      ensures ls[i] == ps[i]
    {
      if i > 0 {
        assert ls[i] == FrameLine(frames[i - 1], fmt);
      }
    }
  }

  /** A further frame is kept exactly when the file has more than N_start lines. */
  lemma KeptStep(frames: seq<Frame>, nStart: int)
    requires nStart >= 1 && |frames| > 0
    ensures var prefix := frames[..|frames| - 1];
            if |frames| + 1 <= nStart then Kept(frames, nStart) == [] && Kept(prefix, nStart) == []
            else Kept(frames, nStart) == Kept(prefix, nStart) + [frames[|frames| - 1]]
  {
  }

  lemma FrameReadingsAppend(frames: seq<Frame>, fr: Frame, fmt: real -> string,
                            parseReal: string -> Option<real>)
    requires ParsesPrinted(fmt, parseReal)
    ensures FrameReadings(frames + [fr], fmt, parseReal)
            == FrameReadings(frames, fmt, parseReal) + [FrameReading(fr, fmt, parseReal)]
  {
  }

  /** Reducing a trajectory file: no line is rejected, and the readings kept
      are those of the frames past N_start - 1, in order. */
  lemma {:induction false} FileRead(h: Header, frames: seq<Frame>, n: nat, nStart: int,
                                    fmt: real -> string, parseReal: string -> Option<real>)
    requires nStart >= 1
    requires forall i :: 0 <= i < |frames| ==> FrameOf(frames[i], n)
    requires NumericFormat(fmt) && ParsesPrinted(fmt, parseReal)
    ensures Tallied(FileLines(h, frames, fmt), nStart, n, parseReal)
            == Tally(FrameReadings(Kept(frames, nStart), fmt, parseReal), [])
  {
    var lines := FileLines(h, frames, fmt);
    if |frames| == 0 {
      assert lines[..0] == [];
    } else {
      var k := |frames| - 1;
      var prefix := frames[..k];
      FileLinesSplit(h, frames, fmt);
      FileRead(h, prefix, n, nStart, fmt, parseReal);
      KeptStep(frames, nStart);
      if |lines| > nStart {
        FrameLineRead(frames[k], n, fmt, parseReal);
        FrameReadingsAppend(Kept(prefix, nStart), frames[k], fmt, parseReal);
      }
    }
  }

  /** What procesar_trayectoria reports for the file a run wrote: nothing
      rejected; no data when N_start - 1 covers every frame, otherwise the
      summary of the re-read frames past N_start - 1. */
  lemma OutcomeReduced(out: Outcome, n: nat, nStart: int, fmt: real -> string,
                       parseReal: string -> Option<real>, sqrt: real -> real)
    requires out.Written? && nStart >= 1
    requires forall i :: 0 <= i < |out.frames| ==> FrameOf(out.frames[i], n)
    requires NumericFormat(fmt) && ParsesPrinted(fmt, parseReal)
    ensures var rs := FrameReadings(Kept(out.frames, nStart), fmt, parseReal);
            Reduced(TrajectoryLines(out, fmt), nStart, n, parseReal, sqrt)
            == if |rs| == 0 then NoData([]) else Summarized([], Summarize(rs, sqrt))
  {
    FileRead(out.header, out.frames, n, nStart, fmt, parseReal);
  }

  /** Every frame a run records carries the chain's 3N positions and velocities. */
  lemma RecordedShape(cfg: Config, T: seq<State>, sqrt: real -> real, j: nat, fr: Frame)
    requires RecordedAt(cfg, T, sqrt, j, fr)
    ensures FrameOf(fr, cfg.n)
  {
    var p: nat :| p < j && p + 1 < |T| && cfg.n >= 1 && Shaped(cfg, T[p + 1]) &&
                  fr == Observe(cfg, Time(p, cfg.dt), T[p + 1].x, T[p + 1].v, sqrt);
  }

  /** The simulation and the reducer together: reducing the file
      verlet_trayectoria writes rejects no line and summarizes the re-read
      energies, Rg and Ree of the frames recorded after the first N_start - 1. */
  lemma RunReduced(cfg: Config, x0: seq<real>, v0: seq<real>, draws: seq<seq<real>>, sqrt: real -> real,
                   nStart: int, fmt: real -> string, parseReal: string -> Option<real>)
    requires WellFormed(cfg) && |x0| == 3 * cfg.n && |v0| == 3 * cfg.n
    requires Trace(cfg, x0, v0, draws, sqrt, StepCount(cfg.steps)).Some?
    requires nStart >= 1 && NumericFormat(fmt) && ParsesPrinted(fmt, parseReal)
    ensures var frames := Trace(cfg, x0, v0, draws, sqrt, StepCount(cfg.steps)).value[StepCount(cfg.steps)].frames;
            var rs := FrameReadings(Kept(frames, nStart), fmt, parseReal);
            Reduced(TrajectoryLines(Written(Header(cfg.dt, cfg.steps, cfg.input), frames), fmt),
                    nStart, cfg.n, parseReal, sqrt)
            == if |rs| == 0 then NoData([]) else Summarized([], Summarize(rs, sqrt))
  {
    var k := StepCount(cfg.steps);
    RunFrames(cfg, x0, v0, draws, sqrt, k);
    var T := Trace(cfg, x0, v0, draws, sqrt, k).value;
    var out := Written(Header(cfg.dt, cfg.steps, cfg.input), T[k].frames);
    forall i | 0 <= i < |out.frames|
      ensures FrameOf(out.frames[i], cfg.n)
    {
      RecordedShape(cfg, T, sqrt, k, T[k].frames[i]);
    }
    OutcomeReduced(out, cfg.n, nStart, fmt, parseReal, sqrt);
  }
}

/** procesar_trayectoria: the reduction of a trajectory file to averages and
    standard errors of Ek, Ep, Rg and Ree.

    The file is the sequence of lines fgets returns (each with its newline),
    or None when it cannot be opened. Line numbers start at 1 with the
    header, and lines 1..N_start are skipped. On every other line the column
    walk passes 1 + 6N columns (time, 3N positions, 3N velocities), and
    sscanf("%lf %lf %*lf %lf %lf") must then convert four values (Ek, Ep,
    Et skipped, Rg, Ree); a line where it does not is reported by number and
    left out. Text-to-number conversion is the parameter parseReal. */
module Reducer {
  import opened Wrappers
  import opened RealMath
  import opened Text

  /** The values kept from one line. */
  datatype Reading = Reading(ek: real, ep: real, rg: real, ree: real)

  /** The four averaged quantities. */
  datatype Quantity = Kinetic | Potential | Gyration | EndToEnd

  function Component(r: Reading, q: Quantity): real
  {
    match q
    case Kinetic => r.ek
    case Potential => r.ep
    case Gyration => r.rg
    case EndToEnd => r.ree
  }

  // ---------------------------------------------------------------------
  // The column walk
  // ---------------------------------------------------------------------

  /** Characters that stop the walk across a column: blank, tab, the C
      terminator and newline. */
  predicate EndsColumn(c: char)
  {
    c == ' ' || c == '\t' || c == '\0' || c == '\n'
  }

  /** Characters the walk skips between columns. */
  predicate IsGap(c: char)
  {
    c == ' ' || c == '\t'
  }

  function DropColumn(s: string): string
  {
    if |s| == 0 || EndsColumn(s[0]) then s else DropColumn(s[1..])
  }

  function DropGaps(s: string): string
  {
    if |s| == 0 || !IsGap(s[0]) then s else DropGaps(s[1..])
  }

  /** The walk across one column leaves the suffix of s from its first blank,
      tab, terminator or newline (nothing when it has none). */
  lemma {:induction false} ColumnWalkStops(s: string)
    ensures var r := DropColumn(s);
            && |r| <= |s| && r == s[|s| - |r|..]
            && (|r| == 0 || EndsColumn(r[0]))
            && forall j :: 0 <= j < |s| - |r| ==> !EndsColumn(s[j])
  {
    if |s| > 0 && !EndsColumn(s[0]) {
      ColumnWalkStops(s[1..]);
      var r := DropColumn(s);
      forall j | 1 <= j < |s| - |r|
        ensures !EndsColumn(s[j])
      {
        assert s[j] == s[1..][j - 1];
      }
    }
  }

  /** The walk over the gap after a column leaves the suffix of s from its
      first character that is neither blank nor tab. */
  lemma {:induction false} GapWalkStops(s: string)
    ensures var r := DropGaps(s);
            && |r| <= |s| && r == s[|s| - |r|..]
            && (|r| == 0 || !IsGap(r[0]))
            && forall j :: 0 <= j < |s| - |r| ==> IsGap(s[j])
  {
    if |s| > 0 && IsGap(s[0]) {
      GapWalkStops(s[1..]);
      var r := DropGaps(s);
      forall j | 1 <= j < |s| - |r|
        ensures IsGap(s[j])
      {
        assert s[j] == s[1..][j - 1];
      }
    }
  }

  /** What is left of s after the walk has passed k columns. */
  function DropColumns(s: string, k: nat): string
    decreases k
  {
    if k == 0 then s else DropColumns(DropGaps(DropColumn(s)), k - 1)
  }

  /** skip_cols = 1 + 3N + 3N; a non-positive count runs the walk zero times. */
  function SkipCount(n: int): nat
  {
    if 1 + 6 * n > 0 then 1 + 6 * n else 0
  }

  /** The pointer walk: position pos in line is where the retained columns
      begin. */
  method SkipColumns(line: string, cols: nat) returns (pos: nat)
    ensures pos <= |line| && line[pos..] == DropColumns(line, cols)
  {
    pos := 0;
    var i := 0;
    while i < cols
      invariant 0 <= i <= cols && pos <= |line|
      invariant DropColumns(line[pos..], cols - i) == DropColumns(line, cols)
    {
      ghost var start := pos;
      while pos < |line| && !EndsColumn(line[pos])
        invariant start <= pos <= |line|
        invariant DropColumn(line[pos..]) == DropColumn(line[start..])
      {
        assert line[pos..][1..] == line[pos + 1..];
        pos := pos + 1;
      }
      ghost var middle := pos;
      while pos < |line| && IsGap(line[pos])
        invariant middle <= pos <= |line|
        invariant DropGaps(line[pos..]) == DropGaps(line[middle..])
      {
        assert line[pos..][1..] == line[pos + 1..];
        pos := pos + 1;
      }
      assert DropGaps(DropColumn(line[start..])) == line[pos..];
      i := i + 1;
    }
  }

  // ---------------------------------------------------------------------
  // One line
  // ---------------------------------------------------------------------

  /** sscanf(rest, "%lf %lf %*lf %lf %lf", &Ek, &Ep, &Rg, &Ree) == 4: the
      first five fields all convert; the third is read and dropped. */
  function ScanReading(rest: string, parseReal: string -> Option<real>): (r: Option<Reading>)
    ensures r.Some? <==> |Fields(rest)| >= 5 &&
                         forall j :: 0 <= j < 5 ==> parseReal(Fields(rest)[j]).Some?
  {
    var fs := Fields(rest);
    if |fs| >= 5 && parseReal(fs[0]).Some? && parseReal(fs[1]).Some? && parseReal(fs[2]).Some?
       && parseReal(fs[3]).Some? && parseReal(fs[4]).Some?
    then Some(Reading(parseReal(fs[0]).value, parseReal(fs[1]).value,
                      parseReal(fs[3]).value, parseReal(fs[4]).value))
    else None
  }

  /** The reading a line yields for chain length n, or None when it is rejected. */
  function LineReading(line: string, n: int, parseReal: string -> Option<real>): Option<Reading>
  {
    ScanReading(DropColumns(line, SkipCount(n)), parseReal)
  }

  /** One line: the column walk, then the scan of what follows it. */
  method ScanLine(line: string, n: int, parseReal: string -> Option<real>) returns (reading: Option<Reading>)
    ensures reading == LineReading(line, n, parseReal)
  {
    var pos := SkipColumns(line, SkipCount(n));
    reading := ScanReading(line[pos..], parseReal);
  }

  // ---------------------------------------------------------------------
  // The whole file
  // ---------------------------------------------------------------------

  /** The readings kept and the line numbers reported, in file order. */
  datatype Tally = Tally(readings: seq<Reading>, rejected: seq<nat>)

  function Tallied(lines: seq<string>, nStart: int, n: int, parseReal: string -> Option<real>): Tally
  {
    if |lines| == 0 then Tally([], [])
    else
      var t := Tallied(lines[..|lines| - 1], nStart, n, parseReal);
      var number := |lines|;
      if number <= nStart then t
      else match LineReading(lines[number - 1], n, parseReal)
        case None => Tally(t.readings, t.rejected + [number])
        case Some(r) => Tally(t.readings + [r], t.rejected)
  }

  /** Sum and sum of squares of one quantity over the readings. */
  function Total(rs: seq<Reading>, q: Quantity): real
  {
    if |rs| == 0 then 0.0 else Total(rs[..|rs| - 1], q) + Component(rs[|rs| - 1], q)
  }

  function TotalSq(rs: seq<Reading>, q: Quantity): real
  {
    if |rs| == 0 then 0.0 else TotalSq(rs[..|rs| - 1], q) + Square(Component(rs[|rs| - 1], q))
  }

  /** An average and its standard error. */
  datatype Estimate = Estimate(mean: real, err: real)

  /** x / n_datos, the one division the reduction performs. */
  function PerReading(x: real, count: nat): real
    requires count >= 1
  {
    x / (count as real)
  }

  /** The variance term sum2 / n - prom^2. */
  function VarianceOf(sum: real, sumSq: real, count: nat): real
    requires count >= 1
  {
    PerReading(sumSq, count) - Square(PerReading(sum, count))
  }

  /** prom = sum / n and err = sqrt((sum2 / n - prom^2) / n). */
  function EstimateOf(sum: real, sumSq: real, count: nat, sqrt: real -> real): Estimate
    requires count >= 1
  {
    Estimate(PerReading(sum, count), sqrt(PerReading(VarianceOf(sum, sumSq, count), count)))
  }

  function Estimated(rs: seq<Reading>, q: Quantity, sqrt: real -> real): Estimate
    requires |rs| >= 1
  {
    EstimateOf(Total(rs, q), TotalSq(rs, q), |rs|, sqrt)
  }

  datatype Summary = Summary(count: nat, ek: Estimate, ep: Estimate, rg: Estimate, ree: Estimate)

  /** Unreadable: the file did not open; NoData: no line was kept (nothing
      is written); Summarized: the figures that go to the summary file. */
  datatype Report = Unreadable | NoData(rejected: seq<nat>) | Summarized(rejected: seq<nat>, summary: Summary)

  function Summarize(rs: seq<Reading>, sqrt: real -> real): Summary
    requires |rs| >= 1
  {
    Summary(|rs|, Estimated(rs, Kinetic, sqrt), Estimated(rs, Potential, sqrt),
            Estimated(rs, Gyration, sqrt), Estimated(rs, EndToEnd, sqrt))
  }

  function Reduced(file: Option<seq<string>>, nStart: int, n: int,
                   parseReal: string -> Option<real>, sqrt: real -> real): Report
  {
    if file.None? then Unreadable
    else
      var t := Tallied(file.value, nStart, n, parseReal);
      if |t.readings| == 0 then NoData(t.rejected) else Summarized(t.rejected, Summarize(t.readings, sqrt))
  }

  /** The reduction loop: eight moment accumulators and a count, updated line
      by line. */
  method ProcessTrajectory(file: Option<seq<string>>, nStart: int, n: int,
                           parseReal: string -> Option<real>, sqrt: real -> real)
    returns (report: Report)
    ensures report == Reduced(file, nStart, n, parseReal, sqrt)
  {
    if file.None? {
      return Unreadable;
    }
    var lines := file.value;
    var number := 0;
    var count := 0;
    var sumEk, sumEk2, sumEp, sumEp2 := 0.0, 0.0, 0.0, 0.0;
    var sumRg, sumRg2, sumRee, sumRee2 := 0.0, 0.0, 0.0, 0.0;
    var rejected: seq<nat> := [];
    ghost var kept: seq<Reading> := [];
    while number < |lines|
      invariant 0 <= number <= |lines|
      invariant Tallied(lines[..number], nStart, n, parseReal) == Tally(kept, rejected)
      invariant count == |kept|
      invariant Accumulated(kept, sumEk, sumEk2, sumEp, sumEp2, sumRg, sumRg2, sumRee, sumRee2)
    {
      var line := lines[number];
      number := number + 1;
      TallyStep(lines, number, nStart, n, parseReal);
      if number <= nStart {
        continue;
      }
      var reading := ScanLine(line, n, parseReal);
      if reading.None? {
        rejected := rejected + [number];
        continue;
      }
      var r := reading.value;
      AccumulateReading(kept, r, sumEk, sumEk2, sumEp, sumEp2, sumRg, sumRg2, sumRee, sumRee2);
      sumEk, sumEk2 := sumEk + r.ek, sumEk2 + Square(r.ek);
      sumEp, sumEp2 := sumEp + r.ep, sumEp2 + Square(r.ep);
      sumRg, sumRg2 := sumRg + r.rg, sumRg2 + Square(r.rg);
      sumRee, sumRee2 := sumRee + r.ree, sumRee2 + Square(r.ree);
      count := count + 1;
      kept := kept + [r];
    }
    assert lines[..number] == lines;
    if count == 0 {
      return NoData(rejected);
    }
    var summary := Statistics(kept, count, sqrt, sumEk, sumEk2, sumEp, sumEp2, sumRg, sumRg2, sumRee, sumRee2);
    report := Summarized(rejected, summary);
  }

  /** The means and the errors of the means from the nine accumulators. */
  method Statistics(ghost kept: seq<Reading>, count: int, sqrt: real -> real,
                    sumEk: real, sumEk2: real, sumEp: real, sumEp2: real,
                    sumRg: real, sumRg2: real, sumRee: real, sumRee2: real)
    returns (summary: Summary)
    requires count == |kept| >= 1
    requires Accumulated(kept, sumEk, sumEk2, sumEp, sumEp2, sumRg, sumRg2, sumRee, sumRee2)
    ensures summary == Summarize(kept, sqrt)
  {
    var promEk, promEp := PerReading(sumEk, count), PerReading(sumEp, count);
    var promRg, promRee := PerReading(sumRg, count), PerReading(sumRee, count);
    var errEk := sqrt(PerReading(PerReading(sumEk2, count) - Square(promEk), count));
    var errEp := sqrt(PerReading(PerReading(sumEp2, count) - Square(promEp), count));
    var errRg := sqrt(PerReading(PerReading(sumRg2, count) - Square(promRg), count));
    var errRee := sqrt(PerReading(PerReading(sumRee2, count) - Square(promRee), count));
    summary := Summary(count, Estimate(promEk, errEk), Estimate(promEp, errEp),
                       Estimate(promRg, errRg), Estimate(promRee, errRee));
    SummaryOfSums(kept, sqrt, sumEk, sumEk2, sumEp, sumEp2, sumRg, sumRg2, sumRee, sumRee2);
  }

  /** Line number `number` extends the tally of the lines before it. */
  lemma TallyStep(lines: seq<string>, number: nat, nStart: int, n: int, parseReal: string -> Option<real>)
    requires 1 <= number <= |lines|
    ensures var t := Tallied(lines[..number - 1], nStart, n, parseReal);
            Tallied(lines[..number], nStart, n, parseReal) ==
              if number <= nStart then t
              else match LineReading(lines[number - 1], n, parseReal)
                case None => Tally(t.readings, t.rejected + [number])
                case Some(r) => Tally(t.readings + [r], t.rejected)
  {
    assert lines[..number][..number - 1] == lines[..number - 1];
  }

  /** The eight accumulators hold the sums and sums of squares of the readings. */
  ghost predicate Accumulated(rs: seq<Reading>, sEk: real, sEk2: real, sEp: real, sEp2: real,
                              sRg: real, sRg2: real, sRee: real, sRee2: real)
  {
    && sEk == Total(rs, Kinetic) && sEk2 == TotalSq(rs, Kinetic)
    && sEp == Total(rs, Potential) && sEp2 == TotalSq(rs, Potential)
    && sRg == Total(rs, Gyration) && sRg2 == TotalSq(rs, Gyration)
    && sRee == Total(rs, EndToEnd) && sRee2 == TotalSq(rs, EndToEnd)
  }

  /** Adding a reading's values and squares keeps the accumulators exact. */
  lemma AccumulateReading(rs: seq<Reading>, r: Reading, sEk: real, sEk2: real, sEp: real, sEp2: real,
                          sRg: real, sRg2: real, sRee: real, sRee2: real)
    requires Accumulated(rs, sEk, sEk2, sEp, sEp2, sRg, sRg2, sRee, sRee2)
    ensures Accumulated(rs + [r], sEk + r.ek, sEk2 + Square(r.ek), sEp + r.ep, sEp2 + Square(r.ep),
                        sRg + r.rg, sRg2 + Square(r.rg), sRee + r.ree, sRee2 + Square(r.ree))
  {
    assert (rs + [r])[..|rs|] == rs;
  }

  /** From exact accumulators the closing formulas give the summary. */
  lemma SummaryOfSums(rs: seq<Reading>, sqrt: real -> real, sEk: real, sEk2: real, sEp: real, sEp2: real,
                      sRg: real, sRg2: real, sRee: real, sRee2: real)
    requires |rs| >= 1
    requires Accumulated(rs, sEk, sEk2, sEp, sEp2, sRg, sRg2, sRee, sRee2)
    ensures Summarize(rs, sqrt) == Summary(|rs|, EstimateOf(sEk, sEk2, |rs|, sqrt), EstimateOf(sEp, sEp2, |rs|, sqrt),
                                           EstimateOf(sRg, sRg2, |rs|, sqrt), EstimateOf(sRee, sRee2, |rs|, sqrt))
  {
  }

  // ---------------------------------------------------------------------
  // Which lines count
  // ---------------------------------------------------------------------

  /** The number of lines past N_start. */
  function Considered(lineCount: nat, nStart: int): nat
  {
    if nStart <= 0 then lineCount else if nStart >= lineCount then 0 else lineCount - nStart
  }

  /** Every line past N_start is either kept or reported, never both. */
  lemma {:induction false} TallyCounts(lines: seq<string>, nStart: int, n: int,
                                       parseReal: string -> Option<real>)
    ensures var t := Tallied(lines, nStart, n, parseReal);
            |t.readings| + |t.rejected| == Considered(|lines|, nStart)
  {
    if |lines| > 0 {
      TallyCounts(lines[..|lines| - 1], nStart, n, parseReal);
    }
  }

  /** Line `number` (counted from 1) lies past N_start and its reading fails. */
  predicate FailedLine(lines: seq<string>, nStart: int, n: int, parseReal: string -> Option<real>, number: int)
  {
    nStart < number && 1 <= number <= |lines| && LineReading(lines[number - 1], n, parseReal).None?
  }

  /** The reported numbers are exactly the unreadable lines past N_start. */
  lemma {:induction false} RejectedAreFailed(lines: seq<string>, nStart: int, n: int,
                                                 parseReal: string -> Option<real>)
    ensures var t := Tallied(lines, nStart, n, parseReal);
            forall number :: number in t.rejected <==> FailedLine(lines, nStart, n, parseReal, number)
  {
    if |lines| > 0 {
      var prefix := lines[..|lines| - 1];
      RejectedAreFailed(prefix, nStart, n, parseReal);
      forall number | 1 <= number < |lines|
        ensures FailedLine(lines, nStart, n, parseReal, number) == FailedLine(prefix, nStart, n, parseReal, number)
      {
        assert lines[number - 1] == prefix[number - 1];
      }
      var t, tp := Tallied(lines, nStart, n, parseReal), Tallied(prefix, nStart, n, parseReal);
      var last := |lines|;
      assert !FailedLine(prefix, nStart, n, parseReal, last);
      if last > nStart && LineReading(lines[last - 1], n, parseReal).None? {
        assert t.rejected == tp.rejected + [last];
        assert FailedLine(lines, nStart, n, parseReal, last);
      } else {
        assert t.rejected == tp.rejected;
        assert !FailedLine(lines, nStart, n, parseReal, last);
      }
    }
  }

  /** Strictly increasing numbers, none above bound. */
  predicate IncreasingUpTo(ns: seq<nat>, bound: int)
  {
    (forall j :: 0 <= j < |ns| ==> ns[j] <= bound) &&
    (forall j, j' :: 0 <= j < j' < |ns| ==> ns[j] < ns[j'])
  }

  /** The reported numbers are in increasing order, as the lines are read. */
  lemma {:induction false} RejectedIncreasing(lines: seq<string>, nStart: int, n: int,
                                              parseReal: string -> Option<real>)
    ensures IncreasingUpTo(Tallied(lines, nStart, n, parseReal).rejected, |lines|)
  {
    if |lines| > 0 {
      var prefix := lines[..|lines| - 1];
      RejectedIncreasing(prefix, nStart, n, parseReal);
      var before := Tallied(prefix, nStart, n, parseReal).rejected;
      var after := Tallied(lines, nStart, n, parseReal).rejected;
      assert after == before || after == before + [|lines|];
      if after != before {
        AppendIncreasing(before, |prefix|, |lines|);
      }
    }
  }

  lemma AppendIncreasing(ns: seq<nat>, bound: int, next: nat)
    requires IncreasingUpTo(ns, bound) && bound < next
    ensures IncreasingUpTo(ns + [next], next)
  {
  }

  // ---------------------------------------------------------------------
  // Statistics
  // ---------------------------------------------------------------------

  /** The average of quantity q over the readings. */
  function Mean(rs: seq<Reading>, q: Quantity): real
    requires |rs| >= 1
  {
    PerReading(Total(rs, q), |rs|)
  }

  /** The variance term of quantity q over the readings. */
  function Variance(rs: seq<Reading>, q: Quantity): real
    requires |rs| >= 1
  {
    VarianceOf(Total(rs, q), TotalSq(rs, q), |rs|)
  }

  /** The sum of squared deviations from c. */
  function Deviation(rs: seq<Reading>, q: Quantity, c: real): (d: real)
    ensures d >= 0.0
  {
    if |rs| == 0 then 0.0 else Deviation(rs[..|rs| - 1], q, c) + Square(Component(rs[|rs| - 1], q) - c)
  }

  /** The sum of c v over the readings. */
  function Cross(rs: seq<Reading>, q: Quantity, c: real): real
  {
    if |rs| == 0 then 0.0 else Cross(rs[..|rs| - 1], q, c) + Product(c, Component(rs[|rs| - 1], q))
  }

  /** sum (v - c)^2 = sum2 - 2 sum (c v) + n c^2. */
  lemma {:induction false} DeviationSplit(rs: seq<Reading>, q: Quantity, c: real)
    ensures Deviation(rs, q, c) == TotalSq(rs, q) - 2.0 * Cross(rs, q, c) + Multiple(|rs|, Square(c))
  {
    if |rs| > 0 {
      DeviationSplit(rs[..|rs| - 1], q, c);
      SquareOfDifference(Component(rs[|rs| - 1], q), c);
    }
  }

  lemma SquareOfDifference(v: real, c: real)
    ensures Square(v - c) == Square(v) - 2.0 * Product(c, v) + Square(c)
  {
  }

  /** sum (c v) = c sum. */
  lemma {:induction false} CrossIsProduct(rs: seq<Reading>, q: Quantity, c: real)
    ensures Cross(rs, q, c) == Product(c, Total(rs, q))
  {
    if |rs| > 0 {
      var p := rs[..|rs| - 1];
      CrossIsProduct(p, q, c);
      Distribute(c, Total(p, q), Component(rs[|rs| - 1], q));
    }
  }

  lemma Distribute(c: real, a: real, b: real)
    ensures Product(c, a + b) == Product(c, a) + Product(c, b)
  {
  }

  /** With m = s / n: m s = n m^2. */
  lemma MeanCross(s: real, k: nat)
    requires k >= 1
    ensures Product(PerReading(s, k), s) == Multiple(k, Square(PerReading(s, k)))
  {
    var m := PerReading(s, k);
    MultipleIsProduct(k, Square(m));
    assert s == (k as real) * m;
  }

  /** About the average: sum (v - prom)^2 = sum2 - n prom^2. */
  lemma DeviationAtMean(rs: seq<Reading>, q: Quantity)
    requires |rs| >= 1
    ensures Deviation(rs, q, Mean(rs, q)) == TotalSq(rs, q) - Multiple(|rs|, Square(Mean(rs, q)))
  {
    DeviationSplit(rs, q, Mean(rs, q));
    CrossIsProduct(rs, q, Mean(rs, q));
    MeanCross(Total(rs, q), |rs|);
  }

  /** (a - k t) / k = a / k - t. */
  lemma PerReadingShifted(a: real, t: real, k: nat)
    requires k >= 1
    ensures PerReading(a - Multiple(k, t), k) == PerReading(a, k) - t
  {
    MultipleIsProduct(k, t);
    DivideShifted(a, -t, k as real);
    assert a - (k as real) * t == a + (k as real) * (-t);
  }

  /** The variance term equals the mean squared deviation from the average. */
  lemma VarianceIsDeviation(rs: seq<Reading>, q: Quantity)
    requires |rs| >= 1
    ensures Variance(rs, q) == PerReading(Deviation(rs, q, Mean(rs, q)), |rs|)
  {
    DeviationAtMean(rs, q);
    PerReadingShifted(TotalSq(rs, q), Square(Mean(rs, q)), |rs|);
  }

  /** So the variance term is never negative, and neither is the argument of
      the square root in the standard error. */
  lemma VarianceNonNegative(rs: seq<Reading>, q: Quantity)
    requires |rs| >= 1
    ensures Variance(rs, q) >= 0.0
    ensures PerReading(Variance(rs, q), |rs|) >= 0.0
  {
    VarianceIsDeviation(rs, q);
    NonNegativeQuotient(Deviation(rs, q, Mean(rs, q)), |rs|);
    NonNegativeQuotient(Variance(rs, q), |rs|);
  }

  lemma NonNegativeQuotient(a: real, k: nat)
    requires a >= 0.0 && k >= 1
    ensures PerReading(a, k) >= 0.0
  {
  }

  /** The standard error is a real root: non-negative, and its square is the
      variance term over n. */
  lemma ErrorIsRoot(rs: seq<Reading>, q: Quantity, sqrt: real -> real)
    requires |rs| >= 1 && IsSqrt(sqrt)
    ensures Estimated(rs, q, sqrt).err >= 0.0
    ensures Estimated(rs, q, sqrt).err * Estimated(rs, q, sqrt).err == PerReading(Variance(rs, q), |rs|)
  {
    VarianceNonNegative(rs, q);
  }

  /** Readings whose quantity q is c everywhere average to c with zero error. */
  lemma ConstantInput(rs: seq<Reading>, q: Quantity, c: real, sqrt: real -> real)
    requires |rs| >= 1 && IsSqrt(sqrt)
    requires forall i :: 0 <= i < |rs| ==> Component(rs[i], q) == c
    ensures Estimated(rs, q, sqrt) == Estimate(c, 0.0)
  {
    ConstantTotals(rs, q, c);
    MeanOfMultiple(c, |rs|);
    MeanOfMultiple(Square(c), |rs|);
    ZeroDividend(|rs| as real);
    SqrtZero(sqrt);
  }

  lemma {:induction false} ConstantTotals(rs: seq<Reading>, q: Quantity, c: real)
    requires forall i :: 0 <= i < |rs| ==> Component(rs[i], q) == c
    ensures Total(rs, q) == Multiple(|rs|, c)
    ensures TotalSq(rs, q) == Multiple(|rs|, Square(c))
  {
    if |rs| > 0 {
      ConstantTotals(rs[..|rs| - 1], q, c);
    }
  }

  /** The average lies between bounds every reading respects. */
  lemma MeanBetween(rs: seq<Reading>, q: Quantity, lo: real, hi: real, sqrt: real -> real)
    requires |rs| >= 1
    requires forall i :: 0 <= i < |rs| ==> lo <= Component(rs[i], q) <= hi
    ensures lo <= Estimated(rs, q, sqrt).mean <= hi
  {
    BoundedTotal(rs, q, lo, hi);
    MeanOfMultiple(lo, |rs|);
    MeanOfMultiple(hi, |rs|);
    DivideMonotone(Multiple(|rs|, lo), Total(rs, q), |rs|);
    DivideMonotone(Total(rs, q), Multiple(|rs|, hi), |rs|);
  }

  lemma {:induction false} BoundedTotal(rs: seq<Reading>, q: Quantity, lo: real, hi: real)
    requires forall i :: 0 <= i < |rs| ==> lo <= Component(rs[i], q) <= hi
    ensures Multiple(|rs|, lo) <= Total(rs, q) <= Multiple(|rs|, hi)
  {
    if |rs| > 0 {
      BoundedTotal(rs[..|rs| - 1], q, lo, hi);
    }
  }

  lemma DivideMonotone(a: real, b: real, k: nat)
    requires a <= b && k >= 1
    ensures PerReading(a, k) <= PerReading(b, k)
  {
  }
}

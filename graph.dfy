/** The results file procesar_trayectoria writes for one trajectory
    (funciones_oscilador.c:316-328) and generar_grafica's reading of it
    (funciones_oscilador.c:461-476): a line is routed by the first label it
    contains, in a fixed order, to one sscanf, and the values found make one
    row of grafica.txt. */
module Graph {
  import opened Wrappers
  import opened Text
  import opened Forces
  import opened Reducer

  // ---------------------------------------------------------------------
  // The results file
  // ---------------------------------------------------------------------

  /** One "<LABEL> <value>\n" line. */
  function Labeled(name: string, value: string): string
  {
    name + " " + value + "\n"
  }

  /** The summary of one trajectory, each number "%.6f" and N as "%d":
      the energies, Ree and Rg with their errors (ERROR_R_G twice), N, and
      F_cte only when the chain is anchored. */
  function ResultLines(s: Summary, n: int, mode: ForceMode, fmt: real -> string): seq<string>
  {
    EnergyLines(s, fmt) + SizeLines(s, fmt) + [Labeled("N_particulas", FormatInt(n))] + ForceLines(mode, fmt)
  }

  function EnergyLines(s: Summary, fmt: real -> string): seq<string>
  {
    [ Labeled("PROMEDIO_ENERGIA_CINETICA", fmt(s.ek.mean)),
      Labeled("ERROR_ENERGIA_CINETICA", fmt(s.ek.err)),
      Labeled("PROMEDIO_ENERGIA_POTENCIAL", fmt(s.ep.mean)),
      Labeled("ERROR_ENERGIA_POTENCIAL", fmt(s.ep.err)) ]
  }

  function SizeLines(s: Summary, fmt: real -> string): seq<string>
  {
    [ Labeled("PROMEDIO_R_EE", fmt(s.ree.mean)),
      Labeled("ERROR_R_EE", fmt(s.ree.err)),
      Labeled("PROMEDIO_R_G", fmt(s.rg.mean)),
      Labeled("ERROR_R_G", fmt(s.rg.err)),
      Labeled("ERROR_R_G", fmt(s.rg.err)) ]
  }

  function ForceLines(mode: ForceMode, fmt: real -> string): seq<string>
  {
    if mode.Anchored? then [Labeled("F_cte", fmt(mode.fcte))] else []
  }

  // ---------------------------------------------------------------------
  // Reading it back
  // ---------------------------------------------------------------------

  /** Prom_Rg, Error_Rg, Prom_Ree, Error_Ree, F_cte and N_particulas; None
      while a variable has never been assigned (the C leaves them
      uninitialized). */
  datatype Readouts = Readouts(promRg: Option<real>, errRg: Option<real>,
                               promRee: Option<real>, errRee: Option<real>,
                               fCte: Option<real>, particles: Option<int>)

  const Unset := Readouts(None, None, None, None, None, None)

  /** sscanf(line, "<label> %lf", &x): the label must open the line and a
      number must follow it; None when the conversion fails. */
  function ScanLabeledReal(line: string, name: string, parseReal: string -> Option<real>): Option<real>
  {
    if name <= line then
      var fs := Fields(line[|name|..]);
      if |fs| >= 1 then parseReal(fs[0]) else None
    else None
  }

  /** sscanf(line, "<label> %d", &x). */
  function ScanLabeledInt(line: string, name: string): Option<int>
  {
    if name <= line then ScanInt(line[|name|..]) else None
  }

  /** A failed conversion leaves the variable as it was. */
  function Assigned<T>(old_: Option<T>, scanned: Option<T>): Option<T>
  {
    if scanned.Some? then scanned else old_
  }

  /** The else-if chain: the first label the line contains picks the one
      variable the line may set. */
  function Dispatch(line: string, r: Readouts, parseReal: string -> Option<real>): Readouts
  {
    if Contains(line, "PROMEDIO_R_G") then
      r.(promRg := Assigned(r.promRg, ScanLabeledReal(line, "PROMEDIO_R_G", parseReal)))
    else if Contains(line, "ERROR_R_G") then
      r.(errRg := Assigned(r.errRg, ScanLabeledReal(line, "ERROR_R_G", parseReal)))
    else if Contains(line, "PROMEDIO_R_EE") then
      r.(promRee := Assigned(r.promRee, ScanLabeledReal(line, "PROMEDIO_R_EE", parseReal)))
    else if Contains(line, "ERROR_R_EE") then
      r.(errRee := Assigned(r.errRee, ScanLabeledReal(line, "ERROR_R_EE", parseReal)))
    else if Contains(line, "F_cte") then
      r.(fCte := Assigned(r.fCte, ScanLabeledReal(line, "F_cte", parseReal)))
    else if Contains(line, "N_particulas") then
      r.(particles := Assigned(r.particles, ScanLabeledInt(line, "N_particulas")))
    else r
  }

  /** The variables after reading every line, in order, from start. */
  function Collected(lines: seq<string>, start: Readouts, parseReal: string -> Option<real>): Readouts
  {
    if |lines| == 0 then start
    else Dispatch(lines[|lines| - 1], Collected(lines[..|lines| - 1], start, parseReal), parseReal)
  }

  /** The fgets loop over one results file. */
  method ReadResults(lines: seq<string>, parseReal: string -> Option<real>) returns (r: Readouts)
    ensures r == Collected(lines, Unset, parseReal)
  {
    var promRg, errRg, promRee, errRee, fCte: Option<real> := None, None, None, None, None;
    var particles: Option<int> := None;
    var i := 0;
    while i < |lines|
      invariant 0 <= i <= |lines|
      invariant Readouts(promRg, errRg, promRee, errRee, fCte, particles) == Collected(lines[..i], Unset, parseReal)
    {
      var line := lines[i];
      assert lines[..i + 1][..i] == lines[..i];
      var scanned: Option<real>;
      if Contains(line, "PROMEDIO_R_G") {
        scanned := ScanLabeledReal(line, "PROMEDIO_R_G", parseReal);
        if scanned.Some? { promRg := scanned; }
      } else if Contains(line, "ERROR_R_G") {
        scanned := ScanLabeledReal(line, "ERROR_R_G", parseReal);
        if scanned.Some? { errRg := scanned; }
      } else if Contains(line, "PROMEDIO_R_EE") {
        scanned := ScanLabeledReal(line, "PROMEDIO_R_EE", parseReal);
        if scanned.Some? { promRee := scanned; }
      } else if Contains(line, "ERROR_R_EE") {
        scanned := ScanLabeledReal(line, "ERROR_R_EE", parseReal);
        if scanned.Some? { errRee := scanned; }
      } else if Contains(line, "F_cte") {
        scanned := ScanLabeledReal(line, "F_cte", parseReal);
        if scanned.Some? { fCte := scanned; }
      } else if Contains(line, "N_particulas") {
        var n := ScanLabeledInt(line, "N_particulas");
        if n.Some? { particles := n; }
      }
      i := i + 1;
    }
    assert lines[..i] == lines;
    r := Readouts(promRg, errRg, promRee, errRee, fCte, particles);
  }

  // ---------------------------------------------------------------------
  // The row of grafica.txt
  // ---------------------------------------------------------------------

  /** "%.6f %.6f %.6f\n" of F_cte, Prom_Ree, Error_Ree when the chain is
      anchored; "%d %.6f %.6f\n" of N_particulas, Prom_Rg, Error_Rg otherwise. */
  datatype Point = ForcePoint(fCte: real, promRee: real, errRee: real)
                 | SizePoint(particles: int, promRg: real, errRg: real)

  /** The row a results file gives; None when a value it prints was never
      assigned, where the C prints an indeterminate value. */
  function GraphPoint(r: Readouts, fixed: bool): (p: Option<Point>)
    ensures fixed ==> (p.Some? <==> r.fCte.Some? && r.promRee.Some? && r.errRee.Some?)
    ensures !fixed ==> (p.Some? <==> r.particles.Some? && r.promRg.Some? && r.errRg.Some?)
  {
    if fixed then
      if r.fCte.Some? && r.promRee.Some? && r.errRee.Some? then
        Some(ForcePoint(r.fCte.value, r.promRee.value, r.errRee.value))
      else None
    else if r.particles.Some? && r.promRg.Some? && r.errRg.Some? then
      Some(SizePoint(r.particles.value, r.promRg.value, r.errRg.value))
    else None
  }

  // ---------------------------------------------------------------------
  // Properties
  // ---------------------------------------------------------------------

  /** Reading a + b is reading a, then b from where a left off. */
  lemma {:induction false} CollectedJoin(a: seq<string>, b: seq<string>, start: Readouts,
                                         parseReal: string -> Option<real>)
    ensures Collected(a + b, start, parseReal) == Collected(b, Collected(a, start, parseReal), parseReal)
    decreases |b|
  {
    if |b| == 0 {
      assert a + b == a;
    } else {
      var b' := b[..|b| - 1];
      assert (a + b)[..|a + b| - 1] == a + b';
      assert (a + b)[|a + b| - 1] == b[|b| - 1];
      CollectedJoin(a, b', start, parseReal);
    }
  }

  lemma CollectedStep(lines: seq<string>, i: nat, start: Readouts, parseReal: string -> Option<real>)
    requires i < |lines|
    ensures Collected(lines[..i + 1], start, parseReal)
            == Dispatch(lines[i], Collected(lines[..i], start, parseReal), parseReal)
  {
    assert lines[..i + 1][..i] == lines[..i];
  }

  /** Lines holding none of the six labels set nothing. */
  lemma {:induction false} UnlabeledLines(lines: seq<string>, start: Readouts,
                                          parseReal: string -> Option<real>)
    requires forall i :: 0 <= i < |lines| ==> Unlabeled(lines[i])
    ensures Collected(lines, start, parseReal) == start
  {
    if |lines| > 0 {
      UnlabeledLines(lines[..|lines| - 1], start, parseReal);
    }
  }

  /** The characters labels are made of; printed numbers, blanks and
      newlines have none of them. */
  predicate IsLabelChar(c: char)
  {
    'A' <= c <= 'Z' || 'a' <= c <= 'z' || c == '_'
  }

  /** A label the results file does not contain is not found in a line
      because of the number after it. */
  lemma LabeledLacks(name: string, tok: string, key: string)
    requires NumericToken(tok) && |key| >= 1
    requires forall j :: 0 <= j < |key| ==> IsLabelChar(key[j])
    requires !Contains(name, key)
    ensures !Contains(Labeled(name, tok), key)
  {
    var rest := " " + tok + "\n";
    assert Labeled(name, tok) == name + rest;
    forall j | 0 <= j < |key|
      ensures key[j] !in rest
    {
      forall i | 0 <= i < |rest|
        ensures rest[i] != key[j]
      {
        if 0 < i < |rest| - 1 {
          assert rest[i] == tok[i - 1];
        }
      }
    }
    if Contains(name + rest, key) {
      ContainedInHead(name, rest, key);
    }
  }

  /** A line that opens with its label contains it, and the conversion
      after the label reads the printed number. */
  lemma LabeledRead(name: string, tok: string, parseReal: string -> Option<real>)
    requires NumericToken(tok)
    ensures Contains(Labeled(name, tok), name)
    ensures ScanLabeledReal(Labeled(name, tok), name, parseReal) == parseReal(tok)
  {
    var line := Labeled(name, tok);
    PrefixContained(line, name);
    assert line[|name|..] == " " + (tok + "\n");
    assert (" " + (tok + "\n"))[1..] == tok + "\n";
    FieldsOfLastToken(tok);
  }

  lemma LacksChar(s: string, k: string, j: nat)
    requires j < |k| && k[j] !in s
    ensures !Contains(s, k)
  {
    if Contains(s, k) {
      ContainedChar(s, k, j);
    }
  }

  lemma LacksPair(s: string, k: string, j: nat)
    requires j + 1 < |k| && !HasPair(s, k[j], k[j + 1])
    ensures !Contains(s, k)
  {
    if Contains(s, k) {
      ContainedPair(s, k, j);
    }
  }

  /** None of the six labels occurs in s. */
  predicate Unlabeled(s: string)
  {
    && !Contains(s, "PROMEDIO_R_G") && !Contains(s, "ERROR_R_G")
    && !Contains(s, "PROMEDIO_R_EE") && !Contains(s, "ERROR_R_EE")
    && !Contains(s, "F_cte") && !Contains(s, "N_particulas")
  }

  /** Every R_G and R_EE label holds "R_"; F_cte holds 'F' and N_particulas 'p'. */
  lemma WithoutRUnderscore(name: string)
    requires !HasPair(name, 'R', '_') && 'F' !in name && 'p' !in name
    ensures Unlabeled(name)
  {
    LacksPair(name, "PROMEDIO_R_G", 9);
    LacksPair(name, "ERROR_R_G", 4);
    LacksPair(name, "PROMEDIO_R_EE", 9);
    LacksPair(name, "ERROR_R_EE", 4);
    LacksChar(name, "F_cte", 0);
    LacksChar(name, "N_particulas", 2);
  }

  /** Every R_G and R_EE label also holds "_R". */
  lemma WithoutUnderscoreR(name: string)
    requires !HasPair(name, '_', 'R') && 'F' !in name && 'p' !in name
    ensures Unlabeled(name)
  {
    LacksPair(name, "PROMEDIO_R_G", 8);
    LacksPair(name, "ERROR_R_G", 5);
    LacksPair(name, "PROMEDIO_R_EE", 8);
    LacksPair(name, "ERROR_R_EE", 5);
    LacksChar(name, "F_cte", 0);
    LacksChar(name, "N_particulas", 2);
  }

  /** Neither energy mean label holds "R_" or a routing label. */
  lemma EnergyMeanLabel(name: string)
    requires name == "PROMEDIO_ENERGIA_CINETICA" || name == "PROMEDIO_ENERGIA_POTENCIAL"
    ensures Unlabeled(name)
  {
    forall i | 0 <= i < |name| - 1
      ensures !PairAt(name, 'R', '_', i)
    {
    }
    WithoutRUnderscore(name);
  }

  /** Neither energy error label holds "_R" or a routing label. */
  lemma EnergyErrorLabel(name: string)
    requires name == "ERROR_ENERGIA_CINETICA" || name == "ERROR_ENERGIA_POTENCIAL"
    ensures Unlabeled(name)
  {
    forall i | 0 <= i < |name| - 1
      ensures !PairAt(name, '_', 'R', i)
    {
    }
    WithoutUnderscoreR(name);
  }

  lemma RouteLabels()
    ensures !Contains("PROMEDIO_R_EE", "PROMEDIO_R_G") && !Contains("PROMEDIO_R_EE", "ERROR_R_G")
    ensures !Contains("ERROR_R_EE", "PROMEDIO_R_G") && !Contains("ERROR_R_EE", "ERROR_R_G")
    ensures !Contains("ERROR_R_EE", "PROMEDIO_R_EE")
    ensures !Contains("ERROR_R_G", "PROMEDIO_R_G")
  {
    LacksChar("PROMEDIO_R_EE", "PROMEDIO_R_G", 11);
    LacksChar("PROMEDIO_R_EE", "ERROR_R_G", 8);
    LacksChar("ERROR_R_EE", "PROMEDIO_R_G", 0);
    LacksChar("ERROR_R_EE", "ERROR_R_G", 8);
    LacksChar("ERROR_R_EE", "PROMEDIO_R_EE", 0);
    LacksChar("ERROR_R_G", "PROMEDIO_R_G", 0);
  }

  lemma TrailingLabels()
    ensures !Contains("N_particulas", "PROMEDIO_R_G") && !Contains("N_particulas", "ERROR_R_G")
    ensures !Contains("N_particulas", "PROMEDIO_R_EE") && !Contains("N_particulas", "ERROR_R_EE")
    ensures !Contains("N_particulas", "F_cte")
    ensures !Contains("F_cte", "PROMEDIO_R_G") && !Contains("F_cte", "ERROR_R_G")
    ensures !Contains("F_cte", "PROMEDIO_R_EE") && !Contains("F_cte", "ERROR_R_EE")
  {
    LacksChar("N_particulas", "PROMEDIO_R_G", 0);
    LacksChar("N_particulas", "ERROR_R_G", 0);
    LacksChar("N_particulas", "PROMEDIO_R_EE", 0);
    LacksChar("N_particulas", "ERROR_R_EE", 0);
    LacksChar("N_particulas", "F_cte", 0);
    LacksChar("F_cte", "PROMEDIO_R_G", 0);
    LacksChar("F_cte", "ERROR_R_G", 0);
    LacksChar("F_cte", "PROMEDIO_R_EE", 0);
    LacksChar("F_cte", "ERROR_R_EE", 0);
  }

  /** The six labels are made of label characters. */
  lemma LabelChars()
    ensures forall j :: 0 <= j < |"PROMEDIO_R_G"| ==> IsLabelChar("PROMEDIO_R_G"[j])
    ensures forall j :: 0 <= j < |"ERROR_R_G"| ==> IsLabelChar("ERROR_R_G"[j])
    ensures forall j :: 0 <= j < |"PROMEDIO_R_EE"| ==> IsLabelChar("PROMEDIO_R_EE"[j])
    ensures forall j :: 0 <= j < |"ERROR_R_EE"| ==> IsLabelChar("ERROR_R_EE"[j])
    ensures forall j :: 0 <= j < |"F_cte"| ==> IsLabelChar("F_cte"[j])
    ensures forall j :: 0 <= j < |"N_particulas"| ==> IsLabelChar("N_particulas"[j])
  {
  }

  /** A line whose label is none of the six holds none of them. */
  lemma EnergyLine(name: string, tok: string)
    requires NumericToken(tok) && Unlabeled(name)
    ensures Unlabeled(Labeled(name, tok))
  {
    LabelChars();
    LabeledLacks(name, tok, "PROMEDIO_R_G");
    LabeledLacks(name, tok, "ERROR_R_G");
    LabeledLacks(name, tok, "PROMEDIO_R_EE");
    LabeledLacks(name, tok, "ERROR_R_EE");
    LabeledLacks(name, tok, "F_cte");
    LabeledLacks(name, tok, "N_particulas");
  }

  lemma PromReeLine(tok: string, r: Readouts, parseReal: string -> Option<real>)
    requires NumericToken(tok)
    ensures Dispatch(Labeled("PROMEDIO_R_EE", tok), r, parseReal)
            == r.(promRee := Assigned(r.promRee, parseReal(tok)))
  {
    RouteLabels();
    LabelChars();
    LabeledLacks("PROMEDIO_R_EE", tok, "PROMEDIO_R_G");
    LabeledLacks("PROMEDIO_R_EE", tok, "ERROR_R_G");
    LabeledRead("PROMEDIO_R_EE", tok, parseReal);
  }

  lemma ErrReeLine(tok: string, r: Readouts, parseReal: string -> Option<real>)
    requires NumericToken(tok)
    ensures Dispatch(Labeled("ERROR_R_EE", tok), r, parseReal)
            == r.(errRee := Assigned(r.errRee, parseReal(tok)))
  {
    RouteLabels();
    LabelChars();
    LabeledLacks("ERROR_R_EE", tok, "PROMEDIO_R_G");
    LabeledLacks("ERROR_R_EE", tok, "ERROR_R_G");
    LabeledLacks("ERROR_R_EE", tok, "PROMEDIO_R_EE");
    LabeledRead("ERROR_R_EE", tok, parseReal);
  }

  lemma PromRgLine(tok: string, r: Readouts, parseReal: string -> Option<real>)
    requires NumericToken(tok)
    ensures Dispatch(Labeled("PROMEDIO_R_G", tok), r, parseReal)
            == r.(promRg := Assigned(r.promRg, parseReal(tok)))
  {
    LabeledRead("PROMEDIO_R_G", tok, parseReal);
  }

  lemma ErrRgLine(tok: string, r: Readouts, parseReal: string -> Option<real>)
    requires NumericToken(tok)
    ensures Dispatch(Labeled("ERROR_R_G", tok), r, parseReal)
            == r.(errRg := Assigned(r.errRg, parseReal(tok)))
  {
    RouteLabels();
    LabelChars();
    LabeledLacks("ERROR_R_G", tok, "PROMEDIO_R_G");
    LabeledRead("ERROR_R_G", tok, parseReal);
  }

  lemma FCteLine(tok: string, r: Readouts, parseReal: string -> Option<real>)
    requires NumericToken(tok)
    ensures Dispatch(Labeled("F_cte", tok), r, parseReal)
            == r.(fCte := Assigned(r.fCte, parseReal(tok)))
  {
    TrailingLabels();
    LabelChars();
    LabeledLacks("F_cte", tok, "PROMEDIO_R_G");
    LabeledLacks("F_cte", tok, "ERROR_R_G");
    LabeledLacks("F_cte", tok, "PROMEDIO_R_EE");
    LabeledLacks("F_cte", tok, "ERROR_R_EE");
    LabeledRead("F_cte", tok, parseReal);
  }

  lemma ParticlesLine(n: int, r: Readouts, parseReal: string -> Option<real>)
    ensures Dispatch(Labeled("N_particulas", FormatInt(n)), r, parseReal) == r.(particles := Some(n))
  {
    var tok := FormatInt(n);
    var line := Labeled("N_particulas", tok);
    TrailingLabels();
    LabelChars();
    LabeledLacks("N_particulas", tok, "PROMEDIO_R_G");
    LabeledLacks("N_particulas", tok, "ERROR_R_G");
    LabeledLacks("N_particulas", tok, "PROMEDIO_R_EE");
    LabeledLacks("N_particulas", tok, "ERROR_R_EE");
    LabeledLacks("N_particulas", tok, "F_cte");
    PrefixContained(line, "N_particulas");
    assert line[|"N_particulas"|..] == " " + (tok + "\n");
    ScanAfterSpace(tok + "\n");
    ScanFormatted(n, "\n");
  }

  /** The values generar_grafica finds in the results file of a summary:
      Rg and Ree with their errors, N, and F_cte exactly when the chain is
      anchored; each number as %lf reads back its %.6f form. */
  function Expected(s: Summary, n: int, mode: ForceMode, fmt: real -> string,
                    parseReal: string -> Option<real>): Readouts
    requires ParsesPrinted(fmt, parseReal)
  {
    Readouts(Some(Reread(s.rg.mean, fmt, parseReal)), Some(Reread(s.rg.err, fmt, parseReal)),
             Some(Reread(s.ree.mean, fmt, parseReal)), Some(Reread(s.ree.err, fmt, parseReal)),
             if mode.Anchored? then Some(Reread(mode.fcte, fmt, parseReal)) else None,
             Some(n))
  }

  /** The four energy lines set nothing. */
  lemma EnergyLinesRead(s: Summary, fmt: real -> string, start: Readouts, parseReal: string -> Option<real>)
    requires NumericFormat(fmt)
    ensures Collected(EnergyLines(s, fmt), start, parseReal) == start
  {
    var ls := EnergyLines(s, fmt);
    EnergyMeanLabel("PROMEDIO_ENERGIA_CINETICA");
    EnergyLine("PROMEDIO_ENERGIA_CINETICA", fmt(s.ek.mean));
    EnergyErrorLabel("ERROR_ENERGIA_CINETICA");
    EnergyLine("ERROR_ENERGIA_CINETICA", fmt(s.ek.err));
    EnergyMeanLabel("PROMEDIO_ENERGIA_POTENCIAL");
    EnergyLine("PROMEDIO_ENERGIA_POTENCIAL", fmt(s.ep.mean));
    EnergyErrorLabel("ERROR_ENERGIA_POTENCIAL");
    EnergyLine("ERROR_ENERGIA_POTENCIAL", fmt(s.ep.err));
    UnlabeledLines(ls, start, parseReal);
  }

  /** The Ree and Rg lines set the four radius variables. */
  lemma SizeLinesRead(s: Summary, fmt: real -> string, parseReal: string -> Option<real>)
    requires NumericFormat(fmt) && ParsesPrinted(fmt, parseReal)
    ensures Collected(SizeLines(s, fmt), Unset, parseReal)
            == Unset.(promRg := Some(Reread(s.rg.mean, fmt, parseReal)), errRg := Some(Reread(s.rg.err, fmt, parseReal)),
                      promRee := Some(Reread(s.ree.mean, fmt, parseReal)), errRee := Some(Reread(s.ree.err, fmt, parseReal)))
  {
    var ls := SizeLines(s, fmt);
    assert ls[..0] == [] && ls[..5] == ls;
    CollectedStep(ls, 0, Unset, parseReal);
    CollectedStep(ls, 1, Unset, parseReal);
    CollectedStep(ls, 2, Unset, parseReal);
    CollectedStep(ls, 3, Unset, parseReal);
    CollectedStep(ls, 4, Unset, parseReal);
    var r1 := Unset.(promRee := parseReal(fmt(s.ree.mean)));
    PromReeLine(fmt(s.ree.mean), Unset, parseReal);
    var r2 := r1.(errRee := parseReal(fmt(s.ree.err)));
    ErrReeLine(fmt(s.ree.err), r1, parseReal);
    var r3 := r2.(promRg := parseReal(fmt(s.rg.mean)));
    PromRgLine(fmt(s.rg.mean), r2, parseReal);
    var r4 := r3.(errRg := parseReal(fmt(s.rg.err)));
    ErrRgLine(fmt(s.rg.err), r3, parseReal);
    ErrRgLine(fmt(s.rg.err), r4, parseReal);
  }

  /** Reading a results file back finds what procesar_trayectoria wrote. */
  lemma ResultsRead(s: Summary, n: int, mode: ForceMode, fmt: real -> string,
                    parseReal: string -> Option<real>)
    requires NumericFormat(fmt) && ParsesPrinted(fmt, parseReal)
    ensures Collected(ResultLines(s, n, mode, fmt), Unset, parseReal) == Expected(s, n, mode, fmt, parseReal)
  {
    var es, zs := EnergyLines(s, fmt), SizeLines(s, fmt);
    var ns, fs := [Labeled("N_particulas", FormatInt(n))], ForceLines(mode, fmt);
    CollectedJoin(es, zs, Unset, parseReal);
    CollectedJoin(es + zs, ns, Unset, parseReal);
    CollectedJoin(es + zs + ns, fs, Unset, parseReal);
    EnergyLinesRead(s, fmt, Unset, parseReal);
    SizeLinesRead(s, fmt, parseReal);
    var r := Collected(zs, Unset, parseReal);
    assert ns[..0] == [];
    ParticlesLine(n, r, parseReal);
    if mode.Anchored? {
      assert fs[..0] == [];
      FCteLine(fmt(mode.fcte), r.(particles := Some(n)), parseReal);
    }
  }

  /** The row of grafica.txt for a trajectory: (F_cte, Ree, its error) when
      anchored, (N, Rg, its error) when free, as read back from the
      results file. */
  lemma SummaryGraphed(s: Summary, n: int, mode: ForceMode, fmt: real -> string,
                       parseReal: string -> Option<real>)
    requires NumericFormat(fmt) && ParsesPrinted(fmt, parseReal)
    ensures var p := GraphPoint(Collected(ResultLines(s, n, mode, fmt), Unset, parseReal), mode.Anchored?);
            p == Some(if mode.Anchored?
                      then ForcePoint(Reread(mode.fcte, fmt, parseReal), Reread(s.ree.mean, fmt, parseReal),
                                      Reread(s.ree.err, fmt, parseReal))
                      else SizePoint(n, Reread(s.rg.mean, fmt, parseReal), Reread(s.rg.err, fmt, parseReal)))
  {
    ResultsRead(s, n, mode, fmt, parseReal);
  }
}

/** leer_N_desde_parametros (funciones_oscilador.c:393-413): the chain length
    N read back from a parameter file, and the head of the parameter file
    escribe_input_verlet writes (integracion.c:227-236). A file is the lines
    fgets returns, None when it cannot be opened. */
module Parameters {
  import opened Wrappers
  import opened Text

  /** strncmp(line, "N ", 2) == 0. */
  predicate IsNLine(line: string)
  {
    "N " <= line
  }

  /** sscanf(line, "N %d", &N) on a line that starts with "N ": the 'N'
      matches, then %d; N keeps its -1 when no number follows. */
  function NValue(line: string): int
    requires IsNLine(line)
  {
    match ScanInt(line[1..])
    case Some(v) => v
    case None => -1
  }

  /** The value of the first line that starts with "N "; -1 when there is none. */
  function FindN(lines: seq<string>): int
  {
    if |lines| == 0 then -1
    else if IsNLine(lines[0]) then NValue(lines[0])
    else FindN(lines[1..])
  }

  /** What leer_N_desde_parametros returns for a file, -1 when it cannot be opened. */
  function ParameterN(file: Option<seq<string>>): int
  {
    if file.None? then -1 else FindN(file.value)
  }

  /** The fgets loop: stop at the first "N " line. */
  method ReadParameterN(file: Option<seq<string>>) returns (n: int)
    ensures n == ParameterN(file)
  {
    if file.None? {
      return -1;
    }
    var lines := file.value;
    n := -1;
    var i := 0;
    while i < |lines|
      invariant 0 <= i <= |lines|
      invariant FindN(lines) == FindN(lines[i..])
      invariant n == -1
    {
      var line := lines[i];
      assert lines[i..][0] == line;
      if |line| >= 2 && line[0] == 'N' && line[1] == ' ' {
        assert IsNLine(line);
        var v := ScanInt(line[1..]);
        if v.Some? {
          n := v.value;
        }
        break;
      }
      assert lines[i..][1..] == lines[i + 1..];
      i := i + 1;
    }
  }

  /** The first "N " line decides, whatever follows it. */
  lemma {:induction false} FirstNLine(lines: seq<string>, i: nat)
    requires i < |lines| && IsNLine(lines[i])
    requires forall j :: 0 <= j < i ==> !IsNLine(lines[j])
    ensures FindN(lines) == NValue(lines[i])
  {
    if i > 0 {
      assert !IsNLine(lines[0]);
      FirstNLine(lines[1..], i - 1);
    }
  }

  /** With no "N " line the result is -1. */
  lemma {:induction false} NoNLine(lines: seq<string>)
    requires forall j :: 0 <= j < |lines| ==> !IsNLine(lines[j])
    ensures FindN(lines) == -1
  {
    if |lines| > 0 {
      assert !IsNLine(lines[0]);
      NoNLine(lines[1..]);
    }
  }

  lemma OtherLine(line: string)
    requires |line| > 0 && line[0] != 'N'
    ensures !IsNLine(line)
  {
  }

  /** The values escribe_input_verlet prints before and at the N line. */
  datatype Physical = Physical(k: real, kb: real, temperature: real, alfa: real, n: int)

  /** A comment line of the parameter file. */
  function Comment(text: string): string
  {
    "# " + text + "\n"
  }

  /** The three comment lines, the blank line, K, kb, Temperatura and alfa
      (each "%g"), then "N %d". */
  function ParameterHead(p: Physical, gfmt: real -> string): seq<string>
  {
    [ Comment("Archivo de parámetros para simulación de Verlet"),
      Comment("Generado automáticamente por escribe_input_verlet()"),
      Comment("-----------------------------------------------"),
      "\n",
      "K " + gfmt(p.k) + "\n",
      "kb " + gfmt(p.kb) + "\n",
      "Temperatura " + gfmt(p.temperature) + "\n",
      "alfa " + gfmt(p.alfa) + "\n",
      "N " + FormatInt(p.n) + "\n" ]
  }

  /** A parameter file written by the simulation gives back its N, whatever
      follows the N line. */
  lemma WrittenNRead(p: Physical, gfmt: real -> string, rest: seq<string>)
    ensures ParameterN(Some(ParameterHead(p, gfmt) + rest)) == p.n
  {
    var head := ParameterHead(p, gfmt);
    var lines := head + rest;
    var nLine := "N " + FormatInt(p.n) + "\n";
    assert lines[8] == nLine;
    assert head[0][0] == '#' && head[1][0] == '#' && head[2][0] == '#' && head[3][0] == '\n';
    assert head[4][0] == 'K' && head[5][0] == 'k' && head[6][0] == 'T' && head[7][0] == 'a';
    forall j | 0 <= j < 8
      ensures !IsNLine(lines[j])
    {
      assert lines[j] == head[j] && |head[j]| > 0 && head[j][0] != 'N';
      OtherLine(lines[j]);
    }
    FirstNLine(lines, 8);
    assert nLine[1..] == " " + (FormatInt(p.n) + "\n");
    ScanAfterSpace(FormatInt(p.n) + "\n");
    ScanFormatted(p.n, "\n");
  }
}

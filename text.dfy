/** The pieces of the C library the file readers lean on, over strings:
    sscanf's whitespace-separated conversions, %d, strstr and the %d/%.6f
    printing used when the files are written. A C string ends at its first
    NUL; a Dafny string may also simply end. */
module Text {
  import opened Wrappers

  /** isspace in the "C" locale: the separators sscanf skips. */
  predicate IsSpace(c: char)
  {
    c == ' ' || c == '\t' || c == '\n' || c == '\U{000B}' || c == '\U{000C}' || c == '\r'
  }

  predicate IsDigit(c: char)
  {
    '0' <= c <= '9'
  }

  /** The characters %.6f and %d print for a finite number. */
  predicate IsNumeral(c: char)
  {
    IsDigit(c) || c == '.' || c == '-'
  }

  /** A printed number: one or more numerals, hence no separator inside. */
  predicate NumericToken(t: string)
  {
    |t| >= 1 && forall i :: 0 <= i < |t| ==> IsNumeral(t[i])
  }

  /** A number printer (the model of %.6f) whose every output is a token. */
  ghost predicate NumericFormat(fmt: real -> string)
  {
    forall v :: NumericToken(fmt(v))
  }

  /** Every number fmt prints converts back. */
  ghost predicate ParsesPrinted(fmt: real -> string, parseReal: string -> Option<real>)
  {
    forall v :: parseReal(fmt(v)).Some?
  }

  /** The value %lf reads from the printed form of v. */
  function Reread(v: real, fmt: real -> string, parseReal: string -> Option<real>): real
    requires parseReal(fmt(v)).Some?
  {
    parseReal(fmt(v)).value
  }

  // ---------------------------------------------------------------------
  // Fields: what successive sscanf conversions see
  // ---------------------------------------------------------------------

  /** The maximal runs of non-space characters of s, up to its terminator.
      Each %lf (and %*lf) conversion skips spaces and reads the next one. */
  function Fields(s: string): (fs: seq<string>)
    ensures forall i :: 0 <= i < |fs| ==> |fs[i]| >= 1
    decreases |s|
  {
    if |s| == 0 || s[0] == '\0' then []
    else if IsSpace(s[0]) then Fields(s[1..])
    else
      var w := WordLength(s, 1);
      [s[..w]] + Fields(s[w..])
  }

  /** The end of the run of non-space characters that has reached index i. */
  function WordLength(s: string, i: nat): (w: nat)
    requires 1 <= i <= |s|
    ensures i <= w <= |s|
    ensures w == |s| || IsSpace(s[w]) || s[w] == '\0'
    ensures forall j :: i <= j < w ==> !IsSpace(s[j]) && s[j] != '\0'
    decreases |s| - i
  {
    if i == |s| || IsSpace(s[i]) || s[i] == '\0' then i else WordLength(s, i + 1)
  }

  /** Tokens printed with one blank after each, as `fprintf("%s ", t)` does
      for each of them in turn. */
  function Spaced(ts: seq<string>): string
  {
    if |ts| == 0 then "" else ts[0] + " " + Spaced(ts[1..])
  }

  /** A number followed by a separator (or nothing) is one field. */
  lemma FieldsOfToken(t: string, r: string)
    requires NumericToken(t)
    requires |r| == 0 || IsSpace(r[0]) || r[0] == '\0'
    ensures Fields(t + r) == [t] + Fields(r)
  {
    var s := t + r;
    WordLengthOfToken(t, r, 1);
    assert s[..|t|] == t && s[|t|..] == r;
  }

  lemma {:induction false} WordLengthOfToken(t: string, r: string, i: nat)
    requires NumericToken(t) && 1 <= i <= |t|
    requires |r| == 0 || IsSpace(r[0]) || r[0] == '\0'
    ensures WordLength(t + r, i) == |t|
    decreases |t| - i
  {
    var s := t + r;
    if i < |t| {
      assert s[i] == t[i] && IsNumeral(t[i]);
      WordLengthOfToken(t, r, i + 1);
    }
  }

  /** sscanf reads back, in order, the tokens that were printed spaced. */
  lemma {:induction false} FieldsOfSpaced(ts: seq<string>, r: string)
    requires forall i :: 0 <= i < |ts| ==> NumericToken(ts[i])
    ensures Fields(Spaced(ts) + r) == ts + Fields(r)
  {
    if |ts| > 0 {
      var rest := Spaced(ts[1..]) + r;
      calc {
        Fields(Spaced(ts) + r);
        { assert Spaced(ts) + r == ts[0] + (" " + rest); }
        Fields(ts[0] + (" " + rest));
        { FieldsOfToken(ts[0], " " + rest); }
        [ts[0]] + Fields(" " + rest);
        { assert (" " + rest)[1..] == rest; }
        [ts[0]] + Fields(rest);
        { FieldsOfSpaced(ts[1..], r); }
        [ts[0]] + (ts[1..] + Fields(r));
        { assert ts == [ts[0]] + ts[1..]; }
        ts + Fields(r);
      }
    } else {
      assert Spaced(ts) + r == r;
    }
  }

  /** The last number of a line, then its newline, is the last field. */
  lemma FieldsOfLastToken(t: string)
    requires NumericToken(t)
    ensures Fields(t + "\n") == [t]
  {
    FieldsOfToken(t, "\n");
    assert "\n"[1..] == "";
  }

  // ---------------------------------------------------------------------
  // %d and its printed form
  // ---------------------------------------------------------------------

  function SkipSpaces(s: string): (r: string)
    ensures |r| == 0 || !IsSpace(r[0])
  {
    if |s| > 0 && IsSpace(s[0]) then SkipSpaces(s[1..]) else s
  }

  /** The length of the run of digits at the start of s. */
  function DigitRun(s: string): (n: nat)
    ensures n <= |s|
    ensures forall i :: 0 <= i < n ==> IsDigit(s[i])
    ensures n == |s| || !IsDigit(s[n])
  {
    if |s| > 0 && IsDigit(s[0]) then 1 + DigitRun(s[1..]) else 0
  }

  function DigitValue(c: char): nat
    requires IsDigit(c)
  {
    (c as int) - ('0' as int)
  }

  /** The value of a string of decimal digits, most significant first. */
  function Value(d: string): nat
    requires forall i :: 0 <= i < |d| ==> IsDigit(d[i])
  {
    if |d| == 0 then 0 else 10 * Value(d[..|d| - 1]) + DigitValue(d[|d| - 1])
  }

  /** %d: plain conversion after optional spaces and one optional sign.
      None when no digit follows (the variable is then left as it was). */
  function ScanInt(s: string): Option<int>
  {
    ScanSigned(SkipSpaces(s))
  }

  function ScanSigned(u: string): Option<int>
  {
    if |u| > 0 && u[0] == '-' then Negated(ScanDigits(u[1..]))
    else if |u| > 0 && u[0] == '+' then ScanDigits(u[1..])
    else ScanDigits(u)
  }

  function ScanDigits(u: string): Option<int>
  {
    var n := DigitRun(u);
    if n == 0 then None else Some(Value(u[..n]))
  }

  function Negated(r: Option<int>): Option<int>
  {
    if r.Some? then Some(-r.value) else None
  }

  function DigitChar(d: nat): (c: char)
    requires d < 10
    ensures IsDigit(c) && DigitValue(c) == d
  {
    ('0' as int + d) as char
  }

  /** printf's %d of a non-negative number. */
  function FormatNat(n: nat): (s: string)
    ensures |s| >= 1 && forall i :: 0 <= i < |s| ==> IsDigit(s[i])
  {
    if n < 10 then [DigitChar(n)] else FormatNat(n / 10) + [DigitChar(n % 10)]
  }

  /** printf's %d. */
  function FormatInt(n: int): (s: string)
    ensures NumericToken(s)
  {
    if n < 0 then "-" + FormatNat(-n) else FormatNat(n)
  }

  lemma {:induction false} ValueOfFormat(n: nat)
    ensures Value(FormatNat(n)) == n
  {
    if n >= 10 {
      var s := FormatNat(n);
      assert s[..|s| - 1] == FormatNat(n / 10);
      ValueOfFormat(n / 10);
    }
  }

  /** The digit run of a printed number ends where the number does. */
  lemma {:induction false} DigitRunOf(d: string, r: string)
    requires forall i :: 0 <= i < |d| ==> IsDigit(d[i])
    requires |r| == 0 || !IsDigit(r[0])
    ensures DigitRun(d + r) == |d|
  {
    if |d| > 0 {
      assert (d + r)[1..] == d[1..] + r;
      DigitRunOf(d[1..], r);
    }
  }

  /** %d reads back what %d printed, whatever non-digit follows. */
  lemma ScanFormatted(n: int, r: string)
    requires |r| == 0 || !IsDigit(r[0])
    ensures ScanInt(FormatInt(n) + r) == Some(n)
  {
    if n < 0 {
      ScanFormattedNegative(n, r);
    } else {
      UnsignedRead(FormatNat(n) + r);
      DigitsOfFormat(n, r);
    }
  }

  lemma ScanFormattedNegative(n: int, r: string)
    requires n < 0 && (|r| == 0 || !IsDigit(r[0]))
    ensures ScanInt(FormatInt(n) + r) == Some(n)
  {
    var m: nat := -n;
    var d := FormatNat(m);
    assert FormatInt(n) == "-" + d;
    TailAfterSign(d, r);
    ValueOfFormat(m);
    NegativeDigitsRead(FormatInt(n) + r, d, r);
  }

  /** A minus sign, then a run of digits d, then r: reads back as -d. */
  lemma NegativeDigitsRead(s: string, d: string, r: string)
    requires |s| >= 1 && s[0] == '-' && s[1..] == d + r
    requires |d| >= 1 && forall i :: 0 <= i < |d| ==> IsDigit(d[i])
    requires |r| == 0 || !IsDigit(r[0])
    ensures ScanInt(s) == Some(-(Value(d) as int))
  {
    NegativeRead(s);
    DigitsRead(d, r);
  }

  /** The digits of a printed natural number convert back to it. */
  lemma DigitsOfFormat(n: nat, r: string)
    requires |r| == 0 || !IsDigit(r[0])
    ensures ScanDigits(FormatNat(n) + r) == Some(n)
  {
    DigitsRead(FormatNat(n), r);
    ValueOfFormat(n);
  }

  /** What follows the sign of "-" + d + r is d + r. */
  lemma TailAfterSign(d: string, r: string)
    ensures |"-" + d + r| >= 1 && ("-" + d + r)[0] == '-' && ("-" + d + r)[1..] == d + r
  {
  }

  lemma NegativeRead(s: string)
    requires |s| >= 1 && s[0] == '-'
    ensures ScanInt(s) == Negated(ScanDigits(s[1..]))
  {
    assert SkipSpaces(s) == s;
  }

  lemma UnsignedRead(u: string)
    requires |u| >= 1 && IsDigit(u[0])
    ensures ScanInt(u) == ScanDigits(u)
  {
    assert SkipSpaces(u) == u;
  }

  lemma DigitsRead(d: string, r: string)
    requires |d| >= 1 && forall i :: 0 <= i < |d| ==> IsDigit(d[i])
    requires |r| == 0 || !IsDigit(r[0])
    ensures ScanDigits(d + r) == Some(Value(d))
  {
    DigitRunOf(d, r);
    assert (d + r)[..|d|] == d;
  }

  /** Spaces before the number change nothing. */
  lemma ScanAfterSpace(s: string)
    ensures ScanInt(" " + s) == ScanInt(s)
  {
    assert (" " + s)[1..] == s;
  }

  // ---------------------------------------------------------------------
  // strstr
  // ---------------------------------------------------------------------

  /** strstr(s, k) != NULL. */
  predicate Contains(s: string, k: string)
  {
    exists i :: 0 <= i <= |s| - |k| && OccursAt(s, k, i)
  }

  predicate OccursAt(s: string, k: string, i: int)
  {
    0 <= i && i + |k| <= |s| && s[i..i + |k|] == k
  }

  /** Two adjacent characters a, b somewhere in s. */
  ghost predicate HasPair(s: string, a: char, b: char)
  {
    exists i :: 0 <= i < |s| - 1 && PairAt(s, a, b, i)
  }

  predicate PairAt(s: string, a: char, b: char, i: int)
  {
    0 <= i < |s| - 1 && s[i] == a && s[i + 1] == b
  }

  /** Every character of k occurs in a string that contains k. */
  lemma ContainedChar(s: string, k: string, j: nat)
    requires Contains(s, k) && j < |k|
    ensures k[j] in s
  {
    var i :| 0 <= i <= |s| - |k| && OccursAt(s, k, i);
    assert s[i + j] == k[j];
  }

  /** Every pair of adjacent characters of k occurs in a string that contains k. */
  lemma ContainedPair(s: string, k: string, j: nat)
    requires Contains(s, k) && j + 1 < |k|
    ensures HasPair(s, k[j], k[j + 1])
  {
    var i :| 0 <= i <= |s| - |k| && OccursAt(s, k, i);
    assert s[i + j] == k[j] && s[i + j + 1] == k[j + 1];
    assert PairAt(s, k[j], k[j + 1], i + j);
  }

  lemma NoPairWithout(s: string, a: char, b: char)
    requires a !in s
    ensures !HasPair(s, a, b)
  {
    forall i | 0 <= i < |s| - 1
      ensures !PairAt(s, a, b, i)
    {
      assert s[i] in s;
    }
  }

  /** A pair in x + y lies in x, in y, or across the join. */
  lemma PairOfJoin(x: string, y: string, a: char, b: char)
    requires HasPair(x + y, a, b)
    ensures HasPair(x, a, b) || HasPair(y, a, b) ||
            (|x| > 0 && |y| > 0 && x[|x| - 1] == a && y[0] == b)
  {
    var s := x + y;
    var i :| 0 <= i < |s| - 1 && PairAt(s, a, b, i);
    if i + 1 < |x| {
      assert PairAt(x, a, b, i);
    } else if i >= |x| {
      assert PairAt(y, a, b, i - |x|);
    }
  }

  /** Any string that starts with k contains it. */
  lemma PrefixContained(s: string, k: string)
    requires k <= s
    ensures Contains(s, k)
  {
    assert OccursAt(s, k, 0);
  }

  /** An occurrence of k in x + y lies inside x when no character of k
      occurs in y. */
  lemma ContainedInHead(x: string, y: string, k: string)
    requires |k| >= 1 && Contains(x + y, k)
    requires forall j :: 0 <= j < |k| ==> k[j] !in y
    ensures Contains(x, k)
  {
    var s := x + y;
    var i :| 0 <= i <= |s| - |k| && OccursAt(s, k, i);
    var j := |k| - 1;
    assert s[i + j] == s[i..i + |k|][j] == k[j];
    assert i + |k| <= |x|;
    assert s[i..i + |k|] == x[i..i + |k|];
    assert OccursAt(x, k, i);
  }
}

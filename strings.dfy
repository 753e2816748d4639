/**
 * The string operations the wizard uses: String.prototype.trim, toLowerCase,
 * replace(/\s+/g, '-'), the decimal rendering of a small integer and padStart.
 * Whitespace and letter case are restricted to ASCII.
 */
module Strings {

  /** The characters that trim and the regular-expression class \s match, within ASCII. */
  predicate IsSpace(c: char) {
    c == ' ' || c == '\t' || c == '\n' || c == '\r' || c == '\U{0B}' || c == '\U{0C}'
  }

  predicate NoSpace(s: string) {
    forall i :: 0 <= i < |s| ==> !IsSpace(s[i])
  }

  predicate AllSpace(s: string) {
    forall i :: 0 <= i < |s| ==> IsSpace(s[i])
  }

  /** `s` without its leading whitespace: a suffix of `s`, and only whitespace was dropped. */
  function TrimStart(s: string): (r: string)
    ensures |r| <= |s| && r == s[|s| - |r|..]
    ensures r == [] || !IsSpace(r[0])
    ensures AllSpace(s[..|s| - |r|])
  {
    if s != [] && IsSpace(s[0]) then TrimStart(s[1..]) else s
  }

  /** `s` without its trailing whitespace: a prefix of `s`, and only whitespace was dropped. */
  function TrimEnd(s: string): (r: string)
    ensures |r| <= |s| && r == s[..|r|]
    ensures r == [] || !IsSpace(r[|r| - 1])
    ensures AllSpace(s[|r|..])
  {
    if s != [] && IsSpace(s[|s| - 1]) then TrimEnd(s[..|s| - 1]) else s
  }

  /** String.prototype.trim. */
  function Trim(s: string): (r: string)
    ensures r == [] || (!IsSpace(r[0]) && !IsSpace(r[|r| - 1]))
  {
    TrimEnd(TrimStart(s))
  }

  /** Trimming is the identity on a string that neither starts nor ends with whitespace. */
  lemma TrimOfTrimmed(s: string)
    requires s == [] || (!IsSpace(s[0]) && !IsSpace(s[|s| - 1]))
    ensures Trim(s) == s
  {
  }

  /** Trimming twice is trimming once. */
  lemma TrimIdempotent(s: string)
    ensures Trim(Trim(s)) == Trim(s)
  {
    TrimOfTrimmed(Trim(s));
  }

  /** A string trims to "" exactly when it is all whitespace. */
  lemma TrimEmptyIffAllSpace(s: string)
    ensures Trim(s) == [] <==> AllSpace(s)
  {
    var t := TrimStart(s);
    assert s == s[..|s| - |t|] + t;
  }

  /** ASCII toLowerCase of one character. */
  function LowerChar(c: char): (d: char)
    ensures IsSpace(d) <==> IsSpace(c)
  {
    if 'A' <= c <= 'Z' then (c as int + 32) as char else c
  }

  /** ASCII String.prototype.toLowerCase. */
  function Lower(s: string): (r: string)
    ensures |r| == |s|
    ensures forall i :: 0 <= i < |s| ==> r[i] == LowerChar(s[i])
  {
    if s == [] then [] else [LowerChar(s[0])] + Lower(s[1..])
  }

  /** Lower-casing works character by character, so it distributes over concatenation. */
  lemma LowerAppend(x: string, y: string)
    ensures Lower(x + y) == Lower(x) + Lower(y)
  {
    var l, r := Lower(x + y), Lower(x) + Lower(y);
    assert |l| == |r|;
    forall i | 0 <= i < |l| ensures l[i] == r[i] {
      if i < |x| {
        assert (x + y)[i] == x[i];
      } else {
        assert (x + y)[i] == y[i - |x|];
      }
    }
  }

  /** `s.replace(/\s+/g, '-')`: every maximal run of whitespace becomes a single '-'. */
  function DashRuns(s: string): (r: string)
    ensures NoSpace(r)
    ensures |r| <= |s|
    decreases |s|
  {
    if s == [] then []
    else if IsSpace(s[0]) then
      var t := DashRuns(TrimStart(s[1..]));
      NoSpaceCons('-', t);
      "-" + t
    else
      var t := DashRuns(s[1..]);
      NoSpaceCons(s[0], t);
      [s[0]] + t
  }

  lemma NoSpaceCons(c: char, t: string)
    requires !IsSpace(c) && NoSpace(t)
    ensures NoSpace([c] + t)
  {
    assert forall i :: 0 < i <= |t| ==> ([c] + t)[i] == t[i - 1];
  }

  /** The characters of `s` that are neither whitespace nor '-'. */
  function Letters(s: string): string {
    if s == [] then []
    else if IsSpace(s[0]) || s[0] == '-' then Letters(s[1..])
    else [s[0]] + Letters(s[1..])
  }

  lemma {:induction false} LettersAppend(a: string, b: string)
    ensures Letters(a + b) == Letters(a) + Letters(b)
  {
    if a != [] {
      LettersAppend(a[1..], b);
      assert (a + b)[1..] == a[1..] + b;
    } else {
      assert a + b == b;
    }
  }

  lemma {:induction false} LettersOfTrimStart(s: string)
    ensures Letters(TrimStart(s)) == Letters(s)
  {
    if s != [] && IsSpace(s[0]) {
      LettersOfTrimStart(s[1..]);
    }
  }

  /** Replacing the whitespace runs loses and invents no other character. */
  lemma {:induction false} DashRunsKeepsLetters(s: string)
    ensures Letters(DashRuns(s)) == Letters(s)
    decreases |s|
  {
    if s == [] {
    } else if IsSpace(s[0]) {
      var rest := TrimStart(s[1..]);
      DashRunsKeepsLetters(rest);
      LettersOfTrimStart(s[1..]);
      assert ("-" + DashRuns(rest))[1..] == DashRuns(rest);
    } else {
      DashRunsKeepsLetters(s[1..]);
      assert ([s[0]] + DashRuns(s[1..]))[1..] == DashRuns(s[1..]);
    }
  }

  /** A string without whitespace comes through the replacement unchanged. */
  lemma {:induction false} DashRunsOfSpaceless(s: string)
    requires NoSpace(s)
    ensures DashRuns(s) == s
  {
    if s != [] {
      DashRunsOfSpaceless(s[1..]);
    }
  }

  /** Two words separated by one whitespace character come out joined by one '-'. */
  lemma DashRunsOfTwoWords(a: string, b: string)
    requires NoSpace(a) && NoSpace(b)
    ensures DashRuns(a + " " + b) == a + "-" + b
  {
    assert AllSpace(" ");
    DashRunsOfRun(a, " ", b);
    DashRunsOfSpaceless(b);
  }

  /** Trimming the start of a whitespace run followed by text that does not start with
      whitespace leaves exactly that text. */
  lemma {:induction false} TrimStartOfRun(w: string, b: string)
    requires AllSpace(w)
    requires b == [] || !IsSpace(b[0])
    ensures TrimStart(w + b) == b
    decreases |w|
  {
    if w == [] {
      assert w + b == b;
    } else {
      var s := w + b;
      assert s[0] == w[0] && IsSpace(s[0]);
      assert s[1..] == w[1..] + b;
      assert TrimStart(s) == TrimStart(s[1..]);
      TrimStartOfRun(w[1..], b);
    }
  }

  /** A leading whitespace run of any length becomes a single '-'. */
  lemma DashRunsOfLeadingRun(w: string, b: string)
    requires w != [] && AllSpace(w)
    requires b == [] || !IsSpace(b[0])
    ensures DashRuns(w + b) == "-" + DashRuns(b)
  {
    var s := w + b;
    assert s[0] == w[0];
    assert s[1..] == w[1..] + b;
    TrimStartOfRun(w[1..], b);
  }

  /** A maximal whitespace run of any length after whitespace-free text becomes a single
      '-', and the replacement carries on with the rest. */
  lemma DashRunsOfRun(a: string, w: string, b: string)
    requires NoSpace(a) && w != [] && AllSpace(w)
    requires b == [] || !IsSpace(b[0])
    ensures DashRuns(a + w + b) == a + "-" + DashRuns(b)
  {
    var t, d := w + b, DashRuns(b);
    calc {
      DashRuns(a + w + b);
      { assert a + w + b == a + t; }
      DashRuns(a + t);
      { DashRunsOfSpacelessPrefix(a, t); }
      a + DashRuns(t);
      { DashRunsOfLeadingRun(w, b); }
      a + ("-" + d);
      { assert a + ("-" + d) == a + "-" + d; }
      a + "-" + d;
    }
  }

  /** Whitespace-free text in front is copied as it is, whatever follows it. */
  lemma {:induction false} DashRunsOfSpacelessPrefix(a: string, t: string)
    requires NoSpace(a)
    ensures DashRuns(a + t) == a + DashRuns(t)
    decreases |a|
  {
    if a == [] {
      assert a + t == t;
    } else {
      var rest := a[1..] + t;
      DashRunsOfSpacelessPrefix(a[1..], t);
      DashRunsOfNonSpace(a[0], rest);
      assert a + t == [a[0]] + rest;
      assert [a[0]] + (a[1..] + DashRuns(t)) == a + DashRuns(t);
    }
  }

  /** A character that is not whitespace is kept as it is. */
  lemma DashRunsOfNonSpace(c: char, t: string)
    requires !IsSpace(c)
    ensures DashRuns([c] + t) == [c] + DashRuns(t)
  {
    assert ([c] + t)[1..] == t;
  }

  /** Two spaces between words give one dash, where a per-character replacement would
      give two. */
  lemma DashRunsOfDoubleSpace(x: char, y: char)
    requires !IsSpace(x) && !IsSpace(y)
    ensures DashRuns([x, ' ', ' ', y]) == [x, '-', y]
  {
    assert NoSpace([x]) && AllSpace([' ', ' ']);
    DashRunsOfRun([x], [' ', ' '], [y]);
    assert [x] + [' ', ' '] + [y] == [x, ' ', ' ', y];
    DashRunsOfNonSpace(y, []);
    assert [y] + [] == [y] && DashRuns([]) == [];
    assert [x] + "-" + [y] == [x, '-', y];
  }

  predicate IsDigit(c: char) {
    '0' <= c <= '9'
  }

  predicate IsDigits(s: string) {
    forall i :: 0 <= i < |s| ==> IsDigit(s[i])
  }

  function DigitChar(d: nat): (c: char)
    requires d < 10
    ensures IsDigit(c)
  {
    ('0' as int + d) as char
  }

  /** The number a string of decimal digits denotes. */
  function DigitsValue(s: string): nat
    requires IsDigits(s)
  {
    if s == [] then 0 else DigitsValue(s[..|s| - 1]) * 10 + (s[|s| - 1] as int - '0' as int)
  }

  /** The decimal rendering of `n` (template-literal interpolation, toString). */
  function Decimal(n: nat): (r: string)
    ensures |r| >= 1 && IsDigits(r)
    ensures n == 0 || r[0] != '0'
  {
    if n < 10 then [DigitChar(n)] else Decimal(n / 10) + [DigitChar(n % 10)]
  }

  /** Numbers below ten take one digit; larger ones take more. */
  lemma DecimalWidth(n: nat)
    ensures n < 10 <==> |Decimal(n)| == 1
  {
    if n >= 10 {
      assert |Decimal(n)| == |Decimal(n / 10)| + 1;
    }
  }

  /** Reading the rendering back gives the number. */
  lemma {:induction false} DecimalReadsBack(n: nat)
    ensures DigitsValue(Decimal(n)) == n
  {
    if n >= 10 {
      DecimalReadsBack(n / 10);
      var r := Decimal(n);
      assert r[..|r| - 1] == Decimal(n / 10);
    }
  }

  /** String.prototype.padStart(width, fill) with a one-character fill. */
  function PadStart(s: string, width: nat, fill: char): (r: string)
    ensures |r| == if |s| >= width then |s| else width
    ensures r[|r| - |s|..] == s
    ensures forall i :: 0 <= i < |r| - |s| ==> r[i] == fill
  {
    if |s| >= width then s else seq(width - |s|, _ => fill) + s
  }
}

/**
 * The string handling the handlers rely on: JavaScript's String.prototype.trim,
 * String.prototype.includes, String.prototype.split on one character, the
 * Number(...) conversion of a field of a clock time, and the decimal rendering
 * of a count that goes into an error message.
 */
module Text {

  /**
   * What trim and Number strip: ECMAScript's WhiteSpace (tab, vertical tab, form
   * feed, space, no-break space, the byte order mark and the Zs space separators)
   * and LineTerminator (line feed, carriage return, U+2028, U+2029).
   */
  predicate IsWhitespace(c: char) {
    || c == '\t' || c == '\n' || c == '\U{000B}' || c == '\U{000C}' || c == '\r' || c == ' '
    || c == '\U{00A0}' || c == '\U{1680}' || '\U{2000}' <= c <= '\U{200A}'
    || c == '\U{2028}' || c == '\U{2029}' || c == '\U{202F}' || c == '\U{205F}' || c == '\U{3000}'
    || c == '\U{FEFF}'
  }

  predicate IsDigit(c: char) {
    '0' <= c <= '9'
  }

  function DigitValue(c: char): (d: nat)
    requires IsDigit(c)
    ensures d < 10
  {
    (c as int) - ('0' as int)
  }

  function DigitChar(d: nat): (c: char)
    requires d < 10
    ensures IsDigit(c) && DigitValue(c) == d
  {
    (('0' as int) + d) as char
  }

  /** Leading whitespace removed. */
  function TrimStart(s: string): (r: string)
    ensures |r| <= |s|
  {
    if s == [] || !IsWhitespace(s[0]) then s else TrimStart(s[1..])
  }

  /** Trailing whitespace removed. */
  function TrimEnd(s: string): (r: string)
    ensures |r| <= |s|
  {
    if s == [] || !IsWhitespace(s[|s| - 1]) then s else TrimEnd(s[..|s| - 1])
  }

  /** String.prototype.trim. */
  function Trim(s: string): string {
    TrimEnd(TrimStart(s))
  }

  lemma {:induction false} TrimStartFacts(s: string)
    ensures var r := TrimStart(s);
      && r == s[|s| - |r|..]
      && (r == [] || !IsWhitespace(r[0]))
      && (forall i :: 0 <= i < |s| - |r| ==> IsWhitespace(s[i]))
  {
    if s != [] && IsWhitespace(s[0]) {
      TrimStartFacts(s[1..]);
    }
  }

  lemma {:induction false} TrimEndFacts(s: string)
    ensures var r := TrimEnd(s);
      && r == s[..|r|]
      && (r == [] || !IsWhitespace(r[|r| - 1]))
      && (forall i :: |r| <= i < |s| ==> IsWhitespace(s[i]))
  {
    if s != [] && IsWhitespace(s[|s| - 1]) {
      TrimEndFacts(s[..|s| - 1]);
    }
  }

  /** Trim gives an infix of its input that neither starts nor ends with whitespace. */
  lemma TrimSpec(s: string)
    ensures exists i :: OccursAt(s, Trim(s), i)
    ensures Trim(s) == [] || (!IsWhitespace(Trim(s)[0]) && !IsWhitespace(Trim(s)[|Trim(s)| - 1]))
  {
    var t := TrimStart(s);
    var r := TrimEnd(t);
    TrimStartFacts(s);
    TrimEndFacts(t);
    if r != [] {
      assert r[0] == t[0];
    }
    assert s[|s| - |t|..][..|r|] == s[|s| - |t|..|s| - |t| + |r|];
    assert r == Trim(s);
    assert OccursAt(s, Trim(s), |s| - |t|);
  }

  /** Trim is empty exactly for all-whitespace input. */
  lemma TrimEmpty(s: string)
    ensures Trim(s) == [] <==> forall i :: 0 <= i < |s| ==> IsWhitespace(s[i])
  {
    var t := TrimStart(s);
    TrimStartFacts(s);
    TrimEndFacts(t);
    if t != [] {
      assert t[0] == s[|s| - |t|];
      assert !IsWhitespace(t[0]);
      assert TrimEnd(t) != [];
    }
  }

  /** A string that neither starts nor ends with whitespace is its own trim. */
  lemma TrimOfTrimmed(s: string)
    requires s == [] || (!IsWhitespace(s[0]) && !IsWhitespace(s[|s| - 1]))
    ensures Trim(s) == s
  {
  }

  /** Trimming twice is trimming once. */
  lemma TrimIdempotent(s: string)
    ensures Trim(Trim(s)) == Trim(s)
  {
    TrimSpec(s);
    TrimOfTrimmed(Trim(s));
  }

  /** `w` occurs in `s` starting at index `i`. */
  predicate OccursAt(s: string, w: string, i: int) {
    0 <= i && i + |w| <= |s| && s[i..i + |w|] == w
  }

  /** String.prototype.includes. */
  predicate Contains(s: string, w: string) {
    exists i | 0 <= i <= |s| - |w| :: OccursAt(s, w, i)
  }

  lemma OccurrenceAt(s: string, w: string, i: int, k: int)
    ensures OccursAt(s, w, i) && i <= k < i + |w| ==> s[k] == w[k - i]
  {
    if OccursAt(s, w, i) && i <= k < i + |w| {
      assert s[i..i + |w|][k - i] == s[k];
    }
  }

  lemma OccurrenceContains(s: string, w: string, i: int, c: char)
    ensures OccursAt(s, w, i) && c in w ==> c in s
  {
    if OccursAt(s, w, i) && c in w {
      var j :| 0 <= j < |w| && w[j] == c;
      OccurrenceAt(s, w, i, i + j);
    }
  }

  /** A word holding a character that `s` lacks does not occur in `s`. */
  lemma CharAbsent(s: string, w: string, c: char)
    requires c in w && c !in s
    ensures !Contains(s, w)
  {
    forall i | OccursAt(s, w, i) ensures false {
      OccurrenceContains(s, w, i, c);
    }
  }

  /** A word without the character `c` occurs around a `c` only if it occurs on one side of it. */
  lemma ContainsAcross(a: string, c: char, b: string, w: string)
    requires c !in w
    ensures Contains(a + [c] + b, w) <==> Contains(a, w) || Contains(b, w)
  {
    var s := a + [c] + b;
    forall i | OccursAt(s, w, i) ensures OccursAt(a, w, i) || OccursAt(b, w, i - |a| - 1) {
      if i + |w| <= |a| {
        assert s[i..i + |w|] == a[i..i + |w|];
      } else if i > |a| {
        assert s[i..i + |w|] == b[i - |a| - 1..i - |a| - 1 + |w|];
      } else {
        OccurrenceAt(s, w, i, |a|);
      }
    }
    forall i | OccursAt(a, w, i) ensures OccursAt(s, w, i) {
      assert s[i..i + |w|] == a[i..i + |w|];
    }
    forall i | OccursAt(b, w, i) ensures OccursAt(s, w, i + |a| + 1) {
      assert s[i + |a| + 1..i + |a| + 1 + |w|] == b[i..i + |w|];
    }
  }

  /** A word without quotes occurs in a quoted value exactly when it occurs in the value. */
  lemma ContainsQuoted(v: string, w: string)
    requires '"' !in w && w != []
    ensures Contains("\"" + v + "\"", w) <==> Contains(v, w)
  {
    assert "\"" + v + "\"" == [] + ['"'] + (v + ['"'] + []);
    ContainsAcross([], '"', v + ['"'] + [], w);
    ContainsAcross(v, '"', [], w);
  }

  lemma ContainsInfix(a: string, w: string, b: string)
    ensures Contains(a + w + b, w)
  {
    assert (a + w + b)[|a|..|a| + |w|] == w;
    assert OccursAt(a + w + b, w, |a|);
  }

  /** String.prototype.split(sep): always at least one field, no field holds `sep`. */
  function Split(s: string, sep: char): (r: seq<string>)
    ensures |r| >= 1
  {
    if s == [] then [""]
    else if s[0] == sep then [""] + Split(s[1..], sep)
    else
      var rest := Split(s[1..], sep);
      [[s[0]] + rest[0]] + rest[1..]
  }

  lemma {:induction false} SplitWithoutSeparator(s: string, sep: char)
    requires sep !in s
    ensures Split(s, sep) == [s]
  {
    if s != [] {
      SplitWithoutSeparator(s[1..], sep);
      assert [s[0]] + s[1..] == s;
    }
  }

  lemma {:induction false} SplitAtFirstSeparator(a: string, sep: char, b: string)
    requires sep !in a
    ensures Split(a + [sep] + b, sep) == [a] + Split(b, sep)
  {
    if a == [] {
      assert a + [sep] + b == [sep] + b;
    } else {
      assert (a + [sep] + b)[1..] == a[1..] + [sep] + b;
      SplitAtFirstSeparator(a[1..], sep, b);
      assert [a[0]] + a[1..] == a;
    }
  }

  predicate AllDigits(s: string) {
    forall i :: 0 <= i < |s| ==> IsDigit(s[i])
  }

  lemma NonDigitAbsent(s: string, c: char)
    requires AllDigits(s) && !IsDigit(c)
    ensures c !in s
  {
    forall i | 0 <= i < |s| ensures s[i] != c {
    }
  }

  /** The value of a string of decimal digits, most significant first. */
  function DigitsValue(s: string): nat
    requires AllDigits(s)
  {
    if s == [] then 0 else 10 * DigitsValue(s[..|s| - 1]) + DigitValue(s[|s| - 1])
  }

  /** The decimal rendering of a natural number, as a template literal prints it. */
  function NatToString(n: nat): (r: string)
    ensures |r| >= 1 && AllDigits(r)
  {
    if n < 10 then [DigitChar(n)] else NatToString(n / 10) + [DigitChar(n % 10)]
  }

  function IntToString(n: int): (r: string)
    ensures |r| >= 1
  {
    if n >= 0 then NatToString(n) else "-" + NatToString(-n)
  }

  /** Rendering then reading back a natural number gives it back. */
  lemma {:induction false} DigitsOfNatToString(n: nat)
    ensures DigitsValue(NatToString(n)) == n
  {
    if n >= 10 {
      DigitsOfNatToString(n / 10);
      var s := NatToString(n);
      assert s[..|s| - 1] == NatToString(n / 10);
    }
  }

  /** The result of JavaScript's Number(s): a finite integer or NaN. */
  datatype JsNumber = Finite(v: int) | NaN

  /**
   * Number(s) on the strings a clock field can hold: surrounding whitespace is
   * ignored, an empty string is 0, decimal digits give their value, anything else is NaN.
   */
  function ToNumber(s: string): (r: JsNumber)
    ensures r.Finite? ==> r.v >= 0
  {
    var t := Trim(s);
    if AllDigits(t) then Finite(DigitsValue(t)) else NaN
  }

  /** Number(String(n)) == n. */
  lemma ToNumberOfNatToString(n: nat)
    ensures ToNumber(NatToString(n)) == Finite(n)
  {
    var s := NatToString(n);
    assert !IsWhitespace(s[0]) && !IsWhitespace(s[|s| - 1]);
    TrimOfTrimmed(s);
    DigitsOfNatToString(n);
  }
}

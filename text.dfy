/** The JavaScript string built-ins the source relies on, as functions on
    `string` (a sequence of UTF-16 code units in the source, of `char` here):
    `trim`, `split` on a single character, on runs of a character class, and on
    line breaks, `includes`, `startsWith`, and `Number(...)` applied to a
    string that holds a decimal literal. */
module Text {
  import opened Wrappers
  import opened Seqs

  /** The characters `trim` removes and `\s` matches: WhiteSpace and
      LineTerminator of ECMA-262. */
  predicate IsSpace(c: char) {
    c == ' ' || c == '\t' || c == '\n' || c == '\r' || c == '\U{000B}' || c == '\U{000C}'
    || c == '\U{00A0}' || c == '\U{1680}' || ('\U{2000}' <= c <= '\U{200A}')
    || c == '\U{2028}' || c == '\U{2029}' || c == '\U{202F}' || c == '\U{205F}'
    || c == '\U{3000}' || c == '\U{FEFF}'
  }

  predicate IsTab(c: char) { c == '\t' }

  function TrimStart(s: string): (r: string)
    ensures |r| <= |s| && r == s[|s| - |r|..]
    ensures forall i :: 0 <= i < |s| - |r| ==> IsSpace(s[i])
    ensures r == [] || !IsSpace(r[0])
  {
    if |s| > 0 && IsSpace(s[0]) then TrimStart(s[1..]) else s
  }

  function TrimEnd(s: string): (r: string)
    ensures |r| <= |s| && r == s[..|r|]
    ensures forall i :: |r| <= i < |s| ==> IsSpace(s[i])
    ensures r == [] || !IsSpace(r[|r| - 1])
  {
    if |s| > 0 && IsSpace(s[|s| - 1]) then TrimEnd(s[..|s| - 1]) else s
  }

  /** No white space at either end. */
  predicate Trimmed(s: string) {
    s == [] || (!IsSpace(s[0]) && !IsSpace(s[|s| - 1]))
  }

  /** `String.prototype.trim`: white space is removed from both ends, nothing
      else changes, and a string made only of white space becomes empty. */
  function Trim(s: string): (r: string)
    ensures Trimmed(r)
    ensures Trimmed(s) ==> r == s
    ensures r == [] <==> forall i :: 0 <= i < |s| ==> IsSpace(s[i])
  {
    var t := TrimStart(s);
    var r := TrimEnd(t);
    assert r != [] ==> !IsSpace(r[0]) by {
      if r != [] { assert r[0] == t[0]; }
    }
    r
  }

  /** `pieces.join(sep)` with a one-character separator. */
  function Join(pieces: seq<string>, sep: char): string
    requires |pieces| >= 1
  {
    if |pieces| == 1 then pieces[0] else pieces[0] + [sep] + Join(pieces[1..], sep)
  }

  /** `s.split(sep)` with a one-character separator string: the pieces hold no
      separator, and joining them back gives `s`. */
  function SplitOn(s: string, sep: char): (r: seq<string>)
    ensures |r| >= 1
    ensures forall i :: 0 <= i < |r| ==> sep !in r[i]
    ensures Join(r, sep) == s
    decreases |s|
  {
    match IndexOf(s, sep)
    case None => [s]
    case Some(i) =>
      var rest := SplitOn(s[i + 1..], sep);
      assert s == s[..i] + [sep] + s[i + 1..];
      [s[..i]] + rest
  }

  /** Drops one carriage return at the end of a line. */
  function DropCR(s: string): (r: string)
    ensures r == s || (s == r + ['\r'])
  {
    if |s| > 0 && s[|s| - 1] == '\r' then s[..|s| - 1] else s
  }

  /** The `i`-th line of the pieces of a split at line feeds: every piece
      but the last gives up a carriage return at its end. */
  function LineAt(parts: seq<string>, i: nat): string
    requires i < |parts|
  {
    if i < |parts| - 1 then DropCR(parts[i]) else parts[i]
  }

  /** `s.split(/\r?\n/)`: split at every line feed, and a carriage return just
      before a line feed belongs to the break. */
  function SplitLines(s: string): (r: seq<string>)
    ensures |r| == |SplitOn(s, '\n')|
    ensures forall i :: 0 <= i < |r| ==> r[i] == LineAt(SplitOn(s, '\n'), i)
  {
    var parts := SplitOn(s, '\n');
    seq(|parts|, i requires 0 <= i < |parts| => LineAt(parts, i))
  }

  /** The index of the first character of `s` that `isSep` accepts, if any. */
  function FirstWhere(s: string, isSep: char -> bool): (r: Option<nat>)
    ensures r.None? ==> forall k :: 0 <= k < |s| ==> !isSep(s[k])
    ensures r.Some? ==> r.value < |s| && isSep(s[r.value]) && forall k :: 0 <= k < r.value ==> !isSep(s[k])
  {
    if |s| == 0 then None
    else if isSep(s[0]) then Some(0)
    else match FirstWhere(s[1..], isSep)
      case None => None
      case Some(i) => Some(i + 1)
  }

  /** The end of the run of separators that starts at `i`. */
  function RunEnd(s: string, isSep: char -> bool, i: nat): (j: nat)
    requires i <= |s|
    ensures i <= j <= |s|
    ensures forall k :: i <= k < j ==> isSep(s[k])
    ensures j == |s| || !isSep(s[j])
    decreases |s| - i
  {
    if i < |s| && isSep(s[i]) then RunEnd(s, isSep, i + 1) else i
  }

  /** `s.split(/X+/)` for a character class X given by `isSep`: the pieces
      between maximal runs of separators. No piece holds a separator, and when
      `s` neither starts nor ends with one, no piece is empty. */
  function SplitRuns(s: string, isSep: char -> bool): (r: seq<string>)
    ensures |r| >= 1
    ensures forall i, k :: 0 <= i < |r| && 0 <= k < |r[i]| ==> !isSep(r[i][k])
    ensures |s| > 0 && !isSep(s[0]) && !isSep(s[|s| - 1]) ==> forall i :: 0 <= i < |r| ==> r[i] != []
    ensures (forall k :: 0 <= k < |s| ==> !isSep(s[k])) ==> r == [s]
    decreases |s|
  {
    match FirstWhere(s, isSep)
    case None => [s]
    case Some(i) =>
      var j := RunEnd(s, isSep, i);
      var rest := SplitRuns(s[j..], isSep);
      assert |s| > 0 && !isSep(s[|s| - 1]) ==> j < |s|;
      [s[..i]] + rest
  }

  /** `s.startsWith(p)`. */
  predicate StartsWith(s: string, p: string) {
    |p| <= |s| && s[..|p|] == p
  }

  /** `s.includes(sub)`: `sub` occurs in `s` at some position. */
  predicate Contains(s: string, sub: string)
    decreases |s|
  {
    StartsWith(s, sub) || (|s| > 0 && Contains(s[1..], sub))
  }

  predicate IsDigit(c: char) { '0' <= c <= '9' }

  predicate AllDigits(s: string) { forall i :: 0 <= i < |s| ==> IsDigit(s[i]) }

  /** The value of a string of decimal digits. */
  function DigitsValue(s: string): nat
    requires AllDigits(s)
    decreases |s|
  {
    if s == [] then 0 else DigitsValue(s[..|s| - 1]) * 10 + ((s[|s| - 1] as int) - ('0' as int))
  }

  function Pow10(n: nat): (r: nat)
    ensures r >= 1
  {
    if n == 0 then 1 else 10 * Pow10(n - 1)
  }

  /** An unsigned decimal literal: digits, optionally a point and more digits,
      with at least one digit on one side of the point. */
  function ParseUnsigned(u: string): (r: Option<real>)
    ensures r.Some? ==> r.value >= 0.0
    ensures |u| > 0 && AllDigits(u) ==> r == Some(DigitsValue(u) as real)
  {
    match IndexOf(u, '.')
    case None =>
      if |u| > 0 && AllDigits(u) then Some(DigitsValue(u) as real) else None
    case Some(i) =>
      var whole, frac := u[..i], u[i + 1..];
      if AllDigits(whole) && AllDigits(frac) && |whole| + |frac| > 0 then
        Some(DigitsValue(whole) as real + DigitsValue(frac) as real / Pow10(|frac|) as real)
      else None
  }

  /** A signed decimal literal. */
  function ParseDecimal(t: string): Option<real> {
    if |t| > 0 && t[0] == '-' then
      match ParseUnsigned(t[1..])
      case None => None
      case Some(v) => Some(-v)
    else if |t| > 0 && t[0] == '+' then ParseUnsigned(t[1..])
    else ParseUnsigned(t)
  }

  /** `Number(s)` for a string: surrounding white space is ignored, an empty
      or blank string is 0, a decimal literal is its value, and anything else
      is not a finite number (`None`). */
  function JsNumber(s: string): (r: Option<real>)
    ensures (forall i :: 0 <= i < |s| ==> IsSpace(s[i])) ==> r == Some(0.0)
  {
    var t := Trim(s);
    if t == [] then Some(0.0) else ParseDecimal(t)
  }

  function DigitChar(d: nat): (c: char)
    requires d < 10
    ensures IsDigit(c) && (c as int) - ('0' as int) == d
  {
    ('0' as int + d) as char
  }

  /** The decimal representation of a natural number. */
  function ShowNat(n: nat): (s: string)
    ensures |s| >= 1 && AllDigits(s)
  {
    if n < 10 then [DigitChar(n)] else ShowNat(n / 10) + [DigitChar(n % 10)]
  }

  lemma {:induction false} ShowNatValue(n: nat)
    ensures DigitsValue(ShowNat(n)) == n
  {
    if n >= 10 {
      ShowNatValue(n / 10);
      var s := ShowNat(n);
      assert s[..|s| - 1] == ShowNat(n / 10);
    }
  }

  /** Reading back the decimal text of a natural number gives the number. */
  lemma JsNumberShowNat(n: nat)
    ensures JsNumber(ShowNat(n)) == Some(n as real)
  {
    var s := ShowNat(n);
    ShowNatValue(n);
    assert !IsSpace(s[0]) && !IsSpace(s[|s| - 1]) by {
      assert IsDigit(s[0]) && IsDigit(s[|s| - 1]);
    }
    assert Trim(s) == s;
    assert s[0] != '-' && s[0] != '+' by { assert IsDigit(s[0]); }
  }
}

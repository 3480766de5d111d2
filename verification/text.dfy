/** String helpers that both the dashboard (JavaScript) and the voice app
    (Python) rely on: decimal rendering, whitespace classes, trimming,
    splitting on a separator, and fixed-point formatting with one decimal. */
module Text {
  import opened Options

  predicate IsDigit(c: char) {
    '0' <= c <= '9'
  }

  function DigitChar(d: nat): (c: char)
    requires d < 10
    ensures IsDigit(c) && DigitOf(c) == d
  {
    "0123456789"[d]
  }

  function DigitOf(c: char): (d: nat)
    requires IsDigit(c)
    ensures d < 10
  {
    c as int - '0' as int
  }

  /** Decimal rendering of a natural number, as `String(n)` in JavaScript
      and `str(n)` in Python print it: no sign, no leading zero. */
  function Decimal(n: nat): (s: string)
    ensures 1 <= |s|
    ensures forall i :: 0 <= i < |s| ==> IsDigit(s[i])
    ensures 1 < |s| ==> s[0] != '0'
  {
    if n < 10 then [DigitChar(n)] else Decimal(n / 10) + [DigitChar(n % 10)]
  }

  /** Decimal rendering of an integer, with a leading '-' when negative. */
  function IntText(i: int): (s: string)
    ensures 1 <= |s|
    ensures (s[0] == '-') == (i < 0)
  {
    if i < 0 then "-" + Decimal(-i) else Decimal(i)
  }

  /** The value of a non-empty string of digits, read left to right. */
  function DigitsValue(s: string): nat
    requires 1 <= |s|
    requires forall i :: 0 <= i < |s| ==> IsDigit(s[i])
  {
    var last := DigitOf(s[|s| - 1]);
    if |s| == 1 then last else DigitsValue(s[..|s| - 1]) * 10 + last
  }

  /** Reading back a string of decimal digits; `None` for anything else. */
  function ParseDecimal(s: string): (r: Option<nat>)
    ensures r.Some? <==> 1 <= |s| && forall i :: 0 <= i < |s| ==> IsDigit(s[i])
  {
    if 1 <= |s| && forall i :: 0 <= i < |s| ==> IsDigit(s[i]) then Some(DigitsValue(s)) else None
  }

  /** Decimal rendering is read back exactly: the numbers written into alert
      ids, status messages and guideline numbering are unambiguous. */
  lemma {:induction false} DecimalRoundTrip(n: nat)
    ensures ParseDecimal(Decimal(n)) == Some(n)
  {
    if 10 <= n {
      var p := Decimal(n / 10);
      var s := p + [DigitChar(n % 10)];
      assert s[..|s| - 1] == p;
      DecimalRoundTrip(n / 10);
    }
  }

  lemma DecimalInjective(m: nat, n: nat)
    requires Decimal(m) == Decimal(n)
    ensures m == n
  {
    DecimalRoundTrip(m);
    DecimalRoundTrip(n);
  }

  lemma IntTextInjective(i: int, j: int)
    requires IntText(i) == IntText(j)
    ensures i == j
  {
    if i < 0 {
      assert IntText(i)[1..] == Decimal(-i) && IntText(j)[1..] == Decimal(-j);
      DecimalInjective(-i, -j);
    } else {
      DecimalInjective(i, j);
    }
  }

  // ---------------------------------------------------------------------
  // Whitespace

  /** The characters JavaScript's `String.prototype.trim` removes: the
      WhiteSpace and LineTerminator productions of ECMAScript. */
  predicate JsSpace(c: char) {
    c == '\t' || c == '\n' || c == '\U{000B}' || c == '\U{000C}' || c == '\r' || c == ' '
    || c == '\U{00A0}' || c == '\U{1680}' || ('\U{2000}' <= c <= '\U{200A}')
    || c == '\U{2028}' || c == '\U{2029}' || c == '\U{202F}' || c == '\U{205F}'
    || c == '\U{3000}' || c == '\U{FEFF}'
  }

  /** The characters for which Python's `str.isspace` holds, which
      `str.strip()` removes. */
  predicate PySpace(c: char) {
    ('\t' <= c <= '\r') || ('\U{001C}' <= c <= ' ') || c == '\U{0085}' || c == '\U{00A0}'
    || c == '\U{1680}' || ('\U{2000}' <= c <= '\U{200A}') || c == '\U{2028}'
    || c == '\U{2029}' || c == '\U{202F}' || c == '\U{205F}' || c == '\U{3000}'
  }

  /** `not text.strip()` in Python: the text is empty or all whitespace. */
  predicate PyBlank(s: string) {
    forall i :: 0 <= i < |s| ==> PySpace(s[i])
  }

  predicate JsBlank(s: string) {
    forall i :: 0 <= i < |s| ==> JsSpace(s[i])
  }

  function TrimStart(s: string): (r: string)
    ensures |r| <= |s| && r == s[|s| - |r|..]
    ensures forall i :: 0 <= i < |s| - |r| ==> JsSpace(s[i])
    ensures r == [] || !JsSpace(r[0])
  {
    if s != [] && JsSpace(s[0]) then TrimStart(s[1..]) else s
  }

  function TrimEnd(s: string): (r: string)
    ensures |r| <= |s| && r == s[..|r|]
    ensures forall i :: |r| <= i < |s| ==> JsSpace(s[i])
    ensures r == [] || !JsSpace(r[|r| - 1])
  {
    if s != [] && JsSpace(s[|s| - 1]) then TrimEnd(s[..|s| - 1]) else s
  }

  /** JavaScript's `s.trim()`. */
  function Trim(s: string): (r: string)
  {
    TrimEnd(TrimStart(s))
  }

  /** `s.trim()` is falsy (empty) exactly when `s` is all whitespace, and
      otherwise it starts and ends with a non-whitespace character. */
  lemma TrimShape(s: string)
    ensures Trim(s) == [] <==> JsBlank(s)
    ensures Trim(s) != [] ==> !JsSpace(Trim(s)[0]) && !JsSpace(Trim(s)[|Trim(s)| - 1])
  {
    var t := TrimStart(s);
    var r := TrimEnd(t);
    if r != [] {
      assert r[0] == t[0];
    }
  }

  // ---------------------------------------------------------------------
  // Splitting and joining

  /** JavaScript's `s.split(sep)` for a one-character separator: the pieces
      between separators, always at least one (`"".split(sep)` is `[""]`). */
  function Split(s: string, sep: char): (parts: seq<string>)
    ensures 1 <= |parts|
  {
    if s == [] then [""]
    else
      var rest := Split(s[1..], sep);
      if s[0] == sep then [""] + rest else [[s[0]] + rest[0]] + rest[1..]
  }

  /** The inverse of `Split`: the pieces glued back with the separator. */
  function Join(parts: seq<string>, sep: char): string
    requires 1 <= |parts|
  {
    if |parts| == 1 then parts[0] else parts[0] + [sep] + Join(parts[1..], sep)
  }

  lemma {:induction false} SplitPiecesHaveNoSeparator(s: string, sep: char)
    ensures forall k, i :: 0 <= k < |Split(s, sep)| && 0 <= i < |Split(s, sep)[k]| ==> Split(s, sep)[k][i] != sep
  {
    if s != [] {
      SplitPiecesHaveNoSeparator(s[1..], sep);
    }
  }

  /** Joining the pieces of a split gives back the original string. */
  lemma {:induction false} JoinSplit(s: string, sep: char)
    ensures Join(Split(s, sep), sep) == s
  {
    if s != [] {
      var rest := Split(s[1..], sep);
      JoinSplit(s[1..], sep);
      if s[0] == sep {
        assert Split(s, sep) == [""] + rest;
        assert ([""] + rest)[1..] == rest;
      } else {
        var parts := Split(s, sep);
        assert parts == [[s[0]] + rest[0]] + rest[1..];
        if |rest| == 1 {
          assert Join(parts, sep) == [s[0]] + rest[0];
        } else {
          assert parts[1..] == rest[1..];
          assert Join(rest, sep) == rest[0] + [sep] + Join(rest[1..], sep);
        }
      }
    }
  }

  /** Splitting a join of separator-free pieces gives back the pieces. */
  lemma {:induction false} SplitJoin(parts: seq<string>, sep: char)
    requires 1 <= |parts|
    requires forall k, i :: 0 <= k < |parts| && 0 <= i < |parts[k]| ==> parts[k][i] != sep
    ensures Split(Join(parts, sep), sep) == parts
  {
    if |parts| == 1 {
      SplitOfPiece(parts[0], sep);
    } else {
      var tail := Join(parts[1..], sep);
      SplitJoin(parts[1..], sep);
      SplitPieceThenSeparator(parts[0], sep, tail);
      assert [parts[0]] + parts[1..] == parts;
    }
  }

  lemma {:induction false} SplitOfPiece(p: string, sep: char)
    requires forall i :: 0 <= i < |p| ==> p[i] != sep
    ensures Split(p, sep) == [p]
  {
    if p != [] {
      SplitOfPiece(p[1..], sep);
      assert [p[0]] + p[1..] == p;
    }
  }

  lemma {:induction false} SplitPieceThenSeparator(p: string, sep: char, tail: string)
    requires forall i :: 0 <= i < |p| ==> p[i] != sep
    ensures Split(p + [sep] + tail, sep) == [p] + Split(tail, sep)
  {
    var s := p + [sep] + tail;
    if p == [] {
      assert s[1..] == tail;
    } else {
      assert s[1..] == p[1..] + [sep] + tail;
      SplitPieceThenSeparator(p[1..], sep, tail);
      assert [p[0]] + p[1..] == p;
    }
  }

  /** Splitting `text + [sep] + piece` for a piece without separators adds
      that piece as a last part. */
  lemma {:induction false} SplitAppendPiece(text: string, sep: char, piece: string)
    requires forall i :: 0 <= i < |piece| ==> piece[i] != sep
    ensures Split(text + [sep] + piece, sep) == Split(text, sep) + [piece]
  {
    if text == [] {
      assert text + [sep] + piece == [] + [sep] + piece;
      SplitPieceThenSeparator([], sep, piece);
      SplitOfPiece(piece, sep);
    } else {
      assert (text + [sep] + piece)[1..] == text[1..] + [sep] + piece;
      SplitAppendPiece(text[1..], sep, piece);
    }
  }

  // ---------------------------------------------------------------------
  // Number formatting

  /** JavaScript's `x.toFixed(1)` on an exact value below 10^21: the sign
      first, then the magnitude rounded to tenths with ties going up. */
  function Fixed1(x: real): (s: string)
    ensures 3 <= |s|
    ensures s[|s| - 2] == '.' && IsDigit(s[|s| - 1])
    ensures (s[0] == '-') == (x < 0.0)
  {
    var m := if x < 0.0 then -x else x;
    var n := (m * 10.0 + 0.5).Floor;
    var digits := Decimal(n / 10) + "." + [DigitChar(n % 10)];
    if x < 0.0 then "-" + digits else digits
  }
}

/**
 * String primitives the forms rely on, written out as JavaScript defines them:
 * the white-space set used by `trim()` and by `\s`/`\S` in regular
 * expressions, the two validation patterns, `String.prototype.split` on one
 * character, and the decimal conversions `String(n)` and `parseInt(s, 10)`.
 */
module Text {

  datatype Option<T> = None | Some(value: T)

  /** `x || ''` for an optional text: the text, or the empty string when it is missing. */
  function OrEmpty(s: Option<string>): (r: string)
    ensures s.Some? ==> r == s.value
    ensures s.None? ==> r == ""
  {
    if s.Some? then s.value else ""
  }

  /** The characters JavaScript treats as white space (WhiteSpace and LineTerminator). */
  predicate IsWhitespace(c: char)
  {
    c == '\t' || c == '\n' || c == '\U{000B}' || c == '\U{000C}' || c == '\r' || c == ' ' ||
    c == '\U{00A0}' || c == '\U{1680}' || ('\U{2000}' <= c <= '\U{200A}') ||
    c == '\U{2028}' || c == '\U{2029}' || c == '\U{202F}' || c == '\U{205F}' ||
    c == '\U{3000}' || c == '\U{FEFF}'
  }

  /** `\d` without the unicode flag: the ASCII digits. */
  predicate IsDigit(c: char)
  {
    '0' <= c <= '9'
  }

  predicate AllWhitespace(s: string)
  {
    forall i {:trigger IsWhitespace(s[i])} :: 0 <= i < |s| ==> IsWhitespace(s[i])
  }

  function TrimStart(s: string): (r: string)
    ensures |r| <= |s| && r == s[|s| - |r|..]
    ensures r == [] || !IsWhitespace(r[0])
    ensures AllWhitespace(s[..|s| - |r|])
  {
    if |s| > 0 && IsWhitespace(s[0]) then
      var r := TrimStart(s[1..]);
      WhitespaceHeadStep(s, |r|);
      r
    else s
  }

  function TrimEnd(s: string): (r: string)
    ensures |r| <= |s| && r == s[..|r|]
    ensures r == [] || !IsWhitespace(r[|r| - 1])
    ensures AllWhitespace(s[|r|..])
  {
    if |s| > 0 && IsWhitespace(s[|s| - 1]) then
      var r := TrimEnd(s[..|s| - 1]);
      WhitespaceTailStep(s, |r|);
      r
    else s
  }

  /** A white-space first character followed by a white-space run, `n` characters short of the end. */
  lemma WhitespaceHeadStep(s: string, n: nat)
    requires 1 <= |s| && n <= |s| - 1 && IsWhitespace(s[0]) && AllWhitespace(s[1..][..|s[1..]| - n])
    ensures AllWhitespace(s[..|s| - n])
  {
    var p := s[..|s| - n];
    forall i | 0 <= i < |p|
      ensures IsWhitespace(p[i])
    {
      if i > 0 {
        assert p[i] == s[1..][..|s[1..]| - n][i - 1];
      }
    }
  }

  /** A white-space run followed by a white-space last character. */
  lemma WhitespaceTailStep(s: string, k: nat)
    requires k + 1 <= |s| && IsWhitespace(s[|s| - 1]) && AllWhitespace(s[..|s| - 1][k..])
    ensures AllWhitespace(s[k..])
  {
    forall i | 0 <= i < |s| - k
      ensures IsWhitespace(s[k..][i])
    {
      if i < |s| - 1 - k {
        assert s[k..][i] == s[..|s| - 1][k..][i];
      }
    }
  }

  /** How many leading white-space characters `trim()` drops from `s`. */
  function TrimOffset(s: string): (n: nat)
    ensures n <= |s|
  {
    |s| - |TrimStart(s)|
  }

  /** `s.trim()`: a slice of `s` with no white space at either end, cut only from white space. */
  /**
   * `r` is the piece of `s` starting at `off`, with no white space at either
   * end, and only white space stands before and after it in `s`.
   */
  predicate TrimmedPiece(s: string, off: nat, r: string)
  {
    off + |r| <= |s| && r == s[off..off + |r|] &&
    (r == [] || (!IsWhitespace(r[0]) && !IsWhitespace(r[|r| - 1]))) &&
    AllWhitespace(s[..off]) && AllWhitespace(s[off + |r|..])
  }

  function Trim(s: string): (r: string)
    ensures TrimmedPiece(s, TrimOffset(s), r)
  {
    var t := TrimStart(s);
    var r := TrimEnd(t);
    TrimParts(s, t, r, TrimOffset(s));
    r
  }

  /**
   * What `Trim` promises, from what `TrimStart` and `TrimEnd` promise about
   * `t` and `r`; `off` is the number of characters `TrimStart` dropped.
   */
  lemma TrimParts(s: string, t: string, r: string, off: nat)
    requires off == |s| - |t| && |t| <= |s| && t == s[off..] && (t == [] || !IsWhitespace(t[0]))
    requires AllWhitespace(s[..off])
    requires |r| <= |t| && r == t[..|r|] && (r == [] || !IsWhitespace(r[|r| - 1]))
    requires AllWhitespace(t[|r|..])
    ensures TrimmedPiece(s, off, r)
  {
    SlicesOfSuffix(s, t, |r|);
    assert r != [] ==> r[0] == t[0];
  }

  /** Slices of a suffix `t` of `s`, located in `s`. */
  lemma SlicesOfSuffix(s: string, t: string, k: nat)
    requires |t| <= |s| && t == s[|s| - |t|..] && k <= |t|
    ensures s[|s| - |t| + k..] == t[k..] && s[|s| - |t|..|s| - |t| + k] == t[..k]
  {
  }

  /**
   * `!s.trim()`: the field holds nothing but white space. Stated on the
   * characters; BlankIffTrimEmpty shows it is exactly an empty `trim()`.
   */
  predicate IsBlank(s: string)
  {
    AllWhitespace(s)
  }

  lemma BlankIffTrimEmpty(s: string)
    ensures IsBlank(s) <==> Trim(s) == ""
  {
    var r, i := Trim(s), TrimOffset(s);
    assert TrimmedPiece(s, i, r);
    if r != [] {
      assert r[0] == s[i];
      assert !IsWhitespace(s[i]);
    } else {
      var front, back := s[..i], s[i..];
      assert AllWhitespace(front) && AllWhitespace(back);
      forall k | 0 <= k < |s|
        ensures IsWhitespace(s[k])
      {
        if k < i {
          assert s[k] == front[k];
        } else {
          assert s[k] == back[k - i];
        }
      }
    }
  }

  /**
   * `/\S+@\S+\.\S+/.test(s)`: the pattern is not anchored, so it holds when some
   * `@` has a non-space character before it and is followed by a run of at least
   * one non-space character, then a `.`, then one more non-space character.
   */
  predicate EmailPattern(s: string)
  {
    exists a, d :: 0 <= a < |s| && 0 <= d < |s| && EmailMatchAt(s, a, d)
  }

  /** The pattern matches with its `@` at index `a` and its `.` at index `d`. */
  predicate EmailMatchAt(s: string, a: int, d: int)
  {
    1 <= a && a + 2 <= d && d + 1 < |s| && s[a] == '@' && s[d] == '.' &&
    !IsWhitespace(s[a - 1]) && !IsWhitespace(s[d + 1]) && NoWhitespaceBetween(s, a, d)
  }

  /** Every character strictly between indices `lo` and `hi` is not white space. */
  predicate NoWhitespaceBetween(s: string, lo: int, hi: int)
  {
    forall k :: lo < k < hi && 0 <= k < |s| ==> !IsWhitespace(s[k])
  }

  /** `/^(?:\+380|0)\d{9}$/.test(s)`: a Ukrainian number with the +380 or 0 prefix and nine digits. */
  predicate PhonePattern(s: string)
  {
    (|s| == 13 && s[..4] == "+380" && forall i :: 4 <= i < 13 ==> IsDigit(s[i])) ||
    (|s| == 10 && s[0] == '0' && forall i :: 1 <= i < 10 ==> IsDigit(s[i]))
  }

  lemma EmailNeedsFiveCharacters(s: string)
    requires EmailPattern(s)
    ensures |s| >= 5 && '@' in s && '.' in s && !IsBlank(s)
  {
    var a, d :| 0 <= a < |s| && 0 <= d < |s| && EmailMatchAt(s, a, d);
    BlankIffTrimEmpty(s);
  }

  /** The pattern is unanchored: surrounding text never turns a match into a mismatch. */
  lemma EmailPatternUnanchored(p: string, s: string, q: string)
    requires EmailPattern(s)
    ensures EmailPattern(p + s + q)
  {
    var a, d :| 0 <= a < |s| && 0 <= d < |s| && EmailMatchAt(s, a, d);
    var t := p + s + q;
    var a', d' := |p| + a, |p| + d;
    assert 1 <= a && a + 2 <= d && d + 1 < |s|;
    assert t[a'] == s[a] && t[d'] == s[d] && t[a' - 1] == s[a - 1] && t[d' + 1] == s[d + 1];
    forall k | a' < k < d' ensures !IsWhitespace(t[k]) {
      assert t[k] == s[k - |p|];
    }
    assert EmailMatchAt(t, a', d');
  }

  lemma EmailExamples()
    ensures EmailPattern("a@b.c")
    ensures !EmailPattern("a@b")
    ensures !EmailPattern("@b.c")
    ensures EmailPattern(" x a@b.c ")
  {
    var e := "a@b.c";
    assert EmailMatchAt(e, 1, 3);
    EmailPatternUnanchored(" x ", e, " ");
    assert " x " + e + " " == " x a@b.c ";
  }

  lemma PhoneExamples()
    ensures PhonePattern("0991234567")
    ensures PhonePattern("+380991234567")
    ensures !PhonePattern("380991234567")
    ensures !PhonePattern(" 0991234567")
  {
    assert "+380991234567"[..4] == "+380";
  }

  /** `s.replace(/x/g, y)` for one character. */
  function ReplaceChar(s: string, x: char, y: char): (r: string)
    ensures |r| == |s|
    ensures forall i :: 0 <= i < |s| ==> r[i] == (if s[i] == x then y else s[i])
  {
    if s == [] then [] else [if s[0] == x then y else s[0]] + ReplaceChar(s[1..], x, y)
  }

  /** Number of occurrences of `c` in `s`. */
  function CountChar(s: string, c: char): nat
  {
    if s == [] then 0 else (if s[0] == c then 1 else 0) + CountChar(s[1..], c)
  }

  /** `s.split(sep)` for a one-character separator. */
  function Split(s: string, sep: char): (r: seq<string>)
    ensures |r| >= 1
  {
    if s == [] then [[]]
    else if s[0] == sep then [[]] + Split(s[1..], sep)
    else
      var rest := Split(s[1..], sep);
      [[s[0]] + rest[0]] + rest[1..]
  }

  /** `pieces.join(sep)`, the inverse of Split. */
  function Join(pieces: seq<string>, sep: char): string
  {
    if pieces == [] then []
    else if |pieces| == 1 then pieces[0]
    else pieces[0] + [sep] + Join(pieces[1..], sep)
  }

  /** Joining the pieces, the number of pieces, and separator-free pieces. */
  lemma SplitProperties(s: string, sep: char)
    ensures Join(Split(s, sep), sep) == s
    ensures |Split(s, sep)| == CountChar(s, sep) + 1
    ensures forall i :: 0 <= i < |Split(s, sep)| ==> sep !in Split(s, sep)[i]
  {
    SplitJoin(s, sep);
    SplitCount(s, sep);
    SplitPiecesFree(s, sep);
  }

  lemma {:induction false} SplitJoin(s: string, sep: char)
    ensures Join(Split(s, sep), sep) == s
  {
    if s != [] {
      var rest := Split(s[1..], sep);
      SplitJoin(s[1..], sep);
      if s[0] == sep {
        assert Split(s, sep) == [[]] + rest;
        assert ([[]] + rest)[1..] == rest;
        assert s == [sep] + s[1..];
      } else {
        JoinExtendFirst([s[0]], rest, sep);
        assert s == [s[0]] + s[1..];
      }
    }
  }

  /** Extending the first piece extends the joined text by the same prefix. */
  lemma JoinExtendFirst(p: string, rest: seq<string>, sep: char)
    requires |rest| >= 1
    ensures Join([p + rest[0]] + rest[1..], sep) == p + Join(rest, sep)
  {
    var r := [p + rest[0]] + rest[1..];
    if |rest| > 1 {
      assert r[1..] == rest[1..];
      assert p + rest[0] + [sep] + Join(rest[1..], sep) == p + (rest[0] + [sep] + Join(rest[1..], sep));
    }
  }

  lemma {:induction false} SplitCount(s: string, sep: char)
    ensures |Split(s, sep)| == CountChar(s, sep) + 1
  {
    if s != [] {
      SplitCount(s[1..], sep);
    }
  }

  lemma {:induction false} SplitPiecesFree(s: string, sep: char)
    ensures forall i :: 0 <= i < |Split(s, sep)| ==> sep !in Split(s, sep)[i]
  {
    if s != [] {
      var rest := Split(s[1..], sep);
      SplitPiecesFree(s[1..], sep);
      var r := Split(s, sep);
      if s[0] == sep {
        assert r[1..] == rest;
        forall i | 0 <= i < |r| ensures sep !in r[i] {
          if i > 0 {
            assert r[i] == rest[i - 1];
          }
        }
      } else {
        forall i | 0 <= i < |r| ensures sep !in r[i] {
          if i == 0 {
            assert r[0] == [s[0]] + rest[0];
          } else {
            assert r[i] == rest[i];
          }
        }
      }
    }
  }

  function DigitChar(d: nat): (c: char)
    requires d < 10
    ensures IsDigit(c)
  {
    ['0', '1', '2', '3', '4', '5', '6', '7', '8', '9'][d]
  }

  function DigitValue(c: char): (d: nat)
    requires IsDigit(c)
    ensures d < 10
  {
    (c as int - '0' as int) as nat
  }

  lemma DigitRoundTrip(d: nat)
    requires d < 10
    ensures DigitValue(DigitChar(d)) == d
  {
  }

  /** `String(n)` for a non-negative integer. */
  function NatToString(n: nat): (r: string)
    ensures |r| >= 1
    ensures forall i :: 0 <= i < |r| ==> IsDigit(r[i])
  {
    if n < 10 then [DigitChar(n)] else NatToString(n / 10) + [DigitChar(n % 10)]
  }

  predicate AllDigits(s: string)
  {
    forall i :: 0 <= i < |s| ==> IsDigit(s[i])
  }

  /** The value of a run of decimal digits. */
  function DigitsValue(s: string): nat
    requires AllDigits(s)
  {
    if s == [] then 0 else DigitsValue(s[..|s| - 1]) * 10 + DigitValue(s[|s| - 1])
  }

  /** The longest prefix of `s` made of digits. */
  function DigitPrefix(s: string): (r: string)
    ensures r <= s && AllDigits(r)
    ensures |r| == |s| || !IsDigit(s[|r|])
  {
    if s != [] && IsDigit(s[0]) then [s[0]] + DigitPrefix(s[1..]) else []
  }

  /**
   * `parseInt(s, 10)`: leading white space and one sign are skipped, then the
   * longest run of digits is read; with no digit the result is NaN (None).
   */
  function ParseInt(s: string): (r: Option<int>)
    ensures r.Some? <==> StartsNumeric(TrimStart(s))
    ensures r.Some? && r.value < 0 ==> TrimStart(s)[0] == '-'
  {
    ParseSigned(TrimStart(s))
  }

  /** Text that starts with a digit, or with a sign followed by a digit. */
  predicate StartsNumeric(t: string)
  {
    (t != [] && IsDigit(t[0])) || (|t| >= 2 && (t[0] == '+' || t[0] == '-') && IsDigit(t[1]))
  }

  function ParseSigned(t: string): (r: Option<int>)
    ensures r.Some? <==> StartsNumeric(t)
    ensures r.Some? && r.value < 0 ==> t[0] == '-'
  {
    if t != [] && t[0] == '-' then
      match ParseDigits(t[1..])
      case None => None
      case Some(v) => Some(-v)
    else if t != [] && t[0] == '+' then ParseDigits(t[1..])
    else ParseDigits(t)
  }

  /** The value of the leading run of digits of `t`, or None when `t` does not start with a digit. */
  function ParseDigits(t: string): (r: Option<int>)
    ensures r.Some? <==> (t != [] && IsDigit(t[0]))
    ensures r.Some? ==> r.value >= 0
  {
    var digits := DigitPrefix(t);
    if digits == [] then None else Some(DigitsValue(digits))
  }

  lemma {:induction false} NatToStringValue(n: nat)
    ensures DigitsValue(NatToString(n)) == n
  {
    var r := NatToString(n);
    if n < 10 {
      assert r[..0] == [];
      DigitRoundTrip(n);
    } else {
      NatToStringValue(n / 10);
      assert r[..|r| - 1] == NatToString(n / 10);
      DigitRoundTrip(n % 10);
    }
  }

  lemma {:induction false} DigitPrefixOfDigits(s: string)
    requires AllDigits(s)
    ensures DigitPrefix(s) == s
  {
    if s != [] {
      DigitPrefixOfDigits(s[1..]);
    }
  }

  /** Page numbers written with `String(n)` are read back unchanged by `parseInt`. */
  lemma ParseIntOfNatToString(n: nat)
    ensures ParseInt(NatToString(n)) == Some(n)
  {
    var s := NatToString(n);
    assert IsDigit(s[0]);
    ParseIntOfDigitStart(s);
    ParseDigitsOfDigits(s);
    NatToStringValue(n);
  }

  /** A text starting with a digit has no white space or sign for `parseInt` to skip. */
  lemma ParseIntOfDigitStart(s: string)
    requires s != [] && IsDigit(s[0])
    ensures ParseInt(s) == ParseDigits(s)
  {
    assert !IsWhitespace(s[0]);
    assert TrimStart(s) == s;
    assert s[0] != '-' && s[0] != '+';
  }

  /** A text of digits only is read whole. */
  lemma ParseDigitsOfDigits(s: string)
    requires s != [] && AllDigits(s)
    ensures ParseDigits(s) == Some(DigitsValue(s))
  {
    DigitPrefixOfDigits(s);
  }

  lemma ParseIntOfEmpty()
    ensures ParseInt("") == None
  {
  }

  lemma ParseIntOfLetters()
    ensures ParseInt("abc") == None
  {
    assert !IsWhitespace('a') && !IsDigit('a');
    assert TrimStart("abc") == "abc";
    assert DigitPrefix("abc") == [];
  }

  lemma ParseIntOfDigitsThenLetters()
    ensures ParseInt("12abc") == Some(12)
  {
    var s := "12abc";
    assert s[1..] == "2abc" && s[1..][1..] == "abc";
    assert !IsWhitespace(s[0]);
    assert TrimStart(s) == s;
    assert !IsDigit("abc"[0]);
    assert DigitPrefix("abc") == [];
    assert DigitPrefix("2abc") == ['2'];
    assert DigitPrefix(s) == ['1', '2'];
    assert ['1', '2'][..1] == ['1'] && ['1'][..0] == [];
    assert DigitsValue(['1']) == 1;
    assert DigitsValue(['1', '2']) == 12;
  }

  /** Text `Number` reads as an integer: decimal digits, optionally after one `+` or `-`. */
  predicate SignedDigits(t: string)
  {
    (t != [] && AllDigits(t)) || (|t| >= 2 && (t[0] == '+' || t[0] == '-') && AllDigits(t[1..]))
  }

  /**
   * `Number(s)` on integer text: surrounding white space is ignored, blank
   * text reads as 0, and decimal digits with at most one leading sign read as
   * that integer. Everything else is NaN (None) here, including the decimal,
   * exponent, hexadecimal and `Infinity` forms that JavaScript also reads.
   */
  function Number(s: string): (r: Option<int>)
    ensures r.Some? <==> IsBlank(s) || SignedDigits(Trim(s))
    ensures IsBlank(s) ==> r == Some(0)
    ensures r.Some? && r.value < 0 ==> Trim(s)[0] == '-'
  {
    var t := Trim(s);
    BlankIffTrimEmpty(s);
    if t == "" then Some(0)
    else if AllDigits(t) then Some(DigitsValue(t))
    else if |t| >= 2 && (t[0] == '+' || t[0] == '-') && AllDigits(t[1..]) then
      var v: int := DigitsValue(t[1..]);
      Some(if t[0] == '-' then -v else v)
    else None
  }

  /** Text that neither starts nor ends with white space is its own trimmed form. */
  lemma TrimOfUnpadded(s: string)
    requires s != [] && !IsWhitespace(s[0]) && !IsWhitespace(s[|s| - 1])
    ensures Trim(s) == s
  {
    var off, r := TrimOffset(s), Trim(s);
    assert off == 0 && |r| == |s|;
    assert s == s[off..off + |r|];
  }

  /** A string of digits is its own trimmed form. */
  lemma TrimOfDigits(s: string)
    requires s != [] && AllDigits(s)
    ensures Trim(s) == s
  {
    TrimOfUnpadded(s);
  }

  /** Ids written with `String(n)` are read back unchanged by `Number`. */
  lemma NumberOfNatToString(n: nat)
    ensures Number(NatToString(n)) == Some(n)
  {
    TrimOfDigits(NatToString(n));
    NatToStringValue(n);
  }

  /** Digits after a sign are read as the signed value of the digits. */
  lemma NumberOfSignedDigits(sign: char, d: string, t: string)
    requires sign == '-' || sign == '+'
    requires d != [] && AllDigits(d)
    requires t == [sign] + d
    ensures Number(t) == Some(if sign == '-' then -(DigitsValue(d) as int) else DigitsValue(d))
  {
    SignBeforeDigits(sign, d, t);
    NumberOfSignedTrimmed(t);
  }

  /** A sign before digits is its own trimmed form, and is not all digits. */
  lemma SignBeforeDigits(sign: char, d: string, t: string)
    requires sign == '-' || sign == '+'
    requires d != [] && AllDigits(d)
    requires t == [sign] + d
    ensures Trim(t) == t && |t| >= 2 && t[0] == sign && t[1..] == d
    ensures !AllDigits(t) && AllDigits(t[1..])
  {
    assert t[0] == sign && t[1..] == d && t[|t| - 1] == d[|d| - 1];
    assert IsDigit(d[|d| - 1]);
    TrimOfUnpadded(t);
    assert !IsDigit(t[0]);
  }

  /** Text that is its own trimmed form and is a sign before digits reads as their signed value. */
  lemma NumberOfSignedTrimmed(t: string)
    requires Trim(t) == t && |t| >= 2 && (t[0] == '-' || t[0] == '+')
    requires !AllDigits(t) && AllDigits(t[1..])
    ensures Number(t) == Some(if t[0] == '-' then -(DigitsValue(t[1..]) as int) else DigitsValue(t[1..]))
  {
  }

  /** A number's decimal form after a sign is read as the signed number. */
  lemma NumberOfSignedNatToString(n: nat)
    ensures Number(['-'] + NatToString(n)) == Some(-(n as int))
    ensures Number(['+'] + NatToString(n)) == Some(n)
  {
    NumberOfSignAndNatToString('-', n);
    NumberOfSignAndNatToString('+', n);
  }

  /** One sign before a number's decimal form. */
  lemma NumberOfSignAndNatToString(sign: char, n: nat)
    requires sign == '-' || sign == '+'
    ensures Number([sign] + NatToString(n)) == Some(if sign == '-' then -(n as int) else n)
  {
    var d := NatToString(n);
    NatToStringValue(n);
    NumberOfSignedValue(sign, d, n, [sign] + d);
  }

  /** A sign before digits of a known value reads as that value, signed. */
  lemma NumberOfSignedValue(sign: char, d: string, n: nat, t: string)
    requires sign == '-' || sign == '+'
    requires d != [] && AllDigits(d) && DigitsValue(d) == n
    requires t == [sign] + d
    ensures Number(t) == Some(if sign == '-' then -(n as int) else n)
  {
    NumberOfSignedDigits(sign, d, t);
    var r := Number(t);
    if sign == '-' {
      assert r == Some(-(n as int));
    } else {
      assert r == Some(n);
    }
  }
}

/** The JavaScript string built-ins the sett-details controller relies on:
    `String.prototype.trim`, `String.prototype.toUpperCase` (restricted to
    ASCII) and `Number.parseInt(s, 10)`; also `String(v)` for integers,
    which states that `parseInt` reads back every decimal integer. */
module JsText {
  import opened Wrappers

  /** The WhiteSpace and LineTerminator code points of ECMA-262: what `trim`
      removes at both ends and what `parseInt` skips at the start. */
  predicate IsWhiteSpace(c: char) {
    if c <= ' ' then c == ' ' || '\t' <= c <= '\r'
    else
      c == '\U{00A0}' || c == '\U{1680}' || '\U{2000}' <= c <= '\U{200A}'
      || c == '\U{2028}' || c == '\U{2029}' || c == '\U{202F}' || c == '\U{205F}'
      || c == '\U{3000}' || c == '\U{FEFF}'
  }

  predicate AllWhiteSpace(s: string) {
    forall k :: 0 <= k < |s| ==> IsWhiteSpace(s[k])
  }

  /** The decimal digits of radix 10 and of the regular-expression class `\d`. */
  predicate IsDigit(c: char) {
    '0' <= c <= '9'
  }

  predicate AllDigits(s: string) {
    forall k :: 0 <= k < |s| ==> IsDigit(s[k])
  }

  predicate IsUpperLetter(c: char) {
    'A' <= c <= 'Z'
  }

  predicate IsLowerLetter(c: char) {
    'a' <= c <= 'z'
  }

  // ---------------------------------------------------------------- trim

  /** The number of whitespace characters at the start of `s`. */
  function LeadingWhiteSpace(s: string): (n: nat)
    ensures n <= |s|
    ensures AllWhiteSpace(s[..n])
    ensures n < |s| ==> !IsWhiteSpace(s[n])
  {
    if s != [] && IsWhiteSpace(s[0]) then 1 + LeadingWhiteSpace(s[1..]) else 0
  }

  /** The number of whitespace characters at the end of `s`. */
  function TrailingWhiteSpace(s: string): (n: nat)
    ensures n <= |s|
    ensures AllWhiteSpace(s[|s| - n..])
    ensures n < |s| ==> !IsWhiteSpace(s[|s| - 1 - n])
  {
    if s != [] && IsWhiteSpace(s[|s| - 1]) then 1 + TrailingWhiteSpace(s[..|s| - 1]) else 0
  }

  /** `s.trim()`: `s` without its leading and trailing whitespace. */
  function Trim(s: string): string {
    var i := LeadingWhiteSpace(s);
    var rest := s[i..];
    rest[..|rest| - TrailingWhiteSpace(rest)]
  }

  /** The trimmed text neither starts nor ends with whitespace, and it is
      empty exactly when `s` is blank. */
  lemma TrimStripsWhiteSpace(s: string)
    ensures Trim(s) == [] <==> AllWhiteSpace(s)
    ensures Trim(s) != [] ==> !IsWhiteSpace(Trim(s)[0]) && !IsWhiteSpace(Trim(s)[|Trim(s)| - 1])
  {
    var i := LeadingWhiteSpace(s);
    var j := |s[i..]| - TrailingWhiteSpace(s[i..]);
    TrimSplit(s, i, j);
  }

  /** The trimmed text is the part of `s` between two all-whitespace ends. */
  lemma TrimKeepsMiddle(s: string)
    ensures var r := Trim(s);
            exists i :: 0 <= i <= |s| - |r| && r == s[i..i + |r|]
                        && AllWhiteSpace(s[..i]) && AllWhiteSpace(s[i + |r|..])
  {
    var i := LeadingWhiteSpace(s);
    var rest := s[i..];
    var j := |rest| - TrailingWhiteSpace(rest);
    TrimSplitEnds(s, i, j);
    var r := Trim(s);
    assert r == rest[..j] == s[i..i + j];
    assert |r| == j;
    assert 0 <= i <= |s| - |r| && r == s[i..i + |r|]
           && AllWhiteSpace(s[..i]) && AllWhiteSpace(s[i + |r|..]);
  }

  lemma TrimSplit(s: string, i: nat, j: nat)
    requires i == LeadingWhiteSpace(s)
    requires j == |s[i..]| - TrailingWhiteSpace(s[i..])
    ensures s[i..][..j] == s[i..i + j]
    ensures AllWhiteSpace(s[..i]) && AllWhiteSpace(s[i + j..])
    ensures s[i..][..j] == [] <==> AllWhiteSpace(s)
  {
    TrimSplitEnds(s, i, j);
    TrimSplitBlank(s, i, j);
  }

  /** What `trim` cuts off at either end is whitespace. */
  lemma TrimSplitEnds(s: string, i: nat, j: nat)
    requires i == LeadingWhiteSpace(s)
    requires j == |s[i..]| - TrailingWhiteSpace(s[i..])
    ensures AllWhiteSpace(s[..i]) && AllWhiteSpace(s[i + j..])
  {
    var rest := s[i..];
    assert s[i + j..] == rest[|rest| - TrailingWhiteSpace(rest)..];
  }

  /** Nothing is left between the ends exactly when all of `s` is whitespace. */
  lemma TrimSplitBlank(s: string, i: nat, j: nat)
    requires i == LeadingWhiteSpace(s)
    requires j == |s[i..]| - TrailingWhiteSpace(s[i..])
    ensures j == 0 <==> AllWhiteSpace(s)
  {
    var rest := s[i..];
    var t := TrailingWhiteSpace(rest);
    if i < |s| {
      assert rest[0] == s[i];
      assert rest[0..] == rest;
    } else {
      assert s[..i] == s;
    }
  }

  /** Trimming a trimmed string changes nothing. */
  lemma TrimIdempotent(s: string)
    ensures Trim(Trim(s)) == Trim(s)
  {
    var r := Trim(s);
    TrimStripsWhiteSpace(s);
    if r != [] {
      assert LeadingWhiteSpace(r) == 0;
      assert TrailingWhiteSpace(r) == 0;
    }
  }

  // --------------------------------------------------------- toUpperCase

  /** `toUpperCase` on one character, for ASCII letters only. */
  function ToUpper(c: char): char {
    if IsLowerLetter(c) then (c as int - 32) as char else c
  }

  function ToUpperCase(s: string): (u: string)
    ensures |u| == |s|
  {
    seq(|s|, i requires 0 <= i < |s| => ToUpper(s[i]))
  }

  // ----------------------------------------------------- parseInt(s, 10)

  /** The number of decimal digits at the start of `s`. */
  function LeadingDigits(s: string): (n: nat)
    ensures n <= |s|
    ensures AllDigits(s[..n])
    ensures n < |s| ==> !IsDigit(s[n])
  {
    if s != [] && IsDigit(s[0]) then 1 + LeadingDigits(s[1..]) else 0
  }

  function DigitValue(c: char): (d: nat)
    requires IsDigit(c)
    ensures d < 10
  {
    c as int - '0' as int
  }

  /** The number a string of decimal digits denotes, most significant first. */
  function DecimalValue(ds: string): nat
    requires AllDigits(ds)
  {
    if ds == [] then 0 else 10 * DecimalValue(ds[..|ds| - 1]) + DigitValue(ds[|ds| - 1])
  }

  /** `Number.parseInt(v, 10)` with NaN as None: leading whitespace is
      skipped, one optional sign is read, and the longest run of digits that
      follows is the value; anything after it is ignored. Without a digit
      there, the result is NaN. An undefined argument is first converted to
      the text "undefined", which holds no digit (ParseIntOfUndefinedText). */
  function ParseInt(v: Option<string>): Option<int> {
    if v.None? then None
    else ParseSigned(v.value[LeadingWhiteSpace(v.value)..])
  }

  /** `parseInt` once the leading whitespace is gone. */
  function ParseSigned(t: string): Option<int> {
    var negative := t != [] && t[0] == '-';
    var u := if t != [] && (t[0] == '-' || t[0] == '+') then t[1..] else t;
    var n := LeadingDigits(u);
    if n == 0 then None else Some(Signed(negative, DecimalValue(u[..n])))
  }

  function Signed(negative: bool, n: nat): int {
    if negative then -(n as int) else n
  }

  predicate IsSign(sign: string) {
    sign == "" || sign == "+" || sign == "-"
  }

  /** Whatever whitespace, sign and trailing text surround it, `parseInt`
      reads exactly the first run of digits, negated after a minus sign. */
  lemma ParseIntReadsLeadingInteger(s: string, ws: string, sign: string, digits: string, rest: string)
    requires s == ws + sign + digits + rest
    requires AllWhiteSpace(ws) && IsSign(sign)
    requires digits != [] && AllDigits(digits)
    requires rest == [] || !IsDigit(rest[0])
    ensures ParseInt(Some(s)) == Some(Signed(sign == "-", DecimalValue(digits)))
  {
    var t := sign + (digits + rest);
    assert s == ws + t;
    SkipWhiteSpace(ws, t);
    ParseSignedReadsDigits(sign, digits, rest);
  }

  lemma ParseSignedReadsDigits(sign: string, digits: string, rest: string)
    requires IsSign(sign)
    requires digits != [] && AllDigits(digits)
    requires rest == [] || !IsDigit(rest[0])
    ensures ParseSigned(sign + (digits + rest)) == Some(Signed(sign == "-", DecimalValue(digits)))
  {
    var u := digits + rest;
    LeadingDigitsOfPrefix(digits, rest);
    assert u[..|digits|] == digits;
    if sign == "" {
      assert sign + u == u;
      assert u[0] == digits[0];
    } else {
      var t := sign + u;
      assert t[0] == sign[0] && t[1..] == u;
    }
  }

  /** When the text after the whitespace and the optional sign does not start
      with a digit, `parseInt` gives NaN. */
  lemma ParseIntFindsNoInteger(s: string, ws: string, sign: string, rest: string)
    requires s == ws + sign + rest
    requires AllWhiteSpace(ws) && IsSign(sign)
    requires rest == [] || !IsDigit(rest[0])
    requires sign == "" && rest != [] ==>
               !IsWhiteSpace(rest[0]) && rest[0] != '+' && rest[0] != '-'
    ensures ParseInt(Some(s)) == None
  {
    var t := sign + rest;
    assert s == ws + t;
    SkipWhiteSpace(ws, t);
    if sign != "" {
      assert t[0] == sign[0] && t[1..] == rest;
    }
  }

  lemma SkipWhiteSpace(ws: string, t: string)
    requires AllWhiteSpace(ws)
    requires t == [] || !IsWhiteSpace(t[0])
    ensures ParseInt(Some(ws + t)) == ParseSigned(t)
  {
    LeadingWhiteSpaceOfPrefix(ws, t);
    assert (ws + t)[|ws|..] == t;
  }

  /** `parseInt(undefined)` reads the text "undefined": NaN, as for None. */
  lemma ParseIntOfUndefinedText()
    ensures ParseInt(Some("undefined")) == ParseInt(None)
  {
    ParseIntFindsNoInteger("undefined", "", "", "undefined");
  }

  /** Blank text holds no integer. */
  lemma ParseIntOfBlank(s: string)
    requires AllWhiteSpace(s)
    ensures ParseInt(Some(s)) == None
  {
    ParseIntFindsNoInteger(s, s, "", "");
  }

  lemma {:induction false} LeadingWhiteSpaceOfPrefix(ws: string, rest: string)
    requires AllWhiteSpace(ws)
    requires rest == [] || !IsWhiteSpace(rest[0])
    ensures LeadingWhiteSpace(ws + rest) == |ws|
  {
    var s := ws + rest;
    if ws == [] {
      assert s == rest;
    } else {
      assert s[0] == ws[0] && s[1..] == ws[1..] + rest;
      LeadingWhiteSpaceOfPrefix(ws[1..], rest);
    }
  }

  lemma {:induction false} LeadingDigitsOfPrefix(digits: string, rest: string)
    requires AllDigits(digits)
    requires rest == [] || !IsDigit(rest[0])
    ensures LeadingDigits(digits + rest) == |digits|
  {
    var s := digits + rest;
    if digits == [] {
      assert s == rest;
    } else {
      assert s[0] == digits[0] && s[1..] == digits[1..] + rest;
      LeadingDigitsOfPrefix(digits[1..], rest);
    }
  }

  // ------------------------------------------------ String(v) for integers

  function DigitChar(d: nat): (c: char)
    requires d < 10
    ensures IsDigit(c) && DigitValue(c) == d
  {
    ('0' as int + d) as char
  }

  /** The shortest decimal digits of `n`. */
  function DecimalString(n: nat): (ds: string)
    ensures ds != [] && AllDigits(ds)
  {
    if n < 10 then [DigitChar(n)] else DecimalString(n / 10) + [DigitChar(n % 10)]
  }

  /** `String(v)` for an integer `v`: a minus sign for negatives, then the digits. */
  function IntToString(v: int): string {
    if v < 0 then "-" + DecimalString(-v) else DecimalString(v)
  }

  /** Reading back the digits of `n` gives `n`. */
  lemma {:induction false} DecimalValueOfDecimalString(n: nat)
    ensures DecimalValue(DecimalString(n)) == n
  {
    if n >= 10 {
      var ds := DecimalString(n);
      assert ds[..|ds| - 1] == DecimalString(n / 10);
      DecimalValueOfDecimalString(n / 10);
    }
  }

  /** `parseInt` inverts the integer-to-string conversion. */
  lemma ParseIntInvertsIntToString(v: int)
    ensures ParseInt(Some(IntToString(v))) == Some(v)
  {
    var n := if v < 0 then -v else v;
    DecimalValueOfDecimalString(n);
    ParseIntReadsLeadingInteger(IntToString(v), "", if v < 0 then "-" else "", DecimalString(n), "");
  }
}

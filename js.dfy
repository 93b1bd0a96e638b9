/** The pieces of JavaScript semantics that both screens rely on: values that may
    be missing, truthiness of numbers and strings, `String.prototype.trim`,
    `String.prototype.padStart` and the decimal rendering `String(n)` of an
    integer, with a reference reader that undoes it. */
module Js {

  /** A value that may be `undefined` or `null`. */
  datatype Option<+T> = None | Some(value: T)

  /** JavaScript truthiness of a `number | null`: `null` and `0` are falsy.
      (Identifiers are integers here, so `NaN` does not arise.) */
  predicate NumberTruthy(x: Option<int>)
  {
    x.Some? && x.value != 0
  }

  /** JavaScript truthiness of a `string | undefined`: the empty string is falsy. */
  predicate StringTruthy(x: Option<string>)
  {
    x.Some? && x.value != ""
  }

  /** `x || fallback` for a `string | undefined` operand. */
  function OrElse(x: Option<string>, fallback: string): (r: string)
    ensures StringTruthy(x) ==> r == x.value
    ensures !StringTruthy(x) ==> r == fallback
    ensures r == "" ==> fallback == ""
  {
    if StringTruthy(x) then x.value else fallback
  }

  /** A field of a decoded JSON body where `undefined` (the key is absent) and
      `null` must be told apart. */
  datatype JsonField<+T> = Undefined | Null | Present(value: T)

  /** The text `${x}` a template literal renders for a string field: the string
      itself, or the words `undefined` and `null`. A missing field is never
      rendered as the empty text. */
  function TemplateText(x: JsonField<string>): (r: string)
    ensures x.Present? ==> r == x.value
    ensures x.Undefined? ==> r == "undefined"
    ensures x.Null? ==> r == "null"
    ensures r == "" <==> x == Present("")
  {
    match x
    case Present(s) => s
    case Undefined => "undefined"
    case Null => "null"
  }

  // ---------------------------------------------------------------------------
  // String.prototype.trim

  /** The characters `trim` removes: ECMAScript WhiteSpace (TAB, VT, FF, ZWNBSP
      and every Unicode space separator, category Zs) and LineTerminator
      (LF, CR, LS, PS). */
  predicate IsWhiteSpace(c: char)
  {
    c == '\t' || c == '\U{000B}' || c == '\U{000C}' || c == '\U{FEFF}' ||
    c == ' ' || c == '\U{00A0}' || c == '\U{1680}' ||
    ('\U{2000}' <= c <= '\U{200A}') ||
    c == '\U{202F}' || c == '\U{205F}' || c == '\U{3000}' ||
    c == '\n' || c == '\r' || c == '\U{2028}' || c == '\U{2029}'
  }

  predicate AllWhiteSpace(s: string)
  {
    forall k | 0 <= k < |s| :: IsWhiteSpace(s[k])
  }

  /** Drops the leading white space. */
  function TrimStart(s: string): string
  {
    if s != [] && IsWhiteSpace(s[0]) then TrimStart(s[1..]) else s
  }

  /** Drops the trailing white space. */
  function TrimEnd(s: string): string
  {
    if s != [] && IsWhiteSpace(s[|s| - 1]) then TrimEnd(s[..|s| - 1]) else s
  }

  /** The result of `TrimStart` is the suffix of `s` that starts at its first
      non-white-space character. */
  lemma {:induction false} TrimStartSplits(s: string)
    ensures var r := TrimStart(s);
      |r| <= |s| && r == s[|s| - |r|..] && AllWhiteSpace(s[..|s| - |r|]) &&
      (r == [] || !IsWhiteSpace(r[0]))
  {
    if s != [] && IsWhiteSpace(s[0]) {
      var r := TrimStart(s[1..]);
      TrimStartSplits(s[1..]);
      assert s[..|s| - |r|] == [s[0]] + s[1..][..|s[1..]| - |r|];
      WhiteSpaceSplit([s[0]], s[1..][..|s[1..]| - |r|]);
    } else {
      assert s[..0] == [];
    }
  }

  /** The result of `TrimEnd` is the prefix of `s` that ends at its last
      non-white-space character. */
  lemma {:induction false} TrimEndSplits(s: string)
    ensures var r := TrimEnd(s);
      |r| <= |s| && r == s[..|r|] && AllWhiteSpace(s[|r|..]) &&
      (r == [] || !IsWhiteSpace(r[|r| - 1]))
  {
    if s != [] && IsWhiteSpace(s[|s| - 1]) {
      var r := TrimEnd(s[..|s| - 1]);
      TrimEndSplits(s[..|s| - 1]);
      assert s[|r|..] == s[..|s| - 1][|r|..] + [s[|s| - 1]];
      WhiteSpaceSplit(s[..|s| - 1][|r|..], [s[|s| - 1]]);
    } else {
      assert s[|s|..] == [];
    }
  }

  /** `s.trim()`. */
  function Trim(s: string): string
  {
    TrimEnd(TrimStart(s))
  }

  /** `s.trim()` is the part of `s` between its leading and its trailing white
      space: it neither starts nor ends with white space, and it is empty
      exactly when `s` is all white space. */
  lemma TrimSpec(s: string)
    ensures var r := Trim(s);
      |r| <= |s| && (r == [] <==> AllWhiteSpace(s)) &&
      (r != [] ==> !IsWhiteSpace(r[0]) && !IsWhiteSpace(r[|r| - 1]))
  {
    var t := TrimStart(s);
    TrimStartSplits(s);
    TrimEndSplits(t);
    TrimmedParts(s, t, TrimEnd(t));
  }

  /** The core of `Trim`'s contract, stated on the facts `TrimStart` and
      `TrimEnd` establish: `s` is white space, then `t`; `t` is `r`, then white
      space; neither `t` nor `r` ends in white space on the trimmed side. */
  lemma TrimmedParts(s: string, t: string, r: string)
    requires |t| <= |s| && t == s[|s| - |t|..] && AllWhiteSpace(s[..|s| - |t|])
    requires t == [] || !IsWhiteSpace(t[0])
    requires |r| <= |t| && r == t[..|r|] && AllWhiteSpace(t[|r|..])
    ensures r == [] <==> AllWhiteSpace(s)
    ensures r != [] ==> !IsWhiteSpace(r[0])
  {
    if r == [] {
      assert t == t[|r|..];
      assert s == s[..|s| - |t|] + t;
      WhiteSpaceSplit(s[..|s| - |t|], t);
    } else {
      assert r[0] == t[0] == s[|s| - |t|];
    }
  }

  /** A concatenation is all white space exactly when both parts are. */
  lemma WhiteSpaceSplit(a: string, b: string)
    ensures AllWhiteSpace(a + b) <==> AllWhiteSpace(a) && AllWhiteSpace(b)
  {
    if AllWhiteSpace(a) && AllWhiteSpace(b) {
      forall k | 0 <= k < |a + b| ensures IsWhiteSpace((a + b)[k]) {
        if k < |a| { assert (a + b)[k] == a[k]; } else { assert (a + b)[k] == b[k - |a|]; }
      }
    }
    if AllWhiteSpace(a + b) {
      forall k | 0 <= k < |a| ensures IsWhiteSpace(a[k]) { assert (a + b)[k] == a[k]; }
      forall k | 0 <= k < |b| ensures IsWhiteSpace(b[k]) { assert (a + b)[|a| + k] == b[k]; }
    }
  }

  /** A string with no white space at either end is its own trim. */
  lemma TrimKeepsUnpadded(s: string)
    requires s != [] ==> !IsWhiteSpace(s[0]) && !IsWhiteSpace(s[|s| - 1])
    ensures Trim(s) == s
  {
    assert TrimStart(s) == s;
    assert TrimEnd(s) == s;
  }

  /** Trimming twice is trimming once. */
  lemma TrimIdempotent(s: string)
    ensures Trim(Trim(s)) == Trim(s)
  {
    TrimSpec(s);
    TrimKeepsUnpadded(Trim(s));
  }

  // ---------------------------------------------------------------------------
  // Decimal digits: String(n) and the reference reader

  predicate IsDigit(c: char)
  {
    '0' <= c <= '9'
  }

  predicate AllDigits(s: string)
  {
    forall k | 0 <= k < |s| :: IsDigit(s[k])
  }

  function DigitValue(c: char): (d: nat)
    requires IsDigit(c)
    ensures d < 10
  {
    c as int - '0' as int
  }

  function DigitChar(d: nat): (c: char)
    requires d < 10
    ensures IsDigit(c) && DigitValue(c) == d
  {
    (d + '0' as int) as char
  }

  /** The number a string of decimal digits denotes (the empty string denotes 0);
      the reference against which `NatToString` is proved. */
  function DecimalValue(s: string): nat
    requires AllDigits(s)
  {
    if s == [] then 0 else DecimalValue(s[..|s| - 1]) * 10 + DigitValue(s[|s| - 1])
  }

  /** A leading zero does not change the value of a digit string. */
  lemma {:induction false} DecimalValueLeadingZero(s: string)
    requires AllDigits(s)
    ensures AllDigits(['0'] + s) && DecimalValue(['0'] + s) == DecimalValue(s)
  {
    var z := ['0'] + s;
    if s != [] {
      assert z[..|z| - 1] == ['0'] + s[..|s| - 1];
      DecimalValueLeadingZero(s[..|s| - 1]);
    }
  }

  /** `String(n)` for a non-negative integer. */
  function NatToString(n: nat): string
  {
    if n < 10 then [DigitChar(n)] else NatToString(n / 10) + [DigitChar(n % 10)]
  }

  /** `String(n)` is the decimal digits of `n`, with no leading zero. */
  lemma {:induction false} NatToStringDigits(n: nat)
    ensures var r := NatToString(n);
      r != [] && AllDigits(r) && (r[0] == '0' ==> r == "0") && DecimalValue(r) == n
  {
    if n >= 10 {
      var p := NatToString(n / 10);
      var r := p + [DigitChar(n % 10)];
      NatToStringDigits(n / 10);
      assert r[..|r| - 1] == p;
    }
  }

  /** `String(i)` (or `${i}`) for an integer: a minus sign for a negative value,
      then the digits of its magnitude. */
  function IntToString(i: int): string
  {
    if i < 0 then "-" + NatToString(-i) else NatToString(i)
  }

  /** `ReadInt` reads back what `IntToString` writes, and the rendering starts
      with a minus sign exactly for a negative integer. */
  lemma IntToStringReadsBack(i: int)
    ensures var r := IntToString(i);
      ReadInt(r) == Some(i) && r != [] && (r[0] == '-' <==> i < 0)
  {
    var r := IntToString(i);
    if i < 0 {
      var d := NatToString(-i);
      NatToStringDigits(-i);
      assert r == "-" + d;
      assert r[1..] == d;
      assert ReadInt(r) == Some(-(DecimalValue(d) as int));
    } else {
      NatToStringDigits(i);
      assert IsDigit(r[0]);
      assert ReadInt(r) == Some(DecimalValue(r));
    }
  }

  /** Reads an optionally signed, non-empty run of decimal digits; the inverse
      of `IntToString`. */
  function ReadInt(s: string): Option<int>
  {
    if s != [] && s[0] == '-' then
      if |s| > 1 && AllDigits(s[1..]) then Some(-(DecimalValue(s[1..]) as int)) else None
    else if s != [] && AllDigits(s) then Some(DecimalValue(s))
    else None
  }

  /** Different integers are rendered as different strings. */
  lemma IntToStringInjective(a: int, b: int)
    requires IntToString(a) == IntToString(b)
    ensures a == b
  {
    IntToStringReadsBack(a);
    IntToStringReadsBack(b);
  }

  // ---------------------------------------------------------------------------
  // String.prototype.padStart

  /** `n` copies of the character `c`. */
  function Repeat(c: char, n: nat): (r: string)
    ensures |r| == n
    ensures forall k | 0 <= k < n :: r[k] == c
  {
    if n == 0 then [] else [c] + Repeat(c, n - 1)
  }

  /** `s.padStart(width, fill)` with a one-character filler. */
  function PadStart(s: string, width: nat, fill: char): string
  {
    if |s| < width then Repeat(fill, width - |s|) + s else s
  }

  /** `s.padStart(width, fill)` is `s` preceded by as many copies of `fill` as
      it takes to reach `width` characters; a string that is already that long
      is returned unchanged. */
  lemma PadStartShape(s: string, width: nat, fill: char)
    ensures var r := PadStart(s, width, fill);
      |r| == (if |s| < width then width else |s|) && r[|r| - |s|..] == s &&
      forall k | 0 <= k < |r| - |s| :: r[k] == fill
  {
    var r := PadStart(s, width, fill);
    assert r[|r| - |s|..] == s;
  }

  /** Leading zeros do not change the value of a digit string. */
  lemma {:induction false} ZerosKeepValue(n: nat, s: string)
    requires AllDigits(s)
    ensures AllDigits(Repeat('0', n) + s)
    ensures DecimalValue(Repeat('0', n) + s) == DecimalValue(s)
  {
    if n > 0 {
      var t := Repeat('0', n - 1) + s;
      assert Repeat('0', n) + s == ['0'] + t;
      ZerosKeepValue(n - 1, s);
      DecimalValueLeadingZero(t);
    } else {
      assert Repeat('0', n) + s == s;
    }
  }

  /** Padding a digit string with zeros keeps its value. */
  lemma PadStartKeepsValue(s: string, width: nat)
    requires AllDigits(s)
    ensures AllDigits(PadStart(s, width, '0'))
    ensures DecimalValue(PadStart(s, width, '0')) == DecimalValue(s)
  {
    if |s| < width {
      ZerosKeepValue(width - |s|, s);
    } else {
      assert PadStart(s, width, '0') == s;
    }
  }
}

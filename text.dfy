/**
 * String primitives the forms and the backend rely on: JavaScript's `trim`,
 * the blank test `!s.trim()`, ASCII lower-casing, decimal rendering of
 * numbers (template literals) and JavaScript's `parseInt`.
 */
module Text {

  /** The whitespace characters `trim` removes and the regex class `\s` matches
      (the ASCII subset of JavaScript's set). */
  predicate IsSpace(c: char) {
    c == ' ' || c == '\t' || c == '\n' || c == '\r' || c == '\U{000B}' || c == '\U{000C}'
  }

  /** The forms' blank test `!value.trim()`: every character is whitespace
      (`TrimEmptyIffBlank` shows this is exactly "trimming leaves nothing"). */
  predicate IsBlank(s: string) {
    forall i :: 0 <= i < |s| ==> IsSpace(s[i])
  }

  /** Leading whitespace removed: what is dropped is whitespace, and what remains
      does not start with whitespace. */
  function TrimStart(s: string): (r: string)
    ensures |r| <= |s| && r == s[|s| - |r|..]
    ensures IsBlank(s[..|s| - |r|])
    ensures r != [] ==> !IsSpace(r[0])
  {
    if s != [] && IsSpace(s[0]) then TrimStart(s[1..]) else s
  }

  /** Trailing whitespace removed. */
  function TrimEnd(s: string): (r: string)
    ensures |r| <= |s| && r == s[..|r|]
    ensures IsBlank(s[|r|..])
    ensures r != [] ==> !IsSpace(r[|r| - 1])
  {
    if s != [] && IsSpace(s[|s| - 1]) then TrimEnd(s[..|s| - 1]) else s
  }

  /** Whitespace in front of a text that does not itself start with
      whitespace is exactly what `TrimStart` removes. */
  lemma {:induction false} TrimStartOfBlankPrefix(w: string, u: string)
    requires IsBlank(w)
    requires u == [] || !IsSpace(u[0])
    ensures TrimStart(w + u) == u
  {
    if w != [] {
      assert (w + u)[1..] == w[1..] + u;
      TrimStartOfBlankPrefix(w[1..], u);
    }
  }

  /** JavaScript's `String.prototype.trim`. */
  function Trim(s: string): string {
    TrimEnd(TrimStart(s))
  }

  /** Trimming leaves the empty string exactly when every character is whitespace. */
  lemma TrimEmptyIffBlank(s: string)
    ensures Trim(s) == "" <==> IsBlank(s)
  {
    var t := TrimStart(s);
    assert s == s[..|s| - |t|] + t;
    if Trim(s) == "" {
      assert IsBlank(t[0..]);
      assert t[0..] == t;
    } else if t != [] {
      assert !IsSpace(s[|s| - |t|]);
    }
  }

  /** ASCII lower-casing of one character. */
  function LowerChar(c: char): char {
    if 'A' <= c <= 'Z' then (c as int + 32) as char else c
  }

  predicate IsUpper(c: char) {
    'A' <= c <= 'Z'
  }

  /** Python's `str.lower()` restricted to ASCII letters. */
  function Lower(s: string): (r: string)
    ensures |r| == |s|
    ensures forall i :: 0 <= i < |s| ==> r[i] == LowerChar(s[i])
  {
    seq(|s|, i requires 0 <= i < |s| => LowerChar(s[i]))
  }

  /** Python's `str.replace(old, new)` for one-character `old` and `new`. */
  function ReplaceChar(s: string, from: char, to: char): (r: string)
    ensures |r| == |s|
    ensures forall i :: 0 <= i < |s| ==> r[i] == if s[i] == from then to else s[i]
  {
    seq(|s|, i requires 0 <= i < |s| => if s[i] == from then to else s[i])
  }

  predicate IsDigit(c: char) {
    '0' <= c <= '9'
  }

  function DigitChar(d: nat): char
    requires d < 10
  {
    ('0' as int + d) as char
  }

  function DigitValue(c: char): nat
    requires IsDigit(c)
  {
    c as int - '0' as int
  }

  /** JavaScript's `length`: UTF-16 code units, two for a character outside
      the Basic Multilingual Plane. */
  function Utf16Length(s: string): (r: nat)
    ensures |s| <= r <= 2 * |s|
  {
    if s == [] then 0 else (if s[0] as int >= 0x1_0000 then 2 else 1) + Utf16Length(s[1..])
  }

  /** A text within the Basic Multilingual Plane has one code unit per character. */
  lemma {:induction false} Utf16LengthOfBmp(s: string)
    requires forall i :: 0 <= i < |s| ==> s[i] as int < 0x1_0000
    ensures Utf16Length(s) == |s|
  {
    if s != [] {
      Utf16LengthOfBmp(s[1..]);
    }
  }

  /** Decimal rendering of a natural number, as a template literal prints it. */
  function NatToString(n: nat): (r: string)
    ensures r != []
    ensures forall i :: 0 <= i < |r| ==> IsDigit(r[i])
  {
    if n < 10 then [DigitChar(n)] else NatToString(n / 10) + [DigitChar(n % 10)]
  }

  /** Decimal rendering of an integer, with a leading '-' when negative. */
  function IntToString(n: int): (r: string)
    ensures r != []
  {
    if n < 0 then "-" + NatToString(-n) else NatToString(n)
  }

  /** The value of a non-empty run of decimal digits, most significant first. */
  function DigitsValue(ds: string): nat
    requires forall i :: 0 <= i < |ds| ==> IsDigit(ds[i])
  {
    if ds == [] then 0 else DigitsValue(ds[..|ds| - 1]) * 10 + DigitValue(ds[|ds| - 1])
  }

  /** The longest prefix of `s` made of decimal digits. */
  function DigitPrefix(s: string): (r: string)
    ensures |r| <= |s| && r == s[..|r|]
    ensures forall i :: 0 <= i < |r| ==> IsDigit(r[i])
    ensures |r| < |s| ==> !IsDigit(s[|r|])
  {
    if s != [] && IsDigit(s[0]) then [s[0]] + DigitPrefix(s[1..]) else []
  }

  /** A JavaScript number as far as the forms use one: an integer or NaN. */
  datatype JsNumber = Num(n: int) | NaN {
    /** JavaScript truthiness: 0 and NaN are falsy. */
    predicate Truthy() {
      Num? && n != 0
    }
  }

  predicate IsSign(c: char) {
    c == '-' || c == '+'
  }

  /** A text, already stripped of leading whitespace, that `parseInt` reads a
      number from: it starts with a digit, or with one sign and then a digit. */
  predicate StartsNumber(t: string) {
    (t != [] && IsDigit(t[0])) || (|t| >= 2 && IsSign(t[0]) && IsDigit(t[1]))
  }

  /** The number a run of digits denotes, negated after a minus; no digits
      is NaN. */
  function SignedValue(negative: bool, digits: string): (r: JsNumber)
    requires forall i :: 0 <= i < |digits| ==> IsDigit(digits[i])
    ensures r.Num? <==> digits != []
  {
    if digits == [] then NaN
    else Num(if negative then -(DigitsValue(digits) as int) else DigitsValue(digits))
  }

  /** What `parseInt` reads once leading whitespace is gone: one optional
      sign and the longest run of digits after it; no digits gives NaN. */
  function ReadSigned(t: string): (r: JsNumber)
    ensures r.Num? <==> StartsNumber(t)
  {
    if t != [] && IsSign(t[0]) then SignedValue(t[0] == '-', DigitPrefix(t[1..]))
    else SignedValue(false, DigitPrefix(t))
  }

  /** JavaScript's `parseInt(value)` with the default radix on decimal input:
      leading whitespace is skipped, one sign is accepted, and the longest run
      of digits is read; no digits at all gives NaN. */
  function ParseInt(s: string): JsNumber {
    ReadSigned(TrimStart(s))
  }

  /** `parseInt` gives a number exactly when what follows the leading
      whitespace starts a number. */
  lemma ParseIntIsNumber(s: string)
    ensures ParseInt(s).Num? <==> StartsNumber(TrimStart(s))
  {
  }

  lemma {:induction false} DigitsValueOfNatToString(n: nat)
    ensures DigitsValue(NatToString(n)) == n
  {
    var r := NatToString(n);
    if n >= 10 {
      DigitsValueOfNatToString(n / 10);
      assert r[..|r| - 1] == NatToString(n / 10);
    }
  }

  /** The digit prefix of a run of digits followed by a non-digit is that run. */
  lemma {:induction false} DigitPrefixOfDigits(ds: string, rest: string)
    requires forall i :: 0 <= i < |ds| ==> IsDigit(ds[i])
    requires rest == [] || !IsDigit(rest[0])
    ensures DigitPrefix(ds + rest) == ds
  {
    if ds != [] {
      assert (ds + rest)[1..] == ds[1..] + rest;
      DigitPrefixOfDigits(ds[1..], rest);
    } else {
      assert ds + rest == rest;
    }
  }

  /** An unsigned run of digits followed by a non-digit reads as its value. */
  lemma ReadSignedOfDigits(ds: string, rest: string)
    requires ds != [] && forall i :: 0 <= i < |ds| ==> IsDigit(ds[i])
    requires rest == [] || !IsDigit(rest[0])
    ensures ReadSigned(ds + rest) == Num(DigitsValue(ds))
  {
    DigitPrefixOfDigits(ds, rest);
    assert !IsSign((ds + rest)[0]);
  }

  /** A sign, a run of digits and a non-digit read as the run's value,
      negated after a minus. */
  lemma ReadSignedOfSignedDigits(c: char, ds: string, rest: string)
    requires IsSign(c)
    requires ds != [] && forall i :: 0 <= i < |ds| ==> IsDigit(ds[i])
    requires rest == [] || !IsDigit(rest[0])
    ensures ReadSigned([c] + (ds + rest))
         == Num(if c == '-' then -(DigitsValue(ds) as int) else DigitsValue(ds))
  {
    var u := [c] + (ds + rest);
    assert u[0] == c && u[1..] == ds + rest;
    DigitPrefixOfDigits(ds, rest);
  }

  /** A one-character sign regroups with the text after it. */
  lemma RegroupSign(w: string, sign: string, ds: string, rest: string)
    requires |sign| == 1
    ensures w + sign + ds + rest == w + ([sign[0]] + (ds + rest))
  {
    assert sign == [sign[0]];
    assert w + sign + ds + rest == w + (sign + (ds + rest));
  }

  /** Unsigned digits after whitespace read as their value. */
  lemma ParseIntReadsUnsigned(w: string, n: nat, rest: string)
    requires IsBlank(w)
    requires rest == [] || !IsDigit(rest[0])
    ensures ParseInt(w + (NatToString(n) + rest)) == Num(n)
  {
    var ds := NatToString(n);
    assert TrimStart(w + (ds + rest)) == ds + rest by {
      TrimStartOfBlankPrefix(w, ds + rest);
    }
    assert ReadSigned(ds + rest) == Num(n) by {
      DigitsValueOfNatToString(n);
      ReadSignedOfDigits(ds, rest);
    }
  }

  /** A sign and digits after whitespace read as the digits' value,
      negated after a minus. */
  lemma ParseIntReadsSigned(w: string, c: char, n: nat, rest: string)
    requires IsBlank(w) && IsSign(c)
    requires rest == [] || !IsDigit(rest[0])
    ensures ParseInt(w + ([c] + (NatToString(n) + rest))) == Num(if c == '-' then -(n as int) else n)
  {
    var ds := NatToString(n);
    var u := [c] + (ds + rest);
    assert TrimStart(w + u) == u by {
      assert u[0] == c;
      TrimStartOfBlankPrefix(w, u);
    }
    assert ReadSigned(u) == Num(if c == '-' then -(n as int) else n) by {
      DigitsValueOfNatToString(n);
      ReadSignedOfSignedDigits(c, ds, rest);
    }
  }

  /** `parseInt` reads the number written after any whitespace and at most one
      sign, and ignores whatever follows the digits. */
  lemma ParseIntReads(w: string, sign: string, n: nat, rest: string)
    requires IsBlank(w)
    requires sign == "" || sign == "-" || sign == "+"
    requires rest == [] || !IsDigit(rest[0])
    ensures ParseInt(w + sign + NatToString(n) + rest) == Num(if sign == "-" then -(n as int) else n)
  {
    var ds := NatToString(n);
    if sign == "" {
      assert w + sign + ds + rest == w + (ds + rest);
      ParseIntReadsUnsigned(w, n, rest);
    } else {
      RegroupSign(w, sign, ds, rest);
      ParseIntReadsSigned(w, sign[0], n, rest);
    }
  }

  /** Reading back a rendered number gives the number: the option values of
      the organization selects are ids rendered in decimal, and `parseInt`
      recovers them. */
  lemma ParseIntOfIntToString(n: int)
    ensures ParseInt(IntToString(n)) == Num(n)
  {
    if n < 0 {
      var m: nat := -n;
      var ds := NatToString(m);
      var t := "" + (['-'] + (ds + ""));
      assert IntToString(n) == t by {
        assert t == ['-'] + ds;
      }
      assert ParseInt(t) == Num(n) by {
        ParseIntReadsSigned("", '-', m, "");
      }
    } else {
      var t := "" + (NatToString(n) + "");
      assert IntToString(n) == t;
      assert ParseInt(t) == Num(n) by {
        ParseIntReadsUnsigned("", n, "");
      }
    }
  }

  /** Distinct integers render to distinct strings. */
  lemma IntToStringInjective(a: int, b: int)
    requires IntToString(a) == IntToString(b)
    ensures a == b
  {
    ParseIntOfIntToString(a);
    ParseIntOfIntToString(b);
  }

  /** A rendered integer contains no '/' and no whitespace. */
  lemma IntToStringHasNoSlash(n: int)
    ensures forall i :: 0 <= i < |IntToString(n)| ==> IntToString(n)[i] != '/' && !IsSpace(IntToString(n)[i])
  {
    var ds := NatToString(if n < 0 then -n else n);
    if n < 0 {
      assert IntToString(n) == "-" + ds;
      forall i | 1 <= i < |IntToString(n)|
        ensures IntToString(n)[i] == ds[i - 1]
      {
      }
    }
  }
}

/**
 * The pieces of Python's string handling the daemon relies on:
 * `str.split(sep)`, `str.strip()`, and the text-to-number conversions
 * done by the built-ins `int()` and `float()`.
 */
module Text {

  import opened Wrappers

  /** ASCII whitespace as `str.isspace()` (and so `str.strip()` and the `\s` class) sees it. */
  predicate IsSpace(c: char) {
    c == ' ' || (9 <= c as int <= 13) || (28 <= c as int <= 31)
  }

  predicate IsDigit(c: char) {
    '0' <= c <= '9'
  }

  predicate AllDigits(s: string) {
    forall i :: 0 <= i < |s| ==> IsDigit(s[i])
  }

  predicate NoSpace(s: string) {
    forall i :: 0 <= i < |s| ==> !IsSpace(s[i])
  }

  /** Number of occurrences of `c` in `s`. */
  function Count(s: string, c: char): nat {
    if s == [] then 0 else (if s[0] == c then 1 else 0) + Count(s[1..], c)
  }

  // ---------------------------------------------------------------- split

  /** `s.split(sep)`: the maximal pieces between separators; never empty. */
  function Split(s: string, sep: char): (parts: seq<string>)
    ensures |parts| >= 1
    decreases |s|
  {
    if s == [] then [[]]
    else
      var rest := Split(s[1..], sep);
      if s[0] == sep then [[]] + rest
      else [[s[0]] + rest[0]] + rest[1..]
  }

  /** `sep.join(parts)`, the inverse of `Split`. */
  function Join(parts: seq<string>, sep: char): string {
    if parts == [] then []
    else if |parts| == 1 then parts[0]
    else parts[0] + [sep] + Join(parts[1..], sep)
  }

  lemma {:induction false} SplitJoin(s: string, sep: char)
    ensures Join(Split(s, sep), sep) == s
    decreases |s|
  {
    if s != [] {
      var rest := Split(s[1..], sep);
      SplitJoin(s[1..], sep);
      if s[0] == sep {
        assert Split(s, sep) == [[]] + rest;
        assert ([[]] + rest)[1..] == rest;
      } else {
        var parts := [[s[0]] + rest[0]] + rest[1..];
        if |rest| == 1 {
          assert parts == [[s[0]] + rest[0]];
        } else {
          assert parts[1..] == rest[1..];
          assert Join(rest, sep) == rest[0] + [sep] + Join(rest[1..], sep);
        }
      }
    }
  }

  /** No piece of a split contains the separator. */
  lemma {:induction false} SplitPiecesFree(s: string, sep: char)
    ensures forall i :: 0 <= i < |Split(s, sep)| ==> sep !in Split(s, sep)[i]
    decreases |s|
  {
    if s != [] {
      SplitPiecesFree(s[1..], sep);
      var rest := Split(s[1..], sep);
      if s[0] != sep {
        var parts := Split(s, sep);
        forall i | 0 <= i < |parts| ensures sep !in parts[i] {
          if i == 0 {
            assert parts[0] == [s[0]] + rest[0];
          } else {
            assert parts[i] == rest[i];
          }
        }
      }
    }
  }

  /** A split has one more piece than there are separators. */
  lemma {:induction false} SplitCount(s: string, sep: char)
    ensures |Split(s, sep)| == Count(s, sep) + 1
    decreases |s|
  {
    if s != [] {
      SplitCount(s[1..], sep);
    }
  }

  /** Splitting a separator-free text gives the text itself as the only piece. */
  lemma {:induction false} SplitWhole(a: string, sep: char)
    requires sep !in a
    ensures Split(a, sep) == [a]
    decreases |a|
  {
    if a != [] {
      assert sep !in a[1..] by {
        forall i | 0 <= i < |a[1..]| ensures a[1..][i] != sep {
          assert a[1..][i] == a[i + 1];
        }
      }
      SplitWhole(a[1..], sep);
      assert [a[0]] + a[1..] == a;
    }
  }

  /** A separator-free head followed by a separator becomes the first piece. */
  lemma {:induction false} SplitHead(a: string, sep: char, rest: string)
    requires sep !in a
    ensures Split(a + [sep] + rest, sep) == [a] + Split(rest, sep)
    decreases |a|
  {
    var s := a + [sep] + rest;
    if a == [] {
      assert s == [sep] + rest;
      assert s[1..] == rest;
    } else {
      assert s[0] == a[0];
      assert s[1..] == a[1..] + [sep] + rest;
      assert sep !in a[1..] by {
        forall i | 0 <= i < |a[1..]| ensures a[1..][i] != sep {
          assert a[1..][i] == a[i + 1];
        }
      }
      SplitHead(a[1..], sep, rest);
      assert [a[0]] + a[1..] == a;
    }
  }

  // ---------------------------------------------------------------- strip

  /** `s.lstrip()` */
  function TrimStart(s: string): (r: string)
    ensures |r| <= |s| && r == s[|s| - |r|..]
    ensures r == [] || !IsSpace(r[0])
    ensures forall i :: 0 <= i < |s| - |r| ==> IsSpace(s[i])
  {
    if s != [] && IsSpace(s[0]) then TrimStart(s[1..]) else s
  }

  /** `s.rstrip()` */
  function TrimEnd(s: string): (r: string)
    ensures |r| <= |s| && r == s[..|r|]
    ensures r == [] || !IsSpace(r[|r| - 1])
    ensures forall i :: |r| <= i < |s| ==> IsSpace(s[i])
  {
    if s != [] && IsSpace(s[|s| - 1]) then TrimEnd(s[..|s| - 1]) else s
  }

  /** `s.strip()` */
  function Strip(s: string): string {
    TrimEnd(TrimStart(s))
  }

  /** `strip()` leaves no whitespace at either end, and leaves text without outer whitespace unchanged. */
  lemma StripTrims(s: string)
    ensures |Strip(s)| <= |s|
    ensures Strip(s) == [] || (!IsSpace(Strip(s)[0]) && !IsSpace(Strip(s)[|Strip(s)| - 1]))
    ensures (s == [] || (!IsSpace(s[0]) && !IsSpace(s[|s| - 1]))) ==> Strip(s) == s
  {
    var t := TrimStart(s);
    assert Strip(s) != [] ==> Strip(s)[0] == t[0];
  }

  lemma StripNoSpace(s: string)
    requires NoSpace(s)
    ensures Strip(s) == s
  {
    assert TrimStart(s) == s;
    assert TrimEnd(s) == s;
  }

  // ---------------------------------------------------------------- digits

  function DigitValue(c: char): nat
    requires IsDigit(c)
  {
    c as int - '0' as int
  }

  function DigitChar(d: nat): (c: char)
    requires d < 10
    ensures IsDigit(c) && DigitValue(c) == d
  {
    ('0' as int + d) as char
  }

  /** The value of a decimal digit string, read most significant digit first. */
  function DigitsValue(s: string): nat
    requires AllDigits(s)
  {
    if s == [] then 0 else DigitsValue(s[..|s| - 1]) * 10 + DigitValue(s[|s| - 1])
  }

  function Pow10(n: nat): (p: nat)
    ensures p >= 1
  {
    if n == 0 then 1 else 10 * Pow10(n - 1)
  }

  /** `str(n)` for a natural number. */
  function ShowNat(n: nat): (s: string)
    ensures |s| >= 1 && AllDigits(s)
  {
    if n < 10 then [DigitChar(n)] else ShowNat(n / 10) + [DigitChar(n % 10)]
  }

  /** `str(n)` for an integer. */
  function ShowInt(n: int): string {
    if n < 0 then "-" + ShowNat(-n) else ShowNat(n)
  }

  /** `n` written with exactly `width` digits, zero-padded, as `%02d`/`%04d` does. */
  function PadNat(n: nat, width: nat): (s: string)
    ensures |s| == width && AllDigits(s)
  {
    if width == 0 then [] else PadNat(n / 10, width - 1) + [DigitChar(n % 10)]
  }

  lemma {:induction false} DigitsValueSnoc(s: string, c: char)
    requires AllDigits(s) && IsDigit(c)
    ensures AllDigits(s + [c]) && DigitsValue(s + [c]) == DigitsValue(s) * 10 + DigitValue(c)
  {
    assert (s + [c])[..|s + [c]| - 1] == s;
  }

  lemma {:induction false} ShowNatValue(n: nat)
    ensures DigitsValue(ShowNat(n)) == n
  {
    if n >= 10 {
      ShowNatValue(n / 10);
      DigitsValueSnoc(ShowNat(n / 10), DigitChar(n % 10));
    }
  }

  lemma {:induction false} PadNatValue(n: nat, width: nat)
    requires n < Pow10(width)
    ensures DigitsValue(PadNat(n, width)) == n
  {
    if width == 0 {
    } else {
      assert n / 10 < Pow10(width - 1) by {
        assert n < 10 * Pow10(width - 1);
      }
      PadNatValue(n / 10, width - 1);
      DigitsValueSnoc(PadNat(n / 10, width - 1), DigitChar(n % 10));
    }
  }

  // ---------------------------------------------------------------- int()

  /**
   * `int(s)` on text: surrounding whitespace, an optional sign, then one or
   * more ASCII digits. `None` stands for the ValueError Python raises.
   */
  function ParseInt(s: string): Option<int> {
    ParseSignedDigits(Strip(s))
  }

  /** An optional sign followed by one or more digits, all of `t`. */
  function ParseSignedDigits(t: string): Option<int> {
    if |t| >= 1 && (t[0] == '+' || t[0] == '-') then
      var ds := t[1..];
      if |ds| >= 1 && AllDigits(ds) then
        Some(if t[0] == '-' then -(DigitsValue(ds) as int) else DigitsValue(ds))
      else None
    else if |t| >= 1 && AllDigits(t) then Some(DigitsValue(t))
    else None
  }

  lemma AllDigitsNoSpace(ds: string)
    requires AllDigits(ds)
    ensures NoSpace(ds)
  {
  }

  lemma {:induction false} ParseIntOfDigits(ds: string)
    requires |ds| >= 1 && AllDigits(ds)
    ensures ParseInt(ds) == Some(DigitsValue(ds))
  {
    assert ParseSignedDigits(ds) == Some(DigitsValue(ds)) by {
      assert ds[0] != '+' && ds[0] != '-' by {
        assert IsDigit(ds[0]);
      }
    }
    AllDigitsNoSpace(ds);
    StripNoSpace(ds);
  }

  lemma {:induction false} ParseIntOfNegated(ds: string)
    requires |ds| >= 1 && AllDigits(ds)
    ensures ParseInt("-" + ds) == Some(-(DigitsValue(ds) as int))
  {
    var s := "-" + ds;
    AllDigitsNoSpace(ds);
    assert NoSpace(s) by {
      forall i | 0 <= i < |s| ensures !IsSpace(s[i]) {
        if i > 0 { assert s[i] == ds[i - 1]; }
      }
    }
    StripNoSpace(s);
    assert s[0] == '-';
    assert s[1..] == ds;
  }

  /** `int(str(n)) == n` */
  lemma {:induction false} ParseIntShowInt(n: int)
    ensures ParseInt(ShowInt(n)) == Some(n)
  {
    if n < 0 {
      var m: nat := -n;
      var ds := ShowNat(m);
      ShowNatValue(m);
      assert DigitsValue(ds) == m;
      ParseIntOfNegated(ds);
      assert ParseInt("-" + ds) == Some(n);
      assert ShowInt(n) == "-" + ds;
    } else {
      var ds := ShowNat(n);
      assert ShowInt(n) == ds;
      ParseIntOfDigits(ds);
      ShowNatValue(n);
    }
  }

  // ---------------------------------------------------------------- float()

  /** Length of the run of digits at the start of `s`. */
  function SpanDigits(s: string): (n: nat)
    ensures n <= |s| && AllDigits(s[..n])
    ensures n < |s| ==> !IsDigit(s[n])
  {
    if s != [] && IsDigit(s[0]) then
      var k := SpanDigits(s[1..]);
      assert s[..k + 1] == [s[0]] + s[1..][..k];
      k + 1
    else 0
  }

  lemma {:induction false} SpanAllDigits(s: string)
    requires AllDigits(s)
    ensures SpanDigits(s) == |s|
  {
    if s != [] {
      assert AllDigits(s[1..]) by {
        forall i | 0 <= i < |s[1..]| ensures IsDigit(s[1..][i]) {
          assert s[1..][i] == s[i + 1];
        }
      }
      SpanAllDigits(s[1..]);
    }
  }

  /** `x * 10^e` for an integer exponent `e`. */
  function Scale(x: real, e: int): real {
    if e >= 0 then x * Pow10(e) as real else x / Pow10(-e) as real
  }

  /**
   * An unsigned decimal: digits, optionally a point and more digits (at
   * least one digit in all), optionally `e`/`E` and a signed exponent.
   */
  function ParseUnsignedDecimal(t: string): Option<real> {
    var i := SpanDigits(t);
    var whole := t[..i];
    var rest := t[i..];
    var hasPoint := |rest| >= 1 && rest[0] == '.';
    var f := if hasPoint then SpanDigits(rest[1..]) else 0;
    var frac := if hasPoint then rest[1..][..f] else [];
    var after := if hasPoint then rest[1..][f..] else rest;
    if |whole| + |frac| == 0 then None
    else
      var mantissa := DigitsValue(whole) as real + DigitsValue(frac) as real / Pow10(|frac|) as real;
      if after == [] then Some(mantissa)
      else if after[0] == 'e' || after[0] == 'E' then
        match ParseSignedDigits(after[1..])
        case Some(e) => Some(Scale(mantissa, e))
        case None => None
      else None
  }

  /**
   * `float(s)` on text: surrounding whitespace, an optional sign and a
   * decimal. `None` stands for the ValueError Python raises.
   */
  function ParseFloat(s: string): Option<real> {
    ParseSignedDecimal(Strip(s))
  }

  function ParseSignedDecimal(t: string): Option<real> {
    if |t| >= 1 && (t[0] == '+' || t[0] == '-') then
      match ParseUnsignedDecimal(t[1..])
      case Some(x) => Some(if t[0] == '-' then -x else x)
      case None => None
    else ParseUnsignedDecimal(t)
  }

  lemma {:induction false} UnsignedDecimalOfDigits(ds: string)
    requires |ds| >= 1 && AllDigits(ds)
    ensures ParseUnsignedDecimal(ds) == Some(DigitsValue(ds) as real)
  {
    SpanAllDigits(ds);
    assert ds[..|ds|] == ds;
    assert ds[|ds|..] == [];
    assert DigitsValue([]) as real / Pow10(0) as real == 0.0;
  }

  /** Every text `int()` accepts, `float()` accepts with the same value. */
  lemma {:induction false} ParseIntThenFloat(s: string)
    requires ParseInt(s).Some?
    ensures ParseFloat(s) == Some(ParseInt(s).value as real)
  {
    var t := Strip(s);
    if t[0] == '+' || t[0] == '-' {
      UnsignedDecimalOfDigits(t[1..]);
    } else {
      UnsignedDecimalOfDigits(t);
    }
  }

  /** A digit run followed by a non-digit (or nothing) is spanned exactly. */
  lemma {:induction false} SpanDigitsPrefix(w: string, rest: string)
    requires AllDigits(w)
    requires rest == [] || !IsDigit(rest[0])
    ensures SpanDigits(w + rest) == |w|
  {
    if w != [] {
      assert (w + rest)[1..] == w[1..] + rest;
      assert AllDigits(w[1..]) by {
        forall i | 0 <= i < |w[1..]| ensures IsDigit(w[1..][i]) {
          assert w[1..][i] == w[i + 1];
        }
      }
      SpanDigitsPrefix(w[1..], rest);
    } else {
      assert w + rest == rest;
    }
  }

  /** `float("<digits>.<digits>")` is the whole part plus the fraction. */
  lemma {:induction false} ParseFloatPointDecimal(w: string, f: string)
    requires |w| >= 1 && AllDigits(w) && AllDigits(f)
    ensures ParseFloat(w + "." + f) == Some(DigitsValue(w) as real + DigitsValue(f) as real / Pow10(|f|) as real)
  {
    var t := w + "." + f;
    assert NoSpace(t) by {
      forall i | 0 <= i < |t| ensures !IsSpace(t[i]) {
        if i < |w| { assert t[i] == w[i]; }
        else if i > |w| { assert t[i] == f[i - |w| - 1]; }
      }
    }
    StripNoSpace(t);
    assert t == w + ("." + f);
    SpanDigitsPrefix(w, "." + f);
    assert t[..|w|] == w;
    assert t[|w|..] == "." + f;
    assert ("." + f)[1..] == f;
    SpanAllDigits(f);
    assert f[..|f|] == f && f[|f|..] == [];
    assert !(t[0] == '+' || t[0] == '-') by { assert t[0] == w[0]; }
  }

  /** `float(str(n) + "." + str(0)) == n` */
  lemma ParseFloatNumeral(n: nat)
    ensures ParseFloat(ShowNat(n) + "." + ShowNat(0)) == Some(n as real)
  {
    var w, zero := ShowNat(n), ShowNat(0);
    ShowNatValue(n);
    ShowNatValue(0);
    assert |zero| == 1;
    var p := Pow10(|zero|);
    var fz := DigitsValue(zero);
    assert fz == 0;
    assert fz as real / p as real == 0.0;
    ParseFloatPointDecimal(w, zero);
  }

  /** The numeral followed by ".0" is the numeral, a point and the numeral of zero. */
  lemma PointZero(n: nat)
    ensures ShowNat(n) + ".0" == ShowNat(n) + "." + ShowNat(0)
  {
    assert ShowNat(0) == "0";
  }
}

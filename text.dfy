/**
 * String helpers shared by the model: the characters JavaScript's `\d` and
 * `String.prototype.trim` work on, decimal rendering of integers (`String(n)`)
 * and the relational operator `<` on strings.
 */
module Text {
  import opened Wrappers

  /** JavaScript's `\d` without the `u` flag: the ASCII digits only. */
  predicate IsDigit(c: char)
  {
    '0' <= c <= '9'
  }

  /** The white-space and line-terminator characters `trim` removes. */
  predicate IsJsSpace(c: char)
  {
    c == '\t' || c == '\n' || c == '\U{B}' || c == '\U{C}' || c == '\r' || c == ' ' ||
    c == '\U{A0}' || c == '\U{1680}' || ('\U{2000}' <= c <= '\U{200A}') ||
    c == '\U{2028}' || c == '\U{2029}' || c == '\U{202F}' || c == '\U{205F}' ||
    c == '\U{3000}' || c == '\U{FEFF}'
  }

  /** `s.replace(/\D/g, '')`: the digits of `s`, in order. */
  function Digits(s: string): (r: string)
    ensures |r| <= |s|
    ensures forall i :: 0 <= i < |r| ==> IsDigit(r[i])
  {
    if |s| == 0 then "" else (if IsDigit(s[0]) then [s[0]] else "") + Digits(s[1..])
  }

  lemma {:induction false} DigitsAppend(a: string, b: string)
    ensures Digits(a + b) == Digits(a) + Digits(b)
  {
    if |a| == 0 {
      assert a + b == b;
    } else {
      assert (a + b)[1..] == a[1..] + b;
      DigitsAppend(a[1..], b);
    }
  }

  /** A string made of digits only is its own digit string. */
  lemma {:induction false} DigitsOfDigits(s: string)
    requires forall i :: 0 <= i < |s| ==> IsDigit(s[i])
    ensures Digits(s) == s
  {
    if |s| > 0 {
      DigitsOfDigits(s[1..]);
      assert s == [s[0]] + s[1..];
    }
  }

  function TrimStart(s: string): (r: string)
    ensures |r| <= |s|
  {
    if |s| > 0 && IsJsSpace(s[0]) then TrimStart(s[1..]) else s
  }

  function TrimEnd(s: string): (r: string)
    ensures |r| <= |s|
  {
    if |s| > 0 && IsJsSpace(s[|s| - 1]) then TrimEnd(s[..|s| - 1]) else s
  }

  /** `s.trim()`. */
  function Trim(s: string): string
  {
    TrimEnd(TrimStart(s))
  }

  /** A string with no space at either end is its own trim. */
  lemma TrimmedIsFixed(s: string)
    requires |s| == 0 || (!IsJsSpace(s[0]) && !IsJsSpace(s[|s| - 1]))
    ensures Trim(s) == s
  {
  }

  /** `TrimStart` removes a prefix and leaves no space at the front. */
  lemma {:induction false} TrimStartShape(s: string)
    ensures var r := TrimStart(s);
      r == s[|s| - |r|..] && (|r| == 0 || !IsJsSpace(r[0]))
  {
    if |s| > 0 && IsJsSpace(s[0]) {
      TrimStartShape(s[1..]);
    }
  }

  /** `TrimEnd` removes a suffix and leaves no space at the back. */
  lemma {:induction false} TrimEndShape(s: string)
    ensures var r := TrimEnd(s);
      r == s[..|r|] && (|r| == 0 || !IsJsSpace(r[|r| - 1]))
  {
    if |s| > 0 && IsJsSpace(s[|s| - 1]) {
      TrimEndShape(s[..|s| - 1]);
    }
  }

  /** Trimming twice is trimming once. */
  lemma TrimIdempotent(s: string)
    ensures Trim(Trim(s)) == Trim(s)
  {
    var u := TrimStart(s);
    var t := Trim(s);
    TrimStartShape(s);
    TrimEndShape(u);
    if |t| > 0 {
      assert t[0] == u[0];
    }
    TrimmedIsFixed(t);
  }

  /** Trimming never removes a digit, so it does not change the digit string. */
  lemma {:induction false} DigitsOfTrim(s: string)
    ensures Digits(Trim(s)) == Digits(s)
  {
    DigitsOfTrimStart(s);
    DigitsOfTrimEnd(TrimStart(s));
  }

  lemma {:induction false} DigitsOfTrimStart(s: string)
    ensures Digits(TrimStart(s)) == Digits(s)
  {
    if |s| > 0 && IsJsSpace(s[0]) {
      DigitsOfTrimStart(s[1..]);
    }
  }

  lemma {:induction false} DigitsOfTrimEnd(s: string)
    ensures Digits(TrimEnd(s)) == Digits(s)
  {
    if |s| > 0 && IsJsSpace(s[|s| - 1]) {
      var init, last := s[..|s| - 1], s[|s| - 1];
      assert s == init + [last];
      DigitsAppend(init, [last]);
      assert Digits([last]) == "";
      DigitsOfTrimEnd(init);
    }
  }

  function DigitChar(d: nat): (c: char)
    requires d < 10
    ensures IsDigit(c)
  {
    ('0' as int + d) as char
  }

  function DigitValue(c: char): (d: nat)
    requires IsDigit(c)
    ensures d < 10 && DigitChar(d) == c
  {
    c as int - '0' as int
  }

  /** `String(n)` for a non-negative integer: its decimal digits without leading zeros. */
  function NatToDecimal(n: nat): (r: string)
    ensures |r| > 0
    ensures forall i :: 0 <= i < |r| ==> IsDigit(r[i])
    decreases n
  {
    if n < 10 then [DigitChar(n)] else NatToDecimal(n / 10) + [DigitChar(n % 10)]
  }

  /**
   * `String(n)` for an integer. JavaScript switches to exponent notation at
   * 10^21; every timestamp the model renders is far below that.
   */
  function IntToDecimal(n: int): string
  {
    if n < 0 then "-" + NatToDecimal(-n) else NatToDecimal(n)
  }

  predicate AllDigits(s: string)
  {
    forall i :: 0 <= i < |s| ==> IsDigit(s[i])
  }

  function ParseNat(s: string): nat
    requires AllDigits(s)
  {
    if |s| == 0 then 0 else ParseNat(s[..|s| - 1]) * 10 + DigitValue(s[|s| - 1])
  }

  /** The reading a receiver applies to a decimal string field (`Number(s)` on an integer). */
  function ParseDecimal(s: string): Option<int>
  {
    if |s| > 1 && s[0] == '-' && AllDigits(s[1..]) then Some(0 - ParseNat(s[1..]) as int)
    else if |s| > 0 && AllDigits(s) then Some(ParseNat(s))
    else None
  }

  lemma {:induction false} NatRoundTrip(n: nat)
    ensures ParseNat(NatToDecimal(n)) == n
    decreases n
  {
    if n >= 10 {
      var prefix := NatToDecimal(n / 10);
      var s := prefix + [DigitChar(n % 10)];
      assert s[..|s| - 1] == prefix;
      NatRoundTrip(n / 10);
    }
  }

  /** Every integer rendered with `String(n)` reads back as itself. */
  lemma {:induction false} DecimalRoundTrip(n: int)
    ensures ParseDecimal(IntToDecimal(n)) == Some(n)
  {
    if n < 0 {
      var s := "-" + NatToDecimal(-n);
      assert s[1..] == NatToDecimal(-n);
      NatRoundTrip(-n);
    } else {
      var s := NatToDecimal(n);
      NatRoundTrip(n);
    }
  }

  /**
   * JavaScript's `a < b` on strings: lexicographic by character, a proper
   * prefix coming first.
   */
  predicate LexLess(a: string, b: string)
  {
    if |a| == 0 then |b| > 0
    else if |b| == 0 then false
    else if a[0] != b[0] then a[0] < b[0]
    else LexLess(a[1..], b[1..])
  }

  /** Of two different strings, exactly one is less than the other. */
  lemma {:induction false} LexTrichotomy(a: string, b: string)
    ensures a != b ==> LexLess(a, b) || LexLess(b, a)
    ensures !(LexLess(a, b) && LexLess(b, a))
    ensures !LexLess(a, a)
  {
    if |a| > 0 && |b| > 0 && a[0] == b[0] {
      LexTrichotomy(a[1..], b[1..]);
      if a != b {
        assert a == [a[0]] + a[1..] && b == [b[0]] + b[1..];
      }
      LexTrichotomy(a[1..], a[1..]);
    } else if |a| > 0 {
      LexTrichotomy(a[1..], a[1..]);
    }
  }

  /** String `<` is transitive. */
  lemma {:induction false} LexTransitive(a: string, b: string, c: string)
    requires LexLess(a, b) && LexLess(b, c)
    ensures LexLess(a, c)
  {
    if |a| > 0 && |b| > 0 && |c| > 0 && a[0] == b[0] && b[0] == c[0] {
      LexTransitive(a[1..], b[1..], c[1..]);
    }
  }
}

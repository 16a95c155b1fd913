/** Base-10 text: `"%d"` and `"%06d"` formatting of a non-negative count, and
    Python's `int()` applied to a string. */
module Decimal {
  import opened Results

  predicate IsDigit(c: char) {
    '0' <= c <= '9'
  }

  ghost predicate AllDigits(s: string) {
    forall i :: 0 <= i < |s| ==> IsDigit(s[i])
  }

  function DigitChar(d: nat): (c: char)
    requires d < 10
  {
    (d + '0' as int) as char
  }

  function DigitValue(c: char): nat
    requires IsDigit(c)
  {
    c as int - '0' as int
  }

  /** `"%d" % n` for a count `n`: no sign and no leading zero. */
  function NatToDecimal(n: nat): (s: string)
    ensures |s| >= 1 && AllDigits(s)
    ensures |s| > 1 ==> s[0] != '0'
    decreases n
  {
    if n < 10 then [DigitChar(n)] else NatToDecimal(n / 10) + [DigitChar(n % 10)]
  }

  /** The number a string of decimal digits denotes; leading zeros count for nothing. */
  function ValueOf(s: string): nat
    requires AllDigits(s)
    decreases |s|
  {
    if |s| == 0 then 0 else 10 * ValueOf(s[..|s| - 1]) + DigitValue(s[|s| - 1])
  }

  function Zeros(k: nat): (z: string)
    ensures |z| == k && AllDigits(z)
  {
    seq(k, _ => '0')
  }

  /** `"%0*d" % (width, n)` for a count `n`: zeros on the left up to `width`
      characters, never truncated. */
  function ZeroPadded(n: nat, width: nat): (s: string)
    ensures AllDigits(s)
  {
    var d := NatToDecimal(n);
    if |d| >= width then d else Zeros(width - |d|) + d
  }

  function Pow10(k: nat): (p: nat)
    ensures p >= 1
  {
    if k == 0 then 1 else 10 * Pow10(k - 1)
  }

  /** Reading back what `"%d"` wrote gives the count again. */
  lemma {:induction false} ValueOfDecimal(n: nat)
    ensures ValueOf(NatToDecimal(n)) == n
    decreases n
  {
    if n >= 10 {
      var s := NatToDecimal(n);
      assert s[..|s| - 1] == NatToDecimal(n / 10);
      ValueOfDecimal(n / 10);
    }
  }

  lemma {:induction false} ValueOfZeros(k: nat)
    ensures ValueOf(Zeros(k)) == 0
  {
    if k > 0 {
      assert Zeros(k)[..k - 1] == Zeros(k - 1);
      ValueOfZeros(k - 1);
    }
  }

  /** Leading zeros do not change the value of a digit string. */
  lemma {:induction false} ValueOfLeadingZeros(k: nat, s: string)
    requires AllDigits(s)
    ensures ValueOf(Zeros(k) + s) == ValueOf(s)
    decreases |s|
  {
    if |s| == 0 {
      assert Zeros(k) + s == Zeros(k);
      ValueOfZeros(k);
    } else {
      var t := Zeros(k) + s;
      assert t[..|t| - 1] == Zeros(k) + s[..|s| - 1];
      ValueOfLeadingZeros(k, s[..|s| - 1]);
    }
  }

  /** The padded text determines the count: reading it back gives `n`. */
  lemma PaddedRoundTrip(n: nat, width: nat)
    ensures ValueOf(ZeroPadded(n, width)) == n
  {
    var d := NatToDecimal(n);
    ValueOfDecimal(n);
    if |d| < width {
      ValueOfLeadingZeros(width - |d|, d);
    }
  }

  /** Counts below 10^k take at most k digits. */
  lemma {:induction false} DecimalLength(n: nat, k: nat)
    requires k >= 1 && n < Pow10(k)
    ensures |NatToDecimal(n)| <= k
    decreases k
  {
    if n >= 10 {
      assert k >= 2;
      assert n / 10 < Pow10(k - 1);
      DecimalLength(n / 10, k - 1);
    }
  }

  /** Counts of 10^k and above take more than k digits. */
  lemma {:induction false} DecimalLengthAbove(n: nat, k: nat)
    requires n >= Pow10(k)
    ensures |NatToDecimal(n)| > k
    decreases k
  {
    if k > 0 {
      assert n / 10 >= Pow10(k - 1);
      DecimalLengthAbove(n / 10, k - 1);
    }
  }

  /** `"%0*d"` is exactly `width` characters long for counts below 10^width
      and longer, without truncation, from there on. */
  lemma PaddedLength(n: nat, width: nat)
    requires width >= 1
    ensures |ZeroPadded(n, width)| >= width
    ensures |ZeroPadded(n, width)| == width <==> n < Pow10(width)
  {
    if n < Pow10(width) {
      DecimalLength(n, width);
    } else {
      DecimalLengthAbove(n, width);
    }
  }

  // ---------------------------------------------------------------------
  // Python int() on a string

  /** The characters `int()` strips from both ends: the ASCII space and
      `\t \n \v \f \r`, and the non-ASCII characters `str.isspace()`
      accepts, which `int()` first turns into spaces. The ASCII separators
      U+001C to U+001F are not among them: `str.isspace()` accepts them, but
      `int()` leaves them in place and rejects the text. */
  predicate IsSpace(c: char) {
    || ('\t' <= c <= '\r')
    || c == ' '
    || c == '\U{85}' || c == '\U{a0}' || c == '\U{1680}'
    || ('\U{2000}' <= c <= '\U{200a}')
    || c == '\U{2028}' || c == '\U{2029}' || c == '\U{202f}' || c == '\U{205f}' || c == '\U{3000}'
  }

  function StripLeft(s: string): (r: string)
    ensures |r| <= |s| && r == s[|s| - |r|..]
    ensures |r| > 0 ==> !IsSpace(r[0])
  {
    if |s| > 0 && IsSpace(s[0]) then StripLeft(s[1..]) else s
  }

  function StripRight(s: string): (r: string)
    ensures |r| <= |s| && r == s[..|r|]
    ensures |r| > 0 ==> !IsSpace(r[|r| - 1])
  {
    if |s| > 0 && IsSpace(s[|s| - 1]) then StripRight(s[..|s| - 1]) else s
  }

  function Strip(s: string): string {
    StripRight(StripLeft(s))
  }

  /** Digits with single underscores between them, as `int()` accepts after the sign. */
  ghost predicate Grouped(t: string) {
    && |t| > 0
    && IsDigit(t[0])
    && IsDigit(t[|t| - 1])
    && (forall i :: 0 <= i < |t| ==> IsDigit(t[i]) || t[i] == '_')
    && (forall i :: 0 <= i < |t| - 1 ==> t[i] == '_' ==> t[i + 1] != '_')
  }

  /** A base-10 literal as `int()` accepts it once surrounding space is stripped. */
  ghost predicate IntLiteral(t: string) {
    || Grouped(t)
    || (|t| > 0 && (t[0] == '+' || t[0] == '-') && Grouped(t[1..]))
  }

  function Ungrouped(t: string): (d: string)
    requires forall i :: 0 <= i < |t| ==> IsDigit(t[i]) || t[i] == '_'
    ensures AllDigits(d)
  {
    if |t| == 0 then ""
    else if t[|t| - 1] == '_' then Ungrouped(t[..|t| - 1])
    else Ungrouped(t[..|t| - 1]) + [t[|t| - 1]]
  }

  /** Reads digits with optional single underscores from the right. */
  function ScanDigits(t: string): Option<nat>
    decreases |t|
  {
    if |t| == 0 || !IsDigit(t[|t| - 1]) then None
    else
      var init := t[..|t| - 1];
      var last := DigitValue(t[|t| - 1]);
      if |init| == 0 then Some(last)
      else
        var rest := if init[|init| - 1] == '_' then init[..|init| - 1] else init;
        match ScanDigits(rest)
        case None => None
        case Some(v) => Some(10 * v + last)
  }

  /** Removing the final digit of a string whose last two characters are digits. */
  lemma DigitStep(t: string)
    requires |t| >= 2 && IsDigit(t[|t| - 1]) && IsDigit(t[|t| - 2])
    ensures Grouped(t) <==> Grouped(t[..|t| - 1])
    ensures Grouped(t) ==> Ungrouped(t) == Ungrouped(t[..|t| - 1]) + [t[|t| - 1]]
  {
    if Grouped(t) {
      DigitDrop(t);
    }
    if Grouped(t[..|t| - 1]) {
      DigitExtend(t);
    }
  }

  lemma DigitDrop(t: string)
    requires |t| >= 2 && IsDigit(t[|t| - 2]) && Grouped(t)
    ensures Grouped(t[..|t| - 1])
  {
    var init := t[..|t| - 1];
    assert forall i :: 0 <= i < |init| ==> init[i] == t[i];
  }

  lemma DigitExtend(t: string)
    requires |t| >= 2 && IsDigit(t[|t| - 1]) && Grouped(t[..|t| - 1])
    ensures Grouped(t)
  {
    var init := t[..|t| - 1];
    forall i | 0 <= i < |t|
      ensures IsDigit(t[i]) || t[i] == '_'
    {
      if i < |init| { assert t[i] == init[i]; }
    }
    forall i | 0 <= i < |t| - 1 && t[i] == '_'
      ensures t[i + 1] != '_'
    {
      if i < |init| - 1 { assert t[i] == init[i] && t[i + 1] == init[i + 1]; }
    }
  }

  /** Removing the final digit and the underscore before it. */
  lemma UnderscoreStep(t: string)
    requires |t| >= 3 && IsDigit(t[|t| - 1]) && t[|t| - 2] == '_'
    ensures Grouped(t) <==> Grouped(t[..|t| - 2])
    ensures Grouped(t) ==> Ungrouped(t) == Ungrouped(t[..|t| - 2]) + [t[|t| - 1]]
  {
    var rest := t[..|t| - 2];
    if Grouped(t) {
      assert t[|t| - 3] != '_';
      assert Grouped(rest);
    }
    if Grouped(rest) {
      assert t[|t| - 3] == rest[|rest| - 1];
      forall i | 0 <= i < |t| - 3 && t[i] == '_'
        ensures t[i + 1] != '_'
      {
        assert t[i] == rest[i] && t[i + 1] == rest[i + 1];
      }
      assert Grouped(t);
      assert t[..|t| - 1][..|t| - 2] == rest;
    }
  }

  /** The scanner accepts exactly the grouped digit strings and reads the
      number the digits denote. */
  lemma {:induction false} ScanDigitsSpec(t: string)
    ensures ScanDigits(t).Some? <==> Grouped(t)
    ensures ScanDigits(t).Some? ==> ScanDigits(t).value == ValueOf(Ungrouped(t))
    decreases |t|
  {
    if |t| == 0 || !IsDigit(t[|t| - 1]) {
    } else if |t| == 1 {
      assert Ungrouped(t) == Ungrouped(t[..0]) + [t[0]];
    } else if t[|t| - 2] == '_' {
      if |t| == 2 {
        assert !Grouped(t);
      } else {
        assert t[..|t| - 1][..|t| - 2] == t[..|t| - 2];
        ScanDigitsSpec(t[..|t| - 2]);
        UnderscoreStep(t);
      }
    } else {
      if IsDigit(t[|t| - 2]) {
        ScanDigitsSpec(t[..|t| - 1]);
        DigitStep(t);
      } else {
        ScanDigitsSpec(t[..|t| - 1]);
        assert !Grouped(t[..|t| - 1]);
        assert !Grouped(t);
      }
    }
  }

  /** The number of digits `int()` converts from text by default
      (`sys.get_int_max_str_digits()`); a literal with more digits raises
      ValueError. */
  const MaxStrDigits: nat := 4300

  /** The decimal digits of `t`; signs and underscores do not count. */
  function DigitCount(t: string): (n: nat)
    ensures n <= |t|
  {
    if |t| == 0 then 0 else (if IsDigit(t[0]) then 1 else 0) + DigitCount(t[1..])
  }

  /** The stripped text `int()` accepts: a base-10 literal within the
      digit limit. */
  ghost predicate Accepted(t: string) {
    IntLiteral(t) && DigitCount(t) <= MaxStrDigits
  }

  /** `int(s)` for base 10. Text with more digits than the limit raises
      ValueError before it is read; the message differs from that of a
      malformed literal, but the exception is the same. */
  function PyInt(s: string): Result<int> {
    var t := Strip(s);
    if DigitCount(t) > MaxStrDigits then Failure(NotAnInteger(s)) else Literal(t, s)
  }

  /** Reads the stripped text `t` of `s`: an optional sign, then grouped digits. */
  function Literal(t: string, s: string): Result<int> {
    if |t| > 0 && t[0] == '-' then Signed(ScanDigits(t[1..]), true, s)
    else if |t| > 0 && t[0] == '+' then Signed(ScanDigits(t[1..]), false, s)
    else Signed(ScanDigits(t), false, s)
  }

  function Signed(digits: Option<nat>, negative: bool, s: string): Result<int> {
    match digits
    case None => Failure(NotAnInteger(s))
    case Some(v) => Success(if negative then -(v as int) else v as int)
  }

  /** A leading U+001C, a separator `str.isspace()` accepts, is not white
      space to `int()`: the text is invalid. */
  lemma PyIntKeepsSeparator()
    ensures PyInt("\U{1c}5") == Failure(NotAnInteger("\U{1c}5"))
  {
    var t := "\U{1c}5";
    assert StripLeft(t) == t;
    assert StripRight(t) == t;
    assert ScanDigits(t[..1]) == None;
  }

  /** A leading tab and a trailing newline are stripped. */
  lemma PyIntStripsAsciiSpace()
    ensures PyInt("\t5\n") == Success(5)
  {
    var s, t := "\t5\n", "5\n";
    assert IsSpace(s[0]) && s[1..] == t && !IsSpace(t[0]);
    assert StripLeft(t) == t;
    assert StripLeft(s) == t;
    assert IsSpace(t[1]) && t[..1] == "5";
    assert StripRight("5") == "5";
    assert StripRight(t) == "5";
    assert ScanDigits("5") == Some(5);
  }

  /** A leading no-break space, white space outside ASCII, is stripped. */
  lemma PyIntStripsNoBreakSpace()
    ensures PyInt("\U{a0}5") == Success(5)
  {
    assert "\U{a0}5"[1..] == "5";
    assert StripLeft("\U{a0}5") == "5";
    assert StripRight("5") == "5";
    assert ScanDigits("5") == Some(5);
  }

  /** `int()` succeeds exactly on a base-10 literal surrounded by white
      space, with at most `MaxStrDigits` digits. */
  lemma PyIntAccepts(s: string)
    ensures PyInt(s).Success? <==> Accepted(Strip(s))
  {
    var t := Strip(s);
    if DigitCount(t) > MaxStrDigits {
    } else if |t| > 0 && (t[0] == '+' || t[0] == '-') {
      ScanDigitsSpec(t[1..]);
      assert !Grouped(t);
    } else {
      ScanDigitsSpec(t);
    }
  }

  lemma {:induction false} ScanPlainDigits(s: string)
    requires |s| > 0 && AllDigits(s)
    ensures ScanDigits(s) == Some(ValueOf(s))
    decreases |s|
  {
    if |s| > 1 {
      ScanPlainDigits(s[..|s| - 1]);
    }
  }

  lemma DigitIsNotSpace(c: char)
    requires IsDigit(c) || c == '-'
    ensures !IsSpace(c)
  {
  }

  /** Every character of an all-digit text is counted. */
  lemma {:induction false} DigitCountAll(s: string)
    requires AllDigits(s)
    ensures DigitCount(s) == |s|
    decreases |s|
  {
    if |s| > 0 {
      DigitCountAll(s[1..]);
    }
  }

  /** `%d` text fits the digit limit exactly when the number is below
      10 to the power of the limit. */
  lemma DecimalWithinLimit(n: nat)
    ensures |NatToDecimal(n)| <= MaxStrDigits <==> n < Pow10(MaxStrDigits)
  {
    if n < Pow10(MaxStrDigits) {
      DecimalLength(n, MaxStrDigits);
    } else {
      DecimalLengthAbove(n, MaxStrDigits);
    }
  }

  lemma StripNothing(s: string)
    requires |s| > 0 && !IsSpace(s[0]) && !IsSpace(s[|s| - 1])
    ensures Strip(s) == s
  {
  }

  /** `int()` of plain digits of value `v` is `v` when they fit the limit. */
  lemma PyIntDigits(d: string, v: nat)
    requires |d| > 0 && AllDigits(d) && ValueOf(d) == v
    ensures |d| <= MaxStrDigits ==> PyInt(d) == Success(v)
    ensures |d| > MaxStrDigits ==> PyInt(d) == Failure(NotAnInteger(d))
  {
    DigitIsNotSpace(d[0]);
    DigitIsNotSpace(d[|d| - 1]);
    StripNothing(d);
    DigitCountAll(d);
    if |d| <= MaxStrDigits {
      ScanPlainDigits(d);
    }
  }

  /** `int()` of a minus sign before digits of value `v` within the limit;
      the sign is not a digit. */
  lemma NegativeWithinLimit(d: string, v: nat)
    requires |d| > 0 && AllDigits(d) && |d| <= MaxStrDigits && ValueOf(d) == v
    ensures PyInt("-" + d) == Success(-(v as int))
  {
    var m := "-" + d;
    NegativeStripped(d);
    SignNotCounted(d);
    PyIntOf(m, m);
    NegativeLiteral(d, v);
  }

  /** `int()` of a minus sign before more digits than the limit. */
  lemma NegativeBeyondLimit(d: string)
    requires |d| > MaxStrDigits && AllDigits(d)
    ensures PyInt("-" + d) == Failure(NotAnInteger("-" + d))
  {
    var m := "-" + d;
    NegativeStripped(d);
    SignNotCounted(d);
    PyIntOf(m, m);
  }

  /** The sign adds nothing to the digit count. */
  lemma SignNotCounted(d: string)
    requires AllDigits(d)
    ensures DigitCount("-" + d) == |d|
  {
    var m := "-" + d;
    assert m[1..] == d;
    DigitCountAll(d);
  }

  /** A minus sign before plain digits reads as the negated value. */
  lemma NegativeLiteral(d: string, v: nat)
    requires |d| > 0 && AllDigits(d) && ValueOf(d) == v
    ensures Literal("-" + d, "-" + d) == Success(-(v as int))
  {
    var m := "-" + d;
    assert m[1..] == d;
    ScanPlainDigits(d);
  }

  /** `int()` once the stripped text is known. */
  lemma PyIntOf(s: string, t: string)
    requires Strip(s) == t
    ensures PyInt(s) == if DigitCount(t) > MaxStrDigits then Failure(NotAnInteger(s)) else Literal(t, s)
  {
  }

  /** A minus sign before plain digits has nothing to strip. */
  lemma NegativeStripped(d: string)
    requires |d| > 0 && AllDigits(d)
    ensures Strip("-" + d) == "-" + d
  {
    var m := "-" + d;
    DigitIsNotSpace(m[0]);
    assert m[|m| - 1] == d[|d| - 1];
    DigitIsNotSpace(m[|m| - 1]);
    StripNothing(m);
  }

  /** `int()` reads back what `"%d"` wrote, unless the text has more
      digits than the limit, when it raises ValueError. By
      `DecimalWithinLimit` the text fits exactly when `n` is below
      10 to the power of the limit. */
  lemma PyIntRoundTrip(n: nat)
    ensures |NatToDecimal(n)| <= MaxStrDigits ==> PyInt(NatToDecimal(n)) == Success(n)
    ensures |NatToDecimal(n)| > MaxStrDigits ==> PyInt(NatToDecimal(n)) == Failure(NotAnInteger(NatToDecimal(n)))
  {
    ValueOfDecimal(n);
    PyIntDigits(NatToDecimal(n), n);
  }

  /** `int()` reads back a minus sign followed by what `"%d"` wrote; the
      sign does not count towards the digit limit. */
  lemma PyIntNegativeRoundTrip(n: nat)
    ensures |NatToDecimal(n)| <= MaxStrDigits ==> PyInt("-" + NatToDecimal(n)) == Success(-(n as int))
    ensures |NatToDecimal(n)| > MaxStrDigits ==> PyInt("-" + NatToDecimal(n)) == Failure(NotAnInteger("-" + NatToDecimal(n)))
  {
    if |NatToDecimal(n)| <= MaxStrDigits {
      ValueOfDecimal(n);
      NegativeWithinLimit(NatToDecimal(n), n);
    } else {
      NegativeBeyondLimit(NatToDecimal(n));
    }
  }

  /** `int()` of a string without any decimal digit raises ValueError. */
  lemma PyIntNeedsDigit(s: string)
    requires forall i :: 0 <= i < |s| ==> !IsDigit(s[i])
    ensures PyInt(s).Failure?
  {
    var t := Strip(s);
    var l := StripLeft(s);
    assert t == l[..|t|];
    if |t| > 0 {
      assert t[|t| - 1] == s[|s| - |l| + |t| - 1];
    }
  }
}

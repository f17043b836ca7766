/** The java.lang text routines the core relies on: decimal
    rendering of integers, Integer.parseInt and Long.parseLong (the Java 8
    rules: optional sign, at least one digit, range check),
    Boolean.parseBoolean, String.trim, String.split(",") and the first-letter
    lower-casing of a bean name. */
module JavaText {
  import opened Wrappers

  const Int32Min: int := -0x8000_0000
  const Int32Max: int := 0x7FFF_FFFF
  const Int64Min: int := -0x8000_0000_0000_0000
  const Int64Max: int := 0x7FFF_FFFF_FFFF_FFFF

  /** The first code point of the run of ten decimal digits (Unicode
      general category Nd) that holds k, or -1. These are the runs of the
      Basic Multilingual Plane in Unicode 6.2, the version Java 8's Character
      follows; a character outside that plane is two UTF-16 units in Java,
      neither of them a digit. */
  function DigitZero(k: int): (z: int)
    ensures z == -1 || InRun(k, z)
  {
    if InRun(k, 0x30) then 0x30
    else if InRun(k, 0x660) then 0x660
    else if InRun(k, 0x6F0) then 0x6F0
    else if InRun(k, 0x7C0) then 0x7C0
    else if InRun(k, 0x966) then 0x966
    else if InRun(k, 0x9E6) then 0x9E6
    else if InRun(k, 0xA66) then 0xA66
    else if InRun(k, 0xAE6) then 0xAE6
    else if InRun(k, 0xB66) then 0xB66
    else if InRun(k, 0xBE6) then 0xBE6
    else if InRun(k, 0xC66) then 0xC66
    else if InRun(k, 0xCE6) then 0xCE6
    else if InRun(k, 0xD66) then 0xD66
    else if InRun(k, 0xE50) then 0xE50
    else if InRun(k, 0xED0) then 0xED0
    else if InRun(k, 0xF20) then 0xF20
    else if InRun(k, 0x1040) then 0x1040
    else if InRun(k, 0x1090) then 0x1090
    else if InRun(k, 0x17E0) then 0x17E0
    else if InRun(k, 0x1810) then 0x1810
    else if InRun(k, 0x1946) then 0x1946
    else if InRun(k, 0x19D0) then 0x19D0
    else if InRun(k, 0x1A80) then 0x1A80
    else if InRun(k, 0x1A90) then 0x1A90
    else if InRun(k, 0x1B50) then 0x1B50
    else if InRun(k, 0x1BB0) then 0x1BB0
    else if InRun(k, 0x1C40) then 0x1C40
    else if InRun(k, 0x1C50) then 0x1C50
    else if InRun(k, 0xA620) then 0xA620
    else if InRun(k, 0xA8D0) then 0xA8D0
    else if InRun(k, 0xA900) then 0xA900
    else if InRun(k, 0xA9D0) then 0xA9D0
    else if InRun(k, 0xAA50) then 0xAA50
    else if InRun(k, 0xABF0) then 0xABF0
    else if InRun(k, 0xFF10) then 0xFF10
    else -1
  }

  predicate InRun(k: int, zero: int) { zero <= k < zero + 10 }

  /** Character.digit(c, 10) != -1: c is a decimal digit of some script. */
  predicate IsDigit(c: char) { DigitZero(c as int) != -1 }

  predicate IsAsciiDigit(c: char) { '0' <= c <= '9' }

  predicate AllDigits(s: string) { forall i | 0 <= i < |s| :: IsDigit(s[i]) }

  predicate AllAsciiDigits(s: string) { forall i | 0 <= i < |s| :: IsAsciiDigit(s[i]) }

  /** Character.digit(c, 10). */
  function DigitValue(c: char): (d: nat)
    requires IsDigit(c)
    ensures d < 10
  {
    c as int - DigitZero(c as int)
  }

  /** An ASCII digit is a digit, worth its distance from '0'. */
  lemma AsciiDigit(c: char)
    requires IsAsciiDigit(c)
    ensures IsDigit(c) && DigitValue(c) == c as int - '0' as int
  {
    assert DigitZero(c as int) == 0x30;
  }

  lemma AsciiDigits(s: string)
    requires AllAsciiDigits(s)
    ensures AllDigits(s)
  {
    forall i | 0 <= i < |s|
      ensures IsDigit(s[i])
    {
      AsciiDigit(s[i]);
    }
  }

  function DigitChar(d: nat): (c: char)
    requires d < 10
    ensures IsAsciiDigit(c) && IsDigit(c) && DigitValue(c) == d
  {
    var c := ('0' as int + d) as char;
    AsciiDigit(c);
    c
  }

  /** The decimal digits of n, most significant first, with no leading zero. */
  function NaturalString(n: nat): (s: string)
    ensures |s| >= 1 && AllAsciiDigits(s)
    ensures n > 0 ==> s[0] != '0'
  {
    if n < 10 then [DigitChar(n)] else NaturalString(n / 10) + [DigitChar(n % 10)]
  }

  /** Integer.toString, Long.toString and BigInteger.toString in radix 10. */
  function DecimalString(n: int): string
  {
    if n < 0 then "-" + NaturalString(-n) else NaturalString(n)
  }

  /** The number a non-empty run of decimal digits denotes. */
  function DigitsValue(s: string): nat
    requires AllDigits(s)
  {
    if s == [] then 0 else 10 * DigitsValue(s[..|s| - 1]) + DigitValue(s[|s| - 1])
  }

  /** What Java's radix-10 parser reads before its range check: an optional
      '-' or '+' followed by at least one digit, and nothing else. */
  function SignedValue(s: string): Option<int>
  {
    if |s| == 0 then None
    else if s[0] == '-' || s[0] == '+' then
      if |s| == 1 || !AllDigits(s[1..]) then None
      else if s[0] == '-' then Some(0 - DigitsValue(s[1..]))
      else Some(DigitsValue(s[1..]) as int)
    else if AllDigits(s) then Some(DigitsValue(s) as int)
    else None
  }

  /** The message of the NumberFormatException both parsers throw. */
  function NumberFormatMessage(s: string): string
  {
    "For input string: \"" + s + "\""
  }

  /** Integer.parseInt(s). */
  function ParseInt(s: string): (r: Result<int>)
    ensures r.Ok? ==> Int32Min <= r.value <= Int32Max && SignedValue(s) == Some(r.value)
    ensures SignedValue(s).Some? && Int32Min <= SignedValue(s).value <= Int32Max ==> r == Ok(SignedValue(s).value)
    ensures r.Thrown? ==> r.message == NumberFormatMessage(s)
  {
    match SignedValue(s)
    case Some(n) => if Int32Min <= n <= Int32Max then Ok(n) else Thrown(NumberFormatMessage(s))
    case None => Thrown(NumberFormatMessage(s))
  }

  /** Long.parseLong(s). */
  function ParseLong(s: string): (r: Result<int>)
    ensures r.Ok? ==> Int64Min <= r.value <= Int64Max && SignedValue(s) == Some(r.value)
    ensures SignedValue(s).Some? && Int64Min <= SignedValue(s).value <= Int64Max ==> r == Ok(SignedValue(s).value)
    ensures r.Thrown? ==> r.message == NumberFormatMessage(s)
  {
    match SignedValue(s)
    case Some(n) => if Int64Min <= n <= Int64Max then Ok(n) else Thrown(NumberFormatMessage(s))
    case None => Thrown(NumberFormatMessage(s))
  }

  lemma {:induction false} DigitsValueOfNatural(n: nat)
    ensures AllDigits(NaturalString(n))
    ensures DigitsValue(NaturalString(n)) == n
    decreases n
  {
    AsciiDigits(NaturalString(n));
    if n >= 10 {
      var s := NaturalString(n);
      assert s[..|s| - 1] == NaturalString(n / 10);
      DigitsValueOfNatural(n / 10);
    }
  }

  /** Rendering an integer in decimal and reading it back gives the integer. */
  lemma SignedValueOfDecimal(n: int)
    ensures SignedValue(DecimalString(n)) == Some(n)
  {
    var s := DecimalString(n);
    if n < 0 {
      var digits := NaturalString(-n);
      assert s == "-" + digits;
      assert s[1..] == digits;
      DigitsValueOfNatural(-n);
      assert SignedValue(s) == Some(0 - DigitsValue(digits));
    } else {
      assert s == NaturalString(n);
      assert IsAsciiDigit(s[0]);
      DigitsValueOfNatural(n);
      assert SignedValue(s) == Some(DigitsValue(s) as int);
    }
  }

  /** Integer.parseInt inverts Integer.toString on every int. */
  lemma ParseIntOfDecimal(n: int)
    requires Int32Min <= n <= Int32Max
    ensures ParseInt(DecimalString(n)) == Ok(n)
  {
    SignedValueOfDecimal(n);
  }

  /** Long.parseLong inverts Long.toString on every long. */
  lemma ParseLongOfDecimal(n: int)
    requires Int64Min <= n <= Int64Max
    ensures ParseLong(DecimalString(n)) == Ok(n)
  {
    SignedValueOfDecimal(n);
  }

  /** Text that holds no digit at all is never a number. */
  lemma ParseIntRejectsDigitless(s: string)
    requires forall i | 0 <= i < |s| :: !IsDigit(s[i])
    ensures ParseInt(s).Thrown? && ParseLong(s).Thrown?
  {
    if |s| > 1 && (s[0] == '-' || s[0] == '+') {
      assert !IsDigit(s[1..][0]);
    } else if |s| > 0 {
      assert !IsDigit(s[0]);
    }
  }

  /** Digits of other scripts are read like ASCII ones: a fullwidth three
      is 3, and Arabic-Indic four-two after a minus sign is -42. */
  lemma ParseIntReadsOtherScripts()
    ensures ParseInt("\U{FF13}") == Ok(3) && ParseLong("\U{FF13}") == Ok(3)
    ensures ParseInt("-\U{0664}\U{0662}") == Ok(-42)
  {
    var arabic := "\U{0664}\U{0662}";
    assert arabic[..1] == "\U{0664}";
    assert DigitsValue(arabic) == 42;
    assert ("-" + arabic)[1..] == arabic;
  }

  /** Character.toLowerCase restricted to ASCII letters. */
  function LowerAscii(c: char): char
  {
    if 'A' <= c <= 'Z' then (c as int + 32) as char else c
  }

  /** String.equalsIgnoreCase. For the letters of "true" the ASCII mapping is
      exact: no other character folds to t, r, u or e. */
  predicate EqualsIgnoreCase(a: string, b: string)
  {
    |a| == |b| && forall i | 0 <= i < |a| :: LowerAscii(a[i]) == LowerAscii(b[i])
  }

  /** Boolean.parseBoolean(s). */
  predicate ParseBoolean(s: string)
  {
    EqualsIgnoreCase(s, "true")
  }

  /** String.valueOf(boolean). */
  function BooleanString(b: bool): string
  {
    if b then "true" else "false"
  }

  /** Boolean.parseBoolean inverts String.valueOf(boolean). */
  lemma ParseBooleanOfString(b: bool)
    ensures ParseBoolean(BooleanString(b)) == b
  {
    if !b {
      assert LowerAscii(BooleanString(b)[0]) != LowerAscii("true"[0]);
    }
  }

  /** Upper and lower case spellings of "true" are all true. */
  lemma ParseBooleanIgnoresCase(s: string)
    requires |s| == 4
    requires LowerAscii(s[0]) == 't' && LowerAscii(s[1]) == 'r'
    requires LowerAscii(s[2]) == 'u' && LowerAscii(s[3]) == 'e'
    ensures ParseBoolean(s)
  {
  }

  /** A decimal number is never read as true. */
  lemma ParseBooleanOfDecimal(n: int)
    ensures !ParseBoolean(DecimalString(n))
  {
    var s := DecimalString(n);
    if |s| == 4 {
      assert s[0] == '-' || IsAsciiDigit(s[0]);
      assert LowerAscii(s[0]) != 't';
    }
  }

  /** The first index at or after i holding a character above ' '. */
  function SkipLeading(s: string, i: nat): (st: nat)
    requires i <= |s|
    ensures i <= st <= |s|
    decreases |s| - i
  {
    if i < |s| && s[i] <= ' ' then SkipLeading(s, i + 1) else i
  }

  lemma {:induction false} SkipLeadingSpec(s: string, i: nat)
    requires i <= |s|
    ensures var st := SkipLeading(s, i);
      && (st < |s| ==> s[st] > ' ')
      && forall j | i <= j < st :: s[j] <= ' '
    decreases |s| - i
  {
    if i < |s| && s[i] <= ' ' {
      SkipLeadingSpec(s, i + 1);
    }
  }

  /** The end, at most len and at least st, past which only characters up to
      ' ' remain. */
  function SkipTrailing(s: string, st: nat, len: nat): (e: nat)
    requires st <= len <= |s|
    ensures st <= e <= len
    decreases len
  {
    if st < len && s[len - 1] <= ' ' then SkipTrailing(s, st, len - 1) else len
  }

  lemma {:induction false} SkipTrailingSpec(s: string, st: nat, len: nat)
    requires st <= len <= |s|
    ensures var e := SkipTrailing(s, st, len);
      && (e > st ==> s[e - 1] > ' ')
      && forall j | e <= j < len :: s[j] <= ' '
    decreases len
  {
    if st < len && s[len - 1] <= ' ' {
      SkipTrailingSpec(s, st, len - 1);
    }
  }

  /** r sits in s at offset a, and everything of s around it is at most ' '. */
  predicate TrimmedAt(s: string, r: string, a: int)
  {
    0 <= a && a + |r| <= |s| && s[a..a + |r|] == r
    && (forall i | 0 <= i < a :: s[i] <= ' ')
    && (forall i | a + |r| <= i < |s| :: s[i] <= ' ')
  }

  /** String.trim(): the text between the first and the last character above
      ' ', as Java's two index scans find them. */
  function Trim(s: string): string
  {
    var st := SkipLeading(s, 0);
    s[st..SkipTrailing(s, st, |s|)]
  }

  /** Trim drops exactly the leading and trailing characters up to ' '. */
  lemma TrimSpec(s: string)
    ensures TrimmedAt(s, Trim(s), SkipLeading(s, 0))
    ensures Trim(s) == [] || (Trim(s)[0] > ' ' && Trim(s)[|Trim(s)| - 1] > ' ')
  {
    var st := SkipLeading(s, 0);
    SkipLeadingSpec(s, 0);
    SkipTrailingSpec(s, st, |s|);
  }

  /** Trimming twice trims nothing more. */
  lemma TrimIdempotent(s: string)
    ensures Trim(Trim(s)) == Trim(s)
  {
    var r := Trim(s);
    TrimSpec(s);
    assert SkipLeading(r, 0) == 0;
    assert SkipTrailing(r, 0, |r|) == |r|;
  }

  /** Text trims to nothing exactly when all its characters are at most ' '. */
  lemma TrimEmpty(s: string)
    ensures Trim(s) == [] <==> forall i | 0 <= i < |s| :: s[i] <= ' '
  {
    TrimSpec(s);
    var st := SkipLeading(s, 0);
    SkipLeadingSpec(s, 0);
  }

  /** The index of the first occurrence of c in s. */
  function IndexOf(s: string, c: char): (i: nat)
    requires c in s
    ensures i < |s| && s[i] == c && c !in s[..i]
  {
    if s[0] == c then 0 else 1 + IndexOf(s[1..], c)
  }

  /** The index of the last occurrence of c in s, or -1 (String.lastIndexOf). */
  function LastIndexOf(s: string, c: char): (i: int)
    ensures -1 <= i < |s|
    ensures i >= 0 ==> s[i] == c
  {
    if s == [] then -1
    else if s[|s| - 1] == c then |s| - 1
    else LastIndexOf(s[..|s| - 1], c)
  }

  /** No occurrence of c follows the one lastIndexOf finds. */
  lemma {:induction false} LastIndexOfIsLast(s: string, c: char)
    ensures forall j | LastIndexOf(s, c) < j < |s| :: s[j] != c
  {
    if s != [] && s[|s| - 1] != c {
      var init := s[..|s| - 1];
      LastIndexOfIsLast(init, c);
      assert forall j | 0 <= j < |init| :: init[j] == s[j];
    }
  }

  /** Every piece between commas, one more than there are commas. */
  function Segments(s: string): (parts: seq<string>)
    ensures |parts| >= 1
    decreases |s|
  {
    if ',' in s then
      var i := IndexOf(s, ',');
      [s[..i]] + Segments(s[i + 1..])
    else [s]
  }

  /** Removes the empty strings at the end of a split result. */
  function DropTrailingEmpty(parts: seq<string>): (r: seq<string>)
    ensures |r| <= |parts| && r == parts[..|r|]
    ensures r == [] || r[|r| - 1] != []
  {
    if parts != [] && parts[|parts| - 1] == [] then DropTrailingEmpty(parts[..|parts| - 1]) else parts
  }

  /** String.split(","): a string without a comma splits into itself, and
      otherwise the pieces between commas lose their trailing empties. */
  function SplitComma(s: string): seq<string>
  {
    if ',' in s then DropTrailingEmpty(Segments(s)) else [s]
  }

  predicate OnlyCommas(s: string) { forall i | 0 <= i < |s| :: s[i] == ',' }

  predicate AllEmpty(parts: seq<string>) { forall k | 0 <= k < |parts| :: parts[k] == [] }

  lemma {:induction false} SegmentsAllEmpty(s: string)
    ensures AllEmpty(Segments(s)) <==> OnlyCommas(s)
    decreases |s|
  {
    if ',' in s {
      var i := IndexOf(s, ',');
      SegmentsAllEmpty(s[i + 1..]);
      var parts := Segments(s);
      assert parts[1..] == Segments(s[i + 1..]);
      if OnlyCommas(s) {
        assert i == 0;
        assert OnlyCommas(s[i + 1..]);
      }
      if AllEmpty(parts) {
        assert parts[0] == [] && i == 0;
        var rest := Segments(s[i + 1..]);
        forall k | 0 <= k < |rest|
          ensures rest[k] == []
        {
          assert rest[k] == parts[k + 1];
        }
        forall j | 0 <= j < |s|
          ensures s[j] == ','
        {
          if j > 0 {
            assert s[j] == s[i + 1..][j - 1];
          }
        }
      }
    } else if s != [] {
      assert Segments(s) == [s];
      assert Segments(s)[0] != [];
      assert !OnlyCommas(s) by { assert s[0] != ','; }
    }
  }

  lemma {:induction false} DropTrailingEmptyKeepsHead(parts: seq<string>)
    ensures DropTrailingEmpty(parts) == [] <==> AllEmpty(parts)
    ensures DropTrailingEmpty(parts) != [] ==> DropTrailingEmpty(parts)[0] == parts[0]
  {
    if parts != [] && parts[|parts| - 1] == [] {
      var init := parts[..|parts| - 1];
      DropTrailingEmptyKeepsHead(init);
      if AllEmpty(init) {
        assert AllEmpty(parts) by {
          forall k | 0 <= k < |parts| ensures parts[k] == [] {
            if k < |init| { assert parts[k] == init[k]; }
          }
        }
      }
    }
  }

  /** A non-empty string splits into no pieces exactly when it is made only of
      commas; otherwise the first piece is the text before the first comma. */
  lemma SplitCommaHead(s: string)
    requires s != []
    ensures SplitComma(s) == [] <==> OnlyCommas(s)
    ensures SplitComma(s) != [] ==> SplitComma(s)[0] == if ',' in s then s[..IndexOf(s, ',')] else s
  {
    if ',' in s {
      var parts := Segments(s);
      SegmentsAllEmpty(s);
      DropTrailingEmptyKeepsHead(parts);
      assert SplitComma(s) == DropTrailingEmpty(parts);
    } else {
      assert s[0] != ',';
    }
  }

  /** The string with its first character lower-cased (Character.toLowerCase
      over ASCII) and the rest unchanged. */
  function LowerFirst(s: string): (r: string)
    ensures |r| == |s| && (s != [] ==> r[1..] == s[1..])
  {
    if s == [] then s else [LowerAscii(s[0])] + s[1..]
  }
}

/** The pieces of Go's strings and strconv packages that the keys and headers go through. */
module Text {
  import opened Common
  import Int64

  /** strings.Split on a one-character separator: always at least one piece. */
  function Split(s: string, sep: char): (parts: seq<string>)
    ensures |parts| >= 1
    decreases |s|
  {
    if s == "" then [""]
    else if s[0] == sep then [""] + Split(s[1..], sep)
    else
      var rest := Split(s[1..], sep);
      [[s[0]] + rest[0]] + rest[1..]
  }

  lemma {:induction false} SplitNone(s: string, sep: char)
    requires sep !in s
    ensures Split(s, sep) == [s]
    decreases |s|
  {
    if s != "" {
      SplitNone(s[1..], sep);
      assert [s[0]] + s[1..] == s;
    }
  }

  /** The first piece ends at the first separator; the others are the split of what follows it. */
  lemma {:induction false} SplitFirst(a: string, sep: char, b: string)
    requires sep !in a
    ensures Split(a + [sep] + b, sep) == [a] + Split(b, sep)
    decreases |a|
  {
    var s := a + [sep] + b;
    if a == "" {
      assert s[1..] == b;
    } else {
      assert s[1..] == a[1..] + [sep] + b;
      SplitFirst(a[1..], sep, b);
      assert [a[0]] + a[1..] == a;
    }
  }

  /** The first piece never contains the separator. */
  lemma {:induction false} FirstPieceClean(s: string, sep: char)
    ensures sep !in Split(s, sep)[0]
    decreases |s|
  {
    if s != "" && s[0] != sep { FirstPieceClean(s[1..], sep); }
  }

  lemma {:induction false} SplitOne(s: string, sep: char)
    requires |Split(s, sep)| == 1
    ensures Split(s, sep) == [s] && sep !in s
    decreases |s|
  {
    if s != "" {
      SplitOne(s[1..], sep);
      assert s == [s[0]] + s[1..];
    }
  }

  /** Two pieces are what stands before and after the one separator. */
  lemma {:induction false} SplitTwo(s: string, sep: char)
    requires |Split(s, sep)| == 2
    ensures var parts := Split(s, sep); s == parts[0] + [sep] + parts[1] && sep !in parts[0] && sep !in parts[1]
    decreases |s|
  {
    assert s == [s[0]] + s[1..];
    if s[0] == sep {
      SplitOne(s[1..], sep);
    } else {
      SplitTwo(s[1..], sep);
    }
  }

  // ---------------------------------------------------------------- decimal numbers

  function DigitChar(d: int): char
    requires 0 <= d < 10
  {
    "0123456789"[d]
  }

  function Digits(n: nat): (s: string)
    ensures |s| >= 1
  {
    if n < 10 then [DigitChar(n)] else Digits(n / 10) + [DigitChar(n % 10)]
  }

  /** How `%d` and FormatInt print a number. */
  function Decimal(n: int): string {
    if n < 0 then "-" + Digits(-n) else Digits(n)
  }

  predicate IsDigit(c: char) { '0' <= c <= '9' }

  function DigitValue(c: char): (d: int)
    requires IsDigit(c)
    ensures 0 <= d < 10
  {
    c as int - '0' as int
  }

  /** The value of a string of digits, or None if some character is not one. */
  function Value(s: string): Option<nat>
    decreases |s|
  {
    if s == "" then Some(0)
    else if !IsDigit(s[|s| - 1]) then None
    else
      match Value(s[..|s| - 1])
      case None => None
      case Some(v) => Some(10 * v + DigitValue(s[|s| - 1]))
  }

  /** A parsed number, with the value Go returns beside the error. */
  datatype Parsed = Number(n: int) | BadSyntax | OutOfRange(clipped: int) {
    function Get(): int {
      match this
      case Number(n) => n
      case BadSyntax => 0
      case OutOfRange(c) => c
    }
  }

  /** strconv.ParseInt(s, 10, 64), and strconv.Atoi where int has 64 bits. */
  function ParseInt(s: string): Parsed {
    if s == "" then BadSyntax
    else
      var signed := s[0] == '-' || s[0] == '+';
      var body := if signed then s[1..] else s;
      if body == "" then BadSyntax
      else
        match Value(body)
        case None => BadSyntax
        case Some(v) =>
          if s[0] == '-' then (if v > Int64.TWO63 then OutOfRange(-Int64.TWO63) else Number(-(v as int)))
          else if v >= Int64.TWO63 then OutOfRange(Int64.TWO63 - 1)
          else Number(v)
  }

  lemma {:induction false} DigitsClean(n: nat)
    ensures forall c :: c in Digits(n) ==> IsDigit(c)
  {
    if n >= 10 { DigitsClean(n / 10); }
  }

  lemma {:induction false} DigitsValue(n: nat)
    ensures Value(Digits(n)) == Some(n)
  {
    var s := Digits(n);
    if n < 10 {
      assert s[..|s| - 1] == "";
      assert Value(s[..|s| - 1]) == Some(0);
    } else {
      DigitsValue(n / 10);
      assert s[..|s| - 1] == Digits(n / 10);
    }
  }

  predicate AllDigits(s: string) { forall k :: 0 <= k < |s| ==> IsDigit(s[k]) }

  lemma {:induction false} ValueExactly(s: string)
    ensures Value(s).Some? <==> AllDigits(s)
    decreases |s|
  {
    if s != "" { ValueExactly(s[..|s| - 1]); }
  }

  /** A number is digits, at least one, after at most one sign. */
  ghost predicate IsNumeral(s: string) {
    exists sign, digits :: sign in {"", "+", "-"} && digits != "" && AllDigits(digits) && s == sign + digits
  }

  lemma NumeralParses(sign: string, digits: string)
    requires sign in {"", "+", "-"} && digits != "" && AllDigits(digits)
    ensures ParseInt(sign + digits) != BadSyntax
  {
    var s := sign + digits;
    assert s[|sign|..] == digits && IsDigit(digits[0]);
    ValueExactly(digits);
  }

  lemma ParsedIsNumeral(s: string)
    requires ParseInt(s) != BadSyntax
    ensures IsNumeral(s)
  {
    var sign := if s[0] == '-' || s[0] == '+' then [s[0]] else "";
    var digits := s[|sign|..];
    ValueExactly(digits);
    assert sign in {"", "+", "-"} && digits != "" && AllDigits(digits) && s == sign + digits;
  }

  /** Exactly numerals are parsed, if only as out of range. */
  lemma ParsesExactly(s: string)
    ensures ParseInt(s) != BadSyntax <==> IsNumeral(s)
  {
    if ParseInt(s) != BadSyntax { ParsedIsNumeral(s); }
    if IsNumeral(s) {
      var sign, digits :| sign in {"", "+", "-"} && digits != "" && AllDigits(digits) && s == sign + digits;
      NumeralParses(sign, digits);
    }
  }

  /** Printing and parsing back gives the number, for every int64. */
  lemma DecimalRoundTrip(n: int)
    requires Int64.Is(n)
    ensures ParseInt(Decimal(n)) == Number(n)
  {
    var m: nat := if n < 0 then -n else n;
    DigitsValue(m);
    DigitsClean(m);
    assert Digits(m)[0] in Digits(m);
    if n < 0 { assert ("-" + Digits(m))[1..] == Digits(m); }
  }

  // ---------------------------------------------------------------- the last separator

  /** strings.LastIndexByte. */
  function LastIndex(s: string, c: char): (i: int)
    ensures -1 <= i < |s|
    ensures i >= 0 ==> s[i] == c
    ensures forall k :: i < k < |s| ==> s[k] != c
    decreases |s|
  {
    if s == "" then -1
    else if s[|s| - 1] == c then |s| - 1
    else LastIndex(s[..|s| - 1], c)
  }

  /** What follows the last separator, if there is one. */
  lemma {:induction false} AfterLast(a: string, c: char, b: string)
    requires c !in b
    ensures LastIndex(a + [c] + b, c) == |a|
    ensures (a + [c] + b)[|a| + 1..] == b
  {
    var s := a + [c] + b;
    var i := LastIndex(s, c);
    assert s[|a|] == c;
    forall k | |a| < k < |s| ensures s[k] != c { assert s[k] == b[k - |a| - 1] && s[k] in b; }
    assert i >= |a| && i <= |a|;
    assert s[|a| + 1..] == b;
  }
}

/** The pieces of Go's strings, strconv and fmt packages the use cases lean on: spaces, searching for a byte,
    and decimal int64 numbers. */
module Text {
  import opened Cases

  // ----- Spaces -----

  predicate IsSpace(c: char) {
    var n := c as int;
    0x09 <= n <= 0x0D || n == 0x20 || n == 0x85 || n == 0xA0 || n == 0x1680 || 0x2000 <= n <= 0x200A
    || n == 0x2028 || n == 0x2029 || n == 0x202F || n == 0x205F || n == 0x3000
  }

  /** strings.TrimSpace */
  function Trim(s: string): (r: string)
    ensures r == "" || (!IsSpace(r[0]) && !IsSpace(r[|r| - 1]))
    ensures s != "" && !IsSpace(s[0]) && !IsSpace(s[|s| - 1]) ==> r == s
    decreases |s|
  {
    if s == "" then ""
    else if IsSpace(s[0]) then Trim(s[1..])
    else if IsSpace(s[|s| - 1]) then Trim(s[..|s| - 1])
    else s
  }

  /** Trimming leaves nothing exactly when there are only spaces. */
  lemma {:induction false} TrimIsEmptyExactlyWhen(s: string)
    ensures Trim(s) == "" <==> forall c :: c in s ==> IsSpace(c)
    decreases |s|
  {
    if s != "" {
      if IsSpace(s[0]) {
        TrimIsEmptyExactlyWhen(s[1..]);
        assert s == [s[0]] + s[1..];
      } else {
        assert s[0] in s;
        if IsSpace(s[|s| - 1]) {
          TrimIsEmptyExactlyWhen(s[..|s| - 1]);
          assert s == s[..|s| - 1] + [s[|s| - 1]];
        }
      }
    }
  }

  predicate AllSpaces(s: string) {
    forall k :: 0 <= k < |s| ==> IsSpace(s[k])
  }

  lemma SpacesJoin(s: string, t: string)
    requires AllSpaces(s) && AllSpaces(t)
    ensures AllSpaces(s + t)
  {
  }

  lemma GlueFront(front: string, left: string, mid: string, right: string)
    ensures front + (left + mid + right) == (front + left) + mid + right
  {
  }

  lemma GlueBack(left: string, mid: string, right: string, back: string)
    ensures (left + mid + right) + back == left + mid + (right + back)
  {
  }

  /** Trimming takes spaces from the two ends and nothing else. */
  lemma {:induction false} TrimTakesOnlySpaces(s: string) returns (left: string, right: string)
    ensures s == left + Trim(s) + right && AllSpaces(left) && AllSpaces(right)
    decreases |s|, 1
  {
    left, right := "", "";
    if s != "" && IsSpace(s[0]) {
      left, right := TrimmedFront(s);
    } else if s != "" && IsSpace(s[|s| - 1]) {
      left, right := TrimmedBack(s);
    }
  }

  lemma {:induction false} TrimmedFront(s: string) returns (left: string, right: string)
    requires s != "" && IsSpace(s[0])
    ensures s == left + Trim(s) + right && AllSpaces(left) && AllSpaces(right)
    decreases |s|, 0
  {
    var first, rest := [s[0]], s[1..];
    var mid := Trim(rest);
    left, right := TrimTakesOnlySpaces(rest);
    assert s == first + rest && Trim(s) == mid;
    GlueFront(first, left, mid, right);
    SpacesJoin(first, left);
    left := first + left;
  }

  lemma {:induction false} TrimmedBack(s: string) returns (left: string, right: string)
    requires s != "" && !IsSpace(s[0]) && IsSpace(s[|s| - 1])
    ensures s == left + Trim(s) + right && AllSpaces(left) && AllSpaces(right)
    decreases |s|, 0
  {
    var rest, last := s[..|s| - 1], [s[|s| - 1]];
    var mid := Trim(rest);
    left, right := TrimTakesOnlySpaces(rest);
    assert s == rest + last && Trim(s) == mid;
    GlueBack(left, mid, right, last);
    SpacesJoin(right, last);
    right := right + last;
  }

  // ----- Searching -----

  function IndexOf(s: string, c: char): (i: int)
    ensures -1 <= i < |s|
    ensures i >= 0 ==> s[i] == c && c !in s[..i]
    ensures i < 0 ==> c !in s
  {
    if s == "" then -1
    else if s[0] == c then 0
    else
      var i := IndexOf(s[1..], c);
      assert i >= 0 ==> s[..i + 1] == [s[0]] + s[1..][..i];
      if i < 0 then -1 else i + 1
  }

  function LastIndexOf(s: string, c: char): (i: int)
    ensures -1 <= i < |s|
    ensures i >= 0 ==> s[i] == c && c !in s[i + 1..]
    ensures i < 0 ==> c !in s
  {
    if s == "" then -1
    else
      var last := |s| - 1;
      if s[last] == c then last
      else
        var i := LastIndexOf(s[..last], c);
        assert i >= 0 ==> s[i + 1..] == s[..last][i + 1..] + [s[last]];
        assert s == s[..last] + [s[last]];
        i
  }

  /** The last occurrence is where the right part that lacks the byte begins. */
  lemma LastIndexSplits(a: string, b: string, c: char)
    requires c !in b
    ensures LastIndexOf(a + [c] + b, c) == |a|
  {
    var s := a + [c] + b;
    var i := LastIndexOf(s, c);
    assert s[|a|] == c;
    assert forall k :: |a| < k < |s| ==> s[k] in b;
    assert forall k :: i < k < |s| ==> s[k] in s[i + 1..];
  }

  /** Cutting at the last occurrence gives both parts back. */
  lemma TailSplits(a: string, b: string, c: char)
    requires c !in b
    ensures var s := a + [c] + b; LastIndexOf(s, c) == |a| && s[..|a|] == a && s[|a| + 1..] == b
  {
    LastIndexSplits(a, b, c);
  }

  /** Cutting at the first occurrence gives the left part back exactly when it lacks the byte. */
  lemma FirstIndexStops(a: string, b: string, c: char)
    ensures IndexOf(a + [c] + b, c) == |a| <==> c !in a
    ensures 0 <= IndexOf(a + [c] + b, c) <= |a|
  {
    var s := a + [c] + b;
    var i := IndexOf(s, c);
    assert s[|a|] == c;
    assert s[..|a|] == a;
    assert forall k :: 0 <= k < i ==> s[k] in s[..i];
  }

  lemma PrefixStrips(prefix: string, rest: string)
    ensures prefix <= prefix + rest && (prefix + rest)[|prefix|..] == rest
  {
  }

  // ----- Decimal numbers -----

  predicate IsDigit(c: char) { '0' <= c <= '9' }

  function DigitOf(c: char): nat
    requires IsDigit(c)
  {
    c as int - '0' as int
  }

  function DigitChar(d: nat): (c: char)
    requires d < 10
    ensures IsDigit(c) && DigitOf(c) == d
  {
    ('0' as int + d) as char
  }

  function Digits(n: nat): (s: string)
    ensures s != "" && forall c :: c in s ==> IsDigit(c)
  {
    if n < 10 then [DigitChar(n)] else Digits(n / 10) + [DigitChar(n % 10)]
  }

  function Value(s: string): nat
    requires forall c :: c in s ==> IsDigit(c)
  {
    if s == "" then 0 else 10 * Value(s[..|s| - 1]) + DigitOf(s[|s| - 1])
  }

  lemma {:induction false} ValueOfDigits(n: nat)
    ensures Value(Digits(n)) == n
  {
    if n >= 10 {
      ValueOfDigits(n / 10);
      var s := Digits(n);
      assert s[..|s| - 1] == Digits(n / 10);
    } else {
      assert Digits(n)[..0] == "";
    }
  }

  const MIN_INT64 := -0x8000_0000_0000_0000
  const MAX_INT64 := 0x7FFF_FFFF_FFFF_FFFF

  predicate IsInt64(n: int) { MIN_INT64 <= n <= MAX_INT64 }

  /** fmt's %d */
  function Print(n: int): string {
    if n < 0 then "-" + Digits(-n) else Digits(n)
  }

  function WithSign(negative: bool, m: nat): int {
    if negative then -(m as int) else m
  }

  function Signed(negative: bool, digits: string): Option<int>
    requires forall c :: c in digits ==> IsDigit(c)
  {
    var n := WithSign(negative, Value(digits));
    if digits != "" && IsInt64(n) then Some(n) else None
  }

  function Unsigned(s: string): string {
    if s != "" && (s[0] == '-' || s[0] == '+') then s[1..] else s
  }

  /** strconv.ParseInt(s, 10, 64): the whole text must be a number. */
  function ParseInt(s: string): Option<int> {
    var digits := Unsigned(s);
    if forall c :: c in digits ==> IsDigit(c) then Signed(s != "" && s[0] == '-', digits) else None
  }

  function LeadingDigits(s: string): (d: string)
    ensures forall c :: c in d ==> IsDigit(c)
    ensures d <= s && (|d| < |s| ==> !IsDigit(s[|d|]))
  {
    if s == "" || !IsDigit(s[0]) then "" else [s[0]] + LeadingDigits(s[1..])
  }

  /** SkipSpace of fmt's scanner; a newline is an error. */
  function SkipSpace(s: string): Option<string> {
    if s == "" || !IsSpace(s[0]) then Some(s)
    else if s[0] == '\n' then None
    else SkipSpace(s[1..])
  }

  /** fmt.Sscanf(s, "%d", &n): spaces, a sign and a run of digits; whatever follows is ignored. */
  function ScanInt(s: string): Option<int> {
    match SkipSpace(s)
    case None => None
    case Some(t) => Signed(t != "" && t[0] == '-', LeadingDigits(Unsigned(t)))
  }

  lemma {:induction false} AllDigitsLead(s: string)
    requires forall c :: c in s ==> IsDigit(c)
    ensures LeadingDigits(s) == s
  {
    if s != "" {
      AllDigitsLead(s[1..]);
    }
  }

  lemma PrintIsSignAndDigits(n: int)
    ensures var m := if n < 0 then -n else n;
            Print(n) != "" && Unsigned(Print(n)) == Digits(m) && (Print(n)[0] == '-' <==> n < 0)
              && !IsSpace(Print(n)[0])
  {
    var m := if n < 0 then -n else n;
    assert Digits(m)[0] in Digits(m);
    assert n < 0 ==> Print(n)[1..] == Digits(m);
  }

  /** Both readers give back every printed int64. */
  lemma PrintedNumberReadsBack(n: int)
    requires IsInt64(n)
    ensures ScanInt(Print(n)) == Some(n) && ParseInt(Print(n)) == Some(n)
  {
    var m := if n < 0 then -n else n;
    PrintIsSignAndDigits(n);
    ValueOfDigits(m);
    AllDigitsLead(Digits(m));
    var s := Print(n);
    SignedReads(n < 0, m);
    assert SkipSpace(s) == Some(s);
  }

  lemma SignedReads(negative: bool, m: nat)
    requires IsInt64(WithSign(negative, m))
    ensures Signed(negative, Digits(m)) == Some(WithSign(negative, m))
  {
    ValueOfDigits(m);
  }

  predicate AllDigits(s: string) {
    s != "" && forall c :: c in s ==> IsDigit(c)
  }

  /** A decimal int64: digits, with or without a sign. */
  predicate IsNumeral(s: string, n: int) {
    IsInt64(n) && s != ""
    && ((AllDigits(s) && n == Value(s))
        || (s[0] == '+' && AllDigits(s[1..]) && n == Value(s[1..]))
        || (s[0] == '-' && AllDigits(s[1..]) && n == 0 - Value(s[1..])))
  }

  /** ParseInt reads exactly the decimal int64s. */
  lemma ParseIntIs(s: string, n: int)
    ensures ParseInt(s) == Some(n) <==> IsNumeral(s, n)
  {
    if s != "" {
      assert s[0] in s;
    }
  }

  predicate Blank(s: string) {
    forall c :: c in s ==> IsSpace(c) && c != '\n'
  }

  lemma {:induction false} BlanksAreSkipped(blanks: string, t: string)
    requires Blank(blanks)
    ensures SkipSpace(blanks + t) == SkipSpace(t)
    decreases |blanks|
  {
    if blanks == "" {
      assert blanks + t == t;
    } else {
      assert (blanks + t)[0] == blanks[0] && (blanks + t)[1..] == blanks[1..] + t;
      BlanksAreSkipped(blanks[1..], t);
    }
  }

  /** Sscanf reads the number that follows the blanks, up to the first byte that is no digit. */
  lemma ScanReadsNumber(blanks: string, rest: string)
    requires Blank(blanks) && LeadingDigits(rest) != ""
    ensures var n := Value(LeadingDigits(rest));
            ScanInt(blanks + rest) == if IsInt64(n) then Some(n) else None
  {
    BlanksAreSkipped(blanks, rest);
    assert IsDigit(rest[0]);
    assert SkipSpace(rest) == Some(rest) && Unsigned(rest) == rest;
  }

  lemma ScanReadsNegative(blanks: string, rest: string, digits: string)
    requires Blank(blanks) && digits == LeadingDigits(rest) && digits != ""
    ensures ScanInt(blanks + (['-'] + rest)) == if IsInt64(0 - Value(digits)) then Some(0 - Value(digits)) else None
  {
    var t := ['-'] + rest;
    BlanksAreSkipped(blanks, t);
    MinusIsRead(t, rest);
    NegativeIs(digits);
  }

  lemma MinusIsRead(t: string, rest: string)
    requires t == ['-'] + rest
    ensures SkipSpace(t) == Some(t) && ScanInt(t) == Signed(true, LeadingDigits(rest))
  {
    assert t[0] == '-' && t[1..] == rest;
  }

  lemma NegativeIs(digits: string)
    requires AllDigits(digits)
    ensures Signed(true, digits) == if IsInt64(0 - Value(digits)) then Some(0 - Value(digits)) else None
  {
  }

  /** It fails on a line break before the number. */
  lemma ScanFailsOnLineBreak(blanks: string, tail: string)
    requires Blank(blanks)
    ensures ScanInt(blanks + (['\n'] + tail)) == None
  {
    BlanksAreSkipped(blanks, ['\n'] + tail);
  }

  /** A printed number holds no separator. */
  lemma PrintHasNoColon(n: int)
    ensures ':' !in Print(n)
  {
  }
}

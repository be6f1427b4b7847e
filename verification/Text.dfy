/** The parts of Go's strings, strconv and fmt packages that the operator's code calls.
    Strings are sequences of Unicode characters; UTF-8 keeps their order, so `Less` is
    also the byte order that sort.Strings uses. */
module Text {

  datatype Option<+T> = None | Some(value: T)

  ghost predicate NoDuplicates<T>(s: seq<T>) {
    forall i, j | 0 <= i < j < |s| :: s[i] != s[j]
  }

  // ---------------------------------------------------------------- white space

  /** unicode.IsSpace */
  predicate IsSpace(c: char) {
    || '\t' <= c <= '\r' || c == ' ' || c == '\U{85}' || c == '\U{A0}' || c == '\U{1680}'
    || '\U{2000}' <= c <= '\U{200A}' || c == '\U{2028}' || c == '\U{2029}'
    || c == '\U{202F}' || c == '\U{205F}' || c == '\U{3000}'
  }

  function TrimLeft(s: string): string {
    if |s| > 0 && IsSpace(s[0]) then TrimLeft(s[1..]) else s
  }

  function TrimRight(s: string): string {
    if |s| > 0 && IsSpace(s[|s| - 1]) then TrimRight(s[..|s| - 1]) else s
  }

  function TrimSpace(s: string): string {
    TrimRight(TrimLeft(s))
  }

  predicate Trimmed(s: string) {
    |s| > 0 ==> !IsSpace(s[0]) && !IsSpace(s[|s| - 1])
  }

  lemma {:induction false} TrimLeftTrims(s: string)
    ensures var t := TrimLeft(s); |t| > 0 ==> !IsSpace(t[0])
  {
    if |s| > 0 && IsSpace(s[0]) { TrimLeftTrims(s[1..]); }
  }

  lemma {:induction false} TrimRightTrims(s: string)
    ensures var t := TrimRight(s); t <= s && (|t| > 0 ==> !IsSpace(t[|t| - 1]))
  {
    if |s| > 0 && IsSpace(s[|s| - 1]) { TrimRightTrims(s[..|s| - 1]); }
  }

  lemma TrimSpaceTrims(s: string)
    ensures Trimmed(TrimSpace(s))
    ensures Trimmed(s) ==> TrimSpace(s) == s
  {
    TrimLeftTrims(s);
    TrimRightTrims(TrimLeft(s));
  }

  // ---------------------------------------------------------------- split and join

  /** The first position of c in s, or |s|. */
  function IndexOf(s: string, c: char): (i: nat)
    ensures i <= |s| && c !in s[..i] && (i < |s| ==> s[i] == c)
  {
    if |s| == 0 || s[0] == c then 0 else 1 + IndexOf(s[1..], c)
  }

  lemma {:induction false} IndexOfUnique(s: string, c: char, i: nat)
    requires i <= |s| && c !in s[..i] && (i < |s| ==> s[i] == c)
    ensures IndexOf(s, c) == i
  {
    if i > 0 {
      assert s[0] in s[..i] && s[..i] == [s[0]] + s[1..][..i - 1];
      IndexOfUnique(s[1..], c, i - 1);
    }
  }

  /** strings.Split and strings.SplitSeq for a one-character separator. */
  function Split(s: string, sep: char): (parts: seq<string>)
    ensures |parts| > 0
    ensures forall p | p in parts :: sep !in p
    decreases |s|
  {
    var i := IndexOf(s, sep);
    if i == |s| then assert s == s[..i]; [s] else [s[..i]] + Split(s[i + 1..], sep)
  }

  /** strings.SplitN(s, sep, 2). */
  function Cut(s: string, sep: char): (parts: seq<string>)
    ensures |parts| == 1 || |parts| == 2
  {
    var i := IndexOf(s, sep);
    if i == |s| then [s] else [s[..i], s[i + 1..]]
  }

  function Join(parts: seq<string>, sep: char): string {
    if |parts| == 0 then ""
    else if |parts| == 1 then parts[0]
    else parts[0] + [sep] + Join(parts[1..], sep)
  }

  lemma CutConcat(a: string, sep: char, b: string)
    requires sep !in a
    ensures Cut(a + [sep] + b, sep) == [a, b]
  {
    var s := a + [sep] + b;
    assert s[..|a|] == a && s[|a| + 1..] == b;
    IndexOfUnique(s, sep, |a|);
  }

  lemma {:induction false} SplitJoin(parts: seq<string>, sep: char)
    requires |parts| > 0 && forall p | p in parts :: sep !in p
    ensures Split(Join(parts, sep), sep) == parts
  {
    var s := Join(parts, sep);
    if |parts| == 1 {
      assert s[..|s|] == s == parts[0];
      IndexOfUnique(s, sep, |s|);
    } else {
      var rest := Join(parts[1..], sep);
      assert s[..|parts[0]|] == parts[0] && s[|parts[0]| + 1..] == rest;
      IndexOfUnique(s, sep, |parts[0]|);
      SplitJoin(parts[1..], sep);
    }
  }

  // ---------------------------------------------------------------- order

  predicate Less(a: string, b: string) {
    |b| > 0 && (|a| == 0 || a[0] < b[0] || (a[0] == b[0] && Less(a[1..], b[1..])))
  }

  lemma {:induction false} LessTotal(a: string, b: string)
    ensures Less(a, b) || a == b || Less(b, a)
    ensures Less(a, b) ==> a != b && !Less(b, a)
  {
    if |a| > 0 && |b| > 0 {
      LessTotal(a[1..], b[1..]);
      assert a == [a[0]] + a[1..] && b == [b[0]] + b[1..];
    }
  }

  lemma {:induction false} LessTransitive(a: string, b: string, c: string)
    requires Less(a, b) && Less(b, c)
    ensures Less(a, c)
  {
    if |a| > 0 && a[0] == b[0] && b[0] == c[0] { LessTransitive(a[1..], b[1..], c[1..]); }
  }

  /** The order is the lexicographic one: a proper prefix comes first, and otherwise the first
      character that differs decides. */
  lemma {:induction false} LessIsLexicographic(a: string, b: string)
    ensures Less(a, b) <==> (a <= b && a != b) || exists k :: DiffersAt(a, b, k) && a[k] < b[k]
  {
    if |a| > 0 && |b| > 0 && a[0] == b[0] {
      LessIsLexicographic(a[1..], b[1..]);
      assert a == [a[0]] + a[1..] && b == [b[0]] + b[1..];
      if k :| DiffersAt(a[1..], b[1..], k) && a[1..][k] < b[1..][k] {
        assert DiffersAt(a, b, k + 1);
      }
      if k :| DiffersAt(a, b, k) && a[k] < b[k] {
        assert k > 0;
        assert a[1..][..k - 1] == a[..k][1..] && b[1..][..k - 1] == b[..k][1..];
        assert DiffersAt(a[1..], b[1..], k - 1);
      }
    } else if |a| > 0 && |b| > 0 {
      assert DiffersAt(a, b, 0);
      assert forall k | DiffersAt(a, b, k) :: k > 0 ==> a[..k][0] == b[..k][0];
    }
  }

  ghost predicate DiffersAt(a: string, b: string, k: int) {
    0 <= k < |a| && k < |b| && a[..k] == b[..k] && a[k] != b[k]
  }

  // ---------------------------------------------------------------- decimal numbers

  predicate IsDigit(c: char) { '0' <= c <= '9' }

  predicate Digital(s: string) { forall i | 0 <= i < |s| :: IsDigit(s[i]) }

  function DigitOf(c: char): nat
    requires IsDigit(c)
  {
    c as int - '0' as int
  }

  function DigitChar(d: nat): char
    requires d < 10
  {
    ('0' as int + d) as char
  }

  function Digits(n: nat): string {
    if n < 10 then [DigitChar(n)] else Digits(n / 10) + [DigitChar(n % 10)]
  }

  function Value(s: string): nat
    requires Digital(s)
  {
    if |s| == 0 then 0 else 10 * Value(s[..|s| - 1]) + DigitOf(s[|s| - 1])
  }

  lemma {:induction false} ValueDigits(n: nat)
    ensures |Digits(n)| > 0 && Digital(Digits(n)) && Value(Digits(n)) == n
  {
    var s := Digits(n);
    if n >= 10 {
      ValueDigits(n / 10);
      assert s[..|s| - 1] == Digits(n / 10);
    } else {
      assert s[..|s| - 1] == "";
    }
  }

  /** No leading zero. */
  lemma {:induction false} DigitsCanonical(n: nat)
    ensures |Digits(n)| > 0 && (|Digits(n)| > 1 ==> Digits(n)[0] != '0')
    ensures n > 0 ==> Digits(n)[0] != '0'
  {
    if n >= 10 { DigitsCanonical(n / 10); }
  }

  /** strconv.Itoa and the %d verb. */
  function Itoa(n: int): string {
    if n < 0 then "-" + Digits(-n) else Digits(n)
  }

  predicate FitsInt64(n: int) { -0x8000_0000_0000_0000 <= n < 0x8000_0000_0000_0000 }

  /** strconv.Atoi on a 64-bit platform: an optional sign, then at least one digit, then
      the range check. */
  function Atoi(s: string): Option<int> {
    var signed := |s| > 0 && (s[0] == '-' || s[0] == '+');
    var body := if signed then s[1..] else s;
    if |body| == 0 || !Digital(body) then None
    else
      var n: int := if signed && s[0] == '-' then 0 - Value(body) else Value(body);
      if FitsInt64(n) then Some(n) else None
  }

  lemma AtoiItoa(n: int)
    ensures Atoi(Itoa(n)) == if FitsInt64(n) then Some(n) else None
  {
    ValueDigits(if n < 0 then -n else n);
    var s := Itoa(n);
    if n < 0 { assert s[1..] == Digits(-n); } else { assert IsDigit(s[0]); }
  }

  /** A sign, if any, is '-' or '+', and is not part of the digits. */
  lemma AtoiSigned(digits: string)
    requires |digits| > 0 && Digital(digits)
    ensures var n: int := Value(digits);
      && Atoi(digits) == (if FitsInt64(n) then Some(n) else None)
      && Atoi("+" + digits) == (if FitsInt64(n) then Some(n) else None)
      && Atoi("-" + digits) == (if FitsInt64(-n) then Some(-n) else None)
  {
    AtoiUnsigned(digits);
    AtoiPrefixed('+', digits, "+" + digits);
    AtoiPrefixed('-', digits, "-" + digits);
    hide Atoi, Value, Digital;
  }

  lemma AtoiUnsigned(digits: string)
    requires |digits| > 0 && Digital(digits)
    ensures Atoi(digits) == if FitsInt64(Value(digits)) then Some(Value(digits)) else None
  {
    hide Value, FitsInt64;
    assert IsDigit(digits[0]);
  }

  lemma AtoiPrefixed(sign: char, digits: string, s: string)
    requires |digits| > 0 && Digital(digits) && s == [sign] + digits && (sign == '+' || sign == '-')
    ensures var n: int := if sign == '-' then 0 - Value(digits) else Value(digits);
            Atoi(s) == if FitsInt64(n) then Some(n) else None
  {
    hide Value, FitsInt64, Digital;
    assert s[1..] == digits;
  }

  /** Nothing else is an integer. */
  lemma AtoiAccepts(s: string)
    requires Atoi(s).Some?
    ensures exists digits :: |digits| > 0 && Digital(digits) && (s == digits || s == "+" + digits || s == "-" + digits)
  {
    var signed := s[0] == '-' || s[0] == '+';
    var digits := if signed then s[1..] else s;
    assert signed ==> s == [s[0]] + digits;
    assert |digits| > 0 && Digital(digits) && (s == digits || s == "+" + digits || s == "-" + digits);
  }

  /** The %02d verb on a natural number. */
  function Pad2(n: nat): string {
    if n < 10 then "0" + Digits(n) else Digits(n)
  }

  /** At least two digits, and a zero only where one is missing. */
  lemma Pad2Width(n: nat)
    ensures |Pad2(n)| >= 2 && (|Pad2(n)| > 2 ==> Pad2(n)[0] != '0')
  {
    DigitsCanonical(n);
    if n >= 10 { ValueDigits(n / 10); }
  }

  lemma ValuePad2(n: nat)
    ensures Digital(Pad2(n)) && Value(Pad2(n)) == n
  {
    ValueDigits(n);
    if n < 10 {
      var s := Pad2(n);
      assert s[..1] == "0" && s[..1][..0] == "";
      assert Value("0") == 0;
    }
  }
}

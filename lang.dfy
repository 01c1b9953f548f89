/** The small part of java.lang and of the string utilities (commons-lang3
    StringUtils.isEmpty, Spring StringUtils.hasText, Boolean.parseBoolean,
    Long.parseLong, String.trim, String.format's %s) that the engine relies on.
    Java's nullable references are modelled as Option: None stands for null. */
module Lang {

  datatype Option<+T> = None | Some(value: T)

  /** A thrown Java exception: its class name and its (nullable) message. */
  datatype Exception = Exception(className: string, message: Option<string>)

  datatype Result<+T> = Ok(value: T) | Err(ex: Exception)

  const MinLong: int := -0x8000_0000_0000_0000
  const MaxLong: int := 0x7FFF_FFFF_FFFF_FFFF

  /** Java's 64-bit `long`. */
  type Long = x: int | MinLong <= x <= MaxLong

  /** StringUtils.isEmpty (commons-lang3): null or of length zero. */
  predicate IsEmpty(s: Option<string>) {
    s.None? || |s.value| == 0
  }

  /** Character.isWhitespace for one UTF-16 unit: the space, line and
      paragraph separators except the three non-breaking spaces, plus the
      ASCII controls tab, line feed, vertical tab, form feed, carriage
      return and the four separators U+001C..U+001F. */
  predicate IsWhitespace(c: char) {
    var n := c as int;
    || 0x09 <= n <= 0x0D
    || 0x1C <= n <= 0x20
    || n == 0x1680
    || 0x2000 <= n <= 0x2006
    || 0x2008 <= n <= 0x200A
    || n == 0x2028 || n == 0x2029 || n == 0x205F || n == 0x3000
  }

  /** Spring's StringUtils.hasText: not null and holding a non-whitespace character. */
  function HasText(s: Option<string>): (b: bool)
    ensures b ==> !IsEmpty(s)
    ensures !b && s.Some? ==> forall i :: 0 <= i < |s.value| ==> IsWhitespace(s.value[i])
  {
    s.Some? && exists i :: 0 <= i < |s.value| && !IsWhitespace(s.value[i])
  }

  /** String.trim: drops every leading and trailing character at or below U+0020. */
  function TrimLeading(s: string): (r: string)
    ensures |r| <= |s|
    ensures r == s[|s| - |r|..]
    ensures r == [] || r[0] > ' '
    ensures forall i :: 0 <= i < |s| - |r| ==> s[i] <= ' '
  {
    if s != [] && s[0] <= ' ' then TrimLeading(s[1..]) else s
  }

  function TrimTrailing(s: string): (r: string)
    ensures |r| <= |s|
    ensures r == s[..|r|]
    ensures r == [] || r[|r| - 1] > ' '
    ensures forall i :: |r| <= i < |s| ==> s[i] <= ' '
  {
    if s != [] && s[|s| - 1] <= ' ' then TrimTrailing(s[..|s| - 1]) else s
  }

  function Trim(s: string): string {
    TrimTrailing(TrimLeading(s))
  }

  predicate StartsWith(s: string, prefix: string) {
    |prefix| <= |s| && s[..|prefix|] == prefix
  }

  /** `t` occurs in `s` starting at index `k`. */
  predicate OccursAt(s: string, t: string, k: nat) {
    k + |t| <= |s| && s[k..k + |t|] == t
  }

  /** String.contains. */
  predicate Contains(s: string, t: string) {
    exists k: nat | k <= |s| :: OccursAt(s, t, k)
  }

  lemma {:induction false} OccursInConcat(a: string, t: string, b: string)
    ensures OccursAt(a + t + b, t, |a|)
  {
    assert (a + t + b)[|a|..|a| + |t|] == t;
  }

  /** What String.format's %s and string concatenation print for a nullable string. */
  function Show(s: Option<string>): string {
    match s
    case None => "null"
    case Some(v) => v
  }

  function LowerAscii(c: char): char {
    if 'A' <= c <= 'Z' then (c as int + 32) as char else c
  }

  /** Boolean.parseBoolean: true exactly for a non-null "true" in any letter case. */
  function ParseBoolean(s: Option<string>): (b: bool)
    ensures b <==> s.Some? && LowerAsciiString(s.value) == "true"
  {
    && s.Some?
    && |s.value| == 4
    && LowerAscii(s.value[0]) == 't'
    && LowerAscii(s.value[1]) == 'r'
    && LowerAscii(s.value[2]) == 'u'
    && LowerAscii(s.value[3]) == 'e'
  }

  /** Each character with LowerAscii applied. */
  function LowerAsciiString(s: string): (r: string)
    ensures |r| == |s|
    ensures forall i :: 0 <= i < |s| ==> r[i] == LowerAscii(s[i])
  {
    if s == [] then [] else [LowerAscii(s[0])] + LowerAsciiString(s[1..])
  }

  predicate IsDigit(c: char) {
    '0' <= c <= '9'
  }

  function DigitChar(d: nat): (c: char)
    requires d < 10
    ensures IsDigit(c)
  {
    ('0' as int + d) as char
  }

  function DigitValue(c: char): (d: nat)
    requires IsDigit(c)
    ensures d < 10
  {
    c as int - '0' as int
  }

  /** The value of a run of decimal digits, most significant first. */
  function DigitsValue(s: string): nat
    requires forall i :: 0 <= i < |s| ==> IsDigit(s[i])
  {
    if s == [] then 0 else DigitsValue(s[..|s| - 1]) * 10 + DigitValue(s[|s| - 1])
  }

  /** Integer.toString of a non-negative number. */
  function DecimalString(n: nat): (r: string)
    ensures r != []
    ensures forall i :: 0 <= i < |r| ==> IsDigit(r[i])
  {
    if n < 10 then [DigitChar(n)] else DecimalString(n / 10) + [DigitChar(n % 10)]
  }

  lemma {:induction false} DecimalStringValue(n: nat)
    ensures DigitsValue(DecimalString(n)) == n
  {
    var r := DecimalString(n);
    if n >= 10 {
      DecimalStringValue(n / 10);
      assert r[..|r| - 1] == DecimalString(n / 10);
    }
  }

  function NumberFormatError(s: string): Exception {
    Exception("java.lang.NumberFormatException", Some("For input string: \"" + s + "\""))
  }

  predicate AllDigits(s: string) {
    forall i :: 0 <= i < |s| ==> IsDigit(s[i])
  }

  /** What follows the optional leading sign. */
  function SignedDigits(s: string): string
    requires s != []
  {
    if s[0] == '-' || s[0] == '+' then s[1..] else s
  }

  /** Long.parseLong of a non-null string: an optional sign followed by
      decimal digits, whose value must fit in 64 bits. */
  function ParseLong(s: string): (r: Result<Long>)
    ensures r.Err? ==> r.ex == NumberFormatError(s)
    ensures r.Ok? ==> s != [] && (r.value < 0 ==> s[0] == '-')
  {
    if s == [] then Err(NumberFormatError(s))
    else
      var digits := SignedDigits(s);
      if digits == [] || !AllDigits(digits) then
        Err(NumberFormatError(s))
      else
        var magnitude: int := DigitsValue(digits);
        var v := if s[0] == '-' then -magnitude else magnitude;
        if MinLong <= v <= MaxLong then Ok(v) else Err(NumberFormatError(s))
  }

  /** Printing a non-negative long and parsing it back gives the same value. */
  lemma ParseLongOfDecimal(n: nat)
    requires n <= MaxLong
    ensures ParseLong(DecimalString(n)) == Ok(n)
  {
    DecimalStringValue(n);
  }

  /** A leading sign is read: a minus negates, down to the smallest long,
      and a plus changes nothing. */
  lemma ParseLongOfSignedDecimal(n: nat)
    ensures n <= MaxLong + 1 ==> ParseLong("-" + DecimalString(n)) == Ok(-(n as int))
    ensures n <= MaxLong ==> ParseLong("+" + DecimalString(n)) == Ok(n)
  {
    DecimalStringValue(n);
    assert ("-" + DecimalString(n))[1..] == DecimalString(n);
    assert ("+" + DecimalString(n))[1..] == DecimalString(n);
  }

  /** A number that does not fit in 64 bits is a NumberFormatException. */
  lemma ParseLongRejectsOverflow(n: nat)
    ensures n > MaxLong ==> ParseLong(DecimalString(n)) == Err(NumberFormatError(DecimalString(n)))
    ensures n > MaxLong + 1 ==> ParseLong("-" + DecimalString(n)) == Err(NumberFormatError("-" + DecimalString(n)))
  {
    DecimalStringValue(n);
    assert ("-" + DecimalString(n))[1..] == DecimalString(n);
  }

  /** A string with no digits, or with a character other than a digit
      anywhere but a leading sign, is a NumberFormatException. */
  lemma ParseLongRejectsNonDigit(s: string, i: nat)
    requires i < |s| && !IsDigit(s[i]) && !(i == 0 && (s[0] == '-' || s[0] == '+'))
    ensures ParseLong(s) == Err(NumberFormatError(s))
  {
    var digits := SignedDigits(s);
    var k := if s[0] == '-' || s[0] == '+' then i - 1 else i;
    assert digits[k] == s[i];
  }

  lemma ParseLongRejectsNoDigits(s: string)
    requires s == "" || s == "-" || s == "+"
    ensures ParseLong(s) == Err(NumberFormatError(s))
  {
  }

  /** The lower-case hexadecimal digits of `n`, exactly `width` of them
      (most significant first, zero padded, higher digits cut off). */
  function HexDigits(n: nat, width: nat): (r: string)
    ensures |r| == width
    ensures forall i :: 0 <= i < |r| ==> r[i] in "0123456789abcdef"
  {
    if width == 0 then [] else HexDigits(n / 16, width - 1) + ["0123456789abcdef"[n % 16]]
  }

  /** Concatenation regroups freely; stated once, generically, so that the
      element type's own axioms stay out of the way. */
  lemma AppendAssociative<T>(a: seq<T>, b: seq<T>, c: seq<T>)
    ensures (a + b) + c == a + (b + c)
  {
  }
}

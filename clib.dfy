/**
 * The parts of the C library the radio component relies on for text handling:
 * isspace, atoi, the integer conversions of sscanf ("%d", "%hhu", "%x") and
 * printf's decimal "%u"/"%d" for non-negative values.
 */
module CLib {
  import opened Base

  /** isspace in the "C" locale: space, and tab, newline, vertical tab, form feed, carriage return. */
  predicate IsSpace(c: char) {
    c == ' ' || '\t' <= c <= '\r'
  }

  predicate IsDigit(c: char) { '0' <= c <= '9' }

  predicate IsHexDigit(c: char) { IsDigit(c) || 'a' <= c <= 'f' || 'A' <= c <= 'F' }

  predicate AllDigits(s: string) { forall k :: 0 <= k < |s| ==> IsDigit(s[k]) }

  predicate AllHexDigits(s: string) { forall k :: 0 <= k < |s| ==> IsHexDigit(s[k]) }

  function DigitValue(c: char): (r: nat)
    requires IsDigit(c)
    ensures r < 10
  {
    c as int - '0' as int
  }

  function HexDigitValue(c: char): (r: nat)
    requires IsHexDigit(c)
    ensures r < 16
  {
    if IsDigit(c) then DigitValue(c)
    else if 'a' <= c <= 'f' then c as int - 'a' as int + 10
    else c as int - 'A' as int + 10
  }

  function DigitChar(d: nat): (c: char)
    requires d < 10
    ensures IsDigit(c) && DigitValue(c) == d
  {
    ('0' as int + d) as char
  }

  /** Length of the run of white space that starts the input. */
  function SpaceRun(s: string): (n: nat)
    ensures n <= |s|
    ensures forall k :: 0 <= k < n ==> IsSpace(s[k])
    ensures n == |s| || !IsSpace(s[n])
  {
    if s != [] && IsSpace(s[0]) then 1 + SpaceRun(s[1..]) else 0
  }

  /** What is left of the input once the leading white space is skipped. */
  function SkipSpace(s: string): (r: string)
    ensures r == [] || !IsSpace(r[0])
  {
    s[SpaceRun(s)..]
  }

  /** Length of the run of decimal digits that starts the input. */
  function DigitRun(s: string): (n: nat)
    ensures n <= |s| && AllDigits(s[..n])
    ensures n == |s| || !IsDigit(s[n])
  {
    if s != [] && IsDigit(s[0]) then
      var n := 1 + DigitRun(s[1..]);
      assert s[..n] == [s[0]] + s[1..][..n - 1];
      n
    else 0
  }

  /** Length of the run of hexadecimal digits that starts the input. */
  function HexRun(s: string): (n: nat)
    ensures n <= |s| && AllHexDigits(s[..n])
    ensures n == |s| || !IsHexDigit(s[n])
  {
    if s != [] && IsHexDigit(s[0]) then
      var n := 1 + HexRun(s[1..]);
      assert s[..n] == [s[0]] + s[1..][..n - 1];
      n
    else 0
  }

  /** The number a string of decimal digits denotes. */
  function DecimalValue(ds: string): nat
    requires AllDigits(ds)
  {
    if ds == [] then 0 else 10 * DecimalValue(ds[..|ds| - 1]) + DigitValue(ds[|ds| - 1])
  }

  /** The number a string of hexadecimal digits denotes. */
  function HexValue(ds: string): nat
    requires AllHexDigits(ds)
  {
    if ds == [] then 0 else 16 * HexValue(ds[..|ds| - 1]) + HexDigitValue(ds[|ds| - 1])
  }

  /**
   * A signed decimal integer at the very start of the input: an optional sign
   * and at least one digit. Returns the value and the rest of the input.
   * C leaves out-of-range values undefined; here integers are unbounded.
   */
  function ScanSigned(t: string): (r: Option<(int, string)>)
    ensures r.Some? ==> |r.value.1| < |t|
  {
    var u := if t != [] && (t[0] == '-' || t[0] == '+') then t[1..] else t;
    var n := DigitRun(u);
    if n == 0 then None
    else
      var v: int := DecimalValue(u[..n]);
      Some((if t != [] && t[0] == '-' then -v else v, u[n..]))
  }

  /** A run of at least one hexadecimal digit at the start of the input. */
  function ScanHex(t: string): (r: Option<(int, string)>)
    ensures r.Some? ==> |r.value.1| < |t|
  {
    var n := HexRun(t);
    if n == 0 then None else Some((HexValue(t[..n]), t[n..]))
  }

  /** atoi: white space, an optional sign, digits; 0 when no digit follows. */
  function Atoi(s: string): int
  {
    match ScanSigned(SkipSpace(s))
    case None => 0
    case Some(p) => p.0
  }

  /** printf's "%u" (or "%d") for a non-negative value: the shortest decimal numeral. */
  function DecimalText(n: nat): (r: string)
    ensures |r| >= 1 && AllDigits(r)
    ensures DecimalValue(r) == n
  {
    if n < 10 then [DigitChar(n)]
    else
      var prefix := DecimalText(n / 10);
      var r := prefix + [DigitChar(n % 10)];
      assert r[..|r| - 1] == prefix;
      r
  }

  /** printf's "%u" applied to a C int: the value printed is the int read as uint32_t. */
  function UnsignedText(x: int): string
  {
    DecimalText(ToUint32(x))
  }

  /** One directive of a scanf format string. */
  datatype Directive =
    | Literal(c: char)   // an ordinary character: must match the next input character
    | Whitespace         // a white-space character: skips any amount of input white space
    | Decimal            // "%d": skips white space, reads a signed decimal int
    | UnsignedChar       // "%hhu": skips white space, reads a decimal stored to an unsigned char
    | Hexadecimal        // "%x": skips white space, reads a hexadecimal unsigned int

  /** The directives matching a literal text character by character. */
  function Literals(text: string): (r: seq<Directive>)
    ensures |r| == |text| && forall k :: 0 <= k < |text| ==> r[k] == Literal(text[k])
  {
    seq(|text|, k requires 0 <= k < |text| => Literal(text[k]))
  }

  /**
   * One directive applied to the input: None when it fails, otherwise the
   * value it stores (if it is a conversion) and the input it leaves.
   */
  function ScanDirective(d: Directive, s: string): Option<(Option<int>, string)>
  {
    match d
    case Literal(c) =>
      if s != [] && s[0] == c then Some((None, s[1..])) else None
    case Whitespace =>
      Some((None, SkipSpace(s)))
    case Decimal =>
      (match ScanSigned(SkipSpace(s))
       case None => None
       case Some(p) => Some((Some(p.0), p.1)))
    case UnsignedChar =>
      (match ScanSigned(SkipSpace(s))
       case None => None
       case Some(p) => Some((Some(ToByte(p.0) as int), p.1)))
    case Hexadecimal =>
      (match ScanHex(SkipSpace(s))
       case None => None
       case Some(p) => Some((Some(p.0), p.1)))
  }

  /**
   * The values sscanf stores when it runs the directives over the input, in
   * order; scanning stops at the first directive that fails. Its return value
   * (the number of conversions) is the length of this sequence.
   */
  function Scan(fmt: seq<Directive>, s: string): (vals: seq<int>)
    ensures |vals| <= |fmt|
  {
    if fmt == [] then []
    else match ScanDirective(fmt[0], s)
      case None => []
      case Some(step) =>
        (if step.0.Some? then [step.0.value] else []) + Scan(fmt[1..], step.1)
  }

  /** One literal directive consumes one matching input character. */
  lemma ScanLiteralStep(fmt: seq<Directive>, input: string)
    requires fmt != [] && input != [] && fmt[0] == Literal(input[0])
    ensures Scan(fmt, input) == Scan(fmt[1..], input[1..])
  {
  }

  /** A format that opens with literal text: the literal matches exactly that text. */
  lemma {:induction false} ScanLiterals(text: string, rest: seq<Directive>, s: string)
    ensures Scan(Literals(text) + rest, text + s) == Scan(rest, s)
  {
    if text != [] {
      var fmt, input := Literals(text) + rest, text + s;
      assert fmt[0] == Literal(input[0]);
      assert fmt[1..] == Literals(text[1..]) + rest;
      assert input[1..] == text[1..] + s;
      ScanLiteralStep(fmt, input);
      ScanLiterals(text[1..], rest, s);
    } else {
      assert Literals(text) + rest == rest;
      assert text + s == s;
    }
  }

  /** Input that does not start with white space is left as it is. */
  lemma SkipSpaceNone(s: string)
    requires s == [] || !IsSpace(s[0])
    ensures SkipSpace(s) == s
  {
  }

  /** One white-space character in front changes nothing. */
  lemma SkipSpaceCons(c: char, s: string)
    requires IsSpace(c)
    ensures SkipSpace([c] + s) == SkipSpace(s)
  {
    assert ([c] + s)[1..] == s;
  }

  /** A digit run stops where the digits stop. */
  lemma {:induction false} DigitRunAppend(d: string, rest: string)
    requires AllDigits(d)
    requires rest == [] || !IsDigit(rest[0])
    ensures DigitRun(d + rest) == |d|
  {
    if d != [] {
      assert (d + rest)[1..] == d[1..] + rest;
      DigitRunAppend(d[1..], rest);
    } else {
      assert d + rest == rest;
    }
  }

  /** Reading back a printed non-negative number: the value, and the rest of the input. */
  lemma ScanSignedDecimal(n: nat, rest: string)
    requires rest == [] || !IsDigit(rest[0])
    ensures ScanSigned(DecimalText(n) + rest) == Some((n, rest))
  {
    var d := DecimalText(n);
    var t := d + rest;
    assert t[0] == d[0];
    DigitRunAppend(d, rest);
    assert t[..|d|] == d;
    assert t[|d|..] == rest;
  }

  /** A conversion of a printed number stores that number. */
  lemma ScanDecimalStep(d: Directive, n: nat, rest: string)
    requires d == Decimal || d == UnsignedChar
    requires rest == [] || !IsDigit(rest[0])
    ensures ScanDirective(d, DecimalText(n) + rest)
      == Some((Some(if d == Decimal then n else ToByte(n) as int), rest))
  {
    var t := DecimalText(n) + rest;
    assert t[0] == DecimalText(n)[0];
    SkipSpaceNone(t);
    ScanSignedDecimal(n, rest);
  }

  /** Scan with a leading conversion that reads a printed number. */
  lemma ScanNumberStep(fmt: seq<Directive>, n: nat, rest: string)
    requires fmt != [] && (fmt[0] == Decimal || fmt[0] == UnsignedChar)
    requires rest == [] || !IsDigit(rest[0])
    ensures Scan(fmt, DecimalText(n) + rest)
      == [if fmt[0] == Decimal then n else ToByte(n) as int] + Scan(fmt[1..], rest)
  {
    ScanDecimalStep(fmt[0], n, rest);
  }

  /** Scan with a leading white-space directive. */
  lemma ScanWhitespaceStep(fmt: seq<Directive>, s: string)
    requires fmt != [] && fmt[0] == Whitespace
    ensures Scan(fmt, s) == Scan(fmt[1..], SkipSpace(s))
  {
    assert [] + Scan(fmt[1..], SkipSpace(s)) == Scan(fmt[1..], SkipSpace(s));
  }

  /** A whitespace directive skips one blank in front of text that does not start with one. */
  lemma SkipOneBlank(fmt: seq<Directive>, s: string)
    requires fmt != [] && fmt[0] == Whitespace
    requires s == [] || !IsSpace(s[0])
    ensures Scan(fmt, " " + s) == Scan(fmt[1..], s)
  {
    ScanWhitespaceStep(fmt, " " + s);
    SkipSpaceCons(' ', s);
    SkipSpaceNone(s);
  }
}

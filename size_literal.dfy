/** Size literals of partition tables and board preferences: `parseInt`
    and `getIntPref` of ESP32FS, on top of java.lang.Long.decode. */
module SizeLiteral {

  import opened Wrappers
  import opened JavaText

  const MaxLong: int := 0x7FFF_FFFF_FFFF_FFFF
  const MinLong: int := -0x8000_0000_0000_0000

  /** Character.digit(c, 36) on ASCII: 0-9, then a-z / A-Z as 10..35 */
  function DigitValue(c: char): Option<nat> {
    if '0' <= c <= '9' then Some(c as int - '0' as int)
    else if 'a' <= c <= 'z' then Some(c as int - 'a' as int + 10)
    else if 'A' <= c <= 'Z' then Some(c as int - 'A' as int + 10)
    else None
  }

  /** The value of a digit string in the given radix, most significant digit
      first, or None when some character is not a digit of that radix. */
  function DigitsValue(s: string, radix: nat): Option<nat>
    requires 2 <= radix <= 36
    decreases |s|
  {
    if s == [] then Some(0)
    else
      match DigitsValue(s[..|s| - 1], radix)
      case None => None
      case Some(v) =>
        match DigitValue(s[|s| - 1])
        case None => None
        case Some(d) => if d < radix then Some(v * radix + d) else None
  }

  /** How Long.decode reads the text after an optional sign: a radix and the
      digits that follow its prefix. */
  datatype Literal = Literal(radix: nat, digits: string)

  function RadixOf(rest: string): (l: Literal)
    ensures l.radix in {8, 10, 16}
  {
    if StartsWith(rest, "0x") || StartsWith(rest, "0X") then Literal(16, rest[2..])
    else if StartsWith(rest, "#") then Literal(16, rest[1..])
    else if StartsWith(rest, "0") && |rest| > 1 then Literal(8, rest[1..])
    else Literal(10, rest)
  }

  /** `Long.decode(nm)`: an optional sign, then `0x`, `0X` or `#` for hex, a
      leading `0` (with more after it) for octal, otherwise decimal; None
      where it throws NumberFormatException (empty text, a sign after the
      prefix, a bad digit, a value outside the range of long). */
  function DecodeLong(nm: string): (r: Option<int>)
    ensures r.Some? ==> MinLong <= r.value <= MaxLong
  {
    if nm == [] then None
    else if nm[0] == '-' then
      match Magnitude(nm[1..])
      case None => None
      case Some(v) => if v <= -MinLong then Some(0 - v) else None
    else
      match Magnitude(if nm[0] == '+' then nm[1..] else nm)
      case None => None
      case Some(v) => if v <= MaxLong then Some(v) else None
  }

  /** The unsigned part of a Long.decode literal: radix prefix and digits,
      with no second sign after the prefix */
  function Magnitude(rest: string): Option<nat> {
    var lit := RadixOf(rest);
    if lit.digits == [] || StartsWith(lit.digits, "-") || StartsWith(lit.digits, "+") then None
    else DigitsValue(lit.digits, lit.radix)
  }

  /** `parseInt(value)`: a trailing m/M multiplies by 1024*1024, a trailing
      k/K by 1024, otherwise the whole text is decoded. The multiplication is
      on unbounded integers. */
  function ParseSize(value: string): Option<int> {
    if EndsWith(value, "m") || EndsWith(value, "M") then
      match DecodeLong(value[..|value| - 1])
      case None => None
      case Some(v) => Some(1024 * 1024 * v)
    else if EndsWith(value, "k") || EndsWith(value, "K") then
      match DecodeLong(value[..|value| - 1])
      case None => None
      case Some(v) => Some(1024 * v)
    else DecodeLong(value)
  }

  /** Text that parseInt reads with a unit suffix */
  predicate Suffixed(value: string) {
    EndsWith(value, "k") || EndsWith(value, "K") || EndsWith(value, "m") || EndsWith(value, "M")
  }

  /** `getIntPref(name)`: 0 for a missing or empty board preference,
      otherwise the parsed literal (None when parseInt throws). */
  function IntPref(board: map<string, string>, name: string): (r: Option<int>)
    ensures r.None? ==> name in board && board[name] != "" && ParseSize(board[name]).None?
  {
    if name !in board || board[name] == "" then Some(0) else ParseSize(board[name])
  }

  // ---------------------------------------------------------------------
  // Writing literals back: the partner of the parser.

  predicate IsLowerHexDigit(c: char) {
    '0' <= c <= '9' || 'a' <= c <= 'f'
  }

  /** The character for digit d (lower-case letters, as Long.toString and %x write them) */
  function DigitChar(d: nat): (c: char)
    requires d < 16
    ensures DigitValue(c) == Some(d) && IsLowerHexDigit(c)
  {
    if d < 10 then ('0' as int + d) as char else ('a' as int + d - 10) as char
  }

  /** The digits of n in the radix, most significant first, no leading zero */
  function Digits(n: nat, radix: nat): (s: string)
    requires 2 <= radix <= 16
    ensures s != []
    ensures n == 0 ==> s == "0"
    ensures n > 0 ==> s[0] != '0'
    ensures forall i :: 0 <= i < |s| ==> IsLowerHexDigit(s[i])
    decreases n
  {
    if n < radix then [DigitChar(n)]
    else
      DivideByRadix(n, radix);
      Digits(n / radix, radix) + [DigitChar(n % radix)]
  }

  lemma {:induction false} DivideByRadix(n: nat, radix: nat)
    requires 2 <= radix <= n
    ensures 0 < n / radix < n && 0 <= n % radix < radix
    ensures n == n / radix * radix + n % radix
  {
  }

  /** `Long.toString(n)`, as `n + ""` writes a long */
  function LongText(n: int): string {
    if n < 0 then "-" + Digits(-n, 10) else Digits(n, 10)
  }

  lemma {:induction false} DigitsRoundTrip(n: nat, radix: nat)
    requires 2 <= radix <= 16
    ensures DigitsValue(Digits(n, radix), radix) == Some(n)
    decreases n
  {
    if n >= radix {
      var s := Digits(n, radix);
      DivideByRadix(n, radix);
      DigitsRoundTrip(n / radix, radix);
      assert s[..|s| - 1] == Digits(n / radix, radix);
    }
  }

  /** Decimal digits without a superfluous leading zero are read in radix 10. */
  lemma {:induction false} DecimalRadix(d: string)
    requires d != [] && d[0] != '#' && (d[0] != '0' || |d| == 1)
    ensures RadixOf(d) == Literal(10, d)
  {
  }

  /** The magnitude of text whose prefix selects a radix and whose digits
      (starting with a digit, not a sign) denote v */
  lemma {:induction false} MagnitudeOf(rest: string, v: nat)
    requires RadixOf(rest).digits != [] && IsLowerHexDigit(RadixOf(rest).digits[0])
    requires DigitsValue(RadixOf(rest).digits, RadixOf(rest).radix) == Some(v)
    ensures Magnitude(rest) == Some(v)
  {
  }

  /** Long.decode of unsigned text whose prefix selects a radix, and whose
      digits denote a value in range */
  lemma {:induction false} DecodeUnsigned(nm: string, v: nat)
    requires nm != [] && nm[0] != '-' && nm[0] != '+'
    requires RadixOf(nm).digits != [] && IsLowerHexDigit(RadixOf(nm).digits[0])
    requires DigitsValue(RadixOf(nm).digits, RadixOf(nm).radix) == Some(v) && v <= MaxLong
    ensures DecodeLong(nm) == Some(v)
  {
    MagnitudeOf(nm, v);
  }

  /** A minus sign in front of a magnitude in range negates it. */
  lemma {:induction false} DecodeNegative(nm: string, v: nat)
    requires nm != [] && nm[0] == '-' && Magnitude(nm[1..]) == Some(v) && v <= -MinLong
    ensures DecodeLong(nm) == Some(0 - v as int)
  {
  }

  // ---------------------------------------------------------------------
  // Text that Long.decode rejects.

  /** Digits ending in a character that is no digit at all have no value. */
  lemma {:induction false} LastNonDigit(d: string, radix: nat)
    requires 2 <= radix <= 36
    requires d != [] && DigitValue(d[|d| - 1]).None?
    ensures DigitsValue(d, radix) == None
  {
  }

  /** The digits RadixOf selects are a suffix of the text after the sign. */
  lemma {:induction false} DigitsAreSuffix(rest: string)
    ensures |RadixOf(rest).digits| <= |rest|
    ensures RadixOf(rest).digits == rest[|rest| - |RadixOf(rest).digits|..]
  {
  }

  /** A magnitude whose last character is no digit is rejected. */
  lemma {:induction false} MagnitudeRejectsNonDigit(rest: string)
    requires rest != [] ==> DigitValue(rest[|rest| - 1]).None?
    ensures Magnitude(rest) == None
  {
    var lit := RadixOf(rest);
    DigitsAreSuffix(rest);
    if lit.digits != [] && !StartsWith(lit.digits, "-") && !StartsWith(lit.digits, "+") {
      assert lit.digits[|lit.digits| - 1] == rest[|rest| - 1];
      LastNonDigit(lit.digits, lit.radix);
    }
  }

  /** Text without a decodable magnitude after its sign is rejected. */
  lemma {:induction false} NoMagnitudeNoLong(nm: string)
    requires nm != []
    requires Magnitude(if nm[0] == '-' || nm[0] == '+' then nm[1..] else nm).None?
    ensures DecodeLong(nm) == None
  {
  }

  /** Text ending in a character that is no digit or letter carries no unit
      suffix, so parseInt decodes it whole. */
  lemma {:induction false} NonDigitUnsuffixed(t: string)
    requires t != [] && DigitValue(t[|t| - 1]).None?
    ensures !Suffixed(t)
    ensures ParseSize(t) == DecodeLong(t)
  {
    assert t[|t| - 1..] == [t[|t| - 1]];
  }

  /** A literal followed by a character that is neither a digit nor a letter
      (a space, a tab, a dot) makes Long.decode and parseInt throw. */
  lemma {:induction false} TrailingNonDigit(num: string, c: char)
    requires DigitValue(c).None?
    ensures DecodeLong(num + [c]) == None
    ensures ParseSize(num + [c]) == None
  {
    var nm := num + [c];
    var rest := if nm[0] == '-' || nm[0] == '+' then nm[1..] else nm;
    assert rest != [] ==> rest[|rest| - 1] == c;
    MagnitudeRejectsNonDigit(rest);
    NoMagnitudeNoLong(nm);
    NonDigitUnsuffixed(nm);
  }

  /** A second sign after the first is rejected ("--5", "+-5", "-+5"). */
  lemma {:induction false} DoubledSign(s1: char, s2: char, digits: string)
    requires s1 == '-' || s1 == '+'
    requires s2 == '-' || s2 == '+'
    ensures DecodeLong([s1, s2] + digits) == None
  {
    var nm := [s1, s2] + digits;
    var rest := nm[1..];
    assert rest[0] == s2;
    assert !StartsWith(rest, "0x") && !StartsWith(rest, "0X") && !StartsWith(rest, "#") && !StartsWith(rest, "0");
    assert StartsWith(RadixOf(rest).digits, [s2]);
  }

  /** A decimal literal beyond the range of long is rejected, though its
      digits are all valid. */
  lemma {:induction false} AboveMaxLong(n: nat)
    requires n > MaxLong
    ensures DecodeLong(Digits(n, 10)) == None
  {
    var d := Digits(n, 10);
    DigitsRoundTrip(n, 10);
    assert IsLowerHexDigit(d[0]);
    DecimalRadix(d);
    MagnitudeOf(d, n);
  }

  /** A negative decimal literal beyond the range of long is rejected. */
  lemma {:induction false} BelowMinLong(n: nat)
    requires n > -MinLong
    ensures DecodeLong("-" + Digits(n, 10)) == None
  {
    var d := Digits(n, 10);
    DigitsRoundTrip(n, 10);
    assert IsLowerHexDigit(d[0]);
    DecimalRadix(d);
    MagnitudeOf(d, n);
    assert ("-" + d)[1..] == d;
  }

  /** Reading back what Long.toString wrote gives the same long. */
  lemma {:induction false} LongTextRoundTrip(n: int)
    requires MinLong <= n <= MaxLong
    ensures DecodeLong(LongText(n)) == Some(n)
  {
    var m: nat := if n < 0 then -n else n;
    var d := Digits(m, 10);
    DigitsRoundTrip(m, 10);
    assert IsLowerHexDigit(d[0]);
    DecimalRadix(d);
    if n < 0 {
      MagnitudeOf(d, m);
      var t := "-" + d;
      assert t[1..] == d;
      DecodeNegative(t, m);
    } else {
      DecodeUnsigned(d, m);
    }
  }

  /** parseInt reads back what Long.toString wrote: the text ends in a
      digit, so no suffix is stripped. */
  lemma {:induction false} LongTextParses(n: int)
    requires MinLong <= n <= MaxLong
    ensures ParseSize(LongText(n)) == Some(n)
  {
    LongTextRoundTrip(n);
    var m: nat := if n < 0 then -n else n;
    var d := Digits(m, 10);
    var t := LongText(n);
    assert t[|t| - 1] == d[|d| - 1];
    DigitEndsUnsuffixed(t);
    UnsuffixedDecodes(t, n);
  }

  /** The three ways a size is written in a partition table */
  datatype Unit = Bytes | KiB | MiB

  function Scale(u: Unit): nat {
    match u
    case Bytes => 1
    case KiB => 1024
    case MiB => 1024 * 1024
  }

  function Suffix(u: Unit): string {
    match u
    case Bytes => ""
    case KiB => "K"
    case MiB => "M"
  }

  /** A size literal: decimal or `0x` hex, followed by the unit's suffix */
  function SizeText(n: nat, u: Unit, hex: bool): string {
    NumberText(n, hex) + Suffix(u)
  }

  /** Text ending in a digit carries no unit suffix. */
  lemma {:induction false} DigitEndsUnsuffixed(t: string)
    requires t != [] && IsLowerHexDigit(t[|t| - 1])
    ensures !Suffixed(t)
  {
    assert t[|t| - 1..] == [t[|t| - 1]];
  }

  /** Text ending in no unit suffix is decoded whole. */
  lemma {:induction false} UnsuffixedDecodes(num: string, v: int)
    requires DecodeLong(num) == Some(v) && !Suffixed(num)
    ensures ParseSize(num) == Some(v)
  {
  }

  /** A trailing k/K multiplies the decoded number by 1024, for products
      that fit in a long. */
  lemma {:induction false} KiloSuffix(num: string, v: int)
    requires DecodeLong(num) == Some(v) && !Suffixed(num)
    requires MinLong <= 1024 * v <= MaxLong
    ensures ParseSize(num + "k") == Some(1024 * v) && ParseSize(num + "K") == Some(1024 * v)
  {
    assert (num + "k")[..|num|] == num && (num + "K")[..|num|] == num;
  }

  /** A trailing m/M multiplies the decoded number by 1024*1024, for
      products that fit in a long. */
  lemma {:induction false} MegaSuffix(num: string, v: int)
    requires DecodeLong(num) == Some(v) && !Suffixed(num)
    requires MinLong <= 1024 * 1024 * v <= MaxLong
    ensures ParseSize(num + "m") == Some(1024 * 1024 * v) && ParseSize(num + "M") == Some(1024 * 1024 * v)
  {
    assert (num + "m")[..|num|] == num && (num + "M")[..|num|] == num;
  }

  /** The number part of a size literal: decimal or `0x` hex digits */
  function NumberText(n: nat, hex: bool): string {
    if hex then "0x" + Digits(n, 16) else Digits(n, 10)
  }

  lemma {:induction false} NumberTextRoundTrip(n: nat, hex: bool)
    requires n <= MaxLong
    ensures DecodeLong(NumberText(n, hex)) == Some(n)
    ensures IsLowerHexDigit(NumberText(n, hex)[|NumberText(n, hex)| - 1])
  {
    var radix := if hex then 16 else 10;
    var d := Digits(n, radix);
    var num := NumberText(n, hex);
    DigitsRoundTrip(n, radix);
    if hex {
      assert num[..2] == "0x" && num[2..] == d;
      assert RadixOf(num) == Literal(16, d);
    } else {
      assert IsLowerHexDigit(d[0]);
      DecimalRadix(d);
    }
    DecodeUnsigned(num, n);
    assert num[|num| - 1] == d[|d| - 1];
  }

  /** A size number reads back whole, and with a K or M suffix scaled, as
      long as the product fits in a long */
  lemma {:induction false} NumberTextScales(n: nat, hex: bool)
    requires n <= MaxLong
    ensures ParseSize(NumberText(n, hex)) == Some(n)
    ensures 1024 * n <= MaxLong ==> ParseSize(NumberText(n, hex) + "K") == Some(1024 * n)
    ensures 1024 * 1024 * n <= MaxLong ==> ParseSize(NumberText(n, hex) + "M") == Some(1024 * 1024 * n)
  {
    var num := NumberText(n, hex);
    NumberTextRoundTrip(n, hex);
    DigitEndsUnsuffixed(num);
    UnsuffixedDecodes(num, n);
    if 1024 * n <= MaxLong {
      KiloSuffix(num, n);
    }
    if 1024 * 1024 * n <= MaxLong {
      MegaSuffix(num, n);
    }
  }

  /** Every literal written by SizeText reads back as its count of bytes. */
  lemma {:induction false} ParseSizeRoundTrip(n: nat, u: Unit, hex: bool)
    requires Scale(u) * n <= MaxLong
    ensures ParseSize(SizeText(n, u, hex)) == Some(Scale(u) * n)
  {
    var num := NumberText(n, hex);
    NumberTextScales(n, hex);
    match u
    case Bytes =>
      assert SizeText(n, u, hex) == num && Scale(u) == 1;
    case KiB =>
      assert SizeText(n, u, hex) == num + "K" && Scale(u) == 1024;
    case MiB =>
      assert SizeText(n, u, hex) == num + "M" && Scale(u) == 1024 * 1024;
  }

  lemma {:induction false} DecimalFourKiB()
    ensures DecodeLong("4096") == Some(4096)
  {
    assert "4096"[..3] == "409" && "409"[..2] == "40" && "40"[..1] == "4" && "4"[..0] == "";
    DecimalRadix("4096");
    DecodeUnsigned("4096", 4096);
  }

  lemma {:induction false} HexFourKiB()
    ensures DecodeLong("0x1000") == Some(4096)
  {
    assert "0x1000"[..2] == "0x" && "0x1000"[2..] == "1000";
    assert "1000"[..3] == "100" && "100"[..2] == "10" && "10"[..1] == "1" && "1"[..0] == "";
    DecodeUnsigned("0x1000", 4096);
  }

  lemma {:induction false} DecimalFour()
    ensures DecodeLong("4") == Some(4)
  {
    DecimalRadix("4");
    DecodeUnsigned("4", 4);
  }

  /** "4096", "4K", "4k" and "0x1000" all denote 4096 bytes. */
  lemma {:induction false} FourKiBSpellings()
    ensures ParseSize("4096") == Some(4096)
    ensures ParseSize("4K") == Some(4096)
    ensures ParseSize("4k") == Some(4096)
    ensures ParseSize("0x1000") == Some(4096)
  {
    DecimalFourKiB();
    DigitEndsUnsuffixed("4096");
    UnsuffixedDecodes("4096", 4096);
    DecimalFour();
    DigitEndsUnsuffixed("4");
    KiloSuffix("4", 4);
    assert "4" + "K" == "4K" && "4" + "k" == "4k";
    HexFourKiB();
    DigitEndsUnsuffixed("0x1000");
    UnsuffixedDecodes("0x1000", 4096);
  }

  /** A preference holding a size literal yields its byte count; a missing or
      empty one yields 0. */
  lemma {:induction false} IntPrefReadsLiteral(board: map<string, string>, name: string, n: nat, u: Unit, hex: bool)
    requires Scale(u) * n <= MaxLong
    ensures name !in board ==> IntPref(board, name) == Some(0)
    ensures name in board && board[name] == "" ==> IntPref(board, name) == Some(0)
    ensures name in board && board[name] == SizeText(n, u, hex) ==> IntPref(board, name) == Some(Scale(u) * n)
  {
    if name in board && board[name] == SizeText(n, u, hex) {
      ParseSizeRoundTrip(n, u, hex);
    }
  }
}

/**
 * Integer text as the bot reads and writes it: Go's `%d`, `%.2f` applied to
 * `amount / 100.0`, and `strconv.ParseInt(s, 0, 0)` on a 64-bit `int`.
 */
module Numbers {
  import opened Wrappers

  const Int64Min: int := -0x8000_0000_0000_0000
  const Int64Max: int := 0x7fff_ffff_ffff_ffff

  function DigitChar(d: nat): (c: char)
    requires d < 10
    ensures '0' <= c <= '9'
  {
    ('0' as int + d) as char
  }

  /** Decimal digits of `n`, most significant first, without leading zeros. */
  function NatToString(n: nat): (s: string)
    ensures |s| >= 1
    ensures forall k :: 0 <= k < |s| ==> '0' <= s[k] <= '9'
    ensures s[0] == '0' <==> n == 0
    ensures n == 0 ==> s == "0"
  {
    if n < 10 then [DigitChar(n)] else NatToString(n / 10) + [DigitChar(n % 10)]
  }

  /** Go's `%d` (and `strconv.Itoa`): a minus sign for negative numbers, then the digits. */
  function IntToString(n: int): string
  {
    if n < 0 then "-" + NatToString(-n) else NatToString(n)
  }

  /**
   * strconv's digit value: '0'..'9' are 0..9 and ASCII letters of either case are
   * 10..35; every other character gets 36, which no base accepts.
   */
  function DigitValue(ch: char): (d: nat)
    ensures d <= 36
  {
    if '0' <= ch <= '9' then ch as int - '0' as int
    else if 'a' <= ch <= 'z' then ch as int - 'a' as int + 10
    else if 'A' <= ch <= 'Z' then ch as int - 'A' as int + 10
    else 36
  }

  /**
   * The value of `s` read in `base`, most significant digit first, when each of
   * its characters is a digit below `base`; the empty string reads as 0.
   */
  function ReadDigits(s: string, base: nat): Option<nat>
  {
    if s == [] then Some(0)
    else
      match ReadDigits(s[..|s| - 1], base)
      case None => None
      case Some(v) =>
        var d := DigitValue(s[|s| - 1]);
        if d < base then Some(v * base + d) else None
  }

  /** `s` with every underscore removed (strconv skips them while reading digits). */
  function WithoutUnderscores(s: string): (r: string)
    ensures '_' !in r
  {
    if s == [] then [] else (if s[0] == '_' then [] else [s[0]]) + WithoutUnderscores(s[1..])
  }

  /** `c` is `letter` in either case (strconv's `lower(c) == letter`). */
  predicate IsLetter(c: char, letter: char)
    requires 'a' <= letter <= 'z'
  {
    c == letter || c as int == letter as int - 32
  }

  /** `c` is one of the base letters b, o, x of a prefix 0b, 0o, 0x. */
  predicate IsBaseLetter(c: char)
  {
    IsLetter(c, 'b') || IsLetter(c, 'o') || IsLetter(c, 'x')
  }

  /**
   * strconv's `underscoreOK`: an underscore must stand between two digits, a base
   * prefix counting as a digit.
   */
  predicate UnderscoreOK(s: string)
  {
    var t := if |s| >= 1 && (s[0] == '-' || s[0] == '+') then s[1..] else s;
    if |t| >= 2 && t[0] == '0' && IsBaseLetter(t[1]) then
      UnderscoresFrom(t[2..], IsLetter(t[1], 'x'), '0')
    else
      UnderscoresFrom(t, false, '^')
  }

  /**
   * The scan of `underscoreOK` from state `saw`: '^' at the start, '0' after a
   * digit, '_' after an underscore, '!' after anything else.
   */
  predicate UnderscoresFrom(s: string, hex: bool, saw: char)
  {
    if s == [] then saw != '_'
    else if '0' <= s[0] <= '9' || (hex && 10 <= DigitValue(s[0]) <= 15) then UnderscoresFrom(s[1..], hex, '0')
    else if s[0] == '_' then saw == '0' && UnderscoresFrom(s[1..], hex, '_')
    else saw != '_' && UnderscoresFrom(s[1..], hex, '!')
  }

  /** The digits read in `base`, underscores skipped and then vetted as strconv does. */
  function ReadBase0Digits(whole: string, digits: string, base: nat): Option<nat>
  {
    match ReadDigits(WithoutUnderscores(digits), base)
    case None => None
    case Some(v) => if '_' in digits && !UnderscoreOK(whole) then None else Some(v)
  }

  /**
   * `strconv.ParseUint(s, 0, 64)` before its range check: a 0b/0o/0x prefix
   * (either case, and only with at least one character after it) selects base
   * 2/8/16, any other leading '0' selects base 8, and otherwise the base is 10.
   */
  function ParseUnsigned(s: string): Option<nat>
  {
    if s == [] then None
    else if s[0] == '0' && |s| >= 3 && IsLetter(s[1], 'b') then ReadBase0Digits(s, s[2..], 2)
    else if s[0] == '0' && |s| >= 3 && IsLetter(s[1], 'o') then ReadBase0Digits(s, s[2..], 8)
    else if s[0] == '0' && |s| >= 3 && IsLetter(s[1], 'x') then ReadBase0Digits(s, s[2..], 16)
    else if s[0] == '0' then ReadBase0Digits(s, s[1..], 8)
    else ReadBase0Digits(s, s, 10)
  }

  /**
   * `strconv.ParseInt(s, 0, 0)` with Go's 64-bit `int`: an optional sign, then an
   * unsigned number in the base its prefix selects; `None` for a syntax error and
   * for a value outside the 64-bit range.
   */
  function ParseInt(s: string): (r: Option<int>)
    ensures r.Some? ==> Int64Min <= r.value <= Int64Max
  {
    if s == [] then None
    else
      var neg := s[0] == '-';
      var body := if s[0] == '+' || s[0] == '-' then s[1..] else s;
      match ParseUnsigned(body)
      case None => None
      case Some(u) =>
        if neg then (if u > -Int64Min then None else Some(-(u as int)))
        else (if u > Int64Max then None else Some(u))
  }

  /** A plain decimal with an optional minus sign: the reference reading of what the formatters write. */
  function ParseDecimal(s: string): Option<int>
  {
    if |s| >= 1 && s[0] == '-' then
      match ReadDigits(s[1..], 10)
      case None => None
      case Some(v) => if |s| == 1 then None else Some(-(v as int))
    else if s == [] then None
    else ReadDigits(s, 10)
  }

  /** The two decimals of `%.2f` on `m / 100` for `m >= 0`. */
  function Hundredths(m: nat): string
  {
    NatToString(m / 100) + "." + [DigitChar(m / 10 % 10), DigitChar(m % 10)]
  }

  /**
   * Go's `%.2f` verb on `n` divided by 100, in integer arithmetic:
   * the whole part, a point, exactly two decimals, and a minus sign when `n < 0`.
   */
  function FormatHundredths(n: int): string
  {
    if n < 0 then "-" + Hundredths(-n) else Hundredths(n)
  }

  lemma {:induction false} ReadDigitsOfNat(n: nat)
    ensures ReadDigits(NatToString(n), 10) == Some(n)
  {
    var s := NatToString(n);
    if n >= 10 {
      ReadDigitsOfNat(n / 10);
      assert s[..|s| - 1] == NatToString(n / 10);
    }
  }

  lemma {:induction false} NoUnderscoresUnchanged(s: string)
    requires forall k :: 0 <= k < |s| ==> '0' <= s[k] <= '9'
    ensures WithoutUnderscores(s) == s
  {
    if s != [] {
      NoUnderscoresUnchanged(s[1..]);
    }
  }

  /** The digits `%d` writes for a natural number read back as that number in base 0. */
  lemma ParseUnsignedOfNatToString(m: nat)
    ensures ParseUnsigned(NatToString(m)) == Some(m)
  {
    var digits := NatToString(m);
    if m == 0 {
      assert digits == "0";
      assert ReadDigits("", 8) == Some(0);
    } else {
      ReadDigitsOfNat(m);
      NoUnderscoresUnchanged(digits);
      assert '_' !in digits;
      assert ParseUnsigned(digits) == ReadBase0Digits(digits, digits, 10);
    }
  }

  /** Reading back what `%d` wrote gives the number, over the whole 64-bit range. */
  lemma ParseIntOfIntToString(n: int)
    requires Int64Min <= n <= Int64Max
    ensures ParseInt(IntToString(n)) == Some(n)
  {
    var m: nat := if n < 0 then -n else n;
    ParseUnsignedOfNatToString(m);
    if n < 0 {
      assert IntToString(n)[1..] == NatToString(m);
    }
  }

  /** A natural number is its hundreds, tens digit and units digit. */
  lemma DecimalPlaces(m: nat)
    ensures m == (m / 100) * 100 + (m / 10 % 10) * 10 + m % 10
  {
    var q, r := m / 100, m % 100;
    assert m / 10 == q * 10 + r / 10;
    assert m / 10 % 10 == r / 10;
  }

  /** One more digit below the base multiplies the value read so far by the base and adds the digit. */
  lemma ReadDigitsAppend(s: string, c: char, base: nat, v: nat)
    requires ReadDigits(s, base) == Some(v) && DigitValue(c) < base
    ensures ReadDigits(s + [c], base) == Some(v * base + DigitValue(c))
  {
    assert (s + [c])[..|s|] == s;
  }

  /** A whole part followed by two decimals reads back as the hundredths. */
  lemma HundredthsDigits(q: nat, a: nat, b: nat)
    requires a < 10 && b < 10
    ensures ReadDigits(NatToString(q) + [DigitChar(a), DigitChar(b)], 10) == Some(q * 100 + a * 10 + b)
  {
    var w := NatToString(q);
    var d1, d2 := DigitChar(a), DigitChar(b);
    ReadDigitsOfNat(q);
    ReadDigitsAppend(w, d1, 10, q);
    ReadDigitsAppend(w + [d1], d2, 10, q * 10 + a);
    assert w + [d1] + [d2] == w + [d1, d2];
  }

  /**
   * `%.2f` of `n / 100` is exact: its last three characters are a point and two
   * digits, and the digits without the point read back as `n`.
   */
  lemma FormatHundredthsDenotes(n: int)
    ensures var s := FormatHundredths(n);
      |s| >= 4 && s[|s| - 3] == '.' &&
      ParseDecimal(s[..|s| - 3] + s[|s| - 2..]) == Some(n)
    ensures var s := FormatHundredths(n);
      |s| >= 4 && (s[0] == '-' <==> n < 0) &&
      Canonical(if n < 0 then s[1..|s| - 3] else s[..|s| - 3])
  {
    var m: nat := if n < 0 then -n else n;
    var digits := HundredthsShape(m);
    var s := FormatHundredths(n);
    if n < 0 {
      assert s[..|s| - 3] + s[|s| - 2..] == "-" + digits;
      assert ("-" + digits)[1..] == digits;
    } else {
      assert s[..|s| - 3] + s[|s| - 2..] == digits;
    }
  }

  /** A decimal numeral as `%d` and `%.2f` write it: digits only, and no leading zero unless it is "0". */
  predicate Canonical(w: string)
  {
    |w| >= 1 && (forall k :: 0 <= k < |w| ==> '0' <= w[k] <= '9') && (w[0] == '0' ==> |w| == 1)
  }

  /**
   * The point of `Hundredths(m)` is third from the end, the whole part before
   * it has no leading zero, and the digits around it read back as `m`.
   */
  lemma HundredthsShape(m: nat) returns (digits: string)
    ensures var h := Hundredths(m);
      |h| >= 4 && h[|h| - 3] == '.' && digits == h[..|h| - 3] + h[|h| - 2..] && Canonical(h[..|h| - 3])
    ensures |digits| >= 3 && '0' <= digits[0] <= '9' && ReadDigits(digits, 10) == Some(m)
  {
    var w := NatToString(m / 100);
    var d1, d2 := DigitChar(m / 10 % 10), DigitChar(m % 10);
    digits := w + [d1, d2];
    var h := Hundredths(m);
    assert h == w + "." + [d1, d2];
    assert h[..|h| - 3] == w && h[|h| - 2..] == [d1, d2];
    HundredthsDigits(m / 100, m / 10 % 10, m % 10);
    DecimalPlaces(m);
  }

  /** "200" is two hundred. */
  lemma ParseIntExample()
    ensures ParseInt("200") == Some(200)
  {
    assert ParseUnsigned("200") == ReadBase0Digits("200", "200", 10);
    assert WithoutUnderscores("200") == "200";
    assert ReadDigits("200", 10) == Some(200) by {
      assert "200"[..2] == "20" && "20"[..1] == "2" && "2"[..0] == "";
    }
  }

  /** One character that is no digit below the base spoils the whole reading. */
  lemma {:induction false} ReadDigitsRejects(s: string, base: nat, k: nat)
    requires k < |s| && DigitValue(s[k]) >= base
    ensures ReadDigits(s, base) == None
  {
    if k < |s| - 1 {
      ReadDigitsRejects(s[..|s| - 1], base, k);
    }
  }

  /**
   * Nothing is trimmed or skipped at the front: a leading character that is
   * neither a sign, an underscore nor a decimal digit (a space, a letter) makes
   * the text no number.
   */
  lemma ParseIntLeadingNonDigit(s: string)
    requires s != [] && s[0] != '+' && s[0] != '-' && s[0] != '_' && DigitValue(s[0]) >= 10
    ensures ParseInt(s) == None
  {
    assert ParseUnsigned(s) == ReadBase0Digits(s, s, 10);
    var t := WithoutUnderscores(s);
    assert t[0] == s[0];
    ReadDigitsRejects(t, 10, 0);
  }
}

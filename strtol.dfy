/** `strtol(text, NULL, 0)` of the C library, which `ai_options_callback` uses to read
    every option value (src/sqlite-ai.c:103-133): leading white space, an optional sign,
    a `0x`/`0X` prefix for hexadecimal or a leading `0` for octal, the longest run of
    digits, and saturation at the bounds of a 64-bit `long`. */
module StrToL {
  import opened CTypes

  /** The value of `c` as a digit in bases up to 16; 16 for anything else. */
  function DigitValue(c: char): (d: nat)
    ensures d <= 16
  {
    if '0' <= c <= '9' then c as int - '0' as int
    else if 'a' <= c <= 'f' then c as int - 'a' as int + 10
    else if 'A' <= c <= 'F' then c as int - 'A' as int + 10
    else 16
  }

  /** The value of the longest prefix of `s` made of digits in `base`, read after `acc`. */
  function Accumulate(s: string, base: nat, acc: nat): nat
  {
    if s == [] || DigitValue(s[0]) >= base then acc
    else Accumulate(s[1..], base, acc * base + DigitValue(s[0]))
  }

  /** The magnitude an unsigned numeral denotes, with base 0 choosing the base from the
      prefix. A `0x` without a hexadecimal digit after it is the numeral `0`. */
  function Magnitude(s: string): nat
  {
    if |s| >= 3 && s[0] == '0' && (s[1] == 'x' || s[1] == 'X') && DigitValue(s[2]) < 16 then
      Accumulate(s[2..], 16, 0)
    else if s != [] && s[0] == '0' then Accumulate(s, 8, 0)
    else Accumulate(s, 10, 0)
  }

  /** The text `strtol` reads digits from: `s` past its leading white space and its sign. */
  function Unsigned(s: string): string
  {
    var t := LTrim(s);
    if t != [] && (t[0] == '-' || t[0] == '+') then t[1..] else t
  }

  /** `strtol(s, NULL, 0)`: the signed value, saturated to `[LONG_MIN, LONG_MAX]`. */
  function StrToL(s: string): (r: int)
    ensures LONG_MIN <= r <= LONG_MAX
  {
    var t := LTrim(s);
    var negative := t != [] && t[0] == '-';
    var m: int := Magnitude(Unsigned(s));
    if negative then (if -m < LONG_MIN then LONG_MIN else -m)
    else (if m > LONG_MAX then LONG_MAX else m)
  }

  // ---------------------------------------------------------------------------
  // Decimal numerals

  function DecimalDigit(d: nat): (c: char)
    requires d < 10
    ensures DigitValue(c) == d
  {
    ('0' as int + d) as char
  }

  /** The decimal numeral of `m`, without leading zeros. */
  function Decimal(m: nat): (s: string)
    ensures s != []
    ensures forall k :: 0 <= k < |s| ==> DigitValue(s[k]) < 10
    ensures m > 0 ==> s[0] != '0'
  {
    if m < 10 then [DecimalDigit(m)] else Decimal(m / 10) + [DecimalDigit(m % 10)]
  }

  /** How `%d` prints `n`. */
  function Numeral(n: int): string
  {
    if n < 0 then "-" + Decimal(-n) else Decimal(n)
  }

  lemma {:induction false} AccumulateAppend(x: string, y: string, base: nat, acc: nat)
    requires forall k :: 0 <= k < |x| ==> DigitValue(x[k]) < base
    ensures Accumulate(x + y, base, acc) == Accumulate(y, base, Accumulate(x, base, acc))
  {
    if x != [] {
      assert (x + y)[1..] == x[1..] + y;
      AccumulateAppend(x[1..], y, base, acc * base + DigitValue(x[0]));
    } else {
      assert x + y == y;
    }
  }

  lemma {:induction false} AccumulateDecimal(m: nat)
    ensures Accumulate(Decimal(m), 10, 0) == m
  {
    if m >= 10 {
      AccumulateDecimal(m / 10);
      AccumulateAppend(Decimal(m / 10), [DecimalDigit(m % 10)], 10, 0);
    }
  }

  /** Decimal numerals read back in base 0: neither a `0x` nor an octal `0` gets in the way. */
  lemma MagnitudeDecimal(m: nat)
    ensures Magnitude(Decimal(m)) == m
  {
    AccumulateDecimal(m);
    var s := Decimal(m);
    if m == 0 {
      assert s == "0" && s[1..] == [];
      assert Accumulate(s, 8, 0) == Accumulate(s[1..], 8, 0);
    } else {
      assert s[0] != '0';
    }
  }

  /** Every `long` survives being printed with `%d` and read back with `strtol`. */
  lemma StrToLNumeral(n: int)
    requires LONG_MIN <= n <= LONG_MAX
    ensures StrToL(Numeral(n)) == n
  {
    MagnitudeDecimal(if n < 0 then -n else n);
    var s := Numeral(n);
    assert LTrim(s) == s;
    if n < 0 {
      assert s[1..] == Decimal(-n);
    } else {
      assert Decimal(n)[0] != '-' && Decimal(n)[0] != '+';
    }
  }

  /** Leading white space does not matter. */
  lemma StrToLSkipsSpace(c: char, s: string)
    requires IsSpace(c)
    ensures StrToL([c] + s) == StrToL(s)
  {
    assert ([c] + s)[1..] == s;
  }

  /** Text whose first character after the white space and an optional sign is not a
      decimal digit reads as 0. */
  lemma StrToLWord(s: string)
    requires Unsigned(s) == [] || DigitValue(Unsigned(s)[0]) >= 10
    ensures StrToL(s) == 0
  {
    var u := Unsigned(s);
    if u != [] {
      assert u[0] != '0';
      assert Accumulate(u, 10, 0) == 0;
    }
  }

  /** `true` is not a true value. */
  lemma StrToLTrue()
    ensures StrToL("true") == 0
  {
    assert LTrim("true") == "true";
    StrToLWord("true");
  }

  /** The base follows the prefix. */
  lemma StrToLBases()
    ensures StrToL("0x1F") == 31
    ensures StrToL("010") == 8
  {
    assert LTrim("0x1F") == "0x1F";
    assert "0x1F"[2..] == "1F";
    assert Accumulate("1F", 16, 0) == 31;
    assert LTrim("010") == "010";
    assert Accumulate("010", 8, 0) == 8;
  }

  /** Values beyond the range of `long` saturate. */
  lemma StrToLSaturates(m: nat)
    requires m > LONG_MAX
    ensures StrToL(Decimal(m)) == LONG_MAX
    ensures StrToL("-" + Decimal(m + 1)) == LONG_MIN
  {
    MagnitudeDecimal(m);
    MagnitudeDecimal(m + 1);
    assert LTrim(Decimal(m)) == Decimal(m);
    assert Decimal(m)[0] != '-' && Decimal(m)[0] != '+';
    assert LTrim("-" + Decimal(m + 1)) == "-" + Decimal(m + 1);
    assert ("-" + Decimal(m + 1))[1..] == Decimal(m + 1);
  }
}

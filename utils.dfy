/**
 * The string helpers the contracts call from headers that are not part of this model:
 * `split`, the decimal parsers `to_uint64`/`to_uint32`, `std::strtoul` and `std::stoi`.
 * Each is given the simplest behaviour its call sites rely on.
 */
module Utils {
  import opened Wrappers
  import opened Eosio

  /** `split(s, ":")`: the fields between separators; always at least one field. */
  function Split(s: string, sep: char): (fields: seq<string>)
    ensures |fields| >= 1
    ensures forall i :: 0 <= i < |fields| ==> sep !in fields[i]
    decreases |s|
  {
    if s == [] then [[]]
    else
      var rest := Split(s[1..], sep);
      if s[0] == sep then [[]] + rest
      else [[s[0]] + rest[0]] + rest[1..]
  }

  /** The fields put back together, one separator between each two. */
  function Join(fields: seq<string>, sep: char): string
    requires |fields| >= 1
  {
    if |fields| == 1 then fields[0] else fields[0] + [sep] + Join(fields[1..], sep)
  }

  /** Splitting loses nothing: joining the fields gives back the string. */
  lemma {:induction false} JoinSplit(s: string, sep: char)
    ensures Join(Split(s, sep), sep) == s
    decreases |s|
  {
    if s != [] {
      JoinSplit(s[1..], sep);
      var rest := Split(s[1..], sep);
      if s[0] == sep {
        assert Split(s, sep)[1..] == rest;
      } else {
        var fields := Split(s, sep);
        if |rest| == 1 {
          assert fields == [[s[0]] + rest[0]];
        } else {
          assert fields[1..] == rest[1..];
          assert Join(rest, sep) == rest[0] + [sep] + Join(rest[1..], sep);
        }
        assert s == [s[0]] + s[1..];
      }
    }
  }

  /** A separator-free prefix stays one field ahead of whatever follows the separator. */
  lemma {:induction false} SplitPrefix(a: string, sep: char, rest: string)
    requires sep !in a
    ensures Split(a + [sep] + rest, sep) == [a] + Split(rest, sep)
    decreases |a|
  {
    if a == [] {
      assert a + [sep] + rest == [sep] + rest;
      assert ([sep] + rest)[1..] == rest;
    } else {
      SplitPrefix(a[1..], sep, rest);
      assert (a + [sep] + rest)[1..] == a[1..] + [sep] + rest;
      assert [a[0]] + a[1..] == a;
    }
  }

  lemma {:induction false} SplitPlain(a: string, sep: char)
    requires sep !in a
    ensures Split(a, sep) == [a]
    decreases |a|
  {
    if a != [] {
      SplitPlain(a[1..], sep);
      assert [a[0]] + a[1..] == a;
    }
  }

  /** Joining separator-free fields and splitting again gives back the fields. */
  lemma {:induction false} SplitJoin(fields: seq<string>, sep: char)
    requires |fields| >= 1
    requires forall i :: 0 <= i < |fields| ==> sep !in fields[i]
    ensures Split(Join(fields, sep), sep) == fields
    decreases |fields|
  {
    if |fields| == 1 {
      SplitPlain(fields[0], sep);
    } else {
      assert sep !in fields[0];
      SplitJoin(fields[1..], sep);
      SplitPrefix(fields[0], sep, Join(fields[1..], sep));
      assert [fields[0]] + fields[1..] == fields;
    }
  }

  predicate IsDigit(ch: char) { '0' <= ch <= '9' }

  predicate AllDigits(s: string) { forall i :: 0 <= i < |s| ==> IsDigit(s[i]) }

  function DigitValue(ch: char): (d: nat)
    requires IsDigit(ch)
    ensures d < 10
  {
    ch as int - '0' as int
  }

  function DigitChar(d: nat): (ch: char)
    requires d < 10
    ensures IsDigit(ch) && DigitValue(ch) == d
  {
    ('0' as int + d) as char
  }

  /** The number a string of decimal digits denotes (the empty string denotes 0). */
  function DecimalValue(s: string): nat
    requires AllDigits(s)
    decreases |s|
  {
    if s == [] then 0 else DecimalValue(s[..|s| - 1]) * 10 + DigitValue(s[|s| - 1])
  }

  /** The shortest decimal spelling of a number, as `to_string` writes it. */
  function Decimal(n: nat): (s: string)
    ensures |s| > 0 && AllDigits(s)
    decreases n
  {
    if n < 10 then [DigitChar(n)] else Decimal(n / 10) + [DigitChar(n % 10)]
  }

  lemma {:induction false} DecimalRoundTrip(n: nat)
    ensures DecimalValue(Decimal(n)) == n
    decreases n
  {
    if n >= 10 {
      DecimalRoundTrip(n / 10);
      var s := Decimal(n);
      assert s[..|s| - 1] == Decimal(n / 10);
    }
  }

  /**
   * `to_uint64` and `to_uint32`: a non-empty string of decimal digits whose value is below
   * `bound`, or a failure.
   */
  function ParseUnsigned(s: string, bound: nat): (r: Option<nat>)
    ensures r.Some? ==> r.value < bound
  {
    if s != [] && AllDigits(s) && DecimalValue(s) < bound then Some(DecimalValue(s)) else None
  }

  /** Parsing what `Decimal` writes gives back the number exactly when it is below the bound. */
  lemma ParseDecimalExact(n: nat, bound: nat)
    ensures ParseUnsigned(Decimal(n), bound) == if n < bound then Some(n) else None
  {
    DecimalRoundTrip(n);
  }

  /** Parsing what `Decimal` writes gives back the number. */
  lemma ParseDecimal(n: nat, bound: nat)
    requires n < bound
    ensures ParseUnsigned(Decimal(n), bound) == Some(n)
  {
    DecimalRoundTrip(n);
  }

  /** The longest prefix made of decimal digits. */
  function DigitPrefix(s: string): (p: string)
    ensures p <= s && AllDigits(p)
    ensures |p| < |s| ==> !IsDigit(s[|p|])
    decreases |s|
  {
    if s != [] && IsDigit(s[0]) then [s[0]] + DigitPrefix(s[1..]) else []
  }

  /** A string of digits is its own digit prefix. */
  lemma {:induction false} DigitPrefixOfDigits(s: string)
    requires AllDigits(s)
    ensures DigitPrefix(s) == s
    decreases |s|
  {
    if s != [] {
      DigitPrefixOfDigits(s[1..]);
      assert [s[0]] + s[1..] == s;
    }
  }

  /** `ULONG_MAX` on the 32-bit WebAssembly target, where `unsigned long` has 32 bits. */
  const ULONG_MAX: nat := U32_MOD - 1

  predicate IsSign(ch: char) { ch == '+' || ch == '-' }

  /**
   * `std::strtoul(s, nullptr, 10)`: an optional sign, then the value of the leading digits
   * (0 when there are none). A value above `ULONG_MAX` saturates to `ULONG_MAX`; a `-` sign
   * negates the value in unsigned arithmetic. It never fails.
   */
  function StrToUL(s: string): (v: nat)
    ensures v <= ULONG_MAX
    ensures (s == [] || !(IsDigit(s[0]) || IsSign(s[0]))) ==> v == 0
    ensures s != [] && IsDigit(s[0]) ==> v == Min(DecimalValue(DigitPrefix(s)), ULONG_MAX)
    ensures s != [] && s[0] == '+' ==> v == Min(DecimalValue(DigitPrefix(s[1..])), ULONG_MAX)
    ensures s != [] && s[0] == '-' && DecimalValue(DigitPrefix(s[1..])) <= ULONG_MAX ==>
              (v + DecimalValue(DigitPrefix(s[1..]))) % U32_MOD == 0
    ensures s != [] && s[0] == '-' && DecimalValue(DigitPrefix(s[1..])) > ULONG_MAX ==> v == ULONG_MAX
  {
    var negative := s != [] && s[0] == '-';
    var magnitude := DecimalValue(DigitPrefix(if s != [] && IsSign(s[0]) then s[1..] else s));
    if magnitude > ULONG_MAX then ULONG_MAX
    else if negative then (if magnitude == 0 then 0 else U32_MOD - magnitude)
    else magnitude
  }

  /** `strtoul` of a signed decimal: `+` keeps the value, `-` negates it modulo 2^32. */
  lemma StrToULSigned(k: nat)
    requires k <= ULONG_MAX
    ensures StrToUL("+" + Decimal(k)) == k
    ensures StrToUL("-" + Decimal(k)) == if k == 0 then 0 else U32_MOD - k
  {
    DigitPrefixOfDigits(Decimal(k));
    DecimalRoundTrip(k);
    assert ("+" + Decimal(k))[1..] == Decimal(k);
    assert ("-" + Decimal(k))[1..] == Decimal(k);
  }

  function Min(a: nat, b: nat): nat { if a <= b then a else b }

  /** The number of bytes `c` takes in UTF-8. */
  function Utf8Width(ch: char): (w: nat)
    ensures 1 <= w <= 4
    ensures w == 1 <==> (ch as int) < 0x80
  {
    if (ch as int) < 0x80 then 1
    else if (ch as int) < 0x800 then 2
    else if (ch as int) < 0x1_0000 then 3
    else 4
  }

  /**
   * The length in bytes of the UTF-8 encoding of `s`, which is what `std::string::size` and
   * `length` count for text received in an action.
   */
  function Utf8Length(s: string): (n: nat)
    ensures |s| <= n <= 4 * |s|
    decreases |s|
  {
    if s == [] then 0 else Utf8Width(s[0]) + Utf8Length(s[1..])
  }

  /** Text made only of ASCII characters is as long in bytes as in characters. */
  lemma {:induction false} AsciiUtf8Length(s: string)
    requires forall i :: 0 <= i < |s| ==> (s[i] as int) < 0x80
    ensures Utf8Length(s) == |s|
    decreases |s|
  {
    if s != [] {
      AsciiUtf8Length(s[1..]);
    }
  }

  /** Text made only of two-byte characters (U+0080 to U+07FF) takes two bytes per character. */
  lemma {:induction false} TwoByteUtf8Length(s: string)
    requires forall i :: 0 <= i < |s| ==> 0x80 <= (s[i] as int) < 0x800
    ensures Utf8Length(s) == 2 * |s|
    decreases |s|
  {
    if s != [] {
      TwoByteUtf8Length(s[1..]);
    }
  }

  /** Every character outside ASCII takes more than one byte, so the byte count is larger. */
  lemma {:induction false} NonAsciiUtf8Length(s: string, i: nat)
    requires i < |s| && (s[i] as int) >= 0x80
    ensures Utf8Length(s) > |s|
    decreases |s|
  {
    if i > 0 {
      NonAsciiUtf8Length(s[1..], i - 1);
    } else {
      assert Utf8Length(s[1..]) >= |s[1..]|;
    }
  }

  /**
   * `std::stoi`: an optional sign followed by at least one digit (anything after the digits is
   * ignored), with a value that fits a 32-bit `int`; otherwise the call throws, which aborts.
   */
  function StoI(s: string): (r: Option<int>)
    ensures r.Some? ==> -0x8000_0000 <= r.value < 0x8000_0000
  {
    var signed := s != [] && (s[0] == '-' || s[0] == '+');
    var digits := DigitPrefix(if signed then s[1..] else s);
    var magnitude: int := DecimalValue(digits);
    var v: int := if signed && s[0] == '-' then -magnitude else magnitude;
    if digits != [] && -0x8000_0000 <= v < 0x8000_0000 then Some(v) else None
  }

  /** `(uint64_t)` applied to a signed value: negative values wrap around. */
  function ToU64(v: int): (r: U64)
    requires -0x8000_0000_0000_0000 <= v < 0x8000_0000_0000_0000
    ensures v >= 0 ==> r == v
    ensures v < 0 ==> r == v + U64_MOD
  {
    if v < 0 then v + U64_MOD else v
  }
}

/**
  strconv.Atoi on a 64-bit platform, as the DMARC advisor uses it for the
  `pct` and `ri` tags. The digits are read left to right into an unsigned
  64-bit accumulator; a non-digit is a syntax error (value 0), and an
  accumulator that would pass 2^64 - 1 is a range error at that point. A
  magnitude out of the int64 range is clamped to the nearest bound, also
  with a range error.
 */
module Strconv {
  import opened Strings

  const MaxUint64: int := 0xFFFF_FFFF_FFFF_FFFF
  const MaxInt64: int := 0x7FFF_FFFF_FFFF_FFFF
  const MinInt64: int := -0x8000_0000_0000_0000

  /** The value Atoi returns and whether it returned a non-nil error. */
  datatype Parsed = Parsed(value: int, err: bool)

  /** What ParseUint's digit loop ends with. */
  datatype Unsigned = Syntax | Range | Value(n: nat)

  predicate IsDigit(c: char) {
    '0' <= c <= '9'
  }

  predicate AllDigits(s: string) {
    forall i :: 0 <= i < |s| ==> IsDigit(s[i])
  }

  /** The decimal value of the digits `s` read after the value `acc`. */
  function DecimalFrom(s: string, acc: int): int
    decreases |s|
  {
    if |s| == 0 then acc else DecimalFrom(s[1..], acc * 10 + (s[0] as int - '0' as int))
  }

  /** The digit loop of ParseUint in base 10, started with accumulator `acc`. */
  function ParseDigits(s: string, acc: nat): Unsigned
    decreases |s|
  {
    if |s| == 0 then Value(acc)
    else if !IsDigit(s[0]) then Syntax
    else if acc >= MaxUint64 / 10 + 1 then Range
    else
      var n1 := acc * 10 + (s[0] as int - '0' as int);
      if n1 > MaxUint64 then Range else ParseDigits(s[1..], n1)
  }

  /** strconv.Atoi(s). */
  function Atoi(s: string): Parsed {
    if |s| == 0 then Parsed(0, true)
    else
      var neg := s[0] == '-';
      var body := if s[0] == '-' || s[0] == '+' then s[1..] else s;
      if |body| == 0 then Parsed(0, true)
      else
        match ParseDigits(body, 0)
        case Syntax => Parsed(0, true)
        case Range => Parsed(if neg then MinInt64 else MaxInt64, true)
        case Value(un) =>
          if !neg && un > MaxInt64 then Parsed(MaxInt64, true)
          else if neg && un > -MinInt64 then Parsed(MinInt64, true)
          else var v: int := un; Parsed(if neg then -v else v, false)
  }

  /** The text Atoi accepts: an optional sign and at least one ASCII digit. */
  predicate WellFormed(s: string) {
    |s| > 0 &&
    var body := if s[0] == '-' || s[0] == '+' then s[1..] else s;
    |body| > 0 && AllDigits(body)
  }

  /** The mathematical value of well-formed text. */
  function SignedValue(s: string): int
    requires WellFormed(s)
  {
    var body := if s[0] == '-' || s[0] == '+' then s[1..] else s;
    if s[0] == '-' then -DecimalFrom(body, 0) else DecimalFrom(body, 0)
  }

  lemma {:induction false} DecimalFromAtLeast(s: string, acc: nat)
    requires AllDigits(s)
    ensures DecimalFrom(s, acc) >= acc
    ensures |s| > 0 ==> DecimalFrom(s, acc) >= acc * 10 + (s[0] as int - '0' as int)
    decreases |s|
  {
    if |s| > 0 {
      DecimalFromAtLeast(s[1..], acc * 10 + (s[0] as int - '0' as int));
    }
  }

  /** The digit loop yields a value exactly for digits whose value fits in 64 unsigned bits. */
  lemma {:induction false} ParseDigitsSpec(s: string, acc: nat)
    requires acc <= MaxUint64
    ensures ParseDigits(s, acc).Value? <==> AllDigits(s) && DecimalFrom(s, acc) <= MaxUint64
    ensures ParseDigits(s, acc).Value? ==> ParseDigits(s, acc).n == DecimalFrom(s, acc)
    ensures ParseDigits(s, acc).Syntax? ==> !AllDigits(s)
    decreases |s|
  {
    if |s| > 0 {
      var d := s[0] as int - '0' as int;
      assert AllDigits(s) ==> AllDigits(s[1..]);
      if !IsDigit(s[0]) {
      } else if acc >= MaxUint64 / 10 + 1 {
        if AllDigits(s) {
          DecimalFromAtLeast(s, acc);
        }
      } else if acc * 10 + d > MaxUint64 {
        if AllDigits(s) {
          DecimalFromAtLeast(s, acc);
        }
      } else {
        ParseDigitsSpec(s[1..], acc * 10 + d);
        assert AllDigits(s) <==> AllDigits(s[1..]) by {
          if AllDigits(s[1..]) {
            assert forall i :: 1 <= i < |s| ==> s[i] == s[1..][i - 1];
          }
        }
      }
    }
  }

  /**
    Atoi succeeds exactly on well-formed text whose value is an int64, and
    then returns that value; every failure returns 0 or one of the bounds.
   */
  lemma AtoiSpec(s: string)
    ensures !Atoi(s).err <==> WellFormed(s) && MinInt64 <= SignedValue(s) <= MaxInt64
    ensures !Atoi(s).err ==> Atoi(s).value == SignedValue(s)
    ensures Atoi(s).err ==> Atoi(s).value in {0, MinInt64, MaxInt64}
  {
    if |s| > 0 {
      var body := if s[0] == '-' || s[0] == '+' then s[1..] else s;
      if |body| > 0 {
        ParseDigitsSpec(body, 0);
        if AllDigits(body) {
          DecimalFromAtLeast(body, 0);
        }
      }
    }
  }

  /** Once the digits read so far pass 2^64 - 1, ParseUint stops with a range error, whatever follows. */
  lemma {:induction false} ParseDigitsOverflow(p: string, rest: string, acc: nat)
    requires acc <= MaxUint64 && AllDigits(p) && DecimalFrom(p, acc) > MaxUint64
    ensures ParseDigits(p + rest, acc) == Range
    decreases |p|
  {
    var s := p + rest;
    assert s[0] == p[0];
    var n1 := acc * 10 + (p[0] as int - '0' as int);
    if acc < MaxUint64 / 10 + 1 && n1 <= MaxUint64 {
      assert s[1..] == p[1..] + rest;
      ParseDigitsOverflow(p[1..], rest, n1);
    }
  }

  /**
    A leading '-', digits whose value passes 2^64 - 1, and then anything at
    all, even text that is not a number: Atoi answers -2^63 with an error.
   */
  lemma AtoiOverflowThenJunk(p: string, rest: string)
    requires AllDigits(p) && DecimalFrom(p, 0) > MaxUint64
    ensures Atoi("-" + p + rest) == Parsed(MinInt64, true)
  {
    var s := "-" + p + rest;
    assert s[1..] == p + rest;
    ParseDigitsOverflow(p, rest, 0);
  }

  /** Well-formed text out of the int64 range is clamped to the bound on its side. */
  lemma AtoiClamps(s: string)
    requires WellFormed(s)
    ensures SignedValue(s) < MinInt64 ==> Atoi(s) == Parsed(MinInt64, true)
    ensures SignedValue(s) > MaxInt64 ==> Atoi(s) == Parsed(MaxInt64, true)
  {
    var body := if s[0] == '-' || s[0] == '+' then s[1..] else s;
    ParseDigitsSpec(body, 0);
    DecimalFromAtLeast(body, 0);
  }

  /** The digits of a number read back as that number. */
  lemma {:induction false} DecimalOfNatToString(n: nat, acc: int)
    ensures DecimalFrom(NatToString(n), acc) == acc * Pow10(|NatToString(n)|) + n
    decreases n
  {
    var d := [('0' as int + n % 10) as char];
    if n < 10 {
      assert NatToString(n) == d;
      assert d[1..] == [];
    } else {
      var hi := NatToString(n / 10);
      DecimalOfNatToString(n / 10, acc);
      DecimalSnoc(hi, d[0], acc);
      assert NatToString(n) == hi + d;
      Pow10Succ(|hi|);
      ShiftDigit(acc, Pow10(|hi|), n);
    }
  }

  /** Appending the last digit of `n` to the digits of n / 10 after `acc`. */
  lemma ShiftDigit(acc: int, p: int, n: nat)
    ensures (acc * p + n / 10) * 10 + n % 10 == acc * (p * 10) + n
  {
    assert (acc * p + n / 10) * 10 == acc * p * 10 + (n / 10) * 10;
    assert acc * p * 10 == acc * (p * 10);
  }

  function Pow10(k: nat): (p: nat)
    ensures p >= 1
  {
    if k == 0 then 1 else 10 * Pow10(k - 1)
  }

  lemma Pow10Succ(k: nat)
    ensures Pow10(k + 1) == Pow10(k) * 10
  {
  }

  lemma {:induction false} DecimalSnoc(s: string, c: char, acc: int)
    ensures DecimalFrom(s + [c], acc) == DecimalFrom(s, acc) * 10 + (c as int - '0' as int)
    decreases |s|
  {
    if |s| == 0 {
      assert ([] + [c])[1..] == [];
    } else {
      assert (s + [c])[1..] == s[1..] + [c];
      DecimalSnoc(s[1..], c, acc * 10 + (s[0] as int - '0' as int));
    }
  }

  /** Round trip: the decimal text of an int64 parses back to it without error. */
  lemma AtoiIntToString(n: int)
    requires MinInt64 <= n <= MaxInt64
    ensures Atoi(IntToString(n)) == Parsed(n, false)
  {
    var t := NatToString(if n < 0 then -n else n);
    DecimalOfNatToString(if n < 0 then -n else n, 0);
    var s := IntToString(n);
    if n < 0 {
      assert s == "-" + t && s[1..] == t;
    } else {
      assert s == t;
    }
    assert WellFormed(s);
    AtoiSpec(s);
  }

}

/**
 * The parts of Go's `strings`, `strconv` and `fmt` packages that the script
 * compiler calls, restricted to ASCII text. Each function is characterised by
 * a lemma beside it.
 */
module GoStrings {
  import opened Wrappers

  /** The ASCII characters that `strings.TrimSpace` removes. */
  const AsciiSpace: set<char> := {' ', '\t', '\n', '\U{0B}', '\U{0C}', '\r'}

  /** The cutset " \t" that the compiler passes to `TrimLeft`, `TrimRight` and `IndexAny`. */
  const Blank: set<char> := {' ', '\t'}

  // The characterisations of these functions are stated as lemmas rather than
  // ensures clauses, so that callers pay for them only where they use them.

  /** strings.TrimLeft: drop the longest prefix made of characters in `cut`. */
  function TrimLeft(s: string, cut: set<char>): (r: string)
    ensures |r| <= |s|
  {
    if s != [] && s[0] in cut then TrimLeft(s[1..], cut) else s
  }

  lemma {:induction false} TrimLeftSpec(s: string, cut: set<char>)
    ensures var r := TrimLeft(s, cut);
      && r == s[|s| - |r|..]
      && (forall i :: 0 <= i < |s| - |r| ==> s[i] in cut)
      && (r == [] || r[0] !in cut)
  {
    if s != [] && s[0] in cut {
      TrimLeftSpec(s[1..], cut);
    }
  }

  /** strings.TrimRight: drop the longest suffix made of characters in `cut`. */
  function TrimRight(s: string, cut: set<char>): (r: string)
    ensures |r| <= |s|
  {
    if s != [] && s[|s| - 1] in cut then TrimRight(s[..|s| - 1], cut) else s
  }

  lemma {:induction false} TrimRightSpec(s: string, cut: set<char>)
    ensures var r := TrimRight(s, cut);
      && r == s[..|r|]
      && (forall i :: |r| <= i < |s| ==> s[i] in cut)
      && (r == [] || r[|r| - 1] !in cut)
  {
    if s != [] && s[|s| - 1] in cut {
      TrimRightSpec(s[..|s| - 1], cut);
    }
  }

  /** strings.TrimSpace on ASCII text. */
  function TrimSpace(s: string): (r: string)
    ensures |r| <= |s|
  {
    TrimRight(TrimLeft(s, AsciiSpace), AsciiSpace)
  }

  /**
   * TrimSpace returns the part of `s` between its leading and its trailing
   * white space: no space is left at either end, and everything cut off is a
   * space. It leaves nothing exactly when `s` is all spaces.
   */
  lemma TrimSpaceSpec(s: string)
    ensures var r := TrimSpace(s);
      && (r == [] || (r[0] !in AsciiSpace && r[|r| - 1] !in AsciiSpace))
      && (exists a :: SpaceAround(s, a, r))
      && (r == [] <==> forall i :: 0 <= i < |s| ==> s[i] in AsciiSpace)
  {
    var l := TrimLeft(s, AsciiSpace);
    TrimLeftSpec(s, AsciiSpace);
    TrimRightSpec(l, AsciiSpace);
    var r := TrimRight(l, AsciiSpace);
    if r != [] {
      assert r[0] == l[0];
    }
    var a := |s| - |l|;
    assert r == s[a..a + |r|];
    forall i | a + |r| <= i < |s| ensures s[i] in AsciiSpace {
      assert s[i] == l[i - a];
    }
    assert SpaceAround(s, a, r);
  }

  /** `r` is the slice of `s` at offset `a`, and everything around it is white space. */
  predicate SpaceAround(s: string, a: int, r: string)
  {
    && 0 <= a && a + |r| <= |s| && r == s[a..a + |r|]
    && (forall i :: 0 <= i < a ==> s[i] in AsciiSpace)
    && (forall i :: a + |r| <= i < |s| ==> s[i] in AsciiSpace)
  }

  /** strings.HasPrefix. */
  predicate HasPrefix(s: string, prefix: string)
  {
    prefix <= s
  }

  /** strings.IndexAny: the index of the first character of `s` in `chars`, or -1. */
  function IndexAny(s: string, chars: set<char>): (r: int)
    ensures -1 <= r < |s|
  {
    if s == [] then -1
    else if s[0] in chars then 0
    else
      var k := IndexAny(s[1..], chars);
      if k < 0 then -1 else k + 1
  }

  lemma {:induction false} IndexAnySpec(s: string, chars: set<char>)
    ensures var r := IndexAny(s, chars);
      && (r == -1 <==> forall i :: 0 <= i < |s| ==> s[i] !in chars)
      && (r >= 0 ==> s[r] in chars && forall i :: 0 <= i < r ==> s[i] !in chars)
  {
    if s != [] && s[0] !in chars {
      IndexAnySpec(s[1..], chars);
      assert forall i :: 1 <= i < |s| ==> s[i] == s[1..][i - 1];
    }
  }

  function UpperChar(c: char): char
  {
    if 'a' <= c <= 'z' then (c as int - 32) as char else c
  }

  /** strings.ToUpper on ASCII text. */
  function ToUpper(s: string): (r: string)
    ensures |r| == |s|
  {
    if s == [] then [] else [UpperChar(s[0])] + ToUpper(s[1..])
  }

  lemma {:induction false} ToUpperSpec(s: string)
    ensures forall i :: 0 <= i < |s| ==> ToUpper(s)[i] == UpperChar(s[i])
  {
    if s != [] {
      ToUpperSpec(s[1..]);
    }
  }

  /** Inverse of Split: the parts with `sep` between consecutive ones. */
  function Join(parts: seq<string>, sep: char): string
    requires |parts| >= 1
  {
    if |parts| == 1 then parts[0] else parts[0] + [sep] + Join(parts[1..], sep)
  }

  /** strings.Split with a one-character separator: every occurrence of `sep` cuts. */
  function Split(s: string, sep: char): (parts: seq<string>)
    ensures |parts| >= 1
    decreases |s|
  {
    var k := IndexAny(s, {sep});
    if k < 0 then [s] else [s[..k]] + Split(s[k + 1..], sep)
  }

  /** Split cuts at separators only, and Join puts them back. */
  lemma {:induction false} SplitJoin(s: string, sep: char)
    ensures var parts := Split(s, sep);
      && (forall i :: 0 <= i < |parts| ==> sep !in parts[i])
      && Join(parts, sep) == s
    decreases |s|
  {
    var k := IndexAny(s, {sep});
    IndexAnySpec(s, {sep});
    if k >= 0 {
      SplitJoin(s[k + 1..], sep);
      assert s == s[..k] + [sep] + s[k + 1..];
      var parts := Split(s, sep);
      assert parts[1..] == Split(s[k + 1..], sep);
      forall i | 0 <= i < |parts| ensures sep !in parts[i] {
        if i == 0 {
          assert forall j :: 0 <= j < k ==> s[..k][j] == s[j];
        }
      }
    }
  }

  // ---------------------------------------------------------------------
  // strconv.Atoi and fmt's %d verb, for Go's 64-bit `int`.

  const MinInt: int := -0x8000_0000_0000_0000
  const MaxInt: int := 0x7FFF_FFFF_FFFF_FFFF

  /** The two errors strconv reports: ErrSyntax and ErrRange. */
  datatype NumError = ErrSyntax | ErrRange

  predicate IsDigit(c: char)
  {
    '0' <= c <= '9'
  }

  predicate AllDigits(s: string)
  {
    forall i :: 0 <= i < |s| ==> IsDigit(s[i])
  }

  /** The value of a string of decimal digits, most significant first. */
  function DecimalValue(s: string): nat
    requires AllDigits(s)
  {
    if s == [] then 0 else DecimalValue(s[..|s| - 1]) * 10 + (s[|s| - 1] as int - '0' as int)
  }

  /** The digits after an optional leading '+' or '-'. */
  function Unsigned(s: string): string
  {
    if |s| > 0 && (s[0] == '+' || s[0] == '-') then s[1..] else s
  }

  /** The largest value strconv.ParseUint accumulates before reporting ErrRange. */
  const MaxUint64: int := 0xFFFF_FFFF_FFFF_FFFF

  /** The longest prefix of `s` made of decimal digits. */
  function DigitPrefix(s: string): (p: string)
    ensures p <= s && AllDigits(p)
    ensures |p| < |s| ==> !IsDigit(s[|p|])
  {
    if s != [] && IsDigit(s[0]) then [s[0]] + DigitPrefix(s[1..]) else []
  }

  /** The digit prefix of digits followed by a non-digit is those digits. */
  lemma {:induction false} DigitPrefixStops(p: string, rest: string)
    requires AllDigits(p) && (rest == [] || !IsDigit(rest[0]))
    ensures DigitPrefix(p + rest) == p
  {
    if p != [] {
      assert p + rest == [p[0]] + (p[1..] + rest);
      DigitPrefixStops(p[1..], rest);
    } else {
      assert p + rest == rest;
    }
  }

  /**
   * strconv.Atoi: an optional sign, then one or more decimal digits, within
   * int's range. Inputs of 19 or more characters go through ParseUint, which
   * reads the digits left to right and reports ErrRange as soon as the value
   * read so far passes 2^64-1, before it reaches a later non-digit. Shorter
   * inputs hold at most 18 digits, which never pass that bound, so one rule
   * covers both paths.
   */
  function Atoi(s: string): (r: Result<int, NumError>)
    ensures r.Success? ==> MinInt <= r.value <= MaxInt
    ensures r == Failure(ErrSyntax) <==>
      (Unsigned(s) == [] || !AllDigits(Unsigned(s))) && DecimalValue(DigitPrefix(Unsigned(s))) <= MaxUint64
    ensures r.Success? ==> AllDigits(Unsigned(s)) && (r.value < 0 ==> s[0] == '-') && (s[0] == '-' ==> r.value <= 0)
  {
    var digits := Unsigned(s);
    if DecimalValue(DigitPrefix(digits)) > MaxUint64 then Failure(ErrRange)
    else if digits == [] || !AllDigits(digits) then Failure(ErrSyntax)
    else
      var v: int := if s[0] == '-' then 0 - (DecimalValue(digits) as int) else DecimalValue(digits);
      if v < MinInt || v > MaxInt then Failure(ErrRange) else Success(v)
  }

  function Pow10(k: nat): nat
  {
    if k == 0 then 1 else 10 * Pow10(k - 1)
  }

  /** A number written with `k` digits and no leading zero is at least 10^(k-1). */
  lemma {:induction false} DecimalValueLowerBound(s: string)
    requires AllDigits(s) && |s| >= 1 && s[0] != '0'
    ensures DecimalValue(s) >= Pow10(|s| - 1)
  {
    if |s| > 1 {
      DecimalValueLowerBound(s[..|s| - 1]);
    }
  }

  /**
   * Twenty-one or more digits (no leading zero) pass 2^64-1 before ParseUint
   * reaches a following non-digit, so the result is ErrRange although the
   * text is not a number.
   */
  lemma AtoiOverflowBeforeSyntax(digits: string, rest: string)
    requires AllDigits(digits) && |digits| >= 21 && digits[0] != '0'
    requires rest != [] && !IsDigit(rest[0])
    ensures !AllDigits(digits + rest)
    ensures Atoi(digits + rest) == Failure(ErrRange)
  {
    var t := digits + rest;
    assert t[|digits|] == rest[0];
    assert Unsigned(t) == t;
    DigitPrefixStops(digits, rest);
    DecimalValueLowerBound(digits);
    Pow10Twenty();
    Pow10Grows(20, |digits| - 1);
  }

  lemma {:induction false} Pow10Grows(j: nat, k: nat)
    requires j <= k
    ensures Pow10(j) <= Pow10(k)
    decreases k
  {
    if j < k {
      Pow10Grows(j, k - 1);
    }
  }

  /** 10^20 exceeds 2^64-1. */
  lemma Pow10Twenty()
    ensures Pow10(20) > MaxUint64
  {
    assert Pow10(10) == 10000000000;
    assert Pow10(20) == 100000000000000000000;
  }

  function DigitChar(d: nat): char
    requires d < 10
  {
    ('0' as int + d) as char
  }

  /** The decimal digits of `n`, without leading zeros. */
  function NatDigits(n: nat): (s: string)
    ensures |s| >= 1 && AllDigits(s)
    ensures |s| > 1 ==> s[0] != '0'
  {
    if n < 10 then [DigitChar(n)] else NatDigits(n / 10) + [DigitChar(n % 10)]
  }

  /** fmt's %d verb: a '-' for negative numbers, then the digits of the magnitude. */
  function FormatInt(n: int): (s: string)
    ensures |s| >= 1
    ensures s[0] == '-' <==> n < 0
    ensures AllDigits(Unsigned(s))
    ensures |Unsigned(s)| > 1 ==> Unsigned(s)[0] != '0'
  {
    if n < 0 then "-" + NatDigits(-n) else NatDigits(n)
  }

  lemma {:induction false} DecimalValueOfNatDigits(n: nat)
    ensures DecimalValue(NatDigits(n)) == n
  {
    if n >= 10 {
      var prefix := NatDigits(n / 10);
      var s := prefix + [DigitChar(n % 10)];
      assert s[..|s| - 1] == prefix;
      DecimalValueOfNatDigits(n / 10);
    }
  }

  /** A sign followed by digits only reads as its signed value, or as ErrRange outside int's range. */
  lemma AtoiOfDigits(s: string)
    requires Unsigned(s) != [] && AllDigits(Unsigned(s))
    ensures var v := if s[0] == '-' then 0 - DecimalValue(Unsigned(s)) else DecimalValue(Unsigned(s));
      Atoi(s) == if MinInt <= v <= MaxInt then Success(v) else Failure(ErrRange)
  {
    DigitPrefixStops(Unsigned(s), []);
    assert Unsigned(s) + [] == Unsigned(s);
  }

  /** What %d prints, strconv.Atoi reads back: the name suffix " WxH" denotes the parsed size. */
  lemma AtoiFormatInt(n: int)
    requires MinInt <= n <= MaxInt
    ensures Atoi(FormatInt(n)) == Success(n)
  {
    var s := FormatInt(n);
    var m: nat := if n < 0 then -n else n;
    assert Unsigned(s) == NatDigits(m);
    DecimalValueOfNatDigits(m);
    AtoiOfDigits(s);
  }
}

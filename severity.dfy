/** Option type shared by the codec and the logger model. */
module Options {
  datatype Option<T> = None | Some(value: T)
}

/**
 * The severity-level codec of logger.h: the six-valued `severity_level`
 * enumeration, its name table, the stream inserter (Format) and the stream
 * extractor (Read).
 *
 * A C++ enumeration variable can hold values outside its enumerators (after a
 * cast), and the inserter handles that case, so a level is modelled as the
 * value the inserter prints for it, `static_cast<int>(lvl)`, a 32-bit `int`.
 */
module Severity {
  import opened Options

  /** The value stored in a `severity_level` variable. */
  newtype SeverityLevel = x: int | -0x8000_0000 <= x < 0x8000_0000

  const Trace: SeverityLevel := 0
  const Debug: SeverityLevel := 1
  const Info: SeverityLevel := 2
  const Warn: SeverityLevel := 3
  const Error: SeverityLevel := 4
  const Fatal: SeverityLevel := 5

  /** The enumerators in declaration order. */
  const Levels: seq<SeverityLevel> := [Trace, Debug, Info, Warn, Error, Fatal]

  /** The name table `severity_level_str`, indexed by ordinal. */
  const Names: seq<string> := ["trace", "debug", "info", "warn", "error", "fatal"]

  /** A level that names one of the six enumerators. */
  predicate IsNamed(lvl: SeverityLevel) {
    0 <= lvl < |Names| as SeverityLevel
  }

  /** The enumerators have ordinals 0..5, in severity order (filters compare ordinals). */
  lemma LevelOrder()
    ensures |Levels| == |Names| == 6
    ensures forall i :: 0 <= i < |Levels| ==> Levels[i] as int == i && IsNamed(Levels[i])
    ensures Trace < Debug < Info < Warn < Error < Fatal
  {
  }

  /** The six names are pairwise distinct: the table is a bijection onto its names. */
  lemma NamesDistinct()
    ensures forall i, j :: 0 <= i < j < |Names| ==> Names[i] != Names[j]
  {
  }

  /** Every name is non-empty and starts with a lower-case letter. */
  lemma NamesStartWithLetter()
    ensures forall i :: 0 <= i < |Names| ==> |Names[i]| > 0 && 'a' <= Names[i][0] <= 'z'
  {
  }

  // ---------------------------------------------------------------------
  // Decimal rendering of an `int`, as `strm << static_cast<int>(lvl)` does.
  // ---------------------------------------------------------------------

  predicate IsDigit(c: char) { '0' <= c <= '9' }

  function DigitChar(d: nat): (c: char)
    requires d < 10
    ensures IsDigit(c) && c as int - '0' as int == d
  {
    ('0' as int + d) as char
  }

  /** The decimal digits of `n`, most significant first, with no leading zero. */
  function NatDigits(n: nat): (s: string)
    decreases n
  {
    if n < 10 then [DigitChar(n)] else NatDigits(n / 10) + [DigitChar(n % 10)]
  }

  /** The text `operator<<(std::ostream&, int)` writes for `v`. */
  function Decimal(v: int): (s: string)
  {
    if v < 0 then "-" + NatDigits(-v) else NatDigits(v)
  }

  function DigitValue(c: char): (d: nat)
    requires IsDigit(c)
    ensures d < 10 && DigitChar(d) == c
  {
    c as int - '0' as int
  }

  /** The value of a string of decimal digits (reference reading of Decimal's output). */
  function DigitsValue(s: string): (n: nat)
    requires forall i :: 0 <= i < |s| ==> IsDigit(s[i])
  {
    if s == [] then 0
    else DigitsValue(s[..|s| - 1]) * 10 + DigitValue(s[|s| - 1])
  }

  /** Reads back an optionally signed decimal integer; the partner of Decimal. */
  function ParseDecimal(s: string): (r: Option<int>)
  {
    if |s| > 1 && s[0] == '-' && (forall i :: 1 <= i < |s| ==> IsDigit(s[i])) then
      Some(-(DigitsValue(s[1..]) as int))
    else if |s| > 0 && (forall i :: 0 <= i < |s| ==> IsDigit(s[i])) then
      Some(DigitsValue(s))
    else
      None
  }

  lemma {:induction false} NatDigitsRoundTrip(n: nat)
    ensures |NatDigits(n)| > 0
    ensures forall i :: 0 <= i < |NatDigits(n)| ==> IsDigit(NatDigits(n)[i])
    ensures DigitsValue(NatDigits(n)) == n
    ensures NatDigits(n)[0] == '0' ==> n == 0
    decreases n
  {
    if n >= 10 {
      NatDigitsRoundTrip(n / 10);
      var s := NatDigits(n);
      assert s[..|s| - 1] == NatDigits(n / 10);
      assert s[0] == NatDigits(n / 10)[0];
    }
  }

  /**
   * Decimal output is read back exactly, and it is the canonical numeral:
   * no leading zero, and none after a minus sign.
   */
  lemma DecimalRoundTrip(v: int)
    ensures |Decimal(v)| > 0
    ensures IsDigit(Decimal(v)[0]) || Decimal(v)[0] == '-'
    ensures ParseDecimal(Decimal(v)) == Some(v)
    ensures Decimal(v)[0] == '0' ==> v == 0
    ensures Decimal(v)[0] == '-' ==> |Decimal(v)| > 1 && Decimal(v)[1] != '0'
  {
    NatDigitsRoundTrip(if v < 0 then -v else v);
    if v < 0 {
      assert Decimal(v)[1..] == NatDigits(-v);
      assert Decimal(v)[1] == NatDigits(-v)[0];
    }
  }

  // ---------------------------------------------------------------------
  // operator<< : the inserter.
  // ---------------------------------------------------------------------

  /** `static_cast<std::size_t>(lvl)` on a 64-bit target: negative values wrap around. */
  function SizeT(lvl: SeverityLevel): (n: nat)
    ensures n < 0x1_0000_0000_0000_0000
  {
    (lvl as int) % 0x1_0000_0000_0000_0000
  }

  /** The bounds test of the inserter accepts exactly the six named ordinals. */
  lemma SizeTGuard(lvl: SeverityLevel)
    ensures SizeT(lvl) < |Names| <==> IsNamed(lvl)
    ensures IsNamed(lvl) ==> SizeT(lvl) == lvl as int
  {
    if lvl < 0 {
      assert SizeT(lvl) == lvl as int + 0x1_0000_0000_0000_0000;
    }
  }

  /**
   * The text `strm << lvl` appends to the stream: the level's name when the
   * value is within the table, otherwise the canonical decimal numeral of
   * the value (read back by ParseDecimal, with no leading zero).
   */
  function Format(lvl: SeverityLevel): (s: string)
    ensures IsNamed(lvl) ==> s == Names[lvl as int]
    ensures !IsNamed(lvl) ==> ParseDecimal(s) == Some(lvl as int)
    ensures !IsNamed(lvl) ==> |s| > 0 && s[0] != '0' && (s[0] == '-' ==> |s| > 1 && s[1] != '0')
  {
    SizeTGuard(lvl);
    DecimalRoundTrip(lvl as int);
    if SizeT(lvl) < |Names| then Names[SizeT(lvl)] else Decimal(lvl as int)
  }

  /** Formatting yields a table name exactly for the named levels. */
  lemma FormatIsNameIff(lvl: SeverityLevel)
    ensures Format(lvl) in Names <==> IsNamed(lvl)
  {
    if !IsNamed(lvl) {
      DecimalRoundTrip(lvl as int);
      NamesStartWithLetter();
      assert forall i :: 0 <= i < |Names| ==> Names[i][0] != Format(lvl)[0];
    }
  }

  /** Distinct levels are formatted differently (the inserter loses no information). */
  lemma FormatInjective(a: SeverityLevel, b: SeverityLevel)
    requires Format(a) == Format(b)
    ensures a == b
  {
    FormatIsNameIff(a);
    FormatIsNameIff(b);
    if IsNamed(a) {
      NamesDistinct();
    } else {
      assert Some(a as int) == ParseDecimal(Format(a)) == Some(b as int);
    }
  }

  // ---------------------------------------------------------------------
  // operator>> : the extractor.
  // ---------------------------------------------------------------------

  /** First index `i >= from` whose name equals `token`. */
  function LookupFrom(token: string, from: nat): (r: Option<nat>)
    requires from <= |Names|
    ensures r.Some? ==> from <= r.value < |Names| && Names[r.value] == token
    ensures r.Some? ==> forall j :: from <= j < r.value ==> Names[j] != token
    ensures r.None? <==> forall j :: from <= j < |Names| ==> Names[j] != token
    decreases |Names| - from
  {
    if from == |Names| then None
    else if Names[from] == token then Some(from)
    else LookupFrom(token, from + 1)
  }

  /** The table search of the extractor: the first ordinal whose name is `token`. */
  function Lookup(token: string): (r: Option<nat>)
    ensures r.Some? ==> r.value < |Names| && Names[r.value] == token
    ensures r.Some? ==> forall j :: 0 <= j < r.value ==> Names[j] != token
    ensures r.None? <==> token !in Names
  {
    LookupFrom(token, 0)
  }

  /**
   * The value `lvl` holds after `strm >> lvl`, where `good` is `strm.good()`
   * on entry and `token` is the word `strm >> level_str` extracts (empty when
   * extraction fails).
   */
  function ReadSpec(good: bool, token: string, lvl: SeverityLevel): SeverityLevel
  {
    if !good then lvl
    else match Lookup(token)
      case Some(i) => Levels[i]
      case None => lvl
  }

  /**
   * `operator>>`: a scan over the name table that stops at the first match;
   * `lvl` is assigned only on a match.
   */
  method Read(good: bool, token: string, lvl: SeverityLevel) returns (r: SeverityLevel)
    ensures r == ReadSpec(good, token, lvl)
    ensures r != lvl ==> good && IsNamed(r) && Names[r as int] == token
  {
    r := lvl;
    if good {
      var i: nat := 0;
      while i < |Names|
        invariant i <= |Names|
        invariant r == lvl
        invariant forall j :: 0 <= j < i ==> Names[j] != token
      {
        if token == Names[i] {
          r := Levels[i];
          break;
        }
        i := i + 1;
      }
    }
  }

  /** Reading back a formatted named level yields that level, whatever `lvl` held before. */
  lemma RoundTrip(lvl: SeverityLevel, previous: SeverityLevel)
    requires IsNamed(lvl)
    ensures ReadSpec(true, Format(lvl), previous) == lvl
  {
    NamesDistinct();
    LevelOrder();
  }

  /** A token that is not one of the six names leaves the target unchanged. */
  lemma ReadUnknownUnchanged(good: bool, token: string, lvl: SeverityLevel)
    requires token !in Names
    ensures ReadSpec(good, token, lvl) == lvl
  {
  }

  /** A stream that is not good on entry leaves the target unchanged. */
  lemma ReadNotGoodUnchanged(token: string, lvl: SeverityLevel)
    ensures ReadSpec(false, token, lvl) == lvl
  {
  }

  /** The decimal text written for an out-of-range level is not read back as a level. */
  lemma OutOfRangeNotReadBack(lvl: SeverityLevel, previous: SeverityLevel, good: bool)
    requires !IsNamed(lvl)
    ensures ReadSpec(good, Format(lvl), previous) == previous
  {
    FormatIsNameIff(lvl);
  }
}

// packages/core/src/decimals/index.ts, and the two USDC amount parsers of the demo
// (apps/demo/server/events.ts and apps/demo/src/catalog/depositMachine.ts).

module Decimals {
  import opened Wrappers
  import opened Text

  const MAX_CCTP_AMOUNT: nat := MAX_U64
  const STROOPS_PER_UNIT: nat := 10_000_000

  datatype AmountError = InvalidAmount

  datatype Conversion = Conversion(stellarAmount: int, dust: int)

  function Convert6to7(base6: int): Result<Conversion, AmountError> {
    if base6 <= 0 || base6 > MAX_CCTP_AMOUNT then Err(InvalidAmount) else Ok(Conversion(base6 * 10, 0))
  }

  function Convert7to6(stroops: int): Result<(int, int), AmountError> {
    if stroops <= 0 || stroops > MAX_CCTP_AMOUNT then Err(InvalidAmount) else Ok((stroops / 10, stroops % 10))
  }

  /** Converting back: nothing is lost, and it inverts the credit exactly when the stroops fit a u64. */
  lemma Convert7to6Inverts(base6: int, stroops: int)
    ensures Convert7to6(stroops).Ok? ==>
      var (cctpAmount, dust) := Convert7to6(stroops).value;
      cctpAmount * 10 + dust == stroops && 0 <= dust < 10
    ensures Convert6to7(base6).Ok? ==>
      (Convert7to6(Convert6to7(base6).value.stellarAmount) == Ok((base6, 0)) <==> base6 * 10 <= MAX_CCTP_AMOUNT)
  {
  }

  // ----- The shared decimal grammar: digits, then optionally a dot and 1..maxFrac digits

  /** Position of the first dot at or after `i`, or the length when there is none. */
  function DotFrom(s: string, i: nat): (d: nat)
    requires i <= |s|
    ensures i <= d <= |s|
    ensures forall k :: i <= k < d ==> s[k] != '.'
    ensures d < |s| ==> s[d] == '.'
    decreases |s| - i
  {
    if i == |s| || s[i] == '.' then i else DotFrom(s, i + 1)
  }

  function FindDot(s: string): nat {
    DotFrom(s, 0)
  }

  /** `/^\d+(\.\d{1,maxFrac})?$/` */
  predicate MatchesDecimal(s: string, maxFrac: nat) {
    var d := FindDot(s);
    && d > 0
    && AllDigits(s[..d])
    && (d < |s| ==> 1 <= |s| - d - 1 <= maxFrac && AllDigits(s[d + 1..]))
  }

  /** The part before the dot, as the first piece of `split('.')`. */
  function WholePart(s: string): string {
    s[..FindDot(s)]
  }

  /** The part after the dot, empty when there is none. */
  function FracPart(s: string): string {
    var d := FindDot(s);
    if d < |s| then s[d + 1..] else ""
  }

  lemma DotPosition(whole: string, frac: string)
    requires AllDigits(whole)
    ensures FindDot(whole) == |whole|
    ensures FindDot(whole + "." + frac) == |whole|
    ensures WholePart(whole + "." + frac) == whole && FracPart(whole + "." + frac) == frac
  {
    var s := whole + "." + frac;
    assert s[|whole|] == '.';
  }

  // ----- formatStellarUnits / parseStellarUnits

  /** Whole part, dot, seven fraction digits. */
  function FormatUnsigned(abs: nat): string {
    Print(abs / STROOPS_PER_UNIT) + "." + PadStart(Print(abs % STROOPS_PER_UNIT), 7)
  }

  function FormatStellarUnits(stroops: int): string {
    if stroops < 0 then "-" + FormatUnsigned(-stroops) else FormatUnsigned(stroops)
  }

  function ParseUnsignedUnits(unsigned: string): Result<nat, AmountError> {
    if !MatchesDecimal(unsigned, 7) then Err(InvalidAmount) else
      var whole, frac := WholePart(unsigned), FracPart(unsigned);
      if |whole| > 18 then Err(InvalidAmount) else
        var stroops := ToNat(whole) * STROOPS_PER_UNIT + ToNat(PadEnd(frac, 7));
        if stroops > MAX_CCTP_AMOUNT * 10 then Err(InvalidAmount) else Ok(stroops)
  }

  function ParseStellarUnits(val: string): Result<int, AmountError> {
    var trimmed := Trim(val);
    if trimmed != "" && trimmed[0] == '-' then
      match ParseUnsignedUnits(trimmed[1..])
      case Err(e) => Err(e)
      case Ok(stroops) => Ok(0 - stroops)
    else
      match ParseUnsignedUnits(trimmed)
      case Err(e) => Err(e)
      case Ok(stroops) => Ok(stroops)
  }

  lemma FractionText(n: nat)
    requires n < STROOPS_PER_UNIT
    ensures var s := PadStart(Print(n), 7); |s| == 7 && AllDigits(s) && ToNat(s) == n
  {
    PrintWidth(n, 7);
    assert Pow10(7) == STROOPS_PER_UNIT;
    ToNatLeadingZeros(7 - |Print(n)|, Print(n));
  }

  /** What the parser sees of a printed amount. */
  lemma FormatUnsignedParts(abs: nat)
    ensures var s := FormatUnsigned(abs);
      && s != "" && IsDigit(s[0]) && IsDigit(s[|s| - 1])
      && MatchesDecimal(s, 7)
      && WholePart(s) == Print(abs / STROOPS_PER_UNIT)
      && FracPart(s) == PadStart(Print(abs % STROOPS_PER_UNIT), 7) && |FracPart(s)| == 7
      && ToNat(FracPart(s)) == abs % STROOPS_PER_UNIT
  {
    var whole, frac := Print(abs / STROOPS_PER_UNIT), PadStart(Print(abs % STROOPS_PER_UNIT), 7);
    FractionText(abs % STROOPS_PER_UNIT);
    DotPosition(whole, frac);
    var s := whole + "." + frac;
    assert s[..|whole|] == whole && s[|whole| + 1..] == frac;
    assert s[0] == whole[0] && s[|s| - 1] == frac[6];
  }

  /** The 18-digit limit never bites below the value limit. */
  lemma WholeWidth(whole: nat)
    requires whole * STROOPS_PER_UNIT <= 10 * MAX_CCTP_AMOUNT
    ensures |Print(whole)| <= 18
  {
    PrintWidth(whole, 18);
    assert Pow10(9) == 1_000_000_000;
    assert Pow10(14) == 100_000_000_000_000;
    assert Pow10(18) == 1_000_000_000_000_000_000;
  }

  lemma ParseFormattedUnsigned(abs: nat)
    ensures ParseUnsignedUnits(FormatUnsigned(abs))
         == if abs <= 10 * MAX_CCTP_AMOUNT then Ok(abs) else Err(InvalidAmount)
  {
    var s := FormatUnsigned(abs);
    FormatUnsignedParts(abs);
    if abs <= 10 * MAX_CCTP_AMOUNT { WholeWidth(abs / STROOPS_PER_UNIT); }
    assert ToNat(WholePart(s)) * STROOPS_PER_UNIT + ToNat(PadEnd(FracPart(s), 7)) == abs;
  }

  /** A text that starts and ends with a digit. */
  predicate DigitEnds(u: string) {
    u != "" && IsDigit(u[0]) && IsDigit(u[|u| - 1])
  }

  /** Trimming leaves a signed or unsigned decimal text alone. */
  lemma TrimDecimal(s: string)
    requires DigitEnds(s)
    ensures Trim(s) == s && Trim("-" + s) == "-" + s && ("-" + s)[1..] == s
  {
    TrimIdentity(s);
    var t := "-" + s;
    assert t[0] == '-';
    assert t[|t| - 1] == s[|s| - 1];
    TrimIdentity(t);
  }

  /** A minus sign only negates. */
  lemma ParseSigned(u: string, v: nat)
    requires DigitEnds(u) && ParseUnsignedUnits(u) == Ok(v)
    ensures ParseStellarUnits(u) == Ok(v)
    ensures ParseStellarUnits("-" + u) == Ok(0 - v)
  {
    TrimDecimal(u);
  }

  lemma RefuseSigned(u: string)
    requires DigitEnds(u) && ParseUnsignedUnits(u).Err?
    ensures ParseStellarUnits(u).Err? && ParseStellarUnits("-" + u).Err?
  {
    TrimDecimal(u);
  }

  lemma FormattedEnds(abs: nat)
    ensures DigitEnds(FormatUnsigned(abs))
  {
    FormatUnsignedParts(abs);
  }

  lemma ParseFormatted(abs: nat)
    ensures ParseStellarUnits(FormatUnsigned(abs))
         == if abs <= 10 * MAX_CCTP_AMOUNT then Ok(abs) else Err(InvalidAmount)
    ensures ParseStellarUnits("-" + FormatUnsigned(abs))
         == if abs <= 10 * MAX_CCTP_AMOUNT then Ok(0 - abs) else Err(InvalidAmount)
  {
    FormattedEnds(abs);
    ParseFormattedUnsigned(abs);
    if abs <= 10 * MAX_CCTP_AMOUNT {
      ParseSigned(FormatUnsigned(abs), abs);
    } else {
      RefuseSigned(FormatUnsigned(abs));
    }
  }

  /**
   * Printing then parsing gives the amount back exactly for the amounts the parser
   * is meant to hold, |v| <= 10 * (2^64 - 1), and is refused for every other.
   */
  lemma FormatThenParse(v: int)
    ensures ParseStellarUnits(FormatStellarUnits(v))
         == if -10 * MAX_CCTP_AMOUNT <= v <= 10 * MAX_CCTP_AMOUNT then Ok(v) else Err(InvalidAmount)
  {
    ParseFormatted(if v < 0 then -v else v);
  }

  /** Every accepted value lies in the range that printing covers. */
  lemma ParsedInRange(s: string)
    requires ParseStellarUnits(s).Ok?
    ensures -10 * MAX_CCTP_AMOUNT <= ParseStellarUnits(s).value <= 10 * MAX_CCTP_AMOUNT
  {
  }

  /** Reprinting any accepted string gives a text that parses to the same amount. */
  lemma ReprintKeepsValue(s: string)
    requires ParseStellarUnits(s).Ok?
    ensures ParseStellarUnits(FormatStellarUnits(ParseStellarUnits(s).value)) == ParseStellarUnits(s)
  {
    ParsedInRange(s);
    FormatThenParse(ParseStellarUnits(s).value);
  }

  /**
   * The canonical texts, defined without the printer: an optional minus, a whole
   * part without a superfluous zero, a dot, seven digits, and no negative zero.
   */
  predicate Canonical(s: string) {
    var unsigned := if s != [] && s[0] == '-' then s[1..] else s;
    && CanonicalPart(unsigned)
    && (unsigned != s ==> ToNat(WholePart(unsigned)) != 0 || ToNat(FracPart(unsigned)) != 0)
  }

  lemma FormatIsCanonical(v: int)
    ensures Canonical(FormatStellarUnits(v))
  {
    var abs := if v < 0 then -v else v;
    FormatUnsignedParts(abs);
    FormattedEnds(abs);
    TrimDecimal(FormatUnsigned(abs));
  }

  lemma PartsMakeText(s: string)
    requires CanonicalPart(s)
    ensures s == WholePart(s) + "." + FracPart(s) && DigitEnds(s)
    ensures AllDigits(WholePart(s)) && WholePart(s) != "" && AllDigits(FracPart(s))
  {
    assert s[0] == WholePart(s)[0] && s[|s| - 1] == FracPart(s)[6];
  }

  /** The two halves of a number print as the two halves of its text. */
  lemma {:induction false} PrintOfParts(whole: string, frac: string)
    requires AllDigits(whole) && whole != "" && (whole[0] == '0' ==> |whole| == 1) && AllDigits(frac) && |frac| == 7
    ensures FormatUnsigned(ToNat(whole) * STROOPS_PER_UNIT + ToNat(PadEnd(frac, 7))) == whole + "." + frac
  {
    SplitValue(whole, frac);
    PrintOfToNat(whole);
    PadStartOfToNat(frac);
  }

  /** The unsigned half of the uniqueness of canonical texts. */
  lemma CanonicalUnsigned(s: string, v: nat)
    requires CanonicalPart(s) && ParseUnsignedUnits(s) == Ok(v)
    ensures FormatUnsigned(v) == s && DigitEnds(s)
  {
    PartsMakeText(s);
    PrintOfParts(WholePart(s), FracPart(s));
  }

  lemma SplitValue(whole: string, frac: string)
    requires AllDigits(whole) && AllDigits(frac) && |frac| == 7
    ensures var v := ToNat(whole) * STROOPS_PER_UNIT + ToNat(PadEnd(frac, 7));
      v / STROOPS_PER_UNIT == ToNat(whole) && v % STROOPS_PER_UNIT == ToNat(frac)
  {
    ToNatBound(frac, 7);
    assert Pow10(7) == STROOPS_PER_UNIT;
  }

  /** A canonical unsigned part. */
  predicate CanonicalPart(u: string) {
    && MatchesDecimal(u, 7) && |FracPart(u)| == 7
    && (WholePart(u)[0] == '0' ==> |WholePart(u)| == 1)
  }

  lemma UnsignedIsPrinted(u: string)
    requires CanonicalPart(u) && ParseStellarUnits(u).Ok?
    ensures FormatStellarUnits(ParseStellarUnits(u).value) == u
  {
    PartsMakeText(u);
    if ParseUnsignedUnits(u).Err? {
      RefuseSigned(u);
    } else {
      var v := ParseUnsignedUnits(u).value;
      ParseSigned(u, v);
      CanonicalUnsigned(u, v);
    }
  }

  lemma PositiveUnits(u: string, v: nat)
    requires CanonicalPart(u) && ParseUnsignedUnits(u) == Ok(v)
    requires ToNat(WholePart(u)) != 0 || ToNat(FracPart(u)) != 0
    ensures v > 0
  {
    SplitValue(WholePart(u), FracPart(u));
  }

  lemma MinusPrinted(v: nat)
    requires v > 0
    ensures FormatStellarUnits(0 - v) == "-" + FormatUnsigned(v)
  {
  }

  lemma NegativeIsPrinted(u: string)
    requires CanonicalPart(u) && ParseStellarUnits("-" + u).Ok?
    requires ToNat(WholePart(u)) != 0 || ToNat(FracPart(u)) != 0
    ensures FormatStellarUnits(ParseStellarUnits("-" + u).value) == "-" + u
  {
    PartsMakeText(u);
    if ParseUnsignedUnits(u).Err? {
      RefuseSigned(u);
    } else {
      var v := ParseUnsignedUnits(u).value;
      ParseSigned(u, v);
      CanonicalUnsigned(u, v);
      PositiveUnits(u, v);
      MinusPrinted(v);
    }
  }

  /** The printer is the only source of canonical texts: parsing one and printing restores it. */
  lemma CanonicalIsPrinted(s: string)
    requires Canonical(s) && ParseStellarUnits(s).Ok?
    ensures FormatStellarUnits(ParseStellarUnits(s).value) == s
  {
    if s[0] == '-' {
      assert s == "-" + s[1..];
      NegativeIsPrinted(s[1..]);
    } else {
      UnsignedIsPrinted(s);
    }
  }
}

module UsdcAmount {
  import opened Wrappers
  import opened Text
  import opened Decimals

  const BASE6: nat := 1_000_000

  /** events.ts: `(f + '000000').slice(0, 6)` pads the fraction. */
  function ParseAmountBase6(s: string): Result<nat, AmountError> {
    var t := Trim(s);
    if !MatchesDecimal(t, 6) then Err(InvalidAmount) else
      var padded := FracPart(t) + "000000";
      var v := ToNat(WholePart(t)) * BASE6 + ToNat(padded[..6]);
      if v <= 0 || v > MAX_U64 then Err(InvalidAmount) else Ok(v)
  }

  /** depositMachine.ts: an emptiness test first, `padEnd(6, '0')` pads the fraction. */
  function ParseUsdcBase6(raw: string): Result<nat, AmountError> {
    var trimmed := Trim(raw);
    if trimmed == "" then Err(InvalidAmount)
    else if !MatchesDecimal(trimmed, 6) then Err(InvalidAmount)
    else
      var v := ToNat(WholePart(trimmed)) * BASE6 + ToNat(PadEnd(FracPart(trimmed), 6));
      if v <= 0 then Err(InvalidAmount)
      else if v > MAX_CCTP_AMOUNT then Err(InvalidAmount)
      else Ok(v)
  }

  lemma PaddingsAgree(f: string)
    requires |f| <= 6
    ensures (f + "000000")[..6] == PadEnd(f, 6)
  {
  }

  /** Client and server accept exactly the same strings, with the same value. */
  lemma ParsersAgree(s: string)
    ensures ParseAmountBase6(s) == ParseUsdcBase6(s)
  {
    if MatchesDecimal(Trim(s), 6) {
      PaddingsAgree(FracPart(Trim(s)));
    }
  }

  /** An amount in base units as decimal text. */
  function AmountText(base6: nat): string {
    Print(base6 / BASE6) + "." + PadStart(Print(base6 % BASE6), 6)
  }

  lemma SixDigits(n: nat)
    requires n < BASE6
    ensures var s := PadStart(Print(n), 6); |s| == 6 && AllDigits(s) && ToNat(s) == n
  {
    PrintWidth(n, 6);
    assert Pow10(6) == BASE6;
    ToNatLeadingZeros(6 - |Print(n)|, Print(n));
  }

  lemma DecimalParts(whole: string, frac: string)
    requires AllDigits(whole) && whole != "" && AllDigits(frac) && 1 <= |frac| <= 6
    ensures var t := whole + "." + frac;
      Trim(t) == t && MatchesDecimal(t, 6) && WholePart(t) == whole && FracPart(t) == frac
  {
    var t := whole + "." + frac;
    DotPosition(whole, frac);
    assert t[..|whole|] == whole && t[|whole| + 1..] == frac;
    assert t[0] == whole[0] && t[|t| - 1] == frac[|frac| - 1];
    TrimIdentity(t);
  }

  /** Every amount that a request can carry has a text. */
  lemma ParseAmountText(base6: nat)
    requires 0 < base6 <= MAX_U64
    ensures ParseAmountBase6(AmountText(base6)) == Ok(base6)
  {
    var frac := PadStart(Print(base6 % BASE6), 6);
    SixDigits(base6 % BASE6);
    DecimalParts(Print(base6 / BASE6), frac);
    assert (frac + "000000")[..6] == frac;
  }

  /**
   * An accepted USDC amount, converted to stroops, is what the Stellar parser reads
   * from the same text; the Stellar parser refuses it exactly when the whole part
   * has more than 18 digits (leading zeros).
   */
  lemma StellarReadsTheSameAmount(s: string)
    requires ParseAmountBase6(s).Ok?
    ensures Convert6to7(ParseAmountBase6(s).value).Ok?
    ensures ParseStellarUnits(s)
         == if |WholePart(Trim(s))| <= 18
            then Ok(Convert6to7(ParseAmountBase6(s).value).value.stellarAmount)
            else Err(InvalidAmount)
  {
    var t := Trim(s);
    var frac := FracPart(t);
    PaddingsAgree(frac);
    assert t[0] == WholePart(t)[0];
    assert MatchesDecimal(t, 7);
    assert PadEnd(frac, 7) == PadEnd(frac, 6) + "0" by {
      assert Zeros(7 - |frac|) == Zeros(6 - |frac|) + "0";
    }
    ToNatAppend(PadEnd(frac, 6), '0');
  }
}

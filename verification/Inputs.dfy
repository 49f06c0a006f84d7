// What the validators of a request and of an attestation accept, told by the texts and the
// fields that a caller sends (apps/demo/server/events.ts, apps/demo/server/handlers.ts,
// packages/core/src/receive.ts).

module Inputs {
  import opened Wrappers
  import opened Text
  import opened Transfers
  import opened Decimals
  import opened UsdcAmount
  import opened BurnHash
  import opened CctpMessage
  import opened Intents
  import opened SettleRules
  import Domains
  import Deposit

  // ----- Amounts

  /** Digits, and perhaps a dot and at most maxFrac further digits. */
  ghost predicate Decimal(t: string, whole: string, frac: string, maxFrac: nat) {
    && AllDigits(whole) && whole != "" && AllDigits(frac) && |frac| <= maxFrac
    && (t == if frac == "" then whole else whole + "." + frac)
  }

  /** What the parsers read from a text: the digits before and behind the dot. */
  function Parts(t: string, maxFrac: nat): Option<(string, string)> {
    if MatchesDecimal(t, maxFrac) then Some((WholePart(t), FracPart(t))) else None
  }

  lemma WholeMatches(whole: string, maxFrac: nat)
    requires AllDigits(whole) && whole != ""
    ensures MatchesDecimal(whole, maxFrac) && WholePart(whole) == whole && FracPart(whole) == ""
  {
    DotPosition(whole, "");
    assert whole[..|whole|] == whole;
  }

  lemma DottedMatches(whole: string, frac: string, maxFrac: nat)
    requires AllDigits(whole) && whole != "" && AllDigits(frac) && 1 <= |frac| <= maxFrac
    ensures var t := whole + "." + frac;
      MatchesDecimal(t, maxFrac) && WholePart(t) == whole && FracPart(t) == frac
  {
    var t := whole + "." + frac;
    DotPosition(whole, frac);
    assert t[..|whole|] == whole && t[|whole| + 1..] == frac;
  }

  lemma DecimalParts(t: string, whole: string, frac: string, maxFrac: nat)
    requires Decimal(t, whole, frac, maxFrac)
    ensures Parts(t, maxFrac) == Some((whole, frac))
  {
    if frac == "" { WholeMatches(whole, maxFrac); } else { DottedMatches(whole, frac, maxFrac); }
  }

  /** The number that digits behind a dot stand for in k places: ten times as much for each place that is missing. */
  function InPlaces(frac: string, k: nat): nat
    requires AllDigits(frac)
  {
    if k <= |frac| then ToNat(frac) else 10 * InPlaces(frac, k - 1)
  }

  /** The amount that a text stands for in millionths. */
  function Millionths(whole: string, frac: string): nat
    requires AllDigits(whole) && AllDigits(frac) && |frac| <= 6
  {
    ToNat(whole) * 1_000_000 + InPlaces(frac, 6)
  }

  lemma PadIsZeros(frac: string)
    requires |frac| <= 6
    ensures (frac + "000000")[..6] == frac + Zeros(6 - |frac|) && PadEnd(frac, 6) == frac + Zeros(6 - |frac|)
  {
  }

  lemma {:induction false} PaddedFraction(frac: string, k: nat)
    requires AllDigits(frac) && |frac| <= k
    ensures var padded := frac + Zeros(k - |frac|); AllDigits(padded) && ToNat(padded) == InPlaces(frac, k)
  {
    if k == |frac| {
      assert frac + Zeros(0) == frac;
    } else {
      PaddedFraction(frac, k - 1);
      assert frac + Zeros(k - |frac|) == frac + Zeros(k - 1 - |frac|) + ['0'];
      ToNatAppend(frac + Zeros(k - 1 - |frac|), '0');
    }
  }

  lemma AmountOfDecimal(s: string, whole: string, frac: string)
    requires Decimal(Trim(s), whole, frac, 6)
    ensures var v := Millionths(whole, frac);
      ParseAmountBase6(s) == if 0 < v <= 0xFFFF_FFFF_FFFF_FFFF then Ok(v) else Err(InvalidAmount)
  {
    PaddedFraction(frac, 6);
    DecimalParts(Trim(s), whole, frac, 6);
    AmountOfParts(s, whole, frac);
  }

  lemma AmountOfParts(s: string, whole: string, frac: string)
    requires AllDigits(whole) && AllDigits(frac) && |frac| <= 6
    requires Parts(Trim(s), 6) == Some((whole, frac))
    requires var padded := frac + Zeros(6 - |frac|); AllDigits(padded) && ToNat(padded) == InPlaces(frac, 6)
    ensures var v := Millionths(whole, frac);
      ParseAmountBase6(s) == if 0 < v <= 0xFFFF_FFFF_FFFF_FFFF then Ok(v) else Err(InvalidAmount)
  {
    PadIsZeros(frac);
  }

  lemma MatchingIsDecimal(t: string, maxFrac: nat)
    requires MatchesDecimal(t, maxFrac)
    ensures Decimal(t, WholePart(t), FracPart(t), maxFrac)
  {
    var d := FindDot(t);
    if d < |t| {
      assert t == t[..d] + "." + t[d + 1..];
    } else {
      assert t[..d] == t;
    }
  }

  /** A text is an amount if and only if, trimmed, it is a decimal of at most six places worth a positive u64. */
  lemma AmountIff(s: string, v: nat)
    ensures ParseAmountBase6(s) == Ok(v) <==>
      0 < v <= 0xFFFF_FFFF_FFFF_FFFF && exists whole, frac ::
        Decimal(Trim(s), whole, frac, 6) && v == Millionths(whole, frac)
  {
    if ParseAmountBase6(s) == Ok(v) {
      MatchingIsDecimal(Trim(s), 6);
      AmountOfDecimal(s, WholePart(Trim(s)), FracPart(Trim(s)));
    }
    if whole, frac :| Decimal(Trim(s), whole, frac, 6) && v == Millionths(whole, frac) {
      AmountOfDecimal(s, whole, frac);
    }
  }

  lemma RateOfDecimal(s: string, whole: string, frac: string)
    requires Decimal(Trim(s), whole, frac, 6)
    ensures Deposit.Scale6(s) == Some(Millionths(whole, frac))
  {
    PaddedFraction(frac, 6);
    DecimalParts(Trim(s), whole, frac, 6);
    RateOfParts(s, whole, frac);
  }

  lemma RateOfParts(s: string, whole: string, frac: string)
    requires AllDigits(whole) && AllDigits(frac) && |frac| <= 6
    requires Parts(Trim(s), 6) == Some((whole, frac))
    requires var padded := frac + Zeros(6 - |frac|); AllDigits(padded) && ToNat(padded) == InPlaces(frac, 6)
    ensures Deposit.Scale6(s) == Some(Millionths(whole, frac))
  {
    PadIsZeros(frac);
  }

  /** A text is a rate in millionths in the same way, zero and any size included. */
  lemma RateIff(s: string, v: nat)
    ensures Deposit.Scale6(s) == Some(v) <==>
      exists whole, frac :: Decimal(Trim(s), whole, frac, 6) && v == Millionths(whole, frac)
  {
    if Deposit.Scale6(s) == Some(v) {
      MatchingIsDecimal(Trim(s), 6);
      RateOfDecimal(s, WholePart(Trim(s)), FracPart(Trim(s)));
    }
    if whole, frac :| Decimal(Trim(s), whole, frac, 6) && v == Millionths(whole, frac) {
      RateOfDecimal(s, whole, frac);
    }
  }

  // ----- Hashes

  predicate HexDigits(d: string) {
    forall i :: 0 <= i < |d| ==> '0' <= d[i] <= '9' || 'a' <= d[i] <= 'f' || 'A' <= d[i] <= 'F'
  }

  /** The same digits in lower case. */
  predicate LowerOf(low: string, d: string) {
    && |low| == |d|
    && forall i :: 0 <= i < |d| ==> low[i] == if 'A' <= d[i] <= 'F' then d[i] - 'A' + 'a' else d[i]
  }

  /** The prefix in either case, and 64 hexadecimal digits. */
  predicate HashText(t: string, digits: string) {
    |digits| == 64 && HexDigits(digits) && (t == "0x" + digits || t == "0X" + digits)
  }

  lemma HashOfText(raw: string, digits: string)
    requires HashText(Trim(raw), digits)
    ensures ParseHash(raw).Some? && |ParseHash(raw).value| == 66 && ParseHash(raw).value[..2] == "0x"
      && LowerOf(ParseHash(raw).value[2..], digits)
  {
    var t := Trim(raw);
    var u := PreNormalize(raw);
    assert t[2..] == digits && |t| == 66;
    assert u == "0x" + digits;
    assert !IsSpace(u[0]) by { assert u[0] == '0'; }
    assert u[65] == digits[63];
    TrimIdentity(u);
    assert u[..2] == "0x" && u[2..] == digits;
    forall i | 2 <= i < 66 ensures IsHex(u[i]) { assert u[i] == digits[i - 2]; }
    assert ("0x" + Lower(digits))[2..] == Lower(digits);
  }

  lemma TextOfHash(raw: string)
    requires ParseHash(raw).Some?
    ensures |Trim(raw)| >= 2 && HashText(Trim(raw), Trim(raw)[2..])
  {
    var t, u := Trim(raw), PreNormalize(raw);
    TrimTwice(raw);
    if "0X" <= t {
      assert t == "0X" + t[2..];
      PrefixedTrim(t);
      assert u[2..] == t[2..];
    } else {
      assert u == t && t == t[..2] + t[2..];
    }
    forall i | 0 <= i < |t[2..]| ensures IsHex(t[2..][i]) { assert t[2..][i] == u[i + 2]; }
  }

  /** Changing the case of the prefix does not open white space at an end. */
  lemma PrefixedTrim(t: string)
    requires "0X" <= t && Trim(t) == t
    ensures Trim("0x" + t[2..]) == "0x" + t[2..]
  {
    var pad, pad' := TrimParts(t);
    var u := "0x" + t[2..];
    assert u[0] == '0';
    assert u[|u| - 1] == if |t| == 2 then 'x' else t[|t| - 1];
    TrimIdentity(u);
  }

  /** A text is a burn hash if and only if, trimmed, it is a prefix and 64 digits; its value has them in lower case. */
  lemma HashIff(raw: string, h: string)
    ensures ParseHash(raw) == Some(h) <==>
      exists digits :: HashText(Trim(raw), digits) && |h| == 66 && h[..2] == "0x" && LowerOf(h[2..], digits)
  {
    if ParseHash(raw) == Some(h) {
      TextOfHash(raw);
      HashOfText(raw, Trim(raw)[2..]);
      assert HashText(Trim(raw), Trim(raw)[2..]);
    }
    if digits :| HashText(Trim(raw), digits) && |h| == 66 && h[..2] == "0x" && LowerOf(h[2..], digits) {
      HashOfText(raw, digits);
      var g := ParseHash(raw).value;
      assert g[2..] == h[2..];
      assert g == g[..2] + g[2..] && h == h[..2] + h[2..];
    }
  }

  // ----- Attestations

  /** White space around a prefix and at least n hexadecimal digits. */
  ghost predicate HexText(t: string, n: nat) {
    exists pad, digits, pad' :: t == pad + ("0x" + digits) + pad'
      && AllSpace(pad) && AllSpace(pad') && HexDigits(digits) && |digits| >= n
  }

  lemma PrefixedDigits(digits: string, n: nat)
    requires HexDigits(digits) && |digits| >= n >= 1
    ensures Tight("0x" + digits) && HexShape("0x" + digits, n)
  {
    var u := "0x" + digits;
    assert u[0] == '0' && u[|u| - 1] == digits[|digits| - 1];
    assert u[..2] == "0x";
    forall i | 2 <= i < |u| ensures IsHex(u[i]) { assert u[i] == digits[i - 2]; }
  }

  lemma DigitsOfShape(u: string, n: nat)
    requires HexShape(u, n)
    ensures u == "0x" + u[2..] && HexDigits(u[2..]) && |u[2..]| >= n
  {
    forall i | 0 <= i < |u[2..]| ensures IsHex(u[2..][i]) { assert u[2..][i] == u[i + 2]; }
  }

  lemma HexTextIff(t: string, n: nat)
    requires n >= 1
    ensures t != "" && HexShape(Trim(t), n) <==> HexText(t, n)
  {
    if HexText(t, n) {
      var pad, digits, pad' :| t == pad + ("0x" + digits) + pad'
        && AllSpace(pad) && AllSpace(pad') && HexDigits(digits) && |digits| >= n;
      PrefixedDigits(digits, n);
      TrimPadded(pad, "0x" + digits, pad');
    }
    if t != "" && HexShape(Trim(t), n) {
      var pad, pad' := TrimParts(t);
      DigitsOfShape(Trim(t), n);
      assert t == pad + ("0x" + Trim(t)[2..]) + pad';
    }
  }

  /** What receive() reads from an attested message: long enough, both texts hexadecimal, and these two fields. */
  ghost predicate Attests(message: string, signature: string, amount: nat, fee: nat) {
    && HexText(message, 64) && HexText(signature, 130)
    && var bytes := MessageBytes(message);
      |bytes| >= 344 && BigEndian(bytes[216..248]) == amount && BigEndian(bytes[312..344]) == fee
  }

  lemma ReadsFields(message: string)
    ensures var bytes := MessageBytes(message);
      ParseTransferAmounts(message) ==
        if |bytes| < 344 then Err(TooShort)
        else Ok(Amounts(BigEndian(bytes[216..248]), BigEndian(bytes[312..344])))
  {
    var bytes := MessageBytes(message);
    if |bytes| >= 344 {
      HexIsBigEndian(bytes[216..248]);
      HexIsBigEndian(bytes[312..344]);
    }
  }

  lemma AttestationErrors(gross: nat, message: string, signature: string)
    ensures var a := AttestedAmounts(gross, message, signature); a.Err? ==> a.error == BadInput || a.error == OtherError
  {
  }

  /**
   * An attestation is good for a gross amount if and only if both texts are hexadecimal,
   * 64 and 130 digits long at least, and the message holds that amount; the fee is then the
   * message's. Another amount is the caller's fault; everything else is not.
   */
  lemma AttestationIff(gross: nat, message: string, signature: string)
    ensures forall fee: nat ::
      AttestedAmounts(gross, message, signature) == Ok(Amounts(gross, fee)) <==> Attests(message, signature, gross, fee)
    ensures AttestedAmounts(gross, message, signature).Ok?
      <==> exists fee: nat :: Attests(message, signature, gross, fee)
    ensures AttestedAmounts(gross, message, signature) == Err(BadInput)
      <==> exists amount: nat, fee: nat :: amount != gross && Attests(message, signature, amount, fee)
    ensures AttestedAmounts(gross, message, signature) == Err(OtherError)
      <==> forall amount: nat, fee: nat :: !Attests(message, signature, amount, fee)
  {
    HexTextIff(message, 64);
    HexTextIff(signature, 130);
    ReadsFields(message);
    AttestationErrors(gross, message, signature);
    var bytes := MessageBytes(message);
    if HexText(message, 64) && HexText(signature, 130) && |bytes| >= 344 {
      assert Attests(message, signature, BigEndian(bytes[216..248]), BigEndian(bytes[312..344]));
    }
  }

  // ----- Requests

  /** An address that can be paid. */
  predicate Payable(env: Env, address: string) {
    address != "" && (env.isAccount(address) || env.isContract(address))
  }

  /** The three texts that name a transfer, and what they name. */
  predicate Names(env: Env, address: string, burnTxHash: string, amount: string, p: Params) {
    && Payable(env, Trim(address)) && p.address == Trim(address)
    && ParseHash(burnTxHash) == Some(p.hash) && ParseAmountBase6(amount) == Ok(p.amount)
  }

  lemma EventParamsIff(env: Env, address: string, burnTxHash: string, amount: string, sourceDomain: Option<int>,
    p: Params)
    ensures ValidateEventParams(env, address, burnTxHash, amount, sourceDomain) == Some(p) <==>
      Names(env, address, burnTxHash, amount, p) && sourceDomain == Some(p.sourceDomain)
        && Domains.IsSupported(p.sourceDomain)
  {
  }

  /** A settle body is a request if and only if each of its fields is good, and the request has these fields. */
  lemma SettleIff(env: Env, i: SettleInput, q: SettleRequest)
    ensures ValidateSettle(env, i) == Some(q) <==>
      && Names(env, i.address, i.burnTxHash, i.amount, q.params)
      && i.sourceDomain == Some(6) && q.params.sourceDomain == 6
      && i.mode == Some(q.mode) && Trim(i.intentId) != "" && q.intentId == Trim(i.intentId)
  {
  }

  /** A status query needs the three texts only, and looks at the EVM domain. */
  lemma StatusIff(env: Env, i: StatusInput)
    ensures ValidateStatus(env, i).Some? <==> exists p :: Names(env, i.address, i.burnTxHash, i.amount, p)
    ensures ValidateStatus(env, i).Some? ==>
      var p := ValidateStatus(env, i).value.params;
      Names(env, i.address, i.burnTxHash, i.amount, p) && p.sourceDomain == 6
  {
    var h, n := ParseHash(i.burnTxHash), ParseAmountBase6(i.amount);
    if h.Some? && n.Ok? && Payable(env, Trim(i.address)) {
      assert Names(env, i.address, i.burnTxHash, i.amount, Params(Trim(i.address), h.value, n.value, 6));
    }
  }

  /** The cap on the fast fee: none for an empty text, or else its amount, which is at most the gross amount. */
  predicate CapText(maxFee: string, amount: nat, cap: Option<string>) {
    if maxFee == "" then cap == None
    else
      && ParseAmountBase6(maxFee).Ok? && ParseAmountBase6(maxFee).value <= amount
      && cap == Some(Print(ParseAmountBase6(maxFee).value))
  }

  /** What an accepted initiate stores. */
  predicate Stores(env: Env, i: InitiateInput, intentId: string, now: int, stored: Intent) {
    && Payable(env, Trim(i.address)) && stored.address == Trim(i.address)
    && ParseHash(i.burnTxHash) == Some(stored.burnTxHash)
    && ParseAmountBase6(i.amount).Ok? && stored.amount == Print(ParseAmountBase6(i.amount).value)
    && CapText(i.maxFee, ParseAmountBase6(i.amount).value, stored.maxFee)
    && i.sourceDomain == Some(6) && stored.sourceDomain == 6 && i.mode == Some(stored.transferMode)
    && stored.intentId == intentId && stored.createdAt == now
  }

  lemma AcceptedStores(env: Env, i: InitiateInput, intentId: string, now: int)
    requires InitiateIntent(env, i, intentId, now).Some?
    ensures Stores(env, i, intentId, now, InitiateIntent(env, i, intentId, now).value)
  {
    var p := ValidateEventParams(env, i.address, i.burnTxHash, i.amount, i.sourceDomain).value;
    EventParamsIff(env, i.address, i.burnTxHash, i.amount, i.sourceDomain, p);
  }

  lemma StoredIsAccepted(env: Env, i: InitiateInput, intentId: string, now: int, stored: Intent)
    requires Stores(env, i, intentId, now, stored)
    ensures InitiateIntent(env, i, intentId, now) == Some(stored)
  {
    var p := Params(stored.address, stored.burnTxHash, ParseAmountBase6(i.amount).value, 6);
    EventParamsIff(env, i.address, i.burnTxHash, i.amount, i.sourceDomain, p);
  }

  /** An initiate is accepted if and only if each of its fields is good, and the intent has these fields. */
  lemma InitiateIff(env: Env, i: InitiateInput, intentId: string, now: int, stored: Intent)
    ensures InitiateIntent(env, i, intentId, now) == Some(stored) <==> Stores(env, i, intentId, now, stored)
  {
    if InitiateIntent(env, i, intentId, now).Some? { AcceptedStores(env, i, intentId, now); }
    if Stores(env, i, intentId, now, stored) { StoredIsAccepted(env, i, intentId, now, stored); }
  }

  /** And it is refused if and only if one of them is not. */
  lemma InitiateRefusedIff(env: Env, i: InitiateInput, intentId: string, now: int)
    ensures InitiateIntent(env, i, intentId, now).None? <==>
      || !Payable(env, Trim(i.address)) || ParseHash(i.burnTxHash).None? || ParseAmountBase6(i.amount).Err?
      || i.sourceDomain != Some(6) || i.mode.None?
      || (i.maxFee != "" && (ParseAmountBase6(i.maxFee).Err?
            || ParseAmountBase6(i.maxFee).value > ParseAmountBase6(i.amount).value))
  {
  }

  /** An intent lets a request pass iff it has its address, amount and mode, the EVM domain, and the cap holds. */
  lemma PassesIff(env: Env, i: Intent, q: SettleRequest, amount: nat)
    requires i.amount == Print(amount)
    ensures IntentRefusal(env, i, q).None? <==>
      && i.address == q.params.address && amount == q.params.amount && i.transferMode == q.mode && i.sourceDomain == 6
      && (env.maxMintBase6.Some? ==> q.params.amount <= env.maxMintBase6.value)
    ensures IntentRefusal(env, i, q) == Some(Refused(403, AddressMismatch)) <==>
      i.address != q.params.address || amount != q.params.amount || i.transferMode != q.mode
    ensures IntentRefusal(env, i, q) == Some(Refused(400, AmountTooLarge)) <==>
      && i.address == q.params.address && amount == q.params.amount && i.transferMode == q.mode && i.sourceDomain == 6
      && env.maxMintBase6.Some? && q.params.amount > env.maxMintBase6.value
  {
    assert ToNat(Print(amount)) == amount && ToNat(Print(q.params.amount)) == q.params.amount;
  }
}

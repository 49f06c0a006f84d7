// packages/core/src/cctp-message.ts: the two uint256 fields of a CCTP v2 message,
// and what receive() credits from them (packages/core/src/receive.ts).

module CctpMessage {
  import opened Wrappers
  import opened Decimals

  type byte = n: int | 0 <= n < 256

  const AMOUNT_ABS: nat := 216
  const FEE_ABS: nat := 312
  const UINT256_BYTES: nat := 32

  datatype MessageError = TooShort

  // ----- Hex text, as Node's Buffer reads and writes it

  predicate IsHex(c: char) {
    '0' <= c <= '9' || 'a' <= c <= 'f' || 'A' <= c <= 'F'
  }

  function HexValue(c: char): (v: nat)
    requires IsHex(c)
    ensures v < 16
  {
    if c <= '9' then (c - '0') as nat
    else if c <= 'F' then (c - 'A') as nat + 10
    else (c - 'a') as nat + 10
  }

  function HexChar(v: nat): (c: char)
    requires v < 16
    ensures IsHex(c) && HexValue(c) == v
  {
    if v < 10 then '0' + v as char else 'a' + (v - 10) as char
  }

  /** `Buffer.from(hex, 'hex')`: decoding stops at the first pair that is not hexadecimal. */
  function HexToBytes(hex: string): (b: seq<byte>)
    ensures |b| <= |hex| / 2
  {
    if |hex| < 2 || !IsHex(hex[0]) || !IsHex(hex[1]) then []
    else [HexValue(hex[0]) * 16 + HexValue(hex[1])] + HexToBytes(hex[2..])
  }

  /** `toString('hex')` */
  function BytesToHex(b: seq<byte>): (hex: string)
    ensures |hex| == 2 * |b|
    ensures forall i :: 0 <= i < |hex| ==> IsHex(hex[i])
  {
    if b == [] then "" else [HexChar(b[0] / 16), HexChar(b[0] % 16)] + BytesToHex(b[1..])
  }

  /** `BigInt('0x' + hex)`, with the empty text read as zero. */
  function HexToNat(hex: string): nat
    requires forall i :: 0 <= i < |hex| ==> IsHex(hex[i])
  {
    if hex == "" then 0 else HexToNat(hex[..|hex| - 1]) * 16 + HexValue(hex[|hex| - 1])
  }

  // ----- Big-endian integers, defined on bytes alone

  function Pow256(k: nat): (p: nat)
    ensures p > 0
  {
    if k == 0 then 1 else 256 * Pow256(k - 1)
  }

  function BigEndian(b: seq<byte>): (n: nat)
    ensures n < Pow256(|b|)
  {
    if b == [] then 0 else BigEndian(b[..|b| - 1]) * 256 + b[|b| - 1]
  }

  function EncodeBigEndian(n: nat, width: nat): (b: seq<byte>)
    requires n < Pow256(width)
    ensures |b| == width
    ensures BigEndian(b) == n
  {
    if width == 0 then [] else
      var b := EncodeBigEndian(n / 256, width - 1) + [n % 256];
      assert b[..width - 1] == EncodeBigEndian(n / 256, width - 1);
      b
  }

  lemma DivMod256(q: nat, r: byte)
    ensures (q * 256 + r) / 256 == q && (q * 256 + r) % 256 == r
  {
  }

  /** Encoding inverts decoding, so a field holds one integer and an integer has one field. */
  lemma {:induction false} EncodeOfDecode(b: seq<byte>)
    ensures EncodeBigEndian(BigEndian(b), |b|) == b
  {
    if b != [] {
      var front := b[..|b| - 1];
      EncodeOfDecode(front);
      DivMod256(BigEndian(front), b[|b| - 1]);
      assert b == front + [b[|b| - 1]];
    }
  }

  lemma {:induction false} HexSnoc(b: seq<byte>, last: byte)
    ensures BytesToHex(b + [last]) == BytesToHex(b) + [HexChar(last / 16), HexChar(last % 16)]
  {
    if b == [] {
      assert [] + [last] == [last] && [last][1..] == [];
    } else {
      HexSnoc(b[1..], last);
      assert (b + [last])[1..] == b[1..] + [last];
    }
  }

  /** Reading the hexadecimal text of a slice is reading the slice big-endian. */
  lemma {:induction false} HexIsBigEndian(b: seq<byte>)
    ensures HexToNat(BytesToHex(b)) == BigEndian(b)
  {
    if b != [] {
      var front, last := b[..|b| - 1], b[|b| - 1];
      assert b == front + [last];
      HexIsBigEndian(front);
      HexSnoc(front, last);
      var hex := BytesToHex(b);
      assert hex[..|hex| - 1] == BytesToHex(front) + [HexChar(last / 16)];
      assert (BytesToHex(front) + [HexChar(last / 16)])[..2 * |front|] == BytesToHex(front);
    }
  }

  /** Text decoding inverts text encoding, whatever follows the encoded bytes. */
  lemma {:induction false} HexRoundTrip(b: seq<byte>)
    ensures HexToBytes(BytesToHex(b)) == b
  {
    if b != [] {
      HexRoundTrip(b[1..]);
      assert BytesToHex(b)[2..] == BytesToHex(b[1..]);
      assert b == [b[0]] + b[1..];
    }
  }

  // ----- parseTransferAmounts

  datatype Amounts = Amounts(amount: nat, feeExecuted: nat)

  function MessageBytes(messageHex: string): seq<byte> {
    HexToBytes(if "0x" <= messageHex then messageHex[2..] else messageHex)
  }

  function U256At(bytes: seq<byte>, abs: nat): nat
    requires abs + UINT256_BYTES <= |bytes|
  {
    HexToNat(BytesToHex(bytes[abs..abs + UINT256_BYTES]))
  }

  function ParseTransferAmounts(messageHex: string): Result<Amounts, MessageError> {
    var bytes := MessageBytes(messageHex);
    if |bytes| < FEE_ABS + UINT256_BYTES then Err(TooShort)
    else Ok(Amounts(U256At(bytes, AMOUNT_ABS), U256At(bytes, FEE_ABS)))
  }

  /** A message text around two integers: header, amount, middle part, fee, rest. */
  function BuildMessage(head: seq<byte>, amount: nat, middle: seq<byte>, fee: nat, rest: seq<byte>,
    prefixed: bool): string
    requires amount < Pow256(UINT256_BYTES) && fee < Pow256(UINT256_BYTES)
  {
    (if prefixed then "0x" else "")
    + BytesToHex(head + EncodeBigEndian(amount, UINT256_BYTES) + middle + EncodeBigEndian(fee, UINT256_BYTES) + rest)
  }

  /** Both prefixes lead to the same bytes: an encoded byte string never starts with `0x`. */
  lemma PrefixIsOptional(b: seq<byte>)
    ensures MessageBytes("0x" + BytesToHex(b)) == b && MessageBytes(BytesToHex(b)) == b
  {
    HexRoundTrip(b);
    var hex := BytesToHex(b);
    assert ("0x" + hex)[2..] == hex;
    assert !IsHex("0x"[1]);
  }

  lemma FieldAt(before: seq<byte>, field: seq<byte>, after: seq<byte>)
    ensures (before + field + after)[|before|..|before| + |field|] == field
  {
  }

  lemma BuildIsBytes(head: seq<byte>, amount: nat, middle: seq<byte>, fee: nat, rest: seq<byte>, prefixed: bool)
    requires amount < Pow256(UINT256_BYTES) && fee < Pow256(UINT256_BYTES)
    ensures MessageBytes(BuildMessage(head, amount, middle, fee, rest, prefixed))
         == head + EncodeBigEndian(amount, UINT256_BYTES) + middle + EncodeBigEndian(fee, UINT256_BYTES) + rest
  {
    var bytes := head + EncodeBigEndian(amount, UINT256_BYTES) + middle + EncodeBigEndian(fee, UINT256_BYTES) + rest;
    PrefixIsOptional(bytes);
    assert "" + BytesToHex(bytes) == BytesToHex(bytes);
  }

  lemma ParseFields(m: string, head: seq<byte>, a: seq<byte>, middle: seq<byte>, f: seq<byte>, rest: seq<byte>)
    requires |head| == AMOUNT_ABS && |middle| == FEE_ABS - AMOUNT_ABS - UINT256_BYTES
    requires |a| == UINT256_BYTES && |f| == UINT256_BYTES && MessageBytes(m) == head + a + middle + f + rest
    ensures ParseTransferAmounts(m) == Ok(Amounts(HexToNat(BytesToHex(a)), HexToNat(BytesToHex(f))))
  {
    FieldAt(head, a, middle + f + rest);
    FieldAt(head + a + middle, f, rest);
    assert MessageBytes(m) == head + a + (middle + f + rest);
  }

  /** Decoding a built message returns the two integers that were encoded. */
  lemma DecodeOfBuild(head: seq<byte>, amount: nat, middle: seq<byte>, fee: nat, rest: seq<byte>, prefixed: bool)
    requires |head| == AMOUNT_ABS && |middle| == FEE_ABS - AMOUNT_ABS - UINT256_BYTES
    requires amount < Pow256(UINT256_BYTES) && fee < Pow256(UINT256_BYTES)
    ensures ParseTransferAmounts(BuildMessage(head, amount, middle, fee, rest, prefixed)) == Ok(Amounts(amount, fee))
  {
    var a, f := EncodeBigEndian(amount, UINT256_BYTES), EncodeBigEndian(fee, UINT256_BYTES);
    BuildIsBytes(head, amount, middle, fee, rest, prefixed);
    ParseFields(BuildMessage(head, amount, middle, fee, rest, prefixed), head, a, middle, f, rest);
    HexIsBigEndian(a);
    HexIsBigEndian(f);
  }

  /**
   * Two messages long enough to hold the fields parse alike if and only if they
   * agree on those 64 bytes: no other byte matters and none of the 64 is ignored.
   */
  lemma OnlyTheFieldsMatter(m: string, n: string)
    requires ParseTransferAmounts(m).Ok? && ParseTransferAmounts(n).Ok?
    ensures ParseTransferAmounts(m) == ParseTransferAmounts(n) <==>
      (MessageBytes(m)[216..248] == MessageBytes(n)[216..248] && MessageBytes(m)[312..344] == MessageBytes(n)[312..344])
  {
    FieldDetermines(MessageBytes(m)[216..248], MessageBytes(n)[216..248]);
    FieldDetermines(MessageBytes(m)[312..344], MessageBytes(n)[312..344]);
  }

  lemma FieldDetermines(a: seq<byte>, b: seq<byte>)
    requires |a| == |b|
    ensures HexToNat(BytesToHex(a)) == HexToNat(BytesToHex(b)) <==> a == b
  {
    HexIsBigEndian(a);
    HexIsBigEndian(b);
    EncodeOfDecode(a);
    EncodeOfDecode(b);
  }

  // ----- The amounts receive() works with

  datatype CreditError = BadMessage | AmountMismatch | NetOutOfRange

  /** The parse and the cross-check that precede the mint. */
  function CheckedAmounts(callerAmount: nat, messageHex: string): Result<Amounts, CreditError> {
    match ParseTransferAmounts(messageHex)
    case Err(_) => Err(BadMessage)
    case Ok(a) => if a.amount != callerAmount then Err(AmountMismatch) else Ok(a)
  }

  /** The conversion that follows the mint: the net amount in stroops. */
  function Credit(a: Amounts): Result<Conversion, CreditError> {
    match Convert6to7(a.amount - a.feeExecuted)
    case Err(_) => Err(NetOutOfRange)
    case Ok(c) => Ok(c)
  }

  /**
   * Conservation: what is credited plus ten times the executed fee is ten times the
   * burned amount, both read big-endian from the attested message, and nothing is
   * left as dust. A checked message credits exactly when the net amount is a
   * positive u64.
   */
  lemma CreditConserves(callerAmount: nat, messageHex: string)
    requires CheckedAmounts(callerAmount, messageHex).Ok?
    ensures var a, bytes := CheckedAmounts(callerAmount, messageHex).value, MessageBytes(messageHex);
      && |bytes| >= 344
      && callerAmount == BigEndian(bytes[216..248]) && a.feeExecuted == BigEndian(bytes[312..344])
      && (Credit(a).Ok? <==> 0 < callerAmount - a.feeExecuted <= MAX_CCTP_AMOUNT)
      && (Credit(a).Ok? ==>
        Credit(a).value.stellarAmount + 10 * a.feeExecuted == 10 * callerAmount && Credit(a).value.dust == 0)
  {
    var bytes := MessageBytes(messageHex);
    HexIsBigEndian(bytes[216..248]);
    HexIsBigEndian(bytes[312..344]);
  }
}

// Requests, initiates and attestations that exist: every request the server can hold has
// a body, an initiate that covers it, and an attestation that receive() accepts.

module SettleWitness {
  import opened Wrappers
  import opened Text
  import opened BurnHash
  import opened CctpMessage
  import opened UsdcAmount
  import opened Intents
  import opened SettleRules
  import opened SettleProtocol
  import Domains

  // ----- Requests

  /** What validation makes of a request. */
  predicate GoodRequest(env: Env, q: SettleRequest) {
    var p := q.params;
    && Trim(p.address) == p.address && p.address != "" && (env.isAccount(p.address) || env.isContract(p.address))
    && CanonicalHash(p.hash) && 0 < p.amount <= MAX_U64 && p.sourceDomain == EVM_SOURCE_DOMAIN
  }

  lemma ValidatedIsGood(env: Env, body: SettleInput)
    requires ValidateSettle(env, body).Some?
    ensures GoodRequest(env, ValidateSettle(env, body).value)
  {
    TrimTwice(body.address);
    NormalisationsAgree(body.burnTxHash);
  }

  lemma PlainParamsAreValid(env: Env, q: SettleRequest)
    requires GoodRequest(env, q)
    ensures var p := q.params;
      ValidateEventParams(env, p.address, p.hash, AmountText(p.amount), Some(p.sourceDomain)) == Some(p)
  {
    ParseAmountText(q.params.amount);
    CanonicalIsFixed(q.params.hash);
  }

  /** A body that validates to this request. */
  function PlainBody(q: SettleRequest): SettleInput {
    var p := q.params;
    SettleInput(p.address, p.hash, AmountText(p.amount), Some(p.sourceDomain), Some(q.mode), q.intentId)
  }

  lemma PlainBodyIsValid(env: Env, q: SettleRequest)
    requires GoodRequest(env, q) && Trim(q.intentId) == q.intentId && q.intentId != ""
    ensures ValidateSettle(env, PlainBody(q)) == Some(q)
  {
    PlainParamsAreValid(env, q);
  }

  /** An initiate that covers this request. */
  function PlainInitiate(q: SettleRequest): InitiateInput {
    var p := q.params;
    InitiateInput(p.address, p.hash, AmountText(p.amount), Some(p.sourceDomain), Some(q.mode), "")
  }

  function PlainIntent(q: SettleRequest, intentId: string, now: int): Intent {
    var p := q.params;
    Intent(intentId, p.hash, p.address, Print(p.amount), p.sourceDomain, q.mode, None, now)
  }

  lemma PlainInitiateIsValid(env: Env, q: SettleRequest, intentId: string, now: int)
    requires GoodRequest(env, q)
    ensures InitiateIntent(env, PlainInitiate(q), intentId, now) == Some(PlainIntent(q, intentId, now))
    ensures WithinCap(env, q.params.amount) ==> IntentRefusal(env, PlainIntent(q, intentId, now), q).None?
  {
    PlainParamsAreValid(env, q);
  }

  // ----- Attestations

  /** A message that carries this amount and no fee, and zeros otherwise. */
  function PlainMessage(amount: nat): string
    requires amount < Pow256(UINT256_BYTES)
  {
    BuildMessage(seq(AMOUNT_ABS, i => 0), amount, seq(FEE_ABS - AMOUNT_ABS - UINT256_BYTES, i => 0), 0, [], true)
  }

  const PLAIN_SIGNATURE: string := "0x" + Zeros(130)

  lemma {:induction false} HexTextIsHex(b: seq<byte>)
    ensures forall i :: 0 <= i < |BytesToHex(b)| ==> IsHex(BytesToHex(b)[i])
    ensures |BytesToHex(b)| == 2 * |b|
  {
    if b != [] { HexTextIsHex(b[1..]); }
  }

  /** A prefixed hex text is its own trim and has the shape that attestations must have. */
  lemma PrefixedHex(s: string, n: nat)
    requires |s| >= n >= 1 && forall i :: 0 <= i < |s| ==> IsHex(s[i])
    ensures HexShape(Trim("0x" + s), n)
  {
    var t := "0x" + s;
    assert t[0] == '0' && t[|t| - 1] == s[|s| - 1];
    TrimIdentity(t);
    forall i | 2 <= i < |t| ensures IsHex(t[i]) {
      assert t[i] == s[i - 2];
    }
    assert t[..2] == "0x";
  }

  lemma {:induction false} PowGrows(m: nat, n: nat)
    requires m <= n
    ensures Pow256(m) <= Pow256(n)
  {
    if m < n { PowGrows(m, n - 1); }
  }

  lemma U64Fits(amount: nat)
    requires amount <= MAX_U64
    ensures amount < Pow256(UINT256_BYTES)
  {
    PowGrows(8, UINT256_BYTES);
    assert Pow256(8) == MAX_U64 + 1;
  }

  lemma HexMessageIsWellFormed(bytes: seq<byte>)
    requires |bytes| >= 32
    ensures IsWellFormed("0x" + BytesToHex(bytes), PLAIN_SIGNATURE)
  {
    HexTextIsHex(bytes);
    PrefixedHex(BytesToHex(bytes), 64);
    PlainSignatureIsWellFormed();
  }

  lemma PlainSignatureIsWellFormed()
    ensures PLAIN_SIGNATURE != "" && HexShape(Trim(PLAIN_SIGNATURE), 130)
  {
    PrefixedHex(Zeros(130), 130);
  }

  /** Every amount that a request can carry has an attestation that receive() accepts. */
  lemma PlainMessageIsAttested(amount: nat)
    requires amount <= MAX_U64
    ensures amount < Pow256(UINT256_BYTES)
    ensures AttestedAmounts(amount, PlainMessage(amount), PLAIN_SIGNATURE) == Ok(Amounts(amount, 0))
  {
    U64Fits(amount);
    U64Fits(0);
    var head, middle := seq(AMOUNT_ABS, i => 0), seq(FEE_ABS - AMOUNT_ABS - UINT256_BYTES, i => 0);
    DecodeOfBuild(head, amount, middle, 0, [], true);
    HexMessageIsWellFormed(
      head + EncodeBigEndian(amount, UINT256_BYTES) + middle + EncodeBigEndian(0, UINT256_BYTES) + []);
  }

  /** Some such message. */
  ghost function MessageFor(amount: nat): (m: string)
    requires amount <= MAX_U64
    ensures AttestedAmounts(amount, m, PLAIN_SIGNATURE) == Ok(Amounts(amount, 0))
  {
    PlainMessageIsAttested(amount);
    var m: string :| AttestedAmounts(amount, m, PLAIN_SIGNATURE) == Ok(Amounts(amount, 0));
    m
  }

  // ----- Calls of a run

  /** Every call is one that validation let in. */
  ghost predicate GoodCalls(env: Env, calls: map<nat, Call>) {
    forall i :: i in calls ==> GoodRequest(env, calls[i].request)
  }

  lemma ValidatedStatusIsGood(env: Env, query: StatusInput)
    requires ValidateStatus(env, query).Some?
    ensures GoodRequest(env, ValidateStatus(env, query).value)
  {
    TrimTwice(query.address);
    NormalisationsAgree(query.burnTxHash);
  }

  lemma StepGood(env: Env, s: State, id: nat, r: Reply)
    requires GoodCalls(env, s.calls)
    ensures GoodCalls(env, Next(env, s, Step(id, r)).calls)
  {
  }

  lemma NewCallGood(env: Env, calls: map<nat, Call>, id: nat, q: SettleRequest, o: OuterStep)
    requires GoodCalls(env, calls) && GoodRequest(env, q)
    ensures GoodCalls(env, calls[id := Call(q, Outside(o))])
  {
  }

  lemma StartSettleGood(env: Env, s: State, id: nat, body: SettleInput)
    requires GoodCalls(env, s.calls)
    ensures GoodCalls(env, Next(env, s, StartSettle(id, body)).calls)
  {
    if ValidateSettle(env, body).Some? {
      ValidatedIsGood(env, body);
      NewCallGood(env, s.calls, id, ValidateSettle(env, body).value, ConsumingBucket);
    }
  }

  lemma StartStatusGood(env: Env, s: State, id: nat, query: StatusInput)
    requires GoodCalls(env, s.calls)
    ensures GoodCalls(env, Next(env, s, StartStatus(id, query)).calls)
  {
    if ValidateStatus(env, query).Some? {
      ValidatedStatusIsGood(env, query);
      NewCallGood(env, s.calls, id, ValidateStatus(env, query).value, StatusBucket);
    }
  }

  lemma OthersGood(env: Env, s: State, e: Event)
    requires GoodCalls(env, s.calls) && (e.Tick? || e.Initiate?)
    ensures GoodCalls(env, Next(env, s, e).calls)
  {
  }

  lemma NextGood(env: Env, s: State, e: Event)
    requires GoodCalls(env, s.calls)
    ensures GoodCalls(env, Next(env, s, e).calls)
  {
    match e
    case StartSettle(id, body) => StartSettleGood(env, s, id, body);
    case StartStatus(id, query) => StartStatusGood(env, s, id, query);
    case Step(id, reply) => StepGood(env, s, id, reply);
    case Tick(_) => OthersGood(env, s, e);
    case Initiate(_, _) => OthersGood(env, s, e);
  }

  lemma {:induction false} RunGood(env: Env, s: State, es: seq<Event>)
    requires GoodCalls(env, s.calls)
    ensures GoodCalls(env, Run(env, s, es).calls)
    decreases |es|
  {
    if es != [] {
      NextGood(env, s, es[0]);
      RunGood(env, Next(env, s, es[0]), es[1..]);
    }
  }
}

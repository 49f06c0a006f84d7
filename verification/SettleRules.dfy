// What the receive handlers decide without waiting for anything: validation, intent
// checks, error classification and records (apps/demo/server/handlers.ts, events.ts,
// packages/core/src/receive.ts).

module Domains {
  /** The CCTP domains of packages/core/src/domains/index.ts. */
  const CCTP_DOMAINS: set<int> := {
    0, 1, 2, 3, 5, 6, 7, 9, 10, 11, 12, 13, 14, 15, 16, 17, 18, 19, 21, 22, 25, 26, 27,
    28, 29, 30, 31, 32, 33, 37}

  predicate IsSupported(domain: int) {
    domain in CCTP_DOMAINS
  }
}

module SettleRules {
  import opened Wrappers
  import opened Text
  import opened Transfers
  import opened Decimals
  import opened UsdcAmount
  import opened BurnHash
  import opened CctpMessage
  import opened Intents
  import Domains

  const EVM_SOURCE_DOMAIN: int := 6
  /** getTransaction polls before a mint counts as unconfirmed. */
  const CONFIRM_ATTEMPTS: nat := 20

  /** Deployment facts; StrKey checksums are left as predicates. */
  datatype Env = Env(
    isAccount: string -> bool,
    isContract: string -> bool,
    maxMintBase6: Option<nat>,
    probesIris: bool,
    dustCollector: Option<string>)

  // ----- Answers

  datatype Code =
    | RateLimited | InvalidParams | MintUnconfirmed | NoIntent | AddressMismatch
    | AmountTooLarge | NotReady | MintFailed | ReceiveFailed

  datatype Answer =
    | Receipt(stellarAmount: int, mintTxHash: string)
    | Refused(status: int, code: Code)
    | Frame(ready: bool)
    | Crashed                        // an exception leaves the handler

  const INVALID: Answer := Refused(400, InvalidParams)
  const RATE_LIMITED: Answer := Refused(429, RateLimited)
  const NOT_READY: Answer := Refused(409, NotReady)
  const UNCONFIRMED: Answer := Refused(502, MintUnconfirmed)

  /** The errors that the handler tells apart. */
  datatype Failure =
    | ReplayTransfer | AttestationTimeout | MintFailedError | MintUnconfirmedError(mintTxHash: string)
    | BadInput                       // invalid domain, amount, burn hash or address
    | OtherError

  /** settleFailure for the errors that need no store. */
  function FailureAnswer(f: Failure): Answer {
    match f
    case AttestationTimeout => NOT_READY
    case MintFailedError => Refused(502, MintFailed)
    case BadInput => INVALID
    case _ => Refused(502, ReceiveFailed)
  }

  // ----- Records

  datatype RecordStatus = SubmittedStatus | SettledStatus

  datatype Record = Record(
    txHash: string, amount: Option<int>, dust: Option<int>,
    sourceDomain: int, destinationAddress: string, status: RecordStatus)

  predicate IsSettled(store: map<string, Record>, hash: string) {
    hash in store && store[hash].status.SettledStatus?
  }

  /** receiptOf */
  function ReceiptOf(r: Record): Answer {
    Receipt(if r.amount.Some? then r.amount.value else 0, r.txHash)
  }

  // ----- Validation

  datatype Params = Params(address: string, hash: string, amount: nat, sourceDomain: int)

  /** validateEventParams with contract addresses allowed; None stands for any 400. */
  function ValidateEventParams(env: Env, address: string, burnTxHash: string, amount: string,
    sourceDomain: Option<int>): Option<Params> {
    var a := Trim(address);
    var h := ParseHash(burnTxHash);
    var n := ParseAmountBase6(amount);
    if a != "" && (env.isAccount(a) || env.isContract(a)) && sourceDomain.Some?
      && Domains.IsSupported(sourceDomain.value)
      && h.Some? && n.Ok?
    then Some(Params(a, h.value, n.value, sourceDomain.value)) else None
  }

  datatype SettleInput = SettleInput(
    address: string, burnTxHash: string, amount: string,
    sourceDomain: Option<int>, mode: Option<Mode>, intentId: string)

  datatype SettleRequest = SettleRequest(params: Params, mode: Mode, intentId: string)

  /** The synchronous head of handleSettle. */
  function ValidateSettle(env: Env, i: SettleInput): Option<SettleRequest> {
    match ValidateEventParams(env, i.address, i.burnTxHash, i.amount, i.sourceDomain)
    case None => None
    case Some(p) =>
      if p.sourceDomain != EVM_SOURCE_DOMAIN || i.mode.None? || Trim(i.intentId) == "" then None
      else Some(SettleRequest(p, i.mode.value, Trim(i.intentId)))
  }

  /** Stores, locks and core all work with a validated hash unchanged. */
  lemma ValidatedHashIsKey(env: Env, i: SettleInput)
    requires ValidateSettle(env, i).Some?
    ensures var h := ValidateSettle(env, i).value.params.hash;
      CanonicalHash(h) && ReplayKey(h) == h && NormalizeBurnTxHash(h) == Some(h)
  {
    NormalisationsAgree(i.burnTxHash);
  }

  datatype StatusInput = StatusInput(address: string, burnTxHash: string, amount: string)

  /** validateStatusParams; the source domain is not the caller's to choose, mode and id play no part. */
  function ValidateStatus(env: Env, i: StatusInput): Option<SettleRequest> {
    match ValidateEventParams(env, i.address, i.burnTxHash, i.amount, Some(EVM_SOURCE_DOMAIN))
    case None => None
    case Some(p) => Some(SettleRequest(p, Fast, ""))
  }

  datatype InitiateInput = InitiateInput(
    address: string, burnTxHash: string, amount: string, sourceDomain: Option<int>, mode: Option<Mode>, maxFee: string)

  /** handleInitiate up to the store: the intent it passes to put. */
  function InitiateIntent(env: Env, i: InitiateInput, intentId: string, now: int): Option<Intent> {
    match ValidateEventParams(env, i.address, i.burnTxHash, i.amount, i.sourceDomain)
    case None => None
    case Some(p) =>
      if p.sourceDomain != EVM_SOURCE_DOMAIN || i.mode.None? then None
      else if i.maxFee == "" then
        Some(Intent(intentId, p.hash, p.address, Print(p.amount), p.sourceDomain, i.mode.value, None, now))
      else match ParseAmountBase6(i.maxFee)
        case Err(_) => None
        case Ok(fee) =>
          if fee > p.amount then None
          else Some(Intent(intentId, p.hash, p.address, Print(p.amount), p.sourceDomain, i.mode.value,
            Some(Print(fee)), now))
  }

  /** The intent covers this request, byte for byte. */
  predicate Matches(i: Intent, q: SettleRequest) {
    i.address == q.params.address && i.amount == Print(q.params.amount) && i.transferMode == q.mode
  }

  predicate WithinCap(env: Env, amount: nat) {
    env.maxMintBase6.Some? ==> amount <= env.maxMintBase6.value
  }

  /** The checks between reading the intent and taking the lock; None lets the request pass. */
  function IntentRefusal(env: Env, i: Intent, q: SettleRequest): Option<Answer> {
    if !Matches(i, q) then Some(Refused(403, AddressMismatch))
    else if !Domains.IsSupported(i.sourceDomain) || i.sourceDomain != EVM_SOURCE_DOMAIN then Some(INVALID)
    else if !WithinCap(env, q.params.amount) then Some(Refused(400, AmountTooLarge))
    else None
  }

  // ----- Rules of receive()

  /** `/^0x[0-9a-fA-F]+$/` with at least n digits. */
  predicate HexShape(s: string, n: nat) {
    |s| >= n + 2 && s[..2] == "0x" && forall i :: 2 <= i < |s| ==> IsHex(s[i])
  }

  /** isWellFormedAttestation */
  predicate IsWellFormed(message: string, signature: string) {
    message != "" && signature != "" && HexShape(Trim(message), 64) && HexShape(Trim(signature), 130)
  }

  /** From the attested message to the amounts that the mint goes ahead with. */
  function AttestedAmounts(gross: nat, message: string, signature: string): Result<Amounts, Failure> {
    if !IsWellFormed(message, signature) then Err(OtherError)
    else match CheckedAmounts(gross, message)
      case Err(BadMessage) => Err(OtherError)
      case Err(AmountMismatch) => Err(BadInput)
      case Err(NetOutOfRange) => Err(BadInput)
      case Ok(a) => Ok(a)
  }

  /** After the confirmed mint: the credited stroops, unless the conversion or the collector fails. */
  function PostMint(env: Env, destination: string, gross: nat, fee: nat): Result<int, Failure> {
    match Credit(Amounts(gross, fee))
    case Err(_) => Err(BadInput)
    case Ok(c) =>
      var collector := if env.dustCollector.Some? && env.dustCollector.value != "" then env.dustCollector.value
        else destination;
      if !env.isAccount(collector) then Err(OtherError) else Ok(c.stellarAmount)
  }

  // ----- Rules of submitMint

  /** Only core itself raises the replay error, and only submitMint's loop the unconfirmed one. */
  type ForeignFailure = f: Failure | !f.ReplayTransfer? && !f.MintUnconfirmedError? witness OtherError

  /** What a rejected call carries: one of the SDK's errors, or anything else. */
  datatype Thrown = Sdk(f: ForeignFailure) | Plain

  /** An error that passes through receive() as it is. */
  function Passed(t: Thrown): ForeignFailure {
    match t
    case Sdk(f) => f
    case Plain => OtherError
  }

  /** submitMint's outer catch. */
  function Surface(t: Thrown): ForeignFailure {
    match t
    case Sdk(f) => f
    case Plain => MintFailedError
  }

  predicate Accepted(status: string, hash: Option<string>) {
    status == "PENDING" && hash.Some? && hash.value != ""
  }
}

// The deposit state machine of the demo client (apps/demo/src/catalog/depositMachine.ts)
// and the burn planner's fee ceiling (packages/core/src/evm/burn.ts).

module Deposit {
  import opened Wrappers
  import opened Text
  import opened Transfers
  import opened Decimals
  import opened UsdcAmount

  const QUOTE_MAX_AGE_MS: int := 5 * 60 * 1000
  const POLL_BASE_MS: int := 5_000
  const POLL_BACKOFF_MS: int := 15_000
  const POLL_BACKOFF_AFTER_MS: int := 120_000

  datatype Step =
    | Idle | Quoting | Burning | FastWait | DegradedStandard
    | Settling | Settled | Cancelled | Error | Attesting

  datatype FeeQuote = FeeQuote(
    minimumFee: string, finalityThreshold: int, fastTierAvailable: bool,
    cachedAt: string, mode: Mode, fetchedAt: int)

  datatype FrameStatus = FrameAttesting | FrameReady | FrameSettled | FrameFailed

  datatype FrameReceipt = FrameReceipt(stellarAmount: string, mintTxHash: string)

  datatype FrameError = FrameError(code: Option<string>, remediation: Option<string>)

  datatype StatusFrame = StatusFrame(
    status: FrameStatus, degraded: bool, finalityThresholdExecuted: Option<int>,
    delayReason: Option<string>, receipt: Option<FrameReceipt>, error: Option<FrameError>)

  datatype Receipt = Receipt(stellarAmount: string, dust: string, txHash: string, simulated: bool)

  datatype State = State(
    step: Step, attempts: int, mode: Mode, amount: Option<string>, maxFee: Option<string>,
    quote: Option<FeeQuote>, burnTxHash: Option<string>, receipt: Option<Receipt>, errorDetails: Option<string>)

  datatype Event =
    | Receiving(attempt: int)
    | Submitting
    | SettledEvent(simulated: bool, txHash: string, stellarAmount: string, dust: Option<string>)
    | ErrorEvent(message: string)
    | ModeChange(mode: Mode)
    | AmountInput(amount: string)
    | MaxFeeInput(maxFee: string)
    | QuoteReceived(quote: FeeQuote)
    | Execute(nowMs: int)
    | BurnSubmitted(burnTxHash: string, burnMode: Mode)
    | Status(frame: StatusFrame)
    | FastWindowExpired
    | SettleReady
    | Cancel
    | RetryStandard

  const INITIAL_DEPOSIT: State := State(Idle, 0, Fast, None, None, None, None, None, None)

  predicate IsPolling(step: Step) { step.FastWait? || step.DegradedStandard? || step.Attesting? }

  predicate IsTerminal(step: Step) { step.Settled? || step.Cancelled? || step.Error? }

  predicate IsPreBurn(step: Step) { step.Idle? || step.Quoting? || step.Error? }

  /** A field that is present and not the empty text. */
  predicate Truthy(s: Option<string>) { s.Some? && s.value != "" }

  // ----- Fees

  /** scale6: a decimal text with at most six decimals, times a million. */
  function Scale6(raw: string): Option<nat> {
    var t := Trim(raw);
    if !MatchesDecimal(t, 6) then None
    else Some(ToNat(WholePart(t)) * BASE6 + ToNat(PadEnd(FracPart(t), 6)))
  }

  /** The fee in base units for a rate in millionths of a basis point, rounded down. */
  function FlooredFee(base6: nat, scaledBps: nat): nat {
    base6 * scaledBps / (10_000 * 1_000_000)
  }

  function QuotedFeeBase6(amount: string, minimumFee: string): Option<nat> {
    match (Scale6(minimumFee), ParseUsdcBase6(amount))
    case (Some(bps), Ok(base6)) => Some(FlooredFee(base6, bps))
    case _ => None
  }

  /** The greatest whole number of base units in this many ten-thousandths of millionths. */
  predicate FloorOf(fee: int, n: int) {
    fee * 10_000_000_000 <= n < (fee + 1) * 10_000_000_000
  }

  lemma FloorBounds(n: nat)
    ensures FloorOf(n / (10_000 * 1_000_000), n)
  {
  }

  lemma FlooredFeeIsFloor(base6: nat, scaled: nat)
    ensures FloorOf(FlooredFee(base6, scaled), base6 * scaled)
  {
    FloorBounds(base6 * scaled);
  }

  /** A quoted fee is that of the amount at the quoted rate, rounded down to whole base units. */
  lemma QuotedFeeIsFloor(amount: string, minimumFee: string, scaled: nat, base6: nat)
    requires Scale6(minimumFee) == Some(scaled) && ParseUsdcBase6(amount) == Ok(base6)
    ensures match QuotedFeeBase6(amount, minimumFee)
      case Some(fee) => FloorOf(fee, base6 * scaled)
      case None => false
  {
    FlooredFeeIsFloor(base6, scaled);
  }

  predicate FeeOverCap(amount: string, minimumFee: string, cap: string) {
    match (QuotedFeeBase6(amount, minimumFee), ParseUsdcBase6(cap))
    case (Some(fee), Ok(max)) => fee > max
    case _ => false
  }

  predicate QuoteFeeOverMax(s: State) {
    && Truthy(s.amount) && Truthy(s.maxFee) && s.quote.Some?
    && FeeOverCap(s.amount.value, s.quote.value.minimumFee, s.maxFee.value)
  }

  predicate IsQuoteFresh(quote: Option<FeeQuote>, mode: Mode, nowMs: int) {
    quote.Some? && quote.value.mode == mode && 0 <= nowMs - quote.value.fetchedAt <= QUOTE_MAX_AGE_MS
  }

  // ----- The reducer

  function SettleFrom(s: State, simulated: bool, txHash: string, stellarAmount: string, dust: Option<string>): State {
    s.(step := Settled,
       receipt := Some(Receipt(stellarAmount, if dust.Some? then dust.value else "0", txHash, simulated)))
  }

  predicate IrisSaysDegraded(f: StatusFrame) {
    f.finalityThresholdExecuted == Some(2000) || f.delayReason == Some("insufficient_fee")
  }

  function Degrade(s: State): State {
    if s.mode != Fast || s.step != FastWait then s else s.(step := DegradedStandard)
  }

  function ErrorText(e: Option<FrameError>): string {
    if e.Some? && e.value.remediation.Some? then e.value.remediation.value
    else if e.Some? && e.value.code.Some? then e.value.code.value
    else "Transfer failed"
  }

  function ReduceStatus(s: State, f: StatusFrame): State {
    if !IsPolling(s.step) then s
    else if f.status.FrameSettled? && f.receipt.Some? then
      SettleFrom(s, false, f.receipt.value.mintTxHash, f.receipt.value.stellarAmount, Some("0"))
    else if f.status.FrameFailed? then
      s.(step := Error, errorDetails := Some(ErrorText(f.error)))
    else
      var polled := s.(attempts := s.attempts + 1);
      if f.degraded || IrisSaysDegraded(f) then Degrade(polled) else polled
  }

  function Reduce(s: State, e: Event): State {
    match e
    case Receiving(attempt) => s.(step := Attesting, attempts := attempt)
    case Submitting => s.(step := Settling)
    case SettledEvent(simulated, txHash, amount, dust) => SettleFrom(s, simulated, txHash, amount, dust)
    case ErrorEvent(message) => s.(step := Error, errorDetails := Some(message))
    case ModeChange(mode) => if IsPreBurn(s.step) then s.(mode := mode) else s
    case AmountInput(amount) => if IsPreBurn(s.step) then s.(amount := Some(amount)) else s
    case MaxFeeInput(maxFee) =>
      if !IsPreBurn(s.step) then s
      else s.(maxFee := if Trim(maxFee) == "" then None else Some(Trim(maxFee)))
    case QuoteReceived(quote) =>
      var next := s.(quote := Some(quote), mode := quote.mode);
      if !s.step.Quoting? || QuoteFeeOverMax(next) then next else next.(step := Burning)
    case Execute(nowMs) =>
      if s.mode.Standard? then s.(step := Burning)
      else if !IsQuoteFresh(s.quote, s.mode, nowMs) || QuoteFeeOverMax(s) then s.(step := Quoting)
      else s.(step := Burning)
    case BurnSubmitted(hash, mode) =>
      s.(step := if mode.Fast? then FastWait else Attesting,
         mode := mode, burnTxHash := Some(hash), attempts := 0, errorDetails := None)
    case Status(frame) => ReduceStatus(s, frame)
    case FastWindowExpired => Degrade(s)
    case SettleReady => if IsPolling(s.step) then s.(step := Settling) else s
    case Cancel => if IsTerminal(s.step) || s.step.Idle? then s else s.(step := Cancelled)
    case RetryStandard =>
      if !s.step.Cancelled? || !Truthy(s.burnTxHash) then s else s.(step := Attesting, attempts := 0)
  }

  function Run(es: seq<Event>): State {
    if es == [] then INITIAL_DEPOSIT else Reduce(Run(es[..|es| - 1]), es[|es| - 1])
  }

  // ----- Fee caps

  /** Whatever fee and cap can be computed from the state, the fee is within the cap. */
  predicate FeeWithinCap(s: State) {
    Truthy(s.amount) && Truthy(s.maxFee) && s.quote.Some? ==>
      var fee := QuotedFeeBase6(s.amount.value, s.quote.value.minimumFee);
      var cap := ParseUsdcBase6(s.maxFee.value);
      fee.Some? && cap.Ok? ==> fee.value <= cap.value
  }

  lemma NotOverIsWithin(s: State)
    requires !QuoteFeeOverMax(s)
    ensures FeeWithinCap(s)
  {
  }

  /** The event enters burning, or executes again there, and the mode is then fast. */
  predicate EntersFastBurn(s: State, e: Event) {
    Reduce(s, e).step.Burning? && Reduce(s, e).mode.Fast? && (!s.step.Burning? || e.Execute?)
  }

  lemma EntryChecksQuote(s: State, e: Event)
    requires EntersFastBurn(s, e)
    ensures var s' := Reduce(s, e);
      && s'.quote.Some? && s'.quote.value.mode.Fast? && !QuoteFeeOverMax(s')
      && (e.Execute? ==> IsQuoteFresh(s'.quote, Fast, e.nowMs))
  {
    match e
    case Status(f) =>
    case QuoteReceived(q) =>
      var next := s.(quote := Some(q), mode := q.mode);
      assert Reduce(s, e).amount == next.amount && Reduce(s, e).maxFee == next.maxFee;
    case Execute(nowMs) =>
      assert Reduce(s, e) == s.(step := Burning);
    case _ =>
  }

  /**
   * In every run, an event that enters burning (or executes again) and leaves the
   * transfer in fast mode leaves it with a fast quote within the user's cap; on
   * execute that quote is also at most five minutes old.
   */
  lemma FastBurnHasQuoteWithinCap(es: seq<Event>, e: Event)
    requires EntersFastBurn(Run(es), e)
    ensures var s' := Run(es + [e]);
      && s'.quote.Some? && s'.quote.value.mode.Fast? && FeeWithinCap(s')
      && (e.Execute? ==> 0 <= e.nowMs - s'.quote.value.fetchedAt <= QUOTE_MAX_AGE_MS)
  {
    assert (es + [e])[..|es|] == es;
    EntryChecksQuote(Run(es), e);
    NotOverIsWithin(Reduce(Run(es), e));
  }

  /** Burning in fast mode with a quote that busts the cap. */
  predicate OverCapBurn(s: State) {
    s.step.Burning? && s.mode.Fast? && QuoteFeeOverMax(s)
  }

  /** Apart from quotes and execute, what is burning afterwards was burning before, unchanged. */
  lemma BurningUntouched(s: State, e: Event)
    requires !e.QuoteReceived? && !e.Execute? && Reduce(s, e).step.Burning?
    ensures Reduce(s, e) == s
  {
  }

  /**
   * The cap does not cover what happens while burning: a state turns into an over-cap
   * fast burn exactly when a fast quote that busts the cap arrives during burning.
   */
  lemma OverCapBurnIffLateQuote(s: State, e: Event)
    requires !OverCapBurn(s)
    ensures OverCapBurn(Reduce(s, e)) <==>
      (s.step.Burning? && e.QuoteReceived? && e.quote.mode.Fast?
       && QuoteFeeOverMax(s.(quote := Some(e.quote), mode := Fast)))
  {
    if EntersFastBurn(s, e) {
      EntryChecksQuote(s, e);
    } else if !e.QuoteReceived? {
      if Reduce(s, e).step.Burning? && !e.Execute? { BurningUntouched(s, e); }
    } else {
      var next := s.(quote := Some(e.quote), mode := e.quote.mode);
      assert !s.step.Quoting? ==> Reduce(s, e) == next;
    }
  }

  lemma RunSnoc(es: seq<Event>, e: Event)
    ensures Run(es + [e]) == Reduce(Run(es), e)
  {
    assert (es + [e])[..|es|] == es;
  }

  lemma StandardSetUp(amount: string, cap: string)
    requires Trim(cap) == cap && cap != ""
    ensures Run([ModeChange(Standard)] + [AmountInput(amount)] + [MaxFeeInput(cap)])
         == INITIAL_DEPOSIT.(mode := Standard, amount := Some(amount), maxFee := Some(cap))
  {
    var e1 := [ModeChange(Standard)];
    RunSnoc([], ModeChange(Standard));
    assert [] + e1 == e1;
    RunSnoc(e1, AmountInput(amount));
    RunSnoc(e1 + [AmountInput(amount)], MaxFeeInput(cap));
  }

  lemma AmountThenCap(amount: string, cap: string)
    requires Trim(cap) == cap && cap != ""
    ensures Run([AmountInput(amount)] + [MaxFeeInput(cap)])
         == INITIAL_DEPOSIT.(amount := Some(amount), maxFee := Some(cap))
  {
    var e1 := [AmountInput(amount)];
    RunSnoc([], AmountInput(amount));
    assert [] + e1 == e1;
    RunSnoc(e1, MaxFeeInput(cap));
  }

  lemma ExecuteWithoutQuote(s: State, nowMs: int)
    requires s.mode.Fast? && s.quote.None?
    ensures Reduce(s, Execute(nowMs)) == s.(step := Quoting)
  {
  }

  /** Amount, cap, execute without a quote. */
  lemma AmountCapExecute(amount: string, cap: string, nowMs: int)
    requires Trim(cap) == cap && cap != ""
    ensures Run([AmountInput(amount)] + [MaxFeeInput(cap)] + [Execute(nowMs)])
         == INITIAL_DEPOSIT.(step := Quoting, amount := Some(amount), maxFee := Some(cap))
  {
    var es := [AmountInput(amount)] + [MaxFeeInput(cap)];
    AmountThenCap(amount, cap);
    ExecuteWithoutQuote(Run(es), nowMs);
    RunSnoc(es, Execute(nowMs));
  }

  /** Every fee that busts a cap can end up so: burn in standard mode, then receive the fast quote. */
  lemma OverCapBurnIsReachable(amount: string, cap: string, quote: FeeQuote, nowMs: int)
    requires amount != "" && cap != "" && Trim(cap) == cap
    requires quote.mode.Fast? && FeeOverCap(amount, quote.minimumFee, cap)
    ensures OverCapBurn(Run([ModeChange(Standard)] + [AmountInput(amount)] + [MaxFeeInput(cap)] + [Execute(nowMs)]
      + [QuoteReceived(quote)]))
  {
    StandardSetUp(amount, cap);
    ExecuteThenQuote([ModeChange(Standard)] + [AmountInput(amount)] + [MaxFeeInput(cap)], quote, nowMs);
  }

  lemma ExecuteThenQuote(es: seq<Event>, quote: FeeQuote, nowMs: int)
    requires Run(es).mode.Standard?
    ensures Run(es + [Execute(nowMs)] + [QuoteReceived(quote)])
         == Run(es).(step := Burning, quote := Some(quote), mode := quote.mode)
  {
    RunSnoc(es, Execute(nowMs));
    RunSnoc(es + [Execute(nowMs)], QuoteReceived(quote));
  }

  // ----- Polling

  /** The hash of the latest burn-submitted event. */
  function LastBurn(es: seq<Event>): Option<string> {
    if es == [] then None
    else if es[|es| - 1].BurnSubmitted? then Some(es[|es| - 1].burnTxHash)
    else LastBurn(es[..|es| - 1])
  }

  predicate NoReceiving(es: seq<Event>) {
    forall e :: e in es ==> !e.Receiving?
  }

  /** A frame that the machine takes without leaving the wait. */
  predicate NonFinalFrame(s: State, e: Event) {
    && e.Status? && IsPolling(s.step)
    && !(e.frame.status.FrameSettled? && e.frame.receipt.Some?) && !e.frame.status.FrameFailed?
  }

  /** A burn, or a retry that takes effect. */
  predicate Restarts(s: State, e: Event) {
    e.BurnSubmitted? || (e.RetryStandard? && s.step.Cancelled? && Truthy(s.burnTxHash))
  }

  /** Position of the last restart, as one past its index; zero when there was none. */
  function LastRestart(es: seq<Event>): (k: nat)
    ensures k <= |es|
  {
    if es == [] then 0
    else if Restarts(Run(es[..|es| - 1]), es[|es| - 1]) then |es|
    else LastRestart(es[..|es| - 1])
  }

  /** The positions of the non-final frames since the last restart. */
  function FramesTaken(es: seq<Event>): set<nat> {
    set i: nat | LastRestart(es) <= i < |es| && NonFinalFrame(Run(es[..i]), es[i])
  }

  /** In every run the state carries the hash of the latest burn. */
  lemma {:induction false} HashIsLastBurn(es: seq<Event>)
    ensures Run(es).burnTxHash == LastBurn(es)
  {
    if es != [] { HashIsLastBurn(es[..|es| - 1]); }
  }

  /** Without the legacy receiving event, only a burn leads into a polling step. */
  lemma {:induction false} PollingHasBurn(es: seq<Event>)
    requires NoReceiving(es) && IsPolling(Run(es).step)
    ensures LastBurn(es).Some? && Run(es).burnTxHash == LastBurn(es)
  {
    HashIsLastBurn(es);
    if es != [] {
      var front := es[..|es| - 1];
      if IsPolling(Run(front).step) { PollingHasBurn(front); }
      HashIsLastBurn(front);
    }
  }

  /** Cancel then retry resumes the same burn. */
  lemma RetryResumesSameBurn(es: seq<Event>, hash: string)
    requires LastBurn(es) == Some(hash) && hash != ""
    requires !IsTerminal(Run(es).step) && Run(es).step != Idle
    ensures var s := Run(es + [Cancel] + [RetryStandard]);
      s.step == Attesting && s.attempts == 0 && s.burnTxHash == Some(hash) && s.mode == Run(es).mode
  {
    HashIsLastBurn(es);
    RunSnoc(es, Cancel);
    RunSnoc(es + [Cancel], RetryStandard);
  }

  /** Once out of the fast window, only a new burn leads back into it. */
  lemma {:induction false} FastWindowNeverReopens(es: seq<Event>, more: seq<Event>)
    requires !Run(es).step.FastWait?
    requires forall e :: e in more ==> !e.BurnSubmitted?
    ensures !Run(es + more).step.FastWait?
    decreases |more|
  {
    if more == [] {
      assert es + more == es;
    } else {
      var front := more[..|more| - 1];
      FastWindowNeverReopens(es, front);
      assert (es + more)[..|es + more| - 1] == es + front;
    }
  }

  lemma LastRestartSnoc(front: seq<Event>, e: Event)
    ensures LastRestart(front + [e]) == if Restarts(Run(front), e) then |front| + 1 else LastRestart(front)
  {
    assert (front + [e])[..|front|] == front;
  }

  lemma FrontOf(front: seq<Event>, e: Event, i: nat)
    requires i <= |front|
    ensures (front + [e])[..i] == front[..i] && (front + [e])[i] == if i < |front| then front[i] else e
  {
  }

  lemma FrameBefore(front: seq<Event>, e: Event, i: nat)
    requires i < |front|
    ensures i in FramesTaken(front + [e]) <==> !Restarts(Run(front), e) && i in FramesTaken(front)
  {
    LastRestartSnoc(front, e);
    FrontOf(front, e, i);
  }

  lemma FrameAtEnd(front: seq<Event>, e: Event)
    ensures |front| in FramesTaken(front + [e]) <==> !Restarts(Run(front), e) && NonFinalFrame(Run(front), e)
  {
    LastRestartSnoc(front, e);
    FrontOf(front, e, |front|);
    assert front[..|front|] == front;
  }

  lemma FramesBelow(es: seq<Event>)
    ensures forall i :: i in FramesTaken(es) ==> i < |es|
  {
  }

  /** The same told of sets of positions: n is the position of one more event. */
  lemma OneMorePosition(before: set<nat>, after: set<nat>, n: nat, restarts: bool, counts: bool)
    requires forall i :: i in before ==> i < n
    requires forall i :: i in after ==> i <= n
    requires forall i: nat :: i < n ==> (i in after <==> !restarts && i in before)
    requires n in after <==> !restarts && counts
    ensures after == if restarts then {} else if counts then before + {n} else before
  {
  }

  /** How the counted positions change with one more event. */
  lemma FramesTakenSnoc(front: seq<Event>, e: Event)
    ensures FramesTaken(front + [e])
         == if Restarts(Run(front), e) then {}
            else if NonFinalFrame(Run(front), e) then FramesTaken(front) + {|front|}
            else FramesTaken(front)
  {
    FramesBelow(front);
    FramesBelow(front + [e]);
    FrameAtEnd(front, e);
    var before, after := FramesTaken(front), FramesTaken(front + [e]);
    forall i: nat | i < |front| ensures i in after <==> !Restarts(Run(front), e) && i in before {
      FrameBefore(front, e, i);
    }
    OneMorePosition(before, after, |front|, Restarts(Run(front), e), NonFinalFrame(Run(front), e));
  }

  lemma NewFrameIsNew(front: seq<Event>)
    ensures |FramesTaken(front) + {|front|}| == |FramesTaken(front)| + 1
  {
    assert |front| !in FramesTaken(front);
  }

  /** In every run without receiving, attempts counts the non-final frames since the last restart. */
  lemma {:induction false} AttemptsCountFrames(es: seq<Event>)
    requires NoReceiving(es)
    ensures Run(es).attempts == |FramesTaken(es)|
  {
    if es == [] {
      assert FramesTaken(es) == {};
    } else {
      var front, e := es[..|es| - 1], es[|es| - 1];
      AttemptsCountFrames(front);
      FramesTakenSnoc(front, e);
      NewFrameIsNew(front);
      assert es == front + [e];
      AttemptsStep(Run(front), e);
    }
  }

  lemma AttemptsStep(s: State, e: Event)
    requires !e.Receiving?
    ensures Reduce(s, e).attempts
         == if Restarts(s, e) then 0 else if NonFinalFrame(s, e) then s.attempts + 1 else s.attempts
  {
  }

  // ----- The poll schedule

  /** `Math.round` */
  function Round(x: real): int {
    (x + 0.5).Floor
  }

  function NextPollDelay(elapsedMs: int, random: real): int {
    var base := if elapsedMs >= POLL_BACKOFF_AFTER_MS then POLL_BACKOFF_MS else POLL_BASE_MS;
    var swing := Round(base as real * 0.2);
    base + Round((random * 2.0 - 1.0) * swing as real)
  }

  /** The delay is its base, less or more a fifth of it in proportion to the random number, rounded. */
  lemma PollDelayIsLinear(elapsedMs: int, random: real)
    ensures var base := if elapsedMs >= POLL_BACKOFF_AFTER_MS then 15_000.0 else 5_000.0;
      var exact := base + (random * 2.0 - 1.0) * (base / 5.0);
      exact - 0.5 < NextPollDelay(elapsedMs, random) as real <= exact + 0.5
  {
    assert Round(5_000.0 * 0.2) == 1_000 && Round(15_000.0 * 0.2) == 3_000;
  }

  /** The jitter stays within a fifth of the base delay. */
  lemma PollDelayRange(elapsedMs: int, random: real)
    requires 0.0 <= random <= 1.0
    ensures elapsedMs < POLL_BACKOFF_AFTER_MS ==> 4_000 <= NextPollDelay(elapsedMs, random) <= 6_000
    ensures elapsedMs >= POLL_BACKOFF_AFTER_MS ==> 12_000 <= NextPollDelay(elapsedMs, random) <= 18_000
  {
    var swing := if elapsedMs >= POLL_BACKOFF_AFTER_MS then 3_000.0 else 1_000.0;
    assert Round(5_000.0 * 0.2) == 1_000 && Round(15_000.0 * 0.2) == 3_000;
    assert -swing <= (random * 2.0 - 1.0) * swing <= swing;
  }
}

module Burn {
  import opened Wrappers
  import opened Text
  import opened Decimals
  import opened Transfers
  import opened UsdcAmount
  import Deposit

  datatype BurnError = InvalidBurnAmount

  /** resolveMaxFee: the fee in base units, rounded up, from a ratio in basis points. */
  function ResolveMaxFee(amount: nat, minimumFeeBps: real): Result<nat, BurnError> {
    if minimumFeeBps < 0.0 then Err(InvalidBurnAmount) else
      var scaled := Deposit.Round(minimumFeeBps * 10.0);
      var result := (amount * scaled + 100_000 - 1) / 100_000;
      if result > amount then Err(InvalidBurnAmount) else Ok(result)
  }

  /** Floor and ceiling of one division. */
  lemma CeilingOfFloor(n: nat)
    ensures (n + 100_000 - 1) / 100_000 == n / 100_000 + (if n % 100_000 == 0 then 0 else 1)
  {
  }

  lemma Regroup(a: nat, k: nat)
    ensures a * (100_000 * k) == a * k * 100_000
  {
  }

  lemma RoundTenths(k: nat)
    ensures Deposit.Round(k as real / 10.0 * 10.0) == k
  {
  }

  /** `a * (k * 100000) / 10^10` is `a * k / 100000`. */
  lemma SameQuotient(n: nat)
    ensures n * 100_000 / (10_000 * 1_000_000) == n / 100_000
  {
  }

  lemma QuoteInTenths(amount: nat, k: nat)
    ensures amount * (100_000 * k) / (10_000 * 1_000_000) == amount * k / 100_000
  {
    Regroup(amount, k);
    SameQuotient(amount * k);
  }

  lemma PlanInTenths(amount: nat, k: nat)
    ensures var ceiling := amount * k / 100_000 + (if amount * k % 100_000 == 0 then 0 else 1);
      ResolveMaxFee(amount, k as real / 10.0) == if ceiling <= amount then Ok(ceiling) else Err(InvalidBurnAmount)
  {
    RoundTenths(k);
    CeilingOfFloor(amount * k);
  }

  lemma QuotedNumber(amountText: string, feeText: string, scaled: nat)
    requires ParseUsdcBase6(amountText).Ok? && Deposit.Scale6(feeText) == Some(scaled)
    ensures Deposit.QuotedFeeBase6(amountText, feeText)
      == Some(Deposit.FlooredFee(ParseUsdcBase6(amountText).value, scaled))
    ensures 0 < ParseUsdcBase6(amountText).value <= MAX_CCTP_AMOUNT
  {
  }

  /** The plan is the quoted fee, or one more if the division is inexact, or an error if that exceeds the amount. */
  predicate PlansFrom(planned: Result<nat, BurnError>, quoted: nat, amount: nat, k: nat) {
    var ceiling := quoted + (if amount * k % 100_000 == 0 then 0 else 1);
    planned == if ceiling <= amount then Ok(ceiling) else Err(InvalidBurnAmount)
  }

  /**
   * For a ratio of k tenths of a basis point, however the server spells it, the
   * planner's ceiling is the client's quoted fee, plus one exactly when the division
   * leaves a remainder; it throws exactly when that exceeds the amount.
   */
  lemma PlannerMeetsQuote(amountText: string, feeText: string, k: nat)
    requires ParseUsdcBase6(amountText).Ok? && Deposit.Scale6(feeText) == Some(100_000 * k)
    ensures var amount := ParseUsdcBase6(amountText).value;
      var quoted := Deposit.QuotedFeeBase6(amountText, feeText);
      var planned := ResolveMaxFee(amount, k as real / 10.0);
      quoted.Some? && PlansFrom(planned, quoted.value, amount, k)
  {
    QuotedNumber(amountText, feeText, 100_000 * k);
    PlannerMeetsFloor(ParseUsdcBase6(amountText).value, k);
  }

  lemma PlannerMeetsFloor(amount: nat, k: nat)
    ensures PlansFrom(ResolveMaxFee(amount, k as real / 10.0), Deposit.FlooredFee(amount, 100_000 * k), amount, k)
  {
    QuoteInTenths(amount, k);
    PlanInTenths(amount, k);
  }

  /**
   * The planner's ceiling against the client's cap, as two functions of the same texts:
   * when the quoted fee passes the cap, the planned one exceeds it if and only if the
   * quoted fee is the cap itself and the division is inexact, and then by one base unit.
   */
  lemma PlannedFeeAgainstCap(amountText: string, feeText: string, capText: string, k: nat)
    requires ParseUsdcBase6(amountText).Ok? && ParseUsdcBase6(capText).Ok?
    requires Deposit.Scale6(feeText) == Some(100_000 * k) && !Deposit.FeeOverCap(amountText, feeText, capText)
    ensures var amount, cap := ParseUsdcBase6(amountText).value, ParseUsdcBase6(capText).value;
      var planned := ResolveMaxFee(amount, k as real / 10.0);
      planned.Ok? ==>
        && 0 < amount <= MAX_CCTP_AMOUNT && planned.value <= amount && planned.value <= cap + 1
        && (planned.value > cap <==>
              Deposit.QuotedFeeBase6(amountText, feeText) == Some(cap) && amount * k % 100_000 != 0)
  {
    QuotedNumber(amountText, feeText, 100_000 * k);
    QuotedWithinCap(amountText, feeText, capText);
    PlannedNumbers(ParseUsdcBase6(amountText).value, k, ParseUsdcBase6(capText).value);
  }

  lemma QuotedWithinCap(amountText: string, feeText: string, capText: string)
    requires ParseUsdcBase6(capText).Ok? && !Deposit.FeeOverCap(amountText, feeText, capText)
    ensures var quoted := Deposit.QuotedFeeBase6(amountText, feeText);
      quoted.Some? ==> quoted.value <= ParseUsdcBase6(capText).value
  {
  }

  lemma PlannedNumbers(amount: nat, k: nat, cap: nat)
    requires 0 < amount <= MAX_CCTP_AMOUNT && Deposit.FlooredFee(amount, 100_000 * k) <= cap
    ensures var planned := ResolveMaxFee(amount, k as real / 10.0);
      planned.Ok? ==>
        && 0 < amount <= MAX_CCTP_AMOUNT && planned.value <= amount && planned.value <= cap + 1
        && (planned.value > cap <==> Deposit.FlooredFee(amount, 100_000 * k) == cap && amount * k % 100_000 != 0)
  {
    PlannerMeetsFloor(amount, k);
    CeilingAgainstCap(Deposit.FlooredFee(amount, 100_000 * k), cap, amount, amount * k % 100_000 != 0,
      ResolveMaxFee(amount, k as real / 10.0));
  }

  /** A ceiling is its floor or one more, and so passes a cap that the floor keeps by one at most. */
  lemma CeilingAgainstCap(
    quoted: nat, cap: nat, amount: nat, inexact: bool, planned: Result<nat, BurnError>)
    requires quoted <= cap && 0 < amount <= MAX_CCTP_AMOUNT
    requires var ceiling := quoted + (if inexact then 1 else 0);
      planned == if ceiling <= amount then Ok(ceiling) else Err(InvalidBurnAmount)
    ensures planned.Ok? ==>
      0 < amount <= MAX_CCTP_AMOUNT && planned.value <= amount && planned.value <= cap + 1
        && (planned.value > cap <==> quoted == cap && inexact)
  {
  }

  // ----- An input at which the planned fee exceeds the cap

  lemma OneDecimal(whole: string, frac: string)
    requires AllDigits(whole) && whole != "" && AllDigits(frac) && 1 <= |frac| <= 6
    requires var v := ToNat(whole) * BASE6 + ToNat(PadEnd(frac, 6)); 0 < v <= MAX_CCTP_AMOUNT
    ensures var t, v := whole + "." + frac, ToNat(whole) * BASE6 + ToNat(PadEnd(frac, 6));
      ParseUsdcBase6(t) == Ok(v) && Deposit.Scale6(t) == Some(v) && Trim(t) == t
  {
    DecimalParts(whole, frac);
    ReadsParts(whole + "." + frac, whole, frac);
  }

  lemma ReadsParts(t: string, whole: string, frac: string)
    requires Trim(t) == t && t != "" && MatchesDecimal(t, 6) && WholePart(t) == whole && FracPart(t) == frac
    requires var v := ToNat(whole) * BASE6 + ToNat(PadEnd(frac, 6)); 0 < v <= MAX_CCTP_AMOUNT
    ensures var v := ToNat(whole) * BASE6 + ToNat(PadEnd(frac, 6));
      ParseUsdcBase6(t) == Ok(v) && Deposit.Scale6(t) == Some(v)
  {
  }

  /** A dollar and a millionth at 1.3 basis points, capped at 130 millionths. */
  const AMOUNT: string := "1" + "." + "000001"
  const FEE: string := "1" + "." + "3"
  const CAP: string := "0" + "." + "00013"

  /** Digits, zeros before them and zeros after them. */
  lemma Padded(before: nat, digits: string, after: nat)
    requires AllDigits(digits)
    ensures AllDigits(Zeros(before) + digits + Zeros(after))
    ensures ToNat(Zeros(before) + digits + Zeros(after)) == ToNat(digits) * Pow10(after)
  {
    ToNatLeadingZeros(before, digits);
    ToNatTrailingZeros(Zeros(before) + digits, after);
  }

  lemma AmountExample()
    ensures ParseUsdcBase6(AMOUNT) == Ok(1_000_001)
  {
    Padded(5, "1", 0);
    assert Zeros(5) + "1" + Zeros(0) == "000001" && ToNat("1") == 1 && Pow10(0) == 1;
    assert PadEnd("000001", 6) == "000001";
    OneDecimal("1", "000001");
  }

  lemma FeeExample()
    ensures Deposit.Scale6(FEE) == Some(1_300_000)
  {
    Padded(0, "3", 5);
    assert Zeros(0) + "3" + Zeros(5) == PadEnd("3", 6) && ToNat("3") == 3 && Pow10(5) == 100_000;
    assert ToNat("1") == 1;
    OneDecimal("1", "3");
  }

  lemma CapExample()
    ensures ParseUsdcBase6(CAP) == Ok(130) && Trim(CAP) == CAP
  {
    Padded(3, "13", 1);
    assert Zeros(3) + "13" + Zeros(1) == PadEnd("00013", 6) && ToNat("13") == 13 && Pow10(1) == 10;
    assert ToNat("0") == 0;
    OneDecimal("0", "00013");
  }

  lemma FeeOfExample(amountText: string, feeText: string, capText: string)
    requires ParseUsdcBase6(amountText) == Ok(1_000_001) && Deposit.Scale6(feeText) == Some(1_300_000)
    requires ParseUsdcBase6(capText) == Ok(130)
    ensures Deposit.QuotedFeeBase6(amountText, feeText) == Some(130)
      && !Deposit.FeeOverCap(amountText, feeText, capText)
  {
    QuotedNumber(amountText, feeText, 1_300_000);
    FlooredExample();
    OverCapIff(amountText, feeText, capText, 130, 130);
  }

  lemma FlooredExample()
    ensures Deposit.FlooredFee(1_000_001, 1_300_000) == 130
  {
    assert 1_000_001 * 1_300_000 == 1_300_001_300_000;
  }

  lemma OverCapIff(amountText: string, feeText: string, capText: string, quoted: nat, cap: nat)
    requires Deposit.QuotedFeeBase6(amountText, feeText) == Some(quoted) && ParseUsdcBase6(capText) == Ok(cap)
    ensures Deposit.FeeOverCap(amountText, feeText, capText) <==> quoted > cap
  {
  }

  lemma PlanExample()
    ensures ResolveMaxFee(1_000_001, 1.3) == Ok(131)
  {
    assert Deposit.Round(13.0) == 13;
    assert 1_000_001 * 13 + 100_000 - 1 == 13_100_012;
  }

  /** The quote is 130 base units and passes the cap; the planner's ceiling is 131. */
  lemma CeilingPassesCap()
    ensures Deposit.QuotedFeeBase6(AMOUNT, FEE) == Some(130) && !Deposit.FeeOverCap(AMOUNT, FEE, CAP)
    ensures ParseUsdcBase6(CAP) == Ok(130) && ResolveMaxFee(1_000_001, 1.3) == Ok(131)
  {
    AmountExample();
    FeeExample();
    CapExample();
    FeeOfExample(AMOUNT, FEE, CAP);
    PlanExample();
  }

  lemma QuotingEnters(s: Deposit.State, amount: string, fee: string, cap: string, nowMs: int)
    requires s == Deposit.INITIAL_DEPOSIT.(step := Deposit.Quoting, amount := Some(amount), maxFee := Some(cap))
    requires !Deposit.FeeOverCap(amount, fee, cap)
    ensures Deposit.EntersFastBurn(s, Deposit.QuoteReceived(Deposit.FeeQuote(fee, 1000, true, "", Fast, nowMs)))
  {
  }

  /** And these texts are those of a state that has entered fast burning. */
  lemma CeilingPassesCapInARun(nowMs: int)
    ensures var quote := Deposit.FeeQuote(FEE, 1000, true, "", Fast, nowMs);
      var s := Deposit.Run([Deposit.AmountInput(AMOUNT)] + [Deposit.MaxFeeInput(CAP)] + [Deposit.Execute(nowMs)]);
      Deposit.EntersFastBurn(s, Deposit.QuoteReceived(quote)) && s.amount == Some(AMOUNT) && s.maxFee == Some(CAP)
  {
    CapExample();
    CeilingPassesCap();
    Deposit.AmountCapExecute(AMOUNT, CAP, nowMs);
    QuotingEnters(Deposit.Run([Deposit.AmountInput(AMOUNT)] + [Deposit.MaxFeeInput(CAP)] + [Deposit.Execute(nowMs)]),
      AMOUNT, FEE, CAP, nowMs);
  }
}

// What the events so far say about the state of a deposit: in which step it is, with which
// receipt and with which error, told from the events alone (apps/demo/src/catalog/depositMachine.ts).

module DepositHistory {
  import opened Wrappers
  import opened Text
  import opened Transfers
  import opened Deposit

  // ----- The fast wait and its degradation

  /** A frame that ends the wait: settled with a receipt, or failed. */
  predicate Final(f: StatusFrame) {
    (f.status.FrameSettled? && f.receipt.Some?) || f.status.FrameFailed?
  }

  /** Apart from another burn, these lead out of a wait. */
  predicate Leaves(e: Event) {
    match e
    case Receiving(_) => true
    case Submitting => true
    case SettledEvent(_, _, _, _) => true
    case ErrorEvent(_) => true
    case Execute(_) => true
    case SettleReady => true
    case Cancel => true
    case Status(f) => Final(f)
    case _ => false
  }

  /** Fast is no longer on offer: the window has passed, or a frame says so. */
  predicate Trigger(e: Event) {
    match e
    case FastWindowExpired => true
    case Status(f) =>
      !Final(f)
        && (f.degraded || f.finalityThresholdExecuted == Some(2000) || f.delayReason == Some("insufficient_fee"))
    case _ => false
  }

  /** The latest burn is event b, in fast mode, and nothing later leaves the wait. */
  ghost predicate WaitsSince(es: seq<Event>, b: nat) {
    && b < |es| && es[b].BurnSubmitted? && es[b].burnMode.Fast?
    && forall j :: b < j < |es| ==> !es[j].BurnSubmitted? && !Leaves(es[j])
  }

  /** The latest quote between the two, if there is one, is for fast mode. */
  ghost predicate FastBetween(es: seq<Event>, b: nat, t: nat)
    requires t <= |es|
  {
    forall j :: b < j < t && es[j].QuoteReceived? && (forall k :: j < k < t ==> !es[k].QuoteReceived?) ==>
      es[j].quote.mode.Fast?
  }

  /** After event b a trigger came while the mode was still fast. */
  ghost predicate TriggeredSince(es: seq<Event>, b: nat) {
    exists t :: b < t < |es| && Trigger(es[t]) && FastBetween(es, b, t)
  }

  predicate Waits(es: seq<Event>) {
    es != [] &&
    var e := es[|es| - 1];
    if e.BurnSubmitted? then e.burnMode.Fast? else !Leaves(e) && Waits(es[..|es| - 1])
  }

  predicate StillFast(es: seq<Event>) {
    es != [] &&
    match es[|es| - 1]
    case BurnSubmitted(_, mode) => mode.Fast?
    case QuoteReceived(quote) => quote.mode.Fast?
    case _ => StillFast(es[..|es| - 1])
  }

  predicate Triggered(es: seq<Event>) {
    es != [] && !es[|es| - 1].BurnSubmitted? &&
    var front := es[..|es| - 1];
    Triggered(front) || (Trigger(es[|es| - 1]) && StillFast(front))
  }

  /** What one event does to a state that waits, and that no other event than a burn starts a wait. */
  lemma WaitStep(s: State, e: Event)
    ensures var t := Reduce(s, e);
      var waiting := s.step.FastWait? || s.step.DegradedStandard?;
      && (t.step.FastWait? <==>
            if e.BurnSubmitted? then e.burnMode.Fast?
            else s.step.FastWait? && !Leaves(e) && !(Trigger(e) && s.mode.Fast?))
      && (t.step.DegradedStandard? <==>
            !e.BurnSubmitted? && !Leaves(e)
            && (s.step.DegradedStandard? || (s.step.FastWait? && Trigger(e) && s.mode.Fast?)))
      && (e.BurnSubmitted? ==> t.mode == e.burnMode)
      && (waiting && !e.BurnSubmitted? && !Leaves(e) ==> t.mode == if e.QuoteReceived? then e.quote.mode else s.mode)
  {
  }

  lemma {:induction false} StepOfHistory(es: seq<Event>)
    ensures Run(es).step.FastWait? <==> Waits(es) && !Triggered(es)
    ensures Run(es).step.DegradedStandard? <==> Waits(es) && Triggered(es)
    ensures Waits(es) ==> (Run(es).mode.Fast? <==> StillFast(es))
  {
    if es != [] {
      StepOfHistory(es[..|es| - 1]);
      WaitStep(Run(es[..|es| - 1]), es[|es| - 1]);
    }
  }

  lemma {:induction false} WaitsMeaning(es: seq<Event>)
    ensures Waits(es) <==> exists b: nat :: WaitsSince(es, b)
  {
    if es != [] {
      var front, e := es[..|es| - 1], es[|es| - 1];
      WaitsMeaning(front);
      if Waits(es) {
        if e.BurnSubmitted? {
          assert WaitsSince(es, |front|);
        } else {
          var b: nat :| WaitsSince(front, b);
          assert WaitsSince(es, b);
        }
      }
      if b: nat :| WaitsSince(es, b) {
        if b < |front| {
          assert !es[|front|].BurnSubmitted? && !Leaves(es[|front|]);
          assert WaitsSince(front, b);
        }
      }
    }
  }

  lemma {:induction false} StillFastMeaning(es: seq<Event>, b: nat, t: nat)
    requires WaitsSince(es, b) && b < t <= |es|
    ensures StillFast(es[..t]) <==> FastBetween(es, b, t)
    decreases t
  {
    var front := es[..t - 1];
    assert es[..t][..t - 1] == front && es[..t][t - 1] == es[t - 1];
    if t - 1 > b {
      StillFastMeaning(es, b, t - 1);
      assert !es[t - 1].BurnSubmitted?;
      if !es[t - 1].QuoteReceived? { LatestQuoteEarlier(es, b, t); }
    }
  }

  lemma LatestQuoteEarlier(es: seq<Event>, b: nat, t: nat)
    requires b < t - 1 && t <= |es| && !es[t - 1].QuoteReceived?
    ensures FastBetween(es, b, t) <==> FastBetween(es, b, t - 1)
  {
    forall j | b < j < t - 1 && es[j].QuoteReceived? && forall k :: j < k < t - 1 ==> !es[k].QuoteReceived?
      ensures forall k :: j < k < t ==> !es[k].QuoteReceived?
    {
    }
  }

  lemma {:induction false} TriggeredMeaning(es: seq<Event>, b: nat, n: nat)
    requires WaitsSince(es, b) && b < n <= |es|
    ensures Triggered(es[..n]) <==> exists t :: b < t < n && Trigger(es[t]) && FastBetween(es, b, t)
    decreases n
  {
    assert es[..n][..n - 1] == es[..n - 1] && es[..n][n - 1] == es[n - 1];
    if n - 1 > b {
      TriggeredMeaning(es, b, n - 1);
      StillFastMeaning(es, b, n - 1);
      assert !es[n - 1].BurnSubmitted?;
    }
  }

  /**
   * In every run: the deposit is degraded to standard if and only if the latest burn was in
   * fast mode, no later event left the wait, and a trigger has come since while the latest
   * quote, if any came after the burn, was for fast mode; and it is in the fast wait if and
   * only if the same holds without such a trigger.
   */
  lemma DegradedIff(es: seq<Event>)
    ensures Run(es).step.DegradedStandard? <==> exists b: nat :: WaitsSince(es, b) && TriggeredSince(es, b)
    ensures Run(es).step.FastWait? <==> exists b: nat :: WaitsSince(es, b) && !TriggeredSince(es, b)
  {
    StepOfHistory(es);
    WaitsMeaning(es);
    forall b: nat | WaitsSince(es, b) ensures Triggered(es) <==> TriggeredSince(es, b) {
      TriggeredMeaning(es, b, |es|);
      assert es[..|es|] == es;
    }
  }

  /** A quote for standard mode during the wait keeps every later trigger from degrading it. */
  lemma StandardQuoteHoldsTheWait(hash: string, quote: FeeQuote)
    requires quote.mode.Standard?
    ensures Run([BurnSubmitted(hash, Fast)] + [QuoteReceived(quote)] + [FastWindowExpired]).step.FastWait?
  {
    RunSnoc([], BurnSubmitted(hash, Fast));
    assert [] + [BurnSubmitted(hash, Fast)] == [BurnSubmitted(hash, Fast)];
    RunSnoc([BurnSubmitted(hash, Fast)], QuoteReceived(quote));
    RunSnoc([BurnSubmitted(hash, Fast)] + [QuoteReceived(quote)], FastWindowExpired);
  }

  // ----- The receipt

  predicate Polls(s: State) {
    s.step.FastWait? || s.step.DegradedStandard? || s.step.Attesting?
  }

  /** The receipt with which this event, in this state, lands the deposit. */
  function Landing(s: State, e: Event): Option<Receipt> {
    match e
    case SettledEvent(simulated, txHash, amount, dust) =>
      Some(Receipt(amount, match dust case Some(d) => d case None => "0", txHash, simulated))
    case Status(f) =>
      if Polls(s) && f.status.FrameSettled? && f.receipt.Some? then
        Some(Receipt(f.receipt.value.stellarAmount, "0", f.receipt.value.mintTxHash, false))
      else None
    case _ => None
  }

  /** For each event so far, the receipt with which it landed the deposit, if it did. */
  function Landings(es: seq<Event>): (r: seq<Option<Receipt>>)
    ensures |r| == |es|
  {
    if es == [] then []
    else Landings(es[..|es| - 1]) + [Landing(Run(es[..|es| - 1]), es[|es| - 1])]
  }

  /** Entry j is the last one that is there. */
  predicate Latest<T>(entries: seq<Option<T>>, j: nat) {
    && j < |entries| && entries[j].Some?
    && forall i :: j < i < |entries| ==> entries[i].None?
  }

  /** These take a settled deposit out of that step. */
  predicate Reopens(e: Event) {
    e.Receiving? || e.Submitting? || e.ErrorEvent? || e.Execute? || e.BurnSubmitted?
  }

  ghost predicate SettledSince(es: seq<Event>, j: nat) {
    forall i :: j < i < |es| ==> !Reopens(es[i])
  }

  lemma LandStep(s: State, e: Event)
    ensures var t := Reduce(s, e);
      if Landing(s, e).Some? then t.step.Settled? && t.receipt == Landing(s, e)
      else t.receipt == s.receipt && (t.step.Settled? <==> s.step.Settled? && !Reopens(e))
  {
  }

  /** Each landing is that of its own event in the state that the earlier ones have led to. */
  lemma {:induction false} LandingsMeaning(es: seq<Event>, i: nat)
    requires i < |es|
    ensures Landings(es)[i] == Landing(Run(es[..i]), es[i])
  {
    var front := es[..|es| - 1];
    if i < |front| {
      LandingsMeaning(front, i);
      assert front[..i] == es[..i];
    }
  }

  lemma LatestSnoc<T>(entries: seq<Option<T>>, x: Option<T>)
    ensures forall j: nat :: Latest(entries + [x], j) <==> if x.Some? then j == |entries| else Latest(entries, j)
  {
    forall j: nat ensures Latest(entries + [x], j) <==> if x.Some? then j == |entries| else Latest(entries, j) {
      var more := entries + [x];
      assert more[|entries|] == x;
      if Latest(more, j) && j < |entries| {
        assert more[|entries|].None?;
        forall i | j < i < |entries| ensures entries[i].None? { assert more[i].None?; }
      }
    }
  }

  /**
   * In every run the receipt is the own amount and hash of the latest settled event, or of
   * the latest receipt frame that came during polling, and the deposit is settled if and only
   * if nothing has reopened it since; without such an event there is no receipt.
   */
  lemma {:induction false} ReceiptIsLatest(es: seq<Event>)
    ensures forall j: nat :: Latest(Landings(es), j) ==>
      Run(es).receipt == Landings(es)[j] && (Run(es).step.Settled? <==> SettledSince(es, j))
    ensures (forall j: nat :: !Latest(Landings(es), j)) ==> Run(es).receipt == None && !Run(es).step.Settled?
  {
    if es != [] {
      var front, e := es[..|es| - 1], es[|es| - 1];
      assert es == front + [e];
      ReceiptIsLatest(front);
      LandStep(Run(front), e);
      LatestSnoc(Landings(front), Landing(Run(front), e));
      forall j: nat | j < |front| ensures SettledSince(es, j) <==> SettledSince(front, j) && !Reopens(e) {
        SettledSinceSnoc(front, e, j);
      }
      if Landing(Run(front), e).Some? { assert Latest(Landings(es), |front|); }
    }
  }

  lemma SettledSinceSnoc(front: seq<Event>, e: Event, j: nat)
    requires j < |front|
    ensures SettledSince(front + [e], j) <==> SettledSince(front, j) && !Reopens(e)
  {
    var es := front + [e];
    assert es[|front|] == e;
    forall i | j < i < |front| ensures es[i] == front[i] {
    }
    if SettledSince(es, j) {
      forall i | j < i < |front| ensures !Reopens(front[i]) { assert !Reopens(es[i]); }
    }
  }

  // ----- The other steps

  /** The text of a failure: the remediation, or else the code, or else a general word. */
  predicate FailsWith(s: State, e: Event, text: string) {
    match e
    case ErrorEvent(message) => text == message
    case Status(f) =>
      && Polls(s) && f.status.FrameFailed?
      && (match f.error
          case Some(FrameError(_, Some(remediation))) => text == remediation
          case Some(FrameError(Some(code), None)) => text == code
          case _ => text == "Transfer failed")
    case _ => false
  }

  /** A fast transfer may burn: a fast quote, at most five minutes old, whose fee is not known to exceed the cap. */
  predicate MayBurnFast(s: State, nowMs: int) {
    && s.quote.Some? && s.quote.value.mode.Fast? && 0 <= nowMs - s.quote.value.fetchedAt <= 300_000
    && !QuoteFeeOverMax(s)
  }

  /** Step by step, exactly which events lead into it from another one. */
  lemma WhatLeadsWhere(s: State, e: Event)
    ensures var t := Reduce(s, e);
      && (t.step.Quoting? && !s.step.Quoting? <==>
            !s.step.Quoting? && e.Execute? && s.mode.Fast? && !MayBurnFast(s, e.nowMs))
      && (t.step.Burning? && !s.step.Burning? <==>
            || (!s.step.Burning? && e.Execute? && (s.mode.Standard? || MayBurnFast(s, e.nowMs)))
            || (s.step.Quoting? && e.QuoteReceived?
                && !QuoteFeeOverMax(s.(quote := Some(e.quote), mode := e.quote.mode))))
      && (t.step.Attesting? && !s.step.Attesting? <==>
            !s.step.Attesting? &&
              (e.Receiving? || (e.BurnSubmitted? && e.burnMode.Standard?)
               || (e.RetryStandard? && s.step.Cancelled? && s.burnTxHash.Some? && s.burnTxHash.value != "")))
      && (t.step.Settling? && !s.step.Settling? <==>
            !s.step.Settling? && (e.Submitting? || (e.SettleReady? && Polls(s))))
      && (t.step.Cancelled? && !s.step.Cancelled? <==>
            e.Cancel? && !(s.step.Idle? || s.step.Settled? || s.step.Cancelled? || s.step.Error?))
      && (t.step.Error? && !s.step.Error? <==> !s.step.Error? && exists text :: FailsWith(s, e, text))
      && (t.step.Idle? ==> s.step.Idle?)
  {
    if e.ErrorEvent? { assert FailsWith(s, e, e.message); }
    if e.Status? && e.frame.status.FrameFailed? && Polls(s) { assert FailsWith(s, e, ErrorText(e.frame.error)); }
  }

  /** And field by field, which events write it, and what. */
  lemma WhatIsWritten(s: State, e: Event)
    ensures var t := Reduce(s, e);
      var early := s.step.Idle? || s.step.Quoting? || s.step.Error?;
      && t.amount == (if e.AmountInput? && early then Some(e.amount) else s.amount)
      && t.maxFee == (if e.MaxFeeInput? && early then if Trim(e.maxFee) == "" then None else Some(Trim(e.maxFee))
                      else s.maxFee)
      && t.quote == (if e.QuoteReceived? then Some(e.quote) else s.quote)
      && t.mode == (if e.ModeChange? && early then e.mode else if e.QuoteReceived? then e.quote.mode
                    else if e.BurnSubmitted? then e.burnMode else s.mode)
      && (forall text :: FailsWith(s, e, text) ==> t.errorDetails == Some(text))
      && ((forall text :: !FailsWith(s, e, text)) ==>
            t.errorDetails == if e.BurnSubmitted? then None else s.errorDetails)
      && (e.Receiving? ==> t.attempts == e.attempt)
  {
    if e.ErrorEvent? { assert FailsWith(s, e, e.message); }
    if e.Status? && e.frame.status.FrameFailed? && Polls(s) { assert FailsWith(s, e, ErrorText(e.frame.error)); }
  }
}

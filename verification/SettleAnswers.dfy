// Why a caller of the settle protocol gets the answer that it gets: for each answer exactly
// the steps and the replies that lead to it (apps/demo/server/handlers.ts,
// packages/core/src/receive.ts, packages/core/src/forwarder/index.ts).

module SettleAnswers {
  import opened Wrappers
  import opened Text
  import opened CctpMessage
  import opened Intents
  import opened SettleRules
  import opened SettleProtocol
  import Inputs
  import Locks

  // ----- Inside the lock

  /** receive() is past its replay check and its check of the address, and before submitMint. */
  predicate BeforeMint(env: Env, sh: Shared, q: SettleRequest, step: HeldStep) {
    || (step.CheckingCore? && q.params.hash !in sh.core && env.isAccount(q.params.address))
    || step.Attesting? || step.EnsuringTrustline?
  }

  /** submitMint is before its polls. */
  predicate Minting(step: HeldStep) {
    step.Simulating? || step.Signing? || step.Sending?
  }

  /** In submitMint, or right behind it. */
  predicate Mints(step: HeldStep) {
    Minting(step) || step.Confirming? || step.MarkingSubmitted?
  }

  /** The awaited call rejects with this; a send may have landed all the same. */
  predicate Rejects(step: HeldStep, r: Reply, thrown: Thrown) {
    r == Throws(thrown) || (step.Sending? && r.Landed? && r.error == thrown)
  }

  /** It rejects with this error of the SDK, at a step that lets it pass. */
  predicate Raises(env: Env, sh: Shared, q: SettleRequest, step: HeldStep, r: Reply, f: Failure) {
    (BeforeMint(env, sh, q, step) || Minting(step)) &&
    match f
    case AttestationTimeout => Rejects(step, r, Sdk(AttestationTimeout))
    case MintFailedError => Rejects(step, r, Sdk(MintFailedError))
    case BadInput => Rejects(step, r, Sdk(BadInput))
    case OtherError => Rejects(step, r, Sdk(OtherError))
    case _ => false
  }

  /** The next step is to release with this answer. */
  predicate Answers(env: Env, sh: Shared, q: SettleRequest, step: HeldStep, r: Reply, a: Answer) {
    !step.Releasing? && NextHeld(env, sh, q, step, r).1 == Releasing(a)
  }

  predicate SettledIn(store: map<string, Record>, h: string) {
    h in store && store[h].status == SettledStatus
  }

  predicate NotReadyCause(env: Env, sh: Shared, q: SettleRequest, step: HeldStep, r: Reply) {
    || (step.Probing? && r.Probed? && env.probesIris && r.issued && !r.ready)
    || (step.RereadingReplay? && !r.Throws? && !SettledIn(sh.durable, q.params.hash))
    || Raises(env, sh, q, step, r, AttestationTimeout)
  }

  lemma NotReadyAtAttesting(env: Env, sh: Shared, q: SettleRequest, step: HeldStep, r: Reply)
    requires step.Attesting?
    ensures Answers(env, sh, q, step, r, Refused(409, NotReady)) <==> NotReadyCause(env, sh, q, step, r)
  {
    if r.Attested? { Inputs.AttestationErrors(q.params.amount, r.message, r.signature); }
  }

  lemma NotReadyMinting(env: Env, sh: Shared, q: SettleRequest, step: HeldStep, r: Reply)
    requires Mints(step)
    ensures Answers(env, sh, q, step, r, Refused(409, NotReady)) <==> NotReadyCause(env, sh, q, step, r)
  {
  }

  lemma NotReadyElsewhere(env: Env, sh: Shared, q: SettleRequest, step: HeldStep, r: Reply)
    requires !step.Attesting? && !Mints(step)
    ensures Answers(env, sh, q, step, r, Refused(409, NotReady)) <==> NotReadyCause(env, sh, q, step, r)
  {
  }

  /** 409 NOT_READY: Iris has issued nothing yet, the poll timed out, or core knows a burn that is not settled. */
  lemma WhenNotReady(env: Env, sh: Shared, q: SettleRequest, step: HeldStep, r: Reply)
    ensures Answers(env, sh, q, step, r, Refused(409, NotReady)) <==> NotReadyCause(env, sh, q, step, r)
  {
    if step.Attesting? {
      NotReadyAtAttesting(env, sh, q, step, r);
    } else if Mints(step) {
      NotReadyMinting(env, sh, q, step, r);
    } else {
      NotReadyElsewhere(env, sh, q, step, r);
    }
  }

  /** The network does not take the transaction: another status than PENDING, or no hash. */
  predicate TurnsDown(step: HeldStep, r: Reply) {
    && step.Sending? && r.Submitted?
    && match r.hash
       case Some(tx) => r.status != "PENDING" || tx == ""
       case None => true
  }

  predicate MintFailedCause(env: Env, sh: Shared, q: SettleRequest, step: HeldStep, r: Reply) {
    || (Minting(step) && Rejects(step, r, Plain)) || TurnsDown(step, r)
    || (step.Confirming? && r == Tx("FAILED")) || Raises(env, sh, q, step, r, MintFailedError)
  }

  lemma MintFailedAtAttesting(env: Env, sh: Shared, q: SettleRequest, step: HeldStep, r: Reply)
    requires step.Attesting?
    ensures Answers(env, sh, q, step, r, Refused(502, MintFailed)) <==> MintFailedCause(env, sh, q, step, r)
  {
    if r.Attested? { Inputs.AttestationErrors(q.params.amount, r.message, r.signature); }
  }

  lemma MintFailedMinting(env: Env, sh: Shared, q: SettleRequest, step: HeldStep, r: Reply)
    requires Mints(step)
    ensures Answers(env, sh, q, step, r, Refused(502, MintFailed)) <==> MintFailedCause(env, sh, q, step, r)
  {
  }

  lemma MintFailedElsewhere(env: Env, sh: Shared, q: SettleRequest, step: HeldStep, r: Reply)
    requires !step.Attesting? && !Mints(step)
    ensures Answers(env, sh, q, step, r, Refused(502, MintFailed)) <==> MintFailedCause(env, sh, q, step, r)
  {
  }

  /** 502 MINT_FAILED: the mint could not be sent, was turned down, or failed on the network. */
  lemma WhenMintFailed(env: Env, sh: Shared, q: SettleRequest, step: HeldStep, r: Reply)
    ensures Answers(env, sh, q, step, r, Refused(502, MintFailed)) <==> MintFailedCause(env, sh, q, step, r)
  {
    if step.Attesting? {
      MintFailedAtAttesting(env, sh, q, step, r);
    } else if Mints(step) {
      MintFailedMinting(env, sh, q, step, r);
    } else {
      MintFailedElsewhere(env, sh, q, step, r);
    }
  }

  /** The attested message holds another amount than the request. */
  ghost predicate OtherAmount(q: SettleRequest, step: HeldStep, r: Reply) {
    step.Attesting? && r.Attested? && exists amount: nat, fee: nat ::
      amount != q.params.amount && Inputs.Attests(r.message, r.signature, amount, fee)
  }

  ghost predicate InvalidCause(env: Env, sh: Shared, q: SettleRequest, step: HeldStep, r: Reply) {
    || (step.CheckingCore? && q.params.hash !in sh.core && !env.isAccount(q.params.address))
    || OtherAmount(q, step, r)
    || (step.MarkingSubmitted? && !(0 < q.params.amount - step.fee <= 0xFFFF_FFFF_FFFF_FFFF))
    || Raises(env, sh, q, step, r, BadInput)
  }

  /** The same with the attestation judged as a whole. */
  lemma InvalidJudged(env: Env, sh: Shared, q: SettleRequest, r: Reply)
    ensures Answers(env, sh, q, Attesting, r, Refused(400, InvalidParams)) <==>
      || (r.Attested? && AttestedAmounts(q.params.amount, r.message, r.signature) == Err(BadInput))
      || r == Throws(Sdk(BadInput))
  {
    if r.Attested? { Inputs.AttestationErrors(q.params.amount, r.message, r.signature); }
  }

  lemma InvalidMeaning(q: SettleRequest, r: Reply)
    requires r.Attested?
    ensures AttestedAmounts(q.params.amount, r.message, r.signature) == Err(BadInput)
      <==> OtherAmount(q, Attesting, r)
  {
    Inputs.AttestationIff(q.params.amount, r.message, r.signature);
  }

  lemma InvalidCauses(env: Env, sh: Shared, q: SettleRequest, r: Reply)
    ensures InvalidCause(env, sh, q, Attesting, r) <==>
      OtherAmount(q, Attesting, r) || r == Throws(Sdk(BadInput))
  {
  }

  lemma InvalidAtAttesting(env: Env, sh: Shared, q: SettleRequest, step: HeldStep, r: Reply)
    requires step.Attesting?
    ensures Answers(env, sh, q, step, r, Refused(400, InvalidParams)) <==> InvalidCause(env, sh, q, step, r)
  {
    InvalidCauses(env, sh, q, r);
    InvalidJudged(env, sh, q, r);
    if r.Attested? { InvalidMeaning(q, r); }
  }

  lemma InvalidMinting(env: Env, sh: Shared, q: SettleRequest, step: HeldStep, r: Reply)
    requires Mints(step)
    ensures Answers(env, sh, q, step, r, Refused(400, InvalidParams)) <==> InvalidCause(env, sh, q, step, r)
  {
  }

  lemma InvalidElsewhere(env: Env, sh: Shared, q: SettleRequest, step: HeldStep, r: Reply)
    requires !step.Attesting? && !Mints(step)
    ensures Answers(env, sh, q, step, r, Refused(400, InvalidParams)) <==> InvalidCause(env, sh, q, step, r)
  {
  }

  /** 400 INVALID_PARAMS: a contract's address, another amount, or a fee that leaves nothing to credit. */
  lemma WhenInvalid(env: Env, sh: Shared, q: SettleRequest, step: HeldStep, r: Reply)
    ensures Answers(env, sh, q, step, r, Refused(400, InvalidParams)) <==> InvalidCause(env, sh, q, step, r)
  {
    if step.Attesting? {
      InvalidAtAttesting(env, sh, q, step, r);
    } else if Mints(step) {
      InvalidMinting(env, sh, q, step, r);
    } else {
      InvalidElsewhere(env, sh, q, step, r);
    }
  }

  /** The reply to the poll is not an attestation at all. */
  ghost predicate Malformed(step: HeldStep, r: Reply) {
    step.Attesting? && r.Attested? && forall amount: nat, fee: nat ::
      !Inputs.Attests(r.message, r.signature, amount, fee)
  }

  /** The account to which dust goes: the configured one, or else the destination. */
  predicate Collects(env: Env, q: SettleRequest) {
    match env.dustCollector
    case Some(c) => env.isAccount(if c == "" then q.params.address else c)
    case None => env.isAccount(q.params.address)
  }

  ghost predicate ReceiveFailedCause(env: Env, sh: Shared, q: SettleRequest, step: HeldStep, r: Reply) {
    || (BeforeMint(env, sh, q, step) && Rejects(step, r, Plain)) || Malformed(step, r)
    || (step.MarkingSubmitted? && 0 < q.params.amount - step.fee <= 0xFFFF_FFFF_FFFF_FFFF && !Collects(env, q))
    || Raises(env, sh, q, step, r, OtherError)
  }

  /** The same with the attestation judged as a whole. */
  lemma ReceiveFailedJudged(env: Env, sh: Shared, q: SettleRequest, r: Reply)
    ensures Answers(env, sh, q, Attesting, r, Refused(502, ReceiveFailed)) <==>
      || (r.Attested? && AttestedAmounts(q.params.amount, r.message, r.signature) == Err(OtherError))
      || r == Throws(Sdk(OtherError)) || r == Throws(Plain)
  {
    if r.Attested? { Inputs.AttestationErrors(q.params.amount, r.message, r.signature); }
  }

  lemma ReceiveFailedMeaning(q: SettleRequest, r: Reply)
    requires r.Attested?
    ensures AttestedAmounts(q.params.amount, r.message, r.signature) == Err(OtherError)
      <==> Malformed(Attesting, r)
  {
    Inputs.AttestationIff(q.params.amount, r.message, r.signature);
  }

  lemma ReceiveFailedCauses(env: Env, sh: Shared, q: SettleRequest, r: Reply)
    ensures ReceiveFailedCause(env, sh, q, Attesting, r) <==>
      Malformed(Attesting, r) || r == Throws(Sdk(OtherError)) || r == Throws(Plain)
  {
  }

  lemma ReceiveFailedAtAttesting(env: Env, sh: Shared, q: SettleRequest, step: HeldStep, r: Reply)
    requires step.Attesting?
    ensures Answers(env, sh, q, step, r, Refused(502, ReceiveFailed)) <==> ReceiveFailedCause(env, sh, q, step, r)
  {
    ReceiveFailedCauses(env, sh, q, r);
    ReceiveFailedJudged(env, sh, q, r);
    if r.Attested? { ReceiveFailedMeaning(q, r); }
  }

  lemma ReceiveFailedMinting(env: Env, sh: Shared, q: SettleRequest, step: HeldStep, r: Reply)
    requires Mints(step)
    ensures Answers(env, sh, q, step, r, Refused(502, ReceiveFailed)) <==> ReceiveFailedCause(env, sh, q, step, r)
  {
  }

  lemma ReceiveFailedElsewhere(env: Env, sh: Shared, q: SettleRequest, step: HeldStep, r: Reply)
    requires !step.Attesting? && !Mints(step)
    ensures Answers(env, sh, q, step, r, Refused(502, ReceiveFailed)) <==> ReceiveFailedCause(env, sh, q, step, r)
  {
  }

  /** 502 RECEIVE_FAILED: anything else that goes wrong before or after the mint. */
  lemma WhenReceiveFailed(env: Env, sh: Shared, q: SettleRequest, step: HeldStep, r: Reply)
    ensures Answers(env, sh, q, step, r, Refused(502, ReceiveFailed)) <==> ReceiveFailedCause(env, sh, q, step, r)
  {
    if step.Attesting? {
      ReceiveFailedAtAttesting(env, sh, q, step, r);
    } else if Mints(step) {
      ReceiveFailedMinting(env, sh, q, step, r);
    } else {
      ReceiveFailedElsewhere(env, sh, q, step, r);
    }
  }

  /** 502 MINT_UNCONFIRMED: the submitted record has been written. */
  lemma WhenUnconfirmed(env: Env, sh: Shared, q: SettleRequest, step: HeldStep, r: Reply)
    ensures Answers(env, sh, q, step, r, Refused(502, MintUnconfirmed)) <==>
      step.PersistingSubmitted? && !r.Throws? && !r.Unacked?
    ensures NextHeld(env, sh, q, step, r).1.PersistingSubmitted? && !step.PersistingSubmitted? <==>
      && step.Confirming? && step.attempt + 1 >= 20
      && (r.Throws? || (r.Tx? && r.status != "SUCCESS" && r.status != "FAILED"))
  {
  }

  /** A receipt: the settled record has been written, or stands there already. */
  lemma WhenReceipt(env: Env, sh: Shared, q: SettleRequest, step: HeldStep, r: Reply, stroops: int, tx: string)
    ensures Answers(env, sh, q, step, r, Receipt(stroops, tx)) <==>
      || (step == PersistingSettled(tx, stroops) && !r.Throws? && !r.Unacked?)
      || (step.RereadingReplay? && !r.Throws? && SettledIn(sh.durable, q.params.hash)
          && sh.durable[q.params.hash].txHash == tx
          && stroops == match sh.durable[q.params.hash].amount case Some(n) => n case None => 0)
  {
  }

  /** An exception leaves the handler: a store or the sponsor's sequence could not be read or written. */
  lemma WhenCrashed(env: Env, sh: Shared, q: SettleRequest, step: HeldStep, r: Reply)
    ensures Answers(env, sh, q, step, r, Crashed) <==>
      || (r.Throws? && (step.ReadingSequence? || step.RereadingReplay?))
      || ((r.Throws? || r.Unacked?) && (step.PersistingSettled? || step.PersistingSubmitted?))
  {
    if step.Attesting? && r.Attested? { Inputs.AttestationErrors(q.params.amount, r.message, r.signature); }
  }

  // ----- Before the lock, and in a status call

  predicate Finishes(env: Env, sh: Shared, q: SettleRequest, o: OuterStep, r: Reply, a: Answer) {
    NextOuter(env, sh, q, o, r).1 == Done(a)
  }

  /** 429: the bucket is full, or another holder has the lock. */
  lemma WhenRateLimited(env: Env, sh: Shared, q: SettleRequest, o: OuterStep, r: Reply)
    ensures Finishes(env, sh, q, o, r, Refused(429, RateLimited)) <==>
      || ((o.ConsumingBucket? || o.StatusBucket?) && r.Nack?)
      || (o.Acquiring? && r.Ack? && var key := "settle:" + q.params.hash;
            key in sh.locks.held && sh.now < sh.locks.held[key].expiresAt)
  {
  }

  /** The intent that was read, if the store may answer with it. */
  predicate ReadsIntent(sh: Shared, q: SettleRequest, o: OuterStep, r: Reply, i: Intent) {
    && o.ReadingIntent? && r == Found(Some(i))
    && i in sh.recorded && i.intentId == q.intentId && i.burnTxHash == q.params.hash
  }

  /** 403: there is no intent, or it is for another address, amount or mode. */
  lemma WhenForbidden(env: Env, sh: Shared, q: SettleRequest, o: OuterStep, r: Reply)
    ensures Finishes(env, sh, q, o, r, Refused(403, NoIntent)) <==>
      (o.ReadingIntent? || o.StatusIntent?) && r == Found(None)
    ensures Finishes(env, sh, q, o, r, Refused(403, AddressMismatch)) <==> exists i ::
      ReadsIntent(sh, q, o, r, i)
        && (i.address != q.params.address || i.amount != Print(q.params.amount) || i.transferMode != q.mode)
  {
    if o.ReadingIntent? && r.Found? && r.intent.Some? { assert r == Found(Some(r.intent.value)); }
  }

  /** 400: the intent is for another domain, or the amount exceeds the deployment's cap. */
  lemma WhenTooLarge(env: Env, sh: Shared, q: SettleRequest, o: OuterStep, r: Reply)
    ensures Finishes(env, sh, q, o, r, Refused(400, AmountTooLarge)) <==>
      && env.maxMintBase6.Some? && q.params.amount > env.maxMintBase6.value
      && exists i ::
        && ReadsIntent(sh, q, o, r, i)
        && i.address == q.params.address && i.amount == Print(q.params.amount) && i.transferMode == q.mode
        && i.sourceDomain == 6
    ensures Finishes(env, sh, q, o, r, Refused(400, InvalidParams)) <==> exists i ::
      ReadsIntent(sh, q, o, r, i)
        && i.address == q.params.address && i.amount == Print(q.params.amount) && i.transferMode == q.mode
        && i.sourceDomain != 6
  {
    if o.ReadingIntent? && r.Found? && r.intent.Some? { assert r == Found(Some(r.intent.value)); }
  }

  /** What the durable record answers before anything else is looked at. */
  lemma WhenKnown(env: Env, sh: Shared, q: SettleRequest, o: OuterStep, r: Reply, stroops: int, tx: string)
    ensures Finishes(env, sh, q, o, r, Receipt(stroops, tx)) <==>
      && (o.ReadingReplay? || o.StatusReplay?) && r.Ack? && SettledIn(sh.durable, q.params.hash)
      && sh.durable[q.params.hash].txHash == tx
      && stroops == match sh.durable[q.params.hash].amount case Some(n) => n case None => 0
    ensures Finishes(env, sh, q, o, r, Refused(502, MintUnconfirmed)) <==>
      o.ReadingReplay? && r.Ack? && q.params.hash in sh.durable && !SettledIn(sh.durable, q.params.hash)
    ensures Finishes(env, sh, q, o, r, Crashed) <==> r.Throws? && !o.StatusProbe?
    ensures Finishes(env, sh, q, o, r, Frame(true)) <==> o.StatusProbe? && r.Probed? && r.ready
    ensures Finishes(env, sh, q, o, r, Frame(false)) <==> o.StatusProbe? && r.Probed? && !r.ready
  {
  }

  /** A status call comes to its frame only by an intent recorded for its own hash, address and amount. */
  lemma WhenFramed(env: Env, sh: Shared, q: SettleRequest, o: OuterStep, r: Reply)
    ensures !o.StatusProbe? ==> (NextOuter(env, sh, q, o, r).1 == Outside(StatusProbe) <==>
      o.StatusIntent? && exists i ::
        && r == Found(Some(i)) && i in sh.recorded
        && i.burnTxHash == q.params.hash && i.address == q.params.address && i.amount == Print(q.params.amount))
  {
    if r.Found? && r.intent.Some? { assert r == Found(Some(r.intent.value)); }
  }

  /** The lock is taken under the key of the hash, for a minute, and only if nobody has it. */
  lemma WhenLocked(env: Env, sh: Shared, q: SettleRequest, o: OuterStep, r: Reply)
    ensures NextOuter(env, sh, q, o, r).1.Holding? <==>
      o.Acquiring? && r.Ack? && var key := "settle:" + q.params.hash;
        !(key in sh.locks.held && sh.now < sh.locks.held[key].expiresAt)
    ensures NextOuter(env, sh, q, o, r).1.Holding? ==>
      var (sh', pc) := NextOuter(env, sh, q, o, r);
      var key := "settle:" + q.params.hash;
      && pc.step == Probing && pc.lock.deadline == sh.now + 60_000
      && key in sh'.locks.held && sh'.locks.held[key].expiresAt == sh.now + 60_000
      && sh'.locks.held[key].token == Locks.Token(pc.lock.n)
  {
  }

  // ----- Over whole runs

  /** With this reply the call comes to this answer. */
  predicate Concludes(env: Env, sh: Shared, c: Call, r: Reply, a: Answer) {
    match c.pc
    case Outside(o) => Finishes(env, sh, c.request, o, r, a)
    case Holding(_, step) => Answers(env, sh, c.request, step, r, a)
    case Done(_) => false
  }

  /** Event i is a step of the call with which it comes to this answer. */
  ghost predicate ConcludesAt(env: Env, now: int, es: seq<Event>, i: nat, id: nat, a: Answer) {
    && i < |es| && es[i].Step? && es[i].id == id
    && var s := Run(env, Start(now), es[..i]); id in s.calls && Concludes(env, s.sh, s.calls[id], es[i].reply, a)
  }

  /** The call has this answer, or is about to release with it. */
  predicate HasAnswer(c: Call, a: Answer) {
    c.pc == Done(a) || (c.pc.Holding? && c.pc.step == Releasing(a))
  }

  lemma AnswerIsNew(env: Env, sh: Shared, c: Call, r: Reply, a: Answer)
    requires HasAnswer(NextCall(env, sh, c, r).1, a)
    ensures HasAnswer(c, a) || Concludes(env, sh, c, r, a)
  {
  }

  lemma RunSnoc(env: Env, s: State, es: seq<Event>, e: Event)
    ensures Run(env, s, es + [e]) == Next(env, Run(env, s, es), e)
  {
    RunAppend(env, s, es, [e]);
    var t := Run(env, s, es);
    assert [e][1..] == [] && Run(env, t, [e]) == Run(env, Next(env, t, e), []);
  }

  /** In every run each answer was come to at one of the call's own steps. */
  lemma {:induction false} AnswersHaveCauses(env: Env, now: int, es: seq<Event>, id: nat, a: Answer)
    requires var s := Run(env, Start(now), es); id in s.calls && HasAnswer(s.calls[id], a)
    ensures exists i: nat :: ConcludesAt(env, now, es, i, id, a)
  {
    if es != [] {
      var front, e := es[..|es| - 1], es[|es| - 1];
      var s := Run(env, Start(now), front);
      assert es == front + [e];
      RunSnoc(env, Start(now), front, e);
      if id in s.calls && HasAnswer(s.calls[id], a) {
        AnswersHaveCauses(env, now, front, id, a);
        var i: nat :| ConcludesAt(env, now, front, i, id, a);
        assert front[..i] == es[..i] && front[i] == es[i];
        assert ConcludesAt(env, now, es, i, id, a);
      } else {
        StepConcludes(env, s, e, id, a);
        assert ConcludesAt(env, now, es, |front|, id, a);
      }
    }
  }

  lemma StepConcludes(env: Env, s: State, e: Event, id: nat, a: Answer)
    requires var t := Next(env, s, e); id in t.calls && HasAnswer(t.calls[id], a)
    requires !(id in s.calls && HasAnswer(s.calls[id], a))
    ensures e.Step? && e.id == id && id in s.calls && Concludes(env, s.sh, s.calls[id], e.reply, a)
  {
    if e.Step? && e.id == id && id in s.calls { AnswerIsNew(env, s.sh, s.calls[id], e.reply, a); }
  }

  ghost predicate MintFailsAt(env: Env, now: int, es: seq<Event>, i: nat, id: nat) {
    && i < |es| && es[i].Step? && es[i].id == id
    && var s := Run(env, Start(now), es[..i]);
      && id in s.calls && s.calls[id].pc.Holding?
      && MintFailedCause(env, s.sh, s.calls[id].request, s.calls[id].pc.step, es[i].reply)
  }

  /**
   * For one: a settle that answers MINT_FAILED could not send its mint, was turned down by
   * the network, or was told by it that the mint failed.
   */
  lemma MintFailedHasACause(env: Env, now: int, es: seq<Event>, id: nat)
    requires var s := Run(env, Start(now), es); id in s.calls && s.calls[id].pc == Done(Refused(502, MintFailed))
    ensures exists i: nat :: MintFailsAt(env, now, es, i, id)
  {
    AnswersHaveCauses(env, now, es, id, Refused(502, MintFailed));
    var i: nat :| ConcludesAt(env, now, es, i, id, Refused(502, MintFailed));
    var s := Run(env, Start(now), es[..i]);
    var c := s.calls[id];
    if c.pc.Holding? {
      WhenMintFailed(env, s.sh, c.request, c.pc.step, es[i].reply);
    } else {
      NeverMintFailed(env, s.sh, c.request, c.pc.outer, es[i].reply);
    }
    assert MintFailsAt(env, now, es, i, id);
  }

  lemma NeverMintFailed(env: Env, sh: Shared, q: SettleRequest, o: OuterStep, r: Reply)
    ensures !Finishes(env, sh, q, o, r, Refused(502, MintFailed))
  {
  }
}

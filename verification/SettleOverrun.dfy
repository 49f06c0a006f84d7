// Runs that are not calm, from the start: two calls that both read an empty replay store,
// the lock of the first expires under it, and both reach a confirmed mint.

module SettleOverrun {
  import opened Wrappers
  import opened Text
  import opened CctpMessage
  import opened Intents
  import opened SettleRules
  import opened SettleProtocol
  import opened SettleWitness
  import opened Transfers
  import Locks
  import SettleSafety

  /** A settle request that an initiate covers, for a burn whose attestation is in order. */
  ghost predicate Settleable(env: Env, i: Intent, q: SettleRequest, message: string, signature: string) {
    && i.intentId == q.intentId && i.burnTxHash == q.params.hash && IntentRefusal(env, i, q).None?
    && env.isAccount(q.params.address)
    && AttestedAmounts(q.params.amount, message, signature).Ok?
  }

  /** Two replies in a row. */
  lemma TwoReplies(env: Env, sh: Shared, c: Call, r0: Reply, r1: Reply)
    ensures var (sh', c') := NextCall(env, sh, c, r0);
      CallRun(env, sh, c, [r0, r1]) == NextCall(env, sh', c', r1)
  {
    CallRunSnoc(env, sh, c, [], r0);
    CallRunSnoc(env, sh, c, [r0], r1);
    assert [] + [r0] == [r0] && [r0] + [r1] == [r0, r1];
  }

  /** Up to the lock: bucket, replay store, intent. */
  lemma ReachesLock(env: Env, sh: Shared, q: SettleRequest, i: Intent)
    requires i in sh.recorded && i.intentId == q.intentId && i.burnTxHash == q.params.hash
      && IntentRefusal(env, i, q).None?
    requires q.params.hash !in sh.durable
    ensures CallRun(env, sh, Call(q, Outside(ConsumingBucket)), [Ack, Ack] + [Found(Some(i))])
      == (sh, Call(q, Outside(Acquiring)))
  {
    TwoReplies(env, sh, Call(q, Outside(ConsumingBucket)), Ack, Ack);
    CallRunSnoc(env, sh, Call(q, Outside(ConsumingBucket)), [Ack, Ack], Found(Some(i)));
  }

  /** Taking a free or expired lock and passing core's replay check. */
  lemma ReachesAttestation(env: Env, sh: Shared, q: SettleRequest)
    requires q.params.hash !in sh.core && env.isAccount(q.params.address)
    requires Locks.Acquired(sh.locks, LockKey(q.params.hash), Locks.SETTLE_LOCK_TTL_MS, sh.now).1.Some?
    ensures var (sh', c') := CallRun(env, sh, Call(q, Outside(Acquiring)), [Ack, Probed(true, true)] + [Ack, Ack]);
      && c'.request == q && c'.pc.Holding? && c'.pc.step == Attesting
      && sh' == sh.(locks := sh'.locks) && LockKey(q.params.hash) in sh'.locks.held
      && sh'.locks.held[LockKey(q.params.hash)].expiresAt == sh.now + Locks.SETTLE_LOCK_TTL_MS
  {
    TwoReplies(env, sh, Call(q, Outside(Acquiring)), Ack, Probed(true, true));
    CallRunAppend(env, sh, Call(q, Outside(Acquiring)), [Ack, Probed(true, true)], [Ack, Ack]);
    var (sh1, c1) := CallRun(env, sh, Call(q, Outside(Acquiring)), [Ack, Probed(true, true)]);
    assert c1.request == q && c1.pc.Holding? && c1.pc.step == ReadingSequence;
    TwoReplies(env, sh1, c1, Ack, Ack);
  }

  function MintReplies(message: string, signature: string, tx: string): seq<Reply> {
    [Attested(message, signature), Ack] + ([Ack, Ack] + [Submitted("PENDING", Some(tx)), Tx("SUCCESS")])
  }

  lemma AttestationPasses(env: Env, sh: Shared, c: Call, message: string, signature: string)
    requires c.pc.Holding? && c.pc.step == Attesting && AttestedAmounts(c.Gross(), message, signature).Ok?
    ensures var fee := AttestedAmounts(c.Gross(), message, signature).value.feeExecuted;
      CallRun(env, sh, c, [Attested(message, signature), Ack]) == (sh, c.(pc := Holding(c.pc.lock, Simulating(fee))))
  {
    TwoReplies(env, sh, c, Attested(message, signature), Ack);
  }

  lemma BroadcastConfirms(env: Env, sh: Shared, c: Call, fee: nat, tx: string)
    requires c.pc.Holding? && c.pc.step == Simulating(fee) && tx != ""
    ensures var (sh', c') := CallRun(env, sh, c, [Ack, Ack] + [Submitted("PENDING", Some(tx)), Tx("SUCCESS")]);
      |MintsOf(sh', c.Hash())| == |MintsOf(sh, c.Hash())| + 1
        && sh' == sh.(mints := sh'.mints, broadcasts := sh'.broadcasts)
  {
    var c2 := c.(pc := Holding(c.pc.lock, Sending(fee)));
    TwoReplies(env, sh, c, Ack, Ack);
    CallRunAppend(env, sh, c, [Ack, Ack], [Submitted("PENDING", Some(tx)), Tx("SUCCESS")]);
    SentThenSuccess(env, sh, c2, fee, tx);
  }

  lemma SentThenSuccess(env: Env, sh: Shared, c: Call, fee: nat, tx: string)
    requires c.pc.Holding? && c.pc.step == Sending(fee) && tx != ""
    ensures CallRun(env, sh, c, [Submitted("PENDING", Some(tx)), Tx("SUCCESS")])
         == (Confirmed(Sent(sh, c.request, tx), c.request, fee, tx),
           c.(pc := Holding(c.pc.lock, MarkingSubmitted(fee, tx))))
  {
    TwoReplies(env, sh, c, Submitted("PENDING", Some(tx)), Tx("SUCCESS"));
  }

  /** From the attestation to the confirmed mint; nothing on this way looks at a store again. */
  lemma ReachesMint(env: Env, sh: Shared, c: Call, message: string, signature: string, tx: string)
    requires c.pc.Holding? && c.pc.step == Attesting && tx != ""
    requires AttestedAmounts(c.Gross(), message, signature).Ok?
    ensures var (sh', c') := CallRun(env, sh, c, MintReplies(message, signature, tx));
      |MintsOf(sh', c.Hash())| == |MintsOf(sh, c.Hash())| + 1
        && sh' == sh.(mints := sh'.mints, broadcasts := sh'.broadcasts)
  {
    var fee := AttestedAmounts(c.Gross(), message, signature).value.feeExecuted;
    AttestationPasses(env, sh, c, message, signature);
    BroadcastConfirms(env, sh, c.(pc := Holding(c.pc.lock, Simulating(fee))), fee, tx);
    CallRunAppend(env, sh, c, [Attested(message, signature), Ack],
      [Ack, Ack] + [Submitted("PENDING", Some(tx)), Tx("SUCCESS")]);
  }

  /**
   * Call 0 takes the lock and stops before its attestation; its lock expires; call 1
   * mints; call 0 wakes up and mints.
   */
  function OverrunSchedule(i: Intent, message: string, signature: string): seq<Event> {
    var toLock := [Ack, Ack] + [Found(Some(i))];
    var toAttestation := [Ack, Probed(true, true)] + [Ack, Ack];
    (Steps(0, toLock) + (Steps(1, toLock) + (Steps(0, toAttestation) + ([Tick(Locks.SETTLE_LOCK_TTL_MS)]
    + (Steps(1, toAttestation) + (Steps(1, MintReplies(message, signature, "a"))
      + Steps(0, MintReplies(message, signature, "b"))))))))
  }

  /**
   * For every settleable request: two calls for it, run on this schedule from an empty
   * store, both end with a confirmed mint of the one hash.
   */
  lemma OverrunMintsTwice(env: Env, s: State, i: Intent, q: SettleRequest, message: string, signature: string)
    requires Settleable(env, i, q, message, signature) && i in s.sh.recorded
    requires s.calls == map[0 := Call(q, Outside(ConsumingBucket)), 1 := Call(q, Outside(ConsumingBucket))]
    requires s.sh.core == map[] && s.sh.durable == map[] && s.sh.mints == map[] && s.sh.locks == Locks.EMPTY_TABLE
    ensures |MintsOf(Run(env, s, OverrunSchedule(i, message, signature)).sh, q.params.hash)| == 2
  {
    var toLock := [Ack, Ack] + [Found(Some(i))];
    var toAttestation := [Ack, Probed(true, true)] + [Ack, Ack];
    var waiting := Call(q, Outside(Acquiring));
    // Both calls read the empty replay store.
    ReachesLock(env, s.sh, q, i);
    CallRunIsRun(env, s, 0, toLock);
    var s1 := Run(env, s, Steps(0, toLock));
    CallRunIsRun(env, s1, 1, toLock);
    var s2 := Run(env, s1, Steps(1, toLock));
    assert s2 == State(s.sh, map[0 := waiting, 1 := waiting]);
    // Call 0 takes the lock, which then expires.
    ReachesAttestation(env, s2.sh, q);
    CallRunIsRun(env, s2, 0, toAttestation);
    var s3 := Run(env, s2, Steps(0, toAttestation));
    var s4 := Next(env, s3, Tick(Locks.SETTLE_LOCK_TTL_MS));
    assert s4.calls[0].pc.step == Attesting && s4.calls[1] == waiting;
    AfterExpiry(env, s4, q, message, signature);
    // The pieces make up the schedule.
    var f4 := Steps(1, toAttestation)
      + (Steps(1, MintReplies(message, signature, "a")) + Steps(0, MintReplies(message, signature, "b")));
    var f3 := [Tick(Locks.SETTLE_LOCK_TTL_MS)] + f4;
    var f2 := Steps(0, toAttestation) + f3;
    var f1 := Steps(1, toLock) + f2;
    RunAppend(env, s, Steps(0, toLock), f1);
    RunAppend(env, s1, Steps(1, toLock), f2);
    RunAppend(env, s2, Steps(0, toAttestation), f3);
    assert f3[1..] == f4;
  }

  /** Call 1 takes the expired lock and mints, and then call 0 does. */
  lemma AfterExpiry(env: Env, s: State, q: SettleRequest, message: string, signature: string)
    requires env.isAccount(q.params.address) && AttestedAmounts(q.params.amount, message, signature).Ok?
    requires 0 in s.calls && 1 in s.calls && s.calls[1] == Call(q, Outside(Acquiring))
    requires s.calls[0].request == q && s.calls[0].pc.Holding? && s.calls[0].pc.step == Attesting
    requires q.params.hash !in s.sh.core && MintsOf(s.sh, q.params.hash) == []
    requires Locks.Acquired(s.sh.locks, LockKey(q.params.hash), Locks.SETTLE_LOCK_TTL_MS, s.sh.now).1.Some?
    ensures var es := Steps(1, [Ack, Probed(true, true)] + [Ack, Ack])
        + (Steps(1, MintReplies(message, signature, "a")) + Steps(0, MintReplies(message, signature, "b")));
      |MintsOf(Run(env, s, es).sh, q.params.hash)| == 2
  {
    var toAttestation := [Ack, Probed(true, true)] + [Ack, Ack];
    var mintA, mintB := MintReplies(message, signature, "a"), MintReplies(message, signature, "b");
    ReachesAttestation(env, s.sh, q);
    CallRunIsRun(env, s, 1, toAttestation);
    var s1 := Run(env, s, Steps(1, toAttestation));
    ReachesMint(env, s1.sh, s1.calls[1], message, signature, "a");
    CallRunIsRun(env, s1, 1, mintA);
    var s2 := Run(env, s1, Steps(1, mintA));
    assert s2.calls[0] == s.calls[0];
    ReachesMint(env, s2.sh, s2.calls[0], message, signature, "b");
    CallRunIsRun(env, s2, 0, mintB);
    RunAppend(env, s, Steps(1, toAttestation), Steps(1, mintA) + Steps(0, mintB));
    RunAppend(env, s1, Steps(1, mintA), Steps(0, mintB));
  }

  /**
   * And the machine reaches such a state from its start: record the intent, let two
   * requests for it come in, and run the schedule. That run is not calm.
   */
  lemma OverrunFromStart(env: Env, now: int, input: InitiateInput, body: SettleInput, message: string,
    signature: string)
    requires ValidateSettle(env, body).Some? && InitiateIntent(env, input, Trim(body.intentId), now).Some?
    requires Settleable(env, InitiateIntent(env, input, Trim(body.intentId), now).value,
      ValidateSettle(env, body).value, message, signature)
    ensures var i, q := InitiateIntent(env, input, Trim(body.intentId), now).value, ValidateSettle(env, body).value;
      var es := [Initiate(input, Trim(body.intentId)), StartSettle(0, body), StartSettle(1, body)]
        + OverrunSchedule(i, message, signature);
      |MintsOf(Run(env, Start(now), es).sh, q.params.hash)| == 2 && !CalmRun(env, Start(now), es)
  {
    var i, q := InitiateIntent(env, input, Trim(body.intentId), now).value, ValidateSettle(env, body).value;
    var e0, e1, e2 := Initiate(input, Trim(body.intentId)), StartSettle(0, body), StartSettle(1, body);
    TwoRequests(env, now, input, body);
    ThreeEvents(env, Start(now), e0, e1, e2);
    var s3 := Run(env, Start(now), [e0, e1, e2]);
    OverrunMintsTwice(env, s3, i, q, message, signature);
    RunAppend(env, Start(now), [e0, e1, e2], OverrunSchedule(i, message, signature));
    var es := [e0, e1, e2] + OverrunSchedule(i, message, signature);
    if CalmRun(env, Start(now), es) { SettleSafety.AtMostOneMint(env, now, es, q.params.hash); }
  }

  lemma RequestComesIn(env: Env, s: State, id: nat, body: SettleInput)
    requires ValidateSettle(env, body).Some? && id !in s.calls
    ensures Next(env, s, StartSettle(id, body))
         == s.(calls := s.calls[id := Call(ValidateSettle(env, body).value, Outside(ConsumingBucket))])
  {
  }

  lemma IntentIsRecorded(env: Env, s: State, input: InitiateInput, intentId: string)
    requires InitiateIntent(env, input, intentId, s.sh.now).Some?
    ensures Next(env, s, Initiate(input, intentId))
         == s.(sh := s.sh.(recorded := s.sh.recorded + {InitiateIntent(env, input, intentId, s.sh.now).value}))
  {
  }

  lemma TwoRequests(env: Env, now: int, input: InitiateInput, body: SettleInput)
    requires ValidateSettle(env, body).Some? && InitiateIntent(env, input, Trim(body.intentId), now).Some?
    ensures var c := Call(ValidateSettle(env, body).value, Outside(ConsumingBucket));
      Next(env, Next(env, Next(env, Start(now), Initiate(input, Trim(body.intentId))), StartSettle(0, body)),
        StartSettle(1, body))
        == State(Start(now).sh.(recorded := {InitiateIntent(env, input, Trim(body.intentId), now).value}),
          map[0 := c, 1 := c])
  {
    var s1 := Next(env, Start(now), Initiate(input, Trim(body.intentId)));
    IntentIsRecorded(env, Start(now), input, Trim(body.intentId));
    RequestComesIn(env, s1, 0, body);
    RequestComesIn(env, Next(env, s1, StartSettle(0, body)), 1, body);
  }

  lemma ThreeEvents(env: Env, s: State, e0: Event, e1: Event, e2: Event)
    ensures Run(env, s, [e0, e1, e2]) == Next(env, Next(env, Next(env, s, e0), e1), e2)
  {
    var s1 := Next(env, s, e0);
    var s2 := Next(env, s1, e1);
    assert [e0, e1, e2][1..] == [e1, e2] && [e1, e2][1..] == [e2] && [e2][1..] == [];
    assert Run(env, s2, [e2]) == Next(env, s2, e2);
    assert Run(env, s1, [e1, e2]) == Run(env, s2, [e2]);
  }

  // ----- The hypotheses hold

  /** A request of an account, under an id of its own, within the cap. */
  predicate Ordinary(env: Env, q: SettleRequest) {
    && GoodRequest(env, q) && env.isAccount(q.params.address) && WithinCap(env, q.params.amount)
    && Trim(q.intentId) == q.intentId && q.intentId != ""
  }

  /** Every ordinary request has a body, an initiate and an attestation with which the overrun happens. */
  lemma OverrunOfRequest(env: Env, now: int, q: SettleRequest) returns (es: seq<Event>)
    requires Ordinary(env, q)
    ensures |MintsOf(Run(env, Start(now), es).sh, q.params.hash)| == 2 && !CalmRun(env, Start(now), es)
  {
    var input, body := PlainInitiate(q), PlainBody(q);
    PlainBodyIsValid(env, q);
    PlainInitiateIsValid(env, q, q.intentId, now);
    var message := MessageFor(q.params.amount);
    OverrunFromStart(env, now, input, body, message, PLAIN_SIGNATURE);
    es := [Initiate(input, Trim(body.intentId)), StartSettle(0, body), StartSettle(1, body)]
      + OverrunSchedule(PlainIntent(q, q.intentId, now), message, PLAIN_SIGNATURE);
  }

  /** A deployment without a cap, in which every address is an account. */
  const OPEN_ENV: Env := Env(_ => true, _ => false, None, true, None)

  const EXAMPLE_REQUEST: SettleRequest := SettleRequest(
    Params("GA", "0x" + Zeros(64), 1_000_000, EVM_SOURCE_DOMAIN), Fast, "int_1")

  lemma ExampleIsOrdinary()
    ensures Ordinary(OPEN_ENV, EXAMPLE_REQUEST)
  {
    TrimIdentity("GA");
    TrimIdentity("int_1");
    var h := EXAMPLE_REQUEST.params.hash;
    assert h[..2] == "0x";
  }

  /** One dollar, minted twice. */
  lemma OverrunExample() returns (es: seq<Event>)
    ensures |MintsOf(Run(OPEN_ENV, Start(0), es).sh, EXAMPLE_REQUEST.params.hash)| == 2
  {
    ExampleIsOrdinary();
    es := OverrunOfRequest(OPEN_ENV, 0, EXAMPLE_REQUEST);
  }
}

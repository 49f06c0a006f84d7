// Ways to move one call on, reply by reply: up to a broadcast, up to a confirmed mint, or
// out of the way; and when such stretches, and whole runs, are calm or timely.

module SettleDriving {
  import opened Wrappers
  import opened Text
  import opened CctpMessage
  import opened SettleRules
  import opened SettleProtocol
  import opened SettleWitness
  import Locks

  /** How far a holder still is from a confirmed mint. */
  function Distance(step: HeldStep): nat {
    match step
    case Probing => 9
    case ReadingSequence => 8
    case CheckingCore => 7
    case Attesting => 6
    case EnsuringTrustline(_) => 5
    case Simulating(_) => 4
    case Signing(_) => 3
    case Sending(_) => 2
    case Confirming(_, _, _) => 1
    case _ => 0
  }

  /** On its way to a mint. */
  predicate Underway(step: HeldStep) {
    Distance(step) > 0
  }

  /** On its way to a broadcast. */
  predicate BeforeBroadcast(step: HeldStep) {
    Distance(step) > 1
  }

  const NETWORK_HASH: string := "tx"

  /** The reply that moves a holder on. */
  ghost function GoodReply(q: SettleRequest, step: HeldStep): Reply
    requires q.params.amount <= MAX_U64
  {
    match step
    case Probing => Probed(true, true)
    case Attesting => Attested(MessageFor(q.params.amount), PLAIN_SIGNATURE)
    case Sending(_) => Submitted("PENDING", Some(NETWORK_HASH))
    case Confirming(_, _, _) => Tx("SUCCESS")
    case _ => Ack
  }

  /** The request can be minted for, and nothing has been marked for its hash. */
  predicate Mintable(env: Env, sh: Shared, q: SettleRequest) {
    env.isAccount(q.params.address) && q.params.amount <= MAX_U64 && q.params.hash !in sh.core
  }

  /** One good step. */
  lemma GoodStep(env: Env, sh: Shared, c: Call)
    requires c.pc.Holding? && Mintable(env, sh, c.request) && BeforeBroadcast(c.pc.step) && !c.pc.step.Sending?
    ensures var step := NextHeld(env, sh, c.request, c.pc.step, GoodReply(c.request, c.pc.step)).1;
      && NextCall(env, sh, c, GoodReply(c.request, c.pc.step)) == (sh, At(c, step))
      && Distance(step) == Distance(c.pc.step) - 1
      && (Distance(step) == 5 ==> step == EnsuringTrustline(0))
      && (Distance(step) < 5 ==> Fee(step) == Fee(c.pc.step))
  {
    if c.pc.step.Attesting? { AttestedStep(env, sh, c); }
  }

  lemma AttestedStep(env: Env, sh: Shared, c: Call)
    requires c.pc.Holding? && c.pc.step.Attesting? && c.Gross() <= MAX_U64
    ensures NextHeld(env, sh, c.request, Attesting, GoodReply(c.request, Attesting)) == (sh, EnsuringTrustline(0))
  {
  }

  /** The executed fee that the step carries. */
  function Fee(step: HeldStep): nat {
    match step
    case EnsuringTrustline(fee) => fee
    case Simulating(fee) => fee
    case Signing(fee) => fee
    case Sending(fee) => fee
    case Confirming(fee, _, _) => fee
    case MarkingSubmitted(fee, _) => fee
    case _ => 0
  }

  lemma CallRunCons(env: Env, sh: Shared, c: Call, r: Reply, rs: seq<Reply>)
    ensures var (sh', c') := NextCall(env, sh, c, r); CallRun(env, sh, c, [r] + rs) == CallRun(env, sh', c', rs)
  {
    CallRunSnoc(env, sh, c, [], r);
    assert [] + [r] == [r];
    CallRunAppend(env, sh, c, [r], rs);
  }

  lemma SendStep(env: Env, sh: Shared, c: Call, fee: nat)
    requires c.pc.Holding? && c.pc.step == Sending(fee)
    ensures NextCall(env, sh, c, Submitted("PENDING", Some(NETWORK_HASH)))
         == (Sent(sh, c.request, NETWORK_HASH), At(c, Confirming(fee, NETWORK_HASH, 0)))
  {
  }

  /** A holder before its broadcast can be led to it, and nothing else changes on the way. */
  lemma {:induction false} BroadcastsFrom(env: Env, sh: Shared, c: Call) returns (rs: seq<Reply>)
    requires c.pc.Holding? && Mintable(env, sh, c.request) && BeforeBroadcast(c.pc.step)
    ensures var fee := if Distance(c.pc.step) > 5 then 0 else Fee(c.pc.step);
      CallRun(env, sh, c, rs) == (Sent(sh, c.request, NETWORK_HASH), At(c, Confirming(fee, NETWORK_HASH, 0)))
    decreases Distance(c.pc.step)
  {
    var r := GoodReply(c.request, c.pc.step);
    if c.pc.step.Sending? {
      rs := [r] + [];
      SendStep(env, sh, c, c.pc.step.fee);
      CallRunCons(env, sh, c, r, []);
    } else {
      GoodStep(env, sh, c);
      var step := NextHeld(env, sh, c.request, c.pc.step, r).1;
      var rest := BroadcastsFrom(env, sh, At(c, step));
      rs := [r] + rest;
      CallRunCons(env, sh, c, r, rest);
    }
  }

  lemma ConfirmStep(env: Env, sh: Shared, c: Call, fee: nat, tx: string, attempt: nat)
    requires c.pc.Holding? && c.pc.step == Confirming(fee, tx, attempt)
    ensures NextCall(env, sh, c, Tx("SUCCESS")) == (Confirmed(sh, c.request, fee, tx), At(c, MarkingSubmitted(fee, tx)))
  {
  }

  /** The shared state after one more mint of the call's hash. */
  predicate OneMore(sh: Shared, sh': Shared, h: string) {
    sh' == sh.(mints := sh'.mints, broadcasts := sh'.broadcasts) && |MintsOf(sh', h)| == |MintsOf(sh, h)| + 1
  }

  /** A holder underway can be led to a confirmed mint. */
  lemma MintsFrom(env: Env, sh: Shared, c: Call) returns (rs: seq<Reply>, tx: string)
    requires c.pc.Holding? && Mintable(env, sh, c.request) && Underway(c.pc.step)
    ensures var fee := if Distance(c.pc.step) > 5 then 0 else Fee(c.pc.step);
      var (sh', c') := CallRun(env, sh, c, rs);
      OneMore(sh, sh', c.Hash()) && c' == At(c, MarkingSubmitted(fee, tx))
  {
    if c.pc.step.Confirming? {
      ConfirmStep(env, sh, c, c.pc.step.fee, c.pc.step.txHash, c.pc.step.attempt);
      CallRunCons(env, sh, c, Tx("SUCCESS"), []);
      rs, tx := [Tx("SUCCESS")] + [], c.pc.step.txHash;
    } else {
      var first := BroadcastsFrom(env, sh, c);
      var (sh1, c1) := CallRun(env, sh, c, first);
      ConfirmStep(env, sh1, c1, c1.pc.step.fee, NETWORK_HASH, 0);
      CallRunSnoc(env, sh, c, first, Tx("SUCCESS"));
      rs, tx := first + [Tx("SUCCESS")], NETWORK_HASH;
    }
  }

  // ----- Out of the way

  /** The replies that make an exposed holder give up, without a trace. */
  function Bail(step: HeldStep): seq<Reply> {
    if step.Probing? then [Probed(true, true), Throws(Plain)]
    else if step.Confirming? then [Tx("FAILED")]
    else [Throws(Plain)]
  }

  lemma BailStep(env: Env, sh: Shared, c: Call, r: Reply)
    requires c.pc.Holding? && Guarding(c.pc.step) && !c.pc.step.MarkingSubmitted? && !c.pc.step.Probing?
      && c.Hash() !in sh.core
    requires r == if c.pc.step.Confirming? then Tx("FAILED") else Throws(Plain)
    ensures var (sh', c') := NextCall(env, sh, c, r);
      sh' == sh && c'.request == c.request && c'.pc.Holding? && c'.pc.step.Releasing?
  {
  }

  lemma BailsOut(env: Env, sh: Shared, c: Call)
    requires c.pc.Holding? && Guarding(c.pc.step) && !c.pc.step.MarkingSubmitted? && c.Hash() !in sh.core
    ensures var (sh', c') := CallRun(env, sh, c, Bail(c.pc.step));
      sh' == sh && c'.request == c.request && c'.pc.Holding? && c'.pc.step.Releasing?
  {
    if c.pc.step.Probing? {
      var c1 := At(c, ReadingSequence);
      assert NextCall(env, sh, c, Probed(true, true)) == (sh, c1);
      CallRunCons(env, sh, c, Probed(true, true), [Throws(Plain)]);
      assert [Probed(true, true)] + [Throws(Plain)] == Bail(c.pc.step);
      CallRunCons(env, sh, c1, Throws(Plain), []);
      assert [Throws(Plain)] + [] == [Throws(Plain)];
      BailStep(env, sh, c1, Throws(Plain));
    } else {
      CallRunCons(env, sh, c, Bail(c.pc.step)[0], []);
      assert [Bail(c.pc.step)[0]] + [] == Bail(c.pc.step);
      BailStep(env, sh, c, Bail(c.pc.step)[0]);
    }
  }

  // ----- Calm stretches

  lemma {:induction false} CalmAppend(env: Env, s: State, es: seq<Event>, fs: seq<Event>)
    requires CalmRun(env, s, es) && CalmRun(env, Run(env, s, es), fs)
    ensures CalmRun(env, s, es + fs)
    decreases |es|
  {
    if es == [] {
      assert es + fs == fs;
    } else {
      assert (es + fs)[1..] == es[1..] + fs && (es + fs)[0] == es[0];
      CalmAppend(env, Next(env, s, es[0]), es[1..], fs);
    }
  }

  lemma OneEvent(env: Env, s: State, e: Event)
    ensures Run(env, s, [e]) == Next(env, s, e)
    ensures !Overtakes(env, s, e) ==> CalmRun(env, s, [e])
  {
    assert [e][1..] == [];
  }

  /** Neither a holder nor a call that is done ever acquires. */
  lemma {:induction false} InsideIsCalm(env: Env, s: State, id: nat, rs: seq<Reply>)
    requires id in s.calls && !s.calls[id].pc.Outside?
    ensures CalmRun(env, s, Steps(id, rs))
    decreases |rs|
  {
    if rs != [] {
      var e := Step(id, rs[0]);
      InsideIsCalm(env, Next(env, s, e), id, rs[1..]);
      assert Steps(id, rs)[0] == e && Steps(id, rs)[1..] == Steps(id, rs[1..]);
    }
  }

  // ----- Runs in which no time passes

  predicate NoTick(es: seq<Event>) {
    forall i :: 0 <= i < |es| ==> !es[i].Tick?
  }

  lemma StandingClock(env: Env, s: State, e: Event)
    requires Timely(s) && !e.Tick?
    ensures Timely(Next(env, s, e))
  {
  }

  /** While the clock stands no deadline passes. */
  lemma {:induction false} StandingClockIsTimely(env: Env, s: State, es: seq<Event>)
    requires Timely(s) && NoTick(es)
    ensures TimelyRun(env, s, es)
    decreases |es|
  {
    if es != [] {
      assert !es[0].Tick?;
      StandingClock(env, s, es[0]);
      StandingClockIsTimely(env, Next(env, s, es[0]), es[1..]);
    }
  }
}

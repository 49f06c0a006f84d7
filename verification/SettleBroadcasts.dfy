// When a burn can be broadcast again although a durable record of it exists: only a call
// that read the replay store before that record was written can do so.

module SettleBroadcasts {
  import opened Wrappers
  import opened Text
  import opened Intents
  import opened SettleRules
  import opened SettleProtocol
  import opened SettleSafety
  import opened SettleWitness
  import opened SettleDriving
  import SettleTakeover
  import SettleOverrun
  import Locks

  // ----- Calls that start after the record

  /** Past its read of the replay store, and not past its own broadcast. */
  predicate EarlyReader(c: Call) {
    match c.pc
    case Outside(o) => o.ReadingIntent? || o.Acquiring?
    case Holding(_, step) => BeforeBroadcast(step)
    case Done(_) => false
  }

  /** Has not got past its read of the replay store. */
  predicate NotIn(c: Call) {
    match c.pc
    case Outside(o) => !o.ReadingIntent? && !o.Acquiring?
    case Holding(_, _) => false
    case Done(_) => true
  }

  lemma HeldDurableStays(env: Env, sh: Shared, q: SettleRequest, step: HeldStep, r: Reply, h: string)
    requires h in sh.durable
    ensures h in NextHeld(env, sh, q, step, r).0.durable
  {
  }

  lemma DurableStays(env: Env, s: State, e: Event, h: string)
    requires h in s.sh.durable
    ensures h in Next(env, s, e).sh.durable
  {
    if e.Step? && e.id in s.calls {
      var c := s.calls[e.id];
      match c.pc
      case Outside(o) => OuterKeepsDurable(env, s.sh, c.request, o, e.reply);
      case Holding(_, step) => HeldDurableStays(env, s.sh, c.request, step, e.reply, h);
      case Done(_) =>
    }
  }

  lemma StaysOut(env: Env, sh: Shared, c: Call, r: Reply)
    requires c.Hash() in sh.durable && NotIn(c)
    ensures NextCall(env, sh, c, r).0 == sh && NotIn(NextCall(env, sh, c, r).1)
  {
  }

  /** All calls for h but those in `old'` have not got past their read. */
  predicate OutsidersOut(s: State, h: string, old': set<nat>) {
    forall i :: i in s.calls && i !in old' && s.calls[i].Hash() == h ==> NotIn(s.calls[i])
  }

  lemma NextOutsiders(env: Env, s: State, e: Event, h: string, old': set<nat>)
    requires h in s.sh.durable && OutsidersOut(s, h, old')
    ensures OutsidersOut(Next(env, s, e), h, old')
  {
    if e.Step? && e.id in s.calls && e.id !in old' && s.calls[e.id].Hash() == h {
      StaysOut(env, s.sh, s.calls[e.id], e.reply);
    }
  }

  lemma {:induction false} RunOutsiders(env: Env, s: State, es: seq<Event>, h: string, old': set<nat>)
    requires h in s.sh.durable && OutsidersOut(s, h, old')
    ensures h in Run(env, s, es).sh.durable && OutsidersOut(Run(env, s, es), h, old')
    decreases |es|
  {
    if es != [] {
      DurableStays(env, s, es[0], h);
      NextOutsiders(env, s, es[0], h, old');
      RunOutsiders(env, Next(env, s, es[0]), es[1..], h, old');
    }
  }

  /**
   * Once any durable record of a hash exists, submitted or settled, a settle for it that
   * starts later never gets to the intent, the lock or a broadcast, in any run at all.
   */
  lemma LateSettlesStayOut(env: Env, s: State, es: seq<Event>, id: nat)
    requires var t := Run(env, s, es); id !in s.calls && id in t.calls && t.calls[id].Hash() in s.sh.durable
    ensures NotIn(Run(env, s, es).calls[id])
  {
    RunOutsiders(env, s, es, Run(env, s, es).calls[id].Hash(), s.calls.Keys);
  }

  // ----- Only early readers broadcast

  predicate NoEarlyReader(s: State, h: string) {
    forall i :: i in s.calls && s.calls[i].Hash() == h ==> !EarlyReader(s.calls[i])
  }

  lemma NeverEarlyAgain(env: Env, sh: Shared, c: Call, r: Reply)
    requires c.Hash() in sh.durable && !EarlyReader(c)
    ensures var (sh', c') := NextCall(env, sh, c, r); !EarlyReader(c') && sh'.broadcasts == sh.broadcasts
  {
    if c.pc.Holding? { HeldNeverEarlyAgain(env, sh, c.request, c.pc.step, r); }
  }

  lemma HeldNeverEarlyAgain(env: Env, sh: Shared, q: SettleRequest, step: HeldStep, r: Reply)
    requires !BeforeBroadcast(step)
    ensures var (sh', step') := NextHeld(env, sh, q, step, r);
      !BeforeBroadcast(step') && sh'.broadcasts == sh.broadcasts
  {
  }

  lemma CallBroadcastsOwn(env: Env, sh: Shared, c: Call, r: Reply, h: string)
    requires c.Hash() != h
    ensures BroadcastsOf(NextCall(env, sh, c, r).0, h) == BroadcastsOf(sh, h)
  {
    match c.pc
    case Outside(o) => OuterDoesNotBroadcast(env, sh, c.request, o, r);
    case Holding(_, step) => HeldBroadcastsOwn(env, sh, c.request, step, r, h);
    case Done(_) =>
  }

  lemma OuterDoesNotBroadcast(env: Env, sh: Shared, q: SettleRequest, o: OuterStep, r: Reply)
    ensures NextOuter(env, sh, q, o, r).0.broadcasts == sh.broadcasts
  {
  }

  lemma HeldBroadcastsOwn(env: Env, sh: Shared, q: SettleRequest, step: HeldStep, r: Reply, h: string)
    requires q.params.hash != h
    ensures BroadcastsOf(NextHeld(env, sh, q, step, r).0, h) == BroadcastsOf(sh, h)
  {
  }

  lemma OthersDoNotBroadcast(env: Env, s: State, e: Event, h: string)
    requires !(e.Step? && e.id in s.calls && s.calls[e.id].Hash() == h)
    ensures BroadcastsOf(Next(env, s, e).sh, h) == BroadcastsOf(s.sh, h)
  {
    if e.Step? && e.id in s.calls { CallBroadcastsOwn(env, s.sh, s.calls[e.id], e.reply, h); }
  }

  lemma NextNoEarlyReader(env: Env, s: State, e: Event, h: string)
    requires h in s.sh.durable && NoEarlyReader(s, h)
    ensures NoEarlyReader(Next(env, s, e), h) && BroadcastsOf(Next(env, s, e).sh, h) == BroadcastsOf(s.sh, h)
  {
    if e.Step? && e.id in s.calls && s.calls[e.id].Hash() == h {
      NeverEarlyAgain(env, s.sh, s.calls[e.id], e.reply);
    } else {
      OthersDoNotBroadcast(env, s, e, h);
    }
  }

  /** Without an early reader nothing more is broadcast for a hash with a durable record. */
  lemma {:induction false} NoEarlyReaderNoBroadcast(env: Env, s: State, es: seq<Event>, h: string)
    requires h in s.sh.durable && NoEarlyReader(s, h)
    ensures BroadcastsOf(Run(env, s, es).sh, h) == BroadcastsOf(s.sh, h)
    decreases |es|
  {
    if es != [] {
      DurableStays(env, s, es[0], h);
      NextNoEarlyReader(env, s, es[0], h);
      NoEarlyReaderNoBroadcast(env, Next(env, s, es[0]), es[1..], h);
    }
  }

  // ----- Exactly when a burn can be broadcast again

  /** An early reader whose request core and the cap let through. */
  predicate Ready(env: Env, s: State, id: nat, h: string) {
    && id in s.calls && s.calls[id].Hash() == h && EarlyReader(s.calls[id])
    && env.isAccount(s.calls[id].request.params.address) && WithinCap(env, s.calls[id].Gross())
  }

  ghost predicate CanStillBroadcast(env: Env, s: State, h: string) {
    Unminted(s.sh, h) && exists id :: Ready(env, s, id, h)
  }

  lemma MintedStays(env: Env, s: State, e: Event, h: string)
    requires !Unminted(s.sh, h)
    ensures !Unminted(Next(env, s, e).sh, h)
  {
    if e.Step? && e.id in s.calls { CallMintedStays(env, s.sh, s.calls[e.id], e.reply, h); }
  }

  lemma CallMintedStays(env: Env, sh: Shared, c: Call, r: Reply, h: string)
    requires !Unminted(sh, h)
    ensures !Unminted(NextCall(env, sh, c, r).0, h)
  {
    match c.pc
    case Outside(o) => OuterMintedStays(env, sh, c.request, o, r, h);
    case Holding(_, step) => HeldMintedStays(env, sh, c.request, step, r, h);
    case Done(_) =>
  }

  lemma OuterMintedStays(env: Env, sh: Shared, q: SettleRequest, o: OuterStep, r: Reply, h: string)
    requires !Unminted(sh, h)
    ensures !Unminted(NextOuter(env, sh, q, o, r).0, h)
  {
  }

  lemma HeldMintedStays(env: Env, sh: Shared, q: SettleRequest, step: HeldStep, r: Reply, h: string)
    requires !Unminted(sh, h)
    ensures !Unminted(NextHeld(env, sh, q, step, r).0, h)
  {
  }

  /** A step that broadcasts is taken by a ready call, on an unminted hash. */
  lemma BroadcasterIsReady(env: Env, s: State, e: Event, h: string)
    requires Inv(env, s) && GoodCalls(env, s.calls) && BroadcastsOf(Next(env, s, e).sh, h) != BroadcastsOf(s.sh, h)
    ensures e.Step? && Ready(env, s, e.id, h) && Unminted(s.sh, h)
  {
    if !(e.Step? && e.id in s.calls && s.calls[e.id].Hash() == h) {
      OthersDoNotBroadcast(env, s, e, h);
    } else {
      var c := s.calls[e.id];
      assert CallOk(env, s.sh, c) && GoodRequest(env, c.request);
      OnlySendingBroadcasts(env, s.sh, c, e.reply);
    }
  }

  lemma OnlySendingBroadcasts(env: Env, sh: Shared, c: Call, r: Reply)
    ensures NextCall(env, sh, c, r).0.broadcasts == sh.broadcasts || (c.pc.Holding? && c.pc.step.Sending?)
  {
  }

  lemma ReadyBefore(env: Env, s: State, e: Event, h: string, id: nat)
    requires h in s.sh.durable && Ready(env, Next(env, s, e), id, h)
    ensures Ready(env, s, id, h)
  {
    if e.Step? && e.id in s.calls {
      if e.id == id && !EarlyReader(s.calls[id]) { NeverEarlyAgain(env, s.sh, s.calls[id], e.reply); }
    }
  }

  lemma NextBlocked(env: Env, s: State, e: Event, h: string)
    requires Inv(env, s) && GoodCalls(env, s.calls) && h in s.sh.durable && !CanStillBroadcast(env, s, h)
    ensures !CanStillBroadcast(env, Next(env, s, e), h)
    ensures BroadcastsOf(Next(env, s, e).sh, h) == BroadcastsOf(s.sh, h)
  {
    if BroadcastsOf(Next(env, s, e).sh, h) != BroadcastsOf(s.sh, h) { BroadcasterIsReady(env, s, e, h); }
    if CanStillBroadcast(env, Next(env, s, e), h) {
      var id :| Ready(env, Next(env, s, e), id, h);
      ReadyBefore(env, s, e, h, id);
      MintedStays(env, s, e, h);
    }
  }

  lemma {:induction false} Blocked(env: Env, s: State, es: seq<Event>, h: string)
    requires Inv(env, s) && GoodCalls(env, s.calls) && CalmRun(env, s, es)
    requires h in s.sh.durable && !CanStillBroadcast(env, s, h)
    ensures BroadcastsOf(Run(env, s, es).sh, h) == BroadcastsOf(s.sh, h)
    decreases |es|
  {
    if es != [] {
      NextInv(env, s, es[0]);
      NextGood(env, s, es[0]);
      DurableStays(env, s, es[0], h);
      NextBlocked(env, s, es[0], h);
      Blocked(env, Next(env, s, es[0]), es[1..], h);
    }
  }

  // ----- And then it can

  predicate NobodyExposed(env: Env, s: State, h: string) {
    forall i :: i in s.calls && s.calls[i].Hash() == h ==> !Exposed(env, s.sh, s.calls[i])
  }

  /** Whoever is exposed on the hash can fail without a trace. */
  lemma ClearTheWay(env: Env, s: State, h: string) returns (es: seq<Event>)
    requires Inv(env, s) && Unminted(s.sh, h)
    ensures var t := Run(env, s, es);
      && CalmRun(env, s, es) && t.sh == s.sh && NobodyExposed(env, t, h)
      && forall i :: i in s.calls && s.calls[i].pc.Outside? ==> i in t.calls && t.calls[i] == s.calls[i]
  {
    if d: nat :| d in s.calls && s.calls[d].Hash() == h && Exposed(env, s.sh, s.calls[d]) {
      assert CallOk(env, s.sh, s.calls[d]);
      es := Steps(d, Bail(s.calls[d].pc.step));
      BailsOut(env, s.sh, s.calls[d]);
      CallRunIsRun(env, s, d, Bail(s.calls[d].pc.step));
      InsideIsCalm(env, s, d, Bail(s.calls[d].pc.step));
    } else {
      es := [];
    }
  }

  /** Wait until the lock of the hash, if there is one, has expired. */
  function Wait(sh: Shared, h: string): nat {
    var key := LockKey(h);
    if key in sh.locks.held && sh.locks.held[key].expiresAt > sh.now then sh.locks.held[key].expiresAt - sh.now else 0
  }

  lemma WaitFrees(env: Env, s: State, h: string)
    ensures var t := Next(env, s, Tick(Wait(s.sh, h)));
      && Locks.Acquired(t.sh.locks, LockKey(h), Locks.SETTLE_LOCK_TTL_MS, t.sh.now).1.Some?
      && t == State(s.sh.(now := t.sh.now), s.calls)
  {
  }

  /** Two calm stretches in a row. */
  lemma Chain(env: Env, s: State, es: seq<Event>, fs: seq<Event>)
    requires CalmRun(env, s, es) && CalmRun(env, Run(env, s, es), fs)
    ensures CalmRun(env, s, es + fs) && Run(env, s, es + fs) == Run(env, Run(env, s, es), fs)
  {
    CalmAppend(env, s, es, fs);
    RunAppend(env, s, es, fs);
  }

  lemma RecordStep(env: Env, s: State, q: SettleRequest)
    requires GoodRequest(env, q)
    ensures Next(env, s, Initiate(PlainInitiate(q), q.intentId))
         == State(s.sh.(recorded := s.sh.recorded + {PlainIntent(q, q.intentId, s.sh.now)}), s.calls)
  {
    PlainInitiateIsValid(env, q, q.intentId, s.sh.now);
  }

  lemma FoundStep(env: Env, s: State, id: nat, i: Intent)
    requires id in s.calls && s.calls[id].pc == Outside(ReadingIntent)
    requires Findable(s.sh, s.calls[id].request, Some(i)) && IntentRefusal(env, i, s.calls[id].request).None?
    ensures Next(env, s, Step(id, Found(Some(i))))
         == State(s.sh, s.calls[id := Call(s.calls[id].request, Outside(Acquiring))])
  {
  }

  /** A fitting intent can always be recorded in time. */
  lemma GetIntent(env: Env, s: State, id: nat) returns (es: seq<Event>)
    requires id in s.calls && s.calls[id].pc == Outside(ReadingIntent)
    requires GoodRequest(env, s.calls[id].request) && WithinCap(env, s.calls[id].Gross())
    ensures var t := Run(env, s, es);
      && CalmRun(env, s, es)
      && t == State(s.sh.(recorded := t.sh.recorded), s.calls[id := Call(s.calls[id].request, Outside(Acquiring))])
  {
    var q := s.calls[id].request;
    var i := PlainIntent(q, q.intentId, s.sh.now);
    var e0, e1 := Initiate(PlainInitiate(q), q.intentId), Step(id, Found(Some(i)));
    PlainInitiateIsValid(env, q, q.intentId, s.sh.now);
    RecordStep(env, s, q);
    OneEvent(env, s, e0);
    FoundStep(env, Next(env, s, e0), id, i);
    OneEvent(env, Next(env, s, e0), e1);
    Chain(env, s, [e0], [e1]);
    es := [e0] + [e1];
  }

  /** With the lock free and nobody exposed, a call that wants the lock gets it and broadcasts. */
  lemma TakeAndBroadcast(env: Env, s: State, id: nat) returns (es: seq<Event>)
    requires id in s.calls && s.calls[id].pc == Outside(Acquiring) && NobodyExposed(env, s, s.calls[id].Hash())
    requires Mintable(env, s.sh, s.calls[id].request)
    requires Locks.Acquired(s.sh.locks, LockKey(s.calls[id].Hash()), Locks.SETTLE_LOCK_TTL_MS, s.sh.now).1.Some?
    ensures CalmRun(env, s, es) && NoTick(es)
    ensures var h := s.calls[id].Hash(); BroadcastsOf(Run(env, s, es).sh, h) == BroadcastsOf(s.sh, h) + [NETWORK_HASH]
  {
    var e := Step(id, Ack);
    OneEvent(env, s, e);
    var t := Next(env, s, e);
    var rs := BroadcastsFrom(env, t.sh, t.calls[id]);
    CallRunIsRun(env, t, id, rs);
    InsideIsCalm(env, t, id, rs);
    CalmAppend(env, s, [e], Steps(id, rs));
    RunAppend(env, s, [e], Steps(id, rs));
    es := [e] + Steps(id, rs);
  }

  lemma OutsideBroadcasts(env: Env, s: State, id: nat) returns (es: seq<Event>)
    requires Inv(env, s) && id in s.calls && s.calls[id].pc.Outside? && EarlyReader(s.calls[id])
    requires Unminted(s.sh, s.calls[id].Hash())
    requires GoodRequest(env, s.calls[id].request) && Ready(env, s, id, s.calls[id].Hash())
    ensures CalmRun(env, s, es)
    ensures var h := s.calls[id].Hash(); BroadcastsOf(Run(env, s, es).sh, h) == BroadcastsOf(s.sh, h) + [NETWORK_HASH]
  {
    var h := s.calls[id].Hash();
    es := ClearTheWay(env, s, h);
    var s1 := Run(env, s, es);
    var tick := Tick(Wait(s1.sh, h));
    WaitFrees(env, s1, h);
    OneEvent(env, s1, tick);
    Chain(env, s, es, [tick]);
    es := es + [tick];
    var s2 := Run(env, s, es);
    if s.calls[id].pc.outer.ReadingIntent? {
      var more := GetIntent(env, s2, id);
      Chain(env, s, es, more);
      es := es + more;
    }
    var s3 := Run(env, s, es);
    var last := TakeAndBroadcast(env, s3, id);
    Chain(env, s, es, last);
    es := es + last;
  }

  lemma HolderBroadcasts(env: Env, s: State, id: nat) returns (es: seq<Event>)
    requires id in s.calls && s.calls[id].pc.Holding? && BeforeBroadcast(s.calls[id].pc.step)
    requires Mintable(env, s.sh, s.calls[id].request)
    ensures CalmRun(env, s, es)
    ensures var h := s.calls[id].Hash(); BroadcastsOf(Run(env, s, es).sh, h) == BroadcastsOf(s.sh, h) + [NETWORK_HASH]
  {
    var rs := BroadcastsFrom(env, s.sh, s.calls[id]);
    CallRunIsRun(env, s, id, rs);
    InsideIsCalm(env, s, id, rs);
    es := Steps(id, rs);
  }

  lemma ReadyBroadcasts(env: Env, s: State, h: string, id: nat) returns (es: seq<Event>)
    requires Inv(env, s) && GoodCalls(env, s.calls) && Unminted(s.sh, h) && Ready(env, s, id, h)
    ensures CalmRun(env, s, es) && BroadcastsOf(Run(env, s, es).sh, h) == BroadcastsOf(s.sh, h) + [NETWORK_HASH]
  {
    assert GoodRequest(env, s.calls[id].request);
    if s.calls[id].pc.Holding? {
      es := HolderBroadcasts(env, s, id);
    } else {
      es := OutsideBroadcasts(env, s, id);
    }
  }

  /**
   * In every reachable state with a durable record of a hash, a calm continuation with
   * another broadcast for that hash exists if and only if nothing has been minted for it
   * and a call for it, of an account and within the cap, is past its read of the replay
   * store and not past its broadcast.
   */
  lemma BroadcastAgainIff(env: Env, now: int, es: seq<Event>, h: string)
    requires CalmRun(env, Start(now), es) && h in Run(env, Start(now), es).sh.durable
    ensures var s := Run(env, Start(now), es);
      (exists more :: CalmRun(env, s, more) && BroadcastsOf(Run(env, s, more).sh, h) != BroadcastsOf(s.sh, h))
      <==> CanStillBroadcast(env, s, h)
  {
    var s := Run(env, Start(now), es);
    SettleTakeover.ReachedFacts(env, now, es, s);
    if more :| CalmRun(env, s, more) && BroadcastsOf(Run(env, s, more).sh, h) != BroadcastsOf(s.sh, h) {
      if !CanStillBroadcast(env, s, h) { Blocked(env, s, more, h); }
    }
    if CanStillBroadcast(env, s, h) {
      var id :| Ready(env, s, id, h);
      var more := ReadyBroadcasts(env, s, h, id);
      assert CalmRun(env, s, more) && BroadcastsOf(Run(env, s, more).sh, h) != BroadcastsOf(s.sh, h);
    }
  }

  // ----- A timely run that broadcasts twice

  /** Nothing decisive for the rest of the window. */
  lemma {:induction false} TimesOut(env: Env, sh: Shared, c: Call, fee: nat, tx: string, n: nat)
    returns (rs: seq<Reply>)
    requires c.pc.Holding? && n < CONFIRM_ATTEMPTS && c.pc.step == Confirming(fee, tx, n)
    ensures CallRun(env, sh, c, rs) == (sh, At(c, PersistingSubmitted(tx)))
    decreases CONFIRM_ATTEMPTS - n
  {
    var r, c' := Tx("NOT_FOUND"), NextCall(env, sh, c, Tx("NOT_FOUND")).1;
    if n + 1 == CONFIRM_ATTEMPTS {
      rs := [r] + [];
      CallRunCons(env, sh, c, r, []);
    } else {
      var rest := TimesOut(env, sh, c', fee, tx, n + 1);
      rs := [r] + rest;
      CallRunCons(env, sh, c, r, rest);
    }
  }

  lemma PersistStep(env: Env, sh: Shared, c: Call, tx: string)
    requires c.pc.Holding? && c.pc.step == PersistingSubmitted(tx)
    ensures NextCall(env, sh, c, Ack)
         == (sh.(durable := sh.durable[c.Hash() := UnconfirmedRecord(c.request, tx)]), At(c, Releasing(UNCONFIRMED)))
  {
  }

  /** A holder broadcasts, sees nothing decisive, persists the submitted record and releases. */
  lemma GivesUp(env: Env, sh: Shared, c: Call) returns (rs: seq<Reply>)
    requires c.pc.Holding? && c.pc.step == Probing && Mintable(env, sh, c.request)
    ensures CallRun(env, sh, c, rs) == (
      Sent(sh, c.request, NETWORK_HASH).(
        durable := sh.durable[c.Hash() := UnconfirmedRecord(c.request, NETWORK_HASH)],
        locks := Locks.Released(sh.locks, LockKey(c.Hash()), Locks.Token(c.pc.lock.n))),
      c.(pc := Done(UNCONFIRMED)))
  {
    rs := BroadcastsFrom(env, sh, c);
    var sh1, c1 := Sent(sh, c.request, NETWORK_HASH), At(c, Confirming(0, NETWORK_HASH, 0));
    var polls := TimesOut(env, sh1, c1, 0, NETWORK_HASH, 0);
    CallRunAppend(env, sh, c, rs, polls);
    LeavesRecord(env, sh1, At(c, PersistingSubmitted(NETWORK_HASH)), NETWORK_HASH);
    CallRunAppend(env, sh, c, rs + polls, [Ack] + ([Ack] + []));
    rs := rs + polls + ([Ack] + ([Ack] + []));
  }

  lemma LeavesRecord(env: Env, sh: Shared, c: Call, tx: string)
    requires c.pc.Holding? && c.pc.step == PersistingSubmitted(tx)
    ensures CallRun(env, sh, c, [Ack] + ([Ack] + [])) == (
      sh.(durable := sh.durable[c.Hash() := UnconfirmedRecord(c.request, tx)],
          locks := Locks.Released(sh.locks, LockKey(c.Hash()), Locks.Token(c.pc.lock.n))),
      c.(pc := Done(UNCONFIRMED)))
  {
    var sh1, c1 := sh.(durable := sh.durable[c.Hash() := UnconfirmedRecord(c.request, tx)]),
      At(c, Releasing(UNCONFIRMED));
    PersistStep(env, sh, c, tx);
    CallRunCons(env, sh, c, Ack, [Ack] + []);
    CallRunCons(env, sh1, c1, Ack, []);
  }

  /** Two calls for one request, just started. */
  lemma BothStarted(env: Env, now: int, q: SettleRequest) returns (es: seq<Event>)
    requires SettleOverrun.Ordinary(env, q)
    ensures NoTick(es) && Run(env, Start(now), es) == State(
      Start(now).sh.(recorded := {PlainIntent(q, q.intentId, now)}),
      map[0 := Call(q, Outside(ConsumingBucket)), 1 := Call(q, Outside(ConsumingBucket))])
  {
    var body, input := PlainBody(q), PlainInitiate(q);
    PlainBodyIsValid(env, q);
    PlainInitiateIsValid(env, q, q.intentId, now);
    SettleOverrun.TwoRequests(env, now, input, body);
    SettleOverrun.ThreeEvents(env, Start(now), Initiate(input, q.intentId), StartSettle(0, body), StartSettle(1, body));
    es := [Initiate(input, q.intentId), StartSettle(0, body), StartSettle(1, body)];
  }

  /** And both past their reads of the empty replay store. */
  lemma BothWaiting(env: Env, now: int, q: SettleRequest) returns (es: seq<Event>)
    requires SettleOverrun.Ordinary(env, q)
    ensures NoTick(es) && Run(env, Start(now), es) == State(
      Start(now).sh.(recorded := {PlainIntent(q, q.intentId, now)}),
      map[0 := Call(q, Outside(Acquiring)), 1 := Call(q, Outside(Acquiring))])
  {
    es := BothStarted(env, now, q);
    var s := Run(env, Start(now), es);
    PlainInitiateIsValid(env, q, q.intentId, now);
    var past := ReadsPast(env, s, PlainIntent(q, q.intentId, now), q);
    RunAppend(env, Start(now), es, past);
    es := es + past;
  }

  lemma ReadsPast(env: Env, s: State, i: Intent, q: SettleRequest) returns (es: seq<Event>)
    requires s.calls == map[0 := Call(q, Outside(ConsumingBucket)), 1 := Call(q, Outside(ConsumingBucket))]
    requires i in s.sh.recorded && Findable(s.sh, q, Some(i)) && IntentRefusal(env, i, q).None?
      && q.params.hash !in s.sh.durable
    ensures NoTick(es)
    ensures Run(env, s, es) == State(s.sh, map[0 := Call(q, Outside(Acquiring)), 1 := Call(q, Outside(Acquiring))])
  {
    var toLock := [Ack, Ack] + [Found(Some(i))];
    SettleOverrun.ReachesLock(env, s.sh, q, i);
    CallRunIsRun(env, s, 0, toLock);
    var s1 := Run(env, s, Steps(0, toLock));
    CallRunIsRun(env, s1, 1, toLock);
    RunAppend(env, s, Steps(0, toLock), Steps(1, toLock));
    es := Steps(0, toLock) + Steps(1, toLock);
  }

  /** One of two waiting calls goes in, broadcasts, gives up and leaves its submitted record. */
  lemma OneGivesUp(env: Env, s: State, q: SettleRequest) returns (es: seq<Event>)
    requires s.calls == map[0 := Call(q, Outside(Acquiring)), 1 := Call(q, Outside(Acquiring))]
    requires Mintable(env, s.sh, q) && s.sh.locks == Locks.EMPTY_TABLE
    ensures NoTick(es)
    ensures var t := Run(env, s, es);
      && t.calls == map[0 := Call(q, Done(UNCONFIRMED)), 1 := Call(q, Outside(Acquiring))]
      && t.sh == Sent(s.sh, q, NETWORK_HASH).(
           durable := s.sh.durable[q.params.hash := UnconfirmedRecord(q, NETWORK_HASH)], locks := t.sh.locks)
      && LockKey(q.params.hash) !in t.sh.locks.held
  {
    var e := Step(0, Ack);
    var s1 := Next(env, s, e);
    var rs := GivesUp(env, s1.sh, s1.calls[0]);
    CallRunIsRun(env, s1, 0, rs);
    OneEvent(env, s, e);
    RunAppend(env, s, [e], Steps(0, rs));
    es := [e] + Steps(0, rs);
  }

  /**
   * For every ordinary request there is a timely run in which a submitted record for its
   * burn is written and the burn is broadcast a second time after that.
   */
  lemma TimelyBroadcastsTwice(env: Env, now: int, q: SettleRequest)
    returns (first: seq<Event>, second: seq<Event>)
    requires SettleOverrun.Ordinary(env, q)
    ensures TimelyRun(env, Start(now), first + second)
    ensures var h, s, t := q.params.hash, Run(env, Start(now), first), Run(env, Start(now), first + second);
      && h in s.sh.durable && s.sh.durable[h].status.SubmittedStatus? && |BroadcastsOf(s.sh, h)| == 1
      && |BroadcastsOf(t.sh, h)| == 2
  {
    var es := BothWaiting(env, now, q);
    var s := Run(env, Start(now), es);
    var more := OneGivesUp(env, s, q);
    RunAppend(env, Start(now), es, more);
    first := es + more;
    var t := Run(env, Start(now), first);
    second := TakeAndBroadcast(env, t, 1);
    RunAppend(env, Start(now), first, second);
    StandingClockIsTimely(env, Start(now), first + second);
  }
}

// Where the ledgers and the durable records of the settle protocol come from, in every run:
// from replies of the network, one entry each.

module SettleLedgers {
  import opened Wrappers
  import opened Text
  import opened SettleRules
  import opened SettleProtocol
  import opened SettleBroadcasts
  import SettleSafety

  // ----- The ledgers are the replies

  /** The step at which a call of this hash stands inside the lock. */
  predicate HeldAt(s: State, id: nat, h: string) {
    id in s.calls && s.calls[id].Hash() == h && s.calls[id].pc.Holding?
  }

  /** What an event adds to the broadcasts of a hash: the hash under which the network took a transaction just sent. */
  function Taken(s: State, e: Event, h: string): seq<string> {
    match e
    case Step(id, Submitted(status, Some(tx))) =>
      if HeldAt(s, id, h) && s.calls[id].pc.step.Sending? && status == "PENDING" && tx != "" then [tx] else []
    case Step(id, Landed(tx, _)) =>
      if HeldAt(s, id, h) && s.calls[id].pc.step.Sending? then [tx] else []
    case _ => []
  }

  /** What an event adds to the mints of a hash: the transaction that a poll has just reported as successful. */
  function Reported(s: State, e: Event, h: string): seq<Mint> {
    match e
    case Step(id, Tx(status)) =>
      if HeldAt(s, id, h) && s.calls[id].pc.step.Confirming? && status == "SUCCESS" then
        var q := s.calls[id].request;
        [Mint(s.calls[id].pc.step.txHash, q.params.address, q.mode, q.params.amount, s.calls[id].pc.step.fee)]
      else []
    case _ => []
  }

  function AllTaken(env: Env, s: State, es: seq<Event>, h: string): seq<string>
    decreases |es|
  {
    if es == [] then [] else Taken(s, es[0], h) + AllTaken(env, Next(env, s, es[0]), es[1..], h)
  }

  function AllReported(env: Env, s: State, es: seq<Event>, h: string): seq<Mint>
    decreases |es|
  {
    if es == [] then [] else Reported(s, es[0], h) + AllReported(env, Next(env, s, es[0]), es[1..], h)
  }

  /** Each ledger of the hash has grown by this much. */
  predicate Grew(sh: Shared, sh': Shared, h: string, taken: seq<string>, reported: seq<Mint>) {
    BroadcastsOf(sh', h) == BroadcastsOf(sh, h) + taken && MintsOf(sh', h) == MintsOf(sh, h) + reported
  }

  lemma OuterGrew(env: Env, sh: Shared, q: SettleRequest, o: OuterStep, r: Reply, h: string)
    ensures Grew(sh, NextOuter(env, sh, q, o, r).0, h, [], [])
  {
  }

  lemma OtherHashGrew(env: Env, sh: Shared, q: SettleRequest, step: HeldStep, r: Reply, h: string)
    requires q.params.hash != h
    ensures Grew(sh, NextHeld(env, sh, q, step, r).0, h, [], [])
  {
  }

  lemma HeldGrew(env: Env, s: State, id: nat, r: Reply)
    requires id in s.calls && s.calls[id].pc.Holding? && !s.calls[id].pc.step.Releasing?
    ensures var c := s.calls[id];
      Grew(s.sh, NextHeld(env, s.sh, c.request, c.pc.step, r).0, c.Hash(), Taken(s, Step(id, r), c.Hash()),
        Reported(s, Step(id, r), c.Hash()))
  {
  }

  lemma StepGrew(env: Env, s: State, id: nat, r: Reply, h: string)
    requires id in s.calls
    ensures Grew(s.sh, NextCall(env, s.sh, s.calls[id], r).0, h, Taken(s, Step(id, r), h), Reported(s, Step(id, r), h))
  {
    var c := s.calls[id];
    match c.pc
    case Outside(o) => OuterGrew(env, s.sh, c.request, o, r, h);
    case Holding(_, step) =>
      if c.Hash() != h {
        OtherHashGrew(env, s.sh, c.request, step, r, h);
      } else if !step.Releasing? {
        HeldGrew(env, s, id, r);
      }
    case Done(_) =>
  }

  lemma NextGrew(env: Env, s: State, e: Event, h: string)
    ensures Grew(s.sh, Next(env, s, e).sh, h, Taken(s, e, h), Reported(s, e, h))
  {
    if e.Step? && e.id in s.calls { StepGrew(env, s, e.id, e.reply, h); }
  }

  lemma GrewThen(sh: Shared, sh': Shared, sh'': Shared, h: string, taken: seq<string>, more: seq<string>,
    reported: seq<Mint>, moreReported: seq<Mint>)
    requires Grew(sh, sh', h, taken, reported) && Grew(sh', sh'', h, more, moreReported)
    ensures Grew(sh, sh'', h, taken + more, reported + moreReported)
  {
    assert BroadcastsOf(sh, h) + (taken + more) == (BroadcastsOf(sh, h) + taken) + more;
    assert MintsOf(sh, h) + (reported + moreReported) == (MintsOf(sh, h) + reported) + moreReported;
  }

  /**
   * In every run the broadcasts of a hash are, one for one and in order, the hashes of the
   * replies "PENDING" and of the sends that landed unheard, and its mints are the
   * transactions that a poll reported as successful, with the data of the call that polled.
   */
  lemma {:induction false} LedgersAreReplies(env: Env, s: State, es: seq<Event>, h: string)
    ensures Grew(s.sh, Run(env, s, es).sh, h, AllTaken(env, s, es, h), AllReported(env, s, es, h))
    decreases |es|
  {
    if es != [] {
      var t := Next(env, s, es[0]);
      NextGrew(env, s, es[0], h);
      LedgersAreReplies(env, t, es[1..], h);
      GrewThen(s.sh, t.sh, Run(env, t, es[1..]).sh, h, Taken(s, es[0], h), AllTaken(env, t, es[1..], h),
        Reported(s, es[0], h), AllReported(env, t, es[1..], h));
    }
  }

  // ----- The records name a broadcast

  /** The network hash that a step carries. */
  function CarriedHash(step: HeldStep): Option<string> {
    match step
    case Confirming(_, tx, _) => Some(tx)
    case MarkingSubmitted(_, tx) => Some(tx)
    case MarkingSettled(tx, _) => Some(tx)
    case PersistingSettled(tx, _) => Some(tx)
    case PersistingSubmitted(tx) => Some(tx)
    case _ => None
  }

  /** A call that carries a network hash carries one of the broadcasts of its burn. */
  predicate CarriesBroadcast(sh: Shared, c: Call) {
    c.pc.Holding? && CarriedHash(c.pc.step).Some? ==> CarriedHash(c.pc.step).value in BroadcastsOf(sh, c.Hash())
  }

  /** A durable record of this request, under one of the broadcasts of its burn. */
  predicate RecordOf(sh: Shared, q: SettleRequest, r: Record) {
    && r.txHash in BroadcastsOf(sh, q.params.hash)
    && r.destinationAddress == q.params.address && r.sourceDomain == q.params.sourceDomain
    && match r.status
       case SubmittedStatus => r.amount == Some(q.params.amount) && r.dust == None
       case SettledStatus => r.amount.Some? && r.dust == Some(0)
  }

  /** And a record in core's own store; core marks the mint before it knows the amount. */
  predicate CoreRecordOf(sh: Shared, q: SettleRequest, r: Record) {
    && r.txHash in BroadcastsOf(sh, q.params.hash)
    && r.destinationAddress == q.params.address && r.sourceDomain == q.params.sourceDomain
    && match r.status
       case SubmittedStatus => r.amount == None && r.dust == None
       case SettledStatus => r.amount.Some? && r.dust == Some(0)
  }

  ghost predicate Recorded(s: State, h: string) {
    h in s.sh.durable ==> exists i ::
      i in s.calls && s.calls[i].Hash() == h && RecordOf(s.sh, s.calls[i].request, s.sh.durable[h])
  }

  ghost predicate CoreRecorded(s: State, h: string) {
    h in s.sh.core ==> exists i ::
      i in s.calls && s.calls[i].Hash() == h && CoreRecordOf(s.sh, s.calls[i].request, s.sh.core[h])
  }

  ghost predicate Documented(s: State) {
    && (forall i :: i in s.calls ==> CarriesBroadcast(s.sh, s.calls[i]))
    && (forall h :: Recorded(s, h)) && forall h :: CoreRecorded(s, h)
  }

  lemma HeldCarries(env: Env, sh: Shared, c: Call, r: Reply)
    requires c.pc.Holding? && !c.pc.step.Releasing? && CarriesBroadcast(sh, c)
    ensures var (sh', step) := NextHeld(env, sh, c.request, c.pc.step, r);
      CarriesBroadcast(sh', At(c, step))
  {
  }

  lemma CallCarries(env: Env, sh: Shared, c: Call, r: Reply)
    requires CarriesBroadcast(sh, c)
    ensures CarriesBroadcast(NextCall(env, sh, c, r).0, NextCall(env, sh, c, r).1)
  {
    if c.pc.Holding? && !c.pc.step.Releasing? { HeldCarries(env, sh, c, r); }
  }

  /** A step of one call keeps the broadcasts that another one carries or records. */
  lemma BroadcastStays(env: Env, s: State, e: Event, h: string, tx: string)
    requires tx in BroadcastsOf(s.sh, h)
    ensures tx in BroadcastsOf(Next(env, s, e).sh, h)
  {
    NextGrew(env, s, e, h);
  }

  /** The durable store changes only where a call persists its own record. */
  lemma HeldRecords(env: Env, sh: Shared, c: Call, r: Reply, h: string)
    requires c.pc.Holding? && !c.pc.step.Releasing? && CarriesBroadcast(sh, c)
    ensures var sh' := NextHeld(env, sh, c.request, c.pc.step, r).0;
      h in sh'.durable ==>
        || (h in sh.durable && sh'.durable[h] == sh.durable[h])
        || (h == c.Hash() && RecordOf(sh', c.request, sh'.durable[h]))
  {
  }

  lemma CallRecords(env: Env, sh: Shared, c: Call, r: Reply, h: string)
    requires CarriesBroadcast(sh, c)
    ensures var sh' := NextCall(env, sh, c, r).0;
      h in sh'.durable ==>
        || (h in sh.durable && sh'.durable[h] == sh.durable[h])
        || (h == c.Hash() && RecordOf(sh', c.request, sh'.durable[h]))
  {
    match c.pc
    case Outside(o) => SettleSafety.OuterKeepsDurable(env, sh, c.request, o, r);
    case Holding(_, step) => if !step.Releasing? { HeldRecords(env, sh, c, r, h); }
    case Done(_) =>
  }

  lemma RecordStays(env: Env, s: State, e: Event, h: string)
    requires Documented(s)
    ensures Recorded(Next(env, s, e), h)
  {
    var t := Next(env, s, e);
    CallsStay(env, s, e);
    if h in t.sh.durable {
      if e.Step? && e.id in s.calls { CallRecords(env, s.sh, s.calls[e.id], e.reply, h); }
      if h in s.sh.durable && t.sh.durable[h] == s.sh.durable[h] {
        assert Recorded(s, h);
        var i :| i in s.calls && s.calls[i].Hash() == h && RecordOf(s.sh, s.calls[i].request, s.sh.durable[h]);
        BroadcastStays(env, s, e, h, s.sh.durable[h].txHash);
        assert i in t.calls && t.calls[i].Hash() == h && RecordOf(t.sh, t.calls[i].request, t.sh.durable[h]);
      } else {
        assert t.calls[e.id].Hash() == h && RecordOf(t.sh, t.calls[e.id].request, t.sh.durable[h]);
      }
    }
  }

  /** Core's own store changes only where a call marks its own mint. */
  lemma HeldCoreRecords(env: Env, sh: Shared, c: Call, r: Reply, h: string)
    requires c.pc.Holding? && !c.pc.step.Releasing? && CarriesBroadcast(sh, c)
    ensures var sh' := NextHeld(env, sh, c.request, c.pc.step, r).0;
      h in sh'.core ==>
        || (h in sh.core && sh'.core[h] == sh.core[h])
        || (h == c.Hash() && CoreRecordOf(sh', c.request, sh'.core[h]))
  {
  }

  lemma CallCoreRecords(env: Env, sh: Shared, c: Call, r: Reply, h: string)
    requires CarriesBroadcast(sh, c)
    ensures var sh' := NextCall(env, sh, c, r).0;
      h in sh'.core ==>
        || (h in sh.core && sh'.core[h] == sh.core[h])
        || (h == c.Hash() && CoreRecordOf(sh', c.request, sh'.core[h]))
  {
    match c.pc
    case Outside(o) => OuterKeepsCore(env, sh, c.request, o, r);
    case Holding(_, step) => if !step.Releasing? { HeldCoreRecords(env, sh, c, r, h); }
    case Done(_) =>
  }

  lemma OuterKeepsCore(env: Env, sh: Shared, q: SettleRequest, o: OuterStep, r: Reply)
    ensures NextOuter(env, sh, q, o, r).0.core == sh.core
  {
  }

  lemma CoreRecordStays(env: Env, s: State, e: Event, h: string)
    requires Documented(s)
    ensures CoreRecorded(Next(env, s, e), h)
  {
    var t := Next(env, s, e);
    CallsStay(env, s, e);
    if h in t.sh.core {
      if e.Step? && e.id in s.calls { CallCoreRecords(env, s.sh, s.calls[e.id], e.reply, h); }
      if h in s.sh.core && t.sh.core[h] == s.sh.core[h] {
        assert CoreRecorded(s, h);
        var i :| i in s.calls && s.calls[i].Hash() == h && CoreRecordOf(s.sh, s.calls[i].request, s.sh.core[h]);
        BroadcastStays(env, s, e, h, s.sh.core[h].txHash);
        assert i in t.calls && t.calls[i].Hash() == h && CoreRecordOf(t.sh, t.calls[i].request, t.sh.core[h]);
      } else {
        assert t.calls[e.id].Hash() == h && CoreRecordOf(t.sh, t.calls[e.id].request, t.sh.core[h]);
      }
    }
  }

  lemma CarriedStays(env: Env, s: State, e: Event, i: nat)
    requires Documented(s) && i in Next(env, s, e).calls
    ensures CarriesBroadcast(Next(env, s, e).sh, Next(env, s, e).calls[i])
  {
    if i in s.calls {
      var c := s.calls[i];
      assert CarriesBroadcast(s.sh, c);
      if e.Step? && e.id == i {
        CallCarries(env, s.sh, c, e.reply);
      } else if c.pc.Holding? && CarriedHash(c.pc.step).Some? {
        BroadcastStays(env, s, e, c.Hash(), CarriedHash(c.pc.step).value);
      }
    }
  }

  lemma NextDocumented(env: Env, s: State, e: Event)
    requires Documented(s)
    ensures Documented(Next(env, s, e))
  {
    var t := Next(env, s, e);
    forall i | i in t.calls ensures CarriesBroadcast(t.sh, t.calls[i]) { CarriedStays(env, s, e, i); }
    forall h ensures Recorded(t, h) { RecordStays(env, s, e, h); }
    forall h ensures CoreRecorded(t, h) { CoreRecordStays(env, s, e, h); }
  }

  /**
   * In every run a durable record is that of some call for its hash: it names one of the
   * broadcasts of that hash and the call's own address and domain; submitted, it has the gross
   * amount and no dust field, and settled an amount and zero dust. So does a record in core's
   * own store, which when submitted has no amount yet.
   */
  lemma {:induction false} RecordsNameBroadcasts(env: Env, s: State, es: seq<Event>)
    requires Documented(s)
    ensures Documented(Run(env, s, es))
    decreases |es|
  {
    if es != [] {
      NextDocumented(env, s, es[0]);
      RecordsNameBroadcasts(env, Next(env, s, es[0]), es[1..]);
    }
  }

  // ----- One lock per hash

  /** The two tables agree on the lock of this hash. */
  predicate SameLock(sh: Shared, sh': Shared, h: string) {
    && (LockKey(h) in sh'.locks.held <==> LockKey(h) in sh.locks.held)
    && (LockKey(h) in sh.locks.held ==> sh'.locks.held[LockKey(h)] == sh.locks.held[LockKey(h)])
    && sh'.now == sh.now
  }

  lemma OuterSameLock(env: Env, sh: Shared, q: SettleRequest, o: OuterStep, r: Reply, h: string)
    requires LockKey(q.params.hash) != LockKey(h)
    ensures SameLock(sh, NextOuter(env, sh, q, o, r).0, h)
  {
  }

  lemma HeldSameLock(env: Env, sh: Shared, q: SettleRequest, step: HeldStep, r: Reply, h: string)
    ensures SameLock(sh, NextHeld(env, sh, q, step, r).0, h)
  {
  }

  lemma CallSameLock(env: Env, sh: Shared, c: Call, r: Reply, h: string)
    requires LockKey(c.Hash()) != LockKey(h)
    ensures SameLock(sh, NextCall(env, sh, c, r).0, h)
  {
    match c.pc
    case Outside(o) => OuterSameLock(env, sh, c.request, o, r, h);
    case Holding(_, step) => if !step.Releasing? { HeldSameLock(env, sh, c.request, step, r, h); }
    case Done(_) =>
  }

  /** Whatever a call of one hash does, the lock of another hash stays as it is, and is to be had as before. */
  lemma LocksAreApart(env: Env, s: State, id: nat, r: Reply, h: string)
    requires id in s.calls && s.calls[id].Hash() != h
    ensures var t := Next(env, s, Step(id, r)); SameLock(s.sh, t.sh, h) && (LockOpen(t.sh, h) <==> LockOpen(s.sh, h))
  {
    var g := s.calls[id].Hash();
    assert LockKey(g)[7..] == g && LockKey(h)[7..] == h;
    CallSameLock(env, s.sh, s.calls[id], r, h);
  }
}

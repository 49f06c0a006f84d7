// The settle protocol as an interleaved step machine: any number of handleSettle and
// handleStatus calls on one client, one step per await (apps/demo/server/handlers.ts,
// packages/core/src/receive.ts, packages/core/src/forwarder/index.ts).

module SettleProtocol {
  import opened Wrappers
  import opened Text
  import opened Transfers
  import opened CctpMessage
  import opened Intents
  import opened Locks
  import opened SettleRules

  // ----- Shared state

  /** A mint that submitMint reported as confirmed. */
  datatype Mint = Mint(txHash: string, address: string, mode: Mode, gross: nat, fee: nat)

  /**
   * core: the client's own replay store; durable: the handler's store; recorded: every
   * intent that an initiate passed to the intent store. Two ledgers, per burn hash and
   * oldest first: mints, which submitMint has reported as confirmed, and broadcasts, the
   * network hashes of all mints that the network has accepted for inclusion, whether or
   * not submitMint has heard of that.
   */
  datatype Shared = Shared(
    now: int, core: map<string, Record>, durable: map<string, Record>, locks: Table,
    recorded: set<Intent>, mints: map<string, seq<Mint>>, broadcasts: map<string, seq<string>>)

  function MintsOf(sh: Shared, h: string): seq<Mint> {
    if h in sh.mints then sh.mints[h] else []
  }

  function BroadcastsOf(sh: Shared, h: string): seq<string> {
    if h in sh.broadcasts then sh.broadcasts[h] else []
  }

  // ----- Calls

  /** A lock as its holder knows it: the token's number and the deadline. */
  datatype Lock = Lock(n: nat, deadline: int)

  /** The awaits inside the lock. */
  datatype HeldStep =
    | Probing | ReadingSequence | CheckingCore | Attesting
    | EnsuringTrustline(fee: nat) | Simulating(fee: nat) | Signing(fee: nat) | Sending(fee: nat)
    | Confirming(fee: nat, txHash: string, attempt: nat)
    | MarkingSubmitted(fee: nat, txHash: string)
    | MarkingSettled(txHash: string, stroops: int)
    | PersistingSettled(txHash: string, stroops: int)
    | RereadingReplay
    | PersistingSubmitted(txHash: string)
    | Releasing(answer: Answer)

  /** The awaits before the lock, and those of a status call. */
  datatype OuterStep =
    | ConsumingBucket | ReadingReplay | ReadingIntent | Acquiring
    | StatusBucket | StatusReplay | StatusIntent | StatusProbe

  datatype Pc = Outside(outer: OuterStep) | Holding(lock: Lock, step: HeldStep) | Done(answer: Answer)

  datatype Call = Call(request: SettleRequest, pc: Pc) {
    function Hash(): string { request.params.hash }
    function Gross(): nat { request.params.amount }
  }

  /** The holder at another step. */
  function At(c: Call, step: HeldStep): Call
    requires c.pc.Holding?
  {
    c.(pc := Holding(c.pc.lock, step))
  }

  datatype State = State(sh: Shared, calls: map<nat, Call>)

  /**
   * What an awaited call brought; a reply that does not fit the step changes nothing.
   * Unacked: a store has written, but the call rejects. Landed: the network has taken the
   * transaction, but sending it rejects.
   */
  datatype Reply =
    | Ack
    | Nack
    | Unacked
    | Throws(thrown: Thrown)
    | Found(intent: Option<Intent>)
    | Probed(issued: bool, ready: bool)
    | Attested(message: string, signature: string)
    | Submitted(status: string, hash: Option<string>)
    | Landed(txHash: string, error: Thrown)
    | Tx(status: string)

  function LockKey(hash: string): string {
    "settle:" + hash
  }

  /** The record that core writes right after the confirmed mint. */
  function CoreSubmitted(q: SettleRequest, txHash: string): Record {
    Record(txHash, None, None, q.params.sourceDomain, q.params.address, SubmittedStatus)
  }

  /** The record of a finished receive, as core and the handler both write it. */
  function SettledRecord(q: SettleRequest, txHash: string, stroops: int): Record {
    Record(txHash, Some(stroops), Some(0), q.params.sourceDomain, q.params.address, SettledStatus)
  }

  /** The record of a broadcast that was never confirmed. */
  function UnconfirmedRecord(q: SettleRequest, txHash: string): Record {
    Record(txHash, Some(q.params.amount), None, q.params.sourceDomain, q.params.address, SubmittedStatus)
  }

  /** The network takes the mint of this request for inclusion. */
  function Sent(sh: Shared, q: SettleRequest, txHash: string): Shared {
    sh.(broadcasts := sh.broadcasts[q.params.hash := BroadcastsOf(sh, q.params.hash) + [txHash]])
  }

  /** The network reports SUCCESS for the broadcast mint of this request. */
  function Confirmed(sh: Shared, q: SettleRequest, fee: nat, txHash: string): Shared {
    sh.(mints := sh.mints[q.params.hash :=
      MintsOf(sh, q.params.hash) + [Mint(txHash, q.params.address, q.mode, q.params.amount, fee)]])
  }

  /** An error of receive() as the handler turns it into its next step. */
  function AfterFailure(f: Failure): HeldStep {
    match f
    case ReplayTransfer => RereadingReplay
    case MintUnconfirmedError(tx) => PersistingSubmitted(tx)
    case _ => Releasing(FailureAnswer(f))
  }

  /** The synchronous tail of receive() between its two marks. */
  function AfterMint(env: Env, q: SettleRequest, fee: nat, txHash: string): HeldStep {
    match PostMint(env, q.params.address, q.params.amount, fee)
    case Err(f) => AfterFailure(f)
    case Ok(stroops) => MarkingSettled(txHash, stroops)
  }

  /** The environment can only find an intent that was recorded under this id and hash. */
  predicate Findable(sh: Shared, q: SettleRequest, found: Option<Intent>) {
    found.Some? ==>
      found.value in sh.recorded && found.value.intentId == q.intentId && found.value.burnTxHash == q.params.hash
  }

  predicate StatusFindable(sh: Shared, q: SettleRequest, found: Option<Intent>) {
    found.Some? ==>
      found.value in sh.recorded && found.value.burnTxHash == q.params.hash
      && found.value.address == q.params.address && found.value.amount == Print(q.params.amount)
  }

  function NextOuter(env: Env, sh: Shared, q: SettleRequest, o: OuterStep, r: Reply): (Shared, Pc) {
    var h := q.params.hash;
    if r.Throws? then (sh, if o.StatusProbe? then Outside(o) else Done(Crashed)) else
      match o
      case ConsumingBucket =>
        (sh, if r.Ack? then Outside(ReadingReplay) else if r.Nack? then Done(RATE_LIMITED) else Outside(o))
      case ReadingReplay =>
        (sh, if !r.Ack? then Outside(o)
             else if IsSettled(sh.durable, h) then Done(ReceiptOf(sh.durable[h]))
             else if h in sh.durable then Done(UNCONFIRMED)
             else Outside(ReadingIntent))
      case ReadingIntent =>
        if !r.Found? || !Findable(sh, q, r.intent) then (sh, Outside(o))
        else if r.intent.None? then (sh, Done(Refused(403, NoIntent)))
        else (match IntentRefusal(env, r.intent.value, q)
              case Some(answer) => (sh, Done(answer))
              case None => (sh, Outside(Acquiring)))
      case Acquiring =>
        if !r.Ack? then (sh, Outside(o)) else
          var (table, token) := Acquired(sh.locks, LockKey(h), SETTLE_LOCK_TTL_MS, sh.now);
          if token.None? then (sh, Done(RATE_LIMITED))
          else (sh.(locks := table), Holding(Lock(table.counter, sh.now + SETTLE_LOCK_TTL_MS), Probing))
      case StatusBucket =>
        (sh, if r.Ack? then Outside(StatusReplay) else if r.Nack? then Done(RATE_LIMITED) else Outside(o))
      case StatusReplay =>
        (sh, if !r.Ack? then Outside(o)
             else if IsSettled(sh.durable, h) then Done(ReceiptOf(sh.durable[h]))
             else Outside(StatusIntent))
      case StatusIntent =>
        (sh, if !r.Found? || !StatusFindable(sh, q, r.intent) then Outside(o)
             else if r.intent.None? then Done(Refused(403, NoIntent)) else Outside(StatusProbe))
      case StatusProbe =>
        (sh, if r.Probed? then Done(Frame(r.ready)) else Outside(o))
  }

  function NextHeld(env: Env, sh: Shared, q: SettleRequest, step: HeldStep, r: Reply): (Shared, HeldStep) {
    var h := q.params.hash;
    match step
    case Probing =>
      (sh, if !r.Probed? then step else if env.probesIris && r.issued && !r.ready then Releasing(NOT_READY)
        else ReadingSequence)
    case ReadingSequence =>
      (sh, if r.Ack? then CheckingCore else if r.Throws? then Releasing(Crashed) else step)
    case CheckingCore =>
      (sh, if h in sh.core then AfterFailure(ReplayTransfer)
           else if !env.isAccount(q.params.address) then AfterFailure(BadInput)
           else if r.Throws? then AfterFailure(Passed(r.thrown))
           else if r.Ack? then Attesting else step)
    case Attesting =>
      (sh, if r.Throws? then AfterFailure(Passed(r.thrown))
           else if !r.Attested? then step
           else match AttestedAmounts(q.params.amount, r.message, r.signature)
             case Err(f) => AfterFailure(f)
             case Ok(a) => EnsuringTrustline(a.feeExecuted))
    case EnsuringTrustline(fee) =>
      (sh, if r.Throws? then AfterFailure(Passed(r.thrown))
           else if r.Ack? then Simulating(fee) else step)
    case Simulating(fee) =>
      (sh, if r.Throws? then AfterFailure(Surface(r.thrown)) else if r.Ack? then Signing(fee) else step)
    case Signing(fee) =>
      (sh, if r.Throws? then AfterFailure(Surface(r.thrown)) else if r.Ack? then Sending(fee) else step)
    case Sending(fee) =>
      if r.Throws? then (sh, AfterFailure(Surface(r.thrown)))
      else if r.Landed? then (Sent(sh, q, r.txHash), AfterFailure(Surface(r.error)))
      else if !r.Submitted? then (sh, step)
      else if Accepted(r.status, r.hash) then (Sent(sh, q, r.hash.value), Confirming(fee, r.hash.value, 0))
      else (sh, AfterFailure(MintFailedError))
    case Confirming(fee, tx, attempt) =>
      if r.Tx? && r.status == "SUCCESS" then (Confirmed(sh, q, fee, tx), MarkingSubmitted(fee, tx))
      else if r.Tx? && r.status == "FAILED" then (sh, AfterFailure(MintFailedError))
      else if r.Tx? || r.Throws? then
        (sh, if attempt + 1 >= CONFIRM_ATTEMPTS then AfterFailure(MintUnconfirmedError(tx))
          else Confirming(fee, tx, attempt + 1))
      else (sh, step)
    case MarkingSubmitted(fee, tx) =>
      (sh.(core := sh.core[h := CoreSubmitted(q, tx)]), AfterMint(env, q, fee, tx))
    case MarkingSettled(tx, stroops) =>
      (sh.(core := sh.core[h := SettledRecord(q, tx, stroops)]), PersistingSettled(tx, stroops))
    case PersistingSettled(tx, stroops) =>
      if r.Throws? then (sh, Releasing(Crashed))
      else (sh.(durable := sh.durable[h := SettledRecord(q, tx, stroops)]),
            Releasing(if r.Unacked? then Crashed else Receipt(stroops, tx)))
    case RereadingReplay =>
      (sh, if r.Throws? then Releasing(Crashed)
           else Releasing(if IsSettled(sh.durable, h) then ReceiptOf(sh.durable[h]) else NOT_READY))
    case PersistingSubmitted(tx) =>
      if r.Throws? then (sh, Releasing(Crashed))
      else (sh.(durable := sh.durable[h := UnconfirmedRecord(q, tx)]),
            Releasing(if r.Unacked? then Crashed else UNCONFIRMED))
    case Releasing(_) => (sh, step)
  }

  function NextCall(env: Env, sh: Shared, c: Call, r: Reply): (Shared, Call) {
    match c.pc
    case Outside(o) =>
      var (sh', pc) := NextOuter(env, sh, c.request, o, r);
      (sh', c.(pc := pc))
    case Holding(lock, Releasing(answer)) =>
      (sh.(locks := Released(sh.locks, LockKey(c.Hash()), Token(lock.n))), c.(pc := Done(answer)))
    case Holding(lock, step) =>
      var (sh', step') := NextHeld(env, sh, c.request, step, r);
      (sh', c.(pc := Holding(lock, step')))
    case Done(_) => (sh, c)
  }

  datatype Event =
    | Tick(ms: nat)
    | Initiate(input: InitiateInput, intentId: string)
    | StartSettle(id: nat, body: SettleInput)
    | StartStatus(id: nat, query: StatusInput)
    | Step(id: nat, reply: Reply)

  function Next(env: Env, s: State, e: Event): State {
    match e
    case Tick(ms) => s.(sh := s.sh.(now := s.sh.now + ms))
    case Initiate(input, intentId) =>
      (match InitiateIntent(env, input, intentId, s.sh.now)
       case None => s
       case Some(i) => s.(sh := s.sh.(recorded := s.sh.recorded + {i})))
    case StartSettle(id, body) =>
      (match ValidateSettle(env, body)
       case None => s
       case Some(q) => if id in s.calls then s else s.(calls := s.calls[id := Call(q, Outside(ConsumingBucket))]))
    case StartStatus(id, query) =>
      (match ValidateStatus(env, query)
       case None => s
       case Some(q) => if id in s.calls then s else s.(calls := s.calls[id := Call(q, Outside(StatusBucket))]))
    case Step(id, reply) =>
      if id !in s.calls then s else
        var (sh, c) := NextCall(env, s.sh, s.calls[id], reply);
        State(sh, s.calls[id := c])
  }

  function Run(env: Env, s: State, es: seq<Event>): State
    decreases |es|
  {
    if es == [] then s else Run(env, Next(env, s, es[0]), es[1..])
  }

  function Start(now: int): State {
    State(Shared(now, map[], map[], EMPTY_TABLE, {}, map[], map[]), map[])
  }

  // ----- One call on its own

  /** A call that takes its steps with these replies while nobody else moves. */
  function CallRun(env: Env, sh: Shared, c: Call, replies: seq<Reply>): (Shared, Call) {
    if replies == [] then (sh, c)
    else
      var (sh', c') := CallRun(env, sh, c, replies[..|replies| - 1]);
      NextCall(env, sh', c', replies[|replies| - 1])
  }

  lemma CallRunSnoc(env: Env, sh: Shared, c: Call, replies: seq<Reply>, r: Reply)
    ensures CallRun(env, sh, c, replies + [r])
         == NextCall(env, CallRun(env, sh, c, replies).0, CallRun(env, sh, c, replies).1, r)
  {
    assert (replies + [r])[..|replies|] == replies;
  }

  lemma {:induction false} CallRunAppend(env: Env, sh: Shared, c: Call, rs: seq<Reply>, more: seq<Reply>)
    ensures var (sh', c') := CallRun(env, sh, c, rs);
      CallRun(env, sh, c, rs + more) == CallRun(env, sh', c', more)
    decreases |more|
  {
    if more == [] {
      assert rs + more == rs;
    } else {
      CallRunAppend(env, sh, c, rs, more[..|more| - 1]);
      assert (rs + more)[..|rs + more| - 1] == rs + more[..|more| - 1];
    }
  }

  function Steps(id: nat, replies: seq<Reply>): seq<Event> {
    seq(|replies|, i requires 0 <= i < |replies| => Step(id, replies[i]))
  }

  lemma {:induction false} RunAppend(env: Env, s: State, es: seq<Event>, fs: seq<Event>)
    ensures Run(env, s, es + fs) == Run(env, Run(env, s, es), fs)
    decreases |es|
  {
    if es == [] {
      assert es + fs == fs;
    } else {
      assert (es + fs)[1..] == es[1..] + fs;
      RunAppend(env, Next(env, s, es[0]), es[1..], fs);
    }
  }

  /** Such a stretch is a run of the machine. */
  lemma {:induction false} CallRunIsRun(env: Env, s: State, id: nat, replies: seq<Reply>)
    requires id in s.calls
    ensures var (sh, c) := CallRun(env, s.sh, s.calls[id], replies);
      Run(env, s, Steps(id, replies)) == State(sh, s.calls[id := c])
  {
    if replies == [] {
      assert s.calls[id := s.calls[id]] == s.calls;
    } else {
      var front, r := replies[..|replies| - 1], replies[|replies| - 1];
      CallRunIsRun(env, s, id, front);
      assert Steps(id, replies) == Steps(id, front) + [Step(id, r)];
      RunAppend(env, s, Steps(id, front), [Step(id, r)]);
      var t := Run(env, s, Steps(id, front));
      assert Run(env, t, [Step(id, r)]) == Next(env, t, Step(id, r)) by { assert [Step(id, r)][1..] == []; }
    }
  }

  // ----- The assumption: no holder that could still harm is overtaken

  /** The steps at which a holder may yet mint, or has minted and not marked it, or writes a submitted record. */
  predicate Guarding(step: HeldStep) {
    !(step.MarkingSettled? || step.PersistingSettled? || step.RereadingReplay? || step.Releasing?)
  }

  /** Core's check of the address lets the call through. */
  predicate OfAccount(env: Env, c: Call) {
    env.isAccount(c.request.params.address)
  }

  /** A holder that another holder of its hash could collide with. */
  predicate Exposed(env: Env, sh: Shared, c: Call) {
    c.pc.Holding? && Guarding(c.pc.step) && c.Hash() !in sh.core && OfAccount(env, c)
  }

  /** The lock of a hash is free or expired. */
  predicate LockOpen(sh: Shared, h: string) {
    Acquired(sh.locks, LockKey(h), SETTLE_LOCK_TTL_MS, sh.now).1.Some?
  }

  /** Call j is exposed and past its deadline, and call id is about to get the lock of its hash. */
  predicate Ousts(env: Env, s: State, id: nat, j: nat) {
    && id in s.calls && j in s.calls && s.calls[id].pc == Outside(Acquiring) && s.calls[id].Hash() == s.calls[j].Hash()
    && Exposed(env, s.sh, s.calls[j]) && s.calls[j].pc.lock.deadline <= s.sh.now
    && OfAccount(env, s.calls[id]) && LockOpen(s.sh, s.calls[id].Hash())
  }

  /** By this event a call of an account acquires the lock of an exposed holder past its deadline. */
  ghost predicate Overtakes(env: Env, s: State, e: Event) {
    e.Step? && e.reply.Ack? && exists j :: Ousts(env, s, e.id, j)
  }

  /** No event of the run does. */
  ghost predicate CalmRun(env: Env, s: State, es: seq<Event>)
    decreases |es|
  {
    es != [] ==> !Overtakes(env, s, es[0]) && CalmRun(env, Next(env, s, es[0]), es[1..])
  }

  // ----- Two conditions that are easier to check

  /** No holder outlives its lock. */
  predicate Timely(s: State) {
    forall i :: i in s.calls && s.calls[i].pc.Holding? ==> s.sh.now < s.calls[i].pc.lock.deadline
  }

  /** Every state of the run is timely. */
  ghost predicate TimelyRun(env: Env, s: State, es: seq<Event>)
    decreases |es|
  {
    Timely(s) && (es != [] ==> TimelyRun(env, Next(env, s, es[0]), es[1..]))
  }

  lemma {:induction false} TimelyIsCalm(env: Env, s: State, es: seq<Event>)
    requires TimelyRun(env, s, es)
    ensures CalmRun(env, s, es)
    decreases |es|
  {
    if es != [] { TimelyIsCalm(env, Next(env, s, es[0]), es[1..]); }
  }

  /** Calls never disappear, and keep their requests. */
  lemma CallsStay(env: Env, s: State, e: Event)
    ensures forall i :: i in s.calls ==>
      i in Next(env, s, e).calls && Next(env, s, e).calls[i].request == s.calls[i].request
  {
  }

  /** No two calls are for one hash. */
  predicate HashesDiffer(s: State) {
    forall i, j :: i in s.calls && j in s.calls && i != j ==> s.calls[i].Hash() != s.calls[j].Hash()
  }

  lemma {:induction false} RunKeepsCalls(env: Env, s: State, es: seq<Event>)
    ensures var t := Run(env, s, es);
      forall i :: i in s.calls ==> i in t.calls && t.calls[i].request == s.calls[i].request
    decreases |es|
  {
    if es != [] {
      CallsStay(env, s, es[0]);
      RunKeepsCalls(env, Next(env, s, es[0]), es[1..]);
    }
  }

  /** However long each takes, one call per hash is calm. */
  lemma {:induction false} LoneCallsAreCalm(env: Env, s: State, es: seq<Event>)
    requires HashesDiffer(Run(env, s, es))
    ensures CalmRun(env, s, es)
    decreases |es|
  {
    if es != [] {
      RunKeepsCalls(env, s, es);
      LoneCallsAreCalm(env, Next(env, s, es[0]), es[1..]);
    }
  }
}

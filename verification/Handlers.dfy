// handleSettle, receive and submitMint run one after the other on one server
// (apps/demo/server/handlers.ts, packages/core/src/receive.ts,
// packages/core/src/forwarder/index.ts), over a script of what the awaited calls bring.

module Handlers {
  import opened Wrappers
  import opened Text
  import opened CctpMessage
  import opened Intents
  import opened SettleRules
  import opened SettleProtocol
  import Locks

  /** What one awaited call brings. */
  datatype Outcome<T> = Resolved(value: T) | Rejected(thrown: Thrown)

  /** Sending the transaction: the network may take it and the call reject all the same. */
  datatype Send = Replied(status: string, hash: Option<string>) | SentUnheard(txHash: string, thrown: Thrown)
    | NotSent(thrown: Thrown)

  /** Building the transaction, the network's replies and the signer's, in submitMint's order. */
  datatype Transport = Transport(
    build: Outcome<()>, simulate: Outcome<()>, assemble: Outcome<()>, sign: Outcome<()>,
    send: Send, gets: nat -> Outcome<string>)

  /** A write to the durable store: it may land and the call reject all the same. */
  datatype Write = Stored | StoredUnacked | NotStored(thrown: Thrown)

  datatype Script = Script(
    bucket: Outcome<bool>, replay: Outcome<()>, intent: Outcome<Option<Intent>>, lock: Outcome<()>,
    issued: bool, ready: bool, sequence: Outcome<()>, core: Outcome<()>,
    poll: Outcome<(string, string)>, trustline: Outcome<()>, mint: Transport,
    persist: Write, reread: Outcome<()>)

  // ----- The confirm window

  predicate Decisive(o: Outcome<string>) {
    o.Resolved? && (o.value == "SUCCESS" || o.value == "FAILED")
  }

  /** Reply i is the first decisive one, it is inside the window, and it says `status`. */
  predicate FirstDecisive(gets: nat -> Outcome<string>, i: nat, status: string) {
    && i < CONFIRM_ATTEMPTS && Decisive(gets(i)) && gets(i).value == status
    && forall j: nat :: j < i ==> !Decisive(gets(j))
  }

  ghost predicate Decided(gets: nat -> Outcome<string>, status: string) {
    exists i: nat :: FirstDecisive(gets, i, status)
  }

  predicate Undecided(gets: nat -> Outcome<string>) {
    forall i: nat :: i < CONFIRM_ATTEMPTS ==> !Decisive(gets(i))
  }

  /** The three ways a window can go exclude each other, and one of them happens. */
  lemma WindowTrichotomy(gets: nat -> Outcome<string>)
    ensures Decided(gets, "SUCCESS") || Decided(gets, "FAILED") || Undecided(gets)
    ensures !(Decided(gets, "SUCCESS") && Decided(gets, "FAILED"))
    ensures Undecided(gets) ==> !Decided(gets, "SUCCESS") && !Decided(gets, "FAILED")
  {
    if !Undecided(gets) {
      var i: nat := 0;
      while !Decisive(gets(i))
        invariant i < CONFIRM_ATTEMPTS && forall j: nat :: j < i ==> !Decisive(gets(j))
        invariant exists k: nat :: i <= k < CONFIRM_ATTEMPTS && Decisive(gets(k))
        decreases CONFIRM_ATTEMPTS - i
      {
        i := i + 1;
      }
      assert FirstDecisive(gets, i, "SUCCESS") || FirstDecisive(gets, i, "FAILED");
    }
    if i: nat :| FirstDecisive(gets, i, "SUCCESS") {
      forall j: nat ensures !FirstDecisive(gets, j, "FAILED") {
      }
    }
  }

  /** Up to the signature; a simulation that throws is a failed mint whatever it throws. */
  function Prepared(t: Transport): Outcome<()> {
    if t.build.Rejected? then t.build
    else if t.simulate.Rejected? then Rejected(Sdk(MintFailedError))
    else t.assemble
  }

  /** The signed transaction is sent. */
  predicate Sends(t: Transport) {
    Prepared(t).Resolved? && t.sign.Resolved?
  }

  /** Everything before the polling goes well and the network takes the transaction. */
  predicate Broadcasts(t: Transport) {
    Sends(t) && t.send.Replied? && Accepted(t.send.status, t.send.hash)
  }

  /** The signed transaction is sent, and the network replies without taking it: another status, or no hash. */
  predicate TurnedDown(t: Transport) {
    && t.build.Resolved? && t.simulate.Resolved? && t.assemble.Resolved? && t.sign.Resolved? && t.send.Replied?
    && (t.send.status != "PENDING" || t.send.hash.None? || t.send.hash.value == "")
  }

  /** The network takes it under this hash. */
  predicate TakenAs(t: Transport, hash: string) {
    && t.build.Resolved? && t.simulate.Resolved? && t.assemble.Resolved? && t.sign.Resolved?
    && t.send == Replied("PENDING", Some(hash)) && hash != ""
  }

  /** The hash that the network gave the broadcast. */
  function SentHash(t: Transport): string
    requires Broadcasts(t)
  {
    t.send.hash.value
  }

  /** Why there is nothing to poll for. */
  function Unsent(t: Transport): ForeignFailure {
    if Prepared(t).Rejected? then Surface(Prepared(t).thrown)
    else if t.sign.Rejected? then Surface(t.sign.thrown)
    else if t.send.Replied? then MintFailedError
    else Surface(t.send.thrown)
  }

  /** What submitMint has to report after this many polls. */
  ghost predicate Reports(t: Transport, r: Result<string, Failure>, polls: nat) {
    if !Broadcasts(t) then polls == 0 && r == Err(Unsent(t))
    else
      && 0 < polls <= CONFIRM_ATTEMPTS && (forall j: nat :: j < polls - 1 ==> !Decisive(t.gets(j)))
      && (if Undecided(t.gets) then polls == CONFIRM_ATTEMPTS else Decisive(t.gets(polls - 1)))
      && r == if Undecided(t.gets) then Err(MintUnconfirmedError(SentHash(t)))
              else if t.gets(polls - 1).value == "SUCCESS" then Ok(SentHash(t))
              else Err(MintFailedError)
  }

  /**
   * submitMint returns the network hash if and only if the first decisive reply in the
   * window is SUCCESS, fails if and only if it is FAILED, and reports the broadcast hash
   * as unconfirmed if and only if there is none; without a broadcast it polls nothing. It
   * fails when the network turns the transaction down, and a hash that it returns or
   * reports is the one under which the network took it.
   */
  method SubmitMint(t: Transport) returns (r: Result<string, Failure>, polls: nat)
    ensures Broadcasts(t) ==>
      && (r == Ok(SentHash(t)) <==> Decided(t.gets, "SUCCESS"))
      && (r == Err(MintFailedError) <==> Decided(t.gets, "FAILED"))
      && (r == Err(MintUnconfirmedError(SentHash(t))) <==> Undecided(t.gets))
      && 0 < polls <= CONFIRM_ATTEMPTS && (forall j: nat :: j < polls - 1 ==> !Decisive(t.gets(j)))
      && (if Undecided(t.gets) then polls == CONFIRM_ATTEMPTS else Decisive(t.gets(polls - 1)))
    ensures !Broadcasts(t) ==> polls == 0 && r == Err(Unsent(t))
    ensures TurnedDown(t) ==> polls == 0 && r == Err(MintFailedError)
    ensures r.Ok? ==> TakenAs(t, r.value)
    ensures r.Err? && r.error.MintUnconfirmedError? ==> TakenAs(t, r.error.mintTxHash)
    ensures Reports(t, r, polls)
  {
    WindowTrichotomy(t.gets);
    polls := 0;
    if t.build.Rejected? {
      return Err(Surface(t.build.thrown)), 0;
    }
    if t.simulate.Rejected? {
      return Err(MintFailedError), 0;
    }
    if t.assemble.Rejected? {
      return Err(Surface(t.assemble.thrown)), 0;
    }
    if t.sign.Rejected? {
      return Err(Surface(t.sign.thrown)), 0;
    }
    if !t.send.Replied? {
      return Err(Surface(t.send.thrown)), 0;
    }
    if !Accepted(t.send.status, t.send.hash) {
      return Err(MintFailedError), 0;
    }
    var hash := t.send.hash.value;
    while polls < CONFIRM_ATTEMPTS
      invariant polls <= CONFIRM_ATTEMPTS && forall j: nat :: j < polls ==> !Decisive(t.gets(j))
    {
      var got := t.gets(polls);
      var status := if got.Resolved? then got.value else "NOT_FOUND";
      polls := polls + 1;
      if status == "SUCCESS" {
        assert FirstDecisive(t.gets, polls - 1, "SUCCESS");
        return Ok(hash), polls;
      }
      if status == "FAILED" {
        assert FirstDecisive(t.gets, polls - 1, "FAILED");
        return Err(MintFailedError), polls;
      }
    }
    return Err(MintUnconfirmedError(hash)), polls;
  }

  // ----- The script as replies of the step machine

  function Answered<T>(o: Outcome<T>): Reply {
    if o.Resolved? then Ack else Throws(o.thrown)
  }

  function WriteReply(w: Write): Reply {
    match w
    case Stored => Ack
    case StoredUnacked => Unacked
    case NotStored(t) => Throws(t)
  }

  function BucketReply(o: Outcome<bool>): Reply {
    match o
    case Resolved(b) => if b then Ack else Nack
    case Rejected(t) => Throws(t)
  }

  function IntentReply(o: Outcome<Option<Intent>>): Reply {
    match o
    case Resolved(i) => Found(i)
    case Rejected(t) => Throws(t)
  }

  function PollReply(o: Outcome<(string, string)>): Reply {
    match o
    case Resolved(m) => Attested(m.0, m.1)
    case Rejected(t) => Throws(t)
  }

  function SendReply(o: Send): Reply {
    match o
    case Replied(status, hash) => Submitted(status, hash)
    case SentUnheard(txHash, t) => Landed(txHash, t)
    case NotSent(t) => Throws(t)
  }

  function GetReply(o: Outcome<string>): Reply {
    match o
    case Resolved(status) => Tx(status)
    case Rejected(t) => Throws(t)
  }

  function GetReplies(gets: nat -> Outcome<string>, n: nat): seq<Reply> {
    seq(n, i requires 0 <= i < n => GetReply(gets(i)))
  }

  /** The replies of one submitMint that polled n times. */
  function MintScript(t: Transport, n: nat): seq<Reply> {
    if Prepared(t).Rejected? then [Answered(Prepared(t))]
    else if t.sign.Rejected? then [Answered(Prepared(t))] + [Answered(t.sign)]
    else [Answered(Prepared(t))] + [Answered(t.sign)] + [SendReply(t.send)] + GetReplies(t.gets, n)
  }

  lemma IndecisivePoll(env: Env, sh: Shared, c: Call, fee: nat, tx: string, n: nat, got: Outcome<string>)
    requires c.pc.Holding? && c.pc.step == Confirming(fee, tx, n) && n + 1 < CONFIRM_ATTEMPTS && !Decisive(got)
    ensures NextCall(env, sh, c, GetReply(got)) == (sh, At(c, Confirming(fee, tx, n + 1)))
  {
  }

  /** Indecisive replies move the machine's confirm loop one attempt at a time. */
  lemma {:induction false} IndecisivePolls(env: Env, sh: Shared, c: Call, fee: nat, tx: string,
    gets: nat -> Outcome<string>, n: nat)
    requires c.pc.Holding? && c.pc.step == Confirming(fee, tx, 0) && n < CONFIRM_ATTEMPTS
    requires forall j: nat :: j < n ==> !Decisive(gets(j))
    ensures CallRun(env, sh, c, GetReplies(gets, n)) == (sh, At(c, Confirming(fee, tx, n)))
  {
    if n > 0 {
      IndecisivePolls(env, sh, c, fee, tx, gets, n - 1);
      assert GetReplies(gets, n) == GetReplies(gets, n - 1) + [GetReply(gets(n - 1))];
      CallRunSnoc(env, sh, c, GetReplies(gets, n - 1), GetReply(gets(n - 1)));
      IndecisivePoll(env, sh, At(c, Confirming(fee, tx, n - 1)), fee, tx, n - 1, gets(n - 1));
    }
  }

  /** Where the call stands once the window is decided, or over. */
  function PollEnd(sh: Shared, c: Call, fee: nat, tx: string, last: Outcome<string>): (Shared, Call)
    requires c.pc.Holding?
  {
    if !Decisive(last) then (sh, At(c, AfterFailure(MintUnconfirmedError(tx))))
    else if last.value == "SUCCESS" then (Confirmed(sh, c.request, fee, tx), At(c, MarkingSubmitted(fee, tx)))
    else (sh, At(c, AfterFailure(MintFailedError)))
  }

  lemma FinalPoll(env: Env, sh: Shared, c: Call, fee: nat, tx: string, n: nat, last: Outcome<string>)
    requires c.pc.Holding? && c.pc.step == Confirming(fee, tx, n)
    requires Decisive(last) || n + 1 == CONFIRM_ATTEMPTS
    ensures NextCall(env, sh, c, GetReply(last)) == PollEnd(sh, c, fee, tx, last)
  {
  }

  /** Where a call ends does not depend on where in the lock it stands. */
  lemma PollEndAt(sh: Shared, c: Call, step: HeldStep, fee: nat, tx: string, last: Outcome<string>)
    requires c.pc.Holding?
    ensures PollEnd(sh, At(c, step), fee, tx, last) == PollEnd(sh, c, fee, tx, last)
  {
  }

  lemma LastPoll(env: Env, sh: Shared, c: Call, fee: nat, tx: string, gets: nat -> Outcome<string>, n: nat)
    requires c.pc.Holding? && c.pc.step == Confirming(fee, tx, 0) && 0 < n <= CONFIRM_ATTEMPTS
    requires forall j: nat :: j < n - 1 ==> !Decisive(gets(j))
    requires Decisive(gets(n - 1)) || n == CONFIRM_ATTEMPTS
    ensures CallRun(env, sh, c, GetReplies(gets, n)) == PollEnd(sh, c, fee, tx, gets(n - 1))
  {
    var last, c' := gets(n - 1), At(c, Confirming(fee, tx, n - 1));
    IndecisivePolls(env, sh, c, fee, tx, gets, n - 1);
    FinalPoll(env, sh, c', fee, tx, n - 1, last);
    PollEndAt(sh, c, Confirming(fee, tx, n - 1), fee, tx, last);
    CallRunSnoc(env, sh, c, GetReplies(gets, n - 1), GetReply(last));
    assert GetReplies(gets, n) == GetReplies(gets, n - 1) + [GetReply(last)];
  }

  /** The broadcast of which submitMint hears nothing. */
  function AfterUnheard(sh: Shared, q: SettleRequest, t: Transport): Shared {
    if Sends(t) && t.send.SentUnheard? then Sent(sh, q, t.send.txHash) else sh
  }

  /** Up to the broadcast. */
  lemma UpToSend(env: Env, sh: Shared, c: Call, fee: nat, t: Transport)
    requires c.pc.Holding? && c.pc.step == Simulating(fee)
    ensures !Broadcasts(t) ==>
      CallRun(env, sh, c, MintScript(t, 0)) == (AfterUnheard(sh, c.request, t), At(c, AfterFailure(Unsent(t))))
    ensures Broadcasts(t) ==>
      CallRun(env, sh, c, [Answered(Prepared(t))] + [Answered(t.sign)] + [SendReply(t.send)])
        == (Sent(sh, c.request, SentHash(t)), At(c, Confirming(fee, SentHash(t), 0)))
  {
    var r0, r1, r2 := Answered(Prepared(t)), Answered(t.sign), SendReply(t.send);
    CallRunSnoc(env, sh, c, [], r0);
    assert [] + [r0] == [r0];
    if Prepared(t).Resolved? {
      assert CallRun(env, sh, c, [r0]) == (sh, At(c, Signing(fee)));
      CallRunSnoc(env, sh, c, [r0], r1);
      if t.sign.Resolved? {
        assert CallRun(env, sh, c, [r0] + [r1]) == (sh, At(c, Sending(fee)));
        CallRunSnoc(env, sh, c, [r0] + [r1], r2);
        assert [r0] + [r1] + [r2] + GetReplies(t.gets, 0) == [r0] + [r1] + [r2];
      }
    }
  }

  /** submitMint is the machine's stretch from simulating to the end of its loop. */
  lemma SubmitMintIsStretch(env: Env, sh: Shared, c: Call, fee: nat, t: Transport, n: nat)
    requires c.pc.Holding? && c.pc.step == Simulating(fee) && Broadcasts(t)
    requires 0 < n <= CONFIRM_ATTEMPTS && (forall j: nat :: j < n - 1 ==> !Decisive(t.gets(j)))
    requires Decisive(t.gets(n - 1)) || n == CONFIRM_ATTEMPTS
    ensures CallRun(env, sh, c, MintScript(t, n))
         == PollEnd(Sent(sh, c.request, SentHash(t)), c, fee, SentHash(t), t.gets(n - 1))
  {
    var tx := SentHash(t);
    UpToSend(env, sh, c, fee, t);
    CallRunAppend(env, sh, c, [Answered(Prepared(t))] + [Answered(t.sign)] + [SendReply(t.send)],
      GetReplies(t.gets, n));
    LastPoll(env, Sent(sh, c.request, tx), At(c, Confirming(fee, tx, 0)), fee, tx, t.gets, n);
  }

  /** The shared state after a submitMint: the broadcast and the confirmed mint are in the ledgers. */
  function MintEnd(sh: Shared, q: SettleRequest, fee: nat, t: Transport, r: Result<string, Failure>): Shared {
    var sent := if Broadcasts(t) then Sent(sh, q, SentHash(t)) else AfterUnheard(sh, q, t);
    if r.Ok? then Confirmed(sent, q, fee, r.value) else sent
  }

  /** Whatever submitMint reports is where the machine stands. */
  lemma MintStretch(env: Env, sh: Shared, c: Call, fee: nat, t: Transport, r: Result<string, Failure>, polls: nat)
    requires c.pc.Holding? && c.pc.step == Simulating(fee) && Reports(t, r, polls)
    ensures CallRun(env, sh, c, MintScript(t, polls)) == (MintEnd(sh, c.request, fee, t, r),
      At(c, match r case Ok(tx) => MarkingSubmitted(fee, tx) case Err(f) => AfterFailure(f)))
  {
    if Broadcasts(t) {
      SubmitMintIsStretch(env, sh, c, fee, t, polls);
    } else {
      UpToSend(env, sh, c, fee, t);
    }
  }

  /** The finally block: the last step of a call that holds the lock. */
  lemma ReleaseStep(
    env: Env, sh: Shared, c: Call, replies: seq<Reply>, q: SettleRequest, held: Lock, end: Shared, answer: Answer)
    requires CallRun(env, sh, c, replies) == (end, Call(q, Holding(held, Releasing(answer))))
    ensures CallRun(env, sh, c, replies + [Ack])
         == (end.(locks := Locks.Released(end.locks, LockKey(q.params.hash), Locks.Token(held.n))),
           Call(q, Done(answer)))
  {
    CallRunSnoc(env, sh, c, replies, Ack);
  }

  lemma StatusBucketStep(env: Env, sh: Shared, q: SettleRequest, bucket: Outcome<bool>)
    ensures CallRun(env, sh, Call(q, Outside(StatusBucket)), [BucketReply(bucket)])
         == (sh, Call(q,
           if bucket.Rejected? then Done(Crashed)
           else if bucket.value then Outside(StatusReplay) else Done(RATE_LIMITED)))
  {
    CallRunSnoc(env, sh, Call(q, Outside(StatusBucket)), [], BucketReply(bucket));
    assert [] + [BucketReply(bucket)] == [BucketReply(bucket)];
  }

  // ----- The server

  /** receive() gets as far as the mint: the burn is new to core, attested and well-formed, the trustline is there. */
  predicate Attestable(env: Env, core: map<string, Record>, q: SettleRequest, s: Script) {
    && q.params.hash !in core && env.isAccount(q.params.address) && s.core.Resolved? && s.poll.Resolved?
    && AttestedAmounts(q.params.amount, s.poll.value.0, s.poll.value.1).Ok? && s.trustline.Resolved?
  }

  function AttestedFee(q: SettleRequest, s: Script): nat
    requires s.poll.Resolved? && AttestedAmounts(q.params.amount, s.poll.value.0, s.poll.value.1).Ok?
  {
    AttestedAmounts(q.params.amount, s.poll.value.0, s.poll.value.1).value.feeExecuted
  }

  /** receive() broadcasts a mint. */
  predicate Launched(env: Env, core: map<string, Record>, q: SettleRequest, s: Script) {
    Attestable(env, core, q, s) && Broadcasts(s.mint)
  }

  /** The network says FAILED before it says SUCCESS. */
  ghost predicate NetworkFailed(env: Env, core: map<string, Record>, q: SettleRequest, s: Script) {
    Launched(env, core, q, s) && Decided(s.mint.gets, "FAILED")
  }

  /** receive() comes to the mint, and the network turns it down. */
  predicate MintTurnedDown(env: Env, core: map<string, Record>, q: SettleRequest, s: Script) {
    Attestable(env, core, q, s) && TurnedDown(s.mint)
  }

  /** What the credit comes to once the mint is confirmed. */
  function Credited(env: Env, q: SettleRequest, s: Script): Result<int, Failure>
    requires s.poll.Resolved? && AttestedAmounts(q.params.amount, s.poll.value.0, s.poll.value.1).Ok?
  {
    PostMint(env, q.params.address, q.params.amount, AttestedFee(q, s))
  }

  /** The request passes every check of handleSettle and gets the lock. */
  predicate Admitted(env: Env, q: SettleRequest, s: Script, now: int, durable: map<string, Record>,
    locks: Locks.Table) {
    && s.bucket == Resolved(true) && s.replay.Resolved? && q.params.hash !in durable
    && s.intent.Resolved? && s.intent.value.Some? && IntentRefusal(env, s.intent.value.value, q).None?
    && s.lock.Resolved? && Locks.Acquired(locks, LockKey(q.params.hash), Locks.SETTLE_LOCK_TTL_MS, now).1.Some?
  }

  predicate HeldWith(locks: Locks.Table, key: string, n: nat) {
    key in locks.held && locks.held[key].token == Locks.Token(n)
  }

  /** The attestation is ready, or not asked about, and the sequence could be read. */
  predicate Clear(env: Env, s: Script) {
    !(env.probesIris && s.issued && !s.ready) && s.sequence.Resolved?
  }

  /** The request gets the lock and finds nothing that keeps it from receive(). */
  predicate Enters(env: Env, q: SettleRequest, s: Script, now: int, durable: map<string, Record>, locks: Locks.Table) {
    Admitted(env, q, s, now, durable, locks) && Clear(env, s)
  }

  /** The record that the handler persists for what receive() brought. */
  function RecordOf(q: SettleRequest, r: Result<(int, string), Failure>): Option<Record> {
    match r
    case Ok((stroops, tx)) => Some(SettledRecord(q, tx, stroops))
    case Err(MintUnconfirmedError(tx)) => Some(UnconfirmedRecord(q, tx))
    case Err(_) => None
  }

  /** The record that a submitMint with these replies earns. */
  ghost function MintVerdict(env: Env, q: SettleRequest, t: Transport, fee: nat): Option<Record> {
    var net := PostMint(env, q.params.address, q.params.amount, fee);
    if !Broadcasts(t) then None
    else if Decided(t.gets, "SUCCESS") && net.Ok? then Some(SettledRecord(q, SentHash(t), net.value))
    else if Undecided(t.gets) then Some(UnconfirmedRecord(q, SentHash(t)))
    else None
  }

  /** The record that this script earns, read off the replies alone. */
  ghost function Verdict(env: Env, core: map<string, Record>, q: SettleRequest, s: Script): Option<Record> {
    if Attestable(env, core, q, s) then MintVerdict(env, q, s.mint, AttestedFee(q, s)) else None
  }

  /**
   * After a broadcast that can be credited: settled if and only if SUCCESS is the first
   * decisive reply of the window, submitted under the broadcast hash if and only if
   * there is none, no record if and only if FAILED comes first.
   */
  lemma VerdictTrichotomy(env: Env, core: map<string, Record>, q: SettleRequest, s: Script)
    requires Launched(env, core, q, s) && Credited(env, q, s).Ok?
    ensures var v := Verdict(env, core, q, s);
      && (v == Some(SettledRecord(q, SentHash(s.mint), Credited(env, q, s).value)) <==> Decided(s.mint.gets, "SUCCESS"))
      && (v == Some(UnconfirmedRecord(q, SentHash(s.mint))) <==> Undecided(s.mint.gets))
      && (v == None <==> Decided(s.mint.gets, "FAILED"))
  {
    WindowTrichotomy(s.mint.gets);
  }

  predicate Lands(w: Write) {
    !w.NotStored?
  }

  function Recorded(durable: map<string, Record>, hash: string, r: Option<Record>): map<string, Record> {
    if r.Some? then durable[hash := r.value] else durable
  }

  /** What an answer says about the durable record, and the record about the answer. */
  predicate Tells(durable: map<string, Record>, hash: string, a: Answer) {
    && (a.Receipt? ==> IsSettled(durable, hash) && a == ReceiptOf(durable[hash]))
    && (a == UNCONFIRMED ==> hash in durable && !IsSettled(durable, hash))
    && (hash in durable ==>
          || a == RATE_LIMITED || a == Crashed
          || a == (if IsSettled(durable, hash) then ReceiptOf(durable[hash]) else UNCONFIRMED))
  }

  /** What a status call answers, reply by reply: the receipt, the frame, or why there is neither. */
  predicate StatusTells(durable: map<string, Record>, hash: string, bucket: Outcome<bool>, replay: Outcome<()>,
    intent: Outcome<Option<Intent>>, ready: bool, answer: Answer)
  {
    var asked := bucket == Resolved(true) && replay.Resolved?;
    var settled := IsSettled(durable, hash);
    && (answer.Receipt? <==> asked && settled)
    && (answer.Receipt? ==> answer == ReceiptOf(durable[hash]))
    && (answer == Frame(ready) <==> asked && !settled && intent.Resolved? && intent.value.Some?)
    && (answer == Refused(403, NoIntent) <==> asked && !settled && intent == Resolved(None))
    && (answer == Refused(429, RateLimited) <==> bucket == Resolved(false))
  }

  /** One process: the client's own replay store, the durable store and the lock table. */
  class SettleServer {
    var core: map<string, Record>
    var durable: map<string, Record>
    var locks: Locks.Table
    ghost var recorded: set<Intent>
    ghost var mints: map<string, seq<Mint>>
    ghost var broadcasts: map<string, seq<string>>

    ghost function Sh(now: int): Shared
      reads this
    {
      Shared(now, core, durable, locks, recorded, mints, broadcasts)
    }

    constructor ()
      ensures Sh(0) == Start(0).sh
    {
      core, durable, locks := map[], map[], Locks.EMPTY_TABLE;
      recorded, mints, broadcasts := {}, map[], map[];
    }

    /** receive() up to the mint: the executed fee, once the transfer is attested and can be minted. */
    method Attest(env: Env, q: SettleRequest, s: Script, now: int, ghost c: Call)
      returns (r: Result<nat, Failure>, ghost replies: seq<Reply>)
      requires c.request == q && c.pc.Holding? && c.pc.step == CheckingCore
      ensures CallRun(env, Sh(now), c, replies)
           == (Sh(now), At(c, match r case Ok(fee) => Simulating(fee) case Err(f) => AfterFailure(f)))
      ensures if Attestable(env, core, q, s) then r == Ok(AttestedFee(q, s))
        else r.Err? && !r.error.MintUnconfirmedError?
    {
      ghost var sh := Sh(now);
      CallRunSnoc(env, sh, c, [], Answered(s.core));
      replies := [] + [Answered(s.core)];
      if q.params.hash in core {
        return Err(ReplayTransfer), replies;
      }
      if !env.isAccount(q.params.address) {
        return Err(BadInput), replies;
      }
      if s.core.Rejected? {
        return Err(Passed(s.core.thrown)), replies;
      }
      assert CallRun(env, sh, c, replies) == (sh, At(c, Attesting));

      CallRunSnoc(env, sh, c, replies, PollReply(s.poll));
      replies := replies + [PollReply(s.poll)];
      if s.poll.Rejected? {
        return Err(Passed(s.poll.thrown)), replies;
      }
      var amounts := AttestedAmounts(q.params.amount, s.poll.value.0, s.poll.value.1);
      if amounts.Err? {
        return Err(amounts.error), replies;
      }
      var fee := amounts.value.feeExecuted;
      assert CallRun(env, sh, c, replies) == (sh, At(c, EnsuringTrustline(fee)));

      CallRunSnoc(env, sh, c, replies, Answered(s.trustline));
      replies := replies + [Answered(s.trustline)];
      if s.trustline.Rejected? {
        return Err(Passed(s.trustline.thrown)), replies;
      }
      return Ok(fee), replies;
    }

    /** receive()'s call of submitMint; a confirmed mint is what the network did, so it goes into the ghost ledger. */
    method MintOnce(env: Env, q: SettleRequest, t: Transport, fee: nat, now: int, ghost c: Call)
      returns (r: Result<string, Failure>, ghost replies: seq<Reply>)
      requires c.request == q && c.pc.Holding? && c.pc.step == Simulating(fee)
      modifies this`mints, this`broadcasts
      ensures CallRun(env, old(Sh(now)), c, replies)
           == (Sh(now), At(c, match r case Ok(tx) => MarkingSubmitted(fee, tx) case Err(f) => AfterFailure(f)))
      ensures Broadcasts(t) ==>
        && (r == Ok(SentHash(t)) <==> Decided(t.gets, "SUCCESS"))
        && (r == Err(MintFailedError) <==> Decided(t.gets, "FAILED"))
        && (r == Err(MintUnconfirmedError(SentHash(t))) <==> Undecided(t.gets))
      ensures !Broadcasts(t) ==> r == Err(Unsent(t))
      ensures TurnedDown(t) ==> r == Err(MintFailedError) && broadcasts == old(broadcasts)
    {
      WindowTrichotomy(t.gets);
      ghost var sh := Sh(now);
      var polls;
      r, polls := SubmitMint(t);
      replies := MintScript(t, polls);
      MintStretch(env, sh, c, fee, t, r, polls);
      ghost var end := MintEnd(sh, q, fee, t, r);
      mints, broadcasts := end.mints, end.broadcasts;
    }

    /** The rest of receive(): the submitted mark, the synchronous checks, the settled mark. */
    method MarkMinted(env: Env, q: SettleRequest, fee: nat, tx: string, now: int, ghost c: Call)
      returns (r: Result<int, Failure>, ghost replies: seq<Reply>)
      requires c.request == q && c.pc.Holding? && c.pc.step == MarkingSubmitted(fee, tx)
      modifies this`core
      ensures r == PostMint(env, q.params.address, q.params.amount, fee)
      ensures core == old(core)[q.params.hash := if r.Ok? then SettledRecord(q, tx, r.value) else CoreSubmitted(q, tx)]
      ensures CallRun(env, old(Sh(now)), c, replies)
           == (Sh(now), At(c,
             match r case Ok(stroops) => PersistingSettled(tx, stroops) case Err(f) => AfterFailure(f)))
    {
      ghost var sh := Sh(now);
      CallRunSnoc(env, sh, c, [], Ack);
      replies := [] + [Ack];
      core := core[q.params.hash := CoreSubmitted(q, tx)];
      r := PostMint(env, q.params.address, q.params.amount, fee);
      if r.Err? {
        return r, replies;
      }
      assert CallRun(env, sh, c, replies) == (Sh(now), At(c, MarkingSettled(tx, r.value)));
      CallRunSnoc(env, sh, c, replies, Ack);
      replies := replies + [Ack];
      core := core[q.params.hash := SettledRecord(q, tx, r.value)];
    }

    /** receive() from the mint to its settled mark. */
    method MintAndMark(env: Env, q: SettleRequest, t: Transport, fee: nat, now: int, ghost c: Call)
      returns (r: Result<(int, string), Failure>, ghost replies: seq<Reply>)
      requires c.request == q && c.pc.Holding? && c.pc.step == Simulating(fee)
      modifies this`core, this`mints, this`broadcasts
      ensures CallRun(env, old(Sh(now)), c, replies)
           == (Sh(now), At(c, match r case Ok(v) => PersistingSettled(v.1, v.0) case Err(f) => AfterFailure(f)))
      ensures RecordOf(q, r) == MintVerdict(env, q, t, fee)
      ensures Broadcasts(t) && Decided(t.gets, "FAILED") ==> r == Err(MintFailedError)
      ensures TurnedDown(t) ==> r == Err(MintFailedError) && broadcasts == old(broadcasts)
    {
      WindowTrichotomy(t.gets);
      ghost var sh, more := Sh(now), [];
      var mint;
      mint, replies := MintOnce(env, q, t, fee, now, c);
      if mint.Err? {
        return Err(mint.error), replies;
      }
      var net;
      net, more := MarkMinted(env, q, fee, mint.value, now, At(c, MarkingSubmitted(fee, mint.value)));
      CallRunAppend(env, sh, c, replies, more);
      replies := replies + more;
      if net.Err? {
        return Err(net.error), replies;
      }
      return Ok((net.value, mint.value)), replies;
    }

    /**
     * receive(): the stretch of the machine from core's replay check to the settled
     * mark, or to the error that the handler then deals with.
     */
    method Receive(env: Env, q: SettleRequest, s: Script, now: int, ghost c: Call)
      returns (r: Result<(int, string), Failure>, ghost replies: seq<Reply>)
      requires c.request == q && c.pc.Holding? && c.pc.step == CheckingCore
      modifies this`core, this`mints, this`broadcasts
      ensures CallRun(env, old(Sh(now)), c, replies)
           == (Sh(now), At(c, match r case Ok(v) => PersistingSettled(v.1, v.0) case Err(f) => AfterFailure(f)))
      ensures RecordOf(q, r) == Verdict(env, old(core), q, s)
      ensures NetworkFailed(env, old(core), q, s) ==> r == Err(MintFailedError)
      ensures MintTurnedDown(env, old(core), q, s) ==> r == Err(MintFailedError) && broadcasts == old(broadcasts)
    {
      ghost var sh, more := Sh(now), [];
      var fee;
      fee, replies := Attest(env, q, s, now, c);
      if fee.Err? {
        return Err(fee.error), replies;
      }
      r, more := MintAndMark(env, q, s.mint, fee.value, now, At(c, Simulating(fee.value)));
      CallRunAppend(env, sh, c, replies, more);
      replies := replies + more;
    }

    /** handleSettle's bucket and durable replay check. */
    method CheckReplay(env: Env, q: SettleRequest, s: Script, now: int, ghost c: Call)
      returns (stop: Option<Answer>, ghost replies: seq<Reply>)
      requires c == Call(q, Outside(ConsumingBucket))
      ensures CallRun(env, Sh(now), c, replies)
           == (Sh(now), c.(pc := match stop case None => Outside(ReadingIntent) case Some(a) => Done(a)))
      ensures stop.None? <==> s.bucket == Resolved(true) && s.replay.Resolved? && q.params.hash !in durable
      ensures stop.Some? ==> Tells(durable, q.params.hash, stop.value)
    {
      ghost var sh := Sh(now);
      var h := q.params.hash;
      CallRunSnoc(env, sh, c, [], BucketReply(s.bucket));
      replies := [] + [BucketReply(s.bucket)];
      if s.bucket.Rejected? {
        return Some(Crashed), replies;
      }
      if !s.bucket.value {
        return Some(RATE_LIMITED), replies;
      }
      assert CallRun(env, sh, c, replies) == (sh, c.(pc := Outside(ReadingReplay)));

      CallRunSnoc(env, sh, c, replies, Answered(s.replay));
      replies := replies + [Answered(s.replay)];
      if s.replay.Rejected? {
        return Some(Crashed), replies;
      }
      if IsSettled(durable, h) {
        return Some(ReceiptOf(durable[h])), replies;
      }
      if h in durable {
        return Some(UNCONFIRMED), replies;
      }
      return None, replies;
    }

    /** handleSettle's intent checks and its lock. */
    method TakeLock(env: Env, q: SettleRequest, s: Script, now: int, ghost c: Call)
      returns (r: Result<nat, Answer>, ghost replies: seq<Reply>)
      requires c == Call(q, Outside(ReadingIntent))
      requires s.intent.Resolved? ==> Findable(Sh(now), q, s.intent.value)
      modifies this`locks
      ensures CallRun(env, old(Sh(now)), c, replies) == (Sh(now), c.(pc :=
        match r case Ok(n) => Holding(Lock(n, now + Locks.SETTLE_LOCK_TTL_MS), Probing) case Err(a) => Done(a)))
      ensures r.Ok? <==>
        && s.intent.Resolved? && s.intent.value.Some? && IntentRefusal(env, s.intent.value.value, q).None?
        && s.lock.Resolved? && Locks.Acquired(old(locks), LockKey(q.params.hash), Locks.SETTLE_LOCK_TTL_MS, now).1.Some?
      ensures r.Err? ==> !r.error.Receipt? && r.error != UNCONFIRMED && locks == old(locks)
      ensures r.Ok? ==> HeldWith(locks, LockKey(q.params.hash), r.value)
    {
      ghost var sh := Sh(now);
      CallRunSnoc(env, sh, c, [], IntentReply(s.intent));
      replies := [] + [IntentReply(s.intent)];
      if s.intent.Rejected? {
        return Err(Crashed), replies;
      }
      if s.intent.value.None? {
        return Err(Refused(403, NoIntent)), replies;
      }
      var refusal := IntentRefusal(env, s.intent.value.value, q);
      if refusal.Some? {
        return Err(refusal.value), replies;
      }
      assert CallRun(env, sh, c, replies) == (sh, c.(pc := Outside(Acquiring)));

      CallRunSnoc(env, sh, c, replies, Answered(s.lock));
      replies := replies + [Answered(s.lock)];
      if s.lock.Rejected? {
        return Err(Crashed), replies;
      }
      var (table, token) := Locks.Acquired(locks, LockKey(q.params.hash), Locks.SETTLE_LOCK_TTL_MS, now);
      if token.None? {
        return Err(RATE_LIMITED), replies;
      }
      locks := table;
      return Ok(table.counter), replies;
    }

    /** The head of handleSettle, from its bucket to the lock. */
    method Admit(env: Env, q: SettleRequest, s: Script, now: int, ghost c: Call)
      returns (r: Result<nat, Answer>, ghost replies: seq<Reply>)
      requires c == Call(q, Outside(ConsumingBucket))
      requires s.intent.Resolved? ==> Findable(Sh(now), q, s.intent.value)
      modifies this`locks
      ensures CallRun(env, old(Sh(now)), c, replies) == (Sh(now), c.(pc :=
        match r case Ok(n) => Holding(Lock(n, now + Locks.SETTLE_LOCK_TTL_MS), Probing) case Err(a) => Done(a)))
      ensures r.Ok? <==> Admitted(env, q, s, now, old(durable), old(locks))
      ensures r.Err? ==> Tells(durable, q.params.hash, r.error) && locks == old(locks)
      ensures r.Ok? ==> HeldWith(locks, LockKey(q.params.hash), r.value)
    {
      ghost var sh, more := Sh(now), [];
      var stop;
      stop, replies := CheckReplay(env, q, s, now, c);
      if stop.Some? {
        return Err(stop.value), replies;
      }
      r, more := TakeLock(env, q, s, now, c.(pc := Outside(ReadingIntent)));
      CallRunAppend(env, sh, c, replies, more);
      replies := replies + more;
    }

    /** Inside the lock, before receive(): one attestation read and the sponsor's sequence. */
    method Preflight(env: Env, s: Script, now: int, ghost c: Call)
      returns (stop: Option<Answer>, ghost replies: seq<Reply>)
      requires c.pc.Holding? && c.pc.step == Probing
      ensures CallRun(env, Sh(now), c, replies)
           == (Sh(now), At(c, match stop case None => CheckingCore case Some(a) => Releasing(a)))
      ensures stop.None? <==> Clear(env, s)
      ensures stop.Some? ==> stop.value == NOT_READY || stop.value == Crashed
    {
      ghost var sh := Sh(now);
      CallRunSnoc(env, sh, c, [], Probed(s.issued, s.ready));
      replies := [] + [Probed(s.issued, s.ready)];
      if env.probesIris && s.issued && !s.ready {
        return Some(NOT_READY), replies;
      }
      assert CallRun(env, sh, c, replies) == (sh, At(c, ReadingSequence));
      CallRunSnoc(env, sh, c, replies, Answered(s.sequence));
      replies := replies + [Answered(s.sequence)];
      return if s.sequence.Rejected? then Some(Crashed) else None, replies;
    }

    /** persistSettled and the receipt. */
    method PersistSettled(env: Env, q: SettleRequest, s: Script, stroops: int, tx: string, now: int, ghost c: Call)
      returns (answer: Answer, ghost replies: seq<Reply>)
      requires c.request == q && c.pc.Holding? && c.pc.step == PersistingSettled(tx, stroops)
      modifies this`durable
      ensures CallRun(env, old(Sh(now)), c, replies) == (Sh(now), At(c, Releasing(answer)))
      ensures durable == if Lands(s.persist) then old(durable)[q.params.hash := SettledRecord(q, tx, stroops)]
        else old(durable)
      ensures answer == if s.persist.Stored? then Receipt(stroops, tx) else Crashed
    {
      CallRunSnoc(env, Sh(now), c, [], WriteReply(s.persist));
      replies := [] + [WriteReply(s.persist)];
      if s.persist.NotStored? {
        return Crashed, replies;
      }
      durable := durable[q.params.hash := SettledRecord(q, tx, stroops)];
      return if s.persist.StoredUnacked? then Crashed else Receipt(stroops, tx), replies;
    }

    /** settleFailure on a replay error: only a settled record has a receipt to give. */
    method AnswerReplay(env: Env, q: SettleRequest, s: Script, now: int, ghost c: Call)
      returns (answer: Answer, ghost replies: seq<Reply>)
      requires c.request == q && c.pc.Holding? && c.pc.step == RereadingReplay
      ensures CallRun(env, Sh(now), c, replies) == (Sh(now), At(c, Releasing(answer)))
      ensures answer == if s.reread.Rejected? then Crashed
        else if IsSettled(durable, q.params.hash) then ReceiptOf(durable[q.params.hash]) else NOT_READY
    {
      CallRunSnoc(env, Sh(now), c, [], Answered(s.reread));
      replies := [] + [Answered(s.reread)];
      if s.reread.Rejected? {
        return Crashed, replies;
      }
      var h := q.params.hash;
      return if IsSettled(durable, h) then ReceiptOf(durable[h]) else NOT_READY, replies;
    }

    /** settleFailure on a broadcast that was never confirmed. */
    method PersistSubmitted(env: Env, q: SettleRequest, s: Script, tx: string, now: int, ghost c: Call)
      returns (answer: Answer, ghost replies: seq<Reply>)
      requires c.request == q && c.pc.Holding? && c.pc.step == PersistingSubmitted(tx)
      modifies this`durable
      ensures CallRun(env, old(Sh(now)), c, replies) == (Sh(now), At(c, Releasing(answer)))
      ensures durable == if Lands(s.persist) then old(durable)[q.params.hash := UnconfirmedRecord(q, tx)]
        else old(durable)
      ensures answer == if s.persist.Stored? then UNCONFIRMED else Crashed
    {
      CallRunSnoc(env, Sh(now), c, [], WriteReply(s.persist));
      replies := [] + [WriteReply(s.persist)];
      if s.persist.NotStored? {
        return Crashed, replies;
      }
      durable := durable[q.params.hash := UnconfirmedRecord(q, tx)];
      return if s.persist.StoredUnacked? then Crashed else UNCONFIRMED, replies;
    }

    /** settleFailure */
    method SettleFailure(env: Env, q: SettleRequest, s: Script, f: Failure, now: int, ghost c: Call)
      returns (answer: Answer, ghost replies: seq<Reply>)
      requires c.request == q && c.pc.Holding? && c.pc.step == AfterFailure(f)
      modifies this`durable
      ensures CallRun(env, old(Sh(now)), c, replies) == (Sh(now), At(c, Releasing(answer)))
      ensures durable == Recorded(old(durable), q.params.hash, if Lands(s.persist) then RecordOf(q, Err(f)) else None)
      ensures q.params.hash !in old(durable) ==> Tells(durable, q.params.hash, answer)
      ensures f.MintFailedError? ==> answer == Refused(502, MintFailed)
    {
      if f.ReplayTransfer? {
        answer, replies := AnswerReplay(env, q, s, now, c);
      } else if f.MintUnconfirmedError? {
        answer, replies := PersistSubmitted(env, q, s, f.mintTxHash, now, c);
      } else {
        answer, replies := FailureAnswer(f), [];
      }
    }

    /** What the handler makes of receive()'s outcome. */
    method Conclude(env: Env, q: SettleRequest, s: Script, r: Result<(int, string), Failure>, now: int, ghost c: Call)
      returns (answer: Answer, ghost replies: seq<Reply>)
      requires c.request == q && c.pc.Holding?
      requires c.pc.step == match r case Ok(v) => PersistingSettled(v.1, v.0) case Err(f) => AfterFailure(f)
      modifies this`durable
      ensures CallRun(env, old(Sh(now)), c, replies) == (Sh(now), At(c, Releasing(answer)))
      ensures durable == Recorded(old(durable), q.params.hash, if Lands(s.persist) then RecordOf(q, r) else None)
      ensures q.params.hash !in old(durable) ==> Tells(durable, q.params.hash, answer)
      ensures r == Err(MintFailedError) ==> answer == Refused(502, MintFailed)
    {
      match r
      case Ok((stroops, tx)) => answer, replies := PersistSettled(env, q, s, stroops, tx, now, c);
      case Err(f) => answer, replies := SettleFailure(env, q, s, f, now, c);
    }

    /** The try block of handleSettle. */
    method SettleLocked(env: Env, q: SettleRequest, s: Script, now: int, ghost c: Call)
      returns (answer: Answer, ghost replies: seq<Reply>)
      requires c.request == q && c.pc.Holding? && c.pc.step == Probing
      modifies this`core, this`durable, this`mints, this`broadcasts
      ensures CallRun(env, old(Sh(now)), c, replies) == (Sh(now), At(c, Releasing(answer)))
      ensures durable == Recorded(old(durable), q.params.hash,
        if Clear(env, s) && Lands(s.persist) then Verdict(env, old(core), q, s) else None)
      ensures q.params.hash !in old(durable) ==> Tells(durable, q.params.hash, answer)
      ensures Clear(env, s) && NetworkFailed(env, old(core), q, s) ==> answer == Refused(502, MintFailed)
      ensures Clear(env, s) && MintTurnedDown(env, old(core), q, s) ==>
        answer == Refused(502, MintFailed) && durable == old(durable) && broadcasts == old(broadcasts)
    {
      ghost var sh, more := Sh(now), [];
      var stop;
      stop, replies := Preflight(env, s, now, c);
      if stop.Some? {
        return stop.value, replies;
      }
      var r;
      r, more := Receive(env, q, s, now, At(c, CheckingCore));
      CallRunAppend(env, sh, c, replies, more);
      replies := replies + more;
      ghost var c1 := At(c, match r case Ok(v) => PersistingSettled(v.1, v.0) case Err(f) => AfterFailure(f));
      answer, more := Conclude(env, q, s, r, now, c1);
      CallRunAppend(env, sh, c, replies, more);
      replies := replies + more;
    }

    /** handleSettle behind its validation: admission, the locked part, the release. */
    method SettleRequested(env: Env, q: SettleRequest, s: Script, now: int)
      returns (answer: Answer, ghost replies: seq<Reply>)
      requires s.intent.Resolved? ==> Findable(Sh(now), q, s.intent.value)
      modifies this
      ensures CallRun(env, old(Sh(now)), Call(q, Outside(ConsumingBucket)), replies) == (Sh(now), Call(q, Done(answer)))
      ensures durable == Recorded(old(durable), q.params.hash,
        if Enters(env, q, s, now, old(durable), old(locks)) && Lands(s.persist) then Verdict(env, old(core), q, s)
          else None)
      ensures Tells(durable, q.params.hash, answer)
      ensures Enters(env, q, s, now, old(durable), old(locks)) && NetworkFailed(env, old(core), q, s) ==>
        answer == Refused(502, MintFailed)
      ensures Enters(env, q, s, now, old(durable), old(locks)) && MintTurnedDown(env, old(core), q, s) ==>
        answer == Refused(502, MintFailed) && durable == old(durable) && broadcasts == old(broadcasts)
      ensures if Admitted(env, q, s, now, old(durable), old(locks)) then LockKey(q.params.hash) !in locks.held
        else locks == old(locks)
    {
      ghost var sh, more := Sh(now), [];
      ghost var c := Call(q, Outside(ConsumingBucket));
      var admitted;
      admitted, replies := Admit(env, q, s, now, c);
      if admitted.Err? {
        return admitted.error, replies;
      }
      ghost var held := Lock(admitted.value, now + Locks.SETTLE_LOCK_TTL_MS);
      answer, more := SettleLocked(env, q, s, now, c.(pc := Holding(held, Probing)));
      CallRunAppend(env, sh, c, replies, more);
      replies := replies + more;
      ReleaseStep(env, sh, c, replies, q, held, Sh(now), answer);
      replies := replies + [Ack];
      locks := Locks.Released(locks, LockKey(q.params.hash), Locks.Token(admitted.value));
    }

    /**
     * handleSettle with nobody else moving: invalid input changes nothing, and any other
     * call is a run of the machine, from its first await to its answer. It leaves the
     * lock free whenever it took it, the durable record is exactly the verdict of the
     * script (settled, submitted or none), and the answer and that record say the same.
     */
    method HandleSettle(env: Env, input: SettleInput, s: Script, now: int)
      returns (answer: Answer, ghost replies: seq<Reply>)
      requires ValidateSettle(env, input).Some? && s.intent.Resolved? ==>
        Findable(Sh(now), ValidateSettle(env, input).value, s.intent.value)
      modifies this
      ensures ValidateSettle(env, input).None? ==> answer == INVALID && Sh(now) == old(Sh(now))
      ensures ValidateSettle(env, input).Some? ==>
        var q := ValidateSettle(env, input).value;
        var enters := Enters(env, q, s, now, old(durable), old(locks));
        && CallRun(env, old(Sh(now)), Call(q, Outside(ConsumingBucket)), replies) == (Sh(now), Call(q, Done(answer)))
        && durable == Recorded(old(durable), q.params.hash,
             if enters && Lands(s.persist) then Verdict(env, old(core), q, s) else None)
        && Tells(durable, q.params.hash, answer)
        && (enters && NetworkFailed(env, old(core), q, s) ==> answer == Refused(502, MintFailed))
        && (enters && MintTurnedDown(env, old(core), q, s) ==>
              answer == Refused(502, MintFailed) && durable == old(durable) && broadcasts == old(broadcasts))
        && (if Admitted(env, q, s, now, old(durable), old(locks)) then LockKey(q.params.hash) !in locks.held
          else locks == old(locks))
    {
      var request := ValidateSettle(env, input);
      if request.None? {
        return INVALID, [];
      }
      answer, replies := SettleRequested(env, request.value, s, now);
    }

    /** handleStatus behind its bucket and its validation. */
    method AnswerStatus(env: Env, q: SettleRequest, replay: Outcome<()>, intent: Outcome<Option<Intent>>,
        issued: bool, ready: bool, now: int)
      returns (answer: Answer, ghost replies: seq<Reply>)
      requires intent.Resolved? ==> StatusFindable(Sh(now), q, intent.value)
      ensures CallRun(env, Sh(now), Call(q, Outside(StatusReplay)), replies) == (Sh(now), Call(q, Done(answer)))
      ensures StatusTells(durable, q.params.hash, Resolved(true), replay, intent, ready, answer)
    {
      ghost var sh, c := Sh(now), Call(q, Outside(StatusReplay));
      CallRunSnoc(env, sh, c, [], Answered(replay));
      replies := [] + [Answered(replay)];
      if replay.Rejected? {
        return Crashed, replies;
      }
      if IsSettled(durable, q.params.hash) {
        return ReceiptOf(durable[q.params.hash]), replies;
      }
      assert CallRun(env, sh, c, replies) == (sh, Call(q, Outside(StatusIntent)));

      CallRunSnoc(env, sh, c, replies, IntentReply(intent));
      replies := replies + [IntentReply(intent)];
      if intent.Rejected? {
        return Crashed, replies;
      }
      if intent.value.None? {
        return Refused(403, NoIntent), replies;
      }
      assert CallRun(env, sh, c, replies) == (sh, Call(q, Outside(StatusProbe)));
      CallRunSnoc(env, sh, c, replies, Probed(issued, ready));
      replies := replies + [Probed(issued, ready)];
      return Frame(ready), replies;
    }

    /**
     * handleStatus: it writes nothing, gives a receipt if and only if the durable record
     * is settled, and is a run of the machine like every other call.
     */
    method HandleStatus(env: Env, query: StatusInput, bucket: Outcome<bool>, replay: Outcome<()>,
        intent: Outcome<Option<Intent>>, issued: bool, ready: bool, now: int)
      returns (answer: Answer, ghost replies: seq<Reply>)
      requires ValidateStatus(env, query).Some? && intent.Resolved? ==>
        StatusFindable(Sh(now), ValidateStatus(env, query).value, intent.value)
      ensures bucket == Resolved(true) && ValidateStatus(env, query).None? ==> answer == INVALID
      ensures ValidateStatus(env, query).Some? ==>
        var q := ValidateStatus(env, query).value;
        && CallRun(env, Sh(now), Call(q, Outside(StatusBucket)), replies) == (Sh(now), Call(q, Done(answer)))
        && StatusTells(durable, q.params.hash, bucket, replay, intent, ready, answer)
    {
      var request := ValidateStatus(env, query);
      replies := [BucketReply(bucket)];
      if request.Some? {
        StatusBucketStep(env, Sh(now), request.value, bucket);
      }
      if bucket.Rejected? {
        return Crashed, replies;
      }
      if !bucket.value {
        return RATE_LIMITED, replies;
      }
      if request.None? {
        return INVALID, replies;
      }
      ghost var more;
      answer, more := AnswerStatus(env, request.value, replay, intent, issued, ready, now);
      CallRunAppend(env, Sh(now), Call(request.value, Outside(StatusBucket)), replies, more);
      replies := replies + more;
    }
  }
}

// Safety of the settle protocol: an inductive invariant over every interleaving, and
// what it means for mints, records and receipts.

module SettleSafety {
  import opened Wrappers
  import opened Text
  import opened Transfers
  import opened CctpMessage
  import opened Intents
  import Locks
  import opened SettleRules
  import opened SettleProtocol

  // ----- The inductive invariant

  /** The one mint of this hash has this network hash, gross amount and fee. */
  predicate Minted(sh: Shared, h: string, tx: string, gross: nat, fee: nat) {
    |MintsOf(sh, h)| == 1 && MintsOf(sh, h)[0].txHash == tx && MintsOf(sh, h)[0].gross == gross
      && MintsOf(sh, h)[0].fee == fee
  }

  /** The one mint of this hash has this network hash, and the stroops conserve its amounts. */
  predicate Credited(sh: Shared, h: string, tx: string, stroops: int) {
    |MintsOf(sh, h)| == 1 && MintsOf(sh, h)[0].txHash == tx
    && stroops + 10 * MintsOf(sh, h)[0].fee == 10 * MintsOf(sh, h)[0].gross
  }

  predicate Unminted(sh: Shared, h: string) {
    h !in sh.core && MintsOf(sh, h) == []
  }

  predicate AnswerOk(sh: Shared, h: string, a: Answer) {
    a.Receipt? ==> IsSettled(sh.durable, h) && ReceiptOf(sh.durable[h]) == a
  }

  /** What the data must look like for a call at this step inside the lock. */
  ghost predicate StepOk(sh: Shared, c: Call, step: HeldStep) {
    var h := c.Hash();
    match step
    case Attesting => Unminted(sh, h)
    case EnsuringTrustline(_) => Unminted(sh, h)
    case Simulating(_) => Unminted(sh, h)
    case Signing(_) => Unminted(sh, h)
    case Sending(_) => Unminted(sh, h)
    case Confirming(_, _, _) => Unminted(sh, h)
    case PersistingSubmitted(_) => Unminted(sh, h)
    case RereadingReplay => h in sh.core
    case MarkingSubmitted(fee, tx) => h !in sh.core && Minted(sh, h, tx, c.Gross(), fee)
    case MarkingSettled(tx, stroops) =>
      h in sh.core && sh.core[h] == CoreSubmitted(c.request, tx) && Credited(sh, h, tx, stroops)
    case PersistingSettled(tx, stroops) =>
      h in sh.core && sh.core[h] == SettledRecord(c.request, tx, stroops) && Credited(sh, h, tx, stroops)
    case Releasing(a) => AnswerOk(sh, h, a)
    case _ => true
  }

  /** Inside the lock, before core's check. */
  predicate Unchecked(step: HeldStep) {
    step.Probing? || step.ReadingSequence? || step.CheckingCore?
  }

  /** Past core's check, and not past the first mark. */
  predicate Checked(step: HeldStep) {
    Guarding(step) && !Unchecked(step)
  }

  predicate HasLock(sh: Shared, c: Call, lock: Lock) {
    && LockKey(c.Hash()) in sh.locks.held
    && sh.locks.held[LockKey(c.Hash())] == Locks.Entry(Locks.Token(lock.n), lock.deadline)
  }

  /** An initiate recorded exactly what this request asks for. */
  ghost predicate Authorised(sh: Shared, h: string, address: string, mode: Mode, gross: nat) {
    exists i :: i in sh.recorded && i.burnTxHash == h && i.address == address && i.transferMode == mode
      && i.amount == Print(gross)
  }

  ghost predicate CallOk(env: Env, sh: Shared, c: Call) {
    match c.pc
    case Done(a) => AnswerOk(sh, c.Hash(), a)
    case Outside(o) => o.Acquiring? ==> Cleared(env, sh, c)
    case Holding(lock, step) =>
      && Cleared(env, sh, c) && lock.n <= sh.locks.counter
      && (Exposed(env, sh, c) && sh.now < lock.deadline ==> HasLock(sh, c, lock))
      && (Checked(step) ==> OfAccount(env, c)) && StepOk(sh, c, step)
  }

  /** The request passed the intent checks. */
  ghost predicate Cleared(env: Env, sh: Shared, c: Call) {
    && Authorised(sh, c.Hash(), c.request.params.address, c.request.mode, c.Gross())
    && WithinCap(env, c.Gross())
  }

  ghost predicate MintOk(env: Env, sh: Shared, h: string, m: Mint) {
    Authorised(sh, h, m.address, m.mode, m.gross) && WithinCap(env, m.gross)
  }

  /**
   * The data of one hash: at most one mint, and that one authorised; core knows a hash
   * only with its mint's network hash and, once settled, a conserved amount; a settled
   * durable record repeats core's.
   */
  ghost predicate HashOk(env: Env, sh: Shared, h: string) {
    && |MintsOf(sh, h)| <= 1
    && (MintsOf(sh, h) != [] ==> MintOk(env, sh, h, MintsOf(sh, h)[0]))
    && (h in sh.core ==> |MintsOf(sh, h)| == 1 && MintsOf(sh, h)[0].txHash == sh.core[h].txHash)
    && (IsSettled(sh.core, h) ==>
          sh.core[h].amount.Some? && Credited(sh, h, sh.core[h].txHash, sh.core[h].amount.value))
    && (IsSettled(sh.durable, h) ==> IsSettled(sh.core, h) && sh.durable[h] == sh.core[h])
  }

  ghost predicate DataOk(env: Env, sh: Shared) {
    forall h :: HashOk(env, sh, h)
  }

  predicate Pending(s: State, i: nat, h: string) {
    i in s.calls && s.calls[i].Hash() == h && s.calls[i].pc.Holding? && s.calls[i].pc.step.MarkingSubmitted?
  }

  ghost predicate CallsOk(env: Env, s: State) {
    forall i :: i in s.calls ==> CallOk(env, s.sh, s.calls[i])
  }

  /** No two holders have the same token. */
  predicate TokensDiffer(s: State) {
    forall i, j :: i in s.calls && j in s.calls && i != j && s.calls[i].pc.Holding? && s.calls[j].pc.Holding? ==>
      s.calls[i].pc.lock.n != s.calls[j].pc.lock.n
  }

  /** At most one call at a time is exposed on a hash. */
  predicate OneExposed(env: Env, s: State) {
    forall i, j :: i in s.calls && j in s.calls && i != j ==>
      Exposed(env, s.sh, s.calls[i]) && Exposed(env, s.sh, s.calls[j]) ==> s.calls[i].Hash() != s.calls[j].Hash()
  }

  /** The call has marked its mint in core and is not done with it. */
  predicate Finishing(c: Call) {
    c.pc.Holding? && (c.pc.step.MarkingSettled? || c.pc.step.PersistingSettled?)
  }

  /** A hash is finished by one call at a time. */
  predicate OneFinisher(s: State) {
    forall i, j :: i in s.calls && j in s.calls && i != j && Finishing(s.calls[i]) && Finishing(s.calls[j]) ==>
      s.calls[i].Hash() != s.calls[j].Hash()
  }

  /** A minted hash is marked in core, or its holder is about to mark it. */
  ghost predicate MintsAccounted(s: State) {
    forall h :: MintsOf(s.sh, h) != [] ==> h in s.sh.core || exists i :: Pending(s, i, h)
  }

  ghost predicate Inv(env: Env, s: State) {
    && CallsOk(env, s) && TokensDiffer(s) && OneExposed(env, s) && OneFinisher(s) && DataOk(env, s.sh)
    && MintsAccounted(s)
  }

  /** A step that a write at the holder's own hash by another call leaves in order. */
  predicate Bystander(env: Env, sh: Shared, c: Call) {
    c.pc.Holding? ==>
      || c.pc.step.Releasing?
      || (c.pc.step.RereadingReplay? && c.Hash() in sh.core)
      || (Unchecked(c.pc.step) && (c.Hash() in sh.core || !OfAccount(env, c)))
  }

  /** Beside an exposed or a finishing call of its hash, every other call only stands by. */
  lemma OthersStandBy(env: Env, s: State, id: nat, j: nat)
    requires Inv(env, s) && id in s.calls && j in s.calls && id != j && s.calls[id].Hash() == s.calls[j].Hash()
    requires Exposed(env, s.sh, s.calls[id]) || Finishing(s.calls[id])
    ensures Bystander(env, s.sh, s.calls[j])
  {
    assert CallOk(env, s.sh, s.calls[id]) && CallOk(env, s.sh, s.calls[j]);
    StandsByOrActive(env, s.sh, s.calls[id]);
    StandsByOrActive(env, s.sh, s.calls[j]);
  }

  /** A holder stands by, is exposed, or is finishing; and who is finishing has marked its mint. */
  lemma StandsByOrActive(env: Env, sh: Shared, c: Call)
    requires CallOk(env, sh, c)
    ensures Bystander(env, sh, c) || Exposed(env, sh, c) || Finishing(c)
    ensures Finishing(c) ==> c.Hash() in sh.core
  {
  }

  // ----- Steps that leave the shared state alone

  lemma OuterStepInv(env: Env, s: State, id: nat, r: Reply)
    requires Inv(env, s) && id in s.calls && s.calls[id].pc.Outside? && !s.calls[id].pc.outer.Acquiring?
    ensures Inv(env, Next(env, s, Step(id, r)))
  {
    var s' := Next(env, s, Step(id, r));
    var c, c' := s.calls[id], s'.calls[id];
    assert s'.sh == s.sh;
    assert CallOk(env, s.sh, c') by { OuterStepCall(env, s.sh, c, r); }
    Kept(env, s, s', id);
  }

  lemma OuterStepCall(env: Env, sh: Shared, c: Call, r: Reply)
    requires c.pc.Outside? && !c.pc.outer.Acquiring?
    ensures NextCall(env, sh, c, r).0 == sh && CallOk(env, sh, NextCall(env, sh, c, r).1)
    ensures !NextCall(env, sh, c, r).1.pc.Holding?
  {
    var (sh', pc) := NextOuter(env, sh, c.request, c.pc.outer, r);
    if c.pc.outer.ReadingIntent? && pc == Outside(Acquiring) {
      var i := r.intent.value;
      assert i in sh.recorded && IntentRefusal(env, i, c.request).None?;
    }
  }

  /** With the same shared state and one call changed that has no lock before or after, the rest stays. */
  lemma Kept(env: Env, s: State, s': State, id: nat)
    requires Inv(env, s) && id in s.calls && id in s'.calls && s'.sh == s.sh && s'.calls == s.calls[id := s'.calls[id]]
    requires CallOk(env, s.sh, s'.calls[id])
    requires s'.calls[id].Hash() == s.calls[id].Hash()
    requires !s.calls[id].pc.Holding? && !s'.calls[id].pc.Holding?
    ensures Inv(env, s')
  {
    OthersKept(env, s, s', id);
    PendingKept(s, s');
  }

  lemma OthersKept(env: Env, s: State, s': State, id: nat)
    requires TokensDiffer(s) && OneExposed(env, s) && OneFinisher(s)
    requires id in s.calls && id in s'.calls && s'.sh == s.sh && s'.calls == s.calls[id := s'.calls[id]]
    requires !s'.calls[id].pc.Holding?
    ensures TokensDiffer(s') && OneExposed(env, s') && OneFinisher(s')
  {
    forall i | i in s'.calls && s'.calls[i].pc.Holding? ensures i != id && s'.calls[i] == s.calls[i] {
    }
  }

  /** A holder of an account, neither about to mark nor done, knows: not in core means never minted. */
  lemma HolderKnows(env: Env, s: State, id: nat)
    requires Inv(env, s) && id in s.calls && s.calls[id].pc.Holding?
    requires !s.calls[id].pc.step.MarkingSubmitted? && !s.calls[id].pc.step.Releasing? && OfAccount(env, s.calls[id])
    ensures s.calls[id].Hash() !in s.sh.core ==> Unminted(s.sh, s.calls[id].Hash())
  {
    var h := s.calls[id].Hash();
    assert CallOk(env, s.sh, s.calls[id]);
    if h !in s.sh.core && MintsOf(s.sh, h) != [] {
      var i :| Pending(s, i, h);
      MarkerIsExposed(env, s, i);
    }
  }

  // ----- Steps inside the lock write only at the holder's hash

  /** The two states agree on everything about g. */
  predicate SameAt(sh: Shared, sh': Shared, g: string) {
    && MintsOf(sh', g) == MintsOf(sh, g)
    && (g in sh'.core <==> g in sh.core) && (g in sh.core ==> sh'.core[g] == sh.core[g])
    && (g in sh'.durable <==> g in sh.durable) && (g in sh.durable ==> sh'.durable[g] == sh.durable[g])
  }

  /** Only data at hash h differs, and a receipt already given for h stays true. */
  ghost predicate OnlyAt(sh: Shared, sh': Shared, h: string) {
    && sh'.locks == sh.locks && sh'.recorded == sh.recorded && sh'.now == sh.now
    && (forall g :: g != h ==> SameAt(sh, sh', g)) && (h in sh.core ==> h in sh'.core)
    && (IsSettled(sh.durable, h) ==> IsSettled(sh'.durable, h) && ReceiptOf(sh'.durable[h]) == ReceiptOf(sh.durable[h]))
  }

  /** What one step of a holder owes to the invariant, told without the other calls. */
  ghost predicate GoodWrite(env: Env, sh: Shared, c: Call, sh': Shared, step: HeldStep) {
    && OnlyAt(sh, sh', c.Hash())
    && StepOk(sh', c, step)
    && HashOk(env, sh', c.Hash())
    && (sh' == sh || Unminted(sh', c.Hash()) || c.Hash() in sh'.core || step.MarkingSubmitted?)
  }

  /** The step moves the call without touching anything shared. */
  predicate Quiet(step: HeldStep, r: Reply) {
    match step
    case Sending(_) => !r.Landed? && !(r.Submitted? && Accepted(r.status, r.hash))
    case Confirming(_, _, _) => !(r.Tx? && r.status == "SUCCESS")
    case MarkingSubmitted(_, _) => false
    case MarkingSettled(_, _) => false
    case PersistingSettled(_, _) => r.Throws?
    case PersistingSubmitted(_) => r.Throws?
    case Releasing(_) => false
    case _ => true
  }

  lemma QuietStays(env: Env, sh: Shared, c: Call, step: HeldStep, r: Reply)
    requires Quiet(step, r) && StepOk(sh, c, step)
    requires c.Hash() !in sh.core && OfAccount(env, c) ==> Unminted(sh, c.Hash())
    ensures NextHeld(env, sh, c.request, step, r).0 == sh
    ensures StepOk(sh, c, NextHeld(env, sh, c.request, step, r).1)
  {
  }

  lemma PostMintConserves(env: Env, destination: string, gross: nat, fee: nat)
    ensures match PostMint(env, destination, gross, fee)
      case Ok(stroops) => stroops + 10 * fee == 10 * gross
      case Err(f) => f == BadInput || f == OtherError
  {
  }

  lemma SentGood(env: Env, sh: Shared, c: Call, fee: nat, tx: string)
    requires Unminted(sh, c.Hash()) && HashOk(env, sh, c.Hash())
    ensures GoodWrite(env, sh, c, Sent(sh, c.request, tx), Confirming(fee, tx, 0))
  {
    assert forall g :: SameAt(sh, Sent(sh, c.request, tx), g);
  }

  lemma LandedGood(env: Env, sh: Shared, c: Call, tx: string, error: Thrown)
    requires Unminted(sh, c.Hash()) && HashOk(env, sh, c.Hash())
    ensures GoodWrite(env, sh, c, Sent(sh, c.request, tx), AfterFailure(Surface(error)))
  {
    assert forall g :: SameAt(sh, Sent(sh, c.request, tx), g);
  }

  lemma ConfirmedGood(env: Env, sh: Shared, c: Call, fee: nat, tx: string)
    requires Unminted(sh, c.Hash()) && HashOk(env, sh, c.Hash()) && Cleared(env, sh, c)
    ensures GoodWrite(env, sh, c, Confirmed(sh, c.request, fee, tx), MarkingSubmitted(fee, tx))
  {
    var sh' := Confirmed(sh, c.request, fee, tx);
    assert MintsOf(sh', c.Hash()) == [Mint(tx, c.request.params.address, c.request.mode, c.Gross(), fee)];
  }

  lemma MarkSubmittedGood(env: Env, sh: Shared, c: Call, fee: nat, tx: string)
    requires c.Hash() !in sh.core && Minted(sh, c.Hash(), tx, c.Gross(), fee) && HashOk(env, sh, c.Hash())
    ensures GoodWrite(env, sh, c, sh.(core := sh.core[c.Hash() := CoreSubmitted(c.request, tx)]),
      AfterMint(env, c.request, fee, tx))
  {
    PostMintConserves(env, c.request.params.address, c.Gross(), fee);
  }

  lemma MarkSettledGood(env: Env, sh: Shared, c: Call, tx: string, stroops: int)
    requires StepOk(sh, c, MarkingSettled(tx, stroops)) && HashOk(env, sh, c.Hash())
    ensures GoodWrite(env, sh, c,
      sh.(core := sh.core[c.Hash() := SettledRecord(c.request, tx, stroops)]), PersistingSettled(tx, stroops))
  {
  }

  lemma PersistSettledGood(env: Env, sh: Shared, c: Call, tx: string, stroops: int, a: Answer)
    requires StepOk(sh, c, PersistingSettled(tx, stroops)) && HashOk(env, sh, c.Hash())
    requires a == Receipt(stroops, tx) || a == Crashed
    ensures GoodWrite(env, sh, c,
      sh.(durable := sh.durable[c.Hash() := SettledRecord(c.request, tx, stroops)]), Releasing(a))
  {
  }

  lemma PersistSubmittedGood(env: Env, sh: Shared, c: Call, tx: string, a: Answer)
    requires Unminted(sh, c.Hash()) && HashOk(env, sh, c.Hash()) && !a.Receipt?
    ensures GoodWrite(env, sh, c, sh.(durable := sh.durable[c.Hash() := UnconfirmedRecord(c.request, tx)]),
      Releasing(a))
  {
  }

  /** The writing steps, one by one. */
  lemma WriteGood(env: Env, sh: Shared, c: Call, step: HeldStep, r: Reply)
    requires !step.Releasing? && !Quiet(step, r) && StepOk(sh, c, step) && HashOk(env, sh, c.Hash())
      && Cleared(env, sh, c)
    ensures GoodWrite(env, sh, c, NextHeld(env, sh, c.request, step, r).0, NextHeld(env, sh, c.request, step, r).1)
  {
    match step
    case Sending(fee) =>
      if r.Landed? { LandedGood(env, sh, c, r.txHash, r.error); } else { SentGood(env, sh, c, fee, r.hash.value); }
    case Confirming(fee, tx, _) => ConfirmedGood(env, sh, c, fee, tx);
    case MarkingSubmitted(fee, tx) => MarkSubmittedGood(env, sh, c, fee, tx);
    case MarkingSettled(tx, stroops) => MarkSettledGood(env, sh, c, tx, stroops);
    case PersistingSettled(tx, stroops) =>
      PersistSettledGood(env, sh, c, tx, stroops, if r.Unacked? then Crashed else Receipt(stroops, tx));
    case PersistingSubmitted(tx) => PersistSubmittedGood(env, sh, c, tx, if r.Unacked? then Crashed else UNCONFIRMED);
    case _ =>
  }

  /** Every step inside the lock but the release keeps its side of the bargain. */
  lemma HeldGood(env: Env, sh: Shared, c: Call, step: HeldStep, r: Reply)
    requires !step.Releasing? && StepOk(sh, c, step) && HashOk(env, sh, c.Hash()) && Cleared(env, sh, c)
    requires !step.MarkingSubmitted? && c.Hash() !in sh.core && OfAccount(env, c) ==> Unminted(sh, c.Hash())
    ensures GoodWrite(env, sh, c, NextHeld(env, sh, c.request, step, r).0, NextHeld(env, sh, c.request, step, r).1)
  {
    if Quiet(step, r) {
      QuietStays(env, sh, c, step, r);
    } else {
      WriteGood(env, sh, c, step, r);
    }
  }

  /**
   * Where a step may lead: no way back to an exposed step, past core's check only for an
   * account, and to a finishing step only from the first mark.
   */
  lemma StepGoesOn(env: Env, sh: Shared, q: SettleRequest, step: HeldStep, r: Reply)
    ensures var step' := NextHeld(env, sh, q, step, r).1;
      && (Guarding(step') ==> Guarding(step))
      && (Checked(step') ==> Checked(step) || env.isAccount(q.params.address))
      && (step'.MarkingSettled? || step'.PersistingSettled? ==>
            step.MarkingSettled? || step.PersistingSettled? || step.MarkingSubmitted?)
  {
  }

  // ----- From one call's step to the whole state

  /** A call of another hash is not touched, and one of this hash that stands by stays in order. */
  lemma OtherCallOk(env: Env, sh: Shared, sh': Shared, h: string, c: Call)
    requires CallOk(env, sh, c) && OnlyAt(sh, sh', h)
    requires c.Hash() == h ==> Bystander(env, sh, c)
    ensures CallOk(env, sh', c)
  {
    if c.Hash() != h { assert SameAt(sh, sh', c.Hash()); }
  }

  lemma DataAfterWrite(env: Env, sh: Shared, sh': Shared, h: string)
    requires DataOk(env, sh) && OnlyAt(sh, sh', h) && HashOk(env, sh', h)
    ensures DataOk(env, sh')
  {
    forall g ensures HashOk(env, sh', g) {
      assert HashOk(env, sh, g);
      if g != h { assert SameAt(sh, sh', g); }
    }
  }

  /** The state after the holder has written and moved to `step`. */
  function Wrote(s: State, id: nat, sh: Shared, step: HeldStep): State
    requires id in s.calls && s.calls[id].pc.Holding?
  {
    State(sh, s.calls[id := s.calls[id].(pc := Holding(s.calls[id].pc.lock, step))])
  }

  /** What StepGoesOn promises, or the shared state has not changed. */
  predicate GoesOn(env: Env, sh: Shared, c: Call, sh': Shared, step: HeldStep)
    requires c.pc.Holding?
  {
    && (Guarding(step) ==> Guarding(c.pc.step)) && (Checked(step) ==> OfAccount(env, c))
    && (c.pc.step.MarkingSubmitted? ==> c.Hash() in sh'.core)
    && (step.MarkingSettled? || step.PersistingSettled? ==> Finishing(c) || c.pc.step.MarkingSubmitted?)
    && (sh' == sh || Exposed(env, sh, c) || Finishing(c))
  }

  lemma CallsAfterWrite(env: Env, s: State, id: nat, sh: Shared, step: HeldStep)
    requires Inv(env, s) && id in s.calls && s.calls[id].pc.Holding?
    requires GoodWrite(env, s.sh, s.calls[id], sh, step) && GoesOn(env, s.sh, s.calls[id], sh, step)
    ensures CallsOk(env, Wrote(s, id, sh, step))
  {
    var s' := Wrote(s, id, sh, step);
    forall i | i in s'.calls ensures CallOk(env, sh, s'.calls[i]) {
      assert CallOk(env, s.sh, s.calls[i]);
      if i == id {
        StepOfRequest(sh, s.calls[id], s'.calls[id], step);
      } else if sh != s.sh {
        if s.calls[i].Hash() == s.calls[id].Hash() { OthersStandBy(env, s, id, i); }
        OtherCallOk(env, s.sh, sh, s.calls[id].Hash(), s.calls[i]);
      }
    }
  }

  lemma TokensAfterWrite(s: State, id: nat, sh: Shared, step: HeldStep)
    requires TokensDiffer(s) && id in s.calls && s.calls[id].pc.Holding?
    ensures TokensDiffer(Wrote(s, id, sh, step))
  {
  }

  /** A call that is exposed after a write was so before. */
  lemma ExposedBefore(env: Env, s: State, id: nat, sh: Shared, step: HeldStep, i: nat)
    requires id in s.calls && s.calls[id].pc.Holding? && i in s.calls
    requires OnlyAt(s.sh, sh, s.calls[id].Hash()) && (Guarding(step) ==> Guarding(s.calls[id].pc.step))
    requires Exposed(env, sh, Wrote(s, id, sh, step).calls[i])
    ensures Exposed(env, s.sh, s.calls[i])
  {
    if s.calls[i].Hash() != s.calls[id].Hash() { assert SameAt(s.sh, sh, s.calls[i].Hash()); }
  }

  lemma ExposedAfterWrite(env: Env, s: State, id: nat, sh: Shared, step: HeldStep)
    requires OneExposed(env, s) && id in s.calls && s.calls[id].pc.Holding?
    requires OnlyAt(s.sh, sh, s.calls[id].Hash()) && (Guarding(step) ==> Guarding(s.calls[id].pc.step))
    ensures OneExposed(env, Wrote(s, id, sh, step))
  {
    var s' := Wrote(s, id, sh, step);
    forall i | i in s.calls && Exposed(env, sh, s'.calls[i]) ensures Exposed(env, s.sh, s.calls[i]) {
      ExposedBefore(env, s, id, sh, step, i);
    }
  }

  lemma FinisherAfterWrite(env: Env, s: State, id: nat, sh: Shared, step: HeldStep)
    requires Inv(env, s) && id in s.calls && s.calls[id].pc.Holding? && GoesOn(env, s.sh, s.calls[id], sh, step)
    ensures OneFinisher(Wrote(s, id, sh, step))
  {
    var s' := Wrote(s, id, sh, step);
    if Finishing(s'.calls[id]) {
      forall i | i in s.calls && i != id && s.calls[i].Hash() == s.calls[id].Hash() ensures !Finishing(s.calls[i]) {
        if !Finishing(s.calls[id]) {
          MarkerIsExposed(env, s, id);
          OthersStandBy(env, s, id, i);
        }
      }
    }
  }

  lemma MarkerIsExposed(env: Env, s: State, id: nat)
    requires Inv(env, s) && id in s.calls && s.calls[id].pc.Holding? && s.calls[id].pc.step.MarkingSubmitted?
    ensures Exposed(env, s.sh, s.calls[id])
  {
    assert CallOk(env, s.sh, s.calls[id]);
  }

  /** A step's condition looks at the request of a call only. */
  lemma StepOfRequest(sh: Shared, c: Call, c': Call, step: HeldStep)
    requires c.request == c'.request && StepOk(sh, c, step)
    ensures StepOk(sh, c', step)
  {
  }

  /** A call that is about to mark a mint still is, unless it is the one that moved. */
  lemma PendingAfterWrite(env: Env, s: State, id: nat, sh: Shared, step: HeldStep, i: nat, g: string)
    requires id in s.calls && s.calls[id].pc.Holding? && GoesOn(env, s.sh, s.calls[id], sh, step)
    requires Pending(s, i, g) && g !in sh.core
    ensures Pending(Wrote(s, id, sh, step), i, g)
  {
  }

  /** A mint that was accounted for is so still. */
  lemma MintAfterWrite(env: Env, s: State, id: nat, sh: Shared, step: HeldStep, g: string)
    requires MintsAccounted(s) && id in s.calls && s.calls[id].pc.Holding?
    requires GoesOn(env, s.sh, s.calls[id], sh, step) && (sh == s.sh || SameAt(s.sh, sh, g))
    requires MintsOf(sh, g) != [] && g !in sh.core
    ensures exists i :: Pending(Wrote(s, id, sh, step), i, g)
  {
    var i :| Pending(s, i, g);
    PendingAfterWrite(env, s, id, sh, step, i, g);
  }

  lemma MintsAfterWrite(env: Env, s: State, id: nat, sh: Shared, step: HeldStep)
    requires Inv(env, s) && id in s.calls && s.calls[id].pc.Holding?
    requires GoodWrite(env, s.sh, s.calls[id], sh, step) && GoesOn(env, s.sh, s.calls[id], sh, step)
    ensures MintsAccounted(Wrote(s, id, sh, step))
  {
    var s', h := Wrote(s, id, sh, step), s.calls[id].Hash();
    forall g | MintsOf(sh, g) != [] && g !in sh.core ensures exists i :: Pending(s', i, g) {
      if g == h && sh != s.sh {
        assert Pending(s', id, h);
      } else {
        MintAfterWrite(env, s, id, sh, step, g);
      }
    }
  }

  lemma StepIsWrite(env: Env, s: State, id: nat, r: Reply)
    requires id in s.calls && s.calls[id].pc.Holding? && !s.calls[id].pc.step.Releasing?
    ensures var (sh, step) := NextHeld(env, s.sh, s.calls[id].request, s.calls[id].pc.step, r);
      Next(env, s, Step(id, r)) == Wrote(s, id, sh, step)
  {
  }

  /** Only an exposed or a finishing call writes. */
  lemma WritersAreExposed(env: Env, sh: Shared, c: Call, r: Reply)
    requires CallOk(env, sh, c) && c.pc.Holding? && !c.pc.step.Releasing?
    requires !c.pc.step.MarkingSubmitted? && c.Hash() !in sh.core && OfAccount(env, c) ==> Unminted(sh, c.Hash())
    ensures var (sh', step) := NextHeld(env, sh, c.request, c.pc.step, r); GoesOn(env, sh, c, sh', step)
  {
    StepGoesOn(env, sh, c.request, c.pc.step, r);
    if Quiet(c.pc.step, r) { QuietStays(env, sh, c, c.pc.step, r); }
  }

  lemma HeldInv(env: Env, s: State, id: nat, r: Reply)
    requires Inv(env, s) && id in s.calls && s.calls[id].pc.Holding? && !s.calls[id].pc.step.Releasing?
    ensures Inv(env, Next(env, s, Step(id, r)))
  {
    var c := s.calls[id];
    assert CallOk(env, s.sh, c) && HashOk(env, s.sh, c.Hash());
    if !c.pc.step.MarkingSubmitted? && OfAccount(env, c) { HolderKnows(env, s, id); }
    HeldGood(env, s.sh, c, c.pc.step, r);
    WritersAreExposed(env, s.sh, c, r);
    StepIsWrite(env, s, id, r);
    var (sh, step) := NextHeld(env, s.sh, c.request, c.pc.step, r);
    CallsAfterWrite(env, s, id, sh, step);
    ExposedAfterWrite(env, s, id, sh, step);
    FinisherAfterWrite(env, s, id, sh, step);
    TokensAfterWrite(s, id, sh, step);
    DataAfterWrite(env, s.sh, sh, c.Hash());
    MintsAfterWrite(env, s, id, sh, step);
  }

  // ----- Time, new intents, new calls, taking and releasing the lock

  /** The data is the same; intents may have been added, and locks may differ. */
  predicate SameData(sh: Shared, sh': Shared) {
    sh'.core == sh.core && sh'.durable == sh.durable && sh'.mints == sh.mints && sh.recorded <= sh'.recorded
  }

  lemma AuthorisedKept(sh: Shared, sh': Shared, h: string, address: string, mode: Mode, gross: nat)
    requires Authorised(sh, h, address, mode, gross) && sh.recorded <= sh'.recorded
    ensures Authorised(sh', h, address, mode, gross)
  {
  }

  lemma SameDataCall(env: Env, sh: Shared, sh': Shared, c: Call)
    requires CallOk(env, sh, c) && SameData(sh, sh') && sh.locks.counter <= sh'.locks.counter
    requires Exposed(env, sh, c) && sh'.now < c.pc.lock.deadline ==> HasLock(sh', c, c.pc.lock)
    ensures CallOk(env, sh', c)
  {
    if c.pc.Holding? || c.pc == Outside(Acquiring) {
      AuthorisedKept(sh, sh', c.Hash(), c.request.params.address, c.request.mode, c.Gross());
    }
  }

  lemma SameDataOk(env: Env, sh: Shared, sh': Shared)
    requires DataOk(env, sh) && SameData(sh, sh')
    ensures DataOk(env, sh')
  {
    forall h ensures HashOk(env, sh', h) {
      assert HashOk(env, sh, h);
      if MintsOf(sh, h) != [] {
        var m := MintsOf(sh, h)[0];
        AuthorisedKept(sh, sh', h, m.address, m.mode, m.gross);
      }
    }
  }

  lemma PendingKept(s: State, s': State)
    requires MintsAccounted(s) && s'.sh.mints == s.sh.mints && s'.sh.core == s.sh.core
    requires forall i, h :: Pending(s, i, h) ==> Pending(s', i, h)
    ensures MintsAccounted(s')
  {
    forall h | MintsOf(s.sh, h) != [] && h !in s.sh.core ensures exists i :: Pending(s', i, h) {
      var i :| Pending(s, i, h);
      assert Pending(s', i, h);
    }
  }

  /** A holder keeps its lock until its deadline, whatever key is asked for. */
  lemma AcquireKeepsLock(sh: Shared, table: Locks.Table, key: string, c: Call)
    requires c.pc.Holding? && HasLock(sh, c, c.pc.lock) && sh.now < c.pc.lock.deadline
    requires table == Locks.Acquired(sh.locks, key, Locks.SETTLE_LOCK_TTL_MS, sh.now).0
    ensures HasLock(sh.(locks := table), c, c.pc.lock)
  {
  }

  lemma NewHolderOk(env: Env, sh: Shared, c: Call, r: Reply)
    requires CallOk(env, sh, c) && c.pc == Outside(Acquiring)
    ensures var (sh', c') := NextCall(env, sh, c, r);
      && CallOk(env, sh', c')
      && sh' == sh.(locks := sh'.locks) && sh.locks.counter <= sh'.locks.counter
      && c'.request == c.request && (c'.pc.Holding? ==> c'.pc.step == Probing)
      && (c'.pc.Holding? ==>
            && r.Ack? && c'.pc.lock.n == sh.locks.counter + 1
            && sh'.locks == Locks.Acquired(sh.locks, LockKey(c.Hash()), Locks.SETTLE_LOCK_TTL_MS, sh.now).0)
      && (!c'.pc.Holding? ==> sh'.locks == sh.locks)
  {
  }

  lemma OthersAfterAcquire(env: Env, s: State, id: nat, r: Reply)
    requires CallsOk(env, s) && id in s.calls && s.calls[id].pc == Outside(Acquiring)
    ensures var (sh, c) := NextCall(env, s.sh, s.calls[id], r);
      forall i :: i in s.calls && i != id ==>
        CallOk(env, sh, s.calls[i]) && (s.calls[i].pc.Holding? ==> s.calls[i].pc.lock.n <= s.sh.locks.counter)
  {
    assert CallOk(env, s.sh, s.calls[id]);
    NewHolderOk(env, s.sh, s.calls[id], r);
    var (sh, c) := NextCall(env, s.sh, s.calls[id], r);
    forall i | i in s.calls && i != id
      ensures CallOk(env, sh, s.calls[i]) && (s.calls[i].pc.Holding? ==> s.calls[i].pc.lock.n <= s.sh.locks.counter)
    {
      assert CallOk(env, s.sh, s.calls[i]);
      if Exposed(env, s.sh, s.calls[i]) && s.sh.now < s.calls[i].pc.lock.deadline && c.pc.Holding? {
        AcquireKeepsLock(s.sh, sh.locks, LockKey(c.Hash()), s.calls[i]);
      }
      SameDataCall(env, s.sh, sh, s.calls[i]);
    }
  }

  /** A call that gets its lock without overtaking an exposed holder finds none. */
  lemma NobodyElseExposed(env: Env, s: State, id: nat, i: nat)
    requires CallsOk(env, s) && !Overtakes(env, s, Step(id, Ack)) && id in s.calls && i in s.calls && i != id
    requires s.calls[id].pc == Outside(Acquiring) && LockOpen(s.sh, s.calls[id].Hash()) && OfAccount(env, s.calls[id])
    requires s.calls[i].Hash() == s.calls[id].Hash()
    ensures !Exposed(env, s.sh, s.calls[i])
  {
    assert CallOk(env, s.sh, s.calls[i]);
    assert !Ousts(env, s, id, i);
  }

  /** One call changed, and nobody else of its hash is exposed if it is. */
  lemma ExposedWith(env: Env, s: State, id: nat, sh: Shared, c: Call)
    requires OneExposed(env, s) && id in s.calls && sh.core == s.sh.core
    requires forall i :: i in s.calls && i != id && s.calls[i].Hash() == c.Hash() && Exposed(env, sh, c) ==>
      !Exposed(env, s.sh, s.calls[i])
    ensures OneExposed(env, State(sh, s.calls[id := c]))
  {
    forall i | i in s.calls ensures Exposed(env, sh, s.calls[i]) <==> Exposed(env, s.sh, s.calls[i]) {
    }
  }

  lemma ExposedAfterAcquire(env: Env, s: State, id: nat, r: Reply)
    requires Inv(env, s) && !Overtakes(env, s, Step(id, r)) && id in s.calls && s.calls[id].pc == Outside(Acquiring)
    ensures var (sh, c) := NextCall(env, s.sh, s.calls[id], r); OneExposed(env, State(sh, s.calls[id := c]))
  {
    var (sh, c) := NextCall(env, s.sh, s.calls[id], r);
    assert CallOk(env, s.sh, s.calls[id]);
    NewHolderOk(env, s.sh, s.calls[id], r);
    forall i | i in s.calls && i != id && s.calls[i].Hash() == c.Hash() && Exposed(env, sh, c)
      ensures !Exposed(env, s.sh, s.calls[i])
    {
      NobodyElseExposed(env, s, id, i);
    }
    ExposedWith(env, s, id, sh, c);
  }

  /** One call moved, the others kept, and its lock, if it has one, is new or its own. */
  lemma Assembled(env: Env, s: State, id: nat, sh: Shared, c: Call)
    requires Inv(env, s) && id in s.calls && SameData(s.sh, sh) && CallOk(env, sh, c) && !Finishing(c)
    requires forall i :: i in s.calls && i != id ==> CallOk(env, sh, s.calls[i])
    requires forall i :: i in s.calls && i != id && s.calls[i].pc.Holding? && c.pc.Holding? ==>
      s.calls[i].pc.lock.n != c.pc.lock.n
    requires !(s.calls[id].pc.Holding? && s.calls[id].pc.step.MarkingSubmitted?)
    requires OneExposed(env, State(sh, s.calls[id := c]))
    ensures Inv(env, State(sh, s.calls[id := c]))
  {
    var s' := State(sh, s.calls[id := c]);
    SameDataOk(env, s.sh, sh);
    forall i, h | Pending(s, i, h) ensures Pending(s', i, h) {
      assert i != id;
    }
    PendingKept(s, s');
  }

  lemma StepIsCall(env: Env, s: State, id: nat, r: Reply)
    requires id in s.calls
    ensures var (sh, c) := NextCall(env, s.sh, s.calls[id], r); Next(env, s, Step(id, r)) == State(sh, s.calls[id := c])
  {
  }

  lemma AcquireInv(env: Env, s: State, id: nat, r: Reply)
    requires Inv(env, s) && !Overtakes(env, s, Step(id, r)) && id in s.calls && s.calls[id].pc == Outside(Acquiring)
    ensures Inv(env, Next(env, s, Step(id, r)))
  {
    assert CallOk(env, s.sh, s.calls[id]);
    NewHolderOk(env, s.sh, s.calls[id], r);
    OthersAfterAcquire(env, s, id, r);
    var (sh, c) := NextCall(env, s.sh, s.calls[id], r);
    StepIsCall(env, s, id, r);
    ExposedAfterAcquire(env, s, id, r);
    Assembled(env, s, id, sh, c);
  }

  lemma ReleaseKeepsLock(sh: Shared, c: Call, gone: Call)
    requires c.pc.Holding? && HasLock(sh, c, c.pc.lock) && gone.pc.Holding? && gone.pc.lock.n != c.pc.lock.n
    ensures var table := Locks.Released(sh.locks, LockKey(gone.Hash()), Locks.Token(gone.pc.lock.n));
      HasLock(sh.(locks := table), c, c.pc.lock)
  {
    Locks.TokenInjective(c.pc.lock.n, gone.pc.lock.n);
  }

  lemma ReleaseInv(env: Env, s: State, id: nat, r: Reply)
    requires Inv(env, s) && id in s.calls && s.calls[id].pc.Holding? && s.calls[id].pc.step.Releasing?
    ensures Inv(env, Next(env, s, Step(id, r)))
  {
    var gone := s.calls[id];
    assert CallOk(env, s.sh, gone);
    var sh := s.sh.(locks := Locks.Released(s.sh.locks, LockKey(gone.Hash()), Locks.Token(gone.pc.lock.n)));
    var c := gone.(pc := Done(gone.pc.step.answer));
    StepIsCall(env, s, id, r);
    forall i | i in s.calls && i != id ensures CallOk(env, sh, s.calls[i]) {
      assert CallOk(env, s.sh, s.calls[i]);
      if Exposed(env, s.sh, s.calls[i]) && s.sh.now < s.calls[i].pc.lock.deadline {
        ReleaseKeepsLock(s.sh, s.calls[i], gone);
      }
      SameDataCall(env, s.sh, sh, s.calls[i]);
    }
    Assembled(env, s, id, sh, c);
  }

  /** More intents, more time, perhaps one more call at its first step. */
  lemma Widened(env: Env, s: State, s': State)
    requires Inv(env, s) && SameData(s.sh, s'.sh) && s'.sh.locks == s.sh.locks && s.sh.now <= s'.sh.now
    requires s.calls.Keys <= s'.calls.Keys
    requires forall i :: i in s'.calls ==>
      if i in s.calls then s'.calls[i] == s.calls[i] else s'.calls[i].pc.Outside? && !s'.calls[i].pc.outer.Acquiring?
    ensures Inv(env, s')
  {
    forall i | i in s'.calls ensures CallOk(env, s'.sh, s'.calls[i]) {
      if i in s.calls {
        assert CallOk(env, s.sh, s.calls[i]);
        SameDataCall(env, s.sh, s'.sh, s.calls[i]);
      }
    }
    SameDataOk(env, s.sh, s'.sh);
    PendingKept(s, s');
  }

  /** Time passing, intents being recorded and calls starting. */
  lemma OutsideInv(env: Env, s: State, e: Event)
    requires Inv(env, s) && !e.Step?
    ensures Inv(env, Next(env, s, e))
  {
    Widened(env, s, Next(env, s, e));
  }

  // ----- Every event, every run

  lemma NextInv(env: Env, s: State, e: Event)
    requires Inv(env, s) && !Overtakes(env, s, e)
    ensures Inv(env, Next(env, s, e))
  {
    if !e.Step? || e.id !in s.calls {
      if !e.Step? { OutsideInv(env, s, e); }
    } else {
      match s.calls[e.id].pc
      case Outside(o) =>
        if o.Acquiring? { AcquireInv(env, s, e.id, e.reply); } else { OuterStepInv(env, s, e.id, e.reply); }
      case Holding(_, step) =>
        if step.Releasing? { ReleaseInv(env, s, e.id, e.reply); } else { HeldInv(env, s, e.id, e.reply); }
      case Done(_) =>
        assert Next(env, s, e).calls == s.calls;
    }
  }

  lemma StartInv(env: Env, now: int)
    ensures Inv(env, Start(now))
  {
  }

  lemma {:induction false} RunInv(env: Env, s: State, es: seq<Event>)
    requires Inv(env, s) && CalmRun(env, s, es)
    ensures Inv(env, Run(env, s, es))
    decreases |es|
  {
    if es != [] {
      NextInv(env, s, es[0]);
      RunInv(env, Next(env, s, es[0]), es[1..]);
    }
  }

  // ----- Main results

  /**
   * Over every interleaving of any number of settle and status calls in which no exposed
   * holder past its deadline is overtaken, receive() reports at most one confirmed mint
   * per hash, late readers of the replay store included; and that mint is one that an
   * initiate recorded: same hash, address, mode and gross amount, and within the cap.
   */
  lemma AtMostOneMint(env: Env, now: int, es: seq<Event>, h: string)
    requires CalmRun(env, Start(now), es)
    ensures var sh := Run(env, Start(now), es).sh;
      && |MintsOf(sh, h)| <= 1
      && (MintsOf(sh, h) != [] ==>
            var m := MintsOf(sh, h)[0];
            && (exists i :: i in sh.recorded && i.burnTxHash == h && i.address == m.address
                  && i.transferMode == m.mode && i.amount == Print(m.gross))
            && (env.maxMintBase6.Some? ==> m.gross <= env.maxMintBase6.value))
  {
    StartInv(env, now);
    RunInv(env, Start(now), es);
    assert HashOk(env, Run(env, Start(now), es).sh, h);
  }

  /** In the same runs at most one call at a time is exposed on a hash. */
  lemma Exclusive(env: Env, now: int, es: seq<Event>, i: nat, j: nat)
    requires CalmRun(env, Start(now), es)
    requires var s := Run(env, Start(now), es);
      && i in s.calls && j in s.calls && s.calls[i].Hash() == s.calls[j].Hash()
      && Exposed(env, s.sh, s.calls[i]) && Exposed(env, s.sh, s.calls[j])
    ensures i == j
  {
    StartInv(env, now);
    RunInv(env, Start(now), es);
  }

  /**
   * A durable settled record always stands for the one confirmed mint of its hash, and
   * its amount plus ten times the executed fee is ten times the recorded amount.
   */
  lemma SettledMeansMinted(env: Env, now: int, es: seq<Event>, h: string)
    requires CalmRun(env, Start(now), es) && IsSettled(Run(env, Start(now), es).sh.durable, h)
    ensures var sh := Run(env, Start(now), es).sh;
      var r := sh.durable[h];
      && |MintsOf(sh, h)| == 1 && r.txHash == MintsOf(sh, h)[0].txHash && r.amount.Some?
      && r.amount.value + 10 * MintsOf(sh, h)[0].fee == 10 * MintsOf(sh, h)[0].gross
  {
    StartInv(env, now);
    RunInv(env, Start(now), es);
    assert HashOk(env, Run(env, Start(now), es).sh, h);
  }

  /** none -> submitted -> settled */
  function Rank(store: map<string, Record>, h: string): nat {
    if h !in store then 0 else if store[h].status.SubmittedStatus? then 1 else 2
  }

  /** Only the two persisting steps write the durable store. */
  lemma DurableWriters(env: Env, sh: Shared, q: SettleRequest, step: HeldStep, r: Reply)
    requires !step.PersistingSettled? && !step.PersistingSubmitted?
    ensures NextHeld(env, sh, q, step, r).0.durable == sh.durable
  {
  }

  lemma OuterKeepsDurable(env: Env, sh: Shared, q: SettleRequest, o: OuterStep, r: Reply)
    ensures NextOuter(env, sh, q, o, r).0.durable == sh.durable
  {
  }

  /** What those two may do to a record: nothing to a settled one, and no step back. */
  predicate Forward(sh: Shared, sh': Shared, h: string) {
    && Rank(sh.durable, h) <= Rank(sh'.durable, h)
    && (IsSettled(sh.durable, h) ==> h in sh'.durable && sh'.durable[h] == sh.durable[h])
  }

  lemma HeldForward(env: Env, sh: Shared, c: Call, step: HeldStep, r: Reply, h: string)
    requires StepOk(sh, c, step) && HashOk(env, sh, c.Hash())
    ensures Forward(sh, NextHeld(env, sh, c.request, step, r).0, h)
  {
    if step.PersistingSettled? {
      assert IsSettled(sh.durable, c.Hash()) ==> sh.durable[c.Hash()] == sh.core[c.Hash()];
    } else if !step.PersistingSubmitted? {
      DurableWriters(env, sh, c.request, step, r);
    }
  }

  lemma StepForward(env: Env, s: State, id: nat, r: Reply, h: string)
    requires Inv(env, s) && id in s.calls
    ensures Forward(s.sh, NextCall(env, s.sh, s.calls[id], r).0, h)
  {
    var c := s.calls[id];
    assert CallOk(env, s.sh, c) && HashOk(env, s.sh, c.Hash());
    match c.pc
    case Outside(o) => OuterKeepsDurable(env, s.sh, c.request, o, r);
    case Holding(_, step) => if !step.Releasing? { HeldForward(env, s.sh, c, step, r, h); }
    case Done(_) =>
  }

  lemma NextRank(env: Env, s: State, e: Event, h: string)
    requires Inv(env, s)
    ensures Forward(s.sh, Next(env, s, e).sh, h)
  {
    if e.Step? && e.id in s.calls {
      StepForward(env, s, e.id, e.reply, h);
    }
  }

  lemma {:induction false} RunForward(env: Env, s: State, es: seq<Event>, h: string)
    requires Inv(env, s) && CalmRun(env, s, es)
    ensures Forward(s.sh, Run(env, s, es).sh, h)
    decreases |es|
  {
    if es != [] {
      NextRank(env, s, es[0], h);
      NextInv(env, s, es[0]);
      RunForward(env, Next(env, s, es[0]), es[1..], h);
    }
  }

  /** In the same runs a durable record only moves forward, and once settled it never changes. */
  lemma DurableMovesForward(env: Env, now: int, before: seq<Event>, after: seq<Event>, h: string)
    requires CalmRun(env, Start(now), before) && CalmRun(env, Run(env, Start(now), before), after)
    ensures var s := Run(env, Start(now), before); var t := Run(env, s, after);
      && Rank(s.sh.durable, h) <= Rank(t.sh.durable, h)
      && (IsSettled(s.sh.durable, h) ==> h in t.sh.durable && t.sh.durable[h] == s.sh.durable[h])
  {
    StartInv(env, now);
    RunInv(env, Start(now), before);
    RunForward(env, Run(env, Start(now), before), after, h);
  }

  /** What a call that starts after the receipt can answer: that receipt, a rate limit, or a crash. */
  predicate AnswersWith(c: Call, receipt: Answer) {
    match c.pc
    case Outside(o) => o.ConsumingBucket? || o.ReadingReplay? || o.StatusBucket? || o.StatusReplay?
    case Holding(_, _) => false
    case Done(a) => a == receipt || a == RATE_LIMITED || a == Crashed
  }

  lemma AnswersStays(env: Env, sh: Shared, c: Call, r: Reply)
    requires IsSettled(sh.durable, c.Hash()) && AnswersWith(c, ReceiptOf(sh.durable[c.Hash()]))
    ensures AnswersWith(NextCall(env, sh, c, r).1, ReceiptOf(sh.durable[c.Hash()]))
  {
  }

  /** The calls for h that are not in `old'` answer with the receipt, if they answer. */
  predicate LateAnswers(s: State, h: string, old': set<nat>, receipt: Answer) {
    forall i :: i in s.calls && i !in old' && s.calls[i].Hash() == h ==> AnswersWith(s.calls[i], receipt)
  }

  lemma NextLateAnswers(env: Env, s: State, e: Event, h: string, old': set<nat>)
    requires IsSettled(s.sh.durable, h) && LateAnswers(s, h, old', ReceiptOf(s.sh.durable[h]))
    ensures LateAnswers(Next(env, s, e), h, old', ReceiptOf(s.sh.durable[h]))
  {
    if e.Step? && e.id in s.calls && e.id !in old' && s.calls[e.id].Hash() == h {
      AnswersStays(env, s.sh, s.calls[e.id], e.reply);
    }
  }

  lemma {:induction false} LateCalls(env: Env, s: State, es: seq<Event>, h: string, old': set<nat>)
    requires Inv(env, s) && CalmRun(env, s, es) && IsSettled(s.sh.durable, h)
    requires LateAnswers(s, h, old', ReceiptOf(s.sh.durable[h]))
    ensures LateAnswers(Run(env, s, es), h, old', ReceiptOf(s.sh.durable[h]))
    decreases |es|
  {
    if es != [] {
      var s' := Next(env, s, es[0]);
      NextRank(env, s, es[0], h);
      NextInv(env, s, es[0]);
      NextLateAnswers(env, s, es[0], h, old');
      LateCalls(env, s', es[1..], h, old');
    }
  }

  /**
   * Once one call has answered with a receipt for a hash, every valid settle or status
   * for that hash that starts later answers with the same amount and mint hash (unless
   * it is rate limited or a store read throws), whatever happens to the intents.
   */
  lemma ReceiptsAreStable(env: Env, now: int, before: seq<Event>, after: seq<Event>, first: nat, later: nat)
    requires CalmRun(env, Start(now), before) && CalmRun(env, Run(env, Start(now), before), after)
    requires var s := Run(env, Start(now), before);
      first in s.calls && s.calls[first].pc.Done? && s.calls[first].pc.answer.Receipt?
    requires var s := Run(env, Start(now), before); var t := Run(env, s, after);
      later !in s.calls && later in t.calls && t.calls[later].Hash() == s.calls[first].Hash()
    ensures var s := Run(env, Start(now), before); var t := Run(env, s, after);
      AnswersWith(t.calls[later], s.calls[first].pc.answer)
  {
    var s := Run(env, Start(now), before);
    StartInv(env, now);
    RunInv(env, Start(now), before);
    assert CallOk(env, s.sh, s.calls[first]);
    LateCalls(env, s, after, s.calls[first].Hash(), s.calls.Keys);
  }

  /** Any two receipts ever answered for a hash are equal, whoever answered first. */
  lemma ReceiptsAgree(env: Env, now: int, es: seq<Event>, i: nat, j: nat)
    requires CalmRun(env, Start(now), es)
    requires var s := Run(env, Start(now), es);
      && i in s.calls && j in s.calls && s.calls[i].Hash() == s.calls[j].Hash()
      && s.calls[i].pc.Done? && s.calls[i].pc.answer.Receipt? && s.calls[j].pc.Done? && s.calls[j].pc.answer.Receipt?
    ensures var s := Run(env, Start(now), es); s.calls[i].pc.answer == s.calls[j].pc.answer
  {
    var s := Run(env, Start(now), es);
    StartInv(env, now);
    RunInv(env, Start(now), es);
    assert CallOk(env, s.sh, s.calls[i]) && CallOk(env, s.sh, s.calls[j]);
  }
}

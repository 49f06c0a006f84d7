// Why the settle theorems assume that no exposed holder is overtaken: from every state in
// which that happens the run can go on to break them.

module SettleTakeover {
  import opened Wrappers
  import opened Text
  import opened CctpMessage
  import opened Intents
  import opened SettleRules
  import opened SettleProtocol
  import opened SettleSafety
  import opened SettleWitness
  import opened SettleDriving
  import Locks

  /** What is known of a reachable calm state. */
  ghost predicate Reached(env: Env, now: int, es: seq<Event>, s: State) {
    CalmRun(env, Start(now), es) && s == Run(env, Start(now), es)
  }

  lemma ReachedFacts(env: Env, now: int, es: seq<Event>, s: State)
    requires Reached(env, now, es, s)
    ensures Inv(env, s) && GoodCalls(env, s.calls)
  {
    StartInv(env, now);
    RunInv(env, Start(now), es);
    RunGood(env, Start(now), es);
  }

  /** The state right after call id has taken the lock of call j. */
  lemma TakenOver(env: Env, s: State, id: nat, j: nat)
    requires Inv(env, s) && Ousts(env, s, id, j)
    ensures var t := Next(env, s, Step(id, Ack));
      && t.sh == s.sh.(locks := t.sh.locks) && t.calls == s.calls[id := t.calls[id]] && id != j
      && t.calls[id].request == s.calls[id].request && t.calls[id].pc.Holding? && t.calls[id].pc.step == Probing
  {
    assert CallOk(env, s.sh, s.calls[j]);
  }

  /** Lead one holder of t to a confirmed mint. */
  lemma LeadToMint(env: Env, t: State, id: nat) returns (es: seq<Event>, tx: string)
    requires id in t.calls && t.calls[id].pc.Holding? && Underway(t.calls[id].pc.step)
    requires Mintable(env, t.sh, t.calls[id].request)
    ensures var u := Run(env, t, es);
      var fee := if Distance(t.calls[id].pc.step) > 5 then 0 else Fee(t.calls[id].pc.step);
      && OneMore(t.sh, u.sh, t.calls[id].Hash())
      && u.calls == t.calls[id := At(t.calls[id], MarkingSubmitted(fee, tx))]
  {
    var rs;
    rs, tx := MintsFrom(env, t.sh, t.calls[id]);
    es := Steps(id, rs);
    CallRunIsRun(env, t, id, rs);
  }

  /**
   * From every reachable state in which a lock is taken over from a holder that may yet
   * mint, or has minted and not marked it, two confirmed mints of the hash can follow.
   */
  lemma TakeoverMintsTwice(env: Env, now: int, es: seq<Event>, id: nat, j: nat) returns (more: seq<Event>)
    requires CalmRun(env, Start(now), es) && Ousts(env, Run(env, Start(now), es), id, j)
    requires !Run(env, Start(now), es).calls[j].pc.step.PersistingSubmitted?
    ensures var s := Run(env, Start(now), es);
      |MintsOf(Run(env, Next(env, s, Step(id, Ack)), more).sh, s.calls[id].Hash())| == 2
  {
    var s := Run(env, Start(now), es);
    ReachedFacts(env, now, es, s);
    BothUnderway(env, s, id, j);
    more := TwoMints(env, Next(env, s, Step(id, Ack)), id, j);
  }

  /** The takeover leaves two holders, and neither's mint is known to the other. */
  lemma BothUnderway(env: Env, s: State, id: nat, j: nat)
    requires Inv(env, s) && GoodCalls(env, s.calls) && Ousts(env, s, id, j)
    requires !s.calls[j].pc.step.PersistingSubmitted?
    ensures var t := Next(env, s, Step(id, Ack));
      id in t.calls && j in t.calls && t.calls[id].Hash() == s.calls[id].Hash() && TwoUnderway(env, t, id, j)
  {
    TakenOver(env, s, id, j);
    OldUnderway(env, s, j);
    assert GoodRequest(env, s.calls[id].request);
  }

  lemma OldUnderway(env: Env, s: State, j: nat)
    requires Inv(env, s) && GoodCalls(env, s.calls) && j in s.calls && Exposed(env, s.sh, s.calls[j])
    requires !s.calls[j].pc.step.PersistingSubmitted?
    ensures var h := s.calls[j].Hash();
      if s.calls[j].pc.step.MarkingSubmitted? then |MintsOf(s.sh, h)| == 1
      else Underway(s.calls[j].pc.step) && Mintable(env, s.sh, s.calls[j].request) && MintsOf(s.sh, h) == []
  {
    assert CallOk(env, s.sh, s.calls[j]) && GoodRequest(env, s.calls[j].request);
    if !s.calls[j].pc.step.MarkingSubmitted? { HolderKnows(env, s, j); }
  }

  /** Call id is at its start inside the lock, and call j is underway or about to mark its mint. */
  predicate TwoUnderway(env: Env, t: State, id: nat, j: nat)
    requires id in t.calls && j in t.calls
  {
    var h := t.calls[id].Hash();
    && id != j && h == t.calls[j].Hash()
    && t.calls[id].pc.Holding? && t.calls[id].pc.step == Probing && Mintable(env, t.sh, t.calls[id].request)
    && t.calls[j].pc.Holding?
    && if t.calls[j].pc.step.MarkingSubmitted? then |MintsOf(t.sh, h)| == 1
       else Underway(t.calls[j].pc.step) && Mintable(env, t.sh, t.calls[j].request) && MintsOf(t.sh, h) == []
  }

  /** Lead a new holder to its mint, and the old one too unless it has minted. */
  lemma TwoMints(env: Env, t: State, id: nat, j: nat) returns (more: seq<Event>)
    requires id in t.calls && j in t.calls && TwoUnderway(env, t, id, j)
    ensures |MintsOf(Run(env, t, more).sh, t.calls[id].Hash())| == 2
  {
    var tx;
    more, tx := LeadToMint(env, t, id);
    if !t.calls[j].pc.step.MarkingSubmitted? {
      var rest;
      rest, tx := LeadToMint(env, Run(env, t, more), j);
      RunAppend(env, t, more, rest);
      more := more + rest;
    }
  }

  lemma StepOfHolder(env: Env, t: State, id: nat, r: Reply)
    requires id in t.calls && t.calls[id].pc.Holding? && !t.calls[id].pc.step.Releasing?
    ensures var (sh, step) := NextHeld(env, t.sh, t.calls[id].request, t.calls[id].pc.step, r);
      Run(env, t, [Step(id, r)]) == State(sh, t.calls[id := At(t.calls[id], step)])
  {
    assert [Step(id, r)][1..] == [];
  }

  /** From the confirmed mint to the durable settled record. */
  lemma LeadToSettled(env: Env, t: State, id: nat, tx: string) returns (es: seq<Event>)
    requires id in t.calls && t.calls[id].pc.Holding? && t.calls[id].pc.step == MarkingSubmitted(0, tx)
    requires PostMint(env, t.calls[id].request.params.address, t.calls[id].Gross(), 0).Ok?
    ensures var u := Run(env, t, es);
      IsSettled(u.sh.durable, t.calls[id].Hash()) && forall j :: j in t.calls && j != id ==>
        j in u.calls && u.calls[j] == t.calls[j]
  {
    var one := [Step(id, Ack)];
    StepOfHolder(env, t, id, Ack);
    var u1 := Run(env, t, one);
    StepOfHolder(env, u1, id, Ack);
    var u2 := Run(env, u1, one);
    StepOfHolder(env, u2, id, Ack);
    RunAppend(env, u1, one, one);
    RunAppend(env, t, one, one + one);
    es := one + (one + one);
  }

  lemma LeadAllTheWay(env: Env, t: State, id: nat) returns (es: seq<Event>)
    requires id in t.calls && t.calls[id].pc.Holding? && t.calls[id].pc.step == Probing
    requires Mintable(env, t.sh, t.calls[id].request)
    requires PostMint(env, t.calls[id].request.params.address, t.calls[id].Gross(), 0).Ok?
    ensures var u := Run(env, t, es);
      IsSettled(u.sh.durable, t.calls[id].Hash()) && forall j :: j in t.calls && j != id ==>
        j in u.calls && u.calls[j] == t.calls[j]
  {
    var tx, rest;
    es, tx := LeadToMint(env, t, id);
    rest := LeadToSettled(env, Run(env, t, es), id, tx);
    RunAppend(env, t, es, rest);
    es := es + rest;
  }

  /**
   * And if the ousted holder is about to write a submitted record, a settled durable
   * record can follow and then be overwritten by that submitted one, unless the dust
   * collector is misconfigured so that no record is ever settled.
   */
  lemma TakeoverUnsettles(env: Env, now: int, es: seq<Event>, id: nat, j: nat)
    returns (more: seq<Event>, last: Event)
    requires CalmRun(env, Start(now), es) && Ousts(env, Run(env, Start(now), es), id, j)
    requires var s := Run(env, Start(now), es);
      s.calls[j].pc.step.PersistingSubmitted?
    requires CanCollect(env)
    ensures var s := Run(env, Start(now), es);
      var u := Run(env, Next(env, s, Step(id, Ack)), more);
      var h := s.calls[id].Hash();
      IsSettled(u.sh.durable, h) && h in Next(env, u, last).sh.durable && !IsSettled(Next(env, u, last).sh.durable, h)
  {
    var s := Run(env, Start(now), es);
    ReachedFacts(env, now, es, s);
    TakenOver(env, s, id, j);
    var t := Next(env, s, Step(id, Ack));
    assert GoodRequest(env, s.calls[id].request);
    CreditPasses(env, s.calls[id].request);
    more := LeadAllTheWay(env, t, id);
    last := Step(j, Ack);
    SubmittedWritten(env, Run(env, t, more), j);
  }

  lemma SubmittedWritten(env: Env, u: State, j: nat)
    requires j in u.calls && u.calls[j].pc.Holding? && u.calls[j].pc.step.PersistingSubmitted?
    ensures var h := u.calls[j].Hash();
      h in Next(env, u, Step(j, Ack)).sh.durable && !IsSettled(Next(env, u, Step(j, Ack)).sh.durable, h)
  {
  }

  // ----- The collector

  /** A configured dust collector is an account. */
  predicate CanCollect(env: Env) {
    env.dustCollector.Some? && env.dustCollector.value != "" ==> env.isAccount(env.dustCollector.value)
  }

  lemma CreditPasses(env: Env, q: SettleRequest)
    requires CanCollect(env) && GoodRequest(env, q) && env.isAccount(q.params.address)
    ensures PostMint(env, q.params.address, q.params.amount, 0).Ok?
  {
  }

  /** No record is settled and no call is about to settle one. */
  ghost predicate Unsettled(s: State) {
    (forall h :: !IsSettled(s.sh.durable, h)) && forall i :: i in s.calls ==> !Finishing(s.calls[i])
  }

  lemma HeldUnsettled(env: Env, sh: Shared, q: SettleRequest, step: HeldStep, r: Reply, h: string)
    requires !CanCollect(env) && !step.MarkingSettled? && !step.PersistingSettled? && !IsSettled(sh.durable, h)
    ensures var (sh', step') := NextHeld(env, sh, q, step, r);
      !step'.MarkingSettled? && !step'.PersistingSettled? && !IsSettled(sh'.durable, h)
  {
  }

  lemma CallUnsettled(env: Env, sh: Shared, c: Call, r: Reply, h: string)
    requires !CanCollect(env) && !Finishing(c) && !IsSettled(sh.durable, h)
    ensures var (sh', c') := NextCall(env, sh, c, r); !Finishing(c') && !IsSettled(sh'.durable, h)
  {
    match c.pc
    case Outside(o) => OuterKeepsDurable(env, sh, c.request, o, r);
    case Holding(_, step) => HeldUnsettled(env, sh, c.request, step, r, h);
    case Done(_) =>
  }

  lemma NextUnsettled(env: Env, s: State, e: Event)
    requires !CanCollect(env) && Unsettled(s)
    ensures Unsettled(Next(env, s, e))
  {
    if e.Step? && e.id in s.calls {
      forall h ensures !IsSettled(Next(env, s, e).sh.durable, h) && !Finishing(Next(env, s, e).calls[e.id]) {
        CallUnsettled(env, s.sh, s.calls[e.id], e.reply, h);
      }
    }
  }

  /** With a collector that is no account, no record is ever settled, in any run. */
  lemma {:induction false} NeverSettles(env: Env, s: State, es: seq<Event>)
    requires !CanCollect(env) && Unsettled(s)
    ensures Unsettled(Run(env, s, es))
    decreases |es|
  {
    if es != [] {
      NextUnsettled(env, s, es[0]);
      NeverSettles(env, Next(env, s, es[0]), es[1..]);
    }
  }
}

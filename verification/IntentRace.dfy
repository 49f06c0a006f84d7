// Concurrent KvIntentStore.put and find (apps/demo/server/kv.ts:340-365): every Redis
// command is one step, and steps of different calls interleave freely.

module IntentRace {
  import opened Wrappers
  import opened BurnHash
  import opened Redis
  import opened Intents

  datatype PutStep =
    | Claiming                          // about to SET NX the binding
    | ReadBinding                    // lost: about to GET the binding
    | ReadWinner(id: string)         // about to GET the intent the binding names
    | Write                          // about to SET the own intent
    | PutDone(result: Intent)

  /** One put; `won` records that its SET NX took the tuple. */
  datatype Put = Put(intent: Intent, step: PutStep, won: bool)

  datatype FindStep =
    | LookUp                         // about to GET the binding
    | Fetch(id: string)              // about to GET the intent
    | FindDone(via: Option<string>, result: Option<Intent>)

  datatype Find = Find(burnTxHash: string, address: string, amount: string, step: FindStep)

  /** Puts are named by their intent ids, which are never reused; createdAt was read off the clock before. */
  datatype State = State(now: int, redis: Db, puts: map<string, Put>, finds: map<nat, Find>)

  datatype Event =
    | Tick(ms: nat)
    | StartPut(intent: Intent)
    | StepPut(id: string)
    | StartFind(f: nat, burnTxHash: string, address: string, amount: string)
    | StepFind(f: nat)

  const EX: nat := CeilSeconds(INTENT_TTL_MS)

  function NextPut(s: State, p: Put): (Db, Put) {
    var key := KeyOf(p.intent);
    match p.step
    case Claiming =>
      var (db, won) := WriteIfAbsent(s.redis, LegacyBindKey(key), IdText(p.intent.intentId), EX, s.now);
      (db, p.(step := if won then Write else ReadBinding, won := won))
    case ReadBinding =>
      (match BoundId(Read(s.redis, LegacyBindKey(key), s.now))
       case Some(id) => (s.redis, p.(step := ReadWinner(id)))
       case None => (s.redis, p.(step := Write)))
    case ReadWinner(id) =>
      (match OfHash(Parse(Read(s.redis, IntentKey(id), s.now), s.now), p.intent.burnTxHash)
       case Some(winner) => (s.redis, p.(step := PutDone(winner)))
       case None => (s.redis, p.(step := Write)))
    case Write =>
      (Redis.Write(s.redis, IntentKey(p.intent.intentId), IntentJson(p.intent), EX, s.now),
       p.(step := PutDone(p.intent)))
    case PutDone(_) => (s.redis, p)
  }

  function NextFind(s: State, f: Find): Find {
    match f.step
    case LookUp =>
      (match BoundId(Read(s.redis, LegacyBindKey(BindKey(f.burnTxHash, f.address, f.amount)), s.now))
       case Some(id) => f.(step := Fetch(id))
       case None => f.(step := FindDone(None, None)))
    case Fetch(id) =>
      f.(step := FindDone(Some(id), OfHash(Parse(Read(s.redis, IntentKey(id), s.now), s.now), f.burnTxHash)))
    case FindDone(_, _) => f
  }

  function Next(s: State, e: Event): State {
    match e
    case Tick(ms) => s.(now := s.now + ms)
    case StartPut(i) =>
      if i.intentId in s.puts || !GoodId(i.intentId) || !CanonicalHash(i.burnTxHash) || i.createdAt > s.now then s
      else s.(puts := s.puts[i.intentId := Put(i, Claiming, false)])
    case StepPut(id) =>
      if id !in s.puts then s else
        var (db, p) := NextPut(s, s.puts[id]);
        s.(redis := db, puts := s.puts[id := p])
    case StartFind(f, h, a, m) =>
      if f in s.finds then s else s.(finds := s.finds[f := Find(h, a, m, LookUp)])
    case StepFind(f) =>
      if f !in s.finds then s else s.(finds := s.finds[f := NextFind(s, s.finds[f])])
  }

  function Run(s: State, es: seq<Event>): State
    decreases |es|
  {
    if es == [] then s else Run(Next(s, es[0]), es[1..])
  }

  function Start(now: int): State {
    State(now, map[], map[], map[])
  }

  /** The named put exists, took the tuple, and is for that tuple. */
  predicate Winner(s: State, id: string, key: string) {
    id in s.puts && s.puts[id].won && KeyOf(s.puts[id].intent) == key
  }

  /** A result naming `id` can only be the intent of the put of that name. */
  predicate FromPut(s: State, id: string, result: Option<Intent>) {
    result.Some? ==> id in s.puts && result.value == s.puts[id].intent
  }

  predicate StepOk(s: State, p: Put) {
    && GoodId(p.intent.intentId) && CanonicalHash(p.intent.burnTxHash)
    && match p.step
       case Claiming => !p.won
       case ReadWinner(w) => Winner(s, w, KeyOf(p.intent))
       case PutDone(r) => r == p.intent || (Winner(s, r.intentId, KeyOf(p.intent)) && r == s.puts[r.intentId].intent)
       case _ => true
  }

  predicate PutOk(s: State, id: string) {
    id in s.puts && s.puts[id].intent.intentId == id && StepOk(s, s.puts[id])
  }

  predicate FindOk(s: State, f: Find) {
    match f.step
    case LookUp => true
    case Fetch(id) => Winner(s, id, BindKey(f.burnTxHash, f.address, f.amount))
    case FindDone(via, result) =>
      && (result.Some? ==> via.Some?)
      && (via.Some? ==>
            Winner(s, via.value, BindKey(f.burnTxHash, f.address, f.amount)) && FromPut(s, via.value, result))
  }

  /** An intent cell holds the intent of its own put; a binding cell names a winner of its tuple. */
  ghost predicate DbOk(s: State) {
    && (forall id :: IntentKey(id) in s.redis && s.redis[IntentKey(id)].value.IntentJson? ==>
          id in s.puts && s.redis[IntentKey(id)].value.intent == s.puts[id].intent)
    && (forall key :: LegacyBindKey(key) in s.redis ==>
          s.redis[LegacyBindKey(key)].value.IdText? && Winner(s, s.redis[LegacyBindKey(key)].value.id, key))
  }

  ghost predicate Inv(s: State) {
    && (forall id :: id in s.puts ==> PutOk(s, id))
    && (forall f :: f in s.finds ==> FindOk(s, s.finds[f]))
    && DbOk(s)
  }

  /** Winners stay winners, and puts keep their intents. */
  predicate Grows(s: State, s': State) {
    forall id :: id in s.puts ==>
      id in s'.puts && s'.puts[id].intent == s.puts[id].intent && (s.puts[id].won ==> s'.puts[id].won)
  }

  lemma OthersKept(s: State, s': State)
    requires Inv(s) && Grows(s, s')
    ensures forall id :: id in s.puts && id in s'.puts && s'.puts[id] == s.puts[id] ==> PutOk(s', id)
    ensures forall f :: f in s.finds ==> FindOk(s', s.finds[f])
  {
    forall id | id in s.puts && id in s'.puts && s'.puts[id] == s.puts[id] ensures PutOk(s', id) {
      assert PutOk(s, id);
    }
    forall f | f in s.finds ensures FindOk(s', s.finds[f]) {
      assert FindOk(s, s.finds[f]);
    }
  }

  lemma DbKept(s: State, s': State)
    requires DbOk(s) && Grows(s, s') && s'.redis == s.redis
    ensures DbOk(s')
  {
  }

  lemma ClaimDb(s: State, id: string)
    requires Inv(s) && id in s.puts && s.puts[id].step.Claiming?
    ensures DbOk(Next(s, StepPut(id)))
  {
    var s' := Next(s, StepPut(id));
    assert PutOk(s, id);
    var key := KeyOf(s.puts[id].intent);
    forall k | LegacyBindKey(k) in s'.redis
      ensures s'.redis[LegacyBindKey(k)].value.IdText? && Winner(s', s'.redis[LegacyBindKey(k)].value.id, k)
    {
      KeysApart(id, id, k, key);
    }
    forall i | IntentKey(i) in s'.redis && s'.redis[IntentKey(i)].value.IntentJson?
      ensures i in s'.puts && s'.redis[IntentKey(i)].value.intent == s'.puts[i].intent
    {
      KeysApart(i, i, key, key);
    }
  }

  lemma PutClaimInv(s: State, id: string)
    requires Inv(s) && id in s.puts && s.puts[id].step.Claiming?
    ensures Inv(Next(s, StepPut(id)))
  {
    var s' := Next(s, StepPut(id));
    assert PutOk(s, id);
    OthersKept(s, s');
    ClaimDb(s, id);
    forall i | i in s'.puts ensures PutOk(s', i) {
      assert i != id ==> s'.puts[i] == s.puts[i];
    }
  }

  lemma PutWriteInv(s: State, id: string)
    requires Inv(s) && id in s.puts && s.puts[id].step.Write?
    ensures Inv(Next(s, StepPut(id)))
  {
    var s' := Next(s, StepPut(id));
    assert PutOk(s, id);
    OthersKept(s, s');
    forall i | IntentKey(i) in s'.redis && s'.redis[IntentKey(i)].value.IntentJson?
      ensures i in s'.puts && s'.redis[IntentKey(i)].value.intent == s'.puts[i].intent
    {
      KeysApart(i, id, "", "");
    }
    forall k | LegacyBindKey(k) in s'.redis
      ensures s'.redis[LegacyBindKey(k)].value.IdText? && Winner(s', s'.redis[LegacyBindKey(k)].value.id, k)
    {
      KeysApart(id, id, k, k);
    }
  }

  /** A put that only moves on, its state in order, keeps the invariant. */
  lemma MovedOn(s: State, id: string, p: Put)
    requires Inv(s) && id in s.puts && p.intent == s.puts[id].intent && p.won == s.puts[id].won && StepOk(s, p)
    ensures Inv(s.(puts := s.puts[id := p]))
  {
    var s' := s.(puts := s.puts[id := p]);
    assert PutOk(s, id);
    OthersKept(s, s');
    StepKept(s, s', p);
    forall i | i in s'.puts ensures PutOk(s', i) {
      assert i != id ==> s'.puts[i] == s.puts[i];
    }
  }

  lemma StepKept(s: State, s': State, p: Put)
    requires StepOk(s, p) && Grows(s, s')
    ensures StepOk(s', p)
  {
  }

  lemma PutReadInv(s: State, id: string)
    requires Inv(s) && id in s.puts && (s.puts[id].step.ReadBinding? || s.puts[id].step.ReadWinner?)
    ensures Inv(Next(s, StepPut(id)))
  {
    assert PutOk(s, id);
    ReadsOk(s, s.puts[id]);
    MovedOn(s, id, NextPut(s, s.puts[id]).1);
  }

  lemma ReadsOk(s: State, p: Put)
    requires Inv(s) && StepOk(s, p) && (p.step.ReadBinding? || p.step.ReadWinner?)
    ensures NextPut(s, p).0 == s.redis && NextPut(s, p).1.intent == p.intent && NextPut(s, p).1.won == p.won
    ensures StepOk(s, NextPut(s, p).1)
  {
    ReadsWinner(s, p);
    if p.step.ReadWinner? { assert PutOk(s, p.step.id); }
  }

  /** What the two reads of a losing put can see. */
  lemma ReadsWinner(s: State, p: Put)
    requires Inv(s)
    ensures var key := KeyOf(p.intent);
      var bound := BoundId(Read(s.redis, LegacyBindKey(key), s.now));
      bound.Some? ==> Winner(s, bound.value, key)
    ensures p.step.ReadWinner? ==>
      FromPut(s, p.step.id, OfHash(Parse(Read(s.redis, IntentKey(p.step.id), s.now), s.now), p.intent.burnTxHash))
  {
  }

  lemma FindInv(s: State, f: nat)
    requires Inv(s) && f in s.finds
    ensures Inv(Next(s, StepFind(f)))
  {
    var s' := Next(s, StepFind(f));
    OthersKept(s, s');
    assert FindOk(s, s.finds[f]);
    assert FindOk(s, NextFind(s, s.finds[f]));
  }

  lemma NewPutInv(s: State, i: Intent)
    requires Inv(s)
    ensures Inv(Next(s, StartPut(i)))
  {
    var s' := Next(s, StartPut(i));
    OthersKept(s, s');
    DbKept(s, s');
    forall id | id in s'.puts ensures PutOk(s', id) {
      if id in s.puts {
        assert s'.puts[id] == s.puts[id];
      } else {
        assert s'.puts[id] == Put(i, Claiming, false);
      }
    }
  }

  lemma NewFindInv(s: State, e: Event)
    requires Inv(s) && e.StartFind?
    ensures Inv(Next(s, e))
  {
    OthersKept(s, Next(s, e));
  }

  lemma TickInv(s: State, ms: nat)
    requires Inv(s)
    ensures Inv(Next(s, Tick(ms)))
  {
    OthersKept(s, Next(s, Tick(ms)));
  }

  lemma PutInv(s: State, id: string)
    requires Inv(s) && id in s.puts
    ensures Inv(Next(s, StepPut(id)))
  {
    match s.puts[id].step
    case Claiming => PutClaimInv(s, id);
    case Write => PutWriteInv(s, id);
    case PutDone(_) => assert s.puts[id := s.puts[id]] == s.puts;
    case ReadBinding => PutReadInv(s, id);
    case ReadWinner(_) => PutReadInv(s, id);
  }

  lemma NextInv(s: State, e: Event)
    requires Inv(s)
    ensures Inv(Next(s, e))
  {
    match e
    case StepPut(id) => if id in s.puts { PutInv(s, id); }
    case StepFind(f) => if f in s.finds { FindInv(s, f); }
    case StartPut(i) => NewPutInv(s, i);
    case StartFind(_, _, _, _) => NewFindInv(s, e);
    case Tick(ms) => TickInv(s, ms);
  }

  lemma {:induction false} RunInv(s: State, es: seq<Event>)
    requires Inv(s)
    ensures Inv(Run(s, es))
    decreases |es|
  {
    if es != [] {
      NextInv(s, es[0]);
      RunInv(Next(s, es[0]), es[1..]);
    }
  }

  // ----- One binding, one answer

  /** The tuple's binding as it stands, dead or alive. */
  function BindingOf(s: State, key: string): Option<Cell<Value>> {
    if LegacyBindKey(key) in s.redis then Some(s.redis[LegacyBindKey(key)]) else None
  }

  lemma NextKeepsBinding(s: State, e: Event, key: string)
    requires Inv(s) && BindingOf(s, key).Some? && Alive(BindingOf(s, key).value, s.now)
    ensures BindingOf(Next(s, e), key) == BindingOf(s, key)
  {
    if e.StepPut? && e.id in s.puts {
      assert PutOk(s, e.id);
      KeysApart(e.id, e.id, key, KeyOf(s.puts[e.id].intent));
    }
  }

  /** A binding stays as it is for as long as it lives, whatever the calls do. */
  lemma {:induction false} BindingLasts(s: State, es: seq<Event>, key: string)
    requires Inv(s) && BindingOf(s, key).Some? && Alive(BindingOf(s, key).value, Run(s, es).now)
    ensures BindingOf(Run(s, es), key) == BindingOf(s, key)
    decreases |es|
  {
    if es != [] {
      TimeGoesOn(Next(s, es[0]), es[1..]);
      NextKeepsBinding(s, es[0], key);
      NextInv(s, es[0]);
      BindingLasts(Next(s, es[0]), es[1..], key);
    }
  }

  lemma {:induction false} TimeGoesOn(s: State, es: seq<Event>)
    ensures s.now <= Run(s, es).now
    decreases |es|
  {
    if es != [] { TimeGoesOn(Next(s, es[0]), es[1..]); }
  }

  /** The find on this tuple has not looked yet, or looked and saw this id. */
  predicate SawOnly(s: State, f: nat, key: string, id: string) {
    f in s.finds && BindKey(s.finds[f].burnTxHash, s.finds[f].address, s.finds[f].amount) == key ==>
      match s.finds[f].step
      case LookUp => true
      case Fetch(seen) => seen == id
      case FindDone(via, _) => via == Some(id)
  }

  lemma NextSawOnly(s: State, e: Event, f: nat, key: string, id: string)
    requires BindingOf(s, key).Some? && BindingOf(s, key).value.value == IdText(id) && id != ""
    requires Alive(BindingOf(s, key).value, s.now)
    requires SawOnly(s, f, key, id)
    ensures SawOnly(Next(s, e), f, key, id)
  {
    assert BoundId(Read(s.redis, LegacyBindKey(key), s.now)) == Some(id);
  }

  lemma {:induction false} FindsSeeTheBinding(s: State, es: seq<Event>, f: nat, key: string, id: string)
    requires Inv(s) && BindingOf(s, key).Some? && BindingOf(s, key).value.value == IdText(id) && id != ""
    requires Alive(BindingOf(s, key).value, Run(s, es).now)
    requires SawOnly(s, f, key, id)
    ensures SawOnly(Run(s, es), f, key, id)
    decreases |es|
  {
    if es != [] {
      var s' := Next(s, es[0]);
      TimeGoesOn(s', es[1..]);
      NextKeepsBinding(s, es[0], key);
      NextSawOnly(s, es[0], f, key, id);
      NextInv(s, es[0]);
      FindsSeeTheBinding(s', es[1..], f, key, id);
    }
  }

  /**
   * In every interleaving: while one binding lives, every find on its tuple that
   * looked it up during that time and found an intent returned the same intent, the
   * one whose SET NX won.
   */
  lemma FindsAgree(now: int, before: seq<Event>, during: seq<Event>, key: string, f: nat)
    requires var s := Run(Start(now), before);
      && BindingOf(s, key).Some? && Alive(BindingOf(s, key).value, Run(s, during).now)
      && (f in s.finds ==> s.finds[f].step.LookUp?)
    ensures var s := Run(Start(now), before);
      var t := Run(s, during);
      && BindingOf(s, key).value.value.IdText?
      && Winner(t, BindingOf(s, key).value.value.id, key)
      && (f in t.finds && BindKey(t.finds[f].burnTxHash, t.finds[f].address, t.finds[f].amount) == key
          && t.finds[f].step.FindDone? && t.finds[f].step.result.Some? ==>
            t.finds[f].step.result.value == t.puts[BindingOf(s, key).value.value.id].intent)
  {
    var s := Run(Start(now), before);
    var t := Run(s, during);
    RunInv(Start(now), before);
    RunInv(s, during);
    BindingLasts(s, during, key);
    assert PutOk(t, BindingOf(t, key).value.value.id);
    TimeGoesOn(s, during);
    FindsSeeTheBinding(s, during, f, key, BindingOf(s, key).value.value.id);
    assert f in t.finds ==> FindOk(t, t.finds[f]);
  }

  /** A put returns its own intent, or that of a put which won the same tuple. */
  lemma PutReturnsOwnOrWinner(now: int, es: seq<Event>, id: string)
    requires var s := Run(Start(now), es); id in s.puts && s.puts[id].step.PutDone?
    ensures var s := Run(Start(now), es);
      var r := s.puts[id].step.result;
      && KeyOf(r) == KeyOf(s.puts[id].intent)
      && (r.intentId == id || (r.intentId in s.puts && s.puts[r.intentId].won && r == s.puts[r.intentId].intent))
  {
    RunInv(Start(now), es);
    assert PutOk(Run(Start(now), es), id);
  }

  // ----- When the loser gets the winner's intent

  /** The lifetime of an intent, by its own age. */
  function EndOf(i: Intent): int {
    i.createdAt + INTENT_TTL_MS
  }

  predicate LivesUntil(c: Cell<Value>, t: int) {
    c.expiresAt.Some? && c.expiresAt.value >= t
  }

  /** The put has returned its own intent. */
  predicate ReturnedOwn(s: State, id: string) {
    id in s.puts && s.puts[id].step == PutDone(s.puts[id].intent)
  }

  /** The cell of an intent is there exactly when its own put has returned it, and then lives as long as it. */
  predicate CellOk(s: State, id: string) {
    GoodId(id) ==>
      && (IntentKey(id) in s.redis <==> ReturnedOwn(s, id))
      && (ReturnedOwn(s, id) ==>
            && s.redis[IntentKey(id)].value == IntentJson(s.puts[id].intent)
            && LivesUntil(s.redis[IntentKey(id)], EndOf(s.puts[id].intent)))
  }

  /** A winner writes or has written, and while its intent is fresh its binding is in place. */
  predicate WinnerOk(s: State, id: string) {
    id in s.puts ==>
      var p := s.puts[id];
      var key := LegacyBindKey(KeyOf(p.intent));
      && p.intent.createdAt <= s.now
      && (p.won ==> p.step.Write? || p.step == PutDone(p.intent))
      && (p.won && s.now < EndOf(p.intent) ==>
            key in s.redis && s.redis[key].value == IdText(id) && LivesUntil(s.redis[key], EndOf(p.intent)))
  }

  ghost predicate Kept(s: State) {
    forall id :: CellOk(s, id) && WinnerOk(s, id)
  }

  lemma ClaimKept(s: State, id: string)
    requires Inv(s) && Kept(s) && id in s.puts && s.puts[id].step.Claiming?
    ensures Kept(Next(s, StepPut(id)))
  {
    var s' := Next(s, StepPut(id));
    var key := KeyOf(s.puts[id].intent);
    assert PutOk(s, id) && WinnerOk(s, id);
    forall i ensures CellOk(s', i) && WinnerOk(s', i) {
      assert CellOk(s, i) && WinnerOk(s, i);
      KeysApart(i, i, key, key);
      if i in s.puts { KeysApart(i, i, KeyOf(s.puts[i].intent), key); }
    }
  }

  lemma WriteKept(s: State, id: string)
    requires Inv(s) && Kept(s) && id in s.puts && s.puts[id].step.Write?
    ensures Kept(Next(s, StepPut(id)))
  {
    var s' := Next(s, StepPut(id));
    assert PutOk(s, id) && WinnerOk(s, id);
    forall i ensures CellOk(s', i) && WinnerOk(s', i) {
      assert CellOk(s, i) && WinnerOk(s, i);
      KeysApart(i, id, "", "");
      if i in s.puts { KeysApart(id, id, KeyOf(s.puts[i].intent), ""); }
    }
  }

  /** A loser that returns the winner's intent does not return its own. */
  lemma ReadKept(s: State, id: string)
    requires Inv(s) && Kept(s) && id in s.puts && (s.puts[id].step.ReadBinding? || s.puts[id].step.ReadWinner?)
    ensures Kept(Next(s, StepPut(id)))
  {
    var s' := Next(s, StepPut(id));
    assert PutOk(s, id) && WinnerOk(s, id);
    ReadsOk(s, s.puts[id]);
    ReadsWinner(s, s.puts[id]);
    if s.puts[id].step.ReadWinner? { assert PutOk(s, s.puts[id].step.id); }
    forall i ensures CellOk(s', i) && WinnerOk(s', i) {
      assert CellOk(s, i) && WinnerOk(s, i);
    }
  }

  lemma OtherKept(s: State, e: Event)
    requires Kept(s) && !e.StepPut?
    ensures Kept(Next(s, e))
  {
    var s' := Next(s, e);
    forall i ensures CellOk(s', i) && WinnerOk(s', i) {
      assert CellOk(s, i) && WinnerOk(s, i);
    }
  }

  lemma NextKept(s: State, e: Event)
    requires Inv(s) && Kept(s)
    ensures Kept(Next(s, e))
  {
    if !e.StepPut? {
      OtherKept(s, e);
    } else if e.id in s.puts {
      match s.puts[e.id].step
      case Claiming => ClaimKept(s, e.id);
      case Write => WriteKept(s, e.id);
      case PutDone(_) => assert s.puts[e.id := s.puts[e.id]] == s.puts;
      case ReadBinding => ReadKept(s, e.id);
      case ReadWinner(_) => ReadKept(s, e.id);
    }
  }

  lemma {:induction false} RunKept(s: State, es: seq<Event>)
    requires Inv(s) && Kept(s)
    ensures Kept(Run(s, es)) && Inv(Run(s, es))
    decreases |es|
  {
    if es != [] {
      NextInv(s, es[0]);
      NextKept(s, es[0]);
      RunKept(Next(s, es[0]), es[1..]);
    }
  }

  lemma WinnerRead(s: State, id: string, w: string)
    requires Inv(s) && Kept(s) && id in s.puts && s.puts[id].step == ReadWinner(w)
    ensures w in s.puts
    ensures NextPut(s, s.puts[id]).1.step ==
      if s.puts[w].step.PutDone? && s.now < EndOf(s.puts[w].intent) then PutDone(s.puts[w].intent) else Write
  {
    assert PutOk(s, id);
    assert PutOk(s, w) && CellOk(s, w) && WinnerOk(s, w);
    var a, b := s.puts[w].intent, s.puts[id].intent;
    BindKeyHash(a.burnTxHash, b.burnTxHash, a.address, b.address, a.amount, b.amount);
  }

  /**
   * In every reachable state, a put that lost to w and is about to read w's intent
   * returns it if and only if w's own put has returned and its intent is less than 24 h
   * old; otherwise it goes on to store and return its own.
   */
  lemma LoserGetsWinnersIntentIff(now: int, es: seq<Event>, id: string, w: string)
    requires var s := Run(Start(now), es); id in s.puts && s.puts[id].step == ReadWinner(w)
    ensures var s := Run(Start(now), es);
      var s' := Next(s, StepPut(id));
      && w in s.puts && s.puts[w].won && KeyOf(s.puts[w].intent) == KeyOf(s.puts[id].intent)
      && (s'.puts[id].step == PutDone(s.puts[w].intent) <==> s.puts[w].step.PutDone? && s.now < EndOf(s.puts[w].intent))
      && (s'.puts[id].step == PutDone(s.puts[w].intent) || s'.puts[id].step == Write)
  {
    var s := Run(Start(now), es);
    RunKept(Start(now), es);
    assert PutOk(s, id);
    WinnerRead(s, id, w);
  }

  /**
   * In every reachable state a find looks up the put that won its tuple while that put's
   * intent is fresh, and then returns its intent if and only if that put has returned, the
   * intent is still fresh and for the hash that is asked for; otherwise it finds nothing.
   */
  lemma FindGetsWinnersIntentIff(now: int, es: seq<Event>, f: nat, w: string)
    requires var s := Run(Start(now), es); f in s.finds && w in s.puts && s.puts[w].won
    requires var s := Run(Start(now), es);
      var q := s.finds[f];
      BindKey(q.burnTxHash, q.address, q.amount) == KeyOf(s.puts[w].intent)
    ensures var s := Run(Start(now), es);
      var q, i := s.finds[f], s.puts[w].intent;
      var q' := Next(s, StepFind(f)).finds[f];
      var fresh' := s.now < i.createdAt + 86_400_000;
      && (q.step.LookUp? && fresh' ==> q'.step == Fetch(w))
      && (q.step == Fetch(w) ==> q'.step == FindDone(Some(w),
            if s.puts[w].step.PutDone? && fresh' && ReplayKey(i.burnTxHash) == ReplayKey(q.burnTxHash) then Some(i)
            else None))
  {
    var s := Run(Start(now), es);
    RunKept(Start(now), es);
    assert PutOk(s, w) && CellOk(s, w) && WinnerOk(s, w);
  }

  /** A put of this tuple that comes after the winner has only the winner's intent to return. */
  predicate Follows(s: State, id: string, w: string)
    requires w in s.puts
  {
    id in s.puts && KeyOf(s.puts[id].intent) == KeyOf(s.puts[w].intent) ==>
      && !s.puts[id].won
      && match s.puts[id].step
         case Claiming => true
         case ReadBinding => true
         case ReadWinner(seen) => seen == w
         case PutDone(r) => r == s.puts[w].intent
         case Write => false
  }

  lemma NextFollows(s: State, e: Event, id: string, w: string)
    requires Inv(s) && Kept(s) && w in s.puts && s.puts[w].won && s.puts[w].step.PutDone? && id != w
    requires s.now < EndOf(s.puts[w].intent) && Follows(s, id, w)
    ensures w in Next(s, e).puts && Next(s, e).puts[w] == s.puts[w] && Follows(Next(s, e), id, w)
  {
    DoneStays(s, e, w);
    if e == StepPut(id) && id in s.puts && KeyOf(s.puts[id].intent) == KeyOf(s.puts[w].intent) {
      StepFollows(s, id, w);
    }
  }

  /** A put that has returned has returned. */
  lemma DoneStays(s: State, e: Event, w: string)
    requires w in s.puts && s.puts[w].step.PutDone?
    ensures w in Next(s, e).puts && Next(s, e).puts[w] == s.puts[w]
  {
  }

  lemma StepFollows(s: State, id: string, w: string)
    requires Inv(s) && Kept(s) && w in s.puts && s.puts[w].won && s.puts[w].step.PutDone?
    requires s.now < EndOf(s.puts[w].intent) && Follows(s, id, w)
    requires id in s.puts && KeyOf(s.puts[id].intent) == KeyOf(s.puts[w].intent)
    ensures var p := NextPut(s, s.puts[id]).1;
      && p.intent == s.puts[id].intent && !p.won
      && match p.step
         case Claiming => true
         case ReadBinding => true
         case ReadWinner(seen) => seen == w
         case PutDone(r) => r == s.puts[w].intent
         case Write => false
  {
    assert PutOk(s, w) && WinnerOk(s, w);
    if s.puts[id].step.ReadWinner? { WinnerRead(s, id, w); }
  }

  lemma {:induction false} RunFollows(s: State, es: seq<Event>, id: string, w: string)
    requires Inv(s) && Kept(s) && w in s.puts && s.puts[w].won && s.puts[w].step.PutDone? && id != w
    requires Run(s, es).now < EndOf(s.puts[w].intent) && Follows(s, id, w)
    ensures w in Run(s, es).puts && Run(s, es).puts[w] == s.puts[w] && Follows(Run(s, es), id, w)
    decreases |es|
  {
    if es != [] {
      TimeGoesOn(s, es);
      NextFollows(s, es[0], id, w);
      NextInv(s, es[0]);
      NextKept(s, es[0]);
      RunFollows(Next(s, es[0]), es[1..], id, w);
    }
  }

  /**
   * If the winner's put had returned before another put on its tuple started, and the
   * winner's intent is less than 24 h old when that other put returns, it returns the
   * winner's intent.
   */
  lemma LateLoserGetsWinnersIntent(now: int, before: seq<Event>, during: seq<Event>, id: string, w: string)
    requires var s := Run(Start(now), before);
      w in s.puts && s.puts[w].won && s.puts[w].step.PutDone? && id !in s.puts
    requires var s := Run(Start(now), before); var t := Run(s, during);
      && id in t.puts && t.puts[id].step.PutDone? && KeyOf(t.puts[id].intent) == KeyOf(s.puts[w].intent)
      && t.now < EndOf(s.puts[w].intent)
    ensures var s := Run(Start(now), before);
      Run(s, during).puts[id].step.result == s.puts[w].intent
  {
    RunKept(Start(now), before);
    RunFollows(Run(Start(now), before), during, id, w);
  }

  // ----- Where the code and its comment part: the loser does not always get the winner's intent

  lemma RunCons(s: State, e: Event, es: seq<Event>)
    ensures Run(s, [e] + es) == Run(Next(s, e), es)
  {
    assert ([e] + es)[1..] == es;
  }

  lemma FourSteps(s: State, e0: Event, e1: Event, e2: Event, e3: Event, rest: seq<Event>)
    ensures Run(s, [e0] + ([e1] + ([e2] + ([e3] + rest)))) == Run(Next(Next(Next(Next(s, e0), e1), e2), e3), rest)
  {
    RunCons(s, e0, [e1] + ([e2] + ([e3] + rest)));
    RunCons(Next(s, e0), e1, [e2] + ([e3] + rest));
    RunCons(Next(Next(s, e0), e1), e2, [e3] + rest);
    RunCons(Next(Next(Next(s, e0), e1), e2), e3, rest);
  }

  /** Two puts that may race for one tuple. */
  predicate Rivals(a: Intent, b: Intent, now: int) {
    && a.createdAt <= now && b.createdAt <= now
    && GoodId(a.intentId) && GoodId(b.intentId) && a.intentId != b.intentId
    && CanonicalHash(a.burnTxHash) && CanonicalHash(b.burnTxHash) && KeyOf(a) == KeyOf(b)
  }

  /** The first has claimed the tuple, the second has lost, and neither has written an intent. */
  function Lost(now: int, a: Intent, b: Intent): State {
    State(now, map[LegacyBindKey(KeyOf(a)) := Cell(IdText(a.intentId), Some(now + 1000 * EX))],
          map[a.intentId := Put(a, Write, true), b.intentId := Put(b, ReadBinding, false)], map[])
  }

  lemma FirstHalf(a: Intent, b: Intent, now: int)
    requires Rivals(a, b, now)
    ensures Next(Next(Next(Next(Start(now), StartPut(a)), StartPut(b)), StepPut(a.intentId)), StepPut(b.intentId))
      == Lost(now, a, b)
  {
    var s := State(now, map[], map[a.intentId := Put(a, Claiming, false),
      b.intentId := Put(b, Claiming, false)], map[]);
    assert Next(Next(Start(now), StartPut(a)), StartPut(b)) == s;
    FirstWins(s, a, b, now);
  }

  lemma FirstWins(s: State, a: Intent, b: Intent, now: int)
    requires Rivals(a, b, now)
    requires s == State(now, map[], map[a.intentId := Put(a, Claiming, false),
      b.intentId := Put(b, Claiming, false)], map[])
    ensures Next(Next(s, StepPut(a.intentId)), StepPut(b.intentId)) == Lost(now, a, b)
  {
  }

  /** Reading the winner's cell, which is not there yet. */
  lemma NothingWritten(now: int, a: Intent, b: Intent)
    requires Rivals(a, b, now)
    ensures var s := Lost(now, a, b); Read(s.redis, IntentKey(a.intentId), s.now) == None
    ensures var s := Lost(now, a, b); BoundId(Read(s.redis, LegacyBindKey(KeyOf(b)), s.now)) == Some(a.intentId)
  {
    KeysApart(a.intentId, b.intentId, KeyOf(a), KeyOf(a));
  }

  lemma SecondHalf(a: Intent, b: Intent, now: int)
    requires Rivals(a, b, now)
    ensures var j := StepPut(b.intentId);
      Next(Next(Next(Next(Lost(now, a, b), j), j), j), StepPut(a.intentId)).puts
        == map[a.intentId := Put(a, PutDone(a), true), b.intentId := Put(b, PutDone(b), false)]
  {
    var s, j := Lost(now, a, b), StepPut(b.intentId);
    NothingWritten(now, a, b);
    var s1 := s.(puts := s.puts[b.intentId := Put(b, ReadWinner(a.intentId), false)]);
    var s2 := s.(puts := s.puts[b.intentId := Put(b, Write, false)]);
    assert Next(s, j) == s1;
    assert Next(s1, j) == s2;
    BothWrite(s2, a, b, now);
  }

  lemma BothWrite(s: State, a: Intent, b: Intent, now: int)
    requires Rivals(a, b, now)
    requires s.puts == map[a.intentId := Put(a, Write, true), b.intentId := Put(b, Write, false)]
    ensures Next(Next(s, StepPut(b.intentId)), StepPut(a.intentId)).puts
         == map[a.intentId := Put(a, PutDone(a), true), b.intentId := Put(b, PutDone(b), false)]
  {
  }

  /**
   * Any two new puts on one tuple can end so: the second loses the SET NX, looks for
   * the winner before the winner has written its intent, finds nothing, and stores and
   * returns its own intent, with its own mode.
   */
  lemma LoserMayKeepItsOwnIntent(a: Intent, b: Intent, now: int)
    requires Rivals(a, b, now)
    ensures exists es :: Run(Start(now), es).puts == map[
      a.intentId := Put(a, PutDone(a), true), b.intentId := Put(b, PutDone(b), false)]
  {
    var es := Race(a.intentId, b.intentId, a, b);
    RaceRun(a, b, now);
    SecondHalf(a, b, now);
    assert Run(Start(now), es).puts
      == map[a.intentId := Put(a, PutDone(a), true), b.intentId := Put(b, PutDone(b), false)];
  }

  function Race(i: string, j: string, a: Intent, b: Intent): seq<Event> {
    [StartPut(a)] + ([StartPut(b)] + ([StepPut(i)] + ([StepPut(j)]
      + ([StepPut(j)] + ([StepPut(j)] + ([StepPut(j)] + ([StepPut(i)] + [])))))))
  }

  lemma RaceRun(a: Intent, b: Intent, now: int)
    requires Rivals(a, b, now)
    ensures var i, j := StepPut(a.intentId), StepPut(b.intentId);
      Run(Start(now), Race(a.intentId, b.intentId, a, b)) == Next(Next(Next(Next(Lost(now, a, b), j), j), j), i)
  {
    var i, j := StepPut(a.intentId), StepPut(b.intentId);
    FirstHalf(a, b, now);
    FourSteps(Start(now), StartPut(a), StartPut(b), i, j, [j] + ([j] + ([j] + ([i] + []))));
    FourSteps(Lost(now, a, b), j, j, j, i, []);
  }
}

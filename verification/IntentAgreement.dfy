// The two intent stores of apps/demo/server/kv.ts side by side: when they answer alike.

module IntentAgreement {
  import opened Wrappers
  import opened BurnHash
  import opened Intents

  datatype Request =
    | Put(intent: Intent)
    | Get(intentId: string, burnTxHash: string)
    | Find(burnTxHash: string, address: string, amount: string)
    | Has(burnTxHash: string, address: string, amount: string)

  datatype RequestAt = RequestAt(request: Request, now: int)

  datatype Reply = Stored(intent: Intent) | Found(found: Option<Intent>) | Bound(bound: bool)

  /** The reference's book and answer after one request. */
  function Served(kind: Kind, book: seq<Claim>, r: RequestAt): (seq<Claim>, Reply) {
    match r.request
    case Put(i) => var (book', stored) := BookPut(kind, book, i, r.now); (book', Stored(stored))
    case Get(id, h) => (book, Found(BookGet(kind, book, id, h, r.now)))
    case Find(h, a, m) => (book, Found(BookFind(kind, book, h, a, m, r.now)))
    case Has(h, a, m) => (book, Bound(BookHas(book, h, a, m, r.now)))
  }

  function Answers(kind: Kind, book: seq<Claim>, rs: seq<RequestAt>): seq<Reply>
    decreases |rs|
  {
    if rs == [] then []
    else
      var (book', answer) := Served(kind, book, rs[0]);
      [answer] + Answers(kind, book', rs[1..])
  }

  /** Every put brings a good id that no earlier one has brought, and a validated hash. */
  ghost predicate GoodPuts(rs: seq<RequestAt>, used: set<string>)
    decreases |rs|
  {
    rs != [] ==>
      match rs[0].request
      case Put(i) =>
        && GoodId(i.intentId) && CanonicalHash(i.burnTxHash) && i.intentId !in used
        && GoodPuts(rs[1..], used + {i.intentId})
      case _ => GoodPuts(rs[1..], used)
  }

  function UsedAfter(r: Request, used: set<string>): set<string> {
    if r.Put? then used + {r.intent.intentId} else used
  }

  ghost predicate UsesOnly(book: seq<Claim>, used: set<string>) {
    GoodBook(book) && forall c :: c in book ==> c.intent.intentId in used
  }

  /** The request leads to a binding, or an intent, whose put is in force but whose own 24 hours are over. */
  predicate InGap(book: seq<Claim>, r: RequestAt) {
    match r.request
    case Put(i) =>
      var c := Binding(book, KeyOf(i), r.now);
      c.Some? && !Fresh(c.value.intent, r.now)
    case Get(id, h) =>
      var i := BookGet(Memory, book, id, h, r.now);
      i.Some? && !Fresh(i.value, r.now)
    case Find(h, a, m) =>
      var i := BookFind(Memory, book, h, a, m, r.now);
      i.Some? && !Fresh(i.value, r.now)
    case Has(_, _, _) => false
  }

  predicate GapFree(book: seq<Claim>, rs: seq<RequestAt>)
    decreases |rs|
  {
    rs != [] ==> !InGap(book, rs[0]) && GapFree(Served(Memory, book, rs[0]).0, rs[1..])
  }

  /** One request: outside the gap both stores do and answer the same, inside it they answer differently. */
  lemma OneRequest(book: seq<Claim>, r: RequestAt, used: set<string>)
    requires UsesOnly(book, used) && (r.request.Put? ==> r.request.intent.intentId !in used)
    ensures if InGap(book, r) then Served(Memory, book, r).1 != Served(Kv, book, r).1
      else Served(Memory, book, r) == Served(Kv, book, r)
  {
  }

  lemma KeepsGoodPuts(kind: Kind, book: seq<Claim>, rs: seq<RequestAt>, used: set<string>)
    requires rs != [] && UsesOnly(book, used) && GoodPuts(rs, used)
    ensures UsesOnly(Served(kind, book, rs[0]).0, UsedAfter(rs[0].request, used))
    ensures GoodPuts(rs[1..], UsedAfter(rs[0].request, used))
  {
    var r := rs[0];
    if r.request.Put? {
      GoodAppend(book, Claim(r.request.intent, r.now, Binding(book, KeyOf(r.request.intent), r.now).None?));
    }
  }

  /** The stores answer a run of requests alike if and only if none of them comes in a gap. */
  lemma {:induction false} AlikeIffGapFree(book: seq<Claim>, rs: seq<RequestAt>, used: set<string>)
    requires UsesOnly(book, used) && GoodPuts(rs, used)
    ensures Answers(Memory, book, rs) == Answers(Kv, book, rs) <==> GapFree(book, rs)
    decreases |rs|
  {
    if rs != [] {
      OneRequest(book, rs[0], used);
      assert Answers(Memory, book, rs)[0] == Served(Memory, book, rs[0]).1;
      assert Answers(Kv, book, rs)[0] == Served(Kv, book, rs[0]).1;
      if !InGap(book, rs[0]) {
        KeepsGoodPuts(Memory, book, rs, used);
        var book' := Served(Memory, book, rs[0]).0;
        AlikeIffGapFree(book', rs[1..], UsedAfter(rs[0].request, used));
        assert Answers(Memory, book, rs)[1..] == Answers(Memory, book', rs[1..]);
        assert Answers(Kv, book, rs)[1..] == Answers(Kv, book', rs[1..]);
      }
    }
  }

  /** Intents that are put at the very time they carry, or before it, leave no gap. */
  lemma {:induction false} PromptPutsLeaveNoGap(book: seq<Claim>, rs: seq<RequestAt>)
    requires forall c :: c in book ==> c.at <= c.intent.createdAt
    requires forall r :: r in rs && r.request.Put? ==> r.now <= r.request.intent.createdAt
    ensures GapFree(book, rs)
    decreases |rs|
  {
    if rs != [] {
      assert rs[0] in rs;
      PromptPutsLeaveNoGap(Served(Memory, book, rs[0]).0, rs[1..]);
    }
  }

  /** And any put that lags leaves one: a find when the intent is 24 hours old, or at once if that is past. */
  lemma LaggingPutLeavesGap(i: Intent, now: int)
    requires i.createdAt < now
    ensures var late := if i.createdAt + INTENT_TTL_MS < now then now else i.createdAt + INTENT_TTL_MS;
      !GapFree([], [RequestAt(Put(i), now), RequestAt(Find(i.burnTxHash, i.address, i.amount), late)])
  {
    var late := if i.createdAt + INTENT_TTL_MS < now then now else i.createdAt + INTENT_TTL_MS;
    var put, find := RequestAt(Put(i), now), RequestAt(Find(i.burnTxHash, i.address, i.amount), late);
    Appended([], Claim(i, now, true));
    assert [] + [Claim(i, now, true)] == [Claim(i, now, true)];
    assert [put, find][1..] == [find];
    assert InGap(Served(Memory, [], put).0, find);
  }

  method AskMemory(store: MemoryIntentStore, r: RequestAt) returns (answer: Reply)
    requires store.Valid() && (r.request.Put? ==> Initiable(store.book, r.request.intent))
    modifies store
    ensures store.Valid() && (store.book, answer) == Served(Memory, old(store.book), r)
  {
    match r.request
    case Put(i) => var stored := store.Put(i, r.now); answer := Stored(stored);
    case Get(id, h) => var found := store.Get(id, h, r.now); answer := Found(found);
    case Find(h, a, m) => var found := store.Find(h, a, m, r.now); answer := Found(found);
    case Has(h, a, m) => var bound := store.Has(h, a, m, r.now); answer := Bound(bound);
  }

  method AskKv(store: KvIntentStore, r: RequestAt) returns (answer: Reply)
    requires store.Valid() && (r.request.Put? ==> Initiable(store.book, r.request.intent))
    modifies store
    ensures store.Valid() && (store.book, answer) == Served(Kv, old(store.book), r)
  {
    match r.request
    case Put(i) => var stored := store.Put(i, r.now); answer := Stored(stored);
    case Get(id, h) => var found := store.Get(id, h, r.now); answer := Found(found);
    case Find(h, a, m) => var found := store.Find(h, a, m, r.now); answer := Found(found);
    case Has(h, a, m) => var bound := store.Has(h, a, m, r.now); answer := Bound(bound);
  }

  lemma AnswersCons(kind: Kind, book: seq<Claim>, rs: seq<RequestAt>, i: nat)
    requires i < |rs|
    ensures var (book', answer) := Served(kind, book, rs[i]);
      Answers(kind, book, rs[i..]) == [answer] + Answers(kind, book', rs[i + 1..])
  {
    assert rs[i..][1..] == rs[i + 1..] && rs[i..][0] == rs[i];
  }

  /** Any requests, one after the other, put to a new in-memory store. */
  method DriveMemory(rs: seq<RequestAt>) returns (answers: seq<Reply>)
    requires GoodPuts(rs, {})
    ensures answers == Answers(Memory, [], rs)
  {
    var store := new MemoryIntentStore();
    answers := [];
    ghost var used: set<string> := {};
    assert rs[0..] == rs;
    for i := 0 to |rs|
      invariant fresh(store) && store.Valid() && UsesOnly(store.book, used) && GoodPuts(rs[i..], used)
      invariant answers + Answers(Memory, store.book, rs[i..]) == Answers(Memory, [], rs)
    {
      AnswersCons(Memory, store.book, rs, i);
      KeepsGoodPuts(Memory, store.book, rs[i..], used);
      assert rs[i..][1..] == rs[i + 1..] && rs[i..][0] == rs[i];
      used := UsedAfter(rs[i].request, used);
      var answer := AskMemory(store, rs[i]);
      answers := answers + [answer];
    }
  }

  /** And to a new Redis store. */
  method DriveKv(rs: seq<RequestAt>) returns (answers: seq<Reply>)
    requires GoodPuts(rs, {})
    ensures answers == Answers(Kv, [], rs)
  {
    var store := new KvIntentStore();
    answers := [];
    ghost var used: set<string> := {};
    assert rs[0..] == rs;
    for i := 0 to |rs|
      invariant fresh(store) && store.Valid() && UsesOnly(store.book, used) && GoodPuts(rs[i..], used)
      invariant answers + Answers(Kv, store.book, rs[i..]) == Answers(Kv, [], rs)
    {
      AnswersCons(Kv, store.book, rs, i);
      KeepsGoodPuts(Kv, store.book, rs[i..], used);
      assert rs[i..][1..] == rs[i + 1..] && rs[i..][0] == rs[i];
      used := UsedAfter(rs[i].request, used);
      var answer := AskKv(store, rs[i]);
      answers := answers + [answer];
    }
  }

  /**
   * The same requests put to two new stores, one of each kind: each answers as its
   * reference, and they answer alike from first to last if and only if no request leads
   * to an intent between the end of its own 24 hours and the end of its put's.
   */
  method DriveBoth(rs: seq<RequestAt>) returns (memory: seq<Reply>, kv: seq<Reply>)
    requires GoodPuts(rs, {})
    ensures memory == Answers(Memory, [], rs) && kv == Answers(Kv, [], rs)
    ensures memory == kv <==> GapFree([], rs)
  {
    memory := DriveMemory(rs);
    kv := DriveKv(rs);
    AlikeIffGapFree([], rs, {});
  }
}

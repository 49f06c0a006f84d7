// handleInitiate (apps/demo/server/handlers.ts) over the intent store, and why the
// settle machine may expect of the store what it expects.

module Initiate {
  import opened Wrappers
  import opened Text
  import opened BurnHash
  import opened UsdcAmount
  import opened Intents
  import opened SettleRules
  import opened SettleProtocol
  import Inputs

  /** The server prints the amounts that it stores. */
  ghost predicate Printed(amount: string) {
    exists n: nat :: amount == Print(n)
  }

  ghost predicate PrintedBook(book: seq<Claim>) {
    forall c :: c in book ==> Printed(c.intent.amount)
  }

  lemma ReplayKeyOfCanonical(h: string, h': string)
    requires CanonicalHash(h) && CanonicalHash(h') && ReplayKey(h) == ReplayKey(h')
    ensures h == h'
  {
    CanonicalIsFixed(h);
    CanonicalIsFixed(h');
  }

  lemma SameTuple(c: Intent, h: string, address: string, amount: string)
    requires CanonicalHash(c.burnTxHash) && CanonicalHash(h) && Printed(c.amount) && Printed(amount)
    requires KeyOf(c) == BindKey(h, address, amount)
    ensures c.burnTxHash == h && c.address == address && c.amount == amount
  {
    var m: nat :| c.amount == Print(m);
    var n: nat :| amount == Print(n);
    BindKeyIsTuple(c.burnTxHash, h, c.address, address, m, n);
  }

  /** A binding is in force whose intent the store no longer reads. */
  predicate Blind(kind: Kind, book: seq<Claim>, key: string, now: int) {
    Binding(book, key, now).Some? && IfReadable(kind, Binding(book, key, now), now).None?
  }

  /**
   * The intent that put returns is for the caller's own hash, address and amount. Under its
   * id get returns it at once, unless it is a newcomer that took over a day to be put over
   * Redis; and find returns it unless, in addition, the tuple's binding is blind.
   */
  lemma PutThenGet(kind: Kind, book: seq<Claim>, i: Intent, now: int)
    requires GoodBook(book) && PrintedBook(book) && Initiable(book, i) && Printed(i.amount)
    ensures var (book', stored) := BookPut(kind, book, i, now);
      && (BookGet(kind, book', stored.intentId, i.burnTxHash, now) == Some(stored)
          <==> stored != i || kind.Memory? || Fresh(i, now))
      && (BookFind(kind, book', i.burnTxHash, i.address, i.amount, now) == Some(stored)
          <==> stored != i || (!Blind(kind, book, KeyOf(i), now) && (kind.Memory? || Fresh(i, now))))
      && stored.burnTxHash == i.burnTxHash && stored.address == i.address && stored.amount == i.amount
      && PrintedBook(book')
  {
    var b := Binding(book, KeyOf(i), now);
    Appended(book, Claim(i, now, b.None?));
    if b.Some? {
      ClaimByIdUnique(book, b.value);
      SameTuple(b.value.intent, i.burnTxHash, i.address, i.amount);
    }
  }

  /** What the store answers is what the settle machine assumes of its intent reads. */
  lemma StoreAnswersAreFindable(sh: Shared, kind: Kind, book: seq<Claim>, q: SettleRequest, now: int)
    requires GoodBook(book) && PrintedBook(book) && CanonicalHash(q.params.hash)
    requires forall c :: c in book ==> c.intent in sh.recorded
    ensures Findable(sh, q, BookGet(kind, book, q.intentId, q.params.hash, now))
    ensures StatusFindable(sh, q, BookFind(kind, book, q.params.hash, q.params.address, Print(q.params.amount), now))
  {
    var got := BookGet(kind, book, q.intentId, q.params.hash, now);
    if got.Some? {
      ReplayKeyOfCanonical(got.value.burnTxHash, q.params.hash);
    }
    var found := BookFind(kind, book, q.params.hash, q.params.address, Print(q.params.amount), now);
    if found.Some? {
      assert Printed(Print(q.params.amount));
      SameTuple(found.value, q.params.hash, q.params.address, Print(q.params.amount));
    }
  }

  lemma IntentIsInitiable(env: Env, input: InitiateInput, intentId: string, now: int)
    requires InitiateIntent(env, input, intentId, now).Some?
    ensures var i := InitiateIntent(env, input, intentId, now).value;
      i.intentId == intentId && CanonicalHash(i.burnTxHash) && i.createdAt == now && Printed(i.amount)
  {
    NormalisationsAgree(input.burnTxHash);
  }

  /** What handleInitiate passes to put, or the answer with which it refuses. */
  function IntentOrRefusal(env: Env, input: InitiateInput, admitted: bool, newId: string, now: int)
    : Result<Intent, Answer>
  {
    if !admitted then Err(RATE_LIMITED)
    else
      match InitiateIntent(env, input, newId, now)
      case None => Err(INVALID)
      case Some(i) => Ok(i)
  }

  /** The book and the answer after a call whose put comes at putAt. */
  function AfterInitiate(kind: Kind, book: seq<Claim>, accepted: Result<Intent, Answer>, putAt: int)
    : (seq<Claim>, Result<string, Answer>)
  {
    match accepted
    case Err(a) => (book, Err(a))
    case Ok(i) => var (book', stored) := BookPut(kind, book, i, putAt); (book', Ok(stored.intentId))
  }

  /** A new id: good, and in no claim. */
  ghost predicate NewId(book: seq<Claim>, id: string) {
    GoodId(id) && forall c :: c in book ==> c.intent.intentId != id
  }

  /**
   * handleInitiate over the in-memory store, which reads its own clock at putAt: a refused
   * call leaves the store as it was, an accepted one answers with the id of the intent in
   * force, first claimer first.
   */
  method HandleInitiate(env: Env, input: InitiateInput, admitted: bool, newId: string, store: MemoryIntentStore,
    now: int, putAt: int)
    returns (r: Result<string, Answer>)
    requires store.Valid() && NewId(store.book, newId)
    modifies store
    ensures store.Valid()
    ensures (store.book, r)
         == AfterInitiate(Memory, old(store.book), IntentOrRefusal(env, input, admitted, newId, now), putAt)
  {
    var intent := IntentOrRefusal(env, input, admitted, newId, now);
    if intent.Err? {
      return Err(intent.error);
    }
    IntentIsInitiable(env, input, newId, now);
    var stored := store.Put(intent.value, putAt);
    return Ok(stored.intentId);
  }

  /** The same over the Redis store, which the deployed API passes. */
  method HandleInitiateKv(env: Env, input: InitiateInput, admitted: bool, newId: string, store: KvIntentStore,
    now: int, putAt: int)
    returns (r: Result<string, Answer>)
    requires store.Valid() && NewId(store.book, newId)
    modifies store
    ensures store.Valid()
    ensures (store.book, r)
         == AfterInitiate(Kv, old(store.book), IntentOrRefusal(env, input, admitted, newId, now), putAt)
  {
    var intent := IntentOrRefusal(env, input, admitted, newId, now);
    if intent.Err? {
      return Err(intent.error);
    }
    IntentIsInitiable(env, input, newId, now);
    var stored := store.Put(intent.value, putAt);
    return Ok(stored.intentId);
  }

  /** The intent is for the address, the hash and the amount that the caller's texts name. */
  predicate OfTransfer(input: InitiateInput, i: Intent) {
    && i.address == Trim(input.address) && ParseHash(input.burnTxHash) == Some(i.burnTxHash)
    && ParseAmountBase6(input.amount).Ok? && i.amount == Print(ParseAmountBase6(input.amount).value)
  }

  /**
   * What an answer means: a refusal changes nothing; an id names an intent of the caller's
   * own hash, address and amount, which get returns at once if the put came within a day
   * (or over the in-memory store), and so does find if and only if the binding was not blind.
   */
  lemma AnswerMeans(env: Env, kind: Kind, book: seq<Claim>, input: InitiateInput, admitted: bool, newId: string,
    now: int, putAt: int)
    requires GoodBook(book) && PrintedBook(book) && NewId(book, newId)
    ensures var (book', r) := AfterInitiate(kind, book, IntentOrRefusal(env, input, admitted, newId, now), putAt);
      && (r == Err(RATE_LIMITED) <==> !admitted)
      && (r == Err(INVALID) <==> admitted && InitiateIntent(env, input, newId, now).None?)
      && (r.Err? ==> book' == book)
      && (r.Ok? ==>
            var i := InitiateIntent(env, input, newId, now).value;
            var got := BookGet(kind, book', r.value, i.burnTxHash, putAt);
            && (got.Some? ==> OfTransfer(input, got.value))
            && (kind.Memory? || putAt < now + 86_400_000 ==>
                  && got.Some?
                  && (got == BookFind(kind, book', i.burnTxHash, i.address, i.amount, putAt)
                      <==> !Blind(kind, book, KeyOf(i), putAt))))
  {
    if admitted && InitiateIntent(env, input, newId, now).Some? {
      var i := InitiateIntent(env, input, newId, now).value;
      IntentIsInitiable(env, input, newId, now);
      Inputs.AcceptedStores(env, input, newId, now);
      PutThenGet(kind, book, i, putAt);
      assert BookPut(kind, book, i, putAt).1 != i ==> !Blind(kind, book, KeyOf(i), putAt);
    }
  }

  // ----- From an initiate to the settle and the status calls for it

  /** The two bodies name one transfer: the same address, hash, amount, domain and mode, however they spell them. */
  predicate SameTransfer(i: InitiateInput, body: SettleInput) {
    && Trim(body.address) == Trim(i.address) && ParseHash(body.burnTxHash) == ParseHash(i.burnTxHash)
    && ParseAmountBase6(body.amount) == ParseAmountBase6(i.amount)
    && body.sourceDomain == i.sourceDomain && body.mode == i.mode
  }

  /** The first claim of a tuple is read back under its id and on its tuple for as long as it can be read. */
  lemma FirstClaimIsRead(kind: Kind, book: seq<Claim>, i: Intent, putAt: int, readAt: int)
    requires GoodBook(book) && Initiable(book, i) && Binding(book, KeyOf(i), putAt).None?
    requires readAt < putAt + INTENT_TTL_MS && (kind.Kv? ==> Fresh(i, readAt))
    ensures var (book', stored) := BookPut(kind, book, i, putAt);
      && stored == i && BookGet(kind, book', i.intentId, i.burnTxHash, readAt) == Some(i)
      && BookFind(kind, book', i.burnTxHash, i.address, i.amount, readAt) == Some(i)
  {
    Appended(book, Claim(i, putAt, true));
  }

  /** A body that names the initiate's transfer is a valid request, refused by its intent only for the cap on mints. */
  lemma SameTransferPasses(env: Env, input: InitiateInput, id: string, now: int, body: SettleInput)
    requires InitiateIntent(env, input, id, now).Some? && id != ""
    requires SameTransfer(input, body) && Trim(body.intentId) == id
    ensures ValidateSettle(env, body).Some?
    ensures var i, q := InitiateIntent(env, input, id, now).value, ValidateSettle(env, body).value;
      && q.intentId == id && q.params.hash == i.burnTxHash
      && IntentRefusal(env, i, q) == if env.maxMintBase6.Some? && q.params.amount > env.maxMintBase6.value
           then Some(Refused(400, AmountTooLarge)) else None
  {
    var i := InitiateIntent(env, input, id, now).value;
    Inputs.AcceptedStores(env, input, id, now);
    var p := Params(i.address, i.burnTxHash, ParseAmountBase6(input.amount).value, 6);
    var q := SettleRequest(p, i.transferMode, id);
    Inputs.SettleIff(env, body, q);
    Inputs.PassesIff(env, i, q, p.amount);
  }

  /**
   * An initiate that claims its tuple is good for a settle: for every cap on the fee, a body
   * that names the same transfer and the returned id is a valid request, reads back the
   * claimed intent for as long as that can be read, and passes every check of it but the
   * deployment's own cap on mints.
   */
  lemma InitiateThenSettle(env: Env, kind: Kind, book: seq<Claim>, input: InitiateInput, newId: string,
    now: int, putAt: int, body: SettleInput, readAt: int)
    requires GoodBook(book) && NewId(book, newId) && InitiateIntent(env, input, newId, now).Some?
    requires Binding(book, KeyOf(InitiateIntent(env, input, newId, now).value), putAt).None?
    requires SameTransfer(input, body) && Trim(body.intentId) == newId
    requires readAt < putAt + 86_400_000 && (kind.Kv? ==> readAt < now + 86_400_000)
    ensures ValidateSettle(env, body).Some?
    ensures var i, q := InitiateIntent(env, input, newId, now).value, ValidateSettle(env, body).value;
      var (book', r) := AfterInitiate(kind, book, Ok(i), putAt);
      && r == Ok(newId) && BookGet(kind, book', q.intentId, q.params.hash, readAt) == Some(i)
      && IntentRefusal(env, i, q) == if env.maxMintBase6.Some? && q.params.amount > env.maxMintBase6.value
           then Some(Refused(400, AmountTooLarge)) else None
  {
    IntentIsInitiable(env, input, newId, now);
    FirstClaimIsRead(kind, book, InitiateIntent(env, input, newId, now).value, putAt, readAt);
    SameTransferPasses(env, input, newId, now, body);
  }

  /** And for a status call: a query with the same three texts finds the claimed intent. */
  lemma InitiateThenStatus(env: Env, kind: Kind, book: seq<Claim>, input: InitiateInput, newId: string,
    now: int, putAt: int, readAt: int)
    requires GoodBook(book) && NewId(book, newId) && InitiateIntent(env, input, newId, now).Some?
    requires Binding(book, KeyOf(InitiateIntent(env, input, newId, now).value), putAt).None?
    requires readAt < putAt + 86_400_000 && (kind.Kv? ==> readAt < now + 86_400_000)
    ensures var query := ValidateStatus(env, StatusInput(input.address, input.burnTxHash, input.amount));
      && query.Some?
      && var i, p := InitiateIntent(env, input, newId, now).value, query.value.params;
        var (book', _) := AfterInitiate(kind, book, Ok(i), putAt);
        BookFind(kind, book', p.hash, p.address, Print(p.amount), readAt) == Some(i)
  {
    var i := InitiateIntent(env, input, newId, now).value;
    Inputs.AcceptedStores(env, input, newId, now);
    Inputs.StatusIff(env, StatusInput(input.address, input.burnTxHash, input.amount));
    assert Inputs.Names(env, input.address, input.burnTxHash, input.amount,
      Params(i.address, i.burnTxHash, ParseAmountBase6(input.amount).value, 6));
    IntentIsInitiable(env, input, newId, now);
    FirstClaimIsRead(kind, book, i, putAt, readAt);
  }
}

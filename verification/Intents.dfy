// MemoryIntentStore and KvIntentStore (apps/demo/server/kv.ts): two stores of mint
// intents that must make the same first-claimer decisions.

module Intents {
  import opened Wrappers
  import opened Text
  import opened BurnHash
  import opened Redis
  import opened Transfers

  const INTENT_TTL_MS: nat := 24 * 60 * 60 * 1000

  datatype Intent = Intent(
    intentId: string, burnTxHash: string, address: string, amount: string,
    sourceDomain: int, transferMode: Mode, maxFee: Option<string>, createdAt: int)

  function BindKey(burnTxHash: string, address: string, amount: string): string {
    ReplayKey(burnTxHash) + "|" + address + "|" + amount
  }

  function KeyOf(i: Intent): string {
    BindKey(i.burnTxHash, i.address, i.amount)
  }

  predicate Fresh(i: Intent, now: int) {
    now < i.createdAt + INTENT_TTL_MS
  }

  // ----- The reference: a book of claims, oldest first

  /** What a put that stored its intent has left: the intent, the time of the put, and whether it bound the tuple. */
  datatype Claim = Claim(intent: Intent, at: int, bound: bool)

  /** KvIntentStore reads no intent that is past its own 24 hours, MemoryIntentStore goes by the put alone. */
  datatype Kind = Memory | Kv

  function LastBound(book: seq<Claim>, key: string): (r: Option<Claim>)
    ensures r.Some? ==> r.value in book && r.value.bound && KeyOf(r.value.intent) == key
    ensures r.None? ==> forall c :: c in book && c.bound ==> KeyOf(c.intent) != key
  {
    if book == [] then None
    else
      var last := book[|book| - 1];
      if last.bound && KeyOf(last.intent) == key then Some(last) else LastBound(book[..|book| - 1], key)
  }

  function ClaimById(book: seq<Claim>, id: string): (r: Option<Claim>)
    ensures r.Some? ==> r.value in book && r.value.intent.intentId == id
    ensures r.None? ==> forall c :: c in book ==> c.intent.intentId != id
  {
    if book == [] then None
    else if book[|book| - 1].intent.intentId == id then Some(book[|book| - 1])
    else ClaimById(book[..|book| - 1], id)
  }

  /** What the put wrote is still there. */
  predicate InForce(c: Claim, now: int) {
    now < c.at + INTENT_TTL_MS
  }

  predicate Readable(kind: Kind, c: Claim, now: int) {
    InForce(c, now) && (kind.Kv? ==> Fresh(c.intent, now))
  }

  function IfReadable(kind: Kind, c: Option<Claim>, now: int): Option<Intent> {
    if c.Some? && Readable(kind, c.value, now) then Some(c.value.intent) else None
  }

  function OfHash(i: Option<Intent>, burnTxHash: string): Option<Intent> {
    if i.Some? && ReplayKey(i.value.burnTxHash) == ReplayKey(burnTxHash) then i else None
  }

  /** The binding in force on a tuple. */
  function Binding(book: seq<Claim>, key: string, now: int): Option<Claim> {
    var c := LastBound(book, key);
    if c.Some? && InForce(c.value, now) then c else None
  }

  /**
   * put: the binding in force wins if its intent can be read; without one the newcomer
   * binds the tuple; and beside one that cannot be read it is stored unbound.
   */
  function BookPut(kind: Kind, book: seq<Claim>, intent: Intent, now: int): (seq<Claim>, Intent) {
    var binding := Binding(book, KeyOf(intent), now);
    match IfReadable(kind, binding, now)
    case Some(winner) => (book, winner)
    case None => (book + [Claim(intent, now, binding.None?)], intent)
  }

  function BookGet(kind: Kind, book: seq<Claim>, intentId: string, burnTxHash: string, now: int): Option<Intent> {
    OfHash(IfReadable(kind, ClaimById(book, intentId), now), burnTxHash)
  }

  function BookFind(kind: Kind, book: seq<Claim>, burnTxHash: string, address: string, amount: string, now: int)
    : Option<Intent>
  {
    OfHash(IfReadable(kind, Binding(book, BindKey(burnTxHash, address, amount), now), now), burnTxHash)
  }

  predicate BookHas(book: seq<Claim>, burnTxHash: string, address: string, amount: string, now: int) {
    Binding(book, BindKey(burnTxHash, address, amount), now).Some?
  }

  /** No intent id can be mistaken for a binding key. */
  predicate GoodId(id: string) {
    id != "" && !("bind:" <= id)
  }

  ghost predicate GoodBook(book: seq<Claim>) {
    && (forall c :: c in book ==> GoodId(c.intent.intentId) && CanonicalHash(c.intent.burnTxHash))
    && (forall i, j :: 0 <= i < j < |book| ==> book[i].intent.intentId != book[j].intent.intentId)
  }

  /** What handleInitiate passes to put: a new id and a validated hash. */
  ghost predicate Initiable(book: seq<Claim>, intent: Intent) {
    && GoodId(intent.intentId) && CanonicalHash(intent.burnTxHash)
    && (forall c :: c in book ==> c.intent.intentId != intent.intentId)
  }

  lemma ClaimByIdUnique(book: seq<Claim>, c: Claim)
    requires GoodBook(book) && c in book
    ensures ClaimById(book, c.intent.intentId) == Some(c)
  {
  }

  lemma Appended(book: seq<Claim>, c: Claim)
    ensures forall key :: LastBound(book + [c], key) == if c.bound && key == KeyOf(c.intent) then Some(c)
      else LastBound(book, key)
    ensures forall id :: ClaimById(book + [c], id) == if id == c.intent.intentId then Some(c)
      else ClaimById(book, id)
  {
    assert (book + [c])[..|book|] == book;
  }

  /** With canonical hashes a shared binding key means a shared hash. */
  lemma BindKeyHash(h: string, h': string, a: string, a': string, m: string, m': string)
    requires CanonicalHash(h) && CanonicalHash(h')
    requires BindKey(h, a, m) == BindKey(h', a', m')
    ensures h == h'
  {
    CanonicalIsFixed(h);
    CanonicalIsFixed(h');
    assert BindKey(h, a, m)[..66] == h && BindKey(h', a', m')[..66] == h';
  }

  /** The last bar of a text ending in digits separates the digits. */
  lemma LastBar(a: string, a': string, m: string, m': string)
    requires AllDigits(m) && AllDigits(m')
    requires a + "|" + m == a' + "|" + m'
    ensures a == a' && m == m'
  {
    var s := a + "|" + m;
    assert s[|a|] == '|' && s[|a'|] == '|';
    assert !IsDigit('|');
    assert s[..|a|] == a && s[|a| + 1..] == m;
    assert s[..|a'|] == a' && s[|a'| + 1..] == m';
  }

  lemma BindKeyTail(h: string, a: string, m: string)
    requires CanonicalHash(h)
    ensures BindKey(h, a, m)[67..] == a + "|" + m
  {
    CanonicalIsFixed(h);
    AfterFirstBar(h, a, m);
  }

  lemma AfterFirstBar(h: string, a: string, m: string)
    ensures (h + "|" + a + "|" + m)[|h| + 1..] == a + "|" + m
  {
  }

  /** With canonical hashes and amounts printed by the server, a binding key is its tuple. */
  lemma {:induction false} BindKeyIsTuple(h: string, h': string, a: string, a': string, m: nat, m': nat)
    requires CanonicalHash(h) && CanonicalHash(h')
    requires BindKey(h, a, Print(m)) == BindKey(h', a', Print(m'))
    ensures h == h' && a == a' && m == m'
  {
    BindKeyHash(h, h', a, a', Print(m), Print(m'));
    BindKeyTail(h, a, Print(m));
    BindKeyTail(h', a', Print(m'));
    LastBar(a, a', Print(m), Print(m'));
  }

  // ----- MemoryIntentStore

  datatype Entry<T> = Entry(item: T, expiresAt: int)

  function Live<T>(entries: map<string, Entry<T>>, key: string, now: int): Option<T> {
    if key in entries && now < entries[key].expiresAt then Some(entries[key].item) else None
  }

  ghost predicate EntryMatches(book: seq<Claim>, intents: map<string, Entry<Intent>>, id: string) {
    match ClaimById(book, id)
    case Some(c) => id in intents && intents[id] == Entry(c.intent, c.at + INTENT_TTL_MS)
    case None => id !in intents
  }

  ghost predicate BindingMatches(book: seq<Claim>, bindings: map<string, Entry<string>>, key: string) {
    match LastBound(book, key)
    case Some(c) => key in bindings && bindings[key] == Entry(c.intent.intentId, c.at + INTENT_TTL_MS)
    case None => key !in bindings
  }

  /** Every claim has its entry, with the lifetime of its put, and there are no other entries. */
  ghost predicate IntentsMatch(book: seq<Claim>, intents: map<string, Entry<Intent>>) {
    forall id :: EntryMatches(book, intents, id)
  }

  /** Every bound tuple points at its last claim, with that claim's lifetime. */
  ghost predicate BindingsMatch(book: seq<Claim>, bindings: map<string, Entry<string>>) {
    forall key :: BindingMatches(book, bindings, key)
  }

  lemma IntentsAppend(book: seq<Claim>, intents: map<string, Entry<Intent>>, c: Claim)
    requires IntentsMatch(book, intents)
    ensures IntentsMatch(book + [c], intents[c.intent.intentId := Entry(c.intent, c.at + INTENT_TTL_MS)])
  {
    var intents' := intents[c.intent.intentId := Entry(c.intent, c.at + INTENT_TTL_MS)];
    Appended(book, c);
    forall id ensures EntryMatches(book + [c], intents', id) {
      assert EntryMatches(book, intents, id);
    }
  }

  lemma BindingsAppend(book: seq<Claim>, bindings: map<string, Entry<string>>, c: Claim)
    requires BindingsMatch(book, bindings) && c.bound
    ensures BindingsMatch(book + [c], bindings[KeyOf(c.intent) := Entry(c.intent.intentId, c.at + INTENT_TTL_MS)])
  {
    var bindings' := bindings[KeyOf(c.intent) := Entry(c.intent.intentId, c.at + INTENT_TTL_MS)];
    Appended(book, c);
    forall key ensures BindingMatches(book + [c], bindings', key) {
      assert BindingMatches(book, bindings, key);
    }
  }

  lemma GoodAppend(book: seq<Claim>, c: Claim)
    requires GoodBook(book) && Initiable(book, c.intent)
    ensures GoodBook(book + [c])
  {
  }

  lemma BindingEntry(book: seq<Claim>, bindings: map<string, Entry<string>>, key: string, now: int)
    requires BindingsMatch(book, bindings)
    ensures Live(bindings, key, now)
         == if Binding(book, key, now).Some? then Some(Binding(book, key, now).value.intent.intentId) else None
  {
    assert BindingMatches(book, bindings, key);
  }

  lemma IntentEntry(book: seq<Claim>, intents: map<string, Entry<Intent>>, id: string, now: int)
    requires IntentsMatch(book, intents)
    ensures Live(intents, id, now) == IfReadable(Memory, ClaimById(book, id), now)
  {
    assert EntryMatches(book, intents, id);
  }

  ghost predicate MemoryMatches(book: seq<Claim>, intents: map<string, Entry<Intent>>,
    bindings: map<string, Entry<string>>)
  {
    GoodBook(book) && IntentsMatch(book, intents) && BindingsMatch(book, bindings)
  }

  lemma MemoryAppend(book: seq<Claim>, intents: map<string, Entry<Intent>>, bindings: map<string, Entry<string>>,
    c: Claim)
    requires MemoryMatches(book, intents, bindings) && Initiable(book, c.intent) && c.bound
    ensures MemoryMatches(book + [c],
      intents[c.intent.intentId := Entry(c.intent, c.at + INTENT_TTL_MS)],
      bindings[KeyOf(c.intent) := Entry(c.intent.intentId, c.at + INTENT_TTL_MS)])
  {
    IntentsAppend(book, intents, c);
    BindingsAppend(book, bindings, c);
    GoodAppend(book, c);
  }

  /** The binding in force leads to its intent. */
  lemma WinnerEntry(book: seq<Claim>, intents: map<string, Entry<Intent>>, key: string, now: int)
    requires GoodBook(book) && IntentsMatch(book, intents) && Binding(book, key, now).Some?
    ensures var c := Binding(book, key, now).value; Live(intents, c.intent.intentId, now) == Some(c.intent)
  {
    var c := Binding(book, key, now).value;
    IntentEntry(book, intents, c.intent.intentId, now);
    ClaimByIdUnique(book, c);
  }

  class MemoryIntentStore {
    var intents: map<string, Entry<Intent>>
    var bindings: map<string, Entry<string>>
    ghost var book: seq<Claim>

    ghost predicate Valid()
      reads this
    {
      MemoryMatches(book, intents, bindings)
    }

    constructor ()
      ensures Valid() && book == []
    {
      intents, bindings, book := map[], map[], [];
    }

    method Put(intent: Intent, now: int) returns (stored: Intent)
      requires Valid() && Initiable(book, intent)
      modifies this
      ensures Valid() && (book, stored) == BookPut(Memory, old(book), intent, now)
    {
      var key := KeyOf(intent);
      BindingEntry(book, bindings, key, now);
      var claimed := Live(bindings, key, now);
      if claimed.Some? {
        var winner := Live(intents, claimed.value, now);
        WinnerEntry(book, intents, key, now);
        if winner.Some? {
          return winner.value;
        }
      }
      Bind(intent, now);
      return intent;
    }

    /** The two writes of a put that wins. */
    method Bind(intent: Intent, now: int)
      requires Valid() && Initiable(book, intent)
      modifies this
      ensures Valid() && book == old(book) + [Claim(intent, now, true)]
    {
      var expiresAt := now + INTENT_TTL_MS;
      ghost var claim := Claim(intent, now, true);
      MemoryAppend(book, intents, bindings, claim);
      intents := intents[intent.intentId := Entry(intent, expiresAt)];
      bindings := bindings[KeyOf(intent) := Entry(intent.intentId, expiresAt)];
      book := book + [claim];
    }

    method Get(intentId: string, burnTxHash: string, now: int) returns (r: Option<Intent>)
      requires Valid()
      ensures r == BookGet(Memory, book, intentId, burnTxHash, now)
    {
      IntentEntry(book, intents, intentId, now);
      var entry := Live(intents, intentId, now);
      if entry.None? {
        return None;
      }
      r := if ReplayKey(entry.value.burnTxHash) == ReplayKey(burnTxHash) then Some(entry.value) else None;
    }

    method Find(burnTxHash: string, address: string, amount: string, now: int) returns (r: Option<Intent>)
      requires Valid()
      ensures r == BookFind(Memory, book, burnTxHash, address, amount, now)
    {
      var key := BindKey(burnTxHash, address, amount);
      BindingEntry(book, bindings, key, now);
      var binding := Live(bindings, key, now);
      if binding.None? {
        return None;
      }
      ClaimByIdUnique(book, LastBound(book, key).value);
      r := Get(binding.value, burnTxHash, now);
    }

    method Has(burnTxHash: string, address: string, amount: string, now: int) returns (b: bool)
      requires Valid()
      ensures b == BookHas(book, burnTxHash, address, amount, now)
    {
      BindingEntry(book, bindings, BindKey(burnTxHash, address, amount), now);
      b := Live(bindings, BindKey(burnTxHash, address, amount), now).Some?;
    }
  }

  // ----- KvIntentStore

  /** What a Redis cell of the intent store holds: an intent id, or an intent as JSON. */
  datatype Value = IdText(id: string) | IntentJson(intent: Intent)

  type Db = map<string, Cell<Value>>

  function IntentKey(intentId: string): string {
    "intent:" + intentId
  }

  function LegacyBindKey(key: string): string {
    "intent:bind:" + key
  }

  /** parse: an id text is not the JSON of an intent, and an intent's own age counts too. */
  function Parse(raw: Option<Value>, now: int): Option<Intent> {
    if raw.Some? && raw.value.IntentJson? && Fresh(raw.value.intent, now) then Some(raw.value.intent) else None
  }

  /** The reading half of find: the bound id, if a non-empty text is stored. */
  function BoundId(raw: Option<Value>): Option<string> {
    if raw.Some? && raw.value.IdText? && raw.value.id != "" then Some(raw.value.id) else None
  }

  lemma KeysApart(id: string, id': string, key: string, key': string)
    ensures IntentKey(id) == IntentKey(id') ==> id == id'
    ensures LegacyBindKey(key) == LegacyBindKey(key') ==> key == key'
    ensures IntentKey(id) == LegacyBindKey(key) <==> id == "bind:" + key
  {
    assert IntentKey(id)[7..] == id && IntentKey(id')[7..] == id';
    assert LegacyBindKey(key)[12..] == key && LegacyBindKey(key')[12..] == key';
    assert LegacyBindKey(key)[7..] == "bind:" + key;
    assert IntentKey("bind:" + key) == LegacyBindKey(key);
  }

  ghost predicate CellMatches(book: seq<Claim>, redis: Db, id: string) {
    match ClaimById(book, id)
    case Some(c) => IntentKey(id) in redis
      && redis[IntentKey(id)] == Cell(IntentJson(c.intent), Some(c.at + INTENT_TTL_MS))
    case None => IntentKey(id) in redis ==> redis[IntentKey(id)].value.IdText?
  }

  ghost predicate BoundMatches(book: seq<Claim>, redis: Db, key: string) {
    match LastBound(book, key)
    case Some(c) => LegacyBindKey(key) in redis
      && redis[LegacyBindKey(key)] == Cell(IdText(c.intent.intentId), Some(c.at + INTENT_TTL_MS))
    case None => LegacyBindKey(key) !in redis
  }

  /** One intent cell per claim and one binding cell per bound tuple. */
  ghost predicate DbMatches(book: seq<Claim>, redis: Db) {
    (forall id :: CellMatches(book, redis, id)) && (forall key :: BoundMatches(book, redis, key))
  }

  /** The database after the writes of a put that stores its intent. */
  function Claimed(redis: Db, c: Claim): Db {
    var ex := Some(c.at + INTENT_TTL_MS);
    var bound :=
      if c.bound then redis[LegacyBindKey(KeyOf(c.intent)) := Cell(IdText(c.intent.intentId), ex)] else redis;
    bound[IntentKey(c.intent.intentId) := Cell(IntentJson(c.intent), ex)]
  }

  lemma CellAfterClaim(book: seq<Claim>, redis: Db, c: Claim, id: string)
    requires CellMatches(book, redis, id) && GoodBook(book)
    ensures CellMatches(book + [c], Claimed(redis, c), id)
  {
    Appended(book, c);
    KeysApart(id, c.intent.intentId, KeyOf(c.intent), KeyOf(c.intent));
    if ClaimById(book, id).Some? { assert GoodId(id); }
  }

  lemma BoundAfterClaim(book: seq<Claim>, redis: Db, c: Claim, key: string)
    requires BoundMatches(book, redis, key) && GoodId(c.intent.intentId)
    ensures BoundMatches(book + [c], Claimed(redis, c), key)
  {
    Appended(book, c);
    KeysApart(c.intent.intentId, c.intent.intentId, key, KeyOf(c.intent));
    KeysApart(c.intent.intentId, c.intent.intentId, KeyOf(c.intent), key);
  }

  lemma KvAppend(book: seq<Claim>, redis: Db, c: Claim)
    requires DbMatches(book, redis) && GoodBook(book) && GoodId(c.intent.intentId)
    ensures DbMatches(book + [c], Claimed(redis, c))
  {
    forall id ensures CellMatches(book + [c], Claimed(redis, c), id) { CellAfterClaim(book, redis, c, id); }
    forall key ensures BoundMatches(book + [c], Claimed(redis, c), key) { BoundAfterClaim(book, redis, c, key); }
  }

  /** While a binding is in force its cell is alive, and otherwise the tuple's cell is free. */
  lemma BindingCell(book: seq<Claim>, redis: Db, key: string, now: int)
    requires DbMatches(book, redis) && GoodBook(book)
    ensures Read(redis, LegacyBindKey(key), now)
         == if Binding(book, key, now).Some? then Some(IdText(Binding(book, key, now).value.intent.intentId)) else None
  {
    assert BoundMatches(book, redis, key);
  }

  lemma IntentCell(book: seq<Claim>, redis: Db, id: string, now: int)
    requires DbMatches(book, redis)
    ensures Parse(Read(redis, IntentKey(id), now), now) == IfReadable(Kv, ClaimById(book, id), now)
  {
    assert CellMatches(book, redis, id);
  }

  class KvIntentStore {
    var redis: Db
    ghost var book: seq<Claim>

    ghost predicate Valid()
      reads this
    {
      && GoodBook(book)
      && DbMatches(book, redis)
    }

    constructor ()
      ensures Valid() && book == []
    {
      redis, book := map[], [];
    }

    method Put(intent: Intent, now: int) returns (stored: Intent)
      requires Valid() && Initiable(book, intent)
      modifies this
      ensures Valid() && (book, stored) == BookPut(Kv, old(book), intent, now)
    {
      var key := KeyOf(intent);
      var ex := CeilSeconds(INTENT_TTL_MS);
      BindingCell(book, redis, key, now);
      var (bound, won) := WriteIfAbsent(redis, LegacyBindKey(key), IdText(intent.intentId), ex, now);
      redis := bound;
      if !won {
        ghost var claim := Binding(book, key, now).value.intent;
        BindKeyHash(claim.burnTxHash, intent.burnTxHash, claim.address, intent.address, claim.amount, intent.amount);
        var winner := Find(intent.burnTxHash, intent.address, intent.amount, now);
        if winner.Some? {
          return winner.value;
        }
      }
      redis := Write(redis, IntentKey(intent.intentId), IntentJson(intent), ex, now);
      ghost var claim := Claim(intent, now, won);
      assert redis == Claimed(old(redis), claim);
      KvAppend(book, old(redis), claim);
      GoodAppend(book, claim);
      book := book + [claim];
      return intent;
    }

    method Get(intentId: string, burnTxHash: string, now: int) returns (r: Option<Intent>)
      requires Valid()
      ensures r == BookGet(Kv, book, intentId, burnTxHash, now)
    {
      IntentCell(book, redis, intentId, now);
      var intent := Parse(Read(redis, IntentKey(intentId), now), now);
      if intent.None? {
        return None;
      }
      r := if ReplayKey(intent.value.burnTxHash) == ReplayKey(burnTxHash) then intent else None;
    }

    method Find(burnTxHash: string, address: string, amount: string, now: int) returns (r: Option<Intent>)
      requires Valid()
      ensures r == BookFind(Kv, book, burnTxHash, address, amount, now)
    {
      var key := BindKey(burnTxHash, address, amount);
      BindingCell(book, redis, key, now);
      var raw := BoundId(Read(redis, LegacyBindKey(key), now));
      if raw.None? {
        return None;
      }
      ClaimByIdUnique(book, LastBound(book, key).value);
      r := Get(raw.value, burnTxHash, now);
    }

    method Has(burnTxHash: string, address: string, amount: string, now: int) returns (b: bool)
      requires Valid()
      ensures b == BookHas(book, burnTxHash, address, amount, now)
    {
      BindingCell(book, redis, BindKey(burnTxHash, address, amount), now);
      b := BoundId(Read(redis, LegacyBindKey(BindKey(burnTxHash, address, amount)), now)).Some?;
    }
  }

  // ----- First claimer wins, over any run of puts

  datatype PutAt = PutAt(intent: Intent, now: int)

  function BookRun(kind: Kind, book: seq<Claim>, puts: seq<PutAt>): seq<Claim>
    decreases |puts|
  {
    if puts == [] then book
    else BookRun(kind, BookPut(kind, book, puts[0].intent, puts[0].now).0, puts[1..])
  }

  /**
   * For as long as a claim can be read, whatever puts happen in between, the tuple stays
   * with the first claimer: find returns it, and so does every further put on the tuple.
   */
  lemma {:induction false} FirstClaimerWins(kind: Kind, book: seq<Claim>, claim: Claim, puts: seq<PutAt>,
    later: Intent, now: int)
    requires LastBound(book, KeyOf(claim.intent)) == Some(claim)
    requires forall p :: p in puts ==> Readable(kind, claim, p.now)
    requires Readable(kind, claim, now) && KeyOf(later) == KeyOf(claim.intent)
    ensures var i, book' := claim.intent, BookRun(kind, book, puts);
      && BookFind(kind, book', i.burnTxHash, i.address, i.amount, now) == Some(i)
      && BookPut(kind, book', later, now) == (book', i)
    decreases |puts|
  {
    if puts != [] {
      var p := puts[0];
      Appended(book, Claim(p.intent, p.now, Binding(book, KeyOf(p.intent), p.now).None?));
      FirstClaimerWins(kind, BookPut(kind, book, p.intent, p.now).0, claim, puts[1..], later, now);
    }
  }

  /** 24 hours after its put the tuple is free again, and the next put claims it. */
  lemma ExpiredClaimYields(kind: Kind, book: seq<Claim>, claim: Claim, later: Intent, now: int)
    requires LastBound(book, KeyOf(claim.intent)) == Some(claim)
    requires claim.at + 86_400_000 <= now && KeyOf(later) == KeyOf(claim.intent)
    ensures BookFind(kind, book, later.burnTxHash, later.address, later.amount, now) == None
    ensures BookPut(kind, book, later, now) == (book + [Claim(later, now, true)], later)
    ensures Fresh(later, now) ==>
      BookFind(kind, book + [Claim(later, now, true)], later.burnTxHash, later.address, later.amount, now)
        == Some(later)
  {
    Appended(book, Claim(later, now, true));
  }
}

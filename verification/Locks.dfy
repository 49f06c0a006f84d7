// MemoryLock (apps/demo/server/kv.ts): a table of locks with tokens and deadlines.

module Locks {
  import opened Wrappers
  import opened Text

  /** Single-flight lock lifetime of the settle handler. */
  const SETTLE_LOCK_TTL_MS: nat := 60_000

  datatype Entry = Entry(token: string, expiresAt: int)

  datatype Table = Table(held: map<string, Entry>, counter: nat)

  const EMPTY_TABLE: Table := Table(map[], 0)

  function Token(n: nat): string {
    "lock_" + Print(n)
  }

  /** Tokens are numbered, and numbers print differently. */
  lemma TokenInjective(m: nat, n: nat)
    ensures Token(m) == Token(n) ==> m == n
  {
    assert Token(m)[5..] == Print(m) && Token(n)[5..] == Print(n);
  }

  function Acquired(t: Table, key: string, ttlMs: int, now: int): (Table, Option<string>) {
    if key in t.held && t.held[key].expiresAt > now then (t, None)
    else
      var token := Token(t.counter + 1);
      (Table(t.held[key := Entry(token, now + ttlMs)], t.counter + 1), Some(token))
  }

  function Released(t: Table, key: string, token: string): Table {
    if key in t.held && t.held[key].token == token then t.(held := t.held - {key}) else t
  }

  class MemoryLock {
    var held: map<string, Entry>
    var counter: nat

    function Contents(): Table
      reads this
    {
      Table(held, counter)
    }

    constructor ()
      ensures Contents() == EMPTY_TABLE
    {
      held, counter := map[], 0;
    }

    method Acquire(key: string, ttlMs: int, now: int) returns (token: Option<string>)
      modifies this
      ensures (Contents(), token) == Acquired(old(Contents()), key, ttlMs, now)
    {
      if key in held && held[key].expiresAt > now {
        return None;
      }
      counter := counter + 1;
      var fresh' := Token(counter);
      held := held[key := Entry(fresh', now + ttlMs)];
      return Some(fresh');
    }

    method Release(key: string, token: string)
      modifies this
      ensures Contents() == Released(old(Contents()), key, token)
    {
      if key in held && held[key].token == token {
        held := held - {key};
      }
    }
  }

  // ----- Runs: any sequence of acquires and releases, by anyone, with any token, while time passes

  datatype Event =
    | Acquire(key: string, ttlMs: int)
    | Release(key: string, token: string)
    | Tick(ms: nat)

  /** One successful acquire, as a history records it. */
  datatype Grant = Grant(key: string, token: string, at: int, expiresAt: int, freed: bool)

  datatype World = World(now: int, table: Table, grants: seq<Grant>)

  /** The grants with those that a release of `token` at `key` frees marked as freed. */
  function MarkFreed(grants: seq<Grant>, key: string, token: string): seq<Grant> {
    seq(|grants|, i requires 0 <= i < |grants| =>
      if grants[i].key == key && grants[i].token == token then grants[i].(freed := true) else grants[i])
  }

  function Next(w: World, e: Event): World {
    match e
    case Tick(ms) => w.(now := w.now + ms)
    case Release(key, token) => w.(table := Released(w.table, key, token), grants := MarkFreed(w.grants, key, token))
    case Acquire(key, ttlMs) =>
      var (table, token) := Acquired(w.table, key, ttlMs, w.now);
      match token
      case None => w
      case Some(t) => World(w.now, table, w.grants + [Grant(key, t, w.now, w.now + ttlMs, false)])
  }

  function Run(w: World, es: seq<Event>): World
    decreases |es|
  {
    if es == [] then w else Run(Next(w, es[0]), es[1..])
  }

  function Start(now: int): World {
    World(now, EMPTY_TABLE, [])
  }

  /** A grant whose token still holds its key. */
  predicate Live(g: Grant, now: int) {
    !g.freed && now < g.expiresAt
  }

  /** Grant i is the one that the entry of its key stands for. */
  predicate Backs(w: World, i: int, key: string) {
    && 0 <= i < |w.grants| && w.grants[i].key == key && !w.grants[i].freed
    && key in w.table.held && w.table.held[key] == Entry(w.grants[i].token, w.grants[i].expiresAt)
  }

  /** Grant number i carries token i + 1. */
  ghost predicate Numbered(w: World) {
    && w.table.counter == |w.grants|
    && forall i :: 0 <= i < |w.grants| ==> w.grants[i].token == Token(i + 1) && w.grants[i].at <= w.now
  }

  /** Every live grant has its entry. */
  ghost predicate LiveHeld(w: World) {
    forall i :: 0 <= i < |w.grants| && Live(w.grants[i], w.now) ==> Backs(w, i, w.grants[i].key)
  }

  /** Every entry stands for an unfreed grant. */
  ghost predicate HeldBacked(w: World) {
    forall k :: k in w.table.held ==> exists i :: Backs(w, i, k)
  }

  /** Every earlier grant of a key was freed, or had expired when a later grant of that key was made. */
  ghost predicate Succession(w: World) {
    forall i, j :: 0 <= i < j < |w.grants| && w.grants[i].key == w.grants[j].key ==>
      w.grants[i].freed || w.grants[i].expiresAt <= w.grants[j].at
  }

  /** The inductive invariant. */
  ghost predicate Consistent(w: World) {
    Numbered(w) && LiveHeld(w) && HeldBacked(w) && Succession(w)
  }

  lemma TickConsistent(w: World, ms: nat)
    requires Consistent(w)
    ensures Consistent(Next(w, Tick(ms)))
  {
    var w' := Next(w, Tick(ms));
    forall k | k in w'.table.held ensures exists i :: Backs(w', i, k) {
      var i :| Backs(w, i, k);
      assert Backs(w', i, k);
    }
    forall i | 0 <= i < |w'.grants| && Live(w'.grants[i], w'.now) ensures Backs(w', i, w'.grants[i].key) {
      assert Backs(w, i, w.grants[i].key);
    }
  }

  /** A release leaves an entry and its grant alone, or removes the one and frees the other. */
  lemma ReleaseBacks(w: World, key: string, token: string, i: int, k: string)
    requires Backs(w, i, k)
    requires var w' := Next(w, Release(key, token)); k in w'.table.held || !w'.grants[i].freed
    ensures Backs(Next(w, Release(key, token)), i, k)
  {
  }

  lemma ReleaseLive(w: World, key: string, token: string)
    requires LiveHeld(w)
    ensures LiveHeld(Next(w, Release(key, token)))
  {
    var w' := Next(w, Release(key, token));
    forall i | 0 <= i < |w'.grants| && Live(w'.grants[i], w'.now) ensures Backs(w', i, w'.grants[i].key) {
      assert Live(w.grants[i], w.now);
      ReleaseBacks(w, key, token, i, w.grants[i].key);
    }
  }

  lemma ReleaseHeld(w: World, key: string, token: string)
    requires HeldBacked(w)
    ensures HeldBacked(Next(w, Release(key, token)))
  {
    var w' := Next(w, Release(key, token));
    forall k | k in w'.table.held ensures exists i :: Backs(w', i, k) {
      var i :| Backs(w, i, k);
      ReleaseBacks(w, key, token, i, k);
    }
  }

  lemma ReleaseSuccession(w: World, key: string, token: string)
    requires Numbered(w) && Succession(w)
    ensures Numbered(Next(w, Release(key, token))) && Succession(Next(w, Release(key, token)))
  {
  }

  /** An acquire keeps the entries of the other keys. */
  lemma AcquireBacks(w: World, key: string, ttlMs: int, i: int, k: string)
    requires Backs(w, i, k) && k != key
    ensures Backs(Next(w, Acquire(key, ttlMs)), i, k)
  {
  }

  /** An acquire that succeeds found no live grant of its key, and its own grant has the entry. */
  lemma AcquireBacksNew(w: World, key: string, ttlMs: int)
    requires LiveHeld(w) && Acquired(w.table, key, ttlMs, w.now).1.Some?
    ensures Backs(Next(w, Acquire(key, ttlMs)), |w.grants|, key)
    ensures forall i :: 0 <= i < |w.grants| && w.grants[i].key == key ==> !Live(w.grants[i], w.now)
  {
    forall i | 0 <= i < |w.grants| && w.grants[i].key == key ensures !Live(w.grants[i], w.now) {
      assert Live(w.grants[i], w.now) ==> Backs(w, i, key);
    }
  }

  lemma AcquireLive(w: World, key: string, ttlMs: int)
    requires LiveHeld(w) && Acquired(w.table, key, ttlMs, w.now).1.Some?
    ensures LiveHeld(Next(w, Acquire(key, ttlMs)))
  {
    var w' := Next(w, Acquire(key, ttlMs));
    AcquireBacksNew(w, key, ttlMs);
    forall i | 0 <= i < |w'.grants| && Live(w'.grants[i], w'.now) ensures Backs(w', i, w'.grants[i].key) {
      if i < |w.grants| {
        AcquireBacks(w, key, ttlMs, i, w.grants[i].key);
      }
    }
  }

  lemma AcquireHeld(w: World, key: string, ttlMs: int)
    requires LiveHeld(w) && HeldBacked(w) && Acquired(w.table, key, ttlMs, w.now).1.Some?
    ensures HeldBacked(Next(w, Acquire(key, ttlMs)))
  {
    var w' := Next(w, Acquire(key, ttlMs));
    AcquireBacksNew(w, key, ttlMs);
    forall k | k in w'.table.held ensures exists i :: Backs(w', i, k) {
      if k != key {
        var i :| Backs(w, i, k);
        AcquireBacks(w, key, ttlMs, i, k);
      }
    }
  }

  lemma AcquireSuccession(w: World, key: string, ttlMs: int)
    requires Numbered(w) && LiveHeld(w) && Succession(w) && Acquired(w.table, key, ttlMs, w.now).1.Some?
    ensures Numbered(Next(w, Acquire(key, ttlMs))) && Succession(Next(w, Acquire(key, ttlMs)))
  {
    AcquireBacksNew(w, key, ttlMs);
  }

  lemma NextConsistent(w: World, e: Event)
    requires Consistent(w)
    ensures Consistent(Next(w, e))
  {
    match e
    case Tick(ms) => TickConsistent(w, ms);
    case Release(key, token) =>
      ReleaseLive(w, key, token);
      ReleaseHeld(w, key, token);
      ReleaseSuccession(w, key, token);
    case Acquire(key, ttlMs) =>
      if Acquired(w.table, key, ttlMs, w.now).1.Some? {
        AcquireLive(w, key, ttlMs);
        AcquireHeld(w, key, ttlMs);
        AcquireSuccession(w, key, ttlMs);
      }
  }

  lemma {:induction false} RunConsistent(w: World, es: seq<Event>)
    requires Consistent(w)
    ensures Consistent(Run(w, es))
    decreases |es|
  {
    if es != [] {
      NextConsistent(w, es[0]);
      RunConsistent(Next(w, es[0]), es[1..]);
    }
  }

  /** In every run all tokens ever issued differ. */
  lemma TokensNeverReissued(now: int, es: seq<Event>, i: nat, j: nat)
    requires i < j < |Run(Start(now), es).grants|
    ensures Run(Start(now), es).grants[i].token != Run(Start(now), es).grants[j].token
  {
    RunConsistent(Start(now), es);
    TokenInjective(i + 1, j + 1);
  }

  /** In every run at most one grant of a key is live, whatever was released with whatever token. */
  lemma OneLiveTokenPerKey(now: int, es: seq<Event>, i: nat, j: nat)
    requires var w := Run(Start(now), es); i < |w.grants| && j < |w.grants|
    requires var w := Run(Start(now), es);
      w.grants[i].key == w.grants[j].key && Live(w.grants[i], w.now) && Live(w.grants[j], w.now)
    ensures i == j
  {
    RunConsistent(Start(now), es);
  }

  lemma ReleaseOfOther(w: World, holder: nat, key: string, token: string)
    requires Consistent(w) && holder < |w.grants| && Live(w.grants[holder], w.now)
    requires token != w.grants[holder].token
    ensures var w' := Next(w, Release(key, token));
      Live(w'.grants[holder], w'.now) && Backs(w', holder, w.grants[holder].key)
  {
    assert Backs(w, holder, w.grants[holder].key);
  }

  /**
   * A live grant survives every release that does not name its own token: the late
   * release of an earlier, expired holder leaves the later holder's entry in place.
   */
  lemma StaleReleaseIsHarmless(now: int, es: seq<Event>, stale: nat, holder: nat, key: string)
    requires var w := Run(Start(now), es);
      stale < |w.grants| && holder < |w.grants| && stale != holder && Live(w.grants[holder], w.now)
    ensures var w := Run(Start(now), es);
      var w' := Next(w, Release(key, w.grants[stale].token));
      Live(w'.grants[holder], w'.now) && Backs(w', holder, w.grants[holder].key)
  {
    var w := Run(Start(now), es);
    RunConsistent(Start(now), es);
    TokenInjective(stale + 1, holder + 1);
    ReleaseOfOther(w, holder, key, w.grants[stale].token);
  }

  /** A key can be acquired exactly when no grant of it is live. */
  lemma AcquireIffFree(now: int, es: seq<Event>, key: string, ttlMs: int)
    ensures var w := Run(Start(now), es);
      Acquired(w.table, key, ttlMs, w.now).1.Some? <==>
      (forall i :: 0 <= i < |w.grants| && w.grants[i].key == key ==> !Live(w.grants[i], w.now))
  {
    var w := Run(Start(now), es);
    RunConsistent(Start(now), es);
    if key in w.table.held {
      var i :| Backs(w, i, key);
      if w.table.held[key].expiresAt > w.now {
        assert Live(w.grants[i], w.now);
      } else {
        forall j | 0 <= j < |w.grants| && w.grants[j].key == key ensures !Live(w.grants[j], w.now) {
          assert Live(w.grants[j], w.now) ==> Backs(w, j, key);
        }
      }
    } else {
      forall j | 0 <= j < |w.grants| && w.grants[j].key == key ensures !Live(w.grants[j], w.now) {
        assert Live(w.grants[j], w.now) ==> Backs(w, j, key);
      }
    }
  }
}

// Fixed-window rate buckets: MemoryBuckets and RedisBuckets (apps/demo/server/kv.ts).

module Buckets {
  import opened Wrappers
  import opened Redis
  import Deposit

  const BUCKET_WINDOW_MS: nat := 60_000

  datatype BucketName = StatusBucket | InitiateBucket | SettleBucket

  function NameText(b: BucketName): string {
    match b
    case StatusBucket => "status"
    case InitiateBucket => "initiate"
    case SettleBucket => "settle"
  }

  const DEFAULT_LIMITS: map<BucketName, nat> := map[StatusBucket := 60, InitiateBucket := 20, SettleBucket := 5]

  function IpKey(bucket: BucketName, ip: string): string {
    "rl:" + NameText(bucket) + ":ip:" + ip
  }

  function SubjectKey(bucket: BucketName, ip: string, subject: string): string {
    "rl:" + NameText(bucket) + ":ip:" + ip + ":" + subject
  }

  // ----- The reference: a history of hits, and per key the window its hits opened

  datatype Hit = Hit(key: string, now: int)

  datatype Window = Window(count: nat, expiresAt: int)

  function HitWindow(w: Option<Window>, windowMs: nat, now: int): Window {
    if w.None? || w.value.expiresAt <= now then Window(1, now + windowMs)
    else Window(w.value.count + 1, w.value.expiresAt)
  }

  function KeyWindow(history: seq<Hit>, key: string, windowMs: nat): Option<Window> {
    if history == [] then None
    else
      var before := KeyWindow(history[..|history| - 1], key, windowMs);
      var last := history[|history| - 1];
      if last.key == key then Some(HitWindow(before, windowMs, last.now)) else before
  }

  /** Whether the last hit of a history is admitted. */
  predicate Admitted(history: seq<Hit>, limit: nat, windowMs: nat)
    requires history != []
  {
    HitWindow(KeyWindow(history[..|history| - 1], history[|history| - 1].key, windowMs), windowMs,
      history[|history| - 1].now).count <= limit
  }

  /** One request as the handlers meter it: by address of the caller alone, or with a subject. */
  datatype Request = Request(bucket: BucketName, ip: string, subject: Option<string>, now: int)

  function HitOf(r: Request): Hit {
    Hit(if r.subject.Some? then SubjectKey(r.bucket, r.ip, r.subject.value) else IpKey(r.bucket, r.ip), r.now)
  }

  /** What a request is metered by: the address of the caller, and the subject behind a colon. */
  function Metered(r: Request): string {
    match r.subject
    case None => r.ip
    case Some(subject) => r.ip + ":" + subject
  }

  lemma KeyParts(r: Request)
    ensures HitOf(r).key == "rl:" + NameText(r.bucket) + (":ip:" + Metered(r)) && HitOf(r).now == r.now
  {
  }

  lemma NamesStartApart(a: BucketName, c: BucketName)
    ensures |NameText(a)| >= 2
    ensures NameText(a)[..2] == NameText(c)[..2] <==> a == c
  {
    assert NameText(a)[0] == NameText(a)[..2][0] && NameText(a)[1] == NameText(a)[..2][1];
    assert NameText(c)[0] == NameText(c)[..2][0] && NameText(c)[1] == NameText(c)[..2][1];
  }

  lemma KeySlices(name: string, metered: string)
    requires |name| >= 2
    ensures var key := "rl:" + name + (":ip:" + metered);
      key[3..5] == name[..2] && |key| == 7 + |name| + |metered| && key[7 + |name|..] == metered
  {
    var key := "rl:" + name + (":ip:" + metered);
    assert key[3..5] == name[..2];
    assert key[7 + |name|..] == metered;
  }

  /** Two requests share a counter if and only if they go to one bucket and are metered by one text. */
  lemma SharedCounterIff(r: Request, q: Request)
    ensures HitOf(r).key == HitOf(q).key <==> r.bucket == q.bucket && Metered(r) == Metered(q)
  {
    KeyParts(r);
    KeyParts(q);
    NamesStartApart(r.bucket, q.bucket);
    NamesStartApart(q.bucket, r.bucket);
    KeySlices(NameText(r.bucket), Metered(r));
    KeySlices(NameText(q.bucket), Metered(q));
  }

  class MemoryBuckets {
    var windows: map<string, Window>
    const limits: map<BucketName, nat>
    const windowMs: nat
    ghost var history: seq<Hit>

    ghost predicate Valid()
      reads this
    {
      && (forall b: BucketName :: b in limits)
      && forall key :: KeyWindow(history, key, windowMs) == if key in windows then Some(windows[key]) else None
    }

    constructor (windowMs: nat, limits: map<BucketName, nat>)
      requires forall b: BucketName :: b in limits
      ensures Valid() && history == [] && this.windowMs == windowMs && this.limits == limits
    {
      this.windows, this.history := map[], [];
      this.windowMs, this.limits := windowMs, limits;
    }

    method Consume(key: string, limit: nat, now: int) returns (allowed: bool)
      requires Valid()
      modifies this
      ensures Valid() && history == old(history) + [Hit(key, now)]
      ensures allowed == Admitted(history, limit, windowMs)
    {
      history := history + [Hit(key, now)];
      assert history[..|history| - 1] == old(history);
      if key !in windows || windows[key].expiresAt <= now {
        windows := windows[key := Window(1, now + windowMs)];
        return limit >= 1;
      }
      windows := windows[key := Window(windows[key].count + 1, windows[key].expiresAt)];
      return windows[key].count <= limit;
    }

    method ConsumeIp(bucket: BucketName, ip: string, now: int) returns (allowed: bool)
      requires Valid()
      modifies this
      ensures Valid() && history == old(history) + [Hit(IpKey(bucket, ip), now)]
      ensures allowed == Admitted(history, limits[bucket], windowMs)
    {
      allowed := Consume(IpKey(bucket, ip), limits[bucket], now);
    }

    method ConsumeSubject(bucket: BucketName, ip: string, subject: string, now: int) returns (allowed: bool)
      requires Valid()
      modifies this
      ensures Valid() && history == old(history) + [Hit(SubjectKey(bucket, ip, subject), now)]
      ensures allowed == Admitted(history, limits[bucket], windowMs)
    {
      allowed := Consume(SubjectKey(bucket, ip, subject), limits[bucket], now);
    }

    method Meter(q: Request) returns (allowed: bool)
      requires Valid()
      modifies this
      ensures Valid() && history == old(history) + [HitOf(q)]
      ensures allowed == Admitted(history, limits[q.bucket], windowMs)
    {
      if q.subject.Some? {
        allowed := ConsumeSubject(q.bucket, q.ip, q.subject.value, q.now);
      } else {
        allowed := ConsumeIp(q.bucket, q.ip, q.now);
      }
    }
  }

  /** The window that a counter with a lifetime stands for. */
  function CellWindow(redis: map<string, Cell<nat>>, key: string): Option<Window> {
    if key in redis && redis[key].expiresAt.Some? then Some(Window(redis[key].value, redis[key].expiresAt.value))
      else None
  }

  /** RedisBuckets: INCR, then EXPIRE on the first hit; lifetimes in whole seconds. */
  class RedisBuckets {
    var redis: map<string, Cell<nat>>
    const limits: map<BucketName, nat>
    const windowSeconds: nat
    ghost var history: seq<Hit>

    ghost predicate Valid()
      reads this
    {
      && (forall b: BucketName :: b in limits)
      && (forall key :: key in redis ==> redis[key].expiresAt.Some? && redis[key].value >= 1)
      && forall key :: KeyWindow(history, key, 1000 * windowSeconds) == CellWindow(redis, key)
    }

    constructor (windowMs: nat, limits: map<BucketName, nat>)
      requires forall b: BucketName :: b in limits
      ensures Valid() && history == [] && this.windowSeconds == CeilSeconds(windowMs) && this.limits == limits
    {
      this.redis, this.history := map[], [];
      this.windowSeconds, this.limits := CeilSeconds(windowMs), limits;
    }

    method Consume(key: string, limit: nat, now: int) returns (allowed: bool)
      requires Valid()
      modifies this
      ensures Valid() && history == old(history) + [Hit(key, now)]
      ensures allowed == Admitted(history, limit, 1000 * windowSeconds)
    {
      history := history + [Hit(key, now)];
      assert history[..|history| - 1] == old(history);
      // INCR starts a dead or missing key at one, without a lifetime, and keeps the lifetime of a live one.
      var alive := Read(redis, key, now);
      var count := if alive.Some? then alive.value + 1 else 1;
      redis := redis[key := Cell(count, if alive.Some? then redis[key].expiresAt else None)];
      if count == 1 {
        redis := redis[key := Cell(count, Some(now + 1000 * windowSeconds))];
      }
      return count <= limit;
    }

    method ConsumeIp(bucket: BucketName, ip: string, now: int) returns (allowed: bool)
      requires Valid()
      modifies this
      ensures Valid() && history == old(history) + [Hit(IpKey(bucket, ip), now)]
      ensures allowed == Admitted(history, limits[bucket], 1000 * windowSeconds)
    {
      allowed := Consume(IpKey(bucket, ip), limits[bucket], now);
    }

    method ConsumeSubject(bucket: BucketName, ip: string, subject: string, now: int) returns (allowed: bool)
      requires Valid()
      modifies this
      ensures Valid() && history == old(history) + [Hit(SubjectKey(bucket, ip, subject), now)]
      ensures allowed == Admitted(history, limits[bucket], 1000 * windowSeconds)
    {
      allowed := Consume(SubjectKey(bucket, ip, subject), limits[bucket], now);
    }

    method Meter(q: Request) returns (allowed: bool)
      requires Valid()
      modifies this
      ensures Valid() && history == old(history) + [HitOf(q)]
      ensures allowed == Admitted(history, limits[q.bucket], 1000 * windowSeconds)
    {
      if q.subject.Some? {
        allowed := ConsumeSubject(q.bucket, q.ip, q.subject.value, q.now);
      } else {
        allowed := ConsumeIp(q.bucket, q.ip, q.now);
      }
    }
  }

  // ----- What any run of hits admits

  ghost predicate Chronological(history: seq<Hit>) {
    forall i, j :: 0 <= i < j < |history| ==> history[i].now <= history[j].now
  }

  /** How many hits of a key with a <= time <= b are admitted. */
  function AdmittedIn(history: seq<Hit>, key: string, limit: nat, windowMs: nat, a: int, b: int): nat {
    if history == [] then 0 else
      var last := history[|history| - 1];
      AdmittedIn(history[..|history| - 1], key, limit, windowMs, a, b)
      + (if last.key == key && a <= last.now <= b && Admitted(history, limit, windowMs) then 1 else 0)
  }

  function Min(x: int, y: int): int {
    if x <= y then x else y
  }

  /** Hits of a key in an interval that none of them reaches. */
  lemma {:induction false} NoneAdmitted(history: seq<Hit>, key: string, limit: nat, windowMs: nat, a: int, b: int)
    requires forall h :: h in history && h.key == key ==> !(a <= h.now <= b)
    ensures AdmittedIn(history, key, limit, windowMs, a, b) == 0
  {
    if history != [] { NoneAdmitted(history[..|history| - 1], key, limit, windowMs, a, b); }
  }

  /** All hits of a key so far lie before the end of its current window. */
  lemma {:induction false} HitsBeforeExpiry(history: seq<Hit>, key: string, windowMs: nat)
    requires Chronological(history) && windowMs > 0
    ensures forall h :: h in history && h.key == key ==>
      KeyWindow(history, key, windowMs).Some? && h.now < KeyWindow(history, key, windowMs).value.expiresAt
  {
    if history != [] {
      var front, last := history[..|history| - 1], history[|history| - 1];
      HitsBeforeExpiry(front, key, windowMs);
      forall h | h in history && h.key == key
        ensures KeyWindow(history, key, windowMs).Some? && h.now < KeyWindow(history, key, windowMs).value.expiresAt
      {
        assert h in front || h == last;
        if last.key == key {
          var i :| 0 <= i < |history| && history[i] == h;
          assert h.now <= last.now;
        }
      }
    }
  }

  /** What the current window of a key says about the admissions in [a, b]. */
  predicate Bounded(w: Option<Window>, admitted: nat, limit: nat, windowMs: nat, a: int, b: int) {
    match w
    case None => admitted == 0
    case Some(win) =>
      var start := win.expiresAt - windowMs;
      && (start <= a ==> admitted <= Min(win.count, limit))
      && (a < start <= b ==> admitted <= limit + Min(win.count, limit))
      && admitted <= 2 * limit
  }

  lemma {:induction false} BoundedRun(history: seq<Hit>, key: string, limit: nat, windowMs: nat, a: int, b: int)
    requires Chronological(history) && windowMs > 0 && b - a <= windowMs
    ensures Bounded(KeyWindow(history, key, windowMs), AdmittedIn(history, key, limit, windowMs, a, b), limit,
      windowMs, a, b)
  {
    if history != [] {
      var front, last := history[..|history| - 1], history[|history| - 1];
      BoundedRun(front, key, limit, windowMs, a, b);
      HitsBeforeExpiry(front, key, windowMs);
      var w := KeyWindow(front, key, windowMs);
      if last.key == key && w.Some? && w.value.expiresAt <= last.now <= a {
        NoneAdmitted(front, key, limit, windowMs, a, b);
      }
      if w.Some? { WindowStart(front, key, windowMs, last.now); }
    }
  }

  /** An interval no longer than the window admits at most twice the limit of any one key. */
  lemma TwiceTheLimit(history: seq<Hit>, key: string, limit: nat, windowMs: nat, a: int, b: int)
    requires Chronological(history) && windowMs > 0 && b - a <= windowMs
    ensures AdmittedIn(history, key, limit, windowMs, a, b) <= 2 * limit
  {
    BoundedRun(history, key, limit, windowMs, a, b);
  }

  /** The default budgets: in any minute at most ten settles, forty initiates and 120 status calls on one counter. */
  lemma DefaultBudgets(history: seq<Hit>, key: string, a: int, b: int)
    requires Chronological(history) && b - a <= 60_000
    ensures AdmittedIn(history, key, DEFAULT_LIMITS[SettleBucket], BUCKET_WINDOW_MS, a, b) <= 10
    ensures AdmittedIn(history, key, DEFAULT_LIMITS[InitiateBucket], BUCKET_WINDOW_MS, a, b) <= 40
    ensures AdmittedIn(history, key, DEFAULT_LIMITS[StatusBucket], BUCKET_WINDOW_MS, a, b) <= 120
  {
    TwiceTheLimit(history, key, 5, 60_000, a, b);
    TwiceTheLimit(history, key, 20, 60_000, a, b);
    TwiceTheLimit(history, key, 60, 60_000, a, b);
  }

  /** A window admits exactly its first hits, up to the limit. */
  lemma {:induction false} WindowAdmits(history: seq<Hit>, key: string, limit: nat, windowMs: nat)
    requires Chronological(history) && windowMs > 0 && KeyWindow(history, key, windowMs).Some?
    ensures var w := KeyWindow(history, key, windowMs).value;
      AdmittedIn(history, key, limit, windowMs, w.expiresAt - windowMs, w.expiresAt - 1) == Min(w.count, limit)
  {
    var front, last := history[..|history| - 1], history[|history| - 1];
    var before := KeyWindow(front, key, windowMs);
    HitsBeforeExpiry(front, key, windowMs);
    HitsBeforeExpiry(history, key, windowMs);
    var w := KeyWindow(history, key, windowMs).value;
    if last.key != key || (before.Some? && last.now < before.value.expiresAt) {
      WindowAdmits(front, key, limit, windowMs);
      if last.key == key { WindowStart(front, key, windowMs, last.now); }
    } else {
      NoneAdmitted(front, key, limit, windowMs, w.expiresAt - windowMs, w.expiresAt - 1);
    }
  }

  /** A window starts at a hit that is already made. */
  lemma {:induction false} WindowStart(history: seq<Hit>, key: string, windowMs: nat, now: int)
    requires KeyWindow(history, key, windowMs).Some?
    requires forall h :: h in history ==> h.now <= now
    ensures KeyWindow(history, key, windowMs).value.expiresAt - windowMs <= now
  {
    var front := history[..|history| - 1];
    if KeyWindow(front, key, windowMs).Some? { WindowStart(front, key, windowMs, now); }
  }

  // ----- When the stores agree

  /** Both stores decide the last hit of this history alike. */
  predicate Alike(history: seq<Hit>, limit: nat, windowMs: nat)
    requires history != []
  {
    Admitted(history, limit, windowMs) == Admitted(history, limit, 1000 * CeilSeconds(windowMs))
  }

  function HitsAtOnce(key: string, n: nat): seq<Hit> {
    seq(n, _ => Hit(key, 0))
  }

  lemma {:induction false} WindowOfHitsAtOnce(key: string, n: nat, windowMs: nat)
    requires n > 0 && windowMs > 0
    ensures KeyWindow(HitsAtOnce(key, n), key, windowMs) == Some(Window(n, windowMs))
  {
    var hits := HitsAtOnce(key, n);
    if n == 1 {
      assert hits[..0] == [];
    } else {
      WindowOfHitsAtOnce(key, n - 1, windowMs);
      assert hits[..n - 1] == HitsAtOnce(key, n - 1);
    }
  }

  /** As many hits as the limit at once, and one when the shorter window has just passed. */
  function Separating(limit: nat, windowMs: nat): seq<Hit> {
    HitsAtOnce("k", limit) + [Hit("k", windowMs)]
  }

  lemma Separates(limit: nat, windowMs: nat)
    requires limit >= 1 && windowMs % 1000 != 0
    ensures Chronological(Separating(limit, windowMs)) && !Alike(Separating(limit, windowMs), limit, windowMs)
  {
    var history := Separating(limit, windowMs);
    assert history[..|history| - 1] == HitsAtOnce("k", limit);
    WindowOfHitsAtOnce("k", limit, windowMs);
    WindowOfHitsAtOnce("k", limit, 1000 * CeilSeconds(windowMs));
  }

  lemma NeverAdmitted(history: seq<Hit>, windowMs: nat)
    requires history != []
    ensures !Admitted(history, 0, windowMs)
  {
    CountsAreOne(history, history[|history| - 1].key, windowMs);
    CountsAreOne(history[..|history| - 1], history[|history| - 1].key, windowMs);
  }

  lemma {:induction false} CountsAreOne(history: seq<Hit>, key: string, windowMs: nat)
    ensures KeyWindow(history, key, windowMs).Some? ==> KeyWindow(history, key, windowMs).value.count >= 1
  {
    if history != [] { CountsAreOne(history[..|history| - 1], key, windowMs); }
  }

  /**
   * The two stores decide every hit of every history alike if and only if the window is
   * a whole number of seconds (or nothing is ever admitted): a Redis lifetime is rounded
   * up to the next second.
   */
  lemma StoresDecideAlike(limit: nat, windowMs: nat)
    ensures (forall history :: history != [] && Chronological(history) ==> Alike(history, limit, windowMs))
      <==> limit == 0 || windowMs % 1000 == 0
  {
    if windowMs % 1000 == 0 {
      assert 1000 * CeilSeconds(windowMs) == windowMs;
    } else if limit == 0 {
      forall history | history != [] && Chronological(history) ensures Alike(history, limit, windowMs) {
        NeverAdmitted(history, windowMs);
        NeverAdmitted(history, 1000 * CeilSeconds(windowMs));
      }
    } else {
      Separates(limit, windowMs);
    }
  }

  function Hits(requests: seq<Request>): seq<Hit> {
    seq(|requests|, i requires 0 <= i < |requests| => HitOf(requests[i]))
  }

  /** The reference's decisions, request by request. */
  function Decisions(requests: seq<Request>, limits: map<BucketName, nat>, windowMs: nat): seq<bool>
    requires forall b: BucketName :: b in limits
  {
    if requests == [] then []
    else
      var n := |requests| - 1;
      Decisions(requests[..n], limits, windowMs) + [Admitted(Hits(requests), limits[requests[n].bucket], windowMs)]
  }

  lemma HitsSnoc(requests: seq<Request>, q: Request)
    ensures Hits(requests + [q]) == Hits(requests) + [HitOf(q)]
  {
  }

  lemma OneMoreDecision(requests: seq<Request>, i: nat, limits: map<BucketName, nat>, windowMs: nat)
    requires forall b: BucketName :: b in limits
    requires i < |requests|
    ensures Decisions(requests[..i + 1], limits, windowMs) == Decisions(requests[..i], limits, windowMs)
      + [Admitted(Hits(requests[..i + 1]), limits[requests[i].bucket], windowMs)]
  {
    assert requests[..i + 1][..i] == requests[..i];
  }

  lemma NextRequest(requests: seq<Request>, i: nat)
    requires i < |requests|
    ensures Hits(requests[..i + 1]) == Hits(requests[..i]) + [HitOf(requests[i])]
  {
    assert requests[..i + 1] == requests[..i] + [requests[i]];
    HitsSnoc(requests[..i], requests[i]);
  }

  /** Any requests, one after the other, put to a new in-memory store. */
  method DriveMemory(store: MemoryBuckets, requests: seq<Request>) returns (decisions: seq<bool>)
    requires store.Valid() && store.history == []
    modifies store
    ensures store.Valid() && decisions == Decisions(requests, store.limits, store.windowMs)
  {
    decisions := [];
    var i := 0;
    while i < |requests|
      invariant i <= |requests| && store.Valid() && store.history == Hits(requests[..i])
      invariant decisions == Decisions(requests[..i], store.limits, store.windowMs)
    {
      var d := store.Meter(requests[i]);
      NextRequest(requests, i);
      OneMoreDecision(requests, i, store.limits, store.windowMs);
      decisions, i := decisions + [d], i + 1;
    }
    assert requests[..i] == requests;
  }

  /** And to a new Redis store. */
  method DriveRedis(store: RedisBuckets, requests: seq<Request>) returns (decisions: seq<bool>)
    requires store.Valid() && store.history == []
    modifies store
    ensures store.Valid() && decisions == Decisions(requests, store.limits, 1000 * store.windowSeconds)
  {
    decisions := [];
    var i := 0;
    while i < |requests|
      invariant i <= |requests| && store.Valid() && store.history == Hits(requests[..i])
      invariant decisions == Decisions(requests[..i], store.limits, 1000 * store.windowSeconds)
    {
      var d := store.Meter(requests[i]);
      NextRequest(requests, i);
      OneMoreDecision(requests, i, store.limits, 1000 * store.windowSeconds);
      decisions, i := decisions + [d], i + 1;
    }
    assert requests[..i] == requests;
  }

  /**
   * The same requests put to two new stores, one of each kind: each decides by its own
   * window, and for windows of whole seconds they decide alike from first to last.
   */
  method DriveBoth(windowMs: nat, limits: map<BucketName, nat>, requests: seq<Request>)
    returns (memory: seq<bool>, redis: seq<bool>)
    requires forall b: BucketName :: b in limits
    ensures memory == Decisions(requests, limits, windowMs)
    ensures redis == Decisions(requests, limits, 1000 * CeilSeconds(windowMs))
    ensures windowMs % 1000 == 0 ==> memory == redis
  {
    var m := new MemoryBuckets(windowMs, limits);
    var r := new RedisBuckets(windowMs, limits);
    memory := DriveMemory(m, requests);
    redis := DriveRedis(r, requests);
    assert windowMs % 1000 == 0 ==> 1000 * CeilSeconds(windowMs) == windowMs;
  }

  // ----- A paced client

  /** Hits of a key are at least `gap` apart. */
  ghost predicate Paced(history: seq<Hit>, key: string, gap: nat) {
    forall i, j :: 0 <= i < j < |history| && history[i].key == key && history[j].key == key ==>
      history[i].now + gap <= history[j].now
  }

  /** After n paced hits in a window, the last lies at least n - 1 gaps after its start. */
  lemma {:induction false} PacedWindow(history: seq<Hit>, key: string, windowMs: nat, gap: nat)
    requires Paced(history, key, gap) && KeyWindow(history, key, windowMs).Some?
    ensures var w := KeyWindow(history, key, windowMs).value;
      exists i :: 0 <= i < |history| && history[i].key == key
        && w.expiresAt - windowMs + (w.count - 1) * gap <= history[i].now && w.count >= 1
  {
    var front, last := history[..|history| - 1], history[|history| - 1];
    var before := KeyWindow(front, key, windowMs);
    if before.Some? {
      PacedWindow(front, key, windowMs, gap);
      var i :| 0 <= i < |front| && front[i].key == key
        && before.value.expiresAt - windowMs + (before.value.count - 1) * gap <= front[i].now;
      assert history[i] == front[i];
      if last.key == key {
        assert history[i].now + gap <= history[|history| - 1].now;
        assert before.value.count * gap == (before.value.count - 1) * gap + gap;
      }
    }
    if last.key == key { assert history[|history| - 1].key == key; }
  }

  /** A client whose hits are paced so that the limit fills the window is never refused. */
  lemma PacedIsAdmitted(history: seq<Hit>, key: string, limit: nat, windowMs: nat, gap: nat)
    requires Chronological(history) && windowMs > 0 && history != [] && history[|history| - 1].key == key
    requires Paced(history, key, gap) && windowMs <= limit * gap
    ensures Admitted(history, limit, windowMs)
  {
    HitsBeforeExpiry(history, key, windowMs);
    PacedWindow(history, key, windowMs, gap);
    var w := KeyWindow(history, key, windowMs).value;
    var i :| 0 <= i < |history| && history[i].key == key
      && w.expiresAt - windowMs + (w.count - 1) * gap <= history[i].now;
    assert history[i] in history;
    Cancel(w.count - 1, limit, gap);
  }

  lemma Cancel(m: nat, n: nat, gap: nat)
    ensures m * gap < n * gap ==> m < n
  {
    if m >= n { assert m * gap == n * gap + (m - n) * gap; }
  }

  /** One poll: what the client knew when it drew its delay, and how late it then came. */
  datatype Draw = Draw(elapsedMs: int, random: real, late: nat)

  /** The times of a client that waits nextPollDelay, or longer, between polls. */
  function PollTimes(start: int, draws: seq<Draw>): seq<int> {
    if draws == [] then [start]
    else
      var d := draws[|draws| - 1];
      var before := PollTimes(start, draws[..|draws| - 1]);
      before + [before[|before| - 1] + Deposit.NextPollDelay(d.elapsedMs, d.random) + d.late]
  }

  predicate GoodDraws(draws: seq<Draw>) {
    forall d :: d in draws ==> 0.0 <= d.random <= 1.0
  }

  lemma {:induction false} PollTimesPaced(start: int, draws: seq<Draw>)
    requires GoodDraws(draws)
    ensures |PollTimes(start, draws)| == |draws| + 1
    ensures forall i, j :: 0 <= i < j < |PollTimes(start, draws)| ==>
      PollTimes(start, draws)[i] + 4_000 <= PollTimes(start, draws)[j]
  {
    if draws != [] {
      var d := draws[|draws| - 1];
      PollTimesPaced(start, draws[..|draws| - 1]);
      Deposit.PollDelayRange(d.elapsedMs, d.random);
    }
  }

  function HitsAt(key: string, times: seq<int>): seq<Hit> {
    seq(|times|, i requires 0 <= i < |times| => Hit(key, times[i]))
  }

  /** A lone client on the poll schedule is never refused by the status bucket. */
  lemma PolitePollerIsNeverRefused(ip: string, start: int, draws: seq<Draw>)
    requires GoodDraws(draws)
    ensures Admitted(HitsAt(IpKey(StatusBucket, ip), PollTimes(start, draws)), DEFAULT_LIMITS[StatusBucket],
      BUCKET_WINDOW_MS)
  {
    PollTimesPaced(start, draws);
    PacedIsAdmitted(HitsAt(IpKey(StatusBucket, ip), PollTimes(start, draws)), IpKey(StatusBucket, ip), 60,
      BUCKET_WINDOW_MS, 4_000);
  }
}

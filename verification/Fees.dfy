// What a fee quote is: the tier pick of packages/core/src/attestation/fees.ts, the cache
// entry made of two of them, and the fee cache of apps/demo/server/kv.ts as a history.

module Fees {
  import opened Wrappers
  import opened Text
  import opened Transfers

  // ----- Picking a tier

  const FAST_FINALITY_THRESHOLD: real := 1000.0

  /** A row of the fee table as Number() reads it; None stands for a value that is not finite. */
  datatype Row = Row(threshold: Option<real>, bps: Option<real>)

  datatype Tier = Tier(threshold: real, bps: real)

  predicate Eligible(t: Tier, mode: Mode) {
    match mode
    case Fast => t.threshold <= FAST_FINALITY_THRESHOLD
    case Standard => t.threshold > FAST_FINALITY_THRESHOLD
  }

  predicate Finite(r: Row) {
    r.threshold.Some? && r.bps.Some?
  }

  function TierOf(r: Row): Tier
    requires Finite(r)
  {
    Tier(r.threshold.value, r.bps.value)
  }

  /** map and both filters. */
  function EligibleTiers(rows: seq<Row>, mode: Mode): seq<Tier> {
    if rows == [] then []
    else
      var last := rows[|rows| - 1];
      EligibleTiers(rows[..|rows| - 1], mode)
        + if Finite(last) && Eligible(TierOf(last), mode) then [TierOf(last)] else []
  }

  /** The tier that row i offers in this mode. */
  predicate Offers(rows: seq<Row>, i: nat, mode: Mode, t: Tier) {
    i < |rows| && Finite(rows[i]) && TierOf(rows[i]) == t && Eligible(t, mode)
  }

  lemma {:induction false} OfferedTiers(rows: seq<Row>, mode: Mode, t: Tier)
    ensures t in EligibleTiers(rows, mode) <==> exists i: nat :: Offers(rows, i, mode, t)
  {
    if rows != [] {
      var front := rows[..|rows| - 1];
      OfferedTiers(front, mode, t);
      if i: nat :| Offers(front, i, mode, t) {
        assert Offers(rows, i, mode, t);
      }
      if i: nat :| Offers(rows, i, mode, t) {
        assert i < |front| ==> Offers(front, i, mode, t);
      }
      if t in EligibleTiers(rows, mode) && t !in EligibleTiers(front, mode) {
        assert Offers(rows, |rows| - 1, mode, t);
      }
    }
  }

  /** Stable insertion by threshold: behind everything that is not greater. */
  function Insert(sorted: seq<Tier>, t: Tier): seq<Tier> {
    if sorted == [] || sorted[|sorted| - 1].threshold <= t.threshold then sorted + [t]
    else Insert(sorted[..|sorted| - 1], t) + [sorted[|sorted| - 1]]
  }

  /** Array.prototype.sort by threshold; it is stable. */
  function Sort(tiers: seq<Tier>): seq<Tier> {
    if tiers == [] then [] else Insert(Sort(tiers[..|tiers| - 1]), tiers[|tiers| - 1])
  }

  /** fetchTransferFee on the rows of the reply; None is FeeUnavailableError. */
  function Pick(rows: seq<Row>, mode: Mode): Option<Tier> {
    var sorted := Sort(EligibleTiers(rows, mode));
    if sorted == [] then None
    else Some(match mode case Fast => sorted[0] case Standard => sorted[|sorted| - 1])
  }

  predicate Sorted(tiers: seq<Tier>) {
    forall i, j :: 0 <= i < j < |tiers| ==> tiers[i].threshold <= tiers[j].threshold
  }

  lemma {:induction false} InsertEnds(sorted: seq<Tier>, t: Tier)
    requires Sorted(sorted)
    ensures var r := Insert(sorted, t);
      && Sorted(r) && |r| == |sorted| + 1
      && r[0] == (if sorted == [] || t.threshold < sorted[0].threshold then t else sorted[0])
      && r[|r| - 1] ==
           (if sorted == [] || sorted[|sorted| - 1].threshold <= t.threshold then t else sorted[|sorted| - 1])
      && (forall x :: x in r <==> x == t || x in sorted)
  {
    if sorted != [] && t.threshold < sorted[|sorted| - 1].threshold {
      var front, last := sorted[..|sorted| - 1], sorted[|sorted| - 1];
      InsertEnds(front, t);
      var r := Insert(front, t);
      assert sorted == front + [last];
      forall i | 0 <= i < |r| ensures r[i].threshold <= last.threshold {
        assert r[i] in r;
        if r[i] != t {
          var j :| 0 <= j < |front| && front[j] == r[i];
          assert sorted[j].threshold <= sorted[|sorted| - 1].threshold;
        }
      }
    }
  }

  /** The first of the lowest tiers: nothing is lower, and nothing before it is as low. */
  predicate FirstLowest(tiers: seq<Tier>, i: nat) {
    && i < |tiers|
    && (forall j :: 0 <= j < |tiers| ==> tiers[i].threshold <= tiers[j].threshold)
    && (forall j :: 0 <= j < i ==> tiers[i].threshold < tiers[j].threshold)
  }

  /** The last of the highest tiers. */
  predicate LastHighest(tiers: seq<Tier>, i: nat) {
    && i < |tiers|
    && (forall j :: 0 <= j < |tiers| ==> tiers[j].threshold <= tiers[i].threshold)
    && (forall j :: i < j < |tiers| ==> tiers[j].threshold < tiers[i].threshold)
  }

  lemma FirstLowestSnoc(front: seq<Tier>, t: Tier, i: nat)
    requires FirstLowest(front, i)
    ensures FirstLowest(front + [t], if t.threshold < front[i].threshold then |front| else i)
  {
  }

  lemma LastHighestSnoc(front: seq<Tier>, t: Tier, i: nat)
    requires LastHighest(front, i)
    ensures LastHighest(front + [t], if front[i].threshold <= t.threshold then |front| else i)
  {
  }

  lemma {:induction false} SortSorts(tiers: seq<Tier>)
    ensures Sorted(Sort(tiers)) && |Sort(tiers)| == |tiers|
  {
    if tiers != [] {
      SortSorts(tiers[..|tiers| - 1]);
      InsertEnds(Sort(tiers[..|tiers| - 1]), tiers[|tiers| - 1]);
    }
  }

  /** The front of the stable sort, found without sorting. */
  lemma {:induction false} SortFirst(tiers: seq<Tier>) returns (first: nat)
    requires tiers != []
    ensures FirstLowest(tiers, first) && Sort(tiers) != [] && Sort(tiers)[0] == tiers[first]
  {
    var front, t := tiers[..|tiers| - 1], tiers[|tiers| - 1];
    assert tiers == front + [t];
    SortSorts(front);
    InsertEnds(Sort(front), t);
    if front == [] {
      return 0;
    }
    first := SortFirst(front);
    FirstLowestSnoc(front, t, first);
    first := if t.threshold < front[first].threshold then |front| else first;
  }

  /** And its end. */
  lemma {:induction false} SortLast(tiers: seq<Tier>) returns (last: nat)
    requires tiers != []
    ensures LastHighest(tiers, last) && Sort(tiers) != [] && Sort(tiers)[|Sort(tiers)| - 1] == tiers[last]
  {
    var front, t := tiers[..|tiers| - 1], tiers[|tiers| - 1];
    assert tiers == front + [t];
    SortSorts(front);
    InsertEnds(Sort(front), t);
    if front == [] {
      return 0;
    }
    last := SortLast(front);
    LastHighestSnoc(front, t, last);
    last := if front[last].threshold <= t.threshold then |front| else last;
  }

  /**
   * The pick is the row that a reader of the fee table would choose: for Fast the first
   * of the tiers with the least threshold up to 1000, for Standard the last of those
   * with the greatest threshold above 1000, and none if no finite row is eligible.
   */
  lemma PickIsExtreme(rows: seq<Row>, mode: Mode)
    ensures var tiers := EligibleTiers(rows, mode);
      match Pick(rows, mode)
      case None => forall i: nat, t :: !Offers(rows, i, mode, t)
      case Some(t) => exists i: nat ::
        (match mode case Fast => FirstLowest(tiers, i) case Standard => LastHighest(tiers, i)) && tiers[i] == t
    ensures match Pick(rows, mode)
      case None => true
      case Some(t) =>
        && (exists i: nat :: Offers(rows, i, mode, t))
        && forall i: nat, o :: Offers(rows, i, mode, o) ==>
             if mode.Fast? then t.threshold <= o.threshold else o.threshold <= t.threshold
  {
    var tiers := EligibleTiers(rows, mode);
    forall i: nat, o | Offers(rows, i, mode, o) ensures o in tiers {
      OfferedTiers(rows, mode, o);
    }
    if tiers != [] {
      var first := SortFirst(tiers);
      var last := SortLast(tiers);
      assert tiers[first] in tiers && tiers[last] in tiers;
      OfferedTiers(rows, mode, Pick(rows, mode).value);
    }
  }

  /** A row with these two finite numbers stands in the table. */
  predicate HasRow(rows: seq<Row>, i: nat, threshold: real, bps: real) {
    i < |rows| && rows[i] == Row(Some(threshold), Some(bps))
  }

  lemma OfferIsRow(rows: seq<Row>, i: nat, mode: Mode, t: Tier)
    ensures Offers(rows, i, mode, t) <==>
      HasRow(rows, i, t.threshold, t.bps) && (if mode.Fast? then t.threshold <= 1000.0 else t.threshold > 1000.0)
  {
  }

  /**
   * In the numbers of the table: a fast tier is found if and only if some row has a threshold
   * up to 1000, and it is a row with the least such threshold; a standard one if and only if
   * some row has a threshold above 1000, and it is a row with the greatest.
   */
  lemma PickInNumbers(rows: seq<Row>)
    ensures Pick(rows, Fast).Some? <==> exists i: nat, x, b :: HasRow(rows, i, x, b) && x <= 1000.0
    ensures Pick(rows, Standard).Some? <==> exists i: nat, x, b :: HasRow(rows, i, x, b) && x > 1000.0
    ensures Pick(rows, Fast).Some? ==>
      var t := Pick(rows, Fast).value;
      && t.threshold <= 1000.0 && (exists i: nat :: HasRow(rows, i, t.threshold, t.bps))
      && forall i: nat, x, b :: HasRow(rows, i, x, b) && x <= 1000.0 ==> t.threshold <= x
    ensures Pick(rows, Standard).Some? ==>
      var t := Pick(rows, Standard).value;
      && t.threshold > 1000.0 && (exists i: nat :: HasRow(rows, i, t.threshold, t.bps))
      && forall i: nat, x, b :: HasRow(rows, i, x, b) && x > 1000.0 ==> x <= t.threshold
  {
    PickIsExtreme(rows, Fast);
    PickIsExtreme(rows, Standard);
    forall i: nat, x, b | HasRow(rows, i, x, b)
      ensures Offers(rows, i, Fast, Tier(x, b)) <==> x <= 1000.0
      ensures Offers(rows, i, Standard, Tier(x, b)) <==> x > 1000.0
    {
      OfferIsRow(rows, i, Fast, Tier(x, b));
      OfferIsRow(rows, i, Standard, Tier(x, b));
    }
  }

  // ----- The cache key

  function RouteKey(source: nat, dest: nat): string {
    "fees:" + Print(source) + ":" + Print(dest)
  }

  lemma OneColon(a: string, a': string, b: string, b': string)
    requires AllDigits(a) && AllDigits(a')
    requires a + ":" + b == a' + ":" + b'
    ensures a == a' && b == b'
  {
    var s := a + ":" + b;
    assert s[|a|] == ':' && s[|a'|] == ':' && !IsDigit(':');
    assert s[..|a|] == a && s[..|a|] == a' && s[|a| + 1..] == b && s[|a| + 1..] == b';
  }

  /** Two routes never share a cache entry. */
  lemma RouteKeyInjective(s: nat, d: nat, s': nat, d': nat)
    requires RouteKey(s, d) == RouteKey(s', d')
    ensures s == s' && d == d'
  {
    RouteText(s, d);
    RouteText(s', d');
    OneColon(Print(s), Print(s'), Print(d), Print(d'));
    assert ToNat(Print(s)) == s && ToNat(Print(d)) == d;
  }

  lemma RouteText(source: nat, dest: nat)
    ensures RouteKey(source, dest)[5..] == Print(source) + ":" + Print(dest)
  {
  }

  // ----- Entries and the probes behind them

  const FEE_CACHE_TTL_MS: nat := 60 * 60 * 1000

  datatype FeeEntry = FeeEntry(fast: Option<Tier>, standard: Option<Tier>, cachedAt: int)

  function Quoted(e: FeeEntry, mode: Mode): Option<Tier> {
    match mode
    case Fast => e.fast
    case Standard => e.standard
  }

  /** What both tiers' probes found, for a call that read the clock at now. */
  function EntryOf(fastRows: seq<Row>, standardRows: seq<Row>, now: int): FeeEntry {
    FeeEntry(Pick(fastRows, Fast), Pick(standardRows, Standard), now)
  }

  datatype Route = Route(source: nat, dest: nat) {
    function Key(): string { RouteKey(source, dest) }
  }

  datatype FeeCode = InvalidParams | InvalidDomain | FeeUnavailable

  datatype FeeAnswer =
    | Quote(bps: real, threshold: real, fastTierAvailable: bool, cachedAt: int)
    | Refused(status: int, code: FeeCode)

  const UNAVAILABLE: FeeAnswer := Refused(503, FeeUnavailable)

  function AnswerOf(e: FeeEntry, mode: Mode): FeeAnswer {
    var fee := Quoted(e, mode);
    if fee.None? then UNAVAILABLE
    else Quote(fee.value.bps, fee.value.threshold, e.fast.Some?, e.cachedAt)
  }

  /** One direct request to the fee API, sent and answered at these times; a failed one has no rows. */
  datatype Probe = Probe(route: Route, mode: Mode, sent: int, answered: int, rows: seq<Row>)

  /** This is what a direct probe of the route and mode found that was sent at that time or later. */
  ghost predicate Probed(probes: seq<Probe>, route: Route, mode: Mode, since: int, found: Option<Tier>) {
    exists p :: p in probes && p.route == route && p.mode == mode && since <= p.sent && Pick(p.rows, mode) == found
  }

  ghost predicate Backed(probes: seq<Probe>, route: Route, e: FeeEntry) {
    Probed(probes, route, Fast, e.cachedAt, e.fast) && Probed(probes, route, Standard, e.cachedAt, e.standard)
  }

  lemma ProbedStays(probes: seq<Probe>, more: seq<Probe>, route: Route, mode: Mode, since: int, found: Option<Tier>)
    requires Probed(probes, route, mode, since, found)
    ensures Probed(probes + more, route, mode, since, found)
  {
    var p :| p in probes && p.route == route && p.mode == mode && since <= p.sent && Pick(p.rows, mode) == found;
    assert p in probes + more;
  }

  lemma BackedStays(probes: seq<Probe>, more: seq<Probe>, route: Route, e: FeeEntry)
    requires Backed(probes, route, e)
    ensures Backed(probes + more, route, e)
  {
    ProbedStays(probes, more, route, Fast, e.cachedAt, e.fast);
    ProbedStays(probes, more, route, Standard, e.cachedAt, e.standard);
  }

  /** Not more than an hour old for a call that read the clock at now. */
  predicate WithinTheHour(at: int, now: int) {
    now - at <= 3_600_000
  }

  /**
   * The answer to a call that read the clock at now: a quote, and the word on the fast
   * tier beside it, is what probes of this route found, sent no earlier than the time it
   * carries, which is at most an hour back; unavailable only if such a probe found nothing.
   */
  ghost predicate Truthful(probes: seq<Probe>, route: Route, mode: Mode, now: int, answer: FeeAnswer) {
    match answer
    case Quote(bps, threshold, fastTierAvailable, cachedAt) =>
      && WithinTheHour(cachedAt, now)
      && Probed(probes, route, mode, cachedAt, Some(Tier(threshold, bps)))
      && exists fast: Option<Tier> :: fast.Some? == fastTierAvailable && Probed(probes, route, Fast, cachedAt, fast)
    case Refused(_, _) =>
      && answer == UNAVAILABLE
      && exists at :: WithinTheHour(at, now) && Probed(probes, route, mode, at, None)
  }

  lemma BackedIsTruthful(probes: seq<Probe>, route: Route, mode: Mode, now: int, e: FeeEntry)
    requires Backed(probes, route, e) && WithinTheHour(e.cachedAt, now)
    ensures Truthful(probes, route, mode, now, AnswerOf(e, mode))
  {
    assert Probed(probes, route, mode, e.cachedAt, Quoted(e, mode));
  }

  // ----- The cache as the history of its sets

  datatype CacheSet = CacheSet(key: string, entry: FeeEntry, at: int)

  function LastSet(sets: seq<CacheSet>, key: string): Option<CacheSet> {
    if sets == [] then None
    else if sets[|sets| - 1].key == key then Some(sets[|sets| - 1])
    else LastSet(sets[..|sets| - 1], key)
  }

  lemma LastSetSnoc(sets: seq<CacheSet>, c: CacheSet, key: string)
    ensures LastSet(sets + [c], key) == if c.key == key then Some(c) else LastSet(sets, key)
  {
    assert (sets + [c])[..|sets|] == sets;
  }

  /** The last set of the key, for an hour. */
  function InCache(sets: seq<CacheSet>, key: string, now: int): Option<FeeEntry> {
    match LastSet(sets, key)
    case None => None
    case Some(c) => if now < c.at + FEE_CACHE_TTL_MS then Some(c.entry) else None
  }

  /** What was set is returned, whatever other keys are set since, until its hour is over and not then. */
  lemma {:induction false} SetIsReturned(sets: seq<CacheSet>, c: CacheSet, more: seq<CacheSet>, now: int)
    requires forall m :: m in more ==> m.key != c.key
    ensures InCache(sets + [c] + more, c.key, now) == if now < c.at + 3_600_000 then Some(c.entry) else None
  {
    if more == [] {
      assert sets + [c] + more == sets + [c];
    } else {
      SetIsReturned(sets, c, more[..|more| - 1], now);
      var all := sets + [c] + more;
      assert all[..|all| - 1] == sets + [c] + more[..|more| - 1] && all[|all| - 1] == more[|more| - 1];
    }
  }
}

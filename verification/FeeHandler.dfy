// handleFees (apps/demo/server/handlers.ts) over MemoryFeeCache (apps/demo/server/kv.ts),
// one call at a time.

module FeeHandler {
  import opened Wrappers
  import opened Transfers
  import opened Fees
  import FeeRace
  import Domains

  datatype Cached = Cached(entry: FeeEntry, expiresAt: int)

  ghost predicate Remembers(entries: map<string, Cached>, sets: seq<CacheSet>) {
    forall key ::
      match LastSet(sets, key)
      case None => key !in entries
      case Some(c) => key in entries && entries[key] == Cached(c.entry, c.at + FEE_CACHE_TTL_MS)
  }

  lemma RemembersSnoc(entries: map<string, Cached>, sets: seq<CacheSet>, c: CacheSet)
    requires Remembers(entries, sets)
    ensures Remembers(entries[c.key := Cached(c.entry, c.at + FEE_CACHE_TTL_MS)], sets + [c])
  {
    forall key ensures LastSet(sets + [c], key) == if c.key == key then Some(c) else LastSet(sets, key) {
      LastSetSnoc(sets, c, key);
    }
  }

  /** The parameters of a request as a route and a mode, or the answer that refuses them. */
  function Asked(mode: Option<Mode>, source: Option<int>, dest: Option<int>, hasBaseUrl: bool)
    : Result<(Route, Mode), FeeAnswer>
  {
    if mode.None? || source.None? || dest.None? then Err(Refused(400, InvalidParams))
    else if !Domains.IsSupported(source.value) || !Domains.IsSupported(dest.value) then Err(Refused(400, InvalidDomain))
    else if !hasBaseUrl then Err(UNAVAILABLE)
    else Ok((Route(source.value, dest.value), mode.value))
  }

  /** What a call does to the cache and the probes: nothing, or one set and two probes. */
  predicate AsksUnlessCached(sets: seq<CacheSet>, probes: seq<Probe>, sets': seq<CacheSet>, probes': seq<Probe>,
    route: Route, now: int, readAt: int, setAt: int, fastRows: seq<Row>, standardRows: seq<Row>)
  {
    if FeeRace.ServesCached(sets, route, now, readAt) then sets' == sets && probes' == probes
    else
      && sets' == sets + [CacheSet(route.Key(), EntryOf(fastRows, standardRows, now), setAt)]
      && probes' == probes
        + [Probe(route, Fast, readAt, setAt, fastRows), Probe(route, Standard, readAt, setAt, standardRows)]
  }

  /** The entry from which a call is answered. */
  predicate AnsweredFrom(sets: seq<CacheSet>, route: Route, now: int, readAt: int,
    fastRows: seq<Row>, standardRows: seq<Row>, entry: FeeEntry)
  {
    if FeeRace.ServesCached(sets, route, now, readAt) then InCache(sets, route.Key(), readAt) == Some(entry)
    else entry == EntryOf(fastRows, standardRows, now)
  }

  /** Together that is what the machine's whole call does. */
  lemma CallEnds(s: FeeRace.State, id: nat, route: Route, mode: Mode, readAt: int, setAt: int,
    fastRows: seq<Row>, standardRows: seq<Row>, entry: FeeEntry, sets: seq<CacheSet>, probes: seq<Probe>)
    requires s.clock <= readAt <= setAt
    requires AsksUnlessCached(s.sets, s.probes, sets, probes, route, s.clock, readAt, setAt, fastRows, standardRows)
    requires AnsweredFrom(s.sets, route, s.clock, readAt, fastRows, standardRows, entry)
    ensures FeeRace.AfterWhole(s, id, route, mode, readAt - s.clock, setAt - readAt, fastRows, standardRows)
         == FeeRace.State(setAt, sets, s.calls[id := FeeRace.Call(route, mode, FeeRace.Served(s.clock, entry))], probes)
  {
  }

  class FeeServer {
    const hasBaseUrl: bool
    var entries: map<string, Cached>
    ghost var sets: seq<CacheSet>
    ghost var probes: seq<Probe>
    ghost var calls: map<nat, FeeRace.Call>
    ghost var clock: int

    /** The server and all its calls so far, as a state of the machine. */
    ghost function State(): FeeRace.State
      reads this
    {
      FeeRace.State(clock, sets, calls, probes)
    }

    ghost predicate Valid()
      reads this
    {
      Remembers(entries, sets) && FeeRace.Reachable(State())
    }

    constructor (hasBaseUrl: bool, now: int)
      ensures Valid() && this.hasBaseUrl == hasBaseUrl && State() == FeeRace.Start(now)
    {
      this.hasBaseUrl := hasBaseUrl;
      entries, sets, probes, calls, clock := map[], [], [], map[], now;
      FeeRace.StartIsReachable(now);
    }

    /** MemoryFeeCache.get */
    method Get(key: string, now: int) returns (e: Option<FeeEntry>)
      requires Remembers(entries, sets)
      ensures e == InCache(sets, key, now)
    {
      if key !in entries || entries[key].expiresAt <= now {
        return None;
      }
      return Some(entries[key].entry);
    }

    /** MemoryFeeCache.set */
    method Set(key: string, e: FeeEntry, now: int)
      requires Remembers(entries, sets)
      modifies this`entries, this`sets
      ensures Remembers(entries, sets) && sets == old(sets) + [CacheSet(key, e, now)]
    {
      RemembersSnoc(entries, sets, CacheSet(key, e, now));
      sets := sets + [CacheSet(key, e, now)];
      entries := entries[key := Cached(e, now + FEE_CACHE_TTL_MS)];
    }

    /** The cached entry if it is there and young enough, or both tiers asked for and the answer set. */
    method EntryFor(route: Route, now: int, readAt: int, setAt: int, fastRows: seq<Row>, standardRows: seq<Row>)
      returns (e: FeeEntry)
      requires Remembers(entries, sets)
      modifies this`entries, this`sets, this`probes
      ensures Remembers(entries, sets) && AnsweredFrom(old(sets), route, now, readAt, fastRows, standardRows, e)
      ensures AsksUnlessCached(old(sets), old(probes), sets, probes, route, now, readAt, setAt, fastRows, standardRows)
    {
      var cached := Get(route.Key(), readAt);
      if cached.Some? && now - cached.value.cachedAt <= FEE_CACHE_TTL_MS {
        return cached.value;
      }
      e := EntryOf(fastRows, standardRows, now);
      probes := probes
        + [Probe(route, Fast, readAt, setAt, fastRows), Probe(route, Standard, readAt, setAt, standardRows)];
      Set(route.Key(), e, setAt);
    }

    /** A request that is answered by its entry. */
    method Serve(ghost id: nat, route: Route, mode: Mode, now: int, readAt: int, setAt: int,
        fastRows: seq<Row>, standardRows: seq<Row>)
      returns (answer: FeeAnswer)
      requires Valid() && clock <= now <= readAt <= setAt && id !in calls
      modifies this`entries, this`sets, this`probes, this`calls, this`clock
      ensures Valid()
      ensures State() == FeeRace.AfterWhole(old(State()).(clock := now), id, route, mode, readAt - now, setAt - readAt,
        fastRows, standardRows)
      ensures id in calls && calls[id].step.Served? && answer == AnswerOf(calls[id].step.entry, mode)
    {
      ghost var before, s := State(), State().(clock := now);
      var entry := EntryFor(route, now, readAt, setAt, fastRows, standardRows);
      CallEnds(s, id, route, mode, readAt, setAt, fastRows, standardRows, entry, sets, probes);
      FeeRace.WholeIsReachable(before, now, id, route, mode, readAt - now, setAt - readAt, fastRows, standardRows);
      clock, calls := setAt, calls[id := FeeRace.Call(route, mode, FeeRace.Served(now, entry))];
      return AnswerOf(entry, mode);
    }

    /**
     * handleFees as call number id; it reads the clock at now, and the cache does at readAt
     * and at setAt. A refused request changes nothing. Any other does what a whole call of
     * the machine does: it asks the fee API, and sets the cache, exactly when the cache has
     * no entry of the route or one that is more than an hour old; and the answer is truthful.
     */
    method HandleFees(ghost id: nat, mode: Option<Mode>, source: Option<int>, dest: Option<int>,
        now: int, readAt: int, setAt: int, fastRows: seq<Row>, standardRows: seq<Row>)
      returns (answer: FeeAnswer)
      requires Valid() && clock <= now <= readAt <= setAt && id !in calls
      modifies this`entries, this`sets, this`probes, this`calls, this`clock
      ensures Valid()
      ensures answer == Refused(400, InvalidParams) <==> mode.None? || source.None? || dest.None?
      ensures answer == Refused(400, InvalidDomain) <==>
        && mode.Some? && source.Some? && dest.Some?
        && !(Domains.IsSupported(source.value) && Domains.IsSupported(dest.value))
      ensures (answer.Refused? && answer.status == 400) || !hasBaseUrl ==> State() == old(State()) && answer.Refused?
      ensures !(answer.Refused? && answer.status == 400) && hasBaseUrl ==>
        var route := Route(source.value, dest.value);
        && State() == FeeRace.AfterWhole(old(State()).(clock := now), id, route, mode.value,
             readAt - now, setAt - readAt, fastRows, standardRows)
        && id in calls && calls[id].step.Served? && answer == AnswerOf(calls[id].step.entry, mode.value)
        && Truthful(probes, route, mode.value, now, answer)
    {
      var asked := Asked(mode, source, dest, hasBaseUrl);
      if asked.Err? {
        return asked.error;
      }
      answer := Serve(id, asked.value.0, asked.value.1, now, readAt, setAt, fastRows, standardRows);
      FeeRace.ReachableIsTruthful(State(), id);
    }
  }
}

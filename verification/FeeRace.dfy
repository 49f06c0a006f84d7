// handleFees (apps/demo/server/handlers.ts) as an interleaved step machine: any number of
// calls over one fee cache, each at one of its awaits, while the clock runs.

module FeeRace {
  import opened Wrappers
  import opened Transfers
  import opened Fees

  /** An await of handleFees; now is the time that the call read before its first one. */
  datatype FeeStep =
    | Reading(now: int)
    | Asking(now: int, sent: int, fast: Option<seq<Row>>, standard: Option<seq<Row>>)
    | Setting(now: int, entry: FeeEntry)
    | Served(now: int, entry: FeeEntry)
    | Crashed

  datatype Call = Call(route: Route, mode: Mode, step: FeeStep)

  /** The clock, the history of the cache, the calls by number, and all probes so far. */
  datatype State = State(clock: int, sets: seq<CacheSet>, calls: map<nat, Call>, probes: seq<Probe>)

  /** How a call of the cache ends; Unacked: the set lands, but the call rejects. */
  datatype CacheReply = Ack | Unacked | Throws

  datatype Event =
    | Tick(ms: nat)
    | Begin(id: nat, route: Route, mode: Mode)
    | Read(id: nat, reply: CacheReply)
    | Answered(id: nat, mode: Mode, rows: seq<Row>)
    | Set(id: nat, reply: CacheReply)

  /** The read of the cache, and the handler's own test of the entry's age. */
  function AfterRead(s: State, c: Call, now: int): FeeStep {
    match InCache(s.sets, c.route.Key(), s.clock)
    case None => Asking(now, s.clock, None, None)
    case Some(e) => if now - e.cachedAt > FEE_CACHE_TTL_MS then Asking(now, s.clock, None, None) else Served(now, e)
  }

  /** One of the two probes has come back; the entry is made when both have. */
  function AfterReply(a: FeeStep, mode: Mode, rows: seq<Row>): FeeStep
    requires a.Asking?
  {
    var b := match mode
      case Fast => a.(fast := Some(rows))
      case Standard => a.(standard := Some(rows));
    if b.fast.Some? && b.standard.Some? then Setting(a.now, EntryOf(b.fast.value, b.standard.value, a.now)) else b
  }

  /** The probe of this tier is still out. */
  predicate Awaited(a: FeeStep, mode: Mode) {
    a.Asking? && match mode case Fast => a.fast.None? case Standard => a.standard.None?
  }

  function Moved(s: State, id: nat, a: FeeStep): State
    requires id in s.calls
  {
    s.(calls := s.calls[id := s.calls[id].(step := a)])
  }

  function Next(s: State, e: Event): State {
    match e
    case Tick(ms) => s.(clock := s.clock + ms)
    case Begin(id, route, mode) =>
      if id in s.calls then s else s.(calls := s.calls[id := Call(route, mode, Reading(s.clock))])
    case Read(id, reply) =>
      if id !in s.calls || !s.calls[id].step.Reading? then s
      else Moved(s, id, if reply.Ack? then AfterRead(s, s.calls[id], s.calls[id].step.now) else Crashed)
    case Answered(id, mode, rows) =>
      if id !in s.calls || !Awaited(s.calls[id].step, mode) then s
      else Moved(s, id, AfterReply(s.calls[id].step, mode, rows)).(probes := s.probes
        + [Probe(s.calls[id].route, mode, s.calls[id].step.sent, s.clock, rows)])
    case Set(id, reply) =>
      if id !in s.calls || !s.calls[id].step.Setting? then s else
        var a := s.calls[id].step;
        Moved(s, id, if reply.Ack? then Served(a.now, a.entry) else Crashed).(sets :=
          if reply.Throws? then s.sets else s.sets + [CacheSet(s.calls[id].route.Key(), a.entry, s.clock)])
  }

  function Run(s: State, es: seq<Event>): State
    decreases |es|
  {
    if es == [] then s else Run(Next(s, es[0]), es[1..])
  }

  function Start(now: int): State {
    State(now, [], map[], [])
  }

  // ----- What every step keeps

  /** A probe of this route and mode, sent then, brought these rows. */
  ghost predicate Brought(probes: seq<Probe>, route: Route, mode: Mode, sent: int, rows: seq<Row>) {
    exists p :: p in probes && p.route == route && p.mode == mode && p.sent == sent && p.rows == rows
  }

  ghost predicate CallOk(s: State, c: Call) {
    match c.step
    case Reading(now) => now <= s.clock
    case Asking(now, sent, fast, standard) =>
      && now <= sent <= s.clock
      && (fast.Some? ==> Brought(s.probes, c.route, Fast, sent, fast.value))
      && (standard.Some? ==> Brought(s.probes, c.route, Standard, sent, standard.value))
    case Setting(now, e) => e.cachedAt == now <= s.clock && Backed(s.probes, c.route, e)
    case Served(now, e) =>
      now <= s.clock && e.cachedAt <= s.clock && WithinTheHour(e.cachedAt, now) && Backed(s.probes, c.route, e)
    case Crashed => true
  }

  /** What the cache holds was found by probes, no later than its set. */
  ghost predicate SetOk(s: State, c: CacheSet) {
    c.entry.cachedAt <= c.at <= s.clock && forall r: Route :: r.Key() == c.key ==> Backed(s.probes, r, c.entry)
  }

  ghost predicate Inv(s: State) {
    && (forall id :: id in s.calls ==> CallOk(s, s.calls[id]))
    && (forall c :: c in s.sets ==> SetOk(s, c))
    && (forall p :: p in s.probes ==> p.sent <= p.answered <= s.clock)
  }

  lemma {:induction false} LastSetIn(sets: seq<CacheSet>, key: string)
    ensures LastSet(sets, key).Some? ==> LastSet(sets, key).value in sets && LastSet(sets, key).value.key == key
  {
    if sets != [] { LastSetIn(sets[..|sets| - 1], key); }
  }

  /** More time and more probes. */
  lemma CallStays(s: State, t: State, more: seq<Probe>, c: Call)
    requires CallOk(s, c) && s.clock <= t.clock && t.probes == s.probes + more
    ensures CallOk(t, c)
  {
    match c.step
    case Asking(_, _, _, _) =>
    case Setting(_, e) => BackedStays(s.probes, more, c.route, e);
    case Served(_, e) => BackedStays(s.probes, more, c.route, e);
    case _ =>
  }

  lemma SetStays(s: State, t: State, more: seq<Probe>, c: CacheSet)
    requires SetOk(s, c) && s.clock <= t.clock && t.probes == s.probes + more
    ensures SetOk(t, c)
  {
    forall r: Route | r.Key() == c.key ensures Backed(t.probes, r, c.entry) {
      BackedStays(s.probes, more, r, c.entry);
    }
  }

  /** One call at a new step, perhaps with one more probe or one more set. */
  lemma Widened(s: State, t: State, more: seq<Probe>, set': seq<CacheSet>)
    requires Inv(s) && s.clock <= t.clock && t.probes == s.probes + more && t.sets == s.sets + set'
    requires forall p :: p in more ==> p.sent <= p.answered <= t.clock
    requires forall c :: c in set' ==> SetOk(t, c)
    requires forall id :: id in t.calls ==> CallOk(t, t.calls[id]) || (id in s.calls && t.calls[id] == s.calls[id])
    ensures Inv(t)
  {
    forall id | id in t.calls ensures CallOk(t, t.calls[id]) {
      if id in s.calls && t.calls[id] == s.calls[id] { CallStays(s, t, more, s.calls[id]); }
    }
    forall c | c in t.sets ensures SetOk(t, c) {
      if c in s.sets { SetStays(s, t, more, c); }
    }
  }

  lemma ReadInv(s: State, id: nat, reply: CacheReply)
    requires Inv(s) && id in s.calls && s.calls[id].step.Reading?
    ensures Inv(Next(s, Read(id, reply)))
  {
    var c, t := s.calls[id], Next(s, Read(id, reply));
    var key := c.route.Key();
    assert CallOk(s, c);
    LastSetIn(s.sets, key);
    if LastSet(s.sets, key).Some? { assert SetOk(s, LastSet(s.sets, key).value); }
    assert CallOk(t, t.calls[id]);
    assert t.probes == s.probes + [] && t.sets == s.sets + [];
    Widened(s, t, [], []);
  }

  lemma ReplyOk(s: State, t: State, c: Call, mode: Mode, rows: seq<Row>)
    requires CallOk(s, c) && Awaited(c.step, mode) && t.clock == s.clock
    requires t.probes == s.probes + [Probe(c.route, mode, c.step.sent, s.clock, rows)]
    ensures CallOk(t, c.(step := AfterReply(c.step, mode, rows)))
  {
    var p := Probe(c.route, mode, c.step.sent, s.clock, rows);
    assert p in t.probes;
    CallStays(s, t, [p], c);
    assert Brought(t.probes, c.route, mode, c.step.sent, rows);
  }

  lemma AnsweredInv(s: State, id: nat, mode: Mode, rows: seq<Row>)
    requires Inv(s) && id in s.calls && Awaited(s.calls[id].step, mode)
    ensures Inv(Next(s, Answered(id, mode, rows)))
  {
    var c, t := s.calls[id], Next(s, Answered(id, mode, rows));
    assert CallOk(s, c);
    ReplyOk(s, t, c, mode, rows);
    assert t.sets == s.sets + [];
    Widened(s, t, [Probe(c.route, mode, c.step.sent, s.clock, rows)], []);
  }

  lemma SetInv(s: State, id: nat, reply: CacheReply)
    requires Inv(s) && id in s.calls && s.calls[id].step.Setting?
    ensures Inv(Next(s, Set(id, reply)))
  {
    var c, t := s.calls[id], Next(s, Set(id, reply));
    assert CallOk(s, c);
    var set' := CacheSet(c.route.Key(), c.step.entry, s.clock);
    forall r: Route | r.Key() == set'.key ensures Backed(t.probes, r, set'.entry) {
      RouteKeyInjective(r.source, r.dest, c.route.source, c.route.dest);
    }
    assert t.probes == s.probes + [] && s.sets == s.sets + [];
    Widened(s, t, [], if reply.Throws? then [] else [set']);
  }

  /** Every event, whichever call it moves, keeps the invariant. */
  lemma NextInv(s: State, e: Event)
    requires Inv(s)
    ensures Inv(Next(s, e))
  {
    assert s.probes == s.probes + [] && s.sets == s.sets + [];
    match e
    case Read(id, reply) => if id in s.calls && s.calls[id].step.Reading? { ReadInv(s, id, reply); }
    case Answered(id, mode, rows) =>
      if id in s.calls && Awaited(s.calls[id].step, mode) { AnsweredInv(s, id, mode, rows); }
    case Set(id, reply) => if id in s.calls && s.calls[id].step.Setting? { SetInv(s, id, reply); }
    case _ => Widened(s, Next(s, e), [], []);
  }

  lemma {:induction false} RunInv(s: State, es: seq<Event>)
    requires Inv(s)
    ensures Inv(Run(s, es))
    decreases |es|
  {
    if es != [] {
      NextInv(s, es[0]);
      RunInv(Next(s, es[0]), es[1..]);
    }
  }

  // ----- Main results

  /**
   * Over every interleaving of any number of calls: what a call answers is what probes of
   * its own route found, sent no earlier than the time that the quote carries, and that
   * time is at most an hour before the call's own reading of the clock.
   */
  lemma AnswersAreTruthful(now: int, es: seq<Event>, id: nat)
    requires var s := Run(Start(now), es); id in s.calls && s.calls[id].step.Served?
    ensures var s := Run(Start(now), es);
      var c := s.calls[id];
      Truthful(s.probes, c.route, c.mode, c.step.now, AnswerOf(c.step.entry, c.mode))
  {
    var s := Run(Start(now), es);
    RunInv(Start(now), es);
    var c := s.calls[id];
    assert CallOk(s, c);
    BackedIsTruthful(s.probes, c.route, c.mode, c.step.now, c.step.entry);
  }

  /** A route is not asked for within an hour of the time that its last set entry carries. */
  lemma YoungEntryIsServed(now: int, es: seq<Event>, id: nat, last: CacheSet)
    requires var s := Run(Start(now), es);
      && id in s.calls && s.calls[id].step.Reading?
      && LastSet(s.sets, s.calls[id].route.Key()) == Some(last) && s.clock < last.entry.cachedAt + 3_600_000
    ensures var s := Run(Start(now), es);
      var t := Next(s, Read(id, Ack));
      t.calls[id].step == Served(s.calls[id].step.now, last.entry) && t.probes == s.probes
  {
    var s := Run(Start(now), es);
    RunInv(Start(now), es);
    assert CallOk(s, s.calls[id]);
    LastSetIn(s.sets, s.calls[id].route.Key());
    assert SetOk(s, last);
  }

  // ----- A whole call

  /** The cache has an entry of the route that is at most an hour old for the call. */
  predicate ServesCached(sets: seq<CacheSet>, route: Route, now: int, readAt: int) {
    var e := InCache(sets, route.Key(), readAt);
    e.Some? && now - e.value.cachedAt <= FEE_CACHE_TTL_MS
  }

  /** The call reads the clock, looks into the cache, and probes for as long as it takes. */
  function Whole(id: nat, route: Route, mode: Mode, look: nat, took: nat, fastRows: seq<Row>, standardRows: seq<Row>)
    : seq<Event>
  {
    [Begin(id, route, mode), Tick(look), Read(id, Ack), Tick(took),
      Answered(id, Fast, fastRows), Answered(id, Standard, standardRows), Set(id, Ack)]
  }

  /** The state after it. */
  function AfterWhole(s: State, id: nat, route: Route, mode: Mode, look: nat, took: nat,
    fastRows: seq<Row>, standardRows: seq<Row>): State
  {
    var now, readAt, setAt := s.clock, s.clock + look, s.clock + look + took;
    if ServesCached(s.sets, route, now, readAt) then
      State(setAt, s.sets,
        s.calls[id := Call(route, mode, Served(now, InCache(s.sets, route.Key(), readAt).value))], s.probes)
    else
      var e := EntryOf(fastRows, standardRows, now);
      State(setAt, s.sets + [CacheSet(route.Key(), e, setAt)], s.calls[id := Call(route, mode, Served(now, e))],
        s.probes + [Probe(route, Fast, readAt, setAt, fastRows), Probe(route, Standard, readAt, setAt, standardRows)])
  }

  lemma RunHead(s: State, e: Event, es: seq<Event>)
    ensures Run(s, [e] + es) == Run(Next(s, e), es)
  {
    assert ([e] + es)[1..] == es;
  }

  lemma {:induction false} RunAppend(s: State, es: seq<Event>, fs: seq<Event>)
    ensures Run(s, es + fs) == Run(Run(s, es), fs)
    decreases |es|
  {
    if es == [] {
      assert es + fs == fs;
    } else {
      assert (es + fs)[1..] == es[1..] + fs;
      RunAppend(Next(s, es[0]), es[1..], fs);
    }
  }

  lemma ToRead(s: State, id: nat, route: Route, mode: Mode, look: nat, took: nat)
    requires id !in s.calls
    ensures var c := Call(route, mode, Reading(s.clock));
      var t := s.(clock := s.clock + look, calls := s.calls[id := c]);
      Run(s, [Begin(id, route, mode), Tick(look), Read(id, Ack), Tick(took)])
        == t.(clock := s.clock + look + took, calls := s.calls[id := c.(step := AfterRead(t, c, s.clock))])
  {
    var c := Call(route, mode, Reading(s.clock));
    var s1 := Next(s, Begin(id, route, mode));
    var s2 := Next(s1, Tick(look));
    var s3 := Next(s2, Read(id, Ack));
    RunHead(s, Begin(id, route, mode), [Tick(look), Read(id, Ack), Tick(took)]);
    RunHead(s1, Tick(look), [Read(id, Ack), Tick(took)]);
    RunHead(s2, Read(id, Ack), [Tick(took)]);
    RunHead(s3, Tick(took), []);
    assert s3.calls == s.calls[id := c.(step := AfterRead(s2, c, s.clock))];
  }

  /** The rest of a call that was served from the cache: nothing. */
  lemma RestOfServed(s: State, id: nat, fastRows: seq<Row>, standardRows: seq<Row>)
    requires id in s.calls && s.calls[id].step.Served?
    ensures Run(s, [Answered(id, Fast, fastRows), Answered(id, Standard, standardRows), Set(id, Ack)]) == s
  {
    RunHead(s, Answered(id, Fast, fastRows), [Answered(id, Standard, standardRows), Set(id, Ack)]);
    RunHead(s, Answered(id, Standard, standardRows), [Set(id, Ack)]);
    RunHead(s, Set(id, Ack), []);
  }

  /** And of one that asks. */
  lemma RestOfAsking(s: State, id: nat, fastRows: seq<Row>, standardRows: seq<Row>)
    requires id in s.calls && s.calls[id].step.Asking?
    requires s.calls[id].step.fast.None? && s.calls[id].step.standard.None?
    ensures var c := s.calls[id];
      var e := EntryOf(fastRows, standardRows, c.step.now);
      Run(s, [Answered(id, Fast, fastRows), Answered(id, Standard, standardRows), Set(id, Ack)])
        == State(s.clock, s.sets + [CacheSet(c.route.Key(), e, s.clock)],
          s.calls[id := c.(step := Served(c.step.now, e))],
          s.probes + [Probe(c.route, Fast, c.step.sent, s.clock, fastRows),
            Probe(c.route, Standard, c.step.sent, s.clock, standardRows)])
  {
    var c := s.calls[id];
    var s1 := Next(s, Answered(id, Fast, fastRows));
    var s2 := Next(s1, Answered(id, Standard, standardRows));
    var s3 := Next(s2, Set(id, Ack));
    RunHead(s, Answered(id, Fast, fastRows), [Answered(id, Standard, standardRows), Set(id, Ack)]);
    RunHead(s1, Answered(id, Standard, standardRows), [Set(id, Ack)]);
    RunHead(s2, Set(id, Ack), []);
    assert s3.calls == s.calls[id := s3.calls[id]];
    assert s3.probes == s.probes + [Probe(c.route, Fast, c.step.sent, s.clock, fastRows),
      Probe(c.route, Standard, c.step.sent, s.clock, standardRows)];
  }

  lemma WholeCall(s: State, id: nat, route: Route, mode: Mode, look: nat, took: nat,
    fastRows: seq<Row>, standardRows: seq<Row>)
    requires id !in s.calls
    ensures Run(s, Whole(id, route, mode, look, took, fastRows, standardRows))
         == AfterWhole(s, id, route, mode, look, took, fastRows, standardRows)
  {
    var one := [Begin(id, route, mode), Tick(look), Read(id, Ack), Tick(took)];
    var two := [Answered(id, Fast, fastRows), Answered(id, Standard, standardRows), Set(id, Ack)];
    ToRead(s, id, route, mode, look, took);
    var t := Run(s, one);
    RunAppend(s, one, two);
    assert one + two == Whole(id, route, mode, look, took, fastRows, standardRows);
    var target := AfterWhole(s, id, route, mode, look, took, fastRows, standardRows);
    if ServesCached(s.sets, route, s.clock, s.clock + look) {
      RestOfServed(t, id, fastRows, standardRows);
    } else {
      RestOfAsking(t, id, fastRows, standardRows);
      assert Run(t, two).calls == target.calls;
    }
  }

  // ----- Reachable states

  ghost predicate Reachable(s: State) {
    exists now, es :: s == Run(Start(now), es)
  }

  lemma StartIsReachable(now: int)
    ensures Reachable(Start(now))
  {
    assert Start(now) == Run(Start(now), []);
  }

  lemma WholeIsReachable(s: State, now: int, id: nat, route: Route, mode: Mode, look: nat, took: nat,
    fastRows: seq<Row>, standardRows: seq<Row>)
    requires Reachable(s) && s.clock <= now && id !in s.calls
    ensures Reachable(AfterWhole(s.(clock := now), id, route, mode, look, took, fastRows, standardRows))
  {
    var t, es :| s == Run(Start(t), es);
    var whole := Whole(id, route, mode, look, took, fastRows, standardRows);
    RunHead(s, Tick(now - s.clock), whole);
    WholeCall(s.(clock := now), id, route, mode, look, took, fastRows, standardRows);
    RunAppend(Start(t), es, [Tick(now - s.clock)] + whole);
  }

  lemma ReachableIsTruthful(s: State, id: nat)
    requires Reachable(s) && id in s.calls && s.calls[id].step.Served?
    ensures var c := s.calls[id]; Truthful(s.probes, c.route, c.mode, c.step.now, AnswerOf(c.step.entry, c.mode))
  {
    var now, es :| s == Run(Start(now), es);
    AnswersAreTruthful(now, es, id);
  }

  // ----- Where the hour ends

  /** One call whose probes take a while, and later a second one. */
  function TwoCalls(route: Route, mode: Mode, took: nat, later: nat, fastRows: seq<Row>, standardRows: seq<Row>)
    : seq<Event>
  {
    Whole(0, route, mode, 0, took, fastRows, standardRows) + [Tick(later), Begin(1, route, mode), Read(1, Ack)]
  }

  /** A new call some time later, up to its read. */
  lemma LaterRead(s: State, id: nat, route: Route, mode: Mode, later: nat)
    requires id !in s.calls
    ensures var t := s.(clock := s.clock + later);
      var u := Run(s, [Tick(later), Begin(id, route, mode), Read(id, Ack)]);
      && u.sets == s.sets && u.clock == t.clock && id in u.calls
      && u.calls[id].step == AfterRead(t, Call(route, mode, Reading(t.clock)), t.clock)
  {
    var t := Next(s, Tick(later));
    RunHead(s, Tick(later), [Begin(id, route, mode), Read(id, Ack)]);
    RunHead(t, Begin(id, route, mode), [Read(id, Ack)]);
    RunHead(Next(t, Begin(id, route, mode)), Read(id, Ack), []);
  }

  /**
   * The second call is served iff the cache still has the entry and the entry is at most an
   * hour old. The two conditions differ whenever the probes took time: the first alone
   * decides at their end, a quote can be exactly an hour old, and an entry that the cache
   * still has can be asked for again.
   */
  lemma SecondCallIsServedIff(now: int, route: Route, mode: Mode, took: nat, later: nat,
    fastRows: seq<Row>, standardRows: seq<Row>)
    ensures var s := Run(Start(now), TwoCalls(route, mode, took, later, fastRows, standardRows));
      && 1 in s.calls
      && (InCache(s.sets, route.Key(), s.clock).Some? <==> later < FEE_CACHE_TTL_MS)
      && (s.calls[1].step.Served? <==> later < FEE_CACHE_TTL_MS && took + later <= FEE_CACHE_TTL_MS)
      && (s.calls[1].step.Served? ==> s.calls[1].step.now - s.calls[1].step.entry.cachedAt == took + later)
      && (!s.calls[1].step.Served? ==> s.calls[1].step.Asking?)
  {
    var first := Whole(0, route, mode, 0, took, fastRows, standardRows);
    WholeCall(Start(now), 0, route, mode, 0, took, fastRows, standardRows);
    var rest := [Tick(later), Begin(1, route, mode), Read(1, Ack)];
    RunAppend(Start(now), first, rest);
    var s := Run(Start(now), first);
    LastSetSnoc([], CacheSet(route.Key(), EntryOf(fastRows, standardRows, now), now + took), route.Key());
    LaterRead(s, 1, route, mode, later);
  }

  /** A quote that is exactly one hour old, from probes that took any time at all. */
  lemma HourOldQuoteIsServed(now: int, route: Route, mode: Mode, took: nat, fastRows: seq<Row>, standardRows: seq<Row>)
    requires 0 < took <= FEE_CACHE_TTL_MS
    ensures var s := Run(Start(now),
        TwoCalls(route, mode, took, FEE_CACHE_TTL_MS - took, fastRows, standardRows));
      1 in s.calls && s.calls[1].step.Served?
        && s.calls[1].step.now - s.calls[1].step.entry.cachedAt == FEE_CACHE_TTL_MS
  {
    SecondCallIsServedIff(now, route, mode, took, FEE_CACHE_TTL_MS - took, fastRows, standardRows);
  }

  /** An entry that the cache still has, and that is asked for again all the same. */
  lemma LiveEntryIsAskedAgain(now: int, route: Route, mode: Mode, took: nat, later: nat,
    fastRows: seq<Row>, standardRows: seq<Row>)
    requires later < FEE_CACHE_TTL_MS < took + later
    ensures var s := Run(Start(now), TwoCalls(route, mode, took, later, fastRows, standardRows));
      InCache(s.sets, route.Key(), s.clock).Some? && 1 in s.calls && s.calls[1].step.Asking?
  {
    SecondCallIsServedIff(now, route, mode, took, later, fastRows, standardRows);
  }

  // ----- Two fills at once

  /** Call 1 begins and ends while the probes of call 0 are out. */
  function Overlap(route: Route, mode: Mode, gap: nat, fastRows: seq<Row>, standardRows: seq<Row>): seq<Event> {
    [Begin(0, route, mode), Tick(0), Read(0, Ack), Tick(gap)]
    + (Whole(1, route, mode, 0, 0, fastRows, standardRows)
      + [Answered(0, Fast, fastRows), Answered(0, Standard, standardRows), Set(0, Ack)])
  }

  /** Call 0 has read the cache, and its probes are out. */
  function Waiting(now: int, route: Route, mode: Mode, gap: nat): State {
    State(now + gap, [], map[0 := Call(route, mode, Asking(now, now, None, None))], [])
  }

  lemma OverlapHead(now: int, route: Route, mode: Mode, gap: nat)
    ensures Run(Start(now), [Begin(0, route, mode), Tick(0), Read(0, Ack), Tick(gap)]) == Waiting(now, route, mode, gap)
  {
    ToRead(Start(now), 0, route, mode, 0, gap);
  }

  lemma OverlapMiddle(now: int, route: Route, mode: Mode, gap: nat, fastRows: seq<Row>, standardRows: seq<Row>)
    ensures var s := Run(Waiting(now, route, mode, gap), Whole(1, route, mode, 0, 0, fastRows, standardRows));
      && s.clock == now + gap && s.calls.Keys == {0, 1} && |s.probes| == 2
      && s.calls[0] == Waiting(now, route, mode, gap).calls[0]
      && s.sets == [CacheSet(route.Key(), EntryOf(fastRows, standardRows, now + gap), now + gap)]
  {
    WholeCall(Waiting(now, route, mode, gap), 1, route, mode, 0, 0, fastRows, standardRows);
  }

  lemma OverlapRun(now: int, route: Route, mode: Mode, gap: nat, fastRows: seq<Row>, standardRows: seq<Row>)
    ensures var s := Run(Start(now), Overlap(route, mode, gap, fastRows, standardRows));
      && s.clock == now + gap && s.calls.Keys == {0, 1} && |s.probes| == 4
      && s.sets == [CacheSet(route.Key(), EntryOf(fastRows, standardRows, now + gap), now + gap),
        CacheSet(route.Key(), EntryOf(fastRows, standardRows, now), now + gap)]
  {
    var whole := Whole(1, route, mode, 0, 0, fastRows, standardRows);
    var rest := [Answered(0, Fast, fastRows), Answered(0, Standard, standardRows), Set(0, Ack)];
    OverlapHead(now, route, mode, gap);
    RunAppend(Start(now), [Begin(0, route, mode), Tick(0), Read(0, Ack), Tick(gap)], whole + rest);
    OverlapMiddle(now, route, mode, gap, fastRows, standardRows);
    var s1 := Waiting(now, route, mode, gap);
    RunAppend(s1, whole, rest);
    RestOfAsking(Run(s1, whole), 0, fastRows, standardRows);
  }

  /**
   * Concurrent misses both ask, and the slower call's quote replaces the newer one: the
   * cached time goes back. So the hour of YoungEntryIsServed is that of the last set, and
   * not of the newest quote: from here a third call asks again while the newer quote is
   * less than an hour old.
   */
  lemma OlderQuoteReplacesNewer(now: int, route: Route, mode: Mode, gap: nat, later: nat,
    fastRows: seq<Row>, standardRows: seq<Row>)
    requires later < FEE_CACHE_TTL_MS < gap + later
    ensures var s := Run(Start(now), Overlap(route, mode, gap, fastRows, standardRows));
      && |s.probes| == 4
      && s.sets == [CacheSet(route.Key(), EntryOf(fastRows, standardRows, now + gap), now + gap),
        CacheSet(route.Key(), EntryOf(fastRows, standardRows, now), now + gap)]
      && var t := Run(s, [Tick(later), Begin(2, route, mode), Read(2, Ack)]);
        && 2 in t.calls && t.calls[2].step.Asking?
        && t.clock < s.sets[0].entry.cachedAt + FEE_CACHE_TTL_MS
  {
    OverlapRun(now, route, mode, gap, fastRows, standardRows);
    var s := Run(Start(now), Overlap(route, mode, gap, fastRows, standardRows));
    LastSetSnoc([s.sets[0]], s.sets[1], route.Key());
    LaterRead(s, 2, route, mode, later);
  }
}

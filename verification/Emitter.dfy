// createEventEmitter (packages/core/src/events/index.ts): on, once, off and emit, called
// in any order and from inside the handlers that an emit is delivering to.

module Emitter {

  // ----- What happened, as a log

  /** A registration; `id` stands for the identity of the wrapper object. */
  datatype Wrapper = Wrapper(id: nat, fn: nat, once: bool)

  datatype Entry =
    | Registered(event: string, w: Wrapper)
    | Removed(event: string, fn: nat)
    | Began(emit: nat, event: string)
    | Delivered(emit: nat, w: Wrapper, threw: bool)

  function Without(list: seq<Wrapper>, fn: nat): (r: seq<Wrapper>)
    ensures forall w :: w in r <==> w in list && w.fn != fn
  {
    if list == [] then []
    else
      var last := list[|list| - 1];
      Without(list[..|list| - 1], fn) + if last.fn == fn then [] else [last]
  }

  function Persistent(list: seq<Wrapper>): (r: seq<Wrapper>)
    ensures forall w :: w in r <==> w in list && !w.once
  {
    if list == [] then []
    else
      var last := list[|list| - 1];
      Persistent(list[..|list| - 1]) + if last.once then [] else [last]
  }

  /** What one entry does to the list of an event. */
  function Updated(list: seq<Wrapper>, x: Entry, event: string): seq<Wrapper> {
    match x
    case Registered(e, w) => if e == event then list + [w] else list
    case Removed(e, fn) => if e == event then Without(list, fn) else list
    case Began(_, e) => if e == event then Persistent(list) else list
    case Delivered(_, _, _) => list
  }

  /** The registrations in force on an event after this log, in order. */
  function LiveList(log: seq<Entry>, event: string): seq<Wrapper> {
    if log == [] then [] else Updated(LiveList(log[..|log| - 1], event), log[|log| - 1], event)
  }

  /** What one entry adds to the deliveries of emit number k. */
  function Delivery(x: Entry, k: nat): seq<Wrapper> {
    if x.Delivered? && x.emit == k then [x.w] else []
  }

  /** What emit number k has delivered so far, in order. */
  function DeliveriesOf(log: seq<Entry>, k: nat): seq<Wrapper> {
    if log == [] then [] else DeliveriesOf(log[..|log| - 1], k) + Delivery(log[|log| - 1], k)
  }

  lemma Append(log: seq<Entry>, x: Entry)
    ensures forall k: nat :: DeliveriesOf(log + [x], k) == DeliveriesOf(log, k) + Delivery(x, k)
    ensures forall event :: LiveList(log + [x], event) == Updated(LiveList(log, event), x, event)
  {
    assert (log + [x])[..|log|] == log;
  }

  // ----- What an in-force registration is

  /** This entry ends the registration. */
  predicate Ends(x: Entry, event: string, w: Wrapper) {
    x == Removed(event, w.fn) || (w.once && x.Began? && x.event == event)
  }

  ghost predicate InForce(log: seq<Entry>, event: string, w: Wrapper) {
    exists i :: 0 <= i < |log| && log[i] == Registered(event, w) && forall j :: i < j < |log| ==>
      !Ends(log[j], event, w)
  }

  lemma InForceSnoc(front: seq<Entry>, last: Entry, event: string, w: Wrapper)
    ensures InForce(front + [last], event, w)
      <==> last == Registered(event, w) || (InForce(front, event, w) && !Ends(last, event, w))
  {
    var log := front + [last];
    if InForce(log, event, w) && last != Registered(event, w) {
      var i :| 0 <= i < |log| && log[i] == Registered(event, w) && forall j :: i < j < |log| ==>
        !Ends(log[j], event, w);
      assert !Ends(log[|front|], event, w);
      assert front[i] == Registered(event, w);
      forall j | i < j < |front| ensures !Ends(front[j], event, w) {
        assert log[j] == front[j];
      }
    }
    if last == Registered(event, w) {
      assert log[|front|] == Registered(event, w);
    } else if InForce(front, event, w) && !Ends(last, event, w) {
      var i :| 0 <= i < |front| && front[i] == Registered(event, w) && forall j :: i < j < |front| ==>
        !Ends(front[j], event, w);
      assert log[i] == Registered(event, w);
    }
  }

  /** A registration is in the list exactly while nothing has ended it. */
  lemma {:induction false} LiveMeaning(log: seq<Entry>, event: string, w: Wrapper)
    ensures w in LiveList(log, event) <==> InForce(log, event, w)
  {
    if log != [] {
      var front, last := log[..|log| - 1], log[|log| - 1];
      LiveMeaning(front, event, w);
      InForceSnoc(front, last, event, w);
      assert log == front + [last];
    }
  }

  /** Registrations are numbered in the order in which they are made. */
  predicate RegistrationsInOrder(log: seq<Entry>) {
    forall i, j :: 0 <= i < j < |log| && log[i].Registered? && log[j].Registered? ==> log[i].w.id < log[j].w.id
  }

  predicate EmitsInOrder(log: seq<Entry>) {
    forall i, j :: 0 <= i < j < |log| && log[i].Began? && log[j].Began? ==> log[i].emit < log[j].emit
  }

  predicate Ascending(list: seq<Wrapper>) {
    forall a, b :: 0 <= a < b < |list| ==> list[a].id < list[b].id
  }

  lemma LastIsGreatest(list: seq<Wrapper>, w: Wrapper)
    requires Ascending(list) && list != [] && w in list[..|list| - 1]
    ensures w.id < list[|list| - 1].id
  {
    var i :| 0 <= i < |list| - 1 && list[i] == w;
  }

  lemma {:induction false} WithoutKeepsOrder(list: seq<Wrapper>, fn: nat)
    requires Ascending(list)
    ensures Ascending(Without(list, fn))
  {
    if list != [] {
      var front, last := list[..|list| - 1], list[|list| - 1];
      WithoutKeepsOrder(front, fn);
      forall w | w in Without(front, fn) ensures w.id < last.id {
        LastIsGreatest(list, w);
      }
      BelowLast(Without(front, fn), last);
    }
  }

  lemma {:induction false} PersistentKeepsOrder(list: seq<Wrapper>)
    requires Ascending(list)
    ensures Ascending(Persistent(list))
  {
    if list != [] {
      var front, last := list[..|list| - 1], list[|list| - 1];
      PersistentKeepsOrder(front);
      forall w | w in Persistent(front) ensures w.id < last.id {
        LastIsGreatest(list, w);
      }
      BelowLast(Persistent(front), last);
    }
  }

  lemma BelowLast(list: seq<Wrapper>, last: Wrapper)
    requires Ascending(list) && forall w :: w in list ==> w.id < last.id
    ensures Ascending(list + [last])
  {
    forall a, b | 0 <= a < b < |list + [last]| ensures (list + [last])[a].id < (list + [last])[b].id {
      if b == |list| {
        assert list[a] in list;
      }
    }
  }

  /** The list is in registration order, without repetitions. */
  lemma {:induction false} LiveInOrder(log: seq<Entry>, event: string)
    requires RegistrationsInOrder(log)
    ensures Ascending(LiveList(log, event))
  {
    if log != [] {
      var front, last := log[..|log| - 1], log[|log| - 1];
      LiveInOrder(front, event);
      var before := LiveList(front, event);
      if last.Removed? {
        WithoutKeepsOrder(before, last.fn);
      } else if last.Began? {
        PersistentKeepsOrder(before);
      } else if last.Registered? && last.event == event {
        forall w | w in before ensures w.id < last.w.id {
          LiveMeaning(front, event, w);
          var i :| 0 <= i < |front| && front[i] == Registered(event, w);
          assert log[i].Registered? && log[|log| - 1].Registered?;
        }
        BelowLast(before, last.w);
      }
    }
  }

  // ----- What a whole run guarantees

  ghost predicate Begun(log: seq<Entry>, k: nat) {
    exists i :: 0 <= i < |log| && log[i].Began? && log[i].emit == k
  }

  /** Every emit that began at or after `from` has delivered its starting list, all of it and in order. */
  ghost predicate Complete(log: seq<Entry>, from: nat) {
    forall i :: from <= i < |log| && log[i].Began? ==>
      DeliveriesOf(log, log[i].emit) == LiveList(log[..i], log[i].event)
  }

  ghost predicate DeliveriesBegun(log: seq<Entry>) {
    forall j :: 0 <= j < |log| && log[j].Delivered? ==> Begun(log[..j], log[j].emit)
  }

  ghost predicate Faithful(log: seq<Entry>) {
    RegistrationsInOrder(log) && EmitsInOrder(log) && DeliveriesBegun(log) && Complete(log, 0)
  }

  /** Delivery j of emit k stands in k's deliveries behind those before j. */
  lemma {:induction false} DeliveryPlace(log: seq<Entry>, k: nat, j: nat)
    requires j < |log| && log[j].Delivered? && log[j].emit == k
    ensures var p := |DeliveriesOf(log[..j], k)|; p < |DeliveriesOf(log, k)| && DeliveriesOf(log, k)[p] == log[j].w
    ensures DeliveriesOf(log[..j], k) <= DeliveriesOf(log, k)
  {
    var front := log[..|log| - 1];
    if j < |front| {
      DeliveryPlace(front, k, j);
      assert front[..j] == log[..j];
    } else {
      assert log[..j] == front;
    }
  }

  lemma PlacesGrow(log: seq<Entry>, k: nat, i: nat, j: nat)
    requires i < j <= |log| && log[i].Delivered? && log[i].emit == k
    ensures |DeliveriesOf(log[..i], k)| < |DeliveriesOf(log[..j], k)|
  {
    DeliveryPlace(log[..j], k, i);
    assert log[..j][..i] == log[..i];
  }

  /** A delivered registration was in force when its emit began. */
  lemma DeliveredWasInForce(log: seq<Entry>, j: nat) returns (a: nat)
    requires Faithful(log) && j < |log| && log[j].Delivered?
    ensures a < j && log[a].Began? && log[a].emit == log[j].emit && InForce(log[..a], log[a].event, log[j].w)
  {
    assert Begun(log[..j], log[j].emit);
    a :| 0 <= a < j && log[..j][a].Began? && log[..j][a].emit == log[j].emit;
    assert log[a].Began?;
    DeliveryPlace(log, log[j].emit, j);
    assert log[j].w in LiveList(log[..a], log[a].event);
    LiveMeaning(log[..a], log[a].event, log[j].w);
  }

  /** A once registration cannot be in force when two different emits begin. */
  lemma InForceTwice(log: seq<Entry>, a: nat, b: nat, w: Wrapper)
    requires RegistrationsInOrder(log) && a < b < |log| && log[a].Began? && log[b].Began?
    requires InForce(log[..a], log[a].event, w) && InForce(log[..b], log[b].event, w)
    ensures !w.once
  {
    var i :| 0 <= i < a && log[..a][i] == Registered(log[a].event, w);
    var j :| 0 <= j < b && log[..b][j] == Registered(log[b].event, w)
      && forall x :: j < x < b ==> !Ends(log[..b][x], log[b].event, w);
    assert log[i].Registered? && log[j].Registered?;
    assert i == j;
    assert log[..b][a] == log[a];
  }

  /** Each once registration is delivered at most once in a whole run. */
  lemma OnceAtMostOnce(log: seq<Entry>, i: nat, j: nat)
    requires Faithful(log) && i < j < |log| && log[i].Delivered? && log[j].Delivered? && log[i].w == log[j].w
    ensures !log[i].w.once
    ensures log[i].emit != log[j].emit
  {
    var a := DeliveredWasInForce(log, i);
    var b := DeliveredWasInForce(log, j);
    if log[i].emit == log[j].emit {
      var k := log[i].emit;
      LiveInOrder(log[..a], log[a].event);
      DeliveryPlace(log, k, i);
      DeliveryPlace(log, k, j);
      PlacesGrow(log, k, i, j);
      assert false;
    } else if a < b {
      InForceTwice(log, a, b, log[i].w);
    } else {
      InForceTwice(log, b, a, log[i].w);
    }
  }

  /**
   * Registrations and emits are numbered in order, without gaps, and nothing is delivered
   * by an emit that has not begun; nextId and nextEmit are the next numbers.
   */
  predicate Ordered(log: seq<Entry>, nextId: nat, nextEmit: nat) {
    if log == [] then nextId == 0 && nextEmit == 0
    else
      var front := log[..|log| - 1];
      match log[|log| - 1]
      case Registered(_, w) => nextId == w.id + 1 && Ordered(front, w.id, nextEmit)
      case Removed(_, _) => Ordered(front, nextId, nextEmit)
      case Began(k, _) => nextEmit == k + 1 && Ordered(front, nextId, k)
      case Delivered(k, _, _) => k < nextEmit && Ordered(front, nextId, nextEmit)
  }

  lemma OrderedSnoc(log: seq<Entry>, x: Entry, nextId: nat, nextEmit: nat)
    requires Ordered(log, nextId, nextEmit)
    requires x.Registered? ==> x.w.id == nextId
    requires x.Began? ==> x.emit == nextEmit
    requires x.Delivered? ==> x.emit < nextEmit
    ensures Ordered(log + [x], nextId + if x.Registered? then 1 else 0, nextEmit + if x.Began? then 1 else 0)
  {
    assert (log + [x])[..|log|] == log;
  }

  lemma {:induction false} NumbersBelow(log: seq<Entry>, nextId: nat, nextEmit: nat)
    requires Ordered(log, nextId, nextEmit)
    ensures forall i :: 0 <= i < |log| && log[i].Registered? ==> log[i].w.id < nextId
    ensures forall i :: 0 <= i < |log| && log[i].Began? ==> log[i].emit < nextEmit
  {
    if log != [] {
      var front, last := log[..|log| - 1], log[|log| - 1];
      NumbersBelow(front, if last.Registered? then last.w.id else nextId, if last.Began? then last.emit else nextEmit);
      forall i | 0 <= i < |front| ensures log[i] == front[i] {
      }
    }
  }

  lemma {:induction false} NumbersInOrder(log: seq<Entry>, nextId: nat, nextEmit: nat)
    requires Ordered(log, nextId, nextEmit)
    ensures RegistrationsInOrder(log) && EmitsInOrder(log)
  {
    if log != [] {
      var front, last := log[..|log| - 1], log[|log| - 1];
      var id, emit := if last.Registered? then last.w.id else nextId, if last.Began? then last.emit else nextEmit;
      NumbersInOrder(front, id, emit);
      NumbersBelow(front, id, emit);
      forall i | 0 <= i < |front| ensures log[i] == front[i] {
      }
    }
  }

  lemma {:induction false} AllBegun(log: seq<Entry>, nextId: nat, nextEmit: nat, k: nat)
    requires Ordered(log, nextId, nextEmit) && k < nextEmit
    ensures Begun(log, k)
  {
    var front, last := log[..|log| - 1], log[|log| - 1];
    if last.Began? && last.emit == k {
      assert log[|log| - 1].Began?;
    } else {
      AllBegun(front, if last.Registered? then last.w.id else nextId, if last.Began? then last.emit else nextEmit, k);
      var i :| 0 <= i < |front| && front[i].Began? && front[i].emit == k;
      assert log[i].Began?;
    }
  }

  lemma {:induction false} OrderedIsBegun(log: seq<Entry>, nextId: nat, nextEmit: nat)
    requires Ordered(log, nextId, nextEmit)
    ensures DeliveriesBegun(log)
  {
    if log != [] {
      var front, last := log[..|log| - 1], log[|log| - 1];
      OrderedIsBegun(front, if last.Registered? then last.w.id else nextId,
        if last.Began? then last.emit else nextEmit);
      if last.Delivered? { AllBegun(front, nextId, nextEmit, last.emit); }
      forall j | 0 <= j < |log| && log[j].Delivered? ensures Begun(log[..j], log[j].emit) {
        if j < |front| {
          assert front[j].Delivered? && front[..j] == log[..j];
        } else {
          assert log[..j] == front;
        }
      }
    }
  }

  /** An emit that has not begun has delivered nothing. */
  lemma {:induction false} NothingYet(log: seq<Entry>, nextId: nat, nextEmit: nat, k: nat)
    requires Ordered(log, nextId, nextEmit) && k >= nextEmit
    ensures DeliveriesOf(log, k) == []
  {
    if log != [] {
      var last := log[|log| - 1];
      NothingYet(log[..|log| - 1], if last.Registered? then last.w.id else nextId,
        if last.Began? then last.emit else nextEmit, k);
    }
  }

  /** A longer log in which the emits of the shorter one deliver nothing more. */
  lemma CompleteGrows(before: seq<Entry>, after: seq<Entry>, from: nat)
    requires before <= after && Complete(before, from) && Complete(after, |before|)
    requires forall i :: from <= i < |before| && before[i].Began? ==>
      DeliveriesOf(after, before[i].emit) == DeliveriesOf(before, before[i].emit)
    ensures Complete(after, from)
  {
    forall i | from <= i < |after| && after[i].Began?
      ensures DeliveriesOf(after, after[i].emit) == LiveList(after[..i], after[i].event)
    {
      if i < |before| {
        assert after[i] == before[i] && after[..i] == before[..i];
      }
    }
  }

  /** A delivery of emit k, which began at `at`, leaves the later emits as complete as they were. */
  lemma {:induction false} OthersStayComplete(before: seq<Entry>, after: seq<Entry>, at: nat, k: nat)
    requires EmitsInOrder(before) && at < |before| && before[at].Began? && before[at].emit == k
    requires Complete(before, at + 1) && |after| == |before| + 1 && after[..|before|] == before
      && after[|before|].Delivered?
    requires forall m: nat :: m != k ==> DeliveriesOf(after, m) == DeliveriesOf(before, m)
    ensures Complete(after, at + 1)
  {
    forall i | at + 1 <= i < |before| && before[i].Began? ensures before[i].emit != k {
      assert before[at].Began?;
    }
    CompleteGrows(before, after, at + 1);
  }

  /** Emit k, begun by the last entry of log0, has delivered `done`, and every later emit all of its list. */
  ghost predicate Delivering(log0: seq<Entry>, log: seq<Entry>, k: nat, done: seq<Wrapper>) {
    && log0 <= log && log0 != [] && log0[|log0| - 1].Began? && log0[|log0| - 1].emit == k
    && DeliveriesOf(log, k) == done && Complete(log, |log0|)
    && forall m: nat :: m < k ==> DeliveriesOf(log, m) == DeliveriesOf(log0, m)
  }

  /** Once its whole list is out, an emit is complete like those begun inside it. */
  lemma WholeEmit(log0: seq<Entry>, begun: seq<Entry>, log: seq<Entry>, k: nat, event: string)
    requires begun == log0 + [Began(k, event)] && Delivering(begun, log, k, LiveList(log0, event))
    ensures Complete(log, |log0|) && log0 <= log && |log| > |log0| && log[|log0|] == Began(k, event)
  {
    assert log[..|begun|] == begun && log[|log0|] == begun[|log0|];
    assert log[..|log0|] == log0;
    forall i | |log0| <= i < |log| && log[i].Began?
      ensures DeliveriesOf(log, log[i].emit) == LiveList(log[..i], log[i].event)
    {
      assert i == |log0| || |begun| <= i;
    }
  }

  lemma TakeOneMore<T>(s: seq<T>, i: nat)
    requires i < |s|
    ensures s[..i] + [s[i]] == s[..i + 1]
  {
  }

  // ----- The emitter

  /** What a piece of client code does; an emit says what each handler it reaches does. */
  datatype Script = Stop | Then(act: Action, next: Script)

  datatype Action =
    | On(event: string, fn: nat)
    | Once(event: string, fn: nat)
    | Off(event: string, fn: nat)
    | Emit(event: string, bodies: Bodies)

  /** One body per delivery, in order; handlers beyond the last do nothing. */
  datatype Bodies = NoMore | Body(acts: Script, throws: bool, rest: Bodies)

  // ----- What a script does to the log, told without an emitter

  /** Registrations are numbered by how many there were before. */
  function Registrations(log: seq<Entry>): nat {
    if log == [] then 0
    else Registrations(log[..|log| - 1]) + if log[|log| - 1].Registered? then 1 else 0
  }

  function Emits(log: seq<Entry>): nat {
    if log == [] then 0
    else Emits(log[..|log| - 1]) + if log[|log| - 1].Began? then 1 else 0
  }

  /** The log after a piece of code has run: its acts one by one, each with all that it sets off. */
  function After(log: seq<Entry>, s: Script): seq<Entry>
    decreases s, 0, 0
  {
    match s
    case Stop => log
    case Then(act, next) => After(AfterAct(log, act), next)
  }

  function AfterAct(log: seq<Entry>, act: Action): seq<Entry>
    decreases act, 0, 0
  {
    match act
    case On(event, fn) => log + [Registered(event, Wrapper(Registrations(log), fn, false))]
    case Once(event, fn) => log + [Registered(event, Wrapper(Registrations(log), fn, true))]
    case Off(event, fn) => log + [Removed(event, fn)]
    case Emit(event, bodies) =>
      AfterAll(log + [Began(Emits(log), event)], Emits(log), LiveList(log, event), bodies)
  }

  /** One delivery: its entry, and then everything that the handler's body does. */
  function AfterOne(log: seq<Entry>, k: nat, w: Wrapper, bodies: Bodies): seq<Entry>
    decreases bodies, 0, 0
  {
    match bodies
    case NoMore => log + [Delivered(k, w, false)]
    case Body(acts, throws, _) => After(log + [Delivered(k, w, throws)], acts)
  }

  /** The deliveries of emit k, one body each. */
  function AfterAll(log: seq<Entry>, k: nat, list: seq<Wrapper>, bodies: Bodies): seq<Entry>
    decreases bodies, 1, |list|
  {
    if list == [] then log
    else
      match bodies
      case NoMore => AfterAll(AfterOne(log, k, list[0], NoMore), k, list[1..], NoMore)
      case Body(_, _, rest) => AfterAll(AfterOne(log, k, list[0], bodies), k, list[1..], rest)
  }

  function Rest(bodies: Bodies): Bodies {
    if bodies.Body? then bodies.rest else bodies
  }

  lemma {:induction false} NumbersAreCounts(log: seq<Entry>, nextId: nat, nextEmit: nat)
    requires Ordered(log, nextId, nextEmit)
    ensures nextId == Registrations(log) && nextEmit == Emits(log)
  {
    if log != [] {
      var last := log[|log| - 1];
      NumbersAreCounts(log[..|log| - 1], if last.Registered? then last.w.id else nextId,
        if last.Began? then last.emit else nextEmit);
    }
  }

  lemma EmitIsDelivery(log: seq<Entry>, event: string, bodies: Bodies)
    ensures var begun := log + [Began(Emits(log), event)];
      && AfterAct(log, Emit(event, bodies)) == AfterAll(begun, Emits(log), LiveList(log, event), bodies)
      && (LiveList(log, event) == [] ==> AfterAct(log, Emit(event, bodies)) == begun)
  {
  }

  lemma AfterAllStep(log: seq<Entry>, k: nat, list: seq<Wrapper>, i: nat, bodies: Bodies)
    requires i < |list|
    ensures AfterAll(log, k, list[i..], bodies)
         == AfterAll(AfterOne(log, k, list[i], bodies), k, list[i + 1..], Rest(bodies))
  {
    assert list[i..][1..] == list[i + 1..];
  }

  /** What running code leaves alone: the log so far, and the deliveries of the emits begun so far. */
  ghost predicate GrewFrom(log: seq<Entry>, log': seq<Entry>) {
    && log <= log' && Emits(log) <= Emits(log')
    && forall k: nat :: k < Emits(log) ==> DeliveriesOf(log', k) == DeliveriesOf(log, k)
  }

  lemma OneEntry(log: seq<Entry>, x: Entry)
    ensures log <= log + [x] && Emits(log + [x]) == Emits(log) + if x.Began? then 1 else 0
    ensures forall k: nat :: DeliveriesOf(log + [x], k) == DeliveriesOf(log, k) + Delivery(x, k)
    ensures !x.Delivered? ==> GrewFrom(log, log + [x])
  {
    assert (log + [x])[..|log|] == log;
  }

  lemma {:induction false} AfterGrows(log: seq<Entry>, s: Script)
    ensures GrewFrom(log, After(log, s))
    decreases s, 0, 0
  {
    if s.Then? {
      AfterActGrows(log, s.act);
      AfterGrows(AfterAct(log, s.act), s.next);
    }
  }

  lemma {:induction false} AfterActGrows(log: seq<Entry>, act: Action)
    ensures GrewFrom(log, AfterAct(log, act))
    decreases act, 0, 0
  {
    match act
    case On(event, fn) => OneEntry(log, Registered(event, Wrapper(Registrations(log), fn, false)));
    case Once(event, fn) => OneEntry(log, Registered(event, Wrapper(Registrations(log), fn, true)));
    case Off(event, fn) => OneEntry(log, Removed(event, fn));
    case Emit(event, bodies) =>
      OneEntry(log, Began(Emits(log), event));
      AfterAllGrows(log + [Began(Emits(log), event)], Emits(log), LiveList(log, event), bodies);
  }

  /** Deliveries of emit k leave the other emits so far alone, and add their own. */
  ghost predicate Gave(log: seq<Entry>, log': seq<Entry>, k: nat, list: seq<Wrapper>) {
    && log <= log' && Emits(log) <= Emits(log') && DeliveriesOf(log', k) == DeliveriesOf(log, k) + list
    && forall m: nat :: m < Emits(log) && m != k ==> DeliveriesOf(log', m) == DeliveriesOf(log, m)
  }

  lemma {:induction false} AfterOneGrows(log: seq<Entry>, k: nat, w: Wrapper, bodies: Bodies)
    requires k < Emits(log)
    ensures Gave(log, AfterOne(log, k, w, bodies), k, [w])
    decreases bodies, 0, 0
  {
    OneEntry(log, Delivered(k, w, bodies.Body? && bodies.throws));
    if bodies.Body? { AfterGrows(log + [Delivered(k, w, bodies.throws)], bodies.acts); }
  }

  lemma GaveThen(log: seq<Entry>, one: seq<Entry>, final: seq<Entry>, k: nat, w: Wrapper, list: seq<Wrapper>)
    requires Gave(log, one, k, [w]) && Gave(one, final, k, list)
    ensures Gave(log, final, k, [w] + list)
  {
    assert DeliveriesOf(log, k) + [w] + list == DeliveriesOf(log, k) + ([w] + list);
  }

  lemma {:induction false} AfterAllGrows(log: seq<Entry>, k: nat, list: seq<Wrapper>, bodies: Bodies)
    requires k < Emits(log)
    ensures Gave(log, AfterAll(log, k, list, bodies), k, list)
    decreases bodies, 1, |list|
  {
    if list != [] {
      AfterOneGrows(log, k, list[0], bodies);
      var one := AfterOne(log, k, list[0], bodies);
      AfterAllGrows(one, k, list[1..], Rest(bodies));
      GaveThen(log, one, AfterAll(log, k, list, bodies), k, list[0], list[1..]);
      assert list == [list[0]] + list[1..];
    }
  }

  /** The p-th handler's body: its acts, and whether it throws. */
  function BodyAt(bodies: Bodies, p: nat): (Script, bool) {
    match bodies
    case NoMore => (Stop, false)
    case Body(acts, throws, rest) => if p == 0 then (acts, throws) else BodyAt(rest, p - 1)
  }

  /** Where delivery p of emit k stands in its log, what the body adds behind it, and what comes next. */
  ghost predicate DeliveryAndBody(log: seq<Entry>, k: nat, list: seq<Wrapper>, p: nat, acts: Script, throws: bool,
    at: nat)
    requires p < |list|
  {
    && at < |log| && log[at] == Delivered(k, list[p], throws)
    && var ran := After(log[..at + 1], acts);
      && ran <= log && DeliveriesOf(ran, k) == DeliveriesOf(log[..at], k) + [list[p]]
      && if p + 1 < |list| then |ran| < |log| && log[|ran|].Delivered? && log[|ran|].emit == k
             && log[|ran|].w == list[p + 1]
         else ran == log
  }

  lemma FirstDelivery(log: seq<Entry>, k: nat, list: seq<Wrapper>, bodies: Bodies)
    requires k < Emits(log) && list != []
    ensures log + [Delivered(k, list[0], BodyAt(bodies, 0).1)] <= AfterAll(log, k, list, bodies)
  {
    var one := log + [Delivered(k, list[0], BodyAt(bodies, 0).1)];
    OneEntry(log, Delivered(k, list[0], BodyAt(bodies, 0).1));
    if bodies.Body? { AfterGrows(one, bodies.acts); }
    assert one <= AfterOne(log, k, list[0], bodies);
    AfterAllGrows(AfterOne(log, k, list[0], bodies), k, list[1..], Rest(bodies));
  }

  lemma FirstDeliveryAndBody(log: seq<Entry>, k: nat, list: seq<Wrapper>, bodies: Bodies)
    requires k < Emits(log) && list != []
    ensures DeliveryAndBody(AfterAll(log, k, list, bodies), k, list, 0, BodyAt(bodies, 0).0, BodyAt(bodies, 0).1, |log|)
  {
    var one, final := AfterOne(log, k, list[0], bodies), AfterAll(log, k, list, bodies);
    var x := Delivered(k, list[0], BodyAt(bodies, 0).1);
    FirstDelivery(log, k, list, bodies);
    PrefixParts(log, x, final);
    assert After(log + [x], BodyAt(bodies, 0).0) == one;
    AfterOneGrows(log, k, list[0], bodies);
    NextDelivery(log, k, list, bodies);
  }

  lemma PrefixParts(log: seq<Entry>, x: Entry, final: seq<Entry>)
    requires log + [x] <= final
    ensures |log| < |final| && final[|log|] == x && final[..|log|] == log && final[..|log| + 1] == log + [x]
  {
    assert |log + [x]| == |log| + 1;
    assert final[..|log| + 1] == log + [x];
    assert final[..|log|] == final[..|log| + 1][..|log|];
  }

  /** Behind the first delivery and its body comes the second delivery, or nothing. */
  lemma NextDelivery(log: seq<Entry>, k: nat, list: seq<Wrapper>, bodies: Bodies)
    requires k < Emits(log) && list != []
    ensures var one, final := AfterOne(log, k, list[0], bodies), AfterAll(log, k, list, bodies);
      one <= final && if 1 < |list| then |one| < |final| && final[|one|].Delivered? && final[|one|].emit == k
          && final[|one|].w == list[1]
        else one == final
  {
    var one, final := AfterOne(log, k, list[0], bodies), AfterAll(log, k, list, bodies);
    AfterOneGrows(log, k, list[0], bodies);
    if 1 < |list| {
      FirstDelivery(one, k, list[1..], Rest(bodies));
      PrefixParts(one, Delivered(k, list[1], BodyAt(Rest(bodies), 0).1), final);
    }
  }

  lemma LaterDelivery(log: seq<Entry>, k: nat, list: seq<Wrapper>, p: nat, acts: Script, throws: bool, at: nat)
    requires 0 < p < |list| && DeliveryAndBody(log, k, list[1..], p - 1, acts, throws, at)
    ensures DeliveryAndBody(log, k, list, p, acts, throws, at)
  {
  }

  lemma {:induction false} DeliveryThenBody(log: seq<Entry>, k: nat, list: seq<Wrapper>, bodies: Bodies, p: nat)
    returns (at: nat)
    requires k < Emits(log) && p < |list|
    ensures DeliveryAndBody(AfterAll(log, k, list, bodies), k, list, p, BodyAt(bodies, p).0, BodyAt(bodies, p).1, at)
    decreases p
  {
    if p == 0 {
      at := |log|;
      FirstDeliveryAndBody(log, k, list, bodies);
    } else {
      var one := AfterOne(log, k, list[0], bodies);
      AfterOneGrows(log, k, list[0], bodies);
      at := DeliveryThenBody(one, k, list[1..], Rest(bodies), p - 1);
      LaterDelivery(AfterAll(log, k, list, bodies), k, list, p, BodyAt(bodies, p).0, BodyAt(bodies, p).1, at);
    }
  }

  /**
   * Handlers run: delivery p of an emit stands in the log with p deliveries before it, the
   * entries behind it are those of its body's acts, begun there, and next comes delivery
   * p + 1, or nothing.
   */
  lemma HandlersRun(log: seq<Entry>, event: string, bodies: Bodies, p: nat) returns (at: nat)
    requires p < |LiveList(log, event)|
    ensures DeliveryAndBody(AfterAct(log, Emit(event, bodies)), Emits(log), LiveList(log, event), p,
      BodyAt(bodies, p).0, BodyAt(bodies, p).1, at)
  {
    OneEntry(log, Began(Emits(log), event));
    at := DeliveryThenBody(log + [Began(Emits(log), event)], Emits(log), LiveList(log, event), bodies, p);
  }

  lemma OneMore(log: seq<Entry>, x: Entry)
    ensures forall event :: LiveList(log + [x], event) == Updated(LiveList(log, event), x, event)
    ensures Registrations(log + [x]) == Registrations(log) + if x.Registered? then 1 else 0
    ensures Emits(log + [x]) == Emits(log) + if x.Began? then 1 else 0
  {
    Append(log, x);
    assert (log + [x])[..|log|] == log;
  }

  /** A handler that registers another one: the next emit reaches that one. */
  lemma RegisteredInsideIsHeard(a: string, b: string, f: nat, g: nat)
    requires a != b
    ensures After([], Then(On(a, f),
        Then(Emit(a, Body(Then(On(b, g), Stop), false, NoMore)), Then(Emit(b, NoMore), Stop))))
      == [Registered(a, Wrapper(0, f, false))] + [Began(0, a)] + [Delivered(0, Wrapper(0, f, false), false)]
        + [Registered(b, Wrapper(1, g, false))] + [Began(1, b)] + [Delivered(1, Wrapper(1, g, false), false)]
  {
    var v, w := Wrapper(0, f, false), Wrapper(1, g, false);
    var body := Body(Then(On(b, g), Stop), false, NoMore);
    var log1: seq<Entry> := [Registered(a, v)];
    var log2 := log1 + [Began(0, a)];
    var log3 := log2 + [Delivered(0, v, false)];
    var log4 := log3 + [Registered(b, w)];
    assert [] + log1 == log1;
    OneMore([], Registered(a, v));
    OneMore(log1, Began(0, a));
    OneMore(log2, Delivered(0, v, false));
    OneMore(log3, Registered(b, w));
    assert AfterAct([], On(a, f)) == log1;
    assert AfterAct(log1, Emit(a, body)) == log4 by {
      assert LiveList(log1, a) == [v] && [v][1..] == [];
      assert After(log3, body.acts) == log4;
      AfterAllStep(log2, 0, [v], 0, body);
    }
    assert LiveList(log4, b) == [w] && [w][1..] == [];
    AfterAllStep(log4 + [Began(1, b)], 1, [w], 0, NoMore);
    var last := Then(Emit(b, NoMore), Stop);
    assert After(log4, last) == AfterAct(log4, Emit(b, NoMore));
    assert After(log1, Then(Emit(a, body), last)) == After(log4, last);
  }

  // ----- The emitter's map and its log

  function ListOf(listeners: map<string, seq<Wrapper>>, event: string): seq<Wrapper> {
    if event in listeners then listeners[event] else []
  }

  ghost predicate Follows(listeners: map<string, seq<Wrapper>>, log: seq<Entry>) {
    forall event :: ListOf(listeners, event) == LiveList(log, event)
  }

  lemma FollowsSnoc(
    before: map<string, seq<Wrapper>>, after: map<string, seq<Wrapper>>, log: seq<Entry>, x: Entry)
    requires Follows(before, log)
    requires forall event :: ListOf(after, event) == Updated(ListOf(before, event), x, event)
    ensures Follows(after, log + [x])
  {
    Append(log, x);
  }

  /** One entry: the map, the numbers and the log move together, and only its own emit delivers. */
  lemma StateSnoc(
    before: map<string, seq<Wrapper>>, after: map<string, seq<Wrapper>>,
    log: seq<Entry>, x: Entry, nextId: nat, nextEmit: nat)
    requires Follows(before, log) && Ordered(log, nextId, nextEmit)
    requires forall event :: ListOf(after, event) == Updated(ListOf(before, event), x, event)
    requires x.Registered? ==> x.w.id == nextId
    requires x.Began? ==> x.emit == nextEmit
    requires !x.Delivered?
    ensures Follows(after, log + [x])
    ensures Ordered(log + [x], nextId + if x.Registered? then 1 else 0, nextEmit + if x.Began? then 1 else 0)
    ensures forall k: nat :: DeliveriesOf(log + [x], k) == DeliveriesOf(log, k)
  {
    Append(log, x);
    FollowsSnoc(before, after, log, x);
    OrderedSnoc(log, x, nextId, nextEmit);
  }

  lemma RegisterLists(before: map<string, seq<Wrapper>>, event: string, w: Wrapper)
    ensures var after := before[event := ListOf(before, event) + [w]];
      forall e :: ListOf(after, e) == Updated(ListOf(before, e), Registered(event, w), e)
  {
  }

  lemma UnregisterLists(before: map<string, seq<Wrapper>>, event: string, fn: nat)
    ensures var after := if event in before then before[event := Without(before[event], fn)] else before;
      forall e :: ListOf(after, e) == Updated(ListOf(before, e), Removed(event, fn), e)
  {
  }

  lemma BeginLists(before: map<string, seq<Wrapper>>, event: string, k: nat)
    ensures var copy := ListOf(before, event);
      var after := if copy != [] then before[event := Persistent(copy)] else before;
      forall e :: ListOf(after, e) == Updated(ListOf(before, e), Began(k, event), e)
  {
  }

  class EventEmitter {
    var listeners: map<string, seq<Wrapper>>
    var nextId: nat
    ghost var nextEmit: nat
    ghost var log: seq<Entry>

    ghost predicate Valid()
      reads this
    {
      Follows(listeners, log) && Ordered(log, nextId, nextEmit)
    }

    /** The log has only grown, and the emits known before have delivered nothing more. */
    twostate predicate Extends()
      reads this
    {
      && old(log) <= log && old(nextEmit) <= nextEmit
      && forall k: nat :: k < old(nextEmit) ==> DeliveriesOf(log, k) == DeliveriesOf(old(log), k)
    }

    constructor ()
      ensures Valid() && log == []
    {
      listeners, nextId, nextEmit, log := map[], 0, 0, [];
    }

    /** on (once: false) and once (once: true) */
    method Register(event: string, fn: nat, once: bool)
      requires Valid()
      modifies this
      ensures Valid() && Extends()
      ensures log == old(log) + [Registered(event, Wrapper(old(nextId), fn, once))]
    {
      var w := Wrapper(nextId, fn, once);
      ghost var before, x := listeners, Registered(event, w);
      RegisterLists(listeners, event, w);
      listeners := listeners[event := ListOf(listeners, event) + [w]];
      StateSnoc(before, listeners, log, x, nextId, nextEmit);
      nextId, log := nextId + 1, log + [x];
    }

    method Unregister(event: string, fn: nat)
      requires Valid()
      modifies this
      ensures Valid() && Extends()
      ensures log == old(log) + [Removed(event, fn)]
    {
      ghost var before, x := listeners, Removed(event, fn);
      UnregisterLists(listeners, event, fn);
      if event in listeners {
        listeners := listeners[event := Without(listeners[event], fn)];
      }
      StateSnoc(before, listeners, log, x, nextId, nextEmit);
      log := log + [x];
    }

    /** emit up to the delivery loop: the snapshot it works through. */
    method Begin(event: string) returns (copy: seq<Wrapper>, ghost k: nat)
      requires Valid()
      modifies this
      ensures Valid() && Extends()
      ensures copy == LiveList(old(log), event) && k == old(nextEmit) < nextEmit
      ensures log == old(log) + [Began(k, event)] && DeliveriesOf(log, k) == []
    {
      k := nextEmit;
      ghost var before, x := listeners, Began(k, event);
      copy := ListOf(listeners, event);
      BeginLists(listeners, event, k);
      if copy != [] {
        listeners := listeners[event := Persistent(copy)];
      }
      StateSnoc(before, listeners, log, x, nextId, nextEmit);
      NothingYet(log, nextId, nextEmit, nextEmit);
      nextEmit, log := nextEmit + 1, log + [x];
    }

    ghost method LogDelivery(k: nat, w: Wrapper, threw: bool)
      requires Valid() && k < nextEmit
      modifies this`log
      ensures Valid() && log == old(log) + [Delivered(k, w, threw)]
      ensures DeliveriesOf(log, k) == DeliveriesOf(old(log), k) + [w]
      ensures forall m: nat :: m != k ==> DeliveriesOf(log, m) == DeliveriesOf(old(log), m)
    {
      Append(log, Delivered(k, w, threw));
      OrderedSnoc(log, Delivered(k, w, threw), nextId, nextEmit);
      log := log + [Delivered(k, w, threw)];
    }

    /** What one handler does when it is called. */
    method RunBody(bodies: Bodies, ghost from: nat) returns (rest: Bodies)
      requires Valid() && from <= |log| && Complete(log, from)
      modifies this
      ensures Valid() && Extends() && Complete(log, from)
      ensures rest == Rest(bodies)
      ensures log == if bodies.Body? then After(old(log), bodies.acts) else old(log)
      decreases bodies, 0
    {
      ghost var before := log;
      if bodies.NoMore? {
        return bodies;
      }
      NumbersBelow(log, nextId, nextEmit);
      Perform(bodies.acts);
      CompleteGrows(before, log, from);
      return bodies.rest;
    }

    /** One round of the delivery loop; the handler may throw, and the loop swallows it. */
    method DeliverOne(w: Wrapper, bodies: Bodies, ghost k: nat, ghost log0: seq<Entry>, ghost done: seq<Wrapper>)
      returns (rest: Bodies)
      requires Valid() && Delivering(log0, log, k, done)
      modifies this
      ensures Valid() && Delivering(log0, log, k, done + [w]) && old(nextEmit) <= nextEmit
      ensures rest == Rest(bodies) && log == AfterOne(old(log), k, w, bodies)
      decreases bodies, 1
    {
      ghost var before, at := log, |log0| - 1;
      assert log[at] == log0[at];
      NumbersBelow(log, nextId, nextEmit);
      NumbersInOrder(log, nextId, nextEmit);
      LogDelivery(k, w, bodies.Body? && bodies.throws);
      OthersStayComplete(before, log, at, k);
      rest := RunBody(bodies, at + 1);
    }

    /** The delivery loop: the snapshot goes out entry by entry, whatever the handlers do. */
    method DeliverAll(copy: seq<Wrapper>, bodies: Bodies, ghost k: nat)
      requires Valid() && Delivering(log, log, k, [])
      modifies this
      ensures Valid() && Delivering(old(log), log, k, copy) && old(nextEmit) <= nextEmit
      ensures log == AfterAll(old(log), k, copy, bodies)
      decreases bodies, 2
    {
      ghost var log0 := log;
      var rest := bodies;
      var i := 0;
      assert copy[..0] == [] && copy[0..] == copy;
      while i < |copy|
        invariant Valid() && i <= |copy| && Delivering(log0, log, k, copy[..i]) && old(nextEmit) <= nextEmit
        invariant rest == bodies || rest < bodies
        invariant AfterAll(log, k, copy[i..], rest) == AfterAll(log0, k, copy, bodies)
      {
        AfterAllStep(log, k, copy, i, rest);
        rest := DeliverOne(copy[i], rest, k, log0, copy[..i]);
        TakeOneMore(copy, i);
        i := i + 1;
      }
      assert copy[..i] == copy;
    }

    /**
     * emit, with everything that its handlers do: it delivers exactly the list it found,
     * in order, however the handlers change the lists, emit or throw, and so does every
     * emit that they start. It reports whether anyone listened.
     */
    method DoEmit(event: string, bodies: Bodies) returns (heard: bool)
      requires Valid()
      modifies this
      ensures Valid() && Extends() && Complete(log, |old(log)|)
      ensures heard == (LiveList(old(log), event) != [])
      ensures log == AfterAct(old(log), Emit(event, bodies))
      ensures |log| > |old(log)| && log[|old(log)|] == Began(old(nextEmit), event)
      decreases bodies, 3
    {
      ghost var log0, k := log, nextEmit;
      NumbersAreCounts(log, nextId, nextEmit);
      EmitIsDelivery(log, event, bodies);
      var copy;
      copy, k := Begin(event);
      ghost var begun := log;
      if copy != [] {
        DeliverAll(copy, bodies, k);
      }
      WholeEmit(log0, begun, log, k, event);
      return copy != [];
    }

    method Act(act: Action)
      requires Valid()
      modifies this
      ensures Valid() && Extends() && Complete(log, |old(log)|) && log == AfterAct(old(log), act)
      decreases act
    {
      NumbersAreCounts(log, nextId, nextEmit);
      match act {
        case On(event, fn) => Register(event, fn, false);
        case Once(event, fn) => Register(event, fn, true);
        case Off(event, fn) => Unregister(event, fn);
        case Emit(event, bodies) => var _ := DoEmit(event, bodies);
      }
    }

    /** Any client code, at the top level or inside a handler. */
    method Perform(s: Script)
      requires Valid()
      modifies this
      ensures Valid() && Extends() && Complete(log, |old(log)|) && log == After(old(log), s)
      decreases s
    {
      if s.Then? {
        Act(s.act);
        ghost var middle := log;
        NumbersBelow(log, nextId, nextEmit);
        Perform(s.next);
        CompleteGrows(middle, log, |old(log)|);
      }
    }
  }

  /** Every run from a new emitter: exact deliveries throughout, nested emits included. */
  method Play(s: Script) returns (e: EventEmitter)
    ensures e.Valid() && Faithful(e.log) && e.log == After([], s)
  {
    e := new EventEmitter();
    e.Perform(s);
    NumbersInOrder(e.log, e.nextId, e.nextEmit);
    OrderedIsBegun(e.log, e.nextId, e.nextEmit);
  }
}

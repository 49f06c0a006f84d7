// The part of an Upstash client that the stores use, as a map with lifetimes.

module Redis {
  import opened Wrappers

  /** A value and the instant from which it is dead; None means permanent. */
  datatype Cell<V> = Cell(value: V, expiresAt: Option<int>)

  predicate Alive<V>(c: Cell<V>, now: int) {
    c.expiresAt.Some? ==> now < c.expiresAt.value
  }

  function Read<V>(db: map<string, Cell<V>>, key: string, now: int): Option<V> {
    if key in db && Alive(db[key], now) then Some(db[key].value) else None
  }

  /** `SET key value EX seconds` */
  function Write<V>(db: map<string, Cell<V>>, key: string, value: V, seconds: int, now: int): map<string, Cell<V>> {
    db[key := Cell(value, Some(now + 1000 * seconds))]
  }

  /** `SET key value EX seconds NX`: whether the value was set. */
  function WriteIfAbsent<V>(db: map<string, Cell<V>>, key: string, value: V, seconds: int, now: int)
    : (map<string, Cell<V>>, bool)
  {
    if Read(db, key, now).Some? then (db, false) else (Write(db, key, value, seconds, now), true)
  }

  /** `Math.ceil(ms / 1000)` */
  function CeilSeconds(ms: nat): (s: nat)
    ensures 1000 * s - 1000 < ms <= 1000 * s
  {
    (ms + 999) / 1000
  }
}

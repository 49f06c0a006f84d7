// The replay stores: settlement-json.ts (bigint-safe JSON), InMemoryReplayStore and
// MemoryReplayStore, FileReplayStore (core) and RedisReplayStore (apps/demo/server/kv.ts).

module SettlementJson {
  import opened Wrappers
  import opened Text

  /** JavaScript values as settlement records hold them; JSON text is the part without Big. */
  datatype Js =
    | Str(s: string)
    | Num(n: int)
    | Big(b: int)
    | Obj(fields: map<string, Js>)

  function PrintInt(n: int): string {
    if n < 0 then "-" + Print(-n) else Print(n)
  }

  /** `/^-?\d+n$/` */
  predicate IsBigText(s: string) {
    && |s| >= 2 && s[|s| - 1] == 'n'
    && AllDigits(Unsigned(s[..|s| - 1])) && Unsigned(s[..|s| - 1]) != ""
  }

  function Unsigned(s: string): string {
    if s != "" && s[0] == '-' then s[1..] else s
  }

  /** `BigInt(value.slice(0, -1))` */
  function ReadBig(s: string): int
    requires IsBigText(s)
  {
    var body := s[..|s| - 1];
    if body[0] == '-' then 0 - ToNat(body[1..]) else ToNat(body)
  }

  /** What the replacer does to one value. */
  function Replace(v: Js): Js {
    if v.Big? then Str(PrintInt(v.b) + "n") else v
  }

  /** What the reviver does to one value. */
  function Revive(v: Js): Js {
    if v.Str? && IsBigText(v.s) then Big(ReadBig(v.s)) else v
  }

  /** `JSON.stringify(v, settlementRecordReplacer)`, on value trees. */
  function Encode(v: Js): Js {
    match Replace(v)
    case Obj(fields) => Obj(map k | k in fields :: Encode(fields[k]))
    case leaf => leaf
  }

  /** `JSON.parse(text, settlementRecordReviver)`, on value trees. */
  function Decode(v: Js): Js {
    match v
    case Obj(fields) => Obj(map k | k in fields :: Decode(fields[k]))
    case leaf => Revive(leaf)
  }

  function Recode(v: Js): Js {
    Decode(Encode(v))
  }

  /** No string inside has the form digits-then-n. */
  predicate Clean(v: Js) {
    match v
    case Str(s) => !IsBigText(s)
    case Obj(fields) => forall k :: k in fields ==> Clean(fields[k])
    case _ => true
  }

  /** What JSON text can carry: no bigint. */
  predicate Plain(v: Js) {
    match v
    case Big(_) => false
    case Obj(fields) => forall k :: k in fields ==> Plain(fields[k])
    case _ => true
  }

  /** Such a text is an optional minus, digits and an n. */
  lemma BigTextIff(s: string)
    ensures IsBigText(s) <==> exists d :: d != "" && AllDigits(d) && (s == d + "n" || s == "-" + d + "n")
  {
    if IsBigText(s) {
      var body := s[..|s| - 1];
      assert s == body + "n" && (body[0] == '-' ==> body == "-" + body[1..]);
      assert Unsigned(body) != "" && AllDigits(Unsigned(body));
    }
    if d :| d != "" && AllDigits(d) && (s == d + "n" || s == "-" + d + "n") {
      assert s[..|s| - 1] == d || s[..|s| - 1] == "-" + d;
      assert ("-" + d)[1..] == d && IsDigit(d[0]);
    }
  }

  lemma BigRoundTrip(n: int)
    ensures IsBigText(PrintInt(n) + "n") && ReadBig(PrintInt(n) + "n") == n
  {
    var text := PrintInt(n) + "n";
    assert text[..|text| - 1] == PrintInt(n);
    if n < 0 {
      assert PrintInt(n)[1..] == Print(-n);
    }
  }

  /** Encoding leaves nothing that `JSON.stringify` would throw on. */
  lemma {:induction false} EncodeIsPlain(v: Js)
    ensures Plain(Encode(v))
  {
    if v.Obj? {
      forall k | k in v.fields ensures Plain(Encode(v.fields[k])) { EncodeIsPlain(v.fields[k]); }
    }
  }

  lemma {:induction false} DecodeIsClean(v: Js)
    ensures Clean(Decode(v))
  {
    if v.Obj? {
      forall k | k in v.fields ensures Clean(Decode(v.fields[k])) { DecodeIsClean(v.fields[k]); }
    }
  }

  lemma {:induction false} CleanSurvives(v: Js)
    requires Clean(v)
    ensures Recode(v) == v
  {
    if v.Big? {
      BigRoundTrip(v.b);
    } else if v.Obj? {
      FieldwiseRecode(v);
      forall k | k in v.fields ensures Recode(v.fields[k]) == v.fields[k] { CleanSurvives(v.fields[k]); }
    }
  }

  /** An object is stored field by field. */
  lemma FieldwiseRecode(v: Js)
    requires v.Obj?
    ensures Recode(v) == Obj(map k | k in v.fields :: Recode(v.fields[k]))
  {
    assert Encode(v).fields.Keys == v.fields.Keys;
  }

  /** Exactly the records without a digits-then-n string survive storage, bigints included. */
  lemma {:induction false} RecodeIdentityIffClean(v: Js)
    ensures Recode(v) == v <==> Clean(v)
  {
    DecodeIsClean(Encode(v));
    if Clean(v) { CleanSurvives(v); }
  }

  /** Storing twice is storing once. */
  lemma RecodeIdempotent(v: Js)
    ensures Recode(Recode(v)) == Recode(v)
  {
    DecodeIsClean(Encode(v));
    RecodeIdentityIffClean(Recode(v));
  }
}

module Replay {
  import opened Wrappers
  import opened SettlementJson
  import opened BurnHash

  datatype Mark = Mark(burnTxHash: string, fields: map<string, Js>)

  /** `{ ...record, burnTxHash: key }` */
  function Keyed(m: Mark): Js {
    Obj(m.fields["burnTxHash" := Str(ReplayKey(m.burnTxHash))])
  }

  /** The reference: the record most recently marked under a key, for ever. */
  function LastMark(history: seq<Mark>, key: string): Option<Js> {
    if history == [] then None
    else if ReplayKey(history[|history| - 1].burnTxHash) == key then Some(Keyed(history[|history| - 1]))
    else LastMark(history[..|history| - 1], key)
  }

  /** The reference as a store that keeps JSON answers it. */
  function LastStored(history: seq<Mark>, key: string): Option<Js> {
    match LastMark(history, key)
    case None => None
    case Some(v) => Some(Recode(v))
  }

  /** MemoryReplayStore, and core's InMemoryReplayStore with the same body. */
  class MemoryReplayStore {
    var records: map<string, Js>
    ghost var history: seq<Mark>

    ghost predicate Valid()
      reads this
    {
      forall key :: LastMark(history, key) == if key in records then Some(records[key]) else None
    }

    constructor ()
      ensures Valid() && history == []
    {
      records, history := map[], [];
    }

    method IsProcessed(burnTxHash: string) returns (b: bool)
      requires Valid()
      ensures b == LastMark(history, ReplayKey(burnTxHash)).Some?
    {
      b := ReplayKey(burnTxHash) in records;
    }

    method MarkProcessed(burnTxHash: string, fields: map<string, Js>)
      requires Valid()
      modifies this
      ensures Valid() && history == old(history) + [Mark(burnTxHash, fields)]
    {
      var key := ReplayKey(burnTxHash);
      records := records[key := Obj(fields["burnTxHash" := Str(key)])];
      history := history + [Mark(burnTxHash, fields)];
      assert history[..|history| - 1] == old(history);
    }

    method GetRecord(burnTxHash: string) returns (r: Option<Js>)
      requires Valid()
      ensures r == LastMark(history, ReplayKey(burnTxHash))
    {
      var key := ReplayKey(burnTxHash);
      r := if key in records then Some(records[key]) else None;
    }
  }

  /** RedisReplayStore: one value per hash, written without a lifetime. */
  class RedisReplayStore {
    var redis: map<string, Js>
    ghost var history: seq<Mark>

    ghost predicate Valid()
      reads this
    {
      forall key :: LastStored(history, key)
                 == if "replay:" + key in redis then Some(Decode(redis["replay:" + key])) else None
    }

    constructor ()
      ensures Valid() && history == []
    {
      redis, history := map[], [];
    }

    method IsProcessed(burnTxHash: string) returns (b: bool)
      requires Valid()
      ensures b == LastMark(history, ReplayKey(burnTxHash)).Some?
    {
      var key := ReplayKey(burnTxHash);
      assert LastStored(history, key).Some? == LastMark(history, key).Some?;
      b := "replay:" + key in redis;
    }

    method MarkProcessed(burnTxHash: string, fields: map<string, Js>)
      requires Valid()
      modifies this
      ensures Valid() && history == old(history) + [Mark(burnTxHash, fields)]
    {
      var key := ReplayKey(burnTxHash);
      redis := redis["replay:" + key := Encode(Obj(fields["burnTxHash" := Str(key)]))];
      history := history + [Mark(burnTxHash, fields)];
      assert history[..|history| - 1] == old(history);
      forall k | k != key ensures "replay:" + k != "replay:" + key {
        assert ("replay:" + k)[7..] == k && ("replay:" + key)[7..] == key;
      }
    }

    method GetRecord(burnTxHash: string) returns (r: Option<Js>)
      requires Valid()
      ensures r == LastStored(history, ReplayKey(burnTxHash))
    {
      var key := "replay:" + ReplayKey(burnTxHash);
      r := if key in redis then Some(Decode(redis[key])) else None;
    }
  }

  /** What `read()` makes of the file: a missing or unreadable one is an empty map. */
  function FileMap(file: Option<Js>): map<string, Js> {
    if file.Some? && Decode(file.value).Obj? then Decode(file.value).fields else map[]
  }

  ghost predicate FileKey(file: Option<Js>, history: seq<Mark>, key: string) {
    LastStored(history, key) == if key in FileMap(file) then Some(FileMap(file)[key]) else None
  }

  /** The file after a mark: everything read, one record changed, everything encoded again. */
  function Rewritten(file: Option<Js>, key: string, fields: map<string, Js>): Option<Js> {
    Some(Encode(Obj(FileMap(file)[key := Obj(fields["burnTxHash" := Str(key)])])))
  }

  /** Encoding the other records once more does not change what they decode to. */
  lemma RewrittenKey(file: Option<Js>, history: seq<Mark>, burnTxHash: string, fields: map<string, Js>, k: string)
    requires FileKey(file, history, k)
    ensures FileKey(Rewritten(file, ReplayKey(burnTxHash), fields), history + [Mark(burnTxHash, fields)], k)
  {
    var more := history + [Mark(burnTxHash, fields)];
    assert more[..|more| - 1] == history;
    if k != ReplayKey(burnTxHash) && k in FileMap(file) {
      RecodeIdempotent(LastMark(history, k).value);
    }
  }

  /** FileReplayStore: the whole map is read, changed and written back as one JSON value. */
  class FileReplayStore {
    var file: Option<Js>
    ghost var history: seq<Mark>

    ghost predicate Valid()
      reads this
    {
      forall key :: FileKey(file, history, key)
    }

    constructor ()
      ensures Valid() && history == []
    {
      file, history := None, [];
    }

    method IsProcessed(burnTxHash: string) returns (b: bool)
      requires Valid()
      ensures b == LastMark(history, ReplayKey(burnTxHash)).Some?
    {
      var key := ReplayKey(burnTxHash);
      assert FileKey(file, history, key);
      b := key in FileMap(file);
    }

    method MarkProcessed(burnTxHash: string, fields: map<string, Js>)
      requires Valid()
      modifies this
      ensures Valid() && history == old(history) + [Mark(burnTxHash, fields)]
    {
      var key := ReplayKey(burnTxHash);
      var all := FileMap(file);
      all := all[key := Obj(fields["burnTxHash" := Str(key)])];
      file := Some(Encode(Obj(all)));
      history := history + [Mark(burnTxHash, fields)];
      forall k ensures FileKey(file, history, k) {
        RewrittenKey(old(file), old(history), burnTxHash, fields, k);
      }
    }

    method GetRecord(burnTxHash: string) returns (r: Option<Js>)
      requires Valid()
      ensures r == LastStored(history, ReplayKey(burnTxHash))
    {
      var all := FileMap(file);
      var key := ReplayKey(burnTxHash);
      assert FileKey(file, history, key);
      r := if key in all then Some(all[key]) else None;
    }
  }

  /** Position i holds the last marking of the key. */
  predicate LastAt(history: seq<Mark>, key: string, i: int) {
    && 0 <= i < |history| && ReplayKey(history[i].burnTxHash) == key
    && forall j :: i < j < |history| ==> ReplayKey(history[j].burnTxHash) != key
  }

  /** The last marking of a key decides, and no marking is ever forgotten. */
  lemma {:induction false} LastMarkMeaning(history: seq<Mark>, key: string, i: int)
    ensures LastAt(history, key, i) ==> LastMark(history, key) == Some(Keyed(history[i]))
    ensures LastMark(history, key).None? <==> forall m :: m in history ==> ReplayKey(m.burnTxHash) != key
    decreases |history|
  {
    if history != [] {
      var front := history[..|history| - 1];
      LastMarkMeaning(front, key, i);
      assert history == front + [history[|history| - 1]];
      if LastAt(history, key, i) && i < |history| - 1 {
        assert ReplayKey(history[|history| - 1].burnTxHash) != key;
        assert LastAt(front, key, i);
      }
    }
  }

  /**
   * After any sequence of marks the JSON-backed stores answer a read as the memory
   * stores do exactly when the record it concerns is clean (or there is none).
   */
  lemma StoresAnswerAlike(history: seq<Mark>, key: string)
    ensures LastStored(history, key) == LastMark(history, key)
      <==> (LastMark(history, key).Some? ==> Clean(LastMark(history, key).value))
  {
    if LastMark(history, key).Some? {
      RecodeIdentityIffClean(LastMark(history, key).value);
    }
  }

  /** Every spelling of a hash reads the record that any other spelling marked. */
  lemma SpellingsShareARecord(history: seq<Mark>, fields: map<string, Js>, a: string, b: string)
    requires ParseHash(a).Some? && ParseHash(a) == ParseHash(b)
    ensures var h := ParseHash(a).value;
      LastMark(history + [Mark(a, fields)], ReplayKey(b)) == Some(Obj(fields["burnTxHash" := Str(h)]))
  {
    NormalisationsAgree(a);
    NormalisationsAgree(b);
  }
}

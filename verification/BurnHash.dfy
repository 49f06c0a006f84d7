// The four places that normalise a burn hash: preNormalizeHash (events.ts),
// normalizeBurnTxHash (receive.ts), normalizeReplayKey (kv.ts) and normalizeKey
// (replay/index.ts, replay/file-store.ts).

module BurnHash {
  import opened Wrappers
  import opened Text
  import CctpMessage

  function LowerChar(c: char): char {
    if 'A' <= c <= 'Z' then c - 'A' + 'a' else c
  }

  /** `toLowerCase` on ASCII text. */
  function Lower(s: string): string {
    seq(|s|, i requires 0 <= i < |s| => LowerChar(s[i]))
  }

  /** `h.trim().replace(/^0X/, '0x')` */
  function PreNormalize(h: string): string {
    var t := Trim(h);
    if "0X" <= t then "0x" + t[2..] else t
  }

  /** `/^0x[0-9a-fA-F]{64}$/` */
  predicate IsBurnHash(t: string) {
    |t| == 66 && t[..2] == "0x" && forall i :: 2 <= i < 66 ==> CctpMessage.IsHex(t[i])
  }

  function NormalizeBurnTxHash(h: string): Option<string> {
    var t := Trim(h);
    if IsBurnHash(t) then Some("0x" + Lower(t[2..])) else None
  }

  /** normalizeReplayKey and both normalizeKey: never refuse, only rewrite. */
  function ReplayKey(h: string): string {
    var t := Trim(h);
    "0x" + Lower(if |t| < 2 then "" else t[2..])
  }

  /** The hash a handler works with, from the text a caller sent. */
  function ParseHash(raw: string): Option<string> {
    NormalizeBurnTxHash(PreNormalize(raw))
  }

  predicate CanonicalHash(h: string) {
    IsBurnHash(h) && forall i :: 2 <= i < 66 ==> !('A' <= h[i] <= 'F')
  }

  lemma LowerIdentity(s: string)
    requires forall i :: 0 <= i < |s| ==> !('A' <= s[i] <= 'Z')
    ensures Lower(s) == s
  {
  }

  lemma CanonicalTrim(h: string)
    requires IsBurnHash(h)
    ensures Trim(h) == h
  {
    assert h[0] == h[..2][0];
    TrimIdentity(h);
  }

  lemma LoweredIsCanonical(t: string)
    requires IsBurnHash(t)
    ensures CanonicalHash("0x" + Lower(t[2..]))
  {
    var h := "0x" + Lower(t[2..]);
    assert h[..2] == "0x";
    forall i | 2 <= i < 66 ensures CctpMessage.IsHex(h[i]) && !('A' <= h[i] <= 'F') {
      assert h[i] == LowerChar(t[i]) && CctpMessage.IsHex(t[i]);
    }
  }

  /** A store derives the key from any accepted spelling of the hash, the other prefix included. */
  lemma KeyOfSpelling(raw: string)
    requires ParseHash(raw).Some?
    ensures ReplayKey(raw) == ParseHash(raw).value
  {
    var t, u := Trim(raw), PreNormalize(raw);
    TrimTwice(raw);
    if "0X" <= t {
      assert t[2..] == u[2..];
      assert u[0] == '0' && u[|u| - 1] == if |t| == 2 then 'x' else t[|t| - 1];
      var pad, pad' := TrimParts(raw);
      TrimIdentity(u);
    }
  }

  /** A handler's hash is canonical, and every later normalisation leaves it alone. */
  lemma NormalisationsAgree(raw: string)
    requires ParseHash(raw).Some?
    ensures var h := ParseHash(raw).value;
      && CanonicalHash(h)
      && NormalizeBurnTxHash(h) == Some(h)
      && ReplayKey(h) == h
      && ParseHash(h) == Some(h)
      && ReplayKey(raw) == h
  {
    LoweredIsCanonical(Trim(PreNormalize(raw)));
    KeyOfSpelling(raw);
    CanonicalIsFixed(ParseHash(raw).value);
  }

  lemma CanonicalIsFixed(h: string)
    requires CanonicalHash(h)
    ensures NormalizeBurnTxHash(h) == Some(h) && ReplayKey(h) == h && ParseHash(h) == Some(h)
  {
    CanonicalTrim(h);
    LowerIdentity(h[2..]);
    assert h == "0x" + h[2..];
    assert h[1] == h[..2][1];
  }

  /** Two spellings of one hash: equal after dropping the first two characters and letter case. */
  predicate SameSpelling(a: string, b: string) {
    |a| >= 2 && |b| >= 2 && Lower(a[2..]) == Lower(b[2..])
  }

  /** Accepted spellings get one store key if and only if they spell one hash. */
  lemma OneKeyPerHash(a: string, b: string)
    requires ParseHash(a).Some? && ParseHash(b).Some?
    ensures ParseHash(a) == ParseHash(b) <==> SameSpelling(Trim(PreNormalize(a)), Trim(PreNormalize(b)))
  {
    var s, t := Trim(PreNormalize(a)), Trim(PreNormalize(b));
    assert ("0x" + Lower(s[2..]))[2..] == Lower(s[2..]);
    assert ("0x" + Lower(t[2..]))[2..] == Lower(t[2..]);
  }
}

// String helpers shared by every parser and printer of the repository: the
// whitespace that `trim` removes, decimal digits, and decimal printing; and the two
// types that several modules share.

module Wrappers {
  datatype Option<+T> = None | Some(value: T)

  datatype Result<+T, +E> = Ok(value: T) | Err(error: E)
}

module Transfers {
  /** CCTP transfer mode: Fast settles at finality threshold 1000, Standard above it. */
  datatype Mode = Fast | Standard
}

module Text {

  const MAX_U64: nat := 0xFFFF_FFFF_FFFF_FFFF

  /** White space and line terminators, as `String.prototype.trim` sees them. */
  predicate IsSpace(c: char) {
    || '\U{0009}' <= c <= '\U{000D}'
    || c == '\U{0020}' || c == '\U{00A0}' || c == '\U{1680}'
    || '\U{2000}' <= c <= '\U{200A}'
    || c == '\U{2028}' || c == '\U{2029}' || c == '\U{202F}' || c == '\U{205F}'
    || c == '\U{3000}' || c == '\U{FEFF}'
  }

  /** First position at or after `i` that holds no white space. */
  function SkipSpaces(s: string, i: nat): (k: nat)
    requires i <= |s|
    ensures i <= k <= |s|
    decreases |s| - i
  {
    if i < |s| && IsSpace(s[i]) then SkipSpaces(s, i + 1) else i
  }

  /** Last end position at or before `j`, not before `i`, that follows no white space. */
  function DropSpaces(s: string, i: nat, j: nat): (k: nat)
    requires i <= j <= |s|
    ensures i <= k <= j
  {
    if i < j && IsSpace(s[j - 1]) then DropSpaces(s, i, j - 1) else j
  }

  function Trim(s: string): string {
    var i := SkipSpaces(s, 0);
    s[i..DropSpaces(s, i, |s|)]
  }

  /** A string without outer white space is its own trim. */
  lemma TrimIdentity(s: string)
    requires s == [] || (!IsSpace(s[0]) && !IsSpace(s[|s| - 1]))
    ensures Trim(s) == s
  {
  }

  predicate AllSpace(s: string) {
    forall i :: 0 <= i < |s| ==> IsSpace(s[i])
  }

  /** No white space at either end. */
  predicate Tight(s: string) {
    s != "" ==> !IsSpace(s[0]) && !IsSpace(s[|s| - 1])
  }

  lemma {:induction false} SkipOver(s: string, i: nat, k: nat)
    requires i <= k <= |s| && (forall j :: i <= j < k ==> IsSpace(s[j])) && (k < |s| ==> !IsSpace(s[k]))
    ensures SkipSpaces(s, i) == k
    decreases k - i
  {
    if i < k { SkipOver(s, i + 1, k); }
  }

  lemma {:induction false} DropOver(s: string, i: nat, j: nat, k: nat)
    requires i <= k <= j <= |s| && (forall m :: k <= m < j ==> IsSpace(s[m])) && (i < k ==> !IsSpace(s[k - 1]))
    ensures DropSpaces(s, i, j) == k
    decreases j - k
  {
    if k < j { DropOver(s, i, j - 1, k); }
  }

  /** Trimming takes away exactly the white space around a text. */
  lemma TrimPadded(pad: string, s: string, pad': string)
    requires AllSpace(pad) && AllSpace(pad') && Tight(s) && s != ""
    ensures Trim(pad + s + pad') == s
  {
    var t := pad + s + pad';
    forall j | 0 <= j < |pad| ensures IsSpace(t[j]) { assert t[j] == pad[j]; }
    assert t[|pad|] == s[0] && t[|pad| + |s| - 1] == s[|s| - 1];
    SkipOver(t, 0, |pad|);
    forall m | |pad| + |s| <= m < |t| ensures IsSpace(t[m]) { assert t[m] == pad'[m - |pad| - |s|]; }
    DropOver(t, |pad|, |t|, |pad| + |s|);
  }

  lemma {:induction false} SkippedAreSpaces(s: string, i: nat)
    requires i <= |s|
    ensures var k := SkipSpaces(s, i); (forall j :: i <= j < k ==> IsSpace(s[j])) && (k < |s| ==> !IsSpace(s[k]))
    decreases |s| - i
  {
    if i < |s| && IsSpace(s[i]) { SkippedAreSpaces(s, i + 1); }
  }

  lemma {:induction false} DroppedAreSpaces(s: string, i: nat, j: nat)
    requires i <= j <= |s|
    ensures var k := DropSpaces(s, i, j); (forall m :: k <= m < j ==> IsSpace(s[m])) && (i < k ==> !IsSpace(s[k - 1]))
    decreases j
  {
    if i < j && IsSpace(s[j - 1]) { DroppedAreSpaces(s, i, j - 1); }
  }

  /** And every text is its trim between two pieces of white space. */
  lemma TrimParts(s: string) returns (pad: string, pad': string)
    ensures AllSpace(pad) && AllSpace(pad') && Tight(Trim(s)) && s == pad + Trim(s) + pad'
  {
    var i := SkipSpaces(s, 0);
    var k := DropSpaces(s, i, |s|);
    SkippedAreSpaces(s, 0);
    DroppedAreSpaces(s, i, |s|);
    pad, pad' := s[..i], s[k..];
  }

  lemma TrimTwice(s: string)
    ensures Trim(Trim(s)) == Trim(s)
  {
    var pad, pad' := TrimParts(s);
    TrimIdentity(Trim(s));
  }

  predicate IsDigit(c: char) {
    '0' <= c <= '9'
  }

  predicate AllDigits(s: string) {
    forall i :: 0 <= i < |s| ==> IsDigit(s[i])
  }

  function DigitValue(c: char): (d: nat)
    requires IsDigit(c)
    ensures d < 10 && DigitChar(d) == c
  {
    (c - '0') as nat
  }

  function DigitChar(d: nat): (c: char)
    requires d < 10
    ensures IsDigit(c)
  {
    '0' + d as char
  }

  /** The number a digit string denotes; the empty string denotes zero. */
  function ToNat(s: string): nat
    requires AllDigits(s)
  {
    if s == [] then 0 else ToNat(s[..|s| - 1]) * 10 + DigitValue(s[|s| - 1])
  }

  /** Decimal printing, as `toString` on a non-negative bigint. */
  function Print(n: nat): (s: string)
    ensures s != [] && AllDigits(s)
    ensures ToNat(s) == n
    ensures s[0] == '0' ==> n == 0 && |s| == 1
  {
    if n < 10 then [DigitChar(n)] else
      var front := Print(n / 10);
      var s := front + [DigitChar(n % 10)];
      assert s[..|s| - 1] == front;
      s
  }

  function Zeros(n: nat): (z: string)
    ensures |z| == n && AllDigits(z)
    ensures forall i :: 0 <= i < n ==> z[i] == '0'
  {
    seq(n, i => '0')
  }

  function PadStart(s: string, width: nat): string {
    if |s| >= width then s else Zeros(width - |s|) + s
  }

  function PadEnd(s: string, width: nat): string {
    if |s| >= width then s else s + Zeros(width - |s|)
  }

  lemma {:induction false} ToNatBound(s: string, k: nat)
    requires AllDigits(s)
    requires |s| <= k
    ensures ToNat(s) < Pow10(k)
  {
    if s != [] {
      ToNatBound(s[..|s| - 1], k - 1);
    } else {
      Pow10Positive(k);
    }
  }

  function Pow10(k: nat): nat {
    if k == 0 then 1 else 10 * Pow10(k - 1)
  }

  lemma {:induction false} Pow10Positive(k: nat)
    ensures Pow10(k) > 0
  {
    if k > 0 { Pow10Positive(k - 1); }
  }

  /** Appending a zero digit multiplies by ten. */
  lemma ToNatAppend(s: string, c: char)
    requires AllDigits(s) && IsDigit(c)
    ensures AllDigits(s + [c])
    ensures ToNat(s + [c]) == ToNat(s) * 10 + DigitValue(c)
  {
    assert (s + [c])[..|s|] == s;
  }

  /** Leading zeros do not change the value. */
  lemma {:induction false} ToNatLeadingZeros(n: nat, s: string)
    requires AllDigits(s)
    ensures AllDigits(Zeros(n) + s)
    ensures ToNat(Zeros(n) + s) == ToNat(s)
  {
    if s == [] {
      assert Zeros(n) + s == Zeros(n);
      if n > 0 {
        ToNatLeadingZeros(n - 1, []);
        assert Zeros(n)[..n - 1] == Zeros(n - 1) + [];
      }
    } else {
      ToNatLeadingZeros(n, s[..|s| - 1]);
      var z := Zeros(n) + s;
      assert z[..|z| - 1] == Zeros(n) + s[..|s| - 1];
    }
  }

  /** Trailing zeros multiply by powers of ten. */
  lemma {:induction false} ToNatTrailingZeros(s: string, n: nat)
    requires AllDigits(s)
    ensures AllDigits(s + Zeros(n)) && ToNat(s + Zeros(n)) == ToNat(s) * Pow10(n)
  {
    if n == 0 {
      assert s + Zeros(0) == s;
    } else {
      ToNatTrailingZeros(s, n - 1);
      assert s + Zeros(n) == s + Zeros(n - 1) + ['0'];
      ToNatAppend(s + Zeros(n - 1), '0');
      TimesTen(ToNat(s), Pow10(n - 1));
    }
  }

  lemma TimesTen(m: nat, p: nat)
    ensures m * p * 10 == m * (10 * p)
  {
  }

  /** A printed number has at most `k` digits exactly when it is below 10^k. */
  lemma {:induction false} PrintWidth(n: nat, k: nat)
    requires k > 0
    ensures |Print(n)| <= k <==> n < Pow10(k)
  {
    if k == 1 {
      assert Pow10(1) == 10;
      if n >= 10 { assert |Print(n / 10)| >= 1; }
    } else if n < 10 {
      Pow10Positive(k - 2);
      assert Pow10(k) == 100 * Pow10(k - 2);
    } else {
      PrintWidth(n / 10, k - 1);
    }
  }

  /** Digit strings without a leading zero are exactly the printed numbers. */
  lemma {:induction false} PrintOfToNat(s: string)
    requires AllDigits(s) && s != [] && (s[0] == '0' ==> |s| == 1)
    ensures Print(ToNat(s)) == s
  {
    var front, last := s[..|s| - 1], DigitValue(s[|s| - 1]);
    if front == [] {
      assert ToNat(front) == 0;
      assert s == [s[0]];
    } else {
      PrintOfToNat(front);
      assert ToNat(s) / 10 == ToNat(front) && ToNat(s) % 10 == last;
      assert s == front + [s[|s| - 1]];
    }
  }

  /** Fixed-width printing inverts reading, for every digit string of that width. */
  lemma {:induction false} PadStartOfToNat(s: string)
    requires AllDigits(s) && s != []
    ensures PadStart(Print(ToNat(s)), |s|) == s
  {
    var k := |s|;
    var front, c := s[..k - 1], s[k - 1];
    assert s == front + [c];
    if front == [] {
      assert ToNat(front) == 0;
      assert ToNat(s) == DigitValue(c);
    } else {
      PadStartOfToNat(front);
      var n, m := ToNat(s), ToNat(front);
      assert n / 10 == m && n % 10 == DigitValue(c);
      if n < 10 {
        assert m == 0 && Print(n) == [c];
        assert front == Zeros(k - 2) + "0";
        assert Zeros(k - 1) == Zeros(k - 2) + "0";
      } else {
        assert Print(n) == Print(m) + [c];
      }
    }
  }
}

// Text helpers shared by the policy modules. Characters are Unicode scalars;
// case folding is ASCII only.
module Text {

  datatype Option<+T> = None | Some(value: T)

  function AsciiLower(c: char): char {
    if 'A' <= c <= 'Z' then (c as int + 32) as char else c
  }

  function Lower(s: string): string {
    seq(|s|, i requires 0 <= i < |s| => AsciiLower(s[i]))
  }

  predicate IsAscii(s: string) {
    forall c :: c in s ==> c as int < 0x80
  }

  // Number of bytes of the UTF-8 form of a text (Rust `str::len`).
  function Utf8Len(s: string): nat {
    if s == "" then 0 else Width(s[0]) + Utf8Len(s[1..])
  }

  function Width(c: char): nat {
    if c as int < 0x80 then 1 else if c as int < 0x800 then 2 else if c as int < 0x10000 then 3 else 4
  }

  lemma {:induction false} Utf8LenConcat(a: string, b: string)
    ensures Utf8Len(a + b) == Utf8Len(a) + Utf8Len(b)
  {
    if a == "" {
      assert a + b == b;
    } else {
      assert (a + b)[1..] == a[1..] + b;
      Utf8LenConcat(a[1..], b);
    }
  }

  lemma {:induction false} Utf8LenAtLeast(s: string)
    ensures |s| <= Utf8Len(s)
  {
    if s != "" { Utf8LenAtLeast(s[1..]); }
  }

  lemma {:induction false} Utf8LenAscii(s: string)
    requires IsAscii(s)
    ensures Utf8Len(s) == |s|
  {
    if s != "" {
      assert s[0] in s;
      assert forall c :: c in s[1..] ==> c in s;
      Utf8LenAscii(s[1..]);
    }
  }

  predicate IsControl(c: char) {
    c as int <= 0x1f || 0x7f <= c as int <= 0x9f
  }

  // Unicode White_Space, the set used by `str::trim`.
  predicate IsWhite(c: char) {
    var n := c as int;
    0x09 <= n <= 0x0d || n == 0x20 || n == 0x85 || n == 0xa0 || n == 0x1680 || 0x2000 <= n <= 0x200a
    || n == 0x2028 || n == 0x2029 || n == 0x202f || n == 0x205f || n == 0x3000
  }

  // JavaScript's `String.prototype.trim` set: U+0085 is not in it, U+FEFF is.
  predicate IsJsWhite(c: char) {
    c as int == 0xfeff || (IsWhite(c) && c as int != 0x85)
  }

  function FirstKept(s: string, i: nat): (k: nat)
    requires i <= |s|
    ensures i <= k <= |s| && (k < |s| ==> !IsWhite(s[k]))
    decreases |s| - i
  {
    if i < |s| && IsWhite(s[i]) then FirstKept(s, i + 1) else i
  }

  function LastKept(s: string, j: nat): (k: nat)
    requires j <= |s|
    ensures k <= j && (k > 0 ==> !IsWhite(s[k - 1]))
  {
    if j > 0 && IsWhite(s[j - 1]) then LastKept(s, j - 1) else j
  }

  function Trim(s: string): string {
    var i, j := FirstKept(s, 0), LastKept(s, |s|);
    if i < j then s[i..j] else ""
  }

  predicate IsTrimmed(s: string) {
    s == "" || (!IsWhite(s[0]) && !IsWhite(s[|s| - 1]))
  }

  lemma TrimmedIffTrimIsIdentity(s: string)
    ensures Trim(s) == s <==> IsTrimmed(s)
    ensures IsTrimmed(Trim(s))
  {
    var i, j := FirstKept(s, 0), LastKept(s, |s|);
    if s != "" && Trim(s) == s { assert i == 0 && j == |s|; }
  }

  // `replace('/', "\\")`
  function Backslashed(s: string): string {
    seq(|s|, i requires 0 <= i < |s| => if s[i] == '/' then '\\' else s[i])
  }

  // ---- Sequences whose elements are identified by a key -----------------

  ghost predicate DistinctBy<T, K>(xs: seq<T>, key: T -> K) {
    forall i, j :: 0 <= i < j < |xs| ==> key(xs[i]) != key(xs[j])
  }

  lemma DistinctPush<T, K>(xs: seq<T>, x: T, key: T -> K)
    requires DistinctBy(xs, key) && forall i :: 0 <= i < |xs| ==> key(xs[i]) != key(x)
    ensures DistinctBy(xs + [x], key)
  {}

  lemma SameSize<T>(a: seq<T>, b: seq<T>)
    requires multiset(a) == multiset(b)
    ensures |a| == |b|
  {
    assert |multiset(a)| == |a| && |multiset(b)| == |b|;
  }

  lemma SameElements<T>(a: seq<T>, b: seq<T>, i: nat)
    requires multiset(a) == multiset(b) && i < |b|
    ensures exists m :: 0 <= m < |a| && a[m] == b[i]
  {
    assert b[i] in multiset(a);
  }

  lemma PermutedDistinct<T, K>(a: seq<T>, b: seq<T>, key: T -> K)
    requires multiset(a) == multiset(b) && DistinctBy(a, key)
    ensures DistinctBy(b, key)
  {
    forall i, j | 0 <= i < j < |b| ensures key(b[i]) != key(b[j]) {
      SameElements(a, b, i);
      SameElements(a, b, j);
      var m :| 0 <= m < |a| && a[m] == b[i];
      var n :| 0 <= n < |a| && a[n] == b[j];
      if b[i] == b[j] {
        AtLeastTwice(b, i, j);
        AtMostOnce(a, m);
        assert false;
      }
    }
  }

  lemma AtLeastTwice<T>(b: seq<T>, i: nat, j: nat)
    requires i < j < |b| && b[i] == b[j]
    ensures multiset(b)[b[i]] >= 2
  {
    assert b == b[..j] + [b[j]] + b[j + 1..];
    assert b[i] == b[..j][i] && b[i] in multiset(b[..j]);
  }

  lemma AtMostOnce<T>(a: seq<T>, m: nat)
    requires m < |a| && forall i :: 0 <= i < |a| && i != m ==> a[i] != a[m]
    ensures multiset(a)[a[m]] <= 1
  {
    assert a == a[..m] + [a[m]] + a[m + 1..];
    assert a[m] !in a[..m] && a[m] !in a[m + 1..];
    assert a[m] !in multiset(a[..m]) && a[m] !in multiset(a[m + 1..]);
  }
}

/** The few pieces of JavaScript string behaviour the chat client relies on:
    String.prototype.trim, toLowerCase (restricted to ASCII letters),
    String.prototype.includes, Number.prototype.toString on a non-negative
    integer, and the ECMAScript notion of an "array index" property key. */
module JsString {

  // ---------------------------------------------------------------------
  // trim
  // ---------------------------------------------------------------------

  /** The code points String.prototype.trim strips: the WhiteSpace and
      LineTerminator productions of ECMAScript (TAB, VT, FF, SP, NBSP,
      ZWNBSP, the Space_Separator category, LF, CR, LS, PS). */
  predicate IsTrimmable(c: char)
    ensures c == ' ' || c == '\t' || c == '\n' || c == '\r' ==> IsTrimmable(c)
    ensures '!' <= c <= '~' ==> !IsTrimmable(c)
  {
    || c == '\U{9}' || c == '\U{B}' || c == '\U{C}' || c == ' '
    || c == '\U{A0}' || c == '\U{FEFF}'
    || c == '\U{1680}' || ('\U{2000}' <= c <= '\U{200A}')
    || c == '\U{202F}' || c == '\U{205F}' || c == '\U{3000}'
    || c == '\U{A}' || c == '\U{D}' || c == '\U{2028}' || c == '\U{2029}'
  }

  /** The index of the first character at or after `i` that trim keeps,
      or |s|: everything skipped is trimmable. */
  function FirstKept(s: string, i: nat): (k: nat)
    requires i <= |s|
    ensures i <= k <= |s|
    ensures forall j :: i <= j < k ==> IsTrimmable(s[j])
    ensures k == |s| || !IsTrimmable(s[k])
    decreases |s| - i
  {
    if i < |s| && IsTrimmable(s[i]) then FirstKept(s, i + 1) else i
  }

  /** The end (exclusive) of what trim keeps, scanning back from `j` but
      not below `lo`: everything skipped is trimmable. */
  function LastKept(s: string, lo: nat, j: nat): (k: nat)
    requires lo <= j <= |s|
    ensures lo <= k <= j
    ensures forall m :: k <= m < j ==> IsTrimmable(s[m])
    ensures k == lo || !IsTrimmable(s[k - 1])
    decreases j
  {
    if j > lo && IsTrimmable(s[j - 1]) then LastKept(s, lo, j - 1) else j
  }

  /** String.prototype.trim: the piece between the first and the last
      character that is not trimmable. */
  function Trim(s: string): (t: string)
    ensures |t| <= |s|
    ensures forall i :: 0 <= i < |t| ==> t[i] in s
  {
    var lo := FirstKept(s, 0);
    s[lo..LastKept(s, lo, |s|)]
  }

  /** `!s.trim()` holds exactly when `s` is empty or consists of
      trimmable characters only. */
  lemma TrimEmptyIff(s: string)
    ensures Trim(s) == [] <==> forall i :: 0 <= i < |s| ==> IsTrimmable(s[i])
  {
    var lo := FirstKept(s, 0);
    var hi := LastKept(s, lo, |s|);
    if forall i :: 0 <= i < |s| ==> IsTrimmable(s[i]) {
      assert lo == |s|;
    }
  }

  /** The trimmed string is a contiguous piece of the input, and
      everything cut off is trimmable. */
  lemma TrimShape(s: string) returns (lo: nat, hi: nat)
    ensures lo <= hi <= |s| && Trim(s) == s[lo..hi]
    ensures forall i :: 0 <= i < lo ==> IsTrimmable(s[i])
    ensures forall i :: hi <= i < |s| ==> IsTrimmable(s[i])
  {
    lo := FirstKept(s, 0);
    hi := LastKept(s, lo, |s|);
  }

  /** The trimmed string has no trimmable character at either end. */
  lemma TrimEnds(s: string)
    ensures Trim(s) != [] ==> !IsTrimmable(Trim(s)[0]) && !IsTrimmable(Trim(s)[|Trim(s)| - 1])
  {
    var lo := FirstKept(s, 0);
    var hi := LastKept(s, lo, |s|);
    if lo < hi {
      assert Trim(s)[0] == s[lo];
      assert Trim(s)[|Trim(s)| - 1] == s[hi - 1];
    }
  }

  /** A string with no trimmable character at either end is its own
      trim. */
  lemma TrimNoop(s: string)
    requires s == [] || (!IsTrimmable(s[0]) && !IsTrimmable(s[|s| - 1]))
    ensures Trim(s) == s
  {
    if s != [] {
      assert FirstKept(s, 0) == 0;
      assert LastKept(s, 0, |s|) == |s|;
    }
  }

  // ---------------------------------------------------------------------
  // toLowerCase and includes
  // ---------------------------------------------------------------------

  /** toLowerCase on one character, for the ASCII letters only. */
  function LowerChar(c: char): char {
    if 'A' <= c <= 'Z' then (c as int + 32) as char else c
  }

  /** toLowerCase, character by character. */
  function Lower(s: string): (r: string)
    ensures |r| == |s|
  {
    seq(|s|, i requires 0 <= i < |s| => LowerChar(s[i]))
  }

  /** String.prototype.includes: `t` occurs in `s` at position 0 or
      further on. */
  predicate Contains(s: string, t: string)
    ensures Contains(s, t) ==> |t| <= |s|
    decreases |s|
  {
    t <= s || (|s| > 0 && Contains(s[1..], t))
  }

  /** `s.includes(t)` holds exactly when `t` is a prefix of some suffix
      of `s`. */
  lemma ContainsIff(s: string, t: string)
    ensures Contains(s, t) <==> exists i :: 0 <= i <= |s| && t <= s[i..]
  {
    if Contains(s, t) {
      var i := ContainsWitness(s, t);
      assert 0 <= i <= |s| && t <= s[i..];
    }
    if exists i :: 0 <= i <= |s| && t <= s[i..] {
      var i :| 0 <= i <= |s| && t <= s[i..];
      ContainsAt(s, t, i);
    }
  }

  /** Where `s.includes(t)` finds `t`. */
  lemma {:induction false} ContainsWitness(s: string, t: string) returns (i: nat)
    requires Contains(s, t)
    ensures i <= |s| && t <= s[i..]
    decreases |s|
  {
    if t <= s {
      i := 0;
      assert s[0..] == s;
    } else {
      var j := ContainsWitness(s[1..], t);
      assert s[1..][j..] == s[j + 1..];
      i := j + 1;
    }
  }

  /** An occurrence of `t` at position `i` is found by `s.includes(t)`. */
  lemma {:induction false} ContainsAt(s: string, t: string, i: nat)
    requires i <= |s| && t <= s[i..]
    ensures Contains(s, t)
    decreases i
  {
    if i == 0 {
      assert s[0..] == s;
    } else {
      assert s[1..][i - 1..] == s[i..];
      ContainsAt(s[1..], t, i - 1);
    }
  }

  /** Every string includes the empty string. */
  lemma ContainsEmpty(s: string)
    ensures Contains(s, "")
  {
  }

  // ---------------------------------------------------------------------
  // Number.prototype.toString and canonical decimal strings
  // ---------------------------------------------------------------------

  predicate IsDigit(c: char) {
    '0' <= c <= '9'
  }

  function DigitChar(d: nat): (c: char)
    requires d < 10
    ensures IsDigit(c) && c as int - '0' as int == d
  {
    (d + '0' as int) as char
  }

  function DigitValue(c: char): nat
    requires IsDigit(c)
  {
    c as int - '0' as int
  }

  predicate AllDigits(s: string) {
    forall i :: 0 <= i < |s| ==> IsDigit(s[i])
  }

  /** The decimal string ToString gives a non-negative integer: digits
      only, and no leading zero unless the number is 0. */
  predicate IsCanonicalDecimal(s: string) {
    |s| > 0 && AllDigits(s) && (s[0] == '0' ==> |s| == 1)
  }

  /** The number a string of digits denotes. */
  function DecimalValue(s: string): nat
    requires AllDigits(s)
  {
    if |s| == 0 then 0 else 10 * DecimalValue(s[..|s| - 1]) + DigitValue(s[|s| - 1])
  }

  /** `n.toString()` for a non-negative safe integer such as Date.now(). */
  function NatToString(n: nat): (r: string)
    ensures |r| > 0 && AllDigits(r)
    decreases n
  {
    if n < 10 then [DigitChar(n)] else NatToString(n / 10) + [DigitChar(n % 10)]
  }

  /** The largest array index, 2^32 - 2. */
  const MaxArrayIndex: nat := 4294967294

  /** An array index in the sense of ECMAScript: a canonical numeric
      string whose value lies in 0 .. 2^32 - 2. Ordinary objects list
      such keys before all others, in ascending numeric order. */
  predicate IsArrayIndex(s: string) {
    IsCanonicalDecimal(s) && DecimalValue(s) <= MaxArrayIndex
  }

  /** toString produces the canonical decimal string of its argument. */
  lemma {:induction false} NatToStringCanonical(n: nat)
    ensures IsCanonicalDecimal(NatToString(n)) && DecimalValue(NatToString(n)) == n
    decreases n
  {
    var s := NatToString(n);
    if n >= 10 {
      NatToStringCanonical(n / 10);
      var p := NatToString(n / 10);
      assert s == p + [DigitChar(n % 10)];
      assert s[..|s| - 1] == p;
      assert s[0] == p[0];
    }
  }

  /** A canonical decimal string is what toString gives for its value. */
  lemma {:induction false} CanonicalRoundTrip(s: string)
    requires IsCanonicalDecimal(s)
    ensures NatToString(DecimalValue(s)) == s
    decreases |s|
  {
    var lastDigit := DigitValue(s[|s| - 1]);
    if |s| == 1 {
      assert DecimalValue(s) == lastDigit by {
        assert s[..0] == [];
      }
      assert [DigitChar(lastDigit)] == s;
    } else {
      var p := s[..|s| - 1];
      assert p[0] == s[0];
      assert IsCanonicalDecimal(p);
      CanonicalRoundTrip(p);
      var v := DecimalValue(p);
      assert v >= 1;
      var n := DecimalValue(s);
      assert n == 10 * v + lastDigit;
      assert n / 10 == v && n % 10 == lastDigit;
      assert NatToString(n) == NatToString(v) + [DigitChar(lastDigit)];
      assert s == p + [s[|s| - 1]];
    }
  }

  /** Two canonical decimal strings with the same value are the same
      string. */
  lemma CanonicalInjective(a: string, b: string)
    requires IsCanonicalDecimal(a) && IsCanonicalDecimal(b)
    requires DecimalValue(a) == DecimalValue(b)
    ensures a == b
  {
    CanonicalRoundTrip(a);
    CanonicalRoundTrip(b);
  }

  /** `n.toString()` is an array index exactly when n <= 2^32 - 2; in
      particular a Date.now() value (far above 2^32) never is one. */
  lemma NatToStringArrayIndex(n: nat)
    ensures IsArrayIndex(NatToString(n)) <==> n <= MaxArrayIndex
  {
    NatToStringCanonical(n);
  }
}

/** The pieces of JavaScript's built-in string behaviour that the client
    code relies on: `String.prototype.trim`, the text a template literal
    gives a boolean or `null`, the decimal text of an integer, and the
    default comparison of `Array.prototype.sort`. Strings are sequences of
    Unicode scalar values here, where JavaScript uses UTF-16 code units; the
    two agree on every character below U+10000. */
module JsText {

  import opened Wrappers

  /** WhiteSpace and LineTerminator code points of ECMAScript (sections
      12.2 and 12.3 of ECMA-262): what `trim` removes. */
  predicate IsTrimmed(c: char) {
    c == '\t' || c == '\n' || c == '\U{000B}' || c == '\U{000C}' || c == '\r' || c == ' '
    || c == '\U{00A0}' || c == '\U{1680}' || ('\U{2000}' <= c <= '\U{200A}')
    || c == '\U{2028}' || c == '\U{2029}' || c == '\U{202F}' || c == '\U{205F}'
    || c == '\U{3000}' || c == '\U{FEFF}'
  }

  /** `s[lo..hi]` is what is left of `s` once its leading and trailing
      trimmable characters are removed: everything cut off is trimmable and
      the part kept neither starts nor ends with a trimmable character. */
  ghost predicate TrimAt(s: string, lo: nat, hi: nat) {
    lo <= hi <= |s|
    && (forall i :: 0 <= i < lo ==> IsTrimmed(s[i]))
    && (forall i :: hi <= i < |s| ==> IsTrimmed(s[i]))
    && (lo < hi ==> !IsTrimmed(s[lo]) && !IsTrimmed(s[hi - 1]))
  }

  ghost predicate IsTrimOf(r: string, s: string) {
    exists lo: nat, hi: nat :: TrimAt(s, lo, hi) && r == s[lo..hi]
  }

  function TrimStart(s: string): (r: string)
    ensures |r| <= |s| && r == s[|s| - |r|..]
    ensures forall i :: 0 <= i < |s| - |r| ==> IsTrimmed(s[i])
    ensures r == [] || !IsTrimmed(r[0])
  {
    if |s| > 0 && IsTrimmed(s[0]) then TrimStart(s[1..]) else s
  }

  function TrimEnd(s: string): (r: string)
    ensures |r| <= |s| && r == s[..|r|]
    ensures forall i :: |r| <= i < |s| ==> IsTrimmed(s[i])
    ensures r == [] || !IsTrimmed(r[|r| - 1])
  {
    if |s| > 0 && IsTrimmed(s[|s| - 1]) then TrimEnd(s[..|s| - 1]) else s
  }

  /** `String.prototype.trim`. */
  function Trim(s: string): (r: string)
    ensures IsTrimOf(r, s)
  {
    var t := TrimStart(s);
    var r := TrimEnd(t);
    TrimCut(s, t, r);
    r
  }

  /** Trimming the start and then the end cuts `s` where `TrimAt` says:
      `t` is what is left after the start, `r` what is left of `t` after
      the end. */
  lemma TrimCut(s: string, t: string, r: string)
    requires |t| <= |s| && t == s[|s| - |t|..] && (t == [] || !IsTrimmed(t[0]))
    requires forall i :: 0 <= i < |s| - |t| ==> IsTrimmed(s[i])
    requires |r| <= |t| && r == t[..|r|] && (r == [] || !IsTrimmed(r[|r| - 1]))
    requires forall i :: |r| <= i < |t| ==> IsTrimmed(t[i])
    ensures TrimAt(s, |s| - |t|, |s| - |t| + |r|) && r == s[|s| - |t|..|s| - |t| + |r|]
  {
    var lo := |s| - |t|;
    var hi := lo + |r|;
    forall i | hi <= i < |s| ensures IsTrimmed(s[i]) {
      assert s[i] == t[i - lo];
    }
    if r != [] {
      assert s[lo] == t[0] == r[0];
      assert s[hi - 1] == t[|r| - 1] == r[|r| - 1];
    }
  }

  /** The trim of a string is unique, so `IsTrimOf` pins `Trim` down. */
  lemma TrimUnique(r1: string, r2: string, s: string)
    requires IsTrimOf(r1, s) && IsTrimOf(r2, s)
    ensures r1 == r2
  {
    var lo1: nat, hi1: nat :| TrimAt(s, lo1, hi1) && r1 == s[lo1..hi1];
    var lo2: nat, hi2: nat :| TrimAt(s, lo2, hi2) && r2 == s[lo2..hi2];
    if k :| 0 <= k < |s| && !IsTrimmed(s[k]) {
      // both cuts keep the character that is not trimmable
      assert lo1 <= k < hi1 && lo2 <= k < hi2;
      assert lo1 == lo2 && hi1 == hi2;
    } else {
      // every character is trimmable, so both cuts keep nothing
      assert lo1 == hi1 && lo2 == hi2;
    }
  }

  /** `s.startsWith(p)`. */
  predicate StartsWith(s: string, p: string) {
    |p| <= |s| && s[..|p|] == p
  }

  /** `s.endsWith(p)`. */
  predicate EndsWith(s: string, p: string) {
    |p| <= |s| && s[|s| - |p|..] == p
  }

  /** The text `${b}` gives for a boolean. */
  function BoolText(b: bool): (r: string)
    ensures r == "true" || r == "false"
    ensures (r == "true") == b
  {
    if b then "true" else "false"
  }

  /** The text `${v}` gives for a string that may be `null`. */
  function NullableText(v: Option<string>): (r: string)
    ensures v.Some? ==> r == v.value
    ensures v.None? ==> r == "null"
  {
    match v
    case Some(t) => t
    case None => "null"
  }

  predicate IsDigit(c: char) {
    '0' <= c <= '9'
  }

  /** The value of a string of decimal digits. */
  function DigitsValue(s: string): nat
    requires forall i :: 0 <= i < |s| ==> IsDigit(s[i])
  {
    if s == [] then 0
    else
      var d := s[|s| - 1];
      assert IsDigit(d);
      10 * DigitsValue(s[..|s| - 1]) + ((d as int) - ('0' as int))
  }

  /** The decimal text of a natural number. JavaScript prints a Number
      this way only when it holds that integer exactly and is below 10^21. */
  function NatText(n: nat): (r: string)
    ensures |r| > 0 && forall i :: 0 <= i < |r| ==> IsDigit(r[i])
    ensures r[0] == '0' ==> r == "0"
    ensures DigitsValue(r) == n
  {
    var last := [('0' as int + n % 10) as char];
    if n < 10 then last
    else
      var r := NatText(n / 10) + last;
      assert r[..|r| - 1] == NatText(n / 10);
      r
  }

  /** The decimal text of an integer, with "-" for a negative one; the text
      JavaScript gives a Number holding it exactly, below 10^21 in
      magnitude. */
  function IntText(n: int): (r: string)
    ensures n >= 0 ==> r == NatText(n)
    ensures n < 0 ==> r == "-" + NatText(-n)
  {
    if n >= 0 then NatText(n) else "-" + NatText(-n)
  }

  /** Different integers have different texts. */
  lemma IntTextInjective(m: int, n: int)
    requires IntText(m) == IntText(n)
    ensures m == n
  {
    if m >= 0 && n >= 0 {
      assert DigitsValue(NatText(m)) == DigitsValue(NatText(n));
    } else if m < 0 && n < 0 {
      assert NatText(-m) == IntText(m)[1..] == IntText(n)[1..] == NatText(-n);
    }
  }

  /** The order `Array.prototype.sort` uses by default on strings: `a` comes
      no later than `b` when `a` is a prefix of `b` or the first differing
      character of `a` is the smaller. */
  predicate NoLater(a: string, b: string) {
    a == [] || (b != [] && (a[0] < b[0] || (a[0] == b[0] && NoLater(a[1..], b[1..]))))
  }

  lemma {:induction false} NoLaterReflexive(a: string)
    ensures NoLater(a, a)
  {
    if a != [] {
      NoLaterReflexive(a[1..]);
    }
  }

  lemma {:induction false} NoLaterTotal(a: string, b: string)
    ensures NoLater(a, b) || NoLater(b, a)
  {
    if a != [] && b != [] && a[0] == b[0] {
      NoLaterTotal(a[1..], b[1..]);
    }
  }

  lemma {:induction false} NoLaterTransitive(a: string, b: string, c: string)
    requires NoLater(a, b) && NoLater(b, c)
    ensures NoLater(a, c)
  {
    if a != [] && a[0] == b[0] && b[0] == c[0] {
      NoLaterTransitive(a[1..], b[1..], c[1..]);
    }
  }

  lemma {:induction false} NoLaterAntisymmetric(a: string, b: string)
    requires NoLater(a, b) && NoLater(b, a)
    ensures a == b
  {
    if a != [] && b != [] {
      NoLaterAntisymmetric(a[1..], b[1..]);
      assert a == [a[0]] + a[1..] && b == [b[0]] + b[1..];
    }
  }

  ghost predicate Sorted(s: seq<string>) {
    forall i, j :: 0 <= i < j < |s| ==> NoLater(s[i], s[j])
  }

  function Insert(x: string, s: seq<string>): (r: seq<string>)
    requires Sorted(s)
    ensures Sorted(r)
    ensures multiset(r) == multiset(s) + multiset{x}
  {
    if s == [] then [x]
    else if NoLater(x, s[0]) then
      assert forall j :: 0 < j < |s| ==> NoLater(x, s[j]) by {
        forall j | 0 < j < |s| ensures NoLater(x, s[j]) { NoLaterTransitive(x, s[0], s[j]); }
      }
      [x] + s
    else
      NoLaterTotal(x, s[0]);
      var rest := Insert(x, s[1..]);
      assert s == [s[0]] + s[1..];
      assert forall j :: 0 <= j < |rest| ==> NoLater(s[0], rest[j]) by {
        forall j | 0 <= j < |rest| ensures NoLater(s[0], rest[j]) {
          assert rest[j] in multiset(rest);
          assert rest[j] in multiset(s[1..]) || rest[j] == x;
          if rest[j] != x {
            var k :| 0 <= k < |s[1..]| && s[1..][k] == rest[j];
            assert NoLater(s[0], s[k + 1]);
          }
        }
      }
      [s[0]] + rest
  }

  /** `Array.prototype.sort()` with the default comparison, on strings. */
  function Sort(s: seq<string>): (r: seq<string>)
    ensures Sorted(r)
    ensures multiset(r) == multiset(s)
  {
    if s == [] then []
    else
      assert s == [s[0]] + s[1..];
      Insert(s[0], Sort(s[1..]))
  }

  /** The head of a sorted sequence comes no later than anything in it. */
  lemma HeadNoLater(a: seq<string>, x: string)
    requires Sorted(a) && x in multiset(a)
    ensures a != [] && NoLater(a[0], x)
  {
    var i :| 0 <= i < |a| && a[i] == x;
    if i == 0 {
      NoLaterReflexive(x);
    }
  }

  lemma SortedTail(a: seq<string>)
    requires Sorted(a) && a != []
    ensures Sorted(a[1..])
  {
  }

  lemma TailPermutation(a: seq<string>, b: seq<string>)
    requires a != [] && b != [] && a[0] == b[0] && multiset(a) == multiset(b)
    ensures multiset(a[1..]) == multiset(b[1..])
  {
    assert a == [a[0]] + a[1..] && b == [b[0]] + b[1..];
    var ma, mb := multiset(a[1..]), multiset(b[1..]);
    assert multiset(a) == multiset{a[0]} + ma;
    assert multiset(b) == multiset{a[0]} + mb;
    forall x | true ensures ma[x] == mb[x] {
      assert (multiset{a[0]} + ma)[x] == (multiset{a[0]} + mb)[x];
    }
  }

  /** There is only one sorted arrangement of a multiset of strings, so any
      correct sort, JavaScript's included, returns what `Sort` returns. */
  lemma {:induction false} SortedPermutationUnique(a: seq<string>, b: seq<string>)
    requires Sorted(a) && Sorted(b) && multiset(a) == multiset(b)
    ensures a == b
  {
    assert |a| == |multiset(a)| == |multiset(b)| == |b|;
    if a != [] {
      HeadNoLater(a, b[0]);
      HeadNoLater(b, a[0]);
      NoLaterAntisymmetric(a[0], b[0]);
      TailPermutation(a, b);
      SortedTail(a);
      SortedTail(b);
      SortedPermutationUnique(a[1..], b[1..]);
      assert a == [a[0]] + a[1..] && b == [b[0]] + b[1..];
    }
  }

  /** A sequence without repeats holds each value at most once. */
  lemma {:induction false} DistinctCount(s: seq<string>, x: string)
    requires forall i, j :: 0 <= i < j < |s| ==> s[i] != s[j]
    ensures multiset(s)[x] <= 1
  {
    if s != [] {
      DistinctCount(s[1..], x);
      assert s == [s[0]] + s[1..];
      if s[0] == x {
        assert x !in s[1..];
      }
    }
  }

  /** A value found at two places is held at least twice. */
  lemma RepeatCount(s: seq<string>, i: int, j: int)
    requires 0 <= i < j < |s| && s[i] == s[j]
    ensures multiset(s)[s[i]] >= 2
  {
    assert s == s[..j] + s[j..];
    assert s[i] in s[..j] && s[j] in s[j..];
  }
}

/** The file-name patterns of the type table, `\.(a|b|…)$`, and what
    `RegExp.prototype.test` makes of them. */
module Patterns {

  import opened JsText

  /** A piece of pattern text holding no dot. */
  type Word = s: string | '.' !in s witness ""

  /** One alternative of a pattern `\.(a|b|…)$`. Every alternative in the
      table is literal text except `nginx.conf`, whose unescaped dot is
      the "any character" atom. */
  datatype Alternative = Exact(text: Word) | Wildcard(before: Word, after: Word)

  /** A pattern `\.(a|b|…)$`, held as the list of its alternatives. */
  datatype ExtensionRegex = ExtensionRegex(alternatives: seq<Alternative>)

  /** The characters the "any character" atom refuses when the `s` flag is
      absent (section 22.2.2.7.1 of ECMA-262). */
  predicate IsLineTerminator(c: char) {
    c == '\n' || c == '\r' || c == '\U{2028}' || c == '\U{2029}'
  }

  /** The alternative matches the end of `name`, right after a dot. */
  predicate MatchesEnd(alt: Alternative, name: string) {
    match alt
    case Exact(w) => EndsWith(name, "." + w)
    case Wildcard(b, a) =>
      |b| + |a| + 2 <= |name|
      && var c := name[|name| - |a| - 1];
         !IsLineTerminator(c) && EndsWith(name, "." + b + [c] + a)
  }

  /** `fileExtensionRegex.test(name)`: without the `m` flag `$` is the end of
      the input, and without the `i` flag letters are compared exactly, so
      the pattern asks for a dot followed by one alternative at the very
      end. */
  predicate Test(r: ExtensionRegex, name: string) {
    exists i :: 0 <= i < |r.alternatives| && MatchesEnd(r.alternatives[i], name)
  }

  // A reference reading of the same patterns, atom by atom: the text of an
  // alternative as written in the pattern, where a dot is the wildcard.

  function PatternText(alt: Alternative): string {
    match alt
    case Exact(w) => w
    case Wildcard(b, a) => b + "." + a
  }

  predicate AtomMatches(atom: char, c: char) {
    if atom == '.' then !IsLineTerminator(c) else atom == c
  }

  /** `pattern`, read atom by atom, matches all of `s`. */
  predicate FullMatch(pattern: string, s: string) {
    |pattern| == |s| && forall j :: 0 <= j < |s| ==> AtomMatches(pattern[j], s[j])
  }

  /** A search for `\.(a|b|…)$` anywhere in `name`: an escaped dot at some
      position `p`, then one alternative matching atom by atom up to the
      end of the input. */
  ghost predicate RegexSearch(r: ExtensionRegex, name: string) {
    exists p, i :: 0 <= p < |name| && 0 <= i < |r.alternatives|
      && name[p] == '.' && FullMatch(PatternText(r.alternatives[i]), name[p + 1..])
  }

  /** Text without a dot matches exactly itself. */
  lemma FullMatchWord(w: Word, s: string)
    ensures FullMatch(w, s) <==> s == w
  {
    forall j | 0 <= j < |w| ensures w[j] != '.' {
      assert w[j] in w;
    }
  }

  /** `b.a` matches the texts made of `b`, one character that is not a line
      terminator, and `a`. */
  lemma FullMatchWildcard(b: Word, a: Word, s: string)
    ensures FullMatch(b + "." + a, s) <==>
      |s| == |b| + 1 + |a| && s[..|b|] == b && !IsLineTerminator(s[|b|]) && s[|b| + 1..] == a
  {
    var p := b + "." + a;
    forall j | 0 <= j < |b| ensures p[j] == b[j] && b[j] != '.' {
      assert b[j] in b;
    }
    forall j | 0 <= j < |a| ensures p[|b| + 1 + j] == a[j] && a[j] != '.' {
      assert a[j] in a;
    }
    if FullMatch(p, s) {
      assert s[..|b|] == b;
      assert s[|b| + 1..] == a;
    }
    if |s| == |b| + 1 + |a| && s[..|b|] == b && !IsLineTerminator(s[|b|]) && s[|b| + 1..] == a {
      forall j | 0 <= j < |s| ensures AtomMatches(p[j], s[j]) {
        if j < |b| {
          assert s[j] == s[..|b|][j];
        } else if j > |b| {
          assert s[j] == s[|b| + 1..][j - |b| - 1];
        }
      }
    }
  }

  lemma ExactMatchIsFound(w: Word, name: string)
    requires MatchesEnd(Exact(w), name)
    ensures var p := |name| - |w| - 1;
      name[p] == '.' && FullMatch(w, name[p + 1..])
  {
    var p := |name| - |w| - 1;
    assert name[p..] == "." + w;
    assert name[p + 1..] == w;
    FullMatchWord(w, name[p + 1..]);
  }

  lemma ExactFoundIsMatch(w: Word, name: string, p: int)
    requires 0 <= p < |name| && name[p] == '.' && FullMatch(w, name[p + 1..])
    ensures MatchesEnd(Exact(w), name)
  {
    FullMatchWord(w, name[p + 1..]);
    assert name[p..] == [name[p]] + name[p + 1..] == "." + w;
  }

  lemma ExactIsSearch(w: Word, name: string)
    ensures MatchesEnd(Exact(w), name) <==>
      exists p :: 0 <= p < |name| && name[p] == '.' && FullMatch(w, name[p + 1..])
  {
    if MatchesEnd(Exact(w), name) {
      ExactMatchIsFound(w, name);
    }
    if p :| 0 <= p < |name| && name[p] == '.' && FullMatch(w, name[p + 1..]) {
      ExactFoundIsMatch(w, name, p);
    }
  }

  lemma WildcardMatchIsFound(b: Word, a: Word, name: string)
    requires MatchesEnd(Wildcard(b, a), name)
    ensures var p := |name| - |b| - |a| - 2;
      name[p] == '.' && FullMatch(b + "." + a, name[p + 1..])
  {
    var p := |name| - |b| - |a| - 2;
    var c := name[|name| - |a| - 1];
    var tail := name[p + 1..];
    assert name[p..] == "." + b + [c] + a;
    assert tail == b + [c] + a;
    assert tail[..|b|] == b && tail[|b|] == c && tail[|b| + 1..] == a;
    FullMatchWildcard(b, a, tail);
  }

  lemma WildcardFoundIsMatch(b: Word, a: Word, name: string, p: int)
    requires 0 <= p < |name| && name[p] == '.' && FullMatch(b + "." + a, name[p + 1..])
    ensures MatchesEnd(Wildcard(b, a), name)
  {
    var tail := name[p + 1..];
    FullMatchWildcard(b, a, tail);
    var c := tail[|b|];
    assert tail == tail[..|b|] + [c] + tail[|b| + 1..];
    assert name[p..] == [name[p]] + tail == "." + b + [c] + a;
    assert p == |name| - |b| - |a| - 2;
    assert name[|name| - |a| - 1] == c;
  }

  lemma WildcardIsSearch(b: Word, a: Word, name: string)
    ensures MatchesEnd(Wildcard(b, a), name) <==>
      exists p :: 0 <= p < |name| && name[p] == '.' && FullMatch(b + "." + a, name[p + 1..])
  {
    if MatchesEnd(Wildcard(b, a), name) {
      WildcardMatchIsFound(b, a, name);
    }
    if p :| 0 <= p < |name| && name[p] == '.' && FullMatch(b + "." + a, name[p + 1..]) {
      WildcardFoundIsMatch(b, a, name, p);
    }
  }

  /** `Test` agrees with the atom-by-atom reading of the pattern. */
  lemma TestIsRegexSearch(r: ExtensionRegex, name: string)
    ensures Test(r, name) <==> RegexSearch(r, name)
  {
    forall i | 0 <= i < |r.alternatives|
      ensures MatchesEnd(r.alternatives[i], name) <==>
        exists p :: 0 <= p < |name| && name[p] == '.' && FullMatch(PatternText(r.alternatives[i]), name[p + 1..])
    {
      match r.alternatives[i]
      case Exact(w) => ExactIsSearch(w, name);
      case Wildcard(b, a) => WildcardIsSearch(b, a, name);
    }
  }

  lemma MatchNeedsDot(alt: Alternative, name: string)
    requires MatchesEnd(alt, name)
    ensures '.' in name
  {
    match alt
    case Exact(w) =>
      var p := |name| - |w| - 1;
      assert name[p..] == "." + w;
      assert name[p] == '.';
    case Wildcard(b, a) =>
      var p := |name| - |b| - |a| - 2;
      var c := name[|name| - |a| - 1];
      assert name[p..] == "." + b + [c] + a;
      assert name[p] == '.';
  }

  /** Every pattern asks for a dot, so a name without one matches none. */
  lemma NoDotNoMatch(r: ExtensionRegex, name: string)
    ensures Test(r, name) ==> '.' in name
  {
    if Test(r, name) {
      var i :| 0 <= i < |r.alternatives| && MatchesEnd(r.alternatives[i], name);
      MatchNeedsDot(r.alternatives[i], name);
    }
  }

  /** In `stem + "." + ext` with `ext` free of dots, no dot follows the one
      at `|stem|`. */
  lemma LastDot(stem: string, ext: Word)
    ensures (stem + "." + ext)[|stem|] == '.'
    ensures forall q :: |stem| < q < |stem| + 1 + |ext| ==> (stem + "." + ext)[q] != '.'
  {
    var name := stem + "." + ext;
    forall q | |stem| < q < |stem| + 1 + |ext| ensures name[q] != '.' {
      assert name[q] == ext[q - |stem| - 1];
      assert ext[q - |stem| - 1] in ext;
    }
  }

  /** On a name whose last dot starts `ext`, a literal alternative matches
      exactly when it is `ext`. */
  lemma ExactOnDotted(w: Word, stem: string, ext: Word)
    ensures MatchesEnd(Exact(w), stem + "." + ext) <==> w == ext
  {
    var name := stem + "." + ext;
    var d := |stem|;
    assert name[d + 1..] == ext;
    if w == ext {
      assert name[|name| - |w| - 1..] == "." + w;
    }
    if MatchesEnd(Exact(w), name) {
      var p := |name| - |w| - 1;
      assert name[p..] == "." + w;
      assert name[p] == '.';
      LastDot(stem, ext);
      forall q | p < q < |name| ensures name[q] != '.' {
        assert name[q] == w[q - p - 1];
        assert w[q - p - 1] in w;
      }
      assert p == d;
      assert w == name[p..][1..];
    }
  }

  /** On a name whose last dot starts `ext`, the wildcard alternative `b.a`
      matches only if `ext` is `a` or is as long as `b.a`. */
  lemma WildcardOnDotted(b: Word, a: Word, stem: string, ext: Word)
    ensures MatchesEnd(Wildcard(b, a), stem + "." + ext) ==> ext == a || |ext| == |b| + 1 + |a|
  {
    var name := stem + "." + ext;
    var d := |stem|;
    if MatchesEnd(Wildcard(b, a), name) {
      var p := |name| - |b| - |a| - 2;
      var q := |name| - |a| - 1;
      var c := name[q];
      assert name[p..] == "." + b + [c] + a;
      assert name[p] == '.';
      LastDot(stem, ext);
      forall m | p < m < |name| && m != q ensures name[m] != '.' {
        if m < q {
          assert name[m] == b[m - p - 1];
          assert b[m - p - 1] in b;
        } else {
          assert name[m] == a[m - q - 1];
          assert a[m - q - 1] in a;
        }
      }
      assert d == p || d == q;
      if d == q {
        assert ext == name[q + 1..];
        assert a == name[p..][|b| + 2..];
      }
    }
  }

  /** For a name `stem.ext` whose extension holds no dot, a pattern matches
      when it lists `ext`, and matches only when it lists `ext` or has a
      wildcard alternative ending in `ext` or as long as `ext`. */
  lemma DottedName(r: ExtensionRegex, stem: string, ext: Word)
    ensures Exact(ext) in r.alternatives ==> Test(r, stem + "." + ext)
    ensures Test(r, stem + "." + ext) ==>
      Exact(ext) in r.alternatives
      || exists i :: 0 <= i < |r.alternatives| && r.alternatives[i].Wildcard?
           && (r.alternatives[i].after == ext || |ext| == |r.alternatives[i].before| + 1 + |r.alternatives[i].after|)
  {
    var name := stem + "." + ext;
    if Exact(ext) in r.alternatives {
      var i :| 0 <= i < |r.alternatives| && r.alternatives[i] == Exact(ext);
      ExactOnDotted(ext, stem, ext);
      assert MatchesEnd(r.alternatives[i], name);
    }
    if Test(r, name) {
      var i :| 0 <= i < |r.alternatives| && MatchesEnd(r.alternatives[i], name);
      match r.alternatives[i]
      case Exact(w) =>
        ExactOnDotted(w, stem, ext);
      case Wildcard(b, a) =>
        WildcardOnDotted(b, a, stem, ext);
    }
  }

  /** A pattern whose one alternative is `b.a`, with its wildcard, accepts
      `stem.b` followed by `c` and `a` exactly when `c` is no line
      terminator. */
  lemma SingleWildcard(stem: string, b: Word, a: Word, c: char)
    ensures Test(ExtensionRegex([Wildcard(b, a)]), stem + "." + b + [c] + a) <==> !IsLineTerminator(c)
  {
    var name := stem + "." + b + [c] + a;
    assert name[|name| - |a| - 1] == c;
    assert name[|name| - |b| - |a| - 2..] == "." + b + [c] + a;
    assert ExtensionRegex([Wildcard(b, a)]).alternatives[0] == Wildcard(b, a);
  }
}

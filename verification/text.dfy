/** String operations used when a template body is written to disk:
    trimming of surrounding whitespace and replacement of every
    occurrence of a pattern, with the semantics of Rust's `str::trim`
    and `str::replace`. */
module Text {

  /** Rust's `char::is_whitespace`: the Unicode `White_Space` property. */
  predicate IsWhitespace(c: char) {
    var n := c as int;
    || (0x09 <= n <= 0x0D)
    || n == 0x20
    || n == 0x85
    || n == 0xA0
    || n == 0x1680
    || (0x2000 <= n <= 0x200A)
    || n == 0x2028
    || n == 0x2029
    || n == 0x202F
    || n == 0x205F
    || n == 0x3000
  }

  /** Every character of `s` outside the index range `[i, j)` is
      whitespace. */
  predicate WhitespaceOutside(s: string, i: nat, j: nat) {
    i <= j <= |s| && forall m :: 0 <= m < |s| && (m < i || j <= m) ==> IsWhitespace(s[m])
  }

  /** Neither end of `s` is whitespace. */
  predicate Trimmed(s: string) {
    s == [] || (!IsWhitespace(s[0]) && !IsWhitespace(s[|s| - 1]))
  }

  /** The number of whitespace characters `s` starts with. */
  function LeadingWhitespace(s: string): (k: nat)
    ensures k <= |s|
    ensures forall m :: 0 <= m < k ==> IsWhitespace(s[m])
    ensures k < |s| ==> !IsWhitespace(s[k])
  {
    if s == [] || !IsWhitespace(s[0]) then 0 else 1 + LeadingWhitespace(s[1..])
  }

  /** The number of whitespace characters `s` ends with. */
  function TrailingWhitespace(s: string): (k: nat)
    ensures k <= |s|
    ensures forall m :: |s| - k <= m < |s| ==> IsWhitespace(s[m])
    ensures k < |s| ==> !IsWhitespace(s[|s| - 1 - k])
  {
    if s == [] || !IsWhitespace(s[|s| - 1]) then 0 else 1 + TrailingWhitespace(s[..|s| - 1])
  }

  /** Rust's `str::trim`: the slice between the first and the last
      non-whitespace character, or empty when there is none. */
  function Trim(s: string): (r: string)
    ensures Trimmed(r)
    ensures var i := LeadingWhitespace(s);
            i + |r| <= |s| && r == s[i..i + |r|] && WhitespaceOutside(s, i, i + |r|)
  {
    var i := LeadingWhitespace(s);
    if i == |s| then [] else s[i..|s| - TrailingWhitespace(s)]
  }

  /** Any slice of `s` with non-whitespace ends and only whitespace around
      it is the trim of `s`: the contract above determines `Trim`. */
  lemma TrimUnique(s: string, i: nat, j: nat)
    requires WhitespaceOutside(s, i, j)
    requires Trimmed(s[i..j])
    ensures Trim(s) == s[i..j]
  {
    var k := LeadingWhitespace(s);
    var r := Trim(s);
    if i < j {
      assert s[i..j][0] == s[i] && s[i..j][j - 1 - i] == s[j - 1];
      assert k == i;
      assert r != [] ==> r[|r| - 1] == s[k + |r| - 1];
      assert k + |r| == j;
    } else {
      assert r == [];
    }
  }

  /** Trimming twice is trimming once. */
  lemma TrimIdempotent(s: string)
    ensures Trim(Trim(s)) == Trim(s)
  {
    var t := Trim(s);
    assert t[0..|t|] == t;
    TrimUnique(t, 0, |t|);
  }

  /** An occurrence of `pat` in `s` starting at index `k`. */
  predicate MatchAt(s: string, pat: string, k: nat) {
    k + |pat| <= |s| && s[k..k + |pat|] == pat
  }

  predicate Occurs(s: string, pat: string) {
    exists k: nat :: k <= |s| && MatchAt(s, pat, k)
  }

  /** Rust's `str::replace` for a non-empty pattern: every leftmost
      non-overlapping occurrence of `pat` is replaced by `rep`. */
  function Replace(s: string, pat: string, rep: string): string
    requires pat != []
    decreases |s|
  {
    if |s| < |pat| then s
    else if s[..|pat|] == pat then rep + Replace(s[|pat|..], pat, rep)
    else [s[0]] + Replace(s[1..], pat, rep)
  }

  /** Text without an occurrence of the pattern is left as it is. */
  lemma {:induction false} ReplaceWithoutOccurrence(s: string, pat: string, rep: string)
    requires pat != []
    requires !Occurs(s, pat)
    ensures Replace(s, pat, rep) == s
    decreases |s|
  {
    if |s| >= |pat| {
      assert !MatchAt(s, pat, 0);
      OccursInTail(s, pat);
      ReplaceWithoutOccurrence(s[1..], pat, rep);
      assert s == [s[0]] + s[1..];
    }
  }

  /** Replacing a pattern by itself changes nothing. */
  lemma {:induction false} ReplaceBySelf(s: string, pat: string)
    requires pat != []
    ensures Replace(s, pat, pat) == s
    decreases |s|
  {
    if |s| < |pat| {
    } else if s[..|pat|] == pat {
      ReplaceBySelf(s[|pat|..], pat);
      assert s == pat + s[|pat|..];
    } else {
      ReplaceBySelf(s[1..], pat);
      assert s == [s[0]] + s[1..];
    }
  }

  /** The pieces of `parts` glued together with `sep` between neighbours. */
  function Join(parts: seq<string>, sep: string): string
    decreases |parts|
  {
    if parts == [] then []
    else if |parts| == 1 then parts[0]
    else parts[0] + sep + Join(parts[1..], sep)
  }

  /** The first character of `pat` does not occur again inside it, so two
      occurrences of `pat` can never overlap. "<PROJECT>" is of this kind. */
  predicate HeadNotRepeated(pat: string) {
    pat != [] && forall j :: 0 < j < |pat| ==> pat[j] != pat[0]
  }

  /** A prefix in which no occurrence starts is copied unchanged. */
  lemma {:induction false} ReplaceSkipsPrefix(a: string, x: string, pat: string, rep: string)
    requires pat != []
    requires forall k: nat :: k < |a| ==> !MatchAt(a + x, pat, k)
    ensures Replace(a + x, pat, rep) == a + Replace(x, pat, rep)
    decreases |a|
  {
    if a != [] {
      var s := a + x;
      var a' := a[1..];
      assert s[1..] == a' + x;
      forall k: nat | k < |a'| ensures !MatchAt(a' + x, pat, k) {
        ShiftMatch(s, pat, k);
      }
      ReplaceSkipsPrefix(a', x, pat, rep);
      ReplaceNoMatchHere(s, pat, rep);
      calc {
        Replace(a + x, pat, rep);
        [s[0]] + Replace(a' + x, pat, rep);
        [a[0]] + (a' + Replace(x, pat, rep));
        { assert a == [a[0]] + a'; }
        a + Replace(x, pat, rep);
      }
    } else {
      assert a + x == x;
    }
  }

  /** Where no occurrence starts at the front, the first character is
      copied and replacement continues on the rest. */
  lemma ReplaceNoMatchHere(s: string, pat: string, rep: string)
    requires pat != [] && s != []
    requires !MatchAt(s, pat, 0)
    ensures Replace(s, pat, rep) == [s[0]] + Replace(s[1..], pat, rep)
  {
    if |s| < |pat| {
      assert Replace(s[1..], pat, rep) == s[1..];
      assert s == [s[0]] + s[1..];
    }
  }

  /** An occurrence in the tail of `s` is an occurrence in `s`, one
      position further on. */
  lemma ShiftMatch(s: string, pat: string, k: nat)
    requires s != []
    ensures MatchAt(s[1..], pat, k) <==> MatchAt(s, pat, k + 1)
  {
    if k + |pat| <= |s[1..]| {
      assert s[1..][k..k + |pat|] == s[k + 1..k + 1 + |pat|];
    }
  }

  /** No occurrence of `pat` starts inside `p` when `p` contains none and
      is followed by `pat` itself. */
  lemma NoMatchInsidePiece(p: string, tail: string, pat: string)
    requires HeadNotRepeated(pat)
    requires !Occurs(p, pat)
    ensures forall k: nat :: k < |p| ==> !MatchAt(p + pat + tail, pat, k)
  {
    var s := p + pat + tail;
    forall k: nat | k < |p| ensures !MatchAt(s, pat, k) {
      if k + |pat| <= |p| {
        assert s[k..k + |pat|] == p[k..k + |pat|];
        assert !MatchAt(p, pat, k);
      } else if k + |pat| <= |s| {
        var j := |p| - k;
        assert s[|p|] == pat[0];
        assert s[k..k + |pat|][j] == s[|p|];
        assert pat[j] != pat[0];
      }
    }
  }

  /** Filling holes: when no piece contains the pattern, replacing the
      pattern in the pieces joined by it yields the pieces joined by the
      replacement, i.e. every placeholder is substituted and nothing else
      changes. */
  lemma {:induction false} ReplaceFillsHoles(parts: seq<string>, pat: string, rep: string)
    requires HeadNotRepeated(pat)
    requires forall i :: 0 <= i < |parts| ==> !Occurs(parts[i], pat)
    ensures Replace(Join(parts, pat), pat, rep) == Join(parts, rep)
    decreases |parts|
  {
    if parts == [] {
    } else if |parts| == 1 {
      ReplaceWithoutOccurrence(parts[0], pat, rep);
    } else {
      var p := parts[0];
      var rest := Join(parts[1..], pat);
      NoMatchInsidePiece(p, rest, pat);
      assert Join(parts, pat) == p + (pat + rest);
      assert p + pat + rest == p + (pat + rest);
      ReplaceSkipsPrefix(p, pat + rest, pat, rep);
      assert (pat + rest)[..|pat|] == pat;
      assert (pat + rest)[|pat|..] == rest;
      ReplaceFillsHoles(parts[1..], pat, rep);
    }
  }

  lemma OccursInTail(s: string, pat: string)
    requires s != []
    ensures Occurs(s[1..], pat) ==> Occurs(s, pat)
  {
    if Occurs(s[1..], pat) {
      assert s[1..] == s[1..|s|];
      OccursInSlice(s, 1, |s|, pat);
    }
  }

  /** An occurrence in a slice is an occurrence in the whole string. */
  lemma OccursInSlice(s: string, i: nat, j: nat, pat: string)
    requires i <= j <= |s|
    requires Occurs(s[i..j], pat)
    ensures Occurs(s, pat)
  {
    var k: nat :| k <= |s[i..j]| && MatchAt(s[i..j], pat, k);
    var t := s[i..j];
    assert t[k..k + |pat|] == pat;
    forall m | 0 <= m < |pat| ensures s[i + k + m] == pat[m] {
      assert t[k..k + |pat|][m] == t[k + m] == s[i + k + m];
    }
    assert s[i + k..i + k + |pat|] == pat;
    assert MatchAt(s, pat, i + k);
  }
}
